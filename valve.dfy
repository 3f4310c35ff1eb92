/** The `RotaryValve` driver: it holds the fields of the next command
    frame, builds it into `buff`, sends it and captures the valve's reply
    in `message`. The serial line is modelled by two sequences: `wire`,
    every byte written so far, and a stream of incoming bytes handed to
    each sending method, which returns what it did not consume. */
module Valve {
  import opened Wire
  import opened Frame
  import opened Response

  /** Function code of a move command. */
  const MOVE: byte := 0x44
  /** Function code of a home command. */
  const HOME: byte := 0x45

  /** The twelve valve outputs; each is its own 16-bit parameter value. */
  type Position = p: u16 | 1 <= p <= 12 witness 1

  const ONE: Position := 0x0001
  const TWO: Position := 0x0002
  const THREE: Position := 0x0003
  const FOUR: Position := 0x0004
  const FIVE: Position := 0x0005
  const SIX: Position := 0x0006
  const SEVEN: Position := 0x0007
  const EIGHT: Position := 0x0008
  const NINE: Position := 0x0009
  const TEN: Position := 0x000A
  const ELEVEN: Position := 0x000B
  const TWELVE: Position := 0x000C

  /** The `Action` values: a function code shifted to bits 16 and up,
      above a zero 16-bit parameter. */
  const STATUS_VALVE: nat := 0x3E * 0x1_0000
  const STATUS_MOTOR: nat := 0x4A * 0x1_0000

  /** Splits an action value into its function code and its parameter. */
  function ActionFields(action: nat): (r: (nat, u16))
    ensures action == r.0 * 0x1_0000 + r.1
  {
    (action / 0x1_0000, action % 0x1_0000)
  }

  /** Both actions carry their function code and a zero parameter. */
  lemma ActionLayout()
    ensures ActionFields(STATUS_VALVE) == (0x3E, 0)
    ensures ActionFields(STATUS_MOTOR) == (0x4A, 0)
  {
  }

  /** A move or home frame never overflows 16 bits, whatever the address,
      so the transport's verification passes for it. */
  lemma CommandSumFits(address: byte, func: byte, param: u16)
    requires func == MOVE || func == HOME
    requires param <= 12
    ensures FieldSum(STX, address, func, param, ETX) <= 0xCC + 0xFF + HOME + 12 + 0xDD
    ensures Checksum(address, func, param) == FieldSum(STX, address, func, param, ETX)
  {
  }

  /** Moving a valve at address 0 to output FIVE: the checksum is
      0xCC + 0x00 + 0x44 + 0x05 + 0xDD = 0x01F2. */
  lemma MoveFiveFrame()
    ensures Encode(0x00, MOVE, FIVE) == [0xCC, 0x00, 0x44, 0x05, 0x00, 0xDD, 0xF2, 0x01]
  {
  }

  /** Homing a valve at address 0: the checksum is
      0xCC + 0x00 + 0x45 + 0x00 + 0xDD = 0x01EE. */
  lemma HomeFrame()
    ensures Encode(0x00, HOME, 0) == [0xCC, 0x00, 0x45, 0x00, 0x00, 0xDD, 0xEE, 0x01]
  {
  }

  /** Stands in for the platform's default baud rate. */
  const DEFAULT_BAUD: u32 := 9600

  class RotaryValve {
    var baudrate: u32
    var start: byte
    var address: byte
    var func: byte
    var param: u16
    var end: byte
    var checksum: u16
    const buff: array<byte>
    const message: array<byte>
    var isHome: bool

    /** Every byte written to the serial line so far. */
    var wire: seq<byte>
    /** Whether `start` and `end` hold values, which only `BuildPacket` gives them. */
    ghost var built: bool

    ghost predicate Shape()
    {
      buff.Length == FRAME_SIZE && message.Length == FRAME_SIZE && buff != message
    }

    /** Once a packet has been built, `buff` and `checksum` agree with the
        fields they were built from. */
    ghost predicate Valid()
      reads this, buff
      ensures Valid() ==> Shape()
    {
      Shape() &&
      (built ==>
        start == STX && end == ETX &&
        checksum == Checksum(address, func, param) &&
        buff[..] == Encode(address, func, param))
    }

    /** The frame a valid, built valve holds is one the receiver accepts,
        and it reads back as the valve's own fields. */
    lemma HeldFrameDecodes()
      requires Valid() && built
      ensures Decode(buff[..]) == Some(Fields(address, func, param))
    {
      DecodeEncode(address, func, param);
    }

    constructor (adrs: byte := 0x00, baud: u32 := DEFAULT_BAUD)
      ensures Valid() && !built
      ensures address == adrs && baudrate == baud
      ensures !isHome && wire == []
      ensures fresh(buff) && fresh(message)
    {
      address := adrs;
      baudrate := baud;
      isHome := false;
      wire := [];
      built := false;
      buff := new byte[FRAME_SIZE];
      message := new byte[FRAME_SIZE];
    }

    /** Fills `buff` with the frame for the current address, function and
        parameter, and records its checksum. */
    method BuildPacket()
      requires Shape()
      modifies this, buff
      ensures Valid() && built
      ensures address == old(address) && func == old(func) && param == old(param)
      ensures baudrate == old(baudrate) && isHome == old(isHome) && wire == old(wire)
      ensures start == STX && end == ETX
      ensures checksum == Checksum(address, func, param)
      ensures buff[..] == Encode(address, func, param)
    {
      start := STX;
      end := ETX;
      checksum := ToU16(start + address + func + param + end);
      var paramH := HighByte(param);
      var paramL := LowByte(param);
      var sumH := HighByte(checksum);
      var sumL := LowByte(checksum);

      buff[0] := start;
      buff[1] := address;
      buff[2] := func;
      buff[3] := paramL;
      buff[4] := paramH;
      buff[5] := end;
      buff[6] := sumL;
      buff[7] := sumH;
      built := true;
    }

    /** A copy of the frame in `buff`. */
    method GetBuff() returns (packet: seq<byte>)
      requires Shape()
      ensures packet == buff[..]
    {
      var copy := new byte[FRAME_SIZE];
      for i := 0 to FRAME_SIZE
        invariant forall j :: 0 <= j < i ==> copy[j] == buff[j]
      {
        copy[i] := buff[i];
      }
      packet := copy[..];
    }

    /** A copy of the last reply in `message`. */
    method GetMessage() returns (packet: seq<byte>)
      requires Shape()
      ensures packet == message[..]
    {
      var copy := new byte[FRAME_SIZE];
      for i := 0 to FRAME_SIZE
        invariant forall j :: 0 <= j < i ==> copy[j] == message[j]
      {
        copy[i] := message[i];
      }
      packet := copy[..];
    }

    /** Overwrites `checksum` with the truncated field sum, then reports
        whether it equals the untruncated sum: false exactly when the sum
        exceeds 16 bits, whatever `checksum` held before. `buff` is not
        touched, so a stale frame is not repaired. */
    method Verify() returns (ok: bool)
      requires Shape() && built
      modifies this
      ensures start == old(start) && address == old(address) && func == old(func)
      ensures param == old(param) && end == old(end) && built == old(built)
      ensures baudrate == old(baudrate) && isHome == old(isHome) && wire == old(wire)
      ensures checksum == ToU16(FieldSum(start, address, func, param, end))
      ensures ok <==> FieldSum(start, address, func, param, end) <= MAX_U16
      ensures old(Valid()) ==> Valid()
    {
      if checksum != start + address + func + param + end {
        checksum := ToU16(start + address + func + param + end);
      }
      if checksum == start + address + func + param + end {
        ok := true;
      } else {
        ok := false;
      }
    }

    /** When `Verify` passes, writes `buff` to the line, clears `message`,
        drops incoming bytes up to the first start byte and reads that byte
        and the seven after it into `message`. Otherwise sends and reads
        nothing. */
    method SendPacket(rx: seq<byte>) returns (rest: seq<byte>)
      requires Shape() && built
      requires FieldSum(start, address, func, param, end) <= MAX_U16 ==> CanCapture(rx)
      modifies this, message
      ensures start == old(start) && address == old(address) && func == old(func)
      ensures param == old(param) && end == old(end) && built == old(built)
      ensures baudrate == old(baudrate) && isHome == old(isHome)
      ensures checksum == ToU16(FieldSum(start, address, func, param, end))
      ensures FieldSum(start, address, func, param, end) <= MAX_U16 ==>
        wire == old(wire) + buff[..] && message[..] == Captured(rx) && rest == Remaining(rx)
      ensures FieldSum(start, address, func, param, end) > MAX_U16 ==>
        wire == old(wire) && message[..] == old(message[..]) && rest == rx
      ensures old(Valid()) ==> Valid()
    {
      rest := rx;
      var ok := Verify();
      if ok {
        wire := wire + buff[..];
        forall i | 0 <= i < FRAME_SIZE {
          message[i] := 0;
        }
        ghost var first := FirstStart(rx).value;
        var k := 0;
        var listening := true;
        // The source's do-while: `listening` starts true, so the body runs first.
        while listening
          modifies message
          invariant listening ==> k <= first
          invariant !listening ==> k == first + FRAME_SIZE && message[..] == rx[first .. first + FRAME_SIZE]
          decreases if listening then first + 1 - k else 0
        {
          message[0] := rx[k];
          k := k + 1;
          if message[0] == STX {
            assert k - 1 == first;
            forall j | 1 <= j < FRAME_SIZE {
              message[j] := rx[k + j - 1];
            }
            k := k + 7;
            listening := false;
          }
        }
        rest := rx[k..];
      }
    }

    /** Turns the valve so that its center connects to `position`. */
    method Move(position: Position, rx: seq<byte>) returns (rest: seq<byte>)
      requires Shape()
      requires CanCapture(rx)
      modifies this, buff, message
      ensures Valid() && built
      ensures address == old(address) && baudrate == old(baudrate)
      ensures func == MOVE && param == position
      ensures buff[..] == Encode(address, MOVE, position)
      ensures wire == old(wire) + Encode(address, MOVE, position)
      ensures message[..] == Captured(rx) && rest == Remaining(rx)
      ensures !isHome
    {
      func := MOVE;
      param := position;
      BuildPacket();
      CommandSumFits(address, func, param);
      rest := SendPacket(rx);
      isHome := false;
    }

    /** Sends the valve to its home position; the reply is not inspected. */
    method Home(rx: seq<byte>) returns (rest: seq<byte>)
      requires Shape()
      requires CanCapture(rx)
      modifies this, buff, message
      ensures Valid() && built
      ensures address == old(address) && baudrate == old(baudrate)
      ensures func == HOME && param == 0
      ensures buff[..] == Encode(address, HOME, 0)
      ensures wire == old(wire) + Encode(address, HOME, 0)
      ensures message[..] == Captured(rx) && rest == Remaining(rx)
      ensures isHome
    {
      func := HOME;
      param := 0x00;
      BuildPacket();
      CommandSumFits(address, func, param);
      rest := SendPacket(rx);
      isHome := true;
    }
  }
}
