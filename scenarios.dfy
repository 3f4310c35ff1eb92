/** Callers of the driver: what they can conclude from its contracts about
    concrete commands and replies. */
module Scenarios {
  import opened Wire
  import opened Frame
  import opened Response
  import opened Valve

  /** A reply with one stray byte before it; one of its own data bytes is
      0xCC, which must not restart the capture. */
  const STRAY_REPLY: seq<byte> := [0x00, 0xCC, 0xAA, 0xBB, 0xCC, 0xDD, 0xEE, 0xFF, 0x11]

  lemma StrayReplyCaptured()
    ensures CanCapture(STRAY_REPLY)
    ensures Captured(STRAY_REPLY) == [0xCC, 0xAA, 0xBB, 0xCC, 0xDD, 0xEE, 0xFF, 0x11]
    ensures Remaining(STRAY_REPLY) == []
  {
    CaptureAfterStrayBytes([0x00], STRAY_REPLY[1..], []);
    assert [0x00] + STRAY_REPLY[1..] + [] == STRAY_REPLY;
  }

  /** Moving a valve at address 0 to output FIVE sends CC 00 44 05 00 DD F2 01
      and leaves it not homed, whatever the reply. */
  method MoveToFive(rx: seq<byte>) returns (sent: seq<byte>, reply: seq<byte>, homed: bool)
    requires CanCapture(rx)
    ensures sent == [0xCC, 0x00, 0x44, 0x05, 0x00, 0xDD, 0xF2, 0x01]
    ensures reply == Captured(rx)
    ensures !homed
  {
    var valve := new RotaryValve(0x00);
    var rest := valve.Move(FIVE, rx);
    sent := valve.GetBuff();
    MoveFiveFrame();
    reply := valve.GetMessage();
    homed := valve.isHome;
  }

  /** Homing a valve at address 0 sends CC 00 45 00 00 DD EE 01. A later move
      clears the flag and a later home sets it again; the reply bytes play no
      part in either. */
  method HomeMoveHome(rx1: seq<byte>, rx2: seq<byte>, rx3: seq<byte>)
    returns (sent: seq<byte>, homed1: bool, homed2: bool, homed3: bool)
    requires CanCapture(rx1) && CanCapture(rx2) && CanCapture(rx3)
    ensures sent == [0xCC, 0x00, 0x45, 0x00, 0x00, 0xDD, 0xEE, 0x01]
    ensures homed1 && !homed2 && homed3
  {
    var valve := new RotaryValve();
    var rest := valve.Home(rx1);
    sent := valve.GetBuff();
    HomeFrame();
    homed1 := valve.isHome;
    rest := valve.Move(TWELVE, rx2);
    homed2 := valve.isHome;
    rest := valve.Home(rx3);
    homed3 := valve.isHome;
  }

  /** The home command sent to a valve answering with one stray byte first
      captures the realigned reply and writes exactly one frame. */
  method HomeWithStrayByte() returns (reply: seq<byte>, written: seq<byte>)
    ensures reply == [0xCC, 0xAA, 0xBB, 0xCC, 0xDD, 0xEE, 0xFF, 0x11]
    ensures written == [0xCC, 0x00, 0x45, 0x00, 0x00, 0xDD, 0xEE, 0x01]
  {
    StrayReplyCaptured();
    var valve := new RotaryValve(0x00);
    var rest := valve.Home(STRAY_REPLY);
    reply := valve.GetMessage();
    written := valve.wire;
    HomeFrame();
  }

  /** Rebuilding without changing the fields reproduces the same frame. */
  method RebuildIsIdentical(position: Position, rx: seq<byte>) returns (first: seq<byte>, second: seq<byte>)
    requires CanCapture(rx)
    ensures first == second
    ensures Decode(first) == Some(Fields(0x07, MOVE, position))
  {
    var valve := new RotaryValve(0x07);
    var rest := valve.Move(position, rx);
    first := valve.GetBuff();
    valve.BuildPacket();
    second := valve.GetBuff();
    DecodeEncode(0x07, MOVE, position);
  }

  /** A corrupted checksum field does not make Verify fail: Verify rewrites
      it and reports success, while the frame in `buff` stays as it was. */
  method VerifyRepairsChecksum(rx: seq<byte>) returns (ok: bool, repaired: u16, frame: seq<byte>)
    requires CanCapture(rx)
    ensures ok
    ensures repaired == 0x01F2
    ensures frame == [0xCC, 0x00, 0x44, 0x05, 0x00, 0xDD, 0xF2, 0x01]
  {
    var valve := new RotaryValve(0x00);
    var rest := valve.Move(FIVE, rx);
    assert valve.start == STX && valve.end == ETX && valve.address == 0x00;
    assert FieldSum(valve.start, valve.address, valve.func, valve.param, valve.end) == 0xCC + 0x00 + 0x44 + 0x05 + 0xDD;
    frame := valve.GetBuff();
    MoveFiveFrame();
    valve.checksum := 0x1234;
    ok := valve.Verify();
    repaired := valve.checksum;
  }

  /** A frame whose field sum exceeds 16 bits is refused by Verify and so is
      never sent, although its stored checksum is the truncated sum that
      the receiver expects. */
  method LargeParameterNotSent(rx: seq<byte>) returns (ok: bool, valid: bool, written: seq<byte>)
    ensures !ok && valid
    ensures written == []
  {
    var valve := new RotaryValve(0x00);
    valve.func := 0x00;
    valve.param := 0xFFFF;
    valve.BuildPacket();
    assert valve.start == STX && valve.end == ETX && valve.address == 0x00;
    assert FieldSum(valve.start, valve.address, valve.func, valve.param, valve.end) == 0xCC + 0x00 + 0x00 + 0xFFFF + 0xDD;
    DecodeEncode(0x00, 0x00, 0xFFFF);
    valid := Decode(valve.buff[..]).Some?;
    ok := valve.Verify();
    var rest := valve.SendPacket(rx);
    written := valve.wire;
  }
}
