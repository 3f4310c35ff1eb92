/** The ERV-06 command frame STX|ADDR|FUNC|PARAML|PARAMH|ETX|SUML|SUMH:
    its layout, its additive checksum, and a decoder that reads it back. */
module Frame {
  import opened Wire

  /** Start byte of a command packet. */
  const STX: byte := 0xCC
  /** End byte of a command packet. */
  const ETX: byte := 0xDD
  const FRAME_SIZE: nat := 8

  /** `start + address + func + param + end` as C++ evaluates it: every
      operand is promoted to `int`, so nothing wraps. */
  function FieldSum(start: byte, address: byte, func: byte, param: u16, end: byte): (sum: nat)
    ensures sum <= 4 * 0xFF + MAX_U16
    ensures param <= sum
  {
    start + address + func + param + end
  }

  /** The checksum of a frame, the field sum stored into a `uint16_t`. */
  function Checksum(address: byte, func: byte, param: u16): (sum: u16)
    ensures FieldSum(STX, address, func, param, ETX) <= MAX_U16 ==> sum == FieldSum(STX, address, func, param, ETX)
    ensures FieldSum(STX, address, func, param, ETX) > MAX_U16 ==> sum == FieldSum(STX, address, func, param, ETX) - 0x1_0000
  {
    ToU16(FieldSum(STX, address, func, param, ETX))
  }

  /** The eight bytes `buildPacket` writes for the given fields. */
  function Encode(address: byte, func: byte, param: u16): (f: seq<byte>)
    ensures |f| == FRAME_SIZE
  {
    var sum := Checksum(address, func, param);
    [STX, address, func, LowByte(param), HighByte(param), ETX, LowByte(sum), HighByte(sum)]
  }

  /** A built frame carries the markers, the address and the function code
      in their places, and its parameter and checksum read back little-endian. */
  lemma EncodeFields(address: byte, func: byte, param: u16)
    ensures var f := Encode(address, func, param);
      f[0] == STX && f[1] == address && f[2] == func && f[5] == ETX &&
      Le16(f[3], f[4]) == param && Le16(f[6], f[7]) == Checksum(address, func, param)
  {
    SplitJoin(param);
    SplitJoin(Checksum(address, func, param));
  }

  /** The three fields a command frame carries. */
  datatype Fields = Fields(address: byte, func: byte, param: u16)

  /** What a receiver of the frame checks: the length, both markers and
      the checksum; on success, the fields read back little-endian. */
  function Decode(f: seq<byte>): (r: Option<Fields>)
    ensures r.Some? ==> f == Encode(r.value.address, r.value.func, r.value.param)
  {
    if |f| == FRAME_SIZE && f[0] == STX && f[5] == ETX
       && Le16(f[6], f[7]) == Checksum(f[1], f[2], Le16(f[3], f[4]))
    then
      var g := Encode(f[1], f[2], Le16(f[3], f[4]));
      assert forall i :: 0 <= i < FRAME_SIZE ==> g[i] == f[i];
      Some(Fields(f[1], f[2], Le16(f[3], f[4])))
    else None
  }

  /** Every frame the encoder builds decodes to the fields it was built from. */
  lemma DecodeEncode(address: byte, func: byte, param: u16)
    ensures Decode(Encode(address, func, param)) == Some(Fields(address, func, param))
  {
    EncodeFields(address, func, param);
  }

  /** Two field sums closer than 2^16 that differ keep differing once truncated. */
  lemma {:induction false} TruncationSeparates(x: nat, y: nat)
    requires x != y && -0x1_0000 < x - y < 0x1_0000
    ensures ToU16(x) != ToU16(y)
  {
    var qx, qy := x / 0x1_0000, y / 0x1_0000;
    assert x - ToU16(x) == qx * 0x1_0000 && y - ToU16(y) == qy * 0x1_0000;
    assert ToU16(x) - ToU16(y) == (x - y) - (qx - qy) * 0x1_0000;
  }

  /** Changing any one byte of a built frame makes the receiver reject it:
      the markers catch bytes 0 and 5, the checksum every other byte. */
  lemma SingleByteErrorDetected(address: byte, func: byte, param: u16, i: nat, b: byte)
    requires i < FRAME_SIZE
    requires b != Encode(address, func, param)[i]
    ensures Decode(Encode(address, func, param)[i := b]) == None
  {
    var f := Encode(address, func, param);
    EncodeFields(address, func, param);
    var g := f[i := b];
    var s := FieldSum(STX, address, func, param, ETX);
    if i == 1 || i == 2 || i == 3 || i == 4 {
      var p := Le16(g[3], g[4]);
      var t := FieldSum(STX, g[1], g[2], p, ETX);
      if i == 3 {
        assert p - param == b - f[3];
      } else if i == 4 {
        assert p - param == 0x100 * (b - f[4]);
      }
      TruncationSeparates(s, t);
      assert Le16(g[6], g[7]) == ToU16(s);
    } else if i == 6 || i == 7 {
      assert Le16(g[3], g[4]) == param;
      assert Le16(g[6], g[7]) != ToU16(s);
    }
  }
}
