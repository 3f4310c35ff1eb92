/** Fixed-width unsigned integers of the RotaryValve driver and the
    little-endian split of a 16-bit value into two bytes. */
module Wire {

  /** `uint8_t` / `unsigned char` */
  type byte = x: int | 0 <= x < 0x100

  /** `uint16_t` */
  type u16 = x: int | 0 <= x < 0x1_0000

  /** `uint32_t` */
  type u32 = x: int | 0 <= x < 0x1_0000_0000

  const MAX_U16: int := 0xFFFF

  datatype Option<T> = None | Some(value: T)

  /** Conversion of an `int` to `uint16_t`: reduction modulo 2^16. */
  function ToU16(x: nat): (r: u16)
    ensures x <= MAX_U16 ==> r == x
    ensures x - r == (x / 0x1_0000) * 0x1_0000
  {
    x % 0x1_0000
  }

  /** `x & 0xFF` on a 16-bit value. */
  function LowByte(x: u16): (lo: byte)
    ensures (x - lo) % 0x100 == 0
  {
    x % 0x100
  }

  /** `(x & 0xFF00) >> 8` on a 16-bit value. */
  function HighByte(x: u16): (hi: byte)
    ensures 0x100 * hi <= x < 0x100 * (hi + 1)
  {
    x / 0x100
  }

  /** The 16-bit value whose low byte is `lo` and whose high byte is `hi`. */
  function Le16(lo: byte, hi: byte): (x: u16)
    ensures LowByte(x) == lo && HighByte(x) == hi
  {
    lo + 0x100 * hi
  }

  /** Splitting a 16-bit value into its two bytes loses nothing. */
  lemma SplitJoin(x: u16)
    ensures Le16(LowByte(x), HighByte(x)) == x
  {
  }
}
