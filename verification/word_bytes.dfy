/**
 * The 16-bit register value and the two bytes that carry it on the wire.
 * The device sends and expects the least significant byte first.
 *
 * `Byte` and `Word` model C's `uint8_t` and `uint16_t` as bounded integers.
 * The driver writes the bytes as `value & 0xFF` and `(value >> 8) & 0xFF`
 * and rebuilds a value as `(msb << 8) | lsb`; the lemmas at the end of this
 * module show, in 8- and 16-bit bit-vector arithmetic, that these bit
 * expressions correspond to the remainder, quotient and sum used here.
 */
module WordBytes {

  type Byte = x: int | 0 <= x < 0x100
  type Word = x: int | 0 <= x < 0x1_0000

  /** The byte sent first: `value & 0xFF`. */
  function LowByte(v: Word): (r: Byte)
    ensures v == HighByte(v) * 0x100 + r
  {
    v % 0x100
  }

  /** The byte sent second: `(value >> 8) & 0xFF`. */
  function HighByte(v: Word): (r: Byte)
    ensures r * 0x100 <= v < (r + 1) * 0x100
  {
    v / 0x100
  }

  /** The value rebuilt from the first (`lsb`) and second (`msb`) byte received. */
  function Combine(lsb: Byte, msb: Byte): (r: Word)
    ensures r % 0x100 == lsb && r / 0x100 == msb
  {
    msb * 0x100 + lsb
  }

  /** Splitting a value into its wire bytes and combining them gives it back. */
  lemma CombineSplit(v: Word)
    ensures Combine(LowByte(v), HighByte(v)) == v
  {
  }

  /** Combining two bytes and splitting the result gives back both bytes, in order. */
  lemma SplitCombine(lsb: Byte, msb: Byte)
    ensures LowByte(Combine(lsb, msb)) == lsb
    ensures HighByte(Combine(lsb, msb)) == msb
  {
  }

  /** Two values with the same wire bytes are the same value. */
  lemma SplitInjective(v: Word, w: Word)
    requires LowByte(v) == LowByte(w) && HighByte(v) == HighByte(w)
    ensures v == w
  {
    CombineSplit(v);
    CombineSplit(w);
  }

  /** `value & 0xFF` is the remainder by 256 in unsigned 16-bit arithmetic. */
  lemma MaskIsRemainder(v: bv16)
    ensures v & 0xFF == v % 0x100
  {
  }

  /** `(value >> 8) & 0xFF` is the quotient by 256 in unsigned 16-bit arithmetic. */
  lemma ShiftIsQuotient(v: bv16)
    ensures (v >> 8) & 0xFF == v / 0x100
  {
  }

  /** `(msb << 8) | lsb` is `msb * 256 + lsb`: the two bytes occupy disjoint bits. */
  lemma ShiftOrIsSum(lsb: bv8, msb: bv8)
    ensures ((msb as bv16) << 8) | (lsb as bv16) == (msb as bv16) * 0x100 + (lsb as bv16)
  {
  }
}
