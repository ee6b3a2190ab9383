/** The check value of CRC-32: the checksum of the nine digits "123456789". */
module CheckValue {
  import opened Words
  import opened Crc32Spec
  import opened Crc32

  // ---------- Machine words of 32 bits ----------

  predicate Same0(w: Word, x: bv32) {
    && (w[0] <==> x & 0x1 != 0) && (w[1] <==> x & 0x2 != 0)
    && (w[2] <==> x & 0x4 != 0) && (w[3] <==> x & 0x8 != 0)
    && (w[4] <==> x & 0x10 != 0) && (w[5] <==> x & 0x20 != 0)
    && (w[6] <==> x & 0x40 != 0) && (w[7] <==> x & 0x80 != 0)
  }

  predicate Same1(w: Word, x: bv32) {
    && (w[8] <==> x & 0x100 != 0) && (w[9] <==> x & 0x200 != 0)
    && (w[10] <==> x & 0x400 != 0) && (w[11] <==> x & 0x800 != 0)
    && (w[12] <==> x & 0x1000 != 0) && (w[13] <==> x & 0x2000 != 0)
    && (w[14] <==> x & 0x4000 != 0) && (w[15] <==> x & 0x8000 != 0)
  }

  predicate Same2(w: Word, x: bv32) {
    && (w[16] <==> x & 0x10000 != 0) && (w[17] <==> x & 0x20000 != 0)
    && (w[18] <==> x & 0x40000 != 0) && (w[19] <==> x & 0x80000 != 0)
    && (w[20] <==> x & 0x100000 != 0) && (w[21] <==> x & 0x200000 != 0)
    && (w[22] <==> x & 0x400000 != 0) && (w[23] <==> x & 0x800000 != 0)
  }

  predicate Same3(w: Word, x: bv32) {
    && (w[24] <==> x & 0x1000000 != 0) && (w[25] <==> x & 0x2000000 != 0)
    && (w[26] <==> x & 0x4000000 != 0) && (w[27] <==> x & 0x8000000 != 0)
    && (w[28] <==> x & 0x10000000 != 0) && (w[29] <==> x & 0x20000000 != 0)
    && (w[30] <==> x & 0x40000000 != 0) && (w[31] <==> x & 0x80000000 != 0)
  }

  /** Bit k of the machine word is bit k of the word. */
  predicate Same(w: Word, x: bv32) {
    Same0(w, x) && Same1(w, x) && Same2(w, x) && Same3(w, x)
  }

  lemma SamePlus(w: Word, v: Word, x: bv32, y: bv32)
    requires Same(w, x) && Same(v, y)
    ensures Same(Plus(w, v), x ^ y)
  {
    assert Same0(Plus(w, v), x ^ y);
    assert Same1(Plus(w, v), x ^ y);
    assert Same2(Plus(w, v), x ^ y);
    assert Same3(Plus(w, v), x ^ y);
  }

  function Shifted(x: bv32): bv32 {
    (x >> 1) ^ (if x & 1 != 0 then 0xEDB88320 else 0)
  }

  lemma SameStepLow(w: Word, x: bv32)
    requires Same(w, x)
    ensures Same0(Step(w), Shifted(x)) && Same1(Step(w), Shifted(x))
  {
    BitsOfReversed(Reversed());
    assert Same0(Step(w), Shifted(x));
    assert Same1(Step(w), Shifted(x));
  }

  lemma SameStepHigh(w: Word, x: bv32)
    requires Same(w, x)
    ensures Same2(Step(w), Shifted(x)) && Same3(Step(w), Shifted(x))
  {
    BitsOfReversed(Reversed());
    assert Same2(Step(w), Shifted(x));
    assert Same3(Step(w), Shifted(x));
  }

  lemma SameStep(w: Word, x: bv32)
    requires Same(w, x)
    ensures Same(Step(w), Shifted(x))
  {
    SameStepLow(w, x);
    SameStepHigh(w, x);
  }

  function ShiftedByByte(x: bv32): bv32 {
    Shifted(Shifted(Shifted(Shifted(Shifted(Shifted(Shifted(Shifted(x))))))))
  }

  lemma SameSteps(w: Word, x: bv32)
    requires Same(w, x)
    ensures Same(Steps(w, 8), ShiftedByByte(x))
  {
    var w1, x1 := SameTwice(w, x);
    var w2, x2 := SameTwice(w1, x1);
    var w3, x3 := SameTwice(w2, x2);
    var w4, x4 := SameTwice(w3, x3);
    assert Steps(w, 8) == Steps(w1, 6) == Steps(w2, 4) == Steps(w3, 2) == Steps(w4, 0) == w4;
  }

  lemma SameTwice(w: Word, x: bv32) returns (w2: Word, x2: bv32)
    requires Same(w, x)
    ensures w2 == Step(Step(w)) && x2 == Shifted(Shifted(x)) && Same(w2, x2)
  {
    SameStep(w, x);
    SameStep(Step(w), Shifted(x));
    w2, x2 := Step(Step(w)), Shifted(Shifted(x));
  }

  // ---------- Bytes ----------

  function LowBits(y: bv32): seq<bool> {
    [y & 0x1 != 0, y & 0x2 != 0, y & 0x4 != 0, y & 0x8 != 0, y & 0x10 != 0, y & 0x20 != 0, y & 0x40 != 0, y & 0x80 != 0]
  }

  lemma SameAsByte(b: Byte, y: bv32)
    requires y & 0xFFFFFF00 == 0 && BitsOf(b, 8) == LowBits(y)
    ensures Same(WordOf(b), y)
  {
    WordOfByte(b);
  }

  lemma SameByte(r: Word, b: Byte, x: bv32, y: bv32)
    requires Same(r, x) && y & 0xFFFFFF00 == 0 && BitsOf(b, 8) == LowBits(y)
    ensures Same(Run(r, BitsOf(b, 8)), ShiftedByByte(x ^ y))
  {
    SameAsByte(b, y);
    RunIsWord(r, BitsOf(b, 8));
    WordOfByte(b);
    SamePlus(r, WordOf(b), x, y);
    SameSteps(Plus(r, WordOf(b)), x ^ y);
  }

  lemma DigitBits(b: Byte, y: bv32)
    requires b == Bit(y & 0x1 != 0) + 2 * Bit(y & 0x2 != 0) + 4 * Bit(y & 0x4 != 0) + 8 * Bit(y & 0x8 != 0)
                + 16 * Bit(y & 0x10 != 0) + 32 * Bit(y & 0x20 != 0) + 64 * Bit(y & 0x40 != 0) + 128 * Bit(y & 0x80 != 0)
    ensures BitsOf(b, 8) == LowBits(y)
  {
    var w := LowBits(y);
    assert w[0..] == w && w[8..] == [];
    ValueOfByte(w, 0, 0, b);
    BitsOfValue(w);
  }

  lemma SameAsOnes()
    ensures Same(ALL_ONES, 0xFFFFFFFF)
  {
  }

  /** "123456789" in ASCII. */
  const DIGITS: seq<Byte> := [0x31, 0x32, 0x33, 0x34, 0x35, 0x36, 0x37, 0x38, 0x39]

  lemma NextDigit(d: seq<Byte>, k: nat, r: Word, x: bv32, y: bv32, x2: bv32) returns (r2: Word)
    requires k < |d| && Same(r, x) && y & 0xFFFFFF00 == 0 && x2 == ShiftedByByte(x ^ y)
    requires d[k] == Bit(y & 0x1 != 0) + 2 * Bit(y & 0x2 != 0) + 4 * Bit(y & 0x4 != 0) + 8 * Bit(y & 0x8 != 0)
                + 16 * Bit(y & 0x10 != 0) + 32 * Bit(y & 0x20 != 0) + 64 * Bit(y & 0x40 != 0) + 128 * Bit(y & 0x80 != 0)
    ensures Run(r, Bits(d[k..])) == Run(r2, Bits(d[k + 1..])) && Same(r2, x2)
  {
    DigitBits(d[k], y);
    SameByte(r, d[k], x, y);
    assert d[k..][1..] == d[k + 1..];
    RunConcat(r, BitsOf(d[k], 8), Bits(d[k + 1..]));
    r2 := Run(r, BitsOf(d[k], 8));
  }

  lemma Two(d: seq<Byte>) returns (r: Word)
    requires d == DIGITS
    ensures Run(ALL_ONES, Bits(d)) == Run(r, Bits(d[2..])) && Same(r, 0xB0ACBB32)
  {
    r := ALL_ONES;
    SameAsOnes();
    assert d[0..] == d;
    r := NextDigit(d, 0, r, 0xFFFFFFFF, 0x31, 0x7C231048);
    r := NextDigit(d, 1, r, 0x7C231048, 0x32, 0xB0ACBB32);
  }

  lemma Four(d: seq<Byte>) returns (r: Word)
    requires d == DIGITS
    ensures Run(ALL_ONES, Bits(d)) == Run(r, Bits(d[4..])) && Same(r, 0x641C1F5C)
  {
    r := Two(d);
    r := NextDigit(d, 2, r, 0xB0ACBB32, 0x33, 0x77B79C2D);
    r := NextDigit(d, 3, r, 0x77B79C2D, 0x34, 0x641C1F5C);
  }

  lemma Six(d: seq<Byte>) returns (r: Word)
    requires d == DIGITS
    ensures Run(ALL_ONES, Bits(d)) == Run(r, Bits(d[6..])) && Same(r, 0xF68D2C9E)
  {
    r := Four(d);
    r := NextDigit(d, 4, r, 0x641C1F5C, 0x35, 0x340AC5E3);
    r := NextDigit(d, 5, r, 0x340AC5E3, 0x36, 0xF68D2C9E);
  }

  lemma Eight(d: seq<Byte>) returns (r: Word)
    requires d == DIGITS
    ensures Run(ALL_ONES, Bits(d)) == Run(r, Bits(d[8..])) && Same(r, 0x651F2550)
  {
    r := Six(d);
    r := NextDigit(d, 6, r, 0xF68D2C9E, 0x37, 0xAFFC9660);
    r := NextDigit(d, 7, r, 0xAFFC9660, 0x38, 0x651F2550);
  }

  lemma Nine(d: seq<Byte>) returns (r: Word)
    requires d == DIGITS
    ensures Run(ALL_ONES, Bits(d)) == Run(r, Bits(d[9..])) && Same(r, 0x340BC6D9)
  {
    r := Eight(d);
    r := NextDigit(d, 8, r, 0x651F2550, 0x39, 0x340BC6D9);
  }

  lemma SameAsSum(w: Word)
    requires Same(w, 0xCBF43926)
    ensures Value(w) == 0xCBF43926
  {
    assert w[32..] == [] && w[0..] == w;
    ValueOfByte(w, 24, 0x0, 0xCB);
    ValueOfByte(w, 16, 0xCB, 0xF4);
    ValueOfByte(w, 8, 0xCBF4, 0x39);
    ValueOfByte(w, 0, 0xCBF439, 0x26);
  }

  lemma OneByteOf(bits: seq<bool>, d: Byte)
    requires |bits| == 8
    requires d == Bit(bits[0]) + 2 * Bit(bits[1]) + 4 * Bit(bits[2]) + 8 * Bit(bits[3])
                + 16 * Bit(bits[4]) + 32 * Bit(bits[5]) + 64 * Bit(bits[6]) + 128 * Bit(bits[7])
    ensures ByteOf(bits) == d
  {
    assert bits[0..] == bits && bits[8..] == [];
    ValueOfByte(bits, 0, 0, d);
  }

  lemma BytesOfSum(w: Word)
    requires Same(w, 0xCBF43926)
    ensures LittleEndian(w) == [0x26, 0x39, 0xF4, 0xCB]
  {
    OneByteOf(w[..8], 0x26);
    OneByteOf(w[8..16], 0x39);
    OneByteOf(w[16..24], 0xF4);
    OneByteOf(w[24..], 0xCB);
  }

  lemma SumIs(d: seq<Byte>)
    requires d == DIGITS
    ensures Same(Crc(d), 0xCBF43926)
  {
    var r := Nine(d);
    assert d[9..] == [];
    SameAsOnes();
    SamePlus(r, ALL_ONES, 0x340BC6D9, 0xFFFFFFFF);
  }

  /** The published check value, as a number and byte by byte. */
  lemma SumOfDigits(d: seq<Byte>)
    requires d == DIGITS
    ensures Value(Crc(d)) == 0xCBF43926
    ensures LittleEndian(Crc(d)) == [0x26, 0x39, 0xF4, 0xCB]
  {
    SumIs(d);
    SameAsSum(Crc(d));
    BytesOfSum(Crc(d));
  }
}
