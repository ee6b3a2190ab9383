/** Machine words and bytes.  An unsigned word is the sequence of its bits, bit k at index k, so that
    shifting and masking are slices; a byte is a number. */
module Words {

  type Byte = b: int | 0 <= b < 256

  function Zeros(n: nat): (z: seq<bool>) {
    seq(n, k => false)
  }

  function Ones(n: nat): (z: seq<bool>) {
    seq(n, k => true)
  }

  /** An `unsigned int` of 32 bits. */
  type Word = w: seq<bool> | |w| == 32 witness Zeros(32)

  const ZERO: Word := Zeros(32)

  const ONE: Word := [true] + Zeros(31)

  const ALL_ONES: Word := Ones(32)

  /** Exclusive or. */
  function Plus(a: seq<bool>, b: seq<bool>): (c: seq<bool>)
    requires |a| == |b|
  {
    seq(|a|, k requires 0 <= k < |a| => a[k] != b[k])
  }

  /** Inclusive or. */
  function Or(a: Word, b: Word): Word {
    seq(32, k requires 0 <= k < 32 => a[k] || b[k])
  }

  function ShiftRight(a: Word, n: nat): Word
    requires n <= 32
  {
    a[n..] + Zeros(n)
  }

  function ShiftLeft(a: Word, n: nat): Word
    requires n <= 32
  {
    Zeros(n) + a[..32 - n]
  }

  /** The unsigned number that the bits stand for. */
  function Value(bits: seq<bool>): (v: nat) {
    if bits == [] then 0 else (if bits[0] then 1 else 0) + 2 * Value(bits[1..])
  }

  /** The lowest `n` bits of a number. */
  function BitsOf(v: nat, n: nat): (bits: seq<bool>)
    ensures |bits| == n
  {
    if n == 0 then [] else [v % 2 == 1] + BitsOf(v / 2, n - 1)
  }

  function Bit(b: bool): nat {
    if b then 1 else 0
  }

  lemma ValueOfOne(w: seq<bool>, k: nat)
    requires k < |w|
    ensures Value(w[k..]) == Bit(w[k]) + 2 * Value(w[k + 1..])
  {
    assert w[k..][1..] == w[k + 1..];
  }

  /** The number that the bits from position k on stand for, one hexadecimal digit at a time. */
  lemma ValueOfDigit(w: seq<bool>, k: nat)
    requires k + 4 <= |w|
    ensures Value(w[k..])
         == Bit(w[k]) + 2 * Bit(w[k + 1]) + 4 * Bit(w[k + 2]) + 8 * Bit(w[k + 3]) + 16 * Value(w[k + 4..])
  {
    ValueOfOne(w, k);
    ValueOfOne(w, k + 1);
    ValueOfOne(w, k + 2);
    ValueOfOne(w, k + 3);
  }

  lemma ValueOfByte(w: seq<bool>, k: nat, v: nat, d: nat)
    requires k + 8 <= |w| && v == Value(w[k + 8..])
    requires d == Bit(w[k]) + 2 * Bit(w[k + 1]) + 4 * Bit(w[k + 2]) + 8 * Bit(w[k + 3])
                + 16 * Bit(w[k + 4]) + 32 * Bit(w[k + 5]) + 64 * Bit(w[k + 6]) + 128 * Bit(w[k + 7])
    ensures Value(w[k..]) == 256 * v + d
  {
    ValueOfDigit(w, k);
    ValueOfDigit(w, k + 4);
  }

  function Pow2(n: nat): (p: nat)
    ensures p > 0
  {
    if n == 0 then 1 else 2 * Pow2(n - 1)
  }

  lemma {:induction false} ValueOfBits(v: nat, n: nat)
    requires v < Pow2(n)
    ensures Value(BitsOf(v, n)) == v
  {
    if n > 0 {
      ValueOfBits(v / 2, n - 1);
    }
  }

  lemma {:induction false} BitsOfValue(bits: seq<bool>)
    ensures BitsOf(Value(bits), |bits|) == bits
    ensures Value(bits) < Pow2(|bits|)
    decreases |bits|
  {
    if bits != [] {
      BitsOfValue(bits[1..]);
    }
  }

  lemma {:induction false} BitsOfZero(n: nat)
    ensures BitsOf(0, n) == Zeros(n)
  {
    if n > 0 {
      BitsOfZero(n - 1);
    }
  }

  lemma {:induction false} BitsOfPad(v: nat, m: nat, n: nat)
    requires v < Pow2(m)
    ensures BitsOf(v, m + n) == BitsOf(v, m) + Zeros(n)
    decreases m
  {
    if m == 0 {
      BitsOfZero(n);
    } else {
      BitsOfPad(v / 2, m - 1, n);
    }
  }

  lemma PowersOfTwo()
    ensures Pow2(8) == 256
  {
    assert Pow2(4) == 16;
  }

  /** A byte as a word. */
  function WordOf(b: Byte): Word {
    BitsOf(b, 32)
  }

  /** Eight bits as a byte. */
  function ByteOf(bits: seq<bool>): Byte
    requires |bits| == 8
  {
    Value(bits) % 256
  }

  lemma ByteOfBits(bits: seq<bool>)
    requires |bits| == 8
    ensures ByteOf(bits) == Value(bits) && BitsOf(ByteOf(bits), 8) == bits
  {
    PowersOfTwo();
    BitsOfValue(bits);
  }

  lemma WordOfByte(b: Byte)
    ensures WordOf(b) == BitsOf(b, 8) + Zeros(24)
  {
    PowersOfTwo();
    BitsOfPad(b, 8, 24);
  }
}
