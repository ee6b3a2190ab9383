/** The CRC-32 of section 8 of RFC 1952 (section 8.1.1.6.2 of ITU-T V.42), one message bit at a time.

    A message is a sequence of bits in transmission order, the least significant bit of each byte
    first.  The register holds the remainder with its highest power of x in bit 0.  Everything here is
    about messages of arbitrary length. */
module Crc32Spec {
  import opened Words

  /** The powers of x in the generator polynomial. */
  const EXPONENTS: set<int> := {32, 26, 23, 22, 16, 12, 11, 10, 8, 7, 5, 4, 2, 1, 0}

  /** The generator without its leading term, with the power 31 in bit 0. */
  function Reversed(): Word {
    seq(32, k => 31 - k in EXPONENTS)
  }

  /** One step of the division by the generator. */
  function Step(r: Word): Word {
    Plus(r[1..] + [false], if r[0] then Reversed() else ZERO)
  }

  function Steps(r: Word, n: nat): Word
    decreases n
  {
    if n == 0 then r else Steps(Step(r), n - 1)
  }

  /** The register after one message bit. */
  function Feed(r: Word, bit: bool): Word {
    Step(r[0 := r[0] != bit])
  }

  /** The register after the given bits have been shifted in. */
  function Run(r: Word, bits: seq<bool>): Word
    decreases |bits|
  {
    if bits == [] then r else Run(Feed(r, bits[0]), bits[1..])
  }

  function Bits(bytes: seq<Byte>): (bits: seq<bool>)
    ensures |bits| == 8 * |bytes|
  {
    if bytes == [] then [] else BitsOf(bytes[0], 8) + Bits(bytes[1..])
  }

  /** The checksum of a message. */
  function Crc(bytes: seq<Byte>): Word {
    Plus(Run(ALL_ONES, Bits(bytes)), ALL_ONES)
  }

  // ---------- The register is linear and loses nothing ----------

  lemma StepLinear(a: Word, b: Word)
    ensures Step(Plus(a, b)) == Plus(Step(a), Step(b))
  {
  }

  lemma StepZero(a: Word)
    ensures Step(a) == ZERO <==> a == ZERO
  {
    assert Reversed()[31];
    assert Step(a)[31] == a[0];
    if Step(a) == ZERO {
      forall k | 0 < k < 32 ensures !a[k] {
        assert Step(a)[k - 1] == a[k];
      }
    }
  }

  lemma {:induction false} StepsLinear(a: Word, b: Word, n: nat)
    ensures Steps(Plus(a, b), n) == Plus(Steps(a, n), Steps(b, n))
    decreases n
  {
    if n > 0 {
      StepLinear(a, b);
      StepsLinear(Step(a), Step(b), n - 1);
    }
  }

  lemma {:induction false} StepsZero(a: Word, n: nat)
    ensures Steps(a, n) == ZERO <==> a == ZERO
    decreases n
  {
    if n > 0 {
      StepZero(a);
      StepsZero(Step(a), n - 1);
    }
  }

  /** Two runs over messages of equal length differ by the run of the difference. */
  lemma {:induction false} RunLinear(r: Word, s: Word, x: seq<bool>, y: seq<bool>)
    requires |x| == |y|
    ensures Plus(Run(r, x), Run(s, y)) == Run(Plus(r, s), Plus(x, y))
    decreases |x|
  {
    if x != [] {
      var r', s' := r[0 := r[0] != x[0]], s[0 := s[0] != y[0]];
      RunLinear(Step(r'), Step(s'), x[1..], y[1..]);
      StepLinear(r', s');
      assert Plus(r', s') == Plus(r, s)[0 := Plus(r, s)[0] != Plus(x, y)[0]];
      assert Plus(x, y)[1..] == Plus(x[1..], y[1..]);
    }
  }

  lemma {:induction false} RunConcat(r: Word, x: seq<bool>, y: seq<bool>)
    ensures Run(r, x + y) == Run(Run(r, x), y)
    decreases |x|
  {
    if x == [] {
      assert x + y == y;
    } else {
      assert (x + y)[1..] == x[1..] + y;
      RunConcat(Feed(r, x[0]), x[1..], y);
    }
  }

  lemma {:induction false} RunZeros(r: Word, n: nat)
    ensures Run(r, Zeros(n)) == Steps(r, n)
    decreases n
  {
    if n > 0 {
      assert Zeros(n)[1..] == Zeros(n - 1);
      assert r[0 := r[0] != false] == r;
      RunZeros(Step(r), n - 1);
    }
  }

  /** A step undoes a shift. */
  lemma StepOfShifted(w: Word)
    requires !w[31]
    ensures Step([false] + w[..31]) == w
  {
    var shifted: Word := [false] + w[..31];
    forall k | 0 <= k < 32 ensures Step(shifted)[k] == w[k] {
      assert k < 31 ==> shifted[k + 1] == w[k];
    }
  }

  /** The first bit is fed by itself and the others later. */
  lemma FirstFed(r: Word, bits: seq<bool>, fed: Word, shifted: Word)
    requires 0 < |bits| <= 32 && fed == r[0 := r[0] != bits[0]]
    requires shifted == [false] + (bits[1..] + Zeros(33 - |bits|))[..31]
    ensures Plus(fed, shifted) == Plus(r, bits + Zeros(32 - |bits|))
  {
    var word := bits + Zeros(32 - |bits|);
    forall k | 0 <= k < 32 ensures Plus(fed, shifted)[k] == Plus(r, word)[k] {
      assert k > 0 ==> shifted[k] == (bits[1..] + Zeros(33 - |bits|))[k - 1] == word[k];
    }
  }

  /** Up to 32 bits act as one word added to the register. */
  lemma {:induction false} RunIsWord(r: Word, bits: seq<bool>)
    requires |bits| <= 32
    ensures Run(r, bits) == Steps(Plus(r, bits + Zeros(32 - |bits|)), |bits|)
    decreases |bits|
  {
    if bits == [] {
      assert Plus(r, [] + Zeros(32)) == r;
    } else {
      var w := bits[1..] + Zeros(33 - |bits|);
      var fed := r[0 := r[0] != bits[0]];
      var shifted: Word := [false] + w[..31];
      RunIsWord(Step(fed), bits[1..]);
      StepOfShifted(w);
      StepLinear(fed, shifted);
      FirstFed(r, bits, fed, shifted);
    }
  }

  lemma ZeroPlus(w: Word)
    ensures Plus(ZERO, w) == w
  {
  }

  lemma PaddedZero(bits: seq<bool>)
    requires |bits| <= 32
    ensures bits + Zeros(32 - |bits|) == ZERO <==> bits == Zeros(|bits|)
  {
    var w := bits + Zeros(32 - |bits|);
    if w == ZERO {
      forall k | 0 <= k < |bits| ensures !bits[k] {
        assert bits[k] == w[k] == ZERO[k];
      }
    }
  }

  /** At most 32 bits leave an empty register empty only when all of them are zero. */
  lemma ShortRunNonzero(bits: seq<bool>)
    requires |bits| <= 32
    ensures Run(ZERO, bits) == ZERO <==> bits == Zeros(|bits|)
  {
    var w := bits + Zeros(32 - |bits|);
    RunIsWord(ZERO, bits);
    ZeroPlus(w);
    StepsZero(w, |bits|);
    PaddedZero(bits);
  }

  // ---------- Burst errors ----------

  /** The two messages agree outside the `width` bits that begin at bit `start`. */
  ghost predicate AgreeOutside(a: seq<Byte>, b: seq<Byte>, start: nat, width: nat)
    requires |a| == |b|
  {
    forall k | 0 <= k < 8 * |a| :: (k < start || start + width <= k) ==> Bits(a)[k] == Bits(b)[k]
  }

  lemma {:induction false} BitsInjective(a: seq<Byte>, b: seq<Byte>)
    requires |a| == |b| && Bits(a) == Bits(b)
    ensures a == b
    decreases |a|
  {
    if a != [] {
      assert BitsOf(a[0], 8) == Bits(a)[..8] == Bits(b)[..8] == BitsOf(b[0], 8);
      assert Bits(a[1..]) == Bits(a)[8..] == Bits(b)[8..] == Bits(b[1..]);
      PowersOfTwo();
      ValueOfBits(a[0], 8);
      ValueOfBits(b[0], 8);
      BitsInjective(a[1..], b[1..]);
      assert a == [a[0]] + a[1..] && b == [b[0]] + b[1..];
    }
  }

  lemma PlusEqual(x: seq<bool>, y: seq<bool>)
    requires |x| == |y|
    ensures Plus(x, y) == Zeros(|x|) <==> x == y
  {
    if Plus(x, y) == Zeros(|x|) {
      forall k | 0 <= k < |x| ensures x[k] == y[k] {
        assert Plus(x, y)[k] == Zeros(|x|)[k];
      }
    }
  }

  lemma CrcDifference(a: seq<Byte>, b: seq<Byte>)
    requires |a| == |b|
    ensures Crc(a) == Crc(b) <==> Run(ZERO, Plus(Bits(a), Bits(b))) == ZERO
  {
    var x, y := Run(ALL_ONES, Bits(a)), Run(ALL_ONES, Bits(b));
    RunLinear(ALL_ONES, ALL_ONES, Bits(a), Bits(b));
    PlusEqual(ALL_ONES, ALL_ONES);
    PlusEqual(x, y);
    assert Plus(Plus(x, ALL_ONES), ALL_ONES) == x && Plus(Plus(y, ALL_ONES), ALL_ONES) == y;
  }

  lemma AllZero(d: seq<bool>)
    requires forall k | 0 <= k < |d| :: !d[k]
    ensures d == Zeros(|d|)
  {
  }

  lemma SomeOne(d: seq<bool>) returns (k: nat)
    requires d != Zeros(|d|)
    ensures k < |d| && d[k]
  {
    if forall j | 0 <= j < |d| :: !d[j] {
      AllZero(d);
    }
    k :| k < |d| && d[k];
  }

  lemma Window(d: seq<bool>, lo: nat, hi: nat)
    requires lo <= hi <= |d| && forall k | 0 <= k < |d| && !(lo <= k < hi) :: !d[k]
    ensures d == Zeros(lo) + d[lo..hi] + Zeros(|d| - hi)
  {
    AllZero(d[..lo]);
    AllZero(d[hi..]);
    assert d == d[..lo] + d[lo..hi] + d[hi..];
  }

  /** Zeros around a window do not matter. */
  lemma WindowRuns(d: seq<bool>, lo: nat, hi: nat)
    requires lo <= hi <= |d| && forall k | 0 <= k < |d| && !(lo <= k < hi) :: !d[k]
    ensures Run(ZERO, d) == ZERO <==> Run(ZERO, d[lo..hi]) == ZERO
  {
    Window(d, lo, hi);
    PaddedRuns(lo, d[lo..hi], |d| - hi);
  }

  lemma PaddedRuns(before: nat, mid: seq<bool>, after: nat)
    ensures Run(ZERO, Zeros(before) + mid + Zeros(after)) == ZERO <==> Run(ZERO, mid) == ZERO
  {
    RunConcat(ZERO, Zeros(before) + mid, Zeros(after));
    RunConcat(ZERO, Zeros(before), mid);
    RunZeros(ZERO, before);
    StepsZero(ZERO, before);
    RunZeros(Run(ZERO, mid), after);
    StepsZero(Run(ZERO, mid), after);
  }

  /** Two different messages of equal length that differ only inside a window of at most 32
      consecutive bits have different checksums. */
  lemma BurstDetected(a: seq<Byte>, b: seq<Byte>, start: nat, width: nat)
    requires |a| == |b| && a != b
    requires width <= 32 && AgreeOutside(a, b, start, width)
    ensures Crc(a) != Crc(b)
  {
    var d := Plus(Bits(a), Bits(b));
    var n := |d|;
    PlusEqual(Bits(a), Bits(b));
    if d == Zeros(n) {
      BitsInjective(a, b);
    }
    var lo := if start < n then start else n;
    var hi := if start + width < n then start + width else n;
    WindowRuns(d, lo, hi);
    ShortRunNonzero(d[lo..hi]);
    var k := SomeOne(d);
    assert d[lo..hi][k - lo];
    CrcDifference(a, b);
  }

  // ---------- Exactly the undetected differences: the multiples of the generator ----------

  /** The coefficients of the generator, highest power first. */
  function Generator(): (g: seq<bool>)
    ensures |g| == 33
  {
    seq(33, k => 32 - k in EXPONENTS)
  }

  /** The product of the polynomial `q` with the generator, highest power first. */
  function Product(q: seq<bool>): (p: seq<bool>)
    ensures |p| == |q| + 32
  {
    if q == [] then Zeros(32)
    else if q[0] then Plus([false] + Product(q[1..]), Generator() + Zeros(|q| - 1))
    else [false] + Product(q[1..])
  }

  ghost predicate IsMultiple(d: seq<bool>) {
    if |d| < 32 then d == Zeros(|d|) else exists q :: |q| + 32 == |d| && d == Product(q)
  }

  lemma ReversedRuns()
    ensures Run(Reversed(), Reversed()) == ZERO
  {
    RunIsWord(Reversed(), Reversed());
    assert Reversed() + Zeros(0) == Reversed();
    PlusEqual(Reversed(), Reversed());
    StepsZero(ZERO, 32);
  }

  lemma GeneratorFirst()
    ensures Generator()[0] && Generator()[1..] == Reversed()
    ensures Feed(ZERO, true) == Reversed()
  {
  }

  lemma GeneratorRuns(n: nat)
    ensures Run(ZERO, Generator() + Zeros(n)) == ZERO
  {
    GeneratorFirst();
    assert (Generator() + Zeros(n))[0] && (Generator() + Zeros(n))[1..] == Reversed() + Zeros(n);
    RunConcat(Reversed(), Reversed(), Zeros(n));
    ReversedRuns();
    RunZeros(ZERO, n);
    StepsZero(ZERO, n);
  }

  lemma RunLeadingZero(d: seq<bool>)
    ensures Run(ZERO, [false] + d) == Run(ZERO, d)
  {
    assert ([false] + d)[1..] == d;
    StepZero(ZERO);
    assert ZERO[0 := false] == ZERO;
  }

  lemma {:induction false} ProductRuns(q: seq<bool>)
    ensures Run(ZERO, Product(q)) == ZERO
    decreases |q|
  {
    if q == [] {
      RunZeros(ZERO, 32);
      StepsZero(ZERO, 32);
    } else {
      ProductRuns(q[1..]);
      RunLeadingZero(Product(q[1..]));
      if q[0] {
        GeneratorRuns(|q| - 1);
        RunLinear(ZERO, ZERO, [false] + Product(q[1..]), Generator() + Zeros(|q| - 1));
        PlusEqual(ZERO, ZERO);
      }
    }
  }

  /** Long division: a difference that leaves the register empty has a quotient. */
  lemma {:induction false} Quotient(d: seq<bool>) returns (q: seq<bool>)
    requires |d| >= 32 && Run(ZERO, d) == ZERO
    ensures |q| + 32 == |d| && d == Product(q)
    decreases |d|
  {
    if |d| == 32 {
      ShortRunNonzero(d);
      q := [];
    } else {
      var g := Generator() + Zeros(|d| - 33);
      var d' := if d[0] then Plus(d, g) else d;
      assert g[0];
      if d[0] {
        GeneratorRuns(|d| - 33);
        RunLinear(ZERO, ZERO, d, g);
        PlusEqual(ZERO, ZERO);
      }
      assert d' == [false] + d'[1..];
      RunLeadingZero(d'[1..]);
      var q' := Quotient(d'[1..]);
      q := [d[0]] + q';
      assert q[1..] == q';
      if d[0] {
        assert d == Plus(d', g);
      }
    }
  }

  /** Two messages of equal length share a checksum exactly when the polynomial of their difference is
      a multiple of the generator: no other corruption goes unnoticed. */
  lemma UndetectedIffMultiple(a: seq<Byte>, b: seq<Byte>)
    requires |a| == |b|
    ensures Crc(a) == Crc(b) <==> IsMultiple(Plus(Bits(a), Bits(b)))
  {
    var d := Plus(Bits(a), Bits(b));
    CrcDifference(a, b);
    if |d| < 32 {
      ShortRunNonzero(d);
    } else {
      if Run(ZERO, d) == ZERO {
        var q := Quotient(d);
      }
      if IsMultiple(d) {
        var q :| |q| + 32 == |d| && d == Product(q);
        ProductRuns(q);
      }
    }
  }

  /** A window of 33 bits is too wide: adding the generator itself goes unnoticed, in every message and
      at every position. */
  lemma BurstBoundTight(a: seq<Byte>, b: seq<Byte>, start: nat)
    requires |a| == |b| && start + 33 <= 8 * |a|
    requires Plus(Bits(a), Bits(b)) == Zeros(start) + Generator() + Zeros(8 * |a| - start - 33)
    ensures a != b && AgreeOutside(a, b, start, 33) && Crc(a) == Crc(b)
  {
    var d := Plus(Bits(a), Bits(b));
    var n := 8 * |a| - start - 33;
    assert d == Zeros(start) + (Generator() + Zeros(n));
    RunConcat(ZERO, Zeros(start), Generator() + Zeros(n));
    RunZeros(ZERO, start);
    StepsZero(ZERO, start);
    GeneratorRuns(n);
    CrcDifference(a, b);
    assert d[start];
    forall k | 0 <= k < 8 * |a| && (k < start || start + 33 <= k) ensures Bits(a)[k] == Bits(b)[k] {
      assert !d[k];
    }
  }

  // ---------- The residue ----------

  /** The four bytes of a word, least significant first. */
  function LittleEndian(w: Word): seq<Byte> {
    [ByteOf(w[..8]), ByteOf(w[8..16]), ByteOf(w[16..24]), ByteOf(w[24..])]
  }

  lemma LittleEndianBits(w: Word)
    ensures Bits(LittleEndian(w)) == w
  {
    ByteOfBits(w[..8]);
    ByteOfBits(w[8..16]);
    ByteOfBits(w[16..24]);
    ByteOfBits(w[24..]);
    FourBytes(ByteOf(w[..8]), ByteOf(w[8..16]), ByteOf(w[16..24]), ByteOf(w[24..]));
    FourQuarters(w);
  }

  lemma FourQuarters(w: Word)
    ensures w == w[..8] + w[8..16] + w[16..24] + w[24..]
  {
  }

  lemma FourBytes(b0: Byte, b1: Byte, b2: Byte, b3: Byte)
    ensures Bits([b0, b1, b2, b3]) == BitsOf(b0, 8) + BitsOf(b1, 8) + BitsOf(b2, 8) + BitsOf(b3, 8)
  {
    BitsConcat([b0], [b1]);
    BitsConcat([b0] + [b1], [b2]);
    BitsConcat([b0] + [b1] + [b2], [b3]);
    OneByte(b0);
    OneByte(b1);
    OneByte(b2);
    OneByte(b3);
    assert [b0, b1, b2, b3] == [b0] + [b1] + [b2] + [b3];
  }

  lemma OneByte(b: Byte)
    ensures Bits([b]) == BitsOf(b, 8)
  {
    assert [b][1..] == [];
    assert BitsOf(b, 8) + [] == BitsOf(b, 8);
  }

  lemma {:induction false} BitsConcat(x: seq<Byte>, y: seq<Byte>)
    ensures Bits(x + y) == Bits(x) + Bits(y)
    decreases |x|
  {
    if x == [] {
      assert x + y == y;
    } else {
      assert (x + y)[1..] == x[1..] + y;
      BitsConcat(x[1..], y);
    }
  }

  // ---------- The form of ITU-T V.42 ----------

  function Complement(bits: seq<bool>): (c: seq<bool>)
    ensures |c| == |bits|
  {
    seq(|bits|, k requires 0 <= k < |bits| => !bits[k])
  }

  lemma WordFed(r: Word, w: Word)
    ensures Run(r, w) == Steps(Plus(r, w), 32)
  {
    RunIsWord(r, w);
    assert w + Zeros(0) == w;
  }

  /** A register of ones complements the first 32 bits. */
  lemma FirstWordComplemented(w: Word)
    ensures Run(ALL_ONES, w) == Run(ZERO, Complement(w))
  {
    WordFed(ALL_ONES, w);
    WordFed(ZERO, Complement(w));
    assert Plus(ALL_ONES, w) == Plus(ZERO, Complement(w));
  }

  lemma RunComplemented(w: Word, rest: seq<bool>)
    ensures Run(ALL_ONES, w + rest) == Run(ZERO, Complement(w) + rest)
  {
    RunConcat(ALL_ONES, w, rest);
    RunConcat(ZERO, Complement(w), rest);
    FirstWordComplemented(w);
  }

  lemma FinalComplement(r: Word)
    ensures Plus(r, ALL_ONES) == Complement(r)
  {
  }

  /** The checksum is the complement of the remainder of the message with its first 32 bits complemented: this
      fixes the start value of the register. */
  lemma FirstBitsComplemented(bytes: seq<Byte>)
    requires |bytes| >= 4
    ensures var bits := Bits(bytes);
      Crc(bytes) == Complement(Run(ZERO, Complement(bits[..32]) + bits[32..]))
  {
    assert Bits(bytes) == Bits(bytes)[..32] + Bits(bytes)[32..];
    RunComplemented(Bits(bytes)[..32], Bits(bytes)[32..]);
    FinalComplement(Run(ALL_ONES, Bits(bytes)));
  }

  /** A checksum can be continued: that of a longer message depends on the beginning only through its own. */
  lemma CrcContinues(x: seq<Byte>, y: seq<Byte>)
    ensures Crc(x + y) == Complement(Run(Complement(Crc(x)), Bits(y)))
  {
    var r := Run(ALL_ONES, Bits(x));
    BitsConcat(x, y);
    RunConcat(ALL_ONES, Bits(x), Bits(y));
    assert Complement(Crc(x)) == r;
    assert Plus(Run(r, Bits(y)), ALL_ONES) == Complement(Run(r, Bits(y)));
  }

  /** A message followed by its own checksum always has the same checksum. */
  lemma Residue(bytes: seq<Byte>)
    ensures Crc(bytes + LittleEndian(Crc(bytes))) == Plus(Steps(ALL_ONES, 32), ALL_ONES)
  {
    var c := Crc(bytes);
    var r := Run(ALL_ONES, Bits(bytes));
    BitsConcat(bytes, LittleEndian(c));
    RunConcat(ALL_ONES, Bits(bytes), Bits(LittleEndian(c)));
    LittleEndianBits(c);
    RunIsWord(r, c);
    assert c + Zeros(0) == c;
    assert Plus(r, c) == ALL_ONES;
  }
}
