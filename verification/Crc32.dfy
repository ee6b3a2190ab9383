/** The table-driven checksum of misc/c_crc32.cxx: the table is built highest bit first, between two
    reflections, and is then used lowest bit first, one byte at a time. */
module Crc32 {
  import opened Words
  import opened Crc32Spec

  /** The generator without its leading term, with the power 31 in bit 31. */
  function Polynomial(): Word {
    seq(32, k => k in EXPONENTS)
  }

  lemma BitsOfPolynomial(w: Word)
    requires forall k | 0 <= k < 32 :: w[k] <==> k in EXPONENTS
    ensures w[0] && w[1] && w[2] && !w[3] && w[4] && w[5] && !w[6] && w[7]
    ensures w[8] && !w[9] && w[10] && w[11] && w[12] && !w[13] && !w[14] && !w[15]
    ensures w[16] && !w[17] && !w[18] && !w[19] && !w[20] && !w[21] && w[22] && w[23]
    ensures !w[24] && !w[25] && w[26] && !w[27] && !w[28] && !w[29] && !w[30] && !w[31]
  {
  }

  lemma ValueOfPolynomial(w: Word)
    requires w[0] && w[1] && w[2] && !w[3] && w[4] && w[5] && !w[6] && w[7]
    requires w[8] && !w[9] && w[10] && w[11] && w[12] && !w[13] && !w[14] && !w[15]
    requires w[16] && !w[17] && !w[18] && !w[19] && !w[20] && !w[21] && w[22] && w[23]
    requires !w[24] && !w[25] && w[26] && !w[27] && !w[28] && !w[29] && !w[30] && !w[31]
    ensures Value(w) == 0x04c11db7
  {
    assert w[32..] == [] && w[0..] == w;
    ValueOfByte(w, 24, 0x0, 0x04);
    ValueOfByte(w, 16, 0x04, 0xc1);
    ValueOfByte(w, 8, 0x04c1, 0x1d);
    ValueOfByte(w, 0, 0x04c11d, 0xb7);
  }

  lemma BitsOfReversed(w: Word)
    requires forall k | 0 <= k < 32 :: w[k] <==> 31 - k in EXPONENTS
    ensures !w[0] && !w[1] && !w[2] && !w[3] && !w[4] && w[5] && !w[6] && !w[7]
    ensures w[8] && w[9] && !w[10] && !w[11] && !w[12] && !w[13] && !w[14] && w[15]
    ensures !w[16] && !w[17] && !w[18] && w[19] && w[20] && w[21] && !w[22] && w[23]
    ensures w[24] && !w[25] && w[26] && w[27] && !w[28] && w[29] && w[30] && w[31]
  {
  }

  lemma ValueOfReversed(w: Word)
    requires !w[0] && !w[1] && !w[2] && !w[3] && !w[4] && w[5] && !w[6] && !w[7]
    requires w[8] && w[9] && !w[10] && !w[11] && !w[12] && !w[13] && !w[14] && w[15]
    requires !w[16] && !w[17] && !w[18] && w[19] && w[20] && w[21] && !w[22] && w[23]
    requires w[24] && !w[25] && w[26] && w[27] && !w[28] && w[29] && w[30] && w[31]
    ensures Value(w) == 0xEDB88320
  {
    assert w[32..] == [] && w[0..] == w;
    ValueOfByte(w, 24, 0x0, 0xED);
    ValueOfByte(w, 16, 0xED, 0xB8);
    ValueOfByte(w, 8, 0xEDB8, 0x83);
    ValueOfByte(w, 0, 0xEDB883, 0x20);
  }

  /** The two forms of the generator are the constant of InitTable and its mirror image. */
  lemma PolynomialIs()
    ensures Value(Polynomial()) == 0x04c11db7 && Value(Reversed()) == 0xEDB88320
  {
    BitsOfPolynomial(Polynomial());
    ValueOfPolynomial(Polynomial());
    BitsOfReversed(Reversed());
    ValueOfReversed(Reversed());
  }

  // ---------- Reflection ----------

  /** The lowest `ch` bits of the word in reverse order. */
  function Mirror(word: Word, ch: nat): Word
    requires ch <= 32
  {
    seq(32, k requires 0 <= k < 32 => k < ch && word[ch - 1 - k])
  }

  /** One division step, highest power in bit 31. */
  function MsbStep(x: Word): Word {
    Plus(ShiftLeft(x, 1), if x[31] then Polynomial() else ZERO)
  }

  /** Reflection turns one kind of division into the other. */
  lemma MirrorStep(x: Word)
    ensures Mirror(MsbStep(x), 32) == Step(Mirror(x, 32))
  {
    var m := Mirror(x, 32);
    forall k | 0 <= k < 32 ensures Mirror(MsbStep(x), 32)[k] == Step(m)[k] {
      assert Polynomial()[31 - k] == Reversed()[k];
    }
  }

  lemma MirrorByte(b: Byte)
    ensures Mirror(ShiftLeft(Mirror(WordOf(b), 8), 24), 32) == WordOf(b)
  {
    WordOfByte(b);
  }

  // ---------- The table ----------

  lemma {:induction false} StepsLast(r: Word, n: nat)
    ensures Steps(r, n + 1) == Step(Steps(r, n))
    decreases n
  {
    if n > 0 {
      StepsLast(Step(r), n - 1);
    }
  }

  lemma TableTurn(b: Byte, j: nat, entry: Word)
    requires Mirror(entry, 32) == Steps(WordOf(b), j)
    ensures Mirror(MsbStep(entry), 32) == Steps(WordOf(b), j + 1)
  {
    MirrorStep(entry);
    StepsLast(WordOf(b), j);
  }

  /** Each entry is the remainder of its own index: eight steps of the bit-serial division. */
  ghost predicate Built(table: seq<Word>) {
    |table| <= 256 && forall b: Byte | b < |table| :: table[b] == Steps(WordOf(b), 8)
  }

  lemma BuiltOneMore(table: seq<Word>, entry: Word)
    requires Built(table) && |table| < 256 && entry == Steps(WordOf(|table|), 8)
    ensures Built(table + [entry])
  {
  }

  ghost predicate IsTable(table: seq<Word>) {
    |table| == 256 && Built(table)
  }

  /** Where the loop of GetCrc looks: (crc & 0xFF) ^ b. */
  function Lookup(crc: Word, b: Byte): Byte {
    ByteOf(Plus(crc[..8], BitsOf(b, 8)))
  }

  lemma {:induction false} StepsOfShifted(w: Word, n: nat)
    requires n <= 32 && w[32 - n..] == Zeros(n)
    ensures Steps(ShiftLeft(w, n), n) == w
    decreases n
  {
    if n == 0 {
      assert Zeros(0) + w[..32] == w;
    } else {
      var x := ShiftLeft(w, n);
      assert !x[0];
      assert x[1..] + [false] == ShiftLeft(w, n - 1) by {
        assert !w[32 - n];
      }
      assert Step(x) == ShiftLeft(w, n - 1);
      assert w[33 - n..] == w[32 - n..][1..] == Zeros(n - 1);
      StepsOfShifted(w, n - 1);
    }
  }

  /** Looking up one byte has the effect of its eight bits. */
  lemma TableStep(r: Word, b: Byte)
    ensures Run(r, BitsOf(b, 8)) == Plus(ShiftRight(r, 8), Steps(WordOf(Lookup(r, b)), 8))
  {
    var bits := BitsOf(b, 8);
    var low, high := WordOf(Lookup(r, b)), ShiftRight(r, 8);
    RunIsWord(r, bits);
    ByteOfBits(Plus(r[..8], bits));
    WordOfByte(Lookup(r, b));
    assert Plus(r, bits + Zeros(24)) == Plus(ShiftLeft(high, 8), low);
    StepsLinear(ShiftLeft(high, 8), low, 8);
    StepsOfShifted(high, 8);
  }

  class CCRC32 {
    const crc32_table: array<Word>

    ghost predicate Valid()
      reads this, crc32_table
    {
      IsTable(crc32_table[..])
    }

    constructor ()
      ensures Valid() && fresh(crc32_table)
    {
      crc32_table := new Word[256];
      new;
      InitTable();
    }

    static method Reflect(word: Word, ch: nat) returns (value: Word)
      requires ch <= 32
      ensures value == Mirror(word, ch)
    {
      var rest := word;
      value := ZERO;
      for i := 1 to ch + 1
        invariant rest == ShiftRight(word, i - 1)
        invariant forall k | 0 <= k < 32 :: value[k] == (ch - i < k < ch && word[ch - 1 - k])
      {
        if rest[0] {
          value := Or(value, ShiftLeft(ONE, ch - i));
        }
        rest := ShiftRight(rest, 1);
      }
    }

    method InitTable()
      requires crc32_table.Length == 256
      modifies crc32_table
      ensures Valid()
    {
      for i := 0 to 256
        invariant Built(crc32_table[..i])
      {
        var first := Reflect(WordOf(i), 8);
        crc32_table[i] := ShiftLeft(first, 24);
        MirrorByte(i);
        ghost var built := crc32_table[..i];
        for j := 0 to 8
          invariant Mirror(crc32_table[i], 32) == Steps(WordOf(i), j)
          invariant crc32_table[..i] == built
        {
          TableTurn(i, j, crc32_table[i]);
          crc32_table[i] := MsbStep(crc32_table[i]);
        }
        var last := Reflect(crc32_table[i], 32);
        crc32_table[i] := last;
        assert crc32_table[..i + 1] == built + [last];
        BuiltOneMore(built, last);
      }
      assert crc32_table[..] == crc32_table[..256];
    }

    /** The checksum of `dwSize` bytes of the buffer from `start` on. */
    method GetCrc(buffer: array<Byte>, start: nat, dwSize: nat) returns (result: Word)
      requires Valid()
      requires start + dwSize <= buffer.Length && dwSize < 0x8000_0000
      ensures result == Crc(buffer[start..start + dwSize])
    {
      var crc: Word := ALL_ONES;
      var len: int := dwSize;
      var pos := start;
      ghost var message := buffer[start..start + dwSize];
      while len > 0
        invariant 0 <= len <= dwSize && pos == start + dwSize - len
        invariant Run(ALL_ONES, Bits(message)) == Run(crc, Bits(buffer[pos..start + dwSize]))
      {
        ghost var rest := buffer[pos..start + dwSize];
        assert rest[1..] == buffer[pos + 1..start + dwSize];
        RunConcat(crc, BitsOf(rest[0], 8), Bits(rest[1..]));
        TableStep(crc, buffer[pos]);
        crc := Plus(ShiftRight(crc, 8), crc32_table[Lookup(crc, buffer[pos])]);
        pos := pos + 1;
        len := len - 1;
      }
      result := Plus(crc, ALL_ONES);
    }
  }
}
