/**
 The checksum of Ogg pages, section 6 of RFC 3533: the remainder of the message, shifted
 up by 32 places, on division by the generator polynomial 0x104C11DB7 over GF(2).
 */
module OggCrc {
  import opened Bits

  // ----- The table-driven form -----

  // The generator without its leading term, 0x04C11DB7, by its exponents.
  predicate IsExponent(e: int) {
    e in {26, 23, 22, 16, 12, 11, 10, 8, 7, 5, 4, 2, 1, 0}
  }

  function Poly(): Word {
    seq(32, i => IsExponent(31 - i))
  }

  function Bit(b: bool): nat {
    if b then 1 else 0
  }

  lemma OneMore(s: seq<bool>, k: nat)
    requires k < |s|
    ensures Value(s[..k + 1]) == 2 * Value(s[..k]) + Bit(s[k])
  {
    assert s[..k + 1][..k] == s[..k];
  }

  lemma FourMore(s: seq<bool>, k: nat)
    requires k + 4 <= |s|
    ensures Value(s[..k + 4]) == 16 * Value(s[..k]) + 8 * Bit(s[k]) + 4 * Bit(s[k + 1]) + 2 * Bit(s[k + 2]) + Bit(s[k + 3])
  {
    hide Value;
    OneMore(s, k);
    OneMore(s, k + 1);
    OneMore(s, k + 2);
    OneMore(s, k + 3);
  }

  /** The exponents are those of the constant that the recorder declares. */
  lemma PolyIsTheConstant()
    ensures Value(Poly()) == 0x04C11DB7
  {
    var p := Poly();
    hide Value;
    assert Value(p[..0]) == 0 by { NoBits(p[..0]); }
    FourMore(p, 0);
    FourMore(p, 4);
    assert Value(p[..8]) == 0x04;
    FourMore(p, 8);
    FourMore(p, 12);
    assert Value(p[..16]) == 0x04C1;
    FourMore(p, 16);
    FourMore(p, 20);
    assert Value(p[..24]) == 0x04C11D;
    FourMore(p, 24);
    FourMore(p, 28);
    assert p[..32] == p;
  }

  lemma NoBits(s: seq<bool>)
    requires s == []
    ensures Value(s) == 0
  {}

  /** One step of the table loop: shift left, and subtract the generator if a one fell out. */
  function ShiftBit(r: Word): Word {
    Xor(r[1..] + [false], if r[0] then Poly() else Zeros(32))
  }

  function ShiftBits(r: Word, k: nat): Word
    decreases k
  {
    if k == 0 then r else ShiftBits(ShiftBit(r), k - 1)
  }

  function TableEntry(i: Byte): Word {
    ShiftBits(ByteBits(i) + Zeros(24), 8)
  }

  ghost predicate IsTable(table: seq<Word>) {
    |table| == 256 && forall i: Byte :: table[i] == TableEntry(i)
  }

  ghost predicate IsTableBelow(table: seq<Word>, n: nat) {
    |table| == 256 && forall k: Byte | k < n :: table[k] == TableEntry(k)
  }

  method InitTable() returns (table: array<Word>)
    ensures fresh(table) && IsTable(table[..])
  {
    table := new Word[256](_ => Zeros(32));
    for i := 0 to 256
      invariant fresh(table) && IsTableBelow(table[..], i)
    {
      var r: Word := ByteBits(i) + Zeros(24);
      ghost var first, before := r, table[..];
      assert ShiftBits(first, 8) == TableEntry(i);
      for j := 0 to 8
        invariant ShiftBits(r, 8 - j) == ShiftBits(first, 8)
        invariant table[..] == before
      {
        hide TableEntry, ByteBits, Poly, IsTable, IsTableBelow;
        ShiftBitCases(r);
        if r[0] {
          r := Xor(r[1..] + [false], Poly());
        } else {
          r := r[1..] + [false];
        }
      }
      assert r == TableEntry(i);
      EntryIsAdded(before, i, r);
      hide ShiftBits, TableEntry, ByteBits, IsTableBelow;
      table[i] := r;
      assert table[..] == before[i := r];
    }
  }

  lemma EntryIsAdded(table: seq<Word>, i: Byte, r: Word)
    requires IsTableBelow(table, i) && r == TableEntry(i)
    ensures IsTableBelow(table[i := r], i + 1)
  {
    hide TableEntry;
  }

  lemma ShiftBitCases(r: Word)
    ensures r[0] ==> ShiftBit(r) == Xor(r[1..] + [false], Poly())
    ensures !r[0] ==> ShiftBit(r) == r[1..] + [false]
  {}

  /** The table lookup of one byte. */
  function TableStep(table: seq<Word>, crc: Word, b: Byte): Word
    requires |table| == 256
  {
    Xor(crc[8..] + Zeros(8), table[ByteOf(Xor(crc[..8], ByteBits(b)))])
  }

  method OggCrc32(table: array<Word>, data: seq<Byte>) returns (crc: Word)
    requires IsTable(table[..])
    ensures crc == Crc(data)
    ensures IsRemainder(MessageBits(data), crc)
  {
    crc := Zeros(32);
    for i := 0 to |data|
      invariant crc == FeedBits(Zeros(32), MessageBits(data[..i]))
    {
      crc := Xor(crc[8..] + Zeros(8), table[ByteOf(Xor(crc[..8], ByteBits(data[i])))]);
      TableStepFeeds(table[..], FeedBits(Zeros(32), MessageBits(data[..i])), data[i]);
      MessageBitsSnoc(data, i);
      FeedBitsConcat(Zeros(32), MessageBits(data[..i]), ByteBits(data[i]));
    }
    assert data[..|data|] == data;
    CrcIsRemainder(MessageBits(data));
  }

  // ----- The bit-serial register -----

  /** The register after the bits of m have been shifted in. */
  function FeedBits(r: Word, m: seq<bool>): Word
    decreases m
  {
    if m == [] then r else FeedBits(ShiftBit(Xor(r, [m[0]] + Zeros(31))), m[1..])
  }

  function MessageBits(data: seq<Byte>): (m: seq<bool>)
    ensures |m| == 8 * |data|
  {
    if data == [] then [] else ByteBits(data[0]) + MessageBits(data[1..])
  }

  function Crc(data: seq<Byte>): Word {
    FeedBits(Zeros(32), MessageBits(data))
  }

  lemma {:induction false} MessageBitsSnoc(data: seq<Byte>, i: nat)
    requires i < |data|
    ensures MessageBits(data[..i + 1]) == MessageBits(data[..i]) + ByteBits(data[i])
  {
    if i > 0 {
      MessageBitsSnoc(data[1..], i - 1);
      assert data[..i + 1][1..] == data[1..][..i] && data[..i][1..] == data[1..][..i - 1];
    }
  }

  lemma {:induction false} FeedBitsConcat(r: Word, a: seq<bool>, b: seq<bool>)
    ensures FeedBits(r, a + b) == FeedBits(FeedBits(r, a), b)
    decreases a
  {
    if a == [] {
      assert a + b == b;
    } else {
      assert (a + b)[1..] == a[1..] + b;
      FeedBitsConcat(ShiftBit(Xor(r, [a[0]] + Zeros(31))), a[1..], b);
    }
  }

  lemma ShiftBitXor(a: Word, b: Word)
    ensures ShiftBit(Xor(a, b)) == Xor(ShiftBit(a), ShiftBit(b))
  {
    var x := Xor(a, b);
    assert x[0] == (a[0] != b[0]);
    forall k | 0 <= k < 32 ensures ShiftBit(x)[k] == (ShiftBit(a)[k] != ShiftBit(b)[k]) {}
  }

  lemma {:induction false} ShiftBitsXor(a: Word, b: Word, k: nat)
    ensures ShiftBits(Xor(a, b), k) == Xor(ShiftBits(a, k), ShiftBits(b, k))
    decreases k
  {
    hide ShiftBit;
    if k > 0 {
      ShiftBitXor(a, b);
      ShiftBitsXor(ShiftBit(a), ShiftBit(b), k - 1);
    }
  }

  lemma {:induction false} ShiftBitsClear(lo: seq<bool>, k: nat)
    requires k + |lo| == 32
    ensures ShiftBits(Zeros(k) + lo, k) == lo + Zeros(k)
    decreases k
  {
    if k == 0 {
      assert Zeros(0) + lo == lo + Zeros(0);
    } else {
      ShiftBitCases(Zeros(k) + lo);
      assert ShiftBit(Zeros(k) + lo) == Zeros(k - 1) + (lo + [false]);
      ShiftBitsClear(lo + [false], k - 1);
      assert lo + [false] + Zeros(k - 1) == lo + Zeros(k);
    }
  }

  lemma ShiftBitPeel(r: Word, b: bool, rest: seq<bool>)
    requires |rest| == 31
    ensures ShiftBit(Xor(r, [b] + rest)) == Xor(ShiftBit(Xor(r, [b] + Zeros(31))), rest + [false])
  {
    var x, y := Xor(r, [b] + rest), Xor(r, [b] + Zeros(31));
    var left, right := ShiftBit(x), Xor(ShiftBit(y), rest + [false]);
    assert x[0] == y[0];
    forall k | 0 <= k < 32 ensures left[k] == right[k] {
      if k < 31 {
        assert x[k + 1] == (r[k + 1] != rest[k]) && y[k + 1] == r[k + 1];
      }
    }
  }

  lemma AddNothing(r: Word)
    ensures Xor(r, [] + Zeros(32)) == r
  {}

  /** One shift of the word with all the bits added is one bit fed and the others added. */
  lemma PeelFirst(r: Word, m: seq<bool>)
    requires 0 < |m| <= 32
    ensures ShiftBit(Xor(r, m + Zeros(32 - |m|))) == Xor(ShiftBit(Xor(r, [m[0]] + Zeros(31))), m[1..] + Zeros(33 - |m|))
  {
    var rest := m[1..] + Zeros(32 - |m|);
    assert [m[0]] + rest == m + Zeros(32 - |m|);
    assert rest + [false] == m[1..] + Zeros(33 - |m|);
    hide ShiftBit, Xor;
    ShiftBitPeel(r, m[0], rest);
  }

  /** Feeding a few bits one by one is adding them at the top and then shifting. */
  lemma {:induction false} FeedAtOnce(r: Word, m: seq<bool>)
    requires |m| <= 32
    ensures FeedBits(r, m) == ShiftBits(Xor(r, m + Zeros(32 - |m|)), |m|)
    decreases m
  {
    hide ShiftBit, Xor, Zeros;
    if m == [] {
      AddNothing(r);
    } else {
      PeelFirst(r, m);
      FeedAtOnce(ShiftBit(Xor(r, [m[0]] + Zeros(31))), m[1..]);
    }
  }

  lemma SplitWord(crc: Word, b: seq<bool>)
    requires |b| == 8
    ensures Xor(crc, b + Zeros(24)) == Xor(Zeros(8) + crc[8..], Xor(crc[..8], b) + Zeros(24))
  {}

  lemma TableStepFeeds(table: seq<Word>, crc: Word, b: Byte)
    requires IsTable(table)
    ensures TableStep(table, crc, b) == FeedBits(crc, ByteBits(b))
  {
    var bits := ByteBits(b);
    var x := Xor(crc[..8], bits);
    var low: Word := Zeros(8) + crc[8..];
    var high: Word := x + Zeros(24);
    FeedAtOnce(crc, bits);
    SplitWord(crc, bits);
    ShiftBitsXor(low, high, 8);
    ShiftBitsClear(crc[8..], 8);
    assert table[ByteOf(x)] == TableEntry(ByteOf(x)) == ShiftBits(high, 8);
  }

  // ----- Long division over GF(2) -----

  // 0x104C11DB7
  function Generator(): (g: seq<bool>)
    ensures |g| == 33
  {
    [true] + Poly()
  }

  /** The generator times c, n places up. */
  ghost function TopTerm(c: bool, n: nat): (p: seq<bool>)
    ensures |p| == n + 33
  {
    if c then Generator() + Zeros(n) else Zeros(n + 33)
  }

  /** The product of a polynomial and the generator, one shifted copy for each coefficient. */
  ghost function TimesGenerator(q: seq<bool>): (p: seq<bool>)
    ensures |p| == |q| + 32
  {
    if q == [] then Zeros(32)
    else Xor(TopTerm(q[0], |q| - 1), [false] + TimesGenerator(q[1..]))
  }

  /** The product of q and the generator, plus r. */
  ghost function Balance(q: seq<bool>, r: Word): (p: seq<bool>)
    ensures |p| == |q| + 32
  {
    Xor(TimesGenerator(q), Zeros(|q|) + r)
  }

  /** m times x^32 is a multiple of the generator plus r, and r has degree below 32. */
  ghost predicate IsRemainderBy(m: seq<bool>, r: Word, q: seq<bool>) {
    |q| == |m| && m + Zeros(32) == Balance(q, r)
  }

  ghost predicate IsRemainder(m: seq<bool>, r: Word) {
    exists q :: IsRemainderBy(m, r, q)
  }

  ghost function Quotient(r: Word, m: seq<bool>): (q: seq<bool>)
    ensures |q| == |m|
    decreases m
  {
    if m == [] then [] else [m[0] != r[0]] + Quotient(ShiftBit(Xor(r, [m[0]] + Zeros(31))), m[1..])
  }

  ghost function Shifted(c: bool, n: nat): (p: seq<bool>)
    ensures |p| == n + 32
  {
    if c then Poly() + Zeros(n) else Zeros(n + 32)
  }

  lemma XorCons(x: bool, a: seq<bool>, b: seq<bool>)
    requires |a| == |b|
    ensures Xor([x] + a, [false] + b) == [x] + Xor(a, b)
  {}

  lemma XorSwap(a: seq<bool>, b: seq<bool>, c: seq<bool>)
    requires |a| == |b| == |c|
    ensures Xor(Xor(a, b), c) == Xor(Xor(b, c), a)
  {}

  lemma TopTermPeel(c: bool, n: nat)
    ensures TopTerm(c, n) == [c] + Shifted(c, n)
  {
    hide Poly;
    if c {
      assert Generator() + Zeros(n) == [true] + (Poly() + Zeros(n));
    }
  }

  lemma TimesGeneratorPeel(q: seq<bool>)
    requires q != []
    ensures TimesGenerator(q) == [q[0]] + Xor(Shifted(q[0], |q| - 1), TimesGenerator(q[1..]))
  {
    hide TopTerm, Shifted, Xor, Poly, Zeros;
    assert TimesGenerator(q) == Xor(TopTerm(q[0], |q| - 1), [false] + TimesGenerator(q[1..]));
    hide TimesGenerator;
    TopTermPeel(q[0], |q| - 1);
    XorCons(q[0], Shifted(q[0], |q| - 1), TimesGenerator(q[1..]));
  }

  lemma BalancePeel(q: seq<bool>, r: Word)
    requires q != []
    ensures Balance(q, r) == [q[0]] + Xor(Balance(q[1..], r), Shifted(q[0], |q| - 1))
  {
    hide TimesGenerator, Shifted;
    var n := |q| - 1;
    var sh, t, low := Shifted(q[0], n), TimesGenerator(q[1..]), Zeros(n) + r;
    TimesGeneratorPeel(q);
    assert Zeros(n + 1) + r == [false] + low;
    XorCons(q[0], Xor(sh, t), low);
    XorSwap(sh, t, low);
  }

  lemma DividendPeel(r: Word, m: seq<bool>)
    requires m != []
    ensures
      var c := m[0] != r[0];
      var r1 := ShiftBit(Xor(r, [m[0]] + Zeros(31)));
      Xor(m + Zeros(32), r + Zeros(|m|))
        == [c] + Xor(Xor(m[1..] + Zeros(32), r1 + Zeros(|m| - 1)), Shifted(c, |m| - 1))
  {
    var n := |m| - 1;
    var c := m[0] != r[0];
    var r1 := ShiftBit(Xor(r, [m[0]] + Zeros(31)));
    assert r1 == Xor(r[1..] + [false], if c then Poly() else Zeros(32));
    var left := Xor(m + Zeros(32), r + Zeros(n + 1));
    var rest, sh := Xor(m[1..] + Zeros(32), r1 + Zeros(n)), Shifted(c, n);
    var right := [c] + Xor(rest, sh);
    forall i | 0 < i < n + 33 ensures left[i] == right[i] {
      assert (m + Zeros(32))[i] == (m[1..] + Zeros(32))[i - 1];
      assert (r1 + Zeros(n))[i - 1] == ((r + Zeros(n + 1))[i] != sh[i - 1]);
    }
  }

  lemma NothingDivided(r: Word)
    ensures Xor([] + Zeros(32), r + Zeros(0)) == Balance([], r)
  {
    assert Xor([] + Zeros(32), r + Zeros(0)) == r;
    BalanceOfNothing(r);
  }

  lemma BalanceOfNothing(r: Word)
    ensures Balance([], r) == r
  {
    assert Zeros(0) + r == r && TimesGenerator([]) == Zeros(32);
  }

  lemma {:induction false} Division(r: Word, m: seq<bool>)
    ensures Xor(m + Zeros(32), r + Zeros(|m|)) == Balance(Quotient(r, m), FeedBits(r, m))
    decreases m
  {
    hide ShiftBit, Shifted, TimesGenerator, Balance, Xor, Zeros;
    if m == [] {
      NothingDivided(r);
    } else {
      var r1 := ShiftBit(Xor(r, [m[0]] + Zeros(31)));
      Division(r1, m[1..]);
      DividendPeel(r, m);
      BalancePeel(Quotient(r, m), FeedBits(r, m));
    }
  }

  lemma CrcIsRemainder(m: seq<bool>)
    ensures IsRemainder(m, FeedBits(Zeros(32), m))
  {
    Division(Zeros(32), m);
    assert Xor(m + Zeros(32), Zeros(32) + Zeros(|m|)) == m + Zeros(32);
    assert IsRemainderBy(m, FeedBits(Zeros(32), m), Quotient(Zeros(32), m));
  }

  lemma XorCancel(a: seq<bool>, b: seq<bool>, c: seq<bool>)
    requires |a| == |b| == |c| && Xor(a, c) == Xor(b, c)
    ensures a == b
  {
    forall i | 0 <= i < |a| ensures a[i] == b[i] {
      assert Xor(a, c)[i] == Xor(b, c)[i];
    }
  }

  lemma {:induction false} QuotientIsUnique(q1: seq<bool>, q2: seq<bool>, r1: Word, r2: Word)
    requires |q1| == |q2| && Balance(q1, r1) == Balance(q2, r2)
    ensures r1 == r2
    decreases q1
  {
    hide Balance, Shifted, Xor;
    if q1 == [] {
      BalanceOfNothing(r1);
      BalanceOfNothing(r2);
    } else {
      BalancePeel(q1, r1);
      BalancePeel(q2, r2);
      var s1 := Xor(Balance(q1[1..], r1), Shifted(q1[0], |q1| - 1));
      var s2 := Xor(Balance(q2[1..], r2), Shifted(q2[0], |q2| - 1));
      assert q1[0] == Balance(q1, r1)[0] == q2[0];
      assert s1 == Balance(q1, r1)[1..] == s2;
      XorCancel(Balance(q1[1..], r1), Balance(q2[1..], r2), Shifted(q1[0], |q1| - 1));
      QuotientIsUnique(q1[1..], q2[1..], r1, r2);
    }
  }

  /** The checksum of a byte string is its one and only remainder. */
  lemma CrcIsTheRemainder(data: seq<Byte>, r: Word)
    ensures IsRemainder(MessageBits(data), r) <==> r == Crc(data)
  {
    var m := MessageBits(data);
    CrcIsRemainder(m);
    if IsRemainder(m, r) {
      var q1 :| IsRemainderBy(m, r, q1);
      var q2 :| IsRemainderBy(m, Crc(data), q2);
      QuotientIsUnique(q1, q2, r, Crc(data));
    }
  }
}
