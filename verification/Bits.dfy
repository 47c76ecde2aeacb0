/**
 Machine words as the bits they are made of, most significant bit first, and the
 bytes and little-endian integers of a file format.
 */
module Bits {
  type Byte = x: int | 0 <= x < 256
  type Word = s: seq<bool> | |s| == 32 witness seq(32, _ => false)

  function Zeros(n: nat): (s: seq<bool>)
    ensures |s| == n && forall i | 0 <= i < n :: !s[i]
  {
    seq(n, _ => false)
  }

  function Xor(a: seq<bool>, b: seq<bool>): (s: seq<bool>)
    requires |a| == |b|
    ensures |s| == |a| && forall i | 0 <= i < |a| :: s[i] == (a[i] != b[i])
  {
    seq(|a|, i requires 0 <= i < |a| => a[i] != b[i])
  }

  /** The k low bits of n. */
  function Of(n: nat, k: nat): (s: seq<bool>)
    ensures |s| == k
  {
    if k == 0 then [] else Of(n / 2, k - 1) + [n % 2 == 1]
  }

  function Value(s: seq<bool>): nat {
    if s == [] then 0 else 2 * Value(s[..|s| - 1]) + if s[|s| - 1] then 1 else 0
  }

  function Pow2(k: nat): (p: nat)
    ensures p > 0
  {
    if k == 0 then 1 else 2 * Pow2(k - 1)
  }

  lemma {:induction false} ValueBound(s: seq<bool>)
    ensures Value(s) < Pow2(|s|)
  {
    if s != [] {
      ValueBound(s[..|s| - 1]);
    }
  }

  lemma {:induction false} OfValue(s: seq<bool>)
    ensures Of(Value(s), |s|) == s
  {
    if s != [] {
      OfValue(s[..|s| - 1]);
      assert Value(s) / 2 == Value(s[..|s| - 1]);
    }
  }

  lemma {:induction false} ValueOf(n: nat, k: nat)
    requires n < Pow2(k)
    ensures Value(Of(n, k)) == n
  {
    if k > 0 {
      ValueOf(n / 2, k - 1);
      assert Of(n, k)[..k - 1] == Of(n / 2, k - 1);
    }
  }

  lemma PowersUsed()
    ensures Pow2(8) == 256 && Pow2(32) == 0x1_0000_0000
  {
    assert Pow2(8) == 256;
    assert Pow2(16) == 65536;
    assert Pow2(24) == 16777216;
  }

  function ByteBits(b: Byte): (s: seq<bool>)
    ensures |s| == 8
  {
    Of(b, 8)
  }

  /** The byte of eight bits. */
  function ByteOf(s: seq<bool>): (b: Byte)
    requires |s| == 8
    ensures ByteBits(b) == s
  {
    ValueBound(s);
    OfValue(s);
    PowersUsed();
    Value(s)
  }

  /** An unsigned integer in k little-endian bytes; the high part that does not fit is lost. */
  function LittleEndian(n: nat, k: nat): (s: seq<Byte>)
    ensures |s| == k
  {
    if k == 0 then [] else [n % 256] + LittleEndian(n / 256, k - 1)
  }

  function FromLittleEndian(s: seq<Byte>): nat {
    if s == [] then 0 else s[0] + 256 * FromLittleEndian(s[1..])
  }

  function Pow256(k: nat): (p: nat)
    ensures p > 0
  {
    if k == 0 then 1 else 256 * Pow256(k - 1)
  }

  lemma {:induction false} LittleEndianRoundTrip(n: nat, k: nat)
    requires n < Pow256(k)
    ensures FromLittleEndian(LittleEndian(n, k)) == n
  {
    if k > 0 {
      LittleEndianRoundTrip(n / 256, k - 1);
      assert LittleEndian(n, k)[1..] == LittleEndian(n / 256, k - 1);
    }
  }
}
