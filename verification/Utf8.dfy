/** UTF-8 (section 4 of RFC 3629) and the cut that does not split a character. */
module Utf8 {
  import opened Bits

  predicate Tail(b: Byte) {
    0x80 <= b < 0xC0
  }

  /** What utf8.RuneStart says of a byte. */
  predicate RuneStart(b: Byte) {
    !Tail(b)
  }

  /** The length of the character that s begins with, or 0 if it begins with none. */
  function CharLen(s: seq<Byte>): (n: nat)
    ensures n <= 4 && n <= |s|
  {
    if s == [] then 0
    else if s[0] < 0x80 then 1
    else if 0xC2 <= s[0] < 0xE0 && |s| >= 2 && Tail(s[1]) then 2
    else if 0xE0 <= s[0] < 0xF0 && |s| >= 3 && Tail(s[1]) && Tail(s[2])
            && (s[0] == 0xE0 ==> s[1] >= 0xA0) && (s[0] == 0xED ==> s[1] < 0xA0) then 3
    else if 0xF0 <= s[0] < 0xF5 && |s| >= 4 && Tail(s[1]) && Tail(s[2]) && Tail(s[3])
            && (s[0] == 0xF0 ==> s[1] >= 0x90) && (s[0] == 0xF4 ==> s[1] < 0x90) then 4
    else 0
  }

  predicate Valid(s: seq<Byte>) {
    s == [] || (CharLen(s) > 0 && Valid(s[CharLen(s)..]))
  }

  lemma CharLenDependsOnChar(s: seq<Byte>, t: seq<Byte>)
    requires CharLen(s) > 0 && s[..CharLen(s)] <= t
    ensures CharLen(t) == CharLen(s)
  {
    var n := CharLen(s);
    assert forall k | 0 <= k < n :: t[k] == s[..n][k];
  }

  lemma CharIsOneStart(s: seq<Byte>)
    requires CharLen(s) > 0
    ensures RuneStart(s[0]) && forall k | 0 < k < CharLen(s) :: Tail(s[k])
  {}

  lemma {:induction false} ConcatIsValid(s: seq<Byte>, t: seq<Byte>)
    requires Valid(s) && Valid(t)
    ensures Valid(s + t)
  {
    if s == [] {
      assert s + t == t;
    } else {
      var n := CharLen(s);
      assert s[..n] <= s + t;
      CharLenDependsOnChar(s, s + t);
      assert (s + t)[n..] == s[n..] + t;
      ConcatIsValid(s[n..], t);
    }
  }

  /** A place where a character may begin. */
  predicate IsBoundary(s: seq<Byte>, k: nat) {
    k == 0 || k == |s| || (k < |s| && RuneStart(s[k]))
  }

  lemma CutLater(s: seq<Byte>, n: nat, cut: nat)
    requires n <= cut <= |s|
    ensures s[..n] <= s[..cut] && s[..cut][n..] == s[n..][..cut - n] && s[n..][cut - n..] == s[cut..]
  {}

  /** A valid text may be cut wherever a character may begin, and nowhere else. */
  lemma {:induction false} CutIsValid(s: seq<Byte>, cut: nat)
    requires Valid(s) && cut <= |s|
    ensures Valid(s[..cut]) && Valid(s[cut..]) <==> IsBoundary(s, cut)
  {
    if cut == 0 {
      assert s[..0] == [] && s[0..] == s;
    } else if cut == |s| {
      assert s[..cut] == s && s[cut..] == [];
    } else {
      var n := CharLen(s);
      CharIsOneStart(s);
      if cut < n {
        if Valid(s[cut..]) {
          CharIsOneStart(s[cut..]);
        }
      } else {
        CutLater(s, n, cut);
        CharLenDependsOnChar(s, s[..cut]);
        CutIsValid(s[n..], cut - n);
        if cut == n {
          assert s[n..][..0] == [];
          CharIsOneStart(s[n..]);
        }
      }
    }
  }

  /** Between two boundaries of a valid text there are at most three bytes. */
  lemma {:induction false} BoundaryIsNear(s: seq<Byte>, k: nat) returns (b: nat)
    requires Valid(s) && k <= |s|
    ensures b <= k <= b + 3 && IsBoundary(s, b)
  {
    if k < CharLen(s) || s == [] {
      b := 0;
    } else {
      var n := CharLen(s);
      var b' := BoundaryIsNear(s[n..], k - n);
      b := b' + n;
      if b' == 0 && s[n..] != [] {
        CharIsOneStart(s[n..]);
      }
    }
  }

  // ----- Cutting -----

  const SPACE: Byte := 0x20

  function TrimRight(s: seq<Byte>): (r: seq<Byte>)
    ensures r <= s && (r == [] || r[|r| - 1] != SPACE)
    ensures forall k | |r| <= k < |s| :: s[k] == SPACE
  {
    if s != [] && s[|s| - 1] == SPACE then TrimRight(s[..|s| - 1]) else s
  }

  lemma TrimIsValid(s: seq<Byte>)
    requires Valid(s)
    ensures Valid(TrimRight(s))
  {
    var r := TrimRight(s);
    CutIsValid(s, |r|);
    assert s[..|r|] == r;
  }

  lemma {:induction false} AsciiIsValid(s: seq<Byte>)
    requires forall k | 0 <= k < |s| :: s[k] < 0x80
    ensures Valid(s)
  {
    if s != [] {
      AsciiIsValid(s[1..]);
    }
  }

  function Ellipsis(): (s: seq<Byte>)
    ensures |s| == 3 && Valid(s)
  {
    var s: seq<Byte> := [0xE2, 0x80, 0xA6];
    assert s[3..] == [];
    s
  }

  /** "[truncated]" */
  function Truncated(): (s: seq<Byte>)
    ensures |s| == 11 && forall k | 0 <= k < |s| :: s[k] < 0x80
  {
    [0x5B, 0x74, 0x72, 0x75, 0x6E, 0x63, 0x61, 0x74, 0x65, 0x64, 0x5D]
  }

  function Marker(): (m: seq<Byte>)
    ensures |m| == 15
  {
    [SPACE] + Ellipsis() + Truncated()
  }

  lemma MarkerIsValid()
    ensures Valid(Marker())
  {
    hide Ellipsis, Truncated, Valid, CharLen;
    AsciiIsValid(Truncated());
    AsciiIsValid([SPACE]);
    ConcatIsValid([SPACE], Ellipsis());
    ConcatIsValid([SPACE] + Ellipsis(), Truncated());
  }

  /** The last boundary within the room that is left beside the marker. */
  predicate LastBoundary(s: seq<Byte>, max: int, cut: nat) {
    var room := if max - |Marker()| < 0 then 0 else max - |Marker()|;
    cut <= room && cut <= |s| && IsBoundary(s, cut) && forall k | cut < k <= room && k < |s| :: !IsBoundary(s, k)
  }

  predicate IsTruncation(s: seq<Byte>, max: int, r: seq<Byte>, cut: nat) {
    LastBoundary(s, max, cut) && r == TrimRight(s[..cut]) + Marker()
  }

  /** A space, an ellipsis, and "[truncated]". */
  predicate EndsInMarker(r: seq<Byte>) {
    |r| >= 15 && r[|r| - 15..] == [0x20, 0xE2, 0x80, 0xA6, 0x5B, 0x74, 0x72, 0x75, 0x6E, 0x63, 0x61, 0x74, 0x65, 0x64, 0x5D]
  }

  lemma MarkerEnds(s: seq<Byte>)
    ensures EndsInMarker(s + Marker())
  {
    assert (s + Marker())[|s|..] == Marker();
  }

  method TruncateUtf8(s: seq<Byte>, max: int) returns (r: seq<Byte>)
    ensures |s| <= max ==> r == s
    ensures |s| > max ==> exists cut :: IsTruncation(s, max, r, cut)
    ensures Valid(s) ==> Valid(r)
    ensures |r| <= max <==> |s| <= max || max >= 15
    ensures |s| > max ==> EndsInMarker(r)
  {
    hide Marker, EndsInMarker, Valid;
    if |s| <= max {
      return s;
    }
    var cut := max - |Marker()|;
    if cut < 0 {
      cut := 0;
    }
    var room := cut;
    while cut > 0 && !RuneStart(s[cut])
      invariant 0 <= cut <= room && (room > 0 ==> room < |s|)
      invariant forall k | cut < k <= room :: !IsBoundary(s, k)
    {
      cut := cut - 1;
    }
    r := TrimRight(s[..cut]) + Marker();
    MarkerEnds(TrimRight(s[..cut]));
    assert IsTruncation(s, max, r, cut);
    MarkerIsValid();
    if Valid(s) {
      CutIsValid(s, cut);
      TrimIsValid(s[..cut]);
      ConcatIsValid(TrimRight(s[..cut]), Marker());
    }
  }

  /** No more than three bytes of room are lost to a character that did not fit, and then trailing spaces. */
  lemma TruncationKeepsAlmostAll(s: seq<Byte>, max: int, r: seq<Byte>, cut: nat)
    requires Valid(s) && |s| > max >= 15 && IsTruncation(s, max, r, cut)
    ensures max - 15 - 3 <= cut && s[..cut][..|r| - 15] == r[..|r| - 15]
    ensures forall k | |r| - 15 <= k < cut :: s[k] == SPACE
  {
    hide Marker, Valid;
    var b := BoundaryIsNear(s, max - 15);
    var kept := TrimRight(s[..cut]);
    assert r[..|kept|] == kept && s[..cut][..|kept|] == kept;
  }
}
