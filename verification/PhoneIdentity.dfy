/**
 Which strings of digits identify the same telephone subscriber. Brazilian mobile numbers
 exist with and without the ninth digit, and with and without the country code 55.
 */
module PhoneIdentity {
  predicate IsDigit(c: char) {
    '0' <= c <= '9'
  }

  /** Layout: 55, two digits of area code, subscriber. */
  predicate StartsWith55(n: string) {
    |n| >= 2 && n[0] == '5' && n[1] == '5'
  }

  predicate IsMobileDigit(c: char) {
    '6' <= c <= '9'
  }

  /** The area codes in use in Brazil. */
  predicate IsAreaCode(d: string)
    requires |d| == 2
  {
    match d[0]
    case '1' => '1' <= d[1] <= '9'
    case '2' => d[1] in "12478"
    case '3' => d[1] in "1234578"
    case '4' => '1' <= d[1] <= '9'
    case '5' => d[1] in "1345"
    case '6' => '1' <= d[1] <= '9'
    case '7' => d[1] in "134579"
    case '8' => '1' <= d[1] <= '9'
    case '9' => '1' <= d[1] <= '9'
    case _ => false
  }

  function Digits(phone: string): (n: string)
    ensures forall c | c in n :: IsDigit(c)
  {
    if phone == "" then ""
    else (if IsDigit(phone[0]) then [phone[0]] else "") + Digits(phone[1..])
  }

  /** The characters of n are digits, found at these places of the first i, in order; and at no other is a digit. */
  ghost predicate Picked(phone: string, i: nat, n: string, pos: seq<nat>) {
    && (|pos| == |n| && forall k | 0 <= k < |n| :: pos[k] < i && pos[k] < |phone| && n[k] == phone[pos[k]] && '0' <= n[k] <= '9')
    && (forall j, k | 0 <= j < k < |pos| :: pos[j] < pos[k])
    && forall j: nat | j < i && j < |phone| && '0' <= phone[j] <= '9' :: j in pos
  }

  lemma OneMorePicked(phone: string, i: nat, n: string, pos: seq<nat>)
    requires i < |phone| && Picked(phone, i, n, pos)
    ensures '0' <= phone[i] <= '9' ==> Picked(phone, i + 1, n + [phone[i]], pos + [i])
    ensures !('0' <= phone[i] <= '9') ==> Picked(phone, i + 1, n, pos)
  {
    if '0' <= phone[i] <= '9' {
      var pos' := pos + [i];
      assert pos'[|pos|] == i;
      forall j: nat | j < i + 1 && '0' <= phone[j] <= '9' ensures j in pos' {
        assert j < i ==> j in pos;
      }
    }
  }

  lemma OneMoreDigit(phone: string, i: nat)
    requires i < |phone|
    ensures Digits(phone[..i + 1]) == if '0' <= phone[i] <= '9' then Digits(phone[..i]) + [phone[i]] else Digits(phone[..i])
  {
    DigitsOfBoth(phone[..i], [phone[i]]);
    DigitsOfOne(phone[i]);
    hide Digits;
    assert phone[..i + 1] == phone[..i] + [phone[i]];
  }

  /** The digits are kept, in order, and nothing else is; pos says where they were. */
  method NormalizePhone(phone: string) returns (n: string, ghost pos: seq<nat>)
    ensures n == Digits(phone) && Picked(phone, |phone|, n, pos)
  {
    n, pos := "", [];
    assert Picked(phone, 0, n, pos) && n == Digits(phone[..0]);
    hide Picked, Digits;
    for i: nat := 0 to |phone|
      invariant n == Digits(phone[..i]) && Picked(phone, i, n, pos)
    {
      OneMoreDigit(phone, i);
      OneMorePicked(phone, i, n, pos);
      if '0' <= phone[i] <= '9' {
        n, pos := n + [phone[i]], pos + [i];
      }
    }
    assert phone[..|phone|] == phone;
  }

  function CanonicalPhone(phone: string): (n: string)
    ensures forall c | c in n :: IsDigit(c)
  {
    Canonical(Digits(phone))
  }

  /** A bare Brazilian number gets the country code in front. */
  function Canonical(n: string): string {
    if (|n| == 10 || (|n| == 11 && n[2] == '9')) && !StartsWith55(n) && IsAreaCode(n[..2]) then "55" + n else n
  }

  /** The other form of a Brazilian mobile number, or "" when n is not one. */
  function MobileAlternate(n: string): string {
    if !StartsWith55(n) then ""
    else if |n| == 13 && n[4] == '9' then n[..4] + n[5..]
    else if |n| == 12 && IsMobileDigit(n[4]) then n[..4] + "9" + n[4..]
    else ""
  }

  function WithoutCountry(n: string): seq<string> {
    if StartsWith55(n) && (|n| == 12 || |n| == 13) then [n[2..]] else []
  }

  function PhoneIdentities(phone: string): seq<string> {
    IdentitiesOf(CanonicalPhone(phone))
  }

  function IdentitiesOf(n: string): seq<string> {
    var alt := MobileAlternate(n);
    if alt == "" then [n] + WithoutCountry(n)
    else [n, alt] + WithoutCountry(n) + WithoutCountry(alt)
  }

  function IdentitySet(phone: string): set<string> {
    set id | id in PhoneIdentities(phone)
  }

  // ----- Digits -----

  lemma {:induction false} DigitsOfBoth(a: string, b: string)
    ensures Digits(a + b) == Digits(a) + Digits(b)
  {
    if a == "" {
      assert a + b == b;
    } else {
      DigitsOfBoth(a[1..], b);
      assert (a + b)[1..] == a[1..] + b;
    }
  }

  lemma DigitsOfOne(c: char)
    ensures Digits([c]) == if '0' <= c <= '9' then [c] else ""
  {
    assert [c][1..] == "";
  }

  /** The number with the country code 55 in front, if it is 10 digits, or 11 with a 9 after the area code, of a listed area. */
  lemma CanonicalIs(phone: string)
    ensures
      var n, c := Digits(phone), CanonicalPhone(phone);
      && (c == n || c == "55" + n)
      && (c == "55" + n <==>
            && (|n| == 10 || (|n| == 11 && n[2] == '9')) && (n[0] != '5' || n[1] != '5')
            && IsListed(TwoDigits(n[0], n[1])))
  {
    var n := Digits(phone);
    if |n| >= 2 {
      assert n[0] in n && n[1] in n;
      AreaCodesAre(n[..2]);
    }
    hide IsAreaCode;
  }

  predicate IsListed(code: int) {
    || code in {11, 12, 13, 14, 15, 16, 17, 18, 19} || code in {21, 22, 24, 27, 28} || code in {31, 32, 33, 34, 35, 37, 38}
    || code in {41, 42, 43, 44, 45, 46, 47, 48, 49} || code in {51, 53, 54, 55} || code in {61, 62, 63, 64, 65, 66, 67, 68, 69}
    || code in {71, 73, 74, 75, 77, 79} || code in {81, 82, 83, 84, 85, 86, 87, 88, 89} || code in {91, 92, 93, 94, 95, 96, 97, 98, 99}
  }

  lemma AreaCodesAre(d: string)
    requires |d| == 2 && IsDigit(d[0]) && IsDigit(d[1])
    ensures IsAreaCode(d) <==> IsListed(TwoDigits(d[0], d[1]))
  {
    hide IsListed;
    assert forall c :: c in "12478" <==> c == '1' || c == '2' || c == '4' || c == '7' || c == '8';
    assert forall c :: c in "1234578" <==> '1' <= c <= '5' || c == '7' || c == '8';
    assert forall c :: c in "1345" <==> c == '1' || '3' <= c <= '5';
    assert forall c :: c in "134579" <==> c == '1' || '3' <= c <= '5' || c == '7' || c == '9';
    var x, tens := TwoDigits(d[0], d[1]), d[0] as int - '0' as int;
    CodesByTens(tens, d[1] as int - '0' as int);
    assert x == 10 * tens + (d[1] as int - '0' as int) && '9' as int == '0' as int + 9;
    assert '1' as int == '0' as int + 1 && '2' as int == '0' as int + 2 && '3' as int == '0' as int + 3 && '4' as int == '0' as int + 4;
    assert '5' as int == '0' as int + 5 && '6' as int == '0' as int + 6 && '7' as int == '0' as int + 7 && '8' as int == '0' as int + 8;
  }

  lemma CodesByTens(tens: int, units: int)
    requires 0 <= tens <= 9 && 0 <= units <= 9
    ensures IsListed(10 * tens + units) <==>
      match tens
      case 0 => false
      case 2 => units in {1, 2, 4, 7, 8}
      case 3 => units in {1, 2, 3, 4, 5, 7, 8}
      case 5 => units in {1, 3, 4, 5}
      case 7 => units in {1, 3, 4, 5, 7, 9}
      case _ => units != 0
  {}

  function TwoDigits(c: char, d: char): int {
    10 * (c as int - '0' as int) + (d as int - '0' as int)
  }

  // ----- One subscriber -----

  /** What all numbers of a subscriber have in common: the area code and the last eight digits. */
  function Subscriber(n: string): string {
    if |n| < 10 then n
    else (if (|n| == 12 || |n| == 13) && n[0] == '5' && n[1] == '5' then n[2..4] else n[..2]) + n[|n| - 8..]
  }

  /** Every identity of a number is of its own subscriber: numbers of different ones never share any. */
  lemma IdentityKeepsSubscriber(phone: string, id: string)
    requires id in PhoneIdentities(phone)
    ensures Subscriber(id) == Subscriber(Digits(phone))
  {
    var n, c := Digits(phone), CanonicalPhone(phone);
    hide IsAreaCode, Digits;
    CountryKeepsSubscriber(n);
    AlternateKeepsSubscriber(c);
    WithoutCountryKeepsSubscriber(c);
    WithoutCountryKeepsSubscriber(MobileAlternate(c));
    assert c == Canonical(n);
    hide Canonical, Subscriber, MobileAlternate, WithoutCountry, CanonicalPhone;
    var alt := MobileAlternate(c);
    assert id == c || (id == alt && alt != "") || id in WithoutCountry(c) || (id in WithoutCountry(alt) && alt != "");
  }

  lemma CountryKeepsSubscriber(n: string)
    ensures Subscriber(Canonical(n)) == Subscriber(n)
  {
    hide IsAreaCode;
    if Canonical(n) != n {
      var c := Canonical(n);
      assert c == "55" + n && c[2..4] == n[..2] && c[|c| - 8..] == n[|n| - 8..];
    }
  }

  lemma AlternateKeepsSubscriber(n: string)
    ensures MobileAlternate(n) != "" ==> Subscriber(MobileAlternate(n)) == Subscriber(n)
  {
    var a := MobileAlternate(n);
    if a != "" {
      assert a[2..4] == n[2..4] && a[|a| - 8..] == n[|n| - 8..];
    }
  }

  lemma WithoutCountryKeepsSubscriber(n: string)
    ensures forall id | id in WithoutCountry(n) :: Subscriber(id) == Subscriber(n)
  {
    if WithoutCountry(n) != [] {
      var b := n[2..];
      assert WithoutCountry(n) == [b];
      assert b[..2] == n[2..4] && b[|b| - 8..] == n[|n| - 8..];
    }
  }

  // ----- Normal forms -----

  lemma {:induction false} DigitsOfDigits(n: string)
    requires forall c | c in n :: IsDigit(c)
    ensures Digits(n) == n
  {
    if n != "" {
      assert n[0] in n;
      assert forall c | c in n[1..] :: c in n;
      DigitsOfDigits(n[1..]);
    }
  }

  lemma CanonicalIdempotent(phone: string)
    ensures CanonicalPhone(CanonicalPhone(phone)) == CanonicalPhone(phone)
  {
    DigitsOfDigits(CanonicalPhone(phone));
  }

  lemma IdentitiesIgnoreFormat(p: string, q: string)
    requires Digits(p) == Digits(q)
    ensures PhoneIdentities(p) == PhoneIdentities(q)
  {}

  lemma CanonicalIsAnIdentity(phone: string)
    ensures CanonicalPhone(phone) in PhoneIdentities(phone)
  {
    assert PhoneIdentities(phone)[0] == CanonicalPhone(phone);
  }

  // ----- The ninth digit -----

  /** Adding the ninth digit always undoes; dropping it does only in the mobile range. */
  lemma AlternateIsInvolution(n: string)
    requires MobileAlternate(n) != ""
    ensures MobileAlternate(MobileAlternate(n)) == n <==> |n| == 12 || IsMobileDigit(n[5])
  {
    var alt := MobileAlternate(n);
    if |n| == 13 {
      assert alt[4] == n[5];
      if IsMobileDigit(n[5]) {
        assert alt[..4] + "9" + alt[4..] == n;
      }
    } else {
      assert alt[..4] + alt[5..] == n;
    }
  }

  /** Outside that range a number reaches its shorter form, and the shorter form does not reach back. */
  lemma AlternateCanBeOneWay(n: string)
    requires |n| == 13 && StartsWith55(n) && n[4] == '9' && !IsMobileDigit(n[5])
    ensures MobileAlternate(n) == n[..4] + n[5..] && MobileAlternate(MobileAlternate(n)) == ""
  {}

  // ----- The four spellings -----

  /** A Brazilian mobile number in full: 55, area code, 9, eight digits. */
  predicate IsFullMobile(n: string) {
    |n| == 13 && (forall c | c in n :: IsDigit(c)) && StartsWith55(n) && n[4] == '9'
  }

  /** With and without the ninth digit, with and without the country code. */
  function Spellings(n: string): seq<string>
    requires IsFullMobile(n)
  {
    [n, n[..4] + n[5..], n[2..], n[2..4] + n[5..]]
  }

  predicate SpellingsAgree(n: string)
    requires IsFullMobile(n)
  {
    forall p | p in Spellings(n) :: IdentitySet(p) == IdentitySet(n)
  }

  /**
   The four spellings of a number identify the same subscriber exactly when its area code is a
   listed one other than 55 and its ninth digit is followed by 6 to 9.
   */
  lemma SpellingsAgreeExactlyWhen(n: string)
    requires IsFullMobile(n)
    ensures SpellingsAgree(n) <==> IsAreaCode(n[2..4]) && n[2..4] != "55" && IsMobileDigit(n[5])
  {
    hide IsAreaCode, SpellingsAgree;
    if IsAreaCode(n[2..4]) && n[2..4] != "55" && IsMobileDigit(n[5]) {
      SpellingsDoAgree(n);
    } else {
      SpellingsDisagree(n);
    }
  }

  lemma SpellingsDoAgree(n: string)
    requires IsFullMobile(n) && IsAreaCode(n[2..4]) && n[2..4] != "55" && IsMobileDigit(n[5])
    ensures SpellingsAgree(n)
  {
    hide IsAreaCode, StartsWith55;
    var short, bare, bareShort := n[..4] + n[5..], n[2..], n[2..4] + n[5..];
    assert forall p | p in Spellings(n) :: p == n || p == short || p == bare || p == bareShort;
    SpellingDigits(n);
    FullIdentities(n);
    BareBecomesFull(n);
    ShortIdentities(n);
  }

  lemma SpellingsDisagree(n: string)
    requires IsFullMobile(n) && !(IsAreaCode(n[2..4]) && n[2..4] != "55" && IsMobileDigit(n[5]))
    ensures !SpellingsAgree(n)
  {
    hide IsAreaCode, StartsWith55;
    SpellingDigits(n);
    FullIdentities(n);
    if !IsMobileDigit(n[5]) {
      assert Spellings(n)[1] == n[..4] + n[5..];
      ShortIsAlone(n);
    } else {
      assert Spellings(n)[2] == n[2..];
      BareStaysBare(n);
    }
  }

  lemma SpellingDigits(n: string)
    requires IsFullMobile(n)
    ensures forall p | p in Spellings(n) :: Digits(p) == p
  {
    forall p | p in Spellings(n) ensures Digits(p) == p {
      assert forall c | c in p :: c in n;
      DigitsOfDigits(p);
    }
  }

  function Four(n: string): set<string>
    requires IsFullMobile(n)
  {
    {n, n[..4] + n[5..], n[2..], n[2..4] + n[5..]}
  }

  lemma FullIdentities(n: string)
    requires IsFullMobile(n)
    ensures IdentitySet(n) == Four(n)
  {
    DigitsOfDigits(n);
    var short := n[..4] + n[5..];
    assert short[2..] == n[2..4] + n[5..];
    assert IdentitiesOf(n) == [n, short, n[2..], short[2..]];
  }

  lemma ShortIdentities(n: string)
    requires IsFullMobile(n) && IsMobileDigit(n[5])
    ensures IdentitySet(n[..4] + n[5..]) == Four(n)
  {
    SpellingDigits(n);
    var short := n[..4] + n[5..];
    assert short == Spellings(n)[1];
    assert short[4] == n[5];
    assert MobileAlternate(short) == n;
    assert short[2..] == n[2..4] + n[5..];
    assert IdentitiesOf(short) == [short, n, short[2..], n[2..]];
  }

  lemma ShortIsAlone(n: string)
    requires IsFullMobile(n) && !IsMobileDigit(n[5])
    ensures n !in IdentitySet(n[..4] + n[5..]) && n in IdentitySet(n)
  {
    SpellingDigits(n);
    FullIdentities(n);
    var short := n[..4] + n[5..];
    assert short == Spellings(n)[1];
    assert short[4] == n[5];
    assert IdentitiesOf(short) == [short, short[2..]];
  }

  lemma BareBecomesFull(n: string)
    requires IsFullMobile(n) && IsAreaCode(n[2..4]) && n[2..4] != "55"
    ensures CanonicalPhone(n[2..]) == n && CanonicalPhone(n[2..4] + n[5..]) == n[..4] + n[5..]
    ensures CanonicalPhone(n[..4] + n[5..]) == n[..4] + n[5..]
  {
    hide IsAreaCode;
    SpellingDigits(n);
    var bare, bareShort := n[2..], n[2..4] + n[5..];
    assert bare == Spellings(n)[2] && bareShort == Spellings(n)[3] && Spellings(n)[1] == n[..4] + n[5..];
    assert bare[..2] == n[2..4] && bareShort[..2] == n[2..4];
    assert n[2..4] == [n[2], n[3]];
    assert "55" + bare == n;
    assert "55" + bareShort == n[..4] + n[5..];
  }

  lemma BareStaysBare(n: string)
    requires IsFullMobile(n) && (!IsAreaCode(n[2..4]) || n[2..4] == "55")
    ensures n !in IdentitySet(n[2..]) && n in IdentitySet(n)
  {
    hide IsAreaCode;
    SpellingDigits(n);
    FullIdentities(n);
    var bare := n[2..];
    assert bare == Spellings(n)[2];
    assert bare[..2] == n[2..4];
    assert IdentitiesOf(bare) == [bare];
  }
}
