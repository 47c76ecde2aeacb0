/** A reader of the block of text that a run's tool exchanges are flattened to, and what it gets back. */
module FlattenReader {
  import opened Basics
  import opened Bits
  import opened Conversation
  import opened Flatten
  import Utf8

  // ----- JSON strings (section 7 of RFC 8259) -----

  function HexValue(b: Byte): nat {
    if 0x30 <= b < 0x3A then b - 0x30 else if 0x61 <= b < 0x67 then b - 0x57 else 0
  }

  /** A character of the basic plane. */
  function Encoded(n: nat): Text
    requires n < 0x10000
  {
    if n < 0x80 then [n]
    else if n < 0x800 then [0xC0 + n / 64, 0x80 + n % 64]
    else [0xE0 + n / 4096, 0x80 + n / 64 % 64, 0x80 + n % 64]
  }

  /** What the letter after a backslash stands for. */
  function Meant(letter: Byte): Byte {
    if letter == 0x62 then 0x08
    else if letter == 0x66 then 0x0C
    else if letter == 0x6E then 0x0A
    else if letter == 0x72 then 0x0D
    else if letter == 0x74 then 0x09
    else letter
  }

  function Unit(t: Text): (n: nat)
    requires |t| == 4
    ensures n < 0x10000
  {
    HexValue(t[0]) * 4096 + HexValue(t[1]) * 256 + HexValue(t[2]) * 16 + HexValue(t[3])
  }

  /** What is between the quotes of a string, with its escapes undone. */
  function Unescaped(t: Text): Text {
    if t == [] then []
    else if t[0] == BACKSLASH && |t| >= 6 && t[1] == 0x75 then Encoded(Unit(t[2..6])) + Unescaped(t[6..])
    else if t[0] == BACKSLASH && |t| >= 2 then [Meant(t[1])] + Unescaped(t[2..])
    else [t[0]] + Unescaped(t[1..])
  }

  /** Every byte that begins no character replaced by U+FFFD. */
  function Repaired(s: Text): Text
    decreases |s|
  {
    var n := Utf8.CharLen(s);
    if s == [] then []
    else if n == 0 then [0xEF, 0xBF, 0xBD] + Repaired(s[1..])
    else s[..n] + Repaired(s[n..])
  }

  lemma {:induction false} RepairedIsValid(s: Text)
    ensures Utf8.Valid(Repaired(s))
    decreases |s|
  {
    var n := Utf8.CharLen(s);
    if s == [] {
    } else if n == 0 {
      RepairedIsValid(s[1..]);
      assert Utf8.Valid([0xEF, 0xBF, 0xBD]);
      Utf8.ConcatIsValid([0xEF, 0xBF, 0xBD], Repaired(s[1..]));
    } else {
      RepairedIsValid(s[n..]);
      Utf8.CharLenDependsOnChar(s, s[..n]);
      assert Utf8.Valid(s[..n]) by {
        assert s[..n][n..] == [];
      }
      Utf8.ConcatIsValid(s[..n], Repaired(s[n..]));
    }
  }

  lemma {:induction false} ValidNeedsNoRepair(s: Text)
    requires Utf8.Valid(s)
    ensures Repaired(s) == s
    decreases |s|
  {
    if s != [] {
      var n := Utf8.CharLen(s);
      ValidNeedsNoRepair(s[n..]);
      assert s[..n] + s[n..] == s;
    }
  }

  lemma HexIsRead(n: nat)
    requires n < 16
    ensures HexValue(Hex(n)) == n
  {}

  lemma CodeUnitIsRead(n: nat, rest: Text)
    requires n < 0x10000
    ensures Unescaped(CodeUnit(n) + rest) == Encoded(n) + Unescaped(rest)
  {
    var t := CodeUnit(n) + rest;
    HexIsRead(n / 4096);
    HexIsRead(n / 256 % 16);
    HexIsRead(n / 16 % 16);
    HexIsRead(n % 16);
    hide Hex, HexValue, Encoded;
    assert t[2..6] == [Hex(n / 4096), Hex(n / 256 % 16), Hex(n / 16 % 16), Hex(n % 16)];
    assert t[6..] == rest;
    DigitsOf(n);
  }

  lemma TwoDigits(n: nat)
    ensures n / 256 == n / 16 / 16
  {
    var a, b := n / 16, n / 16 / 16;
    assert n == 16 * a + n % 16;
    assert a == 16 * b + a % 16;
    Over256(n, b, 16 * (a % 16) + n % 16);
  }

  lemma ThreeDigits(n: nat)
    ensures n / 4096 == n / 256 / 16
  {
    var b, c := n / 256, n / 256 / 16;
    assert n == 256 * b + n % 256;
    assert b == 16 * c + b % 16;
    Over4096(n, c, 256 * (b % 16) + n % 256);
  }

  lemma Over256(n: nat, q: nat, r: nat)
    requires n == 256 * q + r && r < 256
    ensures n / 256 == q
  {}

  lemma Over4096(n: nat, q: nat, r: nat)
    requires n == 4096 * q + r && r < 4096
    ensures n / 4096 == q
  {}

  lemma DigitsOf(n: nat)
    requires n < 0x10000
    ensures n / 4096 * 4096 + n / 256 % 16 * 256 + n / 16 % 16 * 16 + n % 16 == n
  {
    TwoDigits(n);
    ThreeDigits(n);
    var a, b, c := n / 16, n / 256, n / 4096;
    assert n == 16 * a + n % 16;
    assert a == 16 * b + a % 16;
    assert b == 16 * c + b % 16;
  }

  lemma LetterIsRead(b: Byte, rest: Text)
    requires Letter(b) != 0
    ensures Unescaped([BACKSLASH, Letter(b)] + rest) == [b] + Unescaped(rest)
  {
    var t := [BACKSLASH, Letter(b)] + rest;
    assert t[2..] == rest && t[1] != 0x75;
  }

  lemma {:induction false} PlainIsRead(t: Text, rest: Text)
    requires forall k | 0 <= k < |t| :: t[k] != BACKSLASH
    ensures Unescaped(t + rest) == t + Unescaped(rest)
  {
    if t == [] {
      assert t + rest == rest;
    } else {
      assert (t + rest)[1..] == t[1..] + rest;
      PlainIsRead(t[1..], rest);
      assert [t[0]] + (t[1..] + Unescaped(rest)) == t + Unescaped(rest);
    }
  }

  lemma SeparatorIsRead(last: Byte, rest: Text)
    requires last == 0xA8 || last == 0xA9
    ensures Unescaped(CodeUnit(0x2028 + (last - 0xA8)) + rest) == [0xE2, 0x80, last] + Unescaped(rest)
  {
    hide Unescaped, CodeUnit;
    CodeUnitIsRead(0x2028 + (last - 0xA8), rest);
  }

  lemma ByteIsRead(b: Byte, rest: Text)
    requires b < 0x80
    ensures Unescaped(Escaped([b]) + rest) == [b] + Unescaped(rest)
  {
    hide Unescaped, CodeUnit;
    if Letter(b) != 0 {
      LetterIsRead(b, rest);
    } else if b < 0x20 {
      CodeUnitIsRead(b, rest);
    } else {
      hide Encoded, Letter;
      PlainIsRead([b], rest);
    }
  }

  lemma CharIsRead(c: Text, rest: Text)
    requires c != [] && Utf8.CharLen(c) == |c|
    ensures Unescaped(Escaped(c) + rest) == c + Unescaped(rest)
  {
    Utf8.CharIsOneStart(c);
    hide Unescaped, CodeUnit, Encoded, Letter;
    if |c| == 1 {
      assert c == [c[0]];
      ByteIsRead(c[0], rest);
    } else if c == [0xE2, 0x80, 0xA8] || c == [0xE2, 0x80, 0xA9] {
      SeparatorIsRead(c[2], rest);
    } else {
      PlainIsRead(c, rest);
    }
  }

  lemma {:induction false} CharsAreRead(s: Text)
    ensures Unescaped(JsonChars(s)) == Repaired(s)
    decreases |s|
  {
    var n := Utf8.CharLen(s);
    hide Unescaped, CodeUnit, Escaped, Utf8.CharLen;
    if s == [] {
      assert Unescaped([]) == [] by {
        NothingToRead();
      }
    } else if n == 0 {
      CharsAreRead(s[1..]);
      CodeUnitIsRead(0xFFFD, JsonChars(s[1..]));
      assert Encoded(0xFFFD) == [0xEF, 0xBF, 0xBD];
    } else {
      CharsAreRead(s[n..]);
      Utf8.CharLenDependsOnChar(s, s[..n]);
      CharIsRead(s[..n], JsonChars(s[n..]));
    }
  }

  lemma NothingToRead()
    ensures Unescaped([]) == []
  {}

  /** A value in the block reads back as it was if and only if it was UTF-8. */
  lemma ValueReadsBackExactlyWhen(s: Text)
    ensures Unescaped(JsonChars(s)) == s <==> Utf8.Valid(s)
  {
    CharsAreRead(s);
    if Utf8.Valid(s) {
      ValidNeedsNoRepair(s);
    } else {
      RepairedIsValid(s);
    }
  }

  // ----- Fields -----

  /** A string at the beginning of a text, and what follows it. */
  function ReadString(t: Text): Option<(Text, Text)> {
    if t == [] || t[0] != QUOTE then None
    else
      var n := StringLength(t[1..]);
      if n + 1 < |t| then Some((Unescaped(t[1..n + 1]), t[n + 2..])) else None
  }

  lemma StringIsRead(s: Text, rest: Text)
    ensures ReadString(JsonText(s) + rest) == Some((Repaired(s), rest))
  {
    ValuesStayInside(s, rest);
    CharsAreRead(s);
    hide StringLength, Unescaped, JsonChars;
    var t := JsonText(s) + rest;
    assert t[1..|JsonChars(s)| + 1] == JsonChars(s) && t[|JsonChars(s)| + 2..] == rest;
  }

  /** What follows a title. */
  function After(t: Text, title: Text): Option<Text> {
    if title <= t then Some(t[|title|..]) else None
  }

  lemma TitleIsRead(title: Text, rest: Text)
    ensures After(title + rest, title) == Some(rest)
  {
    assert (title + rest)[|title|..] == rest;
  }

  /** A number at the beginning of a text, and what follows it. */
  function ReadNumber(t: Text, n: nat): (nat, Text) {
    if t != [] && 0x30 <= t[0] < 0x3A then ReadNumber(t[1..], 10 * n + (t[0] - 0x30)) else (n, t)
  }

  lemma {:induction false} NumberIsRead(n: nat, rest: Text)
    ensures ReadNumber(Decimal(n) + rest, 0) == ReadNumber(rest, n)
  {
    var digit := [0x30 + n % 10];
    assert (digit + rest)[1..] == rest;
    if n < 10 {
      assert Decimal(n) == digit;
    } else {
      NumberIsRead(n / 10, digit + rest);
      assert Decimal(n) + rest == Decimal(n / 10) + (digit + rest);
    }
  }

  /** A title, and the string after it. */
  function ReadField(t: Text, title: Text): Option<(Text, Text)> {
    match After(t, title)
    case None => None
    case Some(value) => ReadString(value)
  }

  lemma FieldIsRead(title: Text, s: Text, rest: Text)
    ensures ReadField(title + JsonText(s) + rest, title) == Some((Repaired(s), rest))
  {
    hide ReadString, JsonText;
    assert title + JsonText(s) + rest == title + (JsonText(s) + rest);
    TitleIsRead(title, JsonText(s) + rest);
    StringIsRead(s, rest);
  }

  // ----- Records -----

  datatype Record =
    | SaidText(text: Text)
    | Called(n: nat, name: Text, id: Text, args: Text)
    | Returned(callId: Text, name: Text, isError: bool, content: Text)

  function ReadText(t: Text): Option<Record> {
    match ReadField(t, Ascii("[assistant_text] "))
    case None => None
    case Some((text, rest)) => if rest == [] then Some(SaidText(text)) else None
  }

  function ReadCall(t: Text): Option<Record> {
    match After(t, Ascii("[tool_call n="))
    case None => None
    case Some(t) =>
      var (n, t) := ReadNumber(t, 0);
      match ReadField(t, Ascii(" name="))
      case None => None
      case Some((name, t)) =>
        match ReadField(t, Ascii(" call_id="))
        case None => None
        case Some((id, t)) =>
          match After(t, Ascii("] args="))
          case None => None
          case Some(args) => Some(Called(n, name, id, args))
  }

  function ReadResult(t: Text): Option<Record> {
    match ReadField(t, Ascii("[tool_result call_id="))
    case None => None
    case Some((id, t)) =>
      match ReadField(t, Ascii(" name="))
      case None => None
      case Some((name, t)) =>
        var isError := After(t, Ascii(" error=true] ")).Some?;
        match ReadField(t, Ascii(if isError then " error=true] " else " error=false] "))
        case None => None
        case Some((content, rest)) => if rest == [] then Some(Returned(id, name, isError, content)) else None
  }

  lemma AsciiAt(s: string, k: nat)
    requires k < |s| && 0x20 <= s[k] as int < 0x7F
    ensures Ascii(s)[k] == s[k] as int
  {}

  function ReadRecord(t: Text): Option<Record> {
    if ReadText(t).Some? then ReadText(t)
    else if ReadCall(t).Some? then ReadCall(t)
    else ReadResult(t)
  }

  /** A result reads back with its call's id, its name, whether it is an error, and its content. */
  lemma ResultReadsBack(r: ToolResult)
    ensures ReadResult(ResultRecord(r)) == Some(Returned(Repaired(r.callId), Repaired(r.name), r.isError, Repaired(r.content)))
  {
    hide JsonText, Ascii, After, ReadField;
    var flag := Ascii(if r.isError then " error=true] " else " error=false] ");
    var t2 := flag + JsonText(r.content) + [];
    var t1 := Ascii(" name=") + JsonText(r.name) + t2;
    var t0 := Ascii("[tool_result call_id=") + JsonText(r.callId) + t1;
    assert ResultRecord(r) == t0;
    FieldIsRead(Ascii("[tool_result call_id="), r.callId, t1);
    FieldIsRead(Ascii(" name="), r.name, t2);
    FieldIsRead(flag, r.content, []);
    FlagIsRead(r.isError, JsonText(r.content) + []);
    assert t2 == flag + (JsonText(r.content) + []);
  }

  lemma FlagIsRead(isError: bool, rest: Text)
    ensures After(Ascii(if isError then " error=true] " else " error=false] ") + rest, Ascii(" error=true] ")).Some? <==> isError
  {
    if isError {
      hide Ascii;
      TitleIsRead(Ascii(" error=true] "), rest);
    } else {
      AsciiAt(" error=true] ", 7);
      AsciiAt(" error=false] ", 7);
    }
  }

  /** A call reads back with its number, name, id, and arguments as they were compacted or quoted. */
  lemma CallReadsBack(c: ToolCall, n: nat, compact: Compaction)
    ensures ReadCall(CallRecord(c, n, compact)) == Some(Called(n, Repaired(c.name), Repaired(c.id), Arguments(c, compact)))
  {
    hide JsonText, Ascii, After, ReadField, Arguments, ReadNumber, Decimal;
    var t3 := Ascii("] args=") + Arguments(c, compact);
    var t2 := Ascii(" call_id=") + JsonText(c.id) + t3;
    var t1 := Ascii(" name=") + JsonText(c.name) + t2;
    var t0 := Ascii("[tool_call n=") + (Decimal(n) + t1);
    assert CallRecord(c, n, compact) == t0;
    TitleIsRead(Ascii("[tool_call n="), Decimal(n) + t1);
    NumberIsRead(n, t1);
    NoDigit(JsonText(c.name) + t2, n);
    assert t1 == Ascii(" name=") + (JsonText(c.name) + t2);
    FieldIsRead(Ascii(" name="), c.name, t2);
    FieldIsRead(Ascii(" call_id="), c.id, t3);
    TitleIsRead(Ascii("] args="), Arguments(c, compact));
  }

  lemma NoDigit(rest: Text, n: nat)
    ensures ReadNumber(Ascii(" name=") + rest, n) == (n, Ascii(" name=") + rest)
  {
    AsciiAt(" name=", 0);
  }

  lemma TextReadsBack(content: Text)
    ensures ReadText(Ascii("[assistant_text] ") + JsonText(content)) == Some(SaidText(Repaired(content)))
  {
    hide JsonText, Ascii, ReadField;
    FieldIsRead(Ascii("[assistant_text] "), content, []);
    assert Ascii("[assistant_text] ") + JsonText(content) + [] == Ascii("[assistant_text] ") + JsonText(content);
  }

  /** The second letter of its title tells each kind of record from the others, and the seventh the last two. */
  lemma KindsDiffer(rest: Text)
    ensures ReadText(Ascii("[tool_call n=") + rest).None? && ReadText(Ascii("[tool_result call_id=") + rest).None?
    ensures ReadCall(Ascii("[tool_result call_id=") + rest).None?
  {
    AsciiAt("[assistant_text] ", 1);
    AsciiAt("[tool_call n=", 1);
    AsciiAt("[tool_call n=", 6);
    AsciiAt("[tool_result call_id=", 1);
    AsciiAt("[tool_result call_id=", 6);
    hide Ascii, ReadString, ReadNumber;
  }

  lemma CallBegins(c: ToolCall, n: nat, compact: Compaction)
    ensures ReadText(CallRecord(c, n, compact)).None?
  {
    hide Ascii, JsonText, ReadText, Arguments;
    var rest := Decimal(n) + Ascii(" name=") + JsonText(c.name) + Ascii(" call_id=") + JsonText(c.id) + Ascii("] args=") + Arguments(c, compact);
    assert CallRecord(c, n, compact) == Ascii("[tool_call n=") + rest;
    KindsDiffer(rest);
  }

  lemma ResultBegins(r: ToolResult)
    ensures ReadText(ResultRecord(r)).None? && ReadCall(ResultRecord(r)).None?
  {
    hide Ascii, JsonText, ReadText, ReadCall;
    var rest := JsonText(r.callId) + Ascii(" name=") + JsonText(r.name)
      + Ascii(if r.isError then " error=true] " else " error=false] ") + JsonText(r.content);
    assert ResultRecord(r) == Ascii("[tool_result call_id=") + rest;
    KindsDiffer(rest);
  }

  lemma AnyTextReadsBack(content: Text)
    ensures ReadRecord(Ascii("[assistant_text] ") + JsonText(content)) == Some(SaidText(Repaired(content)))
  {
    TextReadsBack(content);
    hide ReadText, ReadCall, ReadResult, Ascii, JsonText, Repaired;
  }

  lemma AnyCallReadsBack(c: ToolCall, n: nat, compact: Compaction)
    ensures ReadRecord(CallRecord(c, n, compact)) == Some(Called(n, Repaired(c.name), Repaired(c.id), Arguments(c, compact)))
  {
    CallReadsBack(c, n, compact);
    CallBegins(c, n, compact);
    hide ReadText, ReadCall, ReadResult, CallRecord, Repaired, Arguments;
  }

  lemma AnyResultReadsBack(r: ToolResult)
    ensures ReadRecord(ResultRecord(r)) == Some(Returned(Repaired(r.callId), Repaired(r.name), r.isError, Repaired(r.content)))
  {
    ResultReadsBack(r);
    ResultBegins(r);
    hide ReadText, ReadCall, ReadResult, ResultRecord, Repaired;
  }

  // ----- The block -----

  /** What a message has to show, after n calls have been numbered. */
  function Shown(m: Message, n: nat, compact: Compaction): seq<Record> {
    match m.role
    case Assistant =>
      (if Blank(m.content) then [] else [SaidText(Repaired(m.content))])
      + seq(|m.calls|, k requires 0 <= k < |m.calls| =>
          Called(n + k + 1, Repaired(m.calls[k].name), Repaired(m.calls[k].id), Arguments(m.calls[k], compact)))
    case Tool =>
      seq(|m.results|, k requires 0 <= k < |m.results| =>
        Returned(Repaired(m.results[k].callId), Repaired(m.results[k].name), m.results[k].isError, Repaired(m.results[k].content)))
    case User => []
  }

  function AllShown(msgs: seq<Message>, compact: Compaction): seq<Record> {
    if msgs == [] then []
    else
      var before := msgs[..|msgs| - 1];
      AllShown(before, compact) + Shown(msgs[|msgs| - 1], CallCount(before), compact)
  }

  ghost predicate ReadAs(lines: seq<Text>, records: seq<Record>) {
    |lines| == |records| && forall k | 0 <= k < |lines| :: ReadRecord(lines[k]) == Some(records[k])
  }

  lemma MessageReadsBack(m: Message, n: nat, compact: Compaction)
    ensures ReadAs(Records(m, n, compact), Shown(m, n, compact))
  {
    hide ReadRecord, CallRecord, ResultRecord, Repaired, Blank, Arguments, JsonText, Ascii;
    forall k | 0 <= k < |Records(m, n, compact)| ensures ReadRecord(Records(m, n, compact)[k]) == Some(Shown(m, n, compact)[k]) {
      match m.role
      case Assistant =>
        var t := |TextRecords(m)|;
        if k < t {
          AnyTextReadsBack(m.content);
        } else {
          AnyCallReadsBack(m.calls[k - t], n + (k - t) + 1, compact);
        }
      case Tool => AnyResultReadsBack(m.results[k]);
      case User =>
    }
  }

  lemma {:induction false} RecordsReadAs(msgs: seq<Message>, compact: Compaction)
    ensures ReadAs(AllRecords(msgs, compact), AllShown(msgs, compact))
  {
    hide ReadRecord, Records, Shown;
    if msgs != [] {
      var before := msgs[..|msgs| - 1];
      RecordsReadAs(before, compact);
      MessageReadsBack(msgs[|msgs| - 1], CallCount(before), compact);
    }
  }

  /**
   The block of a run, cut at its line breaks, reads back after its header as what the run had: every text the
   assistant said, every call with its number, name, id and arguments, and every result with its call's id, its
   name, whether it is an error and its content; all in order, nothing else, whatever the values contain.
   */
  lemma BlockReadsAs(header: Text, msgs: seq<Message>, compact: Compaction)
    requires NoBreaks(header) && CompactsToALine(compact)
    ensures ReadAs(Split(header + Lines(AllRecords(msgs, compact)))[1..], AllShown(msgs, compact))
  {
    hide Split, AllRecords, Lines, CompactsToALine, ReadAs, AllShown;
    LineSplits(header);
    RecordsReadAs(msgs, compact);
    forall k | 0 <= k < |AllRecords(msgs, compact)| ensures NoBreaks(AllRecords(msgs, compact)[k]) {
      AllRecordsAreLines(msgs, compact, k);
    }
    LinesSplit(header, AllRecords(msgs, compact));
    assert ([header] + AllRecords(msgs, compact))[1..] == AllRecords(msgs, compact);
  }

  function CalledIn(records: seq<Record>): nat {
    if records == [] then 0
    else CalledIn(records[..|records| - 1]) + if records[|records| - 1].Called? then 1 else 0
  }

  lemma {:induction false} CalledInBoth(a: seq<Record>, b: seq<Record>)
    ensures CalledIn(a + b) == CalledIn(a) + CalledIn(b)
  {
    if b == [] {
      assert a + b == a;
    } else {
      CalledInBoth(a, b[..|b| - 1]);
      assert (a + b)[..|a + b| - 1] == a + b[..|b| - 1];
    }
  }

  lemma {:induction false} ShownIsNumbered(m: Message, n: nat, compact: Compaction, k: nat)
    requires k <= |Shown(m, n, compact)|
    ensures
      var s := Shown(m, n, compact);
      && CalledIn(s[..k]) == (if m.role == Assistant && k > |TextRecords(m)| then k - |TextRecords(m)| else 0)
      && (k < |s| && s[k].Called? ==> s[k].n == n + CalledIn(s[..k]) + 1)
  {
    hide Repaired, Arguments, Blank;
    var s := Shown(m, n, compact);
    if k > 0 {
      ShownIsNumbered(m, n, compact, k - 1);
      assert s[..k][..k - 1] == s[..k - 1];
    }
  }

  /** The calls in the block are numbered from one, in order, across all messages. */
  lemma {:induction false} CallsAreNumbered(msgs: seq<Message>, compact: Compaction, k: nat)
    requires k < |AllShown(msgs, compact)|
    ensures AllShown(msgs, compact)[k].Called? ==> AllShown(msgs, compact)[k].n == 1 + CalledIn(AllShown(msgs, compact)[..k])
  {
    hide Shown, CalledIn, CallCount;
    var before, m := msgs[..|msgs| - 1], msgs[|msgs| - 1];
    var a, b := AllShown(before, compact), Shown(m, CallCount(before), compact);
    if k < |a| {
      CallsAreNumbered(before, compact, k);
      assert (a + b)[..k] == a[..k];
    } else {
      ShownIsNumbered(m, CallCount(before), compact, k - |a|);
      AllCalled(before, compact);
      CalledInBoth(a, b[..k - |a|]);
      assert (a + b)[..k] == a + b[..k - |a|];
    }
  }

  lemma {:induction false} AllCalled(msgs: seq<Message>, compact: Compaction)
    ensures CalledIn(AllShown(msgs, compact)) == CallCount(msgs)
  {
    hide CalledIn;
    if msgs == [] {
      NothingCalled();
    } else {
      var before, m := msgs[..|msgs| - 1], msgs[|msgs| - 1];
      AllCalled(before, compact);
      var b := Shown(m, CallCount(before), compact);
      ShownIsNumbered(m, CallCount(before), compact, |b|);
      assert b[..|b|] == b;
      CalledInBoth(AllShown(before, compact), b);
    }
  }

  lemma NothingCalled()
    ensures CalledIn([]) == 0
  {}
}
