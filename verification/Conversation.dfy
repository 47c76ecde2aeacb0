/** Tool calls and their results in a conversation, and what the providers' adapters accept. */
module Conversation {
  import opened Basics
  import opened Bits

  type Text = seq<Byte>

  datatype Role = User | Assistant | Tool

  /** Opaque is transport state of the adapter that made the call. */
  datatype ToolCall = ToolCall(id: Text, name: Text, arguments: Text, opaq: Text)

  datatype ToolResult = ToolResult(callId: Text, name: Text, content: Text, isError: bool)

  datatype Message = Message(role: Role, content: Text, calls: seq<ToolCall>, results: seq<ToolResult>)

  /** schema says whether the parameters are a JSON Schema object. */
  datatype ToolDefinition = ToolDefinition(name: Text, description: Text, schema: bool)

  datatype Request = Request(messages: seq<Message>, tools: seq<ToolDefinition>)

  // ----- Definitions -----

  predicate NameChar(b: Byte) {
    0x61 <= b <= 0x7A || 0x41 <= b <= 0x5A || 0x30 <= b <= 0x39 || b == 0x5F || b == 0x2D
  }

  predicate ValidTool(d: ToolDefinition) {
    1 <= |d.name| <= 64 && (forall k | 0 <= k < |d.name| :: NameChar(d.name[k])) && d.schema
  }

  predicate ValidTools(tools: seq<ToolDefinition>) {
    && (forall k | 0 <= k < |tools| :: ValidTool(tools[k]))
    && forall j, k | 0 <= j < k < |tools| :: tools[j].name != tools[k].name
  }

  method ValidateTools(tools: seq<ToolDefinition>) returns (ok: bool)
    ensures ok <==> ValidTools(tools)
  {
    var seen: set<Text> := {};
    for k := 0 to |tools|
      invariant forall j | 0 <= j < k :: ValidTool(tools[j]) && tools[j].name in seen
      invariant forall n | n in seen :: exists j | 0 <= j < k :: tools[j].name == n
      invariant forall i, j | 0 <= i < j < k :: tools[i].name != tools[j].name
    {
      if !ValidTool(tools[k]) || tools[k].name in seen {
        return false;
      }
      seen := seen + {tools[k].name};
    }
    ok := true;
  }

  /** Names of 1 to 64 letters, digits, underscores and hyphens, no two the same, and parameters that are an object. */
  lemma ValidToolsAre(tools: seq<ToolDefinition>)
    ensures ValidTools(tools) <==>
              && (forall d | d in tools :: 1 <= |d.name| <= 64 && d.schema)
              && (forall d, b | d in tools && b in d.name :: 'a' as int <= b <= 'z' as int || 'A' as int <= b <= 'Z' as int
                                                              || '0' as int <= b <= '9' as int || b == '_' as int || b == '-' as int)
              && forall j, k | 0 <= j < k < |tools| :: tools[j].name != tools[k].name
  {
    if ValidTools(tools) {
      forall d, b | d in tools && b in d.name ensures NameChar(b) {
        var k :| 0 <= k < |tools| && tools[k] == d;
        assert ValidTool(tools[k]);
      }
    } else {
      forall k | 0 <= k < |tools| ensures tools[k] in tools {}
      forall k, j | 0 <= k < |tools| && 0 <= j < |tools[k].name| ensures tools[k].name[j] in tools[k].name {}
    }
  }

  // ----- Conversations -----

  function CallIds(calls: seq<ToolCall>): (ids: seq<Text>)
    ensures |ids| == |calls|
  {
    seq(|calls|, k requires 0 <= k < |calls| => calls[k].id)
  }

  function ResultIds(results: seq<ToolResult>): (ids: seq<Text>)
    ensures |ids| == |results|
  {
    seq(|results|, k requires 0 <= k < |results| => results[k].callId)
  }

  /** Calls with names and unique ids. */
  predicate Named(calls: seq<ToolCall>) {
    (forall k | 0 <= k < |calls| :: calls[k].id != [] && calls[k].name != []) && Distinct(CallIds(calls))
  }

  /** Every call has exactly one result, and there are no others; the order is free. */
  predicate Answers(calls: seq<ToolCall>, results: seq<ToolResult>) {
    Named(calls) && multiset(ResultIds(results)) == multiset(CallIds(calls))
  }

  /** That is: each call has a name and an id of its own, there are as many results, and each call has one. */
  lemma AnswersAre(calls: seq<ToolCall>, results: seq<ToolResult>)
    ensures Answers(calls, results) <==>
              && (forall k | 0 <= k < |calls| :: calls[k].id != [] && calls[k].name != [])
              && (forall j, k | 0 <= j < k < |calls| :: calls[j].id != calls[k].id)
              && |results| == |calls|
              && forall k | 0 <= k < |calls| :: exists j :: 0 <= j < |results| && results[j].callId == calls[k].id
  {
    var ids, got := CallIds(calls), ResultIds(results);
    assert Named(calls) <==>
             && (forall k | 0 <= k < |calls| :: calls[k].id != [] && calls[k].name != [])
             && forall j, k | 0 <= j < k < |calls| :: calls[j].id != calls[k].id by {
      assert forall k | 0 <= k < |calls| :: ids[k] == calls[k].id;
    }
    assert |multiset(ids)| == |calls| && |multiset(got)| == |results|;
    if Answers(calls, results) {
      forall k | 0 <= k < |calls| ensures exists j :: 0 <= j < |results| && results[j].callId == calls[k].id {
        assert ids[k] in multiset(got);
        var j :| 0 <= j < |got| && got[j] == ids[k];
        assert results[j].callId == calls[k].id;
      }
    }
    if Named(calls) && |results| == |calls|
       && forall k | 0 <= k < |calls| :: exists j :: 0 <= j < |results| && results[j].callId == calls[k].id
    {
      forall k | 0 <= k < |ids| ensures ids[k] in got {
        var j :| 0 <= j < |results| && results[j].callId == calls[k].id;
        assert got[j] == ids[k];
      }
      SameIds(ids, got);
    }
  }

  lemma SameIds(ids: seq<Text>, got: seq<Text>)
    requires Distinct(ids) && |got| == |ids| && forall k | 0 <= k < |ids| :: ids[k] in got
    ensures multiset(got) == multiset(ids)
  {
    forall id ensures multiset(ids)[id] <= multiset(got)[id] {
      OnceEach(ids, id);
    }
    assert multiset(got) == multiset(ids) + (multiset(got) - multiset(ids));
  }

  lemma {:induction false} OnceEach(ids: seq<Text>, id: Text)
    requires Distinct(ids)
    ensures multiset(ids)[id] <= 1
  {
    if ids != [] {
      var last := |ids| - 1;
      OnceEach(ids[..last], id);
      assert ids == ids[..last] + [ids[last]];
      assert id == ids[last] ==> id !in ids[..last];
    }
  }

  predicate GoodAt(msgs: seq<Message>, i: nat)
    requires i < |msgs|
  {
    var m := msgs[i];
    && (m.calls != [] ==> m.role == Assistant)
    && (m.results != [] <==> m.role == Tool)
    && (m.calls != [] ==> i + 1 < |msgs| && msgs[i + 1].role == Tool && Answers(m.calls, msgs[i + 1].results))
  }

  predicate WellFormed(msgs: seq<Message>) {
    forall i: nat | i < |msgs| :: GoodAt(msgs, i)
  }

  /**
   Calls come from the assistant, results in messages of tools and nothing else in those; and the calls of a
   message are answered by the next, each by one result, in any order.
   */
  lemma WellFormedIs(msgs: seq<Message>)
    ensures WellFormed(msgs) <==>
              && (forall i | 0 <= i < |msgs| :: msgs[i].calls != [] ==> msgs[i].role == Assistant)
              && (forall i | 0 <= i < |msgs| :: msgs[i].results != [] <==> msgs[i].role == Tool)
              && forall i | 0 <= i < |msgs| && msgs[i].calls != [] ::
                   i + 1 < |msgs| && msgs[i + 1].role == Tool && Answers(msgs[i].calls, msgs[i + 1].results)
  {
    hide Answers;
    if WellFormed(msgs) {
      forall i | 0 <= i < |msgs|
        ensures msgs[i].calls != [] ==> msgs[i].role == Assistant
        ensures msgs[i].results != [] <==> msgs[i].role == Tool
      {
        assert GoodAt(msgs, i);
      }
      forall i | 0 <= i < |msgs| && msgs[i].calls != []
        ensures i + 1 < |msgs| && msgs[i + 1].role == Tool && Answers(msgs[i].calls, msgs[i + 1].results)
      {
        assert GoodAt(msgs, i);
      }
    } else {
      var i: nat :| i < |msgs| && !GoodAt(msgs, i);
      assert msgs[i] == msgs[i];
    }
  }

  /** One more call is named if its id and its name are there and the id is new; if not, the calls are not named. */
  lemma NamedGrows(calls: seq<ToolCall>, k: nat)
    requires k < |calls| && Named(calls[..k])
    ensures CallIds(calls[..k + 1]) == CallIds(calls[..k]) + [calls[k].id]
    ensures
      if calls[k].id == [] || calls[k].name == [] || calls[k].id in CallIds(calls[..k]) then !Named(calls)
      else Named(calls[..k + 1])
  {
    var id := calls[k].id;
    assert CallIds(calls[..k + 1]) == CallIds(calls[..k]) + [id];
    if id in CallIds(calls[..k]) {
      var j :| 0 <= j < k && CallIds(calls[..k])[j] == id;
      assert CallIds(calls)[j] == CallIds(calls)[k];
    } else if id != [] && calls[k].name != [] {
      var ids := CallIds(calls[..k]);
      assert Distinct(ids + [id]);
      assert calls[..k + 1] == calls[..k] + [calls[k]];
    } else {
      assert !Named(calls);
    }
  }

  /** The ids of the calls, unless one is empty or taken or a name is missing. */
  method Wanted(calls: seq<ToolCall>) returns (ok: bool, want: set<Text>)
    ensures ok <==> Named(calls)
    ensures ok ==> multiset(want) == multiset(CallIds(calls))
  {
    want := {};
    for k := 0 to |calls|
      invariant Named(calls[..k])
      invariant multiset(want) == multiset(CallIds(calls[..k]))
    {
      var id := calls[k].id;
      assert id in want <==> id in multiset(CallIds(calls[..k]));
      NamedGrows(calls, k);
      hide Named, CallIds;
      if id == [] || calls[k].name == [] || id in want {
        return false, {};
      }
      want := want + {id};
    }
    assert calls[..|calls|] == calls;
    ok := true;
  }

  /** A result with an id that no call is left for. */
  lemma MoreThanAsked(got: seq<ToolResult>, k: nat, id: Text, all: multiset<Text>)
    requires k < |got| && got[k].callId == id && multiset(ResultIds(got[..k]))[id] >= all[id]
    ensures multiset(ResultIds(got)) != all
  {
    assert ResultIds(got) == ResultIds(got[..k]) + [id] + ResultIds(got[k + 1..]);
  }

  method ValidateResults(calls: seq<ToolCall>, got: seq<ToolResult>) returns (ok: bool)
    ensures ok <==> Answers(calls, got)
  {
    var named, want := Wanted(calls);
    if !named {
      return false;
    }
    var all := multiset(CallIds(calls));
    if |got| != |want| {
      assert |all| == |want| && |multiset(ResultIds(got))| == |got|;
      return false;
    }
    for k := 0 to |got|
      invariant multiset(ResultIds(got[..k])) + multiset(want) == all
    {
      var id := got[k].callId;
      assert ResultIds(got[..k + 1]) == ResultIds(got[..k]) + [id];
      if id !in want {
        MoreThanAsked(got, k, id, all);
        return false;
      }
      want := want - {id};
    }
    assert got[..|got|] == got;
    assert |multiset(ResultIds(got))| + |want| == |all|;
    ok := true;
  }

  method ValidateConversation(msgs: seq<Message>) returns (ok: bool)
    ensures ok <==> WellFormed(msgs)
  {
    for i := 0 to |msgs|
      invariant forall j: nat | j < i :: GoodAt(msgs, j)
    {
      var m := msgs[i];
      if m.calls != [] && m.role != Assistant {
        assert !GoodAt(msgs, i);
        return false;
      }
      if (m.results != [] || m.role == Tool) && (m.role != Tool || m.results == []) {
        assert !GoodAt(msgs, i);
        return false;
      }
      if m.calls == [] {
        continue;
      }
      if i + 1 >= |msgs| || msgs[i + 1].role != Tool {
        assert !GoodAt(msgs, i);
        return false;
      }
      var answered := ValidateResults(m.calls, msgs[i + 1].results);
      if !answered {
        assert !GoodAt(msgs, i);
        return false;
      }
    }
    ok := true;
  }

  predicate ValidRequest(req: Request) {
    ValidTools(req.tools) && WellFormed(req.messages)
  }

  method CheckToolRequest(req: Request) returns (ok: bool)
    ensures ok <==> ValidRequest(req)
  {
    ok := ValidateTools(req.tools);
    if ok {
      ok := ValidateConversation(req.messages);
    }
  }

  // ----- Conversations that grow -----

  predicate IsPlain(m: Message) {
    m.role != Tool && m.calls == [] && m.results == []
  }

  lemma PlainKeepsWellFormed(msgs: seq<Message>, m: Message)
    requires IsPlain(m)
    ensures WellFormed(msgs + [m]) <==> WellFormed(msgs)
  {
    var all := msgs + [m];
    assert GoodAt(all, |msgs|);
    forall i: nat | i < |msgs| ensures GoodAt(all, i) <==> GoodAt(msgs, i) {
      assert i + 1 < |msgs| ==> all[i + 1] == msgs[i + 1];
    }
  }

  /** A round of calls and results keeps a conversation well formed exactly when its results answer its calls. */
  lemma RoundKeepsWellFormed(msgs: seq<Message>, asst: Message, tool: Message)
    requires asst.role == Assistant && asst.results == [] && asst.calls != [] && tool.role == Tool && tool.calls == []
    ensures WellFormed(msgs + [asst, tool]) <==> WellFormed(msgs) && tool.results != [] && Answers(asst.calls, tool.results)
  {
    var all := msgs + [asst, tool];
    assert all[|msgs|] == asst && all[|msgs| + 1] == tool;
    assert GoodAt(all, |msgs| + 1) <==> tool.results != [];
    assert GoodAt(all, |msgs|) <==> Answers(asst.calls, tool.results);
    forall i: nat | i < |msgs| ensures GoodAt(all, i) <==> GoodAt(msgs, i) {
      assert i + 1 < |msgs| ==> all[i + 1] == msgs[i + 1];
    }
    if WellFormed(all) {
      assert GoodAt(all, |msgs|) && GoodAt(all, |msgs| + 1);
    }
    if WellFormed(msgs) && tool.results != [] && Answers(asst.calls, tool.results) {
      forall i: nat | i < |all| ensures GoodAt(all, i) {
        assert i < |msgs| || i == |msgs| || i == |msgs| + 1;
      }
    }
  }

  /** Results in the order of their calls answer them exactly when the calls are properly named. */
  lemma InOrderAnswers(calls: seq<ToolCall>, results: seq<ToolResult>)
    requires ResultIds(results) == CallIds(calls)
    ensures Answers(calls, results) <==> Named(calls)
  {}

  /** Results that no call asked for are let through, if they come in a message of their own. */
  lemma OrphanResultsPass(msgs: seq<Message>, r: ToolResult)
    requires WellFormed(msgs)
    ensures WellFormed(msgs + [Message(Tool, [], [], [r])])
  {
    var all := msgs + [Message(Tool, [], [], [r])];
    forall i: nat | i < |all| ensures GoodAt(all, i) {
      if i < |msgs| {
        assert GoodAt(msgs, i);
      }
    }
  }

  /** The result answers a call of the message right before its own. */
  predicate IsAsked(msgs: seq<Message>, i: nat, j: nat)
    requires i < |msgs| && j < |msgs[i].results|
  {
    i > 0 && msgs[i].results[j].callId in CallIds(msgs[i - 1].calls)
  }

  predicate FollowsCalls(msgs: seq<Message>, i: nat)
    requires i < |msgs|
  {
    i > 0 && msgs[i - 1].calls != []
  }

  /** In an accepted conversation every result was asked for if and only if every tool message follows calls. */
  lemma ResultsAreAskedExactlyWhen(msgs: seq<Message>)
    requires WellFormed(msgs)
    ensures (forall i: nat, j: nat | i < |msgs| && j < |msgs[i].results| :: IsAsked(msgs, i, j))
       <==> forall i: nat | i < |msgs| && msgs[i].role == Tool :: FollowsCalls(msgs, i)
  {
    forall i: nat | i < |msgs| && msgs[i].role == Tool
      ensures (forall j: nat | j < |msgs[i].results| :: IsAsked(msgs, i, j)) <==> FollowsCalls(msgs, i)
    {
      AskedAt(msgs, i);
    }
    assert forall i: nat | i < |msgs| && msgs[i].role != Tool :: GoodAt(msgs, i) && msgs[i].results == [];
  }

  lemma AskedAt(msgs: seq<Message>, i: nat)
    requires WellFormed(msgs) && i < |msgs| && msgs[i].role == Tool
    ensures (forall j: nat | j < |msgs[i].results| :: IsAsked(msgs, i, j)) <==> FollowsCalls(msgs, i)
  {
    assert GoodAt(msgs, i);
    if FollowsCalls(msgs, i) {
      assert GoodAt(msgs, i - 1);
      var calls, results := msgs[i - 1].calls, msgs[i].results;
      forall j: nat | j < |results| ensures IsAsked(msgs, i, j) {
        assert results[j].callId == ResultIds(results)[j];
        assert ResultIds(results)[j] in multiset(ResultIds(results));
      }
    } else {
      assert !IsAsked(msgs, i, 0);
    }
  }
}
