/** What is true of every run of the tool loop, whatever the provider answers and the tools return. */
module ToolLoopTheorems {
  import opened Basics
  import opened Bits
  import opened Conversation
  import opened Flatten
  import opened Governance
  import opened ToolLoop

  // ----- Every request is accepted -----

  lemma {:induction false} ExchangeIsWellFormed(base: seq<Message>, lim: Limits, rounds: seq<Round>)
    requires RoundsOk(lim, rounds)
    ensures WellFormed(base + Exchange(rounds))
       <==> WellFormed(base) && forall j | 0 <= j < |rounds| :: Named(rounds[j].answer.calls)
  {
    hide WellFormed, Named;
    if rounds == [] {
      assert base + Exchange(rounds) == base;
    } else {
      var before, last := rounds[..|rounds| - 1], rounds[|rounds| - 1];
      assert before + [last] == rounds;
      PrefixIsOk(lim, before, last);
      ExchangeIsWellFormed(base, lim, before);
      assert base + Exchange(rounds) == (base + Exchange(before)) + [Asked(last), Got(last)];
      RoundKeepsWellFormed(base + Exchange(before), Asked(last), Got(last));
      assert ResultsOf(lim, last.answer.calls, last.results);
      assert ResultIds(last.results) == CallIds(last.answer.calls);
      InOrderAnswers(last.answer.calls, last.results);
      forall j | 0 <= j < |before| ensures rounds[j] == before[j] {}
    }
  }

  lemma PrefixIsOk(lim: Limits, before: seq<Round>, last: Round)
    requires RoundsOk(lim, before + [last])
    ensures RoundsOk(lim, before)
  {
    var rounds := before + [last];
    HandledAdds(before, last);
    forall k | 0 <= k < |before|
      ensures before[k].answer.calls != [] && |before[k].answer.calls| <= lim.maxCallsStep
           && ResultsOf(lim, before[k].answer.calls, before[k].results)
    {
      assert rounds[k] == before[k];
    }
  }

  lemma FlattenedIsWellFormed(base: seq<Message>, appended: seq<Message>, compact: Compaction)
    ensures WellFormed(base + Flattened(appended, compact)) <==> WellFormed(base)
  {
    hide WellFormed, FixedText, Lines, AllRecords, CallCount;
    var flat := Flattened(appended, compact);
    if flat == [] {
      assert base + flat == base;
    } else {
      PlainKeepsWellFormed(base, flat[0]);
      PlainKeepsWellFormed(base + [flat[0]], flat[1]);
      assert base + flat == base + [flat[0]] + [flat[1]];
    }
  }

  /**
   A request passes the adapters' check exactly when the conversation did to begin with and, unless it
   is the last one in plain text, the calls answered so far had names and unique ids.
   */
  lemma RequestIsValid(base: seq<Message>, tools: seq<ToolDefinition>, lim: Limits, compact: Compaction, rounds: seq<Round>,
                       requests: seq<Request>, answers: seq<Response>, ending: Ending, handled: nat, k: nat)
    requires IsRun(base, tools, lim, compact, rounds, requests, answers, ending, handled) && k < |requests| && ValidTools(tools)
    ensures ValidRequest(requests[k])
       <==> WellFormed(base) && (k < lim.maxSteps ==> forall j | 0 <= j < k :: Named(rounds[j].answer.calls))
  {
    RequestsAre(base, tools, lim, rounds, |requests|, compact);
    assert requests[k] == NextRequest(base, tools, lim, rounds[..k], compact);
    assert RoundsOk(lim, rounds) && k <= |rounds|;
    hide IsRun, RoundsOk, WellFormed, Named, ValidTools;
    PrefixesAreOk(lim, rounds, k);
    NextIsValid(base, tools, lim, rounds[..k], compact);
    forall j | 0 <= j < k ensures rounds[..k][j] == rounds[j] {}
  }

  /** The request that follows the rounds. */
  lemma NextIsValid(base: seq<Message>, tools: seq<ToolDefinition>, lim: Limits, rounds: seq<Round>, compact: Compaction)
    requires RoundsOk(lim, rounds) && ValidTools(tools)
    ensures ValidRequest(NextRequest(base, tools, lim, rounds, compact))
       <==> WellFormed(base) && (|rounds| < lim.maxSteps ==> forall j | 0 <= j < |rounds| :: Named(rounds[j].answer.calls))
  {
    hide WellFormed, Named, ValidTools, RoundsOk, Exchange, Flattened;
    if |rounds| < lim.maxSteps {
      ExchangeIsWellFormed(base, lim, rounds);
    } else {
      FlattenedIsWellFormed(base, Exchange(rounds), compact);
      NoToolsAreValid();
    }
  }

  lemma NoToolsAreValid()
    ensures ValidTools([])
  {}

  lemma {:induction false} PrefixesAreOk(lim: Limits, rounds: seq<Round>, k: nat)
    requires RoundsOk(lim, rounds) && k <= |rounds|
    ensures RoundsOk(lim, rounds[..k])
    decreases |rounds|
  {
    if k == |rounds| {
      assert rounds[..k] == rounds;
    } else {
      var before, last := rounds[..|rounds| - 1], rounds[|rounds| - 1];
      assert before + [last] == rounds;
      PrefixIsOk(lim, before, last);
      hide RoundsOk;
      PrefixesAreOk(lim, before, k);
      assert before[..k] == rounds[..k];
    }
  }

  // ----- Limits -----

  /** The limits hold, a round over a limit ran nothing, and the run ends as its last answer says. */
  lemma RunIsBounded(base: seq<Message>, tools: seq<ToolDefinition>, lim: Limits, compact: Compaction, rounds: seq<Round>,
                     requests: seq<Request>, answers: seq<Response>, ending: Ending, handled: nat)
    requires IsRun(base, tools, lim, compact, rounds, requests, answers, ending, handled)
    ensures |requests| <= lim.maxSteps + 1
    ensures ending != Cancelled ==> handled == CallsOf(AnswersOf(rounds)) <= lim.maxToolCalls
    ensures ending == LimitReached ==> handled + |answers[|answers| - 1].calls| == CallsOf(answers)
    ensures forall k | 0 <= k < |requests| :: requests[k].tools == if k < lim.maxSteps then tools else []
  {
    hide Flattened, Exchange, UsageOf, HandledOf;
    BoundsOfRounds(lim, rounds);
    RequestsAre(base, tools, lim, rounds, |requests|, compact);
    forall k | 0 <= k < |requests| ensures requests[k].tools == if k < lim.maxSteps then tools else [] {
      assert requests[k] == NextRequest(base, tools, lim, rounds[..k], compact);
      ToolsOfNext(base, tools, lim, rounds[..k], compact);
    }
    hide RoundsOk, Requests, NextRequest;
    if |answers| == |rounds| {
      assert answers[..|rounds|] == answers;
    } else {
      assert answers[..|answers| - 1] == AnswersOf(rounds);
    }
  }

  lemma ToolsOfNext(base: seq<Message>, tools: seq<ToolDefinition>, lim: Limits, rounds: seq<Round>, compact: Compaction)
    ensures NextRequest(base, tools, lim, rounds, compact).tools == if |rounds| < lim.maxSteps then tools else []
  {}

  lemma BoundsOfRounds(lim: Limits, rounds: seq<Round>)
    requires RoundsOk(lim, rounds)
    ensures |rounds| <= lim.maxSteps && CallsOf(AnswersOf(rounds)) <= lim.maxToolCalls
  {}

  // ----- What is sent, and what is reported -----

  lemma {:induction false} ExchangeIs(rounds: seq<Round>, j: nat)
    requires j < |rounds|
    ensures
      var x, msgs := rounds[j], Exchange(rounds);
      && msgs[2 * j] == Message(Assistant, x.answer.text, x.answer.calls, [])
      && msgs[2 * j + 1] == Message(Tool, [], [], x.results)
  {
    if j < |rounds| - 1 {
      ExchangeIs(rounds[..|rounds| - 1], j);
    }
  }

  /**
   The k-th request shows the conversation and then, for every round so far, what the provider asked for
   and the results it got, as they are, with the tools on offer.
   */
  lemma RequestShows(base: seq<Message>, tools: seq<ToolDefinition>, lim: Limits, compact: Compaction, rounds: seq<Round>,
                     requests: seq<Request>, answers: seq<Response>, ending: Ending, handled: nat, k: nat)
    requires IsRun(base, tools, lim, compact, rounds, requests, answers, ending, handled) && k < |requests| && k < lim.maxSteps
    ensures
      var msgs := requests[k].messages;
      && requests[k].tools == tools && k <= |rounds| && |msgs| == |base| + 2 * k && msgs[..|base|] == base
      && (forall j: nat | j < k ::
            && msgs[|base| + 2 * j] == Message(Assistant, answers[j].text, answers[j].calls, [])
            && msgs[|base| + 2 * j + 1] == Message(Tool, [], [], rounds[j].results))
  {
    RequestsAre(base, tools, lim, rounds, |requests|, compact);
    assert requests[k] == NextRequest(base, tools, lim, rounds[..k], compact);
    assert answers[..|rounds|] == AnswersOf(rounds);
    hide IsRun, Requests, Flattened;
    forall j: nat | j < k
      ensures requests[k].messages[|base| + 2 * j] == Message(Assistant, answers[j].text, answers[j].calls, [])
      ensures requests[k].messages[|base| + 2 * j + 1] == Message(Tool, [], [], rounds[j].results)
    {
      ExchangeIs(rounds[..k], j);
      assert AnswersOf(rounds)[j] == rounds[j].answer && answers[..|rounds|][j] == answers[j];
    }
  }

  /** The same call without transport state. */
  predicate IsStripped(c: ToolCall, d: ToolCall) {
    d.id == c.id && d.name == c.name && d.arguments == c.arguments && d.opaq == []
  }

  predicate AllStripped(calls: seq<ToolCall>, out: seq<ToolCall>) {
    |out| == |calls| && forall k | 0 <= k < |calls| :: IsStripped(calls[k], out[k])
  }

  /** The result reports every answer and every round, with nothing taken out but transport state. */
  lemma ResultShows(res: LoopResult, answers: seq<Response>, rounds: seq<Round>)
    requires Reports(res, answers, rounds)
    ensures |res.responses| == |answers| && |res.messages| == 2 * |rounds|
    ensures forall i: nat | i < |answers| ::
      && res.responses[i].text == answers[i].text && res.responses[i].usage == answers[i].usage
      && AllStripped(answers[i].calls, res.responses[i].calls)
    ensures forall j: nat | j < |rounds| ::
      && res.messages[2 * j].role == Assistant && res.messages[2 * j].content == rounds[j].answer.text
      && res.messages[2 * j].results == [] && AllStripped(rounds[j].answer.calls, res.messages[2 * j].calls)
      && res.messages[2 * j + 1] == Message(Tool, [], [], rounds[j].results)
  {
    forall j: nat | j < |rounds|
      ensures res.messages[2 * j].role == Assistant && res.messages[2 * j].content == rounds[j].answer.text
      ensures res.messages[2 * j].results == [] && AllStripped(rounds[j].answer.calls, res.messages[2 * j].calls)
      ensures res.messages[2 * j + 1] == Message(Tool, [], [], rounds[j].results)
    {
      ExchangeIs(CleanRounds(rounds), j);
    }
  }

  lemma LastOfBoth(a: seq<Response>, b: seq<Response>)
    requires b != []
    ensures (a + b)[..|a + b| - 1] == a + b[..|b| - 1] && (a + b)[|a + b| - 1] == b[|b| - 1] && a + b != []
  {}

  lemma {:induction false} UsageAddsUp(a: seq<Response>, b: seq<Response>)
    ensures UsageOf(a + b).input == UsageOf(a).input + UsageOf(b).input
    ensures UsageOf(a + b).output == UsageOf(a).output + UsageOf(b).output
    ensures UsageOf(a + b).total == UsageOf(a).total + UsageOf(b).total
  {
    if b == [] {
      assert a + b == a;
    } else {
      LastOfBoth(a, b);
      UsageAddsUp(a, b[..|b| - 1]);
    }
  }

  lemma {:induction false} CallsAddUp(a: seq<Response>, b: seq<Response>)
    ensures CallsOf(a + b) == CallsOf(a) + CallsOf(b)
  {
    if b == [] {
      assert a + b == a;
    } else {
      LastOfBoth(a, b);
      CallsAddUp(a, b[..|b| - 1]);
    }
  }

  lemma {:induction false} HandledAddsUp(a: seq<Response>, b: seq<Response>)
    ensures HandledOf(a + b) == HandledOf(a) + HandledOf(b)
  {
    hide CleanAll;
    if b == [] {
      assert a + b == a && HandledOf(a) + HandledOf(b) == HandledOf(a);
    } else {
      var before, last := b[..|b| - 1], b[|b| - 1];
      LastOfBoth(a, b);
      HandledAddsUp(a, before);
      assert HandledOf(a + b) == HandledOf(a + before) + CleanAll(last.calls) && HandledOf(b) == HandledOf(before) + CleanAll(last.calls);
    }
  }

  /** Usage and calls add up, answer by answer. */
  lemma TotalsAddUp(a: seq<Response>, b: seq<Response>)
    ensures UsageOf(a + b).input == UsageOf(a).input + UsageOf(b).input
    ensures UsageOf(a + b).output == UsageOf(a).output + UsageOf(b).output
    ensures UsageOf(a + b).total == UsageOf(a).total + UsageOf(b).total
    ensures CallsOf(a + b) == CallsOf(a) + CallsOf(b) && HandledOf(a + b) == HandledOf(a) + HandledOf(b)
  {
    hide UsageOf, CallsOf, HandledOf;
    UsageAddsUp(a, b);
    CallsAddUp(a, b);
    HandledAddsUp(a, b);
  }

  lemma TotalsOfOne(x: Response)
    ensures UsageOf([x]) == x.usage && CallsOf([x]) == |x.calls| && AllStripped(x.calls, HandledOf([x]))
  {
    var none: seq<Response> := [];
    assert [x][..0] == none;
    assert HandledOf([x]) == [] + CleanAll(x.calls);
  }

  // ----- Transport state -----

  /** No transport state leaves the loop in its result. What tools get is in the contract of RunToolLoop. */
  lemma {:induction false} ResultHasNoOpaque(res: LoopResult, answers: seq<Response>, rounds: seq<Round>)
    requires Reports(res, answers, rounds)
    ensures forall k | 0 <= k < |res.responses| :: NoOpaque(res.responses[k].calls)
    ensures forall k | 0 <= k < |res.messages| :: NoOpaque(res.messages[k].calls)
  {
    CleanExchange(CleanRounds(rounds));
  }

  lemma {:induction false} CleanExchange(rounds: seq<Round>)
    requires forall k | 0 <= k < |rounds| :: NoOpaque(rounds[k].answer.calls)
    ensures forall k | 0 <= k < |Exchange(rounds)| :: NoOpaque(Exchange(rounds)[k].calls)
  {
    if rounds != [] {
      CleanExchange(rounds[..|rounds| - 1]);
    }
  }

  /** Nor does any enter the plain text of the last request. */
  lemma {:induction false} FlattenedHasNoOpaque(rounds: seq<Round>, compact: Compaction)
    ensures Flattened(Exchange(rounds), compact) == Flattened(Exchange(CleanRounds(rounds)), compact)
  {
    hide FixedText, Lines;
    SameRecords(rounds, compact);
  }

  lemma {:induction false} SameRecords(rounds: seq<Round>, compact: Compaction)
    ensures AllRecords(Exchange(rounds), compact) == AllRecords(Exchange(CleanRounds(rounds)), compact)
    ensures CallCount(Exchange(rounds)) == CallCount(Exchange(CleanRounds(rounds)))
  {
    hide AllRecords, CallCount, Records, Exchange;
    if rounds == [] {
      assert CleanRounds(rounds) == rounds;
    } else {
      var before, last := rounds[..|rounds| - 1], rounds[|rounds| - 1];
      assert rounds == before + [last];
      SameRecords(before, compact);
      HandledAdds(before, last);
      hide CleanRounds;
      var a, b := Exchange(before), Exchange(CleanRounds(before));
      var asked := Asked(last).(calls := CleanAll(last.answer.calls));
      TwoMore(a, Asked(last), Got(last), compact);
      TwoMore(b, asked, Got(last), compact);
      CleanCallsLookTheSame(Asked(last), asked, CallCount(a), compact);
    }
  }

  lemma TwoMore(msgs: seq<Message>, m: Message, m': Message, compact: Compaction)
    requires m.role == Assistant && m'.role == Tool
    ensures AllRecords(msgs + [m, m'], compact)
         == AllRecords(msgs, compact) + Records(m, CallCount(msgs), compact) + Records(m', CallCount(msgs) + |m.calls|, compact)
    ensures CallCount(msgs + [m, m']) == CallCount(msgs) + |m.calls|
  {
    hide Records, AllRecords, CallCount;
    OneMoreMessage(msgs, m, compact);
    OneMoreMessage(msgs + [m], m', compact);
    assert msgs + [m] + [m'] == msgs + [m, m'];
  }

  lemma OneMoreMessage(msgs: seq<Message>, m: Message, compact: Compaction)
    ensures AllRecords(msgs + [m], compact) == AllRecords(msgs, compact) + Records(m, CallCount(msgs), compact)
    ensures CallCount(msgs + [m]) == CallCount(msgs) + if m.role == Assistant then |m.calls| else 0
  {
    hide Records;
    assert (msgs + [m])[..|msgs|] == msgs;
  }

  lemma CleanCallsLookTheSame(m: Message, m': Message, n: nat, compact: Compaction)
    requires m.role == Assistant && m' == m.(calls := CleanAll(m.calls))
    ensures Records(m, n, compact) == Records(m', n, compact)
  {
    hide JsonText, Decimal, Ascii, Blank;
    forall k | 0 <= k < |m.calls| ensures CallRecord(m.calls[k], n + k + 1, compact) == CallRecord(m'.calls[k], n + k + 1, compact) {
      assert m'.calls[k] == Clean(m.calls[k]);
    }
  }

  // ----- Accounting -----

  /**
   The loop as the application runs it: the calls of a round that was refused are recorded too. Then
   every call that the provider asked for has taken one step of the audit, and left at most one row.
   What tools were handed, and so whatever they saw, carried no transport state; and by what is kept of
   the resolver, only available tools for reading were run, and only after they were requested.
   */
  method CompleteWithTools(p: Provider, base: seq<Message>, r: Resolver, late: Deadline, compact: Compaction)
    returns (answer: Option<Response>, ending: Ending, ghost answered: seq<Response>)
    requires r.Valid() && NoOpaque(r.given)
    modifies p, r
    ensures r.Valid() && NoOpaque(r.given) && NothingUnclean(r.events)
    ensures forall i | 0 <= i < |r.events| :: Fits(r.catalog, r.available, r.handled, r.events[i])
    ensures p.answers == old(p.answers) + answered
    ensures answer.Some? <==> ending == Finished
    ensures answer.Some? ==> answered != [] && answer.value == CleanAnswer(answered[|answered| - 1]) && answer.value.calls == []
    ensures ending != Cancelled ==> r.step == old(r.step) + CallsOf(answered)
    ensures ending == Cancelled ==> r.step <= old(r.step) + CallsOf(answered)
    ensures ending == Cancelled ==> |old(p.requests)| <= |p.requests| && |old(r.given)| <= |r.given|
                                    && late(|p.requests| - |old(p.requests)|, |r.given| - |old(r.given)|)
    ensures ending == ProviderFailed ==> p.requests != [] && p.replies(|p.requests| - 1) == None
    ensures old(r.step) <= r.step && |r.rows| <= |old(r.rows)| + (r.step - old(r.step))
  {
    hide RowsOk, WrittenFirst, BuiltWereRequested, AllFit, OnlyGiven, NothingUnclean;
    hide IsRun, RoundsOk, Reports, CallsOf, CleanAll, HandledOf, AnswersOf, Resolver.Valid, Fits;
    var res;
    ghost var tools, rounds, asked, handed;
    res, ending, tools, rounds, asked, answered, handed := RunToolLoop(p, base, r, Limits(0, 0, 0, 0, 0), late, compact);
    ghost var lim := WithDefaults(Limits(0, 0, 0, 0, 0));
    RunIsAccounted(base, tools, lim, compact, rounds, asked, answered, ending, |handed|, res);
    if ending == Cancelled {
      CancelledIsLate(base, tools, lim, compact, rounds, asked, answered, |handed|, late);
    }
    answer := None;
    if ending == Finished {
      answer := Some(res.responses[|res.responses| - 1]);
    } else if ending == LimitReached {
      r.RecordAborted(res.responses[|res.responses| - 1].calls);
    }
    WhatToolsSaw(r);
  }

  /** A run is cancelled only because the time is up, after the requests it made and the calls it handed on. */
  lemma CancelledIsLate(base: seq<Message>, tools: seq<ToolDefinition>, lim: Limits, compact: Compaction, rounds: seq<Round>,
                        requests: seq<Request>, answers: seq<Response>, handled: nat, late: Deadline)
    requires IsRun(base, tools, lim, compact, rounds, requests, answers, Cancelled, handled)
    requires EndsInTime(late, rounds, |requests|, handled, Cancelled)
    ensures late(|requests|, handled)
  {
    hide RoundsOk, Requests, CallsOf, AnswersOf, OnTime;
    if |requests| == |rounds| {
      assert answers[..|rounds|] == answers;
    }
  }

  /** No call that a tool saw carries transport state. */
  ghost predicate NothingUnclean(events: seq<Event>) {
    forall i | 0 <= i < |events| && (events[i].Proposed? || events[i].Ran?) :: events[i].call.opaq == []
  }

  lemma WhatToolsSaw(r: Resolver)
    requires r.Valid() && NoOpaque(r.given)
    ensures NothingUnclean(r.events)
    ensures forall i | 0 <= i < |r.events| :: Fits(r.catalog, r.available, r.handled, r.events[i])
  {
    forall i | 0 <= i < |r.events| && (r.events[i].Proposed? || r.events[i].Ran?) ensures r.events[i].call.opaq == [] {
      NoWriteIsCarriedOut(r, i);
    }
  }

  lemma RunIsAccounted(base: seq<Message>, tools: seq<ToolDefinition>, lim: Limits, compact: Compaction, rounds: seq<Round>,
                       requests: seq<Request>, answers: seq<Response>, ending: Ending, handled: nat, res: LoopResult)
    requires IsRun(base, tools, lim, compact, rounds, requests, answers, ending, handled) && Reports(res, answers, rounds)
    ensures handled <= CallsOf(answers)
    ensures ending in {Finished, ProviderFailed} ==> handled == CallsOf(answers)
    ensures ending in {Finished, LimitReached} ==>
      answers != [] && res.responses != [] && res.responses[|res.responses| - 1] == CleanAnswer(answers[|answers| - 1])
    ensures ending == Finished ==> res.responses[|res.responses| - 1].calls == []
    ensures ending == LimitReached ==> handled + |res.responses[|res.responses| - 1].calls| == CallsOf(answers)
  {
    RunIsBounded(base, tools, lim, compact, rounds, requests, answers, ending, handled);
    AnswersOfRun(base, tools, lim, compact, rounds, requests, answers, ending, handled);
    hide IsRun, CallsOf, AnswersOf, UsageOf, Exchange, CleanRounds, CleanAnswers, CleanAnswer;
    if answers != [] {
      LastIsClean(answers);
    }
  }

  lemma AnswersOfRun(base: seq<Message>, tools: seq<ToolDefinition>, lim: Limits, compact: Compaction, rounds: seq<Round>,
                     requests: seq<Request>, answers: seq<Response>, ending: Ending, handled: nat)
    requires IsRun(base, tools, lim, compact, rounds, requests, answers, ending, handled)
    ensures handled <= CallsOf(answers) && (ending in {Finished, ProviderFailed} ==> handled == CallsOf(answers))
    ensures ending in {Finished, LimitReached} ==> answers != []
    ensures ending == Finished ==> answers[|answers| - 1].calls == []
  {
    hide RoundsOk, Requests, CallsOf, AnswersOf;
  }

  lemma LastIsClean(answers: seq<Response>)
    requires answers != []
    ensures
      var n := |answers| - 1;
      CleanAnswers(answers)[n] == CleanAnswer(answers[n]) && |CleanAnswer(answers[n]).calls| == |answers[n].calls|
  {}
}
