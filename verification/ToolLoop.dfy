/**
 The loop that asks a provider, hands its calls to the governed tools, and sends the results back,
 within hard limits; against any provider and whatever the tools return.
 */
module ToolLoop {
  import opened Basics
  import opened Bits
  import opened Conversation
  import opened Flatten
  import opened Governance
  import Utf8

  datatype Usage = Usage(input: int, output: int, total: int)

  datatype Response = Response(text: Text, calls: seq<ToolCall>, usage: Usage)

  datatype Limits = Limits(maxSteps: int, maxToolCalls: int, maxCallsStep: int, maxArgsBytes: int, maxResultBytes: int)

  const DEFAULTS := Limits(4, 8, 4, 8192, 8192)

  predicate AllPositive(l: Limits) {
    l.maxSteps > 0 && l.maxToolCalls > 0 && l.maxCallsStep > 0 && l.maxArgsBytes > 0 && l.maxResultBytes > 0
  }

  /** A limit that is set is kept, and one that is not takes its default. */
  predicate Keeps(l: int, standard: int, d: int) {
    (l > 0 ==> d == l) && (l <= 0 ==> d == standard)
  }

  function WithDefaults(l: Limits): (d: Limits)
    ensures AllPositive(d) && (AllPositive(l) <==> d == l)
    ensures Keeps(l.maxSteps, 4, d.maxSteps) && Keeps(l.maxToolCalls, 8, d.maxToolCalls) && Keeps(l.maxCallsStep, 4, d.maxCallsStep)
    ensures Keeps(l.maxArgsBytes, 8192, d.maxArgsBytes) && Keeps(l.maxResultBytes, 8192, d.maxResultBytes)
  {
    Limits(
      if l.maxSteps <= 0 then DEFAULTS.maxSteps else l.maxSteps,
      if l.maxToolCalls <= 0 then DEFAULTS.maxToolCalls else l.maxToolCalls,
      if l.maxCallsStep <= 0 then DEFAULTS.maxCallsStep else l.maxCallsStep,
      if l.maxArgsBytes <= 0 then DEFAULTS.maxArgsBytes else l.maxArgsBytes,
      if l.maxResultBytes <= 0 then DEFAULTS.maxResultBytes else l.maxResultBytes)
  }

  /** A provider answers whatever it likes, or fails; replies says what it does with each request. */
  class Provider {
    const toolCalling: bool
    const replies: nat -> Option<Response>
    var requests: seq<Request>
    var answers: seq<Response>

    constructor (toolCalling: bool, replies: nat -> Option<Response>)
      ensures this.toolCalling == toolCalling && this.replies == replies && requests == [] && answers == []
    {
      this.toolCalling, this.replies, requests, answers := toolCalling, replies, [], [];
    }

    method Complete(req: Request) returns (answer: Option<Response>)
      modifies this
      ensures requests == old(requests) + [req] && answer == replies(|old(requests)|)
      ensures answers == if answer.Some? then old(answers) + [answer.value] else old(answers)
    {
      answer := replies(|requests|);
      requests := requests + [req];
      if answer.Some? {
        answers := answers + [answer.value];
      }
    }
  }

  // ----- What a run is -----

  /** An answer that asked for tools, and the results it got. */
  datatype Round = Round(answer: Response, results: seq<ToolResult>)

  function Asked(r: Round): Message {
    Message(Assistant, r.answer.text, r.answer.calls, [])
  }

  function Got(r: Round): Message {
    Message(Tool, [], [], r.results)
  }

  /** What the rounds add to the conversation. */
  function Exchange(rounds: seq<Round>): (msgs: seq<Message>)
    ensures |msgs| == 2 * |rounds|
  {
    if rounds == [] then []
    else Exchange(rounds[..|rounds| - 1]) + [Asked(rounds[|rounds| - 1]), Got(rounds[|rounds| - 1])]
  }

  function CleanAnswer(r: Response): Response {
    r.(calls := CleanAll(r.calls))
  }

  function CleanRounds(rounds: seq<Round>): (out: seq<Round>)
    ensures |out| == |rounds|
  {
    seq(|rounds|, k requires 0 <= k < |rounds| => rounds[k].(answer := CleanAnswer(rounds[k].answer)))
  }

  function CleanAnswers(answers: seq<Response>): (out: seq<Response>)
    ensures |out| == |answers|
  {
    seq(|answers|, k requires 0 <= k < |answers| => CleanAnswer(answers[k]))
  }

  /** How many calls the answers ask for. */
  function CallsOf(answers: seq<Response>): nat {
    if answers == [] then 0 else CallsOf(answers[..|answers| - 1]) + |answers[|answers| - 1].calls|
  }

  function HandledOf(answers: seq<Response>): (calls: seq<ToolCall>)
    ensures |calls| == CallsOf(answers)
  {
    if answers == [] then [] else HandledOf(answers[..|answers| - 1]) + CleanAll(answers[|answers| - 1].calls)
  }

  function UsageOf(answers: seq<Response>): Usage {
    if answers == [] then Usage(0, 0, 0)
    else
      var u, v := UsageOf(answers[..|answers| - 1]), answers[|answers| - 1].usage;
      Usage(u.input + v.input, u.output + v.output, u.total + v.total)
  }

  function AnswersOf(rounds: seq<Round>): (answers: seq<Response>)
    ensures |answers| == |rounds|
  {
    seq(|rounds|, k requires 0 <= k < |rounds| => rounds[k].answer)
  }

  /** The result of a call is that call's, and no longer than allowed. */
  predicate ResultOf(lim: Limits, c: ToolCall, r: ToolResult) {
    r.callId == c.id && r.name == c.name && (lim.maxResultBytes >= 15 ==> |r.content| <= lim.maxResultBytes)
  }

  /** The tool's result, its content cut to the limit. */
  ghost predicate IsCut(lim: Limits, raw: ToolResult, r: ToolResult) {
    && r.isError == raw.isError
    && if |raw.content| <= lim.maxResultBytes then r.content == raw.content
       else exists cut :: Utf8.IsTruncation(raw.content, lim.maxResultBytes, r.content, cut)
  }

  /** The results are what the tools returned from there on, one by one, each cut to the limit. */
  ghost predicate CutsOf(lim: Limits, returned: seq<ToolResult>, from: nat, results: seq<ToolResult>) {
    from + |results| <= |returned| && forall j | 0 <= j < |results| :: IsCut(lim, returned[from + j], results[j])
  }

  /** Every result of every round is the tool's own, in the order of the calls. */
  ghost predicate FromTools(lim: Limits, returned: seq<ToolResult>, from: nat, rounds: seq<Round>) {
    forall k: nat | k < |rounds| :: CutsOf(lim, returned, from + CallsOf(AnswersOf(rounds[..k])), rounds[k].results)
  }

  predicate AllErrors(results: seq<ToolResult>) {
    forall j | 0 <= j < |results| :: results[j].isError
  }

  /** Without tools there is nothing but errors. */
  predicate OnlyErrors(rounds: seq<Round>) {
    forall k: nat | k < |rounds| :: AllErrors(rounds[k].results)
  }

  predicate ResultsOf(lim: Limits, calls: seq<ToolCall>, results: seq<ToolResult>) {
    |results| == |calls| && forall k | 0 <= k < |calls| :: ResultOf(lim, calls[k], results[k])
  }

  predicate OverLimit(lim: Limits, handled: nat, asked: nat) {
    asked > lim.maxCallsStep || handled + asked > lim.maxToolCalls
  }

  /** Every round asked for something, within the limits, and every call was answered in its place. */
  predicate RoundsOk(lim: Limits, rounds: seq<Round>) {
    && |rounds| <= lim.maxSteps && CallsOf(AnswersOf(rounds)) <= lim.maxToolCalls
    && forall k | 0 <= k < |rounds| ::
         && rounds[k].answer.calls != [] && |rounds[k].answer.calls| <= lim.maxCallsStep
         && ResultsOf(lim, rounds[k].answer.calls, rounds[k].results)
  }

  /** The messages of the last request: what the loop added, as text. */
  function Flattened(appended: seq<Message>, compact: Compaction): seq<Message> {
    if CallCount(appended) == 0 then []
    else [Message(Assistant, FixedText(Assistant) + Lines(AllRecords(appended, compact)), [], []), Message(User, FixedText(User), [], [])]
  }

  /** The request that follows the rounds. */
  function NextRequest(base: seq<Message>, tools: seq<ToolDefinition>, lim: Limits, rounds: seq<Round>, compact: Compaction): Request {
    if |rounds| < lim.maxSteps then Request(base + Exchange(rounds), tools)
    else Request(base + Flattened(Exchange(rounds), compact), [])
  }

  function Requests(base: seq<Message>, tools: seq<ToolDefinition>, lim: Limits, rounds: seq<Round>, n: nat, compact: Compaction): (q: seq<Request>)
    requires n <= |rounds| + 1
    ensures |q| == n
  {
    hide *;
    if n == 0 then []
    else Requests(base, tools, lim, rounds, n - 1, compact) + [NextRequest(base, tools, lim, rounds[..n - 1], compact)]
  }

  lemma {:induction false} RequestsAre(base: seq<Message>, tools: seq<ToolDefinition>, lim: Limits, rounds: seq<Round>, n: nat, compact: Compaction)
    requires n <= |rounds| + 1
    ensures forall k | 0 <= k < n ::
      Requests(base, tools, lim, rounds, n, compact)[k] == NextRequest(base, tools, lim, rounds[..k], compact)
  {
    hide NextRequest;
    if n > 0 {
      RequestsAre(base, tools, lim, rounds, n - 1, compact);
    }
  }

  datatype Ending = Finished | LimitReached | Cancelled | ProviderFailed

  datatype LoopResult = LoopResult(responses: seq<Response>, messages: seq<Message>, toolCalls: nat, usage: Usage)

  /** A run, by its rounds: what was asked, what was answered, and how it ended. */
  ghost predicate IsRun(base: seq<Message>, tools: seq<ToolDefinition>, lim: Limits, compact: Compaction, rounds: seq<Round>,
                        requests: seq<Request>, answers: seq<Response>, ending: Ending, handled: nat)
  {
    && RoundsOk(lim, rounds)
    && |rounds| <= |requests| <= |rounds| + 1
    && requests == Requests(base, tools, lim, rounds, |requests|, compact)
    && |rounds| <= |answers| <= |requests| && answers[..|rounds|] == AnswersOf(rounds)
    && CallsOf(AnswersOf(rounds)) <= handled <= CallsOf(answers)
    && match ending
       case ProviderFailed => |requests| == |rounds| + 1 && |answers| == |rounds| && handled == CallsOf(answers)
       case Cancelled => |answers| == |requests|
       case Finished =>
         |answers| == |requests| == |rounds| + 1 && answers[|rounds|].calls == [] && handled == CallsOf(answers)
       case LimitReached =>
         && |answers| == |requests| == |rounds| + 1 && answers[|rounds|].calls != []
         && (|rounds| == lim.maxSteps || OverLimit(lim, CallsOf(AnswersOf(rounds)), |answers[|rounds|].calls|))
         && handled == CallsOf(AnswersOf(rounds))
  }

  // ----- The time, and the provider -----

  /** Whether the time is up, after so many requests and so many calls. */
  type Deadline = (nat, nat) -> bool

  predicate CallsOnTime(late: Deadline, asked: nat, from: nat, to: nat) {
    forall n: nat | from <= n < to :: !late(asked, n)
  }

  /** The k-th request went out in time, and every call from the one number to the other was handed on in time. */
  predicate RoundOnTime(late: Deadline, k: nat, from: nat, to: nat) {
    !late(k, from) && CallsOnTime(late, k + 1, from, to)
  }

  predicate OnTime(late: Deadline, rounds: seq<Round>) {
    forall k: nat | k < |rounds| ::
      RoundOnTime(late, k, CallsOf(AnswersOf(rounds[..k])), CallsOf(AnswersOf(rounds[..k])) + |rounds[k].answer.calls|)
  }

  /** A run is cancelled at the first request or call for which it is too late, and at no other. */
  predicate EndsInTime(late: Deadline, rounds: seq<Round>, asked: nat, handled: nat, ending: Ending) {
    && OnTime(late, rounds)
    && var from := CallsOf(AnswersOf(rounds));
       if asked == |rounds| then ending == Cancelled && late(asked, from)
       else RoundOnTime(late, |rounds|, from, handled) && (ending == Cancelled ==> late(asked, handled))
  }

  /** The answers are the provider's, to its requests from that number on. */
  predicate AnsweredBy(replies: nat -> Option<Response>, from: nat, answers: seq<Response>) {
    forall k: nat | k < |answers| :: replies(from + k) == Some(answers[k])
  }

  /** And to the last request of a run that the provider ended there was no answer. */
  predicate Replied(replies: nat -> Option<Response>, from: nat, asked: nat, answers: seq<Response>, ending: Ending) {
    AnsweredBy(replies, from, answers) && (ending == ProviderFailed ==> asked > 0 && replies(from + asked - 1) == None)
  }

  lemma OnTimeGrows(late: Deadline, rounds: seq<Round>, x: Round)
    requires OnTime(late, rounds)
    requires RoundOnTime(late, |rounds|, CallsOf(AnswersOf(rounds)), CallsOf(AnswersOf(rounds)) + |x.answer.calls|)
    ensures OnTime(late, rounds + [x])
  {
    hide RoundOnTime, CallsOf, AnswersOf;
    var all := rounds + [x];
    forall k: nat | k < |all|
      ensures RoundOnTime(late, k, CallsOf(AnswersOf(all[..k])), CallsOf(AnswersOf(all[..k])) + |all[k].answer.calls|)
    {
      assert k < |rounds| ==> all[..k] == rounds[..k];
      assert k == |rounds| ==> all[..k] == rounds;
    }
  }

  lemma LastInTime(late: Deadline, replies: nat -> Option<Response>, from: nat, rounds: seq<Round>,
                   before: seq<Response>, answered: seq<Response>, asked: nat, ending: Ending)
    requires OnTime(late, rounds) && AnsweredBy(replies, from, before)
    requires answered == before || (|answered| == |before| + 1 && before <= answered && replies(from + |before|) == Some(answered[|before|]))
    requires ending == Cancelled <==> late(|rounds|, CallsOf(AnswersOf(rounds)))
    requires asked == if ending == Cancelled then |rounds| else |rounds| + 1
    requires ending == ProviderFailed ==> replies(from + |rounds|) == None
    ensures AnsweredBy(replies, from, answered) && Replied(replies, from, asked, answered, ending)
    ensures EndsInTime(late, rounds, asked, CallsOf(AnswersOf(rounds)), ending)
  {
    hide OnTime, CallsOf, AnswersOf;
    forall k: nat | k < |answered| ensures replies(from + k) == Some(answered[k]) {
      assert k < |before| ==> answered[k] == before[k];
    }
  }

  lemma OneMoreAnswer(replies: nat -> Option<Response>, from: nat, before: seq<Response>, resp: Response)
    requires AnsweredBy(replies, from, before) && replies(from + |before|) == Some(resp)
    ensures AnsweredBy(replies, from, before + [resp])
  {
    var all := before + [resp];
    forall k: nat | k < |all| ensures replies(from + k) == Some(all[k]) {
      assert k < |before| ==> all[k] == before[k];
    }
  }

  /** A round whose request went out in time, and of which n calls were handed on in time. */
  lemma RoundInTime(late: Deadline, replies: nat -> Option<Response>, from: nat, answered: seq<Response>, rounds: seq<Round>, n: nat)
    requires OnTime(late, rounds) && AnsweredBy(replies, from, answered)
    requires !late(|rounds|, CallsOf(AnswersOf(rounds)))
    requires CallsOnTime(late, |rounds| + 1, CallsOf(AnswersOf(rounds)), CallsOf(AnswersOf(rounds)) + n)
    ensures RoundOnTime(late, |rounds|, CallsOf(AnswersOf(rounds)), CallsOf(AnswersOf(rounds)) + n)
    ensures late(|rounds| + 1, CallsOf(AnswersOf(rounds)) + n) ==>
      && EndsInTime(late, rounds, |rounds| + 1, CallsOf(AnswersOf(rounds)) + n, Cancelled)
      && Replied(replies, from, |rounds| + 1, answered, Cancelled)
  {
    hide OnTime, CallsOf, AnswersOf, AnsweredBy, CallsOnTime;
  }

  lemma NothingYet(late: Deadline, replies: nat -> Option<Response>, from: nat)
    ensures OnTime(late, []) && AnsweredBy(replies, from, [])
  {}

  // ----- The loop -----

  method RunOne(r: Resolver?, c: ToolCall, lim: Limits) returns (res: ToolResult)
    requires r != null ==> r.Valid()
    modifies if r == null then {} else {r}
    ensures r != null ==> r.Valid() && r.Went([c]) && r.returned[|old(r.returned)|] == res
    ensures r == null || |c.arguments| > lim.maxArgsBytes ==> res.isError
    ensures r != null ==> r.SizesKept(lim.maxArgsBytes)
    ensures r != null && |c.arguments| > lim.maxArgsBytes ==>
      IsRefused(r.world(r.step), r.step, c, if c.name in r.available then ArgsTooLarge else PolicyDenied,
                old(r.events), r.events, old(r.rows), r.rows, res)
    ensures r != null && |c.arguments| <= lim.maxArgsBytes && r.available <= r.catalog.Keys ==>
      IsCarried(r.world(r.step), r.step, c.name in r.available, if c.name in r.available then r.catalog[c.name].risk else ReadOnly,
                r.confirmations, c, old(r.events), r.events, old(r.rows), r.rows, res)
  {
    if r == null {
      return ToolResult([], [], Ascii("error: unknown tool"), true);
    }
    var tool := r.Resolve(c.name);
    if |c.arguments| > lim.maxArgsBytes {
      res := r.Reject(tool, c);
      return;
    }
    res := r.Execute(tool, c);
  }

  /** The calls of one round, in order; each gets one result, unless the time is up first. */
  method RunCalls(r: Resolver?, calls: seq<ToolCall>, lim: Limits, late: Deadline, asked: nat, from: nat)
    returns (ok: bool, out: seq<ToolResult>, ghost n: nat)
    requires r != null ==> r.Valid()
    modifies if r == null then {} else {r}
    ensures n <= |calls| && (ok ==> n == |calls| && ResultsOf(lim, calls, out))
    ensures r != null ==> r.Valid() && r.Went(CleanAll(calls[..n]))
    ensures r != null ==> r.SizesKept(lim.maxArgsBytes)
    ensures r != null && ok ==> CutsOf(lim, r.returned, |old(r.returned)|, out)
    ensures r == null && ok ==> AllErrors(out)
    ensures CallsOnTime(late, asked, from, from + n) && (!ok ==> late(asked, from + n))
  {
    hide Resolver.Valid, CleanAll, Utf8.IsTruncation, Utf8.EndsInMarker, Utf8.Valid, IsCarried, IsRefused;
    out, n := [], 0;
    NothingHanded();
    for k := 0 to |calls|
      invariant n == k && |out| == k && forall j | 0 <= j < k :: ResultOf(lim, calls[j], out[j])
      invariant r != null ==> r.Valid() && r.Went(CleanAll(calls[..k])) && r.SizesKept(lim.maxArgsBytes)
      invariant r != null ==> CutsOf(lim, r.returned, |old(r.returned)|, out)
      invariant r == null ==> AllErrors(out)
      invariant CallsOnTime(late, asked, from, from + k)
    {
      if late(asked, from + k) {
        return false, [], k;
      }
      var c := Clean(calls[k]);
      var res := RunOne(r, c, lim);
      var content := Utf8.TruncateUtf8(res.content, lim.maxResultBytes);
      out := out + [ToolResult(c.id, c.name, content, res.isError)];
      OneMoreClean(calls, k);
      n := k + 1;
    }
    assert calls[..|calls|] == calls;
    ok := true;
  }

  datatype CallOutcome = Answered(answer: Response) | NoAnswer | OutOfTime

  method Call(p: Provider, req: Request, res0: LoopResult, late: Deadline) returns (res: LoopResult, got: CallOutcome)
    modifies p
    ensures got.OutOfTime? <==> late(|res0.responses|, res0.toolCalls)
    ensures got.NoAnswer? ==> p.replies(|old(p.requests)|) == None
    ensures got.Answered? ==> p.replies(|old(p.requests)|) == Some(got.answer)
    ensures got.OutOfTime? ==> p.requests == old(p.requests) && p.answers == old(p.answers) && res == res0
    ensures !got.OutOfTime? ==> p.requests == old(p.requests) + [req]
    ensures got.NoAnswer? ==> p.answers == old(p.answers) && res == res0
    ensures got.Answered? ==>
      && p.answers == old(p.answers) + [got.answer]
      && res == res0.(responses := res0.responses + [CleanAnswer(got.answer)],
                      usage := Usage(res0.usage.input + got.answer.usage.input, res0.usage.output + got.answer.usage.output,
                                     res0.usage.total + got.answer.usage.total))
  {
    res := res0;
    if late(|res.responses|, res.toolCalls) {
      return res, OutOfTime;
    }
    var answer := p.Complete(req);
    if answer.None? {
      return res, NoAnswer;
    }
    var a := answer.value;
    res := res.(responses := res.responses + [CleanAnswer(a)],
                usage := Usage(res.usage.input + a.usage.input, res.usage.output + a.usage.output, res.usage.total + a.usage.total));
    got := Answered(a);
  }

  /** The parts of the result, by the answers and the rounds. */
  predicate Reports(res: LoopResult, answers: seq<Response>, rounds: seq<Round>) {
    && res.responses == CleanAnswers(answers) && res.usage == UsageOf(answers)
    && res.messages == Exchange(CleanRounds(rounds)) && res.toolCalls == CallsOf(AnswersOf(rounds))
  }

  /** What the loop has done when it is about to ask again. */
  ghost predicate SoFar(base: seq<Message>, tools: seq<ToolDefinition>, lim: Limits, compact: Compaction, rounds: seq<Round>,
                        requests: seq<Request>, answers: seq<Response>, res: LoopResult)
  {
    && RoundsOk(lim, rounds) && requests == Requests(base, tools, lim, rounds, |rounds|, compact)
    && answers == AnswersOf(rounds) && Reports(res, answers, rounds)
  }

  /** Runs the calls of an answer and adds them, with their results, to the conversation. */
  method RunRound(r: Resolver?, resp: Response, lim: Limits, late: Deadline, messages0: seq<Message>, res0: LoopResult)
    returns (ok: bool, messages: seq<Message>, res: LoopResult, ghost results: seq<ToolResult>, ghost n: nat)
    requires r != null ==> r.Valid()
    modifies if r == null then {} else {r}
    ensures n <= |resp.calls| && (ok ==> n == |resp.calls| && ResultsOf(lim, resp.calls, results))
    ensures r != null ==> r.Valid() && r.Went(CleanAll(resp.calls[..n]))
    ensures !ok ==> res == res0
    ensures ok ==> messages == messages0 + [Asked(Round(resp, results)), Got(Round(resp, results))]
    ensures ok ==> res == AfterRound(res0, resp, results)
    ensures r != null ==> r.SizesKept(lim.maxArgsBytes)
    ensures r != null && ok ==> CutsOf(lim, r.returned, |old(r.returned)|, results)
    ensures r == null && ok ==> AllErrors(results)
    ensures CallsOnTime(late, |res0.responses|, res0.toolCalls, res0.toolCalls + n)
    ensures !ok ==> late(|res0.responses|, res0.toolCalls + n)
  {
    hide CutsOf, AllErrors;
    var got;
    ok, got, n := RunCalls(r, resp.calls, lim, late, |res0.responses|, res0.toolCalls);
    messages, res, results := messages0, res0, got;
    if ok {
      assert resp.calls[..n] == resp.calls;
      res := res.(toolCalls := res.toolCalls + |resp.calls|);
      var asst := Message(Assistant, resp.text, resp.calls, []);
      var tool := Message(Tool, [], [], got);
      messages := messages + [asst, tool];
      res := res.(messages := res.messages + [asst.(calls := CleanAll(asst.calls)), tool]);
    }
  }

  function AfterRound(res: LoopResult, resp: Response, results: seq<ToolResult>): LoopResult {
    res.(toolCalls := res.toolCalls + |resp.calls|,
         messages := res.messages + [Message(Assistant, resp.text, CleanAll(resp.calls), []), Message(Tool, [], [], results)])
  }

  /** What the provider is offered, if it can call tools at all. */
  function ToolsOf(p: Provider, r: Resolver?): seq<ToolDefinition> {
    if r != null && p.toolCalling && r.available <= r.catalog.Keys then Offered(r.catalog, r.names, r.available) else []
  }

  method RunToolLoop(p: Provider, base: seq<Message>, r: Resolver?, limits: Limits, late: Deadline, compact: Compaction)
    returns (res: LoopResult, ending: Ending, ghost tools: seq<ToolDefinition>, ghost rounds: seq<Round>,
             ghost asked: seq<Request>, ghost answered: seq<Response>, ghost handed: seq<ToolCall>)
    requires r != null ==> r.Valid()
    modifies p, if r == null then {} else {r}
    ensures tools == ToolsOf(p, r)
    ensures p.requests == old(p.requests) + asked && p.answers == old(p.answers) + answered
    ensures IsRun(base, tools, WithDefaults(limits), compact, rounds, asked, answered, ending, |handed|)
    ensures Reports(res, answered, rounds)
    ensures r != null ==> r.Valid() && r.Went(handed)
    ensures NoOpaque(handed) && (ending != Cancelled ==> handed == HandledOf(AnswersOf(rounds)))
    ensures r != null ==> FromTools(WithDefaults(limits), r.returned, |old(r.returned)|, rounds)
    ensures r != null ==> r.SizesKept(WithDefaults(limits).maxArgsBytes)
    ensures r == null ==> OnlyErrors(rounds)
    ensures Replied(p.replies, |old(p.requests)|, |asked|, answered, ending)
    ensures EndsInTime(late, rounds, |asked|, |handed|, ending)
  {
    var lim := WithDefaults(limits);
    assert lim.maxSteps > 0 && lim.maxToolCalls > 0;
    hide *;
    var offered := Offer(p, r);
    tools := offered;
    var messages, end;
    res, messages, end, rounds, asked, answered, handed := RunRounds(p, base, r, lim, late, offered, compact);
    if end.Some? {
      ending := end.value;
      return;
    }
    res, ending, asked, answered := AskWithoutTools(p, base, lim, late, messages, res, tools, compact, rounds,
                                                    old(p.requests), old(p.answers), asked, answered);
  }

  method Offer(p: Provider, r: Resolver?) returns (tools: seq<ToolDefinition>)
    requires r != null ==> r.Valid()
    ensures tools == ToolsOf(p, r)
  {
    tools := [];
    if r != null && p.toolCalling {
      tools := r.Definitions();
    }
  }

  /** Out of steps: one last request, in plain text. */
  method AskWithoutTools(p: Provider, base: seq<Message>, lim: Limits, late: Deadline, messages: seq<Message>, res0: LoopResult,
                         ghost tools: seq<ToolDefinition>, compact: Compaction, ghost rounds: seq<Round>,
                         ghost sent: seq<Request>, ghost got: seq<Response>, ghost asked0: seq<Request>, ghost answered0: seq<Response>)
    returns (res: LoopResult, ending: Ending, ghost asked: seq<Request>, ghost answered: seq<Response>)
    requires SoFar(base, tools, lim, compact, rounds, asked0, answered0, res0) && |rounds| == lim.maxSteps
    requires messages == base + Exchange(rounds)
    requires p.requests == sent + asked0 && p.answers == got + answered0
    requires OnTime(late, rounds) && AnsweredBy(p.replies, |sent|, answered0)
    modifies p
    ensures p.requests == sent + asked && p.answers == got + answered
    ensures IsRun(base, tools, lim, compact, rounds, asked, answered, ending, CallsOf(AnswersOf(rounds))) && Reports(res, answered, rounds)
    ensures Replied(p.replies, |sent|, |asked|, answered, ending)
    ensures EndsInTime(late, rounds, |asked|, CallsOf(AnswersOf(rounds)), ending)
  {
    hide OnTime, AnsweredBy, Replied, EndsInTime;
    hide SoFar, IsRun, Reports, Exchange, CallsOf, AnswersOf, Flattened, FixedText, AllRecords, Lines, CallCount;
    var appended := messages[|base|..];
    assert appended == Exchange(rounds) && messages[..|base|] == base;
    var flat := FlattenToolInteractions(appended, compact);
    FlatIsFlattened(appended, compact, flat);
    var final := Request(messages[..|base|] + flat, []);
    IsNextAtLast(base, tools, lim, rounds, compact, final);
    var resp, end;
    res, resp, end, asked, answered := Ask(p, final, res0, lim, late, true, base, tools, compact, rounds, asked0, answered0);
    LastInTime(late, p.replies, |sent|, rounds, answered0, answered, |asked|, end.value);
    assert asked0 + asked[|asked0|..] == asked && answered0 + answered[|answered0|..] == answered;
    ending := end.value;
  }

  /** The rounds of the loop; without an end, all the steps were used up. */
  method RunRounds(p: Provider, base: seq<Message>, r: Resolver?, lim: Limits, late: Deadline, offered: seq<ToolDefinition>,
                   ghost compact: Compaction)
    returns (res: LoopResult, messages: seq<Message>, end: Option<Ending>, ghost rounds: seq<Round>,
             ghost asked: seq<Request>, ghost answered: seq<Response>, ghost handed: seq<ToolCall>)
    requires r != null ==> r.Valid()
    requires lim.maxSteps > 0 && lim.maxToolCalls > 0
    modifies p, if r == null then {} else {r}
    ensures p.requests == old(p.requests) + asked && p.answers == old(p.answers) + answered
    ensures end.Some? ==> IsRun(base, offered, lim, compact, rounds, asked, answered, end.value, |handed|) && Reports(res, answered, rounds)
    ensures end.None? ==>
      && |rounds| == lim.maxSteps && SoFar(base, offered, lim, compact, rounds, asked, answered, res)
      && messages == base + Exchange(rounds)
    ensures r != null ==> r.Valid() && r.Went(handed)
    ensures NoOpaque(handed) && (end != Some(Cancelled) ==> handed == HandledOf(AnswersOf(rounds)))
    ensures r != null ==> FromTools(lim, r.returned, |old(r.returned)|, rounds) && r.SizesKept(lim.maxArgsBytes)
    ensures r == null ==> OnlyErrors(rounds)
    ensures AnsweredBy(p.replies, |old(p.requests)|, answered)
    ensures end.Some? ==> Replied(p.replies, |old(p.requests)|, |asked|, answered, end.value)
    ensures end.Some? ==> EndsInTime(late, rounds, |asked|, |handed|, end.value)
    ensures end.None? ==> OnTime(late, rounds)
  {
    hide FromTools, OnlyErrors, CutsOf, AllErrors, OnTime, EndsInTime, AnsweredBy, Replied;
    hide SoFar, IsRun, Reports, RoundsOk, ResultsOf, Exchange, HandledOf, CallsOf, AnswersOf, AfterRound, NextRequest, OverLimit;
    hide Resolver.Valid, NoOpaque, CleanAll;
    res := LoopResult([], [], 0, Usage(0, 0, 0));
    rounds, asked, answered, handed := [], [], [], [];
    messages := base;
    end := None;
    var step := 0;
    StartsSoFar(base, offered, lim, compact, res);
    NoRounds(lim, if r == null then [] else r.returned, if r == null then 0 else |r.returned|);
    NothingHanded();
    NothingYet(late, p.replies, |p.requests|);
    while step < lim.maxSteps
      invariant 0 <= step <= lim.maxSteps && step == |rounds| && end == None
      invariant p.requests == old(p.requests) + asked && p.answers == old(p.answers) + answered
      invariant SoFar(base, offered, lim, compact, rounds, asked, answered, res)
      invariant messages == base + Exchange(rounds)
      invariant handed == HandledOf(AnswersOf(rounds)) && NoOpaque(handed)
      invariant r != null ==> r.Valid() && r.Went(handed) && FromTools(lim, r.returned, |old(r.returned)|, rounds)
      invariant r != null ==> r.SizesKept(lim.maxArgsBytes)
      invariant r == null ==> OnlyErrors(rounds)
      invariant OnTime(late, rounds) && AnsweredBy(p.replies, |old(p.requests)|, answered)
    {
      ghost var more, done := [], rounds;
      ghost var before := if r == null then [] else r.returned;
      res, messages, end, rounds, asked, answered, more := RunStep(p, base, r, lim, late, offered, compact, |old(p.requests)|, messages, res,
                                                                     rounds, asked, answered);
      if r != null {
        ReturnedLater(lim, before, r.returned, |old(r.returned)|, done);
      }
      CleanAllAdds(handed, more);
      handed := handed + more;
      if end.Some? {
        return;
      }
      if r == null {
        ErrorsGrow(done, rounds);
      } else {
        assert |before| == |old(r.returned)| + CallsOf(AnswersOf(done));
        ToolsGrow(lim, r.returned, |old(r.returned)|, done, rounds);
      }
      step := step + 1;
    }
  }

  /** One turn of the loop: the provider is asked, and the calls it asks for are run. */
  method RunStep(p: Provider, base: seq<Message>, r: Resolver?, lim: Limits, late: Deadline, offered: seq<ToolDefinition>,
                 ghost compact: Compaction, ghost from: nat, messages0: seq<Message>, res0: LoopResult,
                 ghost rounds0: seq<Round>, ghost asked0: seq<Request>, ghost answered0: seq<Response>)
    returns (res: LoopResult, messages: seq<Message>, end: Option<Ending>, ghost rounds: seq<Round>,
             ghost asked: seq<Request>, ghost answered: seq<Response>, ghost more: seq<ToolCall>)
    requires r != null ==> r.Valid()
    requires SoFar(base, offered, lim, compact, rounds0, asked0, answered0, res0) && |rounds0| < lim.maxSteps
    requires messages0 == base + Exchange(rounds0)
    requires OnTime(late, rounds0) && AnsweredBy(p.replies, from, answered0) && |p.requests| == from + |asked0|
    modifies p, if r == null then {} else {r}
    ensures asked0 <= asked && answered0 <= answered
    ensures p.requests == old(p.requests) + asked[|asked0|..] && p.answers == old(p.answers) + answered[|answered0|..]
    ensures end.Some? ==>
      && rounds == rounds0 && Reports(res, answered, rounds)
      && IsRun(base, offered, lim, compact, rounds, asked, answered, end.value, CallsOf(AnswersOf(rounds)) + |more|)
    ensures end.None? ==>
      && |rounds| == |rounds0| + 1 && SoFar(base, offered, lim, compact, rounds, asked, answered, res)
      && messages == base + Exchange(rounds) && HandledOf(AnswersOf(rounds)) == HandledOf(AnswersOf(rounds0)) + more
    ensures r != null ==> r.Valid() && r.Went(more)
    ensures NoOpaque(more) && (end.Some? && end != Some(Cancelled) ==> more == [])
    ensures end.None? ==> rounds0 < rounds
    ensures r != null ==> r.SizesKept(lim.maxArgsBytes)
    ensures r != null && end.None? ==> CutsOf(lim, r.returned, |old(r.returned)|, rounds[|rounds0|].results)
    ensures r == null && end.None? ==> AllErrors(rounds[|rounds0|].results)
    ensures AnsweredBy(p.replies, from, answered)
    ensures end.Some? ==> Replied(p.replies, from, |asked|, answered, end.value)
    ensures end.Some? ==> EndsInTime(late, rounds, |asked|, CallsOf(AnswersOf(rounds)) + |more|, end.value)
    ensures end.None? ==> OnTime(late, rounds)
  {
    hide CutsOf, AllErrors, OnTime, EndsInTime, AnsweredBy, Replied, RoundOnTime, CallsOnTime;
    hide SoFar, IsRun, Reports, RoundsOk, ResultsOf, Exchange, HandledOf, CallsOf, AnswersOf, AfterRound, NextRequest, OverLimit;
    hide Resolver.Valid, NoOpaque, CleanAll;
    messages, rounds, more := messages0, rounds0, [];
    NothingHanded();
    var req := Request(messages, offered);
    IsNext(base, offered, lim, rounds, compact, req);
    var resp;
    res, resp, end, asked, answered := Ask(p, req, res0, lim, late, false, base, offered, compact, rounds, asked0, answered0);
    if end.Some? {
      LastInTime(late, p.replies, from, rounds, answered0, answered, |asked|, end.value);
      return;
    }
    OneMoreAnswer(p.replies, from, answered0, resp);
    var ok, messages', res', results, n := RunRound(r, resp, lim, late, messages, res);
    RoundInTime(late, p.replies, from, answered, rounds, n);
    more := CleanAll(resp.calls[..n]);
    CleanIsClean(resp.calls[..n]);
    if !ok {
      DiedInRound(base, offered, lim, compact, rounds, asked0, answered0, res0, resp, CallsOf(AnswersOf(rounds)) + n);
      end := Some(Cancelled);
      return;
    }
    assert resp.calls[..n] == resp.calls;
    RoundIsAdded(base, offered, lim, compact, rounds, asked0, answered0, res0, resp, results, res);
    HandledAdds(rounds, Round(resp, results));
    OnTimeGrows(late, rounds, Round(resp, results));
    messages, res, rounds := messages', res', rounds + [Round(resp, results)];
  }

  lemma IsNext(base: seq<Message>, tools: seq<ToolDefinition>, lim: Limits, rounds: seq<Round>, compact: Compaction, req: Request)
    requires |rounds| < lim.maxSteps && req == Request(base + Exchange(rounds), tools)
    ensures req == NextRequest(base, tools, lim, rounds, compact)
  {}

  lemma IsNextAtLast(base: seq<Message>, tools: seq<ToolDefinition>, lim: Limits, rounds: seq<Round>, compact: Compaction, req: Request)
    requires |rounds| >= lim.maxSteps && req == Request(base + Flattened(Exchange(rounds), compact), [])
    ensures req == NextRequest(base, tools, lim, rounds, compact)
  {}

  /** Asks once more, and says whether and how that ends the loop. */
  method Ask(p: Provider, req: Request, res0: LoopResult, lim: Limits, late: Deadline, last: bool, ghost base: seq<Message>,
             ghost tools: seq<ToolDefinition>, ghost compact: Compaction, ghost rounds: seq<Round>,
             ghost asked0: seq<Request>, ghost answered0: seq<Response>)
    returns (res: LoopResult, resp: Response, end: Option<Ending>, ghost asked: seq<Request>, ghost answered: seq<Response>)
    requires SoFar(base, tools, lim, compact, rounds, asked0, answered0, res0)
    requires req == NextRequest(base, tools, lim, rounds, compact) && (last <==> |rounds| == lim.maxSteps)
    modifies p
    ensures asked0 <= asked && answered0 <= answered
    ensures p.requests == old(p.requests) + asked[|asked0|..] && p.answers == old(p.answers) + answered[|answered0|..]
    ensures end.Some? ==> IsRun(base, tools, lim, compact, rounds, asked, answered, end.value, CallsOf(AnswersOf(rounds)))
    ensures Reports(res, answered, rounds)
    ensures end.None? ==>
      && !last && asked == asked0 + [req] && answered == answered0 + [resp] && res.toolCalls == res0.toolCalls
      && resp.calls != [] && !OverLimit(lim, res0.toolCalls, |resp.calls|)
    ensures end == Some(Cancelled) <==> late(|rounds|, CallsOf(AnswersOf(rounds)))
    ensures asked == if end == Some(Cancelled) then asked0 else asked0 + [req]
    ensures end in {Some(Cancelled), Some(ProviderFailed)} ==> answered == answered0
    ensures end !in {Some(Cancelled), Some(ProviderFailed)} ==> answered == answered0 + [resp] && p.replies(|old(p.requests)|) == Some(resp)
    ensures end == Some(ProviderFailed) ==> p.replies(|old(p.requests)|) == None
    ensures |asked0| == |answered0| == |rounds| && |res0.responses| == |rounds| && res0.toolCalls == CallsOf(AnswersOf(rounds))
    ensures end.None? ==> |res.responses| == |rounds| + 1
  {
    hide SoFar, IsRun, Reports, NextRequest, OverLimit, CallsOf, AnswersOf;
    asked, answered := asked0, answered0;
    var got;
    ToolCallsCounted(base, tools, lim, compact, rounds, asked, answered, res0);
    res, got := Call(p, req, res0, late);
    if !got.Answered? {
      resp := Response([], [], Usage(0, 0, 0));
      Unanswered(base, tools, lim, compact, rounds, asked, answered, res, got.OutOfTime?);
      asked := if got.OutOfTime? then asked else asked + [req];
      end := Some(if got.OutOfTime? then Cancelled else ProviderFailed);
      return;
    }
    resp := got.answer;
    AnswerIsReported(base, tools, lim, compact, rounds, asked, answered, res0, resp, res);
    LastAnswer(base, tools, lim, compact, rounds, asked, answered, res0, resp);
    asked, answered := asked + [req], answered + [resp];
    if |resp.calls| == 0 {
      end := Some(Finished);
    } else if last || OverLimit(lim, res.toolCalls, |resp.calls|) {
      end := Some(LimitReached);
    } else {
      end := None;
    }
  }

  // ----- The loop's steps, on values -----

  lemma NoRounds(lim: Limits, returned: seq<ToolResult>, from: nat)
    ensures FromTools(lim, returned, from, []) && OnlyErrors([])
  {}

  lemma ReturnedLater(lim: Limits, before: seq<ToolResult>, after: seq<ToolResult>, from: nat, rounds: seq<Round>)
    requires FromTools(lim, before, from, rounds) && before <= after
    ensures FromTools(lim, after, from, rounds)
  {
    hide IsCut, CallsOf, AnswersOf;
    forall k: nat | k < |rounds| ensures CutsOf(lim, after, from + CallsOf(AnswersOf(rounds[..k])), rounds[k].results) {
      assert CutsOf(lim, before, from + CallsOf(AnswersOf(rounds[..k])), rounds[k].results);
    }
  }

  lemma ToolsGrow(lim: Limits, returned: seq<ToolResult>, from: nat, done: seq<Round>, rounds: seq<Round>)
    requires FromTools(lim, returned, from, done) && done < rounds && |rounds| == |done| + 1
    requires CutsOf(lim, returned, from + CallsOf(AnswersOf(done)), rounds[|done|].results)
    ensures FromTools(lim, returned, from, rounds)
  {
    hide CutsOf, CallsOf, AnswersOf;
    forall k: nat | k < |rounds| ensures CutsOf(lim, returned, from + CallsOf(AnswersOf(rounds[..k])), rounds[k].results) {
      if k < |done| {
        assert rounds[..k] == done[..k] && rounds[k] == done[k];
        assert CutsOf(lim, returned, from + CallsOf(AnswersOf(done[..k])), done[k].results);
      } else {
        assert rounds[..k] == done;
      }
    }
  }

  lemma ErrorsGrow(done: seq<Round>, rounds: seq<Round>)
    requires OnlyErrors(done) && done < rounds && |rounds| == |done| + 1 && AllErrors(rounds[|done|].results)
    ensures OnlyErrors(rounds)
  {
    hide AllErrors;
  }

  lemma NothingHanded()
    ensures CleanAll([]) == [] && NoOpaque([])
  {}

  lemma OneMoreClean(calls: seq<ToolCall>, k: nat)
    requires k < |calls|
    ensures
      var c := Clean(calls[k]);
      && CleanAll(calls[..k + 1]) == CleanAll(calls[..k]) + [c] && CleanAll([c]) == [Clean(c)]
      && CleanAll(CleanAll(calls[..k]) + [c]) == CleanAll(CleanAll(calls[..k])) + [Clean(c)]
  {}

  lemma CleanIsClean(calls: seq<ToolCall>)
    ensures NoOpaque(CleanAll(calls))
  {}

  lemma CleanAllAdds(a: seq<ToolCall>, b: seq<ToolCall>)
    requires NoOpaque(a) && NoOpaque(b)
    ensures CleanAll(a + b) == CleanAll(a) + CleanAll(b) && NoOpaque(a + b)
  {}

  lemma FlatIsFlattened(appended: seq<Message>, compact: Compaction, flat: seq<Message>)
    requires CallCount(appended) == 0 ==> flat == []
    requires CallCount(appended) > 0 ==>
      flat == [Message(Assistant, FixedText(Assistant) + Lines(AllRecords(appended, compact)), [], []), Message(User, FixedText(User), [], [])]
    ensures flat == Flattened(appended, compact)
  {
    hide FixedText, AllRecords, Lines;
  }

  lemma CallsAdd(answers: seq<Response>, a: Response)
    ensures CallsOf(answers + [a]) == CallsOf(answers) + |a.calls|
    ensures UsageOf(answers + [a]).input == UsageOf(answers).input + a.usage.input
    ensures UsageOf(answers + [a]).output == UsageOf(answers).output + a.usage.output
    ensures UsageOf(answers + [a]).total == UsageOf(answers).total + a.usage.total
  {
    assert (answers + [a])[..|answers|] == answers;
  }

  lemma HandledAdds(rounds: seq<Round>, x: Round)
    ensures AnswersOf(rounds + [x]) == AnswersOf(rounds) + [x.answer]
    ensures CallsOf(AnswersOf(rounds + [x])) == CallsOf(AnswersOf(rounds)) + |x.answer.calls|
    ensures HandledOf(AnswersOf(rounds + [x])) == HandledOf(AnswersOf(rounds)) + CleanAll(x.answer.calls)
    ensures Exchange(rounds + [x]) == Exchange(rounds) + [Asked(x), Got(x)]
    ensures Exchange(CleanRounds(rounds + [x]))
         == Exchange(CleanRounds(rounds)) + [Asked(x).(calls := CleanAll(x.answer.calls)), Got(x)]
  {
    assert (rounds + [x])[..|rounds|] == rounds;
    assert AnswersOf(rounds + [x]) == AnswersOf(rounds) + [x.answer];
    assert (AnswersOf(rounds) + [x.answer])[..|rounds|] == AnswersOf(rounds);
    assert CleanRounds(rounds + [x])[..|rounds|] == CleanRounds(rounds);
  }

  lemma StartsSoFar(base: seq<Message>, tools: seq<ToolDefinition>, lim: Limits, compact: Compaction, res: LoopResult)
    requires res == LoopResult([], [], 0, Usage(0, 0, 0)) && lim.maxSteps > 0 && lim.maxToolCalls > 0
    ensures SoFar(base, tools, lim, compact, [], [], [], res)
    ensures Exchange([]) == [] && CallsOf(AnswersOf([])) == 0 && HandledOf(AnswersOf([])) == []
  {
    hide NextRequest, Flattened, CleanAnswer, CleanAll, ResultsOf, Asked, Got;
    NoAnswers();
    assert CleanAnswers([]) == [] && CleanRounds([]) == [] && Requests(base, tools, lim, [], 0, compact) == [];
  }

  lemma NoAnswers()
    ensures AnswersOf([]) == [] && CallsOf([]) == 0 && HandledOf([]) == [] && UsageOf([]) == Usage(0, 0, 0) && Exchange([]) == []
  {}

  lemma ToolCallsCounted(base: seq<Message>, tools: seq<ToolDefinition>, lim: Limits, compact: Compaction, rounds: seq<Round>,
                         q: seq<Request>, a: seq<Response>, res: LoopResult)
    requires SoFar(base, tools, lim, compact, rounds, q, a, res)
    ensures res.toolCalls == CallsOf(AnswersOf(rounds)) == CallsOf(a) && |q| == |a| == |rounds| == |res.responses|
  {}

  lemma RequestsGrow(base: seq<Message>, tools: seq<ToolDefinition>, lim: Limits, rounds: seq<Round>, compact: Compaction, x: Round)
    ensures Requests(base, tools, lim, rounds, |rounds|, compact) + [NextRequest(base, tools, lim, rounds, compact)]
         == Requests(base, tools, lim, rounds, |rounds| + 1, compact)
         == Requests(base, tools, lim, rounds + [x], |rounds| + 1, compact)
  {
    hide NextRequest;
    assert rounds[..|rounds|] == rounds;
    SameRequests(base, tools, lim, rounds, rounds + [x], |rounds| + 1, compact);
  }

  lemma {:induction false} SameRequests(base: seq<Message>, tools: seq<ToolDefinition>, lim: Limits, rounds: seq<Round>, more: seq<Round>,
                                        n: nat, compact: Compaction)
    requires rounds <= more && n <= |rounds| + 1
    ensures Requests(base, tools, lim, rounds, n, compact) == Requests(base, tools, lim, more, n, compact)
  {
    hide NextRequest;
    if n > 0 {
      SameRequests(base, tools, lim, rounds, more, n - 1, compact);
      assert more[..n - 1] == rounds[..n - 1];
    }
  }

  lemma Unanswered(base: seq<Message>, tools: seq<ToolDefinition>, lim: Limits, compact: Compaction, rounds: seq<Round>,
                   q: seq<Request>, a: seq<Response>, res: LoopResult, outOfTime: bool)
    requires SoFar(base, tools, lim, compact, rounds, q, a, res)
    ensures outOfTime ==> IsRun(base, tools, lim, compact, rounds, q, a, Cancelled, CallsOf(AnswersOf(rounds)))
    ensures !outOfTime ==>
      IsRun(base, tools, lim, compact, rounds, q + [NextRequest(base, tools, lim, rounds, compact)], a, ProviderFailed, CallsOf(AnswersOf(rounds)))
    ensures Reports(res, a, rounds)
  {
    hide NextRequest, RoundsOk, Reports;
    RequestsGrow(base, tools, lim, rounds, compact, Round(Response([], [], Usage(0, 0, 0)), []));
    assert a[..|rounds|] == a;
  }

  lemma AnswerIsReported(base: seq<Message>, tools: seq<ToolDefinition>, lim: Limits, compact: Compaction, rounds: seq<Round>,
                         q: seq<Request>, a: seq<Response>, res0: LoopResult, resp: Response, res: LoopResult)
    requires SoFar(base, tools, lim, compact, rounds, q, a, res0)
    requires res == res0.(responses := res0.responses + [CleanAnswer(resp)],
                          usage := Usage(res0.usage.input + resp.usage.input, res0.usage.output + resp.usage.output,
                                         res0.usage.total + resp.usage.total))
    ensures Reports(res, a + [resp], rounds) && res.toolCalls == res0.toolCalls
  {
    hide RoundsOk, Requests, NextRequest, Exchange, CleanRounds, AnswersOf, CallsOf, CleanAnswer, UsageOf, Flattened, FixedText;
    CallsAdd(a, resp);
    assert CleanAnswers(a + [resp]) == CleanAnswers(a) + [CleanAnswer(resp)];
  }

  lemma LastAnswer(base: seq<Message>, tools: seq<ToolDefinition>, lim: Limits, compact: Compaction, rounds: seq<Round>,
                   q: seq<Request>, a: seq<Response>, res0: LoopResult, resp: Response)
    requires SoFar(base, tools, lim, compact, rounds, q, a, res0)
    ensures resp.calls == [] ==>
      IsRun(base, tools, lim, compact, rounds, q + [NextRequest(base, tools, lim, rounds, compact)], a + [resp], Finished, CallsOf(AnswersOf(rounds)))
    ensures resp.calls != [] && (|rounds| == lim.maxSteps || OverLimit(lim, CallsOf(AnswersOf(rounds)), |resp.calls|)) ==>
      IsRun(base, tools, lim, compact, rounds, q + [NextRequest(base, tools, lim, rounds, compact)], a + [resp], LimitReached, CallsOf(AnswersOf(rounds)))
  {
    hide NextRequest, RoundsOk, Reports, OverLimit;
    RequestsGrow(base, tools, lim, rounds, compact, Round(resp, []));
    CallsAdd(a, resp);
    assert (a + [resp])[..|rounds|] == a;
  }

  lemma DiedInRound(base: seq<Message>, tools: seq<ToolDefinition>, lim: Limits, compact: Compaction, rounds: seq<Round>,
                    q: seq<Request>, a: seq<Response>, res0: LoopResult, resp: Response, handled: nat)
    requires SoFar(base, tools, lim, compact, rounds, q, a, res0)
    requires CallsOf(AnswersOf(rounds)) <= handled <= CallsOf(AnswersOf(rounds)) + |resp.calls|
    ensures IsRun(base, tools, lim, compact, rounds, q + [NextRequest(base, tools, lim, rounds, compact)], a + [resp], Cancelled, handled)
  {
    hide NextRequest, RoundsOk, Reports;
    RequestsGrow(base, tools, lim, rounds, compact, Round(resp, []));
    CallsAdd(a, resp);
    assert (a + [resp])[..|rounds|] == a;
  }

  lemma RoundIsAdded(base: seq<Message>, tools: seq<ToolDefinition>, lim: Limits, compact: Compaction, rounds: seq<Round>,
                     q: seq<Request>, a: seq<Response>, res0: LoopResult, resp: Response, results: seq<ToolResult>, res: LoopResult)
    requires SoFar(base, tools, lim, compact, rounds, q, a, res0) && |rounds| < lim.maxSteps
    requires resp.calls != [] && !OverLimit(lim, res0.toolCalls, |resp.calls|) && ResultsOf(lim, resp.calls, results)
    requires Reports(res, a + [resp], rounds) && res.toolCalls == res0.toolCalls
    ensures SoFar(base, tools, lim, compact, rounds + [Round(resp, results)], q + [NextRequest(base, tools, lim, rounds, compact)],
                  a + [resp], AfterRound(res, resp, results))
  {
    hide NextRequest, ResultsOf, Exchange;
    RequestsGrow(base, tools, lim, rounds, compact, Round(resp, results));
    HandledAdds(rounds, Round(resp, results));
  }
}
