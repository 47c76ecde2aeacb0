/**
 The governed resolver of one run: what the model asks for is decided by policy, written to the
 audit before anything of a tool is built, and a write tool only proposes.
 */
module Governance {
  import opened Basics
  import opened Conversation
  import Flatten

  datatype Risk = ReadOnly | Write

  datatype Reason = PolicyDenied | NoConfirmations | ArgsTooLarge | AuditUnavailable | LoopLimit

  datatype Status = Requested | Executed | Failed | Denied(reason: Reason)

  /** A row of the audit. */
  datatype Entry = Entry(step: nat, call: ToolCall, status: Status)

  /**
   What happened, in order; it is not stored. A tool is built by the factory for reading or by the one for
   writing, and asked for a proposal or run with a call as it was handed on. The answer is what it comes
   back with; a tool that fails has none.
   */
  datatype Event =
    | Wrote(step: nat)
    | Built(step: nat, factory: Risk)
    | Proposed(step: nat, call: ToolCall, answer: Option<ToolResult>)
    | Ran(step: nat, call: ToolCall, answer: Option<ToolResult>)

  /**
   What the audit and the tool do for one step: whether a request, a denial and an outcome can be written,
   whether the factory builds the tool, and what that comes back with.
   */
  datatype World = World(requests: bool, denials: bool, outcomes: bool, builds: bool, answer: Option<ToolResult>)

  datatype Spec = Spec(risk: Risk, definition: ToolDefinition)

  datatype Resolved = DeniedTool | GovernedTool(risk: Risk)

  function Clean(c: ToolCall): ToolCall {
    c.(opaq := [])
  }

  function CleanAll(calls: seq<ToolCall>): (out: seq<ToolCall>)
    ensures |out| == |calls| && forall k | 0 <= k < |calls| :: out[k] == Clean(calls[k])
  {
    seq(|calls|, k requires 0 <= k < |calls| => Clean(calls[k]))
  }

  predicate NoOpaque(calls: seq<ToolCall>) {
    forall k | 0 <= k < |calls| :: calls[k].opaq == []
  }

  /** Nothing of a tool is built or run but after the row that says it was requested. */
  ghost predicate WrittenFirst(events: seq<Event>) {
    forall i | 0 <= i < |events| && !events[i].Wrote? :: Wrote(events[i].step) in events[..i]
  }

  /** The step went to a call of an available tool, which is of that risk in the catalog. */
  predicate IsFor(catalog: map<Text, Spec>, available: set<Text>, handled: seq<ToolCall>, step: nat, risk: Risk) {
    && 1 <= step <= |handled| && handled[step - 1].name in available
    && handled[step - 1].name in catalog && catalog[handled[step - 1].name].risk == risk
  }

  /** Only a tool for reading is run, and only one for writing asked for a proposal, each with the call of its step. */
  predicate Fits(catalog: map<Text, Spec>, available: set<Text>, handled: seq<ToolCall>, e: Event) {
    match e
    case Wrote(_) => true
    case Built(step, factory) => IsFor(catalog, available, handled, step, factory)
    case Proposed(step, call, _) => IsFor(catalog, available, handled, step, Write) && handled[step - 1] == Clean(call)
    case Ran(step, call, _) => IsFor(catalog, available, handled, step, ReadOnly) && handled[step - 1] == Clean(call)
  }

  predicate AllFit(catalog: map<Text, Spec>, available: set<Text>, handled: seq<ToolCall>, events: seq<Event>) {
    forall i | 0 <= i < |events| :: Fits(catalog, available, handled, events[i])
  }

  /** A tool sees no call but those that the loop handed on. */
  predicate OnlyGiven(given: seq<ToolCall>, events: seq<Event>) {
    forall i | 0 <= i < |events| && (events[i].Proposed? || events[i].Ran?) :: events[i].call in given
  }

  /** Every row has a step of its own, taken by the call it is about, of which no transport state is kept. */
  predicate RowsOk(rows: seq<Entry>, handled: seq<ToolCall>) {
    && (forall k | 0 <= k < |rows| ::
          && 1 <= rows[k].step <= |handled| && rows[k].call == handled[rows[k].step - 1] && rows[k].call.opaq == [])
    && forall j, k | 0 <= j < k < |rows| :: rows[j].step != rows[k].step
  }

  /** The step has a row that was not a denial. */
  ghost predicate WasRequested(rows: seq<Entry>, step: nat) {
    exists k | 0 <= k < |rows| :: rows[k].step == step && !rows[k].status.Denied?
  }

  /** Built tools were requested. */
  ghost predicate BuiltWereRequested(rows: seq<Entry>, events: seq<Event>) {
    forall i | 0 <= i < |events| :: WasRequested(rows, events[i].step)
  }

  lemma EventKeeps(events: seq<Event>, e: Event)
    requires WrittenFirst(events) && (e.Wrote? || Wrote(e.step) in events)
    ensures WrittenFirst(events + [e])
  {
    var all := events + [e];
    forall i | 0 <= i < |all| && !all[i].Wrote? ensures Wrote(all[i].step) in all[..i] {
      assert i < |events| ==> all[..i] == events[..i];
      assert i == |events| ==> all[..i] == events;
    }
  }

  /** What fitted still does when another call is handled. */
  lemma FitsLater(catalog: map<Text, Spec>, available: set<Text>, handled: seq<ToolCall>, call: ToolCall, events: seq<Event>)
    requires AllFit(catalog, available, handled, events)
    ensures AllFit(catalog, available, handled + [call], events)
  {
    var all := handled + [call];
    forall i | 0 <= i < |events| ensures Fits(catalog, available, all, events[i]) {
      assert Fits(catalog, available, handled, events[i]);
      assert 1 <= events[i].step <= |handled| ==> all[events[i].step - 1] == handled[events[i].step - 1];
    }
  }

  lemma RowKeeps(rows: seq<Entry>, events: seq<Event>, e: Entry)
    requires BuiltWereRequested(rows, events)
    ensures BuiltWereRequested(rows + [e], events)
  {
    var all := rows + [e];
    forall i | 0 <= i < |events| ensures WasRequested(all, events[i].step) {
      assert WasRequested(rows, events[i].step);
      var k :| 0 <= k < |rows| && rows[k].step == events[i].step && !rows[k].status.Denied?;
      assert all[k] == rows[k];
    }
  }

  /** The outcome of the last row replaces what it was requested as. */
  lemma OutcomeKeeps(rows: seq<Entry>, handled: seq<ToolCall>, events: seq<Event>, outcome: Status)
    requires RowsOk(rows, handled) && BuiltWereRequested(rows, events) && rows != [] && !outcome.Denied?
    ensures
      var rows' := rows[|rows| - 1 := rows[|rows| - 1].(status := outcome)];
      RowsOk(rows', handled) && BuiltWereRequested(rows', events)
  {
    var rows' := rows[|rows| - 1 := rows[|rows| - 1].(status := outcome)];
    forall i | 0 <= i < |events| ensures WasRequested(rows', events[i].step) {
      assert WasRequested(rows, events[i].step);
      var k :| 0 <= k < |rows| && rows[k].step == events[i].step && !rows[k].status.Denied?;
      assert rows'[k].step == events[i].step && !rows'[k].status.Denied?;
    }
  }

  lemma EventOfRow(rows: seq<Entry>, events: seq<Event>, e: Event, k: nat)
    requires BuiltWereRequested(rows, events) && k < |rows| && rows[k].step == e.step && !rows[k].status.Denied?
    ensures BuiltWereRequested(rows, events + [e])
  {
    assert WasRequested(rows, e.step);
  }

  function Offered(catalog: map<Text, Spec>, names: seq<Text>, available: set<Text>): seq<ToolDefinition>
    requires available <= catalog.Keys
  {
    if names == [] then []
    else
      var before, last := names[..|names| - 1], names[|names| - 1];
      Offered(catalog, before, available) + if last in available then [catalog[last].definition] else []
  }

  /** The catalog lists each valid definition under its own name. */
  predicate CatalogOk(catalog: map<Text, Spec>) {
    forall n | n in catalog :: catalog[n].definition.name == n && ValidTool(catalog[n].definition)
  }

  /** What is offered passes the adapters' check, and each tool is offered under its name exactly when it is available. */
  lemma {:induction false} OfferedIsValid(catalog: map<Text, Spec>, names: seq<Text>, available: set<Text>)
    requires available <= catalog.Keys && CatalogOk(catalog) && Distinct(names)
    ensures ValidTools(Offered(catalog, names, available))
    ensures forall d | d in Offered(catalog, names, available) :: d.name in names && d.name in available
    ensures forall n | n in names && n in available :: catalog[n].definition in Offered(catalog, names, available)
  {
    if names != [] {
      var before, n := names[..|names| - 1], names[|names| - 1];
      OfferedIsValid(catalog, before, available);
      assert names == before + [n];
    }
  }

  /** What the model hears of a call that was refused, or whose tool failed. */
  function Refusal(failed: bool): ToolResult {
    ToolResult([], [], Flatten.Ascii(if failed then "error: tool failed" else "error: this tool is not available"), true)
  }

  /** Refused: no event, a row with the reason if that can be written, and the model hears only that. */
  predicate IsRefused(w: World, step: nat, c: ToolCall, reason: Reason, events0: seq<Event>, events: seq<Event>,
                      rows0: seq<Entry>, rows: seq<Entry>, r: ToolResult)
  {
    && events == events0 && r == Refusal(false)
    && rows == if w.denials then rows0 + [Entry(step, c.(opaq := []), Denied(reason))] else rows0
  }

  /**
   What a call of the model leaves behind, and what it is told, in the order of the questions: the policy, the
   confirmations for a write tool, and the audit; then the step is written before the tool is built by the
   factory of its risk, and a read tool is run, a write tool asked for a proposal. The model hears the
   tool's own answer if there is one, and the row has the outcome if that can be written.
   */
  predicate IsCarried(w: World, step: nat, isAvailable: bool, risk: Risk, confirmations: bool, c: ToolCall,
                      events0: seq<Event>, events: seq<Event>, rows0: seq<Entry>, rows: seq<Entry>, r: ToolResult)
  {
    if !isAvailable then IsRefused(w, step, c, PolicyDenied, events0, events, rows0, rows, r)
    else if risk == Write && !confirmations then IsRefused(w, step, c, NoConfirmations, events0, events, rows0, rows, r)
    else if !w.requests then IsRefused(w, step, c, AuditUnavailable, events0, events, rows0, rows, r)
    else if !w.builds then
      && events == events0 + [Wrote(step), Built(step, risk)] && r == Refusal(true)
      && rows == rows0 + [Entry(step, c.(opaq := []), if w.outcomes then Failed else Requested)]
    else
      && events == events0 + [Wrote(step), Built(step, risk), if risk == Write then Proposed(step, c, w.answer) else Ran(step, c, w.answer)]
      && r == (if w.answer.Some? then w.answer.value else Refusal(true))
      && rows == rows0 + [Entry(step, c.(opaq := []), if !w.outcomes then Requested else if w.answer.Some? then Executed else Failed)]
  }

  /**
   A tool is touched only for a row that is no denial; an executed row's tool has answered, and the model heard
   that answer; and whatever the model hears other than a refusal is such an answer.
   */
  lemma CarriedSays(w: World, step: nat, isAvailable: bool, risk: Risk, confirmations: bool, c: ToolCall,
                    events0: seq<Event>, events: seq<Event>, rows0: seq<Entry>, rows: seq<Entry>, r: ToolResult)
    requires IsCarried(w, step, isAvailable, risk, confirmations, c, events0, events, rows0, rows, r)
    ensures events0 <= events && rows0 <= rows && |rows| <= |rows0| + 1
    ensures events != events0 <==> |rows| > |rows0| && !rows[|rows0|].status.Denied?
    ensures (|rows| > |rows0| && rows[|rows0|].status == Executed) || r !in {Refusal(true), Refusal(false)} ==>
      && |events| == |events0| + 3 && events[|events0|] == Wrote(step) && events[|events0| + 1] == Built(step, risk)
      && events[|events0| + 2] == if risk == Write then Proposed(step, c, Some(r)) else Ran(step, c, Some(r))
    ensures |rows| > |rows0| && rows[|rows0|].status == Failed ==> r == Refusal(true)
  {}

  /** Why a row is what it is: every denial has its own reason, and what was requested was available. */
  predicate ReasonOk(catalog: map<Text, Spec>, available: set<Text>, confirmations: bool, e: Entry) {
    var name := e.call.name;
    var mayProceed := name in available && name in catalog && (catalog[name].risk == Write ==> confirmations);
    match e.status
    case Denied(PolicyDenied) => name !in available
    case Denied(NoConfirmations) => name in available && name in catalog && catalog[name].risk == Write && !confirmations
    case Denied(ArgsTooLarge) => name in available
    case Denied(AuditUnavailable) => mayProceed
    case Denied(LoopLimit) => true
    case _ => mayProceed
  }

  predicate ReasonsOk(catalog: map<Text, Spec>, available: set<Text>, confirmations: bool, rows: seq<Entry>) {
    forall k | 0 <= k < |rows| :: ReasonOk(catalog, available, confirmations, rows[k])
  }

  lemma OutcomeKeepsReasons(catalog: map<Text, Spec>, available: set<Text>, confirmations: bool, rows: seq<Entry>, outcome: Status)
    requires ReasonsOk(catalog, available, confirmations, rows) && rows != []
    requires rows[|rows| - 1].status == Requested && outcome in {Executed, Failed}
    ensures ReasonsOk(catalog, available, confirmations, rows[|rows| - 1 := rows[|rows| - 1].(status := outcome)])
  {}

  /** Whatever was carried out was for reading, whatever was proposed was for writing, and both were available. */
  lemma NoWriteIsCarriedOut(r: Resolver, i: nat)
    requires r.Valid() && i < |r.events|
    ensures
      match r.events[i]
      case Wrote(_) => true
      case Built(step, factory) => IsFor(r.catalog, r.available, r.handled, step, factory)
      case Proposed(step, call, _) => IsFor(r.catalog, r.available, r.handled, step, Write) && call in r.given
      case Ran(step, call, _) => IsFor(r.catalog, r.available, r.handled, step, ReadOnly) && call in r.given
    ensures NoOpaque(r.given) && (r.events[i].Proposed? || r.events[i].Ran?) ==> r.events[i].call.opaq == []
  {
    assert Fits(r.catalog, r.available, r.handled, r.events[i]);
  }

  class Resolver {
    const catalog: map<Text, Spec>
    const names: seq<Text>        // of the catalog, in order
    const available: set<Text>    // in the catalog, enabled, and allowed by the policy
    const confirmations: bool     // whether there is a store to propose to
    const world: nat -> World     // what each step meets with
    var step: nat
    var rows: seq<Entry>
    ghost var handled: seq<ToolCall>     // the calls that took a step, without transport state
    ghost var given: seq<ToolCall>       // the calls as the loop handed them on
    ghost var returned: seq<ToolResult>  // and what came back
    ghost var events: seq<Event>

    ghost predicate Valid()
      reads this
    {
      && available <= catalog.Keys && Distinct(names) && step == |handled|
      && RowsOk(rows, handled) && WrittenFirst(events) && BuiltWereRequested(rows, events)
      && AllFit(catalog, available, handled, events) && OnlyGiven(given, events)
      && ReasonsOk(catalog, available, confirmations, rows)
    }

    constructor (catalog: map<Text, Spec>, names: seq<Text>, available: set<Text>, confirmations: bool, world: nat -> World)
      requires available <= catalog.Keys && Distinct(names)
      ensures Valid() && step == 0 && rows == [] && events == [] && given == []
      ensures this.catalog == catalog && this.names == names && this.available == available
      ensures this.confirmations == confirmations && this.world == world
    {
      this.catalog, this.names, this.available, this.confirmations := catalog, names, available, confirmations;
      this.world := world;
      step, rows, handled, given, returned, events := 0, [], [], [], [], [];
    }

    /** Only the tools that are effectively available. */
    method Definitions() returns (defs: seq<ToolDefinition>)
      requires Valid()
      ensures defs == Offered(catalog, names, available)
    {
      defs := [];
      for k := 0 to |names|
        invariant defs == Offered(catalog, names[..k], available)
      {
        assert names[..k + 1][..k] == names[..k];
        if names[k] in available {
          defs := defs + [catalog[names[k]].definition];
        }
      }
      assert names[..|names|] == names;
    }

    function Resolve(name: Text): (t: Resolved)
      requires available <= catalog.Keys
    {
      if name in available then GovernedTool(catalog[name].risk) else DeniedTool
    }

    /** The next step number goes to the call. */
    method Attempt(c: ToolCall) returns (call: ToolCall)
      requires Valid()
      modifies this`step, this`handled
      ensures Valid() && call == Clean(c) && step == old(step) + 1 && handled == old(handled) + [call]
      ensures forall k | 0 <= k < |rows| :: rows[k].step != step
    {
      call := Clean(c);
      FitsLater(catalog, available, handled, call, events);
      step := step + 1;
      handled := handled + [call];
    }

    method RecordDenied(call: ToolCall, reason: Reason)
      requires Valid() && step > 0 && call == handled[step - 1] && call.opaq == []
      requires forall k | 0 <= k < |rows| :: rows[k].step != step
      requires ReasonOk(catalog, available, confirmations, Entry(step, call, Denied(reason)))
      modifies this`rows
      ensures Valid() && rows == if world(step).denials then old(rows) + [Entry(step, call, Denied(reason))] else old(rows)
    {
      if world(step).denials {
        RowKeeps(rows, events, Entry(step, call, Denied(reason)));
        rows := rows + [Entry(step, call, Denied(reason))];
      }
    }

    method RecordRequested(call: ToolCall) returns (written: bool)
      requires Valid() && step > 0 && call == handled[step - 1] && call.opaq == []
      requires forall k | 0 <= k < |rows| :: rows[k].step != step
      requires ReasonOk(catalog, available, confirmations, Entry(step, call, Requested))
      modifies this`rows, this`events
      ensures Valid() && written == world(step).requests
      ensures !written ==> rows == old(rows) && events == old(events)
      ensures written ==> rows == old(rows) + [Entry(step, call, Requested)] && events == old(events) + [Wrote(step)]
    {
      written := world(step).requests;
      if written {
        EventKeeps(events, Wrote(step));
        RowKeeps(rows, events, Entry(step, call, Requested));
        rows := rows + [Entry(step, call, Requested)];
        EventOfRow(rows, events, Wrote(step), |rows| - 1);
        events := events + [Wrote(step)];
      }
    }

    /** A tool is built, asked for a proposal, or run, for the step whose row is the last one. */
    ghost method Note(e: Event)
      requires Valid() && rows != [] && rows[|rows| - 1].step == e.step && rows[|rows| - 1].status == Requested
      requires Wrote(e.step) in events && Fits(catalog, available, handled, e)
      requires e.Proposed? || e.Ran? ==> e.call in given
      modifies this`events
      ensures Valid() && events == old(events) + [e]
    {
      EventKeeps(events, e);
      EventOfRow(rows, events, e, |rows| - 1);
      events := events + [e];
    }

    /** The outcome replaces "requested", unless it cannot be written. */
    method FinishRow(outcome: Status)
      requires Valid() && rows != [] && rows[|rows| - 1].status == Requested && outcome in {Executed, Failed}
      modifies this`rows
      ensures Valid()
      ensures rows == if world(step).outcomes then old(rows)[|old(rows)| - 1 := old(rows)[|old(rows)| - 1].(status := outcome)] else old(rows)
    {
      if world(step).outcomes {
        OutcomeKeeps(rows, handled, events, outcome);
        OutcomeKeepsReasons(catalog, available, confirmations, rows, outcome);
        hide ReasonsOk, RowsOk, WrittenFirst, BuiltWereRequested, AllFit, OnlyGiven;
        rows := rows[|rows| - 1 := rows[|rows| - 1].(status := outcome)];
      }
    }

    /** What a handled call leaves behind: one step, at most one row, and what was there untouched. */
    twostate predicate OneStep(c: ToolCall)
      reads this
    {
      && step == old(step) + 1 && handled == old(handled) + [Clean(c)]
      && |old(rows)| <= |rows| <= |old(rows)| + 1 && rows[..|old(rows)|] == old(rows)
      && (|rows| > |old(rows)| ==> rows[|old(rows)|].step == step && rows[|old(rows)|].call == Clean(c))
      && |old(events)| <= |events| && events[..|old(events)|] == old(events)
    }

    /** The calls h were handed on, in order, and taken a step for each; each got a result, and left a row at most. */
    twostate predicate Went(h: seq<ToolCall>)
      reads this
    {
      && given == old(given) + h && handled == old(handled) + CleanAll(h) && step == old(step) + |h|
      && |returned| == |old(returned)| + |h| && old(returned) <= returned
      && |rows| <= |old(rows)| + |h| && old(rows) <= rows
    }

    /** Of the rows since, those of too large arguments are denied, and none is denied for that which is not. */
    twostate predicate SizesKept(max: int)
      reads this
    {
      forall k | |old(rows)| <= k < |rows| ::
        && (|rows[k].call.arguments| > max ==> rows[k].status.Denied?)
        && (rows[k].status == Denied(ArgsTooLarge) ==> |rows[k].call.arguments| > max)
    }

    /** The loop hands a call on; what a tool gets to see is that call. */
    ghost method Receive(c: ToolCall)
      requires Valid()
      modifies this`given
      ensures Valid() && given == old(given) + [c]
    {
      given := given + [c];
    }

    twostate predicate SameCalls()
      reads this
    {
      given == old(given) && returned == old(returned)
    }

    /** The loop handed on one call and got one result. */
    twostate predicate OneCall(c: ToolCall, r: ToolResult)
      reads this
    {
      given == old(given) + [c] && returned == old(returned) + [r]
    }

    method Deny(c: ToolCall, reason: Reason) returns (r: ToolResult)
      requires Valid() && ReasonOk(catalog, available, confirmations, Entry(0, c, Denied(reason)))
      modifies this
      ensures Valid() && OneStep(c) && SameCalls()
      ensures IsRefused(world(step), step, c, reason, old(events), events, old(rows), rows, r)
    {
      var call := Attempt(c);
      RecordDenied(call, reason);
      r := Refusal(false);
    }

    /** "Requested" is written before anything of the tool is built; if it cannot be, nothing is. */
    method Begin(c: ToolCall) returns (written: bool)
      requires Valid() && c.name in available && (catalog[c.name].risk == Write ==> confirmations)
      modifies this
      ensures Valid() && OneStep(c) && SameCalls() && written == world(step).requests
      ensures !written ==> IsRefused(world(step), step, c, AuditUnavailable, old(events), events, old(rows), rows, Refusal(false))
      ensures written ==>
        rows == old(rows) + [Entry(step, Clean(c), Requested)] && events == old(events) + [Wrote(step)]
    {
      hide RowsOk, WrittenFirst, BuiltWereRequested, AllFit, OnlyGiven, ReasonsOk;
      var call := Attempt(c);
      written := RecordRequested(call);
      if !written {
        RecordDenied(call, AuditUnavailable);
      }
    }

    /**
     The tool of the step is built by the factory of its risk; a read tool is run and a write tool asked
     for a proposal, with the call as it was handed on; and the outcome is recorded.
     */
    method Carry(risk: Risk, c: ToolCall) returns (r: ToolResult)
      requires Valid() && rows != [] && rows[|rows| - 1].step == step && rows[|rows| - 1].status == Requested
      requires Wrote(step) in events && c in given && step > 0 && handled[step - 1] == Clean(c)
      requires c.name in available && catalog[c.name].risk == risk
      modifies this`rows, this`events
      ensures Valid()
      ensures
        var w, built := world(step), old(events) + [Built(step, risk)];
        && events == (if !w.builds then built else built + [if risk == Write then Proposed(step, c, w.answer) else Ran(step, c, w.answer)])
        && r == (if w.builds && w.answer.Some? then w.answer.value else Refusal(true))
        && rows == old(rows)[|old(rows)| - 1 := old(rows)[|old(rows)| - 1].(status :=
             if !w.outcomes then Requested else if w.builds && w.answer.Some? then Executed else Failed)]
    {
      hide RowsOk, WrittenFirst, BuiltWereRequested, AllFit, OnlyGiven, ReasonsOk;
      Note(Built(step, risk));
      var answer: Option<ToolResult> := None;
      if world(step).builds {
        answer := world(step).answer;
        Note(if risk == Write then Proposed(step, c, answer) else Ran(step, c, answer));
      }
      r := if answer.Some? then answer.value else Refusal(true);
      FinishRow(if answer.Some? then Executed else Failed);
    }

    /** The loop's call of a tool that was resolved. */
    method Execute(t: Resolved, c: ToolCall) returns (r: ToolResult)
      requires Valid() && t == Resolve(c.name)
      modifies this
      ensures Valid() && OneStep(c) && OneCall(c, r)
      ensures IsCarried(world(step), step, c.name in available, if c.name in available then catalog[c.name].risk else ReadOnly, confirmations,
                        c, old(events), events, old(rows), rows, r)
    {
      hide RowsOk, WrittenFirst, BuiltWereRequested, AllFit, OnlyGiven, ReasonsOk;
      Receive(c);
      if t.DeniedTool? || c.name !in available {
        r := Deny(c, PolicyDenied);
      } else if t.risk == Write {
        r := ExecuteWrite(c);
      } else {
        var written := Begin(c);
        r := Refusal(false);
        if written {
          r := Carry(ReadOnly, c);
        }
      }
      returned := returned + [r];
    }

    /** The model's call of a write tool only proposes. */
    method ExecuteWrite(c: ToolCall) returns (r: ToolResult)
      requires Valid() && c in given && c.name in available && catalog[c.name].risk == Write
      modifies this
      ensures Valid() && OneStep(c) && SameCalls()
      ensures IsCarried(world(step), step, true, Write, confirmations, c, old(events), events, old(rows), rows, r)
    {
      hide RowsOk, WrittenFirst, BuiltWereRequested, AllFit, OnlyGiven, ReasonsOk;
      if !confirmations {
        r := Deny(c, NoConfirmations);
        return;
      }
      var written := Begin(c);
      r := Refusal(false);
      if written {
        r := Carry(Write, c);
      }
    }

    /** The loop refused the arguments for their size: the policy's reason comes first, and nothing is built. */
    method Reject(t: Resolved, c: ToolCall) returns (r: ToolResult)
      requires Valid() && t == Resolve(c.name)
      modifies this
      ensures Valid() && OneStep(c) && OneCall(c, r)
      ensures IsRefused(world(step), step, c, if c.name in available then ArgsTooLarge else PolicyDenied,
                        old(events), events, old(rows), rows, r)
    {
      Receive(c);
      r := Deny(c, if t.DeniedTool? then PolicyDenied else ArgsTooLarge);
      returned := returned + [r];
    }

    /** The calls of a round that the loop refused to run. */
    method RecordAborted(calls: seq<ToolCall>)
      requires Valid()
      modifies this
      ensures Valid() && step == old(step) + |calls| && handled == old(handled) + CleanAll(calls)
      ensures events == old(events) && SameCalls()
      ensures |rows| <= |old(rows)| + |calls| && |old(rows)| <= |rows| && rows[..|old(rows)|] == old(rows)
      ensures forall k | |old(rows)| <= k < |rows| :: rows[k].status == Denied(LoopLimit)
      ensures (forall k | old(step) < k <= step :: world(k).denials) ==> |rows| == |old(rows)| + |calls|
    {
      hide RowsOk, WrittenFirst, BuiltWereRequested, AllFit, OnlyGiven, ReasonsOk;
      for k := 0 to |calls|
        invariant Valid() && step == old(step) + k && handled == old(handled) + CleanAll(calls[..k])
        invariant events == old(events) && SameCalls()
        invariant |old(rows)| <= |rows| <= |old(rows)| + k && rows[..|old(rows)|] == old(rows)
        invariant forall j | |old(rows)| <= j < |rows| :: rows[j].status == Denied(LoopLimit)
        invariant (forall j | old(step) < j <= step :: world(j).denials) ==> |rows| == |old(rows)| + k
      {
        assert CleanAll(calls[..k + 1]) == CleanAll(calls[..k]) + [Clean(calls[k])];
        var r := Deny(calls[k], LoopLimit);
      }
      assert calls[..|calls|] == calls;
    }
  }
}
