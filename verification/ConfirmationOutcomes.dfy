/** How a confirmation ends whose transfer exists. */
module ConfirmationOutcomes {
  import opened Basics
  import opened Confirmations
  import opened ConfirmationProtocol
  import opened ConfirmationSafety
  import opened ConfirmationRuns
  import opened ConfirmationTheorems

  // ----- The last time a process judged -----

  function LastJudge(steps: seq<Step>, k: nat, p: Pid): (j: Option<nat>)
    requires k <= |steps|
    ensures j.Some? ==> j.value < k && steps[j.value].Judge? && steps[j.value].p == p
  {
    if k == 0 then None
    else if steps[k - 1].Judge? && steps[k - 1].p == p then Some(k - 1)
    else LastJudge(steps, k - 1, p)
  }

  /** The request is judged in its favour: known, authorized, and not older than a confirmation is valid. */
  predicate Favours(P: Params, s: State, step: Step) {
    && step.Judge? && step.p in s.procs && s.procs[step.p].Exec? && s.procs[step.p].id in s.rows
    && s.rows[s.procs[step.p].id].confirmedAt.Some?
    && step.known && step.authorized && step.t - s.rows[s.procs[step.p].id].confirmedAt.value <= P.ttl
  }

  /** A process that searches was favoured when it last judged, and one that closes as executed too, and no other. */
  ghost predicate VerdictOk(P: Params, states: seq<State>, steps: seq<Step>, k: nat, p: Pid, c: Proc)
    requires k <= |steps| && |states| == |steps| + 1
  {
    c.Exec? && (c.stage.Searching? || c.stage.Closing?) ==>
      var j := LastJudge(steps, k, p);
      && j.Some?
      && p in states[j.value].procs && states[j.value].procs[p].Exec? && states[j.value].procs[p].id == c.id
      && (c.stage.Searching? ==> Favours(P, states[j.value], steps[j.value]))
      && (c.stage.Closing? ==> (c.stage.status == Executed <==> Favours(P, states[j.value], steps[j.value])))
  }

  ghost predicate Verdicts(P: Params, states: seq<State>, steps: seq<Step>, k: nat)
    requires k <= |steps| && |states| == |steps| + 1
  {
    forall p | p in states[k].procs :: VerdictOk(P, states, steps, k, p, states[k].procs[p])
  }

  ghost predicate OthersStay(s: State, s': State, p: Pid) {
    forall q | q in s'.procs && q != p :: q in s.procs && s'.procs[q] == s.procs[q]
  }

  /** A process comes to search or to close only by judging, or by searching. */
  ghost predicate StageIsNew(P: Params, s: State, step: Step, s': State, p: Pid) {
    p in s'.procs && s'.procs[p].Exec? && (s'.procs[p].stage.Searching? || s'.procs[p].stage.Closing?) ==>
      && p in s.procs && s.procs[p].Exec? && s'.procs[p].id == s.procs[p].id
      && (|| (step.Judge? && s.procs[p].id in s.rows && s.rows[s.procs[p].id].confirmedAt.Some?
              && s'.procs[p].stage == Judged(P, s.rows[s.procs[p].id], step.t, step.known, step.authorized))
          || (step.Search? && s.procs[p].stage.Searching? && s'.procs[p].stage == Closing(Executed, Some(CreatedText))))
  }

  ghost predicate MovesOne(P: Params, s: State, step: Step, s': State, p: Pid) {
    OthersStay(s, s', p) && StageIsNew(P, s, step, s', p)
  }

  lemma CasMoves(P: Params, s: State, step: Step, p: Pid, t: Time)
    requires p in s.procs && s.procs[p].Tapped? && s.procs[p].id in s.rows
    ensures MovesOne(P, s, step, TapConsumes(s, p, t), p)
  {}

  lemma SweepsMove(P: Params, s: State, step: Step, p: Pid, t: Time)
    requires p in s.procs && (s.procs[p].Failing? || s.procs[p].Claiming?)
    requires s.procs[p].list != [] && s.procs[p].list[0] in s.rows
    ensures s.procs[p].Failing? ==> MovesOne(P, s, step, Fail(s, p, t), p)
    ensures s.procs[p].Claiming? ==> MovesOne(P, s, step, Claim(P, s, p, t), p)
  {}

  lemma ClosesMoves(P: Params, s: State, step: Step, p: Pid, t: Time)
    requires p in s.procs && s.procs[p].Exec? && s.procs[p].stage.Closing? && s.procs[p].id in s.rows
    ensures MovesOne(P, s, step, Closes(s, p, t), p)
  {}

  lemma InsertsMoves(P: Params, s: State, step: Step, p: Pid, t: Time, broken: bool)
    requires p in s.procs && s.procs[p].Exec? && s.procs[p].id in s.rows
    ensures MovesOne(P, s, step, Inserts(s, p, t, broken), p)
  {
    hide HasActive;
  }

  lemma FinishesMoves(P: Params, s: State, step: Step, p: Pid, t: Time)
    requires p in s.procs && s.procs[p].Exec? && s.procs[p].stage.Ran? && s.procs[p].id in s.rows
    ensures MovesOne(P, s, step, Finishes(s, p, t), p)
  {}

  lemma StagesMove(P: Params, s: State, step: Step)
    requires Enabled(P, s, step)
    requires step.ReadRow? || step.Judge? || step.Search? || step.Request? || step.CheckActive? || step.ToolFails?
    ensures MovesOne(P, s, step, Apply(P, s, step), step.p)
  {
    hide HasActive, HasAITransfer, Judged;
  }

  lemma QuietStepsMove(P: Params, s: State, step: Step)
    requires Enabled(P, s, step)
    requires step.TapLookup? || step.TapCheck? || step.SweepExhausted? || step.SweepStuck? || step.Send? || step.Crash?
    ensures MovesOne(P, s, step, Apply(P, s, step), step.p)
  {
    hide HasActive, IsExhausted, IsStuck, TapTodo;
  }

  lemma StepMoves(P: Params, s: State, step: Step)
    requires Enabled(P, s, step)
    ensures !OfTheWorld(step) ==> MovesOne(P, s, step, Apply(P, s, step), step.p)
    ensures OfTheWorld(step) ==> Apply(P, s, step).procs == s.procs
  {
    hide MovesOne, HasActive, HasAITransfer, MayPropose, Proposed, Judged, TapTodo, TapChecked, IsExhausted, IsStuck;
    hide TapConsumes, Fail, Claim, Closes, Inserts, Finishes;
    match step
    case TapCas(p, t) => CasMoves(P, s, step, p, t);
    case FailNext(p, t) => SweepsMove(P, s, step, p, t);
    case ClaimNext(p, t) => SweepsMove(P, s, step, p, t);
    case Conclude(p, t) => ClosesMoves(P, s, step, p, t);
    case Insert(p, t, broken) => InsertsMoves(P, s, step, p, t, broken);
    case Finish(p, t) => FinishesMoves(P, s, step, p, t);
    case TapLookup(_, _, _, _, _, _, _) => QuietStepsMove(P, s, step);
    case TapCheck(_, _) => QuietStepsMove(P, s, step);
    case SweepExhausted(_, _, _) => QuietStepsMove(P, s, step);
    case SweepStuck(_, _, _) => QuietStepsMove(P, s, step);
    case Send(_) => QuietStepsMove(P, s, step);
    case Crash(_) => QuietStepsMove(P, s, step);
    case Tick(_) =>
    case Propose(_, _, _, _, _) =>
    case OtherTransfer(_, _, _) =>
    case CloseTransfer(_) =>
    case _ => StagesMove(P, s, step);
  }

  lemma {:induction false} VerdictsHold(P: Params, states: seq<State>, steps: seq<Step>, k: nat)
    requires IsRun(P, states, steps) && k <= |steps|
    ensures Verdicts(P, states, steps, k)
  {
    hide Apply, Enabled;
    if k > 0 {
      VerdictsHold(P, states, steps, k - 1);
      var s, step, s' := states[k - 1], steps[k - 1], states[k];
      assert Enabled(P, s, step) && s' == Apply(P, s, step);
      StepMoves(P, s, step);
      hide IsRun, Verdicts, VerdictOk, MovesOne;
      forall q | q in s'.procs ensures VerdictOk(P, states, steps, k, q, s'.procs[q]) {
        VerdictAfter(P, states, steps, k, q);
      }
      assert Verdicts(P, states, steps, k) by { AllVerdicts(P, states, steps, k); }
    }
  }

  lemma AllVerdicts(P: Params, states: seq<State>, steps: seq<Step>, k: nat)
    requires k <= |steps| && |states| == |steps| + 1
    requires forall q | q in states[k].procs :: VerdictOk(P, states, steps, k, q, states[k].procs[q])
    ensures Verdicts(P, states, steps, k)
  {}

  lemma VerdictAfter(P: Params, states: seq<State>, steps: seq<Step>, k: nat, q: Pid)
    requires 0 < k <= |steps| && |states| == |steps| + 1 && Verdicts(P, states, steps, k - 1) && q in states[k].procs
    requires !OfTheWorld(steps[k - 1]) ==> MovesOne(P, states[k - 1], steps[k - 1], states[k], steps[k - 1].p)
    requires OfTheWorld(steps[k - 1]) ==> states[k].procs == states[k - 1].procs
    ensures VerdictOk(P, states, steps, k, q, states[k].procs[q])
  {
    var s, step, s' := states[k - 1], steps[k - 1], states[k];
    if OfTheWorld(step) || q != step.p {
      assert VerdictOk(P, states, steps, k - 1, q, s.procs[q]);
    } else if step.Judge? {
      assert LastJudge(steps, k, q) == Some(k - 1);
    } else if q in s.procs {
      assert VerdictOk(P, states, steps, k - 1, q, s.procs[q]);
      assert LastJudge(steps, k, q) == LastJudge(steps, k - 1, q);
    }
  }

  // ----- A transfer that exists -----

  /** The execution is past its search. */
  predicate Beyond(stage: Stage) {
    stage.Ready? || stage.Requested? || stage.Clear? || stage.Ran?
  }

  /** The transfer of a confirmation exists, and no execution of it that has begun will look no more. */
  ghost predicate Exists(s: State, i: Id) {
    && i in s.rows && s.rows[i].status != Pending && HasAITransfer(s.transfers, s.rows[i])
    && (s.rows[i].status == Confirmed ==>
          forall p | p in s.procs && s.procs[p].Exec? && s.procs[p].id == i :: !Beyond(s.procs[p].stage))
  }

  /** What a search asks for does not change in a row once it is confirmed. */
  ghost predicate SameQuestion(rows: Table, rows': Table) {
    forall i | i in rows && rows[i].status != Pending ::
      i in rows' && rows'[i].key == rows[i].key && rows'[i].confirmedAt == rows[i].confirmedAt && rows'[i].status != Pending
  }

  ghost predicate NoneLost(transfers: seq<Transfer>, transfers': seq<Transfer>) {
    |transfers| <= |transfers'| && forall k | 0 <= k < |transfers| ::
      transfers'[k] == transfers[k] || transfers'[k] == transfers[k].(active := false)
  }

  lemma StillFound(transfers: seq<Transfer>, transfers': seq<Transfer>, r: Row, r': Row)
    requires HasAITransfer(transfers, r) && NoneLost(transfers, transfers') && r'.key == r.key && r'.confirmedAt == r.confirmedAt
    ensures HasAITransfer(transfers', r')
  {
    var k :| 0 <= k < |transfers| && MadeForSince(transfers[k], r);
    assert MadeForSince(transfers'[k], r');
  }

  ghost predicate Keeps(s: State, s': State) {
    SameQuestion(s.rows, s'.rows) && NoneLost(s.transfers, s'.transfers)
  }

  lemma CasKeeps(s: State, p: Pid, t: Time)
    requires p in s.procs && s.procs[p].Tapped? && s.procs[p].id in s.rows
    requires s.procs[p].todo.Shut? ==> s.procs[p].todo.status != Pending
    ensures Keeps(s, TapConsumes(s, p, t))
  {}

  lemma SweepsKeep(P: Params, s: State, p: Pid, t: Time)
    requires p in s.procs && (s.procs[p].Failing? || s.procs[p].Claiming?)
    requires s.procs[p].list != [] && s.procs[p].list[0] in s.rows
    ensures s.procs[p].Failing? ==> Keeps(s, Fail(s, p, t))
    ensures s.procs[p].Claiming? ==> Keeps(s, Claim(P, s, p, t))
  {}

  lemma ExecsKeep(s: State, p: Pid, t: Time, broken: bool)
    requires p in s.procs && s.procs[p].Exec? && s.procs[p].id in s.rows
    requires s.procs[p].stage.Closing? ==> s.procs[p].stage.status != Pending
    ensures s.procs[p].stage.Closing? ==> Keeps(s, Closes(s, p, t))
    ensures Keeps(s, Inserts(s, p, t, broken))
    ensures s.procs[p].stage.Ran? ==> Keeps(s, Finishes(s, p, t))
  {
    hide HasActive;
  }

  /** Nothing goes back to pending. */
  lemma NeverToPending(P: Params, s: State, p: Pid)
    requires Inv(P, s) && p in s.procs
    ensures s.procs[p].Tapped? && s.procs[p].todo.Shut? ==> s.procs[p].todo.status != Pending
    ensures s.procs[p].Exec? && s.procs[p].stage.Closing? ==> s.procs[p].stage.status != Pending
  {
    assert ProcOk(P, s.now, s.rows, s.transfers, s.procs[p]);
    hide Inv, ListOk, HasAITransfer, NoTransferBy;
  }

  lemma ExecKeeps(P: Params, s: State, p: Pid, t: Time, broken: bool)
    requires Inv(P, s) && p in s.procs && s.procs[p].Exec? && s.procs[p].id in s.rows
    ensures s.procs[p].stage.Closing? ==> Keeps(s, Closes(s, p, t))
    ensures Keeps(s, Inserts(s, p, t, broken))
    ensures s.procs[p].stage.Ran? ==> Keeps(s, Finishes(s, p, t))
  {
    NeverToPending(P, s, p);
    hide Inv;
    ExecsKeep(s, p, t, broken);
  }

  lemma WorldKeeps(P: Params, s: State, step: Step)
    requires Enabled(P, s, step) && OfTheWorld(step)
    ensures Keeps(s, Apply(P, s, step))
  {
    hide MayPropose, HasActive;
  }

  lemma OtherStepsKeep(P: Params, s: State, step: Step)
    requires Enabled(P, s, step) && !OfTheWorld(step)
    requires !(step.TapCas? || step.FailNext? || step.ClaimNext? || step.Conclude? || step.Insert? || step.Finish?)
    ensures Keeps(s, Apply(P, s, step))
  {
    hide TapTodo, TapChecked, HasActive, HasAITransfer, Judged, IsExhausted, IsStuck, Return, Without;
  }

  lemma StepKeepsQuestion(P: Params, s: State, step: Step)
    requires Inv(P, s) && Enabled(P, s, step)
    ensures Keeps(s, Apply(P, s, step))
  {
    hide Inv, Keeps, MayPropose, TapTodo, TapChecked, HasActive, HasAITransfer, Judged, IsExhausted, IsStuck, Return, Without;
    hide TapConsumes, Fail, Claim, Closes, Inserts, Finishes, Proposed;
    match step
    case TapCas(p, t) =>
      NeverToPending(P, s, p);
      CasKeeps(s, p, t);
    case FailNext(p, t) => SweepsKeep(P, s, p, t);
    case ClaimNext(p, t) => SweepsKeep(P, s, p, t);
    case Conclude(p, t) => ExecKeeps(P, s, p, t, false);
    case Insert(p, t, broken) => ExecKeeps(P, s, p, t, broken);
    case Finish(p, t) => ExecKeeps(P, s, p, t, false);
    case Tick(_) => WorldKeeps(P, s, step);
    case Propose(_, _, _, _, _) => WorldKeeps(P, s, step);
    case OtherTransfer(_, _, _) => WorldKeeps(P, s, step);
    case CloseTransfer(_) => WorldKeeps(P, s, step);
    case _ => OtherStepsKeep(P, s, step);
  }

  /** An execution gets past its search only by a tap's own confirmation, or by finding nothing. */
  ghost predicate GoesBeyond(s: State, s': State, p: Pid) {
    p in s'.procs && s'.procs[p].Exec? && Beyond(s'.procs[p].stage) ==>
      || (p in s.procs && s.procs[p].Exec? && s.procs[p].id == s'.procs[p].id && Beyond(s.procs[p].stage))
      || (s'.procs[p].id in s.rows && s.rows[s'.procs[p].id].status == Pending)
      || (s'.procs[p].id in s.rows && !HasAITransfer(s.transfers, s.rows[s'.procs[p].id]))
  }

  lemma StepGoesBeyond(P: Params, s: State, step: Step)
    requires Enabled(P, s, step) && !OfTheWorld(step)
    ensures GoesBeyond(s, Apply(P, s, step), step.p)
  {
    hide MayPropose, TapTodo, TapChecked, HasActive, HasAITransfer, IsExhausted, IsStuck;
  }

  lemma StepKeepsExists(P: Params, s: State, step: Step, i: Id)
    requires Inv(P, s) && Enabled(P, s, step) && Exists(s, i)
    ensures Exists(Apply(P, s, step), i)
  {
    var s' := Apply(P, s, step);
    StepKeepsQuestion(P, s, step);
    StepMoves(P, s, step);
    if !OfTheWorld(step) {
      StepGoesBeyond(P, s, step);
    }
    ConfirmedBefore(P, s, step, i);
    hide Inv, Apply, Enabled, HasAITransfer, StageIsNew;
    StillFound(s.transfers, s'.transfers, s.rows[i], s'.rows[i]);
  }

  lemma ConfirmedBefore(P: Params, s: State, step: Step, i: Id)
    requires Enabled(P, s, step) && i in s.rows && s.rows[i].status != Pending
    ensures i in Apply(P, s, step).rows && (Apply(P, s, step).rows[i].status == Confirmed ==> s.rows[i].status == Confirmed)
  {
    StepGoesForward(P, s, step);
    hide Apply, Enabled;
  }

  lemma {:induction false} ExistsFromThen(P: Params, states: seq<State>, steps: seq<Step>, a: nat, b: nat, i: Id)
    requires ParamsOk(P) && IsRun(P, states, steps) && a <= b < |states| && Exists(states[a], i)
    ensures Exists(states[b], i)
    decreases b
  {
    hide Apply, Enabled, Exists, Inv;
    if a < b {
      ExistsFromThen(P, states, steps, a, b - 1, i);
      RunIsSafe(P, states, steps, b - 1);
      StepKeepsExists(P, states[b - 1], steps[b - 1], i);
    }
  }

  // ----- Who closes it, and how -----

  predicate IsClosed(s: State, s': State, i: Id) {
    i in s.rows && i in s'.rows && s.rows[i].status == Confirmed && s'.rows[i].status != Confirmed
  }

  /** A confirmed row is closed by a sweep that fails it, by an attempt that concludes, or by one that has run the tool. */
  lemma WhoCloses(P: Params, s: State, step: Step, i: Id)
    requires Inv(P, s) && Enabled(P, s, step) && IsClosed(s, Apply(P, s, step), i)
    ensures step.FailNext? || step.Conclude? || step.Finish?
    ensures step.FailNext? ==> Apply(P, s, step).rows[i].status == Failed && s.rows[i].attempts >= P.maxAttempts
    ensures step.Conclude? ==>
      s.procs[step.p].id == i && s.procs[step.p].stage.Closing? && Apply(P, s, step).rows[i].status == s.procs[step.p].stage.status
    ensures step.Finish? ==>
      s.procs[step.p].id == i && s.procs[step.p].stage.Ran?
      && Apply(P, s, step).rows[i].status == StatusOf(s.procs[step.p].stage.outcome)
  {
    hide Inv, MayPropose, TapTodo, TapChecked, HasActive, HasAITransfer, Judged, IsExhausted, IsStuck, Return, Without, Proposed;
    hide TapConsumes, Fail, Claim, Closes, Inserts, Finishes;
    match step
    case TapCas(p, t) => CasClosesNone(s, p, t, i);
    case FailNext(p, t) =>
      ListedAreExhausted(P, s, p);
      FailClosesFirst(s, p, t, i);
    case ClaimNext(p, t) => ClaimClosesNone(P, s, p, t, i);
    case Conclude(p, t) => ExecClosesItsOwn(s, p, t, i);
    case Finish(p, t) => ExecClosesItsOwn(s, p, t, i);
    case Insert(p, t, broken) => InsertClosesNone(s, p, t, broken);
    case Propose(_, _, _, _, _) => ProposalClosesNone(P, s, step, i);
    case _ => OthersGoForward(P, s, step);
  }

  lemma CasClosesNone(s: State, p: Pid, t: Time, i: Id)
    requires p in s.procs && s.procs[p].Tapped? && s.procs[p].id in s.rows
    ensures !IsClosed(s, TapConsumes(s, p, t), i)
  {}

  lemma ListedAreExhausted(P: Params, s: State, p: Pid)
    requires Inv(P, s) && p in s.procs && s.procs[p].Failing?
    ensures forall i | i in s.procs[p].list :: i in s.rows && s.rows[i].attempts >= P.maxAttempts
  {
    assert ProcOk(P, s.now, s.rows, s.transfers, s.procs[p]);
    hide Inv;
  }

  lemma FailClosesFirst(s: State, p: Pid, t: Time, i: Id)
    requires p in s.procs && s.procs[p].Failing? && s.procs[p].list != [] && s.procs[p].list[0] in s.rows
    ensures IsClosed(s, Fail(s, p, t), i) ==> i == s.procs[p].list[0] && Fail(s, p, t).rows[i].status == Failed
  {}

  lemma ClaimClosesNone(P: Params, s: State, p: Pid, t: Time, i: Id)
    requires p in s.procs && s.procs[p].Claiming? && s.procs[p].list != [] && s.procs[p].list[0] in s.rows
    ensures !IsClosed(s, Claim(P, s, p, t), i)
  {}

  lemma ExecClosesItsOwn(s: State, p: Pid, t: Time, i: Id)
    requires p in s.procs && s.procs[p].Exec? && s.procs[p].id in s.rows
    ensures s.procs[p].stage.Closing? && IsClosed(s, Closes(s, p, t), i) ==>
      i == s.procs[p].id && Closes(s, p, t).rows[i].status == s.procs[p].stage.status
    ensures s.procs[p].stage.Ran? && IsClosed(s, Finishes(s, p, t), i) ==>
      i == s.procs[p].id && Finishes(s, p, t).rows[i].status == StatusOf(s.procs[p].stage.outcome)
  {}

  lemma InsertClosesNone(s: State, p: Pid, t: Time, broken: bool)
    requires p in s.procs && s.procs[p].Exec? && s.procs[p].id in s.rows
    ensures Inserts(s, p, t, broken).rows == s.rows
  {
    hide HasActive;
  }

  lemma ProposalClosesNone(P: Params, s: State, step: Step, i: Id)
    requires step.Propose? && Enabled(P, s, step)
    ensures !IsClosed(s, Apply(P, s, step), i)
  {
    hide MayPropose;
  }

  /** The attempt that the step concludes was judged in the confirmation's favour when its process last judged. */
  ghost predicate WasFavoured(P: Params, states: seq<State>, steps: seq<Step>, b: nat, i: Id)
    requires b < |steps| && |states| == |steps| + 1 && steps[b].Conclude?
  {
    var j := LastJudge(steps, b, steps[b].p);
    j.Some? && Favours(P, states[j.value], steps[j.value]) && states[j.value].procs[steps[b].p].id == i
  }

  /** The outcome that an execution is about to record. */
  predicate Records(s: State, step: Step, o: Outcome) {
    step.Finish? && step.p in s.procs && s.procs[step.p].Exec? && s.procs[step.p].stage == Ran(o)
  }

  /**
   In every run, whoever closes a confirmed row: it ends as executed if and only if an attempt concludes
   that was judged known, authorized, and in time, or an execution records that it created the transfer.
   */
  lemma EndsExecutedExactlyWhen(P: Params, states: seq<State>, steps: seq<Step>, b: nat, i: Id)
    requires ParamsOk(P) && IsRun(P, states, steps) && b < |steps| && IsClosed(states[b], states[b + 1], i)
    ensures states[b + 1].rows[i].status == Executed
       <==> (steps[b].Conclude? && WasFavoured(P, states, steps, b, i)) || Records(states[b], steps[b], Created)
  {
    RunIsSafe(P, states, steps, b);
    VerdictsHold(P, states, steps, b);
    var s, step := states[b], steps[b];
    assert Enabled(P, s, step) && states[b + 1] == Apply(P, s, step);
    WhoCloses(P, s, step, i);
    FinishIsBeyond(P, s, step);
    if step.Conclude? {
      assert VerdictOk(P, states, steps, b, step.p, s.procs[step.p]);
    }
    hide Inv, Apply, IsRun, HasAITransfer;
  }

  /**
   However a run goes on, and whoever closes it: a confirmation whose transfer exists, and for which no
   execution is past its search, ends as executed if and only if it is closed by an attempt, not by the
   exhaustion sweep, and that attempt was judged known, authorized, and in time. The sweep closes it only
   when its attempts are used up.
   */
  lemma ExistingTransferEndsExecutedExactlyWhen(P: Params, states: seq<State>, steps: seq<Step>, a: nat, b: nat, i: Id)
    requires ParamsOk(P) && IsRun(P, states, steps) && a <= b < |steps|
    requires Exists(states[a], i) && IsClosed(states[b], states[b + 1], i)
    ensures steps[b].Conclude? || (steps[b].FailNext? && states[b].rows[i].attempts >= P.maxAttempts)
    ensures states[b + 1].rows[i].status == Executed <==> steps[b].Conclude? && WasFavoured(P, states, steps, b, i)
  {
    ExistsFromThen(P, states, steps, a, b, i);
    RunIsSafe(P, states, steps, b);
    EndsExecutedExactlyWhen(P, states, steps, b, i);
    var s, step := states[b], steps[b];
    assert Enabled(P, s, step) && states[b + 1] == Apply(P, s, step);
    WhoCloses(P, s, step, i);
    FinishIsBeyond(P, s, step);
    hide Inv, Apply, IsRun, HasAITransfer;
  }

  lemma FinishIsBeyond(P: Params, s: State, step: Step)
    requires Enabled(P, s, step)
    ensures step.Finish? ==> step.p in s.procs && s.procs[step.p].Exec? && Beyond(s.procs[step.p].stage)
    ensures step.Conclude? ==> step.p in s.procs && s.procs[step.p].Exec?
  {}
}
