/** When the limit on attempts holds, and what holds with it. */
module ConfirmationLimits {
  import opened Basics
  import opened Confirmations
  import opened ConfirmationProtocol
  import opened ConfirmationSafety
  import opened ConfirmationRuns
  import opened ConfirmationTheorems
  import opened ConfirmationMessages

  /** The step is a claim that is won. */
  predicate WinsClaim(P: Params, s: State, step: Step) {
    && step.ClaimNext? && step.p in s.procs && s.procs[step.p].Claiming? && s.procs[step.p].list != []
    && s.procs[step.p].list[0] in s.rows && MayClaim(P, s.rows[s.procs[step.p].list[0]], step.t)
  }

  /** A claim that is won finds attempts left. The code does not look; what was listed has been looked at earlier. */
  predicate ClaimsInTime(P: Params, s: State, step: Step) {
    WinsClaim(P, s, step) ==> s.rows[s.procs[step.p].list[0]].attempts < P.maxAttempts
  }

  predicate AttemptsOk(P: Params, rows: Table) {
    forall i | i in rows :: rows[i].attempts <= P.maxAttempts
  }

  ghost predicate ExecsConfirmed(s: State) {
    forall p | p in s.procs && s.procs[p].Exec? :: s.procs[p].id in s.rows && s.rows[s.procs[p].id].status == Confirmed
  }

  /** No row that an exhaustion sweep has listed is being executed. */
  ghost predicate ListedAreIdle(s: State) {
    forall p, q | p in s.procs && q in s.procs && s.procs[p].Failing? && s.procs[q].Exec? ::
      s.procs[q].id !in s.procs[p].list
  }

  ghost predicate InLimit(P: Params, s: State) {
    AttemptsOk(P, s.rows) && ExecsConfirmed(s) && ListedAreIdle(s)
  }

  /** One claim that is won keeps the limit exactly if there was an attempt left. */
  lemma ClaimKeepsLimitExactlyWhen(P: Params, s: State, step: Step)
    requires WinsClaim(P, s, step) && Enabled(P, s, step)
    ensures
      var id := s.procs[step.p].list[0];
      Apply(P, s, step).rows[id].attempts <= P.maxAttempts <==> s.rows[id].attempts < P.maxAttempts
  {}

  // ----- Attempts -----

  lemma StepKeepsAttempts(P: Params, s: State, step: Step)
    requires AttemptsOk(P, s.rows) && Enabled(P, s, step) && ClaimsInTime(P, s, step)
    ensures AttemptsOk(P, Apply(P, s, step).rows)
  {
    hide AttemptsOk, MayPropose, TapTodo, TapChecked, HasActive, HasAITransfer, Judged, IsExhausted, IsStuck, Return, Without;
    hide TapConsumes, Fail, Claim, Closes, Inserts, Finishes;
    match step
    case TapCas(p, t) => CasKeepsAttempts(P, s, p, t);
    case FailNext(p, t) => FailKeepsAttempts(P, s, p, t);
    case ClaimNext(p, t) => ClaimKeepsAttempts(P, s, p, t);
    case Conclude(p, t) => ExecKeepsAttempts(P, s, p, t, false);
    case Insert(p, t, broken) => ExecKeepsAttempts(P, s, p, t, broken);
    case Finish(p, t) => ExecKeepsAttempts(P, s, p, t, false);
    case Propose(_, _, _, _, _) => ProposalKeepsAttempts(P, s, step);
    case _ => OthersGoForward(P, s, step);
  }

  lemma ProposalKeepsAttempts(P: Params, s: State, step: Step)
    requires AttemptsOk(P, s.rows) && step.Propose? && Enabled(P, s, step) && P.maxAttempts >= 0
    ensures AttemptsOk(P, Apply(P, s, step).rows)
  {
    hide MayPropose;
  }

  lemma CasKeepsAttempts(P: Params, s: State, p: Pid, t: Time)
    requires AttemptsOk(P, s.rows) && p in s.procs && s.procs[p].Tapped? && s.procs[p].id in s.rows
    ensures AttemptsOk(P, TapConsumes(s, p, t).rows)
  {}

  lemma FailKeepsAttempts(P: Params, s: State, p: Pid, t: Time)
    requires AttemptsOk(P, s.rows) && p in s.procs && s.procs[p].Failing? && s.procs[p].list != [] && s.procs[p].list[0] in s.rows
    ensures AttemptsOk(P, Fail(s, p, t).rows)
  {}

  lemma ClaimKeepsAttempts(P: Params, s: State, p: Pid, t: Time)
    requires AttemptsOk(P, s.rows) && p in s.procs && s.procs[p].Claiming? && s.procs[p].list != [] && s.procs[p].list[0] in s.rows
    requires MayClaim(P, s.rows[s.procs[p].list[0]], t) ==> s.rows[s.procs[p].list[0]].attempts < P.maxAttempts
    ensures AttemptsOk(P, Claim(P, s, p, t).rows)
  {}

  lemma ExecKeepsAttempts(P: Params, s: State, p: Pid, t: Time, broken: bool)
    requires AttemptsOk(P, s.rows) && p in s.procs && s.procs[p].Exec? && s.procs[p].id in s.rows
    ensures s.procs[p].stage.Closing? ==> AttemptsOk(P, Closes(s, p, t).rows)
    ensures AttemptsOk(P, Inserts(s, p, t, broken).rows)
    ensures s.procs[p].stage.Ran? ==> AttemptsOk(P, Finishes(s, p, t).rows)
  {
    hide HasActive;
  }

  // ----- Executions -----

  /** Only p's process is another one, and only the row `id` differs. */
  ghost predicate OneChange(s: State, s': State, p: Pid, id: Id) {
    && (forall q | q in s'.procs && q != p :: q in s.procs && s'.procs[q] == s.procs[q])
    && (forall i | i in s.rows && i != id :: i in s'.rows && s'.rows[i].status == s.rows[i].status)
  }

  /** What the step leaves p with, and whom it may disturb. */
  lemma ChangeKeeps(s: State, s': State, p: Pid, id: Id)
    requires ExecsConfirmed(s) && ListedAreIdle(s) && OneChange(s, s', p, id)
    requires forall q | q in s.procs && q != p && s.procs[q].Exec? && s.procs[q].id == id :: id in s'.rows && s'.rows[id].status == Confirmed
    requires p in s'.procs && s'.procs[p].Exec? ==> s'.procs[p].id in s'.rows && s'.rows[s'.procs[p].id].status == Confirmed
    requires p in s'.procs && s'.procs[p].Exec? ==>
      forall q | q in s.procs && q != p && s.procs[q].Failing? :: s'.procs[p].id !in s.procs[q].list
    requires p in s'.procs && s'.procs[p].Failing? ==>
      forall q | q in s.procs && q != p && s.procs[q].Exec? :: s.procs[q].id !in s'.procs[p].list
    ensures ExecsConfirmed(s') && ListedAreIdle(s')
  {}

  lemma Unexhausted(P: Params, s: State, id: Id)
    requires Inv(P, s) && id in s.rows && s.rows[id].attempts < P.maxAttempts
    ensures forall q | q in s.procs && s.procs[q].Failing? :: id !in s.procs[q].list
  {
    forall q | q in s.procs && s.procs[q].Failing? ensures id !in s.procs[q].list {
      assert ProcOk(P, s.now, s.rows, s.transfers, s.procs[q]);
    }
  }

  lemma PendingIsUntried(P: Params, s: State, id: Id)
    requires Inv(P, s) && id in s.rows && s.rows[id].status == Pending
    ensures s.rows[id].attempts == 0
  {
    RowFacts(P, s, id);
    hide Inv;
  }

  lemma CasKeepsExecs(P: Params, s: State, p: Pid, t: Time)
    requires ParamsOk(P) && Inv(P, s) && InLimit(P, s) && p in s.procs && s.procs[p].Tapped? && s.procs[p].id in s.rows
    ensures ExecsConfirmed(TapConsumes(s, p, t)) && ListedAreIdle(TapConsumes(s, p, t))
  {
    hide Inv, RowOk, ClaimsOk, AttemptsOk, StatusIsTrue;
    var id := s.procs[p].id;
    if s.rows[id].status == Pending {
      PendingIsUntried(P, s, id);
      Unexhausted(P, s, id);
    }
    ChangeKeeps(s, TapConsumes(s, p, t), p, id);
  }

  lemma FailKeepsExecs(P: Params, s: State, p: Pid, t: Time)
    requires InLimit(P, s) && p in s.procs && s.procs[p].Failing? && s.procs[p].list != [] && s.procs[p].list[0] in s.rows
    ensures ExecsConfirmed(Fail(s, p, t)) && ListedAreIdle(Fail(s, p, t))
  {
    var list := s.procs[p].list;
    assert list[0] in list && forall i | i in list[1..] :: i in list;
    ChangeKeeps(s, Fail(s, p, t), p, list[0]);
  }

  lemma ClaimKeepsExecs(P: Params, s: State, p: Pid, t: Time)
    requires Inv(P, s) && InLimit(P, s) && p in s.procs && s.procs[p].Claiming? && s.procs[p].list != [] && s.procs[p].list[0] in s.rows
    requires MayClaim(P, s.rows[s.procs[p].list[0]], t) ==> s.rows[s.procs[p].list[0]].attempts < P.maxAttempts
    ensures ExecsConfirmed(Claim(P, s, p, t)) && ListedAreIdle(Claim(P, s, p, t))
  {
    var id := s.procs[p].list[0];
    if MayClaim(P, s.rows[id], t) {
      Unexhausted(P, s, id);
    }
    hide Inv, AttemptsOk;
    ChangeKeeps(s, Claim(P, s, p, t), p, id);
  }

  lemma OthersElsewhere(P: Params, s: State, p: Pid)
    requires Inv(P, s) && p in s.procs && s.procs[p].Exec?
    ensures forall q | q in s.procs && q != p && s.procs[q].Exec? :: s.procs[q].id != s.procs[p].id
  {
    ExecFacts(P, s, p);
    hide Inv;
  }

  /** The execution ends, or goes on without touching its row. */
  lemma ExecChanges(P: Params, s: State, s': State, p: Pid)
    requires Inv(P, s) && InLimit(P, s) && p in s.procs && s.procs[p].Exec? && OneChange(s, s', p, s.procs[p].id)
    requires p in s'.procs && s'.procs[p].Exec? ==> s'.rows == s.rows && s'.procs[p].id == s.procs[p].id
    requires p in s'.procs ==> !s'.procs[p].Failing?
    ensures ExecsConfirmed(s') && ListedAreIdle(s')
  {
    OthersElsewhere(P, s, p);
    hide Inv, AttemptsOk;
    ChangeKeeps(s, s', p, s.procs[p].id);
  }

  lemma ClosesKeepsExecs(P: Params, s: State, p: Pid, t: Time)
    requires Inv(P, s) && InLimit(P, s) && p in s.procs && s.procs[p].Exec? && s.procs[p].stage.Closing? && s.procs[p].id in s.rows
    ensures ExecsConfirmed(Closes(s, p, t)) && ListedAreIdle(Closes(s, p, t))
  {
    hide Inv, InLimit;
    ExecChanges(P, s, Closes(s, p, t), p);
  }

  lemma InsertsKeepsExecs(P: Params, s: State, p: Pid, t: Time, broken: bool)
    requires Inv(P, s) && InLimit(P, s) && p in s.procs && s.procs[p].Exec? && s.procs[p].id in s.rows
    ensures ExecsConfirmed(Inserts(s, p, t, broken)) && ListedAreIdle(Inserts(s, p, t, broken))
  {
    hide Inv, InLimit, HasActive;
    ExecChanges(P, s, Inserts(s, p, t, broken), p);
  }

  lemma FinishesKeepsExecs(P: Params, s: State, p: Pid, t: Time)
    requires Inv(P, s) && InLimit(P, s) && p in s.procs && s.procs[p].Exec? && s.procs[p].stage.Ran? && s.procs[p].id in s.rows
    ensures ExecsConfirmed(Finishes(s, p, t)) && ListedAreIdle(Finishes(s, p, t))
  {
    hide Inv, InLimit;
    ExecChanges(P, s, Finishes(s, p, t), p);
  }

  /** What is exhausted was claimed, or confirmed, longer ago than an execution may take. */
  lemma SweepListsIdle(P: Params, s: State, list: seq<Id>, t: Time)
    requires ParamsOk(P) && Inv(P, s) && t <= s.now && forall i | i in list :: i in s.rows && IsExhausted(P, s.rows[i], t)
    ensures forall q | q in s.procs && s.procs[q].Exec? :: s.procs[q].id !in list
  {
    forall q | q in s.procs && s.procs[q].Exec? ensures s.procs[q].id !in list {
      ExecFacts(P, s, q);
      RowFacts(P, s, s.procs[q].id);
    }
  }

  lemma SweepKeepsExecs(P: Params, s: State, step: Step)
    requires ParamsOk(P) && Inv(P, s) && InLimit(P, s) && step.SweepExhausted? && Enabled(P, s, step)
    ensures ExecsConfirmed(Apply(P, s, step)) && ListedAreIdle(Apply(P, s, step))
  {
    SweepListsIdle(P, s, step.list, step.t);
    hide Inv, AttemptsOk, IsExhausted;
    ChangeKeeps(s, Apply(P, s, step), step.p, 0);
  }

  /** Steps that start no execution and list nothing to fail. */
  lemma QuietKeepsExecs(P: Params, s: State, step: Step)
    requires ExecsConfirmed(s) && ListedAreIdle(s) && Enabled(P, s, step)
    requires step.TapLookup? || step.TapCheck? || step.SweepStuck? || step.Send? || step.Crash?
    ensures ExecsConfirmed(Apply(P, s, step)) && ListedAreIdle(Apply(P, s, step))
  {
    hide HasActive, IsStuck, TapTodo;
    var s' := Apply(P, s, step);
    assert OneChange(s, s', step.p, 0);
    hide Apply, Enabled;
    ChangeKeeps(s, s', step.p, 0);
  }

  lemma StagesKeepExecs(P: Params, s: State, step: Step)
    requires ExecsConfirmed(s) && ListedAreIdle(s) && Enabled(P, s, step)
    requires step.ReadRow? || step.Judge? || step.Search? || step.Request? || step.CheckActive? || step.ToolFails?
    ensures ExecsConfirmed(Apply(P, s, step)) && ListedAreIdle(Apply(P, s, step))
  {
    hide HasActive, HasAITransfer, Judged;
    var s' := Apply(P, s, step);
    assert OneChange(s, s', step.p, 0);
    ChangeKeeps(s, s', step.p, 0);
  }

  lemma WorldKeepsExecs(P: Params, s: State, step: Step)
    requires ExecsConfirmed(s) && ListedAreIdle(s) && Enabled(P, s, step)
    requires step.Tick? || step.Propose? || step.OtherTransfer? || step.CloseTransfer?
    ensures ExecsConfirmed(Apply(P, s, step)) && ListedAreIdle(Apply(P, s, step))
  {
    hide MayPropose, HasActive;
  }

  lemma StepKeepsInLimit(P: Params, s: State, step: Step)
    requires ParamsOk(P) && Inv(P, s) && InLimit(P, s) && Enabled(P, s, step) && ClaimsInTime(P, s, step)
    ensures InLimit(P, Apply(P, s, step))
  {
    StepKeepsAttempts(P, s, step);
    hide Inv, AttemptsOk, ExecsConfirmed, ListedAreIdle, MayPropose, HasActive, HasAITransfer, TapTodo, Judged, IsStuck, IsExhausted;
    hide TapConsumes, Fail, Claim, Closes, Inserts, Finishes, Proposed;
    match step
    case TapCas(p, t) => CasKeepsExecs(P, s, p, t);
    case FailNext(p, t) => FailKeepsExecs(P, s, p, t);
    case ClaimNext(p, t) => ClaimKeepsExecs(P, s, p, t);
    case Conclude(p, t) => ClosesKeepsExecs(P, s, p, t);
    case Insert(p, t, broken) => InsertsKeepsExecs(P, s, p, t, broken);
    case Finish(p, t) => FinishesKeepsExecs(P, s, p, t);
    case SweepExhausted(_, _, _) => SweepKeepsExecs(P, s, step);
    case TapLookup(_, _, _, _, _, _, _) => QuietKeepsExecs(P, s, step);
    case TapCheck(_, _) => QuietKeepsExecs(P, s, step);
    case SweepStuck(_, _, _) => QuietKeepsExecs(P, s, step);
    case Send(_) => QuietKeepsExecs(P, s, step);
    case Crash(_) => QuietKeepsExecs(P, s, step);
    case Tick(_) => WorldKeepsExecs(P, s, step);
    case Propose(_, _, _, _, _) => WorldKeepsExecs(P, s, step);
    case OtherTransfer(_, _, _) => WorldKeepsExecs(P, s, step);
    case CloseTransfer(_) => WorldKeepsExecs(P, s, step);
    case _ => StagesKeepExecs(P, s, step);
  }

  // ----- Runs -----

  ghost predicate AllClaimsInTime(P: Params, states: seq<State>, steps: seq<Step>)
    requires |states| == |steps| + 1
  {
    forall k | 0 <= k < |steps| :: ClaimsInTime(P, states[k], steps[k])
  }

  /**
   In a run whose claims find attempts left, no row is tried too often, every execution has its row
   confirmed to the end, and every message says what its row says.
   */
  lemma {:induction false} LimitOverRuns(P: Params, states: seq<State>, steps: seq<Step>, k: nat)
    requires ParamsOk(P) && IsRun(P, states, steps) && AllClaimsInTime(P, states, steps) && k < |states|
    ensures AttemptsOk(P, states[k].rows) && ExecsConfirmed(states[k]) && ListedAreIdle(states[k])
    ensures Announced(P, true, states[k])
  {
    hide Inv, Apply, Enabled;
    if k > 0 {
      LimitOverRuns(P, states, steps, k - 1);
      RunIsSafe(P, states, steps, k - 1);
      var s, step := states[k - 1], steps[k - 1];
      assert ClaimsInTime(P, s, step) && Enabled(P, s, step) && states[k] == Apply(P, s, step);
      StepKeepsInLimit(P, s, step);
      assert FindsConfirmed(s, step);
      hide Announced;
      StepKeepsAnnounced(P, true, s, step);
    }
  }

  /** No row is ever tried more often than allowed if and only if every claim that was won found an attempt left. */
  lemma LimitHoldsExactlyWhen(P: Params, states: seq<State>, steps: seq<Step>)
    requires ParamsOk(P) && IsRun(P, states, steps)
    ensures (forall k | 0 <= k < |states| :: AttemptsOk(P, states[k].rows)) <==> AllClaimsInTime(P, states, steps)
  {
    if AllClaimsInTime(P, states, steps) {
      forall k | 0 <= k < |states| ensures AttemptsOk(P, states[k].rows) {
        LimitOverRuns(P, states, steps, k);
      }
    }
    if forall k | 0 <= k < |states| :: AttemptsOk(P, states[k].rows) {
      forall k | 0 <= k < |steps| ensures ClaimsInTime(P, states[k], steps[k]) {
        var s, step := states[k], steps[k];
        assert Enabled(P, s, step) && states[k + 1] == Apply(P, s, step);
        assert AttemptsOk(P, states[k + 1].rows);
        if WinsClaim(P, s, step) {
          OverLimitShows(P, s, step, states[k + 1]);
        }
      }
    }
  }

  lemma OverLimitShows(P: Params, s: State, step: Step, s': State)
    requires WinsClaim(P, s, step) && Enabled(P, s, step) && s' == Apply(P, s, step) && AttemptsOk(P, s'.rows)
    ensures s.rows[s.procs[step.p].list[0]].attempts < P.maxAttempts
  {
    ClaimKeepsLimitExactlyWhen(P, s, step);
    assert s.procs[step.p].list[0] in s'.rows;
  }
}
