/** What is true of every run of the confirmation protocol. */
module ConfirmationTheorems {
  import opened Basics
  import opened Confirmations
  import opened ConfirmationProtocol
  import opened ConfirmationSafety
  import opened ConfirmationRuns

  lemma StepKeeps(P: Params, s: State, step: Step)
    requires ParamsOk(P) && Inv(P, s) && Enabled(P, s, step)
    ensures Inv(P, Apply(P, s, step))
  {
    hide Inv, Proposed, MayPropose, TapTodo, TapChecked, HasActive, HasAITransfer, Judged;
    hide TapConsumes, Fail, Claim, Closes, Inserts, Finishes;
    match step
    case Tick(_) => TickKeeps(P, s, step);
    case Propose(_, _, _, _, _) => ProposeKeeps(P, s, step);
    case TapLookup(_, _, _, _, _, _, _) => TapLookupKeeps(P, s, step);
    case TapCheck(_, _) => TapCheckKeeps(P, s, step);
    case TapCas(_, _) => TapCasKeeps(P, s, step);
    case SweepExhausted(_, _, _) => SweepExhaustedKeeps(P, s, step);
    case FailNext(p, t) => FailKeeps(P, s, p, t);
    case SweepStuck(_, _, _) => SweepStuckKeeps(P, s, step);
    case ClaimNext(p, t) => ClaimKeeps(P, s, p, t);
    case ReadRow(_) => ReadRowKeeps(P, s, step);
    case Judge(_, _, _, _) => JudgeKeeps(P, s, step);
    case Conclude(p, t) => ClosesKeeps(P, s, p, t);
    case Search(_) => SearchKeeps(P, s, step);
    case Request(_) => RequestKeeps(P, s, step);
    case CheckActive(_, _) => CheckActiveKeeps(P, s, step);
    case Insert(p, t, broken) => InsertsKeeps(P, s, p, t, broken);
    case ToolFails(_) => ToolFailsKeeps(P, s, step);
    case Finish(p, t) => FinishesKeeps(P, s, p, t);
    case Send(p) => SendKeeps(P, s, p);
    case Crash(p) => ProcEnds(P, s, p);
    case OtherTransfer(_, _, _) => OtherTransferKeeps(P, s, step);
    case CloseTransfer(_) => CloseTransferKeeps(P, s, step);
  }

  // ----- Runs -----

  ghost predicate IsRun(P: Params, states: seq<State>, steps: seq<Step>) {
    && |states| == |steps| + 1 && Init(states[0])
    && forall k | 0 <= k < |steps| :: Enabled(P, states[k], steps[k]) && states[k + 1] == Apply(P, states[k], steps[k])
  }

  lemma InitIsSafe(P: Params, s: State)
    requires Init(s)
    ensures Inv(P, s)
  {
    forall key: Key, from: Time ensures |InWindow(P, s.rows, key, from)| <= Most(P) {
      assert InWindow(P, s.rows, key, from) == {};
    }
  }

  lemma {:induction false} RunIsSafe(P: Params, states: seq<State>, steps: seq<Step>, k: nat)
    requires ParamsOk(P) && IsRun(P, states, steps) && k < |states|
    ensures Inv(P, states[k])
  {
    hide Inv, Apply, Enabled;
    if k == 0 {
      InitIsSafe(P, states[0]);
    } else {
      RunIsSafe(P, states, steps, k - 1);
      StepKeeps(P, states[k - 1], steps[k - 1]);
    }
  }

  // ----- The effect -----

  /**
   A confirmation creates at most one transfer, and none without its pending row having been confirmed
   by the contact it was made to; the transfer is that contact's, no older than the confirmation; and
   no contact has two active transfers.
   */
  lemma EffectAtMostOnce(P: Params, states: seq<State>, steps: seq<Step>, k: nat)
    requires ParamsOk(P) && IsRun(P, states, steps) && k < |states|
    ensures
      var s := states[k];
      && OneEach(s.transfers) && OneActive(s.transfers)
      && forall j | 0 <= j < |s.transfers| && s.transfers[j].maker.Some? ::
           && s.transfers[j].maker.value in s.rows
           && var r := s.rows[s.transfers[j].maker.value];
              && MadeForSince(s.transfers[j], r) && r.confirmedBy == Some(r.key.contact)
              && |r.history| > 1 && r.history[..2] == [Pending, Confirmed]
  {
    RunIsSafe(P, states, steps, k);
    var s := states[k];
    forall j | 0 <= j < |s.transfers| && s.transfers[j].maker.Some?
      ensures
        && s.transfers[j].maker.value in s.rows
        && var r := s.rows[s.transfers[j].maker.value];
           && MadeForSince(s.transfers[j], r) && r.confirmedBy == Some(r.key.contact)
           && |r.history| > 1 && r.history[..2] == [Pending, Confirmed]
    {
      var r := s.rows[s.transfers[j].maker.value];
      RowFacts(P, s, s.transfers[j].maker.value);
      hide Inv;
      HistoryShape(r.history);
    }
  }

  /** A history is pending, then perhaps confirmed, then perhaps one terminal state. */
  lemma HistoryShape(h: seq<Status>)
    requires IsLifecycle(h)
    ensures 1 <= |h| <= 3
    ensures forall k | 0 <= k < |h| - 1 :: !Terminal(h[k])
    ensures |h| == 3 ==> h[1] == Confirmed && Terminal(h[2])
    ensures Confirmed in h <==> |h| > 1 && h[1] == Confirmed
  {
    assert |h| > 1 ==> Allowed(h[0], h[1]);
    assert |h| > 2 ==> Allowed(h[1], h[2]);
    assert |h| > 3 ==> Allowed(h[2], h[3]);
  }

  // ----- The lifecycle -----

  /** Rows stay, their histories and claims only grow, and a terminal row never changes. */
  ghost predicate RowsForward(rows: Table, rows': Table) {
    forall i | i in rows ::
      && i in rows' && rows[i].history <= rows'[i].history && rows[i].claims <= rows'[i].claims
      && (Terminal(rows[i].status) ==> rows'[i] == rows[i])
  }

  ghost predicate Forward(s: State, s': State) {
    RowsForward(s.rows, s'.rows) && s.told <= s'.told && s.now <= s'.now && |s.transfers| <= |s'.transfers|
  }

  lemma ForwardIsTransitive(s: State, s': State, s'': State)
    requires Forward(s, s') && Forward(s', s'')
    ensures Forward(s, s'')
  {
    forall i | i in s.rows
      ensures && i in s''.rows && s.rows[i].history <= s''.rows[i].history && s.rows[i].claims <= s''.rows[i].claims
              && (Terminal(s.rows[i].status) ==> s''.rows[i] == s.rows[i])
    {
      assert i in s'.rows;
    }
  }

  lemma CasGoesForward(s: State, p: Pid, t: Time)
    requires p in s.procs && s.procs[p].Tapped? && s.procs[p].id in s.rows
    ensures Forward(s, TapConsumes(s, p, t))
  {}

  lemma SweepsGoForward(P: Params, s: State, p: Pid, t: Time)
    requires p in s.procs && (s.procs[p].Failing? || s.procs[p].Claiming?)
    requires s.procs[p].list != [] && s.procs[p].list[0] in s.rows
    ensures s.procs[p].Failing? ==> Forward(s, Fail(s, p, t))
    ensures s.procs[p].Claiming? ==> Forward(s, Claim(P, s, p, t))
  {}

  lemma ExecutionsGoForward(s: State, p: Pid, t: Time, broken: bool)
    requires p in s.procs && s.procs[p].Exec? && s.procs[p].id in s.rows
    ensures s.procs[p].stage.Closing? ==> Forward(s, Closes(s, p, t))
    ensures Forward(s, Inserts(s, p, t, broken))
    ensures s.procs[p].stage.Ran? ==> Forward(s, Finishes(s, p, t))
  {
    hide HasActive;
  }

  /** The steps whose statement may write the row of their confirmation, or a transfer for it. */
  predicate WritesForARow(step: Step) {
    step.TapCas? || step.FailNext? || step.ClaimNext? || step.Conclude? || step.Insert? || step.Finish?
  }

  /** The world's steps, and a proposal. */
  predicate OfTheWorld(step: Step) {
    step.Tick? || step.Propose? || step.OtherTransfer? || step.CloseTransfer?
  }

  lemma ProposalGoesForward(P: Params, s: State, step: Step)
    requires Enabled(P, s, step) && step.Propose?
    ensures Forward(s, Apply(P, s, step))
  {
    hide MayPropose, HasActive;
  }

  lemma WorldGoesForward(P: Params, s: State, step: Step)
    requires Enabled(P, s, step) && OfTheWorld(step)
    ensures Forward(s, Apply(P, s, step)) && (!step.Propose? ==> Apply(P, s, step).rows == s.rows)
  {
    hide MayPropose, HasActive, Proposed;
    if step.Propose? {
      hide Enabled, Apply;
      ProposalGoesForward(P, s, step);
    }
  }

  lemma QuietStepsStay(P: Params, s: State, step: Step)
    requires Enabled(P, s, step) && !WritesForARow(step) && !OfTheWorld(step)
    ensures var s' := Apply(P, s, step);
            s'.rows == s.rows && s.told <= s'.told && s'.now == s.now && s'.transfers == s.transfers
  {
    hide MayPropose, TapTodo, TapChecked, HasActive, HasAITransfer, Judged, IsExhausted, IsStuck;
    hide TapConsumes, Fail, Claim, Closes, Inserts, Finishes, Return, Without, Proposed;
  }

  lemma OthersGoForward(P: Params, s: State, step: Step)
    requires Enabled(P, s, step) && !WritesForARow(step)
    ensures Forward(s, Apply(P, s, step)) && (!step.Propose? ==> Apply(P, s, step).rows == s.rows)
  {
    hide Enabled, Apply;
    if OfTheWorld(step) {
      WorldGoesForward(P, s, step);
    } else {
      QuietStepsStay(P, s, step);
    }
  }

  lemma StepGoesForward(P: Params, s: State, step: Step)
    requires Enabled(P, s, step)
    ensures Forward(s, Apply(P, s, step))
  {
    hide Forward;
    hide MayPropose, TapTodo, TapChecked, HasActive, HasAITransfer, Judged, IsExhausted, IsStuck;
    hide TapConsumes, Fail, Claim, Closes, Inserts, Finishes, Return, Without;
    match step
    case TapCas(p, t) => CasGoesForward(s, p, t);
    case FailNext(p, t) => SweepsGoForward(P, s, p, t);
    case ClaimNext(p, t) => SweepsGoForward(P, s, p, t);
    case Conclude(p, t) => ExecutionsGoForward(s, p, t, false);
    case Insert(p, t, broken) => ExecutionsGoForward(s, p, t, broken);
    case Finish(p, t) => ExecutionsGoForward(s, p, t, false);
    case _ => OthersGoForward(P, s, step);
  }

  lemma {:induction false} RunGoesForward(P: Params, states: seq<State>, steps: seq<Step>, j: nat, k: nat)
    requires IsRun(P, states, steps) && j <= k < |states|
    ensures Forward(states[j], states[k])
    decreases k - j
  {
    hide Apply, Enabled;
    if j < k {
      RunGoesForward(P, states, steps, j, k - 1);
      StepGoesForward(P, states[k - 1], steps[k - 1]);
      hide Forward;
      ForwardIsTransitive(states[j], states[k - 1], states[k]);
    } else {
      assert Forward(states[j], states[k]);
    }
  }

  /** Every history is a path of the lifecycle, it ends in the row's status, and what it says is never unsaid. */
  lemma LifecycleOverRuns(P: Params, states: seq<State>, steps: seq<Step>, j: nat, k: nat, i: Id)
    requires ParamsOk(P) && IsRun(P, states, steps) && j <= k < |states| && i in states[j].rows
    ensures
      && i in states[k].rows
      && var r, r' := states[j].rows[i], states[k].rows[i];
         && IsLifecycle(r'.history) && r'.history[|r'.history| - 1] == r'.status
         && r.history <= r'.history
         && (Terminal(r.status) ==> r' == r)
  {
    RunGoesForward(P, states, steps, j, k);
    RunIsSafe(P, states, steps, k);
    RowFacts(P, states[k], i);
  }

  /** Every compare-and-set on a status has one winner: a status that was left is never there again. */
  lemma OneWinner(P: Params, states: seq<State>, steps: seq<Step>, a: nat, b: nat, c: nat, i: Id)
    requires ParamsOk(P) && IsRun(P, states, steps) && a <= b <= c < |states|
    requires i in states[a].rows && i in states[b].rows && i in states[c].rows
    requires states[b].rows[i].status != states[a].rows[i].status
    ensures states[c].rows[i].status != states[a].rows[i].status
  {
    LifecycleOverRuns(P, states, steps, a, b, i);
    LifecycleOverRuns(P, states, steps, b, c, i);
    LifecycleOverRuns(P, states, steps, a, a, i);
    hide IsRun, Inv;
    HistoryShape(states[a].rows[i].history);
    HistoryShape(states[b].rows[i].history);
    HistoryShape(states[c].rows[i].history);
  }

  // ----- Executions -----

  lemma ExecRow(P: Params, s: State, p: Pid)
    requires Inv(P, s) && p in s.procs && s.procs[p].Exec?
    ensures s.procs[p].id in s.rows
    ensures
      var r := s.rows[s.procs[p].id];
      && (s.procs[p].after.None? ==> r.status == Confirmed)
      && (r.status != Confirmed ==> r.status == Failed && r.attempts >= P.maxAttempts)
  {
    ExecFacts(P, s, p);
    hide Inv, StageOk, ListOk, Alone;
  }

  /**
   Two processes never execute one confirmation at a time. When an execution comes to record its
   outcome, the row of a tap is still confirmed; the row of a reconciler is too, unless an exhaustion
   sweep has failed it.
   */
  lemma ExecutionsDoNotOverlap(P: Params, states: seq<State>, steps: seq<Step>, k: nat, p: Pid)
    requires ParamsOk(P) && IsRun(P, states, steps) && k < |states|
    requires p in states[k].procs && states[k].procs[p].Exec?
    ensures
      var s, c := states[k], states[k].procs[p];
      && c.id in s.rows
      && (forall q | q in s.procs && q != p && s.procs[q].Exec? :: s.procs[q].id != c.id)
      && (c.after.None? ==> s.rows[c.id].status == Confirmed)
      && (s.rows[c.id].status != Confirmed ==> s.rows[c.id].status == Failed && s.rows[c.id].attempts >= P.maxAttempts)
  {
    RunIsSafe(P, states, steps, k);
    ExecRow(P, states[k], p);
    ExecFacts(P, states[k], p);
    hide Inv, ProcOk;
  }

  /** The claims of a row come more than minAge after its confirmation and after one another. */
  lemma ClaimsAreApart(P: Params, states: seq<State>, steps: seq<Step>, k: nat, i: Id, a: nat, b: nat)
    requires ParamsOk(P) && IsRun(P, states, steps) && k < |states| && i in states[k].rows
    requires a < b < |states[k].rows[i].claims|
    ensures
      var r := states[k].rows[i];
      && r.confirmedAt.Some? && r.claims[a] > r.confirmedAt.value + (a + 1) * P.minAge
      && r.claims[b] > r.claims[a] + P.minAge
      && r.attempts == |r.claims|
  {
    RunIsSafe(P, states, steps, k);
    RowFacts(P, states[k], i);
    hide Inv, IsRun;
    ClaimsSpread(P, states[k].rows[i], a);
    ClaimsRise(P, states[k].rows[i], a, b);
  }

  lemma {:induction false} ClaimsSpread(P: Params, r: Row, a: nat)
    requires ParamsOk(P) && ClaimsOk(P, r) && a < |r.claims|
    ensures r.claims[a] > r.confirmedAt.value + (a + 1) * P.minAge
  {
    if a > 0 {
      ClaimsSpread(P, r, a - 1);
      assert (a + 1) * P.minAge == a * P.minAge + P.minAge;
    } else {
      assert (a + 1) * P.minAge == P.minAge;
    }
  }

  lemma {:induction false} ClaimsRise(P: Params, r: Row, a: nat, b: nat)
    requires ParamsOk(P) && ClaimsOk(P, r) && a < b < |r.claims|
    ensures r.claims[b] > r.claims[a] + P.minAge
    decreases b
  {
    if a < b - 1 {
      ClaimsRise(P, r, a, b - 1);
    }
  }

  // ----- Proposals -----

  /** Every interval as long as the window holds at most the limit of proposals to a contact; one at most is pending. */
  lemma ProposalsAreLimited(P: Params, states: seq<State>, steps: seq<Step>, k: nat)
    requires ParamsOk(P) && IsRun(P, states, steps) && k < |states|
    ensures WithinLimit(P, states[k].rows) && OnePending(states[k].rows)
  {
    RunIsSafe(P, states, steps, k);
  }

  // ----- Messages -----

  /** The customer hears at most once about a confirmation, only when it is closed, and what is said of transfers is so. */
  lemma OneTrueMessage(P: Params, states: seq<State>, steps: seq<Step>, k: nat)
    requires ParamsOk(P) && IsRun(P, states, steps) && k < |states|
    ensures ToldOk(states[k])
  {
    RunIsSafe(P, states, steps, k);
  }
}
