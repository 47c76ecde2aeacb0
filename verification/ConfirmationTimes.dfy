/** When a confirmation of a run was proposed, how long it could be confirmed, and when the next could be proposed. */
module ConfirmationTimes {
  import opened Basics
  import opened Confirmations
  import opened ConfirmationProtocol
  import opened ConfirmationSafety
  import opened ConfirmationRuns
  import opened ConfirmationTheorems

  // ----- A row stays what it was proposed as -----

  ghost predicate SameProposal(r: Row, r': Row) {
    && r'.key == r.key && r'.session == r.session && r'.token == r.token
    && r'.proposedAt == r.proposedAt && r'.expiresAt == r.expiresAt
  }

  /** No row goes, none changes what it proposes, and a new one comes by a proposal only. */
  ghost predicate RowsKeep(rows: Table, rows': Table, step: Step) {
    && (forall i | i in rows :: i in rows' && SameProposal(rows[i], rows'[i]))
    && forall i | i in rows' && i !in rows :: step.Propose? && step.id == i
  }

  lemma WritersKeepRows(P: Params, s: State, step: Step)
    requires Enabled(P, s, step) && WritesForARow(step)
    ensures RowsKeep(s.rows, Apply(P, s, step).rows, step)
  {
    hide HasActive, Return, Without, TextOf;
  }

  lemma StepKeepsRows(P: Params, s: State, step: Step)
    requires Enabled(P, s, step)
    ensures RowsKeep(s.rows, Apply(P, s, step).rows, step)
  {
    if WritesForARow(step) {
      WritersKeepRows(P, s, step);
    } else if step.Propose? {
      hide MayPropose;
    } else {
      hide Enabled, Apply;
      OthersGoForward(P, s, step);
    }
  }

  lemma {:induction false} RowStaysProposed(P: Params, states: seq<State>, steps: seq<Step>, j: nat, k: nat, i: Id)
    requires IsRun(P, states, steps) && j <= k < |states| && i in states[j].rows
    ensures i in states[k].rows && SameProposal(states[j].rows[i], states[k].rows[i])
    decreases k - j
  {
    hide Apply, Enabled;
    if j < k {
      RowStaysProposed(P, states, steps, j, k - 1, i);
      StepKeepsRows(P, states[k - 1], steps[k - 1]);
    }
  }

  /** A proposal of a run is the row of its id at every later moment: its key, session, token, time, and end. */
  lemma ProposalIsItsRow(P: Params, states: seq<State>, steps: seq<Step>, j: nat, k: nat)
    requires IsRun(P, states, steps) && j < k < |states| && steps[j].Propose?
    ensures
      && steps[j].id in states[k].rows
      && var r := states[k].rows[steps[j].id];
         && r.key == steps[j].key && r.session == steps[j].session && r.token == steps[j].token
         && r.proposedAt == steps[j].t && r.expiresAt == steps[j].t + P.ttl
  {
    assert Enabled(P, states[j], steps[j]) && states[j + 1] == Apply(P, states[j], steps[j]);
    hide IsRun;
    RowStaysProposed(P, states, steps, j + 1, k, steps[j].id);
  }

  /** And every row of a run is the row of such a proposal, which expires ttl after it was made. */
  lemma {:induction false} RowWasProposed(P: Params, states: seq<State>, steps: seq<Step>, k: nat, i: Id)
    requires IsRun(P, states, steps) && k < |states| && i in states[k].rows
    ensures exists j | 0 <= j < k :: steps[j].Propose? && steps[j].id == i
    ensures states[k].rows[i].expiresAt == states[k].rows[i].proposedAt + P.ttl
  {
    hide Apply, Enabled;
    assert states[0].rows == map[];
    if i in states[k - 1].rows {
      RowWasProposed(P, states, steps, k - 1, i);
    } else {
      StepKeepsRows(P, states[k - 1], steps[k - 1]);
    }
    var j :| 0 <= j < k && steps[j].Propose? && steps[j].id == i;
    ProposalIsItsRow(P, states, steps, j, k);
  }

  // ----- The pause after a refusal -----

  /** Only a tap declines, and the row bears its time. */
  lemma DeclineIsATap(P: Params, s: State, step: Step, i: Id)
    requires Enabled(P, s, step) && i in s.rows && s.rows[i].status == Pending
    requires i in Apply(P, s, step).rows && Apply(P, s, step).rows[i].status == Declined
    ensures step.TapCas? && Apply(P, s, step).rows[i].finishedAt == Some(step.t)
  {
    hide HasActive, Return, Without, TextOf, MayPropose;
    if !WritesForARow(step) {
      if step.Propose? {
        assert false;
      } else {
        hide Enabled, Apply;
        OthersGoForward(P, s, step);
        assert false;
      }
    }
  }

  /**
   After a customer declined nothing of the kind is proposed to them again until cooldown has gone by, by
   the clock readings that the refusal and the proposal carry.
   */
  lemma PauseAfterDecline(P: Params, states: seq<State>, steps: seq<Step>, j: nat, k: nat, i: Id)
    requires ParamsOk(P) && IsRun(P, states, steps) && j < k < |steps| && P.cooldown > 0
    requires i in states[j].rows && states[j].rows[i].status == Pending
    requires i in states[j + 1].rows && states[j + 1].rows[i].status == Declined
    requires steps[k].Propose? && steps[k].key == states[j].rows[i].key
    ensures steps[j].TapCas? && steps[k].t > steps[j].t + P.cooldown
  {
    assert Enabled(P, states[j], steps[j]) && states[j + 1] == Apply(P, states[j], steps[j]);
    assert Enabled(P, states[k], steps[k]);
    assert MayPropose(P, states[k].rows, steps[k].key, steps[k].t);
    hide Enabled, Apply;
    DeclineIsATap(P, states[j], steps[j], i);
    RowStaysProposed(P, states, steps, j, k, i);
    LifecycleOverRuns(P, states, steps, j + 1, k, i);
    hide IsRun;
    assert states[k].rows[i].status == Declined && states[k].rows[i].finishedAt == Some(steps[j].t);
  }

  // ----- Confirmed in time -----

  /** A tap of the row's own button that is not a refusal, looked up known, untampered, authorized, and in time. */
  predicate GoodTap(P: Params, step: Step, i: Id, r: Row) {
    && step.TapLookup? && step.id == i && step.known && !step.tampered && step.authorized
    && step.tap.org == r.key.org && step.tap.contact == r.key.contact
    && step.tap.session == r.session && step.tap.token == r.token && !step.tap.decline
    && step.t < r.proposedAt + P.ttl
  }

  ghost predicate Backed(P: Params, steps: seq<Step>, k: nat, i: Id, r: Row)
    requires k <= |steps|
  {
    exists j | 0 <= j < k :: GoodTap(P, steps[j], i, r)
  }

  predicate MayGoOn(c: Proc) {
    c.Tapped? && !c.todo.Shut?
  }

  /** A process comes to confirm only by a lookup that found the row fit for it. */
  lemma WhoMayGoOn(P: Params, s: State, step: Step, q: Pid)
    requires Enabled(P, s, step) && q in Apply(P, s, step).procs && MayGoOn(Apply(P, s, step).procs[q])
    ensures
      var id := Apply(P, s, step).procs[q].id;
      || (q in s.procs && MayGoOn(s.procs[q]) && s.procs[q].id == id)
      || (step.TapLookup? && step.id == id && id in s.rows
          && TapTodo(s.rows[id], step.tap, step.t, step.known, step.tampered, step.authorized) == Check)
  {
    hide MayPropose, HasActive, HasAITransfer, Judged, IsExhausted, IsStuck, MayClaim, TextOf, Proposed;
  }

  lemma LookupIsGood(P: Params, s: State, step: Step)
    requires Enabled(P, s, step) && step.TapLookup?
    requires TapTodo(s.rows[step.id], step.tap, step.t, step.known, step.tampered, step.authorized) == Check
    requires s.rows[step.id].expiresAt == s.rows[step.id].proposedAt + P.ttl
    ensures GoodTap(P, step, step.id, s.rows[step.id])
  {}

  /** A row becomes confirmed only by the compare-and-set of a process that came to confirm it. */
  lemma WhoConfirms(P: Params, s: State, step: Step, i: Id)
    requires Enabled(P, s, step) && i in Apply(P, s, step).rows && Apply(P, s, step).rows[i].confirmedAt.Some?
    ensures i in s.rows
    ensures s.rows[i].confirmedAt.Some? || (step.TapCas? && step.p in s.procs && MayGoOn(s.procs[step.p]) && s.procs[step.p].id == i)
  {
    hide HasActive, Return, Without, TextOf, MayPropose;
    if !WritesForARow(step) && !step.Propose? {
      hide Enabled, Apply;
      OthersGoForward(P, s, step);
    }
  }

  ghost predicate AllBacked(P: Params, states: seq<State>, steps: seq<Step>, k: nat)
    requires k < |states| && |states| == |steps| + 1
  {
    && (forall i | i in states[k].rows && states[k].rows[i].confirmedAt.Some? :: Backed(P, steps, k, i, states[k].rows[i]))
    && forall q | q in states[k].procs && MayGoOn(states[k].procs[q]) ::
         states[k].procs[q].id in states[k].rows && Backed(P, steps, k, states[k].procs[q].id, states[k].rows[states[k].procs[q].id])
  }

  lemma StaysBacked(P: Params, steps: seq<Step>, k: nat, i: Id, r: Row, r': Row)
    requires k < |steps| && Backed(P, steps, k, i, r) && SameProposal(r, r')
    ensures Backed(P, steps, k + 1, i, r')
  {
    var j :| 0 <= j < k && GoodTap(P, steps[j], i, r);
    assert GoodTap(P, steps[j], i, r');
  }

  lemma BackedNext(P: Params, states: seq<State>, steps: seq<Step>, k: nat)
    requires IsRun(P, states, steps) && k < |steps| && AllBacked(P, states, steps, k)
    ensures AllBacked(P, states, steps, k + 1)
  {
    var s, step, s' := states[k], steps[k], states[k + 1];
    assert Enabled(P, s, step) && s' == Apply(P, s, step);
    StepKeepsRows(P, s, step);
    hide Enabled, Apply, Backed, GoodTap, SameProposal, TapTodo, MayGoOn;
    forall q | q in s'.procs && MayGoOn(s'.procs[q])
      ensures s'.procs[q].id in s'.rows && Backed(P, steps, k + 1, s'.procs[q].id, s'.rows[s'.procs[q].id])
    {
      WhoMayGoOn(P, s, step, q);
      var id := s'.procs[q].id;
      if q in s.procs && MayGoOn(s.procs[q]) && s.procs[q].id == id {
        StaysBacked(P, steps, k, id, s.rows[id], s'.rows[id]);
      } else {
        RowWasProposed(P, states, steps, k, id);
        LookupIsGood(P, s, step);
        NowBacked(P, steps, k, id, s.rows[id], s'.rows[id]);
      }
    }
    forall i | i in s'.rows && s'.rows[i].confirmedAt.Some? ensures Backed(P, steps, k + 1, i, s'.rows[i]) {
      WhoConfirms(P, s, step, i);
      StaysBacked(P, steps, k, i, s.rows[i], s'.rows[i]);
    }
  }

  lemma NowBacked(P: Params, steps: seq<Step>, k: nat, i: Id, r: Row, r': Row)
    requires k < |steps| && GoodTap(P, steps[k], i, r) && SameProposal(r, r')
    ensures Backed(P, steps, k + 1, i, r')
  {
    assert GoodTap(P, steps[k], i, r');
  }

  lemma {:induction false} RunIsBacked(P: Params, states: seq<State>, steps: seq<Step>, k: nat)
    requires IsRun(P, states, steps) && k < |states|
    ensures AllBacked(P, states, steps, k)
  {
    hide Apply, Enabled, Backed;
    if k == 0 {
      assert states[0].rows == map[] && states[0].procs == map[];
    } else {
      RunIsBacked(P, states, steps, k - 1);
      BackedNext(P, states, steps, k - 1);
    }
  }

  /**
   A row of a run that was ever confirmed was looked up before by a tap of its own button, of the contact
   and in the session it was made for: not a refusal, known, untampered, authorized, and before ttl had gone
   by since the proposal.
   */
  lemma ConfirmedInTime(P: Params, states: seq<State>, steps: seq<Step>, k: nat, i: Id)
    requires IsRun(P, states, steps) && k < |states| && i in states[k].rows && states[k].rows[i].confirmedAt.Some?
    ensures
      var r := states[k].rows[i];
      exists j | 0 <= j < k ::
        && steps[j].TapLookup? && steps[j].id == i && steps[j].known && !steps[j].tampered && steps[j].authorized
        && steps[j].tap == Tap(r.key.org, r.key.contact, r.session, r.token, false)
        && steps[j].t < r.proposedAt + P.ttl
  {
    hide Apply, Enabled;
    RunIsBacked(P, states, steps, k);
    var j :| 0 <= j < k && GoodTap(P, steps[j], i, states[k].rows[i]);
    assert steps[j].TapLookup?;
  }
}
