/** Every step keeps the invariant of the protocol, and so does every run. */
module ConfirmationRuns {
  import opened Basics
  import opened Confirmations
  import opened ConfirmationProtocol
  import opened ConfirmationSafety

  // ----- Small facts -----

  lemma ReplaceAfterWithout(procs: map<Pid, Proc>, p: Pid, c: Proc)
    ensures Without(procs, p)[p := c] == procs[p := c]
  {}

  lemma ReturnAfterWithout(procs: map<Pid, Proc>, p: Pid, at: Time, after: Option<seq<Id>>)
    ensures Return(Without(procs, p), p, at, after) == Return(procs, p, at, after)
  {
    assert Without(Without(procs, p), p) == Without(procs, p);
    if after.Some? {
      ReplaceAfterWithout(procs, p, Claiming(after.value, at));
    }
  }

  lemma FactsOfRow(transfers: seq<Transfer>, r: Row, r': Row)
    requires r'.key == r.key && r'.confirmedAt == r.confirmedAt
    ensures HasAITransfer(transfers, r) <==> HasAITransfer(transfers, r')
  {
    if k :| 0 <= k < |transfers| && MadeForSince(transfers[k], r) {
      assert MadeForSince(transfers[k], r');
    }
    if k :| 0 <= k < |transfers| && MadeForSince(transfers[k], r') {
      assert MadeForSince(transfers[k], r);
    }
  }

  lemma ClosedRowOk(P: Params, r: Row, to: Status, t: Time, now: Time)
    requires RowOk(P, r, now) && Allowed(r.status, to) && to != Confirmed
    ensures RowOk(P, Close(r, to, t), now) && Evolves(r, Close(r, to, t)) && Terminal(to)
  {
    HistoryGrows(r, to);
  }

  /** The process and the execution it holds, as the invariant has them. */
  lemma ExecFacts(P: Params, s: State, p: Pid)
    requires Inv(P, s) && p in s.procs && s.procs[p].Exec?
    ensures ProcOk(P, s.now, s.rows, s.transfers, s.procs[p]) && Alone(s, p, s.procs[p].id)
  {}

  // ----- Taps -----

  lemma TapLookupKeeps(P: Params, s: State, step: Step)
    requires Inv(P, s) && step.TapLookup? && Enabled(P, s, step)
    ensures Inv(P, Apply(P, s, step))
  {
    var c := Apply(P, s, step).procs[step.p];
    hide Inv;
    ProcMoves(P, s, step.p, c);
  }

  lemma TapCheckKeeps(P: Params, s: State, step: Step)
    requires Inv(P, s) && step.TapCheck? && Enabled(P, s, step)
    ensures Inv(P, Apply(P, s, step))
  {
    assert ProcOk(P, s.now, s.rows, s.transfers, s.procs[step.p]);
    var c := Apply(P, s, step).procs[step.p];
    hide Inv, HasActive;
    ProcMoves(P, s, step.p, c);
  }

  lemma PendingHasNoExec(P: Params, s: State, id: Id)
    requires Inv(P, s) && id in s.rows && s.rows[id].status == Pending
    ensures forall q | q in s.procs && s.procs[q].Exec? :: s.procs[q].id != id
    ensures NoTransferBy(s.transfers, id)
  {
    assert RowOk(P, s.rows[id], s.now);
    NoneYet(P, s, id);
    forall q | q in s.procs && s.procs[q].Exec? ensures s.procs[q].id != id {
      assert ProcOk(P, s.now, s.rows, s.transfers, s.procs[q]);
    }
  }

  lemma TapShuts(P: Params, s: State, p: Pid, t: Time)
    requires Inv(P, s) && p in s.procs && s.procs[p].Tapped? && s.procs[p].at <= t <= s.now
    requires s.procs[p].id in s.rows && s.rows[s.procs[p].id].status == Pending && s.procs[p].todo.Shut?
    ensures Inv(P, TapConsumes(s, p, t))
  {
    var c := s.procs[p];
    var id, r, status, text := c.id, s.rows[c.id], c.todo.status, c.todo.text;
    assert ProcOk(P, s.now, s.rows, s.transfers, c) && RowOk(P, r, s.now);
    PendingHasNoExec(P, s, id);
    OpenIsUntold(P, s, p, id);
    var r' := Close(r, status, t);
    ClosedRowOk(P, r, status, t, s.now);
    hide Inv;
    RowChanges(P, s, id, r');
    var s1 := s.(rows := s.rows[id := r']);
    ProcMoves(P, s1, p, Telling(id, text, t, None));
  }

  lemma ConfirmedRowOk(P: Params, r: Row, t: Time, now: Time)
    requires RowOk(P, r, now) && r.status == Pending && t <= now
    ensures RowOk(P, ConfirmedRow(r, r.key.contact, t), now) && Evolves(r, ConfirmedRow(r, r.key.contact, t))
    ensures r.claims == []
  {
    HistoryGrows(r, Confirmed);
  }

  lemma TapConfirms(P: Params, s: State, p: Pid, t: Time)
    requires Inv(P, s) && p in s.procs && s.procs[p].Tapped? && s.procs[p].at <= t <= s.now <= t + P.minAge
    requires s.procs[p].id in s.rows && s.rows[s.procs[p].id].status == Pending && s.procs[p].todo.Consume?
    ensures Inv(P, TapConsumes(s, p, t))
  {
    var c := s.procs[p];
    var id, r := c.id, s.rows[c.id];
    assert ProcOk(P, s.now, s.rows, s.transfers, c) && RowOk(P, r, s.now);
    PendingHasNoExec(P, s, id);
    OpenIsUntold(P, s, p, id);
    var r' := ConfirmedRow(r, c.tap.contact, t);
    ConfirmedRowOk(P, r, t, s.now);
    hide Inv;
    RowChanges(P, s, id, r');
    var s1 := s.(rows := s.rows[id := r']);
    ProcMoves(P, s1, p, Exec(id, Ready, t, t, None));
  }

  lemma TapCasKeeps(P: Params, s: State, step: Step)
    requires Inv(P, s) && step.TapCas? && Enabled(P, s, step)
    ensures Inv(P, Apply(P, s, step))
  {
    hide Inv;
    var c := s.procs[step.p];
    if s.rows[c.id].status != Pending {
      ProcEnds(P, s, step.p);
    } else if c.todo.Shut? {
      TapShuts(P, s, step.p, step.t);
    } else {
      TapConfirms(P, s, step.p, step.t);
    }
  }

  // ----- Sweeps -----

  lemma SweepExhaustedKeeps(P: Params, s: State, step: Step)
    requires Inv(P, s) && step.SweepExhausted? && Enabled(P, s, step)
    ensures Inv(P, Apply(P, s, step))
  {
    hide Inv;
    ProcMoves(P, s, step.p, Failing(step.list, step.t));
  }

  lemma SweepStuckKeeps(P: Params, s: State, step: Step)
    requires Inv(P, s) && step.SweepStuck? && Enabled(P, s, step)
    ensures Inv(P, Apply(P, s, step))
  {
    hide Inv;
    ProcMoves(P, s, step.p, Claiming(step.list, step.t));
  }

  lemma ExhaustedMayFail(P: Params, s: State, id: Id, t: Time)
    requires ParamsOk(P) && Inv(P, s) && id in s.rows && s.rows[id].status == Confirmed
    requires s.rows[id].attempts >= P.maxAttempts
    ensures RowMayBecome(P, s, id, Close(s.rows[id], Failed, t))
  {
    hide RowOk, HasAITransfer, NoTransferBy, Inv, IsLifecycle, ProcOk;
    var r := s.rows[id];
    var r' := Close(r, Failed, t);
    RowFacts(P, s, id);
    ClosedRowOk(P, r, Failed, t, s.now);
    FactsOfRow(s.transfers, r, r');
    forall q | q in s.procs && s.procs[q].Exec? && s.procs[q].id == id
      ensures ProcOk(P, s.now, s.rows[id := r'], s.transfers, s.procs[q])
    {
      ExhaustedExecGoesOn(P, s, q, id, t);
    }
  }

  lemma ExhaustedExecGoesOn(P: Params, s: State, q: Pid, id: Id, t: Time)
    requires ParamsOk(P) && Inv(P, s) && id in s.rows && s.rows[id].status == Confirmed
    requires s.rows[id].attempts >= P.maxAttempts && q in s.procs && s.procs[q].Exec? && s.procs[q].id == id
    ensures ProcOk(P, s.now, s.rows[id := Close(s.rows[id], Failed, t)], s.transfers, s.procs[q])
  {
    var r' := Close(s.rows[id], Failed, t);
    FactsOfRow(s.transfers, s.rows[id], r');
    RowFacts(P, s, id);
    ExecFacts(P, s, q);
    hide RowOk, HasAITransfer, NoTransferBy, Inv, IsLifecycle, Alone, StatusIsTrue;
    assert s.procs[q].after.Some?;
    ListSurvives(P, s.rows, id, r', s.procs[q].after.value, s.procs[q].at);
  }

  lemma RowFacts(P: Params, s: State, id: Id)
    requires Inv(P, s) && id in s.rows
    ensures RowOk(P, s.rows[id], s.now) && ClaimsOk(P, s.rows[id]) && StatusIsTrue(s.transfers, id, s.rows[id])
  {}

  lemma FailKeeps(P: Params, s: State, p: Pid, t: Time)
    requires ParamsOk(P) && Inv(P, s) && Reads(s, p, t)
    requires s.procs[p].Failing? && s.procs[p].list != [] && s.procs[p].list[0] in s.rows
    ensures Inv(P, Fail(s, p, t))
  {
    var c := s.procs[p];
    assert ProcOk(P, s.now, s.rows, s.transfers, c);
    var id := c.list[0];
    assert id in c.list;
    hide Inv, ProcOk;
    if s.rows[id].status == Confirmed {
      ExhaustedMayFail(P, s, id, t);
      RowChanges(P, s, id, Close(s.rows[id], Failed, t));
    }
    var s1 := s.(rows := Fail(s, p, t).rows);
    FailingGoesOn(P, s, s1, c, t);
    ProcMoves(P, s1, p, Failing(c.list[1..], t));
  }

  lemma FailingGoesOn(P: Params, s: State, s1: State, c: Proc, t: Time)
    requires ProcOk(P, s.now, s.rows, s.transfers, c) && c.Failing? && c.list != [] && t <= s.now == s1.now
    requires forall i | i in s.rows :: i in s1.rows && s1.rows[i].attempts == s.rows[i].attempts
    ensures ProcOk(P, s1.now, s1.rows, s1.transfers, Failing(c.list[1..], t))
  {
    assert forall i | i in c.list[1..] :: i in c.list;
  }

  // ----- Claims -----

  /** A row that may be claimed is not being executed: whoever had it has had more than minAge. */
  lemma ClaimableIsIdle(P: Params, s: State, id: Id, t: Time)
    requires Inv(P, s) && id in s.rows && MayClaim(P, s.rows[id], t) && t <= s.now
    requires s.rows[id].confirmedAt.Some? && s.rows[id].confirmedAt.value + P.minAge < t
    ensures forall q | q in s.procs && s.procs[q].Exec? :: s.procs[q].id != id
  {
    RowFacts(P, s, id);
    forall q | q in s.procs && s.procs[q].Exec? ensures s.procs[q].id != id {
      ExecFacts(P, s, q);
    }
  }

  lemma ClaimedRowOk(P: Params, r: Row, t: Time, now: Time)
    requires RowOk(P, r, now) && MayClaim(P, r, t) && t <= now
    requires r.confirmedAt.Some? && r.confirmedAt.value + P.minAge < t
    ensures RowOk(P, Claimed(r, t), now) && Evolves(r, Claimed(r, t))
  {
    var claims := r.claims + [t];
    forall k | 0 <= k < |claims| - 1 ensures claims[k] + P.minAge < claims[k + 1] {
      if k < |r.claims| - 1 {
        assert r.claims[k] + P.minAge < r.claims[k + 1];
      }
    }
  }

  lemma ClaimIsTaken(P: Params, s: State, id: Id, t: Time)
    requires Inv(P, s) && id in s.rows && MayClaim(P, s.rows[id], t) && t <= s.now
    requires s.rows[id].confirmedAt.Some? && s.rows[id].confirmedAt.value + P.minAge < t
    ensures Inv(P, s.(rows := s.rows[id := Claimed(s.rows[id], t)]))
    ensures Evolves(s.rows[id], Claimed(s.rows[id], t))
  {
    RowFacts(P, s, id);
    ClaimableIsIdle(P, s, id, t);
    ClaimedRowOk(P, s.rows[id], t, s.now);
    FactsOfRow(s.transfers, s.rows[id], Claimed(s.rows[id], t));
    hide Inv, HasAITransfer, ClaimsOk, RowOk;
    RowChanges(P, s, id, Claimed(s.rows[id], t));
  }

  lemma ClaimedExecOk(P: Params, s: State, rows: Table, id: Id, rest: seq<Id>, t: Time)
    requires id in rows && rows[id].status == Confirmed && rows[id].claimedAt == Some(t)
    requires rows[id].confirmedAt.Some? && rows[id].confirmedAt.value <= t <= s.now <= t + P.minAge
    requires ListOk(P, rows, rest, t)
    ensures ProcOk(P, s.now, rows, s.transfers, Exec(id, Taken, t, t, Some(rest)))
  {
    hide ListOk;
  }

  lemma ClaimWins(P: Params, s: State, p: Pid, t: Time)
    requires ParamsOk(P) && Inv(P, s) && Reads(s, p, t) && s.now <= t + P.minAge
    requires s.procs[p].Claiming? && s.procs[p].list != [] && s.procs[p].list[0] in s.rows
    requires MayClaim(P, s.rows[s.procs[p].list[0]], t)
    ensures Inv(P, Claim(P, s, p, t))
  {
    var c := s.procs[p];
    var id, rest := c.list[0], c.list[1..];
    var r := s.rows[id];
    assert ProcOk(P, s.now, s.rows, s.transfers, c);
    assert id in c.list && forall i | i in rest :: i in c.list;
    hide Inv;
    var s1 := s.(rows := s.rows[id := Claimed(r, t)]);
    ListWaits(P, s.rows, rest, c.at, t);
    hide ProcOk;
    assert MayClaim(P, r, t) && r.confirmedAt.Some? && r.confirmedAt.value + P.minAge < t;
    hide ListOk, ClaimIsOld;
    ClaimableIsIdle(P, s, id, t);
    OpenIsUntold(P, s, p, id);
    ClaimIsTaken(P, s, id, t);
    ListSurvives(P, s.rows, id, Claimed(r, t), rest, t);
    ClaimedExecOk(P, s1, s1.rows, id, rest, t);
    ProcMoves(P, s1, p, Exec(id, Taken, t, t, Some(rest)));
  }

  lemma ClaimKeeps(P: Params, s: State, p: Pid, t: Time)
    requires ParamsOk(P) && Inv(P, s) && Reads(s, p, t) && s.now <= t + P.minAge
    requires s.procs[p].Claiming? && s.procs[p].list != [] && s.procs[p].list[0] in s.rows
    ensures Inv(P, Claim(P, s, p, t))
  {
    if MayClaim(P, s.rows[s.procs[p].list[0]], t) {
      ClaimWins(P, s, p, t);
    } else {
      var c := s.procs[p];
      assert ProcOk(P, s.now, s.rows, s.transfers, c);
      hide Inv;
      assert forall i | i in c.list[1..] :: i in c.list;
      ListWaits(P, s.rows, c.list[1..], c.at, t);
      ProcMoves(P, s, p, Claiming(c.list[1..], t));
    }
  }

  // ----- An execution, up to its outcome -----

  lemma StageMoves(P: Params, s: State, p: Pid, t: Time, stage: Stage)
    requires Inv(P, s) && Reads(s, p, t) && s.procs[p].Exec? && s.procs[p].id in s.rows
    requires StageOk(s.transfers, s.procs[p].id, s.rows[s.procs[p].id], stage)
    ensures Inv(P, s.(procs := s.procs[p := s.procs[p].(at := t, stage := stage)]))
  {
    var c := s.procs[p];
    ExecFacts(P, s, p);
    hide Inv, StageOk;
    if c.after.Some? {
      ListWaits(P, s.rows, c.after.value, c.at, t);
    }
    ProcMoves(P, s, p, c.(at := t, stage := stage));
  }

  lemma ExecReturns(P: Params, s: State, p: Pid, t: Time)
    requires Inv(P, s) && Reads(s, p, t) && s.procs[p].Exec?
    ensures Inv(P, s.(procs := Return(s.procs, p, t, s.procs[p].after)))
  {
    var c := s.procs[p];
    ExecFacts(P, s, p);
    hide Inv;
    if c.after.Some? {
      ListWaits(P, s.rows, c.after.value, c.at, t);
    }
    ProcReturns(P, s, p, t, c.after);
  }

  lemma ReadRowKeeps(P: Params, s: State, step: Step)
    requires Inv(P, s) && step.ReadRow? && Enabled(P, s, step)
    ensures Inv(P, Apply(P, s, step))
  {
    var p, c := step.p, s.procs[step.p];
    hide Inv;
    if s.rows[c.id].status == Confirmed {
      ReadsItself(P, s, p);
      StageMoves(P, s, p, c.at, Read);
    } else {
      ReadsItself(P, s, p);
      ExecReturns(P, s, p, c.at);
    }
  }

  lemma ReadsItself(P: Params, s: State, p: Pid)
    requires Inv(P, s) && p in s.procs
    ensures Reads(s, p, s.procs[p].at)
  {
    assert ProcOk(P, s.now, s.rows, s.transfers, s.procs[p]);
  }

  lemma JudgeKeeps(P: Params, s: State, step: Step)
    requires Inv(P, s) && step.Judge? && Enabled(P, s, step)
    ensures Inv(P, Apply(P, s, step))
  {
    var c := s.procs[step.p];
    hide Inv, HasAITransfer;
    StageMoves(P, s, step.p, step.t, Judged(P, s.rows[c.id], step.t, step.known, step.authorized));
  }

  lemma SearchKeeps(P: Params, s: State, step: Step)
    requires Inv(P, s) && step.Search? && Enabled(P, s, step)
    ensures Inv(P, Apply(P, s, step))
  {
    var p, c := step.p, s.procs[step.p];
    ReadsItself(P, s, p);
    if HasAITransfer(s.transfers, s.rows[c.id]) {
      hide Inv, HasAITransfer;
      StageMoves(P, s, p, c.at, Closing(Executed, Some(CreatedText)));
    } else {
      NoneWithoutSearch(P, s, c.id);
      hide Inv, HasAITransfer, NoTransferBy;
      StageMoves(P, s, p, c.at, Ready);
    }
  }

  /** The search by contact and time finds whatever the confirmation itself has made. */
  lemma NoneWithoutSearch(P: Params, s: State, id: Id)
    requires Inv(P, s) && id in s.rows && !HasAITransfer(s.transfers, s.rows[id])
    ensures NoTransferBy(s.transfers, id)
  {
    forall k | 0 <= k < |s.transfers| ensures s.transfers[k].maker != Some(id) {
      assert !MadeForSince(s.transfers[k], s.rows[id]);
    }
  }

  lemma RequestKeeps(P: Params, s: State, step: Step)
    requires Inv(P, s) && step.Request? && Enabled(P, s, step)
    ensures Inv(P, Apply(P, s, step))
  {
    ReadsItself(P, s, step.p);
    ExecFacts(P, s, step.p);
    hide Inv, NoTransferBy;
    StageMoves(P, s, step.p, s.procs[step.p].at, Requested);
  }

  lemma CheckActiveKeeps(P: Params, s: State, step: Step)
    requires Inv(P, s) && step.CheckActive? && Enabled(P, s, step)
    ensures Inv(P, Apply(P, s, step))
  {
    ReadsItself(P, s, step.p);
    ExecFacts(P, s, step.p);
    var stage := Apply(P, s, step).procs[step.p].stage;
    hide Inv, NoTransferBy, HasActive;
    StageMoves(P, s, step.p, s.procs[step.p].at, stage);
  }

  lemma ToolFailsKeeps(P: Params, s: State, step: Step)
    requires Inv(P, s) && step.ToolFails? && Enabled(P, s, step)
    ensures Inv(P, Apply(P, s, step))
  {
    ReadsItself(P, s, step.p);
    hide Inv;
    StageMoves(P, s, step.p, s.procs[step.p].at, Ran(Error));
  }

  // ----- Transfers -----

  /** Transfers change; what was said about them stays true, but perhaps for one confirmation being executed. */
  lemma TransfersChange(P: Params, s: State, transfers': seq<Transfer>, maker: Option<Id>)
    requires Inv(P, s)
    requires TransfersOk(s.(transfers := transfers')) && OneEach(transfers') && OneActive(transfers')
    requires forall i: Id | maker != Some(i) && NoTransferBy(s.transfers, i) :: NoTransferBy(transfers', i)
    requires forall r | HasAITransfer(s.transfers, r) :: HasAITransfer(transfers', r)
    requires maker.Some? ==> maker.value in s.rows && s.rows[maker.value].status in {Confirmed, Failed}
    requires maker.Some? ==> forall q | q in s.procs :: !Busy(s.procs[q], maker.value)
    requires maker.Some? ==> forall k | 0 <= k < |s.told| :: s.told[k].0 != maker.value
    ensures Inv(P, s.(transfers := transfers'))
  {
    var s' := s.(transfers := transfers');
    hide RowOk, HasAITransfer, NoTransferBy, TransfersOk, OneEach, OneActive, ListOk, TappedOk;
    forall p | p in s.procs ensures ProcOk(P, s.now, s.rows, transfers', s.procs[p]) {
      assert ProcOk(P, s.now, s.rows, s.transfers, s.procs[p]);
    }
    forall q | q in s'.procs && (s'.procs[q].Exec? || s'.procs[q].Telling?)
      ensures Alone(s', q, s'.procs[q].id)
    {
      assert Alone(s, q, s.procs[q].id);
    }
  }

  lemma AppendKeepsFacts(transfers: seq<Transfer>, t: Transfer)
    ensures forall i: Id | t.maker != Some(i) && NoTransferBy(transfers, i) :: NoTransferBy(transfers + [t], i)
    ensures forall r | HasAITransfer(transfers, r) :: HasAITransfer(transfers + [t], r)
  {
    forall r | HasAITransfer(transfers, r) ensures HasAITransfer(transfers + [t], r) {
      var k :| 0 <= k < |transfers| && MadeForSince(transfers[k], r);
      assert MadeForSince((transfers + [t])[k], r);
    }
  }

  lemma AppendKeepsOneActive(transfers: seq<Transfer>, t: Transfer)
    requires OneActive(transfers) && !HasActive(transfers, t.org, t.contact)
    ensures OneActive(transfers + [t])
  {
    forall k | 0 <= k < |transfers| ensures !ActiveFor(transfers[k], t.org, t.contact) {}
  }

  lemma OtherTransferKeeps(P: Params, s: State, step: Step)
    requires Inv(P, s) && step.OtherTransfer? && Enabled(P, s, step)
    ensures Inv(P, Apply(P, s, step))
  {
    var t := Transfer(step.org, step.contact, OtherSource, step.t, true, None);
    AppendKeepsFacts(s.transfers, t);
    AppendKeepsOneActive(s.transfers, t);
    assert TransfersOk(s.(transfers := s.transfers + [t])) && OneEach(s.transfers + [t]);
    hide Inv, HasActive, NoTransferBy, HasAITransfer, OneEach, OneActive, TransfersOk;
    TransfersChange(P, s, s.transfers + [t], None);
  }

  lemma CloseTransferKeeps(P: Params, s: State, step: Step)
    requires Inv(P, s) && step.CloseTransfer? && Enabled(P, s, step)
    ensures Inv(P, Apply(P, s, step))
  {
    var transfers' := s.transfers[step.k := s.transfers[step.k].(active := false)];
    ClosedKeepsFacts(s.transfers, step.k);
    ClosedKeepsTransfers(P, s, step.k);
    hide Inv, HasAITransfer, NoTransferBy, OneEach, OneActive, TransfersOk;
    TransfersChange(P, s, transfers', None);
  }

  lemma ClosedKeepsTransfers(P: Params, s: State, k: nat)
    requires Inv(P, s) && k < |s.transfers|
    ensures
      var transfers' := s.transfers[k := s.transfers[k].(active := false)];
      TransfersOk(s.(transfers := transfers')) && OneEach(transfers') && OneActive(transfers')
  {
    TransferFacts(P, s);
    hide Inv;
  }

  lemma TransferFacts(P: Params, s: State)
    requires Inv(P, s)
    ensures TransfersOk(s) && OneEach(s.transfers) && OneActive(s.transfers)
  {}

  lemma ClosedKeepsFacts(transfers: seq<Transfer>, k: nat)
    requires k < |transfers|
    ensures
      var transfers' := transfers[k := transfers[k].(active := false)];
      && (forall i: Id | NoTransferBy(transfers, i) :: NoTransferBy(transfers', i))
      && forall r | HasAITransfer(transfers, r) :: HasAITransfer(transfers', r)
  {
    var transfers' := transfers[k := transfers[k].(active := false)];
    forall r | HasAITransfer(transfers, r) ensures HasAITransfer(transfers', r) {
      var j :| 0 <= j < |transfers| && MadeForSince(transfers[j], r);
      assert MadeForSince(transfers'[j], r);
    }
  }

  // ----- The insert -----

  lemma InsertCreates(P: Params, s: State, id: Id, t: Time)
    requires Inv(P, s) && id in s.rows && s.rows[id].status in {Confirmed, Failed} && NoTransferBy(s.transfers, id)
    requires s.rows[id].confirmedAt.Some? && s.rows[id].confirmedAt.value <= t <= s.now
    requires !HasActive(s.transfers, s.rows[id].key.org, s.rows[id].key.contact)
    requires forall q | q in s.procs :: !Busy(s.procs[q], id)
    requires forall k | 0 <= k < |s.told| :: s.told[k].0 != id
    ensures
      var made := Transfer(s.rows[id].key.org, s.rows[id].key.contact, AIConfirmed, t, true, Some(id));
      Inv(P, s.(transfers := s.transfers + [made])) && HasAITransfer(s.transfers + [made], s.rows[id])
  {
    var made := Transfer(s.rows[id].key.org, s.rows[id].key.contact, AIConfirmed, t, true, Some(id));
    var transfers' := s.transfers + [made];
    AppendKeepsFacts(s.transfers, made);
    AppendKeepsOneActive(s.transfers, made);
    assert OneEach(transfers');
    assert MadeForSince(transfers'[|s.transfers|], s.rows[id]);
    assert TransfersOk(s.(transfers := transfers'));
    hide Inv, HasActive, NoTransferBy, OneEach, OneActive, TransfersOk;
    TransfersChange(P, s, transfers', Some(id));
  }

  lemma InsertsKeeps(P: Params, s: State, p: Pid, t: Time, broken: bool)
    requires Inv(P, s) && InExec(s, p, Clear) && Reads(s, p, t)
    ensures Inv(P, Inserts(s, p, t, broken))
  {
    var c := s.procs[p];
    var id := c.id;
    var r := s.rows[id];
    ExecFacts(P, s, p);
    if HasActive(s.transfers, r.key.org, r.key.contact) {
      StageMoves(P, s, p, t, Ran(AlreadyActive));
    } else {
      var s1 := s.(procs := Without(s.procs, p));
      var made := Transfer(r.key.org, r.key.contact, AIConfirmed, t, true, Some(id));
      var c' := c.(at := t, stage := Ran(if broken then Error else Created));
      hide Inv, HasActive, HasAITransfer, NoTransferBy;
      ProcEnds(P, s, p);
      InsertCreates(P, s1, id, t);
      var s2 := s1.(transfers := s1.transfers + [made]);
      if c.after.Some? {
        ListWaits(P, s.rows, c.after.value, c.at, t);
      }
      ProcMoves(P, s2, p, c');
      ReplaceAfterWithout(s.procs, p, c');
    }
  }

  // ----- The outcome -----

  lemma ExecutedMayClose(P: Params, s: State, id: Id, to: Status, t: Time)
    requires Inv(P, s) && id in s.rows && s.rows[id].status == Confirmed && Allowed(Confirmed, to)
    requires to == Executed ==> HasAITransfer(s.transfers, s.rows[id])
    requires to == NotExecuted ==> NoTransferBy(s.transfers, id)
    requires forall q | q in s.procs :: !Busy(s.procs[q], id)
    ensures RowMayBecome(P, s, id, Close(s.rows[id], to, t)) && Terminal(to)
  {
    RowFacts(P, s, id);
    ClosedRowOk(P, s.rows[id], to, t, s.now);
    FactsOfRow(s.transfers, s.rows[id], Close(s.rows[id], to, t));
  }

  /** An execution closes its row and answers, or just closes it. */
  lemma CloseKeeps(P: Params, s: State, p: Pid, t: Time, to: Status, text: Option<Text>)
    requires Inv(P, s) && Reads(s, p, t) && s.procs[p].Exec? && s.procs[p].id in s.rows
    requires s.rows[s.procs[p].id].status == Confirmed && Allowed(Confirmed, to)
    requires to == Executed ==> HasAITransfer(s.transfers, s.rows[s.procs[p].id])
    requires to == NotExecuted ==> NoTransferBy(s.transfers, s.procs[p].id)
    requires text.Some? ==> TextIsTrue(s.transfers, s.procs[p].id, s.rows[s.procs[p].id], text.value)
    ensures
      var c := s.procs[p];
      Inv(P, s.(rows := s.rows[c.id := Close(s.rows[c.id], to, t)],
                procs := if text.Some? then s.procs[p := Telling(c.id, text.value, t, c.after)]
                         else Return(s.procs, p, t, c.after)))
  {
    var c := s.procs[p];
    var id, r := c.id, s.rows[c.id];
    ExecFacts(P, s, p);
    RowFacts(P, s, id);
    var s1 := s.(procs := Without(s.procs, p));
    ClosedRowOk(P, r, to, t, s.now);
    FactsOfRow(s.transfers, r, Close(r, to, t));
    hide Inv, HasAITransfer, NoTransferBy, RowOk;
    ProcEnds(P, s, p);
    ExecutedMayClose(P, s1, id, to, t);
    RowChanges(P, s1, id, Close(r, to, t));
    var s2 := s1.(rows := s1.rows[id := Close(r, to, t)]);
    if c.after.Some? {
      ListWaits(P, s.rows, c.after.value, c.at, t);
      ListSurvives(P, s.rows, id, Close(r, to, t), c.after.value, t);
    }
    hide ListOk, Evolves;
    if text.Some? {
      ProcMoves(P, s2, p, Telling(id, text.value, t, c.after));
      ReplaceAfterWithout(s.procs, p, Telling(id, text.value, t, c.after));
    } else {
      ProcReturns(P, s2, p, t, c.after);
      ReturnAfterWithout(s.procs, p, t, c.after);
    }
  }

  lemma ClosesKeeps(P: Params, s: State, p: Pid, t: Time)
    requires Inv(P, s) && Reads(s, p, t) && s.procs[p].Exec? && s.procs[p].stage.Closing? && s.procs[p].id in s.rows
    ensures Inv(P, Closes(s, p, t))
  {
    ExecFacts(P, s, p);
    var c := s.procs[p];
    hide Inv, HasAITransfer, NoTransferBy, ListOk;
    if s.rows[c.id].status != Confirmed {
      ExecReturns(P, s, p, t);
    } else {
      CloseKeeps(P, s, p, t, c.stage.status, c.stage.text);
    }
  }

  lemma FinishesKeeps(P: Params, s: State, p: Pid, t: Time)
    requires Inv(P, s) && Reads(s, p, t) && s.procs[p].Exec? && s.procs[p].stage.Ran? && s.procs[p].id in s.rows
    ensures Inv(P, Finishes(s, p, t))
  {
    ExecFacts(P, s, p);
    var c := s.procs[p];
    var o := c.stage.outcome;
    hide Inv, HasAITransfer, NoTransferBy;
    if s.rows[c.id].status == Confirmed {
      CloseKeeps(P, s, p, t, StatusOf(o), Some(TextOf(o)));
    } else {
      if c.after.Some? {
        ListWaits(P, s.rows, c.after.value, c.at, t);
      }
      ProcMoves(P, s, p, Telling(c.id, TextOf(o), t, c.after));
    }
  }

  // ----- Messages -----

  lemma ToldMore(P: Params, s: State, id: Id, text: Text)
    requires Inv(P, s) && id in s.rows && Terminal(s.rows[id].status) && TextIsTrue(s.transfers, id, s.rows[id], text)
    requires forall q | q in s.procs :: !Busy(s.procs[q], id)
    requires forall k | 0 <= k < |s.told| :: s.told[k].0 != id
    ensures Inv(P, s.(told := s.told + [(id, text)]))
  {
    var s' := s.(told := s.told + [(id, text)]);
    hide RowsOk, TransfersOk, OneEach, OneActive, ProcOk, TextIsTrue, WithinLimit, OnePending;
    assert RowsOk(P, s') && TransfersOk(s') by {
      WorldIsTheSame(P, s, s');
    }
    forall q | q in s'.procs && (s'.procs[q].Exec? || s'.procs[q].Telling?)
      ensures Alone(s', q, s'.procs[q].id)
    {
      assert Alone(s, q, s.procs[q].id);
      assert !Busy(s.procs[q], id);
    }
  }

  lemma WorldIsTheSame(P: Params, s: State, s': State)
    requires s' == s.(told := s'.told) && RowsOk(P, s) && TransfersOk(s)
    ensures RowsOk(P, s') && TransfersOk(s')
  {}

  lemma SendKeeps(P: Params, s: State, p: Pid)
    requires Inv(P, s) && p in s.procs && s.procs[p].Telling?
    ensures Inv(P, s.(told := s.told + [(s.procs[p].id, s.procs[p].text)],
                      procs := Return(s.procs, p, s.procs[p].at, s.procs[p].after)))
  {
    var c := s.procs[p];
    assert ProcOk(P, s.now, s.rows, s.transfers, c) && Alone(s, p, c.id);
    hide Inv, TextIsTrue, ListOk;
    var s1 := s.(procs := Without(s.procs, p));
    ProcEnds(P, s, p);
    ToldMore(P, s1, c.id, c.text);
    var s2 := s1.(told := s1.told + [(c.id, c.text)]);
    ProcReturns(P, s2, p, c.at, c.after);
    ReturnAfterWithout(s.procs, p, c.at, c.after);
  }

  // ----- Time and proposals -----

  lemma TickKeeps(P: Params, s: State, step: Step)
    requires Inv(P, s) && step.Tick? && Enabled(P, s, step)
    ensures Inv(P, Apply(P, s, step))
  {
    var s' := s.(now := step.to);
    hide IsLifecycle, ClaimsOk, StageOk, TextIsTrue, ListOk, TappedOk, StatusIsTrue, HasAITransfer, NoTransferBy;
    forall p | p in s.procs ensures ProcOk(P, s'.now, s.rows, s.transfers, s.procs[p]) {
      assert ProcOk(P, s.now, s.rows, s.transfers, s.procs[p]);
    }
    forall q | q in s'.procs && (s'.procs[q].Exec? || s'.procs[q].Telling?)
      ensures Alone(s', q, s'.procs[q].id)
    {
      assert Alone(s, q, s.procs[q].id);
    }
  }

  lemma RowsDoNotMatterAlone(s: State, rows': Table)
    requires Exclusive(s)
    ensures Exclusive(s.(rows := rows'))
  {
    var s' := s.(rows := rows');
    forall q | q in s'.procs && (s'.procs[q].Exec? || s'.procs[q].Telling?)
      ensures Alone(s', q, s'.procs[q].id)
    {
      assert Alone(s, q, s.procs[q].id);
    }
  }

  lemma ProposeKeeps(P: Params, s: State, step: Step)
    requires Inv(P, s) && step.Propose? && Enabled(P, s, step)
    ensures Inv(P, Apply(P, s, step))
  {
    ProposingKeepsLimit(P, s.rows, step.id, step.key, step.session, step.token, step.t);
    ProposingKeepsOnePending(P, s.rows, step.id, step.key, step.session, step.token, step.t);
    ProposalsAreFresh(P, s, step);
    hide WithinLimit, OnePending, RowsOk, TransfersOk, OneEach, OneActive, ProcsOk, ToldOk, Exclusive, MayPropose, Proposed;
    RowsDoNotMatterAlone(s, Proposed(P, s.rows, step.id, step.key, step.session, step.token, step.t));
  }

  /** What a new proposal does to a row that is there: a pending one of the same key is superseded. */
  lemma ProposalSupersedes(P: Params, s: State, step: Step, i: Id)
    requires Inv(P, s) && step.Propose? && step.id !in s.rows && i in s.rows
    ensures
      var r, r' := s.rows[i], Proposed(P, s.rows, step.id, step.key, step.session, step.token, step.t)[i];
      && RowOk(P, r', s.now) && StatusIsTrue(s.transfers, i, r') && Evolves(r, r')
      && (r.status != Pending ==> r' == r)
  {
    RowFacts(P, s, i);
    hide Inv, HasAITransfer, NoTransferBy;
    if s.rows[i].status == Pending {
      ClosedRowOk(P, s.rows[i], Superseded, step.t, s.now);
    }
  }

  lemma NewRowOk(P: Params, key: Key, session: nat, token: nat, t: Time, now: Time)
    ensures RowOk(P, NewRow(P, key, session, token, t), now)
  {}

  /** All that the processes and the messages depend on in a row survives a proposal. */
  ghost predicate Outlives(rows: Table, rows': Table) {
    forall i | i in rows ::
      i in rows' && Evolves(rows[i], rows'[i]) && (rows[i].status != Pending ==> rows'[i] == rows[i])
  }

  lemma ListOutlives(P: Params, rows: Table, rows': Table, list: seq<Id>, at: Time)
    requires ListOk(P, rows, list, at) && Outlives(rows, rows')
    ensures ListOk(P, rows', list, at)
  {
    forall i | i in list ensures i in rows' && rows'[i].confirmedAt == rows[i].confirmedAt {
      assert Evolves(rows[i], rows'[i]);
    }
  }

  lemma ProcOutlives(P: Params, s: State, rows': Table, c: Proc)
    requires ProcOk(P, s.now, s.rows, s.transfers, c) && Outlives(s.rows, rows')
    ensures ProcOk(P, s.now, rows', s.transfers, c)
  {
    hide StageOk, TextIsTrue;
    match c
    case Tapped(id, _, _, _) => assert Evolves(s.rows[id], rows'[id]);
    case Failing(list, _) =>
      forall i | i in list ensures i in rows' && rows'[i].attempts >= P.maxAttempts {
        assert Evolves(s.rows[i], rows'[i]);
      }
    case Claiming(list, at) => ListOutlives(P, s.rows, rows', list, at);
    case Exec(id, _, _, at, after) =>
      assert s.rows[id].status != Pending && rows'[id] == s.rows[id];
      hide ListOk, Outlives;
      if after.Some? {
        ListOutlives(P, s.rows, rows', after.value, at);
      }
    case Telling(id, _, at, after) =>
      assert s.rows[id].status != Pending && rows'[id] == s.rows[id];
      hide ListOk, Outlives;
      if after.Some? {
        ListOutlives(P, s.rows, rows', after.value, at);
      }
  }

  lemma TransfersOutlive(s: State, rows': Table)
    requires TransfersOk(s) && Outlives(s.rows, rows')
    ensures TransfersOk(s.(rows := rows'))
  {
    forall k | 0 <= k < |s.transfers| && s.transfers[k].maker.Some?
      ensures s.transfers[k].maker.value in rows' && MadeForSince(s.transfers[k], rows'[s.transfers[k].maker.value])
    {
      assert MadeForSince(s.transfers[k], s.rows[s.transfers[k].maker.value]);
      assert Evolves(s.rows[s.transfers[k].maker.value], rows'[s.transfers[k].maker.value]);
    }
  }

  lemma ToldOutlives(s: State, rows': Table)
    requires ToldOk(s) && Outlives(s.rows, rows')
    ensures ToldOk(s.(rows := rows'))
  {
    hide TextIsTrue, Evolves;
  }

  lemma ProposalsAreFresh(P: Params, s: State, step: Step)
    requires Inv(P, s) && step.Propose? && Enabled(P, s, step)
    ensures
      var s' := s.(rows := Proposed(P, s.rows, step.id, step.key, step.session, step.token, step.t));
      RowsOk(P, s') && TransfersOk(s') && ProcsOk(P, s') && ToldOk(s')
  {
    hide Inv, RowOk, StatusIsTrue, Evolves, MayPropose;
    var rows' := Proposed(P, s.rows, step.id, step.key, step.session, step.token, step.t);
    forall i | i in s.rows
      ensures RowOk(P, rows'[i], s.now) && StatusIsTrue(s.transfers, i, rows'[i])
      ensures Evolves(s.rows[i], rows'[i]) && (s.rows[i].status != Pending ==> rows'[i] == s.rows[i])
    {
      ProposalSupersedes(P, s, step, i);
    }
    NewRowOk(P, step.key, step.session, step.token, step.t, s.now);
    assert RowsOk(P, s.(rows := rows')) by { PendingIsTrue(s.transfers, step.id, rows'[step.id]); }
    hide RowsOk, Proposed;
    OthersOutlive(P, s, rows');
  }

  lemma PendingIsTrue(transfers: seq<Transfer>, id: Id, r: Row)
    requires r.status == Pending
    ensures StatusIsTrue(transfers, id, r)
  {}

  lemma OthersOutlive(P: Params, s: State, rows': Table)
    requires Inv(P, s) && Outlives(s.rows, rows')
    ensures
      var s' := s.(rows := rows');
      TransfersOk(s') && ProcsOk(P, s') && ToldOk(s')
  {
    hide TransfersOk, ToldOk, Outlives, ProcOk;
    TransfersOutlive(s, rows');
    ToldOutlives(s, rows');
    forall p | p in s.procs ensures ProcOk(P, s.now, rows', s.transfers, s.procs[p]) {
      ProcOutlives(P, s, rows', s.procs[p]);
    }
  }
}
