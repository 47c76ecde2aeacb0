/** Whether what a customer is told is what the row says. */
module ConfirmationMessages {
  import opened Basics
  import opened Confirmations
  import opened ConfirmationProtocol
  import opened ConfirmationSafety
  import opened ConfirmationRuns
  import opened ConfirmationTheorems

  /** The status that a message announces. */
  predicate Says(text: Text, status: Status) {
    match text
    case DeniedText => status in {Denied, Failed}
    case ExpiredText => status == Expired
    case DeclinedText => status == Declined
    case CreatedText => status == Executed
    case AlreadyActiveText => status == NotExecuted
    case OutsideHoursText => status == NotExecuted
  }

  /** The row is as announced or, if one is not strict, it was failed for want of attempts. */
  predicate Announces(P: Params, strict: bool, r: Row, text: Text) {
    Says(text, r.status) || (!strict && r.status == Failed && r.attempts >= P.maxAttempts)
  }

  ghost predicate ProcAnnounces(P: Params, strict: bool, rows: Table, c: Proc) {
    match c
    case Tapped(_, _, Shut(status, text), _) => Says(text, status)
    case Exec(_, Closing(status, Some(text)), _, _, _) => Says(text, status)
    case Telling(id, text, _, _) => id in rows && Announces(P, strict, rows[id], text)
    case _ => true
  }

  ghost predicate Announced(P: Params, strict: bool, s: State) {
    && (forall p | p in s.procs :: ProcAnnounces(P, strict, s.rows, s.procs[p]))
    && forall k | 0 <= k < |s.told| :: s.told[k].0 in s.rows && Announces(P, strict, s.rows[s.told[k].0], s.told[k].1)
  }

  /** Who has answered, or is about to, has a closed row. */
  lemma AnnouncedSurvives(P: Params, strict: bool, s: State, rows': Table)
    requires Inv(P, s) && Announced(P, strict, s) && RowsForward(s.rows, rows')
    ensures Announced(P, strict, s.(rows := rows'))
  {
    forall p | p in s.procs ensures ProcAnnounces(P, strict, rows', s.procs[p]) {
      assert ProcAnnounces(P, strict, s.rows, s.procs[p]) && ProcOk(P, s.now, s.rows, s.transfers, s.procs[p]);
    }
    hide Inv;
    assert ToldOk(s) by { ToldIsClosed(P, s); }
  }

  lemma ToldIsClosed(P: Params, s: State)
    requires Inv(P, s)
    ensures ToldOk(s)
  {}

  /** Only p's process changes, to one that announces rightly. */
  ghost predicate OnlyMoves(P: Params, strict: bool, s: State, s': State, p: Pid) {
    && (forall q | q in s'.procs && q != p :: q in s.procs && s'.procs[q] == s.procs[q])
    && (p in s'.procs ==> ProcAnnounces(P, strict, s'.rows, s'.procs[p]))
  }

  lemma CasAnnounces(P: Params, strict: bool, s: State, p: Pid, t: Time)
    requires p in s.procs && s.procs[p].Tapped? && s.procs[p].id in s.rows && ProcAnnounces(P, strict, s.rows, s.procs[p])
    ensures OnlyMoves(P, strict, s, TapConsumes(s, p, t), p)
  {}

  lemma ClosingAnnounces(P: Params, strict: bool, s: State, p: Pid, t: Time)
    requires p in s.procs && s.procs[p].Exec? && s.procs[p].stage.Closing? && s.procs[p].id in s.rows
    requires ProcAnnounces(P, strict, s.rows, s.procs[p])
    ensures OnlyMoves(P, strict, s, Closes(s, p, t), p)
  {}

  lemma InsertAnnounces(P: Params, strict: bool, s: State, p: Pid, t: Time, broken: bool)
    requires p in s.procs && s.procs[p].Exec? && s.procs[p].id in s.rows
    ensures OnlyMoves(P, strict, s, Inserts(s, p, t, broken), p)
  {
    hide HasActive;
  }

  /**
   Whether Finish was won is not looked at. The message then says what the row says if and only if the
   row was still confirmed, or the message was that nothing could be done.
   */
  lemma FinishSaysExactlyWhen(P: Params, s: State, p: Pid, t: Time)
    requires Inv(P, s) && p in s.procs && s.procs[p].Exec? && s.procs[p].stage.Ran? && s.procs[p].id in s.rows
    ensures
      var id, o := s.procs[p].id, s.procs[p].stage.outcome;
      Says(TextOf(o), Finishes(s, p, t).rows[id].status) <==> s.rows[id].status == Confirmed || o == Error
  {
    hide Inv, Finishes, StageOk;
    ExecRow(P, s, p);
    FinishedStatus(s, p, t);
  }

  lemma FinishedStatus(s: State, p: Pid, t: Time)
    requires p in s.procs && s.procs[p].Exec? && s.procs[p].stage.Ran? && s.procs[p].id in s.rows
    ensures
      var id, o := s.procs[p].id, s.procs[p].stage.outcome;
      id in Finishes(s, p, t).rows
      && Finishes(s, p, t).rows[id].status == if s.rows[id].status == Confirmed then StatusOf(o) else s.rows[id].status
  {}

  lemma FinishAnnounces(P: Params, strict: bool, s: State, p: Pid, t: Time)
    requires p in s.procs && s.procs[p].Exec? && s.procs[p].stage.Ran? && s.procs[p].id in s.rows
    requires var r := s.rows[s.procs[p].id];
             r.status == Confirmed || (!strict && r.status == Failed && r.attempts >= P.maxAttempts)
    ensures OnlyMoves(P, strict, s, Finishes(s, p, t), p)
  {
    hide HasActive;
  }

  lemma QuietMoves(P: Params, strict: bool, s: State, step: Step)
    requires Announced(P, strict, s) && Enabled(P, s, step)
    requires step.TapLookup? || step.TapCheck? || step.SweepExhausted? || step.SweepStuck? || step.Send? || step.Crash?
    ensures OnlyMoves(P, strict, s, Apply(P, s, step), step.p)
  {
    assert step.p in s.procs ==> ProcAnnounces(P, strict, s.rows, s.procs[step.p]);
    hide HasActive, IsExhausted, IsStuck;
  }

  lemma ExecMoves(P: Params, strict: bool, s: State, step: Step)
    requires Announced(P, strict, s) && Enabled(P, s, step)
    requires step.ReadRow? || step.Judge? || step.Search? || step.Request? || step.CheckActive? || step.ToolFails?
    ensures OnlyMoves(P, strict, s, Apply(P, s, step), step.p)
  {
    hide HasActive, HasAITransfer;
  }

  /** An outcome that is recorded finds its row still confirmed. */
  predicate FindsConfirmed(s: State, step: Step) {
    step.Finish? && InExecAny(s, step.p) ==> s.rows[s.procs[step.p].id].status == Confirmed
  }

  predicate InExecAny(s: State, p: Pid) {
    p in s.procs && s.procs[p].Exec? && s.procs[p].id in s.rows
  }

  lemma ItAnnounces(P: Params, strict: bool, s: State)
    requires Announced(P, strict, s)
    ensures forall p | p in s.procs :: ProcAnnounces(P, strict, s.rows, s.procs[p])
  {}

  lemma StepMovesOne(P: Params, strict: bool, s: State, step: Step)
    requires Inv(P, s) && Announced(P, strict, s) && Enabled(P, s, step)
    requires !OfTheWorld(step)
    requires strict ==> FindsConfirmed(s, step)
    ensures OnlyMoves(P, strict, s, Apply(P, s, step), step.p)
  {
    hide Inv, OnlyMoves, ProcAnnounces, Announced, MayPropose, TapTodo, TapChecked, HasActive, HasAITransfer, Judged;
    hide TapConsumes, Fail, Claim, Closes, Inserts, Finishes, IsExhausted, IsStuck, Return, Without, Proposed;
    ItAnnounces(P, strict, s);
    match step
    case TapCas(p, t) => CasAnnounces(P, strict, s, p, t);
    case FailNext(p, t) => SweepMovesOne(P, strict, s, p, t);
    case ClaimNext(p, t) => SweepMovesOne(P, strict, s, p, t);
    case Conclude(p, t) => ClosingAnnounces(P, strict, s, p, t);
    case Insert(p, t, broken) => InsertAnnounces(P, strict, s, p, t, broken);
    case Finish(p, t) =>
      ExecRow(P, s, p);
      FinishAnnounces(P, strict, s, p, t);
    case TapLookup(_, _, _, _, _, _, _) => QuietMoves(P, strict, s, step);
    case TapCheck(_, _) => QuietMoves(P, strict, s, step);
    case SweepExhausted(_, _, _) => QuietMoves(P, strict, s, step);
    case SweepStuck(_, _, _) => QuietMoves(P, strict, s, step);
    case Send(_) => QuietMoves(P, strict, s, step);
    case Crash(_) => QuietMoves(P, strict, s, step);
    case _ => ExecMoves(P, strict, s, step);
  }

  lemma SweepMovesOne(P: Params, strict: bool, s: State, p: Pid, t: Time)
    requires p in s.procs && (s.procs[p].Failing? || s.procs[p].Claiming?)
    requires s.procs[p].list != [] && s.procs[p].list[0] in s.rows
    ensures s.procs[p].Failing? ==> OnlyMoves(P, strict, s, Fail(s, p, t), p)
    ensures s.procs[p].Claiming? ==> OnlyMoves(P, strict, s, Claim(P, s, p, t), p)
  {}

  lemma ToldByStep(P: Params, s: State, step: Step)
    requires Enabled(P, s, step)
    ensures
      Apply(P, s, step).told ==
        if step.Send? then s.told + [(s.procs[step.p].id, s.procs[step.p].text)] else s.told
  {
    hide MayPropose, HasActive, HasAITransfer, IsExhausted, IsStuck, TapTodo, Judged, Proposed;
  }

  ghost predicate ProcsAnnounce(P: Params, strict: bool, s: State) {
    forall p | p in s.procs :: ProcAnnounces(P, strict, s.rows, s.procs[p])
  }

  ghost predicate ToldAnnounces(P: Params, strict: bool, s: State) {
    forall k | 0 <= k < |s.told| :: s.told[k].0 in s.rows && Announces(P, strict, s.rows[s.told[k].0], s.told[k].1)
  }

  /** The processes after the step, all but one of which are as they were. */
  lemma ProcsAfter(P: Params, strict: bool, s: State, s': State, p: Pid)
    requires Announced(P, strict, s.(rows := s'.rows)) && OnlyMoves(P, strict, s, s', p)
    ensures ProcsAnnounce(P, strict, s')
  {
    hide ProcAnnounces;
    forall q | q in s'.procs ensures ProcAnnounces(P, strict, s'.rows, s'.procs[q]) {
      if q != p {
        assert ProcAnnounces(P, strict, s'.rows, s.procs[q]);
      }
    }
  }

  lemma ToldAfter(P: Params, strict: bool, s: State, s': State, step: Step)
    requires Announced(P, strict, s.(rows := s'.rows))
    requires s'.told == s.told || (step.Send? && step.p in s.procs && s.procs[step.p].Telling?
                                   && s'.told == s.told + [(s.procs[step.p].id, s.procs[step.p].text)])
    ensures ToldAnnounces(P, strict, s')
  {
    hide Announces;
    if s'.told != s.told {
      assert ProcAnnounces(P, strict, s'.rows, s.procs[step.p]);
    }
  }

  lemma StepKeepsAnnounced(P: Params, strict: bool, s: State, step: Step)
    requires Inv(P, s) && Announced(P, strict, s) && Enabled(P, s, step)
    requires strict ==> FindsConfirmed(s, step)
    ensures Announced(P, strict, Apply(P, s, step))
  {
    hide Inv, Apply, Enabled, Announced, OnlyMoves, ProcAnnounces, Announces, ToldAnnounces, ProcsAnnounce, RowsForward;
    var s' := Apply(P, s, step);
    StepGoesForward(P, s, step);
    ToldByStep(P, s, step);
    AnnouncedSurvives(P, strict, s, s'.rows);
    if OfTheWorld(step) {
      ProcsStay(P, s, step);
      SameProcs(P, strict, s, s');
    } else {
      StepMovesOne(P, strict, s, step);
      ProcsAfter(P, strict, s, s', step.p);
    }
    SenderTells(P, s, step);
    ToldAfter(P, strict, s, s', step);
    BothAnnounce(P, strict, s');
  }

  lemma ProcsStay(P: Params, s: State, step: Step)
    requires Enabled(P, s, step) && OfTheWorld(step)
    ensures Apply(P, s, step).procs == s.procs
  {
    hide MayPropose, HasActive, Proposed;
  }

  lemma SenderTells(P: Params, s: State, step: Step)
    requires Enabled(P, s, step)
    ensures step.Send? ==> step.p in s.procs && s.procs[step.p].Telling?
  {
    hide MayPropose, HasActive, IsExhausted, IsStuck;
  }

  lemma SameProcs(P: Params, strict: bool, s: State, s': State)
    requires Announced(P, strict, s.(rows := s'.rows)) && s'.procs == s.procs
    ensures ProcsAnnounce(P, strict, s')
  {}

  lemma BothAnnounce(P: Params, strict: bool, s: State)
    requires ProcsAnnounce(P, strict, s) && ToldAnnounces(P, strict, s)
    ensures Announced(P, strict, s)
  {
    hide ProcAnnounces, Announces;
  }

  /**
   What a customer was told agrees with the row, now and whenever the row is looked at later; only a
   row that the exhaustion sweep has failed may disagree.
   */
  lemma {:induction false} MessagesAnnounceTheStatus(P: Params, states: seq<State>, steps: seq<Step>, k: nat)
    requires ParamsOk(P) && IsRun(P, states, steps) && k < |states|
    ensures Announced(P, false, states[k])
  {
    hide Inv, Apply, Enabled;
    if k > 0 {
      MessagesAnnounceTheStatus(P, states, steps, k - 1);
      RunIsSafe(P, states, steps, k - 1);
      hide Announced;
      StepKeepsAnnounced(P, false, states[k - 1], steps[k - 1]);
    }
  }
}
