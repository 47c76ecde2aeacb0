/** Two runs in which the row that a confirmation ends in does not say what happened. */
module ConfirmationFindings {
  import opened Basics
  import opened Confirmations
  import opened ConfirmationProtocol
  import opened ConfirmationTheorems

  ghost predicate Reachable(P: Params, s: State) {
    exists states: seq<State>, steps: seq<Step> :: IsRun(P, states, steps) && states[|steps|] == s
  }

  /** One more step; the parts of the new state are compared one by one. */
  lemma Next(P: Params, s: State, step: Step, s': State)
    requires Reachable(P, s) && Enabled(P, s, step)
    requires var a := Apply(P, s, step);
             a.now == s'.now && a.rows == s'.rows && a.transfers == s'.transfers && a.procs == s'.procs && a.told == s'.told
    ensures Reachable(P, s')
  {
    hide Apply, Enabled;
    var states, steps :| IsRun(P, states, steps) && states[|steps|] == s;
    var states', steps' := states + [s'], steps + [step];
    forall k | 0 <= k < |steps'|
      ensures Enabled(P, states'[k], steps'[k]) && states'[k + 1] == Apply(P, states'[k], steps'[k])
    {
      if k < |steps| {
        assert Enabled(P, states[k], steps[k]);
      }
    }
    assert IsRun(P, states', steps');
  }

  lemma OnlyOneListed(list: seq<Id>)
    requires |list| == 1
    ensures list[1..] == []
  {}

  lemma Start(P: Params)
    ensures Reachable(P, State(0, map[], [], map[], []))
  {
    assert IsRun(P, [State(0, map[], [], map[], [])], []);
  }

  // ----- A proposal is confirmed by a tap -----

  /** One attempt of the reconciler, ten units after the last. */
  const ONE := Params(1000, 3, 100, 0, 10, 1)
  const CHAT := Key(0, 7, "request_agent_transfer")

  function Row0(): Row {
    NewRow(ONE, CHAT, 5, 9, 0)
  }

  function Row1(): Row {
    ConfirmedRow(Row0(), 7, 0)
  }

  function OneRow(now: Time, r: Row, procs: map<Pid, Proc>): State {
    State(now, map[0 := r], [], procs, [])
  }

  function TapExec(stage: Stage): Proc {
    Exec(0, stage, 0, 0, None)
  }

  lemma Tapping()
    ensures Reachable(ONE, OneRow(0, Row0(), map[0 := Tapped(0, Tap(0, 7, 5, 9, false), Check, 0)]))
  {
    Start(ONE);
    assert Recent(ONE, map[], CHAT, 0) == {};
    var s1 := OneRow(0, Row0(), map[]);
    Next(ONE, State(0, map[], [], map[], []), Propose(0, CHAT, 5, 9, 0), s1);
    var tap := Tap(0, 7, 5, 9, false);
    Next(ONE, s1, TapLookup(0, tap, 0, 0, true, false, true), OneRow(0, Row0(), map[0 := Tapped(0, tap, Check, 0)]));
  }

  lemma Opening()
    ensures Reachable(ONE, OneRow(0, Row1(), map[0 := TapExec(Ready)]))
  {
    Tapping();
    var tap := Tap(0, 7, 5, 9, false);
    hide Reachable;
    var s1 := OneRow(0, Row0(), map[0 := Tapped(0, tap, Check, 0)]);
    var s2 := OneRow(0, Row0(), map[0 := Tapped(0, tap, Consume, 0)]);
    Next(ONE, s1, TapCheck(0, true), s2);
    Next(ONE, s2, TapCas(0, 0), OneRow(0, Row1(), map[0 := TapExec(Ready)]));
  }

  // ----- A stale claim outlives the exhaustion sweep -----

  /** The tap's process dies; two reconcilers list the row, and one of them claims it and dies. */
  lemma TwoListTheRow()
    ensures Reachable(ONE, OneRow(11, Row1(), map[1 := Claiming([0], 11), 2 := Claiming([0], 11)]))
  {
    Opening();
    hide Reachable;
    var s1 := OneRow(0, Row1(), map[]);
    Next(ONE, OneRow(0, Row1(), map[0 := TapExec(Ready)]), Crash(0), s1);
    var s2 := OneRow(11, Row1(), map[]);
    Next(ONE, s1, Tick(11), s2);
    ListsTheRow(map[], 1);
    ListsTheRow(map[1 := Claiming([0], 11)], 2);
  }

  lemma ListsTheRow(procs: map<Pid, Proc>, p: Pid)
    requires Reachable(ONE, OneRow(11, Row1(), procs)) && p !in procs
    ensures Reachable(ONE, OneRow(11, Row1(), procs[p := Claiming([0], 11)]))
  {
    hide Reachable;
    var s1 := OneRow(11, Row1(), procs[p := Failing([], 11)]);
    Next(ONE, OneRow(11, Row1(), procs), SweepExhausted(p, [], 11), s1);
    Next(ONE, s1, SweepStuck(p, [0], 11), OneRow(11, Row1(), procs[p := Claiming([0], 11)]));
  }

  function Row2(): Row {
    Claimed(Row1(), 11)
  }

  lemma OneClaims()
    ensures Reachable(ONE, OneRow(11, Row2(), map[1 := Exec(0, Taken, 11, 11, Some([])), 2 := Claiming([0], 11)]))
  {
    TwoListTheRow();
    OnlyOneListed([0]);
    hide Reachable;
    var s1 := OneRow(11, Row1(), map[1 := Claiming([0], 11), 2 := Claiming([0], 11)]);
    Next(ONE, s1, ClaimNext(1, 11), OneRow(11, Row2(), map[1 := Exec(0, Taken, 11, 11, Some([])), 2 := Claiming([0], 11)]));
  }

  lemma OneDies()
    ensures Reachable(ONE, OneRow(22, Row2(), map[2 := Claiming([0], 11)]))
  {
    OneClaims();
    hide Reachable;
    var s2 := OneRow(11, Row2(), map[1 := Exec(0, Taken, 11, 11, Some([])), 2 := Claiming([0], 11)]);
    var s3 := OneRow(11, Row2(), map[2 := Claiming([0], 11)]);
    Next(ONE, s2, Crash(1), s3);
    Next(ONE, s3, Tick(22), OneRow(22, Row2(), map[2 := Claiming([0], 11)]));
  }

  function Row3(): Row {
    Claimed(Row2(), 22)
  }

  function Row4(): Row {
    Close(Row3(), Failed, 22)
  }

  function Sweeping(stage: Stage): Proc {
    Exec(0, stage, 22, 22, Some([]))
  }

  /** A sweep lists the row as exhausted; the other reconciler claims it for a second attempt and reads it. */
  lemma TheSweepListsIt()
    ensures Reachable(ONE, OneRow(22, Row2(), map[2 := Claiming([0], 11), 3 := Failing([0], 22)]))
  {
    OneDies();
    hide Reachable;
    Next(ONE, OneRow(22, Row2(), map[2 := Claiming([0], 11)]), SweepExhausted(3, [0], 22),
         OneRow(22, Row2(), map[2 := Claiming([0], 11), 3 := Failing([0], 22)]));
  }

  lemma TheOtherClaims()
    ensures Reachable(ONE, OneRow(22, Row3(), map[2 := Sweeping(Taken), 3 := Failing([0], 22)]))
  {
    TheSweepListsIt();
    OnlyOneListed([0]);
    hide Reachable;
    Next(ONE, OneRow(22, Row2(), map[2 := Claiming([0], 11), 3 := Failing([0], 22)]), ClaimNext(2, 22),
         OneRow(22, Row3(), map[2 := Sweeping(Taken), 3 := Failing([0], 22)]));
  }

  lemma TheOtherReads()
    ensures Reachable(ONE, OneRow(22, Row3(), map[2 := Sweeping(Read), 3 := Failing([0], 22)]))
  {
    TheOtherClaims();
    hide Reachable;
    Next(ONE, OneRow(22, Row3(), map[2 := Sweeping(Taken), 3 := Failing([0], 22)]), ReadRow(2),
         OneRow(22, Row3(), map[2 := Sweeping(Read), 3 := Failing([0], 22)]));
  }

  lemma TheSweepFailsIt()
    ensures Reachable(ONE, OneRow(22, Row4(), map[2 := Sweeping(Read), 3 := Failing([], 22)]))
  {
    TheOtherReads();
    OnlyOneListed([0]);
    hide Reachable;
    Next(ONE, OneRow(22, Row3(), map[2 := Sweeping(Read), 3 := Failing([0], 22)]), FailNext(3, 22),
         OneRow(22, Row4(), map[2 := Sweeping(Read), 3 := Failing([], 22)]));
  }

  lemma TheRowIsFailed()
    ensures Reachable(ONE, OneRow(22, Row4(), map[2 := Sweeping(Searching)]))
  {
    TheSweepFailsIt();
    hide Reachable;
    var s2 := OneRow(22, Row4(), map[2 := Sweeping(Read)]);
    Next(ONE, OneRow(22, Row4(), map[2 := Sweeping(Read), 3 := Failing([], 22)]), Crash(3), s2);
    Next(ONE, s2, Judge(2, 22, true, true), OneRow(22, Row4(), map[2 := Sweeping(Searching)]));
  }

  lemma TheToolIsClear()
    ensures Reachable(ONE, OneRow(22, Row4(), map[2 := Sweeping(Clear)]))
  {
    TheRowIsFailed();
    hide Reachable;
    var s1 := OneRow(22, Row4(), map[2 := Sweeping(Ready)]);
    Next(ONE, OneRow(22, Row4(), map[2 := Sweeping(Searching)]), Search(2), s1);
    var s2 := OneRow(22, Row4(), map[2 := Sweeping(Requested)]);
    Next(ONE, s1, Request(2), s2);
    Next(ONE, s2, CheckActive(2, true), OneRow(22, Row4(), map[2 := Sweeping(Clear)]));
  }

  function Made(t: Time): Transfer {
    Transfer(0, 7, AIConfirmed, t, true, Some(0))
  }

  /**
   ClaimReconcile does not look at the attempts again, and executeConfirmed not at who won Finish: a row
   may be failed as exhausted, with more attempts than allowed, while its transfer is made and the
   customer is told so.
   */
  lemma ExhaustedYetCarriedOut()
    ensures Reachable(ONE, State(22, map[0 := Row4()], [Made(22)], map[2 := Claiming([], 22)], [(0, CreatedText)]))
    ensures Row4().status == Failed && Row4().attempts > ONE.maxAttempts
  {
    TheToolIsClear();
    hide Reachable;
    var s1 := State(22, map[0 := Row4()], [Made(22)], map[2 := Sweeping(Ran(Created))], []);
    Next(ONE, OneRow(22, Row4(), map[2 := Sweeping(Clear)]), Insert(2, 22, false), s1);
    var s2 := State(22, map[0 := Row4()], [Made(22)], map[2 := Telling(0, CreatedText, 22, Some([]))], []);
    Next(ONE, s1, Finish(2, 22), s2);
    Next(ONE, s2, Send(2), State(22, map[0 := Row4()], [Made(22)], map[2 := Claiming([], 22)], [(0, CreatedText)]));
  }

  // ----- A denial after the fact -----

  /** The tap's execution makes the transfer and dies before it is recorded. */
  lemma MadeAndNotRecorded()
    ensures Reachable(ONE, State(0, map[0 := Row1()], [Made(0)], map[], []))
  {
    Opening();
    hide Reachable;
    var s1 := OneRow(0, Row1(), map[0 := TapExec(Requested)]);
    Next(ONE, OneRow(0, Row1(), map[0 := TapExec(Ready)]), Request(0), s1);
    var s2 := OneRow(0, Row1(), map[0 := TapExec(Clear)]);
    Next(ONE, s1, CheckActive(0, true), s2);
    MadeAndCrashed();
  }

  lemma MadeAndCrashed()
    requires Reachable(ONE, OneRow(0, Row1(), map[0 := TapExec(Clear)]))
    ensures Reachable(ONE, State(0, map[0 := Row1()], [Made(0)], map[], []))
  {
    hide Reachable;
    var s3 := State(0, map[0 := Row1()], [Made(0)], map[0 := TapExec(Ran(Created))], []);
    Next(ONE, OneRow(0, Row1(), map[0 := TapExec(Clear)]), Insert(0, 0, false), s3);
    Next(ONE, s3, Crash(0), State(0, map[0 := Row1()], [Made(0)], map[], []));
  }

  function MadeBefore(r: Row, c: Proc): State {
    State(11, map[0 := r], [Made(0)], map[1 := c], [])
  }

  lemma MadeAndListed()
    ensures Reachable(ONE, MadeBefore(Row1(), Claiming([0], 11)))
  {
    MadeAndNotRecorded();
    hide Reachable;
    var s0 := State(0, map[0 := Row1()], [Made(0)], map[], []);
    Next(ONE, s0, Tick(11), s0.(now := 11));
    Next(ONE, s0.(now := 11), SweepExhausted(1, [], 11), MadeBefore(Row1(), Failing([], 11)));
    Next(ONE, MadeBefore(Row1(), Failing([], 11)), SweepStuck(1, [0], 11), MadeBefore(Row1(), Claiming([0], 11)));
  }

  lemma MadeAndClaimed()
    ensures Reachable(ONE, MadeBefore(Row2(), Exec(0, Taken, 11, 11, Some([]))))
  {
    MadeAndListed();
    OnlyOneListed([0]);
    hide Reachable;
    Next(ONE, MadeBefore(Row1(), Claiming([0], 11)), ClaimNext(1, 11), MadeBefore(Row2(), Exec(0, Taken, 11, 11, Some([]))));
  }

  /**
   The reconciler asks whether the action is still authorized before it looks for what exists: a
   confirmation whose transfer was made may end as denied, and the customer is told so.
   */
  lemma DeniedYetCarriedOut()
    ensures Reachable(ONE, State(11, map[0 := Close(Row2(), Denied, 11)], [Made(0)], map[1 := Telling(0, DeniedText, 11, Some([]))], []))
  {
    MadeAndClaimed();
    hide Reachable;
    var s1 := MadeBefore(Row2(), Exec(0, Read, 11, 11, Some([])));
    Next(ONE, MadeBefore(Row2(), Exec(0, Taken, 11, 11, Some([]))), ReadRow(1), s1);
    var s2 := MadeBefore(Row2(), Exec(0, Closing(Denied, Some(DeniedText)), 11, 11, Some([])));
    Next(ONE, s1, Judge(1, 11, true, false), s2);
    Next(ONE, s2, Conclude(1, 11), MadeBefore(Close(Row2(), Denied, 11), Telling(0, DeniedText, 11, Some([]))));
  }

  // ----- No attempt is left to look -----

  lemma MadeAndAbandoned()
    ensures Reachable(ONE, State(22, map[0 := Row2()], [Made(0)], map[], []))
  {
    MadeAndClaimed();
    hide Reachable;
    var s1 := State(11, map[0 := Row2()], [Made(0)], map[], []);
    Next(ONE, MadeBefore(Row2(), Exec(0, Taken, 11, 11, Some([]))), Crash(1), s1);
    Next(ONE, s1, Tick(22), s1.(now := 22));
  }

  lemma MadeAndListedAgain()
    ensures Reachable(ONE, State(22, map[0 := Row2()], [Made(0)], map[2 := Failing([0], 22)], []))
  {
    MadeAndAbandoned();
    OnlyOneListed([0]);
    hide Reachable;
    Next(ONE, State(22, map[0 := Row2()], [Made(0)], map[], []), SweepExhausted(2, [0], 22),
         State(22, map[0 := Row2()], [Made(0)], map[2 := Failing([0], 22)], []));
  }

  /**
   The tap's execution makes the transfer and dies, the one attempt dies after its claim, and the next
   sweep fails the row without a search: no race, nothing refused, and well within the validity.
   */
  lemma FailedUnsearched()
    ensures
      var s := State(22, map[0 := Close(Row2(), Failed, 22)], [Made(0)], map[2 := Failing([], 22)], []);
      && Reachable(ONE, s) && HasAITransfer(s.transfers, s.rows[0])
      && s.rows[0].confirmedAt == Some(0) && s.now <= ONE.ttl && s.rows[0].attempts == ONE.maxAttempts
  {
    MadeAndListedAgain();
    OnlyOneListed([0]);
    hide Reachable;
    var s1 := State(22, map[0 := Row2()], [Made(0)], map[2 := Failing([0], 22)], []);
    Next(ONE, s1, FailNext(2, 22), State(22, map[0 := Close(Row2(), Failed, 22)], [Made(0)], map[2 := Failing([], 22)], []));
    assert MadeForSince(Made(0), Close(Row2(), Failed, 22));
    assert [Made(0)][0] == Made(0);
  }
}
