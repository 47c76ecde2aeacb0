/**
 What the goroutines of a call session bring about: each by itself, from its first section to its last,
 and all of them together once none is left. A flow that waits on a transfer is told how it ended, and a
 bridge that was taken is stopped.
 */
module SessionFlows {
  import opened Basics
  import opened Session

  // ----- One section -----

  /** The section is possible and leads to s'. */
  predicate Leads(s: State, step: Step, s': State) {
    Enabled(s, step) && s' == Apply(s, step)
  }

  lemma Comes(s: State, p: Pid)
    requires IsNew(s, p)
    ensures Leads(s, CleanUp(p), s.(procs := s.procs[p := Cleaning]))
    ensures s.alive ==> Leads(s, HangUp(p), s.(procs := s.procs[p := Looking]))
  {}

  lemma Finds(s: State, p: Pid, purpose: Purpose)
    requires IsNew(s, p) && s.alive && (s.named || purpose in {ToHold, ToMove})
    ensures Leads(s, Find(p, purpose), s.(procs := s.procs[p := Found(purpose)]))
  {}

  lemma Accepts(s: State, p: Pid)
    requires At(s, p, Found(ToAccept)) && OneWins(s) && s.status == Waiting
    ensures Leads(s, Accept(p), s.(status := Connected, wins := s.wins[|s.wins| - 1 := [AgentAccepted]], procs := s.procs[p := Connecting]))
  {
    assert s.wins[|s.wins| - 1] + [AgentAccepted] == [AgentAccepted];
  }

  lemma Connects(s: State, p: Pid)
    ensures At(s, p, Connecting) ==> Leads(s, WriteConnected(p), s.(status := Connected, procs := s.procs[p := Wiring]))
    ensures At(s, p, Wiring) ==>
              Leads(s, SetBridge(p), s.(bridges := s.bridges.(slot := Some(|s.bridges.uses|), uses := s.bridges.uses + [0]),
                                        procs := s.procs - {p}))
  {}

  lemma NobodyAnswers(s: State, p: Pid)
    requires IsNew(s, p) && OneWins(s) && s.status == Waiting
    ensures Leads(s, ClaimNoAnswer(p), s.(status := NoAnswer, wins := s.wins[|s.wins| - 1 := [NobodyAnswered]], procs := s.procs[p := Taking]))
  {
    assert s.wins[|s.wins| - 1] + [NobodyAnswered] == [NobodyAnswered];
  }

  lemma Ends(s: State, p: Pid)
    requires At(s, p, Found(ToEnd)) && s.status != Completed
    ensures Leads(s, End(p), s.(status := Completed, bridges := Take(s.bridges, p), procs := s.procs[p := Halting]))
  {
    hide Take;
  }

  lemma Halts(s: State, p: Pid)
    requires At(s, p, Halting)
    ensures Leads(s, Halt(p), s.(bridges := Use(s.bridges, p), procs := s.procs[p := Reading]))
  {
    hide Use;
  }

  lemma Reads(s: State, p: Pid, found: bool)
    requires At(s, p, Reading)
    ensures Leads(s, ReadRow(p, found), s.(procs := if found then s.procs[p := Taking] else s.procs - {p}))
  {}

  lemma TakesDone(s: State, p: Pid)
    requires At(s, p, Taking)
    ensures Leads(s, TakeDone(p), s.(dones := Take(s.dones, p), procs := s.procs[p := Delivering]))
  {
    hide Take;
  }

  lemma Delivers(s: State, p: Pid)
    requires At(s, p, Delivering)
    ensures p in s.dones.held ==> Leads(s, Deliver(p), s.(dones := Use(s.dones, p), procs := s.procs - {p}))
    ensures p !in s.dones.held ==> Leads(s, Deliver(p), s.(procs := s.procs[p := Cleaning]))
  {
    hide Use;
  }

  lemma Looks(s: State, p: Pid)
    requires At(s, p, Looking) && s.named && s.status == Waiting
    ensures Leads(s, Look(p), s.(procs := s.procs[p := Marking]))
  {}

  lemma Marks(s: State, p: Pid)
    requires At(s, p, Marking)
    ensures Leads(s, Mark(p), s.(status := Abandoned, procs := s.procs[p := Taking]))
  {}

  lemma Leaves(s: State, p: Pid)
    requires At(s, p, Cleaning) && s.alive
    ensures s.status != Waiting ==> Leads(s, CheckAlive(p), s.(alive := false, procs := s.procs[p := Removing]))
    ensures s.status == Waiting ==> Leads(s, CheckAlive(p), s.(procs := s.procs[p := Looking]))
  {}

  lemma Removes(s: State, p: Pid)
    requires At(s, p, Removing)
    ensures Leads(s, Remove(p), s.(status := if s.named && s.status == Waiting then Abandoned else s.status,
                                   bridges := Take(s.bridges, p), dones := Take(s.dones, p), procs := s.procs[p := Closing]))
  {
    hide Take;
  }

  lemma Closes(s: State, p: Pid)
    requires At(s, p, Closing)
    ensures Leads(s, Close(p), s.(bridges := Use(s.bridges, p), dones := Use(s.dones, p), procs := s.procs - {p}))
  {
    hide Use;
  }

  lemma Holds(s: State, p: Pid)
    requires At(s, p, Found(ToHold)) && s.bridges.slot.Some?
    ensures Leads(s, Hold(p), s.(bridges := Take(s.bridges, p), procs := s.procs[p := Stopping]))
  {
    hide Take;
  }

  lemma Moves(s: State, p: Pid)
    requires At(s, p, Found(ToMove)) && s.status != Waiting
    ensures Leads(s, Reassign(p), s.(named := false, status := Waiting, wins := s.wins + [[]], bridges := Take(s.bridges, p),
                                     procs := s.procs[p := Moving]))
  {
    hide Take;
  }

  lemma Stops(s: State, p: Pid)
    requires At(s, p, Stopping) || At(s, p, Moving)
    ensures Leads(s, Stop(p), s.(bridges := Use(s.bridges, p), procs := if At(s, p, Moving) then s.procs[p := Naming] else s.procs - {p}))
  {
    hide Use;
  }

  lemma Names(s: State, p: Pid)
    requires At(s, p, Naming)
    ensures Leads(s, Name(p), s.(named := true, procs := s.procs - {p}))
  {}

  /** Who comes too late changes nothing and goes. */
  lemma ComesTooLate(s: State, p: Pid)
    ensures s.status != Waiting ==> Apply(s, Accept(p)) == s.(procs := s.procs - {p})
    ensures s.status == Completed ==> Apply(s, End(p)) == s.(procs := s.procs - {p})
    ensures s.status != Waiting || !s.named ==> Apply(s, Look(p)) == s.(procs := s.procs - {p})
  {
    hide Take, Use, Won, Wait;
  }

  lemma FindsNothing(s: State, p: Pid)
    ensures !s.alive && s.status != Waiting ==> Apply(s, CheckAlive(p)) == s.(procs := s.procs - {p})
    ensures s.bridges.slot.None? ==> Apply(s, Hold(p)) == s.(procs := s.procs - {p})
    ensures s.status == Waiting ==> Apply(s, Reassign(p)) == s.(procs := s.procs - {p})
  {
    hide Take, Use, Won, Wait;
  }

  // ----- One goroutine by itself: its sections one after another, with none of another between them -----

  /** A pool whose field was emptied, and what was in it used once. */
  function Emptied(p: Pool): Pool
    requires p.slot.Some? ==> p.slot.value < |p.uses|
  {
    if p.slot.None? then p else p.(slot := None, uses := p.uses[p.slot.value := 1])
  }

  lemma TakenAndUsed(p: Pool, who: Pid)
    requires TakenOnce(p) && who !in p.held
    ensures Use(Take(p, who), who) == Emptied(p)
    ensures p.slot.Some? <==> who in Take(p, who).held
    ensures p.slot.None? ==> Take(p, who) == p
  {
    if p.slot.Some? {
      var t := Take(p, who);
      assert t.held - {who} == p.held;
      assert t.held[who] == p.slot.value && t.uses == p.uses;
    }
  }

  lemma HoldsNothing(s: State, p: Pid)
    requires Inv(s) && p in s.procs && s.procs[p] !in {Delivering, Closing, Halting, Stopping, Moving}
    ensures p !in s.dones.held && p !in s.bridges.held
  {
    hide TakenOnce, OneWins;
  }

  /** The channel is taken, and whoever waits on it is told, once. */
  lemma TellingAlone(s: State, p: Pid, c: nat) returns (s': State)
    requires At(s, p, Taking) && TakenOnce(s.dones) && p !in s.dones.held && s.dones.slot == Some(c)
    ensures Leads(s, TakeDone(p), s') && s'.procs == s.procs[p := Delivering]
    ensures Leads(s', Deliver(p), s.(dones := s.dones.(slot := None, uses := s.dones.uses[c := 1]), procs := s.procs - {p}))
  {
    TakenAndUsed(s.dones, p);
    hide Leads, TakenOnce, Use, Take;
    s' := s.(dones := Take(s.dones, p), procs := s.procs[p := Delivering]);
    TakesDone(s, p);
    Delivers(s', p);
    assert s'.procs - {p} == s.procs - {p};
  }

  /** Or nobody waits, and it goes on to clean up. */
  lemma NobodyToTell(s: State, p: Pid) returns (s': State)
    requires At(s, p, Taking) && TakenOnce(s.dones) && p !in s.dones.held && s.dones.slot == None
    ensures Leads(s, TakeDone(p), s') && Leads(s', Deliver(p), s.(procs := s.procs[p := Cleaning]))
  {
    TakenAndUsed(s.dones, p);
    hide Leads, TakenOnce, Use, Take;
    s' := s.(procs := s.procs[p := Delivering]);
    TakesDone(s, p);
    Delivers(s', p);
    assert s'.procs[p := Cleaning] == s.procs[p := Cleaning];
  }

  /** The transfer is ended, the bridge stopped, and the row of the transfer about to be read. */
  lemma HaltingAlone(s: State, p: Pid) returns (s1: State, s2: State)
    requires Inv(s) && At(s, p, Found(ToEnd)) && s.status != Completed
    ensures Leads(s, End(p), s1) && Leads(s1, Halt(p), s2)
    ensures s2 == s.(status := Completed, bridges := Emptied(s.bridges), procs := s.procs[p := Reading])
  {
    HoldsNothing(s, p);
    TakenAndUsed(s.bridges, p);
    hide Leads, Inv, Use, Take, Emptied;
    s1 := s.(status := Completed, bridges := Take(s.bridges, p), procs := s.procs[p := Halting]);
    Ends(s, p);
    Halts(s1, p);
    s2 := s.(status := Completed, bridges := Emptied(s.bridges), procs := s.procs[p := Reading]);
    assert s1.procs[p := Reading] == s.procs[p := Reading];
  }

  lemma ReadingAlone(s: State, p: Pid, c: nat) returns (s1: State, s2: State, s3: State)
    requires At(s, p, Reading) && TakenOnce(s.dones) && p !in s.dones.held && s.dones.slot == Some(c)
    ensures Leads(s, ReadRow(p, true), s1) && Leads(s1, TakeDone(p), s2) && Leads(s2, Deliver(p), s3)
    ensures s3 == s.(dones := s.dones.(slot := None, uses := s.dones.uses[c := 1]), procs := s.procs - {p})
  {
    assert c < |s.dones.uses|;
    hide Leads, TakenOnce;
    Reads(s, p, true);
    s1 := s.(procs := s.procs[p := Taking]);
    s2 := TellingAlone(s1, p, c);
    s3 := s.(dones := s.dones.(slot := None, uses := s.dones.uses[c := 1]), procs := s.procs - {p});
    assert s1.procs - {p} == s.procs - {p};
  }

  /**
   Whoever finds a transfer that is not completed ends it: the bridge is stopped, and the transfer's row
   being found the flow that waits is told.
   */
  lemma EndingAlone(s: State, p: Pid, c: nat) returns (s1: State, s2: State, s3: State, s4: State, s5: State)
    requires Inv(s) && At(s, p, Found(ToEnd)) && s.status != Completed && s.dones.slot == Some(c)
    ensures Leads(s, End(p), s1) && Leads(s1, Halt(p), s2) && Leads(s2, ReadRow(p, true), s3)
    ensures Leads(s3, TakeDone(p), s4) && Leads(s4, Deliver(p), s5)
    ensures s5.status == Completed && s5.dones.slot == None && s5.dones.uses == s.dones.uses[c := 1]
    ensures s5 == s.(status := Completed, bridges := Emptied(s.bridges), procs := s.procs - {p},
                     dones := s.dones.(slot := None, uses := s.dones.uses[c := 1]))
  {
    HoldsNothing(s, p);
    s1, s2 := HaltingAlone(s, p);
    assert c < |s.dones.uses| && TakenOnce(s.dones);
    hide Leads, Inv, TakenOnce, Emptied;
    s3, s4, s5 := ReadingAlone(s2, p, c);
    assert s2.procs - {p} == s.procs - {p};
  }

  /** If the row is not found nobody is told: the channel stays, and nobody is on the way to take it. */
  lemma EndingUnread(s: State, p: Pid, c: nat) returns (s1: State, s2: State, s3: State)
    requires Inv(s) && At(s, p, Found(ToEnd)) && s.status != Completed && s.dones.slot == Some(c)
    ensures Leads(s, End(p), s1) && Leads(s1, Halt(p), s2) && Leads(s2, ReadRow(p, false), s3)
    ensures s3 == s.(status := Completed, bridges := Emptied(s.bridges), procs := s.procs - {p})
    ensures s3.dones.slot == Some(c) && s3.dones.uses[c] == 0
  {
    s1, s2 := HaltingAlone(s, p);
    assert c < |s.dones.uses| && s.dones.uses[c] == 0;
    hide Leads, Inv, Emptied;
    Reads(s2, p, false);
    s3 := s2.(procs := s2.procs - {p});
    assert s2.procs - {p} == s.procs - {p};
  }

  /** A transfer nobody accepted in time: the flow that waits is told. */
  lemma NoAnswerAlone(s: State, p: Pid, c: nat) returns (s1: State, s2: State, s3: State)
    requires Inv(s) && IsNew(s, p) && s.status == Waiting && s.dones.slot == Some(c)
    ensures Leads(s, ClaimNoAnswer(p), s1) && Leads(s1, TakeDone(p), s2) && Leads(s2, Deliver(p), s3)
    ensures s3 == s.(status := NoAnswer, wins := s.wins[|s.wins| - 1 := [NobodyAnswered]],
                     dones := s.dones.(slot := None, uses := s.dones.uses[c := 1]))
  {
    NobodyAnswers(s, p);
    assert c < |s.dones.uses| && TakenOnce(s.dones) && s.wins != [];
    hide Leads, Inv, TakenOnce;
    s1 := s.(status := NoAnswer, wins := s.wins[|s.wins| - 1 := [NobodyAnswered]], procs := s.procs[p := Taking]);
    s2 := TellingAlone(s1, p, c);
    s3 := s1.(dones := s.dones.(slot := None, uses := s.dones.uses[c := 1]), procs := s.procs);
    assert s1.procs - {p} == s.procs;
  }

  lemma MarkingAlone(s: State, p: Pid) returns (s1: State, s2: State, s3: State)
    requires IsNew(s, p) && s.alive && s.named && s.status == Waiting
    ensures Leads(s, HangUp(p), s1) && Leads(s1, Look(p), s2) && Leads(s2, Mark(p), s3)
    ensures s3 == s.(status := Abandoned, procs := s.procs[p := Taking])
  {
    Comes(s, p);
    hide Leads, IsNew;
    s1 := s.(procs := s.procs[p := Looking]);
    Looks(s1, p);
    s2 := s1.(procs := s1.procs[p := Marking]);
    Marks(s2, p);
    s3 := s2.(status := Abandoned, procs := s2.procs[p := Taking]);
    assert s3.procs == s.procs[p := Taking];
  }

  /** A caller who hangs up while the transfer waits: it is abandoned, and the flow that waits is told. */
  lemma HangupAlone(s: State, p: Pid, c: nat) returns (s1: State, s2: State, s3: State, s4: State, s5: State)
    requires Inv(s) && IsNew(s, p) && s.alive && s.named && s.status == Waiting && s.dones.slot == Some(c)
    ensures Leads(s, HangUp(p), s1) && Leads(s1, Look(p), s2) && Leads(s2, Mark(p), s3)
    ensures Leads(s3, TakeDone(p), s4) && Leads(s4, Deliver(p), s5)
    ensures s5 == s.(status := Abandoned, dones := s.dones.(slot := None, uses := s.dones.uses[c := 1]))
  {
    s1, s2, s3 := MarkingAlone(s, p);
    assert c < |s.dones.uses| && TakenOnce(s.dones) && p !in s.procs && p !in s.dones.held;
    hide Leads, Inv, TakenOnce, IsNew;
    s4 := TellingAlone(s3, p, c);
    s5 := s3.(dones := s.dones.(slot := None, uses := s.dones.uses[c := 1]), procs := s.procs);
    assert s3.procs - {p} == s.procs;
  }

  /** Cleaning up a session that does not wait: it leaves the table, and what it had is closed and stopped. */
  lemma CleanUpAlone(s: State, p: Pid) returns (s1: State, s2: State, s3: State, s4: State)
    requires Inv(s) && IsNew(s, p) && s.alive && s.status != Waiting
    ensures Leads(s, CleanUp(p), s1) && Leads(s1, CheckAlive(p), s2) && Leads(s2, Remove(p), s3) && Leads(s3, Close(p), s4)
    ensures s4 == s.(alive := false, dones := Emptied(s.dones), bridges := Emptied(s.bridges))
  {
    Comes(s, p);
    TakenAndUsed(s.dones, p);
    TakenAndUsed(s.bridges, p);
    assert p !in s.procs;
    hide Leads, Inv, TakenOnce, IsNew, Use, Take, Emptied;
    s1 := s.(procs := s.procs[p := Cleaning]);
    Leaves(s1, p);
    s2 := s1.(alive := false, procs := s1.procs[p := Removing]);
    Removes(s2, p);
    s3 := s2.(dones := Take(s.dones, p), bridges := Take(s.bridges, p), procs := s2.procs[p := Closing]);
    Closes(s3, p);
    s4 := s.(alive := false, dones := Emptied(s.dones), bridges := Emptied(s.bridges));
    assert s3.procs - {p} == s.procs;
  }

  /** An agent who finds a waiting transfer gets it, and is connected by a bridge of its own. */
  lemma AcceptingAlone(s: State, p: Pid) returns (s1: State, s2: State, s3: State, s4: State)
    requires Inv(s) && IsNew(s, p) && s.alive && s.named && s.status == Waiting
    ensures Leads(s, Find(p, ToAccept), s1) && Leads(s1, Accept(p), s2) && Leads(s2, WriteConnected(p), s3) && Leads(s3, SetBridge(p), s4)
    ensures s4 == s.(status := Connected, wins := s.wins[|s.wins| - 1 := [AgentAccepted]],
                     bridges := s.bridges.(slot := Some(|s.bridges.uses|), uses := s.bridges.uses + [0]))
  {
    Finds(s, p, ToAccept);
    assert p !in s.procs && OneWins(s) && s.wins != [];
    hide Leads, Inv, IsNew;
    s1 := s.(procs := s.procs[p := Found(ToAccept)]);
    Accepts(s1, p);
    hide OneWins;
    s2 := s1.(status := Connected, wins := s.wins[|s.wins| - 1 := [AgentAccepted]], procs := s1.procs[p := Connecting]);
    Connects(s2, p);
    s3 := s2.(status := Connected, procs := s2.procs[p := Wiring]);
    Connects(s3, p);
    assert s3.procs - {p} == s.procs;
    s4 := s2.(bridges := s.bridges.(slot := Some(|s.bridges.uses|), uses := s.bridges.uses + [0]), procs := s.procs);
  }

  /** A call put on hold loses its bridge. */
  lemma HoldingAlone(s: State, p: Pid) returns (s1: State, s2: State, s3: State)
    requires Inv(s) && IsNew(s, p) && s.alive && s.bridges.slot.Some?
    ensures Leads(s, Find(p, ToHold), s1) && Leads(s1, Hold(p), s2) && Leads(s2, Stop(p), s3)
    ensures s3 == s.(bridges := Emptied(s.bridges))
  {
    Finds(s, p, ToHold);
    TakenAndUsed(s.bridges, p);
    assert p !in s.procs;
    hide Leads, Inv, TakenOnce, IsNew, Use, Take, Emptied;
    s1 := s.(procs := s.procs[p := Found(ToHold)]);
    Holds(s1, p);
    s2 := s1.(bridges := Take(s.bridges, p), procs := s1.procs[p := Stopping]);
    Stops(s2, p);
    assert s2.procs - {p} == s.procs;
    s3 := s.(bridges := Emptied(s.bridges));
  }

  lemma MovesAndNames(s: State, p: Pid) returns (s1: State, s2: State, s3: State)
    requires TakenOnce(s.bridges) && p !in s.bridges.held && At(s, p, Found(ToMove)) && s.status != Waiting
    ensures Leads(s, Reassign(p), s1) && Leads(s1, Stop(p), s2) && Leads(s2, Name(p), s3)
    ensures s3 == s.(named := true, status := Waiting, wins := s.wins + [[]], bridges := Emptied(s.bridges), procs := s.procs - {p})
  {
    TakenAndUsed(s.bridges, p);
    hide Leads, TakenOnce, Use, Take, Emptied;
    Moves(s, p);
    s1 := s.(named := false, status := Waiting, wins := s.wins + [[]], bridges := Take(s.bridges, p), procs := s.procs[p := Moving]);
    Stops(s1, p);
    s2 := s1.(bridges := Emptied(s.bridges), procs := s1.procs[p := Naming]);
    Names(s2, p);
    assert s2.procs - {p} == s.procs - {p};
    s3 := s2.(named := true, procs := s.procs - {p});
  }

  /** An agent who hands the caller on: the bridge is stopped, and the caller waits for another. */
  lemma MovingAlone(s: State, p: Pid) returns (s1: State, s2: State, s3: State, s4: State)
    requires Inv(s) && IsNew(s, p) && s.alive && s.status != Waiting
    ensures Leads(s, Find(p, ToMove), s1) && Leads(s1, Reassign(p), s2) && Leads(s2, Stop(p), s3) && Leads(s3, Name(p), s4)
    ensures s4 == s.(named := true, status := Waiting, wins := s.wins + [[]], bridges := Emptied(s.bridges))
  {
    Finds(s, p, ToMove);
    assert TakenOnce(s.bridges) && p !in s.procs && p !in s.bridges.held;
    hide Leads, Inv, IsNew, TakenOnce, Emptied;
    s1 := s.(procs := s.procs[p := Found(ToMove)]);
    s2, s3, s4 := MovesAndNames(s1, p);
    assert s1.procs - {p} == s.procs;
  }

  // ----- All of them, in any interleaving -----

  /** Somebody has it, or it was used. */
  ghost predicate InHand(p: Pool, c: nat) {
    c < |p.uses| && (p.uses[c] == 1 || exists q :: q in p.held && p.held[q] == c)
  }

  lemma StaysInHand(p: Pool, who: Pid, c: nat)
    requires TakenOnce(p) && InHand(p, c)
    ensures InHand(PutFresh(p), c) && InHand(Use(p, who), c)
    ensures who !in p.held ==> InHand(Take(p, who), c)
  {
    if p.uses[c] != 1 {
      var q :| q in p.held && p.held[q] == c;
      assert q in PutFresh(p).held;
      if q == who {
        assert Use(p, who).uses[c] == 1;
      } else {
        assert q in Use(p, who).held && Use(p, who).held[q] == c;
        if who !in p.held && p.slot.Some? {
          assert q in Take(p, who).held && Take(p, who).held[q] == c;
        }
      }
    }
  }

  lemma TakeIsInHand(p: Pool, who: Pid, c: nat)
    requires TakenOnce(p) && who !in p.held && p.slot == Some(c)
    ensures InHand(Take(p, who), c)
  {
    assert who in Take(p, who).held && Take(p, who).held[who] == c;
  }

  lemma HandsStay(s: State, step: Step, c: nat)
    requires Inv(s) && Enabled(s, step)
    ensures InHand(s.dones, c) ==> InHand(Apply(s, step).dones, c)
    ensures InHand(s.bridges, c) ==> InHand(Apply(s, step).bridges, c)
  {
    var p := Actor(step);
    DonesChange(s, step);
    BridgesChange(s, step);
    TakerHasNone(s, step);
    hide InHand, TakenOnce, OneWins, HoldersOk, PutFresh, Take, Use, Apply, Enabled;
    if InHand(s.dones, c) {
      StaysInHand(s.dones, p, c);
    }
    if InHand(s.bridges, c) {
      StaysInHand(s.bridges, p, c);
    }
  }

  lemma {:induction false} HandsStayOverPaths(states: seq<State>, steps: seq<Step>, k: nat, m: nat, c: nat)
    requires IsPath(states, steps, false) && Inv(states[0]) && k <= m < |states|
    ensures InHand(states[k].dones, c) ==> InHand(states[m].dones, c)
    ensures InHand(states[k].bridges, c) ==> InHand(states[m].bridges, c)
    decreases m - k
  {
    hide Apply, Enabled, Inv, InHand;
    if k < m {
      var s, s' := states[k], states[k + 1];
      PathIsSafe(states, steps, false, k);
      assert Enabled(s, steps[k]) && s' == Apply(s, steps[k]);
      HandsStay(s, steps[k], c);
      HandsStayOverPaths(states, steps, k + 1, m, c);
    }
  }

  /** With no goroutine left nobody has anything. */
  lemma NobodyHasIt(s: State, c: nat)
    requires Inv(s) && s.procs == map[]
    ensures InHand(s.dones, c) ==> s.dones.uses[c] == 1
    ensures InHand(s.bridges, c) ==> s.bridges.uses[c] == 1
  {
    hide TakenOnce, OneWins;
  }

  /** The sections that take the bridge from the session. */
  predicate TakesBridge(s: State, step: Step) {
    || (step.End? && s.status != Completed)
    || (step.Reassign? && s.status != Waiting)
    || step.Hold?
    || step.Remove?
  }

  lemma TakerGetsBridge(s: State, step: Step, b: nat)
    requires Inv(s) && Enabled(s, step) && TakesBridge(s, step) && s.bridges.slot == Some(b)
    ensures InHand(Apply(s, step).bridges, b)
  {
    TakerHasNone(s, step);
    TakeIsInHand(s.bridges, step.p, b);
    assert Change(s, step).bridges == Take(s.bridges, step.p) by {
      hide Inv, InHand, Take, Use;
    }
    ChangeOnly(s, step);
    hide Inv, InHand, Take, Use, Apply, Change, Enabled;
  }

  /**
   However the goroutines interleave, the bridge of a session that is ended, handed on, held, or removed has
   been stopped, once, by the time that none of them is left.
   */
  lemma TakenBridgeIsStopped(states: seq<State>, steps: seq<Step>, k: nat, b: nat)
    requires IsPath(states, steps, false) && Inv(states[0]) && states[|steps|].procs == map[]
    requires k < |steps| && TakesBridge(states[k], steps[k]) && states[k].bridges.slot == Some(b)
    ensures b < |states[|steps|].bridges.uses| && states[|steps|].bridges.uses[b] == 1
  {
    var s, s' := states[k], states[k + 1];
    assert Enabled(s, steps[k]) && s' == Apply(s, steps[k]);
    PathIsSafe(states, steps, false, k);
    PathIsSafe(states, steps, false, |steps|);
    hide IsPath, Apply, Enabled, Inv, TakesBridge;
    TakerGetsBridge(s, steps[k], b);
    HandsStayOverPaths(states, steps, k + 1, |steps|, b);
    NobodyHasIt(states[|steps|], b);
  }

  /** On the way to take the channel, whatever others do. */
  predicate WillTell(pc: Pc) {
    pc in {Halting, Reading, Taking, Removing}
  }

  /** The channel has had its outcome, or somebody has it, or it is in the field and somebody will take it. */
  ghost predicate Owed(s: State, c: nat) {
    InHand(s.dones, c) || (s.dones.slot == Some(c) && exists q :: q in s.procs && WillTell(s.procs[q]))
  }

  /** The sections after which whoever ran them goes on to take the channel. */
  predicate Settles(s: State, step: Step) {
    || (step.End? && s.status != Completed)
    || (step.CheckAlive? && s.alive && s.status != Waiting)
    || step.ClaimNoAnswer?
    || step.Mark?
  }

  /** What a section does to the channels when no flow puts a new one in the field. */
  lemma DonesOnlyTaken(s: State, step: Step)
    requires Enabled(s, step) && !step.NewDone?
    ensures
      var p, d, d' := Actor(step), s.dones, Apply(s, step).dones;
      d' == d || d' == Use(d, p) || ((step.TakeDone? || step.Remove?) && d' == Take(d, p))
  {
    hide PutFresh, Take, Use, At, IsNew;
  }

  lemma SettlingIsOwed(s: State, step: Step, c: nat)
    requires Inv(s) && Enabled(s, step) && Settles(s, step) && s.dones.slot == Some(c)
    ensures Owed(Apply(s, step), c)
  {
    ActorGoesOn(s, step);
    ChangeOnly(s, step);
    assert Next(s, step).Some? && WillTell(Next(s, step).value) && Change(s, step).dones == s.dones by {
      hide Inv, Owed, Take, Use;
    }
    hide Inv, Apply, Enabled, Change, Next, Settles, WillTell, InHand;
    assert step.p in Apply(s, step).procs && WillTell(Apply(s, step).procs[step.p]);
  }

  /** Whoever is on the way goes on, or takes the channel. */
  lemma TellerGoesOn(s: State, step: Step, c: nat)
    requires Inv(s) && Enabled(s, step) && HasActor(step) && step.p in s.procs && WillTell(s.procs[step.p])
    requires s.dones.slot == Some(c) && (step.ReadRow? ==> step.found)
    ensures Owed(Apply(s, step), c)
  {
    ActorGoesOn(s, step);
    ChangeOnly(s, step);
    TakerHasNone(s, step);
    if step.TakeDone? || step.Remove? {
      TakeIsInHand(s.dones, step.p, c);
      assert Change(s, step).dones == Take(s.dones, step.p) by {
        hide Inv, Owed, Take, Use;
      }
      hide Inv, Apply, Enabled, Change, Next, WillTell, InHand, Take;
    } else {
      assert Next(s, step).Some? && WillTell(Next(s, step).value) && Change(s, step).dones == s.dones by {
        hide Inv, Owed, Take, Use;
      }
      hide Inv, Apply, Enabled, Change, Next, WillTell, InHand;
      assert step.p in Apply(s, step).procs && WillTell(Apply(s, step).procs[step.p]);
    }
  }

  lemma OthersLeaveIt(s: State, step: Step, q: Pid, c: nat)
    requires Inv(s) && Enabled(s, step) && !step.NewDone? && s.dones.slot == Some(c)
    requires q in s.procs && WillTell(s.procs[q]) && (HasActor(step) ==> step.p != q)
    ensures Owed(Apply(s, step), c)
  {
    var p, s' := Actor(step), Apply(s, step);
    DonesOnlyTaken(s, step);
    TakerHasNone(s, step);
    StepMovesOne(s, step);
    ChangeOnly(s, step);
    if s'.dones == Take(s.dones, p) && (step.TakeDone? || step.Remove?) {
      TakeIsInHand(s.dones, p, c);
    } else {
      assert s'.dones.slot == Some(c);
      hide Inv, Apply, Enabled, WillTell, InHand, Take, Use;
      assert q in s'.procs && s'.procs[q] == s.procs[q] by {
        if HasActor(step) {
          assert q in (s.procs - {p}) && (s'.procs - {p})[q] == (s.procs - {p})[q];
        }
      }
    }
  }

  /** The debt stays, unless another flow puts its own channel in the field or the row is not found. */
  lemma OwedStays(s: State, step: Step, c: nat)
    requires Inv(s) && Enabled(s, step) && Owed(s, c)
    requires step.NewDone? ==> s.dones.slot != Some(c)
    requires step.ReadRow? ==> step.found
    ensures Owed(Apply(s, step), c)
  {
    HandsStay(s, step, c);
    hide InHand, Inv, Apply, Enabled, WillTell;
    if !InHand(s.dones, c) {
      var q :| q in s.procs && WillTell(s.procs[q]);
      hide Owed;
      if HasActor(step) && step.p == q {
        TellerGoesOn(s, step, c);
      } else {
        OthersLeaveIt(s, step, q, c);
      }
    }
  }

  lemma {:induction false} OwedStaysOverPaths(states: seq<State>, steps: seq<Step>, k: nat, m: nat, c: nat)
    requires IsPath(states, steps, false) && Inv(states[0]) && k <= m < |states| && Owed(states[k], c)
    requires forall j | k <= j < m :: steps[j].NewDone? ==> states[j].dones.slot != Some(c)
    requires forall j | k <= j < m :: steps[j].ReadRow? ==> steps[j].found
    ensures Owed(states[m], c)
    decreases m - k
  {
    hide Apply, Enabled, Inv, Owed;
    if k < m {
      var s, s' := states[k], states[k + 1];
      PathIsSafe(states, steps, false, k);
      assert Enabled(s, steps[k]) && s' == Apply(s, steps[k]);
      OwedStays(s, steps[k], c);
      OwedStaysOverPaths(states, steps, k + 1, m, c);
    }
  }

  /**
   However the goroutines interleave: a flow whose channel is in the field when the transfer is ended, not
   answered, abandoned, or its session removed, has been told, once, by the time that no goroutine is left;
   unless another flow replaced its channel, or the row of an ended transfer was not found.
   */
  lemma WaitingFlowIsTold(states: seq<State>, steps: seq<Step>, k: nat, c: nat)
    requires IsPath(states, steps, false) && Inv(states[0]) && states[|steps|].procs == map[]
    requires k < |steps| && Settles(states[k], steps[k]) && states[k].dones.slot == Some(c)
    requires forall j | k < j < |steps| :: steps[j].NewDone? ==> states[j].dones.slot != Some(c)
    requires forall j | k < j < |steps| :: steps[j].ReadRow? ==> steps[j].found
    ensures c < |states[|steps|].dones.uses| && states[|steps|].dones.uses[c] == 1
  {
    var s, s' := states[k], states[k + 1];
    assert Enabled(s, steps[k]) && s' == Apply(s, steps[k]);
    PathIsSafe(states, steps, false, k);
    PathIsSafe(states, steps, false, |steps|);
    hide IsPath, Apply, Enabled, Inv, Settles, WillTell, InHand;
    SettlingIsOwed(s, steps[k], c);
    OwedStaysOverPaths(states, steps, k + 1, |steps|, c);
    NobodyHasIt(states[|steps|], c);
  }

  // ----- They can always all come to an end -----

  /** The next section of a goroutine, the row of an ended transfer being found. */
  function Own(s: State, p: Pid): Step
    requires p in s.procs
  {
    match s.procs[p]
    case Found(ToAccept) => Accept(p)
    case Found(ToEnd) => End(p)
    case Found(ToHold) => Hold(p)
    case Found(ToMove) => Reassign(p)
    case Looking => Look(p)
    case Marking => Mark(p)
    case Connecting => WriteConnected(p)
    case Wiring => SetBridge(p)
    case Halting => Halt(p)
    case Reading => ReadRow(p, true)
    case Taking => TakeDone(p)
    case Delivering => Deliver(p)
    case Cleaning => CheckAlive(p)
    case Removing => Remove(p)
    case Closing => Close(p)
    case Stopping => Stop(p)
    case Moving => Stop(p)
    case Naming => Name(p)
  }

  /** How many sections a goroutine has before it at most; cleaning up a session that waits hangs up first. */
  function Ahead(pc: Pc, waiting: bool): nat {
    match pc
    case Found(ToAccept) => 3
    case Found(ToEnd) => 8
    case Found(ToHold) => 2
    case Found(ToMove) => 3
    case Looking => 7
    case Marking => 6
    case Connecting => 2
    case Wiring => 1
    case Halting => if waiting then 12 else 7
    case Reading => if waiting then 11 else 6
    case Taking => if waiting then 10 else 5
    case Delivering => if waiting then 9 else 4
    case Cleaning => if waiting then 8 else 3
    case Removing => 2
    case Closing => 1
    case Stopping => 1
    case Moving => 2
    case Naming => 1
  }

  lemma OwnIsPossible(s: State, p: Pid)
    requires p in s.procs
    ensures var step := Own(s, p); HasActor(step) && step.p == p && Enabled(s, step) && (step.ReadRow? ==> step.found)
  {}

  predicate OnTheWayOut(pc: Pc) {
    pc in {Looking, Marking, Halting, Reading, Taking, Delivering, Cleaning, Removing, Closing}
  }

  lemma FewerAheadOnTheWayOut(s: State, p: Pid)
    requires p in s.procs && OnTheWayOut(s.procs[p])
    ensures HasActor(Own(s, p))
    ensures
      var next := Next(s, Own(s, p));
      next.Some? ==> Ahead(next.value, Change(s, Own(s, p)).status == Waiting) < Ahead(s.procs[p], s.status == Waiting)
  {
    hide Take, Use, PutFresh, Won, Wait;
  }

  lemma FewerAheadElsewhere(s: State, p: Pid)
    requires p in s.procs && !OnTheWayOut(s.procs[p])
    ensures HasActor(Own(s, p))
    ensures
      var next := Next(s, Own(s, p));
      next.Some? ==> Ahead(next.value, Change(s, Own(s, p)).status == Waiting) < Ahead(s.procs[p], s.status == Waiting)
  {
    hide Take, Use, PutFresh;
  }

  lemma FewerAhead(s: State, p: Pid)
    requires p in s.procs
    ensures HasActor(Own(s, p))
    ensures
      var next := Next(s, Own(s, p));
      next.Some? ==> Ahead(next.value, Change(s, Own(s, p)).status == Waiting) < Ahead(s.procs[p], s.status == Waiting)
  {
    hide *;
    if OnTheWayOut(s.procs[p]) {
      FewerAheadOnTheWayOut(s, p);
    } else {
      FewerAheadElsewhere(s, p);
    }
  }

  /**
   From every state the goroutines can all come to an end, each by its own sections, with no other coming;
   so none of the conditions above is met by nothing.
   */
  lemma {:induction false} WindsDown(s: State, p: Pid) returns (states: seq<State>, steps: seq<Step>)
    requires s.procs == map[] || p in s.procs
    ensures IsPath(states, steps, false) && states[0] == s && states[|steps|].procs == map[]
    ensures forall j | 0 <= j < |steps| :: HasActor(steps[j]) && (steps[j].ReadRow? ==> steps[j].found)
    decreases |s.procs.Keys|, if p in s.procs then Ahead(s.procs[p], s.status == Waiting) else 0
  {
    if s.procs == map[] {
      states, steps := [s], [];
    } else {
      var step := Own(s, p);
      var next := OwnGoesOn(s, p);
      OwnIsPossible(s, p);
      hide Apply, Enabled, Own, Ahead;
      var s' := Apply(s, step);
      states, steps := WindsDown(s', next);
      var states', steps' := states, steps;
      states, steps := [s] + states, [step] + steps;
      assert forall j | 0 < j < |steps| :: steps[j] == steps'[j - 1];
      IsLonger(s, step, states', steps');
    }
  }

  /** One section of a goroutine's own, and who is to go on: the same, or if it is gone any other. */
  lemma OwnGoesOn(s: State, p: Pid) returns (next: Pid)
    requires p in s.procs
    ensures
      var s' := Apply(s, Own(s, p));
      && (s'.procs == map[] || next in s'.procs)
      && s'.procs.Keys <= s.procs.Keys
      && (s'.procs.Keys == s.procs.Keys ==>
            next == p && Ahead(s'.procs[p], s'.status == Waiting) < Ahead(s.procs[p], s.status == Waiting))
      && |s'.procs.Keys| <= |s.procs.Keys|
      && (s'.procs.Keys != s.procs.Keys ==> |s'.procs.Keys| < |s.procs.Keys|)
  {
    OwnIsPossible(s, p);
    FewerAhead(s, p);
    hide Enabled, Ahead, Own, Next, Change;
    var s' := Apply(s, Own(s, p));
    match Next(s, Own(s, p))
    case Some(pc) =>
      assert s'.procs == s.procs[p := pc];
      assert s'.procs.Keys == s.procs.Keys;
      next := p;
    case None =>
      assert s'.procs == s.procs - {p};
      assert s'.procs.Keys == s.procs.Keys - {p};
      if s'.procs == map[] {
        next := p;
      } else {
        assert s'.procs.Keys != {} by {
          assert s'.procs.Keys == {} ==> s'.procs == map[];
        }
        next :| next in s'.procs.Keys;
      }
  }

  lemma IsLonger(s: State, step: Step, states: seq<State>, steps: seq<Step>)
    requires IsPath(states, steps, false) && Enabled(s, step) && states[0] == Apply(s, step)
    ensures IsPath([s] + states, [step] + steps, false)
    ensures ([s] + states)[|[step] + steps|] == states[|steps|]
  {
    hide Apply, Enabled;
    var states', steps' := [s] + states, [step] + steps;
    forall k | 0 <= k < |steps'| ensures Enabled(states'[k], steps'[k]) && states'[k + 1] == Apply(states'[k], steps'[k]) {
      if k > 0 {
        assert Enabled(states[k - 1], steps[k - 1]);
      }
    }
  }
}
