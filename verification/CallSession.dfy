/**
 The session's locked sections as they change its fields, run by any schedule of goroutines. They are the
 steps of Session, so what is proved of its runs holds of these fields.
 */
module CallSession {
  import opened Basics
  import opened Session
  import opened SessionFlows

  class CallSession {
    var alive: bool
    var named: bool
    var transferStatus: Status
    var transferDone: Option<nat>
    var bridge: Option<nat>
    // The local variables of the goroutines, and where each of them is
    var channelOf: map<Pid, nat>
    var bridgeOf: map<Pid, nat>
    var at: map<Pid, Pc>
    // What was done with every channel and every bridge so far, and who claimed every wait
    var outcomes: seq<nat>
    var stops: seq<nat>
    var claims: seq<seq<Winner>>

    function Abstract(): State
      reads this
    {
      State(alive, named, transferStatus, Pool(transferDone, channelOf, outcomes), Pool(bridge, bridgeOf, stops), at, claims)
    }

    constructor ()
      ensures Abstract() == START
    {
      alive, named, transferStatus, transferDone, bridge := true, false, Idle, None, None;
      channelOf, bridgeOf, at, outcomes, stops, claims := map[], map[], map[], [], [], [];
    }

    /** A flow that goes on after the transfer leaves a channel to be told on. */
    method WaitForOutcome()
      modifies this
      ensures Abstract() == Apply(old(Abstract()), NewDone)
    {
      transferDone, outcomes := Some(|outcomes|), outcomes + [0];
    }

    method BeginTransfer()
      modifies this
      ensures Abstract() == Apply(old(Abstract()), BeginWaiting)
    {
      named, transferStatus, claims := true, Waiting, claims + [[]];
    }

    method RecordClaim(w: Winner)
      modifies this`claims
      ensures Abstract() == Won(old(Abstract()), w, transferStatus)
    {
      if claims != [] {
        var last := |claims| - 1;
        claims := claims[last := claims[last] + [w]];
      }
    }

    /** ConnectAgentToTransfer claims a waiting transfer; any other it refuses. */
    method ClaimForAgent(p: Pid)
      requires Enabled(Abstract(), Session.Accept(p))
      modifies this
      ensures Abstract() == Apply(old(Abstract()), Session.Accept(p))
    {
      if transferStatus != Waiting {
        at := at - {p};
        return;
      }
      transferStatus := Connected;
      RecordClaim(AgentAccepted);
      at := at[p := Connecting];
    }

    /** handleTransferNoAnswer claims it. */
    method ClaimForNobody(p: Pid)
      requires Enabled(Abstract(), ClaimNoAnswer(p))
      modifies this
      ensures Abstract() == Apply(old(Abstract()), ClaimNoAnswer(p))
    {
      transferStatus := NoAnswer;
      RecordClaim(NobodyAnswered);
      at := at[p := Taking];
    }

    /** completeTransferConnection writes the status without looking at it. */
    method MarkConnected(p: Pid)
      requires Enabled(Abstract(), WriteConnected(p))
      modifies this
      ensures Abstract() == Apply(old(Abstract()), WriteConnected(p))
    {
      transferStatus := Connected;
      at := at[p := Wiring];
    }

    method SetUpBridge(p: Pid)
      requires Enabled(Abstract(), SetBridge(p))
      modifies this
      ensures Abstract() == Apply(old(Abstract()), SetBridge(p))
    {
      bridge, stops := Some(|stops|), stops + [0];
      at := at - {p};
    }

    method TakeBridge(p: Pid)
      modifies this`bridge, this`bridgeOf
      ensures Pool(bridge, bridgeOf, stops) == Take(old(Pool(bridge, bridgeOf, stops)), p)
    {
      if bridge.Some? {
        bridgeOf, bridge := bridgeOf[p := bridge.value], None;
      }
    }

    method StopBridge(p: Pid)
      modifies this`bridgeOf, this`stops
      ensures Pool(bridge, bridgeOf, stops) == Use(old(Pool(bridge, bridgeOf, stops)), p)
    {
      if p in bridgeOf && bridgeOf[p] < |stops| {
        stops := stops[bridgeOf[p] := stops[bridgeOf[p]] + 1];
        bridgeOf := bridgeOf - {p};
      }
    }

    method TakeChannel(p: Pid)
      modifies this`transferDone, this`channelOf
      ensures Pool(transferDone, channelOf, outcomes) == Take(old(Pool(transferDone, channelOf, outcomes)), p)
    {
      if transferDone.Some? {
        channelOf, transferDone := channelOf[p := transferDone.value], None;
      }
    }

    /** Sends an outcome on the channel that the goroutine took, or closes it. */
    method Tell(p: Pid)
      modifies this`channelOf, this`outcomes
      ensures Pool(transferDone, channelOf, outcomes) == Use(old(Pool(transferDone, channelOf, outcomes)), p)
    {
      if p in channelOf && channelOf[p] < |outcomes| {
        outcomes := outcomes[channelOf[p] := outcomes[channelOf[p]] + 1];
        channelOf := channelOf - {p};
      }
    }

    /** EndTransfer completes what is not completed and takes the bridge. */
    method EndTransfer(p: Pid)
      requires Enabled(Abstract(), Session.End(p))
      modifies this
      ensures Abstract() == Apply(old(Abstract()), Session.End(p))
    {
      hide Take, Use, Enabled;
      if transferStatus == Completed {
        at := at - {p};
        return;
      }
      transferStatus := Completed;
      TakeBridge(p);
      at := at[p := Halting];
    }

    method HaltBridge(p: Pid)
      requires Enabled(Abstract(), Halt(p))
      modifies this
      ensures Abstract() == Apply(old(Abstract()), Halt(p))
    {
      StopBridge(p);
      at := at[p := Reading];
    }

    /** EndTransfer goes no further if it does not find the transfer's row. */
    method ReadTransfer(p: Pid, found: bool)
      requires Enabled(Abstract(), ReadRow(p, found))
      modifies this
      ensures Abstract() == Apply(old(Abstract()), ReadRow(p, found))
    {
      if found {
        at := at[p := Taking];
      } else {
        at := at - {p};
      }
    }

    method TakeTransferDone(p: Pid)
      requires Enabled(Abstract(), TakeDone(p))
      modifies this
      ensures Abstract() == Apply(old(Abstract()), TakeDone(p))
    {
      TakeChannel(p);
      at := at[p := Delivering];
    }

    /** The waiting flow is told, or if none waits the session cleaned up. */
    method TellOrCleanUp(p: Pid)
      requires Enabled(Abstract(), Deliver(p))
      modifies this
      ensures Abstract() == Apply(old(Abstract()), Deliver(p))
    {
      if p in channelOf {
        Tell(p);
        at := at - {p};
      } else {
        at := at[p := Cleaning];
      }
    }

    /** HandleCallerHangupDuringTransfer, first section: only a waiting transfer with an id is abandoned. */
    method LookForHangup(p: Pid)
      requires Enabled(Abstract(), Look(p))
      modifies this
      ensures Abstract() == Apply(old(Abstract()), Look(p))
    {
      if named && transferStatus == Waiting {
        at := at[p := Marking];
      } else {
        at := at - {p};
      }
    }

    /** Second section, whatever the status has become. */
    method MarkAbandoned(p: Pid)
      requires Enabled(Abstract(), Mark(p))
      modifies this
      ensures Abstract() == Apply(old(Abstract()), Mark(p))
    {
      transferStatus := Abandoned;
      at := at[p := Taking];
    }

    /** cleanupSession, first section: a waiting transfer is hung up first. */
    method LeaveTable(p: Pid)
      requires Enabled(Abstract(), CheckAlive(p))
      modifies this
      ensures Abstract() == Apply(old(Abstract()), CheckAlive(p))
    {
      if !alive {
        at := at - {p};
      } else if transferStatus == Waiting {
        at := at[p := Looking];
      } else {
        alive := false;
        at := at[p := Removing];
      }
    }

    /** Second section: everything is taken at once. */
    method TakeEverything(p: Pid)
      requires Enabled(Abstract(), Session.Remove(p))
      modifies this
      ensures Abstract() == Apply(old(Abstract()), Session.Remove(p))
    {
      hide Take, Use, Enabled;
      if named && transferStatus == Waiting {
        transferStatus := Abandoned;
      }
      TakeBridge(p);
      TakeChannel(p);
      at := at[p := Closing];
    }

    method CloseEverything(p: Pid)
      requires Enabled(Abstract(), Close(p))
      modifies this
      ensures Abstract() == Apply(old(Abstract()), Close(p))
    {
      hide Take, Use, Enabled;
      Tell(p);
      StopBridge(p);
      at := at - {p};
    }

    method HoldCall(p: Pid)
      requires Enabled(Abstract(), Hold(p))
      modifies this
      ensures Abstract() == Apply(old(Abstract()), Hold(p))
    {
      hide Take, Use, Enabled;
      if bridge.None? {
        at := at - {p};
      } else {
        TakeBridge(p);
        at := at[p := Stopping];
      }
    }

    /** InitiateAgentTransfer puts the caller back to waiting, for the time being without a transfer's id. */
    method InitiateAgentTransfer(p: Pid)
      requires Enabled(Abstract(), Reassign(p))
      modifies this
      ensures Abstract() == Apply(old(Abstract()), Reassign(p))
    {
      hide Take, Use, Enabled;
      if transferStatus == Waiting {
        at := at - {p};
        return;
      }
      TakeBridge(p);
      named, transferStatus, claims := false, Waiting, claims + [[]];
      at := at[p := Moving];
    }

    method StopTaken(p: Pid)
      requires Enabled(Abstract(), Stop(p))
      modifies this
      ensures Abstract() == Apply(old(Abstract()), Stop(p))
    {
      hide Take, Use;
      var moving := at[p] == Moving;
      StopBridge(p);
      if moving {
        at := at[p := Naming];
      } else {
        at := at - {p};
      }
    }

    method NameTransfer(p: Pid)
      requires Enabled(Abstract(), Name(p))
      modifies this
      ensures Abstract() == Apply(old(Abstract()), Name(p))
    {
      named := true;
      at := at - {p};
    }

    /** The section of any goroutine. */
    method Perform(step: Step)
      requires Enabled(Abstract(), step)
      modifies this
      ensures Abstract() == Apply(old(Abstract()), step)
    {
      hide Apply, Enabled;
      match step
      case NewDone => WaitForOutcome();
      case BeginWaiting => BeginTransfer();
      case Accept(p) => ClaimForAgent(p);
      case WriteConnected(p) => MarkConnected(p);
      case SetBridge(p) => SetUpBridge(p);
      case ClaimNoAnswer(p) => ClaimForNobody(p);
      case End(p) => EndTransfer(p);
      case Halt(p) => HaltBridge(p);
      case ReadRow(p, found) => ReadTransfer(p, found);
      case TakeDone(p) => TakeTransferDone(p);
      case Deliver(p) => TellOrCleanUp(p);
      case Look(p) => LookForHangup(p);
      case Mark(p) => MarkAbandoned(p);
      case CheckAlive(p) => LeaveTable(p);
      case Remove(p) => TakeEverything(p);
      case Close(p) => CloseEverything(p);
      case Hold(p) => HoldCall(p);
      case Reassign(p) => InitiateAgentTransfer(p);
      case Stop(p) => StopTaken(p);
      case Name(p) => NameTransfer(p);
      case Find(p, purpose) => Come(step, Found(purpose));
      case HangUp(p) => Come(step, Looking);
      case CleanUp(p) => Come(step, Cleaning);
      case GiveUp(p) => Quit(p);
    }

    /** A goroutine comes to the session. */
    method Come(step: Step, pc: Pc)
      requires match step
               case HangUp(_) => pc == Looking
               case CleanUp(_) => pc == Cleaning
               case Find(_, purpose) => pc == Found(purpose)
               case _ => false
      modifies this
      ensures Abstract() == Apply(old(Abstract()), step)
    {
      at := at[step.p := pc];
    }

    method Quit(p: Pid)
      modifies this
      ensures Abstract() == Apply(old(Abstract()), GiveUp(p))
    {
      at := at - {p};
    }

    /**
     Goroutines in any order: of a schedule every step is run that can be when its turn comes, states and
     steps being what was run. However they interleave, no channel gets a second outcome, no bridge is stopped
     twice, and no wait is claimed twice. By the time that no goroutine is left a bridge that was taken has been
     stopped; and a flow whose channel was in the field when the transfer was settled has been told, unless
     another flow replaced its channel or the row of an ended transfer was not found.
     */
    method RunSchedule(schedule: seq<Step>) returns (ghost states: seq<State>, ghost steps: seq<Step>)
      requires Abstract() == START
      modifies this
      ensures Abstract() == After(START, schedule)
      ensures IsRun(states, steps) && states[|steps|] == Abstract() && steps == Ran(START, schedule)
      ensures forall c | 0 <= c < |outcomes| :: outcomes[c] <= 1
      ensures forall b | 0 <= b < |stops| :: stops[b] <= 1
      ensures forall e | 0 <= e < |claims| :: |claims[e]| <= 1
      ensures at == map[] ==>
                forall k, c | 0 <= k < |steps| && Settles(states[k], steps[k]) && states[k].dones.slot == Some(c)
                              && StaysToBeTold(states, steps, k, c) ::
                  c < |outcomes| && outcomes[c] == 1
      ensures at == map[] ==>
                forall k, b | 0 <= k < |steps| && TakesBridge(states[k], steps[k]) && states[k].bridges.slot == Some(b) ::
                  b < |stops| && stops[b] == 1
    {
      hide Apply, Enabled, IsRun, IsPath, Settles, TakesBridge, StaysToBeTold, Inv;
      for k := 0 to |schedule|
        invariant Abstract() == After(START, schedule[..k])
      {
        assert schedule[..k + 1] == schedule[..k] + [schedule[k]];
        if Enabled(Abstract(), schedule[k]) {
          Perform(schedule[k]);
        }
      }
      assert schedule[..|schedule|] == schedule;
      AfterIsLinear(schedule);
      states, steps := RanIsARun(schedule);
      if at == map[] {
        EverybodyIsTold(states, steps);
      }
    }
  }

  /** The state after a schedule: steps that are not possible when their turn comes are passed over. */
  function After(s: State, schedule: seq<Step>): State {
    if schedule == [] then s
    else
      var t, step := After(s, schedule[..|schedule| - 1]), schedule[|schedule| - 1];
      if Enabled(t, step) then Apply(t, step) else t
  }

  lemma {:induction false} AfterIsReached(s: State, schedule: seq<Step>)
    ensures Reaches(s, After(s, schedule), false)
  {
    hide Reaches, Apply, Enabled;
    if schedule == [] {
      ReachesItself(s, false);
    } else {
      AfterIsReached(s, schedule[..|schedule| - 1]);
      var t, step := After(s, schedule[..|schedule| - 1]), schedule[|schedule| - 1];
      if Enabled(t, step) {
        OneStepMore(s, t, step, false);
      }
    }
  }

  lemma {:induction false} RunIsASchedule(states: seq<State>, steps: seq<Step>, k: nat)
    requires IsPath(states, steps, false) && k <= |steps|
    ensures After(states[0], steps[..k]) == states[k]
  {
    hide Apply, Enabled;
    if k > 0 {
      RunIsASchedule(states, steps, k - 1);
      assert steps[..k][..k - 1] == steps[..k - 1];
      assert Enabled(states[k - 1], steps[k - 1]);
    }
  }

  /** The methods run by schedules reach exactly the states of the runs. */
  lemma SchedulesAreTheRuns(s: State)
    ensures Reachable(s) <==> exists schedule :: s == After(START, schedule)
  {
    if Reachable(s) {
      var states, steps :| IsPath(states, steps, false) && states[0] == START && states[|steps|] == s;
      RunIsASchedule(states, steps, |steps|);
      assert steps[..|steps|] == steps;
    }
    if schedule :| s == After(START, schedule) {
      AfterIsReached(START, schedule);
    }
  }

  lemma AfterIsLinear(schedule: seq<Step>)
    ensures
      var s := After(START, schedule);
      && (forall c | 0 <= c < |s.dones.uses| :: s.dones.uses[c] <= 1)
      && (forall b | 0 <= b < |s.bridges.uses| :: s.bridges.uses[b] <= 1)
      && forall e | 0 <= e < |s.wins| :: |s.wins[e]| <= 1
  {
    AfterIsReached(START, schedule);
    var s := After(START, schedule);
    var states, steps :| IsPath(states, steps, false) && states[0] == START && states[|steps|] == s;
    assert IsRun(states, steps);
    SessionIsLinear(states, steps, |steps|);
  }

  /** The steps of a schedule that were possible when their turn came. */
  function Ran(s: State, schedule: seq<Step>): seq<Step> {
    if schedule == [] then []
    else
      var before, step := schedule[..|schedule| - 1], schedule[|schedule| - 1];
      if Enabled(After(s, before), step) then Ran(s, before) + [step] else Ran(s, before)
  }

  lemma {:induction false} RanIsAPath(s: State, schedule: seq<Step>) returns (states: seq<State>)
    ensures IsPath(states, Ran(s, schedule), false) && states[0] == s && states[|Ran(s, schedule)|] == After(s, schedule)
  {
    hide Apply, Enabled;
    if schedule == [] {
      states := [s];
    } else {
      var before, step := schedule[..|schedule| - 1], schedule[|schedule| - 1];
      states := RanIsAPath(s, before);
      if Enabled(After(s, before), step) {
        var longer, steps := states + [Apply(After(s, before), step)], Ran(s, before) + [step];
        forall k | 0 <= k < |steps| ensures Enabled(longer[k], steps[k]) && longer[k + 1] == Apply(longer[k], steps[k]) {
          if k < |steps| - 1 {
            assert Enabled(states[k], Ran(s, before)[k]);
          }
        }
        states := longer;
      }
    }
  }

  lemma RanIsARun(schedule: seq<Step>) returns (states: seq<State>, steps: seq<Step>)
    ensures steps == Ran(START, schedule) && IsRun(states, steps) && states[|steps|] == After(START, schedule)
  {
    hide IsPath;
    steps := Ran(START, schedule);
    states := RanIsAPath(START, schedule);
  }

  /** Nothing that would keep a channel from its outcome: no other takes its place in the field, and rows are found. */
  predicate StaysToBeTold(states: seq<State>, steps: seq<Step>, k: nat, c: nat)
    requires |states| == |steps| + 1 && k < |steps|
  {
    forall j | k < j < |steps| ::
      (steps[j].NewDone? ==> states[j].dones.slot != Some(c)) && (steps[j].ReadRow? ==> steps[j].found)
  }

  lemma EverybodyIsTold(states: seq<State>, steps: seq<Step>)
    requires IsRun(states, steps) && states[|steps|].procs == map[]
    ensures forall k, c | 0 <= k < |steps| && Settles(states[k], steps[k]) && states[k].dones.slot == Some(c)
                          && StaysToBeTold(states, steps, k, c) ::
              c < |states[|steps|].dones.uses| && states[|steps|].dones.uses[c] == 1
    ensures forall k, b | 0 <= k < |steps| && TakesBridge(states[k], steps[k]) && states[k].bridges.slot == Some(b) ::
              b < |states[|steps|].bridges.uses| && states[|steps|].bridges.uses[b] == 1
  {
    StartIsSafe(states[0]);
    hide IsPath, Settles, TakesBridge, Inv, Init;
    forall k, c | 0 <= k < |steps| && Settles(states[k], steps[k]) && states[k].dones.slot == Some(c)
                  && StaysToBeTold(states, steps, k, c)
      ensures c < |states[|steps|].dones.uses| && states[|steps|].dones.uses[c] == 1
    {
      WaitingFlowIsTold(states, steps, k, c);
    }
    forall k, b | 0 <= k < |steps| && TakesBridge(states[k], steps[k]) && states[k].bridges.slot == Some(b)
      ensures b < |states[|steps|].bridges.uses| && states[|steps|].bridges.uses[b] == 1
    {
      TakenBridgeIsStopped(states, steps, k, b);
    }
  }
}
