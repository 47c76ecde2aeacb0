/**
 A call session and the goroutines that change it, one locked section at a time, in any interleaving.
 */
module Session {
  import opened Basics

  type Pid = nat

  // ----- Things that are taken once -----

  /** Things of one kind: the one in the session's field, those that goroutines took from it, and how often each was used. */
  datatype Pool = Pool(slot: Option<nat>, held: map<Pid, nat>, uses: seq<nat>)

  const EMPTY := Pool(None, map[], [])

  function PutFresh(p: Pool): Pool {
    p.(slot := Some(|p.uses|), uses := p.uses + [0])
  }

  function Take(p: Pool, who: Pid): Pool {
    if p.slot.Some? then p.(slot := None, held := p.held[who := p.slot.value]) else p
  }

  function Use(p: Pool, who: Pid): Pool {
    if who in p.held && p.held[who] < |p.uses|
    then p.(held := p.held - {who}, uses := p.uses[p.held[who] := p.uses[p.held[who]] + 1])
    else p
  }

  /** What is in the field or in a goroutine's hands is nowhere else and was not used; nothing was used twice. */
  ghost predicate TakenOnce(p: Pool) {
    && (p.slot.Some? ==> p.slot.value < |p.uses| && p.uses[p.slot.value] == 0)
    && (forall q | q in p.held :: p.held[q] < |p.uses| && p.uses[p.held[q]] == 0 && p.slot != Some(p.held[q]))
    && (forall q, r | q in p.held && r in p.held :: p.held[q] == p.held[r] ==> q == r)
    && forall k | 0 <= k < |p.uses| :: p.uses[k] <= 1
  }

  lemma PutFreshKeeps(p: Pool)
    requires TakenOnce(p)
    ensures TakenOnce(PutFresh(p))
  {}

  lemma TakeKeeps(p: Pool, who: Pid)
    requires TakenOnce(p) && who !in p.held
    ensures TakenOnce(Take(p, who))
  {}

  lemma UseKeeps(p: Pool, who: Pid)
    requires TakenOnce(p)
    ensures TakenOnce(Use(p, who))
  {}

  /** Taking what is there and clearing the field at once is what makes every use the only one. */
  lemma PoolKeeps(p: Pool, who: Pid)
    requires TakenOnce(p)
    ensures TakenOnce(PutFresh(p)) && TakenOnce(Use(p, who))
    ensures who !in p.held ==> TakenOnce(Take(p, who))
  {
    hide TakenOnce;
    PutFreshKeeps(p);
    UseKeeps(p, who);
    if who !in p.held {
      TakeKeeps(p, who);
    }
  }

  lemma WhoHolds(p: Pool, who: Pid)
    requires TakenOnce(p)
    ensures PutFresh(p).held == p.held
    ensures forall q | q in Take(p, who).held :: q == who || q in p.held
    ensures forall q | q in Use(p, who).held :: q != who && q in p.held
  {}

  // ----- The session -----

  datatype Status = Idle | Waiting | Connected | NoAnswer | Abandoned | Completed

  datatype Winner = AgentAccepted | NobodyAnswered

  /** What a session is looked up for in the table. */
  datatype Purpose = ToAccept | ToEnd | ToHold | ToMove

  /** What a goroutine does in its next section. */
  datatype Pc =
    | Found(purpose: Purpose)    // it has found the session in the table
    | Looking       // a hangup reads the status
    | Marking       // it was waiting: the hangup writes abandoned
    | Connecting    // accepted; the agent's track has come, and connected is written
    | Wiring        // the bridge is set
    | Halting       // ended; the bridge that was taken is stopped
    | Reading       // the row of the ended transfer is read
    | Taking        // the channel of the waiting flow is taken
    | Delivering    // the outcome is sent, or else the session cleaned up
    | Cleaning      // is the session still there, and not waiting?
    | Removing      // removed from the table; everything is taken
    | Closing       // what was taken is closed and stopped
    | Stopping      // the bridge that was taken is stopped
    | Moving        // the bridge that was taken is stopped, for another transfer
    | Naming        // the other transfer's id is set

  /** named says that the session has the id of a transfer; wins, of every time it came to wait, who claimed it. */
  datatype State = State(
    alive: bool, named: bool, status: Status, dones: Pool, bridges: Pool, procs: map<Pid, Pc>, wins: seq<seq<Winner>>)

  datatype Step =
    | NewDone
    | BeginWaiting
    | Find(p: Pid, purpose: Purpose)
    | Accept(p: Pid)
    | WriteConnected(p: Pid)
    | GiveUp(p: Pid)
    | SetBridge(p: Pid)
    | ClaimNoAnswer(p: Pid)
    | End(p: Pid)
    | Halt(p: Pid)
    | ReadRow(p: Pid, found: bool)
    | TakeDone(p: Pid)
    | Deliver(p: Pid)
    | HangUp(p: Pid)
    | Look(p: Pid)
    | Mark(p: Pid)
    | CleanUp(p: Pid)
    | CheckAlive(p: Pid)
    | Remove(p: Pid)
    | Close(p: Pid)
    | Hold(p: Pid)
    | Reassign(p: Pid)
    | Stop(p: Pid)
    | Name(p: Pid)

  predicate IsNew(s: State, p: Pid) {
    p !in s.procs && p !in s.dones.held && p !in s.bridges.held
  }

  predicate At(s: State, p: Pid, pc: Pc) {
    p in s.procs && s.procs[p] == pc
  }

  /** A flow, a timer, and whoever cleans up need not look the session up; all others find it in the table or not at all. */
  predicate Enabled(s: State, step: Step) {
    match step
    case NewDone => true
    case BeginWaiting => true
    case Find(p, purpose) => IsNew(s, p) && s.alive && (purpose in {ToAccept, ToEnd} ==> s.named)
    case Accept(p) => At(s, p, Found(ToAccept))
    case WriteConnected(p) => At(s, p, Connecting)
    case GiveUp(p) => At(s, p, Connecting) || At(s, p, Naming)
    case SetBridge(p) => At(s, p, Wiring)
    case ClaimNoAnswer(p) => IsNew(s, p) && s.status == Waiting
    case End(p) => At(s, p, Found(ToEnd))
    case Halt(p) => At(s, p, Halting)
    case ReadRow(p, _) => At(s, p, Reading)
    case TakeDone(p) => At(s, p, Taking)
    case Deliver(p) => At(s, p, Delivering)
    case HangUp(p) => IsNew(s, p) && s.alive
    case Look(p) => At(s, p, Looking)
    case Mark(p) => At(s, p, Marking)
    case CleanUp(p) => IsNew(s, p)
    case CheckAlive(p) => At(s, p, Cleaning)
    case Remove(p) => At(s, p, Removing)
    case Close(p) => At(s, p, Closing)
    case Hold(p) => At(s, p, Found(ToHold))
    case Reassign(p) => At(s, p, Found(ToMove))
    case Stop(p) => At(s, p, Stopping) || At(s, p, Moving)
    case Name(p) => At(s, p, Naming)
  }

  function Wait(s: State, named: bool): State {
    s.(status := Waiting, named := named, wins := s.wins + [[]])
  }

  function Won(s: State, w: Winner, status: Status): State {
    if s.wins == [] then s.(status := status)
    else s.(status := status, wins := s.wins[|s.wins| - 1 := s.wins[|s.wins| - 1] + [w]])
  }

  predicate HasActor(step: Step) {
    !step.NewDone? && !step.BeginWaiting?
  }

  /** What the goroutine that runs a section does after it, if it goes on. */
  function Next(s: State, step: Step): Option<Pc>
    requires HasActor(step)
  {
    match step
    case Find(_, purpose) => Some(Found(purpose))
    case Accept(_) => if s.status == Waiting then Some(Connecting) else None
    case WriteConnected(_) => Some(Wiring)
    case GiveUp(_) => None
    case SetBridge(_) => None
    case ClaimNoAnswer(_) => Some(Taking)
    case End(_) => if s.status == Completed then None else Some(Halting)
    case Halt(_) => Some(Reading)
    case ReadRow(_, found) => if found then Some(Taking) else None
    case TakeDone(_) => Some(Delivering)
    case Deliver(p) => if p in s.dones.held then None else Some(Cleaning)
    case HangUp(_) => Some(Looking)
    case Look(_) => if s.named && s.status == Waiting then Some(Marking) else None
    case Mark(_) => Some(Taking)
    case CleanUp(_) => Some(Cleaning)
    case CheckAlive(_) => if !s.alive then None else if s.status == Waiting then Some(Looking) else Some(Removing)
    case Remove(_) => Some(Closing)
    case Close(_) => None
    case Hold(_) => if s.bridges.slot.None? then None else Some(Stopping)
    case Reassign(_) => if s.status == Waiting then None else Some(Moving)
    case Stop(p) => if At(s, p, Moving) then Some(Naming) else None
    case Name(_) => None
  }

  /** What a section does to the session. */
  function Change(s: State, step: Step): State {
    match step
    case NewDone => s.(dones := PutFresh(s.dones))
    case BeginWaiting => Wait(s, true)
    case Accept(_) => if s.status == Waiting then Won(s, AgentAccepted, Connected) else s
    case WriteConnected(_) => s.(status := Connected)
    case SetBridge(_) => s.(bridges := PutFresh(s.bridges))
    case ClaimNoAnswer(_) => Won(s, NobodyAnswered, NoAnswer)
    case End(p) => if s.status == Completed then s else s.(status := Completed, bridges := Take(s.bridges, p))
    case Halt(p) => s.(bridges := Use(s.bridges, p))
    case TakeDone(p) => s.(dones := Take(s.dones, p))
    case Deliver(p) => if p in s.dones.held then s.(dones := Use(s.dones, p)) else s
    case Mark(_) => s.(status := Abandoned)
    case CheckAlive(_) => if s.status == Waiting then s else s.(alive := false)
    case Remove(p) =>
      s.(status := if s.named && s.status == Waiting then Abandoned else s.status,
         bridges := Take(s.bridges, p), dones := Take(s.dones, p))
    case Close(p) => s.(bridges := Use(s.bridges, p), dones := Use(s.dones, p))
    case Hold(p) => if s.bridges.slot.None? then s else s.(bridges := Take(s.bridges, p))
    case Reassign(p) => if s.status == Waiting then s else Wait(s, false).(bridges := Take(s.bridges, p))
    case Stop(p) => s.(bridges := Use(s.bridges, p))
    case Name(_) => s.(named := true)
    case _ => s
  }

  function Procs(s: State, step: Step): map<Pid, Pc> {
    if !HasActor(step) then s.procs
    else match Next(s, step)
      case None => s.procs - {step.p}
      case Some(pc) => s.procs[step.p := pc]
  }

  function Apply(s: State, step: Step): State {
    Change(s, step).(procs := Procs(s, step))
  }

  const START := State(true, false, Idle, EMPTY, EMPTY, map[], [])

  predicate Init(s: State) {
    s == START
  }

  // ----- What every section keeps -----

  ghost predicate HeldAt(held: map<Pid, nat>, procs: map<Pid, Pc>, pcs: set<Pc>) {
    forall p | p in held :: p in procs && procs[p] in pcs
  }

  /** Only a goroutine that is about to use something has it. */
  ghost predicate HoldersOk(s: State) {
    HeldAt(s.dones.held, s.procs, {Delivering, Closing}) && HeldAt(s.bridges.held, s.procs, {Halting, Closing, Stopping, Moving})
  }

  /** Of an accepting agent and a timeout, one at most gets a waiting transfer, and while it waits none has. */
  predicate OneWins(s: State) {
    && (forall k | 0 <= k < |s.wins| :: |s.wins[k]| <= 1)
    && (s.status == Waiting ==> s.wins != [] && s.wins[|s.wins| - 1] == [])
  }

  ghost predicate Inv(s: State) {
    TakenOnce(s.dones) && TakenOnce(s.bridges) && HoldersOk(s) && OneWins(s)
  }

  predicate OnlyMoves(s: State, s': State, p: Pid) {
    s'.procs - {p} == s.procs - {p}
  }

  function Actor(step: Step): Pid {
    match step case NewDone => 0 case BeginWaiting => 0 case _ => step.p
  }

  lemma StepMovesOne(s: State, step: Step)
    requires Enabled(s, step)
    ensures OnlyMoves(s, Apply(s, step), Actor(step))
  {
    hide Next, Change;
  }

  /** Where whoever runs a section is after it. */
  lemma ActorGoesOn(s: State, step: Step)
    requires HasActor(step)
    ensures
      var s' := Apply(s, step);
      match Next(s, step)
      case None => step.p !in s'.procs
      case Some(pc) => step.p in s'.procs && s'.procs[step.p] == pc
  {
    hide Next, Change;
  }

  lemma ChangeOnly(s: State, step: Step)
    ensures
      var s', c := Apply(s, step), Change(s, step);
      s'.alive == c.alive && s'.status == c.status && s'.dones == c.dones && s'.bridges == c.bridges && s'.wins == c.wins
    ensures !HasActor(step) ==> Apply(s, step).procs == s.procs
  {
    hide Next, Change;
  }

  lemma HoldersAfter(held: map<Pid, nat>, held': map<Pid, nat>, procs: map<Pid, Pc>, procs': map<Pid, Pc>, pcs: set<Pc>, p: Pid)
    requires HeldAt(held, procs, pcs) && procs' - {p} == procs - {p}
    requires forall q | q in held' && q != p :: q in held
    requires p in held' ==> p in procs' && procs'[p] in pcs
    ensures HeldAt(held', procs', pcs)
  {
    forall q | q in held' && q != p ensures q in procs' && procs'[q] in pcs {
      assert q in (procs - {p}) && (procs' - {p})[q] == (procs - {p})[q];
    }
  }

  /** What a section does to the channels: nothing, one more, or whoever runs it takes one or uses the one it has. */
  lemma DonesChange(s: State, step: Step)
    requires Enabled(s, step)
    ensures
      var p, d, d' := Actor(step), s.dones, Apply(s, step).dones;
      d' == d || d' == PutFresh(d) || d' == Use(d, p) || ((step.TakeDone? || step.Remove?) && d' == Take(d, p))
  {
    hide PutFresh, Take, Use, At, IsNew;
  }

  lemma BridgesChange(s: State, step: Step)
    requires Enabled(s, step)
    ensures
      var p, d, d' := Actor(step), s.bridges, Apply(s, step).bridges;
      d' == d || d' == PutFresh(d) || d' == Use(d, p)
      || ((step.End? || step.Remove? || step.Hold? || step.Reassign?) && d' == Take(d, p))
  {
    hide PutFresh, Take, Use, At, IsNew;
  }

  /** Whoever takes a channel or a bridge has none yet. */
  lemma TakerHasNone(s: State, step: Step)
    requires HoldersOk(s) && Enabled(s, step)
    ensures step.TakeDone? || step.Remove? ==> step.p !in s.dones.held
    ensures step.End? || step.Remove? || step.Hold? || step.Reassign? ==> step.p !in s.bridges.held
  {
    hide IsNew;
  }

  lemma StepTakesDonesOnce(s: State, step: Step)
    requires Inv(s) && Enabled(s, step)
    ensures TakenOnce(Apply(s, step).dones)
  {
    DonesChange(s, step);
    TakerHasNone(s, step);
    PoolKeeps(s.dones, Actor(step));
    hide TakenOnce, OneWins, HoldersOk, PutFresh, Take, Use, Apply, Enabled;
  }

  lemma StepTakesBridgesOnce(s: State, step: Step)
    requires Inv(s) && Enabled(s, step)
    ensures TakenOnce(Apply(s, step).bridges)
  {
    BridgesChange(s, step);
    TakerHasNone(s, step);
    PoolKeeps(s.bridges, Actor(step));
    hide TakenOnce, OneWins, HoldersOk, PutFresh, Take, Use, Apply, Enabled;
  }

  /** Whoever has a channel, or a bridge, uses it in the next section. */
  lemma HolderTells(s: State, step: Step)
    requires HoldersOk(s) && Enabled(s, step) && HasActor(step) && step.p in s.dones.held
    ensures Change(s, step).dones == Use(s.dones, step.p)
  {
    assert s.procs[step.p] in {Delivering, Closing};
    hide HoldersOk, PutFresh, Take, Use, Next, Won, Wait;
  }

  lemma HolderStops(s: State, step: Step)
    requires HoldersOk(s) && Enabled(s, step) && HasActor(step) && step.p in s.bridges.held
    ensures Change(s, step).bridges == Use(s.bridges, step.p)
  {
    assert s.procs[step.p] in {Halting, Closing, Stopping, Moving};
    hide HoldersOk, PutFresh, Take, Use, Next, Won, Wait;
  }

  /** Whoever runs a section and has a channel after it is about to use it. */
  lemma DoneIsAtHand(s: State, step: Step)
    requires HoldersOk(s) && TakenOnce(s.dones) && Enabled(s, step) && HasActor(step)
    ensures step.p in Change(s, step).dones.held ==> Next(s, step) in {Some(Delivering), Some(Closing)}
  {
    WhoHolds(s.dones, step.p);
    if step.p in s.dones.held {
      HolderTells(s, step);
    } else {
      DonesChange(s, step);
    }
    hide Enabled, Change, Apply, HoldersOk, TakenOnce, PutFresh, Take, Use;
    ChangeOnly(s, step);
  }

  lemma BridgeIsAtHand(s: State, step: Step)
    requires HoldersOk(s) && TakenOnce(s.bridges) && Enabled(s, step) && HasActor(step)
    ensures step.p in Change(s, step).bridges.held ==> Next(s, step) in {Some(Halting), Some(Closing), Some(Stopping), Some(Moving)}
  {
    WhoHolds(s.bridges, step.p);
    if step.p in s.bridges.held {
      HolderStops(s, step);
    } else {
      BridgesChange(s, step);
    }
    ChangeOnly(s, step);
    hide Enabled, Apply, HoldersOk, TakenOnce, PutFresh, Take, Use;
  }

  lemma StepKeepsDones(s: State, step: Step)
    requires Inv(s) && Enabled(s, step)
    ensures HeldAt(Apply(s, step).dones.held, Apply(s, step).procs, {Delivering, Closing})
  {
    var p, s' := Actor(step), Apply(s, step);
    DonesChange(s, step);
    WhoHolds(s.dones, p);
    StepMovesOne(s, step);
    ChangeOnly(s, step);
    if HasActor(step) {
      DoneIsAtHand(s, step);
      ActorGoesOn(s, step);
      hide Apply, Change, Next, Enabled, OneWins, TakenOnce, PutFresh, Take, Use, HeldAt;
      HoldersAfter(s.dones.held, s'.dones.held, s.procs, s'.procs, {Delivering, Closing}, p);
    } else {
      hide TakenOnce, OneWins;
    }
  }

  lemma StepKeepsBridges(s: State, step: Step)
    requires Inv(s) && Enabled(s, step)
    ensures HeldAt(Apply(s, step).bridges.held, Apply(s, step).procs, {Halting, Closing, Stopping, Moving})
  {
    var p, s' := Actor(step), Apply(s, step);
    BridgesChange(s, step);
    WhoHolds(s.bridges, p);
    StepMovesOne(s, step);
    ChangeOnly(s, step);
    if HasActor(step) {
      BridgeIsAtHand(s, step);
      ActorGoesOn(s, step);
      hide Apply, Change, Next, Enabled, OneWins, TakenOnce, PutFresh, Take, Use, HeldAt;
      HoldersAfter(s.bridges.held, s'.bridges.held, s.procs, s'.procs, {Halting, Closing, Stopping, Moving}, p);
    } else {
      hide TakenOnce, OneWins;
    }
  }

  lemma StepKeepsWins(s: State, step: Step)
    requires Inv(s) && Enabled(s, step)
    ensures OneWins(Apply(s, step))
  {
    hide TakenOnce, HoldersOk, PutFresh, Take, Use;
  }

  lemma StepKeeps(s: State, step: Step)
    requires Inv(s) && Enabled(s, step)
    ensures Inv(Apply(s, step))
  {
    StepTakesDonesOnce(s, step);
    StepTakesBridgesOnce(s, step);
    StepKeepsDones(s, step);
    StepKeepsBridges(s, step);
    StepKeepsWins(s, step);
    hide Apply, Enabled, TakenOnce, OneWins, HeldAt;
  }

  // ----- Runs -----

  /** A calm path has no flow and no agent begin to wait again. */
  predicate IsCalm(step: Step) {
    !step.BeginWaiting? && !step.Reassign?
  }

  ghost predicate IsPath(states: seq<State>, steps: seq<Step>, calm: bool) {
    && |states| == |steps| + 1
    && forall k | 0 <= k < |steps| ::
         Enabled(states[k], steps[k]) && states[k + 1] == Apply(states[k], steps[k]) && (calm ==> IsCalm(steps[k]))
  }

  ghost predicate IsRun(states: seq<State>, steps: seq<Step>) {
    IsPath(states, steps, false) && Init(states[0])
  }

  lemma {:induction false} PathIsSafe(states: seq<State>, steps: seq<Step>, calm: bool, k: nat)
    requires IsPath(states, steps, calm) && Inv(states[0]) && k < |states|
    ensures Inv(states[k])
  {
    hide Apply, Enabled, Inv;
    if k > 0 {
      PathIsSafe(states, steps, calm, k - 1);
      var s, s' := states[k - 1], states[k];
      assert Enabled(s, steps[k - 1]) && s' == Apply(s, steps[k - 1]);
      StepKeeps(s, steps[k - 1]);
    }
  }

  lemma RunIsSafe(states: seq<State>, steps: seq<Step>, k: nat)
    requires IsRun(states, steps) && k < |states|
    ensures Inv(states[k])
  {
    StartIsSafe(states[0]);
    hide Inv, Init, IsPath;
    PathIsSafe(states, steps, false, k);
  }

  lemma StartIsSafe(s: State)
    requires Init(s)
    ensures Inv(s)
  {}

  /**
   Every channel that a flow waits on gets one outcome at most, sent or by closing, and nothing is sent
   on it after; every bridge is stopped by one teardown at most; and every waiting transfer is claimed
   by an agent or by the timeout, not by both.
   */
  lemma SessionIsLinear(states: seq<State>, steps: seq<Step>, k: nat)
    requires IsRun(states, steps) && k < |states|
    ensures
      var s := states[k];
      && (forall c | 0 <= c < |s.dones.uses| :: s.dones.uses[c] <= 1)
      && (forall b | 0 <= b < |s.bridges.uses| :: s.bridges.uses[b] <= 1)
      && (forall p | p in s.dones.held :: s.dones.held[p] < |s.dones.uses| && s.dones.uses[s.dones.held[p]] == 0)
      && forall e | 0 <= e < |s.wins| :: |s.wins[e]| <= 1
  {
    RunIsSafe(states, steps, k);
  }

  /** Whoever sends or closes is the only one who has the channel, and it has had no outcome yet. */
  lemma OutcomeIsTheFirst(states: seq<State>, steps: seq<Step>, k: nat)
    requires IsRun(states, steps) && k < |steps| && (steps[k].Deliver? || steps[k].Close?)
    requires steps[k].p in states[k].dones.held
    ensures
      var c := states[k].dones.held[steps[k].p];
      && c < |states[k].dones.uses| && states[k].dones.uses[c] == 0 && states[k].dones.slot != Some(c)
      && (forall q | q in states[k].dones.held && states[k].dones.held[q] == c :: q == steps[k].p)
      && states[k + 1].dones.uses == states[k].dones.uses[c := 1] && steps[k].p !in states[k + 1].dones.held
  {
    RunIsSafe(states, steps, k);
    var s, s' := states[k], states[k + 1];
    assert Enabled(s, steps[k]) && s' == Apply(s, steps[k]);
    hide OneWins, HoldersOk;
  }

  // ----- What can still happen -----

  ghost predicate Reaches(s: State, s': State, calm: bool) {
    exists states: seq<State>, steps: seq<Step> ::
      IsPath(states, steps, calm) && states[0] == s && states[|steps|] == s'
  }

  lemma ReachesItself(s: State, calm: bool)
    ensures Reaches(s, s, calm)
  {
    assert IsPath([s], [], calm);
  }

  lemma OneStepMore(s: State, s': State, step: Step, calm: bool)
    requires Reaches(s, s', calm) && Enabled(s', step) && (calm ==> IsCalm(step))
    ensures Reaches(s, Apply(s', step), calm)
  {
    hide Apply, Enabled, IsCalm;
    var states, steps :| IsPath(states, steps, calm) && states[0] == s && states[|steps|] == s';
    var states', steps' := states + [Apply(s', step)], steps + [step];
    forall k | 0 <= k < |steps'|
      ensures Enabled(states'[k], steps'[k]) && states'[k + 1] == Apply(states'[k], steps'[k]) && (calm ==> IsCalm(steps'[k]))
    {
      if k < |steps| {
        assert Enabled(states[k], steps[k]);
      }
    }
    assert IsPath(states', steps', calm);
  }

  // ----- Ended is not for ever -----

  /** Neither waiting nor connected, and nobody is about to write that it is. */
  ghost predicate Settled(s: State) {
    s.status != Waiting && s.status != Connected && forall p | p in s.procs :: s.procs[p] != Connecting
  }

  lemma SettledStays(s: State, step: Step)
    requires Settled(s) && Enabled(s, step) && IsCalm(step)
    ensures Settled(Apply(s, step))
  {
    var p, s' := Actor(step), Apply(s, step);
    StepMovesOne(s, step);
    StatusStaysSettled(s, step);
    ChangeOnly(s, step);
    if HasActor(step) {
      ActorGoesOn(s, step);
    }
    hide Apply, Enabled, Change, Next;
    forall q | q in s'.procs && q != p ensures s'.procs[q] != Connecting {
      assert q in (s'.procs - {p}) && (s.procs - {p})[q] == (s'.procs - {p})[q];
    }
  }

  lemma StatusStaysSettled(s: State, step: Step)
    requires Settled(s) && Enabled(s, step) && IsCalm(step)
    ensures Change(s, step).status != Waiting && Change(s, step).status != Connected
    ensures HasActor(step) ==> Next(s, step) != Some(Connecting)
  {
    hide PutFresh, Take, Use;
  }

  lemma {:induction false} SettledForGood(states: seq<State>, steps: seq<Step>, k: nat)
    requires IsPath(states, steps, true) && Settled(states[0]) && k < |states|
    ensures Settled(states[k])
  {
    hide Apply, Enabled, Settled, IsCalm;
    if k > 0 {
      SettledForGood(states, steps, k - 1);
      var s, s' := states[k - 1], states[k];
      assert Enabled(s, steps[k - 1]) && s' == Apply(s, steps[k - 1]) && IsCalm(steps[k - 1]);
      SettledStays(s, steps[k - 1]);
    }
  }

  /**
   An abandoned session, while nobody begins to wait again, is still connected in some continuation if and
   only if some goroutine has accepted and not yet written that it is connected.
   */
  lemma AbandonedConnectsExactlyWhen(s: State)
    requires s.status == Abandoned
    ensures (exists s' :: Reaches(s, s', true) && s'.status == Connected) <==> exists p :: At(s, p, Connecting)
  {
    if p :| At(s, p, Connecting) {
      ReachesItself(s, true);
      OneStepMore(s, s, WriteConnected(p), true);
      assert Apply(s, WriteConnected(p)).status == Connected;
    } else {
      assert Settled(s) by {
        forall p | p in s.procs ensures s.procs[p] != Connecting {
          assert !At(s, p, Connecting);
        }
      }
      forall s' | Reaches(s, s', true) ensures s'.status != Connected {
        var states, steps :| IsPath(states, steps, true) && states[0] == s && states[|steps|] == s';
        SettledForGood(states, steps, |steps|);
      }
    }
  }

  ghost predicate Reachable(s: State) {
    Reaches(START, s, false)
  }

  /** One more step; the parts of the new state are compared one by one. */
  lemma NextIs(s: State, step: Step, s': State)
    requires Reachable(s) && Enabled(s, step)
    requires var a := Apply(s, step);
             a.alive == s'.alive && a.named == s'.named && a.status == s'.status && a.dones == s'.dones && a.bridges == s'.bridges
             && a.procs == s'.procs && a.wins == s'.wins
    ensures Reachable(s')
  {
    OneStepMore(START, s, step, false);
  }

  function Simple(status: Status, procs: map<Pid, Pc>, wins: seq<seq<Winner>>): State {
    State(true, true, status, EMPTY, EMPTY, procs, wins)
  }

  /** An agent has found the session, and a hangup has seen it waiting. */
  lemma HangupSees()
    ensures Reachable(Simple(Waiting, map[0 := Marking, 1 := Found(ToAccept)], [[]]))
  {
    ReachesItself(START, false);
    NextIs(START, BeginWaiting, Simple(Waiting, map[], [[]]));
    hide Reachable;
    NextIs(Simple(Waiting, map[], [[]]), HangUp(0), Simple(Waiting, map[0 := Looking], [[]]));
    NextIs(Simple(Waiting, map[0 := Looking], [[]]), Look(0), Simple(Waiting, map[0 := Marking], [[]]));
    NextIs(Simple(Waiting, map[0 := Marking], [[]]), Find(1, ToAccept), Simple(Waiting, map[0 := Marking, 1 := Found(ToAccept)], [[]]));
  }

  /**
   A hangup looks and writes in two sections: an agent may accept between them, and the transfer be
   connected, abandoned, and connected again.
   */
  lemma AbandonedMayConnect()
    ensures
      var s := Simple(Abandoned, map[0 := Taking, 1 := Connecting], [[AgentAccepted]]);
      Reachable(s) && Enabled(s, WriteConnected(1)) && Apply(s, WriteConnected(1)).status == Connected
  {
    HangupSees();
    hide Reachable;
    var waits: seq<seq<Winner>> := [[]];
    assert waits[0] + [AgentAccepted] == [AgentAccepted];
    var s1 := Simple(Connected, map[0 := Marking, 1 := Connecting], [[AgentAccepted]]);
    NextIs(Simple(Waiting, map[0 := Marking, 1 := Found(ToAccept)], [[]]), Accept(1), s1);
    NextIs(s1, Mark(0), Simple(Abandoned, map[0 := Taking, 1 := Connecting], [[AgentAccepted]]));
  }

  // ----- A bridge on a session that is gone -----

  /** A goroutine that has the session and is about to take the bridge. */
  predicate WillTake(pc: Pc) {
    pc in {Found(ToEnd), Found(ToHold), Found(ToMove), Removing}
  }

  /** The session is gone, and the bridge is in nobody's hands and was not used. */
  ghost predicate Stranded(s: State, b: nat) {
    && !s.alive && b < |s.bridges.uses| && s.bridges.uses[b] == 0
    && (forall p | p in s.bridges.held :: s.bridges.held[p] != b)
    && forall p | p in s.procs :: !WillTake(s.procs[p])
  }

  /** What may become of a pool's holders in a step that takes nothing. */
  lemma UseLeavesOthers(p: Pool, who: Pid, b: nat)
    requires b < |p.uses| && p.uses[b] == 0 && forall q | q in p.held :: p.held[q] != b
    ensures b < |Use(p, who).uses| && Use(p, who).uses[b] == 0 && forall q | q in Use(p, who).held :: Use(p, who).held[q] != b
    ensures b < |PutFresh(p).uses| && PutFresh(p).uses[b] == 0
  {}

  lemma StrandedStays(s: State, step: Step, b: nat)
    requires Stranded(s, b) && Enabled(s, step)
    ensures Stranded(Apply(s, step), b)
  {
    var p, s' := Actor(step), Apply(s, step);
    UseLeavesOthers(s.bridges, p, b);
    BridgesChange(s, step);
    StepMovesOne(s, step);
    NobodyTakes(s, step);
    ChangeOnly(s, step);
    if HasActor(step) {
      ActorGoesOn(s, step);
    }
    hide PutFresh, Take, Use, Apply, Enabled, Change, Next;
    forall q | q in s'.procs && q != p ensures !WillTake(s'.procs[q]) {
      assert q in (s'.procs - {p}) && (s.procs - {p})[q] == (s'.procs - {p})[q];
    }
  }

  lemma NobodyTakes(s: State, step: Step)
    requires !s.alive && Enabled(s, step) && forall p | p in s.procs :: !WillTake(s.procs[p])
    ensures !step.End? && !step.Remove? && !step.Hold? && !step.Reassign? && !Change(s, step).alive
    ensures HasActor(step) ==> Next(s, step).None? || !WillTake(Next(s, step).value)
  {
    hide PutFresh, Take, Use;
  }

  lemma {:induction false} StrandedForGood(states: seq<State>, steps: seq<Step>, calm: bool, k: nat, b: nat)
    requires IsPath(states, steps, calm) && Stranded(states[0], b) && k < |states|
    ensures Stranded(states[k], b)
  {
    hide Apply, Enabled, Stranded;
    if k > 0 {
      StrandedForGood(states, steps, calm, k - 1, b);
      var s, s' := states[k - 1], states[k];
      assert Enabled(s, steps[k - 1]) && s' == Apply(s, steps[k - 1]);
      StrandedStays(s, steps[k - 1], b);
    }
  }

  lemma {:induction false} UpperBound(s: set<Pid>) returns (n: Pid)
    ensures forall p | p in s :: p < n
    decreases |s|
  {
    if s == {} {
      n := 0;
    } else {
      var p :| p in s;
      var m := UpperBound(s - {p});
      n := if p < m then m else p + 1;
      forall q | q in s ensures q < n {
        assert q == p || q in s - {p};
      }
    }
  }

  lemma NewPid(s: State) returns (p: Pid)
    ensures IsNew(s, p)
  {
    p := UpperBound(s.procs.Keys + s.dones.held.Keys + s.bridges.held.Keys);
  }

  ghost predicate IsUsed(s: State, b: nat) {
    b < |s.bridges.uses| && s.bridges.uses[b] > 0
  }

  /** Taken and then stopped. */
  lemma TakenIsUsed(p: Pool, who: Pid)
    requires TakenOnce(p) && p.slot.Some? && who !in p.held
    ensures var u := Use(Take(p, who), who).uses; p.slot.value < |u| && u[p.slot.value] == 1
  {
    var t := Take(p, who);
    assert who in t.held && t.held[who] == p.slot.value && t.uses == p.uses && p.uses[p.slot.value] == 0;
    assert Use(t, who).uses == t.uses[p.slot.value := t.uses[p.slot.value] + 1];
  }

  /** Two steps, the first of which takes the bridge and the second stops it. */
  lemma TakeThenUse(s: State, s0: State, p: Pid, first: Step, second: Step, b: nat) returns (s': State)
    requires Reaches(s, s0, false) && TakenOnce(s0.bridges) && s0.bridges.slot == Some(b) && p !in s0.bridges.held
    requires Enabled(s0, first) && Apply(s0, first).bridges == Take(s0.bridges, p)
    requires Enabled(Apply(s0, first), second)
    requires Apply(Apply(s0, first), second).bridges == Use(Apply(s0, first).bridges, p)
    ensures Reaches(s, s', false) && IsUsed(s', b)
  {
    TakenIsUsed(s0.bridges, p);
    hide TakenOnce, Reaches, Use, Take, Apply, Enabled;
    OneStepMore(s, s0, first, false);
    OneStepMore(s, Apply(s0, first), second, false);
    s' := Apply(Apply(s0, first), second);
  }

  lemma TakerUses(s: State, p: Pid, b: nat) returns (s': State)
    requires Inv(s) && s.bridges.slot == Some(b) && p in s.procs && WillTake(s.procs[p])
    ensures Reaches(s, s', false) && IsUsed(s', b)
  {
    assert p !in s.bridges.held;
    hide TakenOnce, OneWins, HoldersOk, Reaches, IsUsed;
    match s.procs[p]
    case Removing => s' := RemoverUses(s, p, b);
    case Found(ToHold) => s' := HolderUses(s, p, b);
    case Found(ToEnd) => s' := EnderUses(s, p, b);
    case Found(ToMove) => s' := MoverUses(s, p, b);
  }

  lemma RemoverUses(s: State, p: Pid, b: nat) returns (s': State)
    requires TakenOnce(s.bridges) && s.bridges.slot == Some(b) && p !in s.bridges.held && At(s, p, Removing)
    ensures Reaches(s, s', false) && IsUsed(s', b)
  {
    ReachesItself(s, false);
    hide TakenOnce, Reaches, IsUsed, Use, Take;
    s' := TakeThenUse(s, s, p, Remove(p), Close(p), b);
  }

  lemma HolderUses(s: State, p: Pid, b: nat) returns (s': State)
    requires TakenOnce(s.bridges) && s.bridges.slot == Some(b) && p !in s.bridges.held && At(s, p, Found(ToHold))
    ensures Reaches(s, s', false) && IsUsed(s', b)
  {
    ReachesItself(s, false);
    hide TakenOnce, Reaches, IsUsed, Use, Take;
    s' := TakeThenUse(s, s, p, Hold(p), Stop(p), b);
  }

  lemma EnderUses(s: State, p: Pid, b: nat) returns (s': State)
    requires TakenOnce(s.bridges) && s.bridges.slot == Some(b) && p !in s.bridges.held && At(s, p, Found(ToEnd))
    ensures Reaches(s, s', false) && IsUsed(s', b)
  {
    ReachesItself(s, false);
    hide TakenOnce, Reaches, IsUsed, Use, Take;
    var s0 := s;
    if s.status == Completed {
      s0 := Apply(s, BeginWaiting);
      OneStepMore(s, s, BeginWaiting, false);
    }
    s' := TakeThenUse(s, s0, p, End(p), Halt(p), b);
  }

  lemma MoverUses(s: State, p: Pid, b: nat) returns (s': State)
    requires TakenOnce(s.bridges) && s.bridges.slot == Some(b) && p !in s.bridges.held && At(s, p, Found(ToMove))
    ensures Reaches(s, s', false) && IsUsed(s', b)
  {
    ReachesItself(s, false);
    hide TakenOnce, Reaches, IsUsed, Use, Take;
    var s0 := s;
    if s.status == Waiting {
      var q := NewPid(s);
      s0 := Apply(s, ClaimNoAnswer(q));
      OneStepMore(s, s, ClaimNoAnswer(q), false);
      assert At(s0, p, Found(ToMove)) && s0.status == NoAnswer && s0.bridges == s.bridges;
    }
    s' := MoveTakesAndStops(s, s0, p, b);
  }

  lemma MoveTakesAndStops(s: State, s0: State, p: Pid, b: nat) returns (s': State)
    requires Reaches(s, s0, false) && s0.status != Waiting && At(s0, p, Found(ToMove))
    requires TakenOnce(s0.bridges) && s0.bridges.slot == Some(b) && p !in s0.bridges.held
    ensures Reaches(s, s', false) && IsUsed(s', b)
  {
    hide TakenOnce, Reaches, IsUsed, Use, Take;
    s' := TakeThenUse(s, s0, p, Reassign(p), Stop(p), b);
  }

  /**
   A bridge that is on a session after its removal is stopped in some continuation if and only if a
   goroutine that already has the session is about to take it: nobody can find the session any more.
   */
  lemma BridgeIsStoppedExactlyWhen(s: State, b: nat)
    requires Inv(s) && !s.alive && s.bridges.slot == Some(b)
    ensures (exists s' :: Reaches(s, s', false) && IsUsed(s', b)) <==> exists p | p in s.procs :: WillTake(s.procs[p])
  {
    if p :| p in s.procs && WillTake(s.procs[p]) {
      var s' := TakerUses(s, p, b);
    } else {
      assert Stranded(s, b);
      hide Stranded, Inv, IsPath;
      forall s' | Reaches(s, s', false) ensures !IsUsed(s', b) {
        var states, steps :| IsPath(states, steps, false) && states[0] == s && states[|steps|] == s';
        NeverUsed(states, steps, b);
      }
    }
  }

  lemma NeverUsed(states: seq<State>, steps: seq<Step>, b: nat)
    requires IsPath(states, steps, false) && Stranded(states[0], b)
    ensures !IsUsed(states[|steps|], b)
  {
    StrandedForGood(states, steps, false, |steps|, b);
  }

  function Gone(procs: map<Pid, Pc>, bridges: Pool): State {
    State(false, true, Connected, EMPTY, bridges, procs, [[AgentAccepted]])
  }

  lemma HangupCleansUp()
    ensures Reachable(Gone(map[0 := Removing, 1 := Wiring], EMPTY))
  {
    AbandonedMayConnect();
    hide Reachable;
    var w := [[AgentAccepted]];
    var s1 := Simple(Connected, map[0 := Taking, 1 := Wiring], w);
    NextIs(Simple(Abandoned, map[0 := Taking, 1 := Connecting], w), WriteConnected(1), s1);
    HangupTakesNothing();
  }

  lemma HangupTakesNothing()
    requires Reachable(Simple(Connected, map[0 := Taking, 1 := Wiring], [[AgentAccepted]]))
    ensures Reachable(Gone(map[0 := Removing, 1 := Wiring], EMPTY))
  {
    hide Reachable;
    var w := [[AgentAccepted]];
    var s1 := Simple(Connected, map[0 := Taking, 1 := Wiring], w);
    NextIs(s1, TakeDone(0), Simple(Connected, map[0 := Delivering, 1 := Wiring], w));
    HangupRemoves();
  }

  lemma HangupRemoves()
    requires Reachable(Simple(Connected, map[0 := Delivering, 1 := Wiring], [[AgentAccepted]]))
    ensures Reachable(Gone(map[0 := Removing, 1 := Wiring], EMPTY))
  {
    hide Reachable;
    var w := [[AgentAccepted]];
    var s1 := Simple(Connected, map[0 := Cleaning, 1 := Wiring], w);
    NextIs(Simple(Connected, map[0 := Delivering, 1 := Wiring], w), Deliver(0), s1);
    NextIs(s1, CheckAlive(0), Gone(map[0 := Removing, 1 := Wiring], EMPTY));
  }

  /** Then the session may be gone by the time the bridge is set, and whatever happens nobody stops that bridge. */
  lemma BridgeMayOutliveTheSession()
    ensures
      var s := Gone(map[], PutFresh(EMPTY));
      Reachable(s) && s.bridges.slot == Some(0) && forall s' | Reaches(s, s', false) :: !IsUsed(s', 0)
  {
    BridgeIsSetLate();
    var s := Gone(map[], PutFresh(EMPTY));
    assert Inv(s);
    hide Reachable, Inv;
    BridgeIsStoppedExactlyWhen(s, 0);
  }

  lemma HangupEnds()
    ensures Reachable(Gone(map[1 := Wiring], EMPTY))
  {
    HangupCleansUp();
    hide Reachable;
    var s1 := Gone(map[0 := Closing, 1 := Wiring], EMPTY);
    NextIs(Gone(map[0 := Removing, 1 := Wiring], EMPTY), Remove(0), s1);
    NextIs(s1, Close(0), Gone(map[1 := Wiring], EMPTY));
  }

  lemma BridgeIsSetLate()
    ensures Reachable(Gone(map[], PutFresh(EMPTY)))
  {
    HangupEnds();
    hide Reachable;
    NextIs(Gone(map[1 := Wiring], EMPTY), SetBridge(1), Gone(map[], PutFresh(EMPTY)));
  }
}
