/** Ringing the agents of a team one after another, and what is left for everybody at once. */
module Rotation {
  import opened Basics
  import opened Assignment

  datatype Ending =
    | TakenOrLeft      // the transfer was no longer waiting, or accepted meanwhile
    | NoAnswer
    | Unanswered       // given up on the way out of the broadcast

  datatype Wait = AgentTimeout | Accepted | TotalTimeout

  /**
   What the rotation meets. At the k-th turn: who is eligible, who is on a call, whether the total time is
   up, whether the transfer is still waiting, and what ends the wait for the agent rung; and what it meets
   when the turns are over.
   */
  datatype World = World(
    eligibleAt: nat -> set<Id>, busyAt: nat -> set<Id>, expiredAt: nat -> bool, waitingAt: nat -> bool, waitOf: nat -> Wait,
    waitingAfter: bool, expiredAfter: bool, acceptedLast: bool, waitingLast: bool)

  /** Who has not been tried yet. */
  function Untried(members: seq<Id>, tried: seq<Id>): set<Id> {
    SetOf(members) - SetOf(tried)
  }

  lemma TryingLeavesFewer(members: seq<Id>, tried: seq<Id>, a: Id)
    requires a in members && a !in tried
    ensures Untried(members, tried + [a]) < Untried(members, tried)
  {
    assert a in Untried(members, tried);
    forall i | i in Untried(members, tried + [a]) ensures i in Untried(members, tried) && i != a {
      assert i !in tried + [a];
    }
  }

  /** Nobody becomes eligible, or stops being, while the rotation goes on. */
  ghost predicate Frozen(eligibleAt: nat -> set<Id>) {
    forall k: nat :: eligibleAt(k) == eligibleAt(0)
  }

  lemma FrozenMeans(eligibleAt: nat -> set<Id>, k: nat)
    requires k > 0
    ensures Frozen(eligibleAt) ==> eligibleAt(k) == eligibleAt(k - 1)
  {}

  lemma OneMore(s: seq<Id>, a: Id)
    requires Distinct(s) && a !in s
    ensures Distinct(s + [a])
  {}

  /** Nobody is tried twice, nobody from outside, and the rest are neither tried nor busy. */
  predicate RungOnce(members: seq<Id>, tried: seq<Id>, rung: seq<Id>, fallback: seq<Id>, busy: set<Id>) {
    && Distinct(tried) && Distinct(rung)
    && (forall i | i in tried :: i in members) && (forall i | i in rung :: i in tried)
    && (forall i | i in fallback :: i in members && i !in tried && i !in busy)
    && (Distinct(members) ==> Distinct(fallback))
  }

  lemma NoRest(members: seq<Id>, tried: seq<Id>, rung: seq<Id>, busy: set<Id>)
    requires RungOnce(members, tried, rung, [], {})
    ensures RungOnce(members, tried, rung, [], busy)
  {}

  lemma OneMoreTried(members: seq<Id>, tried: seq<Id>, rung: seq<Id>, a: Id)
    requires RungOnce(members, tried, rung, [], {}) && a in members && a !in tried
    ensures RungOnce(members, tried + [a], rung, [], {}) && RungOnce(members, tried + [a], rung + [a], [], {})
    ensures |Untried(members, tried + [a])| < |Untried(members, tried)|
  {
    OneMore(tried, a);
    OneMore(rung, a);
    TryingLeavesFewer(members, tried, a);
    SmallerSet(Untried(members, tried + [a]), Untried(members, tried));
  }

  lemma TheRest(members: seq<Id>, tried: seq<Id>, rung: seq<Id>, fallback: seq<Id>, eligible: set<Id>, busy: set<Id>)
    requires RungOnce(members, tried, rung, [], {})
    requires forall i | i in fallback :: i in Eligible(members, tried, eligible) && i !in busy
    requires Distinct(Eligible(members, tried, eligible)) ==> Distinct(fallback)
    ensures RungOnce(members, tried, rung, fallback, busy)
  {
    if Distinct(members) {
      EligibleIsDistinct(members, tried, eligible);
    }
  }

  /** When an assignment finds no one and eligibility stands still, there is no one left to tell, except by hand. */
  lemma NoneIsLeft(team: set<Id>, strategy: Strategy, members: seq<Id>, tried: seq<Id>, eligible: set<Id>, fallback: seq<Id>)
    requires strategy != Manual ==> forall i | i in Eligible(members, tried, eligible) :: i !in team
    requires forall i | i in members :: i in team
    requires forall i | i in fallback :: i in Eligible(members, tried, eligible)
    ensures fallback != [] ==> strategy == Manual
  {
    if fallback != [] {
      assert fallback[0] in Eligible(members, tried, eligible);
    }
  }

  lemma StoodStill(team: set<Id>, strategy: Strategy, members: seq<Id>, tried: seq<Id>, eligibleAt: nat -> set<Id>, looks: nat, fallback: seq<Id>)
    requires looks > 0
    requires strategy != Manual ==> forall i | i in Eligible(members, tried, eligibleAt(looks - 1)) :: i !in team
    requires forall i | i in fallback :: i in Eligible(members, tried, eligibleAt(looks))
    ensures Frozen(eligibleAt) && (forall i | i in members :: i in team) && fallback != [] ==> strategy == Manual
  {
    FrozenMeans(eligibleAt, looks);
    hide Frozen, Eligible;
    if Frozen(eligibleAt) && forall i | i in members :: i in team {
      NoneIsLeft(team, strategy, members, tried, eligibleAt(looks), fallback);
    }
  }

  /** The k-th agent tried was rung and ended the rotation, by accepting or by using up the time. */
  predicate EndedBy(w: World, tried: seq<Id>, k: nat, wait: Wait)
    requires k < |tried|
  {
    tried[k] !in w.busyAt(k + 1) && w.waitOf(k) == wait
  }

  /** Turns are taken while the transfer waits and there is time, each by someone eligible, and none after an agent has accepted. */
  ghost predicate InTurn(w: World, tried: seq<Id>, rung: seq<Id>) {
    && (forall k: nat | k < |tried| :: w.waitingAt(k) && !w.expiredAt(k) && tried[k] in w.eligibleAt(k))
    && (forall k: nat | k < |tried| :: tried[k] in rung <==> tried[k] !in w.busyAt(k + 1))
    && forall k: nat | k + 1 < |tried| :: !EndedBy(w, tried, k, Accepted) && !EndedBy(w, tried, k, TotalTimeout)
  }

  lemma OneMoreTurn(w: World, members: seq<Id>, tried: seq<Id>, rung: seq<Id>, a: Id)
    requires RungOnce(members, tried, rung, [], {}) && InTurn(w, tried, rung) && a !in tried
    requires w.waitingAt(|tried|) && !w.expiredAt(|tried|) && a in w.eligibleAt(|tried|)
    requires tried != [] ==> !EndedBy(w, tried, |tried| - 1, Accepted) && !EndedBy(w, tried, |tried| - 1, TotalTimeout)
    ensures a in w.busyAt(|tried| + 1) ==> InTurn(w, tried + [a], rung)
    ensures a !in w.busyAt(|tried| + 1) ==> InTurn(w, tried + [a], rung + [a])
  {
    var all := tried + [a];
    assert forall k: nat | k < |tried| :: all[k] == tried[k] && all[k] in tried;
    forall k: nat | k + 1 < |all| ensures !EndedBy(w, all, k, Accepted) && !EndedBy(w, all, k, TotalTimeout) {
      assert !EndedBy(w, tried, k, Accepted) && !EndedBy(w, tried, k, TotalTimeout);
    }
  }

  lemma LastEnded(w: World, tried: seq<Id>, a: Id)
    ensures EndedBy(w, tried + [a], |tried|, Accepted) <==> a !in w.busyAt(|tried| + 1) && w.waitOf(|tried|) == Accepted
    ensures EndedBy(w, tried + [a], |tried|, TotalTimeout) <==> a !in w.busyAt(|tried| + 1) && w.waitOf(|tried|) == TotalTimeout
  {}

  /** The agents of a team one after another, and whoever is left at once. */
  method RunTransferRotation(assigner: Assigner, strategy: Strategy, members: seq<Id>, w: World, load: Id -> nat)
    returns (ending: Ending, tried: seq<Id>, rung: seq<Id>, fallback: seq<Id>, looks: nat)
    modifies assigner
    ensures RungOnce(members, tried, rung, fallback, w.busyAt(looks)) && InTurn(w, tried, rung)
    ensures |tried| <= looks <= |SetOf(members)| + 1 && looks <= |tried| + 1
    // the turns stop only when an agent accepts, nobody waits, the time is up, or nobody is left to try
    ensures
      || (tried != [] && (EndedBy(w, tried, |tried| - 1, Accepted) || EndedBy(w, tried, |tried| - 1, TotalTimeout)))
      || !w.waitingAt(|tried|) || w.expiredAt(|tried|) || strategy == Manual
      || forall i | i in members && i !in tried && i in w.eligibleAt(|tried|) :: i !in old(assigner.team)
    // accepted, the rotation is over at once; there is no answer only if the customer waits
    ensures tried != [] && EndedBy(w, tried, |tried| - 1, Accepted) ==> ending == TakenOrLeft && looks == |tried|
    ensures ending == NoAnswer && looks == |tried| ==> w.waitingAfter
    ensures ending == TakenOrLeft && looks == |tried| ==>
      || (tried != [] && EndedBy(w, tried, |tried| - 1, Accepted))
      || !w.waitingAt(looks) || !w.waitingAfter
    // the broadcast
    ensures looks == |tried| + 1 ==> w.waitingAfter && !w.expiredAfter && w.waitingAt(|tried|) && !w.expiredAt(|tried|)
    ensures looks == |tried| + 1 && tried != [] ==> !EndedBy(w, tried, |tried| - 1, TotalTimeout)
    ensures looks == |tried| + 1 ==> forall i | i in members && i !in tried && i in w.eligibleAt(looks) && i !in w.busyAt(looks) :: i in fallback
    ensures fallback != [] ==> looks == |tried| + 1
    ensures forall i | i in fallback :: i in members && i !in tried && i in w.eligibleAt(looks) && i !in w.busyAt(looks)
    ensures looks == |tried| + 1 && fallback == [] ==> ending == if w.waitingLast then NoAnswer else TakenOrLeft
    ensures fallback != [] ==> ending == if w.acceptedLast then TakenOrLeft else if w.waitingLast then NoAnswer else Unanswered
    // with nobody becoming eligible meanwhile
    ensures Frozen(w.eligibleAt) && (forall i | i in members :: i in old(assigner.team)) && fallback != [] ==> strategy == Manual
  {
    hide RungOnce, Untried, Eligible, Distinct, Frozen, InTurn, EndedBy;
    ghost var team := assigner.team.Keys;
    var over, nobody, left;
    ghost var timedOut;
    over, nobody, left, tried, rung, timedOut := TakeTurns(assigner, strategy, members, w, load);
    looks, fallback := |tried|, [];
    NoRest(members, tried, rung, w.busyAt(looks));
    if over || left {
      return TakenOrLeft, tried, rung, [], looks;
    }
    if !w.waitingAfter || w.expiredAfter || !nobody {
      return if w.waitingAfter then NoAnswer else TakenOrLeft, tried, rung, [], looks;
    }
    looks := looks + 1;
    ending, fallback := Broadcast(members, tried, w.eligibleAt(looks), w.busyAt(looks), w.acceptedLast, w.waitingLast);
    TheRest(members, tried, rung, fallback, w.eligibleAt(looks), w.busyAt(looks));
    StoodStill(team, strategy, members, tried, w.eligibleAt, looks, fallback);
  }

  /** The turns so far, and what the last of them came to. */
  ghost predicate TurnsSoFar(w: World, members: seq<Id>, tried: seq<Id>, rung: seq<Id>, over: bool, timedOut: bool) {
    && RungOnce(members, tried, rung, [], {}) && InTurn(w, tried, rung)
    && (over <==> tried != [] && EndedBy(w, tried, |tried| - 1, Accepted))
    && (timedOut <==> tried != [] && EndedBy(w, tried, |tried| - 1, TotalTimeout))
  }

  lemma NoTurnYet(w: World, members: seq<Id>)
    ensures TurnsSoFar(w, members, [], [], false, false) && Untried(members, []) == SetOf(members)
  {}

  /** The turns. They are over when an agent accepts or nobody waits; or nobody is left to try, or the time is up. */
  method TakeTurns(assigner: Assigner, strategy: Strategy, members: seq<Id>, w: World, load: Id -> nat)
    returns (over: bool, nobody: bool, left: bool, tried: seq<Id>, rung: seq<Id>, ghost timedOut: bool)
    modifies assigner
    ensures TurnsSoFar(w, members, tried, rung, over, timedOut) && |tried| <= |SetOf(members)|
    ensures left ==> !w.waitingAt(|tried|)
    ensures !over && !left && !nobody ==> timedOut || w.expiredAt(|tried|)
    ensures nobody ==> !over && !timedOut && w.waitingAt(|tried|) && !w.expiredAt(|tried|)
    ensures nobody && strategy != Manual ==> forall i | i in Eligible(members, tried, w.eligibleAt(|tried|)) :: i !in old(assigner.team)
  {
    hide *;
    over, nobody, left, tried, rung := false, false, false, [], [];
    NoTurnYet(w, members);
    var late := false;
    timedOut := late;
    while !w.expiredAt(|tried|) && !late && !over
      invariant TurnsSoFar(w, members, tried, rung, over, late) && timedOut == late
      invariant assigner.team.Keys == old(assigner.team).Keys && |Untried(members, tried)| + |tried| <= |SetOf(members)|
      decreases |Untried(members, tried)|
    {
      if !w.waitingAt(|tried|) {
        left := true;
        return;
      }
      var agent := NextAgent(assigner, strategy, members, tried, w.eligibleAt(|tried|), load);
      if agent.None? {
        nobody := true;
        return;
      }
      tried, rung, over, late := TakeTurn(members, tried, rung, w, agent.value);
      timedOut := late;
    }
  }

  method NextAgent(assigner: Assigner, strategy: Strategy, members: seq<Id>, tried: seq<Id>, eligible: set<Id>, load: Id -> nat)
    returns (agent: Option<Id>)
    modifies assigner
    ensures assigner.team.Keys == old(assigner.team.Keys)
    ensures agent.Some? ==> agent.value in members && agent.value !in tried && agent.value in eligible
    ensures agent.None? && strategy != Manual ==> forall i | i in Eligible(members, tried, eligible) :: i !in old(assigner.team)
  {
    var now: int := *;
    agent := assigner.AssignToTeam(strategy, members, tried, eligible, load, now);
  }

  /** The turn of an agent: passed over on a call, rung otherwise, and then waited for. */
  method TakeTurn(members: seq<Id>, tried0: seq<Id>, rung0: seq<Id>, w: World, a: Id)
    returns (tried: seq<Id>, rung: seq<Id>, over: bool, late: bool)
    requires TurnsSoFar(w, members, tried0, rung0, false, false) && a in members && a !in tried0
    requires w.waitingAt(|tried0|) && !w.expiredAt(|tried0|) && a in w.eligibleAt(|tried0|)
    ensures TurnsSoFar(w, members, tried, rung, over, late) && |tried| == |tried0| + 1
    ensures |Untried(members, tried)| < |Untried(members, tried0)|
  {
    hide RungOnce, Untried, Distinct, InTurn, EndedBy;
    OneMoreTried(members, tried0, rung0, a);
    OneMoreTurn(w, members, tried0, rung0, a);
    LastEnded(w, tried0, a);
    tried, rung, over, late := tried0 + [a], rung0, false, false;
    if a !in w.busyAt(|tried|) {
      rung := rung + [a];
      match w.waitOf(|tried0|)
      case AgentTimeout =>
      case Accepted => over := true;
      case TotalTimeout => late := true;
    }
  }

  /** Everybody who is left and free hears of it at once. */
  method Broadcast(members: seq<Id>, tried: seq<Id>, eligible: set<Id>, busy: set<Id>, accepted: bool, waiting: bool)
    returns (ending: Ending, fallback: seq<Id>)
    ensures forall i | i in fallback :: i in members && i !in tried && i in eligible && i !in busy
    ensures forall i | i in members && i !in tried && i in eligible && i !in busy :: i in fallback
    ensures forall i | i in fallback :: i in Eligible(members, tried, eligible)
    ensures Distinct(Eligible(members, tried, eligible)) ==> Distinct(fallback)
    ensures ending == if fallback != [] && accepted then TakenOrLeft else if waiting then NoAnswer else if fallback == [] then TakenOrLeft else Unanswered
  {
    var remaining := FilterAvailable(members, tried, eligible);
    fallback := [];
    for k := 0 to |remaining|
      invariant forall i | i in fallback :: i in remaining[..k] && i !in busy
      invariant forall j | 0 <= j < k :: remaining[j] in busy || remaining[j] in fallback
      invariant Distinct(remaining) ==> Distinct(fallback)
    {
      if remaining[k] !in busy {
        if Distinct(remaining) {
          assert remaining[k] !in remaining[..k];
        }
        fallback := fallback + [remaining[k]];
      }
    }
    if fallback == [] {
      return if waiting then NoAnswer else TakenOrLeft, [];
    }
    ending := if accepted then TakenOrLeft else if waiting then NoAnswer else Unanswered;
  }
}
