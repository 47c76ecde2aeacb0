/** Which agent of a team gets the next chat or call, and in what order agents are rung. */
module Assignment {
  import opened Basics

  type Id = nat
  type Time = int

  datatype Strategy = RoundRobin | LoadBalanced | Manual

  /** The members of a team, with the time each was last assigned something. */
  type Team = map<Id, Option<Time>>

  // ----- Choosing -----

  function Eligible(members: seq<Id>, exclude: seq<Id>, eligible: set<Id>): (out: seq<Id>)
    ensures forall i | i in out :: i in members && i !in exclude && i in eligible
    ensures forall i | i in members && i !in exclude && i in eligible :: i in out
    ensures |out| <= |members|
  {
    if members == [] then []
    else
      var before, last := Eligible(members[..|members| - 1], exclude, eligible), members[|members| - 1];
      if last !in exclude && last in eligible then before + [last] else before
  }

  lemma {:induction false} EligibleIsDistinct(members: seq<Id>, exclude: seq<Id>, eligible: set<Id>)
    requires Distinct(members)
    ensures Distinct(Eligible(members, exclude, eligible))
  {
    if members != [] {
      var before := members[..|members| - 1];
      EligibleIsDistinct(before, exclude, eligible);
      assert forall k | 0 <= k < |before| :: before[k] != members[|members| - 1];
      assert members[|members| - 1] !in before;
    }
  }

  method FilterAvailable(members: seq<Id>, exclude: seq<Id>, eligible: set<Id>) returns (out: seq<Id>)
    ensures out == Eligible(members, exclude, eligible)
  {
    out := [];
    for k := 0 to |members|
      invariant out == Eligible(members[..k], exclude, eligible)
    {
      assert members[..k + 1][..k] == members[..k];
      if members[k] !in exclude && members[k] in eligible {
        out := out + [members[k]];
      }
    }
    assert members[..|members|] == members;
  }

  /** The order of the round: those never assigned first, then the longest waiting, then by id. */
  predicate Sooner(team: Team, a: Id, b: Id)
    requires a in team && b in team
  {
    match (team[a], team[b])
    case (None, None) => a <= b
    case (None, Some(_)) => true
    case (Some(_), None) => false
    case (Some(t), Some(u)) => t < u || (t == u && a <= b)
  }

  /** The first in the round of those who are available. */
  predicate IsNext(team: Team, available: set<Id>, a: Id) {
    a in team && a in available && forall b | b in team && b in available :: Sooner(team, a, b)
  }

  /** The first of those with the fewest items. */
  predicate IsLowest(available: seq<Id>, load: Id -> nat, k: nat)
    requires k < |available|
  {
    && (forall j | 0 <= j < |available| :: load(available[k]) <= load(available[j]))
    && forall j | 0 <= j < k :: load(available[k]) < load(available[j])
  }

  method Lowest(available: seq<Id>, load: Id -> nat) returns (r: Option<Id>)
    ensures r.None? <==> available == []
    ensures r.Some? ==> exists k | 0 <= k < |available| :: IsLowest(available, load, k) && available[k] == r.value
  {
    var lowest := -1;
    r := None;
    ghost var at := 0;
    for k := 0 to |available|
      invariant k == 0 ==> r == None && lowest == -1
      invariant k > 0 ==> r.Some? && lowest == load(r.value) && 0 <= at < k && available[at] == r.value
      invariant k > 0 ==> forall j | 0 <= j < k :: lowest <= load(available[j])
      invariant k > 0 ==> forall j | 0 <= j < at :: lowest < load(available[j])
    {
      var count := load(available[k]);
      if lowest < 0 || count < lowest {
        lowest, r, at := count, Some(available[k]), k;
      }
    }
    assert r.Some? ==> IsLowest(available, load, at);
  }

  /** The m-th member may be assigned, has the fewest items of all who may, and comes first among those. */
  predicate IsFirstOf(members: seq<Id>, exclude: seq<Id>, eligible: set<Id>, load: Id -> nat, m: nat) {
    && m < |members| && members[m] !in exclude && members[m] in eligible
    && (forall j | 0 <= j < |members| && members[j] !in exclude && members[j] in eligible :: load(members[m]) <= load(members[j]))
    && forall j | 0 <= j < m && members[j] !in exclude && members[j] in eligible :: load(members[m]) < load(members[j])
  }

  /** Those who may be assigned keep their order. */
  lemma {:induction false} PlaceAmongMembers(members: seq<Id>, exclude: seq<Id>, eligible: set<Id>, k: nat) returns (m: nat)
    requires k < |Eligible(members, exclude, eligible)|
    ensures m < |members| && members[m] == Eligible(members, exclude, eligible)[k]
    ensures forall j | 0 <= j < m && members[j] !in exclude && members[j] in eligible ::
      members[j] in Eligible(members, exclude, eligible)[..k]
  {
    var before := members[..|members| - 1];
    var list := Eligible(before, exclude, eligible);
    if k < |list| {
      m := PlaceAmongMembers(before, exclude, eligible, k);
      assert Eligible(members, exclude, eligible)[..k] == list[..k];
      assert forall j | 0 <= j < m :: before[j] == members[j];
    } else {
      m := |members| - 1;
      assert Eligible(members, exclude, eligible)[..k] == list;
      assert forall j | 0 <= j < m :: before[j] == members[j] && before[j] in before;
    }
  }

  class Assigner {
    var team: Team

    /** Selection and update in one transaction, under the lock of the team. */
    method AssignRoundRobin(members: seq<Id>, exclude: seq<Id>, eligible: set<Id>, now: Time) returns (r: Option<Id>)
      modifies this
      ensures
        var available := SetOf(Eligible(members, exclude, eligible));
        match r
        case None => team == old(team) && forall i | i in available :: i !in team
        case Some(a) => IsNext(old(team), available, a) && team == old(team)[a := Some(now)]
      ensures r.None? ==> forall i | i in members && i !in exclude && i in eligible :: i !in old(team)
      ensures r.Some? ==> r.value in members && r.value !in exclude && r.value in eligible && r.value in old(team)
      // never assigned first, then the longest waiting, then by id
      ensures r.Some? ==> forall b | b in members && b !in exclude && b in eligible && b in old(team) && b != r.value ::
        match (old(team)[r.value], old(team)[b])
        case (None, None) => r.value < b
        case (None, Some(_)) => true
        case (Some(_), None) => false
        case (Some(t), Some(u)) => t < u || (t == u && r.value < b)
    {
      var list := FilterAvailable(members, exclude, eligible);
      r := None;
      for k := 0 to |list|
        invariant team == old(team)
        invariant r.None? ==> forall j | 0 <= j < k :: list[j] !in team
        invariant r.Some? ==> r.value in team && r.value in list
        invariant r.Some? ==> forall j | 0 <= j < k && list[j] in team :: Sooner(team, r.value, list[j])
      {
        if list[k] in team && (r.None? || !Sooner(team, r.value, list[k])) {
          r := Some(list[k]);
        }
      }
      if r.Some? {
        team := team[r.value := Some(now)];
      }
    }

    method AssignToTeam(strategy: Strategy, members: seq<Id>, exclude: seq<Id>, eligible: set<Id>, load: Id -> nat, now: Time)
      returns (r: Option<Id>)
      modifies this
      ensures r.Some? ==> r.value in Eligible(members, exclude, eligible)
      ensures strategy == RoundRobin && r.Some? ==>
        IsNext(old(team), SetOf(Eligible(members, exclude, eligible)), r.value) && team == old(team)[r.value := Some(now)]
      ensures strategy == LoadBalanced && r.Some? ==>
        forall i | i in Eligible(members, exclude, eligible) :: load(r.value) <= load(i)
      ensures strategy == LoadBalanced && r.Some? ==> exists m: nat :: IsFirstOf(members, exclude, eligible, load, m) && members[m] == r.value
      ensures strategy != RoundRobin || r.None? ==> team == old(team)
      ensures r.None? && strategy != Manual ==> forall i | i in Eligible(members, exclude, eligible) :: i !in old(team)
      ensures team.Keys == old(team).Keys
      ensures strategy == Manual ==> r.None?
    {
      match strategy
      case RoundRobin => r := AssignRoundRobin(members, exclude, eligible, now);
      case LoadBalanced =>
        var list := FilterAvailable(members, exclude, eligible);
        r := Lowest(list, load);
        if r.Some? {
          var k :| 0 <= k < |list| && IsLowest(list, load, k) && list[k] == r.value;
          var m := PlaceAmongMembers(members, exclude, eligible, k);
          assert IsFirstOf(members, exclude, eligible, load, m);
        }
      case Manual => r := None;
    }
  }

  // ----- The round is fair -----

  datatype Pick = Pick(agent: Id, available: set<Id>, at: Time)

  /** Assignments in a row, at increasing times, none earlier than what the team already had. */
  ghost predicate IsRound(teams: seq<Team>, picks: seq<Pick>) {
    && |teams| == |picks| + 1
    && (forall k | 0 <= k < |picks| ::
          IsNext(teams[k], picks[k].available, picks[k].agent) && teams[k + 1] == teams[k][picks[k].agent := Some(picks[k].at)])
    && (forall j, k | 0 <= j < k < |picks| :: picks[j].at < picks[k].at)
    && forall i, k | i in teams[0] && teams[0][i].Some? && 0 <= k < |picks| :: teams[0][i].value < picks[k].at
  }

  /** A time that is not from before a pick was written by that pick or a later one. */
  lemma {:induction false} TimesComeFromPicks(teams: seq<Team>, picks: seq<Pick>, i: nat, j: nat, b: Id) returns (k: nat)
    requires IsRound(teams, picks) && i < |picks| && i < j <= |picks|
    requires b in teams[j] && teams[j][b].Some? && teams[j][b].value >= picks[i].at
    ensures i <= k < j && picks[k].agent == b && teams[j][b] == Some(picks[k].at)
    decreases j
  {
    if picks[j - 1].agent == b {
      k := j - 1;
    } else if i == j - 1 {
      NotYet(teams, picks, i, i, b);
      k := i;
    } else {
      k := TimesComeFromPicks(teams, picks, i, j - 1, b);
    }
  }

  lemma {:induction false} NotYet(teams: seq<Team>, picks: seq<Pick>, i: nat, j: nat, b: Id)
    requires IsRound(teams, picks) && i < |picks| && j <= i && b in teams[j] && teams[j][b].Some?
    ensures teams[j][b].value < picks[i].at
    decreases j
  {
    if j > 0 && picks[j - 1].agent != b {
      NotYet(teams, picks, i, j - 1, b);
    }
  }

  /** The agent's time stays as its pick wrote it until the next one. */
  lemma {:induction false} TimeStays(teams: seq<Team>, picks: seq<Pick>, i: nat, j: nat)
    requires IsRound(teams, picks) && i < j <= |picks|
    requires forall k | i < k < j :: picks[k].agent != picks[i].agent
    ensures picks[i].agent in teams[j] && teams[j][picks[i].agent] == Some(picks[i].at)
    decreases j
  {
    if j > i + 1 {
      TimeStays(teams, picks, i, j - 1);
    }
  }

  /** Between two picks of an agent, everyone else who is available at the second was picked. */
  lemma NobodyIsPassedOver(teams: seq<Team>, picks: seq<Pick>, i: nat, j: nat, b: Id) returns (k: nat)
    requires IsRound(teams, picks) && i < j < |picks| && picks[i].agent == picks[j].agent
    requires forall k | i < k < j :: picks[k].agent != picks[i].agent
    requires b in picks[j].available && b in teams[j] && b != picks[j].agent
    ensures i < k < j && picks[k].agent == b
  {
    TimeStays(teams, picks, i, j);
    assert Sooner(teams[j], picks[j].agent, b);
    k := TimesComeFromPicks(teams, picks, i, j, b);
  }

  function Agents(picks: seq<Pick>): (s: seq<Id>)
    ensures |s| == |picks|
  {
    seq(|picks|, k requires 0 <= k < |picks| => picks[k].agent)
  }

  function SetOf(s: seq<Id>): (r: set<Id>)
    ensures forall i | i in s :: i in r
    ensures forall i | i in r :: i in s
  {
    set i | i in s
  }

  lemma {:induction false} ElementsAtMost(s: seq<Id>)
    ensures |SetOf(s)| <= |s|
    ensures Distinct(s) ==> |SetOf(s)| == |s|
  {
    if s != [] {
      var before, last := s[..|s| - 1], s[|s| - 1];
      ElementsAtMost(before);
      AddOne(SetOf(before), last);
      assert SetOf(s) == SetOf(before) + {last};
      if Distinct(s) {
        assert forall k | 0 <= k < |before| :: before[k] == s[k] != last;
        assert Distinct(before) && last !in before;
      }
    }
  }

  /** Two picks of the same agent are at least as far apart as there are agents available. */
  lemma PicksAreApart(teams: seq<Team>, picks: seq<Pick>, available: set<Id>, i: nat, j: nat)
    requires IsRound(teams, picks) && i < j < |picks| && picks[i].agent == picks[j].agent
    requires forall k | i < k < j :: picks[k].agent != picks[i].agent
    requires picks[j].available == available && available <= teams[j].Keys
    ensures j - i >= |available|
  {
    var between := Agents(picks[i + 1..j]);
    var seen := SetOf(between);
    var agent := picks[j].agent;
    forall b | b in available && b != agent ensures b in seen {
      SeenBetween(teams, picks, i, j, b);
    }
    hide IsRound, Agents;
    ElementsAtMost(between);
    AddOne(seen, agent);
    assert available <= seen + {agent};
    SubsetSize(available, seen + {agent});
  }

  lemma SeenBetween(teams: seq<Team>, picks: seq<Pick>, i: nat, j: nat, b: Id)
    requires IsRound(teams, picks) && i < j < |picks| && picks[i].agent == picks[j].agent
    requires forall k | i < k < j :: picks[k].agent != picks[i].agent
    requires b in picks[j].available && b in teams[j] && b != picks[j].agent
    ensures b in Agents(picks[i + 1..j])
  {
    var k := NobodyIsPassedOver(teams, picks, i, j, b);
    hide IsRound;
    assert Agents(picks[i + 1..j])[k - (i + 1)] == b;
  }

  lemma {:induction false} LastBefore(picks: seq<Pick>, i: nat, j: nat) returns (k: nat)
    requires i < j < |picks| && picks[i].agent == picks[j].agent
    ensures i <= k < j && picks[k].agent == picks[j].agent && forall m | k < m < j :: picks[m].agent != picks[j].agent
    decreases j - i
  {
    k := i;
    if m :| i < m < j && picks[m].agent == picks[j].agent {
      k := LastBefore(picks, m, j);
    }
  }

  lemma {:induction false} KeysStay(teams: seq<Team>, picks: seq<Pick>, k: nat)
    requires IsRound(teams, picks) && k < |teams|
    ensures teams[k].Keys == teams[0].Keys
  {
    if k > 0 {
      KeysStay(teams, picks, k - 1);
    }
  }

  /** With a fixed set of n agents available, any n picks in a row go to each of them once. */
  lemma RoundIsAPermutation(teams: seq<Team>, picks: seq<Pick>, available: set<Id>, from: nat)
    requires IsRound(teams, picks) && from + |available| <= |picks| && available <= teams[0].Keys
    requires forall k | 0 <= k < |picks| :: picks[k].available == available
    ensures multiset(Agents(picks[from..from + |available|])) == multiset(available)
  {
    var s := Agents(picks[from..from + |available|]);
    forall j, k | 0 <= j < k < |s| ensures s[j] != s[k] {
      NoneTwice(teams, picks, available, from + j, from + k);
    }
    var seen := SetOf(s);
    forall k: nat | k < |s| ensures s[k] in available {
      assert IsNext(teams[from + k], picks[from + k].available, picks[from + k].agent);
    }
    assert seen <= available;
    hide IsRound, Agents;
    ElementsAtMost(s);
    SameSize(seen, available);
    DistinctIsSet(s);
  }

  lemma NoneTwice(teams: seq<Team>, picks: seq<Pick>, available: set<Id>, j: nat, k: nat)
    requires IsRound(teams, picks) && j < k < |picks| && k - j < |available| && available <= teams[0].Keys
    requires picks[k].available == available
    ensures picks[j].agent != picks[k].agent
  {
    if picks[j].agent == picks[k].agent {
      var m := LastBefore(picks, j, k);
      KeysStay(teams, picks, k);
      hide IsRound;
      PicksAreApart(teams, picks, available, m, k);
    }
  }

  lemma {:induction false} DistinctIsSet(s: seq<Id>)
    requires Distinct(s)
    ensures multiset(s) == multiset(SetOf(s))
  {
    if s != [] {
      var before, last := s[..|s| - 1], s[|s| - 1];
      DistinctIsSet(before);
      assert s == before + [last];
      assert forall k | 0 <= k < |before| :: before[k] == s[k] != last;
      assert last !in before;
      assert SetOf(s) == SetOf(before) + {last};
    }
  }
}
