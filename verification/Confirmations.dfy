/**
 The table of confirmations: what the AI proposed and a customer has to confirm. Every
 statement on it is atomic; times are read from the clock before the statement runs.
 */
module Confirmations {
  import opened Basics

  type Time = int
  type Id = nat

  datatype Status =
    | Pending | Declined | Expired | Denied | NotExecuted | Superseded
    | Confirmed | Executed | Failed

  predicate Terminal(s: Status) {
    s != Pending && s != Confirmed
  }

  predicate Allowed(s: Status, s': Status) {
    match s
    case Pending => s' in {Declined, Expired, Denied, NotExecuted, Superseded, Confirmed}
    case Confirmed => s' in {Executed, NotExecuted, Failed, Denied}
    case _ => false
  }

  /** Proposals compete within one organization, contact and tool. */
  datatype Key = Key(org: nat, contact: nat, tool: string)

  datatype Row = Row(
    key: Key, session: nat, token: nat, status: Status,
    proposedAt: Time, expiresAt: Time, finishedAt: Option<Time>,
    confirmedAt: Option<Time>, confirmedBy: Option<nat>,
    claimedAt: Option<Time>, attempts: nat,
    history: seq<Status>,    // every status so far, and
    claims: seq<Time>)       // every claim; neither is stored

  type Table = map<Id, Row>

  datatype Params = Params(
    ttl: Time, limit: int, window: Time, cooldown: Time,    // of proposals
    minAge: Time, maxAttempts: nat)                         // of the reconciler

  function Move(r: Row, to: Status): Row {
    r.(status := to, history := r.history + [to])
  }

  function Close(r: Row, to: Status, t: Time): Row {
    Move(r, to).(finishedAt := Some(t))
  }

  // ----- Proposing -----

  function NewRow(p: Params, key: Key, session: nat, token: nat, t: Time): Row {
    Row(key, session, token, Pending, t, t + p.ttl, None, None, None, None, 0, [Pending], [])
  }

  predicate RecentlyDeclined(p: Params, rows: Table, key: Key, t: Time) {
    p.cooldown > 0
    && exists i | i in rows :: rows[i].key == key && rows[i].status == Declined
         && rows[i].finishedAt.Some? && rows[i].finishedAt.value >= t - p.cooldown
  }

  function Recent(p: Params, rows: Table, key: Key, t: Time): set<Id> {
    set i | i in rows && rows[i].key == key && rows[i].proposedAt >= t - p.window
  }

  predicate MayPropose(p: Params, rows: Table, key: Key, t: Time) {
    !RecentlyDeclined(p, rows, key, t) && |Recent(p, rows, key, t)| < p.limit
  }

  function Supersede(rows: Table, key: Key, t: Time): (r: Table)
    ensures r.Keys == rows.Keys
  {
    map i | i in rows :: if rows[i].key == key && rows[i].status == Pending then Close(rows[i], Superseded, t) else rows[i]
  }

  function Proposed(p: Params, rows: Table, id: Id, key: Key, session: nat, token: nat, t: Time): Table {
    Supersede(rows, key, t)[id := NewRow(p, key, session, token, t)]
  }

  // ----- Claims -----

  predicate ClaimIsOld(p: Params, r: Row, t: Time) {
    r.claimedAt.None? || r.claimedAt.value < t - p.minAge
  }

  /** Confirmed for longer than minAge, with attempts left and no fresh claim. */
  predicate IsStuck(p: Params, r: Row, t: Time) {
    && r.status == Confirmed && r.confirmedAt.Some? && r.confirmedAt.value < t - p.minAge
    && r.attempts < p.maxAttempts && ClaimIsOld(p, r, t)
  }

  predicate IsExhausted(p: Params, r: Row, t: Time) {
    r.status == Confirmed && r.attempts >= p.maxAttempts && ClaimIsOld(p, r, t)
  }

  predicate MayClaim(p: Params, r: Row, t: Time) {
    r.status == Confirmed && ClaimIsOld(p, r, t)
  }

  function Claimed(r: Row, t: Time): Row {
    r.(claimedAt := Some(t), attempts := r.attempts + 1, claims := r.claims + [t])
  }

  // ----- The store -----

  datatype ProposeResult = Accepted | TooManyProposals | DeclinedRecently

  class ConfirmationStore {
    const params: Params
    var rows: Table

    constructor (params: Params)
      ensures this.params == params && rows == map[]
    {
      this.params := params;
      rows := map[];
    }

    /**
     In one transaction under the lock of the contact; t was read before the lock was taken. A proposal is
     refused exactly if one was declined less than cooldown ago or as many as the limit were made in the
     window; an accepted one leaves the pending ones of its key superseded, and is pending until ttl has gone by.
     */
    method Propose(id: Id, key: Key, session: nat, token: nat, t: Time) returns (r: ProposeResult)
      requires id !in rows
      modifies this
      ensures r == DeclinedRecently <==>
                params.cooldown > 0
                && exists i | i in old(rows) && old(rows)[i].key == key && old(rows)[i].status == Declined ::
                     old(rows)[i].finishedAt.Some? && old(rows)[i].finishedAt.value >= t - params.cooldown
      ensures r != DeclinedRecently ==>
                (r == TooManyProposals <==>
                   |set i | i in old(rows) && old(rows)[i].key == key && old(rows)[i].proposedAt >= t - params.window| >= params.limit)
      ensures r == Accepted ==>
                && rows.Keys == old(rows).Keys + {id}
                && rows[id] == Row(key, session, token, Pending, t, t + params.ttl, None, None, None, None, 0, [Pending], [])
                && forall i | i in old(rows) ::
                     rows[i] == if old(rows)[i].key != key || old(rows)[i].status != Pending then old(rows)[i]
                                else old(rows)[i].(status := Superseded, finishedAt := Some(t), history := old(rows)[i].history + [Superseded])
      ensures r != Accepted ==> rows == old(rows)
      ensures r == Accepted <==> MayPropose(params, old(rows), key, t)
      ensures r == Accepted ==> rows == Proposed(params, old(rows), id, key, session, token, t)
    {
      if params.cooldown > 0 {
        var declined := set i | i in rows && rows[i].key == key && rows[i].status == Declined
                          && rows[i].finishedAt.Some? && rows[i].finishedAt.value >= t - params.cooldown;
        if declined != {} {
          var i :| i in declined;
          return DeclinedRecently;
        }
        assert forall i | i in rows :: i !in declined;
      }
      var recent := set i | i in rows && rows[i].key == key && rows[i].proposedAt >= t - params.window;
      assert recent == Recent(params, rows, key, t);
      if |recent| >= params.limit {
        return TooManyProposals;
      }
      rows := map i | i in rows ::
        if rows[i].key == key && rows[i].status == Pending then Close(rows[i], Superseded, t) else rows[i];
      rows := rows[id := NewRow(params, key, session, token, t)];
      r := Accepted;
    }

    /** The one way a status changes: a compare-and-set from the status it comes from. */
    method Transition(id: Id, from: Status, to: Status, t: Time) returns (won: bool)
      modifies this
      ensures won <==> id in old(rows) && old(rows)[id].status == from
      ensures rows == if won then old(rows)[id := Close(old(rows)[id], to, t)] else old(rows)
      ensures won ==> rows[id] == old(rows)[id].(status := to, finishedAt := Some(t), history := old(rows)[id].history + [to])
    {
      won := id in rows && rows[id].status == from;
      if won {
        rows := rows[id := rows[id].(status := to, finishedAt := Some(t), history := rows[id].history + [to])];
      }
    }

    method Confirm(id: Id, byContact: nat, t: Time) returns (won: bool)
      modifies this
      ensures won <==> id in old(rows) && old(rows)[id].status == Pending
      ensures rows == if won then old(rows)[id := ConfirmedRow(old(rows)[id], byContact, t)] else old(rows)
      ensures won ==> rows[id] == old(rows)[id].(status := Confirmed, confirmedAt := Some(t), confirmedBy := Some(byContact),
                                                 history := old(rows)[id].history + [Confirmed])
    {
      won := id in rows && rows[id].status == Pending;
      if won {
        rows := rows[id := rows[id].(status := Confirmed, confirmedAt := Some(t), confirmedBy := Some(byContact),
                                     history := rows[id].history + [Confirmed])];
      }
    }

    method ClaimReconcile(id: Id, t: Time) returns (won: bool)
      modifies this
      ensures won <==> id in old(rows) && MayClaim(params, old(rows)[id], t)
      ensures rows == if won then old(rows)[id := Claimed(old(rows)[id], t)] else old(rows)
      ensures won <==> id in old(rows) && old(rows)[id].status == Confirmed
                       && (old(rows)[id].claimedAt.Some? ==> t - old(rows)[id].claimedAt.value > params.minAge)
      ensures won ==> rows[id] == old(rows)[id].(claimedAt := Some(t), attempts := old(rows)[id].attempts + 1,
                                                 claims := old(rows)[id].claims + [t])
    {
      won := id in rows && rows[id].status == Confirmed
        && (rows[id].claimedAt.None? || rows[id].claimedAt.value < t - params.minAge);
      if won {
        rows := rows[id := rows[id].(claimedAt := Some(t), attempts := rows[id].attempts + 1,
                                     claims := rows[id].claims + [t])];
      }
    }
  }

  function ConfirmedRow(r: Row, byContact: nat, t: Time): Row {
    Move(r, Confirmed).(confirmedAt := Some(t), confirmedBy := Some(byContact))
  }

  // ----- The limit on proposals -----

  /** The proposals made to a contact in the window that begins at `from`. */
  function InWindow(p: Params, rows: Table, key: Key, from: Time): set<Id> {
    set i | i in rows && rows[i].key == key && from <= rows[i].proposedAt <= from + p.window
  }

  function Most(p: Params): nat {
    if p.limit > 0 then p.limit else 0
  }

  /** In no interval as long as the window has a contact got more than the limit of proposals. */
  ghost predicate WithinLimit(p: Params, rows: Table) {
    forall key: Key, from: Time :: |InWindow(p, rows, key, from)| <= Most(p)
  }

  ghost predicate OnePending(rows: Table) {
    forall i, j | i in rows && j in rows && rows[i].key == rows[j].key ::
      rows[i].status == Pending && rows[j].status == Pending ==> i == j
  }

  lemma WindowAfterProposing(p: Params, rows: Table, id: Id, key: Key, session: nat, token: nat, t: Time, k: Key, from: Time)
    requires id !in rows
    ensures InWindow(p, Proposed(p, rows, id, key, session, token, t), k, from)
         == InWindow(p, rows, k, from) + if k == key && from <= t <= from + p.window then {id} else {}
  {}

  /** Whatever the order in which clock readings are committed, an accepted proposal keeps the limit. */
  lemma ProposingKeepsLimit(p: Params, rows: Table, id: Id, key: Key, session: nat, token: nat, t: Time)
    requires WithinLimit(p, rows) && id !in rows && MayPropose(p, rows, key, t)
    ensures WithinLimit(p, Proposed(p, rows, id, key, session, token, t))
  {
    hide Proposed, RecentlyDeclined;
    var rows' := Proposed(p, rows, id, key, session, token, t);
    forall k: Key, from: Time ensures |InWindow(p, rows', k, from)| <= Most(p) {
      WindowAfterProposing(p, rows, id, key, session, token, t, k, from);
      var before := InWindow(p, rows, k, from);
      assert |before| <= Most(p);
      if k == key && from <= t <= from + p.window {
        assert before <= Recent(p, rows, key, t);
        SubsetSize(before, Recent(p, rows, key, t));
      }
    }
  }

  lemma ProposingKeepsOnePending(p: Params, rows: Table, id: Id, key: Key, session: nat, token: nat, t: Time)
    requires OnePending(rows) && id !in rows
    ensures OnePending(Proposed(p, rows, id, key, session, token, t))
  {}

  /** A change that leaves keys and proposal times alone leaves the limit alone. */
  lemma LimitDependsOnTimes(p: Params, rows: Table, rows': Table)
    requires WithinLimit(p, rows) && rows'.Keys == rows.Keys
    requires forall i | i in rows :: rows'[i].key == rows[i].key && rows'[i].proposedAt == rows[i].proposedAt
    ensures WithinLimit(p, rows')
  {
    forall k: Key, from: Time ensures |InWindow(p, rows', k, from)| <= Most(p) {
      assert |InWindow(p, rows, k, from)| <= Most(p);
      assert InWindow(p, rows', k, from) == InWindow(p, rows, k, from);
    }
  }
}
