/**
 The confirmer on its own: taps, executions and sweeps of the reconciler one after another. What
 the rest of the system answers comes in as parameters or is left open.
 */
module Confirmer {
  import opened Basics
  import opened Confirmations
  import opened ConfirmationProtocol
  import opened ConfirmationMessages

  /** What the live state and the services answer during one execution. */
  datatype Weather = Weather(
    known: bool, tampered: bool, authorized: bool,
    audited: bool,     // the audit row could be written
    works: bool, inHours: bool,
    broken: bool,      // the insert was done but reported as an error
    recorded: bool)    // the outcome could be written

  // ----- What an execution does -----

  function Attempted(w: Weather, transfers: seq<Transfer>, r: Row): Outcome {
    if !w.works then Error
    else if HasActive(transfers, r.key.org, r.key.contact) then AlreadyActive
    else if !w.inHours then OutsideHours
    else if w.broken then Error
    else Created
  }

  predicate MakesTransfer(w: Weather, transfers: seq<Transfer>, r: Row) {
    w.audited && w.works && w.inHours && !HasActive(transfers, r.key.org, r.key.contact)
  }

  /** The status an execution leaves behind, if it is recorded. */
  function Recorded(w: Weather, transfers: seq<Transfer>, r: Row): Option<Status> {
    if w.audited && w.recorded then Some(StatusOf(Attempted(w, transfers, r))) else None
  }

  /** The status that an attempt to reconcile leaves behind, if it gets that far. */
  function Fate(P: Params, w: Weather, transfers: seq<Transfer>, r: Row, t: Time): Option<Status>
    requires r.confirmedAt.Some?
  {
    match Judged(P, r, t, w.known, w.authorized)
    case Closing(status, _) => Some(status)
    case _ => if HasAITransfer(transfers, r) then Some(Executed) else Recorded(w, transfers, r)
  }

  lemma FateIsClosed(P: Params, w: Weather, transfers: seq<Transfer>, r: Row, t: Time)
    requires r.confirmedAt.Some?
    ensures Fate(P, w, transfers, r, t) != Some(Confirmed)
  {
    hide HasAITransfer;
  }

  /** Authorized, in time, and without a transfer: the action is carried out. */
  predicate GetsAsFar(P: Params, w: Weather, transfers: seq<Transfer>, r: Row, t: Time)
    requires r.confirmedAt.Some?
  {
    Judged(P, r, t, w.known, w.authorized) == Searching && !HasAITransfer(transfers, r)
  }

  /** What the customer hears of an attempt. */
  function Answer(P: Params, w: Weather, transfers: seq<Transfer>, r: Row, t: Time): Option<Text>
    requires r.confirmedAt.Some?
  {
    match Judged(P, r, t, w.known, w.authorized)
    case Closing(_, text) => text
    case _ =>
      if HasAITransfer(transfers, r) then Some(CreatedText)
      else if w.audited && w.recorded then Some(TextOf(Attempted(w, transfers, r)))
      else None
  }

  /**
   An attempt on a confirmation whose transfer exists closes it as executed exactly when the tool is
   known, the confirmation not too old, and the action still authorized.
   */
  lemma FateOfWhatExists(P: Params, w: Weather, transfers: seq<Transfer>, r: Row, t: Time)
    requires r.confirmedAt.Some? && HasAITransfer(transfers, r)
    ensures Fate(P, w, transfers, r, t) == Some(Executed)
       <==> w.known && t - r.confirmedAt.value <= P.ttl && w.authorized
  {}

  // ----- What is true of an attempt -----

  /** The contact of the row has an active transfer. */
  predicate IsBusy(transfers: seq<Transfer>, r: Row) {
    exists k | 0 <= k < |transfers| ::
      transfers[k].active && transfers[k].org == r.key.org && transfers[k].contact == r.key.contact
  }

  /** One transfer more, made for this confirmation and no other reason. */
  predicate IsMade(before: seq<Transfer>, after: seq<Transfer>, id: Id, r: Row) {
    && |after| == |before| + 1 && after[..|before|] == before
    && var t := after[|before|];
       t.maker == Some(id) && t.org == r.key.org && t.contact == r.key.contact && t.source == AIConfirmed && t.active
  }

  /** From the row to the status, at that time, and nothing else of it changes. */
  predicate EndsAs(r: Row, r': Row, status: Status, t: Time) {
    r'.finishedAt == Some(t) && r' == r.(status := status, finishedAt := Some(t), history := r.history + [status])
  }

  /**
   What an execution leaves behind. A transfer is made exactly if nothing stands against it; the row is
   executed, and the customer told so, only if it was made; and every other answer has its own reason.
   */
  predicate IsExecution(w: Weather, id: Id, before: seq<Transfer>, after: seq<Transfer>, r: Row, r': Row, t: Time, reply: Option<Text>) {
    && (if w.audited && w.works && !IsBusy(before, r) && w.inHours then IsMade(before, after, id, r) else after == before)
    && (r'.status == Executed || reply == Some(CreatedText) ==> IsMade(before, after, id, r))
    && if !w.audited || !w.recorded then r' == r && reply == None
       else if !w.works then EndsAs(r, r', Failed, t) && reply == Some(DeniedText)
       else if IsBusy(before, r) then EndsAs(r, r', NotExecuted, t) && reply == Some(AlreadyActiveText)
       else if !w.inHours then EndsAs(r, r', NotExecuted, t) && reply == Some(OutsideHoursText)
       else if w.broken then EndsAs(r, r', Failed, t) && reply == Some(DeniedText)
       else EndsAs(r, r', Executed, t) && reply == Some(CreatedText)
  }

  /** The contact got a transfer by an AI confirmation since the row was confirmed. */
  predicate IsThereAlready(transfers: seq<Transfer>, r: Row) {
    r.confirmedAt.Some?
    && exists k | 0 <= k < |transfers| ::
         && transfers[k].source == AIConfirmed && transfers[k].org == r.key.org && transfers[k].contact == r.key.contact
         && transfers[k].at >= r.confirmedAt.value
  }

  /** What an attempt to reconcile leaves behind, question by question. */
  predicate IsReconciled(P: Params, w: Weather, id: Id, before: seq<Transfer>, after: seq<Transfer>, r: Row, r': Row,
                         judged: Time, t: Time, reply: Option<Text>)
    requires r.confirmedAt.Some?
  {
    if !w.known then EndsAs(r, r', Denied, t) && after == before && reply == None
    else if judged - r.confirmedAt.value > P.ttl then EndsAs(r, r', Failed, t) && after == before && reply == None
    else if !w.authorized then EndsAs(r, r', Denied, t) && after == before && reply == Some(DeniedText)
    else if IsThereAlready(before, r) then EndsAs(r, r', Executed, t) && after == before && reply == Some(CreatedText)
    else IsExecution(w, id, before, after, r, r', t, reply)
  }

  /** What a tap on a pending row leaves behind, question by question; looked is when it was looked up. */
  predicate IsTapped(tap: Tap, w: Weather, id: Id, before: seq<Transfer>, after: seq<Transfer>, r: Row, r': Row,
                     looked: Time, done: Time, reply: Option<Text>)
  {
    if !w.known then EndsAs(r, r', Denied, done) && after == before && reply == Some(DeniedText)
    else if looked >= r.expiresAt then EndsAs(r, r', Expired, done) && after == before && reply == Some(ExpiredText)
    else if w.tampered then EndsAs(r, r', Denied, done) && after == before && reply == Some(DeniedText)
    else if tap.decline then EndsAs(r, r', Declined, done) && after == before && reply == Some(DeclinedText)
    else if !w.authorized then EndsAs(r, r', Denied, done) && after == before && reply == Some(DeniedText)
    else if IsBusy(before, r) then EndsAs(r, r', NotExecuted, done) && after == before && reply == Some(AlreadyActiveText)
    else if !w.inHours then EndsAs(r, r', NotExecuted, done) && after == before && reply == Some(OutsideHoursText)
    else
      && r'.confirmedAt.Some? && looked <= r'.confirmedAt.value <= done
      && var c := r.(status := Status.Confirmed, confirmedAt := r'.confirmedAt, confirmedBy := Some(tap.contact),
                     history := r.history + [Status.Confirmed]);
         IsExecution(w, id, before, after, c, r', done, reply)
  }

  // ----- What a sweep is for -----

  /** A confirmed row is worth an attempt for each one left, and one step more. */
  function Weight(P: Params, r: Row): nat {
    if r.status != Confirmed then 0
    else if r.attempts < P.maxAttempts then P.maxAttempts - r.attempts + 1
    else 1
  }

  function Work(P: Params, rows: Table, n: nat): nat {
    if n == 0 then 0
    else Work(P, rows, n - 1) + if n - 1 in rows then Weight(P, rows[n - 1]) else 0
  }

  /** No row is worth more than before, and none is tried too often. */
  ghost predicate NoWorse(P: Params, rows: Table, rows': Table) {
    && rows'.Keys == rows.Keys
    && forall i | i in rows ::
         && Weight(P, rows'[i]) <= Weight(P, rows[i])
         && (rows[i].attempts <= P.maxAttempts ==> rows'[i].attempts <= P.maxAttempts)
         && (rows[i].status != Confirmed ==> rows'[i] == rows[i])
  }

  ghost predicate Better(P: Params, rows: Table, rows': Table) {
    exists i | i in rows && i in rows' :: Weight(P, rows'[i]) < Weight(P, rows[i])
  }

  lemma NoWorseIsTransitive(P: Params, a: Table, b: Table, c: Table)
    requires NoWorse(P, a, b) && NoWorse(P, b, c)
    ensures NoWorse(P, a, c) && (Better(P, a, b) || Better(P, b, c) ==> Better(P, a, c))
  {
    forall i | i in a
      ensures && Weight(P, c[i]) <= Weight(P, b[i]) <= Weight(P, a[i])
              && (a[i].attempts <= P.maxAttempts ==> c[i].attempts <= P.maxAttempts)
              && (a[i].status != Confirmed ==> c[i] == a[i])
    {
      assert i in b;
    }
    hide Weight;
    if Better(P, a, b) {
      var i :| i in a && i in b && Weight(P, b[i]) < Weight(P, a[i]);
      assert Weight(P, c[i]) < Weight(P, a[i]);
    } else if Better(P, b, c) {
      var i :| i in b && i in c && Weight(P, c[i]) < Weight(P, b[i]);
      assert Weight(P, c[i]) < Weight(P, a[i]);
    }
  }

  /** One row changes for the better. */
  lemma OneBetter(P: Params, rows0: Table, rows: Table, id: Id, r: Row)
    requires NoWorse(P, rows0, rows) && id in rows && rows[id] == rows0[id] && rows[id].status == Confirmed
    requires Weight(P, r) < Weight(P, rows[id]) && (rows[id].attempts <= P.maxAttempts ==> r.attempts <= P.maxAttempts)
    ensures NoWorse(P, rows0, rows[id := r]) && Better(P, rows0, rows[id := r])
  {
    hide Weight;
    var rows' := rows[id := r];
    assert Weight(P, rows'[id]) < Weight(P, rows0[id]);
  }

  lemma {:induction false} LessWork(P: Params, rows: Table, rows': Table, n: nat)
    requires NoWorse(P, rows, rows')
    ensures Work(P, rows', n) <= Work(P, rows, n)
    ensures (exists i | i in rows && i < n :: Weight(P, rows'[i]) < Weight(P, rows[i]))
        ==> Work(P, rows', n) < Work(P, rows, n)
  {
    if n > 0 {
      LessWork(P, rows, rows', n - 1);
    }
  }

  // ----- The confirmer -----

  class Confirmer {
    const store: ConfirmationStore
    var transfers: seq<Transfer>
    var now: Time

    constructor (params: Params)
      ensures fresh(store) && store.params == params && store.rows == map[] && transfers == []
    {
      store := new ConfirmationStore(params);
      transfers := [];
      now := 0;
    }

    method ReadClock() returns (t: Time)
      modifies this`now
      ensures t == now >= old(now)
    {
      var passed: int := *;
      now := now + if passed > 0 then passed else 0;
      t := now;
    }

    method RunWrite(id: Id, w: Weather) returns (o: Outcome)
      requires id in store.rows
      modifies this
      ensures o == Attempted(w, old(transfers), store.rows[id]) && now >= old(now)
      ensures
        if w.works && w.inHours && !HasActive(old(transfers), store.rows[id].key.org, store.rows[id].key.contact)
        then transfers == old(transfers)
               + [Transfer(store.rows[id].key.org, store.rows[id].key.contact, AIConfirmed, now, true, Some(id))]
        else transfers == old(transfers)
    {
      var key := store.rows[id].key;
      if !w.works {
        return Error;
      }
      if HasActive(transfers, key.org, key.contact) {
        return AlreadyActive;
      }
      if !w.inHours {
        return OutsideHours;
      }
      var t := ReadClock();
      transfers := transfers + [Transfer(key.org, key.contact, AIConfirmed, t, true, Some(id))];
      o := if w.broken then Error else Created;
    }

    method ExecuteConfirmed(id: Id, w: Weather) returns (reply: Option<Text>)
      requires id in store.rows && store.rows[id].status == Confirmed
      modifies this, store
      ensures now >= old(now)
      ensures
        match Recorded(w, old(transfers), old(store.rows[id]))
        case None => store.rows == old(store.rows) && reply == None
        case Some(status) =>
          && store.rows == old(store.rows)[id := Close(old(store.rows[id]), status, now)]
          && reply == Some(TextOf(Attempted(w, old(transfers), old(store.rows[id])))) && Says(reply.value, status)
      ensures
        if MakesTransfer(w, old(transfers), old(store.rows[id]))
        then |transfers| == |old(transfers)| + 1 && transfers[..|old(transfers)|] == old(transfers)
             && transfers[|old(transfers)|].maker == Some(id)
             && (old(store.rows[id]).confirmedAt.Some? && old(store.rows[id]).confirmedAt.value <= old(now)
                 ==> MadeForSince(transfers[|old(transfers)|], old(store.rows[id])))
        else transfers == old(transfers)
      ensures forall i | i in old(store.rows) && i != id :: i in store.rows && store.rows[i] == old(store.rows[i])
      ensures id in store.rows && IsExecution(w, id, old(transfers), transfers, old(store.rows[id]), store.rows[id], now, reply)
    {
      if !w.audited {
        return None;
      }
      var o := RunWrite(id, w);
      if !w.recorded {
        return None;
      }
      var t := ReadClock();
      var won := store.Transition(id, Confirmed, StatusOf(o), t);
      reply := Some(TextOf(o));
    }

    /** Found is the confirmation that the tap is about; a tap on anything that is not pending is inert. */
    method HandleTap(tap: Tap, w: Weather) returns (found: Option<Id>, reply: Option<Text>)
      modifies this, store
      ensures found.None? ==> store.rows == old(store.rows) && transfers == old(transfers) && reply.None?
      ensures found.None? <==> forall i | i in old(store.rows) :: !TapIsFor(tap, old(store.rows[i]))
      ensures found.Some? ==> found.value in old(store.rows) && TapIsFor(tap, old(store.rows[found.value]))
      ensures found.Some? ==>
        var r := old(store.rows[found.value]);
        r.key.org == tap.org && r.key.contact == tap.contact && r.session == tap.session && r.token == tap.token
      ensures found.None? ==>
        forall i | i in old(store.rows) && old(store.rows[i]).token == tap.token && old(store.rows[i]).session == tap.session ::
          old(store.rows[i]).key.org != tap.org || old(store.rows[i]).key.contact != tap.contact
      ensures found.Some? && old(store.rows[found.value]).status != Pending ==>
        store.rows == old(store.rows) && transfers == old(transfers) && reply.None?
      ensures found.Some? && old(store.rows[found.value]).status == Pending ==>
        TapDone(tap, w, old(store.rows), old(transfers), found.value, store.rows, transfers, old(now), now, reply)
    {
      var matching := set i | i in store.rows && TapIsFor(tap, store.rows[i]);
      if matching == {} {
        assert forall i | i in store.rows :: i !in matching;
        return None, None;
      }
      var id :| id in matching;
      var r := store.rows[id];
      if r.status != Pending {
        return Some(id), None;
      }
      ghost var looked;
      reply, looked := TapPending(id, tap, w);
      found := Some(id);
    }

    method TapPending(id: Id, tap: Tap, w: Weather) returns (reply: Option<Text>, ghost looked: Time)
      requires id in store.rows && store.rows[id].status == Pending
      modifies this, store
      ensures id in store.rows && old(now) <= looked <= now
      ensures IsTapped(tap, w, id, old(transfers), transfers, old(store.rows[id]), store.rows[id], looked, now, reply)
      ensures TapDone(tap, w, old(store.rows), old(transfers), id, store.rows, transfers, old(now), now, reply)
    {
      hide TapDone, IsTapped, IsExecution, Recorded, MakesTransfer, Attempted, HasActive, MadeForSince;
      ghost var rows, made, from := store.rows, transfers, now;
      var r := store.rows[id];
      var t := ReadClock();
      looked := t;
      var todo := TapTodo(r, tap, t, w.known, w.tampered, w.authorized);
      if todo.Check? {
        todo := CheckedTodo(w, transfers, r);
      }
      t := ReadClock();
      if todo.Shut? {
        ShutIsTapped(tap, w, id, transfers, r, looked, t);
        var won := store.Transition(id, Pending, todo.status, t);
        reply := Some(todo.text);
      } else {
        var won := store.Confirm(id, tap.contact, t);
        reply := ExecuteConfirmed(id, w);
        ConsumedIsTapped(tap, w, id, made, transfers, r, store.rows[id], looked, t, now, reply);
      }
      TappedIsDone(tap, w, rows, made, id, store.rows, transfers, from, now, looked, reply);
    }

    /** The reconciler has claimed the row. It judges it, looks for what exists, and carries it out otherwise. */
    method ReconcileOne(id: Id, w: Weather) returns (judged: Time, reply: Option<Text>)
      requires id in store.rows && store.rows[id].status == Confirmed && store.rows[id].confirmedAt.Some?
      modifies this, store
      ensures old(now) <= judged <= now
      ensures
        match Fate(store.params, w, old(transfers), old(store.rows[id]), judged)
        case None => store.rows == old(store.rows) && reply == None
        case Some(status) =>
          && store.rows == old(store.rows)[id := Close(old(store.rows[id]), status, now)]
          && (reply.Some? ==> Says(reply.value, status))
      ensures reply == Answer(store.params, w, old(transfers), old(store.rows[id]), judged)
      ensures
        if GetsAsFar(store.params, w, old(transfers), old(store.rows[id]), judged) && MakesTransfer(w, old(transfers), old(store.rows[id]))
        then |transfers| == |old(transfers)| + 1 && transfers[..|old(transfers)|] == old(transfers)
             && transfers[|old(transfers)|].maker == Some(id)
        else transfers == old(transfers)
      ensures forall i | i in old(store.rows) && i != id :: i in store.rows && store.rows[i] == old(store.rows[i])
      ensures id in store.rows
      ensures IsReconciled(store.params, w, id, old(transfers), transfers, old(store.rows[id]), store.rows[id], judged, now, reply)
    {
      var r := store.rows[id];
      var t := ReadClock();
      judged := t;
      if !w.known {
        t := ReadClock();
        var won := store.Transition(id, Confirmed, Denied, t);
        return judged, None;
      }
      if t - r.confirmedAt.value > store.params.ttl {
        t := ReadClock();
        var won := store.Transition(id, Confirmed, Failed, t);
        return judged, None;
      }
      if !w.authorized {
        t := ReadClock();
        var won := store.Transition(id, Confirmed, Denied, t);
        return judged, if won then Some(DeniedText) else None;
      }
      if HasAITransfer(transfers, r) {
        t := ReadClock();
        var won := store.Transition(id, Confirmed, Executed, t);
        return judged, if won then Some(CreatedText) else None;
      }
      reply := ExecuteConfirmed(id, w);
    }

    /** The sweep's first half: what ran out of attempts is failed, and nothing else is touched. */
    method FailExhausted(dies: nat -> bool) returns (died: bool, failed: seq<Id>)
      modifies this, store
      ensures now >= old(now) && NoWorse(store.params, old(store.rows), store.rows)
      ensures OnlyFailed(store.params, old(store.rows), store.rows, failed)
      ensures !died && |failed| < SWEEP ==>
        forall i | i in old(store.rows) && IsExhausted(store.params, old(store.rows[i]), old(now)) :: i in failed
      ensures SomeExhausted(store.params, old(store.rows), old(now)) ==> Better(store.params, old(store.rows), store.rows)
      ensures died ==> Better(store.params, old(store.rows), store.rows)
      ensures DiesAt(dies, 0, |failed|, died) && |failed| <= 50
    {
      hide NoWorse, Better, NoLater, OnlyFailed, AsListed, IsExhausted;
      ghost var P, rows := store.params, store.rows;
      var t := ReadClock();
      var exhausted := set i | i in store.rows && IsExhausted(store.params, store.rows[i], t);
      var list := Oldest(store.rows, exhausted, SWEEP);
      AllListed(P, rows, exhausted, list, t);
      NothingDone(P, rows, list);
      ghost var seen := t;
      ExhaustedLater(P, rows, exhausted, old(now), t);
      var k := 0;
      while k < |list|
        invariant k <= |list| && now >= old(now) && store.params == P
        invariant NoWorse(P, rows, store.rows) && OnlyFailed(P, rows, store.rows, list[..k])
        invariant AsListed(rows, store.rows, list, k)
        invariant k > 0 ==> Better(P, rows, store.rows)
        invariant DiesAt(dies, 0, k, false)
      {
        ListedIsExhausted(P, rows, list, k, seen);
        t := ReadClock();
        ExhaustedRow(P, rows, store.rows, list, k, t);
        var won := store.Transition(list[k], Confirmed, Failed, t);
        k := k + 1;
        if dies(k) {
          return true, list[..k];
        }
      }
      died, failed := false, list;
      assert list[..|list|] == list;
    }

    /** One row of the sweep's second half, which it still finds as it was listed. */
    method Retry(id: Id, w: Weather) returns (worked: bool, reply: Option<Text>, ghost claimed: Time, ghost judged: Time)
      requires id in store.rows && IsStuck(store.params, store.rows[id], now)
      modifies this, store
      ensures worked && now >= old(now) && NoWorse(store.params, old(store.rows), store.rows)
      ensures store.rows.Keys == old(store.rows).Keys
      ensures Weight(store.params, store.rows[id]) < Weight(store.params, old(store.rows[id]))
      ensures forall i | i in old(store.rows) && i != id :: store.rows[i] == old(store.rows[i])
      ensures old(now) <= claimed <= judged <= now
      ensures
        var r := old(store.rows[id]);
        IsReconciled(store.params, w, id, old(transfers), transfers,
                     r.(claimedAt := Some(claimed), attempts := r.attempts + 1, claims := r.claims + [claimed]),
                     store.rows[id], judged, now, reply)
      ensures w.audited && w.recorded ==> store.rows[id].status != Confirmed
      ensures reply.Some? ==> Says(reply.value, store.rows[id].status)
      ensures store.rows[id].status == Executed ==> reply == Some(CreatedText)
    {
      hide NoWorse, Fate, Answer, GetsAsFar, MakesTransfer, IsReconciled;
      ghost var P, rows, made := store.params, store.rows, transfers;
      var t := ReadClock();
      claimed := t;
      worked := store.ClaimReconcile(id, t);
      ghost var before := store.rows;
      judged, reply := ReconcileOne(id, w);
      FateIsClosed(P, w, made, before[id], judged);
      ReconciledSays(P, w, id, made, transfers, before[id], store.rows[id], judged, now, reply);
      ClaimedIsBetter(P, rows, before, store.rows, id, t);
    }

    /**
     One sweep; weather is what it finds for each row, and dies says after how many rows it would die. If it does
     not, and its listings were not full, no row it should see is left confirmed, unless that row's
     execution could not be recorded.
     */
    method Reconcile(weather: Id -> Weather, dies: nat -> bool)
      returns (worked: nat, died: bool, failed: seq<Id>, tried: seq<Id>, told: seq<(Id, Text)>)
      modifies this, store
      ensures now >= old(now) && NoWorse(store.params, old(store.rows), store.rows)
      ensures SomeEligible(store.params, old(store.rows), old(now)) ==> Better(store.params, old(store.rows), store.rows)
      ensures !died && |failed| < 50 && |tried| < 50 ==>
        forall i | i in old(store.rows) && IsDue(store.params, old(store.rows[i]), old(now)) ::
          store.rows[i].status != Confirmed
          || (old(store.rows[i]).attempts < store.params.maxAttempts && !(weather(i).audited && weather(i).recorded))
      ensures HeardOf(store.rows, tried, told)
      ensures DiesAt(dies, 0, |failed| + |tried|, died) && |failed| <= 50 && |tried| <= 50
    {
      hide DiesAt, NoWorse, Better, SomeStuck, SomeExhausted, Spared, OnlyFailed, OnlyTried, HeardOf;
      worked, tried, told := 0, [], [];
      died, failed := FailExhausted(dies);
      ghost var P, rows0, rows, from, mid := store.params, old(store.rows), store.rows, old(now), now;
      OthersSpared(P, rows0, rows, failed);
      StillStuck(P, rows0, rows, from, mid);
      if died {
        NothingTried(store.rows, weather);
        return;
      }
      worked, died, tried, told := RetryStuck(weather, dies, |failed|);
      DiesAfter(dies, 0, |failed|, |failed| + |tried|, died);
      NoWorseIsTransitive(P, rows0, rows, store.rows);
      SameKeys(P, rows0, store.rows);
      if !died && |failed| < 50 && |tried| < 50 {
        forall i | i in rows0 && IsDue(P, rows0[i], from)
          ensures store.rows[i].status != Confirmed || (rows0[i].attempts < P.maxAttempts && !(weather(i).audited && weather(i).recorded))
        {
          DueIsDone(P, rows0, rows, store.rows, failed, tried, weather, from, mid, i);
        }
      }
    }

    /** The next row of the list, all of which was stuck when it was listed. */
    method RetryListed(ghost rows: Table, list: seq<Id>, k: nat, ghost t: Time, weather: Id -> Weather, told0: seq<(Id, Text)>)
      returns (won: bool, told: seq<(Id, Text)>)
      requires k < |list| && t <= now && NoWorse(store.params, rows, store.rows) && AsListed(rows, store.rows, list, k)
      requires list[k] in rows && IsStuck(store.params, rows[list[k]], t)
      requires OnlyTried(rows, store.rows, weather, list[..k]) && HeardOf(store.rows, list[..k], told0)
      modifies this, store
      ensures won && now >= old(now) && NoWorse(store.params, rows, store.rows) && Better(store.params, rows, store.rows)
      ensures AsListed(rows, store.rows, list, k + 1)
      ensures OnlyTried(rows, store.rows, weather, list[..k + 1]) && HeardOf(store.rows, list[..k + 1], told)
    {
      hide NoWorse, Better, AsListed, IsStuck, OnlyTried, HeardOf, IsReconciled, Weight;
      ghost var P, prior := store.params, store.rows;
      StuckRow(P, rows, prior, list, k, t, now);
      var reply;
      ghost var claimed, judged;
      won, reply, claimed, judged := Retry(list[k], weather(list[k]));
      OneMoreTried(rows, prior, store.rows, weather, list, k, told0, reply);
      StuckRowDone(P, rows, prior, store.rows, list, k);
      told := told0 + if reply.Some? then [(list[k], reply.value)] else [];
    }

    /** The sweep's second half: what is stuck is claimed and tried again. */
    method RetryStuck(weather: Id -> Weather, dies: nat -> bool, before: nat)
      returns (worked: nat, died: bool, tried: seq<Id>, told: seq<(Id, Text)>)
      modifies this, store
      ensures now >= old(now) && NoWorse(store.params, old(store.rows), store.rows)
      ensures SomeStuck(store.params, old(store.rows), old(now)) ==> Better(store.params, old(store.rows), store.rows)
      ensures OnlyTried(old(store.rows), store.rows, weather, tried) && worked == |tried|
      ensures !died && |tried| < SWEEP ==>
        forall i | i in old(store.rows) && IsStuck(store.params, old(store.rows[i]), old(now)) :: i in tried
      ensures HeardOf(store.rows, tried, told)
      ensures DiesAt(dies, before, before + |tried|, died) && |tried| <= 50
    {
      hide DiesAt, NoWorse, Better, NoLater, OnlyFailed, AsListed, IsStuck, SomeStuck, OnlyTried, HeardOf, IsReconciled, Weight;
      ghost var P, rows := store.params, store.rows;
      var t := ReadClock();
      var stuck := set i | i in store.rows && IsStuck(store.params, store.rows[i], t);
      StuckLater(P, rows, stuck, old(now), t);
      var list := Oldest(store.rows, stuck, SWEEP);
      AllOf(rows, stuck, list);
      NothingDone(P, rows, list);
      NothingTried(rows, weather);
      worked, told, died := 0, [], false;
      NotYetDead(dies, before);
      var k := 0;
      while k < |list| && !died
        invariant k <= |list| && worked == k && now >= t && store.params == P
        invariant NoWorse(P, rows, store.rows) && AsListed(rows, store.rows, list, k)
        invariant forall j | 0 <= j < |list| :: list[j] in rows && IsStuck(P, rows[list[j]], t)
        invariant (k > 0 ==> Better(P, rows, store.rows)) && (died ==> k > 0)
        invariant OnlyTried(rows, store.rows, weather, list[..k]) && HeardOf(store.rows, list[..k], told)
        invariant DiesAt(dies, before, before + k, died)
        decreases |list| - k, !died
      {
        var won;
        won, told := RetryListed(rows, list, k, t, weather, told);
        worked := worked + if won then 1 else 0;
        DiesNext(dies, before, before + k);
        k := k + 1;
        died := dies(before + k);
      }
      tried := list[..k];
      if !died {
        assert k == |list| && tried == list;
      }
    }
  }

  // ----- A sweep, row by row -----

  /** A sweep that has worked on rows from the one number to the other died after the last of them, or after none. */
  predicate DiesAt(dies: nat -> bool, from: nat, to: nat, died: bool) {
    && (forall n: nat | from < n < to :: !dies(n))
    && (died <==> from < to && dies(to))
  }

  lemma SameKeys(P: Params, rows: Table, rows': Table)
    requires NoWorse(P, rows, rows')
    ensures rows'.Keys == rows.Keys
  {}

  lemma DiesAfter(dies: nat -> bool, from: nat, mid: nat, to: nat, died: bool)
    requires DiesAt(dies, from, mid, false) && DiesAt(dies, mid, to, died) && from <= mid <= to
    ensures DiesAt(dies, from, to, died)
  {}

  lemma DiesNext(dies: nat -> bool, from: nat, k: nat)
    requires from <= k && DiesAt(dies, from, k, false)
    ensures DiesAt(dies, from, k + 1, dies(k + 1))
  {}

  lemma NotYetDead(dies: nat -> bool, from: nat)
    ensures DiesAt(dies, from, from, false)
  {}

  ghost predicate SomeExhausted(P: Params, rows: Table, t: Time) {
    exists i | i in rows :: IsExhausted(P, rows[i], t)
  }

  ghost predicate SomeStuck(P: Params, rows: Table, t: Time) {
    exists i | i in rows :: IsStuck(P, rows[i], t)
  }

  ghost predicate SomeEligible(P: Params, rows: Table, t: Time) {
    SomeExhausted(P, rows, t) || SomeStuck(P, rows, t)
  }

  /** Rows with attempts left are as they were. */
  ghost predicate Spared(P: Params, rows: Table, rows': Table) {
    forall i | i in rows && rows[i].attempts < P.maxAttempts :: i in rows' && rows'[i] == rows[i]
  }

  /** Confirmed and left alone for longer than minAge. */
  predicate IsDue(P: Params, r: Row, t: Time) {
    && r.status == Confirmed && r.confirmedAt.Some? && r.confirmedAt.value < t - P.minAge
    && (r.claimedAt.Some? ==> r.claimedAt.value < t - P.minAge)
  }

  /** The rows that were tried are closed if the outcome could be recorded; the others are as they were. */
  ghost predicate OnlyTried(rows: Table, rows': Table, weather: Id -> Weather, tried: seq<Id>) {
    && rows'.Keys == rows.Keys
    && (forall i | i in tried :: i in rows && (weather(i).audited && weather(i).recorded ==> rows'[i].status != Confirmed))
    && forall i | i in rows && i !in tried :: rows'[i] == rows[i]
  }

  /** What customers are told is about the rows tried, and so; and whose action was carried out is told. */
  ghost predicate HeardOf(rows: Table, tried: seq<Id>, told: seq<(Id, Text)>) {
    && (forall m | 0 <= m < |told| :: told[m].0 in tried && told[m].0 in rows && Says(told[m].1, rows[told[m].0].status))
    && forall i | i in tried && i in rows && rows[i].status == Executed :: (i, CreatedText) in told
  }

  lemma NothingTried(rows: Table, weather: Id -> Weather)
    ensures OnlyTried(rows, rows, weather, []) && HeardOf(rows, [], [])
  {}

  /** An attempt whose outcome can be recorded closes the row, and what it answers is so. */
  lemma ReconciledSays(P: Params, w: Weather, id: Id, before: seq<Transfer>, after: seq<Transfer>, r: Row, r': Row,
                       judged: Time, t: Time, reply: Option<Text>)
    requires r.confirmedAt.Some? && r.status == Status.Confirmed && IsReconciled(P, w, id, before, after, r, r', judged, t, reply)
    ensures w.audited && w.recorded ==> r'.status != Status.Confirmed
    ensures reply.Some? ==> Says(reply.value, r'.status)
    ensures r'.status == Executed ==> reply == Some(CreatedText)
  {
    hide IsMade, IsBusy, IsThereAlready;
  }

  lemma OneMoreTried(rows0: Table, rows: Table, rows': Table, weather: Id -> Weather, list: seq<Id>, k: nat,
                     told: seq<(Id, Text)>, reply: Option<Text>)
    requires k < |list| && OnlyTried(rows0, rows, weather, list[..k]) && HeardOf(rows, list[..k], told) && AsListed(rows0, rows, list, k)
    requires list[k] in rows && rows'.Keys == rows.Keys && forall i | i in rows && i != list[k] :: rows'[i] == rows[i]
    requires weather(list[k]).audited && weather(list[k]).recorded ==> rows'[list[k]].status != Status.Confirmed
    requires reply.Some? ==> Says(reply.value, rows'[list[k]].status)
    requires rows'[list[k]].status == Executed ==> reply == Some(CreatedText)
    ensures OnlyTried(rows0, rows', weather, list[..k + 1])
    ensures HeardOf(rows', list[..k + 1], told + if reply.Some? then [(list[k], reply.value)] else [])
  {
    hide Says;
    assert list[..k + 1] == list[..k] + [list[k]];
    assert list[k] !in list[..k];
  }

  /** What was due was exhausted, and failed, or stuck, and tried. */
  lemma DueIsDone(P: Params, rows0: Table, rows: Table, rows': Table, failed: seq<Id>, tried: seq<Id>, weather: Id -> Weather,
                  from: Time, mid: Time, i: Id)
    requires OnlyFailed(P, rows0, rows, failed) && OnlyTried(rows, rows', weather, tried) && from <= mid
    requires forall j | j in rows0 && IsExhausted(P, rows0[j], from) :: j in failed
    requires forall j | j in rows && IsStuck(P, rows[j], mid) :: j in tried
    requires i in rows0 && IsDue(P, rows0[i], from)
    requires NoWorse(P, rows, rows')
    ensures rows'[i].status != Confirmed || (rows0[i].attempts < P.maxAttempts && !(weather(i).audited && weather(i).recorded))
  {
    if rows0[i].attempts >= P.maxAttempts {
      assert IsExhausted(P, rows0[i], from);
    } else {
      assert i !in failed && rows[i] == rows0[i];
      assert IsStuck(P, rows[i], mid);
    }
  }

  /** The rows of the list, which are different ones, are as they were from the k-th on. */
  ghost predicate AsListed(rows0: Table, rows: Table, list: seq<Id>, k: nat) {
    && (forall j | k <= j < |list| :: list[j] in rows0 && list[j] in rows && rows[list[j]] == rows0[list[j]])
    && forall i, j | 0 <= i < j < |list| :: list[i] != list[j]
  }

  /** The rows of the list were confirmed with their attempts used up and are failed; all others are as they were. */
  ghost predicate OnlyFailed(P: Params, rows: Table, rows': Table, list: seq<Id>) {
    && rows'.Keys == rows.Keys
    && (forall i | i in list :: i in rows && rows[i].status == Confirmed && rows[i].attempts >= P.maxAttempts
          && rows'[i].finishedAt.Some? && rows'[i] == Close(rows[i], Failed, rows'[i].finishedAt.value))
    && forall i | i in rows && i !in list :: rows'[i] == rows[i]
  }

  ghost predicate AllExhausted(P: Params, rows: Table, list: seq<Id>, t: Time) {
    forall j | 0 <= j < |list| :: list[j] in rows && IsExhausted(P, rows[list[j]], t)
  }

  /** A listing has different rows, all of those asked for. */
  lemma AllOf(rows: Table, ids: set<Id>, list: seq<Id>)
    requires (forall i | i in ids :: i in rows) && forall i | i in list :: i in ids
    requires forall j, k | 0 <= j < k < |list| :: list[j] != list[k] && NoLater(rows[list[j]], rows[list[k]])
    ensures Distinct(list) && forall j | 0 <= j < |list| :: list[j] in ids && list[j] in rows
  {
    hide NoLater;
    forall j | 0 <= j < |list| ensures list[j] in ids && list[j] in rows {
      assert list[j] in list;
    }
    forall j, k | 0 <= j < k < |list| ensures list[j] != list[k] {
      assert NoLater(rows[list[j]], rows[list[k]]);
    }
  }

  lemma AllListed(P: Params, rows: Table, exhausted: set<Id>, list: seq<Id>, t: Time)
    requires forall i | i in exhausted :: i in rows && IsExhausted(P, rows[i], t)
    requires forall i | i in list :: i in exhausted
    requires forall j, k | 0 <= j < k < |list| :: list[j] != list[k] && NoLater(rows[list[j]], rows[list[k]])
    ensures AllExhausted(P, rows, list, t) && Distinct(list)
  {
    hide IsExhausted, NoLater;
    AllOf(rows, exhausted, list);
  }

  lemma NothingDone(P: Params, rows: Table, list: seq<Id>)
    requires Distinct(list) && forall j | 0 <= j < |list| :: list[j] in rows
    ensures NoWorse(P, rows, rows) && AsListed(rows, rows, list, 0) && OnlyFailed(P, rows, rows, list[..0])
  {}

  lemma ListedIsExhausted(P: Params, rows: Table, list: seq<Id>, k: nat, t: Time)
    requires AllExhausted(P, rows, list, t) && k < |list|
    ensures list[k] in rows && rows[list[k]].status == Confirmed && rows[list[k]].attempts >= P.maxAttempts
  {}

  /** What was exhausted is listed later too. */
  lemma ExhaustedLater(P: Params, rows: Table, exhausted: set<Id>, t: Time, t': Time)
    requires t <= t' && forall i | i in rows && IsExhausted(P, rows[i], t') :: i in exhausted
    ensures forall i | i in rows && IsExhausted(P, rows[i], t) :: i in exhausted
    ensures SomeExhausted(P, rows, t) ==> exhausted != {}
  {}

  lemma StuckLater(P: Params, rows: Table, stuck: set<Id>, t: Time, t': Time)
    requires t <= t' && forall i | i in rows && IsStuck(P, rows[i], t') :: i in stuck
    ensures forall i | i in rows && IsStuck(P, rows[i], t) :: i in stuck
    ensures SomeStuck(P, rows, t) ==> stuck != {}
  {
    forall i | i in rows && IsStuck(P, rows[i], t) ensures i in stuck {
      assert IsStuck(P, rows[i], t');
    }
  }

  lemma OthersSpared(P: Params, rows: Table, rows': Table, list: seq<Id>)
    requires OnlyFailed(P, rows, rows', list)
    ensures Spared(P, rows, rows')
  {}

  lemma ExhaustedRow(P: Params, rows0: Table, rows: Table, list: seq<Id>, k: nat, t: Time)
    requires k < |list| && NoWorse(P, rows0, rows) && OnlyFailed(P, rows0, rows, list[..k]) && AsListed(rows0, rows, list, k)
    requires rows0[list[k]].status == Confirmed && rows0[list[k]].attempts >= P.maxAttempts
    ensures list[k] in rows && rows[list[k]].status == Confirmed
    ensures
      var rows' := rows[list[k] := Close(rows[list[k]], Failed, t)];
      && NoWorse(P, rows0, rows') && Better(P, rows0, rows') && AsListed(rows0, rows', list, k + 1)
      && OnlyFailed(P, rows0, rows', list[..k + 1])
  {
    OneBetter(P, rows0, rows, list[k], Close(rows[list[k]], Failed, t));
    hide NoWorse, Better;
    assert list[..k + 1] == list[..k] + [list[k]];
    assert forall j | 0 <= j < k :: list[..k][j] == list[j];
  }

  lemma StuckRow(P: Params, rows0: Table, rows: Table, list: seq<Id>, k: nat, t: Time, t': Time)
    requires AsListed(rows0, rows, list, k) && k < |list| && IsStuck(P, rows0[list[k]], t) && t <= t'
    ensures list[k] in rows && IsStuck(P, rows[list[k]], t') && rows[list[k]].status == Status.Confirmed && rows[list[k]].confirmedAt.Some?
  {}

  /** A row that was claimed and perhaps closed after that has an attempt less. */
  lemma ClaimedIsBetter(P: Params, rows: Table, claimed: Table, rows': Table, id: Id, t: Time)
    requires id in rows && rows[id].status == Confirmed && rows[id].attempts < P.maxAttempts
    requires claimed == rows[id := Claimed(rows[id], t)]
    requires rows' == claimed || exists status, t' :: status != Confirmed && rows' == claimed[id := Close(claimed[id], status, t')]
    ensures NoWorse(P, rows, rows') && rows'.Keys == rows.Keys && Weight(P, rows'[id]) < Weight(P, rows[id])
    ensures forall i | i in rows && i != id :: rows'[i] == rows[i]
  {}

  lemma StuckRowDone(P: Params, rows0: Table, rows: Table, rows': Table, list: seq<Id>, k: nat)
    requires NoWorse(P, rows0, rows) && AsListed(rows0, rows, list, k) && k < |list|
    requires NoWorse(P, rows, rows') && list[k] in rows && list[k] in rows'
    requires Weight(P, rows'[list[k]]) < Weight(P, rows[list[k]])
    requires forall i | i in rows && i != list[k] :: i in rows' && rows'[i] == rows[i]
    ensures NoWorse(P, rows0, rows') && Better(P, rows0, rows') && AsListed(rows0, rows', list, k + 1)
  {
    assert Better(P, rows, rows');
    NoWorseIsTransitive(P, rows0, rows, rows');
    hide NoWorse, Better;
  }

  /** What was stuck before the exhausted rows were failed still is. */
  lemma StillStuck(P: Params, rows: Table, rows': Table, t: Time, t': Time)
    requires Spared(P, rows, rows') && t <= t'
    ensures SomeStuck(P, rows, t) ==> SomeStuck(P, rows', t')
  {
    if i :| i in rows && IsStuck(P, rows[i], t) {
      assert i in rows' && IsStuck(P, rows'[i], t');
    }
  }

  const SWEEP := 50

  // ----- Listing rows -----

  /** The order of confirmation times; rows without one come last. */
  predicate NoLater(a: Row, b: Row) {
    b.confirmedAt.None? || (a.confirmedAt.Some? && a.confirmedAt.value <= b.confirmedAt.value)
  }

  method OldestOf(rows: Table, ids: set<Id>) returns (first: Id)
    requires ids != {} && forall i | i in ids :: i in rows
    ensures first in ids && forall i | i in ids :: NoLater(rows[first], rows[i])
  {
    first :| first in ids;
    var rest := ids - {first};
    while rest != {}
      invariant rest <= ids && first in ids
      invariant forall i | i in ids && i !in rest :: NoLater(rows[first], rows[i])
    {
      var i :| i in rest;
      rest := rest - {i};
      if !NoLater(rows[first], rows[i]) {
        first := i;
      }
    }
  }

  /** At most `limit` of the rows, the oldest first, and none left out that is older than one listed. */
  method Oldest(rows: Table, ids: set<Id>, limit: nat) returns (list: seq<Id>)
    requires forall i | i in ids :: i in rows
    ensures |list| == if |ids| < limit then |ids| else limit
    ensures |list| < limit ==> forall i | i in ids :: i in list
    ensures forall i | i in list :: i in ids
    ensures forall j, k | 0 <= j < k < |list| :: list[j] != list[k] && NoLater(rows[list[j]], rows[list[k]])
    ensures forall j, i | 0 <= j < |list| && i in ids && i !in list :: NoLater(rows[list[j]], rows[i])
  {
    list := [];
    var rest := ids;
    while rest != {} && |list| < limit
      invariant rest <= ids && |list| + |rest| == |ids| && |list| <= limit
      invariant forall i | i in ids :: i in rest <==> i !in list
      invariant forall i | i in list :: i in ids
      invariant forall j, k | 0 <= j < k < |list| :: list[j] != list[k] && NoLater(rows[list[j]], rows[list[k]])
      invariant forall j, i | 0 <= j < |list| && i in rest :: NoLater(rows[list[j]], rows[i])
      decreases |rest|
    {
      var i := OldestOf(rows, rest);
      list := list + [i];
      rest := rest - {i};
    }
  }

  predicate TapIsFor(tap: Tap, r: Row) {
    tap.token == r.token && tap.org == r.key.org && tap.contact == r.key.contact && tap.session == r.session
  }

  function CheckedTodo(w: Weather, transfers: seq<Transfer>, r: Row): Todo {
    if HasActive(transfers, r.key.org, r.key.contact) then Shut(NotExecuted, AlreadyActiveText)
    else if !w.inHours then Shut(NotExecuted, OutsideHoursText)
    else Consume
  }

  /** What a tap on a pending confirmation comes to. */
  ghost predicate TapDone(tap: Tap, w: Weather, rows: Table, transfers: seq<Transfer>, id: Id,
                          rows': Table, transfers': seq<Transfer>, from: Time, to: Time, reply: Option<Text>)
    requires id in rows
  {
    && from <= to && rows'.Keys == rows.Keys && (forall i | i in rows && i != id :: rows'[i] == rows[i])
    && rows'[id].status != Pending
    && rows[id].history < rows'[id].history
    && (reply.Some? <==> Terminal(rows'[id].status)) && (reply.Some? ==> Says(reply.value, rows'[id].status))
    && (rows'[id].history[|rows[id].history|] == Confirmed ==>
          w.known && !w.tampered && w.authorized && !tap.decline && from < rows[id].expiresAt)
    && (!w.known ==> rows'[id].status == Denied)
    && (exists looked :: from <= looked <= to && IsTapped(tap, w, id, transfers, transfers', rows[id], rows'[id], looked, to, reply))
    && (w.known && from >= rows[id].expiresAt ==> rows'[id].status == Expired)
    && (w.known && to < rows[id].expiresAt && w.tampered ==> rows'[id].status == Denied)
    && (w.known && to < rows[id].expiresAt && !w.tampered && tap.decline ==> rows'[id].status == Declined)
    && (w.known && to < rows[id].expiresAt && !w.tampered && !tap.decline ==>
          if !w.authorized then rows'[id].status == Denied
          else if HasActive(transfers, rows[id].key.org, rows[id].key.contact) || !w.inHours then rows'[id].status == NotExecuted
          else rows'[id].history[|rows[id].history|] == Confirmed)
    && (transfers' != transfers ==>
          && rows'[id].history[|rows[id].history|] == Confirmed
          && |transfers'| == |transfers| + 1 && transfers'[..|transfers|] == transfers
          && transfers'[|transfers|].maker == Some(id))
  }

  /** What the tap has left to do when the row and the contact's transfers were looked at. */
  function TodoOf(tap: Tap, w: Weather, transfers: seq<Transfer>, r: Row, looked: Time): Todo {
    var todo := TapTodo(r, tap, looked, w.known, w.tampered, w.authorized);
    if todo.Check? then CheckedTodo(w, transfers, r) else todo
  }

  lemma ShutIsTapped(tap: Tap, w: Weather, id: Id, transfers: seq<Transfer>, r: Row, looked: Time, t: Time)
    ensures
      var todo := TodoOf(tap, w, transfers, r, looked);
      todo.Shut? ==> IsTapped(tap, w, id, transfers, transfers, r, Close(r, todo.status, t), looked, t, Some(todo.text))
  {
    hide IsExecution;
    assert HasActive(transfers, r.key.org, r.key.contact) <==> IsBusy(transfers, r);
    hide HasActive, IsBusy;
  }

  lemma ConsumedIsTapped(tap: Tap, w: Weather, id: Id, before: seq<Transfer>, after: seq<Transfer>, r: Row, r': Row,
                         looked: Time, t: Time, done: Time, reply: Option<Text>)
    requires !TodoOf(tap, w, before, r, looked).Shut? && looked <= t <= done
    requires IsExecution(w, id, before, after, ConfirmedRow(r, tap.contact, t), r', done, reply)
    ensures IsTapped(tap, w, id, before, after, r, r', looked, done, reply)
  {
    assert HasActive(before, r.key.org, r.key.contact) <==> IsBusy(before, r);
    assert r'.confirmedAt == Some(t);
    hide HasActive, IsBusy, IsMade;
    hide IsExecution;
  }

  lemma TappedIsDone(tap: Tap, w: Weather, rows: Table, transfers: seq<Transfer>, id: Id, rows': Table, transfers': seq<Transfer>,
                     from: Time, to: Time, looked: Time, reply: Option<Text>)
    requires id in rows && rows[id].status == Pending && rows'.Keys == rows.Keys && from <= looked <= to
    requires forall i | i in rows && i != id :: rows'[i] == rows[i]
    requires IsTapped(tap, w, id, transfers, transfers', rows[id], rows'[id], looked, to, reply)
    ensures TapDone(tap, w, rows, transfers, id, rows', transfers', from, to, reply)
  {
    assert HasActive(transfers, rows[id].key.org, rows[id].key.contact) <==> IsBusy(transfers, rows[id]);
    hide HasActive, IsBusy;
  }

  // ----- Sweeps until there is nothing left -----

  predicate IdsBelow(rows: Table, n: nat) {
    forall i | i in rows :: i < n
  }

  /** Tables as successive sweeps leave them, each sweep having seen an eligible row. */
  ghost predicate AreSweeps(P: Params, tables: seq<Table>) {
    && tables != []
    && forall j: nat, k: nat | j < k < |tables| && k == j + 1 ::
         NoWorse(P, tables[j], tables[k]) && Better(P, tables[j], tables[k])
  }

  /**
   Sweeps that see an eligible row are no more than the attempts that were left, plus one for each
   confirmed row: a row comes to an end even if every attempt on it dies.
   */
  lemma {:induction false} SweepsEnd(P: Params, tables: seq<Table>, n: nat)
    requires AreSweeps(P, tables) && IdsBelow(tables[0], n)
    ensures |tables| - 1 + Work(P, tables[|tables| - 1], n) <= Work(P, tables[0], n)
    ensures IdsBelow(tables[|tables| - 1], n)
    decreases |tables|
  {
    if |tables| > 1 {
      var before := tables[..|tables| - 1];
      SweepsEnd(P, before, n);
      var a, b := tables[|tables| - 2], tables[|tables| - 1];
      LessWork(P, a, b, n);
    }
  }

  lemma {:induction false} SweepsKeepAttempts(P: Params, tables: seq<Table>, i: Id)
    requires AreSweeps(P, tables) && i in tables[0] && tables[0][i].attempts <= P.maxAttempts
    ensures i in tables[|tables| - 1] && tables[|tables| - 1][i].attempts <= P.maxAttempts
    decreases |tables|
  {
    if |tables| > 1 {
      var before := tables[..|tables| - 1];
      SweepsKeepAttempts(P, before, i);
      assert NoWorse(P, tables[|tables| - 2], tables[|tables| - 1]);
    }
  }

  /** Every confirmed row was confirmed, and last claimed, more than minAge before t. */
  ghost predicate Ripe(P: Params, rows: Table, t: Time) {
    forall i | i in rows && rows[i].status == Confirmed ::
      rows[i].confirmedAt.Some? && rows[i].confirmedAt.value < t - P.minAge && ClaimIsOld(P, rows[i], t)
  }

  /** Tables as sweeps at these times leave them, each by the contract of Reconcile. */
  ghost predicate AreTimedSweeps(P: Params, tables: seq<Table>, times: seq<Time>) {
    && |tables| == |times| + 1
    && forall k: nat, m: nat | k < m < |tables| && m == k + 1 ::
         NoWorse(P, tables[k], tables[m]) && (SomeEligible(P, tables[k], times[k]) ==> Better(P, tables[k], tables[m]))
  }

  lemma RipeIsEligible(P: Params, rows: Table, t: Time, i: Id)
    requires Ripe(P, rows, t) && i in rows && rows[i].status == Confirmed
    ensures SomeEligible(P, rows, t)
  {
    assert IsExhausted(P, rows[i], t) || IsStuck(P, rows[i], t);
  }

  lemma {:induction false} NoWork(P: Params, rows: Table, n: nat)
    requires Work(P, rows, n) == 0
    ensures forall i | i in rows && i < n :: rows[i].status != Confirmed
  {
    if n > 0 {
      NoWork(P, rows, n - 1);
    }
  }

  /**
   Sweeps each more than minAge after the last claim close everything: after as many of them as there are
   attempts left, and one for each confirmed row, no row is confirmed, even if every attempt dies.
   */
  lemma {:induction false} SweepsCloseEverything(P: Params, tables: seq<Table>, times: seq<Time>, n: nat)
    requires AreTimedSweeps(P, tables, times) && IdsBelow(tables[0], n)
    requires forall k: nat | k < |times| :: Ripe(P, tables[k], times[k])
    ensures |times| >= Work(P, tables[0], n) ==> forall i | i in tables[|times|] :: tables[|times|][i].status != Confirmed
    ensures Work(P, tables[|times|], n) <= Work(P, tables[0], n)
    ensures Work(P, tables[|times|], n) > 0 ==> Work(P, tables[|times|], n) + |times| <= Work(P, tables[0], n)
    ensures IdsBelow(tables[|times|], n)
    decreases |times|
  {
    var k := |times|;
    if k > 0 {
      var before, early := tables[..k], times[..k - 1];
      forall j: nat | j < |early| ensures Ripe(P, before[j], early[j]) {
        assert Ripe(P, tables[j], times[j]);
      }
      SweepsCloseEverything(P, before, early, n);
      assert before[|early|] == tables[k - 1];
      OneMoreSweep(P, tables[k - 1], tables[k], times[k - 1], n);
    }
    if Work(P, tables[k], n) == 0 {
      NoWork(P, tables[k], n);
    }
  }

  /** A sweep over ripe rows leaves less work, if there was any. */
  lemma OneMoreSweep(P: Params, a: Table, b: Table, t: Time, n: nat)
    requires NoWorse(P, a, b) && (SomeEligible(P, a, t) ==> Better(P, a, b)) && Ripe(P, a, t) && IdsBelow(a, n)
    ensures IdsBelow(b, n) && Work(P, b, n) <= Work(P, a, n) && (Work(P, a, n) > 0 ==> Work(P, b, n) < Work(P, a, n))
  {
    LessWork(P, a, b, n);
    if Work(P, a, n) > 0 {
      var i := SomeWork(P, a, n);
      RipeIsEligible(P, a, t, i);
      var j :| j in a && j in b && Weight(P, b[j]) < Weight(P, a[j]);
      assert j < n;
    }
  }

  lemma {:induction false} SomeWork(P: Params, rows: Table, n: nat) returns (i: Id)
    requires Work(P, rows, n) > 0
    ensures i in rows && i < n && rows[i].status == Confirmed
  {
    if n - 1 in rows && rows[n - 1].status == Confirmed {
      i := n - 1;
    } else {
      i := SomeWork(P, rows, n - 1);
    }
  }
}
