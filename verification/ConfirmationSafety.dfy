/** What holds of the confirmation protocol after every step of every run. */
module ConfirmationSafety {
  import opened Basics
  import opened Confirmations
  import opened ConfirmationProtocol

  ghost predicate ParamsOk(P: Params) {
    P.minAge >= 0 && P.maxAttempts >= 1
  }

  // ----- Rows -----

  ghost predicate IsLifecycle(h: seq<Status>) {
    h != [] && h[0] == Pending && forall k | 0 <= k < |h| - 1 :: Allowed(h[k], h[k + 1])
  }

  /** The first claim comes more than minAge after the confirmation, and each one more than minAge after the last. */
  ghost predicate ClaimsOk(P: Params, r: Row) {
    && r.attempts == |r.claims|
    && r.claimedAt == (if r.claims == [] then None else Some(r.claims[|r.claims| - 1]))
    && (r.claims != [] ==> r.confirmedAt.Some? && r.confirmedAt.value + P.minAge < r.claims[0])
    && forall k | 0 <= k < |r.claims| - 1 :: r.claims[k] + P.minAge < r.claims[k + 1]
  }

  ghost predicate RowOk(P: Params, r: Row, now: Time) {
    && IsLifecycle(r.history) && r.history[|r.history| - 1] == r.status
    && (r.confirmedAt.Some? <==> Confirmed in r.history)
    && (r.status in {Pending, Declined, Expired, Superseded} ==> r.confirmedAt.None?)
    && (r.status in {Confirmed, Executed, Failed} ==> r.confirmedAt.Some?)
    && (r.confirmedAt.Some? ==> r.confirmedAt.value <= now && r.confirmedBy == Some(r.key.contact))
    && ClaimsOk(P, r) && (r.claimedAt.Some? ==> r.claimedAt.value <= now)
  }

  // ----- Transfers -----

  ghost predicate NoTransferBy(transfers: seq<Transfer>, id: Id) {
    forall k | 0 <= k < |transfers| :: transfers[k].maker != Some(id)
  }

  ghost predicate TransfersOk(s: State) {
    forall k | 0 <= k < |s.transfers| ::
      && s.transfers[k].at <= s.now
      && (s.transfers[k].maker.Some? ==>
            s.transfers[k].maker.value in s.rows && MadeForSince(s.transfers[k], s.rows[s.transfers[k].maker.value]))
  }

  /** A confirmation makes at most one transfer. */
  ghost predicate OneEach(transfers: seq<Transfer>) {
    forall j, k | 0 <= j < |transfers| && 0 <= k < |transfers| ::
      transfers[j].maker.Some? && transfers[j].maker == transfers[k].maker ==> j == k
  }

  /** A contact has at most one active transfer. */
  ghost predicate OneActive(transfers: seq<Transfer>) {
    forall j, k | 0 <= j < |transfers| && 0 <= k < |transfers| ::
      transfers[j].active && ActiveFor(transfers[k], transfers[j].org, transfers[j].contact) ==> j == k
  }

  /** What a row's status says about transfers. */
  ghost predicate StatusIsTrue(transfers: seq<Transfer>, id: Id, r: Row) {
    && (r.status == Executed ==> HasAITransfer(transfers, r))
    && (r.status == NotExecuted ==> NoTransferBy(transfers, id))
  }

  /** What a message says about transfers. */
  ghost predicate TextIsTrue(transfers: seq<Transfer>, id: Id, r: Row, text: Text) {
    && (text == CreatedText ==> HasAITransfer(transfers, r))
    && (text in {ExpiredText, DeclinedText, AlreadyActiveText, OutsideHoursText} ==> NoTransferBy(transfers, id))
  }

  // ----- Processes -----

  ghost predicate ListOk(P: Params, rows: Table, list: seq<Id>, at: Time) {
    forall i | i in list :: i in rows && rows[i].confirmedAt.Some? && rows[i].confirmedAt.value + P.minAge < at
  }

  ghost predicate StageOk(transfers: seq<Transfer>, id: Id, r: Row, stage: Stage) {
    match stage
    case Closing(status, text) =>
      && status in {Denied, Failed, Executed}
      && (status == Executed ==> HasAITransfer(transfers, r))
      && (text.Some? ==> text.value == DeniedText || (text.value == CreatedText && HasAITransfer(transfers, r)))
    case Ready => NoTransferBy(transfers, id)
    case Requested => NoTransferBy(transfers, id)
    case Clear => NoTransferBy(transfers, id)
    case Ran(Created) => HasAITransfer(transfers, r)
    case Ran(AlreadyActive) => NoTransferBy(transfers, id)
    case Ran(OutsideHours) => NoTransferBy(transfers, id)
    case _ => true
  }

  ghost predicate TappedOk(r: Row, tap: Tap, todo: Todo, at: Time) {
    && tap.org == r.key.org && tap.contact == r.key.contact && tap.session == r.session && tap.token == r.token
    && match todo
       case Shut(status, text) => status in {Declined, Expired, Denied, NotExecuted} && text != CreatedText
       case _ => !tap.decline && at < r.expiresAt
  }

  /** An execution has its row to itself, but for an exhaustion sweep. */
  ghost predicate ExecOk(P: Params, now: Time, rows: Table, transfers: seq<Transfer>, c: Proc)
    requires c.Exec? && c.id in rows
  {
    var r := rows[c.id];
    && r.confirmedAt.Some? && r.confirmedAt.value <= c.since <= c.at
    && now <= c.since + P.minAge
    && (c.after.None? ==> c.since == r.confirmedAt.value && r.claims == [] && r.status == Confirmed)
    && (c.after.Some? ==> r.claimedAt == Some(c.since) && ListOk(P, rows, c.after.value, c.at))
    && (r.status == Confirmed || (r.status == Failed && r.attempts >= P.maxAttempts))
    && StageOk(transfers, c.id, r, c.stage)
  }

  ghost predicate ProcOk(P: Params, now: Time, rows: Table, transfers: seq<Transfer>, c: Proc) {
    && c.at <= now
    && match c
       case Tapped(id, tap, todo, at) => id in rows && TappedOk(rows[id], tap, todo, at)
       case Failing(list, _) => forall i | i in list :: i in rows && rows[i].attempts >= P.maxAttempts
       case Claiming(list, at) => ListOk(P, rows, list, at)
       case Exec(id, _, _, _, _) => id in rows && ExecOk(P, now, rows, transfers, c)
       case Telling(id, text, at, after) =>
         && id in rows && Terminal(rows[id].status) && TextIsTrue(transfers, id, rows[id], text)
         && (after.Some? ==> ListOk(P, rows, after.value, at))
  }

  /** The process executes, or is about to answer for, the confirmation. */
  ghost predicate Busy(c: Proc, id: Id) {
    (c.Exec? || c.Telling?) && c.id == id
  }

  /** No process but p is busy with the confirmation, and its customer has not been told anything. */
  ghost predicate Alone(s: State, p: Pid, id: Id) {
    && (forall q | q in s.procs && q != p :: !Busy(s.procs[q], id))
    && forall k | 0 <= k < |s.told| :: s.told[k].0 != id
  }

  ghost predicate ToldOk(s: State) {
    && (forall k | 0 <= k < |s.told| :: s.told[k].0 in s.rows && Terminal(s.rows[s.told[k].0].status)
          && TextIsTrue(s.transfers, s.told[k].0, s.rows[s.told[k].0], s.told[k].1))
    && forall j, k | 0 <= j < |s.told| && 0 <= k < |s.told| :: s.told[j].0 == s.told[k].0 ==> j == k
  }

  ghost predicate RowsOk(P: Params, s: State) {
    forall i | i in s.rows :: RowOk(P, s.rows[i], s.now) && StatusIsTrue(s.transfers, i, s.rows[i])
  }

  ghost predicate ProcsOk(P: Params, s: State) {
    forall p | p in s.procs :: ProcOk(P, s.now, s.rows, s.transfers, s.procs[p])
  }

  ghost predicate Exclusive(s: State) {
    forall p | p in s.procs && (s.procs[p].Exec? || s.procs[p].Telling?) :: Alone(s, p, s.procs[p].id)
  }

  ghost predicate Inv(P: Params, s: State) {
    && RowsOk(P, s)
    && TransfersOk(s) && OneEach(s.transfers) && OneActive(s.transfers)
    && ProcsOk(P, s) && Exclusive(s) && ToldOk(s)
    && WithinLimit(P, s.rows) && OnePending(s.rows)
  }

  // ----- A process moves -----

  lemma ProcMoves(P: Params, s: State, p: Pid, c: Proc)
    requires Inv(P, s) && ProcOk(P, s.now, s.rows, s.transfers, c)
    requires c.Exec? || c.Telling? ==> Alone(s, p, c.id)
    ensures Inv(P, s.(procs := s.procs[p := c]))
  {
    hide ProcOk, RowsOk, TransfersOk, OneEach, OneActive, ToldOk, WithinLimit, OnePending;
    var s' := s.(procs := s.procs[p := c]);
    SameWorld(P, s, s');
    forall q | q in s'.procs && (s'.procs[q].Exec? || s'.procs[q].Telling?)
      ensures Alone(s', q, s'.procs[q].id)
    {
      if q != p {
        assert Alone(s, q, s.procs[q].id);
      }
    }
  }

  lemma SameWorld(P: Params, s: State, s': State)
    requires s' == s.(procs := s'.procs) && RowsOk(P, s) && TransfersOk(s) && ToldOk(s)
    ensures RowsOk(P, s') && TransfersOk(s') && ToldOk(s')
  {}

  lemma ProcEnds(P: Params, s: State, p: Pid)
    requires Inv(P, s)
    ensures Inv(P, s.(procs := Without(s.procs, p)))
  {
    hide ProcOk, RowsOk, TransfersOk, OneEach, OneActive, ToldOk, WithinLimit, OnePending;
    var s' := s.(procs := Without(s.procs, p));
    SameWorld(P, s, s');
    forall q | q in s'.procs && (s'.procs[q].Exec? || s'.procs[q].Telling?)
      ensures Alone(s', q, s'.procs[q].id)
    {
      assert Alone(s, q, s.procs[q].id);
    }
  }

  lemma ProcReturns(P: Params, s: State, p: Pid, at: Time, after: Option<seq<Id>>)
    requires Inv(P, s) && at <= s.now && (after.Some? ==> ListOk(P, s.rows, after.value, at))
    ensures Inv(P, s.(procs := Return(s.procs, p, at, after)))
  {
    hide Inv;
    match after
    case None => ProcEnds(P, s, p);
    case Some(rest) => ProcMoves(P, s, p, Claiming(rest, at));
  }

  // ----- A row changes -----

  ghost predicate Evolves(r: Row, r': Row) {
    && r'.key == r.key && r'.session == r.session && r'.token == r.token
    && r'.proposedAt == r.proposedAt && r'.expiresAt == r.expiresAt
    && (r.confirmedAt.Some? ==> r'.confirmedAt == r.confirmedAt)
    && r'.attempts >= r.attempts
    && (r'.status == Pending ==> r.status == Pending)
  }

  /** The row changes; whoever executes it is as well off afterwards. */
  ghost predicate RowMayBecome(P: Params, s: State, id: Id, r': Row) {
    && id in s.rows && !Terminal(s.rows[id].status) && Evolves(s.rows[id], r')
    && RowOk(P, r', s.now) && StatusIsTrue(s.transfers, id, r')
    && forall p | p in s.procs && s.procs[p].Exec? && s.procs[p].id == id ::
         ProcOk(P, s.now, s.rows[id := r'], s.transfers, s.procs[p])
  }

  lemma RowChanges(P: Params, s: State, id: Id, r': Row)
    requires Inv(P, s) && RowMayBecome(P, s, id, r')
    ensures Inv(P, s.(rows := s.rows[id := r']))
  {
    RowChangeKeepsRows(P, s, id, r');
    RowChangeKeepsProcs(P, s, id, r');
    RowChangeKeepsTransfers(s, id, r');
    RowChangeKeepsTold(s, id, r');
    hide ProcsOk, RowsOk, TransfersOk, OneEach, OneActive, ToldOk, RowMayBecome, Evolves;
    RowChangeKeepsAlone(s, id, r');
  }

  lemma RowChangeKeepsAlone(s: State, id: Id, r': Row)
    requires Exclusive(s)
    ensures Exclusive(s.(rows := s.rows[id := r']))
  {
    var s' := s.(rows := s.rows[id := r']);
    forall q | q in s'.procs && (s'.procs[q].Exec? || s'.procs[q].Telling?)
      ensures Alone(s', q, s'.procs[q].id)
    {
      assert Alone(s, q, s.procs[q].id);
    }
  }

  lemma RowChangeKeepsRows(P: Params, s: State, id: Id, r': Row)
    requires RowsOk(P, s) && RowMayBecome(P, s, id, r') && WithinLimit(P, s.rows) && OnePending(s.rows)
    ensures
      var s' := s.(rows := s.rows[id := r']);
      RowsOk(P, s') && WithinLimit(P, s'.rows) && OnePending(s'.rows)
  {
    hide RowOk, ProcOk, StatusIsTrue;
    var s' := s.(rows := s.rows[id := r']);
    LimitDependsOnTimes(P, s.rows, s'.rows);
    forall i, j | i in s'.rows && j in s'.rows && s'.rows[i].key == s'.rows[j].key
      && s'.rows[i].status == Pending && s'.rows[j].status == Pending
      ensures i == j
    {
      assert s.rows[i].key == s.rows[j].key;
    }
  }

  lemma RowChangeKeepsTransfers(s: State, id: Id, r': Row)
    requires id in s.rows && Evolves(s.rows[id], r')
    requires TransfersOk(s)
    ensures TransfersOk(s.(rows := s.rows[id := r']))
  {
    var s' := s.(rows := s.rows[id := r']);
    forall k | 0 <= k < |s.transfers| && s.transfers[k].maker.Some?
      ensures s.transfers[k].maker.value in s'.rows && MadeForSince(s.transfers[k], s'.rows[s.transfers[k].maker.value])
    {
      assert MadeForSince(s.transfers[k], s.rows[s.transfers[k].maker.value]);
    }
  }

  lemma RowChangeKeepsTold(s: State, id: Id, r': Row)
    requires id in s.rows && !Terminal(s.rows[id].status) && ToldOk(s)
    ensures ToldOk(s.(rows := s.rows[id := r']))
  {}

  lemma RowChangeKeepsProcs(P: Params, s: State, id: Id, r': Row)
    requires ProcsOk(P, s) && RowMayBecome(P, s, id, r')
    ensures ProcsOk(P, s.(rows := s.rows[id := r']))
  {
    var rows' := s.rows[id := r'];
    forall p | p in s.procs ensures ProcOk(P, s.now, rows', s.transfers, s.procs[p]) {
      var c := s.procs[p];
      assert ProcOk(P, s.now, s.rows, s.transfers, c);
      match c
      case Exec(i, _, _, at, after) =>
        if i != id && after.Some? {
          ListSurvives(P, s.rows, id, r', after.value, at);
        }
      case Claiming(list, at) => ListSurvives(P, s.rows, id, r', list, at);
      case Telling(_, _, at, after) =>
        if after.Some? {
          ListSurvives(P, s.rows, id, r', after.value, at);
        }
      case _ =>
    }
  }

  lemma ListSurvives(P: Params, rows: Table, id: Id, r': Row, list: seq<Id>, at: Time)
    requires ListOk(P, rows, list, at) && id in rows && Evolves(rows[id], r')
    ensures ListOk(P, rows[id := r'], list, at)
  {}

  lemma ListWaits(P: Params, rows: Table, list: seq<Id>, at: Time, t: Time)
    requires ListOk(P, rows, list, at) && at <= t
    ensures ListOk(P, rows, list, t)
  {}

  lemma HistoryGrows(r: Row, to: Status)
    requires IsLifecycle(r.history) && r.history[|r.history| - 1] == r.status && Allowed(r.status, to)
    ensures IsLifecycle(Move(r, to).history)
    ensures Confirmed in Move(r, to).history <==> Confirmed in r.history || to == Confirmed
  {
    var h, h' := r.history, Move(r, to).history;
    forall k | 0 <= k < |h'| - 1 ensures Allowed(h'[k], h'[k + 1]) {
      if k < |h| - 1 {
        assert Allowed(h[k], h[k + 1]);
      }
    }
  }

  lemma NoneYet(P: Params, s: State, id: Id)
    requires Inv(P, s) && id in s.rows && s.rows[id].confirmedAt.None?
    ensures NoTransferBy(s.transfers, id)
  {
    forall k | 0 <= k < |s.transfers| ensures s.transfers[k].maker != Some(id) {}
  }

  /** A row that is pending or confirmed has no one to answer for it, unless it is executed. */
  lemma OpenIsUntold(P: Params, s: State, p: Pid, id: Id)
    requires Inv(P, s) && id in s.rows && !Terminal(s.rows[id].status)
    requires forall q | q in s.procs && q != p && s.procs[q].Exec? :: s.procs[q].id != id
    ensures Alone(s, p, id)
  {
    forall q | q in s.procs && q != p ensures !Busy(s.procs[q], id) {
      assert ProcOk(P, s.now, s.rows, s.transfers, s.procs[q]);
    }
  }
}
