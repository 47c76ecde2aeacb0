/**
 The confirmation protocol: taps, proposals, and reconcilers, each a sequence of database
 statements, in any interleaving and with a crash possible between any two statements.

 Two assumptions. The clock does not go backwards. An execution ends, or its process dies,
 within minAge of the clock reading that its confirmation or claim recorded.
 */
module ConfirmationProtocol {
  import opened Basics
  import opened Confirmations

  type Pid = nat

  datatype Text = DeniedText | ExpiredText | DeclinedText | CreatedText | AlreadyActiveText | OutsideHoursText

  /** A tap, as the webhook identified its sender. */
  datatype Tap = Tap(org: nat, contact: nat, session: nat, token: nat, decline: bool)

  datatype Source = AIConfirmed | OtherSource

  /** maker is the confirmation whose execution created the transfer; it is not stored. */
  datatype Transfer = Transfer(org: nat, contact: nat, source: Source, at: Time, active: bool, maker: Option<Id>)

  /** What a tap has left to do after the row was looked up. */
  datatype Todo = Check | Consume | Shut(status: Status, text: Text)

  datatype Outcome = Created | AlreadyActive | OutsideHours | Error

  datatype Stage =
    | Taken                                       // claimed; the row is read again next
    | Read                                        // still confirmed; the request is judged next
    | Closing(status: Status, text: Option<Text>)
    | Searching                                   // authorized again; what exists is looked up next
    | Ready                                       // the audit row comes next
    | Requested                                   // the tool runs: active transfer and hours first
    | Clear                                       // the insert comes next
    | Ran(outcome: Outcome)                       // the outcome is recorded next

  /** `at` is the latest clock reading of the process; `after` is what a reconciler has left to claim. */
  datatype Proc =
    | Tapped(id: Id, tap: Tap, todo: Todo, at: Time)
    | Failing(list: seq<Id>, at: Time)
    | Claiming(list: seq<Id>, at: Time)
    | Exec(id: Id, stage: Stage, since: Time, at: Time, after: Option<seq<Id>>)
    | Telling(id: Id, text: Text, at: Time, after: Option<seq<Id>>)

  datatype State = State(
    now: Time, rows: Table, transfers: seq<Transfer>, procs: map<Pid, Proc>,
    told: seq<(Id, Text)>)    // the messages customers got about their confirmations

  datatype Step =
    | Tick(to: Time)
    | Propose(id: Id, key: Key, session: nat, token: nat, t: Time)
    | TapLookup(p: Pid, tap: Tap, id: Id, t: Time, known: bool, tampered: bool, authorized: bool)
    | TapCheck(p: Pid, inHours: bool)
    | TapCas(p: Pid, t: Time)
    | SweepExhausted(p: Pid, list: seq<Id>, t: Time)
    | FailNext(p: Pid, t: Time)
    | SweepStuck(p: Pid, list: seq<Id>, t: Time)
    | ClaimNext(p: Pid, t: Time)
    | ReadRow(p: Pid)
    | Judge(p: Pid, t: Time, known: bool, authorized: bool)
    | Conclude(p: Pid, t: Time)
    | Search(p: Pid)
    | Request(p: Pid)
    | CheckActive(p: Pid, inHours: bool)
    | Insert(p: Pid, t: Time, broken: bool)
    | ToolFails(p: Pid)
    | Finish(p: Pid, t: Time)
    | Send(p: Pid)
    | Crash(p: Pid)
    | OtherTransfer(org: nat, contact: nat, t: Time)
    | CloseTransfer(k: nat)

  // ----- Reading the transfers -----

  predicate ActiveFor(t: Transfer, org: nat, contact: nat) {
    t.active && t.org == org && t.contact == contact
  }

  predicate HasActive(transfers: seq<Transfer>, org: nat, contact: nat) {
    exists k | 0 <= k < |transfers| :: ActiveFor(transfers[k], org, contact)
  }

  predicate MadeForSince(t: Transfer, r: Row) {
    t.source == AIConfirmed && t.org == r.key.org && t.contact == r.key.contact
    && r.confirmedAt.Some? && t.at >= r.confirmedAt.value
  }

  /** The reconciler's question: is there an AI-confirmed transfer of the contact since the confirmation? */
  predicate HasAITransfer(transfers: seq<Transfer>, r: Row) {
    exists k | 0 <= k < |transfers| :: MadeForSince(transfers[k], r)
  }

  // ----- The steps -----

  function Without(procs: map<Pid, Proc>, p: Pid): map<Pid, Proc> {
    map q | q in procs && q != p :: procs[q]
  }

  /** A process after its execution: a tap is over, a reconciler goes on with its list. */
  function Return(procs: map<Pid, Proc>, p: Pid, at: Time, after: Option<seq<Id>>): map<Pid, Proc> {
    match after
    case None => Without(procs, p)
    case Some(rest) => procs[p := Claiming(rest, at)]
  }

  function TapTodo(r: Row, tap: Tap, t: Time, known: bool, tampered: bool, authorized: bool): Todo {
    if !known then Shut(Denied, DeniedText)
    else if t >= r.expiresAt then Shut(Expired, ExpiredText)
    else if tampered then Shut(Denied, DeniedText)
    else if tap.decline then Shut(Declined, DeclinedText)
    else if !authorized then Shut(Denied, DeniedText)
    else Check
  }

  function StatusOf(o: Outcome): Status {
    match o
    case Created => Executed
    case AlreadyActive => NotExecuted
    case OutsideHours => NotExecuted
    case Error => Failed
  }

  function TextOf(o: Outcome): Text {
    match o
    case Created => CreatedText
    case AlreadyActive => AlreadyActiveText
    case OutsideHours => OutsideHoursText
    case Error => DeniedText
  }

  predicate InExec(s: State, p: Pid, stage: Stage) {
    p in s.procs && s.procs[p].Exec? && s.procs[p].stage == stage && s.procs[p].id in s.rows
  }

  predicate Reads(s: State, p: Pid, t: Time) {
    p in s.procs && s.procs[p].at <= t <= s.now
  }

  predicate Enabled(P: Params, s: State, step: Step) {
    match step
    case Tick(to) =>
      to > s.now && forall p | p in s.procs && s.procs[p].Exec? :: to <= s.procs[p].since + P.minAge
    case Propose(id, key, session, token, t) =>
      id !in s.rows && t <= s.now && MayPropose(P, s.rows, key, t)
    case TapLookup(p, tap, id, t, _, _, _) =>
      && p !in s.procs && t <= s.now && id in s.rows && s.rows[id].status == Pending
      && s.rows[id].key.org == tap.org && s.rows[id].key.contact == tap.contact
      && s.rows[id].token == tap.token && s.rows[id].session == tap.session
    case TapCheck(p, _) =>
      p in s.procs && s.procs[p].Tapped? && s.procs[p].todo.Check? && s.procs[p].id in s.rows
    case TapCas(p, t) =>
      && Reads(s, p, t) && s.procs[p].Tapped? && !s.procs[p].todo.Check? && s.procs[p].id in s.rows
      && (s.procs[p].todo.Consume? ==> s.now <= t + P.minAge)
    case SweepExhausted(p, list, t) =>
      p !in s.procs && t <= s.now && forall i | i in list :: i in s.rows && IsExhausted(P, s.rows[i], t)
    case FailNext(p, t) =>
      Reads(s, p, t) && s.procs[p].Failing? && s.procs[p].list != [] && s.procs[p].list[0] in s.rows
    case SweepStuck(p, list, t) =>
      Reads(s, p, t) && s.procs[p].Failing? && s.procs[p].list == []
      && forall i | i in list :: i in s.rows && IsStuck(P, s.rows[i], t)
    case ClaimNext(p, t) =>
      && Reads(s, p, t) && s.procs[p].Claiming? && s.procs[p].list != [] && s.procs[p].list[0] in s.rows
      && s.now <= t + P.minAge
    case ReadRow(p) => InExec(s, p, Taken)
    case Judge(p, t, _, _) => InExec(s, p, Read) && Reads(s, p, t) && s.rows[s.procs[p].id].confirmedAt.Some?
    case Conclude(p, t) =>
      Reads(s, p, t) && s.procs[p].Exec? && s.procs[p].stage.Closing? && s.procs[p].id in s.rows
    case Search(p) => InExec(s, p, Searching)
    case Request(p) => InExec(s, p, Ready)
    case CheckActive(p, _) => InExec(s, p, Requested)
    case Insert(p, t, _) => InExec(s, p, Clear) && Reads(s, p, t)
    case ToolFails(p) => InExec(s, p, Requested) || InExec(s, p, Clear)
    case Finish(p, t) =>
      Reads(s, p, t) && s.procs[p].Exec? && s.procs[p].stage.Ran? && s.procs[p].id in s.rows
    case Send(p) => p in s.procs && s.procs[p].Telling?
    case Crash(p) => p in s.procs
    case OtherTransfer(org, contact, t) => t <= s.now && !HasActive(s.transfers, org, contact)
    case CloseTransfer(k) => k < |s.transfers|
  }

  function Apply(P: Params, s: State, step: Step): State
    requires Enabled(P, s, step)
  {
    match step
    case Tick(to) => s.(now := to)
    case Propose(id, key, session, token, t) => s.(rows := Proposed(P, s.rows, id, key, session, token, t))
    case TapLookup(p, tap, id, t, known, tampered, authorized) =>
      s.(procs := s.procs[p := Tapped(id, tap, TapTodo(s.rows[id], tap, t, known, tampered, authorized), t)])
    case TapCheck(p, inHours) => s.(procs := s.procs[p := s.procs[p].(todo := TapChecked(s, p, inHours))])
    case TapCas(p, t) => TapConsumes(s, p, t)
    case SweepExhausted(p, list, t) => s.(procs := s.procs[p := Failing(list, t)])
    case FailNext(p, t) => Fail(s, p, t)
    case SweepStuck(p, list, t) => s.(procs := s.procs[p := Claiming(list, t)])
    case ClaimNext(p, t) => Claim(P, s, p, t)
    case ReadRow(p) =>
      if s.rows[s.procs[p].id].status == Confirmed then s.(procs := s.procs[p := s.procs[p].(stage := Read)])
      else s.(procs := Return(s.procs, p, s.procs[p].at, s.procs[p].after))
    case Judge(p, t, known, authorized) =>
      s.(procs := s.procs[p := s.procs[p].(at := t, stage := Judged(P, s.rows[s.procs[p].id], t, known, authorized))])
    case Conclude(p, t) => Closes(s, p, t)
    case Search(p) =>
      s.(procs := s.procs[p := s.procs[p].(stage :=
        if HasAITransfer(s.transfers, s.rows[s.procs[p].id]) then Closing(Executed, Some(CreatedText)) else Ready)])
    case Request(p) => s.(procs := s.procs[p := s.procs[p].(stage := Requested)])
    case CheckActive(p, inHours) =>
      var key := s.rows[s.procs[p].id].key;
      s.(procs := s.procs[p := s.procs[p].(stage :=
        if HasActive(s.transfers, key.org, key.contact) then Ran(AlreadyActive)
        else if !inHours then Ran(OutsideHours) else Clear)])
    case Insert(p, t, broken) => Inserts(s, p, t, broken)
    case ToolFails(p) => s.(procs := s.procs[p := s.procs[p].(stage := Ran(Error))])
    case Finish(p, t) => Finishes(s, p, t)
    case Send(p) =>
      s.(told := s.told + [(s.procs[p].id, s.procs[p].text)],
         procs := Return(s.procs, p, s.procs[p].at, s.procs[p].after))
    case Crash(p) => s.(procs := Without(s.procs, p))
    case OtherTransfer(org, contact, t) =>
      s.(transfers := s.transfers + [Transfer(org, contact, OtherSource, t, true, None)])
    case CloseTransfer(k) => s.(transfers := s.transfers[k := s.transfers[k].(active := false)])
  }

  function TapChecked(s: State, p: Pid, inHours: bool): Todo
    requires p in s.procs && s.procs[p].Tapped? && s.procs[p].id in s.rows
  {
    var key := s.rows[s.procs[p].id].key;
    if HasActive(s.transfers, key.org, key.contact) then Shut(NotExecuted, AlreadyActiveText)
    else if !inHours then Shut(NotExecuted, OutsideHoursText)
    else Consume
  }

  /** The compare-and-set from pending, after which only the winner goes on. */
  function TapConsumes(s: State, p: Pid, t: Time): State
    requires p in s.procs && s.procs[p].Tapped? && s.procs[p].id in s.rows
  {
    var c := s.procs[p];
    var r := s.rows[c.id];
    if r.status != Pending then s.(procs := Without(s.procs, p))
    else match c.todo
      case Check => s
      case Shut(status, text) =>
        s.(rows := s.rows[c.id := Close(r, status, t)], procs := s.procs[p := Telling(c.id, text, t, None)])
      case Consume =>
        s.(rows := s.rows[c.id := ConfirmedRow(r, c.tap.contact, t)], procs := s.procs[p := Exec(c.id, Ready, t, t, None)])
  }

  /** The exhaustion sweep fails the next row it listed, if that is still confirmed. */
  function Fail(s: State, p: Pid, t: Time): State
    requires p in s.procs && s.procs[p].Failing? && s.procs[p].list != [] && s.procs[p].list[0] in s.rows
  {
    var list := s.procs[p].list;
    var r := s.rows[list[0]];
    s.(rows := if r.status == Confirmed then s.rows[list[0] := Close(r, Failed, t)] else s.rows,
       procs := s.procs[p := Failing(list[1..], t)])
  }

  function Claim(P: Params, s: State, p: Pid, t: Time): State
    requires p in s.procs && s.procs[p].Claiming? && s.procs[p].list != [] && s.procs[p].list[0] in s.rows
  {
    var list := s.procs[p].list;
    var r := s.rows[list[0]];
    if MayClaim(P, r, t) then
      s.(rows := s.rows[list[0] := Claimed(r, t)],
         procs := s.procs[p := Exec(list[0], Taken, t, t, Some(list[1..]))])
    else s.(procs := s.procs[p := Claiming(list[1..], t)])
  }

  /** Authorized again, and not older than a confirmation is valid. */
  function Judged(P: Params, r: Row, t: Time, known: bool, authorized: bool): Stage
    requires r.confirmedAt.Some?
  {
    if !known then Closing(Denied, None)
    else if t - r.confirmedAt.value > P.ttl then Closing(Failed, None)
    else if !authorized then Closing(Denied, Some(DeniedText))
    else Searching
  }

  function Closes(s: State, p: Pid, t: Time): State
    requires p in s.procs && s.procs[p].Exec? && s.procs[p].stage.Closing? && s.procs[p].id in s.rows
  {
    var c := s.procs[p];
    var r := s.rows[c.id];
    if r.status != Confirmed then s.(procs := Return(s.procs, p, t, c.after))
    else
      s.(rows := s.rows[c.id := Close(r, c.stage.status, t)],
         procs := if c.stage.text.Some? then s.procs[p := Telling(c.id, c.stage.text.value, t, c.after)]
                  else Return(s.procs, p, t, c.after))
  }

  /** The insert, which the index on active transfers may refuse; a created one may still be reported as an error. */
  function Inserts(s: State, p: Pid, t: Time, broken: bool): State
    requires p in s.procs && s.procs[p].Exec? && s.procs[p].id in s.rows
  {
    var c := s.procs[p];
    var key := s.rows[c.id].key;
    if HasActive(s.transfers, key.org, key.contact) then
      s.(procs := s.procs[p := c.(at := t, stage := Ran(AlreadyActive))])
    else
      s.(transfers := s.transfers + [Transfer(key.org, key.contact, AIConfirmed, t, true, Some(c.id))],
         procs := s.procs[p := c.(at := t, stage := Ran(if broken then Error else Created))])
  }

  /** The outcome is a compare-and-set from confirmed too, but whether it was won is not looked at. */
  function Finishes(s: State, p: Pid, t: Time): State
    requires p in s.procs && s.procs[p].Exec? && s.procs[p].stage.Ran? && s.procs[p].id in s.rows
  {
    var c := s.procs[p];
    var r := s.rows[c.id];
    s.(rows := if r.status == Confirmed then s.rows[c.id := Close(r, StatusOf(c.stage.outcome), t)] else s.rows,
       procs := s.procs[p := Telling(c.id, TextOf(c.stage.outcome), t, c.after)])
  }

  predicate Init(s: State) {
    s.rows == map[] && s.transfers == [] && s.procs == map[] && s.told == []
  }
}
