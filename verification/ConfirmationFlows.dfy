/**
 What one process of the confirmation protocol does by itself, statement after statement with none of another
 process between them: how a tap goes, and how an attempt of the reconciler.
 */
module ConfirmationFlows {
  import opened Basics
  import opened Confirmations
  import opened ConfirmationProtocol

  predicate Leads(P: Params, s: State, step: Step, s': State) {
    Enabled(P, s, step) && Apply(P, s, step) == s'
  }

  // ----- One statement -----

  /** The order of the questions that a tap answers before it consumes anything. */
  lemma LooksUp(P: Params, s: State, p: Pid, tap: Tap, i: Id, known: bool, tampered: bool, authorized: bool) returns (todo: Todo)
    requires p !in s.procs && i in s.rows && s.rows[i].status == Pending
    requires tap.org == s.rows[i].key.org && tap.contact == s.rows[i].key.contact
    requires tap.session == s.rows[i].session && tap.token == s.rows[i].token
    ensures Leads(P, s, TapLookup(p, tap, i, s.now, known, tampered, authorized), s.(procs := s.procs[p := Tapped(i, tap, todo, s.now)]))
    ensures !known ==> todo == Shut(Denied, DeniedText)
    ensures known && s.now >= s.rows[i].expiresAt ==> todo == Shut(Expired, ExpiredText)
    ensures known && s.now < s.rows[i].expiresAt && tampered ==> todo == Shut(Denied, DeniedText)
    ensures known && s.now < s.rows[i].expiresAt && !tampered && tap.decline ==> todo == Shut(Declined, DeclinedText)
    ensures known && s.now < s.rows[i].expiresAt && !tampered && !tap.decline && !authorized ==> todo == Shut(Denied, DeniedText)
    ensures known && s.now < s.rows[i].expiresAt && !tampered && !tap.decline && authorized ==> todo == Check
  {
    todo := TapTodo(s.rows[i], tap, s.now, known, tampered, authorized);
  }

  lemma ChecksFirst(P: Params, s: State, p: Pid, inHours: bool) returns (todo: Todo)
    requires p in s.procs && s.procs[p].Tapped? && s.procs[p].todo.Check? && s.procs[p].id in s.rows
    ensures Leads(P, s, TapCheck(p, inHours), s.(procs := s.procs[p := s.procs[p].(todo := todo)]))
    ensures
      var key := s.rows[s.procs[p].id].key;
      todo == if HasActive(s.transfers, key.org, key.contact) then Shut(NotExecuted, AlreadyActiveText)
              else if inHours then Consume else Shut(NotExecuted, OutsideHoursText)
  {
    todo := TapChecked(s, p, inHours);
  }

  lemma Consumes(P: Params, s: State, p: Pid, i: Id, tap: Tap, at: Time)
    requires P.minAge >= 0 && at <= s.now && p in s.procs && s.procs[p] == Tapped(i, tap, Consume, at)
    requires i in s.rows && s.rows[i].status == Pending
    ensures
      var r := s.rows[i].(status := Confirmed, confirmedAt := Some(s.now), confirmedBy := Some(tap.contact),
                          history := s.rows[i].history + [Confirmed]);
      Leads(P, s, TapCas(p, s.now), s.(rows := s.rows[i := r], procs := s.procs[p := Exec(i, Ready, s.now, s.now, None)]))
  {}

  lemma Shuts(P: Params, s: State, p: Pid, i: Id, tap: Tap, status: Status, text: Text, at: Time)
    requires at <= s.now && p in s.procs && s.procs[p] == Tapped(i, tap, Shut(status, text), at)
    requires i in s.rows && s.rows[i].status == Pending
    ensures
      var r := s.rows[i].(status := status, finishedAt := Some(s.now), history := s.rows[i].history + [status]);
      Leads(P, s, TapCas(p, s.now), s.(rows := s.rows[i := r], procs := s.procs[p := Telling(i, text, s.now, None)]))
  {}

  lemma Requests(P: Params, s: State, p: Pid, i: Id, since: Time, at: Time, after: Option<seq<Id>>)
    requires p in s.procs && s.procs[p] == Exec(i, Ready, since, at, after) && i in s.rows
    ensures Leads(P, s, Request(p), s.(procs := s.procs[p := Exec(i, Requested, since, at, after)]))
  {}

  lemma ChecksActive(P: Params, s: State, p: Pid, i: Id, since: Time, at: Time, after: Option<seq<Id>>, inHours: bool)
    requires p in s.procs && s.procs[p] == Exec(i, Requested, since, at, after) && i in s.rows
    ensures
      var key := s.rows[i].key;
      var stage := if HasActive(s.transfers, key.org, key.contact) then Ran(AlreadyActive)
                   else if inHours then Clear else Ran(OutsideHours);
      Leads(P, s, CheckActive(p, inHours), s.(procs := s.procs[p := Exec(i, stage, since, at, after)]))
  {
    hide HasActive;
  }

  lemma ToolMayFail(P: Params, s: State, p: Pid, i: Id, since: Time, at: Time, after: Option<seq<Id>>)
    requires p in s.procs && s.procs[p] == Exec(i, Requested, since, at, after) && i in s.rows
    ensures Leads(P, s, ToolFails(p), s.(procs := s.procs[p := Exec(i, Ran(Error), since, at, after)]))
  {}

  lemma MakesTransfer(P: Params, s: State, p: Pid, i: Id, since: Time, at: Time, after: Option<seq<Id>>, broken: bool)
    requires at <= s.now && p in s.procs && s.procs[p] == Exec(i, Clear, since, at, after) && i in s.rows
    requires !HasActive(s.transfers, s.rows[i].key.org, s.rows[i].key.contact)
    ensures
      var key := s.rows[i].key;
      Leads(P, s, Insert(p, s.now, broken),
            s.(transfers := s.transfers + [Transfer(key.org, key.contact, AIConfirmed, s.now, true, Some(i))],
               procs := s.procs[p := Exec(i, Ran(if broken then Error else Created), since, s.now, after)]))
  {
    hide HasActive;
  }

  /** What is recorded of an outcome, and what is said of it. */
  lemma Records(P: Params, s: State, p: Pid, i: Id, outcome: Outcome, since: Time, at: Time, after: Option<seq<Id>>)
    returns (status: Status, text: Text)
    requires at <= s.now && p in s.procs && s.procs[p] == Exec(i, Ran(outcome), since, at, after)
    requires i in s.rows && s.rows[i].status == Confirmed
    ensures
      var r := s.rows[i].(status := status, finishedAt := Some(s.now), history := s.rows[i].history + [status]);
      Leads(P, s, Finish(p, s.now), s.(rows := s.rows[i := r], procs := s.procs[p := Telling(i, text, s.now, after)]))
    ensures outcome == Created ==> status == Executed && text == CreatedText
    ensures outcome == AlreadyActive ==> status == NotExecuted && text == AlreadyActiveText
    ensures outcome == OutsideHours ==> status == NotExecuted && text == OutsideHoursText
    ensures outcome == Error ==> status == Failed && text == DeniedText
  {
    status, text := StatusOf(outcome), TextOf(outcome);
  }

  lemma Tells(P: Params, s: State, p: Pid, i: Id, text: Text, at: Time, procs: map<Pid, Proc>)
    requires p in s.procs && s.procs[p] == Telling(i, text, at, None) && s.procs == procs[p := s.procs[p]] && p !in procs
    ensures Leads(P, s, Send(p), s.(told := s.told + [(i, text)], procs := procs))
  {
    assert Without(s.procs, p) == procs;
  }

  lemma TellsAndGoesOn(P: Params, s: State, p: Pid, i: Id, text: Text, at: Time, rest: seq<Id>)
    requires p in s.procs && s.procs[p] == Telling(i, text, at, Some(rest))
    ensures Leads(P, s, Send(p), s.(told := s.told + [(i, text)], procs := s.procs[p := Claiming(rest, at)]))
  {}

  // ----- The reconciler's statements -----

  lemma ClaimsStuck(P: Params, s: State, p: Pid, i: Id, rest: seq<Id>, at: Time)
    requires P.minAge >= 0 && at <= s.now && p in s.procs && s.procs[p] == Claiming([i] + rest, at)
    requires i in s.rows && s.rows[i].status == Confirmed
    requires s.rows[i].claimedAt.Some? ==> s.now - s.rows[i].claimedAt.value > P.minAge
    ensures
      var r := s.rows[i].(claimedAt := Some(s.now), attempts := s.rows[i].attempts + 1, claims := s.rows[i].claims + [s.now]);
      Leads(P, s, ClaimNext(p, s.now), s.(rows := s.rows[i := r], procs := s.procs[p := Exec(i, Taken, s.now, s.now, Some(rest))]))
  {
    assert ([i] + rest)[1..] == rest;
  }

  lemma ReadsAgain(P: Params, s: State, p: Pid, i: Id, since: Time, at: Time, after: Option<seq<Id>>)
    requires p in s.procs && s.procs[p] == Exec(i, Taken, since, at, after) && i in s.rows && s.rows[i].status == Confirmed
    ensures Leads(P, s, ReadRow(p), s.(procs := s.procs[p := Exec(i, Read, since, at, after)]))
  {}

  /** The order of the questions that a reconciler answers before it looks for what was done already. */
  lemma JudgesAgain(P: Params, s: State, p: Pid, i: Id, since: Time, at: Time, after: Option<seq<Id>>, known: bool, authorized: bool)
    returns (stage: Stage)
    requires at <= s.now && p in s.procs && s.procs[p] == Exec(i, Read, since, at, after)
    requires i in s.rows && s.rows[i].confirmedAt.Some?
    ensures Leads(P, s, Judge(p, s.now, known, authorized), s.(procs := s.procs[p := Exec(i, stage, since, s.now, after)]))
    ensures !known ==> stage == Closing(Denied, None)
    ensures known && s.now - s.rows[i].confirmedAt.value > P.ttl ==> stage == Closing(Failed, None)
    ensures known && s.now - s.rows[i].confirmedAt.value <= P.ttl && !authorized ==> stage == Closing(Denied, Some(DeniedText))
    ensures known && s.now - s.rows[i].confirmedAt.value <= P.ttl && authorized ==> stage == Searching
  {
    stage := Judged(P, s.rows[i], s.now, known, authorized);
  }

  lemma Searches(P: Params, s: State, p: Pid, i: Id, since: Time, at: Time, after: Option<seq<Id>>)
    requires p in s.procs && s.procs[p] == Exec(i, Searching, since, at, after) && i in s.rows
    ensures
      var stage := if HasAITransfer(s.transfers, s.rows[i]) then Closing(Executed, Some(CreatedText)) else Ready;
      Leads(P, s, Search(p), s.(procs := s.procs[p := Exec(i, stage, since, at, after)]))
  {
    hide HasAITransfer;
  }

  lemma Concludes(P: Params, s: State, p: Pid, i: Id, status: Status, text: Option<Text>, since: Time, at: Time, rest: seq<Id>)
    requires at <= s.now && p in s.procs && s.procs[p] == Exec(i, Closing(status, text), since, at, Some(rest))
    requires i in s.rows && s.rows[i].status == Confirmed
    ensures
      var r := s.rows[i].(status := status, finishedAt := Some(s.now), history := s.rows[i].history + [status]);
      var next := if text.Some? then Telling(i, text.value, s.now, Some(rest)) else Claiming(rest, s.now);
      Leads(P, s, Conclude(p, s.now), s.(rows := s.rows[i := r], procs := s.procs[p := next]))
  {}

  // ----- One process by itself -----

  predicate IsTapOf(tap: Tap, r: Row) {
    tap.org == r.key.org && tap.contact == r.key.contact && tap.session == r.session && tap.token == r.token
  }

  /** An outcome is recorded and told, once. */
  lemma AnswerAlone(P: Params, s: State, p: Pid, i: Id, outcome: Outcome, since: Time, at: Time, procs: map<Pid, Proc>)
    returns (status: Status, text: Text, s1: State, s2: State)
    requires at <= s.now && p !in procs && s.procs == procs[p := Exec(i, Ran(outcome), since, at, None)]
    requires i in s.rows && s.rows[i].status == Confirmed
    ensures Leads(P, s, Finish(p, s.now), s1) && Leads(P, s1, Send(p), s2)
    ensures s2 == s.(rows := s.rows[i := s.rows[i].(status := status, finishedAt := Some(s.now), history := s.rows[i].history + [status])],
                     told := s.told + [(i, text)], procs := procs)
    ensures outcome == Created ==> status == Executed && text == CreatedText
    ensures outcome == AlreadyActive ==> status == NotExecuted && text == AlreadyActiveText
    ensures outcome == OutsideHours ==> status == NotExecuted && text == OutsideHoursText
    ensures outcome == Error ==> status == Failed && text == DeniedText
  {
    hide Leads;
    status, text := Records(P, s, p, i, outcome, since, at, None);
    var r := s.rows[i].(status := status, finishedAt := Some(s.now), history := s.rows[i].history + [status]);
    s1 := s.(rows := s.rows[i := r], procs := s.procs[p := Telling(i, text, s.now, None)]);
    Tells(P, s1, p, i, text, s.now, procs);
    s2 := s1.(told := s.told + [(i, text)], procs := procs);
  }

  /** A pending row is closed and its customer told, once. */
  lemma ShuttingAlone(P: Params, s: State, p: Pid, i: Id, tap: Tap, status: Status, text: Text, at: Time, procs: map<Pid, Proc>)
    returns (s1: State, s2: State)
    requires at <= s.now && p !in procs && s.procs == procs[p := Tapped(i, tap, Shut(status, text), at)]
    requires i in s.rows && s.rows[i].status == Pending
    ensures Leads(P, s, TapCas(p, s.now), s1) && Leads(P, s1, Send(p), s2)
    ensures s2 == s.(rows := s.rows[i := s.rows[i].(status := status, finishedAt := Some(s.now), history := s.rows[i].history + [status])],
                     told := s.told + [(i, text)], procs := procs)
  {
    hide Leads;
    Shuts(P, s, p, i, tap, status, text, at);
    var r := s.rows[i].(status := status, finishedAt := Some(s.now), history := s.rows[i].history + [status]);
    s1 := s.(rows := s.rows[i := r], procs := s.procs[p := Telling(i, text, s.now, None)]);
    Tells(P, s1, p, i, text, s.now, procs);
    s2 := s1.(told := s.told + [(i, text)], procs := procs);
  }

  /** A tap that may not be followed closes the row by the first reason there is, and says so. */
  lemma RefusalAlone(P: Params, s: State, p: Pid, tap: Tap, i: Id, known: bool, tampered: bool, authorized: bool)
    returns (status: Status, text: Text, s1: State, s2: State, s3: State)
    requires p !in s.procs && i in s.rows && s.rows[i].status == Pending && IsTapOf(tap, s.rows[i])
    requires !known || s.now >= s.rows[i].expiresAt || tampered || tap.decline || !authorized
    ensures Leads(P, s, TapLookup(p, tap, i, s.now, known, tampered, authorized), s1)
    ensures Leads(P, s1, TapCas(p, s.now), s2) && Leads(P, s2, Send(p), s3)
    ensures s3 == s.(rows := s.rows[i := s.rows[i].(status := status, finishedAt := Some(s.now), history := s.rows[i].history + [status])],
                     told := s.told + [(i, text)])
    ensures !known ==> status == Denied && text == DeniedText
    ensures known && s.now >= s.rows[i].expiresAt ==> status == Expired && text == ExpiredText
    ensures known && s.now < s.rows[i].expiresAt && !tampered && tap.decline ==> status == Declined && text == DeclinedText
    ensures known && s.now < s.rows[i].expiresAt && (tampered || !tap.decline) ==> status == Denied && text == DeniedText
  {
    hide Leads;
    var todo := LooksUp(P, s, p, tap, i, known, tampered, authorized);
    status, text := todo.status, todo.text;
    s1 := s.(procs := s.procs[p := Tapped(i, tap, todo, s.now)]);
    s2, s3 := ShuttingAlone(P, s1, p, i, tap, status, text, s.now, s.procs);
  }

  /** A good tap with a transfer active already, or out of hours, closes the row as not executed. */
  lemma PointlessTapAlone(P: Params, s: State, p: Pid, tap: Tap, i: Id, inHours: bool)
    returns (s1: State, s2: State, s3: State, s4: State)
    requires p !in s.procs && i in s.rows && s.rows[i].status == Pending && IsTapOf(tap, s.rows[i])
    requires s.now < s.rows[i].expiresAt && !tap.decline
    requires HasActive(s.transfers, s.rows[i].key.org, s.rows[i].key.contact) || !inHours
    ensures Leads(P, s, TapLookup(p, tap, i, s.now, true, false, true), s1) && Leads(P, s1, TapCheck(p, inHours), s2)
    ensures Leads(P, s2, TapCas(p, s.now), s3) && Leads(P, s3, Send(p), s4)
    ensures
      var text := if HasActive(s.transfers, s.rows[i].key.org, s.rows[i].key.contact) then AlreadyActiveText else OutsideHoursText;
      s4 == s.(rows := s.rows[i := s.rows[i].(status := NotExecuted, finishedAt := Some(s.now), history := s.rows[i].history + [NotExecuted])],
               told := s.told + [(i, text)])
  {
    hide Leads, HasActive;
    var todo := LooksUp(P, s, p, tap, i, true, false, true);
    s1 := s.(procs := s.procs[p := Tapped(i, tap, Check, s.now)]);
    todo := ChecksFirst(P, s1, p, inHours);
    s2 := s.(procs := s.procs[p := Tapped(i, tap, todo, s.now)]);
    assert s1.procs[p := Tapped(i, tap, todo, s.now)] == s2.procs;
    s3, s4 := ShuttingAlone(P, s2, p, i, tap, todo.status, todo.text, s.now, s.procs);
  }

  /** A good tap in time and in hours, with no transfer active, confirms the row and is about to execute it. */
  lemma ConfirmingAlone(P: Params, s: State, p: Pid, tap: Tap, i: Id) returns (s1: State, s2: State, s3: State)
    requires P.minAge >= 0 && p !in s.procs && i in s.rows && s.rows[i].status == Pending && IsTapOf(tap, s.rows[i])
    requires s.now < s.rows[i].expiresAt && !tap.decline
    requires !HasActive(s.transfers, s.rows[i].key.org, s.rows[i].key.contact)
    ensures Leads(P, s, TapLookup(p, tap, i, s.now, true, false, true), s1) && Leads(P, s1, TapCheck(p, true), s2)
    ensures Leads(P, s2, TapCas(p, s.now), s3)
    ensures
      var r := s.rows[i].(status := Confirmed, confirmedAt := Some(s.now), confirmedBy := Some(tap.contact),
                          history := s.rows[i].history + [Confirmed]);
      s3 == s.(rows := s.rows[i := r], procs := s.procs[p := Exec(i, Ready, s.now, s.now, None)])
  {
    hide Leads, HasActive;
    var todo := LooksUp(P, s, p, tap, i, true, false, true);
    s1 := s.(procs := s.procs[p := Tapped(i, tap, Check, s.now)]);
    todo := ChecksFirst(P, s1, p, true);
    s2 := s.(procs := s.procs[p := Tapped(i, tap, Consume, s.now)]);
    assert s1.procs[p := Tapped(i, tap, Consume, s.now)] == s2.procs;
    Consumes(P, s2, p, i, tap, s.now);
    var r := s.rows[i].(status := Confirmed, confirmedAt := Some(s.now), confirmedBy := Some(tap.contact),
                        history := s.rows[i].history + [Confirmed]);
    s3 := s.(rows := s.rows[i := r], procs := s.procs[p := Exec(i, Ready, s.now, s.now, None)]);
    assert s2.procs[p := Exec(i, Ready, s.now, s.now, None)] == s3.procs;
  }

  /** From there the transfer is made, for this confirmation, the row is executed, and the customer told that it was. */
  lemma ExecutingAlone(P: Params, s: State, p: Pid, i: Id, since: Time, at: Time, procs: map<Pid, Proc>)
    returns (s1: State, s2: State, s3: State, s4: State, s5: State)
    requires at <= s.now && p !in procs && s.procs == procs[p := Exec(i, Ready, since, at, None)]
    requires i in s.rows && s.rows[i].status == Confirmed
    requires !HasActive(s.transfers, s.rows[i].key.org, s.rows[i].key.contact)
    ensures Leads(P, s, Request(p), s1) && Leads(P, s1, CheckActive(p, true), s2) && Leads(P, s2, Insert(p, s.now, false), s3)
    ensures Leads(P, s3, Finish(p, s.now), s4) && Leads(P, s4, Send(p), s5)
    ensures
      var r := s.rows[i].(status := Executed, finishedAt := Some(s.now), history := s.rows[i].history + [Executed]);
      s5 == s.(rows := s.rows[i := r],
               transfers := s.transfers + [Transfer(s.rows[i].key.org, s.rows[i].key.contact, AIConfirmed, s.now, true, Some(i))],
               told := s.told + [(i, CreatedText)], procs := procs)
  {
    hide Leads, HasActive;
    Requests(P, s, p, i, since, at, None);
    s1 := s.(procs := procs[p := Exec(i, Requested, since, at, None)]);
    assert s.procs[p := Exec(i, Requested, since, at, None)] == s1.procs;
    ChecksActive(P, s1, p, i, since, at, None, true);
    s2 := s.(procs := procs[p := Exec(i, Clear, since, at, None)]);
    assert s1.procs[p := Exec(i, Clear, since, at, None)] == s2.procs;
    MakesTransfer(P, s2, p, i, since, at, None, false);
    s3 := s.(transfers := s.transfers + [Transfer(s.rows[i].key.org, s.rows[i].key.contact, AIConfirmed, s.now, true, Some(i))],
             procs := procs[p := Exec(i, Ran(Created), since, s.now, None)]);
    assert s2.procs[p := Exec(i, Ran(Created), since, s.now, None)] == s3.procs;
    var status, text;
    status, text, s4, s5 := AnswerAlone(P, s3, p, i, Created, since, s.now, procs);
  }

  /** A reconciler claims a row, reads it again, and judges it. */
  lemma JudgingAlone(P: Params, s: State, p: Pid, i: Id, rest: seq<Id>, known: bool, authorized: bool, procs: map<Pid, Proc>)
    returns (stage: Stage, s1: State, s2: State, s3: State)
    requires P.minAge >= 0 && p !in procs && s.procs == procs[p := Claiming([i] + rest, s.now)]
    requires i in s.rows && s.rows[i].status == Confirmed && s.rows[i].confirmedAt.Some?
    requires s.rows[i].claimedAt.Some? ==> s.now - s.rows[i].claimedAt.value > P.minAge
    ensures Leads(P, s, ClaimNext(p, s.now), s1) && Leads(P, s1, ReadRow(p), s2) && Leads(P, s2, Judge(p, s.now, known, authorized), s3)
    ensures
      var r := s.rows[i].(claimedAt := Some(s.now), attempts := s.rows[i].attempts + 1, claims := s.rows[i].claims + [s.now]);
      s3 == s.(rows := s.rows[i := r], procs := procs[p := Exec(i, stage, s.now, s.now, Some(rest))])
    ensures !known ==> stage == Closing(Denied, None)
    ensures known && s.now - s.rows[i].confirmedAt.value > P.ttl ==> stage == Closing(Failed, None)
    ensures known && s.now - s.rows[i].confirmedAt.value <= P.ttl && !authorized ==> stage == Closing(Denied, Some(DeniedText))
    ensures known && s.now - s.rows[i].confirmedAt.value <= P.ttl && authorized ==> stage == Searching
  {
    hide Leads;
    ClaimsStuck(P, s, p, i, rest, s.now);
    var r := s.rows[i].(claimedAt := Some(s.now), attempts := s.rows[i].attempts + 1, claims := s.rows[i].claims + [s.now]);
    s1 := s.(rows := s.rows[i := r], procs := procs[p := Exec(i, Taken, s.now, s.now, Some(rest))]);
    assert s.procs[p := Exec(i, Taken, s.now, s.now, Some(rest))] == s1.procs;
    ReadsAgain(P, s1, p, i, s.now, s.now, Some(rest));
    s2 := s1.(procs := procs[p := Exec(i, Read, s.now, s.now, Some(rest))]);
    assert s1.procs[p := Exec(i, Read, s.now, s.now, Some(rest))] == s2.procs;
    stage := JudgesAgain(P, s2, p, i, s.now, s.now, Some(rest), known, authorized);
    s3 := s1.(procs := procs[p := Exec(i, stage, s.now, s.now, Some(rest))]);
    assert s2.procs[p := Exec(i, stage, s.now, s.now, Some(rest))] == s3.procs;
  }

  /** What was done already is not done again: the row is executed, and the customer told so. */
  lemma FindingAlone(P: Params, s: State, p: Pid, i: Id, since: Time, rest: seq<Id>, procs: map<Pid, Proc>)
    returns (s1: State, s2: State, s3: State)
    requires p !in procs && s.procs == procs[p := Exec(i, Searching, since, s.now, Some(rest))]
    requires i in s.rows && s.rows[i].status == Confirmed && HasAITransfer(s.transfers, s.rows[i])
    ensures Leads(P, s, Search(p), s1) && Leads(P, s1, Conclude(p, s.now), s2) && Leads(P, s2, Send(p), s3)
    ensures
      var r := s.rows[i].(status := Executed, finishedAt := Some(s.now), history := s.rows[i].history + [Executed]);
      s3 == s.(rows := s.rows[i := r], told := s.told + [(i, CreatedText)], procs := procs[p := Claiming(rest, s.now)])
  {
    hide Leads, HasAITransfer;
    Searches(P, s, p, i, since, s.now, Some(rest));
    s1 := s.(procs := procs[p := Exec(i, Closing(Executed, Some(CreatedText)), since, s.now, Some(rest))]);
    assert s.procs[p := Exec(i, Closing(Executed, Some(CreatedText)), since, s.now, Some(rest))] == s1.procs;
    Concludes(P, s1, p, i, Executed, Some(CreatedText), since, s.now, rest);
    var r := s.rows[i].(status := Executed, finishedAt := Some(s.now), history := s.rows[i].history + [Executed]);
    s2 := s.(rows := s.rows[i := r], procs := procs[p := Telling(i, CreatedText, s.now, Some(rest))]);
    assert s1.procs[p := Telling(i, CreatedText, s.now, Some(rest))] == s2.procs;
    TellsAndGoesOn(P, s2, p, i, CreatedText, s.now, rest);
    s3 := s2.(told := s.told + [(i, CreatedText)], procs := procs[p := Claiming(rest, s.now)]);
    assert s2.procs[p := Claiming(rest, s.now)] == s3.procs;
  }
}
