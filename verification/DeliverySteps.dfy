/**
 What each operation on deliveries must do, said of the row's columns before and after; and what a restart returns,
 said of the deadline that a rate limit was recorded with.
 */
module DeliverySteps {
  import opened Decimals
  import opened Options
  import opened WatchedLedger
  import opened Deliveries
  import Corrections

  // ----- transitions

  predicate MayMove(from: State, to: State) {
    (from, to) in [(Pending, InFlight), (Pending, Failed),
                   (RetryWait, InFlight), (RetryWait, Failed),
                   (InFlight, Verified), (InFlight, RetryWait), (InFlight, Ambiguous), (InFlight, Failed),
                   (Ambiguous, Verified), (Ambiguous, Pending), (Ambiguous, Failed)]
  }

  predicate SameIdentity(d: Delivery, d': Delivery) {
    d'.event == d.event && d'.target == d.target && d'.operation == d.operation && d'.key == d.key && d'.request == d.request
  }

  /** Every column of the row after a transition. */
  predicate Becomes(d: Delivery, d': Delivery, c: Change) {
    && SameIdentity(d, d')
    && d'.state == c.state && d'.nextAttemptAt == c.nextAttemptAt && d'.http == c.http && d'.errorClass == c.errorClass
    && (c.targetEventId.Some? ==> d'.targetEventId == c.targetEventId)
    && (c.targetEventId.None? ==> d'.targetEventId == d.targetEventId)
    && (c.state == InFlight ==> d'.attempts == d.attempts + 1 && d'.startedAt == Some(c.at))
    && (c.state != InFlight ==> d'.attempts == d.attempts && d'.startedAt == d.startedAt)
    && (c.state == Verified ==> d'.verifiedAt == Some(c.at) && d'.targetEventId.Some? && d'.targetEventId != Some(""))
    && (c.state != Verified ==> d'.verifiedAt == d.verifiedAt)
    && d'.history == d.history + [Entry(c.state, c.http)]
  }

  predicate OnlyRow(db: Database, db': Database, id: nat) {
    && db'.tables == db.tables && |db'.deliveries| == |db.deliveries|
    && forall i :: 0 <= i < |db.deliveries| && i != id ==> db'.deliveries[i] == db.deliveries[i]
  }

  predicate MovedRightly(db: Database, db': Database, id: nat, c: Change, result: Result) {
    if id < |db.deliveries| && MayMove(db.deliveries[id].state, c.state)
       && (c.state == Verified ==> c.targetEventId.Some? && c.targetEventId != Some(""))
    then result == Accepted(id) && OnlyRow(db, db', id) && Becomes(db.deliveries[id], db'.deliveries[id], c)
    else result.Rejected? && db' == db
  }

  lemma TransitionIsRight(db: Database, id: nat, c: Change)
    ensures MovedRightly(db, Transition(db, id, c).0, id, c, Transition(db, id, c).1)
  {
  }

  // ----- failures

  predicate MaybeSent(errorClass: string) {
    errorClass in ["timeout_after_send", "connection_lost_after_send", "ambiguous_response"]
  }

  predicate FailedAs(d: Delivery, d': Delivery, state: State, nextAttemptAt: Option<int>, http: Option<int>, errorClass: string) {
    && SameIdentity(d, d') && d'.attempts == d.attempts
    && d'.state == state && d'.nextAttemptAt == nextAttemptAt && d'.http == http && d'.errorClass == Some(errorClass)
    && d'.targetEventId == d.targetEventId && d'.startedAt == d.startedAt && d'.verifiedAt == d.verifiedAt
    && d'.history == d.history + [Entry(state, http)]
  }

  /**
   A rate limit waits for its deadline, and is refused without one; what may have been sent is ambiguous; anything else
   has failed. Waiting and ambiguity are for attempts in flight, failing is for every row that is not settled.
   */
  predicate FailedRightly(db: Database, db': Database, id: nat, errorClass: string, http: Option<int>, retryAt: Option<int>,
                          result: Result) {
    var limited := http == Some(429);
    if id >= |db.deliveries| || (limited && retryAt.None?) then result.Rejected? && db' == db
    else
      var d := db.deliveries[id];
      if limited || MaybeSent(errorClass) then
        if d.state == InFlight then
          && result == Accepted(id) && OnlyRow(db, db', id)
          && (limited ==> FailedAs(d, db'.deliveries[id], RetryWait, retryAt, http, errorClass))
          && (!limited ==> FailedAs(d, db'.deliveries[id], Ambiguous, None, http, errorClass))
        else result.Rejected? && db' == db
      else if d.state == Verified || d.state == Failed then result.Rejected? && db' == db
      else result == Accepted(id) && OnlyRow(db, db', id) && FailedAs(d, db'.deliveries[id], Failed, None, http, errorClass)
  }

  lemma FailureIsRight(db: Database, id: nat, errorClass: string, http: Option<int>, retryAt: Option<int>, at: int)
    ensures var (db', result) := Deliveries.Failure(db, id, errorClass, http, retryAt, at);
      FailedRightly(db, db', id, errorClass, http, retryAt, result)
  {
  }

  // ----- restarts

  /** An attempt that began at or before the limit may have been sent. */
  predicate RestartedRightly(d: Delivery, d': Delivery, staleBefore: int) {
    if d.state == InFlight && d.startedAt.Some? && d.startedAt.value <= staleBefore then
      FailedAs(d, d', Ambiguous, d.nextAttemptAt, d.http, "restart_during_in_flight")
    else d' == d
  }

  /** Nothing was sent, or the target said when to come again and the time has come. */
  predicate Due(d: Delivery, now: int) {
    d.state == Pending || (d.state == RetryWait && d.nextAttemptAt.Some? && d.nextAttemptAt.value <= now)
  }

  lemma RestartIsRight(deliveries: seq<Delivery>, staleBefore: int, now: int)
    ensures var after := RestartAll(deliveries, staleBefore);
      && |after| == |deliveries|
      && (forall i :: 0 <= i < |after| ==> RestartedRightly(deliveries[i], after[i], staleBefore))
      && (forall i: nat :: i in RunnableIds(after, now) <==> i < |deliveries| && Due(deliveries[i], now))
  {
    var after := RestartAll(deliveries, staleBefore);
    forall i: nat | i < |deliveries| ensures Runnable(after[i], now) <==> Due(deliveries[i], now) {
    }
  }

  /** Somebody works on this row. */
  predicate Touches(a: Action, id: nat) {
    (a.DoTransition? || a.DoFailure?) && a.id == id
  }

  lemma WaitingRowStays(db: Database, a: Action, id: nat)
    requires id < |db.deliveries| && db.deliveries[id].state.RetryWait? && !Touches(a, id)
    ensures id < |Next(db, a).deliveries| && Next(db, a).deliveries[id] == db.deliveries[id]
  {
    hide Ingest, DeterministicKey;
  }

  lemma {:induction false} WaitingRowStaysOverRuns(db: Database, actions: seq<Action>, id: nat)
    requires id < |db.deliveries| && db.deliveries[id].state.RetryWait?
    requires forall k :: 0 <= k < |actions| ==> !Touches(actions[k], id)
    ensures var db' := Run(db, actions);
      id < |db'.deliveries| && db'.deliveries[id] == db.deliveries[id]
    decreases |actions|
  {
    if actions != [] {
      hide Next, Touches;
      assert !Touches(actions[0], id);
      WaitingRowStays(db, actions[0], id);
      WaitingRowStaysOverRuns(Next(db, actions[0]), actions[1..], id);
    }
  }

  /**
   An attempt that was answered with a rate limit comes back at the first restart at or after the deadline, and at none
   before, however much else happens meanwhile to other rows.
   */
  lemma RetryComesDue(db: Database, id: nat, errorClass: string, deadline: int, at: int, later: seq<Action>,
                      staleBefore: int, now: int)
    requires id < |db.deliveries| && db.deliveries[id].state.InFlight?
    requires forall k :: 0 <= k < |later| ==> !Touches(later[k], id)
    ensures var db' := Run(Next(db, DoFailure(id, errorClass, Some(429), Some(deadline), at)), later);
      id in RunnableIds(RestartAll(db'.deliveries, staleBefore), now) <==> deadline <= now
  {
    var limited := Next(db, DoFailure(id, errorClass, Some(429), Some(deadline), at));
    FailureIsRight(db, id, errorClass, Some(429), Some(deadline), at);
    assert limited.deliveries[id].state.RetryWait? && limited.deliveries[id].nextAttemptAt == Some(deadline);
    WaitingRowStaysOverRuns(limited, later, id);
    hide Next, Run;
    RestartIsRight(Run(limited, later).deliveries, staleBefore, now);
  }

  // ----- creation

  /** The key in use: the caller's, or the text that names event, target and operation. */
  function KeyFor(event: nat, target: string, operation: string, key: Option<string>): string {
    if key.Some? && key.value != "" then key.value
    else "watch-event:" + Decimal(event) + ":" + target + ":" + operation
  }

  predicate Active(t: Tables, event: nat) {
    event < |t.events| && t.events[event].quarantineReason.None? && t.events[event].supersededBy.None?
  }

  predicate KeyTaken(deliveries: seq<Delivery>, target: string, key: string) {
    exists i :: 0 <= i < |deliveries| && deliveries[i].target == target && deliveries[i].key == key
  }

  predicate NewRow(d: Delivery, event: nat, target: string, operation: string, request: string, key: string) {
    && d.event == event && d.target == target && d.operation == operation && d.request == request && d.key == key
    && d.state == Pending && d.attempts == 0 && d.history == [Entry(Pending, None)]
    && d.nextAttemptAt.None? && d.http.None? && d.errorClass.None? && d.targetEventId.None?
    && d.startedAt.None? && d.verifiedAt.None?
  }

  predicate CreatedRightly(db: Database, db': Database, event: nat, target: string, operation: string, request: string,
                           key: Option<string>, result: Result) {
    var used := KeyFor(event, target, operation, key);
    if Active(db.tables, event) && !KeyTaken(db.deliveries, target, used) then
      && result == Accepted(|db.deliveries|) && db'.tables == db.tables
      && |db'.deliveries| == |db.deliveries| + 1 && db.deliveries <= db'.deliveries
      && NewRow(db'.deliveries[|db.deliveries|], event, target, operation, request, used)
    else result.Rejected? && db' == db
  }

  lemma CreateIsRight(db: Database, event: nat, target: string, operation: string, request: string, key: Option<string>)
    ensures var (db', result) := Create(db, event, target, operation, request, key);
      CreatedRightly(db, db', event, target, operation, request, key, result)
  {
    assert KeyFor(event, target, operation, key) == (if Truthy(key) then key.value else DeterministicKey(event, target, operation));
    hide KeyFor, DeterministicKey;
  }

  // ----- corrections

  /** The corrected event points to its replacement, once, and nothing else changes. */
  predicate CorrectedRightly(events: seq<Row>, events': seq<Row>, old': nat, replacement: nat, ok: bool) {
    && (ok <==> old' != replacement && old' < |events| && replacement < |events| && events[old'].supersededBy.None?)
    && (!ok ==> events' == events)
    && (ok ==>
          && |events'| == |events| && events'[old'] == events[old'].(supersededBy := Some(replacement))
          && forall i :: 0 <= i < |events| && i != old' ==> events'[i] == events[i])
  }

  lemma CorrectionIsRight(db: Database, old': nat, replacement: nat)
    ensures var db' := Next(db, DoSupersede(old', replacement));
      var ok := Corrections.Supersede(db.tables.events, old', replacement).Some?;
      && CorrectedRightly(db.tables.events, db'.tables.events, old', replacement, ok)
      && db' == db.(tables := db.tables.(events := db'.tables.events))
  {
  }
}
