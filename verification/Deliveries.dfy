/**
 Outbound deliveries over the ledger. `history` is not a column: it lists the
 states a row has been in, so that claims about "between two attempts" can be made.
 */
module Deliveries {
  import opened Decimals
  import opened Options
  import opened WatchedLedger
  import Corrections

  datatype State = Pending | InFlight | Verified | RetryWait | Ambiguous | Failed

  datatype Entry = Entry(state: State, http: Option<int>)

  datatype Delivery = Delivery(
    event: nat, target: string, operation: string, key: string, request: string,
    state: State, attempts: nat, nextAttemptAt: Option<int>, http: Option<int>, errorClass: Option<string>,
    targetEventId: Option<string>, startedAt: Option<int>, verifiedAt: Option<int>, history: seq<Entry>)

  datatype Database = Database(tables: Tables, deliveries: seq<Delivery>)

  const START := Database(EMPTY, [])

  predicate Allowed(from: State, to: State) {
    match from
    case Pending => to.InFlight? || to.Failed?
    case RetryWait => to.InFlight? || to.Failed?
    case InFlight => to.Verified? || to.RetryWait? || to.Ambiguous? || to.Failed?
    case Ambiguous => to.Verified? || to.Pending? || to.Failed?
    case Verified => false
    case Failed => false
  }

  // The text whose sha256 is the key; the hash is taken as injective.
  function DeterministicKey(event: nat, target: string, operation: string): string {
    "watch-event:" + Decimal(event) + ":" + target + ":" + operation
  }

  datatype Result = Accepted(id: nat) | Rejected(reason: string)

  function Create(db: Database, event: nat, target: string, operation: string, request: string, key: Option<string>): (Database, Result) {
    if event >= |db.tables.events| || db.tables.events[event].quarantineReason.Some? || db.tables.events[event].supersededBy.Some?
    then (db, Rejected("delivery requires an active, identified watch event"))
    else
      var key' := if Truthy(key) then key.value else DeterministicKey(event, target, operation);
      if exists i :: 0 <= i < |db.deliveries| && db.deliveries[i].target == target && db.deliveries[i].key == key'
      then (db, Rejected("duplicate target idempotency key"))
      else
        var row := Delivery(event, target, operation, key', request, Pending, 0, None, None, None, None, None, None,
                            [Entry(Pending, None)]);
        (db.(deliveries := db.deliveries + [row]), Accepted(|db.deliveries|))
  }

  datatype Change = Change(
    state: State, at: int, nextAttemptAt: Option<int>, http: Option<int>, errorClass: Option<string>, targetEventId: Option<string>)

  function Coalesce<T>(a: Option<T>, b: Option<T>): Option<T> {
    if a.Some? then a else b
  }

  function Changed(d: Delivery, c: Change): Delivery {
    d.(state := c.state,
       attempts := d.attempts + (if c.state.InFlight? then 1 else 0),
       nextAttemptAt := c.nextAttemptAt, http := c.http, errorClass := c.errorClass,
       targetEventId := Coalesce(c.targetEventId, d.targetEventId),
       startedAt := if c.state.InFlight? then Some(c.at) else d.startedAt,
       verifiedAt := if c.state.Verified? then Some(c.at) else d.verifiedAt,
       history := d.history + [Entry(c.state, c.http)])
  }

  function Transition(db: Database, id: nat, c: Change): (Database, Result) {
    if id >= |db.deliveries| || !Allowed(db.deliveries[id].state, c.state) then
      (db, Rejected("invalid delivery state transition"))
    else if c.state.Verified? && !Truthy(c.targetEventId) then
      (db, Rejected("verified delivery requires target event ID"))
    else
      (db.(deliveries := db.deliveries[id := Changed(db.deliveries[id], c)]), Accepted(id))
  }

  const UNCERTAIN := {"timeout_after_send", "connection_lost_after_send", "ambiguous_response"}

  /** Where a reported failure leads; None when a rate limit comes without its deadline. */
  function FailureChange(errorClass: string, http: Option<int>, retryAt: Option<int>, at: int): Option<Change> {
    if http == Some(429) then
      if retryAt.None? then None else Some(Change(RetryWait, at, retryAt, http, Some(errorClass), None))
    else if errorClass in UNCERTAIN then Some(Change(Ambiguous, at, None, http, Some(errorClass), None))
    else Some(Change(Failed, at, None, http, Some(errorClass), None))
  }

  function Failure(db: Database, id: nat, errorClass: string, http: Option<int>, retryAt: Option<int>, at: int): (Database, Result) {
    var change := FailureChange(errorClass, http, retryAt, at);
    if change.None? then (db, Rejected("rate-limit response requires retry deadline"))
    else Transition(db, id, change.value)
  }

  // ----- restart

  predicate Stale(d: Delivery, staleBefore: int) {
    d.state.InFlight? && d.startedAt.Some? && d.startedAt.value <= staleBefore
  }

  function Restarted(d: Delivery, staleBefore: int): Delivery {
    if Stale(d, staleBefore) then
      d.(state := Ambiguous, errorClass := Some("restart_during_in_flight"), history := d.history + [Entry(Ambiguous, d.http)])
    else d
  }

  function RestartAll(deliveries: seq<Delivery>, staleBefore: int): seq<Delivery> {
    seq(|deliveries|, i requires 0 <= i < |deliveries| => Restarted(deliveries[i], staleBefore))
  }

  predicate Runnable(d: Delivery, now: int) {
    d.state.Pending? || (d.state.RetryWait? && d.nextAttemptAt.Some? && d.nextAttemptAt.value <= now)
  }

  function RunnableIds(deliveries: seq<Delivery>, now: int): (ids: seq<nat>)
    ensures forall i :: i in ids <==> 0 <= i < |deliveries| && Runnable(deliveries[i], now)
    ensures forall a, b :: 0 <= a < b < |ids| ==> ids[a] < ids[b]
  {
    if deliveries == [] then []
    else
      var last := |deliveries| - 1;
      var front := RunnableIds(deliveries[..last], now);
      assert forall a :: 0 <= a < |front| ==> front[a] in front;
      front + (if Runnable(deliveries[last], now) then [last] else [])
  }

  // ----- every way the database changes

  datatype Action =
    | DoIngest(o: Observation)
    | DoSupersede(old': nat, replacement: nat)
    | DoCreate(event: nat, target: string, operation: string, request: string, key: Option<string>)
    | DoTransition(id: nat, change: Change)
    | DoFailure(id: nat, errorClass: string, http: Option<int>, retryAt: Option<int>, at: int)
    | DoRestart(staleBefore: int)
    | DoCursor(cell: Key, cursor: Cursor)

  function Next(db: Database, a: Action): Database {
    match a
    case DoIngest(o) => db.(tables := Ingest(db.tables, o).0)
    case DoSupersede(old', replacement) =>
      var events := Corrections.Supersede(db.tables.events, old', replacement);
      if events.None? then db else db.(tables := db.tables.(events := events.value))
    case DoCreate(event, target, operation, request, key) => Create(db, event, target, operation, request, key).0
    case DoTransition(id, change) => Transition(db, id, change).0
    case DoFailure(id, errorClass, http, retryAt, at) => Failure(db, id, errorClass, http, retryAt, at).0
    case DoRestart(staleBefore) => db.(deliveries := RestartAll(db.deliveries, staleBefore))
    case DoCursor(cell, cursor) => db.(tables := db.tables.(cursors := db.tables.cursors[cell := cursor]))
  }

  function Run(db: Database, actions: seq<Action>): Database
    decreases |actions|
  {
    if actions == [] then db else Run(Next(db, actions[0]), actions[1..])
  }

  // ----- the invariant

  function Attempts(history: seq<Entry>): nat {
    if history == [] then 0
    else Attempts(history[..|history| - 1]) + (if history[|history| - 1].state.InFlight? then 1 else 0)
  }

  predicate Path(history: seq<Entry>) {
    && |history| > 0 && history[0].state.Pending?
    && forall i :: 0 < i < |history| ==> Allowed(history[i - 1].state, history[i].state)
  }

  predicate DeliveryInv(t: Tables, d: Delivery) {
    && d.event < |t.events| && t.events[d.event].quarantineReason.None?
    && Path(d.history) && d.history[|d.history| - 1] == Entry(d.state, d.http)
    && d.attempts == Attempts(d.history)
    && (d.state.InFlight? ==> d.startedAt.Some?)
    && (d.state.Verified? ==> Truthy(d.targetEventId))
  }

  ghost predicate Inv(db: Database) {
    && TablesInv(db.tables)
    && (forall i :: 0 <= i < |db.deliveries| ==> DeliveryInv(db.tables, db.deliveries[i]))
    && (forall i, j :: 0 <= i < j < |db.deliveries| ==>
          !(db.deliveries[i].target == db.deliveries[j].target && db.deliveries[i].key == db.deliveries[j].key))
  }

  /** A delivery over time: its identity stays, its history grows, and once verified or failed nothing changes. */
  predicate Continues(d: Delivery, d': Delivery) {
    && d'.event == d.event && d'.target == d.target && d'.operation == d.operation && d'.key == d.key && d'.request == d.request
    && d.history <= d'.history
    && (d.state.Verified? || d.state.Failed? ==> d' == d)
  }

  predicate Grows(before: seq<Delivery>, after: seq<Delivery>) {
    && |before| <= |after|
    && forall i :: 0 <= i < |before| ==> Continues(before[i], after[i])
  }

  lemma ChangeKeepsDelivery(t: Tables, d: Delivery, c: Change)
    requires DeliveryInv(t, d) && Allowed(d.state, c.state) && (c.state.Verified? ==> Truthy(c.targetEventId))
    ensures DeliveryInv(t, Changed(d, c)) && Continues(d, Changed(d, c))
  {
    var d' := Changed(d, c);
    assert d'.history[..|d.history|] == d.history;
  }

  lemma RestartKeepsDelivery(t: Tables, d: Delivery, staleBefore: int)
    requires DeliveryInv(t, d)
    ensures DeliveryInv(t, Restarted(d, staleBefore)) && Continues(d, Restarted(d, staleBefore))
  {
    var d' := Restarted(d, staleBefore);
    if d' != d {
      assert d'.history[..|d.history|] == d.history;
    }
  }

  lemma TablesOnlyGrow(db: Database, a: Action)
    requires TablesInv(db.tables)
    ensures var (t, t') := (db.tables, Next(db, a).tables);
      && TablesInv(t') && |t.events| <= |t'.events|
      && forall i :: 0 <= i < |t.events| ==> t'.events[i].quarantineReason == t.events[i].quarantineReason
  {
    hide Ingest, DeterministicKey, Truthy;
    if a.DoIngest? {
      IngestKeepsTables(db.tables, a.o);
    } else if a.DoSupersede? && Corrections.Supersede(db.tables.events, a.old', a.replacement).Some? {
      var events := Corrections.Supersede(db.tables.events, a.old', a.replacement).value;
      forall i | 0 <= i < |events| ensures RowInv(events[i]) {
        assert RowInv(db.tables.events[i]);
      }
    }
  }

  lemma ReplaceKeepsInv(db: Database, id: nat, d': Delivery)
    requires Inv(db) && id < |db.deliveries|
    requires DeliveryInv(db.tables, d') && Continues(db.deliveries[id], d')
    ensures var db' := db.(deliveries := db.deliveries[id := d']);
      Inv(db') && Grows(db.deliveries, db'.deliveries)
  {
  }

  lemma TransitionKeepsInv(db: Database, id: nat, c: Change)
    requires Inv(db)
    ensures Inv(Transition(db, id, c).0) && Grows(db.deliveries, Transition(db, id, c).0.deliveries)
  {
    if Transition(db, id, c).1.Accepted? {
      assert DeliveryInv(db.tables, db.deliveries[id]);
      ChangeKeepsDelivery(db.tables, db.deliveries[id], c);
      ReplaceKeepsInv(db, id, Changed(db.deliveries[id], c));
    }
  }

  lemma CreateKeepsInv(db: Database, event: nat, target: string, operation: string, request: string, key: Option<string>)
    requires Inv(db)
    ensures Inv(Create(db, event, target, operation, request, key).0)
    ensures Grows(db.deliveries, Create(db, event, target, operation, request, key).0.deliveries)
  {
    hide TablesInv, DeterministicKey, Truthy;
    if Create(db, event, target, operation, request, key).1.Accepted? {
      assert [Entry(Pending, None)][..0] == [];
    }
  }

  lemma RestartKeepsInv(db: Database, staleBefore: int)
    requires Inv(db)
    ensures Inv(db.(deliveries := RestartAll(db.deliveries, staleBefore)))
    ensures Grows(db.deliveries, RestartAll(db.deliveries, staleBefore))
  {
    forall i | 0 <= i < |db.deliveries|
      ensures DeliveryInv(db.tables, Restarted(db.deliveries[i], staleBefore))
      ensures Continues(db.deliveries[i], Restarted(db.deliveries[i], staleBefore))
    {
      RestartKeepsDelivery(db.tables, db.deliveries[i], staleBefore);
    }
  }

  lemma TableStepKeepsInv(db: Database, a: Action)
    requires Inv(db) && (a.DoIngest? || a.DoSupersede? || a.DoCursor?)
    ensures Inv(Next(db, a)) && Grows(db.deliveries, Next(db, a).deliveries)
  {
    assert Next(db, a).deliveries == db.deliveries;
    TablesOnlyGrow(db, a);
    hide Next, TablesInv, Path, Truthy, Attempts;
  }

  lemma StepKeepsInv(db: Database, a: Action)
    requires Inv(db)
    ensures Inv(Next(db, a)) && Grows(db.deliveries, Next(db, a).deliveries)
  {
    hide Inv, Grows, Ingest, Transition, Create, RestartAll;
    match a {
      case DoIngest(_) => TableStepKeepsInv(db, a);
      case DoSupersede(_, _) => TableStepKeepsInv(db, a);
      case DoCursor(_, _) => TableStepKeepsInv(db, a);
      case DoCreate(event, target, operation, request, key) => CreateKeepsInv(db, event, target, operation, request, key);
      case DoTransition(id, change) => TransitionKeepsInv(db, id, change);
      case DoFailure(id, errorClass, http, retryAt, at) =>
        NothingDone(db);
        if FailureChange(errorClass, http, retryAt, at).Some? {
          TransitionKeepsInv(db, id, FailureChange(errorClass, http, retryAt, at).value);
        }
      case DoRestart(staleBefore) => RestartKeepsInv(db, staleBefore);
    }
  }

  lemma NothingDone(db: Database)
    ensures Grows(db.deliveries, db.deliveries)
  {
  }

  lemma GrowsTransitive(a: seq<Delivery>, b: seq<Delivery>, c: seq<Delivery>)
    requires Grows(a, b) && Grows(b, c)
    ensures Grows(a, c)
  {
    forall i | 0 <= i < |a| ensures Continues(a[i], c[i]) {
      assert Continues(a[i], b[i]) && Continues(b[i], c[i]);
    }
  }

  lemma {:induction false} RunKeepsInv(db: Database, actions: seq<Action>)
    requires Inv(db)
    ensures Inv(Run(db, actions)) && Grows(db.deliveries, Run(db, actions).deliveries)
    decreases |actions|
  {
    if actions != [] {
      var db1 := Next(db, actions[0]);
      StepKeepsInv(db, actions[0]);
      RunKeepsInv(db1, actions[1..]);
      GrowsTransitive(db.deliveries, db1.deliveries, Run(db, actions).deliveries);
    }
  }

  lemma {:induction false} RunConcat(db: Database, before: seq<Action>, after: seq<Action>)
    ensures Run(db, before + after) == Run(Run(db, before), after)
    decreases |before|
  {
    if before == [] {
      assert before + after == after;
    } else {
      assert (before + after)[1..] == before[1..] + after;
      RunConcat(Next(db, before[0]), before[1..], after);
    }
  }

  // ----- what holds over every run

  /** Reconciled by hand, or told by the target to wait. */
  predicate Cleared(history: seq<Entry>, k: nat)
    requires 0 < k < |history|
  {
    || history[k].state.RetryWait?
    || (history[k].state.Pending? && history[k - 1].state.Ambiguous?)
  }

  /** Between two attempts there is always a retry wait or an explicit return from `ambiguous` to `pending`. */
  lemma AttemptsAreSeparated(history: seq<Entry>, i: nat, j: nat)
    requires Path(history) && i < j < |history|
    requires history[i].state.InFlight? && history[j].state.InFlight?
    ensures exists k: nat :: i < k < j && Cleared(history, k)
  {
    assert Allowed(history[i].state, history[i + 1].state);
    if history[i + 1].state.RetryWait? {
      assert Cleared(history, i + 1);
    } else {
      assert Allowed(history[i + 1].state, history[i + 2].state);
      if i + 2 < j {
        assert Allowed(history[i + 2].state, history[i + 3].state);
      }
      assert Cleared(history, i + 2);
    }
  }

  /** Over every run: attempts are counted, separated, and never made for a quarantined event; keys stay unique per target. */
  lemma DeliveryDiscipline(actions: seq<Action>, id: nat)
    requires id < |Run(START, actions).deliveries|
    ensures var db := Run(START, actions);
      var d := db.deliveries[id];
      && d.attempts == Attempts(d.history)
      && d.event < |db.tables.events| && db.tables.events[d.event].quarantineReason.None?
      && db.tables.events[d.event].localId.Some?
      && (forall i: nat, j: nat :: i < j < |d.history| && d.history[i].state.InFlight? && d.history[j].state.InFlight? ==>
            exists k: nat :: i < k < j && Cleared(d.history, k))
      && (forall other :: 0 <= other < |db.deliveries| && other != id ==>
            !(db.deliveries[other].target == d.target && db.deliveries[other].key == d.key))
  {
    var db := Run(START, actions);
    RunKeepsInv(START, actions);
    var d := db.deliveries[id];
    assert DeliveryInv(db.tables, d);
    assert RowInv(db.tables.events[d.event]);
    forall i: nat, j: nat | i < j < |d.history| && d.history[i].state.InFlight? && d.history[j].state.InFlight?
      ensures exists k: nat :: i < k < j && Cleared(d.history, k)
    {
      AttemptsAreSeparated(d.history, i, j);
    }
  }

  /** Verified and failed rows never change again; every row keeps its identity and its history. */
  lemma SettledIsFrozen(before: seq<Action>, after: seq<Action>, id: nat)
    requires id < |Run(START, before).deliveries|
    ensures id < |Run(START, before + after).deliveries|
    ensures Continues(Run(START, before).deliveries[id], Run(START, before + after).deliveries[id])
  {
    RunConcat(START, before, after);
    RunKeepsInv(START, before);
    RunKeepsInv(Run(START, before), after);
  }

  /** Restart: exactly the pending and due rows come back, in order; stale attempts become ambiguous and nothing else moves. */
  lemma RestartIsSafe(actions: seq<Action>, now: int, staleBefore: int)
    ensures var db := Run(START, actions);
      var after := RestartAll(db.deliveries, staleBefore);
      var ids := RunnableIds(after, now);
      && (forall id :: id in ids ==> id < |after| && !after[id].state.InFlight? && !after[id].state.Ambiguous?)
      && (forall id: nat :: id < |after| ==>
            (id in ids <==> Runnable(db.deliveries[id], now))
            && after[id] == (if Stale(db.deliveries[id], staleBefore) then Restarted(db.deliveries[id], staleBefore) else db.deliveries[id]))
      && (forall id: nat :: id < |after| && db.deliveries[id].state.InFlight? ==>
            db.deliveries[id].startedAt.Some? && after[id].state.Ambiguous? == (db.deliveries[id].startedAt.value <= staleBefore))
  {
    var db := Run(START, actions);
    RunKeepsInv(START, actions);
    forall id: nat | id < |db.deliveries| ensures DeliveryInv(db.tables, db.deliveries[id]) {
    }
  }

  // ----- keys

  predicate NoColon(s: string) {
    forall i :: 0 <= i < |s| ==> s[i] != ':'
  }

  lemma {:induction false} FieldsSplit(a: string, x: string, b: string, y: string)
    requires NoColon(a) && NoColon(b) && a + ":" + x == b + ":" + y
    ensures a == b && x == y
  {
    var s := a + ":" + x;
    assert s == b + ":" + y;
    assert s[|a|] == ':' && s[|b|] == ':';
    assert forall i :: 0 <= i < |a| ==> s[i] == a[i];
    assert forall i :: 0 <= i < |b| ==> s[i] == b[i];
    assert |a| == |b|;
    assert a == s[..|a|] && b == s[..|b|];
    assert x == s[|a| + 1..] && y == s[|b| + 1..];
  }

  /** For one target, the deterministic key identifies the event and the operation. */
  lemma KeysIdentify(event: nat, operation: string, event': nat, operation': string, target: string)
    requires DeterministicKey(event, target, operation) == DeterministicKey(event', target, operation')
    ensures event == event' && operation == operation'
  {
    var a, b := Decimal(event), Decimal(event');
    var x, y := target + ":" + operation, target + ":" + operation';
    var key := DeterministicKey(event, target, operation);
    assert key == "watch-event:" + (a + ":" + x);
    assert key == "watch-event:" + (b + ":" + y);
    assert key[12..] == a + ":" + x && key[12..] == b + ":" + y;
    FieldsSplit(a, x, b, y);
    DecimalIsInjective(event, event');
    assert x[|target| + 1..] == operation && y[|target| + 1..] == operation';
  }

  /** A row whose key was not chosen by its creator. */
  predicate Automatic(d: Delivery) {
    d.key == DeterministicKey(d.event, d.target, d.operation)
  }

  /**
   Without an explicit key, a delivery of an active event is refused exactly when one for the same event, target and
   operation was created without one, or somebody chose its very key for the same target.
   */
  lemma OneDeliveryPerOperation(db: Database, event: nat, target: string, operation: string, request: string)
    requires event < |db.tables.events| && db.tables.events[event].quarantineReason.None? && db.tables.events[event].supersededBy.None?
    ensures Create(db, event, target, operation, request, None).1.Rejected? <==>
      exists i :: 0 <= i < |db.deliveries| && db.deliveries[i].target == target &&
        if Automatic(db.deliveries[i]) then db.deliveries[i].event == event && db.deliveries[i].operation == operation
        else db.deliveries[i].key == DeterministicKey(event, target, operation)
  {
    var key := DeterministicKey(event, target, operation);
    forall i | 0 <= i < |db.deliveries| && db.deliveries[i].target == target && Automatic(db.deliveries[i])
      ensures db.deliveries[i].key == key <==> db.deliveries[i].event == event && db.deliveries[i].operation == operation
    {
      var d := db.deliveries[i];
      if d.key == key { KeysIdentify(event, operation, d.event, d.operation, target); }
    }
  }
}
