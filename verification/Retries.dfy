/** When an attempt can be repeated: exactly which calls break the discipline that the failure report keeps. */
module Retries {
  import opened Options
  import opened WatchedLedger
  import opened Deliveries

  /** The target asked to wait, or somebody reconciled the row by hand. */
  predicate Answered(history: seq<Entry>, k: nat)
    requires 0 < k < |history|
  {
    history[k] == Entry(RetryWait, Some(429)) || (history[k].state.Pending? && history[k - 1].state.Ambiguous?)
  }

  /** Between two attempts the target answered 429 or the row was reconciled. */
  ghost predicate Disciplined(history: seq<Entry>) {
    forall i: nat, j: nat :: i < j < |history| && history[i].state.InFlight? && history[j].state.InFlight? ==>
      exists k: nat :: i < k < j && Answered(history, k)
  }

  /** An attempt from a wait that no 429 asked for; the row's state and last status say so before the call. */
  predicate BlindRetry(db: Database, a: Action) {
    && a.DoTransition? && a.change.state.InFlight?
    && a.id < |db.deliveries| && db.deliveries[a.id].state.RetryWait? && db.deliveries[a.id].http != Some(429)
  }

  predicate NeverBlind(db: Database, actions: seq<Action>)
    decreases |actions|
  {
    actions == [] || (!BlindRetry(db, actions[0]) && NeverBlind(Next(db, actions[0]), actions[1..]))
  }

  lemma ShorterIsDisciplined(history: seq<Entry>, longer: seq<Entry>)
    requires history <= longer && Disciplined(longer)
    ensures Disciplined(history)
  {
    forall i: nat, j: nat | i < j < |history| && history[i].state.InFlight? && history[j].state.InFlight?
      ensures exists k: nat :: i < k < j && Answered(history, k)
    {
      assert longer[i] == history[i] && longer[j] == history[j];
      var k: nat :| i < k < j && Answered(longer, k);
      assert Answered(history, k);
    }
  }

  predicate BlindEntry(history: seq<Entry>, e: Entry) {
    && history != [] && e.state.InFlight?
    && history[|history| - 1].state.RetryWait? && history[|history| - 1].http != Some(429)
  }

  lemma LongerIsDisciplined(history: seq<Entry>, e: Entry)
    requires Path(history) && Path(history + [e]) && Disciplined(history) && !BlindEntry(history, e)
    ensures Disciplined(history + [e])
  {
    var longer, n := history + [e], |history|;
    assert forall k :: 0 <= k < n ==> longer[k] == history[k];
    forall i: nat, j: nat | i < j < |longer| && longer[i].state.InFlight? && longer[j].state.InFlight?
      ensures exists k: nat :: i < k < j && Answered(longer, k)
    {
      if j < n {
        var k: nat :| i < k < j && Answered(history, k);
        assert Answered(longer, k);
      } else {
        assert Allowed(longer[n - 1].state, longer[n].state);
        assert i < n - 1 ==> Allowed(longer[n - 2].state, longer[n - 1].state);
        assert Answered(longer, n - 1);
      }
    }
  }

  lemma BlindIsUndisciplined(history: seq<Entry>, e: Entry)
    requires Path(history) && BlindEntry(history, e)
    ensures !Disciplined(history + [e])
  {
    var longer, n := history + [e], |history|;
    assert Allowed(history[n - 2].state, history[n - 1].state);
    assert longer[n - 2].state.InFlight? && longer[n].state.InFlight?;
    assert !Answered(longer, n - 1);
  }

  ghost predicate AllDisciplined(db: Database) {
    forall i :: 0 <= i < |db.deliveries| ==> Disciplined(db.deliveries[i].history)
  }

  /** What one action does to one row: nothing, or one entry, which is an attempt only for an accepted transition to one. */
  lemma OneEntry(db: Database, a: Action, i: nat)
    requires Inv(db) && i < |db.deliveries|
    ensures i < |Next(db, a).deliveries|
    ensures var h, d' := db.deliveries[i].history, Next(db, a).deliveries[i];
      d'.history != h ==>
        && d'.history == h + [Entry(d'.state, d'.http)]
        && (d'.state.InFlight? ==> a.DoTransition? && a.id == i && a.change.state.InFlight?)
    ensures BlindRetry(db, a) && a.id == i ==>
      Next(db, a).deliveries[i].history == db.deliveries[i].history + [Entry(InFlight, a.change.http)]
  {
    hide TablesInv, Ingest, DeterministicKey, Path, Attempts, Truthy;
    assert DeliveryInv(db.tables, db.deliveries[i]);
    hide Inv;
  }

  lemma NewRowsArePending(db: Database, a: Action, i: nat)
    requires |db.deliveries| <= i < |Next(db, a).deliveries|
    ensures Next(db, a).deliveries[i].history == [Entry(Pending, None)]
  {
    hide Ingest, DeterministicKey;
  }

  lemma RowShape(db: Database, i: nat)
    requires Inv(db) && i < |db.deliveries|
    ensures Path(db.deliveries[i].history)
    ensures var d := db.deliveries[i]; d.history[|d.history| - 1] == Entry(d.state, d.http)
  {
    assert DeliveryInv(db.tables, db.deliveries[i]);
  }

  lemma RowStaysDisciplined(db: Database, a: Action, i: nat)
    requires Inv(db) && Inv(Next(db, a)) && i < |db.deliveries| && i < |Next(db, a).deliveries|
    requires Disciplined(db.deliveries[i].history) && !BlindRetry(db, a)
    ensures Disciplined(Next(db, a).deliveries[i].history)
  {
    hide Next, Disciplined, Inv, Path;
    var h, d' := db.deliveries[i].history, Next(db, a).deliveries[i];
    OneEntry(db, a, i);
    RowShape(db, i);
    RowShape(Next(db, a), i);
    if d'.history != h { LongerIsDisciplined(h, Entry(d'.state, d'.http)); }
  }

  /** One call keeps the discipline exactly when it is not a blind retry. */
  lemma StepDiscipline(db: Database, a: Action)
    requires Inv(db) && AllDisciplined(db)
    ensures AllDisciplined(Next(db, a)) <==> !BlindRetry(db, a)
  {
    hide Next, Disciplined, Inv, Path;
    var db' := Next(db, a);
    StepKeepsInv(db, a);
    if BlindRetry(db, a) {
      OneEntry(db, a, a.id);
      RowShape(db, a.id);
      BlindIsUndisciplined(db.deliveries[a.id].history, Entry(InFlight, a.change.http));
    } else {
      forall i | 0 <= i < |db'.deliveries| ensures Disciplined(db'.deliveries[i].history) {
        if i < |db.deliveries| {
          RowStaysDisciplined(db, a, i);
        } else {
          NewRowsArePending(db, a, i);
          FirstIsDisciplined();
        }
      }
    }
  }

  lemma FirstIsDisciplined()
    ensures Disciplined([Entry(Pending, None)])
  {
  }

  lemma IndisciplineStays(db: Database, actions: seq<Action>)
    requires Inv(db) && AllDisciplined(Run(db, actions))
    ensures AllDisciplined(db)
  {
    hide Disciplined, Run, Inv;
    RunKeepsInv(db, actions);
    var after := Run(db, actions).deliveries;
    forall i | 0 <= i < |db.deliveries| ensures Disciplined(db.deliveries[i].history) {
      assert Continues(db.deliveries[i], after[i]);
      ShorterIsDisciplined(db.deliveries[i].history, after[i].history);
    }
  }

  lemma {:induction false} RunDiscipline(db: Database, actions: seq<Action>)
    requires Inv(db) && AllDisciplined(db)
    ensures AllDisciplined(Run(db, actions)) <==> NeverBlind(db, actions)
    decreases |actions|
  {
    hide AllDisciplined, Inv, Next, BlindRetry;
    if actions != [] {
      var db1 := Next(db, actions[0]);
      StepDiscipline(db, actions[0]);
      StepKeepsInv(db, actions[0]);
      if BlindRetry(db, actions[0]) {
        if AllDisciplined(Run(db1, actions[1..])) { IndisciplineStays(db1, actions[1..]); }
      } else {
        RunDiscipline(db1, actions[1..]);
      }
    }
  }

  /**
   Over every run, an attempt is only ever repeated after a 429 or a reconciliation, if and only if no call of the run
   is a blind retry.
   */
  lemma NoBlindRetry(actions: seq<Action>)
    ensures AllDisciplined(Run(START, actions)) <==> NeverBlind(START, actions)
  {
    RunDiscipline(START, actions);
  }

  /** Any attempt in flight can be repeated blindly: whatever the status was, if it was not 429. */
  lemma RetryWithoutRateLimit(db: Database, id: nat, at: int, http: Option<int>)
    requires Inv(db) && id < |db.deliveries| && db.deliveries[id].state.InFlight? && http != Some(429)
    ensures var wait := DoTransition(id, Change(RetryWait, at, None, http, None, None));
      var again := DoTransition(id, Change(InFlight, at, None, None, None, None));
      var db' := Run(db, [wait, again]);
      && id < |db'.deliveries|
      && db'.deliveries[id].history == db.deliveries[id].history + [Entry(RetryWait, http)] + [Entry(InFlight, None)]
      && !Disciplined(db'.deliveries[id].history)
  {
    hide Disciplined, TablesInv;
    var wait := DoTransition(id, Change(RetryWait, at, None, http, None, None));
    var again := DoTransition(id, Change(InFlight, at, None, None, None, None));
    var db1 := Next(db, wait);
    StepKeepsInv(db, wait);
    assert [wait, again][1..] == [again];
    assert Run(db1, [again]) == Next(db1, again);
    assert DeliveryInv(db1.tables, db1.deliveries[id]);
    BlindIsUndisciplined(db1.deliveries[id].history, Entry(InFlight, None));
  }

  // ----- the waits themselves

  predicate WaitsAreRateLimits(d: Delivery) {
    forall k :: 0 <= k < |d.history| && d.history[k].state.RetryWait? ==> d.history[k].http == Some(429)
  }

  predicate AllWaitsAreRateLimits(db: Database) {
    forall i :: 0 <= i < |db.deliveries| ==> WaitsAreRateLimits(db.deliveries[i])
  }

  /** An accepted transition of an attempt to `retry_wait` without a 429. */
  predicate BlindWait(db: Database, a: Action) {
    && a.DoTransition? && a.change.state.RetryWait? && a.change.http != Some(429)
    && a.id < |db.deliveries| && db.deliveries[a.id].state.InFlight?
  }

  predicate NeverWaitsBlindly(db: Database, actions: seq<Action>)
    decreases |actions|
  {
    actions == [] || (!BlindWait(db, actions[0]) && NeverWaitsBlindly(Next(db, actions[0]), actions[1..]))
  }

  /** One call leaves every wait a rate limit exactly when it is not a blind wait. */
  lemma StepWaits(db: Database, a: Action)
    requires AllWaitsAreRateLimits(db)
    ensures AllWaitsAreRateLimits(Next(db, a)) <==> !BlindWait(db, a)
  {
    hide Ingest, DeterministicKey, Truthy;
    var db' := Next(db, a);
    if BlindWait(db, a) {
      var h := db.deliveries[a.id].history;
      assert db'.deliveries[a.id].history[|h|] == Entry(RetryWait, a.change.http);
    } else {
      forall i | 0 <= i < |db'.deliveries| ensures WaitsAreRateLimits(db'.deliveries[i]) {
        if i < |db.deliveries| { assert WaitsAreRateLimits(db.deliveries[i]); }
      }
    }
  }

  /** Over every run, the waits are all rate limits if and only if no call of the run is a blind wait. */
  lemma {:induction false} WaitsExactly(db: Database, actions: seq<Action>)
    requires Inv(db) && AllWaitsAreRateLimits(db)
    ensures AllWaitsAreRateLimits(Run(db, actions)) <==> NeverWaitsBlindly(db, actions)
    decreases |actions|
  {
    hide AllWaitsAreRateLimits, Inv, Next, BlindWait;
    if actions != [] {
      var db1 := Next(db, actions[0]);
      StepWaits(db, actions[0]);
      StepKeepsInv(db, actions[0]);
      if BlindWait(db, actions[0]) {
        if AllWaitsAreRateLimits(Run(db1, actions[1..])) { BlindWaitsStay(db1, actions[1..]); }
      } else {
        WaitsExactly(db1, actions[1..]);
      }
    }
  }

  lemma BlindWaitsStay(db: Database, actions: seq<Action>)
    requires Inv(db) && AllWaitsAreRateLimits(Run(db, actions))
    ensures AllWaitsAreRateLimits(db)
  {
    hide Run, Inv;
    RunKeepsInv(db, actions);
    var after := Run(db, actions).deliveries;
    forall i | 0 <= i < |db.deliveries| ensures WaitsAreRateLimits(db.deliveries[i]) {
      assert Continues(db.deliveries[i], after[i]) && WaitsAreRateLimits(after[i]);
    }
  }
}
