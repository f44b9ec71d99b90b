/**
 The tables of media.db and the operations that update them; each method is one transaction.
 `trace` records the actions taken, so each theorem about runs of the database holds of the object.
 */
module MediaDatabase {
  import opened Options
  import L = WatchedLedger
  import C = Corrections
  import D = Deliveries
  import R = Retries
  import I = Ingestion
  import S = DeliverySteps
  import Decimals

  class Media {
    var events: seq<L.Row>
    var links: map<L.Key, L.Link>
    var cursors: map<L.Key, L.Cursor>
    var deliveries: seq<D.Delivery>
    ghost var trace: seq<D.Action>

    constructor ()
      ensures Valid() && trace == []
    {
      events, links, cursors, deliveries, trace := [], map[], map[], [], [];
    }

    ghost predicate Valid()
      reads this
    {
      Abstract() == D.Run(D.START, trace)
    }

    /** The transaction just committed, for the record. */
    ghost method Note(before: D.Database, a: D.Action)
      requires before == D.Run(D.START, trace) && Abstract() == D.Next(before, a)
      modifies this`trace
      ensures Valid() && trace == old(trace) + [a]
    {
      D.RunConcat(D.START, trace, [a]);
      assert D.Run(before, [a]) == D.Run(D.Next(before, a), []);
      trace := trace + [a];
    }

    /** Whatever was done to the object, its tables and deliveries are as every run leaves them. */
    lemma Sound()
      requires Valid()
      ensures D.Inv(Abstract())
      ensures R.AllDisciplined(Abstract()) <==> R.NeverBlind(D.START, trace)
    {
      D.RunKeepsInv(D.START, trace);
      R.NoBlindRetry(trace);
    }

    function Tables(): L.Tables
      reads this
    {
      L.Tables(events, links, cursors)
    }

    function Abstract(): D.Database
      reads this
    {
      D.Database(Tables(), deliveries)
    }

    method LinkExternalEvent(event: nat, key: L.Key, mediaId: Option<string>) returns (error: Option<L.Error>)
      modifies this`links
      ensures error == L.LinkError(old(links), key, event)
      ensures links == if error.Some? then old(links) else L.Linked(old(links), key, event, mediaId)
      ensures error.None? <==> key.0 != "" && key.1 != "" && (key in old(links) ==> old(links)[key].event == event)
      ensures error.None? ==>
        && key in links && links[key].event == event
        && links == (if key in old(links) then old(links) else old(links)[key := L.Link(event, mediaId)])
    {
      if key.0 == "" || key.1 == "" {
        return Some(L.LedgerError("external event link requires system and event ID"));
      }
      if key in links {
        if links[key].event == event {
          return None;
        }
        return Some(L.LedgerError("external event is already linked to another watch event"));
      }
      links := links[key := L.Link(event, mediaId)];
      error := None;
    }

    method InsertEvent(row: L.Row) returns (error: Option<L.Error>)
      modifies this`events
      ensures error == L.InsertError(old(events), row)
      ensures events == if error.Some? then old(events) else old(events) + [row]
    {
      error := L.InsertError(events, row);
      if error.None? {
        events := events + [row];
      }
    }

    /** One observation; an error rolls the transaction back. */
    method IngestObservation(o: L.Observation) returns (result: L.Ingested)
      requires Valid()
      modifies this`events, this`links, this`trace
      ensures (Tables(), result) == L.Ingest(old(Tables()), o)
      ensures Valid() && trace == old(trace) + [D.DoIngest(o)]
      ensures I.IngestedRightly(old(Tables()), Tables(), o, result)
    {
      ghost var before := Abstract();
      Sound();
      I.IngestIsRight(Tables(), o);
      result := Transact(o);
      Note(before, D.DoIngest(o));
    }

    method Transact(o: L.Observation) returns (result: L.Ingested)
      modifies this`events, this`links
      ensures (Tables(), result) == L.Ingest(old(Tables()), o)
    {
      if !L.Valid(o) {
        return L.Refused(L.LedgerError("invalid observation"));
      }
      if L.SuppressedByBoundary(Tables(), o) {
        return L.BoundarySuppressed;
      }
      var key := L.KeyOf(o);
      if key.Some? {
        var duplicate := L.BySource(events, key.value);
        if duplicate.Some? {
          return L.DuplicateSource(duplicate.value);
        }
        if key.value in links {
          return L.EchoSuppressed(links[key.value].event);
        }
      }
      var known := L.ByFingerprint(events, L.FingerprintOf(o));
      if known.Some? {
        if key.Some? {
          var error := LinkExternalEvent(known.value, key.value, o.externalMediaId);
          if error.Some? {
            return L.Refused(error.value);
          }
        }
        return L.DuplicateFingerprint(known.value);
      }
      result := InsertAndLink(o, key);
    }

    method InsertAndLink(o: L.Observation, key: Option<L.Key>) returns (result: L.Ingested)
      requires L.Valid(o) && key == L.KeyOf(o)
      requires !L.SuppressedByBoundary(Tables(), o)
      requires key.Some? ==> L.BySource(events, key.value).None? && key.value !in links
      requires L.ByFingerprint(events, L.FingerprintOf(o)).None?
      modifies this`events, this`links
      ensures (Tables(), result) == L.Ingest(old(Tables()), o)
    {
      var before := events;
      var id := |events|;
      var error := InsertEvent(L.RowOf(o));
      if error.Some? {
        return L.Refused(error.value);
      }
      if key.Some? && o.localId.Some? {
        error := LinkExternalEvent(id, key.value, o.externalMediaId);
        if error.Some? {
          events := before;
          return L.Refused(error.value);
        }
      }
      result := if o.localId.None? then L.Quarantined(id) else L.Created(id);
    }

    method SetCursor(key: L.Key, cursor: L.Cursor)
      requires Valid()
      modifies this`cursors, this`trace
      ensures Tables() == old(Tables()).(cursors := old(cursors)[key := cursor])
      ensures Valid() && trace == old(trace) + [D.DoCursor(key, cursor)]
    {
      ghost var before := Abstract();
      cursors := cursors[key := cursor];
      Note(before, D.DoCursor(key, cursor));
    }

    /**
     An accepted high-water mark: from then on an observation from that source and scope is suppressed if and only if it is
     numbered at or below it, in whatever way its id writes the number.
     */
    method SetMigrationBoundary(source: string, scope: string, maximum: int) returns (ok: bool)
      requires Valid()
      modifies this`cursors, this`trace
      ensures Valid() && old(trace) <= trace
      ensures ok <==> source in L.SOURCES && maximum >= 0 && scope != ""
      ensures !ok ==> Abstract() == old(Abstract())
      ensures ok ==> Tables() == old(Tables()).(cursors := old(cursors)[(source, scope) := L.EventIdLte(maximum)])
      ensures ok ==> forall o: L.Observation, n: int ::
        I.Acceptable(o) && o.source == source && o.scope == scope && o.sourceEventId.Some? && I.Writes(o.sourceEventId.value, n) ==>
          (L.Ingest(Tables(), o).1 == L.BoundarySuppressed <==> n <= maximum)
      ensures ok ==> forall o: L.Observation, n: nat ::
        I.Acceptable(o) && o.source == source && o.scope == scope && o.sourceEventId == Some(Decimals.Decimal(n)) ==>
          (L.Ingest(Tables(), o).1 == L.BoundarySuppressed <==> n <= maximum)
    {
      ok := source in L.SOURCES && maximum >= 0 && scope != "";
      if ok {
        SetCursor((source, scope), L.EventIdLte(maximum));
        forall o: L.Observation, n: int |
          I.Acceptable(o) && o.source == source && o.scope == scope && o.sourceEventId.Some? && I.Writes(o.sourceEventId.value, n)
          ensures L.Ingest(Tables(), o).1 == L.BoundarySuppressed <==> n <= maximum
        {
          I.OnlyBoundary(Tables(), o, n, maximum);
        }
        forall o: L.Observation, n: nat |
          I.Acceptable(o) && o.source == source && o.scope == scope && o.sourceEventId == Some(Decimals.Decimal(n))
          ensures L.Ingest(Tables(), o).1 == L.BoundarySuppressed <==> n <= maximum
        {
          I.DecimalWrites(n);
          I.OnlyBoundary(Tables(), o, n, maximum);
        }
      }
    }

    method SupersedeEvent(old': nat, replacement: nat) returns (ok: bool)
      requires Valid()
      modifies this`events, this`trace
      ensures Valid() && trace == old(trace) + [D.DoSupersede(old', replacement)]
      ensures ok <==> C.Supersede(old(events), old', replacement).Some?
      ensures Abstract() == D.Next(old(Abstract()), D.DoSupersede(old', replacement))
      ensures S.CorrectedRightly(old(events), events, old', replacement, ok)
    {
      ghost var before := Abstract();
      ok := old' != replacement && old' < |events| && replacement < |events| && events[old'].supersededBy.None?;
      if ok {
        events := events[old' := events[old'].(supersededBy := Some(replacement))];
      }
      Note(before, D.DoSupersede(old', replacement));
    }

    method CreateDelivery(event: nat, target: string, operation: string, request: string, key: Option<string>) returns (result: D.Result)
      requires Valid()
      modifies this`deliveries, this`trace
      ensures (Abstract(), result) == D.Create(old(Abstract()), event, target, operation, request, key)
      ensures Valid() && trace == old(trace) + [D.DoCreate(event, target, operation, request, key)]
      ensures S.CreatedRightly(old(Abstract()), Abstract(), event, target, operation, request, key, result)
    {
      S.CreateIsRight(Abstract(), event, target, operation, request, key);
      ghost var before := Abstract();
      result := InsertDelivery(event, target, operation, request, key);
      Note(before, D.DoCreate(event, target, operation, request, key));
    }

    method InsertDelivery(event: nat, target: string, operation: string, request: string, key: Option<string>) returns (result: D.Result)
      modifies this`deliveries
      ensures (Abstract(), result) == D.Create(old(Abstract()), event, target, operation, request, key)
    {
      if event >= |events| || events[event].quarantineReason.Some? || events[event].supersededBy.Some? {
        return D.Rejected("delivery requires an active, identified watch event");
      }
      var key' := if L.Truthy(key) then key.value else D.DeterministicKey(event, target, operation);
      if exists i :: 0 <= i < |deliveries| && deliveries[i].target == target && deliveries[i].key == key' {
        return D.Rejected("duplicate target idempotency key");
      }
      result := D.Accepted(|deliveries|);
      deliveries := deliveries + [D.Delivery(event, target, operation, key', request, D.Pending, 0, None, None, None,
                                             None, None, None, [D.Entry(D.Pending, None)])];
    }

    method TransitionDelivery(id: nat, c: D.Change) returns (result: D.Result)
      requires Valid()
      modifies this`deliveries, this`trace
      ensures (Abstract(), result) == D.Transition(old(Abstract()), id, c)
      ensures Valid() && trace == old(trace) + [D.DoTransition(id, c)]
      ensures S.MovedRightly(old(Abstract()), Abstract(), id, c, result)
    {
      S.TransitionIsRight(Abstract(), id, c);
      ghost var before := Abstract();
      result := Update(id, c);
      Note(before, D.DoTransition(id, c));
    }

    method Update(id: nat, c: D.Change) returns (result: D.Result)
      modifies this`deliveries
      ensures (Abstract(), result) == D.Transition(old(Abstract()), id, c)
    {
      if id >= |deliveries| || !D.Allowed(deliveries[id].state, c.state) {
        return D.Rejected("invalid delivery state transition");
      }
      if c.state.Verified? && !L.Truthy(c.targetEventId) {
        return D.Rejected("verified delivery requires target event ID");
      }
      var d := deliveries[id];
      if c.state.InFlight? {
        d := d.(attempts := d.attempts + 1, startedAt := Some(c.at));
      }
      if c.state.Verified? {
        d := d.(verifiedAt := Some(c.at));
      }
      if c.targetEventId.Some? {
        d := d.(targetEventId := c.targetEventId);
      }
      d := d.(state := c.state, nextAttemptAt := c.nextAttemptAt, http := c.http, errorClass := c.errorClass,
              history := d.history + [D.Entry(c.state, c.http)]);
      deliveries := deliveries[id := d];
      result := D.Accepted(id);
    }

    method RecordDeliveryFailure(id: nat, errorClass: string, http: Option<int>, retryAt: Option<int>, at: int) returns (result: D.Result)
      requires Valid()
      modifies this`deliveries, this`trace
      ensures (Abstract(), result) == D.Failure(old(Abstract()), id, errorClass, http, retryAt, at)
      ensures Valid() && trace == old(trace) + [D.DoFailure(id, errorClass, http, retryAt, at)]
      ensures S.FailedRightly(old(Abstract()), Abstract(), id, errorClass, http, retryAt, result)
      ensures id < |old(deliveries)| && old(deliveries)[id].state.InFlight? && http == Some(429) && retryAt.Some? ==>
        forall now: int, stale: int :: id in D.RunnableIds(D.RestartAll(deliveries, stale), now) <==> retryAt.value <= now
    {
      S.FailureIsRight(Abstract(), id, errorClass, http, retryAt, at);
      ghost var before := Abstract();
      if http == Some(429) {
        if retryAt.None? {
          result := D.Rejected("rate-limit response requires retry deadline");
        } else {
          result := Update(id, D.Change(D.RetryWait, at, retryAt, http, Some(errorClass), None));
        }
      } else if errorClass in D.UNCERTAIN {
        result := Update(id, D.Change(D.Ambiguous, at, None, http, Some(errorClass), None));
      } else {
        result := Update(id, D.Change(D.Failed, at, None, http, Some(errorClass), None));
      }
      forall now: int, stale: int ensures forall i: nat ::
          i in D.RunnableIds(D.RestartAll(deliveries, stale), now) <==> i < |deliveries| && S.Due(deliveries[i], now)
      {
        S.RestartIsRight(deliveries, stale, now);
      }
      Note(before, D.DoFailure(id, errorClass, http, retryAt, at));
    }

    /** Stale attempts become ambiguous; the ids of the rows that are safe to run come back in order. */
    method RecoverRestartWork(now: int, staleBefore: int) returns (ids: seq<nat>)
      requires Valid()
      modifies this`deliveries, this`trace
      ensures Abstract() == D.Next(old(Abstract()), D.DoRestart(staleBefore))
      ensures ids == D.RunnableIds(deliveries, now)
      ensures Valid() && trace == old(trace) + [D.DoRestart(staleBefore)]
      ensures |deliveries| == |old(deliveries)|
      ensures forall i :: 0 <= i < |deliveries| ==> S.RestartedRightly(old(deliveries)[i], deliveries[i], staleBefore)
      ensures forall i: nat :: i in ids <==> i < |deliveries| && S.Due(old(deliveries)[i], now)
    {
      S.RestartIsRight(deliveries, staleBefore, now);
      ghost var before := Abstract();
      MarkStale(staleBefore);
      Note(before, D.DoRestart(staleBefore));
      ids := Select(now);
    }

    method MarkStale(staleBefore: int)
      modifies this`deliveries
      ensures deliveries == D.RestartAll(old(deliveries), staleBefore)
    {
      var k := 0;
      while k < |deliveries|
        invariant 0 <= k <= |deliveries| == |old(deliveries)|
        invariant forall i :: 0 <= i < k ==> deliveries[i] == D.Restarted(old(deliveries)[i], staleBefore)
        invariant forall i :: k <= i < |deliveries| ==> deliveries[i] == old(deliveries)[i]
      {
        if D.Stale(deliveries[k], staleBefore) {
          var d := deliveries[k];
          deliveries := deliveries[k := d.(state := D.Ambiguous, errorClass := Some("restart_during_in_flight"),
                                           history := d.history + [D.Entry(D.Ambiguous, d.http)])];
        }
        k := k + 1;
      }
    }

    method Select(now: int) returns (ids: seq<nat>)
      ensures ids == D.RunnableIds(deliveries, now)
    {
      ids := [];
      var k := 0;
      while k < |deliveries|
        invariant 0 <= k <= |deliveries|
        invariant ids == D.RunnableIds(deliveries[..k], now)
      {
        assert deliveries[..k + 1][..k] == deliveries[..k];
        if D.Runnable(deliveries[k], now) {
          ids := ids + [k];
        }
        k := k + 1;
      }
      assert deliveries[..k] == deliveries;
    }
  }
}
