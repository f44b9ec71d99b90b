/** What one event of a batch, and one run, must do, said of the tables, the cursor and the counters before and after. */
module ReconcileSteps {
  import opened Options
  import opened WatchedLedger
  import opened Ingestion
  import opened Reconciliation

  // ----- one event

  predicate KnownToPlex(t: Tables, id: string) {
    exists i :: 0 <= i < |t.events| && t.events[i].source == "plex" && t.events[i].sourceEventId == Some(id)
  }

  /** At or below the cursor: a known event is confirmed, an unknown one is left alone. */
  predicate ConfirmedRightly(p: Progress, q: Progress, event: SourceEvent) {
    var known := event.confirmId.Some? && KnownToPlex(p.tables, event.confirmId.value);
    && q.tables == p.tables && q.cursor == p.cursor && q.created == p.created && q.quarantined == p.quarantined
    && q.failed == p.failed
    && (known ==> q.processed == p.processed + 1 && q.duplicates == p.duplicates + 1)
    && (!known ==> q.processed == p.processed && q.duplicates == p.duplicates)
  }

  /** The event was ingested with this result, and then the cursor moved to it. */
  predicate AdvancedRightly(p: Progress, q: Progress, scope: string, position: int, t: Tables, r: Ingested) {
    && q.tables.events == t.events && q.tables.links == t.links
    && q.tables.cursors == t.cursors[("plex", scope) := HistoryId(position)]
    && q.cursor == position && q.failed == p.failed && q.processed == p.processed + 1
    && q.created == p.created + (if r.Created? then 1 else 0)
    && q.quarantined == p.quarantined + (if r.Quarantined? then 1 else 0)
    && q.duplicates == p.duplicates + (if r.DuplicateSource? || r.EchoSuppressed? || r.DuplicateFingerprint? then 1 else 0)
  }

  predicate ImportedRightly(p: Progress, q: Progress, scope: string, position: int, t: Tables, r: Ingested, trouble: Trouble) {
    if r.Refused? || trouble.AfterIngest? then q == p.(tables := t, failed := Some(position))
    else AdvancedRightly(p, q, scope, position, t, r)
  }

  ghost predicate HandledRightly(p: Progress, q: Progress, scope: string, event: SourceEvent, trouble: Trouble) {
    if event.position <= p.cursor then ConfirmedRightly(p, q, event)
    else if event.observation.None? || trouble.BeforeIngest? then q == p.(failed := Some(event.position))
    else
      exists t, r ::
        IngestedRightly(p.tables, t, event.observation.value, r) && ImportedRightly(p, q, scope, event.position, t, r, trouble)
  }

  lemma HandleIsRight(p: Progress, scope: string, event: SourceEvent, trouble: Trouble)
    requires TablesInv(p.tables)
    ensures HandledRightly(p, Handle(p, scope, event, trouble), scope, event, trouble)
  {
    if event.position <= p.cursor {
      hide Ingest, TablesInv;
      if event.confirmId.Some? {
        var found := BySource(p.tables.events, ("plex", event.confirmId.value));
        assert found.Some? ==> HasKey(p.tables.events[found.value], ("plex", event.confirmId.value));
        if KnownToPlex(p.tables, event.confirmId.value) {
          var rows := p.tables.events;
          var i :| 0 <= i < |rows| && rows[i].source == "plex" && rows[i].sourceEventId == event.confirmId;
          assert HasKey(rows[i], ("plex", event.confirmId.value));
        }
      }
      hide BySource;
    } else if event.observation.Some? && !trouble.BeforeIngest? {
      var o := event.observation.value;
      IngestIsRight(p.tables, o);
      hide Ingest, IngestedRightly, TablesInv;
      var (t, r) := Ingest(p.tables, o);
      assert ImportedRightly(p, Handle(p, scope, event, trouble), scope, event.position, t, r, trouble);
    }
  }

  // ----- one run

  /** Where a run starts from: the stored cursor, or else the initial watermark, which is then stored. */
  predicate StartsFrom(t: Tables, t0: Tables, scope: string, watermark: Option<int>, cursor: int) {
    var cell := ("plex", scope);
    if cell in t.cursors then t.cursors[cell] == HistoryId(cursor) && cursor >= 0 && t0 == t
    else watermark == Some(cursor) && cursor >= 0 && t0 == t.(cursors := t.cursors[cell := HistoryId(cursor)])
  }

  predicate SamePosition(events: seq<SourceEvent>) {
    exists i, j :: 0 <= i < j < |events| && events[i].position == events[j].position
  }

  predicate Below(events: seq<SourceEvent>, start: int) {
    exists i :: 0 <= i < |events| && events[i].position <= start
  }

  /** How a run answers, as far as the first event; `t0` are the tables with the cursor in place. */
  predicate AnswersRightly(t0: Tables, read: (int, int) -> Option<seq<SourceEvent>>, cursor: int, overlap: int, limit: int,
                           outcome: Outcome) {
    var start := if overlap >= cursor then 0 else cursor - overlap;
    match read(start, limit)
    case None => outcome == Raised(t0, SourceReadFailed)
    case Some(events) =>
      if Below(events, start) then outcome == Raised(t0, OutsideWindow)
      else if SamePosition(events) then outcome == Raised(t0, DuplicatePositions)
      else outcome.Finished? && outcome.readCount == |events|
  }

  ghost predicate RanRightly(t: Tables, read: (int, int) -> Option<seq<SourceEvent>>, scope: string, watermark: Option<int>,
                             overlap: int, limit: int, outcome: Outcome) {
    if scope == "" || overlap < 0 || limit < 1 then outcome == Raised(t, InvalidConfiguration)
    else if ("plex", scope) in t.cursors && !(t.cursors[("plex", scope)].HistoryId? && t.cursors[("plex", scope)].value >= 0) then
      outcome == Raised(t, InvalidCursor)
    else if ("plex", scope) !in t.cursors && (watermark.None? || watermark.value < 0) then outcome == Raised(t, CursorNotInitialized)
    else exists t0, cursor :: StartsFrom(t, t0, scope, watermark, cursor) && AnswersRightly(t0, read, cursor, overlap, limit, outcome)
  }

  predicate Ordered(events: seq<SourceEvent>) {
    forall i, j :: 0 <= i < j < |events| ==> events[i].position <= events[j].position
  }

  lemma {:induction false} InsertKeepsOrder(event: SourceEvent, events: seq<SourceEvent>)
    requires Ordered(events)
    ensures Ordered(Insert(event, events)) && multiset(Insert(event, events)) == multiset(events) + multiset{event}
    decreases |events|
  {
    if events == [] || event.position <= events[0].position {
      assert [event] + events == Insert(event, events);
    } else {
      InsertKeepsOrder(event, events[1..]);
      var rest := Insert(event, events[1..]);
      assert events == [events[0]] + events[1..];
      forall x | x in rest ensures events[0].position <= x.position {
        assert x in multiset(rest);
        assert x in multiset(events[1..]) || x == event;
      }
    }
  }

  /** The batch is what was read, in the order of positions. */
  lemma {:induction false} SortIsRight(events: seq<SourceEvent>)
    ensures Ordered(SortByPosition(events)) && multiset(SortByPosition(events)) == multiset(events)
    decreases |events|
  {
    if events != [] {
      SortIsRight(events[1..]);
      InsertKeepsOrder(events[0], SortByPosition(events[1..]));
      assert events == [events[0]] + events[1..];
    }
  }

  /** A property of the elements is not changed by their order. */
  lemma SameElements(a: seq<SourceEvent>, b: seq<SourceEvent>, start: int)
    requires multiset(a) == multiset(b)
    ensures Below(a, start) <==> Below(b, start)
  {
    if Below(a, start) {
      var i :| 0 <= i < |a| && a[i].position <= start;
      assert a[i] in multiset(b);
      assert a[i] in b;
    }
    if Below(b, start) {
      var i :| 0 <= i < |b| && b[i].position <= start;
      assert b[i] in multiset(a);
      assert b[i] in a;
    }
  }

  function CountAt(events: seq<SourceEvent>, position: int): nat {
    if events == [] then 0 else (if events[0].position == position then 1 else 0) + CountAt(events[1..], position)
  }

  lemma {:induction false} CountInserted(event: SourceEvent, events: seq<SourceEvent>, position: int)
    ensures CountAt(Insert(event, events), position) == CountAt(events, position) + (if event.position == position then 1 else 0)
    decreases |events|
  {
    if events == [] || event.position <= events[0].position {
      assert ([event] + events)[1..] == events;
    } else {
      CountInserted(event, events[1..], position);
      assert ([events[0]] + Insert(event, events[1..]))[1..] == Insert(event, events[1..]);
    }
  }

  lemma {:induction false} CountSorted(events: seq<SourceEvent>, position: int)
    ensures CountAt(SortByPosition(events), position) == CountAt(events, position)
    decreases |events|
  {
    if events != [] {
      CountSorted(events[1..], position);
      CountInserted(events[0], SortByPosition(events[1..]), position);
    }
  }

  lemma {:induction false} CountMeans(events: seq<SourceEvent>, position: int)
    ensures CountAt(events, position) >= 1 <==> exists i :: 0 <= i < |events| && events[i].position == position
    ensures CountAt(events, position) >= 2 <==>
      exists i, j :: 0 <= i < j < |events| && events[i].position == position && events[j].position == position
    decreases |events|
  {
    if events != [] {
      var rest := events[1..];
      CountMeans(rest, position);
      assert forall i :: 0 < i < |events| ==> events[i] == rest[i - 1];
      if CountAt(rest, position) >= 1 {
        var i :| 0 <= i < |rest| && rest[i].position == position;
        assert events[i + 1].position == position;
      }
      if CountAt(rest, position) >= 2 {
        var i, j :| 0 <= i < j < |rest| && rest[i].position == position && rest[j].position == position;
        assert events[i + 1].position == position && events[j + 1].position == position;
      }
    }
  }

  lemma SharedMeansTwo(events: seq<SourceEvent>, position: int)
    ensures (exists i, j :: 0 <= i < j < |events| && events[i].position == position && events[j].position == position)
        ==> SamePosition(events) && CountAt(events, position) >= 2
    ensures CountAt(events, position) >= 2 ==> SamePosition(events)
  {
    hide CountAt;
    CountMeans(events, position);
  }

  lemma SortKeepsShared(events: seq<SourceEvent>)
    ensures SamePosition(SortByPosition(events)) <==> SamePosition(events)
  {
    var sorted := SortByPosition(events);
    hide SortByPosition, CountAt;
    if SamePosition(events) {
      var i, j :| 0 <= i < j < |events| && events[i].position == events[j].position;
      SharedMeansTwo(events, events[i].position);
      CountSorted(events, events[i].position);
      SharedMeansTwo(sorted, events[i].position);
    }
    if SamePosition(sorted) {
      var i, j :| 0 <= i < j < |sorted| && sorted[i].position == sorted[j].position;
      SharedMeansTwo(sorted, sorted[i].position);
      CountSorted(events, sorted[i].position);
      SharedMeansTwo(events, sorted[i].position);
    }
  }

  /** In an ordered batch, neighbours tell whether two events share a position. */
  lemma NeighboursTell(sorted: seq<SourceEvent>)
    requires Ordered(sorted)
    ensures (exists i :: 0 < i < |sorted| && sorted[i - 1].position == sorted[i].position) <==> SamePosition(sorted)
  {
    if SamePosition(sorted) {
      var i, j :| 0 <= i < j < |sorted| && sorted[i].position == sorted[j].position;
      assert sorted[i].position <= sorted[j - 1].position <= sorted[j].position;
    }
  }

  lemma RunIsRight(t: Tables, read: (int, int) -> Option<seq<SourceEvent>>, scope: string, watermark: Option<int>,
                   overlap: int, limit: int, troubles: nat -> Trouble)
    ensures RanRightly(t, read, scope, watermark, overlap, limit, Reconcile(t, read, scope, watermark, overlap, limit, troubles))
  {
    hide HandleAll, SortByPosition, SamePosition, Below;
    if scope != "" && overlap >= 0 && limit > 0 && Begin(t, scope, watermark).Finished? {
      var p := Begin(t, scope, watermark).progress;
      var start := WindowStart(p.cursor, overlap);
      assert StartsFrom(t, p.tables, scope, watermark, p.cursor);
      if read(start, limit).Some? {
        var events := read(start, limit).value;
        SortIsRight(events);
        assert |SortByPosition(events)| == |multiset(SortByPosition(events))| == |multiset(events)| == |events|;
        NeighboursTell(SortByPosition(events));
        SortKeepsShared(events);
        SameElements(events, SortByPosition(events), start);
        BelowSorted(events, start);
      }
      var outcome := Reconcile(t, read, scope, watermark, overlap, limit, troubles);
      assert AnswersRightly(p.tables, read, p.cursor, overlap, limit, outcome);
    }
  }

  lemma BelowSorted(events: seq<SourceEvent>, start: int)
    ensures Below(SortByPosition(events), start) <==>
      exists i :: 0 <= i < |SortByPosition(events)| && SortByPosition(events)[i].position <= start
  {
  }
}
