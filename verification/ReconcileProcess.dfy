/** The reconciliation loop as code, over the tables. */
module ReconcileProcess {
  import opened Options
  import opened MediaDatabase
  import opened Reconciliation
  import S = ReconcileSteps
  import I = Ingestion
  import N = ReconciliationRuns
  import L = WatchedLedger

  method StoreCursorCell(media: Media, scope: string, position: int)
    requires media.Valid()
    modifies media`cursors, media`trace
    ensures media.Tables() == StoreCursor(old(media.Tables()), scope, position)
    ensures media.Valid() && old(media.trace) <= media.trace
  {
    media.SetCursor(CellOf(scope), L.HistoryId(position));
  }

  /** The stored cursor, or else the initial watermark, which is stored first. */
  method StartingCursor(media: Media, scope: string, watermark: Option<int>) returns (cursor: int, error: Option<Error>)
    requires media.Valid()
    modifies media`cursors, media`trace
    ensures media.Valid() && old(media.trace) <= media.trace
    ensures Begin(old(media.Tables()), scope, watermark) ==
      if error.Some? then Raised(media.Tables(), error.value)
      else Finished(0, Progress(media.Tables(), cursor, 0, 0, 0, 0, None))
  {
    if CellOf(scope) in media.cursors {
      var cell := media.cursors[CellOf(scope)];
      if !cell.HistoryId? || cell.value < 0 {
        return 0, Some(InvalidCursor);
      }
      return cell.value, None;
    }
    if watermark.None? || watermark.value < 0 {
      return 0, Some(CursorNotInitialized);
    }
    StoreCursorCell(media, scope, watermark.value);
    return watermark.value, None;
  }

  method ReconcileTautulli(media: Media, read: (int, int) -> Option<seq<SourceEvent>>, scope: string, watermark: Option<int>,
                           overlap: int, limit: int, troubles: nat -> Trouble) returns (outcome: Outcome)
    requires media.Valid()
    modifies media`events, media`links, media`cursors, media`trace
    ensures media.Valid() && old(media.trace) <= media.trace
    ensures outcome == Reconcile(old(media.Tables()), read, scope, watermark, overlap, limit, troubles)
    ensures media.Tables() == After(outcome)
    ensures S.RanRightly(old(media.Tables()), read, scope, watermark, overlap, limit, outcome)
  {
    S.RunIsRight(media.Tables(), read, scope, watermark, overlap, limit, troubles);
    hide S.RanRightly, Begin, SortByPosition, HandleAll, N.Tallied, L.NoBoundary;
    if scope == "" || overlap < 0 || limit <= 0 {
      return Raised(media.Tables(), InvalidConfiguration);
    }
    var cursor, error := StartingCursor(media, scope, watermark);
    if error.Some? {
      return Raised(media.Tables(), error.value);
    }
    var start := WindowStart(cursor, overlap);
    var answer := read(start, limit);
    if answer.None? {
      return Raised(media.Tables(), SourceReadFailed);
    }
    var events := SortByPosition(answer.value);
    if exists i :: 0 <= i < |events| && events[i].position <= start {
      return Raised(media.Tables(), OutsideWindow);
    }
    if exists i :: 0 < i < |events| && events[i - 1].position == events[i].position {
      return Raised(media.Tables(), DuplicatePositions);
    }
    var progress := HandleBatch(media, scope, cursor, events, troubles);
    outcome := Finished(|events|, progress);
  }

  /** One event of a batch. */
  method HandleOne(media: Media, scope: string, p: Progress, event: SourceEvent, trouble: Trouble) returns (p': Progress)
    requires p.tables == media.Tables() && media.Valid()
    modifies media`events, media`links, media`cursors, media`trace
    ensures media.Valid() && old(media.trace) <= media.trace
    ensures p' == Handle(p, scope, event, trouble) && p'.tables == media.Tables()
    ensures S.HandledRightly(p, p', scope, event, trouble)
  {
    assert L.TablesInv(p.tables) by { media.Sound(); }
    S.HandleIsRight(p, scope, event, trouble);
    hide S.HandledRightly, I.IngestedRightly, L.Ingest, L.BySource, L.TablesInv;
    p' := p;
    if event.position <= p.cursor {
      if event.confirmId.Some? && L.BySource(media.events, ("plex", event.confirmId.value)).Some? {
        p' := p.(processed := p.processed + 1, duplicates := p.duplicates + 1);
      }
    } else if event.observation.None? || trouble.BeforeIngest? {
      p' := p.(failed := Some(event.position));
    } else {
      p' := ImportOne(media, scope, p, event.position, event.observation.value, trouble);
    }
  }

  /** Ingest, advance the cursor, count: two commits, and the trouble may fall between them. */
  method ImportOne(media: Media, scope: string, p: Progress, position: int, o: L.Observation, trouble: Trouble)
    returns (p': Progress)
    requires p.tables == media.Tables() && media.Valid() && p.cursor < position && !trouble.BeforeIngest?
    modifies media`events, media`links, media`cursors, media`trace
    ensures media.Valid() && old(media.trace) <= media.trace
    ensures p' == Handle(p, scope, SourceEvent(position, None, Some(o)), trouble) && p'.tables == media.Tables()
  {
    hide I.IngestedRightly, L.Ingest, L.TablesInv;
    var result := media.IngestObservation(o);
    if result.Refused? || trouble.AfterIngest? {
      return p.(tables := media.Tables(), failed := Some(position));
    }
    StoreCursorCell(media, scope, position);
    var processed, created, duplicates, quarantined := p.processed + 1, p.created, p.duplicates, p.quarantined;
    match result {
      case Created(_) => created := created + 1;
      case Quarantined(_) => quarantined := quarantined + 1;
      case DuplicateSource(_) => duplicates := duplicates + 1;
      case DuplicateFingerprint(_) => duplicates := duplicates + 1;
      case EchoSuppressed(_) => duplicates := duplicates + 1;
      case BoundarySuppressed =>
    }
    p' := Progress(media.Tables(), position, processed, created, duplicates, quarantined, p.failed);
  }

  /** The loop over one batch: confirm what the cursor covers, import the rest one commit at a time, stop at the first failure. */
  method HandleBatch(media: Media, scope: string, from: int, events: seq<SourceEvent>, troubles: nat -> Trouble) returns (end: Progress)
    requires media.Valid()
    modifies media`events, media`links, media`cursors, media`trace
    ensures media.Valid() && old(media.trace) <= media.trace
    ensures end == HandleAll(Progress(old(media.Tables()), from, 0, 0, 0, 0, None), scope, events, troubles, 0)
    ensures media.Tables() == end.tables
    ensures L.NoBoundary(old(media.Tables())) ==>
      var start := Progress(old(media.Tables()), from, 0, 0, 0, 0, None);
      N.Tallied(start, end, 0) || (end.failed.Some? && N.Tallied(start, end, 1))
  {
    hide Handle;
    if L.NoBoundary(media.Tables()) {
      N.CountsAreConserved(Progress(media.Tables(), from, 0, 0, 0, 0, None), scope, events, troubles, 0);
    }
    hide N.Tallied, L.NoBoundary;
    end := Progress(media.Tables(), from, 0, 0, 0, 0, None);
    ghost var start := end;
    var k := 0;
    while k < |events| && end.failed.None?
      invariant 0 <= k <= |events| && end.tables == media.Tables()
      invariant media.Valid() && old(media.trace) <= media.trace
      invariant HandleAll(start, scope, events, troubles, 0) == HandleAll(end, scope, events, troubles, k)
      decreases |events| - k
    {
      end := HandleOne(media, scope, end, events[k], troubles(k));
      k := k + 1;
    }
  }
}
