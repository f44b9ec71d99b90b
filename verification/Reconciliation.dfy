/**
 Cursor-driven reconciliation of a history source into the watched-event ledger.
 Ingestion and the cursor are separate commits; a run re-reads an overlap window
 below its cursor and may fail, or die, at either commit of any event.
 */
module Reconciliation {
  import opened Options
  import opened WatchedLedger

  /**
   One source row. `observation` is what normalization makes of the payload (None when it raises);
   `confirmId` is the id by which the overlap looks the event up.
   */
  datatype SourceEvent = SourceEvent(position: int, confirmId: Option<string>, observation: Option<Observation>)

  /** Trouble with one event: none, before its ingest commits, or between that and the cursor's commit. */
  datatype Trouble = NoTrouble | BeforeIngest | AfterIngest

  datatype Error = InvalidConfiguration | InvalidCursor | CursorNotInitialized | SourceReadFailed | OutsideWindow | DuplicatePositions

  datatype Progress = Progress(
    tables: Tables, cursor: int, processed: nat, created: nat, duplicates: nat, quarantined: nat, failed: Option<int>)

  datatype Outcome = Raised(tables: Tables, error: Error) | Finished(readCount: nat, progress: Progress)

  function CellOf(scope: string): Key {
    ("plex", scope)
  }

  function StoreCursor(t: Tables, scope: string, position: int): Tables {
    t.(cursors := t.cursors[CellOf(scope) := HistoryId(position)])
  }

  function Max(a: int, b: int): int {
    if a >= b then a else b
  }

  // ----- one event, one batch

  /** An event at or below the cursor is only confirmed; it is never imported. */
  function Confirm(p: Progress, event: SourceEvent): Progress {
    if event.confirmId.Some? && BySource(p.tables.events, ("plex", event.confirmId.value)).Some?
    then p.(processed := p.processed + 1, duplicates := p.duplicates + 1)
    else p
  }

  function Counted(p: Progress, r: Ingested): Progress {
    var q := p.(processed := p.processed + 1);
    match r
    case Created(_) => q.(created := q.created + 1)
    case Quarantined(_) => q.(quarantined := q.quarantined + 1)
    case DuplicateSource(_) => q.(duplicates := q.duplicates + 1)
    case DuplicateFingerprint(_) => q.(duplicates := q.duplicates + 1)
    case EchoSuppressed(_) => q.(duplicates := q.duplicates + 1)
    case _ => q
  }

  function Handle(p: Progress, scope: string, event: SourceEvent, trouble: Trouble): Progress {
    if event.position <= p.cursor then Confirm(p, event)
    else if event.observation.None? || trouble.BeforeIngest? then p.(failed := Some(event.position))
    else
      var (t', r) := Ingest(p.tables, event.observation.value);
      if r.Refused? || trouble.AfterIngest? then p.(tables := t', failed := Some(event.position))
      else Counted(p.(tables := StoreCursor(t', scope, event.position), cursor := event.position), r)
  }

  function HandleAll(p: Progress, scope: string, events: seq<SourceEvent>, troubles: nat -> Trouble, k: nat): Progress
    requires k <= |events|
    decreases |events| - k
  {
    if k == |events| || p.failed.Some? then p
    else HandleAll(Handle(p, scope, events[k], troubles(k)), scope, events, troubles, k + 1)
  }

  // ----- sorting what the source returned

  function Insert(event: SourceEvent, sorted: seq<SourceEvent>): seq<SourceEvent> {
    if sorted == [] || event.position <= sorted[0].position then [event] + sorted
    else [sorted[0]] + Insert(event, sorted[1..])
  }

  function SortByPosition(events: seq<SourceEvent>): seq<SourceEvent> {
    if events == [] then [] else Insert(events[0], SortByPosition(events[1..]))
  }

  predicate Increasing(events: seq<SourceEvent>) {
    forall i, j :: 0 <= i < j < |events| ==> events[i].position < events[j].position
  }

  lemma {:induction false} IncreasingIsSorted(events: seq<SourceEvent>)
    requires Increasing(events)
    ensures SortByPosition(events) == events
  {
    if events != [] {
      IncreasingIsSorted(events[1..]);
    }
  }

  // ----- a run

  function Begin(t: Tables, scope: string, watermark: Option<int>): Outcome {
    if CellOf(scope) in t.cursors then
      if t.cursors[CellOf(scope)].HistoryId? && t.cursors[CellOf(scope)].value >= 0
      then Finished(0, Progress(t, t.cursors[CellOf(scope)].value, 0, 0, 0, 0, None))
      else Raised(t, InvalidCursor)
    else if watermark.None? || watermark.value < 0 then Raised(t, CursorNotInitialized)
    else Finished(0, Progress(StoreCursor(t, scope, watermark.value), watermark.value, 0, 0, 0, 0, None))
  }

  function WindowStart(cursor: int, overlap: int): int {
    Max(0, cursor - overlap)
  }

  /** `read` is the source: what it returns for a start and a limit, or None when it raises. */
  function Reconcile(t: Tables, read: (int, int) -> Option<seq<SourceEvent>>, scope: string, watermark: Option<int>,
                     overlap: int, limit: int, troubles: nat -> Trouble): Outcome
  {
    if scope == "" || overlap < 0 || limit <= 0 then Raised(t, InvalidConfiguration)
    else
      var begun := Begin(t, scope, watermark);
      if begun.Raised? then begun
      else
        var p := begun.progress;
        var start := WindowStart(p.cursor, overlap);
        var answer := read(start, limit);
        if answer.None? then Raised(p.tables, SourceReadFailed)
        else
          var events := SortByPosition(answer.value);
          if exists i :: 0 <= i < |events| && events[i].position <= start then Raised(p.tables, OutsideWindow)
          else if exists i :: 0 < i < |events| && events[i - 1].position == events[i].position
          then Raised(p.tables, DuplicatePositions)
          else Finished(|events|, HandleAll(p, scope, events, troubles, 0))
  }

  function After(outcome: Outcome): Tables {
    if outcome.Raised? then outcome.tables else outcome.progress.tables
  }

  // ----- the history source

  /** How many rows of an increasing source lie at or below a position. */
  function Upto(rows: seq<SourceEvent>, position: int): (n: nat)
    requires Increasing(rows)
    ensures n <= |rows|
    ensures forall i :: 0 <= i < |rows| ==> (rows[i].position <= position <==> i < n)
  {
    if rows == [] then 0
    else if rows[|rows| - 1].position <= position then |rows|
    else Upto(rows[..|rows| - 1], position)
  }

  function Min(a: int, b: int): int {
    if a <= b then a else b
  }

  /** `read_after`: the lowest `limit` rows above a position, in order. */
  function ReadAfter(rows: seq<SourceEvent>, position: int, limit: int): seq<SourceEvent>
    requires Increasing(rows) && limit > 0
  {
    var first := Upto(rows, position);
    rows[first..Min(|rows|, first + limit)]
  }

  function SourceOf(rows: seq<SourceEvent>): (int, int) -> Option<seq<SourceEvent>>
    requires Increasing(rows)
  {
    (position, limit) => if limit > 0 then Some(ReadAfter(rows, position, limit)) else None
  }

  // ----- the ledger as a fold

  function FoldRows(t: Tables, rows: seq<SourceEvent>): Tables
    decreases |rows|
  {
    if rows == [] then t
    else
      var last := rows[|rows| - 1];
      var before := FoldRows(t, rows[..|rows| - 1]);
      if last.observation.None? then before else Ingest(before, last.observation.value).0
  }

  /** The tables apart from this scope's cursor. */
  function Body(t: Tables, scope: string): Tables {
    t.(cursors := t.cursors - {CellOf(scope)})
  }

  /** No boundary is kept in this scope's own cell: the cell is absent or holds a history cursor. */
  predicate OwnCell(t: Tables, scope: string) {
    CellOf(scope) in t.cursors ==> t.cursors[CellOf(scope)].HistoryId?
  }

  lemma BodyIngest(t: Tables, scope: string, o: Observation)
    requires OwnCell(t, scope)
    ensures Body(Ingest(t, o).0, scope) == Ingest(Body(t, scope), o).0
    ensures Ingest(t, o).1 == Ingest(Body(t, scope), o).1
  {
    assert SuppressedByBoundary(t, o) <==> SuppressedByBoundary(Body(t, scope), o);
  }
}
