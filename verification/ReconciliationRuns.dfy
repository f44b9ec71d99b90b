/** What reconciliation amounts to over any sequence of runs, failures and crashes. */
module ReconciliationRuns {
  import opened Options
  import opened WatchedLedger
  import opened Reconciliation

  datatype World = World(rows: seq<SourceEvent>, tables: Tables)

  /** The source grows at its end; a run happens, whose read may fail and whose events may meet trouble. */
  datatype Move =
    | Append(more: seq<SourceEvent>)
    | RunOnce(overlap: int, limit: int, readFails: bool, troubles: nat -> Trouble)

  function Read(rows: seq<SourceEvent>, fails: bool): (int, int) -> Option<seq<SourceEvent>>
    requires Increasing(rows)
  {
    if fails then (position, limit) => None else SourceOf(rows)
  }

  function Next(s: World, scope: string, watermark: int, m: Move): World
    requires Increasing(s.rows)
    ensures Increasing(Next(s, scope, watermark, m).rows)
  {
    match m
    case Append(more) => if Increasing(s.rows + more) then s.(rows := s.rows + more) else s
    case RunOnce(overlap, limit, readFails, troubles) =>
      s.(tables := After(Reconcile(s.tables, Read(s.rows, readFails), scope, Some(watermark), overlap, limit, troubles)))
  }

  function Run(s: World, scope: string, watermark: int, moves: seq<Move>): World
    requires Increasing(s.rows)
    ensures Increasing(Run(s, scope, watermark, moves).rows)
    decreases |moves|
  {
    if moves == [] then s else Run(Next(s, scope, watermark, moves[0]), scope, watermark, moves[1..])
  }

  /** The first n rows are exactly those at or below the position. */
  predicate IsCut(rows: seq<SourceEvent>, n: nat, position: int) {
    && n <= |rows|
    && (forall i :: 0 <= i < n ==> rows[i].position <= position)
    && (forall i :: n <= i < |rows| ==> rows[i].position > position)
  }

  predicate AllNormalize(rows: seq<SourceEvent>) {
    forall i :: 0 <= i < |rows| ==> rows[i].observation.Some?
  }

  /** The ledger is the fold of rows a..b, or of those and the one after them. */
  predicate Synced(base: Tables, rows: seq<SourceEvent>, a: nat, b: nat, body: Tables) {
    && a <= b <= |rows|
    && AllNormalize(rows[a..b])
    && (body == FoldRows(base, rows[a..b])
        || (b < |rows| && rows[b].observation.Some? && body == FoldRows(base, rows[a..b + 1])))
  }

  predicate CursorIs(t: Tables, scope: string, cursor: int) {
    CellOf(scope) in t.cursors && t.cursors[CellOf(scope)] == HistoryId(cursor)
  }

  /** The cursor stands at its initial watermark or at a row. */
  predicate AtRow(rows: seq<SourceEvent>, watermark: int, b: nat, cursor: int) {
    && IsCut(rows, b, cursor)
    && watermark <= cursor
    && (cursor == watermark || (b > 0 && rows[b - 1].position == cursor))
  }

  predicate ProgressInv(base: Tables, rows: seq<SourceEvent>, scope: string, watermark: int, a: nat, b: nat, p: Progress) {
    && TablesInv(p.tables) && CursorIs(p.tables, scope, p.cursor)
    && AtRow(rows, watermark, b, p.cursor)
    && Synced(base, rows, a, b, Body(p.tables, scope))
  }

  lemma {:induction false} FoldKeepsTables(base: Tables, rows: seq<SourceEvent>)
    requires TablesInv(base)
    ensures TablesInv(FoldRows(base, rows))
    ensures base.events <= FoldRows(base, rows).events
    decreases |rows|
  {
    if rows != [] {
      var last := rows[|rows| - 1];
      FoldKeepsTables(base, rows[..|rows| - 1]);
      if last.observation.Some? {
        IngestKeepsTables(FoldRows(base, rows[..|rows| - 1]), last.observation.value);
      }
    }
  }

  /** Ingesting the next row takes either kind of ledger to the fold that includes it. */
  lemma NextRow(base: Tables, rows: seq<SourceEvent>, a: nat, b: nat, body: Tables)
    requires TablesInv(base) && Synced(base, rows, a, b, body)
    requires b < |rows| && rows[b].observation.Some?
    ensures Ingest(body, rows[b].observation.value).0 == FoldRows(base, rows[a..b + 1])
  {
    var o := rows[b].observation.value;
    assert rows[a..b + 1][..b - a] == rows[a..b];
    assert FoldRows(base, rows[a..b + 1]) == Ingest(FoldRows(base, rows[a..b]), o).0;
    FoldKeepsTables(base, rows[a..b]);
    IngestTwice(FoldRows(base, rows[a..b]), o);
  }

  /** One new event, whatever trouble it meets: the ledger stays in step with the cursor. */
  lemma NewEventKeepsInv(base: Tables, rows: seq<SourceEvent>, scope: string, watermark: int, a: nat, b: nat, p: Progress, trouble: Trouble)
    requires TablesInv(base) && Increasing(rows) && ProgressInv(base, rows, scope, watermark, a, b, p) && p.failed.None?
    requires b < |rows|
    ensures var p' := Handle(p, scope, rows[b], trouble);
      ProgressInv(base, rows, scope, watermark, a, if p'.failed.None? then b + 1 else b, p')
  {
    hide Ingest, TablesInv, FoldRows;
    var event := rows[b];
    if event.observation.Some? && !trouble.BeforeIngest? {
      var o := event.observation.value;
      var (t', r) := Ingest(p.tables, o);
      var body := Body(p.tables, scope);
      IngestKeepsTables(p.tables, o);
      RefusalsAreHarmless(p.tables, o);
      BodyIngest(p.tables, scope, o);
      NextRow(base, rows, a, b, body);
      assert Body(t', scope) == FoldRows(base, rows[a..b + 1]);
      if !r.Refused? && !trouble.AfterIngest? {
        NewCursor(base, rows, scope, a, b, t');
      }
    }
  }

  lemma NewCursor(base: Tables, rows: seq<SourceEvent>, scope: string, a: nat, b: nat, t: Tables)
    requires Increasing(rows) && TablesInv(t) && a <= b < |rows| && AllNormalize(rows[a..b]) && rows[b].observation.Some?
    requires Body(t, scope) == FoldRows(base, rows[a..b + 1])
    ensures var t' := StoreCursor(t, scope, rows[b].position);
      && TablesInv(t') && CursorIs(t', scope, rows[b].position)
      && IsCut(rows, b + 1, rows[b].position)
      && Synced(base, rows, a, b + 1, Body(t', scope))
  {
    assert Body(StoreCursor(t, scope, rows[b].position), scope) == Body(t, scope);
    assert rows[a..b + 1] == rows[a..b] + [rows[b]];
  }

  /** A batch read from an increasing source: `first + k` is where the loop stands in the source. */
  lemma {:induction false} BatchKeepsInv(base: Tables, rows: seq<SourceEvent>, scope: string, watermark: int, a: nat, b: nat, p: Progress,
                                         first: nat, last: nat, troubles: nat -> Trouble, k: nat) returns (b': nat)
    requires TablesInv(base) && Increasing(rows) && ProgressInv(base, rows, scope, watermark, a, b, p)
    requires first + k <= last <= |rows|
    requires p.failed.None? ==> first + k <= b
    ensures ProgressInv(base, rows, scope, watermark, a, b', HandleAll(p, scope, rows[first..last], troubles, k))
    ensures b <= b'
    decreases last - k
  {
    hide Ingest, TablesInv, Synced, Body;
    b' := b;
    if first + k < last && p.failed.None? {
      var event := rows[first..last][k];
      assert event == rows[first + k];
      var p' := Handle(p, scope, event, troubles(k));
      if first + k == b {
        NewEventKeepsInv(base, rows, scope, watermark, a, b, p, troubles(k));
        b' := BatchKeepsInv(base, rows, scope, watermark, a, if p'.failed.None? then b + 1 else b, p', first, last, troubles, k + 1);
      } else {
        assert p' == Confirm(p, event);
        b' := BatchKeepsInv(base, rows, scope, watermark, a, b, p', first, last, troubles, k + 1);
      }
    }
  }

  predicate Ready(t0: Tables, scope: string, watermark: int) {
    TablesInv(t0) && CellOf(scope) !in t0.cursors && watermark >= 0
  }

  predicate Reconciled(t0: Tables, scope: string, watermark: int, s: World, cursor: int, a: nat, b: nat) {
    && TablesInv(s.tables) && CursorIs(s.tables, scope, cursor)
    && IsCut(s.rows, a, watermark) && AtRow(s.rows, watermark, b, cursor)
    && Synced(t0, s.rows, a, b, Body(s.tables, scope))
  }

  ghost predicate WorldInv(t0: Tables, scope: string, watermark: int, s: World) {
    s.tables == t0 || exists cursor, a: nat, b: nat :: Reconciled(t0, scope, watermark, s, cursor, a, b)
  }

  /** A run that begins from a reconciled state ends in one. */
  lemma BegunKeepsInv(t0: Tables, scope: string, watermark: int, rows: seq<SourceEvent>, m: Move, p: Progress, a: nat, b: nat)
    requires TablesInv(t0) && Increasing(rows) && m.RunOnce? && m.overlap >= 0 && m.limit > 0 && !m.readFails
    requires p.failed.None? && p.cursor >= 0
    requires ProgressInv(t0, rows, scope, watermark, a, b, p) && IsCut(rows, a, watermark)
    ensures var events := ReadAfter(rows, WindowStart(p.cursor, m.overlap), m.limit);
      exists b': nat :: ProgressInv(t0, rows, scope, watermark, a, b', HandleAll(p, scope, events, m.troubles, 0))
  {
    var start := WindowStart(p.cursor, m.overlap);
    var first := Upto(rows, start);
    assert b < |rows| ==> rows[b].position > p.cursor >= start;
    var last := Min(|rows|, first + m.limit);
    var b' := BatchKeepsInv(t0, rows, scope, watermark, a, b, p, first, last, m.troubles, 0);
    assert ReadAfter(rows, start, m.limit) == rows[first..last];
  }

  /** A run over a well-behaved source: begin, then handle what was read. */
  lemma RunShape(s: World, scope: string, watermark: int, m: Move, p: Progress)
    requires Increasing(s.rows) && m.RunOnce? && scope != "" && m.overlap >= 0 && m.limit > 0
    requires Begin(s.tables, scope, Some(watermark)) == Finished(0, p)
    ensures Next(s, scope, watermark, m).rows == s.rows
    ensures Next(s, scope, watermark, m).tables ==
      if m.readFails then p.tables
      else HandleAll(p, scope, ReadAfter(s.rows, WindowStart(p.cursor, m.overlap), m.limit), m.troubles, 0).tables
  {
    hide HandleAll;
    ReadOfIncreasing(s.rows, WindowStart(p.cursor, m.overlap), m.limit);
  }

  lemma ReadOfIncreasing(rows: seq<SourceEvent>, start: int, limit: int)
    requires Increasing(rows) && limit > 0
    ensures var events := ReadAfter(rows, start, limit);
      && SortByPosition(events) == events
      && (forall i :: 0 <= i < |events| ==> events[i].position > start)
      && (forall i :: 0 < i < |events| ==> events[i - 1].position != events[i].position)
  {
    IncreasingIsSorted(ReadAfter(rows, start, limit));
  }

  lemma RunOnceKeepsInv(t0: Tables, scope: string, watermark: int, s: World, m: Move)
    requires Ready(t0, scope, watermark) && Increasing(s.rows) && WorldInv(t0, scope, watermark, s) && m.RunOnce?
    ensures WorldInv(t0, scope, watermark, Next(s, scope, watermark, m))
  {
    if scope == "" || m.overlap < 0 || m.limit <= 0 { return; }
    if s.tables == t0 {
      var a := Upto(s.rows, watermark);
      FirstCursor(t0, scope, watermark, s.rows);
      var p := Progress(StoreCursor(t0, scope, watermark), watermark, 0, 0, 0, 0, None);
      RunFrom(t0, scope, watermark, s, m, p, a, a);
    } else {
      var cursor, a: nat, b: nat :| Reconciled(t0, scope, watermark, s, cursor, a, b);
      RunFrom(t0, scope, watermark, s, m, Progress(s.tables, cursor, 0, 0, 0, 0, None), a, b);
    }
  }

  lemma RunFrom(t0: Tables, scope: string, watermark: int, s: World, m: Move, p: Progress, a: nat, b: nat)
    requires Ready(t0, scope, watermark) && Increasing(s.rows)
    requires m.RunOnce? && scope != "" && m.overlap >= 0 && m.limit > 0
    requires Begin(s.tables, scope, Some(watermark)) == Finished(0, p) && p.failed.None? && p.cursor >= 0
    requires IsCut(s.rows, a, watermark) && ProgressInv(t0, s.rows, scope, watermark, a, b, p)
    ensures WorldInv(t0, scope, watermark, Next(s, scope, watermark, m))
  {
    hide Reconcile, Begin, Ingest, TablesInv, Synced, HandleAll;
    RunShape(s, scope, watermark, m, p);
    var s' := Next(s, scope, watermark, m);
    if m.readFails {
      assert Reconciled(t0, scope, watermark, s', p.cursor, a, b);
    } else {
      BegunKeepsInv(t0, scope, watermark, s.rows, m, p, a, b);
      var p' := HandleAll(p, scope, ReadAfter(s.rows, WindowStart(p.cursor, m.overlap), m.limit), m.troubles, 0);
      var b': nat :| ProgressInv(t0, s.rows, scope, watermark, a, b', p');
      assert Reconciled(t0, scope, watermark, s', p'.cursor, a, b');
    }
  }

  lemma FirstCursor(t0: Tables, scope: string, watermark: int, rows: seq<SourceEvent>)
    requires Ready(t0, scope, watermark) && Increasing(rows)
    ensures var t := StoreCursor(t0, scope, watermark);
      var a := Upto(rows, watermark);
      && TablesInv(t) && CursorIs(t, scope, watermark)
      && IsCut(rows, a, watermark) && AtRow(rows, watermark, a, watermark)
      && Synced(t0, rows, a, a, Body(t, scope))
  {
    assert Body(StoreCursor(t0, scope, watermark), scope) == t0;
  }

  lemma CutOfLonger(rows: seq<SourceEvent>, more: seq<SourceEvent>, n: nat, position: int)
    requires Increasing(rows + more) && IsCut(rows, n, position)
    requires n < |rows| || (n > 0 && rows[n - 1].position == position)
    ensures IsCut(rows + more, n, position)
  {
    var rows' := rows + more;
    forall i | n <= i < |rows'| ensures rows'[i].position > position {
      if n < |rows| {
        assert rows'[n].position <= rows'[i].position;
      } else {
        assert rows'[n - 1].position < rows'[i].position;
      }
    }
  }

  lemma AppendKeepsInv(t0: Tables, scope: string, watermark: int, s: World, more: seq<SourceEvent>)
    requires Ready(t0, scope, watermark) && WorldInv(t0, scope, watermark, s)
    requires Increasing(s.rows) && Increasing(s.rows + more)
    ensures WorldInv(t0, scope, watermark, s.(rows := s.rows + more))
  {
    hide TablesInv;
    var s' := s.(rows := s.rows + more);
    if s.tables != t0 {
      var cursor, a: nat, b: nat :| Reconciled(t0, scope, watermark, s, cursor, a, b);
      if cursor == watermark && b == |s.rows| {
        CutIsUpto(s.rows, a, watermark);
        CutIsUpto(s.rows, b, watermark);
        assert s.rows[a..b] == [];
        var a' := Upto(s'.rows, watermark);
        assert s'.rows[a'..a'] == [];
        assert Reconciled(t0, scope, watermark, s', cursor, a', a');
      } else {
        AppendKeepsSync(t0, s.rows, more, a, b, Body(s.tables, scope));
        CutOfLonger(s.rows, more, b, cursor);
        CutOfLonger(s.rows, more, a, watermark);
        assert Reconciled(t0, scope, watermark, s', cursor, a, b);
      }
    }
  }

  lemma AppendKeepsSync(base: Tables, rows: seq<SourceEvent>, more: seq<SourceEvent>, a: nat, b: nat, body: Tables)
    requires Synced(base, rows, a, b, body)
    ensures Synced(base, rows + more, a, b, body)
  {
    hide FoldRows;
    assert (rows + more)[a..b] == rows[a..b];
    if b < |rows| {
      assert (rows + more)[a..b + 1] == rows[a..b + 1];
    }
  }

  lemma {:induction false} RunKeepsInv(t0: Tables, scope: string, watermark: int, s: World, moves: seq<Move>)
    requires Ready(t0, scope, watermark) && Increasing(s.rows) && WorldInv(t0, scope, watermark, s)
    ensures WorldInv(t0, scope, watermark, Run(s, scope, watermark, moves))
    decreases |moves|
  {
    if moves != [] {
      var m := moves[0];
      if m.RunOnce? {
        RunOnceKeepsInv(t0, scope, watermark, s, m);
      } else if Increasing(s.rows + m.more) {
        AppendKeepsInv(t0, scope, watermark, s, m.more);
      }
      RunKeepsInv(t0, scope, watermark, Next(s, scope, watermark, m), moves[1..]);
    }
  }

  /** The tables are `t0` plus the fold of ingestion over the rows in (watermark, cursor], or those and exactly the next. */
  predicate FoldedTo(t0: Tables, scope: string, watermark: int, s: World, cursor: int)
    requires Increasing(s.rows)
  {
    var a, b := Upto(s.rows, watermark), Upto(s.rows, cursor);
    && CursorIs(s.tables, scope, cursor) && watermark <= cursor
    && a <= b && AllNormalize(s.rows[a..b])
    && (|| Body(s.tables, scope) == FoldRows(t0, s.rows[a..b])
        || (b < |s.rows| && Body(s.tables, scope) == FoldRows(t0, s.rows[a..b + 1])))
  }

  lemma ReconciledIsFolded(t0: Tables, scope: string, watermark: int, s: World, cursor: int, a: nat, b: nat)
    requires Increasing(s.rows) && Reconciled(t0, scope, watermark, s, cursor, a, b)
    ensures FoldedTo(t0, scope, watermark, s, cursor)
  {
    hide FoldRows, TablesInv, AllNormalize, Upto, CursorIs, Body;
    CutIsUpto(s.rows, a, watermark);
    CutIsUpto(s.rows, b, cursor);
  }

  /**
   Crash-equivalence: after any runs, failures and crashes over a growing source, the ledger is the one it started
   from plus the fold of ingestion over the rows in (watermark, cursor], or over those and exactly the next row;
   and every one of those rows could be normalized.
   */
  lemma CrashEquivalence(t0: Tables, scope: string, watermark: int, rows: seq<SourceEvent>, moves: seq<Move>)
    requires Ready(t0, scope, watermark) && Increasing(rows)
    ensures var s := Run(World(rows, t0), scope, watermark, moves);
      || s.tables == t0
      || exists cursor :: FoldedTo(t0, scope, watermark, s, cursor)
  {
    hide FoldedTo, Reconciled, Run, Ready;
    RunKeepsInv(t0, scope, watermark, World(rows, t0), moves);
    var s := Run(World(rows, t0), scope, watermark, moves);
    if s.tables != t0 {
      var cursor, a: nat, b: nat :| Reconciled(t0, scope, watermark, s, cursor, a, b);
      ReconciledIsFolded(t0, scope, watermark, s, cursor, a, b);
    }
  }

  lemma CutIsUpto(rows: seq<SourceEvent>, n: nat, position: int)
    requires Increasing(rows) && IsCut(rows, n, position)
    ensures n == Upto(rows, position)
  {
    assert n < |rows| ==> rows[n].position > position;
    assert n > 0 ==> rows[n - 1].position <= position;
  }

  predicate IsRowOf(row: Row, event: SourceEvent) {
    event.observation.Some? && Valid(event.observation.value) && row == RowOf(event.observation.value)
  }

  lemma {:induction false} FoldImportsOnly(base: Tables, rows: seq<SourceEvent>, i: nat)
    requires |base.events| <= i < |FoldRows(base, rows).events|
    ensures exists k :: 0 <= k < |rows| && IsRowOf(FoldRows(base, rows).events[i], rows[k])
    decreases |rows|
  {
    var last := |rows| - 1;
    var before := FoldRows(base, rows[..last]);
    if i < |before.events| {
      FoldImportsOnly(base, rows[..last], i);
      var k :| 0 <= k < last && IsRowOf(before.events[i], rows[..last][k]);
      assert rows[k] == rows[..last][k];
    } else {
      assert IsRowOf(FoldRows(base, rows).events[i], rows[last]);
    }
  }

  /** Nothing at or below the initial watermark is ever imported: each new event is the row of a source event above it. */
  lemma NothingOldIsImported(t0: Tables, scope: string, watermark: int, rows: seq<SourceEvent>, moves: seq<Move>, i: nat)
    requires Ready(t0, scope, watermark) && Increasing(rows)
    requires |t0.events| <= i < |Run(World(rows, t0), scope, watermark, moves).tables.events|
    ensures var s := Run(World(rows, t0), scope, watermark, moves);
      exists k :: 0 <= k < |s.rows| && s.rows[k].position > watermark && IsRowOf(s.tables.events[i], s.rows[k])
  {
    hide TablesInv, Run, FoldRows, IsRowOf, AllNormalize;
    RunKeepsInv(t0, scope, watermark, World(rows, t0), moves);
    var s := Run(World(rows, t0), scope, watermark, moves);
    var cursor, a: nat, b: nat :| Reconciled(t0, scope, watermark, s, cursor, a, b);
    var to := if Body(s.tables, scope) == FoldRows(t0, s.rows[a..b]) then b else b + 1;
    FoldImportsOnly(t0, s.rows[a..to], i);
    var k :| 0 <= k < to - a && IsRowOf(FoldRows(t0, s.rows[a..to]).events[i], s.rows[a..to][k]);
    assert s.rows[a + k] == s.rows[a..to][k];
  }

  // ----- counting

  /** How many events have no identity, and so are quarantined. */
  function Nameless(events: seq<Row>): (n: nat)
    ensures n <= |events|
  {
    if events == [] then 0
    else Nameless(events[..|events| - 1]) + (if events[|events| - 1].localId.None? then 1 else 0)
  }

  /** The counters say how many quarantined and how many identified events were added, up to the rows of a failed event. */
  predicate Tallied(p: Progress, q: Progress, uncounted: nat) {
    var quarantined, created := q.quarantined - p.quarantined, q.created - p.created;
    var nameless := Nameless(q.tables.events) - Nameless(p.tables.events);
    var named := |q.tables.events| - |p.tables.events| - nameless;
    && q.processed - p.processed == created + (q.duplicates - p.duplicates) + quarantined
    && (uncounted == 0 ==> nameless == quarantined && named == created)
    && (uncounted == 1 ==>
          (nameless == quarantined && named == created + 1) || (nameless == quarantined + 1 && named == created))
    && uncounted <= 1
  }

  /**
   Every new event of a batch is accounted for. The table grows by as many quarantined and as many identified events as
   the counters say, and by one more at most, the row of the event that failed.
   */
  lemma {:induction false} CountsAreConserved(p: Progress, scope: string, events: seq<SourceEvent>, troubles: nat -> Trouble, k: nat)
    requires k <= |events| && NoBoundary(p.tables)
    ensures var q := HandleAll(p, scope, events, troubles, k);
      && NoBoundary(q.tables)
      && (Tallied(p, q, 0) || (p.failed.None? && q.failed.Some? && Tallied(p, q, 1)))
      && (p.failed.Some? ==> q == p)
    decreases |events| - k
  {
    if k < |events| && p.failed.None? {
      hide Nameless, NoBoundary, Handle;
      CountOne(p, scope, events[k], troubles(k));
      CountsAreConserved(Handle(p, scope, events[k], troubles(k)), scope, events, troubles, k + 1);
    }
  }

  lemma NamelessOfLonger(events: seq<Row>, row: Row)
    ensures Nameless(events + [row]) == Nameless(events) + (if row.localId.None? then 1 else 0)
  {
    assert (events + [row])[..|events|] == events;
  }

  /** What one ingestion adds to the events. */
  lemma IngestAdds(t: Tables, o: Observation)
    ensures var (t', r) := Ingest(t, o);
      && t'.cursors == t.cursors
      && (r.Quarantined? ==> Nameless(t'.events) == Nameless(t.events) + 1 && |t'.events| == |t.events| + 1)
      && (r.Created? ==> Nameless(t'.events) == Nameless(t.events) && |t'.events| == |t.events| + 1)
      && (!r.Quarantined? && !r.Created? ==> t'.events == t.events)
      && (r.BoundarySuppressed? ==> Suppressed(t.cursors, o))
  {
    if o.watchedAt.Some? && o.provenance.Some? { NamelessOfLonger(t.events, RowOf(o)); }
    hide Nameless, Suppressed, BySource, ByFingerprint;
  }

  lemma CountOne(p: Progress, scope: string, event: SourceEvent, trouble: Trouble)
    requires NoBoundary(p.tables) && p.failed.None?
    ensures var q := Handle(p, scope, event, trouble);
      && NoBoundary(q.tables)
      && (Tallied(p, q, 0) || (q.failed.Some? && Tallied(p, q, 1)))
  {
    if event.observation.Some? { IngestAdds(p.tables, event.observation.value); }
    hide Nameless, Ingest;
  }

  // ----- progress

  predicate Healthy(rows: seq<SourceEvent>) {
    forall i :: 0 <= i < |rows| ==> rows[i].observation.Some? && Storable(rows[i].observation.value)
  }

  /** In a window of width w there are at most w distinct positions. */
  lemma {:induction false} Pigeonhole(rows: seq<SourceEvent>, low: nat, high: nat)
    requires Increasing(rows) && low < high <= |rows|
    ensures high - low <= rows[high - 1].position - rows[low].position + 1
    decreases high
  {
    if low < high - 1 {
      Pigeonhole(rows, low, high - 1);
    }
  }

  /** How many rows the overlap window re-reads. */
  function WindowSize(rows: seq<SourceEvent>, cursor: int, overlap: int): nat
    requires Increasing(rows) && cursor >= 0 && overlap >= 0
  {
    WindowFits(rows, cursor, overlap);
    Upto(rows, cursor) - Upto(rows, WindowStart(cursor, overlap))
  }

  lemma WindowFits(rows: seq<SourceEvent>, cursor: int, overlap: int)
    requires Increasing(rows) && cursor >= 0 && overlap >= 0
    ensures 0 <= Upto(rows, cursor) - Upto(rows, WindowStart(cursor, overlap)) <= overlap
  {
    var low, high := Upto(rows, WindowStart(cursor, overlap)), Upto(rows, cursor);
    assert high < |rows| ==> rows[high].position > cursor;
    if low < high {
      Pigeonhole(rows, low, high);
    }
  }

  /** A batch without trouble over a healthy source moves the cursor past every row it reached. */
  lemma {:induction false} CleanBatch(rows: seq<SourceEvent>, scope: string, p: Progress, b: nat, first: nat, last: nat, troubles: nat -> Trouble, k: nat)
    requires Increasing(rows) && Healthy(rows) && TablesInv(p.tables) && IsCut(rows, b, p.cursor) && p.failed.None?
    requires first + k <= last <= |rows| && first + k <= b
    requires forall i :: troubles(i).NoTrouble?
    ensures var q := HandleAll(p, scope, rows[first..last], troubles, k);
      && q.failed.None? && IsCut(rows, if b <= last then last else b, q.cursor) && q.cursor >= p.cursor
      && (b >= last ==> q.cursor == p.cursor)
    decreases last - k
  {
    hide Ingest, TablesInv, Storable;
    if first + k < last {
      var event := rows[first..last][k];
      assert event == rows[first + k];
      var q := Handle(p, scope, event, troubles(k));
      if first + k == b {
        CleanStep(p, scope, event, troubles(k));
        assert IsCut(rows, b + 1, q.cursor);
        CleanBatch(rows, scope, q, b + 1, first, last, troubles, k + 1);
      } else {
        assert q == Confirm(p, event);
        CleanBatch(rows, scope, q, b, first, last, troubles, k + 1);
      }
    }
  }

  lemma CleanStep(p: Progress, scope: string, event: SourceEvent, trouble: Trouble)
    requires TablesInv(p.tables) && p.failed.None? && trouble.NoTrouble?
    requires event.position > p.cursor && event.observation.Some? && Storable(event.observation.value)
    ensures var q := Handle(p, scope, event, trouble);
      q.failed.None? && q.cursor == event.position && TablesInv(q.tables)
  {
    hide Ingest, TablesInv, Storable;
    RefusalsAreHarmless(p.tables, event.observation.value);
    IngestKeepsTables(p.tables, event.observation.value);
    CursorKeepsTables(Ingest(p.tables, event.observation.value).0, scope, event.position);
  }

  lemma CursorKeepsTables(t: Tables, scope: string, position: int)
    requires TablesInv(t)
    ensures TablesInv(StoreCursor(t, scope, position)) && CursorIs(StoreCursor(t, scope, position), scope, position)
  {
  }

  lemma HandleKeepsTables(p: Progress, scope: string, event: SourceEvent, trouble: Trouble)
    requires TablesInv(p.tables) && CursorIs(p.tables, scope, p.cursor)
    ensures var q := Handle(p, scope, event, trouble);
      TablesInv(q.tables) && CursorIs(q.tables, scope, q.cursor)
  {
    hide Ingest, TablesInv;
    if event.observation.Some? {
      IngestKeepsTables(p.tables, event.observation.value);
      CursorKeepsTables(Ingest(p.tables, event.observation.value).0, scope, event.position);
    }
  }

  /** How many rows are still above the cursor. */
  function Remaining(rows: seq<SourceEvent>, cursor: int): nat
    requires Increasing(rows)
  {
    |rows| - Upto(rows, cursor)
  }

  /**
   Progress of one failure-free run: it handles as many new rows as the limit leaves room for beside the window, so it
   stalls exactly when there are new rows but the window alone fills the limit. With overlap < limit it never stalls.
   */
  lemma CleanRunProgress(s: World, scope: string, watermark: int, m: Move, cursor: int)
    requires Increasing(s.rows) && Healthy(s.rows) && TablesInv(s.tables)
    requires CursorIs(s.tables, scope, cursor) && cursor >= 0 && scope != ""
    requires m.RunOnce? && m.overlap >= 0 && m.limit > 0 && !m.readFails && forall i :: m.troubles(i).NoTrouble?
    ensures var s' := Next(s, scope, watermark, m);
      var window := WindowSize(s.rows, cursor, m.overlap);
      var news := Remaining(s.rows, cursor);
      exists cursor' ::
        && CursorIs(s'.tables, scope, cursor') && TablesInv(s'.tables) && cursor' >= cursor
        && news - Remaining(s.rows, cursor') == (if window >= m.limit then 0 else Min(news, m.limit - window))
        && (cursor' == cursor <==> news == 0 || window >= m.limit)
        && window <= m.overlap
  {
    hide TablesInv, Healthy;
    var b := Upto(s.rows, cursor);
    var p := Progress(s.tables, cursor, 0, 0, 0, 0, None);
    var start := WindowStart(cursor, m.overlap);
    var first := Upto(s.rows, start);
    var last := Min(|s.rows|, first + m.limit);
    WindowFits(s.rows, cursor, m.overlap);
    RunShape(s, scope, watermark, m, p);
    CleanBatch(s.rows, scope, p, b, first, last, m.troubles, 0);
    CleanBatchTables(s.rows, scope, p, first, last, m.troubles, 0);
    assert ReadAfter(s.rows, start, m.limit) == s.rows[first..last];
    var q := HandleAll(p, scope, s.rows[first..last], m.troubles, 0);
    CutIsUpto(s.rows, if b <= last then last else b, q.cursor);
    assert CursorIs(Next(s, scope, watermark, m).tables, scope, q.cursor);
    if b < last {
      assert s.rows[b].position > cursor;
    }
  }

  lemma {:induction false} CleanBatchTables(rows: seq<SourceEvent>, scope: string, p: Progress, first: nat, last: nat, troubles: nat -> Trouble, k: nat)
    requires first + k <= last <= |rows| && TablesInv(p.tables) && CursorIs(p.tables, scope, p.cursor)
    ensures var q := HandleAll(p, scope, rows[first..last], troubles, k);
      TablesInv(q.tables) && CursorIs(q.tables, scope, q.cursor)
    decreases last - k
  {
    hide TablesInv, Ingest;
    if first + k < last && p.failed.None? {
      var event := rows[first..last][k];
      HandleKeepsTables(p, scope, event, troubles(k));
      CleanBatchTables(rows, scope, Handle(p, scope, event, troubles(k)), first, last, troubles, k + 1);
    }
  }

  lemma OneMore(q: nat, d: nat)
    ensures (q + 1) * d == q * d + d && (q - 1) * d == q * d - d && 1 * d == d
  {
  }

  /** n / d rounded up. */
  function Ceil(n: nat, d: nat): (q: nat)
    requires d > 0
    ensures n <= q * d && (q > 0 ==> (q - 1) * d < n)
    decreases n
  {
    if n == 0 then 0 else if n <= d then 1 else
      var q := Ceil(n - d, d);
      OneMore(q, d);
      q + 1
  }

  lemma {:induction false} CeilMonotone(m: nat, n: nat, d: nat)
    requires d > 0 && m <= n
    ensures Ceil(m, d) <= Ceil(n, d)
    decreases n
  {
    if m > d {
      CeilMonotone(m - d, n - d, d);
    }
  }

  ghost predicate CleanRuns(moves: seq<Move>, overlap: int, limit: int) {
    forall i :: 0 <= i < |moves| ==>
      moves[i].RunOnce? && moves[i].overlap == overlap && moves[i].limit == limit && !moves[i].readFails &&
      forall k :: moves[i].troubles(k).NoTrouble?
  }

  /** With overlap < limit, n waiting rows are all handled after ceil(n / (limit - overlap)) failure-free runs. */
  lemma {:induction false} BacklogDrains(s: World, scope: string, watermark: int, moves: seq<Move>, overlap: int, limit: int, cursor: int)
    requires Increasing(s.rows) && Healthy(s.rows) && TablesInv(s.tables)
    requires CursorIs(s.tables, scope, cursor) && cursor >= 0 && scope != ""
    requires 0 <= overlap < limit && CleanRuns(moves, overlap, limit)
    requires |moves| >= Ceil(Remaining(s.rows, cursor), limit - overlap)
    ensures var s' := Run(s, scope, watermark, moves);
      s'.rows == s.rows && exists cursor' :: CursorIs(s'.tables, scope, cursor') && Remaining(s.rows, cursor') == 0
    decreases |moves|
  {
    hide TablesInv, CursorIs, Next, WindowSize, Remaining, Healthy, Increasing, Ceil;
    var n := Remaining(s.rows, cursor);
    NoRunsForNothing(n, limit - overlap);
    if moves != [] {
      CleanRunProgress(s, scope, watermark, moves[0], cursor);
      var s1 := Next(s, scope, watermark, moves[0]);
      var window := WindowSize(s.rows, cursor, overlap);
      var cursor1 :| CursorIs(s1.tables, scope, cursor1) && cursor1 >= cursor && TablesInv(s1.tables)
        && n - Remaining(s.rows, cursor1) == Min(n, limit - window);
      OneRunLess(n, Remaining(s.rows, cursor1), limit - overlap);
      SameRows(s, scope, watermark, moves[0]);
      BacklogDrains(s1, scope, watermark, moves[1..], overlap, limit, cursor1);
    }
  }

  lemma SameRows(s: World, scope: string, watermark: int, m: Move)
    requires Increasing(s.rows) && m.RunOnce?
    ensures Next(s, scope, watermark, m).rows == s.rows
  {
  }

  lemma NoRunsForNothing(n: nat, d: nat)
    requires d > 0
    ensures Ceil(n, d) == 0 <==> n == 0
  {
  }

  /** Handling d of n rows, or all of them, leaves one run less to do. */
  lemma OneRunLess(n: nat, left: nat, d: nat)
    requires d > 0 && left <= n && (left == 0 || n - left >= d)
    ensures Ceil(left, d) <= if n == 0 then 0 else Ceil(n, d) - 1
  {
    if left > 0 {
      CeilMonotone(left, n - d, d);
    }
  }

  /** With the overlap as large as the limit a run may see nothing but its own window, for ever. */
  lemma OverlapCanStall(t: Tables, o: Observation, troubles: nat -> Trouble)
    ensures var rows := [SourceEvent(5, None, Some(o)), SourceEvent(6, None, Some(o))];
      var s := World(rows, StoreCursor(t, "me", 5));
      Increasing(rows) && Next(s, "me", 0, RunOnce(1, 1, false, troubles)) == s
  {
    var rows := [SourceEvent(5, None, Some(o)), SourceEvent(6, None, Some(o))];
    var s := World(rows, StoreCursor(t, "me", 5));
    var p := Progress(s.tables, 5, 0, 0, 0, 0, None);
    var m := RunOnce(1, 1, false, troubles);
    RunShape(s, "me", 0, m, p);
    CutIsUpto(rows, 0, 4);
    assert ReadAfter(rows, 4, 1) == [rows[0]];
    assert Handle(p, "me", rows[0], troubles(0)) == p;
    assert HandleAll(p, "me", [rows[0]], troubles, 0) == p;
  }
}
