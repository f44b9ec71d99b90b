/**
 The watched-event ledger: ingestion deduplicates by source event id, by external
 link and by fingerprint, each ingest being one transaction over the tables.
 An event's id is its position in the table: rows are never deleted.
 */
module WatchedLedger {
  import opened Options

  const MEDIA_KINDS := {"movie", "episode"}
  const PRECISIONS := {"exact", "date_only", "legacy_placeholder"}
  const SOURCES := {"plex", "trakt", "manual", "agent", "migration"}
  const CONFIDENCES := {"high", "medium", "low"}

  /** `watchedAt` and `provenance` are None when they do not parse or serialize. */
  datatype Observation = Observation(
    mediaKind: string, localId: Option<int>, watchedAt: Option<int>, precision: string, source: string,
    provenance: Option<string>, sourceEventId: Option<string>, confidence: string, scope: string,
    externalMediaId: Option<string>, quarantineReason: Option<string>)

  // sha256 of the canonical JSON payload, taken as injective.
  datatype Fingerprint = Fingerprint(
    localId: Option<int>, mediaKind: string, source: string, watchedAt: int,
    quarantine: Option<(Option<string>, Option<string>)>)

  datatype Row = Row(
    localId: Option<int>, mediaKind: string, watchedAt: int, precision: string, source: string, provenance: string,
    sourceEventId: Option<string>, confidence: string, fingerprint: Fingerprint,
    quarantineReason: Option<string>, supersededBy: Option<nat>)

  type Key = (string, string)

  datatype Link = Link(event: nat, mediaId: Option<string>)

  datatype Cursor = EventIdLte(value: int) | HistoryId(value: int) | Unreadable

  datatype Tables = Tables(events: seq<Row>, links: map<Key, Link>, cursors: map<Key, Cursor>)

  const EMPTY := Tables([], map[], map[])

  datatype Error = LedgerError(reason: string) | UniqueViolation | CheckViolation

  datatype Ingested =
    | BoundarySuppressed
    | DuplicateSource(id: nat)
    | EchoSuppressed(id: nat)
    | DuplicateFingerprint(id: nat)
    | Quarantined(id: nat)
    | Created(id: nat)
    | Refused(error: Error)

  // Only ever asked of an observation whose timestamp parses.
  function FingerprintOf(o: Observation): Fingerprint {
    Fingerprint(o.localId, o.mediaKind, o.source, if o.watchedAt.Some? then o.watchedAt.value else 0,
                if o.localId.None? then Some((o.quarantineReason, o.sourceEventId)) else None)
  }

  function KeyOf(o: Observation): Option<Key> {
    if o.sourceEventId.None? then None else Some((o.source, o.sourceEventId.value))
  }

  /** Python truth of an optional string. */
  predicate Truthy(s: Option<string>) {
    s.Some? && s.value != ""
  }

  predicate Valid(o: Observation) {
    && o.mediaKind in MEDIA_KINDS && o.precision in PRECISIONS && o.source in SOURCES && o.confidence in CONFIDENCES
    && (o.localId.Some? ==> o.localId.value > 0)
    && (o.localId.None? ==> Truthy(o.quarantineReason))
    && (o.localId.Some? ==> !Truthy(o.quarantineReason))
    && o.watchedAt.Some? && o.provenance.Some?
  }

  // ----- lookups

  predicate HasKey(row: Row, key: Key) {
    row.sourceEventId == Some(key.1) && row.source == key.0
  }

  function BySource(events: seq<Row>, key: Key): (found: Option<nat>)
    ensures found.Some? ==> found.value < |events| && HasKey(events[found.value], key)
    ensures found.None? ==> forall i :: 0 <= i < |events| ==> !HasKey(events[i], key)
  {
    if events == [] then None
    else if HasKey(events[|events| - 1], key) then Some(|events| - 1)
    else BySource(events[..|events| - 1], key)
  }

  function ByFingerprint(events: seq<Row>, f: Fingerprint): (found: Option<nat>)
    ensures found.Some? ==> found.value < |events| && events[found.value].fingerprint == f
    ensures found.None? ==> forall i :: 0 <= i < |events| ==> events[i].fingerprint != f
  {
    if events == [] then None
    else if events[|events| - 1].fingerprint == f then Some(|events| - 1)
    else ByFingerprint(events[..|events| - 1], f)
  }

  /** The number a source event id is written as, if it is one. */
  function NumberOf(s: string): Option<int> {
    if s == "" then None
    else
      var digit := s[|s| - 1] as int - '0' as int;
      if !(0 <= digit <= 9) then None
      else if |s| == 1 then Some(digit)
      else
        var front := NumberOf(s[..|s| - 1]);
        if front.None? then None else Some(10 * front.value + digit)
  }

  predicate Suppressed(cursors: map<Key, Cursor>, o: Observation) {
    && o.sourceEventId.Some?
    && (o.source, o.scope) in cursors
    && cursors[(o.source, o.scope)].EventIdLte?
    && NumberOf(o.sourceEventId.value).Some?
    && NumberOf(o.sourceEventId.value).value <= cursors[(o.source, o.scope)].value
  }

  predicate SuppressedByBoundary(t: Tables, o: Observation) {
    Suppressed(t.cursors, o)
  }

  // ----- writes, with the schema's constraints

  function RowOf(o: Observation): Row
    requires o.watchedAt.Some? && o.provenance.Some?
  {
    Row(o.localId, o.mediaKind, o.watchedAt.value, o.precision, o.source, o.provenance.value, o.sourceEventId,
        o.confidence, FingerprintOf(o), o.quarantineReason, None)
  }

  predicate CheckHolds(row: Row) {
    row.localId.Some? <==> row.quarantineReason.None?
  }

  /** What the schema says of an insert into watch_events. */
  function InsertError(events: seq<Row>, row: Row): Option<Error> {
    if !CheckHolds(row) then Some(CheckViolation)
    else if ByFingerprint(events, row.fingerprint).Some? then Some(UniqueViolation)
    else if row.sourceEventId.Some? && BySource(events, (row.source, row.sourceEventId.value)).Some? then Some(UniqueViolation)
    else None
  }

  function LinkError(links: map<Key, Link>, key: Key, event: nat): Option<Error> {
    if key.0 == "" || key.1 == "" then Some(LedgerError("external event link requires system and event ID"))
    else if key in links && links[key].event != event then
      Some(LedgerError("external event is already linked to another watch event"))
    else None
  }

  function Linked(links: map<Key, Link>, key: Key, event: nat, mediaId: Option<string>): map<Key, Link> {
    if key in links then links else links[key := Link(event, mediaId)]
  }

  function Ingest(t: Tables, o: Observation): (Tables, Ingested) {
    if !Valid(o) then (t, Refused(LedgerError("invalid observation")))
    else if SuppressedByBoundary(t, o) then (t, BoundarySuppressed)
    else
      var key := KeyOf(o);
      if key.Some? && BySource(t.events, key.value).Some? then (t, DuplicateSource(BySource(t.events, key.value).value))
      else if key.Some? && key.value in t.links then (t, EchoSuppressed(t.links[key.value].event))
      else
        var known := ByFingerprint(t.events, FingerprintOf(o));
        if known.Some? then
          if key.None? then (t, DuplicateFingerprint(known.value))
          else if LinkError(t.links, key.value, known.value).Some? then
            (t, Refused(LinkError(t.links, key.value, known.value).value))
          else
            (t.(links := Linked(t.links, key.value, known.value, o.externalMediaId)), DuplicateFingerprint(known.value))
        else
          var row := RowOf(o);
          var id := |t.events|;
          if InsertError(t.events, row).Some? then (t, Refused(InsertError(t.events, row).value))
          else if key.Some? && o.localId.Some? then
            if LinkError(t.links, key.value, id).Some? then (t, Refused(LinkError(t.links, key.value, id).value))
            else
              (t.(events := t.events + [row], links := Linked(t.links, key.value, id, o.externalMediaId)), Created(id))
          else
            (t.(events := t.events + [row]), if o.localId.None? then Quarantined(id) else Created(id))
  }

  function IngestAll(t: Tables, observations: seq<Observation>): Tables
    decreases |observations|
  {
    if observations == [] then t else IngestAll(Ingest(t, observations[0]).0, observations[1..])
  }

  // ----- the schema's invariant

  predicate RowInv(row: Row) {
    && CheckHolds(row)
    && row.fingerprint == Fingerprint(row.localId, row.mediaKind, row.source, row.watchedAt,
         if row.localId.None? then Some((row.quarantineReason, row.sourceEventId)) else None)
  }

  predicate TablesInv(t: Tables) {
    && (forall i :: 0 <= i < |t.events| ==> RowInv(t.events[i]))
    && (forall i, j :: 0 <= i < j < |t.events| ==> t.events[i].fingerprint != t.events[j].fingerprint)
    && (forall i, j :: 0 <= i < j < |t.events| && t.events[i].sourceEventId.Some? ==>
          !(t.events[j].source == t.events[i].source && t.events[j].sourceEventId == t.events[i].sourceEventId))
    && (forall key :: key in t.links ==> t.links[key].event < |t.events|)
    && (forall i :: 0 <= i < |t.events| && t.events[i].supersededBy.Some? ==> t.events[i].supersededBy.value < |t.events|)
  }

  /** An observation whose ingestion can ever store something: the others are refused and rolled back. */
  predicate Storable(o: Observation) {
    && Valid(o)
    && (o.localId.Some? ==> o.quarantineReason.None?)
    && (o.localId.Some? ==> o.sourceEventId != Some(""))
  }

  /**
   An identified observation with an empty, but present, quarantine reason: it passes validation, but the schema's
   CHECK would refuse its row, so all it can ever add is a link to a row that is there already.
   */
  predicate Latent(o: Observation) {
    Valid(o) && o.localId.Some? && o.quarantineReason == Some("") && Truthy(o.sourceEventId)
  }

  predicate Claimed(t: Tables, key: Key) {
    BySource(t.events, key).Some? || key in t.links
  }

  lemma InsertKeepsTables(t: Tables, o: Observation, links: map<Key, Link>)
    requires TablesInv(t) && o.watchedAt.Some? && o.provenance.Some?
    requires InsertError(t.events, RowOf(o)).None?
    requires forall key :: key in links ==> links[key].event <= |t.events|
    ensures TablesInv(Tables(t.events + [RowOf(o)], links, t.cursors))
  {
    var row := RowOf(o);
    forall i | 0 <= i < |t.events| ensures !(row.sourceEventId.Some? && HasKey(t.events[i], (row.source, row.sourceEventId.value))) {
    }
  }

  /** Ingestion keeps every constraint of the schema, and rows are only appended. */
  lemma IngestKeepsTables(t: Tables, o: Observation)
    requires TablesInv(t)
    ensures TablesInv(Ingest(t, o).0)
    ensures t.events <= Ingest(t, o).0.events
    ensures Ingest(t, o).0.cursors == t.cursors
  {
    var t' := Ingest(t, o).0;
    if t'.events != t.events {
      assert t'.events == t.events + [RowOf(o)];
      InsertKeepsTables(t, o, t'.links);
    }
  }

  /** A quarantined observation whose fingerprint is known was seen before under the same source event id. */
  lemma QuarantinedIsKnownBySource(t: Tables, o: Observation)
    requires TablesInv(t) && Valid(o) && o.localId.None? && KeyOf(o).Some?
    requires ByFingerprint(t.events, FingerprintOf(o)).Some?
    ensures BySource(t.events, KeyOf(o).value).Some?
  {
    var known := ByFingerprint(t.events, FingerprintOf(o)).value;
    assert RowInv(t.events[known]);
    assert HasKey(t.events[known], KeyOf(o).value);
  }

  /**
   Refusals never run into a uniqueness constraint nor into somebody else's link: they are of observations that
   can never be stored, and they leave the tables alone.
   */
  lemma RefusalsAreHarmless(t: Tables, o: Observation)
    requires TablesInv(t)
    ensures var (t', r) := Ingest(t, o);
      r.Refused? ==>
        && !Storable(o) && t' == t
        && r.error != UniqueViolation
        && r.error != LedgerError("external event is already linked to another watch event")
    ensures !Storable(o) && !Latent(o) ==> Ingest(t, o).0 == t
  {
    hide MEDIA_KINDS, PRECISIONS, CONFIDENCES, Suppressed;
    if Valid(o) && o.localId.None? && KeyOf(o).Some? && ByFingerprint(t.events, FingerprintOf(o)).Some? {
      QuarantinedIsKnownBySource(t, o);
    }
    hide RowInv;
  }

  /**
   Validation lets pass what the schema's CHECK then refuses, exactly for an identified observation with an empty
   quarantine reason that is neither suppressed nor a duplicate of any kind.
   */
  lemma CheckViolationExactly(t: Tables, o: Observation)
    ensures Ingest(t, o).1 == Refused(CheckViolation) <==>
      && Valid(o) && o.localId.Some? && o.quarantineReason == Some("")
      && !SuppressedByBoundary(t, o)
      && (KeyOf(o).Some? ==> !Claimed(t, KeyOf(o).value))
      && ByFingerprint(t.events, FingerprintOf(o)).None?
  {
    hide MEDIA_KINDS, PRECISIONS, SOURCES, CONFIDENCES, NumberOf;
  }

  /** Such an observation. */
  lemma CheckCanBeViolated() returns (o: Observation)
    ensures Valid(o) && Ingest(EMPTY, o).1 == Refused(CheckViolation)
  {
    o := Observation("movie", Some(1), Some(10), "exact", "plex", Some("{}"), Some("7"), "high", "default", None, Some(""));
    CheckViolationExactly(EMPTY, o);
  }

  /** An ingestion with an effect makes the observation known: by its source event id, or without one by its fingerprint. */
  lemma IsKnownAfter(t: Tables, o: Observation)
    requires TablesInv(t) && Ingest(t, o).0 != t
    ensures var t' := Ingest(t, o).0;
      && Valid(o) && t'.cursors == t.cursors
      && (if KeyOf(o).Some? then Claimed(t', KeyOf(o).value) else ByFingerprint(t'.events, FingerprintOf(o)).Some?)
  {
    hide MEDIA_KINDS, PRECISIONS, SOURCES, CONFIDENCES, Suppressed;
    var t' := Ingest(t, o).0;
    if t'.events != t.events {
      assert t'.events[|t.events|] == RowOf(o);
      assert KeyOf(o).Some? ==> HasKey(t'.events[|t.events|], KeyOf(o).value);
    }
  }

  /** The second ingestion of an observation changes nothing, whatever the first did. */
  lemma IngestTwice(t: Tables, o: Observation)
    requires TablesInv(t)
    ensures Ingest(Ingest(t, o).0, o).0 == Ingest(t, o).0
    ensures !Ingest(Ingest(t, o).0, o).1.Created? && !Ingest(Ingest(t, o).0, o).1.Quarantined?
  {
    hide MEDIA_KINDS, PRECISIONS, SOURCES, CONFIDENCES, Suppressed;
    var t' := Ingest(t, o).0;
    if t' != t {
      IsKnownAfter(t, o);
    }
  }

  // ----- what deduplication amounts to

  /** Which fingerprints are stored, which source event ids are claimed, and where the boundaries are. */
  datatype Index = Index(stored: set<Fingerprint>, claimed: set<Key>, cursors: map<Key, Cursor>)

  function Claim(x: Index, key: Option<Key>): Index {
    if key.None? then x else x.(claimed := x.claimed + {key.value})
  }

  /** Neither suppressed by a boundary nor known by its source event id. */
  predicate Open(x: Index, o: Observation) {
    !Suppressed(x.cursors, o) && (KeyOf(o).None? || KeyOf(o).value !in x.claimed)
  }

  function Absorb(x: Index, o: Observation): Index {
    if !Open(x, o) then x
    else if Storable(o) then Claim(x.(stored := x.stored + {FingerprintOf(o)}), KeyOf(o))
    else if Latent(o) && FingerprintOf(o) in x.stored then Claim(x, KeyOf(o))
    else x
  }

  function AbsorbAll(x: Index, observations: seq<Observation>): Index
    decreases |observations|
  {
    if observations == [] then x else AbsorbAll(Absorb(x, observations[0]), observations[1..])
  }

  function StoredIn(events: seq<Row>): set<Fingerprint> {
    set i | 0 <= i < |events| :: events[i].fingerprint
  }

  function KeysIn(events: seq<Row>): set<Key> {
    set i | 0 <= i < |events| && events[i].sourceEventId.Some? :: (events[i].source, events[i].sourceEventId.value)
  }

  function IndexOf(t: Tables): Index {
    Index(StoredIn(t.events), KeysIn(t.events) + t.links.Keys, t.cursors)
  }

  predicate NoBoundary(t: Tables) {
    forall key :: key in t.cursors ==> !t.cursors[key].EventIdLte?
  }

  lemma KnownKey(events: seq<Row>, key: Key)
    ensures BySource(events, key).Some? <==> key in KeysIn(events)
  {
    if BySource(events, key).Some? {
      assert HasKey(events[BySource(events, key).value], key);
    }
    if key in KeysIn(events) {
      var i :| 0 <= i < |events| && events[i].sourceEventId.Some? && (events[i].source, events[i].sourceEventId.value) == key;
      assert HasKey(events[i], key);
    }
  }

  lemma KnownFingerprint(events: seq<Row>, f: Fingerprint)
    ensures ByFingerprint(events, f).Some? <==> f in StoredIn(events)
  {
    if ByFingerprint(events, f).Some? {
      assert events[ByFingerprint(events, f).value].fingerprint == f;
    }
  }

  lemma AppendRow(events: seq<Row>, row: Row)
    ensures StoredIn(events + [row]) == StoredIn(events) + {row.fingerprint}
    ensures KeysIn(events + [row])
         == KeysIn(events) + (if row.sourceEventId.Some? then {(row.source, row.sourceEventId.value)} else {})
  {
    var longer := events + [row];
    assert forall i :: 0 <= i < |events| ==> longer[i] == events[i];
    assert longer[|events|] == row;
    forall f | f in StoredIn(events) ensures f in StoredIn(longer) {
      var i :| 0 <= i < |events| && events[i].fingerprint == f;
      assert longer[i].fingerprint == f;
    }
    forall key | key in KeysIn(events) ensures key in KeysIn(longer) {
      var i :| 0 <= i < |events| && events[i].sourceEventId.Some? && (events[i].source, events[i].sourceEventId.value) == key;
      assert longer[i] == events[i];
    }
    assert longer[|events|].fingerprint in StoredIn(longer);
  }

  lemma OpenMeans(t: Tables, o: Observation)
    ensures Open(IndexOf(t), o) <==>
      !SuppressedByBoundary(t, o) && (KeyOf(o).Some? ==> !Claimed(t, KeyOf(o).value))
  {
    hide Suppressed;
    if KeyOf(o).Some? {
      KnownKey(t.events, KeyOf(o).value);
    }
  }

  /** The two ways an open storable observation goes in. */
  lemma StorableEffect(t: Tables, o: Observation)
    requires TablesInv(t) && Storable(o) && !SuppressedByBoundary(t, o)
    requires KeyOf(o).Some? ==> !Claimed(t, KeyOf(o).value)
    ensures var t' := Ingest(t, o).0;
      var keys := if KeyOf(o).Some? then {KeyOf(o).value} else {};
      && t'.cursors == t.cursors
      && (if ByFingerprint(t.events, FingerprintOf(o)).Some? then
            t'.events == t.events && t'.links.Keys == t.links.Keys + keys
          else
            t'.events == t.events + [RowOf(o)] && t.links.Keys <= t'.links.Keys <= t.links.Keys + keys)
  {
    hide NumberOf;
    RefusalsAreHarmless(t, o);
  }

  /** An open latent observation never adds a row: it links its source event id to the row it repeats, if there is one. */
  lemma LatentEffect(t: Tables, o: Observation)
    requires TablesInv(t) && Latent(o) && !SuppressedByBoundary(t, o) && !Claimed(t, KeyOf(o).value)
    ensures var t' := Ingest(t, o).0;
      && t'.cursors == t.cursors && t'.events == t.events
      && t'.links.Keys == t.links.Keys + (if ByFingerprint(t.events, FingerprintOf(o)).Some? then {KeyOf(o).value} else {})
  {
    hide MEDIA_KINDS, PRECISIONS, CONFIDENCES, NumberOf;
  }

  lemma ClosedEffect(t: Tables, o: Observation)
    requires SuppressedByBoundary(t, o) || (KeyOf(o).Some? && Claimed(t, KeyOf(o).value))
    ensures Ingest(t, o).0 == t
  {
    hide NumberOf;
  }

  /** The transaction over the tables refines the rule over the index. */
  lemma IngestRefinesAbsorb(t: Tables, o: Observation)
    requires TablesInv(t)
    ensures IndexOf(Ingest(t, o).0) == Absorb(IndexOf(t), o)
  {
    hide Ingest, Storable, Latent, TablesInv, Claimed, Suppressed, StoredIn, KeysIn;
    OpenMeans(t, o);
    if !Open(IndexOf(t), o) {
      ClosedEffect(t, o);
    } else if Storable(o) {
      ValidOnes(o);
      StorableEffect(t, o);
      AppendRow(t.events, RowOf(o));
      KnownFingerprint(t.events, FingerprintOf(o));
    } else if Latent(o) {
      ValidOnes(o);
      LatentEffect(t, o);
      KnownFingerprint(t.events, FingerprintOf(o));
    } else {
      RefusalsAreHarmless(t, o);
    }
  }

  lemma ValidOnes(o: Observation)
    ensures Storable(o) || Latent(o) ==> o.watchedAt.Some? && o.provenance.Some?
    ensures Latent(o) ==> KeyOf(o).Some?
  {
  }

  lemma {:induction false} IngestAllRefines(t: Tables, observations: seq<Observation>)
    requires TablesInv(t)
    ensures TablesInv(IngestAll(t, observations))
    ensures IndexOf(IngestAll(t, observations)) == AbsorbAll(IndexOf(t), observations)
    decreases |observations|
  {
    hide TablesInv, Ingest, Absorb, IndexOf;
    if observations != [] {
      IngestKeepsTables(t, observations[0]);
      IngestRefinesAbsorb(t, observations[0]);
      IngestAllRefines(Ingest(t, observations[0]).0, observations[1..]);
    }
  }
}
