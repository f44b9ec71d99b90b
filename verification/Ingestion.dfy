/**
 What one ingestion must do, said of the observation and of the tables before and after. Numerals, fingerprints and
 keys are described by what they stand for, and a row by its columns.
 */
module Ingestion {
  import opened Decimals
  import opened Options
  import opened WatchedLedger

  // ----- numerals

  function Zeros(k: nat): (s: string)
    ensures |s| == k
  {
    seq(k, i => '0')
  }

  /** The decimal numeral of n, perhaps after leading zeros. */
  ghost predicate Writes(s: string, n: int) {
    n >= 0 && exists k: nat :: s == Zeros(k) + Decimal(n)
  }

  lemma DigitAt(d: nat)
    requires d < 10
    ensures DIGITS[d] as int == '0' as int + d
  {
  }

  lemma ReadMore(front: string, m: int, digit: nat, c: char)
    requires front != "" && NumberOf(front) == Some(m) && digit < 10 && c as int == '0' as int + digit
    ensures NumberOf(front + [c]) == Some(10 * m + digit)
  {
    assert (front + [c])[..|front + [c]| - 1] == front;
  }

  lemma {:induction false} DecimalReads(n: nat)
    ensures NumberOf(Decimal(n)) == Some(n)
    decreases n
  {
    DigitAt(n % 10);
    if n >= 10 {
      hide NumberOf;
      DecimalReads(n / 10);
      ReadMore(Decimal(n / 10), n / 10, n % 10, DIGITS[n % 10]);
    }
  }

  lemma {:induction false} ZerosRead(k: nat, s: string)
    requires s != ""
    ensures NumberOf(Zeros(k) + s) == NumberOf(s)
    decreases |s| + k
  {
    var t := Zeros(k) + s;
    if |s| == 1 {
      if k > 0 {
        assert t[..|t| - 1] == Zeros(k - 1) + "0";
        ZerosRead(k - 1, "0");
      } else {
        assert t == s;
      }
    } else {
      assert t[..|t| - 1] == Zeros(k) + s[..|s| - 1];
      ZerosRead(k, s[..|s| - 1]);
    }
  }

  lemma WriteOne(digit: nat, c: char)
    requires digit < 10 && c as int == '0' as int + digit
    ensures Writes([c], digit)
  {
    DigitAt(digit);
    assert [c] == Zeros(0) + Decimal(digit);
  }

  lemma WriteMore(front: string, m: nat, digit: nat, c: char)
    requires Writes(front, m) && digit < 10 && c as int == '0' as int + digit
    ensures Writes(front + [c], 10 * m + digit)
  {
    DigitAt(digit);
    var n := 10 * m + digit;
    var k: nat :| front == Zeros(k) + Decimal(m);
    if m == 0 {
      assert Decimal(0) == "0" && Decimal(n) == [c];
      assert Zeros(k) + "0" == Zeros(k + 1);
      assert front + [c] == Zeros(k + 1) + Decimal(n);
    } else {
      assert n / 10 == m && n % 10 == digit;
      assert Decimal(n) == Decimal(m) + [c];
      assert front + [c] == Zeros(k) + Decimal(n);
    }
  }

  lemma {:induction false} ReadIsWritten(s: string)
    requires NumberOf(s).Some?
    ensures NumberOf(s).value >= 0 && Writes(s, NumberOf(s).value)
    decreases |s|
  {
    hide Writes;
    var digit := s[|s| - 1] as int - '0' as int;
    if |s| == 1 {
      WriteOne(digit, s[0]);
      assert s == [s[0]];
    } else {
      var front := s[..|s| - 1];
      ReadIsWritten(front);
      WriteMore(front, NumberOf(front).value, digit, s[|s| - 1]);
      assert s == front + [s[|s| - 1]];
    }
  }

  /** The number read from a source event id is the one it writes in decimal, and other texts are no number. */
  lemma NumbersAreDecimal(s: string, n: int)
    ensures NumberOf(s) == Some(n) <==> Writes(s, n)
  {
    if NumberOf(s) == Some(n) {
      ReadIsWritten(s);
    }
    if Writes(s, n) {
      var k: nat :| s == Zeros(k) + Decimal(n);
      ZerosRead(k, Decimal(n));
      DecimalReads(n);
    }
  }

  // ----- one ingestion

  predicate Acceptable(o: Observation) {
    && o.mediaKind in ["movie", "episode"]
    && o.precision in ["exact", "date_only", "legacy_placeholder"]
    && o.source in ["plex", "trakt", "manual", "agent", "migration"]
    && o.confidence in ["high", "medium", "low"]
    && o.watchedAt.Some? && o.provenance.Some?
    && match o.localId
       case Some(id) => id >= 1 && (o.quarantineReason == None || o.quarantineReason == Some(""))
       case None => o.quarantineReason.Some? && o.quarantineReason != Some("")
  }

  /** A boundary was set for the source and scope, at or above the number that the event has there. */
  ghost predicate BelowBoundary(t: Tables, o: Observation) {
    && o.sourceEventId.Some?
    && (o.source, o.scope) in t.cursors && t.cursors[(o.source, o.scope)].EventIdLte?
    && exists n :: Writes(o.sourceEventId.value, n) && n <= t.cursors[(o.source, o.scope)].value
  }

  /** The event under the same id at the same source. */
  predicate SameId(row: Row, o: Observation) {
    o.sourceEventId.Some? && row.source == o.source && row.sourceEventId == o.sourceEventId
  }

  /**
   The same play: of the same media, seen by the same source, at the same time; without identity, also under the same
   reason and id.
   */
  predicate SamePlay(row: Row, o: Observation) {
    && row.localId == o.localId && row.mediaKind == o.mediaKind && row.source == o.source && Some(row.watchedAt) == o.watchedAt
    && (o.localId.None? ==> row.quarantineReason == o.quarantineReason && row.sourceEventId == o.sourceEventId)
  }

  predicate Stores(row: Row, o: Observation) {
    && row.localId == o.localId && row.mediaKind == o.mediaKind && row.source == o.source
    && Some(row.watchedAt) == o.watchedAt && row.precision == o.precision && Some(row.provenance) == o.provenance
    && row.sourceEventId == o.sourceEventId && row.confidence == o.confidence
    && row.quarantineReason == o.quarantineReason && row.supersededBy.None?
  }

  ghost predicate KnownById(t: Tables, o: Observation) {
    exists i :: 0 <= i < |t.events| && SameId(t.events[i], o)
  }

  ghost predicate KnownPlay(t: Tables, o: Observation) {
    exists i :: 0 <= i < |t.events| && SamePlay(t.events[i], o)
  }

  /** The source event id now stands for this event; without one nothing is linked. */
  predicate LinksTo(t: Tables, t': Tables, o: Observation, event: nat) {
    t'.links == if o.sourceEventId.None? then t.links
                else t.links[(o.source, o.sourceEventId.value) := Link(event, o.externalMediaId)]
  }

  /** The case of a play known under another id, or under none. */
  predicate Merges(t: Tables, t': Tables, o: Observation, r: Ingested) {
    if o.sourceEventId == Some("") then t' == t && r.Refused?
    else
      && r.DuplicateFingerprint? && r.id < |t.events| && SamePlay(t.events[r.id], o)
      && t'.events == t.events && t'.cursors == t.cursors && LinksTo(t, t', o, r.id)
  }

  /** The case of a new play. */
  predicate Appends(t: Tables, t': Tables, o: Observation, r: Ingested) {
    if o.localId.Some? && (o.quarantineReason == Some("") || o.sourceEventId == Some("")) then t' == t && r.Refused?
    else
      && |t'.events| == |t.events| + 1 && t.events <= t'.events && Stores(t'.events[|t.events|], o)
      && t'.cursors == t.cursors
      && (o.localId.Some? ==> r == Created(|t.events|) && LinksTo(t, t', o, |t.events|))
      && (o.localId.None? ==> r == Quarantined(|t.events|) && t'.links == t.links)
  }

  ghost predicate IngestedRightly(t: Tables, t': Tables, o: Observation, r: Ingested) {
    if !Acceptable(o) then t' == t && r.Refused?
    else if BelowBoundary(t, o) then t' == t && r.BoundarySuppressed?
    else if KnownById(t, o) then t' == t && r.DuplicateSource? && r.id < |t.events| && SameId(t.events[r.id], o)
    else if o.sourceEventId.Some? && (o.source, o.sourceEventId.value) in t.links then
      t' == t && r == EchoSuppressed(t.links[(o.source, o.sourceEventId.value)].event)
    else if KnownPlay(t, o) then Merges(t, t', o, r)
    else Appends(t, t', o, r)
  }

  lemma BoundaryMeans(t: Tables, o: Observation)
    ensures SuppressedByBoundary(t, o) <==> BelowBoundary(t, o)
  {
    hide NumberOf, Writes;
    if o.sourceEventId.Some? {
      forall n ensures NumberOf(o.sourceEventId.value) == Some(n) <==> Writes(o.sourceEventId.value, n) {
        NumbersAreDecimal(o.sourceEventId.value, n);
      }
    }
  }

  lemma KnownIdMeans(t: Tables, o: Observation)
    requires KeyOf(o).Some?
    ensures var found := BySource(t.events, KeyOf(o).value);
      && (found.Some? <==> KnownById(t, o))
      && (found.Some? ==> SameId(t.events[found.value], o))
  {
    hide BySource;
    forall i | 0 <= i < |t.events| ensures HasKey(t.events[i], KeyOf(o).value) <==> SameId(t.events[i], o) {
    }
  }

  lemma KnownPlayMeans(t: Tables, o: Observation)
    requires TablesInv(t) && o.watchedAt.Some?
    ensures var found := ByFingerprint(t.events, FingerprintOf(o));
      && (found.Some? <==> KnownPlay(t, o))
      && (found.Some? ==> SamePlay(t.events[found.value], o))
  {
    hide ByFingerprint;
    forall i | 0 <= i < |t.events| ensures t.events[i].fingerprint == FingerprintOf(o) <==> SamePlay(t.events[i], o) {
      assert RowInv(t.events[i]);
    }
  }

  lemma AcceptableMeans(o: Observation)
    ensures Valid(o) <==> Acceptable(o)
  {
  }

  /** None of the three ways to recognise the observation applies. */
  lemma NewIsRight(t: Tables, o: Observation)
    requires Valid(o) && !SuppressedByBoundary(t, o) && (KeyOf(o).Some? ==> !Claimed(t, KeyOf(o).value))
    requires ByFingerprint(t.events, FingerprintOf(o)).None?
    ensures Appends(t, Ingest(t, o).0, o, Ingest(t, o).1)
  {
    assert o.source != "";
    assert o.watchedAt.Some? && o.provenance.Some?;
    assert o.localId.None? ==> o.quarantineReason.Some? && o.quarantineReason != Some("");
    assert o.localId.Some? ==> o.quarantineReason.None? || o.quarantineReason == Some("");
    hide Valid, SuppressedByBoundary, BySource, ByFingerprint, FingerprintOf;
  }

  lemma MergeIsRight(t: Tables, o: Observation)
    requires TablesInv(t) && Valid(o) && !SuppressedByBoundary(t, o) && (KeyOf(o).Some? ==> !Claimed(t, KeyOf(o).value))
    requires var known := ByFingerprint(t.events, FingerprintOf(o)); known.Some? && SamePlay(t.events[known.value], o)
    ensures Merges(t, Ingest(t, o).0, o, Ingest(t, o).1)
  {
    assert o.source != "";
    hide TablesInv, Valid, SuppressedByBoundary, BySource, ByFingerprint, FingerprintOf;
  }

  /** Every ingestion into tables under the schema's constraints is right. */
  lemma IngestIsRight(t: Tables, o: Observation)
    requires TablesInv(t)
    ensures IngestedRightly(t, Ingest(t, o).0, o, Ingest(t, o).1)
  {
    AcceptableMeans(o);
    BoundaryMeans(t, o);
    if Valid(o) && !BelowBoundary(t, o) {
      KnownPlayMeans(t, o);
      if KeyOf(o).Some? { KnownIdMeans(t, o); }
      if KeyOf(o).Some? ==> !Claimed(t, KeyOf(o).value) {
        if KnownPlay(t, o) { MergeIsRight(t, o); } else { NewIsRight(t, o); }
      }
    }
    hide TablesInv, Valid, Acceptable, SuppressedByBoundary, BelowBoundary, BySource, ByFingerprint, FingerprintOf;
    hide KnownById, KnownPlay, Merges, Appends;
  }

  lemma DecimalWrites(n: nat)
    ensures Writes(Decimal(n), n)
  {
    DecimalReads(n);
    NumbersAreDecimal(Decimal(n), n);
  }

  /** Where a boundary is set, it suppresses exactly the numbers up to it. */
  lemma OnlyBoundary(t: Tables, o: Observation, n: int, maximum: int)
    requires Acceptable(o) && o.sourceEventId.Some? && Writes(o.sourceEventId.value, n)
    requires (o.source, o.scope) in t.cursors && t.cursors[(o.source, o.scope)] == EventIdLte(maximum)
    ensures Ingest(t, o).1 == BoundarySuppressed <==> n <= maximum
  {
    AcceptableMeans(o);
    NumbersAreDecimal(o.sourceEventId.value, n);
    hide Valid, Acceptable, NumberOf, Writes, BySource, ByFingerprint, FingerprintOf, RowOf;
  }
}
