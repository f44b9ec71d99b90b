/**
 When the order and the repetition of observations make no difference to what is stored,
 whatever the ledger holds already.
 */
module IngestOrder {
  import opened Options
  import opened WatchedLedger

  /** Every fingerprint there is or could be, after a batch. */
  function Wanted(x: Index, s: seq<Observation>): set<Fingerprint> {
    x.stored + set o | o in s && Storable(o) && Open(x, o) :: FingerprintOf(o)
  }

  function Kept(x: Index, s: seq<Observation>): set<Fingerprint> {
    AbsorbAll(x, s).stored
  }

  /** Observations of the batch that can claim their source event id: by a row, or by a link to a row that can be there. */
  predicate Claimant(x: Index, s: seq<Observation>, o: Observation) {
    && o in s && Open(x, o) && KeyOf(o).Some?
    && (Storable(o) || (Latent(o) && FingerprintOf(o) in Wanted(x, s)))
  }

  predicate Exclusive(x: Index, s: seq<Observation>, key: Key, f: Fingerprint) {
    forall o :: o in s && Claimant(x, s, o) && KeyOf(o) == Some(key) ==> FingerprintOf(o) == f
  }

  /** Storable, and neither suppressed nor known by its source event id. */
  predicate Carries(x: Index, o: Observation, f: Fingerprint) {
    Storable(o) && Open(x, o) && FingerprintOf(o) == f
  }

  /** An observation that always gets its fingerprint stored: it has no source event id, or one that means nothing else here. */
  predicate Backs(x: Index, s: seq<Observation>, o: Observation, f: Fingerprint) {
    o in s && Carries(x, o, f) && (KeyOf(o).None? || Exclusive(x, s, KeyOf(o).value, f))
  }

  predicate BackedFor(x: Index, s: seq<Observation>, f: Fingerprint) {
    f in x.stored || exists o :: o in s && Backs(x, s, o, f)
  }

  predicate Backed(x: Index, s: seq<Observation>) {
    forall f :: f in Wanted(x, s) ==> BackedFor(x, s, f)
  }

  predicate SameElements(s: seq<Observation>, t: seq<Observation>) {
    (forall o :: o in s ==> o in t) && (forall o :: o in t ==> o in s)
  }

  // ----- what a fold can and must store

  predicate ClaimedBy(x: Index, y: Index, s: seq<Observation>, o: Observation, key: Key) {
    Claimant(x, s, o) && KeyOf(o) == Some(key) && FingerprintOf(o) in y.stored
  }

  /** `y` is `x` after some of the batch. */
  ghost predicate DrawnFrom(x: Index, y: Index, s: seq<Observation>) {
    && y.cursors == x.cursors && x.stored <= y.stored <= Wanted(x, s) && x.claimed <= y.claimed
    && (forall key :: key in y.claimed && key !in x.claimed ==> exists o :: o in s && ClaimedBy(x, y, s, o, key))
  }

  lemma OpenEarlier(x: Index, y: Index, o: Observation)
    requires y.cursors == x.cursors && x.claimed <= y.claimed && Open(y, o)
    ensures Open(x, o)
  {
    hide Suppressed;
  }

  lemma AbsorbDrawsFrom(x: Index, y: Index, o: Observation, s: seq<Observation>)
    requires DrawnFrom(x, y, s) && o in s
    ensures DrawnFrom(x, Absorb(y, o), s)
    ensures y.stored <= Absorb(y, o).stored
  {
    hide Suppressed, Storable, Latent, Open;
    var y' := Absorb(y, o);
    if Open(y, o) {
      OpenEarlier(x, y, o);
      ValidOnes(o);
    }
    forall key | key in y'.claimed && key !in x.claimed ensures exists p :: p in s && ClaimedBy(x, y', s, p, key) {
      if key in y.claimed {
        var p :| p in s && ClaimedBy(x, y, s, p, key);
        assert ClaimedBy(x, y', s, p, key);
      } else {
        assert ClaimedBy(x, y', s, o, key);
      }
    }
  }

  lemma {:induction false} FoldDrawsFrom(x: Index, y: Index, rest: seq<Observation>, s: seq<Observation>)
    requires DrawnFrom(x, y, s) && forall o :: o in rest ==> o in s
    ensures DrawnFrom(x, AbsorbAll(y, rest), s)
    ensures y.stored <= AbsorbAll(y, rest).stored
    decreases |rest|
  {
    hide DrawnFrom, Absorb;
    if rest != [] {
      AbsorbDrawsFrom(x, y, rest[0], s);
      FoldDrawsFrom(x, Absorb(y, rest[0]), rest[1..], s);
    }
  }

  /** A backing observation's turn. */
  lemma BackingStores(x: Index, y: Index, s: seq<Observation>, o: Observation, f: Fingerprint)
    requires DrawnFrom(x, y, s) && Backs(x, s, o, f)
    ensures f in Absorb(y, o).stored
  {
    hide Suppressed, Storable, Latent, Claimant;
    if !Open(y, o) {
      var key := KeyOf(o).value;
      assert key in y.claimed && key !in x.claimed;
      var p :| p in s && ClaimedBy(x, y, s, p, key);
      assert FingerprintOf(p) == f;
    }
  }

  lemma {:induction false} BackedIsStored(x: Index, y: Index, rest: seq<Observation>, s: seq<Observation>, o: Observation, f: Fingerprint)
    requires DrawnFrom(x, y, s) && Backs(x, s, o, f)
    requires o in rest && forall p :: p in rest ==> p in s
    ensures f in AbsorbAll(y, rest).stored
    decreases |rest|
  {
    hide DrawnFrom, Absorb, Backs;
    AbsorbDrawsFrom(x, y, rest[0], s);
    var y1 := Absorb(y, rest[0]);
    if rest[0] == o {
      BackingStores(x, y, s, o, f);
      FoldDrawsFrom(x, y1, rest[1..], s);
    } else {
      assert o in rest[1..];
      BackedIsStored(x, y1, rest[1..], s, o, f);
    }
  }

  /** Reordering and repeating a backed batch changes nothing: exactly what it could leave is there. */
  lemma AnyOrderAnyRepetition(x: Index, s: seq<Observation>, t: seq<Observation>)
    requires Backed(x, s) && SameElements(s, t)
    ensures Kept(x, t) == Wanted(x, s)
  {
    hide Backs, Absorb, Open;
    assert DrawnFrom(x, x, s);
    FoldDrawsFrom(x, x, t, s);
    forall f | f in Wanted(x, s) ensures f in Kept(x, t) {
      if f !in x.stored {
        assert BackedFor(x, s, f);
        var o :| o in s && Backs(x, s, o, f);
        assert o in s;
        BackedIsStored(x, x, t, s, o, f);
      }
    }
  }

  // ----- the adversary's order

  /** Storable ones for other fingerprints first, then those that can only link, then those for the fingerprint itself. */
  datatype Rank = First | Middle | Last

  predicate RankIs(o: Observation, f: Fingerprint, rank: Rank) {
    if !Storable(o) then rank.Middle? else if FingerprintOf(o) == f then rank.Last? else rank.First?
  }

  function Pick(s: seq<Observation>, f: Fingerprint, rank: Rank): seq<Observation> {
    if s == [] then []
    else (if RankIs(s[0], f, rank) then [s[0]] else []) + Pick(s[1..], f, rank)
  }

  function Adverse(s: seq<Observation>, f: Fingerprint): seq<Observation> {
    Pick(s, f, First) + Pick(s, f, Middle) + Pick(s, f, Last)
  }

  lemma {:induction false} Picked(s: seq<Observation>, f: Fingerprint, rank: Rank, o: Observation)
    ensures o in Pick(s, f, rank) <==> o in s && RankIs(o, f, rank)
    decreases |s|
  {
    hide RankIs;
    if s != [] {
      Picked(s[1..], f, rank, o);
      assert s == [s[0]] + s[1..];
    }
  }

  lemma {:induction false} AdverseIsReordered(s: seq<Observation>, f: Fingerprint)
    ensures multiset(Adverse(s, f)) == multiset(s)
    decreases |s|
  {
    hide RankIs;
    if s != [] {
      AdverseIsReordered(s[1..], f);
      assert s == [s[0]] + s[1..];
      RankIsOne(s[0], f);
      forall rank ensures multiset(Pick(s, f, rank)) == multiset(Pick(s[1..], f, rank)) + Once(s[0], RankIs(s[0], f, rank)) {
        assert RankIs(s[0], f, rank) ==> Pick(s, f, rank) == [s[0]] + Pick(s[1..], f, rank);
        assert !RankIs(s[0], f, rank) ==> Pick(s, f, rank) == Pick(s[1..], f, rank);
      }
    }
  }

  function Once(o: Observation, there: bool): multiset<Observation> {
    if there then multiset{o} else multiset{}
  }

  lemma RankIsOne(o: Observation, f: Fingerprint)
    ensures RankIs(o, f, First) || RankIs(o, f, Middle) || RankIs(o, f, Last)
    ensures !(RankIs(o, f, First) && RankIs(o, f, Middle)) && !(RankIs(o, f, Last) && RankIs(o, f, Middle))
    ensures !(RankIs(o, f, First) && RankIs(o, f, Last))
  {
  }

  lemma PickSplits(s: seq<Observation>, f: Fingerprint)
    ensures multiset(Adverse(s, f)) == multiset(s)
    ensures forall o, rank :: o in Pick(s, f, rank) <==> o in s && RankIs(o, f, rank)
  {
    hide RankIs, Pick, Adverse;
    AdverseIsReordered(s, f);
    forall o, rank ensures o in Pick(s, f, rank) <==> o in s && RankIs(o, f, rank) {
      Picked(s, f, rank, o);
    }
  }

  lemma {:induction false} FoldConcat(x: Index, s: seq<Observation>, t: seq<Observation>)
    ensures AbsorbAll(x, s + t) == AbsorbAll(AbsorbAll(x, s), t)
    decreases |s|
  {
    hide Absorb;
    if s == [] {
      assert s + t == t;
    } else {
      assert (s + t)[1..] == s[1..] + t;
      FoldConcat(Absorb(x, s[0]), s[1..], t);
    }
  }

  /** Storable observations for other fingerprints never store f, and claim every source event id they carry. */
  lemma {:induction false} OthersClaim(x: Index, rest: seq<Observation>, f: Fingerprint)
    requires f !in x.stored && forall o :: o in rest ==> RankIs(o, f, First)
    ensures var y := AbsorbAll(x, rest);
      && f !in y.stored && y.cursors == x.cursors && x.claimed <= y.claimed && x.stored <= y.stored
      && forall o :: o in rest && Open(x, o) && KeyOf(o).Some? ==> KeyOf(o).value in y.claimed
    decreases |rest|
  {
    hide Suppressed, Storable, Latent;
    if rest != [] {
      assert RankIs(rest[0], f, First);
      OthersClaim(Absorb(x, rest[0]), rest[1..], f);
    }
  }

  /** Those that can only link store nothing, and claim every source event id they can. */
  lemma {:induction false} LatentsClaim(x: Index, rest: seq<Observation>)
    requires forall o :: o in rest ==> !Storable(o)
    ensures var y := AbsorbAll(x, rest);
      && y.stored == x.stored && y.cursors == x.cursors && x.claimed <= y.claimed
      && forall o :: o in rest && Open(x, o) && Latent(o) && FingerprintOf(o) in x.stored ==> KeyOf(o).value in y.claimed
    decreases |rest|
  {
    hide Suppressed, Storable;
    if rest != [] {
      assert !Storable(rest[0]);
      LatentsClaim(Absorb(x, rest[0]), rest[1..]);
    }
  }

  lemma {:induction false} ClosedAreIgnored(x: Index, rest: seq<Observation>)
    requires forall o :: o in rest ==> !Open(x, o)
    ensures AbsorbAll(x, rest) == x
    decreases |rest|
  {
    if rest != [] {
      assert !Open(x, rest[0]);
      ClosedAreIgnored(x, rest[1..]);
    }
  }

  /** In the adverse order f is lost, if by its turn every carrier's source event id is claimed. */
  lemma AdverseLoses(x: Index, s: seq<Observation>, f: Fingerprint)
    requires f !in x.stored
    requires var y := AbsorbAll(AbsorbAll(x, Pick(s, f, First)), Pick(s, f, Middle));
      forall o :: o in s && Carries(x, o, f) ==> KeyOf(o).Some? && KeyOf(o).value in y.claimed
    ensures f !in Kept(x, Adverse(s, f))
  {
    hide Suppressed, Storable, Latent, Absorb;
    PickSplits(s, f);
    var first, middle, last := Pick(s, f, First), Pick(s, f, Middle), Pick(s, f, Last);
    FirstRank(s, f);
    var y1 := AbsorbAll(x, first);
    OthersClaim(x, first, f);
    LatentsClaim(y1, middle);
    var y := AbsorbAll(y1, middle);
    forall o | o in last ensures !Open(y, o) {
      assert RankIs(o, f, Last);
      if Open(y, o) { OpenEarlier(x, y, o); }
    }
    ClosedAreIgnored(y, last);
    FoldConcat(x, first, middle);
    FoldConcat(x, first + middle, last);
  }

  lemma FirstRank(s: seq<Observation>, f: Fingerprint)
    ensures forall o :: o in Pick(s, f, First) ==> o in s && Storable(o) && FingerprintOf(o) != f && RankIs(o, f, First)
    ensures forall o :: o in Pick(s, f, Middle) ==> o in s && !Storable(o)
  {
    PickSplits(s, f);
  }

  /** Some storable observation of the batch claims the source event id for another fingerprint. */
  predicate Contested(x: Index, s: seq<Observation>, o: Observation, f: Fingerprint) {
    KeyOf(o).Some? && exists p :: p in s && Storable(p) && Open(x, p) && KeyOf(p) == KeyOf(o) && FingerprintOf(p) != f
  }

  predicate Beaten(x: Index, s: seq<Observation>, f: Fingerprint) {
    f !in x.stored && forall o :: o in s && Carries(x, o, f) ==> Contested(x, s, o, f)
  }

  /** A fingerprint all of whose carriers are contested by storable ones is lost in its adverse order. */
  lemma BeatenIsLost(x: Index, s: seq<Observation>, f: Fingerprint)
    requires Beaten(x, s, f)
    ensures f !in Kept(x, Adverse(s, f))
  {
    hide Storable, AbsorbAll, Open, FingerprintOf, KeyOf, Adverse, Kept;
    PickSplits(s, f);
    FirstRank(s, f);
    var y1 := AbsorbAll(x, Pick(s, f, First));
    OthersClaim(x, Pick(s, f, First), f);
    LatentsClaim(y1, Pick(s, f, Middle));
    forall o | o in s && Carries(x, o, f)
      ensures KeyOf(o).Some? && KeyOf(o).value in AbsorbAll(y1, Pick(s, f, Middle)).claimed
    {
      assert Contested(x, s, o, f);
      var p :| p in s && Storable(p) && Open(x, p) && KeyOf(p) == KeyOf(o) && FingerprintOf(p) != f;
      assert RankIs(p, f, First);
    }
    AdverseLoses(x, s, f);
  }

  /** If no fingerprint is beaten, the storable observations for the others store all of those. */
  lemma OthersAreStored(x: Index, s: seq<Observation>, f: Fingerprint, g: Fingerprint)
    requires forall h :: h in Wanted(x, s) ==> !Beaten(x, s, h)
    requires g in Wanted(x, s) && g != f
    ensures g in Kept(x, Pick(s, f, First))
  {
    hide Storable, AbsorbAll, Open, FingerprintOf, KeyOf, Backs, DrawnFrom, Wanted;
    PickSplits(s, f);
    var first := Pick(s, f, First);
    NothingYet(x, first);
    if g in x.stored {
      FoldDrawsFrom(x, x, first, first);
    } else {
      assert !Beaten(x, s, g);
      var o :| o in s && Carries(x, o, g) && !Contested(x, s, o, g);
      assert RankIs(o, f, First);
      BacksAmongOthers(x, s, f, o, g);
      BackedIsStored(x, x, first, first, o, g);
    }
  }

  lemma NothingYet(x: Index, s: seq<Observation>)
    ensures DrawnFrom(x, x, s)
  {
    hide Open;
  }

  /** What no storable observation contests, backs its fingerprint among the storable ones. */
  lemma BacksAmongOthers(x: Index, s: seq<Observation>, f: Fingerprint, o: Observation, g: Fingerprint)
    requires o in s && Carries(x, o, g) && !Contested(x, s, o, g) && g != f
    ensures Backs(x, Pick(s, f, First), o, g)
  {
    hide Storable, Latent, Open, FingerprintOf, KeyOf, Wanted;
    PickSplits(s, f);
    FirstRank(s, f);
    assert RankIs(o, f, First);
    forall p | p in Pick(s, f, First) && Claimant(x, Pick(s, f, First), p) && KeyOf(o).Some? && KeyOf(p) == KeyOf(o)
      ensures FingerprintOf(p) == g
    {
      assert p in s && Storable(p);
    }
  }

  /** A fingerprint without backing is lost in its adverse order, if none is beaten: then the links do it. */
  lemma UnbackedIsLost(x: Index, s: seq<Observation>, f: Fingerprint)
    requires f in Wanted(x, s) && !BackedFor(x, s, f)
    requires forall h :: h in Wanted(x, s) ==> !Beaten(x, s, h)
    ensures f !in Kept(x, Adverse(s, f))
  {
    hide Suppressed, Storable, Latent, Absorb, Open, Wanted, Beaten;
    PickSplits(s, f);
    FirstRank(s, f);
    var y1 := AbsorbAll(x, Pick(s, f, First));
    OthersClaim(x, Pick(s, f, First), f);
    LatentsClaim(y1, Pick(s, f, Middle));
    var y := AbsorbAll(y1, Pick(s, f, Middle));
    forall o | o in s && Carries(x, o, f) ensures KeyOf(o).Some? && KeyOf(o).value in y.claimed {
      assert !Backs(x, s, o, f);
      var p :| p in s && Claimant(x, s, p) && KeyOf(p) == KeyOf(o) && FingerprintOf(p) != f;
      ClaimsItsId(x, s, f, p);
    }
    AdverseLoses(x, s, f);
  }

  lemma ClaimsItsId(x: Index, s: seq<Observation>, f: Fingerprint, p: Observation)
    requires f !in x.stored && Claimant(x, s, p) && FingerprintOf(p) != f
    requires forall h :: h in Wanted(x, s) ==> !Beaten(x, s, h)
    ensures KeyOf(p).value in AbsorbAll(AbsorbAll(x, Pick(s, f, First)), Pick(s, f, Middle)).claimed
  {
    hide Suppressed, Storable, Latent, Absorb, Wanted, Beaten;
    PickSplits(s, f);
    FirstRank(s, f);
    var y1 := AbsorbAll(x, Pick(s, f, First));
    OthersClaim(x, Pick(s, f, First), f);
    LatentsClaim(y1, Pick(s, f, Middle));
    if Storable(p) {
      assert RankIs(p, f, First);
    } else {
      OthersAreStored(x, s, f, FingerprintOf(p));
      assert RankIs(p, f, Middle);
    }
  }

  // ----- an order in which a fingerprint is stored

  lemma CarrierStores(x: Index, o: Observation, f: Fingerprint)
    requires Carries(x, o, f)
    ensures f in Absorb(x, o).stored
  {
    hide Storable, Open, FingerprintOf;
  }

  lemma CarrierFirst(x: Index, s: seq<Observation>, f: Fingerprint) returns (t: seq<Observation>)
    requires f in Wanted(x, s)
    ensures multiset(t) == multiset(s) && f in Kept(x, t)
  {
    hide Storable, Open, FingerprintOf, KeyOf, DrawnFrom;
    t := s;
    NothingYet(x, s);
    if f in x.stored {
      FoldDrawsFrom(x, x, s, s);
    } else {
      var o :| o in s && Carries(x, o, f);
      var i :| 0 <= i < |s| && s[i] == o;
      t := [o] + (s[..i] + s[i + 1..]);
      assert s == s[..i] + [o] + s[i + 1..];
      assert t[1..] == s[..i] + s[i + 1..];
      AbsorbDrawsFrom(x, x, o, s);
      FoldDrawsFrom(x, Absorb(x, o), t[1..], s);
      CarrierStores(x, o, f);
      assert AbsorbAll(x, t) == AbsorbAll(Absorb(x, o), t[1..]);
    }
  }

  /**
   Exactly when ingestion is order-independent: every order of a batch stores the same if and only if each fingerprint
   that the batch could leave is there already, or is carried by an observation without a source event id, or by one
   whose source event id no observation of the batch can claim for another fingerprint.
   */
  lemma OrderIndependence(x: Index, s: seq<Observation>)
    ensures Backed(x, s) <==> forall t :: multiset(t) == multiset(s) ==> Kept(x, t) == Kept(x, s)
    ensures Backed(x, s) <==> forall t :: multiset(t) == multiset(s) ==> Kept(x, t) == Wanted(x, s)
  {
    hide Kept, Wanted, BackedFor, Beaten, Absorb, Open, Storable;
    if Backed(x, s) {
      forall t | multiset(t) == multiset(s) ensures Kept(x, t) == Wanted(x, s) {
        SameMultisetSameElements(s, t);
        AnyOrderAnyRepetition(x, s, t);
      }
      assert Kept(x, s) == Wanted(x, s);
    } else {
      var f := SomeLost(x, s);
      var t := CarrierFirst(x, s, f);
      PickSplits(s, f);
      assert multiset(Adverse(s, f)) == multiset(s);
    }
  }

  lemma SomeLost(x: Index, s: seq<Observation>) returns (f: Fingerprint)
    requires !Backed(x, s)
    ensures f in Wanted(x, s) && f !in Kept(x, Adverse(s, f))
  {
    hide Kept, Wanted, BackedFor, Beaten;
    if g :| g in Wanted(x, s) && Beaten(x, s, g) {
      f := g;
      BeatenIsLost(x, s, f);
    } else {
      f :| f in Wanted(x, s) && !BackedFor(x, s, f);
      UnbackedIsLost(x, s, f);
    }
  }

  lemma SameMultisetSameElements(s: seq<Observation>, t: seq<Observation>)
    requires multiset(s) == multiset(t)
    ensures SameElements(s, t)
  {
    forall o ensures o in s <==> o in t {
      assert o in s <==> o in multiset(s);
      assert o in t <==> o in multiset(t);
    }
  }

  // ----- on the tables themselves

  /** Each source event id always comes with one fingerprint. */
  predicate OneFingerprintPerId(s: seq<Observation>) {
    forall o, p :: o in s && p in s && Valid(o) && Valid(p) && KeyOf(o).Some? && KeyOf(o) == KeyOf(p) ==>
      FingerprintOf(o) == FingerprintOf(p)
  }

  lemma OneFingerprintBacks(x: Index, s: seq<Observation>)
    requires OneFingerprintPerId(s)
    ensures Backed(x, s)
  {
    hide MEDIA_KINDS, PRECISIONS, SOURCES, CONFIDENCES, Suppressed, Open;
    forall f | f in Wanted(x, s) ensures BackedFor(x, s, f) {
      if f !in x.stored {
        var o :| o in s && Carries(x, o, f);
        assert Backs(x, s, o, f);
      }
    }
  }

  lemma {:induction false} OneRowEach(events: seq<Row>)
    requires forall i, j :: 0 <= i < j < |events| ==> events[i].fingerprint != events[j].fingerprint
    ensures |StoredIn(events)| == |events|
    decreases |events|
  {
    if events != [] {
      var front, last := events[..|events| - 1], events[|events| - 1];
      hide StoredIn, KeysIn;
      OneRowEach(front);
      AppendRow(front, last);
      assert events == front + [last];
      LastIsNew(events);
    }
  }

  lemma LastIsNew(events: seq<Row>)
    requires events != []
    requires forall i, j :: 0 <= i < j < |events| ==> events[i].fingerprint != events[j].fingerprint
    ensures events[|events| - 1].fingerprint !in StoredIn(events[..|events| - 1])
  {
    var front, last := events[..|events| - 1], events[|events| - 1];
    forall i | 0 <= i < |front| ensures front[i].fingerprint != last.fingerprint {
      assert front[i] == events[i];
    }
  }

  /** Into any ledger: if each source event id comes with one fingerprint, any order and repetition stores exactly those, one row each. */
  lemma LedgerHoldsEachOnce(t0: Tables, s: seq<Observation>, t: seq<Observation>)
    requires TablesInv(t0) && OneFingerprintPerId(s) && SameElements(s, t)
    ensures var events := IngestAll(t0, t).events;
      StoredIn(events) == Wanted(IndexOf(t0), s) && |events| == |Wanted(IndexOf(t0), s)|
  {
    hide Wanted, Backed, OneFingerprintPerId, SameElements, IngestAll, AbsorbAll;
    IngestAllRefines(t0, t);
    OneFingerprintBacks(IndexOf(t0), s);
    AnyOrderAnyRepetition(IndexOf(t0), s, t);
    OneRowEach(IngestAll(t0, t).events);
  }

  /** The fingerprints in the tables after a batch. */
  function InTables(t0: Tables, s: seq<Observation>): set<Fingerprint> {
    StoredIn(IngestAll(t0, s).events)
  }

  lemma TablesKeep(t0: Tables, s: seq<Observation>)
    requires TablesInv(t0)
    ensures InTables(t0, s) == Kept(IndexOf(t0), s)
  {
    hide IngestAll, AbsorbAll;
    IngestAllRefines(t0, s);
  }

  /** The same equivalence on the tables, whatever they hold. */
  lemma LedgerOrderIndependence(t0: Tables, s: seq<Observation>)
    requires TablesInv(t0)
    ensures Backed(IndexOf(t0), s) <==> forall t :: multiset(t) == multiset(s) ==> InTables(t0, t) == InTables(t0, s)
  {
    hide Backed, InTables, Kept, TablesInv;
    OrderIndependence(IndexOf(t0), s);
    forall t ensures InTables(t0, t) == Kept(IndexOf(t0), t) {
      TablesKeep(t0, t);
    }
  }

  /** Two different watches under one source event id: whichever comes first is the only one stored. */
  lemma OrderCanMatter() returns (a: Observation, b: Observation)
    ensures InTables(EMPTY, [a, b]) == {FingerprintOf(a)} && InTables(EMPTY, [b, a]) == {FingerprintOf(b)}
    ensures FingerprintOf(a) != FingerprintOf(b)
  {
    a := Observation("movie", Some(1), Some(10), "exact", "plex", Some("{}"), Some("7"), "high", "default", None, None);
    b := a.(localId := Some(2));
    assert Storable(a) && Storable(b);
    hide Storable, IngestAll;
    TablesKeep(EMPTY, [a, b]);
    TablesKeep(EMPTY, [b, a]);
    FirstWins(IndexOf(EMPTY), a, b);
    FirstWins(IndexOf(EMPTY), b, a);
  }

  lemma FirstWins(x: Index, a: Observation, b: Observation)
    requires Storable(a) && Open(x, a) && KeyOf(a).Some? && KeyOf(b) == KeyOf(a)
    ensures Kept(x, [a, b]) == x.stored + {FingerprintOf(a)}
  {
    hide Storable, Latent, Suppressed;
    assert [a, b][1..] == [b];
    var y := Absorb(x, a);
    assert Absorb(y, b) == y;
    assert AbsorbAll(y, [b]) == AbsorbAll(Absorb(y, b), []);
  }
}
