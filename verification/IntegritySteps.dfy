/**
 What the integrity checker must report of a project, finding by finding: each code with the condition it stands for and
 the paths that it lists.
 */
module IntegritySteps {
  import opened Options
  import opened Rollup
  import opened RollupSteps
  import opened Integrity

  // ----- what the root says

  predicate HasText(c: Context, m: Mapping, key: string, p: string) {
    Present(m, key) && Prints(c, m[key], p)
  }

  /** The root declares a workstream with this path. */
  ghost predicate DeclaresPath(c: Context, root: Mapping, p: string) {
    "workstreams" in root && root["workstreams"].List? &&
    exists item :: item in root["workstreams"].items && item.Dict? && HasText(c, item.entries, "path", p)
  }

  function PolicyOf(root: Mapping): Mapping {
    if "rollup_policy" in root && root["rollup_policy"].Dict? then root["rollup_policy"].entries else map[]
  }

  /** The root lists this path among its sources: an entry of a list, a key of a mapping, or a character of a text. */
  ghost predicate ListsSource(c: Context, root: Mapping, p: string) {
    "generated_from" in PolicyOf(root) &&
    match PolicyOf(root)["generated_from"]
    case List(items) => exists item :: item in items && Counts(item) && Prints(c, item, p)
    case Dict(entries) => p in entries && p != ""
    case Text(text) => exists ch :: ch in text && p == [ch]
    case _ => false
  }

  /** A value that cannot be iterated over, and counts as true: the check raises. */
  predicate Raises(m: Mapping, key: string) {
    key in m && (m[key] == Flag(true) || (m[key].Scalar? && m[key].truth))
  }

  lemma ElementsRaise(m: Mapping, key: string)
    ensures Elements(Get(m, key)).None? <==> Raises(m, key)
  {
  }

  lemma CountsMeans(v: Val)
    ensures Truthy(Some(v)) <==> Counts(v)
  {
  }

  lemma PrintsOne(c: Context, v: Val, p: string)
    ensures Prints(c, v, p) <==> p == StrOf(c, v)
  {
  }

  lemma DeclaredMeans(c: Context, root: Mapping, p: string)
    requires !Raises(root, "workstreams")
    ensures p in DeclaredPaths(c, Elements(Get(root, WORKSTREAMS)).value) <==> DeclaresPath(c, root, p)
  {
    ElementsRaise(root, WORKSTREAMS);
    var elements := Elements(Get(root, WORKSTREAMS)).value;
    hide StrOf, Prints;
    if p in DeclaredPaths(c, elements) {
      var item :| item in elements && item.Dict? && Truthy(Get(item.entries, "path")) && StrOf(c, item.entries["path"]) == p;
      StrPrints(c, item.entries, "path", "");
      assert HasText(c, item.entries, "path", p);
    }
    if DeclaresPath(c, root, p) {
      var item :| item in root["workstreams"].items && item.Dict? && HasText(c, item.entries, "path", p);
      StrPrints(c, item.entries, "path", "");
      PrintsOne(c, item.entries["path"], p);
      assert item in elements;
    }
  }

  lemma SourceMeans(c: Context, root: Mapping, p: string)
    requires !Raises(PolicyOf(root), "generated_from")
    ensures Elements(Get(Section(root, POLICY), SOURCES)).Some?
    ensures p in GeneratedPaths(c, Elements(Get(Section(root, POLICY), SOURCES)).value) <==> ListsSource(c, root, p)
  {
    assert Section(root, POLICY) == PolicyOf(root);
    ElementsRaise(PolicyOf(root), SOURCES);
    var v := Get(PolicyOf(root), SOURCES);
    if v.Some? {
      match v.value {
        case List(items) => ListedSource(c, items, p);
        case Dict(entries) => KeyedSource(c, entries, p);
        case Text(text) => SpelledSource(c, text, p);
        case _ =>
      }
    }
  }

  lemma ListedSource(c: Context, items: seq<Val>, p: string)
    ensures p in GeneratedPaths(c, Elements(Some(List(items))).value)
      <==> exists item :: item in items && Counts(item) && Prints(c, item, p)
  {
    hide Counts, Prints, StrOf;
    forall item ensures (Truthy(Some(item)) <==> Counts(item)) && (Prints(c, item, p) <==> p == StrOf(c, item)) {
      CountsMeans(item);
      PrintsOne(c, item, p);
    }
    var elements := Elements(Some(List(items))).value;
    assert forall item :: item in elements <==> item in items;
  }

  lemma KeyedSource(c: Context, entries: map<string, Val>, p: string)
    ensures p in GeneratedPaths(c, Elements(Some(Dict(entries))).value) <==> p in entries && p != ""
  {
    var elements := Elements(Some(Dict(entries))).value;
    if p in entries && p != "" {
      assert Text(p) in elements && Truthy(Some(Text(p))) && StrOf(c, Text(p)) == p;
    }
  }

  lemma SpelledSource(c: Context, text: string, p: string)
    ensures p in GeneratedPaths(c, Elements(Some(Text(text))).value) <==> exists ch :: ch in text && p == [ch]
  {
    var elements := Elements(Some(Text(text))).value;
    if ch :| ch in text && p == [ch] {
      assert Text([ch]) in elements && Truthy(Some(Text([ch]))) && StrOf(c, Text([ch])) == p;
    }
  }

  // ----- the findings

  /** A warning that lists exactly the paths in question, if there are any. */
  ghost predicate Lists(f: Finding, severity: string, member: string -> bool) {
    f.severity == severity && f.detail != {} && forall p :: p in f.detail <==> member(p)
  }

  ghost predicate IsShapeFinding(c: Context, root: Mapping, mapped: set<string>, f: Finding) {
    || (f.code == "multi_workstream_root_not_rollup" && f.severity == "warning" &&
        exists s :: Reads(c, root, "state_scope", "", s) && s != "project_rollup" && f.detail == {s})
    || (f.code == "rollup_missing_workstream_declaration" && Lists(f, "warning", p => p in mapped && !DeclaresPath(c, root, p)))
    || (f.code == "rollup_declares_unknown_workstream" && Lists(f, "warning", p => p !in mapped && DeclaresPath(c, root, p)))
  }

  predicate WorksAt(working: seq<Loaded>, p: string) {
    exists i :: 0 <= i < |working| && working[i].path == p
  }

  ghost predicate IsSourceFinding(c: Context, root: Mapping, working: seq<Loaded>, mapped: set<string>, f: Finding) {
    || (f.code == "rollup_missing_active_source" && Lists(f, "warning", p => WorksAt(working, p) && !ListsSource(c, root, p)))
    || (f.code == "rollup_generated_from_unknown_source" && Lists(f, "warning", p => p !in mapped && ListsSource(c, root, p)))
  }

  /** Both dates can be read, and this one is later. */
  predicate LaterThan(c: Context, a: string, b: string) {
    ParseDate(c, a).Some? && ParseDate(c, b).Some? && ParseDate(c, a).value > ParseDate(c, b).value
  }

  /** The workstream is later than the root, and none of the others is later than it. */
  ghost predicate IsFreshFinding(c: Context, root: Mapping, working: seq<Loaded>, f: Finding) {
    && f.code == "rollup_outdated" && f.severity == "warning"
    && exists i :: 0 <= i < |working| && f.detail == {working[i].path} && FirstLatest(c, working, i) &&
         LaterThan(c, working[i].lastVerified, LastVerified(c, root))
  }

  /** Nobody is later, and nobody before it is as late. */
  ghost predicate FirstLatest(c: Context, working: seq<Loaded>, i: int)
    requires 0 <= i < |working|
  {
    && (forall k :: 0 <= k < |working| ==> !LaterThan(c, working[k].lastVerified, working[i].lastVerified))
    && (forall k :: 0 <= k < i ==>
          ParseDate(c, working[k].lastVerified) != ParseDate(c, working[i].lastVerified))
  }

  ghost predicate IsSyncFinding(c: Context, root: Mapping, working: seq<Loaded>, f: Finding) {
    && f.code == "rollup_sync_conflict" && SyncIn(c, root) == "synced"
    && Lists(f, "warning", s => exists i :: 0 <= i < |working| && working[i].syncStatus != "synced" &&
                                  s == working[i].path + "=" + working[i].syncStatus)
  }

  ghost predicate IsStatusFinding(c: Context, root: Mapping, working: seq<Loaded>, f: Finding) {
    && f.code == "rollup_status_conflict"
    && (exists s :: Reads(c, root, "status", "unknown", s) && s in ["completed", "paused", "inactive", "archived"])
    && Lists(f, "error", p => exists i :: 0 <= i < |working| && working[i].status == "active" && p == working[i].path)
  }

  ghost predicate IsFinding(c: Context, subject: string, root: Mapping, working: seq<Loaded>, mapped: set<string>, f: Finding) {
    f.subject == subject &&
    (IsShapeFinding(c, root, mapped, f) || IsSourceFinding(c, root, working, mapped, f) || IsFreshFinding(c, root, working, f)
     || IsSyncFinding(c, root, working, f) || IsStatusFinding(c, root, working, f))
  }

  lemma WarningMeans(code: string, subject: string, detail: set<string>, member: string -> bool, f: Finding)
    requires forall p :: p in detail <==> member(p)
    ensures f in Warning(code, subject, detail) <==> f.code == code && f.subject == subject && Lists(f, "warning", member)
  {
    if f.code == code && f.subject == subject && Lists(f, "warning", member) {
      assert f.detail == detail;
    }
  }

  lemma ShapeIsRight(c: Context, subject: string, root: Mapping, mapped: set<string>, f: Finding)
    ensures ShapeFindings(c, subject, root, mapped).None? <==> Raises(root, "workstreams")
    ensures ShapeFindings(c, subject, root, mapped).Some? ==>
      (f in ShapeFindings(c, subject, root, mapped).value <==> f.subject == subject && IsShapeFinding(c, root, mapped, f))
  {
    ElementsRaise(root, WORKSTREAMS);
    if !Raises(root, "workstreams") {
      var declared := DeclaredPaths(c, Elements(Get(root, WORKSTREAMS)).value);
      forall p ensures p in declared <==> DeclaresPath(c, root, p) { DeclaredMeans(c, root, p); }
      StrPrints(c, root, SCOPE, "");
      var scope := StrOr(c, root, SCOPE, "");
      forall s ensures Reads(c, root, "state_scope", "", s) <==> s == scope { OnlyText(c, root, "state_scope", "", s); }
      hide DeclaredPaths, DeclaresPath, Elements, Lists, Reads, StrOr, Warning;
      WarningMeans("rollup_missing_workstream_declaration", subject, mapped - declared,
                   p => p in mapped && !DeclaresPath(c, root, p), f);
      WarningMeans("rollup_declares_unknown_workstream", subject, declared - mapped,
                   p => p !in mapped && DeclaresPath(c, root, p), f);
    }
  }

  lemma OnlyText(c: Context, m: Mapping, key: string, default: string, s: string)
    ensures Reads(c, m, key, default, s) <==> s == StrOr(c, m, key, default)
  {
  }

  lemma SourcesAreRight(c: Context, subject: string, root: Mapping, working: seq<Loaded>, mapped: set<string>, f: Finding)
    ensures SourceFindings(c, subject, root, working, mapped).None? <==> Raises(PolicyOf(root), "generated_from")
    ensures SourceFindings(c, subject, root, working, mapped).Some? ==>
      (f in SourceFindings(c, subject, root, working, mapped).value <==>
        f.subject == subject && IsSourceFinding(c, root, working, mapped, f))
  {
    assert Section(root, POLICY) == PolicyOf(root);
    ElementsRaise(PolicyOf(root), SOURCES);
    if !Raises(PolicyOf(root), "generated_from") {
      var generated := GeneratedPaths(c, Elements(Get(Section(root, POLICY), SOURCES)).value);
      forall p ensures p in generated <==> ListsSource(c, root, p) { SourceMeans(c, root, p); }
      forall p ensures p in Required(working) <==> WorksAt(working, p) { }
      hide GeneratedPaths, ListsSource, Elements, Lists, Warning, Required, WorksAt;
      WarningMeans("rollup_missing_active_source", subject, Required(working) - generated,
                   p => WorksAt(working, p) && !ListsSource(c, root, p), f);
      WarningMeans("rollup_generated_from_unknown_source", subject, generated - mapped,
                   p => p !in mapped && ListsSource(c, root, p), f);
    }
  }

  lemma SyncIsRight(c: Context, subject: string, root: Mapping, working: seq<Loaded>, f: Finding)
    ensures f in SyncFindings(c, subject, root, working) <==> f.subject == subject && IsSyncFinding(c, root, working, f)
  {
    hide Lists, Warning, SyncIn;
    WarningMeans("rollup_sync_conflict", subject, Unsynced(working),
                 s => exists i :: 0 <= i < |working| && working[i].syncStatus != "synced" &&
                                    s == working[i].path + "=" + working[i].syncStatus, f);
  }

  lemma StatusIsRight(c: Context, subject: string, root: Mapping, working: seq<Loaded>, f: Finding)
    ensures f in StatusFindings(c, subject, root, working) <==> f.subject == subject && IsStatusFinding(c, root, working, f)
  {
    var status := StatusIn(c, root);
    forall s ensures Reads(c, root, "status", "unknown", s) <==> s == status { OnlyText(c, root, "status", "unknown", s); }
    assert status in TERMINAL_ROOT_STATUSES <==> status in ["completed", "paused", "inactive", "archived"];
    var member := (p: string) => exists i :: 0 <= i < |working| && working[i].status == "active" && p == working[i].path;
    assert forall p :: p in StillActive(working) <==> member(p);
    if Lists(f, "error", member) { assert f.detail == StillActive(working); }
    hide Reads, StatusIn, TERMINAL_ROOT_STATUSES;
  }

  lemma {:induction false} NewestIsFirstLatest(c: Context, root: Mapping, working: seq<Loaded>) returns (i: int)
    requires NewestOf(c, root, working).Some?
    ensures 0 <= i < |working| && working[i] == NewestOf(c, root, working).value
    ensures FirstLatest(c, working, i) && LaterThan(c, working[i].lastVerified, LastVerified(c, root))
    decreases |working|
  {
    var last := |working| - 1;
    var front := working[..last];
    hide ParseDate;
    if NewestOf(c, root, front).None? {
      i := last;
      forall k | 0 <= k < last ensures !Newer(c, root, working[k]) { assert front[k] in front; }
    } else {
      var j := NewestIsFirstLatest(c, root, front);
      var newest := working[j].lastVerified;
      i := if NewestOf(c, root, working) == Some(working[last]) && LaterThan(c, working[last].lastVerified, newest) then last else j;
      assert forall k :: 0 <= k < last ==> front[k] == working[k];
      forall k | 0 <= k < last ensures !LaterThan(c, working[k].lastVerified, newest) { assert front[k] == working[k]; }
      forall k | 0 <= k < j ensures ParseDate(c, working[k].lastVerified) != ParseDate(c, newest) { assert front[k] == working[k]; }
    }
  }

  lemma FreshIsRight(c: Context, subject: string, root: Mapping, working: seq<Loaded>, f: Finding)
    ensures f in FreshFindings(c, subject, root, working) <==> f.subject == subject && IsFreshFinding(c, root, working, f)
  {
    hide ParseDate;
    if NewestOf(c, root, working).Some? {
      var i := NewestIsFirstLatest(c, root, working);
      if IsFreshFinding(c, root, working, f) {
        var k :| 0 <= k < |working| && f.detail == {working[k].path} && FirstLatest(c, working, k) &&
          LaterThan(c, working[k].lastVerified, LastVerified(c, root));
        assert k == i;
      }
    } else {
      forall k | 0 <= k < |working| ensures !LaterThan(c, working[k].lastVerified, LastVerified(c, root)) {
        assert working[k] in working && !Newer(c, root, working[k]);
      }
    }
  }

  // ----- the project

  /** A workstream as the checker reads it: its status is its own, or unknown. */
  predicate LoadedAs(c: Context, repository: string, project: Mapping, item: Val, l: Loaded) {
    && Names(c, item, l.path)
    && c.read(repository, l.path) == Some(l.raw)
    && ("core_attention" in item.entries ==> Prints(c, item.entries["core_attention"], l.attention))
    && ("core_attention" !in item.entries ==> Reads(c, project, "core_attention", "unspecified", l.attention))
    && Reads(c, l.raw, "status", "unknown", l.status)
    && Reads(c, if "sync" in l.raw && l.raw["sync"].Dict? then l.raw["sync"].entries else map[], "status", "unknown", l.syncStatus)
    && VerifiedAs(c, l.raw, l.lastVerified)
  }

  lemma LoadIsRight(c: Context, repository: string, project: Mapping, item: Val)
    ensures var l := LoadedOf(c, repository, project, item);
      && (l.Some? <==> Readable(c, repository, item))
      && (l.Some? ==> LoadedAs(c, repository, project, item, l.value))
  {
    PathIsNamed(c, item);
    var l := LoadedOf(c, repository, project, item);
    if l.Some? {
      StrPrints(c, project, "core_attention", "unspecified");
      StrPrints(c, item.entries, "core_attention", AttentionOf(c, project, map[]));
      StrPrints(c, l.value.raw, "status", "unknown");
      StrPrints(c, Section(l.value.raw, "sync"), "status", "unknown");
      DateIsRead(c, l.value.raw);
      hide Prints, Names, StrOf, VerifiedAs, LastVerified, PathOf;
    }
  }

  ghost predicate LoadedAllAt(c: Context, repository: string, project: Mapping, items: seq<Val>, ks: seq<int>,
                              loaded: seq<Loaded>) {
    && |ks| == |loaded|
    && (forall a, b :: 0 <= a < b < |ks| ==> ks[a] < ks[b])
    && (forall k :: k in ks <==> 0 <= k < |items| && Readable(c, repository, items[k]))
    && forall a :: 0 <= a < |ks| ==> 0 <= ks[a] < |items| && LoadedAs(c, repository, project, items[ks[a]], loaded[a])
  }

  lemma LoadOneMore(c: Context, repository: string, project: Mapping, items: seq<Val>, ks: seq<int>, loaded: seq<Loaded>, item: Val)
    requires LoadedAllAt(c, repository, project, items, ks, loaded)
    ensures !Readable(c, repository, item) ==> LoadedAllAt(c, repository, project, items + [item], ks, loaded)
    ensures forall l :: Readable(c, repository, item) && LoadedAs(c, repository, project, item, l) ==>
      LoadedAllAt(c, repository, project, items + [item], ks + [|items|], loaded + [l])
  {
    hide Readable, LoadedAs;
    assert forall a :: 0 <= a < |ks| ==> ks[a] in ks;
  }

  lemma {:induction false} LoadsAreRight(c: Context, repository: string, project: Mapping, items: seq<Val>) returns (ks: seq<int>)
    ensures LoadedAllAt(c, repository, project, items, ks, LoadAll(c, repository, project, items))
    decreases |items|
  {
    if items == [] {
      ks := [];
    } else {
      var last := |items| - 1;
      ks := LoadsAreRight(c, repository, project, items[..last]);
      LoadOneMore(c, repository, project, items[..last], ks, LoadAll(c, repository, project, items[..last]), items[last]);
      assert items[..last] + [items[last]] == items;
      LoadIsRight(c, repository, project, items[last]);
      hide LoadedAllAt, LoadedAs, LoadedOf, Readable;
      if LoadedOf(c, repository, project, items[last]).Some? { ks := ks + [last]; }
    }
  }

  predicate Resting(l: Loaded) {
    || l.attention in ["deferred", "parked", "none", "future", "background"]
    || l.status in ["future_unassigned", "future_project_not_initialized", "not_active"]
  }

  ghost predicate WorkingAt(ks: seq<int>, loaded: seq<Loaded>, working: seq<Loaded>) {
    && |ks| == |working|
    && (forall a, b :: 0 <= a < b < |ks| ==> ks[a] < ks[b])
    && (forall k :: k in ks <==> 0 <= k < |loaded| && !Resting(loaded[k]))
    && forall a :: 0 <= a < |ks| ==> 0 <= ks[a] < |loaded| && working[a] == loaded[ks[a]]
  }

  lemma WorkingGrows(ks: seq<int>, loaded: seq<Loaded>, working: seq<Loaded>, l: Loaded)
    requires WorkingAt(ks, loaded, working)
    ensures Resting(l) ==> WorkingAt(ks, loaded + [l], working)
    ensures !Resting(l) ==> WorkingAt(ks + [|loaded|], loaded + [l], working + [l])
  {
    hide Resting;
    assert forall a :: 0 <= a < |ks| ==> ks[a] in ks;
  }

  lemma {:induction false} WorkingIsRight(loaded: seq<Loaded>) returns (ks: seq<int>)
    ensures WorkingAt(ks, loaded, Working(loaded))
    decreases |loaded|
  {
    if loaded == [] {
      ks := [];
    } else {
      var last := |loaded| - 1;
      ks := WorkingIsRight(loaded[..last]);
      WorkingGrows(ks, loaded[..last], Working(loaded[..last]), loaded[last]);
      assert loaded[..last] + [loaded[last]] == loaded;
      assert Idle(loaded[last]) <==> Resting(loaded[last]);
      hide WorkingAt, Idle, Resting;
      if !Idle(loaded[last]) { ks := ks + [last]; }
    }
  }

  /** What the checker has before it: the root, the workstreams that can be read, those at work, and the mapped paths. */
  datatype Scene = Scene(
    subject: string, repository: string, path: string, root: Mapping, loaded: seq<Loaded>, working: seq<Loaded>,
    mapped: set<string>)

  ghost predicate IsScene(c: Context, project: Mapping, items: seq<Val>, x: Scene) {
    && (exists id :: NamedFor(c, project, id, x.subject))
    && RootAt(c, project, x.repository, x.path) && c.read(x.repository, x.path) == Some(x.root)
    && (exists ks :: LoadedAllAt(c, x.repository, project, items, ks, x.loaded))
    && (exists ks :: WorkingAt(ks, x.loaded, x.working))
    && forall p :: p in x.mapped <==> exists i :: 0 <= i < |items| && Names(c, items[i], p)
  }

  /** The findings are exactly those that the scene gives cause for; none if no workstream can be read. */
  ghost predicate FoundIn(c: Context, x: Scene, before: seq<Finding>, after: seq<Finding>) {
    if x.loaded == [] then after == before
    else forall f :: f in after <==> f in before || IsFinding(c, x.subject, x.root, x.working, x.mapped, f)
  }

  ghost predicate CheckedRightly(c: Context, project: Mapping, items: seq<Val>, before: seq<Finding>, after: seq<Finding>) {
    || (after == before && forall repository, path :: RootAt(c, project, repository, path) ==> c.read(repository, path).None?)
    || exists x :: IsScene(c, project, items, x) && FoundIn(c, x, before, after)
  }

  function SceneOf(c: Context, project: Mapping, items: seq<Val>): Scene
    requires RootOf(c, project).Some?
  {
    var (repository, path, root) := RootOf(c, project).value;
    var loaded := LoadAll(c, repository, project, items);
    Scene(StrOr(c, project, "name", StrOr(c, project, "id", "unknown")), repository, path, root, loaded, Working(loaded),
          MapPaths(c, items))
  }

  lemma PathsAreMapped(c: Context, items: seq<Val>, p: string)
    ensures p in MapPaths(c, items) <==> exists i :: 0 <= i < |items| && Names(c, items[i], p)
  {
    hide PathOf, Names;
    forall i | 0 <= i < |items| ensures Names(c, items[i], p) <==> PathOf(c, items[i]) == Some(p) {
      PathIsNamed(c, items[i]);
      OneName(c, items[i], p);
    }
  }

  lemma OneName(c: Context, item: Val, p: string)
    ensures PathOf(c, item).Some? ==> (Names(c, item, p) <==> PathOf(c, item) == Some(p))
    ensures PathOf(c, item).None? ==> !Names(c, item, p)
  {
    PathIsNamed(c, item);
    if item.Dict? && "state_path" in item.entries { PrintsOne(c, item.entries["state_path"], p); }
  }

  predicate NamedFor(c: Context, project: Mapping, id: string, subject: string) {
    Reads(c, project, "id", "unknown", id) && Reads(c, project, "name", id, subject)
  }

  lemma SubjectIsRight(c: Context, project: Mapping)
    ensures var id := StrOr(c, project, "id", "unknown"); NamedFor(c, project, id, StrOr(c, project, "name", id))
  {
    StrPrints(c, project, "id", "unknown");
    StrPrints(c, project, "name", StrOr(c, project, "id", "unknown"));
    hide Reads, StrOr;
  }

  lemma SceneIsRight(c: Context, project: Mapping, items: seq<Val>)
    requires RootOf(c, project).Some?
    ensures IsScene(c, project, items, SceneOf(c, project, items))
  {
    hide *;
    var (repository, path, root) := RootOf(c, project).value;
    var loaded := LoadAll(c, repository, project, items);
    SubjectIsRight(c, project);
    RootIsRight(c, project);
    var read := LoadsAreRight(c, repository, project, items);
    var at := WorkingIsRight(loaded);
    var mapped := MapPaths(c, items);
    forall p ensures p in mapped <==> exists i :: 0 <= i < |items| && Names(c, items[i], p) { PathsAreMapped(c, items, p); }
    SceneFrom(c, project, items, repository, path, root, loaded, Working(loaded), mapped, read, at);
  }

  lemma SceneFrom(c: Context, project: Mapping, items: seq<Val>, repository: string, path: string, root: Mapping,
                  loaded: seq<Loaded>, working: seq<Loaded>, mapped: set<string>, read: seq<int>, at: seq<int>)
    requires RootOf(c, project) == Some((repository, path, root)) && RootAt(c, project, repository, path)
    requires c.read(repository, path) == Some(root)
    requires loaded == LoadAll(c, repository, project, items) && LoadedAllAt(c, repository, project, items, read, loaded)
    requires working == Working(loaded) && WorkingAt(at, loaded, working)
    requires mapped == MapPaths(c, items) && forall p :: p in mapped <==> exists i :: 0 <= i < |items| && Names(c, items[i], p)
    requires var id := StrOr(c, project, "id", "unknown"); NamedFor(c, project, id, StrOr(c, project, "name", id))
    ensures IsScene(c, project, items, SceneOf(c, project, items))
  {
    hide NamedFor, RootAt, LoadedAllAt, WorkingAt, Names, StrOr, RootOf, LoadAll, Working, MapPaths;
  }

  lemma FindingsOfScene(c: Context, project: Mapping, items: seq<Val>, f: Finding)
    requires RootOf(c, project).Some? && ProjectFindings(c, project, items).Some?
    ensures var x := SceneOf(c, project, items);
      if x.loaded == [] then ProjectFindings(c, project, items).value == []
      else f in ProjectFindings(c, project, items).value <==> IsFinding(c, x.subject, x.root, x.working, x.mapped, f)
  {
    var x := SceneOf(c, project, items);
    if x.loaded != [] {
      hide RootOf, LoadAll, MapPaths, StrOr, ShapeFindings, SourceFindings, FreshFindings, SyncFindings, StatusFindings;
      ShapeIsRight(c, x.subject, x.root, x.mapped, f);
      SourcesAreRight(c, x.subject, x.root, x.working, x.mapped, f);
      FreshIsRight(c, x.subject, x.root, x.working, f);
      SyncIsRight(c, x.subject, x.root, x.working, f);
      StatusIsRight(c, x.subject, x.root, x.working, f);
      hide Working, IsShapeFinding, IsSourceFinding, IsFreshFinding, IsSyncFinding, IsStatusFinding;
    }
  }

  lemma FindingsAreRight(c: Context, project: Mapping, items: seq<Val>, before: seq<Finding>)
    ensures var found := ProjectFindings(c, project, items);
      found.Some? ==> CheckedRightly(c, project, items, before, before + found.value)
  {
    RootIsRight(c, project);
    if ProjectFindings(c, project, items).Some? {
      var found := ProjectFindings(c, project, items).value;
      if RootOf(c, project).Some? {
        var x := SceneOf(c, project, items);
        SceneIsRight(c, project, items);
        forall f
          ensures if x.loaded == [] then found == [] else f in found <==> IsFinding(c, x.subject, x.root, x.working, x.mapped, f)
        {
          FindingsOfScene(c, project, items, f);
        }
        hide IsScene, IsFinding, SceneOf, ProjectFindings, RootOf;
        assert FoundIn(c, x, before, before + found);
      }
    }
  }
}
