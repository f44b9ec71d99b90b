/**
 The integrity checker's own idea of a well-formed rollup: its shape, its generated
 sources and its freshness, and when a root written by the proposal engine satisfies it.
 */
module Integrity {
  import opened Options
  import opened Rollup
  import opened RollupFixpoint

  const FUTURE_STATUSES := {"future_unassigned", "future_project_not_initialized", "not_active"}

  datatype Finding = Finding(severity: string, code: string, subject: string, detail: set<string>)

  datatype Loaded = Loaded(
    path: string, attention: string, status: string, syncStatus: string, lastVerified: string, raw: Mapping)

  const TERMINAL_ROOT_STATUSES := {"completed", "paused", "inactive", "archived"}

  function StatusIn(c: Context, raw: Mapping): string {
    StrOr(c, raw, STATUS, "unknown")
  }

  function SyncIn(c: Context, raw: Mapping): string {
    StrOr(c, Section(raw, "sync"), "status", "unknown")
  }

  function LoadedOf(c: Context, repository: string, project: Mapping, item: Val): Option<Loaded> {
    var path := PathOf(c, item);
    if path.None? then None
    else
      var raw := c.read(repository, path.value);
      if raw.None? then None
      else
        Some(Loaded(path.value, AttentionOf(c, project, item.entries), StatusIn(c, raw.value), SyncIn(c, raw.value),
                    LastVerified(c, raw.value), raw.value))
  }

  function LoadAll(c: Context, repository: string, project: Mapping, items: seq<Val>): seq<Loaded> {
    if items == [] then []
    else
      var last := |items| - 1;
      var child := LoadedOf(c, repository, project, items[last]);
      LoadAll(c, repository, project, items[..last]) + (if child.Some? then [child.value] else [])
  }

  function MapPaths(c: Context, items: seq<Val>): set<string> {
    set i | 0 <= i < |items| && PathOf(c, items[i]).Some? :: PathOf(c, items[i]).value
  }

  predicate Idle(child: Loaded) {
    child.attention in NON_BLOCKING_ATTENTION || child.status in FUTURE_STATUSES
  }

  function Working(children: seq<Loaded>): seq<Loaded> {
    if children == [] then []
    else
      var last := |children| - 1;
      Working(children[..last]) + (if Idle(children[last]) then [] else [children[last]])
  }

  /** What iterating over a value yields, as a set; None when it is truthy and cannot be iterated over. */
  function Elements(v: Option<Val>): Option<set<Val>> {
    if !Truthy(v) then Some({})
    else
      match v.value
      case List(items) => Some(set item | item in items)
      case Dict(entries) => Some(set key | key in entries :: Text(key))
      case Text(text) => Some(set ch | ch in text :: Text([ch]))
      case _ => None
  }

  function Warning(code: string, subject: string, detail: set<string>): seq<Finding> {
    if detail == {} then [] else [Finding("warning", code, subject, detail)]
  }

  /** The paths declared by the root's workstreams. */
  function DeclaredPaths(c: Context, elements: set<Val>): set<string> {
    set item | item in elements && item.Dict? && Truthy(Get(item.entries, "path")) :: StrOf(c, item.entries["path"])
  }

  function GeneratedPaths(c: Context, elements: set<Val>): set<string> {
    set item | item in elements && Truthy(Some(item)) :: StrOf(c, item)
  }

  function ShapeFindings(c: Context, subject: string, root: Mapping, mapPaths: set<string>): Option<seq<Finding>> {
    var scope := StrOr(c, root, SCOPE, "");
    var elements := Elements(Get(root, WORKSTREAMS));
    if elements.None? then None
    else
      var declared := DeclaredPaths(c, elements.value);
      Some((if scope != "project_rollup" then [Finding("warning", "multi_workstream_root_not_rollup", subject, {scope})] else [])
           + Warning("rollup_missing_workstream_declaration", subject, mapPaths - declared)
           + Warning("rollup_declares_unknown_workstream", subject, declared - mapPaths))
  }

  function Required(working: seq<Loaded>): set<string> {
    set i | 0 <= i < |working| :: working[i].path
  }

  function SourceFindings(c: Context, subject: string, root: Mapping, working: seq<Loaded>, mapPaths: set<string>):
    Option<seq<Finding>>
  {
    var elements := Elements(Get(Section(root, POLICY), SOURCES));
    if elements.None? then None
    else
      var generated := GeneratedPaths(c, elements.value);
      Some(Warning("rollup_missing_active_source", subject, Required(working) - generated)
           + Warning("rollup_generated_from_unknown_source", subject, generated - mapPaths))
  }

  predicate Newer(c: Context, root: Mapping, child: Loaded) {
    var rootDate, date := ParseDate(c, LastVerified(c, root)), ParseDate(c, child.lastVerified);
    rootDate.Some? && date.Some? && date.value > rootDate.value
  }

  /** The first of the newer children with the latest date. */
  function NewestOf(c: Context, root: Mapping, working: seq<Loaded>): (newest: Option<Loaded>)
    ensures newest.Some? ==> newest.value in working && Newer(c, root, newest.value)
    ensures newest.Some? <==> exists child :: child in working && Newer(c, root, child)
  {
    if working == [] then None
    else
      var last := working[|working| - 1];
      assert working == working[..|working| - 1] + [last];
      var best := NewestOf(c, root, working[..|working| - 1]);
      if Newer(c, root, last)
         && (best.None? || ParseDate(c, last.lastVerified).value > ParseDate(c, best.value.lastVerified).value)
      then Some(last) else best
  }

  function FreshFindings(c: Context, subject: string, root: Mapping, working: seq<Loaded>): seq<Finding> {
    var newest := NewestOf(c, root, working);
    if newest.None? then [] else [Finding("warning", "rollup_outdated", subject, {newest.value.path})]
  }

  /** The shape, source and freshness findings of one project; None when a check raises. */
  function RollupFindings(c: Context, project: Mapping, items: seq<Val>): Option<seq<Finding>> {
    var root := RootOf(c, project);
    if root.None? then Some([])
    else
      var (repository, path, raw) := root.value;
      var children := LoadAll(c, repository, project, items);
      if children == [] then Some([])
      else
        var subject := StrOr(c, project, "name", StrOr(c, project, "id", "unknown"));
        var shape := ShapeFindings(c, subject, raw, MapPaths(c, items));
        var sources := SourceFindings(c, subject, raw, Working(children), MapPaths(c, items));
        if shape.None? || sources.None? then None
        else Some(shape.value + sources.value + FreshFindings(c, subject, raw, Working(children)))
  }

  function Unsynced(working: seq<Loaded>): set<string> {
    set i | 0 <= i < |working| && working[i].syncStatus != "synced" :: working[i].path + "=" + working[i].syncStatus
  }

  function SyncFindings(c: Context, subject: string, root: Mapping, working: seq<Loaded>): seq<Finding> {
    if SyncIn(c, root) != "synced" then [] else Warning("rollup_sync_conflict", subject, Unsynced(working))
  }

  function StillActive(working: seq<Loaded>): set<string> {
    set i | 0 <= i < |working| && working[i].status == "active" :: working[i].path
  }

  function StatusFindings(c: Context, subject: string, root: Mapping, working: seq<Loaded>): seq<Finding> {
    if StatusIn(c, root) !in TERMINAL_ROOT_STATUSES || StillActive(working) == {} then []
    else [Finding("error", "rollup_status_conflict", subject, StillActive(working))]
  }

  /** All that is found of one project. */
  function ProjectFindings(c: Context, project: Mapping, items: seq<Val>): Option<seq<Finding>> {
    var rollup, root := RollupFindings(c, project, items), RootOf(c, project);
    if rollup.None? || root.None? then rollup
    else
      var (repository, path, raw) := root.value;
      var subject := StrOr(c, project, "name", StrOr(c, project, "id", "unknown"));
      var working := Working(LoadAll(c, repository, project, items));
      Some(rollup.value + SyncFindings(c, subject, raw, working) + StatusFindings(c, subject, raw, working))
  }

  // ----- the two modules on the same files

  /** In Python only the empty string has an empty text. */
  ghost predicate Renders(c: Context) {
    forall v: Val :: c.render(v) != ""
  }

  function ActivePaths(active: seq<Child>): set<string> {
    set i | 0 <= i < |active| :: active[i].path
  }

  /** The same workstream as each module reads it. */
  predicate SameFile(x: Child, l: Loaded) {
    && l.path == x.path && l.attention == x.attention && l.lastVerified == x.lastVerified && l.raw == x.raw
    && l.status == if STATUS in x.raw then x.status else "unknown"
  }

  predicate SameFiles(xs: seq<Child>, ls: seq<Loaded>) {
    |xs| == |ls| && forall i :: 0 <= i < |xs| ==> SameFile(xs[i], ls[i])
  }

  lemma {:induction false} BothRead(c: Context, repository: string, project: Mapping, items: seq<Val>)
    ensures SameFiles(Children(c, repository, project, items), LoadAll(c, repository, project, items))
    decreases |items|
  {
    hide SameFile;
    if items != [] {
      var last := |items| - 1;
      BothRead(c, repository, project, items[..last]);
      BothReadOne(c, repository, project, items[last]);
    }
  }

  lemma BothReadOne(c: Context, repository: string, project: Mapping, item: Val)
    ensures var x, l := ChildOf(c, repository, project, item), LoadedOf(c, repository, project, item);
      x.Some? == l.Some? && (x.Some? ==> SameFile(x.value, l.value))
  {
  }

  lemma {:induction false} ChildReads(c: Context, repository: string, project: Mapping, items: seq<Val>, x: Child)
    requires Renders(c) && x in Children(c, repository, project, items)
    ensures c.read(repository, x.path) == Some(x.raw) && x.lastVerified == LastVerified(c, x.raw)
    ensures x.path in MapPaths(c, items) && x.path != ""
    decreases |items|
  {
    var last := |items| - 1;
    if ChildOf(c, repository, project, items[last]) == Some(x) {
    } else {
      ChildReads(c, repository, project, items[..last], x);
      var i :| 0 <= i < |items[..last]| && PathOf(c, items[..last][i]) == Some(x.path);
      assert items[i] == items[..last][i];
    }
  }

  lemma {:induction false} WorkingMembers(children: seq<Loaded>, l: Loaded)
    ensures l in Working(children) <==> l in children && !Idle(l)
    decreases |children|
  {
    if children != [] {
      var last := |children| - 1;
      WorkingMembers(children[..last], l);
      assert children == children[..last] + [children[last]];
    }
  }

  // ----- the root that the engine writes, under the checker's eyes

  lemma {:induction false} DeclarationsOf(c: Context, items: seq<Val>, entry: Val)
    ensures entry in Declarations(c, items) <==> exists i :: 0 <= i < |items| && DeclarationOf(c, items[i]) == Some(entry)
    decreases |items|
  {
    hide DeclarationOf;
    if items != [] {
      var last := |items| - 1;
      DeclarationsOf(c, items[..last], entry);
      if i :| 0 <= i < |items| && DeclarationOf(c, items[i]) == Some(entry) && i < last {
        assert items[..last][i] == items[i];
      }
    }
  }

  lemma DeclarationDeclares(c: Context, item: Val)
    requires Renders(c) && PathOf(c, item).Some?
    ensures var entry := DeclarationOf(c, item).value;
      entry.Dict? && Truthy(Get(entry.entries, "path")) && entry.entries["path"] == Text(PathOf(c, item).value)
  {
  }

  lemma DeclaresTheMap(c: Context, items: seq<Val>)
    requires Renders(c)
    ensures Elements(Some(List(Declarations(c, items)))).Some?
    ensures DeclaredPaths(c, Elements(Some(List(Declarations(c, items)))).value) == MapPaths(c, items)
  {
    hide DeclarationOf, PathOf, Declarations;
    var declarations := Declarations(c, items);
    var declared := DeclaredPaths(c, Elements(Some(List(declarations))).value);
    forall path | path in MapPaths(c, items) ensures path in declared {
      var i :| 0 <= i < |items| && PathOf(c, items[i]) == Some(path);
      DeclarationDeclares(c, items[i]);
      var entry := DeclarationOf(c, items[i]).value;
      DeclarationsOf(c, items, entry);
      assert entry in declarations;
    }
    forall path | path in declared ensures path in MapPaths(c, items) {
      var entry :| entry in declarations && entry.Dict? && Truthy(Get(entry.entries, "path"))
                   && StrOf(c, entry.entries["path"]) == path;
      DeclarationsOf(c, items, entry);
      var i :| 0 <= i < |items| && DeclarationOf(c, items[i]) == Some(entry);
      DeclarationDeclares(c, items[i]);
    }
  }

  lemma GeneratesTheActive(c: Context, active: seq<Child>)
    requires forall i :: 0 <= i < |active| ==> active[i].path != ""
    ensures Elements(Some(List(Sources(active)))).Some?
    ensures GeneratedPaths(c, Elements(Some(List(Sources(active)))).value) == ActivePaths(active)
  {
    var sources := Sources(active);
    var elements := Elements(Some(List(sources))).value;
    forall i | 0 <= i < |active| ensures active[i].path in GeneratedPaths(c, elements) {
      assert sources[i] == Text(active[i].path) && sources[i] in sources;
      assert sources[i] in elements && Truthy(Some(sources[i])) && StrOf(c, sources[i]) == active[i].path;
    }
  }

  lemma NoDifference(a: set<string>, b: set<string>)
    ensures a - b == {} <==> a <= b
  {
    if a - b == {} {
      forall x | x in a ensures x in b { assert x !in a - b; }
    }
  }

  /** A settled root draws no finding, or only those about an active source that it does not list. */
  lemma SettledFindings(c: Context, subject: string, root: Mapping, items: seq<Val>, active: seq<Child>,
                        working: seq<Loaded>, deferred: bool)
    requires Renders(c) && Structured(root, Declarations(c, items), active, deferred)
    requires forall i :: 0 <= i < |active| ==> active[i].path != "" && active[i].path in MapPaths(c, items)
    ensures ShapeFindings(c, subject, root, MapPaths(c, items)) == Some([])
    ensures SourceFindings(c, subject, root, working, MapPaths(c, items)).Some?
    ensures SourceFindings(c, subject, root, working, MapPaths(c, items)).value == []
      <==> Required(working) <= ActivePaths(active)
  {
    hide MapPaths, DeclaredPaths, Elements, GeneratedPaths, Declarations, Sources;
    DeclaresTheMap(c, items);
    GeneratesTheActive(c, active);
    NoDifference(ActivePaths(active), MapPaths(c, items));
    NoDifference(MapPaths(c, items), MapPaths(c, items));
    NoDifference(Required(working), ActivePaths(active));
    assert StrOr(c, root, SCOPE, "") == "project_rollup";
    var declared := DeclaredPaths(c, Elements(Get(root, WORKSTREAMS)).value);
    assert declared == MapPaths(c, items);
    assert ShapeFindings(c, subject, root, MapPaths(c, items)).value == [];
  }

  /** Sources that are all listed are none of them newer than the root. */
  lemma ListedIsFresh(c: Context, c': Context, repository: string, path: string, root: Mapping, root': Mapping,
                      project: Mapping, items: seq<Val>, l: Loaded)
    requires Renders(c) && Renders(c') && Rewrites(c, c', repository, path, root, root')
    requires var active := Active(Children(c, repository, project, items));
      !Stale(c, root', active) && l.path in ActivePaths(active)
    requires l in LoadAll(c', repository, project, items)
    ensures !Newer(c', root', l)
  {
    hide Stale, Children, LoadAll, Active;
    var xs, ls := Children(c', repository, project, items), LoadAll(c', repository, project, items);
    BothRead(c', repository, project, items);
    var k :| 0 <= k < |ls| && ls[k] == l;
    assert SameFile(xs[k], l);
    ChildReads(c', repository, project, items, xs[k]);
    var active := Active(Children(c, repository, project, items));
    var i :| 0 <= i < |active| && active[i].path == l.path;
    ActiveMembers(Children(c, repository, project, items), active[i]);
    ChildReads(c, repository, project, items, active[i]);
    FreshMeans(c, root', active);
    SameRendering(c, c', repository, path, root, root');
    SameDates(c, c', root', l.raw);
    if l.path != path { assert active[i].raw == l.raw && active[i] in active; }
  }

  lemma SameDates(c: Context, c': Context, root: Mapping, raw: Mapping)
    requires c'.render == c.render && c'.date == c.date
    ensures LastVerified(c', root) == LastVerified(c, root) && LastVerified(c', raw) == LastVerified(c, raw)
    ensures forall text :: ParseDate(c', text) == ParseDate(c, text)
  {
  }

  /**
   The root that the engine writes draws no shape, source or freshness finding, exactly when every workstream that
   the checker takes for active was active for the engine.
   */
  lemma SilentWhenBothAgree(c: Context, project: Mapping, items: seq<Val>)
    requires Propose(c, project, items).Some? && Renders(c)
    ensures var proposal := Propose(c, project, items).value;
      var c' := Applied(c, proposal);
      RollupFindings(c', project, items) == Some([]) <==>
        Required(Working(LoadAll(c', proposal.repository, project, items)))
        <= ActivePaths(Active(Children(c, proposal.repository, project, items)))
  {
    hide Changes, Apply, Children, Declarations, Rewrites, RootOf, Applied, Active, LoadAll, Working, Newer, NewestOf;
    hide ShapeFindings, SourceFindings, MapPaths, Stale, Structured;
    var proposal := Propose(c, project, items).value;
    var c' := Applied(c, proposal);
    var repository, path, root, root', xs := AppliedRewrites(c, project, items);
    SameRendering(c, c', repository, path, root, root');
    assert Renders(c');
    var active, ls := Active(xs), LoadAll(c', repository, project, items);
    var settled := ChangesSettle(c, root, Declarations(c, items), active, |active| != |xs|);
    DeclarationsStay(c, c', items);
    SamePaths(c, c', items);
    forall i | 0 <= i < |active| ensures active[i].path != "" && active[i].path in MapPaths(c', items) {
      ActiveMembers(xs, active[i]);
      ChildReads(c, repository, project, items, active[i]);
    }
    NothingIsUnread(c, c', repository, path, root, root', project, items);
    PartsOfFindings(c', project, items, repository, path, root');
    var subject := StrOr(c', project, "name", StrOr(c', project, "id", "unknown"));
    SettledFindings(c', subject, root', items, active, Working(ls), |active| != |xs|);
    if Required(Working(ls)) <= ActivePaths(active) {
      forall l | l in Working(ls) ensures !Newer(c', root', l) {
        WorkingMembers(ls, l);
        assert l.path in Required(Working(ls));
        ListedIsFresh(c, c', repository, path, root, root', project, items, l);
      }
      NothingNewer(c', root', Working(ls));
    }
  }

  /** The project's findings, part by part. */
  lemma PartsOfFindings(c: Context, project: Mapping, items: seq<Val>, repository: string, path: string, root: Mapping)
    requires RootOf(c, project) == Some((repository, path, root)) && LoadAll(c, repository, project, items) != []
    ensures var subject := StrOr(c, project, "name", StrOr(c, project, "id", "unknown"));
      var working := Working(LoadAll(c, repository, project, items));
      var shape := ShapeFindings(c, subject, root, MapPaths(c, items));
      var sources := SourceFindings(c, subject, root, working, MapPaths(c, items));
      shape.Some? && sources.Some? ==>
        && RollupFindings(c, project, items).Some?
        && (RollupFindings(c, project, items) == Some([]) <==>
              shape.value == [] && sources.value == [] && FreshFindings(c, subject, root, working) == [])
  {
    hide RootOf, LoadAll, Working, ShapeFindings, SourceFindings, FreshFindings, MapPaths;
    var subject := StrOr(c, project, "name", StrOr(c, project, "id", "unknown"));
    var working := Working(LoadAll(c, repository, project, items));
    var shape := ShapeFindings(c, subject, root, MapPaths(c, items));
    var sources := SourceFindings(c, subject, root, working, MapPaths(c, items));
    if shape.Some? && sources.Some? {
      var found := RollupFindings(c, project, items).value;
      assert |found| == |shape.value| + |sources.value| + |FreshFindings(c, subject, root, working)|;
      assert found == [] <==> |found| == 0;
    }
  }

  lemma NothingNewer(c: Context, root: Mapping, working: seq<Loaded>)
    requires forall l :: l in working ==> !Newer(c, root, l)
    ensures NewestOf(c, root, working) == None
  {
  }

  lemma SamePaths(c: Context, c': Context, items: seq<Val>)
    requires c'.render == c.render
    ensures MapPaths(c', items) == MapPaths(c, items)
  {
    assert forall item :: PathOf(c', item) == PathOf(c, item);
  }

  lemma NothingIsUnread(c: Context, c': Context, repository: string, path: string, root: Mapping, root': Mapping,
                        project: Mapping, items: seq<Val>)
    requires Rewrites(c, c', repository, path, root, root') && Children(c, repository, project, items) != []
    ensures LoadAll(c', repository, project, items) != []
  {
    ChildrenAlike(c, c', repository, path, root, root', project, items);
    BothRead(c', repository, project, items);
  }
}
