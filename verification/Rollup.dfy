/**
 Project rollups: what the proposal engine derives for a root state from the states of
 its workstreams. Parsed state files are values; reading a file, rendering a list or a
 mapping as text and parsing a date are deterministic functions of the context.
 */
module Rollup {
  import opened Options

  // A scalar is a number, a date or any other parsed value that is not one of the rest.
  datatype Val =
    | Null
    | Flag(flag: bool)
    | Text(text: string)
    | Scalar(literal: string, truth: bool)
    | List(items: seq<Val>)
    | Dict(entries: map<string, Val>)

  type Mapping = map<string, Val>

  // `read` is None when the file cannot be read or is not a mapping.
  datatype Context = Context(
    central: string, read: (string, string) -> Option<Mapping>, render: Val -> string, date: string -> Option<int>)

  const NON_BLOCKING_ATTENTION := {"deferred", "parked", "none", "future", "background"}
  const NON_BLOCKING_STATUSES := {
    "future_unassigned", "future_project_not_initialized", "not_active", "deferred_manual"}

  const SCOPE := "state_scope"
  const WORKSTREAMS := "workstreams"
  const POLICY := "rollup_policy"
  const SOURCES := "generated_from"
  const WRITES_ROOT := "specialist_writes_root"
  const UNBLOCKED := "future_workstreams_do_not_block_rollup"
  const VERIFICATION := "verification"
  const VERIFIED := "last_verified"
  const STATUS := "status"
  const PHASE := "phase"
  const GATE := "current_gate"
  const ACTION := "exact_next_action"

  datatype Child = Child(
    id: string, path: string, owner: string, attention: string, status: string, lastVerified: string, raw: Mapping)

  /** A key of the proposed changes: a field of the root, or `parent.name`. */
  datatype Key = Field(name: string) | Under(parent: string, name: string)

  datatype Change = Change(key: Key, value: Val)

  datatype Proposal = Proposal(
    id: string, name: string, repository: string, rootPath: string, basis: seq<string>,
    changes: seq<Change>, manual: bool, notes: seq<string>)

  function Get(m: Mapping, key: string): Option<Val> {
    if key in m then Some(m[key]) else None
  }

  /** What reading a field yields: null also when the field is absent. */
  function Lookup(m: Mapping, key: string): Val {
    if key in m then m[key] else Null
  }

  predicate Truthy(v: Option<Val>) {
    match v
    case None => false
    case Some(Null) => false
    case Some(Flag(flag)) => flag
    case Some(Text(text)) => text != ""
    case Some(Scalar(_, truth)) => truth
    case Some(List(items)) => items != []
    case Some(Dict(entries)) => entries != map[]
  }

  function StrOf(c: Context, v: Val): string {
    match v
    case Null => "None"
    case Flag(flag) => if flag then "True" else "False"
    case Text(text) => text
    case _ => c.render(v)
  }

  function StrOr(c: Context, m: Mapping, key: string, default: string): string {
    if key in m then StrOf(c, m[key]) else default
  }

  /** A field that should be a mapping, or the empty mapping. */
  function Section(m: Mapping, key: string): Mapping {
    if key in m && m[key].Dict? then m[key].entries else map[]
  }

  function LastVerified(c: Context, m: Mapping): string {
    StrOr(c, Section(m, VERIFICATION), VERIFIED, "")
  }

  function ParseDate(c: Context, text: string): Option<int> {
    if text == "" then None else c.date(text)
  }

  // ----- projects and their workstreams

  function RepositoryOf(c: Context, project: Mapping): Option<string> {
    var repository :=
      if Get(project, "storage") == Some(Text("project_repo")) then StrOr(c, project, "repository", "None") else c.central;
    if repository == "" || repository == "None" then None else Some(repository)
  }

  /** The path a workstream of the project map names, if it names one. */
  function PathOf(c: Context, item: Val): Option<string> {
    if item.Dict? && Truthy(Get(item.entries, "state_path")) then Some(StrOf(c, item.entries["state_path"])) else None
  }

  function AttentionOf(c: Context, project: Mapping, item: Mapping): string {
    StrOr(c, item, "core_attention", StrOr(c, project, "core_attention", "unspecified"))
  }

  function ChildOf(c: Context, repository: string, project: Mapping, item: Val): Option<Child> {
    var path := PathOf(c, item);
    if path.None? then None
    else
      var raw := c.read(repository, path.value);
      if raw.None? then None
      else
        Some(Child(
          StrOr(c, item.entries, "id", "unknown"), path.value, StrOr(c, item.entries, "owner", "unassigned"),
          AttentionOf(c, project, item.entries),
          StrOr(c, raw.value, STATUS, StrOr(c, item.entries, "state_status", "unknown")),
          LastVerified(c, raw.value), raw.value))
  }

  function Children(c: Context, repository: string, project: Mapping, items: seq<Val>): seq<Child> {
    if items == [] then []
    else
      var last := |items| - 1;
      var child := ChildOf(c, repository, project, items[last]);
      Children(c, repository, project, items[..last]) + (if child.Some? then [child.value] else [])
  }

  predicate NonBlocking(child: Child) {
    child.attention in NON_BLOCKING_ATTENTION || child.status in NON_BLOCKING_STATUSES
  }

  function Active(children: seq<Child>): seq<Child> {
    if children == [] then []
    else
      var last := |children| - 1;
      Active(children[..last]) + (if NonBlocking(children[last]) then [] else [children[last]])
  }

  function Sources(active: seq<Child>): (sources: seq<Val>)
    ensures |sources| == |active|
  {
    seq(|active|, i requires 0 <= i < |active| => Text(active[i].path))
  }

  function DeclarationOf(c: Context, item: Val): (entry: Option<Val>)
    ensures entry.Some? <==> PathOf(c, item).Some?
  {
    var path := PathOf(c, item);
    if path.None? then None
    else
      var entry := map[
        "id" := Text(StrOr(c, item.entries, "id", "unknown")), "path" := Text(path.value),
        "owner" := Text(StrOr(c, item.entries, "owner", "unassigned"))];
      Some(Dict(if Truthy(Get(item.entries, "state_status"))
                then entry["status" := Text(StrOf(c, item.entries["state_status"]))] else entry))
  }

  function Declarations(c: Context, items: seq<Val>): seq<Val> {
    if items == [] then []
    else
      var last := |items| - 1;
      var entry := DeclarationOf(c, items[last]);
      Declarations(c, items[..last]) + (if entry.Some? then [entry.value] else [])
  }

  // ----- the proposal

  function SetIfChanged(root: Mapping, name: string, value: Val): seq<Change> {
    if Lookup(root, name) == value then [] else [Change(Field(name), value)]
  }

  function PolicyChange(root: Mapping, name: string, value: Val): seq<Change> {
    if Lookup(Section(root, POLICY), name) == value then [] else [Change(Under(POLICY, name), value)]
  }

  function StructureChanges(root: Mapping, declarations: seq<Val>, active: seq<Child>, deferred: bool): seq<Change> {
    SetIfChanged(root, SCOPE, Text("project_rollup"))
    + SetIfChanged(root, WORKSTREAMS, List(declarations))
    + PolicyChange(root, WRITES_ROOT, Flag(false))
    + PolicyChange(root, SOURCES, List(Sources(active)))
    + (if deferred then PolicyChange(root, UNBLOCKED, Flag(true)) else [])
  }

  /** The first of the active children with the latest date. */
  function Newest(c: Context, active: seq<Child>): (newest: Option<Child>)
    ensures newest.Some? ==> newest.value in active && ParseDate(c, newest.value.lastVerified).Some?
    ensures forall child :: child in active && ParseDate(c, child.lastVerified).Some? ==>
      newest.Some? && ParseDate(c, child.lastVerified).value <= ParseDate(c, newest.value.lastVerified).value
  {
    if active == [] then None
    else
      var last := active[|active| - 1];
      assert active == active[..|active| - 1] + [last];
      var best := Newest(c, active[..|active| - 1]);
      var date := ParseDate(c, last.lastVerified);
      if date.Some? && (best.None? || date.value > ParseDate(c, best.value.lastVerified).value) then Some(last) else best
  }

  predicate Stale(c: Context, root: Mapping, active: seq<Child>) {
    var newest, rootDate := Newest(c, active), ParseDate(c, LastVerified(c, root));
    newest.Some? && (rootDate.None? || ParseDate(c, newest.value.lastVerified).value > rootDate.value)
  }

  function FreshnessChanges(c: Context, root: Mapping, active: seq<Child>): seq<Change> {
    if Stale(c, root, active)
    then [Change(Under(VERIFICATION, VERIFIED), Text(Newest(c, active).value.lastVerified))] else []
  }

  function CopyIfChanged(root: Mapping, raw: Mapping, name: string): seq<Change> {
    if name in raw then SetIfChanged(root, name, raw[name]) else []
  }

  function NarrativeChanges(root: Mapping, active: seq<Child>): seq<Change> {
    if |active| != 1 then []
    else
      CopyIfChanged(root, active[0].raw, STATUS) + CopyIfChanged(root, active[0].raw, PHASE)
      + CopyIfChanged(root, active[0].raw, GATE) + CopyIfChanged(root, active[0].raw, ACTION)
  }

  function Changes(c: Context, root: Mapping, declarations: seq<Val>, active: seq<Child>, deferred: bool): seq<Change> {
    StructureChanges(root, declarations, active, deferred)
    + FreshnessChanges(c, root, active)
    + NarrativeChanges(root, active)
  }

  const ONE_NOTE := "Narrative proposal is unambiguous because exactly one blocking workstream is active."
  const MANY_NOTE := "Multiple blocking workstreams are active; narrative rollup fields are intentionally not synthesized deterministically."
  const NONE_NOTE := "No blocking active workstream exists; only structural rollup fields can be proposed safely."

  function NoteFor(active: nat): string {
    if active == 1 then ONE_NOTE else if active > 1 then MANY_NOTE else NONE_NOTE
  }

  /** The root file's repository, path and content, when the project has one that can be read. */
  function RootOf(c: Context, project: Mapping): Option<(string, string, Mapping)> {
    var repository := RepositoryOf(c, project);
    if !Truthy(Get(project, "state_path")) || repository.None? then None
    else
      var path := StrOf(c, project["state_path"]);
      var root := c.read(repository.value, path);
      if root.None? then None else Some((repository.value, path, root.value))
  }

  function Propose(c: Context, project: Mapping, items: seq<Val>): Option<Proposal> {
    var root := RootOf(c, project);
    if root.None? then None
    else
      var (repository, path, raw) := root.value;
      var children := Children(c, repository, project, items);
      if children == [] then None
      else
        var active := Active(children);
        var id := StrOr(c, project, "id", "unknown");
        Some(Proposal(
          id, StrOr(c, project, "name", id), repository, path, seq(|active|, i requires 0 <= i < |active| => active[i].path),
          Changes(c, raw, Declarations(c, items), active, |active| != |children|),
          |active| > 1, [NoteFor(|active|)]))
  }

  // ----- applying a proposal

  function Set(root: Mapping, change: Change): Mapping {
    match change.key
    case Field(name) => root[name := change.value]
    case Under(parent, name) => root[parent := Dict(Section(root, parent)[name := change.value])]
  }

  function Apply(root: Mapping, changes: seq<Change>): Mapping {
    if changes == [] then root else Set(Apply(root, changes[..|changes| - 1]), changes[|changes| - 1])
  }

  /** The context once the changes are written to the root file. */
  function Applied(c: Context, proposal: Proposal): Context {
    var root := c.read(proposal.repository, proposal.rootPath);
    if root.None? then c
    else
      var raw := Apply(root.value, proposal.changes);
      c.(read := (r, p) => if r == proposal.repository && p == proposal.rootPath then Some(raw) else c.read(r, p))
  }

  lemma {:induction false} ApplyConcat(root: Mapping, a: seq<Change>, b: seq<Change>)
    ensures Apply(root, a + b) == Apply(Apply(root, a), b)
    decreases |b|
  {
    if b == [] {
      assert a + b == a;
    } else {
      assert (a + b)[..|a + b| - 1] == a + b[..|b| - 1];
      ApplyConcat(root, a, b[..|b| - 1]);
    }
  }

  lemma ApplyOne(root: Mapping, change: Change)
    ensures Apply(root, [change]) == Set(root, change)
  {
    assert [change][..0] == [];
  }

  // ----- what a rollup that needs no change looks like

  predicate Structured(root: Mapping, declarations: seq<Val>, active: seq<Child>, deferred: bool) {
    && Get(root, SCOPE) == Some(Text("project_rollup"))
    && Get(root, WORKSTREAMS) == Some(List(declarations))
    && Get(Section(root, POLICY), WRITES_ROOT) == Some(Flag(false))
    && Get(Section(root, POLICY), SOURCES) == Some(List(Sources(active)))
    && (deferred ==> Get(Section(root, POLICY), UNBLOCKED) == Some(Flag(true)))
  }

  predicate Narrates(root: Mapping, raw: Mapping, name: string) {
    name in raw ==> Lookup(root, name) == raw[name]
  }

  /** The one active child's status differs from what the root reads; a null is no different from none. */
  predicate TakesOver(root: Mapping, active: seq<Child>) {
    |active| == 1 && STATUS in active[0].raw && Lookup(root, STATUS) != active[0].raw[STATUS]
  }

  predicate Told(root: Mapping, active: seq<Child>) {
    |active| == 1 ==>
      && Narrates(root, active[0].raw, STATUS) && Narrates(root, active[0].raw, PHASE)
      && Narrates(root, active[0].raw, GATE) && Narrates(root, active[0].raw, ACTION)
  }

  lemma NothingToChange(c: Context, root: Mapping, declarations: seq<Val>, active: seq<Child>, deferred: bool)
    ensures Changes(c, root, declarations, active, deferred) == []
      <==> Structured(root, declarations, active, deferred) && !Stale(c, root, active) && Told(root, active)
  {
    hide Stale;
  }

  // ----- applying the changes settles the rollup

  /** Nothing but the field `name` differs. */
  ghost predicate Elsewhere(root: Mapping, root': Mapping, name: string) {
    forall key :: key != name ==> Get(root', key) == Get(root, key)
  }

  predicate Narrative(name: string) {
    name == STATUS || name == PHASE || name == GATE || name == ACTION
  }

  lemma NamesDiffer()
    ensures SCOPE != WORKSTREAMS && SCOPE != POLICY && SCOPE != VERIFICATION
    ensures WORKSTREAMS != POLICY && WORKSTREAMS != VERIFICATION && POLICY != VERIFICATION
    ensures WRITES_ROOT != SOURCES && WRITES_ROOT != UNBLOCKED && SOURCES != UNBLOCKED
    ensures STATUS != PHASE && STATUS != GATE && STATUS != ACTION && PHASE != GATE && PHASE != ACTION && GATE != ACTION
    ensures forall name :: Narrative(name) ==> name != WORKSTREAMS && name != POLICY && name != VERIFICATION
  {
    assert SCOPE[0] == 's' && WORKSTREAMS[0] == 'w' && POLICY[0] == 'r' && VERIFICATION[0] == 'v';
    assert |SCOPE| == 11 && |STATUS| == 6 && |PHASE| == 5 && |GATE| == 12 && |ACTION| == 17;
    assert |POLICY| == 13 && |VERIFICATION| == 12 && GATE[0] == 'c' && |WORKSTREAMS| == 11;
    assert WRITES_ROOT[0] == 's' && SOURCES[0] == 'g' && UNBLOCKED[0] == 'f';
  }

  /** A change worked out on `root` and applied to `r`, which agrees with it on that field. */
  lemma ApplySet(root: Mapping, r: Mapping, name: string, value: Val)
    requires Get(r, name) == Get(root, name)
    ensures Apply(r, SetIfChanged(root, name, value)) == if Lookup(root, name) == value then r else r[name := value]
  {
    ApplyOne(r, Change(Field(name), value));
  }

  lemma ApplyPolicy(root: Mapping, r: Mapping, name: string, value: Val) returns (r': Mapping)
    requires Get(Section(r, POLICY), name) == Get(Section(root, POLICY), name) && value != Null
    ensures r' == Apply(r, PolicyChange(root, name, value))
    ensures Section(r', POLICY) == Section(r, POLICY)[name := value] && Elsewhere(r, r', POLICY)
  {
    ApplyOne(r, Change(Under(POLICY, name), value));
    r' := Apply(r, PolicyChange(root, name, value));
  }

  lemma ApplyPolicies(root: Mapping, r: Mapping, active: seq<Child>, deferred: bool) returns (r': Mapping)
    requires Section(r, POLICY) == Section(root, POLICY)
    ensures r' == Apply(r, PolicyChange(root, WRITES_ROOT, Flag(false)) + PolicyChange(root, SOURCES, List(Sources(active)))
                             + (if deferred then PolicyChange(root, UNBLOCKED, Flag(true)) else []))
    ensures Elsewhere(r, r', POLICY)
    ensures Get(Section(r', POLICY), WRITES_ROOT) == Some(Flag(false))
    ensures Get(Section(r', POLICY), SOURCES) == Some(List(Sources(active)))
    ensures deferred ==> Get(Section(r', POLICY), UNBLOCKED) == Some(Flag(true))
  {
    hide PolicyChange, Apply, Sources;
    NamesDiffer();
    var a, b := PolicyChange(root, WRITES_ROOT, Flag(false)), PolicyChange(root, SOURCES, List(Sources(active)));
    var last := if deferred then PolicyChange(root, UNBLOCKED, Flag(true)) else [];
    var r1 := ApplyPolicy(root, r, WRITES_ROOT, Flag(false));
    var r2 := ApplyPolicy(root, r1, SOURCES, List(Sources(active)));
    ApplyConcat(r, a, b);
    ApplyConcat(r, a + b, last);
    if deferred {
      r' := ApplyPolicy(root, r2, UNBLOCKED, Flag(true));
    } else {
      r' := r2;
      ApplyNothing(r2);
    }
  }

  lemma ApplyNothing(root: Mapping)
    ensures Apply(root, []) == root
  {
  }

  lemma ApplyStructure(root: Mapping, declarations: seq<Val>, active: seq<Child>, deferred: bool) returns (r': Mapping)
    ensures r' == Apply(root, StructureChanges(root, declarations, active, deferred))
    ensures Structured(r', declarations, active, deferred)
    ensures forall name :: name != SCOPE && name != WORKSTREAMS && name != POLICY ==> Get(r', name) == Get(root, name)
  {
    hide PolicyChange, Apply, Sources;
    NamesDiffer();
    var a, b := SetIfChanged(root, SCOPE, Text("project_rollup")), SetIfChanged(root, WORKSTREAMS, List(declarations));
    var p, q := PolicyChange(root, WRITES_ROOT, Flag(false)), PolicyChange(root, SOURCES, List(Sources(active)));
    var u := if deferred then PolicyChange(root, UNBLOCKED, Flag(true)) else [];
    ApplySet(root, root, SCOPE, Text("project_rollup"));
    var r1 := Apply(root, a);
    ApplySet(root, r1, WORKSTREAMS, List(declarations));
    var r2 := Apply(r1, b);
    r' := ApplyPolicies(root, r2, active, deferred);
    ApplyConcat(root, a, b);
    ApplyConcat(root, a + b, p + q + u);
    assert StructureChanges(root, declarations, active, deferred) == a + b + (p + q + u);
  }

  /** The root is as fresh as one of the active children. */
  predicate Dated(c: Context, root: Mapping, active: seq<Child>) {
    exists i :: 0 <= i < |active| && LastVerified(c, root) == active[i].lastVerified
  }

  lemma ApplyFreshness(c: Context, root: Mapping, r: Mapping, active: seq<Child>) returns (r': Mapping)
    requires Get(r, VERIFICATION) == Get(root, VERIFICATION)
    ensures r' == Apply(r, FreshnessChanges(c, root, active))
    ensures Elsewhere(r, r', VERIFICATION) && !Stale(c, r', active)
    ensures Get(r', VERIFICATION) == Get(r, VERIFICATION) || Dated(c, r', active)
  {
    var changes := FreshnessChanges(c, root, active);
    r' := Apply(r, changes);
    if changes == [] {
      assert LastVerified(c, r') == LastVerified(c, root);
    } else {
      var newest := Newest(c, active).value;
      ApplyOne(r, Change(Under(VERIFICATION, VERIFIED), Text(newest.lastVerified)));
      assert LastVerified(c, r') == newest.lastVerified;
    }
  }

  lemma ApplyCopy(root: Mapping, r: Mapping, raw: Mapping, name: string) returns (r': Mapping)
    requires Get(r, name) == Get(root, name)
    ensures r' == Apply(r, CopyIfChanged(root, raw, name))
    ensures Narrates(r', raw, name) && Elsewhere(r, r', name)
    ensures Get(r', name) == if name in raw && Lookup(root, name) != raw[name] then Some(raw[name]) else Get(r, name)
  {
    r' := Apply(r, CopyIfChanged(root, raw, name));
    if name in raw { ApplySet(root, r, name, raw[name]); } else { ApplyNothing(r); }
  }

  lemma ApplyNarrative(root: Mapping, r: Mapping, active: seq<Child>) returns (r': Mapping)
    requires forall name :: Narrative(name) ==> Get(r, name) == Get(root, name)
    ensures r' == Apply(r, NarrativeChanges(root, active))
    ensures Told(r', active)
    ensures forall name :: !Narrative(name) ==> Get(r', name) == Get(r, name)
    ensures Get(r', STATUS) == if TakesOver(root, active) then Some(active[0].raw[STATUS]) else Get(r, STATUS)
  {
    hide CopyIfChanged, Apply;
    NamesDiffer();
    if |active| == 1 {
      var raw := active[0].raw;
      var r1 := ApplyCopy(root, r, raw, STATUS);
      var r2 := ApplyCopy(root, r1, raw, PHASE);
      var r3 := ApplyCopy(root, r2, raw, GATE);
      r' := ApplyCopy(root, r3, raw, ACTION);
      var s, p, g := CopyIfChanged(root, raw, STATUS), CopyIfChanged(root, raw, PHASE), CopyIfChanged(root, raw, GATE);
      ApplyConcat(r, s, p);
      ApplyConcat(r, s + p, g);
      ApplyConcat(r, s + p + g, CopyIfChanged(root, raw, ACTION));
    } else {
      r' := r;
      ApplyNothing(r);
    }
  }

  /** The changes settle everything they are about, and the root's status changes only by taking over the one active child's. */
  lemma ChangesSettle(c: Context, root: Mapping, declarations: seq<Val>, active: seq<Child>, deferred: bool)
    returns (root': Mapping)
    ensures root' == Apply(root, Changes(c, root, declarations, active, deferred))
    ensures Structured(root', declarations, active, deferred) && !Stale(c, root', active) && Told(root', active)
    ensures Get(root', STATUS) == if TakesOver(root, active) then Some(active[0].raw[STATUS]) else Get(root, STATUS)
    ensures Get(root', VERIFICATION) == Get(root, VERIFICATION) || Dated(c, root', active)
  {
    hide StructureChanges, FreshnessChanges, NarrativeChanges, Apply, Told, Stale;
    NamesDiffer();
    var s, f := StructureChanges(root, declarations, active, deferred), FreshnessChanges(c, root, active);
    var r1 := ApplyStructure(root, declarations, active, deferred);
    var r2 := ApplyFreshness(c, root, r1, active);
    root' := ApplyNarrative(root, r2, active);
    ApplyConcat(root, s, f);
    ApplyConcat(root, s + f, NarrativeChanges(root, active));
    StaleReads(c, r2, root', active);
    assert Get(root', POLICY) == Get(r1, POLICY);
  }

  lemma StaleReads(c: Context, r: Mapping, r': Mapping, active: seq<Child>)
    requires Get(r, VERIFICATION) == Get(r', VERIFICATION)
    ensures Stale(c, r, active) == Stale(c, r', active) && LastVerified(c, r) == LastVerified(c, r')
  {
    assert Section(r, VERIFICATION) == Section(r', VERIFICATION);
  }
}
