/**
 What a proposal and the root it makes must say, field by field: how a workstream is read and declared, which ones are
 active, and what the applied root holds.
 */
module RollupSteps {
  import opened Options
  import opened Rollup
  import opened RollupFixpoint

  // ----- reading

  /** The text of a value. */
  predicate Prints(c: Context, v: Val, s: string) {
    match v
    case Null => s == "None"
    case Flag(true) => s == "True"
    case Flag(false) => s == "False"
    case Text(text) => s == text
    case _ => s == c.render(v)
  }

  /** The text of a field, or of its default. */
  predicate Reads(c: Context, m: Mapping, key: string, default: string, s: string) {
    (key in m ==> Prints(c, m[key], s)) && (key !in m ==> s == default)
  }

  /** Python truth: nothing empty, no zero and no null counts. */
  predicate Counts(v: Val) {
    match v
    case Null => false
    case Flag(flag) => flag
    case Text(text) => |text| > 0
    case Scalar(_, truth) => truth
    case List(items) => |items| > 0
    case Dict(entries) => entries.Keys != {}
  }

  predicate Present(m: Mapping, key: string) {
    key in m && Counts(m[key])
  }

  lemma StrPrints(c: Context, m: Mapping, key: string, default: string)
    ensures Reads(c, m, key, default, StrOr(c, m, key, default))
    ensures key in m ==> Prints(c, m[key], StrOf(c, m[key]))
    ensures Truthy(Get(m, key)) <==> Present(m, key)
  {
  }

  /** An item of the project map that names a state file. */
  predicate Names(c: Context, item: Val, path: string) {
    item.Dict? && Present(item.entries, "state_path") && Prints(c, item.entries["state_path"], path)
  }

  lemma PathIsNamed(c: Context, item: Val)
    ensures PathOf(c, item).Some? <==> item.Dict? && Present(item.entries, "state_path")
    ensures PathOf(c, item).Some? ==> Names(c, item, PathOf(c, item).value)
  {
    if item.Dict? { StrPrints(c, item.entries, "state_path", ""); }
  }

  // ----- declarations

  /** An entry carries its own item's id, path, owner and, if there is one, status; and nothing else. */
  predicate Declares(c: Context, item: Val, entry: Val) {
    && item.Dict? && entry.Dict?
    && var e := entry.entries;
       && e.Keys == {"id", "path", "owner"} + (if Present(item.entries, "state_status") then {"status"} else {})
       && e["id"].Text? && Reads(c, item.entries, "id", "unknown", e["id"].text)
       && e["path"].Text? && Names(c, item, e["path"].text)
       && e["owner"].Text? && Reads(c, item.entries, "owner", "unassigned", e["owner"].text)
       && (Present(item.entries, "state_status") ==> e["status"].Text? && Prints(c, item.entries["state_status"], e["status"].text))
  }

  lemma DeclarationIsRight(c: Context, item: Val)
    requires PathOf(c, item).Some?
    ensures Declares(c, item, DeclarationOf(c, item).value)
  {
    PathIsNamed(c, item);
    StrPrints(c, item.entries, "id", "unknown");
    StrPrints(c, item.entries, "owner", "unassigned");
    StrPrints(c, item.entries, "state_status", "");
    var e := DeclarationOf(c, item).value.entries;
    assert e.Keys == {"id", "path", "owner"} + (if Present(item.entries, "state_status") then {"status"} else {});
    hide Reads, Prints, Names, Present, StrOr, StrOf, Truthy;
  }

  /** Where the items are that name a state file. */
  function Positions(c: Context, items: seq<Val>): (ks: seq<int>)
    ensures forall a, b :: 0 <= a < b < |ks| ==> ks[a] < ks[b]
    ensures forall k :: k in ks <==> 0 <= k < |items| && PathOf(c, items[k]).Some?
    decreases |items|
  {
    if items == [] then []
    else
      var last := |items| - 1;
      var front := Positions(c, items[..last]);
      assert forall a :: 0 <= a < |front| ==> front[a] in front;
      front + (if PathOf(c, items[last]).Some? then [last] else [])
  }

  /** The declarations are those of the items that name a state file, in order. */
  ghost predicate DeclaresAll(c: Context, items: seq<Val>, entries: seq<Val>) {
    exists ks: seq<int> ::
      && |ks| == |entries|
      && (forall a, b :: 0 <= a < b < |ks| ==> ks[a] < ks[b])
      && (forall k :: k in ks <==> 0 <= k < |items| && items[k].Dict? && Present(items[k].entries, "state_path"))
      && forall a :: 0 <= a < |ks| ==> 0 <= ks[a] < |items| && Declares(c, items[ks[a]], entries[a])
  }

  lemma {:induction false} DeclarationsByPosition(c: Context, items: seq<Val>)
    ensures var ks, entries := Positions(c, items), Declarations(c, items);
      |ks| == |entries| && forall a :: 0 <= a < |ks| ==> 0 <= ks[a] < |items| && Declares(c, items[ks[a]], entries[a])
    decreases |items|
  {
    hide Declares, PathOf, DeclarationOf;
    if items != [] {
      var last := |items| - 1;
      DeclarationsByPosition(c, items[..last]);
      assert forall k :: 0 <= k < last ==> items[..last][k] == items[k];
      if PathOf(c, items[last]).Some? { DeclarationIsRight(c, items[last]); }
    }
  }

  lemma DeclarationsAreRight(c: Context, items: seq<Val>)
    ensures DeclaresAll(c, items, Declarations(c, items))
  {
    hide Declarations, Declares, PathOf;
    DeclarationsByPosition(c, items);
    forall k | 0 <= k < |items|
      ensures PathOf(c, items[k]).Some? <==> items[k].Dict? && Present(items[k].entries, "state_path")
    {
      PathIsNamed(c, items[k]);
    }
    hide Positions, Present;
  }

  // ----- workstreams

  /** A workstream as its item, the project and its file say. */
  predicate ReadAs(c: Context, repository: string, project: Mapping, item: Val, child: Child) {
    && Names(c, item, child.path)
    && c.read(repository, child.path) == Some(child.raw)
    && Reads(c, item.entries, "id", "unknown", child.id)
    && Reads(c, item.entries, "owner", "unassigned", child.owner)
    && ("core_attention" in item.entries ==> Prints(c, item.entries["core_attention"], child.attention))
    && ("core_attention" !in item.entries ==> Reads(c, project, "core_attention", "unspecified", child.attention))
    && ("status" in child.raw ==> Prints(c, child.raw["status"], child.status))
    && ("status" !in child.raw ==> Reads(c, item.entries, "state_status", "unknown", child.status))
    && VerifiedAs(c, child.raw, child.lastVerified)
  }

  /** The date of the last verification, as text. */
  predicate VerifiedAs(c: Context, raw: Mapping, s: string) {
    if "verification" in raw && raw["verification"].Dict? then Reads(c, raw["verification"].entries, "last_verified", "", s)
    else s == ""
  }

  lemma DateIsRead(c: Context, raw: Mapping)
    ensures VerifiedAs(c, raw, LastVerified(c, raw))
  {
    StrPrints(c, Section(raw, VERIFICATION), VERIFIED, "");
    hide Reads, StrOr;
  }

  lemma ChildIsRight(c: Context, repository: string, project: Mapping, item: Val)
    ensures var child := ChildOf(c, repository, project, item);
      && (child.Some? ==> ReadAs(c, repository, project, item, child.value))
      && (child.None? <==> PathOf(c, item).None? || c.read(repository, PathOf(c, item).value).None?)
  {
    PathIsNamed(c, item);
    var child := ChildOf(c, repository, project, item);
    if child.Some? {
      StrPrints(c, item.entries, "id", "unknown");
      StrPrints(c, item.entries, "owner", "unassigned");
      StrPrints(c, project, "core_attention", "unspecified");
      StrPrints(c, item.entries, "core_attention", AttentionOf(c, project, map[]));
      StrPrints(c, item.entries, "state_status", "unknown");
      StrPrints(c, child.value.raw, "status", "");
      DateIsRead(c, child.value.raw);
      hide Prints, Names, StrOf, VerifiedAs, LastVerified, PathOf;
    }
  }

  predicate Readable(c: Context, repository: string, item: Val) {
    PathOf(c, item).Some? && c.read(repository, PathOf(c, item).value).Some?
  }

  /** The workstreams are the items whose state file can be read, in order. */
  ghost predicate ReadAllAt(c: Context, repository: string, project: Mapping, items: seq<Val>, ks: seq<int>, children: seq<Child>) {
    && |ks| == |children|
    && (forall a, b :: 0 <= a < b < |ks| ==> ks[a] < ks[b])
    && (forall k :: k in ks <==> 0 <= k < |items| && Readable(c, repository, items[k]))
    && forall a :: 0 <= a < |ks| ==> 0 <= ks[a] < |items| && ReadAs(c, repository, project, items[ks[a]], children[a])
  }

  ghost predicate ReadAll(c: Context, repository: string, project: Mapping, items: seq<Val>, children: seq<Child>) {
    exists ks :: ReadAllAt(c, repository, project, items, ks, children)
  }

  lemma ReadOneMore(c: Context, repository: string, project: Mapping, items: seq<Val>, ks: seq<int>,
                    children: seq<Child>, item: Val)
    requires ReadAllAt(c, repository, project, items, ks, children)
    ensures !Readable(c, repository, item) ==> ReadAllAt(c, repository, project, items + [item], ks, children)
    ensures forall child :: Readable(c, repository, item) && ReadAs(c, repository, project, item, child) ==>
      ReadAllAt(c, repository, project, items + [item], ks + [|items|], children + [child])
  {
    hide Readable, ReadAs;
    assert forall a :: 0 <= a < |ks| ==> ks[a] in ks;
  }

  lemma {:induction false} ChildrenAreRight(c: Context, repository: string, project: Mapping, items: seq<Val>)
    returns (ks: seq<int>)
    ensures ReadAllAt(c, repository, project, items, ks, Children(c, repository, project, items))
    decreases |items|
  {
    if items == [] {
      ks := [];
    } else {
      var last := |items| - 1;
      ks := ChildrenAreRight(c, repository, project, items[..last]);
      ReadOneMore(c, repository, project, items[..last], ks, Children(c, repository, project, items[..last]), items[last]);
      assert items[..last] + [items[last]] == items;
      ChildIsRight(c, repository, project, items[last]);
      assert ChildOf(c, repository, project, items[last]).Some? <==> Readable(c, repository, items[last]);
      hide ReadAllAt, ReadAs, ChildOf, Readable;
      if ChildOf(c, repository, project, items[last]).Some? { ks := ks + [last]; }
    }
  }

  /** What keeps a workstream out of the rollup. */
  predicate Deferred(child: Child) {
    || child.attention in ["deferred", "parked", "none", "future", "background"]
    || child.status in ["future_unassigned", "future_project_not_initialized", "not_active", "deferred_manual"]
  }

  ghost predicate SubsequenceAt(ks: seq<int>, xs: seq<Child>, ys: seq<Child>) {
    && |ks| == |ys|
    && (forall a, b :: 0 <= a < b < |ks| ==> ks[a] < ks[b])
    && (forall k :: k in ks <==> 0 <= k < |xs| && !Deferred(xs[k]))
    && forall a :: 0 <= a < |ks| ==> 0 <= ks[a] < |xs| && ys[a] == xs[ks[a]]
  }

  lemma SubsequenceGrows(ks: seq<int>, xs: seq<Child>, ys: seq<Child>, x: Child)
    requires SubsequenceAt(ks, xs, ys)
    ensures Deferred(x) ==> SubsequenceAt(ks, xs + [x], ys)
    ensures !Deferred(x) ==> SubsequenceAt(ks + [|xs|], xs + [x], ys + [x])
  {
    hide Deferred;
    assert forall a :: 0 <= a < |ks| ==> ks[a] in ks;
  }

  lemma {:induction false} ActiveAreTheOthers(children: seq<Child>) returns (ks: seq<int>)
    ensures SubsequenceAt(ks, children, Active(children))
    decreases |children|
  {
    if children == [] {
      ks := [];
    } else {
      var last := |children| - 1;
      ks := ActiveAreTheOthers(children[..last]);
      SubsequenceGrows(ks, children[..last], Active(children[..last]), children[last]);
      assert children[..last] + [children[last]] == children;
      assert NonBlocking(children[last]) <==> Deferred(children[last]);
      hide SubsequenceAt, NonBlocking, Deferred;
      if !NonBlocking(children[last]) { ks := ks + [last]; }
    }
  }

  // ----- the applied root

  const TOUCHED := [
    "state_scope", "workstreams", "rollup_policy", "verification", "status", "phase", "current_gate", "exact_next_action"]

  /** The structure of a rollup: what it is, what it declares, and whose states it is made of. */
  ghost predicate HoldsStructure(c: Context, root: Mapping, items: seq<Val>, active: seq<Child>, deferred: bool) {
    && Get(root, "state_scope") == Some(Text("project_rollup"))
    && "workstreams" in root && root["workstreams"].List? && DeclaresAll(c, items, root["workstreams"].items)
    && "rollup_policy" in root && root["rollup_policy"].Dict?
    && var policy := root["rollup_policy"].entries;
       && Get(policy, "specialist_writes_root") == Some(Flag(false))
       && (deferred ==> Get(policy, "future_workstreams_do_not_block_rollup") == Some(Flag(true)))
       && "generated_from" in policy && policy["generated_from"].List?
       && var sources := policy["generated_from"].items;
          |sources| == |active| && forall i :: 0 <= i < |active| ==> sources[i] == Text(active[i].path)
  }

  /** No active workstream was verified later than the root says it was. */
  predicate HoldsDate(c: Context, root: Mapping, active: seq<Child>) {
    forall i :: 0 <= i < |active| && ParseDate(c, active[i].lastVerified).Some? ==>
      && ParseDate(c, LastVerified(c, root)).Some?
      && ParseDate(c, active[i].lastVerified).value <= ParseDate(c, LastVerified(c, root)).value
  }

  /** The one active workstream's own words; a null says no more than silence. */
  predicate HoldsWords(root: Mapping, active: seq<Child>) {
    |active| == 1 ==>
      forall name :: name in ["status", "phase", "current_gate", "exact_next_action"] && name in active[0].raw ==>
        Get(root, name) == Some(active[0].raw[name]) || (active[0].raw[name] == Null && name !in root)
  }

  lemma SettledHolds(c: Context, root: Mapping, items: seq<Val>, active: seq<Child>, deferred: bool)
    requires Structured(root, Declarations(c, items), active, deferred)
    ensures HoldsStructure(c, root, items, active, deferred)
  {
    hide Declarations, DeclaresAll;
    DeclarationsAreRight(c, items);
    assert POLICY !in root || !root[POLICY].Dict? ==> Section(root, POLICY) == map[];
  }

  /**
   The root after a proposal is applied: a rollup that declares every mapped workstream under its own id, path and
   owner, lists the active ones as its sources, is as fresh as the freshest of them and says what the only active one
   says. No other field changes, and the narrative changes only if exactly one workstream is active.
   */
  ghost predicate AppliedRightly(c: Context, root: Mapping, root': Mapping, items: seq<Val>, active: seq<Child>, deferred: bool) {
    && HoldsStructure(c, root', items, active, deferred) && HoldsDate(c, root', active) && HoldsWords(root', active)
    && (Get(root', "verification") == Get(root, "verification") ||
        exists i :: 0 <= i < |active| && LastVerified(c, root') == active[i].lastVerified)
    && (forall name :: name !in TOUCHED ==> Get(root', name) == Get(root, name))
    && (|active| != 1 ==>
          forall name :: name in ["status", "phase", "current_gate", "exact_next_action"] ==> Get(root', name) == Get(root, name))
  }

  lemma AppliedRootIsRight(c: Context, root: Mapping, items: seq<Val>, active: seq<Child>, deferred: bool)
    ensures AppliedRightly(c, root, Apply(root, Changes(c, root, Declarations(c, items), active, deferred)), items, active, deferred)
  {
    hide Changes, Apply, Declarations, Stale, Structured, HoldsStructure;
    var root' := ChangesSettle(c, root, Declarations(c, items), active, deferred);
    SettledHolds(c, root', items, active, deferred);
    FreshMeans(c, root', active);
    forall name | name !in TOUCHED || (|active| != 1 && Narrative(name)) ensures Get(root', name) == Get(root, name) {
      OtherFieldsStay(c, root, Declarations(c, items), active, deferred, name);
    }
  }

  /** The field that a change is about. */
  function FieldOf(change: Change): string {
    match change.key
    case Field(name) => name
    case Under(parent, _) => parent
  }

  lemma {:induction false} OnlyNamedFields(root: Mapping, changes: seq<Change>, name: string)
    requires forall i :: 0 <= i < |changes| ==> FieldOf(changes[i]) != name
    ensures Get(Apply(root, changes), name) == Get(root, name)
    decreases |changes|
  {
    if changes != [] {
      OnlyNamedFields(root, changes[..|changes| - 1], name);
    }
  }

  lemma FieldsOfChanges(c: Context, root: Mapping, declarations: seq<Val>, active: seq<Child>, deferred: bool)
    ensures var s := StructureChanges(root, declarations, active, deferred);
      forall i :: 0 <= i < |s| ==> FieldOf(s[i]) == SCOPE || FieldOf(s[i]) == WORKSTREAMS || FieldOf(s[i]) == POLICY
    ensures var f := FreshnessChanges(c, root, active); forall i :: 0 <= i < |f| ==> FieldOf(f[i]) == VERIFICATION
    ensures var n := NarrativeChanges(root, active); forall i :: 0 <= i < |n| ==> |active| == 1 && Narrative(FieldOf(n[i]))
  {
    hide Stale, Newest, Sources, SCOPE, WORKSTREAMS, POLICY, VERIFICATION;
  }

  lemma FieldsApart(name: string, active: nat)
    requires name !in TOUCHED || (active != 1 && Narrative(name))
    ensures name != SCOPE && name != WORKSTREAMS && name != POLICY && name != VERIFICATION
    ensures Narrative(name) ==> active != 1
  {
    NamesDiffer();
    assert Narrative(name) ==> name != SCOPE;
    assert TOUCHED == [SCOPE, WORKSTREAMS, POLICY, VERIFICATION, STATUS, PHASE, GATE, ACTION];
    hide SCOPE, WORKSTREAMS, POLICY, VERIFICATION, STATUS, PHASE, GATE, ACTION;
  }

  lemma OtherFieldsStay(c: Context, root: Mapping, declarations: seq<Val>, active: seq<Child>, deferred: bool, name: string)
    requires name !in TOUCHED || (|active| != 1 && Narrative(name))
    ensures Get(Apply(root, Changes(c, root, declarations, active, deferred)), name) == Get(root, name)
  {
    FieldsApart(name, |active|);
    FieldsOfChanges(c, root, declarations, active, deferred);
    hide Apply, Narrative, StructureChanges, FreshnessChanges, NarrativeChanges, FieldOf, Get, TOUCHED;
    var s := StructureChanges(root, declarations, active, deferred);
    var f, n := FreshnessChanges(c, root, active), NarrativeChanges(root, active);
    var changes := s + f + n;
    forall i | 0 <= i < |changes| ensures FieldOf(changes[i]) != name {
      if i < |s| {
        assert changes[i] == s[i];
      } else if i < |s| + |f| {
        assert changes[i] == f[i - |s|];
      } else {
        assert changes[i] == n[i - |s| - |f|];
      }
    }
    OnlyNamedFields(root, changes, name);
  }

  // ----- the proposal

  /** Where a project's root is: its own repository, or the central one. */
  predicate RootAt(c: Context, project: Mapping, repository: string, path: string) {
    && (if Get(project, "storage") == Some(Text("project_repo")) then Reads(c, project, "repository", "None", repository)
        else repository == c.central)
    && repository != "" && repository != "None"
    && Present(project, "state_path") && Prints(c, project["state_path"], path)
  }

  lemma RootIsRight(c: Context, project: Mapping)
    ensures var found := RootOf(c, project);
      && (found.Some? ==>
            var (repository, path, root) := found.value;
            RootAt(c, project, repository, path) && c.read(repository, path) == Some(root))
      && (found.None? ==> forall repository, path :: RootAt(c, project, repository, path) ==> c.read(repository, path).None?)
  {
    StrPrints(c, project, "repository", "None");
    StrPrints(c, project, "state_path", "");
  }

  /** The text that is read is one text. */
  lemma OneText(c: Context, m: Mapping, key: string, default: string, s: string, t: string)
    requires Reads(c, m, key, default, s) && Reads(c, m, key, default, t)
    ensures s == t
  {
  }

  /** A proposal's own fields, given the workstreams that count. */
  predicate ProposedRightly(c: Context, project: Mapping, p: Proposal, active: seq<Child>) {
    && Reads(c, project, "id", "unknown", p.id) && Reads(c, project, "name", p.id, p.name)
    && RootAt(c, project, p.repository, p.rootPath)
    && |p.basis| == |active| && (forall i :: 0 <= i < |active| ==> p.basis[i] == active[i].path)
    && (p.manual <==> |active| > 1)
    && |p.notes| == 1
    && (|active| == 1 ==> p.notes[0] == "Narrative proposal is unambiguous because exactly one blocking workstream is active.")
    && (|active| > 1 ==> p.notes[0] == "Multiple blocking workstreams are active; narrative rollup fields are intentionally not synthesized deterministically.")
    && (|active| == 0 ==> p.notes[0] == "No blocking active workstream exists; only structural rollup fields can be proposed safely.")
  }

  /** A proposal is right for the workstreams as they are read, and so is the root that it makes. */
  ghost predicate ProposesRightly(c: Context, project: Mapping, items: seq<Val>, p: Proposal) {
    exists children, active, root :: ProposesFrom(c, project, items, p, children, active, root)
  }

  ghost predicate ProposesFrom(c: Context, project: Mapping, items: seq<Val>, p: Proposal,
                               children: seq<Child>, active: seq<Child>, root: Mapping) {
    && children != [] && ReadAll(c, p.repository, project, items, children)
    && (exists ks :: SubsequenceAt(ks, children, active))
    && c.read(p.repository, p.rootPath) == Some(root)
    && ProposedRightly(c, project, p, active)
    && AppliedRightly(c, root, Apply(root, p.changes), items, active, |active| < |children|)
  }

  lemma ProposalShape(c: Context, project: Mapping, items: seq<Val>) returns (root: Mapping)
    requires Propose(c, project, items).Some?
    ensures var p := Propose(c, project, items).value;
      var children := Children(c, p.repository, project, items);
      && RootOf(c, project) == Some((p.repository, p.rootPath, root)) && children != []
      && p.changes == Changes(c, root, Declarations(c, items), Active(children), |Active(children)| != |children|)
  {
    hide RootOf, Children, Active, Declarations, Changes, NoteFor, StrOr;
    root := RootOf(c, project).value.2;
  }

  lemma ProposalIsRight(c: Context, project: Mapping, items: seq<Val>)
    ensures Propose(c, project, items).Some? ==> ProposesRightly(c, project, items, Propose(c, project, items).value)
    ensures Propose(c, project, items).None? <==>
      RootOf(c, project).None? || Children(c, RootOf(c, project).value.0, project, items) == []
  {
    if Propose(c, project, items).Some? {
      var p := Propose(c, project, items).value;
      var root := ProposalShape(c, project, items);
      FieldsAreRight(c, project, items);
      RootIsRight(c, project);
      hide *;
      var children := Children(c, p.repository, project, items);
      var active := Active(children);
      var ks := ChildrenAreRight(c, p.repository, project, items);
      var positions := ActiveAreTheOthers(children);
      ActiveCount(children);
      AppliedRootIsRight(c, root, items, active, |active| != |children|);
      ProposalFrom(c, project, items, p, children, active, root, ks, positions);
    }
  }

  lemma ProposalFrom(c: Context, project: Mapping, items: seq<Val>, p: Proposal, children: seq<Child>, active: seq<Child>,
                     root: Mapping, ks: seq<int>, positions: seq<int>)
    requires children != [] && ReadAllAt(c, p.repository, project, items, ks, children) && SubsequenceAt(positions, children, active)
    requires c.read(p.repository, p.rootPath) == Some(root) && ProposedRightly(c, project, p, active) && |active| <= |children|
    requires AppliedRightly(c, root, Apply(root, p.changes), items, active, |active| != |children|)
    ensures ProposesRightly(c, project, items, p)
  {
    hide ReadAllAt, SubsequenceAt, ProposedRightly, AppliedRightly;
    assert ProposesFrom(c, project, items, p, children, active, root);
  }

  lemma {:induction false} ActiveCount(children: seq<Child>)
    ensures |Active(children)| <= |children|
    decreases |children|
  {
    if children != [] { ActiveCount(children[..|children| - 1]); }
  }

  lemma FieldsAreRight(c: Context, project: Mapping, items: seq<Val>)
    ensures var proposal := Propose(c, project, items);
      proposal.Some? ==> ProposedRightly(c, project, proposal.value, Active(Children(c, proposal.value.repository, project, items)))
  {
    RootIsRight(c, project);
    var id := StrOr(c, project, "id", "unknown");
    StrPrints(c, project, "id", "unknown");
    StrPrints(c, project, "name", id);
    hide RootOf, RootAt, Reads, StrOr, Children, Active, Changes, Declarations;
  }
}
