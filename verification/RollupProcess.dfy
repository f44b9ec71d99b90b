/** The engine's and the checker's code, which fill a proposal and a report in place. */
module RollupProcess {
  import opened Options
  import opened Rollup
  import I = Integrity
  import S = RollupSteps
  import F = IntegritySteps

  class RollupProposal {
    const id: string
    const name: string
    const repository: string
    const rootPath: string
    const basis: seq<string>
    var changes: seq<Change>
    var manual: bool
    var notes: seq<string>

    constructor (id: string, name: string, repository: string, rootPath: string, basis: seq<string>)
      ensures this.id == id && this.name == name && this.repository == repository && this.rootPath == rootPath
      ensures this.basis == basis && changes == [] && !manual && notes == []
    {
      this.id, this.name, this.repository, this.rootPath, this.basis := id, name, repository, rootPath, basis;
      changes, manual, notes := [], false, [];
    }

    function Value(): Proposal
      reads this
    {
      Proposal(id, name, repository, rootPath, basis, changes, manual, notes)
    }

    method SetIfChanged(root: Mapping, name: string, value: Val)
      modifies this`changes
      ensures changes == old(changes) + Rollup.SetIfChanged(root, name, value)
    {
      if Lookup(root, name) != value {
        changes := changes + [Change(Field(name), value)];
      }
    }

    method SetPolicy(root: Mapping, name: string, value: Val)
      modifies this`changes
      ensures changes == old(changes) + PolicyChange(root, name, value)
    {
      if Lookup(Section(root, POLICY), name) != value {
        changes := changes + [Change(Under(POLICY, name), value)];
      }
    }

    method ProposeStructure(c: Context, root: Mapping, workstreams: seq<Val>, active: seq<Child>, children: seq<Child>)
      modifies this`changes
      ensures changes == old(changes)
        + StructureChanges(root, Declarations(c, workstreams), active, |active| != |children|)
    {
      SetIfChanged(root, SCOPE, Text("project_rollup"));
      var desired: seq<Val> := [];
      for i := 0 to |workstreams|
        invariant desired == Declarations(c, workstreams[..i])
      {
        assert workstreams[..i + 1][..i] == workstreams[..i];
        var entry := DeclarationOf(c, workstreams[i]);
        if entry.Some? {
          desired := desired + [entry.value];
        }
      }
      assert workstreams[..|workstreams|] == workstreams;
      SetIfChanged(root, WORKSTREAMS, List(desired));
      SetPolicy(root, WRITES_ROOT, Flag(false));
      SetPolicy(root, SOURCES, List(Sources(active)));
      if |active| != |children| {
        SetPolicy(root, UNBLOCKED, Flag(true));
      }
    }

    method ProposeFreshness(c: Context, root: Mapping, active: seq<Child>)
      modifies this`changes
      ensures changes == old(changes) + FreshnessChanges(c, root, active)
    {
      var rootDate := ParseDate(c, LastVerified(c, root));
      var newest: Option<Child> := None;
      for i := 0 to |active|
        invariant newest == Newest(c, active[..i])
      {
        assert active[..i + 1][..i] == active[..i];
        var date := ParseDate(c, active[i].lastVerified);
        if date.Some? && (newest.None? || date.value > ParseDate(c, newest.value.lastVerified).value) {
          newest := Some(active[i]);
        }
      }
      assert active[..|active|] == active;
      if newest.Some? && (rootDate.None? || ParseDate(c, newest.value.lastVerified).value > rootDate.value) {
        changes := changes + [Change(Under(VERIFICATION, VERIFIED), Text(newest.value.lastVerified))];
      }
    }

    method CopyField(root: Mapping, raw: Mapping, name: string)
      modifies this`changes
      ensures changes == old(changes) + CopyIfChanged(root, raw, name)
    {
      if name in raw {
        SetIfChanged(root, name, raw[name]);
      }
    }

    method ProposeNarrative(root: Mapping, active: seq<Child>)
      modifies this`changes, this`manual, this`notes
      ensures changes == old(changes) + NarrativeChanges(root, active)
      ensures manual == (old(manual) || |active| > 1)
      ensures notes == old(notes) + [NoteFor(|active|)]
    {
      hide CopyIfChanged;
      if |active| == 1 {
        CopyField(root, active[0].raw, STATUS);
        CopyField(root, active[0].raw, PHASE);
        CopyField(root, active[0].raw, GATE);
        CopyField(root, active[0].raw, ACTION);
      } else if |active| > 1 {
        manual := true;
      }
      notes := notes + [NoteFor(|active|)];
    }
  }

  method LoadChildren(c: Context, repository: string, project: Mapping, workstreams: seq<Val>)
    returns (children: seq<Child>, active: seq<Child>)
    ensures children == Children(c, repository, project, workstreams) && active == Active(children)
  {
    children, active := [], [];
    for i := 0 to |workstreams|
      invariant children == Children(c, repository, project, workstreams[..i])
    {
      assert workstreams[..i + 1][..i] == workstreams[..i];
      var child := ChildOf(c, repository, project, workstreams[i]);
      if child.Some? {
        children := children + [child.value];
      }
    }
    assert workstreams[..|workstreams|] == workstreams;
    for i := 0 to |children|
      invariant active == Active(children[..i])
    {
      assert children[..i + 1][..i] == children[..i];
      if !NonBlocking(children[i]) {
        active := active + [children[i]];
      }
    }
    assert children[..|children|] == children;
  }

  /** One project's proposal, or none. */
  method ProposeProject(c: Context, project: Mapping, workstreams: seq<Val>) returns (proposal: RollupProposal?)
    ensures proposal == null <==> Propose(c, project, workstreams).None?
    ensures proposal != null ==> fresh(proposal) && Some(proposal.Value()) == Propose(c, project, workstreams)
    ensures proposal != null ==> S.ProposesRightly(c, project, workstreams, proposal.Value())
  {
    S.ProposalIsRight(c, project, workstreams);
    hide S.ProposesRightly, Children, Active, Declarations, StructureChanges, FreshnessChanges, NarrativeChanges;
    var found := RootOf(c, project);
    if found.None? {
      return null;
    }
    var (repository, path, root) := found.value;
    var children, active := LoadChildren(c, repository, project, workstreams);
    if children == [] {
      return null;
    }
    var id := StrOr(c, project, "id", "unknown");
    var basis := seq(|active|, i requires 0 <= i < |active| => active[i].path);
    proposal := new RollupProposal(id, StrOr(c, project, "name", id), repository, path, basis);
    proposal.ProposeStructure(c, root, workstreams, active, children);
    proposal.ProposeFreshness(c, root, active);
    proposal.ProposeNarrative(root, active);
    assert proposal.changes == Changes(c, root, Declarations(c, workstreams), active, |active| != |children|);
    assert proposal.notes == [NoteFor(|active|)];
  }

  class IntegrityReport {
    var findings: seq<I.Finding>

    constructor ()
      ensures findings == []
    {
      findings := [];
    }

    method Warn(code: string, subject: string, detail: set<string>)
      modifies this
      ensures findings == old(findings) + I.Warning(code, subject, detail)
    {
      if detail != {} {
        findings := findings + [I.Finding("warning", code, subject, detail)];
      }
    }

    /** False when iterating over the declared workstreams raises. */
    method CheckShape(c: Context, subject: string, root: Mapping, mapPaths: set<string>) returns (done: bool)
      modifies this
      ensures done <==> I.ShapeFindings(c, subject, root, mapPaths).Some?
      ensures done ==> findings == old(findings) + I.ShapeFindings(c, subject, root, mapPaths).value
    {
      var scope := StrOr(c, root, SCOPE, "");
      if scope != "project_rollup" {
        findings := findings + [I.Finding("warning", "multi_workstream_root_not_rollup", subject, {scope})];
      }
      var elements := I.Elements(Get(root, WORKSTREAMS));
      if elements.None? {
        return false;
      }
      var declared := I.DeclaredPaths(c, elements.value);
      Warn("rollup_missing_workstream_declaration", subject, mapPaths - declared);
      Warn("rollup_declares_unknown_workstream", subject, declared - mapPaths);
      done := true;
    }

    method CheckSources(c: Context, subject: string, root: Mapping, working: seq<I.Loaded>, mapPaths: set<string>)
      returns (done: bool)
      modifies this
      ensures done <==> I.SourceFindings(c, subject, root, working, mapPaths).Some?
      ensures done ==> findings == old(findings) + I.SourceFindings(c, subject, root, working, mapPaths).value
    {
      var elements := I.Elements(Get(Section(root, POLICY), SOURCES));
      if elements.None? {
        return false;
      }
      var generated := I.GeneratedPaths(c, elements.value);
      Warn("rollup_missing_active_source", subject, I.Required(working) - generated);
      Warn("rollup_generated_from_unknown_source", subject, generated - mapPaths);
      done := true;
    }

    method CheckFreshness(c: Context, subject: string, root: Mapping, working: seq<I.Loaded>)
      modifies this
      ensures findings == old(findings) + I.FreshFindings(c, subject, root, working)
    {
      var newest: Option<I.Loaded> := None;
      for i := 0 to |working|
        invariant newest == I.NewestOf(c, root, working[..i])
      {
        assert working[..i + 1][..i] == working[..i];
        if I.Newer(c, root, working[i])
           && (newest.None?
               || ParseDate(c, working[i].lastVerified).value > ParseDate(c, newest.value.lastVerified).value) {
          newest := Some(working[i]);
        }
      }
      assert working[..|working|] == working;
      if newest.Some? {
        findings := findings + [I.Finding("warning", "rollup_outdated", subject, {newest.value.path})];
      }
    }

    method CheckSync(c: Context, subject: string, root: Mapping, working: seq<I.Loaded>)
      modifies this
      ensures findings == old(findings) + I.SyncFindings(c, subject, root, working)
    {
      var unsynced: set<string> := {};
      for i := 0 to |working|
        invariant findings == old(findings) && unsynced == I.Unsynced(working[..i])
      {
        MoreUnsynced(working, i);
        if working[i].syncStatus != "synced" {
          unsynced := unsynced + {working[i].path + "=" + working[i].syncStatus};
        }
      }
      assert working[..|working|] == working;
      if I.SyncIn(c, root) == "synced" {
        Warn("rollup_sync_conflict", subject, unsynced);
      }
    }

    method CheckStatus(c: Context, subject: string, root: Mapping, working: seq<I.Loaded>)
      modifies this
      ensures findings == old(findings) + I.StatusFindings(c, subject, root, working)
    {
      if I.StatusIn(c, root) !in I.TERMINAL_ROOT_STATUSES {
        return;
      }
      var active: set<string> := {};
      for i := 0 to |working|
        invariant findings == old(findings) && active == I.StillActive(working[..i])
      {
        MoreActive(working, i);
        if working[i].status == "active" {
          active := active + {working[i].path};
        }
      }
      assert working[..|working|] == working;
      if active != {} {
        findings := findings + [I.Finding("error", "rollup_status_conflict", subject, active)];
      }
    }

    /** The checks of one project; false when one of them raises. */
    method CheckProject(c: Context, project: Mapping, workstreams: seq<Val>) returns (done: bool)
      modifies this
      ensures done <==> I.ProjectFindings(c, project, workstreams).Some?
      ensures done ==> findings == old(findings) + I.ProjectFindings(c, project, workstreams).value
      ensures done ==> F.CheckedRightly(c, project, workstreams, old(findings), findings)
    {
      F.FindingsAreRight(c, project, workstreams, findings);
      hide F.CheckedRightly;
      hide I.ShapeFindings, I.SourceFindings, I.FreshFindings, I.SyncFindings, I.StatusFindings;
      var found := RootOf(c, project);
      if found.None? {
        return true;
      }
      var (repository, path, root) := found.value;
      var children, working, mapPaths := LoadStates(c, repository, project, workstreams);
      if children == [] {
        NobodyWorks(c, "", root, working);
        return true;
      }
      hide I.LoadAll, I.Working, RootOf, StrOr;
      var subject := StrOr(c, project, "name", StrOr(c, project, "id", "unknown"));
      done := CheckAll(c, subject, root, working, mapPaths);
    }

    method CheckAll(c: Context, subject: string, root: Mapping, working: seq<I.Loaded>, mapPaths: set<string>)
      returns (done: bool)
      modifies this
      ensures done <==> I.ShapeFindings(c, subject, root, mapPaths).Some?
                        && I.SourceFindings(c, subject, root, working, mapPaths).Some?
      ensures done ==>
        var shape := I.ShapeFindings(c, subject, root, mapPaths).value;
        var sources := I.SourceFindings(c, subject, root, working, mapPaths).value;
        var rollup := shape + sources + I.FreshFindings(c, subject, root, working);
        findings == old(findings) + (rollup + I.SyncFindings(c, subject, root, working)
                                     + I.StatusFindings(c, subject, root, working))
    {
      hide *;
      done := CheckShape(c, subject, root, mapPaths);
      if done {
        done := CheckSources(c, subject, root, working, mapPaths);
      }
      if done {
        CheckFreshness(c, subject, root, working);
        CheckSync(c, subject, root, working);
        CheckStatus(c, subject, root, working);
      }
    }
  }

  lemma MoreUnsynced(working: seq<I.Loaded>, i: nat)
    requires i < |working|
    ensures I.Unsynced(working[..i + 1]) == I.Unsynced(working[..i])
      + (if working[i].syncStatus != "synced" then {working[i].path + "=" + working[i].syncStatus} else {})
  {
    assert working[..i + 1] == working[..i] + [working[i]];
    forall x | x in I.Unsynced(working[..i]) ensures x in I.Unsynced(working[..i + 1]) {
      var k :| 0 <= k < i && working[k].syncStatus != "synced" && working[k].path + "=" + working[k].syncStatus == x;
      assert working[..i + 1][k] == working[k];
    }
    assert working[..i + 1][i] == working[i];
  }

  lemma MoreActive(working: seq<I.Loaded>, i: nat)
    requires i < |working|
    ensures I.StillActive(working[..i + 1])
         == I.StillActive(working[..i]) + (if working[i].status == "active" then {working[i].path} else {})
  {
    forall x | x in I.StillActive(working[..i]) ensures x in I.StillActive(working[..i + 1]) {
      var k :| 0 <= k < i && working[k].status == "active" && working[k].path == x;
      assert working[..i + 1][k] == working[k];
    }
    assert working[..i + 1][i] == working[i];
  }

  lemma NobodyWorks(c: Context, subject: string, root: Mapping, working: seq<I.Loaded>)
    requires working == []
    ensures forall s :: I.SyncFindings(c, s, root, working) == [] && I.StatusFindings(c, s, root, working) == []
  {
  }

  method LoadStates(c: Context, repository: string, project: Mapping, workstreams: seq<Val>)
    returns (children: seq<I.Loaded>, working: seq<I.Loaded>, mapPaths: set<string>)
    ensures children == I.LoadAll(c, repository, project, workstreams) && working == I.Working(children)
    ensures mapPaths == I.MapPaths(c, workstreams)
  {
    children, working, mapPaths := [], [], {};
    for i := 0 to |workstreams|
      invariant children == I.LoadAll(c, repository, project, workstreams[..i])
      invariant mapPaths == I.MapPaths(c, workstreams[..i])
    {
      assert workstreams[..i + 1][..i] == workstreams[..i];
      MorePaths(c, workstreams, i);
      var path := PathOf(c, workstreams[i]);
      if path.Some? {
        mapPaths := mapPaths + {path.value};
        var child := I.LoadedOf(c, repository, project, workstreams[i]);
        if child.Some? {
          children := children + [child.value];
        }
      }
    }
    assert workstreams[..|workstreams|] == workstreams;
    for i := 0 to |children|
      invariant working == I.Working(children[..i])
    {
      assert children[..i + 1][..i] == children[..i];
      if !I.Idle(children[i]) {
        working := working + [children[i]];
      }
    }
    assert children[..|children|] == children;
  }

  lemma MorePaths(c: Context, items: seq<Val>, i: nat)
    requires i < |items|
    ensures I.MapPaths(c, items[..i + 1])
         == I.MapPaths(c, items[..i]) + (if PathOf(c, items[i]).Some? then {PathOf(c, items[i]).value} else {})
  {
    hide PathOf;
    var more, fewer := items[..i + 1], items[..i];
    assert forall k :: 0 <= k < i ==> more[k] == fewer[k];
    assert more[i] == items[i];
    forall path | path in I.MapPaths(c, fewer) ensures path in I.MapPaths(c, more) {
      var k :| 0 <= k < |fewer| && PathOf(c, fewer[k]) == Some(path);
      assert more[k] == fewer[k];
    }
  }
}
