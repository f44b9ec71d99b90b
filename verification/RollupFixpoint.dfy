/**
 Applying a proposal and proposing again: nothing is left to change, unless the root
 is itself one of its workstreams and the status it takes over wakes it up.
 */
module RollupFixpoint {
  import opened Options
  import opened Rollup

  /** The root file's child `x` before, and `x'` after, the root became `root'`. */
  predicate Alike(c: Context, root: Mapping, root': Mapping, rootPath: string, x: Child, x': Child) {
    && x'.path == x.path && x'.attention == x.attention
    && (x.path != rootPath ==> x' == x)
    && (STATUS in x.raw ==> x.status == StrOf(c, x.raw[STATUS]))
    && (x.path == rootPath ==>
          && x.raw == root && x'.raw == root' && x'.lastVerified == LastVerified(c, root')
          && (STATUS in root' ==> x'.status == StrOf(c, root'[STATUS]))
          && (Get(root', STATUS) == Get(root, STATUS) ==> x'.status == x.status))
  }

  predicate AllAlike(c: Context, root: Mapping, root': Mapping, rootPath: string, xs: seq<Child>, xs': seq<Child>) {
    |xs| == |xs'| && forall i :: 0 <= i < |xs| ==> Alike(c, root, root', rootPath, xs[i], xs'[i])
  }

  /** `c'` is `c` with one file replaced. */
  ghost predicate Rewrites(c: Context, c': Context, repository: string, path: string, root: Mapping, root': Mapping) {
    && c'.central == c.central && c'.render == c.render && c'.date == c.date
    && c.read(repository, path) == Some(root) && c'.read(repository, path) == Some(root')
    && forall r, p :: r != repository || p != path ==> c'.read(r, p) == c.read(r, p)
  }

  lemma ChildAlike(c: Context, c': Context, repository: string, path: string, root: Mapping, root': Mapping,
                   project: Mapping, item: Val)
    requires Rewrites(c, c', repository, path, root, root')
    ensures var x, x' := ChildOf(c, repository, project, item), ChildOf(c', repository, project, item);
      && x.Some? == x'.Some?
      && (x.Some? ==> Alike(c, root, root', path, x.value, x'.value))
  {
  }

  lemma {:induction false} ChildrenAlike(c: Context, c': Context, repository: string, path: string, root: Mapping,
                                         root': Mapping, project: Mapping, items: seq<Val>)
    requires Rewrites(c, c', repository, path, root, root')
    ensures AllAlike(c, root, root', path, Children(c, repository, project, items), Children(c', repository, project, items))
    decreases |items|
  {
    hide ChildOf, Alike, Rewrites;
    if items != [] {
      ChildrenAlike(c, c', repository, path, root, root', project, items[..|items| - 1]);
      ChildAlike(c, c', repository, path, root, root', project, items[|items| - 1]);
    }
  }

  lemma {:induction false} DeclarationsStay(c: Context, c': Context, items: seq<Val>)
    requires c'.render == c.render
    ensures Declarations(c', items) == Declarations(c, items)
    decreases |items|
  {
    if items != [] {
      DeclarationsStay(c, c', items[..|items| - 1]);
      assert PathOf(c', items[|items| - 1]) == PathOf(c, items[|items| - 1]);
    }
  }

  lemma {:induction false} ActiveMembers(children: seq<Child>, x: Child)
    ensures x in Active(children) <==> x in children && !NonBlocking(x)
    ensures |Active(children)| <= |children|
    decreases |children|
  {
    if children != [] {
      var last := |children| - 1;
      ActiveMembers(children[..last], x);
      assert children == children[..last] + [children[last]];
    }
  }

  lemma {:induction false} ActiveAlike(c: Context, root: Mapping, root': Mapping, path: string,
                                       xs: seq<Child>, xs': seq<Child>)
    requires AllAlike(c, root, root', path, xs, xs')
    requires forall i :: 0 <= i < |xs| ==> NonBlocking(xs[i]) == NonBlocking(xs'[i])
    ensures AllAlike(c, root, root', path, Active(xs), Active(xs'))
    decreases |xs|
  {
    hide Alike, NonBlocking;
    if xs != [] {
      ActiveAlike(c, root, root', path, xs[..|xs| - 1], xs'[..|xs'| - 1]);
    }
  }

  lemma {:induction false} ActiveGrows(xs: seq<Child>, xs': seq<Child>, k: nat)
    requires |xs| == |xs'| && forall i :: 0 <= i < |xs| ==> NonBlocking(xs[i]) || !NonBlocking(xs'[i])
    ensures |Active(xs)| <= |Active(xs')|
    ensures k < |xs| && NonBlocking(xs[k]) && !NonBlocking(xs'[k]) ==> |Active(xs)| < |Active(xs')|
    decreases |xs|
  {
    hide NonBlocking;
    if xs != [] {
      ActiveGrows(xs[..|xs| - 1], xs'[..|xs'| - 1], k);
    }
  }

  lemma FreshMeans(c: Context, root: Mapping, active: seq<Child>)
    ensures !Stale(c, root, active) <==>
      forall x :: x in active && ParseDate(c, x.lastVerified).Some? ==>
        && ParseDate(c, LastVerified(c, root)).Some?
        && ParseDate(c, x.lastVerified).value <= ParseDate(c, LastVerified(c, root)).value
  {
  }

  /**
   The root takes over the one active child's status, and is itself listed as a workstream that only its own
   non-blocking status kept out of the rollup.
   */
  predicate Wakes(root: Mapping, path: string, children: seq<Child>) {
    && TakesOver(root, Active(children))
    && exists x :: x in children && x.path == path && NonBlocking(x) && x.attention !in NON_BLOCKING_ATTENTION
  }

  /** A null is no news to a root without the field: nothing is proposed, and nothing wakes. */
  lemma NullIsNoNews(root: Mapping, path: string, children: seq<Child>, name: string)
    requires |Active(children)| == 1 && name !in root
    requires name in Active(children)[0].raw && Active(children)[0].raw[name] == Null
    ensures CopyIfChanged(root, Active(children)[0].raw, name) == []
    ensures name == STATUS ==> !Wakes(root, path, children)
  {
  }

  /** One child's standing after the root's status became what the changes make of it. */
  lemma StandingAfter(c: Context, root: Mapping, root': Mapping, path: string, xs: seq<Child>, xs': seq<Child>, i: nat)
    requires AllAlike(c, root, root', path, xs, xs') && i < |xs|
    requires var active := Active(xs);
      Get(root', STATUS) == if TakesOver(root, active) then Some(active[0].raw[STATUS]) else Get(root, STATUS)
    ensures NonBlocking(xs'[i]) == (NonBlocking(xs[i]) && !(Wakes(root, path, xs) && xs[i].path == path
                                                            && xs[i].attention !in NON_BLOCKING_ATTENTION))
  {
    hide AllAlike, Alike, NonBlocking, NON_BLOCKING_ATTENTION, TakesOver;
    AlikeAt(c, root, root', path, xs, xs', i);
    var x, x' := xs[i], xs'[i];
    if x.path == path && TakesOver(root, Active(xs)) {
      TakenFromElsewhere(c, root, root', path, xs, xs');
      ActiveMembers(xs, x);
      TakenStanding(c, root, root', path, x, x', Active(xs)[0]);
      assert x in xs;
    } else {
      SameStanding(c, root, root', path, x, x');
    }
  }

  lemma SameStanding(c: Context, root: Mapping, root': Mapping, path: string, x: Child, x': Child)
    requires Alike(c, root, root', path, x, x') && (x.path != path || Get(root', STATUS) == Get(root, STATUS))
    ensures NonBlocking(x') == NonBlocking(x)
  {
    hide NON_BLOCKING_ATTENTION, NON_BLOCKING_STATUSES;
  }

  lemma TakenStanding(c: Context, root: Mapping, root': Mapping, path: string, x: Child, x': Child, only: Child)
    requires Alike(c, root, root', path, x, x') && x.path == path && !NonBlocking(only)
    requires STATUS in only.raw && only.status == StrOf(c, only.raw[STATUS]) && Get(root', STATUS) == Some(only.raw[STATUS])
    ensures NonBlocking(x') == (x.attention in NON_BLOCKING_ATTENTION)
    ensures x.attention in NON_BLOCKING_ATTENTION ==> NonBlocking(x)
  {
    hide NON_BLOCKING_ATTENTION, NON_BLOCKING_STATUSES;
  }

  /** What the root takes over is another file's, an active one's. */
  lemma TakenFromElsewhere(c: Context, root: Mapping, root': Mapping, path: string, xs: seq<Child>, xs': seq<Child>)
    requires AllAlike(c, root, root', path, xs, xs') && TakesOver(root, Active(xs))
    ensures |Active(xs)| == 1
    ensures var only := Active(xs)[0];
      && STATUS in only.raw && only.path != path && only.status == StrOf(c, only.raw[STATUS])
      && !NonBlocking(only) && forall x :: x in Active(xs) ==> x == only
  {
    hide AllAlike, NonBlocking;
    var only := Active(xs)[0];
    ActiveMembers(xs, only);
    var k :| 0 <= k < |xs| && xs[k] == only;
    AlikeAt(c, root, root', path, xs, xs', k);
  }

  lemma AlikeAt(c: Context, root: Mapping, root': Mapping, path: string, xs: seq<Child>, xs': seq<Child>, i: nat)
    requires AllAlike(c, root, root', path, xs, xs') && i < |xs|
    ensures |xs'| == |xs| && Alike(c, root, root', path, xs[i], xs'[i])
  {
  }

  lemma SettledStays(c: Context, c': Context, root: Mapping, root': Mapping, path: string,
                     active: seq<Child>, active': seq<Child>, declarations: seq<Val>, deferred: bool)
    requires AllAlike(c, root, root', path, active, active') && c'.render == c.render && c'.date == c.date
    requires Structured(root', declarations, active, deferred) && !Stale(c, root', active) && Told(root', active)
    ensures Structured(root', declarations, active', deferred) && !Stale(c', root', active') && Told(root', active')
  {
    assert Sources(active) == Sources(active');
    assert LastVerified(c', root') == LastVerified(c, root');
    FreshMeans(c, root', active);
    FreshMeans(c', root', active');
    forall x' | x' in active' && ParseDate(c', x'.lastVerified).Some?
      ensures ParseDate(c', LastVerified(c', root')).Some?
      ensures ParseDate(c', x'.lastVerified).value <= ParseDate(c', LastVerified(c', root')).value
    {
      var i :| 0 <= i < |active'| && active'[i] == x';
      assert Alike(c, root, root', path, active[i], x');
    }
    if |active| == 1 { assert Alike(c, root, root', path, active[0], active'[0]); }
  }

  /** The applied context, as a rewrite of the root file. */
  lemma AppliedRewrites(c: Context, project: Mapping, items: seq<Val>)
    returns (repository: string, path: string, root: Mapping, root': Mapping, children: seq<Child>)
    requires Propose(c, project, items).Some?
    ensures RootOf(c, project) == Some((repository, path, root))
    ensures children == Children(c, repository, project, items) && children != []
    ensures var proposal := Propose(c, project, items).value;
      && proposal.repository == repository && proposal.rootPath == path
      && proposal.changes == Changes(c, root, Declarations(c, items), Active(children), |Active(children)| != |children|)
      && root' == Apply(root, proposal.changes)
      && Rewrites(c, Applied(c, proposal), repository, path, root, root')
      && RootOf(Applied(c, proposal), project) == Some((repository, path, root'))
  {
    hide Changes, Apply, Children, Declarations;
    var found := RootOf(c, project).value;
    repository, path, root := found.0, found.1, found.2;
    children := Children(c, repository, project, items);
    var proposal := Propose(c, project, items).value;
    root' := Apply(root, proposal.changes);
    var c' := Applied(c, proposal);
    assert RepositoryOf(c', project) == RepositoryOf(c, project);
  }

  /** Proposing again after applying changes nothing, exactly when the root does not wake up as its own workstream. */
  lemma Fixpoint(c: Context, project: Mapping, items: seq<Val>)
    requires Propose(c, project, items).Some?
    ensures var proposal := Propose(c, project, items).value;
      var again := Propose(Applied(c, proposal), project, items);
      && again.Some?
      && (again.value.changes == [] <==>
            !Wakes(RootOf(c, project).value.2, proposal.rootPath, Children(c, proposal.repository, project, items)))
  {
    hide Changes, Apply, Children, Declarations, Wakes, Rewrites, RootOf, Applied, Active, AllAlike;
    var proposal := Propose(c, project, items).value;
    var c' := Applied(c, proposal);
    var repository, path, root, root', xs := AppliedRewrites(c, project, items);
    var xs' := Children(c', repository, project, items);
    ChildrenAlike(c, c', repository, path, root, root', project, items);
    SameLength(c, root, root', path, xs, xs');
    SameRendering(c, c', repository, path, root, root');
    DeclarationsStay(c, c', items);
    var declarations, active, active' := Declarations(c, items), Active(xs), Active(xs');
    var settled := ChangesSettle(c, root, declarations, active, |active| != |xs|);
    NothingToChange(c', root', declarations, active', |active'| != |xs'|);
    if Wakes(root, path, xs) {
      WakingGrows(c, root, root', path, xs, xs');
      assert Sources(active) != Sources(active');
    } else {
      forall i | 0 <= i < |xs| ensures NonBlocking(xs[i]) == NonBlocking(xs'[i]) {
        StandingAfter(c, root, root', path, xs, xs', i);
      }
      ActiveAlike(c, root, root', path, xs, xs');
      SameLength(c, root, root', path, active, active');
      SettledStays(c, c', root, root', path, active, active', declarations, |active| != |xs|);
    }
  }

  lemma SameLength(c: Context, root: Mapping, root': Mapping, path: string, xs: seq<Child>, xs': seq<Child>)
    requires AllAlike(c, root, root', path, xs, xs')
    ensures |xs| == |xs'|
  {
  }

  lemma SameRendering(c: Context, c': Context, repository: string, path: string, root: Mapping, root': Mapping)
    requires Rewrites(c, c', repository, path, root, root')
    ensures c'.render == c.render && c'.date == c.date
  {
  }

  lemma WakingGrows(c: Context, root: Mapping, root': Mapping, path: string, xs: seq<Child>, xs': seq<Child>)
    requires AllAlike(c, root, root', path, xs, xs') && Wakes(root, path, xs)
    requires var active := Active(xs);
      Get(root', STATUS) == if TakesOver(root, active) then Some(active[0].raw[STATUS]) else Get(root, STATUS)
    ensures |Active(xs')| > |Active(xs)|
  {
    hide AllAlike, NonBlocking;
    SameLength(c, root, root', path, xs, xs');
    forall i | 0 <= i < |xs| ensures NonBlocking(xs[i]) || !NonBlocking(xs'[i]) {
      StandingAfter(c, root, root', path, xs, xs', i);
    }
    var x :| x in xs && x.path == path && NonBlocking(x) && x.attention !in NON_BLOCKING_ATTENTION;
    var k :| 0 <= k < |xs| && xs[k] == x;
    StandingAfter(c, root, root', path, xs, xs', k);
    ActiveGrows(xs, xs', k);
  }

  lemma TwoChildren(c: Context, repository: string, project: Mapping, first: Val, second: Val)
    requires ChildOf(c, repository, project, first).Some? && ChildOf(c, repository, project, second).Some?
    ensures Children(c, repository, project, [first, second])
         == [ChildOf(c, repository, project, first).value, ChildOf(c, repository, project, second).value]
  {
    hide ChildOf;
    assert [first, second][..1] == [first] && [first][..0] == [];
    assert Children(c, repository, project, [first]) == [ChildOf(c, repository, project, first).value];
  }

  lemma SecondIsActive(first: Child, second: Child)
    requires NonBlocking(first) && !NonBlocking(second)
    ensures Active([first, second]) == [second]
  {
    hide NonBlocking;
    assert [first, second][..1] == [first] && [first][..0] == [];
    assert Active([first]) == [];
  }

  lemma Standings(first: Child, second: Child)
    requires first.attention == "unspecified" && first.status == "not_active"
    requires second.attention == "unspecified" && second.status == "active"
    ensures NonBlocking(first) && !NonBlocking(second) && first.attention !in NON_BLOCKING_ATTENTION
  {
    assert "unspecified" !in NON_BLOCKING_ATTENTION && "active" !in NON_BLOCKING_STATUSES;
  }

  lemma ExampleChild(c: Context, project: Mapping, path: string, status: string) returns (child: Child)
    requires path != "" && c.read("brain", path) == Some(map[STATUS := Text(status)])
    requires "core_attention" !in project
    ensures ChildOf(c, "brain", project, Dict(map["state_path" := Text(path)])) == Some(child)
    ensures child.path == path && child.attention == "unspecified" && child.status == status
    ensures child.raw == map[STATUS := Text(status)]
  {
    var item := Dict(map["state_path" := Text(path)]);
    assert "core_attention" !in item.entries by { assert |"core_attention"| == 14 && |"state_path"| == 10; }
    child := ChildOf(c, "brain", project, item).value;
  }

  /** Such a project: its root is its own first workstream, not active, beside one active workstream. */
  lemma FixpointCanFail() returns (c: Context, project: Mapping, items: seq<Val>)
    ensures Propose(c, project, items).Some?
    ensures var proposal := Propose(c, project, items).value;
      var again := Propose(Applied(c, proposal), project, items);
      again.Some? && again.value.changes != []
  {
    hide Changes, Children, Active, Declarations, Applied, ChildOf, NonBlocking, NON_BLOCKING_ATTENTION;
    var idle, busy: Mapping := map[STATUS := Text("not_active")], map[STATUS := Text("active")];
    c := Context("brain", (r, p) => if p == "root" then Some(idle) else if p == "work" then Some(busy) else None,
                 v => "value", text => None);
    project := map["state_path" := Text("root")];
    assert "core_attention" !in project && "storage" !in project by {
      assert |"core_attention"| == 14 && |"storage"| == 7 && |"state_path"| == 10;
    }
    assert "root" != "work" && "brain" != "None" by { assert "root"[0] == 'r' && "work"[0] == 'w' && |"brain"| == 5 && |"None"| == 4; }
    items := [Dict(map["state_path" := Text("root")]), Dict(map["state_path" := Text("work")])];
    var own := ExampleChild(c, project, "root", "not_active");
    var work := ExampleChild(c, project, "work", "active");
    TwoChildren(c, "brain", project, items[0], items[1]);
    Standings(own, work);
    SecondIsActive(own, work);
    assert RootOf(c, project) == Some(("brain", "root", idle));
    assert own in [own, work];
    assert TakesOver(idle, [work]) by { assert |"not_active"| == 10 && |"active"| == 6; }
    Fixpoint(c, project, items);
  }
}
