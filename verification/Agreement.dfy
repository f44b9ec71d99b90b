/** When the engine and the checker agree on a project, said of its files before the engine writes. */
module Agreement {
  import opened Options
  import opened Rollup
  import opened RollupFixpoint
  import opened Integrity

  lemma RequiredMembers(ls: seq<Loaded>, path: string)
    ensures path in Required(Working(ls)) <==> exists l :: l in ls && !Idle(l) && l.path == path
  {
    hide Idle;
    var working := Working(ls);
    if path in Required(working) {
      var i :| 0 <= i < |working| && working[i].path == path;
      WorkingMembers(ls, working[i]);
    }
    if l :| l in ls && !Idle(l) && l.path == path {
      WorkingMembers(ls, l);
      var i :| 0 <= i < |working| && working[i] == l;
    }
  }

  lemma ActivePathMembers(xs: seq<Child>, path: string)
    ensures path in ActivePaths(Active(xs)) <==> exists x :: x in xs && !NonBlocking(x) && x.path == path
  {
    hide NonBlocking;
    var active := Active(xs);
    if path in ActivePaths(active) {
      var i :| 0 <= i < |active| && active[i].path == path;
      ActiveMembers(xs, active[i]);
    }
    if x :| x in xs && !NonBlocking(x) && x.path == path {
      ActiveMembers(xs, x);
      var i :| 0 <= i < |active| && active[i] == x;
    }
  }

  /** The checker takes the workstream for active although the engine does not. */
  predicate Disputed(x: Child) {
    && x.attention !in NON_BLOCKING_ATTENTION
    && x.status in NON_BLOCKING_STATUSES
    && (STATUS in x.raw ==> x.status == "deferred_manual")
  }

  lemma StatusWords()
    ensures "unknown" !in FUTURE_STATUSES && "deferred_manual" !in FUTURE_STATUSES
    ensures FUTURE_STATUSES + {"deferred_manual"} == NON_BLOCKING_STATUSES
  {
    assert |"unknown"| == 7 && |"deferred_manual"| == 15 && "deferred_manual"[0] == 'd';
  }

  lemma CheckerTakesFor(x: Child, l: Loaded)
    requires SameFile(x, l)
    ensures (!Idle(l) <==> !NonBlocking(x) || Disputed(x)) && l.path == x.path
  {
    StatusWords();
    hide NON_BLOCKING_ATTENTION, NON_BLOCKING_STATUSES, FUTURE_STATUSES;
  }

  /** What the checker requires of a context, in the engine's terms. */
  lemma RequiredInEnginesTerms(c: Context, repository: string, project: Mapping, items: seq<Val>, path: string)
    ensures path in Required(Working(LoadAll(c, repository, project, items))) <==>
      exists x :: x in Children(c, repository, project, items) && (!NonBlocking(x) || Disputed(x)) && x.path == path
  {
    hide NonBlocking, Disputed, Idle, Children, LoadAll, Required, Working, SameFile;
    var xs, ls := Children(c, repository, project, items), LoadAll(c, repository, project, items);
    BothRead(c, repository, project, items);
    RequiredMembers(ls, path);
    if l :| l in ls && !Idle(l) && l.path == path {
      var i :| 0 <= i < |ls| && ls[i] == l;
      CheckerTakesFor(xs[i], l);
      assert xs[i] in xs;
    }
    if x :| x in xs && (!NonBlocking(x) || Disputed(x)) && x.path == path {
      var i :| 0 <= i < |xs| && xs[i] == x;
      CheckerTakesFor(x, ls[i]);
      assert ls[i] in ls;
    }
  }

  predicate OwnFile(proposal: Proposal, xs: seq<Child>) {
    forall x :: x in xs ==> x.path != proposal.rootPath
  }

  /**
   With a root that is not one of its workstreams: applying the engine's proposal silences the checker exactly when
   every disputed workstream shares its file with an active one.
   */
  lemma SilentWithoutDisputes(c: Context, project: Mapping, items: seq<Val>)
    requires Propose(c, project, items).Some? && Renders(c)
    requires var proposal := Propose(c, project, items).value;
      OwnFile(proposal, Children(c, proposal.repository, project, items))
    ensures var proposal := Propose(c, project, items).value;
      var xs := Children(c, proposal.repository, project, items);
      RollupFindings(Applied(c, proposal), project, items) == Some([]) <==>
        forall x :: x in xs && Disputed(x) ==> x.path in ActivePaths(Active(xs))
  {
    hide Changes, Apply, Declarations, RootOf, Applied, Active, LoadAll, Working, RollupFindings, Disputed;
    hide NonBlocking, Required, ActivePaths, Rewrites, Children;
    var proposal := Propose(c, project, items).value;
    var c' := Applied(c, proposal);
    var repository, path, root, root', xs := AppliedRewrites(c, project, items);
    ChildrenUntouched(c, c', repository, path, root, root', project, items);
    SilentWhenBothAgree(c, project, items);
    var required := Required(Working(LoadAll(c', repository, project, items)));
    forall p ensures p in required <==> exists x :: x in xs && (!NonBlocking(x) || Disputed(x)) && x.path == p {
      RequiredInEnginesTerms(c', repository, project, items, p);
    }
    forall p ensures p in ActivePaths(Active(xs)) <==> exists x :: x in xs && !NonBlocking(x) && x.path == p {
      ActivePathMembers(xs, p);
    }
    assert forall x :: x in xs && Disputed(x) ==> x.path in required;
  }

  lemma ChildrenUntouched(c: Context, c': Context, repository: string, path: string, root: Mapping, root': Mapping,
                          project: Mapping, items: seq<Val>)
    requires Rewrites(c, c', repository, path, root, root')
    requires forall x :: x in Children(c, repository, project, items) ==> x.path != path
    ensures Children(c', repository, project, items) == Children(c, repository, project, items)
  {
    hide Children, Rewrites;
    ChildrenAlike(c, c', repository, path, root, root', project, items);
    var xs, xs' := Children(c, repository, project, items), Children(c', repository, project, items);
    forall i | 0 <= i < |xs| ensures xs[i] == xs'[i] {
      assert xs[i] in xs && Alike(c, root, root', path, xs[i], xs'[i]);
    }
  }

  predicate StatesItsOwn(x: Child) {
    STATUS in x.raw && x.status != "deferred_manual"
  }

  lemma NoDispute(x: Child)
    requires StatesItsOwn(x)
    ensures !Disputed(x)
  {
  }

  /** The one active child is not the root, when the root wakes. */
  lemma WakerIsElsewhere(c: Context, root: Mapping, root': Mapping, path: string, xs: seq<Child>, xs': seq<Child>)
    requires AllAlike(c, root, root', path, xs, xs') && Wakes(root, path, xs)
    ensures path !in ActivePaths(Active(xs))
  {
    hide AllAlike;
    TakenFromElsewhere(c, root, root', path, xs, xs');
  }

  /**
   Where every readable workstream states its own status and none is `deferred_manual`, the applied root draws no
   shape, source or freshness finding exactly when proposing again would change nothing.
   */
  lemma SilentAtTheFixpoint(c: Context, project: Mapping, items: seq<Val>)
    requires Propose(c, project, items).Some? && Renders(c)
    requires var proposal := Propose(c, project, items).value;
      forall x :: x in Children(Applied(c, proposal), proposal.repository, project, items) ==> StatesItsOwn(x)
    ensures var proposal := Propose(c, project, items).value;
      var c' := Applied(c, proposal);
      && Propose(c', project, items).Some?
      && (RollupFindings(c', project, items) == Some([]) <==> Propose(c', project, items).value.changes == [])
  {
    hide Changes, Apply, Declarations, RootOf, Applied, Active, LoadAll, Working, RollupFindings, Disputed;
    hide NonBlocking, Required, ActivePaths, Rewrites, Children, Wakes, AllAlike, Alike, StatesItsOwn;
    var proposal := Propose(c, project, items).value;
    var c' := Applied(c, proposal);
    var repository, path, root, root', xs := AppliedRewrites(c, project, items);
    var xs' := Children(c', repository, project, items);
    Fixpoint(c, project, items);
    SilentWhenBothAgree(c, project, items);
    ChildrenAlike(c, c', repository, path, root, root', project, items);
    var settled := ChangesSettle(c, root, Declarations(c, items), Active(xs), |Active(xs)| != |xs|);
    var required := Required(Working(LoadAll(c', repository, project, items)));
    forall p ensures p in required <==> exists x :: x in xs' && !NonBlocking(x) && x.path == p {
      RequiredInEnginesTerms(c', repository, project, items, p);
      forall x | x in xs' ensures !Disputed(x) { NoDispute(x); }
    }
    if Wakes(root, path, xs) {
      WakerIsRequired(c, root, root', path, xs, xs');
      WakerIsElsewhere(c, root, root', path, xs, xs');
      assert path in required;
    } else {
      forall p | p in required ensures p in ActivePaths(Active(xs)) {
        var x' :| x' in xs' && !NonBlocking(x') && x'.path == p;
        WasActive(c, root, root', path, xs, xs', x');
      }
    }
  }

  lemma WakerIsRequired(c: Context, root: Mapping, root': Mapping, path: string, xs: seq<Child>, xs': seq<Child>)
    requires AllAlike(c, root, root', path, xs, xs') && Wakes(root, path, xs)
    requires var active := Active(xs);
      Get(root', STATUS) == if TakesOver(root, active) then Some(active[0].raw[STATUS]) else Get(root, STATUS)
    ensures exists x' :: x' in xs' && !NonBlocking(x') && x'.path == path
  {
    hide AllAlike, NonBlocking;
    var x :| x in xs && x.path == path && NonBlocking(x) && x.attention !in NON_BLOCKING_ATTENTION;
    var k :| 0 <= k < |xs| && xs[k] == x;
    AlikeAt(c, root, root', path, xs, xs', k);
    StandingAfter(c, root, root', path, xs, xs', k);
    assert xs'[k] in xs';
  }

  lemma WasActive(c: Context, root: Mapping, root': Mapping, path: string, xs: seq<Child>, xs': seq<Child>, x': Child)
    requires AllAlike(c, root, root', path, xs, xs') && !Wakes(root, path, xs)
    requires var active := Active(xs);
      Get(root', STATUS) == if TakesOver(root, active) then Some(active[0].raw[STATUS]) else Get(root, STATUS)
    requires x' in xs' && !NonBlocking(x')
    ensures x'.path in ActivePaths(Active(xs))
  {
    hide NonBlocking, Wakes;
    var k :| 0 <= k < |xs'| && xs'[k] == x';
    AlikeAt(c, root, root', path, xs, xs', k);
    StandingAfter(c, root, root', path, xs, xs', k);
    ActivePathMembers(xs, xs[k].path);
    assert xs[k] in xs;
  }
}
