/**
 The worker process as code: recovery and one tick, driving the store stage by
 stage. `trace` records the actions taken, and the object invariant says that the
 process is always in the state the run of its trace leads to, so every theorem
 about runs holds of it.
 */
module RunnerProcess {
  import opened Options
  import opened WorkStore
  import opened WorkRunner
  import opened Exits

  /** What the world decides during one tick: other processes' actions, faults, and foreign outcomes. */
  datatype World = World(
    others: nat -> seq<Action>,
    whilePolling: nat -> seq<Action>,
    whileRunning: nat -> seq<Action>,
    fault: nat -> Fault,
    now: int,
    codingEnabled: bool,
    enoughSpace: bool,
    polls: nat,
    stopping: nat -> bool,
    late: nat -> bool,
    prepared: Prepared,
    writes: seq<TestResult>,
    verdict: Verdict)

  datatype Verdict = Answers(status: Status, code: string) | Throws(throw: Throw)

  function SubmittedAt(disk: Disk, id: TaskId): int {
    var task := FilesOf(disk, id).task;
    if task.Some? && |task.value.history| > 0 then task.value.history[0].at else 0
  }

  predicate Requests(actions: seq<Action>) {
    forall a :: a in actions ==> a.Submit? || a.Cancel?
  }

  ghost predicate OnlyRequests(world: World) {
    && (forall k: nat :: Requests(world.others(k)))
    && (forall k: nat :: Requests(world.whilePolling(k)) && Requests(world.whileRunning(k)))
  }

  /** The worker's own writes go through. */
  ghost predicate Unfailing(world: World) {
    forall k: nat :: world.fault(k).NoFault?
  }

  /** Beyond that, nobody stops the worker, no deadline passes, and the workspace can be prepared. */
  ghost predicate Calm(world: World) {
    && Unfailing(world)
    && (forall k: nat :: !world.stopping(k) && !world.late(k))
    && world.prepared.Cloned?
  }

  predicate Coding(disk: Disk, id: TaskId) {
    FilesOf(disk, id).task.Some? && FilesOf(disk, id).task.value.request.coding
  }

  /** The operator does not let this task run, or there is no room for it. */
  predicate Barred(world: World, coding: bool) {
    (coding && !world.codingEnabled) || !world.enoughSpace
  }

  /** It was blocked, and the record says why. */
  predicate BlockedFor(world: World, disk: Disk, id: TaskId, coding: bool) {
    && FilesOf(disk, id).task.Some? && FilesOf(disk, id).task.value.status.Blocked?
    && var history := FilesOf(disk, id).task.value.history;
       history != [] && history[|history| - 1].code ==
         if coding && !world.codingEnabled then "coding_not_enabled" else "insufficient_storage"
  }

  /**
   How a task may end that was executed. An answer stands, unless the worker is to stop; a success must come with a
   passed test, and gives way to a flag. What the executor raises carries its own status, and anything else is a failure.
   */
  function Outcomes(world: World): set<Status> {
    match world.verdict
    case Answers(status, _) =>
      if status.Failed? || status.Cancelled? || status.Interrupted? then
        if world.stopping(2) then {Interrupted} else {status}
      else if status.Succeeded? then
        if world.stopping(2) then {Interrupted, Failed} else {Succeeded, Cancelled, Failed}
      else {Failed}
    case Throws(Abort(status, _)) => if AbortStatus(status) then {status} else {Failed}
    case Throws(_) => {Failed}
  }

  /** The executor is done with the task, which is on its way to one of those ends. */
  predicate Concluding(world: World, stage: Stage, id: TaskId) {
    match stage
    case Finishing(x, status, code) => x == id && world.verdict == Answers(status, code)
    case Aborting(x, status, _) => x == id && status in Outcomes(world)
    case StorageFailing(x) => x == id && Failed in Outcomes(world)
    case _ => false
  }

  predicate Concluded(world: World, disk: Disk, id: TaskId) {
    StatusOf(disk, id).Some? && StatusOf(disk, id).value in Outcomes(world)
  }

  predicate Underway(disk: Disk, id: TaskId) {
    StatusOf(disk, id).Some? && Live(StatusOf(disk, id).value)
  }

  predicate Queued(disk: Disk, id: TaskId) {
    StatusOf(disk, id) == Some(Submitted)
  }

  ghost predicate Oldest(disk: Disk, id: TaskId) {
    && Queued(disk, id)
    && forall other :: Queued(disk, other) ==> SubmittedAt(disk, id) <= SubmittedAt(disk, other)
  }

  /** What recovery makes of the files of a task that was reserved or running. */
  function Interrupting(files: Files, now: int): Files
    requires files.task.Some?
  {
    var next := Moved(files.task.value, Interrupted, "interrupted_no_retry", NoExtra, now);
    files.(test := Some(NotCompleted("interrupted_no_retry")), result := Some(next), task := Some(next))
  }

  function Recovered(disk: Disk, unfinished: set<TaskId>, id: TaskId, now: int): Files
    requires unfinished <= Unfinished(disk)
  {
    if id in unfinished then Interrupting(FilesOf(disk, id), now) else FilesOf(disk, id)
  }

  lemma InterruptingIsTwoSteps(s: State, id: TaskId, now: int)
    requires s.stage.Recovering? && id in s.stage.todo && id in Unfinished(s.disk)
    ensures Next(Next(s, RecoverEvidence(id)), RecoverClose(now, NoFault))
         == s.(disk := s.disk[id := Interrupting(FilesOf(s.disk, id), now)], stage := Recovering(s.stage.todo - {id}))
  {
    var test := NotCompleted("interrupted_no_retry");
    var s1 := Next(s, RecoverEvidence(id));
    assert s1 == s.(disk := WithTest(s.disk, id, test), stage := RecoveryClosing(id, s.stage.todo));
    var files := FilesOf(s1.disk, id);
    var plan := TransitionPlan(files, Interrupted, "interrupted_no_retry", NoExtra, now);
    assert plan.Write? && |plan.versions| == 2;
    assert Commit(s1.disk, id, plan, NoFault) == s.disk[id := plan.versions[1]];
    assert plan.versions[1] == Interrupting(FilesOf(s.disk, id), now);
  }

  // ----- what recovery's steps and other processes' requests do

  predicate Ended(disk: Disk, id: TaskId) {
    StatusOf(disk, id).Some? && Terminal(StatusOf(disk, id).value)
  }

  /** What recovery leaves of a task that was under way. */
  predicate Closed(files: Files) {
    && files.task.Some? && files.task.value.status.Interrupted? && files.result == files.task
    && LastCode(files.task.value, "interrupted_no_retry")
    && files.test == Some(NotCompleted("interrupted_no_retry"))
  }

  predicate LastCode(r: Record, code: string) {
    r.history != [] && r.history[|r.history| - 1].code == code && r.history[|r.history| - 1].status == r.status
  }

  predicate SameTest(disk: Disk, disk': Disk, id: TaskId) {
    FilesOf(disk', id).task.Some? && FilesOf(disk', id).test == FilesOf(disk, id).test
  }

  lemma ValidMeansInv(trace: seq<Action>)
    ensures Inv(Run(INITIAL, trace))
  {
    hide Run, Inv;
    InitialInv();
    RunKeepsInv(INITIAL, trace);
  }

  lemma LiveInRecovery(s: State, id: TaskId)
    requires Inv(s) && ((s.stage.Recovering? && id in s.stage.todo) || (s.stage.RecoveryClosing? && id == s.stage.id))
    ensures StatusOf(s.disk, id).Some? && Live(StatusOf(s.disk, id).value)
  {
    PlaceOf(s, id);
    assert StageInv(s.stage, s.disk);
  }

  /** Neither requests nor recovery touch a task that has ended. */
  lemma EndedStays(s: State, a: Action)
    requires Inv(s) && (a.Submit? || a.Cancel? || a.RecoverEvidence? || a.RecoverClose?)
    ensures forall x :: Ended(s.disk, x) ==> FilesOf(Next(s, a).disk, x) == FilesOf(s.disk, x)
  {
    forall x | Ended(s.disk, x) ensures FilesOf(Next(s, a).disk, x) == FilesOf(s.disk, x) {
      hide Inv;
      match a {
        case Submit(request, base, clock, fault) =>
          CommitIsLocal(s.disk, request.taskId, SubmitPlan(s.disk, request, base, clock), fault);
        case Cancel(id, now, fault) => CommitIsLocal(s.disk, id, CancelPlan(FilesOf(s.disk, id), now), fault);
        case RecoverEvidence(id) => if s.stage.Recovering? && id in s.stage.todo { LiveInRecovery(s, id); }
        case RecoverClose(now, fault) =>
          if s.stage.RecoveryClosing? {
            LiveInRecovery(s, s.stage.id);
            CommitIsLocal(s.disk, s.stage.id, AskPlan(FilesOf(s.disk, s.stage.id), Asked(s, a).value), fault);
          }
      }
    }
  }

  lemma RequestsMoveLittle(s: State, a: Action)
    requires a.Submit? || a.Cancel?
    ensures Next(s, a).stage == s.stage && Next(s, a).runs == s.runs
    ensures forall x :: FilesOf(s.disk, x).task.Some? ==> SameTest(s.disk, Next(s, a).disk, x)
  {
    forall x | FilesOf(s.disk, x).task.Some? ensures SameTest(s.disk, Next(s, a).disk, x) {
      match a {
        case Submit(request, base, clock, fault) =>
          CommitIsLocal(s.disk, request.taskId, SubmitPlan(s.disk, request, base, clock), fault);
        case Cancel(id, now, fault) => CommitIsLocal(s.disk, id, CancelPlan(FilesOf(s.disk, id), now), fault);
      }
    }
  }

  /** Requests move a queued task at most to `cancelled`, and no other. */
  predicate KeptOrCancelled(disk: Disk, disk': Disk, id: TaskId) {
    StatusOf(disk, id).Some? ==>
      && (StatusOf(disk', id) == StatusOf(disk, id) || (Queued(disk, id) && StatusOf(disk', id) == Some(Cancelled)))
      && Coding(disk', id) == Coding(disk, id)
  }

  lemma OnlyQueuedAreCancelled(files: Files, now: int, fault: Fault)
    requires files.task.Some? && !files.task.value.status.Submitted?
    ensures var task := After(files, CancelPlan(files, now), fault).task;
      task.Some? && task.value.status == files.task.value.status
  {
  }

  lemma RequestsCancelAtMost(s: State, a: Action)
    requires Inv(s) && (a.Submit? || a.Cancel?)
    ensures forall x :: KeptOrCancelled(s.disk, Next(s, a).disk, x)
  {
    forall x ensures KeptOrCancelled(s.disk, Next(s, a).disk, x) {
      TaskOf(s, x);
      hide Inv, PlaceInv;
      match a {
        case Submit(request, base, clock, fault) =>
          hide SubmitPlan;
          CommitIsLocal(s.disk, request.taskId, SubmitPlan(s.disk, request, base, clock), fault);
          if x == request.taskId { SubmitEffect(s.disk, request, base, clock, fault); }
        case Cancel(id, now, fault) =>
          hide CancelPlan;
          CommitIsLocal(s.disk, id, CancelPlan(FilesOf(s.disk, id), now), fault);
          if x == id {
            CancelEffect(id, FilesOf(s.disk, id), now, fault);
            if FilesOf(s.disk, id).task.Some? && !Queued(s.disk, id) { OnlyQueuedAreCancelled(FilesOf(s.disk, id), now, fault); }
          }
      }
    }
  }

  lemma EvidenceStep(s: State, id: TaskId)
    requires Inv(s) && s.stage.Recovering? && id in s.stage.todo
    ensures var s' := Next(s, RecoverEvidence(id));
      && s'.stage == RecoveryClosing(id, s.stage.todo) && s'.runs == s.runs
      && FilesOf(s'.disk, id).task.Some? && FilesOf(s'.disk, id).test == Some(NotCompleted("interrupted_no_retry"))
  {
    LiveInRecovery(s, id);
  }

  lemma CloseStep(s: State, now: int, fault: Fault)
    requires Inv(s) && s.stage.RecoveryClosing?
    ensures var s' := Next(s, RecoverClose(now, fault));
      var files, files' := FilesOf(s.disk, s.stage.id), FilesOf(s'.disk, s.stage.id);
      && s'.runs == s.runs && (fault.NoFault? ==> s'.stage.Recovering?)
      && (s'.stage == Recovering(s.stage.todo - {s.stage.id}) || s'.stage.Down?)
      && (s'.stage.Recovering? ==>
            && files'.test == files.test && files'.result == files'.task
            && files'.task.Some? && files'.task.value.status.Interrupted? && LastCode(files'.task.value, "interrupted_no_retry"))
  {
    LiveInRecovery(s, s.stage.id);
    hide Inv;
    CommitIsLocal(s.disk, s.stage.id, AskPlan(FilesOf(s.disk, s.stage.id), Asked(s, RecoverClose(now, fault)).value), fault);
  }

  /** Where the evidence steps lead, and that they run nothing. */
  lemma EvidenceLeaves(s: State, fault: Fault)
    requires Inv(s)
    ensures var s' := Next(s, AbortEvidence(fault));
      s.stage.Aborting? ==> s'.runs == s.runs && (s'.stage.AbortClosing? || s'.stage.StorageClosing? || s'.stage.Idle? || s'.stage.Down?)
    ensures var s' := Next(s, StorageEvidence(fault));
      s.stage.StorageFailing? ==> s'.runs == s.runs && (s'.stage.StorageClosing? || s'.stage.Idle? || s'.stage.Down?)
    ensures fault.NoFault? && s.stage.Aborting? ==>
      Next(s, AbortEvidence(fault)).stage == AbortClosing(s.stage.id, s.stage.status, s.stage.code)
    ensures fault.NoFault? && s.stage.StorageFailing? ==> !Next(s, StorageEvidence(fault)).stage.Down?
    ensures fault.NoFault? && s.stage.StorageFailing? && Underway(s.disk, s.stage.id) ==>
      Next(s, StorageEvidence(fault)).stage == StorageClosing(s.stage.id)
    ensures forall x :: FilesOf(Next(s, AbortEvidence(fault)).disk, x).task == FilesOf(s.disk, x).task
    ensures forall x :: FilesOf(Next(s, StorageEvidence(fault)).disk, x).task == FilesOf(s.disk, x).task
  {
    if s.stage.StorageFailing? { PlaceOf(s, s.stage.id); }
  }

  class Runner {
    const store: Store
    var stage: Stage
    ghost var runs: multiset<TaskId>
    ghost var trace: seq<Action>

    ghost function Abstract(): State
      reads this, store
    {
      State(store.disk, stage, runs)
    }

    ghost predicate Valid()
      reads this, store
    {
      Abstract() == Run(INITIAL, trace)
    }

    constructor ()
      ensures Valid() && fresh(store) && trace == [] && stage.Down?
    {
      store := new Store();
      stage, runs, trace := Down, multiset{}, [];
    }

    /** One action, performed on the store. */
    method Perform(a: Action)
      requires Valid()
      modifies this, store
      ensures Valid() && trace == old(trace) + [a]
      ensures Abstract() == Next(old(Abstract()), a)
    {
      RunKeepsInv(INITIAL, trace);
      RunThen(INITIAL, trace, a);
      trace := trace + [a];
      if Asked(State(store.disk, stage, multiset{}), a).Some? {
        PerformTransition(a);
      } else if a.Submit? || a.Cancel? {
        PerformRequest(a);
      } else {
        PerformStage(a);
      }
    }

    method PerformTransition(a: Action)
      requires Inv(Abstract()) && Asked(Abstract(), a).Some?
      modifies this`stage, store
      ensures Abstract() == Next(old(Abstract()), a)
    {
      assert TaskInv(Abstract(), stage.id);
      var ask := Asked(State(store.disk, stage, multiset{}), a).value;
      var answer := store.Transition(stage.id, ask.status, ask.code, ask.extra, ask.now, ask.fault);
      stage := AfterAsk(stage.id, ask, answer);
    }

    method PerformRequest(a: Action)
      requires Inv(Abstract())
      requires a.Submit? || a.Cancel?
      modifies this`stage, store
      ensures Abstract() == Next(old(Abstract()), a)
    {
      if a.Submit? {
        var _ := store.Submit(a.request, a.fixtureBase, a.clock, a.fault);
      } else {
        assert TaskInv(Abstract(), a.id);
        var _ := store.Cancel(a.id, a.now, a.fault);
      }
    }

    method PerformStage(a: Action)
      requires !a.Submit? && !a.Cancel? && Asked(Abstract(), a).None?
      modifies this`stage, this`runs, store
      ensures Abstract() == Next(old(Abstract()), a)
    {
      match a {
        case Crash => stage := Down;
        case Boot =>
          if stage.Down? { stage := Recovering(Unfinished(store.disk)); }
        case RecoverEvidence(id) =>
          if stage.Recovering? && id in stage.todo {
            store.disk := WithTest(store.disk, id, NotCompleted("interrupted_no_retry"));
            stage := RecoveryClosing(id, stage.todo);
          }
        case RecoveryDone =>
          if stage == Recovering({}) { stage := Idle; }
        case Pick(id) =>
          if stage.Idle? && StatusOf(store.disk, id) == Some(Submitted) { stage := Picked(id); }
        case Prepare(prepared) =>
          if stage.Preparing? {
            match prepared {
              case Cloned => stage := Ready(stage.id);
              case GitFailed => stage := Aborting(stage.id, Failed, "workspace_preparation_failed");
              case Unsupported => stage := Aborting(stage.id, Blocked, "unsupported_repository_content");
              case OsFailed => stage := StorageFailing(stage.id);
              case OtherFailed => stage := Aborting(stage.id, Failed, "runner_error");
            }
          }
        case Guard(stopping, late) =>
          if stage.Preparing? || stage.Ready? {
            var abort := GuardAbort(FilesOf(store.disk, stage.id), stopping, late);
            if abort.Some? {
              stage := Aborting(stage.id, abort.value.0, abort.value.1);
            } else if stage.Ready? {
              stage := Guarded(stage.id);
            }
          }
        case Invoke =>
          if stage.Launching? {
            runs := runs + multiset{stage.id};
            stage := Executing(stage.id);
          }
        case ExecutorWrites(test) =>
          if stage.Executing? { store.disk := WithTest(store.disk, stage.id, test); }
        case ExecutorReturns(status, code) =>
          if stage.Executing? && ExecutorContract(FilesOf(store.disk, stage.id), status) {
            stage := Finishing(stage.id, status, code);
          }
        case ExecutorThrows(throw) =>
          if stage.Executing? && (throw.Abort? ==> AbortStatus(throw.status)) {
            match throw {
              case Abort(status, code) => stage := Aborting(stage.id, status, code);
              case OsError => stage := StorageFailing(stage.id);
              case OtherError => stage := Aborting(stage.id, Failed, "runner_error");
            }
          }
        case AbortEvidence(fault) =>
          if stage.Aborting? {
            if fault == StopAfter(0) {
              stage := Down;
            } else {
              store.disk := WithTest(store.disk, stage.id, NotCompleted(stage.code));
              stage := if fault == StopAfter(1) then Down else AbortClosing(stage.id, stage.status, stage.code);
            }
          }
        case StorageEvidence(fault) =>
          if stage.StorageFailing? && FilesOf(store.disk, stage.id).task.Some? {
            if fault == StopAfter(0) {
              stage := Down;
            } else if Terminal(FilesOf(store.disk, stage.id).task.value.status) {
              stage := Idle;
            } else {
              store.disk := WithTest(store.disk, stage.id, NotCompleted("storage_error"));
              stage := if fault == StopAfter(1) then Down else StorageClosing(stage.id);
            }
          }
        case _ =>
      }
    }

    /** The queued task that was submitted first, if there is one. */
    method Scan() returns (pick: Option<TaskId>)
      requires Valid()
      ensures pick.None? <==> forall id :: !Queued(store.disk, id)
      ensures pick.Some? ==> Oldest(store.disk, pick.value)
    {
      RunKeepsInv(INITIAL, trace);
      assert forall id :: TaskInv(Abstract(), id);
      pick := None;
      var rest := Admitted(store.disk);
      while rest != {}
        invariant rest <= Admitted(store.disk)
        invariant pick.Some? ==> Queued(store.disk, pick.value)
        invariant forall id :: id in Admitted(store.disk) - rest && Queued(store.disk, id) ==>
          pick.Some? && SubmittedAt(store.disk, pick.value) <= SubmittedAt(store.disk, id)
        decreases rest
      {
        var id :| id in rest;
        rest := rest - {id};
        if Queued(store.disk, id)
           && (pick.None? || SubmittedAt(store.disk, id) < SubmittedAt(store.disk, pick.value)) {
          pick := Some(id);
        }
      }
    }

    /** Submits and cancels by the receiver or the CLI while the worker is between two of its steps. */
    method Others(actions: seq<Action>)
      requires Valid() && Requests(actions)
      modifies this, store
      ensures Valid() && old(trace) <= trace
      ensures stage == old(stage) && runs == old(runs)
      ensures forall x :: Ended(old(store.disk), x) ==> FilesOf(store.disk, x) == FilesOf(old(store.disk), x)
      ensures forall x :: FilesOf(old(store.disk), x).task.Some? ==> SameTest(old(store.disk), store.disk, x)
      ensures forall x :: KeptOrCancelled(old(store.disk), store.disk, x)
      ensures forall x :: Underway(old(store.disk), x) ==> Underway(store.disk, x)
      ensures SmoothFrom(trace, |old(trace)|)
      ensures actions == [] ==> Abstract() == old(Abstract())
    {
      hide Run, Next;
      var k := 0;
      while k < |actions|
        invariant 0 <= k <= |actions|
        invariant Valid() && old(trace) <= trace && stage == old(stage) && runs == old(runs)
        invariant forall x :: Ended(old(store.disk), x) ==> FilesOf(store.disk, x) == FilesOf(old(store.disk), x)
        invariant forall x :: FilesOf(old(store.disk), x).task.Some? ==> SameTest(old(store.disk), store.disk, x)
        invariant forall x :: KeptOrCancelled(old(store.disk), store.disk, x)
        invariant SmoothFrom(trace, |old(trace)|)
        invariant k == 0 ==> Abstract() == old(Abstract())
      {
        ValidMeansInv(trace);
        RequestsMoveLittle(Abstract(), actions[k]);
        EndedStays(Abstract(), actions[k]);
        RequestsCancelAtMost(Abstract(), actions[k]);
        ghost var before := store.disk;
        Perform(actions[k]);
        forall x ensures KeptOrCancelled(old(store.disk), store.disk, x) {
          assert KeptOrCancelled(old(store.disk), before, x) && KeptOrCancelled(before, store.disk, x);
        }
        k := k + 1;
      }
      forall x | Underway(old(store.disk), x) ensures Underway(store.disk, x) {
        assert KeptOrCancelled(old(store.disk), store.disk, x);
      }
    }

    /** One task: its evidence, what others do meanwhile, and its record, whose write may fail. */
    method RecoverOne(id: TaskId, now: int, meanwhile: seq<Action>, fault: Fault)
      requires Valid() && stage.Recovering? && id in stage.todo
      requires Requests(meanwhile)
      modifies this, store
      ensures Valid() && old(trace) <= trace && runs == old(runs)
      ensures stage == Recovering(old(stage).todo - {id}) || stage.Down?
      ensures stage.Recovering? ==> Closed(FilesOf(store.disk, id))
      ensures forall x :: x != id && Ended(old(store.disk), x) ==> FilesOf(store.disk, x) == FilesOf(old(store.disk), x)
      ensures meanwhile == [] && fault.NoFault? && FilesOf(old(store.disk), id).task.Some? ==>
        && stage.Recovering?
        && store.disk == old(store.disk)[id := Interrupting(FilesOf(old(store.disk), id), now)]
    {
      hide Run, Next, Interrupting;
      ghost var before := Abstract();
      ValidMeansInv(trace);
      EvidenceStep(before, id);
      LiveInRecovery(before, id);
      assert id in Unfinished(before.disk);
      EndedStays(before, RecoverEvidence(id));
      Perform(RecoverEvidence(id));
      ghost var between := Abstract();
      Others(meanwhile);
      ghost var late := Abstract();
      ValidMeansInv(trace);
      EndedStays(late, RecoverClose(now, fault));
      CloseStep(late, now, fault);
      Perform(RecoverClose(now, fault));
      if meanwhile == [] && fault.NoFault? && FilesOf(before.disk, id).task.Some? {
        assert late == between;
        InterruptingIsTwoSteps(before, id, now);
      }
    }

    /**
     Start-up recovery. Others may submit and cancel while it runs, and its writes may fail: then the worker dies and
     recovery starts over. Otherwise what was under way is interrupted, with its evidence; and if nobody else moves,
     nothing else does.
     */
    method Recovery(now: int, meanwhile: nat -> seq<Action>, fault: nat -> Fault)
      requires Valid() && stage.Down?
      requires forall k: nat :: Requests(meanwhile(k))
      modifies this, store
      ensures Valid() && old(trace) <= trace && runs == old(runs)
      ensures stage.Idle? || stage.Down?
      ensures stage.Idle? ==> Unfinished(store.disk) == {}
      ensures stage.Idle? ==> forall id :: id in old(Unfinished(store.disk)) ==> Closed(FilesOf(store.disk, id))
      ensures (forall k: nat :: meanwhile(k) == [] && fault(k).NoFault?) ==>
        && stage.Idle?
        && forall id :: FilesOf(store.disk, id) == Recovered(old(store.disk), old(Unfinished(store.disk)), id, now)
    {
      hide Run, Next, Interrupting;
      ghost var disk := store.disk;
      ghost var unfinished := Unfinished(disk);
      ghost var alone := forall k: nat :: meanwhile(k) == [] && fault(k).NoFault?;
      Start();
      var todo := stage.todo;
      var k: nat := 0;
      while todo != {} && stage.Recovering?
        invariant Valid() && old(trace) <= trace && runs == old(runs)
        invariant todo <= unfinished && (stage == Recovering(todo) || stage.Down?)
        invariant stage.Recovering? ==> forall id :: id in unfinished - todo ==> Closed(FilesOf(store.disk, id))
        invariant alone ==> stage.Recovering?
        invariant alone ==> forall id :: FilesOf(store.disk, id) == Recovered(disk, unfinished - todo, id, now)
        decreases todo
      {
        var id :| id in todo;
        ghost var before, open := store.disk, todo;
        RecoverOne(id, now, meanwhile(k), fault(k));
        todo, k := todo - {id}, k + 1;
        forall x | x in unfinished - todo && stage.Recovering? ensures Closed(FilesOf(store.disk, x)) {
          if x != id { assert x in unfinished - open; }
        }
        if alone {
          assert FilesOf(before, id) == FilesOf(disk, id);
          forall x ensures FilesOf(store.disk, x) == Recovered(disk, unfinished - todo, x, now) {
            assert FilesOf(before, x) == Recovered(disk, unfinished - open, x, now);
            assert unfinished - todo == unfinished - open + {id};
          }
        }
      }
      if stage.Recovering? {
        FinishRecovery();
        IdleMeansSettled(trace);
      }
    }

    method Start()
      requires Valid() && stage.Down?
      modifies this, store
      ensures Valid() && old(trace) <= trace && runs == old(runs)
      ensures store.disk == old(store.disk) && stage == Recovering(Unfinished(store.disk))
    {
      Perform(Boot);
    }

    method FinishRecovery()
      requires Valid() && stage == Recovering({})
      modifies this, store
      ensures Valid() && old(trace) <= trace && runs == old(runs)
      ensures store.disk == old(store.disk) && stage.Idle?
    {
      Perform(RecoveryDone);
    }

    /** A transition of the task in hand: onward, or to where its exception leads. */
    method Transit(a: Action)
      requires Valid() && Asked(Abstract(), a).Some?
      modifies this, store
      ensures Valid() && old(trace) <= trace && runs == old(runs)
      ensures trace == old(trace) + [a] && Abstract() == Next(old(Abstract()), a)
      ensures var ask := old(Asked(Abstract(), a).value);
        if ask.handled then
          stage == ask.onward || stage.Idle? || ((stage.StorageFailing? || stage.Aborting?) && stage.id == old(stage.id))
        else
          stage == ask.onward || stage.Down?
    {
      Perform(a);
    }

    method CheckGuard(stopping: bool, late: bool)
      requires Valid() && (stage.Preparing? || stage.Ready?)
      modifies this, store
      ensures Valid() && trace == old(trace) + [Guard(stopping, late)] && runs == old(runs) && store.disk == old(store.disk)
      ensures var (id, flagged) := (old(stage.id), Flagged(old(Abstract()), old(stage.id)));
        && (stopping ==> stage == Aborting(id, Interrupted, "service_stopping"))
        && (!stopping && flagged ==> stage == Aborting(id, Cancelled, "cancellation_requested"))
        && (!stopping && !flagged && late ==> stage == Aborting(id, Failed, "deadline_exceeded"))
        && (!stopping && !flagged && !late ==> stage == if old(stage.Ready?) then Guarded(id) else old(stage))
    {
      Perform(Guard(stopping, late));
    }

    /** The evidence an exception handler leaves before it closes the task. */
    method LeaveEvidence(fault: Fault)
      requires Valid() && (stage.Aborting? || stage.StorageFailing?)
      modifies this, store
      ensures Valid() && old(trace) <= trace && runs == old(runs)
      ensures fault.NoFault? ==> SmoothFrom(trace, |old(trace)|)
      ensures stage.AbortClosing? || stage.StorageClosing? || stage.Idle? || stage.Down?
      ensures fault.NoFault? ==> !stage.Down?
      ensures fault.NoFault? && old(stage.Aborting?) ==>
        stage == AbortClosing(old(stage.id), old(stage).status, old(stage).code)
      ensures fault.NoFault? && old(stage.StorageFailing?) && Underway(old(store.disk), old(stage.id)) ==>
        stage == StorageClosing(old(stage.id))
      ensures forall x :: FilesOf(store.disk, x).task == FilesOf(old(store.disk), x).task
    {
      hide Run, Next, Inv;
      InitialInv();
      RunKeepsInv(INITIAL, trace);
      EvidenceLeaves(Abstract(), fault);
      if stage.Aborting? {
        Perform(AbortEvidence(fault));
      } else {
        Perform(StorageEvidence(fault));
      }
    }

    method PrepareWorkspace(prepared: Prepared)
      requires Valid() && stage.Preparing?
      modifies this, store
      ensures Valid() && old(trace) <= trace && runs == old(runs)
      ensures trace == old(trace) + [Prepare(prepared)]
      ensures stage.Ready? || stage.Aborting? || stage.StorageFailing?
      ensures stage.id == old(stage.id) && (prepared.Cloned? ==> stage.Ready?)
    {
      Perform(Prepare(prepared));
    }

    method Invocation()
      requires Valid() && stage.Launching?
      modifies this, store
      ensures Valid() && trace == old(trace) + [Invoke]
      ensures runs == old(runs) + multiset{old(stage.id)} && stage == Executing(old(stage.id))
    {
      Perform(Invoke);
    }

    method Choose() returns (pick: Option<TaskId>)
      requires Valid() && stage.Idle?
      modifies this, store
      ensures Valid() && old(trace) <= trace && runs == old(runs)
      ensures SmoothFrom(trace, |old(trace)|)
      ensures pick.Some? <==> exists id :: Queued(old(store.disk), id)
      ensures pick.None? ==> Abstract() == old(Abstract())
      ensures pick.Some? ==> stage == Picked(pick.value) && Oldest(old(store.disk), pick.value) && store.disk == old(store.disk)
    {
      pick := Scan();
      if pick.Some? {
        Perform(Pick(pick.value));
      }
    }

    /** The task in hand was cancelled, or is about to be closed as such. */
    ghost predicate OnlyCancelled(id: TaskId)
      reads this, store
    {
      (stage.Idle? && EndedAs(store.disk, id, Cancelled)) || (stage.Aborting? && Leaving(stage, id, Cancelled))
    }

    /** The executed task has come to one of its ends, or a handler will bring it there. */
    ghost predicate Outgoing(world: World, id: TaskId)
      reads this, store
    {
      || (stage.Idle? && Concluded(world, store.disk, id))
      || (Concluding(world, stage, id) && !stage.Finishing? && Underway(store.disk, id))
    }

    /**
     One tick: scan, then attempt. It works on the oldest queued task, runs at most that one task's executor and at most
     once, and ends between ticks or dead. If its writes go through, what any of its guards saw decides how the task ends,
     and a task that is barred ends blocked; in a calm world any other is executed. Cancelled tasks are the exceptions.
     */
    method Tick(world: World) returns (worked: bool)
      requires Valid() && stage.Idle?
      requires OnlyRequests(world)
      modifies this, store
      ensures Valid() && old(trace) <= trace
      ensures worked <==> exists id :: Queued(old(store.disk), id)
      ensures !worked ==> Abstract() == old(Abstract())
      ensures stage.Idle? || stage.Down?
      ensures runs == old(runs)
           || exists id :: runs == old(runs) + multiset{id} && Oldest(old(store.disk), id)
      ensures Unfailing(world) ==> stage.Idle?
      ensures forall k :: Unfailing(world) && |old(trace)| <= k < |trace| ==>
        Decided(Run(INITIAL, trace[..k]), trace[k], store.disk)
      ensures Unfailing(world) && worked ==> exists id ::
        && Oldest(old(store.disk), id)
        && (EndedAs(store.disk, id, Cancelled) ||
            if Barred(world, Coding(old(store.disk), id)) then
              runs == old(runs) && BlockedFor(world, store.disk, id, Coding(old(store.disk), id))
            else Calm(world) ==> runs == old(runs) + multiset{id})
        && (runs != old(runs) ==> Concluded(world, store.disk, id))
    {
      hide Run, Next, Decided;
      var pick := Choose();
      worked := pick.Some?;
      if worked {
        Attempt(world);
        Handlers(world);
      }
      forall k | Unfailing(world) && |old(trace)| <= k < |trace|
        ensures Decided(Run(INITIAL, trace[..k]), trace[k], store.disk)
      {
        GuardsDecide(trace, |old(trace)|, k);
      }
    }

    /** The tick's try block. */
    method Attempt(world: World)
      requires Valid() && stage.Picked? && Queued(store.disk, stage.id)
      requires OnlyRequests(world)
      modifies this, store
      ensures Valid() && old(trace) <= trace
      ensures SmoothFrom(trace, |old(trace)|)
      ensures stage.Aborting? || stage.StorageFailing? || stage.Idle?
      ensures runs == old(runs) || runs == old(runs) + multiset{old(stage.id)}
      ensures var (id, coding) := (old(stage.id), Coding(old(store.disk), old(stage.id)));
        Unfailing(world) && !OnlyCancelled(id) ==>
          if Barred(world, coding) then runs == old(runs) && stage.Idle? && BlockedFor(world, store.disk, id, coding)
          else Calm(world) ==> runs == old(runs) + multiset{id}
      ensures Unfailing(world) && runs != old(runs) ==> Outgoing(world, old(stage.id))
    {
      hide Run, Next;
      ReserveTask(world);
      if stage.Preparing? {
        PrepareTask(world);
      }
      if stage.Launching? {
        ExecuteTask(world);
      }
      EndTask(world);
    }

    /** After the executor, if it answered: its word, unless the worker is to stop. */
    method EndTask(world: World)
      requires Valid() && OnlyRequests(world)
      requires stage.Finishing? || stage.Aborting? || stage.StorageFailing? || stage.Idle?
      modifies this, store
      ensures Valid() && old(trace) <= trace && runs == old(runs)
      ensures SmoothFrom(trace, |old(trace)|)
      ensures stage.Aborting? || stage.StorageFailing? || stage.Idle?
      ensures !old(stage.Finishing?) ==> stage == old(stage)
      ensures forall id :: old(stage.Idle?) && Ended(old(store.disk), id) ==>
        FilesOf(store.disk, id) == FilesOf(old(store.disk), id)
      ensures forall id :: Unfailing(world) && old(Concluding(world, stage, id) && Underway(store.disk, id)) ==> Outgoing(world, id)
    {
      hide Run, Next, Inv;
      ghost var now := stage;
      Others(world.others(3));
      if stage.Finishing? {
        ValidMeansInv(trace);
        MayFinish(Abstract());
        FinishLeads(Abstract(), world.stopping(2), world.now);
        Transit(Finish(world.stopping(2), world.now, world.fault(3)));
      }
    }

    method ReserveTask(world: World)
      requires Valid() && stage.Picked? && Queued(store.disk, stage.id)
      requires OnlyRequests(world)
      modifies this, store
      ensures Valid() && old(trace) <= trace && runs == old(runs)
      ensures SmoothFrom(trace, |old(trace)|)
      ensures stage.Idle? || ((stage.Preparing? || stage.StorageFailing? || stage.Aborting?) && stage.id == old(stage.id))
      ensures Unfailing(world) && !OnlyCancelled(old(stage.id)) ==>
        stage == Preparing(old(stage.id)) && Coding(store.disk, stage.id) == Coding(old(store.disk), stage.id)
    {
      hide Run, Next;
      ghost var id := stage.id;
      Others(world.others(0));
      assert KeptOrCancelled(old(store.disk), store.disk, id);
      assert Asked(Abstract(), Reserve(world.now, world.fault(0))).Some? by {
        RunKeepsInv(INITIAL, trace);
        assert TaskInv(Abstract(), id);
      }
      ValidMeansInv(trace);
      ReserveLeads(Abstract(), world.now);
      Transit(Reserve(world.now, world.fault(0)));
    }

    method PrepareTask(world: World)
      requires Valid() && stage.Preparing?
      requires OnlyRequests(world)
      modifies this, store
      ensures Valid() && old(trace) <= trace && runs == old(runs)
      ensures SmoothFrom(trace, |old(trace)|)
      ensures stage.Launching? || stage.Aborting? || stage.StorageFailing? || stage.Idle?
      ensures !stage.Idle? ==> stage.id == old(stage).id
      ensures var coding := Coding(old(store.disk), old(stage.id));
        Unfailing(world) ==>
          if Barred(world, coding) then stage.Idle? && BlockedFor(world, store.disk, old(stage).id, coding)
          else Calm(world) ==> stage == Launching(old(stage).id) || OnlyCancelled(old(stage).id)
    {
      hide Run, Next;
      var task := FilesOf(store.disk, stage.id).task;
      if task.Some? && task.value.request.coding && !world.codingEnabled {
        BlockTask("coding_not_enabled", world.now, world.fault(1));
      } else if !world.enoughSpace {
        BlockTask("insufficient_storage", world.now, world.fault(1));
      } else {
        PollGuard(world);
        if stage.Preparing? {
          PrepareWorkspace(world.prepared);
        }
        StartTask(world);
      }
    }

    method BlockTask(code: string, now: int, fault: Fault)
      requires Valid() && stage.Preparing?
      modifies this, store
      ensures Valid() && old(trace) <= trace && runs == old(runs)
      ensures SmoothFrom(trace, |old(trace)|)
      ensures stage.Aborting? || stage.StorageFailing? || stage.Idle?
      ensures !stage.Idle? ==> stage.id == old(stage).id
      ensures fault.NoFault? ==>
        var task, task' := FilesOf(old(store.disk), old(stage).id).task, FilesOf(store.disk, old(stage).id).task;
        stage.Idle? && task.Some? && task'.Some? && Enters(task.value, task'.value, Blocked, code, now)
    {
      hide Run, Next, Inv;
      ValidMeansInv(trace);
      BlockLeads(Abstract(), code, now);
      Transit(Block(code, now, fault));
    }

    /** The guard, called again and again while git runs. */
    method PollGuard(world: World)
      requires Valid() && stage.Preparing? && OnlyRequests(world)
      modifies this, store
      ensures Valid() && old(trace) <= trace && runs == old(runs)
      ensures SmoothFrom(trace, |old(trace)|)
      ensures stage == old(stage) || (stage.Aborting? && stage.id == old(stage).id)
      ensures Calm(world) ==> stage == old(stage) || OnlyCancelled(old(stage).id)
    {
      hide Run, Next;
      var poll: nat := 0;
      while poll < world.polls && stage.Preparing?
        invariant Valid() && old(trace) <= trace && runs == old(runs)
        invariant SmoothFrom(trace, |old(trace)|)
        invariant stage == old(stage) || (stage.Aborting? && stage.id == old(stage).id)
        invariant Calm(world) ==> stage == old(stage) || OnlyCancelled(old(stage).id)
        decreases world.polls - poll
      {
        Others(world.whilePolling(poll));
        CheckGuard(world.stopping(poll + 3), world.late(poll + 1));
        poll := poll + 1;
      }
    }

    /** After preparation: the last guard, then the transition to running. */
    method StartTask(world: World)
      requires Valid() && (stage.Ready? || stage.Aborting? || stage.StorageFailing?)
      requires OnlyRequests(world)
      modifies this, store
      ensures Valid() && old(trace) <= trace && runs == old(runs)
      ensures SmoothFrom(trace, |old(trace)|)
      ensures stage.Launching? || stage.Aborting? || stage.StorageFailing? || stage.Idle?
      ensures !stage.Idle? ==> stage.id == old(stage).id
      ensures Calm(world) && (old(stage.Ready?) || old(OnlyCancelled(stage.id))) ==>
        stage == Launching(old(stage).id) || OnlyCancelled(old(stage).id)
    {
      hide Run, Next;
      Others(world.others(1));
      if stage.Ready? {
        CheckGuard(world.stopping(0), world.late(0));
      }
      Others(world.others(2));
      if stage.Guarded? {
        BeginTask(world.now, world.fault(2));
      }
    }

    /** The transition to running, unless the task has been flagged meanwhile. */
    method BeginTask(now: int, fault: Fault)
      requires Valid() && stage.Guarded?
      modifies this, store
      ensures Valid() && old(trace) <= trace && runs == old(runs)
      ensures SmoothFrom(trace, |old(trace)|)
      ensures stage.Launching? || stage.Aborting? || stage.StorageFailing? || stage.Idle?
      ensures !stage.Idle? ==> stage.id == old(stage).id
      ensures fault.NoFault? ==> stage == Launching(old(stage).id) || OnlyCancelled(old(stage).id)
    {
      hide Run, Next, Inv;
      ValidMeansInv(trace);
      BeginLeads(Abstract(), now);
      Transit(Begin(now, fault));
    }

    /** The executor: it writes test results as it goes, then answers or raises; an answer must meet its contract. */
    method ExecuteTask(world: World)
      requires Valid() && stage.Launching? && OnlyRequests(world)
      modifies this, store
      ensures Valid() && old(trace) <= trace && runs == old(runs) + multiset{old(stage.id)}
      ensures SmoothFrom(trace, |old(trace)|)
      ensures stage.Finishing? || stage.Aborting? || stage.StorageFailing?
      ensures Concluding(world, stage, old(stage.id)) && Underway(store.disk, old(stage.id))
    {
      hide Run, Next, Inv;
      Invocation();
      WriteResults(world);
      var verdict := world.verdict;
      if verdict.Answers? && !ExecutorContract(FilesOf(store.disk, stage.id), verdict.status) {
        verdict := Throws(OtherError);
      } else if verdict.Throws? && verdict.throw.Abort? && !AbortStatus(verdict.throw.status) {
        verdict := Throws(OtherError);
      }
      ValidMeansInv(trace);
      PlaceOf(Abstract(), stage.id);
      EndExecution(verdict);
    }

    method WriteResults(world: World)
      requires Valid() && stage.Executing? && OnlyRequests(world)
      modifies this, store
      ensures Valid() && old(trace) <= trace && runs == old(runs) && stage == old(stage)
      ensures SmoothFrom(trace, |old(trace)|)
    {
      var k: nat := 0;
      while k < |world.writes|
        invariant 0 <= k <= |world.writes|
        invariant Valid() && old(trace) <= trace && runs == old(runs) && stage == old(stage)
        invariant SmoothFrom(trace, |old(trace)|)
      {
        Perform(ExecutorWrites(world.writes[k]));
        Others(world.whileRunning(k));
        k := k + 1;
      }
    }

    method EndExecution(verdict: Verdict)
      requires Valid() && stage.Executing?
      requires verdict.Answers? ==> ExecutorContract(FilesOf(store.disk, stage.id), verdict.status)
      requires verdict.Throws? && verdict.throw.Abort? ==> AbortStatus(verdict.throw.status)
      modifies this, store
      ensures Valid() && old(trace) <= trace && runs == old(runs)
      ensures SmoothFrom(trace, |old(trace)|)
      ensures store.disk == old(store.disk)
      ensures var id := old(stage.id);
        match verdict
        case Answers(status, code) => stage == Finishing(id, status, code)
        case Throws(Abort(status, code)) => stage == Aborting(id, status, code)
        case Throws(OsError) => stage == StorageFailing(id)
        case Throws(OtherError) => stage == Aborting(id, Failed, "runner_error")
    {
      match verdict {
        case Answers(status, code) => Perform(ExecutorReturns(status, code));
        case Throws(throw) => Perform(ExecutorThrows(throw));
      }
    }

    /** The except clauses of the tick. */
    method Handlers(world: World)
      requires Valid()
      requires stage.Aborting? || stage.StorageFailing? || stage.Idle?
      requires OnlyRequests(world)
      modifies this, store
      ensures Valid() && old(trace) <= trace && runs == old(runs)
      ensures stage.Idle? || stage.Down?
      ensures Unfailing(world) ==> stage.Idle? && SmoothFrom(trace, |old(trace)|)
      ensures forall id :: Unfailing(world) && old(OnlyCancelled(id)) ==> OnlyCancelled(id)
      ensures forall id :: Unfailing(world) && old(Outgoing(world, id)) ==> Concluded(world, store.disk, id)
      ensures forall id :: old(stage.Idle?) && Ended(old(store.disk), id) ==>
        FilesOf(store.disk, id) == FilesOf(old(store.disk), id)
    {
      hide Run, Next;
      Others(world.others(5));
      if stage.Aborting? || stage.StorageFailing? {
        LeaveEvidence(world.fault(4));
        Others(world.others(4));
        if stage.AbortClosing? {
          CloseAborted(world);
        } else if stage.StorageClosing? {
          CloseBroken(world);
        }
      }
    }

    method CloseAborted(world: World)
      requires Valid() && stage.AbortClosing?
      modifies this, store
      ensures Valid() && old(trace) <= trace && runs == old(runs) && (stage.Idle? || stage.Down?)
      ensures world.fault(5).NoFault? ==>
        && stage.Idle? && EndedAs(store.disk, old(stage).id, old(stage).status)
        && SmoothFrom(trace, |old(trace)|)
    {
      hide Run, Next;
      ValidMeansInv(trace);
      AbortCloses(Abstract(), world.now);
      Transit(AbortClose(world.now, world.fault(5)));
    }

    method CloseBroken(world: World)
      requires Valid() && stage.StorageClosing?
      modifies this, store
      ensures Valid() && old(trace) <= trace && runs == old(runs) && (stage.Idle? || stage.Down?)
      ensures world.fault(5).NoFault? ==> stage.Idle? && SmoothFrom(trace, |old(trace)|)
      ensures world.fault(5).NoFault? && old(Underway(store.disk, stage.id)) ==> EndedAs(store.disk, old(stage).id, Failed)
    {
      hide Run, Next;
      ValidMeansInv(trace);
      BrokenCloses(Abstract(), world.now);
      if Underway(store.disk, stage.id) { StorageCloses(Abstract(), world.now); }
      Transit(StorageClose(world.now, world.fault(5)));
    }
  }
}
