/**
 Where each way out of the worker's tick leads, when its writes go through: the status and the reason that the
 record ends with, the evidence beside it, and what stays as it was.
 */
module Exits {
  import opened Options
  import opened WorkStore
  import opened WorkRunner

  /** `r'` is `r` one history entry later. */
  predicate Enters(r: Record, r': Record, status: Status, code: string, now: int) {
    && r'.status == status
    && r'.history == r.history + [Event(status, now, code)]
    && r'.finishedAt == (if Terminal(status) then Some(now) else r.finishedAt)
    && r'.taskId == r.taskId && r'.request == r.request && r'.payloadHash == r.payloadHash && r'.checkedAt == r.checkedAt
    && r'.cancelRequested == r.cancelRequested && r'.cancelRequestedAt == r.cancelRequestedAt
  }

  predicate SameProgress(r: Record, r': Record) {
    r'.attempts == r.attempts && r'.baseSha == r.baseSha && r'.startedAt == r.startedAt
  }

  /** The task ended so, with its artifact; the worker is between ticks, and no other task moved. */
  ghost predicate Ends(s: State, s': State, id: TaskId, status: Status, code: string, now: int) {
    && s'.stage.Idle? && s'.runs == s.runs
    && FilesOf(s.disk, id).task.Some? && FilesOf(s'.disk, id).task.Some?
    && Enters(FilesOf(s.disk, id).task.value, FilesOf(s'.disk, id).task.value, status, code, now)
    && SameProgress(FilesOf(s.disk, id).task.value, FilesOf(s'.disk, id).task.value)
    && FilesOf(s'.disk, id).result == FilesOf(s'.disk, id).task
    && forall x :: x != id ==> FilesOf(s'.disk, x) == FilesOf(s.disk, x)
  }

  predicate Flagged(s: State, id: TaskId) {
    FilesOf(s.disk, id).task.Some? && FilesOf(s.disk, id).task.value.cancelRequested
  }

  predicate SaysWhy(s: State, id: TaskId, code: string) {
    FilesOf(s.disk, id).test == Some(NotCompleted(code))
  }

  predicate Unended(s: State, id: TaskId) {
    FilesOf(s.disk, id).task.Some? && !Terminal(FilesOf(s.disk, id).task.value.status)
  }

  /** One transition whose writes go through; a flag stands in the way of progress only. */
  lemma TransitionWrites(files: Files, status: Status, code: string, extra: Extra, now: int)
    requires files.task.Some? && !Terminal(files.task.value.status)
    requires var r := files.task.value;
      Edge(r.status, if r.cancelRequested && (status.Reserved? || status.Running? || status.Succeeded?) then Cancelled else status)
    ensures var r := files.task.value;
      var plan := TransitionPlan(files, status, code, extra, now);
      var files' := After(files, plan, NoFault);
      var redirected := r.cancelRequested && (status.Reserved? || status.Running? || status.Succeeded?);
      var status' := if redirected then Cancelled else status;
      && plan.Write? && Answer(plan, NoFault) == Returned(plan.value) && files'.task == Some(plan.value)
      && Enters(r, plan.value, status', if redirected then "cancellation_requested" else code, now)
      && (match extra
          case NoExtra => SameProgress(r, plan.value)
          case Reservation(attempts, base) =>
            plan.value.attempts == attempts && plan.value.baseSha == Some(base) && plan.value.startedAt == r.startedAt
          case Start(at) =>
            plan.value.attempts == r.attempts && plan.value.baseSha == r.baseSha && plan.value.startedAt == Some(at))
      && files'.result == (if Terminal(status') then files'.task else files.result)
      && files'.test == files.test && files'.dir == files.dir
  {
  }

  lemma AtStage(s: State, id: TaskId)
    requires Inv(s) && id in Mentioned(s.stage) && !s.stage.StorageFailing? && !s.stage.StorageClosing?
    requires !s.stage.Picked?
    ensures Unended(s, id) && Live(FilesOf(s.disk, id).task.value.status)
  {
    TaskOf(s, id);
  }

  /** An exception on its way out: evidence first, then the record. */
  lemma AbortEnds(s: State, now: int)
    requires Inv(s) && s.stage.Aborting?
    ensures var s' := Next(Next(s, AbortEvidence(NoFault)), AbortClose(now, NoFault));
      Ends(s, s', s.stage.id, s.stage.status, s.stage.code, now) && SaysWhy(s', s.stage.id, s.stage.code)
  {
    var id, status, code := s.stage.id, s.stage.status, s.stage.code;
    var s1 := Next(s, AbortEvidence(NoFault));
    assert s1 == s.(disk := WithTest(s.disk, id, NotCompleted(code)), stage := AbortClosing(id, status, code));
    StepKeepsInv(s, AbortEvidence(NoFault));
    AbortCloses(s1, now);
  }

  lemma AbortCloses(s: State, now: int)
    requires Inv(s) && s.stage.AbortClosing?
    ensures var s' := Next(s, AbortClose(now, NoFault));
      && Ends(s, s', s.stage.id, s.stage.status, s.stage.code, now)
      && FilesOf(s'.disk, s.stage.id).test == FilesOf(s.disk, s.stage.id).test
  {
    var id, status, code := s.stage.id, s.stage.status, s.stage.code;
    AtStage(s, id);
    assert AbortStatus(status) by { assert StageInv(s.stage, s.disk); }
    hide Inv, TransitionPlan;
    TransitionWrites(FilesOf(s.disk, id), status, code, NoExtra, now);
    CommitIsLocal(s.disk, id, TransitionPlan(FilesOf(s.disk, id), status, code, NoExtra, now), NoFault);
  }

  /** An operating system error: the task fails, unless it had ended already. */
  lemma StorageEnds(s: State, now: int)
    requires Inv(s) && s.stage.StorageFailing?
    ensures var s1 := Next(s, StorageEvidence(NoFault));
      var s' := Next(s1, StorageClose(now, NoFault));
      if Unended(s, s.stage.id) then
        Ends(s, s', s.stage.id, Failed, "storage_error", now) && SaysWhy(s', s.stage.id, "storage_error")
      else s1 == s.(stage := Idle)
  {
    var id := s.stage.id;
    TaskOf(s, id);
    if Unended(s, id) {
      var s1 := Next(s, StorageEvidence(NoFault));
      assert s1 == s.(disk := WithTest(s.disk, id, NotCompleted("storage_error")), stage := StorageClosing(id));
      hide Inv, Next;
      StorageCloses(s1, now);
    }
  }

  lemma StorageCloses(s: State, now: int)
    requires s.stage.StorageClosing? && Unended(s, s.stage.id)
    ensures var s' := Next(s, StorageClose(now, NoFault));
      && Ends(s, s', s.stage.id, Failed, "storage_error", now)
      && FilesOf(s'.disk, s.stage.id).test == FilesOf(s.disk, s.stage.id).test
  {
    var id := s.stage.id;
    CanFail(s, id);
    hide TransitionPlan;
    TransitionWrites(FilesOf(s.disk, id), Failed, "storage_error", NoExtra, now);
    CommitIsLocal(s.disk, id, TransitionPlan(FilesOf(s.disk, id), Failed, "storage_error", NoExtra, now), NoFault);
  }

  lemma BrokenCloses(s: State, now: int)
    requires Inv(s) && s.stage.StorageClosing?
    ensures Next(s, StorageClose(now, NoFault)).stage.Idle?
  {
    AskKeepsInv(s, StorageClose(now, NoFault));
  }

  lemma CanFail(s: State, id: TaskId)
    requires Unended(s, id)
    ensures Edge(FilesOf(s.disk, id).task.value.status, Failed)
  {
  }

  lemma MayFinish(s: State)
    requires Inv(s) && s.stage.Finishing?
    ensures ExecutorContract(FilesOf(s.disk, s.stage.id), s.stage.status)
  {
  }

  // ----- the guard

  /** The guard, and the handler if it raised. */
  function Guarding(s: State, stopping: bool, late: bool, now: int): State {
    var s1 := Next(s, Guard(stopping, late));
    if s1.stage.Aborting? then Next(Next(s1, AbortEvidence(NoFault)), AbortClose(now, NoFault)) else s1
  }

  /**
   The guard's reasons, in the order it looks. A stop interrupts; else a stored flag cancels; else the deadline fails;
   else the task goes on untouched.
   */
  lemma GuardLeads(s: State, stopping: bool, late: bool, now: int)
    requires Inv(s) && (s.stage.Preparing? || s.stage.Ready?)
    ensures var id, s' := s.stage.id, Guarding(s, stopping, late, now);
      if stopping then Ends(s, s', id, Interrupted, "service_stopping", now) && SaysWhy(s', id, "service_stopping")
      else if Flagged(s, id) then Ends(s, s', id, Cancelled, "cancellation_requested", now) && SaysWhy(s', id, "cancellation_requested")
      else if late then Ends(s, s', id, Failed, "deadline_exceeded", now) && SaysWhy(s', id, "deadline_exceeded")
      else s' == s.(stage := if s.stage.Ready? then Guarded(id) else s.stage)
  {
    var s1 := Next(s, Guard(stopping, late));
    StepKeepsInv(s, Guard(stopping, late));
    assert s1.disk == s.disk && s1.runs == s.runs;
    if s1.stage.Aborting? {
      hide Inv, Next;
      AbortEnds(s1, now);
    }
  }

  /** Nothing stops the process, and what an exception handler writes goes through. */
  predicate Smooth(a: Action) {
    !a.Crash? && (a.AbortEvidence? || a.AbortClose? ==> a.fault.NoFault?)
  }

  predicate SmoothFrom(actions: seq<Action>, n: nat) {
    forall k :: n <= k < |actions| ==> Smooth(actions[k])
  }

  ghost predicate EndedAs(disk: Disk, id: TaskId, status: Status) {
    StatusOf(disk, id) == Some(status)
  }

  /** On the way out, with this status to come. */
  predicate Leaving(stage: Stage, id: TaskId, status: Status) {
    (stage.Aborting? || stage.AbortClosing?) && stage.id == id && stage.status == status
  }

  lemma LeavingStep(s: State, a: Action, id: TaskId, status: Status)
    requires Inv(s) && Leaving(s.stage, id, status) && Smooth(a)
    ensures Leaving(Next(s, a).stage, id, status) || EndedAs(Next(s, a).disk, id, status)
  {
    if a.AbortClose? && s.stage.AbortClosing? {
      hide Inv, Next;
      AbortCloses(s, a.now);
    }
  }

  lemma EndedAsStays(s: State, a: Action, id: TaskId, status: Status)
    requires Inv(s) && EndedAs(s.disk, id, status) && Terminal(status)
    ensures EndedAs(Next(s, a).disk, id, status)
  {
    hide Inv, Next;
    StepKeepsInv(s, a);
    assert Advances(FilesOf(s.disk, id), FilesOf(Next(s, a).disk, id));
  }

  lemma {:induction false} LeavingEnds(s: State, actions: seq<Action>, id: TaskId, status: Status)
    requires Inv(s) && Terminal(status) && SmoothFrom(actions, 0)
    requires Leaving(s.stage, id, status) || EndedAs(s.disk, id, status)
    ensures var s' := Run(s, actions);
      Leaving(s'.stage, id, status) || EndedAs(s'.disk, id, status)
    decreases |actions|
  {
    if actions != [] {
      hide Inv, Next, Leaving;
      StepKeepsInv(s, actions[0]);
      if EndedAs(s.disk, id, status) {
        EndedAsStays(s, actions[0], id, status);
      } else {
        LeavingStep(s, actions[0], id, status);
      }
      LeavingEnds(Next(s, actions[0]), actions[1..], id, status);
    }
  }

  /** What the guard saw decides how the task ends. */
  ghost predicate Decided(s: State, guard: Action, disk: Disk) {
    guard.Guard? && (s.stage.Preparing? || s.stage.Ready?) ==>
      && (guard.stopping ==> EndedAs(disk, s.stage.id, Interrupted))
      && (!guard.stopping && Flagged(s, s.stage.id) ==> EndedAs(disk, s.stage.id, Cancelled))
      && (!guard.stopping && !Flagged(s, s.stage.id) && guard.late ==> EndedAs(disk, s.stage.id, Failed))
  }

  /**
   Whatever else happens after the guard has looked, short of a crash or a handler's write that fails: once the worker
   is between ticks again, a task it stopped for is interrupted, a flagged one cancelled, and a late one failed.
   */
  lemma GuardDecides(s: State, guard: Action, rest: seq<Action>)
    requires Inv(s) && SmoothFrom(rest, 0) && Run(Next(s, guard), rest).stage.Idle?
    ensures Decided(s, guard, Run(Next(s, guard), rest).disk)
  {
    if guard.Guard? && (s.stage.Preparing? || s.stage.Ready?) {
      var id, s1 := s.stage.id, Next(s, guard);
      StepKeepsInv(s, guard);
      var status := if guard.stopping then Interrupted else if Flagged(s, id) then Cancelled else Failed;
      if guard.stopping || Flagged(s, id) || guard.late {
        hide Inv, Run;
        LeavingEnds(s1, rest, id, status);
      }
    }
  }

  lemma RunFrom(trace: seq<Action>, k: nat)
    requires k < |trace|
    ensures Run(INITIAL, trace) == Run(Next(Run(INITIAL, trace[..k]), trace[k]), trace[k + 1..])
  {
    hide Next;
    assert trace == trace[..k] + trace[k..] && trace[k..][1..] == trace[k + 1..];
    RunConcat(INITIAL, trace[..k], trace[k..]);
  }

  /** The same for every guard of a trace. */
  lemma GuardsDecide(trace: seq<Action>, n: nat, k: nat)
    requires n <= k < |trace| && SmoothFrom(trace, n) && Run(INITIAL, trace).stage.Idle?
    ensures Decided(Run(INITIAL, trace[..k]), trace[k], Run(INITIAL, trace).disk)
  {
    hide Run, Inv, Decided, Next, Smooth;
    RunFrom(trace, k);
    InitialInv();
    RunKeepsInv(INITIAL, trace[..k]);
    assert SmoothFrom(trace[k + 1..], 0);
    GuardDecides(Run(INITIAL, trace[..k]), trace[k], trace[k + 1..]);
  }

  // ----- preparation

  function PreparedThen(s: State, prepared: Prepared, now: int): State {
    var s1 := Next(s, Prepare(prepared));
    if s1.stage.Aborting? then Next(Next(s1, AbortEvidence(NoFault)), AbortClose(now, NoFault))
    else if s1.stage.StorageFailing? then Next(Next(s1, StorageEvidence(NoFault)), StorageClose(now, NoFault))
    else s1
  }

  /** A clone leads on; git's failure fails the task, foreign content blocks it, and errors fail it with their own reasons. */
  lemma PreparationLeads(s: State, prepared: Prepared, now: int)
    requires Inv(s) && s.stage.Preparing?
    ensures var id, s' := s.stage.id, PreparedThen(s, prepared, now);
      match prepared
      case Cloned => s' == s.(stage := Ready(id))
      case GitFailed =>
        Ends(s, s', id, Failed, "workspace_preparation_failed", now) && SaysWhy(s', id, "workspace_preparation_failed")
      case Unsupported =>
        Ends(s, s', id, Blocked, "unsupported_repository_content", now) && SaysWhy(s', id, "unsupported_repository_content")
      case OsFailed => Ends(s, s', id, Failed, "storage_error", now) && SaysWhy(s', id, "storage_error")
      case OtherFailed => Ends(s, s', id, Failed, "runner_error", now) && SaysWhy(s', id, "runner_error")
  {
    AtStage(s, s.stage.id);
    var s1 := Next(s, Prepare(prepared));
    StepKeepsInv(s, Prepare(prepared));
    assert s1.disk == s.disk && s1.runs == s.runs;
    if s1.stage.Aborting? {
      hide Inv, Next;
      AbortEnds(s1, now);
    } else if s1.stage.StorageFailing? {
      hide Inv, Next;
      StorageEnds(s1, now);
    }
  }

  // ----- transitions in the try block

  /** The task is Reserved, by this worker's one attempt, on its own base; or it had been cancelled while queued. */
  lemma ReserveLeads(s: State, now: int)
    requires Inv(s) && s.stage.Picked?
    requires StatusOf(s.disk, s.stage.id) == Some(Submitted) || StatusOf(s.disk, s.stage.id) == Some(Cancelled)
    ensures var id, s' := s.stage.id, Next(s, Reserve(now, NoFault));
      var r := FilesOf(s.disk, id).task.value;
      s'.runs == s.runs &&
      if r.status.Cancelled? then s' == s.(stage := Idle)
      else
        && s'.stage == Preparing(id) && FilesOf(s'.disk, id).task.Some?
        && var r' := FilesOf(s'.disk, id).task.value;
           Enters(r, r', Reserved, "worker_reserved", now)
           && r'.attempts == 1 && r'.baseSha == Some(r.request.baseRef) && r'.startedAt == r.startedAt
  {
    var id := s.stage.id;
    TaskOf(s, id);
    var r := FilesOf(s.disk, id).task.value;
    hide Inv, TransitionPlan;
    if r.status.Submitted? {
      var extra := Reservation(1, r.request.baseRef);
      TransitionWrites(FilesOf(s.disk, id), Reserved, "worker_reserved", extra, now);
      CommitIsLocal(s.disk, id, TransitionPlan(FilesOf(s.disk, id), Reserved, "worker_reserved", extra, now), NoFault);
    } else {
      EndedIsReturned(s, id, Reserved, "worker_reserved", Reservation(1, r.request.baseRef), now);
    }
  }

  lemma EndedIsReturned(s: State, id: TaskId, status: Status, code: string, extra: Extra, now: int)
    requires FilesOf(s.disk, id).task.Some? && Terminal(FilesOf(s.disk, id).task.value.status)
    ensures var plan := TransitionPlan(FilesOf(s.disk, id), status, code, extra, now);
      Commit(s.disk, id, plan, NoFault) == s.disk && Answer(plan, NoFault) == Returned(FilesOf(s.disk, id).task.value)
  {
  }

  lemma BlockLeads(s: State, code: string, now: int)
    requires Inv(s) && s.stage.Preparing?
    ensures Ends(s, Next(s, Block(code, now, NoFault)), s.stage.id, Blocked, code, now)
    ensures FilesOf(Next(s, Block(code, now, NoFault)).disk, s.stage.id).test == FilesOf(s.disk, s.stage.id).test
  {
    var id := s.stage.id;
    TaskOf(s, id);
    hide Inv, TransitionPlan;
    TransitionWrites(FilesOf(s.disk, id), Blocked, code, NoExtra, now);
    CommitIsLocal(s.disk, id, TransitionPlan(FilesOf(s.disk, id), Blocked, code, NoExtra, now), NoFault);
  }

  /** To `running`, with the time it began; a flag stored since the guard looked still cancels. */
  lemma BeginLeads(s: State, now: int)
    requires Inv(s) && s.stage.Guarded?
    ensures var id, s' := s.stage.id, Next(s, Begin(now, NoFault));
      && FilesOf(s.disk, id).task.Some? && FilesOf(s'.disk, id).task.Some? && s'.runs == s.runs
      && var r, r' := FilesOf(s.disk, id).task.value, FilesOf(s'.disk, id).task.value;
         && r'.startedAt == Some(now) && r'.attempts == r.attempts && r'.baseSha == r.baseSha
         && (if r.cancelRequested then s'.stage.Idle? && Enters(r, r', Cancelled, "cancellation_requested", now)
             else s'.stage == Launching(id) && Enters(r, r', Running, "sandbox_starting", now))
  {
    var id := s.stage.id;
    TaskOf(s, id);
    hide Inv, TransitionPlan;
    TransitionWrites(FilesOf(s.disk, id), Running, "sandbox_starting", Start(now), now);
    CommitIsLocal(s.disk, id, TransitionPlan(FilesOf(s.disk, id), Running, "sandbox_starting", Start(now), now), NoFault);
  }

  /** After the executor: a stop interrupts whatever it said, a flag cancels a success, and otherwise its word stands. */
  lemma FinishLeads(s: State, stopping: bool, now: int)
    requires Inv(s) && s.stage.Finishing?
    ensures var id, s' := s.stage.id, Next(s, Finish(stopping, now, NoFault));
      if stopping then Ends(s, s', id, Interrupted, "service_stopping", now)
      else if s.stage.status.Succeeded? && Flagged(s, id) then Ends(s, s', id, Cancelled, "cancellation_requested", now)
      else Ends(s, s', id, s.stage.status, s.stage.code, now)
  {
    var id := s.stage.id;
    TaskOf(s, id);
    assert StageInv(s.stage, s.disk);
    hide Inv, TransitionPlan;
    var status := if stopping then Interrupted else s.stage.status;
    var code := if stopping then "service_stopping" else s.stage.code;
    var plan := TransitionPlan(FilesOf(s.disk, id), status, code, NoExtra, now);
    var s' := Next(s, Finish(stopping, now, NoFault));
    assert s' == s.(disk := Commit(s.disk, id, plan, NoFault), stage := s'.stage);
    TransitionWrites(FilesOf(s.disk, id), status, code, NoExtra, now);
    assert s'.stage.Idle?;
    hide Next, Asked, AskPlan, AfterAsk, Commit;
    CommitIsLocal(s.disk, id, plan, NoFault);
  }

  // ----- when things fail

  function ThrownThen(s: State, throw: Throw, now: int): State {
    var s1 := Next(s, ExecutorThrows(throw));
    if s1.stage.Aborting? then Next(Next(s1, AbortEvidence(NoFault)), AbortClose(now, NoFault))
    else if s1.stage.StorageFailing? then Next(Next(s1, StorageEvidence(NoFault)), StorageClose(now, NoFault))
    else s1
  }

  /** What the executor raises: its own status and reason, or a failure whose reason tells the kind of error. */
  lemma ThrowLeads(s: State, throw: Throw, now: int)
    requires Inv(s) && s.stage.Executing?
    requires throw.Abort? ==> throw.status.Failed? || throw.status.Blocked? || throw.status.Cancelled? || throw.status.Interrupted?
    ensures var id, s' := s.stage.id, ThrownThen(s, throw, now);
      match throw
      case Abort(status, code) => Ends(s, s', id, status, code, now) && SaysWhy(s', id, code)
      case OsError => Ends(s, s', id, Failed, "storage_error", now) && SaysWhy(s', id, "storage_error")
      case OtherError => Ends(s, s', id, Failed, "runner_error", now) && SaysWhy(s', id, "runner_error")
  {
    AtStage(s, s.stage.id);
    var s1 := Next(s, ExecutorThrows(throw));
    StepKeepsInv(s, ExecutorThrows(throw));
    assert s1.disk == s.disk && s1.runs == s.runs;
    if s1.stage.Aborting? {
      hide Inv, Next;
      AbortEnds(s1, now);
    } else {
      hide Inv, Next;
      StorageEnds(s1, now);
    }
  }

  /** The transitions that the tick's try block asks for. */
  predicate InTry(a: Action) {
    a.Reserve? || a.Block? || a.Begin? || a.Finish?
  }

  /** A transition whose write fails: in the try block the storage handler takes over, elsewhere the process dies. */
  lemma FaultLeads(s: State, a: Action)
    requires Inv(s) && Asked(s, a).Some? && a.fault == StopAfter(0)
    ensures var s' := Next(s, a);
      && s'.disk == s.disk && s'.runs == s.runs
      && s'.stage == if InTry(a) then StorageFailing(s.stage.id) else Down
  {
    AskKeepsInv(s, a);
    hide Inv, AskPlan;
  }
}
