/**
 The single worker as a program counter over the durable store. The receiver and
 the CLI interleave with it; a crash may fall between any two writes. A run is
 any sequence of actions: an action that is not enabled leaves the state alone.
 */
module WorkRunner {
  import opened Options
  import opened WorkStore

  datatype Stage =
    | Down
    | Recovering(todo: set<TaskId>)
    | RecoveryClosing(id: TaskId, todo: set<TaskId>)
    | Idle
    | Picked(id: TaskId)
    | Preparing(id: TaskId)
    | Ready(id: TaskId)
    | Guarded(id: TaskId)
    | Launching(id: TaskId)
    | Executing(id: TaskId)
    | Finishing(id: TaskId, status: Status, code: string)
    | Aborting(id: TaskId, status: Status, code: string)
    | AbortClosing(id: TaskId, status: Status, code: string)
    | StorageFailing(id: TaskId)
    | StorageClosing(id: TaskId)

  // `runs` counts executor invocations per task; it is history, not stored state.
  datatype State = State(disk: Disk, stage: Stage, runs: multiset<TaskId>)

  const INITIAL := State(map[], Down, multiset{})

  datatype Prepared = Cloned | GitFailed | Unsupported | OsFailed | OtherFailed

  datatype Throw = Abort(status: Status, code: string) | OsError | OtherError

  datatype Action =
    // receiver and CLI
    | Submit(request: Request, fixtureBase: string, clock: Clock, fault: Fault)
    | Cancel(id: TaskId, now: int, fault: Fault)
    // process life
    | Crash
    | Boot
    | RecoverEvidence(id: TaskId)
    | RecoverClose(now: int, fault: Fault)
    | RecoveryDone
    // one tick
    | Pick(id: TaskId)
    | Reserve(now: int, fault: Fault)
    | Block(code: string, now: int, fault: Fault)
    | Prepare(prepared: Prepared)
    | Guard(stopping: bool, late: bool)
    | Begin(now: int, fault: Fault)
    | Invoke
    | ExecutorWrites(test: TestResult)
    | ExecutorReturns(status: Status, code: string)
    | ExecutorThrows(throw: Throw)
    | Finish(stopping: bool, now: int, fault: Fault)
    | AbortEvidence(fault: Fault)
    | AbortClose(now: int, fault: Fault)
    | StorageEvidence(fault: Fault)
    | StorageClose(now: int, fault: Fault)

  function StatusOf(disk: Disk, id: TaskId): Option<Status> {
    var task := FilesOf(disk, id).task;
    if task.None? then None else Some(task.value.status)
  }

  function Unfinished(disk: Disk): set<TaskId> {
    set id | id in disk && disk[id].task.Some? && Live(disk[id].task.value.status)
  }

  function WithTest(disk: Disk, id: TaskId, test: TestResult): Disk {
    disk[id := FilesOf(disk, id).(test := Some(test))]
  }

  /** What the guard raises, in the order it looks: stop, cancellation flag, deadline. */
  function GuardAbort(files: Files, stopping: bool, late: bool): Option<(Status, string)> {
    if stopping then Some((Interrupted, "service_stopping"))
    else if files.task.Some? && files.task.value.cancelRequested then Some((Cancelled, "cancellation_requested"))
    else if late then Some((Failed, "deadline_exceeded"))
    else None
  }

  /**
   A transition the worker asks the store for. Inside the tick's try block
   (`handled`) a failure leads to an exception handler; in a handler or in
   recovery it ends the process.
   */
  datatype Ask = Ask(status: Status, code: string, extra: Extra, now: int, fault: Fault, onward: Stage, handled: bool)

  function Asked(s: State, a: Action): Option<Ask> {
    match a
    case RecoverClose(now, fault) =>
      if s.stage.RecoveryClosing? then
        Some(Ask(Interrupted, "interrupted_no_retry", NoExtra, now, fault, Recovering(s.stage.todo - {s.stage.id}), false))
      else None
    case Reserve(now, fault) =>
      if s.stage.Picked? && FilesOf(s.disk, s.stage.id).task.Some? then
        var base := FilesOf(s.disk, s.stage.id).task.value.request.baseRef;
        Some(Ask(Reserved, "worker_reserved", Reservation(1, base), now, fault, Preparing(s.stage.id), true))
      else None
    case Block(code, now, fault) =>
      if s.stage.Preparing? then Some(Ask(Blocked, code, NoExtra, now, fault, Idle, true)) else None
    case Begin(now, fault) =>
      if s.stage.Guarded? then
        Some(Ask(Running, "sandbox_starting", Start(now), now, fault, Launching(s.stage.id), true))
      else None
    case Finish(stopping, now, fault) =>
      if s.stage.Finishing? then
        if stopping then Some(Ask(Interrupted, "service_stopping", NoExtra, now, fault, Idle, true))
        else Some(Ask(s.stage.status, s.stage.code, NoExtra, now, fault, Idle, true))
      else None
    case AbortClose(now, fault) =>
      if s.stage.AbortClosing? then Some(Ask(s.stage.status, s.stage.code, NoExtra, now, fault, Idle, false)) else None
    case StorageClose(now, fault) =>
      if s.stage.StorageClosing? then Some(Ask(Failed, "storage_error", NoExtra, now, fault, Idle, false)) else None
    case _ => None
  }

  function AskPlan(files: Files, ask: Ask): Plan<Record> {
    TransitionPlan(files, ask.status, ask.code, ask.extra, ask.now)
  }

  function AfterAsk(id: TaskId, ask: Ask, answer: Outcome<Record>): Stage {
    match answer
    case Returned(record) => if ask.handled && Terminal(record.status) then Idle else ask.onward
    case Raised(error) =>
      if !ask.handled then Down
      else if error == StorageError then StorageFailing(id)
      else Aborting(id, Failed, "runner_error")
  }

  function Next(s: State, a: Action): State {
    match a
    case Submit(request, fixtureBase, clock, fault) =>
      s.(disk := Commit(s.disk, request.taskId, SubmitPlan(s.disk, request, fixtureBase, clock), fault))
    case Cancel(id, now, fault) =>
      s.(disk := Commit(s.disk, id, CancelPlan(FilesOf(s.disk, id), now), fault))
    case Crash => s.(stage := Down)
    case Boot => if s.stage.Down? then s.(stage := Recovering(Unfinished(s.disk))) else s
    case RecoverEvidence(id) =>
      if s.stage.Recovering? && id in s.stage.todo then
        s.(disk := WithTest(s.disk, id, NotCompleted("interrupted_no_retry")),
           stage := RecoveryClosing(id, s.stage.todo))
      else s
    case RecoveryDone => if s.stage == Recovering({}) then s.(stage := Idle) else s
    case Pick(id) =>
      if s.stage.Idle? && StatusOf(s.disk, id) == Some(Submitted) then s.(stage := Picked(id)) else s
    case Prepare(prepared) =>
      if s.stage.Preparing? then
        var id := s.stage.id;
        s.(stage := match prepared
                    case Cloned => Ready(id)
                    case GitFailed => Aborting(id, Failed, "workspace_preparation_failed")
                    case Unsupported => Aborting(id, Blocked, "unsupported_repository_content")
                    case OsFailed => StorageFailing(id)
                    case OtherFailed => Aborting(id, Failed, "runner_error"))
      else s
    case Guard(stopping, late) =>
      if s.stage.Preparing? || s.stage.Ready? then
        var id := s.stage.id;
        var abort := GuardAbort(FilesOf(s.disk, id), stopping, late);
        s.(stage := if abort.Some? then Aborting(id, abort.value.0, abort.value.1)
                    else if s.stage.Ready? then Guarded(id) else s.stage)
      else s
    case Invoke =>
      if s.stage.Launching? then s.(stage := Executing(s.stage.id), runs := s.runs + multiset{s.stage.id}) else s
    case ExecutorWrites(test) =>
      if s.stage.Executing? then s.(disk := WithTest(s.disk, s.stage.id, test)) else s
    case ExecutorReturns(status, code) =>
      if s.stage.Executing? && ExecutorContract(FilesOf(s.disk, s.stage.id), status) then
        s.(stage := Finishing(s.stage.id, status, code))
      else s
    case ExecutorThrows(throw) =>
      if s.stage.Executing? && (throw.Abort? ==> AbortStatus(throw.status)) then
        s.(stage := match throw
                    case Abort(status, code) => Aborting(s.stage.id, status, code)
                    case OsError => StorageFailing(s.stage.id)
                    case OtherError => Aborting(s.stage.id, Failed, "runner_error"))
      else s
    case AbortEvidence(fault) =>
      if s.stage.Aborting? then
        var id := s.stage.id;
        if fault == StopAfter(0) then s.(stage := Down)
        else
          s.(disk := WithTest(s.disk, id, NotCompleted(s.stage.code)),
             stage := if fault == StopAfter(1) then Down else AbortClosing(id, s.stage.status, s.stage.code))
      else s
    case StorageEvidence(fault) =>
      if s.stage.StorageFailing? && FilesOf(s.disk, s.stage.id).task.Some? then
        var id := s.stage.id;
        if fault == StopAfter(0) then s.(stage := Down)
        else if Terminal(FilesOf(s.disk, id).task.value.status) then s.(stage := Idle)
        else
          s.(disk := WithTest(s.disk, id, NotCompleted("storage_error")),
             stage := if fault == StopAfter(1) then Down else StorageClosing(id))
      else s
    case _ =>
      var asked := Asked(s, a);
      if asked.None? then s
      else
        var (id, ask) := (s.stage.id, asked.value);
        var plan := AskPlan(FilesOf(s.disk, id), ask);
        s.(disk := Commit(s.disk, id, plan, ask.fault), stage := AfterAsk(id, ask, Answer(plan, ask.fault)))
  }

  /** The sandbox and the coding executor answer `succeeded` only after writing a passed test result. */
  predicate ExecutorContract(files: Files, status: Status) {
    && (status.Succeeded? || status.Failed? || status.Cancelled? || status.Interrupted?)
    && (status == Succeeded ==> files.test == Some(Passed))
  }

  predicate AbortStatus(status: Status) {
    status.Failed? || status.Blocked? || status.Cancelled? || status.Interrupted?
  }

  function Run(s: State, actions: seq<Action>): State
    decreases |actions|
  {
    if actions == [] then s else Run(Next(s, actions[0]), actions[1..])
  }

  // ----- the inductive invariant

  predicate ValidHistory(history: seq<Event>) {
    && |history| > 0
    && history[0].status == Submitted
    && forall i :: 0 < i < |history| ==> Edge(history[i - 1].status, history[i].status)
  }

  predicate WasReserved(history: seq<Event>) {
    exists i :: 0 <= i < |history| && history[i].status == Reserved
  }

  predicate RecordInv(id: TaskId, record: Record) {
    && record.taskId == record.request.taskId == id
    && record.payloadHash == Digest(record.request)
    && ValidHistory(record.history)
    && record.history[|record.history| - 1].status == record.status
    && record.attempts == (if WasReserved(record.history) then 1 else 0)
    && (record.cancelRequested ==> !record.status.Submitted? && !record.status.Succeeded?)
  }

  predicate FilesInv(id: TaskId, files: Files) {
    files.task.Some? ==>
      && files.dir && files.test.Some? && files.result.Some?
      && RecordInv(id, files.task.value)
      && (Terminal(files.task.value.status) ==> files.result == files.task)
      && (files.task.value.status == Succeeded ==> files.test == Some(Passed))
  }

  predicate Live(status: Status) {
    status.Reserved? || status.Running?
  }

  /** The statuses a task's record may have while the worker is at a stage. */
  predicate Allowed(stage: Stage, id: TaskId, status: Status) {
    match stage
    case Down => true
    case Recovering(todo) => Live(status) == (id in todo)
    case RecoveryClosing(_, todo) => Live(status) == (id in todo)
    case Idle => !Live(status)
    case Picked(_) => !Live(status)
    case Preparing(x) => if id == x then status.Reserved? else !Live(status)
    case Ready(x) => if id == x then status.Reserved? else !Live(status)
    case Guarded(x) => if id == x then status.Reserved? else !Live(status)
    case Launching(x) => if id == x then status.Running? else !Live(status)
    case Executing(x) => if id == x then status.Running? else !Live(status)
    case Finishing(x, _, _) => if id == x then status.Running? else !Live(status)
    case Aborting(x, _, _) => Live(status) == (id == x)
    case AbortClosing(x, _, _) => Live(status) == (id == x)
    case StorageFailing(x) => id == x || !Live(status)
    case StorageClosing(x) => if id == x then !status.Succeeded? else !Live(status)
  }

  function Mentioned(stage: Stage): set<TaskId> {
    match stage
    case Down => {}
    case Recovering(todo) => todo
    case RecoveryClosing(id, todo) => todo + {id}
    case Idle => {}
    case _ => {stage.id}
  }

  predicate StageInv(stage: Stage, disk: Disk) {
    && (stage.RecoveryClosing? ==> stage.id in stage.todo)
    && (stage.Finishing? ==> ExecutorContract(FilesOf(disk, stage.id), stage.status))
    && (stage.Aborting? || stage.AbortClosing? ==> AbortStatus(stage.status))
  }

  predicate PlaceInv(stage: Stage, id: TaskId, status: Option<Status>, runs: nat) {
    && (status.Some? ==> Allowed(stage, id, status.value))
    && (id in Mentioned(stage) ==> status.Some?)
    && runs <= 1
    && (runs == 1 ==> status.Some? && (status.value.Running? || Terminal(status.value)))
    && (stage == Launching(id) ==> runs == 0)
    && ((stage.Executing? || stage.Finishing?) && stage.id == id ==> runs == 1)
    && (status == Some(Succeeded) ==> runs == 1)
  }

  predicate TaskInv(s: State, id: TaskId) {
    && FilesInv(id, FilesOf(s.disk, id))
    && PlaceInv(s.stage, id, StatusOf(s.disk, id), s.runs[id])
  }

  ghost predicate Inv(s: State) {
    && StageInv(s.stage, s.disk)
    && forall id :: TaskInv(s, id)
  }

  lemma HistoryGrows(history: seq<Event>, event: Event)
    requires ValidHistory(history)
    requires Edge(history[|history| - 1].status, event.status)
    ensures ValidHistory(history + [event])
    ensures WasReserved(history + [event]) <==> WasReserved(history) || event.status == Reserved
  {
    var longer := history + [event];
    if WasReserved(history) {
      var i :| 0 <= i < |history| && history[i].status == Reserved;
      assert longer[i].status == Reserved;
    }
    if event.status == Reserved {
      assert longer[|history|].status == Reserved;
    }
  }

  lemma MovedKeepsRecord(id: TaskId, record: Record, status: Status, code: string, extra: Extra, now: int)
    requires RecordInv(id, record.(cancelRequested := false))
    requires Edge(record.status, status)
    requires record.cancelRequested ==> status != Succeeded
    requires if extra.Reservation? then status == Reserved && extra.attempts == 1 else status != Reserved
    ensures RecordInv(id, Moved(record, status, code, extra, now))
  {
    HistoryGrows(record.history, Event(status, now, code));
  }

  function After<A>(files: Files, plan: Plan<A>, fault: Fault): Files {
    var n := Effective(plan, fault);
    if n == 0 then files else plan.versions[n - 1]
  }

  lemma CommitIsLocal<A>(disk: Disk, id: TaskId, plan: Plan<A>, fault: Fault)
    ensures FilesOf(Commit(disk, id, plan, fault), id) == After(FilesOf(disk, id), plan, fault)
    ensures forall x :: x != id ==> FilesOf(Commit(disk, id, plan, fault), x) == FilesOf(disk, x)
  {
  }

  /** How a record may change along any run: history only grows, a terminal record is frozen, a stored flag excludes success. */
  predicate Advances(before: Files, after: Files) {
    before.task.Some? ==>
      && after.task.Some?
      && RecordAdvances(before.task.value, after.task.value)
  }

  predicate RecordAdvances(r: Record, r': Record) {
    && r'.request == r.request && r'.payloadHash == r.payloadHash && r'.checkedAt == r.checkedAt
    && r.history <= r'.history
    && (Terminal(r.status) ==> r' == r)
    && (r.cancelRequested ==> r'.cancelRequested && (r'.status == r.status || (Terminal(r'.status) && !r'.status.Succeeded?)))
  }

  /** One locked transition of a live record, stopped after any of its writes. */
  lemma LockedEffect(id: TaskId, files: Files, record: Record, status: Status, code: string, extra: Extra, now: int, fault: Fault)
    requires files.task.Some? && FilesInv(id, files) && !Terminal(files.task.value.status)
    requires RecordAdvances(files.task.value, record)
    requires record == files.task.value.(cancelRequested := record.cancelRequested, cancelRequestedAt := record.cancelRequestedAt)
    requires Edge(record.status, status)
    requires record.cancelRequested ==> Terminal(status) && !status.Succeeded?
    requires if extra.Reservation? then status == Reserved && extra.attempts == 1 else status != Reserved
    requires status == Succeeded ==> files.test == Some(Passed)
    ensures var plan := LockedPlan(files, record, status, code, extra, now);
      var files' := After(files, plan, fault);
      && plan.Write?
      && FilesInv(id, files') && Advances(files, files') && files'.test == files.test
      && (files'.task == files.task || files'.task == Some(plan.value))
      && (Answer(plan, fault).Returned? ==> files'.task == Some(plan.value))
      && plan.value.status == status
  {
    var live := files.task.value;
    var next := Moved(record, status, code, extra, now);
    assert RecordInv(id, record.(cancelRequested := false)) by {
      assert RecordInv(id, live);
    }
    MovedKeepsRecord(id, record, status, code, extra, now);
    assert RecordAdvances(live, next);
  }

  lemma TransitionEffect(id: TaskId, files: Files, ask: Ask)
    requires files.task.Some? && FilesInv(id, files)
    requires !Terminal(files.task.value.status) ==> Edge(files.task.value.status, ask.status)
    requires if ask.extra.Reservation? then ask.status == Reserved && ask.extra.attempts == 1 else ask.status != Reserved
    requires ask.status == Succeeded ==> files.test == Some(Passed)
    ensures var plan := AskPlan(files, ask);
      var files' := After(files, plan, ask.fault);
      && plan.Write?
      && FilesInv(id, files') && Advances(files, files') && files'.test == files.test
      && (Answer(plan, ask.fault).Returned? ==>
            && files'.task == Some(Answer(plan, ask.fault).value)
            && (files'.task.value.status == ask.status || Terminal(files'.task.value.status)))
      && (Answer(plan, ask.fault).Raised? ==> Answer(plan, ask.fault).error == StorageError)
      && (files'.task.value.status == files.task.value.status || files'.task.value.status == ask.status || files'.task.value.status.Cancelled?)
  {
    var record := files.task.value;
    assert RecordInv(id, record);
    if !Terminal(record.status) {
      if record.cancelRequested && (ask.status.Reserved? || ask.status.Running? || ask.status.Succeeded?) {
        LockedEffect(id, files, record, Cancelled, "cancellation_requested", ask.extra, ask.now, ask.fault);
      } else {
        LockedEffect(id, files, record, ask.status, ask.code, ask.extra, ask.now, ask.fault);
      }
    }
  }

  lemma CancelEffect(id: TaskId, files: Files, now: int, fault: Fault)
    requires FilesInv(id, files)
    ensures var plan := CancelPlan(files, now);
      var files' := After(files, plan, fault);
      && FilesInv(id, files') && Advances(files, files') && files'.test == files.test
      && (files.task.None? ==> plan == Refuse(Rejected("unknown_task")) && files' == files)
      && (files.task.Some? ==>
            && plan.Write?
            && (files'.task.value.status == files.task.value.status || files'.task.value.status.Cancelled?))
  {
    if files.task.Some? && !Terminal(files.task.value.status) {
      var record := files.task.value;
      assert RecordInv(id, record);
      var flagged := record.(cancelRequested := true, cancelRequestedAt := Some(now));
      if record.status == Submitted {
        LockedEffect(id, files, flagged, Cancelled, "cancelled_before_reservation", NoExtra, now, fault);
      } else {
        assert flagged.history == record.history;
        assert RecordInv(id, flagged);
      }
    }
  }

  lemma SubmitEffect(disk: Disk, request: Request, fixtureBase: string, clock: Clock, fault: Fault)
    requires FilesInv(request.taskId, FilesOf(disk, request.taskId))
    ensures var files := FilesOf(disk, request.taskId);
      var plan := SubmitPlan(disk, request, fixtureBase, clock);
      var files' := After(files, plan, fault);
      && FilesInv(request.taskId, files') && Advances(files, files')
      && (files.task.Some? ==> files' == files)
      && (files.task.None? && files'.task.Some? ==> files'.task.value.status == Submitted)
      && (plan.Refuse? ==> plan.error.Rejected? || plan.error == StorageError)
  {
    var record := NewRecord(request, clock);
    assert !WasReserved(record.history);
    assert RecordInv(request.taskId, record);
  }

  lemma DiskActionKeepsInv(s: State, a: Action)
    requires Inv(s)
    requires a.Submit? || a.Cancel?
    ensures Inv(Next(s, a))
    ensures forall id :: Advances(FilesOf(s.disk, id), FilesOf(Next(s, a).disk, id))
  {
    hide FilesInv, PlaceInv, Advances, SubmitPlan, CancelPlan, Commit, After;
    var s' := Next(s, a);
    var x := if a.Submit? then a.request.taskId else a.id;
    assert TaskInv(s, x);
    DiskActionOnTask(s, a, x);
    forall id ensures TaskInv(s', id) && Advances(FilesOf(s.disk, id), FilesOf(s'.disk, id)) {
      assert TaskInv(s, id);
      if id != x {
        OthersUntouched(s, a, x, id);
        SameFilesAdvance(FilesOf(s.disk, id));
      }
    }
    assert s'.stage == s.stage;
    RequestsKeepStageInv(s, a, x);
  }

  lemma SameFilesAdvance(files: Files)
    ensures Advances(files, files)
  {
  }

  lemma OthersUntouched(s: State, a: Action, x: TaskId, id: TaskId)
    requires (a.Submit? && x == a.request.taskId) || (a.Cancel? && x == a.id)
    requires id != x
    ensures FilesOf(Next(s, a).disk, id) == FilesOf(s.disk, id)
  {
    hide SubmitPlan, CancelPlan;
    if a.Submit? {
      CommitIsLocal(s.disk, x, SubmitPlan(s.disk, a.request, a.fixtureBase, a.clock), a.fault);
    } else {
      CommitIsLocal(s.disk, x, CancelPlan(FilesOf(s.disk, x), a.now), a.fault);
    }
  }

  lemma DiskActionOnTask(s: State, a: Action, x: TaskId)
    requires (a.Submit? && x == a.request.taskId) || (a.Cancel? && x == a.id)
    requires TaskInv(s, x)
    ensures TaskInv(Next(s, a), x) && Advances(FilesOf(s.disk, x), FilesOf(Next(s, a).disk, x))
    ensures FilesOf(s.disk, x).task.Some? ==> FilesOf(Next(s, a).disk, x).test == FilesOf(s.disk, x).test
  {
    hide FilesInv;
    if a.Submit? {
      CommitIsLocal(s.disk, x, SubmitPlan(s.disk, a.request, a.fixtureBase, a.clock), a.fault);
      SubmitEffect(s.disk, a.request, a.fixtureBase, a.clock, a.fault);
    } else {
      hide CancelPlan;
      CommitIsLocal(s.disk, x, CancelPlan(FilesOf(s.disk, x), a.now), a.fault);
      CancelEffect(x, FilesOf(s.disk, x), a.now, a.fault);
    }
  }

  lemma RequestsKeepStageInv(s: State, a: Action, x: TaskId)
    requires Inv(s) && ((a.Submit? && x == a.request.taskId) || (a.Cancel? && x == a.id))
    ensures StageInv(s.stage, Next(s, a).disk)
  {
    hide Advances;
    if s.stage.Finishing? {
      assert TaskInv(s, s.stage.id) && TaskInv(s, x);
      hide FilesInv, SubmitPlan, CancelPlan;
      if s.stage.id == x { DiskActionOnTask(s, a, x); } else { OthersUntouched(s, a, x, s.stage.id); }
    }
  }

  lemma AskIsLegal(s: State, a: Action)
    requires Inv(s) && Asked(s, a).Some?
    ensures var ask := Asked(s, a).value;
      var files := FilesOf(s.disk, s.stage.id);
      && files.task.Some?
      && (!Terminal(files.task.value.status) ==> Edge(files.task.value.status, ask.status))
      && (if ask.extra.Reservation? then ask.status == Reserved && ask.extra.attempts == 1 else ask.status != Reserved)
      && (ask.status == Succeeded ==> files.test == Some(Passed))
  {
    assert TaskInv(s, s.stage.id);
  }

  lemma AskKeepsInv(s: State, a: Action)
    requires Inv(s) && Asked(s, a).Some?
    ensures Inv(Next(s, a))
    ensures forall id :: Advances(FilesOf(s.disk, id), FilesOf(Next(s, a).disk, id))
    ensures AskPlan(FilesOf(s.disk, s.stage.id), Asked(s, a).value).Write?
  {
    hide Next, TaskInv, Advances;
    var s' := Next(s, a);
    AskAdvances(s, a);
    forall id ensures TaskInv(s', id) {
      if id == s.stage.id {
        AskedTask(s, a);
      } else {
        OtherTasks(s, a, id);
      }
    }
    AskedStage(s, a);
  }

  lemma AskAdvances(s: State, a: Action)
    requires Inv(s) && Asked(s, a).Some?
    ensures forall id :: Advances(FilesOf(s.disk, id), FilesOf(Next(s, a).disk, id))
    ensures AskPlan(FilesOf(s.disk, s.stage.id), Asked(s, a).value).Write?
  {
    var (x, ask) := (s.stage.id, Asked(s, a).value);
    AskIsLegal(s, a);
    assert TaskInv(s, x);
    assert Next(s, a).disk == Commit(s.disk, x, AskPlan(FilesOf(s.disk, x), ask), ask.fault);
    hide FilesInv, PlaceInv, Advances, AskPlan, Next, Inv, Commit, After;
    CommitIsLocal(s.disk, x, AskPlan(FilesOf(s.disk, x), ask), ask.fault);
    TransitionEffect(x, FilesOf(s.disk, x), ask);
    forall id ensures Advances(FilesOf(s.disk, id), FilesOf(Next(s, a).disk, id)) {
      SameFilesAdvance(FilesOf(s.disk, id));
    }
  }

  lemma AskedStage(s: State, a: Action)
    requires Inv(s) && Asked(s, a).Some?
    ensures StageInv(Next(s, a).stage, Next(s, a).disk)
  {
    hide AskPlan, Commit, FilesOf;
  }

  lemma AskedPlace(s: State, a: Action, answer: Outcome<Record>, status: Status)
    requires Asked(s, a).Some?
    requires PlaceInv(s.stage, s.stage.id, StatusOf(s.disk, s.stage.id), s.runs[s.stage.id])
    requires StatusOf(s.disk, s.stage.id).Some? && StageInv(s.stage, s.disk)
    requires var before := StatusOf(s.disk, s.stage.id).value;
      var ask := Asked(s, a).value;
      && (status == before || ((status == ask.status || status == Cancelled) && !Terminal(before)))
      && (answer.Returned? ==> answer.value.status == status && (status == ask.status || Terminal(status)))
      && (answer.Raised? ==> answer.error == StorageError)
    ensures PlaceInv(AfterAsk(s.stage.id, Asked(s, a).value, answer), s.stage.id, Some(status), s.runs[s.stage.id])
  {
  }

  lemma AskedTask(s: State, a: Action)
    requires Inv(s) && Asked(s, a).Some?
    ensures TaskInv(Next(s, a), s.stage.id)
  {
    var (x, ask) := (s.stage.id, Asked(s, a).value);
    var files := FilesOf(s.disk, x);
    var plan := AskPlan(files, ask);
    AskIsLegal(s, a);
    assert TaskInv(s, x);
    CommitIsLocal(s.disk, x, plan, ask.fault);
    TransitionEffect(x, files, ask);
    AskedPlace(s, a, Answer(plan, ask.fault), After(files, plan, ask.fault).task.value.status);
  }

  lemma OtherTasks(s: State, a: Action, id: TaskId)
    requires Inv(s) && Asked(s, a).Some? && id != s.stage.id
    ensures TaskInv(Next(s, a), id)
  {
    var (x, ask) := (s.stage.id, Asked(s, a).value);
    AskIsLegal(s, a);
    assert TaskInv(s, id);
    hide FilesInv, AskPlan, Inv;
    CommitIsLocal(s.disk, x, AskPlan(FilesOf(s.disk, x), ask), ask.fault);
    OtherPlace(s, a, Answer(AskPlan(FilesOf(s.disk, x), ask), ask.fault), id, StatusOf(s.disk, id));
  }

  lemma OtherPlace(s: State, a: Action, answer: Outcome<Record>, id: TaskId, status: Option<Status>)
    requires Asked(s, a).Some? && id != s.stage.id && PlaceInv(s.stage, id, status, s.runs[id])
    ensures PlaceInv(AfterAsk(s.stage.id, Asked(s, a).value, answer), id, status, s.runs[id])
  {
  }

  lemma TestKeepsFiles(disk: Disk, x: TaskId, test: TestResult, id: TaskId)
    requires FilesInv(id, FilesOf(disk, id))
    requires id == x && FilesOf(disk, x).task.Some? ==> !FilesOf(disk, x).task.value.status.Succeeded?
    ensures FilesInv(id, FilesOf(WithTest(disk, x, test), id))
    ensures FilesOf(WithTest(disk, x, test), id).task == FilesOf(disk, id).task
  {
  }

  lemma EvidenceTarget(s: State, a: Action) returns (x: TaskId, test: TestResult)
    requires Inv(s)
    requires a.RecoverEvidence? || a.ExecutorWrites? || a.AbortEvidence? || a.StorageEvidence?
    ensures Next(s, a).disk != s.disk ==>
      && Next(s, a).disk == WithTest(s.disk, x, test)
      && StatusOf(s.disk, x).Some? && !StatusOf(s.disk, x).value.Succeeded?
  {
    x := if a.RecoverEvidence? then a.id else if s.stage.Down? || s.stage.Recovering? || s.stage.Idle? then "" else s.stage.id;
    test := match a
      case RecoverEvidence(_) => NotCompleted("interrupted_no_retry")
      case ExecutorWrites(test) => test
      case AbortEvidence(_) => NotCompleted(if s.stage.Aborting? then s.stage.code else "")
      case _ => NotCompleted("storage_error");
    assert TaskInv(s, x);
  }

  lemma EvidenceKeepsInv(s: State, a: Action)
    requires Inv(s)
    requires a.RecoverEvidence? || a.ExecutorWrites? || a.AbortEvidence? || a.StorageEvidence?
    ensures Inv(Next(s, a))
    ensures forall id :: Advances(FilesOf(s.disk, id), FilesOf(Next(s, a).disk, id))
  {
    var s' := Next(s, a);
    EvidenceKeepsStage(s, a);
    hide FilesInv, PlaceInv, Next, StageInv, Advances, WithTest;
    var x, test := EvidenceTarget(s, a);
    forall id ensures TaskInv(s', id) && Advances(FilesOf(s.disk, id), FilesOf(s'.disk, id)) {
      assert TaskInv(s, id);
      EvidenceKeepsPlace(s, a, id);
      SameFilesAdvance(FilesOf(s.disk, id));
      if s'.disk != s.disk {
        TestKeepsFiles(s.disk, x, test, id);
        TaskAdvances(FilesOf(s.disk, id), FilesOf(s'.disk, id));
      }
    }
  }

  lemma TaskAdvances(files: Files, files': Files)
    requires files'.task == files.task
    ensures Advances(files, files')
  {
  }

  lemma EvidenceKeepsStage(s: State, a: Action)
    requires Inv(s)
    requires a.RecoverEvidence? || a.ExecutorWrites? || a.AbortEvidence? || a.StorageEvidence?
    ensures StageInv(Next(s, a).stage, Next(s, a).disk)
  {
  }

  lemma EvidenceKeepsPlace(s: State, a: Action, id: TaskId)
    requires a.RecoverEvidence? || a.ExecutorWrites? || a.AbortEvidence? || a.StorageEvidence?
    requires PlaceInv(s.stage, id, StatusOf(s.disk, id), s.runs[id])
    ensures PlaceInv(Next(s, a).stage, id, StatusOf(Next(s, a).disk, id), Next(s, a).runs[id])
  {
  }

  lemma StageActionKeepsInv(s: State, a: Action)
    requires Inv(s)
    requires !a.Submit? && !a.Cancel? && Asked(s, a).None?
    requires !(a.RecoverEvidence? || a.ExecutorWrites? || a.AbortEvidence? || a.StorageEvidence?)
    ensures Inv(Next(s, a))
    ensures Next(s, a).disk == s.disk
  {
    var s' := Next(s, a);
    assert s'.disk == s.disk;
    forall id ensures TaskInv(s', id) {
      assert TaskInv(s, id);
    }
  }

  lemma StepKeepsInv(s: State, a: Action)
    requires Inv(s)
    ensures Inv(Next(s, a))
    ensures forall id :: Advances(FilesOf(s.disk, id), FilesOf(Next(s, a).disk, id))
  {
    if a.Submit? || a.Cancel? {
      DiskActionKeepsInv(s, a);
    } else if Asked(s, a).Some? {
      AskKeepsInv(s, a);
    } else if a.RecoverEvidence? || a.ExecutorWrites? || a.AbortEvidence? || a.StorageEvidence? {
      EvidenceKeepsInv(s, a);
    } else {
      StageActionKeepsInv(s, a);
    }
  }

  // ----- what holds over every run

  lemma AdvancesTransitive(f: Files, g: Files, h: Files)
    requires Advances(f, g) && Advances(g, h)
    ensures Advances(f, h)
  {
  }

  lemma {:induction false} RunKeepsInv(s: State, actions: seq<Action>)
    requires Inv(s)
    ensures Inv(Run(s, actions))
    ensures forall id :: Advances(FilesOf(s.disk, id), FilesOf(Run(s, actions).disk, id))
    decreases |actions|
  {
    if actions != [] {
      var s1 := Next(s, actions[0]);
      StepKeepsInv(s, actions[0]);
      RunKeepsInv(s1, actions[1..]);
      forall id ensures Advances(FilesOf(s.disk, id), FilesOf(Run(s, actions).disk, id)) {
        AdvancesTransitive(FilesOf(s.disk, id), FilesOf(s1.disk, id), FilesOf(Run(s, actions).disk, id));
      }
    }
  }

  lemma {:induction false} RunConcat(s: State, before: seq<Action>, after: seq<Action>)
    ensures Run(s, before + after) == Run(Run(s, before), after)
    decreases |before|
  {
    if before == [] {
      assert before + after == after;
    } else {
      assert (before + after)[1..] == before[1..] + after;
      RunConcat(Next(s, before[0]), before[1..], after);
    }
  }

  /** At-most-once execution over every interleaving, fault and crash. */
  lemma AtMostOnceExecution(actions: seq<Action>, id: TaskId)
    ensures Run(INITIAL, actions).runs[id] <= 1
  {
    RunKeepsInv(INITIAL, actions);
    assert TaskInv(Run(INITIAL, actions), id);
  }

  /** A task that has left `submitted`, in particular one that recovery closed, is never picked again. */
  lemma NeverPickedAgain(before: seq<Action>, after: seq<Action>, id: TaskId)
    requires StatusOf(Run(INITIAL, before).disk, id).Some?
    requires StatusOf(Run(INITIAL, before).disk, id) != Some(Submitted)
    ensures var s := Run(INITIAL, before + after);
      StatusOf(s.disk, id) != Some(Submitted) && Next(s, Pick(id)) == s
  {
    hide Next, Run, Inv, TaskInv;
    InitialInv();
    RunConcat(INITIAL, before, after);
    RunKeepsInv(INITIAL, before);
    var s := Run(INITIAL, before);
    RunKeepsInv(s, after);
    var s' := Run(s, after);
    assert Advances(FilesOf(s.disk, id), FilesOf(s'.disk, id));
    TaskOf(s, id);
    TaskOf(s', id);
    LeftForGood(s, s', id);
    PickNeedsQueued(s', id);
  }

  lemma InitialInv()
    ensures Inv(INITIAL)
  {
  }

  lemma TaskOf(s: State, id: TaskId)
    requires Inv(s)
    ensures TaskInv(s, id)
  {
  }

  lemma PickNeedsQueued(s: State, id: TaskId)
    requires StatusOf(s.disk, id) != Some(Submitted)
    ensures Next(s, Pick(id)) == s
  {
  }

  /** A record that has left `submitted` does not come back to it. */
  lemma LeftForGood(s: State, s': State, id: TaskId)
    requires TaskInv(s, id) && TaskInv(s', id) && Advances(FilesOf(s.disk, id), FilesOf(s'.disk, id))
    requires StatusOf(s.disk, id).Some? && StatusOf(s.disk, id) != Some(Submitted)
    ensures StatusOf(s'.disk, id).Some? && StatusOf(s'.disk, id) != Some(Submitted)
  {
    hide PlaceInv;
    var r, r' := FilesOf(s.disk, id).task.value, FilesOf(s'.disk, id).task.value;
    HistoryNeverReturns(r'.history, |r.history| - 1);
  }

  function Rank(s: Status): nat {
    match s
    case Submitted => 0
    case Reserved => 1
    case Running => 2
    case _ => 3
  }

  lemma {:induction false} HistoryNeverReturns(history: seq<Event>, i: nat)
    requires ValidHistory(history) && i < |history|
    ensures Rank(history[i].status) + |history| - 1 - i <= Rank(history[|history| - 1].status)
    ensures i <= Rank(history[i].status)
    decreases |history|
  {
    var n := |history|;
    if i < n - 1 {
      assert ValidHistory(history[..n - 1]);
      HistoryNeverReturns(history[..n - 1], i);
      assert Edge(history[n - 2].status, history[n - 1].status);
    } else if i > 0 {
      assert ValidHistory(history[..n - 1]);
      HistoryNeverReturns(history[..n - 1], i - 1);
      assert Edge(history[n - 2].status, history[n - 1].status);
    }
  }

  /** Artifact truth at every crash point: what a terminal record claims is what the artifacts say. */
  lemma ArtifactTruth(actions: seq<Action>, id: TaskId)
    ensures var files := FilesOf(Run(INITIAL, actions).disk, id);
      files.task.Some? && Terminal(files.task.value.status) ==>
        && files.result == files.task
        && (files.task.value.status.Succeeded? ==> files.test == Some(Passed))
  {
    RunKeepsInv(INITIAL, actions);
    assert TaskInv(Run(INITIAL, actions), id);
  }

  /** What succeeded was executed, exactly once. */
  lemma SuccessIsOneExecution(actions: seq<Action>, id: TaskId)
    requires StatusOf(Run(INITIAL, actions).disk, id) == Some(Succeeded)
    ensures Run(INITIAL, actions).runs[id] == 1
  {
    hide Run, Inv;
    InitialInv();
    RunKeepsInv(INITIAL, actions);
    PlaceOf(Run(INITIAL, actions), id);
  }

  /** A terminal record never changes again, nor does any record disappear or change its payload. */
  lemma TerminalIsFrozen(before: seq<Action>, after: seq<Action>, id: TaskId)
    ensures var r := FilesOf(Run(INITIAL, before).disk, id).task;
      var r' := FilesOf(Run(INITIAL, before + after).disk, id).task;
      r.Some? ==> r'.Some? && r'.value.payloadHash == r.value.payloadHash && (Terminal(r.value.status) ==> r' == r)
  {
    RunConcat(INITIAL, before, after);
    RunKeepsInv(INITIAL, before);
    RunKeepsInv(Run(INITIAL, before), after);
    assert Advances(FilesOf(Run(INITIAL, before).disk, id), FilesOf(Run(INITIAL, before + after).disk, id));
  }

  /** The transition table is complete: no reachable step asks for a transition it forbids, or for an unknown task. */
  lemma EdgesAreComplete(actions: seq<Action>, a: Action)
    ensures var s := Run(INITIAL, actions);
      && (Asked(s, a).Some? ==> AskPlan(FilesOf(s.disk, s.stage.id), Asked(s, a).value).Write?)
      && (a.Cancel? ==> CancelPlan(FilesOf(s.disk, a.id), a.now).Write? == FilesOf(s.disk, a.id).task.Some?)
  {
    var s := Run(INITIAL, actions);
    RunKeepsInv(INITIAL, actions);
    if Asked(s, a).Some? {
      AskKeepsInv(s, a);
    } else if a.Cancel? {
      assert TaskInv(s, a.id);
      CancelEffect(a.id, FilesOf(s.disk, a.id), a.now, a.fault);
    }
  }

  /** Every stored history is a path of the table of length at most four, and `attempts` says whether it was reserved. */
  lemma HistoryIsAPath(actions: seq<Action>, id: TaskId)
    ensures var task := FilesOf(Run(INITIAL, actions).disk, id).task;
      task.Some? ==>
        && ValidHistory(task.value.history)
        && |task.value.history| <= 4
        && task.value.history[|task.value.history| - 1].status == task.value.status
        && task.value.attempts <= 1
        && (task.value.attempts == 1 <==> WasReserved(task.value.history))
  {
    RunKeepsInv(INITIAL, actions);
    assert TaskInv(Run(INITIAL, actions), id);
    var task := FilesOf(Run(INITIAL, actions).disk, id).task;
    if task.Some? {
      HistoryNeverReturns(task.value.history, |task.value.history| - 1);
    }
  }

  /** The statuses of a history, in order. */
  function Path(history: seq<Event>): seq<Status> {
    seq(|history|, i requires 0 <= i < |history| => history[i].status)
  }

  /** What may become of a task, in full. */
  predicate Lives(path: seq<Status>) {
    || path == [Submitted]
    || (|path| == 2 && path[0] == Submitted && path[1] in {Reserved, Blocked, Cancelled, Failed})
    || (|path| == 3 && path[..2] == [Submitted, Reserved] && path[2] in {Running, Blocked, Failed, Cancelled, Interrupted})
    || (|path| == 4 && path[..3] == [Submitted, Reserved, Running] && path[3] in {Succeeded, Failed, Blocked, Cancelled, Interrupted})
  }

  /** Over every run, a task's history is one of these. */
  lemma HistoriesAreThese(actions: seq<Action>, id: TaskId)
    ensures var task := FilesOf(Run(INITIAL, actions).disk, id).task;
      task.Some? ==> Lives(Path(task.value.history))
  {
    hide Run;
    HistoryIsAPath(actions, id);
    var task := FilesOf(Run(INITIAL, actions).disk, id).task;
    if task.Some? {
      PathLives(task.value.history);
    }
  }

  lemma PathLives(history: seq<Event>)
    requires ValidHistory(history) && |history| <= 4
    ensures Lives(Path(history))
  {
    var path := Path(history);
    assert |history| > 1 ==> Edge(history[0].status, history[1].status);
    assert |history| > 2 ==> Edge(history[1].status, history[2].status);
    assert |history| > 3 ==> Edge(history[2].status, history[3].status);
    assert |path| > 2 ==> path[..2] == [path[0], path[1]];
    assert |path| > 3 ==> path[..3] == [path[0], path[1], path[2]];
  }

  /** Cancellation wins: a queued record carries no flag, and a stored flag rules out every later step towards success. */
  lemma CancellationWins(before: seq<Action>, after: seq<Action>, id: TaskId)
    requires FilesOf(Run(INITIAL, before).disk, id).task.Some?
    ensures var r := FilesOf(Run(INITIAL, before).disk, id).task.value;
      var task := FilesOf(Run(INITIAL, before + after).disk, id).task;
      r.cancelRequested ==>
        && r.status != Submitted && r.status != Succeeded
        && task.Some? && task.value.cancelRequested
        && (task.value.status == r.status || (Terminal(task.value.status) && task.value.status != Succeeded))
  {
    RunConcat(INITIAL, before, after);
    RunKeepsInv(INITIAL, before);
    RunKeepsInv(Run(INITIAL, before), after);
    assert TaskInv(Run(INITIAL, before), id);
    assert Advances(FilesOf(Run(INITIAL, before).disk, id), FilesOf(Run(INITIAL, before + after).disk, id));
  }

  /** The executor's chance at a task is over: its record has left `submitted` and the worker is not on the way to it. */
  predicate Retired(s: State, id: TaskId) {
    && StatusOf(s.disk, id).Some? && !StatusOf(s.disk, id).value.Submitted?
    && s.stage != Preparing(id) && s.stage != Ready(id) && s.stage != Guarded(id) && s.stage != Launching(id)
  }

  lemma LateStatus(s: State, a: Action, id: TaskId)
    requires Inv(s) && StatusOf(s.disk, id).Some? && !StatusOf(s.disk, id).value.Submitted?
    ensures StatusOf(Next(s, a).disk, id).Some? && !StatusOf(Next(s, a).disk, id).value.Submitted?
  {
    hide Next, Inv, TaskInv;
    var s' := Next(s, a);
    StepKeepsInv(s, a);
    assert Advances(FilesOf(s.disk, id), FilesOf(s'.disk, id));
    TaskOf(s, id);
    TaskOf(s', id);
    LeftForGood(s, s', id);
  }

  lemma RetiredStep(s: State, a: Action, id: TaskId)
    requires Inv(s) && Retired(s, id)
    ensures Retired(Next(s, a), id) && Next(s, a).runs[id] == s.runs[id]
  {
    hide Inv;
    LateStatus(s, a, id);
    assert PlaceInv(s.stage, id, StatusOf(s.disk, id), s.runs[id]) by { PlaceOf(s, id); }
    StageAfterRetirement(s, a, id);
  }

  lemma PlaceOf(s: State, id: TaskId)
    requires Inv(s)
    ensures PlaceInv(s.stage, id, StatusOf(s.disk, id), s.runs[id])
  {
    assert TaskInv(s, id);
  }

  /** No step brings the worker back onto the way to executing a task that has left `submitted`. */
  lemma StageAfterRetirement(s: State, a: Action, id: TaskId)
    requires Retired(s, id) && PlaceInv(s.stage, id, StatusOf(s.disk, id), s.runs[id])
    ensures var s' := Next(s, a);
      && s'.stage != Preparing(id) && s'.stage != Ready(id) && s'.stage != Guarded(id) && s'.stage != Launching(id)
      && s'.runs[id] == s.runs[id]
  {
  }

  lemma {:induction false} RetiredForever(s: State, actions: seq<Action>, id: TaskId)
    requires Inv(s) && Retired(s, id)
    ensures Run(s, actions).runs[id] == s.runs[id]
    decreases |actions|
  {
    if actions != [] {
      StepKeepsInv(s, actions[0]);
      RetiredStep(s, actions[0], id);
      RetiredForever(Next(s, actions[0]), actions[1..], id);
    }
  }

  /** After a crash, a task that had been reserved or had begun to run is never executed (again), whatever follows. */
  lemma CrashEndsTheTask(before: seq<Action>, after: seq<Action>, id: TaskId)
    requires StatusOf(Run(INITIAL, before).disk, id).Some?
    requires StatusOf(Run(INITIAL, before).disk, id) != Some(Submitted)
    ensures Run(INITIAL, before + [Crash] + after).runs[id] == Run(INITIAL, before).runs[id]
  {
    var s := Run(INITIAL, before);
    RunConcat(INITIAL, before + [Crash], after);
    RunConcat(INITIAL, before, [Crash]);
    assert Run(s, [Crash]) == Run(Next(s, Crash), []) == Next(s, Crash);
    RunKeepsInv(INITIAL, before);
    StepKeepsInv(s, Crash);
    RetiredForever(Next(s, Crash), after, id);
  }

  /** A worker between ticks leaves no task half way: recovery and every exit of the tick close what they opened. */
  lemma IdleMeansSettled(actions: seq<Action>)
    requires Run(INITIAL, actions).stage.Idle?
    ensures Unfinished(Run(INITIAL, actions).disk) == {}
  {
    var s := Run(INITIAL, actions);
    RunKeepsInv(INITIAL, actions);
    forall id | id in s.disk ensures id !in Unfinished(s.disk) {
      assert TaskInv(s, id);
    }
  }

  /** A cancellation is durable exactly when the record file itself was replaced: one write for a live task, two for a queued one. */
  lemma CancelTakesHold(actions: seq<Action>, id: TaskId, now: int, fault: Fault)
    requires StatusOf(Run(INITIAL, actions).disk, id).Some?
    requires !Terminal(StatusOf(Run(INITIAL, actions).disk, id).value)
    ensures var s := Run(INITIAL, actions);
      var needed := if StatusOf(s.disk, id) == Some(Submitted) then 2 else 1;
      FilesOf(Next(s, Cancel(id, now, fault)).disk, id).task.value.cancelRequested
      <==> FilesOf(s.disk, id).task.value.cancelRequested || fault.NoFault? || fault.writes >= needed
  {
    var s := Run(INITIAL, actions);
    RunKeepsInv(INITIAL, actions);
    assert TaskInv(s, id);
    CommitIsLocal(s.disk, id, CancelPlan(FilesOf(s.disk, id), now), fault);
  }

  lemma RunThen(s: State, actions: seq<Action>, a: Action)
    ensures Run(s, actions + [a]) == Next(Run(s, actions), a)
  {
    RunConcat(s, actions, [a]);
    assert Run(Run(s, actions), [a]) == Run(Next(Run(s, actions), a), []);
  }

  /**
   A cancellation of a queued task that stops between its two writes is lost: the
   artifact says `cancelled`, yet the task is later executed and succeeds.
   */
  lemma LostCancellation(request: Request) returns (lost: seq<Action>, rest: seq<Action>)
    requires !request.coding
    ensures lost != [] && lost[|lost| - 1] == Cancel(request.taskId, request.requestedAt, StopAfter(1))
    ensures var s := Run(INITIAL, lost);
      var s' := Run(s, rest);
      && FilesOf(s.disk, request.taskId).result.Some?
      && FilesOf(s.disk, request.taskId).result.value.status == Cancelled
      && StatusOf(s.disk, request.taskId) == Some(Submitted)
      && StatusOf(s'.disk, request.taskId) == Some(Succeeded)
      && s'.runs[request.taskId] == 1
  {
    var id, t := request.taskId, request.requestedAt;
    lost := LostPrefix(request);
    var first := LaunchPath(Run(INITIAL, lost), id, t);
    var second := SuccessPath(Run(Run(INITIAL, lost), first), id, t);
    rest := first + second;
    RunConcat(Run(INITIAL, lost), first, second);
  }

  lemma LaunchPath(s: State, id: TaskId, t: int) returns (path: seq<Action>)
    requires s.stage == Idle && s.runs == multiset{}
    requires FilesOf(s.disk, id).task.Some? && StatusOf(s.disk, id) == Some(Submitted)
    requires !FilesOf(s.disk, id).task.value.cancelRequested
    ensures var s' := Run(s, path);
      && s'.stage == Launching(id) && s'.runs == multiset{}
      && StatusOf(s'.disk, id) == Some(Running) && !FilesOf(s'.disk, id).task.value.cancelRequested
  {
    CleanReserve(s, id, t);
    var reserved := Next(Next(s, Pick(id)), Reserve(t, NoFault));
    CleanGuard(reserved, id);
    var guarded := Next(Next(reserved, Prepare(Cloned)), Guard(false, false));
    CleanAsk(guarded, Begin(t, NoFault));
    path := PathOf5(s, Pick(id), Reserve(t, NoFault), Prepare(Cloned), Guard(false, false), Begin(t, NoFault));
  }

  lemma CleanReserve(s: State, id: TaskId, t: int)
    requires s.stage == Idle && StatusOf(s.disk, id) == Some(Submitted)
    requires !FilesOf(s.disk, id).task.value.cancelRequested
    ensures var s' := Next(Next(s, Pick(id)), Reserve(t, NoFault));
      && s'.stage == Preparing(id) && s'.runs == s.runs
      && StatusOf(s'.disk, id) == Some(Reserved) && !FilesOf(s'.disk, id).task.value.cancelRequested
  {
    assert Next(s, Pick(id)) == s.(stage := Picked(id));
    CleanAsk(s.(stage := Picked(id)), Reserve(t, NoFault));
  }

  lemma CleanGuard(s: State, id: TaskId)
    requires s.stage == Preparing(id)
    requires FilesOf(s.disk, id).task.Some? && !FilesOf(s.disk, id).task.value.cancelRequested
    ensures Next(Next(s, Prepare(Cloned)), Guard(false, false)) == s.(stage := Guarded(id))
  {
    assert Next(s, Prepare(Cloned)) == s.(stage := Ready(id));
  }

  lemma PathOf5(s: State, a: Action, b: Action, c: Action, d: Action, e: Action) returns (path: seq<Action>)
    ensures Run(s, path) == Next(Next(Next(Next(Next(s, a), b), c), d), e)
  {
    path := Follow(s, [], a);
    path := Follow(s, path, b);
    path := Follow(s, path, c);
    path := Follow(s, path, d);
    path := Follow(s, path, e);
  }

  lemma CleanAsk(s: State, a: Action)
    requires Asked(s, a).Some? && Asked(s, a).value.fault.NoFault?
    requires FilesOf(s.disk, s.stage.id).task.Some? && !FilesOf(s.disk, s.stage.id).task.value.cancelRequested
    requires !Terminal(FilesOf(s.disk, s.stage.id).task.value.status)
    requires Edge(FilesOf(s.disk, s.stage.id).task.value.status, Asked(s, a).value.status)
    requires !Terminal(Asked(s, a).value.status)
    ensures var s' := Next(s, a);
      && s'.stage == Asked(s, a).value.onward && s'.runs == s.runs
      && StatusOf(s'.disk, s.stage.id) == Some(Asked(s, a).value.status)
      && !FilesOf(s'.disk, s.stage.id).task.value.cancelRequested
  {
  }

  lemma SuccessPath(s: State, id: TaskId, t: int) returns (path: seq<Action>)
    requires s.stage == Launching(id) && s.runs == multiset{}
    requires FilesOf(s.disk, id).task.Some? && StatusOf(s.disk, id) == Some(Running)
    requires !FilesOf(s.disk, id).task.value.cancelRequested
    ensures StatusOf(Run(s, path).disk, id) == Some(Succeeded) && Run(s, path).runs[id] == 1
  {
    path := Follow(s, [], Invoke);
    path := Follow(s, path, ExecutorWrites(Passed));
    var tested := Run(s, path);
    assert FilesOf(tested.disk, id) == FilesOf(s.disk, id).(test := Some(Passed)) && tested.runs[id] == 1;
    path := Follow(s, path, ExecutorReturns(Succeeded, "fixture_completed"));
    assert Run(s, path) == tested.(stage := Finishing(id, Succeeded, "fixture_completed"));
    path := Follow(s, path, Finish(false, t, NoFault));
  }

  lemma Follow(s: State, actions: seq<Action>, a: Action) returns (longer: seq<Action>)
    ensures longer == actions + [a] && Run(s, longer) == Next(Run(s, actions), a)
  {
    RunThen(s, actions, a);
    longer := actions + [a];
  }

  lemma LostPrefix(request: Request) returns (lost: seq<Action>)
    requires !request.coding
    ensures lost != [] && lost[|lost| - 1] == Cancel(request.taskId, request.requestedAt, StopAfter(1))
    ensures var s := Run(INITIAL, lost);
      && s.stage == Idle && s.runs == multiset{}
      && FilesOf(s.disk, request.taskId).task == Some(NewRecord(request, Clock(request.requestedAt, request.requestedAt)))
      && FilesOf(s.disk, request.taskId).result.Some?
      && FilesOf(s.disk, request.taskId).result.value.status == Cancelled
  {
    var id, t := request.taskId, request.requestedAt;
    assert Admitted(map[]) == {} && Unfinished(INITIAL.disk) == {};
    lost := Follow(INITIAL, [], Boot);
    lost := Follow(INITIAL, lost, RecoveryDone);
    lost := Follow(INITIAL, lost, Submit(request, request.baseRef, Clock(t, t), NoFault));
    assert FilesOf(Run(INITIAL, lost).disk, id).task == Some(NewRecord(request, Clock(t, t)));
    lost := Follow(INITIAL, lost, Cancel(id, t, StopAfter(1)));
  }
}
