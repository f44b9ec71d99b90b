/**
 The single-host task store: one record file per task, plus the task's audit
 artifacts. Every durable write is one step of a write list, so that a section
 under the state lock can stop after any of its writes.
 */
module WorkStore {
  import opened Options

  type TaskId = string

  const CODING_BASE := "cde8c424b687c3ef99b98e4764da4a67c973d8b2"
  const RETENTION := 256
  const OLDEST_REQUEST_MS := 7 * 24 * 3600 * 1000
  const NEWEST_REQUEST_MS := 5 * 60 * 1000

  datatype Request = Request(taskId: TaskId, coding: bool, baseRef: string, requestedAt: int, text: string)

  // sha256 of the canonical JSON, taken as injective.
  datatype Digest = Digest(request: Request)

  datatype Status =
    | Submitted | Reserved | Running
    | Succeeded | Failed | Blocked | Cancelled | Interrupted

  predicate Terminal(s: Status) {
    s.Succeeded? || s.Failed? || s.Blocked? || s.Cancelled? || s.Interrupted?
  }

  predicate Edge(from: Status, to: Status) {
    match from
    case Submitted => to.Reserved? || to.Blocked? || to.Cancelled? || to.Failed?
    case Reserved => to.Running? || to.Blocked? || to.Failed? || to.Cancelled? || to.Interrupted?
    case Running => Terminal(to)
    case _ => false
  }

  datatype Event = Event(status: Status, at: int, code: string)

  // `checkedAt` is history, not stored: when the request was found fresh.
  datatype Record = Record(
    taskId: TaskId, request: Request, payloadHash: Digest, checkedAt: int, status: Status,
    attempts: nat, cancelRequested: bool, cancelRequestedAt: Option<int>,
    baseSha: Option<string>, startedAt: Option<int>, finishedAt: Option<int>,
    history: seq<Event>)

  datatype TestResult = NotRun | NotCompleted(code: string) | CheckFailed(code: string) | Passed

  /** What is durable for one task: its audit directory, two artifacts and its record file. */
  datatype Files = Files(dir: bool, test: Option<TestResult>, result: Option<Record>, task: Option<Record>)

  const ABSENT := Files(false, None, None, None)

  type Disk = map<TaskId, Files>

  function FilesOf(disk: Disk, id: TaskId): Files {
    if id in disk then disk[id] else ABSENT
  }

  function Admitted(disk: Disk): set<TaskId> {
    set id | id in disk && disk[id].task.Some?
  }

  datatype Error = Rejected(code: string) | InvalidTransition | MissingRecord | StorageError

  /** A locked section either refuses, or writes a list of successive versions of one task's files. */
  datatype Plan<+A> = Refuse(error: Error) | Write(value: A, versions: seq<Files>)

  /** `StopAfter(k)`: storage gives out once k writes have taken effect. */
  datatype Fault = NoFault | StopAfter(writes: nat)

  datatype Outcome<+A> = Returned(value: A) | Raised(error: Error)

  /** How many of the section's writes take effect. */
  function Effective<A>(plan: Plan<A>, fault: Fault): nat {
    if plan.Refuse? then 0
    else if fault.StopAfter? && fault.writes <= |plan.versions| then fault.writes
    else |plan.versions|
  }

  function Commit<A>(disk: Disk, id: TaskId, plan: Plan<A>, fault: Fault): Disk {
    var n := Effective(plan, fault);
    if n == 0 then disk else disk[id := plan.versions[n - 1]]
  }

  function Answer<A>(plan: Plan<A>, fault: Fault): Outcome<A> {
    match plan
    case Refuse(error) => Raised(error)
    case Write(value, versions) =>
      if fault.StopAfter? && fault.writes <= |versions| then Raised(StorageError) else Returned(value)
  }

  // ----- submit

  function AllowedBase(request: Request, fixtureBase: string): string {
    if request.coding then CODING_BASE else fixtureBase
  }

  predicate Fresh(request: Request, now: int) {
    -NEWEST_REQUEST_MS <= now - request.requestedAt <= OLDEST_REQUEST_MS
  }

  /** An admission reads the clock twice: to check that the request is fresh, and later for the record's history. */
  datatype Clock = Clock(checked: int, stamped: int)

  function NewRecord(request: Request, clock: Clock): Record {
    Record(request.taskId, request, Digest(request), clock.checked, Submitted, 0, false, None, None, None, None,
           [Event(Submitted, clock.stamped, "accepted")])
  }

  function AdmissionVersions(record: Record): seq<Files> {
    [Files(true, None, None, None),
     Files(true, Some(NotRun), None, None),
     Files(true, Some(NotRun), Some(record), None),
     Files(true, Some(NotRun), Some(record), Some(record))]
  }

  function SubmitPlan(disk: Disk, request: Request, fixtureBase: string, clock: Clock): Plan<(Record, bool)> {
    var files := FilesOf(disk, request.taskId);
    if files.task.Some? then
      if files.task.value.payloadHash != Digest(request) then Refuse(Rejected("task_id_payload_conflict"))
      else Write((files.task.value, false), [])
    else if !Fresh(request, clock.checked) then Refuse(Rejected("stale_or_future_request"))
    else if request.baseRef != AllowedBase(request, fixtureBase) then Refuse(Rejected("base_not_allowlisted"))
    else if |Admitted(disk)| >= RETENTION then Refuse(Rejected("retention_capacity_reached"))
    else if files.dir then Refuse(StorageError)  // an orphan directory: mkdir fails
    else Write((NewRecord(request, clock), true), AdmissionVersions(NewRecord(request, clock)))
  }

  // ----- transitions

  datatype Extra = NoExtra | Reservation(attempts: nat, baseSha: string) | Start(at: int)

  function WithExtra(record: Record, extra: Extra): Record {
    match extra
    case NoExtra => record
    case Reservation(attempts, baseSha) => record.(attempts := attempts, baseSha := Some(baseSha))
    case Start(at) => record.(startedAt := Some(at))
  }

  function Moved(record: Record, status: Status, code: string, extra: Extra, now: int): Record {
    var next := WithExtra(record, extra).(status := status, history := record.history + [Event(status, now, code)]);
    if Terminal(status) then next.(finishedAt := Some(now)) else next
  }

  // Artifact publication precedes terminal truth.
  function CommitVersions(files: Files, next: Record): seq<Files> {
    if Terminal(next.status) then
      [files.(result := Some(next)), files.(result := Some(next), task := Some(next))]
    else
      [files.(task := Some(next))]
  }

  function LockedPlan(files: Files, record: Record, status: Status, code: string, extra: Extra, now: int): Plan<Record> {
    if !Edge(record.status, status) then Refuse(InvalidTransition)
    else
      var next := Moved(record, status, code, extra, now);
      Write(next, CommitVersions(files, next))
  }

  function TransitionPlan(files: Files, status: Status, code: string, extra: Extra, now: int): Plan<Record> {
    if files.task.None? then Refuse(MissingRecord)
    else
      var record := files.task.value;
      if Terminal(record.status) then Write(record, [])
      else if record.cancelRequested && (status.Reserved? || status.Running? || status.Succeeded?) then
        LockedPlan(files, record, Cancelled, "cancellation_requested", extra, now)
      else
        LockedPlan(files, record, status, code, extra, now)
  }

  function CancelPlan(files: Files, now: int): Plan<Record> {
    if files.task.None? then Refuse(Rejected("unknown_task"))
    else
      var record := files.task.value;
      if Terminal(record.status) then Write(record, [])
      else
        var flagged := record.(cancelRequested := true, cancelRequestedAt := Some(now));
        if record.status == Submitted then
          LockedPlan(files, flagged, Cancelled, "cancelled_before_reservation", NoExtra, now)
        else
          Write(flagged, [files.(task := Some(flagged))])
  }

  /** The store as the runner, the receiver and the CLI use it; each method is one section under the lock. */
  class Store {
    var disk: Disk

    constructor ()
      ensures disk == map[]
    {
      disk := map[];
    }

    /** One atomic replacement of a file. It fails without effect when storage has given out. */
    method Put(id: TaskId, files: Files, fault: Fault) returns (failed: bool, left: Fault)
      modifies this
      ensures failed <==> fault == StopAfter(0)
      ensures failed ==> disk == old(disk)
      ensures !failed ==> disk == old(disk)[id := files]
      ensures left == if fault.StopAfter? && fault.writes > 0 then StopAfter(fault.writes - 1) else fault
    {
      if fault == StopAfter(0) {
        return true, fault;
      }
      disk := disk[id := files];
      failed, left := false, if fault.StopAfter? then StopAfter(fault.writes - 1) else fault;
    }

    method Submit(request: Request, fixtureBase: string, clock: Clock, fault: Fault)
      returns (answer: Outcome<(Record, bool)>)
      modifies this
      ensures disk == Commit(old(disk), request.taskId, SubmitPlan(old(disk), request, fixtureBase, clock), fault)
      ensures answer == Answer(SubmitPlan(old(disk), request, fixtureBase, clock), fault)
    {
      var id := request.taskId;
      var files := FilesOf(disk, id);
      if files.task.Some? {
        var existing := files.task.value;
        if existing.payloadHash != Digest(request) {
          return Raised(Rejected("task_id_payload_conflict"));
        }
        if fault == StopAfter(0) {
          return Raised(StorageError);
        }
        return Returned((existing, false));
      }
      if !Fresh(request, clock.checked) {
        return Raised(Rejected("stale_or_future_request"));
      }
      if request.baseRef != AllowedBase(request, fixtureBase) {
        return Raised(Rejected("base_not_allowlisted"));
      }
      if |Admitted(disk)| >= RETENTION {
        return Raised(Rejected("retention_capacity_reached"));
      }
      if files.dir {
        return Raised(StorageError);
      }
      var record := NewRecord(request, clock);
      hide AdmissionVersions, NewRecord, Fresh, AllowedBase;
      var failed := PutAdmission(id, record, fault);
      answer := if failed then Raised(StorageError) else Returned((record, true));
    }

    /** The writes of an admission, the record last. */
    method PutAdmission(id: TaskId, record: Record, fault: Fault) returns (failed: bool)
      modifies this
      ensures disk == Commit(old(disk), id, Write((record, true), AdmissionVersions(record)), fault)
      ensures failed <==> fault.StopAfter? && fault.writes <= 4
    {
      var versions := AdmissionVersions(record);
      var left: Fault;
      failed, left := Put(id, versions[0], fault);
      if failed { return; }
      failed, left := Put(id, versions[1], left);
      if failed { return; }
      failed, left := Put(id, versions[2], left);
      if failed { return; }
      failed, left := Put(id, versions[3], left);
      failed := failed || left == StopAfter(0);
    }

    method TransitionLocked(record: Record, status: Status, code: string, extra: Extra, now: int, fault: Fault)
      returns (answer: Outcome<Record>)
      modifies this
      ensures var plan := LockedPlan(FilesOf(old(disk), record.taskId), record, status, code, extra, now);
        disk == Commit(old(disk), record.taskId, plan, fault) && answer == Answer(plan, fault)
    {
      if !Edge(record.status, status) {
        return Raised(InvalidTransition);
      }
      var next := Moved(record, status, code, extra, now);
      var failed, left := false, fault;
      if Terminal(status) {
        failed, left := Put(record.taskId, FilesOf(disk, record.taskId).(result := Some(next)), left);
        if failed { return Raised(StorageError); }
      }
      failed, left := Put(record.taskId, FilesOf(disk, record.taskId).(task := Some(next)), left);
      if failed || left == StopAfter(0) { return Raised(StorageError); }
      return Returned(next);
    }

    method Transition(id: TaskId, status: Status, code: string, extra: Extra, now: int, fault: Fault)
      returns (answer: Outcome<Record>)
      requires FilesOf(disk, id).task.Some? ==> FilesOf(disk, id).task.value.taskId == id
      modifies this
      ensures var plan := TransitionPlan(FilesOf(old(disk), id), status, code, extra, now);
        disk == Commit(old(disk), id, plan, fault) && answer == Answer(plan, fault)
    {
      var loaded := FilesOf(disk, id).task;
      if loaded.None? {
        return Raised(MissingRecord);
      }
      var record := loaded.value;
      if Terminal(record.status) {
        return if fault == StopAfter(0) then Raised(StorageError) else Returned(record);
      }
      var status', code' := status, code;
      if record.cancelRequested && (status.Reserved? || status.Running? || status.Succeeded?) {
        status', code' := Cancelled, "cancellation_requested";
      }
      answer := TransitionLocked(record, status', code', extra, now, fault);
    }

    method Cancel(id: TaskId, now: int, fault: Fault) returns (answer: Outcome<Record>)
      requires FilesOf(disk, id).task.Some? ==> FilesOf(disk, id).task.value.taskId == id
      modifies this
      ensures var plan := CancelPlan(FilesOf(old(disk), id), now);
        disk == Commit(old(disk), id, plan, fault) && answer == Answer(plan, fault)
    {
      var loaded := FilesOf(disk, id).task;
      if loaded.None? {
        return Raised(Rejected("unknown_task"));
      }
      var record := loaded.value;
      if Terminal(record.status) {
        return if fault == StopAfter(0) then Raised(StorageError) else Returned(record);
      }
      record := record.(cancelRequested := true, cancelRequestedAt := Some(now));
      if record.status == Submitted {
        answer := TransitionLocked(record, Cancelled, "cancelled_before_reservation", NoExtra, now, fault);
        return;
      }
      var failed, left := Put(id, FilesOf(disk, id).(task := Some(record)), fault);
      return if failed || left == StopAfter(0) then Raised(StorageError) else Returned(record);
    }
  }
}
