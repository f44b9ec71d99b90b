/**
 What the receiver's answer to a message must be, said of the message, of the store before and after, and of the reply
 alone.
 */
module Answers {
  import opened Options
  import opened WorkStore
  import opened WorkRunner
  import opened Handoff

  /** A summary tells of a record, field by field. */
  predicate Reports(data: Summary, r: Record) {
    && data.taskId == r.taskId && data.status == r.status && data.payloadHash == r.payloadHash
    && data.attempts == r.attempts && data.cancelRequested == r.cancelRequested
    && (r.history != [] ==> data.submittedAt == r.history[0].at)
    && data.startedAt == r.startedAt && data.finishedAt == r.finishedAt
    && (data.terminal <==> r.status in {Succeeded, Failed, Blocked, Cancelled, Interrupted})
  }

  predicate Declines(reply: Option<Reply>, code: string) {
    reply == Some(Declined(code))
  }

  /** The reply is about the task as the store now holds it. */
  predicate TellsOf(disk: Disk, id: TaskId, reply: Option<Reply>, created: Option<bool>) {
    && FilesOf(disk, id).task.Some?
    && reply.Some? && reply.value.Completed? && reply.value.created == created
    && Reports(reply.value.data, FilesOf(disk, id).task.value)
  }

  ghost predicate OnlyThis(disk: Disk, disk': Disk, id: TaskId) {
    forall x :: x != id ==> FilesOf(disk', x) == FilesOf(disk, x)
  }

  /** A status request reads. */
  predicate StatusAnswered(disk: Disk, disk': Disk, id: TaskId, reply: Option<Reply>) {
    && disk' == disk
    && (FilesOf(disk, id).task.None? ==> Declines(reply, "unknown_task"))
    && (FilesOf(disk, id).task.Some? ==> TellsOf(disk, id, reply, None))
  }

  /** A cancellation ends a queued task, flags one under way, and leaves one alone that has ended. */
  ghost predicate CancelAnswered(disk: Disk, disk': Disk, id: TaskId, now: int, reply: Option<Reply>) {
    var files, files' := FilesOf(disk, id), FilesOf(disk', id);
    && OnlyThis(disk, disk', id)
    && (files.task.None? ==> disk' == disk && Declines(reply, "unknown_task"))
    && (files.task.Some? ==>
          && TellsOf(disk', id, reply, None)
          && var r, r' := files.task.value, files'.task.value;
             && (r.status.Submitted? ==>
                   && r'.status.Cancelled? && r'.cancelRequested && r'.cancelRequestedAt == r'.finishedAt == Some(now)
                   && r'.history == r.history + [Event(Cancelled, now, "cancelled_before_reservation")]
                   && r'.request == r.request && r'.attempts == r.attempts
                   && files'.result == files'.task && files'.test == files.test)
             && (r.status.Reserved? || r.status.Running? ==>
                   r'.cancelRequested && r' == r.(cancelRequested := true, cancelRequestedAt := Some(now))
                   && files' == files.(task := files'.task))
             && (r.status in {Succeeded, Failed, Blocked, Cancelled, Interrupted} ==> disk' == disk))
  }

  /** The new record, with the artifacts beside it. */
  predicate Admits(files: Files, request: Request, clock: Clock) {
    && files.dir && files.task.Some? && files.result == files.task && files.test == Some(NotRun)
    && var r := files.task.value;
       && r.taskId == request.taskId && r.request == request && r.payloadHash == Digest(request)
       && r.status.Submitted? && r.attempts == 0 && !r.cancelRequested
       && r.cancelRequestedAt.None? && r.baseSha.None? && r.startedAt.None? && r.finishedAt.None?
       && r.history == [Event(Submitted, clock.stamped, "accepted")]
  }

  /** No more than a week old, and no more than five minutes ahead, in milliseconds. */
  predicate InTime(request: Request, clock: Clock) {
    request.requestedAt - 300000 <= clock.checked <= request.requestedAt + 604800000
  }

  /** A known task is told again, if it is the same; a new one is stored, if it is in time and there is room. */
  ghost predicate SubmitAnswered(disk: Disk, disk': Disk, request: Request, clock: Clock, reply: Option<Reply>) {
    var id, files := request.taskId, FilesOf(disk, request.taskId);
    if files.task.Some? then
      && disk' == disk
      && (if files.task.value.payloadHash == Digest(request) then TellsOf(disk, id, reply, Some(false))
          else Declines(reply, "task_id_payload_conflict"))
    else if !InTime(request, clock) then disk' == disk && Declines(reply, "stale_or_future_request")
    else if |Admitted(disk)| >= 256 then disk' == disk && Declines(reply, "retention_capacity_reached")
    else if files.dir then disk' == disk && reply.None?
    else OnlyThis(disk, disk', id) && Admits(FilesOf(disk', id), request, clock) && TellsOf(disk', id, reply, Some(true))
  }

  /** The base that a request may name: one is fixed for coding, the other is the operator's. */
  predicate OnAllowedBase(request: Request, base: string) {
    request.baseRef == if request.coding then "cde8c424b687c3ef99b98e4764da4a67c973d8b2" else base
  }

  ghost predicate AnswersRightly(disk: Disk, disk': Disk, rid: RequestId, m: Message, base: string, clock: Clock,
                                  reply: Option<Reply>) {
    if m.schema != "0.1" || m.requestId != rid then disk' == disk && Declines(reply, "invalid_handoff")
    else if m.capability == "work.status" then
      if m.arguments.TaskRef? then StatusAnswered(disk, disk', m.arguments.taskId, reply)
      else disk' == disk && Declines(reply, "invalid_work_arguments")
    else if m.capability == "work.cancel" then
      if m.arguments.TaskRef? then CancelAnswered(disk, disk', m.arguments.taskId, clock.stamped, reply)
      else disk' == disk && Declines(reply, "invalid_work_arguments")
    else if m.capability == "work.submit" then
      if !m.arguments.Contract? then disk' == disk && Declines(reply, "invalid_work_arguments")
      else if !OnAllowedBase(m.arguments.request, base) then disk' == disk && Declines(reply, "base_not_allowlisted")
      else SubmitAnswered(disk, disk', m.arguments.request, clock, reply)
    else disk' == disk && Declines(reply, "unsupported_work_operation")
  }

  ghost predicate EverRight(rid: RequestId, m: Message, base: string, clock: Clock, reply: Reply) {
    exists disk, disk' :: AnswersRightly(disk, disk', rid, m, base, clock, Some(reply))
  }

  lemma CancelIsRight(disk: Disk, id: TaskId, now: int, fault: Fault)
    ensures var plan := CancelPlan(FilesOf(disk, id), now);
      var disk' := Commit(disk, id, plan, fault);
      var answered := Reported(disk', Answer(plan, fault), None);
      fault.NoFault? || answered.reply.Some? ==> CancelAnswered(disk, disk', id, now, answered.reply)
  {
    CommitIsLocal(disk, id, CancelPlan(FilesOf(disk, id), now), fault);
  }

  lemma SubmitIsRight(disk: Disk, request: Request, base: string, clock: Clock, fault: Fault)
    requires OnAllowedBase(request, base)
    ensures var plan := SubmitPlan(disk, request, base, clock);
      var disk' := Commit(disk, request.taskId, plan, fault);
      var answer := Answer(plan, fault);
      var answered := if answer.Returned? then Reported(disk', Returned(answer.value.0), Some(answer.value.1))
                      else Reported(disk', Raised(answer.error), None);
      fault.NoFault? || answered.reply.Some? ==> SubmitAnswered(disk, disk', request, clock, answered.reply)
  {
    hide Admitted;
    CommitIsLocal(disk, request.taskId, SubmitPlan(disk, request, base, clock), fault);
  }

  /** Every reply is right, and so is the silence when nothing failed. */
  lemma AnswerIsRight(disk: Disk, rid: RequestId, m: Message, base: string, clock: Clock, fault: Fault)
    ensures var answered := AnswerTo(disk, rid, m, base, clock, fault);
      fault.NoFault? || answered.reply.Some? ==> AnswersRightly(disk, answered.disk, rid, m, base, clock, answered.reply)
  {
    hide SubmitPlan, CancelPlan, Admitted, SubmitAnswered, CancelAnswered, Commit;
    if m.schema == "0.1" && m.requestId == rid {
      if m.capability == "work.submit" && m.arguments.Contract? && OnAllowedBase(m.arguments.request, base) {
        SubmitIsRight(disk, m.arguments.request, base, clock, fault);
      } else if m.capability == "work.cancel" && m.arguments.TaskRef? {
        CancelIsRight(disk, m.arguments.taskId, clock.stamped, fault);
      }
    }
  }

  /** Only a submission or a cancellation writes, even when it is cut short, and it writes its own task's files. */
  lemma StatusOnlyReads(disk: Disk, rid: RequestId, m: Message, base: string, clock: Clock, fault: Fault)
    ensures var disk' := AnswerTo(disk, rid, m, base, clock, fault).disk;
      && (m.capability != "work.submit" && m.capability != "work.cancel" ==> disk' == disk)
      && forall x :: x != Subject(m) ==> FilesOf(disk', x) == FilesOf(disk, x)
  {
    hide SubmitPlan, CancelPlan;
    if m.arguments.Contract? {
      CommitIsLocal(disk, Subject(m), SubmitPlan(disk, m.arguments.request, base, clock), fault);
    } else {
      CommitIsLocal(disk, Subject(m), CancelPlan(FilesOf(disk, Subject(m)), clock.stamped), fault);
    }
  }

  function Subject(m: Message): TaskId {
    match m.arguments
    case Contract(request) => request.taskId
    case TaskRef(id) => id
    case OtherArguments => ""
  }

  /** The arguments fit the operation, and a request names its base. */
  predicate Sensible(m: Message, base: string) {
    || (m.capability == "work.submit" && m.arguments.Contract? && OnAllowedBase(m.arguments.request, base))
    || (m.capability in {"work.status", "work.cancel"} && m.arguments.TaskRef?)
  }

  /** Whatever is in the store, this is what the receiver says to such a message. */
  ghost predicate AlwaysDeclined(rid: RequestId, m: Message, base: string, code: string) {
    forall disk, clock :: AnswersRightly(disk, disk, rid, m, base, clock, Some(Declined(code)))
  }

  /** The client's own check refuses exactly what is not sensible, in the receiver's words. */
  lemma ClientAndReceiverAgree(rid: RequestId, m: Message, base: string)
    requires m.schema == "0.1" && m.requestId == rid
    ensures var checked := Validated(m, rid, base);
      && (checked.Returned? <==> Sensible(m, base))
      && (checked.Raised? ==> checked.error.Rejected? && AlwaysDeclined(rid, m, base, checked.error.code))
  {
  }

  /** An admission that storage cuts short leaves no task, but its directory from the first write on. */
  lemma HalfAdmission(disk: Disk, request: Request, base: string, clock: Clock, writes: nat)
    requires FilesOf(disk, request.taskId) == ABSENT && InTime(request, clock) && OnAllowedBase(request, base)
    requires |Admitted(disk)| < 256
    ensures var plan := SubmitPlan(disk, request, base, clock);
      var files := FilesOf(Commit(disk, request.taskId, plan, StopAfter(writes)), request.taskId);
      && (files.task.Some? <==> writes >= 4) && (files.dir <==> writes >= 1)
      && (files.test.Some? <==> writes >= 2) && (files.result.Some? <==> writes >= 3)
      && (Answer(plan, StopAfter(writes)) == Raised(StorageError) <==> writes <= 4)
  {
    hide Admitted;
  }

  /** Over every run: a response in the outbox is right for its request, on a store that the run went through. */
  lemma ResponsesAreRight(base: string, moves: seq<Move>, rid: RequestId)
    requires rid in RunAll(START, base, moves).outbox
    ensures var h := RunAll(START, base, moves);
      && rid in h.inbox
      && exists i, disk' :: 0 <= i < |h.log| && h.log[i].rid == rid &&
           AnswersRightly(h.log[i].seen, disk', rid, h.inbox[rid], base, h.log[i].clock, Some(h.outbox[rid].reply))
  {
    hide RunAll, AnswerTo, AnswersRightly;
    var h := RunAll(START, base, moves);
    ResponseIsForItsRequest(base, moves, rid, Message("", "", "", OtherArguments));
    var i :| 0 <= i < |h.log| && h.log[i].rid == rid && h.log[i].message == h.inbox[rid] &&
      AnswerTo(h.log[i].seen, rid, h.inbox[rid], base, h.log[i].clock, NoFault).reply == Some(h.outbox[rid].reply);
    AnswerIsRight(h.log[i].seen, rid, h.inbox[rid], base, h.log[i].clock, NoFault);
  }
}
