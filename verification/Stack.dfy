/**
 The whole stack as one system: the Issues poller, whose handler for work requests is the client of the
 handoff, the receiver, the worker, and everybody else who submits and cancels. What a comment says is
 traced to the execution it is about.
 */
module Stack {
  import opened Options
  import C = Control
  import H = Handoff
  import S = WorkStore
  import W = WorkRunner
  import A = Answers

  /** How the arguments of a request are read, and how responses are written into results. */
  datatype Codec = Codec(parse: string -> H.Arguments, render: H.Response -> string, pending: H.Message -> string)

  /** The bases of the receiver's profile and of the client's own check. */
  datatype Site = Site(codec: Codec, base: string, clientBase: string)

  datatype System = System(control: C.State, handoff: H.System, asked: bool)

  const START := System(C.INITIAL, H.START, false)

  /** Between the client's publication and its return, everybody else may move. */
  datatype Move =
    | Poller(action: C.Action)
    | Elsewhere(move: H.Move)
    | Ask
    | Hear
    | GiveUp
    | Raise(end: C.HandlerEnd)

  predicate IsWork(capability: Option<string>) {
    capability == Some("work.submit") || capability == Some("work.status") || capability == Some("work.cancel")
  }

  /** The poller is inside the handler of a work request. */
  predicate AtWork(s: System) {
    s.control.stage.Invoking? && IsWork(s.control.stage.record.capability)
  }

  function MessageFor(codec: Codec, record: C.Audit): H.Message
    requires IsWork(record.capability)
  {
    H.Message("0.1", record.requestId, record.capability.value, codec.parse(record.arguments.content))
  }

  predicate CanAsk(site: Site, s: System)
    requires AtWork(s)
  {
    var message := MessageFor(site.codec, s.control.stage.record);
    && H.Validated(message, message.requestId, site.clientBase).Returned?
    && H.Published(s.handoff.inbox, message.requestId, message).Returned?
  }

  /** How the handler ends when it finds a response. */
  function HeardEnd(site: Site, s: System): C.HandlerEnd
    requires AtWork(s) && s.control.stage.record.requestId in s.handoff.outbox
  {
    var message := MessageFor(site.codec, s.control.stage.record);
    var response := s.handoff.outbox[message.requestId];
    if H.Accepts(message.requestId, message, response) then C.Result(C.Text(site.codec.render(response), false))
    else C.HandlerFailure
  }

  function ControlPart(site: Site, s: System, m: Move): seq<C.Action> {
    match m
    case Poller(a) => if a.Invoke? && AtWork(s) then [] else [a]
    case Elsewhere(_) => []
    case Ask => if AtWork(s) && !s.asked && !CanAsk(site, s) then [C.Invoke(C.HandlerFailure)] else []
    case Hear =>
      if AtWork(s) && s.asked && s.control.stage.record.requestId in s.handoff.outbox
      then [C.Invoke(HeardEnd(site, s))] else []
    case GiveUp =>
      if AtWork(s) && s.asked
      then [C.Invoke(C.Result(C.Text(site.codec.pending(MessageFor(site.codec, s.control.stage.record)), false)))] else []
    case Raise(end) => if AtWork(s) && !end.Result? then [C.Invoke(end)] else []
  }

  function HandoffPart(site: Site, s: System, m: Move): seq<H.Move> {
    match m
    case Elsewhere(move) => [move]
    case Ask =>
      if AtWork(s) && !s.asked && CanAsk(site, s)
      then [H.Publish(s.control.stage.record.requestId, MessageFor(site.codec, s.control.stage.record))] else []
    case _ => []
  }

  function Step(site: Site, s: System, m: Move): System {
    var control := C.Run(s.control, ControlPart(site, s, m));
    var handoff := H.RunAll(s.handoff, site.base, HandoffPart(site, s, m));
    System(control, handoff, AtWork(System(control, handoff, false)) && (s.asked || (m.Ask? && AtWork(s) && CanAsk(site, s))))
  }

  function Run(site: Site, s: System, moves: seq<Move>): System
    decreases |moves|
  {
    if moves == [] then s else Run(site, Step(site, s, moves[0]), moves[1..])
  }

  // ----- the parts keep their own theorems

  /** A run of the stack is a run of the poller and a run of the handoff with its worker. */
  lemma {:induction false} Projects(site: Site, s: System, moves: seq<Move>)
    returns (actions: seq<C.Action>, others: seq<H.Move>)
    ensures Run(site, s, moves).control == C.Run(s.control, actions)
    ensures Run(site, s, moves).handoff == H.RunAll(s.handoff, site.base, others)
    decreases |moves|
  {
    hide C.Next, H.Step, ControlPart, HandoffPart;
    if moves == [] {
      actions, others := [], [];
    } else {
      var a, b := ControlPart(site, s, moves[0]), HandoffPart(site, s, moves[0]);
      var restA, restB := Projects(site, Step(site, s, moves[0]), moves[1..]);
      C.RunConcat(s.control, a, restA);
      H.RunAllConcat(s.handoff, site.base, b, restB);
      actions, others := a + restA, b + restB;
    }
  }

  // ----- what a completed work request says

  /** The result is that the request is pending, or the response in the outbox to exactly this request. */
  predicate Says(site: Site, outbox: map<H.RequestId, H.Response>, record: C.Audit) {
    record.status.Completed? && IsWork(record.capability) ==>
      && record.result.Some?
      && var message := MessageFor(site.codec, record);
         (record.result.value.content == site.codec.pending(message)
          || (&& record.requestId in outbox
              && H.Accepts(record.requestId, message, outbox[record.requestId])
              && record.result.value.content == site.codec.render(outbox[record.requestId])))
  }

  ghost predicate AllSay(site: Site, s: System) {
    && (forall rid :: rid in s.control.requests ==> Says(site, s.handoff.outbox, s.control.requests[rid]))
    && (s.control.stage.Invoked? ==> Says(site, s.handoff.outbox, s.control.stage.record))
  }

  ghost predicate Inv(site: Site, s: System) {
    C.Inv(s.control) && H.HandoffInv(s.handoff, site.base) && AllSay(site, s)
  }

  lemma SaysStays(site: Site, before: map<H.RequestId, H.Response>, after: map<H.RequestId, H.Response>, record: C.Audit)
    requires Says(site, before, record) && H.Extends(before, after)
    ensures Says(site, after, record)
  {
  }

  lemma CleanSays(site: Site, outbox: map<H.RequestId, H.Response>, record: C.Audit)
    requires Says(site, outbox, record)
    ensures Says(site, outbox, C.CleanAudit(record))
  {
  }

  lemma IncompleteSaysNothing(site: Site, outbox: map<H.RequestId, H.Response>, record: C.Audit)
    requires !record.status.Completed?
    ensures Says(site, outbox, record)
  {
  }

  /** Only the end of a handler makes a record completed. */
  lemma PollerKeepsSaying(site: Site, s: System, a: C.Action)
    requires C.Inv(s.control) && AllSay(site, s)
    requires a.Invoke? && s.control.stage.Invoking? ==> Says(site, s.handoff.outbox, C.AfterHandler(s.control.stage.record, a.end))
    ensures AllSay(site, s.(control := C.Next(s.control, a)))
  {
    assert C.StageInv(s.control);
    hide C.Inv, Says, C.CleanAudit;
    var s' := s.(control := C.Next(s.control, a));
    if s.control.stage.Reserving? && a.Reserve? {
      IncompleteSaysNothing(site, s.handoff.outbox, s.control.stage.record);
      CleanSays(site, s.handoff.outbox, s.control.stage.record);
    } else if s.control.stage.Invoked? && a.SaveResult? {
      CleanSays(site, s.handoff.outbox, s.control.stage.record);
    } else if s.control.stage.Sealing? && a.Seal? {
      IncompleteSaysNothing(site, s.handoff.outbox, s.control.stage.sealed);
      CleanSays(site, s.handoff.outbox, s.control.stage.sealed);
    }
  }

  /** What the handler returns is what it found, or that it is pending. */
  lemma HandlerSays(site: Site, s: System, m: Move)
    requires AtWork(s) && ControlPart(site, s, m) != [] && ControlPart(site, s, m)[0].Invoke?
    ensures Says(site, s.handoff.outbox, C.AfterHandler(s.control.stage.record, ControlPart(site, s, m)[0].end))
  {
  }

  lemma PollerStep(site: Site, s: System, m: Move)
    requires Inv(site, s)
    ensures C.Inv(Step(site, s, m).control)
    ensures AllSay(site, s.(control := Step(site, s, m).control))
  {
    hide C.Inv, C.Next, Says, AllSay, HandoffPart, H.RunAll;
    var part := ControlPart(site, s, m);
    if part != [] {
      assert C.Run(s.control, part) == C.Run(C.Next(s.control, part[0]), part[1..]) == C.Next(s.control, part[0]);
      C.StepKeepsInv(s.control, part[0]);
      if part[0].Invoke? && s.control.stage.Invoking? {
        if AtWork(s) {
          HandlerSays(site, s, m);
        } else {
          OthersSayNothing(site, s.handoff.outbox, s.control.stage.record, part[0].end);
        }
      }
      PollerKeepsSaying(site, s, part[0]);
    }
  }

  lemma OthersSayNothing(site: Site, outbox: map<H.RequestId, H.Response>, record: C.Audit, end: C.HandlerEnd)
    requires !IsWork(record.capability)
    ensures Says(site, outbox, C.AfterHandler(record, end))
  {
  }

  lemma StepKeepsInv(site: Site, s: System, m: Move)
    requires Inv(site, s)
    ensures Inv(site, Step(site, s, m))
  {
    hide C.Inv, H.HandoffInv, Says, ControlPart, HandoffPart, C.Run, H.RunAll;
    var s' := Step(site, s, m);
    PollerStep(site, s, m);
    var others := HandoffPart(site, s, m);
    H.RunKeepsHandoff(s.handoff, site.base, others);
    H.EntriesNeverChange(s.handoff, site.base, others);
    var middle := s.(control := s'.control);
    forall rid | rid in s'.control.requests ensures Says(site, s'.handoff.outbox, s'.control.requests[rid]) {
      SaysStays(site, s.handoff.outbox, s'.handoff.outbox, middle.control.requests[rid]);
    }
    if s'.control.stage.Invoked? {
      SaysStays(site, s.handoff.outbox, s'.handoff.outbox, middle.control.stage.record);
    }
  }

  lemma {:induction false} RunKeepsInv(site: Site, s: System, moves: seq<Move>)
    requires Inv(site, s)
    ensures Inv(site, Run(site, s, moves))
    decreases |moves|
  {
    hide Inv, Step;
    if moves != [] {
      StepKeepsInv(site, s, moves[0]);
      RunKeepsInv(site, Step(site, s, moves[0]), moves[1..]);
    }
  }

  lemma InitialInv(site: Site)
    ensures Inv(site, START)
  {
    C.RunKeepsInv(C.INITIAL, []);
    H.RunKeepsHandoff(H.START, site.base, []);
  }

  // ----- from a comment to an execution

  /** On some store, this was the right answer. */
  ghost predicate AnsweredOnce(site: Site, message: H.Message, reply: H.Reply) {
    exists clock :: A.EverRight(message.requestId, message, site.base, clock, reply)
  }

  /** The answer was the right one to this request, and is true of its task now: no later state, and all of the end. */
  ghost predicate True(site: Site, s: System, message: H.Message, response: H.Response) {
    && message.requestId in s.handoff.inbox && s.handoff.inbox[message.requestId] == message
    && AnsweredOnce(site, message, response.reply)
    && (response.reply.Completed? ==>
          var data := response.reply.data;
          var files := S.FilesOf(s.handoff.work.disk, data.taskId);
          && files.task.Some?
          && data.payloadHash == files.task.value.payloadHash
          && W.Rank(data.status) <= W.Rank(files.task.value.status)
          && (data.terminal ==> data == H.SummaryOf(files.task.value) && files.result == files.task)
          && s.handoff.work.runs[data.taskId] <= 1
          && (data.status.Succeeded? ==> s.handoff.work.runs[data.taskId] == 1 && files.test == Some(S.Passed)))
  }

  lemma ResponsesAreTrue(site: Site, s: System, message: H.Message)
    requires H.HandoffInv(s.handoff, site.base)
    requires message.requestId in s.handoff.outbox
    requires H.Accepts(message.requestId, message, s.handoff.outbox[message.requestId])
    ensures True(site, s, message, s.handoff.outbox[message.requestId])
  {
    var h, rid := s.handoff, message.requestId;
    var i :| 0 <= i < |h.log| && h.log[i].rid == rid && h.log[i].response == h.outbox[rid];
    var entry := h.log[i];
    assert H.Answers(h)[i] == entry && H.EntryInv(h, site.base, H.Answers(h)[i]);
    hide H.HandoffInv, H.EntryInv, H.AnswerTo, A.AnswersRightly;
    A.AnswerIsRight(entry.seen, rid, message, site.base, entry.clock, S.NoFault);
    assert A.EverRight(rid, message, site.base, entry.clock, h.outbox[rid].reply);
    if entry.record.Some? {
      RecordIsTrue(s, entry);
    }
  }

  lemma RecordIsTrue(s: System, entry: H.Entry)
    requires W.Inv(s.handoff.work) && entry.record.Some?
    requires var record := entry.record.value;
      var files := S.FilesOf(s.handoff.work.disk, record.taskId);
      W.RecordInv(record.taskId, record) && files.task.Some? && W.RecordAdvances(record, files.task.value)
    ensures var record := entry.record.value;
      var files := S.FilesOf(s.handoff.work.disk, record.taskId);
      && record.payloadHash == files.task.value.payloadHash
      && W.Rank(record.status) <= W.Rank(files.task.value.status)
      && (S.Terminal(record.status) ==> record == files.task.value && files.result == files.task)
      && s.handoff.work.runs[record.taskId] <= 1
      && (record.status.Succeeded? ==> s.handoff.work.runs[record.taskId] == 1 && files.test == Some(S.Passed))
  {
    var record := entry.record.value;
    W.TaskOf(s.handoff.work, record.taskId);
    H.LaterRecord(record.taskId, record, S.FilesOf(s.handoff.work.disk, record.taskId).task.value);
  }

  /** What a comment shows of a work request: that it is pending, or a response that is true now. */
  ghost predicate Traced(site: Site, s: System, record: C.Audit, shown: C.Shown) {
    exists message, text: C.Text :: IsMessageOf(site.codec, record, message) && shown == C.Bounded(Some(text)) &&
      (text.content == site.codec.pending(message)
       || (&& message.requestId in s.handoff.outbox
           && text.content == site.codec.render(s.handoff.outbox[message.requestId])
           && True(site, s, message, s.handoff.outbox[message.requestId])))
  }

  /** The request of the issue, as the client sends it. */
  predicate IsMessageOf(codec: Codec, record: C.Audit, m: H.Message) {
    && m.schema == "0.1" && m.requestId == record.requestId
    && m.capability in ["work.submit", "work.status", "work.cancel"] && record.capability == Some(m.capability)
    && m.arguments == codec.parse(record.arguments.content)
  }

  lemma CompletedIsTraced(site: Site, s: System, rid: C.RequestId)
    requires Inv(site, s) && rid in s.control.requests
    requires s.control.requests[rid].status.Completed? && IsWork(s.control.requests[rid].capability)
    ensures Traced(site, s, s.control.requests[rid], C.Bounded(s.control.requests[rid].result))
  {
    hide True, H.HandoffInv;
    var record := s.control.requests[rid];
    assert Says(site, s.handoff.outbox, record);
    var message := MessageFor(site.codec, record);
    if record.result.value.content != site.codec.pending(message) {
      ResponsesAreTrue(site, s, message);
    }
    assert C.Bounded(record.result) == C.Bounded(Some(record.result.value));
    assert IsMessageOf(site.codec, record, message);
  }

  /**
   From the issue to the execution. Over every run of the whole stack, whatever crashes: a comment that reports a completed
   work request, or a duplicate of one, shows that the request is pending or the receiver's answer to exactly that request;
   and that answer is true of the task now and from then on. If it says `succeeded`, the task was executed exactly once
   and its test passed.
   */
  lemma CommentsTraceToExecutions(site: Site, before: seq<Move>, after: seq<Move>, k: nat)
    requires k < |Run(site, START, before).control.comments|
    requires var envelope := Run(site, START, before).control.comments[k].1;
      envelope.status.Completed? || (envelope.status.Duplicate? && envelope.originalStatus == Some(C.Completed))
    ensures var envelope := Run(site, START, before).control.comments[k].1;
      var s := Run(site, Run(site, START, before), after);
      && envelope.requestId in s.control.requests
      && (s.control.requests[envelope.requestId].capability in [Some("work.submit"), Some("work.status"), Some("work.cancel")] ==>
            Traced(site, s, s.control.requests[envelope.requestId], envelope.result))
  {
    hide C.Inv, Inv, Traced, True, C.Run, Run, C.Next;
    InitialInv(site);
    RunKeepsInv(site, START, before);
    RunKeepsInv(site, Run(site, START, before), after);
    var s := Run(site, Run(site, START, before), after);
    var actions, _ := Projects(site, START, before);
    var more, _ := Projects(site, Run(site, START, before), after);
    C.RunConcat(C.INITIAL, actions, more);
    C.CommentsTellTheTruth(actions, more, k);
    var rid := Run(site, START, before).control.comments[k].1.requestId;
    if IsWork(s.control.requests[rid].capability) { CompletedIsTraced(site, s, rid); }
  }

  /** Over every run of the whole stack, a request's handler runs at most once and a task is executed at most once. */
  lemma OneHandlerOneExecution(site: Site, moves: seq<Move>, rid: C.RequestId, id: S.TaskId)
    ensures var s := Run(site, START, moves);
      s.control.invoked[rid] <= 1 && s.handoff.work.runs[id] <= 1
  {
    hide Run;
    InitialInv(site);
    RunKeepsInv(site, START, moves);
    assert C.RequestInv(Run(site, START, moves).control, rid);
    W.TaskOf(Run(site, START, moves).handoff.work, id);
  }
}
