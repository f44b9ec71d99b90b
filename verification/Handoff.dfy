/**
 The local handoff: clients publish requests into an inbox, one receiver answers
 each from the task store and publishes the answer into an outbox. The receiver
 interleaves with the worker, and may die between its store section and its
 publication.
 */
module Handoff {
  import opened Options
  import opened WorkStore
  import opened WorkRunner

  const CAPACITY := 2048

  type RequestId = string

  datatype Arguments = Contract(request: Request) | TaskRef(taskId: TaskId) | OtherArguments

  datatype Message = Message(schema: string, requestId: RequestId, capability: string, arguments: Arguments)

  // sha256 of the canonical encoding, taken as injective.
  datatype MessageDigest = MessageDigest(message: Message)

  datatype Operation = DoSubmit(request: Request) | DoStatus(taskId: TaskId) | DoCancel(taskId: TaskId)

  /** The projection of a record that may leave the store. */
  datatype Summary = Summary(
    taskId: TaskId, status: Status, payloadHash: Digest, attempts: nat, cancelRequested: bool,
    submittedAt: int, startedAt: Option<int>, finishedAt: Option<int>, terminal: bool)

  datatype Reply = Completed(data: Summary, created: Option<bool>) | Declined(error: string)

  datatype Response = Response(requestId: RequestId, requestHash: MessageDigest, reply: Reply)

  function SummaryOf(record: Record): Summary {
    Summary(record.taskId, record.status, record.payloadHash, record.attempts, record.cancelRequested,
            if record.history == [] then 0 else record.history[0].at,
            record.startedAt, record.finishedAt, Terminal(record.status))
  }

  /** `arguments` together with the receiver's envelope check; the error is the policy constant it answers with. */
  function Validated(message: Message, rid: RequestId, base: string): Outcome<Operation> {
    if message.schema != "0.1" || message.requestId != rid then Raised(Rejected("invalid_handoff"))
    else if message.capability == "work.submit" then
      if !message.arguments.Contract? then Raised(Rejected("invalid_work_arguments"))
      else if message.arguments.request.baseRef != AllowedBase(message.arguments.request, base) then
        Raised(Rejected("base_not_allowlisted"))
      else Returned(DoSubmit(message.arguments.request))
    else if message.capability == "work.status" || message.capability == "work.cancel" then
      if !message.arguments.TaskRef? then Raised(Rejected("invalid_work_arguments"))
      else if message.capability == "work.cancel" then Returned(DoCancel(message.arguments.taskId))
      else Returned(DoStatus(message.arguments.taskId))
    else Raised(Rejected("unsupported_work_operation"))
  }

  /** The outcome of answering one message: the store afterwards, the reply if there is one, and the record it reports. */
  datatype Answered = Answered(disk: Disk, reply: Option<Reply>, record: Option<Record>)

  function Reported(disk: Disk, outcome: Outcome<Record>, created: Option<bool>): Answered {
    match outcome
    case Returned(record) => Answered(disk, Some(Completed(SummaryOf(record), created)), Some(record))
    case Raised(Rejected(code)) => Answered(disk, Some(Declined(code)), None)
    case Raised(_) => Answered(disk, None, None)
  }

  function AnswerTo(disk: Disk, rid: RequestId, message: Message, base: string, clock: Clock, fault: Fault): Answered {
    match Validated(message, rid, base)
    case Raised(Rejected(code)) => Answered(disk, Some(Declined(code)), None)
    case Raised(_) => Answered(disk, None, None)
    case Returned(DoSubmit(request)) =>
      var plan := SubmitPlan(disk, request, base, clock);
      var disk' := Commit(disk, request.taskId, plan, fault);
      (match Answer(plan, fault)
       case Returned(pair) => Reported(disk', Returned(pair.0), Some(pair.1))
       case Raised(error) => Reported(disk', Raised(error), None))
    case Returned(DoCancel(id)) =>
      var plan := CancelPlan(FilesOf(disk, id), clock.stamped);
      Reported(Commit(disk, id, plan, fault), Answer(plan, fault), None)
    case Returned(DoStatus(id)) =>
      var task := FilesOf(disk, id).task;
      if task.None? then Reported(disk, Raised(Rejected("unknown_task")), None)
      else Reported(disk, Returned(task.value), None)
  }

  // ----- the system

  /** One answer: what was asked, the store it was computed from, and what was said. */
  datatype Entry = Entry(rid: RequestId, message: Message, seen: Disk, clock: Clock, response: Response, record: Option<Record>)

  datatype Receiver = Waiting | Answering(entry: Entry)

  datatype System = System(
    work: State, inbox: map<RequestId, Message>, outbox: map<RequestId, Response>,
    receiver: Receiver, log: seq<Entry>)

  const START := System(INITIAL, map[], map[], Waiting, [])

  datatype Move =
    | Work(action: Action)
    | Publish(rid: RequestId, message: Message)
    | Take(rid: RequestId, clock: Clock, fault: Fault)
    | Post(fails: bool)
    | ReceiverCrash

  /** Publication never replaces: an equal entry is accepted again, a different one is a conflict. */
  function Published<V(==)>(entries: map<RequestId, V>, rid: RequestId, value: V): Outcome<map<RequestId, V>> {
    if rid in entries then
      if entries[rid] != value then Raised(Rejected("transport_id_conflict")) else Returned(entries)
    else if |entries| >= CAPACITY then Raised(Rejected("transport_capacity"))
    else Returned(entries[rid := value])
  }

  function After'<V>(entries: map<RequestId, V>, outcome: Outcome<map<RequestId, V>>): map<RequestId, V> {
    if outcome.Returned? then outcome.value else entries
  }

  function Step(h: System, base: string, m: Move): System {
    match m
    case Work(action) => h.(work := Next(h.work, action))
    case Publish(rid, message) => h.(inbox := After'(h.inbox, Published(h.inbox, rid, message)))
    case Take(rid, clock, fault) =>
      if h.receiver.Waiting? && rid in h.inbox && rid !in h.outbox then
        var message := h.inbox[rid];
        var answered := AnswerTo(h.work.disk, rid, message, base, clock, fault);
        var h' := h.(work := h.work.(disk := answered.disk));
        if answered.reply.None? then h'
        else
          var response := Response(rid, MessageDigest(message), answered.reply.value);
          h'.(receiver := Answering(Entry(rid, message, h.work.disk, clock, response, answered.record)))
      else h
    case Post(fails) =>
      if h.receiver.Waiting? then h
      else
        var entry := h.receiver.entry;
        var outcome := Published(h.outbox, entry.rid, entry.response);
        if fails || outcome.Raised? then h.(receiver := Waiting)
        else h.(outbox := outcome.value, receiver := Waiting, log := h.log + [entry])
    case ReceiverCrash => h.(receiver := Waiting)
  }

  function RunAll(h: System, base: string, moves: seq<Move>): System
    decreases |moves|
  {
    if moves == [] then h else RunAll(Step(h, base, moves[0]), base, moves[1..])
  }

  /** Every answer given so far, and the one in hand. */
  function Answers(h: System): seq<Entry> {
    if h.receiver.Answering? then h.log + [h.receiver.entry] else h.log
  }

  predicate Creates(entry: Entry) {
    entry.response.reply.Completed? && entry.response.reply.created == Some(true)
  }

  predicate EntryInv(h: System, base: string, entry: Entry) {
    && entry.rid in h.inbox && h.inbox[entry.rid] == entry.message
    && entry.response.requestId == entry.rid
    && entry.response.requestHash == MessageDigest(entry.message)
    && AnswerTo(entry.seen, entry.rid, entry.message, base, entry.clock, NoFault).reply == Some(entry.response.reply)
    && (entry.response.reply.Completed? <==> entry.record.Some?)
    && (entry.record.Some? ==>
          && entry.response.reply.data == SummaryOf(entry.record.value)
          && RecordInv(entry.record.value.taskId, entry.record.value)
          && FilesOf(h.work.disk, entry.record.value.taskId).task.Some?
          && RecordAdvances(entry.record.value, FilesOf(h.work.disk, entry.record.value.taskId).task.value))
  }

  /** Two answers in order: the later one reports the same or a later state, and only the first can have created the task. */
  predicate InOrder(earlier: Entry, later: Entry) {
    earlier.record.Some? && later.record.Some? && earlier.record.value.taskId == later.record.value.taskId ==>
      RecordAdvances(earlier.record.value, later.record.value) && !Creates(later)
  }

  ghost predicate HandoffInv(h: System, base: string) {
    && Inv(h.work)
    && (forall i :: 0 <= i < |Answers(h)| ==> EntryInv(h, base, Answers(h)[i]))
    && (forall i, j :: 0 <= i < j < |Answers(h)| ==> InOrder(Answers(h)[i], Answers(h)[j]))
    && (forall rid :: rid in h.outbox ==> exists i :: 0 <= i < |h.log| && h.log[i].rid == rid && h.log[i].response == h.outbox[rid])
    && (h.receiver.Answering? ==> h.receiver.entry.rid !in h.outbox)
  }

  lemma RecordAdvancesTransitive(a: Record, b: Record, c: Record)
    requires RecordAdvances(a, b) && RecordAdvances(b, c)
    ensures RecordAdvances(a, c)
  {
  }

  /** What an answer says of the store it left behind. */
  predicate Truthful(before: Disk, answered: Answered) {
    && (answered.reply.Some? ==> (answered.reply.value.Completed? <==> answered.record.Some?))
    && (answered.record.Some? ==>
          && answered.reply.Some?
          && answered.reply.value.data == SummaryOf(answered.record.value)
          && FilesOf(answered.disk, answered.record.value.taskId).task == answered.record
          && (answered.reply.value.created == Some(true) ==> FilesOf(before, answered.record.value.taskId).task.None?))
  }

  lemma SubmitAnswer(disk: Disk, request: Request, base: string, clock: Clock, fault: Fault)
    requires FilesInv(request.taskId, FilesOf(disk, request.taskId))
    ensures var plan := SubmitPlan(disk, request, base, clock);
      var answer := Answer(plan, fault);
      answer.Returned? ==>
        && answer == Answer(plan, NoFault)
        && answer.value.0.taskId == request.taskId
        && FilesOf(Commit(disk, request.taskId, plan, fault), request.taskId).task == Some(answer.value.0)
        && (answer.value.1 ==> FilesOf(disk, request.taskId).task.None?)
  {
  }

  lemma CancelAnswer(disk: Disk, id: TaskId, clock: Clock, fault: Fault)
    requires FilesInv(id, FilesOf(disk, id))
    ensures var plan := CancelPlan(FilesOf(disk, id), clock.stamped);
      var answer := Answer(plan, fault);
      answer.Returned? ==>
        && answer == Answer(plan, NoFault)
        && answer.value.taskId == id
        && FilesOf(Commit(disk, id, plan, fault), id).task == Some(answer.value)
  {
  }

  /** A reply does not depend on a fault it survived, and it is truthful. */
  lemma AnswerEffect(disk: Disk, rid: RequestId, message: Message, base: string, clock: Clock, fault: Fault)
    requires forall id :: FilesInv(id, FilesOf(disk, id))
    ensures var answered := AnswerTo(disk, rid, message, base, clock, fault);
      && Truthful(disk, answered)
      && (answered.reply.Some? ==> answered.reply == AnswerTo(disk, rid, message, base, clock, NoFault).reply)
  {
    var op := Validated(message, rid, base);
    if op.Returned? && op.value.DoSubmit? {
      assert FilesInv(op.value.request.taskId, FilesOf(disk, op.value.request.taskId));
      SubmitAnswer(disk, op.value.request, base, clock, fault);
    } else if op.Returned? && op.value.DoCancel? {
      assert FilesInv(op.value.taskId, FilesOf(disk, op.value.taskId));
      CancelAnswer(disk, op.value.taskId, clock, fault);
    } else if op.Returned? {
      assert FilesInv(op.value.taskId, FilesOf(disk, op.value.taskId));
    }
  }

  /** The store action a receiver's section amounts to; a status request is none. */
  function SectionAction(message: Message, rid: RequestId, base: string, clock: Clock, fault: Fault): Option<Action> {
    match Validated(message, rid, base)
    case Returned(DoSubmit(request)) => Some(Submit(request, base, clock, fault))
    case Returned(DoCancel(id)) => Some(Cancel(id, clock.stamped, fault))
    case _ => None
  }

  lemma TakeIsAStoreStep(s: State, rid: RequestId, message: Message, base: string, clock: Clock, fault: Fault)
    ensures var s' := s.(disk := AnswerTo(s.disk, rid, message, base, clock, fault).disk);
      var action := SectionAction(message, rid, base, clock, fault);
      s' == if action.Some? then Next(s, action.value) else s
  {
  }

  /** How the store moved during one step of the whole system. */
  lemma StepAdvances(h: System, base: string, m: Move)
    requires Inv(h.work)
    ensures Inv(Step(h, base, m).work)
    ensures forall id :: Advances(FilesOf(h.work.disk, id), FilesOf(Step(h, base, m).work.disk, id))
  {
    if m.Work? {
      StepKeepsInv(h.work, m.action);
    } else if m.Take? && h.receiver.Waiting? && m.rid in h.inbox && m.rid !in h.outbox {
      TakeIsAStoreStep(h.work, m.rid, h.inbox[m.rid], base, m.clock, m.fault);
      var action := SectionAction(h.inbox[m.rid], m.rid, base, m.clock, m.fault);
      if action.Some? {
        StepKeepsInv(h.work, action.value);
      }
    }
  }

  lemma EntryStays(h: System, base: string, m: Move, entry: Entry)
    requires Inv(h.work) && EntryInv(h, base, entry)
    ensures EntryInv(Step(h, base, m), base, entry)
  {
    var h' := Step(h, base, m);
    StepAdvances(h, base, m);
    assert h'.inbox == h.inbox || h'.inbox == h.inbox[m.rid := m.message];
    if entry.record.Some? {
      var id := entry.record.value.taskId;
      assert Advances(FilesOf(h.work.disk, id), FilesOf(h'.work.disk, id));
      RecordAdvancesTransitive(entry.record.value, FilesOf(h.work.disk, id).task.value, FilesOf(h'.work.disk, id).task.value);
    }
  }

  lemma InvFiles(s: State)
    requires Inv(s)
    ensures forall id :: FilesInv(id, FilesOf(s.disk, id))
  {
    forall id ensures FilesInv(id, FilesOf(s.disk, id)) {
      assert TaskInv(s, id);
    }
  }

  lemma TakenEntry(h: System, base: string, rid: RequestId, clock: Clock, fault: Fault)
    requires HandoffInv(h, base) && h.receiver.Waiting?
    requires Step(h, base, Take(rid, clock, fault)).receiver.Answering?
    ensures var h' := Step(h, base, Take(rid, clock, fault));
      var entry := h'.receiver.entry;
      && EntryInv(h', base, entry) && entry.rid !in h'.outbox
      && forall i :: 0 <= i < |h.log| ==> InOrder(h.log[i], entry)
  {
    var h' := Step(h, base, Take(rid, clock, fault));
    var entry := h'.receiver.entry;
    InvFiles(h.work);
    AnswerEffect(h.work.disk, rid, h.inbox[rid], base, clock, fault);
    StepAdvances(h, base, Take(rid, clock, fault));
    InvFiles(h'.work);
    forall i | 0 <= i < |h.log| ensures InOrder(h.log[i], entry) {
      var earlier := h.log[i];
      assert earlier == Answers(h)[i] && EntryInv(h, base, earlier);
      EntryStays(h, base, Take(rid, clock, fault), earlier);
    }
  }

  lemma AnswersGrow(h: System, base: string, m: Move)
    ensures var h' := Step(h, base, m);
      || Answers(h') <= Answers(h)
      || (m.Take? && h.receiver.Waiting? && h'.receiver.Answering? && Answers(h') == Answers(h) + [h'.receiver.entry])
  {
  }

  lemma OutboxIsLogged(h: System, base: string, m: Move)
    requires HandoffInv(h, base)
    ensures var h' := Step(h, base, m);
      forall rid :: rid in h'.outbox ==>
        exists i :: 0 <= i < |h'.log| && h'.log[i].rid == rid && h'.log[i].response == h'.outbox[rid]
  {
    var h' := Step(h, base, m);
    forall rid | rid in h'.outbox
      ensures exists i :: 0 <= i < |h'.log| && h'.log[i].rid == rid && h'.log[i].response == h'.outbox[rid]
    {
      if rid in h.outbox && h'.outbox[rid] == h.outbox[rid] {
        var i :| 0 <= i < |h.log| && h.log[i].rid == rid && h.log[i].response == h.outbox[rid];
        assert h'.log[i] == h.log[i];
      } else {
        assert h'.log[|h.log|] == h.receiver.entry;
      }
    }
  }

  lemma StepKeepsHandoff(h: System, base: string, m: Move)
    requires HandoffInv(h, base)
    ensures HandoffInv(Step(h, base, m), base)
  {
    hide AnswerTo, Published, Inv, EntryInv;
    var h' := Step(h, base, m);
    StepAdvances(h, base, m);
    OutboxIsLogged(h, base, m);
    AnswersGrow(h, base, m);
    var answers, answers' := Answers(h), Answers(h');
    if !(answers' <= answers) {
      TakenEntry(h, base, m.rid, m.clock, m.fault);
    }
    forall i | 0 <= i < |answers'| ensures EntryInv(h', base, answers'[i]) {
      if i < |answers| {
        EntryStays(h, base, m, answers[i]);
      }
    }
  }

  // ----- what holds over every run

  lemma {:induction false} RunKeepsHandoff(h: System, base: string, moves: seq<Move>)
    requires HandoffInv(h, base)
    ensures HandoffInv(RunAll(h, base, moves), base)
    decreases |moves|
  {
    if moves != [] {
      StepKeepsHandoff(h, base, moves[0]);
      RunKeepsHandoff(Step(h, base, moves[0]), base, moves[1..]);
    }
  }

  predicate Extends<V(==)>(before: map<RequestId, V>, after: map<RequestId, V>) {
    forall rid :: rid in before ==> rid in after && after[rid] == before[rid]
  }

  /** Inbox and outbox entries never change or disappear, and the log of answers only grows. */
  lemma {:induction false} EntriesNeverChange(h: System, base: string, moves: seq<Move>)
    ensures var h' := RunAll(h, base, moves);
      Extends(h.inbox, h'.inbox) && Extends(h.outbox, h'.outbox) && h.log <= h'.log
    decreases |moves|
  {
    if moves != [] {
      var h1 := Step(h, base, moves[0]);
      assert Extends(h.inbox, h1.inbox) && Extends(h.outbox, h1.outbox) && h.log <= h1.log;
      EntriesNeverChange(h1, base, moves[1..]);
    }
  }

  /** The client's check of a response against the request it published. */
  predicate Accepts(rid: RequestId, message: Message, response: Response) {
    response.requestId == rid && response.requestHash == MessageDigest(message)
  }

  /**
   A response in the outbox passes a client's check exactly for the request in the inbox, and is
   what the receiver computed from that request on a state of the store that the run went through.
   */
  lemma ResponseIsForItsRequest(base: string, moves: seq<Move>, rid: RequestId, message: Message)
    requires rid in RunAll(START, base, moves).outbox
    ensures var h := RunAll(START, base, moves);
      && rid in h.inbox
      && (Accepts(rid, message, h.outbox[rid]) <==> message == h.inbox[rid])
      && exists i :: 0 <= i < |h.log| && h.log[i].rid == rid && h.log[i].message == h.inbox[rid] &&
           AnswerTo(h.log[i].seen, rid, h.inbox[rid], base, h.log[i].clock, NoFault).reply == Some(h.outbox[rid].reply)
  {
    var h := RunAll(START, base, moves);
    RunKeepsHandoff(START, base, moves);
    var i :| 0 <= i < |h.log| && h.log[i].rid == rid && h.log[i].response == h.outbox[rid];
    assert Answers(h)[i] == h.log[i] && EntryInv(h, base, Answers(h)[i]);
  }

  /** At most one response per task says `created: true`, over all request ids and crashes. */
  lemma CreatedOnce(base: string, moves: seq<Move>, i: nat, j: nat)
    requires i < j < |RunAll(START, base, moves).log|
    ensures var log := RunAll(START, base, moves).log;
      !(Creates(log[i]) && Creates(log[j]) && log[i].response.reply.data.taskId == log[j].response.reply.data.taskId)
  {
    var h := RunAll(START, base, moves);
    RunKeepsHandoff(START, base, moves);
    assert Answers(h)[i] == h.log[i] && Answers(h)[j] == h.log[j];
    assert EntryInv(h, base, Answers(h)[i]) && EntryInv(h, base, Answers(h)[j]);
    assert InOrder(Answers(h)[i], Answers(h)[j]);
  }

  /** Later responses for a task never report an earlier state; they agree on the payload, and on everything once terminal. */
  lemma ResponsesNeverGoBack(base: string, moves: seq<Move>, i: nat, j: nat)
    requires i < j < |RunAll(START, base, moves).log|
    ensures var a := RunAll(START, base, moves).log[i].response.reply;
      var b := RunAll(START, base, moves).log[j].response.reply;
      a.Completed? && b.Completed? && a.data.taskId == b.data.taskId ==>
        && Rank(a.data.status) <= Rank(b.data.status)
        && a.data.payloadHash == b.data.payloadHash
        && a.data.attempts <= b.data.attempts
        && (a.data.cancelRequested ==> b.data.cancelRequested)
        && (a.data.terminal ==> b.data == a.data)
  {
    var h := RunAll(START, base, moves);
    RunKeepsHandoff(START, base, moves);
    var e, f := h.log[i], h.log[j];
    assert Answers(h)[i] == e && Answers(h)[j] == f;
    assert EntryInv(h, base, Answers(h)[i]) && EntryInv(h, base, Answers(h)[j]) && InOrder(e, f);
    if e.record.Some? && f.record.Some? && e.record.value.taskId == f.record.value.taskId {
      LaterRecord(e.record.value.taskId, e.record.value, f.record.value);
    }
  }

  lemma LaterRecord(id: TaskId, r: Record, r': Record)
    requires RecordInv(id, r) && RecordInv(id, r') && RecordAdvances(r, r')
    ensures Rank(r.status) <= Rank(r'.status) && r.attempts <= r'.attempts
  {
    HistoryNeverReturns(r'.history, |r.history| - 1);
    assert r'.history[|r.history| - 1] == r.history[|r.history| - 1];
    if WasReserved(r.history) {
      var k :| 0 <= k < |r.history| && r.history[k].status == Reserved;
      assert r'.history[k].status == Reserved;
    }
  }

  /** The whole stack: with the receiver and its crashes in the loop, no task is executed twice. */
  lemma StackExecutesOnce(base: string, moves: seq<Move>, id: TaskId)
    ensures RunAll(START, base, moves).work.runs[id] <= 1
  {
    RunKeepsHandoff(START, base, moves);
    assert TaskInv(RunAll(START, base, moves).work, id);
  }

  lemma {:induction false} RunAllThen(h: System, base: string, moves: seq<Move>, m: Move)
    ensures RunAll(h, base, moves + [m]) == Step(RunAll(h, base, moves), base, m)
    decreases |moves|
  {
    if moves == [] {
      assert RunAll(h, base, [m]) == RunAll(Step(h, base, m), base, []);
    } else {
      assert (moves + [m])[1..] == moves[1..] + [m];
      RunAllThen(Step(h, base, moves[0]), base, moves[1..], m);
    }
  }

  lemma {:induction false} RunAllConcat(h: System, base: string, before: seq<Move>, after: seq<Move>)
    ensures RunAll(h, base, before + after) == RunAll(RunAll(h, base, before), base, after)
    decreases |before|
  {
    if before == [] {
      assert before + after == after;
    } else {
      assert (before + after)[1..] == before[1..] + after;
      RunAllConcat(Step(h, base, before[0]), base, before[1..], after);
    }
  }

  /** A client whose publication succeeded never finds a response that fails its check. */
  lemma ClientsGetTheirOwn(base: string, before: seq<Move>, after: seq<Move>, rid: RequestId, message: Message)
    requires rid in RunAll(START, base, before).inbox && RunAll(START, base, before).inbox[rid] == message
    requires rid in RunAll(START, base, before + after).outbox
    ensures Accepts(rid, message, RunAll(START, base, before + after).outbox[rid])
  {
    RunAllConcat(START, base, before, after);
    EntriesNeverChange(RunAll(START, base, before), base, after);
    ResponseIsForItsRequest(base, before + after, rid, message);
  }
}
