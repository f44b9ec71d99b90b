/** What admission guarantees over every run of the stack: how much is stored, and what may be executed. */
module Admission {
  import opened Options
  import opened WorkStore
  import opened WorkRunner
  import opened Handoff

  /**
   At most five minutes ahead and a week old when it was checked, and on the base allowed for its kind by one of the
   profiles in use.
   */
  predicate FairlyAdmitted(record: Record, bases: set<string>) {
    && record.request.requestedAt - 300000 <= record.checkedAt <= record.request.requestedAt + 604800000
    && (record.request.coding ==> record.request.baseRef == "cde8c424b687c3ef99b98e4764da4a67c973d8b2")
    && (!record.request.coding ==> record.request.baseRef in bases)
  }

  predicate TaskAdmitted(disk: Disk, id: TaskId, bases: set<string>) {
    FilesOf(disk, id).task.Some? ==> FairlyAdmitted(FilesOf(disk, id).task.value, bases)
  }

  ghost predicate AdmissionInv(disk: Disk, bases: set<string>) {
    |Admitted(disk)| <= RETENTION && forall id :: TaskAdmitted(disk, id, bases)
  }

  lemma {:induction false} Fewer<T>(a: set<T>, b: set<T>)
    requires a <= b
    ensures |a| <= |b|
    decreases |a|
  {
    if x :| x in a {
      Fewer(a - {x}, b - {x});
    }
  }

  /** Transitions, cancellations and evidence are only about tasks that are there. */
  lemma PlansNeedATask(files: Files, ask: Ask, now: int, fault: Fault)
    requires files.task.None?
    ensures After(files, AskPlan(files, ask), fault) == files && After(files, CancelPlan(files, now), fault) == files
  {
  }

  lemma NoNewTasks(s: State, a: Action, id: TaskId)
    requires Inv(s) && !a.Submit? && FilesOf(s.disk, id).task.None?
    ensures FilesOf(Next(s, a).disk, id).task.None?
  {
    hide Inv, AskPlan, CancelPlan;
    if a.Cancel? {
      PlansNeedATask(FilesOf(s.disk, id), Ask(Failed, "", NoExtra, 0, NoFault, Idle, false), a.now, a.fault);
      CommitIsLocal(s.disk, a.id, CancelPlan(FilesOf(s.disk, a.id), a.now), a.fault);
    } else if Asked(s, a).Some? {
      var ask := Asked(s, a).value;
      PlansNeedATask(FilesOf(s.disk, id), ask, 0, ask.fault);
      CommitIsLocal(s.disk, s.stage.id, AskPlan(FilesOf(s.disk, s.stage.id), ask), ask.fault);
    }
  }

  lemma OldTasksStayAdmitted(before: Disk, after: Disk, id: TaskId, bases: set<string>)
    requires FilesOf(before, id).task.Some? && TaskAdmitted(before, id, bases)
    requires Advances(FilesOf(before, id), FilesOf(after, id))
    ensures TaskAdmitted(after, id, bases)
  {
  }

  lemma OthersKeepAdmission(s: State, a: Action, bases: set<string>)
    requires Inv(s) && AdmissionInv(s.disk, bases) && !a.Submit?
    ensures AdmissionInv(Next(s, a).disk, bases)
  {
    hide Inv, Next, FairlyAdmitted;
    var s' := Next(s, a);
    StepKeepsInv(s, a);
    forall id ensures TaskAdmitted(s'.disk, id, bases) {
      if FilesOf(s.disk, id).task.None? {
        NoNewTasks(s, a, id);
      } else {
        OldTasksStayAdmitted(s.disk, s'.disk, id, bases);
      }
    }
    forall id | id in Admitted(s'.disk) ensures id in Admitted(s.disk) {
      if FilesOf(s.disk, id).task.None? { NoNewTasks(s, a, id); }
    }
    Fewer(Admitted(s'.disk), Admitted(s.disk));
  }

  /** What one submission adds to the store. */
  lemma SubmissionIsAdmitted(disk: Disk, request: Request, base: string, clock: Clock, fault: Fault, bases: set<string>)
    requires FilesOf(disk, request.taskId).task.None? && base in bases
    ensures var plan := SubmitPlan(disk, request, base, clock);
      var task := After(FilesOf(disk, request.taskId), plan, fault).task;
      task.Some? ==> FairlyAdmitted(task.value, bases) && |Admitted(disk)| < RETENTION
  {
    hide Admitted;
  }

  lemma SubmitKeepsAdmission(s: State, a: Action, bases: set<string>)
    requires Inv(s) && AdmissionInv(s.disk, bases) && a.Submit? && a.fixtureBase in bases
    ensures AdmissionInv(Next(s, a).disk, bases)
  {
    hide Inv, FairlyAdmitted, SubmitPlan;
    var id := a.request.taskId;
    var disk' := Next(s, a).disk;
    var plan := SubmitPlan(s.disk, a.request, a.fixtureBase, a.clock);
    CommitIsLocal(s.disk, id, plan, a.fault);
    StepKeepsInv(s, a);
    if FilesOf(s.disk, id).task.None? {
      SubmissionIsAdmitted(s.disk, a.request, a.fixtureBase, a.clock, a.fault, bases);
    } else {
      OldTasksStayAdmitted(s.disk, disk', id, bases);
    }
    forall x ensures TaskAdmitted(disk', x, bases) {
      if x != id { assert TaskAdmitted(s.disk, x, bases); }
    }
    forall x | x in Admitted(disk') && x != id ensures x in Admitted(s.disk) {
      assert FilesOf(disk', x) == FilesOf(s.disk, x);
    }
    if id in Admitted(disk') && id !in Admitted(s.disk) {
      Fewer(Admitted(disk') - {id}, Admitted(s.disk));
    } else {
      Fewer(Admitted(disk'), Admitted(s.disk));
    }
  }

  /** The fixture bases of the profiles under which a run submits: the receiver's, and the command line's. */
  function BasesOf(base: string, moves: seq<Move>): set<string> {
    {base} + set i | 0 <= i < |moves| && moves[i].Work? && moves[i].action.Submit? :: moves[i].action.fixtureBase
  }

  predicate Within(m: Move, bases: set<string>) {
    m.Work? && m.action.Submit? ==> m.action.fixtureBase in bases
  }

  predicate AllWithin(moves: seq<Move>, bases: set<string>) {
    forall i :: 0 <= i < |moves| ==> Within(moves[i], bases)
  }

  lemma ActionKeepsAdmission(s: State, a: Action, bases: set<string>)
    requires Inv(s) && AdmissionInv(s.disk, bases) && (a.Submit? ==> a.fixtureBase in bases)
    ensures AdmissionInv(Next(s, a).disk, bases)
  {
    hide Inv, AdmissionInv, Next;
    if a.Submit? { SubmitKeepsAdmission(s, a, bases); } else { OthersKeepAdmission(s, a, bases); }
  }

  lemma MoveKeepsAdmission(h: System, base: string, m: Move, bases: set<string>)
    requires Inv(h.work) && AdmissionInv(h.work.disk, bases) && Within(m, bases) && base in bases
    ensures AdmissionInv(Step(h, base, m).work.disk, bases)
  {
    hide Inv, AdmissionInv, Next, AnswerTo;
    if m.Work? {
      ActionKeepsAdmission(h.work, m.action, bases);
    } else if m.Take? && h.receiver.Waiting? && m.rid in h.inbox && m.rid !in h.outbox {
      TakeIsAStoreStep(h.work, m.rid, h.inbox[m.rid], base, m.clock, m.fault);
      var action := SectionAction(h.inbox[m.rid], m.rid, base, m.clock, m.fault);
      if action.Some? { ActionKeepsAdmission(h.work, action.value, bases); }
    }
  }

  ghost predicate Bounded(h: System, bases: set<string>) {
    AdmissionInv(h.work.disk, bases) && |h.inbox| <= CAPACITY && |h.outbox| <= CAPACITY
  }

  lemma PublicationIsBounded<V>(entries: map<RequestId, V>, rid: RequestId, value: V)
    requires |entries| <= CAPACITY
    ensures |After'(entries, Published(entries, rid, value))| <= CAPACITY
  {
    if rid !in entries {
      assert entries[rid := value].Keys == entries.Keys + {rid};
    }
  }

  lemma StepStaysBounded(h: System, base: string, m: Move, bases: set<string>)
    requires Inv(h.work) && Bounded(h, bases) && Within(m, bases) && base in bases
    ensures Bounded(Step(h, base, m), bases)
  {
    hide Inv, AdmissionInv, Next, AnswerTo, Published, After';
    MoveKeepsAdmission(h, base, m, bases);
    if m.Publish? {
      PublicationIsBounded(h.inbox, m.rid, m.message);
    } else if m.Post? && h.receiver.Answering? {
      PostIsBounded(h, base, m);
    }
  }

  lemma PostIsBounded(h: System, base: string, m: Move)
    requires m.Post? && h.receiver.Answering? && |h.outbox| <= CAPACITY
    ensures |Step(h, base, m).outbox| <= CAPACITY
  {
    PublicationIsBounded(h.outbox, h.receiver.entry.rid, h.receiver.entry.response);
  }

  lemma {:induction false} RunStaysBounded(h: System, base: string, moves: seq<Move>, bases: set<string>)
    requires Inv(h.work) && Bounded(h, bases) && AllWithin(moves, bases) && base in bases
    ensures Inv(RunAll(h, base, moves).work) && Bounded(RunAll(h, base, moves), bases)
    decreases |moves|
  {
    hide Inv, Bounded, Step;
    if moves != [] {
      StepAdvances(h, base, moves[0]);
      StepStaysBounded(h, base, moves[0], bases);
      RunStaysBounded(Step(h, base, moves[0]), base, moves[1..], bases);
    }
  }

  /** No more is ever stored than the limits allow: tasks in the store, requests in the inbox, responses in the outbox. */
  lemma StorageIsBounded(base: string, moves: seq<Move>)
    ensures var h := RunAll(START, base, moves);
      |Admitted(h.work.disk)| <= 256 && |h.inbox| <= 2048 && |h.outbox| <= 2048
  {
    hide RunAll, Inv;
    InitialInv();
    RunStaysBounded(START, base, moves, BasesOf(base, moves));
  }

  /** Whatever was executed had been admitted while fresh, on a base allowed for it, and its request has not changed since. */
  lemma OnlyAdmittedWorkRuns(base: string, moves: seq<Move>, id: TaskId)
    requires RunAll(START, base, moves).work.runs[id] > 0
    ensures var task := FilesOf(RunAll(START, base, moves).work.disk, id).task;
      && task.Some? && FairlyAdmitted(task.value, BasesOf(base, moves))
      && task.value.payloadHash == Digest(task.value.request) && task.value.request.taskId == id
  {
    hide RunAll, Inv;
    InitialInv();
    RunStaysBounded(START, base, moves, BasesOf(base, moves));
    TaskOf(RunAll(START, base, moves).work, id);
    assert TaskAdmitted(RunAll(START, base, moves).work.disk, id, BasesOf(base, moves));
  }
}
