/** The receiver's and the client's code over the two shared directories. */
module HandoffProcess {
  import opened Options
  import opened WorkStore
  import opened WorkRunner
  import opened Handoff
  import opened Admission
  import opened Answers

  class Directory<V(==)> {
    var entries: map<RequestId, V>

    constructor ()
      ensures entries == map[]
    {
      entries := map[];
    }

    method Read(rid: RequestId) returns (value: Option<V>)
      ensures value == if rid in entries then Some(entries[rid]) else None
    {
      value := if rid in entries then Some(entries[rid]) else None;
    }

    /** Exclusive creation: the link never replaces an entry. */
    method Publish(rid: RequestId, value: V) returns (error: Option<Error>)
      modifies this
      ensures entries == After'(old(entries), Published(old(entries), rid, value))
      ensures error == if Published(old(entries), rid, value).Raised? then Some(Published(old(entries), rid, value).error) else None
      ensures error.None? <==> rid in entries && entries[rid] == value
      ensures if rid in old(entries) then
                && entries == old(entries)
                && error == (if old(entries)[rid] == value then None else Some(Rejected("transport_id_conflict")))
              else if |old(entries)| >= 2048 then entries == old(entries) && error == Some(Rejected("transport_capacity"))
              else entries == old(entries)[rid := value] && error.None?
    {
      var existing := Read(rid);
      if existing.Some? {
        return if existing.value != value then Some(Rejected("transport_id_conflict")) else None;
      }
      if |entries| >= CAPACITY {
        return Some(Rejected("transport_capacity"));
      }
      entries := entries[rid := value];
      error := None;
    }
  }

  /** A task whose admission once stopped half way: its directory stands in the way of another one. */
  predicate Orphaned(disk: Disk, id: TaskId) {
    FilesOf(disk, id).dir && FilesOf(disk, id).task.None?
  }

  /** The one kind of request that the receiver cannot answer when nothing fails. */
  predicate Unanswerable(disk: Disk, rid: RequestId, message: Message, base: string) {
    var operation := Validated(message, rid, base);
    operation.Returned? && operation.value.DoSubmit? && Orphaned(disk, operation.value.request.taskId)
  }

  lemma OnlyOrphansAreUnanswered(disk: Disk, rid: RequestId, message: Message, base: string, clock: Clock)
    ensures AnswerTo(disk, rid, message, base, clock, NoFault).reply.None? ==> Unanswerable(disk, rid, message, base)
  {
  }

  lemma OrphansStay(disk: Disk, rid: RequestId, message: Message, base: string, clock: Clock, fault: Fault, id: TaskId)
    requires Orphaned(disk, id)
    ensures Orphaned(AnswerTo(disk, rid, message, base, clock, fault).disk, id)
  {
  }

  lemma UnanswerableStays(disk: Disk, disk': Disk, rid: RequestId, message: Message, base: string)
    requires Unanswerable(disk, rid, message, base) && forall id :: Orphaned(disk, id) ==> Orphaned(disk', id)
    ensures Unanswerable(disk', rid, message, base)
  {
  }

  lemma Sound(base: string, moves: seq<Move>)
    ensures HandoffInv(RunAll(START, base, moves), base)
  {
    RunKeepsHandoff(START, base, moves);
  }

  lemma Room(entries: set<RequestId>, all: set<RequestId>, rid: RequestId)
    requires entries <= all && rid in all && rid !in entries
    ensures |entries| < |all|
  {
    assert entries + {rid} <= all;
    Fewer(entries + {rid}, all);
  }

  class Server {
    const store: Store
    const inbox: Directory<Message>
    const outbox: Directory<Response>
    const base: string
    // The system this process is a part of, and the moves that led to it.
    ghost var whole: System
    ghost var moves: seq<Move>

    ghost predicate Valid()
      reads this, store, inbox, outbox
    {
      && whole == RunAll(START, base, moves)
      && whole.receiver.Waiting?
      && whole.work.disk == store.disk
      && whole.inbox == inbox.entries && whole.outbox == outbox.entries
    }

    constructor (base: string)
      ensures Valid() && this.base == base && moves == []
      ensures fresh(store) && fresh(inbox) && fresh(outbox)
    {
      this.base := base;
      store := new Store();
      inbox := new Directory<Message>();
      outbox := new Directory<Response>();
      whole, moves := START, [];
    }

    /** One request: read it, skip it if it was answered, else compute the answer and publish it. */
    method Process(rid: RequestId, clock: Clock, fault: Fault)
      requires Valid()
      modifies this, store, outbox
      ensures Valid()
      ensures moves == old(moves) + [Take(rid, clock, fault)] + [Post(false)]
      ensures Extends(old(outbox.entries), outbox.entries)
      ensures forall x :: x in outbox.entries ==> x in old(outbox.entries) || x == rid
      ensures forall id :: Orphaned(old(store.disk), id) ==> Orphaned(store.disk, id)
      ensures fault.NoFault? && rid in inbox.entries && |old(outbox.entries)| < CAPACITY ==>
        rid in outbox.entries || Unanswerable(store.disk, rid, inbox.entries[rid], base)
      ensures rid !in inbox.entries || rid in old(outbox.entries) ==>
        store.disk == old(store.disk) && outbox.entries == old(outbox.entries)
      ensures rid in inbox.entries && rid !in old(outbox.entries) ==>
        var m := inbox.entries[rid];
        && (rid in outbox.entries ==>
              AnswersRightly(old(store.disk), store.disk, rid, m, base, clock, Some(outbox.entries[rid].reply)))
        && (fault.NoFault? && |old(outbox.entries)| < CAPACITY && rid !in outbox.entries ==>
              AnswersRightly(old(store.disk), store.disk, rid, m, base, clock, None))
        && (m.capability != "work.submit" && m.capability != "work.cancel" ==> store.disk == old(store.disk))
        && forall x :: x != Subject(m) ==> FilesOf(store.disk, x) == FilesOf(old(store.disk), x)
    {
      hide RunAll, AnswerTo, Unanswerable, Orphaned, HandoffInv, AnswersRightly;
      Sound(base, moves);
      RunAllThen(START, base, moves, Take(rid, clock, fault));
      RunAllThen(START, base, moves + [Take(rid, clock, fault)], Post(false));
      ghost var before := whole;
      whole := Step(Step(whole, base, Take(rid, clock, fault)), base, Post(false));
      moves := moves + [Take(rid, clock, fault)] + [Post(false)];
      var message := inbox.Read(rid);
      if message.None? {
        return;
      }
      var existing := outbox.Read(rid);
      if existing.Some? {
        return;
      }
      StatusOnlyReads(store.disk, rid, message.value, base, clock, fault);
      Respond(rid, message.value, before, clock, fault);
    }

    /** Answer from the store, and publish the answer if there is one. */
    method Respond(rid: RequestId, message: Message, ghost before: System, clock: Clock, fault: Fault)
      requires HandoffInv(before, base) && before.work.disk == store.disk
      modifies store, outbox
      ensures var answered := AnswerTo(old(store.disk), rid, message, base, clock, fault);
        && store.disk == answered.disk
        && outbox.entries ==
             if answered.reply.None? then old(outbox.entries)
             else
               var response := Response(rid, MessageDigest(message), answered.reply.value);
               After'(old(outbox.entries), Published(old(outbox.entries), rid, response))
      ensures forall id :: Orphaned(old(store.disk), id) ==> Orphaned(store.disk, id)
      ensures fault.NoFault? && |old(outbox.entries)| < CAPACITY ==>
        rid in outbox.entries || Unanswerable(store.disk, rid, message, base)
      ensures var answered := AnswerTo(old(store.disk), rid, message, base, clock, fault);
        rid !in old(outbox.entries) && |old(outbox.entries)| < CAPACITY ==>
          (rid in outbox.entries <==> answered.reply.Some?)
      ensures rid in outbox.entries && rid !in old(outbox.entries) ==>
        AnswersRightly(old(store.disk), store.disk, rid, message, base, clock, Some(outbox.entries[rid].reply))
      ensures fault.NoFault? && rid !in outbox.entries && |old(outbox.entries)| < CAPACITY ==>
        AnswersRightly(old(store.disk), store.disk, rid, message, base, clock, None)
    {
      hide AnswerTo, Unanswerable, Orphaned, HandoffInv, AnswersRightly;
      ghost var disk := store.disk;
      AnswerIsRight(disk, rid, message, base, clock, fault);
      var reply := Answer(message, rid, before, clock, fault);
      forall id | Orphaned(disk, id) ensures Orphaned(store.disk, id) {
        OrphansStay(disk, rid, message, base, clock, fault, id);
      }
      if fault.NoFault? && reply.None? {
        OnlyOrphansAreUnanswered(disk, rid, message, base, clock);
        UnanswerableStays(disk, store.disk, rid, message, base);
      }
      if reply.Some? {
        var _ := outbox.Publish(rid, Response(rid, MessageDigest(message), reply.value));
      }
    }

    /** The store section behind an answer. */
    method Answer(message: Message, rid: RequestId, ghost before: System, clock: Clock, fault: Fault) returns (reply: Option<Reply>)
      requires HandoffInv(before, base) && before.work.disk == store.disk
      modifies store
      ensures store.disk == AnswerTo(old(store.disk), rid, message, base, clock, fault).disk
      ensures reply == AnswerTo(old(store.disk), rid, message, base, clock, fault).reply
    {
      var checked := Validated(message, rid, base);
      if checked.Raised? {
        return if checked.error.Rejected? then Some(Declined(checked.error.code)) else None;
      }
      var outcome: Outcome<Record>;
      var created: Option<bool> := None;
      match checked.value {
        case DoSubmit(request) =>
          var admission := store.Submit(request, base, clock, fault);
          if admission.Returned? {
            outcome, created := Returned(admission.value.0), Some(admission.value.1);
          } else {
            outcome := Raised(admission.error);
          }
        case DoCancel(id) =>
          assert TaskInv(before.work, id);
          outcome := store.Cancel(id, clock.stamped, fault);
        case DoStatus(id) =>
          var task := FilesOf(store.disk, id).task;
          outcome := if task.None? then Raised(Rejected("unknown_task")) else Returned(task.value);
      }
      match outcome {
        case Returned(record) => reply := Some(Completed(SummaryOf(record), created));
        case Raised(Rejected(code)) => reply := Some(Declined(code));
        case Raised(_) => reply := None;
      }
    }

    /**
     One pass over the inbox; a request that cannot be answered does not stop the others. If nothing fails and there is
     room in the outbox, every request is answered but for submissions that an orphan directory blocks.
     */
    method Tick(clock: RequestId -> Clock, fault: RequestId -> Fault)
      requires Valid()
      modifies this, store, outbox
      ensures Valid() && old(moves) <= moves
      ensures Extends(old(outbox.entries), outbox.entries)
      ensures forall x :: x in outbox.entries ==> x in old(outbox.entries) || x in inbox.entries
      ensures (forall rid :: fault(rid).NoFault?) && |old(outbox.entries).Keys + inbox.entries.Keys| <= CAPACITY ==>
        forall rid :: rid in inbox.entries ==>
          rid in outbox.entries || Unanswerable(store.disk, rid, inbox.entries[rid], base)
      ensures forall rid :: rid in outbox.entries && rid !in old(outbox.entries) ==>
        EverRight(rid, inbox.entries[rid], base, clock(rid), outbox.entries[rid].reply)
    {
      hide RunAll, HandoffInv, Unanswerable, Orphaned, AnswersRightly;
      ghost var smooth := (forall rid :: fault(rid).NoFault?) && |outbox.entries.Keys + inbox.entries.Keys| <= CAPACITY;
      ghost var all := outbox.entries.Keys + inbox.entries.Keys;
      var names := inbox.entries.Keys;
      while names != {}
        invariant Valid() && old(moves) <= moves
        invariant names <= inbox.entries.Keys && outbox.entries.Keys <= all
        invariant Extends(old(outbox.entries), outbox.entries)
        invariant forall x :: x in outbox.entries ==> x in old(outbox.entries) || x in inbox.entries
        invariant forall rid :: rid in outbox.entries && rid !in old(outbox.entries) ==>
          rid in inbox.entries && EverRight(rid, inbox.entries[rid], base, clock(rid), outbox.entries[rid].reply)
        invariant smooth ==> forall rid :: rid in inbox.entries && rid !in names ==>
          rid in outbox.entries || Unanswerable(store.disk, rid, inbox.entries[rid], base)
        decreases names
      {
        var rid :| rid in names;
        names := names - {rid};
        ghost var disk, done := store.disk, outbox.entries.Keys;
        if rid !in outbox.entries { Room(outbox.entries.Keys, all, rid); }
        assert |outbox.entries| == |outbox.entries.Keys|;
        Process(rid, clock(rid), fault(rid));
        forall x | smooth && x in inbox.entries && x !in names
          ensures x in outbox.entries || Unanswerable(store.disk, x, inbox.entries[x], base)
        {
          if x != rid && x !in done { UnanswerableStays(disk, store.disk, x, inbox.entries[x], base); }
        }
      }
    }
  }

  datatype Invocation = Got(response: Response) | Pending | InvalidResponse | Refused(error: Error)

  predicate FirstView(views: seq<map<RequestId, Response>>, k: int, rid: RequestId) {
    && 0 <= k < |views|
    && rid in views[k]
    && forall j :: 0 <= j < k ==> rid !in views[j]
  }

  function Request(rid: RequestId, capability: string, arguments: Arguments): Message {
    Message("0.1", rid, capability, arguments)
  }

  /**
   Check the arguments, publish the request and poll for its response. `views` are the outbox as each poll finds it;
   the wait ends with the first view that holds an entry, or as pending after the last.
   */
  method Invoke(inbox: Directory<Message>, rid: RequestId, capability: string, arguments: Arguments, base: string,
                views: seq<map<RequestId, Response>>) returns (result: Invocation)
    modifies inbox
    ensures var message := Request(rid, capability, arguments);
      var checked := Validated(message, rid, base);
      if checked.Raised? then result == Refused(checked.error) && inbox.entries == old(inbox.entries)
      else
        var published := Published(old(inbox.entries), rid, message);
        && inbox.entries == After'(old(inbox.entries), published)
        && (published.Raised? ==> result == Refused(published.error))
        && (published.Returned? ==> !result.Refused? && rid in inbox.entries && inbox.entries[rid] == message)
    ensures var message := Request(rid, capability, arguments);
      !Sensible(message, base) ==>
        && result.Refused? && result.error.Rejected? && AlwaysDeclined(rid, message, base, result.error.code)
        && inbox.entries == old(inbox.entries)
    ensures Sensible(Request(rid, capability, arguments), base) && rid !in old(inbox.entries) && |old(inbox.entries)| < CAPACITY ==>
      !result.Refused? && inbox.entries == old(inbox.entries)[rid := Request(rid, capability, arguments)]
    ensures result.Pending? ==> forall k :: 0 <= k < |views| ==> rid !in views[k]
    ensures result.Got? ==>
      exists k :: FirstView(views, k, rid) && result.response == views[k][rid]
    ensures result.Got? ==> Accepts(rid, Request(rid, capability, arguments), result.response)
    ensures result.InvalidResponse? ==>
      exists k :: FirstView(views, k, rid) && !Accepts(rid, Request(rid, capability, arguments), views[k][rid])
  {
    var message := Request(rid, capability, arguments);
    ClientAndReceiverAgree(rid, message, base);
    var checked := Validated(message, rid, base);
    if checked.Raised? {
      return Refused(checked.error);
    }
    var error := inbox.Publish(rid, message);
    if error.Some? {
      return Refused(error.value);
    }
    for k := 0 to |views|
      invariant forall j :: 0 <= j < k ==> rid !in views[j]
    {
      if rid in views[k] {
        assert FirstView(views, k, rid);
        return if Accepts(rid, message, views[k][rid]) then Got(views[k][rid]) else InvalidResponse;
      }
    }
    result := Pending;
  }
}
