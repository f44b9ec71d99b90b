/**
 What every run of the broker keeps of the ledger: the shape of the turn records, the
 monthly cap, and the status behind every `complete` message.
 */
module BrokerLedger {
  import opened Options
  import opened InferenceLedger
  import opened Broker

  predicate Priced(usage: Usage) {
    usage.estimated == 3 * usage.input + 11 * usage.output
  }

  predicate Settled(turn: Turn) {
    && turn.reserved == TURN_RESERVE && turn.calls == 1
    && turn.usage.Some? && Priced(turn.usage.value) && turn.usage.value.estimated <= turn.reserved
  }

  predicate Opened(turn: Turn) {
    && turn.reserved == TURN_RESERVE && turn.calls <= 1
    && (turn.usage.Some? ==> turn.calls == 1 && Priced(turn.usage.value))
  }

  /** Only the last turn may have an unknown outcome or an estimate over its reservation. */
  predicate TurnShape(turns: seq<Turn>) {
    && |turns| <= MAX_TURNS
    && (forall i :: 0 <= i < |turns| - 1 ==> Settled(turns[i]))
    && (turns != [] ==> Opened(turns[|turns| - 1]))
  }

  predicate Known(provider: string) {
    provider == OPENAI || provider == ACCEPTANCE
  }

  predicate RecordShape(record: Record) {
    TurnShape(record.turns) && record.provider.Some? && Known(record.provider.value)
  }

  predicate FilesShape(files: Files) {
    && |files| <= RETAINED
    && (forall i, j :: 0 <= i < j < |files| ==> files[i].id != files[j].id)
    && (forall i :: 0 <= i < |files| ==> RecordShape(files[i].record))
  }

  function RecordOf(files: Files, id: TaskId): (record: Option<Record>)
    ensures record.Some? <==> Find(files, id).Some?
    ensures record.Some? ==> exists i :: 0 <= i < |files| && files[i] == Entry(id, record.value)
  {
    var found := Find(files, id);
    if found.None? then None
    else
      assert files[found.value] == Entry(id, files[found.value].record);
      Some(files[found.value].record)
  }

  predicate InTurns(stage: Stage) {
    !stage.Ended? && !stage.Starting? && !stage.Failing? && !stage.FailureReady?
  }

  /** What a stage of the loop says about its task's record. */
  predicate StageMatches(stage: Stage, record: Record) {
    var turns := record.turns;
    InTurns(stage) ==>
      if stage.TurnStart? then |turns| == stage.n && (turns != [] ==> Settled(turns[|turns| - 1]))
      else
        && |turns| == stage.n + 1
        && var last := turns[|turns| - 1];
           if stage.Noting? || stage.Calling? then last.usage.None? && last.calls == 0
           else if stage.Accounting? then last.usage.None? && last.calls == 1
           else Settled(last) && (stage.Closing? ==> record.status.ReasoningCompleted?)
  }

  predicate Told(files: Files, id: TaskId) {
    RecordOf(files, id).Some? && RecordOf(files, id).value.status.ReasoningCompleted?
  }

  predicate Owned(s: State) {
    s.started ==>
      && Known(s.provider) && RecordOf(s.files, s.id).Some?
      && var record := RecordOf(s.files, s.id).value;
         record.provider == Some(s.provider) && StageMatches(s.stage, record)
  }

  predicate LedgerInv(s: State) {
    && FilesShape(s.files)
    && (s.stage.Starting? ==> !s.started && Known(s.provider))
    && (InTurns(s.stage) ==> s.started)
    && Owned(s)
    && (forall id :: id in s.completed ==> Told(s.files, id))
    && (s.id in s.completed && !s.stage.Ended? ==> !s.started)
  }

  // ----- records under the ledger's writes

  lemma {:induction false} FindSame(files: Files, files': Files, id: TaskId)
    requires |files| == |files'| && forall k :: 0 <= k < |files| ==> files[k].id == files'[k].id
    ensures Find(files, id) == Find(files', id)
    decreases |files|
  {
    if files != [] {
      FindSame(files[..|files| - 1], files'[..|files| - 1], id);
    }
  }

  lemma Replaced(files: Files, id: TaskId, record: Record, other: TaskId)
    requires Find(files, id).Some?
    ensures var i := Find(files, id).value;
      RecordOf(files[i := files[i].(record := record)], other) == if other == id then Some(record) else RecordOf(files, other)
  {
    var i := Find(files, id).value;
    FindSame(files, files[i := files[i].(record := record)], other);
  }

  lemma Appended(files: Files, entry: Entry, other: TaskId)
    requires Find(files, entry.id).None?
    ensures RecordOf(files + [entry], other) == if other == entry.id then Some(entry.record) else RecordOf(files, other)
  {
    assert (files + [entry])[..|files|] == files;
  }

  lemma Swept(files: Files, reached: set<TaskId>, id: TaskId)
    ensures RecordOf(Recover(files, reached), id).Some? <==> RecordOf(files, id).Some?
    ensures RecordOf(files, id).Some? ==>
      var record, record' := RecordOf(files, id).value, RecordOf(Recover(files, reached), id).value;
      record' == record || (record.status.Reserved? && record' == record.(status := Interrupted))
  {
    FindSame(files, Recover(files, reached), id);
  }

  /** The session replaces its own record. */
  lemma OwnWrite(s: State, record: Record, stage: Stage)
    requires LedgerInv(s) && s.started && !s.stage.Ended? && !stage.Starting?
    requires RecordShape(record) && record.provider == Some(s.provider) && StageMatches(stage, record)
    ensures var i := Find(s.files, s.id).value;
      LedgerInv(s.(files := s.files[i := s.files[i].(record := record)], stage := stage))
  {
    hide StageMatches, RecordShape, RecordOf;
    var i := Find(s.files, s.id).value;
    var files := s.files[i := s.files[i].(record := record)];
    Replaced(s.files, s.id, record, s.id);
    forall id | id in s.completed ensures Told(files, id) {
      Replaced(s.files, s.id, record, id);
    }
  }

  lemma OwnRecord(s: State) returns (record: Record)
    requires LedgerInv(s) && s.started
    ensures Find(s.files, s.id).Some? && record == s.files[Find(s.files, s.id).value].record
    ensures RecordShape(record) && record.provider == Some(s.provider) && StageMatches(s.stage, record)
  {
    record := s.files[Find(s.files, s.id).value].record;
  }

  lemma FreshRecordMatches(record: Record)
    requires record.turns == []
    ensures StageMatches(TurnStart(0), record) && forall code :: StageMatches(Failing(code), record)
  {
  }

  lemma BeginKeepsLedger(s: State, write: Write)
    requires LedgerInv(s)
    ensures LedgerInv(Next(s, Begin(write)))
  {
    hide StageMatches, RecordOf;
    if s.stage.Starting? && Find(s.files, s.id).None? && |s.files| < RETAINED && !write.Lost? {
      var entry := Entry(s.id, Record(Status.Reserved, [], Some(s.provider)));
      var s' := Next(s, Begin(write));
      assert s'.files == s.files + [entry];
      Appended(s.files, entry, s.id);
      FreshRecordMatches(entry.record);
      forall id | id in s.completed ensures Told(s'.files, id) {
        Appended(s.files, entry, id);
      }
    }
  }

  lemma FailingKeepsLedger(s: State, code: string)
    requires LedgerInv(s) && !s.stage.Ended?
    ensures LedgerInv(s.(stage := Failing(code)))
  {
  }

  /** However the write of the session's own record ends. */
  lemma AnswerKeepsLedger(s: State, record: Record, write: Write, next: Stage)
    requires LedgerInv(s) && s.started && !s.stage.Ended? && !next.Starting? && Find(s.files, s.id).Some?
    requires RecordShape(record) && record.provider == Some(s.provider) && StageMatches(next, record)
    ensures LedgerInv(AfterLedger(s, Written(s.files, Find(s.files, s.id).value, record, write), next))
  {
    hide LedgerInv, RecordShape, StageMatches;
    var answer := Written(s.files, Find(s.files, s.id).value, record, write);
    if write.Done? {
      OwnWrite(s, record, next);
    } else {
      var code := CodeOf(StorageError);
      FailingMatches(record, code);
      if write.Lost? { FailingKeepsLedger(s, code); } else { OwnWrite(s, record, Failing(code)); }
    }
  }

  lemma FailingMatches(record: Record, code: string)
    ensures StageMatches(Failing(code), record)
  {
  }

  lemma ReserveKeepsLedger(s: State, month: int, priceReviewed: bool, write: Write)
    requires LedgerInv(s) && s.stage.TurnStart?
    ensures LedgerInv(AfterLedger(s, Reserve(s.files, s.provider, s.id, month, priceReviewed, write), Noting(s.stage.n)))
  {
    hide MonthTotal;
    var record := OwnRecord(s);
    var answer := Reserve(s.files, s.provider, s.id, month, priceReviewed, write);
    var record' := record.(turns := record.turns + [Turn(month, TURN_RESERVE, None, 0)]);
    if |record.turns| < MAX_TURNS {
      AnswerKeepsLedger(s, record', write, Noting(s.stage.n));
    }
    if answer != Written(s.files, Find(s.files, s.id).value, record', write) {
      FailingKeepsLedger(s, CodeOf(answer.error.value));
    }
  }

  lemma CallKeepsLedger(s: State, failure: Option<string>)
    requires LedgerInv(s)
    ensures LedgerInv(Next(s, Call(failure)))
  {
    hide LedgerInv, RecordShape, StageMatches, CodeOf;
    if s.stage.Calling? {
      LoopHasStarted(s);
      var record := OwnRecord(s);
      HasTurns(s.stage, record);
      var last := |record.turns| - 1;
      var turn := record.turns[last];
      var record' := record.(turns := record.turns[last := turn.(calls := turn.calls + 1)]);
      CalledRecord(s.stage.n, record, record');
      IdleMatches(record');
      OwnWrite(s, record', Next(s, Call(failure)).stage);
    }
  }

  lemma LoopHasStarted(s: State)
    requires LedgerInv(s) && InTurns(s.stage)
    ensures s.started
  {
  }

  lemma HasTurns(stage: Stage, record: Record)
    requires StageMatches(stage, record) && InTurns(stage) && !stage.TurnStart?
    ensures |record.turns| == stage.n + 1
  {
  }

  lemma CalledRecord(n: nat, record: Record, record': Record)
    requires RecordShape(record) && StageMatches(Calling(n), record) && |record.turns| == n + 1
    requires var turn := record.turns[n]; record' == record.(turns := record.turns[n := turn.(calls := turn.calls + 1)])
    ensures RecordShape(record') && StageMatches(Accounting(n), record')
  {
  }

  lemma AccountKeepsLedger(s: State, tokens: Option<(nat, nat)>, write: Write)
    requires LedgerInv(s)
    ensures LedgerInv(Next(s, Account(tokens, write)))
  {
    hide LedgerInv, RecordShape, StageMatches, CodeOf;
    if s.stage.Accounting? {
      LoopHasStarted(s);
      var answer := RecordUsage(s.files, s.id, tokens, write);
      if tokens.None? || tokens.value.0 > TOKEN_LIMIT || tokens.value.1 > TOKEN_LIMIT {
        FailingKeepsLedger(s, CodeOf(answer.error.value));
      } else {
        var record := OwnRecord(s);
        HasTurns(s.stage, record);
        var last := |record.turns| - 1;
        var estimated := Estimate(tokens.value.0, tokens.value.1);
        var turn := record.turns[last].(usage := Some(Tokens(tokens.value.0, tokens.value.1, estimated)));
        var record' := record.(turns := record.turns[last := turn]);
        AccountedRecord(s.stage.n, record, record', turn);
        IdleMatches(record');
        if estimated > turn.reserved && write.Done? {
          OwnWrite(s, record', Failing(CodeOf(answer.error.value)));
        } else {
          AnswerKeepsLedger(s, record', write, if estimated > turn.reserved then Failing("") else Reporting(s.stage.n));
        }
      }
    }
  }

  lemma AccountedRecord(n: nat, record: Record, record': Record, turn: Turn)
    requires RecordShape(record) && StageMatches(Accounting(n), record) && |record.turns| == n + 1
    requires turn.usage.Some? && Priced(turn.usage.value)
    requires turn == record.turns[n].(usage := turn.usage) && record' == record.(turns := record.turns[n := turn])
    ensures RecordShape(record')
    ensures turn.usage.value.estimated <= turn.reserved ==> StageMatches(Reporting(n), record')
  {
  }

  lemma ConcludeKeepsLedger(s: State, write: Write)
    requires LedgerInv(s)
    ensures LedgerInv(Next(s, Conclude(write)))
  {
    if s.stage.Concluding? {
      var record := OwnRecord(s);
      AnswerKeepsLedger(s, record.(status := ReasoningCompleted), write, Closing(s.stage.n));
    }
  }

  lemma FailFinishKeepsLedger(s: State, write: Write)
    requires LedgerInv(s)
    ensures LedgerInv(Next(s, FailFinish(write)))
  {
    hide StageMatches, RecordShape;
    if s.stage.Failing? && s.started {
      var record := OwnRecord(s);
      var record' := record.(status := Status.Failed(s.stage.code));
      StatusShape(record, record'.status);
      IdleMatches(record');
      if !write.Lost? {
        var s' := Next(s, FailFinish(write));
        OwnWrite(s, record', s'.stage);
      } else {
        IdleMatches(record);
      }
    }
  }

  lemma StatusShape(record: Record, status: Status)
    requires RecordShape(record)
    ensures RecordShape(record.(status := status))
  {
  }

  lemma IdleMatches(record: Record)
    ensures forall stage: Stage :: !InTurns(stage) ==> StageMatches(stage, record)
  {
  }

  lemma SweepKeepsLedger(s: State, reached: set<TaskId>)
    requires LedgerInv(s)
    ensures LedgerInv(Next(s, RecoverLedger(reached)))
  {
    hide RecordOf, RecordShape, StageMatches;
    if s.stage.Ended? {
      var s' := Next(s, RecoverLedger(reached));
      forall i | 0 <= i < |s.files| ensures RecordShape(s'.files[i].record) {
        StatusShape(s.files[i].record, Interrupted);
      }
      Swept(s.files, reached, s.id);
      if s.started { IdleMatches(RecordOf(s'.files, s.id).value); }
      forall id | id in s.completed ensures Told(s'.files, id) { Swept(s.files, reached, id); }
    }
  }

  predicate WritesLedger(a: Action) {
    a.Begin? || a.Admit? || a.Call? || a.Account? || a.Conclude? || a.FailFinish? || a.RecoverLedger?
  }

  lemma TalkKeepsLedger(s: State, a: Action)
    requires LedgerInv(s) && !WritesLedger(a)
    ensures LedgerInv(Next(s, a)) && Next(s, a).files == s.files
  {
    hide RecordShape, RecordOf, FilesShape, StageMatches, Told;
    if ByAgent(a) {
      AgentLeavesLedger(s, a);
    } else {
      BrokerLeavesLedger(s, a);
    }
  }

  lemma AgentLeavesLedger(s: State, a: Action)
    requires LedgerInv(s) && ByAgent(a)
    ensures LedgerInv(Next(s, a)) && Next(s, a).files == s.files
  {
    hide RecordShape, RecordOf, FilesShape, StageMatches, Told;
  }

  predicate Sends(a: Action) {
    a.SendNote? || a.SendReport? || a.Ask? || a.SendComplete? || a.SendFailure?
  }

  lemma SendLeavesLedger(s: State, a: Action)
    requires LedgerInv(s) && Sends(a)
    ensures LedgerInv(Next(s, a)) && Next(s, a).files == s.files
  {
    hide RecordShape, RecordOf, FilesShape;
  }

  lemma BrokerLeavesLedger(s: State, a: Action)
    requires LedgerInv(s) && !WritesLedger(a) && !ByAgent(a)
    ensures LedgerInv(Next(s, a)) && Next(s, a).files == s.files
  {
    hide RecordShape, RecordOf, FilesShape;
    if Sends(a) {
      hide LedgerInv, Next;
      SendLeavesLedger(s, a);
    } else {
      hide Told, CODES;
    }
  }

  lemma StepKeepsLedger(s: State, a: Action)
    requires LedgerInv(s)
    ensures LedgerInv(Next(s, a))
  {
    hide LedgerInv, Start, Reserve, RecordUsage, Finish, Recover, WithCall, Find;
    match a {
      case Begin(write) => BeginKeepsLedger(s, write);
      case Admit(_, _, month, priceReviewed, write) =>
        if s.stage.TurnStart? {
          FailingKeepsLedger(s, "model_budget_exceeded");
          FailingKeepsLedger(s, "model_timeout");
          ReserveKeepsLedger(s, month, priceReviewed, write);
        }
      case Call(failure) => CallKeepsLedger(s, failure);
      case Account(tokens, write) => AccountKeepsLedger(s, tokens, write);
      case Conclude(write) => ConcludeKeepsLedger(s, write);
      case FailFinish(write) => FailFinishKeepsLedger(s, write);
      case RecoverLedger(reached) => SweepKeepsLedger(s, reached);
      case _ => TalkKeepsLedger(s, a);
    }
  }
}
