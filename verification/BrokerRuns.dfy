/**
 What holds over every run of the broker, its agent and the ledger: the spend bound,
 the shape of the turn records, the bounded conversation and its termination.
 */
module BrokerRuns {
  import opened Options
  import opened InferenceLedger
  import opened Broker
  import opened BrokerLedger

  // ----- sums never fall, and the cap holds

  lemma {:induction false} SameMonths(turns: seq<Turn>, turns': seq<Turn>, month: int)
    requires |turns| == |turns'|
    requires forall i :: 0 <= i < |turns| ==> turns[i].month == turns'[i].month && turns[i].reserved == turns'[i].reserved
    ensures MonthOfTurns(turns, month) == MonthOfTurns(turns', month)
    decreases |turns|
  {
    if turns != [] {
      SameMonths(turns[..|turns| - 1], turns'[..|turns| - 1], month);
    }
  }

  /** A write that keeps a record's provider and reservations keeps every sum. */
  lemma QuietWrite(files: Files, i: nat, record: Record, provider: string, month: int)
    requires i < |files| && record.provider == files[i].record.provider
    requires |record.turns| == |files[i].record.turns|
    requires forall k :: 0 <= k < |record.turns| ==> record.turns[k].month == files[i].record.turns[k].month
    requires forall k :: 0 <= k < |record.turns| ==> record.turns[k].reserved == files[i].record.turns[k].reserved
    ensures MonthTotal(files[i := files[i].(record := record)], provider, month) == MonthTotal(files, provider, month)
  {
    hide MonthTotal;
    SameMonths(files[i].record.turns, record.turns, month);
    MonthTotalUpdate(files, i, files[i].(record := record), provider, month);
  }

  lemma {:induction false} SweepTotal(files: Files, reached: set<TaskId>, provider: string, month: int)
    ensures MonthTotal(Recover(files, reached), provider, month) == MonthTotal(files, provider, month)
    decreases |files|
  {
    if files != [] {
      var last := |files| - 1;
      assert Recover(files, reached)[..last] == Recover(files[..last], reached);
      SweepTotal(files[..last], reached, provider, month);
    }
  }

  lemma StartTotal(files: Files, provider: string, id: TaskId, write: Write, p: string, month: int)
    ensures MonthTotal(Start(files, provider, id, write).files, p, month) == MonthTotal(files, p, month)
  {
    var entry := Entry(id, Record(Status.Reserved, [], Some(provider)));
    assert (files + [entry])[..|files|] == files;
  }

  /** An accepted reservation adds to one provider's total in one month, which it has checked. */
  lemma ReserveTotal(files: Files, provider: string, id: TaskId, month: int, reviewed: bool, write: Write, p: string, m: int)
    ensures var files' := Reserve(files, provider, id, month, reviewed, write).files;
      || files' == files
      || (&& Find(files, id).Some?
          && (provider != ACCEPTANCE ==> MonthTotal(files, provider, month) + TURN_RESERVE <= MONTH_BUDGET)
          && var owner := ProviderOf(files[Find(files, id).value].record);
             MonthTotal(files', p, m) == MonthTotal(files, p, m) + (if p == owner && m == month then TURN_RESERVE else 0))
  {
    hide MonthTotal, MonthOfTurns, Find;
    if Find(files, id).Some? {
      var i := Find(files, id).value;
      var record := files[i].record;
      var turn := Turn(month, TURN_RESERVE, None, 0);
      MonthOfLongerTurns(record.turns, turn, m);
      MonthTotalUpdate(files, i, files[i].(record := record.(turns := record.turns + [turn])), p, m);
    }
  }

  lemma AdmitTotal(s: State, a: Action, p: string, m: int)
    requires LedgerInv(s) && a.Admit?
    ensures MonthTotal(Next(s, a).files, p, m) >= MonthTotal(s.files, p, m)
    ensures MonthTotal(s.files, OPENAI, m) <= MONTH_BUDGET ==> MonthTotal(Next(s, a).files, OPENAI, m) <= MONTH_BUDGET
  {
    hide MonthTotal, Reserve;
    if s.stage.TurnStart? {
      var record := OwnRecord(s);
      ReserveTotal(s.files, s.provider, s.id, a.month, a.priceReviewed, a.write, p, m);
      ReserveTotal(s.files, s.provider, s.id, a.month, a.priceReviewed, a.write, OPENAI, m);
    }
  }

  lemma OtherTotal(s: State, a: Action, p: string, m: int)
    requires LedgerInv(s) && !a.Admit?
    ensures MonthTotal(Next(s, a).files, p, m) == MonthTotal(s.files, p, m)
  {
    hide MonthTotal, LedgerInv, Find;
    var files' := Next(s, a).files;
    var found := Find(s.files, s.id);
    match a {
      case Begin(write) => StartTotal(s.files, s.provider, s.id, write, p, m);
      case RecoverLedger(reached) => SweepTotal(s.files, reached, p, m);
      case Call(_) =>
        if files' != s.files { QuietWrite(s.files, found.value, files'[found.value].record, p, m); }
      case Account(_, _) =>
        if files' != s.files { QuietWrite(s.files, found.value, files'[found.value].record, p, m); }
      case Conclude(_) =>
        if files' != s.files { QuietWrite(s.files, found.value, files'[found.value].record, p, m); }
      case FailFinish(_) =>
        if files' != s.files { QuietWrite(s.files, found.value, files'[found.value].record, p, m); }
      case _ => TalkKeepsLedger(s, a);
    }
  }

  lemma StepKeepsCap(s: State, a: Action)
    requires LedgerInv(s) && WithinCap(s.files)
    ensures WithinCap(Next(s, a).files)
  {
    hide MonthTotal, LedgerInv, Next;
    forall m ensures MonthTotal(Next(s, a).files, OPENAI, m) <= MONTH_BUDGET {
      if a.Admit? { AdmitTotal(s, a, OPENAI, m); } else { OtherTotal(s, a, OPENAI, m); }
    }
  }

  // ----- runs

  ghost predicate Inv(s: State) {
    LedgerInv(s) && TalkInv(s) && WithinCap(s.files)
  }

  lemma {:induction false} RunKeepsInv(s: State, actions: seq<Action>)
    requires Inv(s)
    ensures Inv(Run(s, actions))
    decreases |actions|
  {
    hide LedgerInv, TalkInv, WithinCap, Next;
    if actions != [] {
      StepKeepsLedger(s, actions[0]);
      StepKeepsTalk(s, actions[0]);
      StepKeepsCap(s, actions[0]);
      RunKeepsInv(Next(s, actions[0]), actions[1..]);
    }
  }

  lemma InitialInv()
    ensures Inv(INITIAL)
  {
    assert Tools([]) == 0;
  }

  lemma Reached(actions: seq<Action>)
    ensures Inv(Run(INITIAL, actions))
  {
    InitialInv();
    RunKeepsInv(INITIAL, actions);
  }

  // ----- money

  function CallsOfTurns(turns: seq<Turn>): nat {
    if turns == [] then 0 else CallsOfTurns(turns[..|turns| - 1]) + turns[|turns| - 1].calls
  }

  function MonthCallsOfTurns(turns: seq<Turn>, month: int): nat {
    if turns == [] then 0
    else
      var last := turns[|turns| - 1];
      MonthCallsOfTurns(turns[..|turns| - 1], month) + (if last.month == month then last.calls else 0)
  }

  /** The calls to the paid provider on reservations of a month. */
  function PaidCalls(files: Files, month: int): nat {
    if files == [] then 0
    else
      var record := files[|files| - 1].record;
      PaidCalls(files[..|files| - 1], month)
      + (if ProviderOf(record) == OPENAI then MonthCallsOfTurns(record.turns, month) else 0)
  }

  predicate Covered(turns: seq<Turn>) {
    forall i :: 0 <= i < |turns| ==> turns[i].reserved == TURN_RESERVE && turns[i].calls <= 1
  }

  lemma {:induction false} TurnsCover(turns: seq<Turn>, month: int)
    requires Covered(turns)
    ensures CallsOfTurns(turns) <= |turns|
    ensures MonthCallsOfTurns(turns, month) * TURN_RESERVE <= MonthOfTurns(turns, month)
    decreases |turns|
  {
    if turns != [] {
      TurnsCover(turns[..|turns| - 1], month);
    }
  }

  lemma ShapeCovers(record: Record)
    requires RecordShape(record)
    ensures Covered(record.turns)
  {
    var turns := record.turns;
    forall i | 0 <= i < |turns| ensures turns[i].reserved == TURN_RESERVE && turns[i].calls <= 1 {
      assert i < |turns| - 1 ==> Settled(turns[i]);
    }
  }

  lemma {:induction false} CallsAreReserved(files: Files, month: int)
    requires forall i :: 0 <= i < |files| ==> RecordShape(files[i].record)
    ensures PaidCalls(files, month) * TURN_RESERVE <= MonthTotal(files, OPENAI, month)
    decreases |files|
  {
    if files != [] {
      var record := files[|files| - 1].record;
      CallsAreReserved(files[..|files| - 1], month);
      ShapeCovers(record);
      TurnsCover(record.turns, month);
    }
  }

  /** The spend bound, over all tasks, sessions, kills and recoveries. */
  lemma SpendIsBounded(actions: seq<Action>, month: int, i: nat)
    ensures var files := Run(INITIAL, actions).files;
      && MonthTotal(files, OPENAI, month) <= 15000000
      && PaidCalls(files, month) <= 60 && |files| <= 256
      && (i < |files| ==> CallsOfTurns(files[i].record.turns) <= |files[i].record.turns| <= 8)
  {
    hide MonthTotal, PaidCalls, Run;
    Reached(actions);
    var files := Run(INITIAL, actions).files;
    CallsAreReserved(files, month);
    if i < |files| {
      ShapeCovers(files[i].record);
      TurnsCover(files[i].record.turns, month);
    }
  }

  lemma {:induction false} TotalsGrow(s: State, actions: seq<Action>, provider: string, month: int)
    requires Inv(s)
    ensures MonthTotal(s.files, provider, month) <= MonthTotal(Run(s, actions).files, provider, month)
    decreases |actions|
  {
    hide MonthTotal, LedgerInv, TalkInv, Next;
    if actions != [] {
      var a := actions[0];
      if a.Admit? { AdmitTotal(s, a, provider, month); } else { OtherTotal(s, a, provider, month); }
      RunKeepsInv(s, [a]);
      assert Run(s, [a]) == Next(s, a);
      TotalsGrow(Next(s, a), actions[1..], provider, month);
    }
  }

  lemma {:induction false} RunAppend(s: State, first: seq<Action>, more: seq<Action>)
    ensures Run(s, first + more) == Run(Run(s, first), more)
    decreases |first|
  {
    if first == [] {
      assert first + more == more;
    } else {
      assert (first + more)[1..] == first[1..] + more;
      RunAppend(Next(s, first[0]), first[1..], more);
    }
  }

  /** A reservation is never refunded. */
  lemma NothingIsRefunded(actions: seq<Action>, more: seq<Action>, provider: string, month: int)
    ensures MonthTotal(Run(INITIAL, actions).files, provider, month)
         <= MonthTotal(Run(INITIAL, actions + more).files, provider, month)
  {
    hide MonthTotal;
    Reached(actions);
    RunAppend(INITIAL, actions, more);
    TotalsGrow(Run(INITIAL, actions), more, provider, month);
  }

  /**
   Over every run every turn is reserved at 250000 and called at most once, and a recorded usage is priced at 3 for a
   token read and 11 for one written. Only the last turn may be of unknown outcome or dearer than its reservation.
   */
  lemma TurnRecords(actions: seq<Action>, i: nat, k: nat)
    requires i < |Run(INITIAL, actions).files|
    requires k < |Run(INITIAL, actions).files[i].record.turns|
    ensures var turns := Run(INITIAL, actions).files[i].record.turns;
      && turns[k].reserved == 250000 && turns[k].calls <= 1
      && (turns[k].usage.Some? ==>
            && turns[k].calls == 1
            && turns[k].usage.value.estimated == 3 * turns[k].usage.value.input + 11 * turns[k].usage.value.output)
      && (k < |turns| - 1 ==>
            turns[k].usage.Some? && 3 * turns[k].usage.value.input + 11 * turns[k].usage.value.output <= 250000)
  {
    Reached(actions);
    var turns := Run(INITIAL, actions).files[i].record.turns;
    assert RecordShape(Run(INITIAL, actions).files[i].record);
    assert k < |turns| - 1 ==> Settled(turns[k]);
  }

  // ----- the conversation

  /** The agent's loop never runs out of messages to read. */
  lemma FallThroughIsUnreachable(actions: seq<Action>)
    ensures var s := Run(INITIAL, actions);
      && |s.sent| <= 25
      && (s.agent.Reading? ==> s.read < 25)
      && Next(s, AgentFallsThrough) == s
  {
    hide LedgerInv, WithinCap, Run, Tools;
    Reached(actions);
    var s := Run(INITIAL, actions);
    assert s.read > 0 && s.agent.Reading? ==> !Ending(s.sent[s.read - 1]);
  }

  /** An agent that returned was told `complete`, and the ledger says so from then on. */
  lemma CompleteMeansCompleted(actions: seq<Action>, more: seq<Action>)
    requires Run(INITIAL, actions).agent.Returned?
    ensures Told(Run(INITIAL, actions + more).files, Run(INITIAL, actions).id)
  {
    hide LedgerInv, WithinCap;
    Reached(actions);
    var s := Run(INITIAL, actions);
    assert Ending(s.sent[s.read - 1]);
    RunAppend(INITIAL, actions, more);
    ToldForGood(s, more, s.id);
  }

  lemma CompletedStays(s: State, a: Action)
    ensures s.completed <= Next(s, a).completed
  {
    hide Start, Reserve, RecordUsage, Finish, Recover, WithCall;
  }

  lemma {:induction false} ToldForGood(s: State, actions: seq<Action>, id: TaskId)
    requires Inv(s) && id in s.completed
    ensures Told(Run(s, actions).files, id)
    decreases |actions|
  {
    hide TalkInv, WithinCap, Told, Next, FilesShape, Owned;
    if actions != [] {
      RunKeepsInv(s, [actions[0]]);
      assert Run(s, [actions[0]]) == Next(s, actions[0]);
      CompletedStays(s, actions[0]);
      ToldForGood(Next(s, actions[0]), actions[1..], id);
    }
  }

  // ----- termination

  function BrokerWork(stage: Stage): nat {
    match stage
    case Ended => 0
    case FailureReady(_) => 1
    case Failing(_) => 2
    case Starting => 100
    case TurnStart(n) => if n <= MAX_TURNS then 3 + (MAX_TURNS - n) * 12 else 3
    case Noting(n) => Work(n, 11)
    case Calling(n) => Work(n, 10)
    case Accounting(n) => Work(n, 9)
    case Reporting(n) => Work(n, 8)
    case Judging(n) => Work(n, 7)
    case Asking(n) => Work(n, 6)
    case Awaiting(n) => Work(n, 5)
    case Concluding(n) => Work(n, 4)
    case Closing(n) => Work(n, 3)
  }

  function Work(n: nat, left: nat): nat {
    if n < MAX_TURNS then 3 + (MAX_TURNS - n - 1) * 12 + left else 3 + left
  }

  function AgentWork(agent: Agent): nat {
    if agent.Invoking? then 2 else if agent.Reading? then 1 else 0
  }

  /** What is left of a session: broker steps, unread messages, the agent's steps. */
  function Remaining(s: State): nat
    requires s.read <= |s.sent|
  {
    10 * BrokerWork(s.stage) + 2 * (|s.sent| - s.read) + AgentWork(s.agent)
  }

  lemma AgentStepsApproach(s: State, a: Action)
    requires s.read <= |s.sent| && ByAgent(a)
    ensures Next(s, a).read <= |Next(s, a).sent|
    ensures Next(s, a) == s || Remaining(Next(s, a)) < Remaining(s)
  {
    hide BrokerWork;
  }

  lemma WritesApproach(s: State, a: Action)
    requires s.read <= |s.sent| && SentBy(s.stage, |s.sent|) && WritesLedger(a) && !a.RecoverLedger?
    ensures Next(s, a).read <= |Next(s, a).sent|
    ensures Next(s, a) == s || Remaining(Next(s, a)) < Remaining(s)
  {
    hide Start, Reserve, RecordUsage, Finish, WithCall, AgentWork, CodeOf;
  }

  lemma SendsApproach(s: State, a: Action)
    requires s.read <= |s.sent| && SentBy(s.stage, |s.sent|)
    requires a.SendNote? || a.SendReport? || a.Ask? || a.SendComplete? || a.SendFailure?
    ensures Next(s, a).read <= |Next(s, a).sent|
    ensures Next(s, a) == s || Remaining(Next(s, a)) < Remaining(s)
  {
    hide AgentWork;
  }

  lemma BrokerStepsApproach(s: State, a: Action)
    requires s.read <= |s.sent| && SentBy(s.stage, |s.sent|)
    requires a.Judge? || a.TakeReply? || a.PeerClosed? || a.Deadline? || a.Kill?
    ensures Next(s, a).read <= |Next(s, a).sent|
    ensures Next(s, a) == s || Remaining(Next(s, a)) < Remaining(s)
  {
    hide AgentWork;
  }

  /** Every step that has an effect, save opening a session or sweeping the ledger after one, brings the end nearer. */
  lemma StepsApproachTheEnd(s: State, a: Action)
    requires TalkInv(s) && TalkInv(Next(s, a)) && !a.Open? && !a.RecoverLedger?
    ensures Next(s, a) == s || Remaining(Next(s, a)) < Remaining(s)
  {
    hide Next, Remaining, Tools;
    if ByAgent(a) {
      AgentStepsApproach(s, a);
    } else if WritesLedger(a) {
      WritesApproach(s, a);
    } else if a.SendNote? || a.SendReport? || a.Ask? || a.SendComplete? || a.SendFailure? {
      SendsApproach(s, a);
    } else {
      BrokerStepsApproach(s, a);
    }
  }

  function Effective(s: State, actions: seq<Action>): nat
    decreases |actions|
  {
    if actions == [] then 0
    else (if Next(s, actions[0]) == s then 0 else 1) + Effective(Next(s, actions[0]), actions[1..])
  }

  predicate WithinSession(actions: seq<Action>) {
    forall i :: 0 <= i < |actions| ==> !actions[i].Open? && !actions[i].RecoverLedger?
  }

  lemma {:induction false} SessionsEnd(s: State, actions: seq<Action>)
    requires TalkInv(s) && WithinSession(actions)
    ensures Effective(s, actions) <= Remaining(s)
    decreases |actions|
  {
    hide TalkInv, Next, Remaining;
    if actions != [] {
      StepKeepsTalk(s, actions[0]);
      StepsApproachTheEnd(s, actions[0]);
      assert WithinSession(actions[1..]);
      SessionsEnd(Next(s, actions[0]), actions[1..]);
    }
  }

  /** The step that one side takes next when nothing fails, no deadline passes and nobody is killed. */
  function Nudge(s: State): Action {
    match s.stage
    case Starting => Begin(Done)
    case TurnStart(_) => Admit(false, true, 0, true, Done)
    case Noting(_) => SendNote(false)
    case Calling(_) => Call(None)
    case Accounting(_) => Account(Some((0, 0)), Done)
    case Reporting(_) => SendReport(false)
    case Judging(_) => Judge(Final)
    case Asking(_) => Ask(false, false)
    case Concluding(_) => Conclude(Done)
    case Closing(_) => SendComplete(false)
    case Failing(_) => FailFinish(Done)
    case FailureReady(_) => SendFailure(false)
    case Awaiting(_) =>
      if s.taken < s.replies then TakeReply(true)
      else if AgentClosed(s.agent) then PeerClosed
      else if s.agent.Invoking? then AgentReplies(true, false)
      else AgentReads
    case Ended =>
      if s.agent.Invoking? then AgentReplies(true, true)
      else if s.read < |s.sent| then AgentReads
      else AgentEof
  }

  predicate Closed(s: State) {
    s.stage.Ended? && AgentClosed(s.agent)
  }

  lemma UnreadTool(s: State)
    requires TalkInv(s) && s.stage.Awaiting? && s.taken == s.replies && s.agent.Reading?
    ensures s.read < |s.sent|
  {
    assert s.sent[..|s.sent|] == s.sent;
  }

  /** Until both sides are closed, one of them has a step to take: neither waits on the other forever. */
  lemma NobodyWaitsForever(s: State)
    requires TalkInv(s) && !Closed(s)
    ensures Next(s, Nudge(s)) != s && !Nudge(s).Open? && !Nudge(s).RecoverLedger?
  {
    hide Start, Reserve, RecordUsage, Finish, WithCall, Tools;
    if s.stage.Awaiting? && s.taken == s.replies && s.agent.Reading? { UnreadTool(s); }
  }

  /** From every reachable state the session can be played to its end without failures. */
  lemma {:induction false} CanBePlayedOut(s: State) returns (actions: seq<Action>)
    requires TalkInv(s)
    ensures WithinSession(actions) && |actions| <= Remaining(s)
    ensures TalkInv(Run(s, actions)) && Closed(Run(s, actions))
    decreases Remaining(s)
  {
    hide TalkInv, Next, Remaining, Nudge, Closed;
    if Closed(s) {
      actions := [];
    } else {
      NobodyWaitsForever(s);
      StepKeepsTalk(s, Nudge(s));
      StepsApproachTheEnd(s, Nudge(s));
      var rest := CanBePlayedOut(Next(s, Nudge(s)));
      actions := [Nudge(s)] + rest;
    }
  }
}
