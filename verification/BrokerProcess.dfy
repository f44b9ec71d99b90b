/**
 The broker's loop and the agent's loop as code, each run against whatever the other
 side does in between. `trace` records every action, so each theorem about runs holds
 of both programs.
 */
module BrokerProcess {
  import opened Options
  import opened InferenceLedger
  import opened Broker
  import opened BrokerLedger
  import opened BrokerRuns
  import opened BrokerEnds
  import LedgerProcess

  /** What the broker meets in one session: the agent's steps between its own, and how its writes and sends end. */
  datatype World = World(
    agent: nat -> seq<Action>, start: Write, turns: nat -> TurnWorld, finish: Write, broken: bool)

  datatype TurnWorld = TurnWorld(
    admit: Action, call: Option<string>, tokens: Option<(nat, nat)>, account: Write, verdict: Verdict,
    tooLarge: bool, polls: nat, goodReply: bool, conclude: Write, broken: bool)

  /** What the agent meets: the broker's steps before each of its own, its guard, and its workspace's answers. */
  datatype AgentWorld = AgentWorld(broker: nat -> seq<Action>, stopped: nat -> bool, accepted: nat -> bool, broken: bool)

  predicate AgentOnly(actions: seq<Action>) {
    forall i :: 0 <= i < |actions| ==> ByAgent(actions[i])
  }

  predicate BrokerOnly(actions: seq<Action>) {
    forall i :: 0 <= i < |actions| ==> !ByAgent(actions[i])
  }

  ghost predicate Friendly(world: World) {
    && (forall k: nat :: AgentOnly(world.agent(k)))
    && (forall n: nat :: world.turns(n).admit.Admit?)
  }

  lemma AgentLeavesBroker(s: State, a: Action)
    requires ByAgent(a)
    ensures var s' := Next(s, a);
      && s'.stage == s.stage && s'.files == s.files && s'.sent == s.sent && s'.id == s.id && s'.started == s.started
      && (AgentClosed(s.agent) ==> s'.agent == s.agent)
  {
  }

  lemma BrokerLeavesAgent(s: State, a: Action)
    requires !ByAgent(a) && !AgentClosed(s.agent)
    ensures var s' := Next(s, a);
      s'.agent == s.agent && s'.read == s.read && s'.id == s.id && s.sent <= s'.sent
  {
    hide Start, Reserve, RecordUsage, Finish, Recover, WithCall;
  }

  class Session {
    const ledger: LedgerProcess.Ledger
    var id: TaskId
    var provider: string
    var stage: Stage
    var started: bool
    var sent: seq<Message>
    var taken: nat
    var agent: Agent
    var read: nat
    var replies: nat
    ghost var completed: set<TaskId>
    ghost var trace: seq<Action>

    ghost function Abstract(): State
      reads this, ledger
    {
      State(ledger.files, id, provider, stage, started, sent, taken, agent, read, replies, completed)
    }

    ghost predicate Valid()
      reads this, ledger
    {
      Abstract() == Run(INITIAL, trace)
    }

    constructor ()
      ensures Valid() && fresh(ledger) && trace == []
    {
      ledger := new LedgerProcess.Ledger();
      id, provider, stage, started, sent, taken := "", OPENAI, Ended, false, [], 0;
      agent, read, replies, completed, trace := Gone, 0, 0, {}, [];
    }

    /** One action of either side. */
    method Perform(a: Action)
      requires Valid()
      modifies this, ledger
      ensures Valid() && trace == old(trace) + [a]
      ensures Abstract() == Next(old(Abstract()), a)
    {
      hide Run, Next;
      RunAppend(INITIAL, trace, [a]);
      OneStep(Abstract(), a);
      OneFilePerTask(trace);
      trace := trace + [a];
      if WritesLedger(a) {
        PerformWrite(a);
      } else if ByAgent(a) {
        PerformAgent(a);
      } else {
        PerformTalk(a);
      }
    }

    method PerformWrite(a: Action)
      requires WritesLedger(a) && ledger.Distinct()
      modifies this`stage, this`started, ledger
      ensures Abstract() == Next(old(Abstract()), a)
    {
      hide InferenceLedger.Start, InferenceLedger.Reserve, InferenceLedger.RecordUsage, InferenceLedger.Finish, Recover;
      var error: Option<Error> := None;
      match a {
        case Begin(write) =>
          if stage.Starting? {
            error := ledger.Start(provider, id, write);
            started := error.None?;
            stage := if error.None? then TurnStart(0) else Failing(CodeOf(error.value));
          }
        case Admit(late, fits, month, priceReviewed, write) =>
          if stage.TurnStart? {
            if stage.n >= MAX_TURNS || (!late && !fits) {
              stage := Failing("model_budget_exceeded");
            } else if late {
              stage := Failing("model_timeout");
            } else {
              error := ledger.Reserve(provider, id, month, priceReviewed, write);
              stage := if error.None? then Noting(stage.n) else Failing(CodeOf(error.value));
            }
          }
        case Call(failure) =>
          if stage.Calling? {
            ledger.files := WithCall(ledger.files, id);
            stage := if failure.None? then Accounting(stage.n) else Failing(CodeOf(CodingFailure(failure.value)));
          }
        case Account(tokens, write) =>
          if stage.Accounting? {
            error := ledger.RecordUsage(id, tokens, write);
            stage := if error.None? then Reporting(stage.n) else Failing(CodeOf(error.value));
          }
        case Conclude(write) =>
          if stage.Concluding? {
            error := ledger.Finish(id, ReasoningCompleted, write);
            stage := if error.None? then Closing(stage.n) else Failing(CodeOf(error.value));
          }
        case FailFinish(write) =>
          if stage.Failing? {
            if started {
              error := ledger.Finish(id, Status.Failed(stage.code), write);
            }
            stage := if error.None? then FailureReady(stage.code) else Ended;
          }
        case RecoverLedger(reached) =>
          if stage.Ended? { ledger.Recover(reached); }
      }
    }

    /** Put a message into the socket, or meet the broken pipe of a peer that is gone. */
    method Send(message: Message, broken: bool, next: Stage)
      modifies this`sent, this`stage
      ensures Abstract() == Broker.Sent(old(Abstract()), message, broken, next)
    {
      if broken && AgentClosed(agent) {
        stage := Failing("model_invalid_response");
      } else {
        sent, stage := sent + [message], next;
      }
    }

    /** A step of the broker that leaves the ledger alone. */
    method PerformTalk(a: Action)
      requires !WritesLedger(a) && !ByAgent(a)
      modifies this`id, this`provider, this`stage, this`started, this`sent, this`taken
      modifies this`agent, this`read, this`replies, this`completed
      ensures Abstract() == Next(old(Abstract()), a)
    {
      hide CODES, WithCall, CodeOf, Broker.Sent;
      if a.SendNote? || a.SendReport? || a.Ask? || a.SendComplete? || a.SendFailure? {
        PerformSend(a);
        return;
      }
      match a {
        case Open(id', provider') =>
          if stage.Ended? && AgentClosed(agent) {
            id, provider, started, sent, taken := id', provider', false, [], 0;
            agent, read, replies := Reading, 0, 0;
            stage := if provider == OPENAI || provider == ACCEPTANCE then Starting else FailureReady("model_auth_failed");
          }
        case Judge(verdict) =>
          if stage.Judging? {
            match verdict {
              case Bad => stage := Failing("model_invalid_response");
              case Tool => stage := Asking(stage.n);
              case Final => stage := Concluding(stage.n);
            }
          }
        case TakeReply(good) =>
          if stage.Awaiting? && taken < replies {
            taken := taken + 1;
            stage := if good then TurnStart(stage.n + 1) else Failing("model_invalid_response");
          }
        case PeerClosed =>
          if stage.Awaiting? && taken == replies && AgentClosed(agent) { stage := Failing("interrupted"); }
        case Deadline => if stage.Awaiting? { stage := Failing("model_timeout"); }
        case Kill => stage := Ended;
      }
    }

    /** A message to the agent. */
    method PerformSend(a: Action)
      requires a.SendNote? || a.SendReport? || a.Ask? || a.SendComplete? || a.SendFailure?
      modifies this`stage, this`sent, this`completed
      ensures Abstract() == Next(old(Abstract()), a)
    {
      hide CODES, WithCall, CodeOf;
      match a {
        case SendNote(broken) => if stage.Noting? { Send(UsageNote, broken, Calling(stage.n)); }
        case SendReport(broken) => if stage.Reporting? { Send(UsageNote, broken, Judging(stage.n)); }
        case Ask(tooLarge, broken) =>
          if stage.Asking? {
            if tooLarge { stage := Failing("model_invalid_response"); } else { Send(ToolCall, broken, Awaiting(stage.n)); }
          }
        case SendComplete(broken) =>
          if stage.Closing? {
            Send(Complete, broken, Ended);
            if stage.Ended? { completed := completed + {id}; }
          }
        case SendFailure(broken) =>
          if stage.FailureReady? {
            if !(broken && AgentClosed(agent)) { sent := sent + [Failure(stage.code)]; }
            stage := Ended;
          }
      }
    }

    /** The next message, and what the agent does on it. */
    method TakeMessage()
      modifies this`agent, this`read
      ensures Abstract() == Next(old(Abstract()), AgentReads)
    {
      hide CODES;
      if agent.Reading? && read < |sent| && read < AGENT_MESSAGES {
        match sent[read] {
          case UsageNote => agent := Reading;
          case ToolCall => agent := Invoking;
          case Complete => agent := Returned;
          case Failure(code) => agent := Raised(Some(if code in CODES then code else "model_invalid_response"));
        }
        read := read + 1;
      }
    }

    /** A step of the agent. */
    method PerformAgent(a: Action)
      requires ByAgent(a)
      modifies this`agent, this`read, this`replies
      ensures Abstract() == Next(old(Abstract()), a)
    {
      hide CODES, WithCall, CodeOf, Sent;
      match a {
        case AgentReads => TakeMessage();
        case AgentEof =>
          if agent.Reading? && read == |sent| && stage.Ended? { agent := Raised(Some("interrupted")); }
        case AgentReplies(accepted, broken) =>
          if agent.Invoking? {
            if !accepted {
              agent := Raised(Some("patch_rejected"));
            } else if broken && stage.Ended? {
              agent := Raised(None);
            } else {
              agent, replies := Reading, replies + 1;
            }
          }
        case AgentAborts(code) =>
          if agent.Reading? || agent.Invoking? { agent := Raised(Some(code)); }
        case AgentFallsThrough =>
          if agent.Reading? && read >= AGENT_MESSAGES { agent := Raised(Some("model_budget_exceeded")); }
      }
    }

    // ----- the broker's side

    /** The agent's steps in between. */
    method Others(actions: seq<Action>)
      requires Valid() && AgentOnly(actions)
      modifies this, ledger
      ensures Valid() && old(trace) <= trace
      ensures stage == old(stage) && ledger.files == old(ledger.files) && sent == old(sent)
      ensures id == old(id) && started == old(started)
      ensures AgentClosed(old(agent)) ==> agent == old(agent)
    {
      hide Next, Run;
      for k := 0 to |actions|
        invariant Valid() && old(trace) <= trace
        invariant stage == old(stage) && ledger.files == old(ledger.files) && sent == old(sent)
        invariant id == old(id) && started == old(started)
        invariant AgentClosed(old(agent)) ==> agent == old(agent)
      {
        AgentLeavesBroker(Abstract(), actions[k]);
        Perform(actions[k]);
      }
    }

    /** Wait for the tool result: a reply, the end of the stream, or the deadline after so many polls. */
    method Await(n: nat, world: World, turn: TurnWorld)
      requires Valid() && stage == Awaiting(n) && Friendly(world)
      modifies this, ledger
      ensures Valid() && old(trace) <= trace && started == old(started) && id == old(id)
      ensures stage == TurnStart(n + 1) || stage.Failing?
    {
      hide Run, Inv, WithCall, CodeOf, CODES;
      for k := 0 to turn.polls
        invariant Valid() && old(trace) <= trace && stage == Awaiting(n) && started == old(started) && id == old(id)
      {
        Others(world.agent(k));
        Unconsumed(trace);
        if taken < replies {
          Perform(TakeReply(turn.goodReply));
          return;
        } else if AgentClosed(agent) {
          Perform(PeerClosed);
          return;
        }
      }
      Perform(Deadline);
    }

    /** One step of the loop, with the agent's steps before it. */
    method Advance(a: Action, world: World, k: nat)
      requires Valid() && Friendly(world) && InLoop(a)
      modifies this, ledger
      ensures Valid() && old(trace) <= trace && id == old(id)
      ensures MovesTo(old(stage), a, stage)
      ensures stage.Ended? && !old(stage).Ended? && !a.FailFinish? ==> Heard(sent, agent)
    {
      hide Run, Next, MovesTo;
      Others(world.agent(k));
      StageMoves(Abstract(), a);
      Perform(a);
    }

    /** Reserve, announce it, and make the one attempt at the provider. */
    method Spend(n: nat, world: World, turn: TurnWorld)
      requires Valid() && Friendly(world) && turn.admit.Admit? && stage == TurnStart(n) && n < MAX_TURNS
      modifies this, ledger
      ensures Valid() && old(trace) <= trace && id == old(id)
      ensures stage == Accounting(n) || stage.Failing?
    {
      hide Run, Next, Heard;
      Advance(turn.admit, world, 0);
      if stage.Noting? { Advance(SendNote(turn.broken), world, 1); }
      if stage.Calling? { Advance(Call(turn.call), world, 2); }
    }

    /** Account for the usage, announce it, and judge the output. */
    method Assess(n: nat, world: World, turn: TurnWorld)
      requires Valid() && Friendly(world) && stage == Accounting(n)
      modifies this, ledger
      ensures Valid() && old(trace) <= trace && id == old(id)
      ensures stage == Asking(n) || stage == Concluding(n) || stage.Failing?
    {
      hide Run, Next, Heard;
      Advance(Account(turn.tokens, turn.account), world, 3);
      if stage.Reporting? { Advance(SendReport(turn.broken), world, 4); }
      if stage.Judging? { Advance(Judge(turn.verdict), world, 5); }
    }

    /** A tool round trip. */
    method Consult(n: nat, world: World, turn: TurnWorld)
      requires Valid() && Friendly(world) && stage == Asking(n)
      modifies this, ledger
      ensures Valid() && old(trace) <= trace && id == old(id)
      ensures stage == TurnStart(n + 1) || stage.Failing?
    {
      hide Run, Next, Heard;
      Advance(Ask(turn.tooLarge, turn.broken), world, 6);
      if stage.Awaiting? { Await(n, world, turn); }
    }

    /** The end of the session: the status first, then the message. */
    method Close(n: nat, world: World, turn: TurnWorld)
      requires Valid() && Friendly(world) && stage == Concluding(n)
      modifies this, ledger
      ensures Valid() && old(trace) <= trace && id == old(id)
      ensures stage.Failing? || (stage.Ended? && Heard(sent, agent))
    {
      hide Run, Next, Heard;
      Advance(Conclude(turn.conclude), world, 7);
      if stage.Closing? { Advance(SendComplete(turn.broken), world, 8); }
    }

    /** One turn: reserve, call once, account, and then a tool round trip or the end. */
    method Turn(n: nat, world: World)
      requires Valid() && Friendly(world) && stage == TurnStart(n) && n < MAX_TURNS
      modifies this, ledger
      ensures Valid() && old(trace) <= trace && id == old(id)
      ensures stage == TurnStart(n + 1) || stage.Failing? || (stage.Ended? && Heard(sent, agent))
    {
      hide *;
      var turn := world.turns(n);
      assert turn.admit.Admit? by { Admits(world, n); }
      Spend(n, world, turn);
      if stage.Accounting? {
        Assess(n, world, turn);
        if stage.Asking? {
          Consult(n, world, turn);
        } else if stage.Concluding? {
          Close(n, world, turn);
        }
      }
    }

    /** The failure exit: record the code if the session had started, then tell the agent. */
    method Fail(world: World) returns (saved: bool)
      requires Valid() && Friendly(world) && stage.Failing?
      modifies this, ledger
      ensures Valid() && old(trace) <= trace && id == old(id)
      ensures stage.Ended? && (saved ==> Heard(sent, agent))
    {
      hide Run, Next, Heard;
      Advance(FailFinish(world.finish), world, 9);
      saved := stage.FailureReady?;
      if saved { Advance(SendFailure(world.broken), world, 10); }
    }

    /** The broker's loop. It always ends, and unless its last write failed it ends by telling an agent still there. */
    method Loop(world: World) returns (saved: bool)
      requires Valid() && Friendly(world) && stage.Starting?
      modifies this, ledger
      ensures Valid() && old(trace) <= trace && id == old(id)
      ensures stage.Ended? && (saved ==> Heard(sent, agent))
      ensures sent != [] && sent[|sent| - 1].Failure? && started ==> SaysFailed(Abstract(), sent[|sent| - 1].code)
    {
      hide Run, Next, Heard, SaysFailed;
      saved := true;
      Advance(Begin(world.start), world, 0);
      var n := 0;
      while n < MAX_TURNS && stage.TurnStart?
        invariant n <= MAX_TURNS
        invariant Valid() && old(trace) <= trace && id == old(id)
        invariant stage == TurnStart(n) || stage.Failing? || (stage.Ended? && Heard(sent, agent))
      {
        Turn(n, world);
        n := n + 1;
      }
      if stage.TurnStart? { Advance(Admit(false, true, 0, true, Done), world, 0); }
      if stage.Failing? { saved := Fail(world); }
      AgentsHearTheTruth(trace);
    }

    // ----- the agent's side

    method Meanwhile(actions: seq<Action>)
      requires Valid() && BrokerOnly(actions) && !AgentClosed(agent)
      modifies this, ledger
      ensures Valid() && old(trace) <= trace && agent == old(agent) && read == old(read) && id == old(id)
    {
      hide Next, Run;
      for k := 0 to |actions|
        invariant Valid() && old(trace) <= trace && agent == old(agent) && read == old(read) && id == old(id)
      {
        BrokerLeavesAgent(Abstract(), actions[k]);
        Perform(actions[k]);
      }
    }

    /** Wait for the next message and take it; the guard may stop the wait, as it must when nothing comes. */
    method Receive(world: AgentWorld, k: nat)
      requires Valid() && agent.Reading? && BrokerOnly(world.broker(k))
      modifies this, ledger
      ensures Valid() && old(trace) <= trace && id == old(id)
      ensures read == old(read) + 1 || (read == old(read) && agent.Raised?)
      ensures !agent.Gone?
    {
      hide Run;
      Meanwhile(world.broker(k));
      Readable(trace);
      if world.stopped(k) {
        Perform(AgentAborts("interrupted"));
      } else if read < |sent| {
        Perform(AgentReads);
      } else if stage.Ended? {
        Perform(AgentEof);
      } else {
        Perform(AgentAborts("model_timeout"));
      }
    }

    /** The agent's loop over its message budget, which it never exhausts. */
    method Attend(world: AgentWorld) returns (told: bool)
      requires Valid() && agent.Reading? && read == 0
      requires forall k: nat :: BrokerOnly(world.broker(k))
      modifies this, ledger
      ensures Valid() && old(trace) <= trace && id == old(id)
      ensures told <==> agent.Returned?
      ensures told ==> Told(ledger.files, id)
      ensures !told ==> agent.Raised?
    {
      hide Run, Next, Told;
      var k := 0;
      while agent.Reading? && k < AGENT_MESSAGES
        invariant Valid() && old(trace) <= trace && id == old(id) && k <= AGENT_MESSAGES
        invariant agent.Reading? ==> read == k
        invariant agent.Reading? || agent.Returned? || agent.Raised?
      {
        Receive(world, k);
        if agent.Invoking? { Reply(world.accepted(k), world.broken); }
        k := k + 1;
      }
      told := agent.Returned?;
      FallThroughIsUnreachable(trace);
      if told {
        CompleteMeansCompleted(trace, []);
        assert trace + [] == trace;
      }
    }

    method Reply(accepted: bool, broken: bool)
      requires Valid() && agent.Invoking?
      modifies this, ledger
      ensures Valid() && old(trace) <= trace && id == old(id) && read == old(read)
      ensures agent.Reading? || agent.Raised?
    {
      hide Run;
      Perform(AgentReplies(accepted, broken));
    }
  }

  lemma Admits(world: World, n: nat)
    requires Friendly(world)
    ensures world.turns(n).admit.Admit?
  {
  }

  predicate InLoop(a: Action) {
    !ByAgent(a) && !a.Open? && !a.Kill? && !a.RecoverLedger? && !a.TakeReply? && !a.PeerClosed? && !a.Deadline?
  }

  /** The other end was told how the session ended, or is gone. */
  predicate Heard(sent: seq<Message>, agent: Agent) {
    AgentClosed(agent) || (sent != [] && Ending(sent[|sent| - 1]))
  }

  /** Where a step of the loop leads when its stage is reached. */
  predicate MovesTo(stage: Stage, a: Action, stage': Stage) {
    match a
    case Begin(_) => stage.Starting? ==> stage' == TurnStart(0) || stage'.Failing?
    case Admit(_, _, _, _, _) =>
      stage.TurnStart? ==> stage'.Failing? || (stage.n < MAX_TURNS && stage' == Noting(stage.n))
    case SendNote(_) => stage.Noting? ==> stage' == Calling(stage.n) || stage'.Failing?
    case Call(_) => stage.Calling? ==> stage' == Accounting(stage.n) || stage'.Failing?
    case Account(_, _) => stage.Accounting? ==> stage' == Reporting(stage.n) || stage'.Failing?
    case SendReport(_) => stage.Reporting? ==> stage' == Judging(stage.n) || stage'.Failing?
    case Judge(_) => stage.Judging? ==> stage' == Asking(stage.n) || stage' == Concluding(stage.n) || stage'.Failing?
    case Ask(_, _) => stage.Asking? ==> stage' == Awaiting(stage.n) || stage'.Failing?
    case Conclude(_) => stage.Concluding? ==> stage' == Closing(stage.n) || stage'.Failing?
    case SendComplete(_) => stage.Closing? ==> stage'.Ended? || stage'.Failing?
    case FailFinish(_) => stage.Failing? ==> stage'.Ended? || stage'.FailureReady?
    case SendFailure(_) => stage.FailureReady? ==> stage'.Ended?
    case _ => true
  }

  lemma StageMoves(s: State, a: Action)
    requires InLoop(a)
    ensures MovesTo(s.stage, a, Next(s, a).stage) && Next(s, a).id == s.id
    ensures Next(s, a).stage.Ended? && !s.stage.Ended? && !a.FailFinish? ==> Heard(Next(s, a).sent, s.agent)
    ensures Next(s, a).agent == s.agent
  {
    hide Start, Reserve, RecordUsage, Finish, Recover, WithCall, CodeOf;
  }

  lemma Readable(trace: seq<Action>)
    ensures var s := Run(INITIAL, trace);
      s.read <= |s.sent| && (s.agent.Reading? ==> s.read < AGENT_MESSAGES)
  {
    hide Run;
    Reached(trace);
    FallThroughIsUnreachable(trace);
  }

  lemma Unconsumed(trace: seq<Action>)
    ensures Run(INITIAL, trace).taken <= Run(INITIAL, trace).replies
  {
    hide Run;
    Reached(trace);
  }

  lemma OneFilePerTask(trace: seq<Action>)
    ensures var files := Run(INITIAL, trace).files;
      forall i, j :: 0 <= i < j < |files| ==> files[i].id != files[j].id
  {
    hide Run;
    Reached(trace);
  }

  lemma OneStep(s: State, a: Action)
    ensures Run(s, [a]) == Next(s, a)
  {
    assert Run(Next(s, a), [a][1..]) == Next(s, a);
  }
}
