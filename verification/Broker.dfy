/**
 The broker's loop and the agent on the other end of its socket, over the
 inference ledger. One session at a time; the broker process may be killed at any
 step, after which the service recovers the ledger and may serve another session.
 */
module Broker {
  import opened Options
  import opened InferenceLedger

  const CODES := {
    "model_auth_failed", "model_rate_limited", "model_quota_or_spend_limit", "model_network_failed",
    "model_timeout", "model_invalid_response", "model_budget_exceeded", "patch_rejected",
    "deterministic_validation_failed", "tests_failed", "interrupted"}

  datatype Message = UsageNote | ToolCall | Complete | Failure(code: string)

  datatype Stage =
    | Ended
    | Starting
    | TurnStart(n: nat)
    | Noting(n: nat)
    | Calling(n: nat)
    | Accounting(n: nat)
    | Reporting(n: nat)
    | Judging(n: nat)
    | Asking(n: nat)
    | Awaiting(n: nat)
    | Concluding(n: nat)
    | Closing(n: nat)
    | Failing(code: string)
    | FailureReady(code: string)

  // `Raised(None)` is an operating system error from the socket.
  datatype Agent = Gone | Reading | Invoking | Returned | Raised(code: Option<string>)

  /**
   `sent` is every message the broker has put into the socket, of which the agent has consumed `read`; `replies` the
   agent has sent, of which the broker has consumed `taken`. `completed` is history: the ids that were told `complete`.
   */
  datatype State = State(
    files: Files, id: TaskId, provider: string, stage: Stage, started: bool, sent: seq<Message>, taken: nat,
    agent: Agent, read: nat, replies: nat, completed: set<TaskId>)

  const INITIAL := State([], "", OPENAI, Ended, false, [], 0, Gone, 0, 0, {})

  const AGENT_MESSAGES := MAX_TURNS * 3 + 1

  datatype Verdict = Bad | Tool | Final

  datatype Action =
    | Open(id: TaskId, provider: string)
    | Begin(write: Write)
    | Admit(late: bool, fits: bool, month: int, priceReviewed: bool, write: Write)
    | SendNote(broken: bool)
    | Call(failure: Option<string>)
    | Account(tokens: Option<(nat, nat)>, write: Write)
    | SendReport(broken: bool)
    | Judge(verdict: Verdict)
    | Ask(tooLarge: bool, broken: bool)
    | TakeReply(good: bool)
    | PeerClosed
    | Deadline
    | Conclude(write: Write)
    | SendComplete(broken: bool)
    | FailFinish(write: Write)
    | SendFailure(broken: bool)
    | Kill
    | RecoverLedger(reached: set<TaskId>)
    | AgentReads
    | AgentEof
    | AgentReplies(accepted: bool, broken: bool)
    | AgentAborts(code: string)
    | AgentFallsThrough

  predicate AgentClosed(agent: Agent) {
    agent.Gone? || agent.Returned? || agent.Raised?
  }

  /** The code of the failure message for what was raised. */
  function CodeOf(error: Error): string {
    if error.CodingFailure? && error.code in CODES then error.code else "model_invalid_response"
  }

  /** After a ledger operation inside the try block. */
  function AfterLedger(s: State, answer: Answer, next: Stage): State {
    s.(files := answer.files, stage := if answer.error.None? then next else Failing(CodeOf(answer.error.value)))
  }

  /** A send inside the try block; it can only break when the other end is closed. */
  function Sent(s: State, message: Message, broken: bool, next: Stage): State {
    if broken && AgentClosed(s.agent) then s.(stage := Failing("model_invalid_response"))
    else s.(sent := s.sent + [message], stage := next)
  }

  function WithCall(files: Files, id: TaskId): Files {
    var found := Find(files, id);
    if found.None? || files[found.value].record.turns == [] then files
    else
      var entry := files[found.value];
      var last := |entry.record.turns| - 1;
      var turn := entry.record.turns[last];
      files[found.value := entry.(record := entry.record.(turns := entry.record.turns[last := turn.(calls := turn.calls + 1)]))]
  }

  function Next(s: State, a: Action): State {
    match a
    case Open(id, provider) =>
      if s.stage.Ended? && AgentClosed(s.agent) then
        var stage := if provider == OPENAI || provider == ACCEPTANCE then Starting else FailureReady("model_auth_failed");
        State(s.files, id, provider, stage, false, [], 0, Reading, 0, 0, s.completed)
      else s
    case Begin(write) =>
      if s.stage.Starting? then
        var answer := Start(s.files, s.provider, s.id, write);
        AfterLedger(s.(started := answer.error.None?), answer, TurnStart(0))
      else s
    case Admit(late, fits, month, priceReviewed, write) =>
      if !s.stage.TurnStart? then s
      else if s.stage.n >= MAX_TURNS then s.(stage := Failing("model_budget_exceeded"))
      else if late then s.(stage := Failing("model_timeout"))
      else if !fits then s.(stage := Failing("model_budget_exceeded"))
      else AfterLedger(s, Reserve(s.files, s.provider, s.id, month, priceReviewed, write), Noting(s.stage.n))
    case SendNote(broken) => if s.stage.Noting? then Sent(s, UsageNote, broken, Calling(s.stage.n)) else s
    case Call(failure) =>
      if s.stage.Calling? then
        s.(files := WithCall(s.files, s.id),
           stage := if failure.None? then Accounting(s.stage.n) else Failing(CodeOf(CodingFailure(failure.value))))
      else s
    case Account(tokens, write) =>
      if s.stage.Accounting? then AfterLedger(s, RecordUsage(s.files, s.id, tokens, write), Reporting(s.stage.n)) else s
    case SendReport(broken) => if s.stage.Reporting? then Sent(s, UsageNote, broken, Judging(s.stage.n)) else s
    case Judge(verdict) =>
      if s.stage.Judging? then
        s.(stage := match verdict
                    case Bad => Failing("model_invalid_response")
                    case Tool => Asking(s.stage.n)
                    case Final => Concluding(s.stage.n))
      else s
    case Ask(tooLarge, broken) =>
      if !s.stage.Asking? then s
      else if tooLarge then s.(stage := Failing("model_invalid_response"))
      else Sent(s, ToolCall, broken, Awaiting(s.stage.n))
    case TakeReply(good) =>
      if s.stage.Awaiting? && s.taken < s.replies then
        s.(taken := s.taken + 1, stage := if good then TurnStart(s.stage.n + 1) else Failing("model_invalid_response"))
      else s
    case PeerClosed =>
      if s.stage.Awaiting? && s.taken == s.replies && AgentClosed(s.agent) then s.(stage := Failing("interrupted")) else s
    case Deadline => if s.stage.Awaiting? then s.(stage := Failing("model_timeout")) else s
    case Conclude(write) =>
      if s.stage.Concluding? then AfterLedger(s, Finish(s.files, s.id, ReasoningCompleted, write), Closing(s.stage.n)) else s
    case SendComplete(broken) =>
      if s.stage.Closing? then
        var s' := Sent(s, Complete, broken, Ended);
        if s'.stage.Ended? then s'.(completed := s.completed + {s.id}) else s'
      else s
    case FailFinish(write) =>
      if !s.stage.Failing? then s
      else if !s.started then s.(stage := FailureReady(s.stage.code))
      else
        var answer := Finish(s.files, s.id, Status.Failed(s.stage.code), write);
        s.(files := answer.files, stage := if answer.error.None? then FailureReady(s.stage.code) else Ended)
    case SendFailure(broken) =>
      if !s.stage.FailureReady? then s
      else if broken && AgentClosed(s.agent) then s.(stage := Ended)
      else s.(sent := s.sent + [Failure(s.stage.code)], stage := Ended)
    case Kill => s.(stage := Ended)
    case RecoverLedger(reached) => if s.stage.Ended? then s.(files := Recover(s.files, reached)) else s
    case AgentReads =>
      if s.agent.Reading? && s.read < |s.sent| && s.read < AGENT_MESSAGES then
        s.(read := s.read + 1,
           agent := match s.sent[s.read]
                    case UsageNote => Reading
                    case ToolCall => Invoking
                    case Complete => Returned
                    case Failure(code) => Raised(Some(if code in CODES then code else "model_invalid_response")))
      else s
    case AgentEof =>
      if s.agent.Reading? && s.read == |s.sent| && s.stage.Ended? then s.(agent := Raised(Some("interrupted"))) else s
    case AgentReplies(accepted, broken) =>
      if !s.agent.Invoking? then s
      else if !accepted then s.(agent := Raised(Some("patch_rejected")))
      else if broken && s.stage.Ended? then s.(agent := Raised(None))
      else s.(agent := Reading, replies := s.replies + 1)
    case AgentAborts(code) => if s.agent.Reading? || s.agent.Invoking? then s.(agent := Raised(Some(code))) else s
    case AgentFallsThrough =>
      if s.agent.Reading? && s.read >= AGENT_MESSAGES then s.(agent := Raised(Some("model_budget_exceeded"))) else s
  }

  function Run(s: State, actions: seq<Action>): State
    decreases |actions|
  {
    if actions == [] then s else Run(Next(s, actions[0]), actions[1..])
  }

  // ----- the conversation

  predicate Ending(m: Message) {
    m.Complete? || m.Failure?
  }

  function Tools(messages: seq<Message>): nat {
    if messages == [] then 0
    else Tools(messages[..|messages| - 1]) + (if messages[|messages| - 1].ToolCall? then 1 else 0)
  }

  lemma ToolsOfLonger(messages: seq<Message>, m: Message)
    ensures Tools(messages + [m]) == Tools(messages) + (if m.ToolCall? then 1 else 0)
  {
    assert (messages + [m])[..|messages|] == messages;
  }

  lemma NoTools(messages: seq<Message>)
    requires messages == []
    ensures Tools(messages) == 0
  {
  }

  /** How many messages have been sent by the time a stage is reached. */
  predicate SentBy(stage: Stage, sent: nat) {
    match stage
    case Ended => sent <= AGENT_MESSAGES
    case Starting => sent == 0
    case TurnStart(n) => n <= MAX_TURNS && sent == 3 * n
    case Noting(n) => n < MAX_TURNS && sent == 3 * n
    case Calling(n) => n < MAX_TURNS && sent == 3 * n + 1
    case Accounting(n) => n < MAX_TURNS && sent == 3 * n + 1
    case Reporting(n) => n < MAX_TURNS && sent == 3 * n + 1
    case Judging(n) => n < MAX_TURNS && sent == 3 * n + 2
    case Asking(n) => n < MAX_TURNS && sent == 3 * n + 2
    case Awaiting(n) => n < MAX_TURNS && sent == 3 * n + 3
    case Concluding(n) => n < MAX_TURNS && sent == 3 * n + 2
    case Closing(n) => n < MAX_TURNS && sent == 3 * n + 2
    case Failing(code) => code in CODES && sent < AGENT_MESSAGES
    case FailureReady(code) => code in CODES && sent < AGENT_MESSAGES
  }

  predicate TalkInv(s: State) {
    && SentBy(s.stage, |s.sent|)
    && (forall i :: 0 <= i < |s.sent| - 1 ==> !Ending(s.sent[i]))
    && (|s.sent| > 0 && Ending(s.sent[|s.sent| - 1]) ==> s.stage.Ended?)
    && (|s.sent| == AGENT_MESSAGES ==> Ending(s.sent[|s.sent| - 1]))
    && (forall i :: 0 <= i < |s.sent| && s.sent[i].Failure? ==> s.sent[i].code in CODES)
    && s.read <= |s.sent| && s.taken <= s.replies
    && (s.agent.Reading? || s.agent.Invoking? ==>
          && (s.read > 0 ==> !Ending(s.sent[s.read - 1]))
          && s.replies + (if s.agent.Invoking? then 1 else 0) == Tools(s.sent[..s.read]))
    && (!s.stage.Ended? && !s.stage.Failing? && !s.stage.FailureReady? ==>
          s.taken + (if s.stage.Awaiting? then 1 else 0) == Tools(s.sent))
    && (s.agent.Returned? ==> s.read > 0 && s.sent[s.read - 1].Complete?)
    && (|s.sent| > 0 && s.sent[|s.sent| - 1].Complete? ==> s.id in s.completed)
  }

  lemma SendKeepsTalk(s: State, message: Message, next: Stage, completed: set<TaskId>)
    requires TalkInv(s) && !s.stage.Ended?
    requires SentBy(next, |s.sent| + 1)
    requires Ending(message) <==> next.Ended?
    requires message.Failure? ==> message.code in CODES
    requires |s.sent| + 1 == AGENT_MESSAGES ==> Ending(message)
    requires s.completed <= completed && (message.Complete? ==> s.id in completed)
    requires !next.Ended? && !next.Failing? && !next.FailureReady? ==>
      s.taken + (if next.Awaiting? then 1 else 0) == Tools(s.sent + [message])
    ensures TalkInv(s.(sent := s.sent + [message], stage := next, completed := completed))
  {
    assert (s.sent + [message])[..s.read] == s.sent[..s.read];
  }

  /** A send that the try block makes in the middle of a turn. */
  lemma MidTurnSend(s: State, message: Message, broken: bool, next: Stage)
    requires TalkInv(s) && !s.stage.Ended? && !s.stage.Failing? && !s.stage.FailureReady? && !s.stage.Awaiting?
    requires SentBy(next, |s.sent| + 1) && |s.sent| + 1 < AGENT_MESSAGES && !Ending(message) && !next.Ended?
    requires message.ToolCall? <==> next.Awaiting?
    ensures TalkInv(Sent(s, message, broken, next))
  {
    hide Tools;
    if !(broken && AgentClosed(s.agent)) {
      ToolsOfLonger(s.sent, message);
      SendKeepsTalk(s, message, next, s.completed);
    }
  }

  lemma CompleteKeepsTalk(s: State, broken: bool)
    requires TalkInv(s)
    ensures TalkInv(Next(s, SendComplete(broken)))
  {
    hide Tools;
    if s.stage.Closing? && !(broken && AgentClosed(s.agent)) {
      SendKeepsTalk(s, Complete, Ended, s.completed + {s.id});
    }
  }

  lemma FailureKeepsTalk(s: State, broken: bool)
    requires TalkInv(s)
    ensures TalkInv(Next(s, SendFailure(broken)))
  {
    hide Tools;
    if s.stage.FailureReady? && !(broken && AgentClosed(s.agent)) {
      SendKeepsTalk(s, Failure(s.stage.code), Ended, s.completed);
    }
  }

  lemma TurnSendKeepsTalk(s: State, a: Action)
    requires TalkInv(s) && (a.SendNote? || a.SendReport? || a.Ask?)
    ensures TalkInv(Next(s, a))
  {
    hide Tools, Sent;
    if a.SendNote? && s.stage.Noting? {
      MidTurnSend(s, UsageNote, a.broken, Calling(s.stage.n));
    } else if a.SendReport? && s.stage.Reporting? {
      MidTurnSend(s, UsageNote, a.broken, Judging(s.stage.n));
    } else if a.Ask? && s.stage.Asking? {
      MidTurnSend(s, ToolCall, a.broken, Awaiting(s.stage.n));
    }
  }

  predicate ByAgent(a: Action) {
    a.AgentReads? || a.AgentEof? || a.AgentReplies? || a.AgentAborts? || a.AgentFallsThrough?
  }

  lemma AgentKeepsTalk(s: State, a: Action)
    requires TalkInv(s) && ByAgent(a)
    ensures TalkInv(Next(s, a))
  {
    hide Tools;
    if a.AgentReads? && s.read < |s.sent| {
      ToolsOfLonger(s.sent[..s.read], s.sent[s.read]);
      assert s.sent[..s.read + 1] == s.sent[..s.read] + [s.sent[s.read]];
    }
  }

  lemma WritesKeepTalk(s: State, a: Action)
    requires TalkInv(s)
    requires a.Begin? || a.Admit? || a.Call? || a.Account? || a.Conclude? || a.FailFinish? || a.RecoverLedger?
    ensures TalkInv(Next(s, a))
  {
    hide Start, Reserve, RecordUsage, Finish, Recover, WithCall, Tools;
    assert s.stage.Starting? ==> s.sent == [];
    NoTools([]);
  }

  lemma StepKeepsTalk(s: State, a: Action)
    requires TalkInv(s)
    ensures TalkInv(Next(s, a))
  {
    hide Start, Reserve, RecordUsage, Finish, Recover, WithCall, Find, Tools;
    if a.Begin? || a.Admit? || a.Call? || a.Account? || a.Conclude? || a.FailFinish? || a.RecoverLedger? {
      WritesKeepTalk(s, a);
    } else if a.SendNote? || a.SendReport? || a.Ask? {
      TurnSendKeepsTalk(s, a);
    } else if a.SendComplete? {
      CompleteKeepsTalk(s, a.broken);
    } else if a.SendFailure? {
      FailureKeepsTalk(s, a.broken);
    } else if ByAgent(a) {
      AgentKeepsTalk(s, a);
    } else if a.Open? {
      NoTools([]);
    }
  }
}
