/**
 How a session fails: which cause leads to which code, what the ledger then says, and what the agent hears.
 */
module BrokerEnds {
  import opened Options
  import opened InferenceLedger
  import opened Accounts
  import opened Broker
  import opened BrokerLedger
  import opened BrokerRuns

  const KNOWN_CODES := [
    "model_auth_failed", "model_rate_limited", "model_quota_or_spend_limit", "model_network_failed",
    "model_timeout", "model_invalid_response", "model_budget_exceeded", "patch_rejected",
    "deterministic_validation_failed", "tests_failed", "interrupted"]

  const INVALID := "model_invalid_response"
  const BUDGET := "model_budget_exceeded"

  /** A code of the list is passed on; whatever else was raised is an invalid response. */
  predicate Passes(code: string, told: string) {
    told == if code in KNOWN_CODES then code else INVALID
  }

  /** The peer is gone and the send met it. */
  predicate Breaks(s: State, broken: bool) {
    broken && (s.agent.Gone? || s.agent.Returned? || s.agent.Raised?)
  }

  /** Nothing goes wrong for a reservation before it is written. */
  predicate Affordable(s: State, month: int, priceReviewed: bool) {
    && priceReviewed && Find(s.files, s.id).Some?
    && |s.files[Find(s.files, s.id).value].record.turns| < 8
    && (s.provider == "acceptance" || MonthTotal(s.files, s.provider, month) <= 14750000)
  }

  /** What a step of the loop that fails, fails with; None for a step that does not. */
  predicate FailsWith(s: State, a: Action, told: Option<string>) {
    match a
    case Begin(write) =>
      told == if Find(s.files, s.id).Some? then Some("interrupted")
              else if |s.files| >= 256 then Some(BUDGET) else if !write.Done? then Some(INVALID) else None
    case Admit(late, fits, month, reviewed, write) =>
      if s.stage.TurnStart? && s.stage.n >= 8 then told == Some(BUDGET)
      else if late then told == Some("model_timeout")
      else if !fits then told == Some(BUDGET)
      else if Affordable(s, month, reviewed) then told == (if write.Done? then None else Some(INVALID))
      else told == Some(BUDGET) || (reviewed && Find(s.files, s.id).None? && told == Some(INVALID))
    case SendNote(broken) => told == if Breaks(s, broken) then Some(INVALID) else None
    case Call(failure) =>
      if failure.None? then told.None? else told.Some? && Passes(failure.value, told.value)
    case Account(tokens, write) =>
      if InRange(tokens) && write.Done? && Find(s.files, s.id).Some? && s.files[Find(s.files, s.id).value].record.turns != [] then
        var turns := s.files[Find(s.files, s.id).value].record.turns;
        told == if 3 * tokens.value.0 + 11 * tokens.value.1 > turns[|turns| - 1].reserved then Some(BUDGET) else None
      else told == Some(INVALID)
    case SendReport(broken) => told == if Breaks(s, broken) then Some(INVALID) else None
    case Judge(verdict) => told == if verdict.Bad? then Some(INVALID) else None
    case Ask(tooLarge, broken) => told == if tooLarge || Breaks(s, broken) then Some(INVALID) else None
    case TakeReply(good) => told == if good then None else Some(INVALID)
    case PeerClosed => told == Some("interrupted")
    case Deadline => told == Some("model_timeout")
    case Conclude(write) => told == if write.Done? && Find(s.files, s.id).Some? then None else Some(INVALID)
    case SendComplete(broken) => told == if Breaks(s, broken) then Some(INVALID) else None
    case _ => true
  }

  /** The stage at which a step of the loop is taken. */
  predicate Ready(s: State, a: Action) {
    match a
    case Begin(_) => s.stage.Starting?
    case Admit(_, _, _, _, _) => s.stage.TurnStart?
    case SendNote(_) => s.stage.Noting?
    case Call(_) => s.stage.Calling?
    case Account(_, _) => s.stage.Accounting?
    case SendReport(_) => s.stage.Reporting?
    case Judge(_) => s.stage.Judging?
    case Ask(_, _) => s.stage.Asking?
    case TakeReply(_) => s.stage.Awaiting? && s.taken < s.replies
    case PeerClosed => s.stage.Awaiting? && s.taken == s.replies && AgentClosed(s.agent)
    case Deadline => s.stage.Awaiting?
    case Conclude(_) => s.stage.Concluding?
    case SendComplete(_) => s.stage.Closing?
    case _ => false
  }

  function FailingWith(stage: Stage): Option<string> {
    if stage.Failing? then Some(stage.code) else None
  }

  lemma CodesListed(code: string)
    ensures code in CODES <==> code in KNOWN_CODES
  {
  }

  lemma LedgerCauses(s: State, a: Action)
    requires Ready(s, a) && (a.Begin? || a.Admit? || a.Account? || a.Conclude?)
    ensures FailsWith(s, a, FailingWith(Next(s, a).stage))
  {
    hide Find, MonthTotal;
    assert "interrupted" in CODES && BUDGET in CODES;
    hide CODES, KNOWN_CODES;
  }

  lemma CallCauses(s: State, failure: Option<string>)
    requires s.stage.Calling?
    ensures FailsWith(s, Call(failure), FailingWith(Next(s, Call(failure)).stage))
  {
    if failure.Some? { CodesListed(failure.value); }
    hide CODES, KNOWN_CODES, WithCall;
  }

  lemma TalkCauses(s: State, a: Action)
    requires Ready(s, a) && !a.Begin? && !a.Admit? && !a.Account? && !a.Conclude? && !a.Call?
    ensures FailsWith(s, a, FailingWith(Next(s, a).stage))
  {
    hide CODES, KNOWN_CODES, WithCall, Find, MonthTotal, Start, Reserve, RecordUsage, Finish, Recover, Affordable;
  }

  /** The cause decides the code, for every step of the loop. */
  lemma CauseDecides(s: State, a: Action)
    requires Ready(s, a)
    ensures FailsWith(s, a, FailingWith(Next(s, a).stage))
  {
    hide Next, FailsWith, Ready;
    if a.Begin? || a.Admit? || a.Account? || a.Conclude? {
      LedgerCauses(s, a);
    } else if a.Call? {
      AtCall(s, a);
      CallCauses(s, a.failure);
    } else {
      TalkCauses(s, a);
    }
  }

  lemma AtCall(s: State, a: Action)
    requires a.Call? && Ready(s, a)
    ensures s.stage.Calling? && a == Call(a.failure)
  {
  }

  /** Where a step of the loop leads that does not fail, and what it sends. */
  predicate GoesOn(s: State, a: Action, s': State) {
    match a
    case Begin(_) => s'.stage == TurnStart(0) && s'.started && s'.sent == s.sent
    case Admit(_, _, _, _, _) => s.stage.TurnStart? && s'.stage == Noting(s.stage.n) && s'.sent == s.sent
    case SendNote(_) => s.stage.Noting? && s'.stage == Calling(s.stage.n) && s'.sent == s.sent + [UsageNote]
    case Call(_) => s.stage.Calling? && s'.stage == Accounting(s.stage.n) && s'.sent == s.sent
    case Account(_, _) => s.stage.Accounting? && s'.stage == Reporting(s.stage.n) && s'.sent == s.sent
    case SendReport(_) => s.stage.Reporting? && s'.stage == Judging(s.stage.n) && s'.sent == s.sent + [UsageNote]
    case Judge(verdict) =>
      s.stage.Judging? && s'.sent == s.sent && s'.stage == if verdict.Tool? then Asking(s.stage.n) else Concluding(s.stage.n)
    case Ask(_, _) => s.stage.Asking? && s'.stage == Awaiting(s.stage.n) && s'.sent == s.sent + [ToolCall]
    case TakeReply(_) =>
      s.stage.Awaiting? && s'.stage == TurnStart(s.stage.n + 1) && s'.taken == s.taken + 1 && s'.sent == s.sent
    case Conclude(_) => s.stage.Concluding? && s'.stage == Closing(s.stage.n) && s'.sent == s.sent
    case SendComplete(_) => s'.stage == Ended && s'.sent == s.sent + [Complete] && s.id in s'.completed
    case _ => false
  }

  lemma Proceeds(s: State, a: Action)
    requires Ready(s, a) && !Next(s, a).stage.Failing?
    ensures GoesOn(s, a, Next(s, a))
  {
    hide Find, MonthTotal, WithCall, CODES;
  }

  /** A session opens with an empty conversation; one for an unknown provider only tells the agent so. */
  lemma OpenLeads(s: State, id: TaskId, provider: string)
    requires s.stage.Ended? && (s.agent.Gone? || s.agent.Returned? || s.agent.Raised?)
    ensures var s' := Next(s, Open(id, provider));
      && s'.id == id && s'.provider == provider && !s'.started && s'.sent == [] && s'.agent == Reading
      && s'.files == s.files && s'.read == s'.taken == s'.replies == 0
      && s'.stage == if provider in ["openai", "acceptance"] then Starting else FailureReady("model_auth_failed")
  {
  }

  /** How the agent's own steps end its loop. */
  lemma AgentLeads(s: State, accepted: bool, broken: bool, code: string)
    ensures s.agent.Invoking? ==>
      var agent := Next(s, AgentReplies(accepted, broken)).agent;
      && (!accepted ==> agent == Raised(Some("patch_rejected")))
      && (accepted && broken && s.stage.Ended? ==> agent == Raised(None))
      && (accepted && !(broken && s.stage.Ended?) ==>
            agent == Reading && Next(s, AgentReplies(accepted, broken)).replies == s.replies + 1)
    ensures s.agent.Reading? && s.read == |s.sent| && s.stage.Ended? ==> Next(s, AgentEof).agent == Raised(Some("interrupted"))
    ensures s.agent.Reading? || s.agent.Invoking? ==> Next(s, AgentAborts(code)).agent == Raised(Some(code))
  {
  }

  /** The ledger with this session's record ended so. */
  predicate Ends(files: Files, files': Files, id: TaskId, status: Status) {
    && RecordOf(files, id).Some?
    && RecordOf(files', id) == Some(RecordOf(files, id).value.(status := status))
    && |files'| == |files| && forall i :: 0 <= i < |files| && files[i].id != id ==> files'[i] == files[i]
  }

  lemma FinishEnds(s: State, status: Status)
    requires LedgerInv(s) && s.started
    ensures var a := Finish(s.files, s.id, status, Done); a.error.None? && Ends(s.files, a.files, s.id, status)
  {
    var record := OwnRecord(s);
    Replaced(s.files, s.id, record.(status := status), s.id);
    hide LedgerInv, Find;
  }

  /** A failure exit whose writes go through: the code is recorded if the session had started, and the agent is sent it. */
  lemma FailureLeads(s: State)
    requires LedgerInv(s) && s.stage.Failing?
    ensures var s' := Next(Next(s, FailFinish(Done)), SendFailure(false));
      && s'.stage.Ended? && s'.sent == s.sent + [Failure(s.stage.code)]
      && (if s.started then Ends(s.files, s'.files, s.id, Status.Failed(s.stage.code)) else s'.files == s.files)
  {
    var s1 := Next(s, FailFinish(Done));
    if s.started {
      FinishEnds(s, Status.Failed(s.stage.code));
      assert s1.files == Finish(s.files, s.id, Status.Failed(s.stage.code), Done).files;
    }
    assert s1 == s.(files := s1.files, stage := FailureReady(s.stage.code));
    hide LedgerInv, Find, Finish, Ends;
  }

  // ----- over every run

  predicate SaysFailed(s: State, code: string) {
    RecordOf(s.files, s.id).Some? && RecordOf(s.files, s.id).value.status == Status.Failed(code)
  }

  /** A failure on its way out, or sent, is in the ledger. */
  predicate FailureTold(s: State) {
    s.started ==>
      && (s.stage.FailureReady? ==> SaysFailed(s, s.stage.code))
      && (s.sent != [] && s.sent[|s.sent| - 1].Failure? ==> s.stage.Ended? && SaysFailed(s, s.sent[|s.sent| - 1].code))
  }

  lemma RecordedFailure(s: State, write: Write)
    requires LedgerInv(s) && s.stage.Failing? && s.started && Next(s, FailFinish(write)).stage.FailureReady?
    ensures SaysFailed(Next(s, FailFinish(write)), s.stage.code)
  {
    var record := OwnRecord(s);
    Replaced(s.files, s.id, record.(status := Status.Failed(s.stage.code)), s.id);
    hide RecordOf, LedgerInv, Find;
  }

  lemma SweptFailure(s: State, reached: set<TaskId>, code: string)
    requires SaysFailed(s, code)
    ensures SaysFailed(s.(files := Recover(s.files, reached)), code)
  {
    Swept(s.files, reached, s.id);
    hide RecordOf, Recover;
  }

  lemma StepKeepsFailure(s: State, a: Action)
    requires LedgerInv(s) && FailureTold(s) && TalkInv(s)
    ensures FailureTold(Next(s, a))
  {
    if a.FailFinish? && s.stage.Failing? && s.started && Next(s, a).stage.FailureReady? {
      RecordedFailure(s, a.write);
      NoFailureYet(s);
    } else if a.RecoverLedger? && s.stage.Ended? && s.sent != [] && s.sent[|s.sent| - 1].Failure? && s.started {
      SweptFailure(s, a.reached, s.sent[|s.sent| - 1].code);
    } else if WritesLedger(a) {
      if !s.stage.Ended? { NoFailureYet(s); }
      hide SaysFailed, LedgerInv, TalkInv, Start, Reserve, RecordUsage, Finish, Recover, WithCall, CodeOf;
    } else {
      TalkKeepsLedger(s, a);
      TalkKeepsFailure(s, a);
    }
  }

  lemma NoFailureYet(s: State)
    requires TalkInv(s) && !s.stage.Ended?
    ensures s.sent != [] ==> !s.sent[|s.sent| - 1].Failure?
  {
    hide Tools;
  }

  lemma TalkKeepsFailure(s: State, a: Action)
    requires FailureTold(s) && !WritesLedger(a) && Next(s, a).files == s.files
    requires !s.stage.Ended? && s.sent != [] ==> !s.sent[|s.sent| - 1].Failure?
    ensures FailureTold(Next(s, a))
  {
    hide RecordOf, WithCall, CODES;
  }

  lemma {:induction false} RunKeepsFailure(s: State, actions: seq<Action>)
    requires Inv(s) && FailureTold(s)
    ensures FailureTold(Run(s, actions))
    decreases |actions|
  {
    hide FailureTold, Next, LedgerInv, TalkInv, WithinCap;
    if actions != [] {
      StepKeepsFailure(s, actions[0]);
      RunKeepsInv(s, [actions[0]]);
      OneAction(s, actions[0]);
      RunKeepsFailure(Next(s, actions[0]), actions[1..]);
    }
  }

  lemma OneAction(s: State, a: Action)
    ensures Run(s, [a]) == Next(s, a)
  {
    assert Run(Next(s, a), [a][1..]) == Next(s, a);
  }

  /**
   What an agent hears is true. A failure it is sent in a session that had started is the status of its record, with the
   very code, and it raises that code; after `complete` it returns; after a tool call it invokes the tool.
   */
  lemma AgentsHearTheTruth(actions: seq<Action>)
    ensures var s := Run(INITIAL, actions);
      && (s.sent != [] && s.sent[|s.sent| - 1].Failure? && s.started ==> SaysFailed(s, s.sent[|s.sent| - 1].code))
      && (s.agent.Reading? && s.read < |s.sent| ==>
            var agent := Next(s, AgentReads).agent;
            match s.sent[s.read]
            case UsageNote => agent == Reading
            case ToolCall => agent == Invoking
            case Complete => agent == Returned
            case Failure(code) => agent == Raised(Some(code)) && code in KNOWN_CODES)
  {
    hide Run, LedgerInv, WithinCap, Tools;
    Reached(actions);
    InitialInv();
    RunKeepsFailure(INITIAL, actions);
    FallThroughIsUnreachable(actions);
    var s := Run(INITIAL, actions);
    if s.agent.Reading? && s.read < |s.sent| && s.sent[s.read].Failure? { CodesListed(s.sent[s.read].code); }
    hide CODES, KNOWN_CODES, RecordOf;
  }
}
