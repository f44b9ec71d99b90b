/**
 The Issues poller: a durable reservation before any handler runs, one stored
 answer per issue, and retryable delivery. Every save, the handler, the comment
 and the close are separate steps; a crash forgets the worker's memory.
 */
module Control {
  import opened Decimals
  import opened Options

  type RequestId = string

  /** Text before or after redaction; redacting twice is redacting once. */
  datatype Text = Text(content: string, redacted: bool)

  function Clean(text: Text): Text {
    text.(redacted := true)
  }

  function CleanOption(text: Option<Text>): Option<Text> {
    if text.None? then None else Some(Clean(text.value))
  }

  datatype Status = Processing | Completed | ExecutionFailed | Duplicate | RequestRejected

  datatype Audit = Audit(
    issue: nat, requestId: RequestId, capability: Option<string>, arguments: Text, accepted: bool,
    status: Status, error: Option<string>, originalStatus: Option<Status>, originalIssue: Option<nat>,
    result: Option<Text>)

  function CleanAudit(record: Audit): Audit {
    record.(arguments := Clean(record.arguments), result := CleanOption(record.result))
  }

  datatype Delivery = Delivery(record: Audit, posted: bool, closed: bool)

  function CleanDelivery(delivery: Delivery): Delivery {
    delivery.(record := CleanAudit(delivery.record))
  }

  const RESULT_LIMIT := 16000
  const PREVIEW_LENGTH := 8000

  datatype Shown = Nothing | Full(text: Text) | Preview(text: Text)

  /** The result as the transport may carry it: redacted, and cut to a preview when it is too long. */
  function Bounded(result: Option<Text>): Shown {
    if result.None? then Nothing
    else
      var clean := Clean(result.value);
      if |clean.content| <= RESULT_LIMIT then Full(clean)
      else Preview(Text(clean.content[..PREVIEW_LENGTH], true))
  }

  datatype Envelope = Envelope(
    requestId: RequestId, capability: Option<string>, status: Status, error: Option<string>,
    originalStatus: Option<Status>, result: Shown)

  function EnvelopeOf(record: Audit): Envelope {
    Envelope(record.requestId, record.capability, record.status, record.error, record.originalStatus,
             Bounded(record.result))
  }

  /** The issue as the refresh finds it, parsed and resolved. */
  datatype IssueView =
    | Gone
    | Malformed(code: string)
    | Unresolved(requestId: RequestId, capability: string, code: string)
    | Accepted(requestId: RequestId, capability: string, arguments: Text)

  datatype HandlerEnd = Result(text: Text) | SourceFailure | Timeout | HandlerFailure

  datatype Stage =
    | AtRest
    | Reserving(record: Audit)
    | Invoking(record: Audit)
    | Invoked(record: Audit)
    | Sealing(sealed: Audit, record: Audit)
    | Recording(record: Audit)
    | Delivering(delivery: Delivery)
    | Posted(delivery: Delivery)
    | Closing(delivery: Delivery)
    | Closed(delivery: Delivery)

  datatype State = State(
    requests: map<RequestId, Audit>, issues: map<nat, Delivery>,
    comments: seq<(nat, Envelope)>, invoked: multiset<RequestId>, stage: Stage)

  const INITIAL := State(map[], map[], [], multiset{}, AtRest)

  /** How a durable or external write ends: done, failed without effect, or in effect although it raised. */
  datatype Write = Done | Lost | DoneThenRaised

  datatype Action =
    | Take(issue: nat, view: IssueView)
    | Reserve(write: Write)
    | Invoke(end: HandlerEnd)
    | SaveResult(write: Write)
    | Seal(write: Write)
    | SaveDelivery(write: Write)
    | Post(write: Write)
    | SavePosted(write: Write)
    | Close(raises: bool)
    | SaveClosed(write: Write)
    | Crash

  const NO_TEXT := Text("", true)

  function Received(issue: nat, requestId: RequestId): Audit {
    Audit(issue, requestId, None, NO_TEXT, false, RequestRejected, None, None, None, None)
  }

  function InvalidId(issue: nat): RequestId {
    "invalid-issue-" + Decimal(issue)
  }

  function AfterHandler(record: Audit, end: HandlerEnd): Audit {
    match end
    case Result(text) => record.(status := Completed, result := Some(Clean(text)))
    case SourceFailure => record.(status := ExecutionFailed, error := Some("source_read_failure"))
    case Timeout => record.(status := ExecutionFailed, error := Some("execution_timeout"))
    case HandlerFailure => record.(status := ExecutionFailed, error := Some("handler_failed"))
  }

  function Interrupted(existing: Audit): Audit {
    existing.(status := ExecutionFailed, error := Some("interrupted_execution_not_retried"))
  }

  function DuplicateOf(record: Audit, existing: Audit): Audit {
    record.(status := Duplicate, originalStatus := Some(existing.status), originalIssue := Some(existing.issue),
            result := existing.result)
  }

  /** What the worker does first with an issue it has no stored answer for. */
  function Admit(s: State, issue: nat, view: IssueView): Stage {
    match view
    case Gone => AtRest
    case Malformed(code) => Recording(Received(issue, InvalidId(issue)).(error := Some(code)))
    case Unresolved(rid, capability, code) =>
      Recording(Received(issue, rid).(capability := Some(capability), error := Some(code)))
    case Accepted(rid, capability, arguments) =>
      var record := Received(issue, rid).(capability := Some(capability), arguments := arguments, accepted := true);
      if rid !in s.requests then Reserving(record.(status := Processing))
      else
        var existing := s.requests[rid];
        if existing.status.Processing? then
          Sealing(Interrupted(existing), DuplicateOf(record, Interrupted(existing)))
        else Recording(DuplicateOf(record, existing))
  }

  /** A save of a request record, then `next` unless it raised. */
  function SaveRequest(s: State, record: Audit, write: Write, next: Stage): State {
    var requests := if write.Lost? then s.requests else s.requests[record.requestId := CleanAudit(record)];
    s.(requests := requests, stage := if write.Done? then next else AtRest)
  }

  function SaveIssue(s: State, delivery: Delivery, write: Write, next: Stage): State {
    var issues := if write.Lost? then s.issues else s.issues[delivery.record.issue := CleanDelivery(delivery)];
    s.(issues := issues, stage := if write.Done? then next else AtRest)
  }

  function Resume(delivery: Delivery): Stage {
    if delivery.posted then Closing(delivery) else Delivering(delivery)
  }

  function Next(s: State, a: Action): State {
    match a
    case Take(issue, view) =>
      if !s.stage.AtRest? then s
      else if issue in s.issues then s.(stage := Resume(s.issues[issue]))
      else s.(stage := Admit(s, issue, view))
    case Reserve(write) =>
      if s.stage.Reserving? then SaveRequest(s, s.stage.record, write, Invoking(s.stage.record)) else s
    case Invoke(end) =>
      if s.stage.Invoking? then
        s.(invoked := s.invoked + multiset{s.stage.record.requestId}, stage := Invoked(AfterHandler(s.stage.record, end)))
      else s
    case SaveResult(write) =>
      if s.stage.Invoked? then SaveRequest(s, s.stage.record, write, Recording(s.stage.record)) else s
    case Seal(write) =>
      if s.stage.Sealing? then SaveRequest(s, s.stage.sealed, write, Recording(s.stage.record)) else s
    case SaveDelivery(write) =>
      if s.stage.Recording? then
        var delivery := Delivery(s.stage.record, false, false);
        SaveIssue(s, delivery, write, Delivering(delivery))
      else s
    case Post(write) =>
      if s.stage.Delivering? then
        var delivery := s.stage.delivery;
        var comment := (delivery.record.issue, EnvelopeOf(delivery.record));
        s.(comments := if write.Lost? then s.comments else s.comments + [comment],
           stage := if write.Done? then Posted(delivery.(posted := true)) else AtRest)
      else s
    case SavePosted(write) =>
      if s.stage.Posted? then SaveIssue(s, s.stage.delivery, write, Closing(s.stage.delivery)) else s
    case Close(raises) =>
      if s.stage.Closing? then
        s.(stage := if raises then AtRest else Closed(s.stage.delivery.(closed := true)))
      else s
    case SaveClosed(write) =>
      if s.stage.Closed? then SaveIssue(s, s.stage.delivery, write, AtRest) else s
    case Crash => s.(stage := AtRest)
  }

  function Run(s: State, actions: seq<Action>): State
    decreases |actions|
  {
    if actions == [] then s else Run(Next(s, actions[0]), actions[1..])
  }

  // ----- the inductive invariant

  predicate RequestInv(s: State, rid: RequestId) {
    && s.invoked[rid] <= 1
    && (s.invoked[rid] == 1 ==> rid in s.requests)
    && (rid in s.requests ==>
          && s.requests[rid].requestId == rid
          && CleanAudit(s.requests[rid]) == s.requests[rid]
          && (s.requests[rid].status.Processing? || s.requests[rid].status.Completed? || s.requests[rid].status.ExecutionFailed?))
  }

  /** An answer about request `rid` says what the request's own, by now final, record says. */
  predicate Agrees(requests: map<RequestId, Audit>, record: Audit) {
    && !record.status.Processing?
    && (record.status.Completed? || record.status.ExecutionFailed? ==>
          record.requestId in requests && requests[record.requestId] == CleanAudit(record))
    && (record.status.Duplicate? ==>
          && record.requestId in requests
          && !requests[record.requestId].status.Processing?
          && record.originalStatus == Some(requests[record.requestId].status)
          && record.originalIssue == Some(requests[record.requestId].issue)
          && CleanOption(record.result) == requests[record.requestId].result)
  }

  predicate Commented(s: State, issue: nat) {
    exists k :: 0 <= k < |s.comments| && s.comments[k].0 == issue
  }

  predicate IssueInv(s: State, issue: nat) {
    issue in s.issues ==>
      && s.issues[issue].record.issue == issue
      && CleanDelivery(s.issues[issue]) == s.issues[issue]
      && Agrees(s.requests, s.issues[issue].record)
      && (s.issues[issue].closed ==> s.issues[issue].posted)
      && (s.issues[issue].posted ==> Commented(s, issue))
  }

  predicate CommentInv(s: State, k: nat)
    requires k < |s.comments|
  {
    var (issue, envelope) := s.comments[k];
    issue in s.issues && envelope == EnvelopeOf(s.issues[issue].record)
  }

  /** The delivery in memory is the stored one, up to redaction and the flag about to be saved. */
  predicate InHand(s: State, delivery: Delivery) {
    && delivery.record.issue in s.issues
    && CleanAudit(delivery.record) == s.issues[delivery.record.issue].record
  }

  predicate StageInv(s: State) {
    match s.stage
    case AtRest => true
    case Reserving(record) =>
      record.requestId !in s.requests && record.issue !in s.issues && record.status.Processing?
    case Invoking(record) =>
      && record.requestId in s.requests && s.requests[record.requestId] == CleanAudit(record)
      && record.status.Processing? && s.invoked[record.requestId] == 0 && record.issue !in s.issues
    case Invoked(record) =>
      && record.requestId in s.requests && s.requests[record.requestId].status.Processing?
      && s.requests[record.requestId].issue == record.issue
      && (record.status.Completed? || record.status.ExecutionFailed?) && record.issue !in s.issues
    case Sealing(sealed, record) =>
      && sealed.requestId in s.requests && s.requests[sealed.requestId].status.Processing?
      && sealed == Interrupted(s.requests[sealed.requestId])
      && record.requestId == sealed.requestId && record.issue !in s.issues && record.status.Duplicate?
      && record.originalStatus == Some(sealed.status) && record.originalIssue == Some(sealed.issue)
      && record.result == sealed.result
    case Recording(record) => record.issue !in s.issues && Agrees(s.requests, record)
    case Delivering(delivery) => InHand(s, delivery) && !delivery.posted && !delivery.closed
    case Posted(delivery) => InHand(s, delivery) && delivery.posted && !delivery.closed && Commented(s, delivery.record.issue)
    case Closing(delivery) => InHand(s, delivery) && delivery.posted && Commented(s, delivery.record.issue)
    case Closed(delivery) => InHand(s, delivery) && delivery.posted && Commented(s, delivery.record.issue)
  }

  ghost predicate Inv(s: State) {
    && (forall rid :: RequestInv(s, rid))
    && (forall issue :: IssueInv(s, issue))
    && (forall k :: 0 <= k < |s.comments| ==> CommentInv(s, k))
    && StageInv(s)
  }

  /** A request record moves at most once, from `processing` to its end, and is then frozen. */
  predicate RequestMoves(before: map<RequestId, Audit>, after: map<RequestId, Audit>, rid: RequestId) {
    rid in before ==>
      && rid in after
      && after[rid].issue == before[rid].issue
      && (if before[rid].status.Processing?
          then after[rid] == before[rid] || after[rid].status.Completed? || after[rid].status.ExecutionFailed?
          else after[rid] == before[rid])
  }

  lemma CommentsStay(s: State, a: Action, issue: nat)
    requires Commented(s, issue)
    ensures Commented(Next(s, a), issue)
  {
    var k :| 0 <= k < |s.comments| && s.comments[k].0 == issue;
    assert Next(s, a).comments[k] == s.comments[k];
  }

  lemma StepKeepsRequests(s: State, a: Action, rid: RequestId)
    requires Inv(s)
    ensures RequestInv(Next(s, a), rid) && RequestMoves(s.requests, Next(s, a).requests, rid)
    ensures rid !in s.requests && rid in Next(s, a).requests ==> Next(s, a).requests[rid].status.Processing?
  {
    assert RequestInv(s, rid);
  }

  lemma AgreementStays(before: map<RequestId, Audit>, after: map<RequestId, Audit>, record: Audit)
    requires Agrees(before, record) && RequestMoves(before, after, record.requestId)
    ensures Agrees(after, record)
  {
    if record.status.Completed? || record.status.ExecutionFailed? {
      assert before[record.requestId].status == record.status;
    }
  }

  lemma StepKeepsIssues(s: State, a: Action, issue: nat)
    requires Inv(s)
    ensures IssueInv(Next(s, a), issue)
  {
    hide CommentInv, RequestInv, Next, IssueInv;
    if issue in s.issues {
      KnownIssue(s, a, issue);
    } else if issue in Next(s, a).issues {
      NewIssue(s, a, issue);
    } else {
      NoIssue(Next(s, a), issue);
    }
  }

  lemma NoIssue(s: State, issue: nat)
    requires issue !in s.issues
    ensures IssueInv(s, issue)
  {
  }

  lemma KnownIssue(s: State, a: Action, issue: nat)
    requires Inv(s) && issue in s.issues
    ensures IssueInv(Next(s, a), issue)
  {
    hide CommentInv, RequestInv, StageInv, Next, Agrees, RequestMoves, CleanDelivery;
    var s' := Next(s, a);
    assert IssueInv(s, issue);
    var record := s.issues[issue].record;
    StepKeepsRequests(s, a, record.requestId);
    AgreementStays(s.requests, s'.requests, record);
    IssueRecordsStay(s, a);
    FlagsStayTrue(s, a, issue);
  }

  lemma FlagsStayTrue(s: State, a: Action, issue: nat)
    requires StageInv(s) && issue in s.issues && IssueInv(s, issue) && issue in Next(s, a).issues
    ensures var delivery := Next(s, a).issues[issue];
      && CleanDelivery(delivery) == delivery
      && (delivery.closed ==> delivery.posted)
      && (delivery.posted ==> Commented(Next(s, a), issue))
  {
    hide Agrees;
    if Commented(s, issue) {
      CommentsStay(s, a, issue);
    }
  }

  lemma NewIssue(s: State, a: Action, issue: nat)
    requires Inv(s) && issue !in s.issues && issue in Next(s, a).issues
    ensures IssueInv(Next(s, a), issue)
  {
    assert StageInv(s);
    hide CommentInv, RequestInv, IssueInv, Inv;
    assert s.stage.Recording?;
    var record := s.stage.record;
    assert Next(s, a).issues[issue] == CleanDelivery(Delivery(record, false, false)) && Next(s, a).requests == s.requests;
    CleanAgrees(s.requests, record);
    FreshIssue(Next(s, a), issue, record);
  }

  lemma FreshIssue(s: State, issue: nat, record: Audit)
    requires issue in s.issues && s.issues[issue] == CleanDelivery(Delivery(record, false, false)) && record.issue == issue
    requires Agrees(s.requests, CleanAudit(record))
    ensures IssueInv(s, issue)
  {
  }

  lemma CleanAgrees(requests: map<RequestId, Audit>, record: Audit)
    requires Agrees(requests, record)
    ensures Agrees(requests, CleanAudit(record))
  {
  }

  lemma StepKeepsStage(s: State, a: Action)
    requires Inv(s) && s.stage.AtRest?
    ensures StageInv(Next(s, a))
  {
    if a.Take? {
      assert IssueInv(s, a.issue);
      if a.view.Accepted? {
        assert RequestInv(s, a.view.requestId);
      }
    }
  }

  lemma WorkKeepsStage(s: State, a: Action)
    requires Inv(s)
    requires s.stage.Reserving? || s.stage.Invoking? || s.stage.Invoked? || s.stage.Sealing? || s.stage.Recording?
    ensures StageInv(Next(s, a))
  {
    assert RequestInv(s, s.stage.record.requestId);
  }

  lemma DeliveryKeepsStage(s: State, a: Action)
    requires Inv(s)
    requires s.stage.Delivering? || s.stage.Posted? || s.stage.Closing? || s.stage.Closed?
    ensures StageInv(Next(s, a))
  {
    var s' := Next(s, a);
    var issue := s.stage.delivery.record.issue;
    assert IssueInv(s, issue);
    if Commented(s, issue) {
      CommentsStay(s, a, issue);
    }
    if |s'.comments| > |s.comments| {
      assert s'.comments[|s.comments|].0 == issue;
    }
  }

  lemma StepKeepsComments(s: State, a: Action)
    requires Inv(s)
    ensures s.comments <= Next(s, a).comments
    ensures forall k :: 0 <= k < |Next(s, a).comments| ==> CommentInv(Next(s, a), k)
  {
    hide RequestInv, IssueInv;
    var s' := Next(s, a);
    forall k | 0 <= k < |s'.comments| ensures CommentInv(s', k) {
      if k < |s.comments| { assert CommentInv(s, k); }
    }
  }

  lemma StepKeepsInv(s: State, a: Action)
    requires Inv(s)
    ensures Inv(Next(s, a))
    ensures forall rid :: RequestMoves(s.requests, Next(s, a).requests, rid)
  {
    hide RequestInv, IssueInv, CommentInv, RequestMoves, StageInv, Next;
    var s' := Next(s, a);
    forall rid ensures RequestInv(s', rid) && RequestMoves(s.requests, s'.requests, rid) {
      StepKeepsRequests(s, a, rid);
    }
    forall issue ensures IssueInv(s', issue) {
      StepKeepsIssues(s, a, issue);
    }
    StepKeepsComments(s, a);
    match s.stage {
      case AtRest => StepKeepsStage(s, a);
      case Delivering(_) => DeliveryKeepsStage(s, a);
      case Posted(_) => DeliveryKeepsStage(s, a);
      case Closing(_) => DeliveryKeepsStage(s, a);
      case Closed(_) => DeliveryKeepsStage(s, a);
      case _ => WorkKeepsStage(s, a);
    }
  }

  // ----- what holds over every run

  lemma {:induction false} RunKeepsInv(s: State, actions: seq<Action>)
    requires Inv(s)
    ensures Inv(Run(s, actions))
    ensures forall rid :: RequestMoves(s.requests, Run(s, actions).requests, rid)
    ensures s.comments <= Run(s, actions).comments
    ensures forall issue :: issue in s.issues ==>
      issue in Run(s, actions).issues && Run(s, actions).issues[issue].record == s.issues[issue].record
    decreases |actions|
  {
    hide Inv, Next;
    if actions != [] {
      var s1 := Next(s, actions[0]);
      StepKeepsInv(s, actions[0]);
      IssueRecordsStay(s, actions[0]);
      RunKeepsInv(s1, actions[1..]);
      forall rid ensures RequestMoves(s.requests, Run(s, actions).requests, rid) {
        MovesTransitive(s.requests, s1.requests, Run(s1, actions[1..]).requests, rid);
      }
    }
  }

  lemma MovesTransitive(a: map<RequestId, Audit>, b: map<RequestId, Audit>, c: map<RequestId, Audit>, rid: RequestId)
    requires RequestMoves(a, b, rid) && RequestMoves(b, c, rid)
    ensures RequestMoves(a, c, rid)
  {
  }

  lemma IssueRecordsStay(s: State, a: Action)
    requires Inv(s)
    ensures forall issue :: issue in s.issues ==>
      issue in Next(s, a).issues && Next(s, a).issues[issue].record == s.issues[issue].record
    ensures s.comments <= Next(s, a).comments
  {
  }

  lemma {:induction false} RunConcat(s: State, before: seq<Action>, after: seq<Action>)
    ensures Run(s, before + after) == Run(Run(s, before), after)
    decreases |before|
  {
    if before == [] {
      assert before + after == after;
    } else {
      assert (before + after)[1..] == before[1..] + after;
      RunConcat(Next(s, before[0]), before[1..], after);
    }
  }

  /** The handler of a request id runs at most once, whatever crashes and raised writes there are, and never unreserved. */
  lemma HandlerRunsOnce(actions: seq<Action>, rid: RequestId)
    ensures var s := Run(INITIAL, actions);
      s.invoked[rid] <= 1 && (s.invoked[rid] == 1 ==> rid in s.requests)
  {
    RunKeepsInv(INITIAL, actions);
    assert RequestInv(Run(INITIAL, actions), rid);
  }

  /** A stored request record moves from absent to processing to its end, and is then frozen. */
  lemma RequestsAreFrozen(before: seq<Action>, after: seq<Action>, rid: RequestId)
    requires rid in Run(INITIAL, before).requests
    ensures var r := Run(INITIAL, before).requests[rid];
      var requests := Run(INITIAL, before + after).requests;
      && rid in requests
      && (r.status.Processing? || r.status.Completed? || r.status.ExecutionFailed?)
      && (if r.status.Processing? then requests[rid] == r || requests[rid].status.Completed? || requests[rid].status.ExecutionFailed?
          else requests[rid] == r)
  {
    RunConcat(INITIAL, before, after);
    RunKeepsInv(INITIAL, before);
    RunKeepsInv(Run(INITIAL, before), after);
    assert RequestInv(Run(INITIAL, before), rid);
    assert RequestMoves(Run(INITIAL, before).requests, Run(INITIAL, before + after).requests, rid);
  }

  /** A request record is never written for the first time as anything but `processing`. */
  lemma ReservationComesFirst(actions: seq<Action>, a: Action, rid: RequestId)
    ensures var s := Run(INITIAL, actions);
      rid !in s.requests && rid in Next(s, a).requests ==> Next(s, a).requests[rid].status.Processing?
  {
    RunKeepsInv(INITIAL, actions);
    StepKeepsRequests(Run(INITIAL, actions), a, rid);
  }

  /** Every comment ever posted on one issue carries the same envelope, made of the issue's stored record. */
  lemma CommentsAgree(actions: seq<Action>, i: nat, j: nat)
    requires i < |Run(INITIAL, actions).comments| && j < |Run(INITIAL, actions).comments|
    requires Run(INITIAL, actions).comments[i].0 == Run(INITIAL, actions).comments[j].0
    ensures var s := Run(INITIAL, actions);
      && s.comments[i].0 in s.issues
      && s.comments[i].1 == s.comments[j].1 == EnvelopeOf(s.issues[s.comments[i].0].record)
  {
    var s := Run(INITIAL, actions);
    RunKeepsInv(INITIAL, actions);
    assert CommentInv(s, i) && CommentInv(s, j);
  }

  /** What an issue was told is, then and ever after, what the ledger of requests says. */
  lemma CommentsTellTheTruth(before: seq<Action>, after: seq<Action>, k: nat)
    requires k < |Run(INITIAL, before).comments|
    ensures var envelope := Run(INITIAL, before).comments[k].1;
      var requests := Run(INITIAL, before + after).requests;
      && !envelope.status.Processing?
      && (envelope.status.Completed? || envelope.status.ExecutionFailed? ==>
            envelope.requestId in requests && envelope == EnvelopeOf(requests[envelope.requestId]))
      && (envelope.status.Duplicate? ==>
            && envelope.requestId in requests
            && envelope.originalStatus == Some(requests[envelope.requestId].status)
            && envelope.result == Bounded(requests[envelope.requestId].result))
  {
    var s := Run(INITIAL, before);
    RunConcat(INITIAL, before, after);
    RunKeepsInv(INITIAL, before);
    RunKeepsInv(s, after);
    assert CommentInv(s, k) && IssueInv(s, s.comments[k].0);
    var record := s.issues[s.comments[k].0].record;
    assert RequestMoves(s.requests, Run(s, after).requests, record.requestId);
  }

  /** An issue is marked posted only after a comment, and closed only after it is marked posted; nothing unredacted is stored. */
  lemma DeliveryFlags(actions: seq<Action>, issue: nat)
    requires issue in Run(INITIAL, actions).issues
    ensures var s := Run(INITIAL, actions);
      && (s.issues[issue].closed ==> s.issues[issue].posted)
      && (s.issues[issue].posted ==> exists k :: 0 <= k < |s.comments| && s.comments[k].0 == issue)
      && CleanDelivery(s.issues[issue]) == s.issues[issue]
  {
    RunKeepsInv(INITIAL, actions);
    assert IssueInv(Run(INITIAL, actions), issue);
  }
}
