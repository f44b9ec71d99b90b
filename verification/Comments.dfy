/** What an issue is told, field by field, and what its record says for each way its request may go. */
module Comments {
  import opened Decimals
  import opened Options
  import opened Control

  /** A result in full up to 16000 characters, else its first 8000; redacted either way. */
  predicate Shows(shown: Shown, result: Option<Text>) {
    match result
    case None => shown.Nothing?
    case Some(text) =>
      if |text.content| <= 16000 then shown == Full(Text(text.content, true))
      else shown.Preview? && shown.text.redacted && |shown.text.content| == 8000 && shown.text.content <= text.content
  }

  predicate Tells(e: Envelope, r: Audit) {
    && e.requestId == r.requestId && e.capability == r.capability && e.status == r.status && e.error == r.error
    && e.originalStatus == r.originalStatus && Shows(e.result, r.result)
  }

  /** A request that never reached a handler. */
  predicate Refused(r: Audit, rid: RequestId, capability: Option<string>, code: string) {
    && r.requestId == rid && r.capability == capability && r.status == RequestRejected && r.error == Some(code)
    && r.originalStatus.None? && r.originalIssue.None? && r.result.None? && !r.accepted
  }

  /** How an execution ended. */
  predicate EndedAs(r: Audit, end: HandlerEnd) {
    && r.accepted && r.originalStatus.None? && r.originalIssue.None?
    && match end
       case Result(text) => r.status == Completed && r.error.None? && r.result == Some(Text(text.content, true))
       case SourceFailure => r.status == ExecutionFailed && r.error == Some("source_read_failure") && r.result.None?
       case Timeout => r.status == ExecutionFailed && r.error == Some("execution_timeout") && r.result.None?
       case HandlerFailure => r.status == ExecutionFailed && r.error == Some("handler_failed") && r.result.None?
  }

  /** A request id seen before: the answer points to the first one, which failed if it was still in progress. */
  predicate Repeats(r: Audit, existing: Audit) {
    && r.accepted && r.status == Duplicate && r.error.None? && r.result == existing.result
    && r.originalIssue == Some(existing.issue)
    && r.originalStatus == Some(if existing.status == Processing then ExecutionFailed else existing.status)
  }

  /** The record of an issue, for what the issue turned out to be and what the worker had stored. */
  predicate RecordFor(r: Audit, issue: nat, view: IssueView, requests: map<RequestId, Audit>, end: HandlerEnd) {
    && r.issue == issue
    && match view
       case Gone => false
       case Malformed(code) => Refused(r, "invalid-issue-" + Decimal(issue), None, code)
       case Unresolved(rid, capability, code) => Refused(r, rid, Some(capability), code)
       case Accepted(rid, capability, arguments) =>
         && r.requestId == rid && r.capability == Some(capability) && r.arguments == arguments
         && (if rid in requests then Repeats(r, requests[rid]) else EndedAs(r, end))
  }

  lemma EnvelopeTells(r: Audit)
    ensures Tells(EnvelopeOf(r), r) && Tells(EnvelopeOf(r), CleanAudit(r)) && Tells(EnvelopeOf(CleanAudit(r)), CleanAudit(r))
  {
  }

  /** Over every run: a comment tells the stored record of its issue. */
  lemma CommentsTellTheRecord(actions: seq<Action>, k: nat)
    requires k < |Run(INITIAL, actions).comments|
    ensures var s := Run(INITIAL, actions);
      s.comments[k].0 in s.issues && Tells(s.comments[k].1, s.issues[s.comments[k].0].record)
  {
    hide Run;
    var s := Run(INITIAL, actions);
    CommentsAgree(actions, k, k);
    EnvelopeTells(s.issues[s.comments[k].0].record);
  }

  // ----- one pass, when nothing fails

  /** As far as the record: what is stored of the request, and what will be told. */
  function Recorded(s: State, issue: nat, view: IssueView, end: HandlerEnd): State {
    Next(Next(Next(Next(Next(s, Take(issue, view)), Reserve(Done)), Invoke(end)), SaveResult(Done)), Seal(Done))
  }

  predicate Kept(s: State, s': State) {
    s'.requests == s.requests && s'.invoked == s.invoked && s'.issues == s.issues && s'.comments == s.comments
  }

  /** A refused request and a repeated one run nothing. */
  lemma RefusalLeads(s: State, issue: nat, view: IssueView, end: HandlerEnd)
    requires s.stage.AtRest? && issue !in s.issues && (view.Malformed? || view.Unresolved?)
    ensures var s' := Recorded(s, issue, view, end);
      s'.stage.Recording? && RecordFor(s'.stage.record, issue, view, s.requests, end) && Kept(s, s')
  {
    assert Recorded(s, issue, view, end) == Next(s, Take(issue, view));
  }

  /** A new request is run once, between its reservation and the record of its end. */
  lemma ExecutionLeads(s: State, issue: nat, view: IssueView, end: HandlerEnd)
    requires s.stage.AtRest? && issue !in s.issues && view.Accepted? && view.requestId !in s.requests
    ensures var s' := Recorded(s, issue, view, end);
      && s'.stage.Recording? && RecordFor(s'.stage.record, issue, view, s.requests, end)
      && s'.issues == s.issues && s'.comments == s.comments
      && s'.requests == s.requests[view.requestId := CleanAudit(s'.stage.record)]
      && s'.invoked == s.invoked + multiset{view.requestId}
  {
    var reservation := Received(issue, view.requestId).(capability := Some(view.capability), arguments := view.arguments,
                                                        accepted := true, status := Processing);
    var record := AfterHandler(reservation, end);
    var s1 := Next(Next(s, Take(issue, view)), Reserve(Done));
    assert s1 == s.(requests := s.requests[view.requestId := CleanAudit(reservation)], stage := Invoking(reservation));
    var s2 := Next(Next(s1, Invoke(end)), SaveResult(Done));
    assert s2 == s1.(requests := s.requests[view.requestId := CleanAudit(record)], stage := Recording(record),
                     invoked := s.invoked + multiset{view.requestId});
    assert Next(s2, Seal(Done)) == s2;
    hide CleanAudit, Next;
  }

  /** A request seen before is answered from its record, which is closed first if it was left in progress. */
  lemma RepetitionLeads(s: State, issue: nat, view: IssueView, end: HandlerEnd)
    requires s.stage.AtRest? && issue !in s.issues && view.Accepted? && view.requestId in s.requests
    requires s.requests[view.requestId].requestId == view.requestId
    ensures var s' := Recorded(s, issue, view, end);
      && s'.stage.Recording? && RecordFor(s'.stage.record, issue, view, s.requests, end)
      && s'.issues == s.issues && s'.comments == s.comments && s'.invoked == s.invoked
      && (s.requests[view.requestId].status != Processing ==> s'.requests == s.requests)
      && (s.requests[view.requestId].status == Processing ==>
            s'.requests == s.requests[view.requestId := CleanAudit(s.requests[view.requestId].(
              status := ExecutionFailed, error := Some("interrupted_execution_not_retried")))])
  {
    var s1 := Next(s, Take(issue, view));
    assert Next(Next(Next(s1, Reserve(Done)), Invoke(end)), SaveResult(Done)) == s1;
    hide CleanAudit;
  }

  /** From the record on: stored, posted once, closed, and marked so. */
  lemma DeliveryLeads(s: State)
    requires s.stage.Recording?
    ensures var r := s.stage.record;
      var s' := Next(Next(Next(Next(Next(s, SaveDelivery(Done)), Post(Done)), SavePosted(Done)), Close(false)), SaveClosed(Done));
      && s'.stage.AtRest? && s'.requests == s.requests && s'.invoked == s.invoked
      && s'.issues == s.issues[r.issue := Delivery(CleanAudit(r), true, true)]
      && |s'.comments| == |s.comments| + 1 && s.comments <= s'.comments
      && s'.comments[|s.comments|].0 == r.issue && Tells(s'.comments[|s.comments|].1, r)
  {
    EnvelopeTells(s.stage.record);
    hide EnvelopeOf, CleanAudit, Tells;
  }
}
