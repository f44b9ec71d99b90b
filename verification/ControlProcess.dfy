/** The Issues poller's code: one issue, and one page of issues. */
module ControlProcess {
  import opened Options
  import opened Control
  import opened Comments

  /** How the writes and the handler of one pass over an issue end. */
  datatype World = World(
    reserve: Write, end: HandlerEnd, saveResult: Write, seal: Write, saveDelivery: Write,
    post: Write, savePosted: Write, closeRaises: bool, saveClosed: Write)

  predicate Handled(issues: map<nat, Delivery>, issue: nat) {
    issue in issues && issues[issue].posted && issues[issue].closed
  }

  predicate Stored(issues: map<nat, Delivery>, delivery: Delivery) {
    delivery.record.issue in issues && issues[delivery.record.issue] == CleanDelivery(delivery)
  }

  /** No issue is forgotten and no mark is taken back. */
  predicate MarksStay(before: map<nat, Delivery>, after: map<nat, Delivery>) {
    forall issue :: issue in before ==>
      && issue in after
      && (before[issue].posted ==> after[issue].posted)
      && (before[issue].closed ==> after[issue].closed)
  }

  /** Nothing raises but perhaps the handler. */
  predicate Smooth(world: World) {
    && world.reserve.Done? && world.saveResult.Done? && world.seal.Done? && world.saveDelivery.Done?
    && world.post.Done? && world.savePosted.Done? && !world.closeRaises && world.saveClosed.Done?
  }

  /** One more comment, on this issue, that tells this record. */
  predicate ToldOnce(before: seq<(nat, Envelope)>, after: seq<(nat, Envelope)>, issue: nat, record: Audit) {
    && |after| == |before| + 1 && before <= after
    && after[|before|].0 == issue && Tells(after[|before|].1, record)
  }

  ghost predicate IsRecordFor(stored: Audit, issue: nat, view: IssueView, requests: map<RequestId, Audit>, end: HandlerEnd) {
    exists r :: RecordFor(r, issue, view, requests, end) && stored == CleanAudit(r)
  }

  class Worker {
    var requests: map<RequestId, Audit>
    var issues: map<nat, Delivery>
    var comments: seq<(nat, Envelope)>
    // The step system's view of this worker, and the actions that led to it.
    ghost var invoked: multiset<RequestId>
    ghost var stage: Stage
    ghost var trace: seq<Action>

    ghost function Abstract(): State
      reads this
    {
      State(requests, issues, comments, invoked, stage)
    }

    ghost predicate Valid()
      reads this
    {
      Abstract() == Run(INITIAL, trace)
    }

    constructor ()
      ensures Valid() && trace == [] && stage.AtRest?
    {
      requests, issues, comments := map[], map[], [];
      invoked, stage, trace := multiset{}, AtRest, [];
    }

    /** The step just taken, for the record. */
    ghost method Note(before: State, a: Action)
      requires before == Run(INITIAL, trace)
      requires requests == Next(before, a).requests
      requires issues == Next(before, a).issues
      requires comments == Next(before, a).comments
      modifies this`invoked, this`stage, this`trace
      ensures Valid() && Abstract() == Next(before, a) && trace == old(trace) + [a]
    {
      RunConcat(INITIAL, trace, [a]);
      assert Run(before, [a]) == Run(Next(before, a), []);
      trace := trace + [a];
      invoked, stage := Next(before, a).invoked, Next(before, a).stage;
    }

    method Save<K(==)>(entries: map<K, Audit>, key: K, record: Audit, write: Write) returns (entries': map<K, Audit>)
      ensures entries' == if write.Lost? then entries else entries[key := CleanAudit(record)]
    {
      entries' := if write.Lost? then entries else entries[key := CleanAudit(record)];
    }

    method SaveIssue(delivery: Delivery, write: Write)
      modifies this`issues
      ensures issues == if write.Lost? then old(issues) else old(issues)[delivery.record.issue := CleanDelivery(delivery)]
    {
      if !write.Lost? {
        issues := issues[delivery.record.issue := CleanDelivery(delivery)];
      }
    }

    /** One issue, from wherever its last pass stopped. `done` is false when something raised. */
    method Process(issue: nat, view: IssueView, world: World) returns (done: bool)
      requires Valid() && stage.AtRest?
      modifies this
      ensures Valid() && old(trace) <= trace && stage.AtRest?
      ensures done && (issue in old(issues) || !view.Gone?) ==> Handled(issues, issue)
      ensures MarksStay(old(issues), issues)
      ensures Smooth(world) ==> done
      ensures done && issue in old(issues) ==>
        && issue in issues && issues[issue].record == old(issues)[issue].record
        && (old(issues)[issue].posted ==> comments == old(comments))
        && (!old(issues)[issue].posted ==> ToldOnce(old(comments), comments, issue, issues[issue].record))
      ensures done && issue !in old(issues) && !view.Gone? ==>
        && issue in issues && IsRecordFor(issues[issue].record, issue, view, old(requests), world.end)
        && ToldOnce(old(comments), comments, issue, issues[issue].record)
    {
      hide Run, Next, RecordFor, Tells;
      if issue in issues {
        var delivery := Reload(issue, view);
        done := Deliver(delivery, world);
      } else if view.Gone? {
        Skip(issue, view);
        done := true;
      } else {
        var recorded := Record(issue, view, world);
        if recorded.None? {
          return false;
        }
        var delivery := Delivery(recorded.value, false, false);
        done := SaveFirst(delivery, world.saveDelivery);
        if done {
          done := Deliver(delivery, world);
        }
      }
    }

    method Reload(issue: nat, view: IssueView) returns (delivery: Delivery)
      requires Valid() && stage.AtRest? && issue in issues
      modifies this
      ensures Valid() && old(trace) <= trace && issues == old(issues) && comments == old(comments)
      ensures stage == Resume(delivery) && Stored(issues, delivery) && delivery.record.issue == issue
    {
      RunKeepsInv(INITIAL, trace);
      assert IssueInv(Abstract(), issue);
      delivery := issues[issue];
      Note(Abstract(), Take(issue, view));
    }

    method Skip(issue: nat, view: IssueView)
      requires Valid() && stage.AtRest? && issue !in issues && view.Gone?
      modifies this
      ensures Valid() && old(trace) <= trace && issues == old(issues) && stage.AtRest?
    {
      Note(Abstract(), Take(issue, view));
    }

    method SaveFirst(delivery: Delivery, write: Write) returns (done: bool)
      requires Valid() && stage == Recording(delivery.record) && delivery.record.issue !in issues
      requires !delivery.posted && !delivery.closed
      modifies this
      ensures Valid() && old(trace) <= trace && MarksStay(old(issues), issues)
      ensures if done then stage == Delivering(delivery) && Stored(issues, delivery) else stage.AtRest?
      ensures comments == old(comments) && (write.Done? ==> done)
    {
      ghost var s := Abstract();
      SaveIssue(delivery, write);
      Note(s, SaveDelivery(write));
      done := write.Done?;
    }

    /** Admission and, for a fresh request, its one execution. The record is what the issue will be told. */
    method Record(issue: nat, view: IssueView, world: World) returns (recorded: Option<Audit>)
      requires Valid() && stage.AtRest? && issue !in issues && !view.Gone?
      modifies this
      ensures Valid() && old(trace) <= trace && issues == old(issues) && comments == old(comments)
      ensures if recorded.None? then stage.AtRest? else stage == Recording(recorded.value) && recorded.value.issue == issue
      ensures recorded.Some? ==> RecordFor(recorded.value, issue, view, old(requests), world.end)
      ensures Smooth(world) ==> recorded.Some?
    {
      hide Run;
      ghost var s := Abstract();
      Note(s, Take(issue, view));
      var record := Received(issue, InvalidId(issue));
      match view {
        case Malformed(code) =>
          record := record.(error := Some(code));
        case Unresolved(rid, capability, code) =>
          record := Received(issue, rid).(capability := Some(capability), error := Some(code));
        case Accepted(rid, capability, arguments) =>
          record := Received(issue, rid).(capability := Some(capability), arguments := arguments, accepted := true);
          if rid in requests {
            var existing := requests[rid];
            RunKeepsInv(INITIAL, old(trace));
            assert RequestInv(s, rid);
            if existing.status.Processing? {
              existing := Interrupted(existing);
              record := DuplicateOf(record, existing);
              s := Abstract();
              requests := Save(requests, rid, existing, world.seal);
              Note(s, Seal(world.seal));
              if !world.seal.Done? {
                return None;
              }
            } else {
              record := DuplicateOf(record, existing);
            }
          } else {
            recorded := Execute(record.(status := Processing), world);
            return;
          }
      }
      return Some(record);
    }

    /** Reserve durably, only then invoke the handler, then save how it ended. */
    method Execute(reservation: Audit, world: World) returns (recorded: Option<Audit>)
      requires Valid() && stage == Reserving(reservation)
      modifies this
      ensures Valid() && old(trace) <= trace && issues == old(issues) && comments == old(comments)
      ensures if recorded.None? then stage.AtRest? else stage == Recording(recorded.value) && recorded.value.issue == reservation.issue
      ensures recorded.Some? ==> recorded.value == AfterHandler(reservation, world.end)
      ensures world.reserve.Done? && world.saveResult.Done? ==> recorded.Some?
    {
      hide Run, Next;
      var reserved := SaveReservation(reservation, world.reserve);
      if !reserved {
        return None;
      }
      var record := AfterHandler(reservation, world.end);
      Handler(reservation, world.end);
      var saved := SaveEnd(record, world.saveResult);
      return if saved then Some(record) else None;
    }

    method SaveReservation(reservation: Audit, write: Write) returns (done: bool)
      requires Valid() && stage == Reserving(reservation)
      modifies this
      ensures Valid() && old(trace) <= trace && issues == old(issues) && comments == old(comments)
      ensures stage == if done then Invoking(reservation) else AtRest
      ensures write.Done? ==> done
    {
      ghost var s := Abstract();
      requests := Save(requests, reservation.requestId, reservation, write);
      Note(s, Reserve(write));
      done := write.Done?;
    }

    /** The foreign handler: only how it ends matters here. */
    ghost method Handler(reservation: Audit, end: HandlerEnd)
      requires Valid() && stage == Invoking(reservation)
      modifies this`invoked, this`stage, this`trace
      ensures Valid() && old(trace) <= trace && stage == Invoked(AfterHandler(reservation, end))
      ensures invoked == old(invoked) + multiset{reservation.requestId}
    {
      Note(Abstract(), Invoke(end));
    }

    method SaveEnd(record: Audit, write: Write) returns (done: bool)
      requires Valid() && stage == Invoked(record)
      modifies this
      ensures Valid() && old(trace) <= trace && issues == old(issues) && comments == old(comments)
      ensures stage == if done then Recording(record) else AtRest
      ensures write.Done? ==> done
    {
      ghost var s := Abstract();
      requests := Save(requests, record.requestId, record, write);
      Note(s, SaveResult(write));
      done := write.Done?;
    }

    /** Post unless already posted, then close; each mark is saved after the effect it records. */
    method Deliver(loaded: Delivery, world: World) returns (done: bool)
      requires Valid() && stage == Resume(loaded) && Stored(issues, loaded)
      modifies this
      ensures Valid() && old(trace) <= trace && stage.AtRest?
      ensures done ==> Handled(issues, loaded.record.issue)
      ensures MarksStay(old(issues), issues)
      ensures Smooth(world) ==> done
      ensures done ==> var issue := loaded.record.issue;
        && issues[issue].record == CleanAudit(loaded.record)
        && (loaded.posted ==> comments == old(comments))
        && (!loaded.posted ==> ToldOnce(old(comments), comments, issue, CleanAudit(loaded.record)))
    {
      hide Run, Next, Tells;
      var delivery := loaded;
      if !delivery.posted {
        var posted := PostResult(delivery, world.post);
        if !posted {
          return false;
        }
        delivery := delivery.(posted := true);
        posted := MarkPosted(delivery, world.savePosted);
        if !posted {
          return false;
        }
      }
      done := CloseIssue(delivery, world.closeRaises, world.saveClosed);
    }

    method PostResult(delivery: Delivery, write: Write) returns (done: bool)
      requires Valid() && stage == Delivering(delivery)
      modifies this
      ensures Valid() && old(trace) <= trace && issues == old(issues)
      ensures stage == if done then Posted(delivery.(posted := true)) else AtRest
      ensures write.Done? ==> done
      ensures done ==> ToldOnce(old(comments), comments, delivery.record.issue, CleanAudit(delivery.record))
    {
      EnvelopeTells(delivery.record);
      ghost var s := Abstract();
      if !write.Lost? {
        comments := comments + [(delivery.record.issue, EnvelopeOf(delivery.record))];
      }
      Note(s, Post(write));
      done := write.Done?;
    }

    method MarkPosted(delivery: Delivery, write: Write) returns (done: bool)
      requires Valid() && stage == Posted(delivery) && delivery.posted && Stored(issues, delivery.(posted := false))
      modifies this
      ensures Valid() && old(trace) <= trace && MarksStay(old(issues), issues)
      ensures stage == if done then Closing(delivery) else AtRest
      ensures done ==> Stored(issues, delivery)
      ensures comments == old(comments) && (write.Done? ==> done)
    {
      ghost var s := Abstract();
      SaveIssue(delivery, write);
      Note(s, SavePosted(write));
      done := write.Done?;
    }

    method CloseIssue(loaded: Delivery, raises: bool, write: Write) returns (done: bool)
      requires Valid() && stage == Closing(loaded) && loaded.posted && Stored(issues, loaded)
      modifies this
      ensures Valid() && old(trace) <= trace && MarksStay(old(issues), issues) && stage.AtRest?
      ensures done ==> Handled(issues, loaded.record.issue) && issues[loaded.record.issue].record == CleanAudit(loaded.record)
      ensures comments == old(comments) && (!raises && write.Done? ==> done)
    {
      Note(Abstract(), Close(raises));
      if raises {
        return false;
      }
      var delivery := loaded.(closed := true);
      ghost var s := Abstract();
      SaveIssue(delivery, write);
      Note(s, SaveClosed(write));
      done := write.Done?;
    }

    /** One page: the issues in order, until one raises or the worker is told to stop. */
    method Tick(page: seq<(nat, IssueView)>, world: nat -> World, stopAt: nat) returns (handled: nat)
      requires Valid() && stage.AtRest?
      modifies this
      ensures Valid() && old(trace) <= trace && stage.AtRest?
      ensures handled <= |page|
      ensures forall k :: 0 <= k < handled && !page[k].1.Gone? ==> Handled(issues, page[k].0)
    {
      hide Run, Next;
      handled := 0;
      while handled < |page| && handled < stopAt
        invariant handled <= |page|
        invariant Valid() && old(trace) <= trace && stage.AtRest?
        invariant forall k :: 0 <= k < handled && !page[k].1.Gone? ==> Handled(issues, page[k].0)
      {
        var done := Process(page[handled].0, page[handled].1, world(handled));
        if !done {
          return;
        }
        handled := handled + 1;
      }
    }
  }
}
