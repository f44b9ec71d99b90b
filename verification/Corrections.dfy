/** Corrections: an event may be superseded once, by another event; the chain may be followed from event to event. */
module Corrections {
  import opened Options
  import opened WatchedLedger

  function Supersede(events: seq<Row>, old': nat, replacement: nat): Option<seq<Row>> {
    if old' == replacement || old' >= |events| || replacement >= |events| || events[old'].supersededBy.Some? then None
    else Some(events[old' := events[old'].(supersededBy := Some(replacement))])
  }

  /** The event reached from `i` after n corrections. */
  function Follow(events: seq<Row>, i: nat, n: nat): Option<nat>
    decreases n
  {
    if n == 0 then Some(i)
    else if i >= |events| || events[i].supersededBy.None? then None
    else Follow(events, events[i].supersededBy.value, n - 1)
  }

  ghost predicate Acyclic(events: seq<Row>) {
    forall i: nat, n: nat :: n > 0 ==> Follow(events, i, n) != Some(i)
  }

  ghost predicate OnChain(events: seq<Row>, from: nat, x: nat) {
    exists n: nat :: Follow(events, from, n) == Some(x)
  }

  lemma {:induction false} FollowFurther(events: seq<Row>, i: nat, m: nat, n: nat)
    requires Follow(events, i, m).Some?
    ensures Follow(events, i, m + n) == Follow(events, Follow(events, i, m).value, n)
    decreases m
  {
    if m > 0 {
      FollowFurther(events, events[i].supersededBy.value, m - 1, n);
    }
  }

  predicate Avoids(events: seq<Row>, i: nat, n: nat, x: nat) {
    forall k: nat :: k < n ==> Follow(events, i, k) != Some(x)
  }

  /** A path that leaves from no changed event is the same path before and after. */
  lemma {:induction false} SamePath(events: seq<Row>, events': seq<Row>, x: nat, i: nat, n: nat)
    requires |events| == |events'| && forall j :: 0 <= j < |events| && j != x ==> events'[j].supersededBy == events[j].supersededBy
    requires Avoids(events', i, n, x)
    ensures Follow(events, i, n) == Follow(events', i, n)
    decreases n
  {
    if n > 0 {
      assert Follow(events', i, 0) == Some(i);
      if i < |events| && events'[i].supersededBy.Some? {
        var next := events'[i].supersededBy.value;
        forall k: nat | k < n - 1 ensures Follow(events', next, k) != Some(x) {
          assert Follow(events', i, k + 1) == Follow(events', next, k);
        }
        SamePath(events, events', x, next, n - 1);
      }
    }
  }

  lemma {:induction false} FirstVisit(events: seq<Row>, i: nat, n: nat, x: nat) returns (m: nat)
    requires Follow(events, i, n) == Some(x)
    ensures m <= n && Follow(events, i, m) == Some(x) && Avoids(events, i, m, x)
    decreases n
  {
    if k: nat :| k < n && Follow(events, i, k) == Some(x) {
      m := FirstVisit(events, i, k, x);
    } else {
      m := n;
    }
  }

  lemma ClosingTheLoop(events: seq<Row>, events': seq<Row>, old': nat, replacement: nat, n: nat)
    requires Supersede(events, old', replacement) == Some(events')
    requires Follow(events, replacement, n) == Some(old')
    ensures !Acyclic(events')
  {
    var m := FirstVisit(events, replacement, n, old');
    SamePath(events', events, old', replacement, m);
    assert Follow(events', old', m + 1) == Some(old');
  }

  lemma LoopGoesThroughTheCorrection(events: seq<Row>, events': seq<Row>, old': nat, replacement: nat, i: nat, n: nat)
    requires Supersede(events, old', replacement) == Some(events') && Acyclic(events)
    requires n > 0 && Follow(events', i, n) == Some(i)
    ensures OnChain(events, replacement, old')
  {
    if Avoids(events', i, n, old') {
      SamePath(events, events', old', i, n);
      assert Follow(events, i, n) == Some(i);
    } else {
      var k: nat :| k < n && Follow(events', i, k) == Some(old');
      FollowFurther(events', i, k, n - k);
      FollowFurther(events', old', n - k, k);
      assert Follow(events', old', n) == Some(old');
      assert Follow(events', replacement, n - 1) == Some(old');
      var m := FirstVisit(events', replacement, n - 1, old');
      SamePath(events, events', old', replacement, m);
      assert Follow(events, replacement, m) == Some(old');
    }
  }

  /** A correction keeps the chains free of cycles exactly when the event corrected is not already on its replacement's chain. */
  lemma SupersedeKeepsAcyclic(events: seq<Row>, old': nat, replacement: nat)
    requires Acyclic(events) && Supersede(events, old', replacement).Some?
    ensures Acyclic(Supersede(events, old', replacement).value) <==> !OnChain(events, replacement, old')
  {
    var events' := Supersede(events, old', replacement).value;
    if OnChain(events, replacement, old') {
      var n: nat :| Follow(events, replacement, n) == Some(old');
      ClosingTheLoop(events, events', old', replacement, n);
    } else {
      forall i: nat, n: nat | n > 0 ensures Follow(events', i, n) != Some(i) {
        if Follow(events', i, n) == Some(i) {
          LoopGoesThroughTheCorrection(events, events', old', replacement, i, n);
        }
      }
    }
  }

  /** Two accepted corrections already make a cycle. */
  lemma CorrectionsCanLoop(a: Row, b: Row)
    requires a.supersededBy.None? && b.supersededBy.None?
    ensures var first := Supersede([a, b], 0, 1);
      && first.Some?
      && Supersede(first.value, 1, 0).Some?
      && !Acyclic(Supersede(first.value, 1, 0).value)
  {
    var first := Supersede([a, b], 0, 1).value;
    var second := Supersede(first, 1, 0).value;
    assert Follow(second, 0, 2) == Follow(second, 1, 1) == Follow(second, 0, 0) == Some(0);
  }
}
