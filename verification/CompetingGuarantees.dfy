/** The guarantees of a consumer group over every run of the protocol. */
module CompetingGuarantees {
  import opened Streams
  import opened CompetingProtocol
  import opened CompetingSafety

  /** Handler calls on entry `i`. */
  function CallsOn(calls: seq<nat>, ds: seq<Delivery>, i: nat): nat
    requires InBelow(calls, |ds|)
  {
    if calls == [] then 0
    else CallsOn(calls[..|calls| - 1], ds, i) + if ds[calls[|calls| - 1]].id == i then 1 else 0
  }

  lemma {:induction false} CallsOnSplit(a: seq<nat>, b: seq<nat>, ds: seq<Delivery>, i: nat)
    requires InBelow(a, |ds|) && InBelow(b, |ds|)
    ensures CallsOn(a + b, ds, i) == CallsOn(a, ds, i) + CallsOn(b, ds, i)
    decreases |b|
  {
    if b == [] {
      assert a + b == a;
    } else {
      CallsOnSplit(a, b[..|b| - 1], ds, i);
      assert (a + b)[..|a + b| - 1] == a + b[..|b| - 1];
    }
  }

  lemma {:induction false} CallsOnPrefix(calls: seq<nat>, ds: seq<Delivery>, n: nat, i: nat)
    requires n <= |ds| && InBelow(calls, n)
    ensures CallsOn(calls, ds, i) == CallsOn(calls, ds[..n], i)
    decreases |calls|
  {
    if calls == [] {
    } else {
      CallsOnPrefix(calls[..|calls| - 1], ds, n, i);
    }
  }

  lemma RemoveCall(calls: seq<nat>, ds: seq<Delivery>, i: nat, k: nat)
    requires InBelow(calls, |ds|) && k < |calls|
    ensures var others := calls[..k] + calls[k + 1..];
            && InBelow(others, |ds|)
            && CallsOn(calls, ds, i) == CallsOn(others, ds, i) + if ds[calls[k]].id == i then 1 else 0
  {
    hide CallsOn;
    assert calls == calls[..k] + ([calls[k]] + calls[k + 1..]);
    CallsOnSplit(calls[..k], [calls[k]] + calls[k + 1..], ds, i);
    CallsOnSplit([calls[k]], calls[k + 1..], ds, i);
    CallsOnSplit(calls[..k], calls[k + 1..], ds, i);
    OneCall(calls[k], ds, i);
  }

  lemma OneCall(t: nat, ds: seq<Delivery>, i: nat)
    requires t < |ds|
    ensures CallsOn([t], ds, i) == if ds[t].id == i then 1 else 0
  {
    assert [t][..0] == [];
    assert CallsOn([], ds, i) == 0;
  }

  ghost predicate Distinct(calls: seq<nat>) {
    forall a, b :: 0 <= a < b < |calls| ==> calls[a] != calls[b]
  }

  /** Distinct tickets for an entry are no more than its deliveries. */
  lemma {:induction false} CallsAreDelivered(calls: seq<nat>, ds: seq<Delivery>, i: nat)
    requires InBelow(calls, |ds|) && Distinct(calls)
    ensures CallsOn(calls, ds, i) <= DeliveriesOf(ds, i, false) + DeliveriesOf(ds, i, true)
    decreases |ds|
  {
    hide CallsOn;
    if calls == [] {
      NoCalls(ds, i);
    } else {
      assert calls[0] < |ds|;
      var last := |ds| - 1;
      var others := calls;
      if k :| 0 <= k < |calls| && calls[k] == last {
        others := calls[..k] + calls[k + 1..];
        RemoveCall(calls, ds, i, k);
      }
      CallsOnPrefix(others, ds, last, i);
      CallsAreDelivered(others, ds[..last], i);
    }
  }

  lemma NoCalls(ds: seq<Delivery>, i: nat)
    ensures CallsOn([], ds, i) == 0
  {
  }

  ghost predicate Safe(s: System) {
    Placed(s) && Backed(s) && Ticketed(s) && ReadOnce(s)
  }

  lemma {:induction false} RunIsSafe(trace: seq<Label>, count: nat)
    ensures Safe(Exec(Initial(), trace, count))
  {
    hide Step;
    if trace == [] {
    } else {
      hide Placed, Backed, Ticketed, ReadOnce, Issued;
      RunIsSafe(trace[..|trace| - 1], count);
      var s, l := Exec(Initial(), trace[..|trace| - 1], count), trace[|trace| - 1];
      PlacedStep(s, l, count);
      BackedStep(s, l, count);
      TicketedStep(s, l, count);
      ReadOnceStep(s, l, count);
    }
  }

  /** Every entry is exactly one of undelivered, pending with one owner, or acked. */
  lemma EntryIsInOnePlace(trace: seq<Label>, count: nat, i: nat)
    ensures var s := Exec(Initial(), trace, count);
            && (i >= s.main.next <==> i !in s.main.pending && i !in s.acked)
            && !(i in s.main.pending && i in s.acked)
  {
    RunIsSafe(trace, count);
    hide Exec;
  }

  /** An entry leaves the group only after some handler call on it completed. */
  lemma AckedIsHandled(trace: seq<Label>, count: nat, i: nat)
    requires i in Exec(Initial(), trace, count).acked
    ensures exists t :: CompletedFor(Exec(Initial(), trace, count), t, i)
  {
    RunIsSafe(trace, count);
    hide Exec;
  }

  function Reclaims(s: System, i: nat): nat {
    DeliveriesOf(s.history.deliveries, i, true)
  }

  /** Handler calls on an entry are at most one more than the times it was reclaimed. */
  lemma CallsAreBounded(trace: seq<Label>, count: nat, i: nat)
    ensures var s := Exec(Initial(), trace, count);
            && InBelow(s.history.calls, |s.history.deliveries|)
            && CallsOn(s.history.calls, s.history.deliveries, i) <= 1 + Reclaims(s, i)
  {
    RunIsSafe(trace, count);
    hide Exec, DeliveriesOf, CallsOn;
    var s := Exec(Initial(), trace, count);
    CallsAreDelivered(s.history.calls, s.history.deliveries, i);
  }

  lemma {:induction false} CallCounts(calls: seq<nat>, ds: seq<Delivery>, i: nat, a: nat)
    requires InBelow(calls, |ds|) && a < |calls| && ds[calls[a]].id == i
    ensures CallsOn(calls, ds, i) >= 1
    ensures forall b :: a < b < |calls| && ds[calls[b]].id == i ==> CallsOn(calls, ds, i) >= 2
    decreases |calls|
  {
    if a == |calls| - 1 {
    } else {
      CallCounts(calls[..|calls| - 1], ds, i, a);
    }
  }

  /**
   An entry nobody reclaimed is handled by one consumer only and at most once; if it was acked,
   it was handled exactly once.
   */
  lemma UnreclaimedIsExactlyOnce(trace: seq<Label>, count: nat, i: nat)
    requires Reclaims(Exec(Initial(), trace, count), i) == 0
    ensures var s := Exec(Initial(), trace, count); var calls, ds := s.history.calls, s.history.deliveries;
            && InBelow(calls, |ds|)
            && (forall a, b :: 0 <= a < b < |calls| ==> !(ds[calls[a]].id == i && ds[calls[b]].id == i))
            && (i in s.acked ==> CallsOn(calls, ds, i) == 1)
  {
    var s := Exec(Initial(), trace, count);
    CallsAreBounded(trace, count, i);
    RunIsSafe(trace, count);
    CompletedWasCalled(trace, count);
    hide Exec, DeliveriesOf, CallsOn, Reclaims, Placed, Ticketed, ReadOnce;
    var calls, ds := s.history.calls, s.history.deliveries;
    forall a, b | 0 <= a < b < |calls| && ds[calls[a]].id == i ensures ds[calls[b]].id != i {
      CallCounts(calls, ds, i, a);
    }
    if i in s.acked {
      var t :| CompletedFor(s, t, i);
      assert t in calls;
      var a :| 0 <= a < |calls| && calls[a] == t;
      CallCounts(calls, ds, i, a);
    }
  }

  /** Only a call that was started completes. */
  ghost predicate CompletedCalled(s: System) {
    && (forall t :: t in s.history.completed ==> t in s.history.calls)
    && (forall c :: c in s.locals && s.locals[c].Handling? ==>
          && s.locals[c].batch != []
          && s.locals[c].batch[0] in s.history.calls)
  }

  lemma CompletedCalledStep(s: System, l: Label, count: nat)
    requires Issued(s) && CompletedCalled(s)
    ensures CompletedCalled(Step(s, l, count))
  {
    hide Assign;
  }

  lemma {:induction false} CompletedWasCalled(trace: seq<Label>, count: nat)
    ensures CompletedCalled(Exec(Initial(), trace, count))
  {
    hide Step;
    if trace == [] {
    } else {
      hide CompletedCalled, Issued;
      CompletedWasCalled(trace[..|trace| - 1], count);
      CompletedCalledStep(Exec(Initial(), trace[..|trace| - 1], count), trace[|trace| - 1], count);
    }
  }

  /** `pending_count` is the number of entries delivered and not acked. */
  lemma PendingCount(trace: seq<Label>, count: nat)
    ensures var s := Exec(Initial(), trace, count); |s.main.pending| + |s.acked| == s.main.next
  {
    RunIsSafe(trace, count);
    hide Exec, Backed, Ticketed, ReadOnce;
    var s := Exec(Initial(), trace, count);
    assert s.main.pending.Keys + s.acked == Below(s.main.next);
    assert s.main.pending.Keys * s.acked == {};
  }

  function Below(n: nat): (r: set<nat>)
    ensures |r| == n && forall i: nat :: i in r <==> i < n
  {
    if n == 0 then {} else Below(n - 1) + {n - 1}
  }

  /** The tasks published along a trace, in order. */
  function TasksOf(trace: seq<Label>): seq<Task> {
    if trace == [] then []
    else TasksOf(trace[..|trace| - 1]) + if trace[|trace| - 1].Publish? then [trace[|trace| - 1].task] else []
  }

  lemma LogStep(s: System, l: Label, count: nat)
    requires Issued(s)
    ensures Step(s, l, count).main.log == s.main.log + if l.Publish? then [l.task] else []
  {
    hide Range, Assign, Issued;
  }

  /** The stream is what was published, in order, whatever consumers do. */
  lemma {:induction false} StreamIsWhatWasPublished(trace: seq<Label>, count: nat)
    ensures Exec(Initial(), trace, count).main.log == TasksOf(trace)
  {
    hide Step;
    if trace == [] {
    } else {
      StreamIsWhatWasPublished(trace[..|trace| - 1], count);
      LogStep(Exec(Initial(), trace[..|trace| - 1], count), trace[|trace| - 1], count);
    }
  }
}
