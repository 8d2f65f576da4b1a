/**
 What competing consumers keep in every interleaving: an entry is in one place, is acked only
 after a handler call on it completed, and is handled at most once more than it was reclaimed.
 */
module CompetingSafety {
  import opened Streams
  import opened CompetingProtocol

  /** Each delivered entry is pending or acked, never both. */
  ghost predicate Placed(s: System) {
    && WellFormed(s.main)
    && (forall i: nat :: i < s.main.next <==> i in s.main.pending || i in s.acked)
    && (forall i :: i in s.main.pending ==> i !in s.acked)
  }

  ghost predicate CompletedFor(s: System, t: nat, i: nat) {
    t in s.history.completed && t < |s.history.deliveries| && s.history.deliveries[t].id == i
  }

  /** An acked entry, or one about to be acked, has a completed handler call. */
  ghost predicate Backed(s: System) {
    && (forall i :: i in s.acked ==> exists t :: CompletedFor(s, t, i))
    && (forall c :: c in s.locals && s.locals[c].Acking? ==>
          && s.locals[c].batch != []
          && s.locals[c].batch[0] in s.history.completed)
    && (forall t :: 0 <= t < |s.history.deliveries| ==> s.history.deliveries[t].id < s.main.next)
  }

  ghost predicate Busy(u: Local) {
    u.Handling? || u.Acking?
  }

  /** A consumer's tickets are its own, in the order issued, and only the first has been called. */
  ghost predicate OwnTickets(s: System, c: string, u: Local) {
    Busy(u) ==>
      && (forall a, b :: 0 <= a < b < |u.batch| ==> u.batch[a] < u.batch[b])
      && (forall k :: 0 <= k < |u.batch| ==>
            && u.batch[k] < |s.history.deliveries|
            && s.history.deliveries[u.batch[k]].consumer == c)
      && (forall k :: 0 < k < |u.batch| ==> u.batch[k] !in s.history.calls)
  }

  /** No ticket is called twice. */
  ghost predicate CalledOnce(s: System) {
    && (forall k :: 0 <= k < |s.history.calls| ==> s.history.calls[k] < |s.history.deliveries|)
    && (forall a, b :: 0 <= a < b < |s.history.calls| ==> s.history.calls[a] != s.history.calls[b])
  }

  ghost predicate Ticketed(s: System) {
    CalledOnce(s) && forall c :: c in s.locals ==> OwnTickets(s, c, s.locals[c])
  }

  lemma ReadPlaced(s: System, c: string, count: nat)
    requires Issued(s) && Placed(s)
    ensures Placed(ReadStep(s, c, count))
  {
    var ids := NewIds(s.main, count);
    var s' := ReadStep(s, c, count);
    forall i: nat | s.main.next <= i < s'.main.next ensures i in ids {
      assert ids[i - s.main.next] == i;
    }
    hide Range, Assign, NewIds, Tickets;
  }

  lemma ReclaimPlaced(s: System, c: string, ids: seq<nat>, count: nat)
    requires Issued(s) && Placed(s) && Claimable(s, ids, count)
    ensures Placed(ReclaimStep(s, c, ids))
  {
    hide Range, Assign, Tickets;
  }

  lemma AckPlaced(s: System, c: string)
    requires Issued(s) && Placed(s) && Backed(s) && LocalOf(s, c).Acking?
    ensures Placed(AckStep(s, c, LocalOf(s, c)))
  {
    hide CompletedFor;
  }

  lemma PlacedStep(s: System, l: Label, count: nat)
    requires Issued(s) && Placed(s) && Backed(s)
    ensures Placed(Step(s, l, count))
  {
    if l.Advance? && LocalOf(s, l.consumer).AtRead? {
      ReadPlaced(s, l.consumer, count);
    } else if l.Advance? && LocalOf(s, l.consumer).Acking? {
      AckPlaced(s, l.consumer);
    } else if l.Reclaim? && Claimable(s, l.ids, count) {
      ReclaimPlaced(s, l.consumer, l.ids, count);
    }
    hide ReadStep, AckStep, ReclaimStep, Backed;
  }

  lemma AckBacked(s: System, c: string)
    requires Issued(s) && Backed(s) && LocalOf(s, c).Acking?
    ensures Backed(AckStep(s, c, LocalOf(s, c)))
  {
    var s' := AckStep(s, c, LocalOf(s, c));
    var t := LocalOf(s, c).batch[0];
    assert CompletedFor(s', t, s.history.deliveries[t].id);
    forall i | i in s.acked ensures exists t :: CompletedFor(s', t, i) {
      var t :| CompletedFor(s, t, i);
      assert CompletedFor(s', t, i);
    }
    hide CompletedFor;
  }

  lemma DeliverBacked(s: System, m: Stream<Task>, c: string, ids: seq<nat>, reclaimed: bool)
    requires Issued(s) && Backed(s) && s.main.next <= m.next <= |m.log| && InBelow(ids, m.next)
    ensures Backed(Deliver(s.(main := m), c, ids, reclaimed))
  {
    hide Range;
    var s' := Deliver(s.(main := m), c, ids, reclaimed);
    forall i | i in s.acked ensures exists t :: CompletedFor(s', t, i) {
      var t :| CompletedFor(s, t, i);
      assert CompletedFor(s', t, i);
    }
  }

  ghost predicate InBelow(ids: seq<nat>, n: nat) {
    forall k :: 0 <= k < |ids| ==> ids[k] < n
  }

  lemma OtherBacked(s: System, l: Label, count: nat)
    requires Issued(s) && Backed(s) && !l.Reclaim? && (l.Advance? ==> LocalOf(s, l.consumer).Handling?)
    ensures Backed(Step(s, l, count))
  {
    var s' := Step(s, l, count);
    forall i | i in s.acked ensures exists t :: CompletedFor(s', t, i) {
      var t :| CompletedFor(s, t, i);
      assert CompletedFor(s', t, i);
    }
  }

  lemma BackedStep(s: System, l: Label, count: nat)
    requires Issued(s) && Placed(s) && Backed(s)
    ensures Backed(Step(s, l, count))
  {
    hide Backed, AckStep, HandledStep, Deliver, Assign;
    if l.Advance? && LocalOf(s, l.consumer).Acking? {
      AckBacked(s, l.consumer);
    } else if l.Advance? && LocalOf(s, l.consumer).AtRead? {
      DeliverBacked(s, XReadNew(s.main, l.consumer, count), l.consumer, NewIds(s.main, count), false);
    } else if l.Reclaim? {
      if LocalOf(s, l.consumer).AtReclaim? && Claimable(s, l.ids, count) {
        DeliverBacked(s, XClaim(s.main, l.consumer, l.ids), l.consumer, l.ids, true);
      }
    } else if l.Advance? && (LocalOf(s, l.consumer).Down? || LocalOf(s, l.consumer).AtReclaim?) {
    } else {
      OtherBacked(s, l, count);
    }
  }

  /** Tickets already issued keep their meaning, and a consumer that did nothing keeps its own. */
  lemma TicketsFrame(s: System, s': System, c: string, u: Local)
    requires OwnTickets(s, c, u)
    requires |s.history.deliveries| <= |s'.history.deliveries|
    requires s'.history.deliveries[..|s.history.deliveries|] == s.history.deliveries
    requires forall k :: 0 <= k < |s'.history.calls| ==>
               (var t := s'.history.calls[k];
                t in s.history.calls || t >= |s.history.deliveries| || s.history.deliveries[t].consumer != c)
    ensures OwnTickets(s', c, u)
  {
    forall k | Busy(u) && 0 <= k < |u.batch|
        ensures s'.history.deliveries[u.batch[k]] == s.history.deliveries[u.batch[k]] {
      assert s'.history.deliveries[u.batch[k]] == s'.history.deliveries[..|s.history.deliveries|][u.batch[k]];
    }
  }

  lemma BeginTickets(s: System, c: string, batch: seq<nat>, reclaimed: bool)
    requires CalledOnce(s) && forall k :: 0 <= k < |batch| ==>
          && batch[k] < |s.history.deliveries|
          && batch[k] !in s.history.calls
    requires forall k :: 0 <= k < |batch| ==> s.history.deliveries[batch[k]].consumer == c
    requires forall a, b :: 0 <= a < b < |batch| ==> batch[a] < batch[b]
    ensures var s' := Begin(s, c, batch, reclaimed); CalledOnce(s') && OwnTickets(s', c, s'.locals[c])
  {
  }

  lemma FreshTickets(s: System, m: Stream<Task>, c: string, ids: seq<nat>, reclaimed: bool)
    requires Issued(s) && CalledOnce(s) && m.next <= |m.log|
    ensures var s' := Deliver(s.(main := m), c, ids, reclaimed); CalledOnce(s') && OwnTickets(s', c, s'.locals[c])
  {
    var n := |s.history.deliveries|;
    var ds := s.history.deliveries + Tickets(c, ids, reclaimed);
    var s1 := s.(main := m, history := s.history.(deliveries := ds));
    var batch := Range(n, n + |ids|);
    assert forall k :: 0 <= k < |batch| ==> ds[batch[k]].consumer == c && batch[k] !in s.history.calls;
    assert CalledOnce(s1);
    BeginTickets(s1, c, batch, reclaimed);
    hide Begin, CalledOnce, OwnTickets, Range, Tickets;
  }

  /** A fresh batch: new tickets, the first of them called. */
  lemma DeliverTicketed(s: System, m: Stream<Task>, c: string, ids: seq<nat>, reclaimed: bool)
    requires Issued(s) && Ticketed(s) && m.next <= |m.log|
    ensures Ticketed(Deliver(s.(main := m), c, ids, reclaimed))
  {
    var s' := Deliver(s.(main := m), c, ids, reclaimed);
    FreshTickets(s, m, c, ids, reclaimed);
    assert s'.history.deliveries[..|s.history.deliveries|] == s.history.deliveries;
    hide OwnTickets, CalledOnce, Issued;
    forall d | d in s'.locals ensures OwnTickets(s', d, s'.locals[d]) {
      if d != c {
        TicketsFrame(s, s', d, s.locals[d]);
      }
    }
  }

  lemma AckOwnTickets(s: System, c: string)
    requires Issued(s) && Ticketed(s) && LocalOf(s, c).Acking?
    ensures var s' := AckStep(s, c, LocalOf(s, c)); CalledOnce(s') && OwnTickets(s', c, s'.locals[c])
  {
    assert OwnTickets(s, c, s.locals[c]);
  }

  lemma AckTicketed(s: System, c: string)
    requires Issued(s) && Ticketed(s) && LocalOf(s, c).Acking?
    ensures Ticketed(AckStep(s, c, LocalOf(s, c)))
  {
    var s' := AckStep(s, c, LocalOf(s, c));
    AckOwnTickets(s, c);
    assert OwnTickets(s, c, s.locals[c]);
    assert s'.history.deliveries == s.history.deliveries;
    assert s'.history.deliveries[..|s.history.deliveries|] == s.history.deliveries;
    hide OwnTickets, CalledOnce;
    forall d | d in s'.locals ensures OwnTickets(s', d, s'.locals[d]) {
      if d != c {
        AckFrame(s, c, d);
      }
    }
  }

  lemma AckFrame(s: System, c: string, d: string)
    requires Issued(s) && Ticketed(s) && LocalOf(s, c).Acking? && d != c && d in s.locals
    ensures OwnTickets(AckStep(s, c, LocalOf(s, c)), d, s.locals[d])
  {
    assert OwnTickets(s, c, s.locals[c]) && OwnTickets(s, d, s.locals[d]);
    var s' := AckStep(s, c, LocalOf(s, c));
    assert s'.history.deliveries[..|s.history.deliveries|] == s.history.deliveries;
    TicketsFrame(s, s', d, s.locals[d]);
  }

  lemma OtherTicketed(s: System, l: Label, count: nat)
    requires Issued(s) && Ticketed(s) && !l.Reclaim? && (l.Advance? ==> LocalOf(s, l.consumer).Handling?)
    ensures Ticketed(Step(s, l, count))
  {
    var s' := Step(s, l, count);
    assert s'.history.calls == s.history.calls && s'.history.deliveries == s.history.deliveries;
    forall d | d in s'.locals ensures OwnTickets(s', d, s'.locals[d]) {
      if d in s.locals {
        assert OwnTickets(s, d, s.locals[d]);
      }
    }
  }

  lemma TicketedStep(s: System, l: Label, count: nat)
    requires Issued(s) && Ticketed(s)
    ensures Ticketed(Step(s, l, count))
  {
    hide Ticketed, AckStep, HandledStep, Deliver, Assign;
    if l.Advance? && LocalOf(s, l.consumer).Acking? {
      AckTicketed(s, l.consumer);
    } else if l.Advance? && LocalOf(s, l.consumer).AtRead? {
      DeliverTicketed(s, XReadNew(s.main, l.consumer, count), l.consumer, NewIds(s.main, count), false);
    } else if l.Reclaim? {
      if LocalOf(s, l.consumer).AtReclaim? && Claimable(s, l.ids, count) {
        DeliverTicketed(s, XClaim(s.main, l.consumer, l.ids), l.consumer, l.ids, true);
      }
    } else if l.Advance? && (LocalOf(s, l.consumer).Down? || LocalOf(s, l.consumer).AtReclaim?) {
    } else {
      OtherTicketed(s, l, count);
    }
  }

  /** Deliveries of entry `i`, by a fresh read or by a reclaim. */
  function DeliveriesOf(ds: seq<Delivery>, i: nat, reclaimed: bool): nat {
    if ds == [] then 0
    else DeliveriesOf(ds[..|ds| - 1], i, reclaimed) +
         if ds[|ds| - 1].id == i && ds[|ds| - 1].reclaimed == reclaimed then 1 else 0
  }

  lemma DeliveryCounts(ds: seq<Delivery>, d: Delivery, i: nat, reclaimed: bool)
    ensures DeliveriesOf(ds + [d], i, reclaimed)
         == DeliveriesOf(ds, i, reclaimed) + if d.id == i && d.reclaimed == reclaimed then 1 else 0
  {
    assert (ds + [d])[..|ds|] == ds;
  }

  lemma TicketsSplit(c: string, front: seq<nat>, last: nat, r: bool)
    ensures Tickets(c, front + [last], r) == Tickets(c, front, r) + [Delivery(c, last, r)]
  {
  }

  lemma {:induction false} DeliveriesGrow(ds: seq<Delivery>, c: string, ids: seq<nat>, r: bool, i: nat, reclaimed: bool)
    requires forall a, b :: 0 <= a < b < |ids| ==> ids[a] < ids[b]
    ensures DeliveriesOf(ds + Tickets(c, ids, r), i, reclaimed) ==
            DeliveriesOf(ds, i, reclaimed) + if i in ids && r == reclaimed then 1 else 0
    decreases |ids|
  {
    if ids == [] {
      assert ds + Tickets(c, ids, r) == ds;
    } else {
      var front, last := ids[..|ids| - 1], ids[|ids| - 1];
      TicketsSplit(c, front, last, r);
      assert ids == front + [last];
      hide DeliveriesOf, Tickets;
      DeliveriesGrow(ds, c, front, r, i, reclaimed);
      var before, d := ds + Tickets(c, front, r), Delivery(c, last, r);
      DeliveryCounts(before, d, i, reclaimed);
      assert ds + Tickets(c, ids, r) == before + [d];
      assert last !in front;
    }
  }

  /** A fresh read hands out each entry exactly once. */
  ghost predicate ReadOnce(s: System) {
    forall i: nat :: DeliveriesOf(s.history.deliveries, i, false) == if i < s.main.next then 1 else 0
  }

  lemma ReadOnceStep(s: System, l: Label, count: nat)
    requires Issued(s) && ReadOnce(s)
    ensures ReadOnce(Step(s, l, count))
  {
    hide DeliveriesOf, Assign;
    var s' := Step(s, l, count);
    forall i: nat ensures DeliveriesOf(s'.history.deliveries, i, false) == if i < s'.main.next then 1 else 0 {
      if l.Advance? && LocalOf(s, l.consumer).AtRead? {
        var ids := NewIds(s.main, count);
        DeliveriesGrow(s.history.deliveries, l.consumer, ids, false, i, false);
        if s.main.next <= i < s.main.next + |ids| {
          assert ids[i - s.main.next] == i;
        }
      } else if l.Reclaim? && Claimable(s, l.ids, count) {
        DeliveriesGrow(s.history.deliveries, l.consumer, l.ids, true, i, false);
      }
    }
  }
}
