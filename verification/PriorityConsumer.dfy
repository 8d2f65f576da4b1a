/**
 The strict-priority loop as the program runs it, with publishers acting between any two of its
 awaits. The broker's state is a state of the protocol at all times.
 */
module PriorityConsumer {
  import opened Streams
  import opened PriorityProtocol
  import opened PrioritySort

  function HandledCount(events: seq<Event>): nat {
    if events == [] then 0
    else HandledCount(events[..|events| - 1]) + if events[|events| - 1].Handled? then 1 else 0
  }

  lemma HandledCountGrows(events: seq<Event>, e: Event)
    ensures HandledCount(events + [e]) == HandledCount(events) + if e.Handled? then 1 else 0
  {
    assert (events + [e])[..|events|] == events;
  }

  lemma {:induction false} PublishersAreForeign(s: System, tickets: seq<Ticket>, c: Config)
    requires Legal(s, c)
    ensures Exec(s, Publishes(tickets), c).local == s.local
    ensures HandledCount(Exec(s, Publishes(tickets), c).events) == HandledCount(s.events)
  {
    if tickets == [] {
    } else {
      hide Legal, HandledCount, Tier;
      var front := tickets[..|tickets| - 1];
      PublishersAreForeign(s, front, c);
      assert Publishes(tickets)[..|tickets| - 1] == Publishes(front);
      var m := Exec(s, Publishes(front), c);
      var t := tickets[|tickets| - 1];
      HandledCountGrows(m.events, Published(t.priority, |Tier(m, t.priority).log|));
    }
  }

  /** The first `n` awaits, each after what was published before it. */
  ghost function Woven(arrivals: nat -> seq<Ticket>, n: nat): seq<Label> {
    if n == 0 then [] else Woven(arrivals, n - 1) + Publishes(arrivals(n - 1)) + [Advance]
  }

  class PriorityQueueBroker {
    var sys: System
    var clock: nat
    const c: Config
    /** What is published before the k-th await of the consumer completes. */
    const arrivals: nat -> seq<Ticket>
    /** Scans begun so far at the first tier. */
    ghost var scans: nat

    ghost predicate Valid()
      reads this
    {
      Legal(sys, c) && Legal(Initial(), c) && sys == Exec(Initial(), Woven(arrivals, clock), c)
    }

    ghost function Total(): nat
      reads this
    {
      HandledCount(sys.events)
    }

    constructor (c: Config, arrivals: nat -> seq<Ticket>)
      ensures Valid() && sys == Initial() && this.c == c && this.arrivals == arrivals
    {
      sys, clock, scans := Initial(), 0, 0;
      this.c, this.arrivals := c, arrivals;
    }

    method Await() returns (ghost met: System)
      requires Valid()
      modifies this
      ensures Valid() && clock == old(clock) + 1 && scans == old(scans)
      ensures Legal(met, c) && met == Exec(old(sys), Publishes(arrivals(old(clock))), c)
      ensures met.local == old(sys.local) && HandledCount(met.events) == old(Total())
      ensures sys == Step(met, Advance, c)
    {
      hide Step, Legal, Publishes, HandledCount;
      var labels := Publishes(arrivals(clock));
      PublishersAreForeign(sys, arrivals(clock), c);
      ghost var trace := Woven(arrivals, clock);
      ExecAppend(Initial(), trace, labels, c);
      met := Exec(sys, labels, c);
      assert (trace + labels + [Advance])[..|trace + labels|] == trace + labels;
      assert Woven(arrivals, clock + 1) == trace + labels + [Advance];
      sys := Exec(sys, labels, c);
      sys := Step(sys, Advance, c);
      clock := clock + 1;
    }

    /**
     A non-blocking read of the next tier of the scan: the oldest undelivered tickets of that tier
     once whatever was published meanwhile is there.
     */
    method ReadNew(t: nat) returns (batch: seq<nat>)
      requires Valid() && t < |c.scan| && sys.local.Scanning? && |sys.local.seen| == t
      modifies this
      ensures Valid() && Total() == old(Total()) && scans == old(scans) + if t == 0 then 1 else 0
      ensures clock == old(clock) + 1
      ensures var met := Exec(old(sys), Publishes(arrivals(old(clock))), c);
              && Legal(met, c) && WellFormed(Tier(met, c.scan[t])) && sys == Step(met, Advance, c)
              && batch == NewIds(Tier(met, c.scan[t]), c.count)
      ensures if batch != [] then sys.local == Handling(t, batch)
              else sys.local.Scanning? && |sys.local.seen| == (if t + 1 == |c.scan| then 0 else t + 1)
    {
      hide HandledCount, Exec;
      ghost var met := Await();
      ReadLocal(met, c);
      TierIsWellFormed(met, c, c.scan[t]);
      hide Legal, Tier, NewIds, Step;
      batch := if sys.local.Handling? then sys.local.batch else [];
      scans := scans + if t == 0 then 1 else 0;
    }

    method HandlerReturns(t: nat, ghost batch: seq<nat>)
      requires Valid() && sys.local == Handling(t, batch)
      modifies this
      ensures Valid() && sys.local == Acking(t, batch) && Total() == old(Total()) + 1 && scans == old(scans)
      ensures clock == old(clock) + 1
    {
      hide Exec;
      ghost var met := Await();
      HandledCountGrows(met.events, Handled(c.scan[t], batch[0]));
      hide HandledCount;
    }

    method Ack(t: nat, ghost batch: seq<nat>)
      requires Valid() && sys.local == Acking(t, batch)
      modifies this
      ensures Valid() && batch != [] && Total() == old(Total()) && scans == old(scans)
      ensures clock == old(clock) + 1
      ensures sys.local == if batch[1..] == [] then Scanning([]) else Handling(t, batch[1..])
    {
      hide Exec, HandledCount, Tier;
      ghost var met := Await();
    }
  }

  lemma TierIsWellFormed(s: System, c: Config, p: Priority)
    requires Legal(s, c)
    ensures WellFormed(Tier(s, p))
  {
  }

  lemma ReadLocal(s: System, c: Config)
    requires Legal(s, c) && s.local.Scanning? && c.scan != []
    ensures var s', t := Step(s, Advance, c), |s.local.seen|;
            && HandledCount(s'.events) == HandledCount(s.events)
            && (if s'.local.Handling? then s'.local.tier == t && s'.local.batch != []
                else s'.local.Scanning? && |s'.local.seen| == if t + 1 == |c.scan| then 0 else t + 1)
            && WellFormed(Tier(s, c.scan[t]))
            && NewIds(Tier(s, c.scan[t]), c.count) == if s'.local.Handling? then s'.local.batch else []
  {
    var p := c.scan[|s.local.seen|];
    HandledCountGrows(s.events, Claimed(p, Tier(s, p).next, Tier(s, p).next + |NewIds(Tier(s, p), c.count)|));
    hide HandledCount, NewIds;
  }

  /**
   Scan the tiers in order, handle the first batch found, start over, `turns` times. Each read is
   taken only where the protocol's scan stands, and each handler call only on the batch in hand. The
   state at the end is that of the machine after exactly the awaits made, each with what was
   published before it.
   */
  method RunStrictPriorityConsumer(broker: PriorityQueueBroker, turns: nat) returns (totalHandled: nat)
    requires broker.Valid() && broker.sys.local == Scanning([])
    modifies broker
    ensures broker.Valid() && broker.sys.local == Scanning([])
    ensures broker.Total() == old(broker.Total()) + totalHandled
    ensures broker.sys == Exec(Initial(), Woven(broker.arrivals, broker.clock), broker.c)
    ensures broker.clock >= old(broker.clock) + 2 * totalHandled + if broker.c.scan == [] then 0 else turns
    ensures broker.clock <= old(broker.clock) + 2 * totalHandled + |broker.c.scan| * turns
    ensures broker.c.scan != [] ==> broker.scans == old(broker.scans) + turns
  {
    hide Legal, Exec, HandledCount, Woven;
    totalHandled := 0;
    ghost var looks, width := 0, |broker.c.scan|;
    for turn := 0 to turns
      invariant broker.Valid() && broker.sys.local == Scanning([])
      invariant broker.Total() == old(broker.Total()) + totalHandled
      invariant broker.scans == old(broker.scans) + if broker.c.scan == [] then 0 else turn
      invariant broker.clock == old(broker.clock) + 2 * totalHandled + looks
      invariant (width > 0 ==> turn <= looks) && looks <= width * turn
    {
      ghost var before := looks;
      assert width * (turn + 1) == width * turn + width;
      var handledAny := false;
      var t := 0;
      while t < |broker.c.scan| && !handledAny
        invariant broker.Valid() && t <= |broker.c.scan|
        invariant broker.sys.local.Scanning?
        invariant |broker.sys.local.seen| == if handledAny || t == |broker.c.scan| then 0 else t
        invariant broker.Total() == old(broker.Total()) + totalHandled
        invariant broker.c.scan != [] ==> broker.scans == old(broker.scans) + turn + if t > 0
                  || handledAny then 1 else 0
        invariant broker.c.scan == [] ==> broker.scans == old(broker.scans)
        invariant broker.clock == old(broker.clock) + 2 * totalHandled + looks
        invariant looks == before + t + (if handledAny then 1 else 0) && (handledAny ==> t < width)
        decreases |broker.c.scan| - t, !handledAny
      {
        var batch := broker.ReadNew(t);
        looks := looks + 1;
        if batch == [] {
          t := t + 1;
          continue;
        }
        for j := 0 to |batch|
          invariant broker.Valid()
          invariant broker.sys.local == if j == |batch| then Scanning([]) else Handling(t, batch[j..])
          invariant broker.Total() == old(broker.Total()) + totalHandled
          invariant broker.scans == old(broker.scans) + turn + 1
          invariant broker.clock == old(broker.clock) + 2 * totalHandled + looks
        {
          assert batch[j..][1..] == batch[j + 1..];
          broker.HandlerReturns(t, batch[j..]);
          broker.Ack(t, batch[j..]);
          totalHandled := totalHandled + 1;
        }
        handledAny := true;
      }
    }
  }
}
