/**
 What a restart of the strict-priority consumer leaves behind. It never re-reads its own backlog,
 so the tickets in hand stay pending: at most one batch per restart.
 */
module PriorityRestart {
  import opened Streams
  import opened PriorityProtocol

  /** Tickets claimed and not acked, over all tiers. */
  function Held(s: System): nat {
    |Tier(s, High).pending| + |Tier(s, Normal).pending| + |Tier(s, Low).pending|
  }

  function InHand(u: Local): seq<nat> {
    if u.Scanning? then [] else u.batch
  }

  function Restarts(trace: seq<Label>): nat {
    if trace == [] then 0
    else Restarts(trace[..|trace| - 1]) + if trace[|trace| - 1].Restart? then 1 else 0
  }

  /** The batch in hand is claimed from its tier, each ticket once, and no larger than a batch may be. */
  ghost predicate Claimed(s: System, c: Config) {
    var batch := InHand(s.local);
    && |batch| <= c.count
    && (forall a, b :: 0 <= a < b < |batch| ==> batch[a] < batch[b])
    && (batch != [] ==>
          && s.local.tier < |c.scan|
          && forall j :: 0 <= j < |batch| ==> batch[j] in Tier(s, c.scan[s.local.tier]).pending)
  }

  lemma HeldAfter(s: System, p: Priority, m: Stream<Ticket>)
    ensures Held(SetTier(s, p, m)) == Held(s) - |Tier(s, p).pending| + |m.pending|
  {
  }

  lemma FreshBatch(m: Stream<Ticket>, consumer: string, count: nat)
    requires WellFormed(m)
    ensures var ids, m' := NewIds(m, count), XReadNew(m, consumer, count);
            && |ids| <= count && (forall a, b :: 0 <= a < b < |ids| ==> ids[a] < ids[b])
            && (forall j :: 0 <= j < |ids| ==> ids[j] in m'.pending)
            && |m'.pending| == |m.pending| + |ids|
  {
    var ids := NewIds(m, count);
    AssignSize(ids, consumer, m.pending);
    assert forall j :: 0 <= j < |ids| ==> ids[j] in ids;
    hide Assign, Range, NewIds;
  }

  lemma ReadFinds(s: System, c: Config)
    requires Legal(s, c) && s.local.Scanning? && c.scan != []
    requires NewIds(Tier(s, c.scan[|s.local.seen|]), c.count) != []
    ensures var s' := ReadStep(s, c);
            && Claimed(s', c) && Held(s') == Held(s) + |InHand(s'.local)|
  {
    var p := c.scan[|s.local.seen|];
    var m := Tier(s, p);
    var m' := XReadNew(m, c.consumer, c.count);
    FreshBatch(m, c.consumer, c.count);
    HeldAfter(s, p, m');
    var s' := ReadStep(s, c);
    assert s'.tiers == SetTier(s, p, m').tiers && Tier(s', p) == m';
    HeldByTiers(SetTier(s, p, m'), s');
    hide Held, XReadNew, NewIds, SetTier, Legal;
  }

  lemma ReadHolds(s: System, c: Config)
    requires Legal(s, c) && s.local.Scanning? && c.scan != []
    ensures var s' := ReadStep(s, c);
            && Claimed(s', c) && Held(s') == Held(s) + |InHand(s'.local)|
  {
    if NewIds(Tier(s, c.scan[|s.local.seen|]), c.count) == [] {
      HeldByTiers(s, ReadStep(s, c));
      hide Held, Tier, NewIds;
    } else {
      ReadFinds(s, c);
      hide Held, Claimed, ReadStep;
    }
  }

  lemma HeldByTiers(s: System, s': System)
    requires s.tiers == s'.tiers
    ensures Held(s) == Held(s')
  {
  }

  lemma AckHolds(s: System, c: Config)
    requires Legal(s, c) && s.local.Acking? && Claimed(s, c)
    ensures var s' := AckStep(s, c);
            && Claimed(s', c) && Held(s') + |InHand(s.local)| == Held(s) + |InHand(s'.local)|
  {
    var p, id := c.scan[s.local.tier], s.local.batch[0];
    var m := Tier(s, p);
    HeldAfter(s, p, XAck(m, id));
    assert |m.pending - {id}| == |m.pending| - 1 by {
      assert m.pending.Keys == (m.pending - {id}).Keys + {id};
      assert |m.pending| == |m.pending.Keys| && |m.pending - {id}| == |(m.pending - {id}).Keys|;
    }
    hide Held;
  }

  lemma PublishHolds(s: System, ticket: Ticket, c: Config)
    requires Legal(s, c) && Claimed(s, c)
    ensures var s' := PublishStep(s, ticket);
            Claimed(s', c) && Held(s') == Held(s) && InHand(s'.local) == InHand(s.local)
  {
    var p := ticket.priority;
    var m := XAdd(Tier(s, p), ticket);
    HeldAfter(s, p, m);
    HeldByTiers(SetTier(s, p, m), PublishStep(s, ticket));
    hide Held;
  }

  lemma OtherHolds(s: System, l: Label, c: Config)
    requires Legal(s, c) && Claimed(s, c) && !l.Publish? && (l.Advance? ==> s.local.Handling? || c.scan == [])
    ensures var s' := Step(s, l, c);
            && Claimed(s', c) && Held(s') == Held(s)
            && InHand(s'.local) == if l.Restart? then [] else InHand(s.local)
  {
    HeldByTiers(s, Step(s, l, c));
    hide Held;
  }

  lemma StrandedStep(s: System, l: Label, c: Config)
    requires Legal(s, c) && Claimed(s, c)
    ensures var s' := Step(s, l, c);
            && Claimed(s', c)
            && Held(s') - |InHand(s'.local)| <= Held(s) - (if l.Restart? then 0 else |InHand(s.local)|)
  {
    hide Claimed, Held, ReadStep, AckStep, HandledStep, PublishStep;
    if l.Publish? {
      PublishHolds(s, l.ticket, c);
    } else if l.Advance? && s.local.Scanning? && c.scan != [] {
      ReadHolds(s, c);
    } else if l.Advance? && s.local.Acking? {
      AckHolds(s, c);
    } else {
      OtherHolds(s, l, c);
    }
  }

  /** All but the batch in hand were stranded by a restart. */
  ghost predicate Bounded(s: System, c: Config, restarts: nat) {
    && Claimed(s, c)
    && Held(s) <= c.count * restarts + |InHand(s.local)|
  }

  lemma BoundedStep(s: System, l: Label, c: Config, restarts: nat)
    requires Legal(s, c) && Bounded(s, c, restarts)
    ensures Bounded(Step(s, l, c), c, restarts + if l.Restart? then 1 else 0)
  {
    hide Step, Claimed, Held, InHand;
    StrandedStep(s, l, c);
    BatchBound(s, c);
    assert c.count * (restarts + 1) == c.count * restarts + c.count;
  }

  lemma BatchBound(s: System, c: Config)
    requires Claimed(s, c)
    ensures |InHand(s.local)| <= c.count
  {
  }

  lemma {:induction false} RunIsBounded(trace: seq<Label>, c: Config)
    ensures Legal(Initial(), c) && Bounded(Exec(Initial(), trace, c), c, Restarts(trace))
  {
    if trace == [] {
    } else {
      var t, l := trace[..|trace| - 1], trace[|trace| - 1];
      RunIsBounded(t, c);
      hide Step, Bounded, Legal;
      BoundedStep(Exec(Initial(), t, c), l, c, Restarts(t));
    }
  }

  /** Whatever the publishers do and however often it restarts, at most `count` tickets are stranded per restart. */
  lemma StrandedPerRestart(trace: seq<Label>, c: Config)
    ensures Legal(Initial(), c)
    ensures var s := Exec(Initial(), trace, c);
            && |InHand(s.local)| <= c.count
            && Held(s) <= c.count * Restarts(trace) + |InHand(s.local)|
  {
    RunIsBounded(trace, c);
    BatchBound(Exec(Initial(), trace, c), c);
    hide Exec, Held, InHand, Claimed;
  }
}
