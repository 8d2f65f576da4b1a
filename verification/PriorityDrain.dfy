/**
 With nothing published meanwhile, the strict-priority consumer handles a backlog in the order
 of a stable sort by tier, whatever the batch size, and acks all of it.
 */
module PriorityDrain {
  import opened Streams
  import opened PriorityProtocol

  /** The unclaimed places of one tier, oldest first, as the events of handling them. */
  function TierBacklog(p: Priority, lo: nat, hi: nat): (r: seq<Event>)
    ensures |r| == if lo <= hi then hi - lo else 0
    ensures forall i :: 0 <= i < |r| ==> r[i] == Handled(p, lo + i)
  {
    if hi <= lo then [] else seq(hi - lo, i requires 0 <= i < hi - lo => Handled(p, lo + i))
  }

  /** The unclaimed places of the tiers from the j-th of the scan on. */
  function Backlog(s: System, scan: seq<Priority>, j: nat): seq<Event>
    decreases |scan| - j
  {
    if j >= |scan| then []
    else TierBacklog(scan[j], Tier(s, scan[j]).next, |Tier(s, scan[j]).log|) + Backlog(s, scan, j + 1)
  }

  function Places(p: Priority, ids: seq<nat>): (r: seq<Event>)
    ensures |r| == |ids| && forall i :: 0 <= i < |r| ==> r[i] == Handled(p, ids[i])
  {
    seq(|ids|, i requires 0 <= i < |ids| => Handled(p, ids[i]))
  }

  /** Claimed and not handled yet. */
  function InBatch(s: System, c: Config): seq<Event>
    requires Legal(s, c)
  {
    match s.local
    case Scanning(_) => []
    case Handling(t, batch) => Places(c.scan[t], batch)
    case Acking(t, batch) => Places(c.scan[t], batch[1..])
  }

  /** The handler calls recorded from event `a` on. */
  function HandledSince(events: seq<Event>, a: nat): seq<Event> {
    if |events| <= a then []
    else HandledSince(events[..|events| - 1], a) +
         if events[|events| - 1].Handled? then [events[|events| - 1]] else []
  }

  lemma HandledGrows(events: seq<Event>, e: Event, a: nat)
    requires a <= |events|
    ensures HandledSince(events + [e], a) == HandledSince(events, a) + if e.Handled? then [e] else []
  {
    assert (events + [e])[..|events|] == events;
  }

  /** In a quiet run the tiers this scan has passed are empty. */
  ghost predicate PassedEmpty(s: System, c: Config) {
    s.local.Scanning? ==>
      forall j :: 0 <= j < |s.local.seen| && j < |c.scan| ==> Tier(s, c.scan[j]).next == |Tier(s, c.scan[j]).log|
  }

  lemma {:induction false} PrefixEmpty(s: System, scan: seq<Priority>, j: nat, t: nat)
    requires j <= t <= |scan|
    requires forall i :: j <= i < t ==> Tier(s, scan[i]).next >= |Tier(s, scan[i]).log|
    ensures Backlog(s, scan, j) == Backlog(s, scan, t)
    decreases t - j
  {
    if j == t {
    } else {
      PrefixEmpty(s, scan, j + 1, t);
    }
  }

  lemma {:induction false} BacklogFrame(s: System, s': System, scan: seq<Priority>, j: nat)
    requires forall i :: j <= i < |scan| ==>
          && Tier(s, scan[i]).next == Tier(s', scan[i]).next
          && Tier(s, scan[i]).log == Tier(s', scan[i]).log
    ensures Backlog(s, scan, j) == Backlog(s', scan, j)
    decreases |scan| - j
  {
    if j >= |scan| {
    } else {
      BacklogFrame(s, s', scan, j + 1);
    }
  }

  lemma TierSplits(m: Stream<Ticket>, p: Priority, count: nat)
    requires m.next <= |m.log|
    ensures var ids := NewIds(m, count);
            TierBacklog(p, m.next, |m.log|) == Places(p, ids) + TierBacklog(p, m.next + |ids|, |m.log|)
  {
  }

  /** What a read that finds something changes. */
  lemma ReadEffect(s: System, c: Config)
    requires Legal(s, c) && s.local.Scanning? && c.scan != [] && Distinct(c.scan)
    requires NewIds(Tier(s, c.scan[|s.local.seen|]), c.count) != []
    ensures var s', t := ReadStep(s, c), |s.local.seen|;
            var m := Tier(s, c.scan[t]); var ids := NewIds(m, c.count);
            && s'.local == Handling(t, ids)
            && s'.events == s.events + [Claimed(c.scan[t], m.next, m.next + |ids|)]
            && Tier(s', c.scan[t]).log == m.log && Tier(s', c.scan[t]).next == m.next + |ids|
            && (forall i :: 0 <= i < |c.scan| && i != t ==> Tier(s', c.scan[i]) == Tier(s, c.scan[i]))
  {
  }

  lemma BacklogFrom(s: System, scan: seq<Priority>, t: nat)
    requires t < |scan| && forall i :: 0 <= i < t ==> Tier(s, scan[i]).next >= |Tier(s, scan[i]).log|
    ensures Backlog(s, scan, 0)
         == TierBacklog(scan[t], Tier(s, scan[t]).next, |Tier(s, scan[t]).log|) + Backlog(s, scan, t + 1)
  {
    PrefixEmpty(s, scan, 0, t);
  }

  lemma Associative<T>(a: seq<T>, b: seq<T>, c: seq<T>)
    ensures a + (b + c) == a + b + c
  {
  }

  lemma FrontMoves(s: System, s': System, scan: seq<Priority>, t: nat, count: nat)
    requires t < |scan| && Tier(s, scan[t]).next <= |Tier(s, scan[t]).log|
    requires forall i :: 0 <= i < t ==> Tier(s, scan[i]).next >= |Tier(s, scan[i]).log|
    requires forall i :: 0 <= i < |scan| && i != t ==> Tier(s', scan[i]) == Tier(s, scan[i])
    requires Tier(s', scan[t]).log == Tier(s, scan[t]).log
    requires Tier(s', scan[t]).next == Tier(s, scan[t]).next + |NewIds(Tier(s, scan[t]), count)|
    ensures Places(scan[t], NewIds(Tier(s, scan[t]), count)) + Backlog(s', scan, 0) == Backlog(s, scan, 0)
  {
    hide TierBacklog, Places, NewIds, Backlog, Tier;
    var m := Tier(s, scan[t]);
    var ids := NewIds(m, count);
    BacklogFrom(s, scan, t);
    BacklogFrom(s', scan, t);
    BacklogFrame(s, s', scan, t + 1);
    TierSplits(m, scan[t], count);
    Associative(Places(scan[t], ids), TierBacklog(scan[t], m.next + |ids|, |m.log|), Backlog(s, scan, t + 1));
  }

  lemma ReadTakesFront(s: System, c: Config)
    requires Legal(s, c) && s.local.Scanning? && PassedEmpty(s, c) && Distinct(c.scan) && c.scan != []
    requires NewIds(Tier(s, c.scan[|s.local.seen|]), c.count) != []
    ensures InBatch(ReadStep(s, c), c) + Backlog(ReadStep(s, c), c.scan, 0) == Backlog(s, c.scan, 0)
  {
    ReadEffect(s, c);
    hide ReadStep, NewIds, TierBacklog, Places, Tier, Backlog;
    FrontMoves(s, ReadStep(s, c), c.scan, |s.local.seen|, c.count);
  }

  lemma ReadNothing(s: System, c: Config)
    requires Legal(s, c) && s.local.Scanning? && PassedEmpty(s, c) && c.scan != [] && c.count >= 1
    requires NewIds(Tier(s, c.scan[|s.local.seen|]), c.count) == []
    ensures var s' := ReadStep(s, c);
            && PassedEmpty(s', c) && s'.tiers == s.tiers && s'.events == s.events && s'.local.Scanning?
            && Backlog(s', c.scan, 0) == Backlog(s, c.scan, 0)
            && (if |s.local.seen| + 1 == |c.scan| then s'.local.seen == [] && Backlog(s, c.scan, 0) == []
                else |s'.local.seen| == |s.local.seen| + 1)
  {
    var s' := ReadStep(s, c);
    BacklogFrame(s, s', c.scan, 0);
    if |s.local.seen| + 1 == |c.scan| {
      PrefixEmpty(s, c.scan, 0, |c.scan|);
    }
  }

  lemma HandleTakesFront(s: System, c: Config)
    requires Legal(s, c) && s.local.Handling?
    ensures var s' := HandledStep(s, c);
            && InBatch(s, c) == [s'.events[|s.events|]] + InBatch(s', c)
            && s'.events == s.events + [s'.events[|s.events|]] && s'.events[|s.events|].Handled?
            && s'.tiers == s.tiers && s'.local == Acking(s.local.tier, s.local.batch)
            && Backlog(s', c.scan, 0) == Backlog(s, c.scan, 0)
  {
    BacklogFrame(s, HandledStep(s, c), c.scan, 0);
  }

  lemma AckTakesNothing(s: System, c: Config)
    requires Legal(s, c) && s.local.Acking?
    ensures var s' := AckStep(s, c);
            && InBatch(s', c) == InBatch(s, c) && s'.events == s.events
            && Backlog(s', c.scan, 0) == Backlog(s, c.scan, 0)
  {
    BacklogFrame(s, AckStep(s, c), c.scan, 0);
  }

  /** What is handled, in hand and waiting, in this order, never changes in a quiet run. */
  ghost predicate Conserved(s: System, c: Config, a: nat, all: seq<Event>)
    requires Legal(s, c)
  {
    a <= |s.events| && HandledSince(s.events, a) + InBatch(s, c) + Backlog(s, c.scan, 0) == all
  }

  lemma QuietRead(s: System, c: Config, a: nat, all: seq<Event>)
    requires Legal(s, c) && PassedEmpty(s, c) && Distinct(c.scan) && c.scan != [] && c.count >= 1 && s.local.Scanning?
    requires Conserved(s, c, a, all)
    ensures PassedEmpty(ReadStep(s, c), c) && Conserved(ReadStep(s, c), c, a, all)
  {
    var s' := ReadStep(s, c);
    var done := HandledSince(s.events, a);
    if NewIds(Tier(s, c.scan[|s.local.seen|]), c.count) == [] {
      ReadNothing(s, c);
      assert InBatch(s', c) == InBatch(s, c);
    } else {
      ReadTakesFront(s, c);
      ReadEffect(s, c);
      assert InBatch(s, c) == [];
      assert done + [] == done;
      hide ReadStep, InBatch, Backlog, HandledSince, NewIds, Tier;
      HandledGrows(s.events, s'.events[|s.events|], a);
      assert HandledSince(s'.events, a) == done;
      Associative(done, InBatch(s', c), Backlog(s', c.scan, 0));
    }
  }

  lemma ConservedStep(s: System, c: Config, a: nat, all: seq<Event>)
    requires Legal(s, c) && PassedEmpty(s, c) && Distinct(c.scan) && c.scan != [] && c.count >= 1
    requires Conserved(s, c, a, all)
    ensures PassedEmpty(Step(s, Advance, c), c) && Conserved(Step(s, Advance, c), c, a, all)
  {
    var s' := Step(s, Advance, c);
    var done := HandledSince(s.events, a);
    if s.local.Scanning? {
      hide PassedEmpty, Conserved, ReadStep;
      QuietRead(s, c, a, all);
    } else if s.local.Handling? {
      HandleTakesFront(s, c);
      hide HandledStep, InBatch, Backlog, HandledSince;
      HandledGrows(s.events, s'.events[|s.events|], a);
      Associative(done, [s'.events[|s.events|]], InBatch(s', c));
    } else {
      AckTakesNothing(s, c);
      hide AckStep, InBatch, Backlog, HandledSince;
    }
  }

  /** The awaits of a batch in hand, or of the rest of a scan. */
  function LocalWork(s: System, c: Config): int {
    match s.local
    case Scanning(seen) => |c.scan| - |seen|
    case Handling(_, batch) => 2 * |batch| + |c.scan|
    case Acking(_, batch) => 2 * |batch| - 1 + |c.scan|
  }

  ghost function Work(s: System, c: Config): int {
    |Backlog(s, c.scan, 0)| * (|c.scan| + 3) + LocalWork(s, c)
  }

  ghost predicate Drained(s: System, c: Config) {
    s.local.Scanning? && Backlog(s, c.scan, 0) == []
  }

  lemma Times(n: nat, k: nat, w: nat)
    requires k >= 1
    ensures (n + k) * w >= n * w + w + (k - 1) * w && (k - 1) * w >= 0
  {
    assert (n + k) * w == n * w + w + (k - 1) * w;
  }

  lemma ReadWorks(s: System, c: Config)
    requires Legal(s, c) && PassedEmpty(s, c) && Distinct(c.scan) && c.scan != [] && c.count >= 1 && s.local.Scanning?
    ensures var s' := ReadStep(s, c);
            Drained(s', c) || (Work(s', c) <= Work(s, c) - 1 && !Drained(s, c))
  {
    var s' := ReadStep(s, c);
    var ids := NewIds(Tier(s, c.scan[|s.local.seen|]), c.count);
    if ids == [] {
      ReadNothing(s, c);
    } else {
      ReadTakesFront(s, c);
      ReadEffect(s, c);
      var n, n' := |Backlog(s, c.scan, 0)|, |Backlog(s', c.scan, 0)|;
      assert |InBatch(s', c)| == |ids|;
      assert n == n' + |ids|;
      hide ReadStep, Backlog, InBatch, NewIds, Tier;
      Scaled(n', |ids|, |c.scan|);
    }
  }

  lemma Scaled(n: nat, k: nat, w: nat)
    requires k >= 1 && w >= 1
    ensures (n + k) * (w + 3) >= n * (w + 3) + 2 * k + w + 1
  {
    assert (n + k) * (w + 3) == n * (w + 3) + k * (w + 3);
    assert k * (w + 3) == k * w + 3 * k;
    assert k * w >= w by {
      Times(0, k, w);
    }
  }

  lemma WorkStep(s: System, c: Config)
    requires Legal(s, c) && PassedEmpty(s, c) && Distinct(c.scan) && c.scan != [] && c.count >= 1
    ensures var s' := Step(s, Advance, c); Drained(s', c) || (Work(s', c) <= Work(s, c) - 1 && !Drained(s, c))
  {
    if s.local.Scanning? {
      hide Drained, Work, ReadStep;
      ReadWorks(s, c);
    } else if s.local.Handling? {
      HandleTakesFront(s, c);
      hide HandledStep, Backlog;
    } else {
      AckTakesNothing(s, c);
      hide Backlog;
    }
  }

  /** A pending ticket of the j-th tier is one in hand. */
  ghost predicate TierInHand(s: System, j: nat, m: Stream<Ticket>) {
    forall i: nat :: i in m.pending ==> !s.local.Scanning? && s.local.tier == j && i in s.local.batch
  }

  ghost predicate PendingInHand(s: System, c: Config) {
    forall j :: 0 <= j < |c.scan| ==> TierInHand(s, j, Tier(s, c.scan[j]))
  }

  lemma NothingPending(s: System, c: Config)
    requires PendingInHand(s, c) && s.local.Scanning?
    ensures forall j :: 0 <= j < |c.scan| ==> Tier(s, c.scan[j]).pending == map[]
  {
    forall j | 0 <= j < |c.scan| ensures Tier(s, c.scan[j]).pending == map[] {
      assert TierInHand(s, j, Tier(s, c.scan[j]));
      assert forall i: nat :: i !in Tier(s, c.scan[j]).pending;
    }
  }

  lemma PendingStep(s: System, c: Config)
    requires Legal(s, c) && PendingInHand(s, c) && Distinct(c.scan)
    ensures PendingInHand(Step(s, Advance, c), c)
  {
    hide Range;
    var s' := Step(s, Advance, c);
    if s.local.Acking? {
      assert s.local.batch == [s.local.batch[0]] + s.local.batch[1..];
    } else if s.local.Scanning? {
      NothingPending(s, c);
    }
    forall j | 0 <= j < |c.scan| ensures TierInHand(s', j, Tier(s', c.scan[j])) {
      assert TierInHand(s, j, Tier(s, c.scan[j]));
    }
  }

  function Advances(n: nat): seq<Label> {
    seq(n, i => Advance)
  }

  /** The start of a scan with nothing in hand. */
  ghost predicate Idle(s: System, c: Config) {
    Legal(s, c) && s.local == Scanning([]) && PendingInHand(s, c)
  }

  lemma {:induction false} QuietRun(s: System, c: Config, n: nat)
    requires Idle(s, c) && Distinct(c.scan) && c.scan != [] && c.count >= 1
    ensures var s' := Exec(s, Advances(n), c);
            && PassedEmpty(s', c) && PendingInHand(s', c)
            && Conserved(s', c, |s.events|, Backlog(s, c.scan, 0))
            && (Drained(s', c) || Work(s', c) <= Work(s, c) - n)
  {
    hide Step, Work, Drained;
    if n == 0 {
      hide Backlog;
    } else {
      hide PassedEmpty, Conserved, PendingInHand, Legal;
      QuietRun(s, c, n - 1);
      assert Advances(n)[..n - 1] == Advances(n - 1);
      var m := Exec(s, Advances(n - 1), c);
      ConservedStep(m, c, |s.events|, Backlog(s, c.scan, 0));
      PendingStep(m, c);
      WorkStep(m, c);
    }
  }

  /**
   A fixed backlog, any batch size: after enough awaits everything is handled in the order of the
   backlog, tier after tier, and everything is acked.
   */
  lemma DrainsInTierOrder(s: System, c: Config, n: nat)
    requires Idle(s, c) && Distinct(c.scan) && c.scan != [] && c.count >= 1
    requires n >= |Backlog(s, c.scan, 0)| * (|c.scan| + 3) + |c.scan|
    ensures var s' := Exec(s, Advances(n), c);
            && HandledSince(s'.events, |s.events|) == Backlog(s, c.scan, 0)
            && (forall j :: 0 <= j < |c.scan| ==> Tier(s', c.scan[j]).pending == map[])
  {
    var s' := Exec(s, Advances(n), c);
    QuietRun(s, c, n);
    hide Exec;
    assert Work(s, c) == |Backlog(s, c.scan, 0)| * (|c.scan| + 3) + |c.scan|;
    if !Drained(s', c) {
      WorkPositive(s', c);
    }
    assert HandledSince(s'.events, |s.events|) + [] + [] == Backlog(s, c.scan, 0);
    hide Backlog, HandledSince, Work;
    NothingPending(s', c);
  }

  lemma WorkPositive(s: System, c: Config)
    requires Legal(s, c) && c.scan != []
    ensures Work(s, c) >= 1
  {
    assert |Backlog(s, c.scan, 0)| * (|c.scan| + 3) >= 0;
    hide Backlog;
  }
}
