/**
 How long a ticket can be overtaken: between its publish and its claim at most one batch of
 later tiers is handled, whatever is published meanwhile and however often the consumer restarts.
 */
module PriorityInversion {
  import opened Streams
  import opened PriorityProtocol

  /** The tiers scanned after `scan[t]`. */
  predicate LaterTier(c: Config, t: nat, p: Priority) {
    exists j :: t < j < |c.scan| && c.scan[j] == p
  }

  /** Tickets of tiers later than `scan[t]` handled since event `a`. */
  function Overtaking(events: seq<Event>, a: nat, c: Config, t: nat): nat {
    if |events| <= a then 0
    else Overtaking(events[..|events| - 1], a, c, t) +
         if events[|events| - 1].Handled? && LaterTier(c, t, events[|events| - 1].tier) then 1 else 0
  }

  /** How many tickets of later tiers the consumer may still handle before it looks at `scan[t]` again. */
  function Committed(s: System, c: Config, t: nat): nat {
    match s.local
    case Scanning(seen) => if |seen| > t then c.count else 0
    case Handling(u, batch) => if u > t then |batch| else 0
    case Acking(u, batch) => if u > t && batch != [] then |batch| - 1 else 0
  }

  ghost predicate Waiting(s: System, c: Config, t: nat, index: nat)
    requires t < |c.scan|
  {
    Tier(s, c.scan[t]).next <= index < |Tier(s, c.scan[t]).log|
  }

  ghost predicate PublishedAt(s: System, c: Config, t: nat, index: nat, a: nat)
    requires t < |c.scan|
  {
    a < |s.events| && s.events[a] == Published(c.scan[t], index)
  }

  /** A batch never exceeds the count, and a publish event's ticket is in its tier's stream. */
  ghost predicate Bounded(s: System, c: Config) {
    && (s.local.Scanning? || |s.local.batch| <= c.count)
    && (forall a :: 0 <= a < |s.events| && s.events[a].Published? ==>
        s.events[a].index < |Tier(s, s.events[a].tier).log|)
  }

  ghost predicate Inversion(s: System, c: Config, t: nat, index: nat, a: nat)
    requires t < |c.scan|
  {
    PublishedAt(s, c, t, index, a) && Waiting(s, c, t, index) ==>
      Overtaking(s.events, a, c, t) + Committed(s, c, t) <= c.count
  }

  lemma OvertakingGrows(events: seq<Event>, e: Event, a: nat, c: Config, t: nat)
    requires a < |events|
    ensures Overtaking(events + [e], a, c, t) ==
            Overtaking(events, a, c, t) + if e.Handled? && LaterTier(c, t, e.tier) then 1 else 0
  {
    assert (events + [e])[..|events|] == events;
  }

  lemma OvertakingFresh(events: seq<Event>, e: Event, c: Config, t: nat)
    requires !e.Handled?
    ensures Overtaking(events + [e], |events|, c, t) == 0
  {
    assert (events + [e])[..|events|] == events;
  }

  lemma PublishInversion(s: System, ticket: Ticket, c: Config, t: nat, index: nat, a: nat)
    requires Legal(s, c) && Bounded(s, c) && t < |c.scan|
    requires Inversion(s, c, t, index, a)
    ensures Inversion(PublishStep(s, ticket), c, t, index, a)
  {
    var e := Published(ticket.priority, |Tier(s, ticket.priority).log|);
    if a < |s.events| {
      OvertakingGrows(s.events, e, a, c, t);
    } else if a == |s.events| {
      OvertakingFresh(s.events, e, c, t);
    }
  }

  lemma ReadInversion(s: System, c: Config, t: nat, index: nat, a: nat)
    requires Legal(s, c) && Distinct(c.scan) && c.count >= 1 && t < |c.scan| && s.local.Scanning?
    requires Inversion(s, c, t, index, a)
    ensures Inversion(ReadStep(s, c), c, t, index, a)
  {
    var s' := ReadStep(s, c);
    if a < |s.events| && s'.events != s.events {
      OvertakingGrows(s.events, s'.events[|s.events|], a, c, t);
    }
    hide Overtaking;
  }

  lemma HandledInversion(s: System, c: Config, t: nat, index: nat, a: nat)
    requires Legal(s, c) && Distinct(c.scan) && t < |c.scan| && s.local.Handling?
    requires Inversion(s, c, t, index, a)
    ensures Inversion(HandledStep(s, c), c, t, index, a)
  {
    var s' := HandledStep(s, c);
    if a < |s.events| {
      OvertakingGrows(s.events, s'.events[|s.events|], a, c, t);
    }
    hide Overtaking;
  }

  lemma AckInversion(s: System, c: Config, t: nat, index: nat, a: nat)
    requires Legal(s, c) && t < |c.scan| && s.local.Acking?
    requires Inversion(s, c, t, index, a)
    ensures Inversion(AckStep(s, c), c, t, index, a)
  {
    hide Overtaking;
  }

  lemma BoundedStep(s: System, l: Label, c: Config)
    requires Legal(s, c) && Bounded(s, c)
    ensures Bounded(Step(s, l, c), c)
  {
    hide Range, Assign;
  }

  lemma InversionStep(s: System, l: Label, c: Config, t: nat, index: nat, a: nat)
    requires Legal(s, c) && Bounded(s, c) && Distinct(c.scan) && c.count >= 1 && t < |c.scan|
    requires Inversion(s, c, t, index, a)
    ensures Inversion(Step(s, l, c), c, t, index, a)
  {
    hide ReadStep, HandledStep, AckStep, PublishStep, Overtaking, Bounded;
    match l
    case Publish(ticket) => PublishInversion(s, ticket, c, t, index, a);
    case Restart =>
    case Advance =>
      match s.local
      case Scanning(_) => ReadInversion(s, c, t, index, a);
      case Handling(_, _) => HandledInversion(s, c, t, index, a);
      case Acking(_, _) => AckInversion(s, c, t, index, a);
  }

  lemma {:induction false} RunInversion(trace: seq<Label>, c: Config, t: nat, index: nat, a: nat)
    requires Distinct(c.scan) && c.count >= 1 && t < |c.scan|
    ensures var s := Exec(Initial(), trace, c); Bounded(s, c) && Inversion(s, c, t, index, a)
  {
    hide Step;
    if trace == [] {
    } else {
      hide Bounded, Inversion, Legal;
      RunInversion(trace[..|trace| - 1], c, t, index, a);
      var s := Exec(Initial(), trace[..|trace| - 1], c);
      BoundedStep(s, trace[|trace| - 1], c);
      InversionStep(s, trace[|trace| - 1], c, t, index, a);
    }
  }

  /**
   In every run with publishers and restarts: as long as a ticket of tier `scan[t]` waits, and so up
   to the moment it is claimed, at most `count` tickets of later tiers have been handled since it
   was published.
   */
  lemma OvertakenByOneBatch(trace: seq<Label>, c: Config, t: nat, index: nat, a: nat)
    requires Distinct(c.scan) && c.count >= 1 && t < |c.scan|
    requires var s := Exec(Initial(), trace, c); PublishedAt(s, c, t, index, a) && Waiting(s, c, t, index)
    ensures Overtaking(Exec(Initial(), trace, c).events, a, c, t) <= c.count
  {
    RunInversion(trace, c, t, index, a);
    hide Exec, Overtaking;
  }

  /** The scan has passed the tiers it found empty: nothing was left unclaimed in them at that time. */
  ghost predicate Passed(s: System, c: Config) {
    s.local.Scanning? ==>
      forall j :: 0 <= j < |s.local.seen| && j < |c.scan| ==>
        Tier(s, c.scan[j]).next == s.local.seen[j] <= |Tier(s, c.scan[j]).log|
  }

  lemma PassedStep(s: System, l: Label, c: Config)
    requires Legal(s, c) && Passed(s, c) && c.count >= 1
    ensures Passed(Step(s, l, c), c)
  {
  }

  lemma {:induction false} RunPassed(trace: seq<Label>, c: Config)
    requires c.count >= 1
    ensures Passed(Exec(Initial(), trace, c), c)
  {
    hide Step;
    if trace == [] {
    } else {
      hide Passed, Legal;
      RunPassed(trace[..|trace| - 1], c);
      PassedStep(Exec(Initial(), trace[..|trace| - 1], c), trace[|trace| - 1], c);
    }
  }

  /**
   Exactly when the strict order is kept: a consumer about to read tier `scan[t]` leaves a ticket
   of an earlier tier waiting if and only if that tier's stream grew after this scan found it empty.
   */
  lemma EarlierTierWaits(trace: seq<Label>, c: Config, j: nat)
    requires c.count >= 1
    requires var s := Exec(Initial(), trace, c); s.local.Scanning? && j < |s.local.seen|
    ensures var s := Exec(Initial(), trace, c);
            && j < |c.scan|
            && (Waiting(s, c, j, Tier(s, c.scan[j]).next) <==> |Tier(s, c.scan[j]).log| > s.local.seen[j])
  {
    RunPassed(trace, c);
    hide Exec;
  }

  /** A publish between two reads of one scan is overtaken: a low ticket is claimed while a high one waits. */
  lemma PublishInsideScanIsOvertaken(high: Ticket, low: Ticket, c: Config)
    requires c.scan == [High, Low] && c.count >= 1 && high.priority == High && low.priority == Low
    ensures var s := Exec(Initial(), [Publish(low), Advance, Publish(high), Advance], c);
            s.local == Handling(1, [0]) && Waiting(s, c, 0, 0)
  {
    var s1 := PublishStep(Initial(), low);
    var s2 := Step(s1, Advance, c);
    assert Tier(s1, Low).log == [low] && Tier(s1, High).log == [];
    assert s2.local == Scanning([0]) && s2.tiers == s1.tiers;
    var s3 := PublishStep(s2, high);
    var s4 := Step(s3, Advance, c);
    assert NewIds(Tier(s3, Low), c.count) == [0];
    assert s4.local == Handling(1, [0]) && Waiting(s4, c, 0, 0);
    hide Waiting;
    Exec4(Initial(), Publish(low), Advance, Publish(high), Advance, c);
  }

  lemma Exec4(s: System, a: Label, b: Label, d: Label, e: Label, c: Config)
    requires Legal(s, c)
    ensures Exec(s, [a, b, d, e], c) == Step(Step(Step(Step(s, a, c), b, c), d, c), e, c)
  {
    hide Step, Legal;
    var trace := [a, b, d, e];
    assert trace[..3] == [a, b, d] && [a, b, d][..2] == [a, b] && [a, b][..1] == [a] && [a][..0] == [];
    assert Exec(s, [a], c) == Step(Exec(s, [], c), a, c);
    assert Exec(s, [a, b], c) == Step(Exec(s, [a], c), b, c);
    assert Exec(s, [a, b, d], c) == Step(Exec(s, [a, b], c), d, c);
  }
}
