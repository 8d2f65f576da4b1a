/** Draining a backlog handles it in the order of a stable sort by tier, for every batch size. */
module PrioritySort {
  import opened Streams
  import opened PriorityProtocol
  import opened PriorityDrain

  /** The tickets of one tier, in their order. */
  function OfTier(tickets: seq<Ticket>, p: Priority): seq<Ticket> {
    if tickets == [] then []
    else OfTier(tickets[..|tickets| - 1], p) +
         if tickets[|tickets| - 1].priority == p then [tickets[|tickets| - 1]] else []
  }

  function Arranged(tickets: seq<Ticket>, scan: seq<Priority>): seq<Ticket> {
    if scan == [] then [] else OfTier(tickets, scan[0]) + Arranged(tickets, scan[1..])
  }

  function Rank(scan: seq<Priority>, p: Priority): nat {
    if scan == [] || scan[0] == p then 0 else 1 + Rank(scan[1..], p)
  }

  /** Sorted by tier, and per tier exactly the given tickets in their given order. */
  ghost predicate StablySorted(r: seq<Ticket>, tickets: seq<Ticket>, scan: seq<Priority>) {
    && Ranked(r, scan)
    && (forall p :: OfTier(r, p) == if p in scan then OfTier(tickets, p) else [])
  }

  lemma {:induction false} OfTierSplit(a: seq<Ticket>, b: seq<Ticket>, p: Priority)
    ensures OfTier(a + b, p) == OfTier(a, p) + OfTier(b, p)
    decreases |b|
  {
    if b == [] {
      assert a + b == a;
    } else {
      OfTierSplit(a, b[..|b| - 1], p);
      assert (a + b)[..|a + b| - 1] == a + b[..|b| - 1];
    }
  }

  lemma {:induction false} OfTierIs(tickets: seq<Ticket>, p: Priority)
    ensures forall a :: 0 <= a < |OfTier(tickets, p)| ==> OfTier(tickets, p)[a].priority == p
  {
    if tickets == [] {
    } else {
      OfTierIs(tickets[..|tickets| - 1], p);
    }
  }

  lemma {:induction false} OfTierAgain(r: seq<Ticket>, p: Priority, q: Priority)
    requires forall a :: 0 <= a < |r| ==> r[a].priority == p
    ensures OfTier(r, q) == if p == q then r else []
  {
    if r == [] {
    } else {
      OfTierAgain(r[..|r| - 1], p, q);
    }
  }

  lemma {:induction false} ArrangedTier(tickets: seq<Ticket>, scan: seq<Priority>, p: Priority)
    requires Distinct(scan)
    ensures OfTier(Arranged(tickets, scan), p) == if p in scan then OfTier(tickets, p) else []
  {
    if scan == [] {
    } else {
      ArrangedTier(tickets, scan[1..], p);
      OfTierIs(tickets, scan[0]);
      OfTierAgain(OfTier(tickets, scan[0]), scan[0], p);
      OfTierSplit(OfTier(tickets, scan[0]), Arranged(tickets, scan[1..]), p);
      assert p in scan <==> p == scan[0] || p in scan[1..];
      hide OfTier;
    }
  }

  lemma {:induction false} ArrangedInScan(tickets: seq<Ticket>, scan: seq<Priority>)
    ensures forall a :: 0 <= a < |Arranged(tickets, scan)| ==> Arranged(tickets, scan)[a].priority in scan
  {
    hide OfTier;
    if scan == [] {
    } else {
      ArrangedInScan(tickets, scan[1..]);
      OfTierIs(tickets, scan[0]);
    }
  }

  ghost predicate Ranked(r: seq<Ticket>, scan: seq<Priority>) {
    forall a, b :: 0 <= a < b < |r| ==> Rank(scan, r[a].priority) <= Rank(scan, r[b].priority)
  }

  /** Tickets of the first tier in front of ranked tickets of the others are ranked. */
  lemma RankedJoin(first: seq<Ticket>, rest: seq<Ticket>, scan: seq<Priority>)
    requires scan != [] && Distinct(scan) && Ranked(rest, scan[1..])
    requires forall a :: 0 <= a < |first| ==> first[a].priority == scan[0]
    requires forall a :: 0 <= a < |rest| ==> rest[a].priority in scan[1..]
    ensures Ranked(first + rest, scan)
  {
    assert forall a :: 0 <= a < |rest| ==> rest[a].priority != scan[0];
    assert forall a :: 0 <= a < |rest| ==> Rank(scan, rest[a].priority) == 1 + Rank(scan[1..], rest[a].priority);
    assert forall a :: 0 <= a < |first| ==> Rank(scan, first[a].priority) == 0;
    hide Rank;
  }

  lemma {:induction false} ArrangedIsSorted(tickets: seq<Ticket>, scan: seq<Priority>)
    requires Distinct(scan)
    ensures Ranked(Arranged(tickets, scan), scan)
  {
    hide OfTier, Ranked;
    if scan == [] {
      assert Ranked([], scan) by { RankedEmpty(scan); }
    } else {
      ArrangedIsSorted(tickets, scan[1..]);
      OfTierIs(tickets, scan[0]);
      ArrangedInScan(tickets, scan[1..]);
      RankedJoin(OfTier(tickets, scan[0]), Arranged(tickets, scan[1..]), scan);
    }
  }

  lemma RankedEmpty(scan: seq<Priority>)
    ensures Ranked([], scan)
  {
  }

  function Publishes(tickets: seq<Ticket>): seq<Label> {
    seq(|tickets|, i requires 0 <= i < |tickets| => Publish(tickets[i]))
  }

  /** Publishing routes every ticket to its own tier and nothing else happens. */
  lemma {:induction false} PublishingRoutes(tickets: seq<Ticket>, c: Config)
    ensures var s := Exec(Initial(), Publishes(tickets), c);
            && s.local == Scanning([])
            && (forall p :: Tier(s, p) == Stream(OfTier(tickets, p), 0, map[]))
  {
    if tickets == [] {
    } else {
      var front := tickets[..|tickets| - 1];
      PublishingRoutes(front, c);
      assert Publishes(tickets)[..|tickets| - 1] == Publishes(front);
    }
  }

  ghost predicate InLogs(s: System, places: seq<Event>) {
    forall i :: 0 <= i < |places| ==> places[i].Handled? && places[i].index < |Tier(s, places[i].tier).log|
  }

  /** The tickets at the places of a list of handling events. */
  function TicketsAt(s: System, places: seq<Event>): seq<Ticket>
    requires InLogs(s, places)
  {
    seq(|places|, i requires 0 <= i < |places| => Tier(s, places[i].tier).log[places[i].index])
  }

  lemma TicketsAtSplit(s: System, a: seq<Event>, b: seq<Event>)
    requires InLogs(s, a) && InLogs(s, b)
    ensures InLogs(s, a + b) && TicketsAt(s, a + b) == TicketsAt(s, a) + TicketsAt(s, b)
  {
    hide Tier;
  }

  lemma TierTickets(s: System, p: Priority)
    requires Tier(s, p).next == 0
    ensures var r := TierBacklog(p, 0, |Tier(s, p).log|); InLogs(s, r) && TicketsAt(s, r) == Tier(s, p).log
  {
    hide Tier;
  }

  lemma {:induction false} BacklogTickets(s: System, tickets: seq<Ticket>, scan: seq<Priority>, j: nat)
    requires j <= |scan| && forall p :: Tier(s, p) == Stream(OfTier(tickets, p), 0, map[])
    ensures InLogs(s, Backlog(s, scan, j)) && TicketsAt(s, Backlog(s, scan, j)) == Arranged(tickets, scan[j..])
    decreases |scan| - j
  {
    hide Tier, OfTier, TierBacklog;
    if j == |scan| {
    } else {
      BacklogTickets(s, tickets, scan, j + 1);
      TierTickets(s, scan[j]);
      assert scan[j..][1..] == scan[j + 1..];
      var first := TierBacklog(scan[j], 0, |Tier(s, scan[j]).log|);
      assert Backlog(s, scan, j) == first + Backlog(s, scan, j + 1);
      hide TicketsAt, InLogs, Backlog;
      TicketsAtSplit(s, first, Backlog(s, scan, j + 1));
    }
  }

  /**
   For every published backlog, scan order and batch size: the consumer handles the tickets in the
   stable sort of the publish order by tier, and acks every one.
   */
  lemma StrictDrainIsAStableSort(tickets: seq<Ticket>, c: Config, n: nat)
    requires Distinct(c.scan) && c.scan != [] && c.count >= 1
    requires n >= |Arranged(tickets, c.scan)| * (|c.scan| + 3) + |c.scan|
    ensures var s := Exec(Initial(), Publishes(tickets), c);
            var s' := Exec(s, Advances(n), c);
            var handled := HandledSince(s'.events, |s.events|);
            && InLogs(s, handled) && TicketsAt(s, handled) == Arranged(tickets, c.scan)
            && StablySorted(TicketsAt(s, handled), tickets, c.scan)
            && (forall j :: 0 <= j < |c.scan| ==> Tier(s', c.scan[j]).pending == map[])
  {
    var s := Exec(Initial(), Publishes(tickets), c);
    PublishingRoutes(tickets, c);
    hide Exec, Step;
    BacklogTickets(s, tickets, c.scan, 0);
    assert c.scan[0..] == c.scan;
    hide Backlog, Arranged, OfTier;
    assert |TicketsAt(s, Backlog(s, c.scan, 0))| == |Backlog(s, c.scan, 0)|;
    DrainsInTierOrder(s, c, n);
    forall p ensures OfTier(Arranged(tickets, c.scan), p) == if p in c.scan then OfTier(tickets, p) else [] {
      ArrangedTier(tickets, c.scan, p);
    }
    ArrangedIsSorted(tickets, c.scan);
  }
}
