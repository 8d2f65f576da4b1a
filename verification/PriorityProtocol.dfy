/**
 The strict-priority consumer one await at a time, with publishers acting between any two of
 its awaits and restarts at any moment. Each tier is its own stream; the scan goes through the
 tiers in order, handles the first batch it finds and starts over.
 */
module PriorityProtocol {
  import opened Streams

  datatype Priority = High | Normal | Low

  datatype Ticket = Ticket(ticketId: string, subject: string, priority: Priority, customerId: string)

  /** What happened, in order: a ticket's place is its tier and its position in that tier's stream. */
  datatype Event =
    | Published(tier: Priority, index: nat)
    | Claimed(tier: Priority, from: nat, to: nat)
    | Handled(tier: Priority, index: nat)

  /** `seen[j]` is how long the j-th tier's stream was when this scan found it empty. */
  datatype Local =
    | Scanning(seen: seq<nat>)
    | Handling(tier: nat, batch: seq<nat>)
    | Acking(tier: nat, batch: seq<nat>)

  datatype System = System(tiers: map<Priority, Stream<Ticket>>, local: Local, events: seq<Event>)

  datatype Config = Config(consumer: string, scan: seq<Priority>, count: nat)

  datatype Label = Publish(ticket: Ticket) | Restart | Advance

  ghost predicate Distinct(scan: seq<Priority>) {
    forall a, b :: 0 <= a < b < |scan| ==> scan[a] != scan[b]
  }

  function Initial(): System {
    System(map[], Scanning([]), [])
  }

  function Tier(s: System, p: Priority): Stream<Ticket> {
    if p in s.tiers then s.tiers[p] else Stream([], 0, map[])
  }

  function SetTier(s: System, p: Priority, m: Stream<Ticket>): System {
    s.(tiers := s.tiers[p := m])
  }

  function Record(s: System, e: Event): System {
    s.(events := s.events + [e])
  }

  ghost predicate Legal(s: System, c: Config) {
    && (forall p :: p in s.tiers ==> WellFormed(s.tiers[p]))
    && match s.local
       case Scanning(seen) => |seen| < |c.scan| || |seen| == |c.scan| == 0
       case Handling(t, batch) => t < |c.scan| && batch != []
       case Acking(t, batch) => t < |c.scan| && batch != []
  }

  function ReadStep(s: System, c: Config): System
    requires Legal(s, c) && s.local.Scanning? && c.scan != []
  {
    var t := |s.local.seen|;
    var p := c.scan[t];
    var m := Tier(s, p);
    var ids := NewIds(m, c.count);
    if ids == [] then
      s.(local := Scanning(if t + 1 == |c.scan| then [] else s.local.seen + [|m.log|]))
    else
      var claimed := SetTier(s, p, XReadNew(m, c.consumer, c.count));
      Record(claimed, Claimed(p, m.next, m.next + |ids|)).(local := Handling(t, ids))
  }

  function HandledStep(s: System, c: Config): System
    requires Legal(s, c) && s.local.Handling?
  {
    Record(s, Handled(c.scan[s.local.tier], s.local.batch[0])).(local := Acking(s.local.tier, s.local.batch))
  }

  function AckStep(s: System, c: Config): System
    requires Legal(s, c) && s.local.Acking?
  {
    var p := c.scan[s.local.tier];
    var rest := s.local.batch[1..];
    var acked := SetTier(s, p, XAck(Tier(s, p), s.local.batch[0]));
    acked.(local := if rest == [] then Scanning([]) else Handling(s.local.tier, rest))
  }

  function PublishStep(s: System, ticket: Ticket): System {
    var p := ticket.priority;
    Record(SetTier(s, p, XAdd(Tier(s, p), ticket)), Published(p, |Tier(s, p).log|))
  }

  function Step(s: System, l: Label, c: Config): (s': System)
    requires Legal(s, c)
    ensures Legal(s', c)
  {
    match l
    case Publish(ticket) => PublishStep(s, ticket)
    case Restart => s.(local := Scanning([]))
    case Advance =>
      match s.local
      case Scanning(_) => if c.scan == [] then s else ReadStep(s, c)
      case Handling(_, _) => HandledStep(s, c)
      case Acking(_, _) => AckStep(s, c)
  }

  function Exec(s: System, trace: seq<Label>, c: Config): (s': System)
    requires Legal(s, c)
    ensures Legal(s', c)
  {
    if trace == [] then s
    else Step(Exec(s, trace[..|trace| - 1], c), trace[|trace| - 1], c)
  }

  lemma {:induction false} ExecAppend(s: System, t: seq<Label>, t': seq<Label>, c: Config)
    requires Legal(s, c)
    ensures Exec(s, t + t', c) == Exec(Exec(s, t, c), t', c)
    decreases |t'|
  {
    hide Step, Legal;
    if t' == [] {
      assert t + t' == t;
    } else {
      assert (t + t')[..|t + t'| - 1] == t + t'[..|t'| - 1];
      ExecAppend(s, t, t'[..|t'| - 1], c);
    }
  }
}
