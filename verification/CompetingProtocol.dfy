/**
 Competing consumers one await at a time: any number of consumers share a group, reclaim each
 other's messages, crash, restart and ack late, in any order. Which pending messages count as
 stale is left to the label, so a reclaim may take any of them.
 */
module CompetingProtocol {
  import opened Streams

  datatype Task = Task(taskId: string, payload: string)

  /** One delivery of an entry to a consumer. Its position in the history is its ticket. */
  datatype Delivery = Delivery(consumer: string, id: nat, reclaimed: bool)

  /** The await a consumer is suspended in; `batch` is the tickets it still has to work through. */
  datatype Local =
    | Down
    | AtReclaim
    | AtRead
    | Handling(batch: seq<nat>, fromReclaim: bool)
    | Acking(batch: seq<nat>, fromReclaim: bool)

  /** Deliveries made, handler calls started and completed, by ticket, and who acked. */
  datatype History = History(deliveries: seq<Delivery>, calls: seq<nat>, completed: set<nat>, acks: seq<string>)

  datatype System = System(main: Stream<Task>, locals: map<string, Local>, acked: set<nat>, history: History)

  datatype Label =
    | Publish(task: Task)
    | Start(consumer: string)
    | Stop(consumer: string)
    | Crash(consumer: string)
    | Reclaim(consumer: string, ids: seq<nat>)
    | Advance(consumer: string)

  function Initial(): System {
    System(Stream([], 0, map[]), map[], {}, History([], [], {}, []))
  }

  function LocalOf(s: System, c: string): Local {
    if c in s.locals then s.locals[c] else Down
  }

  function Put(s: System, c: string, u: Local): System {
    s.(locals := s.locals[c := u])
  }

  /** A consumer's tickets are among the first `n` issued. */
  ghost predicate InHand(u: Local, n: nat) {
    u.Handling? || u.Acking? ==> u.batch != [] && forall k :: 0 <= k < |u.batch| ==> u.batch[k] < n
  }

  ghost predicate Issued(s: System) {
    s.main.next <= |s.main.log| && forall c :: c in s.locals ==> InHand(s.locals[c], |s.history.deliveries|)
  }

  /** Take up the next ticket: its handler call starts at once. */
  function Begin(s: System, c: string, batch: seq<nat>, fromReclaim: bool): System {
    if batch == [] then Put(s, c, if fromReclaim then AtRead else AtReclaim)
    else Put(s.(history := s.history.(calls := s.history.calls + [batch[0]])), c, Handling(batch, fromReclaim))
  }

  function Tickets(c: string, ids: seq<nat>, reclaimed: bool): (ds: seq<Delivery>)
    ensures |ds| == |ids| && forall k :: 0 <= k < |ds| ==> ds[k] == Delivery(c, ids[k], reclaimed)
  {
    seq(|ids|, k requires 0 <= k < |ids| => Delivery(c, ids[k], reclaimed))
  }

  function Deliver(s: System, c: string, ids: seq<nat>, reclaimed: bool): (s': System)
    requires Issued(s)
    ensures Issued(s')
  {
    var n := |s.history.deliveries|;
    var s' := s.(history := s.history.(deliveries := s.history.deliveries + Tickets(c, ids, reclaimed)));
    Begin(s', c, Range(n, n + |ids|), reclaimed)
  }

  /** XAUTOCLAIM scans in id order and returns at most `count` pending entries. */
  predicate Claimable(s: System, ids: seq<nat>, count: nat) {
    && |ids| <= count
    && (forall a, b :: 0 <= a < b < |ids| ==> ids[a] < ids[b])
    && (forall k :: 0 <= k < |ids| ==> ids[k] in s.main.pending)
  }

  function ReclaimStep(s: System, c: string, ids: seq<nat>): System
    requires Issued(s)
  {
    Deliver(s.(main := XClaim(s.main, c, ids)), c, ids, true)
  }

  function ReadStep(s: System, c: string, count: nat): System
    requires Issued(s)
  {
    Deliver(s.(main := XReadNew(s.main, c, count)), c, NewIds(s.main, count), false)
  }

  function HandledStep(s: System, c: string, u: Local): System
    requires u.Handling? && u.batch != []
  {
    Put(s.(history := s.history.(completed := s.history.completed + {u.batch[0]})), c, Acking(u.batch, u.fromReclaim))
  }

  function AckStep(s: System, c: string, u: Local): System
    requires u.Acking? && u.batch != [] && u.batch[0] < |s.history.deliveries|
  {
    var id := s.history.deliveries[u.batch[0]].id;
    Begin(s.(main := XAck(s.main, id), acked := s.acked + {id}, history := s.history.(acks := s.history.acks + [c])),
        c, u.batch[1..], u.fromReclaim)
  }

  /** One step; a label that is not enabled changes nothing. */
  function Step(s: System, l: Label, count: nat): (s': System)
    requires Issued(s)
    ensures Issued(s')
  {
    match l
    case Publish(t) => s.(main := XAdd(s.main, t))
    case Start(c) => if LocalOf(s, c).Down? then Put(s, c, AtReclaim) else s
    case Stop(c) => if LocalOf(s, c).AtReclaim? then Put(s, c, Down) else s
    case Crash(c) => Put(s, c, Down)
    case Reclaim(c, ids) =>
      if LocalOf(s, c).AtReclaim? && Claimable(s, ids, count) then ReclaimStep(s, c, ids) else s
    case Advance(c) =>
      match LocalOf(s, c)
      case Down => s
      case AtReclaim => s
      case AtRead => ReadStep(s, c, count)
      case Handling(_, _) => HandledStep(s, c, LocalOf(s, c))
      case Acking(_, _) => AckStep(s, c, LocalOf(s, c))
  }

  function Exec(s: System, trace: seq<Label>, count: nat): (s': System)
    requires Issued(s)
    ensures Issued(s')
  {
    if trace == [] then s
    else Step(Exec(s, trace[..|trace| - 1], count), trace[|trace| - 1], count)
  }

  lemma {:induction false} ExecAppend(s: System, t: seq<Label>, t': seq<Label>, count: nat)
    requires Issued(s)
    ensures Exec(s, t + t', count) == Exec(Exec(s, t, count), t', count)
    decreases |t'|
  {
    hide Step, Issued;
    if t' == [] {
      assert t + t' == t;
    } else {
      assert (t + t')[..|t + t'| - 1] == t + t'[..|t'| - 1];
      ExecAppend(s, t, t'[..|t'| - 1], count);
    }
  }
}
