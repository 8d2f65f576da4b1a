/**
 The consumer loop as the program runs it, while other consumers, publishers and crashes act
 between any two of its awaits. The broker holds the group together with where every other
 consumer stands; its state is a state of the protocol at all times, so every guarantee about
 protocol runs is one about this loop. Beside them stands what the loop itself gets done: what it
 takes over, what it reads, and that all of it is handled and acked.
 */
module CompetingConsumer {
  import opened Streams
  import opened CompetingProtocol

  function Actor(l: Label): string {
    match l
    case Publish(_) => ""
    case Start(c) => c
    case Stop(c) => c
    case Crash(c) => c
    case Reclaim(c, _) => c
    case Advance(c) => c
  }

  /** Labels of everyone but `c`. */
  ghost predicate Foreign(labels: seq<Label>, c: string) {
    forall j :: 0 <= j < |labels| ==> labels[j].Publish? || Actor(labels[j]) != c
  }

  function AcksOf(s: System, c: string): nat {
    multiset(s.history.acks)[c]
  }

  /** What was delivered, completed or acked stays so. */
  ghost predicate Grew(s: System, s': System) {
    && s.history.deliveries <= s'.history.deliveries
    && s.history.completed <= s'.history.completed
    && s.acked <= s'.acked
  }

  /** The parts of the state that belong to `c` are left alone. */
  ghost predicate Untouched(s: System, s': System, c: string) {
    LocalOf(s', c) == LocalOf(s, c) && AcksOf(s', c) == AcksOf(s, c) && Grew(s, s')
  }

  lemma GrowsByStep(s: System, l: Label, count: nat)
    requires Issued(s)
    ensures Grew(s, Step(s, l, count))
  {
    hide Assign, Range;
  }

  lemma ForeignDeliver(s: System, m: Stream<Task>, d: string, ids: seq<nat>, reclaimed: bool, c: string)
    requires Issued(s) && m.next <= |m.log| && c != d
    ensures Untouched(s, Deliver(s.(main := m), d, ids, reclaimed), c)
  {
    hide Range;
  }

  lemma ForeignAck(s: System, d: string, c: string)
    requires Issued(s) && LocalOf(s, d).Acking? && c != d
    ensures Untouched(s, AckStep(s, d, LocalOf(s, d)), c)
  {
  }

  lemma ForeignStep(s: System, l: Label, count: nat, c: string)
    requires Issued(s) && (l.Publish? || Actor(l) != c)
    ensures Untouched(s, Step(s, l, count), c)
  {
    if l.Reclaim? && Claimable(s, l.ids, count) {
      ForeignDeliver(s, XClaim(s.main, l.consumer, l.ids), l.consumer, l.ids, true, c);
    } else if l.Advance? && LocalOf(s, l.consumer).AtRead? {
      ForeignDeliver(s, XReadNew(s.main, l.consumer, count), l.consumer, NewIds(s.main, count), false, c);
    } else if l.Advance? && LocalOf(s, l.consumer).Acking? {
      ForeignAck(s, l.consumer, c);
    }
    hide Assign, Range, Deliver, AckStep, Issued;
  }

  /** Whatever the others do, a suspended consumer resumes where it was, its tickets unchanged. */
  lemma {:induction false} ForeignRun(s: System, labels: seq<Label>, count: nat, c: string)
    requires Issued(s) && Foreign(labels, c)
    ensures Untouched(s, Exec(s, labels, count), c)
    decreases |labels|
  {
    hide Step, LocalOf, AcksOf, Issued;
    if labels == [] {
    } else {
      var front := labels[..|labels| - 1];
      var m := Exec(s, front, count);
      ForeignRun(s, front, count, c);
      ForeignStep(m, labels[|labels| - 1], count, c);
    }
  }

  /** What everyone else does before the k-th await of this consumer completes. */
  type Schedule = nat -> seq<Label>

  /** The whole history: before each of the labels `own` what the others did. */
  ghost function Woven(others: Schedule, own: seq<Label>): seq<Label> {
    if own == [] then []
    else Woven(others, own[..|own| - 1]) + others(|own| - 1) + [own[|own| - 1]]
  }

  /** What the k-th await finds. */
  ghost function MetAt(others: Schedule, own: seq<Label>, k: nat, count: nat): (s: System)
    requires k <= |own|
    ensures Issued(s)
  {
    Exec(Initial(), Woven(others, own[..k]) + others(k), count)
  }

  /** The oldest pending entries among `idle`, fewer than `count` only when there are no more. */
  ghost predicate TakesOver(main: Stream<Task>, idle: set<nat>, ids: seq<nat>, count: nat) {
    && |ids| <= count
    && (forall a, b :: 0 <= a < b < |ids| ==> ids[a] < ids[b])
    && (forall j :: 0 <= j < |ids| ==> ids[j] in main.pending && ids[j] in idle)
    && (forall i :: i < main.next && i in main.pending && i in idle && i !in ids ==>
          |ids| == count && forall j :: 0 <= j < |ids| ==> ids[j] < i)
  }

  /** The oldest undelivered entries, fewer than `count` only when there are no more. */
  ghost predicate ReadsNew(main: Stream<Task>, ids: seq<nat>, count: nat) {
    && main.next + |ids| <= |main.log|
    && (|ids| == count || (|ids| < count && main.next + |ids| == |main.log|))
    && forall j :: 0 <= j < |ids| ==> ids[j] == main.next + j
  }

  /** From `met` on, `c` holds one ticket for each of `ids`, in order, and owns those entries. */
  ghost predicate HandsOut(met: System, s: System, c: string, batch: seq<nat>, ids: seq<nat>, reclaimed: bool) {
    && s.main.log == met.main.log && s.acked == met.acked
    && s.main.next == met.main.next + (if reclaimed then 0 else |ids|)
    && Owned(met.main.pending, s.main.pending, c, ids)
    && Issues(met.history.deliveries, s.history.deliveries, c, batch, ids, reclaimed)
  }

  ghost predicate Owned(before: map<nat, string>, after: map<nat, string>, c: string, ids: seq<nat>) {
    && (forall i :: i in after <==> i in before || i in ids)
    && (forall i :: i in after ==> after[i] == if i in ids then c else before[i])
  }

  ghost predicate Issues(before: seq<Delivery>, after: seq<Delivery>, c: string, batch: seq<nat>, ids: seq<nat>,
                         reclaimed: bool) {
    && before <= after && |batch| == |ids| && |after| == |before| + |ids|
    && forall j :: 0 <= j < |ids| ==> batch[j] == |before| + j && after[|before| + j] == Delivery(c, ids[j], reclaimed)
  }

  /** Each of the tickets has a completed call and its entry is acked. */
  ghost predicate Finished(s: System, tickets: seq<nat>) {
    forall j :: 0 <= j < |tickets| ==>
      && tickets[j] < |s.history.deliveries| && tickets[j] in s.history.completed
      && s.history.deliveries[tickets[j]].id in s.acked
  }

  class CompetingConsumersBroker {
    var sys: System
    var clock: nat
    const count: nat
    const others: Schedule
    /** What has been idle for too long at the k-th await. */
    const idle: nat -> set<nat>
    /** The awaits completed so far. */
    ghost var own: seq<Label>

    ghost predicate Valid()
      reads this
    {
      Issued(sys) && clock == |own| && sys == Exec(Initial(), Woven(others, own), count)
    }

    ghost function Met(): (s: System)
      reads this
      requires Valid()
      ensures Issued(s)
    {
      MetAt(others, own, clock, count)
    }

    constructor (count: nat, others: Schedule, idle: nat -> set<nat>)
      ensures Valid() && sys == Initial() && own == []
      ensures this.count == count && this.others == others && this.idle == idle
    {
      sys, clock, own := Initial(), 0, [];
      this.count, this.others, this.idle := count, others, idle;
    }

    /** One await of `l`'s consumer: the others act first, then `l` takes effect. */
    method Await(l: Label)
      requires Valid() && Foreign(others(clock), Actor(l))
      modifies this
      ensures Valid() && clock == old(clock) + 1 && own == old(own) + [l]
      ensures sys == Step(old(Met()), l, count) && Grew(old(sys), sys)
      ensures Untouched(old(sys), old(Met()), Actor(l)) && Grew(old(Met()), sys)
    {
      hide Step, Issued, LocalOf, AcksOf, Exec, Woven, Untouched, Grew;
      MetIs();
      ForeignRun(sys, others(clock), count, Actor(l));
      ghost var before, met := sys, Met();
      NextAwait(others, own, l, count);
      GrowsByStep(met, l, count);
      GrewFurtherUntouched(before, met, Step(met, l, count), Actor(l));
      sys := Step(Exec(sys, others(clock), count), l, count);
      own := own + [l];
      clock := clock + 1;
    }

    method Join(c: string)
      requires Valid() && Foreign(others(clock), c) && LocalOf(sys, c).Down?
      modifies this
      ensures Valid() && own == old(own) + [Start(c)] && Grew(old(sys), sys)
      ensures LocalOf(old(Met()), c).Down?
      ensures LocalOf(sys, c) == AtReclaim && AcksOf(sys, c) == old(AcksOf(sys, c))
    {
      hide Issued, Exec, Grew, MetAt;
      Await(Start(c));
    }

    /** Others act, then the server hands over the oldest entries that are idle and still pending. */
    method ReclaimStale(c: string) returns (batch: seq<nat>, ghost ids: seq<nat>)
      requires Valid() && Foreign(others(clock), c) && LocalOf(sys, c).AtReclaim?
      modifies this
      ensures Valid() && own == old(own) + [Reclaim(c, ids)] && Grew(old(sys), sys)
      ensures LocalOf(old(Met()), c).AtReclaim?
      ensures LocalOf(sys, c) == Working(batch, true) && AcksOf(sys, c) == old(AcksOf(sys, c))
      ensures TakesOver(old(Met()).main, idle(old(clock)), ids, count)
      ensures HandsOut(old(Met()), sys, c, batch, ids, true)
    {
      hide Step, Working, Issued, Exec, Grew, HandsOut, TakesOver, MetAt;
      var met := Exec(sys, others(clock), count);
      MetIs();
      ids := IdleIds(met.main, idle(clock), count);
      IdleAreTaken(met.main, idle(clock), count);
      Claims(met, idle(clock), count);
      var taken := IdleIds(met.main, idle(clock), count);
      Await(Reclaim(c, taken));
      ReclaimHandsOut(met, c, taken, count);
      batch := Range(|met.history.deliveries|, |met.history.deliveries| + |taken|);
    }

    lemma MetIs()
      requires Valid()
      ensures Met() == Exec(sys, others(clock), count)
    {
      assert own[..clock] == own;
      ExecAppend(Initial(), Woven(others, own), others(clock), count);
    }

    method ReadNew(c: string) returns (batch: seq<nat>, ghost ids: seq<nat>)
      requires Valid() && Foreign(others(clock), c) && LocalOf(sys, c).AtRead?
      modifies this
      ensures Valid() && own == old(own) + [Advance(c)] && Grew(old(sys), sys)
      ensures LocalOf(old(Met()), c).AtRead?
      ensures LocalOf(sys, c) == Working(batch, false) && AcksOf(sys, c) == old(AcksOf(sys, c))
      ensures ReadsNew(old(Met()).main, ids, count)
      ensures HandsOut(old(Met()), sys, c, batch, ids, false)
    {
      hide Step, Working, Issued, Exec, Grew, HandsOut, ReadsNew, MetAt;
      var met := Exec(sys, others(clock), count);
      MetIs();
      NewAreRead(met, count);
      ids := NewIds(met.main, count);
      Await(Advance(c));
      ReadHandsOut(met, c, count);
      batch := Range(|met.history.deliveries|, |met.history.deliveries| + |NewIds(met.main, count)|);
    }

    /** The handler call of the first ticket in hand completes. */
    method Handled(c: string, ghost batch: seq<nat>, ghost fromReclaim: bool)
      requires Valid() && Foreign(others(clock), c) && LocalOf(sys, c) == Handling(batch, fromReclaim)
      modifies this
      ensures Valid() && own == old(own) + [Advance(c)] && Grew(old(sys), sys)
      ensures LocalOf(old(Met()), c).Handling?
      ensures LocalOf(sys, c) == Acking(batch, fromReclaim) && AcksOf(sys, c) == old(AcksOf(sys, c))
      ensures batch != [] && batch[0] in sys.history.completed
    {
      hide Step, Issued, Grew, Exec, MetAt;
      ghost var met := Met();
      Await(Advance(c));
      HandledLocal(met, c, count);
    }

    method Ack(c: string, ghost batch: seq<nat>, ghost fromReclaim: bool)
      requires Valid() && Foreign(others(clock), c) && LocalOf(sys, c) == Acking(batch, fromReclaim)
      modifies this
      ensures Valid() && own == old(own) + [Advance(c)] && batch != [] && Grew(old(sys), sys)
      ensures LocalOf(old(Met()), c).Acking?
      ensures LocalOf(sys, c) == Working(batch[1..], fromReclaim) && AcksOf(sys, c) == old(AcksOf(sys, c)) + 1
      ensures batch[0] < |sys.history.deliveries| && sys.history.deliveries[batch[0]].id in sys.acked
    {
      hide Step, Working, Grew, Exec, MetAt;
      ghost var met := Met();
      Await(Advance(c));
      AckLocal(met, c, count);
    }
  }

  lemma NextAwait(others: Schedule, own: seq<Label>, l: Label, count: nat)
    ensures Exec(Initial(), Woven(others, own + [l]), count) == Step(MetAt(others, own, |own|, count), l, count)
  {
    assert own[..|own|] == own && (own + [l])[..|own|] == own;
    var t := Woven(others, own) + others(|own|);
    assert (t + [l])[..|t|] == t;
    hide Step, Woven;
    assert Woven(others, own + [l]) == t + [l] by {
      WovenNext(others, own, l);
    }
  }

  lemma WovenNext(others: Schedule, own: seq<Label>, l: Label)
    ensures Woven(others, own + [l]) == Woven(others, own) + others(|own|) + [l]
  {
    assert (own + [l])[..|own|] == own;
  }

  lemma GrewFurtherUntouched(s: System, s1: System, s2: System, c: string)
    requires Untouched(s, s1, c) && Grew(s1, s2)
    ensures Grew(s, s2)
  {
  }

  lemma IdleAreTaken(main: Stream<Task>, idle: set<nat>, count: nat)
    ensures TakesOver(main, idle, IdleIds(main, idle, count), count)
  {
    hide IdleIds;
  }

  lemma Claims(s: System, idle: set<nat>, count: nat)
    ensures Claimable(s, IdleIds(s.main, idle, count), count)
  {
    hide IdleIds;
  }

  lemma NewAreRead(s: System, count: nat)
    requires Issued(s)
    ensures ReadsNew(s.main, NewIds(s.main, count), count)
  {
    hide Range;
  }

  lemma BeginKeeps(s: System, c: string, batch: seq<nat>, fromReclaim: bool)
    ensures var s' := Begin(s, c, batch, fromReclaim);
            s'.main == s.main && s'.acked == s.acked && s'.history.deliveries == s.history.deliveries
  {
  }

  lemma DeliverHandsOut(met: System, m: Stream<Task>, c: string, ids: seq<nat>, reclaimed: bool)
    requires Issued(met) && m.next <= |m.log| && m.log == met.main.log
    requires m.next == met.main.next + (if reclaimed then 0 else |ids|)
    requires m.pending == Assign(ids, c, met.main.pending)
    ensures HandsOut(met, Deliver(met.(main := m), c, ids, reclaimed), c,
                     Range(|met.history.deliveries|, |met.history.deliveries| + |ids|), ids, reclaimed)
  {
    var n, ds := |met.history.deliveries|, met.history.deliveries;
    var s := met.(main := m, history := met.history.(deliveries := ds + Tickets(c, ids, reclaimed)));
    BeginKeeps(s, c, Range(n, n + |ids|), reclaimed);
    assert Owned(met.main.pending, m.pending, c, ids);
    assert Issues(ds, ds + Tickets(c, ids, reclaimed), c, Range(n, n + |ids|), ids, reclaimed);
    assert met.(main := m).(history := s.history) == s;
    hide Assign, Range, Begin, Owned, Issues, Issued;
  }

  lemma ReclaimHandsOut(s: System, c: string, ids: seq<nat>, count: nat)
    requires Issued(s) && LocalOf(s, c).AtReclaim? && Claimable(s, ids, count)
    ensures var s' := Step(s, Reclaim(c, ids), count); var n := |s.history.deliveries|;
            && LocalOf(s', c) == Working(Range(n, n + |ids|), true) && AcksOf(s', c) == AcksOf(s, c)
            && HandsOut(s, s', c, Range(n, n + |ids|), ids, true)
  {
    ReclaimLocal(s, c, ids, count);
    assert Step(s, Reclaim(c, ids), count) == Deliver(s.(main := XClaim(s.main, c, ids)), c, ids, true);
    hide Step, Issued, LocalOf, AcksOf;
    DeliverHandsOut(s, XClaim(s.main, c, ids), c, ids, true);
    hide HandsOut, Deliver, Working, Assign, Range;
  }

  lemma ReadHandsOut(s: System, c: string, count: nat)
    requires Issued(s) && LocalOf(s, c).AtRead?
    ensures var s' := Step(s, Advance(c), count); var ids := NewIds(s.main, count); var n := |s.history.deliveries|;
            && LocalOf(s', c) == Working(Range(n, n + |ids|), false) && AcksOf(s', c) == AcksOf(s, c)
            && HandsOut(s, s', c, Range(n, n + |ids|), ids, false)
  {
    ReadLocal(s, c, count);
    assert Step(s, Advance(c), count)
        == Deliver(s.(main := XReadNew(s.main, c, count)), c, NewIds(s.main, count), false);
    DeliverHandsOut(s, XReadNew(s.main, c, count), c, NewIds(s.main, count), false);
    hide HandsOut, Deliver, Working, Assign, Range;
  }

  lemma ReclaimLocal(s: System, c: string, ids: seq<nat>, count: nat)
    requires Issued(s) && LocalOf(s, c).AtReclaim? && Claimable(s, ids, count)
    ensures var s' := Step(s, Reclaim(c, ids), count);
            && LocalOf(s', c) == Working(Range(|s.history.deliveries|, |s.history.deliveries| + |ids|), true)
            && AcksOf(s', c) == AcksOf(s, c)
  {
    hide Assign;
  }

  lemma ReadLocal(s: System, c: string, count: nat)
    requires Issued(s) && LocalOf(s, c).AtRead?
    ensures var s' := Step(s, Advance(c), count);
            && LocalOf(s', c) ==
               Working(Range(|s.history.deliveries|, |s.history.deliveries| + |NewIds(s.main, count)|), false)
            && AcksOf(s', c) == AcksOf(s, c)
  {
    hide Assign;
  }

  lemma HandledLocal(s: System, c: string, count: nat)
    requires Issued(s) && LocalOf(s, c).Handling?
    ensures var s' := Step(s, Advance(c), count);
            && LocalOf(s', c) == Acking(LocalOf(s, c).batch, LocalOf(s, c).fromReclaim)
            && LocalOf(s, c).batch != [] && LocalOf(s, c).batch[0] in s'.history.completed
            && AcksOf(s', c) == AcksOf(s, c)
  {
  }

  lemma AckLocal(s: System, c: string, count: nat)
    requires Issued(s) && LocalOf(s, c).Acking?
    ensures var s' := Step(s, Advance(c), count);
            && LocalOf(s, c).batch != []
            && LocalOf(s', c) == Working(LocalOf(s, c).batch[1..], LocalOf(s, c).fromReclaim)
            && AcksOf(s', c) == AcksOf(s, c) + 1
            && LocalOf(s, c).batch[0] < |s'.history.deliveries|
            && s'.history.deliveries[LocalOf(s, c).batch[0]].id in s'.acked
  {
  }

  /** `c` has nothing of a reclaimed batch left, or nothing of a fresh one. */
  function After(fromReclaim: bool): Local {
    if fromReclaim then AtRead else AtReclaim
  }

  /** Where `c` stands with the tickets `batch` still to handle. */
  function Working(batch: seq<nat>, fromReclaim: bool): Local {
    if batch == [] then After(fromReclaim) else Handling(batch, fromReclaim)
  }

  ghost predicate Undisturbed(others: Schedule, c: string) {
    forall k: nat :: Foreign(others(k), c)
  }

  lemma GrewFurther(s: System, s1: System, s2: System)
    requires Grew(s, s1) && Grew(s1, s2)
    ensures Grew(s, s2)
  {
  }

  lemma FinishedNext(s0: System, s1: System, s2: System, tickets: seq<nat>, t: nat)
    requires Finished(s0, tickets) && Grew(s0, s1) && Grew(s1, s2) && t in s1.history.completed
    requires t < |s2.history.deliveries| && s2.history.deliveries[t].id in s2.acked
    ensures Finished(s2, tickets + [t]) && Grew(s0, s2)
  {
  }

  /** What the k-th await is, told by where it finds `c`. */
  ghost predicate TrueTo(others: Schedule, idle: nat -> set<nat>, own: seq<Label>, k: nat, c: string, count: nat)
    requires k < |own|
  {
    var met := MetAt(others, own, k, count);
    match LocalOf(met, c)
    case Down => own[k] == Start(c)
    case AtReclaim =>
      own[k].Reclaim? && own[k].consumer == c && TakesOver(met.main, idle(k), own[k].ids, count)
    case _ => own[k] == Advance(c)
  }

  /** `c` has completed a call on each of the entries and every one of them is acked. */
  ghost predicate Done(s: System, c: string, ids: seq<nat>, reclaimed: bool) {
    forall j :: 0 <= j < |ids| ==> ids[j] in s.acked && exists t :: CompletedBy(s, t, c, ids[j], reclaimed)
  }

  ghost predicate CompletedBy(s: System, t: nat, c: string, id: nat, reclaimed: bool) {
    && t in s.history.completed && t < |s.history.deliveries|
    && s.history.deliveries[t] == Delivery(c, id, reclaimed)
  }

  /** What the k-th await took over or read is done with in `s`. */
  ghost predicate DoneAt(others: Schedule, own: seq<Label>, k: nat, s: System, c: string, count: nat)
    requires k < |own|
  {
    var met := MetAt(others, own, k, count);
    match LocalOf(met, c)
    case AtReclaim => own[k].Reclaim? ==> Done(s, c, own[k].ids, true)
    case AtRead => exists ids :: ReadsNew(met.main, ids, count) && Done(s, c, ids, false)
    case _ => true
  }

  /** The awaits from `from` on are those of `c`'s loop, and all of them but `open` are done with. */
  ghost predicate Served(b: Setup, own: seq<Label>, from: nat, s: System, open: nat) {
    forall k :: from <= k < |own| ==>
      TrueTo(b.others, b.idle, own, k, b.c, b.count) && (k != open ==> DoneAt(b.others, own, k, s, b.c, b.count))
  }

  /** One consumer's view of the broker. */
  datatype Setup = Setup(others: Schedule, idle: nat -> set<nat>, count: nat, c: string)

  lemma SameMet(others: Schedule, own: seq<Label>, l: Label, k: nat, count: nat)
    requires k <= |own|
    ensures MetAt(others, own + [l], k, count) == MetAt(others, own, k, count)
  {
    assert (own + [l])[..k] == own[..k];
  }

  lemma DoneStays(s: System, s': System, c: string, ids: seq<nat>, reclaimed: bool)
    requires Done(s, c, ids, reclaimed) && Grew(s, s')
    ensures Done(s', c, ids, reclaimed)
  {
    forall j | 0 <= j < |ids| ensures exists t :: CompletedBy(s', t, c, ids[j], reclaimed) {
      var t :| CompletedBy(s, t, c, ids[j], reclaimed);
      assert CompletedBy(s', t, c, ids[j], reclaimed);
    }
  }

  lemma DoneAtStays(b: Setup, own: seq<Label>, l: Label, k: nat, s: System, s': System)
    requires k < |own| && DoneAt(b.others, own, k, s, b.c, b.count) && Grew(s, s')
    ensures DoneAt(b.others, own + [l], k, s', b.c, b.count)
  {
    SameMet(b.others, own, l, k, b.count);
    var met := MetAt(b.others, own, k, b.count);
    hide MetAt, Done, Grew, ReadsNew;
    match LocalOf(met, b.c)
    case AtReclaim =>
      if own[k].Reclaim? {
        DoneStays(s, s', b.c, own[k].ids, true);
      }
    case AtRead =>
      var ids :| ReadsNew(met.main, ids, b.count) && Done(s, b.c, ids, false);
      DoneStays(s, s', b.c, ids, false);
    case _ =>
  }

  /** One more await of the loop; the one that is open stays so. */
  lemma ServedNext(b: Setup, own: seq<Label>, l: Label, from: nat, s: System, s': System, open: nat)
    requires Served(b, own, from, s, open) && Grew(s, s')
    requires TrueTo(b.others, b.idle, own + [l], |own|, b.c, b.count)
    requires open == |own| || DoneAt(b.others, own + [l], |own|, s', b.c, b.count)
    ensures Served(b, own + [l], from, s', open)
  {
    var all := own + [l];
    hide MetAt, DoneAt, Grew, TakesOver, LocalOf;
    forall k | from <= k < |all|
      ensures TrueTo(b.others, b.idle, all, k, b.c, b.count)
      ensures k != open ==> DoneAt(b.others, all, k, s', b.c, b.count)
    {
      if k < |own| {
        SameMet(b.others, own, l, k, b.count);
        assert TrueTo(b.others, b.idle, own, k, b.c, b.count);
        if k != open {
          DoneAtStays(b, own, l, k, s, s');
        }
      }
    }
  }

  lemma WorkServed(b: Setup, own: seq<Label>, from: nat, s: System, s': System, open: nat)
    requires Served(b, own, from, s, open) && Grew(s, s')
    requires var u := LocalOf(MetAt(b.others, own, |own|, b.count), b.c); u.Handling? || u.Acking?
    ensures Served(b, own + [Advance(b.c)], from, s', open)
  {
    SameMet(b.others, own, Advance(b.c), |own|, b.count);
    ServedNext(b, own, Advance(b.c), from, s, s', open);
    hide Served, MetAt, TakesOver, LocalOf, Grew, ReadsNew;
  }

  lemma StartServed(b: Setup, own: seq<Label>, s: System, s': System)
    requires LocalOf(MetAt(b.others, own, |own|, b.count), b.c).Down? && Grew(s, s')
    ensures Served(b, own + [Start(b.c)], |own|, s', |own| + 1)
  {
    SameMet(b.others, own, Start(b.c), |own|, b.count);
    hide MetAt, TakesOver, LocalOf, Grew, ReadsNew;
  }

  lemma ReclaimServed(b: Setup, own: seq<Label>, ids: seq<nat>, from: nat, s: System, s': System)
    requires Served(b, own, from, s, |own|) && Grew(s, s')
    requires var met := MetAt(b.others, own, |own|, b.count);
             LocalOf(met, b.c).AtReclaim? && TakesOver(met.main, b.idle(|own|), ids, b.count)
    ensures Served(b, own + [Reclaim(b.c, ids)], from, s', |own|)
  {
    SameMet(b.others, own, Reclaim(b.c, ids), |own|, b.count);
    ServedNext(b, own, Reclaim(b.c, ids), from, s, s', |own|);
    hide Served, MetAt, TakesOver, LocalOf, Grew, ReadsNew;
  }

  lemma ReadServed(b: Setup, own: seq<Label>, from: nat, s: System, s': System)
    requires Served(b, own, from, s, |own|) && Grew(s, s')
    requires LocalOf(MetAt(b.others, own, |own|, b.count), b.c).AtRead?
    ensures Served(b, own + [Advance(b.c)], from, s', |own|)
  {
    SameMet(b.others, own, Advance(b.c), |own|, b.count);
    ServedNext(b, own, Advance(b.c), from, s, s', |own|);
    hide Served, MetAt, TakesOver, LocalOf, Grew, ReadsNew;
  }

  /** What was handed out, once every ticket of it is finished, is done with. */
  lemma FinishedIsDone(met: System, s1: System, s2: System, c: string, batch: seq<nat>, ids: seq<nat>, r: bool)
    requires HandsOut(met, s1, c, batch, ids, r) && Grew(s1, s2) && Finished(s2, batch)
    ensures Done(s2, c, ids, r)
  {
    forall j | 0 <= j < |ids| ensures ids[j] in s2.acked && exists t :: CompletedBy(s2, t, c, ids[j], r) {
      assert s2.history.deliveries[batch[j]] == Delivery(c, ids[j], r);
      assert CompletedBy(s2, batch[j], c, ids[j], r);
    }
  }

  /** The open await is done with. */
  lemma Closes(b: Setup, own: seq<Label>, own': seq<Label>, from: nat, s: System, open: nat)
    requires Served(b, own', from, s, open) && own <= own' && open < |own|
    requires DoneAt(b.others, own, open, s, b.c, b.count)
    ensures Served(b, own', from, s, |own'|)
  {
    assert own'[..open] == own[..open];
    hide Exec, LocalOf, TakesOver, ReadsNew, Done;
  }

  /** Each entry in turn: handler, then ack. */
  method HandleBatch(broker: CompetingConsumersBroker, c: string, batch: seq<nat>,
      ghost fromReclaim: bool, ghost from: nat, ghost open: nat) returns (handled: nat)
    requires broker.Valid() && Undisturbed(broker.others, c)
    requires LocalOf(broker.sys, c) == Working(batch, fromReclaim)
    requires Served(SetupOf(broker, c), broker.own, from, broker.sys, open)
    modifies broker
    ensures broker.Valid() && LocalOf(broker.sys, c) == After(fromReclaim)
    ensures handled == |batch| && AcksOf(broker.sys, c) == old(AcksOf(broker.sys, c)) + handled
    ensures Grew(old(broker.sys), broker.sys) && Finished(broker.sys, batch)
    ensures Served(SetupOf(broker, c), broker.own, from, broker.sys, open)
    ensures Extends(old(broker.own), broker.own, 2 * |batch|, c)
  {
    hide Step, LocalOf, AcksOf, Issued, Foreign, After, Exec, Grew, Finished, Served, MetAt, Extends;
    handled := 0;
    Nothing(broker.sys, broker.own, c);
    for j := 0 to |batch|
      invariant broker.Valid() && handled == j
      invariant LocalOf(broker.sys, c) == Working(batch[j..], fromReclaim)
      invariant AcksOf(broker.sys, c) == old(AcksOf(broker.sys, c)) + j
      invariant Grew(old(broker.sys), broker.sys) && Finished(broker.sys, batch[..j])
      invariant Served(SetupOf(broker, c), broker.own, from, broker.sys, open)
      invariant Extends(old(broker.own), broker.own, 2 * j, c)
    {
      assert batch[j..][1..] == batch[j + 1..] && batch[..j + 1] == batch[..j] + [batch[j]];
      ghost var s0, own0 := broker.sys, broker.own;
      broker.Handled(c, batch[j..], fromReclaim);
      ghost var s1, own1 := broker.sys, broker.own;
      WorkServed(SetupOf(broker, c), own0, from, s0, s1, open);
      broker.Ack(c, batch[j..], fromReclaim);
      WorkServed(SetupOf(broker, c), own1, from, s1, broker.sys, open);
      FinishedNext(s0, s1, broker.sys, batch[..j], batch[j]);
      GrewFurther(old(broker.sys), s0, broker.sys);
      OneMore(old(broker.own), own0, 2 * j, c);
      OneMore(old(broker.own), own1, 2 * j + 1, c);
      handled := handled + 1;
    }
    assert batch[..|batch|] == batch;
  }

  function SetupOf(broker: CompetingConsumersBroker, c: string): Setup {
    Setup(broker.others, broker.idle, broker.count, c)
  }

  /** `n` more awaits, none of them a reclaim. */
  ghost predicate Extends(own: seq<Label>, own': seq<Label>, n: nat, c: string) {
    && own <= own' && |own'| == |own| + n
    && forall k :: |own| <= k < |own'| ==> own'[k] == Advance(c)
  }

  lemma OneMore(own: seq<Label>, own': seq<Label>, n: nat, c: string)
    requires Extends(own, own', n, c)
    ensures Extends(own, own' + [Advance(c)], n + 1, c)
  {
  }

  lemma Nothing(s: System, own: seq<Label>, c: string)
    ensures Grew(s, s) && Finished(s, []) && Extends(own, own, 0, c)
  {
  }

  function Reclaims(own: seq<Label>): nat {
    if own == [] then 0 else Reclaims(own[..|own| - 1]) + if own[|own| - 1].Reclaim? then 1 else 0
  }

  lemma {:induction false} NoReclaims(own: seq<Label>, own': seq<Label>, n: nat, c: string)
    requires Extends(own, own', n, c)
    ensures Reclaims(own') == Reclaims(own)
    decreases n
  {
    if n == 0 {
      assert own' == own;
    } else {
      var front := own'[..|own'| - 1];
      assert Extends(own, front, n - 1, c);
      NoReclaims(own, front, n - 1, c);
    }
  }

  lemma OneReclaim(own: seq<Label>, l: Label)
    ensures Reclaims(own + [l]) == Reclaims(own) + if l.Reclaim? then 1 else 0
  {
    assert (own + [l])[..|own|] == own;
  }

  lemma ReclaimDone(b: Setup, own: seq<Label>, ids: seq<nat>, s: System)
    requires Done(s, b.c, ids, true)
    ensures DoneAt(b.others, own + [Reclaim(b.c, ids)], |own|, s, b.c, b.count)
    requires LocalOf(MetAt(b.others, own, |own|, b.count), b.c).AtReclaim?
  {
    SameMet(b.others, own, Reclaim(b.c, ids), |own|, b.count);
    hide MetAt, Done, LocalOf;
  }

  lemma ReadDone(b: Setup, own: seq<Label>, ids: seq<nat>, s: System)
    requires Done(s, b.c, ids, false)
    requires var met := MetAt(b.others, own, |own|, b.count);
             LocalOf(met, b.c).AtRead? && ReadsNew(met.main, ids, b.count)
    ensures DoneAt(b.others, own + [Advance(b.c)], |own|, s, b.c, b.count)
  {
    SameMet(b.others, own, Advance(b.c), |own|, b.count);
    hide MetAt, Done, LocalOf, ReadsNew;
  }

  /** The first half of a turn: whatever is idle is taken over, handled and acked. */
  method ReclaimTurn(broker: CompetingConsumersBroker, c: string, ghost from: nat) returns (handled: nat)
    requires broker.Valid() && Undisturbed(broker.others, c) && LocalOf(broker.sys, c) == AtReclaim
    requires from <= |broker.own| && Served(SetupOf(broker, c), broker.own, from, broker.sys, |broker.own|)
    modifies broker
    ensures broker.Valid() && LocalOf(broker.sys, c) == AtRead && old(broker.own) <= broker.own
    ensures AcksOf(broker.sys, c) == old(AcksOf(broker.sys, c)) + handled
    ensures Served(SetupOf(broker, c), broker.own, from, broker.sys, |broker.own|)
    ensures Reclaims(broker.own) == old(Reclaims(broker.own)) + 1
    ensures |broker.own| == |old(broker.own)| + 1 + 2 * handled
  {
    hide Step, LocalOf, AcksOf, Issued, Foreign, Exec, Working, Grew, Finished, Served, MetAt, Extends, HandsOut,
        TakesOver, Done, DoneAt, Reclaims;
    assert Foreign(broker.others(broker.clock), c);
    ghost var own0, s0, met, b := broker.own, broker.sys, broker.Met(), SetupOf(broker, c);
    ghost var ids;
    var batch;
    batch, ids := broker.ReclaimStale(c);
    ghost var own1, s1 := broker.own, broker.sys;
    ReclaimServed(b, own0, ids, from, s0, s1);
    handled := HandleBatch(broker, c, batch, true, from, |own0|);
    FinishedIsDone(met, s1, broker.sys, c, batch, ids, true);
    ReclaimDone(b, own0, ids, broker.sys);
    ExtendsIs(own1, broker.own, 2 * |batch|, c);
    Closes(b, own1, broker.own, from, broker.sys, |own0|);
    OneReclaim(own0, Reclaim(c, ids));
    NoReclaims(own1, broker.own, 2 * |batch|, c);
  }

  lemma ExtendsIs(own: seq<Label>, own': seq<Label>, n: nat, c: string)
    requires Extends(own, own', n, c)
    ensures own <= own' && |own'| == |own| + n
  {
  }

  /** The second half: whatever is new is read, handled and acked. */
  method ReadTurn(broker: CompetingConsumersBroker, c: string, ghost from: nat) returns (handled: nat)
    requires broker.Valid() && Undisturbed(broker.others, c) && LocalOf(broker.sys, c) == AtRead
    requires from <= |broker.own| && Served(SetupOf(broker, c), broker.own, from, broker.sys, |broker.own|)
    modifies broker
    ensures broker.Valid() && LocalOf(broker.sys, c) == AtReclaim && old(broker.own) <= broker.own
    ensures AcksOf(broker.sys, c) == old(AcksOf(broker.sys, c)) + handled
    ensures Served(SetupOf(broker, c), broker.own, from, broker.sys, |broker.own|)
    ensures Reclaims(broker.own) == old(Reclaims(broker.own))
    ensures |broker.own| == |old(broker.own)| + 1 + 2 * handled
  {
    hide Step, LocalOf, AcksOf, Issued, Foreign, Exec, Working, Grew, Finished, Served, MetAt, Extends, HandsOut,
        ReadsNew, Done, DoneAt, Reclaims;
    assert Foreign(broker.others(broker.clock), c);
    ghost var own0, s0, met, b := broker.own, broker.sys, broker.Met(), SetupOf(broker, c);
    ghost var ids;
    var batch;
    batch, ids := broker.ReadNew(c);
    ghost var own1, s1 := broker.own, broker.sys;
    ReadServed(b, own0, from, s0, s1);
    handled := HandleBatch(broker, c, batch, false, from, |own0|);
    FinishedIsDone(met, s1, broker.sys, c, batch, ids, false);
    ReadDone(b, own0, ids, broker.sys);
    ExtendsIs(own1, broker.own, 2 * |batch|, c);
    Closes(b, own1, broker.own, from, broker.sys, |own0|);
    OneReclaim(own0, Advance(c));
    NoReclaims(own1, broker.own, 2 * |batch|, c);
  }

  /**
   Reclaim, handle, read, handle, until stopped after `turns`. The broker only takes each await
   where the protocol stands at it, so the loop cannot leave one out or change their order. Every
   turn takes over the oldest idle entries still pending and reads the oldest undelivered ones, and
   at the end all of them have a completed call by this consumer and are acked. There are no awaits
   but the start, a reclaim and a read a turn, and a call and an ack for each entry.
   */
  method RunConsumer(broker: CompetingConsumersBroker, c: string, turns: nat) returns (totalHandled: nat)
    requires broker.Valid() && Undisturbed(broker.others, c) && LocalOf(broker.sys, c).Down?
    modifies broker
    ensures broker.Valid() && LocalOf(broker.sys, c) == AtReclaim
    ensures AcksOf(broker.sys, c) == old(AcksOf(broker.sys, c)) + totalHandled
    ensures old(broker.own) <= broker.own && Reclaims(broker.own) == old(Reclaims(broker.own)) + turns
    ensures |broker.own| == |old(broker.own)| + 1 + 2 * turns + 2 * totalHandled
    ensures forall k :: |old(broker.own)| <= k < |broker.own| ==>
              && TrueTo(broker.others, broker.idle, broker.own, k, c, broker.count)
              && DoneAt(broker.others, broker.own, k, broker.sys, c, broker.count)
  {
    ghost var from := |broker.own|;
    hide Step, LocalOf, AcksOf, Issued, Foreign, Exec, MetAt, Grew, Served, Reclaims;
    assert Foreign(broker.others(broker.clock), c);
    ghost var own0, s0 := broker.own, broker.sys;
    broker.Join(c);
    StartServed(SetupOf(broker, c), own0, s0, broker.sys);
    OneReclaim(own0, Start(c));
    totalHandled := 0;
    for turn := 0 to turns
      invariant broker.Valid() && LocalOf(broker.sys, c) == AtReclaim
      invariant AcksOf(broker.sys, c) == old(AcksOf(broker.sys, c)) + totalHandled
      invariant own0 <= broker.own && Reclaims(broker.own) == Reclaims(own0) + turn
      invariant |broker.own| == |own0| + 1 + 2 * turn + 2 * totalHandled
      invariant Served(SetupOf(broker, c), broker.own, from, broker.sys, |broker.own|)
    {
      var n := ReclaimTurn(broker, c, from);
      totalHandled := totalHandled + n;
      n := ReadTurn(broker, c, from);
      totalHandled := totalHandled + n;
    }
    ServedAll(SetupOf(broker, c), broker.own, from, broker.sys);
  }

  lemma ServedAll(b: Setup, own: seq<Label>, from: nat, s: System)
    requires Served(b, own, from, s, |own|)
    ensures forall k :: from <= k < |own| ==>
              TrueTo(b.others, b.idle, own, k, b.c, b.count) && DoneAt(b.others, own, k, s, b.c, b.count)
  {
  }
}
