/**
 What every run of the protocol keeps: which consumer holds which message, and how many
 handler calls a message has had in the current run.
 */
module DlqSafety {
  import opened Streams
  import opened DlqModel
  import opened DlqProtocol

  ghost predicate Owns(s: System, c: string, d: Delivery) {
    && d.id in s.db.main.pending && s.db.main.pending[d.id] == c
    && d.id < |s.db.main.log| && s.db.main.log[d.id] == d.payment
  }

  /** Acked on main and not yet in the dead-letter stream. */
  ghost predicate Taken(s: System, d: Delivery) {
    && d.id < s.db.main.next && d.id !in s.db.main.pending
    && d.id < |s.db.main.log| && s.db.main.log[d.id] == d.payment
  }

  /** A working consumer owns its current message and the rest of its batch, oldest first. */
  ghost predicate Holds(s: System, c: string, u: Local) {
    u.Busy? ==>
      && (if u.stage.Adding? then Taken(s, u.msg) else Owns(s, c, u.msg))
      && OwnsAll(s, c, u.rest)
      && (forall j :: 0 <= j < |u.rest| ==> u.msg.id < u.rest[j].id)
  }

  ghost predicate OwnsAll(s: System, c: string, ds: seq<Delivery>) {
    && (forall j :: 0 <= j < |ds| ==> Owns(s, c, ds[j]))
    && (forall i, j :: 0 <= i < j < |ds| ==> ds[i].id < ds[j].id)
  }

  ghost predicate AllHold(s: System) {
    && WellFormed(s.db.main)
    && forall c :: Holds(s, c, LocalOf(s, c))
  }

  /** How a step of `actor` may change the main stream: it appends, delivers new messages to
      the actor and removes messages of the actor. */
  ghost predicate Evolves(s: System, s': System, actor: string) {
    var m, m' := s.db.main, s'.db.main;
    && |m.log| <= |m'.log| && m'.log[..|m.log|] == m.log
    && m.next <= m'.next <= |m'.log|
    && (forall i :: i in m'.pending ==> i < m'.next)
    && (forall i :: i in m'.pending && i < m.next ==> i in m.pending && m'.pending[i] == m.pending[i])
    && (forall i :: i in m'.pending && i >= m.next ==> m'.pending[i] == actor)
    && (forall i :: i in m.pending && m.pending[i] != actor ==> i in m'.pending)
  }

  ghost predicate OthersKeep(s: System, s': System, actor: string) {
    forall c :: c != actor ==> LocalOf(s', c) == LocalOf(s, c)
  }

  function Actor(l: Label): string {
    match l
    case Publish(_) => ""
    case Start(c) => c
    case Stop(c) => c
    case Crash(c) => c
    case Advance(c, _) => c
  }

  lemma BusyEvolves(s: System, c: string, outcome: Outcome, k: Settings)
    requires AllHold(s) && LocalOf(s, c).Busy?
    ensures Evolves(s, BusyStep(s, c, LocalOf(s, c), outcome, k), c)
  {
    assert Holds(s, c, LocalOf(s, c));
    hide AllHold, OwnsAll, Begin;
  }

  lemma ReadEvolves(s: System, c: string, k: Settings)
    requires AllHold(s)
    ensures LocalOf(s, c).Idle? ==> Evolves(s, ReadNewStep(s, c, LocalOf(s, c), k), c)
    ensures LocalOf(s, c).Polling? ==> Evolves(s, ReadPendingStep(s, c, LocalOf(s, c), k), c)
  {
    hide Holds, Begin, Deliveries, PendingIds, Range;
  }

  lemma StepEvolves(s: System, l: Label, k: Settings)
    requires AllHold(s)
    ensures Evolves(s, Step(s, l, k), Actor(l))
  {
    if l.Advance? {
      ReadEvolves(s, l.consumer, k);
      if LocalOf(s, l.consumer).Busy? {
        BusyEvolves(s, l.consumer, l.outcome, k);
      }
    }
    hide BusyStep, ReadNewStep, ReadPendingStep, Holds;
  }

  lemma BusyKeepsOthers(s: System, c: string, outcome: Outcome, k: Settings)
    requires LocalOf(s, c).Busy?
    ensures OthersKeep(s, BusyStep(s, c, LocalOf(s, c), outcome, k), c)
  {
    hide Begin, AckMain, Attempts;
  }

  lemma StepKeepsOthers(s: System, l: Label, k: Settings)
    requires s.db.main.next <= |s.db.main.log|
    ensures OthersKeep(s, Step(s, l, k), Actor(l))
  {
    if l.Advance? && LocalOf(s, l.consumer).Busy? {
      BusyKeepsOthers(s, l.consumer, l.outcome, k);
      hide BusyStep, OthersKeep;
    }
    hide Begin, NewIds, PendingIds, Deliveries;
  }

  lemma OwnsFrame(s: System, s': System, actor: string, c: string, d: Delivery)
    requires Evolves(s, s', actor) && WellFormed(s.db.main)
    ensures c != actor && Owns(s, c, d) ==> Owns(s', c, d)
    ensures Taken(s, d) ==> Taken(s', d)
  {
    if d.id < |s.db.main.log| {
      assert s'.db.main.log[d.id] == s'.db.main.log[..|s.db.main.log|][d.id];
    }
  }

  lemma OthersHold(s: System, s': System, actor: string, c: string)
    requires AllHold(s) && Evolves(s, s', actor) && OthersKeep(s, s', actor) && c != actor
    ensures Holds(s', c, LocalOf(s', c))
  {
    hide Owns, Taken, Evolves;
    var u := LocalOf(s, c);
    assert Holds(s, c, u);
    if u.Busy? {
      OwnsFrame(s, s', actor, c, u.msg);
      forall j | 0 <= j < |u.rest| ensures Owns(s', c, u.rest[j]) {
        OwnsFrame(s, s', actor, c, u.rest[j]);
      }
    }
  }

  /** Starting the rest of a batch after its current message has been dealt with. */
  lemma BeginHolds(s: System, c: string, batch: seq<Delivery>, attempts: map<nat, nat>, calls: seq<nat>)
    requires OwnsAll(s, c, batch)
    ensures Holds(s, c, Begin(batch, attempts, calls))
  {
    hide Owns;
  }

  lemma RestSurvives(s: System, s': System, c: string, id: nat, rest: seq<Delivery>)
    requires OwnsAll(s, c, rest) && s'.db.main == XAck(s.db.main, id)
    requires forall j :: 0 <= j < |rest| ==> id < rest[j].id
    ensures OwnsAll(s', c, rest)
  {
  }

  lemma SameMainHolds(s: System, s': System, c: string, u: Local)
    requires Holds(s, c, u) && s'.db.main == s.db.main
    ensures Holds(s', c, u)
  {
  }

  /** An ack, on either side of a move, leaves the rest of the batch with its owner. */
  lemma LeaveHolds(s: System, c: string, outcome: Outcome, k: Settings)
    requires AllHold(s) && LocalOf(s, c).Busy?
    requires LocalOf(s, c).stage.Skipping? || LocalOf(s, c).stage.Acking? || LocalOf(s, c).stage.Burying?
    ensures var s' := Step(s, Advance(c, outcome), k); Holds(s', c, LocalOf(s', c))
  {
    var u := LocalOf(s, c);
    var s' := BusyStep(s, c, u, outcome, k);
    assert Holds(s, c, u);
    RestSurvives(s, s', c, u.msg.id, u.rest);
    hide Owns, OwnsAll, AllHold;
    if !u.stage.Burying? {
      BeginHolds(s', c, u.rest, LocalOf(s', c).attempts, LocalOf(s', c).calls);
    }
  }

  lemma StayHolds(s: System, c: string, outcome: Outcome, k: Settings)
    requires AllHold(s) && LocalOf(s, c).Busy?
    requires !(LocalOf(s, c).stage.Skipping? || LocalOf(s, c).stage.Acking? || LocalOf(s, c).stage.Burying?)
    ensures var s' := Step(s, Advance(c, outcome), k); Holds(s', c, LocalOf(s', c))
  {
    var u := LocalOf(s, c);
    var s' := BusyStep(s, c, u, outcome, k);
    assert Holds(s, c, u);
    assert s'.db.main == s.db.main;
    assert OwnsAll(s', c, u.rest);
    hide Owns, OwnsAll, AllHold;
    if LocalOf(s', c) == Begin(u.rest, LocalOf(s', c).attempts, LocalOf(s', c).calls) {
      BeginHolds(s', c, u.rest, LocalOf(s', c).attempts, LocalOf(s', c).calls);
    }
  }

  lemma BusyHolds(s: System, c: string, outcome: Outcome, k: Settings)
    requires AllHold(s) && LocalOf(s, c).Busy?
    ensures var s' := Step(s, Advance(c, outcome), k); Holds(s', c, LocalOf(s', c))
  {
    var stage := LocalOf(s, c).stage;
    hide Step, AllHold, Holds;
    if stage.Skipping? || stage.Acking? || stage.Burying? {
      LeaveHolds(s, c, outcome, k);
    } else {
      StayHolds(s, c, outcome, k);
    }
  }

  lemma ReadNewHolds(s: System, c: string, k: Settings)
    requires AllHold(s) && LocalOf(s, c).Idle?
    ensures var s' := Step(s, Advance(c, Returned), k); Holds(s', c, LocalOf(s', c))
  {
    assert s.db.main.next <= |s.db.main.log|;
    hide AllHold, Holds, OwnsAll;
    var u := LocalOf(s, c);
    var ids := NewIds(s.db.main, k.count);
    var batch := Deliveries(s.db.main.log, ids);
    var s' := ReadNewStep(s, c, u, k);
    FreshBatchOwned(s, s', c, ids);
    BeginHolds(s', c, batch, u.attempts, u.calls);
    NotBusyHolds(s', c, Polling(u.attempts, u.calls));
  }

  lemma FreshBatchOwned(s: System, s': System, c: string, ids: seq<nat>)
    requires InLog(ids, |s.db.main.log|) && s'.db.main.log == s.db.main.log
    requires s'.db.main.pending == Assign(ids, c, s.db.main.pending)
    requires forall i, j :: 0 <= i < j < |ids| ==> ids[i] < ids[j]
    ensures OwnsAll(s', c, Deliveries(s.db.main.log, ids))
  {
  }

  lemma NotBusyHolds(s: System, c: string, u: Local)
    requires !u.Busy?
    ensures Holds(s, c, u)
  {
  }

  lemma ReadPendingHolds(s: System, c: string, k: Settings)
    requires AllHold(s) && LocalOf(s, c).Polling?
    ensures var s' := Step(s, Advance(c, Returned), k); Holds(s', c, LocalOf(s', c))
  {
    assert s.db.main.next <= |s.db.main.log|;
    hide AllHold, Holds, OwnedBelow, PendingIds;
    var u := LocalOf(s, c);
    var ids := PendingIds(s.db.main, c, k.count);
    var s' := ReadPendingStep(s, c, u, k);
    assert OwnsAll(s', c, Deliveries(s.db.main.log, ids));
    BeginHolds(s', c, Deliveries(s.db.main.log, ids), u.attempts, u.calls);
  }

  /** A step that does not reach a working stage leaves the actor holding nothing or what it held. */
  lemma ActorHolds(s: System, l: Label, k: Settings)
    requires AllHold(s)
    ensures Holds(Step(s, l, k), Actor(l), LocalOf(Step(s, l, k), Actor(l)))
  {
    var c := Actor(l);
    var u := LocalOf(s, c);
    var s' := Step(s, l, k);
    assert Holds(s, c, u);
    if l.Advance? && u.Busy? {
      BusyHolds(s, c, l.outcome, k);
    } else if l.Advance? && u.Idle? {
      ReadNewHolds(s, c, k);
    } else if l.Advance? && u.Polling? {
      ReadPendingHolds(s, c, k);
    } else if l.Publish? {
      StepEvolves(s, l, k);
      hide Step;
      PublishHolds(s, l.payment, c, u);
    } else {
      assert s'.db == s.db;
      hide Step, Evolves;
      SameMainHolds(s, s', c, u);
      if LocalOf(s', c) != u {
        NotBusyHolds(s', c, LocalOf(s', c));
      }
    }
  }

  lemma PublishHolds(s: System, p: Payment, c: string, u: Local)
    requires Holds(s, c, u)
    ensures Holds(s.(db := s.db.(main := XAdd(s.db.main, p))), c, u)
  {
  }

  lemma StepHolds(s: System, l: Label, k: Settings)
    requires AllHold(s)
    ensures AllHold(Step(s, l, k))
  {
    StepEvolves(s, l, k);
    StepKeepsOthers(s, l, k);
    ActorHolds(s, l, k);
    var s' := Step(s, l, k);
    hide Step, Holds, OthersKeep;
    forall c ensures Holds(s', c, LocalOf(s', c)) {
      if c != Actor(l) {
        OthersHold(s, s', Actor(l), c);
      }
    }
  }

  /** In every run, every message of a batch is held by the consumer that is working through it. */
  lemma {:induction false} RunHolds(trace: seq<Label>, k: Settings)
    ensures AllHold(Exec(Initial(), trace, k))
  {
    hide Step;
    if trace == [] {
    } else {
      hide AllHold;
      RunHolds(trace[..|trace| - 1], k);
      StepHolds(Exec(Initial(), trace[..|trace| - 1], k), trace[|trace| - 1], k);
    }
  }
}
