/**
 The sequential run is one of the protocol's runs: every turn of the loop is a trace of single
 awaits that ends in the same database and the same attempt counters. The protocol's crash
 windows are therefore windows of the loop.
 */
module DlqRefinement {
  import opened Streams
  import opened DlqModel
  import opened DlqProtocol
  import opened DlqEffects

  function SettingsOf(c: Config): Settings {
    Settings(c.count, c.maxAttempts)
  }

  /** Same database, and the consumer is at the top of its loop with the run's counters. */
  ghost predicate Refines(s: System, r: Run, c: Config) {
    s.db == r.db && LocalOf(s, c.consumer) == Idle(r.attempts, r.calls)
  }

  /** As above, inside a batch with `ids` still to go. */
  ghost predicate RefinesBatch(s: System, r: Run, ids: seq<nat>, c: Config) {
    && s.db == r.db && InLog(ids, |r.db.main.log|) && r.db.main.next <= |r.db.main.log|
    && LocalOf(s, c.consumer) == Begin(Deliveries(r.db.main.log, ids), r.attempts, r.calls)
  }

  lemma Exec1(s: System, a: Label, k: Settings)
    requires s.db.main.next <= |s.db.main.log|
    ensures Exec(s, [a], k) == Step(s, a, k)
  {
    hide Step;
    assert [a][..0] == [];
    assert Exec(s, [], k) == s;
  }

  lemma Exec2(s: System, a: Label, b: Label, k: Settings)
    requires s.db.main.next <= |s.db.main.log|
    ensures Exec(s, [a, b], k) == Step(Step(s, a, k), b, k)
  {
    hide Step, Exec;
    Exec1(s, a, k);
    Exec1(Step(s, a, k), b, k);
    ExecAppend(s, [a], [b], k);
    assert [a] + [b] == [a, b];
  }

  /** The awaits of one delivery: two for a skip or a retry, four for a success or a burial. */
  lemma MessageIsATrace(s: System, r: Run, ids: seq<nat>, c: Config) returns (trace: seq<Label>)
    requires ids != [] && RefinesBatch(s, r, ids, c)
    ensures RefinesBatch(Exec(s, trace, SettingsOf(c)), HandleOne(r, ids[0], c), ids[1..], c)
    ensures Solo(trace, c.consumer)
  {
    var k, id := SettingsOf(c), ids[0];
    var payment := r.db.main.log[id];
    var a := Advance(c.consumer, c.handler(|r.calls|, payment));
    var s1 := Step(s, a, k);
    var s2 := Step(s1, a, k);
    assert Deliveries(r.db.main.log, ids)[1..] == Deliveries(r.db.main.log, ids[1..]);
    Exec2(s, a, a, k);
    if payment.paymentId in r.db.processed ||
       (c.handler(|r.calls|, payment).Raised? && Attempts(r.attempts, id) + 1 < c.maxAttempts) {
      trace := [a, a];
      TwoAwaits(s, r, ids, c, a);
    } else {
      trace := [a, a] + [a, a];
      ExecAppend(s, [a, a], [a, a], k);
      Exec2(s2, a, a, k);
      FourAwaits(s, r, ids, c, a);
    }
  }

  lemma TwoAwaits(s: System, r: Run, ids: seq<nat>, c: Config, a: Label)
    requires ids != [] && RefinesBatch(s, r, ids, c)
    requires a == Advance(c.consumer, c.handler(|r.calls|, r.db.main.log[ids[0]]))
    requires r.db.main.log[ids[0]].paymentId in r.db.processed
             || (a.outcome.Raised? && Attempts(r.attempts, ids[0]) + 1 < c.maxAttempts)
    ensures RefinesBatch(Step(Step(s, a, SettingsOf(c)), a, SettingsOf(c)), HandleOne(r, ids[0], c), ids[1..], c)
  {
    assert Deliveries(r.db.main.log, ids)[1..] == Deliveries(r.db.main.log, ids[1..]);
    hide Deliveries;
  }

  lemma FourAwaits(s: System, r: Run, ids: seq<nat>, c: Config, a: Label)
    requires ids != [] && RefinesBatch(s, r, ids, c)
    requires a == Advance(c.consumer, c.handler(|r.calls|, r.db.main.log[ids[0]]))
    requires r.db.main.log[ids[0]].paymentId !in r.db.processed
    requires a.outcome.Raised? ==> Attempts(r.attempts, ids[0]) + 1 >= c.maxAttempts
    ensures var k := SettingsOf(c);
            RefinesBatch(Step(Step(Step(Step(s, a, k), a, k), a, k), a, k), HandleOne(r, ids[0], c), ids[1..], c)
  {
    var k := SettingsOf(c);
    assert Deliveries(r.db.main.log, ids)[1..] == Deliveries(r.db.main.log, ids[1..]);
    hide Deliveries;
    var s1 := Step(s, a, k);
    var s2 := Step(s1, a, k);
    var s3 := Step(s2, a, k);
    var s4 := Step(s3, a, k);
  }

  lemma {:induction false} BatchIsATrace(s: System, r: Run, ids: seq<nat>, c: Config) returns (trace: seq<Label>)
    requires RefinesBatch(s, r, ids, c)
    ensures Refines(Exec(s, trace, SettingsOf(c)), HandleBatch(r, ids, c), c) && Solo(trace, c.consumer)
    decreases |ids|
  {
    hide Step, HandleOne;
    trace := [];
    if ids == [] {
    } else {
      var first := MessageIsATrace(s, r, ids, c);
      var s' := Exec(s, first, SettingsOf(c));
      var rest := BatchIsATrace(s', HandleOne(r, ids[0], c), ids[1..], c);
      ExecAppend(s, first, rest, SettingsOf(c));
      trace := first + rest;
    }
  }

  function Publishes(arrivals: seq<Payment>): seq<Label> {
    seq(|arrivals|, i requires 0 <= i < |arrivals| => Publish(arrivals[i]))
  }

  lemma {:induction false} ArrivalsAreATrace(s: System, arrivals: seq<Payment>, k: Settings)
    requires s.db.main.next <= |s.db.main.log|
    ensures Exec(s, Publishes(arrivals), k) == s.(db := s.db.(main := XAddAll(s.db.main, arrivals)))
    decreases |arrivals|
  {
    if arrivals == [] {
      assert XAddAll(s.db.main, arrivals) == s.db.main;
    } else {
      var front := arrivals[..|arrivals| - 1];
      ArrivalsAreATrace(s, front, k);
      assert Publishes(arrivals)[..|arrivals| - 1] == Publishes(front);
      assert s.db.main.log + arrivals == s.db.main.log + front + [arrivals[|arrivals| - 1]];
    }
  }

  /** The reads at the top of a turn: one await, or two when nothing new was there. */
  lemma ReadIsATrace(s: System, r: Run, c: Config) returns (trace: seq<Label>)
    requires Refines(s, r, c) && WellFormed(r.db.main)
    ensures RefinesBatch(Exec(s, trace, SettingsOf(c)), r.(db := Deliver(r.db, c).0), Deliver(r.db, c).1, c)
    ensures Solo(trace, c.consumer)
  {
    var k, a := SettingsOf(c), Advance(c.consumer, Returned);
    Exec1(s, a, k);
    Exec2(s, a, a, k);
    hide OwnedBelow, Range, Assign, PendingIds, NewIds, Deliveries;
    if NewIds(r.db.main, c.count) != [] {
      trace := [a];
    } else {
      trace := [a, a];
    }
  }

  lemma RoundIsATrace(s: System, r: Run, arrivals: seq<Payment>, c: Config) returns (trace: seq<Label>)
    requires Refines(s, r, c) && WellFormed(r.db.main)
    ensures Refines(Exec(s, trace, SettingsOf(c)), Round(r, arrivals, c), c) && Solo(trace, c.consumer)
  {
    hide Step, Deliver, HandleBatch, Deliveries;
    var k := SettingsOf(c);
    ArrivalsAreATrace(s, arrivals, k);
    var s1 := Exec(s, Publishes(arrivals), k);
    var r1 := r.(db := r.db.(main := XAddAll(r.db.main, arrivals)));
    var reading := ReadIsATrace(s1, r1, c);
    assert r1.(db := Deliver(r1.db, c).0) == r.(db := Deliver(r1.db, c).0);
    var batch := BatchIsATrace(Exec(s1, reading, k), r1.(db := Deliver(r1.db, c).0), Deliver(r1.db, c).1, c);
    hide Exec;
    ExecAppend(s, Publishes(arrivals), reading, k);
    ExecAppend(s, Publishes(arrivals) + reading, batch, k);
    trace := Publishes(arrivals) + reading + batch;
  }

  /** Any number of turns of the loop is a run of the protocol. */
  lemma {:induction false} RunIsATrace(s: System, r: Run, arrivals: Arrivals, c: Config,
      n: nat) returns (trace: seq<Label>)
    requires Refines(s, r, c) && WellFormed(r.db.main)
    ensures Refines(Exec(s, trace, SettingsOf(c)), Rounds(r, arrivals, c, n), c) && Solo(trace, c.consumer)
  {
    hide Round, Step;
    trace := [];
    if n == 0 {
    } else {
      var before := RunIsATrace(s, r, arrivals, c, n - 1);
      var last := RoundIsATrace(Exec(s, before, SettingsOf(c)), Rounds(r, arrivals, c, n - 1), arrivals(n - 1), c);
      ExecAppend(s, before, last, SettingsOf(c));
      trace := before + last;
    }
  }
}
