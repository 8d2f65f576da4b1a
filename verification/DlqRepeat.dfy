/**
 The bound on repeated effects is attained everywhere: from any reachable state in which a consumer
 stands between the handler's return and the write to the processed set, a crash and a restart can
 lead to the same payment taking effect again.
 */
module DlqRepeat {
  import opened Streams
  import opened DlqModel
  import opened DlqProtocol
  import opened DlqEffects
  import opened DlqRefinement
  import DlqSafety

  function AlwaysReturns(): Handler {
    (k, p) => Returned
  }

  /** What a run still has to read or settle. */
  ghost function Left(r: Run): int {
    |r.db.main.log| - r.db.main.next + |r.db.main.pending|
  }

  /** Message `i` waits for the consumer, or its payment has been recorded. */
  ghost predicate WaitsOrRecorded(r: Run, i: nat, consumer: string) {
    && i < |r.db.main.log|
    && (r.db.main.log[i].paymentId in r.db.processed
        || (i in r.db.main.pending && r.db.main.pending[i] == consumer))
  }

  lemma SettleOne(r: Run, id: nat, c: Config)
    requires id < |r.db.main.log| && c.handler == AlwaysReturns()
    ensures var r' := HandleOne(r, id, c);
            && r'.db.main.pending == r.db.main.pending - {id} && r.db.processed <= r'.db.processed
            && r.db.main.log[id].paymentId in r'.db.processed
  {
  }

  /** With a handler that returns, every message of a batch is settled and its payment recorded. */
  lemma {:induction false} SettleBatch(r: Run, ids: seq<nat>, c: Config)
    requires InLog(ids, |r.db.main.log|) && c.handler == AlwaysReturns()
    ensures var r' := HandleBatch(r, ids, c);
            && (forall j :: j in r'.db.main.pending <==> j in r.db.main.pending && j !in ids)
            && (forall j :: j in r'.db.main.pending ==> r'.db.main.pending[j] == r.db.main.pending[j])
            && r.db.processed <= r'.db.processed
            && (forall id :: id in ids ==> r.db.main.log[id].paymentId in r'.db.processed)
    decreases |ids|
  {
    if ids == [] {
    } else {
      var r1 := HandleOne(r, ids[0], c);
      SettleOne(r, ids[0], c);
      SettleBatch(r1, ids[1..], c);
      assert HandleBatch(r, ids, c) == HandleBatch(r1, ids[1..], c);
      assert forall id :: id in ids <==> id == ids[0] || id in ids[1..];
      hide HandleOne, HandleBatch, AlwaysReturns;
    }
  }

  /** A batch of new messages: the rest of the pending list is as before. */
  lemma NewRound(r: Run, c: Config)
    requires WellFormed(r.db.main) && c.handler == AlwaysReturns() && NewIds(r.db.main, c.count) != []
    ensures var r' := Round(r, [], c);
            && r'.db.main.log == r.db.main.log && r'.db.main.next > r.db.main.next
            && r'.db.main.pending == r.db.main.pending && r.db.processed <= r'.db.processed
  {
    assert XAddAll(r.db.main, []) == r.db.main;
    assert r.db.(main := r.db.main) == r.db;
    var ids := NewIds(r.db.main, c.count);
    var read := r.(db := r.db.(main := XReadNew(r.db.main, c.consumer, c.count)));
    assert Deliver(r.db, c) == (read.db, ids);
    SettleBatch(read, ids, c);
    assert forall j :: j in r.db.main.pending ==> j !in ids;
    hide HandleBatch, NewIds, PendingIds, Assign, Range, AlwaysReturns;
    assert Round(r, [], c).db.main.pending == r.db.main.pending;
  }

  /** A batch of the consumer's own backlog leaves the pending list. */
  lemma BacklogTurn(r: Run, c: Config, i: nat)
    requires WellFormed(r.db.main) && c.handler == AlwaysReturns() && NewIds(r.db.main, c.count) == []
    requires c.count >= 1 && i in r.db.main.pending && r.db.main.pending[i] == c.consumer
    ensures var r' := Round(r, [], c);
            && r'.db.main.log == r.db.main.log && r'.db.main.next == r.db.main.next
            && r'.db.main.pending.Keys < r.db.main.pending.Keys && r.db.processed <= r'.db.processed
            && (i in r'.db.main.pending ==> r'.db.main.pending[i] == c.consumer)
            && (i !in r'.db.main.pending ==> r.db.main.log[i].paymentId in r'.db.processed)
  {
    assert XAddAll(r.db.main, []) == r.db.main && r.db.(main := r.db.main) == r.db;
    assert XReadNew(r.db.main, c.consumer, c.count) == r.db.main;
    var ids := PendingIds(r.db.main, c.consumer, c.count);
    PendingIdsEmpty(r.db.main, c.consumer, c.count);
    assert ids != [] && ids[0] in ids && ids[0] in r.db.main.pending;
    assert Deliver(r.db, c) == (r.db, ids) && r.(db := r.db) == r;
    assert InLog(ids, |r.db.main.log|);
    hide PendingIds, NewIds, HandleBatch, AlwaysReturns;
    SettleBatch(r, ids, c);
  }

  lemma FewerKeys(a: map<nat, string>, b: map<nat, string>)
    requires a.Keys < b.Keys
    ensures |a| < |b|
  {
    var k :| k in b.Keys && k !in a.Keys;
    KeysWithin(a.Keys, b.Keys - {k});
    assert |a| == |a.Keys| && |b| == |b.Keys|;
  }

  lemma {:induction false} KeysWithin(a: set<nat>, b: set<nat>)
    requires a <= b
    ensures |a| <= |b|
  {
    if a == {} {
    } else {
      var x :| x in a;
      KeysWithin(a - {x}, b - {x});
    }
  }

  lemma TurnProgress(r: Run, c: Config, i: nat)
    requires WellFormed(r.db.main) && c.handler == AlwaysReturns() && c.count >= 1
    requires WaitsOrRecorded(r, i, c.consumer) && i in r.db.main.pending && r.db.main.pending[i] == c.consumer
    ensures var r' := Round(r, [], c); WaitsOrRecorded(r', i, c.consumer) && Left(r') < Left(r)
  {
    RoundWellFormed(r, [], c);
    if NewIds(r.db.main, c.count) != [] {
      NewRound(r, c);
    } else {
      BacklogTurn(r, c, i);
      FewerKeys(Round(r, [], c).db.main.pending, r.db.main.pending);
    }
    hide Round, NewIds, AlwaysReturns;
  }

  lemma TurnKeeps(r: Run, c: Config, i: nat)
    requires WellFormed(r.db.main) && c.handler == AlwaysReturns()
    requires i < |r.db.main.log| && r.db.main.log[i].paymentId in r.db.processed
    ensures var r' := Round(r, [], c); i < |r'.db.main.log| && r'.db.main.log[i].paymentId in r'.db.processed
  {
    assert XAddAll(r.db.main, []) == r.db.main && r.db.(main := r.db.main) == r.db;
    var read := r.(db := Deliver(r.db, c).0);
    SettleBatch(read, Deliver(r.db, c).1, c);
    hide HandleBatch, NewIds, PendingIds, Assign, AlwaysReturns;
  }

  /** After `n` turns from `start` the message is recorded, or that much less is left. */
  ghost predicate Nearer(start: Run, r: Run, i: nat, consumer: string, n: nat) {
    && WaitsOrRecorded(r, i, consumer)
    && (r.db.main.log[i].paymentId in r.db.processed || Left(r) <= Left(start) - n)
  }

  lemma NearerStep(start: Run, r: Run, i: nat, c: Config, n: nat)
    requires WellFormed(r.db.main) && c.handler == AlwaysReturns() && c.count >= 1
    requires Nearer(start, r, i, c.consumer, n)
    ensures Nearer(start, Round(r, [], c), i, c.consumer, n + 1)
  {
    hide Round, Left, AlwaysReturns;
    if r.db.main.log[i].paymentId in r.db.processed {
      TurnKeeps(r, c, i);
    } else {
      TurnProgress(r, c, i);
    }
  }

  /** Left alone with a handler that returns, the consumer gets to the message and records its payment. */
  lemma {:induction false} EventuallyRecorded(db: Db, quiet: Arrivals, c: Config, i: nat, n: nat)
    requires WellFormed(db.main) && c.handler == AlwaysReturns() && c.count >= 1
    requires forall k :: quiet(k) == []
    requires WaitsOrRecorded(Fresh(db), i, c.consumer)
    ensures Nearer(Fresh(db), Rounds(Fresh(db), quiet, c, n), i, c.consumer, n)
    decreases n
  {
    hide Round, Nearer, AlwaysReturns;
    if n == 0 {
      FirstNearer(db, i, c);
    } else {
      assert quiet(n - 1) == [];
      EventuallyRecorded(db, quiet, c, i, n - 1);
      NearerStep(Fresh(db), Rounds(Fresh(db), quiet, c, n - 1), i, c, n - 1);
    }
  }

  lemma FirstNearer(db: Db, i: nat, c: Config)
    requires WaitsOrRecorded(Fresh(db), i, c.consumer)
    ensures Nearer(Fresh(db), Fresh(db), i, c.consumer, 0)
  {
  }

  /** Since `s` the payment has succeeded again, or it is neither recorded nor about to be. */
  ghost predicate Repeated(s: System, s': System, c: string, pid: string) {
    || Successes(s', c, pid) > Successes(s, c, pid)
    || (Successes(s', c, pid) == Successes(s, c, pid) && pid !in s'.db.processed
        && !(WorksOn(LocalOf(s', c), pid) && LocalOf(s', c).stage.Marking?))
  }

  lemma RepeatedWork(s: System, s': System, outcome: Outcome, k: Settings, c: string, pid: string)
    requires LocalOf(s', c).Busy? && Repeated(s, s', c, pid)
    ensures Repeated(s, BusyStep(s', c, LocalOf(s', c), outcome, k), c, pid)
  {
  }

  lemma RepeatedStep(s: System, s': System, l: Label, k: Settings, c: string, pid: string)
    requires s'.db.main.next <= |s'.db.main.log| && Repeated(s, s', c, pid) && (l.Publish? || l.consumer == c)
    ensures Repeated(s, Step(s', l, k), c, pid)
  {
    if l.Advance? && LocalOf(s', c).Busy? {
      RepeatedWork(s, s', l.outcome, k, c, pid);
    }
    hide BusyStep;
  }

  /** On its own a consumer records a payment only after another success for it. */
  lemma {:induction false} RecordingNeedsSuccess(s: System, trace: seq<Label>, k: Settings, c: string, pid: string)
    requires s.db.main.next <= |s.db.main.log| && Solo(trace, c)
    requires pid !in s.db.processed && LocalOf(s, c).Idle?
    ensures Repeated(s, Exec(s, trace, k), c, pid)
  {
    hide Step;
    if trace == [] {
    } else {
      RecordingNeedsSuccess(s, trace[..|trace| - 1], k, c, pid);
      hide Repeated;
      RepeatedStep(s, Exec(s, trace[..|trace| - 1], k), trace[|trace| - 1], k, c, pid);
    }
  }

  lemma AfterRestart(s: System, c: string, k: Settings)
    requires s.db.main.next <= |s.db.main.log| && !LocalOf(s, c).Down?
    ensures var s' := Exec(s, [Crash(c), Start(c)], k);
            && s'.db == s.db && LocalOf(s', c) == Idle(map[], [])
            && forall pid :: Successes(s', c, pid) == Successes(s, c, pid)
  {
    Exec2(s, Crash(c), Start(c), k);
    hide Exec;
  }

  /**
   From every reachable state in which `c` has the handler's return and has not recorded the payment:
   if it crashes there, its restart can complete the handler for the same payment again.
   */
  lemma CrashAfterReturnCanRepeat(trace: seq<Label>, k: Settings, c: string) returns (later: seq<Label>)
    requires var s := Exec(Initial(), trace, k); var u := LocalOf(s, c);
             u.Busy? && u.stage.Marking? && u.msg.payment.paymentId !in s.db.processed && k.count >= 1
    ensures Solo(later, c)
    ensures var s := Exec(Initial(), trace, k); var pid := LocalOf(s, c).msg.payment.paymentId;
            Successes(Exec(s, [Crash(c), Start(c)] + later, k), c, pid) > Successes(s, c, pid)
  {
    var s := Exec(Initial(), trace, k);
    var u := LocalOf(s, c);
    var i, pid := u.msg.id, u.msg.payment.paymentId;
    DlqSafety.RunHolds(trace, k);
    assert DlqSafety.Holds(s, c, u);
    assert i in s.db.main.pending && s.db.main.pending[i] == c;
    assert i < |s.db.main.log| && s.db.main.log[i].paymentId == pid;
    assert WellFormed(s.db.main);
    var s2 := Exec(s, [Crash(c), Start(c)], k);
    AfterRestart(s, c, k);
    var cfg := Config(c, k.count, k.maxAttempts, AlwaysReturns());
    var quiet: Arrivals := k => [];
    var r0 := Fresh(s.db);
    var n: nat := Left(r0) + 1;
    assert SettingsOf(cfg) == k && Refines(s2, r0, cfg) && WaitsOrRecorded(r0, i, c);
    later := ReachesRecord(s2, s.db, quiet, cfg, i, n);
    RecordingNeedsSuccess(s2, later, k, c, pid);
    ExecAppend(s, [Crash(c), Start(c)], later, k);
    hide Exec;
  }

  lemma ReachesRecord(s: System, db: Db, quiet: Arrivals, c: Config, i: nat, n: nat) returns (trace: seq<Label>)
    requires Refines(s, Fresh(db), c) && WellFormed(db.main) && c.handler == AlwaysReturns() && c.count >= 1
    requires forall k :: quiet(k) == []
    requires WaitsOrRecorded(Fresh(db), i, c.consumer) && n > Left(Fresh(db))
    ensures s.db == db && Solo(trace, c.consumer)
    ensures db.main.log[i].paymentId in Exec(s, trace, SettingsOf(c)).db.processed
  {
    hide Round, Exec, AlwaysReturns;
    trace := RunIsATrace(s, Fresh(db), quiet, c, n);
    EventuallyRecorded(db, quiet, c, i, n);
    SameLog(db, quiet, c, n);
  }

  lemma TurnKeepsLog(r: Run, c: Config)
    requires WellFormed(r.db.main)
    ensures Round(r, [], c).db.main.log == r.db.main.log
  {
    hide HandleBatch, NewIds, PendingIds, Assign;
  }

  lemma {:induction false} SameLog(db: Db, quiet: Arrivals, c: Config, n: nat)
    requires WellFormed(db.main) && forall k :: quiet(k) == []
    ensures Rounds(Fresh(db), quiet, c, n).db.main.log == db.main.log
    decreases n
  {
    hide Round;
    if n == 0 {
    } else {
      assert quiet(n - 1) == [];
      SameLog(db, quiet, c, n - 1);
      TurnKeepsLog(Rounds(Fresh(db), quiet, c, n - 1), c);
    }
  }
}
