/**
 Dead letters after a restart. Messages left pending by an earlier run start again with no
 failures counted, so they can be overtaken; exactly when depends on the budget and the batch size.
 */
module DlqRestart {
  import opened Streams
  import opened DlqModel
  import opened DlqDrain
  import opened DlqOrder

  ghost predicate Ascending(ids: seq<nat>) {
    forall a, b :: 0 <= a < b < |ids| ==> ids[a] < ids[b]
  }

  /** A run from `db` keeps its dead letters in publish order whatever the handler and the publishers do. */
  ghost predicate KeepsOrder(db: Db, consumer: string, count: nat, maxAttempts: int)
    requires WellFormed(db.main)
  {
    forall h: Handler, arrivals: Arrivals, n: nat ::
      Ascending(Rounds(Fresh(db), arrivals, Config(consumer, count, maxAttempts, h), n).dead)
  }

  // Batches of one and a budget of at least two.

  lemma OneNewNeverDies(r: Run, ids: seq<nat>, c: Config)
    requires Sound(r, c) && DeadInOrder(r) && c.maxAttempts >= 2 && |ids| == 1 && Held(r, ids)
    requires InLog(ids, |r.db.main.log|) && Attempts(r.attempts, ids[0]) == 0
    ensures DeadInOrder(HandleBatch(r, ids, c))
  {
    var id := ids[0];
    assert id in r.db.main.pending;
    DiesLive(r, id, c);
    DeliveryEndsLives(r, id, c);
    assert HandleBatch(r, ids, c) == HandleOne(r, id, c);
    hide HandleOne, HandleBatch, Live, Attempts;
  }

  lemma OldestDiesInOrder(r: Run, ids: seq<nat>, c: Config)
    requires Sound(r, c) && DeadInOrder(r) && |ids| == 1 && Held(r, ids)
    requires InLog(ids, |r.db.main.log|) && forall i :: i in r.db.main.pending ==> i >= ids[0]
    ensures DeadInOrder(HandleBatch(r, ids, c))
  {
    var id := ids[0];
    assert id in r.db.main.pending && id < r.db.main.next;
    DiesLive(r, id, c);
    DeliveryEndsLives(r, id, c);
    var r' := HandleOne(r, id, c);
    assert HandleBatch(r, ids, c) == r';
    forall i: nat | Live(r'.db, i) ensures Live(r.db, i) && i in r.db.main.pending {
    }
    hide HandleOne, HandleBatch, Live, Attempts;
  }

  lemma OneByOneRound(r: Run, arrivals: seq<Payment>, c: Config)
    requires Sound(r, c) && DeadInOrder(r) && c.count == 1 && c.maxAttempts >= 2
    ensures Sound(Round(r, arrivals, c), c) && DeadInOrder(Round(r, arrivals, c))
  {
    OneRound(r, arrivals, c);
    var read, ids := RoundParts(r, arrivals, c);
    var p := Publish(r, arrivals);
    PublishKeepsDead(r, arrivals, c);
    DeadOnNew(p, c);
    NewAreUntried(p, c);
    StretchOnPending(p, c);
    assert read.attempts == p.attempts;
    if NewIds(p.db.main, 1) != [] {
      assert ids == NewIds(p.db.main, 1) && ids[0] in read.db.main.pending && ids[0] >= p.db.main.next;
      hide Round, HandleBatch, Deliver, ReadNew, Sound, DeadInOrder, Held, Publish, PendingIds;
      OneNewNeverDies(read, ids, c);
    } else {
      assert read == p && ids == PendingIds(p.db.main, c.consumer, 1);
      hide Round, HandleBatch, Deliver, ReadNew, Sound, DeadInOrder, Held, Publish, PendingIds;
      if ids != [] {
        OldestDiesInOrder(read, ids, c);
      } else {
        assert HandleBatch(read, ids, c) == read by {
          EmptyBatch(read, c);
        }
      }
    }
  }

  lemma EmptyBatch(r: Run, c: Config)
    ensures HandleBatch(r, [], c) == r
  {
  }

  lemma PublishKeepsDead(r: Run, arrivals: seq<Payment>, c: Config)
    requires Sound(r, c) && DeadInOrder(r)
    ensures DeadInOrder(Publish(r, arrivals))
  {
    var p := Publish(r, arrivals);
    forall k, i: nat | 0 <= k < |p.dead| && Live(p.db, i) ensures p.dead[k] < i {
      PublishKeepsLives(r, arrivals, i);
    }
    hide Live;
  }

  /**
   Batches of one and at least two attempts: from any start, whatever is pending, dead letters keep
   publish order.
   */
  lemma {:induction false} OneByOneKeepsOrder(db: Db, arrivals: Arrivals, c: Config, n: nat)
    requires WellFormed(db.main) && OnlyConsumer(db, c.consumer) && c.count == 1 && c.maxAttempts >= 2
    ensures var r := Rounds(Fresh(db), arrivals, c, n); Sound(r, c) && DeadInOrder(r) && Ascending(r.dead)
    decreases n
  {
    hide Round;
    if n == 0 {
    } else {
      hide DeadInOrder, Sound;
      OneByOneKeepsOrder(db, arrivals, c, n - 1);
      OneByOneRound(Rounds(Fresh(db), arrivals, c, n - 1), arrivals(n - 1), c);
      DeadAscend(Rounds(Fresh(db), arrivals, c, n));
    }
  }

  lemma DeadAscend(r: Run)
    requires DeadInOrder(r)
    ensures Ascending(r.dead)
  {
  }

  // A budget of one.

  function AlwaysRaises(): Handler {
    (k, p) => Raised("poison")
  }

  ghost predicate Unprocessed(db: Db, i: nat) {
    i < |db.main.log| && db.main.log[i].paymentId !in db.processed
  }

  lemma BuryOne(r: Run, id: nat, c: Config)
    requires id < |r.db.main.log| && c.maxAttempts <= 1 && c.handler == AlwaysRaises()
    ensures var r' := HandleOne(r, id, c);
            && r'.db.processed == r.db.processed && r'.db.main.pending == r.db.main.pending - {id}
            && r'.dead == r.dead + if Unprocessed(r.db, id) then [id] else []
  {
  }

  /** Every message of a batch leaves the pending list, and the unprocessed ones die in this batch. */
  lemma {:induction false} BuryBatch(r: Run, ids: seq<nat>, c: Config)
    requires InLog(ids, |r.db.main.log|) && c.maxAttempts <= 1 && c.handler == AlwaysRaises()
    ensures var r' := HandleBatch(r, ids, c);
            && r'.db.processed == r.db.processed
            && (forall j :: j in r'.db.main.pending <==> j in r.db.main.pending && j !in ids)
            && r.dead <= r'.dead
            && (forall id :: id in ids && Unprocessed(r.db, id) ==> id in r'.dead[|r.dead|..])
    decreases |ids|
  {
    if ids == [] {
    } else {
      var r1 := HandleOne(r, ids[0], c);
      BuryOne(r, ids[0], c);
      BuryBatch(r1, ids[1..], c);
      var r' := HandleBatch(r, ids, c);
      assert r' == HandleBatch(r1, ids[1..], c);
      hide HandleOne, HandleBatch;
      forall id | id in ids && Unprocessed(r.db, id) ensures id in r'.dead[|r.dead|..] {
        if id in ids[1..] {
          assert Unprocessed(r1.db, id);
          assert r'.dead[|r1.dead|..] == r'.dead[|r.dead|..][|r1.dead| - |r.dead|..];
        } else {
          assert id == ids[0] && r1.dead[|r.dead|] == id && r'.dead[|r.dead|] == id;
        }
      }
    }
  }

  /** `late` died before `early` did. */
  ghost predicate Overtook(dead: seq<nat>, late: nat, early: nat) {
    exists a, b :: 0 <= a < b < |dead| && dead[a] == late && dead[b] == early
  }

  lemma OvertakingLasts(dead: seq<nat>, dead': seq<nat>, late: nat, early: nat)
    requires Overtook(dead, late, early) && dead <= dead'
    ensures Overtook(dead', late, early)
  {
    var a, b :| 0 <= a < b < |dead| && dead[a] == late && dead[b] == early;
    assert dead'[a] == late && dead'[b] == early;
  }

  lemma DiesAfter(dead: seq<nat>, dead': seq<nat>, late: nat, early: nat)
    requires late in dead && dead <= dead' && early in dead'[|dead|..]
    ensures Overtook(dead', late, early)
  {
    var a :| 0 <= a < |dead| && dead[a] == late;
    var b :| 0 <= b < |dead'[|dead|..]| && dead'[|dead|..][b] == early;
    assert dead'[a] == late && dead'[|dead| + b] == early;
  }

  /** An old live message `i` and a message `m` not delivered yet, in a run whose handler always raises. */
  ghost predicate Race(r: Run, i: nat, m: nat) {
    && i < m && Unprocessed(r.db, i) && Unprocessed(r.db, m)
    && i < r.db.main.next
    && (m < r.db.main.next ==> m in r.dead)
    && (i in r.db.main.pending || Overtook(r.dead, m, i))
  }

  lemma RaceInBatch(r: Run, read: Run, ids: seq<nat>, i: nat, m: nat, c: Config)
    requires InLog(ids, |read.db.main.log|) && c.maxAttempts <= 1 && c.handler == AlwaysRaises()
    requires Race(r, i, m) && read.dead == r.dead && read.db.processed == r.db.processed
    requires read.db.main.log == r.db.main.log && read.db.main.next >= r.db.main.next
    requires i in r.db.main.pending ==> i in read.db.main.pending
    requires r.db.main.next <= m < read.db.main.next ==> m in ids
    requires i in ids ==> m < r.db.main.next
    ensures Race(HandleBatch(read, ids, c), i, m)
  {
    BuryBatch(read, ids, c);
    var r' := HandleBatch(read, ids, c);
    assert r'.db.main.next == read.db.main.next && r'.db.main.log == r.db.main.log;
    hide HandleBatch, Overtook;
    if m < r'.db.main.next && m !in r.dead {
      assert m in r'.dead[|read.dead|..];
    }
    if i in r.db.main.pending {
      if i in ids {
        DiesAfter(r.dead, r'.dead, m, i);
      }
    } else {
      OvertakingLasts(r.dead, r'.dead, m, i);
    }
  }

  lemma RaceInRound(r: Run, i: nat, m: nat, c: Config)
    requires Sound(r, c) && Race(r, i, m) && c.count >= 1 && c.maxAttempts <= 1 && c.handler == AlwaysRaises()
    ensures Race(Round(r, [], c), i, m)
  {
    PublishNothing(r);
    var read, ids := RoundParts(r, [], c);
    var fresh_ids := NewIds(r.db.main, c.count);
    assert read.db.processed == r.db.processed && read.dead == r.dead && read.db.main.log == r.db.main.log;
    assert i in r.db.main.pending ==> i in read.db.main.pending;
    if fresh_ids != [] {
      assert ids == fresh_ids;
      assert r.db.main.next <= m < read.db.main.next ==> fresh_ids[m - r.db.main.next] == m;
    }
    hide Round, HandleBatch, Deliver, ReadNew, Sound, Race, PendingIds, Assign, NewIds, Range;
    RaceInBatch(r, read, ids, i, m, c);
  }

  lemma {:induction false} RaceInRun(db: Db, arrivals: Arrivals, i: nat, m: nat, c: Config, n: nat)
    requires WellFormed(db.main) && OnlyConsumer(db, c.consumer) && Race(Fresh(db), i, m) && Quiet(arrivals)
    requires c.count >= 1 && c.maxAttempts <= 1 && c.handler == AlwaysRaises()
    ensures Race(Rounds(Fresh(db), arrivals, c, n), i, m)
    decreases n
  {
    hide Round, Race, Sound;
    if n == 0 {
    } else {
      RaceInRun(db, arrivals, i, m, c, n - 1);
      RunAccounts(db, arrivals, c, n - 1);
      assert arrivals(n - 1) == [];
      RaceInRound(Rounds(Fresh(db), arrivals, c, n - 1), i, m, c);
    }
  }

  /** One message published before the first turn, and nothing after it. */
  ghost predicate OneArrival(arrivals: Arrivals, p: Payment) {
    arrivals(0) == [p] && forall k: nat :: k > 0 ==> arrivals(k) == []
  }

  lemma ArrivalsAt(arrivals: Arrivals, p: Payment, k: nat)
    requires OneArrival(arrivals, p)
    ensures arrivals(k) == if k == 0 then [p] else []
  {
  }

  lemma RoundsNext(db: Db, arrivals: Arrivals, c: Config, n: nat, arriving: seq<Payment>)
    requires WellFormed(db.main) && n > 0 && arrivals(n - 1) == arriving
    ensures Rounds(Fresh(db), arrivals, c, n) == Round(Rounds(Fresh(db), arrivals, c, n - 1), arriving, c)
  {
    hide Round, WellFormed;
  }

  lemma NoRounds(db: Db, arrivals: Arrivals, c: Config)
    requires WellFormed(db.main)
    ensures Rounds(Fresh(db), arrivals, c, 0) == Fresh(db)
  {
  }

  /** `db` with one more message published. */
  function WithOne(db: Db, p: Payment): Db {
    db.(main := XAddAll(db.main, [p]))
  }

  /** A run of `db` with one arrival and a quiet run of the database that already has it. */
  ghost predicate SameRun(db: Db, p: Payment, a: Arrivals, quiet: Arrivals, c: Config, n: nat) {
    && WellFormed(db.main) && WellFormed(WithOne(db, p).main)
    && Rounds(Fresh(db), a, c, n) == Rounds(Fresh(WithOne(db, p)), quiet, c, n)
  }

  lemma SameFirstRound(db: Db, p: Payment, a: Arrivals, quiet: Arrivals, c: Config)
    requires WellFormed(db.main) && OneArrival(a, p) && Quiet(quiet)
    ensures SameRun(db, p, a, quiet, c, 1)
  {
    PublishedRound(db, p, c);
    ArrivalsAt(a, p, 0);
    assert quiet(0) == [];
    NoRounds(db, a, c);
    NoRounds(WithOne(db, p), quiet, c);
    RoundsNext(db, a, c, 1, [p]);
    RoundsNext(WithOne(db, p), quiet, c, 1, []);
    hide Round, Rounds, OneArrival, Quiet;
  }

  lemma SameNextRound(db: Db, p: Payment, a: Arrivals, quiet: Arrivals, c: Config, n: nat)
    requires n > 1 && OneArrival(a, p) && Quiet(quiet) && SameRun(db, p, a, quiet, c, n - 1)
    ensures SameRun(db, p, a, quiet, c, n)
  {
    ArrivalsAt(a, p, n - 1);
    assert quiet(n - 1) == [];
    RoundsNext(db, a, c, n, []);
    RoundsNext(WithOne(db, p), quiet, c, n, []);
    hide Round, Rounds, OneArrival, Quiet, WithOne;
  }

  /** Publishing first and then running alone is a run with one arrival. */
  lemma {:induction false} PublishedFirst(db: Db, p: Payment, a: Arrivals, quiet: Arrivals, c: Config, n: nat)
    requires WellFormed(db.main) && n > 0 && OneArrival(a, p) && Quiet(quiet)
    ensures SameRun(db, p, a, quiet, c, n)
    decreases n
  {
    hide *;
    if n == 1 {
      SameFirstRound(db, p, a, quiet, c);
    } else {
      PublishedFirst(db, p, a, quiet, c, n - 1);
      SameNextRound(db, p, a, quiet, c, n);
    }
  }

  lemma PublishedRound(db: Db, p: Payment, c: Config)
    requires WellFormed(db.main)
    ensures var db' := WithOne(db, p);
            WellFormed(db'.main) && Round(Fresh(db), [p], c) == Round(Fresh(db'), [], c)
  {
    var db' := WithOne(db, p);
    assert XAddAll(db'.main, []) == db'.main;
    hide HandleBatch, Deliver;
  }

  /** With a budget of one a live message left over from an earlier run is overtaken by the next one published. */
  lemma LiveLeftoverIsOvertaken(db: Db, i: nat, a: Arrivals, c: Config) returns (n: nat)
    requires WellFormed(db.main) && OnlyConsumer(db, c.consumer) && Live(db, i) && OneArrival(a, db.main.log[i])
    requires c.count >= 1 && c.maxAttempts <= 1 && c.handler == AlwaysRaises()
    ensures !Ascending(Rounds(Fresh(db), a, c, n).dead)
  {
    var p := db.main.log[i];
    var quiet: Arrivals := k => [];
    n := |db.main.pending| + 2 * (|db.main.log| + 1 - db.main.next);
    assert n > 0 && Quiet(quiet) && i < |db.main.log|;
    RacesToTheEnd(db, i, quiet, c, n);
    PublishedFirst(db, p, a, quiet, c, n);
    hide Rounds, Quiet, OneArrival, Overtook, Ascending, Live, WithOne;
    OvertakenIsNotAscending(Rounds(Fresh(WithOne(db, p)), quiet, c, n).dead, |db.main.log|, i);
  }

  lemma RacesToTheEnd(db: Db, i: nat, quiet: Arrivals, c: Config, n: nat)
    requires WellFormed(db.main) && OnlyConsumer(db, c.consumer) && Live(db, i) && Quiet(quiet)
    requires c.count >= 1 && c.maxAttempts <= 1 && c.handler == AlwaysRaises()
    requires n == |db.main.pending| + 2 * (|db.main.log| + 1 - db.main.next)
    ensures var db' := WithOne(db, db.main.log[i]);
            && i < |db.main.log| && WellFormed(db'.main)
            && Overtook(Rounds(Fresh(db'), quiet, c, n).dead, |db.main.log|, i)
  {
    var p, m := db.main.log[i], |db.main.log|;
    var db' := WithOne(db, p);
    assert Budget(c.maxAttempts) == 1;
    assert i < db.main.next && db'.main.log[m] == p && db'.main.log[i] == p;
    assert Race(Fresh(db'), i, m);
    hide Rounds, Quiet, Overtook, Live;
    Drains(db', quiet, c, n);
    RaceInRun(db', quiet, i, m, c, n);
  }

  lemma OvertakenIsNotAscending(dead: seq<nat>, late: nat, early: nat)
    requires Overtook(dead, late, early) && early < late
    ensures !Ascending(dead)
  {
    var x, y :| 0 <= x < y < |dead| && dead[x] == late && dead[y] == early;
  }

  /**
   With a budget of one, dead letters keep publish order for every handler and schedule if and only
   if nothing live is pending at the start: every pending payment is already processed.
   */
  lemma SingleAttemptKeepsOrderIff(db: Db, consumer: string, count: nat, maxAttempts: int)
    requires WellFormed(db.main) && OnlyConsumer(db, consumer) && count >= 1 && maxAttempts <= 1
    ensures KeepsOrder(db, consumer, count, maxAttempts) <==> forall i: nat :: !Live(db, i)
  {
    if forall i: nat :: !Live(db, i) {
      forall h: Handler, arrivals: Arrivals, n: nat
        ensures Ascending(Rounds(Fresh(db), arrivals, Config(consumer, count, maxAttempts, h), n).dead)
      {
        DeadLettersKeepOrder(db, arrivals, Config(consumer, count, maxAttempts, h), n);
        DeadAscend(Rounds(Fresh(db), arrivals, Config(consumer, count, maxAttempts, h), n));
      }
    } else {
      var i: nat :| Live(db, i);
      var c := Config(consumer, count, maxAttempts, AlwaysRaises());
      var a: Arrivals := k => if k == 0 then [db.main.log[i]] else [];
      var n := LiveLeftoverIsOvertaken(db, i, a, c);
    }
    hide Rounds, Ordered, Live, DeadInOrder;
  }

  // Larger batches and a larger budget.

  /** What one delivery or none does to message `j` when the handler always raises. */
  ghost predicate RaisedAt(r: Run, r': Run, handled: bool, c: Config, j: nat) {
    var attempt := Attempts(r.attempts, j) + 1;
    if !handled then
      (j in r'.db.main.pending <==> j in r.db.main.pending) && Attempts(r'.attempts, j) == Attempts(r.attempts, j)
    else if !Unprocessed(r.db, j) then
      j !in r'.db.main.pending
    else if attempt < c.maxAttempts then
      (j in r'.db.main.pending <==> j in r.db.main.pending) && Attempts(r'.attempts, j) == attempt
    else
      j !in r'.db.main.pending && |r.dead| <= |r'.dead| && j in r'.dead[|r.dead|..]
  }

  /** Deliveries leave the log and, when nothing succeeds, the processed set as they are; the dead only grow. */
  ghost predicate SameStart(r: Run, r': Run) {
    && r'.db.processed == r.db.processed && r'.db.main.log == r.db.main.log && r'.db.main.next == r.db.main.next
    && r.dead <= r'.dead
  }

  lemma RaiseOne(r: Run, id: nat, c: Config, j: nat)
    requires id < |r.db.main.log| && c.handler == AlwaysRaises()
    ensures var r' := HandleOne(r, id, c); SameStart(r, r') && RaisedAt(r, r', j == id, c, j)
  {
  }

  /** Handled once and then left alone, or left alone and then handled. */
  lemma RaisedTwice(r: Run, r1: Run, r': Run, first: bool, second: bool, c: Config, j: nat)
    requires SameStart(r, r1) && SameStart(r1, r') && !(first && second)
    requires RaisedAt(r, r1, first, c, j) && RaisedAt(r1, r', second, c, j)
    ensures SameStart(r, r') && RaisedAt(r, r', first || second, c, j)
  {
    assert Unprocessed(r.db, j) <==> Unprocessed(r1.db, j);
    if first && j in r1.dead[|r.dead|..] {
      var k :| 0 <= k < |r1.dead[|r.dead|..]| && r1.dead[|r.dead|..][k] == j;
      assert r'.dead[|r.dead|..][k] == j;
    }
    if second && j in r'.dead[|r1.dead|..] {
      var k :| 0 <= k < |r'.dead[|r1.dead|..]| && r'.dead[|r1.dead|..][k] == j;
      assert r'.dead[|r.dead|..][|r1.dead| - |r.dead| + k] == j;
    }
    hide Attempts, Unprocessed;
  }

  lemma {:induction false} RaiseBatch(r: Run, ids: seq<nat>, c: Config, j: nat)
    requires InLog(ids, |r.db.main.log|) && Ascending(ids) && c.handler == AlwaysRaises()
    ensures var r' := HandleBatch(r, ids, c); SameStart(r, r') && RaisedAt(r, r', j in ids, c, j)
    decreases |ids|
  {
    if ids == [] {
    } else {
      var r1 := HandleOne(r, ids[0], c);
      RaiseOne(r, ids[0], c, j);
      RaiseBatch(r1, ids[1..], c, j);
      assert HandleBatch(r, ids, c) == HandleBatch(r1, ids[1..], c);
      assert j in ids <==> j == ids[0] || j in ids[1..];
      hide HandleOne, HandleBatch, RaisedAt, SameStart;
      RaisedTwice(r, r1, HandleBatch(r1, ids[1..], c), j == ids[0], j in ids[1..], c, j);
    }
  }

  lemma {:induction false} AscendingWithin(ids: seq<nat>, within: set<nat>)
    requires Ascending(ids) && forall k :: 0 <= k < |ids| ==> ids[k] in within
    ensures |ids| <= |within|
  {
    if ids == [] {
    } else {
      var n := |ids| - 1;
      AscendingWithin(ids[..n], within - {ids[n]});
    }
  }

  /** A message with fewer than a page of the reader's messages before it is on the page. */
  lemma OnThePage(s: Stream<Payment>, consumer: string, count: nat, x: nat, before: set<nat>)
    requires x in s.pending && s.pending[x] == consumer && x < s.next && |before| < count
    requires forall j :: j in s.pending && j < x ==> j in before
    ensures x in PendingIds(s, consumer, count)
  {
    var own, ids := OwnedBelow(s.pending, consumer, s.next), PendingIds(s, consumer, count);
    assert x in own;
    if x !in ids {
      assert |ids| == count;
      AscendingWithin(ids, before);
    }
  }

  /**
   A run alone from `db`: `i` is a live leftover, `m` the first live message not delivered yet, and the
   leftovers do not fill a page.
   */
  ghost predicate Scene(db: Db, i: nat, m: nat, c: Config) {
    && WellFormed(db.main) && OnlyConsumer(db, c.consumer) && Live(db, i)
    && db.main.next <= m && Unprocessed(db, m) && (forall j: nat :: db.main.next <= j < m ==> !Unprocessed(db, j))
    && |db.main.pending| < c.count && c.maxAttempts >= 2 && c.handler == AlwaysRaises()
  }

  /** Before `m` only leftovers are pending, and `i` is one of them, `t` failures behind its budget's start. */
  ghost predicate Behind(r: Run, db: Db, i: nat, m: nat, c: Config, t: nat) {
    && Sound(r, c) && r.db.main.log == db.main.log && r.db.processed == db.processed && db.main.next <= r.db.main.next
    && i in r.db.main.pending && Attempts(r.attempts, i) == t
    && (forall j :: j in r.db.main.pending && j < m ==> j in db.main.pending)
  }

  /** Once delivered, `m` is one failure ahead of `i`. */
  ghost predicate Ahead(r: Run, m: nat, t: nat) {
    m in r.db.main.pending && Attempts(r.attempts, m) == t + 1
  }

  ghost predicate Arriving(r: Run, db: Db, i: nat, m: nat, c: Config) {
    Behind(r, db, i, m, c, 0) && (m < r.db.main.next ==> Ahead(r, m, 0))
  }

  /** `read` is `r` after a read that handed out the new messages `ids`. */
  ghost predicate FreshRead(r: Run, read: Run, ids: seq<nat>) {
    && read.attempts == r.attempts && read.dead == r.dead && read.db.processed == r.db.processed
    && read.db.main.log == r.db.main.log && read.db.main.next == r.db.main.next + |ids|
    && Ascending(ids) && InLog(ids, |r.db.main.log|)
    && (forall j: nat :: j in ids <==> r.db.main.next <= j < read.db.main.next)
    && (forall j: nat :: j in read.db.main.pending <==> j in r.db.main.pending || j in ids)
  }

  lemma ReadIsFresh(r: Run, c: Config)
    requires WellFormed(r.db.main)
    ensures FreshRead(r, ReadNew(r, c), NewIds(r.db.main, c.count))
  {
    var ids, read := NewIds(r.db.main, c.count), ReadNew(r, c);
    forall j: nat ensures j in ids <==> r.db.main.next <= j < read.db.main.next {
      assert r.db.main.next <= j < read.db.main.next ==> ids[j - r.db.main.next] == j;
    }
    hide Assign, Range, NewIds;
  }

  lemma NewBatch(r: Run, c: Config) returns (read: Run, ids: seq<nat>)
    requires Sound(r, c) && NewIds(r.db.main, c.count) != []
    ensures ids == NewIds(r.db.main, c.count) && FreshRead(r, read, ids)
    ensures InLog(ids, |read.db.main.log|) && Round(r, [], c) == HandleBatch(read, ids, c)
  {
    PublishNothing(r);
    read, ids := RoundParts(r, [], c);
    assert WellFormed(r.db.main);
    ReadIsFresh(r, c);
    hide Round, HandleBatch, ReadNew, NewIds, PendingIds, FreshRead, Sound, XReadNew;
  }

  lemma UntriedIsZero(r: Run, c: Config, j: nat)
    requires Sound(r, c) && j >= r.db.main.next
    ensures Attempts(r.attempts, j) == 0
  {
  }

  lemma NothingBefore(r: Run, read: Run, ids: seq<nat>, db: Db, i: nat, m: nat, c: Config, j: nat)
    requires Scene(db, i, m, c) && Behind(r, db, i, m, c, 0) && FreshRead(r, read, ids)
    requires InLog(ids, |read.db.main.log|) && j < m && j in HandleBatch(read, ids, c).db.main.pending
    ensures j in db.main.pending
  {
    RaiseBatch(read, ids, c, j);
    assert r.db.main.log == db.main.log && db.main.next <= r.db.main.next;
    assert j in ids ==> !Unprocessed(db, j);
    assert Unprocessed(read.db, j) <==> Unprocessed(db, j);
    hide HandleBatch, Attempts, Sound, AlwaysRaises, OnlyConsumer;
  }

  lemma StillBehind(r: Run, read: Run, ids: seq<nat>, db: Db, i: nat, m: nat, c: Config)
    requires Scene(db, i, m, c) && Behind(r, db, i, m, c, 0) && FreshRead(r, read, ids)
    requires InLog(ids, |read.db.main.log|) && Sound(HandleBatch(read, ids, c), c)
    ensures Behind(HandleBatch(read, ids, c), db, i, m, c, 0)
  {
    var r' := HandleBatch(read, ids, c);
    RaiseBatch(read, ids, c, i);
    assert i < r.db.main.next && i !in ids;
    forall j | j in r'.db.main.pending && j < m ensures j in db.main.pending {
      NothingBefore(r, read, ids, db, i, m, c, j);
    }
    hide HandleBatch, Attempts, Sound, AlwaysRaises, OnlyConsumer, Scene;
  }

  lemma FirstOfNew(r: Run, read: Run, ids: seq<nat>, db: Db, i: nat, m: nat, c: Config)
    requires Scene(db, i, m, c) && Arriving(r, db, i, m, c) && FreshRead(r, read, ids)
    requires InLog(ids, |read.db.main.log|) && m < read.db.main.next
    ensures Ahead(HandleBatch(read, ids, c), m, 0)
  {
    RaiseBatch(read, ids, c, m);
    if m >= r.db.main.next {
      UntriedIsZero(r, c, m);
    }
    assert Unprocessed(read.db, m);
    hide HandleBatch, Attempts, Sound, AlwaysRaises, OnlyConsumer, Unprocessed;
  }

  lemma ArrivingRound(r: Run, db: Db, i: nat, m: nat, c: Config)
    requires Scene(db, i, m, c) && Arriving(r, db, i, m, c) && r.db.main.next < |r.db.main.log|
    ensures Arriving(Round(r, [], c), db, i, m, c) && Round(r, [], c).db.main.next > r.db.main.next
  {
    OneRound(r, [], c);
    assert NewIds(r.db.main, c.count) != [];
    var read, ids := NewBatch(r, c);
    assert |ids| > 0;
    hide Round, HandleBatch, Attempts, NewIds, Sound, Scene, Behind;
    StillBehind(r, read, ids, db, i, m, c);
    if m < read.db.main.next {
      FirstOfNew(r, read, ids, db, i, m, c);
    }
  }

  lemma RoundIsSound(r: Run, c: Config)
    requires Sound(r, c)
    ensures Sound(Round(r, [], c), c)
  {
    OneRound(r, [], c);
    hide *;
  }

  lemma NothingNew(s: Stream<Payment>, count: nat)
    requires s.next == |s.log|
    ensures NewIds(s, count) == []
  {
  }

  lemma BothOnThePage(r: Run, db: Db, i: nat, m: nat, c: Config, t: nat)
    requires Scene(db, i, m, c) && Behind(r, db, i, m, c, t) && Ahead(r, m, t) && i < m
    ensures var ids := PendingIds(r.db.main, c.consumer, c.count); i in ids && m in ids
  {
    var leftovers := set j | j in db.main.pending;
    assert leftovers == db.main.pending.Keys;
    OnThePage(r.db.main, c.consumer, c.count, i, leftovers);
    OnThePage(r.db.main, c.consumer, c.count, m, leftovers);
    hide PendingIds, Attempts, AlwaysRaises;
  }

  lemma BehindOnPage(r: Run, ids: seq<nat>, db: Db, i: nat, m: nat, c: Config, t: nat)
    requires Scene(db, i, m, c) && Behind(r, db, i, m, c, t) && i in ids && t + 1 < c.maxAttempts
    requires InLog(ids, |r.db.main.log|) && Ascending(ids) && Sound(HandleBatch(r, ids, c), c)
    ensures Behind(HandleBatch(r, ids, c), db, i, m, c, t + 1)
  {
    var r' := HandleBatch(r, ids, c);
    RaiseBatch(r, ids, c, i);
    assert Unprocessed(r.db, i);
    hide HandleBatch, Attempts, Sound, AlwaysRaises, OnlyConsumer, Unprocessed;
    forall j | j in r'.db.main.pending && j < m ensures j in db.main.pending {
      RaiseBatch(r, ids, c, j);
      assert j in r.db.main.pending;
    }
  }

  lemma AheadOnPage(r: Run, ids: seq<nat>, db: Db, i: nat, m: nat, c: Config, t: nat)
    requires Scene(db, i, m, c) && Behind(r, db, i, m, c, t) && Ahead(r, m, t) && m in ids
    requires InLog(ids, |r.db.main.log|) && Ascending(ids)
    ensures var r' := HandleBatch(r, ids, c);
            if t + 2 < c.maxAttempts then Ahead(r', m, t + 1) else m in r'.dead
  {
    RaiseBatch(r, ids, c, m);
    assert Unprocessed(r.db, m);
    hide HandleBatch, Attempts, Sound, AlwaysRaises, OnlyConsumer, Unprocessed;
  }

  /** A turn on the backlog: both fail once more, and `m` may die of it before `i` does. */
  lemma ChaseRound(r: Run, db: Db, i: nat, m: nat, c: Config, t: nat)
    requires Scene(db, i, m, c) && Behind(r, db, i, m, c, t) && Ahead(r, m, t) && i < m
    requires r.db.main.next == |r.db.main.log| && t + 1 < c.maxAttempts
    ensures var r' := Round(r, [], c);
            && Behind(r', db, i, m, c, t + 1) && r'.db.main.next == |r'.db.main.log|
            && (if t + 2 < c.maxAttempts then Ahead(r', m, t + 1) else m in r'.dead)
  {
    RoundIsSound(r, c);
    BothOnThePage(r, db, i, m, c, t);
    var ids := PendingIds(r.db.main, c.consumer, c.count);
    assert InLog(ids, |r.db.main.log|) && Ascending(ids) && WellFormed(r.db.main);
    NothingNew(r.db.main, c.count);
    QuietTurn(r, c);
    hide Round, Attempts, Sound, PendingIds, Scene, Behind, Ahead, NewIds, Budget, Backlog, CallsLeft;
    BehindOnPage(r, ids, db, i, m, c, t);
    AheadOnPage(r, ids, db, i, m, c, t);
    assert HandleBatch(r, ids, c).db.main.log == r.db.main.log;
    hide HandleBatch;
  }

  /** `m` is dead and `i` is not, or died after it. */
  ghost predicate Outlived(r: Run, i: nat, m: nat) {
    && i < r.db.main.next <= |r.db.main.log| && Unprocessed(r.db, i) && m in r.dead
    && (i in r.db.main.pending || Overtook(r.dead, m, i))
  }

  lemma OutlivedInBatch(r: Run, read: Run, ids: seq<nat>, c: Config, i: nat, m: nat)
    requires InLog(ids, |read.db.main.log|) && Ascending(ids) && c.handler == AlwaysRaises() && i < m
    requires Outlived(r, i, m) && read.dead == r.dead && read.db.processed == r.db.processed
    requires read.db.main.log == r.db.main.log && r.db.main.next <= read.db.main.next <= |read.db.main.log|
    requires i in r.db.main.pending ==> i in read.db.main.pending
    ensures Outlived(HandleBatch(read, ids, c), i, m)
  {
    var r' := HandleBatch(read, ids, c);
    RaiseBatch(read, ids, c, i);
    assert Unprocessed(read.db, i) && m in r'.dead;
    hide HandleBatch, Attempts, Overtook, AlwaysRaises;
    if i in r.db.main.pending {
      if i !in r'.db.main.pending {
        DiesAfter(r.dead, r'.dead, m, i);
      }
    } else {
      OvertakingLasts(r.dead, r'.dead, m, i);
    }
  }

  /** The order is lost once `m` is dead: `i` can only die after it. */
  lemma OutlivedRound(r: Run, c: Config, i: nat, m: nat)
    requires Sound(r, c) && Outlived(r, i, m) && i < m && c.handler == AlwaysRaises()
    ensures Outlived(Round(r, [], c), i, m)
  {
    if NewIds(r.db.main, c.count) != [] {
      var read, ids := NewBatch(r, c);
      assert WellFormed(r.db.main) && read.db.main.next <= |read.db.main.log|;
      hide Round, HandleBatch, NewIds, Sound, Outlived;
      OutlivedInBatch(r, read, ids, c, i, m);
    } else {
      var ids := PendingIds(r.db.main, c.consumer, c.count);
      assert InLog(ids, |r.db.main.log|) && Ascending(ids) && WellFormed(r.db.main);
      QuietTurn(r, c);
      hide Round, HandleBatch, NewIds, PendingIds, Sound;
      OutlivedInBatch(r, r, ids, c, i, m);
    }
  }

  /** A turn that finds nothing new handles the backlog. */
  lemma QuietTurn(r: Run, c: Config)
    requires WellFormed(r.db.main) && NewIds(r.db.main, c.count) == []
    ensures var ids := PendingIds(r.db.main, c.consumer, c.count);
            InLog(ids, |r.db.main.log|) && Round(r, [], c) == HandleBatch(r, ids, c)
  {
    assert XReadNew(r.db.main, c.consumer, c.count) == r.db.main;
    assert XAddAll(r.db.main, []) == r.db.main;
    assert r.(db := r.db) == r;
    hide HandleBatch, PendingIds;
  }

  /** The run of the scene has come so far that everything is delivered and `m` is one failure ahead. */
  lemma {:induction false} ReachesChase(db: Db, quiet: Arrivals, i: nat, m: nat, c: Config, k: nat) returns (n: nat)
    requires Scene(db, i, m, c) && Quiet(quiet)
    requires Arriving(Rounds(Fresh(db), quiet, c, k), db, i, m, c)
    ensures var r := Rounds(Fresh(db), quiet, c, n);
            Arriving(r, db, i, m, c) && r.db.main.next == |r.db.main.log|
    decreases |db.main.log| - Rounds(Fresh(db), quiet, c, k).db.main.next
  {
    var r := Rounds(Fresh(db), quiet, c, k);
    assert r.db.main.log == db.main.log && r.db.main.next <= |r.db.main.log|;
    if r.db.main.next == |r.db.main.log| {
      n := k;
    } else {
      ArrivingRound(r, db, i, m, c);
      assert quiet(k) == [];
      RoundsNext(db, quiet, c, k + 1, []);
      hide Round, Rounds, Scene, Arriving, Quiet;
      n := ReachesChase(db, quiet, i, m, c, k + 1);
    }
  }

  lemma {:induction false} ReachesDeath(db: Db, quiet: Arrivals, i: nat, m: nat, c: Config, k: nat, t: nat)
    returns (n: nat)
    requires Scene(db, i, m, c) && Quiet(quiet) && i < m && t + 1 < c.maxAttempts
    requires var r := Rounds(Fresh(db), quiet, c, k);
             Behind(r, db, i, m, c, t) && Ahead(r, m, t) && r.db.main.next == |r.db.main.log|
    ensures Outlived(Rounds(Fresh(db), quiet, c, n), i, m) && n >= k
    decreases c.maxAttempts - t
  {
    var r := Rounds(Fresh(db), quiet, c, k);
    ChaseRound(r, db, i, m, c, t);
    assert quiet(k) == [];
    RoundsNext(db, quiet, c, k + 1, []);
    var r' := Rounds(Fresh(db), quiet, c, k + 1);
    assert r' == Round(r, [], c);
    if t + 2 < c.maxAttempts {
      hide Round, Rounds, Scene, Behind, Ahead, Quiet;
      n := ReachesDeath(db, quiet, i, m, c, k + 1, t + 1);
    } else {
      n := k + 1;
      DiedFirst(r', db, i, m, c, t + 1);
      hide Round, Rounds, Behind, Outlived;
    }
  }

  lemma DiedFirst(r: Run, db: Db, i: nat, m: nat, c: Config, t: nat)
    requires Scene(db, i, m, c) && Behind(r, db, i, m, c, t) && m in r.dead
    ensures Outlived(r, i, m)
  {
  }

  ghost predicate OutlivedAt(db: Db, quiet: Arrivals, c: Config, i: nat, m: nat, n: nat) {
    WellFormed(db.main) && Outlived(Rounds(Fresh(db), quiet, c, n), i, m)
  }

  lemma RunIsSound(db: Db, arrivals: Arrivals, c: Config, n: nat)
    requires WellFormed(db.main) && OnlyConsumer(db, c.consumer)
    ensures Sound(Rounds(Fresh(db), arrivals, c, n), c)
  {
    RunAccounts(db, arrivals, c, n);
    hide *;
  }

  lemma QuietAt(quiet: Arrivals, k: nat)
    requires Quiet(quiet)
    ensures quiet(k) == []
  {
  }

  /** The run after `n` quiet turns, and after one more. */
  lemma QuietRounds(db: Db, quiet: Arrivals, c: Config, n: nat) returns (r: Run)
    requires WellFormed(db.main) && OnlyConsumer(db, c.consumer) && quiet(n) == []
    ensures r == Rounds(Fresh(db), quiet, c, n) && Sound(r, c)
    ensures Rounds(Fresh(db), quiet, c, n + 1) == Round(r, [], c)
  {
    r := Rounds(Fresh(db), quiet, c, n);
    RunIsSound(db, quiet, c, n);
    RoundsNext(db, quiet, c, n + 1, []);
    hide *;
  }

  lemma OutlivedNext(db: Db, quiet: Arrivals, c: Config, i: nat, m: nat, n: nat)
    requires OnlyConsumer(db, c.consumer) && Quiet(quiet) && i < m && n > 0
    requires c.handler == AlwaysRaises() && OutlivedAt(db, quiet, c, i, m, n - 1)
    ensures OutlivedAt(db, quiet, c, i, m, n)
  {
    hide Round, Rounds, Outlived, Quiet, Sound, AlwaysRaises, OnlyConsumer;
    QuietAt(quiet, n - 1);
    var r := QuietRounds(db, quiet, c, n - 1);
    OutlivedRound(r, c, i, m);
  }

  lemma {:induction false} StaysOutlived(db: Db, quiet: Arrivals, c: Config, i: nat, m: nat, k: nat, n: nat)
    requires OnlyConsumer(db, c.consumer) && Quiet(quiet) && i < m && k <= n
    requires c.handler == AlwaysRaises() && OutlivedAt(db, quiet, c, i, m, k)
    ensures OutlivedAt(db, quiet, c, i, m, n)
    decreases n
  {
    hide *;
    if n == k {
    } else {
      StaysOutlived(db, quiet, c, i, m, k, n - 1);
      OutlivedNext(db, quiet, c, i, m, n);
    }
  }

  lemma SceneStarts(db: Db, i: nat, m: nat, c: Config)
    requires Scene(db, i, m, c)
    ensures Arriving(Fresh(db), db, i, m, c) && i < m
  {
    hide Unprocessed;
  }

  lemma SceneOutlives(db: Db, quiet: Arrivals, i: nat, m: nat, c: Config) returns (n: nat)
    requires Scene(db, i, m, c) && Quiet(quiet)
    ensures OutlivedAt(db, quiet, c, i, m, n)
  {
    SceneStarts(db, i, m, c);
    NoRounds(db, quiet, c);
    var k := ReachesChase(db, quiet, i, m, c, 0);
    var r := Rounds(Fresh(db), quiet, c, k);
    assert m < |db.main.log| && r.db.main.log == db.main.log;
    assert Behind(r, db, i, m, c, 0) && Ahead(r, m, 0) && c.maxAttempts >= 2;
    hide Rounds, Scene, Quiet, Behind, Ahead, Outlived;
    n := ReachesDeath(db, quiet, i, m, c, k, 0);
  }

  /** In the scene the newer message dies first. */
  lemma SceneBreaksOrder(db: Db, quiet: Arrivals, i: nat, m: nat, c: Config) returns (n: nat)
    requires Scene(db, i, m, c) && Quiet(quiet)
    ensures n > 0 && WellFormed(db.main) && !Ascending(Rounds(Fresh(db), quiet, c, n).dead)
  {
    SceneFacts(db, i, m, c);
    var d := SceneOutlives(db, quiet, i, m, c);
    var enough := DrainTurns(db, c);
    n := d + enough + 1;
    StaysOutlived(db, quiet, c, i, m, d, n);
    EmptyAtLast(db, quiet, c, n);
    hide Rounds, Quiet, DrainTurns;
    assert Overtook(Rounds(Fresh(db), quiet, c, n).dead, m, i);
    hide Overtook;
    OvertakenIsNotAscending(Rounds(Fresh(db), quiet, c, n).dead, m, i);
  }

  lemma SceneFacts(db: Db, i: nat, m: nat, c: Config)
    requires Scene(db, i, m, c)
    ensures WellFormed(db.main) && OnlyConsumer(db, c.consumer) && i < m && c.count >= 1
    ensures c.handler == AlwaysRaises()
  {
    SceneStarts(db, i, m, c);
  }

  function DrainTurns(db: Db, c: Config): nat
    requires WellFormed(db.main)
  {
    Budget(c.maxAttempts) * |db.main.pending| + (Budget(c.maxAttempts) + 1) * (|db.main.log| - db.main.next)
  }

  lemma EmptyAtLast(db: Db, quiet: Arrivals, c: Config, n: nat)
    requires WellFormed(db.main) && OnlyConsumer(db, c.consumer) && c.count >= 1 && Quiet(quiet)
    requires n >= DrainTurns(db, c)
    ensures Rounds(Fresh(db), quiet, c, n).db.main.pending == map[]
  {
    Drains(db, quiet, c, n);
    hide Rounds, Quiet;
  }

  /** The first live message not delivered yet. */
  lemma {:induction false} FirstLive(db: Db, from: nat, last: nat) returns (m: nat)
    requires from <= last && Unprocessed(db, last)
    ensures from <= m <= last && Unprocessed(db, m) && forall j: nat :: from <= j < m ==> !Unprocessed(db, j)
    decreases last - from
  {
    if Unprocessed(db, from) {
      m := from;
    } else {
      m := FirstLive(db, from + 1, last);
    }
  }

  lemma SmallBacklogBreaksOrder(db: Db, i: nat, consumer: string, count: nat, maxAttempts: int)
    requires WellFormed(db.main) && OnlyConsumer(db, consumer) && Live(db, i)
    requires |db.main.pending| < count && maxAttempts >= 2
    ensures !KeepsOrder(db, consumer, count, maxAttempts)
  {
    var c := Config(consumer, count, maxAttempts, AlwaysRaises());
    var p := db.main.log[i];
    var db' := WithOne(db, p);
    var a: Arrivals := k => if k == 0 then [p] else [];
    var quiet: Arrivals := k => [];
    assert Unprocessed(db', |db.main.log|) && Live(db', i);
    var m := FirstLive(db', db'.main.next, |db.main.log|);
    assert Scene(db', i, m, c) && Quiet(quiet) && OneArrival(a, p);
    hide Scene, Quiet, OneArrival, Rounds, AlwaysRaises, Live, WithOne, Unprocessed, Ascending;
    var n := SceneBreaksOrder(db', quiet, i, m, c);
    PublishedFirst(db, p, a, quiet, c, n);
    assert !Ascending(Rounds(Fresh(db), a, c, n).dead);
  }

  // A backlog of exactly one page.

  /** What one delivery or none does to message `j` that has not been tried, whatever the handler. */
  ghost predicate TriedAt(r: Run, r': Run, handled: bool, j: nat) {
    if !handled then
      (j in r'.db.main.pending <==> j in r.db.main.pending) && Attempts(r'.attempts, j) == Attempts(r.attempts, j)
    else
      j in r'.db.main.pending ==> j in r.db.main.pending && Attempts(r'.attempts, j) == 1
  }

  lemma TryOne(r: Run, id: nat, c: Config, j: nat)
    requires id < |r.db.main.log| && Attempts(r.attempts, id) == 0 && c.maxAttempts >= 2
    ensures var r' := HandleOne(r, id, c); TriedAt(r, r', j == id, j) && r'.dead == r.dead
  {
  }

  /** A batch of untried messages: none dies, and those still pending have failed once. */
  lemma {:induction false} TryBatch(r: Run, ids: seq<nat>, c: Config, j: nat)
    requires InLog(ids, |r.db.main.log|) && Ascending(ids) && c.maxAttempts >= 2
    requires forall k :: 0 <= k < |ids| ==> Attempts(r.attempts, ids[k]) == 0
    ensures var r' := HandleBatch(r, ids, c); TriedAt(r, r', j in ids, j) && r'.dead == r.dead
    decreases |ids|
  {
    if ids == [] {
    } else {
      var r1 := HandleOne(r, ids[0], c);
      TryOne(r, ids[0], c, j);
      forall k | 0 <= k < |ids[1..]| ensures Attempts(r1.attempts, ids[1..][k]) == 0 {
        TryOne(r, ids[0], c, ids[k + 1]);
      }
      TryBatch(r1, ids[1..], c, j);
      assert HandleBatch(r, ids, c) == HandleBatch(r1, ids[1..], c);
      assert j in ids <==> j == ids[0] || j in ids[1..];
      hide HandleOne, HandleBatch, Attempts;
    }
  }

  /** Before the first turn on the backlog: the leftovers are untried, everything newer has failed once. */
  ghost predicate Untouched(r: Run, db: Db, c: Config) {
    && Sound(r, c) && r.dead == [] && db.main.next <= r.db.main.next
    && (forall j: nat :: j < db.main.next ==> (j in r.db.main.pending <==> j in db.main.pending))
    && (forall j: nat :: j in r.db.main.pending ==>
          Attempts(r.attempts, j) == if j < db.main.next then 0 else 1)
  }

  lemma UntouchedAfterNew(r: Run, read: Run, ids: seq<nat>, db: Db, c: Config)
    requires Untouched(r, db, c) && FreshRead(r, read, ids) && InLog(ids, |read.db.main.log|)
    requires c.maxAttempts >= 2 && Sound(HandleBatch(read, ids, c), c)
    ensures Untouched(HandleBatch(read, ids, c), db, c)
  {
    var r' := HandleBatch(read, ids, c);
    forall k | 0 <= k < |ids| ensures Attempts(read.attempts, ids[k]) == 0 {
      assert ids[k] in ids;
      UntriedIsZero(r, c, ids[k]);
    }
    TryBatch(read, ids, c, 0);
    hide HandleBatch, Attempts, Sound;
    forall j: nat
      ensures j < db.main.next ==> (j in r'.db.main.pending <==> j in db.main.pending)
      ensures j in r'.db.main.pending ==> Attempts(r'.attempts, j) == if j < db.main.next then 0 else 1
    {
      TryBatch(read, ids, c, j);
    }
  }

  /** The first page of the backlog is the leftovers. */
  lemma PageIsLeftovers(r: Run, db: Db, c: Config)
    requires Untouched(r, db, c) && WellFormed(db.main) && |db.main.pending| == c.count
    ensures var ids := PendingIds(r.db.main, c.consumer, c.count);
            forall j: nat :: j in ids <==> j in db.main.pending
  {
    var s := r.db.main;
    var ids := PendingIds(s, c.consumer, c.count);
    forall j: nat | j in db.main.pending ensures j in ids {
      var before := db.main.pending.Keys - {j};
      assert |before| == |db.main.pending.Keys| - 1;
      OnThePage(s, c.consumer, c.count, j, before);
    }
    PageIsFull(ids, db.main.pending.Keys);
    hide PendingIds, Attempts;
  }

  lemma PageIsFull(ids: seq<nat>, leftovers: set<nat>)
    requires Ascending(ids) && |ids| <= |leftovers| && forall j :: j in leftovers ==> j in ids
    ensures forall j: nat :: j in ids ==> j in leftovers
  {
    MemberCount(ids);
    assert leftovers <= Members(ids);
    SameSize(leftovers, Members(ids));
  }

  function Members(ids: seq<nat>): set<nat> {
    set j | j in ids
  }

  lemma {:induction false} MemberCount(ids: seq<nat>)
    ensures |Members(ids)| <= |ids|
  {
    if ids == [] {
    } else {
      var n := |ids| - 1;
      MemberCount(ids[..n]);
      assert Members(ids) == Members(ids[..n]) + {ids[n]};
    }
  }

  lemma SameSize(a: set<nat>, b: set<nat>)
    requires a <= b && |b| <= |a|
    ensures a == b
  {
    assert |b - a| == |b| - |a|;
    if b - a != {} {
      var x :| x in b - a;
    }
  }

  /** The first turn on the backlog makes old and new even. */
  lemma EvenAfterPage(r: Run, db: Db, c: Config)
    requires Untouched(r, db, c) && WellFormed(db.main) && |db.main.pending| == c.count && c.maxAttempts >= 2
    requires NewIds(r.db.main, c.count) == []
    ensures Ordered(Round(r, [], c), c)
  {
    RoundIsSound(r, c);
    QuietTurn(r, c);
    var ids := PendingIds(r.db.main, c.consumer, c.count);
    PageIsLeftovers(r, db, c);
    assert Ascending(ids) && WellFormed(r.db.main);
    forall k | 0 <= k < |ids| ensures Attempts(r.attempts, ids[k]) == 0 {
      assert ids[k] in ids;
    }
    hide Round, HandleBatch, PendingIds, Sound;
    EvenBatch(r, ids, db, c);
  }

  lemma EvenBatch(r: Run, ids: seq<nat>, db: Db, c: Config)
    requires Untouched(r, db, c) && WellFormed(db.main) && InLog(ids, |r.db.main.log|) && Ascending(ids)
    requires (forall j: nat :: j in ids <==> j in db.main.pending) && c.maxAttempts >= 2
    requires forall k :: 0 <= k < |ids| ==> Attempts(r.attempts, ids[k]) == 0
    requires Sound(HandleBatch(r, ids, c), c)
    ensures Ordered(HandleBatch(r, ids, c), c)
  {
    var r' := HandleBatch(r, ids, c);
    TryBatch(r, ids, c, 0);
    forall j: nat | j in r'.db.main.pending ensures Attempts(r'.attempts, j) == 1 {
      TryBatch(r, ids, c, j);
    }
    EvenIsOrdered(r', c);
  }

  lemma EvenIsOrdered(r: Run, c: Config)
    requires Sound(r, c) && r.dead == [] && forall j: nat :: j in r.db.main.pending ==> Attempts(r.attempts, j) == 1
    ensures Ordered(r, c)
  {
    hide Attempts;
  }

  lemma PageStep(r: Run, arrivals: seq<Payment>, db: Db, c: Config)
    requires WellFormed(db.main) && |db.main.pending| == c.count && c.maxAttempts >= 2 && c.count >= 1
    requires WellFormed(r.db.main) && (Untouched(r, db, c) || Ordered(r, c))
    ensures Untouched(Round(r, arrivals, c), db, c) || Ordered(Round(r, arrivals, c), c)
  {
    if Ordered(r, c) {
      OrderInRound(r, arrivals, c);
    } else {
      var p := Publish(r, arrivals);
      PublishedUntouched(r, arrivals, db, c);
      RoundAfterPublish(r, arrivals, c);
      assert Sound(p, c) by {
        SoundOfUntouched(p, db, c);
      }
      if NewIds(p.db.main, c.count) != [] {
        OneRound(p, [], c);
        var read, ids := NewBatch(p, c);
        hide Round, HandleBatch, Sound, Untouched, Publish, Ordered;
        UntouchedAfterNew(p, read, ids, db, c);
      } else {
        EvenAfterPage(p, db, c);
      }
    }
    hide Round, Untouched, Ordered, Publish;
  }

  lemma SoundOfUntouched(r: Run, db: Db, c: Config)
    requires Untouched(r, db, c)
    ensures Sound(r, c)
  {
  }

  lemma PublishedUntouched(r: Run, arrivals: seq<Payment>, db: Db, c: Config)
    requires Untouched(r, db, c)
    ensures Untouched(Publish(r, arrivals), db, c)
  {
    PublishedIsSound(r, arrivals, c);
    hide Attempts, Sound;
  }

  lemma RoundAfterPublish(r: Run, arrivals: seq<Payment>, c: Config)
    requires WellFormed(r.db.main)
    ensures WellFormed(Publish(r, arrivals).db.main) && Round(r, arrivals, c) == Round(Publish(r, arrivals), [], c)
  {
    var p := Publish(r, arrivals);
    assert XAddAll(p.db.main, []) == p.db.main;
    assert p.db.(main := p.db.main) == p.db;
    hide HandleBatch, Deliver;
  }

  lemma {:induction false} PageRun(db: Db, arrivals: Arrivals, c: Config, n: nat)
    requires WellFormed(db.main) && OnlyConsumer(db, c.consumer)
    requires |db.main.pending| == c.count && c.maxAttempts >= 2 && c.count >= 1
    ensures var r := Rounds(Fresh(db), arrivals, c, n); Untouched(r, db, c) || Ordered(r, c)
    decreases n
  {
    hide Round, Ordered, Untouched;
    if n == 0 {
      FreshUntouched(db, c);
    } else {
      PageRun(db, arrivals, c, n - 1);
      PageStep(Rounds(Fresh(db), arrivals, c, n - 1), arrivals(n - 1), db, c);
    }
  }

  lemma FreshUntouched(db: Db, c: Config)
    requires WellFormed(db.main) && OnlyConsumer(db, c.consumer)
    ensures Untouched(Fresh(db), db, c)
  {
  }

  lemma FullPageKeepsOrder(db: Db, consumer: string, count: nat, maxAttempts: int)
    requires WellFormed(db.main) && OnlyConsumer(db, consumer)
    requires |db.main.pending| == count && maxAttempts >= 2 && count >= 1
    ensures KeepsOrder(db, consumer, count, maxAttempts)
  {
    forall h: Handler, arrivals: Arrivals, n: nat
      ensures Ascending(Rounds(Fresh(db), arrivals, Config(consumer, count, maxAttempts, h), n).dead)
    {
      var c := Config(consumer, count, maxAttempts, h);
      PageRun(db, arrivals, c, n);
      NoneOrOrdered(Rounds(Fresh(db), arrivals, c, n), db, c);
    }
    hide Rounds, Ascending;
  }

  lemma NoneOrOrdered(r: Run, db: Db, c: Config)
    requires Untouched(r, db, c) || Ordered(r, c)
    ensures Ascending(r.dead)
  {
  }

  /**
   With batches of two or more, at least two attempts and a backlog of at most one batch, whatever is
   undelivered: dead letters keep publish order for every handler and schedule if and only if the
   leftovers fill the batch exactly or none of them is live.
   */
  lemma BacklogWithinAPageKeepsOrderIff(db: Db, consumer: string, count: nat, maxAttempts: int)
    requires WellFormed(db.main) && OnlyConsumer(db, consumer)
    requires count >= 2 && maxAttempts >= 2 && |db.main.pending| <= count
    ensures KeepsOrder(db, consumer, count, maxAttempts)
            <==> |db.main.pending| == count || forall i: nat :: !Live(db, i)
  {
    if |db.main.pending| == count {
      FullPageKeepsOrder(db, consumer, count, maxAttempts);
    } else if i: nat :| Live(db, i) {
      SmallBacklogBreaksOrder(db, i, consumer, count, maxAttempts);
    } else {
      forall h: Handler, arrivals: Arrivals, n: nat
        ensures Ascending(Rounds(Fresh(db), arrivals, Config(consumer, count, maxAttempts, h), n).dead)
      {
        DeadLettersKeepOrder(db, arrivals, Config(consumer, count, maxAttempts, h), n);
        DeadAscend(Rounds(Fresh(db), arrivals, Config(consumer, count, maxAttempts, h), n));
      }
    }
    hide Rounds, Ascending, Ordered, DeadInOrder;
  }
}
