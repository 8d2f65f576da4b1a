/**
 A single consumer drains its backlog whatever the handler does. The measure is the
 retry budget left on pending messages plus one more than a whole budget for every
 message not delivered yet.
 */
module DlqDrain {
  import opened Streams
  import opened DlqModel

  /** What message `i` is still worth: `u` undelivered, the rest of its budget `b` while pending. */
  ghost function Worth(s: Stream<Payment>, attempts: map<nat, nat>, b: nat, u: nat, i: nat): int {
    if i >= s.next then u else if i in s.pending then b - Attempts(attempts, i) else 0
  }

  ghost function Sum(s: Stream<Payment>, attempts: map<nat, nat>, b: nat, u: nat, hi: nat): int {
    if hi == 0 then 0 else Sum(s, attempts, b, u, hi - 1) + Worth(s, attempts, b, u, hi - 1)
  }

  /** Handler calls that the retry budgets still allow. */
  ghost function CallsLeft(r: Run, c: Config): int {
    Sum(r.db.main, r.attempts, Budget(c.maxAttempts), Budget(c.maxAttempts), |r.db.main.log|)
  }

  ghost function Measure(r: Run, c: Config): int {
    Sum(r.db.main, r.attempts, Budget(c.maxAttempts), Budget(c.maxAttempts) + 1, |r.db.main.log|)
  }

  /** Only this consumer holds messages of the group. */
  ghost predicate OnlyConsumer(db: Db, consumer: string) {
    forall i :: i in db.main.pending ==> db.main.pending[i] == consumer
  }

  ghost predicate Sound(r: Run, c: Config) {
    && WellFormed(r.db.main)
    && OnlyConsumer(r.db, c.consumer)
    && (forall i :: i in r.attempts ==> i < r.db.main.next)
    && (forall i :: i in r.db.main.pending ==> Attempts(r.attempts, i) < Budget(c.maxAttempts))
  }

  /** Messages the group still has to settle. */
  ghost function Backlog(db: Db): int {
    |db.main.log| - db.main.next + |db.main.pending|
  }

  ghost predicate Drained(db: Db) {
    db.main.next == |db.main.log| && db.main.pending == map[]
  }

  ghost function Settled(r: Run): nat {
    |r.done| + |r.skipped| + |r.dead|
  }

  /** Changing one message changes the sum by that message's share only. */
  lemma {:induction false} SumAt(s: Stream<Payment>, a: map<nat, nat>, s': Stream<Payment>, a': map<nat, nat>,
                                 b: nat, u: nat, id: nat, hi: nat)
    requires forall i: nat :: i != id && i < hi ==> Worth(s, a, b, u, i) == Worth(s', a', b, u, i)
    ensures Sum(s', a', b, u, hi) - Sum(s, a, b, u, hi) ==
            if id < hi then Worth(s', a', b, u, id) - Worth(s, a, b, u, id) else 0
  {
    if hi == 0 {
    } else {
      SumAt(s, a, s', a', b, u, id, hi - 1);
    }
  }

  lemma {:induction false} SumPositive(s: Stream<Payment>, a: map<nat, nat>, b: nat, u: nat, hi: nat)
    requires forall i :: i in s.pending ==> Attempts(a, i) < b
    ensures Sum(s, a, b, u, hi) >= 0
    ensures (exists i: nat :: i < hi && Worth(s, a, b, u, i) > 0) ==> Sum(s, a, b, u, hi) >= 1
  {
    if hi == 0 {
    } else {
      SumPositive(s, a, b, u, hi - 1);
    }
  }

  /** Delivering a message leaves it worth one whole budget. */
  lemma WorthRead(s: Stream<Payment>, consumer: string, count: nat, a: map<nat, nat>, b: nat, i: nat)
    requires WellFormed(s) && forall i :: i in a ==> i < s.next
    ensures var s' := XReadNew(s, consumer, count);
            && s'.next >= s.next
            && Worth(s', a, b, b, i) == Worth(s, a, b, b, i)
            && Worth(s', a, b, b + 1, i) == Worth(s, a, b, b + 1, i) - (if s.next <= i < s'.next then 1 else 0)
  {
    var ids := NewIds(s, count);
    if s.next <= i < XReadNew(s, consumer, count).next {
      assert ids[i - s.next] == i;
    } else {
      assert i !in ids;
    }
  }

  lemma {:induction false} SumRead(s: Stream<Payment>, consumer: string, count: nat, a: map<nat, nat>, b: nat, hi: nat)
    requires WellFormed(s) && forall i :: i in a ==> i < s.next
    ensures var s' := XReadNew(s, consumer, count);
            && Sum(s', a, b, b, hi) == Sum(s, a, b, b, hi)
            && Sum(s', a, b, b + 1, hi) <= Sum(s, a, b, b + 1, hi)
  {
    hide Worth, XReadNew, WellFormed;
    if hi == 0 {
    } else {
      SumRead(s, consumer, count, a, b, hi - 1);
      WorthRead(s, consumer, count, a, b, hi - 1);
    }
  }

  /** The effect a delivery of `id` may have: its message settles, or one attempt is spent on it. */
  ghost predicate Spends(r: Run, r': Run, id: nat, c: Config) {
    var s, s' := r.db.main, r'.db.main;
    && s'.log == s.log && s'.next == s.next
    && |r'.calls| <= |r.calls| + 1
    && (forall i :: i != id ==>
          && (i in r.attempts <==> i in r'.attempts)
          && Attempts(r.attempts, i) == Attempts(r'.attempts, i))
    && (if Settled(r') == Settled(r) then
          && s' == s
          && Attempts(r'.attempts, id) == Attempts(r.attempts, id) + 1 < Budget(c.maxAttempts)
        else Settled(r') == Settled(r) + 1 && s'.pending == s.pending - {id})
  }

  lemma DeliverySpends(r: Run, id: nat, c: Config)
    requires Sound(r, c) && id in r.db.main.pending
    ensures Spends(r, HandleOne(r, id, c), id, c)
  {
  }

  lemma SpendingSums(r: Run, r': Run, id: nat, c: Config)
    requires Sound(r, c) && id in r.db.main.pending && Spends(r, r', id, c)
    ensures Measure(r', c) <= Measure(r, c) - 1 && CallsLeft(r', c) <= CallsLeft(r, c) - 1
  {
    hide Sum;
    var s, s' := r.db.main, r'.db.main;
    var b := Budget(c.maxAttempts);
    SumAt(s, r.attempts, s', r'.attempts, b, b, id, |s.log|);
    SumAt(s, r.attempts, s', r'.attempts, b, b + 1, id, |s.log|);
  }

  lemma SpendingIsSound(r: Run, r': Run, id: nat, c: Config)
    requires Sound(r, c) && id in r.db.main.pending && Spends(r, r', id, c)
    ensures Sound(r', c)
    ensures Settled(r') + Backlog(r'.db) == Settled(r) + Backlog(r.db)
    ensures forall i :: i in r.db.main.pending && i != id ==> i in r'.db.main.pending
  {
    var s, s' := r.db.main, r'.db.main;
    if s' != s {
      assert |s.pending - {id}| == |s.pending| - 1;
    }
  }

  /** The ids a batch hands to the handler: distinct and pending. */
  ghost predicate Held(r: Run, ids: seq<nat>) {
    && (forall a, b :: 0 <= a < b < |ids| ==> ids[a] < ids[b])
    && (forall k :: 0 <= k < |ids| ==> ids[k] in r.db.main.pending)
  }

  lemma {:induction false} BatchDelivery(r: Run, ids: seq<nat>, c: Config)
    requires Sound(r, c) && Held(r, ids) && InLog(ids, |r.db.main.log|)
    ensures var r' := HandleBatch(r, ids, c);
            && Sound(r', c)
            && Measure(r', c) <= Measure(r, c) - |ids|
            && |r'.calls| + CallsLeft(r', c) <= |r.calls| + CallsLeft(r, c)
            && Settled(r') + Backlog(r'.db) == Settled(r) + Backlog(r.db)
            && (ids == [] ==> r' == r)
    decreases |ids|
  {
    hide Sound, Measure, CallsLeft, Backlog, Settled, HandleOne, Budget;
    if ids == [] {
    } else {
      var r' := HandleOne(r, ids[0], c);
      DeliverySpends(r, ids[0], c);
      SpendingSums(r, r', ids[0], c);
      SpendingIsSound(r, r', ids[0], c);
      BatchDelivery(HandleOne(r, ids[0], c), ids[1..], c);
    }
  }

  function ReadNew(r: Run, c: Config): Run
    requires r.db.main.next <= |r.db.main.log|
  {
    r.(db := r.db.(main := XReadNew(r.db.main, c.consumer, c.count)))
  }

  lemma ReadingKeepsBacklog(r: Run, c: Config)
    requires WellFormed(r.db.main)
    ensures Backlog(ReadNew(r, c).db) == Backlog(r.db)
  {
    AssignSize(NewIds(r.db.main, c.count), c.consumer, r.db.main.pending);
    hide Assign, Range;
  }

  lemma ReadingIsSound(r: Run, c: Config)
    requires Sound(r, c)
    ensures Sound(ReadNew(r, c), c) && Backlog(ReadNew(r, c).db) == Backlog(r.db)
  {
    ReadingKeepsBacklog(r, c);
    ReadAdds(r.db.main, c.consumer, c.count);
    hide XReadNew, Backlog, Budget;
  }

  /** After a read everything newly pending is the reader's and was never delivered before. */
  lemma ReadAdds(s: Stream<Payment>, consumer: string, count: nat)
    requires WellFormed(s)
    ensures var s' := XReadNew(s, consumer, count);
            && WellFormed(s') && s'.next >= s.next
            && forall i :: i in s'.pending ==>
                 && (i < s.next ==> i in s.pending && s'.pending[i] == s.pending[i])
                 && (i >= s.next ==> s'.pending[i] == consumer)
  {
    var ids := NewIds(s, count);
    var s' := XReadNew(s, consumer, count);
    assert forall k :: k in ids ==> s.next <= k < s'.next;
    hide Assign, Range, NewIds;
  }

  /** Delivering new messages moves no budget; each gives up the extra unit of measure. */
  lemma ReadingIsFree(r: Run, c: Config)
    requires Sound(r, c)
    ensures CallsLeft(ReadNew(r, c), c) == CallsLeft(r, c) && Measure(ReadNew(r, c), c) <= Measure(r, c)
  {
    hide Sum, Worth, Range;
    SumRead(r.db.main, c.consumer, c.count, r.attempts, Budget(c.maxAttempts), |r.db.main.log|);
  }

  /** A read hands out distinct messages the reader owns, and finds some unless nothing is left. */
  lemma ReadDelivery(r: Run, c: Config)
    requires Sound(r, c)
    ensures var (db, ids) := Deliver(r.db, c); var r' := r.(db := db);
            && r' == ReadNew(r, c)
            && Held(r', ids)
            && (c.count >= 1 && !Drained(r.db) ==> ids != [])
            && (Drained(r.db) ==> ids == [] && Drained(db))
  {
    hide Sum, Worth, Range, OwnedBelow, HandleBatch, Assign, PendingIds, Budget, Attempts;
    ReadingIsFree(r, c);
    if c.count >= 1 {
      PendingIdsEmpty(XReadNew(r.db.main, c.consumer, c.count), c.consumer, c.count);
    }
  }

  lemma {:induction false} SumPublished(s: Stream<Payment>, xs: seq<Payment>, a: map<nat, nat>, b: nat, u: nat, n: nat)
    requires s.next <= |s.log| && n <= |xs|
    ensures Sum(XAddAll(s, xs), a, b, u, |s.log| + n) == Sum(s, a, b, u, |s.log|) + u * n
  {
    if n == 0 {
      SumSame(s, XAddAll(s, xs), a, b, u, |s.log|);
    } else {
      SumPublished(s, xs, a, b, u, n - 1);
      assert u * n == u * (n - 1) + u;
    }
  }

  lemma {:induction false} SumSame(s: Stream<Payment>, s': Stream<Payment>, a: map<nat, nat>, b: nat, u: nat, hi: nat)
    requires s.next == s'.next && s.pending == s'.pending
    ensures Sum(s, a, b, u, hi) == Sum(s', a, b, u, hi)
  {
    if hi == 0 {
    } else {
      SumSame(s, s', a, b, u, hi - 1);
    }
  }

  function Publish(r: Run, arrivals: seq<Payment>): Run {
    r.(db := r.db.(main := XAddAll(r.db.main, arrivals)))
  }

  lemma PublishedIsSound(r: Run, arrivals: seq<Payment>, c: Config)
    requires Sound(r, c)
    ensures var r' := Publish(r, arrivals);
            && Sound(r', c)
            && Backlog(r'.db) == Backlog(r.db) + |arrivals|
            && CallsLeft(r', c) == CallsLeft(r, c) + Budget(c.maxAttempts) * |arrivals|
  {
    hide Sum, Worth;
    SumPublished(r.db.main, arrivals, r.attempts, Budget(c.maxAttempts), Budget(c.maxAttempts), |arrivals|);
  }

  /** The three parts of a turn: what was published arrives, a read delivers, the batch is handled. */
  lemma RoundParts(r: Run, arrivals: seq<Payment>, c: Config) returns (read: Run, ids: seq<nat>)
    requires Sound(r, c)
    ensures var published := Publish(r, arrivals);
            && Sound(published, c)
            && read == ReadNew(published, c) && Sound(read, c) && Held(read, ids) && InLog(ids, |read.db.main.log|)
            && Backlog(read.db) == Backlog(published.db)
            && Deliver(published.db, c) == (read.db, ids) && published.(db := read.db) == read
            && Round(r, arrivals, c) == HandleBatch(read, ids, c)
            && (c.count >= 1 && !Drained(published.db) ==> ids != [])
            && (Drained(published.db) ==> ids == [] && Drained(read.db))
            && Settled(read) == Settled(r) && |read.calls| == |r.calls|
  {
    hide Sum, Worth, HandleBatch, Deliver;
    PublishedIsSound(r, arrivals, c);
    var published := Publish(r, arrivals);
    ReadingIsSound(published, c);
    ReadDelivery(published, c);
    ids := Deliver(published.db, c).1;
    read := published.(db := Deliver(published.db, c).0);
    assert read == r.(db := Deliver(published.db, c).0);
  }

  lemma PublishNothing(r: Run)
    ensures Publish(r, []) == r
  {
  }

  lemma OneRound(r: Run, arrivals: seq<Payment>, c: Config)
    requires Sound(r, c)
    ensures var r' := Round(r, arrivals, c);
            && Sound(r', c)
            && |r'.calls| + CallsLeft(r', c) <= |r.calls| + CallsLeft(r, c) + Budget(c.maxAttempts) * |arrivals|
            && Settled(r') + Backlog(r'.db) == Settled(r) + Backlog(r.db) + |arrivals|
  {
    hide *;
    var read, ids := RoundParts(r, arrivals, c);
    PublishedIsSound(r, arrivals, c);
    ReadingIsSound(Publish(r, arrivals), c);
    ReadingIsFree(Publish(r, arrivals), c);
    BatchDelivery(read, ids, c);
  }

  lemma QuietRound(r: Run, c: Config)
    requires Sound(r, c) && c.count >= 1
    ensures var r' := Round(r, [], c);
            if Drained(r.db) then Drained(r'.db) else Measure(r', c) <= Measure(r, c) - 1
  {
    PublishNothing(r);
    hide *;
    var read, ids := RoundParts(r, [], c);
    ReadingIsFree(r, c);
    BatchDelivery(read, ids, c);
  }

  /** The payments published during the first `n` turns. */
  ghost function Published(arrivals: Arrivals, n: nat): nat {
    if n == 0 then 0 else Published(arrivals, n - 1) + |arrivals(n - 1)|
  }

  /** At the start of a run every message of the backlog is worth the same. */
  lemma {:induction false} FreshSum(s: Stream<Payment>, b: nat, u: nat, hi: nat)
    requires WellFormed(s)
    ensures Sum(s, map[], b, u, hi) ==
            b * |set i | i in s.pending && i < hi| + u * (if hi <= s.next then 0 else hi - s.next)
  {
    var below := set i | i in s.pending && i < hi;
    if hi == 0 {
      assert below == {};
    } else {
      FreshSum(s, b, u, hi - 1);
      var fewer := set i | i in s.pending && i < hi - 1;
      assert below == if hi - 1 in s.pending then fewer + {hi - 1} else fewer;
      Distribute(b, |fewer|, 1);
      if hi > s.next {
        Distribute(u, hi - 1 - s.next, 1);
      }
    }
  }

  lemma Distribute(b: int, x: int, y: int)
    ensures b * (x + y) == b * x + b * y
  {
  }

  lemma FreshMeasure(db: Db, c: Config)
    requires WellFormed(db.main) && OnlyConsumer(db, c.consumer)
    ensures Sound(Fresh(db), c)
    ensures CallsLeft(Fresh(db), c) == Budget(c.maxAttempts) * Backlog(db)
    ensures Measure(Fresh(db), c) == Budget(c.maxAttempts) * |db.main.pending| +
                                     (Budget(c.maxAttempts) + 1) * (|db.main.log| - db.main.next)
  {
    var b, n := Budget(c.maxAttempts), |db.main.log|;
    FreshSum(db.main, b, b, n);
    FreshSum(db.main, b, b + 1, n);
    assert (set i | i in db.main.pending && i < n) == db.main.pending.Keys;
    Distribute(b, |db.main.pending|, n - db.main.next);
  }

  lemma CallsLeftPositive(r: Run, c: Config)
    requires Sound(r, c)
    ensures CallsLeft(r, c) >= 0
  {
    SumPositive(r.db.main, r.attempts, Budget(c.maxAttempts), Budget(c.maxAttempts), |r.db.main.log|);
  }

  /** Whatever the handler does and whatever is published meanwhile: no message is settled
      twice or vanishes, and no message costs more calls than one budget. */
  lemma {:induction false} RunAccounts(db: Db, arrivals: Arrivals, c: Config, n: nat)
    requires WellFormed(db.main) && OnlyConsumer(db, c.consumer)
    ensures var r := Rounds(Fresh(db), arrivals, c, n);
            && Sound(r, c)
            && Settled(r) + Backlog(r.db) == Backlog(db) + Published(arrivals, n)
            && |r.calls| + CallsLeft(r, c) <= Budget(c.maxAttempts) * (Backlog(db) + Published(arrivals, n))
            && |r.calls| <= Budget(c.maxAttempts) * (Backlog(db) + Published(arrivals, n))
  {
    hide Round, HandleBatch, Sum, Worth, Sound, CallsLeft, Budget, OnlyConsumer, WellFormed, Backlog;
    var r := Rounds(Fresh(db), arrivals, c, n);
    if n == 0 {
      FreshMeasure(db, c);
    } else {
      RunAccounts(db, arrivals, c, n - 1);
      OneRound(Rounds(Fresh(db), arrivals, c, n - 1), arrivals(n - 1), c);
      Distribute(Budget(c.maxAttempts), Backlog(db) + Published(arrivals, n - 1), |arrivals(n - 1)|);
    }
    CallsLeftPositive(r, c);
  }

  ghost predicate Quiet(arrivals: Arrivals) {
    forall k :: arrivals(k) == []
  }

  lemma {:induction false} MeasureFalls(db: Db, arrivals: Arrivals, c: Config, n: nat)
    requires WellFormed(db.main) && OnlyConsumer(db, c.consumer) && c.count >= 1 && Quiet(arrivals)
    ensures var r := Rounds(Fresh(db), arrivals, c, n);
            Drained(r.db) || Measure(r, c) <= Measure(Fresh(db), c) - n
  {
    hide Round, HandleBatch, Sum, Worth, Sound, Measure, Drained, Budget, OnlyConsumer, WellFormed;
    if n == 0 {
    } else {
      MeasureFalls(db, arrivals, c, n - 1);
      RunAccounts(db, arrivals, c, n - 1);
      QuietRound(Rounds(Fresh(db), arrivals, c, n - 1), c);
    }
  }

  lemma {:induction false} NothingPublished(arrivals: Arrivals, n: nat)
    requires Quiet(arrivals)
    ensures Published(arrivals, n) == 0
  {
    if n == 0 {
    } else {
      NothingPublished(arrivals, n - 1);
    }
  }

  lemma UndrainedIsWorthMore(r: Run, c: Config)
    requires Sound(r, c) && !Drained(r.db)
    ensures Measure(r, c) >= 1
  {
    var s, b := r.db.main, Budget(c.maxAttempts);
    SumPositive(s, r.attempts, b, b + 1, |s.log|);
    if s.next < |s.log| {
      assert Worth(s, r.attempts, b, b + 1, s.next) > 0;
    } else {
      var i :| i in s.pending;
      assert Worth(s, r.attempts, b, b + 1, i) > 0;
    }
  }

  /**
   With nothing more published, any handler and any retry budget: after as many turns as the
   measure the backlog is empty, every message of it was processed, skipped or dead-lettered,
   and the handler was called at most once per message and attempt.
   */
  lemma Drains(db: Db, arrivals: Arrivals, c: Config, n: nat)
    requires WellFormed(db.main) && OnlyConsumer(db, c.consumer) && c.count >= 1 && Quiet(arrivals)
    requires n >= Budget(c.maxAttempts) * |db.main.pending|
                  + (Budget(c.maxAttempts) + 1) * (|db.main.log| - db.main.next)
    ensures var r := Rounds(Fresh(db), arrivals, c, n);
            && Drained(r.db)
            && Settled(r) == Backlog(db)
            && |r.calls| <= Budget(c.maxAttempts) * Backlog(db)
  {
    hide Rounds, Sound, Measure, CallsLeft, Budget, OnlyConsumer, Settled;
    var r := Rounds(Fresh(db), arrivals, c, n);
    FreshMeasure(db, c);
    MeasureFalls(db, arrivals, c, n);
    RunAccounts(db, arrivals, c, n);
    NothingPublished(arrivals, n);
    if !Drained(r.db) {
      UndrainedIsWorthMore(r, c);
    }
  }
}
