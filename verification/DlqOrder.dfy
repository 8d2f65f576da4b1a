/**
 Dead letters keep publish order. The reason is that an older pending message has never
 fewer failed attempts than a newer one, for every handler and every batch size. Pending
 messages whose payment is already processed do not matter: they are skipped and never die.
 */
module DlqOrder {
  import opened Streams
  import opened DlqModel
  import opened DlqDrain

  /** The message handled next; past every delivered message between two batches. */
  function Frontier(r: Run, waiting: seq<nat>): nat {
    if waiting == [] then r.db.main.next else waiting[0]
  }

  /** `waiting` is a stretch of the pending list: ascending, with no pending message in a gap. */
  ghost predicate Stretch(r: Run, waiting: seq<nat>) {
    && Held(r, waiting)
    && (forall i, k :: i in r.db.main.pending && i !in waiting && 0 < k < |waiting| && i < waiting[k] ==>
        i < waiting[0])
  }

  /** The older message has at least as many failures, and one more once this pass went by it. */
  ghost predicate Older(r: Run, frontier: nat, i: nat, j: nat) {
    Attempts(r.attempts, i) >= Attempts(r.attempts, j) + (if i < frontier <= j then 1 else 0)
  }

  /** A pending message that the duplicate check would let through. */
  ghost predicate Live(db: Db, i: nat) {
    i in db.main.pending && i < |db.main.log| && db.main.log[i].paymentId !in db.processed
  }

  ghost predicate ByAge(r: Run, waiting: seq<nat>) {
    forall i: nat, j: nat :: Live(r.db, i) && Live(r.db, j) && i < j ==> Older(r, Frontier(r, waiting), i, j)
  }

  /** Every live message outside the current batch has failed before. */
  ghost predicate Tried(r: Run, waiting: seq<nat>) {
    forall i: nat :: Live(r.db, i) && i !in waiting ==> Attempts(r.attempts, i) >= 1
  }

  ghost predicate Aged(r: Run, waiting: seq<nat>) {
    ByAge(r, waiting) && Tried(r, waiting)
  }

  ghost predicate DeadInOrder(r: Run) {
    && (forall a, b :: 0 <= a < b < |r.dead| ==> r.dead[a] < r.dead[b])
    && (forall k :: 0 <= k < |r.dead| ==> r.dead[k] < r.db.main.next)
    && (forall k, i: nat :: 0 <= k < |r.dead| && Live(r.db, i) ==> r.dead[k] < i)
  }

  /** No pending message lies between the one handled now and the one handled next. */
  lemma NoGap(r: Run, waiting: seq<nat>)
    requires |waiting| > 1 && Stretch(r, waiting)
    ensures forall i :: i in r.db.main.pending && i > waiting[0] ==> i >= waiting[1]
  {
  }

  /** Spending one attempt at the frontier moves it past that message without disturbing the order. */
  lemma AgedPair(r: Run, r': Run, id: nat, after: nat, c: Config, i: nat, j: nat)
    requires Spends(r, r', id, c) && i in r'.db.main.pending && j in r'.db.main.pending && i < j
    requires Older(r, id, i, j) && id < after && (i > id ==> i >= after || j < after)
    requires i in r.db.main.pending && j in r.db.main.pending
    ensures Older(r', after, i, j)
  {
    hide Budget, Settled, XAck;
  }

  /** Messages stop being live and never become so without a read. */
  ghost predicate FewerLive(db: Db, db': Db) {
    forall i: nat :: Live(db', i) ==> Live(db, i)
  }

  lemma DeliveryEndsLives(r: Run, id: nat, c: Config)
    requires id < |r.db.main.log|
    ensures FewerLive(r.db, HandleOne(r, id, c).db)
  {
  }

  lemma AgeStep(r: Run, r': Run, waiting: seq<nat>, c: Config)
    requires waiting != [] && Stretch(r, waiting) && ByAge(r, waiting)
    requires WellFormed(r.db.main) && waiting[0] < r.db.main.next
    requires Spends(r, r', waiting[0], c) && FewerLive(r.db, r'.db)
    ensures ByAge(r', waiting[1..])
  {
    var id, rest := waiting[0], waiting[1..];
    if rest != [] {
      NoGap(r, waiting);
    }
    assert id < Frontier(r', rest);
    hide Stretch, Budget, Settled, Older, Attempts;
    forall i: nat, j: nat | Live(r'.db, i) && Live(r'.db, j) && i < j
      ensures Older(r', Frontier(r', rest), i, j)
    {
      assert Live(r.db, i) && Live(r.db, j);
      AgedPair(r, r', id, Frontier(r', rest), c, i, j);
    }
  }

  lemma TriedStep(r: Run, r': Run, waiting: seq<nat>, c: Config)
    requires waiting != [] && Tried(r, waiting) && Spends(r, r', waiting[0], c) && FewerLive(r.db, r'.db)
    ensures Tried(r', waiting[1..])
  {
    var id, rest := waiting[0], waiting[1..];
    assert forall i :: i in r'.db.main.pending && i !in rest ==> i == id || i !in waiting;
    hide Budget, Settled;
    forall i: nat | Live(r'.db, i) && i !in rest ensures Attempts(r'.attempts, i) >= 1 {
      assert Live(r.db, i);
    }
  }

  lemma StretchStep(r: Run, waiting: seq<nat>, c: Config)
    requires Sound(r, c) && waiting != [] && Stretch(r, waiting) && InLog(waiting, |r.db.main.log|)
    ensures Stretch(HandleOne(r, waiting[0], c), waiting[1..])
  {
    var id, rest := waiting[0], waiting[1..];
    var r' := HandleOne(r, id, c);
    DeliverySpends(r, id, c);
    SpendingIsSound(r, r', id, c);
    hide HandleOne, Sound, Spends;
    forall i, k | i in r'.db.main.pending && i !in rest && 0 < k < |rest| && i < rest[k] ensures i < rest[0] {
      assert rest[k] == waiting[k + 1];
      assert i == id || i !in waiting;
    }
  }

  /** A message at the end of its budget is the oldest live one. */
  lemma OldestIsSpentFirst(r: Run, waiting: seq<nat>, c: Config, i: nat)
    requires Sound(r, c) && ByAge(r, waiting) && waiting != [] && Live(r.db, waiting[0]) && Live(r.db, i)
    requires Attempts(r.attempts, waiting[0]) + 1 == Budget(c.maxAttempts)
    ensures i >= waiting[0]
  {
    assert i < waiting[0] ==> Older(r, waiting[0], i, waiting[0]);
    hide Live, Budget, Attempts;
  }

  /** A message dead-letters at the end of its budget, and was live until then. */
  lemma DiesLive(r: Run, id: nat, c: Config)
    requires Sound(r, c) && id in r.db.main.pending
    ensures var r' := HandleOne(r, id, c);
            || r'.dead == r.dead
            || (r'.dead == r.dead + [id] && Live(r.db, id) && !Live(r'.db, id)
                && Attempts(r.attempts, id) + 1 == Budget(c.maxAttempts))
  {
  }

  /** A message dead-letters only when it is the oldest live one. */
  lemma DeadStep(r: Run, waiting: seq<nat>, c: Config)
    requires Sound(r, c) && waiting != [] && Stretch(r, waiting) && InLog(waiting, |r.db.main.log|)
    requires Aged(r, waiting) && DeadInOrder(r)
    ensures DeadInOrder(HandleOne(r, waiting[0], c))
  {
    var id := waiting[0];
    var r' := HandleOne(r, id, c);
    HeldHead(r, waiting, c);
    DeliveryEndsLives(r, id, c);
    DiesLive(r, id, c);
    assert r'.db.main.next == r.db.main.next && id < r.db.main.next;
    hide HandleOne, Live, Stretch, Tried, Budget, Attempts;
    if r'.dead != r.dead {
      DeadAtTheFront(r, r', waiting, c);
    }
  }

  lemma DeadAtTheFront(r: Run, r': Run, waiting: seq<nat>, c: Config)
    requires Sound(r, c) && ByAge(r, waiting) && DeadInOrder(r) && FewerLive(r.db, r'.db) && waiting != []
    requires r'.dead == r.dead + [waiting[0]] && Live(r.db, waiting[0]) && !Live(r'.db, waiting[0])
    requires Attempts(r.attempts, waiting[0]) + 1 == Budget(c.maxAttempts)
    requires waiting[0] < r'.db.main.next == r.db.main.next
    ensures DeadInOrder(r')
  {
    hide Live, Budget, Attempts, ByAge, Sound;
    forall k, i: nat | 0 <= k < |r'.dead| && Live(r'.db, i) ensures r'.dead[k] < i {
      assert Live(r.db, i);
      OldestIsSpentFirst(r, waiting, c, i);
    }
  }

  lemma {:induction false} OrderInBatch(r: Run, waiting: seq<nat>, c: Config)
    requires Sound(r, c) && Stretch(r, waiting) && InLog(waiting, |r.db.main.log|) && Aged(r, waiting) && DeadInOrder(r)
    ensures var r' := HandleBatch(r, waiting, c); Sound(r', c) && Aged(r', []) && DeadInOrder(r')
    decreases |waiting|
  {
    hide Sound, Stretch, ByAge, Tried, DeadInOrder, HandleOne, Spends;
    if waiting == [] {
    } else {
      var r' := HandleOne(r, waiting[0], c);
      HeldHead(r, waiting, c);
      StretchStep(r, waiting, c);
      DeadStep(r, waiting, c);
      DeliverySpends(r, waiting[0], c);
      DeliveryEndsLives(r, waiting[0], c);
      AgeStep(r, r', waiting, c);
      TriedStep(r, r', waiting, c);
      SpendingIsSound(r, r', waiting[0], c);
      OrderInBatch(r', waiting[1..], c);
    }
  }

  lemma HeldHead(r: Run, waiting: seq<nat>, c: Config)
    requires Sound(r, c) && Stretch(r, waiting) && waiting != []
    ensures waiting[0] in r.db.main.pending && waiting[0] < r.db.main.next && WellFormed(r.db.main)
  {
  }

  /** After a read of new messages the old ones are as before and the new ones have no failures. */
  lemma NewAreUntried(r: Run, c: Config)
    requires Sound(r, c)
    ensures forall i :: i in ReadNew(r, c).db.main.pending ==>
              if i < r.db.main.next then i in r.db.main.pending && i !in NewIds(r.db.main, c.count)
              else i in NewIds(r.db.main, c.count) && Attempts(r.attempts, i) == 0
  {
  }

  /** What is live after a read was live before or has just been delivered, untried. */
  lemma LiveAfterRead(r: Run, c: Config, i: nat)
    requires Sound(r, c) && Live(ReadNew(r, c).db, i)
    ensures if i < r.db.main.next then Live(r.db, i) && i !in NewIds(r.db.main, c.count)
            else i in NewIds(r.db.main, c.count) && Attempts(r.attempts, i) == 0
  {
    NewAreUntried(r, c);
    hide Assign, NewIds, Range, Budget;
  }

  lemma OrderOnNew(r: Run, c: Config)
    requires Sound(r, c) && Aged(r, []) && NewIds(r.db.main, c.count) != []
    ensures Aged(ReadNew(r, c), NewIds(r.db.main, c.count))
  {
    var read, ids := ReadNew(r, c), NewIds(r.db.main, c.count);
    assert Frontier(read, ids) == r.db.main.next;
    assert read.attempts == r.attempts;
    hide NewIds, Budget, ReadNew, Sound, Live;
    forall i: nat, j: nat | Live(read.db, i) && Live(read.db, j) && i < j
        ensures Older(read, Frontier(read, ids), i, j) {
      LiveAfterRead(r, c, i);
      LiveAfterRead(r, c, j);
      assert j < r.db.main.next ==> Older(r, Frontier(r, []), i, j);
    }
    forall i: nat | Live(read.db, i) && i !in ids ensures Attempts(read.attempts, i) >= 1 {
      LiveAfterRead(r, c, i);
    }
  }

  lemma DeadOnNew(r: Run, c: Config)
    requires Sound(r, c) && DeadInOrder(r)
    ensures DeadInOrder(ReadNew(r, c))
  {
    var read := ReadNew(r, c);
    forall k, i: nat | 0 <= k < |read.dead| && Live(read.db, i) ensures read.dead[k] < i {
      LiveAfterRead(r, c, i);
    }
    hide NewIds, Live, Sound;
  }

  lemma StretchOnNew(r: Run, c: Config)
    requires Sound(r, c)
    ensures Held(ReadNew(r, c), NewIds(r.db.main, c.count)) ==> Stretch(ReadNew(r, c), NewIds(r.db.main, c.count))
  {
    var r' := ReadNew(r, c);
    var ids := NewIds(r.db.main, c.count);
    forall i, k | i in r'.db.main.pending && i !in ids && 0 < k < |ids| && i < ids[k] ensures i < ids[0] {
      assert i in r.db.main.pending;
    }
  }

  lemma StretchOnPending(r: Run, c: Config)
    requires Sound(r, c)
    ensures Stretch(r, PendingIds(r.db.main, c.consumer, c.count))
    ensures var ids := PendingIds(r.db.main, c.consumer, c.count);
            ids != [] ==> forall i :: i in r.db.main.pending ==> i >= ids[0]
  {
    hide OwnedBelow;
  }

  lemma OrderOnPending(r: Run, c: Config)
    requires Sound(r, c) && Aged(r, [])
    ensures var ids := PendingIds(r.db.main, c.consumer, c.count); Stretch(r, ids) && Aged(r, ids)
  {
    StretchOnPending(r, c);
    hide PendingIds, Sound, Stretch, ByAge;
    AgeFromOldest(r, PendingIds(r.db.main, c.consumer, c.count));
  }

  lemma AgeFromOldest(r: Run, waiting: seq<nat>)
    requires ByAge(r, []) && (waiting != [] ==> forall i :: i in r.db.main.pending ==> i >= waiting[0])
    ensures ByAge(r, waiting)
  {
    hide Attempts;
    if waiting != [] {
      forall i: nat, j: nat | Live(r.db, i) && Live(r.db, j) && i < j ensures Older(r, Frontier(r, waiting), i, j) {
        assert Older(r, Frontier(r, []), i, j);
      }
    }
  }

  /** Whatever a read returns is a stretch of the pending list, and nothing older is younger in attempts. */
  lemma OrderOnRead(r: Run, c: Config)
    requires Sound(r, c) && Aged(r, []) && DeadInOrder(r)
    ensures var (db, ids) := Deliver(r.db, c); var r' := r.(db := db);
            Stretch(r', ids) && Aged(r', ids) && DeadInOrder(r')
  {
    ReadDelivery(r, c);
    hide Sum, Worth, Held, Stretch, Aged, Sound, OwnedBelow, PendingIds, DeadInOrder, NewIds, Budget, Range;
    if NewIds(r.db.main, c.count) != [] {
      OrderOnNew(r, c);
      DeadOnNew(r, c);
      StretchOnNew(r, c);
    } else {
      assert ReadNew(r, c) == r;
      OrderOnPending(r, c);
    }
  }

  ghost predicate Ordered(r: Run, c: Config) {
    Sound(r, c) && Aged(r, []) && DeadInOrder(r)
  }

  lemma PublishKeepsLives(r: Run, arrivals: seq<Payment>, i: nat)
    requires WellFormed(r.db.main)
    ensures Live(Publish(r, arrivals).db, i) <==> Live(r.db, i)
  {
  }

  lemma PublishedStaysOrdered(r: Run, arrivals: seq<Payment>, c: Config)
    requires Ordered(r, c)
    ensures Ordered(Publish(r, arrivals), c)
  {
    PublishedIsSound(r, arrivals, c);
    var p := Publish(r, arrivals);
    assert WellFormed(r.db.main) && p.attempts == r.attempts && p.dead == r.dead && p.db.main.next == r.db.main.next;
    hide Publish, Sound, Live, Attempts;
    forall i: nat ensures Live(p.db, i) <==> Live(r.db, i) {
      PublishKeepsLives(r, arrivals, i);
    }
    forall i: nat, j: nat | Live(p.db, i) && Live(p.db, j) && i < j ensures Older(p, Frontier(p, []), i, j) {
      assert Older(r, Frontier(r, []), i, j);
    }
  }

  lemma OrderInRound(r: Run, arrivals: seq<Payment>, c: Config)
    requires Ordered(r, c)
    ensures Ordered(Round(r, arrivals, c), c)
  {
    hide Sound, Aged, DeadInOrder, Stretch, Deliver, ReadNew, HandleBatch, Held, Budget, Publish, Round, WellFormed;
    var read, ids := RoundParts(r, arrivals, c);
    PublishedStaysOrdered(r, arrivals, c);
    OrderOnRead(Publish(r, arrivals), c);
    OrderInBatch(read, ids, c);
  }

  /**
   A run that starts with nothing live pending, for every handler, batch size and publishing
   schedule: dead letters appear in publish order.
   */
  lemma {:induction false} DeadLettersKeepOrder(db: Db, arrivals: Arrivals, c: Config, n: nat)
    requires WellFormed(db.main) && OnlyConsumer(db, c.consumer) && forall i: nat :: !Live(db, i)
    ensures Ordered(Rounds(Fresh(db), arrivals, c, n), c)
  {
    hide Round;
    if n == 0 {
    } else {
      hide Ordered;
      DeadLettersKeepOrder(db, arrivals, c, n - 1);
      OrderInRound(Rounds(Fresh(db), arrivals, c, n - 1), arrivals(n - 1), c);
    }
  }
}
