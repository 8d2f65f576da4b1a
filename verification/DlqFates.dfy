/**
 What a run of the dead-letter consumer answers, told by its handler calls: a payment counts as
 processed once for each call that returned, a dead letter is a whole budget of calls that raised,
 and whatever else left the main stream was a duplicate. No payment id takes effect twice.
 */
module DlqFates {
  import opened Streams
  import opened DlqModel
  import opened DlqDrain
  import opened DlqLetters

  /** The messages whose handler call returned, in the order of the calls. */
  ghost function ReturnedIds(calls: seq<nat>, log: seq<Payment>, handler: Handler): (ids: seq<nat>)
    requires InLog(calls, |log|)
    ensures |ids| <= |calls|
  {
    if calls == [] then []
    else
      var k := |calls| - 1;
      ReturnedIds(calls[..k], log, handler) + if handler(k, log[calls[k]]).Returned? then [calls[k]] else []
  }

  ghost function PaymentIds(ids: seq<nat>, log: seq<Payment>): (ps: set<string>)
    requires InLog(ids, |log|)
  {
    set k | 0 <= k < |ids| :: log[ids[k]].paymentId
  }

  ghost predicate NoneTwice(ids: seq<nat>, log: seq<Payment>)
    requires InLog(ids, |log|)
  {
    forall a, b :: 0 <= a < b < |ids| ==> log[ids[a]].paymentId != log[ids[b]].paymentId
  }

  /** The run so far, against the processed set `base` it started with. */
  ghost predicate Answered(r: Run, c: Config, base: set<string>) {
    && InLog(r.calls, |r.db.main.log|)
    && r.done == ReturnedIds(r.calls, r.db.main.log, c.handler)
    && InLog(r.done, |r.db.main.log|) && NoneTwice(r.done, r.db.main.log)
    && r.db.processed == base + PaymentIds(r.done, r.db.main.log)
    && |r.db.processed| == |base| + |r.done|
    && (forall k :: 0 <= k < |r.calls| ==> r.db.main.log[r.calls[k]].paymentId !in base)
  }

  lemma OneMoreCall(calls: seq<nat>, id: nat, log: seq<Payment>, handler: Handler)
    requires InLog(calls, |log|) && id < |log|
    ensures ReturnedIds(calls + [id], log, handler)
         == ReturnedIds(calls, log, handler) + if handler(|calls|, log[id]).Returned? then [id] else []
  {
    assert (calls + [id])[..|calls|] == calls;
  }

  lemma OneMorePayment(ids: seq<nat>, id: nat, log: seq<Payment>)
    requires InLog(ids, |log|) && id < |log|
    ensures PaymentIds(ids + [id], log) == PaymentIds(ids, log) + {log[id].paymentId}
  {
    var all := ids + [id];
    assert all[|ids|] == id;
    forall k | 0 <= k < |ids| ensures all[k] == ids[k] {
    }
    forall p | p in PaymentIds(ids, log) ensures p in PaymentIds(all, log) {
      var k :| 0 <= k < |ids| && log[ids[k]].paymentId == p;
      assert all[k] == ids[k];
    }
  }

  /** How a delivery of `id` goes, told by the handler call it makes or does not make. */
  ghost predicate Goes(r: Run, r': Run, id: nat, c: Config)
    requires id < |r.db.main.log|
  {
    var payment, k := r.db.main.log[id], |r.calls|;
    && r'.db.main.log == r.db.main.log
    && (if payment.paymentId in r.db.processed then
          && r'.calls == r.calls && r'.done == r.done && r'.dead == r.dead && r'.skipped == r.skipped + [id]
          && r'.db.processed == r.db.processed
        else
          && r'.calls == r.calls + [id] && r'.skipped == r.skipped
          && r'.done == r.done + (if c.handler(k, payment).Returned? then [id] else [])
          && r'.db.processed
             == r.db.processed + if c.handler(k, payment).Returned? then {payment.paymentId} else {})
  }

  lemma DeliveryGoes(r: Run, id: nat, c: Config)
    requires id < |r.db.main.log|
    ensures Goes(r, HandleOne(r, id, c), id, c)
  {
  }

  lemma NoneTwiceNext(ids: seq<nat>, id: nat, log: seq<Payment>)
    requires InLog(ids, |log|) && id < |log| && NoneTwice(ids, log)
    requires log[id].paymentId !in PaymentIds(ids, log)
    ensures NoneTwice(ids + [id], log)
  {
    assert forall k :: 0 <= k < |ids| ==> log[ids[k]].paymentId in PaymentIds(ids, log);
    hide PaymentIds;
  }

  lemma CallsNext(calls: seq<nat>, id: nat, log: seq<Payment>, base: set<string>)
    requires InLog(calls, |log|) && id < |log| && log[id].paymentId !in base
    requires forall k :: 0 <= k < |calls| ==> log[calls[k]].paymentId !in base
    ensures InLog(calls + [id], |log|)
    ensures var all := calls + [id]; forall k :: 0 <= k < |all| ==> log[all[k]].paymentId !in base
  {
  }

  lemma AnsweredCall(r: Run, r': Run, id: nat, c: Config, base: set<string>)
    requires Answered(r, c, base) && id < |r.db.main.log| && Goes(r, r', id, c)
    requires r.db.main.log[id].paymentId !in r.db.processed
    ensures Answered(r', c, base)
  {
    var log := r.db.main.log;
    CallsNext(r.calls, id, log, base);
    OneMoreCall(r.calls, id, log, c.handler);
    OneMorePayment(r.done, id, log);
    hide ReturnedIds, PaymentIds, NoneTwice, InLog;
    if c.handler(|r.calls|, log[id]).Returned? {
      NoneTwiceNext(r.done, id, log);
      assert r'.done == r.done + [id] && InLog(r'.done, |log|) by {
        CallsNext(r.done, id, log, {});
      }
    } else {
      assert r'.done == r.done;
    }
  }

  lemma AnsweredStep(r: Run, id: nat, c: Config, base: set<string>)
    requires Answered(r, c, base) && id < |r.db.main.log|
    ensures Answered(HandleOne(r, id, c), c, base)
  {
    var r' := HandleOne(r, id, c);
    DeliveryGoes(r, id, c);
    hide HandleOne, ReturnedIds, PaymentIds, NoneTwice, InLog;
    if r.db.main.log[id].paymentId !in r.db.processed {
      AnsweredCall(r, r', id, c, base);
    }
  }

  lemma {:induction false} AnsweredBatch(r: Run, ids: seq<nat>, c: Config, base: set<string>)
    requires Answered(r, c, base) && InLog(ids, |r.db.main.log|)
    ensures Answered(HandleBatch(r, ids, c), c, base)
    decreases |ids|
  {
    hide Answered, HandleOne;
    if ids == [] {
    } else {
      AnsweredStep(r, ids[0], c, base);
      AnsweredBatch(HandleOne(r, ids[0], c), ids[1..], c, base);
    }
  }

  lemma {:induction false} LongerLog(calls: seq<nat>, log: seq<Payment>, more: seq<Payment>, handler: Handler)
    requires InLog(calls, |log|)
    ensures ReturnedIds(calls, log + more, handler) == ReturnedIds(calls, log, handler)
  {
    if calls == [] {
    } else {
      LongerLog(calls[..|calls| - 1], log, more, handler);
    }
  }

  lemma AnsweredOnRead(r: Run, arrivals: seq<Payment>, c: Config, base: set<string>, db: Db)
    requires Answered(r, c, base) && db.main.log == r.db.main.log + arrivals && db.processed == r.db.processed
    ensures Answered(r.(db := db), c, base)
  {
    LongerLog(r.calls, r.db.main.log, arrivals, c.handler);
    assert PaymentIds(r.done, db.main.log) == PaymentIds(r.done, r.db.main.log);
    hide ReturnedIds;
  }

  lemma AnsweredRound(r: Run, arrivals: seq<Payment>, c: Config, base: set<string>)
    requires Answered(r, c, base) && WellFormed(r.db.main)
    ensures Answered(Round(r, arrivals, c), c, base)
  {
    var published := r.db.(main := XAddAll(r.db.main, arrivals));
    var (db, ids) := Deliver(published, c);
    assert db.processed == r.db.processed;
    AnsweredOnRead(r, arrivals, c, base, db);
    AnsweredBatch(r.(db := db), ids, c, base);
    hide Answered, HandleBatch, Deliver;
  }

  /**
   Whatever the handler does and whatever is pending at the start: the payments processed are those
   of the calls that returned, each payment id once, and no recorded payment is called again.
   */
  lemma {:induction false} ProcessedIsReturned(db: Db, arrivals: Arrivals, c: Config, n: nat)
    requires WellFormed(db.main)
    ensures Answered(Rounds(Fresh(db), arrivals, c, n), c, db.processed)
  {
    hide Round, HandleBatch;
    if n == 0 {
    } else {
      hide Answered;
      ProcessedIsReturned(db, arrivals, c, n - 1);
      AnsweredRound(Rounds(Fresh(db), arrivals, c, n - 1), arrivals(n - 1), c, db.processed);
    }
  }

  /** Message `i` was the run's to settle and has left the main stream's pending list. */
  predicate Settles(start: Stream<Payment>, s: Stream<Payment>, i: nat) {
    i < s.next && i !in s.pending && (i >= start.next || i in start.pending)
  }

  /** Which of the three fates message `i` has had, and how often. */
  ghost predicate FateAt(r: Run, c: Config, start: Stream<Payment>, i: nat) {
    && multiset(r.done)[i] + multiset(r.skipped)[i] + multiset(r.dead)[i]
       == (if Settles(start, r.db.main, i) then 1 else 0)
    && (i in r.db.main.pending ==> i >= start.next || i in start.pending)
    && (i in r.skipped ==>
          && CallsFor(r, i) < Budget(c.maxAttempts)
          && i < |r.db.main.log| && r.db.main.log[i].paymentId in r.db.processed)
  }

  function LastCall(calls: seq<nat>, id: nat): (n: nat)
    ensures n <= |calls|
  {
    if calls == [] || calls[|calls| - 1] == id then |calls| else LastCall(calls[..|calls| - 1], id)
  }

  /** The k-th new letter names what the last call for its message raised. */
  ghost predicate ReasonAt(r: Run, c: Config, base: seq<DeadLetter>, k: nat) {
    && k < |r.dead| && r.dead[k] < |r.db.main.log| && |base| + k < |r.db.dlq|
    && var last := LastCall(r.calls, r.dead[k]);
    && last > 0 && r.calls[last - 1] == r.dead[k]
    && c.handler(last - 1, r.db.main.log[r.dead[k]]) == Raised(r.db.dlq[|base| + k].reason)
  }

  ghost predicate Fated(r: Run, c: Config, start: Stream<Payment>, base: seq<DeadLetter>) {
    && start.next <= r.db.main.next
    && (forall i: nat :: FateAt(r, c, start, i))
    && (forall k: nat :: k < |r.dead| ==> ReasonAt(r, c, base, k))
  }

  /** A delivery that settles message `id`, or leaves it pending. */
  ghost predicate SettlesOne(r: Run, r': Run, id: nat, c: Config) {
    && r'.db.main.log == r.db.main.log && r'.db.main.next == r.db.main.next && r.db.processed <= r'.db.processed
    && (r'.db.main.pending == r.db.main.pending - {id} || r'.db.main.pending == r.db.main.pending)
    && multiset(r'.done) + multiset(r'.skipped) + multiset(r'.dead)
       == multiset(r.done) + multiset(r.skipped) + multiset(r.dead)
          + (if id in r'.db.main.pending then multiset{} else multiset{id})
    && (r'.skipped == r.skipped
        || (r'.skipped == r.skipped + [id] && r'.calls == r.calls
            && id < |r.db.main.log| && r.db.main.log[id].paymentId in r.db.processed))
    && (r'.calls == r.calls || r'.calls == r.calls + [id])
  }

  lemma DeliverySettles(r: Run, id: nat, c: Config)
    requires id < |r.db.main.log| && id in r.db.main.pending
    ensures SettlesOne(r, HandleOne(r, id, c), id, c)
  {
    hide Attempts;
  }

  lemma FateStep(r: Run, r': Run, id: nat, c: Config, start: Stream<Payment>, i: nat)
    requires id in r.db.main.pending && id < r.db.main.next && SettlesOne(r, r', id, c)
    requires FateAt(r, c, start, i) && FateAt(r, c, start, id)
    requires CountedAt(r, c, id) && Attempts(r.attempts, id) < Budget(c.maxAttempts)
    ensures FateAt(r', c, start, i)
  {
    hide Budget, Attempts;
    var m, m' := multiset(r.done) + multiset(r.skipped) + multiset(r.dead),
                 multiset(r'.done) + multiset(r'.skipped) + multiset(r'.dead);
    assert m'[i] == m[i] + if i == id && id !in r'.db.main.pending then 1 else 0;
    assert id !in r.skipped by {
      assert multiset(r.skipped)[id] == 0;
    }
  }

  lemma LastCallNext(calls: seq<nat>, id: nat, i: nat)
    ensures LastCall(calls + [id], i) == if i == id then |calls| + 1 else LastCall(calls, i)
  {
    assert (calls + [id])[..|calls|] == calls;
  }

  /** A delivery that buries `id` appends the letter of the call it has just made. */
  lemma DeliveryBuries(r: Run, id: nat, c: Config)
    requires id < |r.db.main.log|
    ensures var r' := HandleOne(r, id, c);
            && (r'.calls == r.calls || r'.calls == r.calls + [id])
            && ((r'.dead == r.dead && r'.db.dlq == r.db.dlq)
                || (r'.dead == r.dead + [id] && r'.calls == r.calls + [id] && |r'.db.dlq| == |r.db.dlq| + 1
                    && r'.db.dlq[..|r.db.dlq|] == r.db.dlq
                    && c.handler(|r.calls|, r.db.main.log[id]) == Raised(r'.db.dlq[|r.db.dlq|].reason)))
  {
    hide XAck, Attempts;
  }

  lemma ReasonStep(r: Run, id: nat, c: Config, base: seq<DeadLetter>, k: nat)
    requires Tallied(r, c, base) && id in r.db.main.pending && id < |r.db.main.log|
    requires k < |r.dead| ==> ReasonAt(r, c, base, k)
    ensures k < |HandleOne(r, id, c).dead| ==> ReasonAt(HandleOne(r, id, c), c, base, k)
  {
    DeliveryBuries(r, id, c);
    assert |r.db.dlq| == |base| + |r.dead|;
    var r' := HandleOne(r, id, c);
    assert r'.db.main.log == r.db.main.log;
    if k < |r.dead| {
      assert r.dead[k] != id;
      LastCallNext(r.calls, id, r.dead[k]);
      assert r'.dead[k] == r.dead[k] && r'.db.dlq[|base| + k] == r.db.dlq[|base| + k];
    } else {
      LastCallNext(r.calls, id, id);
    }
    hide HandleOne, LastCall, Sound, Counted, LetterAt, Budget, CallsFor;
  }

  lemma FatedStep(r: Run, id: nat, c: Config, start: Stream<Payment>, base: seq<DeadLetter>)
    requires Fated(r, c, start, base) && Tallied(r, c, base) && id in r.db.main.pending && id < |r.db.main.log|
    ensures Fated(HandleOne(r, id, c), c, start, base)
  {
    var r' := HandleOne(r, id, c);
    DeliverySettles(r, id, c);
    assert CountedAt(r, c, id) && Attempts(r.attempts, id) < Budget(c.maxAttempts) && id < r.db.main.next;
    hide HandleOne, Tallied, FateAt, SettlesOne, Attempts, Budget, CountedAt, ReasonAt;
    forall k: nat | k < |r'.dead| ensures ReasonAt(r', c, base, k) {
      ReasonStep(r, id, c, base, k);
    }
    forall i: nat ensures FateAt(r', c, start, i) {
      assert FateAt(r, c, start, i) && FateAt(r, c, start, id);
      FateStep(r, r', id, c, start, i);
    }
  }

  lemma {:induction false} FatedBatch(r: Run, ids: seq<nat>, c: Config, start: Stream<Payment>, base: seq<DeadLetter>)
    requires Fated(r, c, start, base) && Tallied(r, c, base) && Held(r, ids) && InLog(ids, |r.db.main.log|)
    ensures Fated(HandleBatch(r, ids, c), c, start, base)
    decreases |ids|
  {
    hide HandleOne, Fated, Tallied;
    if ids == [] {
    } else {
      FatedStep(r, ids[0], c, start, base);
      TalliedStep(r, ids[0], c, base);
      FatedBatch(HandleOne(r, ids[0], c), ids[1..], c, start, base);
    }
  }

  /** Publishing and reading settle nothing. */
  lemma FatedOnRead(r: Run, arrivals: seq<Payment>, c: Config, start: Stream<Payment>, i: nat)
    requires WellFormed(r.db.main) && start.next <= r.db.main.next && FateAt(r, c, start, i)
    ensures FateAt(ReadNew(Publish(r, arrivals), c), c, start, i)
    ensures r.db.main.next <= ReadNew(Publish(r, arrivals), c).db.main.next
  {
    var s := Publish(r, arrivals).db.main;
    if s.next <= i < XReadNew(s, c.consumer, c.count).next {
      assert NewIds(s, c.count)[i - s.next] == i;
    } else {
      assert i !in NewIds(s, c.count);
    }
    hide Budget, Assign, NewIds, Range;
  }

  lemma ReasonOnRead(r: Run, arrivals: seq<Payment>, c: Config, base: seq<DeadLetter>, k: nat)
    requires WellFormed(r.db.main) && ReasonAt(r, c, base, k)
    ensures ReasonAt(ReadNew(Publish(r, arrivals), c), c, base, k)
    ensures ReadNew(Publish(r, arrivals), c).dead == r.dead
  {
    hide LastCall, Assign, NewIds;
  }

  lemma FatedRound(r: Run, arrivals: seq<Payment>, c: Config, start: Stream<Payment>, base: seq<DeadLetter>)
    requires Fated(r, c, start, base) && Tallied(r, c, base)
    ensures Fated(Round(r, arrivals, c), c, start, base)
  {
    var read, ids := RoundParts(r, arrivals, c);
    var published := Publish(r, arrivals);
    TalliedOnPublish(r, arrivals, c, base);
    TalliedOnRead(published, c, base);
    assert WellFormed(r.db.main);
    hide Sound, Tallied, FateAt, HandleBatch, Round, Deliver, Held, InLog, WellFormed, ReasonAt;
    forall k: nat | k < |read.dead| ensures ReasonAt(read, c, base, k) {
      ReasonOnRead(r, arrivals, c, base, k);
    }
    hide ReadNew, Publish;
    forall i: nat ensures FateAt(read, c, start, i) {
      assert FateAt(r, c, start, i);
      FatedOnRead(r, arrivals, c, start, i);
    }
    FatedOnRead(r, arrivals, c, start, 0);
    FatedBatch(read, ids, c, start, base);
  }

  lemma {:induction false} FatedRun(db: Db, arrivals: Arrivals, c: Config, n: nat)
    requires WellFormed(db.main) && OnlyConsumer(db, c.consumer)
    ensures Fated(Rounds(Fresh(db), arrivals, c, n), c, db.main, db.dlq)
  {
    hide Round;
    if n == 0 {
    } else {
      hide Fated, Tallied;
      FatedRun(db, arrivals, c, n - 1);
      TalliedRun(db, arrivals, c, p => false, n - 1);
      FatedRound(Rounds(Fresh(db), arrivals, c, n - 1), arrivals(n - 1), c, db.main, db.dlq);
    }
  }

  /**
   The fate of every message of every run: one that has left the main stream did so exactly once. It
   was processed if a handler call for it returned, dead-lettered if a whole budget of calls raised,
   and otherwise skipped, its payment having been recorded before.
   */
  lemma EveryFate(db: Db, arrivals: Arrivals, c: Config, n: nat, i: nat)
    requires WellFormed(db.main) && OnlyConsumer(db, c.consumer)
    ensures var r := Rounds(Fresh(db), arrivals, c, n);
            var settled := Settles(db.main, r.db.main, i);
            && InLog(r.calls, |r.db.main.log|)
            && var returned := i in ReturnedIds(r.calls, r.db.main.log, c.handler);
            && multiset(r.done + r.skipped + r.dead)[i] == (if settled then 1 else 0)
            && (i in r.done <==> returned)
            && (i in r.dead <==> settled && !returned && CallsFor(r, i) == Budget(c.maxAttempts))
            && (i in r.skipped <==> settled && !returned && CallsFor(r, i) < Budget(c.maxAttempts))
            && (i in r.skipped ==> i < |r.db.main.log| && r.db.main.log[i].paymentId in r.db.processed)
  {
    var r := Rounds(Fresh(db), arrivals, c, n);
    FatedRun(db, arrivals, c, n);
    ProcessedIsReturned(db, arrivals, c, n);
    EveryLetterSpentOneBudget(db, arrivals, c, n);
    assert FateAt(r, c, db.main, i);
    hide Rounds, Settles, Budget, CallsFor, ReturnedIds, PaymentIds, NoneTwice, Lettered;
    assert r.done + r.skipped + r.dead == (r.done + r.skipped) + r.dead;
    assert multiset(r.done + r.skipped + r.dead)[i]
        == multiset(r.done)[i] + multiset(r.skipped)[i] + multiset(r.dead)[i];
    if i in r.dead {
      var k :| 0 <= k < |r.dead| && r.dead[k] == i;
      assert CallsFor(r, r.dead[k]) == Budget(c.maxAttempts);
    }
    assert i in r.done <==> multiset(r.done)[i] > 0;
    assert i in r.skipped <==> multiset(r.skipped)[i] > 0;
    assert i in r.dead <==> multiset(r.dead)[i] > 0;
  }

  /** Every new dead letter names what the last handler call for its message raised. */
  lemma LettersSayWhy(db: Db, arrivals: Arrivals, c: Config, n: nat, k: nat)
    requires WellFormed(db.main) && OnlyConsumer(db, c.consumer) && k < |Rounds(Fresh(db), arrivals, c, n).dead|
    ensures ReasonAt(Rounds(Fresh(db), arrivals, c, n), c, db.dlq, k)
  {
    FatedRun(db, arrivals, c, n);
    hide Rounds, ReasonAt, FateAt;
  }
}
