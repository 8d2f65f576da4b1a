/**
 The broker wrapper and the consumer loop as the program runs them, each tied to the model of
 DlqModel. The stop event is the number of turns the loop takes before it is set.
 */
module DlqConsumer {
  import opened Streams
  import opened DlqModel
  import opened DlqFates

  class DLQBroker {
    var main: Stream<Payment>
    var dlq: seq<DeadLetter>
    var processed: set<string>

    ghost predicate Valid()
      reads this
    {
      WellFormed(main)
    }

    ghost function State(): Db
      reads this
    {
      Db(main, dlq, processed)
    }

    constructor ()
      ensures Valid() && State() == Db(Stream([], 0, map[]), [], {})
    {
      main, dlq, processed := Stream([], 0, map[]), [], {};
    }

    method Publish(payment: Payment) returns (id: nat)
      requires Valid()
      modifies this
      ensures Valid() && id == |old(main.log)|
      ensures State() == old(State()).(main := XAdd(old(main), payment))
    {
      id := |main.log|;
      main := main.(log := main.log + [payment]);
    }

    /** What publishers append while the consumer is elsewhere. */
    method PublishAll(payments: seq<Payment>)
      requires Valid()
      modifies this
      ensures Valid() && State() == old(State()).(main := XAddAll(old(main), payments))
    {
      assert main == XAddAll(main, payments[..0]);
      for i := 0 to |payments|
        invariant Valid() && State() == old(State()).(main := XAddAll(old(main), payments[..i]))
      {
        assert payments[..i + 1] == payments[..i] + [payments[i]];
        var _ := Publish(payments[i]);
      }
      assert payments[..|payments|] == payments;
    }

    method ReadNew(consumer: string, count: nat) returns (batch: seq<Delivery>)
      requires Valid()
      modifies this
      ensures Valid() && State() == old(State()).(main := XReadNew(old(main), consumer, count))
      ensures batch == Deliveries(main.log, NewIds(old(main), count))
    {
      var ids := NewIds(main, count);
      batch := Deliveries(main.log, ids);
      main := main.(next := main.next + |ids|, pending := Assign(ids, consumer, main.pending));
    }

    method ReadPending(consumer: string, count: nat) returns (batch: seq<Delivery>)
      requires Valid()
      ensures InLog(PendingIds(main, consumer, count), |main.log|)
      ensures batch == Deliveries(main.log, PendingIds(main, consumer, count))
    {
      batch := Deliveries(main.log, PendingIds(main, consumer, count));
    }

    /** Returns how many entries the ack removed. */
    method Ack(id: nat) returns (acked: nat)
      requires Valid()
      modifies this
      ensures Valid() && State() == AckMain(old(State()), id)
      ensures acked == if id in old(main.pending) then 1 else 0
    {
      acked := if id in main.pending then 1 else 0;
      main := main.(pending := main.pending - {id});
    }

    /** Ack first, append second. */
    method MoveToDlq(id: nat, payment: Payment, reason: string, attempt: nat)
      requires Valid()
      modifies this
      ensures Valid()
      ensures State() == AckMain(old(State()), id).(dlq := old(dlq) + [DeadLetter(payment, reason, attempt)])
    {
      var _ := Ack(id);
      dlq := dlq + [DeadLetter(payment, reason, attempt)];
    }

    method IsProcessed(paymentId: string) returns (seen: bool)
      ensures seen <==> paymentId in processed
    {
      seen := paymentId in processed;
    }

    method MarkProcessed(paymentId: string)
      requires Valid()
      modifies this
      ensures Valid() && State() == old(State()).(processed := old(processed) + {paymentId})
    {
      processed := processed + {paymentId};
    }
  }

  /** The loop's own variables: the attempt counters, handler calls made and payments processed. */
  datatype Counters = Counters(attempts: map<nat, nat>, calls: nat, processed: nat)

  function CountersOf(r: Run): Counters {
    Counters(r.attempts, |r.calls|, |r.done|)
  }

  /** A duplicate is acked and nothing else: no call, nothing counted, nothing recorded. */
  ghost predicate Duplicate(db: Db, before: Counters, db': Db, after: Counters, id: nat) {
    db' == db.(main := XAck(db.main, id)) && after == before
  }

  /** The handler returned: the payment is recorded, the entry acked, and one more is counted. */
  ghost predicate Processed(db: Db, before: Counters, db': Db, after: Counters, d: Delivery) {
    && db' == Db(XAck(db.main, d.id), db.dlq, db.processed + {d.payment.paymentId})
    && after.calls == before.calls + 1 && after.processed == before.processed + 1
    && d.id !in after.attempts
  }

  /** It raised: one attempt more, and the letter with the ack once the budget is spent. */
  ghost predicate Failed(db: Db, before: Counters, db': Db, after: Counters, d: Delivery, reason: string, max: int) {
    var attempt := Attempts(before.attempts, d.id) + 1;
    && after.calls == before.calls + 1 && after.processed == before.processed && db'.processed == db.processed
    && if attempt < max then db' == db && after.attempts == before.attempts[d.id := attempt]
       else
         && db'.main == XAck(db.main, d.id) && d.id !in after.attempts
         && db'.dlq == db.dlq + [DeadLetter(d.payment, reason, attempt)]
  }

  /** The loop body for one entry of a batch. */
  method HandleDelivery(broker: DLQBroker, d: Delivery, c: Config, before: Counters,
      ghost r: Run) returns (after: Counters)
    requires broker.Valid() && broker.State() == r.db && before == CountersOf(r)
    requires d.id < |r.db.main.log| && d.payment == r.db.main.log[d.id]
    modifies broker
    ensures broker.Valid()
    ensures broker.State() == HandleOne(r, d.id, c).db && after == CountersOf(HandleOne(r, d.id, c))
    ensures var db, payment := old(broker.State()), d.payment;
            if payment.paymentId in db.processed then Duplicate(db, before, broker.State(), after, d.id)
            else if c.handler(before.calls, payment).Returned? then Processed(db, before, broker.State(), after, d)
            else Failed(db, before, broker.State(), after, d, c.handler(before.calls, payment).reason, c.maxAttempts)
  {
    after := before;
    var seen := broker.IsProcessed(d.payment.paymentId);
    if seen {
      var _ := broker.Ack(d.id);
      return;
    }
    var outcome := c.handler(before.calls, d.payment);
    after := after.(calls := before.calls + 1);
    if outcome.Raised? {
      var attempt := (if d.id in before.attempts then before.attempts[d.id] else 0) + 1;
      after := after.(attempts := before.attempts[d.id := attempt]);
      if attempt < c.maxAttempts {
        return;
      }
      broker.MoveToDlq(d.id, d.payment, outcome.reason, attempt);
      after := after.(attempts := after.attempts - {d.id});
      assert after.attempts == HandleOne(r, d.id, c).attempts;
      return;
    }
    broker.MarkProcessed(d.payment.paymentId);
    var _ := broker.Ack(d.id);
    after := after.(attempts := before.attempts - {d.id}, processed := before.processed + 1);
  }

  /** `>` first, the consumer's own backlog when that is empty. */
  method NextBatch(broker: DLQBroker, c: Config) returns (batch: seq<Delivery>)
    requires broker.Valid()
    modifies broker
    ensures broker.Valid() && broker.State() == Deliver(old(broker.State()), c).0
    ensures batch == Deliveries(broker.main.log, Deliver(old(broker.State()), c).1)
  {
    hide OwnedBelow, Range, Assign;
    batch := broker.ReadNew(c.consumer, c.count);
    if batch == [] {
      batch := broker.ReadPending(c.consumer, c.count);
    }
  }

  method HandleDeliveries(broker: DLQBroker, batch: seq<Delivery>, c: Config, before: Counters,
                          ghost r: Run, ghost ids: seq<nat>) returns (after: Counters)
    requires broker.Valid() && broker.State() == r.db && before == CountersOf(r)
    requires InLog(ids, |r.db.main.log|) && batch == Deliveries(r.db.main.log, ids)
    modifies broker
    ensures broker.Valid()
    ensures broker.State() == HandleBatch(r, ids, c).db && after == CountersOf(HandleBatch(r, ids, c))
  {
    hide HandleOne, CountersOf, WellFormed;
    after := before;
    ghost var now := r;
    for j := 0 to |batch|
      invariant broker.Valid() && broker.State() == now.db && now.db.main.log == r.db.main.log
      invariant HandleBatch(now, ids[j..], c) == HandleBatch(r, ids, c)
      invariant after == CountersOf(now)
    {
      assert ids[j..][0] == batch[j].id && ids[j..][1..] == ids[j + 1..];
      after := HandleDelivery(broker, batch[j], c, after, now);
      now := HandleOne(now, batch[j].id, c);
    }
    assert ids[|batch|..] == [];
  }

  method RunIdempotentConsumer(broker: DLQBroker, c: Config, arrivals: Arrivals, turns: nat)
    returns (totalProcessed: nat, ghost run: Run)
    requires broker.Valid()
    modifies broker
    ensures broker.Valid()
    ensures run == Rounds(Fresh(old(broker.State())), arrivals, c, turns)
    ensures broker.State() == run.db && totalProcessed == |run.done|
    ensures InLog(run.calls, |broker.main.log|)
    ensures totalProcessed == |ReturnedIds(run.calls, broker.main.log, c.handler)|
    ensures |broker.processed| == |old(broker.processed)| + totalProcessed
  {
    hide HandleBatch, Deliver, HandleOne, ReturnedIds, PaymentIds, NoneTwice;
    var counters := Counters(map[], 0, 0);
    run := Fresh(broker.State());
    for turn := 0 to turns
      invariant broker.Valid() && broker.State() == run.db
      invariant run == Rounds(Fresh(old(broker.State())), arrivals, c, turn)
      invariant counters == CountersOf(run)
    {
      broker.PublishAll(arrivals(turn));
      ghost var published := broker.State();
      var batch := NextBatch(broker, c);
      ghost var read := run.(db := broker.State());
      counters := HandleDeliveries(broker, batch, c, counters, read, Deliver(published, c).1);
      run := HandleBatch(read, Deliver(published, c).1, c);
    }
    totalProcessed := counters.processed;
    ProcessedIsReturned(old(broker.State()), arrivals, c, turns);
  }
}
