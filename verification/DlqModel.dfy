/**
 The dead-letter pipeline: what the broker stores, and one consumer run as a function
 of the handler's behaviour and of the payments published while it runs.
 */
module DlqModel {
  import opened Streams

  datatype Payment = Payment(paymentId: string, amountCents: int, customerId: string, currency: string)

  /** A dead letter: the payment, the exception's type name and the attempt that spent the budget. */
  datatype DeadLetter = DeadLetter(payment: Payment, reason: string, attempt: nat)

  /** Everything that survives a consumer: both streams and the processed set. */
  datatype Db = Db(main: Stream<Payment>, dlq: seq<DeadLetter>, processed: set<string>)

  datatype Outcome = Returned | Raised(reason: string)

  /** The handler as an oracle: what its k-th call of a run does with a payment. */
  type Handler = (nat, Payment) -> Outcome

  /** The arguments of a run: its consumer name, batch size, retry budget and handler. */
  datatype Config = Config(consumer: string, count: nat, maxAttempts: int, handler: Handler)

  /**
   One run of the consumer. `attempts` is the consumer's own dictionary; the other
   fields record, by message id and in order, the handler calls made and how each
   message left the main stream.
   */
  datatype Run = Run(
    db: Db, attempts: map<nat, nat>,
    calls: seq<nat>, done: seq<nat>, skipped: seq<nat>, dead: seq<nat>)

  function Fresh(db: Db): Run {
    Run(db, map[], [], [], [], [])
  }

  /** How many failures a message survives before it is dead-lettered, whatever `maxAttempts` is. */
  function Budget(maxAttempts: int): nat {
    if maxAttempts >= 1 then maxAttempts else 1
  }

  function Attempts(attempts: map<nat, nat>, id: nat): nat {
    if id in attempts then attempts[id] else 0
  }

  function AckMain(db: Db, id: nat): Db {
    db.(main := XAck(db.main, id))
  }

  function Skip(r: Run, id: nat): Run {
    r.(db := AckMain(r.db, id), skipped := r.skipped + [id])
  }

  function Succeed(r: Run, id: nat): Run
    requires id < |r.db.main.log|
  {
    var marked := r.db.(processed := r.db.processed + {r.db.main.log[id].paymentId});
    r.(db := AckMain(marked, id), attempts := r.attempts - {id}, calls := r.calls + [id], done := r.done + [id])
  }

  function Fail(r: Run, id: nat, reason: string, maxAttempts: int): Run
    requires id < |r.db.main.log|
  {
    var attempt := Attempts(r.attempts, id) + 1;
    if attempt < maxAttempts then
      r.(attempts := r.attempts[id := attempt], calls := r.calls + [id])
    else
      var acked := AckMain(r.db, id);
      r.(db := acked.(dlq := acked.dlq + [DeadLetter(r.db.main.log[id], reason, attempt)]),
         attempts := r.attempts - {id}, calls := r.calls + [id], dead := r.dead + [id])
  }

  /** One delivery: duplicate check, then handler, then ack, redelivery or dead letter. */
  function HandleOne(r: Run, id: nat, c: Config): (r': Run)
    requires id < |r.db.main.log|
    ensures r'.db.main.log == r.db.main.log && r'.db.main.next == r.db.main.next
  {
    var payment := r.db.main.log[id];
    if payment.paymentId in r.db.processed then Skip(r, id)
    else
      match c.handler(|r.calls|, payment)
      case Returned => Succeed(r, id)
      case Raised(reason) => Fail(r, id, reason, c.maxAttempts)
  }

  ghost predicate InLog(ids: seq<nat>, n: nat) {
    forall k :: 0 <= k < |ids| ==> ids[k] < n
  }

  /** One entry of a batch: the message id with the payment decoded from its fields. */
  datatype Delivery = Delivery(id: nat, payment: Payment)

  function Deliveries(log: seq<Payment>, ids: seq<nat>): (ds: seq<Delivery>)
    requires InLog(ids, |log|)
    ensures |ds| == |ids|
    ensures forall k :: 0 <= k < |ds| ==> ds[k] == Delivery(ids[k], log[ids[k]])
  {
    seq(|ids|, k requires 0 <= k < |ids| => Delivery(ids[k], log[ids[k]]))
  }

  function HandleBatch(r: Run, ids: seq<nat>, c: Config): (r': Run)
    requires InLog(ids, |r.db.main.log|)
    ensures r'.db.main.log == r.db.main.log && r'.db.main.next == r.db.main.next
    decreases |ids|
  {
    if ids == [] then r
    else HandleBatch(HandleOne(r, ids[0], c), ids[1..], c)
  }

  /** `>` first; the consumer's own backlog only when that comes back empty. */
  function Deliver(db: Db, c: Config): (r: (Db, seq<nat>))
    requires WellFormed(db.main)
    ensures InLog(r.1, |r.0.main.log|)
    ensures r.0.main.log == db.main.log
  {
    var unseen := NewIds(db.main, c.count);
    var read := db.(main := XReadNew(db.main, c.consumer, c.count));
    if unseen != [] then (read, unseen)
    else
      (read, PendingIds(read.main, c.consumer, c.count))
  }

  /** One turn of the loop, after `arrivals` were published since the last read. */
  function Round(r: Run, arrivals: seq<Payment>, c: Config): (r': Run)
    requires WellFormed(r.db.main)
  {
    var published := r.db.(main := XAddAll(r.db.main, arrivals));
    var (db, ids) := Deliver(published, c);
    HandleBatch(r.(db := db), ids, c)
  }

  lemma HandleOneWellFormed(r: Run, id: nat, c: Config)
    requires WellFormed(r.db.main) && id < |r.db.main.log|
    ensures WellFormed(HandleOne(r, id, c).db.main)
  {
  }

  lemma {:induction false} HandleBatchWellFormed(r: Run, ids: seq<nat>, c: Config)
    requires WellFormed(r.db.main) && InLog(ids, |r.db.main.log|)
    ensures WellFormed(HandleBatch(r, ids, c).db.main)
    decreases |ids|
  {
    if ids == [] {
    } else {
      HandleOneWellFormed(r, ids[0], c);
      HandleBatchWellFormed(HandleOne(r, ids[0], c), ids[1..], c);
    }
  }

  lemma RoundWellFormed(r: Run, arrivals: seq<Payment>, c: Config)
    requires WellFormed(r.db.main)
    ensures WellFormed(Round(r, arrivals, c).db.main)
  {
    var published := r.db.(main := XAddAll(r.db.main, arrivals));
    var (db, ids) := Deliver(published, c);
    HandleBatchWellFormed(r.(db := db), ids, c);
  }

  /** What is published before each turn of the loop. */
  type Arrivals = nat -> seq<Payment>

  /** The first `n` turns of the loop. */
  ghost function Rounds(r: Run, arrivals: Arrivals, c: Config, n: nat): (r': Run)
    requires WellFormed(r.db.main)
    ensures WellFormed(r'.db.main)
  {
    if n == 0 then r
    else
      var before := Rounds(r, arrivals, c, n - 1);
      RoundWellFormed(before, arrivals(n - 1), c);
      Round(before, arrivals(n - 1), c)
  }
}
