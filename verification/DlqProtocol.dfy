/**
 The dead-letter consumer one await at a time: any number of named consumers, publishers,
 stops, restarts and crashes in any order. A crash drops a consumer's local state and
 nothing else.
 */
module DlqProtocol {
  import opened Streams
  import opened DlqModel

  /** The await a consumer is suspended in while it works on a message. */
  datatype Stage =
    | Checking
    | Skipping
    | Handling
    | Marking
    | Acking
    | Burying(reason: string, attempt: nat)
    | Adding(reason: string, attempt: nat)

  /** A consumer's local state; `calls` records the handler calls of this run by message id. */
  datatype Local =
    | Down
    | Idle(attempts: map<nat, nat>, calls: seq<nat>)
    | Polling(attempts: map<nat, nat>, calls: seq<nat>)
    | Busy(stage: Stage, msg: Delivery, rest: seq<Delivery>, attempts: map<nat, nat>, calls: seq<nat>)

  datatype Charge = Charge(consumer: string, paymentId: string)

  datatype CrashRecord = CrashRecord(consumer: string, local: Local)

  /** What happened so far: handler calls and returns, crashes, and how messages left the main stream. */
  datatype History = History(
    calls: seq<Charge>, charges: seq<Charge>, crashes: seq<CrashRecord>, buried: seq<nat>, settled: set<nat>)

  datatype System = System(db: Db, locals: map<string, Local>, history: History)

  datatype Settings = Settings(count: nat, maxAttempts: int)

  datatype Label =
    | Publish(payment: Payment)
    | Start(consumer: string)
    | Stop(consumer: string)
    | Crash(consumer: string)
    | Advance(consumer: string, outcome: Outcome)

  function Initial(): System {
    System(Db(Stream([], 0, map[]), [], {}), map[], History([], [], [], [], {}))
  }

  function LocalOf(s: System, c: string): Local {
    if c in s.locals then s.locals[c] else Down
  }

  function Put(s: System, c: string, u: Local): System {
    s.(locals := s.locals[c := u])
  }

  /** What is left of a batch: its next message is checked first, or the loop starts over. */
  function Begin(batch: seq<Delivery>, attempts: map<nat, nat>, calls: seq<nat>): Local {
    if batch == [] then Idle(attempts, calls) else Busy(Checking, batch[0], batch[1..], attempts, calls)
  }

  function ReadNewStep(s: System, c: string, u: Local, k: Settings): System
    requires u.Idle? && s.db.main.next <= |s.db.main.log|
  {
    var ids := NewIds(s.db.main, k.count);
    var s' := s.(db := s.db.(main := XReadNew(s.db.main, c, k.count)));
    Put(s', c, if ids == [] then Polling(u.attempts, u.calls)
               else Begin(Deliveries(s.db.main.log, ids), u.attempts, u.calls))
  }

  function ReadPendingStep(s: System, c: string, u: Local, k: Settings): System
    requires u.Polling? && s.db.main.next <= |s.db.main.log|
  {
    var ids := PendingIds(s.db.main, c, k.count);
    Put(s, c, Begin(Deliveries(s.db.main.log, ids), u.attempts, u.calls))
  }

  function BusyStep(s: System, c: string, u: Local, outcome: Outcome, k: Settings): System
    requires u.Busy?
  {
    var id, payment := u.msg.id, u.msg.payment;
    match u.stage
    case Checking =>
      if payment.paymentId in s.db.processed then Put(s, c, u.(stage := Skipping))
      else
        Put(s.(history := s.history.(calls := s.history.calls + [Charge(c, payment.paymentId)])), c,
            u.(stage := Handling, calls := u.calls + [id]))
    case Skipping =>
      Put(Settle(s, id), c, Begin(u.rest, u.attempts, u.calls))
    case Handling =>
      (match outcome
       case Returned =>
         Put(s.(history := s.history.(charges := s.history.charges + [Charge(c, payment.paymentId)])), c,
             u.(stage := Marking))
       case Raised(reason) =>
         var attempt := Attempts(u.attempts, id) + 1;
         var attempts := u.attempts[id := attempt];
         if attempt < k.maxAttempts then Put(s, c, Begin(u.rest, attempts, u.calls))
         else Put(s, c, u.(stage := Burying(reason, attempt), attempts := attempts)))
    case Marking =>
      Put(s.(db := s.db.(processed := s.db.processed + {payment.paymentId})), c, u.(stage := Acking))
    case Acking =>
      Put(Settle(s, id), c, Begin(u.rest, u.attempts - {id}, u.calls))
    case Burying(reason, attempt) =>
      Put(s.(db := AckMain(s.db, id)), c, u.(stage := Adding(reason, attempt)))
    case Adding(reason, attempt) =>
      Put(Bury(s, id, DeadLetter(payment, reason, attempt)), c, Begin(u.rest, u.attempts - {id}, u.calls))
  }

  function Settle(s: System, id: nat): System {
    s.(db := AckMain(s.db, id), history := s.history.(settled := s.history.settled + {id}))
  }

  function Bury(s: System, id: nat, letter: DeadLetter): System {
    s.(db := s.db.(dlq := s.db.dlq + [letter]), history := s.history.(buried := s.history.buried + [id]))
  }

  /** One step; a label that is not enabled changes nothing. */
  function Step(s: System, l: Label, k: Settings): (s': System)
    requires s.db.main.next <= |s.db.main.log|
    ensures s'.db.main.next <= |s'.db.main.log|
  {
    match l
    case Publish(p) => s.(db := s.db.(main := XAdd(s.db.main, p)))
    case Start(c) => if LocalOf(s, c).Down? then Put(s, c, Idle(map[], [])) else s
    case Stop(c) => if LocalOf(s, c).Idle? then Put(s, c, Down) else s
    case Crash(c) =>
      if LocalOf(s, c).Down? then s
      else Put(s.(history := s.history.(crashes := s.history.crashes + [CrashRecord(c, LocalOf(s, c))])), c, Down)
    case Advance(c, outcome) =>
      match LocalOf(s, c)
      case Down => s
      case Idle(_, _) => ReadNewStep(s, c, LocalOf(s, c), k)
      case Polling(_, _) => ReadPendingStep(s, c, LocalOf(s, c), k)
      case Busy(_, _, _, _, _) => BusyStep(s, c, LocalOf(s, c), outcome, k)
  }

  function Exec(s: System, trace: seq<Label>, k: Settings): (s': System)
    requires s.db.main.next <= |s.db.main.log|
    ensures s'.db.main.next <= |s'.db.main.log|
  {
    if trace == [] then s
    else Step(Exec(s, trace[..|trace| - 1], k), trace[|trace| - 1], k)
  }

  lemma {:induction false} ExecAppend(s: System, t: seq<Label>, t': seq<Label>, k: Settings)
    requires s.db.main.next <= |s.db.main.log|
    ensures Exec(s, t + t', k) == Exec(Exec(s, t, k), t', k)
    decreases |t'|
  {
    if t' == [] {
      assert t + t' == t;
    } else {
      assert (t + t')[..|t + t'| - 1] == t + t'[..|t'| - 1];
      ExecAppend(s, t, t'[..|t'| - 1], k);
    }
  }
}
