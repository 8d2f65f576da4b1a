/**
 The transactional outbox as a state machine over the awaits of one relay, which may fail, crash
 and be started again while orders are inserted at any moment.
 */
module OutboxProtocol {

  datatype Order = Order(orderId: string, customerId: string, amount: real)

  datatype Row = Row(id: nat, order: Order)

  /** The two tables; rows stand in id order and ids are never reused. */
  datatype Db = Db(orders: map<string, Order>, outbox: seq<Row>, lastId: nat)

  /** What the relay is about to do; `rows` is what is left of the page it polled. */
  datatype Local = Down | Polling | Publishing(rows: seq<Row>) | Deleting(rows: seq<Row>)

  /**
   `inserted` are the committed orders in order, `sent` the row id of each stream entry, and
   `crashed` the rows published by a relay that did not live to delete them.
   */
  datatype System = System(db: Db, stream: seq<Order>, local: Local,
                           inserted: seq<Order>, sent: seq<nat>, crashed: seq<nat>)

  datatype Label = Insert(order: Order) | Start | Advance | FailPublish | Crash

  const LIMIT: nat := 10

  function Initial(): System {
    System(Db(map[], [], 0), [], Down, [], [], [])
  }

  /** One transaction: both rows, or nothing when the order id is taken. */
  function InsertOrder(db: Db, order: Order): Db {
    if order.orderId in db.orders then db
    else Db(db.orders[order.orderId := order], db.outbox + [Row(db.lastId + 1, order)], db.lastId + 1)
  }

  function Poll(outbox: seq<Row>, limit: nat): seq<Row> {
    if |outbox| <= limit then outbox else outbox[..limit]
  }

  function Delete(outbox: seq<Row>, id: nat): seq<Row> {
    if outbox == [] then []
    else if outbox[0].id == id then Delete(outbox[1..], id)
    else [outbox[0]] + Delete(outbox[1..], id)
  }

  function After(rows: seq<Row>): Local {
    if rows == [] then Polling else Publishing(rows)
  }

  function RelayStep(s: System): System {
    match s.local
    case Down => s
    case Polling => s.(local := After(Poll(s.db.outbox, LIMIT)))
    case Publishing(rows) =>
      if rows == [] then s.(local := Polling)
      else s.(stream := s.stream + [rows[0].order], sent := s.sent + [rows[0].id], local := Deleting(rows))
    case Deleting(rows) =>
      if rows == [] then s.(local := Polling)
      else s.(db := s.db.(outbox := Delete(s.db.outbox, rows[0].id)), local := After(rows[1..]))
  }

  function Step(s: System, l: Label): System {
    match l
    case Insert(order) =>
      s.(db := InsertOrder(s.db, order),
         inserted := if order.orderId in s.db.orders then s.inserted else s.inserted + [order])
    case Start => if s.local.Down? then s.(local := Polling) else s
    case Advance => RelayStep(s)
    case FailPublish => if s.local.Publishing? then s.(local := Down) else s
    case Crash =>
      s.(local := Down,
         crashed := if s.local.Deleting? && s.local.rows != [] then s.crashed + [s.local.rows[0].id] else s.crashed)
  }

  function Exec(s: System, trace: seq<Label>): System {
    if trace == [] then s else Step(Exec(s, trace[..|trace| - 1]), trace[|trace| - 1])
  }

  lemma {:induction false} ExecAppend(s: System, t: seq<Label>, t': seq<Label>)
    ensures Exec(s, t + t') == Exec(Exec(s, t), t')
    decreases |t'|
  {
    hide Step;
    if t' == [] {
      assert t + t' == t;
    } else {
      assert (t + t')[..|t + t'| - 1] == t + t'[..|t'| - 1];
      ExecAppend(s, t, t'[..|t'| - 1]);
    }
  }
}
