/**
 The store and the relay loop as the program runs them. Orders arrive while the relay awaits, and
 a publish may fail, which ends the relay. Whatever it does is a run of the state machine, and what
 it leaves behind is told by the publishes it attempted and the orders that arrived during them.
 */
module OutboxRelay {
  import opened Basics
  import opened OutboxProtocol
  import opened OutboxSafety

  class OutboxStore {
    var orders: map<string, Order>
    var outbox: seq<Row>
    var lastId: nat
    ghost var inserted: seq<Order>

    constructor ()
      ensures orders == map[] && outbox == [] && lastId == 0 && inserted == []
    {
      orders, outbox, lastId, inserted := map[], [], 0, [];
    }

    function Tables(): Db
      reads this
    {
      Db(orders, outbox, lastId)
    }

    /** Both rows or none: a taken order id rolls the transaction back. */
    method InsertOrderWithOutbox(order: Order) returns (committed: bool, id: nat)
      modifies this
      ensures Tables() == InsertOrder(old(Tables()), order)
      ensures committed <==> order.orderId !in old(orders)
      ensures inserted == if committed then old(inserted) + [order] else old(inserted)
      ensures committed ==> outbox == old(outbox) + [Row(id, order)] && id == old(lastId) + 1
    {
      if order.orderId in orders {
        return false, 0;
      }
      orders := orders[order.orderId := order];
      lastId := lastId + 1;
      outbox := outbox + [Row(lastId, order)];
      inserted := inserted + [order];
      return true, lastId;
    }

    method PollOutbox(limit: nat) returns (rows: seq<Row>)
      ensures rows == Poll(outbox, limit) && rows <= outbox && (|rows| == limit || rows == outbox)
    {
      if |outbox| <= limit {
        return outbox;
      }
      return outbox[..limit];
    }

    method DeleteOutboxEntry(id: nat)
      modifies this`outbox
      ensures outbox == Delete(old(outbox), id)
    {
      var i := |outbox|;
      assert outbox[i..] == [];
      var kept: seq<Row> := [];
      while i > 0
        invariant i <= |outbox| && outbox == old(outbox)
        invariant kept == Delete(outbox[i..], id)
      {
        i := i - 1;
        assert outbox[i..] == [outbox[i]] + outbox[i + 1..];
        if outbox[i].id != id {
          kept := [outbox[i]] + kept;
        }
      }
      assert outbox[0..] == outbox;
      outbox := kept;
    }
  }

  class RedisBroker {
    var stream: seq<Order>
    ghost var sent: seq<nat>

    constructor ()
      ensures stream == [] && sent == []
    {
      stream, sent := [], [];
    }

    method Publish(order: Order, ghost id: nat)
      modifies this
      ensures stream == old(stream) + [order] && sent == old(sent) + [id]
    {
      stream := stream + [order];
      sent := sent + [id];
    }
  }

  /** The machine state the two objects stand for. */
  ghost predicate Stands(store: OutboxStore, broker: RedisBroker, s: System)
    reads store, broker
  {
    && s.db == store.Tables() && s.inserted == store.inserted
    && s.stream == broker.stream && s.sent == broker.sent
  }

  function Inserts(orders: seq<Order>): (t: seq<Label>)
    ensures |t| == |orders| && forall i :: 0 <= i < |t| ==> t[i] == Insert(orders[i])
  {
    seq(|orders|, i requires 0 <= i < |orders| => Insert(orders[i]))
  }

  /** Inserting changes neither where the relay stands nor what it has deleted. */
  lemma {:induction false} InsertsOnly(s: System, orders: seq<Order>)
    requires Inv(s)
    ensures var s' := Exec(s, Inserts(orders));
            Inv(s') && s'.local == s.local && Deleted(s') == Deleted(s) && s.db.outbox <= s'.db.outbox
                && |s.inserted| <= |s'.inserted|
  {
    if orders == [] {
    } else {
      var n := |orders| - 1;
      assert Inserts(orders)[..n] == Inserts(orders[..n]);
      var before := Exec(s, Inserts(orders[..n]));
      assert Exec(s, Inserts(orders)) == Step(before, Insert(orders[n]));
      hide Inv, Exec, Step, Deleted;
      InsertsOnly(s, orders[..n]);
      InsertStep(before, orders[n]);
      assert s.db.outbox <= before.db.outbox;
    }
  }

  lemma InsertNext(s: System, orders: seq<Order>, i: nat)
    requires i < |orders|
    ensures Exec(s, Inserts(orders[..i + 1])) == Step(Exec(s, Inserts(orders[..i])), Insert(orders[i]))
  {
    assert Inserts(orders[..i + 1])[..i] == Inserts(orders[..i]);
    hide Step;
  }

  method Arrive(store: OutboxStore, broker: RedisBroker, orders: seq<Order>, ghost s: System)
    requires Stands(store, broker, s) && Inv(s)
    modifies store
    ensures Stands(store, broker, Exec(s, Inserts(orders)))
  {
    assert Exec(s, Inserts(orders[..0])) == s;
    hide Exec, Inserts, Inv;
    for i := 0 to |orders|
      invariant Stands(store, broker, Exec(s, Inserts(orders[..i])))
    {
      InsertNext(s, orders, i);
      var committed, id := store.InsertOrderWithOutbox(orders[i]);
    }
    assert orders[..|orders|] == orders;
  }

  lemma OneAdvance(s: System, t: seq<Label>)
    ensures Exec(s, t + [Advance]) == RelayStep(Exec(s, t))
  {
    assert (t + [Advance])[..|t|] == t;
  }

  lemma OneFailure(s: System, t: seq<Label>)
    ensures Exec(s, t + [FailPublish]) == Step(Exec(s, t), FailPublish)
  {
    assert (t + [FailPublish])[..|t|] == t;
  }

  ghost predicate NoCrash(t: seq<Label>) {
    Crash !in t
  }

  /** The labels of one entry: what arrives during the publish, then its outcome. */
  function EntryTrace(arriving: seq<Order>, fails: bool): (t: seq<Label>)
    ensures NoCrash(t)
  {
    Inserts(arriving) + if fails then [FailPublish] else [Advance] + [Advance]
  }

  lemma EntryFails(s: System, arriving: seq<Order>)
    requires Inv(s) && s.local.Publishing?
    ensures var s' := Exec(s, EntryTrace(arriving, true));
            && s' == Exec(s, Inserts(arriving)).(local := Down)
            && Inv(s') && Deleted(s') == Deleted(s) && |s'.inserted| >= |s.inserted|
  {
    InsertsOnly(s, arriving);
    OneFailure(s, Inserts(arriving));
    InvStep(Exec(s, Inserts(arriving)), FailPublish);
    hide Inv, Exec, Inserts;
  }

  /** The relay's two awaits after the arrivals `s1`. */
  lemma EntrySucceeds(s: System, arriving: seq<Order>)
    requires Inv(s) && s.local.Publishing?
    ensures var s1 := Exec(s, Inserts(arriving)); var s' := Exec(s, EntryTrace(arriving, false));
            && s1.local == s.local && s.local.rows != []
            && s'.stream == s1.stream + [s.local.rows[0].order] && s'.sent == s1.sent + [s.local.rows[0].id]
            && s'.db == s1.db.(outbox := Delete(s1.db.outbox, s.local.rows[0].id)) && s'.inserted == s1.inserted
            && Inv(s') && s'.local == After(s.local.rows[1..])
            && Deleted(s') == Deleted(s) + 1 && |s'.inserted| >= |s.inserted|
  {
    var t := Inserts(arriving);
    var s1 := Exec(s, t);
    InsertsOnly(s, arriving);
    OneAdvance(s, t);
    OneAdvance(s, t + [Advance]);
    assert t + [Advance] + [Advance] == t + ([Advance] + [Advance]);
    assert s.local.rows != [];
    hide Exec, Inserts;
    PublishStep(s1);
    DeleteStep(RelayStep(s1));
    hide Inv, Deleted, Delete;
  }

  /** One entry: orders arrive while the publish is awaited, then the row is deleted. */
  method RelayEntry(store: OutboxStore, broker: RedisBroker, row: Row, arriving: seq<Order>, fails: bool,
      ghost s: System)
    requires Stands(store, broker, s) && Inv(s)
    requires s.local.Publishing? && s.local.rows != [] && s.local.rows[0] == row
    modifies store, broker
    ensures Stands(store, broker, Exec(s, EntryTrace(arriving, fails)))
  {
    Arrive(store, broker, arriving, s);
    if fails {
      EntryFails(s, arriving);
      hide Inv, Exec, EntryTrace, Delete, Inserts, Deleted;
      return;
    }
    EntrySucceeds(s, arriving);
    hide Inv, Exec, EntryTrace, Delete, Inserts, Deleted, After;
    broker.Publish(row.order, row.id);
    store.DeleteOutboxEntry(row.id);
  }

  /** The orders inserted along a trace. */
  function InsertsOf(t: seq<Label>): seq<Order> {
    if t == [] then []
    else InsertsOf(t[..|t| - 1]) + if t[|t| - 1].Insert? then [t[|t| - 1].order] else []
  }

  function InsertAll(db: Db, orders: seq<Order>): Db {
    if orders == [] then db else InsertOrder(InsertAll(db, orders[..|orders| - 1]), orders[|orders| - 1])
  }

  function OrdersOf(rows: seq<Row>): (orders: seq<Order>)
    ensures |orders| == |rows| && forall i :: 0 <= i < |rows| ==> orders[i] == rows[i].order
  {
    seq(|rows|, i requires 0 <= i < |rows| => rows[i].order)
  }

  /** What arrives during the publishes `0 .. n`. */
  ghost function Arrived(arrivals: nat -> seq<Order>, n: nat): seq<Order> {
    if n == 0 then [] else Arrived(arrivals, n - 1) + arrivals(n - 1)
  }

  /**
   The tables `db` with `orders` inserted, their oldest `gone` rows deleted and the oldest `sent` on
   the stream after `stream`.
   */
  ghost predicate Balances(db: Db, stream: seq<Order>, orders: seq<Order>, gone: nat, sent: nat, db': Db,
                           stream': seq<Order>) {
    var full := InsertAll(db, orders);
    && gone <= sent <= |full.outbox|
    && db' == full.(outbox := full.outbox[gone..])
    && stream' == stream + OrdersOf(full.outbox[..sent])
  }

  /** A row more on the stream than deleted, between the two awaits of an entry. */
  function InHand(u: Local): nat {
    if u.Deleting? then 1 else 0
  }

  /** `now` is what `s` becomes with `orders` inserted and the oldest rows relayed. */
  ghost predicate Balanced(s: System, orders: seq<Order>, now: System) {
    && Inv(now) && Deleted(now) >= Deleted(s)
    && var n := Deleted(now) - Deleted(s);
    Balances(s.db, s.stream, orders, n, n + InHand(now.local), now.db, now.stream)
  }

  lemma BalancesInsert(db: Db, stream: seq<Order>, orders: seq<Order>, gone: nat, sent: nat, db': Db,
                       stream': seq<Order>, order: Order)
    requires Balances(db, stream, orders, gone, sent, db', stream')
    ensures Balances(db, stream, orders + [order], gone, sent, InsertOrder(db', order), stream')
  {
    assert (orders + [order])[..|orders|] == orders;
    var full, full' := InsertAll(db, orders), InsertAll(db, orders + [order]);
    assert full' == InsertOrder(full, order);
    assert full'.outbox[..sent] == full.outbox[..sent];
    if order.orderId !in full.orders {
      assert full'.outbox[gone..] == full.outbox[gone..] + [Row(full.lastId + 1, order)];
    }
  }

  lemma BalancesSend(db: Db, stream: seq<Order>, orders: seq<Order>, n: nat, db': Db, stream': seq<Order>)
    requires Balances(db, stream, orders, n, n, db', stream') && db'.outbox != []
    ensures Balances(db, stream, orders, n, n + 1, db', stream' + [db'.outbox[0].order])
    ensures Balances(db, stream, orders, n + 1, n + 1, db'.(outbox := db'.outbox[1..]),
                     stream' + [db'.outbox[0].order])
  {
    var full := InsertAll(db, orders);
    assert full.outbox[..n + 1] == full.outbox[..n] + [full.outbox[n]];
    assert db'.outbox[0] == full.outbox[n];
  }

  lemma BalancesDelete(db: Db, stream: seq<Order>, orders: seq<Order>, n: nat, db': Db, stream': seq<Order>)
    requires Balances(db, stream, orders, n, n + 1, db', stream')
    ensures db'.outbox != []
    ensures Balances(db, stream, orders, n + 1, n + 1, db'.(outbox := db'.outbox[1..]), stream')
  {
    hide InsertAll, OrdersOf;
  }

  lemma PublishBalances(s: System, orders: seq<Order>, now: System)
    requires Balanced(s, orders, now) && now.local.Publishing?
    ensures Balanced(s, orders, Step(now, Advance))
  {
    PublishStep(now);
    Oldest(now);
    assert InHand(now.local) == 0;
    BalancesSend(s.db, s.stream, orders, Deleted(now) - Deleted(s), now.db, now.stream);
    hide Inv, Balances, Deleted;
  }

  lemma Oldest(now: System)
    requires Inv(now) && (now.local.Publishing? || now.local.Deleting?)
    ensures now.local.rows != [] && now.db.outbox != [] && now.local.rows[0] == now.db.outbox[0]
    ensures Delete(now.db.outbox, now.db.outbox[0].id) == now.db.outbox[1..]
  {
    DeleteOldest(now.db.outbox, now.inserted, Deleted(now));
    hide IsTail, SameOrders, StreamOf, Stutters, Deleted, Delete;
  }

  lemma DeleteBalances(s: System, orders: seq<Order>, now: System)
    requires Balanced(s, orders, now) && now.local.Deleting?
    ensures Balanced(s, orders, Step(now, Advance))
  {
    DeleteStep(now);
    Oldest(now);
    var n := Deleted(now) - Deleted(s);
    BalancesDelete(s.db, s.stream, orders, n, now.db, now.stream);
    assert Step(now, Advance).db == now.db.(outbox := now.db.outbox[1..]);
    assert InHand(Step(now, Advance).local) == 0;
    hide Inv, Balances, Deleted, Delete;
  }

  lemma InsertBalances(s: System, orders: seq<Order>, now: System, order: Order)
    requires Balanced(s, orders, now)
    ensures Balanced(s, orders + [order], Step(now, Insert(order)))
  {
    InsertStep(now, order);
    var n := Deleted(now) - Deleted(s);
    BalancesInsert(s.db, s.stream, orders, n, n + InHand(now.local), now.db, now.stream, order);
    hide Inv, Balances, Deleted, InsertOrder;
  }

  lemma StillBalances(s: System, orders: seq<Order>, now: System, l: Label)
    requires Balanced(s, orders, now) && !now.local.Deleting?
    requires l.FailPublish? || (l.Advance? && !now.local.Publishing?)
    ensures Balanced(s, orders, Step(now, l))
  {
    InvStep(now, l);
    hide Inv, Balances;
  }

  lemma StepBalances(s: System, orders: seq<Order>, now: System, l: Label)
    requires Balanced(s, orders, now) && !l.Crash? && !l.Start?
    ensures Balanced(s, orders + (if l.Insert? then [l.order] else []), Step(now, l))
  {
    assert orders + [] == orders;
    hide Balanced;
    if l.Insert? {
      InsertBalances(s, orders, now, l.order);
    } else if l.Advance? && now.local.Publishing? {
      PublishBalances(s, orders, now);
    } else if l.Advance? && now.local.Deleting? {
      DeleteBalances(s, orders, now);
    } else if now.local.Deleting? {
      assert Step(now, l) == now;
    } else {
      StillBalances(s, orders, now, l);
    }
    hide Step;
  }

  lemma BalancedItself(s: System)
    requires Inv(s) && s.local.Polling?
    ensures Balanced(s, [], s)
  {
    assert s.db == s.db.(outbox := s.db.outbox[0..]);
    assert s.stream == s.stream + OrdersOf(s.db.outbox[..0]);
    hide Inv;
  }

  /** A relay that does not crash sends and deletes the oldest rows, whatever is inserted meanwhile. */
  lemma {:induction false} RelayBalances(s: System, t: seq<Label>)
    requires Inv(s) && s.local.Polling? && NoCrash(t) && Start !in t
    ensures Balanced(s, InsertsOf(t), Exec(s, t))
  {
    hide Balanced, Inv, Step;
    if t == [] {
      BalancedItself(s);
    } else {
      var front, l := t[..|t| - 1], t[|t| - 1];
      RelayBalances(s, front);
      StepBalances(s, InsertsOf(front), Exec(s, front), l);
    }
  }

  lemma {:induction false} InsertsConcat(t: seq<Label>, t': seq<Label>)
    ensures InsertsOf(t + t') == InsertsOf(t) + InsertsOf(t')
    decreases |t'|
  {
    if t' == [] {
      assert t + t' == t;
    } else {
      assert (t + t')[..|t + t'| - 1] == t + t'[..|t'| - 1];
      InsertsConcat(t, t'[..|t'| - 1]);
    }
  }

  lemma {:induction false} InsertsOfInserts(orders: seq<Order>)
    ensures InsertsOf(Inserts(orders)) == orders
  {
    if orders == [] {
    } else {
      var n := |orders| - 1;
      assert Inserts(orders)[..n] == Inserts(orders[..n]);
      InsertsOfInserts(orders[..n]);
    }
  }

  lemma EntryInserts(arriving: seq<Order>, fails: bool)
    ensures InsertsOf(EntryTrace(arriving, fails)) == arriving && Start !in EntryTrace(arriving, fails)
  {
    var outcome: seq<Label> := if fails then [FailPublish] else [Advance] + [Advance];
    InsertsOfInserts(arriving);
    InsertsConcat(Inserts(arriving), outcome);
    assert InsertsOf(outcome) == [] by {
      assert outcome[..|outcome| - 1] == if fails then [] else [Advance];
      assert [Advance][..0] == [];
    }
  }

  /** The publishes `k .. k'` of a trace: what arrived during them, and rows deleted by all but a failed one. */
  ghost predicate Ledger(s: System, t: seq<Label>, arrivals: nat -> seq<Order>, k: nat, k': nat, failed: bool) {
    && k <= k' && Start !in t
    && Arrived(arrivals, k') == Arrived(arrivals, k) + InsertsOf(t)
    && Deleted(Exec(s, t)) == Deleted(s) + k' - k - if failed then 1 else 0
  }

  lemma ArrivedNext(arrivals: nat -> seq<Order>, k: nat)
    ensures Arrived(arrivals, k + 1) == Arrived(arrivals, k) + arrivals(k)
  {
  }

  lemma EntryDeletes(s: System, arriving: seq<Order>, fails: bool)
    requires Inv(s) && s.local.Publishing?
    ensures Deleted(Exec(s, EntryTrace(arriving, fails))) == Deleted(s) + if fails then 0 else 1
  {
    if fails {
      EntryFails(s, arriving);
    } else {
      EntrySucceeds(s, arriving);
    }
    hide Exec, EntryTrace, Inv, Deleted, Delete, Inserts;
  }

  lemma LedgerNext(s: System, t: seq<Label>, arrivals: nat -> seq<Order>, k: nat, k': nat, fails: bool)
    requires Ledger(s, t, arrivals, k, k', false) && Inv(Exec(s, t)) && Exec(s, t).local.Publishing?
    ensures Ledger(s, t + EntryTrace(arrivals(k'), fails), arrivals, k, k' + 1, fails)
  {
    hide InsertsOf, EntryTrace, Inv, Deleted, Exec;
    var more, now := EntryTrace(arrivals(k'), fails), Exec(s, t);
    EntryInserts(arrivals(k'), fails);
    InsertsConcat(t, more);
    ExecAppend(s, t, more);
    EntryDeletes(now, arrivals(k'), fails);
    assert Arrived(arrivals, k' + 1) == Arrived(arrivals, k) + InsertsOf(t + more) by {
      hide Arrived;
      ArrivedNext(arrivals, k');
    }
    hide Arrived;
  }

  lemma LedgerJoins(s: System, t: seq<Label>, more: seq<Label>, arrivals: nat -> seq<Order>, k: nat, k': nat, k'': nat,
                    failed: bool)
    requires Ledger(s, t, arrivals, k, k', false) && Ledger(Exec(s, t), more, arrivals, k', k'', failed)
    ensures Ledger(s, t + more, arrivals, k, k'', failed)
  {
    InsertsConcat(t, more);
    ExecAppend(s, t, more);
    hide InsertsOf, Deleted, Exec;
  }

  lemma LedgerBegins(s: System, arrivals: nat -> seq<Order>, k: nat)
    ensures Ledger(s, [], arrivals, k, k, false)
    ensures s.local.Polling? ==> Ledger(s, [Advance], arrivals, k, k, false)
  {
    OneAdvance(s, []);
    assert [] + [Advance] == [Advance] && [Advance][..0] == [];
  }

  /** Where a sweep stands after `i` rows of the page `rows`. */
  ghost predicate SweepAt(s: System, t: seq<Label>, rows: seq<Row>, i: nat)
  {
    var now := Exec(s, t);
    && Inv(now) && NoCrash(t) && i <= |rows| <= LIMIT && now.local == After(rows[i..])
    && Deleted(now) == Deleted(s) + i && |now.inserted| >= |s.inserted|
  }

  /** A run that has deleted `n` more rows, and where the relay then is. */
  ghost predicate Relayed(s: System, t: seq<Label>, n: nat, local: Local) {
    var now := Exec(s, t);
    && Inv(now) && NoCrash(t) && now.local == local
    && Deleted(now) == Deleted(s) + n && |now.inserted| >= |s.inserted|
  }

  lemma SweepBegins(s: System)
    requires Inv(s) && s.local.Polling?
    ensures SweepAt(s, [Advance], Poll(s.db.outbox, LIMIT), 0)
    ensures Exec(s, [Advance]) == s.(local := After(Poll(s.db.outbox, LIMIT)))
  {
    OneAdvance(s, []);
    assert [] + [Advance] == [Advance];
    InvStep(s, Advance);
    assert Poll(s.db.outbox, LIMIT)[0..] == Poll(s.db.outbox, LIMIT);
    hide Inv;
  }

  ghost predicate SweepFailed(s: System, t: seq<Label>) {
    exists n: nat :: Relayed(s, t, n, Down) && n <= LIMIT
  }

  lemma SweepNext(s: System, t: seq<Label>, rows: seq<Row>, i: nat, arriving: seq<Order>, fails: bool)
    requires SweepAt(s, t, rows, i) && i < |rows|
    ensures var more := EntryTrace(arriving, fails);
            && Exec(s, t + more) == Exec(Exec(s, t), more)
            && if fails then SweepFailed(s, t + more) else SweepAt(s, t + more, rows, i + 1)
  {
    var now := Exec(s, t);
    assert rows[i..] != [] && rows[i..][1..] == rows[i + 1..];
    ExecAppend(s, t, EntryTrace(arriving, fails));
    if fails {
      EntryFails(now, arriving);
      assert Relayed(s, t + EntryTrace(arriving, fails), i, Down);
    } else {
      EntrySucceeds(now, arriving);
    }
    hide Exec, Inv, EntryTrace, Deleted, Delete;
  }

  lemma SweepReady(s: System, t: seq<Label>, rows: seq<Row>, i: nat)
    requires SweepAt(s, t, rows, i)
    ensures Inv(Exec(s, t))
    ensures i < |rows| ==> Exec(s, t).local == Publishing(rows[i..]) && rows[i..] != [] && rows[i..][0] == rows[i]
    ensures i == |rows| ==> Relayed(s, t, i, Polling)
  {
    hide Exec, Inv, Deleted;
  }

  /** The awaits `k .. hi` all publish. */
  ghost predicate NoneFails(fails: nat -> bool, k: nat, hi: int) {
    forall j: nat :: k <= j < hi ==> !fails(j)
  }

  /** One row of the page in hand. */
  method SweepEntry(store: OutboxStore, broker: RedisBroker, rows: seq<Row>, i: nat,
    arriving: seq<Order>, fails: bool, ghost s: System, ghost t: seq<Label>) returns (ghost t': seq<Label>)
    requires Stands(store, broker, Exec(s, t)) && SweepAt(s, t, rows, i) && i < |rows|
    modifies store, broker
    ensures Stands(store, broker, Exec(s, t')) && t' == t + EntryTrace(arriving, fails)
    ensures if fails then SweepFailed(s, t') else SweepAt(s, t', rows, i + 1)
  {
    SweepReady(s, t, rows, i);
    SweepNext(s, t, rows, i, arriving, fails);
    t' := t + EntryTrace(arriving, fails);
    hide *;
    RelayEntry(store, broker, rows[i], arriving, fails, Exec(s, t));
  }

  /** Of the awaits `k .. hi` at most the last one failed, and it did exactly when `failed`. */
  ghost predicate LastFails(fails: nat -> bool, k: nat, hi: nat, failed: bool) {
    && k <= hi && NoneFails(fails, k, if failed then hi - 1 else hi)
    && (failed ==> hi > k && fails(hi - 1))
  }

  /** What a page ends with. */
  ghost predicate SweepEnds(s: System, t: seq<Label>, n: nat, failed: bool) {
    if failed then SweepFailed(s, t) else Relayed(s, t, n, Polling)
  }

  /** The rows of one page, up to the first publish that fails. */
  method SweepRows(store: OutboxStore, broker: RedisBroker, rows: seq<Row>, arrivals: nat -> seq<Order>,
    fails: nat -> bool, k: nat, ghost s: System, ghost t0: seq<Label>)
    returns (failed: bool, k': nat, ghost t: seq<Label>)
    requires Stands(store, broker, Exec(s, t0)) && SweepAt(s, t0, rows, 0)
    requires Ledger(s, t0, arrivals, k, k, false)
    modifies store, broker
    ensures Stands(store, broker, Exec(s, t)) && SweepEnds(s, t, |rows|, failed) && LastFails(fails, k, k', failed)
    ensures Ledger(s, t, arrivals, k, k', failed)
  {
    t, k', failed := t0, k, false;
    assert LastFails(fails, k, k', false);
    for i := 0 to |rows|
      invariant Stands(store, broker, Exec(s, t)) && SweepAt(s, t, rows, i)
      invariant LastFails(fails, k, k', false) && !failed && Ledger(s, t, arrivals, k, k', false)
    {
      hide Stands, Exec, SweepAt, SweepFailed, Ledger, EntryTrace;
      failed := fails(k');
      SweepReady(s, t, rows, i);
      LedgerNext(s, t, arrivals, k, k', failed);
      t := SweepEntry(store, broker, rows, i, arrivals(k'), failed, s, t);
      k' := k' + 1;
      if failed {
        return;
      }
    }
    SweepReady(s, t, rows, |rows|);
    hide Stands, Exec, SweepAt, Relayed, Ledger;
  }

  /** One sweep: everything polled is published and deleted, or a publish fails. */
  method Sweep(store: OutboxStore, broker: RedisBroker, arrivals: nat -> seq<Order>, fails: nat -> bool, k: nat,
    ghost s: System) returns (failed: bool, k': nat, ghost t: seq<Label>)
    requires Stands(store, broker, s) && Inv(s) && s.local.Polling?
    modifies store, broker
    ensures Stands(store, broker, Exec(s, t)) && LastFails(fails, k, k', failed)
    ensures SweepEnds(s, t, |Poll(s.db.outbox, LIMIT)|, failed) && Ledger(s, t, arrivals, k, k', failed)
  {
    LedgerBegins(s, arrivals, k);
    SweepBegins(s);
    var rows := store.PollOutbox(LIMIT);
    assert Stands(store, broker, Exec(s, [Advance])) && rows == Poll(s.db.outbox, LIMIT);
    hide *;
    failed, k', t := SweepRows(store, broker, rows, arrivals, fails, k, s, [Advance]);
  }

  /** After `sweeps` full sweeps at most ten rows a sweep are gone, and fewer only if there were fewer. */
  ghost predicate RunAt(s: System, t: seq<Label>, sweeps: nat, local: Local) {
    exists n: nat ::
      && Relayed(s, t, n, local)
      && n >= Min(LIMIT * sweeps, |s.db.outbox|)
      && n <= LIMIT * sweeps + if local.Down? then LIMIT else 0
  }

  lemma RunNext(s: System, t: seq<Label>, sweeps: nat, more: seq<Label>)
    requires RunAt(s, t, sweeps, Polling)
    requires Relayed(Exec(s, t), more, |Poll(Exec(s, t).db.outbox, LIMIT)|, Polling)
    ensures RunAt(s, t + more, sweeps + 1, Polling) && Exec(s, t + more) == Exec(Exec(s, t), more)
  {
    ExecAppend(s, t, more);
    var n: nat :| Relayed(s, t, n, Polling) && Min(LIMIT * sweeps, |s.db.outbox|) <= n <= LIMIT * sweeps;
    var m := |Poll(Exec(s, t).db.outbox, LIMIT)|;
    assert Relayed(s, t + more, n + m, Polling);
    hide Exec, Inv, Relayed;
    assert n + m >= Min(LIMIT * (sweeps + 1), |s.db.outbox|) by {
      StillWaiting(s, t, n);
    }
  }

  lemma StillWaiting(s: System, t: seq<Label>, n: nat)
    requires Relayed(s, t, n, Polling)
    ensures |Exec(s, t).db.outbox| >= |s.db.outbox| - n
  {
    hide Exec, Inv;
  }

  lemma RunFails(s: System, t: seq<Label>, sweeps: nat, more: seq<Label>, m: nat)
    requires RunAt(s, t, sweeps, Polling) && Relayed(Exec(s, t), more, m, Down) && m <= LIMIT
    ensures RunAt(s, t + more, sweeps, Down) && Exec(s, t + more) == Exec(Exec(s, t), more)
  {
    ExecAppend(s, t, more);
    var n: nat :| Relayed(s, t, n, Polling) && Min(LIMIT * sweeps, |s.db.outbox|) <= n <= LIMIT * sweeps;
    assert Relayed(s, t + more, n + m, Down);
    hide Exec, Inv, Relayed;
  }

  lemma RunBegins(s: System)
    requires Inv(s) && s.local.Polling?
    ensures RunAt(s, [], 0, Polling) && Exec(s, []) == s
  {
    assert Relayed(s, [], 0, Polling);
    hide Inv;
  }

  lemma RunReady(s: System, t: seq<Label>, sweeps: nat)
    requires RunAt(s, t, sweeps, Polling)
    ensures Inv(Exec(s, t)) && Exec(s, t).local == Polling
  {
    hide Exec, Inv;
  }

  /** With nothing arriving the outbox is empty after exactly a tenth as many sweeps as it had rows, rounded up. */
  lemma DrainsInTenths(s: System, t: seq<Label>, sweeps: nat)
    requires RunAt(s, t, sweeps, Polling) && Exec(s, t).inserted == s.inserted
    ensures Exec(s, t).db.outbox == [] <==> LIMIT * sweeps >= |s.db.outbox|
  {
    hide Exec, Inv;
  }

  /** What `attempts` publishes have left in the tables and on the stream, the last one failed or not. */
  ghost predicate Leaves(db: Db, stream: seq<Order>, arrivals: nat -> seq<Order>, attempts: nat, failed: bool, db': Db,
                         stream': seq<Order>) {
    var n := attempts - if failed then 1 else 0;
    n >= 0 && Balances(db, stream, Arrived(arrivals, attempts), n, n, db', stream')
  }

  lemma RunLeaves(s: System, t: seq<Label>, arrivals: nat -> seq<Order>, attempts: nat, failed: bool)
    requires Inv(s) && s.local.Polling? && NoCrash(t) && Ledger(s, t, arrivals, 0, attempts, failed)
    requires Exec(s, t).local == if failed then Down else Polling
    ensures var now := Exec(s, t);
            && InsertsOf(t) == Arrived(arrivals, attempts)
            && Leaves(s.db, s.stream, arrivals, attempts, failed, now.db, now.stream)
  {
    RelayBalances(s, t);
    assert Arrived(arrivals, 0) == [];
    assert InHand(Exec(s, t).local) == 0;
    hide Exec, Inv, Balances, InsertsOf;
  }

  lemma RunSize(s: System, t: seq<Label>, sweeps: nat, local: Local)
    requires RunAt(s, t, sweeps, local)
    ensures NoCrash(t) && Exec(s, t).local == local
    ensures Deleted(Exec(s, t)) - Deleted(s) >= Min(10 * sweeps, |s.db.outbox|)
    ensures local == Polling ==> Deleted(Exec(s, t)) - Deleted(s) <= 10 * sweeps
  {
    hide Exec, Inv, Deleted;
  }

  /**
   The relay loop, stopped after `sweeps` or by the first publish that fails, and by no other. The
   orders inserted are those that arrived during its publishes; the oldest rows, one for each
   publish that did not fail, are on the stream and gone from the outbox, in order. Every sweep
   without a failure takes ten rows until those there were at the start are gone.
   */
  method Run(store: OutboxStore, broker: RedisBroker, sweeps: nat, arrivals: nat -> seq<Order>, fails: nat -> bool,
      ghost s: System)
    returns (failed: bool, done: nat, ghost attempts: nat, ghost t: seq<Label>)
    requires Stands(store, broker, s) && Inv(s) && s.local.Polling?
    modifies store, broker
    ensures Stands(store, broker, Exec(s, t))
    ensures RunAt(s, t, done, if failed then Down else Polling)
    ensures if failed then done < sweeps else done == sweeps
    ensures failed <==> attempts > 0 && fails(attempts - 1)
    ensures forall j: nat :: j + 1 < attempts ==> !fails(j)
    ensures InsertsOf(t) == Arrived(arrivals, attempts)
    ensures Leaves(old(store.Tables()), old(broker.stream), arrivals, attempts, failed, store.Tables(), broker.stream)
    ensures !failed ==> Min(10 * sweeps, |old(store.outbox)|) <= attempts <= 10 * sweeps
    ensures sweeps > 0 && old(store.outbox) != [] && fails(0) ==>
              failed && broker.stream == old(broker.stream) && old(store.outbox) <= store.outbox
  {
    t := [];
    failed := false;
    done := 0;
    var k := 0;
    RunBegins(s);
    LedgerBegins(s, arrivals, 0);
    StandsIs(store, broker, s);
    NoneYet(fails);
    hide *;
    while done < sweeps
      invariant Stands(store, broker, Exec(s, t)) && RunAt(s, t, done, Polling) && done <= sweeps
      invariant Ledger(s, t, arrivals, 0, k, false) && LastFails(fails, 0, k, false) && !failed
    {
      ghost var more;
      RunReady(s, t, done);
      ghost var now, k0 := Exec(s, t), k;
      failed, k, more := Sweep(store, broker, arrivals, fails, k, now);
      LedgerJoins(s, t, more, arrivals, 0, k0, k, failed);
      LastLater(fails, k0, k, failed);
      if failed {
        RunBreaks(s, t, done, more);
        t := t + more;
        break;
      }
      RunNext(s, t, done, more);
      t := t + more;
      done := done + 1;
    }
    attempts := k;
    RunAnswers(store, broker, s, t, sweeps, done, arrivals, attempts, failed, fails);
  }

  lemma RunAnswers(store: OutboxStore, broker: RedisBroker, s: System, t: seq<Label>, sweeps: nat, done: nat,
                   arrivals: nat -> seq<Order>, attempts: nat, failed: bool, fails: nat -> bool)
    requires Stands(store, broker, Exec(s, t)) && Inv(s) && s.local.Polling?
    requires RunAt(s, t, done, if failed then Down else Polling) && (!failed ==> done == sweeps)
    requires Ledger(s, t, arrivals, 0, attempts, failed) && LastFails(fails, 0, attempts, failed)
    ensures failed <==> attempts > 0 && fails(attempts - 1)
    ensures forall j: nat :: j + 1 < attempts ==> !fails(j)
    ensures InsertsOf(t) == Arrived(arrivals, attempts)
    ensures Leaves(s.db, s.stream, arrivals, attempts, failed, store.Tables(), broker.stream)
    ensures !failed ==> Min(10 * sweeps, |s.db.outbox|) <= attempts <= 10 * sweeps
    ensures sweeps > 0 && s.db.outbox != [] && fails(0) ==>
              failed && broker.stream == s.stream && s.db.outbox <= store.outbox
  {
    hide *;
    StandsIs(store, broker, Exec(s, t));
    LastIs(fails, attempts, failed);
    RunSize(s, t, done, if failed then Down else Polling);
    RunLeaves(s, t, arrivals, attempts, failed);
    RunCounts(s, t, arrivals, attempts, failed);
    AttemptsMade(sweeps, |s.db.outbox|, attempts, failed, fails);
    FailedFirst(s.db, s.stream, arrivals, attempts, failed, store.Tables(), broker.stream);
  }

  /** A first publish that fails is the only one. */
  lemma AttemptsMade(sweeps: nat, rows: nat, attempts: nat, failed: bool, fails: nat -> bool)
    requires failed <==> attempts > 0 && fails(attempts - 1)
    requires forall j: nat :: j + 1 < attempts ==> !fails(j)
    requires !failed ==> attempts >= Min(10 * sweeps, rows)
    ensures sweeps > 0 && rows > 0 && fails(0) ==> failed && attempts == 1
  {
  }

  lemma NoneYet(fails: nat -> bool)
    ensures LastFails(fails, 0, 0, false)
  {
  }

  lemma LastLater(fails: nat -> bool, k: nat, k': nat, failed: bool)
    requires LastFails(fails, 0, k, false) && LastFails(fails, k, k', failed)
    ensures LastFails(fails, 0, k', failed)
  {
  }

  lemma LastIs(fails: nat -> bool, attempts: nat, failed: bool)
    requires LastFails(fails, 0, attempts, failed)
    ensures failed <==> attempts > 0 && fails(attempts - 1)
    ensures forall j: nat :: j + 1 < attempts ==> !fails(j)
  {
  }

  lemma StandsIs(store: OutboxStore, broker: RedisBroker, s: System)
    requires Stands(store, broker, s)
    ensures s.db == store.Tables() && s.stream == broker.stream && store.Tables().outbox == store.outbox
  {
  }

  lemma RunBreaks(s: System, t: seq<Label>, sweeps: nat, more: seq<Label>)
    requires RunAt(s, t, sweeps, Polling) && SweepFailed(Exec(s, t), more)
    ensures RunAt(s, t + more, sweeps, Down) && Exec(s, t + more) == Exec(Exec(s, t), more)
  {
    hide RunAt, Relayed, Exec;
    var m: nat :| Relayed(Exec(s, t), more, m, Down) && m <= LIMIT;
    RunFails(s, t, sweeps, more, m);
  }

  lemma RunCounts(s: System, t: seq<Label>, arrivals: nat -> seq<Order>, attempts: nat, failed: bool)
    requires Ledger(s, t, arrivals, 0, attempts, failed)
    ensures Deleted(Exec(s, t)) - Deleted(s) == attempts - if failed then 1 else 0
  {
  }

  lemma {:induction false} InsertAllKeeps(db: Db, orders: seq<Order>)
    ensures db.outbox <= InsertAll(db, orders).outbox
  {
    if orders == [] {
    } else {
      InsertAllKeeps(db, orders[..|orders| - 1]);
    }
  }

  /** When the first publish fails nothing is sent and no row is gone. */
  lemma FailedFirst(db: Db, stream: seq<Order>, arrivals: nat -> seq<Order>, attempts: nat, failed: bool, db': Db,
                    stream': seq<Order>)
    requires Leaves(db, stream, arrivals, attempts, failed, db', stream')
    ensures failed && attempts == 1 ==> stream' == stream && db.outbox <= db'.outbox
  {
    InsertAllKeeps(db, Arrived(arrivals, attempts));
  }
}
