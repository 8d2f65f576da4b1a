/**
 The saga runner itself: a broker with three streams, the three services, and the poll loop that
 routes one page of each stream in turn. Before each read others may create and publish orders,
 publish them again or publish anything no service knows. The stop event is a bound on the passes.
 */
module SagaRunner {
  import opened SagaModel
  import SagaProtocol
  import opened SagaReplies

  /** One event consumed and what it sends appended. */
  function Handle(w: World, k: Stage): (w': World)
    requires WithinLogs(w) && Cursor(w, k) < |Log(w, k)|
    ensures WithinLogs(w') && Cursor(w', k) == Cursor(w, k) + 1 && |Log(w, k)| <= |Log(w', k)|
  {
    var (w', send) := Take(w, k);
    Deliver(w', send)
  }

  function TakeMany(w: World, k: Stage, n: nat): (w': World)
    requires WithinLogs(w) && Cursor(w, k) + n <= |Log(w, k)|
    ensures WithinLogs(w') && Cursor(w', k) == Cursor(w, k) + n && |Log(w, k)| <= |Log(w', k)|
  {
    if n == 0 then w else Handle(TakeMany(w, k, n - 1), k)
  }

  function PageSize(w: World, k: Stage): nat
    requires WithinLogs(w)
  {
    SagaProtocol.Page(w, k) - Cursor(w, k)
  }

  function ReadPage(w: World, k: Stage): (w': World)
    requires WithinLogs(w)
    ensures WithinLogs(w')
  {
    TakeMany(w, k, PageSize(w, k))
  }

  /** What others publish: an order created and published, one published again, or something unknown. */
  datatype Arrival = Placed(orderId: string, amount: real) | Repeated(orderId: string, amount: real) | Stray(to: Stage)

  /** What others publish before the n-th read. */
  type Schedule = nat -> seq<Arrival>

  function EventOf(a: Arrival): Event {
    if a.Stray? then Unknown else OrderCreated(a.orderId, a.amount)
  }

  function StreamOf(a: Arrival): Stage {
    if a.Stray? then a.to else Orders
  }

  function Arrive(w: World, a: Arrival): (w': World)
    requires WithinLogs(w)
    ensures WithinLogs(w')
  {
    Publish(if a.Placed? then w.(book := w.book[a.orderId := PaymentProcessing]) else w, StreamOf(a), EventOf(a))
  }

  function Join(w: World, arrivals: seq<Arrival>): (w': World)
    requires WithinLogs(w)
    ensures WithinLogs(w')
  {
    if arrivals == [] then w else Arrive(Join(w, arrivals[..|arrivals| - 1]), arrivals[|arrivals| - 1])
  }

  function JoinAndRead(w: World, arrivals: seq<Arrival>, k: Stage): (w': World)
    requires WithinLogs(w)
    ensures WithinLogs(w')
  {
    ReadPage(Join(w, arrivals), k)
  }

  /** The n-th pass makes the reads 3n, 3n + 1 and 3n + 2. */
  function Pass(w: World, others: Schedule, n: nat): (w': World)
    requires WithinLogs(w)
    ensures WithinLogs(w')
  {
    var w1 := JoinAndRead(w, others(3 * n), Orders);
    var w2 := JoinAndRead(w1, others(3 * n + 1), Payments);
    JoinAndRead(w2, others(3 * n + 2), Shipping)
  }

  function Passes(w: World, others: Schedule, n: nat): (w': World)
    requires WithinLogs(w)
    ensures WithinLogs(w')
  {
    if n == 0 then w else Pass(Passes(w, others, n - 1), others, n - 1)
  }

  function JoinedWeight(arrivals: seq<Arrival>): nat {
    if arrivals == [] then 0
    else JoinedWeight(arrivals[..|arrivals| - 1]) + Weight(EventOf(arrivals[|arrivals| - 1]))
  }

  function PassWeight(others: Schedule, n: nat): nat {
    JoinedWeight(others(3 * n)) + JoinedWeight(others(3 * n + 1)) + JoinedWeight(others(3 * n + 2))
  }

  /** The weight others add during the first `n` passes. */
  function Arrived(others: Schedule, n: nat): nat {
    if n == 0 then 0 else Arrived(others, n - 1) + PassWeight(others, n - 1)
  }

  ghost predicate Fits(arrivals: seq<Arrival>, amountOf: string -> real) {
    forall i :: 0 <= i < |arrivals| ==> Agrees(EventOf(arrivals[i]), amountOf)
  }

  ghost predicate AllFit(others: Schedule, amountOf: string -> real) {
    forall n: nat :: Fits(others(n), amountOf)
  }

  /** A status that is terminal is the right one, and one that is not has an event on its way. */
  ghost predicate Sound(w: World, o: string, amountOf: string -> real) {
    && WithinLogs(w) && Safe(w, amountOf) && o in w.book
    && (Terminal(w.book[o]) ==> w.book[o] == Final(amountOf(o)))
    && OnCourse(w, o, 0, amountOf)
  }

  lemma DeliverIsSafe(w: World, send: Send, amountOf: string -> real)
    requires Safe(w, amountOf) && SendAgrees(send, amountOf)
    ensures Safe(Deliver(w, send), amountOf) && Deliver(w, send).book == w.book
  {
  }

  lemma DeliverCounts(w: World, send: Send, o: string)
    requires WithinLogs(w)
    ensures Tokens(Deliver(w, send), o) == Tokens(w, o) + SendTokens(send, o)
    ensures UnreadWeight(Deliver(w, send)) == UnreadWeight(w) + SendWeight(send)
  {
    if send.Send? {
      PublishCounts(w, send.to, send.event, o);
    }
    hide Tokens, UnreadWeight, Publish;
  }

  lemma HandleIsSound(w: World, k: Stage, o: string, amountOf: string -> real)
    requires Sound(w, o, amountOf) && Cursor(w, k) < |Log(w, k)|
    ensures Sound(Handle(w, k), o, amountOf) && UnreadWeight(Handle(w, k)) < UnreadWeight(w)
  {
    var (w', send) := Take(w, k);
    TakeStaysOnCourse(w, k, o, 0, amountOf);
    TakeSetsFinal(w, k, o, amountOf);
    TakeIsSafe(w, k, amountOf);
    TakeCounts(w, k, o);
    DeliverIsSafe(w', send, amountOf);
    DeliverCounts(w', send, o);
    assert WithinLogs(Handle(w, k));
    hide Take, Safe, Tokens, UnreadWeight, Deliver, SendTokens, SendWeight, WithinLogs, Log, Cursor, SendAgrees,
        Terminal, Final, About;
  }

  lemma {:induction false} TakeManyIsSound(w: World, k: Stage, n: nat, o: string, amountOf: string -> real)
    requires Sound(w, o, amountOf) && WithinLogs(w) && Cursor(w, k) + n <= |Log(w, k)|
    ensures Sound(TakeMany(w, k, n), o, amountOf) && UnreadWeight(TakeMany(w, k, n)) + n <= UnreadWeight(w)
  {
    hide Sound, UnreadWeight, Handle, Log, Cursor, WithinLogs;
    if n == 0 {
    } else {
      var before := TakeMany(w, k, n - 1);
      assert TakeMany(w, k, n) == Handle(before, k);
      TakeManyIsSound(w, k, n - 1, o, amountOf);
      hide TakeMany;
      HandleIsSound(before, k, o, amountOf);
    }
  }

  lemma ReadPageIsSound(w: World, k: Stage, o: string, amountOf: string -> real)
    requires Sound(w, o, amountOf)
    ensures Sound(ReadPage(w, k), o, amountOf)
    ensures UnreadWeight(ReadPage(w, k)) <= UnreadWeight(w)
    ensures Cursor(w, k) < |Log(w, k)| ==> UnreadWeight(ReadPage(w, k)) < UnreadWeight(w)
    ensures Cursor(w, k) == |Log(w, k)| ==> ReadPage(w, k) == w
  {
    TakeManyIsSound(w, k, PageSize(w, k), o, amountOf);
    hide Sound, UnreadWeight, Handle, Log, Cursor;
  }

  lemma ArriveIsSound(w: World, a: Arrival, o: string, amountOf: string -> real)
    requires Sound(w, o, amountOf) && Agrees(EventOf(a), amountOf)
    ensures Sound(Arrive(w, a), o, amountOf) && UnreadWeight(Arrive(w, a)) == UnreadWeight(w) + Weight(EventOf(a))
  {
    var w1 := if a.Placed? then w.(book := w.book[a.orderId := PaymentProcessing]) else w;
    BookDoesNotCount(w, w1, o);
    PublishCounts(w1, StreamOf(a), EventOf(a), o);
    DeliverIsSafe(w1, Send(StreamOf(a), EventOf(a)), amountOf);
    hide Tokens, UnreadWeight, Safe, Weight;
  }

  lemma {:induction false} JoinIsSound(w: World, arrivals: seq<Arrival>, o: string, amountOf: string -> real)
    requires Sound(w, o, amountOf) && Fits(arrivals, amountOf) && WithinLogs(w)
    ensures var w' := Join(w, arrivals);
            Sound(w', o, amountOf) && UnreadWeight(w') == UnreadWeight(w) + JoinedWeight(arrivals)
  {
    hide Sound, UnreadWeight, Arrive, Weight, WithinLogs, EventOf, Agrees;
    if arrivals == [] {
    } else {
      JoinIsSound(w, arrivals[..|arrivals| - 1], o, amountOf);
      ArriveIsSound(Join(w, arrivals[..|arrivals| - 1]), arrivals[|arrivals| - 1], o, amountOf);
    }
  }

  /** What is unread stays unread until it is read. */
  lemma {:induction false} JoinKeepsUnread(w: World, arrivals: seq<Arrival>)
    requires WithinLogs(w)
    ensures var w' := Join(w, arrivals);
            forall k :: Cursor(w', k) == Cursor(w, k) && |Log(w, k)| <= |Log(w', k)|
  {
    if arrivals == [] {
    } else {
      JoinKeepsUnread(w, arrivals[..|arrivals| - 1]);
      ArriveKeepsUnread(Join(w, arrivals[..|arrivals| - 1]), arrivals[|arrivals| - 1]);
    }
    hide Arrive, Log, Cursor;
  }

  lemma ArriveKeepsUnread(w: World, a: Arrival)
    requires WithinLogs(w)
    ensures var w' := Arrive(w, a);
            forall k :: Cursor(w', k) == Cursor(w, k) && |Log(w, k)| <= |Log(w', k)|
  {
  }

  /** A read after arrivals: sound, and lighter than both together when the page was not empty. */
  lemma JoinAndReadIsSound(w: World, arrivals: seq<Arrival>, k: Stage, o: string, amountOf: string -> real)
    requires Sound(w, o, amountOf) && Fits(arrivals, amountOf) && WithinLogs(w)
    ensures var w' := JoinAndRead(w, arrivals, k);
            && Sound(w', o, amountOf)
            && UnreadWeight(w') <= UnreadWeight(w) + JoinedWeight(arrivals)
            && (Cursor(w, k) < |Log(w, k)| ==> UnreadWeight(w') < UnreadWeight(w) + JoinedWeight(arrivals))
            && (UnreadWeight(w') == UnreadWeight(w) + JoinedWeight(arrivals) ==> KeepsUnread(w, w'))
  {
    JoinIsSound(w, arrivals, o, amountOf);
    JoinKeepsUnread(w, arrivals);
    ReadPageIsSound(Join(w, arrivals), k, o, amountOf);
    hide Sound, UnreadWeight, Join, ReadPage, JoinedWeight, Log, Cursor;
  }

  /** Whatever was unread still is. */
  ghost predicate KeepsUnread(w: World, w': World) {
    forall k :: Cursor(w, k) < |Log(w, k)| ==> Cursor(w', k) < |Log(w', k)|
  }

  /** A pass that finds anything to read lowers the weight of what is left and what came. */
  lemma PassIsSound(w: World, others: Schedule, n: nat, o: string, amountOf: string -> real)
    requires Sound(w, o, amountOf) && AllFit(others, amountOf) && WithinLogs(w)
    ensures Sound(Pass(w, others, n), o, amountOf)
    ensures !Quiescent(w) ==> UnreadWeight(Pass(w, others, n)) < UnreadWeight(w) + PassWeight(others, n)
  {
    var w1 := JoinAndRead(w, others(3 * n), Orders);
    var w2 := JoinAndRead(w1, others(3 * n + 1), Payments);
    SomethingUnread(w);
    hide JoinAndRead, Sound, UnreadWeight, JoinedWeight, Fits, Quiescent, WithinLogs, Log, Cursor;
    JoinAndReadIsSound(w, others(3 * n), Orders, o, amountOf);
    JoinAndReadIsSound(w1, others(3 * n + 1), Payments, o, amountOf);
    JoinAndReadIsSound(w2, others(3 * n + 2), Shipping, o, amountOf);
  }

  lemma SomethingUnread(w: World)
    requires WithinLogs(w)
    ensures !Quiescent(w) ==> Cursor(w, Orders) < |Log(w, Orders)| || Cursor(w, Payments) < |Log(w, Payments)|
                              || Cursor(w, Shipping) < |Log(w, Shipping)|
  {
  }

  /** At rest the status is final. */
  lemma QuiescentIsDecided(w: World, o: string, amountOf: string -> real)
    requires Sound(w, o, amountOf) && Quiescent(w)
    ensures Terminal(w.book[o])
  {
    NothingUnread(w.orders, Orders, w.atOrders, o);
    NothingUnread(w.payments, Payments, w.atPayments, o);
    NothingUnread(w.shipping, Shipping, w.atShipping, o);
  }

  /** Publishing a known order puts it on course. */
  lemma PublishIsSound(w: World, o: string, amountOf: string -> real)
    requires WithinLogs(w) && Safe(w, amountOf)
    ensures var w' := Publish(w.(book := w.book[o := PaymentProcessing]), Orders, OrderCreated(o, amountOf(o)));
            Sound(w', o, amountOf)
  {
    var w' := w.(book := w.book[o := PaymentProcessing]);
    PublishCounts(w', Orders, OrderCreated(o, amountOf(o)), o);
    hide Tokens;
  }

  class SagaBroker {
    var orders: seq<Event>
    var payments: seq<Event>
    var shipping: seq<Event>

    constructor ()
      ensures orders == [] && payments == [] && shipping == []
    {
      orders, payments, shipping := [], [], [];
    }

    function Stream(k: Stage): seq<Event>
      reads this
    {
      match k
      case Orders => orders
      case Payments => payments
      case Shipping => shipping
    }

    method Publish(k: Stage, e: Event)
      modifies this
      ensures Stream(k) == old(Stream(k)) + [e]
      ensures forall k' :: k' != k ==> Stream(k') == old(Stream(k'))
    {
      match k
      case Orders => orders := orders + [e];
      case Payments => payments := payments + [e];
      case Shipping => shipping := shipping + [e];
    }

    /** At most one page of what follows the cursor. */
    method Consume(k: Stage, from: nat) returns (page: seq<Event>)
      ensures page <= (if from <= |Stream(k)| then Stream(k)[from..] else [])
      ensures |page| == 100 || from + |page| == |Stream(k)| || (from > |Stream(k)| && page == [])
      ensures |page| <= 100
    {
      var log := Stream(k);
      if from > |log| {
        return [];
      }
      page := log[from..];
      if |page| > SagaProtocol.PAGE {
        page := page[..SagaProtocol.PAGE];
      }
    }
  }

  class OrderService {
    const broker: SagaBroker
    var orders: map<string, Status>

    constructor (broker: SagaBroker)
      ensures this.broker == broker && orders == map[]
    {
      this.broker := broker;
      orders := map[];
    }

    method CreateOrder(o: string, status: Status)
      modifies this
      ensures orders == old(orders)[o := status]
    {
      orders := orders[o := status];
    }

    method PublishCreated(o: string, amount: real)
      modifies this, broker
      ensures orders == if o in old(orders) then old(orders)[o := PaymentProcessing] else old(orders)
      ensures broker.orders == old(broker.orders) + [OrderCreated(o, amount)]
      ensures broker.payments == old(broker.payments) && broker.shipping == old(broker.shipping)
    {
      if o in orders {
        orders := orders[o := PaymentProcessing];
      }
      broker.Publish(Orders, OrderCreated(o, amount));
      assert broker.Stream(Orders) == old(broker.Stream(Orders)) + [OrderCreated(o, amount)];
      assert broker.Stream(Payments) == old(broker.Stream(Payments));
      assert broker.Stream(Shipping) == old(broker.Stream(Shipping));
    }

    method HandlePaymentProcessed(o: string)
      modifies this
      ensures orders == if o in old(orders) then old(orders)[o := Paid] else old(orders)
    {
      if o !in orders {
        return;
      }
      orders := orders[o := Paid];
    }

    /** Cancelling a known order publishes the compensation. */
    method HandlePaymentFailed(o: string)
      modifies this, broker
      ensures orders == if o in old(orders) then old(orders)[o := Cancelled] else old(orders)
      ensures broker.orders == old(broker.orders) + if o in old(orders) then [OrderCancelled(o)] else []
      ensures broker.payments == old(broker.payments) && broker.shipping == old(broker.shipping)
    {
      if o !in orders {
        return;
      }
      orders := orders[o := Cancelled];
      broker.Publish(Orders, OrderCancelled(o));
      assert broker.Stream(Orders) == old(broker.Stream(Orders)) + [OrderCancelled(o)];
      assert broker.Stream(Payments) == old(broker.Stream(Payments));
      assert broker.Stream(Shipping) == old(broker.Stream(Shipping));
    }

    method HandleOrderShipped(o: string)
      modifies this
      ensures orders == if o in old(orders) then old(orders)[o := Completed] else old(orders)
    {
      if o !in orders {
        return;
      }
      orders := orders[o := Completed];
    }
  }

  class PaymentService {
    const broker: SagaBroker

    constructor (broker: SagaBroker)
      ensures this.broker == broker
    {
      this.broker := broker;
    }

    method HandleOrderCreated(o: string, amount: real)
      modifies broker
      ensures broker.payments
           == old(broker.payments) + [if amount <= 0.0 then PaymentFailed(o) else PaymentProcessed(o)]
      ensures broker.orders == old(broker.orders) && broker.shipping == old(broker.shipping)
    {
      var e := PaymentProcessed(o);
      if amount <= 0.0 {
        e := PaymentFailed(o);
      }
      broker.Publish(Payments, e);
      assert broker.Stream(Payments) == old(broker.Stream(Payments)) + [e];
      assert broker.Stream(Orders) == old(broker.Stream(Orders));
      assert broker.Stream(Shipping) == old(broker.Stream(Shipping));
    }
  }

  class ShippingService {
    const broker: SagaBroker

    constructor (broker: SagaBroker)
      ensures this.broker == broker
    {
      this.broker := broker;
    }

    method HandlePaymentProcessed(o: string)
      modifies broker
      ensures broker.shipping == old(broker.shipping) + [OrderShipped(o)]
      ensures broker.orders == old(broker.orders) && broker.payments == old(broker.payments)
    {
      broker.Publish(Shipping, OrderShipped(o));
      assert broker.Stream(Shipping) == old(broker.Stream(Shipping)) + [OrderShipped(o)];
      assert broker.Stream(Orders) == old(broker.Stream(Orders));
      assert broker.Stream(Payments) == old(broker.Stream(Payments));
    }
  }

  /** The streams, the order book and the runner's three cursors. */
  function WorldOf(b: SagaBroker, svc: OrderService, atOrders: nat, atPayments: nat, atShipping: nat): World
    reads b, svc
  {
    World(b.orders, b.payments, b.shipping, atOrders, atPayments, atShipping, svc.orders)
  }

  ghost predicate IsWorld(b: SagaBroker, svc: OrderService, atOrders: nat, atPayments: nat, atShipping: nat, w: World)
    reads b, svc
  {
    WorldOf(b, svc, atOrders, atPayments, atShipping) == w
  }

  lemma WorldIs(b: SagaBroker, svc: OrderService, atOrders: nat, atPayments: nat, atShipping: nat, w: World)
    requires IsWorld(b, svc, atOrders, atPayments, atShipping, w)
    ensures WorldOf(b, svc, atOrders, atPayments, atShipping) == w
  {
  }

  method OnOrders(b: SagaBroker, svc: OrderService, pay: PaymentService, e: Event,
    ghost atOrders: nat, ghost atPayments: nat, ghost atShipping: nat, ghost w: World)
    requires svc.broker == b && pay.broker == b
    requires WithinLogs(w) && Cursor(w, Orders) < |Log(w, Orders)| && e == Log(w, Orders)[Cursor(w, Orders)]
    requires IsWorld(b, svc, atOrders, atPayments, atShipping, w)
    modifies b
    ensures IsWorld(b, svc, atOrders + 1, atPayments, atShipping, Handle(w, Orders))
  {
    if e.OrderCreated? {
      pay.HandleOrderCreated(e.orderId, e.amount);
    }
  }

  method OnPayments(b: SagaBroker, svc: OrderService, ship: ShippingService, e: Event,
    ghost atOrders: nat, ghost atPayments: nat, ghost atShipping: nat, ghost w: World)
    requires svc.broker == b && ship.broker == b
    requires WithinLogs(w) && Cursor(w, Payments) < |Log(w, Payments)| && e == Log(w, Payments)[Cursor(w, Payments)]
    requires IsWorld(b, svc, atOrders, atPayments, atShipping, w)
    modifies b, svc
    ensures IsWorld(b, svc, atOrders, atPayments + 1, atShipping, Handle(w, Payments))
  {
    if e.PaymentProcessed? {
      svc.HandlePaymentProcessed(e.orderId);
      ship.HandlePaymentProcessed(e.orderId);
    } else if e.PaymentFailed? {
      svc.HandlePaymentFailed(e.orderId);
    }
  }

  method OnShipping(b: SagaBroker, svc: OrderService, e: Event,
    ghost atOrders: nat, ghost atPayments: nat, ghost atShipping: nat, ghost w: World)
    requires svc.broker == b
    requires WithinLogs(w) && Cursor(w, Shipping) < |Log(w, Shipping)| && e == Log(w, Shipping)[Cursor(w, Shipping)]
    requires IsWorld(b, svc, atOrders, atPayments, atShipping, w)
    modifies svc
    ensures IsWorld(b, svc, atOrders, atPayments, atShipping + 1, Handle(w, Shipping))
  {
    if e.OrderShipped? {
      svc.HandleOrderShipped(e.orderId);
    }
  }

  ghost predicate IsPage(w: World, k: Stage, page: seq<Event>) {
    WithinLogs(w) && page <= Log(w, k)[Cursor(w, k)..]
  }

  /** Reading a stream never changes what it already held. */
  lemma {:induction false} TakeManyKeeps(w: World, k: Stage, i: nat)
    requires WithinLogs(w) && Cursor(w, k) + i <= |Log(w, k)|
    ensures Log(w, k) <= Log(TakeMany(w, k, i), k)
  {
    if i == 0 {
    } else {
      TakeManyKeeps(w, k, i - 1);
      HandleKeeps(TakeMany(w, k, i - 1), k);
    }
    hide Handle, Log;
  }

  lemma HandleKeeps(w: World, k: Stage)
    requires WithinLogs(w) && Cursor(w, k) < |Log(w, k)|
    ensures Log(w, k) <= Log(Handle(w, k), k)
  {
  }

  lemma PageNext(w: World, k: Stage, page: seq<Event>, i: nat)
    requires IsPage(w, k, page) && i < |page|
    ensures Cursor(w, k) + i < |Log(w, k)|
    ensures var w' := TakeMany(w, k, i);
            && WithinLogs(w') && Cursor(w', k) < |Log(w', k)| && page[i] == Log(w', k)[Cursor(w', k)]
            && TakeMany(w, k, i + 1) == Handle(w', k)
  {
    assert page[i] == Log(w, k)[Cursor(w, k)..][i];
    TakeManyKeeps(w, k, i);
    hide Handle, Log, Cursor;
  }

  method FetchPage(b: SagaBroker, k: Stage, at: nat, ghost w: World) returns (page: seq<Event>)
    requires WithinLogs(w) && Log(w, k) == b.Stream(k) && Cursor(w, k) == at
    ensures IsPage(w, k, page) && |page| == PageSize(w, k) && Cursor(w, k) + |page| <= |Log(w, k)|
  {
    page := b.Consume(k, at);
  }

  lemma PageBounds(w: World, k: Stage)
    requires WithinLogs(w)
    ensures TakeMany(w, k, 0) == w && ReadPage(w, k) == TakeMany(w, k, PageSize(w, k))
  {
    hide Handle, PageSize;
  }

  lemma Begins(b: SagaBroker, svc: OrderService, atOrders: nat, atPayments: nat, atShipping: nat, w: World)
    requires WorldOf(b, svc, atOrders, atPayments, atShipping) == w
    ensures IsWorld(b, svc, atOrders, atPayments, atShipping, w)
  {
  }

  method OrdersEntry(b: SagaBroker, svc: OrderService, pay: PaymentService, page: seq<Event>, i: nat,
    ghost at: nat, ghost atPayments: nat, ghost atShipping: nat, ghost start: World)
    requires svc.broker == b && pay.broker == b
    requires IsPage(start, Orders, page) && i < |page|
    requires IsWorld(b, svc, at, atPayments, atShipping, TakeMany(start, Orders, i))
    modifies b
    ensures IsWorld(b, svc, at + 1, atPayments, atShipping, TakeMany(start, Orders, i + 1))
  {
    PageNext(start, Orders, page, i);
    hide *;
    OnOrders(b, svc, pay, page[i], at, atPayments, atShipping, TakeMany(start, Orders, i));
  }

  method OrdersPage(b: SagaBroker, svc: OrderService, pay: PaymentService,
    atOrders: nat, ghost atPayments: nat, ghost atShipping: nat, ghost start: World) returns (at: nat)
    requires svc.broker == b && pay.broker == b
    requires WithinLogs(start) && IsWorld(b, svc, atOrders, atPayments, atShipping, start)
    modifies b
    ensures IsWorld(b, svc, at, atPayments, atShipping, ReadPage(start, Orders))
  {
    at := atOrders;
    WorldIs(b, svc, atOrders, atPayments, atShipping, start);
    PageBounds(start, Orders);
    assert Log(start, Orders) == b.Stream(Orders) && Cursor(start, Orders) == atOrders;
    hide *;
    var page := FetchPage(b, Orders, atOrders, start);
    for i := 0 to |page|
      invariant at == atOrders + i && IsPage(start, Orders, page) && WithinLogs(start)
                && Cursor(start, Orders) + |page| <= |Log(start, Orders)|
      invariant IsWorld(b, svc, at, atPayments, atShipping, TakeMany(start, Orders, i))
    {
      OrdersEntry(b, svc, pay, page, i, at, atPayments, atShipping, start);
      at := at + 1;
    }
  }

  method PaymentsEntry(b: SagaBroker, svc: OrderService, ship: ShippingService, page: seq<Event>, i: nat,
    ghost atOrders: nat, ghost at: nat, ghost atShipping: nat, ghost start: World)
    requires svc.broker == b && ship.broker == b
    requires IsPage(start, Payments, page) && i < |page|
    requires IsWorld(b, svc, atOrders, at, atShipping, TakeMany(start, Payments, i))
    modifies b, svc
    ensures IsWorld(b, svc, atOrders, at + 1, atShipping, TakeMany(start, Payments, i + 1))
  {
    PageNext(start, Payments, page, i);
    hide *;
    OnPayments(b, svc, ship, page[i], atOrders, at, atShipping, TakeMany(start, Payments, i));
  }

  method PaymentsPage(b: SagaBroker, svc: OrderService, ship: ShippingService,
    ghost atOrders: nat, atPayments: nat, ghost atShipping: nat, ghost start: World) returns (at: nat)
    requires svc.broker == b && ship.broker == b
    requires WithinLogs(start) && IsWorld(b, svc, atOrders, atPayments, atShipping, start)
    modifies b, svc
    ensures IsWorld(b, svc, atOrders, at, atShipping, ReadPage(start, Payments))
  {
    at := atPayments;
    WorldIs(b, svc, atOrders, atPayments, atShipping, start);
    PageBounds(start, Payments);
    assert Log(start, Payments) == b.Stream(Payments) && Cursor(start, Payments) == atPayments;
    hide *;
    var page := FetchPage(b, Payments, atPayments, start);
    for i := 0 to |page|
      invariant at == atPayments + i && IsPage(start, Payments, page) && WithinLogs(start)
                && Cursor(start, Payments) + |page| <= |Log(start, Payments)|
      invariant IsWorld(b, svc, atOrders, at, atShipping, TakeMany(start, Payments, i))
    {
      PaymentsEntry(b, svc, ship, page, i, atOrders, at, atShipping, start);
      at := at + 1;
    }
  }

  method ShippingEntry(b: SagaBroker, svc: OrderService, page: seq<Event>, i: nat,
    ghost atOrders: nat, ghost atPayments: nat, ghost at: nat, ghost start: World)
    requires svc.broker == b
    requires IsPage(start, Shipping, page) && i < |page|
    requires IsWorld(b, svc, atOrders, atPayments, at, TakeMany(start, Shipping, i))
    modifies svc
    ensures IsWorld(b, svc, atOrders, atPayments, at + 1, TakeMany(start, Shipping, i + 1))
  {
    PageNext(start, Shipping, page, i);
    hide *;
    OnShipping(b, svc, page[i], atOrders, atPayments, at, TakeMany(start, Shipping, i));
  }

  method ShippingPage(b: SagaBroker, svc: OrderService,
    ghost atOrders: nat, ghost atPayments: nat, atShipping: nat, ghost start: World) returns (at: nat)
    requires svc.broker == b
    requires WithinLogs(start) && IsWorld(b, svc, atOrders, atPayments, atShipping, start)
    modifies svc
    ensures IsWorld(b, svc, atOrders, atPayments, at, ReadPage(start, Shipping))
  {
    at := atShipping;
    WorldIs(b, svc, atOrders, atPayments, atShipping, start);
    PageBounds(start, Shipping);
    assert Log(start, Shipping) == b.Stream(Shipping) && Cursor(start, Shipping) == atShipping;
    hide *;
    var page := FetchPage(b, Shipping, atShipping, start);
    for i := 0 to |page|
      invariant at == atShipping + i && IsPage(start, Shipping, page) && WithinLogs(start)
                && Cursor(start, Shipping) + |page| <= |Log(start, Shipping)|
      invariant IsWorld(b, svc, atOrders, atPayments, at, TakeMany(start, Shipping, i))
    {
      ShippingEntry(b, svc, page, i, atOrders, atPayments, at, start);
      at := at + 1;
    }
  }

  lemma NothingJoined(w: World)
    requires WithinLogs(w)
    ensures Join(w, []) == w
  {
  }

  lemma JoinNext(w: World, arrivals: seq<Arrival>, i: nat)
    requires WithinLogs(w) && i < |arrivals|
    ensures Join(w, arrivals[..i + 1]) == Arrive(Join(w, arrivals[..i]), arrivals[i])
  {
    assert arrivals[..i + 1][..i] == arrivals[..i];
    hide Arrive;
  }

  /** Someone else at work on the order service and the broker. */
  method OtherPublishes(b: SagaBroker, svc: OrderService, a: Arrival,
    ghost atOrders: nat, ghost atPayments: nat, ghost atShipping: nat, ghost w: World)
    requires svc.broker == b && WithinLogs(w)
    requires IsWorld(b, svc, atOrders, atPayments, atShipping, w)
    modifies b, svc
    ensures IsWorld(b, svc, atOrders, atPayments, atShipping, Arrive(w, a))
  {
    match a {
      case Placed(p, amount) =>
        svc.CreateOrder(p, Pending);
        svc.PublishCreated(p, amount);
        assert w.book[p := Pending][p := PaymentProcessing] == w.book[p := PaymentProcessing];
      case Repeated(p, amount) =>
        b.Publish(Orders, OrderCreated(p, amount));
        assert b.Stream(Orders) == b.orders && b.Stream(Payments) == b.payments && b.Stream(Shipping) == b.shipping;
      case Stray(k) =>
        b.Publish(k, Unknown);
        assert b.Stream(Orders) == b.orders && b.Stream(Payments) == b.payments && b.Stream(Shipping) == b.shipping;
    }
  }

  method OthersPublish(b: SagaBroker, svc: OrderService, arrivals: seq<Arrival>,
    ghost atOrders: nat, ghost atPayments: nat, ghost atShipping: nat, ghost w: World)
    requires svc.broker == b && WithinLogs(w)
    requires IsWorld(b, svc, atOrders, atPayments, atShipping, w)
    modifies b, svc
    ensures IsWorld(b, svc, atOrders, atPayments, atShipping, Join(w, arrivals))
  {
    hide *;
    NothingJoined(w);
    assert arrivals[..0] == [];
    for i := 0 to |arrivals|
      invariant IsWorld(b, svc, atOrders, atPayments, atShipping, Join(w, arrivals[..i]))
    {
      JoinNext(w, arrivals, i);
      OtherPublishes(b, svc, arrivals[i], atOrders, atPayments, atShipping, Join(w, arrivals[..i]));
    }
    assert arrivals[..|arrivals|] == arrivals;
  }

  lemma Reads(w: World, others: Schedule, n: nat)
    requires WithinLogs(w)
    ensures var w1 := ReadPage(Join(w, others(3 * n)), Orders);
            var w2 := ReadPage(Join(w1, others(3 * n + 1)), Payments);
            Pass(w, others, n) == ReadPage(Join(w2, others(3 * n + 2)), Shipping)
  {
    hide ReadPage, Join, WithinLogs;
  }

  method OnePass(b: SagaBroker, svc: OrderService, pay: PaymentService, ship: ShippingService,
    atOrders: nat, atPayments: nat, atShipping: nat, others: Schedule, n: nat, ghost w: World)
    returns (o: nat, p: nat, h: nat)
    requires svc.broker == b && pay.broker == b && ship.broker == b
    requires WithinLogs(w) && IsWorld(b, svc, atOrders, atPayments, atShipping, w)
    modifies b, svc
    ensures IsWorld(b, svc, o, p, h, Pass(w, others, n))
  {
    hide *;
    Reads(w, others, n);
    OthersPublish(b, svc, others(3 * n), atOrders, atPayments, atShipping, w);
    o := OrdersPage(b, svc, pay, atOrders, atPayments, atShipping, Join(w, others(3 * n)));
    ghost var w1 := ReadPage(Join(w, others(3 * n)), Orders);
    OthersPublish(b, svc, others(3 * n + 1), o, atPayments, atShipping, w1);
    p := PaymentsPage(b, svc, ship, o, atPayments, atShipping, Join(w1, others(3 * n + 1)));
    ghost var w2 := ReadPage(Join(w1, others(3 * n + 1)), Payments);
    OthersPublish(b, svc, others(3 * n + 2), o, p, atShipping, w2);
    h := ShippingPage(b, svc, o, p, atShipping, Join(w2, others(3 * n + 2)));
  }

  lemma WeightlessIsQuiescent(w: World)
    requires WithinLogs(w) && UnreadWeight(w) == 0
    ensures Quiescent(w)
  {
  }

  /** An undecided order has something left to read, so a pass lowers the weight. */
  lemma UndecidedPass(w: World, others: Schedule, n: nat, o: string, amountOf: string -> real)
    requires Sound(w, o, amountOf) && WithinLogs(w) && !DecidedIn(w, o) && AllFit(others, amountOf)
    ensures var w' := Pass(w, others, n);
            Sound(w', o, amountOf) && UnreadWeight(w') < UnreadWeight(w) + PassWeight(others, n)
  {
    PassIsSound(w, others, n, o, amountOf);
    if Quiescent(w) {
      QuiescentIsDecided(w, o, amountOf);
    }
    hide UnreadWeight, Pass, PassWeight;
  }

  lemma SoundIsFinal(w: World, o: string, amountOf: string -> real)
    requires Sound(w, o, amountOf)
    ensures WithinLogs(w) && o in w.book
    ensures DecidedIn(w, o) ==> w.book[o] == Final(amountOf(o))
    ensures UnreadWeight(w) == 0 ==> DecidedIn(w, o)
  {
    if UnreadWeight(w) == 0 {
      WeightlessIsQuiescent(w);
      QuiescentIsDecided(w, o, amountOf);
    }
  }

  /** None of the first `n` worlds of the run has decided the order. */
  ghost predicate Undecided(start: World, others: Schedule, n: nat, o: string)
    requires WithinLogs(start)
  {
    forall m: nat :: m < n ==> !DecidedIn(Passes(start, others, m), o)
  }

  /** After `n` passes without a decision every pass has lowered the weight. */
  ghost predicate OnTrack(start: World, others: Schedule, n: nat, o: string, amountOf: string -> real)
    requires WithinLogs(start)
  {
    && Sound(Passes(start, others, n), o, amountOf)
    && UnreadWeight(Passes(start, others, n)) + n <= UnreadWeight(start) + Arrived(others, n)
    && Undecided(start, others, n + 1, o)
  }

  /** A run may stop after `n` passes. */
  ghost predicate Stopped(start: World, others: Schedule, n: nat, o: string, amountOf: string -> real)
    requires WithinLogs(start)
  {
    var w := Passes(start, others, n);
    && o in w.book
    && Undecided(start, others, n, o)
    && (DecidedIn(w, o) ==> w.book[o] == Final(amountOf(o)))
    && (n >= UnreadWeight(start) + Arrived(others, n) ==> DecidedIn(w, o))
  }

  lemma UndecidedNext(start: World, others: Schedule, n: nat, o: string)
    requires WithinLogs(start) && Undecided(start, others, n, o)
    ensures Undecided(start, others, n + 1, o) <==> !DecidedIn(Passes(start, others, n), o)
  {
    hide Passes, DecidedIn;
  }

  lemma PassesNext(start: World, others: Schedule, n: nat)
    requires WithinLogs(start)
    ensures Passes(start, others, n + 1) == Pass(Passes(start, others, n), others, n)
    ensures Arrived(others, n + 1) == Arrived(others, n) + PassWeight(others, n)
  {
    hide Pass, WithinLogs, PassWeight;
  }


  lemma StoppedAt(start: World, others: Schedule, n: nat, o: string, amountOf: string -> real)
    requires WithinLogs(start) && Sound(Passes(start, others, n), o, amountOf) && Undecided(start, others, n, o)
    requires UnreadWeight(Passes(start, others, n)) + n <= UnreadWeight(start) + Arrived(others, n)
    ensures Stopped(start, others, n, o, amountOf)
  {
    SoundIsFinal(Passes(start, others, n), o, amountOf);
    hide Passes, Sound, UnreadWeight, WithinLogs, Final, DecidedIn, Undecided, Arrived;
  }

  lemma TrackFacts(start: World, others: Schedule, n: nat, o: string, amountOf: string -> real)
    requires WithinLogs(start) && OnTrack(start, others, n, o, amountOf)
    ensures var w := Passes(start, others, n);
            && Sound(w, o, amountOf) && UnreadWeight(w) + n <= UnreadWeight(start) + Arrived(others, n)
            && Undecided(start, others, n, o) && Undecided(start, others, n + 1, o) && !DecidedIn(w, o)
  {
    hide Passes, Sound, UnreadWeight, WithinLogs, DecidedIn, Arrived;
  }

  lemma PutOnTrack(start: World, others: Schedule, n: nat, o: string, amountOf: string -> real)
    requires WithinLogs(start) && Undecided(start, others, n, o)
    requires var w := Passes(start, others, n);
             && Sound(w, o, amountOf) && !DecidedIn(w, o)
             && UnreadWeight(w) + n <= UnreadWeight(start) + Arrived(others, n)
    ensures OnTrack(start, others, n, o, amountOf)
  {
    UndecidedNext(start, others, n, o);
    hide Passes, Sound, UnreadWeight, WithinLogs, DecidedIn, Undecided, Arrived;
  }

  lemma StaysOnTrack(start: World, others: Schedule, n: nat, o: string, amountOf: string -> real)
    requires WithinLogs(start) && OnTrack(start, others, n, o, amountOf) && AllFit(others, amountOf)
    ensures Stopped(start, others, n, o, amountOf) && Stopped(start, others, n + 1, o, amountOf)
    ensures !DecidedIn(Passes(start, others, n + 1), o) ==> OnTrack(start, others, n + 1, o, amountOf)
  {
    hide *;
    TrackFacts(start, others, n, o, amountOf);
    PassesNext(start, others, n);
    UndecidedPass(Passes(start, others, n), others, n, o, amountOf);
    StoppedAt(start, others, n, o, amountOf);
    StoppedAt(start, others, n + 1, o, amountOf);
    if !DecidedIn(Passes(start, others, n + 1), o) {
      PutOnTrack(start, others, n + 1, o, amountOf);
    }
  }

  lemma StartsOnTrack(w: World, others: Schedule, o: string, amountOf: string -> real)
    requires WithinLogs(w) && Safe(w, amountOf)
    ensures var w' := Publish(w.(book := w.book[o := PaymentProcessing]), Orders, OrderCreated(o, amountOf(o)));
            WithinLogs(w') && OnTrack(w', others, 0, o, amountOf)
  {
    PublishIsSound(w, o, amountOf);
    hide Sound, UnreadWeight, Safe;
  }

  /** Every event agrees with the amounts, and a known order is final or has an event on its way. */
  ghost predicate Kept(w: World, p: string, amountOf: string -> real) {
    WithinLogs(w) && Safe(w, amountOf) && OnCourse(w, p, 0, amountOf)
  }

  lemma {:induction false} TakeManyKeepsCourse(w: World, k: Stage, n: nat, p: string, amountOf: string -> real)
    requires Kept(w, p, amountOf) && WithinLogs(w) && Cursor(w, k) + n <= |Log(w, k)|
    ensures Kept(TakeMany(w, k, n), p, amountOf)
  {
    if n == 0 {
    } else {
      TakeManyKeepsCourse(w, k, n - 1, p, amountOf);
      HandleKeepsCourse(TakeMany(w, k, n - 1), k, p, amountOf);
    }
    hide Handle, Kept, Log, Cursor;
  }

  lemma HandleKeepsCourse(w: World, k: Stage, p: string, amountOf: string -> real)
    requires Kept(w, p, amountOf) && Cursor(w, k) < |Log(w, k)|
    ensures Kept(Handle(w, k), p, amountOf)
  {
    var (w', send) := Take(w, k);
    TakeStaysOnCourse(w, k, p, 0, amountOf);
    TakeIsSafe(w, k, amountOf);
    TakeCounts(w, k, p);
    DeliverIsSafe(w', send, amountOf);
    DeliverCounts(w', send, p);
    assert WithinLogs(Handle(w, k));
    hide Take, Safe, Tokens, UnreadWeight, Deliver, SendTokens, SendWeight, Log, Cursor, SendAgrees, About, WithinLogs;
  }

  lemma ArriveKeepsCourse(w: World, a: Arrival, p: string, amountOf: string -> real)
    requires Kept(w, p, amountOf) && Agrees(EventOf(a), amountOf)
    ensures Kept(Arrive(w, a), p, amountOf)
  {
    var w1 := if a.Placed? then w.(book := w.book[a.orderId := PaymentProcessing]) else w;
    BookDoesNotCount(w, w1, p);
    PublishCounts(w1, StreamOf(a), EventOf(a), p);
    DeliverIsSafe(w1, Send(StreamOf(a), EventOf(a)), amountOf);
    hide Tokens, UnreadWeight, Safe, Weight;
  }

  lemma {:induction false} JoinKeepsCourse(w: World, arrivals: seq<Arrival>, p: string, amountOf: string -> real)
    requires Kept(w, p, amountOf) && Fits(arrivals, amountOf) && WithinLogs(w)
    ensures Kept(Join(w, arrivals), p, amountOf)
  {
    hide Kept, Arrive, WithinLogs, EventOf, Agrees;
    if arrivals == [] {
    } else {
      JoinKeepsCourse(w, arrivals[..|arrivals| - 1], p, amountOf);
      ArriveKeepsCourse(Join(w, arrivals[..|arrivals| - 1]), arrivals[|arrivals| - 1], p, amountOf);
    }
  }

  lemma JoinAndReadKeepsCourse(w: World, arrivals: seq<Arrival>, k: Stage, p: string, amountOf: string -> real)
    requires Kept(w, p, amountOf) && Fits(arrivals, amountOf) && WithinLogs(w)
    ensures Kept(JoinAndRead(w, arrivals, k), p, amountOf)
  {
    JoinKeepsCourse(w, arrivals, p, amountOf);
    TakeManyKeepsCourse(Join(w, arrivals), k, PageSize(Join(w, arrivals), k), p, amountOf);
    hide Kept, Join, TakeMany;
  }

  lemma PassKeepsCourse(w: World, others: Schedule, n: nat, p: string, amountOf: string -> real)
    requires Kept(w, p, amountOf) && AllFit(others, amountOf) && WithinLogs(w)
    ensures Kept(Pass(w, others, n), p, amountOf)
  {
    hide Kept, JoinAndRead, Fits, WithinLogs;
    var w1 := JoinAndRead(w, others(3 * n), Orders);
    var w2 := JoinAndRead(w1, others(3 * n + 1), Payments);
    JoinAndReadKeepsCourse(w, others(3 * n), Orders, p, amountOf);
    JoinAndReadKeepsCourse(w1, others(3 * n + 1), Payments, p, amountOf);
    JoinAndReadKeepsCourse(w2, others(3 * n + 2), Shipping, p, amountOf);
  }

  /** Any number of passes: an order that had its final status or an event on its way still does. */
  lemma {:induction false} PassesKeepCourse(w: World, others: Schedule, n: nat, p: string, amountOf: string -> real)
    requires Kept(w, p, amountOf) && AllFit(others, amountOf) && WithinLogs(w)
    ensures Kept(Passes(w, others, n), p, amountOf)
  {
    hide Pass, Kept, AllFit, WithinLogs;
    if n == 0 {
    } else {
      PassesKeepCourse(w, others, n - 1, p, amountOf);
      PassKeepsCourse(Passes(w, others, n - 1), others, n - 1, p, amountOf);
    }
  }

  /** Which orders are on course, before and after a number of passes. */
  ghost predicate CourseIsKept(w: World, w': World, amountOf: string -> real) {
    forall p: string :: OnCourse(w, p, 0, amountOf) ==> OnCourse(w', p, 0, amountOf)
  }

  lemma EveryoneKeepsCourse(w: World, others: Schedule, n: nat, amountOf: string -> real)
    requires WithinLogs(w) && Safe(w, amountOf) && AllFit(others, amountOf)
    ensures CourseIsKept(w, Passes(w, others, n), amountOf)
  {
    forall p: string | OnCourse(w, p, 0, amountOf) ensures OnCourse(Passes(w, others, n), p, 0, amountOf) {
      PassesKeepCourse(w, others, n, p, amountOf);
    }
    hide Safe, OnCourse, Passes, WithinLogs, AllFit;
  }

  lemma HandleIsReplied(w: World, k: Stage, effect: Event)
    requires WithinLogs(w) && Cursor(w, k) < |Log(w, k)| && IsReply(effect)
    ensures Replied(w, Handle(w, k), effect)
  {
    TakeIsReplied(w, k, effect);
    hide Replied, Take, Deliver;
  }

  lemma {:induction false} TakeManyIsReplied(w: World, k: Stage, n: nat, effect: Event)
    requires WithinLogs(w) && Cursor(w, k) + n <= |Log(w, k)| && IsReply(effect)
    ensures Replied(w, TakeMany(w, k, n), effect)
  {
    hide Handle, Replied, Log, Cursor, WithinLogs;
    if n == 0 {
      RepliedItself(w, effect);
    } else {
      TakeManyIsReplied(w, k, n - 1, effect);
      HandleIsReplied(TakeMany(w, k, n - 1), k, effect);
      RepliedFurther(w, TakeMany(w, k, n - 1), TakeMany(w, k, n), effect);
    }
  }

  lemma ArriveIsReplied(w: World, a: Arrival, effect: Event)
    requires WithinLogs(w) && IsReply(effect)
    ensures Replied(w, Arrive(w, a), effect)
  {
    var w1 := if a.Placed? then w.(book := w.book[a.orderId := PaymentProcessing]) else w;
    BookIsReplied(w, w1, effect);
    PublishIsReplied(w1, StreamOf(a), EventOf(a), effect);
    hide Replied, Publish;
    RepliedFurther(w, w1, Arrive(w, a), effect);
  }

  lemma BookIsReplied(w: World, w': World, effect: Event)
    requires WithinLogs(w) && IsReply(effect) && w'.(book := w.book) == w && w.book.Keys <= w'.book.Keys
    ensures WithinLogs(w') && Replied(w, w', effect)
  {
    forall k ensures Count(w', k, effect) == Count(w, k, effect) {
      CountOf(w, w', k, effect);
    }
    assert Caused(w', effect) == Caused(w, effect);
    hide Count, Causes;
  }

  lemma {:induction false} JoinIsReplied(w: World, arrivals: seq<Arrival>, effect: Event)
    requires WithinLogs(w) && IsReply(effect)
    ensures Replied(w, Join(w, arrivals), effect)
  {
    hide Replied, Arrive, WithinLogs;
    if arrivals == [] {
      RepliedItself(w, effect);
    } else {
      var before := Join(w, arrivals[..|arrivals| - 1]);
      JoinIsReplied(w, arrivals[..|arrivals| - 1], effect);
      ArriveIsReplied(before, arrivals[|arrivals| - 1], effect);
      RepliedFurther(w, before, Join(w, arrivals), effect);
    }
  }

  lemma JoinAndReadIsReplied(w: World, arrivals: seq<Arrival>, k: Stage, effect: Event)
    requires WithinLogs(w) && IsReply(effect)
    ensures Replied(w, JoinAndRead(w, arrivals, k), effect)
  {
    var w1 := Join(w, arrivals);
    JoinIsReplied(w, arrivals, effect);
    TakeManyIsReplied(w1, k, PageSize(w1, k), effect);
    hide Replied, Join, TakeMany;
    RepliedFurther(w, w1, JoinAndRead(w, arrivals, k), effect);
  }

  lemma PassIsReplied(w: World, others: Schedule, n: nat, effect: Event)
    requires WithinLogs(w) && IsReply(effect)
    ensures Replied(w, Pass(w, others, n), effect)
  {
    hide Replied, JoinAndRead, WithinLogs;
    var w1 := JoinAndRead(w, others(3 * n), Orders);
    var w2 := JoinAndRead(w1, others(3 * n + 1), Payments);
    var w3 := JoinAndRead(w2, others(3 * n + 2), Shipping);
    JoinAndReadIsReplied(w, others(3 * n), Orders, effect);
    JoinAndReadIsReplied(w1, others(3 * n + 1), Payments, effect);
    JoinAndReadIsReplied(w2, others(3 * n + 2), Shipping, effect);
    RepliedFurther(w, w1, w2, effect);
    RepliedFurther(w, w2, w3, effect);
  }

  lemma {:induction false} PassesAreReplied(w: World, others: Schedule, n: nat, effect: Event)
    requires WithinLogs(w) && IsReply(effect)
    ensures Replied(w, Passes(w, others, n), effect)
  {
    hide Replied, Pass, WithinLogs;
    if n == 0 {
      RepliedItself(w, effect);
    } else {
      PassesAreReplied(w, others, n - 1, effect);
      PassIsReplied(Passes(w, others, n - 1), others, n - 1, effect);
      RepliedFurther(w, Passes(w, others, n - 1), Passes(w, others, n), effect);
    }
  }

  /** How often `e` arrives on stream `k`. */
  function Arrivals(arrivals: seq<Arrival>, k: Stage, e: Event): nat {
    if arrivals == [] then 0
    else
      var n := |arrivals| - 1;
      Arrivals(arrivals[..n], k, e) + if StreamOf(arrivals[n]) == k && EventOf(arrivals[n]) == e then 1 else 0
  }

  /** The same before the first `n` reads. */
  ghost function ArrivedOn(others: Schedule, n: nat, k: Stage, e: Event): nat {
    if n == 0 then 0 else ArrivedOn(others, n - 1, k, e) + Arrivals(others(n - 1), k, e)
  }

  lemma {:induction false} TakeManyKeepsTheRest(w: World, k: Stage, n: nat, to: Stage, e: Event)
    requires WithinLogs(w) && Cursor(w, k) + n <= |Log(w, k)| && !IsReply(e)
    ensures Count(TakeMany(w, k, n), to, e) == Count(w, to, e)
  {
    hide Count, Log, Cursor, WithinLogs;
    if n == 0 {
    } else {
      TakeManyKeepsTheRest(w, k, n - 1, to, e);
      TakeKeepsTheRest(TakeMany(w, k, n - 1), k, to, e);
      hide Take, Deliver;
    }
  }

  lemma {:induction false} JoinAdds(w: World, arrivals: seq<Arrival>, k: Stage, e: Event)
    requires WithinLogs(w) && !IsReply(e)
    ensures Count(Join(w, arrivals), k, e) == Count(w, k, e) + Arrivals(arrivals, k, e)
  {
    hide Count, Publish, WithinLogs, EventOf, StreamOf;
    if arrivals == [] {
    } else {
      var n := |arrivals| - 1;
      var before, a := Join(w, arrivals[..n]), arrivals[n];
      JoinAdds(w, arrivals[..n], k, e);
      var placed := if a.Placed? then before.(book := before.book[a.orderId := PaymentProcessing]) else before;
      assert Log(placed, k) == Log(before, k);
      CountOf(before, placed, k, e);
      PublishCount(placed, StreamOf(a), EventOf(a), k, e);
    }
  }

  lemma JoinAndReadAdds(w: World, arrivals: seq<Arrival>, at: Stage, k: Stage, e: Event)
    requires WithinLogs(w) && !IsReply(e)
    ensures Count(JoinAndRead(w, arrivals, at), k, e) == Count(w, k, e) + Arrivals(arrivals, k, e)
  {
    var w1 := Join(w, arrivals);
    JoinAdds(w, arrivals, k, e);
    TakeManyKeepsTheRest(w1, at, PageSize(w1, at), k, e);
    hide Count, Join, TakeMany;
  }

  /** What others publish is on the streams, each event as often as it was published. */
  lemma {:induction false} PassesAdd(w: World, others: Schedule, n: nat, k: Stage, e: Event)
    requires WithinLogs(w) && !IsReply(e)
    ensures Count(Passes(w, others, n), k, e) == Count(w, k, e) + ArrivedOn(others, 3 * n, k, e)
  {
    hide Count, JoinAndRead, WithinLogs, Arrivals;
    if n == 0 {
    } else {
      PassesAdd(w, others, n - 1, k, e);
      var m := 3 * (n - 1);
      var w0 := Passes(w, others, n - 1);
      var w1 := JoinAndRead(w0, others(m), Orders);
      var w2 := JoinAndRead(w1, others(m + 1), Payments);
      JoinAndReadAdds(w0, others(m), Orders, k, e);
      JoinAndReadAdds(w1, others(m + 1), Payments, k, e);
      JoinAndReadAdds(w2, others(m + 2), Shipping, k, e);
      ThreeMore(others, m, k, e);
      hide ArrivedOn;
    }
  }

  lemma ThreeMore(others: Schedule, m: nat, k: Stage, e: Event)
    ensures ArrivedOn(others, m + 3, k, e)
         == ArrivedOn(others, m, k, e) + Arrivals(others(m), k, e) + Arrivals(others(m + 1), k, e)
            + Arrivals(others(m + 2), k, e)
  {
    hide Arrivals;
    assert ArrivedOn(others, m + 1, k, e) == ArrivedOn(others, m, k, e) + Arrivals(others(m), k, e);
    assert ArrivedOn(others, m + 2, k, e) == ArrivedOn(others, m + 1, k, e) + Arrivals(others(m + 1), k, e);
  }

  /** All that others published in `n` passes is on the streams, and nothing else but answers. */
  ghost predicate AllArrived(start: World, w: World, others: Schedule, n: nat) {
    forall k: Stage, e: Event :: !IsReply(e) ==> Count(w, k, e) == Count(start, k, e) + ArrivedOn(others, 3 * n, k, e)
  }

  lemma EveryArrivalIsThere(start: World, others: Schedule, n: nat)
    requires WithinLogs(start)
    ensures AllArrived(start, Passes(start, others, n), others, n)
  {
    forall k: Stage, e: Event | !IsReply(e)
      ensures Count(Passes(start, others, n), k, e) == Count(start, k, e) + ArrivedOn(others, 3 * n, k, e)
    {
      PassesAdd(start, others, n, k, e);
    }
    hide Count, Passes, WithinLogs;
  }

  /** Every answer on the streams of `w` was there or was called for. */
  ghost predicate AllReplied(start: World, w: World)
    requires WithinLogs(start) && WithinLogs(w)
  {
    forall effect :: IsReply(effect) ==> Replied(start, w, effect)
  }

  lemma EveryReplyIsCalledFor(start: World, others: Schedule, n: nat)
    requires WithinLogs(start)
    ensures AllReplied(start, Passes(start, others, n))
  {
    forall effect | IsReply(effect) ensures Replied(start, Passes(start, others, n), effect) {
      PassesAreReplied(start, others, n, effect);
    }
    hide Replied, Passes, WithinLogs;
  }

  /** Where a run of the runner starts: the order created and published, all cursors at the beginning. */
  function Begun(b: SagaBroker, svc: OrderService, o: string, amount: real): World
    reads b, svc
  {
    World(b.orders + [OrderCreated(o, amount)], b.payments, b.shipping, 0, 0, 0, svc.orders[o := PaymentProcessing])
  }

  /** The streams and the order book are those of `w`. */
  ghost predicate Shows(b: SagaBroker, svc: OrderService, w: World)
    reads b, svc
  {
    b.orders == w.orders && b.payments == w.payments && b.shipping == w.shipping && svc.orders == w.book
  }

  /** A status a run may be left with after `n` passes. */
  ghost predicate Outcome(start: World, others: Schedule, n: nat, status: Status, o: string, amount: real)
    requires WithinLogs(start)
  {
    && Undecided(start, others, n, o)
    && (Terminal(status) ==> status == Final(amount))
    && (n >= UnreadWeight(start) + Arrived(others, n) ==> Terminal(status))
  }

  lemma StoppedShows(start: World, others: Schedule, n: nat, b: SagaBroker, svc: OrderService,
                     at: nat, at': nat, at'': nat, o: string, amountOf: string -> real)
    requires WithinLogs(start) && Stopped(start, others, n, o, amountOf)
    requires IsWorld(b, svc, at, at', at'', Passes(start, others, n))
    ensures Shows(b, svc, Passes(start, others, n)) && o in svc.orders
    ensures Outcome(start, others, n, svc.orders[o], o, amountOf(o))
    ensures DecidedIn(Passes(start, others, n), o) <==> Terminal(svc.orders[o])
  {
    hide Undecided, Passes, UnreadWeight, Arrived, Final, WithinLogs;
  }

  /**
   Whatever events were already on the streams and whatever orders others publish between the reads:
   the run stops early only at a terminal status, a terminal status is the one the amount calls for,
   and as many passes as the weight that was there and came always reach one. Any other order that
   was on course is left at its final status or with an event about it unread. Each answer was
   appended once for every event consumed that calls for it, compensations for known orders only.
   Nothing else is on the streams but what was there and what the others published.
   */
  method RunSaga(b: SagaBroker, svc: OrderService, pay: PaymentService, ship: ShippingService,
                 o: string, amount: real, stopAfter: nat, others: Schedule, ghost amountOf: string -> real)
    returns (passes: nat, status: Status)
    requires svc.broker == b && pay.broker == b && ship.broker == b
    requires amountOf(o) == amount && AllFit(others, amountOf)
    requires LogAgrees(b.orders, amountOf) && LogAgrees(b.payments, amountOf) && LogAgrees(b.shipping, amountOf)
    modifies b, svc
    ensures passes <= stopAfter
    ensures Shows(b, svc, Passes(old(Begun(b, svc, o, amount)), others, passes))
    ensures o in svc.orders && status == svc.orders[o]
    ensures passes < stopAfter ==> Terminal(status)
    ensures Outcome(old(Begun(b, svc, o, amount)), others, passes, status, o, amount)
    ensures CourseIsKept(old(Begun(b, svc, o, amount)), Passes(old(Begun(b, svc, o, amount)), others, passes), amountOf)
    ensures AllReplied(old(Begun(b, svc, o, amount)), Passes(old(Begun(b, svc, o, amount)), others, passes))
    ensures AllArrived(old(Begun(b, svc, o, amount)), Passes(old(Begun(b, svc, o, amount)), others, passes), others,
                       passes)
  {
    ghost var start := Begun(b, svc, o, amount);
    StartsOnTrack(WorldOf(b, svc, 0, 0, 0), others, o, amountOf);
    svc.CreateOrder(o, Pending);
    svc.PublishCreated(o, amount);
    var atOrders, atPayments, atShipping := 0, 0, 0;
    assert WorldOf(b, svc, 0, 0, 0) == start;
    Begins(b, svc, 0, 0, 0, start);
    passes := 0;
    assert Passes(start, others, 0) == start && Safe(start, amountOf);
    hide *;
    while passes < stopAfter
      invariant passes <= stopAfter && OnTrack(start, others, passes, o, amountOf)
      invariant IsWorld(b, svc, atOrders, atPayments, atShipping, Passes(start, others, passes))
    {
      StaysOnTrack(start, others, passes, o, amountOf);
      PassesNext(start, others, passes);
      atOrders, atPayments, atShipping :=
        OnePass(b, svc, pay, ship, atOrders, atPayments, atShipping, others, passes, Passes(start, others, passes));
      passes := passes + 1;
      StoppedShows(start, others, passes, b, svc, atOrders, atPayments, atShipping, o, amountOf);
      if Terminal(svc.orders[o]) {
        EveryoneKeepsCourse(start, others, passes, amountOf);
        EveryReplyIsCalledFor(start, others, passes);
        EveryArrivalIsThere(start, others, passes);
        return passes, svc.orders[o];
      }
    }
    StaysOnTrack(start, others, passes, o, amountOf);
    StoppedShows(start, others, passes, b, svc, atOrders, atPayments, atShipping, o, amountOf);
    EveryoneKeepsCourse(start, others, passes, amountOf);
    EveryReplyIsCalledFor(start, others, passes);
    EveryArrivalIsThere(start, others, passes);
    status := svc.orders[o];
  }
}
