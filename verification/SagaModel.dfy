/**
 The choreography: three streams, one cursor each, and the order book. Reacting to an event
 changes the book and may send one event to another stream.
 */
module SagaModel {

  datatype Stage = Orders | Payments | Shipping

  datatype Event =
    | OrderCreated(orderId: string, amount: real)
    | PaymentProcessed(orderId: string)
    | PaymentFailed(orderId: string)
    | OrderShipped(orderId: string)
    | OrderCancelled(orderId: string)
    | Unknown

  datatype Status = Pending | PaymentProcessing | Paid | Shipped | Completed | Cancelled

  datatype World = World(
    orders: seq<Event>, payments: seq<Event>, shipping: seq<Event>,
    atOrders: nat, atPayments: nat, atShipping: nat,
    book: map<string, Status>)

  datatype Send = Nothing | Send(to: Stage, event: Event)

  function Log(w: World, k: Stage): seq<Event> {
    match k
    case Orders => w.orders
    case Payments => w.payments
    case Shipping => w.shipping
  }

  function Cursor(w: World, k: Stage): nat {
    match k
    case Orders => w.atOrders
    case Payments => w.atPayments
    case Shipping => w.atShipping
  }

  function Publish(w: World, k: Stage, e: Event): World {
    match k
    case Orders => w.(orders := w.orders + [e])
    case Payments => w.(payments := w.payments + [e])
    case Shipping => w.(shipping := w.shipping + [e])
  }

  function MoveCursor(w: World, k: Stage): World {
    match k
    case Orders => w.(atOrders := w.atOrders + 1)
    case Payments => w.(atPayments := w.atPayments + 1)
    case Shipping => w.(atShipping := w.atShipping + 1)
  }

  /** Services look an order up before touching it; an unknown one is left alone. */
  function SetStatus(w: World, o: string, status: Status): World {
    if o in w.book then w.(book := w.book[o := status]) else w
  }

  function React(w: World, k: Stage, e: Event): (World, Send) {
    match (k, e)
    case (Orders, OrderCreated(o, amount)) =>
      (w, Send(Payments, if amount <= 0.0 then PaymentFailed(o) else PaymentProcessed(o)))
    case (Payments, PaymentProcessed(o)) => (SetStatus(w, o, Paid), Send(Shipping, OrderShipped(o)))
    case (Payments, PaymentFailed(o)) =>
      if o in w.book then (SetStatus(w, o, Cancelled), Send(Orders, OrderCancelled(o))) else (w, Nothing)
    case (Shipping, OrderShipped(o)) => (SetStatus(w, o, Completed), Nothing)
    case _ => (w, Nothing)
  }

  /** The cursor moves before the event is handled. */
  function Take(w: World, k: Stage): (World, Send)
    requires Cursor(w, k) < |Log(w, k)|
  {
    React(MoveCursor(w, k), k, Log(w, k)[Cursor(w, k)])
  }

  function Deliver(w: World, send: Send): World {
    match send
    case Nothing => w
    case Send(k, e) => Publish(w, k, e)
  }

  ghost predicate WithinLogs(w: World) {
    w.atOrders <= |w.orders| && w.atPayments <= |w.payments| && w.atShipping <= |w.shipping|
  }

  ghost predicate Quiescent(w: World) {
    w.atOrders == |w.orders| && w.atPayments == |w.payments| && w.atShipping == |w.shipping|
  }

  function Final(amount: real): Status {
    if amount > 0.0 then Completed else Cancelled
  }

  predicate Terminal(status: Status) {
    status.Completed? || status.Cancelled?
  }

  predicate DecidedIn(w: World, o: string) {
    o in w.book && Terminal(w.book[o])
  }

  /** An event that will still lead order `o` to its final status. */
  predicate About(k: Stage, e: Event, o: string) {
    match k
    case Orders => e.OrderCreated? && e.orderId == o
    case Payments => (e.PaymentProcessed? || e.PaymentFailed?) && e.orderId == o
    case Shipping => e.OrderShipped? && e.orderId == o
  }

  function Token(k: Stage, e: Event, o: string): nat {
    if About(k, e, o) then 1 else 0
  }

  /** Unread events about `o` in one stream. */
  function TokensFrom(log: seq<Event>, k: Stage, from: nat, o: string): nat {
    if |log| <= from then 0
    else TokensFrom(log[..|log| - 1], k, from, o) + Token(k, log[|log| - 1], o)
  }

  function Tokens(w: World, o: string): nat {
    TokensFrom(w.orders, Orders, w.atOrders, o) + TokensFrom(w.payments, Payments, w.atPayments, o)
    + TokensFrom(w.shipping, Shipping, w.atShipping, o)
  }

  function SendTokens(send: Send, o: string): nat {
    match send
    case Nothing => 0
    case Send(k, e) => Token(k, e, o)
  }

  /** How many events an unread event can still give rise to, itself included. */
  function Weight(e: Event): nat {
    if e.OrderCreated? then 3 else if e.PaymentProcessed? || e.PaymentFailed? then 2 else 1
  }

  function WeightFrom(log: seq<Event>, from: nat): nat {
    if |log| <= from then 0
    else WeightFrom(log[..|log| - 1], from) + Weight(log[|log| - 1])
  }

  function UnreadWeight(w: World): nat {
    WeightFrom(w.orders, w.atOrders) + WeightFrom(w.payments, w.atPayments) + WeightFrom(w.shipping, w.atShipping)
  }

  function SendWeight(send: Send): nat {
    match send
    case Nothing => 0
    case Send(_, e) => Weight(e)
  }

  lemma AppendCounts(log: seq<Event>, e: Event, k: Stage, from: nat, o: string)
    requires from <= |log|
    ensures TokensFrom(log + [e], k, from, o) == TokensFrom(log, k, from, o) + Token(k, e, o)
    ensures WeightFrom(log + [e], from) == WeightFrom(log, from) + Weight(e)
  {
    assert (log + [e])[..|log|] == log;
  }

  lemma {:induction false} ReadCounts(log: seq<Event>, k: Stage, from: nat, o: string)
    requires from < |log|
    ensures TokensFrom(log, k, from, o) == Token(k, log[from], o) + TokensFrom(log, k, from + 1, o)
    ensures WeightFrom(log, from) == Weight(log[from]) + WeightFrom(log, from + 1)
    decreases |log|
  {
    if from == |log| - 1 {
    } else {
      ReadCounts(log[..|log| - 1], k, from, o);
    }
  }

  lemma PublishCounts(w: World, k: Stage, e: Event, o: string)
    requires WithinLogs(w)
    ensures Tokens(Publish(w, k, e), o) == Tokens(w, o) + Token(k, e, o)
    ensures UnreadWeight(Publish(w, k, e)) == UnreadWeight(w) + Weight(e)
  {
    AppendCounts(Log(w, k), e, k, Cursor(w, k), o);
    hide TokensFrom, WeightFrom, Token, Weight;
  }

  lemma TakeWithin(w: World, k: Stage)
    requires WithinLogs(w) && Cursor(w, k) < |Log(w, k)|
    ensures WithinLogs(Take(w, k).0)
  {
  }

  lemma MoveCounts(w: World, k: Stage, o: string)
    requires WithinLogs(w) && Cursor(w, k) < |Log(w, k)|
    ensures var e, w' := Log(w, k)[Cursor(w, k)], MoveCursor(w, k);
            && Tokens(w', o) == Tokens(w, o) - Token(k, e, o)
            && UnreadWeight(w') == UnreadWeight(w) - Weight(e)
  {
    ReadCounts(Log(w, k), k, Cursor(w, k), o);
    hide TokensFrom, WeightFrom, Token, Weight;
  }

  lemma ReactCounts(w: World, k: Stage, e: Event, o: string)
    ensures var (w', send) := React(w, k, e);
            && w'.(book := w.book) == w
            && SendTokens(send, o) <= Token(k, e, o)
            && (About(k, e, o) && !(e.PaymentFailed? || e.OrderShipped?) ==> SendTokens(send, o) == 1)
            && (About(k, e, o) && (e.PaymentFailed? || e.OrderShipped?) ==> SendTokens(send, o) == 0)
            && SendWeight(send) <= Weight(e) - 1
  {
  }

  lemma BookDoesNotCount(w: World, w': World, o: string)
    requires w'.(book := w.book) == w
    ensures Tokens(w', o) == Tokens(w, o) && UnreadWeight(w') == UnreadWeight(w)
  {
    hide TokensFrom, WeightFrom;
  }

  /** Taking an event moves its token on or ends it, and always lowers the weight. */
  lemma TakeCounts(w: World, k: Stage, o: string)
    requires WithinLogs(w) && Cursor(w, k) < |Log(w, k)|
    ensures var e := Log(w, k)[Cursor(w, k)]; var (w', send) := Take(w, k);
            && WithinLogs(w')
            && Tokens(w', o) + SendTokens(send, o) ==
               Tokens(w, o) - (if About(k, e, o) && (e.PaymentFailed? || e.OrderShipped?) then 1 else 0)
            && UnreadWeight(w') + SendWeight(send) <= UnreadWeight(w) - 1
  {
    var e, moved := Log(w, k)[Cursor(w, k)], MoveCursor(w, k);
    TakeWithin(w, k);
    MoveCounts(w, k, o);
    ReactCounts(moved, k, e, o);
    BookDoesNotCount(moved, Take(w, k).0, o);
    hide Tokens, UnreadWeight, Log, Cursor, MoveCursor, React, SendTokens, SendWeight, About, WithinLogs, Weight;
  }

  lemma NothingUnread(log: seq<Event>, k: Stage, from: nat, o: string)
    requires |log| <= from
    ensures TokensFrom(log, k, from, o) == 0 && WeightFrom(log, from) == 0
  {
  }

  /** Every event agrees with the fixed amount of its order. */
  ghost predicate Agrees(e: Event, amountOf: string -> real) {
    match e
    case OrderCreated(o, amount) => amount == amountOf(o)
    case PaymentProcessed(o) => amountOf(o) > 0.0
    case PaymentFailed(o) => amountOf(o) <= 0.0
    case OrderShipped(o) => amountOf(o) > 0.0
    case OrderCancelled(_) => true
    case Unknown => true
  }

  ghost predicate LogAgrees(log: seq<Event>, amountOf: string -> real) {
    forall i :: 0 <= i < |log| ==> Agrees(log[i], amountOf)
  }

  ghost predicate Safe(w: World, amountOf: string -> real) {
    LogAgrees(w.orders, amountOf) && LogAgrees(w.payments, amountOf) && LogAgrees(w.shipping, amountOf)
  }

  ghost predicate SendAgrees(send: Send, amountOf: string -> real) {
    send.Send? ==> Agrees(send.event, amountOf)
  }

  lemma TakeIsSafe(w: World, k: Stage, amountOf: string -> real)
    requires Safe(w, amountOf) && Cursor(w, k) < |Log(w, k)|
    ensures Safe(Take(w, k).0, amountOf) && SendAgrees(Take(w, k).1, amountOf)
  {
    assert Agrees(Log(w, k)[Cursor(w, k)], amountOf);
  }

  /** A known order has its final status or an event on the way that will set it. */
  ghost predicate OnCourse(w: World, o: string, extra: nat, amountOf: string -> real) {
    o in w.book ==> w.book[o] == Final(amountOf(o)) || Tokens(w, o) + extra > 0
  }

  lemma TakeStaysOnCourse(w: World, k: Stage, o: string, extra: nat, amountOf: string -> real)
    requires WithinLogs(w) && Safe(w, amountOf) && Cursor(w, k) < |Log(w, k)|
    requires OnCourse(w, o, extra, amountOf)
    ensures OnCourse(Take(w, k).0, o, extra + SendTokens(Take(w, k).1, o), amountOf)
  {
    TakeCounts(w, k, o);
    assert Agrees(Log(w, k)[Cursor(w, k)], amountOf);
    hide Tokens, UnreadWeight;
  }

  /** A terminal status is only ever set to the one the amount calls for. */
  lemma TakeSetsFinal(w: World, k: Stage, o: string, amountOf: string -> real)
    requires Safe(w, amountOf) && o in w.book && Cursor(w, k) < |Log(w, k)|
    requires Terminal(w.book[o]) ==> w.book[o] == Final(amountOf(o))
    ensures var w' := Take(w, k).0; o in w'.book && (Terminal(w'.book[o]) ==> w'.book[o] == Final(amountOf(o)))
  {
    assert Agrees(Log(w, k)[Cursor(w, k)], amountOf);
  }
}
