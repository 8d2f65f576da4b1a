/**
 Saga runs over shared streams, one after another and one await at a time, while orders are created
 and published, published again, and injected by others at any moment. A run creates and publishes
 its own order, reads every stream from the beginning and stops after the first pass that finds its
 order in a terminal status. It can end at any await instead, and the whole process can crash, which
 leaves only the streams. Every order has a fixed amount.
 */
module SagaProtocol {
  import opened SagaModel

  /** The await the runner is suspended in; `end` is where the page it is working through stops. */
  datatype Local =
    | Down
    | Announcing(send: Send)
    | Reading(stage: Stage)
    | Consuming(stage: Stage, end: nat)
    | Sending(stage: Stage, end: nat, send: Send)
    | Stopped

  /**
   `inFlight` are the publishes that have set the status and still await their append; `mine` is
   the order the last run was started for.
   */
  datatype System = System(w: World, local: Local, inFlight: seq<string>, published: set<string>, mine: string)

  datatype Label =
    | Create(orderId: string)
    | BeginPublish(orderId: string)
    | EndPublish(index: nat)
    | Inject(orderId: string)
    | Noise(stage: Stage)
    | Advance
    | Run(orderId: string)
    | End
    | Crash

  type Amounts = string -> real

  const PAGE: nat := 100

  function Initial(): System {
    System(World([], [], [], 0, 0, 0, map[]), Down, [], {}, "")
  }

  function Next(k: Stage): Stage {
    match k
    case Orders => Payments
    case Payments => Shipping
    case Shipping => Orders
  }

  ghost predicate Legal(s: System) {
    && WithinLogs(s.w)
    && match s.local
       case Down => true
       case Announcing(send) => send.Send? && send.to.Orders? && send.event.OrderCreated?
       case Reading(_) => true
       case Consuming(k, end) => Cursor(s.w, k) < end <= |Log(s.w, k)|
       case Sending(k, end, send) => Cursor(s.w, k) <= end <= |Log(s.w, k)| && send.Send?
       case Stopped => true
  }

  function Page(w: World, k: Stage): nat {
    if |Log(w, k)| - Cursor(w, k) <= PAGE then |Log(w, k)| else Cursor(w, k) + PAGE
  }

  /** The check at the end of a pass: the runner stops once its own order is decided. */
  function AfterPage(w: World, k: Stage, mine: string): Local {
    if k.Shipping? && DecidedIn(w, mine) then Stopped else Reading(Next(k))
  }

  function After(w: World, k: Stage, end: nat, mine: string): Local {
    if Cursor(w, k) < end then Consuming(k, end) else AfterPage(w, k, mine)
  }

  function SentOf(u: Local): Send {
    if u.Sending? || u.Announcing? then u.send else Nothing
  }

  function ReadStep(s: System, k: Stage): (s': System)
    requires Legal(s)
    ensures Legal(s')
  {
    s.(local := After(s.w, k, Page(s.w, k), s.mine))
  }

  function ConsumeStep(s: System, k: Stage, end: nat): (s': System)
    requires Legal(s) && s.local == Consuming(k, end)
    ensures Legal(s')
  {
    var (w, send) := Take(s.w, k);
    s.(w := w, local := if send.Nothing? then After(w, k, end, s.mine) else Sending(k, end, send))
  }

  function SendStep(s: System, k: Stage, end: nat, send: Send): (s': System)
    requires Legal(s) && s.local == Sending(k, end, send)
    ensures Legal(s')
  {
    var w := Deliver(s.w, send);
    s.(w := w, local := After(w, k, end, s.mine))
  }

  function AnnounceStep(s: System, send: Send): (s': System)
    requires Legal(s) && s.local == Announcing(send)
    ensures Legal(s')
  {
    s.(w := Deliver(s.w, send), local := Reading(Orders))
  }

  function RunnerStep(s: System): (s': System)
    requires Legal(s)
    ensures Legal(s')
  {
    match s.local
    case Down => s
    case Announcing(send) => AnnounceStep(s, send)
    case Reading(k) => ReadStep(s, k)
    case Consuming(k, end) => ConsumeStep(s, k, end)
    case Sending(k, end, send) => SendStep(s, k, end, send)
    case Stopped => s
  }

  /** A run begins: its order is created, its publish is on the way, and every cursor is at the start. */
  function RunStep(s: System, o: string, amount: real): (s': System)
    requires Legal(s)
    ensures Legal(s')
  {
    s.(w := s.w.(book := s.w.book[o := PaymentProcessing], atOrders := 0, atPayments := 0, atShipping := 0),
       local := Announcing(Send(Orders, OrderCreated(o, amount))), published := s.published + {o}, mine := o)
  }

  /** A run ends where it is suspended: what it was sending is never sent. */
  function EndStep(s: System): (s': System)
    requires Legal(s)
    ensures Legal(s')
  {
    s.(local := Down, published := if s.local.Announcing? then s.published - {s.mine} else s.published)
  }

  /** The process is gone, and with it the order book and every publish on its way. */
  function CrashStep(s: System): (s': System)
    requires Legal(s)
    ensures Legal(s')
  {
    s.(w := s.w.(book := map[]), local := Down, inFlight := [], published := {})
  }

  predicate Ended(u: Local) {
    u.Down? || u.Stopped?
  }

  function Step(s: System, l: Label, amountOf: Amounts): (s': System)
    requires Legal(s)
    ensures Legal(s')
  {
    match l
    case Create(o) => s.(w := s.w.(book := s.w.book[o := Pending]), published := s.published - {o})
    case BeginPublish(o) =>
      if o in s.w.book then
        s.(w := SetStatus(s.w, o, PaymentProcessing), inFlight := s.inFlight + [o], published := s.published + {o})
      else s
    case EndPublish(i) =>
      if i < |s.inFlight| then
        s.(w := Publish(s.w, Orders, OrderCreated(s.inFlight[i], amountOf(s.inFlight[i]))),
           inFlight := s.inFlight[..i] + s.inFlight[i + 1..])
      else s
    case Inject(o) => s.(w := Publish(s.w, Orders, OrderCreated(o, amountOf(o))))
    case Noise(k) => s.(w := Publish(s.w, k, Unknown))
    case Advance => RunnerStep(s)
    case Run(o) => if Ended(s.local) then RunStep(s, o, amountOf(o)) else s
    case End => EndStep(s)
    case Crash => CrashStep(s)
  }

  /** Labels that start or end a run; the others let one go on. */
  predicate Turnover(l: Label) {
    l.Run? || l.End? || l.Crash?
  }

  function Exec(s: System, trace: seq<Label>, amountOf: Amounts): (s': System)
    requires Legal(s)
    ensures Legal(s')
  {
    if trace == [] then s
    else Step(Exec(s, trace[..|trace| - 1], amountOf), trace[|trace| - 1], amountOf)
  }

  /** Events about `o` on their way outside the streams. */
  function Extra(s: System, o: string): nat {
    SendTokens(SentOf(s.local), o) + multiset(s.inFlight)[o]
  }

  function Owed(s: System, o: string): nat {
    Tokens(s.w, o) + Extra(s, o)
  }

  ghost predicate AllAgree(s: System, amountOf: Amounts) {
    Safe(s.w, amountOf) && SendAgrees(SentOf(s.local), amountOf)
  }

  /** An OrderCreated for `o` is on its stream or on its way there. */
  ghost predicate Announced(s: System, o: string) {
    || HasCreated(s.w.orders, o) || o in s.inFlight
    || (s.local.Announcing? && Announces(s.local.send, o))
  }

  predicate Announces(send: Send, o: string) {
    send.Send? && send.event.OrderCreated? && send.event.orderId == o
  }

  ghost predicate HasCreated(log: seq<Event>, o: string) {
    exists i :: 0 <= i < |log| && log[i].OrderCreated? && log[i].orderId == o
  }

  /** A published order stays announced and, while a run goes on or has stopped by itself, on course. */
  ghost predicate OnItsWay(s: System, o: string, amountOf: Amounts) {
    && o in s.w.book && Announced(s, o)
    && (!s.local.Down? ==> OnCourse(s.w, o, Extra(s, o), amountOf))
  }

  ghost predicate AllOnCourse(s: System, amountOf: Amounts) {
    forall o :: o in s.published ==> OnItsWay(s, o, amountOf)
  }

  lemma AgreeStep(s: System, l: Label, amountOf: Amounts)
    requires Legal(s) && AllAgree(s, amountOf)
    ensures AllAgree(Step(s, l, amountOf), amountOf)
  {
    if l.Advance? && s.local.Consuming? {
      TakeIsSafe(s.w, s.local.stage, amountOf);
      hide Take, Safe;
    }
  }

  lemma RemoveAt(a: seq<string>, i: nat, o: string)
    requires i < |a|
    ensures multiset(a[..i] + a[i + 1..])[o] == multiset(a)[o] - if a[i] == o then 1 else 0
  {
    assert a == a[..i] + [a[i]] + a[i + 1..];
  }

  lemma EndPublishOwes(s: System, i: nat, amountOf: Amounts, o: string)
    requires Legal(s) && i < |s.inFlight|
    ensures Owed(Step(s, EndPublish(i), amountOf), o) == Owed(s, o)
  {
    RemoveAt(s.inFlight, i, o);
    PublishCounts(s.w, Orders, OrderCreated(s.inFlight[i], amountOf(s.inFlight[i])), o);
    hide Tokens, Legal;
  }

  lemma SendingOwes(s: System, amountOf: Amounts, o: string)
    requires Legal(s) && (s.local.Sending? || s.local.Announcing?)
    ensures Owed(Step(s, Advance, amountOf), o) == Owed(s, o)
  {
    PublishCounts(s.w, s.local.send.to, s.local.send.event, o);
    hide Tokens;
  }

  lemma BeginOwes(s: System, p: string, amountOf: Amounts, o: string)
    requires Legal(s)
    ensures Owed(Step(s, BeginPublish(p), amountOf), o) == Owed(s, o) + if p == o && o in s.w.book then 1 else 0
  {
    hide Legal, TokensFrom;
  }

  /** How a step changes what is owed to an order. */
  lemma OwedStep(s: System, l: Label, amountOf: Amounts, o: string)
    requires Legal(s) && (l.Advance? ==> !s.local.Consuming?) && !Turnover(l)
    ensures var s' := Step(s, l, amountOf);
            Owed(s', o) == Owed(s, o) + if (l == BeginPublish(o) && o in s.w.book) || l == Inject(o) then 1 else 0
  {
    match l
    case Create(_) => hide TokensFrom;
    case BeginPublish(p) => BeginOwes(s, p, amountOf, o); hide Step, Owed;
    case EndPublish(i) =>
      if i < |s.inFlight| {
        EndPublishOwes(s, i, amountOf, o);
        hide Step, Owed;
      }
    case Inject(p) => PublishCounts(s.w, Orders, OrderCreated(p, amountOf(p)), o); hide Tokens;
    case Noise(k) => PublishCounts(s.w, k, Unknown, o); hide Tokens;
    case Advance =>
      if s.local.Sending? || s.local.Announcing? {
        SendingOwes(s, amountOf, o);
        hide Step, Owed;
      } else {
        hide Tokens;
      }
  }

  lemma OtherKeepsBook(s: System, l: Label, amountOf: Amounts, o: string)
    requires Legal(s) && o in s.w.book && (l.Advance? ==> !s.local.Consuming?) && !Turnover(l)
    ensures var s' := Step(s, l, amountOf);
            && o in s'.w.book
            && (o in s'.published && l != BeginPublish(o) ==> o in s.published && s'.w.book[o] == s.w.book[o])
  {
    hide Take, Log, Cursor;
  }

  lemma CourseOfOther(s: System, l: Label, amountOf: Amounts, o: string)
    requires Legal(s) && o in s.w.book && (l.Advance? ==> !s.local.Consuming?) && !Turnover(l)
    requires o in s.published ==> OnCourse(s.w, o, Extra(s, o), amountOf)
    ensures var s' := Step(s, l, amountOf);
            o in s'.w.book && (o in s'.published ==> OnCourse(s'.w, o, Extra(s', o), amountOf))
  {
    OwedStep(s, l, amountOf, o);
    OtherKeepsBook(s, l, amountOf, o);
    hide Tokens, Extra, Step, Final;
  }

  lemma CourseOfTake(s: System, amountOf: Amounts, o: string)
    requires Legal(s) && AllAgree(s, amountOf) && s.local.Consuming? && o in s.published
    requires OnCourse(s.w, o, Extra(s, o), amountOf)
    ensures var s' := Step(s, Advance, amountOf); OnCourse(s'.w, o, Extra(s', o), amountOf)
  {
    TakeStaysOnCourse(s.w, s.local.stage, o, Extra(s, o), amountOf);
    hide Tokens, OnCourse;
  }

  lemma CreatedStays(log: seq<Event>, e: Event, o: string)
    ensures HasCreated(log + [e], o) <==> HasCreated(log, o) || (e.OrderCreated? && e.orderId == o)
  {
    if HasCreated(log, o) {
      var i :| 0 <= i < |log| && log[i].OrderCreated? && log[i].orderId == o;
      assert (log + [e])[i] == log[i];
    }
    if e.OrderCreated? && e.orderId == o {
      assert (log + [e])[|log|] == e;
    }
  }

  lemma PublishAnnounces(w: World, k: Stage, e: Event, o: string)
    ensures HasCreated(Publish(w, k, e).orders, o)
            <==> HasCreated(w.orders, o) || (k.Orders? && e.OrderCreated? && e.orderId == o)
  {
    CreatedStays(w.orders, e, o);
    hide HasCreated;
  }

  lemma EndPublishAnnounces(s: System, i: nat, amountOf: Amounts, o: string)
    requires Legal(s) && i < |s.inFlight| && Announced(s, o)
    ensures Announced(Step(s, EndPublish(i), amountOf), o)
  {
    PublishAnnounces(s.w, Orders, OrderCreated(s.inFlight[i], amountOf(s.inFlight[i])), o);
    if o in s.inFlight && s.inFlight[i] != o {
      assert o in s.inFlight[..i] + s.inFlight[i + 1..] by {
        RemoveAt(s.inFlight, i, o);
      }
    }
    hide HasCreated, Publish;
  }

  lemma AdvanceAnnounces(s: System, amountOf: Amounts, o: string)
    requires Legal(s) && Announced(s, o)
    ensures Announced(Step(s, Advance, amountOf), o)
  {
    if s.local.Announcing? || s.local.Sending? {
      PublishAnnounces(s.w, s.local.send.to, s.local.send.event, o);
      hide HasCreated, Publish;
    } else if s.local.Consuming? {
      assert Take(s.w, s.local.stage).0.orders == s.w.orders;
      hide HasCreated, Take;
    }
  }

  lemma StaysAnnounced(s: System, l: Label, amountOf: Amounts, o: string)
    requires Legal(s) && Announced(s, o) && !l.Crash? && !l.End?
    ensures Announced(Step(s, l, amountOf), o)
  {
    match l
    case EndPublish(i) =>
      if i < |s.inFlight| {
        EndPublishAnnounces(s, i, amountOf, o);
        hide Step, Announced;
      }
    case Inject(p) => PublishAnnounces(s.w, Orders, OrderCreated(p, amountOf(p)), o); hide HasCreated;
    case Noise(k) => PublishAnnounces(s.w, k, Unknown, o); hide HasCreated;
    case Advance => AdvanceAnnounces(s, amountOf, o); hide Step, Announced;
    case _ => hide HasCreated;
  }

  /** Read from the beginning, an announced order has an event on the way. */
  lemma {:induction false} CreatedIsToken(log: seq<Event>, o: string)
    requires HasCreated(log, o)
    ensures TokensFrom(log, Orders, 0, o) > 0
  {
    var n := |log| - 1;
    if log[n].OrderCreated? && log[n].orderId == o {
    } else {
      var i :| 0 <= i < |log| && log[i].OrderCreated? && log[i].orderId == o;
      assert log[..n][i] == log[i];
      CreatedIsToken(log[..n], o);
    }
  }

  /** A new run puts every announced order back on course. */
  lemma CourseOfRun(s: System, q: string, amountOf: Amounts, o: string)
    requires Legal(s) && Ended(s.local) && (o == q || (o in s.w.book && Announced(s, o)))
    ensures OnItsWay(Step(s, Run(q), amountOf), o, amountOf)
  {
    var s' := Step(s, Run(q), amountOf);
    if o != q {
      assert !s.local.Announcing?;
      if HasCreated(s.w.orders, o) {
        CreatedIsToken(s.w.orders, o);
      }
    }
    hide TokensFrom, HasCreated;
  }

  lemma CourseOfEnd(s: System, l: Label, amountOf: Amounts, o: string)
    requires Legal(s) && l.End? && o in Step(s, l, amountOf).published && OnItsWay(s, o, amountOf)
    requires AnnouncesMine(s)
    ensures OnItsWay(Step(s, l, amountOf), o, amountOf)
  {
    hide HasCreated, OnCourse;
  }

  /** The order being announced is the runner's own. */
  ghost predicate AnnouncesMine(s: System) {
    s.local.Announcing? ==> Announces(s.local.send, s.mine)
  }

  lemma AnnounceStepMine(s: System, l: Label, amountOf: Amounts)
    requires Legal(s) && AnnouncesMine(s)
    ensures AnnouncesMine(Step(s, l, amountOf))
  {
    hide Take, Deliver, Log, Cursor;
  }

  lemma GoesOn(s: System, l: Label, amountOf: Amounts, o: string)
    requires Legal(s) && AllAgree(s, amountOf) && !Turnover(l) && l != BeginPublish(o)
    requires o in s.published && OnItsWay(s, o, amountOf)
    ensures o in Step(s, l, amountOf).published ==> OnItsWay(Step(s, l, amountOf), o, amountOf)
  {
    var s' := Step(s, l, amountOf);
    if o in s'.published {
      StaysAnnounced(s, l, amountOf, o);
      SameSide(s, l, amountOf, o);
      hide Announced, OnCourse, Extra, Step, AllAgree, Legal;
      if !s.local.Down? {
        if l.Advance? && s.local.Consuming? {
          CourseOfTake(s, amountOf, o);
        } else {
          CourseOfOther(s, l, amountOf, o);
        }
      }
    }
  }

  /** Without a turnover a run is going on exactly when one was, and no order leaves the book. */
  lemma SameSide(s: System, l: Label, amountOf: Amounts, o: string)
    requires Legal(s) && !Turnover(l)
    ensures var s' := Step(s, l, amountOf);
            (s'.local.Down? <==> s.local.Down?) && (o in s.w.book ==> o in s'.w.book)
  {
    hide Log, Cursor;
  }

  lemma BeginPublishes(s: System, amountOf: Amounts, o: string)
    requires Legal(s) && o in Step(s, BeginPublish(o), amountOf).published
    requires o in s.published ==> OnItsWay(s, o, amountOf)
    ensures OnItsWay(Step(s, BeginPublish(o), amountOf), o, amountOf)
  {
    if o in s.w.book {
      BeginOwes(s, o, amountOf, o);
      var s' := Step(s, BeginPublish(o), amountOf);
      assert o in s'.inFlight && o in s'.w.book;
      hide Tokens, HasCreated;
    }
  }

  lemma CourseStep(s: System, l: Label, amountOf: Amounts)
    requires Legal(s) && AllAgree(s, amountOf) && AllOnCourse(s, amountOf) && AnnouncesMine(s)
    ensures AllOnCourse(Step(s, l, amountOf), amountOf)
  {
    var s' := Step(s, l, amountOf);
    forall o | o in s'.published ensures OnItsWay(s', o, amountOf) {
      OneCourseStep(s, l, amountOf, o);
    }
    hide Step, OnItsWay, AllAgree;
  }

  lemma OneCourseStep(s: System, l: Label, amountOf: Amounts, o: string)
    requires Legal(s) && AllAgree(s, amountOf) && AnnouncesMine(s) && o in Step(s, l, amountOf).published
    requires o in s.published ==> OnItsWay(s, o, amountOf)
    ensures OnItsWay(Step(s, l, amountOf), o, amountOf)
  {
    WasPublished(s, l, amountOf, o);
    if l == BeginPublish(o) {
      BeginPublishes(s, amountOf, o);
      hide Step, OnItsWay;
    } else if l.Run? {
      if Ended(s.local) {
        assert o in s.published ==> o in s.w.book && Announced(s, o);
        CourseOfRun(s, l.orderId, amountOf, o);
      }
      hide OnCourse, Announced, RunStep;
    } else if l.End? {
      CourseOfEnd(s, l, amountOf, o);
      hide Step, OnItsWay;
    } else {
      GoesOn(s, l, amountOf, o);
      hide Step, OnItsWay;
    }
  }

  lemma WasPublished(s: System, l: Label, amountOf: Amounts, o: string)
    requires Legal(s) && o in Step(s, l, amountOf).published
    ensures o in s.published || l == BeginPublish(o) || (l == Run(o) && Ended(s.local))
    ensures !l.Crash?
  {
    hide Take, Deliver, Log, Cursor;
  }

  lemma {:induction false} RunOnCourse(trace: seq<Label>, amountOf: Amounts)
    ensures var s := Exec(Initial(), trace, amountOf);
            AllAgree(s, amountOf) && AllOnCourse(s, amountOf) && AnnouncesMine(s)
  {
    hide Step;
    if trace == [] {
    } else {
      hide AllAgree, AllOnCourse, Legal, AnnouncesMine;
      RunOnCourse(trace[..|trace| - 1], amountOf);
      var s, l := Exec(Initial(), trace[..|trace| - 1], amountOf), trace[|trace| - 1];
      AgreeStep(s, l, amountOf);
      AnnounceStepMine(s, l, amountOf);
      CourseStep(s, l, amountOf);
    }
  }

  ghost predicate AtRest(s: System) {
    Quiescent(s.w) && (s.local.Reading? || s.local.Stopped?) && s.inFlight == []
  }

  /** A payment succeeds only for a positive amount and fails only for one that is not. */
  lemma PaymentsMatchAmounts(trace: seq<Label>, amountOf: Amounts, i: nat)
    requires i < |Exec(Initial(), trace, amountOf).w.payments|
    ensures var e := Exec(Initial(), trace, amountOf).w.payments[i];
            && (e.PaymentProcessed? ==> amountOf(e.orderId) > 0.0)
            && (e.PaymentFailed? ==> amountOf(e.orderId) <= 0.0)
  {
    RunOnCourse(trace, amountOf);
    hide Exec, AllOnCourse;
    assert Agrees(Exec(Initial(), trace, amountOf).w.payments[i], amountOf);
  }

  /**
   For any number of orders, duplicates and interleavings, and any succession of runs, some of them
   ended in the middle: when the cursors of a run are at the end, every published known order is
   completed if its amount is positive and cancelled otherwise.
   */
  lemma QuiescentIsFinal(trace: seq<Label>, amountOf: Amounts, o: string)
    requires AtRest(Exec(Initial(), trace, amountOf)) && o in Exec(Initial(), trace, amountOf).published
    ensures var s := Exec(Initial(), trace, amountOf); o in s.w.book && s.w.book[o] == Final(amountOf(o))
  {
    var s := Exec(Initial(), trace, amountOf);
    RunOnCourse(trace, amountOf);
    hide Exec;
    assert OnItsWay(s, o, amountOf);
    hide Announced;
    NothingUnread(s.w.orders, Orders, s.w.atOrders, o);
    NothingUnread(s.w.payments, Payments, s.w.atPayments, o);
    NothingUnread(s.w.shipping, Shipping, s.w.atShipping, o);
  }
}
