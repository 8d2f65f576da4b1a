/**
 Which event answers which. Every payment event, shipment and compensation on a stream is there
 because one event that calls for it was consumed: a compensation only for an order the order
 service knew at that moment. None is missing but those whose runner ended before sending it.
 */
module SagaReplies {
  import opened SagaModel
  import opened SagaProtocol

  /** An event that only a service publishes, in answer to another one. */
  predicate IsReply(effect: Event) {
    effect.PaymentProcessed? || effect.PaymentFailed? || effect.OrderShipped? || effect.OrderCancelled?
  }

  /** The stream an answer goes to. */
  function Home(effect: Event): Stage {
    if effect.OrderShipped? then Shipping else if effect.OrderCancelled? then Orders else Payments
  }

  /** The stream of the event it answers. */
  function Source(effect: Event): Stage {
    if effect.OrderShipped? || effect.OrderCancelled? then Payments else Orders
  }

  /** Consuming `e` calls for `effect`; `known` says whether the order is in the book. */
  predicate CallsFor(k: Stage, e: Event, known: bool, effect: Event) {
    match effect
    case PaymentProcessed(o) => k.Orders? && e.OrderCreated? && e.orderId == o && e.amount > 0.0
    case PaymentFailed(o) => k.Orders? && e.OrderCreated? && e.orderId == o && e.amount <= 0.0
    case OrderShipped(o) => k.Payments? && e == PaymentProcessed(o)
    case OrderCancelled(o) => k.Payments? && e == PaymentFailed(o) && known
    case _ => false
  }

  function Count(w: World, k: Stage, effect: Event): nat {
    multiset(Log(w, k))[effect]
  }

  function Sends(send: Send, k: Stage, effect: Event): nat {
    if send == Send(k, effect) then 1 else 0
  }

  function Known(w: World, effect: Event): bool
    requires IsReply(effect)
  {
    effect.orderId in w.book
  }

  lemma PublishCount(w: World, to: Stage, e: Event, k: Stage, effect: Event)
    ensures Count(Publish(w, to, e), k, effect) == Count(w, k, effect) + if to == k && e == effect then 1 else 0
  {
  }

  /** Taking an event sends what it calls for and nothing else. */
  lemma TakeReplies(w: World, k: Stage, to: Stage, effect: Event)
    requires Cursor(w, k) < |Log(w, k)| && IsReply(effect)
    ensures var (w', send) := Take(w, k); var e := Log(w, k)[Cursor(w, k)];
            && Sends(send, to, effect)
               == (if to == Home(effect) && CallsFor(k, e, Known(w, effect), effect) then 1 else 0)
            && Count(w', to, effect) == Count(w, to, effect)
            && w'.book.Keys == w.book.Keys
  {
    hide Count;
    assert Log(Take(w, k).0, to) == Log(w, to);
    CountOf(w, Take(w, k).0, to, effect);
  }

  lemma CountOf(w: World, w': World, k: Stage, effect: Event)
    requires Log(w', k) == Log(w, k)
    ensures Count(w', k, effect) == Count(w, k, effect)
  {
  }

  function Pending(s: System, k: Stage, effect: Event): nat {
    Sends(SentOf(s.local), k, effect)
  }

  /** The step consumes an event that calls for `effect`. */
  predicate Consumes(s: System, l: Label, effect: Event)
    requires Legal(s) && IsReply(effect)
  {
    && l.Advance? && s.local.Consuming?
    && CallsFor(s.local.stage, Log(s.w, s.local.stage)[Cursor(s.w, s.local.stage)], Known(s.w, effect), effect)
  }

  /** The step ends the runner while it is sending `effect`. */
  predicate Drops(s: System, l: Label, effect: Event) {
    (l.End? || l.Crash?) && SentOf(s.local) == Send(Home(effect), effect)
  }

  /** Events consumed so far that called for `effect`. */
  ghost function Called(trace: seq<Label>, amountOf: Amounts, effect: Event): nat
    requires IsReply(effect)
  {
    if trace == [] then 0
    else
      var front := trace[..|trace| - 1];
      Called(front, amountOf, effect)
      + if Consumes(Exec(Initial(), front, amountOf), trace[|trace| - 1], effect) then 1 else 0
  }

  /** Times the runner ended while sending `effect`. */
  ghost function Dropped(trace: seq<Label>, amountOf: Amounts, effect: Event): nat {
    if trace == [] then 0
    else
      var front := trace[..|trace| - 1];
      Dropped(front, amountOf, effect)
      + if Drops(Exec(Initial(), front, amountOf), trace[|trace| - 1], effect) then 1 else 0
  }

  lemma TakeStepReplies(s: System, amountOf: Amounts, k: Stage, effect: Event)
    requires Legal(s) && s.local.Consuming? && IsReply(effect)
    ensures var s' := Step(s, Advance, amountOf);
            Count(s'.w, k, effect) + Pending(s', k, effect)
            == Count(s.w, k, effect) + if k == Home(effect) && Consumes(s, Advance, effect) then 1 else 0
  {
    TakeReplies(s.w, s.local.stage, k, effect);
    hide Take, Count, CallsFor, Log, Cursor;
  }

  lemma SendStepReplies(s: System, amountOf: Amounts, k: Stage, effect: Event)
    requires Legal(s) && (s.local.Sending? || s.local.Announcing?) && IsReply(effect)
    ensures var s' := Step(s, Advance, amountOf);
            Count(s'.w, k, effect) + Pending(s', k, effect) == Count(s.w, k, effect) + Pending(s, k, effect)
  {
    PublishCount(s.w, s.local.send.to, s.local.send.event, k, effect);
    hide Count, Publish;
  }

  lemma OtherStepReplies(s: System, l: Label, amountOf: Amounts, k: Stage, effect: Event)
    requires Legal(s) && !l.Advance? && !l.End? && !l.Crash? && IsReply(effect)
    ensures var s' := Step(s, l, amountOf);
            Count(s'.w, k, effect) + Pending(s', k, effect) == Count(s.w, k, effect) + Pending(s, k, effect)
  {
    hide Count, Publish, CallsFor, Take, Deliver, Cursor;
    if l.EndPublish? && l.index < |s.inFlight| {
      PublishCount(s.w, Orders, OrderCreated(s.inFlight[l.index], amountOf(s.inFlight[l.index])), k, effect);
    } else if l.Inject? {
      PublishCount(s.w, Orders, OrderCreated(l.orderId, amountOf(l.orderId)), k, effect);
    } else if l.Noise? {
      PublishCount(s.w, l.stage, Unknown, k, effect);
    } else {
      CountOf(s.w, Step(s, l, amountOf).w, k, effect);
    }
  }

  lemma EndStepReplies(s: System, l: Label, amountOf: Amounts, k: Stage, effect: Event)
    requires Legal(s) && (l.End? || l.Crash?) && IsReply(effect) && k == Home(effect)
    ensures var s' := Step(s, l, amountOf);
            Count(s'.w, k, effect) + Pending(s', k, effect) + (if Drops(s, l, effect) then 1 else 0)
            == Count(s.w, k, effect) + Pending(s, k, effect)
  {
    CountOf(s.w, Step(s, l, amountOf).w, k, effect);
    hide Count;
  }

  lemma StepReplies(s: System, l: Label, amountOf: Amounts, effect: Event)
    requires Legal(s) && IsReply(effect)
    ensures var s', k := Step(s, l, amountOf), Home(effect);
            Count(s'.w, k, effect) + Pending(s', k, effect) + (if Drops(s, l, effect) then 1 else 0)
            == Count(s.w, k, effect) + Pending(s, k, effect) + if Consumes(s, l, effect) then 1 else 0
  {
    var k := Home(effect);
    if l.End? || l.Crash? {
      EndStepReplies(s, l, amountOf, k, effect);
    } else if !l.Advance? {
      OtherStepReplies(s, l, amountOf, k, effect);
    } else if s.local.Consuming? {
      TakeStepReplies(s, amountOf, k, effect);
    } else if s.local.Sending? || s.local.Announcing? {
      SendStepReplies(s, amountOf, k, effect);
    } else {
      CountOf(s.w, Step(s, l, amountOf).w, k, effect);
    }
    hide Step, Count, CallsFor, Legal;
  }

  /**
   Over any succession of runs: the copies of an answer on its stream, in hand or dropped by a runner
   that ended are as many as the events consumed that called for it.
   */
  lemma {:induction false} RepliesMatchCauses(trace: seq<Label>, amountOf: Amounts, effect: Event)
    requires IsReply(effect)
    ensures var s, k := Exec(Initial(), trace, amountOf), Home(effect);
            Count(s.w, k, effect) + Pending(s, k, effect) + Dropped(trace, amountOf, effect)
            == Called(trace, amountOf, effect)
  {
    if trace == [] {
    } else {
      var front := trace[..|trace| - 1];
      RepliesMatchCauses(front, amountOf, effect);
      StepReplies(Exec(Initial(), front, amountOf), trace[|trace| - 1], amountOf, effect);
    }
    hide Step, Count, Pending, Consumes, Drops, Legal;
  }

  /** An answer is on its own stream and on no other. */
  lemma {:induction false} RepliesAreAtHome(trace: seq<Label>, amountOf: Amounts, k: Stage, effect: Event)
    requires IsReply(effect) && k != Home(effect)
    ensures var s := Exec(Initial(), trace, amountOf); Count(s.w, k, effect) + Pending(s, k, effect) == 0
  {
    hide Step, Count, Pending;
    if trace == [] {
      NothingYet(k, effect);
    } else {
      var front, l := trace[..|trace| - 1], trace[|trace| - 1];
      RepliesAreAtHome(front, amountOf, k, effect);
      AwayStep(Exec(Initial(), front, amountOf), l, amountOf, k, effect);
    }
  }

  lemma NothingYet(k: Stage, effect: Event)
    ensures Count(Initial().w, k, effect) + Pending(Initial(), k, effect) == 0
  {
  }

  lemma AwayStep(s: System, l: Label, amountOf: Amounts, k: Stage, effect: Event)
    requires Legal(s) && IsReply(effect) && k != Home(effect)
    ensures var s' := Step(s, l, amountOf);
            Count(s'.w, k, effect) + Pending(s', k, effect) <= Count(s.w, k, effect) + Pending(s, k, effect)
  {
    hide Count, CallsFor, Take, Deliver;
    if l.End? || l.Crash? || (l.Advance? && (s.local.Reading? || Ended(s.local))) {
      CountOf(s.w, Step(s, l, amountOf).w, k, effect);
    } else if !l.Advance? {
      OtherStepReplies(s, l, amountOf, k, effect);
      hide Step;
    } else if s.local.Consuming? {
      TakeStepReplies(s, amountOf, k, effect);
      hide Step;
    } else {
      SendStepReplies(s, amountOf, k, effect);
      hide Step;
    }
  }

  /** Events among the first `n` of a stream that call for `effect`, its order being known. */
  function Causes(log: seq<Event>, n: nat, effect: Event): nat
    requires n <= |log|
  {
    if n == 0 then 0
    else Causes(log, n - 1, effect) + if CallsFor(Source(effect), log[n - 1], true, effect) then 1 else 0
  }

  /** Consumed events that call for `effect`. */
  function Caused(w: World, effect: Event): nat
    requires WithinLogs(w)
  {
    Causes(Log(w, Source(effect)), Cursor(w, Source(effect)), effect)
  }

  /**
   Between `start` and `w` each answer was appended once for every event consumed that calls for it.
   A compensation needs a known order: all of them were appended for an order known at `start`, none
   for one still unknown at `w`.
   */
  ghost predicate Replied(start: World, w: World, effect: Event)
    requires WithinLogs(start) && WithinLogs(w) && IsReply(effect)
  {
    var gained := Count(w, Home(effect), effect) - Count(start, Home(effect), effect);
    var due := Caused(w, effect) - Caused(start, effect);
    && 0 <= gained <= due
    && (!effect.OrderCancelled? || Known(start, effect) ==> gained == due)
    && (effect.OrderCancelled? && !Known(w, effect) ==> gained == 0)
    && (Known(start, effect) ==> Known(w, effect))
    && forall k :: k != Home(effect) ==> Count(w, k, effect) == Count(start, k, effect)
  }

  lemma RepliedFurther(a: World, b: World, c: World, effect: Event)
    requires WithinLogs(a) && WithinLogs(b) && WithinLogs(c) && IsReply(effect)
    requires Replied(a, b, effect) && Replied(b, c, effect)
    ensures Replied(a, c, effect)
  {
    hide Count, Caused, WithinLogs;
  }

  lemma RepliedItself(w: World, effect: Event)
    requires WithinLogs(w) && IsReply(effect)
    ensures Replied(w, w, effect)
  {
  }

  lemma {:induction false} CausesKeep(log: seq<Event>, log': seq<Event>, n: nat, effect: Event)
    requires n <= |log| && log <= log'
    ensures Causes(log', n, effect) == Causes(log, n, effect)
  {
    if n == 0 {
    } else {
      CausesKeep(log, log', n - 1, effect);
    }
  }

  /** Consuming and answering publishes nothing but answers. */
  lemma TakeKeepsTheRest(w: World, k: Stage, to: Stage, e: Event)
    requires Cursor(w, k) < |Log(w, k)| && !IsReply(e)
    ensures var w' := Deliver(Take(w, k).0, Take(w, k).1); Count(w', to, e) == Count(w, to, e)
  {
    var (w1, send) := Take(w, k);
    OnlyReplies(w, k, to);
    hide Take, Count, Log, Cursor, IsReply;
    CountOf(w, w1, to, e);
    DeliverCount(w1, send, to, e);
  }

  lemma OnlyReplies(w: World, k: Stage, to: Stage)
    requires Cursor(w, k) < |Log(w, k)|
    ensures var (w', send) := Take(w, k); Log(w', to) == Log(w, to) && (send.Send? ==> IsReply(send.event))
  {
  }

  lemma UnreadCausesNothing(w: World, to: Stage, e: Event, effect: Event)
    requires WithinLogs(w)
    ensures WithinLogs(Publish(w, to, e)) && Caused(Publish(w, to, e), effect) == Caused(w, effect)
  {
    var w', from := Publish(w, to, e), Source(effect);
    assert Log(w, from) <= Log(w', from) && Cursor(w', from) == Cursor(w, from);
    CausesKeep(Log(w, from), Log(w', from), Cursor(w, from), effect);
    hide Causes;
  }

  lemma NothingGained(w: World, w': World, effect: Event)
    requires WithinLogs(w) && WithinLogs(w') && IsReply(effect) && w'.book == w.book
    requires Caused(w', effect) == Caused(w, effect)
    requires forall k :: Count(w', k, effect) == Count(w, k, effect)
    ensures Replied(w, w', effect)
  {
    hide Count, Caused, WithinLogs;
  }

  /** Others publish no answers, and what is unread causes nothing yet. */
  lemma PublishIsReplied(w: World, to: Stage, e: Event, effect: Event)
    requires WithinLogs(w) && IsReply(effect) && !IsReply(e)
    ensures WithinLogs(Publish(w, to, e)) && Replied(w, Publish(w, to, e), effect)
  {
    var w' := Publish(w, to, e);
    UnreadCausesNothing(w, to, e, effect);
    assert w'.book == w.book && e != effect;
    hide Count, Caused, Publish, WithinLogs, Replied, IsReply;
    forall k ensures Count(w', k, effect) == Count(w, k, effect) {
      PublishCount(w, to, e, k, effect);
    }
    NothingGained(w, w', effect);
  }

  lemma TakeMoves(w: World, k: Stage, from: Stage)
    requires WithinLogs(w) && Cursor(w, k) < |Log(w, k)|
    ensures var w' := Deliver(Take(w, k).0, Take(w, k).1);
            && WithinLogs(w') && Log(w, from) <= Log(w', from)
            && Cursor(w', from) == Cursor(w, from) + if k == from then 1 else 0
  {
  }

  /** Consuming one event and sending its answer. */
  lemma TakeCauses(w: World, k: Stage, effect: Event)
    requires WithinLogs(w) && Cursor(w, k) < |Log(w, k)| && IsReply(effect)
    ensures var w' := Deliver(Take(w, k).0, Take(w, k).1); var e := Log(w, k)[Cursor(w, k)];
            && WithinLogs(w')
            && Caused(w', effect) == Caused(w, effect) + if CallsFor(k, e, true, effect) then 1 else 0
  {
    var w', from := Deliver(Take(w, k).0, Take(w, k).1), Source(effect);
    TakeMoves(w, k, from);
    hide Take, Deliver;
    CausesKeep(Log(w, from), Log(w', from), Cursor(w, from), effect);
    hide Log, Cursor;
  }

  /** The counts after one event is consumed and its answer sent. */
  lemma TakeAdds(w: World, k: Stage, to: Stage, effect: Event)
    requires Cursor(w, k) < |Log(w, k)| && IsReply(effect)
    ensures var w' := Deliver(Take(w, k).0, Take(w, k).1); var e := Log(w, k)[Cursor(w, k)];
            && Count(w', to, effect)
               == Count(w, to, effect)
                  + (if to == Home(effect) && CallsFor(k, e, Known(w, effect), effect) then 1 else 0)
            && w'.book.Keys == w.book.Keys
  {
    var (w1, send) := Take(w, k);
    TakeReplies(w, k, to, effect);
    hide Take, Count, Publish, Log, Cursor, CallsFor, Known;
    DeliverCount(w1, send, to, effect);
  }

  lemma DeliverCount(w: World, send: Send, to: Stage, effect: Event)
    ensures var w' := Deliver(w, send);
            Count(w', to, effect) == Count(w, to, effect) + Sends(send, to, effect) && w'.book == w.book
  {
    if send.Send? {
      PublishCount(w, send.to, send.event, to, effect);
    }
    hide Count;
  }

  lemma CallsIfKnown(k: Stage, e: Event, effect: Event)
    ensures CallsFor(k, e, false, effect) ==> CallsFor(k, e, true, effect)
    ensures !effect.OrderCancelled? ==> (CallsFor(k, e, false, effect) <==> CallsFor(k, e, true, effect))
    ensures effect.OrderCancelled? ==> !CallsFor(k, e, false, effect)
  {
  }

  lemma TakeIsReplied(w: World, k: Stage, effect: Event)
    requires WithinLogs(w) && Cursor(w, k) < |Log(w, k)| && IsReply(effect)
    ensures var w' := Deliver(Take(w, k).0, Take(w, k).1); WithinLogs(w') && Replied(w, w', effect)
  {
    var w' := Deliver(Take(w, k).0, Take(w, k).1);
    TakeCauses(w, k, effect);
    CallsIfKnown(k, Log(w, k)[Cursor(w, k)], effect);
    forall to ensures to != Home(effect) ==> Count(w', to, effect) == Count(w, to, effect) {
      TakeAdds(w, k, to, effect);
    }
    TakeAdds(w, k, Home(effect), effect);
    assert Known(w', effect) <==> Known(w, effect);
    hide Take, Deliver, Count, Caused, Log, Cursor, WithinLogs, CallsFor;
  }
}
