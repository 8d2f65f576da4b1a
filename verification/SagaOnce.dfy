/**
 An order created once and published once: its status never leaves a terminal state.
 */
module SagaOnce {
  import opened SagaModel
  import opened SagaProtocol

  function Creates(trace: seq<Label>, o: string): nat {
    if trace == [] then 0
    else
      Creates(trace[..|trace| - 1], o)
      + if trace[|trace| - 1] == Create(o) || trace[|trace| - 1] == Run(o) then 1 else 0
  }

  predicate StartsOne(l: Label, o: string) {
    l == BeginPublish(o) || l == Inject(o) || l == Run(o)
  }

  /** How many OrderCreated events about `o` the labels set off. */
  function Starts(trace: seq<Label>, o: string): nat {
    if trace == [] then 0
    else Starts(trace[..|trace| - 1], o) + if StartsOne(trace[|trace| - 1], o) then 1 else 0
  }

  function Runs(trace: seq<Label>): nat {
    if trace == [] then 0
    else Runs(trace[..|trace| - 1]) + if trace[|trace| - 1].Run? then 1 else 0
  }

  function Decided(w: World, o: string): nat {
    if DecidedIn(w, o) then 1 else 0
  }

  lemma TakeDecides(w: World, k: Stage, o: string)
    requires Cursor(w, k) < |Log(w, k)|
    ensures var e := Log(w, k)[Cursor(w, k)]; var w' := Take(w, k).0;
            && (o in w'.book <==> o in w.book)
            && (!About(k, e, o) ==> o in w.book ==> w'.book[o] == w.book[o])
            && (Decided(w', o) > Decided(w, o) ==> About(k, e, o) && (e.PaymentFailed? || e.OrderShipped?))
  {
  }

  lemma AboutIsOwed(w: World, k: Stage, o: string)
    requires WithinLogs(w) && Cursor(w, k) < |Log(w, k)| && About(k, Log(w, k)[Cursor(w, k)], o)
    ensures Tokens(w, o) > 0
  {
    ReadCounts(Log(w, k), k, Cursor(w, k), o);
    hide TokensFrom, WeightFrom, Weight, About;
  }

  lemma TakeOwes(s: System, amountOf: Amounts, o: string)
    requires Legal(s) && s.local.Consuming?
    ensures var s' := Step(s, Advance, amountOf);
            && s'.w == Take(s.w, s.local.stage).0
            && Owed(s', o)
               == Tokens(Take(s.w, s.local.stage).0, o) + SendTokens(Take(s.w, s.local.stage).1, o)
                  + multiset(s.inFlight)[o]
            && Owed(s, o) == Tokens(s.w, o) + multiset(s.inFlight)[o]
  {
    hide Take, Tokens, Log, Cursor, Token;
  }

  lemma OtherDecides(s: System, l: Label, amountOf: Amounts, o: string)
    requires Legal(s) && (l.Advance? ==> !s.local.Consuming?)
    ensures var s' := Step(s, l, amountOf);
            && Decided(s'.w, o) <= Decided(s.w, o)
            && (l != Create(o) && l != Run(o) ==> (o in s'.w.book ==> o in s.w.book))
            && (o in s.w.book && !l.Crash? ==> o in s'.w.book)
            && (l != Create(o) && l != BeginPublish(o) && l != Run(o) && !l.Crash? && o in s.w.book ==>
                  s'.w.book[o] == s.w.book[o])
  {
    hide Take, Log, Cursor;
  }

  /** No run has read anything yet. */
  ghost predicate Fresh(s: System) {
    s.local.Down? && s.w.atOrders == 0 && s.w.atPayments == 0 && s.w.atShipping == 0
  }

  lemma FreshStep(s: System, l: Label, amountOf: Amounts)
    requires Legal(s) && Fresh(s) && !l.Run?
    ensures Fresh(Step(s, l, amountOf))
  {
  }

  lemma FirstRunOwes(s: System, q: string, amountOf: Amounts, o: string)
    requires Legal(s) && Fresh(s)
    ensures Owed(Step(s, Run(q), amountOf), o) == Owed(s, o) + if o == q then 1 else 0
  {
    hide TokensFrom;
  }

  lemma EndOwes(s: System, l: Label, amountOf: Amounts, o: string)
    requires Legal(s) && (l.End? || l.Crash?)
    ensures Owed(Step(s, l, amountOf), o) <= Owed(s, o)
  {
    hide TokensFrom;
  }

  lemma OwesAtMost(s: System, l: Label, amountOf: Amounts, o: string)
    requires Legal(s) && (l.Advance? ==> !s.local.Consuming?) && (l.Run? ==> Fresh(s))
    ensures Owed(Step(s, l, amountOf), o) <= Owed(s, o) + if StartsOne(l, o) then 1 else 0
  {
    if l.Run? {
      FirstRunOwes(s, l.orderId, amountOf, o);
    } else if l.End? || l.Crash? {
      EndOwes(s, l, amountOf, o);
    } else {
      OwedStep(s, l, amountOf, o);
    }
    hide Step, Owed, Legal, Fresh;
  }

  lemma DecideStep(s: System, l: Label, amountOf: Amounts, o: string)
    requires Legal(s) && (l.Run? ==> Fresh(s))
    ensures var s' := Step(s, l, amountOf);
            && Owed(s', o) + Decided(s'.w, o) <= Owed(s, o) + Decided(s.w, o) + (if StartsOne(l, o) then 1 else 0)
            && (o in s'.w.book ==> o in s.w.book || l == Create(o) || l == Run(o))
  {
    if l.Advance? && s.local.Consuming? {
      TakeOwes(s, amountOf, o);
      TakeCounts(s.w, s.local.stage, o);
      TakeDecides(s.w, s.local.stage, o);
      hide Step, Take, Tokens, Owed, UnreadWeight, SendTokens, SendWeight;
    } else {
      OwesAtMost(s, l, amountOf, o);
      OtherDecides(s, l, amountOf, o);
      hide Step, Owed, Decided, Legal, Fresh;
    }
  }

  /** Up to the end of the first run: what is owed to an order or decided was started for it. */
  lemma {:induction false} RunDecides(trace: seq<Label>, amountOf: Amounts, o: string)
    requires Runs(trace) <= 1
    ensures var s := Exec(Initial(), trace, amountOf);
            && Owed(s, o) + Decided(s.w, o) <= Starts(trace, o)
            && (o in s.w.book ==> Creates(trace, o) >= 1)
            && (Runs(trace) == 0 ==> Fresh(s))
  {
    hide Step;
    if trace == [] {
    } else {
      hide Owed, Decided, Fresh;
      var t, l := trace[..|trace| - 1], trace[|trace| - 1];
      RunDecides(t, amountOf, o);
      DecideStep(Exec(Initial(), t, amountOf), l, amountOf, o);
      if Runs(trace) == 0 {
        FreshStep(Exec(Initial(), t, amountOf), l, amountOf);
      }
    }
  }

  lemma KeepsStatus(s: System, l: Label, amountOf: Amounts, o: string)
    requires Legal(s) && o in s.w.book && Owed(s, o) == 0
    requires l != Create(o) && l != BeginPublish(o) && l != Run(o) && !l.Crash?
    ensures var s' := Step(s, l, amountOf); o in s'.w.book && s'.w.book[o] == s.w.book[o]
  {
    if l.Advance? && s.local.Consuming? {
      TakeOwes(s, amountOf, o);
      TakeDecides(s.w, s.local.stage, o);
      if About(s.local.stage, Log(s.w, s.local.stage)[Cursor(s.w, s.local.stage)], o) {
        AboutIsOwed(s.w, s.local.stage, o);
      }
      hide Step, Take, Tokens, Owed, About;
    } else {
      OtherDecides(s, l, amountOf, o);
      hide Step, Owed, Decided, Legal;
    }
  }

  lemma {:induction false} CountsGrow(t: seq<Label>, t': seq<Label>, o: string)
    ensures Creates(t + t', o) >= Creates(t, o) && Starts(t + t', o) >= Starts(t, o) && Runs(t + t') >= Runs(t)
    ensures Creates(t + t', o) == Creates(t, o) ==> Create(o) !in t' && Run(o) !in t'
    ensures Starts(t + t', o) == Starts(t, o) ==> BeginPublish(o) !in t' && Inject(o) !in t'
    ensures Runs(t + t') == Runs(t) ==> forall l :: l in t' ==> !l.Run?
    decreases |t'|
  {
    if t' == [] {
      assert t + t' == t;
    } else {
      var p := t'[..|t'| - 1];
      assert (t + t')[..|t + t'| - 1] == t + p;
      CountsGrow(t, p, o);
      assert t' == p + [t'[|t'| - 1]];
    }
  }

  /**
   Within one run, whatever else happens and even if the run is ended, an order created and published
   at most once keeps the terminal status it reached.
   */
  lemma {:induction false} TerminalIsKept(t: seq<Label>, t': seq<Label>, amountOf: Amounts, o: string)
    requires Creates(t + t', o) <= 1 && Starts(t + t', o) <= 1 && Runs(t + t') <= 1 && Crash !in t'
    requires var w := Exec(Initial(), t, amountOf).w; o in w.book && Terminal(w.book[o])
    ensures var w := Exec(Initial(), t + t', amountOf).w;
            o in w.book && w.book[o] == Exec(Initial(), t, amountOf).w.book[o]
    decreases |t'|
  {
    hide Step;
    if t' == [] {
      assert t + t' == t;
    } else {
      var p, l := t'[..|t'| - 1], t'[|t'| - 1];
      assert (t + t')[..|t + t'| - 1] == t + p && (t + t')[|t + t'| - 1] == l;
      assert Creates(t + p, o) <= Creates(t + t', o) && Starts(t + p, o) <= Starts(t + t', o);
      assert Runs(t + p) <= Runs(t + t') && Crash !in p;
      assert Exec(Initial(), t + t', amountOf) == Step(Exec(Initial(), t + p, amountOf), l, amountOf);
      hide Exec;
      TerminalIsKept(t, p, amountOf, o);
      CountsGrow(t, t', o);
      RunDecides(t, amountOf, o);
      RunDecides(t + p, amountOf, o);
      assert Exec(Initial(), t, amountOf).w.book[o] == Exec(Initial(), t + p, amountOf).w.book[o];
      assert l in t';
      hide Owed;
      KeepsStatus(Exec(Initial(), t + p, amountOf), l, amountOf, o);
    }
  }

  lemma CancelledTake(w: World, k: Stage, amountOf: Amounts, o: string)
    requires Safe(w, amountOf) && Cursor(w, k) < |Log(w, k)|
    requires amountOf(o) <= 0.0 && o in w.book && w.book[o] == Cancelled
    ensures var w' := Take(w, k).0; o in w'.book && w'.book[o] == Cancelled
  {
    assert Agrees(Log(w, k)[Cursor(w, k)], amountOf);
  }

  lemma CancelledStep(s: System, l: Label, amountOf: Amounts, o: string)
    requires Legal(s) && AllAgree(s, amountOf) && l != Create(o) && l != BeginPublish(o) && l != Run(o) && !l.Crash?
    requires amountOf(o) <= 0.0 && o in s.w.book && s.w.book[o] == Cancelled
    ensures var w := Step(s, l, amountOf).w; o in w.book && w.book[o] == Cancelled
  {
    if l.Advance? && s.local.Consuming? {
      TakeOwes(s, amountOf, o);
      CancelledTake(s.w, s.local.stage, amountOf, o);
      hide Step, Take, Owed, AllAgree;
    } else {
      OtherDecides(s, l, amountOf, o);
      hide Step, AllAgree, Legal;
    }
  }

  /**
   An order without a positive amount stays cancelled however often its OrderCreated is delivered again
   and however many runs for other orders read its old events.
   */
  lemma {:induction false} CancelledIsKept(t: seq<Label>, t': seq<Label>, amountOf: Amounts, o: string)
    requires amountOf(o) <= 0.0 && Create(o) !in t' && BeginPublish(o) !in t' && Run(o) !in t' && Crash !in t'
    requires var w := Exec(Initial(), t, amountOf).w; o in w.book && w.book[o] == Cancelled
    ensures var w := Exec(Initial(), t + t', amountOf).w; o in w.book && w.book[o] == Cancelled
    decreases |t'|
  {
    if t' == [] {
      assert t + t' == t;
    } else {
      var p, l := t'[..|t'| - 1], t'[|t'| - 1];
      assert (t + t')[..|t + t'| - 1] == t + p && (t + t')[|t + t'| - 1] == l && l in t';
      CancelledIsKept(t, p, amountOf, o);
      RunOnCourse(t + p, amountOf);
      hide Step, AllAgree, AllOnCourse;
      assert Exec(Initial(), t + t', amountOf) == Step(Exec(Initial(), t + p, amountOf), l, amountOf);
      hide Exec;
      CancelledStep(Exec(Initial(), t + p, amountOf), l, amountOf, o);
    }
  }

  lemma ExecNext(s: System, t: seq<Label>, l: Label, amountOf: Amounts)
    requires Legal(s)
    ensures Exec(s, t + [l], amountOf) == Step(Exec(s, t, amountOf), l, amountOf)
  {
    assert (t + [l])[..|t|] == t;
    hide Step;
  }

  /** The first three awaits after a second publish: the event is read, judged and passed on. */
  lemma SecondPayment(s: System, amountOf: Amounts, o: string)
    requires Legal(s) && Quiescent(s.w) && s.local == Reading(Orders) && amountOf(o) > 0.0
    ensures var s1 := Step(s, Inject(o), amountOf);
            var s2 := Step(s1, Advance, amountOf);
            var s3 := Step(s2, Advance, amountOf);
            Step(s3, Advance, amountOf) == s.(
              w := s.w.(orders := s.w.orders + [OrderCreated(o, amountOf(o))], atOrders := s.w.atOrders + 1,
                        payments := s.w.payments + [PaymentProcessed(o)]),
              local := Reading(Payments))
  {
    var s1 := Step(s, Inject(o), amountOf);
    assert Step(s1, Advance, amountOf) == s1.(local := Consuming(Orders, |s1.w.orders|));
  }

  lemma SecondPaid(s: System, amountOf: Amounts, o: string)
    requires Legal(s) && s.local == Reading(Payments) && o in s.w.book
    requires s.w.atPayments + 1 == |s.w.payments| && s.w.payments[s.w.atPayments] == PaymentProcessed(o)
    ensures var s' := Step(Step(s, Advance, amountOf), Advance, amountOf); o in s'.w.book && s'.w.book[o] == Paid
  {
    assert Step(s, Advance, amountOf) == s.(local := Consuming(Payments, |s.w.payments|));
  }

  /**
   Single delivery is needed: whenever the runner rests on a completed order, publishing that order
   once more takes it out of its terminal state.
   */
  lemma SecondPublishReopens(s: System, amountOf: Amounts, o: string)
    requires Legal(s) && Quiescent(s.w) && s.local == Reading(Orders)
    requires amountOf(o) > 0.0 && o in s.w.book && s.w.book[o] == Completed
    ensures var w := Exec(s, [Inject(o), Advance, Advance, Advance, Advance, Advance], amountOf).w;
            o in w.book && !Terminal(w.book[o])
  {
    var t: seq<Label> := [];
    assert Exec(s, t, amountOf) == s;
    ExecNext(s, t, Inject(o), amountOf);
    var t1 := t + [Inject(o)];
    ExecNext(s, t1, Advance, amountOf);
    var t2 := t1 + [Advance];
    ExecNext(s, t2, Advance, amountOf);
    var t3 := t2 + [Advance];
    ExecNext(s, t3, Advance, amountOf);
    var t4 := t3 + [Advance];
    ExecNext(s, t4, Advance, amountOf);
    var t5 := t4 + [Advance];
    ExecNext(s, t5, Advance, amountOf);
    assert t5 + [Advance] == [Inject(o), Advance, Advance, Advance, Advance, Advance];
    SecondPayment(s, amountOf, o);
    var s4 := Exec(s, t4, amountOf);
    hide Exec, Step;
    SecondPaid(s4, amountOf, o);
  }
}
