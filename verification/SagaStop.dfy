/**
 What a run leaves behind when it stops. It stops with its own order at the right status; another
 order is decided exactly when nothing about it is left unread, and one that is not decided then
 stays so until another run starts and reads the streams from the beginning again.
 */
module SagaStop {
  import opened SagaModel
  import opened SagaProtocol
  import opened SagaProgress
  import opened SagaOnce
  import SagaRunner
  import SagaRefinement

  ghost predicate RightFor(w: World, o: string, amountOf: Amounts) {
    DecidedIn(w, o) ==> w.book[o] == Final(amountOf(o))
  }

  ghost predicate AllRight(s: System, amountOf: Amounts) {
    forall o: string :: RightFor(s.w, o, amountOf)
  }

  lemma RightStep(s: System, l: Label, amountOf: Amounts, o: string)
    requires Legal(s) && AllAgree(s, amountOf) && RightFor(s.w, o, amountOf)
    ensures RightFor(Step(s, l, amountOf).w, o, amountOf)
  {
    if l.Advance? && s.local.Consuming? {
      if o in s.w.book {
        TakeSetsFinal(s.w, s.local.stage, o, amountOf);
      }
      TakeDecides(s.w, s.local.stage, o);
      TakeOwes(s, amountOf, o);
      hide Step, Take, Owed, AllAgree, Log, Cursor, About;
    } else {
      OtherDecides(s, l, amountOf, o);
      OtherKeeps(s, l, amountOf, o);
      hide Step, Legal, AllAgree;
    }
  }

  lemma OtherKeeps(s: System, l: Label, amountOf: Amounts, o: string)
    requires Legal(s) && (l.Advance? ==> !s.local.Consuming?)
    ensures var w := Step(s, l, amountOf).w; DecidedIn(w, o) ==> o in s.w.book && w.book[o] == s.w.book[o]
  {
    hide Take, Log, Cursor;
  }

  /** In every run a terminal status is the one the amount calls for. */
  lemma {:induction false} RunIsRight(trace: seq<Label>, amountOf: Amounts)
    ensures AllRight(Exec(Initial(), trace, amountOf), amountOf)
  {
    if trace == [] {
    } else {
      var t, l := trace[..|trace| - 1], trace[|trace| - 1];
      RunIsRight(t, amountOf);
      RunOnCourse(t, amountOf);
      var s := Exec(Initial(), t, amountOf);
      assert Exec(Initial(), trace, amountOf) == Step(s, l, amountOf);
      hide Exec, Step, RightFor, AllAgree, AllOnCourse;
      forall o: string ensures RightFor(Step(s, l, amountOf).w, o, amountOf) {
        assert RightFor(s.w, o, amountOf);
        RightStep(s, l, amountOf, o);
      }
    }
  }

  lemma StopsDecided(s: System, amountOf: Amounts)
    requires Legal(s) && !Ended(s.local)
    ensures var s' := Step(s, Advance, amountOf);
            !s'.local.Down? && s'.mine == s.mine && (s'.local.Stopped? ==> DecidedIn(s'.w, s.mine))
  {
    hide Take, Deliver, DecidedIn, Log, Cursor;
  }

  /** Left alone, a run ends only by stopping on its decided order. */
  lemma {:induction false} QuietStop(s: System, amountOf: Amounts, n: nat)
    requires Legal(s) && !Ended(s.local)
    ensures var s' := Exec(s, Advances(n), amountOf);
            !s'.local.Down? && s'.mine == s.mine && (s'.local.Stopped? ==> DecidedIn(s'.w, s.mine))
  {
    if n == 0 {
      assert Advances(0) == [];
    } else {
      assert Advances(n)[..n - 1] == Advances(n - 1);
      QuietStop(s, amountOf, n - 1);
      var before := Exec(s, Advances(n - 1), amountOf);
      assert before.local.Stopped? ==> Step(before, Advance, amountOf) == before;
      hide Step, DecidedIn;
      if !before.local.Stopped? {
        StopsDecided(before, amountOf);
      }
    }
  }

  /**
   After any succession of runs, one that is going on and is left alone long enough stops with its own
   order at its final status, or has nothing left to read.
   */
  lemma StopsFinalOrRests(trace: seq<Label>, amountOf: Amounts, n: nat)
    requires var s := Exec(Initial(), trace, amountOf); !Ended(s.local) && n >= 6 * TotalWeight(s) + 6
    ensures var s := Exec(Initial(), trace + Advances(n), amountOf);
            && s.mine == Exec(Initial(), trace, amountOf).mine
            && if s.local.Stopped? then s.mine in s.w.book && s.w.book[s.mine] == Final(amountOf(s.mine))
               else Resting(s)
  {
    var s := Exec(Initial(), trace, amountOf);
    StopsOrRests(s, amountOf, n);
    QuietStop(s, amountOf, n);
    ExecAppend(Initial(), trace, Advances(n), amountOf);
    RunIsRight(trace + Advances(n), amountOf);
    assert RightFor(Exec(Initial(), trace + Advances(n), amountOf).w, s.mine, amountOf);
    hide Exec, TotalWeight, Resting, AllRight;
  }

  /** A run whose order has been published stops, with that order at its final status. */
  lemma OwnOrderIsDecided(trace: seq<Label>, amountOf: Amounts, n: nat)
    requires var s := Exec(Initial(), trace, amountOf);
             !Ended(s.local) && s.inFlight == [] && s.mine in s.published && n >= 6 * TotalWeight(s) + 6
    ensures var s := Exec(Initial(), trace + Advances(n), amountOf);
            && s.mine == Exec(Initial(), trace, amountOf).mine
            && s.local.Stopped? && s.mine in s.w.book && s.w.book[s.mine] == Final(amountOf(s.mine))
  {
    QuietStart(trace, amountOf, n);
    StopsFinalOrRests(trace, amountOf, n);
    hide Exec, TotalWeight;
    var s := Exec(Initial(), trace + Advances(n), amountOf);
    if !s.local.Stopped? {
      QuiescentIsFinal(trace + Advances(n), amountOf, s.mine);
    }
  }

  lemma QuietStart(trace: seq<Label>, amountOf: Amounts, n: nat)
    ensures var s := Exec(Initial(), trace, amountOf);
            var s' := Exec(Initial(), trace + Advances(n), amountOf);
            s'.inFlight == s.inFlight && s'.published == s.published
  {
    ConsumesAtMostTheWeight(Exec(Initial(), trace, amountOf), amountOf, n);
    ExecAppend(Initial(), trace, Advances(n), amountOf);
    hide Exec, TotalWeight, Consumed;
  }

  /**
   Every published order then has its final status, unless the run stopped with an event about it
   unread.
   */
  lemma EveryOrderIsDecidedOrOwed(trace: seq<Label>, amountOf: Amounts, n: nat, p: string)
    requires var s := Exec(Initial(), trace, amountOf);
             !Ended(s.local) && s.inFlight == [] && p in s.published && n >= 6 * TotalWeight(s) + 6
    ensures var s := Exec(Initial(), trace + Advances(n), amountOf);
            && p in s.w.book
            && (s.w.book[p] == Final(amountOf(p)) || (s.local.Stopped? && Tokens(s.w, p) > 0))
  {
    QuietStart(trace, amountOf, n);
    StopsFinalOrRests(trace, amountOf, n);
    RunOnCourse(trace + Advances(n), amountOf);
    var s := Exec(Initial(), trace + Advances(n), amountOf);
    hide Exec, TotalWeight, Announced;
    assert OnItsWay(s, p, amountOf);
    if !s.local.Stopped? {
      QuiescentIsFinal(trace + Advances(n), amountOf, p);
    }
  }

  lemma RunKeepsPublished(s: System, q: string, amountOf: Amounts)
    requires Legal(s) && Ended(s.local)
    ensures var s' := Step(s, Run(q), amountOf);
            && !Ended(s'.local) && s'.mine == q && s'.inFlight == s.inFlight
            && s'.published == s.published + {q}
  {
  }

  /**
   However a run ended, in the middle of an event included, what the next one does: left alone it
   stops with its own order decided, and every order published before is decided too unless an event
   about it is left unread again.
   */
  lemma NextRunDecidesOrOwes(trace: seq<Label>, q: string, amountOf: Amounts, n: nat, p: string)
    requires var s := Exec(Initial(), trace, amountOf);
             && Ended(s.local) && s.inFlight == [] && p in s.published
             && n >= 6 * TotalWeight(Step(s, Run(q), amountOf)) + 6
    ensures var s := Exec(Initial(), trace + [Run(q)] + Advances(n), amountOf);
            && s.local.Stopped? && q in s.w.book && s.w.book[q] == Final(amountOf(q))
            && p in s.w.book && (s.w.book[p] == Final(amountOf(p)) || Tokens(s.w, p) > 0)
  {
    var s := Exec(Initial(), trace, amountOf);
    ExecNext(Initial(), trace, Run(q), amountOf);
    RunKeepsPublished(s, q, amountOf);
    hide Exec, Step, TotalWeight, Tokens;
    OwnOrderIsDecided(trace + [Run(q)], amountOf, n);
    EveryOrderIsDecidedOrOwed(trace + [Run(q)], amountOf, n, p);
  }

  lemma EndedStep(s: System, l: Label, amountOf: Amounts, p: string)
    requires Legal(s) && Ended(s.local) && !DecidedIn(s.w, p) && !l.Run?
    ensures var s' := Step(s, l, amountOf); Ended(s'.local) && !DecidedIn(s'.w, p)
  {
  }

  /** Until another run starts, whatever others do, an order not decided when a run ends stays undecided. */
  lemma {:induction false} StrandedUntilNextRun(s: System, later: seq<Label>, amountOf: Amounts, p: string)
    requires Legal(s) && Ended(s.local) && !DecidedIn(s.w, p) && forall l :: l in later ==> !l.Run?
    ensures var s' := Exec(s, later, amountOf); Ended(s'.local) && !DecidedIn(s'.w, p)
  {
    hide Step, Legal, DecidedIn, Ended;
    if later == [] {
    } else {
      var front := later[..|later| - 1];
      assert forall l :: l in front ==> l in later;
      StrandedUntilNextRun(s, front, amountOf, p);
      EndedStep(Exec(s, front, amountOf), later[|later| - 1], amountOf, p);
    }
  }

  lemma RunNeedsLabel(trace: seq<Label>, amountOf: Amounts)
    ensures Exec(Initial(), trace, amountOf).local.Down? || Runs(trace) >= 1
  {
    if Runs(trace) == 0 {
      RunDecides(trace, amountOf, "");
    }
    hide Exec;
  }

  /**
   Exactly when another order is decided, at the stop of the first run and until the next: an order
   created and published once is decided if and only if the stop left nothing about it unread or in
   flight.
   */
  lemma DecidedIffNothingOwed(trace: seq<Label>, later: seq<Label>, amountOf: Amounts, p: string)
    requires var s := Exec(Initial(), trace, amountOf); s.local.Stopped? && p in s.published
    requires Creates(trace + later, p) <= 1 && Starts(trace + later, p) <= 1
    requires Runs(trace + later) <= 1 && Crash !in later
    ensures DecidedIn(Exec(Initial(), trace + later, amountOf).w, p)
            <==> Owed(Exec(Initial(), trace, amountOf), p) == 0
  {
    var s := Exec(Initial(), trace, amountOf);
    RunNeedsLabel(trace, amountOf);
    CountsGrow(trace, later, p);
    RunOnCourse(trace, amountOf);
    RunDecides(trace, amountOf, p);
    ExecAppend(Initial(), trace, later, amountOf);
    hide Exec, AllAgree, Creates, Starts, Runs;
    assert OnItsWay(s, p, amountOf);
    hide Tokens, Extra, Announced;
    if Owed(s, p) == 0 {
      TerminalIsKept(trace, later, amountOf, p);
    } else {
      StrandedUntilNextRun(s, later, amountOf, p);
    }
  }

  /** The input on which stopping strands an order: `p` can be paid in the pass that cancels `o`. */
  ghost predicate Crowded(w: World, o: string, p: string, amountOf: Amounts) {
    && w.orders == [OrderCreated(p, amountOf(p)), OrderCreated(o, amountOf(o))]
    && w.payments == [] && |w.shipping| == PAGE && (forall i :: 0 <= i < PAGE ==> w.shipping[i] == Unknown)
    && w.atOrders == 0 && w.atPayments == 0 && w.atShipping == 0
    && o != p && w.book == map[o := PaymentProcessing, p := PaymentProcessing]
    && amountOf(p) > 0.0 && amountOf(o) <= 0.0
  }

  lemma {:induction false} UnknownsAreSkipped(w: World, n: nat)
    requires WithinLogs(w) && w.atShipping + n <= |w.shipping|
    requires forall i :: w.atShipping <= i < w.atShipping + n ==> w.shipping[i] == Unknown
    ensures SagaRunner.TakeMany(w, Shipping, n) == w.(atShipping := w.atShipping + n)
  {
    if n == 0 {
    } else {
      UnknownsAreSkipped(w, n - 1);
    }
  }

  lemma CrowdedOrders(w: World, o: string, p: string, amountOf: Amounts)
    requires Crowded(w, o, p, amountOf)
    ensures SagaRunner.ReadPage(w, Orders) == w.(payments := [PaymentProcessed(p), PaymentFailed(o)], atOrders := 2)
  {
    var w1 := SagaRunner.Handle(w, Orders);
    assert w1 == w.(payments := [PaymentProcessed(p)], atOrders := 1);
    assert SagaRunner.TakeMany(w, Orders, 0) == w && SagaRunner.TakeMany(w, Orders, 1) == w1;
    assert SagaRunner.TakeMany(w, Orders, 2) == SagaRunner.Handle(w1, Orders);
  }

  lemma CrowdedPayments(w: World, o: string, p: string)
    requires w.payments == [PaymentProcessed(p), PaymentFailed(o)] && w.atPayments == 0 && WithinLogs(w)
    requires o != p && o in w.book && p in w.book
    ensures SagaRunner.ReadPage(w, Payments)
         == w.(orders := w.orders + [OrderCancelled(o)], shipping := w.shipping + [OrderShipped(p)], atPayments := 2,
               book := w.book[p := Paid][o := Cancelled])
  {
    var w1 := SagaRunner.Handle(w, Payments);
    assert w1 == w.(shipping := w.shipping + [OrderShipped(p)], atPayments := 1, book := w.book[p := Paid]);
    assert SagaRunner.TakeMany(w, Payments, 0) == w && SagaRunner.TakeMany(w, Payments, 1) == w1;
    assert SagaRunner.TakeMany(w, Payments, 2) == SagaRunner.Handle(w1, Payments);
  }

  lemma CrowdedPass(w: World, o: string, p: string, amountOf: Amounts)
    requires Crowded(w, o, p, amountOf)
    ensures var w' := SagaRefinement.QuietPass(w); w'.book == map[o := Cancelled, p := Paid]
  {
    CrowdedOrders(w, o, p, amountOf);
    var w1 := SagaRunner.ReadPage(w, Orders);
    CrowdedPayments(w1, o, p);
    var w2 := SagaRunner.ReadPage(w1, Payments);
    UnknownsAreSkipped(w2, PAGE);
    assert SagaRunner.PageSize(w2, Shipping) == PAGE;
    hide SagaRunner.TakeMany;
  }

  /** There the runner cancels its own order, stops, and leaves the other one paid until another run starts. */
  lemma StopStrandsAnother(s: System, later: seq<Label>, amountOf: Amounts, p: string)
    requires Legal(s) && s.local == Reading(Orders) && Crowded(s.w, s.mine, p, amountOf)
    requires forall l :: l in later ==> !l.Run?
    ensures exists n: nat ::
              var s1 := Exec(s, Advances(n), amountOf);
              && s1.local.Stopped? && s1.w.book == map[s.mine := Cancelled, p := Paid]
              && !DecidedIn(Exec(s1, later, amountOf).w, p)
  {
    CrowdedPass(s.w, s.mine, p, amountOf);
    SagaRefinement.ReachesItself(s, amountOf);
    assert s == SagaRefinement.ReadyFor(s, s.w, Orders);
    SagaRefinement.QuietPassIsATrace(s, s.w, amountOf);
    var s1 := SagaRefinement.PageRead(s, SagaRefinement.QuietPass(s.w), Shipping);
    assert s1.local.Stopped? && s1.w.book == map[s.mine := Cancelled, p := Paid];
    SagaRefinement.ReachedIsLegal(s, s1, amountOf);
    hide SagaRefinement.QuietPass, Exec;
    var n: nat :| Exec(s, Advances(n), amountOf) == s1;
    StrandedUntilNextRun(s1, later, amountOf, p);
  }

  /** What a run for `o` alone on empty streams leaves behind. */
  function Settled(o: string, amount: real): World {
    World([OrderCreated(o, amount)], [PaymentProcessed(o)], [OrderShipped(o)], 1, 1, 1, map[o := Completed])
  }

  lemma OneEvent(w: World, k: Stage)
    requires WithinLogs(w) && Cursor(w, k) + 1 == |Log(w, k)|
    ensures SagaRunner.ReadPage(w, k) == SagaRunner.Handle(w, k)
  {
    assert SagaRunner.TakeMany(w, k, 0) == w;
    assert SagaRunner.TakeMany(w, k, 1) == SagaRunner.Handle(w, k);
    hide SagaRunner.Handle;
  }

  lemma FirstOrders(w: World, o: string, amount: real)
    requires amount > 0.0 && w.orders == [OrderCreated(o, amount)] && w.atOrders == 0 && WithinLogs(w)
    ensures SagaRunner.ReadPage(w, Orders) == w.(payments := w.payments + [PaymentProcessed(o)], atOrders := 1)
  {
    OneEvent(w, Orders);
    hide SagaRunner.ReadPage, SagaRunner.TakeMany, SagaRunner.PageSize;
  }

  lemma FirstPayments(w: World, o: string)
    requires w.payments == [PaymentProcessed(o)] && w.atPayments == 0 && WithinLogs(w) && o in w.book
    ensures SagaRunner.ReadPage(w, Payments)
         == w.(shipping := w.shipping + [OrderShipped(o)], atPayments := 1, book := w.book[o := Paid])
  {
    OneEvent(w, Payments);
    hide SagaRunner.ReadPage, SagaRunner.TakeMany, SagaRunner.PageSize;
  }

  lemma FirstShipping(w: World, o: string)
    requires w.shipping == [OrderShipped(o)] && w.atShipping == 0 && WithinLogs(w) && o in w.book
    ensures SagaRunner.ReadPage(w, Shipping) == w.(atShipping := 1, book := w.book[o := Completed])
  {
    OneEvent(w, Shipping);
    hide SagaRunner.ReadPage, SagaRunner.TakeMany, SagaRunner.PageSize;
  }

  lemma FirstPass(o: string, amount: real)
    requires amount > 0.0
    ensures var w := World([OrderCreated(o, amount)], [], [], 0, 0, 0, map[o := PaymentProcessing]);
            SagaRefinement.QuietPass(w) == Settled(o, amount)
  {
    var w := World([OrderCreated(o, amount)], [], [], 0, 0, 0, map[o := PaymentProcessing]);
    FirstOrders(w, o, amount);
    var w1 := World([OrderCreated(o, amount)], [PaymentProcessed(o)], [], 1, 0, 0, map[o := PaymentProcessing]);
    assert SagaRunner.ReadPage(w, Orders) == w1;
    FirstPayments(w1, o);
    var w2 := World(w1.orders, w1.payments, [OrderShipped(o)], 1, 1, 0, map[o := Paid]);
    assert SagaRunner.ReadPage(w1, Payments) == w2;
    FirstShipping(w2, o);
    hide SagaRunner.ReadPage;
  }

  /** A first run completes its order and stops. */
  lemma FirstRunCompletes(amountOf: Amounts, o: string) returns (m: nat)
    requires amountOf(o) > 0.0
    ensures var s := Exec(Initial(), [Run(o)] + Advances(m), amountOf);
            s.local.Stopped? && s.w == Settled(o, amountOf(o)) && s.inFlight == [] && s.published == {o}
  {
    ExecNext(Initial(), [], Run(o), amountOf);
    assert [] + [Run(o)] == [Run(o)];
    var s0 := Step(Initial(), Run(o), amountOf);
    assert Exec(Initial(), [], amountOf) == Initial();
    SagaRefinement.ReachesNext(s0, amountOf);
    var s1 := Step(s0, Advance, amountOf);
    assert s1.local == Reading(Orders);
    assert s1.w == World([OrderCreated(o, amountOf(o))], [], [], 0, 0, 0, map[o := PaymentProcessing]);
    FirstPass(o, amountOf(o));
    assert s1 == SagaRefinement.ReadyFor(s0, s1.w, Orders);
    SagaRefinement.QuietPassIsATrace(s0, s1.w, amountOf);
    var s2 := SagaRefinement.PageRead(s0, Settled(o, amountOf(o)), Shipping);
    assert s2.local.Stopped? && s2.w == Settled(o, amountOf(o)) && s2.inFlight == [] && s2.published == {o};
    hide Exec, Step, SagaRefinement.QuietPass, Settled;
    m :| Exec(s0, Advances(m), amountOf) == s2;
    ExecAppend(Initial(), [Run(o)], Advances(m), amountOf);
  }

  /** Delivered twice, an order can be decided with its second delivery still owed. */
  lemma DuplicateIsDecidedAndOwed(amountOf: Amounts, p: string) returns (m: nat)
    requires amountOf(p) > 0.0
    ensures var s := Exec(Initial(), [Run(p)] + Advances(m) + [Inject(p)], amountOf);
            s.local.Stopped? && DecidedIn(s.w, p) && Owed(s, p) > 0
  {
    m := FirstRunCompletes(amountOf, p);
    var s := Exec(Initial(), [Run(p)] + Advances(m), amountOf);
    ExecNext(Initial(), [Run(p)] + Advances(m), Inject(p), amountOf);
    PublishCounts(s.w, Orders, OrderCreated(p, amountOf(p)), p);
    hide Tokens, Exec;
  }

  lemma SecondOrders(w: World, o: string, q: string, amountOf: Amounts)
    requires w.orders == [OrderCreated(o, amountOf(o)), OrderCreated(q, amountOf(q))] && w.atOrders == 0
    requires WithinLogs(w) && amountOf(o) > 0.0 && amountOf(q) > 0.0
    ensures SagaRunner.ReadPage(w, Orders)
         == w.(payments := w.payments + [PaymentProcessed(o), PaymentProcessed(q)], atOrders := 2)
  {
    var w1 := SagaRunner.Handle(w, Orders);
    assert w1 == w.(payments := w.payments + [PaymentProcessed(o)], atOrders := 1);
    assert SagaRunner.TakeMany(w, Orders, 0) == w && SagaRunner.TakeMany(w, Orders, 1) == w1;
    assert SagaRunner.TakeMany(w, Orders, 2) == SagaRunner.Handle(w1, Orders);
  }

  /** The read of the payments page and its first event, an old payment of `o`. */
  lemma OldPaymentReopens(s: System, amountOf: Amounts, o: string)
    requires Legal(s) && s.local == Reading(Payments) && s.w.atPayments == 0 && o in s.w.book
    requires s.w.payments != [] && s.w.payments[0] == PaymentProcessed(o)
    ensures var s' := Step(Step(s, Advance, amountOf), Advance, amountOf); o in s'.w.book && s'.w.book[o] == Paid
  {
    var end := Page(s.w, Payments);
    assert Step(s, Advance, amountOf) == s.(local := Consuming(Payments, end));
  }

  lemma SecondRunAtPayments(s: System, amountOf: Amounts, o: string, q: string) returns (s': System)
    requires Legal(s) && s.local.Stopped? && s.w == Settled(o, amountOf(o))
    requires amountOf(o) > 0.0 && amountOf(q) > 0.0 && o != q
    ensures SagaRefinement.Reaches(Step(s, Run(q), amountOf), s', amountOf) && Legal(s')
    ensures s'.local == Reading(Payments) && s'.w.atPayments == 0 && o in s'.w.book
    ensures s'.w.payments != [] && s'.w.payments[0] == PaymentProcessed(o)
  {
    var s0 := Step(s, Run(q), amountOf);
    SagaRefinement.RunBeginsTheLoop(s, q, amountOf);
    var w := World(s.w.orders + [OrderCreated(q, amountOf(q))], s.w.payments, s.w.shipping, 0, 0, 0,
                   s.w.book[q := PaymentProcessing]);
    assert w.orders == [OrderCreated(o, amountOf(o)), OrderCreated(q, amountOf(q))];
    SecondOrders(w, o, q, amountOf);
    SagaRefinement.ReadAfter(s0, w, Orders, amountOf);
    s' := SagaRefinement.PageRead(s0, SagaRunner.ReadPage(w, Orders), Orders);
    SagaRefinement.ReachedIsLegal(s0, s', amountOf);
    hide SagaRefinement.Reaches, SagaRunner.ReadPage, Step;
  }

  lemma PaidAgain(s0: System, s: System, amountOf: Amounts, o: string) returns (s': System)
    requires SagaRefinement.Reaches(s0, s, amountOf) && Legal(s)
    requires s.local == Reading(Payments) && s.w.atPayments == 0 && o in s.w.book
    requires s.w.payments != [] && s.w.payments[0] == PaymentProcessed(o)
    ensures SagaRefinement.Reaches(s0, s', amountOf) && o in s'.w.book && !Terminal(s'.w.book[o])
  {
    OldPaymentReopens(s, amountOf, o);
    var s1 := Step(s, Advance, amountOf);
    SagaRefinement.ReachesNext(s, amountOf);
    SagaRefinement.ReachesNext(s1, amountOf);
    s' := Step(s1, Advance, amountOf);
    hide SagaRefinement.Reaches, Step, Legal;
    SagaRefinement.ReachesFurther(s0, s, s1, amountOf);
    SagaRefinement.ReachesFurther(s0, s1, s', amountOf);
  }

  /**
   `TerminalIsKept` is about one run: a second run, for another order, reads the old payment of a
   completed one and takes it out of its terminal status.
   */
  lemma SecondRunReopens(amountOf: Amounts, o: string, q: string) returns (m: nat, n: nat)
    requires amountOf(o) > 0.0 && amountOf(q) > 0.0 && o != q
    ensures DecidedIn(Exec(Initial(), [Run(o)] + Advances(m), amountOf).w, o)
    ensures var w := Exec(Initial(), [Run(o)] + Advances(m) + [Run(q)] + Advances(n), amountOf).w;
            o in w.book && !Terminal(w.book[o])
  {
    m := FirstRunCompletes(amountOf, o);
    var t := [Run(o)] + Advances(m);
    var s := Exec(Initial(), t, amountOf);
    assert DecidedIn(s.w, o);
    ExecNext(Initial(), t, Run(q), amountOf);
    var s0 := Step(s, Run(q), amountOf);
    hide Exec, Step, Settled;
    var s1 := SecondRunAtPayments(s, amountOf, o, q);
    var s2 := PaidAgain(s0, s1, amountOf, o);
    n :| Exec(s0, Advances(n), amountOf) == s2;
    ExecAppend(Initial(), t + [Run(q)], Advances(n), amountOf);
  }
}
