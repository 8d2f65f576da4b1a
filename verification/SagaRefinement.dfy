/**
 The page-at-a-time runner, with whatever others publish between its reads, is one of the schedules
 of the await-level machine, so what is proved of every run of the machine holds of it.
 */
module SagaRefinement {
  import opened SagaModel
  import opened SagaProtocol
  import SagaProgress
  import SagaRunner

  /** The runner on its own gets from `s` to `s'` by some number of awaits. */
  ghost predicate Reaches(s: System, s': System, amountOf: Amounts) {
    Legal(s) && exists n: nat :: Exec(s, SagaProgress.Advances(n), amountOf) == s'
  }

  lemma ReachesItself(s: System, amountOf: Amounts)
    requires Legal(s)
    ensures Reaches(s, s, amountOf)
  {
    assert SagaProgress.Advances(0) == [];
    assert Exec(s, SagaProgress.Advances(0), amountOf) == s;
    hide Step, Legal;
  }

  lemma ReachesNext(s: System, amountOf: Amounts)
    requires Legal(s)
    ensures Reaches(s, Step(s, Advance, amountOf), amountOf)
  {
    var t := SagaProgress.Advances(1);
    assert t == [Advance] && t[..0] == [];
    assert Exec(s, t[..0], amountOf) == s;
    assert Exec(s, t, amountOf) == Step(s, Advance, amountOf);
    hide Step, Legal;
  }

  lemma ReachesFurther(s: System, s1: System, s2: System, amountOf: Amounts)
    requires Reaches(s, s1, amountOf) && Reaches(s1, s2, amountOf)
    ensures Reaches(s, s2, amountOf)
  {
    var m: nat :| Exec(s, SagaProgress.Advances(m), amountOf) == s1;
    var n: nat :| Exec(s1, SagaProgress.Advances(n), amountOf) == s2;
    assert SagaProgress.Advances(m + n) == SagaProgress.Advances(m) + SagaProgress.Advances(n);
    SagaProgress.ExecAppend(s, SagaProgress.Advances(m), SagaProgress.Advances(n), amountOf);
    hide Exec, Step, Legal;
    assert Exec(s, SagaProgress.Advances(m + n), amountOf) == s2;
  }

  lemma ReachedIsLegal(s: System, s': System, amountOf: Amounts)
    requires Reaches(s, s', amountOf)
    ensures Legal(s) && Legal(s')
  {
    hide Exec, Step;
  }

  /** The runner where it stands in stage `k`, with the world `w`. */
  function At(s: System, w: World, k: Stage, end: nat): System {
    s.(w := w, local := After(w, k, end, s.mine))
  }

  /** The runner about to read stage `k`. */
  function ReadyFor(s: System, w: World, k: Stage): System {
    s.(w := w, local := Reading(k))
  }

  lemma HandleIsATrace(s: System, k: Stage, end: nat, amountOf: Amounts)
    requires Legal(s) && s.local == Consuming(k, end)
    ensures Reaches(s, At(s, SagaRunner.Handle(s.w, k), k, end), amountOf)
  {
    ReachesNext(s, amountOf);
    var s1 := Step(s, Advance, amountOf);
    if s1.local.Sending? {
      ReachesNext(s1, amountOf);
      ReachesFurther(s, s1, Step(s1, Advance, amountOf), amountOf);
    }
    hide Reaches, Take, Log, Cursor;
  }

  lemma BeforeTheEnd(s: System, k: Stage, end: nat, i: nat)
    requires Legal(s) && s.local == Consuming(k, end) && Cursor(s.w, k) + i < end
    ensures var w := SagaRunner.TakeMany(s.w, k, i);
            At(s, w, k, end) == s.(w := w, local := Consuming(k, end))
            && SagaRunner.TakeMany(s.w, k, i + 1) == SagaRunner.Handle(w, k)
  {
    hide Log, Cursor, SagaRunner.Handle;
  }

  lemma TakeOneMore(s: System, k: Stage, end: nat, i: nat, amountOf: Amounts)
    requires Legal(s) && s.local == Consuming(k, end) && Cursor(s.w, k) + i < end
    requires Reaches(s, At(s, SagaRunner.TakeMany(s.w, k, i), k, end), amountOf)
    ensures Reaches(s, At(s, SagaRunner.TakeMany(s.w, k, i + 1), k, end), amountOf)
  {
    var w := SagaRunner.TakeMany(s.w, k, i);
    var s1 := At(s, w, k, end);
    BeforeTheEnd(s, k, end, i);
    ReachedIsLegal(s, s1, amountOf);
    HandleIsATrace(s1, k, end, amountOf);
    var s2 := At(s1, SagaRunner.Handle(w, k), k, end);
    assert s2 == At(s, SagaRunner.Handle(w, k), k, end);
    hide *;
    ReachesFurther(s, s1, s2, amountOf);
  }

  lemma NothingTaken(s: System, k: Stage, end: nat, amountOf: Amounts)
    requires Legal(s) && s.local == Consuming(k, end)
    ensures Reaches(s, At(s, SagaRunner.TakeMany(s.w, k, 0), k, end), amountOf)
  {
    ReachesItself(s, amountOf);
    hide Reaches;
  }

  lemma {:induction false} TakeManyIsATrace(s: System, k: Stage, end: nat, i: nat, amountOf: Amounts)
    requires Legal(s) && s.local == Consuming(k, end) && Cursor(s.w, k) + i <= end
    ensures Reaches(s, At(s, SagaRunner.TakeMany(s.w, k, i), k, end), amountOf)
  {
    hide *;
    if i == 0 {
      NothingTaken(s, k, end, amountOf);
    } else {
      TakeManyIsATrace(s, k, end, i - 1, amountOf);
      TakeOneMore(s, k, end, i - 1, amountOf);
    }
  }

  /** The runner at the end of a page: at the next stage, or stopped by the check after the last one. */
  function PageRead(s: System, w: World, k: Stage): System {
    s.(w := w, local := AfterPage(w, k, s.mine))
  }

  lemma PageEnds(s: System, k: Stage, end: nat)
    requires Legal(s) && end == Page(s.w, k)
    ensures var w := SagaRunner.ReadPage(s.w, k);
            && Cursor(s.w, k) <= end <= |Log(s.w, k)|
            && w == SagaRunner.TakeMany(s.w, k, end - Cursor(s.w, k))
            && At(s, w, k, end) == PageRead(s, w, k)
            && (Cursor(s.w, k) == end ==> w == s.w)
  {
    hide Log, Cursor, SagaRunner.Handle;
  }

  /** One inner loop of the runner. */
  lemma ReadPageIsATrace(s: System, k: Stage, amountOf: Amounts)
    requires Legal(s) && s.local == Reading(k)
    ensures Reaches(s, PageRead(s, SagaRunner.ReadPage(s.w, k), k), amountOf)
  {
    var end := Page(s.w, k);
    PageEnds(s, k, end);
    ReachesNext(s, amountOf);
    var s1 := Step(s, Advance, amountOf);
    assert s1 == At(s, s.w, k, end);
    if Cursor(s.w, k) < end {
      var w := SagaRunner.ReadPage(s.w, k);
      assert s1.local == Consuming(k, end) && s1.w == s.w && Legal(s1);
      assert At(s1, w, k, end) == At(s, w, k, end);
      hide *;
      TakeManyIsATrace(s1, k, end, end - Cursor(s.w, k), amountOf);
      ReachesFurther(s, s1, At(s1, w, k, end), amountOf);
    }
  }

  lemma ReadAfter(s: System, w: World, k: Stage, amountOf: Amounts)
    requires Reaches(s, ReadyFor(s, w, k), amountOf)
    ensures WithinLogs(w) && Reaches(s, PageRead(s, SagaRunner.ReadPage(w, k), k), amountOf)
  {
    var s1 := ReadyFor(s, w, k);
    ReachedIsLegal(s, s1, amountOf);
    assert s1.w == w && WithinLogs(w) && s1.local == Reading(k);
    ReadPageIsATrace(s1, k, amountOf);
    var s2 := PageRead(s, SagaRunner.ReadPage(w, k), k);
    assert s2 == PageRead(s1, SagaRunner.ReadPage(w, k), k);
    hide *;
    ReachesFurther(s, s1, s2, amountOf);
  }

  lemma MidPass(s: System, w: World, k: Stage)
    ensures !k.Shipping? ==> PageRead(s, w, k) == ReadyFor(s, w, Next(k))
    ensures k.Shipping? && !DecidedIn(w, s.mine) ==> PageRead(s, w, k) == ReadyFor(s, w, Orders)
    ensures Next(Orders) == Payments && Next(Payments) == Shipping
  {
  }

  /** A pass during which nobody else publishes. */
  function QuietPass(w: World): World
    requires WithinLogs(w)
  {
    SagaRunner.ReadPage(SagaRunner.ReadPage(SagaRunner.ReadPage(w, Orders), Payments), Shipping)
  }

  /** A whole pass over the three streams, with the check at its end. */
  lemma QuietPassIsATrace(s: System, w: World, amountOf: Amounts)
    requires Reaches(s, ReadyFor(s, w, Orders), amountOf)
    ensures WithinLogs(w) && Reaches(s, PageRead(s, QuietPass(w), Shipping), amountOf)
  {
    ReadAfter(s, w, Orders, amountOf);
    hide SagaRunner.ReadPage, PageRead, ReadyFor, WithinLogs;
    var w1 := SagaRunner.ReadPage(w, Orders);
    MidPass(s, w1, Orders);
    ReadAfter(s, w1, Payments, amountOf);
    var w2 := SagaRunner.ReadPage(w1, Payments);
    MidPass(s, w2, Payments);
    ReadAfter(s, w2, Shipping, amountOf);
  }

  /** The runner and those who publish get from `s` to `s'` within one run. */
  ghost predicate Gets(s: System, s': System, amountOf: Amounts) {
    Legal(s) && exists trace: seq<Label> :: InOneRun(trace) && Exec(s, trace, amountOf) == s'
  }

  ghost predicate InOneRun(trace: seq<Label>) {
    forall l :: l in trace ==> !Turnover(l)
  }

  lemma GetsBy(s: System, trace: seq<Label>, amountOf: Amounts)
    requires Legal(s) && InOneRun(trace)
    ensures Gets(s, Exec(s, trace, amountOf), amountOf)
  {
    hide Legal, Exec, InOneRun;
  }

  lemma GetsAlone(s: System, s': System, amountOf: Amounts)
    requires Reaches(s, s', amountOf)
    ensures Gets(s, s', amountOf)
  {
    hide Legal, Exec;
    var n: nat :| Exec(s, SagaProgress.Advances(n), amountOf) == s';
    GetsBy(s, SagaProgress.Advances(n), amountOf);
  }

  lemma GetsFurther(s: System, s1: System, s2: System, amountOf: Amounts)
    requires Gets(s, s1, amountOf) && Gets(s1, s2, amountOf)
    ensures Gets(s, s2, amountOf)
  {
    var t :| InOneRun(t) && Exec(s, t, amountOf) == s1;
    var t' :| InOneRun(t') && Exec(s1, t', amountOf) == s2;
    SagaProgress.ExecAppend(s, t, t', amountOf);
    assert InOneRun(t + t');
    hide Exec, InOneRun, Legal;
    GetsBy(s, t + t', amountOf);
  }

  lemma GotIsLegal(s: System, s': System, amountOf: Amounts)
    requires Gets(s, s', amountOf)
    ensures Legal(s) && Legal(s')
  {
    hide Exec, Step;
  }

  /** The same run at `w`, with the orders others have published meanwhile among the published. */
  ghost predicate Same(s: System, s': System, w: World) {
    s'.w == w && s'.local == s.local && s'.inFlight == s.inFlight && s'.mine == s.mine && s.published <= s'.published
  }

  lemma ExecOne(s: System, l: Label, amountOf: Amounts)
    requires Legal(s)
    ensures Exec(s, [l], amountOf) == Step(s, l, amountOf)
  {
    assert [l][..0] == [];
    assert Exec(s, [], amountOf) == s;
    hide Step, Legal;
  }

  lemma OneLabel(s: System, l: Label, amountOf: Amounts)
    requires Legal(s) && !Turnover(l)
    ensures Gets(s, Step(s, l, amountOf), amountOf)
  {
    ExecOne(s, l, amountOf);
    hide Exec, Step, Legal;
    GetsBy(s, [l], amountOf);
  }

  lemma PlacedIsATrace(s: System, o: string, amountOf: Amounts) returns (s': System)
    requires Legal(s)
    ensures WithinLogs(s.w) && Gets(s, s', amountOf)
    ensures Same(s, s', SagaRunner.Arrive(s.w, SagaRunner.Placed(o, amountOf(o))))
  {
    var s1 := Step(s, Create(o), amountOf);
    var s2 := Step(s1, BeginPublish(o), amountOf);
    s' := Step(s2, EndPublish(|s.inFlight|), amountOf);
    OneLabel(s, Create(o), amountOf);
    OneLabel(s1, BeginPublish(o), amountOf);
    OneLabel(s2, EndPublish(|s.inFlight|), amountOf);
    assert s2.inFlight == s.inFlight + [o] && s'.inFlight == s.inFlight;
    assert s2.w.book == s.w.book[o := PaymentProcessing];
    GetsFurther(s, s1, s2, amountOf);
    GetsFurther(s, s2, s', amountOf);
    hide Gets;
  }

  lemma ArriveIsATrace(s: System, a: SagaRunner.Arrival, amountOf: Amounts) returns (s': System)
    requires Legal(s) && Agrees(SagaRunner.EventOf(a), amountOf)
    ensures WithinLogs(s.w) && Gets(s, s', amountOf) && Same(s, s', SagaRunner.Arrive(s.w, a))
  {
    match a {
      case Placed(o, _) =>
        s' := PlacedIsATrace(s, o, amountOf);
        hide Gets, Same;
      case Repeated(o, _) =>
        s' := Step(s, Inject(o), amountOf);
        OneLabel(s, Inject(o), amountOf);
        hide Gets;
      case Stray(k) =>
        s' := Step(s, Noise(k), amountOf);
        OneLabel(s, Noise(k), amountOf);
        hide Gets;
    }
  }

  lemma SameAgain(s: System, s1: System, s2: System, w1: World, w2: World)
    requires Same(s, s1, w1) && Same(s1, s2, w2)
    ensures Same(s, s2, w2)
  {
  }

  lemma Stays(s: System, amountOf: Amounts)
    requires Legal(s)
    ensures WithinLogs(s.w) && Gets(s, s, amountOf) && Same(s, s, SagaRunner.Join(s.w, []))
  {
    ReachesItself(s, amountOf);
    GetsAlone(s, s, amountOf);
    hide Gets, Reaches;
  }

  lemma {:induction false} JoinIsATrace(s: System, arrivals: seq<SagaRunner.Arrival>, amountOf: Amounts)
    returns (s': System)
    requires Legal(s) && SagaRunner.Fits(arrivals, amountOf)
    ensures WithinLogs(s.w) && Gets(s, s', amountOf) && Same(s, s', SagaRunner.Join(s.w, arrivals))
    decreases |arrivals|
  {
    hide Gets, Same, SagaRunner.Arrive, WithinLogs, Agrees, SagaRunner.EventOf, Legal, Exec;
    if arrivals == [] {
      Stays(s, amountOf);
      s' := s;
    } else {
      var n := |arrivals| - 1;
      assert Agrees(SagaRunner.EventOf(arrivals[n]), amountOf);
      var s1 := JoinIsATrace(s, arrivals[..n], amountOf);
      GotIsLegal(s, s1, amountOf);
      assert s1.w == SagaRunner.Join(s.w, arrivals[..n]) by {
        SameWorld(s, s1, SagaRunner.Join(s.w, arrivals[..n]));
      }
      s' := ArriveIsATrace(s1, arrivals[n], amountOf);
      GetsFurther(s, s1, s', amountOf);
      SameAgain(s, s1, s', SagaRunner.Join(s.w, arrivals[..n]), SagaRunner.Join(s.w, arrivals));
    }
  }

  lemma SameWorld(s: System, s': System, w: World)
    requires Same(s, s', w)
    ensures s'.w == w && s'.local == s.local && s'.mine == s.mine
  {
  }

  /** The runner has read stage `k` with `w` as the result, and others have published. */
  ghost predicate HasRead(s: System, s': System, w: World, k: Stage) {
    Same(s, s'.(local := s.local), w) && s'.local == AfterPage(w, k, s.mine)
  }

  lemma ReadAfterJoin(s: System, s1: System, arrivals: seq<SagaRunner.Arrival>, k: Stage, w: World)
    requires WithinLogs(s.w) && Same(s, s1, SagaRunner.Join(s.w, arrivals))
    requires WithinLogs(s1.w) && w == SagaRunner.ReadPage(s1.w, k)
    ensures w == SagaRunner.JoinAndRead(s.w, arrivals, k) && HasRead(s, PageRead(s1, w, k), w, k)
  {
    hide SagaRunner.ReadPage, SagaRunner.Join, WithinLogs;
  }

  lemma JoinAndReadIsATrace(s: System, arrivals: seq<SagaRunner.Arrival>, k: Stage, amountOf: Amounts)
    returns (s': System)
    requires Legal(s) && s.local == Reading(k) && SagaRunner.Fits(arrivals, amountOf)
    ensures WithinLogs(s.w) && Gets(s, s', amountOf) && HasRead(s, s', SagaRunner.JoinAndRead(s.w, arrivals, k), k)
  {
    hide *;
    var s1 := JoinIsATrace(s, arrivals, amountOf);
    SameWorld(s, s1, SagaRunner.Join(s.w, arrivals));
    GotIsLegal(s, s1, amountOf);
    LegalIsWithin(s1);
    ReadPageIsATrace(s1, k, amountOf);
    var w := SagaRunner.ReadPage(s1.w, k);
    s' := PageRead(s1, w, k);
    ReadAfterJoin(s, s1, arrivals, k, w);
    GetsAlone(s1, s', amountOf);
    GetsFurther(s, s1, s', amountOf);
  }

  lemma LegalIsWithin(s: System)
    requires Legal(s)
    ensures WithinLogs(s.w)
  {
  }

  lemma ReadAgain(s: System, s1: System, s2: System, w: World, w': World, k: Stage, k': Stage)
    requires HasRead(s, s1, w, k) && HasRead(s1, s2, w', k')
    ensures HasRead(s, s2, w', k') && s1.w == w && s2.w == w' && s1.mine == s.mine
    ensures s1.local == AfterPage(w, k, s.mine) && s2.local == AfterPage(w', k', s.mine)
  {
  }

  lemma ReadFacts(s: System, s': System, w: World, k: Stage)
    requires HasRead(s, s', w, k)
    ensures s'.w == w && s'.mine == s.mine && s'.local == AfterPage(w, k, s.mine)
    ensures k == Orders ==> s'.local == Reading(Payments)
    ensures k == Payments ==> s'.local == Reading(Shipping)
    ensures k == Shipping && !DecidedIn(w, s.mine) ==> s'.local == Reading(Orders)
  {
  }

  /** A pass with its check is a run of the machine. */
  lemma PassIsATrace(s: System, others: SagaRunner.Schedule, n: nat, amountOf: Amounts) returns (s': System)
    requires Legal(s) && s.local == Reading(Orders) && SagaRunner.AllFit(others, amountOf)
    ensures WithinLogs(s.w) && Gets(s, s', amountOf)
    ensures HasRead(s, s', SagaRunner.Pass(s.w, others, n), Shipping)
  {
    assert WithinLogs(s.w);
    hide SagaRunner.JoinAndRead, HasRead, Gets, Legal, WithinLogs, SagaRunner.Fits;
    var w1 := SagaRunner.JoinAndRead(s.w, others(3 * n), Orders);
    var w2 := SagaRunner.JoinAndRead(w1, others(3 * n + 1), Payments);
    var w3 := SagaRunner.JoinAndRead(w2, others(3 * n + 2), Shipping);
    var s1 := JoinAndReadIsATrace(s, others(3 * n), Orders, amountOf);
    ReadFacts(s, s1, w1, Orders);
    GotIsLegal(s, s1, amountOf);
    var s2 := JoinAndReadIsATrace(s1, others(3 * n + 1), Payments, amountOf);
    ReadFacts(s1, s2, w2, Payments);
    GotIsLegal(s1, s2, amountOf);
    s' := JoinAndReadIsATrace(s2, others(3 * n + 2), Shipping, amountOf);
    GetsFurther(s, s1, s2, amountOf);
    GetsFurther(s, s2, s', amountOf);
    ReadAgain(s, s1, s2, w1, w2, Orders, Payments);
    ReadAgain(s, s2, s', w2, w3, Payments, Shipping);
  }

  /** The runner about to read the orders at `w`, others having published. */
  ghost predicate BackAtOrders(s: System, s': System, w: World) {
    Same(s, s', w) && s'.local == Reading(Orders)
  }

  lemma PassGoesOn(s: System, s1: System, s2: System, w1: World, w2: World)
    requires BackAtOrders(s, s1, w1) && HasRead(s1, s2, w2, Shipping)
    ensures HasRead(s, s2, w2, Shipping)
    ensures !DecidedIn(w2, s.mine) && s.local == Reading(Orders) ==> BackAtOrders(s, s2, w2)
  {
  }

  lemma StaysAtOrders(s: System, others: SagaRunner.Schedule, amountOf: Amounts)
    requires Legal(s) && s.local == Reading(Orders)
    ensures WithinLogs(s.w) && Gets(s, s, amountOf) && BackAtOrders(s, s, SagaRunner.Passes(s.w, others, 0))
  {
    ReachesItself(s, amountOf);
    GetsAlone(s, s, amountOf);
    hide Gets, Reaches;
  }

  lemma BackFacts(s: System, s': System, w: World)
    requires BackAtOrders(s, s', w)
    ensures s'.w == w && s'.mine == s.mine && s'.local == Reading(Orders)
  {
  }

  /** `passes` passes, none of which has decided the runner's order. */
  lemma {:induction false} RunningPasses(s: System, others: SagaRunner.Schedule, passes: nat, amountOf: Amounts)
    returns (s': System)
    requires Legal(s) && WithinLogs(s.w) && s.local == Reading(Orders) && SagaRunner.AllFit(others, amountOf)
    requires forall m: nat :: 1 <= m <= passes ==> !DecidedIn(SagaRunner.Passes(s.w, others, m), s.mine)
    ensures Gets(s, s', amountOf) && BackAtOrders(s, s', SagaRunner.Passes(s.w, others, passes))
    decreases passes
  {
    hide *;
    if passes == 0 {
      StaysAtOrders(s, others, amountOf);
      s' := s;
    } else {
      var w1, w2 := SagaRunner.Passes(s.w, others, passes - 1), SagaRunner.Passes(s.w, others, passes);
      var s1 := RunningPasses(s, others, passes - 1, amountOf);
      BackFacts(s, s1, w1);
      GotIsLegal(s, s1, amountOf);
      s' := PassIsATrace(s1, others, passes - 1, amountOf);
      SagaRunner.PassesNext(s.w, others, passes - 1);
      PassGoesOn(s, s1, s', w1, w2);
      GetsFurther(s, s1, s', amountOf);
    }
  }

  /** The runner, pass by pass up to and including the one after which it stops, is a run of the machine. */
  lemma PassesAreATrace(s: System, others: SagaRunner.Schedule, passes: nat, amountOf: Amounts)
    returns (s': System)
    requires Legal(s) && WithinLogs(s.w) && s.local == Reading(Orders) && SagaRunner.AllFit(others, amountOf)
    requires passes > 0
    requires forall m: nat :: 1 <= m < passes ==> !DecidedIn(SagaRunner.Passes(s.w, others, m), s.mine)
    ensures Gets(s, s', amountOf)
    ensures s'.w == SagaRunner.Passes(s.w, others, passes) && s'.mine == s.mine && s.published <= s'.published
    ensures s'.local == if DecidedIn(s'.w, s.mine) then Stopped else Reading(Orders)
  {
    hide *;
    var w1, w2 := SagaRunner.Passes(s.w, others, passes - 1), SagaRunner.Passes(s.w, others, passes);
    var s1 := RunningPasses(s, others, passes - 1, amountOf);
    BackFacts(s, s1, w1);
    GotIsLegal(s, s1, amountOf);
    s' := PassIsATrace(s1, others, passes - 1, amountOf);
    SagaRunner.PassesNext(s.w, others, passes - 1);
    PassGoesOn(s, s1, s', w1, w2);
    GetsFurther(s, s1, s', amountOf);
    LastCheck(s, s', w2);
  }

  lemma LastCheck(s: System, s': System, w: World)
    requires HasRead(s, s', w, Shipping)
    ensures s'.w == w && s'.mine == s.mine && s.published <= s'.published
    ensures s'.local == if DecidedIn(s'.w, s.mine) then Stopped else Reading(Orders)
  {
  }

  /** The first two lines of a run: its order is created and published, and the loop starts at the beginning. */
  lemma RunBeginsTheLoop(s: System, o: string, amountOf: Amounts)
    requires Legal(s) && Ended(s.local)
    ensures var w := World(s.w.orders + [OrderCreated(o, amountOf(o))], s.w.payments, s.w.shipping, 0, 0, 0,
                           s.w.book[o := PaymentProcessing]);
            var s' := Step(s, Run(o), amountOf);
            s'.mine == o && Reaches(s', ReadyFor(s', w, Orders), amountOf)
  {
    ReachesNext(Step(s, Run(o), amountOf), amountOf);
    hide Reaches;
  }
}
