/**
 Consuming publishes more events, and still a runner left alone stops or comes to rest: every
 event consumed lowers the weight of what is unread.
 */
module SagaProgress {
  import opened SagaModel
  import opened SagaProtocol

  /** The weight still to be consumed, whatever is being sent included. */
  function TotalWeight(s: System): nat {
    UnreadWeight(s.w) + SendWeight(SentOf(s.local))
  }

  function Consumed(w: World): nat {
    w.atOrders + w.atPayments + w.atShipping
  }

  lemma ReadWeight(s: System, amountOf: Amounts)
    requires Legal(s) && s.local.Reading?
    ensures var s' := Step(s, Advance, amountOf); s'.w == s.w && SentOf(s'.local) == Nothing
  {
  }

  lemma TakeWeight(s: System, amountOf: Amounts)
    requires Legal(s) && s.local.Consuming?
    ensures var s' := Step(s, Advance, amountOf);
            && s'.w == Take(s.w, s.local.stage).0 && SentOf(s'.local) == Take(s.w, s.local.stage).1
  {
    hide Take;
  }

  lemma SendWeightFalls(s: System, amountOf: Amounts)
    requires Legal(s) && (s.local.Sending? || s.local.Announcing?)
    ensures var s' := Step(s, Advance, amountOf);
            s'.w == Deliver(s.w, s.local.send) && SentOf(s'.local) == Nothing
  {
    hide Deliver;
  }

  lemma TakeMoves(w: World, k: Stage)
    requires Cursor(w, k) < |Log(w, k)|
    ensures Consumed(Take(w, k).0) == Consumed(w) + 1
  {
  }

  lemma DeliverMoves(w: World, send: Send)
    ensures Consumed(Deliver(w, send)) == Consumed(w)
  {
  }

  lemma KeepsPublishes(s: System, amountOf: Amounts)
    requires Legal(s)
    ensures var s' := Step(s, Advance, amountOf);
            s'.inFlight == s.inFlight && s'.published == s.published
  {
    hide Take, Deliver, Log, Cursor;
  }

  lemma WeightStep(s: System, amountOf: Amounts)
    requires Legal(s)
    ensures var s' := Step(s, Advance, amountOf);
            && TotalWeight(s') + Consumed(s'.w) <= TotalWeight(s) + Consumed(s.w)
            && Consumed(s'.w) == Consumed(s.w) + (if s.local.Consuming? then 1 else 0)
            && s'.inFlight == s.inFlight && s'.published == s.published && s'.mine == s.mine
  {
    KeepsPublishes(s, amountOf);
    match s.local
    case Reading(_) =>
      ReadWeight(s, amountOf);
      hide Step, UnreadWeight, Consumed;
    case Consuming(k, _) =>
      TakeWeight(s, amountOf);
      TakeCounts(s.w, k, "");
      TakeMoves(s.w, k);
      hide Step, Take, UnreadWeight, Consumed, Tokens, SendWeight, Log, Cursor;
    case Sending(_, _, send) =>
      SendWeightFalls(s, amountOf);
      PublishCounts(s.w, send.to, send.event, "");
      DeliverMoves(s.w, send);
      hide Step, UnreadWeight, Consumed, Tokens, Publish;
    case Announcing(send) =>
      SendWeightFalls(s, amountOf);
      PublishCounts(s.w, send.to, send.event, "");
      DeliverMoves(s.w, send);
      hide Step, UnreadWeight, Consumed, Tokens, Publish;
    case Down =>
    case Stopped =>
  }

  function Advances(n: nat): seq<Label> {
    seq(n, i => Advance)
  }

  /** The runner on its own consumes no more events than the weight it starts with. */
  lemma {:induction false} ConsumesAtMostTheWeight(s: System, amountOf: Amounts, n: nat)
    requires Legal(s)
    ensures var s' := Exec(s, Advances(n), amountOf);
            && TotalWeight(s') + Consumed(s'.w) <= TotalWeight(s) + Consumed(s.w)
            && Consumed(s'.w) - Consumed(s.w) <= TotalWeight(s)
            && s'.inFlight == s.inFlight && s'.published == s.published && s'.mine == s.mine
  {
    hide Step, TotalWeight;
    if n == 0 {
      assert Advances(0) == [];
    } else {
      assert Advances(n)[..n - 1] == Advances(n - 1);
      ConsumesAtMostTheWeight(s, amountOf, n - 1);
      WeightStep(Exec(s, Advances(n - 1), amountOf), amountOf);
    }
  }

  predicate Unread(w: World, k: Stage) {
    Cursor(w, k) < |Log(w, k)|
  }

  /** Reads until one finds something. */
  function Distance(w: World, k: Stage): nat {
    if Unread(w, k) then 0 else if Unread(w, Next(k)) then 1 else if Unread(w, Next(Next(k))) then 2 else 3
  }

  /** Reads until the check at the end of the pass. */
  function ToCheck(k: Stage): nat {
    match k
    case Orders => 3
    case Payments => 2
    case Shipping => 1
  }

  function Rank(s: System): nat {
    match s.local
    case Reading(k) => if Distance(s.w, k) == 3 then ToCheck(k) else Distance(s.w, k) + 1
    case Consuming(_, _) => 0
    case Sending(_, _, _) => 5
    case Announcing(_) => 5
    case Stopped => 0
    case Down => 0
  }

  function Progress(s: System): nat {
    6 * TotalWeight(s) + Rank(s)
  }

  /** Nothing is left to read and the runner's own order is not decided. */
  ghost predicate Resting(s: System) {
    Quiescent(s.w) && s.local.Reading? && !DecidedIn(s.w, s.mine)
  }

  ghost predicate Done(s: System) {
    Ended(s.local) || Resting(s)
  }

  lemma ReadProgress(s: System, amountOf: Amounts)
    requires Legal(s) && s.local.Reading?
    ensures var s' := Step(s, Advance, amountOf);
            if Resting(s) then Resting(s') else s'.local.Stopped? || Rank(s') < Rank(s)
  {
  }

  lemma OtherProgress(s: System, amountOf: Amounts)
    requires Legal(s) && (s.local.Consuming? || s.local.Sending? || s.local.Announcing?)
    ensures Rank(Step(s, Advance, amountOf)) <= if s.local.Consuming? then 5 else 3
  {
    hide Take, Deliver, DecidedIn;
  }

  lemma SendProgress(s: System, amountOf: Amounts)
    requires Legal(s) && (s.local.Sending? || s.local.Announcing?)
    ensures TotalWeight(Step(s, Advance, amountOf)) <= TotalWeight(s)
  {
    SendWeightFalls(s, amountOf);
    PublishCounts(s.w, s.local.send.to, s.local.send.event, "");
    hide Step, UnreadWeight, Publish, Tokens;
  }

  lemma ConsumeProgress(s: System, amountOf: Amounts)
    requires Legal(s) && s.local.Consuming?
    ensures TotalWeight(Step(s, Advance, amountOf)) < TotalWeight(s)
  {
    WeightStep(s, amountOf);
    hide Step, TotalWeight;
  }

  lemma ProgressStep(s: System, amountOf: Amounts)
    requires Legal(s)
    ensures var s' := Step(s, Advance, amountOf);
            if Done(s) then Done(s') else Done(s') || Progress(s') < Progress(s)
  {
    match s.local
    case Reading(_) =>
      ReadProgress(s, amountOf);
      ReadWeight(s, amountOf);
      hide Step, UnreadWeight, Rank, Resting;
    case Consuming(_, _) =>
      OtherProgress(s, amountOf);
      ConsumeProgress(s, amountOf);
      hide Step, TotalWeight, Resting;
    case Sending(_, _, _) =>
      OtherProgress(s, amountOf);
      SendProgress(s, amountOf);
      hide Step, TotalWeight, Resting;
    case Announcing(_) =>
      OtherProgress(s, amountOf);
      SendProgress(s, amountOf);
      hide Step, TotalWeight, Resting;
    case Stopped =>
    case Down =>
  }

  lemma {:induction false} RunProgress(s: System, amountOf: Amounts, n: nat)
    requires Legal(s)
    ensures var s' := Exec(s, Advances(n), amountOf); Done(s') || Progress(s') <= Progress(s) - n
  {
    hide Step, Progress, Done;
    if n == 0 {
      assert Advances(0) == [];
    } else {
      assert Advances(n)[..n - 1] == Advances(n - 1);
      RunProgress(s, amountOf, n - 1);
      ProgressStep(Exec(s, Advances(n - 1), amountOf), amountOf);
    }
  }

  /** From any state, whatever the page boundaries, a runner left alone stops or comes to rest. */
  lemma StopsOrRests(s: System, amountOf: Amounts, n: nat)
    requires Legal(s) && n >= 6 * TotalWeight(s) + 6
    ensures Done(Exec(s, Advances(n), amountOf))
  {
    RunProgress(s, amountOf, n);
    hide Exec, TotalWeight, Done;
  }

  lemma {:induction false} ExecAppend(s: System, t: seq<Label>, t': seq<Label>, amountOf: Amounts)
    requires Legal(s)
    ensures Exec(s, t + t', amountOf) == Exec(Exec(s, t, amountOf), t', amountOf)
    decreases |t'|
  {
    hide Step, Legal;
    if t' == [] {
      assert t + t' == t;
    } else {
      assert (t + t')[..|t + t'| - 1] == t + t'[..|t'| - 1];
      ExecAppend(s, t, t'[..|t'| - 1], amountOf);
    }
  }
}
