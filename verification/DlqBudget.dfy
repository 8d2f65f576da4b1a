/**
 In every run of the protocol, crashes and restarts included: within one run of a consumer a
 message gets at most one budget of handler calls, and a dead letter costs exactly one.
 */
module DlqBudget {
  import opened Streams
  import opened DlqModel
  import opened DlqProtocol
  import opened DlqSafety

  function CallCount(u: Local, i: nat): nat {
    if u.Down? then 0 else multiset(u.calls)[i]
  }

  function AttemptsOf(u: Local, i: nat): nat {
    if u.Down? then 0 else Attempts(u.attempts, i)
  }

  /** The handler was called for `i` and its outcome is not in the attempt counter (yet, or ever). */
  predicate Running(u: Local, i: nat) {
    u.Busy? && u.msg.id == i && (u.stage.Handling? || u.stage.Marking? || u.stage.Acking?)
  }

  predicate Exhausted(u: Local, i: nat) {
    u.Busy? && u.msg.id == i && (u.stage.Burying? || u.stage.Adding?)
  }

  ghost predicate CountsAt(s: System, c: string, u: Local, k: Settings, i: nat) {
    && CallCount(u, i) <= Budget(k.maxAttempts)
    && (i >= s.db.main.next ==> CallCount(u, i) == 0 && AttemptsOf(u, i) == 0)
    && (Exhausted(u, i) ==> u.stage.attempt == CallCount(u, i) == Budget(k.maxAttempts))
    && (i in s.db.main.pending && s.db.main.pending[i] == c && !u.Down? ==>
          && CallCount(u, i) == AttemptsOf(u, i) + (if Running(u, i) then 1 else 0)
          && (AttemptsOf(u, i) < Budget(k.maxAttempts) || Exhausted(u, i)))
  }

  ghost predicate Counts(s: System, k: Settings) {
    forall c, i: nat :: CountsAt(s, c, LocalOf(s, c), k, i)
  }

  lemma HandlingCounts(s: System, c: string, outcome: Outcome, k: Settings, i: nat)
    requires LocalOf(s, c).Busy? && LocalOf(s, c).stage.Handling?
    requires CountsAt(s, c, LocalOf(s, c), k, i) && CountsAt(s, c, LocalOf(s, c), k, LocalOf(s, c).msg.id)
    requires WellFormed(s.db.main) && Holds(s, c, LocalOf(s, c))
    ensures var s' := Step(s, Advance(c, outcome), k); CountsAt(s', c, LocalOf(s', c), k, i)
  {
    hide OwnsAll;
  }

  lemma AckCounts(s: System, c: string, outcome: Outcome, k: Settings, i: nat)
    requires LocalOf(s, c).Busy? && LocalOf(s, c).stage.Acking?
    requires CountsAt(s, c, LocalOf(s, c), k, i) && CountsAt(s, c, LocalOf(s, c), k, LocalOf(s, c).msg.id)
    requires WellFormed(s.db.main) && Holds(s, c, LocalOf(s, c))
    ensures var s' := Step(s, Advance(c, outcome), k); CountsAt(s', c, LocalOf(s', c), k, i)
  {
    hide OwnsAll;
  }

  lemma AddCounts(s: System, c: string, outcome: Outcome, k: Settings, i: nat)
    requires LocalOf(s, c).Busy? && LocalOf(s, c).stage.Adding?
    requires CountsAt(s, c, LocalOf(s, c), k, i) && CountsAt(s, c, LocalOf(s, c), k, LocalOf(s, c).msg.id)
    requires WellFormed(s.db.main) && Holds(s, c, LocalOf(s, c))
    ensures var s' := Step(s, Advance(c, outcome), k); CountsAt(s', c, LocalOf(s', c), k, i)
  {
    hide OwnsAll;
  }

  lemma CheckCounts(s: System, c: string, outcome: Outcome, k: Settings, i: nat)
    requires LocalOf(s, c).Busy? && LocalOf(s, c).stage.Checking?
    requires CountsAt(s, c, LocalOf(s, c), k, i) && CountsAt(s, c, LocalOf(s, c), k, LocalOf(s, c).msg.id)
    requires WellFormed(s.db.main) && Holds(s, c, LocalOf(s, c))
    ensures var s' := Step(s, Advance(c, outcome), k); CountsAt(s', c, LocalOf(s', c), k, i)
  {
    hide OwnsAll;
  }

  lemma MarkCounts(s: System, c: string, outcome: Outcome, k: Settings, i: nat)
    requires LocalOf(s, c).Busy? && LocalOf(s, c).stage.Marking?
    requires CountsAt(s, c, LocalOf(s, c), k, i) && CountsAt(s, c, LocalOf(s, c), k, LocalOf(s, c).msg.id)
    requires WellFormed(s.db.main) && Holds(s, c, LocalOf(s, c))
    ensures var s' := Step(s, Advance(c, outcome), k); CountsAt(s', c, LocalOf(s', c), k, i)
  {
    hide OwnsAll;
  }

  lemma SkipCounts(s: System, c: string, outcome: Outcome, k: Settings, i: nat)
    requires LocalOf(s, c).Busy? && LocalOf(s, c).stage.Skipping?
    requires CountsAt(s, c, LocalOf(s, c), k, i) && CountsAt(s, c, LocalOf(s, c), k, LocalOf(s, c).msg.id)
    requires WellFormed(s.db.main) && Holds(s, c, LocalOf(s, c))
    ensures var s' := Step(s, Advance(c, outcome), k); CountsAt(s', c, LocalOf(s', c), k, i)
  {
    hide OwnsAll;
  }

  lemma BuryCounts(s: System, c: string, outcome: Outcome, k: Settings, i: nat)
    requires LocalOf(s, c).Busy? && LocalOf(s, c).stage.Burying?
    requires CountsAt(s, c, LocalOf(s, c), k, i) && CountsAt(s, c, LocalOf(s, c), k, LocalOf(s, c).msg.id)
    requires WellFormed(s.db.main) && Holds(s, c, LocalOf(s, c))
    ensures var s' := Step(s, Advance(c, outcome), k); CountsAt(s', c, LocalOf(s', c), k, i)
  {
    hide OwnsAll;
  }

  lemma BusyCounts(s: System, c: string, outcome: Outcome, k: Settings, i: nat)
    requires AllHold(s) && LocalOf(s, c).Busy? && CountsAt(s, c, LocalOf(s, c), k, i)
    requires CountsAt(s, c, LocalOf(s, c), k, LocalOf(s, c).msg.id)
    ensures var s' := Step(s, Advance(c, outcome), k); CountsAt(s', c, LocalOf(s', c), k, i)
  {
    assert Holds(s, c, LocalOf(s, c));
    hide Step, CountsAt, OwnsAll;
    match LocalOf(s, c).stage
    case Handling => HandlingCounts(s, c, outcome, k, i);
    case Acking => AckCounts(s, c, outcome, k, i);
    case Adding(_, _) => AddCounts(s, c, outcome, k, i);
    case Skipping => SkipCounts(s, c, outcome, k, i);
    case Burying(_, _) => BuryCounts(s, c, outcome, k, i);
    case Checking => CheckCounts(s, c, outcome, k, i);
    case Marking => MarkCounts(s, c, outcome, k, i);
  }

  lemma OtherCounts(s: System, l: Label, k: Settings, i: nat)
    requires AllHold(s) && CountsAt(s, Actor(l), LocalOf(s, Actor(l)), k, i)
    requires l.Advance? ==> !LocalOf(s, l.consumer).Busy?
    ensures CountsAt(Step(s, l, k), Actor(l), LocalOf(Step(s, l, k), Actor(l)), k, i)
  {
    StepEvolves(s, l, k);
    hide AllHold, OwnsAll, Taken, PendingIds, NewIds, Assign;
  }

  lemma FrameCounts(s: System, s': System, actor: string, k: Settings, c: string, i: nat)
    requires Evolves(s, s', actor) && OthersKeep(s, s', actor) && c != actor
    requires CountsAt(s, c, LocalOf(s, c), k, i)
    ensures CountsAt(s', c, LocalOf(s', c), k, i)
  {
    assert LocalOf(s', c) == LocalOf(s, c);
  }

  lemma StepCounts(s: System, l: Label, k: Settings)
    requires AllHold(s) && Counts(s, k)
    ensures Counts(Step(s, l, k), k)
  {
    var s' := Step(s, l, k);
    StepEvolves(s, l, k);
    StepKeepsOthers(s, l, k);
    forall c, i: nat ensures CountsAt(s', c, LocalOf(s', c), k, i) {
      assert CountsAt(s, c, LocalOf(s, c), k, i);
      if c != Actor(l) {
        FrameCounts(s, s', Actor(l), k, c, i);
      } else if l.Advance? && LocalOf(s, c).Busy? {
        assert CountsAt(s, c, LocalOf(s, c), k, LocalOf(s, c).msg.id);
        BusyCounts(s, c, l.outcome, k, i);
      } else {
        OtherCounts(s, l, k, i);
      }
    }
    hide Step, Counts;
  }

  /** Handler calls on one message are at most one budget per run, whatever crashed before. */
  lemma {:induction false} RunCounts(trace: seq<Label>, k: Settings)
    ensures Counts(Exec(Initial(), trace, k), k)
  {
    hide Step, AllHold;
    if trace == [] {
    } else {
      hide Counts;
      RunCounts(trace[..|trace| - 1], k);
      RunHolds(trace[..|trace| - 1], k);
      StepCounts(Exec(Initial(), trace[..|trace| - 1], k), trace[|trace| - 1], k);
    }
  }
}
