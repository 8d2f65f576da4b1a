/**
 Where every published message is, in every run of the protocol: undelivered, pending,
 settled, dead-lettered, on its way between the two streams, or lost to a crash that fell
 between the ack on main and the append to the dead-letter stream.
 */
module DlqAccounting {
  import opened Streams
  import opened DlqModel
  import opened DlqProtocol
  import opened DlqSafety
  import opened DlqBudget

  /** The crash that hit a consumer between XACK and XADD of a dead-letter move. */
  predicate LosesMessage(r: CrashRecord) {
    r.local.Busy? && r.local.stage.Adding?
  }

  function LostIds(crashes: seq<CrashRecord>): set<nat> {
    if crashes == [] then {}
    else LostIds(crashes[..|crashes| - 1]) +
         if LosesMessage(crashes[|crashes| - 1]) then {crashes[|crashes| - 1].local.msg.id} else {}
  }

  function LosingCrashes(crashes: seq<CrashRecord>): nat {
    if crashes == [] then 0
    else LosingCrashes(crashes[..|crashes| - 1]) + if LosesMessage(crashes[|crashes| - 1]) then 1 else 0
  }

  /** `c` has acked `i` on main and has not appended its letter. */
  ghost predicate Moves(s: System, c: string, i: nat) {
    var u := LocalOf(s, c);
    u.Busy? && u.stage.Adding? && u.msg.id == i
  }

  ghost predicate Gone(s: System, i: nat) {
    i < s.db.main.next && i !in s.db.main.pending
  }

  ghost predicate IsSettled(s: System, i: nat) {
    i in s.history.settled
  }

  ghost predicate IsBuried(s: System, i: nat) {
    i in s.history.buried
  }

  ghost predicate IsLost(s: System, i: nat) {
    i in LostIds(s.history.crashes)
  }

  /** A message that left the pending list is in exactly one of four places. */
  ghost predicate Fate(s: System, i: nat) {
    && (Gone(s, i) ==> IsSettled(s, i) || IsBuried(s, i) || IsLost(s, i) || exists c :: Moves(s, c, i))
    && (IsSettled(s, i) || IsBuried(s, i) || IsLost(s, i) ==> Gone(s, i))
    && !(IsSettled(s, i) && IsBuried(s, i)) && !(IsSettled(s, i) && IsLost(s, i)) && !(IsBuried(s, i) && IsLost(s, i))
    && (forall c :: Moves(s, c, i) ==> Gone(s, i) && !IsSettled(s, i) && !IsBuried(s, i) && !IsLost(s, i))
    && (forall c, d :: Moves(s, c, i) && Moves(s, d, i) ==> c == d)
  }

  /** A settled message's payment id is in the processed set, and so is one about to be settled. */
  ghost predicate Vouched(s: System) {
    && (forall i :: i in s.history.settled ==> i < |s.db.main.log| && s.db.main.log[i].paymentId in s.db.processed)
    && (forall c :: var u := LocalOf(s, c);
          u.Busy? && (u.stage.Skipping? || u.stage.Acking?) ==> u.msg.payment.paymentId in s.db.processed)
  }

  /** The dead-letter stream is one letter per buried message, in the order they were buried. */
  ghost predicate Letters(s: System, k: Settings) {
    && |s.db.dlq| == |s.history.buried|
    && (forall j :: 0 <= j < |s.db.dlq| ==>
          && s.history.buried[j] < |s.db.main.log|
          && s.db.dlq[j].payment == s.db.main.log[s.history.buried[j]]
          && s.db.dlq[j].attempt == Budget(k.maxAttempts))
    && (forall a, b :: 0 <= a < b < |s.history.buried| ==> s.history.buried[a] != s.history.buried[b])
  }

  lemma FateOfUntouched(s: System, s': System, i: nat)
    requires Fate(s, i) && (Gone(s, i) <==> Gone(s', i))
    requires (IsSettled(s, i) <==> IsSettled(s', i)) && (IsBuried(s, i) <==> IsBuried(s', i))
             && (IsLost(s, i) <==> IsLost(s', i))
    requires forall c :: Moves(s, c, i) <==> Moves(s', c, i)
    ensures Fate(s', i)
  {
    hide Gone, IsSettled, IsBuried, IsLost, Moves;
  }

  lemma MovesFrame(s: System, c: string, outcome: Outcome, k: Settings, i: nat)
    requires s.db.main.next <= |s.db.main.log| && LocalOf(s, c).Busy?
    ensures var s' := Step(s, Advance(c, outcome), k);
            && (forall d :: d != c ==> (Moves(s', d, i) <==> Moves(s, d, i)))
            && (i != LocalOf(s, c).msg.id ==> !Moves(s, c, i) && !Moves(s', c, i))
  {
  }

  lemma PlacesFrame(s: System, c: string, outcome: Outcome, k: Settings, i: nat)
    requires s.db.main.next <= |s.db.main.log| && LocalOf(s, c).Busy? && i != LocalOf(s, c).msg.id
    ensures var s' := Step(s, Advance(c, outcome), k);
            && (Gone(s, i) <==> Gone(s', i)) && (IsSettled(s, i) <==> IsSettled(s', i))
            && (IsBuried(s, i) <==> IsBuried(s', i)) && (IsLost(s, i) <==> IsLost(s', i))
  {
    hide LostIds, Begin;
  }

  lemma FateOfOthers(s: System, c: string, outcome: Outcome, k: Settings, i: nat)
    requires s.db.main.next <= |s.db.main.log| && LocalOf(s, c).Busy? && Fate(s, i) && i != LocalOf(s, c).msg.id
    ensures Fate(Step(s, Advance(c, outcome), k), i)
  {
    PlacesFrame(s, c, outcome, k, i);
    MovesFrame(s, c, outcome, k, i);
    hide Step, Fate, Moves, Gone, IsSettled, IsBuried, IsLost;
    FateOfUntouched(s, Step(s, Advance(c, outcome), k), i);
  }

  /** Only a settling ack, a move's ack and a letter change where the current message is. */
  lemma FateOfCurrent(s: System, c: string, outcome: Outcome, k: Settings)
    requires s.db.main.next <= |s.db.main.log| && LocalOf(s, c).Busy?
    requires WellFormed(s.db.main) && Holds(s, c, LocalOf(s, c)) && Fate(s, LocalOf(s, c).msg.id)
    ensures Fate(Step(s, Advance(c, outcome), k), LocalOf(s, c).msg.id)
  {
    var u := LocalOf(s, c);
    var s' := Step(s, Advance(c, outcome), k);
    MovesFrame(s, c, outcome, k, u.msg.id);
    hide OwnsAll, LostIds;
    if u.stage.Burying? {
      assert Moves(s', c, u.msg.id);
    } else if u.stage.Adding? {
      assert Moves(s, c, u.msg.id);
    }
  }

  lemma LostAfterCrash(crashes: seq<CrashRecord>, r: CrashRecord)
    ensures LostIds(crashes + [r]) == LostIds(crashes) + if LosesMessage(r) then {r.local.msg.id} else {}
    ensures LosingCrashes(crashes + [r]) == LosingCrashes(crashes) + if LosesMessage(r) then 1 else 0
  {
    assert (crashes + [r])[..|crashes|] == crashes;
  }

  lemma FateOfCrash(s: System, c: string, k: Settings, i: nat)
    requires s.db.main.next <= |s.db.main.log| && Fate(s, i)
    ensures Fate(Step(s, Crash(c), k), i)
  {
    var s' := Step(s, Crash(c), k);
    LostAfterCrash(s.history.crashes, CrashRecord(c, LocalOf(s, c)));
    hide LostIds;
    assert forall d :: d != c ==> (Moves(s', d, i) <==> Moves(s, d, i));
    if Moves(s, c, i) {
      assert IsLost(s', i);
    } else {
      FateOfUntouched(s, s', i);
    }
  }

  lemma FateOfIdle(s: System, l: Label, k: Settings, i: nat)
    requires AllHold(s) && Fate(s, i) && !l.Crash?
    requires l.Advance? ==> !LocalOf(s, l.consumer).Busy?
    ensures Fate(Step(s, l, k), i)
  {
    var s' := Step(s, l, k);
    assert s'.history == s.history;
    assert forall d :: Moves(s', d, i) <==> Moves(s, d, i);
    if l.Advance? && LocalOf(s, l.consumer).Idle? {
      var ids := NewIds(s.db.main, k.count);
      if s.db.main.next <= i < s'.db.main.next {
        assert ids[i - s.db.main.next] == i;
      }
    }
    assert Gone(s, i) <==> Gone(s', i);
    hide Fate, Step, Moves;
    FateOfUntouched(s, s', i);
  }

  ghost predicate Fates(s: System) {
    forall i: nat :: Fate(s, i)
  }

  lemma StepFates(s: System, l: Label, k: Settings)
    requires AllHold(s) && Fates(s)
    ensures Fates(Step(s, l, k))
  {
    hide Step, Fate, LostIds;
    forall i: nat ensures Fate(Step(s, l, k), i) {
      assert Fate(s, i);
      if l.Advance? && LocalOf(s, l.consumer).Busy? {
        var id := LocalOf(s, l.consumer).msg.id;
        assert Holds(s, l.consumer, LocalOf(s, l.consumer)) && Fate(s, id);
        if i == id {
          FateOfCurrent(s, l.consumer, l.outcome, k);
        } else {
          FateOfOthers(s, l.consumer, l.outcome, k, i);
        }
      } else if l.Crash? {
        FateOfCrash(s, l.consumer, k, i);
      } else {
        FateOfIdle(s, l, k, i);
      }
    }
  }

  lemma StepVouches(s: System, l: Label, k: Settings)
    requires AllHold(s) && Vouched(s)
    ensures Vouched(Step(s, l, k))
  {
    StepEvolves(s, l, k);
    StepKeepsOthers(s, l, k);
    var s', c := Step(s, l, k), Actor(l);
    assert Holds(s, c, LocalOf(s, c));
    VouchedActor(s, l, k);
    VouchedHistory(s, l, k);
    hide Step, AllHold, Holds, Evolves;
    assert s.db.processed <= s'.db.processed;
  }

  lemma VouchedActor(s: System, l: Label, k: Settings)
    requires s.db.main.next <= |s.db.main.log| && Vouched(s)
    ensures var s' := Step(s, l, k); var u := LocalOf(s', Actor(l));
            && s.db.processed <= s'.db.processed
            && (u.Busy? && (u.stage.Skipping? || u.stage.Acking?) ==> u.msg.payment.paymentId in s'.db.processed)
  {
    var u := LocalOf(s, Actor(l));
    assert u.Busy? && (u.stage.Skipping? || u.stage.Acking?) ==> u.msg.payment.paymentId in s.db.processed;
    if l.Advance? && u.Busy? {
      assert Step(s, l, k) == BusyStep(s, l.consumer, u, l.outcome, k);
    }
  }

  lemma VouchedHistory(s: System, l: Label, k: Settings)
    requires AllHold(s) && Vouched(s)
    ensures var s' := Step(s, l, k);
            forall i :: i in s'.history.settled ==>
              (i in s.history.settled || (i < |s.db.main.log| && s.db.main.log[i].paymentId in s.db.processed))
  {
    assert Holds(s, Actor(l), LocalOf(s, Actor(l)));
    hide OwnsAll;
  }

  lemma AddingLetters(s: System, c: string, outcome: Outcome, k: Settings)
    requires AllHold(s) && Letters(s, k) && Fates(s) && Counts(s, k)
    requires LocalOf(s, c).Busy? && LocalOf(s, c).stage.Adding?
    ensures Letters(BusyStep(s, c, LocalOf(s, c), outcome, k), k)
  {
    var u := LocalOf(s, c);
    assert Holds(s, c, u);
    assert Fate(s, u.msg.id) && Moves(s, c, u.msg.id) && CountsAt(s, c, u, k, u.msg.id);
    hide AllHold, Fates, Counts, Holds, OwnsAll, Begin;
  }

  lemma KeptLetters(s: System, s': System, k: Settings)
    requires Letters(s, k) && s'.db.dlq == s.db.dlq && s'.history.buried == s.history.buried
    requires |s.db.main.log| <= |s'.db.main.log| && s'.db.main.log[..|s.db.main.log|] == s.db.main.log
    ensures Letters(s', k)
  {
    forall j | 0 <= j < |s.history.buried|
      ensures s.history.buried[j] < |s.db.main.log|
      ensures s'.db.main.log[s.history.buried[j]] == s.db.main.log[s.history.buried[j]]
    {
      var i := s.history.buried[j];
      assert s'.db.main.log[i] == s'.db.main.log[..|s.db.main.log|][i];
    }
  }

  lemma StepBuriesNothing(s: System, l: Label, k: Settings)
    requires s.db.main.next <= |s.db.main.log|
    requires var u := LocalOf(s, Actor(l)); !(l.Advance? && u.Busy? && u.stage.Adding?)
    ensures var s' := Step(s, l, k); s'.db.dlq == s.db.dlq && s'.history.buried == s.history.buried
  {
  }

  lemma StepLetters(s: System, l: Label, k: Settings)
    requires AllHold(s) && Letters(s, k) && Fates(s) && Counts(s, k)
    ensures Letters(Step(s, l, k), k)
  {
    var u := LocalOf(s, Actor(l));
    if l.Advance? && u.Busy? && u.stage.Adding? {
      AddingLetters(s, l.consumer, l.outcome, k);
      hide BusyStep, Letters, AllHold, Fates, Counts;
    } else {
      StepEvolves(s, l, k);
      StepBuriesNothing(s, l, k);
      KeptLetters(s, Step(s, l, k), k);
      hide Step, Letters, AllHold, Fates, Counts;
    }
  }

  ghost predicate Accounted(s: System, k: Settings) {
    Fates(s) && Vouched(s) && Letters(s, k)
  }

  /** In every run: each message is in exactly one place and the dead-letter stream holds exactly the buried ones. */
  lemma {:induction false} RunAccounted(trace: seq<Label>, k: Settings)
    ensures Accounted(Exec(Initial(), trace, k), k)
  {
    hide Step, AllHold, Counts;
    if trace == [] {
    } else {
      hide Fates, Vouched, Letters;
      var before := Exec(Initial(), trace[..|trace| - 1], k);
      RunAccounted(trace[..|trace| - 1], k);
      RunHolds(trace[..|trace| - 1], k);
      RunCounts(trace[..|trace| - 1], k);
      StepFates(before, trace[|trace| - 1], k);
      StepVouches(before, trace[|trace| - 1], k);
      StepLetters(before, trace[|trace| - 1], k);
    }
  }

  lemma {:induction false} LostAtMostOncePerCrash(crashes: seq<CrashRecord>)
    ensures |LostIds(crashes)| <= LosingCrashes(crashes) <= |crashes|
  {
    if crashes == [] {
    } else {
      LostAtMostOncePerCrash(crashes[..|crashes| - 1]);
    }
  }

  /** A message that is pending on main is not in the dead-letter stream, in any reachable state. */
  lemma NeverPendingAndDead(trace: seq<Label>, k: Settings, i: nat)
    ensures var s := Exec(Initial(), trace, k); !(i in s.db.main.pending && i in s.history.buried)
  {
    RunAccounted(trace, k);
    hide Exec;
    assert Fate(Exec(Initial(), trace, k), i);
  }

  /**
   Nothing is lost except to crashes between the two commands of a move: with no consumer inside
   a move, a published message is undelivered, pending, acked with its payment marked as
   processed, dead-lettered, or one of at most one message per such crash.
   */
  lemma NothingElseIsLost(trace: seq<Label>, k: Settings, i: nat)
    requires var s := Exec(Initial(), trace, k); i < |s.db.main.log| && forall c :: !Moves(s, c, i)
    ensures var s := Exec(Initial(), trace, k);
            && (i >= s.db.main.next || i in s.db.main.pending || s.db.main.log[i].paymentId in s.db.processed
                || i in s.history.buried || i in LostIds(s.history.crashes))
            && |LostIds(s.history.crashes)| <= LosingCrashes(s.history.crashes)
  {
    var s := Exec(Initial(), trace, k);
    RunAccounted(trace, k);
    LostAtMostOncePerCrash(s.history.crashes);
    hide Exec, LostIds, LosingCrashes;
    assert Fate(s, i);
  }

  lemma LostStaysLost(s: System, l: Label, k: Settings, i: nat)
    requires s.db.main.next <= |s.db.main.log| && IsLost(s, i)
    ensures IsLost(Step(s, l, k), i)
  {
    hide LostIds;
    if l.Crash? {
      LostAfterCrash(s.history.crashes, CrashRecord(l.consumer, LocalOf(s, l.consumer)));
    }
  }

  lemma {:induction false} LostForGood(s: System, later: seq<Label>, k: Settings, i: nat)
    requires s.db.main.next <= |s.db.main.log| && IsLost(s, i)
    ensures IsLost(Exec(s, later, k), i)
    decreases |later|
  {
    hide Step, IsLost;
    if later == [] {
    } else {
      LostForGood(s, later[..|later| - 1], k, i);
      LostStaysLost(Exec(s, later[..|later| - 1], k), later[|later| - 1], k, i);
    }
  }

  /**
   The bound on lost messages is attained: whenever a consumer crashes between the two commands
   of a move, its message is never pending and never dead-lettered again, whatever follows.
   */
  lemma CrashInMoveLosesTheMessage(trace: seq<Label>, later: seq<Label>, k: Settings, c: string, i: nat)
    requires Moves(Exec(Initial(), trace, k), c, i)
    ensures var s := Exec(Initial(), trace + [Crash(c)] + later, k);
            i !in s.db.main.pending && i !in s.history.buried && i !in s.history.settled
  {
    var s := Exec(Initial(), trace, k);
    var s' := Step(s, Crash(c), k);
    LostAfterCrash(s.history.crashes, CrashRecord(c, LocalOf(s, c)));
    assert IsLost(s', i);
    hide Step, LostIds;
    assert (trace + [Crash(c)])[..|trace|] == trace;
    LostForGood(s', later, k, i);
    ExecAppend(Initial(), trace + [Crash(c)], later, k);
    RunAccounted(trace + [Crash(c)] + later, k);
    assert Fate(Exec(Initial(), trace + [Crash(c)] + later, k), i);
  }
}
