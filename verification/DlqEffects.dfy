/**
 How often a payment takes effect. The processed set is written after the handler returns, so
 a crash between the two repeats the effect, and nothing else does.
 */
module DlqEffects {
  import opened DlqModel
  import opened DlqProtocol

  function Successes(s: System, c: string, paymentId: string): nat {
    multiset(s.history.charges)[Charge(c, paymentId)]
  }

  function CallsMade(s: System, c: string, paymentId: string): nat {
    multiset(s.history.calls)[Charge(c, paymentId)]
  }

  predicate LateCrash(r: CrashRecord, c: string, paymentId: string) {
    r.consumer == c && r.local.Busy? && r.local.stage.Marking? && r.local.msg.payment.paymentId == paymentId
  }

  /** Crashes of `c` between the handler's return for a payment and the write to the processed set. */
  function LateCrashes(crashes: seq<CrashRecord>, c: string, paymentId: string): nat {
    if crashes == [] then 0
    else LateCrashes(crashes[..|crashes| - 1], c, paymentId) +
         if LateCrash(crashes[|crashes| - 1], c, paymentId) then 1 else 0
  }

  predicate WorksOn(u: Local, paymentId: string) {
    u.Busy? && u.msg.payment.paymentId == paymentId
  }

  /** The successes of one consumer for one payment, bounded by where it is now. */
  ghost predicate EffectBound(s: System, c: string, paymentId: string) {
    var u := LocalOf(s, c);
    var n, m := Successes(s, c, paymentId), LateCrashes(s.history.crashes, c, paymentId);
    if WorksOn(u, paymentId) && u.stage.Handling? then n <= m
    else if WorksOn(u, paymentId) && u.stage.Marking? then n <= m + 1
    else n <= m + if paymentId in s.db.processed then 1 else 0
  }

  lemma LateAfterCrash(crashes: seq<CrashRecord>, r: CrashRecord, c: string, paymentId: string)
    ensures LateCrashes(crashes + [r], c, paymentId) ==
            LateCrashes(crashes, c, paymentId) + if LateCrash(r, c, paymentId) then 1 else 0
  {
    assert (crashes + [r])[..|crashes|] == crashes;
  }

  lemma EffectOfCrash(s: System, d: string, k: Settings, c: string, paymentId: string)
    requires s.db.main.next <= |s.db.main.log| && EffectBound(s, c, paymentId)
    ensures EffectBound(Step(s, Crash(d), k), c, paymentId)
  {
    LateAfterCrash(s.history.crashes, CrashRecord(d, LocalOf(s, d)), c, paymentId);
    hide LateCrashes;
  }

  lemma EffectOfOwnWork(s: System, c: string, outcome: Outcome, k: Settings, paymentId: string)
    requires WorksOn(LocalOf(s, c), paymentId) && EffectBound(s, c, paymentId)
    ensures EffectBound(BusyStep(s, c, LocalOf(s, c), outcome, k), c, paymentId)
  {
    hide LateCrashes;
  }

  lemma EffectOfOtherWork(s: System, d: string, outcome: Outcome, k: Settings, c: string, paymentId: string)
    requires LocalOf(s, d).Busy? && EffectBound(s, c, paymentId) && (c != d || !WorksOn(LocalOf(s, d), paymentId))
    ensures EffectBound(BusyStep(s, d, LocalOf(s, d), outcome, k), c, paymentId)
  {
    var s' := BusyStep(s, d, LocalOf(s, d), outcome, k);
    assert s'.history.crashes == s.history.crashes;
    assert Successes(s', c, paymentId) == Successes(s, c, paymentId);
    assert paymentId in s.db.processed ==> paymentId in s'.db.processed;
    hide LateCrashes, Successes, AckMain;
  }

  lemma EffectOfWork(s: System, d: string, outcome: Outcome, k: Settings, c: string, paymentId: string)
    requires LocalOf(s, d).Busy? && EffectBound(s, c, paymentId)
    ensures EffectBound(BusyStep(s, d, LocalOf(s, d), outcome, k), c, paymentId)
  {
    hide EffectBound, BusyStep;
    if c == d && WorksOn(LocalOf(s, d), paymentId) {
      EffectOfOwnWork(s, c, outcome, k, paymentId);
    } else {
      EffectOfOtherWork(s, d, outcome, k, c, paymentId);
    }
  }

  lemma EffectOfIdle(s: System, l: Label, k: Settings, c: string, paymentId: string)
    requires s.db.main.next <= |s.db.main.log| && EffectBound(s, c, paymentId) && !l.Crash?
    requires l.Advance? ==> !LocalOf(s, l.consumer).Busy?
    ensures EffectBound(Step(s, l, k), c, paymentId)
  {
    hide LateCrashes;
  }

  lemma EffectStep(s: System, l: Label, k: Settings, c: string, paymentId: string)
    requires s.db.main.next <= |s.db.main.log| && EffectBound(s, c, paymentId)
    ensures EffectBound(Step(s, l, k), c, paymentId)
  {
    hide LateCrashes, EffectBound, BusyStep;
    if l.Crash? {
      EffectOfCrash(s, l.consumer, k, c, paymentId);
    } else if l.Advance? && LocalOf(s, l.consumer).Busy? {
      EffectOfWork(s, l.consumer, l.outcome, k, c, paymentId);
    } else {
      EffectOfIdle(s, l, k, c, paymentId);
    }
  }

  /**
   In every run, with any number of consumers, restarts and crashes: a consumer name completes the
   handler for a payment at most once more than it crashed between that and recording the payment.
   */
  lemma {:induction false} EffectsAreBounded(trace: seq<Label>, k: Settings, c: string, paymentId: string)
    ensures var s := Exec(Initial(), trace, k);
            && EffectBound(s, c, paymentId)
            && Successes(s, c, paymentId) <= 1 + LateCrashes(s.history.crashes, c, paymentId)
  {
    hide Step, LateCrashes;
    if trace == [] {
      assert LateCrashes([], c, paymentId) >= 0;
    } else {
      EffectsAreBounded(trace[..|trace| - 1], k, c, paymentId);
      EffectStep(Exec(Initial(), trace[..|trace| - 1], k), trace[|trace| - 1], k, c, paymentId);
    }
  }

  /** Only one consumer name ever acts; publishers are free. */
  ghost predicate Solo(trace: seq<Label>, c: string) {
    forall j :: 0 <= j < |trace| ==> trace[j].Publish? || trace[j].consumer == c
  }

  /** The lone consumer only ever works past the check on payments that are not marked. */
  ghost predicate Guarded(s: System, c: string) {
    && (forall d :: d != c ==> LocalOf(s, d).Down?)
    && var u := LocalOf(s, c);
       u.Busy? && (u.stage.Handling? || u.stage.Marking? || u.stage.Burying? || u.stage.Adding?) ==>
         u.msg.payment.paymentId !in s.db.processed
  }

  lemma GuardStep(s: System, l: Label, k: Settings, c: string)
    requires s.db.main.next <= |s.db.main.log| && Guarded(s, c) && (l.Publish? || l.consumer == c)
    ensures Guarded(Step(s, l, k), c)
  {
    var s' := Step(s, l, k);
    assert forall d :: d != c ==> LocalOf(s', d) == LocalOf(s, d);
  }

  lemma {:induction false} SoloIsGuarded(trace: seq<Label>, k: Settings, c: string)
    requires Solo(trace, c)
    ensures Guarded(Exec(Initial(), trace, k), c)
  {
    hide Step;
    if trace == [] {
    } else {
      SoloIsGuarded(trace[..|trace| - 1], k, c);
      hide Guarded;
      GuardStep(Exec(Initial(), trace[..|trace| - 1], k), trace[|trace| - 1], k, c);
    }
  }

  function LettersFor(dlq: seq<DeadLetter>, paymentId: string): nat {
    if dlq == [] then 0
    else LettersFor(dlq[..|dlq| - 1], paymentId) + if dlq[|dlq| - 1].payment.paymentId == paymentId then 1 else 0
  }

  lemma MarkedStep(s: System, l: Label, k: Settings, c: string, paymentId: string)
    requires s.db.main.next <= |s.db.main.log| && Guarded(s, c) && (l.Publish? || l.consumer == c)
    requires paymentId in s.db.processed
    ensures var s' := Step(s, l, k);
            && paymentId in s'.db.processed
            && CallsMade(s', c, paymentId) == CallsMade(s, c, paymentId)
            && Successes(s', c, paymentId) == Successes(s, c, paymentId)
            && LettersFor(s'.db.dlq, paymentId) == LettersFor(s.db.dlq, paymentId)
  {
    if l.Advance? && LocalOf(s, c).Busy? {
      MarkedWork(s, l.outcome, k, c, paymentId);
    }
    hide LettersFor, BusyStep;
  }

  lemma MarkedWork(s: System, outcome: Outcome, k: Settings, c: string, paymentId: string)
    requires Guarded(s, c) && LocalOf(s, c).Busy? && paymentId in s.db.processed
    ensures var s' := BusyStep(s, c, LocalOf(s, c), outcome, k);
            && paymentId in s'.db.processed
            && CallsMade(s', c, paymentId) == CallsMade(s, c, paymentId)
            && Successes(s', c, paymentId) == Successes(s, c, paymentId)
            && LettersFor(s'.db.dlq, paymentId) == LettersFor(s.db.dlq, paymentId)
  {
    var s' := BusyStep(s, c, LocalOf(s, c), outcome, k);
    if s'.db.dlq != s.db.dlq {
      assert s'.db.dlq[..|s'.db.dlq| - 1] == s.db.dlq;
    }
    hide LettersFor;
  }

  /**
   One consumer name, any crashes and restarts: once a payment is marked as processed no later
   handler call, success or dead letter is for it, however often it is published again.
   */
  lemma {:induction false} MarkedIsFinal(trace: seq<Label>, later: seq<Label>, k: Settings, c: string,
      paymentId: string)
    requires Solo(trace + later, c) && paymentId in Exec(Initial(), trace, k).db.processed
    ensures var s, s' := Exec(Initial(), trace, k), Exec(Initial(), trace + later, k);
            && paymentId in s'.db.processed
            && CallsMade(s', c, paymentId) == CallsMade(s, c, paymentId)
            && Successes(s', c, paymentId) == Successes(s, c, paymentId)
            && LettersFor(s'.db.dlq, paymentId) == LettersFor(s.db.dlq, paymentId)
    decreases |later|
  {
    hide Step, LettersFor, CallsMade, Successes, Guarded;
    if later == [] {
      assert trace + later == trace;
    } else {
      var before := later[..|later| - 1];
      assert (trace + later)[..|trace + later| - 1] == trace + before;
      forall j | 0 <= j < |trace + before| ensures (trace + before)[j] == (trace + later)[j] {
      }
      assert Solo(trace + before, c);
      MarkedIsFinal(trace, before, k, c, paymentId);
      SoloIsGuarded(trace + before, k, c);
      var l := (trace + later)[|trace + later| - 1];
      MarkedStep(Exec(Initial(), trace + before, k), l, k, c, paymentId);
    }
  }
}
