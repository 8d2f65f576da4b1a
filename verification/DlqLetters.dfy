/**
 What ends up in the dead-letter stream: each letter is its message after exactly one
 budget of handler calls and, when the handler fails exactly on poison payments, the
 letters are exactly the poison messages in publish order.
 */
module DlqLetters {
  import opened Streams
  import opened DlqModel
  import opened DlqDrain
  import opened DlqOrder

  function CallsFor(r: Run, id: nat): nat {
    multiset(r.calls)[id]
  }

  /** The attempt counter is the number of calls made for a pending message. */
  ghost predicate CountedAt(r: Run, c: Config, i: nat) {
    && (i in r.db.main.pending ==> CallsFor(r, i) == Attempts(r.attempts, i))
    && (i >= r.db.main.next ==> CallsFor(r, i) == 0)
    && CallsFor(r, i) <= Budget(c.maxAttempts)
  }

  ghost predicate Counted(r: Run, c: Config) {
    forall i: nat :: CountedAt(r, c, i)
  }

  /** A dead message has left the main stream and has used its whole budget. */
  ghost predicate Spent(r: Run, c: Config) {
    forall k :: 0 <= k < |r.dead| ==>
      CallsFor(r, r.dead[k]) == Budget(c.maxAttempts) && r.dead[k] < r.db.main.next && r.dead[k] !in r.db.main.pending
  }

  /** The k-th new letter carries the payment of the k-th dead message and the attempt that spent its budget. */
  ghost predicate LetterAt(r: Run, c: Config, base: seq<DeadLetter>, k: nat) {
    && k < |r.dead| && r.dead[k] < |r.db.main.log| && |base| + k < |r.db.dlq|
    && r.db.dlq[|base| + k].payment == r.db.main.log[r.dead[k]]
    && r.db.dlq[|base| + k].attempt == Budget(c.maxAttempts)
  }

  /** The dead-letter stream is what it was plus one letter per dead message, in order. */
  ghost predicate Lettered(r: Run, c: Config, base: seq<DeadLetter>) {
    && |r.db.dlq| == |base| + |r.dead| && base <= r.db.dlq
    && forall k: nat :: k < |r.dead| ==> LetterAt(r, c, base, k)
  }

  ghost predicate AlwaysFails(handler: Handler) {
    forall k: nat, p: Payment :: handler(k, p).Raised?
  }

  ghost predicate Ascending(ks: seq<nat>) {
    forall a, b :: 0 <= a < b < |ks| ==> ks[a] < ks[b]
  }

  /**
   The handler raises on poison payments whenever it is called, and on any other payment in fewer
   calls than a budget.
   */
  ghost predicate FailsOn(handler: Handler, poison: string -> bool, budget: nat) {
    && (forall k: nat, p: Payment :: poison(p.paymentId) ==> handler(k, p).Raised?)
    && (forall p: Payment, ks: seq<nat> :: !poison(p.paymentId) && RaisesAt(handler, p, ks) ==> |ks| < budget)
  }

  ghost predicate RaisesAt(handler: Handler, p: Payment, ks: seq<nat>) {
    Ascending(ks) && forall j :: 0 <= j < |ks| ==> handler(ks[j], p).Raised?
  }

  /** Every call made so far for a message that is pending or dead raised. */
  ghost predicate Unsuccessful(r: Run, handler: Handler) {
    forall k :: 0 <= k < |r.calls| ==>
      && r.calls[k] < r.db.main.next <= |r.db.main.log|
      && (r.calls[k] in r.db.main.pending || r.calls[k] in r.dead ==>
            handler(k, r.db.main.log[r.calls[k]]).Raised?)
  }

  /** From message `start` on, no poison message was settled except by its death. */
  ghost predicate Sorted(r: Run, handler: Handler, poison: string -> bool, start: nat) {
    && (forall p :: p in r.db.processed ==> !poison(p))
    && (forall i :: i in r.db.main.pending ==> i >= start)
    && (forall k :: 0 <= k < |r.dead| ==> r.dead[k] >= start)
    && r.db.main.next <= |r.db.main.log|
    && (forall i :: start <= i < r.db.main.next && i !in r.db.main.pending && poison(r.db.main.log[i].paymentId) ==>
          i in r.dead)
    && Unsuccessful(r, handler)
  }

  ghost predicate Tallied(r: Run, c: Config, base: seq<DeadLetter>) {
    Sound(r, c) && Counted(r, c) && Spent(r, c) && Lettered(r, c, base)
  }

  lemma CountedSettle(r: Run, id: nat, c: Config, i: nat)
    requires Sound(r, c) && id in r.db.main.pending && CountedAt(r, c, i) && CountedAt(r, c, id)
    ensures CountedAt(Skip(r, id), c, i) && CountedAt(Succeed(r, id), c, i)
  {
    hide Budget;
  }

  lemma CountedFail(r: Run, id: nat, c: Config, reason: string, i: nat)
    requires Sound(r, c) && id in r.db.main.pending && CountedAt(r, c, i) && CountedAt(r, c, id)
    ensures CountedAt(Fail(r, id, reason, c.maxAttempts), c, i)
  {
  }

  lemma CountedStep(r: Run, id: nat, c: Config, i: nat)
    requires Sound(r, c) && id in r.db.main.pending && CountedAt(r, c, i) && CountedAt(r, c, id)
    ensures CountedAt(HandleOne(r, id, c), c, i)
  {
    CountedSettle(r, id, c, i);
    var outcome := c.handler(|r.calls|, r.db.main.log[id]);
    if outcome.Raised? {
      CountedFail(r, id, c, outcome.reason, i);
    }
    hide Skip, Succeed, Fail, CountedAt;
  }

  lemma SpentStep(r: Run, id: nat, c: Config)
    requires Sound(r, c) && id in r.db.main.pending && Counted(r, c) && Spent(r, c)
    ensures Spent(HandleOne(r, id, c), c)
  {
    assert CountedAt(r, c, id);
    var r' := HandleOne(r, id, c);
    if r'.dead == r.dead + [id] {
      assert CallsFor(r', id) == Budget(c.maxAttempts);
    } else {
      assert r'.dead == r.dead;
    }
  }

  /** A delivery adds at most one dead message, together with its letter. */
  lemma DeadGrows(r: Run, id: nat, c: Config)
    requires Sound(r, c) && id in r.db.main.pending
    ensures var r' := HandleOne(r, id, c);
            && r'.db.main.log == r.db.main.log
            && ((r'.dead == r.dead && r'.db.dlq == r.db.dlq)
                || (r'.dead == r.dead + [id] && |r'.db.dlq| == |r.db.dlq| + 1 && r'.db.dlq[..|r.db.dlq|] == r.db.dlq
                    && r'.db.dlq[|r.db.dlq|].payment == r.db.main.log[id]
                    && r'.db.dlq[|r.db.dlq|].attempt == Budget(c.maxAttempts)))
  {
    hide XAck;
  }

  lemma LetteredStep(r: Run, id: nat, c: Config, base: seq<DeadLetter>)
    requires Sound(r, c) && id in r.db.main.pending && Lettered(r, c, base)
    ensures Lettered(HandleOne(r, id, c), c, base)
  {
    DeadGrows(r, id, c);
    var r' := HandleOne(r, id, c);
    assert id < |r.db.main.log|;
    hide HandleOne, Sound, Budget;
    assert |r'.db.dlq| == |base| + |r'.dead| && base <= r'.db.dlq;
    forall k: nat | k < |r'.dead| ensures LetterAt(r', c, base, k) {
      if k < |r.dead| {
        assert LetterAt(r, c, base, k);
        assert r'.db.dlq[|base| + k] == r.db.dlq[|base| + k];
      }
    }
  }

  lemma SortedStep(r: Run, id: nat, c: Config, poison: string -> bool, start: nat)
    requires Sound(r, c) && id in r.db.main.pending && Spent(r, c)
    requires FailsOn(c.handler, poison, Budget(c.maxAttempts)) && Sorted(r, c.handler, poison, start)
    ensures Sorted(HandleOne(r, id, c), c.handler, poison, start)
  {
    hide Attempts, Budget;
    assert id !in r.dead;
  }

  lemma TalliedStep(r: Run, id: nat, c: Config, base: seq<DeadLetter>)
    requires Tallied(r, c, base) && id in r.db.main.pending
    ensures Tallied(HandleOne(r, id, c), c, base)
    ensures forall i :: i in r.db.main.pending && i != id ==> i in HandleOne(r, id, c).db.main.pending
  {
    DeliverySpends(r, id, c);
    SpendingIsSound(r, HandleOne(r, id, c), id, c);
    SpentStep(r, id, c);
    LetteredStep(r, id, c, base);
    hide HandleOne, Sound, CountedAt, Spent, Lettered;
    forall i: nat ensures CountedAt(HandleOne(r, id, c), c, i) {
      assert CountedAt(r, c, i) && CountedAt(r, c, id);
      CountedStep(r, id, c, i);
    }
  }

  lemma {:induction false} TalliedInBatch(r: Run, ids: seq<nat>, c: Config, base: seq<DeadLetter>,
      poison: string -> bool, start: nat)
    requires Tallied(r, c, base) && Held(r, ids) && InLog(ids, |r.db.main.log|)
    ensures Tallied(HandleBatch(r, ids, c), c, base)
    ensures FailsOn(c.handler, poison, Budget(c.maxAttempts)) && Sorted(r, c.handler, poison, start) ==>
            Sorted(HandleBatch(r, ids, c), c.handler, poison, start)
    decreases |ids|
  {
    hide HandleOne, Sorted, FailsOn, Counted, Lettered, Sound, Spent;
    if ids == [] {
    } else {
      TalliedStep(r, ids[0], c, base);
      if FailsOn(c.handler, poison, Budget(c.maxAttempts)) && Sorted(r, c.handler, poison, start) {
        SortedStep(r, ids[0], c, poison, start);
      }
      TalliedInBatch(HandleOne(r, ids[0], c), ids[1..], c, base, poison, start);
    }
  }

  lemma TalliedOnPublish(r: Run, arrivals: seq<Payment>, c: Config, base: seq<DeadLetter>)
    requires Tallied(r, c, base)
    ensures Tallied(Publish(r, arrivals), c, base)
  {
    PublishedIsSound(r, arrivals, c);
    forall i: nat ensures CountedAt(Publish(r, arrivals), c, i) {
      assert CountedAt(r, c, i);
    }
    forall k: nat | k < |r.dead| ensures LetterAt(Publish(r, arrivals), c, base, k) {
      assert LetterAt(r, c, base, k);
    }
    hide CountedAt, LetterAt;
  }

  lemma CountedOnRead(r: Run, c: Config, i: nat)
    requires Sound(r, c) && CountedAt(r, c, i)
    ensures CountedAt(ReadNew(r, c), c, i)
  {
    NewAreUntried(r, c);
  }

  lemma SpentOnRead(r: Run, c: Config)
    requires Sound(r, c) && Spent(r, c)
    ensures Spent(ReadNew(r, c), c)
  {
    var ids := NewIds(r.db.main, c.count);
    assert forall k :: 0 <= k < |r.dead| ==> r.dead[k] !in ids;
    hide Assign, NewIds, Range, Budget;
  }

  lemma LetteredOnRead(r: Run, c: Config, base: seq<DeadLetter>)
    requires Sound(r, c) && Lettered(r, c, base)
    ensures Lettered(ReadNew(r, c), c, base)
  {
    forall k: nat | k < |r.dead| ensures LetterAt(ReadNew(r, c), c, base, k) {
      assert LetterAt(r, c, base, k);
    }
    hide LetterAt, Assign, NewIds, Range, Sound;
  }

  lemma TalliedOnRead(r: Run, c: Config, base: seq<DeadLetter>)
    requires Tallied(r, c, base)
    ensures Tallied(ReadNew(r, c), c, base)
  {
    ReadingIsSound(r, c);
    SpentOnRead(r, c);
    LetteredOnRead(r, c, base);
    hide Sound, Spent, Lettered, CountedAt, ReadNew;
    forall i: nat ensures CountedAt(ReadNew(r, c), c, i) {
      assert CountedAt(r, c, i);
      CountedOnRead(r, c, i);
    }
  }

  lemma SortedOnPublish(r: Run, arrivals: seq<Payment>, c: Config, poison: string -> bool, start: nat)
    requires Sorted(r, c.handler, poison, start)
    ensures Sorted(Publish(r, arrivals), c.handler, poison, start)
  {
  }

  lemma SortedOnRead(r: Run, c: Config, poison: string -> bool, start: nat)
    requires Sound(r, c) && Sorted(r, c.handler, poison, start) && start <= r.db.main.next
    ensures Sorted(ReadNew(r, c), c.handler, poison, start)
  {
    forall i | i in r.db.main.pending || r.db.main.next <= i < ReadNew(r, c).db.main.next
      ensures i in ReadNew(r, c).db.main.pending
    {
      if r.db.main.next <= i {
        assert NewIds(r.db.main, c.count)[i - r.db.main.next] == i;
      }
    }
    NewAreUntried(r, c);
  }

  lemma TalliedInRound(r: Run, arrivals: seq<Payment>, c: Config, base: seq<DeadLetter>, poison: string -> bool,
      start: nat)
    requires Tallied(r, c, base) && start <= r.db.main.next
    ensures Tallied(Round(r, arrivals, c), c, base) && start <= Round(r, arrivals, c).db.main.next
    ensures FailsOn(c.handler, poison, Budget(c.maxAttempts)) && Sorted(r, c.handler, poison, start) ==>
            Sorted(Round(r, arrivals, c), c.handler, poison, start)
  {
    var read, ids := RoundParts(r, arrivals, c);
    var published := Publish(r, arrivals);
    TalliedOnPublish(r, arrivals, c, base);
    TalliedOnRead(published, c, base);
    if Sorted(r, c.handler, poison, start) {
      SortedOnPublish(r, arrivals, c, poison, start);
      SortedOnRead(published, c, poison, start);
    }
    hide Sound, Counted, Lettered, Sorted, Spent, HandleBatch, Round, Deliver, Held, FailsOn, InLog;
    TalliedInBatch(read, ids, c, base, poison, start);
  }

  lemma {:induction false} TalliedRun(db: Db, arrivals: Arrivals, c: Config, poison: string -> bool, n: nat)
    requires WellFormed(db.main) && OnlyConsumer(db, c.consumer)
    ensures var r := Rounds(Fresh(db), arrivals, c, n);
            && Tallied(r, c, db.dlq) && db.main.next <= r.db.main.next
            && (FailsOn(c.handler, poison, Budget(c.maxAttempts)) ==>
                Sorted(Fresh(db), c.handler, poison, db.main.next) ==>
                Sorted(r, c.handler, poison, db.main.next))
  {
    hide Round, Sorted, FailsOn;
    if n == 0 {
    } else {
      hide Tallied;
      TalliedRun(db, arrivals, c, poison, n - 1);
      TalliedInRound(Rounds(Fresh(db), arrivals, c, n - 1), arrivals(n - 1), c, db.dlq, poison, db.main.next);
    }
  }

  /**
   For every handler: a message costs at most one budget of calls in a run, a dead letter cost
   exactly one, and its letter carries the payment and the attempt that spent the budget.
   */
  lemma EveryLetterSpentOneBudget(db: Db, arrivals: Arrivals, c: Config, n: nat)
    requires WellFormed(db.main) && OnlyConsumer(db, c.consumer)
    ensures var r := Rounds(Fresh(db), arrivals, c, n);
            && (forall i: nat :: CallsFor(r, i) <= Budget(c.maxAttempts))
            && (forall k :: 0 <= k < |r.dead| ==> CallsFor(r, r.dead[k]) == Budget(c.maxAttempts))
            && Lettered(r, c, db.dlq)
  {
    hide Rounds, Lettered, Sound;
    TalliedRun(db, arrivals, c, p => false, n);
    var r := Rounds(Fresh(db), arrivals, c, n);
    forall i: nat ensures CallsFor(r, i) <= Budget(c.maxAttempts) {
      assert CountedAt(r, c, i);
    }
  }

  /** The positions in `lo .. hi` whose payment is poison, ascending. */
  ghost function PoisonIn(log: seq<Payment>, poison: string -> bool, lo: nat, hi: nat): (ids: seq<nat>)
    requires hi <= |log|
    ensures forall i: nat :: i in ids <==> lo <= i < hi && poison(log[i].paymentId)
    ensures forall a, b :: 0 <= a < b < |ids| ==> ids[a] < ids[b]
  {
    if hi <= lo then []
    else
      var before := PoisonIn(log, poison, lo, hi - 1);
      assert forall k :: 0 <= k < |before| ==> before[k] in before;
      if poison(log[hi - 1].paymentId) then before + [hi - 1] else before
  }

  lemma Member(a: seq<nat>)
    ensures a == [] || a[0] in a
  {
  }

  lemma {:induction false} AscendingIsUnique(a: seq<nat>, b: seq<nat>)
    requires forall i, j :: 0 <= i < j < |a| ==> a[i] < a[j]
    requires forall i, j :: 0 <= i < j < |b| ==> b[i] < b[j]
    requires forall x: nat :: x in a <==> x in b
    ensures a == b
  {
    Member(a);
    Member(b);
    if a == [] || b == [] {
    } else {
      var x, y := a[|a| - 1], b[|b| - 1];
      assert x in b && y in a;
      assert x == y;
      var a', b' := a[..|a| - 1], b[..|b| - 1];
      forall z: nat ensures z in a' <==> z in b' {
        assert z in a <==> z in a' || z == x;
        assert z in b <==> z in b' || z == x;
      }
      AscendingIsUnique(a', b');
    }
  }

  /** Where the calls for one message are in the order of calls. */
  function Positions(calls: seq<nat>, id: nat): (ks: seq<nat>)
    ensures Ascending(ks) && forall j :: 0 <= j < |ks| ==> ks[j] < |calls| && calls[ks[j]] == id
  {
    if calls == [] then []
    else
      var n := |calls| - 1;
      Positions(calls[..n], id) + if calls[n] == id then [n] else []
  }

  lemma {:induction false} PositionCount(calls: seq<nat>, id: nat)
    ensures |Positions(calls, id)| == multiset(calls)[id]
  {
    if calls == [] {
    } else {
      var n := |calls| - 1;
      PositionCount(calls[..n], id);
      assert calls == calls[..n] + [calls[n]];
    }
  }

  /** A message dies only of raising calls, a whole budget of them, so it is poison. */
  lemma DeadIsPoison(r: Run, c: Config, base: seq<DeadLetter>, poison: string -> bool, start: nat, i: nat)
    requires Tallied(r, c, base) && FailsOn(c.handler, poison, Budget(c.maxAttempts))
    requires Sorted(r, c.handler, poison, start) && i in r.dead
    ensures start <= i < r.db.main.next && poison(r.db.main.log[i].paymentId)
  {
    var k :| 0 <= k < |r.dead| && r.dead[k] == i;
    assert i < r.db.main.next <= |r.db.main.log| && CallsFor(r, i) == Budget(c.maxAttempts);
    var ks := Positions(r.calls, i);
    PositionCount(r.calls, i);
    forall j | 0 <= j < |ks| ensures c.handler(ks[j], r.db.main.log[i]).Raised? {
      assert r.calls[ks[j]] == i;
    }
    assert RaisesAt(c.handler, r.db.main.log[i], ks);
    hide Sound, Lettered, Counted, Budget, Positions;
  }

  /**
   The handler fails on poison payments and, fewer times than a budget, on others. A run that starts
   with nothing pending and nothing poison marked as processed: once drained, the new dead letters
   are exactly the poison messages published after the group's position, in publish order.
   */
  lemma DeadLettersAreThePoison(db: Db, arrivals: Arrivals, c: Config, poison: string -> bool, n: nat)
    requires WellFormed(db.main) && db.main.pending == map[]
    requires FailsOn(c.handler, poison, Budget(c.maxAttempts)) && forall p :: p in db.processed ==> !poison(p)
    requires Drained(Rounds(Fresh(db), arrivals, c, n).db)
    ensures var r := Rounds(Fresh(db), arrivals, c, n);
            && r.dead == PoisonIn(r.db.main.log, poison, db.main.next, |r.db.main.log|)
            && Lettered(r, c, db.dlq)
  {
    hide Rounds, Lettered, FailsOn, PoisonIn, Sound, Spent, Counted, Unsuccessful;
    var r := Rounds(Fresh(db), arrivals, c, n);
    StartsSorted(db, c, poison);
    TalliedRun(db, arrivals, c, poison, n);
    DeadLettersKeepOrder(db, arrivals, c, n);
    assert Sorted(r, c.handler, poison, db.main.next);
    forall i: nat ensures i in r.dead <==> i in PoisonIn(r.db.main.log, poison, db.main.next, |r.db.main.log|) {
      if i in r.dead {
        DeadIsPoison(r, c, db.dlq, poison, db.main.next, i);
      }
    }
    AscendingIsUnique(r.dead, PoisonIn(r.db.main.log, poison, db.main.next, |r.db.main.log|));
  }

  lemma StartsSorted(db: Db, c: Config, poison: string -> bool)
    requires WellFormed(db.main) && db.main.pending == map[] && forall p :: p in db.processed ==> !poison(p)
    ensures Sorted(Fresh(db), c.handler, poison, db.main.next)
  {
  }

  /** With a budget of one, a failing delivery buries its message at once. */
  lemma BuryOne(r: Run, id: nat, c: Config)
    requires id < |r.db.main.log| && r.db.processed == {} && r.attempts == map[] && c.maxAttempts == 1
    requires AlwaysFails(c.handler)
    ensures var r' := HandleBatch(r, [id], c);
            && r'.dead == r.dead + [id] && r'.db.main == XAck(r.db.main, id)
            && r'.attempts == map[] && r'.db.processed == {}
  {
    assert HandleOne(r, id, c) == HandleBatch(HandleOne(r, id, c), [], c);
    assert c.handler(|r.calls|, r.db.main.log[id]).Raised?;
  }

  /**
   With a message left pending by an earlier run the order can break: the newer message is read
   first and dies first.
   */
  lemma RestartBreaksOrder(p: Payment, q: Payment, c: Config)
    requires c.consumer == "w" && c.count == 1 && c.maxAttempts == 1 && AlwaysFails(c.handler)
    ensures Rounds(Fresh(Db(Stream([p, q], 1, map[0 := "w"]), [], {})), k => [], c, 2).dead == [1, 0]
  {
    var arrivals: Arrivals := k => [];
    var r0 := Fresh(Db(Stream([p, q], 1, map[0 := "w"]), [], {}));
    RestartFirst(p, q, c);
    var r1 := Round(r0, [], c);
    assert Rounds(r0, arrivals, c, 0) == r0;
    assert arrivals(0) == [] && arrivals(1) == [];
    RestartSecond(r1, c);
    hide Round;
    assert Rounds(r0, arrivals, c, 1) == r1;
    assert Rounds(r0, arrivals, c, 2) == Round(r1, [], c);
  }

  lemma RestartFirst(p: Payment, q: Payment, c: Config)
    requires c.consumer == "w" && c.count == 1 && c.maxAttempts == 1 && AlwaysFails(c.handler)
    ensures var r := Round(Fresh(Db(Stream([p, q], 1, map[0 := "w"]), [], {})), [], c);
            && r.dead == [1] && r.db.main == Stream([p, q], 2, map[0 := "w"])
            && r.attempts == map[] && r.db.processed == {}
  {
    var db := Db(Stream([p, q], 1, map[0 := "w"]), [], {});
    assert XAddAll(db.main, []) == db.main;
    assert NewIds(db.main, 1) == [1];
    assert Assign([1][1..], "w", db.main.pending) == db.main.pending;
    var read := XReadNew(db.main, "w", 1);
    assert read == Stream([p, q], 2, map[0 := "w", 1 := "w"]);
    assert XAck(read, 1).pending == map[0 := "w"];
    hide HandleBatch, AlwaysFails, XReadNew;
    BuryOne(Fresh(db.(main := read)), 1, c);
  }

  lemma RestartSecond(r: Run, c: Config)
    requires r.db.main.pending == map[0 := "w"] && r.db.main.next == |r.db.main.log| == 2
    requires r.attempts == map[] && r.db.processed == {}
    requires c.consumer == "w" && c.count == 1 && c.maxAttempts == 1 && AlwaysFails(c.handler)
    ensures Round(r, [], c).dead == r.dead + [0]
  {
    LastOwn(r.db.main);
    hide HandleBatch, AlwaysFails, PendingIds, XReadNew;
    BuryOne(r, 0, c);
    assert r.(db := r.db) == r;
  }

  lemma LastOwn(s: Stream<Payment>)
    requires s.pending == map[0 := "w"] && s.next == |s.log| == 2
    ensures XAddAll(s, []) == s && XReadNew(s, "w", 1) == s && PendingIds(s, "w", 1) == [0]
  {
    assert NewIds(s, 1) == [];
    AscendingIsUnique(OwnedBelow(s.pending, "w", 2), [0]);
    hide OwnedBelow, NewIds;
  }
}
