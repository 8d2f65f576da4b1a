/**
 The shared store: one set under one server key, the whole key dropped when its deadline passes.
 A write is SADD followed by PEXPIRE ... NX, taken as one step.
 */
module RedisIdempotency {
  import opened Basics
  import opened IdempotencyModel

  /** An absent key has no members and no deadline. */
  datatype Key = Key(members: set<string>, deadline: Option<int>)

  const ABSENT: Key := Key({}, None)

  /** What the server still holds at `now`. */
  function Current(key: Key, now: int): Key {
    if key.deadline.Some? && key.deadline.value <= now then ABSENT else key
  }

  function SAdd(key: Key, member: string, now: int): Key {
    var current := Current(key, now);
    current.(members := current.members + {member})
  }

  function PExpireNx(key: Key, milliseconds: int, now: int): Key {
    var current := Current(key, now);
    if current.members == {} || current.deadline.Some? then current
    else if milliseconds <= 0 then ABSENT
    else current.(deadline := Some(now + 1000 * milliseconds))
  }

  /** The ttl in whole milliseconds. */
  function Milliseconds(ttl: int): int {
    ttl / 1000
  }

  function Written(key: Key, member: string, ttl: int, now: int): Key {
    PExpireNx(SAdd(key, member, now), Milliseconds(ttl), now)
  }

  function After(ops: seq<Op>, ttl: int): Key {
    if ops == [] then ABSENT
    else
      var key := After(ops[..|ops| - 1], ttl);
      var op := ops[|ops| - 1];
      if op.IsProcessed? then key else Written(key, op.key, ttl, op.now)
  }

  predicate Holds(key: Key, member: string, now: int) {
    member in Current(key, now).members
  }

  /** Operation `i` is a `mark_if_new` that adds its key. */
  predicate Claims(ops: seq<Op>, ttl: int, i: nat)
    requires i < |ops|
  {
    ops[i].MarkIfNew? && !Holds(After(ops[..i], ttl), ops[i].key, ops[i].now)
  }

  predicate Marks(ops: seq<Op>, ttl: int, i: nat, member: string)
    requires i < |ops|
  {
    ops[i].key == member && (ops[i].MarkProcessed? || Claims(ops, ttl, i))
  }

  /** `member` was marked at most a ttl before `deadline`. */
  ghost predicate MarkedFor(ops: seq<Op>, ttl: int, member: string, deadline: int) {
    exists i: nat :: i < |ops| && Marks(ops, ttl, i, member) && ops[i].now + ttl >= deadline
  }

  ghost predicate Covered(ops: seq<Op>, ttl: int, key: Key) {
    && (key.members == {} ==> key.deadline == None)
    && (key.members != {} ==> key.deadline.Some?)
    && (forall m :: m in key.members ==> MarkedFor(ops, ttl, m, key.deadline.value))
  }

  lemma MarkedLater(ops: seq<Op>, op: Op, ttl: int, member: string, deadline: int)
    requires MarkedFor(ops, ttl, member, deadline)
    ensures MarkedFor(ops + [op], ttl, member, deadline)
  {
    var i: nat :| i < |ops| && Marks(ops, ttl, i, member) && ops[i].now + ttl >= deadline;
    assert (ops + [op])[..i] == ops[..i];
    assert Marks(ops + [op], ttl, i, member);
  }

  lemma MarkedNow(ops: seq<Op>, op: Op, ttl: int, deadline: int)
    requires op.now + ttl >= deadline
    requires op.MarkProcessed? || (op.MarkIfNew? && !Holds(After(ops, ttl), op.key, op.now))
    ensures MarkedFor(ops + [op], ttl, op.key, deadline)
  {
    assert (ops + [op])[..|ops|] == ops;
    assert Marks(ops + [op], ttl, |ops|, op.key);
  }

  /** A window never closes later than a ttl after any write into it. */
  lemma WriteInWindow(key: Key, member: string, ttl: int, now: int)
    requires ttl > 0 && (key.members == {} <==> key.deadline == None)
    requires key.deadline.Some? ==> key.deadline.value <= now + ttl
    ensures var w := Written(key, member, ttl, now);
            && (w.members == {} <==> w.deadline == None)
            && (w.deadline.Some? ==> now < w.deadline.value <= now + ttl)
            && (forall m :: m in w.members ==> m == member || Holds(key, m, now))
            && (Holds(key, member, now) ==> w == key)
            && (Current(key, now).members != {} ==> w.deadline == key.deadline)
            && (Holds(w, member, now) <==> ttl >= 1000 || Current(key, now).members != {})
  {
    assert member in SAdd(key, member, now).members;
  }

  lemma CoveredStep(ops: seq<Op>, op: Op, ttl: int, key: Key)
    requires ttl > 0 && !op.IsProcessed? && key == After(ops, ttl)
    requires Covered(ops, ttl, key) && (key.deadline.Some? ==> key.deadline.value <= op.now + ttl)
    ensures Covered(ops + [op], ttl, Written(key, op.key, ttl, op.now))
  {
    WriteInWindow(key, op.key, ttl, op.now);
    var w := Written(key, op.key, ttl, op.now);
    hide Written;
    forall m | m in w.members ensures MarkedFor(ops + [op], ttl, m, w.deadline.value) {
      if m == op.key && (op.MarkProcessed? || !Holds(key, m, op.now)) {
        MarkedNow(ops, op, ttl, w.deadline.value);
      } else {
        assert m in Current(key, op.now).members;
        MarkedLater(ops, op, ttl, m, key.deadline.value);
      }
    }
  }

  lemma {:induction false} RunIsCovered(ops: seq<Op>, ttl: int, now: int)
    requires ttl > 0 && InOrder(ops) && forall i :: 0 <= i < |ops| ==> ops[i].now <= now
    ensures var key := After(ops, ttl);
            Covered(ops, ttl, key) && (key.deadline.Some? ==> key.deadline.value <= now + ttl)
  {
    if ops == [] {
    } else {
      var n := |ops| - 1;
      var before, op := ops[..n], ops[n];
      RunIsCovered(before, ttl, op.now);
      var key := After(before, ttl);
      assert ops == before + [op];
      if op.IsProcessed? {
        forall m | m in key.members ensures MarkedFor(ops, ttl, m, key.deadline.value) {
          MarkedLater(before, op, ttl, m, key.deadline.value);
        }
      } else {
        CoveredStep(before, op, ttl, key);
        WriteInWindow(key, op.key, ttl, op.now);
      }
      hide Written, MarkedFor;
    }
  }

  /** The server never remembers a key for longer than its ttl. */
  lemma RememberedWasMarkedRecently(ops: seq<Op>, ttl: int, member: string, now: int)
    requires ttl > 0 && InOrder(ops) && forall i :: 0 <= i < |ops| ==> ops[i].now <= now
    requires Holds(After(ops, ttl), member, now)
    ensures exists i: nat :: i < |ops| && Marks(ops, ttl, i, member) && ops[i].now <= now < ops[i].now + ttl
  {
    RunIsCovered(ops, ttl, now);
    var deadline := After(ops, ttl).deadline.value;
    var i: nat :| i < |ops| && Marks(ops, ttl, i, member) && ops[i].now + ttl >= deadline;
  }

  /**
   Exactly when the inclusion holds of a key: the shared store has forgotten it, or some operation of
   the last ttl on it was a plain mark or a `mark_if_new` that the in-process store accepted.
   */
  lemma InclusionHoldsIff(ops: seq<Op>, ttl: int, member: string, now: int)
    requires ttl > 0 && InOrder(ops) && forall i :: 0 <= i < |ops| ==> ops[i].now <= now
    ensures (Holds(After(ops, ttl), member, now) ==> Remembered(History(ops, ttl), ttl, member, now))
            <==> (Holds(After(ops, ttl), member, now) ==>
                  exists i: nat :: i < |ops| && ops[i].key == member && ops[i].now + ttl > now && Records(ops, ttl, i))
  {
    RememberedIffRecorded(ops, ttl, member, now);
    hide History, LastMark, After, Records;
  }

  /** For a key that is never claimed, whatever the shared store remembers the in-process one does too. */
  lemma RedisRemembersNoMore(ops: seq<Op>, ttl: int, member: string, now: int)
    requires ttl > 0 && InOrder(ops) && forall i :: 0 <= i < |ops| ==> ops[i].now <= now
    requires forall i :: 0 <= i < |ops| && ops[i].MarkIfNew? ==> ops[i].key != member
    requires Holds(After(ops, ttl), member, now)
    ensures Remembered(History(ops, ttl), ttl, member, now)
  {
    RememberedWasMarkedRecently(ops, ttl, member, now);
    var i: nat :| i < |ops| && Marks(ops, ttl, i, member) && ops[i].now <= now < ops[i].now + ttl;
    assert ops[i].MarkProcessed? && Records(ops, ttl, i);
    InclusionHoldsIff(ops, ttl, member, now);
    hide History, After, Wins;
  }

  /**
   For a key that is claimed it can fail: the in-process store refuses a second claim without
   extending the first, while the shared store may accept it in a new window.
   */
  lemma ClaimsBreakTheInclusion()
    ensures var ops := [MarkProcessed("a", 0), MarkProcessed("b", 6000), MarkIfNew("b", 11000)];
            && InOrder(ops)
            && Holds(After(ops, 10000), "b", 17000)
            && !Remembered(History(ops, 10000), 10000, "b", 17000)
  {
    var o1, o2, o3 := MarkProcessed("a", 0), MarkProcessed("b", 6000), MarkIfNew("b", 11000);
    var ops := [o1, o2, o3];
    assert ops[..2] == [o1, o2] && [o1, o2][..1] == [o1] && [o1][..0] == [];
    assert Written(ABSENT, "a", 10000, 0) == Key({"a"}, Some(10000));
    assert After([o1], 10000) == Key({"a"}, Some(10000));
    assert After([o1, o2], 10000) == Key({"a", "b"}, Some(10000));
    assert After(ops, 10000) == Key({"b"}, Some(21000));
    assert History([o1], 10000) == [Mark("a", 0)];
    assert History([o1, o2], 10000) == [Mark("a", 0), Mark("b", 6000)];
    assert LastMark([Mark("a", 0), Mark("b", 6000)], "b") == Some(6000);
    assert History(ops, 10000) == [Mark("a", 0), Mark("b", 6000)];
  }

  ghost predicate InWindow(key: Key, member: string, deadline: int) {
    member in key.members && key.deadline == Some(deadline)
  }

  lemma StepInWindow(ops: seq<Op>, ttl: int, member: string, deadline: int)
    requires ttl > 0 && InOrder(ops) && ops != [] && ops[|ops| - 1].now < deadline
    requires InWindow(After(ops[..|ops| - 1], ttl), member, deadline)
    ensures InWindow(After(ops, ttl), member, deadline)
  {
    var n := |ops| - 1;
    var key := After(ops[..n], ttl);
    assert Holds(key, member, ops[n].now);
    assert member in SAdd(key, ops[n].key, ops[n].now).members;
  }

  /** What a live write put into its window stays there until the deadline. */
  lemma {:induction false} StaysInWindow(ops: seq<Op>, ttl: int, i: nat, j: nat, member: string, deadline: int)
    requires ttl > 0 && InOrder(ops) && i <= j <= |ops|
    requires InWindow(After(ops[..i], ttl), member, deadline)
    requires j > i ==> ops[j - 1].now < deadline
    ensures InWindow(After(ops[..j], ttl), member, deadline)
  {
    if j == i {
    } else {
      assert ops[..j][..j - 1] == ops[..j - 1];
      StaysInWindow(ops, ttl, i, j - 1, member, deadline);
      StepInWindow(ops[..j], ttl, member, deadline);
    }
    hide After, InWindow;
  }

  /** From a write until its window closes its key is remembered. */
  lemma HeldUntilDeadline(ops: seq<Op>, ttl: int, i: nat, j: nat)
    requires ttl >= 1000 && InOrder(ops) && i < j < |ops| && !ops[i].IsProcessed?
    ensures var opening := After(ops[..i + 1], ttl);
            && opening.deadline.Some? && ops[i].now < opening.deadline.value <= ops[i].now + ttl
            && (ops[j].now < opening.deadline.value ==> Holds(After(ops[..j], ttl), ops[i].key, ops[j].now))
  {
    WriteIsRemembered(ops[..i + 1], ttl);
    RunIsCovered(ops[..i + 1], ttl, ops[i].now);
    hide After, Covered;
    var deadline := After(ops[..i + 1], ttl).deadline.value;
    if ops[j].now < deadline {
      StaysInWindow(ops, ttl, i + 1, j, ops[i].key, deadline);
    }
  }

  /** One claim per key and window: the next one comes only after the window of the first has closed. */
  lemma OneWinnerPerWindow(ops: seq<Op>, ttl: int, i: nat, j: nat)
    requires ttl >= 1000 && InOrder(ops) && i < j < |ops| && ops[i].key == ops[j].key
    requires Claims(ops, ttl, i) && Claims(ops, ttl, j)
    ensures After(ops[..i + 1], ttl).deadline.Some?
    ensures ops[i].now < After(ops[..i + 1], ttl).deadline.value <= ops[j].now
  {
    HeldUntilDeadline(ops, ttl, i, j);
  }

  /** A write is remembered at all exactly when the ttl is at least a millisecond. */
  lemma WriteIsRemembered(ops: seq<Op>, ttl: int)
    requires ttl > 0 && InOrder(ops) && ops != [] && !ops[|ops| - 1].IsProcessed?
    ensures var op := ops[|ops| - 1]; Holds(After(ops, ttl), op.key, op.now) <==> ttl >= 1000
  {
    var n := |ops| - 1;
    RunIsCovered(ops[..n], ttl, ops[n].now);
    WriteInWindow(After(ops[..n], ttl), ops[n].key, ttl, ops[n].now);
    if ttl < 1000 {
      NothingBelowAMillisecond(ops[..n], ttl);
    }
    hide Covered, Written;
  }

  lemma {:induction false} NothingBelowAMillisecond(ops: seq<Op>, ttl: int)
    requires 0 < ttl < 1000
    ensures After(ops, ttl) == ABSENT
  {
    if ops == [] {
    } else {
      NothingBelowAMillisecond(ops[..|ops| - 1], ttl);
    }
  }

  class RedisIdempotencyStore {
    const ttl: int
    /** The server key; other stores on the same key are other callers of these methods. */
    var key: Key
    ghost var ops: seq<Op>

    ghost predicate Valid()
      reads this
    {
      ttl > 0 && key == After(ops, ttl)
    }

    constructor (ttl: int)
      requires ttl > 0
      ensures Valid() && this.ttl == ttl && ops == []
    {
      this.ttl := ttl;
      key := ABSENT;
      ops := [];
    }

    method IsProcessed(member: string, now: int) returns (processed: bool)
      requires Valid()
      ensures processed <==> Holds(After(ops, ttl), member, now)
    {
      processed := member in Current(key, now).members;
    }

    method MarkProcessed(member: string, now: int)
      requires Valid()
      modifies this
      ensures key == Written(old(key), member, ttl, now)
      ensures Valid() && ops == old(ops) + [Op.MarkProcessed(member, now)]
    {
      ghost var was := ops;
      var added := MarkIfNew(member, now);
      ops := was + [Op.MarkProcessed(member, now)];
      assert ops[..|ops| - 1] == was;
    }

    method MarkIfNew(member: string, now: int) returns (added: bool)
      requires Valid()
      modifies this
      ensures key == Written(old(key), member, ttl, now)
      ensures Valid() && ops == old(ops) + [Op.MarkIfNew(member, now)]
      ensures added <==> Claims(ops, ttl, |ops| - 1)
    {
      added := member !in Current(key, now).members;
      key := SAdd(key, member, now);
      key := PExpireNx(key, Milliseconds(ttl), now);
      ghost var was := ops;
      ops := ops + [Op.MarkIfNew(member, now)];
      assert ops[..|ops| - 1] == was;
    }
  }

  /** A ttl that is not positive is refused. */
  method Open(ttl: int) returns (store: RedisIdempotencyStore?)
    ensures store == null <==> ttl <= 0
    ensures store != null ==> fresh(store) && store.Valid() && store.ttl == ttl && store.ops == []
  {
    if ttl <= 0 {
      return null;
    }
    store := new RedisIdempotencyStore(ttl);
  }
}
