/**
 The shared store told by its writes alone: a write that finds no window open opens one, a window
 lasts the ttl in whole milliseconds, and a key is held exactly while the window it was written in
 is open.
 */
module RedisWindow {
  import opened Basics
  import opened IdempotencyModel
  import opened RedisIdempotency

  predicate Writes(op: Op) {
    !op.IsProcessed?
  }

  /** Operation `i` writes when every window opened before it has closed; `w` is how long one lasts. */
  predicate Opens(ops: seq<Op>, w: int, i: nat)
    requires i < |ops|
    decreases i
  {
    Writes(ops[i]) && forall k: nat :: k < i && Opens(ops, w, k) ==> ops[k].now + w <= ops[i].now
  }

  /** The ttl, rounded down to milliseconds. */
  ghost predicate Lasts(w: int, ttl: int) {
    w % 1000 == 0 && w <= ttl < w + 1000
  }

  /** Operation `j` writes `member` into the window opened by `k`. */
  predicate WritesInto(ops: seq<Op>, w: int, k: nat, j: nat, member: string)
    requires k < |ops| && j < |ops|
  {
    && k <= j && Opens(ops, w, k) && ops[j].now < ops[k].now + w
    && Writes(ops[j]) && ops[j].key == member
  }

  /** What the key holds, in terms of the last window opened. */
  ghost predicate Describes(ops: seq<Op>, w: int, key: Key) {
    match key.deadline
    case None => key.members == {} && forall j: nat :: j < |ops| ==> !Writes(ops[j])
    case Some(d) => exists k: nat :: Last(ops, w, key, k, d)
  }

  ghost predicate Last(ops: seq<Op>, w: int, key: Key, k: nat, d: int) {
    && k < |ops| && Opens(ops, w, k) && d == ops[k].now + w
    && (forall j: nat :: k < j < |ops| ==> !Opens(ops, w, j))
    && (forall j: nat :: k <= j < |ops| && Writes(ops[j]) ==> ops[j].now < d)
    && (forall m :: m in key.members <==> exists j: nat :: j < |ops| && WritesInto(ops, w, k, j, m))
  }

  lemma {:induction false} OpensKeeps(ops: seq<Op>, op: Op, w: int, i: nat)
    requires i < |ops|
    ensures Opens(ops + [op], w, i) == Opens(ops, w, i)
    decreases i
  {
    forall k: nat | k < i ensures Opens(ops + [op], w, k) == Opens(ops, w, k) {
      OpensKeeps(ops, op, w, k);
    }
  }

  lemma WritesIntoKeeps(ops: seq<Op>, op: Op, w: int, k: nat, j: nat, member: string)
    requires k < |ops| && j < |ops|
    ensures WritesInto(ops + [op], w, k, j, member) == WritesInto(ops, w, k, j, member)
  {
    OpensKeeps(ops, op, w, k);
  }

  /** A read changes nothing. */
  lemma ReadDescribes(ops: seq<Op>, op: Op, w: int, key: Key)
    requires Describes(ops, w, key) && !Writes(op)
    ensures Describes(ops + [op], w, key)
  {
    if key.deadline.Some? {
      var k: nat :| Last(ops, w, key, k, key.deadline.value);
      LastKeeps(ops, op, w, key, k, key.deadline.value);
    }
  }

  lemma LastKeeps(ops: seq<Op>, op: Op, w: int, key: Key, k: nat, d: int)
    requires Last(ops, w, key, k, d) && !Writes(op)
    ensures Last(ops + [op], w, key, k, d)
  {
    var all := ops + [op];
    forall j: nat | j < |ops| ensures Opens(all, w, j) == Opens(ops, w, j) {
      OpensKeeps(ops, op, w, j);
    }
    forall m
      ensures m in key.members <==> exists j: nat :: j < |all| && WritesInto(all, w, k, j, m)
    {
      forall j: nat | j < |ops| ensures WritesInto(all, w, k, j, m) == WritesInto(ops, w, k, j, m) {
        WritesIntoKeeps(ops, op, w, k, j, m);
      }
      if m in key.members {
        var j: nat :| j < |ops| && WritesInto(ops, w, k, j, m);
        assert WritesInto(all, w, k, j, m);
      }
    }
  }

  lemma MillisecondsLast(ttl: int, w: int)
    requires Lasts(w, ttl)
    ensures 1000 * Milliseconds(ttl) == w
  {
  }

  lemma StillOpen(ops: seq<Op>, op: Op, w: int, key: Key, k: nat, d: int)
    requires Last(ops, w, key, k, d) && Writes(op) && op.now < d
    ensures Last(ops + [op], w, key.(members := key.members + {op.key}), k, d)
  {
    var all, key' := ops + [op], key.(members := key.members + {op.key});
    forall j: nat | j < |ops| ensures Opens(all, w, j) == Opens(ops, w, j) {
      OpensKeeps(ops, op, w, j);
    }
    assert Opens(all, w, k) && !Opens(all, w, |ops|);
    assert WritesInto(all, w, k, |ops|, op.key);
    forall m
      ensures m in key'.members <==> exists j: nat :: j < |all| && WritesInto(all, w, k, j, m)
    {
      forall j: nat | j < |ops| ensures WritesInto(all, w, k, j, m) == WritesInto(ops, w, k, j, m) {
        WritesIntoKeeps(ops, op, w, k, j, m);
      }
      if m in key.members {
        var j: nat :| j < |ops| && WritesInto(ops, w, k, j, m);
        assert WritesInto(all, w, k, j, m);
      }
    }
  }

  lemma OpensAnew(ops: seq<Op>, op: Op, w: int, key: Key)
    requires Describes(ops, w, key) && InOrder(ops) && Writes(op) && w > 0
    requires key.deadline.Some? ==> key.deadline.value <= op.now
    ensures Last(ops + [op], w, Key({op.key}, Some(op.now + w)), |ops|, op.now + w)
  {
    var all := ops + [op];
    forall k: nat | k < |ops| && Opens(all, w, k) ensures all[k].now + w <= op.now {
      OpensKeeps(ops, op, w, k);
      var last: nat :| Last(ops, w, key, last, key.deadline.value);
      assert k <= last;
      assert ops[k].now <= ops[last].now;
    }
    assert Opens(all, w, |ops|);
    assert WritesInto(all, w, |ops|, |ops|, op.key);
  }

  lemma WriteDescribes(ops: seq<Op>, op: Op, ttl: int, w: int, key: Key)
    requires Describes(ops, w, key) && InOrder(ops) && Writes(op) && ttl >= 1000 && Lasts(w, ttl)
    ensures Describes(ops + [op], w, Written(key, op.key, ttl, op.now))
  {
    MillisecondsLast(ttl, w);
    var key' := Written(key, op.key, ttl, op.now);
    assert op.key in SAdd(key, op.key, op.now).members;
    if key.deadline.Some? && op.now < key.deadline.value {
      var k: nat :| Last(ops, w, key, k, key.deadline.value);
      StillOpen(ops, op, w, key, k, key.deadline.value);
      assert key' == key.(members := key.members + {op.key});
    } else {
      OpensAnew(ops, op, w, key);
      assert key' == Key({op.key}, Some(op.now + w));
    }
    hide Last, Opens, WritesInto;
  }

  lemma {:induction false} RunDescribes(ops: seq<Op>, ttl: int, w: int)
    requires ttl >= 1000 && InOrder(ops) && Lasts(w, ttl)
    ensures Describes(ops, w, After(ops, ttl))
  {
    hide Describes, Written;
    if ops == [] {
      NothingWritten(w);
    } else {
      var n := |ops| - 1;
      assert ops == ops[..n] + [ops[n]];
      RunDescribes(ops[..n], ttl, w);
      if Writes(ops[n]) {
        WriteDescribes(ops[..n], ops[n], ttl, w, After(ops[..n], ttl));
      } else {
        ReadDescribes(ops[..n], ops[n], w, After(ops[..n], ttl));
      }
    }
  }

  lemma NothingWritten(w: int)
    ensures Describes([], w, ABSENT)
  {
  }

  /**
   Exactly when a key is held: it was written into a window that is still open. A window lasts the
   ttl in whole milliseconds from the write that opened it, whatever is written into it later.
   */
  lemma HeldIffInAnOpenWindow(ops: seq<Op>, ttl: int, w: int, member: string, now: int)
    requires ttl >= 1000 && InOrder(ops) && Lasts(w, ttl) && forall i :: 0 <= i < |ops| ==> ops[i].now <= now
    ensures Holds(After(ops, ttl), member, now)
            <==> exists k: nat, j: nat ::
                   k < |ops| && j < |ops| && WritesInto(ops, w, k, j, member) && now < ops[k].now + w
  {
    var key := After(ops, ttl);
    RunDescribes(ops, ttl, w);
    hide After, Opens;
    if key.deadline.Some? {
      var d := key.deadline.value;
      var last: nat :| Last(ops, w, key, last, d);
      if Holds(key, member, now) {
        var j: nat :| j < |ops| && WritesInto(ops, w, last, j, member);
        assert WritesInto(ops, w, last, j, member) && now < ops[last].now + w;
      }
      forall k: nat, j: nat | k < |ops| && j < |ops| && WritesInto(ops, w, k, j, member) && now < ops[k].now + w
        ensures Holds(key, member, now)
      {
        OneWindow(ops, w, k, last, now);
      }
    }
  }

  /** Two windows are never open at once. */
  lemma OneWindow(ops: seq<Op>, w: int, k: nat, last: nat, now: int)
    requires k < |ops| && last < |ops| && Opens(ops, w, k) && Opens(ops, w, last)
    requires now < ops[k].now + w && ops[last].now <= now && forall j: nat :: last < j < |ops| ==> !Opens(ops, w, j)
    ensures k == last
  {
  }
}
