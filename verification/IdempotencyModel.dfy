/**
 Dedup with a time to live, as a history of marks. Times are microseconds on one clock that
 never goes back.
 */
module IdempotencyModel {
  import opened Basics

  datatype Mark = Mark(key: string, at: int)

  datatype Op =
    | IsProcessed(key: string, now: int)
    | MarkProcessed(key: string, now: int)
    | MarkIfNew(key: string, now: int)

  function LastMark(marks: seq<Mark>, key: string): Option<int> {
    if marks == [] then None
    else if marks[|marks| - 1].key == key then Some(marks[|marks| - 1].at)
    else LastMark(marks[..|marks| - 1], key)
  }

  /** The last recorded mark plus the ttl is still ahead. */
  predicate Remembered(marks: seq<Mark>, ttl: int, key: string, now: int) {
    var last := LastMark(marks, key);
    last.Some? && last.value + ttl > now
  }

  ghost predicate InOrder(ops: seq<Op>) {
    forall i, j :: 0 <= i < j < |ops| ==> ops[i].now <= ops[j].now
  }

  /** The marks a store that never forgets would have recorded for the same answers. */
  function History(ops: seq<Op>, ttl: int): seq<Mark> {
    if ops == [] then []
    else
      var before := History(ops[..|ops| - 1], ttl);
      var op := ops[|ops| - 1];
      if op.MarkProcessed? || (op.MarkIfNew? && !Remembered(before, ttl, op.key, op.now))
      then before + [Mark(op.key, op.now)]
      else before
  }

  /** Operation `i` is a `mark_if_new` that claims its key. */
  predicate Wins(ops: seq<Op>, ttl: int, i: nat)
    requires i < |ops|
  {
    ops[i].MarkIfNew? && !Remembered(History(ops[..i], ttl), ttl, ops[i].key, ops[i].now)
  }

  lemma {:induction false} LastMarkIsLatest(marks: seq<Mark>, key: string, i: nat, now: int)
    requires i < |marks| && marks[i].key == key
    requires MarksInOrder(marks, now)
    ensures LastMark(marks, key).Some? && LastMark(marks, key).value >= marks[i].at
  {
    if marks[|marks| - 1].key == key {
    } else {
      LastMarkIsLatest(marks[..|marks| - 1], key, i, now);
    }
  }

  lemma {:induction false} LastMarkIsAMark(marks: seq<Mark>, key: string)
    ensures LastMark(marks, key).Some? <==> exists i :: 0 <= i < |marks| && marks[i].key == key
    ensures LastMark(marks, key).Some? ==> Mark(key, LastMark(marks, key).value) in marks
  {
    if marks == [] {
    } else {
      var n := |marks| - 1;
      LastMarkIsAMark(marks[..n], key);
      assert marks == marks[..n] + [marks[n]];
    }
  }

  lemma AppendMark(marks: seq<Mark>, m: Mark, key: string)
    ensures LastMark(marks + [m], key) == if m.key == key then Some(m.at) else LastMark(marks, key)
  {
    assert (marks + [m])[..|marks|] == marks;
  }

  ghost predicate MarksInOrder(marks: seq<Mark>, now: int) {
    && (forall a :: 0 <= a < |marks| ==> marks[a].at <= now)
    && (forall a, b :: 0 <= a < b < |marks| ==> marks[a].at <= marks[b].at)
  }

  /** Marks carry the times of operations, so they are in order too. */
  lemma {:induction false} HistoryInOrder(ops: seq<Op>, ttl: int, now: int)
    requires InOrder(ops) && forall i :: 0 <= i < |ops| ==> ops[i].now <= now
    ensures MarksInOrder(History(ops, ttl), now)
  {
    if ops == [] {
    } else {
      var n := |ops| - 1;
      HistoryInOrder(ops[..n], ttl, ops[n].now);
      assert MarksInOrder(History(ops[..n], ttl), ops[n].now);
    }
  }

  /** What was recorded stays recorded. */
  lemma {:induction false} HistoryGrows(ops: seq<Op>, ttl: int, i: nat)
    requires i <= |ops|
    ensures History(ops[..i], ttl) <= History(ops, ttl)
  {
    if i == |ops| {
      assert ops[..i] == ops;
    } else {
      assert ops[..|ops| - 1][..i] == ops[..i];
      HistoryGrows(ops[..|ops| - 1], ttl, i);
    }
  }

  /** Two claims of one key are at least a ttl apart. */
  lemma WinsAreATtlApart(ops: seq<Op>, ttl: int, i: nat, j: nat)
    requires InOrder(ops) && i < j < |ops| && ops[i].key == ops[j].key
    requires Wins(ops, ttl, i) && Wins(ops, ttl, j)
    ensures ops[j].now >= ops[i].now + ttl
  {
    var h, k := History(ops[..j], ttl), ops[i].key;
    assert ops[..i + 1][..i] == ops[..i];
    assert ops[..j][..i + 1] == ops[..i + 1];
    HistoryGrows(ops[..j], ttl, i + 1);
    HistoryInOrder(ops[..j], ttl, ops[j].now);
    var n := |History(ops[..i], ttl)|;
    assert History(ops[..i + 1], ttl)[n] == Mark(k, ops[i].now);
    assert h[n] == Mark(k, ops[i].now);
    LastMarkIsLatest(h, k, n, ops[j].now);
  }

  /** Operation `i` records its key: a plain mark, or a `mark_if_new` that finds nothing remembered. */
  predicate Records(ops: seq<Op>, ttl: int, i: nat)
    requires i < |ops|
  {
    ops[i].MarkProcessed? || Wins(ops, ttl, i)
  }

  lemma RecordedInHistory(ops: seq<Op>, ttl: int, i: nat)
    requires i < |ops| && Records(ops, ttl, i)
    ensures Mark(ops[i].key, ops[i].now) in History(ops, ttl)
  {
    assert ops[..i + 1][..i] == ops[..i];
    assert Mark(ops[i].key, ops[i].now) in History(ops[..i + 1], ttl);
    HistoryGrows(ops, ttl, i + 1);
  }

  lemma {:induction false} HistoryIsRecorded(ops: seq<Op>, ttl: int, m: Mark)
    requires m in History(ops, ttl)
    ensures exists i: nat :: i < |ops| && Records(ops, ttl, i) && m == Mark(ops[i].key, ops[i].now)
  {
    var n := |ops| - 1;
    if m in History(ops[..n], ttl) {
      HistoryIsRecorded(ops[..n], ttl, m);
      var i: nat :| i < n && Records(ops[..n], ttl, i) && m == Mark(ops[..n][i].key, ops[..n][i].now);
      assert ops[..n][..i] == ops[..i];
      assert Records(ops, ttl, i) && m == Mark(ops[i].key, ops[i].now);
    } else {
      assert Records(ops, ttl, n) && m == Mark(ops[n].key, ops[n].now);
    }
  }

  /** A key is remembered exactly when some operation of the last ttl recorded it. */
  lemma RememberedIffRecorded(ops: seq<Op>, ttl: int, key: string, now: int)
    requires InOrder(ops) && forall i :: 0 <= i < |ops| ==> ops[i].now <= now
    ensures Remembered(History(ops, ttl), ttl, key, now)
            <==> exists i: nat :: i < |ops| && Records(ops, ttl, i) && ops[i].key == key && ops[i].now + ttl > now
  {
    var h := History(ops, ttl);
    HistoryInOrder(ops, ttl, now);
    LastMarkIsAMark(h, key);
    if Remembered(h, ttl, key, now) {
      HistoryIsRecorded(ops, ttl, Mark(key, LastMark(h, key).value));
    }
    if i: nat :| i < |ops| && Records(ops, ttl, i) && ops[i].key == key && ops[i].now + ttl > now {
      RecordedInHistory(ops, ttl, i);
      var j: nat :| j < |h| && h[j] == Mark(key, ops[i].now);
      LastMarkIsLatest(h, key, j, now);
    }
    hide History, Records, LastMark;
  }
}
