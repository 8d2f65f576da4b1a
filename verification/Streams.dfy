/**
 A Redis stream read through one consumer group. Message ids are positions in the
 log, so the order of ids is publish order. The group remembers the next position
 never delivered and, per delivered but unacknowledged id, the consumer that owns it.
 */
module Streams {
  import opened Basics

  datatype Stream<T> = Stream(log: seq<T>, next: nat, pending: map<nat, string>)

  ghost predicate WellFormed<T>(s: Stream<T>) {
    s.next <= |s.log| && forall i :: i in s.pending ==> i < s.next
  }

  /** XADD. */
  function XAdd<T>(s: Stream<T>, x: T): Stream<T> {
    s.(log := s.log + [x])
  }

  function XAddAll<T>(s: Stream<T>, xs: seq<T>): Stream<T> {
    s.(log := s.log + xs)
  }

  /** The positions `lo .. hi`, ascending. */
  function Range(lo: nat, hi: nat): (r: seq<nat>)
    requires lo <= hi
    ensures |r| == hi - lo
    ensures forall k :: 0 <= k < |r| ==> r[k] == lo + k
  {
    seq(hi - lo, k requires 0 <= k < hi - lo => lo + k)
  }

  /** What `XREADGROUP ... >` hands out: the oldest undelivered ids, at most `count`. */
  function NewIds<T>(s: Stream<T>, count: nat): (ids: seq<nat>)
    requires s.next <= |s.log|
    ensures |ids| == Min(count, |s.log| - s.next)
    ensures forall k :: 0 <= k < |ids| ==> ids[k] == s.next + k
  {
    Range(s.next, s.next + Min(count, |s.log| - s.next))
  }

  /** The pending entries after `ids` are handed to `consumer`. */
  function Assign(ids: seq<nat>, consumer: string, pending: map<nat, string>): (r: map<nat, string>)
    ensures forall i :: i in r <==> i in pending || i in ids
    ensures forall i :: i in r ==> r[i] == if i in ids then consumer else pending[i]
  {
    if ids == [] then pending
    else Assign(ids[1..], consumer, pending)[ids[0] := consumer]
  }

  lemma {:induction false} AssignSize(ids: seq<nat>, consumer: string, pending: map<nat, string>)
    requires forall a, b :: 0 <= a < b < |ids| ==> ids[a] != ids[b]
    requires forall k :: 0 <= k < |ids| ==> ids[k] !in pending
    ensures |Assign(ids, consumer, pending)| == |pending| + |ids|
  {
    if ids == [] {
    } else {
      AssignSize(ids[1..], consumer, pending);
      assert ids[0] !in Assign(ids[1..], consumer, pending);
    }
  }

  /** The group after `XREADGROUP ... >`: the ids handed out are owned by the reader. */
  function XReadNew<T>(s: Stream<T>, consumer: string, count: nat): Stream<T>
    requires s.next <= |s.log|
  {
    var ids := NewIds(s, count);
    s.(next := s.next + |ids|, pending := Assign(ids, consumer, s.pending))
  }

  /** The ids below `hi` that `consumer` owns, ascending. */
  function OwnedBelow(pending: map<nat, string>, consumer: string, hi: nat): (ids: seq<nat>)
    ensures forall i :: i in ids <==> i < hi && i in pending && pending[i] == consumer
    ensures forall a, b :: 0 <= a < b < |ids| ==> ids[a] < ids[b]
  {
    if hi == 0 then []
    else
      var below := OwnedBelow(pending, consumer, hi - 1);
      assert forall k :: 0 <= k < |below| ==> below[k] in below;
      if hi - 1 in pending && pending[hi - 1] == consumer then below + [hi - 1] else below
  }

  /** What `XREADGROUP ... 0` returns: the reader's own pending ids, oldest first. */
  function PendingIds<T>(s: Stream<T>, consumer: string, count: nat): (ids: seq<nat>)
    ensures |ids| <= count
    ensures forall k :: 0 <= k < |ids| ==> ids[k] < s.next && ids[k] in s.pending && s.pending[ids[k]] == consumer
    ensures forall a, b :: 0 <= a < b < |ids| ==> ids[a] < ids[b]
    ensures forall i, k :: i < s.next && i in s.pending && s.pending[i] == consumer && i !in ids && 0 <= k < |ids| ==>
            ids[k] < i
  {
    var own := OwnedBelow(s.pending, consumer, s.next);
    assert forall k :: 0 <= k < |own| ==> own[k] in own;
    own[..Min(count, |own|)]
  }

  /** XACK removes the entry whoever owns it. */
  function XAck<T>(s: Stream<T>, id: nat): Stream<T> {
    s.(pending := s.pending - {id})
  }

  /** XAUTOCLAIM hands pending ids, whoever owns them, to `consumer`. */
  function XClaim<T>(s: Stream<T>, consumer: string, ids: seq<nat>): Stream<T>
  {
    s.(pending := Assign(ids, consumer, s.pending))
  }

  /** The pending ids of `idle` below `hi`, ascending. */
  function IdleBelow(pending: map<nat, string>, idle: set<nat>, hi: nat): (ids: seq<nat>)
    ensures forall i :: i in ids <==> i < hi && i in pending && i in idle
    ensures forall a, b :: 0 <= a < b < |ids| ==> ids[a] < ids[b]
  {
    if hi == 0 then []
    else
      var below := IdleBelow(pending, idle, hi - 1);
      assert forall k :: 0 <= k < |below| ==> below[k] in below;
      if hi - 1 in pending && hi - 1 in idle then below + [hi - 1] else below
  }

  /** What XAUTOCLAIM takes over: the oldest pending entries of those idle for long enough. */
  function IdleIds<T>(s: Stream<T>, idle: set<nat>, count: nat): (ids: seq<nat>)
    ensures |ids| <= count
    ensures forall k :: 0 <= k < |ids| ==> ids[k] < s.next && ids[k] in s.pending && ids[k] in idle
    ensures forall a, b :: 0 <= a < b < |ids| ==> ids[a] < ids[b]
    ensures forall i :: i < s.next && i in s.pending && i in idle && i !in ids ==>
              |ids| == count && forall k :: 0 <= k < |ids| ==> ids[k] < i
  {
    var all := IdleBelow(s.pending, idle, s.next);
    assert forall k :: 0 <= k < |all| ==> all[k] in all;
    all[..Min(count, |all|)]
  }

  /** A backlog read is empty only when the reader owns nothing. */
  lemma PendingIdsEmpty<T>(s: Stream<T>, consumer: string, count: nat)
    requires WellFormed(s) && count >= 1
    ensures PendingIds(s, consumer, count) == [] <==> forall i :: i in s.pending ==> s.pending[i] != consumer
  {
    var own := OwnedBelow(s.pending, consumer, s.next);
    if own != [] {
      assert own[0] in own;
    }
    forall i | i in s.pending && s.pending[i] == consumer ensures own != [] {
      assert i in own;
    }
  }
}
