/** The in-process store: a dictionary of expiry instants, purged on the way. */
module InMemoryIdempotency {
  import opened Basics
  import opened IdempotencyModel

  /** The keys remembered at `now`. */
  ghost function RememberedKeys(marks: seq<Mark>, ttl: int, now: int): set<string> {
    set m | m in marks && Remembered(marks, ttl, m.key, now) :: m.key
  }

  lemma RememberedIsMarked(marks: seq<Mark>, ttl: int, now: int, key: string)
    ensures key in RememberedKeys(marks, ttl, now) <==> Remembered(marks, ttl, key, now)
  {
    LastMarkIsAMark(marks, key);
    if Remembered(marks, ttl, key, now) {
      assert Mark(key, LastMark(marks, key).value) in marks;
    }
  }

  class InMemoryIdempotencyStore {
    const ttl: int
    var expiry: map<string, int>
    ghost var marks: seq<Mark>
    ghost var clock: int

    /** Only expired keys are ever missing from the dictionary. */
    ghost predicate Valid()
      reads this
    {
      && ttl > 0
      && (forall k :: k in expiry ==> LastMark(marks, k) == Some(expiry[k] - ttl))
      && (forall k :: Remembered(marks, ttl, k, clock) ==> k in expiry)
    }

    constructor (ttl: int, ghost now: int)
      requires ttl > 0
      ensures Valid() && this.ttl == ttl && marks == [] && clock == now
    {
      this.ttl := ttl;
      expiry := map[];
      marks := [];
      clock := now;
    }

    method IsLive(key: string, now: int) returns (live: bool)
      requires Valid() && now >= clock
      modifies this
      ensures Valid() && marks == old(marks) && clock == now
      ensures live <==> Remembered(marks, ttl, key, now)
    {
      clock := now;
      if key !in expiry {
        return false;
      }
      if expiry[key] > now {
        return true;
      }
      expiry := expiry - {key};
      return false;
    }

    /** Deleting an expired key is not observable. */
    method Drop(key: string, now: int)
      requires Valid() && clock == now && key in expiry && expiry[key] <= now
      modifies this`expiry
      ensures Valid() && expiry == old(expiry) - {key}
    {
      expiry := expiry - {key};
      hide LastMark;
    }

    method PurgeExpired(now: int)
      requires Valid() && now >= clock
      modifies this
      ensures Valid() && marks == old(marks) && clock == now
      ensures forall k :: k in expiry <==> Remembered(marks, ttl, k, now)
    {
      clock := now;
      var expired := set k | k in expiry && expiry[k] <= now;
      while expired != {}
        invariant Valid() && marks == old(marks) && clock == now
        invariant forall k :: k in expired <==> k in expiry && expiry[k] <= now
        decreases |expired|
      {
        var k :| k in expired;
        Drop(k, now);
        expired := expired - {k};
      }
    }

    /** After a write the dictionary holds exactly the keys of the last ttl. */
    method Record(key: string, now: int)
      requires Valid() && now >= clock
      modifies this
      ensures Valid() && marks == old(marks) + [Mark(key, now)] && clock == now
      ensures forall k :: k in expiry <==> Remembered(marks, ttl, k, now)
    {
      PurgeExpired(now);
      forall k ensures LastMark(marks + [Mark(key, now)], k) == if k == key then Some(now) else LastMark(marks, k) {
        AppendMark(marks, Mark(key, now), k);
      }
      hide LastMark;
      expiry := expiry[key := now + ttl];
      marks := marks + [Mark(key, now)];
    }

    method IsProcessed(key: string, now: int) returns (processed: bool)
      requires Valid() && now >= clock
      modifies this
      ensures Valid() && marks == old(marks) && clock == now
      ensures processed <==> Remembered(marks, ttl, key, now)
    {
      processed := IsLive(key, now);
    }

    method MarkProcessed(key: string, now: int)
      requires Valid() && now >= clock
      modifies this
      ensures Valid() && marks == old(marks) + [Mark(key, now)] && clock == now
      ensures expiry.Keys == RememberedKeys(marks, ttl, now)
    {
      Record(key, now);
      forall k ensures k in RememberedKeys(marks, ttl, now) <==> k in expiry {
        RememberedIsMarked(marks, ttl, now, k);
      }
    }

    /** The caller wins exactly when the key is not remembered, and only then is it recorded. */
    method MarkIfNew(key: string, now: int) returns (won: bool)
      requires Valid() && now >= clock
      modifies this
      ensures Valid() && clock == now
      ensures won <==> !Remembered(old(marks), ttl, key, now)
      ensures marks == if won then old(marks) + [Mark(key, now)] else old(marks)
      ensures won ==> expiry.Keys == RememberedKeys(marks, ttl, now)
    {
      var live := IsLive(key, now);
      if live {
        return false;
      }
      MarkProcessed(key, now);
      return true;
    }

    /** How many keys are remembered, whatever has not been purged yet. */
    method Size(now: int) returns (n: nat)
      requires Valid() && now >= clock
      ensures n == |RememberedKeys(marks, ttl, now)|
    {
      var live := set k | k in expiry && expiry[k] > now;
      forall k ensures k in live <==> k in RememberedKeys(marks, ttl, now) {
        RememberedIsMarked(marks, ttl, now, k);
      }
      assert live == RememberedKeys(marks, ttl, now);
      return |live|;
    }
  }

  /** What the plain history answers to operation `i`. */
  predicate Answer(ops: seq<Op>, ttl: int, i: nat)
    requires i < |ops|
  {
    match ops[i]
    case IsProcessed(k, now) => Remembered(History(ops[..i], ttl), ttl, k, now)
    case MarkProcessed(_, _) => true
    case MarkIfNew(_, _) => Wins(ops, ttl, i)
  }

  /** A ttl that is not positive is refused. */
  method Open(ttl: int, ghost now: int) returns (store: InMemoryIdempotencyStore?)
    ensures store == null <==> ttl <= 0
    ensures store != null ==>
          && fresh(store) && store.Valid() && store.ttl == ttl && store.marks == []
          && store.clock == now
  {
    if ttl <= 0 {
      return null;
    }
    store := new InMemoryIdempotencyStore(ttl, now);
  }

  /** One operation of a run: the answer and the new history are those of the plain history. */
  method Perform(store: InMemoryIdempotencyStore, ops: seq<Op>, i: nat) returns (answer: bool)
    requires store.Valid() && i < |ops| && store.clock <= ops[i].now && store.marks == History(ops[..i], store.ttl)
    modifies store
    ensures store.Valid() && store.clock == ops[i].now && store.marks == History(ops[..i + 1], store.ttl)
    ensures answer <==> Answer(ops, store.ttl, i)
  {
    assert ops[..i + 1][..i] == ops[..i];
    answer := true;
    match ops[i] {
      case IsProcessed(k, now) => answer := store.IsProcessed(k, now);
      case MarkProcessed(k, now) => store.MarkProcessed(k, now);
      case MarkIfNew(k, now) => answer := store.MarkIfNew(k, now);
    }
  }

  /** Any run of the store: its answers are those of the plain history of marks. */
  method RunStore(ttl: int, ops: seq<Op>) returns (accepted: bool, answers: seq<bool>)
    requires InOrder(ops)
    ensures accepted <==> ttl > 0
    ensures |answers| == if accepted then |ops| else 0
    ensures accepted ==> forall i: nat :: i < |ops| ==> (answers[i] <==> Answer(ops, ttl, i))
  {
    answers := [];
    ghost var start := if ops == [] then 0 else ops[0].now;
    var store := Open(ttl, start);
    if store == null {
      return false, [];
    }
    accepted := true;
    for i := 0 to |ops|
      invariant store.Valid() && fresh(store) && store.ttl == ttl
      invariant i < |ops| ==> store.clock <= ops[i].now
      invariant |answers| == i && store.marks == History(ops[..i], ttl)
      invariant forall j: nat :: j < i ==> answers[j] == Answer(ops, ttl, j)
    {
      hide InMemoryIdempotencyStore.Valid;
      var answer := Perform(store, ops, i);
      answers := answers + [answer];
    }
  }
}
