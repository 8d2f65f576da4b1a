/**
 The topic broker as an object, and the coordinator that scatters a request and gathers quotes
 until it has enough or its deadline passes, while everyone else keeps using the broker.
 */
module ScatterGather {
  import opened Basics
  import opened TopicModel

  /** The messages of one search, in order. */
  function Matching(quotes: seq<Message>, id: string): seq<Message> {
    if quotes == [] then []
    else
      Matching(quotes[..|quotes| - 1], id)
      + if quotes[|quotes| - 1].correlationId == id then [quotes[|quotes| - 1]] else []
  }

  lemma {:induction false} MatchingMembers(quotes: seq<Message>, id: string, m: Message)
    ensures m in Matching(quotes, id) <==> m in quotes && m.correlationId == id
  {
    if quotes == [] {
    } else {
      MatchingMembers(quotes[..|quotes| - 1], id, m);
      assert quotes == quotes[..|quotes| - 1] + [quotes[|quotes| - 1]];
    }
  }

  lemma MatchingNext(quotes: seq<Message>, m: Message, id: string)
    ensures Matching(quotes + [m], id) == Matching(quotes, id) + if m.correlationId == id then [m] else []
  {
    assert (quotes + [m])[..|quotes|] == quotes;
  }

  lemma {:induction false} MatchingConcat(p: seq<Message>, rest: seq<Message>, id: string)
    ensures Matching(p + rest, id) == Matching(p, id) + Matching(rest, id)
    decreases |rest|
  {
    if rest == [] {
      assert p + rest == p;
    } else {
      var n := |rest| - 1;
      MatchingConcat(p, rest[..n], id);
      assert p + rest == (p + rest[..n]) + [rest[n]];
      MatchingNext(p + rest[..n], rest[n], id);
    }
  }

  /** Quotes taken one at a time until `expected` of one search are in hand. */
  function Gathered(quotes: seq<Message>, id: string, expected: int): seq<Message> {
    if quotes == [] || expected <= 0 then []
    else if quotes[0].correlationId == id then [quotes[0]] + Gathered(quotes[1..], id, expected - 1)
    else Gathered(quotes[1..], id, expected)
  }

  lemma MatchingFirst(quotes: seq<Message>, id: string)
    requires quotes != []
    ensures Matching(quotes, id)
         == (if quotes[0].correlationId == id then [quotes[0]] else []) + Matching(quotes[1..], id)
  {
    assert quotes == [quotes[0]] + quotes[1..];
    MatchingConcat([quotes[0]], quotes[1..], id);
    MatchingNext([], quotes[0], id);
    assert [] + [quotes[0]] == [quotes[0]];
  }

  function First(s: seq<Message>, n: int): seq<Message> {
    if n <= 0 then [] else if n < |s| then s[..n] else s
  }

  /** Gathering is taking the first matching quotes; the others change nothing. */
  lemma {:induction false} GatheredIsFirstMatching(quotes: seq<Message>, id: string, expected: int)
    ensures Gathered(quotes, id, expected) == First(Matching(quotes, id), expected)
  {
    if quotes == [] || expected <= 0 {
    } else {
      MatchingFirst(quotes, id);
      GatheredIsFirstMatching(quotes[1..], id, if quotes[0].correlationId == id then expected - 1 else expected);
    }
  }

  /** Two arrival orders with the same quotes of a search give the same answer, whatever else they carry. */
  lemma ForeignQuotesChangeNothing(q: seq<Message>, q': seq<Message>, id: string, expected: int)
    requires Matching(q, id) == Matching(q', id)
    ensures Gathered(q, id, expected) == Gathered(q', id, expected)
  {
    GatheredIsFirstMatching(q, id, expected);
    GatheredIsFirstMatching(q', id, expected);
  }

  /** Concurrent searches with their own ids never see each other's quotes. */
  lemma SearchesAreIsolated(q: seq<Message>, q': seq<Message>, id: string, id': string, expected: int, expected': int)
    requires id != id'
    ensures forall m :: m in Gathered(q, id, expected) ==>
          && m in q && m.correlationId == id
          && m !in Gathered(q', id', expected')
  {
    GatheredIsFirstMatching(q, id, expected);
    GatheredIsFirstMatching(q', id', expected');
    hide Gathered, Matching;
    forall m | m in Gathered(q, id, expected) ensures m in q && m.correlationId == id
        && m !in Gathered(q', id', expected') {
      MatchingMembers(q, id, m);
      MatchingMembers(q', id', m);
    }
  }

  class InMemoryTopicBroker {
    var subscribers: map<string, seq<nat>>
    var queues: map<nat, seq<Message>>
    var nextId: nat
    ghost var log: seq<Published>
    ghost var members: map<nat, Membership>
    ghost var taken: map<nat, seq<Message>>

    ghost function Value(): System
      reads this
    {
      System(Broker(subscribers, queues, nextId), log, members, taken)
    }

    constructor ()
      ensures Value() == Initial()
    {
      subscribers, queues, nextId, log, members, taken := map[], map[], 0, [], map[], map[];
    }

    method Subscribe(topic: string) returns (queue: nat)
      modifies this
      ensures queue == old(nextId) && Value() == Step(old(Value()), Label.Subscribe(topic))
    {
      queue := nextId;
      if topic !in subscribers {
        subscribers := subscribers[topic := []];
      }
      subscribers := subscribers[topic := subscribers[topic] + [queue]];
      queues := queues[queue := []];
      nextId := nextId + 1;
      members := members[queue := Membership(topic, |log|, None)];
      taken := taken[queue := []];
    }

    method Unsubscribe(topic: string, queue: nat)
      modifies this
      ensures Value() == Step(old(Value()), Label.Unsubscribe(topic, queue))
    {
      if queue in members && members[queue].topic == topic && members[queue].until.None? {
        members := members[queue := members[queue].(until := Some(|log|))];
      }
      if topic !in subscribers {
        return;
      }
      subscribers := subscribers[topic := Remove(subscribers[topic], queue)];
    }

    method Publish(topic: string, m: Message) returns (reached: nat)
      modifies this
      ensures Value() == Step(old(Value()), Label.Publish(topic, m))
      ensures reached == |SubscribersOf(old(Value()).b, topic)|
    {
      var ids := if topic in subscribers then subscribers[topic] else [];
      assert ids[..0] == [];
      for i := 0 to |ids|
        invariant queues == PutAll(old(queues), ids[..i], m)
        invariant subscribers == old(subscribers) && nextId == old(nextId)
        invariant log == old(log) && members == old(members) && taken == old(taken)
      {
        assert ids[..i + 1][..i] == ids[..i];
        queues := Put(queues, ids[i], m);
      }
      assert ids[..|ids|] == ids;
      log := log + [Published(topic, m)];
      return |ids|;
    }

    method Get(queue: nat) returns (m: Message)
      requires CanTake(Value().b, queue)
      modifies this
      ensures Value() == Step(old(Value()), Label.Get(queue)) && m == old(queues[queue][0])
    {
      m := queues[queue][0];
      taken := taken[queue := (if queue in taken then taken[queue] else []) + [m]];
      queues := queues[queue := queues[queue][1..]];
    }

    /** What everyone else does, in order. */
    method Others(labels: seq<Label>)
      modifies this
      ensures Value() == Exec(old(Value()), labels)
    {
      assert labels[..0] == [];
      hide Step;
      for i := 0 to |labels|
        invariant Value() == Exec(old(Value()), labels[..i])
      {
        assert labels[..i + 1][..i] == labels[..i];
        One(labels[i]);
      }
      assert labels[..|labels|] == labels;
    }

    method One(l: Label)
      modifies this
      ensures Value() == Step(old(Value()), l)
    {
      match l {
        case Subscribe(topic) => var queue := Subscribe(topic);
        case Unsubscribe(topic, queue) => Unsubscribe(topic, queue);
        case Publish(topic, m) => var reached := Publish(topic, m);
        case Get(queue) =>
          if queue in queues && queues[queue] != [] {
            var m := Get(queue);
          }
      }
    }
  }

  /** Something that happens while a task is suspended: what others do, and when. */
  datatype Turn = Turn(at: real, others: seq<Label>)

  function Later(a: real, b: real): real {
    if a >= b then a else b
  }

  /**
   The event loop as one task sees it: a clock that never goes back, and the turns others take while
   the task is suspended. Once those are used up nothing happens until the task's own timer fires.
   */
  class EventLoop {
    const broker: InMemoryTopicBroker
    const readings: nat -> real
    const turns: seq<Turn>
    var now: real
    var ticks: nat
    var turn: nat

    constructor (broker: InMemoryTopicBroker, readings: nat -> real, turns: seq<Turn>, now: real)
      ensures this.broker == broker && this.readings == readings && this.turns == turns
      ensures this.now == now && ticks == 0 && turn == 0
    {
      this.broker, this.readings, this.turns, this.now, ticks, turn := broker, readings, turns, now, 0, 0;
    }

    method Time() returns (t: real)
      modifies this
      ensures t == now == Later(old(now), readings(old(ticks)))
      ensures ticks == old(ticks) + 1 && turn == old(turn)
    {
      now := Later(now, readings(ticks));
      ticks := ticks + 1;
      t := now;
    }

    /** Suspends the task until others have acted once or, with nothing left to happen, until `timer`. */
    method Suspend(timer: real)
      requires turn <= |turns|
      modifies this, broker
      ensures ticks == old(ticks)
      ensures if old(turn) < |turns| then
                && turn == old(turn) + 1 && now == Later(old(now), turns[old(turn)].at)
                && broker.Value() == Exec(old(broker.Value()), turns[old(turn)].others)
              else
                && turn == old(turn) && now == Later(old(now), timer)
                && broker.Value() == old(broker.Value())
    {
      if turn == |turns| {
        now := Later(now, timer);
        return;
      }
      broker.Others(turns[turn].others);
      now := Later(now, turns[turn].at);
      turn := turn + 1;
    }
  }

  /** Publishing adds its requests to the log, in order, and ends no subscription. */
  lemma {:induction false} PublishesLog(s: System, labels: seq<Label>)
    requires forall i :: 0 <= i < |labels| ==> labels[i].Publish?
    ensures var s' := Exec(s, labels);
            && s'.members == s.members && s'.b.subscribers == s.b.subscribers
            && |s'.log| == |s.log| + |labels| && s.log <= s'.log
            && forall i :: 0 <= i < |labels| ==> s'.log[|s.log| + i] == Published(labels[i].topic, labels[i].message)
  {
    if labels == [] {
    } else {
      var n := |labels| - 1;
      PublishesLog(s, labels[..n]);
      var before := Exec(s, labels[..n]);
      assert Exec(s, labels) == Step(before, labels[n]);
      assert Fanned(before.b, labels[n].topic, labels[n].message).subscribers == before.b.subscribers;
      assert Step(before, labels[n]).log == before.log + [Published(labels[n].topic, labels[n].message)];
    }
    hide Fanned;
  }

  lemma EvolvedItself(s: System)
    ensures Evolved(s, s)
  {
  }

  lemma OneEvolves(s0: System, s: System, l: Label)
    requires Evolved(s0, s) && Inv(s)
    ensures Evolved(s0, Step(s, l))
  {
    StepEvolves(s, l);
    EvolvedFurther(s0, s, Step(s, l));
  }

  lemma OthersEvolve(s0: System, s: System, labels: seq<Label>)
    requires Evolved(s0, s) && Inv(s)
    ensures Evolved(s0, Exec(s, labels))
  {
    RunEvolves(s, labels);
    EvolvedFurther(s0, s, Exec(s, labels));
  }

  /** Every queue that `s` has on a topic has received the requests on it, in order, by `s'`. */
  ghost predicate Asked(s: System, requests: seq<Published>, s': System) {
    forall id: nat, topic: string :: id in SubscribersOf(s.b, topic) ==>
      TakenBy(s, id) + Queued(s, id) + OnTopic(requests, topic) <= TakenBy(s', id) + Queued(s', id)
  }

  /** The topics of a recipient list. */
  function TopicsOf(names: seq<string>): (topics: seq<string>)
    ensures |topics| == |names|
    ensures forall i :: 0 <= i < |names| ==> topics[i] == "flights:search:requests:" + names[i]
  {
    seq(|names|, i requires 0 <= i < |names| => "flights:search:requests:" + names[i])
  }

  /** How many queues the topics have between them. */
  function Reach(b: Broker, topics: seq<string>): nat {
    if topics == [] then 0
    else Reach(b, topics[..|topics| - 1]) + |SubscribersOf(b, topics[|topics| - 1])|
  }

  function RequestsTo(topics: seq<string>, request: Message): (requests: seq<Published>)
    ensures |requests| == |topics|
    ensures forall i :: 0 <= i < |topics| ==> requests[i] == Published(topics[i], request)
  {
    seq(|topics|, i requires 0 <= i < |topics| => Published(topics[i], request))
  }

  /**
   Since `s` the request was published once on each of `topics`, in order and before anything else,
   and every queue `s` has on one of them has received it as often as the topic is named.
   */
  ghost predicate Requested(s: System, topics: seq<string>, request: Message, s': System) {
    s.log + RequestsTo(topics, request) <= s'.log && Asked(s, RequestsTo(topics, request), s')
  }

  /** Every subscription of `s` is as it was. */
  ghost predicate Joined(s: System, mid: System) {
    forall id :: id in s.members ==> id in mid.members && mid.members[id] == s.members[id]
  }

  /** `mid` is `s` with a new subscription and the requests published. */
  lemma RequestsArrive(s: System, mid: System, requests: seq<Published>, s': System)
    requires Inv(s) && Inv(s') && Evolved(mid, s') && mid.log == s.log + requests
    requires Joined(s, mid)
    ensures Asked(s, requests, s')
  {
    hide Offered, OnTopic, TakenBy, Queued, SubscribersOf;
    forall id: nat, topic: string | id in SubscribersOf(s.b, topic)
      ensures TakenBy(s, id) + Queued(s, id) + OnTopic(requests, topic) <= TakenBy(s', id) + Queued(s', id)
    {
      RequestArrives(s, mid, requests, s', id, topic);
    }
  }

  lemma RequestArrives(s: System, mid: System, requests: seq<Published>, s': System, id: nat, topic: string)
    requires Inv(s) && Inv(s') && Evolved(mid, s') && mid.log == s.log + requests && id in SubscribersOf(s.b, topic)
    requires id in s.members ==> id in mid.members && mid.members[id] == s.members[id]
    ensures TakenBy(s, id) + Queued(s, id) + OnTopic(requests, topic) <= TakenBy(s', id) + Queued(s', id)
  {
    assert TopicHolds(s, topic) && QueueHolds(s, id) && QueueHolds(s', id);
    hide Offered, OnTopic, TakenBy, Queued, Inv;
    var m := s.members[id];
    assert m.topic == topic && m.until.None?;
    OfferedMore(m, s.log, requests);
    OfferedStays(m, s'.members[id], mid.log, s'.log);
  }

  /** What the labels publish, in order. */
  function LogOf(labels: seq<Label>): seq<Published> {
    if labels == [] then []
    else
      LogOf(labels[..|labels| - 1])
      + match labels[|labels| - 1]
        case Publish(topic, m) => [Published(topic, m)]
        case _ => []
  }

  /** What others publish in the turns `from .. to`. */
  function TurnsLog(turns: seq<Turn>, from: nat, to: nat): seq<Published>
    requires to <= |turns|
  {
    if to <= from then [] else TurnsLog(turns, from, to - 1) + LogOf(turns[to - 1].others)
  }

  lemma {:induction false} LogIsPublished(s: System, labels: seq<Label>)
    ensures Exec(s, labels).log == s.log + LogOf(labels)
  {
    if labels == [] {
    } else {
      LogIsPublished(s, labels[..|labels| - 1]);
    }
    hide Fanned, Taken, Subscribed, Unsubscribed;
  }

  lemma TurnsLogNext(turns: seq<Turn>, from: nat, to: nat)
    requires from <= to < |turns|
    ensures TurnsLog(turns, from, to + 1) == TurnsLog(turns, from, to) + LogOf(turns[to].others)
  {
  }

  lemma {:induction false} TurnsLogJoin(turns: seq<Turn>, a: nat, b: nat, c: nat)
    requires a <= b <= c <= |turns|
    ensures TurnsLog(turns, a, c) == TurnsLog(turns, a, b) + TurnsLog(turns, b, c)
    decreases c
  {
    if c == b {
    } else {
      TurnsLogJoin(turns, a, b, c - 1);
    }
  }

  /** From `s0` to `s` nothing was published but what others did in the turns `from .. to`. */
  ghost predicate Heard(s0: System, s: System, turns: seq<Turn>, from: nat, to: nat) {
    from <= to <= |turns| && s.log == s0.log + TurnsLog(turns, from, to)
  }

  lemma HeardIs(s0: System, s: System, turns: seq<Turn>, from: nat, to: nat)
    requires Heard(s0, s, turns, from, to)
    ensures from <= to <= |turns| && s.log == s0.log + TurnsLog(turns, from, to)
  {
    hide TurnsLog;
  }

  lemma HeardNothing(s: System, turns: seq<Turn>, from: nat)
    requires from <= |turns|
    ensures Heard(s, s, turns, from, from)
  {
  }

  lemma HeardTurn(s0: System, s: System, turns: seq<Turn>, from: nat, to: nat)
    requires Heard(s0, s, turns, from, to) && to < |turns|
    ensures Heard(s0, Exec(s, turns[to].others), turns, from, to + 1)
  {
    LogIsPublished(s, turns[to].others);
    TurnsLogNext(turns, from, to);
    hide LogOf, Exec, TurnsLog;
  }

  lemma HeardGet(s0: System, s: System, turns: seq<Turn>, from: nat, to: nat, l: Label)
    requires Heard(s0, s, turns, from, to) && !l.Publish?
    ensures Heard(s0, Step(s, l), turns, from, to)
  {
    hide TurnsLog;
  }

  lemma HeardFurther(s0: System, s: System, s': System, turns: seq<Turn>, a: nat, b: nat, c: nat)
    requires Heard(s0, s, turns, a, b) && Heard(s, s', turns, b, c)
    ensures Heard(s0, s', turns, a, c)
  {
    TurnsLogJoin(turns, a, b, c);
    hide TurnsLog;
  }

  /** Nobody else takes from or detaches this queue. */
  predicate LeavesAlone(labels: seq<Label>, queue: nat) {
    forall l :: l in labels ==> !((l.Get? || l.Unsubscribe?) && l.queue == queue)
  }

  lemma StepLeavesAlone(s: System, l: Label, queue: nat)
    requires Inv(s) && queue in s.members && LeavesAlone([l], queue)
    ensures var s' := Step(s, l);
            queue in s'.members && s'.members[queue] == s.members[queue] && TakenBy(s', queue) == TakenBy(s, queue)
  {
    assert QueueHolds(s, queue);
    assert l in [l];
    hide Inv, Offered, Remove, PutAll;
  }

  lemma {:induction false} OthersLeaveAlone(s: System, labels: seq<Label>, queue: nat)
    requires Inv(s) && queue in s.members && LeavesAlone(labels, queue)
    ensures var s' := Exec(s, labels);
            Inv(s') && queue in s'.members && s'.members[queue] == s.members[queue]
                && TakenBy(s', queue) == TakenBy(s, queue)
  {
    if labels == [] {
    } else {
      var n := |labels| - 1;
      OthersLeaveAlone(s, labels[..n], queue);
      InvStep(Exec(s, labels[..n]), labels[n]);
      StepLeavesAlone(Exec(s, labels[..n]), labels[n], queue);
      hide Inv, Step, TakenBy;
    }
  }

  lemma GetTakes(s: System, queue: nat)
    requires Inv(s) && queue in s.members && CanTake(s.b, queue)
    ensures var s' := Step(s, Get(queue));
            && Inv(s') && queue in s'.members && s'.members[queue] == s.members[queue]
            && TakenBy(s', queue) == TakenBy(s, queue) + [s.b.queues[queue][0]]
  {
    InvStep(s, Get(queue));
    hide Inv;
  }

  /** From `s0` to `s` the queue's owner has taken `got`; the subscription is as it was, the log has only grown. */
  ghost predicate Keeps(s0: System, s: System, queue: nat, got: seq<Message>) {
    && Inv(s) && queue in s0.members && queue in s.members && s.members[queue] == s0.members[queue]
    && TakenBy(s, queue) == TakenBy(s0, queue) + got
    && Evolved(s0, s)
  }

  lemma KeepsItself(s: System, queue: nat)
    requires Inv(s) && queue in s.members
    ensures Keeps(s, s, queue, [])
  {
    EvolvedItself(s);
    hide Inv, Evolved;
  }

  lemma KeepsIs(s0: System, s: System, queue: nat, got: seq<Message>)
    requires Keeps(s0, s, queue, got)
    ensures Inv(s) && queue in s.members && s.members[queue] == s0.members[queue] && Evolved(s0, s)
    ensures TakenBy(s, queue) == TakenBy(s0, queue) + got
  {
    hide Inv, Evolved;
  }

  lemma KeepsFurther(s0: System, s: System, s': System, queue: nat, got: seq<Message>, more: seq<Message>)
    requires Keeps(s0, s, queue, got) && Keeps(s, s', queue, more)
    ensures Keeps(s0, s', queue, got + more)
  {
    EvolvedFurther(s0, s, s');
    hide Inv, Evolved, TakenBy;
  }

  lemma KeepsStill(s0: System, s: System, s': System, queue: nat, got: seq<Message>)
    requires Keeps(s0, s, queue, got) && Keeps(s, s', queue, [])
    ensures Keeps(s0, s', queue, got)
  {
    KeepsFurther(s0, s, s', queue, got, []);
    assert got + [] == got;
    hide Keeps;
  }

  lemma OthersKeep(s0: System, s: System, labels: seq<Label>, queue: nat)
    requires Keeps(s0, s, queue, []) && LeavesAlone(labels, queue)
    ensures Keeps(s0, Exec(s, labels), queue, [])
  {
    OthersLeaveAlone(s, labels, queue);
    OthersEvolve(s0, s, labels);
    hide Inv, Evolved, TakenBy, Exec, LeavesAlone;
  }

  lemma GetKeeps(s0: System, s: System, queue: nat)
    requires Keeps(s0, s, queue, []) && CanTake(s.b, queue)
    ensures Keeps(s0, Step(s, Get(queue)), queue, [s.b.queues[queue][0]])
  {
    GetTakes(s, queue);
    OneEvolves(s0, s, Get(queue));
    assert TakenBy(s0, queue) + [] == TakenBy(s0, queue);
    hide Inv, Evolved, TakenBy, Step;
  }

  /** Waiting from `s0` to `s`: nothing taken, and the turns `from .. to` gone by. */
  ghost predicate Waits(s0: System, s: System, queue: nat, turns: seq<Turn>, from: nat, to: nat) {
    && Keeps(s0, s, queue, []) && Heard(s0, s, turns, from, to)
    && (to == from ==> Queued(s, queue) == Queued(s0, queue))
  }

  lemma WaitsYet(s: System, queue: nat, turns: seq<Turn>, from: nat)
    requires Inv(s) && queue in s.members && from <= |turns|
    ensures Waits(s, s, queue, turns, from, from)
  {
    KeepsItself(s, queue);
    HeardNothing(s, turns, from);
    hide Keeps, Heard;
  }

  lemma WaitsTurn(s0: System, s: System, queue: nat, turns: seq<Turn>, from: nat, to: nat)
    requires Waits(s0, s, queue, turns, from, to) && to < |turns| && LeavesAlone(turns[to].others, queue)
    ensures Waits(s0, Exec(s, turns[to].others), queue, turns, from, to + 1)
  {
    OthersKeep(s0, s, turns[to].others, queue);
    HeardTurn(s0, s, turns, from, to);
    HeardIs(s0, s, turns, from, to);
    hide Keeps, Heard, Exec, LeavesAlone;
  }

  /** After one more suspension. */
  lemma WaitsOn(s0: System, s: System, s': System, queue: nat, turns: seq<Turn>, from: nat, to: nat, next: nat)
    requires Waits(s0, s, queue, turns, from, to) && forall t :: t in turns ==> LeavesAlone(t.others, queue)
    requires to <= |turns| && s' == if to < |turns| then Exec(s, turns[to].others) else s
    requires next == if to < |turns| then to + 1 else to
    ensures Waits(s0, s', queue, turns, from, next)
  {
    if to < |turns| {
      WaitsTurn(s0, s, queue, turns, from, to);
    }
    hide Waits, Exec;
  }

  lemma WaitsIs(s0: System, s: System, queue: nat, turns: seq<Turn>, from: nat, to: nat)
    requires Waits(s0, s, queue, turns, from, to)
    ensures Keeps(s0, s, queue, []) && Heard(s0, s, turns, from, to)
    ensures to == from ==> Queued(s, queue) == Queued(s0, queue)
  {
    hide Keeps, Heard;
  }

  /** Exactly the matching quotes of what was taken, and nothing taken once there were enough. */
  ghost predicate Collects(collected: seq<Message>, got: seq<Message>, id: string, expected: int) {
    && collected == Matching(got, id)
    && |collected| <= (if expected > 0 then expected else 0)
    && (got != [] ==> |Matching(got[..|got| - 1], id)| < expected)
  }

  lemma CollectsNothing(id: string, expected: int)
    ensures Collects([], [], id, expected)
  {
  }

  /** The clock was seen at or past `deadline` since `ticks` readings and `turn` turns. */
  ghost predicate SeenLate(loop: EventLoop, ticks: nat, turn: nat, deadline: real)
    reads loop
  {
    || (exists j: nat :: ticks <= j < loop.ticks && loop.readings(j) >= deadline)
    || (exists i: nat :: turn <= i < loop.turn && i < |loop.turns| && loop.turns[i].at >= deadline)
  }

  lemma LateReading(loop: EventLoop, ticks: nat, turn: nat, deadline: real)
    requires ticks < loop.ticks
    ensures loop.readings(loop.ticks - 1) >= deadline ==> SeenLate(loop, ticks, turn, deadline)
  {
    var j: nat := loop.ticks - 1;
    assert loop.readings(j) == loop.readings(loop.ticks - 1);
  }

  lemma LateTurn(loop: EventLoop, ticks: nat, turn: nat, deadline: real, i: nat)
    requires turn <= i < loop.turn && i < |loop.turns| && loop.turns[i].at >= deadline
    ensures SeenLate(loop, ticks, turn, deadline)
  {
  }

  lemma SeenLonger(loop: EventLoop, ticks: nat, turn: nat, ticks': nat, turn': nat, deadline: real)
    requires ticks <= ticks' && turn <= turn'
    ensures SeenLate(loop, ticks', turn', deadline) ==> SeenLate(loop, ticks, turn, deadline)
  {
  }

  /** What others do on this loop leaves the queue to its owner. */
  ghost predicate Ours(loop: EventLoop, queue: nat)
    reads loop
  {
    loop.turn <= |loop.turns| && forall t :: t in loop.turns ==> LeavesAlone(t.others, queue)
  }

  lemma CollectNext(collected: seq<Message>, got: seq<Message>, m: Message, id: string, expected: int)
    requires Collects(collected, got, id, expected) && |collected| < expected
    ensures m.correlationId == id ==> Collects(collected + [m], got + [m], id, expected)
    ensures m.correlationId != id ==> Collects(collected, got + [m], id, expected)
  {
    MatchingNext(got, m, id);
    assert (got + [m])[..|got|] == got && collected + [] == collected;
    hide Matching;
  }

  datatype Strategy = PublishSubscribe | RecipientList

  datatype Result<T> = Ok(value: T) | RecipientsRequired

  class ScatterGatherCoordinator {
    const broker: InMemoryTopicBroker
    const loop: EventLoop
    const responseTopic: string
    const broadcastTopic: string

    constructor (loop: EventLoop, responseTopic: string, broadcastTopic: string)
      ensures this.loop == loop && broker == loop.broker
      ensures this.responseTopic == responseTopic && this.broadcastTopic == broadcastTopic
    {
      this.loop, broker := loop, loop.broker;
      this.responseTopic, this.broadcastTopic := responseTopic, broadcastTopic;
    }

    function RequestTopic(airline: string): string {
      "flights:search:requests:" + airline
    }

    /** One publish to the broadcast topic, or one to each recipient's own topic in turn. */
    function ScatterLabels(request: Message, strategy: Strategy, recipients: seq<string>): seq<Label> {
      if strategy.PublishSubscribe? then [Publish(broadcastTopic, request)]
      else seq(|recipients|, i requires 0 <= i < |recipients| => Publish(RequestTopic(recipients[i]), request))
    }

    method Scatter(request: Message, strategy: Strategy, recipients: Option<seq<string>>) returns (r: Result<nat>)
      modifies broker
      ensures r.Ok? <==> strategy.PublishSubscribe? || recipients.Some?
      ensures var named := if recipients.Some? then recipients.value else [];
              var labels := ScatterLabels(request, strategy, named);
              if r.Ok? then
                broker.Value() == Exec(old(broker.Value()), labels)
              else broker.Value() == old(broker.Value())
      ensures r.Ok? && strategy.PublishSubscribe? ==>
                && broker.log == old(broker.log) + RequestsTo([broadcastTopic], request)
                && r.value == Reach(old(broker.Value()).b, [broadcastTopic])
      ensures r.Ok? && strategy.RecipientList? ==>
                && broker.log == old(broker.log) + RequestsTo(TopicsOf(recipients.value), request)
                && r.value == Reach(old(broker.Value()).b, TopicsOf(recipients.value))
      ensures broker.members == old(broker.members)
    {
      ghost var s := broker.Value();
      BroadcastIs(s, request);
      hide Exec, Step, Reach, ScatterLabels, SubscribersOf;
      if strategy.PublishSubscribe? {
        var reached := broker.Publish(broadcastTopic, request);
        SameLabels(request, if recipients.Some? then recipients.value else []);
        return Ok(reached);
      }
      if recipients.None? {
        return RecipientsRequired;
      }
      var airlines := recipients.value;
      var reached := 0;
      ghost var labels := ScatterLabels(request, strategy, airlines);
      SameLabels(request, airlines);
      ghost var topics := TopicsOf(airlines);
      NoneReached(s, labels, topics);
      for i := 0 to |airlines|
        invariant |labels| == |airlines| && broker.Value() == Exec(s, labels[..i]) && reached == Reach(s.b, topics[..i])
      {
        OneReached(s, request, airlines, i);
        var more := broker.Publish(RequestTopic(airlines[i]), request);
        reached := reached + more;
      }
      assert labels[..|labels|] == labels && topics[..|topics|] == topics;
      ListIs(s, request, airlines);
      return Ok(reached);
    }

    lemma SameLabels(request: Message, names: seq<string>)
      ensures ScatterLabels(request, PublishSubscribe, names) == ScatterLabels(request, PublishSubscribe, [])
      ensures |ScatterLabels(request, RecipientList, names)| == |names|
    {
    }

    lemma BroadcastIs(s: System, request: Message)
      ensures var labels := ScatterLabels(request, PublishSubscribe, []); var s' := Exec(s, labels);
              && s' == Step(s, Publish(broadcastTopic, request))
              && Reach(s.b, [broadcastTopic]) == |SubscribersOf(s.b, broadcastTopic)|
              && s'.log == s.log + RequestsTo([broadcastTopic], request) && s'.members == s.members
    {
      var labels := ScatterLabels(request, PublishSubscribe, []);
      assert labels[..0] == [] && Exec(s, labels[..0]) == s;
      assert [broadcastTopic][..0] == [] && Reach(s.b, []) == 0;
    }

    lemma NoneReached(s: System, labels: seq<Label>, topics: seq<string>)
      ensures Exec(s, labels[..0]) == s && Reach(s.b, topics[..0]) == 0
    {
    }

    lemma OneReached(s: System, request: Message, names: seq<string>, i: nat)
      requires i < |names|
      ensures var labels := ScatterLabels(request, RecipientList, names);
              && |labels| == |names| && labels[i] == Publish(RequestTopic(names[i]), request)
              && Exec(s, labels[..i + 1]) == Step(Exec(s, labels[..i]), labels[i])
              && var topics := TopicsOf(names);
              Reach(s.b, topics[..i + 1])
              == Reach(s.b, topics[..i]) + |SubscribersOf(Exec(s, labels[..i]).b, RequestTopic(names[i]))|
    {
      var labels := ScatterLabels(request, RecipientList, names);
      var more := labels[..i + 1];
      assert |more| == i + 1 && more[..i] == labels[..i] && more[i] == labels[i];
      PublishesLog(s, labels[..i]);
      var topics := TopicsOf(names)[..i + 1];
      assert |topics| == i + 1 && topics[..i] == TopicsOf(names)[..i] && topics[i] == RequestTopic(names[i]);
      assert SubscribersOf(Exec(s, labels[..i]).b, topics[i]) == SubscribersOf(s.b, topics[i]);
      hide Step, SubscribersOf;
    }

    lemma ListIs(s: System, request: Message, names: seq<string>)
      ensures var s' := Exec(s, ScatterLabels(request, RecipientList, names));
              s'.members == s.members && s'.log == s.log + RequestsTo(TopicsOf(names), request)
    {
      var labels := ScatterLabels(request, RecipientList, names);
      PublishesLog(s, labels);
      var s' := Exec(s, labels);
      hide Exec;
      forall i | 0 <= i < |names|
        ensures s'.log[|s.log| + i] == Published(TopicsOf(names)[i], request)
      {
        assert labels[i] == Publish(RequestTopic(names[i]), request);
      }
    }

    /**
     Returns the quotes of this search among those taken and takes none once there are enough. It
     returns fewer than expected exactly when the deadline has passed by the end. It leaves a quote
     queued then, or a turn of the others to come, only if the clock was seen to be late; all that is
     published meanwhile is what they publish in their turns.
     */
    method Gather(queue: nat, id: string, expected: int, timeout: real)
      returns (collected: seq<Message>, ghost got: seq<Message>, ghost deadline: real)
      requires loop.broker == broker && Inv(broker.Value()) && queue in broker.members && Ours(loop, queue)
      modifies broker, loop
      ensures Keeps(old(broker.Value()), broker.Value(), queue, got)
      ensures Collects(collected, got, id, expected)
      ensures deadline == Later(old(loop.now), loop.readings(old(loop.ticks))) + timeout
      ensures expected > 0 ==> (|collected| < expected <==> loop.now >= deadline)
      ensures Heard(old(broker.Value()), broker.Value(), loop.turns, old(loop.turn), loop.turn)
      ensures |collected| < expected && (Queued(broker.Value(), queue) != [] || loop.turn < |loop.turns|) ==>
                timeout <= 0.0 || SeenLate(loop, old(loop.ticks), old(loop.turn), deadline)
    {
      collected, got := [], [];
      CollectsNothing(id, expected);
      var started := loop.Time();
      deadline := started + timeout;
      var due := started + timeout;
      KeepsItself(broker.Value(), queue);
      HeardNothing(broker.Value(), loop.turns, loop.turn);
      hide Inv, Collects, Matching, LeavesAlone, Keeps, SeenLate, Queued, Heard;
      while |collected| < expected
        invariant Keeps(old(broker.Value()), broker.Value(), queue, got)
        invariant Collects(collected, got, id, expected) && Ours(loop, queue)
        invariant Heard(old(broker.Value()), broker.Value(), loop.turns, old(loop.turn), loop.turn)
        invariant old(loop.ticks) < loop.ticks && old(loop.turn) <= loop.turn
        invariant loop.now < due || (got == [] && collected == [] && loop.now == started)
        decreases |loop.turns| - loop.turn, |Queued(broker.Value(), queue)|
      {
        var before := loop.now;
        var time := loop.Time();
        var remaining := due - time;
        if remaining <= 0.0 {
          assert loop.readings(loop.ticks - 1) >= due || before >= due;
          LateReading(loop, old(loop.ticks), old(loop.turn), due);
          break;
        }
        ghost var met, turn := broker.Value(), loop.turn;
        KeepsIs(old(broker.Value()), met, queue, got);
        var quote := Await(queue, due);
        HeardFurther(old(broker.Value()), met, broker.Value(), loop.turns, old(loop.turn), turn, loop.turn);
        if quote.None? {
          KeepsStill(old(broker.Value()), met, broker.Value(), queue, got);
          SeenLonger(loop, old(loop.ticks), old(loop.turn), loop.ticks, turn, due);
          break;
        }
        KeepsFurther(old(broker.Value()), met, broker.Value(), queue, got, [quote.value]);
        CollectNext(collected, got, quote.value, id, expected);
        got := got + [quote.value];
        if quote.value.correlationId != id {
          continue;
        }
        collected := collected + [quote.value];
      }
    }

    /** One suspension of a task waiting for its queue. */
    method SuspendOnce(queue: nat, due: real, ghost s0: System, ghost from: nat)
      requires loop.broker == broker && Ours(loop, queue) && loop.now < due && from <= loop.turn
      requires Waits(s0, broker.Value(), queue, loop.turns, from, loop.turn)
      modifies broker, loop
      ensures Ours(loop, queue) && loop.ticks == old(loop.ticks)
      ensures old(loop.turn) < |loop.turns| ==> loop.turn == old(loop.turn) + 1
      ensures old(loop.turn) == |loop.turns| ==>
                loop.turn == old(loop.turn) && loop.now >= due && broker.Value() == old(broker.Value())
      ensures Waits(s0, broker.Value(), queue, loop.turns, from, loop.turn)
      ensures loop.now >= due && old(loop.turn) < |loop.turns| ==> SeenLate(loop, loop.ticks, from, due)
    {
      ghost var met, k := broker.Value(), loop.turn;
      hide LeavesAlone, SeenLate, Waits, Exec;
      loop.Suspend(due);
      WaitsOn(s0, met, broker.Value(), queue, loop.turns, from, k, loop.turn);
      if loop.now >= due && k < |loop.turns| {
        LateTurn(loop, loop.ticks, from, due, k);
      }
    }

    /** `queue.get` under a timeout: a queued quote at once, else whatever others bring before `due`. */
    method Await(queue: nat, due: real) returns (quote: Option<Message>)
      requires loop.broker == broker && Inv(broker.Value()) && queue in broker.members && Ours(loop, queue)
      requires loop.now < due
      modifies broker, loop
      ensures Keeps(old(broker.Value()), broker.Value(), queue, if quote.Some? then [quote.value] else [])
      ensures Ours(loop, queue) && loop.ticks == old(loop.ticks) && loop.turn >= old(loop.turn)
      ensures quote.Some? <==> loop.now < due
      ensures quote.Some? ==>
                loop.turn > old(loop.turn) || |Queued(broker.Value(), queue)| < |old(Queued(broker.Value(), queue))|
      ensures quote.None? && (Queued(broker.Value(), queue) != [] || loop.turn < |loop.turns|) ==>
                SeenLate(loop, loop.ticks, old(loop.turn), due)
      ensures Heard(old(broker.Value()), broker.Value(), loop.turns, old(loop.turn), loop.turn)
    {
      WaitsYet(broker.Value(), queue, loop.turns, loop.turn);
      hide Inv, LeavesAlone, Keeps, Heard, SeenLate, Waits, Exec;
      while queue !in broker.queues || broker.queues[queue] == []
        invariant Ours(loop, queue) && loop.ticks == old(loop.ticks) && loop.turn >= old(loop.turn) && loop.now < due
        invariant Waits(old(broker.Value()), broker.Value(), queue, loop.turns, old(loop.turn), loop.turn)
        decreases |loop.turns| - loop.turn
      {
        SuspendOnce(queue, due, old(broker.Value()), old(loop.turn));
        if loop.now >= due {
          WaitsIs(old(broker.Value()), broker.Value(), queue, loop.turns, old(loop.turn), loop.turn);
          return None;
        }
      }
      WaitsIs(old(broker.Value()), broker.Value(), queue, loop.turns, old(loop.turn), loop.turn);
      GetKeeps(old(broker.Value()), broker.Value(), queue);
      HeardGet(old(broker.Value()), broker.Value(), loop.turns, old(loop.turn), loop.turn, Get(queue));
      hide Exec;
      var m := broker.Get(queue);
      return Some(m);
    }

    /**
     The queue exists before anything is scattered and is detached at the end, error or not. The
     answer is the start of what was published for this search, complete unless time ran out. The
     request goes once to the broadcast topic or once to each recipient's own, before anything else
     is published, and reaches every queue those topics had at the call. Nothing else is published
     but by others in their turns, of which none is left unless the deadline cut them off.
     */
    method Search(request: Message, strategy: Strategy, expected: int, timeout: real, recipients: Option<seq<string>>)
      returns (r: Result<seq<Message>>, queue: nat, ghost deadline: real)
      requires loop.broker == broker && Inv(broker.Value()) && Ours(loop, broker.nextId)
      modifies broker, loop
      ensures Inv(broker.Value()) && queue == old(broker.nextId)
      ensures queue in broker.members && broker.members[queue].topic == responseTopic
      ensures broker.members[queue].from == |old(broker.log)| && broker.members[queue].until == Some(|broker.log|)
      ensures queue !in SubscribersOf(broker.Value().b, responseTopic)
      ensures r.Ok? <==> strategy.PublishSubscribe? || recipients.Some?
      ensures !r.Ok? ==> broker.log == old(broker.log)
      ensures r.Ok? ==>
                old(loop.turn) <= loop.turn <= |loop.turns| &&
                var topics := if strategy.PublishSubscribe? then [broadcastTopic] else TopicsOf(recipients.value);
                broker.log == old(broker.log) + RequestsTo(topics, request)
                              + TurnsLog(loop.turns, old(loop.turn), loop.turn)
      ensures r.Ok? && strategy.PublishSubscribe? ==>
                Requested(old(broker.Value()), [broadcastTopic], request, broker.Value())
      ensures r.Ok? && strategy.RecipientList? ==>
                Requested(old(broker.Value()), TopicsOf(recipients.value), request, broker.Value())
      ensures r.Ok? ==> r.value <= Matching(Offered(broker.members[queue], broker.log), request.correlationId)
      ensures r.Ok? ==> |r.value| <= if expected > 0 then expected else 0
      ensures r.Ok? ==> deadline == Later(old(loop.now), loop.readings(old(loop.ticks))) + timeout
      ensures r.Ok? && expected > 0 ==> (|r.value| < expected <==> loop.now >= deadline)
      ensures r.Ok? && |r.value| < expected ==>
                || (r.value == Matching(Offered(broker.members[queue], broker.log), request.correlationId)
                    && loop.turn == |loop.turns|)
                || timeout <= 0.0 || SeenLate(loop, old(loop.ticks), old(loop.turn), deadline)
    {
      ghost var s0 := broker.Value();
      deadline := 0.0;
      Subscribes(s0, responseTopic);
      hide Exec, Step, Inv, TakenBy, ScatterLabels, LeavesAlone, SeenLate, Evolved, Asked, Joined, Offered, Matching,
          SubscribersOf, OnTopic, Reach, Queued, Requested, Keeps,
          Heard, TurnsLog;
      queue := broker.Subscribe(responseTopic);
      ghost var s1 := broker.Value();
      var reached := Scatter(request, strategy, recipients);
      ghost var mid := broker.Value();
      Scattered(s0, s1, request, strategy, if recipients.Some? then recipients.value else [], queue);
      if reached.RecipientsRequired? {
        Detached(mid, responseTopic, queue);
        broker.Unsubscribe(responseTopic, queue);
        return RecipientsRequired, queue, deadline;
      }
      var collected;
      ghost var got;
      collected, got, deadline := Gather(queue, request.correlationId, expected, timeout);
      ghost var s2 := broker.Value();
      KeepsIs(mid, s2, queue, got);
      assert TakenBy(mid, queue) == [] && TakenBy(s2, queue) == got;
      assert collected == Matching(got, request.correlationId) && |collected| <= (if expected > 0 then expected else 0);
      HeardIs(mid, s2, loop.turns, old(loop.turn), loop.turn);
      Detached(s2, responseTopic, queue);
      AnswerIsAPrefix(s2, queue, request.correlationId);
      broker.Unsubscribe(responseTopic, queue);
      EndsAsked(s0, mid, s2, responseTopic, queue,
                if strategy.PublishSubscribe? then [broadcastTopic] else TopicsOf(recipients.value), request);
      r := Ok(collected);
    }

    /** The new subscription after the scatter. */
    lemma Scattered(s0: System, s1: System, request: Message, strategy: Strategy, names: seq<string>, queue: nat)
      requires Inv(s0) && Inv(s1) && s1 == Step(s0, Subscribe(responseTopic)) && queue == s0.b.nextId
      requires queue in s1.members && queue !in s0.members
      ensures var mid := Exec(s1, ScatterLabels(request, strategy, names));
              && Inv(mid) && Inv(s1) && queue in mid.members && mid.members[queue] == s1.members[queue]
              && TakenBy(mid, queue) == TakenBy(s1, queue)
      ensures Exec(s1, ScatterLabels(request, strategy, names)).members == s1.members ==>
                Joined(s0, Exec(s1, ScatterLabels(request, strategy, names)))
    {
      var labels := ScatterLabels(request, strategy, names);
      assert LeavesAlone(labels, queue);
      OthersLeaveAlone(s1, labels, queue);
      hide Exec, Inv, TakenBy, LeavesAlone, Subscribed;
    }
  }

  lemma Subscribes(s: System, topic: string)
    requires Inv(s)
    ensures var s' := Step(s, Subscribe(topic)); var queue := s.b.nextId;
            && Inv(s') && s'.log == s.log && queue !in s.members && TakenBy(s', queue) == []
            && queue in s'.members && s'.members[queue] == Membership(topic, |s.log|, None)
  {
    assert QueueHolds(s, s.b.nextId);
    InvStep(s, Subscribe(topic));
    hide Inv, Offered;
  }

  /** The requests stay on the log and in the queues that were there when the search began. */
  lemma EndsAsked(s0: System, mid: System, s2: System, topic: string, queue: nat, topics: seq<string>,
                  request: Message)
    requires Inv(s0) && Inv(s2) && Joined(s0, mid) && mid.log == s0.log + RequestsTo(topics, request)
    requires Evolved(mid, s2)
    ensures Requested(s0, topics, request, Step(s2, Unsubscribe(topic, queue)))
  {
    InvStep(s2, Unsubscribe(topic, queue));
    OneEvolves(mid, s2, Unsubscribe(topic, queue));
    var s3 := Step(s2, Unsubscribe(topic, queue));
    hide Step, Inv, Evolved, Joined, Asked;
    RequestsArrive(s0, mid, RequestsTo(topics, request), s3);
    LogGrew(mid, s3);
  }

  lemma LogGrew(s: System, s': System)
    requires Evolved(s, s')
    ensures s.log <= s'.log
  {
  }

  /** Detaching keeps what the queue was offered and was given. */
  lemma Detached(s: System, topic: string, queue: nat)
    requires Inv(s) && queue in s.members && s.members[queue].topic == topic && s.members[queue].until.None?
    ensures var s' := Step(s, Unsubscribe(topic, queue));
            && Inv(s') && s'.log == s.log && s'.b.queues == s.b.queues
            && queue in s'.members && s'.members[queue] == s.members[queue].(until := Some(|s.log|))
            && queue !in SubscribersOf(s'.b, topic)
            && Offered(s'.members[queue], s'.log) == Offered(s.members[queue], s.log)
  {
    var s' := Step(s, Unsubscribe(topic, queue));
    InvStep(s, Unsubscribe(topic, queue));
    assert TopicHolds(s', topic);
    hide Inv, OnTopic, Remove;
  }

  lemma AnswerIsAPrefix(s: System, queue: nat, id: string)
    requires Inv(s) && queue in s.members
    ensures Matching(TakenBy(s, queue), id) <= Matching(Offered(s.members[queue], s.log), id)
    ensures Queued(s, queue) == [] ==> Matching(TakenBy(s, queue), id) == Matching(Offered(s.members[queue], s.log), id)
  {
    assert QueueHolds(s, queue);
    MatchingConcat(TakenBy(s, queue), Queued(s, queue), id);
    if Queued(s, queue) == [] {
      assert TakenBy(s, queue) + Queued(s, queue) == TakenBy(s, queue);
    }
    hide Matching, Offered;
  }
}
