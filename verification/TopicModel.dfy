/**
 An in-process broker that copies every message into each subscriber's own queue, over any
 interleaving of subscribing, publishing, taking and unsubscribing.
 */
module TopicModel {
  import opened Basics

  datatype Message = Message(correlationId: string, body: string)

  /** Queues are named by the order they were handed out in. */
  datatype Broker = Broker(subscribers: map<string, seq<nat>>, queues: map<nat, seq<Message>>, nextId: nat)

  datatype Published = Published(topic: string, message: Message)

  /** A subscription: its topic and the stretch of the publish log it was alive for. */
  datatype Membership = Membership(topic: string, from: nat, until: Option<nat>)

  datatype System = System(b: Broker, log: seq<Published>, members: map<nat, Membership>, taken: map<nat, seq<Message>>)

  datatype Label =
    | Subscribe(topic: string)
    | Unsubscribe(topic: string, queue: nat)
    | Publish(topic: string, message: Message)
    | Get(queue: nat)

  function Initial(): System {
    System(Broker(map[], map[], 0), [], map[], map[])
  }

  function SubscribersOf(b: Broker, topic: string): seq<nat> {
    if topic in b.subscribers then b.subscribers[topic] else []
  }

  /** `list.remove`: the first occurrence only, nothing when there is none. */
  function Remove(ids: seq<nat>, id: nat): seq<nat> {
    if ids == [] then []
    else if ids[0] == id then ids[1..]
    else [ids[0]] + Remove(ids[1..], id)
  }

  function Put(queues: map<nat, seq<Message>>, id: nat, m: Message): map<nat, seq<Message>> {
    queues[id := (if id in queues then queues[id] else []) + [m]]
  }

  function PutAll(queues: map<nat, seq<Message>>, ids: seq<nat>, m: Message): map<nat, seq<Message>> {
    if ids == [] then queues else Put(PutAll(queues, ids[..|ids| - 1], m), ids[|ids| - 1], m)
  }

  function Subscribed(b: Broker, topic: string): Broker {
    b.(subscribers := b.subscribers[topic := SubscribersOf(b, topic) + [b.nextId]],
       queues := b.queues[b.nextId := []],
       nextId := b.nextId + 1)
  }

  function Unsubscribed(b: Broker, topic: string, id: nat): Broker {
    if topic in b.subscribers then b.(subscribers := b.subscribers[topic := Remove(b.subscribers[topic], id)]) else b
  }

  function Fanned(b: Broker, topic: string, m: Message): Broker {
    b.(queues := PutAll(b.queues, SubscribersOf(b, topic), m))
  }

  predicate CanTake(b: Broker, id: nat) {
    id in b.queues && b.queues[id] != []
  }

  function Taken(b: Broker, id: nat): Broker
    requires CanTake(b, id)
  {
    b.(queues := b.queues[id := b.queues[id][1..]])
  }

  function TakenBy(s: System, id: nat): seq<Message> {
    if id in s.taken then s.taken[id] else []
  }

  function Queued(s: System, id: nat): seq<Message> {
    if id in s.b.queues then s.b.queues[id] else []
  }

  function Step(s: System, l: Label): System {
    match l
    case Subscribe(topic) =>
      s.(b := Subscribed(s.b, topic),
         members := s.members[s.b.nextId := Membership(topic, |s.log|, None)],
         taken := s.taken[s.b.nextId := []])
    case Unsubscribe(topic, id) =>
      s.(b := Unsubscribed(s.b, topic, id),
         members := if id in s.members && s.members[id].topic == topic && s.members[id].until.None?
                    then s.members[id := s.members[id].(until := Some(|s.log|))] else s.members)
    case Publish(topic, m) =>
      s.(b := Fanned(s.b, topic, m), log := s.log + [Published(topic, m)])
    case Get(id) =>
      if CanTake(s.b, id) then s.(b := Taken(s.b, id), taken := s.taken[id := TakenBy(s, id) + [s.b.queues[id][0]]])
      else s
  }

  function Exec(s: System, trace: seq<Label>): System {
    if trace == [] then s else Step(Exec(s, trace[..|trace| - 1]), trace[|trace| - 1])
  }

  function OnTopic(log: seq<Published>, topic: string): seq<Message> {
    if log == [] then []
    else
      OnTopic(log[..|log| - 1], topic)
      + if log[|log| - 1].topic == topic then [log[|log| - 1].message] else []
  }

  function End(m: Membership, log: seq<Published>): nat {
    if m.until.Some? then m.until.value else |log|
  }

  /** What was published to a subscription's topic while it was alive. */
  function Offered(m: Membership, log: seq<Published>): seq<Message> {
    if m.from <= End(m, log) <= |log| then OnTopic(log[m.from..End(m, log)], m.topic) else []
  }

  /** Nothing is lost, duplicated or reordered between a topic and one of its queues. */
  ghost predicate QueueHolds(s: System, id: nat) {
    && (id in s.members <==> id < s.b.nextId)
    && (id in s.b.queues <==> id < s.b.nextId)
    && (id < s.b.nextId ==>
          && s.members[id].from <= End(s.members[id], s.log) <= |s.log|
          && TakenBy(s, id) + Queued(s, id) == Offered(s.members[id], s.log))
  }

  ghost predicate Distinct(ids: seq<nat>) {
    forall i, j :: 0 <= i < j < |ids| ==> ids[i] != ids[j]
  }

  /** A topic's list names its live subscriptions, each once. */
  ghost predicate TopicHolds(s: System, topic: string) {
    var ids := SubscribersOf(s.b, topic);
    && Distinct(ids)
    && forall id: nat :: id in ids <==> id in s.members && s.members[id].topic == topic && s.members[id].until.None?
  }

  ghost predicate Inv(s: System) {
    (forall id: nat :: QueueHolds(s, id)) && forall topic: string :: TopicHolds(s, topic)
  }

  lemma OnTopicNext(log: seq<Published>, p: Published, topic: string)
    ensures OnTopic(log + [p], topic) == OnTopic(log, topic) + if p.topic == topic then [p.message] else []
  {
    assert (log + [p])[..|log|] == log;
  }

  lemma {:induction false} RemoveOnce(ids: seq<nat>, id: nat)
    requires Distinct(ids)
    ensures var r := Remove(ids, id);
            && Distinct(r)
            && id !in r
            && forall x: nat :: x in r <==> x in ids && x != id
  {
    if ids == [] {
    } else {
      RemoveOnce(ids[1..], id);
      assert forall x: nat :: x in ids <==> x == ids[0] || x in ids[1..];
      assert ids[0] !in ids[1..];
    }
  }

  /** Publishing adds the message to each named queue exactly once and to no other. */
  lemma {:induction false} PutOnce(queues: map<nat, seq<Message>>, ids: seq<nat>, m: Message, id: nat)
    requires Distinct(ids)
    ensures var r := PutAll(queues, ids, m);
            && (id in r <==> id in queues || id in ids)
            && (id in ids ==> r[id] == (if id in queues then queues[id] else []) + [m])
            && (id !in ids && id in queues ==> r[id] == queues[id])
  {
    if ids == [] {
    } else {
      var n := |ids| - 1;
      PutOnce(queues, ids[..n], m, id);
      assert ids == ids[..n] + [ids[n]];
      assert ids[n] !in ids[..n];
    }
  }

  lemma SubscribeQueue(s: System, topic: string, id: nat)
    requires QueueHolds(s, id)
    ensures QueueHolds(Step(s, Subscribe(topic)), id)
  {
    if id == s.b.nextId {
      assert s.log[|s.log|..|s.log|] == [];
    }
  }

  lemma UnsubscribeQueue(s: System, topic: string, gone: nat, id: nat)
    requires QueueHolds(s, id)
    ensures QueueHolds(Step(s, Unsubscribe(topic, gone)), id)
  {
    hide OnTopic, Remove;
  }

  lemma OfferedNext(m: Membership, log: seq<Published>, p: Published)
    requires m.from <= End(m, log) <= |log|
    ensures Offered(m, log + [p]) == Offered(m, log) + if m.until.None? && p.topic == m.topic then [p.message] else []
  {
    if m.until.None? {
      assert (log + [p])[m.from..|log| + 1] == log[m.from..|log|] + [p];
      OnTopicNext(log[m.from..|log|], p, m.topic);
    } else {
      assert (log + [p])[m.from..m.until.value] == log[m.from..m.until.value];
    }
    hide OnTopic;
  }

  lemma PublishQueue(s: System, topic: string, m: Message, id: nat)
    requires QueueHolds(s, id) && TopicHolds(s, topic)
    ensures QueueHolds(Step(s, Publish(topic, m)), id)
  {
    var ids := SubscribersOf(s.b, topic);
    PutOnce(s.b.queues, ids, m, id);
    if id < s.b.nextId {
      OfferedNext(s.members[id], s.log, Published(topic, m));
    }
    hide PutAll, Offered, SubscribersOf;
  }

  lemma GetQueue(s: System, from: nat, id: nat)
    requires QueueHolds(s, id)
    ensures QueueHolds(Step(s, Get(from)), id)
  {
    hide Offered;
  }

  lemma QueueStep(s: System, l: Label, id: nat)
    requires Inv(s)
    ensures QueueHolds(Step(s, l), id)
  {
    assert QueueHolds(s, id);
    hide QueueHolds, Step;
    match l
    case Subscribe(topic) => SubscribeQueue(s, topic, id);
    case Unsubscribe(topic, gone) => UnsubscribeQueue(s, topic, gone, id);
    case Publish(topic, m) => PublishQueue(s, topic, m, id);
    case Get(from) => GetQueue(s, from, id);
  }

  lemma TopicStep(s: System, l: Label, topic: string)
    requires Inv(s)
    ensures TopicHolds(Step(s, l), topic)
  {
    assert TopicHolds(s, topic);
    if l.Subscribe? {
      assert QueueHolds(s, s.b.nextId);
    } else if l.Unsubscribe? && l.topic == topic {
      RemoveOnce(SubscribersOf(s.b, topic), l.queue);
    }
    hide OnTopic, Remove, PutAll, Inv;
  }

  lemma InvStep(s: System, l: Label)
    requires Inv(s)
    ensures Inv(Step(s, l))
  {
    forall id: nat ensures QueueHolds(Step(s, l), id) {
      QueueStep(s, l, id);
    }
    forall topic: string ensures TopicHolds(Step(s, l), topic) {
      TopicStep(s, l, topic);
    }
    hide Step, QueueHolds, TopicHolds;
  }

  lemma {:induction false} RunHolds(s: System, trace: seq<Label>)
    requires Inv(s)
    ensures Inv(Exec(s, trace))
  {
    if trace == [] {
    } else {
      RunHolds(s, trace[..|trace| - 1]);
      InvStep(Exec(s, trace[..|trace| - 1]), trace[|trace| - 1]);
    }
    hide Inv, Step;
  }

  lemma InitialHolds()
    ensures Inv(Initial())
  {
  }

  /**
   After any run, what a subscriber has taken followed by what waits in its queue is what was
   published to its topic between subscribing and unsubscribing.
   */
  lemma TakenThenQueuedIsOffered(trace: seq<Label>, id: nat)
    requires id in Exec(Initial(), trace).members
    ensures var s := Exec(Initial(), trace); TakenBy(s, id) + Queued(s, id) == Offered(s.members[id], s.log)
  {
    InitialHolds();
    RunHolds(Initial(), trace);
    assert QueueHolds(Exec(Initial(), trace), id);
    hide Exec, Offered;
  }

  /** A publish reaches exactly the live subscriptions of its topic. */
  lemma PublishReachesTheLive(trace: seq<Label>, topic: string, m: Message, id: nat)
    ensures var s := Exec(Initial(), trace); var s' := Step(s, Publish(topic, m));
            && (id in SubscribersOf(s.b, topic) <==>
                  && id in s.members && s.members[id].topic == topic
                  && s.members[id].until.None?)
            && Queued(s', id) == Queued(s, id) + if id in SubscribersOf(s.b, topic) then [m] else []
  {
    var s := Exec(Initial(), trace);
    InitialHolds();
    RunHolds(Initial(), trace);
    hide Exec;
    assert TopicHolds(s, topic) && QueueHolds(s, id);
    PutOnce(s.b.queues, SubscribersOf(s.b, topic), m, id);
    hide PutAll, Offered;
  }

  lemma RemovedForGood(b: Broker, topic: string, id: nat)
    requires topic in b.subscribers
    requires Distinct(b.subscribers[topic])
    ensures Unsubscribed(Unsubscribed(b, topic, id), topic, id) == Unsubscribed(b, topic, id)
  {
    var ids := b.subscribers[topic];
    RemoveOnce(ids, id);
    var r := Remove(ids, id);
    hide Remove;
    RemoveAbsent(r, id);
    var b' := Unsubscribed(b, topic, id);
    assert b'.subscribers[topic] == Remove(ids, id);
    assert b'.subscribers[topic := Remove(ids, id)] == b'.subscribers;
    hide Remove;
  }

  /** Unsubscribing twice is unsubscribing once. */
  lemma UnsubscribeIsIdempotent(trace: seq<Label>, topic: string, id: nat)
    ensures var s := Step(Exec(Initial(), trace), Unsubscribe(topic, id)); Step(s, Unsubscribe(topic, id)) == s
  {
    var s0 := Exec(Initial(), trace);
    InitialHolds();
    RunHolds(Initial(), trace);
    assert TopicHolds(s0, topic);
    if topic in s0.b.subscribers {
      assert Distinct(SubscribersOf(s0.b, topic));
      RemovedForGood(s0.b, topic, id);
    }
    hide Exec, Inv, TopicHolds, Remove, Unsubscribed;
    var s := Step(s0, Unsubscribe(topic, id));
    assert Unsubscribed(s.b, topic, id) == s.b;
    assert Step(s, Unsubscribe(topic, id)).members == s.members;
  }

  lemma {:induction false} RemoveAbsent(ids: seq<nat>, id: nat)
    requires id !in ids
    ensures Remove(ids, id) == ids
  {
    if ids == [] {
    } else {
      RemoveAbsent(ids[1..], id);
    }
  }

  /** A subscription later on: ended at some point from `n` on, or not at all. */
  ghost predicate Continues(m: Membership, m': Membership, n: nat) {
    && m'.topic == m.topic && m'.from == m.from
    && (m.until.Some? ==> m' == m)
    && (m.until.None? && m'.until.Some? ==> m'.until.value >= n)
  }

  /** The log only grows, and no subscription is forgotten or moved. */
  ghost predicate Evolved(s: System, s': System) {
    && s.log <= s'.log
    && forall id :: id in s.members ==> id in s'.members && Continues(s.members[id], s'.members[id], |s.log|)
  }

  lemma EvolvedFurther(a: System, b: System, c: System)
    requires Evolved(a, b) && Evolved(b, c)
    ensures Evolved(a, c)
  {
  }

  lemma StepEvolves(s: System, l: Label)
    requires Inv(s)
    ensures Evolved(s, Step(s, l))
  {
    assert QueueHolds(s, s.b.nextId);
    hide Offered, Remove, PutAll, TakenBy;
  }

  lemma {:induction false} RunEvolves(s: System, trace: seq<Label>)
    requires Inv(s)
    ensures Inv(Exec(s, trace)) && Evolved(s, Exec(s, trace))
  {
    if trace == [] {
    } else {
      var front, l := trace[..|trace| - 1], trace[|trace| - 1];
      RunEvolves(s, front);
      InvStep(Exec(s, front), l);
      StepEvolves(Exec(s, front), l);
      EvolvedFurther(s, Exec(s, front), Exec(s, trace));
    }
    hide Inv, Step, Evolved;
  }

  lemma {:induction false} OnTopicConcat(log: seq<Published>, more: seq<Published>, topic: string)
    ensures OnTopic(log + more, topic) == OnTopic(log, topic) + OnTopic(more, topic)
    decreases |more|
  {
    if more == [] {
      assert log + more == log;
    } else {
      var n := |more| - 1;
      assert (log + more)[..|log + more| - 1] == log + more[..n];
      OnTopicConcat(log, more[..n], topic);
    }
  }

  /** What a subscription was offered stays offered. */
  lemma OfferedStays(m: Membership, m': Membership, log: seq<Published>, log': seq<Published>)
    requires log <= log' && Continues(m, m', |log|)
    requires m.from <= End(m, log) <= |log| && m'.from <= End(m', log') <= |log'|
    ensures Offered(m, log) <= Offered(m', log')
  {
    var a, b, b' := m.from, End(m, log), End(m', log');
    assert log'[a..b'] == log[a..b] + log'[b..b'];
    OnTopicConcat(log[a..b], log'[b..b'], m.topic);
  }

  /** A live subscription of the topic is offered what is published next. */
  lemma OfferedMore(m: Membership, log: seq<Published>, more: seq<Published>)
    requires m.until.None? && m.from <= |log|
    ensures Offered(m, log + more) == Offered(m, log) + OnTopic(more, m.topic)
  {
    assert (log + more)[m.from..|log + more|] == log[m.from..|log|] + more;
    OnTopicConcat(log[m.from..|log|], more, m.topic);
  }
}
