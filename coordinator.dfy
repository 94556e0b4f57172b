// The publish/subscribe coordinator actor: a table from topic to the set of
// subscribed actor addresses, updated in place by subscribe and unsubscribe
// commands, and a fan-out of every published body to the topic's subscribers.
// Sending and stopping actors are recorded as output effects.

module PubSub {
  import opened Messages

  type Topic = string

  /** The bodies the coordinator reacts to; any other body is `Data`. */
  datatype Body =
    | Subscribe(topic: Topic, subscriber: ActorAddress)
    | Unsubscribe(topic: Topic, subscriber: ActorAddress)
    | Publish(topic: Topic, published: Body)
    | Shutdown
    | Data(value: int)

  datatype Effect = Tell(message: Message<Body>) | Stop(address: ActorAddress)

  type Table = map<Topic, set<ActorAddress>>

  /** The subscribers of a topic; an unknown topic has none. */
  function SubscribersOf(table: Table, topic: Topic): (r: set<ActorAddress>)
    ensures topic !in table ==> r == {}
    ensures topic in table ==> r == table[topic]
  {
    if topic in table then table[topic] else {}
  }

  /** The table after looking up a topic: the topic is present from then on. */
  function Touched(table: Table, topic: Topic): (r: Table)
    ensures r.Keys == table.Keys + {topic}
    ensures r[topic] == SubscribersOf(table, topic)
    ensures forall t :: t in table && t != topic ==> r[t] == table[t]
  {
    table[topic := SubscribersOf(table, topic)]
  }

  function WithSubscriber(table: Table, topic: Topic, a: ActorAddress): (r: Table)
    ensures r.Keys == table.Keys + {topic}
    ensures SubscribersOf(r, topic) == SubscribersOf(table, topic) + {a}
    ensures forall t :: t != topic ==> SubscribersOf(r, t) == SubscribersOf(table, t)
  {
    table[topic := SubscribersOf(table, topic) + {a}]
  }

  function WithoutSubscriber(table: Table, topic: Topic, a: ActorAddress): (r: Table)
    ensures r.Keys == table.Keys + {topic}
    ensures SubscribersOf(r, topic) == SubscribersOf(table, topic) - {a}
    ensures forall t :: t != topic ==> SubscribersOf(r, t) == SubscribersOf(table, t)
  {
    table[topic := SubscribersOf(table, topic) - {a}]
  }

  /** Subscribing the same address twice changes nothing more than subscribing once. */
  lemma SubscribeIdempotent(table: Table, topic: Topic, a: ActorAddress)
    ensures WithSubscriber(WithSubscriber(table, topic, a), topic, a) == WithSubscriber(table, topic, a)
  {
  }

  /** Unsubscribing undoes a subscription of an address that was not subscribed before. */
  lemma UnsubscribeUndoesSubscribe(table: Table, topic: Topic, a: ActorAddress)
    requires a !in SubscribersOf(table, topic)
    ensures WithoutSubscriber(WithSubscriber(table, topic, a), topic, a) == Touched(table, topic)
  {
    assert SubscribersOf(table, topic) + {a} - {a} == SubscribersOf(table, topic);
  }

  /** A lookup leaves the observable subscribers of every topic unchanged. */
  lemma TouchedKeepsSubscribers(table: Table, topic: Topic, t: Topic)
    ensures SubscribersOf(Touched(table, topic), t) == SubscribersOf(table, t)
  {
  }

  /** The message a subscriber receives for a published body. */
  function Delivery(m: Message<Body>, published: Body, subscriber: ActorAddress): (r: Message<Body>)
    ensures r.destination == subscriber && r.body == published
    ensures r.sender == m.sender && r.correlationKey == m.correlationKey
  {
    m.Map(_ => published).WithDestination(subscriber)
  }

  /** `sent` tells `m` with body `published` to every subscriber, exactly once each. */
  predicate FanOut(sent: seq<Effect>, m: Message<Body>, published: Body, subscribers: set<ActorAddress>) {
    |sent| == |subscribers| &&
    (forall i :: 0 <= i < |sent| ==>
       sent[i].Tell? && sent[i].message.destination in subscribers &&
       sent[i] == Tell(Delivery(m, published, sent[i].message.destination))) &&
    (forall i, j :: 0 <= i < j < |sent| ==> sent[i] != sent[j]) &&
    (forall a :: a in subscribers ==> Tell(Delivery(m, published, a)) in sent)
  }

  /** With no subscribers nothing is sent. */
  lemma FanOutToNobody(sent: seq<Effect>, m: Message<Body>, published: Body)
    requires FanOut(sent, m, published, {})
    ensures sent == []
  {
  }

  /** Every subscriber gets exactly one message. */
  lemma FanOutOncePerSubscriber(sent: seq<Effect>, m: Message<Body>, published: Body,
                                subscribers: set<ActorAddress>, a: ActorAddress, i: int, j: int)
    requires FanOut(sent, m, published, subscribers)
    requires 0 <= i < |sent| && 0 <= j < |sent|
    requires sent[i].message.destination == a && sent[j].message.destination == a
    ensures i == j
  {
  }

  /** The addresses `sent` stops. */
  function Stopped(sent: seq<Effect>): set<ActorAddress> {
    if sent == [] then {}
    else Stopped(sent[..|sent| - 1]) + (if sent[|sent| - 1].Stop? then {sent[|sent| - 1].address} else {})
  }

  /** An address is stopped by `sent` exactly when `sent` holds its stop. */
  lemma {:induction false} StoppedMeans(sent: seq<Effect>, a: ActorAddress)
    ensures a in Stopped(sent) <==> Stop(a) in sent
    decreases |sent|
  {
    if sent != [] {
      var init := sent[..|sent| - 1];
      var last := sent[|sent| - 1];
      StoppedMeans(init, a);
      assert sent == init + [last];
      assert Stop(a) in sent <==> Stop(a) in init || Stop(a) == last;
      assert Stopped(sent) == Stopped(init) + (if last.Stop? then {last.address} else {});
      assert (Stop(a) == last) <==> (last.Stop? && last.address == a);
    }
  }

  lemma {:induction false} StoppedAppend(x: seq<Effect>, y: seq<Effect>)
    ensures Stopped(x + y) == Stopped(x) + Stopped(y)
    decreases |y|
  {
    if y != [] {
      var init := y[..|y| - 1];
      assert (x + y)[..|x + y| - 1] == x + init;
      assert (x + y)[|x + y| - 1] == y[|y| - 1];
      StoppedAppend(x, init);
    } else {
      assert x + y == x;
    }
  }

  /** `sent` stops exactly the addresses in `addresses`, and nothing else happens. */
  predicate StopsAll(sent: seq<Effect>, addresses: set<ActorAddress>) {
    (forall i :: 0 <= i < |sent| ==> sent[i].Stop?) && Stopped(sent) == addresses
  }

  /** Every address subscribed to one of `topics`. */
  function SubscribedIn(table: Table, topics: set<Topic>): (r: set<ActorAddress>)
    ensures forall a :: a in r <==> exists t :: t in topics && t in table && a in table[t]
  {
    set t, a | t in topics && t in table && a in table[t] :: a
  }

  /** Stopping two groups one after the other stops both. */
  lemma StopsAllAppend(x: seq<Effect>, y: seq<Effect>, a: set<ActorAddress>, b: set<ActorAddress>)
    requires StopsAll(x, a) && StopsAll(y, b)
    ensures StopsAll(x + y, a + b)
  {
    StoppedAppend(x, y);
    forall i | 0 <= i < |x + y|
      ensures (x + y)[i].Stop?
    {
      if i >= |x| {
        assert (x + y)[i] == y[i - |x|];
      }
    }
  }

  /** What was sent before stays in front, and what is sent next follows it. */
  lemma AppendParts(before: seq<Effect>, sent: seq<Effect>)
    ensures |before + sent| >= |before|
    ensures (before + sent)[..|before|] == before && (before + sent)[|before|..] == sent
  {
  }

  /** Sending two batches one after the other sends their concatenation. */
  lemma AppendAssociates(before: seq<Effect>, sent: seq<Effect>, next: seq<Effect>)
    ensures (before + sent) + next == before + (sent + next)
  {
  }

  /** One more delivery in the publishing loop reaches one more subscriber. */
  lemma FanOutOneMore(sent: seq<Effect>, m: Message<Body>, published: Body,
                      subscribers: set<ActorAddress>, remaining: set<ActorAddress>, a: ActorAddress)
    requires FanOut(sent, m, published, subscribers - remaining)
    requires remaining <= subscribers && a in remaining
    ensures FanOut(sent + [Tell(Delivery(m, published, a))], m, published, subscribers - (remaining - {a}))
  {
    var e := Tell(Delivery(m, published, a));
    var done := subscribers - remaining;
    assert subscribers - (remaining - {a}) == done + {a};
    assert a !in done;
    forall i | 0 <= i < |sent|
      ensures sent[i] != e
    {
      assert sent[i].message.destination in done;
    }
  }

  /** One more stop in the unsubscribing loop stops one more address. */
  lemma StopOneMore(sent: seq<Effect>, snapshot: set<ActorAddress>, remaining: set<ActorAddress>, a: ActorAddress)
    requires StopsAll(sent, snapshot - remaining)
    requires remaining <= snapshot && a in remaining
    ensures StopsAll(sent + [Stop(a)], snapshot - (remaining - {a}))
  {
    assert Stopped([Stop(a)]) == {a} by {
      assert [Stop(a)][..0] == [];
    }
    StopsAllAppend(sent, [Stop(a)], snapshot - remaining, {a});
    assert snapshot - (remaining - {a}) == (snapshot - remaining) + {a};
  }

  /** One more emptied topic in the stopping loop stops its subscribers too. */
  lemma StopTopicMore(sent: seq<Effect>, next: seq<Effect>, table: Table, topics: set<Topic>, t: Topic)
    requires t in topics && topics <= table.Keys
    requires StopsAll(sent, SubscribedIn(table, table.Keys - topics))
    requires StopsAll(next, table[t])
    ensures StopsAll(sent + next, SubscribedIn(table, table.Keys - (topics - {t})))
  {
    StopsAllAppend(sent, next, SubscribedIn(table, table.Keys - topics), table[t]);
    SubscribedInWith(table, table.Keys - topics, t);
    assert table.Keys - (topics - {t}) == (table.Keys - topics) + {t};
  }

  /** The stopping loop's table: same topics as `table`, those already handled emptied, the rest untouched. */
  predicate EmptiedBut(subscriptions: Table, table: Table, topics: set<Topic>) {
    topics <= table.Keys && subscriptions.Keys == table.Keys &&
    (forall t :: t in topics ==> subscriptions[t] == table[t]) &&
    (forall t :: t in table && t !in topics ==> subscriptions[t] == {})
  }

  /** Emptying one more pending topic keeps the stopping loop's table in shape. */
  lemma EmptiedOneMore(subscriptions: Table, table: Table, topics: set<Topic>, t: Topic)
    requires EmptiedBut(subscriptions, table, topics) && t in topics
    ensures EmptiedBut(subscriptions[t := {}], table, topics - {t})
  {
  }

  /** Unsubscribing from a topic whose subscribers were just replaced replaces them once more. */
  lemma UnsubscribeReplaced(table: Table, topic: Topic, remaining: set<ActorAddress>, a: ActorAddress)
    ensures WithoutSubscriber(table[topic := remaining], topic, a) == table[topic := remaining - {a}]
  {
  }

  /** One more topic adds its subscribers. */
  lemma SubscribedInWith(table: Table, topics: set<Topic>, t: Topic)
    requires t in table
    ensures SubscribedIn(table, topics + {t}) == SubscribedIn(table, topics) + table[t]
  {
  }

  class MessagingCoordinator {
    const self: ActorAddress
    var subscriptions: Table
    /** Every message told and actor stopped, in order. */
    var effects: seq<Effect>

    constructor(self: ActorAddress)
      ensures this.self == self && subscriptions == map[] && effects == []
    {
      this.self := self;
      subscriptions := map[];
      effects := [];
    }

    /** The subscriber set of a topic, which is put into the table if it was missing. */
    method GetSubscribers(topic: Topic) returns (subscribers: set<ActorAddress>)
      modifies this
      ensures subscribers == SubscribersOf(old(subscriptions), topic)
      ensures subscriptions == Touched(old(subscriptions), topic)
      ensures effects == old(effects)
    {
      subscribers := if topic in subscriptions then subscriptions[topic] else {};
      subscriptions := subscriptions[topic := subscribers];
    }

    method SubscribeTo(topic: Topic, a: ActorAddress)
      modifies this
      ensures subscriptions == WithSubscriber(old(subscriptions), topic, a)
      ensures effects == old(effects)
    {
      var subscribers := GetSubscribers(topic);
      subscriptions := subscriptions[topic := subscribers + {a}];
    }

    /** Removes the address from the topic and stops that actor, subscribed or not. */
    method UnsubscribeFrom(topic: Topic, a: ActorAddress)
      modifies this
      ensures subscriptions == WithoutSubscriber(old(subscriptions), topic, a)
      ensures effects == old(effects) + [Stop(a)]
    {
      var subscribers := GetSubscribers(topic);
      subscriptions := subscriptions[topic := subscribers - {a}];
      effects := effects + [Stop(a)];
    }

    /** Tells `m`, with its body replaced, to every current subscriber of the topic. */
    method PublishTo(topic: Topic, m: Message<Body>, published: Body)
      modifies this
      ensures subscriptions == Touched(old(subscriptions), topic)
      ensures |effects| >= |old(effects)| && effects[..|old(effects)|] == old(effects)
      ensures FanOut(effects[|old(effects)|..], m, published, SubscribersOf(old(subscriptions), topic))
    {
      var subscribers := GetSubscribers(topic);
      var sent: seq<Effect> := [];
      var remaining := subscribers;
      while remaining != {}
        invariant remaining <= subscribers
        invariant FanOut(sent, m, published, subscribers - remaining)
        modifies {}
        decreases |remaining|
      {
        var a :| a in remaining;
        FanOutOneMore(sent, m, published, subscribers, remaining, a);
        sent := sent + [Tell(Delivery(m, published, a))];
        remaining := remaining - {a};
      }
      assert subscribers - remaining == SubscribersOf(old(subscriptions), topic);
      effects := effects + sent;
      assert effects[|old(effects)|..] == sent;
    }

    /** Unsubscribes every address of one topic, from a snapshot of its subscribers. */
    method UnsubscribeTopic(topic: Topic) returns (ghost sent: seq<Effect>)
      requires topic in subscriptions
      modifies this
      ensures subscriptions == old(subscriptions)[topic := {}]
      ensures effects == old(effects) + sent
      ensures StopsAll(sent, old(subscriptions)[topic])
    {
      var snapshot := subscriptions[topic];
      sent := [];
      var remaining := snapshot;
      while remaining != {}
        invariant remaining <= snapshot
        invariant subscriptions == old(subscriptions)[topic := remaining]
        invariant effects == old(effects) + sent
        invariant StopsAll(sent, snapshot - remaining)
        decreases |remaining|
      {
        var a :| a in remaining;
        StopOneMore(sent, snapshot, remaining, a);
        UnsubscribeReplaced(old(subscriptions), topic, remaining, a);
        UnsubscribeFrom(topic, a);
        sent := sent + [Stop(a)];
        remaining := remaining - {a};
      }
      assert snapshot - remaining == old(subscriptions)[topic];
    }

    /** After stopping: every topic is emptied and every subscribed actor is stopped. */
    method AfterStop()
      modifies this
      ensures subscriptions.Keys == old(subscriptions).Keys
      ensures forall t :: t in subscriptions ==> subscriptions[t] == {}
      ensures |effects| >= |old(effects)| && effects[..|old(effects)|] == old(effects)
      ensures StopsAll(effects[|old(effects)|..], SubscribedIn(old(subscriptions), old(subscriptions).Keys))
    {
      ghost var table := subscriptions;
      ghost var sent: seq<Effect> := [];
      var topics := subscriptions.Keys;
      while topics != {}
        invariant EmptiedBut(subscriptions, table, topics)
        invariant effects == old(effects) + sent
        invariant StopsAll(sent, SubscribedIn(table, table.Keys - topics))
        decreases |topics|
      {
        var t :| t in topics;
        EmptiedOneMore(subscriptions, table, topics, t);
        ghost var next := UnsubscribeTopic(t);
        StopTopicMore(sent, next, table, topics, t);
        AppendAssociates(old(effects), sent, next);
        sent := sent + next;
        topics := topics - {t};
      }
      assert table.Keys - topics == table.Keys;
      AppendParts(old(effects), sent);
    }

    /** One delivery: each command is applied; other bodies are ignored. */
    method Receive(m: Message<Body>)
      modifies this
      ensures m.body.Subscribe? ==>
                subscriptions == WithSubscriber(old(subscriptions), m.body.topic, m.body.subscriber) &&
                effects == old(effects)
      ensures m.body.Unsubscribe? ==>
                subscriptions == WithoutSubscriber(old(subscriptions), m.body.topic, m.body.subscriber) &&
                effects == old(effects) + [Stop(m.body.subscriber)]
      ensures m.body.Publish? ==>
                subscriptions == Touched(old(subscriptions), m.body.topic) &&
                |effects| >= |old(effects)| && effects[..|old(effects)|] == old(effects) &&
                FanOut(effects[|old(effects)|..], m, m.body.published,
                       SubscribersOf(old(subscriptions), m.body.topic))
      ensures m.body.Shutdown? ==>
                subscriptions == old(subscriptions) && effects == old(effects) + [Stop(self)]
      ensures m.body.Data? ==> subscriptions == old(subscriptions) && effects == old(effects)
    {
      match m.body
      case Subscribe(topic, a) => SubscribeTo(topic, a);
      case Unsubscribe(topic, a) => UnsubscribeFrom(topic, a);
      case Publish(topic, published) => PublishTo(topic, m, published);
      case Shutdown => effects := effects + [Stop(self)];
      case Data(_) =>
    }
  }
}
