/**
 * The in-process broker. Publishing goes to the exact topic's channel and to every pattern channel
 * that matches; channels are found through two bounded maps that evict idle entries. All of that is
 * shown to refine a broker that just keeps a list of subscriptions.
 */
module Routing {
  import opened Common
  import opened Sequences
  import opened TopicFilters
  import opened Dedup
  import opened Channels
  import opened TopicMaps

  datatype Capacities = Capacities(dedup: nat, entries: nat, replay: nat)

  /** What a channel was created for: one exact topic, or one wildcard pattern. */
  datatype Name = Exactly(topic: Topic) | Pattern(filter: TopicFilter)

  function NameOf(filter: TopicFilter): Name {
    if IsLiteral(filter) then Exactly(filter) else Pattern(filter)
  }

  predicate Wants(name: Name, topic: Topic) {
    match name
    case Exactly(t) => t == topic
    case Pattern(f) => Matches(f, topic)
  }

  lemma WantsIsMatches(filter: TopicFilter, topic: Topic)
    ensures Wants(NameOf(filter), topic) <==> Matches(filter, topic)
  {
    if IsLiteral(filter) { LiteralMatchesItself(filter, topic); }
  }

  /** A receiver: it is sent what its channel's log gains from position `start` on, while it is alive. */
  datatype Subscription = Subscription(filter: TopicFilter, channel: ChannelId, start: nat, alive: bool)

  /**
   * The broker's state. `accepted`, `names` and `born` are histories the program does not keep: every
   * accepted publish, what each channel was created for, and how many publishes preceded its creation or refill.
   */
  datatype State = State(
    capacities: Capacities,
    seen: Window,
    topics: Entries<Topic>,
    patterns: Entries<TopicFilter>,
    channels: map<ChannelId, Channel>,
    nextId: ChannelId,
    subscriptions: seq<Subscription>,
    accepted: seq<Envelope>,
    names: map<ChannelId, Name>,
    born: map<ChannelId, nat>)

  function Initial(c: Capacities): State {
    State(c, Window(c.dedup, []), NoEntries(c.entries), NoEntries(c.entries), map[], 0, [], [], map[], map[])
  }

  function Live(subscriptions: seq<Subscription>): set<ChannelId> {
    set i | 0 <= i < |subscriptions| && subscriptions[i].alive :: subscriptions[i].channel
  }

  // ------------------------------------------------------------- transitions

  /** Creates channel `c` if it is the next new one. */
  function WithChannel(s: State, c: ChannelId, name: Name): State {
    if c in s.channels then s
    else s.(channels := s.channels[c := EMPTY_CHANNEL], names := s.names[c := name],
            born := s.born[c := |s.accepted|], nextId := s.nextId + 1)
  }

  function FindTopic(s: State, topic: Topic): (State, ChannelId) {
    var (topics, c) := GetOrInsert(s.topics, topic, s.nextId, Live(s.subscriptions));
    (WithChannel(s.(topics := topics), c, Exactly(topic)), c)
  }

  function FindPattern(s: State, filter: TopicFilter): (State, ChannelId) {
    var (patterns, c) := GetOrInsert(s.patterns, filter, s.nextId, Live(s.subscriptions));
    (WithChannel(s.(patterns := patterns), c, Pattern(filter)), c)
  }

  function Find(s: State, filter: TopicFilter): (State, ChannelId) {
    if IsLiteral(filter) then FindTopic(s, filter) else FindPattern(s, filter)
  }

  predicate IsMatchingPattern(s: State, id: ChannelId, topic: Topic) {
    exists f :: f in s.patterns.channels && s.patterns.channels[f] == id && Matches(f, topic)
  }

  /** Sends to channel `c` with the envelope's retained effect, and to the matching patterns without. */
  function Deliver(s: State, c: ChannelId, envelope: Envelope): map<ChannelId, Channel> {
    map id | id in s.channels ::
      if id == c then Send(s.channels[id], envelope, envelope.retain, s.capacities.replay)
      else if IsMatchingPattern(s, id, envelope.topic) then Send(s.channels[id], envelope, false, s.capacities.replay)
      else s.channels[id]
  }

  function Publish(s: State, envelope: Envelope): State {
    if s.seen.Remembers(envelope.id) then s
    else
      var (found, c) := FindTopic(s.(seen := s.seen.Record(envelope.id)), envelope.topic);
      found.(channels := Deliver(found, c, envelope), accepted := s.accepted + [envelope])
  }

  function Subscribe(s: State, filter: TopicFilter): State {
    var (found, c) := Find(s, filter);
    found.(subscriptions := s.subscriptions + [Subscription(filter, c, |found.channels[c].log|, true)])
  }

  function Unsubscribe(s: State, i: nat): State {
    if i < |s.subscriptions|
    then s.(subscriptions := s.subscriptions[i := s.subscriptions[i].(alive := false)])
    else s
  }

  datatype Operation = Publishing(envelope: Envelope) | Subscribing(filter: TopicFilter) | Dropping(subscription: nat)

  function Next(s: State, op: Operation): State {
    match op
    case Publishing(envelope) => Publish(s, envelope)
    case Subscribing(filter) => Subscribe(s, filter)
    case Dropping(i) => Unsubscribe(s, i)
  }

  function Execute(s: State, run: seq<Operation>): State
    decreases |run|
  {
    if run == [] then s else Execute(Next(s, run[0]), run[1..])
  }

  // -------------------------------------------------------- the plain broker

  /** The specification: a list of subscriptions, each with what it has received. */
  datatype PlainSubscription = PlainSubscription(filter: TopicFilter, received: seq<Envelope>, alive: bool)

  datatype Plain = Plain(seen: Window, subscriptions: seq<PlainSubscription>)

  function Receive(p: PlainSubscription, envelope: Envelope): PlainSubscription {
    if p.alive && Matches(p.filter, envelope.topic) then p.(received := p.received + [envelope]) else p
  }

  function PlainNext(p: Plain, op: Operation): Plain {
    match op
    case Publishing(envelope) =>
      if p.seen.Remembers(envelope.id) then p
      else Plain(p.seen.Record(envelope.id),
                 seq(|p.subscriptions|, i requires 0 <= i < |p.subscriptions| => Receive(p.subscriptions[i], envelope)))
    case Subscribing(filter) => p.(subscriptions := p.subscriptions + [PlainSubscription(filter, [], true)])
    case Dropping(i) =>
      if i < |p.subscriptions|
      then p.(subscriptions := p.subscriptions[i := p.subscriptions[i].(alive := false)])
      else p
  }

  function PlainExecute(p: Plain, run: seq<Operation>): Plain
    decreases |run|
  {
    if run == [] then p else PlainExecute(PlainNext(p, run[0]), run[1..])
  }

  // --------------------------------------------------------------- invariant

  /** Whether channel `id` is the one its name leads to. */
  predicate Attached(s: State, id: ChannelId) {
    id in s.names &&
    match s.names[id]
    case Exactly(t) => t in s.topics.channels && s.topics.channels[t] == id
    case Pattern(f) => f in s.patterns.channels && s.patterns.channels[f] == id
  }

  /** The publishes a name wants among those from position `from` up to `to`, in order. */
  function Wanted(envelopes: seq<Envelope>, from: nat, to: nat, name: Name): seq<Envelope>
    requires to <= |envelopes|
  {
    if to <= from then []
    else
      var before := Wanted(envelopes, from, to - 1, name);
      if Wants(name, envelopes[to - 1].topic) then before + [envelopes[to - 1]] else before
  }

  lemma {:induction false} WantedPrefix(envelopes: seq<Envelope>, more: seq<Envelope>, from: nat, to: nat, name: Name)
    requires to <= |envelopes|
    ensures Wanted(envelopes + more, from, to, name) == Wanted(envelopes, from, to, name)
  {
    if from < to { WantedPrefix(envelopes, more, from, to - 1, name); }
  }

  lemma {:induction false} WantedAppend(envelopes: seq<Envelope>, from: nat, name: Name, envelope: Envelope)
    requires from <= |envelopes|
    ensures Wanted(envelopes + [envelope], from, |envelopes| + 1, name) ==
      Wanted(envelopes, from, |envelopes|, name) + if Wants(name, envelope.topic) then [envelope] else []
  {
    WantedPrefix(envelopes, [envelope], from, |envelopes|, name);
  }

  ghost predicate Bounded(s: State) {
    && Coherent(s.topics) && s.topics.capacity == s.capacities.entries
    && Coherent(s.patterns) && s.patterns.capacity == s.capacities.entries
  }

  /** Every channel has one name, and the maps lead from names to their own channels only. */
  ghost predicate Named(s: State) {
    && s.names.Keys == s.channels.Keys && s.born.Keys == s.channels.Keys
    && (forall id :: id in s.channels ==> id < s.nextId)
    && (forall t :: t in s.topics.channels ==>
       s.topics.channels[t] in s.names && s.names[s.topics.channels[t]] == Exactly(t))
    && (forall f :: f in s.patterns.channels ==>
       s.patterns.channels[f] in s.names && s.names[s.patterns.channels[f]] == Pattern(f))
  }

  /**
   * A channel that is attached has logged what it was refilled with, if anything, and then exactly the
   * publishes its name wants since it was created or refilled.
   */
  ghost predicate ChannelOk(s: State, id: ChannelId)
    requires id in s.channels && id in s.names && id in s.born
  {
    && Buffered(s.channels[id], s.capacities.replay)
    && (s.names[id].Exactly? ==> Exact(s.channels[id], s.capacities.replay))
    && s.born[id] <= |s.accepted|
    && (Attached(s, id) ==>
      s.channels[id].log == s.channels[id].refilled + Wanted(s.accepted, s.born[id], |s.accepted|, s.names[id]))
  }

  ghost predicate SubscriptionOk(s: State, sub: Subscription) {
    && sub.channel in s.channels
    && sub.channel in s.names && s.names[sub.channel] == NameOf(sub.filter)
    && sub.start <= |s.channels[sub.channel].log|
  }

  ghost predicate Filled(s: State) {
    && s.names.Keys == s.channels.Keys && s.born.Keys == s.channels.Keys
    && forall id :: id in s.channels ==> ChannelOk(s, id)
  }

  ghost predicate Subscribed(s: State) {
    forall i :: 0 <= i < |s.subscriptions| ==> SubscriptionOk(s, s.subscriptions[i])
  }

  ghost predicate Inv(s: State) {
    Bounded(s) && Named(s) && Filled(s) && Subscribed(s)
  }

  // ------------------------------------------------------ finding a channel

  /** What looking a channel up leaves alone: everything but the map used and one new channel. */
  ghost predicate Grown(s: State, found: State, c: ChannelId, name: Name) {
    && found == s.(topics := found.topics, patterns := found.patterns, channels := found.channels,
                   names := found.names, born := found.born, nextId := found.nextId)
    && c in found.channels && c in found.names && found.names[c] == name
    && (if c in s.channels
        then found.channels == s.channels && found.names == s.names && found.born == s.born && Attached(found, c)
        else found.channels == s.channels[c := EMPTY_CHANNEL] && found.names == s.names[c := name]
             && found.born == s.born[c := |s.accepted|])
  }

  /** How the lookup moves names: none becomes attached but `c`, none that is live comes off. */
  ghost predicate Reattached(s: State, found: State, c: ChannelId, name: Name) {
    && (forall id :: id in s.channels && Attached(found, id) ==> Attached(s, id))
    && (forall id :: id in Live(s.subscriptions) && Attached(s, id) ==> Attached(found, id))
    && (forall id :: Attached(found, id) && found.names[id] == name ==> id == c)
  }

  ghost predicate Found(s: State, found: State, c: ChannelId, name: Name) {
    Grown(s, found, c, name) && Reattached(s, found, c, name)
  }

  lemma LiveAreChannels(s: State)
    requires Named(s) && Subscribed(s)
    ensures forall id :: id in Live(s.subscriptions) ==> id in s.channels && id in s.names
    ensures s.nextId !in Live(s.subscriptions) && s.nextId !in s.channels
  {
    forall id | id in Live(s.subscriptions)
      ensures id in s.channels && id in s.names
    {
      var i :| 0 <= i < |s.subscriptions| && s.subscriptions[i].alive && s.subscriptions[i].channel == id;
      assert SubscriptionOk(s, s.subscriptions[i]);
    }
  }

  lemma LookedTopicGrows(s: State, topic: Topic)
    requires Named(s) && Subscribed(s)
    requires var (topics, c) := GetOrInsert(s.topics, topic, s.nextId, Live(s.subscriptions));
      Looked(s.topics, topic, s.nextId, Live(s.subscriptions), topics, c)
    ensures var (found, c) := FindTopic(s, topic);
      Grown(s, found, c, Exactly(topic)) && Named(found)
  {
    LiveAreChannels(s);
  }

  lemma LookedTopicReattaches(s: State, topic: Topic)
    requires Named(s) && Subscribed(s)
    requires var (topics, c) := GetOrInsert(s.topics, topic, s.nextId, Live(s.subscriptions));
      Looked(s.topics, topic, s.nextId, Live(s.subscriptions), topics, c)
    ensures var (found, c) := FindTopic(s, topic);
      Reattached(s, found, c, Exactly(topic))
  {
    LiveAreChannels(s);
  }

  lemma LookedPatternGrows(s: State, filter: TopicFilter)
    requires Named(s) && Subscribed(s)
    requires var (patterns, c) := GetOrInsert(s.patterns, filter, s.nextId, Live(s.subscriptions));
      Looked(s.patterns, filter, s.nextId, Live(s.subscriptions), patterns, c)
    ensures var (found, c) := FindPattern(s, filter);
      Grown(s, found, c, Pattern(filter)) && Named(found)
  {
    LiveAreChannels(s);
  }

  lemma LookedPatternReattaches(s: State, filter: TopicFilter)
    requires Named(s) && Subscribed(s)
    requires var (patterns, c) := GetOrInsert(s.patterns, filter, s.nextId, Live(s.subscriptions));
      Looked(s.patterns, filter, s.nextId, Live(s.subscriptions), patterns, c)
    ensures var (found, c) := FindPattern(s, filter);
      Reattached(s, found, c, Pattern(filter))
  {
    LiveAreChannels(s);
  }

  lemma FindFinds(s: State, filter: TopicFilter)
    requires Bounded(s) && Named(s) && Subscribed(s)
    ensures var (found, c) := Find(s, filter);
      Found(s, found, c, NameOf(filter)) && Named(found) && Bounded(found)
  {
    if IsLiteral(filter) {
      FindTopicFinds(s, filter);
    } else {
      var live := Live(s.subscriptions);
      LiveAreChannels(s);
      GetOrInsertKeepsCoherent(s.patterns, filter, s.nextId, live);
      LookupIsLooked(s.patterns, filter, s.nextId, live);
      LookedPatternGrows(s, filter);
      LookedPatternReattaches(s, filter);
    }
  }

  lemma FoundKeepsSubscribed(s: State, found: State, c: ChannelId, name: Name)
    requires Subscribed(s) && Grown(s, found, c, name)
    ensures Subscribed(found)
  {
    forall i | 0 <= i < |found.subscriptions|
      ensures SubscriptionOk(found, found.subscriptions[i])
    {
      assert SubscriptionOk(s, s.subscriptions[i]);
    }
  }

  lemma FindTopicFinds(s: State, topic: Topic)
    requires Bounded(s) && Named(s) && Subscribed(s)
    ensures var (found, c) := FindTopic(s, topic);
      && Found(s, found, c, Exactly(topic))
      && Bounded(found) && Named(found) && Subscribed(found) && Ready(found, c, topic)
  {
    LiveAreChannels(s);
    GetOrInsertKeepsCoherent(s.topics, topic, s.nextId, Live(s.subscriptions));
    LookupIsLooked(s.topics, topic, s.nextId, Live(s.subscriptions));
    LookedTopicGrows(s, topic);
    LookedTopicReattaches(s, topic);
    var (found, c) := FindTopic(s, topic);
    FoundKeepsSubscribed(s, found, c, Exactly(topic));
  }

  lemma FoundKeepsFilled(s: State, found: State, c: ChannelId, name: Name)
    requires Filled(s) && Subscribed(s) && Found(s, found, c, name)
    ensures Filled(found) && Subscribed(found)
  {
    forall id | id in found.channels
      ensures ChannelOk(found, id)
    {
      if id in s.channels { assert ChannelOk(s, id); }
    }
    FoundKeepsSubscribed(s, found, c, name);
  }

  // ------------------------------------------------------------- delivering

  /** The state between finding the exact channel and delivering: what `Deliver` may rely on. */
  ghost predicate Ready(found: State, c: ChannelId, topic: Topic) {
    && Named(found)
    && c in found.channels && found.names[c] == Exactly(topic)
    && (forall id :: Attached(found, id) && found.names[id] == Exactly(topic) ==> id == c)
  }

  function Delivered(found: State, c: ChannelId, envelope: Envelope): State {
    found.(channels := Deliver(found, c, envelope), accepted := found.accepted + [envelope])
  }

  /** The envelope reaches exactly the attached channels whose name wants its topic, and `c`. */
  lemma WhoIsSent(found: State, c: ChannelId, envelope: Envelope, id: ChannelId)
    requires Ready(found, c, envelope.topic) && id in found.channels
    ensures Deliver(found, c, envelope)[id] ==
      if id == c then Send(found.channels[id], envelope, envelope.retain, found.capacities.replay)
      else if Attached(found, id) && Wants(found.names[id], envelope.topic)
      then Send(found.channels[id], envelope, false, found.capacities.replay)
      else found.channels[id]
    ensures Attached(found, id) && found.names[id].Exactly? ==> (Wants(found.names[id], envelope.topic) <==> id == c)
  {
    if IsMatchingPattern(found, id, envelope.topic) {
      var f :| f in found.patterns.channels && found.patterns.channels[f] == id && Matches(f, envelope.topic);
      assert found.names[id] == Pattern(f);
    }
  }

  lemma DeliveredChannelOk(found: State, c: ChannelId, envelope: Envelope, id: ChannelId)
    requires Ready(found, c, envelope.topic) && id in found.channels && id in found.names && id in found.born
    requires ChannelOk(found, id)
    ensures ChannelOk(Delivered(found, c, envelope), id)
  {
    WhoIsSent(found, c, envelope, id);
    var channel, replay := found.channels[id], found.capacities.replay;
    SendKeepsBuffered(channel, envelope, false, replay);
    SendKeepsBuffered(channel, envelope, envelope.retain, replay);
    if found.names[id].Exactly? { SendKeepsExact(channel, envelope, replay); }
    WantedAppend(found.accepted, found.born[id], found.names[id], envelope);
  }

  lemma DeliveredKeeps(found: State, c: ChannelId, envelope: Envelope)
    requires Ready(found, c, envelope.topic) && Filled(found) && Subscribed(found)
    ensures var after := Delivered(found, c, envelope);
      Named(after) && Filled(after) && Subscribed(after)
  {
    var after := Delivered(found, c, envelope);
    forall id | id in after.channels
      ensures ChannelOk(after, id)
    {
      DeliveredChannelOk(found, c, envelope, id);
    }
    forall i | 0 <= i < |after.subscriptions|
      ensures SubscriptionOk(after, after.subscriptions[i])
    {
      assert SubscriptionOk(found, found.subscriptions[i]);
    }
  }

  lemma PublishFinds(s: State, envelope: Envelope)
    requires Inv(s) && !s.seen.Remembers(envelope.id)
    ensures var before := s.(seen := s.seen.Record(envelope.id));
      var (found, c) := FindTopic(before, envelope.topic);
      && Found(before, found, c, Exactly(envelope.topic))
      && Bounded(found) && Ready(found, c, envelope.topic) && Filled(found) && Subscribed(found)
      && Publish(s, envelope) == Delivered(found, c, envelope)
  {
    var before := s.(seen := s.seen.Record(envelope.id));
    SeenIsIrrelevant(s, before);
    FindTopicFinds(before, envelope.topic);
    var (found, c) := FindTopic(before, envelope.topic);
    FoundKeepsFilled(before, found, c, Exactly(envelope.topic));
  }

  lemma SeenIsIrrelevant(s: State, t: State)
    requires Inv(s) && t == s.(seen := t.seen)
    ensures Inv(t)
  {
    forall id | id in t.channels
      ensures ChannelOk(t, id)
    {
      assert ChannelOk(s, id);
    }
    forall i | 0 <= i < |t.subscriptions|
      ensures SubscriptionOk(t, t.subscriptions[i])
    {
      assert SubscriptionOk(s, s.subscriptions[i]);
    }
  }

  // -------------------------------------------------------------- refinement

  /** What subscription `i` has been sent so far. */
  function Received(s: State, sub: Subscription): seq<Envelope>
    requires SubscriptionOk(s, sub)
  {
    s.channels[sub.channel].log[sub.start..]
  }

  /** One subscription against its plain counterpart; a detached channel's receiver has been sent nothing. */
  ghost predicate Agrees(s: State, sub: Subscription, plain: PlainSubscription) {
    && SubscriptionOk(s, sub)
    && sub.filter == plain.filter && sub.alive == plain.alive
    && (sub.alive ==> Received(s, sub) == if Attached(s, sub.channel) then plain.received else [])
  }

  ghost predicate Refines(s: State, p: Plain) {
    && s.seen == p.seen
    && |s.subscriptions| == |p.subscriptions|
    && forall i :: 0 <= i < |s.subscriptions| ==> Agrees(s, s.subscriptions[i], p.subscriptions[i])
  }

  lemma AgreesThroughFind(s: State, found: State, c: ChannelId, name: Name, sub: Subscription, plain: PlainSubscription)
    requires Named(s) && Found(s, found, c, name)
    requires Agrees(s, sub, plain) && (sub.alive ==> sub.channel in Live(s.subscriptions))
    ensures Agrees(found, sub, plain)
  {
  }

  lemma AgreesThroughDeliver(found: State, c: ChannelId, envelope: Envelope, sub: Subscription,
      plain: PlainSubscription)
    requires Ready(found, c, envelope.topic) && Agrees(found, sub, plain)
    requires sub.alive && sub.channel == c ==> Attached(found, c)
    ensures Agrees(Delivered(found, c, envelope), sub, Receive(plain, envelope))
  {
    WhoIsSent(found, c, envelope, sub.channel);
    WantsIsMatches(sub.filter, envelope.topic);
    var log := found.channels[sub.channel].log;
    assert (log + [envelope])[sub.start..] == log[sub.start..] + [envelope];
    assert Attached(Delivered(found, c, envelope), sub.channel) == Attached(found, sub.channel);
  }

  lemma PublishAgrees(before: State, envelope: Envelope, sub: Subscription, plain: PlainSubscription)
    requires Bounded(before) && Named(before) && Subscribed(before)
    requires Agrees(before, sub, plain) && (sub.alive ==> sub.channel in Live(before.subscriptions))
    ensures var (found, c) := FindTopic(before, envelope.topic);
      Agrees(Delivered(found, c, envelope), sub, Receive(plain, envelope))
  {
    var (found, c) := FindTopic(before, envelope.topic);
    LiveAreChannels(before);
    FindTopicFinds(before, envelope.topic);
    AgreesThroughFind(before, found, c, Exactly(envelope.topic), sub, plain);
    AgreesThroughDeliver(found, c, envelope, sub, plain);
  }

  lemma NewPublishAgrees(s: State, envelope: Envelope, sub: Subscription, plain: PlainSubscription)
    requires Inv(s) && !s.seen.Remembers(envelope.id) && sub in s.subscriptions && Agrees(s, sub, plain)
    ensures Agrees(Publish(s, envelope), sub, Receive(plain, envelope))
  {
    var before := s.(seen := s.seen.Record(envelope.id));
    SeenIsIrrelevant(s, before);
    assert Agrees(before, sub, plain);
    PublishAgrees(before, envelope, sub, plain);
  }

  lemma PublishRefines(s: State, p: Plain, envelope: Envelope)
    requires Inv(s) && Refines(s, p)
    ensures Refines(Publish(s, envelope), PlainNext(p, Publishing(envelope)))
  {
    if !s.seen.Remembers(envelope.id) {
      PublishFinds(s, envelope);
      var after, plain := Publish(s, envelope), PlainNext(p, Publishing(envelope));
      forall i | 0 <= i < |s.subscriptions|
        ensures Agrees(after, after.subscriptions[i], plain.subscriptions[i])
      {
        assert Agrees(s, s.subscriptions[i], p.subscriptions[i]);
        NewPublishAgrees(s, envelope, s.subscriptions[i], p.subscriptions[i]);
      }
    }
  }

  lemma SubscribeAgrees(s: State, filter: TopicFilter, sub: Subscription, plain: PlainSubscription)
    requires Inv(s) && sub in s.subscriptions && Agrees(s, sub, plain)
    ensures Agrees(Subscribe(s, filter), sub, plain)
  {
    FindFinds(s, filter);
    var (found, c) := Find(s, filter);
    AgreesThroughFind(s, found, c, NameOf(filter), sub, plain);
  }

  lemma OpenedAgrees(s: State, filter: TopicFilter)
    requires Inv(s)
    ensures var after := Subscribe(s, filter);
      && |after.subscriptions| == |s.subscriptions| + 1 && after.seen == s.seen
      && Agrees(after, after.subscriptions[|s.subscriptions|], PlainSubscription(filter, [], true))
  {
    FindFinds(s, filter);
    var (found, c) := Find(s, filter);
    FoundKeepsFilled(s, found, c, NameOf(filter));
  }

  lemma SubscribeRefines(s: State, p: Plain, filter: TopicFilter)
    requires Inv(s) && Refines(s, p)
    ensures Refines(Subscribe(s, filter), PlainNext(p, Subscribing(filter)))
  {
    OpenedAgrees(s, filter);
    var after, plain := Subscribe(s, filter), PlainNext(p, Subscribing(filter));
    forall i | 0 <= i < |after.subscriptions|
      ensures Agrees(after, after.subscriptions[i], plain.subscriptions[i])
    {
      if i < |s.subscriptions| {
        assert Agrees(s, s.subscriptions[i], p.subscriptions[i]);
        SubscribeAgrees(s, filter, s.subscriptions[i], p.subscriptions[i]);
      }
    }
  }

  lemma UnsubscribeRefines(s: State, p: Plain, i: nat)
    requires Refines(s, p)
    ensures Refines(Unsubscribe(s, i), PlainNext(p, Dropping(i)))
  {
    var after, plain := Unsubscribe(s, i), PlainNext(p, Dropping(i));
    forall j | 0 <= j < |after.subscriptions|
      ensures Agrees(after, after.subscriptions[j], plain.subscriptions[j])
    {
      assert Agrees(s, s.subscriptions[j], p.subscriptions[j]);
    }
  }

  lemma StepKeepsInv(s: State, op: Operation)
    requires Inv(s)
    ensures Inv(Next(s, op))
  {
    match op
    case Publishing(envelope) =>
      if !s.seen.Remembers(envelope.id) {
        PublishFinds(s, envelope);
        var (found, c) := FindTopic(s.(seen := s.seen.Record(envelope.id)), envelope.topic);
        DeliveredKeeps(found, c, envelope);
      }
    case Subscribing(filter) =>
      FindFinds(s, filter);
      var (found, c) := Find(s, filter);
      FoundKeepsFilled(s, found, c, NameOf(filter));
      SubscribeKeeps(found, Subscription(filter, c, |found.channels[c].log|, true));
    case Dropping(i) =>
      if i < |s.subscriptions| { UnsubscribeKeeps(s, i); }
  }

  lemma SubscribeKeeps(s: State, sub: Subscription)
    requires Inv(s) && SubscriptionOk(s, sub)
    ensures Inv(s.(subscriptions := s.subscriptions + [sub]))
  {
    var t := s.(subscriptions := s.subscriptions + [sub]);
    forall i | 0 <= i < |t.subscriptions|
      ensures SubscriptionOk(t, t.subscriptions[i])
    {
      if i < |s.subscriptions| { assert SubscriptionOk(s, s.subscriptions[i]); }
    }
  }

  lemma UnsubscribeKeeps(s: State, i: nat)
    requires Inv(s) && i < |s.subscriptions|
    ensures Inv(Unsubscribe(s, i))
  {
    var t := Unsubscribe(s, i);
    forall j | 0 <= j < |t.subscriptions|
      ensures SubscriptionOk(t, t.subscriptions[j])
    {
      assert SubscriptionOk(s, s.subscriptions[j]);
    }
  }

  lemma StepRefines(s: State, p: Plain, op: Operation)
    requires Inv(s) && Refines(s, p)
    ensures Inv(Next(s, op)) && Refines(Next(s, op), PlainNext(p, op))
  {
    StepKeepsInv(s, op);
    match op
    case Publishing(envelope) => PublishRefines(s, p, envelope);
    case Subscribing(filter) => SubscribeRefines(s, p, filter);
    case Dropping(i) => UnsubscribeRefines(s, p, i);
  }

  lemma {:induction false} RunRefines(s: State, p: Plain, run: seq<Operation>)
    requires Inv(s) && Refines(s, p)
    ensures Inv(Execute(s, run)) && Refines(Execute(s, run), PlainExecute(p, run))
    decreases |run|
  {
    if run != [] {
      StepRefines(s, p, run[0]);
      RunRefines(Next(s, run[0]), PlainNext(p, run[0]), run[1..]);
    }
  }

  /** A broker that may have been used or refilled, but that nobody is subscribed to. */
  ghost predicate Unsubscribed(s: State) {
    Inv(s) && s.subscriptions == []
  }

  lemma InitialKeepsInv(c: Capacities)
    ensures Unsubscribed(Initial(c))
  {
  }

  /**
   * In every run from a new broker, or one refilled at startup, with any capacities, each live subscription
   * agrees with the list.
   */
  lemma {:induction false} BrokerRefinesPlain(s0: State, run: seq<Operation>)
    requires Unsubscribed(s0)
    ensures var s := Execute(s0, run);
      Inv(s) && Refines(s, PlainExecute(Plain(s0.seen, []), run))
  {
    RunRefines(s0, Plain(s0.seen, []), run);
  }

  // ------------------------------------------- which subscriptions are served

  /** The condition to check before subscribing: the filter's channel exists, or the map has room for it. */
  predicate HasRoom(s: State, filter: TopicFilter) {
    var m, live := if IsLiteral(filter) then s.topics else s.patterns, Live(s.subscriptions);
    || filter in m.channels
    || |m.channels| < m.capacity
    || exists k :: k in m.channels && TopicMaps.Idle(m.channels, live, k)
  }

  lemma StartsAttached(s: State, filter: TopicFilter)
    requires Inv(s)
    ensures var after := Subscribe(s, filter);
      Attached(after, after.subscriptions[|s.subscriptions|].channel) <==> HasRoom(s, filter)
  {
    LiveAreChannels(s);
    FindFinds(s, filter);
    AttachedWhen(if IsLiteral(filter) then s.topics else s.patterns, filter, s.nextId, Live(s.subscriptions));
  }

  /** While it is alive, a subscription stays on its channel, and the channel stays as attached as it was. */
  ghost predicate Stays(s: State, after: State, i: nat)
    requires i < |s.subscriptions|
  {
    && i < |after.subscriptions|
    && (after.subscriptions[i].alive ==>
          && after.subscriptions[i] == s.subscriptions[i]
          && (Attached(after, s.subscriptions[i].channel) <==> Attached(s, s.subscriptions[i].channel)))
  }

  lemma FindKeepsSubscriptions(s: State, filter: TopicFilter)
    ensures Find(s, filter).0.subscriptions == s.subscriptions
  {
  }

  lemma PublishKeepsAttached(s: State, envelope: Envelope, id: ChannelId)
    requires Inv(s) && id in Live(s.subscriptions)
    ensures Attached(Publish(s, envelope), id) <==> Attached(s, id)
  {
    LiveAreChannels(s);
    if !s.seen.Remembers(envelope.id) {
      PublishFinds(s, envelope);
      assert Attached(s.(seen := s.seen.Record(envelope.id)), id) == Attached(s, id);
    }
  }

  lemma FindKeepsAttached(s: State, filter: TopicFilter, id: ChannelId)
    requires Inv(s) && id in Live(s.subscriptions)
    ensures Attached(Find(s, filter).0, id) <==> Attached(s, id)
  {
    LiveAreChannels(s);
    FindFinds(s, filter);
  }

  lemma StepStays(s: State, op: Operation, i: nat)
    requires i < |s.subscriptions|
    requires s.subscriptions[i].alive ==> match op
      case Publishing(envelope) =>
        Attached(Publish(s, envelope), s.subscriptions[i].channel) == Attached(s, s.subscriptions[i].channel)
      case Subscribing(filter) => Attached(Find(s, filter).0, s.subscriptions[i].channel) ==
        Attached(s, s.subscriptions[i].channel)
      case Dropping(_) => true
    ensures Stays(s, Next(s, op), i)
  {
    match op
    case Publishing(_) =>
    case Subscribing(filter) => FindKeepsSubscriptions(s, filter);
    case Dropping(_) =>
  }

  lemma StaysAttached(s: State, op: Operation, i: nat)
    requires Inv(s) && i < |s.subscriptions|
    ensures Stays(s, Next(s, op), i)
  {
    var sub := s.subscriptions[i];
    if sub.alive {
      assert sub.channel in Live(s.subscriptions);
      match op
      case Publishing(envelope) => PublishKeepsAttached(s, envelope, sub.channel);
      case Subscribing(filter) => FindKeepsAttached(s, filter, sub.channel);
      case Dropping(_) =>
    }
    StepStays(s, op, i);
  }

  lemma {:induction false} StaysAttachedThrough(s: State, run: seq<Operation>, i: nat)
    requires Inv(s) && i < |s.subscriptions|
    ensures Stays(s, Execute(s, run), i)
    decreases |run|
  {
    if run != [] {
      StepKeepsInv(s, run[0]);
      StaysAttached(s, run[0], i);
      StaysAttachedThrough(Next(s, run[0]), run[1..], i);
    }
  }

  /** The new publishes of a run that `filter` matches, in order, each once. */
  function MatchingPublishes(seen: Window, run: seq<Operation>, filter: TopicFilter): seq<Envelope>
    decreases |run|
  {
    if run == [] then []
    else match run[0]
      case Publishing(envelope) =>
        var rest := MatchingPublishes(seen.Record(envelope.id), run[1..], filter);
        if !seen.Remembers(envelope.id) && Matches(filter, envelope.topic) then [envelope] + rest else rest
      case _ => MatchingPublishes(seen, run[1..], filter)
  }

  /** The plain list delivers exactly the new publishes its filter matches, as long as it is alive. */
  lemma {:induction false} PlainReceives(p: Plain, run: seq<Operation>, i: nat)
    requires i < |p.subscriptions|
    ensures i < |PlainExecute(p, run).subscriptions|
    ensures PlainExecute(p, run).subscriptions[i].alive ==>
              PlainExecute(p, run).subscriptions[i].received ==
                p.subscriptions[i].received + MatchingPublishes(p.seen, run, p.subscriptions[i].filter)
    ensures PlainExecute(p, run).subscriptions[i].alive ==> p.subscriptions[i].alive
    decreases |run|
  {
    if run != [] {
      PlainReceives(PlainNext(p, run[0]), run[1..], i);
    }
  }

  /**
   * The routing guarantee. Take any run from a new or refilled broker, a subscription, and any continuation
   * during which it stays alive. If the map had room when it was opened, it has been sent every new publish
   * since then that its filter matches, in order, once, and nothing else. If not, it has been sent nothing.
   */
  lemma {:induction false} SubscriptionIsServed(s0: State, before: seq<Operation>, filter: TopicFilter,
      later: seq<Operation>)
    requires Unsubscribed(s0)
    ensures var start := Execute(s0, before);
      var i := |start.subscriptions|;
      var s := Execute(Next(start, Subscribing(filter)), later);
      && i < |s.subscriptions|
      && SubscriptionOk(s, s.subscriptions[i])
      && (s.subscriptions[i].alive ==>
            s.subscriptions[i].filter == filter
            && Received(s, s.subscriptions[i]) ==
                 if HasRoom(start, filter) then MatchingPublishes(start.seen, later, filter) else [])
  {
    var start, plain := Execute(s0, before), PlainExecute(Plain(s0.seen, []), before);
    var i, next, plainNext := |start.subscriptions|, Next(start, Subscribing(filter)),
      PlainNext(plain, Subscribing(filter));
    BrokerRefinesPlain(s0, before);
    StartsAttached(start, filter);
    StepRefines(start, plain, Subscribing(filter));
    StaysAttachedThrough(next, later, i);
    RunRefines(next, plainNext, later);
    PlainReceives(plainNext, later, i);
    var s := Execute(next, later);
    assert Agrees(s, s.subscriptions[i], PlainExecute(plainNext, later).subscriptions[i]);
    assert Agrees(next, next.subscriptions[i], plainNext.subscriptions[i]);
  }

  /**
   * What a new literal subscription gets first depends only on what the channel was refilled with, if
   * anything, and what was published since it began.
   */
  lemma LiteralBacklog(s: State, filter: TopicFilter)
    requires Inv(s) && IsLiteral(filter)
    ensures var (found, c) := Find(s, filter);
      && c in found.channels && c in found.born && found.born[c] <= |s.accepted|
      && (if filter in s.topics.channels
          then c in s.channels && c in s.born && found.born[c] == s.born[c]
               && found.channels[c].refilled == s.channels[c].refilled
               && found.channels[c].restored == s.channels[c].restored
          else found.channels[c].refilled == [] && found.channels[c].restored == None && found.born[c] == |s.accepted|)
      && var published := Wanted(s.accepted, found.born[c], |s.accepted|, Exactly(filter));
         var newest := Last(found.channels[c].refilled + published, s.capacities.replay);
         var retained := RetainedFrom(found.channels[c].restored, published);
         && found.channels[c].buffer == newest && found.channels[c].retained == retained
         && Backlog(found.channels[c]) ==
              if retained.Some? && !HasId(newest, retained.value.id) then [retained.value] + newest else newest
  {
    LiveAreChannels(s);
    FindFinds(s, filter);
    var (found, c) := Find(s, filter);
    FoundKeepsFilled(s, found, c, NameOf(filter));
    assert ChannelOk(found, c);
    var channel, published := found.channels[c], Wanted(s.accepted, found.born[c], |s.accepted|, Exactly(filter));
    assert (channel.refilled + published)[|channel.refilled|..] == published;
  }
}
