/** Refilling a broker's replay buffers and retained messages at startup. */
module Rehydration {
  import opened Common
  import opened Sequences
  import opened Channels
  import opened TopicMaps
  import opened Routing

  /** Puts loaded messages into a channel's buffer, keeping the newest. The channel begins anew with them. */
  function Refill(channel: Channel, envelopes: seq<Envelope>, capacity: nat): Channel {
    var log := channel.log + envelopes;
    Channel(log, Last(channel.buffer + envelopes, capacity), channel.retained, log, channel.retained)
  }

  /** Gives a channel its retained message, and so begins it anew as well. */
  function Restore(channel: Channel, envelope: Envelope): Channel {
    Channel(channel.log, channel.buffer, Some(envelope), channel.log, Some(envelope))
  }

  /** A channel that begins at this point of the run. */
  function WithBegun(s: State, c: ChannelId, channel: Channel): State {
    s.(channels := s.channels[c := channel], born := s.born[c := |s.accepted|])
  }

  function RehydrateBuffer(s: State, topic: Topic, envelopes: seq<Envelope>): State {
    if envelopes == [] then s
    else
      var (found, c) := FindTopic(s, topic);
      WithBegun(found, c, Refill(found.channels[c], envelopes, s.capacities.replay))
  }

  function RehydrateRetained(s: State, topic: Topic, envelope: Envelope): State {
    var (found, c) := FindTopic(s, topic);
    WithBegun(found, c, Restore(found.channels[c], envelope))
  }

  function RehydrateBuffers(s: State, groups: seq<(Topic, seq<Envelope>)>): State {
    if groups == [] then s
    else
      var last := groups[|groups| - 1];
      RehydrateBuffer(RehydrateBuffers(s, groups[..|groups| - 1]), last.0, last.1)
  }

  function RehydrateAllRetained(s: State, retained: seq<(Topic, Envelope)>): State {
    if retained == [] then s
    else
      var last := retained[|retained| - 1];
      RehydrateRetained(RehydrateAllRetained(s, retained[..|retained| - 1]), last.0, last.1)
  }

  /** A new broker, filled from what the loaders returned. */
  function Restored(capacities: Capacities, groups: seq<(Topic, seq<Envelope>)>,
      retained: seq<(Topic, Envelope)>): State {
    RehydrateAllRetained(RehydrateBuffers(Initial(capacities), groups), retained)
  }

  // ------------------------------------------------ what a later subscriber sees

  function BufferFor(s: State, topic: Topic): seq<Envelope> {
    if topic in s.topics.channels && s.topics.channels[topic] in s.channels
    then s.channels[s.topics.channels[topic]].buffer else []
  }

  function RetainedIn(s: State, topic: Topic): Option<Envelope> {
    if topic in s.topics.channels && s.topics.channels[topic] in s.channels
    then s.channels[s.topics.channels[topic]].retained else None
  }

  ghost predicate SameMemory(s: State, t: State) {
    forall topic :: BufferFor(s, topic) == BufferFor(t, topic) && RetainedIn(s, topic) == RetainedIn(t, topic)
  }

  /** A broker all of whose exact topics come from a set no larger than the map. */
  ghost predicate Roomy(s: State, universe: set<Topic>) {
    && Bounded(s) && Named(s) && Subscribed(s)
    && s.topics.channels.Keys <= universe && |universe| <= s.capacities.entries
  }

  /** `topic` leads to channel `c`. */
  predicate Leads(s: State, topic: Topic, c: ChannelId) {
    topic in s.topics.channels && s.topics.channels[topic] == c && c in s.channels
  }

  lemma GrownRemembers(s: State, found: State, topic: Topic, c: ChannelId)
    requires Named(s) && Named(found) && Grown(s, found, c, Exactly(topic))
    requires found.topics.channels == s.topics.channels[topic := c]
    requires if topic in s.topics.channels then s.topics.channels[topic] == c else c !in s.channels
    ensures SameMemory(s, found) && Leads(found, topic, c)
  {
  }

  /** Looking a topic up neither evicts another nor changes what is remembered of any. */
  lemma FindTopicRemembers(s: State, topic: Topic, universe: set<Topic>)
    requires Roomy(s, universe) && topic in universe
    ensures var (found, c) := FindTopic(s, topic);
      && Roomy(found, universe) && Leads(found, topic, c) && SameMemory(s, found) && Ready(found, c, topic)
      && found.capacities == s.capacities && found.subscriptions == s.subscriptions
  {
    var (found, c) := FindTopic(s, topic);
    LiveAreChannels(s);
    NoEvictionWithin(s.topics, topic, s.nextId, Live(s.subscriptions), universe);
    FindTopicFinds(s, topic);
    GrownRemembers(s, found, topic, c);
  }

  /** Changing one topic's channel changes what is remembered of that topic alone. */
  lemma ReplaceRemembers(s: State, topic: Topic, c: ChannelId, channel: Channel, universe: set<Topic>)
    requires Roomy(s, universe) && Leads(s, topic, c) && |channel.log| >= |s.channels[c].log|
    ensures var t := WithBegun(s, c, channel);
      && Roomy(t, universe)
      && (forall u :: BufferFor(t, u) == if u == topic then channel.buffer else BufferFor(s, u))
      && (forall u :: RetainedIn(t, u) == if u == topic then channel.retained else RetainedIn(s, u))
  {
    var t := WithBegun(s, c, channel);
    assert t.channels.Keys == s.channels.Keys && t.born.Keys == s.born.Keys;
    forall i | 0 <= i < |t.subscriptions|
      ensures SubscriptionOk(t, t.subscriptions[i])
    {
      assert SubscriptionOk(s, s.subscriptions[i]);
    }
    assert s.names[c] == Exactly(topic);
  }

  lemma RehydrateBufferRemembers(s: State, topic: Topic, envelopes: seq<Envelope>, universe: set<Topic>)
    requires Roomy(s, universe) && topic in universe
    ensures var t := RehydrateBuffer(s, topic, envelopes);
      && Roomy(t, universe) && t.capacities == s.capacities
      && (forall u :: u != topic ==> BufferFor(t, u) == BufferFor(s, u))
      && BufferFor(t, topic) == (if envelopes == [] then BufferFor(s, topic)
         else Last(BufferFor(s, topic) + envelopes, s.capacities.replay))
      && (forall u :: RetainedIn(t, u) == RetainedIn(s, u))
  {
    if envelopes != [] {
      FindTopicRemembers(s, topic, universe);
      var (found, c) := FindTopic(s, topic);
      ReplaceRemembers(found, topic, c, Refill(found.channels[c], envelopes, s.capacities.replay), universe);
      assert BufferFor(found, topic) == found.channels[c].buffer;
      assert RetainedIn(found, topic) == found.channels[c].retained;
    }
  }

  lemma RehydrateRetainedRemembers(s: State, topic: Topic, envelope: Envelope, universe: set<Topic>)
    requires Roomy(s, universe) && topic in universe
    ensures var t := RehydrateRetained(s, topic, envelope);
      && Roomy(t, universe) && t.capacities == s.capacities
      && (forall u :: BufferFor(t, u) == BufferFor(s, u))
      && (forall u :: RetainedIn(t, u) == if u == topic then Some(envelope) else RetainedIn(s, u))
  {
    FindTopicRemembers(s, topic, universe);
    var (found, c) := FindTopic(s, topic);
    ReplaceRemembers(found, topic, c, Restore(found.channels[c], envelope), universe);
    assert BufferFor(found, topic) == found.channels[c].buffer;
  }

  ghost predicate TopicsDiffer<T>(pairs: seq<(Topic, T)>) {
    forall i, j :: 0 <= i < j < |pairs| ==> pairs[i].0 != pairs[j].0
  }

  /** What a list of pairs holds for a topic. */
  function ValueFor<T>(pairs: seq<(Topic, T)>, topic: Topic): Option<T> {
    if pairs == [] then None
    else if pairs[|pairs| - 1].0 == topic then Some(pairs[|pairs| - 1].1)
    else ValueFor(pairs[..|pairs| - 1], topic)
  }

  lemma {:induction false} ValueForIs<T>(pairs: seq<(Topic, T)>, topic: Topic)
    ensures ValueFor(pairs, topic).Some? <==> exists i :: 0 <= i < |pairs| && pairs[i].0 == topic
    ensures TopicsDiffer(pairs) ==> forall i :: 0 <= i < |pairs| && pairs[i].0 == topic ==>
      ValueFor(pairs, topic) == Some(pairs[i].1)
  {
    if pairs != [] {
      ValueForIs(pairs[..|pairs| - 1], topic);
      assert pairs == pairs[..|pairs| - 1] + [pairs[|pairs| - 1]];
    }
  }

  function OrEmpty(envelopes: Option<seq<Envelope>>): seq<Envelope> {
    if envelopes.Some? then envelopes.value else []
  }

  /** The buffers are those of `groups`, and nothing is retained. */
  ghost predicate Holds(s: State, groups: seq<(Topic, seq<Envelope>)>) {
    forall t :: BufferFor(s, t) == OrEmpty(ValueFor(groups, t)) && RetainedIn(s, t) == None
  }

  lemma {:induction false} OneMoreGroup(s: State, t: State, groups: seq<(Topic, seq<Envelope>)>,
      group: (Topic, seq<Envelope>))
    requires Holds(s, groups) && ValueFor(groups, group.0) == None
    requires forall u :: u != group.0 ==> BufferFor(t, u) == BufferFor(s, u)
    requires BufferFor(t, group.0) == group.1
    requires forall u :: RetainedIn(t, u) == RetainedIn(s, u)
    ensures Holds(t, groups + [group])
  {
    forall u
      ensures BufferFor(t, u) == OrEmpty(ValueFor(groups + [group], u)) && RetainedIn(t, u) == None
    {
    }
  }

  /** Every loaded group ends up as its topic's buffer. */
  lemma {:induction false} BuffersRestored(capacities: Capacities, groups: seq<(Topic, seq<Envelope>)>,
      universe: set<Topic>)
    requires |universe| <= capacities.entries && TopicsDiffer(groups)
    requires forall i :: 0 <= i < |groups| ==> groups[i].0 in universe && |groups[i].1| <= capacities.replay
    ensures var s := RehydrateBuffers(Initial(capacities), groups);
      Roomy(s, universe) && s.capacities == capacities && Holds(s, groups)
    decreases |groups|
  {
    if groups == [] {
    } else {
      var init, last := groups[..|groups| - 1], groups[|groups| - 1];
      var before := RehydrateBuffers(Initial(capacities), init);
      BuffersRestored(capacities, init, universe);
      RehydrateBufferRemembers(before, last.0, last.1, universe);
      ValueForIs(init, last.0);
      assert BufferFor(before, last.0) == [] && [] + last.1 == last.1;
      OneMoreGroup(before, RehydrateBuffer(before, last.0, last.1), init, last);
      assert groups == init + [last];
    }
  }

  /** Every loaded retained message ends up as its topic's. */
  lemma {:induction false} RetainedRestored(s: State, retained: seq<(Topic, Envelope)>, universe: set<Topic>)
    requires Roomy(s, universe)
    requires forall t :: RetainedIn(s, t) == None
    requires forall i :: 0 <= i < |retained| ==> retained[i].0 in universe
    ensures var t := RehydrateAllRetained(s, retained);
      && Roomy(t, universe) && t.capacities == s.capacities
      && (forall u :: BufferFor(t, u) == BufferFor(s, u))
      && (forall u :: RetainedIn(t, u) == ValueFor(retained, u))
    decreases |retained|
  {
    if retained != [] {
      var init, last := retained[..|retained| - 1], retained[|retained| - 1];
      RetainedRestored(s, init, universe);
      RehydrateRetainedRemembers(RehydrateAllRetained(s, init), last.0, last.1, universe);
    }
  }

  // -------------------------------------------------------- a broker as any other

  /** A channel that begins now, with a buffer that is its log's newest part, keeps the broker's invariant. */
  lemma BegunKeepsInv(s: State, c: ChannelId, channel: Channel)
    requires Inv(s) && c in s.channels && Buffered(channel, s.capacities.replay)
    requires channel.refilled == channel.log && channel.retained == channel.restored
    requires |channel.log| >= |s.channels[c].log|
    ensures Inv(WithBegun(s, c, channel))
  {
    var t := WithBegun(s, c, channel);
    assert t.channels.Keys == s.channels.Keys && t.born.Keys == s.born.Keys;
    assert channel.log[|channel.log|..] == [] && channel.log + [] == channel.log;
    forall id | id in t.channels
      ensures ChannelOk(t, id)
    {
      assert ChannelOk(s, id);
    }
    forall i | 0 <= i < |t.subscriptions|
      ensures SubscriptionOk(t, t.subscriptions[i])
    {
      assert SubscriptionOk(s, s.subscriptions[i]);
    }
  }

  lemma FindTopicKeepsInv(s: State, topic: Topic)
    requires Inv(s)
    ensures var (found, c) := FindTopic(s, topic);
      && Inv(found) && c in found.channels && found.subscriptions == s.subscriptions && found.capacities == s.capacities
  {
    var (found, c) := FindTopic(s, topic);
    FindTopicFinds(s, topic);
    FoundKeepsFilled(s, found, c, Exactly(topic));
  }

  lemma RehydrateBufferKeepsInv(s: State, topic: Topic, envelopes: seq<Envelope>)
    requires Inv(s)
    ensures Inv(RehydrateBuffer(s, topic, envelopes))
      && RehydrateBuffer(s, topic, envelopes).subscriptions == s.subscriptions
  {
    if envelopes != [] {
      var (found, c) := FindTopic(s, topic);
      FindTopicKeepsInv(s, topic);
      assert ChannelOk(found, c);
      LastConcat(found.channels[c].log, envelopes, s.capacities.replay);
      BegunKeepsInv(found, c, Refill(found.channels[c], envelopes, s.capacities.replay));
    }
  }

  lemma RehydrateRetainedKeepsInv(s: State, topic: Topic, envelope: Envelope)
    requires Inv(s)
    ensures Inv(RehydrateRetained(s, topic, envelope))
      && RehydrateRetained(s, topic, envelope).subscriptions == s.subscriptions
  {
    var (found, c) := FindTopic(s, topic);
    FindTopicKeepsInv(s, topic);
    assert ChannelOk(found, c);
    BegunKeepsInv(found, c, Restore(found.channels[c], envelope));
  }

  lemma {:induction false} RehydrateBuffersKeepInv(s: State, groups: seq<(Topic, seq<Envelope>)>)
    requires Unsubscribed(s)
    ensures Unsubscribed(RehydrateBuffers(s, groups))
    decreases |groups|
  {
    if groups != [] {
      var init, last := groups[..|groups| - 1], groups[|groups| - 1];
      RehydrateBuffersKeepInv(s, init);
      RehydrateBufferKeepsInv(RehydrateBuffers(s, init), last.0, last.1);
    }
  }

  lemma {:induction false} RehydrateAllRetainedKeepInv(s: State, retained: seq<(Topic, Envelope)>)
    requires Unsubscribed(s)
    ensures Unsubscribed(RehydrateAllRetained(s, retained))
    decreases |retained|
  {
    if retained != [] {
      var init, last := retained[..|retained| - 1], retained[|retained| - 1];
      RehydrateAllRetainedKeepInv(s, init);
      RehydrateRetainedKeepsInv(RehydrateAllRetained(s, init), last.0, last.1);
    }
  }

  /** Whatever was loaded, in whatever order, and however much of it the map had room for: a broker like any other. */
  lemma RestoredIsUnsubscribed(capacities: Capacities, groups: seq<(Topic, seq<Envelope>)>,
      retained: seq<(Topic, Envelope)>)
    ensures Unsubscribed(Restored(capacities, groups, retained))
  {
    InitialKeepsInv(capacities);
    RehydrateBuffersKeepInv(Initial(capacities), groups);
    RehydrateAllRetainedKeepInv(RehydrateBuffers(Initial(capacities), groups), retained);
  }
}
