/** The broker as an object: its methods do, step by step, what module Routing specifies. */
module Broker {
  import opened Common
  import opened Sequences
  import opened TopicFilters
  import opened Dedup
  import opened Channels
  import opened TopicMaps
  import opened Routing
  import opened Rehydration
  import opened Sorting

  /** Delivery to the exact channel `c` and to those matching patterns that are in `done`. */
  function DeliverTo(s: State, c: ChannelId, envelope: Envelope, done: set<TopicFilter>): map<ChannelId, Channel> {
    map id | id in s.channels ::
      if id == c then Send(s.channels[id], envelope, envelope.retain, s.capacities.replay)
      else if exists f ::
        f in done && f in s.patterns.channels && s.patterns.channels[f] == id && Matches(f, envelope.topic)
      then Send(s.channels[id], envelope, false, s.capacities.replay)
      else s.channels[id]
  }

  lemma DeliverToAll(s: State, c: ChannelId, envelope: Envelope)
    ensures DeliverTo(s, c, envelope, s.patterns.channels.Keys) == Deliver(s, c, envelope)
  {
  }

  lemma DeliverToNone(s: State, c: ChannelId, envelope: Envelope)
    requires c in s.channels
    ensures DeliverTo(s, c, envelope, {}) ==
      s.channels[c := Send(s.channels[c], envelope, envelope.retain, s.capacities.replay)]
  {
  }

  /** Visiting one more pattern sends to its channel alone: no two patterns share one, and none is `c`. */
  lemma DeliverToOneMore(s: State, c: ChannelId, envelope: Envelope, done: set<TopicFilter>, f: TopicFilter)
    requires Ready(s, c, envelope.topic) && f in s.patterns.channels && f !in done
    ensures var id, sent := s.patterns.channels[f], DeliverTo(s, c, envelope, done);
      && id in sent && sent[id] == s.channels[id]
      && DeliverTo(s, c, envelope, done + {f}) ==
           if Matches(f, envelope.topic) then sent[id := Send(sent[id], envelope, false, s.capacities.replay)] else sent
  {
    var id, sent := s.patterns.channels[f], DeliverTo(s, c, envelope, done);
    assert s.names[id] == Pattern(f);
    forall g | g in done && g in s.patterns.channels
      ensures s.patterns.channels[g] != id
    {
      assert s.names[s.patterns.channels[g]] == Pattern(g);
    }
  }

  lemma FourDistinct(a: object, b: object, c: object, d: object)
    requires a != b && a != c && a != d && b != c && b != d && c != d
    ensures |{a, b, c, d}| == 4
  {
  }

  class Broker {
    const capacities: Capacities
    const seen: SeenIds
    const topics: TopicMap<Topic>
    const patterns: TopicMap<TopicFilter>
    var channels: map<ChannelId, Channel>
    var nextId: ChannelId
    var subscriptions: seq<Subscription>
    ghost var accepted: seq<Envelope>
    ghost var names: map<ChannelId, Name>
    ghost var born: map<ChannelId, nat>

    ghost function Repr(): set<object> {
      {this, seen, topics, patterns}
    }

    ghost function State(): Routing.State
      reads Repr()
    {
      Routing.State(capacities, seen.State(), topics.State(), patterns.State(), channels, nextId, subscriptions,
                    accepted, names, born)
    }

    ghost predicate Valid()
      reads Repr()
    {
      && |Repr()| == 4
      && seen.Valid() && topics.Valid() && patterns.Valid()
      && Inv(State())
    }

    constructor (capacities: Capacities)
      ensures Valid() && fresh(Repr())
      ensures State() == Initial(capacities)
    {
      this.capacities := capacities;
      seen := new SeenIds(capacities.dedup);
      topics := new TopicMap(capacities.entries);
      patterns := new TopicMap(capacities.entries);
      channels, nextId, subscriptions := map[], 0, [];
      accepted, names, born := [], map[], map[];
      new;
      InitialKeepsInv(capacities);
      FourDistinct(this, seen, topics, patterns);
    }

    method AddChannel(c: ChannelId, ghost name: Name)
      modifies this
      ensures State() == WithChannel(old(State()), c, name)
    {
      if c !in channels {
        channels := channels[c := EMPTY_CHANNEL];
        names := names[c := name];
        born := born[c := |accepted|];
        nextId := nextId + 1;
      }
    }

    /** The exact topic's channel, created and possibly evicting another's if need be. */
    method TopicChannel(topic: Topic) returns (c: ChannelId)
      requires |Repr()| == 4 && topics.Valid() && nextId !in Live(subscriptions)
      modifies this, topics
      ensures topics.Valid()
      ensures (State(), c) == FindTopic(old(State()), topic)
    {
      c := topics.Lookup(topic, nextId, Live(subscriptions));
      AddChannel(c, Exactly(topic));
    }

    method PatternChannel(filter: TopicFilter) returns (c: ChannelId)
      requires |Repr()| == 4 && patterns.Valid() && nextId !in Live(subscriptions)
      modifies this, patterns
      ensures patterns.Valid()
      ensures (State(), c) == FindPattern(old(State()), filter)
    {
      c := patterns.Lookup(filter, nextId, Live(subscriptions));
      AddChannel(c, Pattern(filter));
    }

    /** Routes a new envelope: to its topic's channel, then to every pattern that matches. */
    method Route(envelope: Envelope)
      requires |Repr()| == 4 && topics.Valid() && nextId !in Live(subscriptions)
      requires var (found, c) := FindTopic(State(), envelope.topic); Ready(found, c, envelope.topic)
      modifies this, topics
      ensures topics.Valid()
      ensures var (found, c) := FindTopic(old(State()), envelope.topic);
        State() == Delivered(found, c, envelope)
    {
      var c := TopicChannel(envelope.topic);
      ghost var found := State();
      DeliverToNone(found, c, envelope);
      channels := channels[c := Send(channels[c], envelope, envelope.retain, capacities.replay)];
      SendToPatterns(envelope, found, c);
      accepted := accepted + [envelope];
    }

    /** The state between the duplicate check that found `envelope` new and its delivery. */
    ghost predicate Pending(was: Routing.State, envelope: Envelope)
      reads Repr()
    {
      && |Repr()| == 4 && seen.Valid() && topics.Valid() && patterns.Valid()
      && Inv(was) && !was.seen.Remembers(envelope.id)
      && State() == was.(seen := was.seen.Record(envelope.id))
    }

    /** The duplicate check. The append to a durable log, if there is one, comes before `DeliverNew`. */
    method Record(envelope: Envelope) returns (isNew: bool)
      requires Valid()
      modifies Repr()
      ensures isNew <==> !old(State()).seen.Remembers(envelope.id)
      ensures if isNew then Pending(old(State()), envelope) else Valid() && State() == old(State())
    {
      isNew := seen.Record(envelope.id);
    }

    method DeliverNew(envelope: Envelope, ghost was: Routing.State)
      requires Pending(was, envelope)
      modifies Repr()
      ensures Valid() && State() == Routing.Publish(was, envelope)
    {
      StepKeepsInv(was, Publishing(envelope));
      LiveAreChannels(was);
      PublishFinds(was, envelope);
      Route(envelope);
    }

    method Publish(envelope: Envelope) returns (isNew: bool)
      requires Valid()
      modifies Repr()
      ensures Valid()
      ensures isNew <==> !old(State()).seen.Remembers(envelope.id)
      ensures State() == Routing.Publish(old(State()), envelope)
    {
      ghost var was := State();
      isNew := Record(envelope);
      if isNew { DeliverNew(envelope, was); }
    }

    method SendToPatterns(envelope: Envelope, ghost found: Routing.State, ghost c: ChannelId)
      requires Ready(found, c, envelope.topic)
      requires State() == found.(channels := DeliverTo(found, c, envelope, {}))
      modifies `channels
      ensures State() == found.(channels := Deliver(found, c, envelope))
    {
      var remaining := patterns.channels.Keys;
      ghost var done: set<TopicFilter> := {};
      while remaining != {}
        invariant remaining !! done && remaining + done == found.patterns.channels.Keys
        invariant channels == DeliverTo(found, c, envelope, done)
        invariant State() == found.(channels := channels)
      {
        var f :| f in remaining;
        DeliverToOneMore(found, c, envelope, done, f);
        if Matches(f, envelope.topic) {
          var id := patterns.channels[f];
          channels := channels[id := Send(channels[id], envelope, false, capacities.replay)];
        }
        remaining := remaining - {f};
        done := done + {f};
      }
      assert done == found.patterns.channels.Keys;
      DeliverToAll(found, c, envelope);
    }

    /** Opens a receiver on the filter's channel, creating that if need be, and takes its backlog. */
    method Open(filter: TopicFilter) returns (backlog: seq<Envelope>)
      requires |Repr()| == 4 && topics.Valid() && patterns.Valid() && nextId !in Live(subscriptions)
      requires var (found, c) := Find(State(), filter); Named(found) && c in found.channels
      modifies this, topics, patterns
      ensures topics.Valid() && patterns.Valid()
      ensures State() == Routing.Subscribe(old(State()), filter)
      ensures IsBacklog(old(State()), filter, backlog)
    {
      var c;
      if IsLiteral(filter) {
        c := TopicChannel(filter);
        backlog := Backlog(channels[c]);
      } else {
        c := PatternChannel(filter);
        backlog := PatternBacklog(c, filter);
      }
      subscriptions := subscriptions + [Subscription(filter, c, |channels[c].log|, true)];
    }

    method Subscribe(filter: TopicFilter) returns (backlog: seq<Envelope>, i: nat)
      requires Valid()
      modifies Repr()
      ensures Valid()
      ensures i == |old(subscriptions)| && State() == Routing.Subscribe(old(State()), filter)
      ensures IsBacklog(old(State()), filter, backlog)
    {
      StepKeepsInv(State(), Subscribing(filter));
      LiveAreChannels(State());
      FindFinds(State(), filter);
      i := |subscriptions|;
      backlog := Open(filter);
    }

    /** Merges each matching topic's retained message into the pattern's own backlog, and sorts by id. */
    method PatternBacklog(c: ChannelId, filter: TopicFilter) returns (backlog: seq<Envelope>)
      requires Named(State()) && c in channels
      ensures IsPatternBacklog(State(), c, filter, backlog)
    {
      backlog := Backlog(channels[c]);
      var remaining := topics.channels.Keys;
      ghost var done: set<Topic> := {};
      while remaining != {}
        invariant remaining !! done && remaining + done == topics.channels.Keys
        invariant Merged(State(), c, filter, done, backlog)
      {
        var t :| t in remaining;
        var channel := channels[topics.channels[t]];
        if Matches(filter, t) && channel.retained.Some? && !HasId(backlog, channel.retained.value.id) {
          MergeOne(State(), c, filter, done, backlog, t);
          backlog := backlog + [channel.retained.value];
        }
        remaining := remaining - {t};
        done := done + {t};
      }
      SortSorts(backlog);
      backlog := SortById(backlog);
    }

    /** Refills one topic's replay buffer at startup, keeping the newest. */
    method RehydrateBuffer(topic: Topic, envelopes: seq<Envelope>)
      requires Valid()
      modifies this, topics
      ensures Valid()
      ensures State() == Rehydration.RehydrateBuffer(old(State()), topic, envelopes)
    {
      RehydrateBufferKeepsInv(State(), topic, envelopes);
      LiveAreChannels(State());
      if envelopes != [] {
        Refill(topic, envelopes);
      }
    }

    method Refill(topic: Topic, envelopes: seq<Envelope>)
      requires |Repr()| == 4 && topics.Valid() && nextId !in Live(subscriptions)
      modifies this, topics
      ensures topics.Valid()
      ensures var (found, c) := FindTopic(old(State()), topic);
        State() == WithBegun(found, c, Rehydration.Refill(found.channels[c], envelopes, capacities.replay))
    {
      var c := TopicChannel(topic);
      var log := channels[c].log + envelopes;
      var buffer := KeepNewest(channels[c].buffer + envelopes, capacities.replay);
      channels := channels[c := Channel(log, buffer, channels[c].retained, log, channels[c].retained)];
      born := born[c := |accepted|];
    }

    /** Sets one topic's retained message at startup. */
    method RehydrateRetained(topic: Topic, envelope: Envelope)
      requires Valid()
      modifies this, topics
      ensures Valid()
      ensures State() == Rehydration.RehydrateRetained(old(State()), topic, envelope)
    {
      RehydrateRetainedKeepsInv(State(), topic, envelope);
      LiveAreChannels(State());
      SetRetained(topic, envelope);
    }

    method SetRetained(topic: Topic, envelope: Envelope)
      requires |Repr()| == 4 && topics.Valid() && nextId !in Live(subscriptions)
      modifies this, topics
      ensures topics.Valid()
      ensures State() == Rehydration.RehydrateRetained(old(State()), topic, envelope)
    {
      var c := TopicChannel(topic);
      channels := channels[c := Restore(channels[c], envelope)];
      born := born[c := |accepted|];
    }

    method Unsubscribe(i: nat)
      requires Valid()
      modifies this
      ensures Valid()
      ensures State() == Routing.Unsubscribe(old(State()), i)
    {
      StepKeepsInv(State(), Dropping(i));
      if i < |subscriptions| {
        subscriptions := subscriptions[i := subscriptions[i].(alive := false)];
      }
    }
  }

  method KeepNewest(envelopes: seq<Envelope>, capacity: nat) returns (kept: seq<Envelope>)
    ensures kept == Last(envelopes, capacity)
  {
    kept := envelopes;
    while |kept| > capacity
      invariant kept == Last(envelopes, if |kept| > capacity then |kept| else capacity)
    {
      kept := kept[1..];
    }
  }

  /** A merged backlog before sorting: the channel's, and the retained messages of the topics in `done`. */
  ghost predicate Merged(s: State, c: ChannelId, filter: TopicFilter, done: set<Topic>, backlog: seq<Envelope>)
    requires Named(s) && c in s.channels
  {
    && (forall e :: e in Backlog(s.channels[c]) ==> e in backlog)
    && (forall e :: e in backlog ==> e in Backlog(s.channels[c]) || IsRetained(s, filter, e))
    && (forall t :: t in done && t in s.topics.channels ==>
       Represented(s.channels[s.topics.channels[t]], filter, t, backlog))
    && (UniqueIds(Backlog(s.channels[c])) ==> UniqueIds(backlog))
  }

  predicate Represented(channel: Channel, filter: TopicFilter, topic: Topic, backlog: seq<Envelope>) {
    Matches(filter, topic) && channel.retained.Some? ==> HasId(backlog, channel.retained.value.id)
  }

  lemma RepresentedGrows(channel: Channel, filter: TopicFilter, topic: Topic, backlog: seq<Envelope>, e: Envelope)
    requires Represented(channel, filter, topic, backlog)
    ensures Represented(channel, filter, topic, backlog + [e])
  {
    if Matches(filter, topic) && channel.retained.Some? {
      var i :| 0 <= i < |backlog| && backlog[i].id == channel.retained.value.id;
      assert (backlog + [e])[i].id == channel.retained.value.id;
    }
  }

  /** `e` is the retained message of some exact topic that `filter` matches. */
  ghost predicate IsRetained(s: State, filter: TopicFilter, e: Envelope)
    requires Named(s)
  {
    exists t :: t in s.topics.channels && Matches(filter, t) && s.channels[s.topics.channels[t]].retained == Some(e)
  }

  /**
   * The backlog of a wildcard subscription: sorted by id, nothing lost from the pattern's own buffer,
   * every matching topic's retained message represented, nothing else, and no new repeats of an id.
   */
  ghost predicate IsPatternBacklog(s: State, c: ChannelId, filter: TopicFilter, backlog: seq<Envelope>)
    requires Named(s) && c in s.channels
  {
    && SortedById(backlog)
    && exists merged ::
      Merged(s, c, filter, s.topics.channels.Keys, merged) && multiset(backlog) == multiset(merged)
  }

  /** What a subscription opened in state `s` has to be given first. */
  ghost predicate IsBacklog(s: State, filter: TopicFilter, backlog: seq<Envelope>) {
    var (found, c) := Find(s, filter);
    if IsLiteral(filter) then backlog == Backlog(found.channels[c])
    else Named(found) && IsPatternBacklog(found, c, filter, backlog)
  }

  lemma MergeOne(s: State, c: ChannelId, filter: TopicFilter, done: set<Topic>, backlog: seq<Envelope>, t: Topic)
    requires Named(s) && c in s.channels && Merged(s, c, filter, done, backlog)
    requires t in s.topics.channels && Matches(filter, t)
    requires s.channels[s.topics.channels[t]].retained.Some?
    requires !HasId(backlog, s.channels[s.topics.channels[t]].retained.value.id)
    ensures Merged(s, c, filter, done + {t}, backlog + [s.channels[s.topics.channels[t]].retained.value])
  {
    var e := s.channels[s.topics.channels[t]].retained.value;
    assert (backlog + [e])[|backlog|] == e;
    forall u | u in done + {t} && u in s.topics.channels
      ensures Represented(s.channels[s.topics.channels[u]], filter, u, backlog + [e])
    {
      if u != t { RepresentedGrows(s.channels[s.topics.channels[u]], filter, u, backlog, e); }
    }
  }
}
