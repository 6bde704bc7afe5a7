/**
 * The node's interest counts against the forwarders its connections hold. What a handler does between
 * two awaits is one step: subscribing counts at once, unsubscribing takes the forwarder away, then
 * sends its ack, and only then counts down. A reload's sweep and a shutdown stop forwarders too.
 */
module InterestCounts {
  import opened Common
  import opened Interest
  import opened AclReload

  type Held = map<ConnectionId, set<TopicFilter>>

  /**
   * `parked` are the connections whose Unsubscribe is at its ack. `leaked` remembers, which the program
   * does not, the Unsubscribes whose ack could not be sent.
   */
  datatype Tally = Tally(held: Held, parked: map<ConnectionId, TopicFilter>, leaked: multiset<TopicFilter>,
    counts: Counts)

  datatype Event =
    | Subscribed(c: ConnectionId, filter: TopicFilter)
    | Unsubscribed(c: ConnectionId, filter: TopicFilter)
    | AckDone(c: ConnectionId, sent: bool)
    | Stopped(c: ConnectionId, filter: TopicFilter)

  predicate Holds(held: Held, c: ConnectionId, filter: TopicFilter) {
    c in held && filter in held[c]
  }

  function HeldBy(held: Held, c: ConnectionId): set<TopicFilter> {
    if c in held then held[c] else {}
  }

  function Happen(t: Tally, event: Event): Tally {
    match event
    case Subscribed(c, f) =>
      if c in t.parked || Holds(t.held, c, f) then t
      else t.(held := t.held[c := HeldBy(t.held, c) + {f}], counts := Gain(t.counts, f).0)
    case Unsubscribed(c, f) =>
      if c in t.parked || !Holds(t.held, c, f) then t
      else t.(held := t.held[c := t.held[c] - {f}], parked := t.parked[c := f])
    case AckDone(c, sent) =>
      if c !in t.parked then t
      else if sent then t.(parked := t.parked - {c}, counts := Lose(t.counts, t.parked[c]).0)
      else t.(parked := t.parked - {c}, leaked := t.leaked + multiset{t.parked[c]})
    case Stopped(c, f) =>
      if !Holds(t.held, c, f) then t
      else t.(held := t.held[c := t.held[c] - {f}], counts := Lose(t.counts, f).0)
  }

  function Execute(t: Tally, run: seq<Event>): Tally
    decreases |run|
  {
    if run == [] then t else Execute(Happen(t, run[0]), run[1..])
  }

  const EMPTY_TALLY := Tally(map[], map[], multiset{}, map[])

  // --------------------------------------------------------------- invariant

  function Holders(held: Held, filter: TopicFilter): set<ConnectionId> {
    set c | c in held && filter in held[c]
  }

  function ParkedOn(parked: map<ConnectionId, TopicFilter>, filter: TopicFilter): set<ConnectionId> {
    set c | c in parked && parked[c] == filter
  }

  /** One count for every holder, every Unsubscribe still at its ack, and every one whose ack failed. */
  predicate Exact(t: Tally, filter: TopicFilter) {
    Count(t.counts, filter) == |Holders(t.held, filter)| + |ParkedOn(t.parked, filter)| + t.leaked[filter]
  }

  ghost predicate Balanced(t: Tally) {
    Positive(t.counts) && forall f :: Exact(t, f)
  }

  lemma SizeWith<T>(bigger: set<T>, smaller: set<T>, x: T)
    requires x !in smaller && bigger == smaller + {x}
    ensures |bigger| == |smaller| + 1
  {
  }

  lemma HoldersGain(held: Held, c: ConnectionId, f: TopicFilter, g: TopicFilter)
    requires !Holds(held, c, f)
    ensures var after := held[c := HeldBy(held, c) + {f}];
      |Holders(after, g)| == |Holders(held, g)| + if g == f then 1 else 0
  {
    var after := held[c := HeldBy(held, c) + {f}];
    if g == f {
      forall x
        ensures x in Holders(after, f) <==> x in Holders(held, f) + {c}
      {
      }
      SizeWith(Holders(after, f), Holders(held, f), c);
    } else {
      assert Holders(after, g) == Holders(held, g);
    }
  }

  lemma HoldersLose(held: Held, c: ConnectionId, f: TopicFilter, g: TopicFilter)
    requires Holds(held, c, f)
    ensures var after := held[c := held[c] - {f}];
      |Holders(held, g)| == |Holders(after, g)| + if g == f then 1 else 0
  {
    var after := held[c := held[c] - {f}];
    if g == f {
      forall x
        ensures x in Holders(held, f) <==> x in Holders(after, f) + {c}
      {
      }
      SizeWith(Holders(held, f), Holders(after, f), c);
    } else {
      assert Holders(after, g) == Holders(held, g);
    }
  }

  lemma ParkedGain(parked: map<ConnectionId, TopicFilter>, c: ConnectionId, f: TopicFilter, g: TopicFilter)
    requires c !in parked
    ensures |ParkedOn(parked[c := f], g)| == |ParkedOn(parked, g)| + if g == f then 1 else 0
  {
    if g == f {
      assert ParkedOn(parked[c := f], g) == ParkedOn(parked, g) + {c};
    } else {
      assert ParkedOn(parked[c := f], g) == ParkedOn(parked, g);
    }
  }

  lemma ParkedLose(parked: map<ConnectionId, TopicFilter>, c: ConnectionId, g: TopicFilter)
    requires c in parked
    ensures |ParkedOn(parked, g)| == |ParkedOn(parked - {c}, g)| + if g == parked[c] then 1 else 0
  {
    if g == parked[c] {
      assert ParkedOn(parked, g) == ParkedOn(parked - {c}, g) + {c};
    } else {
      assert ParkedOn(parked, g) == ParkedOn(parked - {c}, g);
    }
  }

  /** The counts themselves, one up or one down. */
  lemma CountChanges(counts: Counts, f: TopicFilter, g: TopicFilter)
    requires Positive(counts)
    ensures Positive(Gain(counts, f).0) && Positive(Lose(counts, f).0)
    ensures Count(Gain(counts, f).0, g) == Count(counts, g) + if g == f then 1 else 0
    ensures Count(counts, f) > 0 ==> Count(Lose(counts, f).0, g) == Count(counts, g) - if g == f then 1 else 0
  {
  }

  lemma HappenKeepsExact(t: Tally, event: Event, g: TopicFilter)
    requires Balanced(t)
    ensures Positive(Happen(t, event).counts) && Exact(Happen(t, event), g)
  {
    assert Exact(t, g);
    match event
    case Subscribed(c, f) =>
      if !Holds(t.held, c, f) {
        HoldersGain(t.held, c, f, g);
        CountChanges(t.counts, f, g);
      }
    case Unsubscribed(c, f) =>
      if c !in t.parked && Holds(t.held, c, f) {
        HoldersLose(t.held, c, f, g);
        ParkedGain(t.parked, c, f, g);
      }
    case AckDone(c, sent) =>
      if c in t.parked { AckKeepsExact(t, c, sent, g); }
    case Stopped(c, f) =>
      if Holds(t.held, c, f) {
        assert Exact(t, f);
        assert c in Holders(t.held, f);
        HoldersLose(t.held, c, f, g);
        CountChanges(t.counts, f, g);
      }
  }

  lemma AckKeepsExact(t: Tally, c: ConnectionId, sent: bool, g: TopicFilter)
    requires Balanced(t) && c in t.parked
    ensures Positive(Happen(t, AckDone(c, sent)).counts) && Exact(Happen(t, AckDone(c, sent)), g)
  {
    assert Exact(t, t.parked[c]) && Exact(t, g);
    assert c in ParkedOn(t.parked, t.parked[c]);
    ParkedLose(t.parked, c, g);
    CountChanges(t.counts, t.parked[c], g);
  }

  lemma HappenKeepsBalanced(t: Tally, event: Event)
    requires Balanced(t)
    ensures Balanced(Happen(t, event))
  {
    forall g
      ensures Positive(Happen(t, event).counts) && Exact(Happen(t, event), g)
    {
      HappenKeepsExact(t, event, g);
    }
  }

  lemma {:induction false} RunKeepsBalanced(t: Tally, run: seq<Event>)
    requires Balanced(t)
    ensures Balanced(Execute(t, run))
    decreases |run|
  {
    if run != [] {
      HappenKeepsBalanced(t, run[0]);
      RunKeepsBalanced(Happen(t, run[0]), run[1..]);
    }
  }

  lemma EmptyIsBalanced()
    ensures Balanced(EMPTY_TALLY)
  {
    forall f
      ensures Exact(EMPTY_TALLY, f)
    {
      assert Holders(map[], f) == {} && ParkedOn(map[], f) == {};
    }
  }

  lemma {:induction false} NothingLeaks(t: Tally, run: seq<Event>)
    requires forall i :: 0 <= i < |run| && run[i].AckDone? ==> run[i].sent
    ensures Execute(t, run).leaked == t.leaked
    decreases |run|
  {
    if run != [] { NothingLeaks(Happen(t, run[0]), run[1..]); }
  }

  /**
   * In every run, whatever is subscribed, unsubscribed, swept and shut down: a filter's count is the
   * number of connections holding it, plus the Unsubscribes parked at their ack, plus those whose ack
   * failed; and the last are none when every ack is sent.
   */
  lemma {:induction false} CountsAreExact(run: seq<Event>, filter: TopicFilter)
    ensures var t := Execute(EMPTY_TALLY, run);
      && Count(t.counts, filter) == |Holders(t.held, filter)| + |ParkedOn(t.parked, filter)| + t.leaked[filter]
      && ((forall i :: 0 <= i < |run| && run[i].AckDone? ==> run[i].sent) ==> t.leaked == multiset{})
  {
    EmptyIsBalanced();
    RunKeepsBalanced(EMPTY_TALLY, run);
    assert Exact(Execute(EMPTY_TALLY, run), filter);
    if forall i :: 0 <= i < |run| && run[i].AckDone? ==> run[i].sent { NothingLeaks(EMPTY_TALLY, run); }
  }

  /** Once every connection has let go, the node is interested in exactly the filters whose ack failed. */
  lemma {:induction false} OnlyLeaksRemain(run: seq<Event>, filter: TopicFilter)
    ensures var t := Execute(EMPTY_TALLY, run);
      t.parked == map[] && (forall c :: c in t.held ==> t.held[c] == {}) ==>
        (filter in t.counts <==> filter in t.leaked)
  {
    CountsAreExact(run, filter);
    EmptyIsBalanced();
    RunKeepsBalanced(EMPTY_TALLY, run);
    var t := Execute(EMPTY_TALLY, run);
    if t.parked == map[] && (forall c :: c in t.held ==> t.held[c] == {}) {
      assert Holders(t.held, filter) == {} && ParkedOn(t.parked, filter) == {};
    }
  }

  /** And there can be such: a connection that subscribes, and whose unsubscribe cannot be acknowledged. */
  lemma FailedAckLeaks(c: ConnectionId, filter: TopicFilter)
    ensures var t := Execute(EMPTY_TALLY, [Subscribed(c, filter), Unsubscribed(c, filter), AckDone(c, false)]);
      t.held == map[c := {}] && t.parked == map[] && t.counts == map[filter := 1]
  {
    var t1 := Happen(EMPTY_TALLY, Subscribed(c, filter));
    assert {} + {filter} == {filter};
    assert t1 == Tally(map[c := {filter}], map[], multiset{}, map[filter := 1]);
    var t2 := Happen(t1, Unsubscribed(c, filter));
    assert {filter} - {filter} == {};
    assert t2 == Tally(map[c := {}], map[c := filter], multiset{}, map[filter := 1]);
    var run := [Subscribed(c, filter), Unsubscribed(c, filter), AckDone(c, false)];
    assert run[1..] == [Unsubscribed(c, filter), AckDone(c, false)] && run[1..][1..] == [AckDone(c, false)];
    assert run[1..][1..][1..] == [];
    assert Execute(EMPTY_TALLY, run) == Execute(t1, run[1..]) == Execute(t2, run[1..][1..]);
    assert Execute(t2, [AckDone(c, false)]) == Execute(Happen(t2, AckDone(c, false)), []);
  }

  // ---------------------------------------------------------------- handlers

  /** A value that can be replaced while others hold on to the place it is read from. */
  class Reloadable<T> {
    var current: Option<T>

    constructor (initial: Option<T>)
      ensures current == initial
    {
      current := initial;
    }

    method Get() returns (value: Option<T>)
      ensures value == current
    {
      value := current;
    }

    method Set(value: Option<T>)
      modifies this
      ensures current == value
    {
      current := value;
    }
  }

  /** Who a connection is: its identity, and whether it is a peer link. */
  datatype Party = Party(principal: Principal, isPeer: bool)

  class Handlers {
    const topicAcl: Reloadable<set<(Principal, Topic)>>
    const peerTopicAcl: Reloadable<set<(Principal, Topic)>>
    const interest: Interest
    var parties: map<ConnectionId, Party>
    var held: Held
    var parked: map<ConnectionId, TopicFilter>
    ghost var leaked: multiset<TopicFilter>

    constructor (topicAcl: Acl, peerTopicAcl: Acl)
      ensures Valid() && State() == EMPTY_TALLY && parties == map[]
      ensures Slots() == AclReload.Slots(topicAcl, peerTopicAcl)
      ensures fresh(interest) && fresh(this.topicAcl) && fresh(this.peerTopicAcl)
    {
      this.topicAcl := new Reloadable(topicAcl);
      this.peerTopicAcl := new Reloadable(peerTopicAcl);
      interest := new Interest();
      parties, held, parked, leaked := map[], map[], map[], multiset{};
      new;
      EmptyIsBalanced();
    }

    ghost function State(): Tally
      reads this, interest
    {
      Tally(held, parked, leaked, interest.counts)
    }

    ghost predicate Valid()
      reads this, interest
    {
      Balanced(State()) && held.Keys <= parties.Keys && topicAcl != peerTopicAcl
    }

    ghost function Slots(): AclReload.Slots
      reads topicAcl, peerTopicAcl
    {
      AclReload.Slots(topicAcl.current, peerTopicAcl.current)
    }

    /** What of a connection's forwarders the ACLs in force permit. */
    ghost function Permitted(c: ConnectionId, filters: set<TopicFilter>): set<TopicFilter>
      requires c in parties
      reads this, topicAcl, peerTopicAcl
    {
      set f | f in filters && Permits(Slots(), parties[c].isPeer, parties[c].principal, f)
    }

    /** Refused, or held and counted; a filter held already is acked again and not counted. */
    method Subscribe(c: ConnectionId, filter: TopicFilter) returns (accepted: bool, announce: bool)
      requires Valid() && c in parties && c !in parked
      modifies this`held, interest
      ensures Valid()
      ensures accepted <==> Permits(Slots(), parties[c].isPeer, parties[c].principal, filter)
      ensures State() == if accepted then Happen(old(State()), Subscribed(c, filter)) else old(State())
      ensures held == if accepted then old(held)[c := HeldBy(old(held), c) + {filter}] else old(held)
      ensures announce <==> accepted && filter !in old(interest.counts)
    {
      var topic := topicAcl.Get();
      var peer := peerTopicAcl.Get();
      accepted := Permits(AclReload.Slots(topic, peer), parties[c].isPeer, parties[c].principal, filter);
      announce := false;
      if accepted && !Holds(held, c, filter) {
        HappenKeepsBalanced(State(), Subscribed(c, filter));
        held := held[c := HeldBy(held, c) + {filter}];
        announce := interest.Subscribe(filter);
      } else if accepted {
        assert Exact(State(), filter);
        assert c in Holders(held, filter);
        assert held[c] + {filter} == held[c];
      }
    }

    /** The part before the ack: the forwarder goes, the count does not change yet. */
    method Unsubscribe(c: ConnectionId, filter: TopicFilter)
      requires Valid() && c !in parked
      modifies this`held, this`parked
      ensures Valid()
      ensures State() == Happen(old(State()), Unsubscribed(c, filter))
      ensures !Holds(held, c, filter)
      ensures parked == if Holds(old(held), c, filter) then old(parked)[c := filter] else old(parked)
    {
      HappenKeepsBalanced(State(), Unsubscribed(c, filter));
      if Holds(held, c, filter) {
        held := held[c := held[c] - {filter}];
        parked := parked[c := filter];
      }
    }

    /** The part after it: counted down only if the ack could be sent. */
    method AfterAck(c: ConnectionId, sent: bool) returns (announce: bool)
      requires Valid() && c in parked
      modifies this`parked, this`leaked, interest
      ensures Valid()
      ensures State() == Happen(old(State()), AckDone(c, sent))
      ensures parked == old(parked) - {c} && held == old(held)
      ensures announce <==> sent && old(parked)[c] !in interest.counts
    {
      HappenKeepsBalanced(State(), AckDone(c, sent));
      var filter := parked[c];
      assert Exact(State(), filter) && c in ParkedOn(parked, filter);
      parked := parked - {c};
      announce := false;
      if sent {
        announce := interest.Unsubscribe(filter);
      } else {
        leaked := leaked + multiset{filter};
      }
    }

    /** Stops one forwarder and counts it down. */
    method Stop(c: ConnectionId, filter: TopicFilter) returns (announce: bool)
      requires Valid() && Holds(held, c, filter)
      modifies this`held, interest
      ensures Valid()
      ensures State() == Happen(old(State()), Stopped(c, filter))
    {
      HappenKeepsBalanced(State(), Stopped(c, filter));
      held := held[c := held[c] - {filter}];
      announce := interest.Unsubscribe(filter);
    }

    /** Stops all of `filters` that a connection holds. */
    method StopAll(c: ConnectionId, filters: set<TopicFilter>)
      requires Valid() && c in held && filters <= held[c]
      modifies this`held, interest
      ensures Valid() && held == old(held)[c := old(held)[c] - filters]
    {
      var remaining := filters;
      assert held[c] - {} == held[c] && held == held[c := held[c]];
      assert filters - filters == {};
      while remaining != {}
        invariant Valid() && remaining <= filters
        invariant held == old(held)[c := old(held)[c] - (filters - remaining)]
      {
        var f :| f in remaining;
        assert old(held)[c] - (filters - remaining) - {f} == old(held)[c] - (filters - (remaining - {f}));
        var _ := Stop(c, f);
        remaining := remaining - {f};
      }
      assert filters - {} == filters;
    }

    /** The end of a connection: everything it holds is stopped. */
    method ShutDown(c: ConnectionId)
      requires Valid()
      modifies this`held, interest
      ensures Valid()
      ensures held == if c in old(held) then old(held)[c := {}] else old(held)
    {
      if c in held {
        assert held[c] - held[c] == {};
        StopAll(c, held[c]);
      }
    }

    /** The sweep after a reload: of every connection's forwarders, exactly the permitted ones stay. */
    method Reconcile()
      requires Valid()
      modifies this`held, interest
      ensures Valid()
      ensures held.Keys == old(held).Keys
      ensures forall c :: c in held ==> held[c] == Permitted(c, old(held)[c])
    {
      var topic := topicAcl.Get();
      var peer := peerTopicAcl.Get();
      var remaining := held.Keys;
      while remaining != {}
        invariant Valid() && remaining <= held.Keys == old(held).Keys
        invariant forall c :: c in held ==>
          held[c] == if c in remaining then old(held)[c] else Permitted(c, old(held)[c])
      {
        var c :| c in remaining;
        var denied := set f | f in held[c]
          && !Permits(AclReload.Slots(topic, peer), parties[c].isPeer, parties[c].principal, f);
        assert held[c] - denied == Permitted(c, old(held)[c]);
        StopAll(c, denied);
        remaining := remaining - {c};
      }
    }

    /** One reload: both slots first, then the sweep, so that nothing held is denied by what is in force. */
    method ApplyReload(topic: Acl, peerTopic: Acl)
      requires Valid()
      modifies topicAcl, peerTopicAcl, this`held, interest
      ensures Valid()
      ensures Slots() == AclReload.Slots(topic, peerTopic)
      ensures held.Keys == old(held).Keys
      ensures forall c :: c in held ==> held[c] == Permitted(c, old(held)[c])
    {
      topicAcl.Set(topic);
      peerTopicAcl.Set(peerTopic);
      Reconcile();
    }
  }
}
