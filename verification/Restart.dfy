/**
 * A node with a durable log. Every new publish is appended to the log and then goes through the
 * broker; a restart forgets the broker and fills a new one from the log.
 */
module Restart {
  import opened Common
  import opened Sequences
  import opened TopicFilters
  import opened Channels
  import opened TopicMaps
  import opened Routing
  import opened Rehydration
  import opened Store
  import opened Broker

  datatype Node = Node(limits: Limits, tables: Tables, broker: State)

  datatype Step = Do(operation: Operation) | Restarting(groups: seq<Group>, retained: seq<(Topic, Envelope)>)

  /** What loading the retained messages has to return: every one, once, in whatever order. */
  ghost predicate IsAllRetained(tables: Tables, retained: seq<(Topic, Envelope)>) {
    && (forall i :: 0 <= i < |retained| ==>
       retained[i].0 in tables.retained && tables.retained[retained[i].0] == retained[i].1)
    && TopicsDiffer(retained)
    && (forall t :: t in tables.retained ==> exists i :: 0 <= i < |retained| && retained[i].0 == t)
  }

  /** Opening the log prunes it once. */
  function Reopened(node: Node): Tables {
    Prune(node.tables, node.limits.keep).(sincePrune := 0)
  }

  ghost predicate Enabled(node: Node, step: Step) {
    match step
    case Do(_) => true
    case Restarting(groups, retained) =>
      IsRecent(Reopened(node).rows, node.broker.capacities.replay, groups) && IsAllRetained(Reopened(node), retained)
  }

  ghost function Next(node: Node, step: Step): Node {
    if !Enabled(node, step) then node
    else match step
      case Do(Publishing(envelope)) =>
        if node.broker.seen.Remembers(envelope.id) then node
        else node.(tables := Appended(node.tables, node.limits, envelope),
          broker := Routing.Publish(node.broker, envelope))
      case Do(operation) => node.(broker := Routing.Next(node.broker, operation))
      case Restarting(groups, retained) =>
        node.(tables := Reopened(node), broker := Restored(node.broker.capacities, groups, retained))
  }

  ghost function Execute(node: Node, run: seq<Step>): Node
    decreases |run|
  {
    if run == [] then node else Execute(Next(node, run[0]), run[1..])
  }

  function NewNode(limits: Limits, capacities: Capacities): Node {
    Node(limits, EMPTY_TABLES, Initial(capacities))
  }

  /** The run publishes and subscribes to topics of `universe` only; wildcard subscriptions are unlimited. */
  predicate Within(step: Step, universe: set<Topic>) {
    match step
    case Do(Publishing(envelope)) => envelope.topic in universe
    case Do(Subscribing(filter)) => IsLiteral(filter) ==> filter in universe
    case _ => true
  }

  // --------------------------------------------------------------- invariant

  /** Memory and log agree: each topic's buffer is its newest rows, its retained message the stored one. */
  ghost predicate Mirrors(broker: State, tables: Tables) {
    && (forall t :: BufferFor(broker, t) == Last(RowsOf(tables.rows, t), broker.capacities.replay))
    && (forall t :: RetainedIn(broker, t) == RetainedFor(tables, t))
  }

  ghost predicate Recoverable(node: Node, universe: set<Topic>) {
    && node.limits.keep >= node.broker.capacities.replay
    && Roomy(node.broker, universe)
    && Topics(node.tables.rows) <= universe && node.tables.retained.Keys <= universe
    && Mirrors(node.broker, node.tables)
  }

  /** Pruning deletes nothing a restart would load. */
  lemma PruneIsUnnoticed(tables: Tables, keep: nat, capacity: nat, universe: set<Topic>)
    requires keep >= capacity && Topics(tables.rows) <= universe
    ensures Topics(Prune(tables, keep).rows) <= universe
    ensures forall t :: Last(RowsOf(Prune(tables, keep).rows, t), capacity) == Last(RowsOf(tables.rows, t), capacity)
  {
    PruneOnlyDeletes(tables.rows, keep);
    forall t
      ensures Last(RowsOf(Prune(tables, keep).rows, t), capacity) == Last(RowsOf(tables.rows, t), capacity)
    {
      PruneKeepsNewest(tables.rows, keep, t);
      LastLast(RowsOf(tables.rows, t), capacity, keep);
    }
  }

  /** One topic's buffer, and its retained message, after `envelope` was published. */
  function BufferAfter(buffer: seq<Envelope>, topic: Topic, envelope: Envelope, capacity: nat): seq<Envelope> {
    if topic == envelope.topic then Last(buffer + [envelope], capacity) else buffer
  }

  function RetainedNow(retained: Option<Envelope>, topic: Topic, envelope: Envelope): Option<Envelope> {
    if topic == envelope.topic then RetainedAfter(retained, envelope, envelope.retain) else retained
  }

  lemma AppendedRows(tables: Tables, limits: Limits, envelope: Envelope, capacity: nat, universe: set<Topic>)
    requires limits.keep >= capacity && Topics(tables.rows) <= universe && envelope.topic in universe
    ensures var after := Appended(tables, limits, envelope);
      && Topics(after.rows) <= universe
      && forall t ::
        Last(RowsOf(after.rows, t), capacity) ==
        BufferAfter(Last(RowsOf(tables.rows, t), capacity), t, envelope, capacity)
  {
    var grown := tables.(rows := tables.rows + [envelope]);
    PruneIsUnnoticed(grown, limits.keep, capacity, universe);
    forall t
      ensures Last(RowsOf(grown.rows, t), capacity) ==
        BufferAfter(Last(RowsOf(tables.rows, t), capacity), t, envelope, capacity)
    {
      RowsOfAppend(tables.rows, envelope, t);
      LastAppend(RowsOf(tables.rows, t), envelope, capacity);
      assert RowsOf(tables.rows, t) + [] == RowsOf(tables.rows, t);
    }
  }

  /** A publish on a roomy broker changes the memory of its own topic alone, whatever patterns match. */
  lemma PublishRemembers(s: State, envelope: Envelope, universe: set<Topic>)
    requires Roomy(s, universe) && envelope.topic in universe && !s.seen.Remembers(envelope.id)
    ensures var after := Routing.Publish(s, envelope);
      && Roomy(after, universe) && after.capacities == s.capacities
      && (forall t :: BufferFor(after, t) == BufferAfter(BufferFor(s, t), t, envelope, s.capacities.replay))
      && (forall t :: RetainedIn(after, t) == RetainedNow(RetainedIn(s, t), t, envelope))
  {
    var before := s.(seen := s.seen.Record(envelope.id));
    forall i | 0 <= i < |before.subscriptions|
      ensures SubscriptionOk(before, before.subscriptions[i])
    {
      assert SubscriptionOk(s, s.subscriptions[i]);
    }
    FindTopicRemembers(before, envelope.topic, universe);
    var (found, c) := FindTopic(before, envelope.topic);
    assert SameMemory(s, before);
    DeliverRemembers(found, c, envelope, universe);
  }

  lemma DeliverKeepsRoomy(found: State, c: ChannelId, envelope: Envelope, universe: set<Topic>)
    requires Roomy(found, universe) && Ready(found, c, envelope.topic)
    ensures Roomy(Delivered(found, c, envelope), universe)
  {
    var after := Delivered(found, c, envelope);
    forall i | 0 <= i < |after.subscriptions|
      ensures SubscriptionOk(after, after.subscriptions[i])
    {
      assert SubscriptionOk(found, found.subscriptions[i]);
    }
  }

  lemma DeliverRemembers(found: State, c: ChannelId, envelope: Envelope, universe: set<Topic>)
    requires Roomy(found, universe) && Leads(found, envelope.topic, c) && Ready(found, c, envelope.topic)
    ensures var after := Delivered(found, c, envelope);
      && Roomy(after, universe) && after.capacities == found.capacities
      && (forall t :: BufferFor(after, t) == BufferAfter(BufferFor(found, t), t, envelope, found.capacities.replay))
      && (forall t :: RetainedIn(after, t) == RetainedNow(RetainedIn(found, t), t, envelope))
  {
    var after := Delivered(found, c, envelope);
    DeliverKeepsRoomy(found, c, envelope, universe);
    forall t | t != envelope.topic
      ensures BufferFor(after, t) == BufferFor(found, t) && RetainedIn(after, t) == RetainedIn(found, t)
    {
      if t in found.topics.channels {
        var id := found.topics.channels[t];
        WhoIsSent(found, c, envelope, id);
        assert Attached(found, id) && found.names[id] == Exactly(t);
      }
    }
  }

  lemma AppendedRetained(tables: Tables, limits: Limits, envelope: Envelope, topic: Topic)
    ensures RetainedFor(Appended(tables, limits, envelope), topic) ==
      RetainedNow(RetainedFor(tables, topic), topic, envelope)
    ensures Appended(tables, limits, envelope).retained.Keys <= tables.retained.Keys + {envelope.topic}
  {
  }

  /** Publishing does the same to the log and to memory. */
  lemma PublishMirrors(s: State, tables: Tables, after: State, tables': Tables, envelope: Envelope)
    requires Mirrors(s, tables) && after.capacities == s.capacities
    requires forall t :: BufferFor(after, t) == BufferAfter(BufferFor(s, t), t, envelope, s.capacities.replay)
    requires forall t :: RetainedIn(after, t) == RetainedNow(RetainedIn(s, t), t, envelope)
    requires forall t :: Last(RowsOf(tables'.rows, t), s.capacities.replay) ==
               BufferAfter(Last(RowsOf(tables.rows, t), s.capacities.replay), t, envelope, s.capacities.replay)
    requires forall t :: RetainedFor(tables', t) == RetainedNow(RetainedFor(tables, t), t, envelope)
    ensures Mirrors(after, tables')
  {
    forall t
      ensures BufferFor(after, t) == Last(RowsOf(tables'.rows, t), s.capacities.replay)
    {
      assert BufferFor(s, t) == Last(RowsOf(tables.rows, t), s.capacities.replay);
    }
  }

  lemma PublishKeeps(node: Node, envelope: Envelope, universe: set<Topic>)
    requires Recoverable(node, universe) && envelope.topic in universe
    ensures Recoverable(Next(node, Do(Publishing(envelope))), universe)
  {
    if !node.broker.seen.Remembers(envelope.id) {
      PublishRemembers(node.broker, envelope, universe);
      AppendedRows(node.tables, node.limits, envelope, node.broker.capacities.replay, universe);
      var after := Next(node, Do(Publishing(envelope)));
      forall t
        ensures RetainedFor(after.tables, t) == RetainedNow(RetainedFor(node.tables, t), t, envelope)
      {
        AppendedRetained(node.tables, node.limits, envelope, t);
      }
      AppendedRetained(node.tables, node.limits, envelope, envelope.topic);
      PublishMirrors(node.broker, node.tables, after.broker, after.tables, envelope);
    }
  }

  lemma FindRemembers(s: State, filter: TopicFilter, universe: set<Topic>)
    requires Roomy(s, universe) && (IsLiteral(filter) ==> filter in universe)
    ensures var (found, c) := Find(s, filter);
      && Roomy(found, universe) && SameMemory(s, found)
      && found.capacities == s.capacities && found.subscriptions == s.subscriptions
      && c in found.channels && c in found.names && found.names[c] == NameOf(filter)
  {
    if IsLiteral(filter) {
      FindTopicRemembers(s, filter, universe);
    } else {
      FindPatternRemembers(s, filter, universe);
    }
  }

  lemma FindPatternRemembers(s: State, filter: TopicFilter, universe: set<Topic>)
    requires Roomy(s, universe) && !IsLiteral(filter)
    ensures var (found, c) := FindPattern(s, filter);
      && Roomy(found, universe) && SameMemory(s, found)
      && found.capacities == s.capacities && found.subscriptions == s.subscriptions
      && c in found.channels && c in found.names && found.names[c] == Pattern(filter)
  {
    var (found, c) := FindPattern(s, filter);
    FindFinds(s, filter);
    FoundKeepsSubscribed(s, found, c, Pattern(filter));
    OtherTopicsRemembered(s, found, c, filter);
  }

  lemma OtherTopicsRemembered(s: State, found: State, c: ChannelId, filter: TopicFilter)
    requires Named(s) && Named(found) && Grown(s, found, c, Pattern(filter)) && found.topics == s.topics
    ensures SameMemory(s, found)
  {
  }

  lemma SubscribeKeepsMemory(s: State, filter: TopicFilter, universe: set<Topic>)
    requires Roomy(s, universe) && (IsLiteral(filter) ==> filter in universe)
    ensures Roomy(Routing.Subscribe(s, filter), universe) && SameMemory(s, Routing.Subscribe(s, filter))
    ensures Routing.Subscribe(s, filter).capacities == s.capacities
  {
    var (found, c) := Find(s, filter);
    FindRemembers(s, filter, universe);
    SubscriptionsKeepMemory(found, found.subscriptions + [Subscription(filter, c, |found.channels[c].log|, true)],
      universe);
  }

  lemma SubscriptionsKeepMemory(s: State, subscriptions: seq<Subscription>, universe: set<Topic>)
    requires Roomy(s, universe)
    requires forall i :: 0 <= i < |subscriptions| ==> SubscriptionOk(s, subscriptions[i])
    ensures var t := s.(subscriptions := subscriptions); Roomy(t, universe) && SameMemory(s, t)
  {
    var t := s.(subscriptions := subscriptions);
    forall i | 0 <= i < |subscriptions|
      ensures SubscriptionOk(t, t.subscriptions[i])
    {
      assert SubscriptionOk(s, subscriptions[i]);
    }
  }

  lemma DropKeepsMemory(s: State, i: nat, universe: set<Topic>)
    requires Roomy(s, universe)
    ensures Roomy(Routing.Unsubscribe(s, i), universe) && SameMemory(s, Routing.Unsubscribe(s, i))
  {
    if i < |s.subscriptions| {
      var dropped := s.subscriptions[i := s.subscriptions[i].(alive := false)];
      forall j | 0 <= j < |dropped|
        ensures SubscriptionOk(s, dropped[j])
      {
        assert SubscriptionOk(s, s.subscriptions[j]);
      }
      SubscriptionsKeepMemory(s, dropped, universe);
    }
  }

  lemma {:induction false} RecentIsLast(rows: seq<Envelope>, k: nat, groups: seq<Group>, topic: Topic)
    requires IsRecent(rows, k, groups)
    ensures OrEmpty(ValueFor(groups, topic)) == Last(RowsOf(rows, topic), k)
  {
    ValueForIs(groups, topic);
    if ValueFor(groups, topic) == None && k > 0 {
      assert topic !in Topics(rows);
      if RowsOf(rows, topic) != [] {
        RowsOfAre(rows, topic, RowsOf(rows, topic)[0]);
      }
    }
  }

  lemma GroupTopicsAreStored(rows: seq<Envelope>, k: nat, groups: seq<Group>)
    requires IsRecent(rows, k, groups)
    ensures forall i :: 0 <= i < |groups| ==> groups[i].0 in Topics(rows) && |groups[i].1| <= k
  {
    forall i | 0 <= i < |groups|
      ensures groups[i].0 in Topics(rows)
    {
      RowsOfAre(rows, groups[i].0, groups[i].1[0]);
    }
  }

  /** A new broker filled from the log remembers exactly what the log says. */
  lemma {:induction false} RestoredMirrors(capacities: Capacities, tables: Tables, groups: seq<Group>,
      retained: seq<(Topic, Envelope)>, universe: set<Topic>)
    requires |universe| <= capacities.entries
    requires Topics(tables.rows) <= universe && tables.retained.Keys <= universe
    requires IsRecent(tables.rows, capacities.replay, groups) && IsAllRetained(tables, retained)
    ensures var s := Restored(capacities, groups, retained);
      Roomy(s, universe) && s.capacities == capacities && Mirrors(s, tables)
  {
    GroupTopicsAreStored(tables.rows, capacities.replay, groups);
    BuffersRestored(capacities, groups, universe);
    RetainedRestored(RehydrateBuffers(Initial(capacities), groups), retained, universe);
    forall t
      ensures OrEmpty(ValueFor(groups, t)) == Last(RowsOf(tables.rows, t), capacities.replay)
      ensures ValueFor(retained, t) == RetainedFor(tables, t)
    {
      RecentIsLast(tables.rows, capacities.replay, groups, t);
      ValueForIs(retained, t);
    }
  }

  lemma StepKeeps(node: Node, step: Step, universe: set<Topic>)
    requires Recoverable(node, universe) && Within(step, universe)
    ensures Recoverable(Next(node, step), universe)
  {
    match step
    case Do(Publishing(envelope)) => PublishKeeps(node, envelope, universe);
    case Do(Subscribing(filter)) => SubscribeKeepsMemory(node.broker, filter, universe);
    case Do(Dropping(i)) => DropKeepsMemory(node.broker, i, universe);
    case Restarting(groups, retained) =>
      if Enabled(node, step) {
        PruneIsUnnoticed(node.tables, node.limits.keep, node.broker.capacities.replay, universe);
        RestoredMirrors(node.broker.capacities, Reopened(node), groups, retained, universe);
      }
  }

  lemma {:induction false} RunKeeps(node: Node, run: seq<Step>, universe: set<Topic>)
    requires Recoverable(node, universe)
    requires forall i :: 0 <= i < |run| ==> Within(run[i], universe)
    ensures Recoverable(Execute(node, run), universe)
    decreases |run|
  {
    if run != [] {
      StepKeeps(node, run[0], universe);
      RunKeeps(Next(node, run[0]), run[1..], universe);
    }
  }

  /**
   * A restart is invisible. After any run of publishes, subscriptions and earlier restarts over at most
   * as many exact topics as the map holds, a further restart leaves every topic, known or not, with the
   * same replay buffer and the same retained message.
   */
  lemma {:induction false} RestartIsInvisible(limits: Limits, capacities: Capacities, universe: set<Topic>,
      run: seq<Step>, groups: seq<Group>, retained: seq<(Topic, Envelope)>)
    requires limits.keep >= capacities.replay && |universe| <= capacities.entries
    requires forall i :: 0 <= i < |run| ==> Within(run[i], universe)
    ensures var node := Execute(NewNode(limits, capacities), run);
      SameMemory(node.broker, Next(node, Restarting(groups, retained)).broker)
  {
    InitialKeepsInv(capacities);
    RunKeeps(NewNode(limits, capacities), run, universe);
    var node := Execute(NewNode(limits, capacities), run);
    RestartKeepsMemory(node, groups, retained, universe);
  }

  lemma RestartKeepsMemory(node: Node, groups: seq<Group>, retained: seq<(Topic, Envelope)>, universe: set<Topic>)
    requires Recoverable(node, universe)
    ensures SameMemory(node.broker, Next(node, Restarting(groups, retained)).broker)
  {
    if Enabled(node, Restarting(groups, retained)) {
      var restored := Restored(node.broker.capacities, groups, retained);
      PruneIsUnnoticed(node.tables, node.limits.keep, node.broker.capacities.replay, universe);
      RestoredMirrors(node.broker.capacities, Reopened(node), groups, retained, universe);
    }
  }

  // ------------------------------------------------------- serving after a restart

  lemma StepKeepsBroker(node: Node, step: Step)
    requires Inv(node.broker)
    ensures Inv(Next(node, step).broker)
  {
    match step
    case Do(operation) =>
      Routing.StepKeepsInv(node.broker, operation);
    case Restarting(groups, retained) =>
      RestoredIsUnsubscribed(node.broker.capacities, groups, retained);
  }

  /** Every broker a node ever has, however often restarted, is one the routing theorems speak of. */
  lemma {:induction false} RunKeepsBroker(node: Node, run: seq<Step>)
    requires Inv(node.broker)
    ensures Inv(Execute(node, run).broker)
    decreases |run|
  {
    if run != [] {
      StepKeepsBroker(node, run[0]);
      RunKeepsBroker(Next(node, run[0]), run[1..]);
    }
  }

  function Operations(operations: seq<Operation>): seq<Step> {
    seq(|operations|, i requires 0 <= i < |operations| => Do(operations[i]))
  }

  lemma {:induction false} OperationsRun(node: Node, operations: seq<Operation>)
    ensures Execute(node, Operations(operations)).broker == Routing.Execute(node.broker, operations)
    decreases |operations|
  {
    if operations != [] {
      assert Operations(operations)[1..] == Operations(operations[1..]);
      assert Operations(operations)[0] == Do(operations[0]);
      OperationsRun(Next(node, Do(operations[0])), operations[1..]);
    }
  }

  /**
   * After any run of a node and one more restart, with whatever happens since: a subscription is sent every
   * new publish made while it lives that its filter matches, in order and once, if the map had room when it
   * was opened; otherwise nothing.
   */
  lemma {:induction false} SubscriptionIsServedAfterRestart(node0: Node, run: seq<Step>, groups: seq<Group>,
      retained: seq<(Topic, Envelope)>, before: seq<Operation>, filter: TopicFilter, later: seq<Operation>)
    requires Inv(node0.broker) && Enabled(Execute(node0, run), Restarting(groups, retained))
    ensures var restarted := Next(Execute(node0, run), Restarting(groups, retained));
      var start := Execute(restarted, Operations(before));
      var next := Next(start, Do(Subscribing(filter)));
      var s, i := Execute(next, Operations(later)).broker, |start.broker.subscriptions|;
      && i < |s.subscriptions| && SubscriptionOk(s, s.subscriptions[i])
      && (s.subscriptions[i].alive ==>
            s.subscriptions[i].filter == filter
            && Received(s, s.subscriptions[i]) ==
                 if HasRoom(start.broker, filter) then MatchingPublishes(start.broker.seen, later, filter) else [])
  {
    var node := Execute(node0, run);
    var restarted := Next(node, Restarting(groups, retained));
    RestoredIsUnsubscribed(node.broker.capacities, groups, retained);
    OperationsRun(restarted, before);
    var start := Execute(restarted, Operations(before));
    OperationsRun(Next(start, Do(Subscribing(filter))), later);
    SubscriptionIsServed(restarted.broker, before, filter, later);
  }

  /**
   * Keeping fewer rows than the replay buffer would make restarts visible, and this is the only way:
   * for one topic, memory and log part exactly when the log has dropped a message still buffered.
   */
  lemma {:induction false} KeepingFewerIsVisible(rows: seq<Envelope>, topic: Topic, keep: nat, capacity: nat)
    ensures Last(RowsOf(Pruned(rows, keep), topic), capacity) == Last(RowsOf(rows, topic), capacity)
      <==> keep >= capacity || |RowsOf(rows, topic)| <= keep
  {
    PruneKeepsNewest(rows, keep, topic);
    var all := RowsOf(rows, topic);
    if keep >= capacity {
      LastLast(all, capacity, keep);
    } else if |all| > keep {
      assert |Last(Last(all, keep), capacity)| == keep;
    }
  }

  /** Opening the node: a new broker, then one refill per topic, then one per retained message. */
  method RehydrateFromStore(store: SqliteStore, capacities: Capacities)
    returns (broker: Broker, ghost groups: seq<Group>, ghost retained: seq<(Topic, Envelope)>)
    ensures fresh(broker.Repr()) && broker.Valid() && broker.subscriptions == []
    ensures IsRecent(store.rows, capacities.replay, groups) && IsAllRetained(store.State(), retained)
    ensures broker.State() == Restored(capacities, groups, retained)
    ensures |Topics(store.rows) + store.retained.Keys| <= capacities.entries ==> Mirrors(broker.State(), store.State())
  {
    var recent := store.LoadRecent(capacities.replay);
    var stored := store.LoadRetained();
    LoadedMirrors(capacities, store.State(), recent, stored);
    broker := Refilled(capacities, recent, stored);
    groups, retained := recent, stored;
  }

  /** A new broker, refilled. */
  method Refilled(capacities: Capacities, groups: seq<Group>, retained: seq<(Topic, Envelope)>) returns (broker: Broker)
    ensures fresh(broker.Repr()) && broker.Valid() && broker.subscriptions == []
    ensures broker.State() == Restored(capacities, groups, retained)
  {
    broker := new Broker(capacities);
    RefillBuffers(broker, groups);
    RefillRetained(broker, retained);
    RestoredIsUnsubscribed(capacities, groups, retained);
  }

  lemma {:induction false} LoadedMirrors(capacities: Capacities, tables: Tables, groups: seq<Group>,
      retained: seq<(Topic, Envelope)>)
    requires IsRecent(tables.rows, capacities.replay, groups) && IsAllRetained(tables, retained)
    ensures |Topics(tables.rows) + tables.retained.Keys| <= capacities.entries ==>
      Mirrors(Restored(capacities, groups, retained), tables)
  {
    var universe := Topics(tables.rows) + tables.retained.Keys;
    if |universe| <= capacities.entries {
      RestoredMirrors(capacities, tables, groups, retained, universe);
    }
  }

  lemma {:induction false} OneMoreBuffer(s: State, groups: seq<Group>, i: nat)
    requires i < |groups|
    ensures RehydrateBuffers(s, groups[..i + 1]) ==
      RehydrateBuffer(RehydrateBuffers(s, groups[..i]), groups[i].0, groups[i].1)
  {
    assert groups[..i + 1][..i] == groups[..i];
  }

  lemma {:induction false} OneMoreRetained(s: State, retained: seq<(Topic, Envelope)>, i: nat)
    requires i < |retained|
    ensures RehydrateAllRetained(s, retained[..i + 1]) ==
            RehydrateRetained(RehydrateAllRetained(s, retained[..i]), retained[i].0, retained[i].1)
  {
    assert retained[..i + 1][..i] == retained[..i];
  }

  method RefillBuffers(broker: Broker, groups: seq<Group>)
    requires broker.Valid()
    modifies broker, broker.topics
    ensures broker.Valid()
    ensures broker.State() == RehydrateBuffers(old(broker.State()), groups)
  {
    ghost var was := broker.State();
    for i := 0 to |groups|
      invariant broker.Valid()
      invariant broker.State() == RehydrateBuffers(was, groups[..i])
    {
      OneMoreBuffer(was, groups, i);
      broker.RehydrateBuffer(groups[i].0, groups[i].1);
    }
    assert groups[..|groups|] == groups;
  }

  method RefillRetained(broker: Broker, retained: seq<(Topic, Envelope)>)
    requires broker.Valid()
    modifies broker, broker.topics
    ensures broker.Valid()
    ensures broker.State() == RehydrateAllRetained(old(broker.State()), retained)
  {
    ghost var was := broker.State();
    for i := 0 to |retained|
      invariant broker.Valid()
      invariant broker.State() == RehydrateAllRetained(was, retained[..i])
    {
      OneMoreRetained(was, retained, i);
      broker.RehydrateRetained(retained[i].0, retained[i].1);
    }
    assert retained[..|retained|] == retained;
  }
}
