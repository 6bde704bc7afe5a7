/**
 * Subscribing against a concurrent reload of the topic ACLs. Every lock-protected read or write is one
 * step: a subscribe checks, inserts its forwarder, checks again, and takes it out or counts it; a reload
 * sets the two ACL slots and then sweeps the connections one by one, first taking what is denied and then
 * counting down, filter by filter. An unsubscribe and the end of a connection, too, first take and then
 * count down. Any number of connections do all this at once. What a connection is, a client or a peer
 * link, is settled before it subscribes.
 */
module AclReload {
  import opened Common
  import opened TopicFilters
  import opened Interest

  /** What one role may subscribe to; none configured means everything. */
  type Acl = Option<set<(Principal, Topic)>>

  type ConnectionId = nat

  datatype Slots = Slots(topic: Acl, peerTopic: Acl)

  /** The check of both subscribing and sweeping. A configured ACL never permits a wildcard. */
  predicate Permits(slots: Slots, isPeer: bool, principal: Principal, filter: TopicFilter) {
    var acl := if isPeer then slots.peerTopic else slots.topic;
    acl.Some? ==> IsLiteral(filter) && (principal, filter) in acl.value
  }

  /**
   * Where a connection's own task is. `Dropped` is an unsubscribe at its ack, `Ended` a connection whose
   * ack failed, and `Leaving` one that is shutting down, with the filters it has yet to count down; while
   * there are any it keeps its forwarders locked.
   */
  datatype Phase =
    | Idle
    | Checked(filter: TopicFilter)
    | Inserted(filter: TopicFilter)
    | Refused(filter: TopicFilter)
    | Confirmed(filter: TopicFilter)
    | Dropped(filter: TopicFilter)
    | Ended
    | Leaving(filters: set<TopicFilter>)

  datatype Connection = Connection(principal: Principal, isPeer: bool, forwarders: set<TopicFilter>, phase: Phase)

  /** How far the applier of reloads is. `taken` are filters it has stopped and has yet to count down. */
  datatype Applier =
    | Waiting
    | TopicSet(peerTopic: Acl)
    | BothSet
    | Read(slots: Slots)
    | Sweeping(slots: Slots, remaining: set<ConnectionId>, taken: set<TopicFilter>)

  datatype State = State(slots: Slots, connections: map<ConnectionId, Connection>, applier: Applier, counts: Counts)

  datatype Step =
    | Connect(c: ConnectionId, principal: Principal, isPeer: bool)
    | Check(c: ConnectionId, filter: TopicFilter)
    | Insert(c: ConnectionId)
    | Recheck(c: ConnectionId)
    | Remove(c: ConnectionId)
    | AddInterest(c: ConnectionId)
    | Drop(c: ConnectionId, filter: TopicFilter)
    | AckSent(c: ConnectionId)
    | AckFailed(c: ConnectionId)
    | Close(c: ConnectionId)
    | Release(c: ConnectionId, filter: TopicFilter)
    | Unregister(c: ConnectionId)
    | SetTopic(acls: Slots)
    | SetPeerTopic
    | ReadSlots
    | SnapshotConnections
    | SweepOne(c: ConnectionId)
    | CountDown(filter: TopicFilter)
    | FinishReload

  predicate At(s: State, c: ConnectionId, phase: Phase) {
    c in s.connections && s.connections[c].phase == phase
  }

  /** A connection that is shutting down holds the lock on its forwarders until all are counted down. */
  predicate Locked(s: State, c: ConnectionId) {
    c in s.connections && s.connections[c].phase.Leaving? && s.connections[c].phase.filters != {}
  }

  predicate Enabled(s: State, step: Step) {
    match step
    case Connect(c, _, _) => c !in s.connections
    case Check(c, _) => At(s, c, Idle)
    case Insert(c) => c in s.connections && s.connections[c].phase.Checked?
    case Recheck(c) => c in s.connections && s.connections[c].phase.Inserted?
    case Remove(c) => c in s.connections && s.connections[c].phase.Refused?
    case AddInterest(c) => c in s.connections && s.connections[c].phase.Confirmed?
    case Drop(c, _) => At(s, c, Idle)
    case AckSent(c) => c in s.connections && s.connections[c].phase.Dropped?
    case AckFailed(c) => c in s.connections && s.connections[c].phase.Dropped?
    case Close(c) => At(s, c, Idle) || At(s, c, Ended)
    case Release(c, filter) => c in s.connections && s.connections[c].phase.Leaving?
      && filter in s.connections[c].phase.filters
    case Unregister(c) => At(s, c, Leaving({}))
    case SetTopic(_) => s.applier.Waiting?
    case SetPeerTopic => s.applier.TopicSet?
    case ReadSlots => s.applier.BothSet?
    case SnapshotConnections => s.applier.Read?
    case SweepOne(c) => s.applier.Sweeping? && s.applier.taken == {} && c in s.applier.remaining && !Locked(s, c)
    case CountDown(filter) => s.applier.Sweeping? && filter in s.applier.taken
    case FinishReload => s.applier.Sweeping? && s.applier.remaining == {} && s.applier.taken == {}
  }

  function Put(s: State, c: ConnectionId, connection: Connection): State {
    s.(connections := s.connections[c := connection])
  }

  function Denied(slots: Slots, connection: Connection): set<TopicFilter> {
    set f | f in connection.forwarders && !Permits(slots, connection.isPeer, connection.principal, f)
  }

  function Apply(s: State, step: Step): State
    requires Enabled(s, step)
  {
    match step
    case Connect(c, principal, isPeer) => Put(s, c, Connection(principal, isPeer, {}, Idle))
    case Check(c, filter) =>
      var k := s.connections[c];
      if Permits(s.slots, k.isPeer, k.principal, filter) then Put(s, c, k.(phase := Checked(filter))) else s
    case Insert(c) =>
      var k := s.connections[c];
      if k.phase.filter in k.forwarders then Put(s, c, k.(phase := Idle))
      else Put(s, c, k.(forwarders := k.forwarders + {k.phase.filter}, phase := Inserted(k.phase.filter)))
    case Recheck(c) =>
      var k := s.connections[c];
      if Permits(s.slots, k.isPeer, k.principal, k.phase.filter)
      then Put(s, c, k.(phase := Confirmed(k.phase.filter)))
      else Put(s, c, k.(phase := Refused(k.phase.filter)))
    case Remove(c) =>
      var k := s.connections[c];
      Put(s, c, k.(forwarders := k.forwarders - {k.phase.filter}, phase := Idle))
    case AddInterest(c) =>
      var k := s.connections[c];
      Put(s, c, k.(phase := Idle)).(counts := Gain(s.counts, k.phase.filter).0)
    case Drop(c, filter) =>
      var k := s.connections[c];
      if filter in k.forwarders then Put(s, c, k.(forwarders := k.forwarders - {filter}, phase := Dropped(filter)))
      else s
    case AckSent(c) =>
      var k := s.connections[c];
      Put(s, c, k.(phase := Idle)).(counts := Lose(s.counts, k.phase.filter).0)
    case AckFailed(c) => Put(s, c, s.connections[c].(phase := Ended))
    case Close(c) =>
      var k := s.connections[c];
      Put(s, c, k.(forwarders := {}, phase := Leaving(k.forwarders)))
    case Release(c, filter) =>
      var k := s.connections[c];
      Put(s, c, k.(phase := Leaving(k.phase.filters - {filter}))).(counts := Lose(s.counts, filter).0)
    case Unregister(c) => s.(connections := s.connections - {c})
    case SetTopic(acls) => s.(slots := s.slots.(topic := acls.topic), applier := TopicSet(acls.peerTopic))
    case SetPeerTopic => s.(slots := s.slots.(peerTopic := s.applier.peerTopic), applier := BothSet)
    case ReadSlots => s.(applier := Read(s.slots))
    case SnapshotConnections => s.(applier := Sweeping(s.applier.slots, s.connections.Keys, {}))
    case SweepOne(c) =>
      var remaining := s.applier.remaining - {c};
      if c !in s.connections then s.(applier := Sweeping(s.applier.slots, remaining, {}))
      else
        var k := s.connections[c];
        var denied := Denied(s.applier.slots, k);
        Put(s, c, k.(forwarders := k.forwarders - denied)).(applier := Sweeping(s.applier.slots, remaining, denied))
    case CountDown(filter) =>
      s.(applier := s.applier.(taken := s.applier.taken - {filter}), counts := Lose(s.counts, filter).0)
    case FinishReload => s.(applier := Waiting)
  }

  function Next(s: State, step: Step): State {
    if Enabled(s, step) then Apply(s, step) else s
  }

  function Execute(s: State, run: seq<Step>): State
    decreases |run|
  {
    if run == [] then s else Execute(Next(s, run[0]), run[1..])
  }

  function Initial(slots: Slots): State {
    State(slots, map[], Waiting, map[])
  }

  // --------------------------------------------------------------- invariant

  /** The sweep has yet to come to connection `c`. */
  predicate ToBeSwept(s: State, c: ConnectionId) {
    match s.applier
    case Waiting => false
    case TopicSet(_) => true
    case BothSet => true
    case Read(_) => true
    case Sweeping(_, remaining, _) => c in remaining
  }

  /** A connection's own second check, or its consequence, is still to come for `filter`. */
  predicate BeingSettled(k: Connection, filter: TopicFilter) {
    k.phase == Inserted(filter) || k.phase == Refused(filter)
  }

  predicate Accounted(s: State, c: ConnectionId, filter: TopicFilter)
    requires c in s.connections
  {
    var k := s.connections[c];
    filter in k.forwarders ==>
      Permits(s.slots, k.isPeer, k.principal, filter) || BeingSettled(k, filter) || ToBeSwept(s, c)
  }

  /** Only the applier writes the slots, so what it read is still what they hold. */
  predicate ReadIsFresh(s: State) {
    match s.applier
    case Read(slots) => slots == s.slots
    case Sweeping(slots, _, _) => slots == s.slots
    case _ => true
  }

  ghost predicate Inv(s: State) {
    ReadIsFresh(s) && forall c, filter :: c in s.connections ==> Accounted(s, c, filter)
  }

  lemma StepKeepsAccounted(s: State, step: Step, c: ConnectionId, filter: TopicFilter)
    requires ReadIsFresh(s) && Enabled(s, step) && c in Apply(s, step).connections
    requires c in s.connections ==> Accounted(s, c, filter)
    ensures Accounted(Apply(s, step), c, filter)
  {
  }

  lemma {:induction false} RunKeepsInv(s: State, run: seq<Step>)
    requires Inv(s)
    ensures Inv(Execute(s, run))
    decreases |run|
  {
    if run != [] {
      var after := Next(s, run[0]);
      if Enabled(s, run[0]) {
        forall c, filter | c in after.connections
          ensures Accounted(after, c, filter)
        {
          StepKeepsAccounted(s, run[0], c, filter);
        }
      }
      RunKeepsInv(after, run[1..]);
    }
  }

  /**
   * In every interleaving: once no reload is under way, a connection that is not in the middle of a
   * subscribe holds no forwarder that the current ACL for its role denies.
   */
  lemma {:induction false} NoDeniedForwarderSurvives(slots: Slots, run: seq<Step>)
    ensures var s := Execute(Initial(slots), run);
      s.applier.Waiting? ==>
        forall c, filter ::
          c in s.connections && s.connections[c].phase.Idle? && filter in s.connections[c].forwarders ==>
          Permits(s.slots, s.connections[c].isPeer, s.connections[c].principal, filter)
  {
    RunKeepsInv(Initial(slots), run);
    var s := Execute(Initial(slots), run);
    if s.applier.Waiting? {
      forall c, filter | c in s.connections && s.connections[c].phase.Idle? && filter in s.connections[c].forwarders
        ensures Permits(s.slots, s.connections[c].isPeer, s.connections[c].principal, filter)
      {
        assert Accounted(s, c, filter);
      }
    }
  }

  /** A sweep takes away what is denied at that moment and nothing else. */
  lemma {:induction false} SweepTakesOnlyDenied(slots: Slots, run: seq<Step>, c: ConnectionId)
    ensures var s := Execute(Initial(slots), run);
      Enabled(s, SweepOne(c)) && c in s.connections ==>
        forall filter :: filter in s.connections[c].forwarders ==>
          (filter in Next(s, SweepOne(c)).connections[c].forwarders <==>
           Permits(s.slots, s.connections[c].isPeer, s.connections[c].principal, filter))
  {
    RunKeepsInv(Initial(slots), run);
  }

  /** What a connection holds, against an ACL: no wildcard and no topic its identity is not granted. */
  predicate CoversHeld(acl: Acl, connection: Connection) {
    acl.Some? ==> forall f :: f in connection.forwarders ==> IsLiteral(f) && (connection.principal, f) in acl.value
  }

  /** The ACL of the role a connection does not have. */
  function OtherAcl(slots: Slots, connection: Connection): Acl {
    if connection.isPeer then slots.topic else slots.peerTopic
  }

  /**
   * Changing role afterwards would break this: at rest, for a connection outside a subscribe, exactly when
   * the ACL of the role it takes on does not cover the filters it holds.
   */
  lemma RoleChangeBreaksIff(s: State, c: ConnectionId)
    requires Inv(s) && s.applier.Waiting? && At(s, c, Idle)
    ensures var k := s.connections[c];
      Inv(Put(s, c, k.(isPeer := !k.isPeer))) <==> CoversHeld(OtherAcl(s.slots, k), k)
  {
    var k := s.connections[c];
    var flipped := k.(isPeer := !k.isPeer);
    var after := Put(s, c, flipped);
    if CoversHeld(OtherAcl(s.slots, k), k) {
      forall d, filter | d in after.connections
        ensures Accounted(after, d, filter)
      {
        if d != c { assert Accounted(s, d, filter); }
      }
    } else {
      var filter :| filter in k.forwarders && !Permits(s.slots, flipped.isPeer, k.principal, filter);
      assert !Accounted(after, c, filter);
    }
  }

  // ------------------------------------------------------------ two exact runs

  /** A run passes through the states that its steps lead to. */
  lemma {:induction false} PassesThrough(states: seq<State>, run: seq<Step>)
    requires |states| == |run| + 1
    requires forall i :: 0 <= i < |run| ==> states[i + 1] == Next(states[i], run[i])
    ensures Execute(states[0], run) == states[|run|]
    decreases |run|
  {
    if run != [] { PassesThrough(states[1..], run[1..]); }
  }

  const OPEN := Slots(None, None)
  const CLOSED := Slots(Some({}), None)

  /** A reload up to and including its sweep of one connection. */
  function UpToSweep(c: ConnectionId, slots: Slots): seq<Step> {
    [SetTopic(slots), SetPeerTopic, ReadSlots, SnapshotConnections, SweepOne(c)]
  }

  lemma {:induction false} ExecuteConcat(s: State, first: seq<Step>, second: seq<Step>)
    ensures Execute(s, first + second) == Execute(Execute(s, first), second)
    decreases |first|
  {
    if first == [] {
      assert first + second == second;
    } else {
      assert (first + second)[1..] == first[1..] + second;
      ExecuteConcat(Next(s, first[0]), first[1..], second);
    }
  }

  /** What that does: the connection's denied forwarders are taken, and not counted down yet. */
  lemma {:induction false} ReloadSweeps(s: State, c: ConnectionId, slots: Slots)
    requires s.applier.Waiting? && c in s.connections && !Locked(s, c)
    ensures var k := s.connections[c];
      var denied := Denied(slots, k);
      Execute(s, UpToSweep(c, slots)) ==
        Put(s, c, k.(forwarders := k.forwarders - denied)).(slots := slots,
          applier := Sweeping(slots, s.connections.Keys - {c}, denied))
  {
    var k := s.connections[c];
    var denied := Denied(slots, k);
    var begun := s.(slots := s.slots.(topic := slots.topic), applier := TopicSet(slots.peerTopic));
    var both := s.(slots := slots, applier := BothSet);
    var sweeping := both.(applier := Sweeping(slots, s.connections.Keys, {}));
    var swept := Put(s, c, k.(forwarders := k.forwarders - denied))
                   .(slots := slots, applier := Sweeping(slots, s.connections.Keys - {c}, denied));
    PassesThrough([s, begun, both, both.(applier := Read(slots)), sweeping, swept], UpToSweep(c, slots));
  }

  function Lone(c: ConnectionId, principal: Principal, forwarders: set<TopicFilter>,
      phase: Phase): map<ConnectionId, Connection> {
    map[c := Connection(principal, false, forwarders, phase)]
  }

  lemma ChecksFirst(c: ConnectionId, principal: Principal, filter: TopicFilter)
    ensures Execute(Initial(OPEN), [Connect(c, principal, false), Check(c, filter)]) ==
      Initial(OPEN).(connections := Lone(c, principal, {}, Checked(filter)))
  {
    var start := Initial(OPEN);
    PassesThrough([start, start.(connections := Lone(c, principal, {}, Idle)),
      start.(connections := Lone(c, principal, {}, Checked(filter)))],
                  [Connect(c, principal, false), Check(c, filter)]);
  }

  lemma InsertsAfterwards(c: ConnectionId, principal: Principal, filter: TopicFilter)
    ensures Execute(State(CLOSED, Lone(c, principal, {}, Checked(filter)), Sweeping(CLOSED, {}, {}), map[]),
      [FinishReload, Insert(c)]) ==
      State(CLOSED, Lone(c, principal, {filter}, Inserted(filter)), Waiting, map[])
  {
    var swept := State(CLOSED, Lone(c, principal, {}, Checked(filter)), Sweeping(CLOSED, {}, {}), map[]);
    assert {} + {filter} == {filter};
    PassesThrough([swept, swept.(applier := Waiting),
      State(CLOSED, Lone(c, principal, {filter}, Inserted(filter)), Waiting, map[])],
                  [FinishReload, Insert(c)]);
  }

  /** A reload that denies everything takes all forwarders of a lone client. */
  lemma ClosedTakesAll(c: ConnectionId, principal: Principal, forwarders: set<TopicFilter>, phase: Phase)
    requires !phase.Leaving?
    ensures Execute(State(OPEN, Lone(c, principal, forwarders, phase), Waiting, map[]), UpToSweep(c, CLOSED)) ==
      State(CLOSED, Lone(c, principal, {}, phase), Sweeping(CLOSED, {}, forwarders), map[])
  {
    var s := State(OPEN, Lone(c, principal, forwarders, phase), Waiting, map[]);
    ReloadSweeps(s, c, CLOSED);
    assert Denied(CLOSED, s.connections[c]) == forwarders && s.connections.Keys == {c};
    assert forwarders - forwarders == {} && {c} - {c} == {};
    assert s.connections[c := Connection(principal, false, {}, phase)] == Lone(c, principal, {}, phase);
  }

  lemma {:induction false} ExecuteThree(s: State, first: seq<Step>, second: seq<Step>, third: seq<Step>)
    ensures Execute(s, first + second + third) == Execute(Execute(Execute(s, first), second), third)
  {
    ExecuteConcat(s, first, second);
    ExecuteConcat(s, first + second, third);
  }

  /** What a connection holds or is about to hold is permitted by these ACLs. */
  ghost predicate Clean(slots: Slots, k: Connection) {
    && (forall f :: f in k.forwarders ==> Permits(slots, k.isPeer, k.principal, f))
    && !k.phase.Refused?
    && (k.phase.Checked? || k.phase.Inserted? || k.phase.Confirmed? ==>
          Permits(slots, k.isPeer, k.principal, k.phase.filter))
  }

  /** Were ACLs never reloaded, the first check would do: nobody holds a denied forwarder, not even for a moment. */
  lemma {:induction false} WithoutReloadsNothingDenied(s: State, run: seq<Step>)
    requires s.applier.Waiting? && forall i :: 0 <= i < |run| ==> !run[i].SetTopic?
    requires forall c :: c in s.connections ==> Clean(s.slots, s.connections[c])
    ensures var after := Execute(s, run);
      && after.slots == s.slots && after.applier.Waiting?
      && forall c :: c in after.connections ==> Clean(s.slots, after.connections[c])
    decreases |run|
  {
    if run != [] { WithoutReloadsNothingDenied(Next(s, run[0]), run[1..]); }
  }

  /** A filter held already is not taken up a second time, and not counted again. */
  lemma {:induction false} SubscribesOnce(c: ConnectionId, principal: Principal, filter: TopicFilter, counts: Counts)
    ensures var held := State(OPEN, Lone(c, principal, {filter}, Idle), Waiting, counts);
      Execute(held, [Check(c, filter), Insert(c)]) == held
  {
    var held := State(OPEN, Lone(c, principal, {filter}, Idle), Waiting, counts);
    PassesThrough([held, held.(connections := Lone(c, principal, {filter}, Checked(filter))), held],
                  [Check(c, filter), Insert(c)]);
  }

  /** An unsubscribe whose ack is sent leaves neither forwarder nor count. */
  lemma {:induction false} UnsubscribesAgain(c: ConnectionId, principal: Principal, filter: TopicFilter)
    ensures
      Execute(State(OPEN, Lone(c, principal, {filter}, Idle), Waiting, map[filter := 1]), [Drop(c, filter), AckSent(c)])
        == State(OPEN, Lone(c, principal, {}, Idle), Waiting, map[])
  {
    assert {filter} - {filter} == {};
    PassesThrough([State(OPEN, Lone(c, principal, {filter}, Idle), Waiting, map[filter := 1]),
                   State(OPEN, Lone(c, principal, {}, Dropped(filter)), Waiting, map[filter := 1]),
                   State(OPEN, Lone(c, principal, {}, Idle), Waiting, map[])],
                  [Drop(c, filter), AckSent(c)]);
  }

  /** A connection that is gone when the sweep comes to it does not hold the reload up. */
  lemma {:induction false} SweepPassesOverTheGone(slots: Slots, c: ConnectionId, counts: Counts)
    ensures Execute(State(slots, map[], Sweeping(slots, {c}, {}), counts), [SweepOne(c), FinishReload]) ==
      State(slots, map[], Waiting, counts)
  {
    assert {c} - {c} == {};
    PassesThrough([State(slots, map[], Sweeping(slots, {c}, {}), counts),
                   State(slots, map[], Sweeping(slots, {}, {}), counts), State(slots, map[], Waiting, counts)],
                  [SweepOne(c), FinishReload]);
  }

  /** A connection that is shutting down is swept only when it has counted down all it held. */
  lemma {:induction false} SweepWaitsForTheLeaving(s: State, c: ConnectionId, filter: TopicFilter)
    requires At(s, c, Leaving({filter}))
    requires s.applier.Sweeping? && s.applier.taken == {} && c in s.applier.remaining
    ensures Next(s, SweepOne(c)) == s
    ensures var released := Next(s, Release(c, filter));
      At(released, c, Leaving({})) && c !in Next(released, SweepOne(c)).applier.remaining
  {
    assert {filter} - {filter} == {};
  }

  /** Without its second check a subscribe would leave a denied forwarder: a whole reload fits in between. */
  lemma SecondCheckIsNeeded(c: ConnectionId, principal: Principal, filter: TopicFilter)
    ensures var run := [Connect(c, principal, false), Check(c, filter)] + UpToSweep(c, CLOSED)
      + [FinishReload, Insert(c)];
      Execute(Initial(OPEN), run) == State(CLOSED, Lone(c, principal, {filter}, Inserted(filter)), Waiting, map[])
    ensures !Permits(CLOSED, false, principal, filter)
  {
    ChecksFirst(c, principal, filter);
    ClosedTakesAll(c, principal, {}, Checked(filter));
    InsertsAfterwards(c, principal, filter);
    var before, after := [Connect(c, principal, false), Check(c, filter)], [FinishReload, Insert(c)];
    ExecuteThree(Initial(OPEN), before, UpToSweep(c, CLOSED), after);
    assert Execute(Initial(OPEN), before) == State(OPEN, Lone(c, principal, {}, Checked(filter)), Waiting, map[]);
  }

  function ToConfirmed(c: ConnectionId, principal: Principal, filter: TopicFilter): seq<Step> {
    [Connect(c, principal, false), Check(c, filter), Insert(c), Recheck(c)]
  }

  /** A client that subscribes undisturbed, up to just before its interest is counted. */
  lemma SubscribesUpToCounting(c: ConnectionId, principal: Principal, filter: TopicFilter)
    ensures Execute(Initial(OPEN), ToConfirmed(c, principal, filter)) ==
      State(OPEN, Lone(c, principal, {filter}, Confirmed(filter)), Waiting, map[])
  {
    var start := Initial(OPEN);
    assert {} + {filter} == {filter};
    PassesThrough([start,
                   start.(connections := Lone(c, principal, {}, Idle)),
                   start.(connections := Lone(c, principal, {}, Checked(filter))),
                   start.(connections := Lone(c, principal, {filter}, Inserted(filter))),
                   start.(connections := Lone(c, principal, {filter}, Confirmed(filter)))],
                  ToConfirmed(c, principal, filter));
  }

  /** The rest of the reload, the increment, and the end of the connection. */
  function ToTheEnd(c: ConnectionId, filter: TopicFilter): seq<Step> {
    [CountDown(filter), FinishReload, AddInterest(c), Close(c), Unregister(c)]
  }

  /** The count is taken down when there is none, comes up for a forwarder that is gone, and stays. */
  lemma CountsForNothing(c: ConnectionId, principal: Principal, filter: TopicFilter)
    ensures var taken := State(CLOSED, Lone(c, principal, {}, Confirmed(filter)), Sweeping(CLOSED, {}, {filter}),
      map[]);
      Execute(taken, ToTheEnd(c, filter)) == State(CLOSED, map[], Waiting, map[filter := 1])
  {
    var down := State(CLOSED, Lone(c, principal, {}, Confirmed(filter)), Sweeping(CLOSED, {}, {}), map[]);
    var counted := State(CLOSED, Lone(c, principal, {}, Idle), Waiting, map[filter := 1]);
    var leaving := counted.(connections := Lone(c, principal, {}, Leaving({})));
    assert {filter} - {filter} == {};
    assert leaving.connections - {c} == map[];
    PassesThrough([down.(applier := Sweeping(CLOSED, {}, {filter})), down, down.(applier := Waiting), counted, leaving,
                   counted.(connections := map[])],
                  ToTheEnd(c, filter));
  }

  /**
   * The interest count is not as safe as the forwarder. When a whole reload falls between the second
   * check and the increment, the sweep has nothing to take back yet, and the increment is never undone:
   * with no connection left at all, the node still counts itself interested.
   */
  lemma InterestCanLeak(c: ConnectionId, principal: Principal, filter: TopicFilter)
    ensures Execute(Initial(OPEN), ToConfirmed(c, principal, filter) + UpToSweep(c, CLOSED) + ToTheEnd(c, filter)) ==
      State(CLOSED, map[], Waiting, map[filter := 1])
  {
    SubscribesUpToCounting(c, principal, filter);
    ClosedTakesAll(c, principal, {filter}, Confirmed(filter));
    CountsForNothing(c, principal, filter);
    ExecuteThree(Initial(OPEN), ToConfirmed(c, principal, filter), UpToSweep(c, CLOSED), ToTheEnd(c, filter));
  }
}
