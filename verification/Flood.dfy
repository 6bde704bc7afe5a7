/**
 * Publishes flooding a mesh. Every node forwards what it accepts along each of its links whose filter
 * matches, back to where it came from included, and relies on its own duplicate detection to stop.
 * Links are directed, may form cycles and may be doubled; none loses a message.
 */
module Flood {
  import opened Common
  import opened Sequences
  import opened TopicFilters
  import opened Dedup

  type NodeId = nat

  /** `from` forwards to `to` what `filter` matches: `to` subscribed to it at `from`. */
  datatype Link = Link(from: NodeId, to: NodeId, filter: TopicFilter)

  /** The mesh, and the messages in play by id. */
  datatype Mesh = Mesh(nodes: set<NodeId>, links: seq<Link>, messages: map<MessageId, Envelope>, capacity: nat) {

    /** Links join nodes, ids name their own messages, and no window is too small for all of the ids. */
    ghost predicate Valid() {
      && (forall i :: 0 <= i < |links| ==> links[i].from in nodes && links[i].to in nodes)
      && (forall id :: id in messages ==> messages[id].id == id)
      && |messages.Keys| <= capacity
    }

    predicate Carries(i: nat, id: MessageId) {
      i < |links| && id in messages && Matches(links[i].filter, messages[id].topic)
    }
  }

  type Flight = multiset<(nat, MessageId)>

  /** `flight` are the copies on their way, by link. `origins` remembers where each id was published. */
  datatype State = State(seen: map<NodeId, Window>, flight: Flight, origins: set<(NodeId, MessageId)>)

  datatype Step = Publish(node: NodeId, id: MessageId) | Arrive(link: nat, id: MessageId)

  /** The copies a node sends when it accepts a message, among its first `k` links. */
  function Copies(m: Mesh, k: nat, node: NodeId, id: MessageId): (copies: Flight)
    requires k <= |m.links|
    ensures |copies| <= k
  {
    if k == 0 then multiset{}
    else if m.links[k - 1].from == node && m.Carries(k - 1, id)
    then Copies(m, k - 1, node, id) + multiset{(k - 1, id)}
    else Copies(m, k - 1, node, id)
  }

  function Accept(m: Mesh, s: State, node: NodeId, id: MessageId): State {
    if node !in s.seen || s.seen[node].Remembers(id) then s
    else s.(seen := s.seen[node := s.seen[node].Record(id)], flight := s.flight + Copies(m, |m.links|, node, id))
  }

  predicate Enabled(m: Mesh, s: State, step: Step) {
    match step
    case Publish(node, id) => node in m.nodes && id in m.messages
    case Arrive(link, id) => link < |m.links| && (link, id) in s.flight
  }

  function Next(m: Mesh, s: State, step: Step): State {
    if !Enabled(m, s, step) then s
    else match step
      case Publish(node, id) => Accept(m, s.(origins := s.origins + {(node, id)}), node, id)
      case Arrive(link, id) => Accept(m, s.(flight := s.flight - multiset{(link, id)}), m.links[link].to, id)
  }

  function Execute(m: Mesh, s: State, run: seq<Step>): State
    decreases |run|
  {
    if run == [] then s else Execute(m, Next(m, s, run[0]), run[1..])
  }

  function Initial(m: Mesh): State {
    State(map n | n in m.nodes :: Window(m.capacity, []), multiset{}, {})
  }

  predicate Accepted(s: State, node: NodeId, id: MessageId) {
    node in s.seen && id in s.seen[node].accepted
  }

  // ------------------------------------------------------------ reachability

  /** `path` leads from one node to another along links that all carry the message. */
  predicate Walk(m: Mesh, from: NodeId, path: seq<nat>, to: NodeId, id: MessageId) {
    if path == [] then from == to
    else
      var last := path[|path| - 1];
      m.Carries(last, id) && m.links[last].to == to && Walk(m, from, path[..|path| - 1], m.links[last].from, id)
  }

  ghost predicate Reachable(m: Mesh, origins: set<(NodeId, MessageId)>, node: NodeId, id: MessageId) {
    exists origin, path :: (origin, id) in origins && Walk(m, origin, path, node, id)
  }

  lemma ReachableStep(m: Mesh, origins: set<(NodeId, MessageId)>, link: nat, id: MessageId)
    requires m.Carries(link, id) && Reachable(m, origins, m.links[link].from, id)
    ensures Reachable(m, origins, m.links[link].to, id)
  {
    var origin, path :| (origin, id) in origins && Walk(m, origin, path, m.links[link].from, id);
    assert (path + [link])[..|path|] == path;
    assert Walk(m, origin, path + [link], m.links[link].to, id);
  }

  // --------------------------------------------------------------- invariant

  ghost predicate Windows(m: Mesh, s: State) {
    && s.seen.Keys == m.nodes
    && forall n :: n in m.nodes ==> s.seen[n].capacity == m.capacity && NoRepeats(s.seen[n], m.messages.Keys)
  }

  /** A copy in flight is one its sender accepted and its link carries. */
  ghost predicate Flying(m: Mesh, s: State) {
    forall i, id :: (i, id) in s.flight ==> m.Carries(i, id) && Accepted(s, m.links[i].from, id)
  }

  ghost predicate Sound(m: Mesh, s: State) {
    forall n, id :: Accepted(s, n, id) ==> Reachable(m, s.origins, n, id)
  }

  /** Whatever a node accepted has arrived at the far end of each link that carries it, or is on its way. */
  ghost predicate Forwarded(m: Mesh, s: State) {
    forall i: nat, id: MessageId :: m.Carries(i, id) && Accepted(s, m.links[i].from, id) ==>
      Accepted(s, m.links[i].to, id) || (i, id) in s.flight
  }

  ghost predicate Published(m: Mesh, s: State) {
    forall n, id :: (n, id) in s.origins ==> n in m.nodes && id in m.messages && Accepted(s, n, id)
  }

  ghost predicate Inv(m: Mesh, s: State) {
    m.Valid() && Windows(m, s) && Flying(m, s) && Sound(m, s) && Forwarded(m, s) && Published(m, s)
  }

  lemma {:induction false} CopiesAre(m: Mesh, k: nat, node: NodeId, id: MessageId, i: nat, other: MessageId)
    requires k <= |m.links|
    ensures (i, other) in Copies(m, k, node, id) <==>
      i < k && other == id && m.links[i].from == node && m.Carries(i, id)
  {
    if k > 0 {
      CopiesAre(m, k - 1, node, id, i, other);
      OneMoreLink(m, k - 1, node, id, (i, other));
      if i == k - 1 {
        assert (i, other) !in Copies(m, k - 1, node, id);
      } else {
        assert (i, other) != (k - 1, id);
      }
    }
  }

  lemma OneMoreLink(m: Mesh, k: nat, node: NodeId, id: MessageId, copy: (nat, MessageId))
    requires k < |m.links|
    ensures copy in Copies(m, k + 1, node, id) <==>
      copy in Copies(m, k, node, id) || (m.links[k].from == node && m.Carries(k, id) && copy == (k, id))
  {
    var copies := Copies(m, k, node, id);
    assert copy in copies + multiset{(k, id)} <==> copy in copies || copy == (k, id);
  }

  /** What accepting does to who has accepted what. */
  lemma {:induction false} AcceptEffect(m: Mesh, s: State, node: NodeId, id: MessageId)
    requires m.Valid() && Windows(m, s) && node in m.nodes && id in m.messages
    ensures var after := Accept(m, s, node, id);
      && Windows(m, after)
      && after.origins == s.origins
      && (forall n, other :: Accepted(after, n, other) <==> Accepted(s, n, other) || (n == node && other == id))
      && after.flight == s.flight + if Accepted(s, node, id) then multiset{} else Copies(m, |m.links|, node, id)
  {
    WindowIsExact(s.seen[node], m.messages.Keys, id);
    RecordKeepsNoRepeats(s.seen[node], m.messages.Keys, id);
  }

  lemma AcceptKeepsFlying(m: Mesh, s: State, node: NodeId, id: MessageId)
    requires m.Valid() && Windows(m, s) && Flying(m, s) && node in m.nodes && id in m.messages
    ensures Flying(m, Accept(m, s, node, id))
  {
    AcceptEffect(m, s, node, id);
    var after := Accept(m, s, node, id);
    forall i, other | (i, other) in after.flight
      ensures m.Carries(i, other) && Accepted(after, m.links[i].from, other)
    {
      CopiesAre(m, |m.links|, node, id, i, other);
    }
  }

  /** `but` is a copy that has just been taken out of flight to be accepted at the end of its link. */
  ghost predicate ForwardedBut(m: Mesh, s: State, node: NodeId, id: MessageId) {
    forall i: nat, other: MessageId :: m.Carries(i, other) && Accepted(s, m.links[i].from, other) ==>
      Accepted(s, m.links[i].to, other) || (i, other) in s.flight || (m.links[i].to == node && other == id)
  }

  lemma AcceptKeepsForwarded(m: Mesh, s: State, node: NodeId, id: MessageId)
    requires m.Valid() && Windows(m, s) && ForwardedBut(m, s, node, id) && node in m.nodes && id in m.messages
    ensures Forwarded(m, Accept(m, s, node, id))
  {
    AcceptEffect(m, s, node, id);
    var after := Accept(m, s, node, id);
    forall i: nat, other: MessageId | m.Carries(i, other) && Accepted(after, m.links[i].from, other)
      ensures Accepted(after, m.links[i].to, other) || (i, other) in after.flight
    {
      CopiesAre(m, |m.links|, node, id, i, other);
    }
  }

  /** Only `node` has accepted anything new, namely `id`. */
  ghost predicate Accepts(s: State, after: State, node: NodeId, id: MessageId) {
    forall n, other :: Accepted(after, n, other) <==> Accepted(s, n, other) || (n == node && other == id)
  }

  lemma AcceptedAsPublished(m: Mesh, s: State, after: State, node: NodeId, id: MessageId)
    requires Sound(m, s) && Published(m, s) && node in m.nodes && id in m.messages
    requires after.origins == s.origins + {(node, id)} && Accepts(s, after, node, id)
    ensures Sound(m, after) && Published(m, after)
  {
    forall n, other | Accepted(after, n, other)
      ensures Reachable(m, after.origins, n, other)
    {
      if !Accepted(s, n, other) {
        assert (node, id) in after.origins && Walk(m, node, [], node, id);
      }
    }
  }

  lemma PublishKeepsInv(m: Mesh, s: State, node: NodeId, id: MessageId)
    requires Inv(m, s) && node in m.nodes && id in m.messages
    ensures Inv(m, Next(m, s, Publish(node, id)))
  {
    var marked := s.(origins := s.origins + {(node, id)});
    var after := Accept(m, marked, node, id);
    SameAccepted(s, marked);
    AcceptEffect(m, marked, node, id);
    AcceptKeepsFlying(m, marked, node, id);
    AcceptKeepsForwarded(m, marked, node, id);
    AcceptedAsPublished(m, s, after, node, id);
  }

  lemma SameAccepted(s: State, t: State)
    requires s.seen == t.seen
    ensures forall n, id :: Accepted(t, n, id) <==> Accepted(s, n, id)
  {
  }

  lemma ArriveKeepsInv(m: Mesh, s: State, link: nat, id: MessageId)
    requires Inv(m, s) && link < |m.links| && (link, id) in s.flight
    ensures Inv(m, Next(m, s, Arrive(link, id)))
  {
    var taken := s.(flight := s.flight - multiset{(link, id)});
    var node := m.links[link].to;
    var after := Accept(m, taken, node, id);
    SameAccepted(s, taken);
    TakenOut(m, s, link, id);
    AcceptEffect(m, taken, node, id);
    AcceptKeepsFlying(m, taken, node, id);
    AcceptKeepsForwarded(m, taken, node, id);
    ReachableStep(m, s.origins, link, id);
  }

  /** A copy taken out of flight is the only one then unaccounted for. */
  lemma TakenOut(m: Mesh, s: State, link: nat, id: MessageId)
    requires Flying(m, s) && Forwarded(m, s) && link < |m.links| && (link, id) in s.flight
    ensures var taken := s.(flight := s.flight - multiset{(link, id)});
      Flying(m, taken) && ForwardedBut(m, taken, m.links[link].to, id)
  {
  }

  lemma StepKeepsInv(m: Mesh, s: State, step: Step)
    requires Inv(m, s)
    ensures Inv(m, Next(m, s, step))
  {
    if Enabled(m, s, step) {
      match step
      case Publish(node, id) => PublishKeepsInv(m, s, node, id);
      case Arrive(link, id) => ArriveKeepsInv(m, s, link, id);
    }
  }

  lemma {:induction false} RunKeepsInv(m: Mesh, s: State, run: seq<Step>)
    requires Inv(m, s)
    ensures Inv(m, Execute(m, s, run))
    decreases |run|
  {
    if run != [] {
      StepKeepsInv(m, s, run[0]);
      RunKeepsInv(m, Next(m, s, run[0]), run[1..]);
    }
  }

  lemma InitialInv(m: Mesh)
    requires m.Valid()
    ensures Inv(m, Initial(m))
  {
  }

  // ------------------------------------------------------------ main results

  /** In every run no node accepts an id twice, and only nodes the id can reach from an origin accept it. */
  lemma {:induction false} FloodIsSafe(m: Mesh, run: seq<Step>)
    requires m.Valid()
    ensures var s := Execute(m, Initial(m), run);
      && s.seen.Keys == m.nodes
      && (forall n :: n in m.nodes ==> Distinct(s.seen[n].accepted))
      && (forall n, id :: Accepted(s, n, id) ==> Reachable(m, s.origins, n, id))
  {
    InitialInv(m);
    RunKeepsInv(m, Initial(m), run);
  }

  lemma {:induction false} WalkIsAccepted(m: Mesh, s: State, origin: NodeId, path: seq<nat>, node: NodeId,
      id: MessageId)
    requires Inv(m, s) && s.flight == multiset{} && (origin, id) in s.origins && Walk(m, origin, path, node, id)
    ensures Accepted(s, node, id)
  {
    if path != [] {
      var last := path[|path| - 1];
      WalkIsAccepted(m, s, origin, path[..|path| - 1], m.links[last].from, id);
    }
  }

  /** Once nothing is in flight, the nodes that accepted an id are exactly those it can reach. */
  lemma {:induction false} FloodReachesExactly(m: Mesh, run: seq<Step>)
    requires m.Valid()
    ensures var s := Execute(m, Initial(m), run);
      s.flight == multiset{} ==> forall n, id :: Accepted(s, n, id) <==> Reachable(m, s.origins, n, id)
  {
    InitialInv(m);
    RunKeepsInv(m, Initial(m), run);
    var s := Execute(m, Initial(m), run);
    if s.flight == multiset{} {
      forall n: NodeId, id: MessageId | Reachable(m, s.origins, n, id)
        ensures Accepted(s, n, id)
      {
        var origin, path :| (origin, id) in s.origins && Walk(m, origin, path, n, id);
        WalkIsAccepted(m, s, origin, path, n, id);
      }
    }
  }

  // ------------------------------------------------------------- termination

  function Pairs(m: Mesh): set<(NodeId, MessageId)> {
    set n, id | n in m.nodes && id in m.messages :: (n, id)
  }

  function Unseen(m: Mesh, s: State): set<(NodeId, MessageId)> {
    set p | p in Pairs(m) && !Accepted(s, p.0, p.1)
  }

  /** Each pair not seen yet can still put one copy on every link; each copy can still arrive. */
  function Measure(m: Mesh, s: State): nat {
    Weight(|m.links|, |Unseen(m, s)|) + |s.flight|
  }

  function Weight(links: nat, unseen: nat): nat {
    (links + 1) * unseen
  }

  lemma WeightStep(links: nat, unseen: nat)
    requires unseen > 0
    ensures Weight(links, unseen) == Weight(links, unseen - 1) + links + 1
  {
  }

  lemma AcceptMeasure(m: Mesh, s: State, node: NodeId, id: MessageId)
    requires m.Valid() && Windows(m, s) && node in m.nodes && id in m.messages
    ensures Measure(m, Accept(m, s, node, id)) <= Measure(m, s)
  {
    AcceptEffect(m, s, node, id);
    var after := Accept(m, s, node, id);
    if Accepted(s, node, id) {
      assert Unseen(m, after) == Unseen(m, s);
      assert after.flight == s.flight;
    } else {
      assert (node, id) in Unseen(m, s);
      assert Unseen(m, after) == Unseen(m, s) - {(node, id)};
      WeightStep(|m.links|, |Unseen(m, s)|);
    }
  }

  predicate IsArrival(m: Mesh, s: State, step: Step) {
    step.Arrive? && Enabled(m, s, step)
  }

  /** No step adds to the measure, and each arrival takes from it. */
  lemma StepMeasure(m: Mesh, s: State, step: Step)
    requires Inv(m, s)
    ensures Measure(m, Next(m, s, step)) + (if IsArrival(m, s, step) then 1 else 0) <= Measure(m, s)
  {
    if Enabled(m, s, step) {
      match step
      case Publish(node, id) =>
        var marked := s.(origins := s.origins + {(node, id)});
        AcceptMeasure(m, marked, node, id);
        assert Unseen(m, marked) == Unseen(m, s);
      case Arrive(link, id) =>
        var taken := s.(flight := s.flight - multiset{(link, id)});
        AcceptMeasure(m, taken, m.links[link].to, id);
        assert Unseen(m, taken) == Unseen(m, s);
        assert |taken.flight| == |s.flight| - 1;
    }
  }

  function Arrivals(m: Mesh, s: State, run: seq<Step>): nat
    decreases |run|
  {
    if run == [] then 0
    else (if IsArrival(m, s, run[0]) then 1 else 0) + Arrivals(m, Next(m, s, run[0]), run[1..])
  }

  lemma {:induction false} ArrivalsWithinMeasure(m: Mesh, s: State, run: seq<Step>)
    requires Inv(m, s)
    ensures Arrivals(m, s, run) + Measure(m, Execute(m, s, run)) <= Measure(m, s)
    decreases |run|
  {
    if run != [] {
      StepMeasure(m, s, run[0]);
      StepKeepsInv(m, s, run[0]);
      ArrivalsWithinMeasure(m, Next(m, s, run[0]), run[1..]);
    }
  }

  /** However the nodes publish and the links deliver, the flood ends: so many copies arrive, and no more. */
  lemma {:induction false} FloodTerminates(m: Mesh, run: seq<Step>)
    requires m.Valid()
    ensures Arrivals(m, Initial(m), run) <= Weight(|m.links|, |Pairs(m)|)
  {
    InitialInv(m);
    ArrivalsWithinMeasure(m, Initial(m), run);
    assert Unseen(m, Initial(m)) == Pairs(m);
  }

  // -------------------------------------------------- why the bound is needed

  /** Two nodes linked both ways, and one message more than a window holds, all of which both links carry. */
  ghost predicate TooSmall(m: Mesh, ids: seq<MessageId>) {
    && m.nodes == {0, 1} && |ids| == m.capacity + 1
    && |m.links| == 2 && m.links[0] == Link(0, 1, m.links[0].filter) && m.links[1] == Link(1, 0, m.links[1].filter)
    && forall id :: id in ids ==> id in m.messages && m.Carries(0, id) && m.Carries(1, id)
  }

  /** All ids but the `k`th, from the next one on around: what a window that has seen them in turn ends in. */
  function Others(ids: seq<MessageId>, k: nat): seq<MessageId>
    requires k < |ids|
  {
    ids[k + 1..] + ids[..k]
  }

  /** The window remembers the newest of the other ids and nothing else. */
  ghost predicate Turning(w: Window, ids: seq<MessageId>, k: nat) {
    && k < |ids| == w.capacity + 1
    && exists n: nat :: n <= w.capacity && Last(w.accepted, w.capacity) == Last(Others(ids, k), n)
  }

  function After(ids: seq<MessageId>, k: nat): nat {
    if k + 1 < |ids| then k + 1 else 0
  }

  lemma OthersTurn(ids: seq<MessageId>, k: nat)
    requires k < |ids| && |ids| > 1
    ensures Others(ids, After(ids, k)) == Others(ids, k)[1..] + [ids[k]]
  {
    if k + 1 < |ids| {
      assert ids[k + 1..][1..] == ids[k + 2..];
      assert ids[..k + 1] == ids[..k] + [ids[k]];
    } else {
      assert ids[k + 1..] == [] && [] + ids[..k] == ids[..k];
      assert ids[1..] == ids[..k][1..] + [ids[k]];
    }
  }

  /** Letting go of the oldest while taking in a new one, on a window that may not be full yet. */
  lemma LastTurns(others: seq<MessageId>, id: MessageId, n: nat)
    requires n <= |others| && |others| > 0
    ensures Last(Last(others, n) + [id], |others|) == Last(others[1..] + [id], if n < |others| then n + 1 else n)
  {
  }

  /** Accepting the id whose turn it is turns the window to the next one. */
  lemma TurningTurns(w: Window, ids: seq<MessageId>, k: nat)
    requires Turning(w, ids, k)
    ensures Turning(w.(accepted := w.accepted + [ids[k]]), ids, After(ids, k))
  {
    var after := w.(accepted := w.accepted + [ids[k]]);
    if w.capacity == 0 {
      assert Last(after.accepted, 0) == [] == Last(Others(ids, After(ids, k)), 0);
    } else {
      var others := Others(ids, k);
      var n: nat :| n <= w.capacity && Last(w.accepted, w.capacity) == Last(others, n);
      LastAppend(w.accepted, ids[k], w.capacity);
      LastTurns(others, ids[k], n);
      OthersTurn(ids, k);
      assert Last(after.accepted, w.capacity) == Last(Others(ids, After(ids, k)), if n < w.capacity then n + 1 else n);
    }
  }

  function EachOnFirstLink(ids: seq<MessageId>): Flight {
    if ids == [] then multiset{} else multiset{(0, ids[0])} + EachOnFirstLink(ids[1..])
  }

  lemma {:induction false} EachIsOnFirstLink(ids: seq<MessageId>)
    ensures forall id :: id in ids ==> (0, id) in EachOnFirstLink(ids)
  {
    if ids != [] {
      EachIsOnFirstLink(ids[1..]);
      assert ids == [ids[0]] + ids[1..];
    }
  }

  /** Every message is on its way from node 0, and both windows await the `k`th. */
  ghost predicate Circling(m: Mesh, s: State, ids: seq<MessageId>, k: nat) {
    && s.seen.Keys == {0, 1} && s.seen[0].capacity == m.capacity && s.seen[1].capacity == m.capacity
    && Turning(s.seen[0], ids, k) && Turning(s.seen[1], ids, k)
    && s.flight == EachOnFirstLink(ids)
  }

  /** One arrival: the copy is accepted anew and goes back the other way. */
  lemma Bounce(m: Mesh, s: State, link: nat, id: MessageId)
    requires link < |m.links| == 2 && m.links[link].to == 1 - link
      && Copies(m, 2, 1 - link, id) == multiset{(1 - link, id)}
    requires 1 - link in s.seen && (link, id) in s.flight && !s.seen[1 - link].Remembers(id)
    ensures IsArrival(m, s, Arrive(link, id))
    ensures Next(m, s, Arrive(link, id)) == Bounced(s, link, id)
  {
  }

  function Bounced(s: State, link: nat, id: MessageId): State
    requires link < 2 && 1 - link in s.seen
  {
    s.(seen := s.seen[1 - link := s.seen[1 - link].(accepted := s.seen[1 - link].accepted + [id])],
       flight := s.flight - multiset{(link, id)} + multiset{(1 - link, id)})
  }

  lemma BouncedCopies(m: Mesh, ids: seq<MessageId>, link: nat, id: MessageId)
    requires TooSmall(m, ids) && link < 2 && id in ids
    ensures Copies(m, 2, 1 - link, id) == multiset{(1 - link, id)}
  {
    assert m.Carries(0, id) && m.Carries(1, id);
    assert Copies(m, 0, 1 - link, id) == multiset{};
    assert Copies(m, 1, 1 - link, id) == if link == 1 then multiset{(0, id)} else multiset{};
    assert Copies(m, 2, 1 - link, id) == multiset{(1 - link, id)};
  }

  lemma {:induction false} ArrivalsConcat(m: Mesh, s: State, first: seq<Step>, second: seq<Step>)
    ensures Execute(m, s, first + second) == Execute(m, Execute(m, s, first), second)
    ensures Arrivals(m, s, first + second) == Arrivals(m, s, first) + Arrivals(m, Execute(m, s, first), second)
    decreases |first|
  {
    if first == [] {
      assert first + second == second;
    } else {
      assert (first + second)[1..] == first[1..] + second;
      ArrivalsConcat(m, Next(m, s, first[0]), first[1..], second);
    }
  }


  function Trip(id: MessageId): seq<Step> {
    [Arrive(0, id), Arrive(1, id)]
  }

  lemma {:induction false} TwoSteps(m: Mesh, s: State, id: MessageId)
    ensures var a := Next(m, s, Arrive(0, id));
      && Execute(m, s, Trip(id)) == Next(m, a, Arrive(1, id))
      && Arrivals(m, s, Trip(id)) ==
         (if IsArrival(m, s, Arrive(0, id)) then 1 else 0) + (if IsArrival(m, a, Arrive(1, id)) then 1 else 0)
  {
    var a := Next(m, s, Arrive(0, id));
    assert Trip(id)[1..] == [Arrive(1, id)];
    assert [Arrive(1, id)][1..] == [];
    assert Execute(m, a, [Arrive(1, id)]) == Next(m, a, Arrive(1, id));
    assert Arrivals(m, a, [Arrive(1, id)]) == if IsArrival(m, a, Arrive(1, id)) then 1 else 0;
  }

  /** A copy that neither end remembers goes there and back, accepted afresh both times. */
  lemma {:induction false} ThereAndBack(m: Mesh, s: State, id: MessageId)
    requires |m.links| == 2 && m.links[0].to == 1 && m.links[1].to == 0
    requires Copies(m, 2, 0, id) == multiset{(0, id)} && Copies(m, 2, 1, id) == multiset{(1, id)}
    requires s.seen.Keys == {0, 1} && (0, id) in s.flight && !s.seen[0].Remembers(id) && !s.seen[1].Remembers(id)
    ensures Arrivals(m, s, Trip(id)) == 2
    ensures var after := Execute(m, s, Trip(id));
      && after.seen.Keys == {0, 1} && after.flight == s.flight
      && after.seen[0] == s.seen[0].(accepted := s.seen[0].accepted + [id])
      && after.seen[1] == s.seen[1].(accepted := s.seen[1].accepted + [id])
  {
    Bounce(m, s, 0, id);
    Bounce(m, Bounced(s, 0, id), 1, id);
    TwoSteps(m, s, id);
    assert s.flight - multiset{(0, id)} + multiset{(1, id)} - multiset{(1, id)} + multiset{(0, id)} == s.flight;
  }

  /** A copy goes there and back, accepted afresh both times, and then it is the next one's turn. */
  lemma {:induction false} TripTurns(m: Mesh, s: State, ids: seq<MessageId>, k: nat)
    requires TooSmall(m, ids) && Distinct(ids) && k < |ids| && Circling(m, s, ids, k)
    ensures Arrivals(m, s, Trip(ids[k])) == 2
    ensures Circling(m, Execute(m, s, Trip(ids[k])), ids, After(ids, k))
  {
    var id := ids[k];
    EachIsOnFirstLink(ids);
    BouncedCopies(m, ids, 0, id);
    BouncedCopies(m, ids, 1, id);
    ThereAndBack(m, s, id);
    TurningTurns(s.seen[0], ids, k);
    TurningTurns(s.seen[1], ids, k);
  }

  /** Trip after trip, for as long as one likes. */
  lemma {:induction false} TripsTurn(m: Mesh, s: State, ids: seq<MessageId>, k: nat, trips: nat)
    returns (run: seq<Step>)
    requires TooSmall(m, ids) && Distinct(ids) && k < |ids| && Circling(m, s, ids, k)
    ensures Arrivals(m, s, run) == 2 * trips
    decreases trips
  {
    if trips == 0 {
      run := [];
    } else {
      TripTurns(m, s, ids, k);
      var rest := TripsTurn(m, Execute(m, s, Trip(ids[k])), ids, After(ids, k), trips - 1);
      run := Trip(ids[k]) + rest;
      ArrivalsConcat(m, s, Trip(ids[k]), rest);
    }
  }

  function PublishEach(ids: seq<MessageId>): seq<Step> {
    if ids == [] then [] else PublishEach(ids[..|ids| - 1]) + [Publish(0, ids[|ids| - 1])]
  }

  lemma {:induction false} EachOnFirstLinkAppend(ids: seq<MessageId>, id: MessageId)
    ensures EachOnFirstLink(ids + [id]) == EachOnFirstLink(ids) + multiset{(0, id)}
  {
    if ids == [] {
      assert [id][1..] == [];
    } else {
      assert (ids + [id])[1..] == ids[1..] + [id];
      EachOnFirstLinkAppend(ids[1..], id);
    }
  }

  /** Publishing distinct ids at node 0: all accepted there, one copy of each on its way to node 1. */
  lemma {:induction false} PublishedEach(m: Mesh, ids: seq<MessageId>, published: seq<MessageId>)
    requires TooSmall(m, ids) && Distinct(published) && forall id :: id in published ==> id in ids
    ensures var s := Execute(m, Initial(m), PublishEach(published));
      && s.seen == map[0 := Window(m.capacity, published), 1 := Window(m.capacity, [])]
      && s.flight == EachOnFirstLink(published)
    decreases |published|
  {
    if published == [] {
      assert Initial(m).seen == map[0 := Window(m.capacity, []), 1 := Window(m.capacity, [])];
    } else {
      var init, last := published[..|published| - 1], published[|published| - 1];
      assert published == init + [last];
      PublishedEach(m, ids, init);
      ArrivalsConcat(m, Initial(m), PublishEach(init), [Publish(0, last)]);
      var s := Execute(m, Initial(m), PublishEach(init));
      EachOnFirstLinkAppend(init, last);
      assert last !in init;
      PublishedOne(m, ids, s, init, last);
    }
  }

  lemma PublishedOne(m: Mesh, ids: seq<MessageId>, s: State, before: seq<MessageId>, id: MessageId)
    requires TooSmall(m, ids) && id in ids && id !in before
    requires s.seen == map[0 := Window(m.capacity, before), 1 := Window(m.capacity, [])]
    ensures var after := Next(m, s, Publish(0, id));
      && after.seen == map[0 := Window(m.capacity, before + [id]), 1 := Window(m.capacity, [])]
      && after.flight == s.flight + multiset{(0, id)}
  {
    BouncedCopies(m, ids, 1, id);
    assert id in m.messages && !s.seen[0].Remembers(id);
    assert s.seen[0 := Window(m.capacity, before + [id])] ==
      map[0 := Window(m.capacity, before + [id]), 1 := Window(m.capacity, [])];
  }

  lemma {:induction false} PublishedCircles(m: Mesh, ids: seq<MessageId>)
    requires TooSmall(m, ids) && Distinct(ids)
    ensures Circling(m, Execute(m, Initial(m), PublishEach(ids)), ids, 0)
  {
    PublishedEach(m, ids, ids);
    assert Others(ids, 0) == ids[1..] by { assert ids[1..] + ids[..0] == ids[1..]; }
    assert Last(ids, m.capacity) == ids[1..] == Last(ids[1..], m.capacity);
    assert Last([], m.capacity) == [] == Last(ids[1..], 0);
  }

  /** Such a mesh, for any capacity: both links carry everything. */
  function SmallMesh(capacity: nat): Mesh {
    Mesh({0, 1}, [Link(0, 1, "#"), Link(1, 0, "#")],
         map id: MessageId | id <= capacity :: Envelope(id, "t", [], false), capacity)
  }

  lemma SmallMeshIsTooSmall(capacity: nat) returns (ids: seq<MessageId>)
    ensures TooSmall(SmallMesh(capacity), ids) && Distinct(ids)
    ensures Elements(ids) == SmallMesh(capacity).messages.Keys
  {
    ids := seq(capacity + 1, i => i);
    SplitWithoutDot("#");
    var m := SmallMesh(capacity);
    forall id | id in ids
      ensures id in m.messages && m.Carries(0, id) && m.Carries(1, id)
    {
      assert Matches("#", m.messages[id].topic);
    }
    forall id: MessageId | id <= capacity
      ensures id in ids
    {
      assert ids[id] == id;
    }
  }

  /**
   * With one message more than a window holds, whatever the capacity, a flood can go on for as long as one
   * likes: on two nodes linked both ways, after each message was published once, there are runs with any
   * number of arrivals.
   */
  lemma SmallWindowsFloodForever(capacity: nat, trips: nat) returns (run: seq<Step>)
    ensures var m := SmallMesh(capacity);
      && m.capacity == capacity && |m.messages.Keys| == capacity + 1 && |m.links| == 2
      && Arrivals(m, Initial(m), run) >= 2 * trips
  {
    var m := SmallMesh(capacity);
    var ids := SmallMeshIsTooSmall(capacity);
    DistinctSize(ids);
    PublishedCircles(m, ids);
    var circling := Execute(m, Initial(m), PublishEach(ids));
    var rest := TripsTurn(m, circling, ids, 0, trips);
    run := PublishEach(ids) + rest;
    ArrivalsConcat(m, Initial(m), PublishEach(ids), rest);
  }
}
