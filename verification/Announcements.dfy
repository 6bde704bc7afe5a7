/**
 * What a node tells its peer links about its interest: on the first and last connection interested in
 * a filter, when a link registers, and when the peer-topic-filter is reloaded. A step is what a handler
 * does between two awaits: a subscribe counts, and announces only once its ack is sent. No link loses a
 * message.
 */
module Announcements {
  import opened Common
  import opened Sequences
  import opened TopicFilters
  import opened Interest
  import opened PeerLinks

  datatype Announcement = Subscribe(filter: TopicFilter) | Unsubscribe(filter: TopicFilter)

  /**
   * `unacked` are the subscribes that were first for their filter and are at their ack. `sent` is everything
   * sent on each registered link, in order.
   */
  datatype Node = Node(
    counts: Counts,
    unacked: multiset<TopicFilter>,
    peerFilter: PeerFilter,
    links: map<ChannelId, Principal>,
    sent: map<ChannelId, seq<Announcement>>)

  /** `order` is the order in which the interested filters are gone through. */
  datatype Step =
    | Gained(filter: TopicFilter)
    | Acked(filter: TopicFilter)
    | AckFailed(filter: TopicFilter)
    | Lost(filter: TopicFilter)
    | Register(channel: ChannelId, principal: Principal, order: seq<TopicFilter>)
    | Drop(channel: ChannelId)
    | Reload(peerFilter: PeerFilter, order: seq<TopicFilter>)

  /** An interest transition goes to every link that may hear of the filter. */
  function Broadcast(node: Node, a: Announcement): map<ChannelId, seq<Announcement>> {
    map c | c in node.sent ::
      if c in node.links && MayHear(node.peerFilter, node.links[c], a.filter) then node.sent[c] + [a] else node.sent[c]
  }

  /** What a new link is told: the filters of interest that it may hear of. */
  function CatchUp(peerFilter: PeerFilter, principal: Principal, order: seq<TopicFilter>): seq<Announcement> {
    if order == [] then []
    else
      var f, before := order[|order| - 1], CatchUp(peerFilter, principal, order[..|order| - 1]);
      if MayHear(peerFilter, principal, f) then before + [Subscribe(f)] else before
  }

  /** What a link is told after a reload about one filter of interest: of a wildcard, nothing to anyone restricted. */
  function Restated(peerFilter: PeerFilter, principal: Principal, f: TopicFilter): Option<Announcement> {
    if peerFilter.None? then Some(Subscribe(f))
    else if !IsLiteral(f) then None
    else Some(if (principal, f) in peerFilter.value then Subscribe(f) else Unsubscribe(f))
  }

  function Reconciled(peerFilter: PeerFilter, principal: Principal, order: seq<TopicFilter>): seq<Announcement> {
    if order == [] then []
    else
      var before, a := Reconciled(peerFilter, principal, order[..|order| - 1]),
        Restated(peerFilter, principal, order[|order| - 1]);
      if a.Some? then before + [a.value] else before
  }

  function ReconcileAll(node: Node, order: seq<TopicFilter>): map<ChannelId, seq<Announcement>> {
    map c | c in node.sent ::
      if c in node.links then node.sent[c] + Reconciled(node.peerFilter, node.links[c], order) else node.sent[c]
  }

  predicate Lists(order: seq<TopicFilter>, counts: Counts) {
    Elements(order) == counts.Keys
  }

  predicate Enabled(node: Node, step: Step) {
    match step
    case Gained(_) => true
    case Acked(f) => f in node.unacked
    case AckFailed(f) => f in node.unacked
    case Lost(_) => true
    case Register(channel, principal, order) =>
      Lists(order, node.counts) && (channel in node.links ==> node.links[channel] == principal)
    case Drop(channel) => channel in node.links
    case Reload(_, order) => Lists(order, node.counts)
  }

  function Next(node: Node, step: Step): Node {
    if !Enabled(node, step) then node
    else match step
      case Gained(f) =>
        var (counts, first) := Gain(node.counts, f);
        node.(counts := counts, unacked := if first then node.unacked + multiset{f} else node.unacked)
      case Acked(f) => node.(unacked := node.unacked - multiset{f}, sent := Broadcast(node, Subscribe(f)))
      case AckFailed(f) => node.(unacked := node.unacked - multiset{f})
      case Lost(f) =>
        var (counts, last) := Lose(node.counts, f);
        node.(counts := counts, sent := if last then Broadcast(node, Unsubscribe(f)) else node.sent)
      case Register(channel, principal, order) =>
        var before := if channel in node.sent then node.sent[channel] else [];
        node.(links := node.links[channel := principal],
              sent := node.sent[channel := before + CatchUp(node.peerFilter, principal, order)])
      case Drop(channel) => node.(links := node.links - {channel}, sent := node.sent - {channel})
      case Reload(peerFilter, order) =>
        var reloaded := node.(peerFilter := peerFilter);
        if peerFilter == node.peerFilter then reloaded else reloaded.(sent := ReconcileAll(reloaded, order))
  }

  function Execute(node: Node, run: seq<Step>): Node
    decreases |run|
  {
    if run == [] then node else Execute(Next(node, run[0]), run[1..])
  }

  function NewNode(peerFilter: PeerFilter): Node {
    Node(map[], multiset{}, peerFilter, map[], map[])
  }

  // ----------------------------------------------------------- the registry

  /** The registry has an entry for each link, and no others, under the link's identity. */
  ghost predicate Registers(links: Links, node: Node) {
    && (forall peer, i :: peer in links && 0 <= i < |links[peer]| ==>
          var link := links[peer][i];
          link.channel in node.links && node.links[link.channel] == link.principal)
    && (forall c :: c in node.links ==> HasEntry(links, c))
  }

  ghost predicate HasEntry(links: Links, channel: ChannelId) {
    exists peer, i :: peer in links && 0 <= i < |links[peer]| && links[peer][i].channel == channel
  }

  /** The links an announcement goes to are those the registry names as its senders. */
  lemma BroadcastGoesToSenders(node: Node, links: Links, a: Announcement, senders: seq<ChannelId>)
    requires Registers(links, node) && AreSenders(links, a.filter, node.peerFilter, senders)
    ensures forall c :: c in senders ==> c in node.links
    ensures forall c :: c in node.sent && c in node.links ==>
      Broadcast(node, a)[c] == node.sent[c] + if c in senders then [a] else []
  {
    forall c | c in node.links
      ensures c in senders <==> MayHear(node.peerFilter, node.links[c], a.filter)
    {
      assert c in senders <==> SomeoneListens(links, a.filter, node.peerFilter, c);
      var peer, i :| peer in links && 0 <= i < |links[peer]| && links[peer][i].channel == c;
      assert Listens(links[peer][i], a.filter, node.peerFilter, c) <==>
        MayHear(node.peerFilter, node.links[c], a.filter);
    }
    forall c | c in senders
      ensures c in node.links
    {
      assert SomeoneListens(links, a.filter, node.peerFilter, c);
    }
  }

  // ------------------------------------------------------- what a link was told

  /** Whether the last announcement about `filter` is that there is interest. */
  predicate Told(log: seq<Announcement>, filter: TopicFilter) {
    log != [] &&
    if log[|log| - 1].filter == filter then log[|log| - 1].Subscribe? else Told(log[..|log| - 1], filter)
  }

  lemma {:induction false} ToldAppend(log: seq<Announcement>, a: Announcement, filter: TopicFilter)
    ensures Told(log + [a], filter) <==> if a.filter == filter then a.Subscribe? else Told(log, filter)
  {
    assert (log + [a])[..|log|] == log;
  }

  lemma {:induction false} ToldCatchUp(log: seq<Announcement>, peerFilter: PeerFilter, principal: Principal,
      order: seq<TopicFilter>, f: TopicFilter)
    ensures Told(log + CatchUp(peerFilter, principal, order), f) <==>
      Told(log, f) || (f in order && MayHear(peerFilter, principal, f))
  {
    if order == [] {
      assert log + [] == log;
    } else {
      var init, g := order[..|order| - 1], order[|order| - 1];
      assert order == init + [g];
      var before := CatchUp(peerFilter, principal, init);
      ToldCatchUp(log, peerFilter, principal, init, f);
      assert log + (before + [Subscribe(g)]) == (log + before) + [Subscribe(g)];
      ToldAppend(log + before, Subscribe(g), f);
    }
  }

  lemma {:induction false} ToldReconciled(log: seq<Announcement>, peerFilter: PeerFilter, principal: Principal,
      order: seq<TopicFilter>, f: TopicFilter)
    ensures Told(log + Reconciled(peerFilter, principal, order), f) <==>
      if f in order && (peerFilter.None? || IsLiteral(f)) then MayHear(peerFilter, principal, f) else Told(log, f)
  {
    if order == [] {
      assert log + [] == log;
    } else {
      var init, g := order[..|order| - 1], order[|order| - 1];
      assert order == init + [g];
      var before, a := Reconciled(peerFilter, principal, init), Restated(peerFilter, principal, g);
      ToldReconciled(log, peerFilter, principal, init, f);
      if a.Some? {
        assert log + (before + [a.value]) == (log + before) + [a.value];
        ToldAppend(log + before, a.value, f);
      }
    }
  }

  /** The link was last told of interest exactly if there is some and it may hear of it. */
  predicate Accurate(node: Node, c: ChannelId, f: TopicFilter)
    requires c in node.links && c in node.sent
  {
    Told(node.sent[c], f) <==> f in node.counts && MayHear(node.peerFilter, node.links[c], f)
  }

  ghost predicate Sane(node: Node) {
    Positive(node.counts) && node.sent.Keys == node.links.Keys
  }

  /** A wildcard that was announced to everyone and is now withheld: nothing withdraws it. */
  predicate Forgets(node: Node, step: Step, f: TopicFilter) {
    && step.Reload? && Enabled(node, step) && !IsLiteral(f) && f in node.counts
    && node.peerFilter.None? && step.peerFilter.Some?
  }

  /** What a link that stays has been told of a filter after a step. */
  predicate ToldNext(node: Node, step: Step, c: ChannelId, f: TopicFilter)
    requires c in node.links && c in node.sent
  {
    var principal := node.links[c];
    match step
    case Gained(_) => Told(node.sent[c], f)
    case Acked(g) => if g == f && MayHear(node.peerFilter, principal, f) then true else Told(node.sent[c], f)
    case AckFailed(_) => Told(node.sent[c], f)
    case Lost(g) =>
      if g == f && Count(node.counts, f) == 1 && MayHear(node.peerFilter, principal, f) then false
      else Told(node.sent[c], f)
    case Register(channel, _, _) =>
      Told(node.sent[c], f) || (channel == c && f in node.counts && MayHear(node.peerFilter, principal, f))
    case Drop(_) => Told(node.sent[c], f)
    case Reload(peerFilter, _) =>
      if peerFilter != node.peerFilter && f in node.counts && (peerFilter.None? || IsLiteral(f))
      then MayHear(peerFilter, principal, f) else Told(node.sent[c], f)
  }

  lemma {:induction false} StepTells(node: Node, step: Step, c: ChannelId, f: TopicFilter)
    requires Sane(node) && Enabled(node, step) && c in node.links && c in Next(node, step).links
    ensures var after := Next(node, step);
      && after.sent.Keys == after.links.Keys && after.links[c] == node.links[c]
      && (Told(after.sent[c], f) <==> ToldNext(node, step, c, f))
  {
    match step
    case Acked(g) => ToldAppend(node.sent[c], Subscribe(g), f);
    case Lost(g) => ToldAppend(node.sent[c], Unsubscribe(g), f);
    case Register(_, principal, order) =>
      ToldCatchUp(node.sent[c], node.peerFilter, principal, order, f);
      assert f in order <==> f in Elements(order);
    case Reload(peerFilter, order) =>
      ToldReconciled(node.sent[c], peerFilter, node.links[c], order, f);
      assert f in order <==> f in Elements(order);
    case _ =>
  }

  /** Interest begins, and is announced later. */
  predicate Begins(node: Node, step: Step, c: ChannelId, f: TopicFilter)
    requires c in node.links
  {
    step == Gained(f) && f !in node.counts && MayHear(node.peerFilter, node.links[c], f)
  }

  /** Interest that has meanwhile ended is announced. */
  predicate Belated(node: Node, step: Step, c: ChannelId, f: TopicFilter)
    requires c in node.links
  {
    step == Acked(f) && f in node.unacked && f !in node.counts && MayHear(node.peerFilter, node.links[c], f)
  }

  /**
   * For a link that stays, and any filter at all: a step leaves what the link was told accurate, unless it is
   * the count of a first subscribe, the announcement of interest that has ended, or the reload that puts the
   * first peer-topic-filter over a wildcard of interest.
   */
  lemma StepKeepsAccurate(node: Node, step: Step, c: ChannelId, f: TopicFilter)
    requires Sane(node) && c in node.links && c in Next(node, step).links && Accurate(node, c, f)
    ensures Sane(Next(node, step))
    ensures Accurate(Next(node, step), c, f) <==>
      !(Forgets(node, step, f) || Begins(node, step, c, f) || Belated(node, step, c, f))
  {
    if Enabled(node, step) { StepTells(node, step, c, f); }
  }

  /** A link that has just registered was told accurately of everything, wildcards included. */
  lemma NewLinkIsAccurate(node: Node, channel: ChannelId, principal: Principal, order: seq<TopicFilter>, f: TopicFilter)
    requires Sane(node) && channel !in node.links && Lists(order, node.counts)
    ensures var after := Next(node, Step.Register(channel, principal, order));
      Sane(after) && channel in after.links && Accurate(after, channel, f)
  {
    ToldCatchUp([], node.peerFilter, principal, order, f);
    assert f in order <==> f in Elements(order);
  }

  /** A link that registers and is dropped again leaves nothing behind. */
  lemma {:induction false} DroppedLinkIsGone(node: Node, channel: ChannelId, principal: Principal,
      order: seq<TopicFilter>)
    requires Sane(node) && channel !in node.links && Lists(order, node.counts)
    ensures Execute(node, [Step.Register(channel, principal, order), Drop(channel)]) == node
  {
    var run := [Step.Register(channel, principal, order), Drop(channel)];
    var mid := Next(node, run[0]);
    assert run[1..] == [Drop(channel)] && run[1..][1..] == [];
    assert Next(mid, Drop(channel)).links == node.links && Next(mid, Drop(channel)).sent == node.sent;
    assert Execute(node, run) == Execute(mid, [Drop(channel)]) == Execute(Next(mid, Drop(channel)), []);
  }

  // ------------------------------------------------------------ over whole runs

  /** What the link was told is true, and what it was not told yet an ack will tell it. */
  predicate Settled(node: Node, c: ChannelId, f: TopicFilter)
    requires c in node.links && c in node.sent
  {
    var due := f in node.counts && MayHear(node.peerFilter, node.links[c], f);
    if Told(node.sent[c], f) then due else due ==> f in node.unacked
  }

  ghost predicate AllSettled(node: Node, f: TopicFilter) {
    Sane(node) && forall c :: c in node.links ==> Settled(node, c, f)
  }

  /**
   * The two ways to leave a link misinformed: the ack of a first subscribe is sent after all interest has ended,
   * and announces it all the same; or that ack fails while somebody is interested, nobody else is about to
   * announce it, and the link has not been told on another occasion.
   */
  predicate Misinforms(node: Node, step: Step, c: ChannelId, f: TopicFilter)
    requires c in node.links && c in node.sent
  {
    && MayHear(node.peerFilter, node.links[c], f)
    && match step
       case Acked(g) => g == f && f in node.unacked && f !in node.counts
       case AckFailed(g) => g == f && node.unacked[f] == 1 && f in node.counts && !Told(node.sent[c], f)
       case _ => false
  }

  lemma StepSettlesIff(node: Node, step: Step, c: ChannelId, f: TopicFilter)
    requires Sane(node) && IsLiteral(f) && c in node.links && c in Next(node, step).links && Settled(node, c, f)
    ensures Sane(Next(node, step))
    ensures Settled(Next(node, step), c, f) <==> !Misinforms(node, step, c, f)
  {
    if Enabled(node, step) { StepTells(node, step, c, f); }
    StepKeepsSane(node, step);
  }

  /** A step misinforms some link that stays. */
  ghost predicate MisinformsSome(node: Node, step: Step, f: TopicFilter) {
    exists c :: c in node.links && c in node.sent && Misinforms(node, step, c, f)
  }

  /** One link after a step: informed as before, or newly registered and told the truth. */
  lemma LinkSettles(node: Node, step: Step, c: ChannelId, f: TopicFilter)
    requires AllSettled(node, f) && IsLiteral(f) && c in Next(node, step).links
    ensures c in Next(node, step).sent
    ensures Settled(Next(node, step), c, f) <==> !(c in node.links && Misinforms(node, step, c, f))
  {
    if c in node.links {
      StepSettlesIff(node, step, c, f);
    } else {
      NewLinkIsAccurate(node, c, step.principal, step.order, f);
    }
  }

  lemma StepSettlesAllIff(node: Node, step: Step, f: TopicFilter)
    requires AllSettled(node, f) && IsLiteral(f)
    ensures AllSettled(Next(node, step), f) <==> !MisinformsSome(node, step, f)
  {
    var after := Next(node, step);
    StepKeepsSane(node, step);
    if MisinformsSome(node, step, f) {
      var c :| c in node.links && c in node.sent && Misinforms(node, step, c, f);
      LinkSettles(node, step, c, f);
    } else {
      forall c | c in after.links
        ensures Settled(after, c, f)
      {
        LinkSettles(node, step, c, f);
      }
    }
  }

  lemma StepKeepsSane(node: Node, step: Step)
    requires Sane(node)
    ensures Sane(Next(node, step))
  {
  }

  ghost predicate SettledThroughout(node: Node, run: seq<Step>, f: TopicFilter)
    decreases |run|
  {
    AllSettled(node, f) && (run != [] ==> SettledThroughout(Next(node, run[0]), run[1..], f))
  }

  ghost predicate NeverMisinforms(node: Node, run: seq<Step>, f: TopicFilter)
    decreases |run|
  {
    run != [] ==> !MisinformsSome(node, run[0], f) && NeverMisinforms(Next(node, run[0]), run[1..], f)
  }

  /** All links stay rightly informed of a literal filter throughout a run if and only if no step misinforms one. */
  lemma {:induction false} SettledThroughoutIff(node: Node, run: seq<Step>, f: TopicFilter)
    requires AllSettled(node, f) && IsLiteral(f)
    ensures SettledThroughout(node, run, f) <==> NeverMisinforms(node, run, f)
    ensures NeverMisinforms(node, run, f) ==> AllSettled(Execute(node, run), f)
    decreases |run|
  {
    if run != [] {
      StepSettlesAllIff(node, run[0], f);
      if AllSettled(Next(node, run[0]), f) {
        SettledThroughoutIff(Next(node, run[0]), run[1..], f);
      } else {
        assert !SettledThroughout(Next(node, run[0]), run[1..], f);
      }
    }
  }

  /**
   * In every such run, for every registered link and every literal filter with no first subscribe at its ack:
   * the last announcement sent on the link is Subscribe if and only if the node is interested and the current
   * peer-topic-filter permits it.
   */
  lemma {:induction false} LinksAreToldTheTruth(peerFilter: PeerFilter, run: seq<Step>, f: TopicFilter)
    requires IsLiteral(f) && NeverMisinforms(NewNode(peerFilter), run, f)
    ensures var node := Execute(NewNode(peerFilter), run);
      && node.sent.Keys == node.links.Keys
      && (f !in node.unacked ==> forall c :: c in node.links ==>
            (Told(node.sent[c], f) <==> f in node.counts && MayHear(node.peerFilter, node.links[c], f)))
  {
    SettledThroughoutIff(NewNode(peerFilter), run, f);
    var node := Execute(NewNode(peerFilter), run);
    forall c | c in node.links && f !in node.unacked
      ensures Told(node.sent[c], f) <==> f in node.counts && MayHear(node.peerFilter, node.links[c], f)
    {
      assert Settled(node, c, f);
    }
  }

  /** No ack of the run fails, and no interest ends while its first subscribe is at its ack. */
  predicate AcksComeInTime(node: Node, run: seq<Step>, f: TopicFilter)
    decreases |run|
  {
    run != [] ==>
      && run[0] != AckFailed(f)
      && !(run[0] == Lost(f) && Count(node.counts, f) == 1 && f in node.unacked)
      && AcksComeInTime(Next(node, run[0]), run[1..], f)
  }

  lemma TimelyStepMisinformsNobody(node: Node, step: Step, f: TopicFilter)
    requires Positive(node.counts) && (f in node.unacked ==> f in node.counts)
    requires step != AckFailed(f) && !(step == Lost(f) && Count(node.counts, f) == 1 && f in node.unacked)
    ensures !MisinformsSome(node, step, f)
    ensures Positive(Next(node, step).counts) && (f in Next(node, step).unacked ==> f in Next(node, step).counts)
  {
  }

  /** Then no step misinforms anyone. */
  lemma {:induction false} TimelyAcksMisinformNobody(node: Node, run: seq<Step>, f: TopicFilter)
    requires Positive(node.counts) && (f in node.unacked ==> f in node.counts) && AcksComeInTime(node, run, f)
    ensures NeverMisinforms(node, run, f)
    decreases |run|
  {
    if run != [] {
      TimelyStepMisinformsNobody(node, run[0], f);
      TimelyAcksMisinformNobody(Next(node, run[0]), run[1..], f);
    }
  }

  // ----------------------------------------------------------------- three runs

  lemma {:induction false} ExecuteOneMore(node: Node, run: seq<Step>, step: Step)
    ensures Execute(node, run + [step]) == Next(Execute(node, run), step)
    decreases |run|
  {
    if run == [] {
      assert [] + [step] == [step] && [step][1..] == [];
    } else {
      assert (run + [step])[1..] == run[1..] + [step];
      ExecuteOneMore(Next(node, run[0]), run[1..], step);
    }
  }

  /** A node with one link, which may hear everything. */
  function Linked(counts: Counts, unacked: multiset<TopicFilter>, c: ChannelId, principal: Principal,
      sent: seq<Announcement>): Node {
    Node(counts, unacked, None, map[c := principal], map[c := sent])
  }

  lemma LinkIsTold(node: Node, c: ChannelId, principal: Principal, sent: seq<Announcement>, a: Announcement)
    requires node.peerFilter.None? && node.links == map[c := principal] && node.sent == map[c := sent]
    ensures Broadcast(node, a) == map[c := sent + [a]]
  {
  }

  /** A link registers, and a first connection subscribes, up to its ack. */
  function FirstCounts(c: ChannelId, principal: Principal, f: TopicFilter): seq<Step> {
    [Step.Register(c, principal, [])] + [Gained(f)]
  }

  lemma FirstIsCounted(c: ChannelId, principal: Principal, f: TopicFilter)
    ensures Execute(NewNode(None), FirstCounts(c, principal, f)) == Linked(map[f := 1], multiset{f}, c, principal, [])
  {
    var register := Step.Register(c, principal, []);
    assert [] + [register] == [register];
    ExecuteOneMore(NewNode(None), [], register);
    ExecuteOneMore(NewNode(None), [register], Gained(f));
    assert multiset{} + multiset{f} == multiset{f};
    assert Next(NewNode(None), register) == Linked(map[], multiset{}, c, principal, []);
  }

  /** Interest nobody is told of: the first subscribe's ack fails, after a second connection has subscribed. */
  lemma FailedAckIsNotAnnounced(c: ChannelId, principal: Principal, f: TopicFilter)
    ensures Execute(NewNode(None), FirstCounts(c, principal, f) + [Gained(f)] + [AckFailed(f)] + [Lost(f)]) ==
      Linked(map[f := 1], multiset{}, c, principal, [])
  {
    var run := FirstCounts(c, principal, f);
    FirstIsCounted(c, principal, f);
    ExecuteOneMore(NewNode(None), run, Gained(f));
    assert Execute(NewNode(None), run + [Gained(f)]) == Linked(map[f := 2], multiset{f}, c, principal, []);
    ExecuteOneMore(NewNode(None), run + [Gained(f)], AckFailed(f));
    assert multiset{f} - multiset{f} == multiset{};
    ExecuteOneMore(NewNode(None), run + [Gained(f)] + [AckFailed(f)], Lost(f));
  }

  /** Interest announced after it has ended: a sweep takes the forwarder while the ack is on its way. */
  lemma EndedInterestIsAnnounced(c: ChannelId, principal: Principal, f: TopicFilter)
    ensures Execute(NewNode(None), FirstCounts(c, principal, f) + [Lost(f)] + [Acked(f)]) ==
      Linked(map[], multiset{}, c, principal, [Unsubscribe(f), Subscribe(f)])
  {
    var run, one := FirstCounts(c, principal, f), Linked(map[f := 1], multiset{f}, c, principal, []);
    FirstIsCounted(c, principal, f);
    ExecuteOneMore(NewNode(None), run, Lost(f));
    LinkIsTold(one, c, principal, [], Unsubscribe(f));
    assert [] + [Unsubscribe(f)] == [Unsubscribe(f)];
    var none := Linked(map[], multiset{f}, c, principal, [Unsubscribe(f)]);
    assert Next(one, Lost(f)) == none;
    ExecuteOneMore(NewNode(None), run + [Lost(f)], Acked(f));
    LinkIsTold(none, c, principal, [Unsubscribe(f)], Subscribe(f));
    assert [Unsubscribe(f)] + [Subscribe(f)] == [Unsubscribe(f), Subscribe(f)];
    assert multiset{f} - multiset{f} == multiset{};
  }

  lemma WildcardIsNotRestated(node: Node, f: TopicFilter)
    requires !IsLiteral(f) && node.counts.Keys == {f} && node.peerFilter.None?
    ensures Next(node, Reload(Some({}), [f])) == node.(peerFilter := Some({}))
  {
    assert [f][..0] == [] && Elements([f]) == {f};
    forall c | c in node.links
      ensures Reconciled(Some({}), node.links[c], [f]) == []
    {
    }
    forall c | c in node.sent
      ensures node.sent[c] + [] == node.sent[c]
    {
    }
    assert ReconcileAll(node.(peerFilter := Some({})), [f]) == node.sent;
  }

  lemma FirstIsAnnounced(c: ChannelId, principal: Principal, f: TopicFilter)
    ensures Execute(NewNode(None), FirstCounts(c, principal, f) + [Acked(f)]) ==
      Linked(map[f := 1], multiset{}, c, principal, [Subscribe(f)])
  {
    FirstIsCounted(c, principal, f);
    ExecuteOneMore(NewNode(None), FirstCounts(c, principal, f), Acked(f));
    LinkIsTold(Linked(map[f := 1], multiset{f}, c, principal, []), c, principal, [], Subscribe(f));
    assert [] + [Subscribe(f)] == [Subscribe(f)] && multiset{f} - multiset{f} == multiset{};
  }

  /** Nobody hears of a filter that the peer-topic-filter gives to nobody. */
  lemma NobodyHears(node: Node, f: TopicFilter)
    requires node.peerFilter == Some({}) && node.counts == map[f := 1]
    ensures Next(node, Lost(f)) == node.(counts := map[])
  {
    assert Broadcast(node, Unsubscribe(f)) == node.sent;
  }

  /** A wildcard announced for good: it is announced to everyone, a filter is configured, and interest ends. */
  lemma WildcardGoesStale(c: ChannelId, principal: Principal, f: TopicFilter)
    requires !IsLiteral(f)
    ensures Execute(NewNode(None), FirstCounts(c, principal, f) + [Acked(f)] + [Reload(Some({}), [f])] + [Lost(f)]) ==
      Linked(map[], multiset{}, c, principal, [Subscribe(f)]).(peerFilter := Some({}))
  {
    var run, told := FirstCounts(c, principal, f) + [Acked(f)],
      Linked(map[f := 1], multiset{}, c, principal, [Subscribe(f)]);
    FirstIsAnnounced(c, principal, f);
    ExecuteOneMore(NewNode(None), run, Reload(Some({}), [f]));
    WildcardIsNotRestated(told, f);
    ExecuteOneMore(NewNode(None), run + [Reload(Some({}), [f])], Lost(f));
    NobodyHears(told.(peerFilter := Some({})), f);
  }

  /** The link keeps its registration and some peer-topic-filter stays configured throughout. */
  predicate StaysRestricted(run: seq<Step>, c: ChannelId) {
    forall i :: 0 <= i < |run| ==> run[i] != Drop(c) && (run[i].Reload? ==> run[i].peerFilter.Some?)
  }

  /** A wildcard the link was told of then stays told, even after the node has lost all interest in it. */
  lemma {:induction false} StaleWildcardStays(node: Node, run: seq<Step>, c: ChannelId, f: TopicFilter)
    requires Sane(node) && c in node.links && node.peerFilter.Some? && !IsLiteral(f)
    requires Told(node.sent[c], f) && StaysRestricted(run, c)
    ensures var after := Execute(node, run);
      c in after.links && c in after.sent && Told(after.sent[c], f)
    decreases |run|
  {
    if run != [] {
      var after := Next(node, run[0]);
      if Enabled(node, run[0]) { StepTells(node, run[0], c, f); }
      StaleWildcardStays(after, run[1..], c, f);
    }
  }

  // ------------------------------------------------------------------ the sweep

  /** The outgoing queues of the registered links. */
  class Wire {
    var sent: map<ChannelId, seq<Announcement>>

    method Send(channel: ChannelId, a: Announcement)
      requires channel in sent
      modifies this
      ensures sent == old(sent)[channel := old(sent)[channel] + [a]]
    {
      sent := sent[channel := sent[channel] + [a]];
    }

    /** One link's part of the sweep after a reload: each filter of interest restated, if it may be. */
    method Restate(channel: ChannelId, principal: Principal, order: seq<TopicFilter>, peerFilter: PeerFilter)
      requires channel in sent
      modifies this
      ensures sent == old(sent)[channel := old(sent)[channel] + Reconciled(peerFilter, principal, order)]
    {
      assert sent[channel] + [] == sent[channel];
      assert sent == sent[channel := sent[channel]];
      for i := 0 to |order|
        invariant sent == old(sent)[channel := old(sent)[channel] + Reconciled(peerFilter, principal, order[..i])]
      {
        assert order[..i + 1][..i] == order[..i];
        ghost var before := Reconciled(peerFilter, principal, order[..i]);
        var a := Restated(peerFilter, principal, order[i]);
        if a.Some? {
          assert old(sent)[channel] + (before + [a.value]) == old(sent)[channel] + before + [a.value];
          Send(channel, a.value);
        }
      }
      assert order[..|order|] == order;
    }

    /** The whole sweep, link by link. */
    method Reconcile(links: map<ChannelId, Principal>, order: seq<TopicFilter>, peerFilter: PeerFilter)
      requires sent.Keys == links.Keys
      modifies this
      ensures forall counts, unacked :: sent == ReconcileAll(Node(counts, unacked, peerFilter, links, old(sent)), order)
    {
      var remaining := links.Keys;
      while remaining != {}
        invariant sent.Keys == links.Keys && remaining <= links.Keys
        invariant forall c :: c in links ==>
          sent[c] == if c in remaining then old(sent)[c] else old(sent)[c] + Reconciled(peerFilter, links[c], order)
      {
        var c :| c in remaining;
        Restate(c, links[c], order, peerFilter);
        remaining := remaining - {c};
      }
    }
  }
}
