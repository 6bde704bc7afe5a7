/**
 * The registry of live peer links: for each peer, one entry per registration. Every registration
 * hands out a guard, and dropping the guard takes one entry away again.
 */
module PeerLinks {
  import opened Common
  import opened Sequences
  import opened TopicFilters

  /** The identity of a connection's outgoing queue: what two clones of one sender have in common. */
  type ChannelId = nat

  datatype Link = Link(channel: ChannelId, principal: Principal)

  type Links = map<PeerId, seq<Link>>

  /** Which topics may be announced to which identities; none configured means all. */
  type PeerFilter = Option<set<(Principal, Topic)>>

  /** A wildcard is never announced while anything is configured. */
  predicate MayHear(peerFilter: PeerFilter, principal: Principal, filter: TopicFilter) {
    peerFilter.Some? ==> IsLiteral(filter) && (principal, filter) in peerFilter.value
  }

  function Entries(links: Links, peer: PeerId): seq<Link> {
    if peer in links then links[peer] else []
  }

  function Registered(links: Links, peer: PeerId, link: Link): Links {
    links[peer := Entries(links, peer) + [link]]
  }

  /** The position of the first entry on `channel`, or the number of entries. */
  function FirstOn(entries: seq<Link>, channel: ChannelId): (i: nat)
    ensures i <= |entries|
    ensures i < |entries| ==> entries[i].channel == channel
    ensures forall j :: 0 <= j < i ==> entries[j].channel != channel
  {
    if entries == [] || entries[0].channel == channel then 0
    else
      var i := 1 + FirstOn(entries[1..], channel);
      assert forall j :: 1 <= j < i ==> entries[j] == entries[1..][j - 1];
      i
  }

  /** One entry on the channel goes, if there is one; a peer with no entry left goes too. */
  function Unregistered(links: Links, peer: PeerId, channel: ChannelId): Links {
    if peer !in links then links
    else
      var i := FirstOn(links[peer], channel);
      var rest := if i < |links[peer]| then RemoveAt(links[peer], i) else links[peer];
      if rest == [] then links - {peer} else links[peer := rest]
  }

  class PeerLinks {
    var links: Links

    constructor ()
      ensures links == map[]
    {
      links := map[];
    }

    method Register(peer: PeerId, link: Link)
      modifies this
      ensures links == Registered(old(links), peer, link)
      ensures links == old(links)[peer := Entries(old(links), peer) + [link]]
    {
      if peer !in links {
        links := links[peer := []];
      }
      links := links[peer := links[peer] + [link]];
      assert links == Registered(old(links), peer, link);
    }

    method Unregister(peer: PeerId, channel: ChannelId)
      modifies this
      ensures links == Unregistered(old(links), peer, channel)
    {
      if peer !in links { return; }
      var entries := links[peer];
      var i := 0;
      while i < |entries| && entries[i].channel != channel
        invariant i <= |entries|
        invariant forall j :: 0 <= j < i ==> entries[j].channel != channel
      {
        i := i + 1;
      }
      assert i == FirstOn(entries, channel);
      if i < |entries| {
        entries := RemoveAt(entries, i);
      }
      links := if entries == [] then links - {peer} else links[peer := entries];
    }

    /**
     * The channels an announcement about `filter` is sent to: one send per entry whose identity may
     * hear of it, peer by peer in some order. Without a filter configured, everyone.
     */
    method InterestSenders(filter: TopicFilter, peerFilter: PeerFilter) returns (senders: seq<ChannelId>)
      ensures exists order: seq<PeerId> ::
        Distinct(order) && Elements(order) == links.Keys && senders == SendersTo(links, order, filter, peerFilter)
      ensures AreSenders(links, filter, peerFilter, senders)
    {
      ghost var order: seq<PeerId> := [];
      senders := [];
      var remaining := links.Keys;
      while remaining != {}
        invariant remaining !! Elements(order) && remaining + Elements(order) == links.Keys
        invariant Distinct(order) && senders == SendersTo(links, order, filter, peerFilter)
      {
        var peer :| peer in remaining;
        assert peer !in Elements(order);
        DistinctAppend(order, peer);
        var more := Permitted(links[peer], filter, peerFilter);
        senders := senders + more;
        order := order + [peer];
        remaining := remaining - {peer};
      }
      SendersToAre(links, order, filter, peerFilter);
    }

    method Permitted(entries: seq<Link>, filter: TopicFilter, peerFilter: PeerFilter) returns (senders: seq<ChannelId>)
      ensures senders == Hearing(entries, filter, peerFilter)
    {
      senders := [];
      for i := 0 to |entries|
        invariant senders == Hearing(entries[..i], filter, peerFilter)
      {
        assert entries[..i + 1][..i] == entries[..i];
        if MayHear(peerFilter, entries[i].principal, filter) {
          senders := senders + [entries[i].channel];
        }
      }
      assert entries[..|entries|] == entries;
    }
  }

  function Hearing(entries: seq<Link>, filter: TopicFilter, peerFilter: PeerFilter): seq<ChannelId> {
    if entries == [] then []
    else
      var last, before := entries[|entries| - 1], Hearing(entries[..|entries| - 1], filter, peerFilter);
      if MayHear(peerFilter, last.principal, filter) then before + [last.channel] else before
  }

  function SendersTo(links: Links, order: seq<PeerId>, filter: TopicFilter, peerFilter: PeerFilter): seq<ChannelId> {
    if order == [] then []
    else
      SendersTo(links, order[..|order| - 1], filter, peerFilter) +
      Hearing(Entries(links, order[|order| - 1]), filter, peerFilter)
  }

  /** An entry on the channel that may hear of the filter: nothing is configured, or exactly that pair is. */
  predicate Listens(link: Link, filter: TopicFilter, peerFilter: PeerFilter, channel: ChannelId) {
    && link.channel == channel
    && (peerFilter.None? || (IsLiteral(filter) && (link.principal, filter) in peerFilter.value))
  }

  /** All such entries of some peers: whose they are, and at which position. */
  function Listening(links: Links, peers: set<PeerId>, filter: TopicFilter, peerFilter: PeerFilter,
      channel: ChannelId): set<(PeerId, nat)> {
    set peer, i: nat | peer in peers && peer in links && i < |links[peer]|
      && Listens(links[peer][i], filter, peerFilter, channel) :: (peer, i)
  }

  /** One send for each entry that may hear of the filter, and no other. */
  ghost predicate AreSenders(links: Links, filter: TopicFilter, peerFilter: PeerFilter, senders: seq<ChannelId>) {
    forall c: ChannelId ::
      && Sends(senders, c) == |Listening(links, links.Keys, filter, peerFilter, c)|
      && (c in senders <==> SomeoneListens(links, filter, peerFilter, c))
  }

  function Sends(senders: seq<ChannelId>, channel: ChannelId): nat {
    multiset(senders)[channel]
  }

  ghost predicate SomeoneListens(links: Links, filter: TopicFilter, peerFilter: PeerFilter, channel: ChannelId) {
    exists peer, i ::
      peer in links && 0 <= i < |links[peer]| && Listens(links[peer][i], filter, peerFilter, channel)
  }

  /** The positions of one peer's entries on a channel that may hear of the filter, among the first `k`. */
  function Positions(entries: seq<Link>, k: nat, filter: TopicFilter, peerFilter: PeerFilter,
      channel: ChannelId): set<nat>
    requires k <= |entries|
  {
    set i: nat | i < k && Listens(entries[i], filter, peerFilter, channel)
  }

  lemma OnePositionMore(entries: seq<Link>, k: nat, filter: TopicFilter, peerFilter: PeerFilter, channel: ChannelId)
    requires k < |entries|
    ensures |Positions(entries, k + 1, filter, peerFilter, channel)| ==
      |Positions(entries, k, filter, peerFilter, channel)| +
      if Listens(entries[k], filter, peerFilter, channel) then 1 else 0
  {
    var before := Positions(entries, k, filter, peerFilter, channel);
    var now := Positions(entries, k + 1, filter, peerFilter, channel);
    if Listens(entries[k], filter, peerFilter, channel) {
      assert now == before + {k} && k !in before;
    } else {
      assert now == before;
    }
  }

  lemma {:induction false} OneEntryMore(entries: seq<Link>, k: nat, filter: TopicFilter, peerFilter: PeerFilter,
      channel: ChannelId)
    requires k < |entries|
    ensures Sends(Hearing(entries[..k + 1], filter, peerFilter), channel) ==
      Sends(Hearing(entries[..k], filter, peerFilter), channel) +
      if Listens(entries[k], filter, peerFilter, channel) then 1 else 0
  {
    assert entries[..k + 1][..k] == entries[..k];
  }

  lemma {:induction false} HearingIs(entries: seq<Link>, k: nat, filter: TopicFilter, peerFilter: PeerFilter,
      channel: ChannelId)
    requires k <= |entries|
    ensures Sends(Hearing(entries[..k], filter, peerFilter), channel) ==
      |Positions(entries, k, filter, peerFilter, channel)|
    decreases k
  {
    if k == 0 {
      assert Positions(entries, 0, filter, peerFilter, channel) == {};
    } else {
      HearingIs(entries, k - 1, filter, peerFilter, channel);
      OneEntryMore(entries, k - 1, filter, peerFilter, channel);
      OnePositionMore(entries, k - 1, filter, peerFilter, channel);
    }
  }

  function AtPeer(peer: PeerId, positions: set<nat>): set<(PeerId, nat)> {
    set i | i in positions :: (peer, i)
  }

  lemma {:induction false} AtPeerSize(peer: PeerId, positions: set<nat>)
    ensures |AtPeer(peer, positions)| == |positions|
    decreases positions
  {
    if positions == {} {
      assert AtPeer(peer, positions) == {};
    } else {
      var i :| i in positions;
      AtPeerSize(peer, positions - {i});
      assert AtPeer(peer, positions) == AtPeer(peer, positions - {i}) + {(peer, i)};
    }
  }

  lemma OnePeerMore(links: Links, peers: set<PeerId>, peer: PeerId, filter: TopicFilter, peerFilter: PeerFilter,
      channel: ChannelId)
    requires peer in links && peer !in peers
    ensures |Listening(links, peers + {peer}, filter, peerFilter, channel)| ==
      |Listening(links, peers, filter, peerFilter, channel)| +
      |Positions(links[peer], |links[peer]|, filter, peerFilter, channel)|
  {
    var before, now := Listening(links, peers, filter, peerFilter, channel),
      Listening(links, peers + {peer}, filter, peerFilter, channel);
    var positions := Positions(links[peer], |links[peer]|, filter, peerFilter, channel);
    var its := AtPeer(peer, positions);
    AtPeerSize(peer, positions);
    forall at
      ensures at in now <==> at in before + its
    {
    }
    assert now == before + its && before !! its;
  }

  lemma {:induction false} SendersToCount(links: Links, order: seq<PeerId>, filter: TopicFilter, peerFilter: PeerFilter,
      channel: ChannelId)
    requires Distinct(order) && Elements(order) <= links.Keys
    ensures Sends(SendersTo(links, order, filter, peerFilter), channel) ==
      |Listening(links, Elements(order), filter, peerFilter, channel)|
    decreases |order|
  {
    if order == [] {
      assert Listening(links, {}, filter, peerFilter, channel) == {};
      assert Elements(order) == {};
    } else {
      var init, last := order[..|order| - 1], order[|order| - 1];
      assert order == init + [last];
      assert last in Elements(order) && last !in Elements(init);
      assert Elements(order) == Elements(init) + {last};
      SendersToCount(links, init, filter, peerFilter, channel);
      OnePeerMore(links, Elements(init), last, filter, peerFilter, channel);
      HearingIs(links[last], |links[last]|, filter, peerFilter, channel);
      assert links[last][..|links[last]|] == links[last];
    }
  }

  lemma {:induction false} SendersToAre(links: Links, order: seq<PeerId>, filter: TopicFilter, peerFilter: PeerFilter)
    requires Distinct(order) && Elements(order) == links.Keys
    ensures AreSenders(links, filter, peerFilter, SendersTo(links, order, filter, peerFilter))
  {
    var senders := SendersTo(links, order, filter, peerFilter);
    forall c: ChannelId
      ensures Sends(senders, c) == |Listening(links, links.Keys, filter, peerFilter, c)|
      ensures c in senders <==> SomeoneListens(links, filter, peerFilter, c)
    {
      SendersToCount(links, order, filter, peerFilter, c);
      assert c in senders <==> c in multiset(senders);
      ListeningIsSome(links, filter, peerFilter, c);
    }
  }

  lemma ListeningIsSome(links: Links, filter: TopicFilter, peerFilter: PeerFilter, channel: ChannelId)
    ensures |Listening(links, links.Keys, filter, peerFilter, channel)| > 0 <==>
      SomeoneListens(links, filter, peerFilter, channel)
  {
    var listening := Listening(links, links.Keys, filter, peerFilter, channel);
    if |listening| > 0 {
      var at :| at in listening;
    }
    if peer, i :| peer in links && 0 <= i < |links[peer]| && Listens(links[peer][i], filter, peerFilter, channel) {
      assert (peer, i) in listening;
    }
  }

  // ------------------------------------------------------------------- guards

  /** `guards` are the registrations not dropped yet. */
  datatype State = State(links: Links, guards: multiset<(PeerId, ChannelId)>)

  datatype Step = Register(peer: PeerId, link: Link) | DropGuard(peer: PeerId, channel: ChannelId)

  function Next(s: State, step: Step): State {
    match step
    case Register(peer, link) => State(Registered(s.links, peer, link), s.guards + multiset{(peer, link.channel)})
    case DropGuard(peer, channel) =>
      if (peer, channel) in s.guards
      then State(Unregistered(s.links, peer, channel), s.guards - multiset{(peer, channel)})
      else s
  }

  function Execute(s: State, run: seq<Step>): State
    decreases |run|
  {
    if run == [] then s else Execute(Next(s, run[0]), run[1..])
  }

  function CountOn(entries: seq<Link>, channel: ChannelId): nat {
    if entries == [] then 0
    else (if entries[0].channel == channel then 1 else 0) + CountOn(entries[1..], channel)
  }

  lemma {:induction false} CountOnConcat(a: seq<Link>, b: seq<Link>, channel: ChannelId)
    ensures CountOn(a + b, channel) == CountOn(a, channel) + CountOn(b, channel)
  {
    if a == [] {
      assert a + b == b;
    } else {
      assert (a + b)[1..] == a[1..] + b;
      CountOnConcat(a[1..], b, channel);
    }
  }

  lemma {:induction false} CountOnRemove(entries: seq<Link>, i: nat, channel: ChannelId)
    requires i < |entries|
    ensures CountOn(entries, channel) ==
      CountOn(RemoveAt(entries, i), channel) + if entries[i].channel == channel then 1 else 0
  {
    var before, after := entries[..i], entries[i + 1..];
    assert entries == before + ([entries[i]] + after);
    CountOnConcat(before, [entries[i]] + after, channel);
    CountOnConcat([entries[i]], after, channel);
    CountOnConcat(before, after, channel);
  }

  lemma {:induction false} CountOnPositive(entries: seq<Link>, channel: ChannelId)
    ensures CountOn(entries, channel) > 0 <==> FirstOn(entries, channel) < |entries|
  {
    if entries != [] && entries[0].channel != channel { CountOnPositive(entries[1..], channel); }
  }

  /** As many entries on each channel as live guards, and no peer without an entry. */
  ghost predicate Balanced(s: State) {
    && (forall peer: PeerId, channel: ChannelId ::
       CountOn(Entries(s.links, peer), channel) == s.guards[(peer, channel)])
    && (forall peer :: peer in s.links ==> s.links[peer] != [])
  }

  lemma RegisterBalances(s: State, peer: PeerId, link: Link)
    requires Balanced(s)
    ensures Balanced(Next(s, Register(peer, link)))
  {
    var after := Next(s, Register(peer, link));
    forall p: PeerId, c: ChannelId
      ensures CountOn(Entries(after.links, p), c) == after.guards[(p, c)]
    {
      assert CountOn(Entries(s.links, p), c) == s.guards[(p, c)];
      CountOnConcat(Entries(s.links, p), [link], c);
    }
  }

  lemma DropBalances(s: State, peer: PeerId, channel: ChannelId)
    requires Balanced(s)
    ensures Balanced(Next(s, DropGuard(peer, channel)))
  {
    if (peer, channel) in s.guards {
      var after := Next(s, DropGuard(peer, channel));
      var entries := Entries(s.links, peer);
      CountOnPositive(entries, channel);
      assert CountOn(entries, channel) == s.guards[(peer, channel)];
      var i := FirstOn(entries, channel);
      forall p: PeerId, c: ChannelId
        ensures CountOn(Entries(after.links, p), c) == after.guards[(p, c)]
      {
        assert CountOn(Entries(s.links, p), c) == s.guards[(p, c)];
        if p == peer { CountOnRemove(entries, i, c); }
      }
    }
  }

  lemma {:induction false} RunBalances(s: State, run: seq<Step>)
    requires Balanced(s)
    ensures Balanced(Execute(s, run))
    decreases |run|
  {
    if run != [] {
      match run[0] {
        case Register(peer, link) => RegisterBalances(s, peer, link);
        case DropGuard(peer, channel) => DropBalances(s, peer, channel);
      }
      RunBalances(Next(s, run[0]), run[1..]);
    }
  }

  /**
   * In every order of registrations and drops, repeated registrations on one channel included: the
   * entries are those of the live guards, each as often as there are guards for it.
   */
  lemma {:induction false} EntriesAreGuards(run: seq<Step>)
    ensures Balanced(Execute(State(map[], multiset{}), run))
  {
    RunBalances(State(map[], multiset{}), run);
  }

  /** A registration is one entry more; its guard dropped again, entries and peers are as before. */
  lemma {:induction false} RegisterThenDrop(s: State, peer: PeerId, link: Link)
    requires Balanced(s)
    ensures var registered := Next(s, Register(peer, link));
      && peer in registered.links
      && CountOn(Entries(registered.links, peer), link.channel) == CountOn(Entries(s.links, peer), link.channel) + 1
    ensures var after := Execute(s, [Register(peer, link), DropGuard(peer, link.channel)]);
      && after.guards == s.guards
      && (forall p: PeerId, c: ChannelId :: CountOn(Entries(after.links, p), c) == CountOn(Entries(s.links, p), c))
      && (forall p :: p in after.links <==> p in s.links)
  {
    var run := [Register(peer, link), DropGuard(peer, link.channel)];
    var mid := Next(s, run[0]);
    assert run[1..] == [run[1]] && run[1..][1..] == [];
    CountOnConcat(Entries(s.links, peer), [link], link.channel);
    RegisterBalances(s, peer, link);
    DropBalances(mid, peer, link.channel);
    var after := Next(mid, run[1]);
    assert Execute(s, run) == Execute(mid, [run[1]]) == Execute(after, []) == after;
    forall p: PeerId, c: ChannelId
      ensures CountOn(Entries(after.links, p), c) == CountOn(Entries(s.links, p), c)
    {
      assert CountOn(Entries(s.links, p), c) == s.guards[(p, c)];
      assert CountOn(Entries(after.links, p), c) == after.guards[(p, c)];
    }
    forall p
      ensures p in after.links <==> p in s.links
    {
      ListedIffEntries(s, p);
      ListedIffEntries(after, p);
    }
  }

  lemma {:induction false} ListedIffEntries(s: State, peer: PeerId)
    requires Balanced(s)
    ensures peer in s.links <==> exists c: ChannelId :: CountOn(Entries(s.links, peer), c) > 0
  {
    if peer in s.links { assert CountOn(Entries(s.links, peer), s.links[peer][0].channel) > 0; }
  }

  /** So a peer is listed exactly while one of its guards lives. */
  lemma {:induction false} ListedWhileGuarded(run: seq<Step>, peer: PeerId)
    ensures var s := Execute(State(map[], multiset{}), run);
      peer in s.links <==> exists channel: ChannelId :: (peer, channel) in s.guards
  {
    EntriesAreGuards(run);
    var s := Execute(State(map[], multiset{}), run);
    if peer in s.links {
      var first := s.links[peer][0];
      assert CountOn(Entries(s.links, peer), first.channel) > 0;
      assert (peer, first.channel) in s.guards;
    }
    forall channel: ChannelId | (peer, channel) in s.guards
      ensures peer in s.links
    {
      assert CountOn(Entries(s.links, peer), channel) == s.guards[(peer, channel)];
    }
  }

  /** A stale drop, whose entry is gone already, changes nothing. */
  lemma {:induction false} StaleUnregisterIsIgnored(links: Links, peer: PeerId, channel: ChannelId)
    requires forall p :: p in links ==> links[p] != []
    ensures Unregistered(links, peer, channel) == links <==> CountOn(Entries(links, peer), channel) == 0
  {
    CountOnPositive(Entries(links, peer), channel);
    if peer in links {
      var i := FirstOn(links[peer], channel);
      if i < |links[peer]| { assert |RemoveAt(links[peer], i)| < |links[peer]|; }
    }
  }
}
