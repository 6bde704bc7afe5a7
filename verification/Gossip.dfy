/**
 * Peer gossip: a node that links to a peer, or hears of peers it did not know, tells all of its links.
 * Links are directed, one for each end of a connection; none of them loses a message, and directories
 * are large enough to forget nobody, so what a node knows is a set.
 */
module Gossip {
  import opened Common
  import opened Sequences
  import opened PeerDirectory

  datatype Link = Link(from: PeerId, to: PeerId)

  datatype Network = Network(nodes: set<PeerId>, links: seq<Link>) {
    ghost predicate Valid() {
      forall i :: 0 <= i < |links| ==> links[i].from in nodes && links[i].to in nodes
    }
  }

  type Flight = multiset<(nat, set<PeerId>)>

  /** `active` are the registered links; `introduced` remembers every dialable peer some node linked to. */
  datatype State = State(known: map<PeerId, set<PeerId>>, active: set<nat>, flight: Flight, introduced: set<PeerId>)

  /** A peer that gave no listen address is not `dialable` and not gossiped about. */
  datatype Step = Register(link: nat, dialable: bool) | Deliver(link: nat, peers: set<PeerId>)

  function Known(s: State, node: PeerId): set<PeerId> {
    if node in s.known then s.known[node] else {}
  }

  /** One announcement on each active link of `node`, among the first `k` links. */
  function Announced(n: Network, active: set<nat>, k: nat, node: PeerId, peers: set<PeerId>): (sent: Flight)
    requires k <= |n.links|
    ensures |sent| <= k
  {
    if k == 0 then multiset{}
    else if k - 1 in active && n.links[k - 1].from == node
    then Announced(n, active, k - 1, node, peers) + multiset{(k - 1, peers)}
    else Announced(n, active, k - 1, node, peers)
  }

  /** Records the peers not known yet, and passes those on to every active link, unless there are none. */
  function Learn(n: Network, s: State, node: PeerId, peers: set<PeerId>): State {
    var unheard := peers - {node} - Known(s, node);
    if unheard == {} then s
    else s.(known := s.known[node := Known(s, node) + unheard],
            flight := s.flight + Announced(n, s.active, |n.links|, node, unheard))
  }

  predicate Enabled(n: Network, s: State, step: Step) {
    match step
    case Register(i, _) => i < |n.links|
    case Deliver(i, peers) => i < |n.links| && (i, peers) in s.flight
  }

  /** Recording the peer at the other end of a new link, and telling every link of it, the new one included. */
  function Introduce(n: Network, s: State, i: nat, dialable: bool): State
    requires i < |n.links|
  {
    var node, peer := n.links[i].from, n.links[i].to;
    if !dialable then s
    else if peer in Known(s, node) then s.(introduced := s.introduced + {peer})
    else s.(known := s.known[node := Known(s, node) + {peer}],
            flight := s.flight + Announced(n, s.active, |n.links|, node, {peer}),
            introduced := s.introduced + {peer})
  }

  /** The new link is caught up on everyone else known. */
  function CatchUp(n: Network, s: State, i: nat): State
    requires i < |n.links|
  {
    var others := Known(s, n.links[i].from) - {n.links[i].to};
    if others == {} then s else s.(flight := s.flight + multiset{(i, others)})
  }

  function Next(n: Network, s: State, step: Step): State {
    if !Enabled(n, s, step) then s
    else match step
      case Register(i, dialable) => CatchUp(n, Introduce(n, s.(active := s.active + {i}), i, dialable), i)
      case Deliver(i, peers) => Learn(n, s.(flight := s.flight - multiset{(i, peers)}), n.links[i].to, peers)
  }

  function Execute(n: Network, s: State, run: seq<Step>): State
    decreases |run|
  {
    if run == [] then s else Execute(n, Next(n, s, run[0]), run[1..])
  }

  const QUIET := State(map[], {}, multiset{}, {})

  // ------------------------------------------------------------------ learning

  function Ids(adverts: seq<(PeerId, Address)>): set<PeerId> {
    set a | a in adverts :: a.0
  }

  /** Of two nodes that learn about each other, the one with the lower id dials. */
  function DialList(node: PeerId, learned: seq<(PeerId, Address)>): seq<Address> {
    if learned == [] then []
    else
      var last, before := learned[|learned| - 1], DialList(node, learned[..|learned| - 1]);
      if node < last.0 then before + [last.1] else before
  }

  /** A node never learns of itself, and of others only once. */
  method LearnOne(directory: PeerDirectory, node: PeerId, advert: (PeerId, Address), ghost universe: set<PeerId>)
    returns (isNew: bool)
    requires Valid(directory.State())
    requires directory.known.Keys + {advert.0} <= universe && |universe| <= directory.capacity
    modifies directory
    ensures Valid(directory.State())
    ensures directory.known == if advert.0 == node then old(directory.known)
      else old(directory.known)[advert.0 := advert.1]
    ensures isNew <==> advert.0 != node && advert.0 !in old(directory.known)
  {
    if advert.0 == node { return false; }
    NothingForgottenWithin(directory.State(), advert.0, advert.1, universe);
    isNew := directory.Record(advert.0, advert.1);
  }

  /** The addresses known after an announcement. */
  function HeardOf(known: map<PeerId, Address>, node: PeerId, adverts: seq<(PeerId, Address)>): map<PeerId, Address> {
    if adverts == [] then known
    else
      var last, before := adverts[|adverts| - 1], HeardOf(known, node, adverts[..|adverts| - 1]);
      if last.0 == node then before else before[last.0 := last.1]
  }

  /** Those of an announcement that are news, in order. */
  function News(known: map<PeerId, Address>, node: PeerId, adverts: seq<(PeerId, Address)>): seq<(PeerId, Address)> {
    if adverts == [] then []
    else
      var init, last := adverts[..|adverts| - 1], adverts[|adverts| - 1];
      if last.0 == node || last.0 in HeardOf(known, node, init) then News(known, node, init)
      else News(known, node, init) + [last]
  }

  /** As sets: the news are the announced peers but oneself and those known already. */
  lemma {:induction false} NewsAre(known: map<PeerId, Address>, node: PeerId, adverts: seq<(PeerId, Address)>)
    ensures HeardOf(known, node, adverts).Keys == known.Keys + (Ids(adverts) - {node})
    ensures Ids(News(known, node, adverts)) == Ids(adverts) - {node} - known.Keys
  {
    if adverts != [] {
      var init, last := adverts[..|adverts| - 1], adverts[|adverts| - 1];
      NewsAre(known, node, init);
      assert adverts == init + [last];
      IdsAppend(init, last);
      IdsAppend(News(known, node, init), last);
    }
  }

  lemma IdsAppend(adverts: seq<(PeerId, Address)>, advert: (PeerId, Address))
    ensures Ids(adverts + [advert]) == Ids(adverts) + {advert.0}
  {
    assert (adverts + [advert])[|adverts|] == advert;
  }

  /** The handler of one announcement: it learns exactly the news, and dials those above itself. */
  method LearnPeers(directory: PeerDirectory, node: PeerId, adverts: seq<(PeerId, Address)>,
      ghost universe: set<PeerId>)
    returns (learned: seq<(PeerId, Address)>, dial: seq<Address>)
    requires Valid(directory.State())
    requires directory.known.Keys <= universe && |universe| <= directory.capacity
    requires forall i :: 0 <= i < |adverts| ==> adverts[i].0 in universe
    modifies directory
    ensures Valid(directory.State())
    ensures directory.known == HeardOf(old(directory.known), node, adverts)
    ensures learned == News(old(directory.known), node, adverts)
    ensures dial == DialList(node, learned)
    ensures AreNews(old(directory.known), node, adverts, learned)
    ensures IsDialed(node, learned, dial) && IsHeard(old(directory.known), node, adverts, directory.known)
  {
    learned, dial := [], [];
    for i := 0 to |adverts|
      invariant Valid(directory.State()) && directory.known.Keys <= universe
      invariant directory.known == HeardOf(old(directory.known), node, adverts[..i])
      invariant learned == News(old(directory.known), node, adverts[..i])
      invariant dial == DialList(node, learned)
    {
      assert adverts[..i + 1][..i] == adverts[..i];
      var isNew := LearnOne(directory, node, adverts[i], universe);
      if isNew {
        if node < adverts[i].0 { dial := dial + [adverts[i].1]; }
        learned := learned + [adverts[i]];
      }
    }
    assert adverts[..|adverts|] == adverts;
    NewsAreNews(old(directory.known), node, adverts);
    ghost var places := DialListIs(node, learned);
    HeardOfIs(old(directory.known), node, adverts);
  }

  /** Each peer announced, other than oneself and those known already, once, with an address announced for it. */
  ghost predicate AreNews(known: map<PeerId, Address>, node: PeerId, adverts: seq<(PeerId, Address)>,
      learned: seq<(PeerId, Address)>) {
    && (forall i, j :: 0 <= i < j < |learned| ==> learned[i].0 != learned[j].0)
    && (forall a :: a in learned ==> a in adverts)
    && (forall p :: p in Ids(learned) <==> p in Ids(adverts) && p != node && p !in known)
  }

  lemma {:induction false} NewsAreNews(known: map<PeerId, Address>, node: PeerId, adverts: seq<(PeerId, Address)>)
    ensures AreNews(known, node, adverts, News(known, node, adverts))
    decreases |adverts|
  {
    NewsAre(known, node, adverts);
    if adverts != [] {
      var init, last := adverts[..|adverts| - 1], adverts[|adverts| - 1];
      assert adverts == init + [last];
      NewsAreNews(known, node, init);
      NewsAre(known, node, init);
      var before := News(known, node, init);
      forall i | 0 <= i < |before|
        ensures before[i].0 in Ids(before)
      {
        assert before[i] in before;
      }
    }
  }

  /** The addresses of those learned with an id above one's own, in order. */
  ghost predicate IsDialed(node: PeerId, learned: seq<(PeerId, Address)>, dial: seq<Address>) {
    exists places :: IsAbove(node, learned, dial, places)
  }

  ghost predicate IsAbove(node: PeerId, learned: seq<(PeerId, Address)>, dial: seq<Address>, places: seq<nat>) {
    && |places| == |dial|
    && (forall k :: 0 <= k < |places| ==>
          places[k] < |learned| && learned[places[k]].0 > node && learned[places[k]].1 == dial[k])
    && (forall k, k' :: 0 <= k < k' < |places| ==> places[k] < places[k'])
    && (forall i: nat :: i < |learned| && learned[i].0 > node ==> i in places)
  }

  lemma {:induction false} OneMoreAbove(node: PeerId, learned: seq<(PeerId, Address)>, dial: seq<Address>,
      places: seq<nat>, last: (PeerId, Address))
    requires IsAbove(node, learned, dial, places)
    ensures last.0 <= node ==> IsAbove(node, learned + [last], dial, places)
    ensures last.0 > node ==> IsAbove(node, learned + [last], dial + [last.1], places + [|learned|])
  {
    var more := if last.0 > node then places + [|learned|] else places;
    forall i: nat | i < |learned| + 1 && (learned + [last])[i].0 > node
      ensures i in more
    {
      if i < |learned| {
        assert i in places;
      } else {
        assert more[|places|] == i;
      }
    }
  }

  lemma {:induction false} DialListIs(node: PeerId, learned: seq<(PeerId, Address)>) returns (places: seq<nat>)
    ensures IsAbove(node, learned, DialList(node, learned), places)
    decreases |learned|
  {
    places := [];
    if learned != [] {
      var init, last := learned[..|learned| - 1], learned[|learned| - 1];
      assert learned == init + [last];
      places := DialListIs(node, init);
      OneMoreAbove(node, init, DialList(node, init), places, last);
      if last.0 > node { places := places + [|init|]; }
    }
  }

  /** `p` was announced with that address, and not again. */
  ghost predicate AnnouncedLast(adverts: seq<(PeerId, Address)>, p: PeerId, address: Address) {
    exists i :: 0 <= i < |adverts| && adverts[i] == (p, address) && p !in Ids(adverts[i + 1..])
  }

  /** Each peer announced has the address it was announced with last; the others have the ones they had. */
  ghost predicate IsHeard(known: map<PeerId, Address>, node: PeerId, adverts: seq<(PeerId, Address)>,
      after: map<PeerId, Address>) {
    && after.Keys == known.Keys + (Ids(adverts) - {node})
    && forall p :: p in after ==>
         if p == node || p !in Ids(adverts) then p in known && after[p] == known[p]
         else AnnouncedLast(adverts, p, after[p])
  }

  lemma {:induction false} OneMoreAnnounced(adverts: seq<(PeerId, Address)>, last: (PeerId, Address), p: PeerId,
      address: Address)
    requires if p == last.0 then address == last.1 else AnnouncedLast(adverts, p, address)
    ensures AnnouncedLast(adverts + [last], p, address)
  {
    var all := adverts + [last];
    if p == last.0 {
      assert all[|adverts|] == (p, address) && all[|adverts| + 1..] == [];
    } else {
      var i :| 0 <= i < |adverts| && adverts[i] == (p, address) && p !in Ids(adverts[i + 1..]);
      assert all[i] == (p, address) && all[i + 1..] == adverts[i + 1..] + [last];
      IdsAppend(adverts[i + 1..], last);
    }
  }

  lemma {:induction false} HeardOfIs(known: map<PeerId, Address>, node: PeerId, adverts: seq<(PeerId, Address)>)
    ensures IsHeard(known, node, adverts, HeardOf(known, node, adverts))
    decreases |adverts|
  {
    NewsAre(known, node, adverts);
    if adverts != [] {
      var init, last := adverts[..|adverts| - 1], adverts[|adverts| - 1];
      assert adverts == init + [last];
      HeardOfIs(known, node, init);
      IdsAppend(init, last);
      forall p | p in Ids(adverts) && p != node
        ensures AnnouncedLast(adverts, p, HeardOf(known, node, adverts)[p])
      {
        OneMoreAnnounced(init, last, p, HeardOf(known, node, adverts)[p]);
      }
    }
  }

  // --------------------------------------------------------------- invariant

  ghost predicate Carried(s: State, i: nat, peer: PeerId) {
    exists peers :: (i, peers) in s.flight && peer in peers
  }

  /** What one end knows, the other knows too or is being told; nobody is told of himself. */
  ghost predicate Shared(n: Network, s: State, i: nat, peer: PeerId)
    requires i < |n.links|
  {
    peer in Known(s, n.links[i].from) && peer != n.links[i].to ==>
      peer in Known(s, n.links[i].to) || Carried(s, i, peer)
  }

  ghost predicate AllShared(n: Network, s: State) {
    forall i, peer :: i in s.active && i < |n.links| ==> Shared(n, s, i, peer)
  }

  /** Only peers that were introduced are known or spoken of, and introduced peers are nodes. */
  ghost predicate Genuine(n: Network, s: State) {
    && s.introduced <= n.nodes
    && s.known.Keys <= n.nodes
    && (forall node :: node in s.known ==> s.known[node] <= s.introduced)
    && (forall i, peers :: (i, peers) in s.flight ==> peers <= s.introduced)
  }

  ghost predicate Inv(n: Network, s: State) {
    n.Valid() && AllShared(n, s) && Genuine(n, s)
  }

  lemma {:induction false} AnnouncedAre(n: Network, active: set<nat>, k: nat, node: PeerId, peers: set<PeerId>, i: nat,
      other: set<PeerId>)
    requires k <= |n.links|
    ensures (i, other) in Announced(n, active, k, node, peers) <==>
      i < k && i in active && n.links[i].from == node && other == peers
  {
    if k > 0 { AnnouncedAre(n, active, k - 1, node, peers, i, other); }
  }

  /** One node learning `more` and announcing exactly that on its active links. */
  ghost predicate Spread(n: Network, s: State, after: State, node: PeerId, more: set<PeerId>) {
    && after.known == s.known[node := Known(s, node) + more]
    && after.flight == s.flight + Announced(n, s.active, |n.links|, node, more)
    && after.active == s.active
  }

  /** Spreading keeps whatever was shared, and settles a copy of `more` just taken out of flight. */
  lemma SpreadKeepsShared(n: Network, s: State, after: State, node: PeerId, more: set<PeerId>, i: nat, peer: PeerId)
    requires i < |n.links| && i in s.active && Spread(n, s, after, node, more)
    requires Shared(n, s, i, peer) || (n.links[i].to == node && peer in more)
    ensures Shared(n, after, i, peer)
  {
    if Carried(s, i, peer) {
      var peers :| (i, peers) in s.flight && peer in peers;
      assert (i, peers) in after.flight;
    }
    AnnouncedAre(n, s.active, |n.links|, node, more, i, more);
    if n.links[i].from == node && peer in more {
      assert (i, more) in after.flight;
    }
  }

  lemma SpreadKeepsGenuine(n: Network, s: State, after: State, node: PeerId, more: set<PeerId>)
    requires Genuine(n, s) && Spread(n, s, after, node, more) && after.introduced == s.introduced
    requires node in n.nodes && more <= s.introduced
    ensures Genuine(n, after)
  {
    forall i, peers | (i, peers) in after.flight
      ensures peers <= after.introduced
    {
      AnnouncedAre(n, s.active, |n.links|, node, more, i, peers);
    }
  }

  lemma IntroduceKeeps(n: Network, s: State, i: nat, dialable: bool)
    requires n.Valid() && Genuine(n, s) && i < |n.links| && i in s.active
    ensures var after := Introduce(n, s, i, dialable);
      Genuine(n, after) && after.active == s.active
    ensures forall j, peer :: j in s.active && j < |n.links| && Shared(n, s, j, peer) ==>
      Shared(n, Introduce(n, s, i, dialable), j, peer)
  {
    var node, peer := n.links[i].from, n.links[i].to;
    var told, after := s.(introduced := s.introduced + {peer}), Introduce(n, s, i, dialable);
    if dialable {
      if peer in Known(s, node) {
        forall j, p | j in s.active && j < |n.links| && Shared(n, s, j, p)
          ensures Shared(n, after, j, p)
        {
          assert Carried(s, j, p) <==> Carried(after, j, p);
        }
      } else {
        SpreadKeepsGenuine(n, told, after, node, {peer});
        forall j, p | j in s.active && j < |n.links| && Shared(n, s, j, p)
          ensures Shared(n, after, j, p)
        {
          SpreadKeepsShared(n, s, after, node, {peer}, j, p);
        }
      }
    }
  }

  lemma CatchUpKeeps(n: Network, s: State, i: nat)
    requires n.Valid() && Genuine(n, s) && i < |n.links|
    requires forall j, peer :: j in s.active && j < |n.links| && j != i ==> Shared(n, s, j, peer)
    ensures Inv(n, CatchUp(n, s, i))
  {
    var after := CatchUp(n, s, i);
    var others := Known(s, n.links[i].from) - {n.links[i].to};
    forall j, peer | j in after.active && j < |n.links|
      ensures Shared(n, after, j, peer)
    {
      if j == i {
        if peer in others { assert (i, others) in after.flight; }
      } else {
        assert Shared(n, s, j, peer);
        if Carried(s, j, peer) {
          var peers :| (j, peers) in s.flight && peer in peers;
          assert (j, peers) in after.flight;
        }
      }
    }
  }

  lemma RegisterKeepsInv(n: Network, s: State, i: nat, dialable: bool)
    requires Inv(n, s) && i < |n.links|
    ensures Inv(n, Next(n, s, Register(i, dialable)))
  {
    var joined := s.(active := s.active + {i});
    forall j, peer | j in joined.active && j < |n.links| && j != i
      ensures Shared(n, joined, j, peer)
    {
      assert Shared(n, s, j, peer);
      assert Carried(s, j, peer) <==> Carried(joined, j, peer);
    }
    IntroduceKeeps(n, joined, i, dialable);
    CatchUpKeeps(n, Introduce(n, joined, i, dialable), i);
  }

  /** After taking a copy out of flight, everything it carried that was not known yet still has to be settled. */
  lemma TakenOut(n: Network, s: State, i: nat, peers: set<PeerId>, j: nat, peer: PeerId)
    requires i < |n.links| && j < |n.links| && (i, peers) in s.flight && Shared(n, s, j, peer)
    ensures var taken := s.(flight := s.flight - multiset{(i, peers)});
      Shared(n, taken, j, peer) || (j == i && peer in peers && peer != n.links[i].to
        && peer !in Known(s, n.links[i].to))
  {
    var taken := s.(flight := s.flight - multiset{(i, peers)});
    if Carried(s, j, peer) && !Carried(taken, j, peer) {
      var carrier :| (j, carrier) in s.flight && peer in carrier;
      assert (j, carrier) !in taken.flight;
      assert (j, carrier) == (i, peers);
    }
  }

  lemma DeliverKeepsInv(n: Network, s: State, i: nat, peers: set<PeerId>)
    requires Inv(n, s) && i < |n.links| && (i, peers) in s.flight
    ensures Inv(n, Next(n, s, Deliver(i, peers)))
  {
    var taken := s.(flight := s.flight - multiset{(i, peers)});
    var node, after := n.links[i].to, Next(n, s, Deliver(i, peers));
    var more := peers - {node} - Known(taken, node);
    assert Genuine(n, taken);
    if more != {} { SpreadKeepsGenuine(n, taken, after, node, more); }
    forall j, peer | j in after.active && j < |n.links|
      ensures Shared(n, after, j, peer)
    {
      assert Shared(n, s, j, peer);
      TakenOut(n, s, i, peers, j, peer);
      if more != {} { SpreadKeepsShared(n, taken, after, node, more, j, peer); }
    }
  }

  lemma StepKeepsInv(n: Network, s: State, step: Step)
    requires Inv(n, s)
    ensures Inv(n, Next(n, s, step))
  {
    if Enabled(n, s, step) {
      match step
      case Register(i, dialable) => RegisterKeepsInv(n, s, i, dialable);
      case Deliver(i, peers) => DeliverKeepsInv(n, s, i, peers);
    }
  }

  lemma {:induction false} RunKeepsInv(n: Network, s: State, run: seq<Step>)
    requires Inv(n, s)
    ensures Inv(n, Execute(n, s, run))
    decreases |run|
  {
    if run != [] {
      StepKeepsInv(n, s, run[0]);
      RunKeepsInv(n, Next(n, s, run[0]), run[1..]);
    }
  }

  // ------------------------------------------------------------ main results

  /** Nobody hears of a peer that was never linked to. */
  lemma {:induction false} GossipIsGenuine(n: Network, run: seq<Step>)
    requires n.Valid()
    ensures var s := Execute(n, QUIET, run);
      forall node :: Known(s, node) <= s.introduced
  {
    RunKeepsInv(n, QUIET, run);
  }

  /** Once nothing is in flight: all that one end of a registered link knows, but the other end, the other knows. */
  lemma {:induction false} QuietLinksAgree(n: Network, run: seq<Step>)
    requires n.Valid()
    ensures var s := Execute(n, QUIET, run);
      s.flight == multiset{} ==>
        forall i :: i in s.active && i < |n.links| ==>
          Known(s, n.links[i].from) - {n.links[i].to} <= Known(s, n.links[i].to)
  {
    RunKeepsInv(n, QUIET, run);
    var s := Execute(n, QUIET, run);
    if s.flight == multiset{} {
      forall i, peer | i in s.active && i < |n.links| && peer in Known(s, n.links[i].from) - {n.links[i].to}
        ensures peer in Known(s, n.links[i].to)
      {
        assert Shared(n, s, i, peer);
      }
    }
  }

  /** `path` is a walk along registered links that does not come through `peer`. */
  predicate Around(n: Network, s: State, from: PeerId, path: seq<nat>, to: PeerId, peer: PeerId) {
    if path == [] then from == to
    else
      var last := path[|path| - 1];
      && last in s.active && last < |n.links| && n.links[last].to == to && to != peer
      && Around(n, s, from, path[..|path| - 1], n.links[last].from, peer)
  }

  /** So knowledge of a peer has spread along every path of registered links around that peer. */
  lemma {:induction false} QuietNetworkAgrees(n: Network, run: seq<Step>, from: PeerId, path: seq<nat>, to: PeerId,
      peer: PeerId)
    requires n.Valid()
    requires var s := Execute(n, QUIET, run);
      s.flight == multiset{} && peer in Known(s, from) && Around(n, s, from, path, to, peer)
    ensures peer in Known(Execute(n, QUIET, run), to)
    decreases |path|
  {
    if path != [] {
      var last := path[|path| - 1];
      QuietNetworkAgrees(n, run, from, path[..|path| - 1], n.links[last].from, peer);
      QuietLinksAgree(n, run);
    }
  }

  // ------------------------------------------------------------- termination

  function Pairs(n: Network): set<(PeerId, PeerId)> {
    set a, b | a in n.nodes && b in n.nodes :: (a, b)
  }

  function Unknown(n: Network, s: State): set<(PeerId, PeerId)> {
    set p | p in Pairs(n) && p.1 !in Known(s, p.0)
  }

  function Weight(links: nat, unknown: nat): nat {
    (links + 1) * unknown
  }

  lemma WeightStep(links: nat, less: nat, more: nat)
    requires less < more
    ensures Weight(links, less) + links + 1 <= Weight(links, more)
    decreases more
  {
    if less + 1 < more { WeightStep(links, less, more - 1); }
    assert (links + 1) * more == (links + 1) * (more - 1) + links + 1;
  }

  /** Each unknown pair can still put one announcement on every link; each announcement can still arrive. */
  function Measure(n: Network, s: State): nat {
    Weight(|n.links|, |Unknown(n, s)|) + |s.flight|
  }

  lemma SpreadMeasure(n: Network, s: State, after: State, node: PeerId, more: set<PeerId>)
    requires Spread(n, s, after, node, more) && node in n.nodes && more <= n.nodes && more != {}
      && more !! Known(s, node)
    ensures Measure(n, after) < Measure(n, s)
  {
    var peer :| peer in more;
    assert (node, peer) in Unknown(n, s) && (node, peer) !in Unknown(n, after);
    assert Unknown(n, after) <= Unknown(n, s) - {(node, peer)};
    SubsetSize(Unknown(n, after), Unknown(n, s) - {(node, peer)});
    WeightStep(|n.links|, |Unknown(n, after)|, |Unknown(n, s)|);
  }

  predicate IsDelivery(n: Network, s: State, step: Step) {
    step.Deliver? && Enabled(n, s, step)
  }

  /** A delivery takes from the measure; a registration adds its one catch-up at most. */
  lemma StepMeasure(n: Network, s: State, step: Step)
    requires Inv(n, s)
    ensures Measure(n, Next(n, s, step)) + (if IsDelivery(n, s, step) then 1 else 0) <=
      Measure(n, s) + if step.Register? then 1 else 0
  {
    if Enabled(n, s, step) {
      match step
      case Register(i, dialable) => RegisterMeasure(n, s, i, dialable);
      case Deliver(i, peers) =>
        var taken := s.(flight := s.flight - multiset{(i, peers)});
        var node, after := n.links[i].to, Next(n, s, step);
        var more := peers - {node} - Known(taken, node);
        assert |taken.flight| == |s.flight| - 1;
        assert Unknown(n, taken) == Unknown(n, s);
        if more != {} { SpreadMeasure(n, taken, after, node, more); }
    }
  }

  lemma RegisterMeasure(n: Network, s: State, i: nat, dialable: bool)
    requires Inv(n, s) && i < |n.links|
    ensures Measure(n, Next(n, s, Register(i, dialable))) <= Measure(n, s) + 1
  {
    var joined := s.(active := s.active + {i});
    var introduced := Introduce(n, joined, i, dialable);
    var node, peer := n.links[i].from, n.links[i].to;
    assert Unknown(n, joined) == Unknown(n, s);
    if dialable && peer !in Known(s, node) {
      SpreadMeasure(n, joined, introduced, node, {peer});
    } else {
      assert Unknown(n, introduced) == Unknown(n, s);
    }
    assert Unknown(n, CatchUp(n, introduced, i)) == Unknown(n, introduced);
  }

  function Deliveries(n: Network, s: State, run: seq<Step>): nat
    decreases |run|
  {
    if run == [] then 0
    else (if IsDelivery(n, s, run[0]) then 1 else 0) + Deliveries(n, Next(n, s, run[0]), run[1..])
  }

  function Registrations(run: seq<Step>): nat {
    if run == [] then 0 else (if run[0].Register? then 1 else 0) + Registrations(run[1..])
  }

  lemma {:induction false} DeliveriesWithinMeasure(n: Network, s: State, run: seq<Step>)
    requires Inv(n, s)
    ensures Deliveries(n, s, run) + Measure(n, Execute(n, s, run)) <= Measure(n, s) + Registrations(run)
    decreases |run|
  {
    if run != [] {
      StepMeasure(n, s, run[0]);
      StepKeepsInv(n, s, run[0]);
      DeliveriesWithinMeasure(n, Next(n, s, run[0]), run[1..]);
    }
  }

  /** Nobody is ever sent an empty announcement. */
  lemma {:induction false} NothingEmptyIsSent(n: Network, s: State, run: seq<Step>)
    requires forall i, peers :: (i, peers) in s.flight ==> peers != {}
    ensures forall i, peers :: (i, peers) in Execute(n, s, run).flight ==> peers != {}
    decreases |run|
  {
    if run != [] {
      var after := Next(n, s, run[0]);
      forall i, peers | (i, peers) in after.flight
        ensures peers != {}
      {
        StepSendsNothingEmpty(n, s, run[0], i, peers);
      }
      NothingEmptyIsSent(n, after, run[1..]);
    }
  }

  lemma {:induction false} StepSendsNothingEmpty(n: Network, s: State, step: Step, i: nat, peers: set<PeerId>)
    requires forall j, others :: (j, others) in s.flight ==> others != {}
    requires (i, peers) in Next(n, s, step).flight
    ensures peers != {}
  {
    if Enabled(n, s, step) {
      match step
      case Register(link, dialable) =>
        var node := n.links[link].from;
        AnnouncedAre(n, s.active + {link}, |n.links|, node, {n.links[link].to}, i, peers);
      case Deliver(link, others) =>
        var node := n.links[link].to;
        AnnouncedAre(n, s.active, |n.links|, node, others - {node} - Known(s, node), i, peers);
    }
  }

  /** The steps of a run at which an announcement arrives, and those at which a link registers. */
  function Arrivals(n: Network, s: State, run: seq<Step>): set<nat> {
    set k: nat | k < |run| && run[k].Deliver? && Enabled(n, Execute(n, s, run[..k]), run[k])
  }

  function Joins(run: seq<Step>): set<nat> {
    set k: nat | k < |run| && run[k].Register?
  }

  function Shifted(positions: set<nat>): set<nat> {
    set k | k in positions :: k + 1
  }

  lemma {:induction false} ShiftedSize(positions: set<nat>)
    ensures |Shifted(positions)| == |positions|
    decreases positions
  {
    if positions == {} {
      assert Shifted(positions) == {};
    } else {
      var k :| k in positions;
      var fewer := Shifted(positions - {k});
      ShiftedSize(positions - {k});
      forall j: nat
        ensures j in Shifted(positions) <==> j in fewer + {k + 1}
      {
        assert j in Shifted(positions) <==> j > 0 && j - 1 in positions;
        assert j in fewer <==> j > 0 && j - 1 in positions - {k};
      }
      assert Shifted(positions) == fewer + {k + 1};
    }
  }

  lemma {:induction false} ArrivalsAfterFirst(n: Network, s: State, run: seq<Step>)
    requires run != []
    ensures Arrivals(n, s, run) ==
      (if IsDelivery(n, s, run[0]) then {0} else {}) + Shifted(Arrivals(n, Next(n, s, run[0]), run[1..]))
  {
    var later := Arrivals(n, Next(n, s, run[0]), run[1..]);
    forall k: nat | k < |run|
      ensures k in Arrivals(n, s, run) <==> if k == 0 then IsDelivery(n, s, run[0]) else k - 1 in later
    {
      if k > 0 {
        assert run[..k][0] == run[0] && run[..k][1..] == run[1..][..k - 1];
      } else {
        assert run[..0] == [];
      }
    }
    forall k: nat | k > 0
      ensures k in Shifted(later) <==> k - 1 in later
    {
    }
  }

  lemma {:induction false} ArrivalsAre(n: Network, s: State, run: seq<Step>)
    ensures |Arrivals(n, s, run)| == Deliveries(n, s, run)
    decreases |run|
  {
    if run == [] {
      assert Arrivals(n, s, run) == {};
    } else {
      ArrivalsAre(n, Next(n, s, run[0]), run[1..]);
      ArrivalsAfterFirst(n, s, run);
      ShiftedSize(Arrivals(n, Next(n, s, run[0]), run[1..]));
    }
  }

  lemma {:induction false} JoinsAre(run: seq<Step>)
    ensures |Joins(run)| == Registrations(run)
    decreases |run|
  {
    if run == [] {
      assert Joins(run) == {};
    } else {
      JoinsAre(run[1..]);
      ShiftedSize(Joins(run[1..]));
      forall k: nat | k < |run|
        ensures k in Joins(run) <==> if k == 0 then run[0].Register? else k - 1 in Joins(run[1..])
      {
      }
      assert Joins(run) == (if run[0].Register? then {0} else {}) + Shifted(Joins(run[1..]));
    }
  }

  /** However registrations and deliveries interleave, gossip ends: so many announcements arrive, and no more. */
  lemma GossipTerminates(n: Network, run: seq<Step>)
    requires n.Valid()
    ensures |Arrivals(n, QUIET, run)| <= (|n.links| + 1) * |Pairs(n)| + |Joins(run)|
  {
    DeliveriesWithinMeasure(n, QUIET, run);
    assert Unknown(n, QUIET) == Pairs(n);
    ArrivalsAre(n, QUIET, run);
    JoinsAre(run);
  }
}
