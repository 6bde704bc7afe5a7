/** Every peer a node has learned an address for, bounded, the least recently recorded one going first. */
module PeerDirectory {
  import opened Common
  import opened Sequences
  import opened TopicMaps

  type Address = string

  /** `order` is the touch order, least recent first; `recorded` logs every call, which the program does not. */
  datatype Directory = Directory(
    capacity: nat,
    known: map<PeerId, Address>,
    order: seq<PeerId>,
    evictions: nat,
    recorded: seq<PeerId>)

  function NewDirectory(capacity: nat): Directory {
    Directory(capacity, map[], [], 0, [])
  }

  /** The queue without `peer`. */
  function Without(order: seq<PeerId>, peer: PeerId): seq<PeerId> {
    if order == [] then []
    else
      var before := Without(order[..|order| - 1], peer);
      if order[|order| - 1] == peer then before else before + [order[|order| - 1]]
  }

  /** The peer at the back of the queue, with its newest address. */
  function Touched(d: Directory, peer: PeerId, address: Address): Directory {
    d.(known := d.known[peer := address], order := Without(d.order, peer) + [peer], recorded := d.recorded + [peer])
  }

  function Trimmed(d: Directory): Directory {
    if |d.order| <= d.capacity then d
    else d.(known := d.known - {d.order[0]}, order := d.order[1..], evictions := d.evictions + 1)
  }

  /** The directory after recording, and whether the peer was new to it. */
  function Recorded(d: Directory, peer: PeerId, address: Address): (Directory, bool) {
    (Trimmed(Touched(d, peer, address)), peer !in d.known)
  }

  // --------------------------------------------------------------- invariant

  ghost predicate Tidy(d: Directory) {
    Distinct(d.order) && Elements(d.order) == d.known.Keys && ByTouch(d.order, d.recorded)
  }

  /** In every reachable state: the queue lists the known peers once each, by recency, within capacity. */
  ghost predicate Valid(d: Directory) {
    Tidy(d) && |d.known| <= d.capacity
  }

  lemma {:induction false} WithoutIs(order: seq<PeerId>, peer: PeerId)
    requires Distinct(order)
    ensures Distinct(Without(order, peer)) && Elements(Without(order, peer)) == Elements(order) - {peer}
  {
    if order != [] {
      var init, last := order[..|order| - 1], order[|order| - 1];
      WithoutIs(init, peer);
      assert order == init + [last];
      assert last !in init;
      if last != peer {
        assert last !in Elements(Without(init, peer));
        DistinctAppend(Without(init, peer), last);
      }
    }
  }

  lemma {:induction false} WithoutByTouch(order: seq<PeerId>, recorded: seq<PeerId>, peer: PeerId)
    requires ByTouch(order, recorded)
    ensures ByTouch(Without(order, peer), recorded)
    ensures forall i :: 0 <= i < |Without(order, peer)| ==> Without(order, peer)[i] in order
  {
    if order != [] {
      var init, last := order[..|order| - 1], order[|order| - 1];
      WithoutByTouch(init, recorded, peer);
      var before := Without(init, peer);
      forall i | 0 <= i < |before|
        ensures LastTouch(recorded, before[i]) < LastTouch(recorded, last)
      {
        var j :| 0 <= j < |init| && init[j] == before[i];
        assert order[j] == before[i];
      }
    }
  }

  lemma TouchedIsTidy(d: Directory, peer: PeerId, address: Address)
    requires Tidy(d)
    ensures Tidy(Touched(d, peer, address))
    ensures Touched(d, peer, address).known.Keys == d.known.Keys + {peer}
  {
    WithoutIs(d.order, peer);
    WithoutByTouch(d.order, d.recorded, peer);
    assert peer !in Without(d.order, peer) by { assert peer !in Elements(Without(d.order, peer)); }
    DistinctAppend(Without(d.order, peer), peer);
    ByTouchAppend(Without(d.order, peer), d.recorded, peer);
  }

  lemma TrimmedIsTidy(d: Directory)
    requires Tidy(d)
    ensures Tidy(Trimmed(d))
  {
    if |d.order| > d.capacity {
      DistinctTail(d.order);
      assert forall i :: 0 <= i < |d.order| - 1 ==> d.order[1..][i] == d.order[i + 1];
    }
  }

  lemma KnownSize(d: Directory)
    requires Tidy(d)
    ensures |d.known| == |d.order|
  {
    DistinctSize(d.order);
    assert |d.known.Keys| == |d.known|;
  }

  /** Every recording keeps the directory valid. */
  lemma RecordedIsValid(d: Directory, peer: PeerId, address: Address)
    requires Valid(d)
    ensures Valid(Recorded(d, peer, address).0)
  {
    var touched := Touched(d, peer, address);
    TouchedIsTidy(d, peer, address);
    TrimmedIsTidy(touched);
    KnownSize(touched);
    KnownSize(Trimmed(touched));
    assert |touched.known.Keys| <= |d.known.Keys| + 1;
  }

  /** `victim` was last recorded before every other known peer. */
  ghost predicate IsOldest(d: Directory, victim: PeerId) {
    forall other :: other in d.known ==> LastTouch(d.recorded, victim) <= LastTouch(d.recorded, other)
  }

  lemma TouchedSize(d: Directory, peer: PeerId, address: Address)
    requires Valid(d)
    ensures var touched := Touched(d, peer, address);
      Tidy(touched) && |touched.order| == |d.known| + if peer in d.known then 0 else 1
  {
    var touched := Touched(d, peer, address);
    TouchedIsTidy(d, peer, address);
    KnownSize(touched);
    assert |touched.known.Keys| == |d.known.Keys| + if peer in d.known then 0 else 1 by {
      if peer in d.known { assert touched.known.Keys == d.known.Keys; }
    }
  }

  /**
   * What a recording changes: below capacity, or for a known peer, nothing but that peer; otherwise the
   * one peer recorded longest ago is forgotten as well, and never the new one while there is room for any.
   */
  lemma RecordingEffect(d: Directory, peer: PeerId, address: Address) returns (victim: PeerId)
    requires Valid(d)
    ensures var (after, isNew) := Recorded(d, peer, address);
      && (isNew <==> peer !in d.known)
      && if !isNew || |d.known| < d.capacity
         then after.known == d.known[peer := address] && after.evictions == d.evictions
         else IsOldest(Touched(d, peer, address), victim)
              && after.known == d.known[peer := address] - {victim} && after.evictions == d.evictions + 1
              && (d.capacity > 0 ==> victim != peer)
  {
    var touched := Touched(d, peer, address);
    TouchedSize(d, peer, address);
    victim := touched.order[0];
    if |touched.order| > 1 { assert touched.order[|touched.order| - 1] == peer; }
  }

  /** While all peers ever recorded fit, recording is just adding to a set. */
  lemma NothingForgottenWithin(d: Directory, peer: PeerId, address: Address, universe: set<PeerId>)
    requires Valid(d) && d.known.Keys <= universe && peer in universe && |universe| <= d.capacity
    ensures Recorded(d, peer, address).0.known == d.known[peer := address]
    ensures Recorded(d, peer, address).1 <==> peer !in d.known
  {
    var _ := RecordingEffect(d, peer, address);
    if peer !in d.known {
      SubsetSize(d.known.Keys + {peer}, universe);
      assert |d.known.Keys + {peer}| == |d.known| + 1;
    }
  }

  // -------------------------------------------------------------------- runs

  type Recording = (PeerId, Address)

  function RecordAll(d: Directory, run: seq<Recording>): Directory {
    if run == [] then d
    else Recorded(RecordAll(d, run[..|run| - 1]), run[|run| - 1].0, run[|run| - 1].1).0
  }

  function PeersOf(run: seq<Recording>): (peers: seq<PeerId>)
    ensures |peers| == |run|
  {
    seq(|run|, i requires 0 <= i < |run| => run[i].0)
  }

  /** Known peers were all recorded later than any other, and there are others only when it is full. */
  ghost predicate Latest(d: Directory) {
    && (forall p :: p in d.known ==> p in d.recorded)
    && (forall p, q :: p in d.known && q !in d.known ==> LastTouch(d.recorded, p) > LastTouch(d.recorded, q))
    && ((forall q :: q in d.recorded ==> q in d.known) || |d.known| == d.capacity)
  }

  lemma TouchedIsLatest(d: Directory, peer: PeerId, address: Address)
    requires Latest(d)
    ensures var touched := Touched(d, peer, address);
      && (forall p :: p in touched.known ==> p in touched.recorded)
      && (forall p, q :: p in touched.known && q !in touched.known ==>
            LastTouch(touched.recorded, p) > LastTouch(touched.recorded, q))
      && ((forall q :: q in touched.recorded ==> q in touched.known) || |d.known| == d.capacity)
  {
    var touched := Touched(d, peer, address);
    forall p
      ensures LastTouch(touched.recorded, p) == if p == peer then |d.recorded| else LastTouch(d.recorded, p)
    {
      assert touched.recorded[..|d.recorded|] == d.recorded;
    }
  }

  lemma RecordedIsLatest(d: Directory, peer: PeerId, address: Address)
    requires Valid(d) && Latest(d)
    ensures Latest(Recorded(d, peer, address).0)
    ensures Recorded(d, peer, address).0.recorded == d.recorded + [peer]
  {
    var touched, after := Touched(d, peer, address), Recorded(d, peer, address).0;
    TouchedIsLatest(d, peer, address);
    TouchedIsTidy(d, peer, address);
    TouchedSize(d, peer, address);
    RecordedIsValid(d, peer, address);
    KnownSize(after);
    if |touched.order| > d.capacity {
      var victim := touched.order[0];
      forall p | p in after.known
        ensures LastTouch(after.recorded, p) > LastTouch(after.recorded, victim)
      {
        assert p in Elements(touched.order);
        var j :| 0 <= j < |touched.order| && touched.order[j] == p;
      }
    }
  }

  /** Each known peer has the address it was last recorded with. */
  ghost predicate LatestAddresses(d: Directory, run: seq<Recording>) {
    forall p :: p in d.known ==>
      var t := LastTouch(d.recorded, p);
      0 <= t < |run| && run[t] == (p, d.known[p])
  }

  lemma RecordedHasLatestAddresses(d: Directory, run: seq<Recording>)
    requires run != [] && |d.recorded| == |run| - 1 && LatestAddresses(d, run[..|run| - 1])
    ensures var after := Recorded(d, run[|run| - 1].0, run[|run| - 1].1).0;
      after.recorded == d.recorded + [run[|run| - 1].0] && LatestAddresses(after, run)
  {
    var peer, after := run[|run| - 1].0, Recorded(d, run[|run| - 1].0, run[|run| - 1].1).0;
    assert after.recorded[..|d.recorded|] == d.recorded;
  }

  lemma PeersOfLast(run: seq<Recording>)
    requires run != []
    ensures PeersOf(run) == PeersOf(run[..|run| - 1]) + [run[|run| - 1].0]
  {
  }

  ghost predicate UpToDate(d: Directory, run: seq<Recording>) {
    Valid(d) && Latest(d) && d.recorded == PeersOf(run) && LatestAddresses(d, run)
  }

  lemma RecordedIsUpToDate(d: Directory, run: seq<Recording>)
    requires run != [] && UpToDate(d, run[..|run| - 1])
    ensures var after := Recorded(d, run[|run| - 1].0, run[|run| - 1].1).0;
      UpToDate(after, run) && after.capacity == d.capacity
  {
    RecordedIsValid(d, run[|run| - 1].0, run[|run| - 1].1);
    RecordedIsLatest(d, run[|run| - 1].0, run[|run| - 1].1);
    RecordedHasLatestAddresses(d, run);
    PeersOfLast(run);
  }

  lemma NewIsUpToDate(capacity: nat)
    ensures UpToDate(NewDirectory(capacity), [])
  {
  }

  lemma {:induction false} RunIsUpToDate(capacity: nat, run: seq<Recording>)
    ensures var d := RecordAll(NewDirectory(capacity), run);
      UpToDate(d, run) && d.capacity == capacity
  {
    if run == [] {
      NewIsUpToDate(capacity);
    } else {
      RunIsUpToDate(capacity, run[..|run| - 1]);
      RecordedIsUpToDate(RecordAll(NewDirectory(capacity), run[..|run| - 1]), run);
    }
  }

  lemma LatestRecording(d: Directory, run: seq<Recording>, p: PeerId) returns (i: nat)
    requires UpToDate(d, run) && p in d.known
    ensures i < |run| && run[i] == (p, d.known[p]) && p !in PeersOf(run)[i + 1..]
  {
    LastTouchIs(d.recorded, p);
    i := LastTouch(d.recorded, p);
  }

  lemma RecordedSince(d: Directory, run: seq<Recording>, p: PeerId, q: PeerId) returns (i: nat)
    requires UpToDate(d, run) && p in d.known && q in PeersOf(run) && q !in d.known
    ensures i < |run| && PeersOf(run)[i] == p && q !in PeersOf(run)[i..]
  {
    LastTouchIs(d.recorded, p);
    LastTouchIs(d.recorded, q);
    i := LastTouch(d.recorded, p);
    NotSince(d.recorded, LastTouch(d.recorded, q), i, q);
  }

  /** Each known peer has the address it was last recorded with. */
  ghost predicate HasLatestAddresses(known: map<PeerId, Address>, run: seq<Recording>) {
    forall p :: p in known ==> exists i :: 0 <= i < |run| && run[i] == (p, known[p]) && p !in PeersOf(run)[i + 1..]
  }

  /** Each known peer has been recorded since the last recording of any peer forgotten. */
  ghost predicate RecordedLater(known: map<PeerId, Address>, run: seq<Recording>) {
    forall p, q :: p in known && q in PeersOf(run) && q !in known ==>
      exists i :: 0 <= i < |run| && run[i].0 == p && q !in PeersOf(run)[i..]
  }

  lemma UpToDateHasLatestAddresses(d: Directory, run: seq<Recording>)
    requires UpToDate(d, run)
    ensures HasLatestAddresses(d.known, run)
  {
    forall p | p in d.known
      ensures exists i :: 0 <= i < |run| && run[i] == (p, d.known[p]) && p !in PeersOf(run)[i + 1..]
    {
      var i := LatestRecording(d, run, p);
    }
  }

  lemma UpToDateIsRecordedLater(d: Directory, run: seq<Recording>)
    requires UpToDate(d, run)
    ensures RecordedLater(d.known, run)
  {
    forall p, q | p in d.known && q in PeersOf(run) && q !in d.known
      ensures exists i :: 0 <= i < |run| && run[i].0 == p && q !in PeersOf(run)[i..]
    {
      var i := RecordedSince(d, run, p, q);
      assert PeersOf(run)[i] == run[i].0;
    }
  }

  /**
   * Exactly what a directory knows after any recordings: of the peers recorded, all or as many as it holds,
   * each with the address it was last recorded with, and every one of them recorded since the last
   * recording of any it has forgotten.
   */
  lemma {:induction false} KnowsTheLatest(capacity: nat, run: seq<Recording>)
    ensures var known, peers := RecordAll(NewDirectory(capacity), run).known, PeersOf(run);
      && known.Keys <= Elements(peers) && (known.Keys == Elements(peers) || |known| == capacity)
      && |known| <= capacity && HasLatestAddresses(known, run) && RecordedLater(known, run)
  {
    RunIsUpToDate(capacity, run);
    UpToDateHasLatestAddresses(RecordAll(NewDirectory(capacity), run), run);
    UpToDateIsRecordedLater(RecordAll(NewDirectory(capacity), run), run);
  }

  lemma NotSince(peers: seq<PeerId>, t: nat, i: nat, q: PeerId)
    requires t < i <= |peers| && q !in peers[t + 1..]
    ensures q !in peers[i..]
  {
    assert peers[i..] == peers[t + 1..][i - t - 1..];
  }

  // ------------------------------------------------------------------- class

  class PeerDirectory {
    const capacity: nat
    var known: map<PeerId, Address>
    var order: seq<PeerId>
    var evictions: nat
    ghost var recorded: seq<PeerId>

    ghost function State(): Directory
      reads this
    {
      Directory(capacity, known, order, evictions, recorded)
    }

    constructor (capacity: nat)
      ensures State() == NewDirectory(capacity) && Valid(State())
    {
      this.capacity := capacity;
      known, order, evictions, recorded := map[], [], 0, [];
    }

    /** Whether the peer was not known until now; either way it becomes the most recent one. */
    method Record(peer: PeerId, address: Address) returns (isNew: bool)
      requires Valid(State())
      modifies this
      ensures Valid(State())
      ensures (State(), isNew) == Recorded(old(State()), peer, address)
    {
      RecordedIsValid(State(), peer, address);
      isNew := Touch(peer, address);
      if |order| > capacity {
        var oldest := order[0];
        order := order[1..];
        known := known - {oldest};
        evictions := evictions + 1;
      }
    }

    method Touch(peer: PeerId, address: Address) returns (isNew: bool)
      requires Elements(order) == known.Keys
      modifies this
      ensures State() == Touched(old(State()), peer, address)
      ensures isNew <==> peer !in old(known)
    {
      isNew := peer !in known;
      if isNew {
        assert peer !in Elements(order);
        NotThere(order, peer);
      } else {
        Retain(peer);
      }
      known := known[peer := address];
      order := order + [peer];
      recorded := recorded + [peer];
    }

    method Retain(peer: PeerId)
      modifies `order
      ensures order == Without(old(order), peer)
    {
      var kept := [];
      for i := 0 to |order|
        invariant kept == Without(order[..i], peer)
      {
        assert order[..i + 1][..i] == order[..i];
        if order[i] != peer {
          kept := kept + [order[i]];
        }
      }
      assert order[..|order|] == order;
      order := kept;
    }

    /** Everyone known but one, each once. */
    method SnapshotExcluding(exclude: PeerId) returns (peers: seq<(PeerId, Address)>)
      ensures forall p, a :: (p, a) in peers <==> p in known && known[p] == a && p != exclude
      ensures forall i, j :: 0 <= i < j < |peers| ==> peers[i].0 != peers[j].0
    {
      peers := [];
      var remaining := known.Keys;
      while remaining != {}
        invariant remaining <= known.Keys
        invariant forall p, a :: (p, a) in peers <==> p in known && p !in remaining && known[p] == a && p != exclude
        invariant forall i :: 0 <= i < |peers| ==> peers[i].0 !in remaining
        invariant forall i, j :: 0 <= i < j < |peers| ==> peers[i].0 != peers[j].0
      {
        var p :| p in remaining;
        if p != exclude {
          peers := peers + [(p, known[p])];
        }
        remaining := remaining - {p};
      }
    }
  }

  lemma {:induction false} NotThere(order: seq<PeerId>, peer: PeerId)
    requires peer !in order
    ensures Without(order, peer) == order
  {
    if order != [] {
      NotThere(order[..|order| - 1], peer);
      assert order == order[..|order| - 1] + [order[|order| - 1]];
    }
  }
}
