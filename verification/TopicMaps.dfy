/** The bounded map from topics (or patterns) to channels, with touch-ordered eviction of idle entries. */
module TopicMaps {
  import opened Sequences

  /** The identity of a channel: what a shared pointer to it names. */
  type ChannelId = nat

  /**
   * The map as a value. `order` is the touch-order queue, least recent first. `touched` logs every
   * touch ever made and `inserted` every insertion; the program keeps neither.
   */
  datatype Entries<K> = Entries(
    capacity: nat,
    channels: map<K, ChannelId>,
    order: seq<K>,
    evictions: nat,
    inserted: nat,
    touched: seq<K>)

  function NoEntries<K>(capacity: nat): Entries<K> {
    Entries(capacity, map[], [], 0, 0, [])
  }

  function IndexOf<K(==)>(s: seq<K>, key: K): (i: nat)
    ensures i <= |s|
    ensures i < |s| <==> key in s
    ensures i < |s| ==> s[i] == key && key !in s[..i]
  {
    if s == [] then 0
    else if s[0] == key then 0
    else
      var i := 1 + IndexOf(s[1..], key);
      assert s == [s[0]] + s[1..];
      assert s[..i] == [s[0]] + s[1..][..i - 1];
      i
  }

  predicate Idle<K>(channels: map<K, ChannelId>, live: set<ChannelId>, key: K) {
    key in channels && channels[key] !in live
  }

  /** The position of the least recently touched entry without a receiver, or `|order|`. */
  function FirstIdle<K>(order: seq<K>, channels: map<K, ChannelId>, live: set<ChannelId>): (i: nat)
    ensures i <= |order|
    ensures i < |order| ==> Idle(channels, live, order[i])
    ensures forall j :: 0 <= j < i ==> !Idle(channels, live, order[j])
  {
    if order == [] then 0
    else if Idle(channels, live, order[0]) then 0
    else
      var i := FirstIdle(order[1..], channels, live);
      assert forall j :: 1 <= j < 1 + i ==> order[j] == order[1..][j - 1];
      1 + i
  }

  function Touch<K(==)>(m: Entries<K>, key: K): Entries<K> {
    var i := IndexOf(m.order, key);
    if i < |m.order|
    then m.(order := RemoveAt(m.order, i) + [key], touched := m.touched + [key])
    else m
  }

  function EvictOverCapacity<K(==)>(m: Entries<K>, live: set<ChannelId>): Entries<K> {
    var i := FirstIdle(m.order, m.channels, live);
    if |m.channels| <= m.capacity || i == |m.order| then m
    else m.(order := RemoveAt(m.order, i), channels := m.channels - {m.order[i]}, evictions := m.evictions + 1)
  }

  function Insert<K(==)>(m: Entries<K>, key: K, newId: ChannelId): Entries<K> {
    m.(channels := m.channels[key := newId], order := m.order + [key],
       inserted := m.inserted + 1, touched := m.touched + [key])
  }

  /** `live` are the channels with at least one receiver, `newId` the identity a new channel would get. */
  function GetOrInsert<K(==)>(m: Entries<K>, key: K, newId: ChannelId, live: set<ChannelId>): (Entries<K>, ChannelId) {
    if key in m.channels then (Touch(m, key), m.channels[key])
    else (EvictOverCapacity(Insert(m, key, newId), live), newId)
  }

  // --------------------------------------------------------------- invariant

  /** When `key` was last touched: its last position in the log, or -1. */
  function LastTouch<K(==)>(touched: seq<K>, key: K): (t: int)
    ensures -1 <= t < |touched|
    ensures t >= 0 <==> key in touched
  {
    if touched == [] then -1
    else if touched[|touched| - 1] == key then |touched| - 1
    else
      assert touched == touched[..|touched| - 1] + [touched[|touched| - 1]];
      LastTouch(touched[..|touched| - 1], key)
  }

  ghost predicate ByTouch<K>(order: seq<K>, touched: seq<K>) {
    forall i, j :: 0 <= i < j < |order| ==> LastTouch(touched, order[i]) < LastTouch(touched, order[j])
  }

  ghost predicate Keyed<K>(m: Entries<K>) {
    && Distinct(m.order)
    && Elements(m.order) == m.channels.Keys
    && m.inserted == |m.channels| + m.evictions
    && ByTouch(m.order, m.touched)
  }

  /**
   * What holds in every reachable state: the queue is a duplicate-free permutation of the keys in
   * touch order, the map is within its capacity, and every insertion is still there or was evicted.
   */
  ghost predicate Coherent<K>(m: Entries<K>) {
    Keyed(m) && |m.channels| <= m.capacity
  }

  lemma ByTouchAppend<K>(order: seq<K>, touched: seq<K>, key: K)
    requires ByTouch(order, touched) && key !in order
    ensures ByTouch(order + [key], touched + [key])
  {
    forall i, j | 0 <= i < j < |order| + 1
      ensures LastTouch(touched + [key], (order + [key])[i]) < LastTouch(touched + [key], (order + [key])[j])
    {
    }
  }

  lemma ByTouchRemove<K>(order: seq<K>, touched: seq<K>, i: nat)
    requires ByTouch(order, touched) && i < |order|
    ensures ByTouch(RemoveAt(order, i), touched)
  {
  }

  lemma TouchKeeps<K>(m: Entries<K>, key: K)
    requires Keyed(m)
    ensures Keyed(Touch(m, key))
  {
    var i := IndexOf(m.order, key);
    if i < |m.order| {
      var rest := RemoveAt(m.order, i);
      RemoveAtDistinct(m.order, i);
      assert key !in rest by { assert key !in Elements(rest); }
      DistinctAppend(rest, key);
      ByTouchRemove(m.order, m.touched, i);
      ByTouchAppend(rest, m.touched, key);
    }
  }

  lemma InsertKeeps<K>(m: Entries<K>, key: K, newId: ChannelId)
    requires Keyed(m) && key !in m.channels
    ensures Keyed(Insert(m, key, newId))
    ensures Insert(m, key, newId).channels.Keys == m.channels.Keys + {key}
    ensures |Insert(m, key, newId).channels| == |m.channels| + 1
  {
    assert key !in m.order by { assert key !in Elements(m.order); }
    DistinctAppend(m.order, key);
    ByTouchAppend(m.order, m.touched, key);
    KeysInsert(m.channels, key, newId);
  }

  lemma KeysInsert<K, V>(m: map<K, V>, key: K, v: V)
    requires key !in m
    ensures m[key := v].Keys == m.Keys + {key}
    ensures |m[key := v]| == |m| + 1
  {
    assert m[key := v].Keys == m.Keys + {key};
    assert |m[key := v].Keys| == |m.Keys| + 1;
  }

  lemma KeysRemove<K, V>(m: map<K, V>, key: K)
    requires key in m
    ensures (m - {key}).Keys == m.Keys - {key}
    ensures |m - {key}| == |m| - 1
  {
    assert (m - {key}).Keys == m.Keys - {key};
    assert |(m - {key}).Keys| == |m.Keys| - 1;
  }

  lemma EvictKeeps<K>(m: Entries<K>, live: set<ChannelId>)
    requires Keyed(m)
    ensures Keyed(EvictOverCapacity(m, live))
  {
    var i := FirstIdle(m.order, m.channels, live);
    if !(|m.channels| <= m.capacity || i == |m.order|) {
      RemoveAtDistinct(m.order, i);
      ByTouchRemove(m.order, m.touched, i);
      KeysRemove(m.channels, m.order[i]);
    }
  }

  /**
   * Every state reachable by `GetOrInsert` is coherent. In particular the map never stays over its
   * capacity: an entry inserted just now has no receiver yet, so eviction always finds a candidate.
   */
  lemma GetOrInsertKeepsCoherent<K>(m: Entries<K>, key: K, newId: ChannelId, live: set<ChannelId>)
    requires Coherent(m) && newId !in live
    ensures Coherent(GetOrInsert(m, key, newId, live).0)
    ensures GetOrInsert(m, key, newId, live).0.capacity == m.capacity
  {
    if key in m.channels {
      TouchKeeps(m, key);
    } else {
      var grown := Insert(m, key, newId);
      InsertKeeps(m, key, newId);
      EvictKeeps(grown, live);
      var i := FirstIdle(grown.order, grown.channels, live);
      assert Idle(grown.channels, live, grown.order[|m.order|]);
      assert i < |grown.order|;
      if |grown.channels| > grown.capacity { KeysRemove(grown.channels, grown.order[i]); }
    }
  }

  // ---------------------------------------------------------------- eviction

  /** `victim` is the idle entry whose last touch is oldest. */
  ghost predicate LeastRecentIdle<K>(m: Entries<K>, live: set<ChannelId>, victim: K) {
    && Idle(m.channels, live, victim)
    && forall other :: other in m.channels && Idle(m.channels, live, other) ==>
         LastTouch(m.touched, victim) <= LastTouch(m.touched, other)
  }

  /** Exactly what inserting a new key does: nothing is lost below capacity, one idle entry at it. */
  lemma InsertionEffect<K>(m: Entries<K>, key: K, newId: ChannelId, live: set<ChannelId>) returns (victim: K)
    requires Coherent(m) && newId !in live && key !in m.channels
    ensures var grown, after := Insert(m, key, newId), GetOrInsert(m, key, newId, live).0;
      if |m.channels| < m.capacity
      then after.channels == m.channels[key := newId] && after.evictions == m.evictions
      else LeastRecentIdle(grown, live, victim)
           && after.channels == m.channels[key := newId] - {victim} && after.evictions == m.evictions + 1
  {
    var grown := Insert(m, key, newId);
    InsertKeeps(m, key, newId);
    NewEntryIsIdle(m, key, newId, live);
    victim := EvictionEffect(grown, live);
  }

  /** Over capacity, and with something idle, exactly the least recent idle entry goes. */
  lemma EvictionEffect<K>(m: Entries<K>, live: set<ChannelId>) returns (victim: K)
    requires Elements(m.order) == m.channels.Keys && ByTouch(m.order, m.touched)
    requires FirstIdle(m.order, m.channels, live) < |m.order|
    ensures LeastRecentIdle(m, live, victim)
    ensures |m.channels| <= m.capacity ==> EvictOverCapacity(m, live) == m
    ensures |m.channels| > m.capacity ==>
              && EvictOverCapacity(m, live).channels == m.channels - {victim}
              && EvictOverCapacity(m, live).evictions == m.evictions + 1
  {
    victim := m.order[FirstIdle(m.order, m.channels, live)];
  }

  /** An entry inserted just now has no receiver, so there is always something to evict. */
  lemma {:induction false} NewEntryIsIdle<K>(m: Entries<K>, key: K, newId: ChannelId, live: set<ChannelId>)
    requires newId !in live
    ensures var grown := Insert(m, key, newId);
      FirstIdle(grown.order, grown.channels, live) < |grown.order|
  {
    var grown := Insert(m, key, newId);
    assert Idle(grown.channels, live, grown.order[|m.order|]);
  }

  /**
   * After a lookup a key's channel is in the map if and only if it was there before, or the map was
   * below its capacity, or another idle entry could make room. Otherwise the new entry itself goes.
   */
  lemma AttachedWhen<K>(m: Entries<K>, key: K, newId: ChannelId, live: set<ChannelId>)
    requires Coherent(m) && newId !in live
    ensures var (after, c) := GetOrInsert(m, key, newId, live);
      key in after.channels <==>
        || key in m.channels
        || |m.channels| < m.capacity
        || exists other :: other in m.channels && Idle(m.channels, live, other)
    ensures var (after, c) := GetOrInsert(m, key, newId, live);
      key in after.channels ==> after.channels[key] == c
  {
    if key !in m.channels {
      var grown := Insert(m, key, newId);
      var victim := InsertionEffect(m, key, newId, live);
      InsertKeeps(m, key, newId);
      if |m.channels| >= m.capacity {
        if other :| other in m.channels && Idle(m.channels, live, other) {
          assert Idle(grown.channels, live, other);
          assert victim != key;
        } else {
          assert Idle(grown.channels, live, victim);
          assert victim != key ==> Idle(m.channels, live, victim);
        }
      }
    }
  }

  /** An entry with a live receiver survives every lookup of any key. */
  lemma LiveEntryStays<K>(m: Entries<K>, key: K, newId: ChannelId, live: set<ChannelId>, kept: K)
    requires Coherent(m) && newId !in live
    requires kept in m.channels && m.channels[kept] in live
    ensures kept in GetOrInsert(m, key, newId, live).0.channels
    ensures GetOrInsert(m, key, newId, live).0.channels[kept] == m.channels[kept]
  {
    if key !in m.channels {
      var victim := InsertionEffect(m, key, newId, live);
      assert kept != key;
    }
  }

  /**
   * All a user of the map has to know about a lookup: it changes no entry but the key's own, drops
   * none that is live, and creates a channel exactly when the key is new.
   */
  ghost predicate Looked<K(!new)>(m: Entries<K>, key: K, newId: ChannelId, live: set<ChannelId>, after: Entries<K>,
      c: ChannelId) {
    && (forall k :: k in after.channels ==> k == key || k in m.channels)
    && (forall k :: k in after.channels ==> after.channels[k] == if k == key then c else m.channels[k])
    && (forall k :: k in m.channels && m.channels[k] in live ==> k in after.channels)
    && (key in m.channels ==> key in after.channels && c == m.channels[key])
    && (key !in m.channels ==> c == newId)
  }

  lemma LookupIsLooked<K(!new)>(m: Entries<K>, key: K, newId: ChannelId, live: set<ChannelId>)
    requires Coherent(m) && newId !in live
    ensures var (after, c) := GetOrInsert(m, key, newId, live);
      Looked(m, key, newId, live, after, c)
  {
    var (after, c) := GetOrInsert(m, key, newId, live);
    forall k | k in m.channels && m.channels[k] in live
      ensures k in after.channels
    {
      LiveEntryStays(m, key, newId, live, k);
    }
  }

  /** While at most `capacity` distinct keys are ever used, nothing is evicted. */
  lemma NoEvictionWithin<K>(m: Entries<K>, key: K, newId: ChannelId, live: set<ChannelId>, universe: set<K>)
    requires Coherent(m) && newId !in live
    requires m.channels.Keys <= universe && key in universe && |universe| <= m.capacity
    ensures var (after, c) := GetOrInsert(m, key, newId, live);
      after.channels == m.channels[key := c] && after.evictions == m.evictions
  {
    if key in m.channels {
      assert m.channels == m.channels[key := m.channels[key]];
    } else {
      SubsetSize(m.channels.Keys + {key}, universe);
      assert |m.channels.Keys + {key}| == |m.channels| + 1;
      var _ := InsertionEffect(m, key, newId, live);
    }
  }

  // -------------------------------------------------------------------- runs

  datatype Lookup<K> = Lookup(key: K, newId: ChannelId, live: set<ChannelId>)

  function LookUpAll<K(==)>(m: Entries<K>, run: seq<Lookup<K>>): Entries<K> {
    if run == [] then m
    else
      var last := run[|run| - 1];
      GetOrInsert(LookUpAll(m, run[..|run| - 1]), last.key, last.newId, last.live).0
  }

  function KeysOf<K>(run: seq<Lookup<K>>): (keys: seq<K>)
    ensures |keys| == |run|
  {
    seq(|run|, i requires 0 <= i < |run| => run[i].key)
  }

  lemma KeysOfAppend<K>(run: seq<Lookup<K>>, last: Lookup<K>)
    ensures KeysOf(run + [last]) == KeysOf(run) + [last.key]
  {
  }

  lemma KeysOfLast<K>(run: seq<Lookup<K>>)
    requires run != []
    ensures KeysOf(run) == KeysOf(run[..|run| - 1]) + [run[|run| - 1].key]
  {
  }

  ghost predicate NewIds<K>(run: seq<Lookup<K>>) {
    forall i :: 0 <= i < |run| ==> run[i].newId !in run[i].live
  }

  lemma {:induction false} LastTouchIs<K>(touched: seq<K>, key: K)
    requires key in touched
    ensures var t := LastTouch(touched, key);
      t >= 0 && touched[t] == key && key !in touched[t + 1..]
  {
    if touched[|touched| - 1] != key {
      var init := touched[..|touched| - 1];
      assert touched == init + [touched[|touched| - 1]];
      LastTouchIs(init, key);
      var t := LastTouch(init, key);
      assert touched[t + 1..] == init[t + 1..] + [touched[|touched| - 1]];
    }
  }

  lemma {:induction false} LookUpOneMore<K>(m: Entries<K>, run: seq<Lookup<K>>, last: Lookup<K>)
    ensures LookUpAll(m, run + [last]) == GetOrInsert(LookUpAll(m, run), last.key, last.newId, last.live).0
  {
    assert (run + [last])[..|run|] == run;
  }

  /** A map all of whose keys were touched at some time. */
  ghost predicate AllTouched<K(!new)>(m: Entries<K>) {
    Coherent(m) && forall k :: k in m.channels ==> k in m.touched
  }

  lemma LookupTouches<K(!new)>(m: Entries<K>, last: Lookup<K>)
    requires Coherent(m)
    ensures GetOrInsert(m, last.key, last.newId, last.live).0.touched == m.touched + [last.key]
  {
    if last.key in m.channels { assert last.key in Elements(m.order); }
  }

  lemma LookupKeepsAllTouched<K(!new)>(m: Entries<K>, last: Lookup<K>)
    requires AllTouched(m) && last.newId !in last.live
    ensures var after := GetOrInsert(m, last.key, last.newId, last.live).0;
      AllTouched(after) && after.capacity == m.capacity
  {
    GetOrInsertKeepsCoherent(m, last.key, last.newId, last.live);
    LookupIsLooked(m, last.key, last.newId, last.live);
    LookupTouches(m, last);
  }

  lemma NewMapIsAllTouched<K(!new)>(capacity: nat)
    ensures AllTouched(NoEntries<K>(capacity))
  {
  }

  /** After any run the touches are the lookups, one for each: a hit counts as much as an insertion. */
  lemma {:induction false} EveryLookupTouches<K(!new)>(capacity: nat, run: seq<Lookup<K>>)
    requires NewIds(run)
    ensures var m := LookUpAll(NoEntries(capacity), run);
      AllTouched(m) && m.capacity == capacity && m.touched == KeysOf(run)
    decreases |run|
  {
    if run == [] {
      NewMapIsAllTouched<K>(capacity);
    } else {
      var init, last := run[..|run| - 1], run[|run| - 1];
      EveryLookupTouches(capacity, init);
      KeysOfLast(run);
      var m := LookUpAll(NoEntries(capacity), init);
      LookupKeepsAllTouched(m, last);
      LookupTouches(m, last);
    }
  }

  /** One lookup: what it changes, `i` being the last touch of the entry that goes, if one does. */
  ghost predicate EvictsLongestUnused<K(!new)>(m: Entries<K>, next: Lookup<K>, keys: seq<K>, after: Entries<K>,
      i: nat) {
    var grown := m.channels[next.key := next.newId];
    if next.key in m.channels then after.channels == m.channels
    else if |m.channels| < m.capacity then after.channels == grown
    else
      && i < |keys| && keys[i] in grown && grown[keys[i]] !in next.live
      && after.channels == grown - {keys[i]}
      && keys[i] !in keys[i + 1..]
      && forall k :: k in grown && grown[k] !in next.live && k != keys[i] ==> k in keys[i + 1..]
  }

  lemma LookupEvictsLongestUnused<K(!new)>(m: Entries<K>, next: Lookup<K>) returns (i: nat)
    requires AllTouched(m) && next.newId !in next.live
    ensures EvictsLongestUnused(m, next, m.touched + [next.key],
                                GetOrInsert(m, next.key, next.newId, next.live).0, i)
  {
    i := 0;
    if next.key !in m.channels {
      var victim := InsertionEffect(m, next.key, next.newId, next.live);
      if |m.channels| >= m.capacity {
        i := LastLookup(Insert(m, next.key, next.newId), next.live, victim);
      }
    }
  }

  /**
   * Over any run of lookups on a new map: finding a key changes no entry; a new key is added; and when the
   * map was full, the entry without a receiver goes that was looked up longest ago: its last lookup is the
   * `i`th, and every other entry without a receiver has been looked up since.
   */
  lemma LeastRecentlyUsedGoes<K(!new)>(capacity: nat, run: seq<Lookup<K>>, next: Lookup<K>) returns (i: nat)
    requires NewIds(run) && next.newId !in next.live
    ensures var m, after := LookUpAll(NoEntries(capacity), run), LookUpAll(NoEntries(capacity), run + [next]);
      m.capacity == capacity && EvictsLongestUnused(m, next, KeysOf(run + [next]), after, i)
  {
    EveryLookupTouches(capacity, run);
    KeysOfAppend(run, next);
    LookUpOneMore(NoEntries(capacity), run, next);
    i := LookupEvictsLongestUnused(LookUpAll(NoEntries(capacity), run), next);
  }

  /** Where the least recent idle entry was last touched: all other idle ones have been touched since. */
  lemma LastLookup<K>(m: Entries<K>, live: set<ChannelId>, victim: K) returns (i: nat)
    requires LeastRecentIdle(m, live, victim) && forall k :: k in m.channels ==> k in m.touched
    ensures i < |m.touched| && m.touched[i] == victim && victim !in m.touched[i + 1..]
    ensures forall k :: k in m.channels && m.channels[k] !in live && k != victim ==> k in m.touched[i + 1..]
  {
    assert victim in m.channels;
    LastTouchIs(m.touched, victim);
    i := LastTouch(m.touched, victim);
    forall k | k in m.channels && m.channels[k] !in live && k != victim
      ensures k in m.touched[i + 1..]
    {
      assert Idle(m.channels, live, k);
      LastTouchIs(m.touched, k);
      var t := LastTouch(m.touched, k);
      assert m.touched[t] == k && t > i;
      assert m.touched[i + 1..][t - i - 1] == k;
    }
  }

  // ------------------------------------------------------------------- class

  class TopicMap<K(==)> {
    const capacity: nat
    var channels: map<K, ChannelId>
    var order: seq<K>
    var evictions: nat
    ghost var inserted: nat
    ghost var touched: seq<K>

    ghost function State(): Entries<K>
      reads this
    {
      Entries(capacity, channels, order, evictions, inserted, touched)
    }

    ghost predicate Valid()
      reads this
    {
      Coherent(State())
    }

    constructor (capacity: nat)
      ensures Valid() && State() == NoEntries<K>(capacity)
    {
      this.capacity := capacity;
      channels, order, evictions, inserted, touched := map[], [], 0, 0, [];
    }

    method TouchKey(key: K)
      modifies this
      ensures State() == Touch(old(State()), key)
    {
      var pos := 0;
      while pos < |order| && order[pos] != key
        invariant pos <= |order| && key !in order[..pos]
      {
        pos := pos + 1;
      }
      if pos < |order| {
        assert IndexOf(order, key) == pos;
        order := RemoveAt(order, pos) + [key];
        touched := touched + [key];
      }
    }

    method Evict(live: set<ChannelId>)
      modifies this
      ensures State() == EvictOverCapacity(old(State()), live)
    {
      if |channels| <= capacity { return; }
      var pos := 0;
      while pos < |order| && !(order[pos] in channels && channels[order[pos]] !in live)
        invariant pos <= |order|
        invariant forall j :: 0 <= j < pos ==> !Idle(channels, live, order[j])
      {
        pos := pos + 1;
      }
      assert FirstIdle(order, channels, live) == pos;
      if pos == |order| { return; }
      var key := order[pos];
      order := RemoveAt(order, pos);
      channels := channels - {key};
      evictions := evictions + 1;
    }

    method Lookup(key: K, newId: ChannelId, live: set<ChannelId>) returns (c: ChannelId)
      requires Valid() && newId !in live
      modifies this
      ensures Valid()
      ensures (State(), c) == GetOrInsert(old(State()), key, newId, live)
    {
      GetOrInsertKeepsCoherent(State(), key, newId, live);
      c := FindOrAdd(key, newId, live);
    }

    method FindOrAdd(key: K, newId: ChannelId, live: set<ChannelId>) returns (c: ChannelId)
      modifies this
      ensures (State(), c) == GetOrInsert(old(State()), key, newId, live)
    {
      if key in channels {
        c := channels[key];
        TouchKey(key);
        return;
      }
      channels := channels[key := newId];
      order := order + [key];
      inserted := inserted + 1;
      touched := touched + [key];
      Evict(live);
      c := newId;
    }
  }
}
