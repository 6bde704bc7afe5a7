/**
 * What a restart does to wildcard subscribers. Exact topics get their buffers and retained messages back;
 * the buffers of patterns are not stored, and start empty.
 */
module WildcardRestart {
  import opened Common
  import opened TopicFilters
  import opened Sorting
  import opened Channels
  import opened TopicMaps
  import opened Routing
  import opened Rehydration
  import opened Store
  import opened Broker
  import opened Restart

  /** `e` is the stored retained message of a topic that `filter` matches. */
  ghost predicate StoredFor(tables: Tables, filter: TopicFilter, e: Envelope) {
    exists t :: Matches(filter, t) && RetainedFor(tables, t) == Some(e)
  }

  /** The pattern's own part of the backlog a subscription would be given. */
  function Own(s: State, filter: TopicFilter): seq<Envelope> {
    var (found, c) := Find(s, filter);
    if c in found.channels then Backlog(found.channels[c]) else []
  }

  lemma FoundRetains(s: State, filter: TopicFilter, tables: Tables, universe: set<Topic>, e: Envelope)
    requires Roomy(s, universe) && !IsLiteral(filter) && Mirrors(s, tables)
    ensures var found := FindPattern(s, filter).0;
      Named(found) && (IsRetained(found, filter, e) <==> StoredFor(tables, filter, e))
  {
    FindFinds(s, filter);
    FindPatternRemembers(s, filter, universe);
    var found := FindPattern(s, filter).0;
    if IsRetained(found, filter, e) {
      var t :| t in found.topics.channels && Matches(filter, t)
        && found.channels[found.topics.channels[t]].retained == Some(e);
      assert RetainedIn(found, t) == Some(e) && RetainedIn(s, t) == RetainedIn(found, t);
    }
    if StoredFor(tables, filter, e) {
      var t :| Matches(filter, t) && RetainedFor(tables, t) == Some(e);
      assert RetainedIn(s, t) == Some(e) && RetainedIn(s, t) == RetainedIn(found, t);
    }
  }

  lemma RetainedIsGiven(found: State, c: ChannelId, filter: TopicFilter, merged: seq<Envelope>, backlog: seq<Envelope>,
      e: Envelope)
    requires Named(found) && c in found.channels && Merged(found, c, filter, found.topics.channels.Keys, merged)
    requires IsRetained(found, filter, e) && forall x :: x in merged ==> x in backlog
    ensures HasId(backlog, e.id)
  {
    var t :| t in found.topics.channels && Matches(filter, t)
      && found.channels[found.topics.channels[t]].retained == Some(e);
    assert Represented(found.channels[found.topics.channels[t]], filter, t, merged);
    var i :| 0 <= i < |merged| && merged[i].id == e.id;
    assert merged[i] in backlog;
    var k :| 0 <= k < |backlog| && backlog[k] == merged[i];
  }

  /** What memory that mirrors the log gives a wildcard subscriber first. */
  lemma BacklogIs(s: State, filter: TopicFilter, tables: Tables, universe: set<Topic>, backlog: seq<Envelope>)
    requires Roomy(s, universe) && !IsLiteral(filter) && Mirrors(s, tables) && IsBacklog(s, filter, backlog)
    ensures SortedById(backlog) && (UniqueIds(Own(s, filter)) ==> UniqueIds(backlog))
    ensures forall e :: e in Own(s, filter) ==> e in backlog
    ensures forall e :: e in backlog ==> e in Own(s, filter) || StoredFor(tables, filter, e)
    ensures forall e :: StoredFor(tables, filter, e) ==> HasId(backlog, e.id)
  {
    var (found, c) := FindPattern(s, filter);
    FindFinds(s, filter);
    var merged: seq<Envelope> :| Merged(found, c, filter, found.topics.channels.Keys, merged)
      && multiset(backlog) == multiset(merged);
    assert forall e :: e in backlog <==> e in merged by {
      assert forall e :: e in backlog <==> e in multiset(backlog);
      assert forall e :: e in merged <==> e in multiset(merged);
    }
    forall e
      ensures IsRetained(found, filter, e) <==> StoredFor(tables, filter, e)
    {
      FoundRetains(s, filter, tables, universe, e);
    }
    forall e | IsRetained(found, filter, e)
      ensures HasId(backlog, e.id)
    {
      RetainedIsGiven(found, c, filter, merged, backlog, e);
    }
    if UniqueIds(Own(s, filter)) { SameCountsUnique(merged, backlog); }
  }

  lemma SameCountsUnique(a: seq<Envelope>, b: seq<Envelope>)
    requires UniqueIds(a) && multiset(a) == multiset(b)
    ensures UniqueIds(b)
  {
    UniqueMultiset(a);
    forall i, j | 0 <= i < j < |b|
      ensures b[i].id != b[j].id
    {
      assert b[i] in multiset(a) && b[j] in multiset(a);
      if b[i].id == b[j].id {
        SameIdSame(a, b[i], b[j]);
        TwiceInMultiset(b, i, j);
      }
    }
  }

  // ------------------------------------------------------------- after a restart

  lemma {:induction false} BuffersLeavePatterns(s: State, groups: seq<(Topic, seq<Envelope>)>)
    ensures RehydrateBuffers(s, groups).patterns == s.patterns
  {
    if groups != [] { BuffersLeavePatterns(s, groups[..|groups| - 1]); }
  }

  lemma {:induction false} RetainedLeavePatterns(s: State, retained: seq<(Topic, Envelope)>)
    ensures RehydrateAllRetained(s, retained).patterns == s.patterns
  {
    if retained != [] { RetainedLeavePatterns(s, retained[..|retained| - 1]); }
  }

  /** After a restart no pattern has anything of its own to give. */
  lemma RestoredHasNoPatterns(capacities: Capacities, groups: seq<Group>, retained: seq<(Topic, Envelope)>,
      filter: TopicFilter)
    requires !IsLiteral(filter)
    ensures Own(Restored(capacities, groups, retained), filter) == []
  {
    var s := Restored(capacities, groups, retained);
    BuffersLeavePatterns(Initial(capacities), groups);
    RetainedLeavePatterns(RehydrateBuffers(Initial(capacities), groups), retained);
    RestoredIsUnsubscribed(capacities, groups, retained);
    LiveAreChannels(s);
  }

  /**
   * After any run and one more restart, the backlog of a wildcard subscription is exactly the stored retained
   * messages of the topics it matches, sorted by id: each of them is in it, or another with its id.
   */
  lemma {:induction false} WildcardBacklogAfterRestart(limits: Limits, capacities: Capacities, universe: set<Topic>,
      run: seq<Step>, groups: seq<Group>, retained: seq<(Topic, Envelope)>, filter: TopicFilter,
      backlog: seq<Envelope>)
    requires limits.keep >= capacities.replay && |universe| <= capacities.entries && !IsLiteral(filter)
    requires forall i :: 0 <= i < |run| ==> Within(run[i], universe)
    requires var node := Restart.Execute(NewNode(limits, capacities), run);
      Enabled(node, Restarting(groups, retained))
        && IsBacklog(Restart.Next(node, Restarting(groups, retained)).broker, filter, backlog)
    ensures var tables := Restart.Execute(NewNode(limits, capacities), run).tables;
      && StrictlySorted(backlog)
      && (forall e :: e in backlog ==> StoredFor(tables, filter, e))
      && (forall e :: StoredFor(tables, filter, e) ==> HasId(backlog, e.id))
  {
    var node := Reached(limits, capacities, universe, run);
    RestartedBacklog(node, universe, groups, retained, filter, backlog);
  }

  lemma {:induction false} Reached(limits: Limits, capacities: Capacities, universe: set<Topic>, run: seq<Step>)
    returns (node: Node)
    requires limits.keep >= capacities.replay && |universe| <= capacities.entries
    requires forall i :: 0 <= i < |run| ==> Within(run[i], universe)
    ensures node == Restart.Execute(NewNode(limits, capacities), run) && Recoverable(node, universe)
  {
    InitialKeepsInv(capacities);
    RunKeeps(NewNode(limits, capacities), run, universe);
    node := Restart.Execute(NewNode(limits, capacities), run);
  }

  lemma RestartedBacklog(node: Node, universe: set<Topic>, groups: seq<Group>, retained: seq<(Topic, Envelope)>,
                         filter: TopicFilter, backlog: seq<Envelope>)
    requires Recoverable(node, universe) && Enabled(node, Restarting(groups, retained)) && !IsLiteral(filter)
    requires IsBacklog(Restart.Next(node, Restarting(groups, retained)).broker, filter, backlog)
    ensures StrictlySorted(backlog)
    ensures forall e :: e in backlog ==> StoredFor(node.tables, filter, e)
    ensures forall e :: StoredFor(node.tables, filter, e) ==> HasId(backlog, e.id)
  {
    var restored, tables := Restored(node.broker.capacities, groups, retained), Reopened(node);
    PruneIsUnnoticed(node.tables, node.limits.keep, node.broker.capacities.replay, universe);
    RestoredMirrors(node.broker.capacities, tables, groups, retained, universe);
    RestoredHasNoPatterns(node.broker.capacities, groups, retained, filter);
    BacklogIs(restored, filter, tables, universe, backlog);
    SortedUnique(backlog);
    assert forall e :: StoredFor(tables, filter, e) <==> StoredFor(node.tables, filter, e) by {
      assert forall t :: RetainedFor(tables, t) == RetainedFor(node.tables, t);
    }
  }

  lemma SortedUnique(s: seq<Envelope>)
    requires SortedById(s) && UniqueIds(s)
    ensures StrictlySorted(s)
  {
  }

  // ------------------------------------------------------------------ visible or not

  ghost predicate Given(s: State, tables: Tables, filter: TopicFilter, e: Envelope) {
    e in Own(s, filter) || StoredFor(tables, filter, e)
  }

  /** Among what the pattern and the log have for this filter, an id names one message. */
  ghost predicate OneEach(s: State, tables: Tables, filter: TopicFilter) {
    && UniqueIds(Own(s, filter))
    && forall x, y :: Given(s, tables, filter, x) && Given(s, tables, filter, y) && x.id == y.id ==> x == y
  }

  lemma TailElements(s: seq<Envelope>, e: Envelope)
    requires StrictlySorted(s) && s != []
    ensures e in s[1..] <==> e in s && e != s[0]
    ensures e in s ==> s[0].id <= e.id
  {
    if e in s {
      var k :| 0 <= k < |s| && s[k] == e;
      if k > 0 { assert s[1..][k - 1] == e && s[0].id < s[k].id; }
    }
    if e in s[1..] {
      var k :| 0 <= k < |s| - 1 && s[1..][k] == e;
      assert s[k + 1] == e && s[0].id < s[k + 1].id;
    }
  }

  lemma SomethingIn(s: seq<Envelope>)
    ensures s != [] ==> exists e :: e in s
  {
    if s != [] { assert s[0] in s; }
  }

  lemma {:induction false} SameElementsSame(a: seq<Envelope>, b: seq<Envelope>)
    requires StrictlySorted(a) && StrictlySorted(b) && forall e :: e in a <==> e in b
    ensures a == b
    decreases |a|
  {
    if a == [] {
      SomethingIn(b);
    } else {
      assert a[0] in b && b[0] in a;
      TailElements(a, b[0]);
      TailElements(b, a[0]);
      assert a[0] == b[0];
      forall e
        ensures e in a[1..] <==> e in b[1..]
      {
        TailElements(a, e);
        TailElements(b, e);
      }
      SameElementsSame(a[1..], b[1..]);
      assert a == [a[0]] + a[1..] && b == [b[0]] + b[1..];
    }
  }

  /**
   * So a restart is visible to a wildcard subscriber exactly when the pattern had, of its own, a message that
   * is not the stored retained message of its topic.
   */
  lemma {:induction false} WildcardSeesRestartIff(limits: Limits, capacities: Capacities, universe: set<Topic>,
      run: seq<Step>, groups: seq<Group>, retained: seq<(Topic, Envelope)>, filter: TopicFilter,
      before: seq<Envelope>, after: seq<Envelope>)
    requires limits.keep >= capacities.replay && |universe| <= capacities.entries && !IsLiteral(filter)
    requires forall i :: 0 <= i < |run| ==> Within(run[i], universe)
    requires var node := Restart.Execute(NewNode(limits, capacities), run);
      && Enabled(node, Restarting(groups, retained)) && OneEach(node.broker, node.tables, filter)
      && IsBacklog(node.broker, filter, before)
      && IsBacklog(Restart.Next(node, Restarting(groups, retained)).broker, filter, after)
    ensures var node := Restart.Execute(NewNode(limits, capacities), run);
      before != after <==> exists e :: e in Own(node.broker, filter) && !StoredFor(node.tables, filter, e)
  {
    var node := Reached(limits, capacities, universe, run);
    BacklogIs(node.broker, filter, node.tables, universe, before);
    SortedUnique(before);
    RestartedBacklog(node, universe, groups, retained, filter, after);
    BacklogsCompared(node.broker, node.tables, filter, before, after);
  }

  lemma BacklogsCompared(s: State, tables: Tables, filter: TopicFilter, before: seq<Envelope>, after: seq<Envelope>)
    requires OneEach(s, tables, filter) && StrictlySorted(before) && StrictlySorted(after)
    requires forall e :: e in Own(s, filter) ==> e in before
    requires forall e :: e in before ==> e in Own(s, filter) || StoredFor(tables, filter, e)
    requires forall e :: e in after ==> StoredFor(tables, filter, e)
    requires forall e :: StoredFor(tables, filter, e) ==> HasId(before, e.id) && HasId(after, e.id)
    ensures before != after <==> exists e :: e in Own(s, filter) && !StoredFor(tables, filter, e)
  {
    forall e | StoredFor(tables, filter, e)
      ensures e in before && e in after
    {
      var i :| 0 <= i < |before| && before[i].id == e.id;
      var j :| 0 <= j < |after| && after[j].id == e.id;
      assert before[i] in before && after[j] in after;
    }
    if forall e :: e in Own(s, filter) ==> StoredFor(tables, filter, e) {
      SameElementsSame(before, after);
    }
  }
}
