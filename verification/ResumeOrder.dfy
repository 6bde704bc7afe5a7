/**
 * Which orders of publishing a durable subscriber survives, whatever its sessions. A schedule is a run with
 * given appends and given broadcasts, each in its order, and any reads, connects, sends, records and
 * disconnects in between.
 */
module ResumeOrder {
  import opened Common
  import opened Sequences
  import opened Sorting
  import opened Resume

  function Appends(run: seq<Step>): seq<Envelope> {
    if run == [] then []
    else if run[0].Append? then [run[0].envelope] + Appends(run[1..])
    else Appends(run[1..])
  }

  function Broadcasts(run: seq<Step>): seq<Envelope> {
    if run == [] then []
    else if run[0].Broadcast? then [run[0].envelope] + Broadcasts(run[1..])
    else Broadcasts(run[1..])
  }

  /** A run with these appends and these broadcasts. */
  predicate Schedules(run: seq<Step>, appends: seq<Envelope>, broadcasts: seq<Envelope>) {
    Appends(run) == appends && Broadcasts(run) == broadcasts
  }

  /** All is broadcast, the subscriber is up to date, and a message above its first position was never sent to it. */
  ghost predicate Missed(s: State, start: MessageId) {
    && s.connected && s.todo == [] && s.unrecorded.None? && s.pending == {}
    && exists e :: e in s.log && e.id > start && e !in s.sent
  }

  /** The `j`th message of an order is above the first position, and comes after one with a higher id. */
  ghost predicate Overtaken(before: seq<Envelope>, start: MessageId, order: seq<Envelope>, j: nat) {
    && j < |order| && order[j].id > start
    && exists x :: x in before + order[..j] && x.id > order[j].id
  }

  // -------------------------------------------------------- in order: none missed

  ghost predicate InOrder(before: seq<Envelope>, start: MessageId, order: seq<Envelope>)
    decreases |order|
  {
    order != [] ==>
      NotOvertaken(before, start, order[0]) && InOrder(before + [order[0]], start, order[1..])
  }

  lemma {:induction false} InOrderUnlessOvertaken(before: seq<Envelope>, start: MessageId, order: seq<Envelope>)
    requires UniqueIds(before + order)
    requires forall j: nat :: !Overtaken(before, start, order, j)
    ensures InOrder(before, start, order)
    decreases |order|
  {
    if order != [] {
      var head, rest := order[0], order[1..];
      assert order == [head] + rest;
      NewId(before, head, rest);
      assert before + order[..0] == before;
      assert !Overtaken(before, start, order, 0);
      assert before + [head] + rest == before + order;
      forall j: nat
        ensures !Overtaken(before + [head], start, rest, j)
      {
        if j < |rest| {
          assert before + [head] + rest[..j] == before + order[..j + 1];
          assert !Overtaken(before, start, order, j + 1);
        }
      }
      InOrderUnlessOvertaken(before + [head], start, rest);
    }
  }

  lemma NewId(log: seq<Envelope>, head: Envelope, rest: seq<Envelope>)
    requires UniqueIds(log + ([head] + rest))
    ensures forall e :: e in log ==> e.id != head.id
  {
    var all := log + ([head] + rest);
    forall e | e in log
      ensures e.id != head.id
    {
      var i :| 0 <= i < |log| && log[i] == e;
      assert all[i].id != all[|log|].id;
    }
  }

  /** In order, whatever comes later is higher. */
  lemma {:induction false} LaterIsHigher(before: seq<Envelope>, start: MessageId, order: seq<Envelope>, x: Envelope,
      e: Envelope)
    requires InOrder(before, start, order) && x in before && e in order && e.id > start
    ensures x.id < e.id
    decreases |order|
  {
    if e != order[0] { LaterIsHigher(before + [order[0]], start, order[1..], x, e); }
  }

  /** What is broadcast in the end is broadcast by the run. */
  lemma {:induction false} PendingIsBroadcast(s: State, run: seq<Step>, e: Envelope)
    requires e in s.pending && e !in Execute(s, run).pending
    ensures e in Broadcasts(run)
    decreases |run|
  {
    if run != [] && e in Next(s, run[0]).pending { PendingIsBroadcast(Next(s, run[0]), run[1..], e); }
  }

  /**
   * If no append and no broadcast above the first position is overtaken, no schedule misses anything above
   * it. `before` are the broadcasts made so far.
   */
  lemma {:induction false} InOrderIsNotMissed(s: State, start: MessageId, run: seq<Step>, before: seq<Envelope>)
    requires Owed(s, start) && InOrder(s.log, start, Appends(run)) && InOrder(before, start, Broadcasts(run))
    requires UniqueIds(s.log + Appends(run))
    ensures !Missed(Execute(s, run), start)
    decreases |run|
  {
    if Execute(s, run).pending != {} {
    } else if run == [] {
      forall e | e in s.log && e.id > start && e !in s.sent && s.connected
        ensures s.todo != []
      {
        assert Coming(s, e);
      }
    } else {
      StepFits(s, start, run, before);
      StepKeepsOwed(s, start, run[0]);
      if run[0].Append? {
        var head, rest := run[0].envelope, Appends(run[1..]);
        assert Appends(run) == [head] + rest;
        NewId(s.log, head, rest);
        assert s.log + [head] + rest == s.log + Appends(run);
      }
      InOrderIsNotMissed(Next(s, run[0]), start, run[1..], if run[0].Broadcast? then before + [run[0].envelope]
        else before);
    }
  }

  lemma {:induction false} StepFits(s: State, start: MessageId, run: seq<Step>, before: seq<Envelope>)
    requires run != [] && Execute(s, run).pending == {}
    requires InOrder(s.log, start, Appends(run)) && InOrder(before, start, Broadcasts(run))
    ensures Enabled(s, run[0]) ==> Fits(s, start, run[0])
  {
    if run[0].Broadcast? && Enabled(s, run[0]) {
      var envelope, rest := run[0].envelope, Broadcasts(run[1..]);
      assert Broadcasts(run) == [envelope] + rest && Broadcasts(run)[1..] == rest;
      forall e | e in s.pending && e != envelope && e.id > start
        ensures envelope.id < e.id
      {
        PendingIsBroadcast(Next(s, run[0]), run[1..], e);
        LaterIsHigher(before + [envelope], start, rest, envelope, e);
      }
    }
  }

  // ------------------------------------------------------ out of order: a schedule

  /** A run from `s` to `t`, and what it appends and broadcasts. */
  ghost predicate Goes(s: State, run: seq<Step>, t: State, appends: seq<Envelope>, broadcasts: seq<Envelope>) {
    Execute(s, run) == t && Schedules(run, appends, broadcasts)
  }

  lemma {:induction false} SchedulesConcat(first: seq<Step>, second: seq<Step>)
    ensures Appends(first + second) == Appends(first) + Appends(second)
    ensures Broadcasts(first + second) == Broadcasts(first) + Broadcasts(second)
    decreases |first|
  {
    if first == [] {
      assert first + second == second;
    } else {
      assert (first + second)[1..] == first[1..] + second;
      SchedulesConcat(first[1..], second);
    }
  }

  lemma GoesOn(s: State, run1: seq<Step>, t: State, a1: seq<Envelope>, b1: seq<Envelope>,
               run2: seq<Step>, u: State, a2: seq<Envelope>, b2: seq<Envelope>)
    requires Goes(s, run1, t, a1, b1) && Goes(t, run2, u, a2, b2)
    ensures Goes(s, run1 + run2, u, a1 + a2, b1 + b2)
  {
    ExecuteConcat(s, run1, run2);
    SchedulesConcat(run1, run2);
  }

  lemma {:induction false} GoesAppending(s: State, envelopes: seq<Envelope>) returns (run: seq<Step>)
    requires UniqueIds(s.log + envelopes)
    ensures Goes(s, run, s.(log := s.log + envelopes, pending := s.pending + Elements(envelopes)), envelopes, [])
    decreases |envelopes|
  {
    if envelopes == [] {
      assert s.log + [] == s.log && s.pending + Elements([]) == s.pending;
      run := [];
    } else {
      var head, rest := envelopes[0], envelopes[1..];
      assert envelopes == [head] + rest;
      NewId(s.log, head, rest);
      assert s.log + [head] + rest == s.log + envelopes;
      assert s.pending + {head} + Elements(rest) == s.pending + Elements(envelopes);
      var after := GoesAppending(Next(s, Append(head)), rest);
      run := [Append(head)] + after;
      assert run[1..] == after;
    }
  }

  /** Between sessions a broadcast is heard by nobody. */
  lemma {:induction false} GoesBroadcasting(s: State, envelopes: seq<Envelope>) returns (run: seq<Step>)
    requires !s.connected
    ensures Goes(s, run, s.(pending := s.pending - Elements(envelopes)), [], envelopes)
    decreases |envelopes|
  {
    if envelopes == [] {
      assert s.pending - Elements([]) == s.pending;
      run := [];
    } else {
      var head, rest := envelopes[0], envelopes[1..];
      assert envelopes == [head] + rest;
      assert s.pending - {head} - Elements(rest) == s.pending - Elements(envelopes);
      assert head !in s.pending ==> s.pending - {head} == s.pending;
      var after := GoesBroadcasting(Next(s, Broadcast(head)), rest);
      run := [Broadcast(head)] + after;
      assert run[1..] == after;
    }
  }

  /** Everything waiting is sent and recorded. */
  function Drained(s: State): State {
    s.(todo := [], sent := s.sent + s.todo, position := if s.todo == [] then s.position else s.todo[|s.todo| - 1].id)
  }

  lemma {:induction false} GoesDraining(s: State) returns (run: seq<Step>)
    requires s.connected && s.unrecorded.None?
    ensures Goes(s, run, Drained(s), [], [])
    decreases |s.todo|
  {
    if s.todo == [] {
      assert s.sent + [] == s.sent;
      run := [];
    } else {
      var recorded := Next(Next(s, Send), Record);
      var after := GoesDraining(recorded);
      run := [Send, Record] + after;
      assert run[1..] == [Record] + after && run[1..][1..] == after;
      assert s.sent + [s.todo[0]] + s.todo[1..] == s.sent + s.todo;
    }
  }

  /** The rows above a position, sorted by id. */
  ghost predicate IsAbove(log: seq<Envelope>, position: MessageId, backlog: seq<Envelope>) {
    && StrictlySorted(backlog)
    && forall e :: e in backlog <==> e in log && e.id > position
  }

  function RowsAbove(log: seq<Envelope>, position: MessageId): seq<Envelope> {
    if log == [] then []
    else if log[0].id > position then [log[0]] + RowsAbove(log[1..], position)
    else RowsAbove(log[1..], position)
  }

  lemma {:induction false} RowsAboveAre(log: seq<Envelope>, position: MessageId)
    requires UniqueIds(log)
    ensures UniqueIds(RowsAbove(log, position))
    ensures forall e :: e in RowsAbove(log, position) <==> e in log && e.id > position
  {
    if log != [] {
      RowsAboveAre(log[1..], position);
      assert log == [log[0]] + log[1..];
      var rest := RowsAbove(log[1..], position);
      forall i | 0 <= i < |rest|
        ensures rest[i].id != log[0].id
      {
        assert rest[i] in rest;
        var k :| 0 <= k < |log| - 1 && log[1..][k] == rest[i];
        assert log[k + 1] == rest[i];
      }
    }
  }

  /** Where a subscriber is after a whole session that was sent `backlog`. */
  function After(s: State, backlog: seq<Envelope>): State {
    Drained(s.(read := None, connected := true, todo := backlog))
  }

  /** One whole session, from reading to being up to date. */
  lemma GoesThroughSession(s: State) returns (run: seq<Step>, backlog: seq<Envelope>)
    requires !s.connected && s.unrecorded.None? && UniqueIds(s.log)
    ensures IsAbove(s.log, s.position, backlog)
    ensures Goes(s, run, After(s, backlog), [], [])
  {
    RowsAboveAre(s.log, s.position);
    SortUnique(RowsAbove(s.log, s.position));
    backlog := SortById(RowsAbove(s.log, s.position));
    var read := Next(s, Read);
    assert read.log[..|s.log|] == s.log;
    var after := GoesDraining(Next(read, Connect(backlog)));
    run := [Read, Connect(backlog)] + after;
    assert run[1..] == [Connect(backlog)] + after && run[1..][1..] == after;
  }

  lemma GoesDeliveringOne(s: State, e: Envelope)
    requires s.connected && s.todo == [] && s.unrecorded.None? && e in s.pending
    ensures Goes(s, [Broadcast(e), Send, Record],
      s.(pending := s.pending - {e}, sent := s.sent + [e], position := e.id), [], [e])
  {
    var heard := s.(pending := s.pending - {e}, todo := [e]);
    var sent := heard.(todo := [], sent := s.sent + [e], unrecorded := Some(e.id));
    assert [] + [e] == [e] && [e][1..] == [];
    PassesThrough([s, heard, sent, sent.(position := e.id, unrecorded := None)], [Broadcast(e), Send, Record]);
    assert [Broadcast(e), Send, Record][1..] == [Send, Record] && [Send, Record][1..] == [Record];
    assert Broadcasts([Send, Record]) == [];
  }

  /** Live, one after the other, each sent and recorded before the next is broadcast. */
  lemma {:induction false} GoesDelivering(s: State, envelopes: seq<Envelope>) returns (run: seq<Step>)
    requires s.connected && s.todo == [] && s.unrecorded.None?
    requires Distinct(envelopes) && forall e :: e in envelopes ==> e in s.pending
    ensures Goes(s, run, s.(pending := s.pending - Elements(envelopes), sent := s.sent + envelopes,
                            position := if envelopes == [] then s.position else envelopes[|envelopes| - 1].id),
                 [], envelopes)
    decreases |envelopes|
  {
    if envelopes == [] {
      assert s.pending - Elements([]) == s.pending && s.sent + [] == s.sent;
      run := [];
    } else {
      var head, rest := envelopes[0], envelopes[1..];
      assert envelopes == [head] + rest;
      assert s.pending - {head} - Elements(rest) == s.pending - Elements(envelopes);
      assert s.sent + [head] + rest == s.sent + envelopes;
      DistinctTail(envelopes);
      GoesDeliveringOne(s, head);
      var delivered := s.(pending := s.pending - {head}, sent := s.sent + [head], position := head.id);
      assert forall e :: e in rest ==> e in Elements(rest);
      var after := GoesDelivering(delivered, rest);
      run := [Broadcast(head), Send, Record] + after;
      GoesOn(s, [Broadcast(head), Send, Record], delivered, [], [head], after, Execute(delivered, after), [], rest);
    }
  }

  // ------------------------------------------------------------------ the two ways

  lemma Prefixes(a: seq<Envelope>, b: seq<Envelope>)
    requires UniqueIds(a + b)
    ensures UniqueIds(a) && UniqueIds(b)
    ensures forall x, y :: x in a && y in b ==> x.id != y.id
  {
    forall i, j | 0 <= i < j < |a|
      ensures a[i].id != a[j].id
    {
      assert (a + b)[i].id != (a + b)[j].id;
    }
    forall i, j | 0 <= i < j < |b|
      ensures b[i].id != b[j].id
    {
      assert (a + b)[|a| + i].id != (a + b)[|a| + j].id;
    }
    forall x, y | x in a && y in b
      ensures x.id != y.id
    {
      var i :| 0 <= i < |a| && a[i] == x;
      var j :| 0 <= j < |b| && b[j] == y;
      assert (a + b)[i].id != (a + b)[|a| + j].id;
    }
  }

  /** After a session, the position is above every lower message than one that was there. */
  lemma PassedBy(log: seq<Envelope>, start: MessageId, envelope: Envelope, backlog: seq<Envelope>)
    requires IsAbove(log, start, backlog) && envelope.id > start
    requires exists x :: x in log && x.id > envelope.id
    ensures backlog != [] && backlog[|backlog| - 1].id > envelope.id
  {
    var x :| x in log && x.id > envelope.id;
    var i :| 0 <= i < |backlog| && backlog[i] == x;
    if i < |backlog| - 1 { assert backlog[i].id < backlog[|backlog| - 1].id; }
  }

  lemma MissedAfter(s: State, backlog: seq<Envelope>, start: MessageId, e: Envelope)
    requires s.pending == {} && s.unrecorded.None? && IsAbove(s.log, s.position, backlog)
    requires e in s.log && start < e.id <= s.position && e !in s.sent
    ensures Missed(After(s, backlog), start)
  {
    assert e !in backlog;
  }

  /**
   * Overtaken on the way to the log: what comes before is appended, then a session; the message and what
   * comes after are appended between sessions, and all is broadcast there; the next session passes it by.
   */
  lemma LateAppendIsMissed(log: seq<Envelope>, start: MessageId, appends: seq<Envelope>, broadcasts: seq<Envelope>,
      j: nat)
    returns (run: seq<Step>)
    requires UniqueIds(log + appends) && Elements(broadcasts) == Elements(appends) && Overtaken(log, start, appends, j)
    ensures Schedules(run, appends, broadcasts) && Missed(Execute(Initial(log, start), run), start)
  {
    var s0, early, late := Initial(log, start), appends[..j], appends[j..];
    assert appends == early + late && log + appends == log + early + late;
    Prefixes(log + early, late);
    var run1 := GoesAppending(s0, early);
    var s1 := s0.(log := log + early, pending := {} + Elements(early));
    var run2, first := GoesThroughSession(s1);
    var s2 := After(s1, first);
    GoesOn(s0, run1, s1, early, [], run2, s2, [], []);
    var s3 := Next(s2, Disconnect);
    assert Goes(s2, [Disconnect], s3, [], []);
    GoesOn(s0, run1 + run2, s2, early, [], [Disconnect], s3, [], []);
    var run4 := GoesAppending(s3, late);
    var s4 := s3.(log := s3.log + late, pending := s3.pending + Elements(late));
    GoesOn(s0, run1 + run2 + [Disconnect], s3, early, [], run4, s4, late, []);
    var run5 := GoesBroadcasting(s4, broadcasts);
    var s5 := s4.(pending := s4.pending - Elements(broadcasts));
    GoesOn(s0, run1 + run2 + [Disconnect] + run4, s4, appends, [], run5, s5, [], broadcasts);
    var run6, second := GoesThroughSession(s5);
    run := run1 + run2 + [Disconnect] + run4 + run5 + run6;
    GoesOn(s0, run1 + run2 + [Disconnect] + run4 + run5, s5, appends, broadcasts, run6, After(s5, second), [], []);
    PassedBy(log + early, start, appends[j], first);
    assert late[0] == appends[j];
    MissedAfter(s5, second, start, late[0]);
  }

  /**
   * Overtaken on the way to the broadcast: everything is appended during a session; it ends after the higher
   * message was broadcast and sent; the rest is broadcast between sessions, and the next passes it by.
   */
  lemma LateBroadcastIsMissed(log: seq<Envelope>, start: MessageId, appends: seq<Envelope>, broadcasts: seq<Envelope>,
      i: nat, j: nat)
    returns (run: seq<Step>)
    requires UniqueIds(log + appends) && Elements(broadcasts) == Elements(appends) && Distinct(broadcasts)
    requires i < j < |broadcasts| && start < broadcasts[j].id < broadcasts[i].id
    ensures Schedules(run, appends, broadcasts) && Missed(Execute(Initial(log, start), run), start)
  {
    var s0, early, late := Initial(log, start), broadcasts[..i + 1], broadcasts[i + 1..];
    var e := broadcasts[j];
    assert broadcasts == early + late;
    assert e in Elements(appends);
    Prefixes(log, appends);
    var run1, first := GoesThroughSession(s0);
    var s1 := After(s0, first);
    var run2 := GoesAppending(s1, appends);
    var s2 := s1.(log := log + appends, pending := {} + Elements(appends));
    GoesOn(s0, run1, s1, [], [], run2, s2, appends, []);
    EarlyOnes(broadcasts, i, j);
    forall x | x in early
      ensures x in s2.pending
    {
      assert x in Elements(broadcasts);
    }
    var run3 := GoesDelivering(s2, early);
    var s3 := s2.(pending := s2.pending - Elements(early), sent := s2.sent + early, position := broadcasts[i].id);
    assert early[|early| - 1] == broadcasts[i];
    GoesOn(s0, run1 + run2, s2, appends, [], run3, s3, [], early);
    var s4 := Next(s3, Disconnect);
    assert Goes(s3, [Disconnect], s4, [], []);
    GoesOn(s0, run1 + run2 + run3, s3, appends, early, [Disconnect], s4, [], []);
    var run5 := GoesBroadcasting(s4, late);
    var s5 := s4.(pending := s4.pending - Elements(late));
    GoesOn(s0, run1 + run2 + run3 + [Disconnect], s4, appends, early, run5, s5, [], late);
    var run6, second := GoesThroughSession(s5);
    run := run1 + run2 + run3 + [Disconnect] + run5 + run6;
    GoesOn(s0, run1 + run2 + run3 + [Disconnect] + run5, s5, appends, broadcasts, run6, After(s5, second), [], []);
    assert e !in first;
    MissedAfter(s5, second, start, e);
  }

  lemma EarlyOnes(order: seq<Envelope>, i: nat, j: nat)
    requires Distinct(order) && i < j < |order|
    ensures Distinct(order[..i + 1]) && order[j] !in order[..i + 1]
  {
    assert forall k :: 0 <= k <= i ==> order[..i + 1][k] == order[k];
  }

  lemma Overtaker(start: MessageId, order: seq<Envelope>, j: nat) returns (i: nat)
    requires Overtaken([], start, order, j)
    ensures i < j < |order| && start < order[j].id < order[i].id
  {
    assert [] + order[..j] == order[..j];
    var x :| x in order[..j] && x.id > order[j].id;
    i :| 0 <= i < j && order[..j][i] == x;
  }

  /** One of the two schedules fits whenever an order has an overtaken message above the first position. */
  lemma OvertakenIsMissed(log: seq<Envelope>, start: MessageId, appends: seq<Envelope>, broadcasts: seq<Envelope>,
      j: nat)
    returns (run: seq<Step>)
    requires UniqueIds(log + appends) && Elements(broadcasts) == Elements(appends) && Distinct(broadcasts)
    requires Overtaken(log, start, appends, j) || Overtaken([], start, broadcasts, j)
    ensures Schedules(run, appends, broadcasts) && Missed(Execute(Initial(log, start), run), start)
  {
    if Overtaken(log, start, appends, j) {
      run := LateAppendIsMissed(log, start, appends, broadcasts, j);
    } else {
      var i := Overtaker(start, broadcasts, j);
      run := LateBroadcastIsMissed(log, start, appends, broadcasts, i, j);
    }
  }

  lemma DistinctIds(appends: seq<Envelope>, broadcasts: seq<Envelope>)
    requires UniqueIds(appends) && Elements(broadcasts) == Elements(appends) && Distinct(broadcasts)
    ensures UniqueIds([] + broadcasts)
  {
    assert [] + broadcasts == broadcasts;
    forall i, j | 0 <= i < j < |broadcasts|
      ensures broadcasts[i].id != broadcasts[j].id
    {
      assert broadcasts[i] in Elements(broadcasts) && broadcasts[j] in Elements(broadcasts);
      var a :| 0 <= a < |appends| && appends[a] == broadcasts[i];
      var b :| 0 <= b < |appends| && appends[b] == broadcasts[j];
    }
  }

  lemma {:induction false} UnlessOvertaken(log: seq<Envelope>, start: MessageId, appends: seq<Envelope>,
      broadcasts: seq<Envelope>, run: seq<Step>)
    requires UniqueIds(log + appends) && Distinct(broadcasts) && Elements(broadcasts) == Elements(appends)
    requires forall j: nat :: !Overtaken(log, start, appends, j) && !Overtaken([], start, broadcasts, j)
    requires Schedules(run, appends, broadcasts)
    ensures !Missed(Execute(Initial(log, start), run), start)
  {
    Prefixes(log, appends);
    DistinctIds(appends, broadcasts);
    InOrderUnlessOvertaken(log, start, appends);
    InOrderUnlessOvertaken([], start, broadcasts);
    InOrderIsNotMissed(Initial(log, start), start, run, []);
  }

  /**
   * Exactly which orders are safe. Take the rows a topic has, a subscriber's recorded position, publishes with
   * distinct ids in the order of their appends, and the same publishes in the order of their broadcasts. Some
   * schedule of sessions makes the subscriber miss a message above its position if and only if in one of the
   * two orders some such message comes after one with a higher id.
   */
  lemma SomeScheduleMissesIff(log: seq<Envelope>, start: MessageId, appends: seq<Envelope>, broadcasts: seq<Envelope>)
    requires UniqueIds(log + appends) && Distinct(broadcasts) && Elements(broadcasts) == Elements(appends)
    ensures (exists run :: Schedules(run, appends, broadcasts) && Missed(Execute(Initial(log, start), run), start))
      <==> exists j: nat :: Overtaken(log, start, appends, j) || Overtaken([], start, broadcasts, j)
  {
    if j: nat :| Overtaken(log, start, appends, j) || Overtaken([], start, broadcasts, j) {
      var run := OvertakenIsMissed(log, start, appends, broadcasts, j);
    } else {
      forall run | Schedules(run, appends, broadcasts)
        ensures !Missed(Execute(Initial(log, start), run), start)
      {
        UnlessOvertaken(log, start, appends, broadcasts, run);
      }
    }
  }
}
