/**
 * Durable subscribe: a catch-up read from the log, then, as a separate step, the ordinary subscribe,
 * merged. Publishes are two steps as well, an append that may fail and the send on the topic's
 * channel, and all of these interleave freely. The module follows one topic and one subscriber.
 */
module DurableSeam {
  import opened Common
  import opened Sequences
  import opened Sorting
  import opened TopicFilters
  import opened Channels
  import opened Store
  import opened Broker

  /** Whether an envelope is newer than the subscriber's recorded position, if it has one. */
  predicate Above(offset: Option<MessageId>, e: Envelope) {
    offset.Some? ==> e.id > offset.value
  }

  // ------------------------------------------------------------------- merge

  /** The buffered envelopes above the position join the catch-up unless their id is there already. */
  function Join(offset: Option<MessageId>, catchup: seq<Envelope>, buffered: seq<Envelope>): seq<Envelope>
    decreases |buffered|
  {
    if buffered == [] then catchup
    else if Above(offset, buffered[0]) && !HasId(catchup, buffered[0].id)
    then Join(offset, catchup + [buffered[0]], buffered[1..])
    else Join(offset, catchup, buffered[1..])
  }

  /** Whether an id names the same envelope in both. */
  ghost predicate SameIds(a: seq<Envelope>, b: seq<Envelope>) {
    forall x, y :: x in a && y in b && x.id == y.id ==> x == y
  }

  lemma {:induction false} JoinKeepsUnique(offset: Option<MessageId>, catchup: seq<Envelope>, buffered: seq<Envelope>)
    requires UniqueIds(catchup)
    ensures UniqueIds(Join(offset, catchup, buffered))
    decreases |buffered|
  {
    if buffered != [] {
      if Above(offset, buffered[0]) && !HasId(catchup, buffered[0].id) {
        JoinKeepsUnique(offset, catchup + [buffered[0]], buffered[1..]);
      } else {
        JoinKeepsUnique(offset, catchup, buffered[1..]);
      }
    }
  }

  /** Exactly the catch-up and the buffered envelopes above the position. */
  lemma {:induction false} JoinIs(offset: Option<MessageId>, catchup: seq<Envelope>, buffered: seq<Envelope>,
      e: Envelope)
    requires SameIds(catchup, buffered) && SameIds(buffered, buffered)
    ensures e in Join(offset, catchup, buffered) <==> e in catchup || (e in buffered && Above(offset, e))
    decreases |buffered|
  {
    if buffered != [] {
      var head, rest := buffered[0], buffered[1..];
      assert buffered == [head] + rest;
      if Above(offset, head) && !HasId(catchup, head.id) {
        JoinIs(offset, catchup + [head], rest, e);
      } else {
        JoinIs(offset, catchup, rest, e);
        if Above(offset, head) {
          var i :| 0 <= i < |catchup| && catchup[i].id == head.id;
          assert catchup[i] == head;
        }
      }
    }
  }

  /** Whatever the ids: the catch-up, and of the buffered envelopes above the position one for each other id. */
  lemma {:induction false} JoinHas(offset: Option<MessageId>, catchup: seq<Envelope>, buffered: seq<Envelope>)
    ensures var joined := Join(offset, catchup, buffered);
      && (forall e :: e in catchup ==> e in joined)
      && (forall e :: e in joined ==> e in catchup || (e in buffered && Above(offset, e)))
      && (forall e :: e in buffered && Above(offset, e) ==> HasId(joined, e.id))
    decreases |buffered|
  {
    if buffered != [] {
      var head, rest := buffered[0], buffered[1..];
      assert buffered == [head] + rest;
      var taken := if Above(offset, head) && !HasId(catchup, head.id) then catchup + [head] else catchup;
      JoinHas(offset, taken, rest);
      if Above(offset, head) {
        if taken != catchup { assert taken[|catchup|] == head; }
        var i :| 0 <= i < |taken| && taken[i].id == head.id;
        assert taken[i] in Join(offset, catchup, buffered);
      }
    }
  }

  function Merged(offset: Option<MessageId>, catchup: seq<Envelope>, buffered: seq<Envelope>): seq<Envelope> {
    SortById(Join(offset, catchup, buffered))
  }

  /** The merge as the program does it: a loop that skips and pushes, then one sort. */
  method Merge(offset: Option<MessageId>, catchup: seq<Envelope>, buffered: seq<Envelope>)
    returns (backlog: seq<Envelope>)
    ensures backlog == Merged(offset, catchup, buffered)
  {
    backlog := catchup;
    for i := 0 to |buffered|
      invariant Join(offset, backlog, buffered[i..]) == Join(offset, catchup, buffered)
    {
      assert buffered[i..][0] == buffered[i] && buffered[i..][1..] == buffered[i + 1..];
      if offset.Some? && buffered[i].id <= offset.value {
        continue;
      }
      if !HasId(backlog, buffered[i].id) {
        backlog := backlog + [buffered[i]];
      }
    }
    backlog := SortById(backlog);
  }

  datatype DurableSubscribeError = WildcardFilter | NoStore

  /** What the read before the subscribe yields: the recorded position, and every stored message above it. */
  ghost predicate IsDiskRead(tables: Tables, subscriber: PeerId, topic: Topic, offset: Option<MessageId>,
      catchup: seq<Envelope>) {
    && (offset.Some? <==> (subscriber, topic) in tables.offsets)
    && (offset.Some? ==> offset.value == tables.offsets[(subscriber, topic)])
    && if offset.Some? then IsCatchUp(tables.rows, topic, offset.value, catchup) else catchup == []
  }

  method ReadDiskFor(store: SqliteStore, subscriber: PeerId, topic: Topic)
    returns (offset: Option<MessageId>, catchup: seq<Envelope>)
    ensures IsDiskRead(store.State(), subscriber, topic, offset, catchup)
  {
    offset := store.LoadOffset(subscriber, topic);
    catchup := [];
    if offset.Some? { catchup := store.MessagesSince(topic, offset.value); }
  }

  /**
   * What a durable subscribe has to answer, from the tables and what the channel had buffered. With a recorded
   * position: every stored message of the topic above it and every buffered one above it, or another with its
   * id, and nothing at or below. Without one: what was buffered.
   */
  ghost predicate ResumesFrom(tables: Tables, subscriber: PeerId, topic: Topic, buffered: seq<Envelope>,
      answer: seq<Envelope>) {
    && SortedById(answer) && (UniqueIds(tables.rows) ==> UniqueIds(answer))
    && if (subscriber, topic) in tables.offsets then
         var position := tables.offsets[(subscriber, topic)];
         && (forall e :: e in answer ==> e.id > position && (e in buffered || (e in tables.rows && e.topic == topic)))
         && (forall e :: e in tables.rows && e.topic == topic && e.id > position ==> e in answer)
         && (forall e :: e in buffered && e.id > position ==> HasId(answer, e.id))
       else
         && (forall e :: e in answer ==> e in buffered)
         && (forall e :: e in buffered ==> HasId(answer, e.id))
  }

  lemma MergedResumes(tables: Tables, subscriber: PeerId, topic: Topic, offset: Option<MessageId>,
      catchup: seq<Envelope>, buffered: seq<Envelope>)
    requires IsDiskRead(tables, subscriber, topic, offset, catchup)
    ensures ResumesFrom(tables, subscriber, topic, buffered, Merged(offset, catchup, buffered))
  {
    var joined := Join(offset, catchup, buffered);
    JoinHas(offset, catchup, buffered);
    if UniqueIds(tables.rows) {
      JoinKeepsUnique(offset, catchup, buffered);
      SortUnique(joined);
    }
    SortSorts(joined);
    SameElements(joined, SortById(joined));
  }

  lemma SameElements(a: seq<Envelope>, b: seq<Envelope>)
    requires multiset(a) == multiset(b)
    ensures forall e :: e in a <==> e in b
    ensures forall id :: HasId(a, id) ==> HasId(b, id)
  {
    forall e
      ensures e in a <==> e in b
    {
      assert e in a <==> e in multiset(a);
      assert e in b <==> e in multiset(b);
    }
    forall id | HasId(a, id)
      ensures HasId(b, id)
    {
      var i :| 0 <= i < |a| && a[i].id == id;
      assert a[i] in b;
    }
  }

  /** With nothing in between: a read merged with an ordinary subscribe. */
  method SubscribeAndMerge(broker: Broker, topic: Topic, offset: Option<MessageId>, catchup: seq<Envelope>)
    returns (backlog: seq<Envelope>, ghost buffered: seq<Envelope>)
    requires broker.Valid()
    modifies broker.Repr()
    ensures broker.Valid() && broker.State() == Routing.Subscribe(old(broker.State()), topic)
    ensures IsBacklog(old(broker.State()), topic, buffered)
    ensures backlog == Merged(offset, catchup, buffered)
  {
    var recent, _ := broker.Subscribe(topic);
    ghost var after := broker.State();
    buffered := recent;
    backlog := Merge(offset, catchup, recent);
    assert broker.State() == after;
  }

  /** A broker's backlog, and what the tables add to it and take away. */
  ghost predicate IsDurableBacklog(broker: Routing.State, tables: Tables, subscriber: PeerId, topic: Topic,
      backlog: seq<Envelope>) {
    exists offset, catchup, buffered ::
      && IsDiskRead(tables, subscriber, topic, offset, catchup) && IsBacklog(broker, topic, buffered)
      && backlog == Merged(offset, catchup, buffered) && ResumesFrom(tables, subscriber, topic, buffered, backlog)
  }

  method ReadAndSubscribe(broker: Broker, store: SqliteStore, topic: Topic, subscriber: PeerId)
    returns (backlog: seq<Envelope>)
    requires broker.Valid()
    modifies broker.Repr()
    ensures broker.Valid() && broker.State() == Routing.Subscribe(old(broker.State()), topic)
    ensures IsDurableBacklog(old(broker.State()), old(store.State()), subscriber, topic, backlog)
  {
    ghost var tables := store.State();
    var offset, catchup := ReadDiskFor(store, subscriber, topic);
    ghost var buffered: seq<Envelope>;
    backlog, buffered := SubscribeAndMerge(broker, topic, offset, catchup);
    MergedResumes(tables, subscriber, topic, offset, catchup, buffered);
  }

  /** A wildcard and a missing log are refused and change nothing. */
  method SubscribeDurable(broker: Broker, store: Option<SqliteStore>, filter: TopicFilter, subscriber: PeerId)
    returns (r: Result<seq<Envelope>, DurableSubscribeError>)
    requires broker.Valid()
    modifies broker.Repr()
    ensures broker.Valid()
    ensures r == Err(WildcardFilter) <==> !IsLiteral(filter)
    ensures r == Err(NoStore) <==> IsLiteral(filter) && store.None?
    ensures r.Ok? <==> IsLiteral(filter) && store.Some?
    ensures broker.State() == if r.Err? then old(broker.State()) else Routing.Subscribe(old(broker.State()), filter)
    ensures r.Ok? ==> IsDurableBacklog(old(broker.State()), old(store.value.State()), subscriber, filter, r.value)
  {
    if !IsLiteral(filter) { return Err(WildcardFilter); }
    if store.None? { return Err(NoStore); }
    var backlog := ReadAndSubscribe(broker, store.value, filter, subscriber);
    r := Ok(backlog);
  }

  /** Sorted, all above `id`, and nothing above it missing that is stored or buffered, up to repeated ids. */
  ghost predicate ResumesAbove(broker: Routing.State, rows: seq<Envelope>, topic: Topic, id: MessageId,
      backlog: seq<Envelope>) {
    && SortedById(backlog) && (forall e :: e in backlog ==> e.id > id)
    && (forall e :: e in rows && e.topic == topic && e.id > id ==> e in backlog)
    && exists buffered: seq<Envelope> ::
      && IsBacklog(broker, topic, buffered)
      && (forall e :: e in buffered && e.id > id ==> HasId(backlog, e.id))
      && (forall e :: e in backlog ==> e in buffered || (e in rows && e.topic == topic))
  }

  lemma ResumesAboveRecorded(broker: Routing.State, tables: Tables, subscriber: PeerId, topic: Topic,
      backlog: seq<Envelope>)
    requires (subscriber, topic) in tables.offsets && IsDurableBacklog(broker, tables, subscriber, topic, backlog)
    ensures ResumesAbove(broker, tables.rows, topic, tables.offsets[(subscriber, topic)], backlog)
  {
    var offset, catchup, buffered :|
      && IsDiskRead(tables, subscriber, topic, offset, catchup) && IsBacklog(broker, topic, buffered)
      && backlog == Merged(offset, catchup, buffered) && ResumesFrom(tables, subscriber, topic, buffered, backlog);
  }

  lemma StoreIsApart(broker: Broker, store: SqliteStore)
    ensures store !in broker.Repr()
  {
  }

  /** Recording a delivery does not touch the broker's memory. */
  method RecordDelivered(broker: Broker, store: SqliteStore, subscriber: PeerId, topic: Topic, id: MessageId)
    requires broker.Valid()
    modifies store
    ensures broker.Valid() && broker.State() == old(broker.State())
    ensures store.State() == old(store.State()).(offsets := old(store.offsets)[(subscriber, topic) := id])
  {
    store.RecordOffset(subscriber, topic, id);
  }

  /** A delivery recorded, and then the next session: it resumes right above what was recorded. */
  method RecordAndResume(broker: Broker, store: SqliteStore, topic: Topic, subscriber: PeerId, id: MessageId)
    returns (backlog: seq<Envelope>)
    requires broker.Valid() && IsLiteral(topic)
    modifies store, broker.Repr()
    ensures broker.Valid() && broker.State() == Routing.Subscribe(old(broker.State()), topic)
    ensures store.rows == old(store.rows) && store.offsets == old(store.offsets)[(subscriber, topic) := id]
    ensures ResumesAbove(old(broker.State()), old(store.rows), topic, id, backlog)
  {
    ghost var was := broker.State();
    RecordDelivered(broker, store, subscriber, topic, id);
    ghost var tables := store.State();
    StoreIsApart(broker, store);
    var r := SubscribeDurable(broker, Some(store), topic, subscriber);
    backlog := r.value;
    ResumesAboveRecorded(was, tables, subscriber, topic, backlog);
  }

  /** A position recorded on another topic, or by another subscriber, makes no difference to the answer. */
  lemma OnlyOwnPositionMatters(tables: Tables, subscriber: PeerId, topic: Topic, other: (PeerId, Topic), id: MessageId,
      buffered: seq<Envelope>, answer: seq<Envelope>)
    requires other != (subscriber, topic)
    ensures ResumesFrom(tables.(offsets := tables.offsets[other := id]), subscriber, topic, buffered, answer) <==>
      ResumesFrom(tables, subscriber, topic, buffered, answer)
  {
  }

  // ------------------------------------------------------------------- steps

  /**
   * Where the subscriber is. `stored`, `known` and `readAt` remember the rows, the appends so far and the
   * length of the channel's log when the catch-up was read, `retained` the retained message at the snapshot;
   * the program keeps none of the four. Once live, the receiver is sent the log from `start` on.
   */
  datatype Phase =
    | Waiting
    | Read(offset: Option<MessageId>, catchup: seq<Envelope>, stored: seq<Envelope>, known: seq<Envelope>, readAt: nat)
    | Live(offset: Option<MessageId>, backlog: seq<Envelope>, stored: seq<Envelope>, known: seq<Envelope>, readAt: nat,
           start: nat, retained: Option<Envelope>)

  /**
   * `pending` are the publishes between their append and their send. `appended` is a history of all
   * successful appends; the log itself may have pruned some of them.
   */
  datatype World = World(
    topic: Topic, limits: Limits, replay: nat,
    tables: Tables, channel: Channel, pending: seq<Envelope>, phase: Phase,
    appended: seq<Envelope>)

  datatype Step =
    | Append(envelope: Envelope, succeeds: bool)
    | SendPending(i: nat)
    | ReadDisk(offset: Option<MessageId>, catchup: seq<Envelope>)
    | Snapshot

  /** Every place an envelope can be in. A row of the log has been appended. */
  predicate Somewhere(w: World, e: Envelope) {
    e in w.appended || e in w.pending || e in w.channel.log || w.channel.retained == Some(e)
  }

  ghost predicate KnownId(w: World, id: MessageId) {
    exists e :: Somewhere(w, e) && e.id == id
  }

  ghost predicate Enabled(w: World, step: Step) {
    match step
    case Append(envelope, _) => !KnownId(w, envelope.id)
    case SendPending(i) => i < |w.pending|
    case ReadDisk(offset, catchup) =>
      && w.phase.Waiting?
      && (if offset.Some? then IsCatchUp(w.tables.rows, w.topic, offset.value, catchup) else catchup == [])
    case Snapshot => w.phase.Read?
  }

  ghost function Apply(w: World, step: Step): World
    requires Enabled(w, step)
  {
    match step
    case Append(envelope, succeeds) =>
      if succeeds
      then w.(tables := Appended(w.tables, w.limits, envelope), appended := w.appended + [envelope],
              pending := w.pending + [envelope])
      else w.(pending := w.pending + [envelope])
    case SendPending(i) =>
      var envelope := w.pending[i];
      var rest := w.(pending := RemoveAt(w.pending, i));
      if envelope.topic == w.topic
      then rest.(channel := Send(w.channel, envelope, envelope.retain, w.replay))
      else rest
    case ReadDisk(offset, catchup) =>
      w.(phase := Read(offset, catchup, w.tables.rows, w.appended, |w.channel.log|))
    case Snapshot =>
      w.(phase := Live(w.phase.offset, Merged(w.phase.offset, w.phase.catchup, Backlog(w.channel)),
                       w.phase.stored, w.phase.known, w.phase.readAt, |w.channel.log|, w.channel.retained))
  }

  ghost function Next(w: World, step: Step): World {
    if Enabled(w, step) then Apply(w, step) else w
  }

  ghost function Execute(w: World, run: seq<Step>): World
    decreases |run|
  {
    if run == [] then w else Execute(Next(w, run[0]), run[1..])
  }

  function Initial(topic: Topic, limits: Limits, replay: nat): World {
    World(topic, limits, replay, EMPTY_TABLES, EMPTY_CHANNEL, [], Waiting, [])
  }

  // --------------------------------------------------------------- invariant

  /** Ids are distinct: one id names one envelope, and no list holds an envelope twice. */
  ghost predicate OneEach(w: World) {
    && (forall x, y :: Somewhere(w, x) && Somewhere(w, y) && x.id == y.id ==> x == y)
    && UniqueIds(w.tables.rows) && UniqueIds(w.pending) && UniqueIds(w.channel.log)
    && (forall e :: e in w.pending ==> e !in w.channel.log)
  }

  ghost predicate OnTopic(w: World) {
    && Buffered(w.channel, w.replay)
    && (forall e :: e in w.channel.log ==> e.topic == w.topic)
    && (w.channel.retained.Some? ==> w.channel.retained.value.topic == w.topic)
  }

  /** The rows of a topic are its newest appends: all of them, or at least as many as a pruning keeps. */
  ghost predicate KeepsNewest(rows: seq<Envelope>, appended: seq<Envelope>, topic: Topic, keep: nat) {
    var kept, all := RowsOf(rows, topic), RowsOf(appended, topic);
    && (forall e :: e in rows ==> e in appended)
    && |kept| <= |all| && kept == Last(all, |kept|)
    && (|kept| >= keep || kept == all)
  }

  ghost predicate Logged(w: World) {
    KeepsNewest(w.tables.rows, w.appended, w.topic, w.limits.keep)
  }

  /** `e` is at a position of `log` from `from` up to `to`. */
  ghost predicate At(log: seq<Envelope>, from: int, to: nat, e: Envelope) {
    exists k :: 0 <= k < |log| && from <= k < to && log[k] == e
  }

  /** What the catch-up read of `stored` has to give: nothing without a recorded position. */
  predicate CaughtUp(offset: Option<MessageId>, stored: seq<Envelope>, topic: Topic, e: Envelope) {
    offset.Some? && e in stored && Since(e, topic, offset.value)
  }

  /** Every append of the topic since the read has its send still to come, or was sent after the read. */
  ghost predicate Covered(w: World, known: seq<Envelope>, readAt: nat) {
    forall e :: e in w.appended && e.topic == w.topic ==>
      e in known || e in w.pending || At(w.channel.log, readAt, |w.channel.log|, e)
  }

  ghost predicate ReadOk(w: World, catchup: seq<Envelope>) {
    && w.phase.Read?
    && w.phase.catchup == catchup && UniqueIds(catchup)
    && (forall e :: e in catchup <==> CaughtUp(w.phase.offset, w.phase.stored, w.topic, e))
    && (forall e :: e in catchup ==> e in w.appended)
    && w.phase.readAt <= |w.channel.log|
    && Covered(w, w.phase.known, w.phase.readAt)
    && KeepsNewest(w.phase.stored, w.phase.known, w.topic, w.limits.keep)
  }

  /** What the subscriber is given first: the catch-up, and what was still buffered or retained above it. */
  predicate Buffering(log: seq<Envelope>, retained: Option<Envelope>, start: nat, replay: nat, e: Envelope)
    requires start <= |log|
  {
    e in Last(log[..start], replay) || retained == Some(e)
  }

  ghost predicate LiveOk(w: World) {
    && w.phase.Live?
    && w.phase.readAt <= w.phase.start <= |w.channel.log|
    && StrictlySorted(w.phase.backlog)
    && (forall e :: e in w.phase.backlog <==>
          (CaughtUp(w.phase.offset, w.phase.stored, w.topic, e)
           || (Above(w.phase.offset, e) && Buffering(w.channel.log, w.phase.retained, w.phase.start, w.replay, e))))
    && (w.phase.retained.Some? ==> w.phase.retained.value.topic == w.topic)
    && Covered(w, w.phase.known, w.phase.readAt)
    && KeepsNewest(w.phase.stored, w.phase.known, w.topic, w.limits.keep)
  }

  ghost predicate PhaseOk(w: World) {
    match w.phase
    case Waiting => true
    case Read(_, catchup, _, _, _) => ReadOk(w, catchup)
    case Live(_, _, _, _, _, _, _) => LiveOk(w)
  }

  ghost predicate Inv(w: World) {
    OneEach(w) && OnTopic(w) && Logged(w) && PhaseOk(w)
  }

  // ------------------------------------------------------------ preservation

  lemma {:induction false} PrunedUnique(rows: seq<Envelope>, keep: nat)
    requires UniqueIds(rows)
    ensures UniqueIds(Pruned(rows, keep))
  {
    if rows != [] {
      PrunedUnique(rows[1..], keep);
      PruneOnlyDeletes(rows[1..], keep);
      var rest := Pruned(rows[1..], keep);
      forall i | 0 <= i < |rest|
        ensures rest[i].id != rows[0].id
      {
        assert rest[i] in rest;
      }
    }
  }

  lemma AppendedOnlyAdds(w: World, envelope: Envelope)
    ensures forall e :: e in Appended(w.tables, w.limits, envelope).rows ==> e in w.tables.rows || e == envelope
  {
    PruneOnlyDeletes(w.tables.rows + [envelope], w.limits.keep);
  }

  lemma AppendKeepsOneEach(w: World, envelope: Envelope, succeeds: bool)
    requires OneEach(w) && Logged(w) && !KnownId(w, envelope.id)
    ensures OneEach(Apply(w, Append(envelope, succeeds)))
  {
    var after := Apply(w, Append(envelope, succeeds));
    forall x | Somewhere(w, x)
      ensures x.id != envelope.id
    {
    }
    assert forall x :: Somewhere(after, x) ==> Somewhere(w, x) || x == envelope;
    forall x | x in w.pending || x in w.tables.rows
      ensures x.id != envelope.id
    {
      assert Somewhere(w, x);
    }
    PrunedUnique(w.tables.rows + [envelope], w.limits.keep);
    assert forall e :: e in w.channel.log ==> Somewhere(w, e);
  }

  /** A new row, and perhaps a pruning, leave the newest rows of a list of which they were the newest. */
  lemma NewestAppend(kept: seq<Envelope>, all: seq<Envelope>, more: seq<Envelope>, keep: nat)
    requires |kept| <= |all| && kept == Last(all, |kept|) && (|kept| >= keep || kept == all)
    ensures var grown, pruned := kept + more, Last(kept + more, keep);
      && grown == Last(all + more, |grown|) && (|grown| >= keep || grown == all + more)
      && pruned == Last(all + more, |pruned|) && (|pruned| >= keep || pruned == all + more)
  {
    var dropped := |all| - |kept|;
    assert all == all[..dropped] + kept;
    assert all + more == all[..dropped] + (kept + more);
  }

  lemma AppendKeepsLogged(w: World, envelope: Envelope)
    requires Logged(w) && Enabled(w, Append(envelope, true))
    ensures Logged(Apply(w, Append(envelope, true)))
  {
    AppendedOnlyAdds(w, envelope);
    RowsOfAppend(w.appended, envelope, w.topic);
    RowsOfAppend(w.tables.rows, envelope, w.topic);
    PruneKeepsNewest(w.tables.rows + [envelope], w.limits.keep, w.topic);
    NewestAppend(RowsOf(w.tables.rows, w.topic), RowsOf(w.appended, w.topic),
                 if envelope.topic == w.topic then [envelope] else [], w.limits.keep);
  }

  lemma AppendKeepsPhase(w: World, envelope: Envelope, succeeds: bool)
    requires PhaseOk(w) && Logged(w) && Enabled(w, Append(envelope, succeeds))
    ensures PhaseOk(Apply(w, Append(envelope, succeeds)))
  {
  }

  lemma AtAppend(log: seq<Envelope>, from: int, envelope: Envelope, e: Envelope)
    requires from <= |log|
    ensures At(log + [envelope], from, |log| + 1, e) <==> At(log, from, |log|, e) || e == envelope
  {
    assert (log + [envelope])[|log|] == envelope;
    if At(log, from, |log|, e) {
      var k :| 0 <= k < |log| && from <= k < |log| && log[k] == e;
      assert (log + [envelope])[k] == e;
    }
  }

  lemma SendBringsNothingNew(w: World, i: nat, e: Envelope)
    requires i < |w.pending| && Somewhere(Apply(w, SendPending(i)), e)
    ensures Somewhere(w, e)
  {
  }

  lemma SendKeepsOneEach(w: World, i: nat)
    requires OneEach(w) && i < |w.pending|
    ensures OneEach(Apply(w, SendPending(i)))
  {
    var envelope, after := w.pending[i], Apply(w, SendPending(i));
    var rest := RemoveAt(w.pending, i);
    assert w.pending == w.pending[..i] + [envelope] + w.pending[i + 1..];
    forall e | e in rest
      ensures e in w.pending && e != envelope
    {
    }
    forall x | Somewhere(after, x)
      ensures Somewhere(w, x)
    {
      SendBringsNothingNew(w, i, x);
    }
    forall x | x in w.channel.log
      ensures x.id != envelope.id
    {
      assert Somewhere(w, x) && Somewhere(w, envelope);
    }
  }

  lemma SendKeepsOnTopic(w: World, i: nat)
    requires OnTopic(w) && i < |w.pending|
    ensures OnTopic(Apply(w, SendPending(i)))
  {
    SendKeepsBuffered(w.channel, w.pending[i], w.pending[i].retain, w.replay);
  }

  lemma SendKeepsCovered(w: World, i: nat, known: seq<Envelope>, readAt: nat)
    requires Covered(w, known, readAt) && readAt <= |w.channel.log| && i < |w.pending|
    ensures Covered(Apply(w, SendPending(i)), known, readAt)
  {
    var envelope, after := w.pending[i], Apply(w, SendPending(i));
    forall e | e in w.appended && e.topic == w.topic
      ensures e in known || e in after.pending || At(after.channel.log, readAt, |after.channel.log|, e)
    {
      assert w.pending == w.pending[..i] + [envelope] + w.pending[i + 1..];
      AtAppend(w.channel.log, readAt, envelope, e);
    }
  }

  lemma SendKeepsPhase(w: World, i: nat)
    requires PhaseOk(w) && i < |w.pending|
    ensures PhaseOk(Apply(w, SendPending(i)))
  {
    var after := Apply(w, SendPending(i));
    match w.phase
    case Waiting =>
    case Read(_, _, _, known, readAt) => SendKeepsCovered(w, i, known, readAt);
    case Live(_, _, _, known, readAt, start, _) =>
      SendKeepsCovered(w, i, known, readAt);
      assert after.channel.log[..start] == w.channel.log[..start];
  }

  lemma ReadKeepsPhase(w: World, offset: Option<MessageId>, catchup: seq<Envelope>)
    requires OneEach(w) && Logged(w) && Enabled(w, ReadDisk(offset, catchup))
    ensures PhaseOk(Apply(w, ReadDisk(offset, catchup)))
  {
  }

  lemma BacklogElements(w: World)
    requires OneEach(w) && OnTopic(w)
    ensures forall e :: e in Backlog(w.channel) <==>
      Buffering(w.channel.log, w.channel.retained, |w.channel.log|, w.replay, e)
    ensures forall e :: e in Backlog(w.channel) ==> Somewhere(w, e)
  {
    var log, buffer, retained := w.channel.log, w.channel.buffer, w.channel.retained;
    assert log[..|log|] == log;
    forall e | e in buffer
      ensures e in log
    {
    }
    if retained.Some? && HasId(buffer, retained.value.id) {
      var i :| 0 <= i < |buffer| && buffer[i].id == retained.value.id;
      assert Somewhere(w, buffer[i]) && Somewhere(w, retained.value);
    }
  }

  lemma SnapshotKeepsPhase(w: World)
    requires OneEach(w) && OnTopic(w) && PhaseOk(w) && w.phase.Read?
    ensures PhaseOk(Apply(w, Snapshot))
  {
    var after, backlog := Apply(w, Snapshot), Backlog(w.channel);
    var offset, catchup := w.phase.offset, w.phase.catchup;
    BacklogElements(w);
    assert forall e :: e in catchup ==> Somewhere(w, e);
    JoinKeepsUnique(offset, catchup, backlog);
    SortUnique(Join(offset, catchup, backlog));
    forall e
      ensures e in Join(offset, catchup, backlog) <==> e in catchup || (e in backlog && Above(offset, e))
    {
      JoinIs(offset, catchup, backlog, e);
    }
  }

  lemma StepKeepsInv(w: World, step: Step)
    requires Inv(w)
    ensures Inv(Next(w, step))
  {
    if Enabled(w, step) {
      match step
      case Append(envelope, succeeds) =>
        AppendKeepsOneEach(w, envelope, succeeds);
        AppendKeepsPhase(w, envelope, succeeds);
        if succeeds { AppendKeepsLogged(w, envelope); }
      case SendPending(i) =>
        SendKeepsOneEach(w, i);
        SendKeepsOnTopic(w, i);
        SendKeepsPhase(w, i);
      case ReadDisk(offset, catchup) => ReadKeepsPhase(w, offset, catchup);
      case Snapshot => SnapshotKeepsPhase(w);
    }
  }

  lemma {:induction false} RunKeepsInv(w: World, run: seq<Step>)
    requires Inv(w)
    ensures Inv(Execute(w, run))
    decreases |run|
  {
    if run != [] {
      StepKeepsInv(w, run[0]);
      RunKeepsInv(Next(w, run[0]), run[1..]);
    }
  }

  // ------------------------------------------------------------------ the seam

  /** The live stream: what the receiver is sent. */
  function Stream(w: World): seq<Envelope>
    requires w.phase.Live? && w.phase.start <= |w.channel.log|
  {
    w.channel.log[w.phase.start..]
  }

  /**
   * In every interleaving: the backlog is sorted without repeats, all of the topic and above the
   * position, the stream repeats nothing, and the backlog is exactly the messages stored at the read or
   * still buffered or retained at the snapshot.
   */
  lemma {:induction false} SeamIsExact(w0: World, run: seq<Step>)
    requires Inv(w0) && w0.phase.Waiting?
    ensures var w := Execute(w0, run);
      w.phase.Live? ==>
        && w.phase.start <= |w.channel.log|
        && StrictlySorted(w.phase.backlog) && UniqueIds(Stream(w))
        && (forall e :: e in w.phase.backlog ==> e.topic == w.topic && Above(w.phase.offset, e))
        && (forall e :: e in w.phase.backlog <==>
              (CaughtUp(w.phase.offset, w.phase.stored, w.topic, e)
               || (Above(w.phase.offset, e) && Buffering(w.channel.log, w.phase.retained, w.phase.start, w.replay, e))))
  {
    RunKeepsInv(w0, run);
    var w := Execute(w0, run);
    if w.phase.Live? {
      assert LiveOk(w) && OnTopic(w);
      forall e | e in w.phase.backlog
        ensures e.topic == w.topic
      {
        assert Buffering(w.channel.log, w.phase.retained, w.phase.start, w.replay, e) ==>
          e in w.channel.log || w.phase.retained == Some(e);
      }
    }
  }

  /** Whether a message has reached the subscriber, or its send has yet to happen. */
  predicate Reaches(w: World, e: Envelope)
    requires w.phase.Live? && w.phase.start <= |w.channel.log|
  {
    e in w.phase.backlog || e in Stream(w) || e in w.pending
  }

  /**
   * The exact fate of every message ever sent on the topic above the position, whether its append
   * succeeded, failed or has been pruned: it reaches the subscriber if and only if it was stored at the
   * read, or at most a replay buffer of sends lies between it and the snapshot, or it was retained then.
   */
  lemma {:induction false} SeamReachesIff(w0: World, run: seq<Step>, k: nat)
    requires Inv(w0) && w0.phase.Waiting?
    requires var w := Execute(w0, run); w.phase.Live? && k < |w.channel.log|
    ensures var w := Execute(w0, run);
      && w.phase.start <= |w.channel.log|
      && var e := w.channel.log[k];
         Above(w.phase.offset, e) ==>
           (Reaches(w, e) <==>
            (w.phase.offset.Some? && e in w.phase.stored) || w.phase.start - k <= w.replay
              || w.phase.retained == Some(e))
  {
    RunKeepsInv(w0, run);
    var w := Execute(w0, run);
    assert LiveOk(w) && OneEach(w) && OnTopic(w);
    if Above(w.phase.offset, w.channel.log[k]) { FateIs(w, k); }
  }

  lemma FateIs(w: World, k: nat)
    requires LiveOk(w) && OneEach(w) && OnTopic(w) && k < |w.channel.log| && Above(w.phase.offset, w.channel.log[k])
    ensures Reaches(w, w.channel.log[k]) <==>
      (w.phase.offset.Some? && w.channel.log[k] in w.phase.stored) || w.phase.start - k <= w.replay
        || w.phase.retained == Some(w.channel.log[k])
  {
    var log, start := w.channel.log, w.phase.start;
    if k >= start {
      assert log[start..][k - start] == log[k];
    }
  }

  /** What was among the newest `keep` appends of the topic at the read was there to be read. */
  lemma {:induction false} StoredUnlessManyNewer(w0: World, run: seq<Step>)
    requires Inv(w0) && w0.phase.Waiting?
    ensures var w := Execute(w0, run);
      w.phase.Live? ==> forall e :: e in Last(RowsOf(w.phase.known, w.topic), w.limits.keep) ==> e in w.phase.stored
  {
    RunKeepsInv(w0, run);
    var w := Execute(w0, run);
    if w.phase.Live? {
      assert LiveOk(w);
      NewestAreStored(w.phase.stored, w.phase.known, w.topic, w.limits.keep);
    }
  }

  lemma {:induction false} NewestAreStored(rows: seq<Envelope>, appended: seq<Envelope>, topic: Topic, keep: nat)
    requires KeepsNewest(rows, appended, topic, keep)
    ensures forall e :: e in Last(RowsOf(appended, topic), keep) ==> e in rows
  {
    var kept, all := RowsOf(rows, topic), RowsOf(appended, topic);
    if |kept| >= keep { LastLast(all, keep, |kept|); }
    forall e | e in Last(all, keep)
      ensures e in rows
    {
      assert e in kept;
      RowsOfAre(rows, topic, e);
    }
  }

  /**
   * No message is lost at the seam. With a recorded position, and no more sends between the read and the
   * snapshot than the replay buffer holds: every message successfully appended above the position is in the
   * backlog, in the stream, or not yet sent, unless its row had been pruned when the log was read, which
   * takes at least `keep` newer appends of the topic by then.
   */
  lemma {:induction false} SeamLosesNothing(w0: World, run: seq<Step>)
    requires Inv(w0) && w0.phase.Waiting?
    ensures var w := Execute(w0, run);
      w.phase.Live? && w.phase.offset.Some? ==>
        && w.phase.readAt <= w.phase.start <= |w.channel.log|
        && (w.phase.start - w.phase.readAt <= w.replay ==>
              forall e :: e in w.appended && e.topic == w.topic && Above(w.phase.offset, e)
                && (e in w.phase.known ==>
                  e in w.phase.stored || e in Last(RowsOf(w.phase.known, w.topic), w.limits.keep))
                ==> Reaches(w, e))
  {
    RunKeepsInv(w0, run);
    var w := Execute(w0, run);
    if w.phase.Live? && w.phase.offset.Some? && w.phase.start - w.phase.readAt <= w.replay {
      assert LiveOk(w) && OneEach(w) && OnTopic(w);
      StoredUnlessManyNewer(w0, run);
      forall e | e in w.appended && e.topic == w.topic && Above(w.phase.offset, e)
        && (e in w.phase.known ==> e in w.phase.stored || e in Last(RowsOf(w.phase.known, w.topic), w.limits.keep))
        ensures Reaches(w, e)
      {
        if !(e in w.phase.stored || e in w.pending) {
          var k :| 0 <= k < |w.channel.log| && w.phase.readAt <= k && w.channel.log[k] == e;
          FateIs(w, k);
        }
      }
    }
  }

  lemma InitialInv(topic: Topic, limits: Limits, replay: nat)
    ensures Inv(Initial(topic, limits, replay))
  {
  }

  // ------------------------------------------------------------- a loss at the seam

  function Message(topic: Topic, id: MessageId): Envelope {
    Envelope(id, topic, [], false)
  }

  /** `n` publishes, each appended and sent at once, with the ids after `position`. */
  function PublishMany(topic: Topic, position: MessageId, n: nat): seq<Step> {
    if n == 0 then []
    else PublishMany(topic, position, n - 1) + [Append(Message(topic, position + n), true), SendPending(0)]
  }

  /** The disk was read while it was empty, and `n` such publishes have been made since. */
  ghost predicate Filling(w: World, topic: Topic, replay: nat, position: MessageId, n: nat) {
    && w.topic == topic && w.replay == replay && w.phase == Read(Some(position), [], [], [], 0)
    && w.pending == [] && w.channel.retained.None?
    && |w.channel.log| == n && (n > 0 ==>
       w.channel.log[0] == Message(topic, position + 1) && w.channel.log[0] in w.appended)
    && forall e :: Somewhere(w, e) ==> e.id <= position + n
  }

  lemma OneMore(w: World, topic: Topic, replay: nat, position: MessageId, n: nat)
    requires Filling(w, topic, replay, position, n)
    ensures Filling(Next(Next(w, Append(Message(topic, position + n + 1), true)), SendPending(0)), topic, replay,
      position, n + 1)
  {
    var m := Message(topic, position + n + 1);
    assert Enabled(w, Append(m, true));
    var appended := Next(w, Append(m, true));
    assert appended.pending == [m] && RemoveAt([m], 0) == [];
    var after := Next(appended, SendPending(0));
    assert after.appended == w.appended + [m] && after.channel.log == w.channel.log + [m];
    forall e | Somewhere(after, e)
      ensures e.id <= position + n + 1
    {
      assert e == m || Somewhere(w, e);
    }
  }

  lemma {:induction false} ExecuteOne(w: World, run: seq<Step>, a: Step)
    ensures Execute(w, run + [a]) == Next(Execute(w, run), a)
    decreases |run|
  {
    if run == [] {
      assert [] + [a] == [a] && [a][1..] == [];
    } else {
      assert (run + [a])[1..] == run[1..] + [a];
      ExecuteOne(Next(w, run[0]), run[1..], a);
    }
  }

  lemma PublishedOneMore(w: World, topic: Topic, position: MessageId, n: nat)
    requires n > 0
    ensures Execute(w, PublishMany(topic, position, n)) ==
      Next(Next(Execute(w, PublishMany(topic, position, n - 1)), Append(Message(topic, position + n), true)),
        SendPending(0))
  {
    var before, append := PublishMany(topic, position, n - 1), Append(Message(topic, position + n), true);
    ExecuteOne(w, before, append);
    ExecuteOne(w, before + [append], SendPending(0));
    assert before + [append] + [SendPending(0)] == PublishMany(topic, position, n);
  }

  lemma {:induction false} ManyFill(w: World, topic: Topic, replay: nat, position: MessageId, n: nat)
    requires Filling(w, topic, replay, position, 0)
    ensures Filling(Execute(w, PublishMany(topic, position, n)), topic, replay, position, n)
    decreases n
  {
    if n > 0 {
      ManyFill(w, topic, replay, position, n - 1);
      OneMore(Execute(w, PublishMany(topic, position, n - 1)), topic, replay, position, n - 1);
      PublishedOneMore(w, topic, position, n);
    }
  }

  /**
   * And messages are lost there: whatever the limits and the replay buffer, when one more message than it holds
   * is published between the read and the snapshot, the first of them is stored, above the position and in
   * neither the backlog nor the stream.
   */
  lemma {:induction false} SeamCanLose(topic: Topic, limits: Limits, replay: nat, position: MessageId)
    ensures var run := [ReadDisk(Some(position), [])] + PublishMany(topic, position, replay + 1) + [Snapshot];
      var w, e := Execute(Initial(topic, limits, replay), run), Message(topic, position + 1);
      && w.phase.Live? && w.phase.offset == Some(position) && w.phase.start <= |w.channel.log|
      && e in w.appended && Above(w.phase.offset, e) && !Reaches(w, e)
  {
    var w0, many := Initial(topic, limits, replay), PublishMany(topic, position, replay + 1);
    var read := Next(w0, ReadDisk(Some(position), []));
    assert Enabled(w0, ReadDisk(Some(position), []));
    ManyFill(read, topic, replay, position, replay + 1);
    var before := [ReadDisk(Some(position), [])] + many;
    assert before[1..] == many;
    ExecuteOne(w0, before, Snapshot);
    InitialInv(topic, limits, replay);
    SeamReachesIff(w0, before + [Snapshot], 0);
    var w := Execute(w0, before + [Snapshot]);
    assert w == Next(Execute(read, many), Snapshot);
    assert w.phase.stored == [] && w.phase.start == replay + 1 && w.phase.retained.None?;
  }
}
