/**
 * The durable log: one table of published messages in insertion order, one of retained messages and
 * one of subscriber offsets. A row's topic is the topic of the envelope it holds.
 */
module Store {
  import opened Common
  import opened Sequences
  import opened Sorting

  datatype Tables = Tables(
    rows: seq<Envelope>,
    retained: map<Topic, Envelope>,
    offsets: map<(PeerId, Topic), MessageId>,
    sincePrune: nat)

  /** How many rows of a topic a pruning keeps, and after how many appends one runs. */
  datatype Limits = Limits(keep: nat, pruneEvery: nat)

  const EMPTY_TABLES := Tables([], map[], map[], 0)

  /** One topic's messages, oldest first. */
  function RowsOf(rows: seq<Envelope>, topic: Topic): seq<Envelope> {
    if rows == [] then []
    else if rows[0].topic == topic then [rows[0]] + RowsOf(rows[1..], topic)
    else RowsOf(rows[1..], topic)
  }

  /** Deletes each row whose rank within its topic, counted from the newest, exceeds `keep`. */
  function Pruned(rows: seq<Envelope>, keep: nat): seq<Envelope> {
    if rows == [] then []
    else if |RowsOf(rows, rows[0].topic)| <= keep then [rows[0]] + Pruned(rows[1..], keep)
    else Pruned(rows[1..], keep)
  }

  function Prune(t: Tables, keep: nat): Tables {
    t.(rows := Pruned(t.rows, keep))
  }

  /** One transaction: the row, and the retained message set or cleared; now and then, a pruning. */
  function Appended(t: Tables, limits: Limits, envelope: Envelope): Tables {
    var retained :=
      if !envelope.retain then t.retained
      else if envelope.payload == [] then t.retained - {envelope.topic}
      else t.retained[envelope.topic := envelope];
    var grown := t.(rows := t.rows + [envelope], retained := retained, sincePrune := t.sincePrune + 1);
    if grown.sincePrune >= limits.pruneEvery then Prune(grown, limits.keep).(sincePrune := 0) else grown
  }

  function RetainedFor(t: Tables, topic: Topic): Option<Envelope> {
    if topic in t.retained then Some(t.retained[topic]) else None
  }

  function Topics(rows: seq<Envelope>): set<Topic> {
    set e | e in rows :: e.topic
  }

  // -------------------------------------------------------- facts about rows

  lemma {:induction false} RowsOfAppend(rows: seq<Envelope>, envelope: Envelope, topic: Topic)
    ensures RowsOf(rows + [envelope], topic) == RowsOf(rows, topic) + if envelope.topic == topic then [envelope] else []
  {
    if rows == [] {
      assert [envelope][1..] == [];
    } else {
      assert (rows + [envelope])[1..] == rows[1..] + [envelope];
      RowsOfAppend(rows[1..], envelope, topic);
    }
  }

  lemma {:induction false} RowsOfAre(rows: seq<Envelope>, topic: Topic, e: Envelope)
    ensures e in RowsOf(rows, topic) <==> e in rows && e.topic == topic
  {
    if rows != [] {
      RowsOfAre(rows[1..], topic, e);
      assert rows == [rows[0]] + rows[1..];
    }
  }

  /** Ranking rows within their topic and keeping the first `keep` is keeping each topic's newest `keep`. */
  lemma {:induction false} PruneKeepsNewest(rows: seq<Envelope>, keep: nat, topic: Topic)
    ensures RowsOf(Pruned(rows, keep), topic) == Last(RowsOf(rows, topic), keep)
  {
    if rows != [] {
      var row, rest := rows[0], rows[1..];
      PruneKeepsNewest(rest, keep, topic);
      assert rows == [row] + rest;
    }
  }

  lemma {:induction false} PruneOnlyDeletes(rows: seq<Envelope>, keep: nat)
    ensures forall e :: e in Pruned(rows, keep) ==> e in rows
    ensures |Pruned(rows, keep)| <= |rows|
  {
    if rows != [] {
      PruneOnlyDeletes(rows[1..], keep);
      assert rows == [rows[0]] + rows[1..];
    }
  }

  /** A topic with no row left had none before, unless nothing at all is kept. */
  lemma {:induction false} PruneKeepsTopics(rows: seq<Envelope>, keep: nat)
    requires keep > 0
    ensures Topics(Pruned(rows, keep)) == Topics(rows)
  {
    PruneOnlyDeletes(rows, keep);
    forall e | e in rows
      ensures e.topic in Topics(Pruned(rows, keep))
    {
      RowsOfAre(rows, e.topic, e);
      PruneKeepsNewest(rows, keep, e.topic);
      var kept := RowsOf(Pruned(rows, keep), e.topic);
      assert kept != [];
      RowsOfAre(Pruned(rows, keep), e.topic, kept[0]);
    }
  }

  /** What appending does to one topic's messages: the new one at the end, and when it is time, only the newest stay. */
  lemma {:induction false} AppendEffect(t: Tables, limits: Limits, envelope: Envelope, topic: Topic)
    ensures var after := Appended(t, limits, envelope);
      var rows := RowsOf(t.rows, topic) + if envelope.topic == topic then [envelope] else [];
      RowsOf(after.rows, topic) == if t.sincePrune + 1 >= limits.pruneEvery then Last(rows, limits.keep) else rows
  {
    RowsOfAppend(t.rows, envelope, topic);
    PruneKeepsNewest(t.rows + [envelope], limits.keep, topic);
  }

  function AppendAll(t: Tables, limits: Limits, run: seq<Envelope>): Tables {
    if run == [] then t
    else Appended(AppendAll(t, limits, run[..|run| - 1]), limits, run[|run| - 1])
  }

  /** Between two prunings the log only grows. */
  lemma {:induction false} NothingIsPrunedEarly(t: Tables, limits: Limits, run: seq<Envelope>)
    requires run != [] ==> t.sincePrune + |run| < limits.pruneEvery
    ensures var after := AppendAll(t, limits, run);
      after.rows == t.rows + run && after.sincePrune == t.sincePrune + |run|
    decreases |run|
  {
    if run == [] {
      assert t.rows + run == t.rows;
    } else {
      var init, last := run[..|run| - 1], run[|run| - 1];
      NothingIsPrunedEarly(t, limits, init);
      assert t.rows + run == t.rows + init + [last];
    }
  }

  /** And the append that makes up the number prunes: of every topic the newest stay, and counting starts over. */
  lemma {:induction false} PrunedOnTime(t: Tables, limits: Limits, run: seq<Envelope>, envelope: Envelope, topic: Topic)
    requires run != [] ==> t.sincePrune + |run| < limits.pruneEvery
    requires t.sincePrune + |run| + 1 >= limits.pruneEvery
    ensures var after := Appended(AppendAll(t, limits, run), limits, envelope);
      && after.sincePrune == 0
      && RowsOf(after.rows, topic) == Last(RowsOf(t.rows + run + [envelope], topic), limits.keep)
  {
    NothingIsPrunedEarly(t, limits, run);
    PruneKeepsNewest(t.rows + run + [envelope], limits.keep, topic);
  }

  /** So a log that was pruned when it was opened never holds more of a topic than is kept and was added since. */
  lemma {:induction false} LogStaysBounded(found: Tables, limits: Limits, run: seq<Envelope>, topic: Topic)
    ensures var start := Prune(found, limits.keep).(sincePrune := 0);
      var after := AppendAll(start, limits, run);
      && (after.sincePrune > 0 ==> after.sincePrune < limits.pruneEvery)
      && |RowsOf(after.rows, topic)| <= limits.keep + after.sincePrune
    decreases |run|
  {
    var start := Prune(found, limits.keep).(sincePrune := 0);
    if run == [] {
      PruneKeepsNewest(found.rows, limits.keep, topic);
    } else {
      var init, last := run[..|run| - 1], run[|run| - 1];
      LogStaysBounded(found, limits, init, topic);
      AppendEffect(AppendAll(start, limits, init), limits, last, topic);
    }
  }

  // ----------------------------------------------------------------- queries

  /** The rows ordered by topic, and within one topic oldest first. `topics` is the order of the topics. */
  function ByTopic(rows: seq<Envelope>, topics: seq<Topic>): seq<Envelope> {
    if topics == [] then [] else RowsOf(rows, topics[0]) + ByTopic(rows, topics[1..])
  }

  type Group = (Topic, seq<Envelope>)

  /** One row of the ordered result joins the last group when the topic is the same, or starts one. */
  function AddRow(groups: seq<Group>, row: Envelope): seq<Group> {
    if groups != [] && groups[|groups| - 1].0 == row.topic
    then groups[|groups| - 1 := (row.topic, groups[|groups| - 1].1 + [row])]
    else groups + [(row.topic, [row])]
  }

  function AddRows(groups: seq<Group>, rows: seq<Envelope>): seq<Group>
    decreases |rows|
  {
    if rows == [] then groups else AddRows(AddRow(groups, rows[0]), rows[1..])
  }

  lemma {:induction false} AddRowsConcat(groups: seq<Group>, rows: seq<Envelope>, more: seq<Envelope>)
    ensures AddRows(groups, rows + more) == AddRows(AddRows(groups, rows), more)
    decreases |rows|
  {
    if rows == [] {
      assert rows + more == more;
    } else {
      assert (rows + more)[1..] == rows[1..] + more;
      AddRowsConcat(AddRow(groups, rows[0]), rows[1..], more);
    }
  }

  /** Rows of one topic all join that topic's group, once it is the last one. */
  lemma {:induction false} AddSameTopic(groups: seq<Group>, topic: Topic, sofar: seq<Envelope>, rows: seq<Envelope>)
    requires forall e :: e in rows ==> e.topic == topic
    ensures AddRows(groups + [(topic, sofar)], rows) == groups + [(topic, sofar + rows)]
    decreases |rows|
  {
    if rows == [] {
      assert sofar + rows == sofar;
    } else {
      assert rows[0] in rows;
      assert AddRow(groups + [(topic, sofar)], rows[0]) == groups + [(topic, sofar + [rows[0]])];
      AddSameTopic(groups, topic, sofar + [rows[0]], rows[1..]);
      assert sofar + [rows[0]] + rows[1..] == sofar + rows;
    }
  }

  /** The groups the ordered rows should end up in: one per topic, with all its rows. */
  function GroupsOf(rows: seq<Envelope>, topics: seq<Topic>): seq<Group> {
    if topics == [] then []
    else [(topics[0], RowsOf(rows, topics[0]))] + GroupsOf(rows, topics[1..])
  }

  lemma {:induction false} GroupsOfAre(rows: seq<Envelope>, topics: seq<Topic>)
    ensures |GroupsOf(rows, topics)| == |topics|
    ensures forall i :: 0 <= i < |topics| ==> GroupsOf(rows, topics)[i] == (topics[i], RowsOf(rows, topics[i]))
  {
    if topics != [] { GroupsOfAre(rows, topics[1..]); }
  }

  /** A run of rows of a topic the last group does not have becomes a group of its own. */
  lemma {:induction false} AddNewTopic(groups: seq<Group>, topic: Topic, rows: seq<Envelope>)
    requires rows != [] && forall e :: e in rows ==> e.topic == topic
    requires groups != [] ==> groups[|groups| - 1].0 != topic
    ensures AddRows(groups, rows) == groups + [(topic, rows)]
  {
    assert rows[0] in rows;
    assert AddRow(groups, rows[0]) == groups + [(topic, [rows[0]])];
    AddSameTopic(groups, topic, [rows[0]], rows[1..]);
    assert [rows[0]] + rows[1..] == rows;
  }

  lemma {:induction false} StoredTopic(rows: seq<Envelope>, topic: Topic)
    requires topic in Topics(rows)
    ensures RowsOf(rows, topic) != [] && forall e :: e in RowsOf(rows, topic) ==> e.topic == topic
  {
    forall e
      ensures e in RowsOf(rows, topic) <==> e in rows && e.topic == topic
    {
      RowsOfAre(rows, topic, e);
    }
    var e :| e in rows && e.topic == topic;
    assert e in RowsOf(rows, topic);
  }

  /** Collecting consecutive rows of equal topic recovers every topic's rows. */
  lemma {:induction false} GroupingIsExact(rows: seq<Envelope>, topics: seq<Topic>, groups: seq<Group>)
    requires Distinct(topics)
    requires forall i :: 0 <= i < |topics| ==> topics[i] in Topics(rows)
    requires groups != [] && topics != [] ==> groups[|groups| - 1].0 != topics[0]
    ensures AddRows(groups, ByTopic(rows, topics)) == groups + GroupsOf(rows, topics)
    decreases |topics|
  {
    if topics != [] {
      var topic, mine := topics[0], RowsOf(rows, topics[0]);
      StoredTopic(rows, topic);
      AddRowsConcat(groups, mine, ByTopic(rows, topics[1..]));
      AddNewTopic(groups, topic, mine);
      var first, rest: seq<Group> := [(topic, mine)], GroupsOf(rows, topics[1..]);
      GroupingIsExact(rows, topics[1..], groups + first);
    }
  }

  /** What loading the newest `k` messages per topic has to return: each topic with a message, once. */
  ghost predicate IsRecent(rows: seq<Envelope>, k: nat, groups: seq<Group>) {
    && (forall i :: 0 <= i < |groups| ==> groups[i].1 == Last(RowsOf(rows, groups[i].0), k) && groups[i].1 != [])
    && (forall i, j :: 0 <= i < j < |groups| ==> groups[i].0 != groups[j].0)
    && (k > 0 ==> forall t :: t in Topics(rows) ==> exists i :: 0 <= i < |groups| && groups[i].0 == t)
  }

  lemma {:induction false} GroupsAreRecent(rows: seq<Envelope>, k: nat, topics: seq<Topic>)
    requires Distinct(topics) && Elements(topics) == Topics(Pruned(rows, k))
    ensures IsRecent(rows, k, GroupsOf(Pruned(rows, k), topics))
  {
    var kept := Pruned(rows, k);
    var groups := GroupsOf(kept, topics);
    GroupsOfAre(kept, topics);
    forall i | 0 <= i < |groups|
      ensures groups[i].1 == Last(RowsOf(rows, groups[i].0), k) && groups[i].1 != []
    {
      PruneKeepsNewest(rows, k, topics[i]);
      assert topics[i] in Elements(topics);
      var e :| e in kept && e.topic == topics[i];
      RowsOfAre(kept, topics[i], e);
    }
    if k > 0 {
      PruneKeepsTopics(rows, k);
      forall t | t in Topics(rows)
        ensures exists i :: 0 <= i < |groups| && groups[i].0 == t
      {
        assert t in Elements(topics);
        var i :| 0 <= i < |topics| && topics[i] == t;
        assert groups[i].0 == t;
      }
    }
  }

  predicate Since(e: Envelope, topic: Topic, after: MessageId) {
    e.topic == topic && e.id > after
  }

  /** Rows of a topic above an id, sorted by id. */
  ghost predicate IsCatchUp(rows: seq<Envelope>, topic: Topic, after: MessageId, result: seq<Envelope>) {
    && SortedById(result)
    && (forall e :: e in result <==> e in rows && Since(e, topic, after))
    && (UniqueIds(rows) ==> StrictlySorted(result))
  }

  class SqliteStore {
    const limits: Limits
    var rows: seq<Envelope>
    var retained: map<Topic, Envelope>
    var offsets: map<(PeerId, Topic), MessageId>
    var sincePrune: nat

    ghost function State(): Tables
      reads this
    {
      Tables(rows, retained, offsets, sincePrune)
    }

    /** Opening the database runs one pruning; the counter of appends starts over. */
    constructor (limits: Limits, found: Tables)
      ensures this.limits == limits && State() == Prune(found, limits.keep).(sincePrune := 0)
    {
      this.limits := limits;
      rows, retained, offsets, sincePrune := Pruned(found.rows, limits.keep), found.retained, found.offsets, 0;
    }

    method Append(envelope: Envelope)
      modifies this
      ensures State() == Appended(old(State()), limits, envelope)
    {
      rows := rows + [envelope];
      if envelope.retain {
        if envelope.payload == [] {
          retained := retained - {envelope.topic};
        } else {
          retained := retained[envelope.topic := envelope];
        }
      }
      sincePrune := sincePrune + 1;
      if sincePrune >= limits.pruneEvery {
        sincePrune := 0;
        rows := Pruned(rows, limits.keep);
      }
    }

    /** The newest `perTopic` messages of every topic, oldest first, one group per topic. */
    method LoadRecent(perTopic: nat) returns (groups: seq<Group>)
      ensures IsRecent(rows, perTopic, groups)
    {
      var kept := Pruned(rows, perTopic);
      var topics := TopicsIn(kept);
      groups := Collect(ByTopic(kept, topics));
      forall i | 0 <= i < |topics|
        ensures topics[i] in Topics(kept)
      {
        assert topics[i] in Elements(topics);
      }
      GroupingIsExact(kept, topics, []);
      assert groups == GroupsOf(kept, topics);
      GroupsAreRecent(rows, perTopic, topics);
    }

    /** Every topic with a retained message, in some order, each once. */
    method LoadRetained() returns (found: seq<(Topic, Envelope)>)
      ensures forall i :: 0 <= i < |found| ==> found[i].0 in retained && retained[found[i].0] == found[i].1
      ensures forall i, j :: 0 <= i < j < |found| ==> found[i].0 != found[j].0
      ensures forall t :: t in retained ==> exists i :: 0 <= i < |found| && found[i].0 == t
    {
      found := [];
      var remaining := retained.Keys;
      while remaining != {}
        invariant remaining <= retained.Keys
        invariant forall i :: 0 <= i < |found| ==> found[i].0 in retained && retained[found[i].0] == found[i].1
        invariant forall i :: 0 <= i < |found| ==> found[i].0 !in remaining
        invariant forall i, j :: 0 <= i < j < |found| ==> found[i].0 != found[j].0
        invariant forall t :: t in retained && t !in remaining ==> exists i :: 0 <= i < |found| && found[i].0 == t
      {
        var t :| t in remaining;
        var longer := found + [(t, retained[t])];
        assert longer[|found|].0 == t;
        assert forall i :: 0 <= i < |found| ==> longer[i] == found[i];
        found := longer;
        remaining := remaining - {t};
      }
    }

    /** Every message of a topic newer than `after`, by id. */
    method MessagesSince(topic: Topic, after: MessageId) returns (result: seq<Envelope>)
      ensures IsCatchUp(rows, topic, after, result)
    {
      var found: seq<Envelope> := [];
      for i := 0 to |rows|
        invariant forall e :: e in found <==> e in rows[..i] && Since(e, topic, after)
        invariant UniqueIds(rows) ==> UniqueIds(found)
      {
        assert rows[..i + 1] == rows[..i] + [rows[i]];
        if Since(rows[i], topic, after) {
          if UniqueIds(rows) {
            forall j | 0 <= j < |found|
              ensures found[j].id != rows[i].id
            {
              assert found[j] in rows[..i];
            }
          }
          found := found + [rows[i]];
        }
      }
      assert rows[..|rows|] == rows;
      SortSorts(found);
      if UniqueIds(rows) { SortUnique(found); }
      result := SortById(found);
    }

    method LoadOffset(subscriber: PeerId, topic: Topic) returns (offset: Option<MessageId>)
      ensures offset.Some? <==> (subscriber, topic) in offsets
      ensures offset.Some? ==> offset.value == offsets[(subscriber, topic)]
    {
      if (subscriber, topic) in offsets {
        return Some(offsets[(subscriber, topic)]);
      }
      return None;
    }

    /** Overwrites one position and leaves every other one alone. */
    method RecordOffset(subscriber: PeerId, topic: Topic, id: MessageId)
      modifies this
      ensures State() == old(State()).(offsets := old(offsets)[(subscriber, topic) := id])
    {
      offsets := offsets[(subscriber, topic) := id];
    }
  }

  /** Collects consecutive rows of one topic into one group. */
  method Collect(selected: seq<Envelope>) returns (groups: seq<Group>)
    ensures groups == AddRows([], selected)
  {
    groups := [];
    for i := 0 to |selected|
      invariant AddRows(groups, selected[i..]) == AddRows([], selected)
    {
      var row := selected[i];
      assert selected[i..][0] == row && selected[i..][1..] == selected[i + 1..];
      if groups != [] && groups[|groups| - 1].0 == row.topic {
        groups := groups[|groups| - 1 := (row.topic, groups[|groups| - 1].1 + [row])];
      } else {
        groups := groups + [(row.topic, [row])];
      }
    }
  }

  method TopicsIn(rows: seq<Envelope>) returns (topics: seq<Topic>)
    ensures Distinct(topics) && Elements(topics) == Topics(rows)
  {
    topics := [];
    for i := 0 to |rows|
      invariant Distinct(topics) && Elements(topics) == Topics(rows[..i])
    {
      assert rows[..i + 1] == rows[..i] + [rows[i]];
      assert Topics(rows[..i + 1]) == Topics(rows[..i]) + {rows[i].topic};
      if rows[i].topic !in topics {
        DistinctAppend(topics, rows[i].topic);
        topics := topics + [rows[i].topic];
      } else {
        assert rows[i].topic in Elements(topics);
      }
    }
    assert rows[..|rows|] == rows;
  }
}
