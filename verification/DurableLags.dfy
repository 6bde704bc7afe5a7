/**
 * Durable sessions that lag. A session catches up from the log and then follows its receiver; when that
 * lags, it resubscribes to the replay buffer and goes on after the last message it delivered, if that is
 * still there, and otherwise with what comes next. Every delivery is recorded as the new position.
 * Publishes are appended and broadcast in one step, with increasing ids; all rows are kept.
 */
module DurableLags {
  import opened Common
  import opened Sequences
  import opened Sorting
  import opened Channels
  import LagRecovery

  type Capacities = LagRecovery.Capacities

  /**
   * `log` is the topic's rows and all that was ever broadcast, `at` the receiver's place in it. `start` is the
   * first position. Two histories: `sent`, over all sessions, and `hole`, the first message that a lag of this
   * session has left out.
   */
  datatype State = State(
    log: seq<Envelope>, retained: Option<Envelope>, start: MessageId, position: MessageId,
    connected: bool, at: nat, todo: seq<Envelope>, last: Option<MessageId>, unrecorded: Option<MessageId>,
    sent: seq<Envelope>, hole: Option<Envelope>)

  datatype Step = Publish(envelope: Envelope) | Connect(backlog: seq<Envelope>) | Send | Receive | Record | Lagged
    | Disconnect

  function ChannelOf(s: State, c: Capacities): Channel {
    Channel(s.log, Last(s.log, c.replay), s.retained, s.log, s.retained)
  }

  function Recovery(s: State, c: Capacities): seq<Envelope> {
    LagRecovery.Recovered(s.last, Backlog(ChannelOf(s, c)))
  }

  /** The first row above the start that has not been sent and is not coming. */
  function FirstMissing(log: seq<Envelope>, start: MessageId, sent: seq<Envelope>,
      coming: seq<Envelope>): (m: Option<Envelope>)
    ensures m.Some? ==> m.value in log && m.value.id > start && m.value !in sent && m.value !in coming
    ensures m.None? ==> forall e :: e in log && e.id > start ==> e in sent || e in coming
  {
    if log == [] then None
    else if log[0].id > start && log[0] !in sent && log[0] !in coming then Some(log[0])
    else FirstMissing(log[1..], start, sent, coming)
  }

  ghost predicate IsAbove(log: seq<Envelope>, position: MessageId, backlog: seq<Envelope>) {
    StrictlySorted(backlog) && forall e :: e in backlog <==> e in log && e.id > position
  }

  ghost predicate Enabled(s: State, step: Step, c: Capacities) {
    match step
    case Publish(envelope) => envelope.id > s.start && forall e :: e in s.log ==> e.id < envelope.id
    case Connect(backlog) => !s.connected && IsAbove(s.log, s.position, backlog)
    case Send => s.connected && s.unrecorded.None? && s.todo != []
    case Receive => s.connected && s.unrecorded.None? && s.todo == [] && s.at < |s.log| <= s.at + c.broadcast
    case Record => s.connected && s.unrecorded.Some?
    case Lagged => s.connected && s.unrecorded.None? && s.todo == [] && |s.log| > s.at + c.broadcast
    case Disconnect => s.connected
  }

  /** A message goes out. */
  function Delivered(s: State, envelope: Envelope): State {
    s.(sent := s.sent + [envelope], last := Some(envelope.id), unrecorded := Some(envelope.id))
  }

  ghost function Apply(s: State, step: Step, c: Capacities): State
    requires Enabled(s, step, c)
  {
    match step
    case Publish(envelope) => s.(log := s.log + [envelope],
      retained := RetainedAfter(s.retained, envelope, envelope.retain))
    case Connect(backlog) => s.(connected := true, at := |s.log|, todo := backlog, last := None)
    case Send => Delivered(s.(todo := s.todo[1..]), s.todo[0])
    case Receive => Delivered(s.(at := s.at + 1), s.log[s.at])
    case Record => s.(position := s.unrecorded.value, unrecorded := None)
    case Lagged =>
      var recovered := Recovery(s, c);
      s.(at := |s.log|, todo := recovered, hole := FirstMissing(s.log, s.start, s.sent, recovered))
    case Disconnect => s.(connected := false, todo := [], last := None, unrecorded := None, hole := None)
  }

  ghost function Next(s: State, step: Step, c: Capacities): State {
    if Enabled(s, step, c) then Apply(s, step, c) else s
  }

  ghost function Execute(s: State, run: seq<Step>, c: Capacities): State
    decreases |run|
  {
    if run == [] then s else Execute(Next(s, run[0], c), run[1..], c)
  }

  /** Between sessions, with rows and perhaps a retained message among them, and a recorded position. */
  function Initial(log: seq<Envelope>, retained: Option<Envelope>, start: MessageId): State {
    State(log, retained, start, start, false, 0, [], None, None, [], None)
  }

  // --------------------------------------------------------------- invariant

  /** The subscriber has gone past `id`: it is at or below the recorded position or the message in hand. */
  predicate Past(s: State, id: MessageId) {
    id <= s.position || (s.unrecorded.Some? && id <= s.unrecorded.value)
  }

  /** A message above the start has not been sent, and the subscriber has gone past it. */
  ghost predicate PassedOver(s: State) {
    exists e :: e in s.log && e.id > s.start && e !in s.sent && Past(s, e.id)
  }

  ghost predicate Reached(s: State, id: MessageId) {
    id <= s.start || exists e :: e in s.log && e.id == id
  }

  ghost predicate Shape(s: State, c: Capacities) {
    && StrictlySorted(s.log) && StrictlySorted(s.todo)
    && (s.retained.Some? ==> s.retained.value in s.log)
    && s.at <= |s.log| && (!s.connected ==> s.todo == [] && s.unrecorded.None? && s.hole.None?)
    && (forall e :: e in s.todo ==> e in s.log[..s.at])
    && Reached(s, s.position) && (s.unrecorded.Some? ==> Reached(s, s.unrecorded.value))
  }

  /** What is still to be sent: what waits, and what the receiver has yet to be sent. */
  predicate Coming(s: State, e: Envelope)
    requires s.at <= |s.log|
  {
    e in s.todo || e in s.log[s.at..]
  }

  /** All that has not been sent comes, but for what is at the hole and above. */
  ghost predicate Accounted(s: State)
    requires s.at <= |s.log|
  {
    && (forall e :: e in s.log && e.id > s.start && e !in s.sent && s.connected && !Coming(s, e) ==>
          s.hole.Some? && s.hole.value.id <= e.id)
    && (s.hole.Some? ==>
          s.hole.value in s.log[..s.at] && s.hole.value.id > s.start && s.hole.value !in s.sent
            && s.hole.value !in s.todo)
  }

  ghost predicate Inv(s: State, c: Capacities) {
    Shape(s, c) && Accounted(s)
  }

  // ------------------------------------------------------------------- the steps

  /** In a sorted log, what comes before a place is lower than what comes from there on. */
  lemma Halves(log: seq<Envelope>, at: nat, a: Envelope, b: Envelope)
    requires StrictlySorted(log) && at <= |log| && a in log[..at] && b in log[at..]
    ensures a.id < b.id && a in log && b in log
  {
    var i :| 0 <= i < at && log[..at][i] == a;
    var j :| 0 <= j < |log| - at && log[at..][j] == b;
    assert log[i] == a && log[at + j] == b;
  }

  lemma SplitAt(log: seq<Envelope>, at: nat, e: Envelope)
    requires at <= |log|
    ensures e in log <==> e in log[..at] || e in log[at..]
  {
    assert log == log[..at] + log[at..];
  }

  lemma AppendedOrder(log: seq<Envelope>, at: nat, envelope: Envelope)
    requires StrictlySorted(log) && at <= |log| && forall e :: e in log ==> e.id < envelope.id
    ensures StrictlySorted(log + [envelope])
    ensures (log + [envelope])[..at] == log[..at] && (log + [envelope])[at..] == log[at..] + [envelope]
  {
    forall i, j | 0 <= i < j < |log| + 1
      ensures (log + [envelope])[i].id < (log + [envelope])[j].id
    {
      assert log[i] in log;
    }
  }

  lemma StillReached(s: State, after: State, id: MessageId, envelope: Envelope)
    requires Reached(s, id) && after.log == s.log + [envelope] && after.start == s.start
    ensures Reached(after, id)
  {
    if id > s.start {
      var e :| e in s.log && e.id == id;
      assert e in after.log;
    }
  }

  lemma PublishPassesOverNothing(s: State, envelope: Envelope, c: Capacities)
    requires Inv(s, c) && Enabled(s, Publish(envelope), c)
    ensures PassedOver(Apply(s, Publish(envelope), c)) <==> PassedOver(s)
  {
    var after := Apply(s, Publish(envelope), c);
    assert forall e :: e in after.log <==> e in s.log || e == envelope;
    assert !Past(s, envelope.id);
    if PassedOver(s) {
      var e :| e in s.log && e.id > s.start && e !in s.sent && Past(s, e.id);
      assert e in after.log && Past(after, e.id);
    }
  }

  lemma PublishKeepsInv(s: State, envelope: Envelope, c: Capacities)
    requires Inv(s, c) && Enabled(s, Publish(envelope), c)
    ensures Inv(Apply(s, Publish(envelope), c), c)
  {
    var after := Apply(s, Publish(envelope), c);
    AppendedOrder(s.log, s.at, envelope);
    StillReached(s, after, s.position, envelope);
    if s.unrecorded.Some? { StillReached(s, after, s.unrecorded.value, envelope); }
    assert forall e :: e in after.log <==> e in s.log || e == envelope;
    forall e | e in after.log && e.id > s.start && e !in s.sent && s.connected && !Coming(after, e)
      ensures s.hole.Some? && s.hole.value.id <= e.id
    {
      assert e in s.log && !Coming(s, e);
    }
  }

  /** The next message to go out, and what is left. */
  predicate IsNext(s: State, e: Envelope, rest: State)
    requires s.at <= |s.log|
  {
    || (s.todo != [] && e == s.todo[0] && rest == s.(todo := s.todo[1..]))
    || (s.todo == [] && s.at < |s.log| && e == s.log[s.at] && rest == s.(at := s.at + 1))
  }

  /** Whatever else is coming is higher. */
  lemma NextIsLowest(s: State, d: Envelope, rest: State, e: Envelope, c: Capacities)
    requires Shape(s, c) && IsNext(s, d, rest) && Coming(s, e) && e != d
    ensures d.id < e.id && rest.at <= |s.log| && (e in rest.todo || e in s.log[rest.at..])
  {
    if s.todo == [] {
      assert s.log[s.at..] == [d] + s.log[s.at + 1..];
      var j :| 0 <= j < |s.log| - s.at - 1 && s.log[s.at + 1..][j] == e;
      assert s.log[s.at + 1 + j] == e;
    } else {
      assert s.todo == [d] + rest.todo;
      if e in rest.todo {
        var j :| 0 <= j < |rest.todo| && rest.todo[j] == e;
        assert s.todo[j + 1] == e;
      } else {
        Halves(s.log, s.at, d, e);
      }
    }
  }

  /** After a delivery, what has not been sent was coming and is higher, or is at the hole and above. */
  lemma UnsentAfter(s: State, d: Envelope, rest: State, c: Capacities, e: Envelope)
    requires Inv(s, c) && !PassedOver(s) && s.connected && s.unrecorded.None? && IsNext(s, d, rest)
    requires e in s.log && e.id > s.start && e !in Delivered(rest, d).sent
    ensures !Past(s, e.id) && rest.at <= |s.log|
    ensures Coming(s, e) ==> d.id < e.id && Coming(Delivered(rest, d), e)
    ensures !Coming(s, e) ==> s.hole.Some? && s.hole.value.id <= e.id
  {
    NextIsLogged(s, d, rest, c);
    if Coming(s, e) { NextIsLowest(s, d, rest, e, c); }
  }

  lemma DeliveryKeepsInv(s: State, d: Envelope, rest: State, c: Capacities)
    requires Inv(s, c) && !PassedOver(s) && s.connected && s.unrecorded.None? && IsNext(s, d, rest)
    ensures Inv(Delivered(rest, d), c)
  {
    var after := Delivered(rest, d);
    NextIsLogged(s, d, rest, c);
    forall e | e in after.log && e.id > after.start && e !in after.sent && !Coming(after, e)
      ensures after.hole.Some? && after.hole.value.id <= e.id
    {
      UnsentAfter(s, d, rest, c, e);
    }
  }

  /** Going out past the hole is what passes something over. */
  lemma DeliveryPassesIff(s: State, d: Envelope, rest: State, c: Capacities)
    requires Inv(s, c) && !PassedOver(s) && s.connected && s.unrecorded.None? && IsNext(s, d, rest)
    ensures PassedOver(Delivered(rest, d)) <==> s.hole.Some? && s.hole.value.id < d.id
  {
    var after := Delivered(rest, d);
    NextIsLogged(s, d, rest, c);
    if s.hole.Some? && s.hole.value.id < d.id {
      assert s.hole.value in after.log && Past(after, s.hole.value.id);
    } else {
      if s.hole.Some? { OtherId(s.log, s.hole.value, d); }
      forall e | e in after.log && e.id > after.start && e !in after.sent
        ensures !Past(after, e.id)
      {
        UnsentAfter(s, d, rest, c, e);
        OtherId(s.log, e, d);
      }
    }
  }

  lemma OtherId(log: seq<Envelope>, a: Envelope, b: Envelope)
    requires StrictlySorted(log) && a in log && b in log && a != b
    ensures a.id != b.id
  {
    var i :| 0 <= i < |log| && log[i] == a;
    var j :| 0 <= j < |log| && log[j] == b;
  }

  lemma NextIsLogged(s: State, d: Envelope, rest: State, c: Capacities)
    requires Inv(s, c) && IsNext(s, d, rest)
    ensures d in s.log && Shape(rest, c) && (s.hole.Some? ==> s.hole.value in s.log && s.hole.value != d)
    ensures s.hole.Some? ==> s.hole.value in s.log[..rest.at] && s.hole.value !in rest.todo
    ensures s.todo == [] ==> d in s.log[s.at..]
  {
    assert forall e :: e in s.log[..s.at] ==> e in s.log;
    if s.todo == [] {
      assert s.log[s.at..][0] == d;
      assert s.log[..s.at + 1] == s.log[..s.at] + [d];
      if s.hole.Some? { Halves(s.log, s.at, s.hole.value, d); }
    } else {
      assert s.todo == [d] + rest.todo;
      assert d in s.todo;
    }
  }

  lemma {:induction false} FirstMissingIsLowest(log: seq<Envelope>, start: MessageId, sent: seq<Envelope>,
      coming: seq<Envelope>, e: Envelope)
    requires StrictlySorted(log) && e in log && e.id > start && e !in sent && e !in coming
    ensures var m := FirstMissing(log, start, sent, coming); m.Some? && m.value.id <= e.id
    decreases |log|
  {
    assert log == [log[0]] + log[1..];
    if log[0] == e {
    } else {
      assert e in log[1..];
      FirstMissingIsLowest(log[1..], start, sent, coming, e);
      var i :| 0 <= i < |log| && log[i] == e;
      assert log[0].id < log[i].id;
    }
  }

  lemma LastIsSorted(log: seq<Envelope>, n: nat)
    requires StrictlySorted(log)
    ensures StrictlySorted(Last(log, n)) && forall e :: e in Last(log, n) ==> e in log
  {
  }

  lemma OlderThanLast(log: seq<Envelope>, n: nat, e: Envelope, x: Envelope)
    requires StrictlySorted(log) && e in log && !HasId(Last(log, n), e.id) && x in Last(log, n)
    ensures e.id < x.id
  {
    var buffer := Last(log, n);
    var from := |log| - |buffer|;
    var i :| 0 <= i < |log| && log[i] == e;
    var k :| 0 <= k < |buffer| && buffer[k] == x;
    assert x == log[from + k];
    forall j | from <= j < |log|
      ensures log[j].id != e.id
    {
      assert buffer[j - from] == log[j];
    }
  }

  /** What a resubscribe gives is sorted and from the log: a retained message in front is older than the buffer. */
  lemma BacklogIsSorted(s: State, c: Capacities)
    requires Shape(s, c)
    ensures StrictlySorted(Backlog(ChannelOf(s, c)))
    ensures forall e :: e in Backlog(ChannelOf(s, c)) ==> e in s.log
  {
    LastIsSorted(s.log, c.replay);
    if s.retained.Some? && !HasId(Last(s.log, c.replay), s.retained.value.id) {
      forall x | x in Last(s.log, c.replay)
        ensures s.retained.value.id < x.id
      {
        OlderThanLast(s.log, c.replay, s.retained.value, x);
      }
      FrontIsSorted(s.retained.value, Last(s.log, c.replay));
    }
  }

  lemma FrontIsSorted(front: Envelope, rest: seq<Envelope>)
    requires StrictlySorted(rest) && forall x :: x in rest ==> front.id < x.id
    ensures StrictlySorted([front] + rest)
  {
    forall i, j | 0 <= i < j < |rest| + 1
      ensures ([front] + rest)[i].id < ([front] + rest)[j].id
    {
      assert rest[j - 1] in rest;
    }
  }

  lemma SuffixIsSorted(s: seq<Envelope>, i: nat)
    requires StrictlySorted(s) && i <= |s|
    ensures StrictlySorted(s[i..]) && forall e :: e in s[i..] ==> e in s
  {
  }

  lemma RecoveredIsSorted(last: Option<MessageId>, backlog: seq<Envelope>)
    requires StrictlySorted(backlog)
    ensures StrictlySorted(LagRecovery.Recovered(last, backlog))
    ensures forall e :: e in LagRecovery.Recovered(last, backlog) ==> e in backlog
  {
    if last.Some? {
      var i := LagRecovery.PositionOf(backlog, last.value);
      if i < |backlog| { SuffixIsSorted(backlog, i + 1); }
    }
  }

  lemma RecoveryIsSorted(s: State, c: Capacities)
    requires Shape(s, c)
    ensures StrictlySorted(Recovery(s, c)) && forall e :: e in Recovery(s, c) ==> e in s.log
  {
    BacklogIsSorted(s, c);
    RecoveredIsSorted(s.last, Backlog(ChannelOf(s, c)));
  }

  lemma LagKeepsInv(s: State, c: Capacities)
    requires Inv(s, c) && Enabled(s, Lagged, c)
    ensures Inv(Apply(s, Lagged, c), c)
    ensures PassedOver(Apply(s, Lagged, c)) <==> PassedOver(s)
  {
    var after, recovered := Apply(s, Lagged, c), Recovery(s, c);
    RecoveryIsSorted(s, c);
    assert s.log[..|s.log|] == s.log;
    forall e | e in after.log && e.id > after.start && e !in after.sent && !Coming(after, e)
      ensures after.hole.Some? && after.hole.value.id <= e.id
    {
      FirstMissingIsLowest(s.log, s.start, s.sent, recovered, e);
    }
    assert forall id :: Past(after, id) <==> Past(s, id);
  }

  /** A session goes out past a message that a lag has left out. */
  ghost predicate GoesPastHole(s: State, step: Step, c: Capacities) {
    && Enabled(s, step, c) && s.hole.Some? && s.at <= |s.log|
    && match step
       case Send => s.todo[0].id > s.hole.value.id
       case Receive => s.log[s.at].id > s.hole.value.id
       case _ => false
  }

  lemma SettleKeepsInv(s: State, step: Step, c: Capacities)
    requires Inv(s, c) && Enabled(s, step, c) && (step.Connect? || step.Record? || step.Disconnect?) && !PassedOver(s)
    ensures Inv(Apply(s, step, c), c) && !PassedOver(Apply(s, step, c))
  {
    var after := Apply(s, step, c);
    assert s.log[..|s.log|] == s.log;
    forall e | e in after.log && e.id > after.start && e !in after.sent
      ensures !Past(after, e.id)
    {
      assert !Past(s, e.id);
    }
  }

  lemma StepPassesIff(s: State, step: Step, c: Capacities)
    requires Inv(s, c) && !PassedOver(s)
    ensures Inv(Next(s, step, c), c)
    ensures PassedOver(Next(s, step, c)) <==> GoesPastHole(s, step, c)
  {
    if Enabled(s, step, c) {
      match step
      case Publish(envelope) =>
        PublishKeepsInv(s, envelope, c);
        PublishPassesOverNothing(s, envelope, c);
      case Send =>
        DeliveryKeepsInv(s, s.todo[0], s.(todo := s.todo[1..]), c);
        DeliveryPassesIff(s, s.todo[0], s.(todo := s.todo[1..]), c);
      case Receive =>
        DeliveryKeepsInv(s, s.log[s.at], s.(at := s.at + 1), c);
        DeliveryPassesIff(s, s.log[s.at], s.(at := s.at + 1), c);
      case Lagged => LagKeepsInv(s, c);
      case _ => SettleKeepsInv(s, step, c);
    }
  }

  // --------------------------------------------------------------- over whole runs

  ghost predicate NeverPassesOver(s: State, run: seq<Step>, c: Capacities)
    decreases |run|
  {
    !PassedOver(s) && (run != [] ==> NeverPassesOver(Next(s, run[0], c), run[1..], c))
  }

  ghost predicate StopsAtHoles(s: State, run: seq<Step>, c: Capacities)
    decreases |run|
  {
    run != [] ==> !GoesPastHole(s, run[0], c) && StopsAtHoles(Next(s, run[0], c), run[1..], c)
  }

  lemma {:induction false} PassesOverIff(s: State, run: seq<Step>, c: Capacities)
    requires Inv(s, c) && !PassedOver(s)
    ensures NeverPassesOver(s, run, c) <==> StopsAtHoles(s, run, c)
    ensures StopsAtHoles(s, run, c) ==> Inv(Execute(s, run, c), c) && !PassedOver(Execute(s, run, c))
    decreases |run|
  {
    if run != [] {
      StepPassesIff(s, run[0], c);
      if !GoesPastHole(s, run[0], c) { PassesOverIff(Next(s, run[0], c), run[1..], c); }
    }
  }

  ghost predicate Startable(log: seq<Envelope>, retained: Option<Envelope>) {
    StrictlySorted(log) && (retained.Some? ==> retained.value in log)
  }

  /**
   * Over any number of sessions, with any lags: a stored message above the first position is passed over at some
   * time if and only if some session goes on past a message that one of its lags has left out.
   */
  lemma {:induction false} SomethingIsPassedOverIff(log: seq<Envelope>, retained: Option<Envelope>, start: MessageId,
      run: seq<Step>, c: Capacities)
    requires Startable(log, retained)
    ensures NeverPassesOver(Initial(log, retained, start), run, c) <==>
      StopsAtHoles(Initial(log, retained, start), run, c)
  {
    PassesOverIff(Initial(log, retained, start), run, c);
  }

  // ------------------------------------------------------------- lags within reach

  /** What has come since the session's receiver began is new, and the last message delivered is the one before. */
  ghost predicate Fresh(s: State) {
    && s.at <= |s.log|
    && (forall e :: e in s.sent ==> e in s.log)
    && (s.connected ==>
          && (forall e :: e in s.sent ==> e in s.log[..s.at])
          && (forall e :: e in s.log[s.at..] ==> e.id > s.start)
          && (s.hole.None? && s.todo != [] ==> s.at > 0 && s.todo[|s.todo| - 1] == s.log[s.at - 1])
          && (s.hole.None? && s.todo == [] && s.last.Some? ==> s.at > 0 && s.last == Some(s.log[s.at - 1].id)))
  }

  /** The log's last message, if it is in a sorted part of the log, is the last there. */
  lemma LastIsLast(log: seq<Envelope>, part: seq<Envelope>)
    requires StrictlySorted(log) && StrictlySorted(part) && log != [] && log[|log| - 1] in part
    requires forall e :: e in part ==> e in log
    ensures part[|part| - 1] == log[|log| - 1]
  {
    var last := part[|part| - 1];
    assert last in log;
    var k :| 0 <= k < |part| && part[k] == log[|log| - 1];
    var i :| 0 <= i < |log| && log[i] == last;
    assert part[k].id <= last.id && log[i].id <= log[|log| - 1].id;
  }

  lemma HighestIsIn(log: seq<Envelope>, position: MessageId, backlog: seq<Envelope>)
    requires StrictlySorted(log) && IsAbove(log, position, backlog) && backlog != []
    ensures log != [] && log[|log| - 1] in backlog
  {
    assert backlog[0] in backlog;
    var i :| 0 <= i < |log| && log[i] == backlog[0];
    assert log[i].id <= log[|log| - 1].id;
  }

  lemma WholeSlices(log: seq<Envelope>)
    ensures log[..|log|] == log && log[|log|..] == []
  {
  }

  /** What the receiver has yet to be sent is above the start and has never been sent. */
  lemma DueIsUnsent(s: State, c: Capacities, e: Envelope)
    requires Shape(s, c) && Fresh(s) && s.connected && e in s.log[s.at..]
    ensures e in s.log && e.id > s.start && e !in s.sent
  {
    SplitAt(s.log, s.at, e);
    if e in s.sent { Halves(s.log, s.at, e, e); }
  }

  lemma ConnectKeepsFresh(s: State, backlog: seq<Envelope>, c: Capacities)
    requires Inv(s, c) && Fresh(s) && Enabled(s, Connect(backlog), c)
    ensures Fresh(Apply(s, Connect(backlog), c))
  {
    WholeSlices(s.log);
    if backlog != [] {
      HighestIsIn(s.log, s.position, backlog);
      LastIsLast(s.log, backlog);
    }
  }

  lemma SendKeepsFresh(s: State, c: Capacities)
    requires Inv(s, c) && Fresh(s) && s.connected && s.todo != []
    ensures Fresh(Delivered(s.(todo := s.todo[1..]), s.todo[0]))
  {
    var rest := s.todo[1..];
    assert s.todo == [s.todo[0]] + rest;
    assert s.todo[0] in s.todo;
    assert rest != [] ==> rest[|rest| - 1] == s.todo[|s.todo| - 1];
  }

  lemma ReceiveKeepsFresh(s: State, c: Capacities)
    requires Inv(s, c) && Fresh(s) && s.connected && s.todo == [] && s.at < |s.log|
    ensures Fresh(Delivered(s.(at := s.at + 1), s.log[s.at]))
  {
    assert s.log[s.at..] == [s.log[s.at]] + s.log[s.at + 1..];
    assert s.log[..s.at + 1] == s.log[..s.at] + [s.log[s.at]];
  }

  lemma LagKeepsFresh(s: State, c: Capacities)
    requires Inv(s, c) && Fresh(s) && Enabled(s, Lagged, c)
    ensures Fresh(Apply(s, Lagged, c))
  {
    RecoveryIsSorted(s, c);
    LaggedIsFresh(s, Recovery(s, c), c);
  }

  lemma {:induction false} LaggedIsFresh(s: State, recovered: seq<Envelope>, c: Capacities)
    requires Shape(s, c) && Fresh(s) && s.connected && s.at < |s.log|
    requires StrictlySorted(recovered) && forall e :: e in recovered ==> e in s.log
    ensures Fresh(s.(at := |s.log|, todo := recovered, hole := FirstMissing(s.log, s.start, s.sent, recovered)))
  {
    var hole := FirstMissing(s.log, s.start, s.sent, recovered);
    if hole.None? { NewestIsLast(s, recovered, c); }
    FreshAtEnd(s.(at := |s.log|, todo := recovered, hole := hole));
  }

  lemma {:induction false} NewestIsLast(s: State, recovered: seq<Envelope>, c: Capacities)
    requires Shape(s, c) && Fresh(s) && s.connected && s.at < |s.log|
    requires FirstMissing(s.log, s.start, s.sent, recovered).None?
    requires StrictlySorted(recovered) && forall e :: e in recovered ==> e in s.log
    ensures recovered != [] && recovered[|recovered| - 1] == s.log[|s.log| - 1]
  {
    var newest := s.log[|s.log| - 1];
    assert s.log[s.at..][|s.log| - 1 - s.at] == newest;
    DueIsUnsent(s, c, newest);
    LastIsLast(s.log, recovered);
  }

  lemma FreshAtEnd(s: State)
    requires s.connected && s.at == |s.log| && forall e :: e in s.sent ==> e in s.log
    requires s.hole.None? && s.todo != [] ==> s.log != [] && s.todo[|s.todo| - 1] == s.log[|s.log| - 1]
    requires s.hole.None? && s.todo == [] ==> s.last.None?
    ensures Fresh(s)
  {
    WholeSlices(s.log);
  }

  lemma PublishKeepsFresh(s: State, envelope: Envelope, c: Capacities)
    requires Inv(s, c) && Fresh(s) && Enabled(s, Publish(envelope), c)
    ensures Fresh(Apply(s, Publish(envelope), c))
  {
    GrownIsFresh(s, s.(retained := RetainedAfter(s.retained, envelope, envelope.retain)), envelope);
  }

  lemma GrownIsFresh(s: State, t: State, envelope: Envelope)
    requires StrictlySorted(s.log) && Fresh(s) && envelope.id > s.start && forall e :: e in s.log ==> e.id < envelope.id
    requires t == s.(retained := t.retained)
    ensures Fresh(t.(log := s.log + [envelope]))
  {
    AppendedOrder(s.log, s.at, envelope);
    assert s.at > 0 ==> (s.log + [envelope])[s.at - 1] == s.log[s.at - 1];
    assert forall e :: e in s.log ==> e in s.log + [envelope];
  }

  lemma SettleKeepsFresh(s: State, step: Step, c: Capacities)
    requires Fresh(s) && Enabled(s, step, c) && (step.Record? || step.Disconnect?)
    ensures Fresh(Apply(s, step, c))
  {
  }

  lemma StepKeepsFresh(s: State, step: Step, c: Capacities)
    requires Inv(s, c) && Fresh(s)
    ensures Fresh(Next(s, step, c))
  {
    if Enabled(s, step, c) {
      match step
      case Publish(envelope) => PublishKeepsFresh(s, envelope, c);
      case Connect(backlog) => ConnectKeepsFresh(s, backlog, c);
      case Send => SendKeepsFresh(s, c);
      case Receive => ReceiveKeepsFresh(s, c);
      case Lagged => LagKeepsFresh(s, c);
      case _ => SettleKeepsFresh(s, step, c);
    }
  }

  /**
   * To be checked when a lag is reported: the last message delivered, or the first one due if none has been, is
   * still in the replay buffer, or is the retained message and the buffer begins right behind it.
   */
  predicate WithinReach(s: State, c: Capacities)
    requires s.at < |s.log| && (s.last.Some? ==> s.at > 0)
  {
    LagRecovery.AnchorRecoverable(ChannelOf(s, c), if s.last.None? then s.at else s.at - 1)
  }

  lemma ChannelIsConsistent(s: State, c: Capacities)
    requires Shape(s, c)
    ensures var channel := ChannelOf(s, c);
      LagRecovery.History(channel) == s.log && LagRecovery.Consistent(channel, c) && LagRecovery.DistinctIds(s.log)
  {
    forall i, j | 0 <= i < j < |s.log|
      ensures LagRecovery.Differ(s.log[i], s.log[j])
    {
    }
    assert [] + s.log == s.log;
    LagRecovery.RefilledIsConsistent(ChannelOf(s, c), c);
  }

  /** Fewer messages than there are cannot cover them all. */
  lemma SomeLeftOut(due: seq<Envelope>, recovered: seq<Envelope>)
    requires StrictlySorted(due) && |recovered| < |due|
    ensures exists e :: e in due && e !in recovered
  {
    if forall e :: e in due ==> e in recovered {
      DistinctSize(due);
      assert Elements(due) <= Elements(recovered);
      SubsetSize(Elements(due), Elements(recovered));
      ElementsAtMost(recovered);
    }
  }

  lemma {:induction false} ElementsAtMost(s: seq<Envelope>)
    ensures |Elements(s)| <= |s|
  {
    if s != [] {
      ElementsAtMost(s[1..]);
      assert s == [s[0]] + s[1..];
      assert Elements(s) == {s[0]} + Elements(s[1..]);
    }
  }

  lemma InBacklogIff(s: State, c: Capacities, e: Envelope)
    ensures e in Backlog(ChannelOf(s, c)) <==>
      e in Last(s.log, c.replay) || (s.retained == Some(e) && !HasId(Last(s.log, c.replay), e.id))
  {
  }

  lemma InBufferIff(log: seq<Envelope>, n: nat, i: nat)
    requires StrictlySorted(log) && i < |log|
    ensures log[i] in Last(log, n) <==> i >= |log| - |Last(log, n)|
  {
    var buffer := Last(log, n);
    var from := |log| - |buffer|;
    if log[i] in buffer {
      var k :| 0 <= k < |buffer| && buffer[k] == log[i];
      assert buffer[k] == log[from + k];
    }
    if i >= from { assert buffer[i - from] == log[i]; }
  }

  lemma HasIdIff(log: seq<Envelope>, n: nat, i: nat)
    requires StrictlySorted(log) && i < |log|
    ensures HasId(Last(log, n), log[i].id) <==> log[i] in Last(log, n)
  {
    var buffer := Last(log, n);
    var from := |log| - |buffer|;
    if HasId(buffer, log[i].id) {
      var k :| 0 <= k < |buffer| && buffer[k].id == log[i].id;
      assert buffer[k] == log[from + k];
    }
  }

  /** The message at `i` is in the backlog of a resubscribe if and only if it is buffered or retained. */
  lemma GivenIff(s: State, c: Capacities, i: nat)
    requires Shape(s, c) && i < |s.log|
    ensures s.log[i] in Backlog(ChannelOf(s, c)) <==>
      i >= |s.log| - |Last(s.log, c.replay)| || s.retained == Some(s.log[i])
  {
    InBacklogIff(s, c, s.log[i]);
    InBufferIff(s.log, c.replay, i);
    HasIdIff(s.log, c.replay, i);
  }

  /** A resubscribe that delivered nothing yet gets everything due if and only if the buffer reaches back that far. */
  lemma FirstBacklogCovers(s: State, c: Capacities)
    requires Shape(s, c) && s.at < |s.log|
    ensures (forall e :: e in s.log[s.at..] ==> e in Backlog(ChannelOf(s, c))) <==>
      LagRecovery.AnchorRecoverable(ChannelOf(s, c), s.at)
  {
    ChannelIsConsistent(s, c);
    forall i | 0 <= i < |s.log|
      ensures s.log[i] in Backlog(ChannelOf(s, c)) <==>
        i >= |s.log| - |Last(s.log, c.replay)| || s.retained == Some(s.log[i])
    {
      GivenIff(s, c, i);
    }
    CoversIff(s.log, s.at, |s.log| - |Last(s.log, c.replay)|, s.retained, Backlog(ChannelOf(s, c)));
  }

  /** A backlog of all from `from` on, and one retained message, covers all from `at` on just when it reaches back. */
  lemma CoversIff(log: seq<Envelope>, at: nat, from: nat, retained: Option<Envelope>, backlog: seq<Envelope>)
    requires StrictlySorted(log) && at < |log| && from <= |log|
    requires forall i :: 0 <= i < |log| ==> (log[i] in backlog <==> i >= from || retained == Some(log[i]))
    ensures (forall e :: e in log[at..] ==> e in backlog) <==>
      from <= at || (from == at + 1 && retained == Some(log[at]))
  {
    var due := log[at..];
    assert due[0] == log[at];
    if |due| > 1 { assert due[1] == log[at + 1]; }
    if from <= at || (from == at + 1 && retained == Some(log[at])) {
      forall e | e in due
        ensures e in backlog
      {
        var k :| 0 <= k < |due| && due[k] == e;
        assert log[at + k] in backlog;
      }
    }
  }

  /** A lag leaves something out if and only if it is out of reach. */
  lemma LagLeavesOutIff(s: State, c: Capacities)
    requires Inv(s, c) && Fresh(s) && s.hole.None? && Enabled(s, Lagged, c)
    ensures Apply(s, Lagged, c).hole.None? <==> WithinReach(s, c)
  {
    DueIsMissing(s, c);
    if s.last.None? { FirstBacklogCovers(s, c); } else { LaterBacklogCovers(s, c); }
  }

  lemma LaterBacklogCovers(s: State, c: Capacities)
    requires Shape(s, c) && 0 < s.at < |s.log| && s.last == Some(s.log[s.at - 1].id)
    ensures (forall e :: e in s.log[s.at..] ==> e in Recovery(s, c)) <==> WithinReach(s, c)
  {
    var due, recovered := s.log[s.at..], Recovery(s, c);
    ChannelIsConsistent(s, c);
    LagRecovery.RecoveredAfter(ChannelOf(s, c), s.last, s.at, c);
    if !WithinReach(s, c) {
      SuffixIsSorted(s.log, s.at);
      SomeLeftOut(due, recovered);
    }
  }

  lemma DueIsMissing(s: State, c: Capacities)
    requires Inv(s, c) && Fresh(s) && s.hole.None? && Enabled(s, Lagged, c)
    ensures Apply(s, Lagged, c).hole.None? <==> forall e :: e in s.log[s.at..] ==> e in Recovery(s, c)
  {
    forall e | e in s.log[s.at..]
      ensures e in s.log && e.id > s.start && e !in s.sent
    {
      DueIsUnsent(s, c, e);
    }
  }

  /** Every lag of the run is within reach when it is reported. */
  ghost predicate LagsWithinReach(s: State, run: seq<Step>, c: Capacities)
    decreases |run|
  {
    run != [] ==>
      && (Enabled(s, run[0], c) && run[0].Lagged? ==>
         s.at < |s.log| && (s.last.Some? ==> s.at > 0) && WithinReach(s, c))
      && LagsWithinReach(Next(s, run[0], c), run[1..], c)
  }

  lemma {:induction false} ReachedLagsLeaveNothingOut(s: State, run: seq<Step>, c: Capacities)
    requires Inv(s, c) && Fresh(s) && s.hole.None? && !PassedOver(s) && LagsWithinReach(s, run, c)
    ensures var after := Execute(s, run, c);
      Inv(after, c) && after.hole.None? && !PassedOver(after)
    decreases |run|
  {
    if run != [] {
      StepPassesIff(s, run[0], c);
      StepKeepsFresh(s, run[0], c);
      if Enabled(s, run[0], c) && run[0].Lagged? { LagLeavesOutIff(s, c); }
      ReachedLagsLeaveNothingOut(Next(s, run[0], c), run[1..], c);
    }
  }

  /**
   * So while every lag is within reach, nothing is lost: every stored message above the first position has been
   * sent, or is above the recorded position and so part of the next catch-up, and coming in a session under way.
   */
  lemma {:induction false} NothingIsMissedWithinReach(log: seq<Envelope>, retained: Option<Envelope>, start: MessageId,
      run: seq<Step>, c: Capacities)
    requires Startable(log, retained) && LagsWithinReach(Initial(log, retained, start), run, c)
    ensures var s := Execute(Initial(log, retained, start), run, c);
      && s.at <= |s.log|
      && forall e :: e in s.log && e.id > start && e !in s.sent ==> e.id > s.position && (s.connected ==> Coming(s, e))
  {
    ReachedLagsLeaveNothingOut(Initial(log, retained, start), run, c);
    StartStays(Initial(log, retained, start), run, c);
    var s := Execute(Initial(log, retained, start), run, c);
    forall e | e in s.log && e.id > start && e !in s.sent
      ensures e.id > s.position
    {
      assert !Past(s, e.id);
    }
  }

  lemma {:induction false} StartStays(s: State, run: seq<Step>, c: Capacities)
    ensures Execute(s, run, c).start == s.start
    decreases |run|
  {
    if run != [] { StartStays(Next(s, run[0], c), run[1..], c); }
  }

  // ------------------------------------------------------------------ a loss for good

  lemma {:induction false} PassesThrough(states: seq<State>, run: seq<Step>, c: Capacities)
    requires |states| == |run| + 1
    requires forall i :: 0 <= i < |run| ==> states[i + 1] == Next(states[i], run[i], c)
    ensures Execute(states[0], run, c) == states[|run|]
    decreases |run|
  {
    if run != [] { PassesThrough(states[1..], run[1..], c); }
  }

  lemma {:induction false} ExecuteConcat(s: State, first: seq<Step>, second: seq<Step>, c: Capacities)
    ensures Execute(s, first + second, c) == Execute(Execute(s, first, c), second, c)
    decreases |first|
  {
    if first == [] {
      assert first + second == second;
    } else {
      assert (first + second)[1..] == first[1..] + second;
      ExecuteConcat(Next(s, first[0], c), first[1..], second, c);
    }
  }

  const SMALL := LagRecovery.Capacities(2, 1)

  function Message(id: MessageId): Envelope {
    Envelope(id, "t", [], false)
  }

  /** The first message after the position is sent and recorded. */
  function FirstIsSent(n: nat): seq<Step> {
    [Connect([]), Publish(Message(n + 1)), Receive, Record]
  }

  function Sent(n: nat, log: seq<Envelope>): State {
    State(log, None, n, n + 1, true, 1, [], Some(n + 1), None, [Message(n + 1)], None)
  }

  lemma FirstSends(n: nat)
    ensures Execute(Initial([], None, n), FirstIsSent(n), SMALL) == Sent(n, [Message(n + 1)])
  {
    var s0, a := Initial([], None, n), Message(n + 1);
    var s1 := s0.(connected := true);
    var s2 := s1.(log := [a]);
    assert [] + [a] == [a];
    PassesThrough([s0, s1, s2, Delivered(s2.(at := 1), a), Sent(n, [a])], FirstIsSent(n), SMALL);
  }

  function Four(n: nat): seq<Envelope> {
    [Message(n + 1), Message(n + 2), Message(n + 3), Message(n + 4)]
  }

  function ThreeMore(n: nat): seq<Step> {
    [Publish(Message(n + 2)), Publish(Message(n + 3)), Publish(Message(n + 4))]
  }

  lemma ThreeComeIn(n: nat)
    ensures Execute(Sent(n, [Message(n + 1)]), ThreeMore(n), SMALL) == Sent(n, Four(n))
  {
    var a, b, c, d := Message(n + 1), Message(n + 2), Message(n + 3), Message(n + 4);
    assert [a] + [b] == [a, b] && [a, b] + [c] == [a, b, c] && [a, b, c] + [d] == [a, b, c, d];
    PassesThrough([Sent(n, [a]), Sent(n, [a, b]), Sent(n, [a, b, c]), Sent(n, Four(n))], ThreeMore(n), SMALL);
  }

  /** The message delivered last has left the buffer of two, and nothing is recovered. */
  lemma LagLeavesGap(n: nat)
    ensures Execute(Sent(n, Four(n)), [Lagged], SMALL) == Sent(n, Four(n)).(at := 4, hole := Some(Message(n + 2)))
  {
    var log := Four(n);
    assert Last(log, 2) == [log[2], log[3]];
    assert LagRecovery.PositionOf([log[2], log[3]], n + 1) == 2;
    assert log[1..] == [log[1], log[2], log[3]];
    assert FirstMissing(log, n, [log[0]], []) == Some(log[1]);
    assert [Lagged][1..] == [];
  }

  /** The session goes on with the next message, and then another begins. */
  function ThenGoesOn(n: nat): seq<Step> {
    [Publish(Message(n + 5)), Receive, Record, Disconnect, Connect([])]
  }

  lemma GoesOn(n: nat)
    ensures Execute(Sent(n, Four(n)).(at := 4, hole := Some(Message(n + 2))), ThenGoesOn(n), SMALL) ==
      State(Four(n) + [Message(n + 5)], None, n, n + 5, true, 5, [], None, None, [Message(n + 1), Message(n + 5)], None)
  {
    var e, s0 := Message(n + 5), Sent(n, Four(n)).(at := 4, hole := Some(Message(n + 2)));
    var s1 := s0.(log := Four(n) + [e]);
    var s2 := Delivered(s1.(at := 5), e);
    var s3 := s2.(position := n + 5, unrecorded := None);
    var s4 := s3.(connected := false, last := None, hole := None);
    assert s1.log[4] == e && [Message(n + 1)] + [e] == [Message(n + 1), e];
    PassesThrough([s0, s1, s2, s3, s4, s4.(connected := true)], ThenGoesOn(n), SMALL);
  }

  /** Three stored messages above the first position are never sent, and the next session does not catch up on them. */
  lemma LagLosesForGood(n: nat)
    ensures var s := Execute(Initial([], None, n), FirstIsSent(n) + ThreeMore(n) + [Lagged] + ThenGoesOn(n), SMALL);
      && s == State(Four(n) + [Message(n + 5)], None, n, n + 5, true, 5, [], None, None,
         [Message(n + 1), Message(n + 5)], None)
      && PassedOver(s)
  {
    FirstSends(n);
    ThreeComeIn(n);
    LagLeavesGap(n);
    GoesOn(n);
    ExecuteConcat(Initial([], None, n), FirstIsSent(n), ThreeMore(n), SMALL);
    ExecuteConcat(Initial([], None, n), FirstIsSent(n) + ThreeMore(n), [Lagged], SMALL);
    ExecuteConcat(Initial([], None, n), FirstIsSent(n) + ThreeMore(n) + [Lagged], ThenGoesOn(n), SMALL);
    var s := Execute(Initial([], None, n), FirstIsSent(n) + ThreeMore(n) + [Lagged] + ThenGoesOn(n), SMALL);
    assert s.log[1] == Message(n + 2) && Past(s, n + 2);
  }
}
