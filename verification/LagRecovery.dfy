/**
 * A forwarder for one literal filter: it drains a backlog, then follows its receiver, and recovers
 * from the replay buffer whenever the receiver reports that it lagged. Its awaits are the points
 * where publishes interleave, so each send to the connection is one step.
 */
module LagRecovery {
  import opened Common
  import opened Sequences
  import opened Channels

  /** `replay` is the replay buffer's capacity, `broadcast` how many unread envelopes a receiver keeps. */
  datatype Capacities = Capacities(replay: nat, broadcast: nat)

  /**
   * What a channel has been given, in order: its log, and before that the retained message it began with,
   * if that was older than the log it was refilled with.
   */
  function History(channel: Channel): seq<Envelope> {
    (if channel.restored.Some? && channel.restored.value !in channel.refilled then [channel.restored.value] else [])
      + channel.log
  }

  /**
   * `todo` is the part of a backlog not sent yet, `position` the receiver's place in the channel's
   * history. Two histories the program does not keep say what is owed: the retained message that came in
   * front of the first backlog, if any, and the position in the history that backlog's buffer started at.
   */
  datatype Forwarder = Forwarder(
    started: bool, sent: seq<Envelope>, todo: seq<Envelope>, position: nat, lastDelivered: Option<MessageId>,
    front: seq<Envelope>, from: nat)

  datatype World = World(channel: Channel, forwarder: Forwarder)

  datatype Step = Publish(envelope: Envelope) | Start | SendBacklog | Receive | Lagged

  function PositionOf(envelopes: seq<Envelope>, id: MessageId): (i: nat)
    ensures i <= |envelopes|
    ensures i < |envelopes| ==> envelopes[i].id == id
    ensures forall j :: 0 <= j < i ==> envelopes[j].id != id
  {
    if envelopes == [] then 0
    else if envelopes[0].id == id then 0
    else
      var i := 1 + PositionOf(envelopes[1..], id);
      assert forall j :: 1 <= j < i ==> envelopes[j] == envelopes[1..][j - 1];
      i
  }

  /** What is sent from a fresh backlog after a lag: everything after the last envelope delivered. */
  function Recovered(lastDelivered: Option<MessageId>, backlog: seq<Envelope>): seq<Envelope> {
    match lastDelivered
    case None => backlog
    case Some(id) =>
      var i := PositionOf(backlog, id);
      if i < |backlog| then backlog[i + 1..] else []
  }

  predicate Enabled(w: World, step: Step, c: Capacities) {
    match step
    case Publish(envelope) => !HasId(History(w.channel), envelope.id)
    case Start => !w.forwarder.started
    case SendBacklog => w.forwarder.started && w.forwarder.todo != []
    case Receive =>
      && w.forwarder.started && w.forwarder.todo == []
      && w.forwarder.position < |History(w.channel)| <= w.forwarder.position + c.broadcast
    case Lagged =>
      && w.forwarder.started && w.forwarder.todo == []
      && |History(w.channel)| > w.forwarder.position + c.broadcast
  }

  function Apply(w: World, step: Step, c: Capacities): World
    requires Enabled(w, step, c)
  {
    var f := w.forwarder;
    match step
    case Publish(envelope) => w.(channel := Send(w.channel, envelope, envelope.retain, c.replay))
    case Start =>
      var backlog := Backlog(w.channel);
      w.(forwarder := Forwarder(true, [], backlog, |History(w.channel)|, None,
                              backlog[..|backlog| - |w.channel.buffer|],
                              |History(w.channel)| - |Last(w.channel.log, c.replay)|))
    case SendBacklog =>
      w.(forwarder := f.(sent := f.sent + [f.todo[0]], todo := f.todo[1..], lastDelivered := Some(f.todo[0].id)))
    case Receive =>
      var envelope := History(w.channel)[f.position];
      w.(forwarder := f.(sent := f.sent + [envelope], position := f.position + 1, lastDelivered := Some(envelope.id)))
    case Lagged =>
      w.(forwarder := f.(todo := Recovered(f.lastDelivered, Backlog(w.channel)), position := |History(w.channel)|))
  }

  /** A channel as the startup leaves it: new, or refilled with part of its log and a retained message. */
  ghost predicate Refilled(channel: Channel, c: Capacities) {
    && channel.log == channel.refilled && channel.buffer == Last(channel.log, c.replay)
    && channel.retained == channel.restored
    && DistinctIds(History(channel))
  }

  /** A node with such a channel, before the forwarder starts. */
  function Opened(channel: Channel): World {
    World(channel, Forwarder(false, [], [], 0, None, [], 0))
  }

  /** A step that is not enabled does nothing, so any sequence of steps is a run. */
  function Next(w: World, step: Step, c: Capacities): World {
    if Enabled(w, step, c) then Apply(w, step, c) else w
  }

  function Execute(w: World, run: seq<Step>, c: Capacities): World
    decreases |run|
  {
    if run == [] then w else Execute(Next(w, run[0], c), run[1..], c)
  }

  // ------------------------------------------------------------------- order

  predicate Differ(a: Envelope, b: Envelope) {
    a.id != b.id
  }

  /** Triggered by `Differ` only, so that each use of distinctness is an explicit `DistinctAt`. */
  ghost predicate DistinctIds(envelopes: seq<Envelope>) {
    forall i, j {:trigger Differ(envelopes[i], envelopes[j])} :: 0 <= i < j < |envelopes| ==>
      Differ(envelopes[i], envelopes[j])
  }

  lemma DistinctAt(envelopes: seq<Envelope>, i: nat, j: nat)
    requires DistinctIds(envelopes) && i < |envelopes| && j < |envelopes|
    ensures envelopes[i].id == envelopes[j].id <==> i == j
  {
    if i < j { assert Differ(envelopes[i], envelopes[j]); }
    if j < i { assert Differ(envelopes[j], envelopes[i]); }
  }

  lemma DistinctAppend(envelopes: seq<Envelope>, envelope: Envelope)
    requires DistinctIds(envelopes) && !HasId(envelopes, envelope.id)
    ensures DistinctIds(envelopes + [envelope])
  {
    forall i, j | 0 <= i < j < |envelopes| + 1
      ensures Differ((envelopes + [envelope])[i], (envelopes + [envelope])[j])
    {
      if j < |envelopes| { assert Differ(envelopes[i], envelopes[j]); }
    }
  }

  /**
   * What recovery relies on: the buffer is the newest part of the history, and so is the retained message.
   * It is said position by position, where `Buffered` says it of whole sequences.
   */
  ghost predicate Consistent(channel: Channel, c: Capacities) {
    && |channel.buffer| == (if |channel.log| <= c.replay then |channel.log| else c.replay)
    && (forall k :: 0 <= k < |channel.buffer| ==>
       channel.buffer[k] == History(channel)[|History(channel)| - |channel.buffer| + k])
    && (channel.retained.Some? ==> channel.retained.value in History(channel))
    && (channel.log == [] ==> channel.retained == channel.restored)
  }

  lemma HistoryGrows(channel: Channel, envelope: Envelope, c: Capacities)
    ensures History(Send(channel, envelope, envelope.retain, c.replay)) == History(channel) + [envelope]
  {
  }

  lemma RefilledIsConsistent(channel: Channel, c: Capacities)
    requires Refilled(channel, c)
    ensures Consistent(channel, c)
  {
    LastOfHistory(channel, c.replay);
    if channel.restored.Some? { RestoredIsHistory(channel); }
  }

  lemma RestoredIsHistory(channel: Channel)
    requires channel.log == channel.refilled && channel.restored.Some?
    ensures channel.restored.value in History(channel)
  {
    var history, log := History(channel), channel.log;
    if channel.restored.value in log {
      var k :| 0 <= k < |log| && log[k] == channel.restored.value;
      assert history[|history| - |log| + k] == log[k];
    } else {
      assert history[0] == channel.restored.value;
    }
  }

  /** The newest part of the log is the newest part of the history. */
  lemma LastOfHistory(channel: Channel, n: nat)
    ensures var hist, last := History(channel), Last(channel.log, n);
      |last| <= |hist| && forall k :: 0 <= k < |last| ==> last[k] == hist[|hist| - |last| + k]
  {
  }

  lemma SuffixGrows(history: seq<Envelope>, buffer: seq<Envelope>, envelope: Envelope, n: nat)
    requires |buffer| <= |history| && forall k :: 0 <= k < |buffer| ==> buffer[k] == history[|history| - |buffer| + k]
    ensures var after, last := history + [envelope], Last(buffer + [envelope], n);
      |last| <= |after| && forall k :: 0 <= k < |last| ==> last[k] == after[|after| - |last| + k]
  {
  }

  lemma SendKeepsConsistent(channel: Channel, envelope: Envelope, c: Capacities)
    requires Consistent(channel, c)
    ensures Consistent(Send(channel, envelope, envelope.retain, c.replay), c)
  {
    var after := Send(channel, envelope, envelope.retain, c.replay);
    HistoryGrows(channel, envelope, c);
    SuffixGrows(History(channel), channel.buffer, envelope, c.replay);
    assert forall e :: e in History(channel) || e == envelope ==> e in History(channel) + [envelope];
  }

  /** `places` are strictly increasing positions below `bound` at which `log` holds `envelopes`. */
  ghost predicate Places(envelopes: seq<Envelope>, log: seq<Envelope>, places: seq<nat>, bound: nat) {
    && |places| == |envelopes|
    && bound <= |log|
    && (forall k :: 0 <= k < |places| ==> places[k] < bound && log[places[k]] == envelopes[k])
    && (forall k, l :: 0 <= k < l < |places| ==> places[k] < places[l])
  }

  /** `envelopes` are a subsequence of `log`: published in this order, none of them twice. */
  ghost predicate InPublishOrder(envelopes: seq<Envelope>, log: seq<Envelope>) {
    exists places :: Places(envelopes, log, places, |log|)
  }

  ghost predicate Ordered(w: World, places: seq<nat>, c: Capacities) {
    var f := w.forwarder;
    && Consistent(w.channel, c)
    && DistinctIds(History(w.channel))
    && (f.started ==>
          && f.position <= |History(w.channel)|
          && Places(f.sent + f.todo, History(w.channel), places, f.position)
          && f.lastDelivered == (if f.sent == [] then None else Some(f.sent[|f.sent| - 1].id)))
  }

  /** The backlog is the buffer, perhaps behind the retained message, when that is older. */
  lemma BacklogShape(channel: Channel, c: Capacities) returns (older: nat)
    requires Consistent(channel, c)
    ensures Backlog(channel) != channel.buffer ==>
              && older < |History(channel)| - |channel.buffer|
              && Backlog(channel) == [History(channel)[older]] + channel.buffer
              && channel.retained == Some(History(channel)[older])
  {
    older := 0;
    if Backlog(channel) != channel.buffer {
      var start := |History(channel)| - |channel.buffer|;
      older :| 0 <= older < |History(channel)| && History(channel)[older] == channel.retained.value;
      forall k | start <= k < |History(channel)|
        ensures History(channel)[k] != channel.retained.value
      {
        assert channel.buffer[k - start].id != channel.retained.value.id;
      }
    }
  }

  /** A backlog is in publish order: a retained message outside the buffer is older than all of it. */
  lemma BacklogPlaces(channel: Channel, c: Capacities) returns (places: seq<nat>)
    requires Consistent(channel, c) && DistinctIds(History(channel))
    ensures Places(Backlog(channel), History(channel), places, |History(channel)|)
  {
    var start := |History(channel)| - |channel.buffer|;
    places := seq(|channel.buffer|, i requires 0 <= i < |channel.buffer| => start + i);
    var older := BacklogShape(channel, c);
    if Backlog(channel) != channel.buffer {
      places := [older] + places;
    }
  }

  lemma RecoveredPlaces(f: Forwarder, channel: Channel, places: seq<nat>, c: Capacities) returns (more: seq<nat>)
    requires f.started && f.todo == []
    requires Ordered(World(channel, f), places, c)
    ensures Places(f.sent + Recovered(f.lastDelivered, Backlog(channel)), History(channel), places + more,
      |History(channel)|)
  {
    var all := BacklogPlaces(channel, c);
    assert f.sent + f.todo == f.sent;
    more := PlacesAfter(f.sent, f.lastDelivered, Backlog(channel), History(channel), places, all);
  }

  lemma PlacesAfter(sent: seq<Envelope>, last: Option<MessageId>, backlog: seq<Envelope>, log: seq<Envelope>,
                    places: seq<nat>, all: seq<nat>) returns (more: seq<nat>)
    requires DistinctIds(log) && Places(sent, log, places, |log|) && Places(backlog, log, all, |log|)
    requires last == if sent == [] then None else Some(sent[|sent| - 1].id)
    ensures Places(sent + Recovered(last, backlog), log, places + more, |log|)
  {
    match last
    case None =>
      more := all;
      assert sent + backlog == backlog && places + more == more;
    case Some(id) =>
      var i := PositionOf(backlog, id);
      if i == |backlog| {
        more := [];
        assert places + more == places && sent + [] == sent;
      } else {
        DistinctAt(log, places[|sent| - 1], all[i]);
        more := all[i + 1..];
      }
  }

  lemma PublishKeepsDistinct(channel: Channel, envelope: Envelope, c: Capacities)
    requires Consistent(channel, c) && DistinctIds(History(channel)) && !HasId(History(channel), envelope.id)
    ensures var after := Send(channel, envelope, envelope.retain, c.replay);
      Consistent(after, c) && DistinctIds(History(after)) && History(after) == History(channel) + [envelope]
  {
    SendKeepsConsistent(channel, envelope, c);
    HistoryGrows(channel, envelope, c);
    DistinctAppend(History(channel), envelope);
  }

  lemma StepKeepsOrdered(w: World, step: Step, places: seq<nat>, c: Capacities) returns (places': seq<nat>)
    requires Ordered(w, places, c) && Enabled(w, step, c)
    ensures Ordered(Apply(w, step, c), places', c)
  {
    var f := w.forwarder;
    places' := places;
    match step
    case Publish(envelope) =>
      PublishKeepsDistinct(w.channel, envelope, c);
    case Start =>
      places' := BacklogPlaces(w.channel, c);
      assert [] + Backlog(w.channel) == Backlog(w.channel);
    case SendBacklog =>
      assert f.sent + [f.todo[0]] + f.todo[1..] == f.sent + f.todo;
    case Receive =>
      places' := places + [f.position];
      assert f.sent + f.todo == f.sent;
      assert f.sent + [History(w.channel)[f.position]] + f.todo == f.sent + [History(w.channel)[f.position]];
    case Lagged =>
      var more := RecoveredPlaces(f, w.channel, places, c);
      places' := places + more;
  }

  lemma {:induction false} RunKeepsOrdered(w: World, places: seq<nat>, run: seq<Step>, c: Capacities)
    returns (places': seq<nat>)
    requires Ordered(w, places, c)
    ensures Ordered(Execute(w, run, c), places', c)
    decreases |run|
  {
    if run == [] {
      places' := places;
    } else {
      var after := places;
      if Enabled(w, run[0], c) { after := StepKeepsOrdered(w, run[0], places, c); }
      places' := RunKeepsOrdered(Next(w, run[0], c), after, run[1..], c);
    }
  }

  /**
   * Through any interleaving of publishes, lags and recoveries, what a forwarder has sent is in
   * publish order, without a duplicate.
   */
  lemma {:induction false} SentInPublishOrder(channel: Channel, run: seq<Step>, c: Capacities)
    requires Refilled(channel, c)
    ensures var w := Execute(Opened(channel), run, c);
      w.forwarder.started ==> InPublishOrder(w.forwarder.sent, History(w.channel))
  {
    var w := Execute(Opened(channel), run, c);
    RefilledIsConsistent(channel, c);
    var places := RunKeepsOrdered(Opened(channel), [], run, c);
    if w.forwarder.started {
      var n := |w.forwarder.sent|;
      assert forall k :: 0 <= k < n ==> (w.forwarder.sent + w.forwarder.todo)[k] == w.forwarder.sent[k];
      assert Places(w.forwarder.sent, History(w.channel), places[..n], |History(w.channel)|);
    }
  }

  // -------------------------------------------------------------------- gaps

  /** Nothing owed is missing: the retained message in front, if any, then one stretch of the log. */
  ghost predicate Lossless(w: World, c: Capacities) {
    var f := w.forwarder;
    && Consistent(w.channel, c)
    && DistinctIds(History(w.channel))
    && (f.started ==>
          && f.from <= f.position <= |History(w.channel)|
          && (f.from == f.position ==>
             if f.from == 0 then f.front == [] else f.from == 1 && f.front == [History(w.channel)[0]])
          && |f.front| <= 1
          && f.sent + f.todo == f.front + History(w.channel)[f.from..f.position]
          && f.lastDelivered == (if f.sent == [] then None else Some(f.sent[|f.sent| - 1].id)))
  }

  /** The log position recovery has to find in the backlog: the last delivered, or the first ever owed. */
  function Anchor(f: Forwarder): nat {
    if f.sent == [] || f.position == 0 then 0 else f.position - 1
  }

  /** The anchor is in the replay buffer, or is the retained message and the buffer starts behind it. */
  predicate AnchorRecoverable(channel: Channel, anchor: nat) {
    var start := |History(channel)| - |channel.buffer|;
    start <= anchor || (start == anchor + 1 <= |History(channel)| && channel.retained == Some(History(channel)[anchor]))
  }

  /**
   * What decides whether a lag loses anything, checkable when it is reported.
   */
  predicate WithinReach(w: World) {
    AnchorRecoverable(w.channel, Anchor(w.forwarder))
  }

  lemma StartsLossless(w: World, c: Capacities)
    requires Lossless(w, c) && Enabled(w, Start, c) && c.replay > 0
    ensures Lossless(Apply(w, Start, c), c)
  {
    var hist, buffer, g := History(w.channel), w.channel.buffer, Apply(w, Start, c).forwarder;
    var _ := BacklogShape(w.channel, c);
    assert g.position == |hist| && g.from == |hist| - |buffer|;
    assert hist[g.from..g.position] == buffer;
    assert Backlog(w.channel) == g.front + buffer;
    assert g.sent + g.todo == g.front + hist[g.from..g.position];
  }

  lemma LosslessKept(w: World, step: Step, c: Capacities)
    requires Lossless(w, c) && Enabled(w, step, c) && !step.Lagged? && c.replay > 0
    ensures Lossless(Apply(w, step, c), c)
  {
    var f, hist := w.forwarder, History(w.channel);
    var g := Apply(w, step, c).forwarder;
    match step
    case Publish(envelope) =>
      PublishKeepsDistinct(w.channel, envelope, c);
      if f.started { SliceOfPrefix(hist, envelope, f.from, f.position); }
    case Start =>
      StartsLossless(w, c);
    case SendBacklog =>
      assert g.sent + g.todo == f.sent + f.todo;
    case Receive =>
      assert f.sent == f.front + hist[f.from..f.position];
      SliceGrows(hist, f.from, f.position);
      assert g.sent + g.todo == f.sent + [hist[f.position]];
  }

  lemma SliceOfPrefix<T>(s: seq<T>, x: T, i: nat, j: nat)
    requires i <= j <= |s|
    ensures (s + [x])[i..j] == s[i..j]
  {
  }

  lemma SliceGrows<T>(s: seq<T>, i: nat, j: nat)
    requires i <= j < |s|
    ensures s[i..j + 1] == s[i..j] + [s[j]]
  {
  }

  /** With no backlog left, the last envelope sent is the one just before the receiver's position. */
  lemma AnchorIsLastDelivered(w: World, c: Capacities)
    requires Lossless(w, c) && w.forwarder.started && w.forwarder.todo == []
    ensures w.forwarder.sent == [] ==> w.forwarder.position == 0
    ensures w.forwarder.sent != [] ==>
              && w.forwarder.position > 0
              && w.forwarder.lastDelivered == Some(History(w.channel)[w.forwarder.position - 1].id)
  {
    var f, log := w.forwarder, History(w.channel);
    assert f.sent == f.front + log[f.from..f.position];
    if f.from < f.position {
      assert f.sent[|f.sent| - 1] == log[f.position - 1];
    }
  }

  lemma {:induction false} PositionIs(envelopes: seq<Envelope>, i: nat)
    requires i < |envelopes|
    requires forall j :: 0 <= j < i ==> envelopes[j].id != envelopes[i].id
    ensures PositionOf(envelopes, envelopes[i].id) == i
  {
  }

  /** A backlog is the log from `start` on, perhaps behind one `older` envelope; an anchor is found in it. */
  lemma AnchorAt(log: seq<Envelope>, backlog: seq<Envelope>, start: nat, older: nat, anchor: nat) returns (i: nat)
    requires DistinctIds(log) && start <= anchor < |log|
    requires |log| - start <= |backlog| <= |log| - start + 1
    requires forall j :: |backlog| - (|log| - start) <= j < |backlog| ==> backlog[j] == log[j - |backlog| + |log|]
    requires |backlog| > |log| - start ==> older < start && backlog[0] == log[older]
    ensures i < |backlog| && |backlog| - i == |log| - anchor
    ensures PositionOf(backlog, log[anchor].id) == i
    ensures forall k :: i <= k < |backlog| ==> backlog[k] == log[k - i + anchor]
  {
    i := anchor + |backlog| - |log|;
    forall j | 0 <= j < i
      ensures backlog[j].id != log[anchor].id
    {
      DistinctAt(log, if j < |backlog| - (|log| - start) then older else j - |backlog| + |log|, anchor);
    }
    PositionIs(backlog, i);
  }

  /** A buffered envelope is found in the backlog where the buffer has it, not earlier. */
  lemma FoundInBacklog(channel: Channel, c: Capacities, anchor: nat) returns (i: nat)
    requires Consistent(channel, c) && DistinctIds(History(channel))
    requires |History(channel)| - |channel.buffer| <= anchor < |History(channel)|
    ensures i < |Backlog(channel)| && |Backlog(channel)| - i == |History(channel)| - anchor
    ensures PositionOf(Backlog(channel), History(channel)[anchor].id) == i
    ensures forall k :: i <= k < |Backlog(channel)| ==> Backlog(channel)[k] == History(channel)[k - i + anchor]
  {
    var older := BacklogShape(channel, c);
    i := AnchorAt(History(channel), Backlog(channel), |History(channel)| - |channel.buffer|, older, anchor);
  }

  lemma {:induction false} BufferedAnchor(channel: Channel, c: Capacities, next: nat)
    requires Consistent(channel, c) && DistinctIds(History(channel))
    requires |History(channel)| - |channel.buffer| < next <= |History(channel)|
    ensures Recovered(Some(History(channel)[next - 1].id), Backlog(channel)) == History(channel)[next..]
  {
    var i := FoundInBacklog(channel, c, next - 1);
    SuffixesAgree(Backlog(channel), i + 1, History(channel), next);
  }

  lemma SuffixesAgree(a: seq<Envelope>, i: nat, b: seq<Envelope>, j: nat)
    requires i <= |a| && j <= |b| && |a| - i == |b| - j
    requires forall k :: i <= k < |a| ==> a[k] == b[k - i + j]
    ensures a[i..] == b[j..]
  {
  }

  lemma ReplayedAnchor(channel: Channel, c: Capacities, anchor: nat)
    requires Consistent(channel, c) && DistinctIds(History(channel))
    requires anchor < |History(channel)| - |channel.buffer|
    ensures var recovered := Recovered(Some(History(channel)[anchor].id), Backlog(channel));
      recovered == if channel.retained == Some(History(channel)[anchor]) then channel.buffer else []
  {
    var backlog, log := Backlog(channel), History(channel);
    var older := BacklogShape(channel, c);
    forall j | 0 <= j < |channel.buffer|
      ensures channel.buffer[j].id != log[anchor].id
    {
      DistinctAt(log, |log| - |channel.buffer| + j, anchor);
    }
    if channel.retained == Some(log[anchor]) {
      assert !HasId(channel.buffer, log[anchor].id);
      PositionIs(backlog, 0);
    } else if backlog != channel.buffer {
      DistinctAt(log, older, anchor);
      assert forall j :: 1 <= j < |backlog| ==> backlog[j] == channel.buffer[j - 1];
    }
  }

  lemma BufferIsSuffix(channel: Channel, c: Capacities, next: nat)
    requires Consistent(channel, c) && next == |History(channel)| - |channel.buffer|
    ensures channel.buffer == History(channel)[next..]
  {
  }

  /** Recovery from an envelope that has left the buffer yields all after it when it is recoverable, else less. */
  lemma ReplayedRecovers(channel: Channel, c: Capacities, next: nat)
    requires Consistent(channel, c) && DistinctIds(History(channel))
      && 0 < next <= |History(channel)| - |channel.buffer|
    requires next < |History(channel)|
    ensures var recovered := Recovered(Some(History(channel)[next - 1].id), Backlog(channel));
      if AnchorRecoverable(channel, next - 1) then recovered == channel.buffer
        && next == |History(channel)| - |channel.buffer|
      else |recovered| < |History(channel)| - next
  {
    ReplayedAnchor(channel, c, next - 1);
  }

  /** Recovery yields all from `next` on when the envelope before it is recoverable, else strictly less. */
  lemma RecoveredFromAnchor(channel: Channel, c: Capacities, next: nat)
    requires Consistent(channel, c) && DistinctIds(History(channel)) && 0 < next < |History(channel)|
    ensures var recovered := Recovered(Some(History(channel)[next - 1].id), Backlog(channel));
      if AnchorRecoverable(channel, next - 1) then recovered == History(channel)[next..]
      else |recovered| < |History(channel)| - next
  {
    if |History(channel)| - |channel.buffer| < next {
      BufferedAnchor(channel, c, next);
    } else {
      ReplayedRecovers(channel, c, next);
      if AnchorRecoverable(channel, next - 1) { BufferIsSuffix(channel, c, next); }
    }
  }

  /** The same when nothing was delivered yet: the whole backlog is sent, and should be the whole log. */
  lemma RecoveredFromNothing(channel: Channel, c: Capacities)
    requires Consistent(channel, c) && DistinctIds(History(channel)) && History(channel) != []
    ensures var recovered := Recovered(None, Backlog(channel));
      if AnchorRecoverable(channel, 0) then recovered == History(channel) else |recovered| < |History(channel)|
  {
    var older := BacklogShape(channel, c);
    var start := |History(channel)| - |channel.buffer|;
    assert forall k :: 0 <= k < |channel.buffer| ==> channel.buffer[k] == History(channel)[start + k];
    if start == 0 {
      assert Backlog(channel) == History(channel);
    } else if start == 1 && channel.retained == Some(History(channel)[0]) {
      assert !HasId(channel.buffer, History(channel)[0].id) by {
        forall j | 0 <= j < |channel.buffer|
          ensures channel.buffer[j].id != History(channel)[0].id
        {
          DistinctAt(History(channel), 1 + j, 0);
        }
      }
      assert Backlog(channel) == History(channel);
    }
  }

  lemma RecoveredWhenWithinReach(channel: Channel, f: Forwarder, c: Capacities)
    requires Consistent(channel, c) && DistinctIds(History(channel)) && f.position < |History(channel)|
    requires if f.sent == [] then f.position == 0 && f.lastDelivered == None
             else f.position > 0 && f.lastDelivered == Some(History(channel)[f.position - 1].id)
    ensures var recovered := Recovered(f.lastDelivered, Backlog(channel));
      if WithinReach(World(channel, f)) then recovered == History(channel)[f.position..]
      else |recovered| < |History(channel)| - f.position
  {
    if f.sent == [] {
      RecoveredFromNothing(channel, c);
    } else {
      RecoveredFromAnchor(channel, c, f.position);
    }
  }

  /** The stretch of the log grows to its end exactly when all of the rest is appended. */
  lemma StretchGrows(front: seq<Envelope>, log: seq<Envelope>, from: nat, position: nat, recovered: seq<Envelope>)
    requires from <= position < |log|
    requires recovered == log[position..] || |recovered| < |log| - position
    ensures front + log[from..position] + recovered == front + log[from..|log|] <==> recovered == log[position..]
  {
    assert log[from..|log|] == log[from..position] + log[position..];
    assert |front + log[from..|log|]| == |front| + |log| - from;
    assert |front + log[from..position] + recovered| == |front| + position - from + |recovered|;
    if recovered == log[position..] {
      assert front + log[from..position] + recovered == front + (log[from..position] + recovered);
    }
  }

  /** For a forwarder that has lost nothing so far, a lag loses nothing if and only if it is within reach. */
  lemma LosslessLagIff(w: World, c: Capacities)
    requires Lossless(w, c) && Enabled(w, Lagged, c)
    ensures Lossless(Apply(w, Lagged, c), c) <==> WithinReach(w)
  {
    var f, log := w.forwarder, History(w.channel);
    var recovered := Recovered(f.lastDelivered, Backlog(w.channel));
    AnchorIsLastDelivered(w, c);
    RecoveredWhenWithinReach(w.channel, f, c);
    assert f.sent + f.todo == f.sent;
    StretchGrows(f.front, log, f.from, f.position, recovered);
  }

  /** How much of the log is behind the last envelope delivered, that one included. */
  function Delivered(w: World): nat {
    if w.forwarder.lastDelivered.None? then 0 else PositionOf(History(w.channel), w.forwarder.lastDelivered.value) + 1
  }

  /** What recovery looks for is in the backlog: the last envelope delivered, or the first there is. */
  predicate Recoverable(w: World) {
    AnchorRecoverable(w.channel, if Delivered(w) == 0 then 0 else Delivered(w) - 1)
  }

  /** A forwarder that has sent nothing and has nothing to send has not moved. */
  ghost predicate Unmoved(w: World) {
    var f := w.forwarder;
    f.started && f.sent == [] && f.todo == [] ==> f.position == 0 && History(w.channel) == w.channel.log
  }

  lemma {:induction false} RunKeepsUnmoved(w: World, places: seq<nat>, run: seq<Step>, c: Capacities)
    requires Ordered(w, places, c) && Unmoved(w) && c.replay > 0
    ensures Unmoved(Execute(w, run, c))
    decreases |run|
  {
    if run != [] {
      var after := places;
      if Enabled(w, run[0], c) {
        after := StepKeepsOrdered(w, run[0], places, c);
      }
      RunKeepsUnmoved(Next(w, run[0], c), after, run[1..], c);
    }
  }

  /** Where the last envelope delivered is in the log: before the receiver's position. */
  lemma DeliveredIs(w: World, places: seq<nat>, c: Capacities)
    requires Ordered(w, places, c) && Unmoved(w) && w.forwarder.started && w.forwarder.todo == []
    ensures Delivered(w) <= w.forwarder.position <= |History(w.channel)|
    ensures w.forwarder.sent == [] <==> Delivered(w) == 0
    ensures w.forwarder.sent == [] ==> w.forwarder.lastDelivered == None && w.forwarder.position == 0
    ensures w.forwarder.sent != [] ==> w.forwarder.lastDelivered == Some(History(w.channel)[Delivered(w) - 1].id)
  {
    var f, log := w.forwarder, History(w.channel);
    assert f.sent + f.todo == f.sent;
    if f.sent != [] {
      var place := places[|f.sent| - 1];
      assert log[place] == f.sent[|f.sent| - 1];
      forall j | 0 <= j < place
        ensures log[j].id != log[place].id
      {
        DistinctAt(log, j, place);
      }
      PositionIs(log, place);
    }
  }

  lemma RecoveredAfter(channel: Channel, lastDelivered: Option<MessageId>, delivered: nat, c: Capacities)
    requires Consistent(channel, c) && DistinctIds(History(channel)) && delivered < |History(channel)|
    requires lastDelivered == if delivered == 0 then None else Some(History(channel)[delivered - 1].id)
    ensures var recovered := Recovered(lastDelivered, Backlog(channel));
      if AnchorRecoverable(channel, if delivered == 0 then 0 else delivered - 1)
      then recovered == History(channel)[delivered..] else |recovered| < |History(channel)| - delivered
  {
    if delivered == 0 {
      RecoveredFromNothing(channel, c);
      assert History(channel)[0..] == History(channel);
    } else {
      RecoveredFromAnchor(channel, c, delivered);
    }
  }

  /** What one lag adds to the work of a forwarder, whatever earlier lags have lost. */
  lemma LagRecovers(w: World, places: seq<nat>, c: Capacities)
    requires Ordered(w, places, c) && Unmoved(w) && Enabled(w, Lagged, c)
    ensures Delivered(w) <= w.forwarder.position <= |History(w.channel)|
    ensures var recovered := Apply(w, Lagged, c).forwarder.todo;
      if Recoverable(w) then recovered == History(w.channel)[Delivered(w)..]
      else |recovered| < |History(w.channel)| - Delivered(w)
  {
    DeliveredIs(w, places, c);
    RecoveredAfter(w.channel, w.forwarder.lastDelivered, Delivered(w), c);
  }

  /**
   * In every reachable state, earlier losses included: a lag is followed by exactly the envelopes newer
   * than the last one delivered, all of them, if and only if that one is recoverable from the backlog.
   */
  lemma {:induction false} LagLosslessIffWithinReach(channel: Channel, run: seq<Step>, c: Capacities)
    requires Refilled(channel, c)
    requires c.replay > 0 && Enabled(Execute(Opened(channel), run, c), Lagged, c)
    ensures var w := Execute(Opened(channel), run, c);
      && Delivered(w) <= |History(w.channel)|
      && (w.forwarder.sent != [] ==>
            Delivered(w) > 0 && History(w.channel)[Delivered(w) - 1] == w.forwarder.sent[|w.forwarder.sent| - 1])
      && (Apply(w, Lagged, c).forwarder.todo == History(w.channel)[Delivered(w)..] <==> Recoverable(w))
  {
    var w := Execute(Opened(channel), run, c);
    var places := Reached(channel, run, c);
    LagRecovers(w, places, c);
    if w.forwarder.sent != [] { LastSentIsLogged(w, places, c); }
  }

  lemma Reached(channel: Channel, run: seq<Step>, c: Capacities) returns (places: seq<nat>)
    requires Refilled(channel, c) && c.replay > 0
    ensures Ordered(Execute(Opened(channel), run, c), places, c) && Unmoved(Execute(Opened(channel), run, c))
  {
    RefilledIsConsistent(channel, c);
    places := RunKeepsOrdered(Opened(channel), [], run, c);
    RunKeepsUnmoved(Opened(channel), [], run, c);
  }

  lemma LastSentIsLogged(w: World, places: seq<nat>, c: Capacities)
    requires Ordered(w, places, c) && Unmoved(w) && w.forwarder.started && w.forwarder.todo == []
      && w.forwarder.sent != []
    ensures 0 < Delivered(w) <= |History(w.channel)|
    ensures History(w.channel)[Delivered(w) - 1] == w.forwarder.sent[|w.forwarder.sent| - 1]
  {
    var f, log := w.forwarder, History(w.channel);
    DeliveredIs(w, places, c);
    assert f.sent + f.todo == f.sent;
    var place := places[|f.sent| - 1];
    assert log[place] == f.sent[|f.sent| - 1];
    DistinctAt(log, place, Delivered(w) - 1);
  }

  /**
   * In particular when at most `replay - 1` publishes are newer than the last envelope delivered, unless that is
   * the retained message of a refilled channel, older than its log, and has been replaced since.
   */
  lemma {:induction false} FewNewerIsWithinReach(channel: Channel, run: seq<Step>, c: Capacities)
    requires Refilled(channel, c)
    requires c.replay > 0 && Enabled(Execute(Opened(channel), run, c), Lagged, c)
    requires var w := Execute(Opened(channel), run, c); |History(w.channel)| - Delivered(w) <= c.replay - 1
    ensures var w := Execute(Opened(channel), run, c);
      var sent := w.forwarder.sent;
      && Delivered(w) <= |History(w.channel)|
      && (Apply(w, Lagged, c).forwarder.todo == History(w.channel)[Delivered(w)..] <==>
            sent == [] || sent[|sent| - 1] in w.channel.log || w.channel.retained == Some(sent[|sent| - 1]))
  {
    var w := Execute(Opened(channel), run, c);
    var places := Reached(channel, run, c);
    LagRecovers(w, places, c);
    DeliveredIs(w, places, c);
    if w.forwarder.sent != [] {
      LastSentIsLogged(w, places, c);
      FewNewer(w, c);
    }
  }

  lemma FewNewer(w: World, c: Capacities)
    requires Consistent(w.channel, c) && DistinctIds(History(w.channel)) && 0 < Delivered(w) <= |History(w.channel)|
    requires |History(w.channel)| - Delivered(w) <= c.replay - 1
    ensures var last := History(w.channel)[Delivered(w) - 1];
      Recoverable(w) <==> last in w.channel.log || w.channel.retained == Some(last)
  {
    var hist, log, anchor := History(w.channel), w.channel.log, Delivered(w) - 1;
    var older := |hist| - |log|;
    assert forall k :: 0 <= k < |log| ==> hist[older + k] == log[k];
    if anchor >= older {
      assert log[anchor - older] == hist[anchor];
    } else {
      forall k | 0 <= k < |log|
        ensures log[k] != hist[anchor]
      {
        DistinctAt(hist, older + k, anchor);
      }
    }
  }

  /**
   * Why the replay buffer has to be larger than a receiver's own: were it no larger, a forwarder that has
   * delivered anything would find it gone at every lag, and lose something each time.
   */
  lemma {:induction false} EqualCapacitiesRecoverNothing(channel: Channel, run: seq<Step>, c: Capacities)
    requires Refilled(channel, c)
    requires 0 < c.replay <= c.broadcast && Enabled(Execute(Opened(channel), run, c), Lagged, c)
    requires Execute(Opened(channel), run, c).forwarder.sent != []
    ensures var w := Execute(Opened(channel), run, c);
      !Recoverable(w) && |Apply(w, Lagged, c).forwarder.todo| < |History(w.channel)| - Delivered(w)
  {
    var w := Execute(Opened(channel), run, c);
    var places := Reached(channel, run, c);
    LagRecovers(w, places, c);
    DeliveredIs(w, places, c);
  }

  /** Every lag of the run is within reach when it is reported. */
  ghost predicate Careful(w: World, run: seq<Step>, c: Capacities)
    decreases |run|
  {
    run != [] ==>
      && (Enabled(w, run[0], c) && run[0].Lagged? ==> WithinReach(w))
      && Careful(Next(w, run[0], c), run[1..], c)
  }

  lemma {:induction false} CarefulRunIsLossless(w: World, run: seq<Step>, c: Capacities)
    requires Lossless(w, c) && Careful(w, run, c) && c.replay > 0
    ensures Lossless(Execute(w, run, c), c)
    decreases |run|
  {
    if run != [] {
      if Enabled(w, run[0], c) {
        if run[0].Lagged? {
          LosslessLagIff(w, c);
        } else {
          LosslessKept(w, run[0], c);
        }
      }
      CarefulRunIsLossless(Next(w, run[0], c), run[1..], c);
    }
  }

  /**
   * Whatever interleaving of publishes and lags, as long as each lag is within reach: a forwarder that
   * has caught up has sent the retained message it was owed, then every envelope since its start.
   */
  lemma {:induction false} CaughtUpForwarderMissedNothing(channel: Channel, run: seq<Step>, c: Capacities)
    requires Refilled(channel, c)
    requires Careful(Opened(channel), run, c) && c.replay > 0
    ensures var w := Execute(Opened(channel), run, c);
      var f := w.forwarder;
      f.started && f.todo == [] && f.position == |History(w.channel)| ==>
        f.from <= |History(w.channel)| && |f.front| <= 1 && f.sent == f.front + History(w.channel)[f.from..]
  {
    RefilledIsConsistent(channel, c);
    CarefulRunIsLossless(Opened(channel), run, c);
    var w := Execute(Opened(channel), run, c);
    if w.forwarder.started && w.forwarder.todo == [] && w.forwarder.position == |History(w.channel)| {
      AllSent(w, c);
    }
  }

  lemma AllSent(w: World, c: Capacities)
    requires Lossless(w, c) && w.forwarder.started
    requires w.forwarder.todo == [] && w.forwarder.position == |History(w.channel)|
    ensures w.forwarder.sent == w.forwarder.front + History(w.channel)[w.forwarder.from..]
  {
    assert w.forwarder.sent + w.forwarder.todo == w.forwarder.sent;
    assert History(w.channel)[w.forwarder.from..] == History(w.channel)[w.forwarder.from..w.forwarder.position];
  }
}
