/**
 * A durable subscriber over many sessions. A publish is appended to the log and, some time later, broadcast;
 * publishes may overtake one another in between. A session begins by reading what is stored above the
 * position and, some time later, joins the broadcast. Each delivery is sent and then recorded as the new
 * position; a session may end between any two steps. Following one topic whose appends all succeed and are
 * all kept, with no more broadcasts between a read and its joining than the replay buffer holds.
 */
module Resume {
  import opened Common
  import opened Sorting

  /**
   * `log` is the topic's rows, in the order of their appends; `pending` are those not broadcast yet. `read` is
   * how many rows there were when the session that is beginning read them. `todo` is what the forwarder still
   * has to send, `unrecorded` the message it has sent but not recorded. `sent` remembers everything ever
   * sent, over all sessions.
   */
  datatype State = State(
    log: seq<Envelope>, pending: set<Envelope>, position: MessageId, read: Option<nat>,
    connected: bool, todo: seq<Envelope>, unrecorded: Option<MessageId>,
    sent: seq<Envelope>)

  datatype Step =
    | Append(envelope: Envelope)
    | Broadcast(envelope: Envelope)
    | Read
    | Connect(backlog: seq<Envelope>)
    | Send
    | Record
    | Disconnect

  /** In the rows that were read. */
  ghost predicate WasRead(s: State, e: Envelope) {
    s.read.Some? && s.read.value <= |s.log| && e in s.log[..s.read.value]
  }

  /** What a session starts with: all above the position that was read or has been broadcast since, sorted by id. */
  ghost predicate IsBacklog(s: State, backlog: seq<Envelope>) {
    && StrictlySorted(backlog)
    && forall e :: e in backlog <==> e in s.log && e.id > s.position && (WasRead(s, e) || e !in s.pending)
  }

  ghost predicate Enabled(s: State, step: Step) {
    match step
    case Append(envelope) => forall e :: e in s.log ==> e.id != envelope.id
    case Broadcast(envelope) => envelope in s.pending
    case Read => !s.connected
    case Connect(backlog) => !s.connected && s.read.Some? && IsBacklog(s, backlog)
    case Send => s.connected && s.todo != [] && s.unrecorded.None?
    case Record => s.connected && s.unrecorded.Some?
    case Disconnect => s.connected
  }

  function Apply(s: State, step: Step): State
    requires step.Send? ==> s.todo != []
    requires step.Record? ==> s.unrecorded.Some?
  {
    match step
    case Append(envelope) => s.(log := s.log + [envelope], pending := s.pending + {envelope})
    case Broadcast(envelope) =>
      s.(pending := s.pending - {envelope}, todo := if s.connected then s.todo + [envelope] else s.todo)
    case Read => s.(read := Some(|s.log|))
    case Connect(backlog) => s.(read := None, connected := true, todo := backlog)
    case Send => s.(sent := s.sent + [s.todo[0]], todo := s.todo[1..], unrecorded := Some(s.todo[0].id))
    case Record => s.(position := s.unrecorded.value, unrecorded := None)
    case Disconnect => s.(connected := false, todo := [], unrecorded := None)
  }

  ghost function Next(s: State, step: Step): State {
    if Enabled(s, step) then Apply(s, step) else s
  }

  ghost function Execute(s: State, run: seq<Step>): State
    decreases |run|
  {
    if run == [] then s else Execute(Next(s, run[0]), run[1..])
  }

  /** A subscriber between sessions, with a recorded position, on a topic that has messages already. */
  function Initial(log: seq<Envelope>, start: MessageId): State {
    State(log, {}, start, None, false, [], None, [])
  }

  // --------------------------------------------------------------- nothing missed

  /** Ids that later appends above `start` will exceed. */
  ghost predicate Behind(log: seq<Envelope>, start: MessageId, id: MessageId) {
    id <= start || exists e :: e in log && e.id == id
  }

  /** All that comes before `e` has a lower id. */
  predicate Leads(todo: seq<Envelope>, e: Envelope) {
    todo == [] || todo[0] == e || (todo[0].id < e.id && Leads(todo[1..], e))
  }

  /** A message that has not been sent is ahead of the position and of the message in hand, and is coming. */
  ghost predicate Coming(s: State, e: Envelope) {
    && e.id > s.position && (s.unrecorded.Some? ==> e.id > s.unrecorded.value)
    && (s.connected ==> (e in s.todo || e in s.pending) && Leads(s.todo, e))
  }

  /** What is in the backlog of the session that is beginning is behind whatever is not. */
  ghost predicate Reading(s: State, start: MessageId) {
    s.read.Some? ==>
      && !s.connected && s.read.value <= |s.log|
      && forall e, x ::
        e in s.pending && e.id > start && !WasRead(s, e) && x in s.log && (WasRead(s, x) || x !in s.pending) ==>
        x.id < e.id
  }

  ghost predicate Owed(s: State, start: MessageId) {
    && Reading(s, start)
    && Behind(s.log, start, s.position)
    && (s.unrecorded.Some? ==> s.connected && Behind(s.log, start, s.unrecorded.value))
    && (forall e :: e in s.todo ==> e in s.log)
    && (forall e :: e in s.pending ==> e in s.log)
    && (forall e :: e in s.log && e.id > start && e !in s.sent ==> Coming(s, e))
  }

  ghost predicate NotOvertaken(log: seq<Envelope>, start: MessageId, envelope: Envelope) {
    envelope.id > start ==> forall x :: x in log ==> x.id < envelope.id
  }

  /** An append above `start` has the highest id so far, and no broadcast overtakes a lower one above `start`. */
  ghost predicate Fits(s: State, start: MessageId, step: Step) {
    match step
    case Append(envelope) => NotOvertaken(s.log, start, envelope)
    case Broadcast(envelope) => forall e :: e in s.pending && e != envelope && e.id > start ==> envelope.id < e.id
    case _ => true
  }

  lemma {:induction false} LeadsAppend(todo: seq<Envelope>, more: Envelope, e: Envelope)
    requires Leads(todo, e) && (e in todo || more == e || more.id < e.id)
    ensures Leads(todo + [more], e)
    decreases |todo|
  {
    if todo != [] && todo[0] != e {
      assert (todo + [more])[1..] == todo[1..] + [more];
      LeadsAppend(todo[1..], more, e);
    }
  }

  lemma {:induction false} LeadsSorted(todo: seq<Envelope>, e: Envelope)
    requires StrictlySorted(todo) && e in todo
    ensures Leads(todo, e)
    decreases |todo|
  {
    if todo[0] != e {
      var i :| 0 <= i < |todo| && todo[i] == e;
      assert todo[1..][i - 1] == e;
      LeadsSorted(todo[1..], e);
    }
  }

  lemma {:induction false} LeadsAll(todo: seq<Envelope>, e: Envelope)
    requires forall x :: x in todo ==> x.id < e.id
    ensures Leads(todo, e)
    decreases |todo|
  {
    if todo != [] { LeadsAll(todo[1..], e); }
  }

  lemma AppendKeepsOwed(s: State, start: MessageId, envelope: Envelope)
    requires Owed(s, start) && Enabled(s, Append(envelope)) && NotOvertaken(s.log, start, envelope)
    ensures Owed(Apply(s, Append(envelope)), start)
  {
    var after := Apply(s, Append(envelope));
    assert s.read.Some? ==> after.log[..s.read.value] == s.log[..s.read.value];
    StillBehind(s.log, start, s.position, envelope);
    if s.unrecorded.Some? { StillBehind(s.log, start, s.unrecorded.value, envelope); }
    forall e | e in after.log && e.id > start && e !in after.sent
      ensures Coming(after, e)
    {
      if e !in s.log {
        assert e == envelope;
        LeadsAll(s.todo, e);
      } else {
        assert Coming(s, e);
      }
    }
  }

  lemma StillBehind(log: seq<Envelope>, start: MessageId, id: MessageId, envelope: Envelope)
    requires Behind(log, start, id)
    ensures Behind(log + [envelope], start, id)
  {
    if id > start {
      var e :| e in log && e.id == id;
      assert e in log + [envelope];
    }
  }

  lemma BroadcastKeepsOwed(s: State, start: MessageId, envelope: Envelope)
    requires Owed(s, start) && envelope in s.pending && Fits(s, start, Broadcast(envelope))
    ensures Owed(Apply(s, Broadcast(envelope)), start)
  {
    var after := Apply(s, Broadcast(envelope));
    forall e | e in after.log && e.id > start && e !in after.sent
      ensures Coming(after, e)
    {
      assert Coming(s, e);
      if s.connected { LeadsAppend(s.todo, envelope, e); }
    }
  }

  lemma SendKeepsOwed(s: State, start: MessageId)
    requires Owed(s, start) && Enabled(s, Send)
    ensures Owed(Apply(s, Send), start)
  {
    var head, after := s.todo[0], Apply(s, Send);
    assert s.todo == [head] + after.todo;
    assert head in s.todo && head in s.log;
    forall e | e in after.log && e.id > start && e !in after.sent
      ensures Coming(after, e)
    {
      assert Coming(s, e) && e != head;
    }
  }

  lemma ConnectKeepsOwed(s: State, start: MessageId, backlog: seq<Envelope>)
    requires Owed(s, start) && Enabled(s, Connect(backlog))
    ensures Owed(Apply(s, Connect(backlog)), start)
  {
    var after := Apply(s, Connect(backlog));
    forall e | e in after.log && e.id > start && e !in after.sent
      ensures Coming(after, e)
    {
      assert Coming(s, e);
      if e in backlog { LeadsSorted(backlog, e); } else { LeadsAll(backlog, e); }
    }
  }

  lemma StepKeepsOwed(s: State, start: MessageId, step: Step)
    requires Owed(s, start) && (Enabled(s, step) ==> Fits(s, start, step))
    ensures Owed(Next(s, step), start)
  {
    if Enabled(s, step) {
      match step
      case Append(envelope) => AppendKeepsOwed(s, start, envelope);
      case Broadcast(envelope) => BroadcastKeepsOwed(s, start, envelope);
      case Read => SettleKeepsOwed(s, start, Read);
      case Connect(backlog) => ConnectKeepsOwed(s, start, backlog);
      case Send => SendKeepsOwed(s, start);
      case Record => SettleKeepsOwed(s, start, Record);
      case Disconnect => SettleKeepsOwed(s, start, Disconnect);
    }
  }

  lemma SettleKeepsOwed(s: State, start: MessageId, step: Step)
    requires Owed(s, start) && Enabled(s, step) && (step.Read? || step.Record? || step.Disconnect?)
    ensures Owed(Apply(s, step), start)
  {
    var after := Apply(s, step);
    assert s.log[..|s.log|] == s.log;
    forall e | e in after.log && e.id > start && e !in after.sent
      ensures Coming(after, e)
    {
      assert Coming(s, e);
    }
  }

  /** Every append and every broadcast of the run fits. */
  ghost predicate Increasing(s: State, start: MessageId, run: seq<Step>)
    decreases |run|
  {
    run != [] ==> (Enabled(s, run[0]) ==> Fits(s, start, run[0])) && Increasing(Next(s, run[0]), start, run[1..])
  }

  lemma {:induction false} RunKeepsOwed(s: State, start: MessageId, run: seq<Step>)
    requires Owed(s, start) && Increasing(s, start, run)
    ensures Owed(Execute(s, run), start)
    decreases |run|
  {
    if run != [] {
      StepKeepsOwed(s, start, run[0]);
      RunKeepsOwed(Next(s, run[0]), start, run[1..]);
    }
  }

  /**
   * With ids increasing in both orders, that of the appends and that of the broadcasts, over any number of
   * sessions ended at any moment: every message above the first position has been sent, or is above the
   * recorded position and so part of the next catch-up, or is waiting or about to be broadcast.
   */
  lemma {:induction false} NothingIsMissed(log: seq<Envelope>, start: MessageId, run: seq<Step>)
    requires Increasing(Initial(log, start), start, run)
    ensures var s := Execute(Initial(log, start), run);
      forall e :: e in s.log && e.id > start ==>
        e in s.sent || (e.id > s.position && (s.connected ==> e in s.todo || e in s.pending))
  {
    RunKeepsOwed(Initial(log, start), start, run);
    var s := Execute(Initial(log, start), run);
    forall e | e in s.log && e.id > start && e !in s.sent
      ensures e.id > s.position && (s.connected ==> e in s.todo || e in s.pending)
    {
      assert Coming(s, e);
    }
  }

  // ------------------------------------------------------------- what is repeated

  /** What a backlog takes before it has been broadcast. */
  ghost function TakenEarly(s: State, step: Step): set<Envelope> {
    if step.Connect? && Enabled(s, step) then set e | e in s.pending && e in step.backlog else {}
  }

  /** Everything so taken during a run. */
  ghost function CaughtUpEarly(s: State, run: seq<Step>): set<Envelope>
    decreases |run|
  {
    if run == [] then {} else TakenEarly(s, run[0]) + CaughtUpEarly(Next(s, run[0]), run[1..])
  }

  /** Up to where everything has been sent: the message in hand, or the recorded position. */
  function Cursor(s: State): MessageId {
    if s.unrecorded.Some? then s.unrecorded.value else s.position
  }

  /** But for what was taken early, all that waits is above the cursor and in order. */
  ghost predicate InOrderBut(s: State, early: set<Envelope>) {
    && (!s.connected ==> s.todo == [] && s.unrecorded.None?)
    && (forall i :: 0 <= i < |s.todo| && s.todo[i] !in early ==>
          s.todo[i].id > Cursor(s) && forall k :: 0 <= k < i ==> s.todo[k].id < s.todo[i].id)
    && (forall e :: e in s.pending && e !in early ==> e !in s.sent)
    && (s.connected ==> forall e :: e in s.pending && e !in early ==>
          e.id > Cursor(s) && forall x :: x in s.todo ==> x.id < e.id)
  }

  /** Every append has an id above `start` and above all before, and broadcasts go in the order of the ids. */
  ghost predicate Ascends(s: State, start: MessageId, step: Step) {
    match step
    case Append(envelope) => envelope.id > start && forall x :: x in s.log ==> x.id < envelope.id
    case Broadcast(envelope) => forall e :: e in s.pending && e != envelope ==> envelope.id < e.id
    case _ => true
  }

  ghost predicate Ascending(s: State, start: MessageId, run: seq<Step>)
    decreases |run|
  {
    run != [] ==> (Enabled(s, run[0]) ==> Ascends(s, start, run[0])) && Ascending(Next(s, run[0]), start, run[1..])
  }

  /** What the second invariant needs of the first: ids are placed, and what is pending is above the start. */
  ghost predicate Placed(s: State, start: MessageId) {
    && (forall e :: e in s.pending ==> e.id > start)
    && (forall e :: e in s.sent ==> e in s.log)
    && Owed(s, start)
  }

  lemma StepKeepsPlaced(s: State, start: MessageId, step: Step)
    requires Placed(s, start) && (Enabled(s, step) ==> Ascends(s, start, step))
    ensures Placed(Next(s, step), start)
  {
    StepKeepsOwed(s, start, step);
  }

  lemma StepKeepsInOrderBut(s: State, start: MessageId, step: Step, early: set<Envelope>)
    requires Placed(s, start) && InOrderBut(s, early) && (Enabled(s, step) ==> Ascends(s, start, step))
    ensures InOrderBut(Next(s, step), early + TakenEarly(s, step))
  {
    if Enabled(s, step) {
      match step
      case Connect(backlog) =>
        ConnectKeepsInOrderBut(s, start, backlog, early);
      case Broadcast(envelope) =>
        BroadcastKeepsInOrderBut(s, envelope, early);
      case Append(envelope) =>
        AppendKeepsInOrderBut(s, start, envelope, early);
      case _ =>
    }
  }

  lemma AppendKeepsInOrderBut(s: State, start: MessageId, envelope: Envelope, early: set<Envelope>)
    requires Placed(s, start) && InOrderBut(s, early) && Ascends(s, start, Append(envelope))
    ensures InOrderBut(Apply(s, Append(envelope)), early)
  {
    assert envelope !in s.log;
  }

  lemma ConnectKeepsInOrderBut(s: State, start: MessageId, backlog: seq<Envelope>, early: set<Envelope>)
    requires Placed(s, start) && InOrderBut(s, early) && Enabled(s, Connect(backlog))
    ensures InOrderBut(Apply(s, Connect(backlog)), early + TakenEarly(s, Connect(backlog)))
  {
    forall e | e in s.pending && e !in early + TakenEarly(s, Connect(backlog))
      ensures e !in s.sent && e.id > s.position && forall x :: x in backlog ==> x.id < e.id
    {
      assert Coming(s, e) && e !in backlog;
      assert !WasRead(s, e);
    }
  }

  lemma BroadcastKeepsInOrderBut(s: State, envelope: Envelope, early: set<Envelope>)
    requires InOrderBut(s, early) && envelope in s.pending
    requires forall e :: e in s.pending && e != envelope ==> envelope.id < e.id
    ensures InOrderBut(Apply(s, Broadcast(envelope)), early)
  {
    var after := Apply(s, Broadcast(envelope));
    forall i | 0 <= i < |after.todo| && after.todo[i] !in early
      ensures after.todo[i].id > Cursor(after) && forall k :: 0 <= k < i ==> after.todo[k].id < after.todo[i].id
    {
      if i < |s.todo| {
        assert after.todo[i] == s.todo[i];
      } else {
        assert forall k :: 0 <= k < i ==> after.todo[k] in s.todo;
      }
    }
  }

  /** While nothing has been taken early: what is above the cursor waits, and at most one sent is above the position. */
  ghost predicate InHand(s: State, start: MessageId) {
    && start <= s.position
    && (s.unrecorded.Some? ==> s.position < s.unrecorded.value && exists e :: e in s.log && e.id == s.unrecorded.value)
    && (s.connected ==> forall e :: e in s.log && e.id > Cursor(s) ==> e in s.todo || e in s.pending)
    && (forall e, f :: e in s.sent && e.id > s.position && f in s.log && f.id > s.position ==> e.id <= f.id)
  }

  lemma SendKeepsInHand(s: State, start: MessageId)
    requires Placed(s, start) && InOrderBut(s, {}) && InHand(s, start) && Enabled(s, Send)
    ensures InHand(Apply(s, Send), start)
  {
    var head, after := s.todo[0], Apply(s, Send);
    assert s.todo == [head] + after.todo;
    assert head in s.todo && head in s.log && head.id > s.position;
    forall f | f in s.log && f.id > s.position
      ensures head.id <= f.id
    {
      if f in s.todo {
        var i :| 0 <= i < |s.todo| && s.todo[i] == f;
        assert i > 0 ==> s.todo[0].id < s.todo[i].id;
      }
    }
  }

  lemma AppendKeepsInHand(s: State, start: MessageId, envelope: Envelope)
    requires Placed(s, start) && InHand(s, start) && Ascends(s, start, Append(envelope))
    ensures InHand(Apply(s, Append(envelope)), start)
  {
    var after := Apply(s, Append(envelope));
    assert Behind(s.log, start, s.position);
    if s.unrecorded.Some? {
      var e :| e in s.log && e.id == s.unrecorded.value;
      assert e in after.log;
    }
  }

  lemma RecordKeepsInHand(s: State, start: MessageId)
    requires InHand(s, start) && Enabled(s, Record)
    ensures InHand(Apply(s, Record), start)
  {
    var u :| u in s.log && u.id == s.unrecorded.value;
    assert forall e :: e in s.sent && e.id > s.position ==> e.id <= u.id;
  }

  lemma StepKeepsInHand(s: State, start: MessageId, step: Step)
    requires Placed(s, start) && InOrderBut(s, {}) && InHand(s, start) && (Enabled(s, step) ==> Ascends(s, start, step))
    ensures InHand(Next(s, step), start)
  {
    if Enabled(s, step) {
      match step
      case Append(envelope) => AppendKeepsInHand(s, start, envelope);
      case Broadcast(_) =>
      case Read =>
      case Connect(_) =>
      case Send => SendKeepsInHand(s, start);
      case Record => RecordKeepsInHand(s, start);
      case Disconnect =>
    }
  }

  lemma {:induction false} RunKeepsOrder(s: State, start: MessageId, run: seq<Step>, early: set<Envelope>)
    requires Placed(s, start) && InOrderBut(s, early) && (early == {} ==> InHand(s, start)) && Ascending(s, start, run)
    ensures var after, taken := Execute(s, run), early + CaughtUpEarly(s, run);
      Placed(after, start) && InOrderBut(after, taken) && (taken == {} ==> InHand(after, start))
    decreases |run|
  {
    if run == [] {
      assert early + {} == early;
    } else {
      var taken := early + TakenEarly(s, run[0]);
      StepKeepsPlaced(s, start, run[0]);
      StepKeepsInOrderBut(s, start, run[0], early);
      if taken == {} { StepKeepsInHand(s, start, run[0]); }
      RunKeepsOrder(Next(s, run[0]), start, run[1..], taken);
      assert taken + CaughtUpEarly(Next(s, run[0]), run[1..]) == early + CaughtUpEarly(s, run);
    }
  }

  /**
   * And next to nothing is sent twice. No message at or below the recorded position is ever sent again,
   * unless a backlog took it between its append and its broadcast. While no backlog has done so, at most
   * one message sent is above the position: the one that was in hand when a session ended.
   */
  lemma {:induction false} OnlyTheOneInHandRepeats(log: seq<Envelope>, start: MessageId, run: seq<Step>)
    requires Ascending(Initial(log, start), start, run)
    ensures var s, early := Execute(Initial(log, start), run), CaughtUpEarly(Initial(log, start), run);
      && (Enabled(s, Send) && s.todo[0] !in early ==> s.todo[0].id > s.position)
      && (early == {} ==> forall e, f :: e in s.sent && f in s.sent && e.id > s.position && f.id > s.position ==>
         e.id == f.id)
  {
    var s0 := Initial(log, start);
    RunKeepsOrder(s0, start, run, {});
    assert {} + CaughtUpEarly(s0, run) == CaughtUpEarly(s0, run);
    var s := Execute(s0, run);
    SendsAbove(s, start, CaughtUpEarly(s0, run));
    if CaughtUpEarly(s0, run) == {} { OneAbove(s, start); }
  }

  lemma SendsAbove(s: State, start: MessageId, early: set<Envelope>)
    requires InOrderBut(s, early)
    ensures Enabled(s, Send) && s.todo[0] !in early ==> s.todo[0].id > s.position
  {
  }

  lemma OneAbove(s: State, start: MessageId)
    requires InHand(s, start) && Placed(s, start)
    ensures forall e, f :: e in s.sent && f in s.sent && e.id > s.position && f.id > s.position ==> e.id == f.id
  {
    forall e, f | e in s.sent && f in s.sent && e.id > s.position && f.id > s.position
      ensures e.id == f.id
    {
      assert e in s.log && f in s.log;
    }
  }

  /** A run passes through the states that its steps lead to. */
  lemma {:induction false} PassesThrough(states: seq<State>, run: seq<Step>)
    requires |states| == |run| + 1
    requires forall i :: 0 <= i < |run| ==> states[i + 1] == Next(states[i], run[i])
    ensures Execute(states[0], run) == states[|run|]
    decreases |run|
  {
    if run != [] { PassesThrough(states[1..], run[1..]); }
  }

  lemma {:induction false} ExecuteConcat(s: State, first: seq<Step>, second: seq<Step>)
    ensures Execute(s, first + second) == Execute(Execute(s, first), second)
    decreases |first|
  {
    if first == [] {
      assert first + second == second;
    } else {
      assert (first + second)[1..] == first[1..] + second;
      ExecuteConcat(Next(s, first[0]), first[1..], second);
    }
  }

  /** The backlog read after the append and before the broadcast has the message already. */
  lemma CatchesUpEarly(start: MessageId, e: Envelope)
    requires e.id > start
    ensures Next(State([e], {e}, start, Some(1), false, [], None, []), Connect([e])) ==
      State([e], {e}, start, None, true, [e], None, [])
  {
    assert [e][..1] == [e];
  }

  lemma BroadcastsLater(start: MessageId, e: Envelope)
    ensures Next(State([e], {e}, start, None, true, [e], None, []), Broadcast(e)) ==
      State([e], {}, start, None, true, [e, e], None, [])
  {
    assert [e] + [e] == [e, e] && {e} - {e} == {};
  }

  lemma BacklogComesFirst(start: MessageId, e: Envelope)
    requires e.id > start
    ensures Execute(Initial([], start), [Append(e), Read, Connect([e]), Broadcast(e)]) ==
      State([e], {}, start, None, true, [e, e], None, [])
  {
    var s0 := Initial([], start);
    var appended := State([e], {e}, start, None, false, [], None, []);
    var read := State([e], {e}, start, Some(1), false, [], None, []);
    var caughtUp := State([e], {e}, start, None, true, [e], None, []);
    var both := State([e], {}, start, None, true, [e, e], None, []);
    assert Next(s0, Append(e)) == appended by { assert [] + [e] == [e]; }
    CatchesUpEarly(start, e);
    BroadcastsLater(start, e);
    PassesThrough([s0, appended, read, caughtUp, both], [Append(e), Read, Connect([e]), Broadcast(e)]);
  }

  /** The exception is real: a session that begins between the two is sent the message twice. */
  lemma TakenEarlyIsRepeated(start: MessageId, e: Envelope)
    requires e.id > start
    ensures Execute(Initial([], start), [Append(e), Read, Connect([e]), Broadcast(e)] + [Send, Record, Send, Record]) ==
      State([e], {}, e.id, None, true, [], None, [e, e])
  {
    BacklogComesFirst(start, e);
    ExecuteConcat(Initial([], start), [Append(e), Read, Connect([e]), Broadcast(e)], [Send, Record, Send, Record]);
    var both := State([e], {}, start, None, true, [e, e], None, []);
    var once := both.(position := e.id, todo := [e], sent := [e]);
    var twice := once.(todo := [], sent := [e, e]);
    assert [e, e][1..] == [e] && [e][1..] == [] && [e] + [e] == [e, e] && [] + [e] == [e];
    PassesThrough([both, both.(todo := [e], sent := [e], unrecorded := Some(e.id)), once,
                   twice.(unrecorded := Some(e.id)), twice],
                  [Send, Record, Send, Record]);
  }

  // ------------------------------------------------------------- any other ids

  /** Nothing above the first position is lost so far: it has been sent, or waits, or is about to be broadcast. */
  ghost predicate Complete(s: State, start: MessageId) {
    forall e :: e in s.log && e.id > start ==> e in s.sent || e in s.todo || e in s.pending
  }

  ghost predicate TodoIsLogged(s: State) {
    (forall e :: e in s.todo ==> e in s.log) && (forall e :: e in s.pending ==> e in s.log)
  }

  lemma {:induction false} RunKeepsTodoLogged(s: State, run: seq<Step>)
    requires TodoIsLogged(s)
    ensures TodoIsLogged(Execute(s, run))
    decreases |run|
  {
    if run != [] { RunKeepsTodoLogged(Next(s, run[0]), run[1..]); }
  }

  /**
   * One reconnect, after any run, when ids need not increase: it loses nothing above the first position if
   * and only if no message above that, broadcast but not sent, is waiting with an id at or below the recorded
   * position. Which orders of publishing can lead there is settled in module ResumeOrder.
   */
  lemma {:induction false} ReconnectLosesNothingIff(log: seq<Envelope>, start: MessageId, run: seq<Step>,
      backlog: seq<Envelope>)
    requires var s := Execute(Initial(log, start), run);
      s.connected && Complete(s, start) && Enabled(Next(Next(s, Disconnect), Read), Connect(backlog))
    ensures var s := Execute(Initial(log, start), run);
      Complete(Next(Next(Next(s, Disconnect), Read), Connect(backlog)), start) <==>
        forall e :: e in s.todo && e.id > start && e !in s.sent && e !in s.pending ==> e.id > s.position
  {
    RunKeepsTodoLogged(Initial(log, start), run);
    var s := Execute(Initial(log, start), run);
    assert s.log[..|s.log|] == s.log;
  }

  /** A session starts, and two messages are published while it lives. */
  function BothPublished(high: Envelope, low: Envelope): seq<Step> {
    [Read, Connect([]), Append(high), Broadcast(high), Append(low), Broadcast(low)]
  }

  /** It sends and records the first and ends; the next session starts. */
  function FirstRecorded(): seq<Step> {
    [Send, Record, Disconnect, Read, Connect([])]
  }

  lemma BothWait(start: MessageId, high: Envelope, low: Envelope)
    requires start < low.id < high.id
    ensures Execute(Initial([], start), BothPublished(high, low)) ==
      State([high, low], {}, start, None, true, [high, low], None, [])
  {
    var s0 := Initial([], start);
    var s1 := s0.(connected := true);
    var s2 := s1.(log := [high], pending := {high});
    var s3 := s1.(log := [high], todo := [high]);
    var s4 := s3.(log := [high, low], pending := {low});
    var s5 := s3.(log := [high, low], todo := [high, low]);
    assert {} + {high} == {high} && {} + {low} == {low} && {high} - {high} == {} && {low} - {low} == {};
    assert [] + [high] == [high] && [high] + [low] == [high, low];
    PassesThrough([s0, s0.(read := Some(0)), s1, s2, s3, s4, s5], BothPublished(high, low));
  }

  lemma LowIdIsSkipped(start: MessageId, high: Envelope, low: Envelope)
    requires start < low.id < high.id
    ensures Execute(State([high, low], {}, start, None, true, [high, low], None, []), FirstRecorded()) ==
      State([high, low], {}, high.id, None, true, [], None, [high])
  {
    var s5 := State([high, low], {}, start, None, true, [high, low], None, []);
    var s6 := s5.(todo := [low], sent := [high], unrecorded := Some(high.id));
    var s7 := s6.(position := high.id, unrecorded := None);
    var s8 := s7.(connected := false, todo := []);
    assert [] + [high] == [high] && [high, low][1..] == [low] && [high, low][..2] == [high, low];
    PassesThrough([s5, s6, s7, s8, s8.(read := Some(2)), s8.(connected := true)], FirstRecorded());
  }

  /**
   * Such a message, in the smallest case: appended and broadcast after one with a higher id, it is lost when
   * the session ends in between.
   */
  lemma LateLowIdIsLost(start: MessageId, high: Envelope, low: Envelope)
    requires start < low.id < high.id
    ensures Execute(Initial([], start), BothPublished(high, low) + FirstRecorded()) ==
      State([high, low], {}, high.id, None, true, [], None, [high])
  {
    BothWait(start, high, low);
    LowIdIsSkipped(start, high, low);
    ExecuteConcat(Initial([], start), BothPublished(high, low), FirstRecorded());
  }
}
