/**
 * What ACL reloads, lock by lock, do to the node's interest counts. A forwarder is counted from the
 * increment that ends its subscribe; a sweep may find it before that. A count is taken down only some
 * time after the forwarder is gone.
 */
module InterestLedger {
  import opened Common
  import opened TopicFilters
  import opened Interest
  import opened AclReload

  /** A forwarder just inserted, whose subscribe has not been counted or refused yet. */
  predicate Uncounted(k: Connection, f: TopicFilter) {
    k.phase == Inserted(f) || k.phase == Refused(f) || k.phase == Confirmed(f)
  }

  predicate IsCounted(k: Connection, f: TopicFilter) {
    f in k.forwarders && !Uncounted(k, f)
  }

  /** The connection has stopped its forwarder and has yet to count it down. */
  predicate Owes(k: Connection, f: TopicFilter) {
    k.phase == Dropped(f) || (k.phase.Leaving? && f in k.phase.filters)
  }

  function CountedHolders(s: State, f: TopicFilter): set<ConnectionId> {
    set c | c in s.connections && IsCounted(s.connections[c], f)
  }

  function Owing(s: State, f: TopicFilter): set<ConnectionId> {
    set c | c in s.connections && Owes(s.connections[c], f)
  }

  function Holders(s: State, f: TopicFilter): set<ConnectionId> {
    set c | c in s.connections && f in s.connections[c].forwarders
  }

  predicate SweepOwes(s: State, f: TopicFilter) {
    s.applier.Sweeping? && f in s.applier.taken
  }

  function One(b: bool): nat {
    if b then 1 else 0
  }

  /** The counts still to be taken down. */
  function Pending(s: State, f: TopicFilter): nat {
    |Owing(s, f)| + One(SweepOwes(s, f))
  }

  // ------------------------------------------------------------------- the tallies

  /** The step takes down a count of this filter. */
  predicate TakesDown(s: State, step: Step, f: TopicFilter)
    requires Enabled(s, step)
  {
    match step
    case AckSent(c) => s.connections[c].phase.filter == f
    case Release(_, filter) => filter == f
    case CountDown(filter) => filter == f
    case _ => false
  }

  /** A sweep takes a forwarder that has not been counted, and will take down a count for it. */
  predicate Early(s: State, step: Step, f: TopicFilter) {
    && step.SweepOne? && Enabled(s, step) && step.c in s.connections
    && Uncounted(s.connections[step.c], f) && f in Denied(s.applier.slots, s.connections[step.c])
  }

  predicate Increments(s: State, step: Step, f: TopicFilter)
    requires Enabled(s, step)
  {
    step.AddInterest? && s.connections[step.c].phase.filter == f
  }

  /** An increment for a forwarder that such a sweep has taken. */
  predicate Late(s: State, step: Step, f: TopicFilter) {
    && step.AddInterest? && Enabled(s, step)
    && s.connections[step.c].phase.filter == f && f !in s.connections[step.c].forwarders
  }

  /** A count is to be taken down and there is none. */
  predicate Skipped(s: State, step: Step, f: TopicFilter) {
    Enabled(s, step) && TakesDown(s, step, f) && f !in s.counts
  }

  /** An unsubscribe's ack fails, and the count is never taken down. */
  predicate Leaked(s: State, step: Step, f: TopicFilter) {
    step.AckFailed? && Enabled(s, step) && s.connections[step.c].phase.filter == f
  }

  /** How often each kind of event has happened to one filter, which the program does not keep. */
  datatype Tally = Tally(early: nat, late: nat, skipped: nat, leaked: nat)

  function Noted(s: State, step: Step, f: TopicFilter, t: Tally): Tally {
    Tally(t.early + One(Early(s, step, f)), t.late + One(Late(s, step, f)),
          t.skipped + One(Skipped(s, step, f)), t.leaked + One(Leaked(s, step, f)))
  }

  function Tallied(s: State, run: seq<Step>, f: TopicFilter, t: Tally): Tally
    decreases |run|
  {
    if run == [] then t else Tallied(Next(s, run[0]), run[1..], f, Noted(s, run[0], f, t))
  }

  const NOTHING := Tally(0, 0, 0, 0)

  // ------------------------------------------------------------------- the account

  predicate Account(s: State, f: TopicFilter, t: Tally) {
    Count(s.counts, f) + t.early == |CountedHolders(s, f)| + Pending(s, f) + t.late + t.skipped + t.leaked
  }

  /** A connection that is shutting down has no forwarders left. */
  ghost predicate Sane(s: State) {
    Positive(s.counts) && forall c :: c in s.connections && s.connections[c].phase.Leaving? ==>
      s.connections[c].forwarders == {}
  }

  lemma StepKeepsSane(s: State, step: Step)
    requires Sane(s)
    ensures Sane(Next(s, step))
  {
  }

  lemma SameButOne(before: set<ConnectionId>, after: set<ConnectionId>, c: ConnectionId)
    requires before - {c} == after - {c}
    ensures |after| + One(c in before) == |before| + One(c in after)
  {
    assert before == (before - {c}) + if c in before then {c} else {};
    assert after == (after - {c}) + if c in after then {c} else {};
  }

  /** The connection a step is about; a step of the applier but for its sweeping is about none. */
  function About(step: Step): ConnectionId {
    match step
    case Connect(c, _, _) => c
    case Check(c, _) => c
    case Insert(c) => c
    case Recheck(c) => c
    case Remove(c) => c
    case AddInterest(c) => c
    case Drop(c, _) => c
    case AckSent(c) => c
    case AckFailed(c) => c
    case Close(c) => c
    case Release(c, _) => c
    case Unregister(c) => c
    case SweepOne(c) => c
    case _ => 0
  }

  predicate CountedAt(s: State, c: ConnectionId, f: TopicFilter) {
    c in s.connections && IsCounted(s.connections[c], f)
  }

  predicate OwesAt(s: State, c: ConnectionId, f: TopicFilter) {
    c in s.connections && Owes(s.connections[c], f)
  }

  lemma OthersStay(s: State, step: Step, d: ConnectionId)
    requires Enabled(s, step) && d != About(step)
    ensures d in Apply(s, step).connections <==> d in s.connections
    ensures d in s.connections ==> Apply(s, step).connections[d] == s.connections[d]
  {
  }

  /** A step changes holders and debtors by the connection it is about, at most. */
  lemma HoldersMove(s: State, step: Step, f: TopicFilter)
    requires Enabled(s, step)
    ensures var t, c := Apply(s, step), About(step);
      && |CountedHolders(t, f)| + One(CountedAt(s, c, f)) == |CountedHolders(s, f)| + One(CountedAt(t, c, f))
      && |Owing(t, f)| + One(OwesAt(s, c, f)) == |Owing(s, f)| + One(OwesAt(t, c, f))
  {
    var t, c := Apply(s, step), About(step);
    forall d | d != c
      ensures d in CountedHolders(s, f) <==> d in CountedHolders(t, f)
      ensures d in Owing(s, f) <==> d in Owing(t, f)
    {
      OthersStay(s, step, d);
    }
    SameButOne(CountedHolders(s, f), CountedHolders(t, f), c);
    SameButOne(Owing(s, f), Owing(t, f), c);
  }

  /** A sweep takes this filter's forwarder. */
  predicate Takes(s: State, step: Step, f: TopicFilter)
    requires Enabled(s, step)
  {
    step.SweepOne? && step.c in s.connections && f in Denied(s.applier.slots, s.connections[step.c])
  }

  /** One for a counted holder, and one for a count its connection has yet to take down. */
  function Share(s: State, c: ConnectionId, f: TopicFilter): nat {
    One(CountedAt(s, c, f)) + One(OwesAt(s, c, f))
  }

  /** What the connection's own steps do to its share. */
  lemma OwnShareMoves(s: State, step: Step, f: TopicFilter)
    requires Sane(s) && Enabled(s, step) && !step.SweepOne?
    ensures Share(s, About(step), f) + One(Increments(s, step, f)) ==
      Share(Apply(s, step), About(step), f)
      + One(Late(s, step, f)) + One(Leaked(s, step, f)) + One(TakesDown(s, step, f) && !step.CountDown?)
  {
  }

  lemma SweptShareMoves(s: State, step: Step, f: TopicFilter)
    requires Sane(s) && Enabled(s, step) && step.SweepOne?
    ensures Share(s, About(step), f) + One(Early(s, step, f)) ==
      Share(Apply(s, step), About(step), f) + One(Takes(s, step, f))
  {
  }

  lemma SweepMoves(s: State, step: Step, f: TopicFilter)
    requires Enabled(s, step)
    ensures One(SweepOwes(s, f)) + One(Takes(s, step, f)) ==
      One(SweepOwes(Apply(s, step), f)) + One(TakesDown(s, step, f) && step.CountDown?)
  {
  }

  lemma CountsMove(s: State, step: Step, f: TopicFilter)
    requires Sane(s) && Enabled(s, step)
    ensures Count(Apply(s, step).counts, f) + One(TakesDown(s, step, f)) ==
      Count(s.counts, f) + One(Skipped(s, step, f)) + One(Increments(s, step, f))
  {
  }

  /** How a step moves the count and its own connection: exactly by what is noted of it. */
  lemma CountMoves(s: State, step: Step, f: TopicFilter)
    requires Sane(s) && Enabled(s, step)
    ensures var t, c := Apply(s, step), About(step);
      Count(t.counts, f) + Share(s, c, f) + One(SweepOwes(s, f)) + One(Early(s, step, f)) ==
        Count(s.counts, f) + Share(t, c, f) + One(SweepOwes(t, f))
        + One(Late(s, step, f)) + One(Skipped(s, step, f)) + One(Leaked(s, step, f))
  {
    if step.SweepOne? { SweptShareMoves(s, step, f); } else { OwnShareMoves(s, step, f); }
    SweepMoves(s, step, f);
    CountsMove(s, step, f);
  }

  lemma StepKeepsAccount(s: State, step: Step, f: TopicFilter, t: Tally)
    requires Sane(s) && Account(s, f, t)
    ensures Account(Next(s, step), f, Noted(s, step, f, t))
  {
    if Enabled(s, step) {
      HoldersMove(s, step, f);
      CountMoves(s, step, f);
    }
  }

  lemma {:induction false} RunKeepsAccount(s: State, run: seq<Step>, f: TopicFilter, t: Tally)
    requires Sane(s) && Account(s, f, t)
    ensures Sane(AclReload.Execute(s, run)) && Account(AclReload.Execute(s, run), f, Tallied(s, run, f, t))
    decreases |run|
  {
    if run != [] {
      StepKeepsSane(s, run[0]);
      StepKeepsAccount(s, run[0], f, t);
      RunKeepsAccount(Next(s, run[0]), run[1..], f, Noted(s, run[0], f, t));
    }
  }

  /**
   * The account, after every step of every interleaving: a filter's count, plus the sweeps that took a
   * forwarder too early, is the number of counted holders, plus the counts still to be taken down, plus the
   * increments that came late, the decrements that found nothing, and the failed acks.
   */
  lemma {:induction false} CountIsAccountedFor(slots: Slots, run: seq<Step>, f: TopicFilter)
    ensures var s, t := AclReload.Execute(Initial(slots), run), Tallied(Initial(slots), run, f, NOTHING);
      Count(s.counts, f) + t.early == |CountedHolders(s, f)| + Pending(s, f) + t.late + t.skipped + t.leaked
  {
    RunKeepsAccount(Initial(slots), run, f, NOTHING);
  }

  /** Nobody is handling anything, and no count is still to be taken down. */
  ghost predicate AtRest(s: State) {
    && (forall c :: c in s.connections ==> s.connections[c].phase.Idle?)
    && (s.applier.Sweeping? ==> s.applier.taken == {})
  }

  /** At rest a count is right if and only if the two sides of the tally agree. */
  lemma {:induction false} CountIsRightIff(slots: Slots, run: seq<Step>, f: TopicFilter)
    requires AtRest(AclReload.Execute(Initial(slots), run))
    ensures var s, t := AclReload.Execute(Initial(slots), run), Tallied(Initial(slots), run, f, NOTHING);
      Count(s.counts, f) == |Holders(s, f)| <==> t.early == t.late + t.skipped + t.leaked
  {
    CountIsAccountedFor(slots, run, f);
    RestIsSettled(AclReload.Execute(Initial(slots), run), f);
  }

  lemma RestIsSettled(s: State, f: TopicFilter)
    requires AtRest(s)
    ensures CountedHolders(s, f) == Holders(s, f) && Pending(s, f) == 0
  {
    assert Owing(s, f) == {};
  }

  // ------------------------------------------------------------------ the guard

  /** The count is that of the counted holders and of the counts still to be taken down, at this moment. */
  predicate Right(s: State, f: TopicFilter) {
    Count(s.counts, f) == |CountedHolders(s, f)| + Pending(s, f)
  }

  /**
   * The three ways to spoil a count: a sweep that takes this filter's forwarder between its insert and its
   * increment, whether or not anybody is counted then; the increment of a subscribe whose forwarder such a
   * sweep has taken; and an unsubscribe whose ack fails.
   */
  predicate Spoils(s: State, step: Step, f: TopicFilter)
    requires Enabled(s, step)
  {
    match step
    case SweepOne(c) =>
      && c in s.connections && Uncounted(s.connections[c], f) && f in s.connections[c].forwarders
      && !Permits(s.applier.slots, s.connections[c].isPeer, s.connections[c].principal, f)
    case AddInterest(c) => s.connections[c].phase.filter == f && f !in s.connections[c].forwarders
    case AckFailed(c) => s.connections[c].phase.filter == f
    case _ => false
  }

  lemma StepSpoilsIff(s: State, step: Step, f: TopicFilter)
    requires Sane(s) && Right(s, f) && Enabled(s, step)
    ensures !Right(Apply(s, step), f) <==> Spoils(s, step, f)
  {
    HoldersMove(s, step, f);
    CountMoves(s, step, f);
    if Skipped(s, step, f) { NothingIsSkipped(s, step, f); }
  }

  /** While a count is right, there is one to take down for everyone who is about to. */
  lemma NothingIsSkipped(s: State, step: Step, f: TopicFilter)
    requires Right(s, f) && Enabled(s, step) && TakesDown(s, step, f)
    ensures f in s.counts
  {
    if !step.CountDown? { assert {About(step)} <= Owing(s, f); }
  }

  ghost predicate RightThroughout(s: State, run: seq<Step>, f: TopicFilter)
    decreases |run|
  {
    Right(s, f) && (run != [] ==> RightThroughout(Next(s, run[0]), run[1..], f))
  }

  ghost predicate NothingSpoils(s: State, run: seq<Step>, f: TopicFilter)
    decreases |run|
  {
    run != [] ==> !(Enabled(s, run[0]) && Spoils(s, run[0], f)) && NothingSpoils(Next(s, run[0]), run[1..], f)
  }

  /** A right count stays right throughout a run if and only if no step of the run spoils it. */
  lemma {:induction false} RightThroughoutIff(s: State, run: seq<Step>, f: TopicFilter)
    requires Sane(s) && Right(s, f)
    ensures RightThroughout(s, run, f) <==> NothingSpoils(s, run, f)
    decreases |run|
  {
    if run != [] {
      var after := Next(s, run[0]);
      StepKeepsSane(s, run[0]);
      if Enabled(s, run[0]) { StepSpoilsIff(s, run[0], f); }
      if Right(after, f) {
        RightThroughoutIff(after, run[1..], f);
      } else {
        assert !RightThroughout(after, run[1..], f);
      }
    }
  }

  /** No sweep of the run takes a forwarder between its insert and its increment, and no ack fails. */
  ghost predicate Undisturbed(s: State, run: seq<Step>)
    decreases |run|
  {
    run != [] ==>
      && !(run[0].AckFailed? && Enabled(s, run[0]))
      && (forall f :: !Early(s, run[0], f))
      && Undisturbed(Next(s, run[0]), run[1..])
  }

  /** Whoever is in the middle of a subscribe still has the forwarder. */
  ghost predicate NoneTaken(s: State) {
    forall c, f :: c in s.connections && Uncounted(s.connections[c], f) ==> f in s.connections[c].forwarders
  }

  lemma StepKeepsNoneTaken(s: State, step: Step)
    requires NoneTaken(s) && forall f :: !Early(s, step, f)
    ensures NoneTaken(Next(s, step))
  {
    var t := Next(s, step);
    if Enabled(s, step) {
      forall c, f | c in t.connections && Uncounted(t.connections[c], f)
        ensures f in t.connections[c].forwarders
      {
        assert !Early(s, step, f);
        if c != About(step) { OthersStay(s, step, c); }
      }
    }
  }

  lemma {:induction false} UndisturbedStaysRight(s: State, run: seq<Step>, f: TopicFilter)
    requires Sane(s) && NoneTaken(s) && Right(s, f) && Undisturbed(s, run)
    ensures Right(AclReload.Execute(s, run), f)
    decreases |run|
  {
    if run != [] {
      StepKeepsSane(s, run[0]);
      StepKeepsNoneTaken(s, run[0]);
      assert !Early(s, run[0], f);
      if Enabled(s, run[0]) { StepSpoilsIff(s, run[0], f); }
      UndisturbedStaysRight(Next(s, run[0]), run[1..], f);
    }
  }

  /** While no sweep falls into that gap and every ack is sent, every count is right at every moment. */
  lemma {:induction false} CountsAreRightUndisturbed(slots: Slots, run: seq<Step>, f: TopicFilter)
    requires Undisturbed(Initial(slots), run)
    ensures var s := AclReload.Execute(Initial(slots), run);
      && Count(s.counts, f) == |CountedHolders(s, f)| + Pending(s, f)
      && (AtRest(s) ==> Count(s.counts, f) == |Holders(s, f)|)
  {
    UndisturbedStaysRight(Initial(slots), run, f);
    var s := AclReload.Execute(Initial(slots), run);
    if AtRest(s) { RestIsSettled(s, f); }
  }

  // ------------------------------------------------------------ two undercounts

  /** The ACL that leaves one literal filter to one identity. */
  function OnlyFor(holder: Principal, f: TopicFilter): Slots {
    Slots(Some({(holder, f)}), None)
  }

  function Begun(c: ConnectionId, other: Principal, f: TopicFilter): seq<Step> {
    [Connect(c, other, false), Check(c, f), Insert(c)]
  }

  /** A client connection at some point of a subscribe to `f`. */
  function Client(principal: Principal, forwarders: set<TopicFilter>, phase: Phase): Connection {
    Connection(principal, false, forwarders, phase)
  }

  /** While nothing is reloaded, a connection gets as far as its insert, whoever else is there. */
  lemma {:induction false} BegunInserts(s: State, c: ConnectionId, other: Principal, f: TopicFilter)
    requires s.slots == OPEN && c !in s.connections
    ensures AclReload.Execute(s, Begun(c, other, f)) == Put(s, c, Client(other, {f}, Inserted(f)))
  {
    var connected, checked := Put(s, c, Client(other, {}, Idle)), Put(s, c, Client(other, {}, Checked(f)));
    assert {} + {f} == {f};
    assert Next(connected, Check(c, f)).connections == checked.connections;
    assert Next(checked, Insert(c)).connections == Put(s, c, Client(other, {f}, Inserted(f))).connections;
    PassesThrough([s, connected, checked, Put(s, c, Client(other, {f}, Inserted(f)))], Begun(c, other, f));
  }

  /** A permitted subscribe from the first to the last of its steps, whoever else is there. */
  function Subscribes(d: ConnectionId, holder: Principal, f: TopicFilter): seq<Step> {
    [Connect(d, holder, false), Check(d, f), Insert(d), Recheck(d), AddInterest(d)]
  }

  lemma {:induction false} SubscribesAndCounts(s: State, d: ConnectionId, holder: Principal, f: TopicFilter)
    requires d !in s.connections && f !in s.counts && Permits(s.slots, false, holder, f)
    ensures AclReload.Execute(s, Subscribes(d, holder, f)) ==
      Put(s, d, Client(holder, {f}, Idle)).(counts := s.counts[f := 1])
  {
    var connected, checked := Put(s, d, Client(holder, {}, Idle)), Put(s, d, Client(holder, {}, Checked(f)));
    var inserted, confirmed := Put(s, d, Client(holder, {f}, Inserted(f))),
      Put(s, d, Client(holder, {f}, Confirmed(f)));
    var counted := Put(s, d, Client(holder, {f}, Idle)).(counts := s.counts[f := 1]);
    assert {} + {f} == {f};
    assert Next(connected, Check(d, f)).connections == checked.connections;
    assert Next(checked, Insert(d)).connections == inserted.connections;
    assert Next(inserted, Recheck(d)).connections == confirmed.connections;
    assert Next(confirmed, AddInterest(d)).connections == counted.connections;
    PassesThrough([s, connected, checked, inserted, confirmed, counted], Subscribes(d, holder, f));
  }

  function BothHere(d: ConnectionId, holding: Connection, c: ConnectionId,
      other: Connection): map<ConnectionId, Connection> {
    map[d := holding, c := other]
  }

  lemma {:induction false} ReloadTakes(s: State, c: ConnectionId, other: Principal, holder: Principal, f: TopicFilter)
    requires s.applier.Waiting? && c in s.connections && s.connections[c] == Client(other, {f}, Inserted(f))
      && holder != other
    ensures AclReload.Execute(s, UpToSweep(c, OnlyFor(holder, f))) ==
      Put(s, c, Client(other, {}, Inserted(f))).(slots := OnlyFor(holder, f),
                                                 applier := Sweeping(OnlyFor(holder, f), s.connections.Keys - {c}, {f}))
  {
    ReloadSweeps(s, c, OnlyFor(holder, f));
    assert Denied(OnlyFor(holder, f), s.connections[c]) == {f};
    assert {f} - {f} == {};
  }

  /** The other connection's second check then refuses, and nothing is taken down for it. */
  lemma {:induction false} RefusedAfterwards(s: State, c: ConnectionId, other: Principal, f: TopicFilter)
    requires c in s.connections && s.connections[c] == Client(other, {}, Inserted(f))
      && !Permits(s.slots, false, other, f)
    ensures AclReload.Execute(s, [Recheck(c), Remove(c)]) == Put(s, c, Client(other, {}, Idle))
  {
    var refused := Put(s, c, Client(other, {}, Refused(f)));
    assert {} - {f} == {};
    assert Next(refused, Remove(c)).connections == Put(s, c, Client(other, {}, Idle)).connections;
    PassesThrough([s, refused, Put(s, c, Client(other, {}, Idle))], [Recheck(c), Remove(c)]);
  }

  lemma {:induction false} CountedDown(s: State, d: ConnectionId, holder: Principal, f: TopicFilter)
    requires s.applier == Sweeping(OnlyFor(holder, f), {d}, {f}) && s.counts == map[f := 1]
    requires d in s.connections && s.connections[d] == Client(holder, {f}, Idle) && IsLiteral(f)
    ensures AclReload.Execute(s, [CountDown(f), SweepOne(d), FinishReload]) == s.(applier := Waiting, counts := map[])
  {
    var only := OnlyFor(holder, f);
    var down := s.(applier := Sweeping(only, {d}, {}), counts := map[]);
    var swept := down.(applier := Sweeping(only, {}, {}));
    assert {f} - {f} == {};
    assert Next(s, CountDown(f)) == down;
    assert Next(down, SweepOne(d)) == swept by {
      assert Denied(only, s.connections[d]) == {};
      assert {f} - {} == {f} && {d} - {d} == {};
      assert s.connections[d := s.connections[d]] == s.connections;
    }
    PassesThrough([s, down, swept, swept.(applier := Waiting)], [CountDown(f), SweepOne(d), FinishReload]);
  }

  lemma {:induction false} CountedDownAlone(s: State, slots: Slots, f: TopicFilter)
    requires s.applier == Sweeping(slots, {}, {f}) && s.counts == map[f := 1]
    ensures AclReload.Execute(s, [CountDown(f), FinishReload]) == s.(applier := Waiting, counts := map[])
  {
    var down := s.(applier := Sweeping(slots, {}, {}), counts := map[]);
    assert {f} - {f} == {};
    assert Next(s, CountDown(f)) == down;
    PassesThrough([s, down, down.(applier := Waiting)], [CountDown(f), FinishReload]);
  }

  /** A permitted holder is left, everything is at rest, and the node counts no interest at all. */
  function Undercounted(d: ConnectionId, holder: Principal, c: ConnectionId, other: Principal, f: TopicFilter): State {
    State(OnlyFor(holder, f), BothHere(d, Client(holder, {f}, Idle), c, Client(other, {}, Idle)), Waiting, map[])
  }

  lemma {:induction false} ExecuteFive(s: State, run1: seq<Step>, run2: seq<Step>, run3: seq<Step>, run4: seq<Step>,
      run5: seq<Step>)
    ensures AclReload.Execute(s, run1 + run2 + run3 + run4 + run5) ==
      AclReload.Execute(AclReload.Execute(AclReload.Execute(s, run1 + run2 + run3), run4), run5)
  {
    ExecuteThree(s, run1 + run2 + run3, run4, run5);
  }

  /**
   * A count can also fall short. One connection holds a permitted literal filter; another is between its
   * insert and its second check when a reload leaves the filter to the first alone. The sweep takes the
   * first one's count.
   */
  lemma InterestCanUndercount(d: ConnectionId, holder: Principal, c: ConnectionId, other: Principal, f: TopicFilter)
    requires c != d && holder != other && IsLiteral(f)
    ensures AclReload.Execute(Initial(OPEN),
        Subscribes(d, holder, f) + Begun(c, other, f) + UpToSweep(c, OnlyFor(holder, f))
        + [CountDown(f), SweepOne(d), FinishReload] + [Recheck(c), Remove(c)]) == Undercounted(d, holder, c, other, f)
    ensures Permits(OnlyFor(holder, f), false, holder, f)
  {
    var s0, only := Initial(OPEN), OnlyFor(holder, f);
    SubscribesAndCounts(s0, d, holder, f);
    var s1 := Put(s0, d, Client(holder, {f}, Idle)).(counts := map[f := 1]);
    BegunInserts(s1, c, other, f);
    var s2 := Put(s1, c, Client(other, {f}, Inserted(f)));
    assert s2.connections.Keys - {c} == {d};
    ReloadTakes(s2, c, other, holder, f);
    ExecuteThree(s0, Subscribes(d, holder, f), Begun(c, other, f), UpToSweep(c, only));
    var s3 := Put(s2, c, Client(other, {}, Inserted(f))).(slots := only, applier := Sweeping(only, {d}, {f}));
    CountedDown(s3, d, holder, f);
    RefusedAfterwards(s3.(applier := Waiting, counts := map[]), c, other, f);
    ExecuteFive(s0, Subscribes(d, holder, f), Begun(c, other, f), UpToSweep(c, only),
                [CountDown(f), SweepOne(d), FinishReload], [Recheck(c), Remove(c)]);
  }

  /**
   * Nobody need be counted when the sweep takes the forwarder: the count it takes down may be that of a
   * connection that subscribes between the two.
   */
  lemma InterestCanUndercountALatecomer(d: ConnectionId, holder: Principal, c: ConnectionId, other: Principal,
      f: TopicFilter)
    requires c != d && holder != other && IsLiteral(f)
    ensures AclReload.Execute(Initial(OPEN),
        Begun(c, other, f) + UpToSweep(c, OnlyFor(holder, f)) + Subscribes(d, holder, f)
        + [CountDown(f), FinishReload] + [Recheck(c), Remove(c)]) == Undercounted(d, holder, c, other, f)
  {
    var s0, only := Initial(OPEN), OnlyFor(holder, f);
    BegunInserts(s0, c, other, f);
    var s1 := Put(s0, c, Client(other, {f}, Inserted(f)));
    assert s1.connections.Keys - {c} == {};
    ReloadTakes(s1, c, other, holder, f);
    var s2 := Put(s1, c, Client(other, {}, Inserted(f))).(slots := only, applier := Sweeping(only, {}, {f}));
    SubscribesAndCounts(s2, d, holder, f);
    ExecuteThree(s0, Begun(c, other, f), UpToSweep(c, only), Subscribes(d, holder, f));
    var s3 := Put(s2, d, Client(holder, {f}, Idle)).(counts := map[f := 1]);
    CountedDownAlone(s3, only, f);
    RefusedAfterwards(s3.(applier := Waiting, counts := map[]), c, other, f);
    ExecuteFive(s0, Begun(c, other, f), UpToSweep(c, only), Subscribes(d, holder, f),
                [CountDown(f), FinishReload], [Recheck(c), Remove(c)]);
  }
}
