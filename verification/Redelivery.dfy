/** Deliveries waiting for an acknowledgement: resent after a timeout, given up on after a limit. */
module Redelivery {
  import opened Common
  import opened Sequences
  import opened Sorting

  datatype Entry = Entry(envelope: Envelope, sentAt: int, attempts: nat)

  datatype Limits = Limits(timeout: nat, maxAttempts: nat)

  /** Elapsed time, which never runs backwards. */
  function Since(now: int, start: int): nat {
    if now >= start then now - start else 0
  }

  predicate Due(entry: Entry, now: int, limits: Limits) {
    Since(now, entry.sentAt) >= limits.timeout
  }

  predicate Spent(entry: Entry, limits: Limits) {
    entry.attempts >= limits.maxAttempts
  }

  /** What a sweep leaves pending: due entries are bumped, or dropped when their attempts are spent. */
  function SweptEntries(entries: map<MessageId, Entry>, now: int, limits: Limits): map<MessageId, Entry> {
    map id | id in entries && !(Due(entries[id], now, limits) && Spent(entries[id], limits)) ::
      if Due(entries[id], now, limits) then Entry(entries[id].envelope, now, entries[id].attempts + 1) else entries[id]
  }

  /** The ids whose entries are due, and those among them whose attempts are spent. */
  function DueIds(entries: map<MessageId, Entry>, now: int, limits: Limits): set<MessageId> {
    set id | id in entries && Due(entries[id], now, limits)
  }

  function SpentIds(entries: map<MessageId, Entry>, now: int, limits: Limits): set<MessageId> {
    set id | id in entries && Due(entries[id], now, limits) && Spent(entries[id], limits)
  }

  /** The entries after a sweep has dealt with the ids in `done`. */
  function PartSwept(entries: map<MessageId, Entry>, done: set<MessageId>, now: int,
      limits: Limits): map<MessageId, Entry> {
    map id | id in entries && !(id in done && Spent(entries[id], limits)) ::
      if id in done then Entry(entries[id].envelope, now, entries[id].attempts + 1) else entries[id]
  }

  lemma PartSweptAll(entries: map<MessageId, Entry>, now: int, limits: Limits)
    requires Keyed(entries)
    ensures PartSwept(entries, {}, now, limits) == entries
    ensures PartSwept(entries, DueIds(entries, now, limits), now, limits) == SweptEntries(entries, now, limits)
    ensures Keyed(SweptEntries(entries, now, limits))
  {
  }

  ghost predicate Keyed(entries: map<MessageId, Entry>) {
    forall id :: id in entries ==> entries[id].envelope.id == id
  }

  class PendingAcks {
    const limits: Limits
    var entries: map<MessageId, Entry>

    constructor (limits: Limits)
      ensures this.limits == limits && entries == map[]
    {
      this.limits, entries := limits, map[];
    }

    method Record(envelope: Envelope, now: int)
      modifies this
      ensures entries == old(entries)[envelope.id := Entry(envelope, now, 0)]
    {
      entries := entries[envelope.id := Entry(envelope, now, 0)];
    }

    method Ack(id: MessageId)
      modifies this
      ensures entries == old(entries) - {id}
    {
      entries := entries - {id};
    }

    /** Visits each due entry once, in any `order`; what is left pending does not depend on it. */
    method Sweep(now: int) returns (resend: seq<Envelope>, gaveUp: seq<Envelope>, ghost order: seq<MessageId>)
      requires Keyed(entries)
      modifies this
      ensures entries == SweptEntries(old(entries), now, limits) && Keyed(entries)
      ensures Distinct(order) && Elements(order) == DueIds(old(entries), now, limits)
      ensures resend == Picked(old(entries), order, limits, false)
      ensures gaveUp == Picked(old(entries), order, limits, true)
      ensures Settles(old(entries), entries, resend, gaveUp, now, limits)
    {
      ghost var was := entries;
      var expired := DueIds(entries, now, limits);
      resend, gaveUp, order := [], [], [];
      PartSweptAll(was, now, limits);
      while expired != {}
        invariant Distinct(order) && Elements(order) !! expired && Elements(order) + expired == DueIds(was, now, limits)
        invariant entries == PartSwept(was, Elements(order), now, limits)
        invariant resend == Picked(was, order, limits, false) && gaveUp == Picked(was, order, limits, true)
        decreases expired
      {
        var id :| id in expired;
        assert id !in order by { assert id !in Elements(order); }
        DistinctAppend(order, id);
        expired := expired - {id};
        order := order + [id];
        var envelope, spent := Expire(id, now);
        if spent {
          gaveUp := gaveUp + [envelope];
        } else {
          resend := resend + [envelope];
        }
      }
      assert Elements(order) == DueIds(was, now, limits);
      PickedSettle(was, order, now, limits);
    }

    method Expire(id: MessageId, now: int) returns (envelope: Envelope, spent: bool)
      requires id in entries
      modifies this
      ensures envelope == old(entries)[id].envelope && spent == Spent(old(entries)[id], limits)
      ensures entries == if spent then old(entries) - {id}
                         else old(entries)[id := Entry(envelope, now, old(entries)[id].attempts + 1)]
    {
      var entry := entries[id];
      envelope, spent := entry.envelope, entry.attempts >= limits.maxAttempts;
      if spent {
        entries := entries - {id};
      } else {
        entries := entries[id := Entry(envelope, now, entry.attempts + 1)];
      }
    }
  }

  /** The envelopes of the visited ids whose attempts are spent, or of those whose are not. */
  function Picked(entries: map<MessageId, Entry>, order: seq<MessageId>, limits: Limits, spent: bool): seq<Envelope> {
    if order == [] then []
    else
      var before, id := Picked(entries, order[..|order| - 1], limits, spent), order[|order| - 1];
      if id in entries && Spent(entries[id], limits) == spent then before + [entries[id].envelope] else before
  }

  /** Elapsed time is never negative, so that everything is overdue without a timeout. */
  predicate Overdue(entry: Entry, now: int, timeout: nat) {
    timeout == 0 || now - entry.sentAt >= timeout
  }

  /**
   * What a sweep answers, and what it leaves pending: every overdue entry with attempts left is to be resent
   * and pending anew, every one without is given up and gone, and the others are as they were.
   */
  ghost predicate Settles(before: map<MessageId, Entry>, after: map<MessageId, Entry>,
      resend: seq<Envelope>, gaveUp: seq<Envelope>, now: int, limits: Limits) {
    && UniqueIds(resend) && UniqueIds(gaveUp)
    && (forall e :: e in resend <==>
          && e.id in before && before[e.id].envelope == e
          && Overdue(before[e.id], now, limits.timeout) && before[e.id].attempts < limits.maxAttempts)
    && (forall e :: e in gaveUp <==>
          && e.id in before && before[e.id].envelope == e
          && Overdue(before[e.id], now, limits.timeout) && before[e.id].attempts >= limits.maxAttempts)
    && (forall id :: id in after ==> id in before)
    && (forall id :: id in before ==>
          if !Overdue(before[id], now, limits.timeout) then id in after && after[id] == before[id]
          else if before[id].attempts >= limits.maxAttempts then id !in after
          else id in after && after[id] == Entry(before[id].envelope, now, before[id].attempts + 1))
  }

  /** The picked envelopes are those of the visited entries, each once. */
  lemma {:induction false} PickedAre(entries: map<MessageId, Entry>, order: seq<MessageId>, limits: Limits, spent: bool)
    requires Keyed(entries) && Distinct(order)
    ensures var picked := Picked(entries, order, limits, spent);
      && UniqueIds(picked)
      && (forall e :: e in picked <==>
            e.id in order && e.id in entries && entries[e.id].envelope == e && Spent(entries[e.id], limits) == spent)
    decreases |order|
  {
    if order != [] {
      var init, last := order[..|order| - 1], order[|order| - 1];
      assert order == init + [last] && last !in init;
      PickedAre(entries, init, limits, spent);
      var before := Picked(entries, init, limits, spent);
      assert forall i :: 0 <= i < |before| ==> before[i] in before;
    }
  }

  lemma {:induction false} PickedSettle(entries: map<MessageId, Entry>, order: seq<MessageId>, now: int, limits: Limits)
    requires Keyed(entries) && Distinct(order) && Elements(order) == DueIds(entries, now, limits)
    ensures Settles(entries, SweptEntries(entries, now, limits), Picked(entries, order, limits, false),
                    Picked(entries, order, limits, true), now, limits)
  {
    PickedAre(entries, order, limits, false);
    PickedAre(entries, order, limits, true);
    forall id | id in entries
      ensures id in order <==> Overdue(entries[id], now, limits.timeout)
    {
      assert id in order <==> id in Elements(order);
    }
  }

  // ------------------------------------------------------------------- books

  /**
   * The table with its books: every id ever recorded, acknowledged or given up on, the times at which
   * copies of it were sent, and the latest time seen. The program keeps none of these.
   */
  datatype Books = Books(
    limits: Limits,
    entries: map<MessageId, Entry>,
    acked: set<MessageId>,
    givenUp: multiset<MessageId>,
    sends: map<MessageId, seq<int>>,
    clock: int)

  datatype Event = Recorded(envelope: Envelope, at: int) | Acked(id: MessageId) | Swept(at: int)

  function Next(b: Books, event: Event): Books {
    match event
    case Recorded(envelope, at) =>
      b.(entries := b.entries[envelope.id := Entry(envelope, at, 0)], sends := b.sends[envelope.id := [at]],
        clock := at)
    case Acked(id) =>
      if id in b.entries then b.(entries := b.entries - {id}, acked := b.acked + {id}) else b
    case Swept(at) =>
      b.(entries := SweptEntries(b.entries, at, b.limits),
         givenUp := b.givenUp + multiset(SpentIds(b.entries, at, b.limits)),
         sends := map id | id in b.sends :: SendsAfter(b, id, at),
         clock := at)
  }

  function SendsAfter(b: Books, id: MessageId, at: int): seq<int>
    requires id in b.sends
  {
    if id in b.entries && Due(b.entries[id], at, b.limits) && !Spent(b.entries[id], b.limits)
    then b.sends[id] + [at] else b.sends[id]
  }

  function Execute(b: Books, run: seq<Event>): Books
    decreases |run|
  {
    if run == [] then b else Execute(Next(b, run[0]), run[1..])
  }

  /** Ids are distinct and time does not run backwards. */
  ghost predicate Allowed(b: Books, event: Event) {
    match event
    case Recorded(envelope, at) => envelope.id !in b.sends && b.clock <= at
    case Acked(_) => true
    case Swept(at) => b.clock <= at
  }

  ghost predicate AllAllowed(b: Books, run: seq<Event>)
    decreases |run|
  {
    run != [] ==> Allowed(b, run[0]) && AllAllowed(Next(b, run[0]), run[1..])
  }

  ghost predicate Spaced(times: seq<int>, timeout: nat) {
    forall i :: 0 <= i < |times| - 1 ==> times[i + 1] - times[i] >= timeout
  }

  /** Every recorded id is in exactly one of pending, acknowledged and given up, the last at most once. */
  ghost predicate Partitioned(b: Books) {
    forall id ::
      && (id in b.sends <==> id in b.entries || id in b.acked || id in b.givenUp)
      && (id in b.entries ==> id !in b.acked && id !in b.givenUp)
      && (id in b.acked ==> id !in b.givenUp)
      && b.givenUp[id] <= 1
  }

  ghost predicate Tracked(b: Books, id: MessageId)
    requires id in b.sends
  {
    && 1 <= |b.sends[id]| <= 1 + b.limits.maxAttempts
    && Spaced(b.sends[id], b.limits.timeout)
    && (id in b.givenUp ==> |b.sends[id]| == 1 + b.limits.maxAttempts)
    && (id in b.entries ==>
          && b.entries[id].envelope.id == id
          && |b.sends[id]| == 1 + b.entries[id].attempts
          && b.sends[id][|b.sends[id]| - 1] == b.entries[id].sentAt <= b.clock)
  }

  /** Sends of an id are at least the timeout apart and number at most one plus the limit. */
  ghost predicate Balanced(b: Books) {
    Partitioned(b) && forall id :: id in b.sends ==> Tracked(b, id)
  }

  lemma SweepKeepsPartition(b: Books, at: int)
    requires Partitioned(b)
    ensures Partitioned(Next(b, Swept(at)))
  {
  }

  lemma SweepKeepsTracked(b: Books, at: int, id: MessageId)
    requires id in b.sends && Tracked(b, id) && b.clock <= at
    requires id in b.entries ==> id !in b.givenUp
    ensures Tracked(Next(b, Swept(at)), id)
  {
  }

  lemma EventBalances(b: Books, event: Event)
    requires Balanced(b) && Allowed(b, event)
    ensures Balanced(Next(b, event))
  {
    var after := Next(b, event);
    match event
    case Recorded(envelope, at) =>
      assert after.entries.Keys == b.entries.Keys + {envelope.id};
      forall id | id in after.sends
        ensures Tracked(after, id)
      {
        if id != envelope.id { assert Tracked(b, id); }
      }
    case Acked(id) =>
      forall other | other in after.sends
        ensures Tracked(after, other)
      {
        assert Tracked(b, other);
      }
    case Swept(at) =>
      SweepKeepsPartition(b, at);
      forall id | id in after.sends
        ensures Tracked(after, id)
      {
        SweepKeepsTracked(b, at, id);
      }
  }

  /** The books agree with the sweep's answers: what is given up, and what is sent again, id by id. */
  lemma BooksFollowTheSweep(b: Books, at: int, resend: seq<Envelope>, gaveUp: seq<Envelope>)
    requires Balanced(b) && Settles(b.entries, Next(b, Swept(at)).entries, resend, gaveUp, at, b.limits)
    ensures var after := Next(b, Swept(at));
      && (forall id :: after.givenUp[id] == b.givenUp[id] + if exists e :: e in gaveUp && e.id == id then 1 else 0)
      && (forall id :: id in b.sends ==>
            && id in after.sends
            && after.sends[id] == b.sends[id] + if exists e :: e in resend && e.id == id then [at] else [])
  {
    var after := Next(b, Swept(at));
    forall id
      ensures (exists e :: e in gaveUp && e.id == id) <==> id in SpentIds(b.entries, at, b.limits)
    {
      if id in b.entries {
        assert id in b.sends && Tracked(b, id);
        var e := b.entries[id].envelope;
        assert e.id == id;
      }
    }
    forall id | id in b.sends
      ensures (exists e :: e in resend && e.id == id) <==>
        id in b.entries && Due(b.entries[id], at, b.limits) && !Spent(b.entries[id], b.limits)
    {
      if id in b.entries {
        assert Tracked(b, id);
        var e := b.entries[id].envelope;
        assert e.id == id;
      }
    }
  }

  lemma {:induction false} RunBalances(b: Books, run: seq<Event>)
    requires Balanced(b) && AllAllowed(b, run)
    ensures Balanced(Execute(b, run))
    decreases |run|
  {
    if run != [] {
      EventBalances(b, run[0]);
      RunBalances(Next(b, run[0]), run[1..]);
    }
  }

  /** An acknowledged id is never sent or given up on again. */
  lemma {:induction false} AckedNeverReappears(b: Books, run: seq<Event>, id: MessageId)
    requires Balanced(b) && AllAllowed(b, run) && id in b.acked
    ensures var after := Execute(b, run);
      && id in after.acked && id !in after.entries && id !in after.givenUp
      && id in after.sends && after.sends[id] == b.sends[id]
    decreases |run|
  {
    if run != [] {
      EventBalances(b, run[0]);
      AckedNeverReappears(Next(b, run[0]), run[1..], id);
    }
  }

  /** So an id acknowledged while pending is done with, whatever follows. */
  lemma {:induction false} AckSettles(b: Books, run: seq<Event>, id: MessageId)
    requires Balanced(b) && id in b.entries && AllAllowed(b, [Acked(id)] + run)
    ensures var after := Execute(b, [Acked(id)] + run);
      && id in after.acked && id !in after.entries && id !in after.givenUp
      && id in b.sends && id in after.sends && after.sends[id] == b.sends[id]
  {
    assert ([Acked(id)] + run)[1..] == run;
    EventBalances(b, Acked(id));
    AckedNeverReappears(Next(b, Acked(id)), run, id);
  }

  // ------------------------------------------------- progress of a silent id

  /** How many sweeps of the run find an entry last sent at `sentAt` due, each restarting its clock. */
  function DueSweeps(run: seq<Event>, sentAt: int, timeout: nat): nat
    decreases |run|
  {
    if run == [] then 0
    else if run[0].Swept? && Since(run[0].at, sentAt) >= timeout then 1 + DueSweeps(run[1..], run[0].at, timeout)
    else DueSweeps(run[1..], sentAt, timeout)
  }

  /** Exactly what becomes of an id nobody acknowledges: one resend per due sweep, then given up. */
  lemma {:induction false} SilentIdOutcome(b: Books, run: seq<Event>, id: MessageId)
    requires Balanced(b) && AllAllowed(b, run) && id in b.entries && Acked(id) !in run
    ensures var after, due := Execute(b, run), DueSweeps(run, b.entries[id].sentAt, b.limits.timeout);
      && id in after.sends
      && (if b.entries[id].attempts + due <= b.limits.maxAttempts
          then id in after.entries && |after.sends[id]| == |b.sends[id]| + due
          else id in after.givenUp && |after.sends[id]| == 1 + b.limits.maxAttempts)
    decreases |run|
  {
    assert Tracked(b, id);
    if run != [] {
      EventBalances(b, run[0]);
      SilentStep(b, run[0], id);
      var mid := Next(b, run[0]);
      assert run == [run[0]] + run[1..];
      if id in mid.entries {
        SilentIdOutcome(mid, run[1..], id);
      } else {
        GivenUpStays(mid, run[1..], id);
      }
    }
  }

  /** What one event that does not acknowledge a pending id does to it. */
  lemma SilentStep(b: Books, event: Event, id: MessageId)
    requires Allowed(b, event) && event != Acked(id)
    requires id in b.entries && id in b.sends
    ensures var mid, entry := Next(b, event), b.entries[id];
      && id in mid.sends
      && (if event.Swept? && Due(entry, event.at, b.limits)
          then if Spent(entry, b.limits)
               then id !in mid.entries && id in mid.givenUp
               else id in mid.entries && mid.entries[id] == Entry(entry.envelope, event.at, entry.attempts + 1)
                    && |mid.sends[id]| == |b.sends[id]| + 1
          else id in mid.entries && mid.entries[id] == entry && mid.sends[id] == b.sends[id])
  {
  }

  lemma {:induction false} GivenUpStays(b: Books, run: seq<Event>, id: MessageId)
    requires Balanced(b) && AllAllowed(b, run) && id in b.givenUp
    ensures var after := Execute(b, run);
      id in after.givenUp && id in after.sends && |after.sends[id]| == 1 + b.limits.maxAttempts
    decreases |run|
  {
    if run == [] {
      assert Tracked(b, id);
    } else {
      EventBalances(b, run[0]);
      GivenUpStays(Next(b, run[0]), run[1..], id);
    }
  }

  /** `times` are the times of some of the run's sweeps, in order. */
  ghost predicate SweptAt(run: seq<Event>, times: seq<int>)
    decreases |run|
  {
    times == [] ||
    (run != [] && ((run[0] == Swept(times[0]) && SweptAt(run[1..], times[1..])) || SweptAt(run[1..], times)))
  }

  ghost predicate SpacedFrom(times: seq<int>, start: int, timeout: nat) {
    && (times != [] ==> times[0] - start >= timeout)
    && Spaced(times, timeout)
  }

  /** Choosing sweeps greedily finds at least as many as any selection spaced by the timeout. */
  lemma {:induction false} GreedyIsBest(b: Books, run: seq<Event>, times: seq<int>, sentAt: int)
    requires AllAllowed(b, run) && sentAt <= b.clock
    requires SweptAt(run, times) && SpacedFrom(times, sentAt, b.limits.timeout)
    ensures |times| <= DueSweeps(run, sentAt, b.limits.timeout)
    decreases |run|
  {
    if run != [] && times != [] {
      var mid := Next(b, run[0]);
      var takes := run[0] == Swept(times[0]) && SweptAt(run[1..], times[1..]);
      if run[0].Swept? && Since(run[0].at, sentAt) >= b.limits.timeout {
        if !takes { LaterSweeps(mid, run[1..], times); SkipFirst(run[1..], times); }
        GreedyIsBest(mid, run[1..], times[1..], run[0].at);
      } else {
        GreedyIsBest(mid, run[1..], times, sentAt);
      }
    }
  }

  /** Sweeps still to come are no earlier than now. */
  lemma {:induction false} LaterSweeps(b: Books, run: seq<Event>, times: seq<int>)
    requires AllAllowed(b, run) && SweptAt(run, times) && times != []
    ensures times[0] >= b.clock
    decreases |run|
  {
    if !(run[0] == Swept(times[0]) && SweptAt(run[1..], times[1..])) {
      LaterSweeps(Next(b, run[0]), run[1..], times);
    }
  }

  lemma {:induction false} SkipFirst(run: seq<Event>, times: seq<int>)
    requires SweptAt(run, times) && times != []
    ensures SweptAt(run, times[1..])
    decreases |run|
  {
    if run[0] == Swept(times[0]) && SweptAt(run[1..], times[1..]) {
    } else {
      SkipFirst(run[1..], times);
    }
  }

  /**
   * An id that is recorded and never acknowledged is given up on once, after exactly `maxAttempts`
   * resends, as soon as the run holds `maxAttempts + 1` sweeps spaced by the timeout.
   */
  lemma {:induction false} SilentIdIsGivenUp(b: Books, envelope: Envelope, at: int, run: seq<Event>, times: seq<int>)
    requires Balanced(b) && Allowed(b, Recorded(envelope, at)) && AllAllowed(Next(b, Recorded(envelope, at)), run)
    requires Acked(envelope.id) !in run
    requires SweptAt(run, times) && SpacedFrom(times, at, b.limits.timeout) && |times| == b.limits.maxAttempts + 1
    ensures var after := Execute(Next(b, Recorded(envelope, at)), run);
      && after.givenUp[envelope.id] == 1
      && envelope.id in after.sends && |after.sends[envelope.id]| == 1 + b.limits.maxAttempts
      && after.sends[envelope.id] != [] && Spaced(after.sends[envelope.id], b.limits.timeout)
  {
    var start := Next(b, Recorded(envelope, at));
    EventBalances(b, Recorded(envelope, at));
    GreedyIsBest(start, run, times, at);
    SilentIdOutcome(start, run, envelope.id);
    RunBalances(start, run);
    LimitsStay(start, run);
    assert Tracked(Execute(start, run), envelope.id);
  }

  lemma {:induction false} LimitsStay(b: Books, run: seq<Event>)
    ensures Execute(b, run).limits == b.limits
    decreases |run|
  {
    if run != [] { LimitsStay(Next(b, run[0]), run[1..]); }
  }
}
