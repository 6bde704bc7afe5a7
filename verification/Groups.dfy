/** A consumer group: round-robin delivery to its members, and the leases of a work-queue group. */
module Groups {
  import opened Common
  import opened Sequences

  type SenderId = nat

  /** A member's bounded outgoing queue; a send to it is accepted, or refused as full or closed. */
  datatype Queue = Queue(items: seq<Envelope>, capacity: nat, closed: bool)

  type Queues = map<SenderId, Queue>

  predicate Accepts(queues: Queues, member: SenderId) {
    member in queues && !queues[member].closed && |queues[member].items| < queues[member].capacity
  }

  function Enqueue(queues: Queues, member: SenderId, envelope: Envelope): Queues
    requires Accepts(queues, member)
  {
    queues[member := queues[member].(items := queues[member].items + [envelope])]
  }

  datatype Lease = Lease(envelope: Envelope, leasedAt: int, attempts: nat)

  datatype Group = Group(members: seq<SenderId>, next: nat, ackTracked: bool, leases: map<MessageId, Lease>)

  // ------------------------------------------------------------- round robin

  /** The first offset from `next`, in cyclic order, at which a member accepts; `|members|` if none does. */
  function FirstAccepting(g: Group, queues: Queues, offset: nat): (first: nat)
    requires offset <= |g.members|
    ensures offset <= first <= |g.members|
    ensures first < |g.members| ==> Accepts(queues, MemberAt(g, first))
    ensures forall k :: offset <= k < first ==> !Accepts(queues, MemberAt(g, k))
    decreases |g.members| - offset
  {
    if offset == |g.members| then offset
    else if Accepts(queues, MemberAt(g, offset)) then offset
    else FirstAccepting(g, queues, offset + 1)
  }

  /** `offset` places after `i`, cyclically. */
  function Position(i: nat, offset: nat, len: nat): (p: nat)
    requires len > 0
    ensures p < len
  {
    (i + offset) % len
  }

  /** The member `offset` places after the cursor, whatever joins and leaves did to the cursor. */
  function MemberAt(g: Group, offset: nat): SenderId
    requires g.members != []
  {
    g.members[Position(g.next, offset, |g.members|)]
  }

  datatype Outcome = Outcome(group: Group, queues: Queues, taker: Option<SenderId>)

  function Deliver(g: Group, queues: Queues, envelope: Envelope): Outcome {
    var first := FirstAccepting(g, queues, 0);
    if first == |g.members| then Outcome(g, queues, None)
    else
      Outcome(g.(next := Position(Position(g.next, first, |g.members|), 1, |g.members|)),
              Enqueue(queues, MemberAt(g, first), envelope),
              Some(MemberAt(g, first)))
  }

  /**
   * For any cursor: a delivery fails if and only if no member accepts. Otherwise one member gets it, the
   * one `first` places after the cursor, every member before that having refused; and the cursor moves
   * to the place after it.
   */
  lemma DeliverReachesOneMember(g: Group, queues: Queues, envelope: Envelope) returns (first: nat)
    ensures first <= |g.members|
    ensures forall k :: 0 <= k < first ==> !Accepts(queues, MemberAt(g, k))
    ensures var o := Deliver(g, queues, envelope);
      && (o.taker.None? <==> first == |g.members|)
      && (o.taker.None? <==> forall m :: m in g.members ==> !Accepts(queues, m))
      && (o.taker.None? ==> o.group == g && o.queues == queues)
      && (o.taker.Some? ==>
            && o.taker == Some(MemberAt(g, first)) && o.taker.value in g.members && Accepts(queues, o.taker.value)
            && o.queues == Enqueue(queues, o.taker.value, envelope)
            && o.group == g.(next := ((g.next + first) % |g.members| + 1) % |g.members|))
  {
    first := FirstAccepting(g, queues, 0);
    if first == |g.members| {
      forall m | m in g.members
        ensures !Accepts(queues, m)
      {
        var i :| 0 <= i < |g.members| && g.members[i] == m;
        var offset := OffsetOf(g, i);
        assert MemberAt(g, offset) == m;
      }
    }
  }

  /** Every position is some offset away from the cursor. */
  lemma OffsetOf(g: Group, i: nat) returns (offset: nat)
    requires i < |g.members|
    ensures offset < |g.members| && Position(g.next, offset, |g.members|) == i
  {
    var n := |g.members|;
    var k, at := g.next / n, g.next % n;
    assert g.next == n * k + at;
    if i >= at {
      offset := i - at;
      ModIs(g.next + offset, n, k, i);
    } else {
      offset := i + n - at;
      assert n * (k + 1) == n * k + n;
      ModIs(g.next + offset, n, k + 1, i);
    }
  }

  lemma ModIs(x: nat, n: nat, k: nat, r: nat)
    requires r < n && x == n * k + r
    ensures x % n == r
  {
    var d := x / n - k;
    assert x == n * (x / n) + x % n;
    assert n * d == n * (x / n) - n * k;
  }

  /** One delivery: what the members' queues are like when it comes, and what is delivered. */
  datatype Turn = Turn(queues: Queues, envelope: Envelope)

  /** The group after some deliveries. Between them the queues may do anything. */
  function Played(g: Group, turns: seq<Turn>): Group {
    if turns == [] then g
    else
      var last := turns[|turns| - 1];
      Deliver(Played(g, turns[..|turns| - 1]), last.queues, last.envelope).group
  }

  /** Who the `i`th delivery goes to. */
  function Taker(g: Group, turns: seq<Turn>, i: nat): Option<SenderId>
    requires i < |turns|
  {
    Deliver(Played(g, turns[..i]), turns[i].queues, turns[i].envelope).taker
  }

  /** Each delivery finds every member accepting. */
  ghost predicate AllAccept(g: Group, turns: seq<Turn>) {
    forall i, m :: 0 <= i < |turns| && m in g.members ==> Accepts(turns[i].queues, m)
  }

  lemma ModSucc(x: nat, n: nat)
    requires n > 0
    ensures (x % n + 1) % n == (x + 1) % n
  {
    var k, at := x / n, x % n;
    assert x == n * k + at;
    if at + 1 < n {
      ModIs(x + 1, n, k, at + 1);
      ModIs(at + 1, n, 0, at + 1);
    } else {
      assert n * (k + 1) == n * k + n;
      ModIs(x + 1, n, k + 1, 0);
      ModIs(at + 1, n, 1, 0);
    }
  }

  lemma FirstTakes(g: Group, turn: Turn)
    requires g.members != [] && AllAccept(g, [turn])
    ensures var n, o := |g.members|, Deliver(g, turn.queues, turn.envelope);
      o.taker == Some(g.members[g.next % n]) && o.group == g.(next := (g.next + 1) % n)
  {
    assert [turn][0] == turn && MemberAt(g, 0) in g.members;
    ModSucc(g.next, |g.members|);
  }

  lemma {:induction false} CursorMovesOn(g: Group, turns: seq<Turn>)
    requires g.members != [] && AllAccept(g, turns)
    ensures Played(g, turns) == if turns == [] then g else g.(next := (g.next + |turns|) % |g.members|)
    decreases |turns|
  {
    if turns != [] {
      var init, last := turns[..|turns| - 1], turns[|turns| - 1];
      assert AllAccept(g, init) by { assert forall i :: 0 <= i < |init| ==> init[i] == turns[i]; }
      CursorMovesOn(g, init);
      FirstTakes(Played(g, init), last);
      ModSucc(g.next + |init|, |g.members|);
    }
  }

  /**
   * For any cursor and whatever happens to the queues between deliveries: while members neither join nor
   * leave and each delivery finds them accepting, the deliveries go around, one member after the other.
   */
  lemma DeliveriesGoAround(g: Group, turns: seq<Turn>, i: nat)
    requires g.members != [] && AllAccept(g, turns) && i < |turns|
    ensures Taker(g, turns, i) == Some(g.members[(g.next + i) % |g.members|])
  {
    var before := turns[..i];
    assert AllAccept(g, before) by { assert forall k :: 0 <= k < |before| ==> before[k] == turns[k]; }
    CursorMovesOn(g, before);
    FirstTakes(Played(g, before), turns[i]);
    ModTwice(g.next + i, |g.members|);
  }

  lemma ModTwice(x: nat, n: nat)
    requires n > 0
    ensures x % n % n == x % n
  {
    ModIs(x % n, n, 0, x % n);
  }

  /** How many of the deliveries go to `member`. */
  function Taken(g: Group, turns: seq<Turn>, member: SenderId): nat {
    if turns == [] then 0
    else Taken(g, turns[..|turns| - 1], member) + if Taker(g, turns, |turns| - 1) == Some(member) then 1 else 0
  }

  /** How far position `i` is ahead of where the next delivery starts looking. */
  function Ahead(g: Group, i: nat): int
    requires g.members != []
  {
    var at := g.next % |g.members|;
    if i >= at then i - at else i + |g.members| - at
  }

  /** The position `q` rounds and `r` places on. */
  lemma PositionOn(g: Group, x: nat, q: nat, r: nat, p: nat)
    requires p < |g.members| && r < |g.members| && x == q * |g.members| + r
    ensures (g.next + x) % |g.members| == p <==> Ahead(g, p) == r
  {
    var n := |g.members|;
    var k, at := g.next / n, g.next % n;
    assert g.next == n * k + at;
    assert n * (k + q) == n * k + q * n && n * (k + q + 1) == n * k + q * n + n;
    if at + r < n {
      ModIs(g.next + x, n, k + q, at + r);
    } else {
      ModIs(g.next + x, n, k + q + 1, at + r - n);
    }
  }

  lemma LastIsTakenBy(g: Group, turns: seq<Turn>, q: nat, r: nat, p: nat)
    requires p < |g.members| && Distinct(g.members) && AllAccept(g, turns)
    requires |turns| > 0 && |turns| - 1 == q * |g.members| + r && r < |g.members|
    ensures Taker(g, turns, |turns| - 1) == Some(g.members[p]) <==> Ahead(g, p) == r
  {
    var k := |turns| - 1;
    PositionOn(g, k, q, r, p);
    DeliveriesGoAround(g, turns, k);
  }

  /**
   * So the shares are fair: of `q * n + r` deliveries to `n` members, the `r` members from the cursor on,
   * counted around, get `q + 1` each, and the others `q`.
   */
  lemma {:induction false} RoundRobinIsFair(g: Group, turns: seq<Turn>, q: nat, r: nat, p: nat)
    requires p < |g.members| && Distinct(g.members) && AllAccept(g, turns)
    requires |turns| == q * |g.members| + r && r < |g.members|
    ensures Taken(g, turns, g.members[p]) == if Ahead(g, p) < r then q + 1 else q
    decreases |turns|
  {
    var n := |g.members|;
    if turns == [] {
      if q > 0 { Multiples(q, n); }
    } else {
      var init := turns[..|turns| - 1];
      assert AllAccept(g, init) by { assert forall i :: 0 <= i < |init| ==> init[i] == turns[i]; }
      var q0, r0 := StepBack(|turns|, n, q, r);
      RoundRobinIsFair(g, init, q0, r0, p);
      LastIsTakenBy(g, turns, q0, r0, p);
    }
  }

  /** Such a cursor is reachable: after one delivery to the first of two members, that member leaves. */
  lemma {:induction false} CursorCanBeOutOfRange(g: Group, queues: Queues, envelope: Envelope, a: SenderId, b: SenderId)
    requires a != b && g.members == [a, b] && g.next == 0 && Accepts(queues, a)
    ensures var after := Deliver(g, queues, envelope).group;
      after.next == 1 && after.(members := Without(after.members, a)).members == [b]
  {
    assert MemberAt(g, 0) == a;
    assert Without([a, b][1..], a) == [b] by { assert [a, b][1..] == [b] && [b][1..] == []; }
  }

  /** One delivery fewer is one full round fewer, or one member fewer in the last round. */
  lemma StepBack(total: nat, n: nat, q: nat, r: nat) returns (q0: nat, r0: nat)
    requires 0 < total == q * n + r && r < n
    ensures total - 1 == q0 * n + r0 && r0 < n && q0 + 1 <= total
    ensures if r0 + 1 < n then q == q0 && r == r0 + 1 else q == q0 + 1 && r == 0
  {
    Multiples(q, n);
    q0, r0 := if r > 0 then q else q - 1, if r > 0 then r - 1 else n - 1;
    Multiples(q0, n);
  }

  lemma Multiples(q: int, n: nat)
    requires n > 0
    ensures (q - 1) * n == q * n - n
    ensures q >= 0 ==> q * n >= q
    ensures q > 0 ==> q * n >= n
    ensures q == 0 ==> q * n == 0
  {
  }

  // ------------------------------------------------------------------ leases

  /** Elapsed time, which never runs backwards. */
  function Since(now: int, start: int): nat {
    if now >= start then now - start else 0
  }

  predicate Expired(g: Group, id: MessageId, now: int, timeout: nat) {
    id in g.leases && Since(now, g.leases[id].leasedAt) >= timeout
  }

  /**
   * A work-queue group with its books: which messages it ever accepted, which were acknowledged, which
   * were given up on, and how many copies of each were handed to members. The program keeps no books.
   */
  datatype Ledger = Ledger(
    group: Group,
    queues: Queues,
    accepted: set<MessageId>,
    acked: set<MessageId>,
    givenUp: map<MessageId, Envelope>,
    copies: map<MessageId, nat>)

  function Copies(l: Ledger, id: MessageId): nat {
    if id in l.copies then l.copies[id] else 0
  }

  /** Hands one copy to a member, if any accepts, and notes it. */
  function Hand(l: Ledger, envelope: Envelope): (Ledger, bool) {
    var o := Deliver(l.group, l.queues, envelope);
    if o.taker.None? then (l, false)
    else (l.(group := o.group, queues := o.queues, copies := l.copies[envelope.id := Copies(l, envelope.id) + 1]), true)
  }

  function Publish(l: Ledger, envelope: Envelope, now: int): Ledger {
    var (handed, ok) := Hand(l, envelope);
    if !ok then l
    else if !l.group.ackTracked then handed
    else handed.(accepted := l.accepted + {envelope.id},
                 group := handed.group.(leases := handed.group.leases[envelope.id := Lease(envelope, now, 0)]))
  }

  function Ack(l: Ledger, id: MessageId): Ledger {
    if id in l.group.leases
    then l.(group := l.group.(leases := l.group.leases - {id}), acked := l.acked + {id})
    else l
  }

  /** The sweep's treatment of one expired lease. */
  function SweepOne(l: Ledger, id: MessageId, now: int, maxAttempts: nat): Ledger {
    if id !in l.group.leases then l
    else
      var lease := l.group.leases[id];
      if lease.attempts >= maxAttempts then
        l.(group := l.group.(leases := l.group.leases - {id}), givenUp := l.givenUp[id := lease.envelope])
      else
        var (handed, ok) := Hand(l, lease.envelope);
        if !ok then l
        else handed.(group := handed.group.(leases :=
          handed.group.leases[id := Lease(lease.envelope, now, lease.attempts + 1)]))
  }

  /** A sweep visits the leases in `order`, one enumeration of those expired when it starts. */
  function SweepAll(l: Ledger, order: seq<MessageId>, now: int, maxAttempts: nat): Ledger {
    if order == [] then l
    else SweepOne(SweepAll(l, order[..|order| - 1], now, maxAttempts), order[|order| - 1], now, maxAttempts)
  }

  ghost predicate Enumerates(order: seq<MessageId>, g: Group, now: int, timeout: nat) {
    Distinct(order) && forall id :: id in order <==> Expired(g, id, now, timeout)
  }

  /** Everything that can happen to a group. `Interference` is any use of the members' queues by others. */
  datatype Event =
    | Published(envelope: Envelope, at: int)
    | Acked(id: MessageId)
    | Swept(at: int, order: seq<MessageId>)
    | Joined(member: SenderId)
    | Left(member: SenderId)
    | Interference(queues: Queues)

  function Without(members: seq<SenderId>, member: SenderId): seq<SenderId> {
    if members == [] then []
    else if members[0] == member then Without(members[1..], member)
    else [members[0]] + Without(members[1..], member)
  }

  function Next(l: Ledger, event: Event, maxAttempts: nat): Ledger {
    match event
    case Published(envelope, at) => Publish(l, envelope, at)
    case Acked(id) => Ack(l, id)
    case Swept(at, order) => SweepAll(l, order, at, maxAttempts)
    case Joined(member) => l.(group := l.group.(members := l.group.members + [member]))
    case Left(member) => l.(group := l.group.(members := Without(l.group.members, member)))
    case Interference(queues) => l.(queues := queues)
  }

  /** Message ids are distinct: no id the group accepted is published to it again. */
  ghost predicate Allowed(l: Ledger, event: Event) {
    event.Published? ==> event.envelope.id !in l.accepted
  }

  // -------------------------------------------------------------- accounting

  /** Each accepted message is in exactly one of leased, acknowledged and given up. */
  ghost predicate Partitioned(l: Ledger) {
    && l.accepted == l.group.leases.Keys + l.acked + l.givenUp.Keys
    && l.group.leases.Keys !! l.acked && l.group.leases.Keys !! l.givenUp.Keys && l.acked !! l.givenUp.Keys
  }

  /** Copies handed out are one more than the attempts made, and never more than one plus the limit. */
  ghost predicate Counted(l: Ledger, maxAttempts: nat) {
    && (forall id :: id in l.group.leases ==>
          && l.group.leases[id].envelope.id == id
          && l.group.leases[id].attempts <= maxAttempts
          && Copies(l, id) == 1 + l.group.leases[id].attempts)
    && (forall id :: id in l.acked ==> 1 <= Copies(l, id) <= 1 + maxAttempts)
    && (forall id :: id in l.givenUp ==> Copies(l, id) == 1 + maxAttempts && l.givenUp[id].id == id)
    && (forall id :: id !in l.accepted ==> Copies(l, id) == 0)
  }

  ghost predicate Balanced(l: Ledger, maxAttempts: nat) {
    l.group.ackTracked && Partitioned(l) && Counted(l, maxAttempts)
  }

  /** Handing a copy changes the group's cursor and its books, and nothing else about it. */
  lemma HandEffect(l: Ledger, envelope: Envelope)
    ensures var (handed, ok) := Hand(l, envelope);
      && (ok <==> exists m :: m in l.group.members && Accepts(l.queues, m))
      && (!ok ==> handed == l)
      && handed == l.(group := l.group.(next := handed.group.next), queues := handed.queues, copies := handed.copies)
      && (ok ==> forall id :: Copies(handed, id) == Copies(l, id) + if id == envelope.id then 1 else 0)
  {
    var _ := DeliverReachesOneMember(l.group, l.queues, envelope);
  }

  lemma PublishBalances(l: Ledger, envelope: Envelope, now: int, maxAttempts: nat)
    requires Balanced(l, maxAttempts) && envelope.id !in l.accepted
    ensures Balanced(Publish(l, envelope, now), maxAttempts)
  {
    HandEffect(l, envelope);
  }

  lemma AckBalances(l: Ledger, id: MessageId, maxAttempts: nat)
    requires Balanced(l, maxAttempts)
    ensures Balanced(Ack(l, id), maxAttempts)
  {
  }

  lemma RedeliveryBalances(l: Ledger, handed: Ledger, id: MessageId, now: int, maxAttempts: nat)
    requires Balanced(l, maxAttempts) && id in l.group.leases && l.group.leases[id].attempts < maxAttempts
    requires handed == l.(group := l.group.(next := handed.group.next), queues := handed.queues,
      copies := handed.copies)
    requires forall other :: Copies(handed, other) == Copies(l, other) + if other == id then 1 else 0
    ensures var lease := l.group.leases[id];
      Balanced(handed.(group := handed.group.(leases :=
        handed.group.leases[id := Lease(lease.envelope, now, lease.attempts + 1)])), maxAttempts)
  {
    var lease := l.group.leases[id];
    var after := handed.(group :=
      handed.group.(leases := handed.group.leases[id := Lease(lease.envelope, now, lease.attempts + 1)]));
    assert after.group.leases.Keys == l.group.leases.Keys;
    assert forall other :: Copies(after, other) == Copies(handed, other);
  }

  lemma SweepOneBalances(l: Ledger, id: MessageId, now: int, maxAttempts: nat)
    requires Balanced(l, maxAttempts)
    ensures Balanced(SweepOne(l, id, now, maxAttempts), maxAttempts)
  {
    if id in l.group.leases {
      var lease := l.group.leases[id];
      if lease.attempts < maxAttempts {
        HandEffect(l, lease.envelope);
        var (handed, ok) := Hand(l, lease.envelope);
        if ok { RedeliveryBalances(l, handed, id, now, maxAttempts); }
      }
    }
  }

  lemma {:induction false} SweepBalances(l: Ledger, order: seq<MessageId>, now: int, maxAttempts: nat)
    requires Balanced(l, maxAttempts)
    ensures Balanced(SweepAll(l, order, now, maxAttempts), maxAttempts)
  {
    if order != [] {
      SweepBalances(l, order[..|order| - 1], now, maxAttempts);
      SweepOneBalances(SweepAll(l, order[..|order| - 1], now, maxAttempts), order[|order| - 1], now, maxAttempts);
    }
  }

  lemma EventBalances(l: Ledger, event: Event, maxAttempts: nat)
    requires Balanced(l, maxAttempts) && Allowed(l, event)
    ensures Balanced(Next(l, event, maxAttempts), maxAttempts)
  {
    match event
    case Published(envelope, at) => PublishBalances(l, envelope, at, maxAttempts);
    case Acked(id) => AckBalances(l, id, maxAttempts);
    case Swept(at, order) => SweepBalances(l, order, at, maxAttempts);
    case Joined(_) =>
    case Left(_) =>
    case Interference(_) =>
  }

  function Execute(l: Ledger, run: seq<Event>, maxAttempts: nat): Ledger
    decreases |run|
  {
    if run == [] then l else Execute(Next(l, run[0], maxAttempts), run[1..], maxAttempts)
  }

  ghost predicate AllAllowed(l: Ledger, run: seq<Event>, maxAttempts: nat)
    decreases |run|
  {
    run != [] ==> Allowed(l, run[0]) && AllAllowed(Next(l, run[0], maxAttempts), run[1..], maxAttempts)
  }

  /** A group nobody has published to yet, created by an acknowledging subscriber. */
  function NewWorkQueue(members: seq<SenderId>, queues: Queues): Ledger {
    Ledger(Group(members, 0, true, map[]), queues, {}, {}, map[], map[])
  }

  /** The books balance in every run, through joins, leaves and any use of the queues by others. */
  lemma {:induction false} RunBalances(l: Ledger, run: seq<Event>, maxAttempts: nat)
    requires Balanced(l, maxAttempts) && AllAllowed(l, run, maxAttempts)
    ensures Balanced(Execute(l, run, maxAttempts), maxAttempts)
    decreases |run|
  {
    if run != [] {
      EventBalances(l, run[0], maxAttempts);
      RunBalances(Next(l, run[0], maxAttempts), run[1..], maxAttempts);
    }
  }

  lemma {:induction false} NewWorkQueueBalances(members: seq<SenderId>, queues: Queues, run: seq<Event>,
      maxAttempts: nat)
    requires AllAllowed(NewWorkQueue(members, queues), run, maxAttempts)
    ensures Balanced(Execute(NewWorkQueue(members, queues), run, maxAttempts), maxAttempts)
  {
    RunBalances(NewWorkQueue(members, queues), run, maxAttempts);
  }

  // --------------------------------------------------- one event, in full

  /**
   * Publishing: if no member accepts, nothing changes. Otherwise one member's queue gets the message at its
   * end, the one `first` places after the cursor, which moves on past it; and the message is leased from now
   * on with no redelivery made, if the group tracks acks.
   */
  lemma PublishEffect(l: Ledger, envelope: Envelope, now: int) returns (taker: SenderId, first: nat)
    ensures var after := Publish(l, envelope, now);
      if forall m :: m in l.group.members ==> !Accepts(l.queues, m) then after == l
      else
        && first < |l.group.members| && Accepts(l.queues, taker)
        && taker == MemberAt(l.group, first)
        && (forall k :: 0 <= k < first ==> !Accepts(l.queues, MemberAt(l.group, k)))
        && after.group.next == Position(Position(l.group.next, first, |l.group.members|), 1, |l.group.members|)
        && after.group.members == l.group.members && after.group.ackTracked == l.group.ackTracked
        && after.queues == l.queues[taker := l.queues[taker].(items := l.queues[taker].items + [envelope])]
        && after.copies == l.copies[envelope.id := Copies(l, envelope.id) + 1]
        && after.acked == l.acked && after.givenUp == l.givenUp
        && (if l.group.ackTracked
            then after.group.leases == l.group.leases[envelope.id := Lease(envelope, now, 0)]
                 && after.accepted == l.accepted + {envelope.id}
            else after.group.leases == l.group.leases && after.accepted == l.accepted)
  {
    first := DeliverReachesOneMember(l.group, l.queues, envelope);
    var o := Deliver(l.group, l.queues, envelope);
    taker := if o.taker.Some? then o.taker.value else 0;
  }

  /** Acknowledging settles that one lease, if there is one, and touches nothing else. */
  lemma AckEffect(l: Ledger, id: MessageId)
    ensures var after := Ack(l, id);
      && id !in after.group.leases && (id in l.group.leases ==> id in after.acked)
      && (forall other :: other != id ==> Untouched(l, after, other) && (other in after.acked <==> other in l.acked))
      && (id !in l.group.leases ==> after == l)
      && after.queues == l.queues && after.copies == l.copies && after.accepted == l.accepted
      && after.givenUp == l.givenUp && after.group.members == l.group.members && after.group.next == l.group.next
  {
  }

  /** A redelivery is made if any member accepts: one more copy, and the lease starts over. */
  lemma RedeliversIfAnyAccepts(l: Ledger, id: MessageId, now: int, maxAttempts: nat)
    requires id in l.group.leases && l.group.leases[id].attempts < maxAttempts && l.group.leases[id].envelope.id == id
    requires exists m :: m in l.group.members && Accepts(l.queues, m)
    ensures var after, lease := SweepOne(l, id, now, maxAttempts), l.group.leases[id];
      && after.group.leases == l.group.leases[id := Lease(lease.envelope, now, lease.attempts + 1)]
      && Copies(after, id) == Copies(l, id) + 1
  {
    HandEffect(l, l.group.leases[id].envelope);
  }

  /** `places` are where the members other than `member` are, in order, and `kept` are those members. */
  ghost predicate AllOthers(members: seq<SenderId>, member: SenderId, kept: seq<SenderId>, places: seq<nat>) {
    && |places| == |kept|
    && (forall k :: 0 <= k < |places| ==> places[k] < |members| && members[places[k]] == kept[k] != member)
    && (forall k, k' :: 0 <= k < k' < |places| ==> places[k] < places[k'])
    && (forall i: nat :: i < |members| && members[i] != member ==> i in places)
  }

  lemma OneMoreMember(members: seq<SenderId>, member: SenderId, kept: seq<SenderId>, places: seq<nat>, m: SenderId)
    requires AllOthers(members, member, kept, places)
    ensures m == member ==> AllOthers(members + [m], member, kept, places)
    ensures m != member ==> AllOthers(members + [m], member, kept + [m], places + [|members|])
  {
    var more := if m == member then places else places + [|members|];
    forall i: nat | i < |members| + 1 && (members + [m])[i] != member
      ensures i in more
    {
      if i < |members| {
        assert i in places;
      } else {
        assert more[|places|] == i;
      }
    }
  }

  lemma {:induction false} WithoutAppend(members: seq<SenderId>, member: SenderId, m: SenderId)
    ensures Without(members + [m], member) == Without(members, member) + if m == member then [] else [m]
  {
    if members == [] {
      assert [m][1..] == [];
    } else {
      assert (members + [m])[1..] == members[1..] + [m];
      WithoutAppend(members[1..], member, m);
    }
  }

  /** Who stays when one member leaves: all others, in their order. */
  lemma {:induction false} LeaveKeepsTheOthers(members: seq<SenderId>, member: SenderId) returns (places: seq<nat>)
    ensures AllOthers(members, member, Without(members, member), places)
    decreases |members|
  {
    places := [];
    if members != [] {
      var init, last := members[..|members| - 1], members[|members| - 1];
      assert members == init + [last];
      places := LeaveKeepsTheOthers(init, member);
      WithoutAppend(init, member, last);
      OneMoreMember(init, member, Without(init, member), places, last);
      if last != member { places := places + [|init|]; }
    }
  }

  // ------------------------------------------------------- settled for good

  lemma {:induction false} SweepLeavesSettled(l: Ledger, order: seq<MessageId>, id: MessageId, now: int,
      maxAttempts: nat)
    requires Balanced(l, maxAttempts) && id in l.acked
    ensures var after := SweepAll(l, order, now, maxAttempts);
      Balanced(after, maxAttempts) && after.acked == l.acked && Copies(after, id) == Copies(l, id)
  {
    if order != [] {
      var init, last := order[..|order| - 1], order[|order| - 1];
      SweepLeavesSettled(l, init, id, now, maxAttempts);
      var mid := SweepAll(l, init, now, maxAttempts);
      SweepOneBalances(mid, last, now, maxAttempts);
      if last in mid.group.leases { HandEffect(mid, mid.group.leases[last].envelope); }
    }
  }

  lemma EventLeavesSettled(l: Ledger, event: Event, id: MessageId, maxAttempts: nat)
    requires Balanced(l, maxAttempts) && Allowed(l, event) && id in l.acked
    ensures var after := Next(l, event, maxAttempts);
      id in after.acked && Copies(after, id) == Copies(l, id)
  {
    match event
    case Published(envelope, at) => HandEffect(l, envelope);
    case Acked(other) =>
    case Swept(at, order) => SweepLeavesSettled(l, order, id, at, maxAttempts);
    case Joined(_) =>
    case Left(_) =>
    case Interference(_) =>
  }

  lemma {:induction false} SettledStaysSettled(l: Ledger, run: seq<Event>, id: MessageId, maxAttempts: nat)
    requires Balanced(l, maxAttempts) && AllAllowed(l, run, maxAttempts) && id in l.acked
    ensures var after := Execute(l, run, maxAttempts);
      Balanced(after, maxAttempts) && id in after.acked && Copies(after, id) == Copies(l, id)
    decreases |run|
  {
    if run != [] {
      EventBalances(l, run[0], maxAttempts);
      EventLeavesSettled(l, run[0], id, maxAttempts);
      SettledStaysSettled(Next(l, run[0], maxAttempts), run[1..], id, maxAttempts);
    }
  }

  /**
   * An id acknowledged while leased is done with: whatever follows, it is never leased, handed out or given
   * up again.
   */
  lemma {:induction false} AckedNeverReappears(l: Ledger, id: MessageId, run: seq<Event>, maxAttempts: nat)
    requires Balanced(l, maxAttempts) && id in l.group.leases
    requires AllAllowed(l, [Acked(id)] + run, maxAttempts)
    ensures var after := Execute(l, [Acked(id)] + run, maxAttempts);
      id in after.acked && id !in after.group.leases && id !in after.givenUp && Copies(after, id) == Copies(l, id)
  {
    assert ([Acked(id)] + run)[1..] == run;
    EventBalances(l, Acked(id), maxAttempts);
    AckEffect(l, id);
    SettledStaysSettled(Next(l, Acked(id), maxAttempts), run, id, maxAttempts);
  }

  // ------------------------------------------------------------------- sweep

  /** What a sweep may do to one lease: give it up, redeliver it once, or leave it and its copies alone. */
  ghost predicate SweptAs(l: Ledger, after: Ledger, id: MessageId, now: int, maxAttempts: nat, due: bool)
    requires id in l.group.leases
  {
    var lease := l.group.leases[id];
    if due && lease.attempts >= maxAttempts then
      id !in after.group.leases && id in after.givenUp && after.givenUp[id] == lease.envelope
        && Copies(after, id) == Copies(l, id)
    else
      && id in after.group.leases
      && (if due && Copies(after, id) == Copies(l, id) + 1
          then after.group.leases[id] == Lease(lease.envelope, now, lease.attempts + 1)
          else Copies(after, id) == Copies(l, id) && after.group.leases[id] == lease)
  }

  predicate Untouched(l: Ledger, after: Ledger, id: MessageId) {
    && Copies(after, id) == Copies(l, id)
    && (id in after.group.leases <==> id in l.group.leases)
    && (id in l.group.leases ==> after.group.leases[id] == l.group.leases[id])
  }

  lemma SweepOneEffect(l: Ledger, mid: Ledger, last: MessageId, now: int, maxAttempts: nat)
    requires Balanced(mid, maxAttempts)
    requires last in l.group.leases ==> SweptAs(l, mid, last, now, maxAttempts, false)
    requires last !in l.group.leases ==> last !in mid.group.leases
    ensures var after := SweepOne(mid, last, now, maxAttempts);
      && (last in l.group.leases ==> SweptAs(l, after, last, now, maxAttempts, true))
      && (last in l.group.leases && l.group.leases[last].attempts >= maxAttempts ==>
         after.givenUp.Keys == mid.givenUp.Keys + {last})
      && (!(last in l.group.leases && l.group.leases[last].attempts >= maxAttempts) ==> after.givenUp == mid.givenUp)
      && (forall id :: id != last ==> Untouched(mid, after, id))
      && (forall id :: id in mid.givenUp && id != last ==> after.givenUp[id] == mid.givenUp[id])
      && after.acked == mid.acked && after.accepted == mid.accepted && after.group.members == mid.group.members
  {
    if last in mid.group.leases { HandEffect(mid, mid.group.leases[last].envelope); }
  }

  /** Given up before the sweep, or in it: visited with no attempts left. */
  predicate GivenUpBy(l: Ledger, order: seq<MessageId>, id: MessageId, maxAttempts: nat) {
    id in l.givenUp || (id in order && id in l.group.leases && l.group.leases[id].attempts >= maxAttempts)
  }

  lemma SweepOneMore(l: Ledger, mid: Ledger, after: Ledger, init: seq<MessageId>, last: MessageId, now: int,
      maxAttempts: nat)
    requires last !in init
    requires forall id :: id in l.group.leases ==> SweptAs(l, mid, id, now, maxAttempts, id in init)
    requires forall id :: id in mid.givenUp <==> GivenUpBy(l, init, id, maxAttempts)
    requires last in l.group.leases ==> SweptAs(l, after, last, now, maxAttempts, true)
    requires last in l.group.leases && l.group.leases[last].attempts >= maxAttempts ==>
      after.givenUp.Keys == mid.givenUp.Keys + {last}
    requires !(last in l.group.leases && l.group.leases[last].attempts >= maxAttempts) ==> after.givenUp == mid.givenUp
    requires forall id :: id != last ==> Untouched(mid, after, id)
    requires forall id :: id in mid.givenUp && id != last ==> after.givenUp[id] == mid.givenUp[id]
    ensures forall id :: id in l.group.leases ==> SweptAs(l, after, id, now, maxAttempts, id in init + [last])
    ensures forall id :: id in after.givenUp <==> GivenUpBy(l, init + [last], id, maxAttempts)
  {
    forall id | id in l.group.leases
      ensures SweptAs(l, after, id, now, maxAttempts, id in init + [last])
    {
      if id != last { assert Untouched(mid, after, id); }
    }
  }

  /**
   * The whole effect of a sweep, lease by lease. Which leases are given up depends only on which are
   * due and their attempts; whether a redelivery found a member is visible in the copies handed out.
   */
  lemma {:induction false} SweepEffect(l: Ledger, order: seq<MessageId>, now: int, maxAttempts: nat)
    requires Balanced(l, maxAttempts) && Distinct(order)
    ensures var after := SweepAll(l, order, now, maxAttempts);
      && (forall id :: id in l.group.leases ==> SweptAs(l, after, id, now, maxAttempts, id in order))
      && (forall id :: id in after.givenUp <==> GivenUpBy(l, order, id, maxAttempts))
      && after.acked == l.acked && after.accepted == l.accepted && after.group.members == l.group.members
  {
    if order != [] {
      var init, last := order[..|order| - 1], order[|order| - 1];
      assert order == init + [last];
      assert last !in init;
      SweepEffect(l, init, now, maxAttempts);
      SweepBalances(l, init, now, maxAttempts);
      var mid := SweepAll(l, init, now, maxAttempts);
      SweepOneEffect(l, mid, last, now, maxAttempts);
      SweepOneMore(l, mid, SweepOne(mid, last, now, maxAttempts), init, last, now, maxAttempts);
    }
  }

  /** The messages given up on do not depend on the order in which the map is traversed. */
  lemma {:induction false} GivenUpIsOrderIndependent(l: Ledger, order: seq<MessageId>, other: seq<MessageId>, now: int,
      timeout: nat, maxAttempts: nat)
    requires Balanced(l, maxAttempts)
    requires Enumerates(order, l.group, now, timeout) && Enumerates(other, l.group, now, timeout)
    ensures SweepAll(l, order, now, maxAttempts).givenUp.Keys == SweepAll(l, other, now, maxAttempts).givenUp.Keys
    ensures SweepAll(l, order, now, maxAttempts).givenUp.Keys ==
      l.givenUp.Keys + set id | id in l.group.leases && Expired(l.group, id, now, timeout)
        && l.group.leases[id].attempts >= maxAttempts
  {
    SweepEffect(l, order, now, maxAttempts);
    SweepEffect(l, other, now, maxAttempts);
  }

  /** A member with room for every lease due: one copy of each that has attempts left goes out, to somebody. */
  lemma {:induction false} RoomForAll(l: Ledger, order: seq<MessageId>, now: int, maxAttempts: nat, m: SenderId)
    requires Balanced(l, maxAttempts) && Distinct(order)
    requires m in l.group.members && m in l.queues && !l.queues[m].closed
    requires |l.queues[m].items| + |order| <= l.queues[m].capacity
    ensures var after := SweepAll(l, order, now, maxAttempts);
      && m in after.queues && !after.queues[m].closed && after.queues[m].capacity == l.queues[m].capacity
      && |after.queues[m].items| <= |l.queues[m].items| + |order|
      && forall id :: id in l.group.leases && id in order && l.group.leases[id].attempts < maxAttempts ==>
           && id in after.group.leases
           && after.group.leases[id] == Lease(l.group.leases[id].envelope, now, l.group.leases[id].attempts + 1)
  {
    if order != [] {
      var init, last := order[..|order| - 1], order[|order| - 1];
      assert order == init + [last] && last !in init;
      RoomForAll(l, init, now, maxAttempts, m);
      SweepEffect(l, init, now, maxAttempts);
      SweepBalances(l, init, now, maxAttempts);
      var mid := SweepAll(l, init, now, maxAttempts);
      assert Accepts(mid.queues, m);
      SweepOneWithRoom(l, mid, last, now, maxAttempts, m);
    }
  }

  lemma SweepOneWithRoom(l: Ledger, mid: Ledger, last: MessageId, now: int, maxAttempts: nat, m: SenderId)
    requires Balanced(mid, maxAttempts) && m in mid.group.members && Accepts(mid.queues, m)
    requires last in l.group.leases ==> SweptAs(l, mid, last, now, maxAttempts, false)
    ensures var after := SweepOne(mid, last, now, maxAttempts);
      && m in after.queues && !after.queues[m].closed && after.queues[m].capacity == mid.queues[m].capacity
      && |after.queues[m].items| <= |mid.queues[m].items| + 1
      && (forall id :: id != last ==> Untouched(mid, after, id))
      && (last in l.group.leases && l.group.leases[last].attempts < maxAttempts ==>
            && last in after.group.leases
            && after.group.leases[last] == Lease(l.group.leases[last].envelope, now, l.group.leases[last].attempts + 1))
  {
    if last in mid.group.leases {
      HandEffect(mid, mid.group.leases[last].envelope);
      var _ := DeliverReachesOneMember(mid.group, mid.queues, mid.group.leases[last].envelope);
    }
  }

  /** When no member accepts, a sweep changes no lease that has attempts left. */
  lemma {:induction false} NobodyAcceptsNothingChanges(l: Ledger, order: seq<MessageId>, now: int, maxAttempts: nat)
    requires Balanced(l, maxAttempts) && Distinct(order)
    requires forall m :: m in l.group.members ==> !Accepts(l.queues, m)
    ensures var after := SweepAll(l, order, now, maxAttempts);
      && after.queues == l.queues && after.copies == l.copies && after.group.members == l.group.members
      && forall id :: id in l.group.leases && (id !in order || l.group.leases[id].attempts < maxAttempts) ==>
           id in after.group.leases && after.group.leases[id] == l.group.leases[id]
  {
    SweepEffect(l, order, now, maxAttempts);
    NobodyAcceptsNobodyIsHanded(l, order, now, maxAttempts);
  }

  lemma {:induction false} NobodyAcceptsNobodyIsHanded(l: Ledger, order: seq<MessageId>, now: int, maxAttempts: nat)
    requires forall m :: m in l.group.members ==> !Accepts(l.queues, m)
    ensures var after := SweepAll(l, order, now, maxAttempts);
      after.queues == l.queues && after.copies == l.copies && after.group.members == l.group.members
  {
    if order != [] {
      NobodyAcceptsNobodyIsHanded(l, order[..|order| - 1], now, maxAttempts);
      var mid := SweepAll(l, order[..|order| - 1], now, maxAttempts);
      if order[|order| - 1] in mid.group.leases {
        HandEffect(mid, mid.group.leases[order[|order| - 1]].envelope);
      }
    }
  }
}
