/** A consumer group as an object, delivering to its members' queues in place. */
module GroupMembers {
  import opened Common
  import opened Sequences
  import opened Groups
  import opened Sorting

  /** The bounded outgoing queues of all connections. */
  class Outgoing {
    var queues: Queues

    method TrySend(member: SenderId, envelope: Envelope) returns (ok: bool)
      modifies this
      ensures ok <==> Accepts(old(queues), member)
      ensures queues == if ok then Enqueue(old(queues), member, envelope) else old(queues)
      ensures ok <==> member in old(queues) && var q := old(queues)[member]; !q.closed && |q.items| < q.capacity
      ensures ok ==> queues[member].items == old(queues)[member].items + [envelope]
    {
      ok := member in queues && !queues[member].closed && |queues[member].items| < queues[member].capacity;
      if ok {
        queues := queues[member := queues[member].(items := queues[member].items + [envelope])];
      }
    }
  }

  class ConsumerGroup {
    const ackTracked: bool
    const outgoing: Outgoing
    var members: seq<SenderId>
    var next: nat
    var leases: map<MessageId, Lease>
    ghost var accepted: set<MessageId>
    ghost var acked: set<MessageId>
    ghost var givenUp: map<MessageId, Envelope>
    ghost var copies: map<MessageId, nat>

    ghost function State(): Group
      reads this
    {
      Group(members, next, ackTracked, leases)
    }

    ghost function Books(): Ledger
      reads this, outgoing
    {
      Ledger(State(), outgoing.queues, accepted, acked, givenUp, copies)
    }

    constructor (ackTracked: bool, outgoing: Outgoing)
      ensures this.outgoing == outgoing
      ensures State() == Group([], 0, ackTracked, map[])
      ensures ackTracked ==> Books() == NewWorkQueue([], outgoing.queues)
    {
      this.ackTracked, this.outgoing := ackTracked, outgoing;
      members, next, leases := [], 0, map[];
      accepted, acked, givenUp, copies := {}, {}, map[], map[];
    }

    method Join(member: SenderId)
      modifies this
      ensures forall max: nat :: Books() == Groups.Next(old(Books()), Joined(member), max)
      ensures State() == old(State()).(members := old(members) + [member])
    {
      members := members + [member];
    }

    /** Removes every entry of `member`; the cursor stays where it is. */
    method Leave(member: SenderId)
      modifies this
      ensures forall max: nat :: Books() == Groups.Next(old(Books()), Left(member), max)
      ensures State() == old(State()).(members := members)
      ensures exists places :: AllOthers(old(members), member, members, places)
    {
      ghost var places := LeaveKeepsTheOthers(members, member);
      Retain(member);
    }

    method Retain(member: SenderId)
      modifies `members
      ensures members == Without(old(members), member)
    {
      var kept: seq<SenderId> := [];
      for i := 0 to |members|
        invariant members == old(members)
        invariant kept + Without(members[i..], member) == Without(members, member)
      {
        assert members[i..] == [members[i]] + members[i + 1..];
        if members[i] != member { kept := kept + [members[i]]; }
      }
      assert kept + Without([], member) == kept;
      members := kept;
    }

    /** Offers the envelope to each member in turn from the cursor on, until one takes it. */
    method DeliverTo(envelope: Envelope) returns (ok: bool)
      modifies this, outgoing
      ensures (Books(), ok) == Hand(old(Books()), envelope)
    {
      var len := |members|;
      if len == 0 { return false; }
      ghost var g, queues := State(), outgoing.queues;
      for offset := 0 to len
        invariant State() == g && outgoing.queues == queues && unchanged(this)
        invariant forall k :: 0 <= k < offset ==> !Accepts(queues, MemberAt(g, k))
      {
        var i := Position(next, offset, len);
        var sent := outgoing.TrySend(members[i], envelope);
        if sent {
          DeliverIs(g, queues, offset, envelope);
          next := Position(i, 1, len);
          copies := copies[envelope.id := (if envelope.id in copies then copies[envelope.id] else 0) + 1];
          return true;
        }
      }
      DeliverIs(g, queues, len, envelope);
      return false;
    }

    /** The group's part in publishing a message that its filter matches. */
    method Publish(envelope: Envelope, now: int) returns (ok: bool)
      modifies this, outgoing
      ensures Books() == Groups.Publish(old(Books()), envelope, now)
      ensures ok <==> exists m :: m in old(members) && Accepts(old(outgoing.queues), m)
    {
      HandEffect(Books(), envelope);
      ok := DeliverTo(envelope);
      if ok && ackTracked {
        leases := leases[envelope.id := Lease(envelope, now, 0)];
        accepted := accepted + {envelope.id};
      }
    }

    method Acknowledge(id: MessageId)
      modifies this
      ensures Books() == Ack(old(Books()), id)
      ensures State() == old(State()).(leases := old(leases) - {id})
      ensures acked == if id in old(leases) then old(acked) + {id} else old(acked)
    {
      if id in leases {
        leases := leases - {id};
        acked := acked + {id};
      }
    }

    /** Redelivers or gives up every lease older than `timeout`, in whatever order the map yields them. */
    method Sweep(now: int, timeout: nat, maxAttempts: nat) returns (gaveUp: seq<Envelope>, ghost order: seq<MessageId>)
      requires Balanced(Books(), maxAttempts)
      modifies this, outgoing
      ensures Balanced(Books(), maxAttempts)
      ensures Enumerates(order, old(State()), now, timeout)
      ensures Books() == SweepAll(old(Books()), order, now, maxAttempts)
      ensures forall e :: e in gaveUp <==>
        Expired(old(State()), e.id, now, timeout) && GivesUp(old(State()), e, maxAttempts)
      ensures Settles(old(leases), leases, gaveUp, now, timeout, maxAttempts)
    {
      ghost var was := Books();
      var expired := set id | id in leases && Since(now, leases[id].leasedAt) >= timeout;
      gaveUp, order := [], [];
      SweepBalances(was, order, now, maxAttempts);
      while expired != {}
        invariant Elements(order) !! expired && Distinct(order)
        invariant forall id :: id in order || id in expired <==> Expired(was.group, id, now, timeout)
        invariant Books() == SweepAll(was, order, now, maxAttempts)
        invariant AreGivenUp(was.group, order, gaveUp, maxAttempts)
        decreases expired
      {
        var id :| id in expired;
        expired := expired - {id};
        NotYetVisited(was, order, id, now, maxAttempts);
        var given := Reclaim(id, now, maxAttempts);
        OneMoreGivenUp(was.group, order, gaveUp, id, maxAttempts);
        if given.Some? { gaveUp := gaveUp + [given.value]; }
        assert (order + [id])[..|order|] == order;
        DistinctAppend(order, id);
        order := order + [id];
      }
      SweepBalances(was, order, now, maxAttempts);
      SweepSettles(was, order, gaveUp, now, timeout, maxAttempts);
    }

    /** One expired lease: give it up, or hand its envelope out again. */
    method Reclaim(id: MessageId, now: int, maxAttempts: nat) returns (given: Option<Envelope>)
      requires id in leases
      modifies this, outgoing
      ensures Books() == SweepOne(old(Books()), id, now, maxAttempts)
      ensures given == if old(leases)[id].attempts >= maxAttempts then Some(old(leases)[id].envelope) else None
    {
      var lease := leases[id];
      if lease.attempts >= maxAttempts {
        givenUp := givenUp[id := lease.envelope];
        leases := leases - {id};
        return Some(lease.envelope);
      }
      HandEffect(Books(), lease.envelope);
      var ok := DeliverTo(lease.envelope);
      if ok {
        leases := leases[id := Lease(lease.envelope, now, lease.attempts + 1)];
      }
      return None;
    }
  }

  /** Elapsed time is never negative, so that everything is overdue without a timeout. */
  predicate Overdue(lease: Lease, now: int, timeout: nat) {
    timeout == 0 || now - lease.leasedAt >= timeout
  }

  /** What a sweep answers and leaves leased: each overdue lease given up, handed out again, or left to wait. */
  ghost predicate Settles(before: map<MessageId, Lease>, after: map<MessageId, Lease>, gaveUp: seq<Envelope>,
      now: int, timeout: nat, maxAttempts: nat) {
    && UniqueIds(gaveUp)
    && (forall e :: e in gaveUp <==>
          && e.id in before && before[e.id].envelope == e
          && Overdue(before[e.id], now, timeout) && before[e.id].attempts >= maxAttempts)
    && (forall id :: id in before ==>
          if Overdue(before[id], now, timeout) && before[id].attempts >= maxAttempts then id !in after
          else
            && id in after
            && (after[id] == before[id] || (Overdue(before[id], now, timeout) &&
                  after[id] == Lease(before[id].envelope, now, before[id].attempts + 1))))
  }

  /** The envelopes given up of the leases in `order`, each once. */
  ghost predicate AreGivenUp(g: Group, order: seq<MessageId>, gaveUp: seq<Envelope>, maxAttempts: nat) {
    UniqueIds(gaveUp) && forall e :: e in gaveUp <==> e.id in order && GivesUp(g, e, maxAttempts)
  }

  lemma OneMoreGivenUp(g: Group, order: seq<MessageId>, gaveUp: seq<Envelope>, id: MessageId, maxAttempts: nat)
    requires AreGivenUp(g, order, gaveUp, maxAttempts) && id !in order && id in g.leases
    requires g.leases[id].envelope.id == id
    ensures AreGivenUp(g, order + [id],
      if g.leases[id].attempts >= maxAttempts then gaveUp + [g.leases[id].envelope] else gaveUp, maxAttempts)
  {
    assert forall i :: 0 <= i < |gaveUp| ==> gaveUp[i] in gaveUp;
  }

  lemma {:induction false} SweepSettles(l: Ledger, order: seq<MessageId>, gaveUp: seq<Envelope>, now: int, timeout: nat,
      maxAttempts: nat)
    requires Balanced(l, maxAttempts) && Enumerates(order, l.group, now, timeout)
    requires AreGivenUp(l.group, order, gaveUp, maxAttempts)
    ensures Settles(l.group.leases, SweepAll(l, order, now, maxAttempts).group.leases,
                    gaveUp, now, timeout, maxAttempts)
  {
    SweepEffect(l, order, now, maxAttempts);
    var after := SweepAll(l, order, now, maxAttempts);
    forall id | id in l.group.leases
      ensures id in order <==> Overdue(l.group.leases[id], now, timeout)
      ensures SweptAs(l, after, id, now, maxAttempts, id in order)
    {
    }
  }

  predicate GivesUp(g: Group, e: Envelope, maxAttempts: nat) {
    e.id in g.leases && g.leases[e.id].attempts >= maxAttempts && g.leases[e.id].envelope == e
  }

  /** A sweep leaves the leases it has not come to yet as they were. */
  lemma {:induction false} NotYetVisited(l: Ledger, order: seq<MessageId>, id: MessageId, now: int, maxAttempts: nat)
    requires Balanced(l, maxAttempts) && Distinct(order) && id in l.group.leases && id !in order
    ensures var after := SweepAll(l, order, now, maxAttempts);
      id in after.group.leases && after.group.leases[id] == l.group.leases[id] && l.group.leases[id].envelope.id == id
  {
    SweepEffect(l, order, now, maxAttempts);
    assert SweptAs(l, SweepAll(l, order, now, maxAttempts), id, now, maxAttempts, false);
  }

  lemma DeliverIs(g: Group, queues: Queues, first: nat, envelope: Envelope)
    requires g.members != [] && first <= |g.members|
    requires first < |g.members| ==> Accepts(queues, g.members[Position(g.next, first, |g.members|)])
    requires forall k :: 0 <= k < first ==> !Accepts(queues, MemberAt(g, k))
    ensures Deliver(g, queues, envelope) ==
      if first == |g.members| then Outcome(g, queues, None)
      else
        var i := Position(g.next, first, |g.members|);
        Outcome(g.(next := Position(i, 1, |g.members|)), Enqueue(queues, g.members[i], envelope), Some(g.members[i]))
  {
    FirstIs(g, queues, first);
  }

  lemma {:induction false} FirstIs(g: Group, queues: Queues, first: nat)
    requires first <= |g.members|
    requires first < |g.members| ==> Accepts(queues, MemberAt(g, first))
    requires forall k :: 0 <= k < first ==> !Accepts(queues, MemberAt(g, k))
    ensures FirstAccepting(g, queues, 0) == first
  {
  }
}
