/** Duplicate detection: a bounded window of recently seen message ids. */
module Dedup {
  import opened Common
  import opened Sequences

  /** The window as a value: everything ever accepted, of which the newest `capacity` ids are remembered. */
  datatype Window = Window(capacity: nat, accepted: seq<MessageId>) {

    predicate Remembers(id: MessageId) {
      id in Last(accepted, capacity)
    }

    function Record(id: MessageId): Window {
      if Remembers(id) then this else this.(accepted := accepted + [id])
    }
  }

  class SeenIds {
    const capacity: nat
    var order: seq<MessageId>
    var ids: set<MessageId>
    ghost var accepted: seq<MessageId>

    ghost predicate Valid()
      reads this
    {
      && order == Last(accepted, capacity)
      && ids == Elements(order)
      && Distinct(order)
    }

    ghost function State(): Window
      reads this
    {
      Window(capacity, accepted)
    }

    constructor (capacity: nat)
      ensures Valid() && State() == Window(capacity, [])
    {
      this.capacity := capacity;
      order, ids, accepted := [], {}, [];
    }

    /** Whether `id` is not among the last `capacity` accepted ids; if so, it is accepted. */
    method Record(id: MessageId) returns (isNew: bool)
      requires Valid()
      modifies this
      ensures Valid()
      ensures isNew <==> !old(State()).Remembers(id)
      ensures State() == old(State()).Record(id)
    {
      if id in ids {
        assert id in order;
        return false;
      }
      LastAppend(accepted, id, capacity);
      DistinctAppend(order, id);
      accepted := accepted + [id];
      ids := ids + {id};
      order := order + [id];
      if |order| > capacity {
        DistinctTail(order);
        var oldest := order[0];
        order := order[1..];
        ids := ids - {oldest};
      }
      return true;
    }
  }

  // -------------------------------------------------------------------- runs

  function RecordAll(w: Window, run: seq<MessageId>): Window
    decreases |run|
  {
    if run == [] then w else RecordAll(w.Record(run[0]), run[1..])
  }

  /** The window has never let an id in twice, and has let in nothing but `universe`. */
  ghost predicate NoRepeats(w: Window, universe: set<MessageId>) {
    && Distinct(w.accepted)
    && Elements(w.accepted) <= universe
    && |universe| <= w.capacity
  }

  /** While no more ids than the capacity are in play, remembering is the same as having accepted. */
  lemma WindowIsExact(w: Window, universe: set<MessageId>, id: MessageId)
    requires NoRepeats(w, universe)
    ensures w.Remembers(id) <==> id in w.accepted
  {
    DistinctSize(w.accepted);
    SubsetSize(Elements(w.accepted), universe);
  }

  lemma RecordKeepsNoRepeats(w: Window, universe: set<MessageId>, id: MessageId)
    requires NoRepeats(w, universe) && id in universe
    ensures NoRepeats(w.Record(id), universe)
    ensures Elements(w.Record(id).accepted) == Elements(w.accepted) + {id}
  {
    WindowIsExact(w, universe, id);
  }

  /** Any run over at most `capacity` distinct ids accepts each of them exactly once. */
  lemma {:induction false} EachIdAcceptedOnce(w: Window, universe: set<MessageId>, run: seq<MessageId>)
    requires NoRepeats(w, universe) && Elements(run) <= universe
    ensures NoRepeats(RecordAll(w, run), universe)
    ensures Elements(RecordAll(w, run).accepted) == Elements(w.accepted) + Elements(run)
    decreases |run|
  {
    if run != [] {
      RecordKeepsNoRepeats(w, universe, run[0]);
      assert run == [run[0]] + run[1..];
      EachIdAcceptedOnce(w.Record(run[0]), universe, run[1..]);
    }
  }

  /** One id more than the capacity is enough to accept a repeat: the bound above cannot be relaxed. */
  lemma {:induction false} OverflowAcceptsARepeat(w: Window, run: seq<MessageId>)
    requires w.accepted == [] && Distinct(run) && |run| == w.capacity + 1
    ensures RecordAll(w, run + [run[0]]).accepted == run + [run[0]]
  {
    DistinctAllAccepted(w, run);
    RecordAllAppend(w, run, run[0]);
    var full := RecordAll(w, run);
    assert full.accepted == run;
    assert Last(run, w.capacity) == run[1..];
    assert !full.Remembers(run[0]);
  }

  lemma {:induction false} RecordAllAppend(w: Window, run: seq<MessageId>, id: MessageId)
    ensures RecordAll(w, run + [id]) == RecordAll(w, run).Record(id)
    ensures RecordAll(w, run).capacity == w.capacity
    decreases |run|
  {
    if run == [] {
      assert ([id])[1..] == [];
    } else {
      assert (run + [id])[1..] == run[1..] + [id];
      RecordAllAppend(w.Record(run[0]), run[1..], id);
    }
  }

  lemma {:induction false} DistinctAllAccepted(w: Window, run: seq<MessageId>)
    requires Distinct(w.accepted + run)
    ensures RecordAll(w, run).accepted == w.accepted + run
    ensures RecordAll(w, run).capacity == w.capacity
    decreases |run|
  {
    if run != [] {
      assert w.accepted + run == (w.accepted + [run[0]]) + run[1..];
      assert run[0] !in w.accepted by {
        var whole := w.accepted + run;
        assert forall i :: 0 <= i < |w.accepted| ==> whole[i] == w.accepted[i] && whole[i] != whole[|w.accepted|];
      }
      DistinctAllAccepted(w.Record(run[0]), run[1..]);
    }
  }
}
