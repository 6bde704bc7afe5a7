/** How many of a node's connections are interested in each filter, and when that begins and ends. */
module Interest {
  import opened Common

  /** The recorded counts; a filter nobody is interested in has no entry. */
  type Counts = map<TopicFilter, nat>

  ghost predicate Positive(counts: Counts) {
    forall f :: f in counts ==> counts[f] > 0
  }

  function Count(counts: Counts, filter: TopicFilter): nat {
    if filter in counts then counts[filter] else 0
  }

  /** One more interested connection, and whether it is the first. */
  function Gain(counts: Counts, filter: TopicFilter): (Counts, bool) {
    (counts[filter := Count(counts, filter) + 1], Count(counts, filter) == 0)
  }

  /** One fewer, and whether it was the last; nothing for a filter without interest. */
  function Lose(counts: Counts, filter: TopicFilter): (Counts, bool) {
    if Count(counts, filter) == 0 then (counts, false)
    else if counts[filter] == 1 then (counts - {filter}, true)
    else (counts[filter := counts[filter] - 1], false)
  }

  class Interest {
    var counts: Counts

    ghost predicate Valid()
      reads this
    {
      Positive(counts)
    }

    constructor ()
      ensures Valid() && counts == map[]
    {
      counts := map[];
    }

    /** Whether this is the filter's first interested connection. */
    method Subscribe(filter: TopicFilter) returns (first: bool)
      requires Valid()
      modifies this
      ensures Valid()
      ensures (counts, first) == Gain(old(counts), filter)
    {
      ghost var was := counts;
      if filter !in counts {
        counts := counts[filter := 0];
      }
      counts := counts[filter := counts[filter] + 1];
      first := counts[filter] == 1;
      assert counts == was[filter := Count(was, filter) + 1];
    }

    /** Whether this was the filter's last interested connection. */
    method Unsubscribe(filter: TopicFilter) returns (last: bool)
      requires Valid()
      modifies this
      ensures Valid()
      ensures (counts, last) == Lose(old(counts), filter)
    {
      ghost var was := counts;
      if filter !in counts || counts[filter] == 0 { return false; }
      counts := counts[filter := counts[filter] - 1];
      if counts[filter] == 0 {
        counts := counts - {filter};
        assert counts == was - {filter};
        return true;
      }
      return false;
    }

    /** Every filter with an interested connection, in some order, each once. */
    method Snapshot() returns (filters: seq<TopicFilter>)
      ensures forall f :: f in filters <==> f in counts
      ensures forall i, j :: 0 <= i < j < |filters| ==> filters[i] != filters[j]
    {
      filters := [];
      var remaining := counts.Keys;
      while remaining != {}
        invariant remaining <= counts.Keys
        invariant forall f :: f in filters <==> f in counts && f !in remaining
        invariant forall i, j :: 0 <= i < j < |filters| ==> filters[i] != filters[j]
      {
        var f :| f in remaining;
        filters := filters + [f];
        remaining := remaining - {f};
      }
    }
  }

  // -------------------------------------------------------------- transitions

  datatype Call = Subscribing(filter: TopicFilter) | Unsubscribing(filter: TopicFilter)

  function Answer(counts: Counts, call: Call): (Counts, bool) {
    match call
    case Subscribing(f) => Gain(counts, f)
    case Unsubscribing(f) => Lose(counts, f)
  }

  function Execute(counts: Counts, run: seq<Call>): Counts
    decreases |run|
  {
    if run == [] then counts else Execute(Answer(counts, run[0]).0, run[1..])
  }

  /** The calls of a run about `filter` that answered true, in order. */
  function Transitions(counts: Counts, run: seq<Call>, filter: TopicFilter): seq<Call>
    decreases |run|
  {
    if run == [] then []
    else
      var (after, answer) := Answer(counts, run[0]);
      var rest := Transitions(after, run[1..], filter);
      if run[0].filter == filter && answer then [run[0]] + rest else rest
  }

  /** Alternately calls to subscribe and to unsubscribe, the first being to subscribe iff `subscribe`. */
  predicate Alternate(calls: seq<Call>, subscribe: bool) {
    calls != [] ==> calls[0].Subscribing? == subscribe && Alternate(calls[1..], !subscribe)
  }

  /** A call that answers true changes whether its filter is of interest; any other call changes nothing there. */
  lemma AnswerEffect(counts: Counts, call: Call, filter: TopicFilter)
    requires Positive(counts)
    ensures var (after, answer) := Answer(counts, call);
      && Positive(after)
      && if call.filter == filter && answer
         then (filter in after <==> call.Subscribing?) && (filter in counts <==> call.Unsubscribing?)
         else filter in after <==> filter in counts
  {
  }

  lemma {:induction false} TransitionsAlternateFrom(counts: Counts, run: seq<Call>, filter: TopicFilter)
    requires Positive(counts)
    ensures Positive(Execute(counts, run))
    ensures Alternate(Transitions(counts, run, filter), filter !in counts)
    ensures var t := Transitions(counts, run, filter);
      filter in Execute(counts, run) <==> if t == [] then filter in counts else t[|t| - 1].Subscribing?
    decreases |run|
  {
    if run != [] {
      var (after, answer) := Answer(counts, run[0]);
      AnswerEffect(counts, run[0], filter);
      TransitionsAlternateFrom(after, run[1..], filter);
      var rest := Transitions(after, run[1..], filter);
      assert ([run[0]] + rest)[1..] == rest;
    }
  }

  /**
   * For any calls in any order, those that answer true for a filter strictly alternate, beginning with
   * a subscribe, and the last of them says whether the filter is of interest now.
   */
  lemma {:induction false} TransitionsAlternate(run: seq<Call>, filter: TopicFilter)
    ensures var t := Transitions(map[], run, filter);
      && Alternate(t, true)
      && (filter in Execute(map[], run) <==> t != [] && t[|t| - 1].Subscribing?)
  {
    TransitionsAlternateFrom(map[], run, filter);
  }
}
