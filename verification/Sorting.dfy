/** Sorting envelopes by message id, as every merged backlog is. */
module Sorting {
  import opened Common

  ghost predicate SortedById(s: seq<Envelope>) {
    forall i, j :: 0 <= i < j < |s| ==> s[i].id <= s[j].id
  }

  /** Sorted and without a repeated id. */
  ghost predicate StrictlySorted(s: seq<Envelope>) {
    forall i, j :: 0 <= i < j < |s| ==> s[i].id < s[j].id
  }

  ghost predicate UniqueIds(s: seq<Envelope>) {
    forall i, j :: 0 <= i < j < |s| ==> s[i].id != s[j].id
  }

  function InsertById(s: seq<Envelope>, envelope: Envelope): (r: seq<Envelope>)
    ensures multiset(r) == multiset(s) + multiset{envelope}
  {
    if s == [] then [envelope]
    else if s[|s| - 1].id <= envelope.id then s + [envelope]
    else
      assert s == s[..|s| - 1] + [s[|s| - 1]];
      InsertById(s[..|s| - 1], envelope) + [s[|s| - 1]]
  }

  /** A stable sort by id. */
  function SortById(s: seq<Envelope>): (r: seq<Envelope>)
    ensures multiset(r) == multiset(s)
  {
    if s == [] then []
    else
      assert s == s[..|s| - 1] + [s[|s| - 1]];
      InsertById(SortById(s[..|s| - 1]), s[|s| - 1])
  }

  lemma {:induction false} InsertKeepsSorted(s: seq<Envelope>, envelope: Envelope)
    requires SortedById(s)
    ensures SortedById(InsertById(s, envelope))
  {
    if s != [] && s[|s| - 1].id > envelope.id {
      var init := s[..|s| - 1];
      var inserted := InsertById(init, envelope);
      InsertKeepsSorted(init, envelope);
      forall i | 0 <= i < |inserted|
        ensures inserted[i].id <= s[|s| - 1].id
      {
        assert inserted[i] in multiset(inserted);
        assert inserted[i] == envelope || inserted[i] in init;
      }
    }
  }

  lemma {:induction false} SortSorts(s: seq<Envelope>)
    ensures SortedById(SortById(s))
    ensures forall e :: e in SortById(s) <==> e in s
    ensures |SortById(s)| == |s|
  {
    if s != [] {
      SortSorts(s[..|s| - 1]);
      InsertKeepsSorted(SortById(s[..|s| - 1]), s[|s| - 1]);
    }
    forall e
      ensures e in SortById(s) <==> e in s
    {
      assert e in SortById(s) <==> e in multiset(SortById(s));
    }
    assert |multiset(SortById(s))| == |multiset(s)|;
  }

  /** Sorting what has no repeated id makes it strictly sorted. */
  lemma {:induction false} SortUnique(s: seq<Envelope>)
    requires UniqueIds(s)
    ensures StrictlySorted(SortById(s))
    ensures forall e :: e in SortById(s) <==> e in s
  {
    SortSorts(s);
    var r := SortById(s);
    UniqueMultiset(s);
    forall i, j | 0 <= i < j < |r|
      ensures r[i].id < r[j].id
    {
      assert multiset(s)[r[i]] <= 1;
      if r[i].id == r[j].id {
        SameIdSame(s, r[i], r[j]);
        TwiceInMultiset(r, i, j);
      }
    }
  }

  lemma SameIdSame(s: seq<Envelope>, a: Envelope, b: Envelope)
    requires UniqueIds(s) && a in s && b in s && a.id == b.id
    ensures a == b
  {
  }

  lemma {:induction false} UniqueMultiset(s: seq<Envelope>)
    requires UniqueIds(s)
    ensures forall e :: multiset(s)[e] <= 1
  {
    if s != [] {
      var init, last := s[..|s| - 1], s[|s| - 1];
      UniqueMultiset(init);
      assert s == init + [last];
      assert last !in init;
      assert multiset(init)[last] == 0;
    }
  }

  lemma TwiceInMultiset(s: seq<Envelope>, i: nat, j: nat)
    requires i < j < |s| && s[i] == s[j]
    ensures multiset(s)[s[i]] >= 2
  {
    assert s == s[..j] + [s[j]] + s[j + 1..];
    assert s[i] in s[..j];
    assert multiset(s) == multiset(s[..j]) + multiset{s[j]} + multiset(s[j + 1..]);
  }
}
