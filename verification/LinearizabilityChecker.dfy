/** The checker over all keys: it groups the events by key, sorts each group by
    time and searches each group, in any order of the keys. */
module LinearizabilityChecker {
  import opened Linearizability
  import opened LinearizabilitySearch
  import opened LinearizabilityLocality

  /** The events of one key, in the order given. */
  function Group(h: seq<Event>, k: nat): (g: seq<Event>)
    ensures forall e :: e in g <==> e in h && e.key == k
  {
    if h == [] then []
    else Group(h[..|h| - 1], k) + if h[|h| - 1].key == k then [h[|h| - 1]] else []
  }

  /** Stable insertion: after the events that are not later. */
  function InsertByTime(e: Event, s: seq<Event>): (r: seq<Event>)
    ensures forall x :: x in r <==> x == e || x in s
  {
    if s == [] || s[|s| - 1].time <= e.time then s + [e]
    else InsertByTime(e, s[..|s| - 1]) + [s[|s| - 1]]
  }

  function SortByTime(h: seq<Event>): (r: seq<Event>)
    ensures forall x :: x in r <==> x in h
  {
    if h == [] then [] else InsertByTime(h[|h| - 1], SortByTime(h[..|h| - 1]))
  }

  lemma {:induction false} InsertKeepsSorted(e: Event, s: seq<Event>)
    requires SortedByTime(s) && forall x :: x in s ==> x.time != e.time
    ensures SortedByTime(InsertByTime(e, s))
  {
    if s != [] {
      var last := s[|s| - 1];
      assert last in s;
      if last.time > e.time {
        InsertKeepsSorted(e, s[..|s| - 1]);
        var r := InsertByTime(e, s[..|s| - 1]);
        forall x | x in r
          ensures x.time < last.time
        {
          if x != e {
            var i :| 0 <= i < |s| - 1 && s[i] == x;
          }
        }
      }
    }
  }

  lemma {:induction false} DistinctTimesSort(h: seq<Event>)
    requires forall i, j :: 0 <= i < j < |h| ==> h[i].time != h[j].time
    ensures SortedByTime(SortByTime(h))
  {
    if h != [] {
      var front := h[..|h| - 1];
      DistinctTimesSort(front);
      InsertKeepsSorted(h[|h| - 1], SortByTime(front));
    }
  }

  lemma {:induction false} GroupDistinct(h: seq<Event>, k: nat)
    requires DistinctTimes(h)
    ensures forall i, j :: 0 <= i < j < |Group(h, k)| ==> Group(h, k)[i].time != Group(h, k)[j].time
  {
    if h != [] {
      var front := h[..|h| - 1];
      GroupDistinct(front, k);
      var g := Group(front, k);
      forall i | 0 <= i < |g| && h[|h| - 1].key == k
        ensures g[i].time != h[|h| - 1].time
      {
        assert g[i] in g;
        var j :| 0 <= j < |front| && front[j] == g[i];
      }
    }
  }

  /** The sorted group of a key is a proper trace with exactly the key's operations. */
  lemma SortedGroup(h: seq<Event>, k: nat)
    requires Complete(h) && DistinctTimes(h)
    ensures KeyTrace(SortByTime(Group(h, k)))
    ensures OpsOf(SortByTime(Group(h, k))) == OpsOfKey(h, k)
  {
    var g := SortByTime(Group(h, k));
    GroupDistinct(h, k);
    DistinctTimesSort(Group(h, k));
    forall e | e in g && IsInvocation(e)
      ensures exists f :: f in g && Answers(e, f)
    {
      var f :| f in h && Answers(e, f);
      assert f in g;
    }
    forall f | f in g && !IsInvocation(f)
      ensures exists e :: e in g && Answers(e, f)
    {
      var e :| e in h && Answers(e, f);
      assert e in g;
    }
    forall o
      ensures o in OpsOf(g) <==> o in OpsOfKey(h, k)
    {
      if o in OpsOfKey(h, k) {
        var e, f :| e in h && f in h && Answers(e, f) && o == OpOf(e, f);
        assert e in g && f in g;
      }
    }
  }

  lemma GroupVerdict(h: seq<Event>, k: nat)
    requires Complete(h) && DistinctTimes(h)
    ensures KeyTrace(SortByTime(Group(h, k)))
    ensures Linearizable(SortByTime(Group(h, k)), 0) <==> KeyLinearizable(h, k)
  {
    hide OpsOf, Complete, DistinctTimes, KeyTrace, Linearizes, OpsOfKey, SortByTime, Group;
    SortedGroup(h, k);
  }

  /** The keys that occur, and the events of one key, found by scanning. */
  method GroupOf(h: seq<Event>, k: nat) returns (g: seq<Event>)
    ensures g == Group(h, k)
  {
    g := [];
    for i := 0 to |h|
      invariant g == Group(h[..i], k)
    {
      assert h[..i + 1][..i] == h[..i];
      if h[i].key == k {
        g := g + [h[i]];
      }
    }
    assert h[..|h|] == h;
  }

  /** On complete histories with distinct timestamps per key the checker answers
      true exactly when one total order over the operations of all keys respects
      global real time and every register's semantics. */
  method AllLinearizable(h: seq<Event>) returns (r: Verdict)
    ensures Complete(h) && DistinctTimes(h) ==> r == Answer(GloballyLinearizable(h))
  {
    hide OpsOf, Complete, DistinctTimes, KeyTrace, Linearizes, OpsOfKey, SortByTime, Group, GloballyLinearizes,
      Linearizable, KeyLinearizable;
    ghost var good := Complete(h) && DistinctTimes(h);
    if good {
      Locality(h);
    }
    var todo := set e | e in h :: e.key;
    while todo != {}
      invariant todo <= Keys(h)
      invariant good ==> forall k :: k in Keys(h) && k !in todo ==> KeyLinearizable(h, k)
      decreases todo
    {
      var k :| k in todo;
      var trace := GroupOf(h, k);
      var s := new ValueStack([0]);
      if good {
        GroupVerdict(h, k);
      }
      var verdict := IsLinearizable(SortByTime(trace), s);
      if verdict != Answer(true) {
        return verdict;
      }
      todo := todo - {k};
    }
    return Answer(true);
  }
}
