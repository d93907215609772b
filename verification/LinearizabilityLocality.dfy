/** Locality: a history over many keys is linearizable exactly when the history of
    each key is.  The global order is built by giving every operation a point
    inside its interval that follows the order of its key, and merging by points. */
module LinearizabilityLocality {
  import opened Common
  import opened Linearizability

  ghost function OpsOfKey(h: seq<Event>, k: nat): set<Op> {
    set o | o in OpsOf(h) && o.key == k
  }

  ghost predicate KeyLinearizable(h: seq<Event>, k: nat) {
    exists order :: Linearizes(OpsOfKey(h, k), 0, order)
  }

  // ----- from the global order to each key -----------------------------------------

  lemma {:induction false} ProjectKeepsOrder(order: seq<Op>, k: nat)
    ensures forall o :: o in Project(order, k) <==> o in order && o.key == k
    ensures NoDup(order) ==> NoDup(Project(order, k))
    ensures RespectsRealTime(order) ==> RespectsRealTime(Project(order, k))
  {
    if order != [] {
      ProjectKeepsOrder(order[1..], k);
      assert order == [order[0]] + order[1..];
      if order[0].key == k {
        assert Project(order, k)[1..] == Project(order[1..], k);
      }
    }
  }

  lemma GlobalImpliesKey(h: seq<Event>, order: seq<Op>, k: nat)
    requires GloballyLinearizes(h, order)
    ensures Linearizes(OpsOfKey(h, k), 0, Project(order, k))
  {
    ProjectKeepsOrder(order, k);
  }

  // ----- linearization points ---------------------------------------------------------

  /** An operation with its linearization point. */
  datatype Stamped = Stamped(op: Op, point: int)

  function Ops(s: seq<Stamped>): (ops: seq<Op>)
    ensures |ops| == |s|
    ensures forall i :: 0 <= i < |s| ==> ops[i] == s[i].op
  {
    seq(|s|, i requires 0 <= i < |s| => s[i].op)
  }

  /** Each operation is stamped with the latest invocation up to it. */
  function Stamp(order: seq<Op>, m: int): (s: seq<Stamped>)
    ensures |s| == |order|
  {
    if order == [] then []
    else
      var point := Max(m, order[0].inv);
      [Stamped(order[0], point)] + Stamp(order[1..], point)
  }

  predicate Sorted(s: seq<Stamped>) {
    s == [] || ((forall x :: x in s[1..] ==> s[0].point <= x.point) && Sorted(s[1..]))
  }

  /** The point lies between invocation and response. */
  predicate Inside(x: Stamped) {
    x.op.inv <= x.point < x.op.res
  }

  predicate AllInside(s: seq<Stamped>) {
    forall x :: x in s ==> Inside(x)
  }

  /** Operations of one key whose invocations and responses never coincide. */
  ghost predicate ProperOps(ops: set<Op>) {
    forall x, y :: x in ops && y in ops ==> x.inv < x.res && x.inv != y.res
  }

  lemma {:induction false} StampKeepsOps(order: seq<Op>, m: int)
    ensures Ops(Stamp(order, m)) == order
  {
    if order != [] {
      StampKeepsOps(order[1..], Max(m, order[0].inv));
    }
  }

  lemma {:induction false} StampGoesForward(order: seq<Op>, m: int)
    ensures forall x :: x in Stamp(order, m) ==> m <= x.point
    ensures Sorted(Stamp(order, m))
  {
    if order != [] {
      var point := Max(m, order[0].inv);
      StampGoesForward(order[1..], point);
      assert Stamp(order, m)[1..] == Stamp(order[1..], point);
    }
  }

  lemma {:induction false} StampIsInside(order: seq<Op>, m: int)
    requires RespectsRealTime(order) && ProperOps(set o | o in order)
    requires forall o :: o in order ==> m < o.res
    ensures AllInside(Stamp(order, m))
  {
    if order != [] {
      var point, rest := Max(m, order[0].inv), order[1..];
      forall o | o in rest
        ensures point < o.res
      {
        assert o in (set o | o in order) && order[0] in (set o | o in order);
      }
      forall x, y | x in (set o | o in rest) && y in (set o | o in rest)
        ensures x.inv < x.res && x.inv != y.res
      {
        assert x in (set o | o in order) && y in (set o | o in order);
      }
      StampIsInside(rest, point);
      assert order[0] in (set o | o in order);
    }
  }

  // ----- merging -----------------------------------------------------------------------

  function Merge(a: seq<Stamped>, b: seq<Stamped>): seq<Stamped>
    decreases |a| + |b|
  {
    if a == [] then b
    else if b == [] then a
    else if a[0].point <= b[0].point then [a[0]] + Merge(a[1..], b)
    else [b[0]] + Merge(a, b[1..])
  }

  lemma {:induction false} MergeContains(a: seq<Stamped>, b: seq<Stamped>)
    ensures forall x :: x in Merge(a, b) <==> x in a || x in b
    decreases |a| + |b|
  {
    if a != [] && b != [] {
      if a[0].point <= b[0].point {
        MergeContains(a[1..], b);
        assert a == [a[0]] + a[1..];
      } else {
        MergeContains(a, b[1..]);
        assert b == [b[0]] + b[1..];
      }
    }
  }

  lemma {:induction false} MergeSorts(a: seq<Stamped>, b: seq<Stamped>)
    requires Sorted(a) && Sorted(b)
    ensures Sorted(Merge(a, b))
    decreases |a| + |b|
  {
    if a != [] && b != [] {
      if a[0].point <= b[0].point {
        MergeSorts(a[1..], b);
        MergeContains(a[1..], b);
        assert b == [b[0]] + b[1..];
        assert Merge(a, b)[1..] == Merge(a[1..], b);
      } else {
        MergeSorts(a, b[1..]);
        MergeContains(a, b[1..]);
        assert a == [a[0]] + a[1..];
        assert Merge(a, b)[1..] == Merge(a, b[1..]);
      }
    }
  }

  ghost predicate DisjointOps(a: seq<Stamped>, b: seq<Stamped>) {
    forall x, y :: x in a && y in b ==> x.op != y.op
  }

  lemma OpsMember(s: seq<Stamped>, o: Op)
    ensures o in Ops(s) <==> exists x :: x in s && x.op == o
  {
    if o in Ops(s) {
      var i :| 0 <= i < |s| && Ops(s)[i] == o;
      assert s[i] in s;
    }
    if x :| x in s && x.op == o {
      var i :| 0 <= i < |s| && s[i] == x;
      assert Ops(s)[i] == o;
    }
  }

  lemma OpsTail(x: Stamped, s: seq<Stamped>)
    ensures Ops([x] + s) == [x.op] + Ops(s)
    ensures Ops([x] + s)[1..] == Ops(s)
  {
    var a, b := Ops([x] + s), [x.op] + Ops(s);
    assert |a| == |b|;
    forall i | 0 <= i < |a|
      ensures a[i] == b[i]
    {
      assert ([x] + s)[i] == if i == 0 then x else s[i - 1];
    }
    assert b[1..] == Ops(s);
  }

  lemma {:induction false} MergeNoDup(a: seq<Stamped>, b: seq<Stamped>)
    requires NoDup(Ops(a)) && NoDup(Ops(b)) && DisjointOps(a, b)
    ensures NoDup(Ops(Merge(a, b)))
    decreases |a| + |b|
  {
    if a != [] && b != [] {
      assert a == [a[0]] + a[1..] && b == [b[0]] + b[1..];
      OpsTail(a[0], a[1..]);
      OpsTail(b[0], b[1..]);
      if a[0].point <= b[0].point {
        MergeNoDup(a[1..], b);
        MergeContains(a[1..], b);
        ConsNoDup(a[0], a[1..], b, Merge(a[1..], b));
      } else {
        MergeNoDup(a, b[1..]);
        MergeContains(a, b[1..]);
        ConsNoDup(b[0], b[1..], a, Merge(a, b[1..]));
      }
    }
  }

  lemma ConsNoDup(x: Stamped, s: seq<Stamped>, t: seq<Stamped>, merged: seq<Stamped>)
    requires x.op !in Ops(s) && NoDup(Ops(merged))
    requires forall y :: y in t ==> y.op != x.op
    requires forall y :: y in merged ==> y in s || y in t
    ensures NoDup(Ops([x] + merged))
  {
    OpsTail(x, merged);
    OpsMember(s, x.op);
    OpsMember(merged, x.op);
  }

  lemma {:induction false} ProjectForeign(s: seq<Stamped>, k: nat)
    requires forall x :: x in s ==> x.op.key != k
    ensures Project(Ops(s), k) == []
  {
    if s != [] {
      assert s == [s[0]] + s[1..];
      OpsTail(s[0], s[1..]);
      ProjectForeign(s[1..], k);
    }
  }

  /** Merging in foreign operations does not change what a key sees. */
  lemma {:induction false} MergeProjects(a: seq<Stamped>, b: seq<Stamped>, k: nat)
    requires forall x :: x in b ==> x.op.key != k
    ensures Project(Ops(Merge(a, b)), k) == Project(Ops(a), k)
    ensures Project(Ops(Merge(b, a)), k) == Project(Ops(a), k)
    decreases |a| + |b|
  {
    if a == [] {
      ProjectForeign(b, k);
    } else if b != [] {
      OpsTail(a[0], a[1..]);
      assert a == [a[0]] + a[1..];
      OpsTail(a[0], Merge(a[1..], b));
      OpsTail(a[0], Merge(b, a[1..]));
      OpsTail(b[0], Merge(a, b[1..]));
      OpsTail(b[0], Merge(b[1..], a));
      MergeProjects(a[1..], b, k);
      MergeProjects(a, b[1..], k);
    }
  }

  /** An order sorted by points inside the intervals respects real time. */
  lemma {:induction false} PointsRespectRealTime(s: seq<Stamped>)
    requires Sorted(s) && AllInside(s)
    ensures RespectsRealTime(Ops(s))
  {
    if s != [] {
      assert s == [s[0]] + s[1..];
      OpsTail(s[0], s[1..]);
      PointsRespectRealTime(s[1..]);
      forall o | o in Ops(s[1..])
        ensures !(o.res < s[0].op.inv)
      {
        OpsMember(s[1..], o);
        var x :| x in s[1..] && x.op == o;
        assert Inside(x) && Inside(s[0]);
      }
    }
  }

  // ----- from the keys to the global order ------------------------------------------------

  /** A stamped arrangement of the operations of the given keys. */
  ghost predicate Arrangement(h: seq<Event>, keys: set<nat>, s: seq<Stamped>) {
    && Sorted(s) && AllInside(s) && NoDup(Ops(s))
    && (forall o :: o in Ops(s) <==> o in OpsOf(h) && o.key in keys)
    && forall k :: Legal(0, Project(Ops(s), k))
  }

  lemma OpsAreProper(h: seq<Event>, k: nat)
    requires DistinctTimes(h)
    ensures ProperOps(OpsOfKey(h, k))
  {
    forall x, y | x in OpsOfKey(h, k) && y in OpsOfKey(h, k)
      ensures x.inv < x.res && x.inv != y.res
    {
      var e, f :| e in h && f in h && Answers(e, f) && x == OpOf(e, f);
      var e', f' :| e' in h && f' in h && Answers(e', f') && y == OpOf(e', f');
      var i :| 0 <= i < |h| && h[i] == e;
      var j :| 0 <= j < |h| && h[j] == f';
    }
  }

  lemma {:induction false} ProjectSame(order: seq<Op>, k: nat)
    requires forall o :: o in order ==> o.key == k
    ensures Project(order, k) == order
  {
    if order != [] {
      ProjectSame(order[1..], k);
    }
  }

  lemma {:induction false} ProjectOther(order: seq<Op>, k: nat)
    requires forall o :: o in order ==> o.key != k
    ensures Project(order, k) == []
  {
    if order != [] {
      ProjectOther(order[1..], k);
    }
  }

  lemma ArrangeKey(h: seq<Event>, k: nat) returns (s: seq<Stamped>)
    requires DistinctTimes(h) && KeyLinearizable(h, k)
    ensures Arrangement(h, {k}, s)
  {
    var order: seq<Op> :| Linearizes(OpsOfKey(h, k), 0, order);
    var m := if order == [] then 0 else order[0].inv;
    s := Stamp(order, m);
    StampKeepsOps(order, m);
    StampGoesForward(order, m);
    OpsAreProper(h, k);
    assert (set o | o in order) == OpsOfKey(h, k);
    if order != [] {
      assert order[0] in OpsOfKey(h, k);
      forall o | o in order
        ensures m < o.res
      {
        assert o in OpsOfKey(h, k);
        assert o == order[0] || o in order[1..];
      }
    }
    StampIsInside(order, m);
    forall j
      ensures Legal(0, Project(Ops(s), j))
    {
      if j == k { ProjectSame(order, k); } else { ProjectOther(order, j); }
    }
  }

  lemma CombineArrangements(h: seq<Event>, keys: set<nat>, k: nat, a: seq<Stamped>, b: seq<Stamped>)
    requires Arrangement(h, keys, a) && Arrangement(h, {k}, b) && k !in keys
    ensures Arrangement(h, keys + {k}, Merge(a, b))
  {
    var s := Merge(a, b);
    MergeSorts(a, b);
    MergeContains(a, b);
    forall x | x in a ensures x.op.key in keys { OpsMember(a, x.op); }
    forall x | x in b ensures x.op.key == k { OpsMember(b, x.op); }
    MergeNoDup(a, b);
    forall o
      ensures o in Ops(s) <==> o in OpsOf(h) && o.key in keys + {k}
    {
      OpsMember(a, o);
      OpsMember(b, o);
      OpsMember(s, o);
    }
    forall j
      ensures Legal(0, Project(Ops(s), j))
    {
      if j == k { MergeProjects(b, a, j); } else { MergeProjects(a, b, j); }
    }
  }

  lemma {:induction false} ArrangeKeys(h: seq<Event>, keys: set<nat>) returns (s: seq<Stamped>)
    requires DistinctTimes(h) && forall k :: k in keys ==> KeyLinearizable(h, k)
    ensures Arrangement(h, keys, s)
    decreases keys
  {
    if keys == {} {
      s := [];
    } else {
      var k :| k in keys;
      var a := ArrangeKeys(h, keys - {k});
      var b := ArrangeKey(h, k);
      s := Merge(a, b);
      CombineArrangements(h, keys - {k}, k, a, b);
      assert keys - {k} + {k} == keys;
    }
  }

  ghost function Keys(h: seq<Event>): set<nat> {
    set e | e in h :: e.key
  }

  /** LOCALITY (Herlihy and Wing). */
  lemma Locality(h: seq<Event>)
    requires DistinctTimes(h)
    ensures GloballyLinearizable(h) <==> forall k :: k in Keys(h) ==> KeyLinearizable(h, k)
  {
    if GloballyLinearizable(h) {
      var order :| GloballyLinearizes(h, order);
      forall k | k in Keys(h)
        ensures KeyLinearizable(h, k)
      {
        GlobalImpliesKey(h, order, k);
      }
    }
    if forall k :: k in Keys(h) ==> KeyLinearizable(h, k) {
      var s := ArrangeKeys(h, Keys(h));
      PointsRespectRealTime(s);
      assert forall o :: o in OpsOf(h) ==> o.key in Keys(h);
      assert GloballyLinearizes(h, Ops(s));
    }
  }
}
