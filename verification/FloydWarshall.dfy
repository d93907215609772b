/** All-pairs shortest paths: the in-place triple loop computes, for every pair of
    nodes, the least weight over all paths between them. */
module FloydWarshall {
  /** Non-negative weights and infinity. */
  datatype Weight = Fin(n: nat) | Inf

  function Add(a: Weight, b: Weight): Weight {
    if a.Fin? && b.Fin? then Fin(a.n + b.n) else Inf
  }

  predicate Leq(a: Weight, b: Weight) {
    b.Inf? || (a.Fin? && a.n <= b.n)
  }

  function Least(a: Weight, b: Weight): Weight {
    if Leq(a, b) then a else b
  }

  type Matrix = seq<seq<Weight>>

  predicate Square(m: Matrix, n: nat) {
    |m| == n && forall i :: 0 <= i < n ==> |m[i]| == n
  }

  // ----- paths -----------------------------------------------------------------

  predicate Nodes(n: nat, p: seq<nat>) {
    forall x :: 0 <= x < |p| ==> p[x] < n
  }

  /** A path visits nodes of the graph; it has at least one edge. */
  predicate IsPath(n: nat, p: seq<nat>, i: nat, j: nat) {
    |p| >= 2 && p[0] == i && p[|p| - 1] == j && Nodes(n, p)
  }

  function PathWeight(m: Matrix, n: nat, p: seq<nat>): Weight
    requires Square(m, n) && Nodes(n, p)
  {
    if |p| < 2 then Fin(0) else Add(m[p[0]][p[1]], PathWeight(m, n, p[1..]))
  }

  /** All nodes strictly inside the path are below `k`. */
  predicate InnerBelow(p: seq<nat>, k: nat) {
    forall x :: 0 < x < |p| - 1 ==> p[x] < k
  }

  /** `w` is the least weight of a path from `i` to `j` through nodes below `k`. */
  ghost predicate IsShortest(m: Matrix, n: nat, k: nat, i: nat, j: nat, w: Weight)
    requires Square(m, n)
  {
    && (exists p :: IsPath(n, p, i, j) && InnerBelow(p, k) && PathWeight(m, n, p) == w)
    && (forall p :: IsPath(n, p, i, j) && InnerBelow(p, k) ==> Leq(w, PathWeight(m, n, p)))
  }

  // ----- the computation on values ------------------------------------------------

  function Relaxed(m: Matrix, n: nat, k: nat, i: nat, j: nat): Weight
    requires Square(m, n) && k < n && i < n && j < n
  {
    Least(m[i][j], Add(m[i][k], m[k][j]))
  }

  function Relax(m: Matrix, n: nat, k: nat): (r: Matrix)
    requires Square(m, n) && k < n
    ensures Square(r, n)
    ensures forall i, j :: 0 <= i < n && 0 <= j < n ==> r[i][j] == Relaxed(m, n, k, i, j)
  {
    seq(n, i requires 0 <= i < n => seq(n, j requires 0 <= j < n => Relaxed(m, n, k, i, j)))
  }

  /** The matrix after admitting the nodes below `k` as intermediate nodes. */
  function Admit(m: Matrix, n: nat, k: nat): (r: Matrix)
    requires Square(m, n) && k <= n
    ensures Square(r, n)
  {
    if k == 0 then m else Relax(Admit(m, n, k - 1), n, k - 1)
  }

  // ----- every entry is a shortest path ------------------------------------------

  lemma AddAssociates(a: Weight, b: Weight, c: Weight)
    ensures Add(a, Add(b, c)) == Add(Add(a, b), c)
  {
  }

  lemma UnfoldWeight(m: Matrix, n: nat, p: seq<nat>)
    requires Square(m, n) && Nodes(n, p) && |p| >= 2
    ensures PathWeight(m, n, p) == Add(m[p[0]][p[1]], PathWeight(m, n, p[1..]))
  {
  }

  lemma {:induction false} JoinWeights(m: Matrix, n: nat, p: seq<nat>, q: seq<nat>)
    requires Square(m, n) && |p| >= 1 && |q| >= 1 && p[|p| - 1] == q[0]
    requires Nodes(n, p) && Nodes(n, q)
    ensures Nodes(n, p + q[1..])
    ensures PathWeight(m, n, p + q[1..]) == Add(PathWeight(m, n, p), PathWeight(m, n, q))
  {
    var r := p + q[1..];
    if |p| == 1 {
      assert r == q;
    } else {
      JoinWeights(m, n, p[1..], q);
      assert r[1..] == p[1..] + q[1..];
      assert r[0] == p[0] && r[1] == p[1];
      UnfoldWeight(m, n, p);
      UnfoldWeight(m, n, r);
      hide PathWeight;
      AddAssociates(m[p[0]][p[1]], PathWeight(m, n, p[1..]), PathWeight(m, n, q));
    }
  }

  /** Cutting a path at an inner node. */
  lemma CutWeights(m: Matrix, n: nat, p: seq<nat>, x: nat)
    requires Square(m, n) && x < |p| && Nodes(n, p)
    ensures Nodes(n, p[..x + 1]) && Nodes(n, p[x..])
    ensures PathWeight(m, n, p) == Add(PathWeight(m, n, p[..x + 1]), PathWeight(m, n, p[x..]))
  {
    assert p == p[..x + 1] + p[x..][1..];
    JoinWeights(m, n, p[..x + 1], p[x..]);
  }

  lemma DirectEdge(m: Matrix, n: nat, i: nat, j: nat)
    requires Square(m, n) && i < n && j < n
    ensures IsShortest(m, n, 0, i, j, m[i][j])
  {
    var e := [i, j];
    assert e[1..] == [j];
    assert PathWeight(m, n, e) == Add(m[i][j], Fin(0));
    forall p | IsPath(n, p, i, j) && InnerBelow(p, 0)
      ensures Leq(m[i][j], PathWeight(m, n, p))
    {
      assert p[|p| - 2] >= 0;
      assert p == e;
    }
  }

  /** The first inner occurrence of `k`. */
  lemma FirstVisit(p: seq<nat>, k: nat) returns (x: nat)
    requires InnerBelow(p, k + 1) && !InnerBelow(p, k)
    ensures 0 < x < |p| - 1 && p[x] == k && InnerBelow(p[..x + 1], k)
  {
    x := 1;
    while p[x] != k
      invariant 0 < x < |p| - 1
      invariant forall y :: 0 < y < x ==> p[y] < k
      decreases |p| - x
    {
      x := x + 1;
      if x == |p| - 1 {
        assert InnerBelow(p, k);
      }
    }
  }

  /** From `k` on, visits to `k` are detours that only add weight. */
  lemma {:induction false} DetoursOnlyAdd(m: Matrix, n: nat, k: nat, j: nat, q: seq<nat>, w: Weight)
    requires Square(m, n) && IsPath(n, q, k, j) && InnerBelow(q, k + 1) && IsShortest(m, n, k, k, j, w)
    ensures Leq(w, PathWeight(m, n, q))
    decreases |q|
  {
    if !InnerBelow(q, k) {
      var x := FirstVisit(q, k);
      CutWeights(m, n, q, x);
      var rest := q[x..];
      forall y | 0 < y < |rest| - 1 ensures rest[y] < k + 1 { assert rest[y] == q[x + y]; }
      DetoursOnlyAdd(m, n, k, j, rest, w);
    }
  }

  lemma RelaxLowerBound(m: Matrix, n: nat, k: nat, i: nat, j: nat, d: Weight, a: Weight, b: Weight, p: seq<nat>)
    requires Square(m, n) && k < n
    requires IsShortest(m, n, k, i, j, d) && IsShortest(m, n, k, i, k, a) && IsShortest(m, n, k, k, j, b)
    requires IsPath(n, p, i, j) && InnerBelow(p, k + 1)
    ensures Leq(Least(d, Add(a, b)), PathWeight(m, n, p))
  {
    hide PathWeight;
    if !InnerBelow(p, k) {
      var x := FirstVisit(p, k);
      CutWeights(m, n, p, x);
      var rest := p[x..];
      forall y | 0 < y < |rest| - 1 ensures rest[y] < k + 1 { assert rest[y] == p[x + y]; }
      DetoursOnlyAdd(m, n, k, j, rest, b);
      assert IsPath(n, p[..x + 1], i, k);
    }
  }

  lemma RelaxAchieved(m: Matrix, n: nat, k: nat, i: nat, j: nat, d: Weight, a: Weight, b: Weight)
    requires Square(m, n) && k < n
    requires IsShortest(m, n, k, i, j, d) && IsShortest(m, n, k, i, k, a) && IsShortest(m, n, k, k, j, b)
    ensures exists p :: IsPath(n, p, i, j) && InnerBelow(p, k + 1) && PathWeight(m, n, p) == Least(d, Add(a, b))
  {
    if Leq(d, Add(a, b)) {
      var p :| IsPath(n, p, i, j) && InnerBelow(p, k) && PathWeight(m, n, p) == d;
      assert InnerBelow(p, k + 1);
    } else {
      var p :| IsPath(n, p, i, k) && InnerBelow(p, k) && PathWeight(m, n, p) == a;
      var q :| IsPath(n, q, k, j) && InnerBelow(q, k) && PathWeight(m, n, q) == b;
      JoinWeights(m, n, p, q);
      var r := p + q[1..];
      forall y | 0 < y < |r| - 1 ensures r[y] < k + 1 {
        if y >= |p| { assert r[y] == q[y - |p| + 1]; }
      }
      assert IsPath(n, r, i, j);
    }
  }

  lemma {:induction false} AdmitIsShortest(m: Matrix, n: nat, k: nat, i: nat, j: nat)
    requires Square(m, n) && k <= n && i < n && j < n
    ensures IsShortest(m, n, k, i, j, Admit(m, n, k)[i][j])
  {
    if k == 0 {
      DirectEdge(m, n, i, j);
    } else {
      hide IsShortest, PathWeight, IsPath;
      var v := k - 1;
      AdmitIsShortest(m, n, v, i, j);
      AdmitIsShortest(m, n, v, i, v);
      AdmitIsShortest(m, n, v, v, j);
      var prev := Admit(m, n, v);
      assert Admit(m, n, k) == Relax(prev, n, v);
      assert Admit(m, n, k)[i][j] == Relaxed(prev, n, v, i, j);
      RelaxIsShortest(m, n, v, i, j, prev[i][j], prev[i][v], prev[v][j]);
    }
  }

  lemma RelaxIsShortest(m: Matrix, n: nat, k: nat, i: nat, j: nat, d: Weight, a: Weight, b: Weight)
    requires Square(m, n) && k < n
    requires IsShortest(m, n, k, i, j, d) && IsShortest(m, n, k, i, k, a) && IsShortest(m, n, k, k, j, b)
    ensures IsShortest(m, n, k + 1, i, j, Least(d, Add(a, b)))
  {
    RelaxAchieved(m, n, k, i, j, d, a, b);
    forall p | IsPath(n, p, i, j) && InnerBelow(p, k + 1)
      ensures Leq(Least(d, Add(a, b)), PathWeight(m, n, p))
    {
      RelaxLowerBound(m, n, k, i, j, d, a, b, p);
    }
  }

  /** The least weight of any path. */
  ghost predicate IsDistance(m: Matrix, n: nat, i: nat, j: nat, w: Weight)
    requires Square(m, n)
  {
    && (exists p :: IsPath(n, p, i, j) && PathWeight(m, n, p) == w)
    && (forall p :: IsPath(n, p, i, j) ==> Leq(w, PathWeight(m, n, p)))
  }

  lemma ShortestIsDistance(m: Matrix, n: nat, i: nat, j: nat, w: Weight)
    requires Square(m, n) && IsShortest(m, n, n, i, j, w)
    ensures IsDistance(m, n, i, j, w)
  {
    hide PathWeight;
    forall q | IsPath(n, q, i, j)
      ensures Leq(w, PathWeight(m, n, q))
    {
      assert InnerBelow(q, n);
    }
  }

  lemma AdmitAllIsDistance(m: Matrix, n: nat, i: nat, j: nat)
    requires Square(m, n) && i < n && j < n
    ensures IsDistance(m, n, i, j, Admit(m, n, n)[i][j])
  {
    hide IsShortest, IsDistance, Admit;
    AdmitIsShortest(m, n, n, i, j);
    ShortestIsDistance(m, n, i, j, Admit(m, n, n)[i][j]);
  }

  // ----- the in-place triple loop -------------------------------------------------

  ghost function Contents(a: array2<Weight>): (m: Matrix)
    reads a
    ensures |m| == a.Length0 && forall i :: 0 <= i < a.Length0 ==> |m[i]| == a.Length1
    ensures forall i, j :: 0 <= i < a.Length0 && 0 <= j < a.Length1 ==> m[i][j] == a[i, j]
  {
    seq(a.Length0, i requires 0 <= i < a.Length0 reads a =>
      seq(a.Length1, j requires 0 <= j < a.Length1 reads a => a[i, j]))
  }

  /** With non-negative weights, row and column `k` do not change in pass `k`, so
      updating in place reads the same values as updating a copy. */
  lemma PivotUnchanged(m: Matrix, n: nat, k: nat, i: nat)
    requires Square(m, n) && k < n && i < n
    ensures Relaxed(m, n, k, i, k) == m[i][k] && Relaxed(m, n, k, k, i) == m[k][i]
  {
  }

  /** In pass `k`, the entries before (i, j) in row-major order are relaxed. */
  ghost predicate Progress(a: array2<Weight>, m: Matrix, n: nat, k: nat, i: nat, j: nat)
    requires Square(m, n) && k < n && a.Length0 == n && a.Length1 == n
    reads a
  {
    forall x, y :: 0 <= x < n && 0 <= y < n ==>
      a[x, y] == if x < i || (x == i && y < j) then Relaxed(m, n, k, x, y) else m[x][y]
  }

  method RelaxInPlace(a: array2<Weight>, n: nat, k: nat)
    requires a.Length0 == n && a.Length1 == n && k < n
    modifies a
    ensures Contents(a) == Relax(old(Contents(a)), n, k)
  {
    ghost var m := Contents(a);
    for i := 0 to n
      invariant Progress(a, m, n, k, i, 0)
    {
      for j := 0 to n
        invariant Progress(a, m, n, k, i, j)
      {
        PivotUnchanged(m, n, k, i);
        PivotUnchanged(m, n, k, j);
        var newValue := Add(a[i, k], a[k, j]);
        if !Leq(a[i, j], newValue) {
          a[i, j] := newValue;
        }
      }
    }
    assert forall i :: 0 <= i < n ==> Contents(a)[i] == Relax(m, n, k)[i];
  }

  /** For every square matrix of non-negative weights the loops end with each entry
      equal to the least weight over all paths between its nodes. */
  method ComputeFloydWarshall(a: array2<Weight>, n: nat)
    requires a.Length0 == n && a.Length1 == n
    modifies a
    ensures Contents(a) == Admit(old(Contents(a)), n, n)
    ensures forall i, j :: 0 <= i < n && 0 <= j < n ==> IsDistance(old(Contents(a)), n, i, j, a[i, j])
  {
    hide IsDistance;
    ghost var m := Contents(a);
    for k := 0 to n
      invariant Contents(a) == Admit(m, n, k)
    {
      RelaxInPlace(a, n, k);
    }
    forall i, j | 0 <= i < n && 0 <= j < n
      ensures IsDistance(m, n, i, j, a[i, j])
    {
      AdmitAllIsDistance(m, n, i, j);
    }
  }
}
