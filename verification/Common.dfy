/** Definitions shared by all models. */
module Common {
  datatype Option<+T> = None | Some(value: T)

  function Max(a: int, b: int): (m: int)
    ensures m >= a && m >= b && (m == a || m == b)
  {
    if a >= b then a else b
  }

  /** The least number of processes that is more than half of `n`. */
  function Majority(n: nat): (m: nat)
    ensures 2 * m > n && 2 * (m - 1) <= n
  {
    n / 2 + 1
  }

  lemma MajorityIff(n: nat, k: nat)
    ensures k >= Majority(n) <==> 2 * k > n
  {
  }

  /** Quotient and remainder are determined by their defining equation. */
  lemma DivModUnique(n: nat, x: nat, q: nat, o: nat)
    requires o < n && x == n * q + o
    ensures x / n == q && x % n == o
  {
    var q', o' := x / n, x % n;
    assert x == n * q' + o';
    if q' < q {
      LaterMultiple(n, q', q);
      assert false;
    }
    if q < q' {
      LaterMultiple(n, q, q');
      assert false;
    }
  }

  lemma NextMultiple(n: nat, q: nat)
    ensures n * (q + 1) == n * q + n
  {
  }

  lemma {:induction false} LaterMultiple(n: nat, p: nat, q: nat)
    requires p < q
    ensures n * q >= n * p + n
  {
    NextMultiple(n, q - 1);
    if p < q - 1 {
      LaterMultiple(n, p, q - 1);
    }
  }

  predicate Distinct(s: seq<nat>) {
    forall i, j :: 0 <= i < j < |s| ==> s[i] != s[j]
  }

  lemma SubsetSize(a: set<nat>, b: set<nat>)
    requires a <= b
    ensures |a| <= |b|
  {
    assert b == a + (b - a);
  }

  /** The numbers from `a` to `b`, both included. */
  function Range(a: nat, b: nat): (r: set<nat>)
    ensures forall x :: x in r <==> a <= x <= b
    decreases b + 1 - a
  {
    if a > b then {} else {a} + Range(a + 1, b)
  }

  lemma {:induction false} RangeSize(a: nat, b: nat)
    requires a <= b + 1
    ensures |Range(a, b)| == b + 1 - a
    decreases b + 1 - a
  {
    if a <= b {
      RangeSize(a + 1, b);
      assert a !in Range(a + 1, b);
    }
  }

  /** Numbers below `n` are all there exactly when there are n - 1 positive ones. */
  lemma AllBelow(xs: set<nat>, n: nat)
    requires n > 0 && forall x :: x in xs ==> 0 < x < n
    ensures |xs| == n - 1 <==> forall d :: 0 < d < n ==> d in xs
  {
    hide Range;
    var all := Range(1, n - 1);
    RangeSize(1, n - 1);
    if d :| 0 < d < n && d !in xs {
      SubsetSize(xs + {d}, all);
    } else {
      assert xs == all;
    }
  }
}
