/** Pulling the final sequence of an earlier configuration in segments: planning,
    receiving and reassembly. */
module SegmentPull {
  import opened Common

  /** An entry of a replicated sequence. */
  datatype Entry = Entry(id: nat)

  datatype SegmentIndex = SegmentIndex(from: nat, to: nat)
  datatype Segment = Segment(idx: SegmentIndex, entries: seq<Entry>)
  datatype Metadata = Metadata(configId: nat, len: nat)
  datatype Transfer = Transfer(configId: nat, succeeded: bool, metadata: Metadata, segment: Segment)
  datatype Request = Request(dst: nat, configId: nat, idx: SegmentIndex)

  datatype PullState = PullState(
    pending: map<nat, seq<SegmentIndex>>,
    received: map<nat, seq<Segment>>,
    sequences: map<nat, seq<Entry>>,
    active: nat,
    next: Option<nat>,
    peers: seq<nat>)

  // ----- planning ----------------------------------------------------------------------

  function Plan(len: nat, n: nat): (plan: seq<SegmentIndex>)
    requires n > 0
    ensures |plan| == n
  {
    var offset := len / n;
    seq(n, i requires 0 <= i < n => PlanAt(len, offset, i))
  }

  function PlanAt(len: nat, offset: nat, i: nat): SegmentIndex {
    var from := offset * i;
    SegmentIndex(from, if from + offset > len then len else from + offset)
  }

  /** How many entries the plan reaches: the length rounded down to a multiple of n. */
  function Reach(len: nat, n: nat): nat
    requires n > 0
  {
    n * (len / n)
  }

  lemma ReachBounds(len: nat, n: nat)
    requires n > 0
    ensures Reach(len, n) <= len < Reach(len, n) + n
    ensures Reach(len, n) == len <==> len % n == 0
    ensures Reach(len, n) == (len / n) * n
  {
    assert len == n * (len / n) + len % n;
  }

  /** The planned segments are contiguous, of equal length and in bounds: they tile
      the first n * (len / n) entries. */
  lemma PlanTiles(len: nat, n: nat, i: nat)
    requires n > 0 && i < n
    ensures Plan(len, n)[i].from == (len / n) * i
    ensures Plan(len, n)[i].to == Plan(len, n)[i].from + len / n <= Reach(len, n) <= len
    ensures i == 0 ==> Plan(len, n)[i].from == 0
    ensures i > 0 ==> Plan(len, n)[i - 1].to == Plan(len, n)[i].from
    ensures i == n - 1 ==> Plan(len, n)[i].to == Reach(len, n)
  {
    ReachBounds(len, n);
    PlanStep(len, n, i);
    if i > 0 {
      PlanStep(len, n, i - 1);
    }
  }

  lemma PlanStep(len: nat, n: nat, i: nat)
    requires n > 0 && i < n
    ensures (len / n) * i + len / n == (len / n) * (i + 1) <= Reach(len, n) <= len
    ensures Plan(len, n)[i] == SegmentIndex((len / n) * i, (len / n) * i + len / n)
  {
    ReachBounds(len, n);
    NextMultiple(len / n, i);
    LaterMultiple(len / n, i, n);
  }

  // ----- the handlers on values -----------------------------------------------------------

  function Without(s: seq<SegmentIndex>, idx: SegmentIndex): (r: seq<SegmentIndex>)
    ensures forall x :: x in r <==> x in s && x != idx
  {
    if s == [] then []
    else
      var front := Without(s[..|s| - 1], idx);
      if s[|s| - 1] != idx then front + [s[|s| - 1]] else front
  }

  /** Inserts into a list that is sorted by start. */
  function Insert(s: seq<Segment>, x: Segment): seq<Segment> {
    if s == [] || s[|s| - 1].idx.from <= x.idx.from then s + [x]
    else Insert(s[..|s| - 1], x) + [s[|s| - 1]]
  }

  function SortByFrom(s: seq<Segment>): seq<Segment> {
    if s == [] then [] else Insert(SortByFrom(s[..|s| - 1]), s[|s| - 1])
  }

  function Flatten(s: seq<Segment>): seq<Entry> {
    if s == [] then [] else Flatten(s[..|s| - 1]) + s[|s| - 1].entries
  }

  predicate HasHandled(st: PullState, c: nat, idx: SegmentIndex) {
    || (c in st.received && exists i :: 0 <= i < |st.received[c]| && st.received[c][i].idx == idx)
    || st.active >= c
    || c in st.sequences
  }

  function Pull(st: PullState, c: nat, len: nat, nodes: seq<nat>): (PullState, seq<Request>)
    requires nodes != []
  {
    var plan := Plan(len, |nodes|);
    (st.(pending := st.pending[c := plan]),
     seq(|nodes|, i requires 0 <= i < |nodes| => Request(nodes[i], c, plan[i])))
  }

  /** Every node is asked for its own segment of the plan. */
  lemma PullAsksEachNode(st: PullState, c: nat, len: nat, nodes: seq<nat>)
    requires nodes != []
    ensures
      var (st', out) := Pull(st, c, len, nodes);
      && st' == st.(pending := st.pending[c := Plan(len, |nodes|)])
      && |out| == |nodes|
      && forall i :: 0 <= i < |nodes| ==>
           out[i] == Request(nodes[i], c, SegmentIndex((len / |nodes|) * i, (len / |nodes|) * i + len / |nodes|))
  {
    forall i | 0 <= i < |nodes|
      ensures Plan(len, |nodes|)[i] == SegmentIndex((len / |nodes|) * i, (len / |nodes|) * i + len / |nodes|)
    {
      PlanStep(len, |nodes|, i);
    }
  }

  /** The peer asked for the i-th pending segment: the last first, then around. */
  function RetryTarget(i: nat, k: nat): (target: nat)
    requires k > 0
    ensures target < k
  {
    if i < k then k - 1 - i else k - 1 - i % k
  }

  /** What is still pending is asked for again. None stands for a panic: something is
      pending and no peer is known. */
  function Retry(st: PullState, c: nat): Option<seq<Request>> {
    if c !in st.pending || st.pending[c] == [] then Some([])
    else if st.peers == [] then None
    else
      Some(seq(|st.pending[c]|, i requires 0 <= i < |st.pending[c]| =>
        Request(st.peers[RetryTarget(i, |st.peers|)], c, st.pending[c][i])))
  }

  /** A retry asks for every pending segment once, in order, at known peers; any peers in a
      row are all different. */
  lemma RetryMeaning(st: PullState, c: nat)
    requires c in st.pending && st.peers != []
    ensures
      var r := Retry(st, c);
      && r.Some? && |r.value| == |st.pending[c]|
      && (forall i :: 0 <= i < |r.value| ==>
            r.value[i].configId == c && r.value[i].idx == st.pending[c][i] && r.value[i].dst in st.peers)
    ensures forall i, j :: 0 <= i < j < i + |st.peers| ==> RetryTarget(i, |st.peers|) != RetryTarget(j, |st.peers|)
    ensures RetryTarget(0, |st.peers|) == |st.peers| - 1
  {
    var k := |st.peers|;
    forall i, j | 0 <= i < j < i + k
      ensures RetryTarget(i, k) != RetryTarget(j, k)
    {
      TargetsDiffer(i, j, k);
    }
  }

  lemma TargetsDiffer(i: nat, j: nat, k: nat)
    requires i < j < i + k
    ensures RetryTarget(i, k) != RetryTarget(j, k)
  {
    RetryTargetMod(i, k);
    RetryTargetMod(j, k);
    var qi, qj := i / k, j / k;
    assert i == k * qi + i % k && j == k * qj + j % k;
    if i % k == j % k {
      if qi < qj {
        LaterMultiple(k, qi, qj);
      } else if qj < qi {
        LaterMultiple(k, qj, qi);
      }
      assert false;
    }
  }

  lemma RetryTargetMod(i: nat, k: nat)
    requires k > 0
    ensures RetryTarget(i, k) == k - 1 - i % k
  {
    if i < k {
      DivModUnique(k, i, 0, i);
    }
  }

  /** A failed transfer of a new segment is asked for again at the chosen ready peer. */
  lemma FailedIsAskedAgain(st: PullState, t: Transfer, pick: nat)
    requires !t.succeeded && !HasHandled(st, t.configId, t.segment.idx) && pick < |st.peers|
    ensures
      var r := HandleTransfer(st, t, pick);
      && r.Some? && r.value.1 != []
      && r.value.1[|r.value.1| - 1] == Request(st.peers[pick], t.configId, t.segment.idx)
  {
    hide HasHandled, Plan;
  }

  function Receive(st: PullState, c: nat, s: Segment): PullState
    requires c in st.pending
  {
    var before := if c in st.received then st.received[c] else [];
    st.(received := st.received[c := before + [s]], pending := st.pending[c := Without(st.pending[c], s.idx)])
  }

  function Stored(st: PullState, c: nat): PullState
    requires c in st.received
  {
    st.(sequences := st.sequences[c := Flatten(SortByFrom(st.received[c]))],
        received := st.received - {c},
        pending := st.pending - {c})
  }

  /** With all earlier sequences there, the next configuration starts. None stands for a
      panic: no next configuration is known. */
  function Complete(st: PullState, c: nat): Option<PullState>
    requires c in st.received
  {
    var st1 := Stored(st, c);
    if st1.next.None? then None
    else if |st1.sequences| + 1 == st1.next.value then Some(st1.(active := st1.next.value, next := None))
    else Some(st1)
  }

  /** Completing a sequence starts the next configuration exactly when the sequences of all
      configurations before it are there. */
  lemma StartsWhenAllThere(st: PullState, c: nat)
    requires c in st.received && st.next.Some? && 0 < c < st.next.value
    requires forall d :: d in st.sequences ==> 0 < d < st.next.value
    ensures
      var r := Complete(st, c);
      && r.Some? && r.value.sequences.Keys == st.sequences.Keys + {c}
      && (if forall d :: 0 < d < st.next.value ==> d in r.value.sequences
          then r.value.active == st.next.value && r.value.next.None?
          else r.value.active == st.active && r.value.next == st.next)
  {
    hide Flatten, SortByFrom;
    var keys := Stored(st, c).sequences.Keys;
    assert keys == st.sequences.Keys + {c};
    AllBelow(keys, st.next.value);
  }

  /** A first transfer of a configuration also starts the pull of the one before. */
  predicate PullsPrevious(st: PullState, t: Transfer) {
    t.metadata.configId != 0 && t.metadata.configId !in st.sequences && t.metadata.configId !in st.pending
  }

  function Previous(st: PullState, t: Transfer): (PullState, seq<Request>)
    requires PullsPrevious(st, t) ==> st.peers != []
  {
    if PullsPrevious(st, t) then Pull(st, t.metadata.configId, t.metadata.len, st.peers) else (st, [])
  }

  function Store(st: PullState, t: Transfer): Option<PullState>
    requires t.configId in st.pending
  {
    var st' := Receive(st, t.configId, t.segment);
    if st'.pending[t.configId] == [] then Complete(st', t.configId) else Some(st')
  }

  /** None stands for a panic: no peer to pull the previous sequence from, a segment of a
      sequence that is not being pulled, or no next configuration. A failed transfer is asked for again at
      the ready peer that `pick` selects. */
  function HandleTransfer(st: PullState, t: Transfer, pick: nat): Option<(PullState, seq<Request>)> {
    if HasHandled(st, t.configId, t.segment.idx) then Some((st, []))
    else if PullsPrevious(st, t) && st.peers == [] then None
    else
      var (st1, out) := Previous(st, t);
      if !t.succeeded then
        Some((st1, out + if pick < |st1.peers| then [Request(st1.peers[pick], t.configId, t.segment.idx)] else []))
      else if t.configId !in st1.pending || Store(st1, t).None? then None
      else Some((Store(st1, t).value, out))
  }

  // ----- reassembly ---------------------------------------------------------------------

  predicate Ascending(s: seq<Segment>) {
    forall i, j :: 0 <= i < j < |s| ==> s[i].idx.from <= s[j].idx.from
  }

  lemma {:induction false} InsertPermutes(s: seq<Segment>, x: Segment)
    ensures multiset(Insert(s, x)) == multiset(s) + multiset{x}
  {
    if s != [] && s[|s| - 1].idx.from > x.idx.from {
      var front, last := s[..|s| - 1], s[|s| - 1];
      InsertPermutes(front, x);
      assert s == front + [last];
    }
  }

  lemma {:induction false} InsertMembers(s: seq<Segment>, x: Segment)
    ensures forall y :: y in Insert(s, x) <==> y == x || y in s
  {
    if s != [] && s[|s| - 1].idx.from > x.idx.from {
      var front, last := s[..|s| - 1], s[|s| - 1];
      InsertMembers(front, x);
      assert s == front + [last];
    }
  }

  lemma AscendingSnoc(front: seq<Segment>, last: Segment)
    ensures Ascending(front + [last]) <==> Ascending(front) && forall y :: y in front ==> y.idx.from <= last.idx.from
  {
    var s := front + [last];
    assert s[|front|] == last;
    assert forall i :: 0 <= i < |front| ==> s[i] == front[i] && front[i] in front;
  }

  lemma {:induction false} InsertSorts(s: seq<Segment>, x: Segment)
    requires Ascending(s)
    ensures Ascending(Insert(s, x))
  {
    if s != [] {
      var front, last := s[..|s| - 1], s[|s| - 1];
      assert s == front + [last];
      AscendingSnoc(front, last);
      if last.idx.from > x.idx.from {
        InsertSorts(front, x);
        InsertMembers(front, x);
        AscendingSnoc(Insert(front, x), last);
      } else {
        hide Ascending;
        AscendingSnoc(s, x);
      }
    }
  }

  /** Sorting gives an ascending permutation. */
  lemma {:induction false} SortSorts(s: seq<Segment>)
    ensures Ascending(SortByFrom(s)) && multiset(SortByFrom(s)) == multiset(s)
  {
    if s != [] {
      var front, last := s[..|s| - 1], s[|s| - 1];
      SortSorts(front);
      hide Ascending, Insert;
      InsertSorts(SortByFrom(front), last);
      InsertPermutes(SortByFrom(front), last);
      assert s == front + [last];
    }
  }

  predicate Rising(s: seq<nat>) {
    forall i, j :: 0 <= i < j < |s| ==> s[i] < s[j]
  }

  /** A strictly ascending list is determined by its elements. */
  lemma {:induction false} RisingUnique(a: seq<nat>, b: seq<nat>)
    requires Rising(a) && Rising(b) && forall x :: x in a <==> x in b
    ensures a == b
  {
    assert a != [] ==> a[0] in b;
    assert b != [] ==> b[0] in a;
    if a != [] {
      var la, lb := a[|a| - 1], b[|b| - 1];
      assert la in b && lb in a;
      assert la == lb;
      var fa, fb := a[..|a| - 1], b[..|b| - 1];
      forall x ensures x in fa <==> x in fb {
        assert x in fa ==> x in a && x != la;
        assert x in fb ==> x in b && x != lb;
      }
      RisingUnique(fa, fb);
    }
  }

  predicate NoRepeats(s: seq<Segment>) {
    forall i, j :: 0 <= i < j < |s| ==> s[i].idx != s[j].idx
  }

  lemma {:induction false} InsertNoRepeats(s: seq<Segment>, x: Segment)
    requires NoRepeats(s) && forall y :: y in s ==> y.idx != x.idx
    ensures NoRepeats(Insert(s, x))
  {
    if s != [] && s[|s| - 1].idx.from > x.idx.from {
      var front, last := s[..|s| - 1], s[|s| - 1];
      assert s == front + [last];
      InsertNoRepeats(front, x);
      InsertMembers(front, x);
      forall y | y in Insert(front, x)
        ensures y.idx != last.idx
      {
        if y in front {
          var i :| 0 <= i < |front| && front[i] == y;
          assert s[i] == y && s[|s| - 1] == last;
        }
      }
    }
  }

  lemma {:induction false} SortNoRepeats(s: seq<Segment>)
    requires NoRepeats(s)
    ensures NoRepeats(SortByFrom(s)) && forall y :: y in SortByFrom(s) <==> y in s
  {
    if s != [] {
      var front, last := s[..|s| - 1], s[|s| - 1];
      assert s == front + [last];
      SortNoRepeats(front);
      forall y | y in front
        ensures y.idx != last.idx
      {
        var i :| 0 <= i < |front| && front[i] == y;
        assert s[i] == y && s[|s| - 1] == last;
      }
      InsertNoRepeats(SortByFrom(front), last);
      InsertMembers(SortByFrom(front), last);
    }
  }

  /** The received segments are exactly the planned ones, each once, with the entries
      of the final sequence. */
  ghost predicate IsFull(final: seq<Entry>, len: nat, n: nat, s: seq<Segment>)
    requires n > 0
  {
    && NoRepeats(s)
    && (forall x :: x in s ==> x.idx in Plan(len, n) && IsCut(final, x))
    && (forall idx :: idx in Plan(len, n) ==> exists x :: x in s && x.idx == idx)
  }

  ghost predicate IsCut(final: seq<Entry>, x: Segment) {
    x.idx.from <= x.idx.to <= |final| && x.entries == final[x.idx.from..x.idx.to]
  }

  /** The i-th segment of length `off`. */
  function Nth(off: nat, i: nat): (idx: SegmentIndex)
    ensures idx.to == idx.from + off
  {
    SegmentIndex(off * i, off * i + off)
  }

  lemma NthRises(off: nat, i: nat, j: nat)
    requires off > 0 && i < j
    ensures Nth(off, i).from < Nth(off, j).from
  {
    LaterMultiple(off, i, j);
  }

  lemma {:induction false} FlattenTiles(final: seq<Entry>, off: nat, s: seq<Segment>, k: nat)
    requires k <= |s|
    requires forall i :: 0 <= i < |s| ==> IsCut(final, s[i]) && s[i].idx == Nth(off, i)
    ensures off * k <= |final| && Flatten(s[..k]) == final[..off * k]
  {
    if k > 0 {
      hide Flatten, Nth;
      FlattenTiles(final, off, s, k - 1);
      NextMultiple(off, k - 1);
      CutAt(final, off, k - 1, s[k - 1]);
      FlattenCut(final, off * (k - 1), off, s, k);
    }
  }

  lemma CutAt(final: seq<Entry>, off: nat, i: nat, x: Segment)
    requires IsCut(final, x) && x.idx == Nth(off, i)
    ensures off * i + off <= |final| && x.entries == final[off * i..off * i + off]
  {
  }

  lemma FlattenCut(final: seq<Entry>, from: nat, off: nat, s: seq<Segment>, k: nat)
    requires 0 < k <= |s| && from + off <= |final|
    requires s[k - 1].entries == final[from..from + off] && Flatten(s[..k - 1]) == final[..from]
    ensures Flatten(s[..k]) == final[..from + off]
  {
    assert s[..k][..k - 1] == s[..k - 1];
    JoinCut(final, from, off);
  }

  lemma JoinCut(final: seq<Entry>, from: nat, off: nat)
    requires from + off <= |final|
    ensures final[..from] + final[from..from + off] == final[..from + off]
  {
  }

  lemma PlanFroms(len: nat, n: nat)
    requires n > 0
    ensures forall i :: 0 <= i < n ==> Plan(len, n)[i] == Nth(len / n, i)
  {
    hide Plan;
    forall i | 0 <= i < n
      ensures Plan(len, n)[i] == Nth(len / n, i)
    {
      PlanStep(len, n, i);
    }
  }

  /** Sorted and without repeats, the segments stand in the order of the plan. */
  lemma SortedIsPlan(final: seq<Entry>, off: nat, plan: seq<SegmentIndex>, s: seq<Segment>)
    requires off > 0 && forall i :: 0 <= i < |plan| ==> plan[i] == Nth(off, i)
    requires Ascending(s) && NoRepeats(s)
    requires forall x :: x in s ==> x.idx in plan
    requires forall idx :: idx in plan ==> exists x :: x in s && x.idx == idx
    ensures |s| == |plan| && forall i :: 0 <= i < |s| ==> s[i].idx == plan[i]
  {
    hide Nth;
    var a := seq(|s|, i requires 0 <= i < |s| => s[i].idx.from);
    var b := seq(|plan|, i requires 0 <= i < |plan| => plan[i].from);
    forall i | 0 <= i < |s|
      ensures s[i].idx.to == s[i].idx.from + off && a[i] in b
    {
      assert s[i] in s;
      var k :| 0 <= k < |plan| && plan[k] == s[i].idx;
      assert b[k] == plan[k].from;
    }
    forall i | 0 <= i < |plan|
      ensures b[i] in a
    {
      assert plan[i] in plan;
      var x :| x in s && x.idx == plan[i];
      var k :| 0 <= k < |s| && s[k] == x;
      assert a[k] == b[i];
    }
    forall i, j | 0 <= i < j < |plan|
      ensures b[i] < b[j]
    {
      NthRises(off, i, j);
    }
    RisingUnique(a, b);
    assert forall i :: 0 <= i < |s| ==> a[i] == b[i];
  }

  lemma FullSorted(final: seq<Entry>, len: nat, n: nat, s: seq<Segment>)
    requires n > 0 && IsFull(final, len, n, s)
    ensures IsFull(final, len, n, SortByFrom(s)) && Ascending(SortByFrom(s))
  {
    hide Plan, IsCut, SortByFrom;
    SortSorts(s);
    SortNoRepeats(s);
    var sorted := SortByFrom(s);
    forall idx | idx in Plan(len, n)
      ensures exists x :: x in sorted && x.idx == idx
    {
      var x :| x in s && x.idx == idx;
      assert x in sorted;
    }
  }

  /** Reassembling gives the first n * (len / n) entries of the final sequence. */
  lemma Reassembly(final: seq<Entry>, len: nat, n: nat, s: seq<Segment>)
    requires n > 0 && len <= |final| && IsFull(final, len, n, s)
    ensures Reach(len, n) <= |final| && Flatten(SortByFrom(s)) == final[..Reach(len, n)]
  {
    ReachBounds(len, n);
    FullSorted(final, len, n, s);
    hide SortByFrom, IsFull, Ascending;
    if len / n > 0 {
      SortedFlattens(final, len, n, SortByFrom(s));
    } else {
      EmptySegments(final, len, n, SortByFrom(s));
    }
  }

  lemma SortedFlattens(final: seq<Entry>, len: nat, n: nat, s: seq<Segment>)
    requires n > 0 && len / n > 0 && IsFull(final, len, n, s) && Ascending(s)
    ensures (len / n) * n <= |final| && Flatten(s) == final[..(len / n) * n]
  {
    PlanFroms(len, n);
    var off := len / n;
    hide Plan, IsCut, Nth;
    SortedIsPlan(final, off, Plan(len, n), s);
    assert s[..n] == s;
    FlattenTiles(final, off, s, n);
  }

  /** With more nodes than entries every planned segment is empty. */
  lemma EmptySegments(final: seq<Entry>, len: nat, n: nat, s: seq<Segment>)
    requires n > 0 && len / n == 0 && IsFull(final, len, n, s)
    ensures Flatten(s) == []
  {
    PlanFroms(len, n);
    hide Plan, Nth;
    FlattenEmpty(s);
  }

  lemma {:induction false} FlattenEmpty(s: seq<Segment>)
    requires forall x :: x in s ==> x.entries == []
    ensures Flatten(s) == []
  {
    if s != [] {
      FlattenEmpty(s[..|s| - 1]);
    }
  }

  // ----- the component -------------------------------------------------------------------

  class SequencePuller {
    var pending: map<nat, seq<SegmentIndex>>
    var received: map<nat, seq<Segment>>
    var sequences: map<nat, seq<Entry>>
    var active: nat
    var next: Option<nat>
    var peers: seq<nat>

    ghost function View(): PullState
      reads this
    {
      PullState(pending, received, sequences, active, next, peers)
    }

    method PullSequence(c: nat, len: nat, nodes: seq<nat>) returns (out: seq<Request>)
      requires nodes != []
      modifies this
      ensures (View(), out) == Pull(old(View()), c, len, nodes)
    {
      var indices := Plan(len, |nodes|);
      out := [];
      for i := 0 to |nodes|
        invariant |out| == i && forall j :: 0 <= j < i ==> out[j] == Request(nodes[j], c, indices[j])
        invariant View() == old(View())
      {
        out := out + [Request(nodes[i], c, indices[i])];
      }
      pending := pending[c := indices];
      assert out == Pull(old(View()), c, len, nodes).1;
    }

    /** Returns false for a panic. */
    method OnRetry(c: nat) returns (ok: bool, out: seq<Request>)
      ensures ok <==> Retry(View(), c).Some?
      ensures ok ==> Retry(View(), c) == Some(out)
    {
      hide RetryTarget;
      out := [];
      if c !in pending {
        return true, [];
      }
      var remaining := pending[c];
      var numPeers := |peers|;
      for i := 0 to |remaining|
        invariant |out| == i && (i > 0 ==> numPeers > 0)
        invariant forall j :: 0 <= j < i ==> out[j] == Request(peers[RetryTarget(j, numPeers)], c, remaining[j])
      {
        if numPeers == 0 {
          return false, [];
        }
        out := out + [Request(peers[RetryTarget(i, numPeers)], c, remaining[i])];
      }
      assert remaining != [] ==> out == Retry(View(), c).value;
      return true, out;
    }

    method OnSegment(c: nat, s: Segment)
      requires c in pending
      modifies this
      ensures View() == Receive(old(View()), c, s)
    {
      if c !in received {
        received := received[c := []];
      }
      received := received[c := received[c] + [s]];
      pending := pending[c := Without(pending[c], s.idx)];
    }

    /** Returns false for a panic. */
    method OnCompleted(c: nat) returns (ok: bool)
      requires c in received
      modifies this
      ensures ok <==> Complete(old(View()), c).Some?
      ensures ok ==> Complete(old(View()), c) == Some(View())
    {
      var all := SortByFrom(received[c]);
      received := received - {c};
      var sequence: seq<Entry> := [];
      for i := 0 to |all|
        invariant sequence == Flatten(all[..i])
        invariant View() == old(View()).(received := old(received) - {c})
      {
        assert all[..i + 1][..i] == all[..i];
        sequence := sequence + all[i].entries;
      }
      assert all[..|all|] == all;
      sequences := sequences[c := sequence];
      pending := pending - {c};
      if next.None? {
        return false;
      }
      if |sequences| + 1 == next.value {
        active, next := next.value, None;
      }
      return true;
    }

    /** Returns false for a panic. */
    method OnTransfer(t: Transfer, pick: nat) returns (ok: bool, out: seq<Request>)
      modifies this
      ensures ok <==> HandleTransfer(old(View()), t, pick).Some?
      ensures ok ==> HandleTransfer(old(View()), t, pick) == Some((View(), out))
    {
      hide Plan, SortByFrom, Flatten;
      out := [];
      if HasHandled(PullState(pending, received, sequences, active, next, peers), t.configId, t.segment.idx) {
        return true, [];
      }
      var m := t.metadata;
      if m.configId != 0 && m.configId !in sequences && m.configId !in pending {
        if peers == [] {
          return false, [];
        }
        out := PullSequence(m.configId, m.len, peers);
      }
      if t.succeeded {
        if t.configId !in pending {
          return false, [];
        }
        OnSegment(t.configId, t.segment);
        if pending[t.configId] == [] {
          ok := OnCompleted(t.configId);
          if !ok {
            return false, [];
          }
        }
      } else if pick < |peers| {
        out := out + [Request(peers[pick], t.configId, t.segment.idx)];
      }
      assert out + [] == out;
      return true, out;
    }
  }
}
