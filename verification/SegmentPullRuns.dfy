/** Segment pull over whole runs: requests and transfers may be lost, delayed, reordered
    and duplicated, and any node that holds a sequence may answer. */
module SegmentPullRuns {
  import opened Common
  import opened SegmentPull

  datatype Pulled = Pulled(len: nat, n: nat)

  /** `plans` is history that no handler reads: the announced length and the number of
      source nodes of each pull. */
  datatype System = System(
    st: PullState,
    finals: map<nat, seq<Entry>>,
    plans: map<nat, Pulled>,
    requests: set<Request>,
    transfers: set<Transfer>)

  datatype Action =
    | Start(c: nat, next: nat, nodes: seq<nat>)
    | Environment(active: nat, peers: seq<nat>)
    | RunNext
    | Resend(c: nat)
    | Serve(r: Request, holds: bool, knowsPrevious: bool)
    | Deliver(t: Transfer, pick: nat)

  function Final(s: System, c: nat): seq<Entry> {
    if c in s.finals then s.finals[c] else []
  }

  ghost predicate Init(s: System) {
    && s.st.pending == map[] && s.st.received == map[] && s.st.sequences == map[]
    && s.st.next.None? && s.plans == map[] && s.requests == {} && s.transfers == {}
  }

  /** A node that does not hold the previous sequence reports length 0 for it. */
  function Answer(s: System, r: Request, holds: bool, knowsPrevious: bool): Transfer
    requires r.configId > 0 && r.idx.from <= r.idx.to <= |Final(s, r.configId)|
  {
    Transfer(r.configId, holds,
             Metadata(r.configId - 1, if knowsPrevious then |Final(s, r.configId - 1)| else 0),
             Segment(r.idx, if holds then Final(s, r.configId)[r.idx.from..r.idx.to] else []))
  }

  ghost predicate Enabled(s: System, a: Action) {
    match a
    case Start(c, next, nodes) => s.plans == map[] && s.st.next.None? && 0 < c < next && s.st.active < next &&
      nodes != []
    case Environment(active, _) => s.st.active <= active && (s.st.next.Some? ==> active < s.st.next.value)
    case RunNext => s.st.next.Some?
    case Resend(c) => Retry(s.st, c).Some?
    case Serve(r, _, _) => r in s.requests && r.configId > 0 && r.idx.from <= r.idx.to <= |Final(s, r.configId)|
    case Deliver(t, pick) => t in s.transfers && HandleTransfer(s.st, t, pick).Some?
  }

  function Sent(out: seq<Request>): set<Request> {
    set r | r in out
  }

  function PlansAfter(s: System, t: Transfer): map<nat, Pulled> {
    if !HasHandled(s.st, t.configId, t.segment.idx) && PullsPrevious(s.st, t)
    then s.plans[t.metadata.configId := Pulled(t.metadata.len, |s.st.peers|)]
    else s.plans
  }

  ghost function Apply(s: System, a: Action): System
    requires Enabled(s, a)
  {
    match a
    case Start(c, next, nodes) =>
      var (st', out) := Pull(s.st.(next := Some(next)), c, |Final(s, c)|, nodes);
      s.(st := st', plans := map[c := Pulled(|Final(s, c)|, |nodes|)], requests := s.requests + Sent(out))
    case Environment(active, peers) => s.(st := s.st.(active := active, peers := peers))
    case RunNext => s.(st := s.st.(active := s.st.next.value, next := None))
    case Resend(c) => s.(requests := s.requests + Sent(Retry(s.st, c).value))
    case Serve(r, holds, knows) => s.(transfers := s.transfers + {Answer(s, r, holds, knows)})
    case Deliver(t, pick) =>
      var r := HandleTransfer(s.st, t, pick).value;
      s.(st := r.0, plans := PlansAfter(s, t), requests := s.requests + Sent(r.1))
  }

  ghost predicate Step(s: System, s': System) {
    exists a :: Enabled(s, a) && s' == Apply(s, a)
  }

  ghost predicate IsRun(run: seq<System>) {
    && |run| > 0 && Init(run[0])
    && forall i :: 0 <= i < |run| - 1 ==> Step(run[i], run[i + 1])
  }

  // ----- the invariant --------------------------------------------------------------------

  /** Every planned segment is pending, or received once and unchanged. */
  ghost predicate Pulling(final: seq<Entry>, p: Pulled, pending: seq<SegmentIndex>, received: seq<Segment>) {
    && p.n > 0
    && NoRepeats(received)
    && (forall idx :: idx in pending ==> idx in Plan(p.len, p.n))
    && (forall x :: x in received ==> x.idx in Plan(p.len, p.n) && x.idx !in pending && IsCut(final, x))
    && (forall idx :: idx in Plan(p.len, p.n) ==> idx in pending || exists x :: x in received && x.idx == idx)
  }

  lemma PullingStarts(final: seq<Entry>, p: Pulled)
    requires p.n > 0
    ensures Pulling(final, p, Plan(p.len, p.n), [])
  {
  }

  lemma PullingReceives(final: seq<Entry>, p: Pulled, pending: seq<SegmentIndex>, received: seq<Segment>, x: Segment)
    requires Pulling(final, p, pending, received) && x.idx in Plan(p.len, p.n) && IsCut(final, x)
    requires forall y :: y in received ==> y.idx != x.idx
    ensures Pulling(final, p, Without(pending, x.idx), received + [x])
  {
    hide Plan, Without, IsCut;
    var received' := received + [x];
    assert NoRepeats(received');
    forall idx | idx in Plan(p.len, p.n) && idx !in Without(pending, x.idx)
      ensures exists y :: y in received' && y.idx == idx
    {
      if idx == x.idx {
        assert x in received';
      } else {
        var y :| y in received && y.idx == idx;
        assert y in received';
      }
    }
  }

  lemma PullingEnds(final: seq<Entry>, p: Pulled, received: seq<Segment>)
    requires Pulling(final, p, [], received) && p.len <= |final|
    ensures Reach(p.len, p.n) <= |final| && Flatten(SortByFrom(received)) == final[..Reach(p.len, p.n)]
  {
    hide Plan, SortByFrom, Flatten, Reach;
    assert IsFull(final, p.len, p.n, received);
    Reassembly(final, p.len, p.n, received);
  }

  function Received(st: PullState, c: nat): seq<Segment> {
    if c in st.received then st.received[c] else []
  }

  /** A pulled sequence is the part of the final one that its plan reaches. */
  ghost predicate IsReached(final: seq<Entry>, p: Pulled, sequence: seq<Entry>) {
    p.n > 0 && Reach(p.len, p.n) <= |final| && sequence == final[..Reach(p.len, p.n)]
  }

  ghost predicate ConfigInv(s: System, c: nat) {
    && (c in s.plans ==> c > 0 && s.plans[c].n > 0 && s.plans[c].len <= |Final(s, c)|)
    && (c in s.plans <==> c in s.st.pending || c in s.st.sequences)
    && (c in s.st.pending ==>
          && c !in s.st.sequences && s.st.pending[c] != []
          && Pulling(Final(s, c), s.plans[c], s.st.pending[c], Received(s.st, c)))
    && (c in s.st.received ==> c in s.st.pending)
    && (c in s.st.sequences ==> IsReached(Final(s, c), s.plans[c], s.st.sequences[c]))
  }

  /** A sequence being pulled belongs to a configuration that has been passed, or to one
      before the next. */
  ghost predicate NextInv(s: System) {
    && (s.st.next.Some? ==> s.st.active < s.st.next.value)
    && forall c :: c in s.plans ==> c <= s.st.active || (s.st.next.Some? && c < s.st.next.value)
  }

  ghost predicate Planned(s: System, c: nat, idx: SegmentIndex) {
    c in s.plans && s.plans[c].n > 0 && idx in Plan(s.plans[c].len, s.plans[c].n)
  }

  ghost predicate TransferInv(s: System, t: Transfer) {
    && Planned(s, t.configId, t.segment.idx)
    && (t.succeeded ==> IsCut(Final(s, t.configId), t.segment))
    && t.metadata.len <= |Final(s, t.metadata.configId)|
    && t.configId == t.metadata.configId + 1
  }

  ghost predicate Inv(s: System) {
    && (forall c :: ConfigInv(s, c))
    && NextInv(s)
    && (forall r :: r in s.requests ==> Planned(s, r.configId, r.idx))
    && (forall t :: t in s.transfers ==> TransferInv(s, t))
  }

  // ----- steps ---------------------------------------------------------------------------

  function WithPull(s: System, c: nat, len: nat, nodes: seq<nat>): System
    requires nodes != []
  {
    var (st', out) := Pull(s.st, c, len, nodes);
    s.(st := st', plans := s.plans[c := Pulled(len, |nodes|)], requests := s.requests + Sent(out))
  }

  lemma PullConfigs(s: System, c: nat, len: nat, nodes: seq<nat>, d: nat)
    requires Inv(s) && c > 0 && c !in s.plans && nodes != [] && len <= |Final(s, c)|
    ensures ConfigInv(WithPull(s, c, len, nodes), d)
  {
    hide Plan, Pulling, IsReached, Planned, TransferInv;
    assert ConfigInv(s, c) && ConfigInv(s, d);
    PullingStarts(Final(s, c), Pulled(len, |nodes|));
  }

  lemma PullRequests(c: nat, st: PullState, len: nat, nodes: seq<nat>, r: Request)
    requires nodes != [] && r in Pull(st, c, len, nodes).1
    ensures r.configId == c && r.idx in Plan(len, |nodes|)
  {
    hide Plan;
    var out := Pull(st, c, len, nodes).1;
    var i :| 0 <= i < |out| && out[i] == r;
    assert r.idx == Plan(len, |nodes|)[i];
  }

  lemma PullKeepsInv(s: System, c: nat, len: nat, nodes: seq<nat>)
    requires Inv(s) && c > 0 && c !in s.plans && nodes != [] && len <= |Final(s, c)|
    requires c <= s.st.active || (s.st.next.Some? && c < s.st.next.value)
    ensures Inv(WithPull(s, c, len, nodes))
  {
    hide Plan, ConfigInv, IsCut;
    var s' := WithPull(s, c, len, nodes);
    forall d ensures ConfigInv(s', d) {
      PullConfigs(s, c, len, nodes, d);
    }
    forall r | r in s'.requests
      ensures Planned(s', r.configId, r.idx)
    {
      if r !in s.requests {
        PullRequests(c, s.st, len, nodes, r);
      }
    }
    forall t | t in s'.transfers
      ensures TransferInv(s', t)
    {
      assert TransferInv(s, t);
    }
  }

  ghost predicate Storable(s: System, t: Transfer) {
    && TransferInv(s, t) && t.succeeded && t.configId in s.st.pending && Store(s.st, t).Some?
    && forall x :: x in Received(s.st, t.configId) ==> x.idx != t.segment.idx
  }

  lemma StoreConfig(s: System, t: Transfer)
    requires Inv(s) && Storable(s, t)
    ensures ConfigInv(s.(st := Store(s.st, t).value), t.configId)
  {
    hide Plan, Pulling, Without, Flatten, SortByFrom, Reach, IsCut;
    var c := t.configId;
    assert ConfigInv(s, c);
    var before, after := Received(s.st, c), Received(s.st, c) + [t.segment];
    PullingReceives(Final(s, c), s.plans[c], s.st.pending[c], before, t.segment);
    if Without(s.st.pending[c], t.segment.idx) == [] {
      PullingEnds(Final(s, c), s.plans[c], after);
    }
  }

  lemma StoreOthers(s: System, t: Transfer, d: nat)
    requires Inv(s) && t.configId in s.st.pending && d != t.configId && Store(s.st, t).Some?
    ensures ConfigInv(s.(st := Store(s.st, t).value), d)
  {
    StoreFrame(s.st, t, d);
    hide Plan, Pulling, Store, Reach, IsReached, TransferInv, Planned;
    assert ConfigInv(s, d);
  }

  /** Storing a segment touches the bookkeeping of its own configuration only. */
  lemma StoreFrame(st: PullState, t: Transfer, d: nat)
    requires t.configId in st.pending && d != t.configId && Store(st, t).Some?
    ensures
      var st' := Store(st, t).value;
      && (d in st'.pending <==> d in st.pending) && (d in st.pending ==> st'.pending[d] == st.pending[d])
      && (d in st'.received <==> d in st.received) && (d in st.received ==> st'.received[d] == st.received[d])
      && (d in st'.sequences <==> d in st.sequences) && (d in st.sequences ==> st'.sequences[d] == st.sequences[d])
  {
    hide Without, Flatten, SortByFrom;
  }

  /** The next configuration is given up only when it becomes the active one. */
  lemma StoreNext(s: System, t: Transfer)
    requires NextInv(s) && t.configId in s.st.pending && Store(s.st, t).Some?
    ensures NextInv(s.(st := Store(s.st, t).value))
  {
    hide Without, Flatten, SortByFrom;
  }

  lemma StoreKeepsInv(s: System, t: Transfer)
    requires Inv(s) && Storable(s, t)
    ensures Inv(s.(st := Store(s.st, t).value))
  {
    StoreNext(s, t);
    hide Plan, ConfigInv, IsCut, Store;
    var s' := s.(st := Store(s.st, t).value);
    forall d ensures ConfigInv(s', d) {
      if d == t.configId {
        StoreConfig(s, t);
      } else {
        StoreOthers(s, t, d);
      }
    }
    forall k | k in s'.transfers ensures TransferInv(s', k) {
      assert TransferInv(s, k);
    }
  }

  /** A new transfer is for a sequence still being pulled and for a segment not seen. */
  lemma NewTransfer(s: System, t: Transfer)
    requires Inv(s) && TransferInv(s, t) && !HasHandled(s.st, t.configId, t.segment.idx)
    ensures t.configId in s.st.pending
    ensures forall x :: x in Received(s.st, t.configId) ==> x.idx != t.segment.idx
  {
    hide Plan, Pulling, IsReached, IsCut;
    assert ConfigInv(s, t.configId);
  }

  /** The state after a possible pull of the previous sequence. */
  function AfterPrevious(s: System, t: Transfer): System {
    if PullsPrevious(s.st, t) &&
      s.st.peers != [] then WithPull(s, t.metadata.configId, t.metadata.len, s.st.peers) else s
  }

  lemma PreviousKeepsInv(s: System, t: Transfer)
    requires Inv(s) && TransferInv(s, t)
    ensures Inv(AfterPrevious(s, t)) && TransferInv(AfterPrevious(s, t), t)
    ensures t.configId in s.st.pending ==> t.configId in AfterPrevious(s, t).st.pending
    ensures Received(AfterPrevious(s, t).st, t.configId) == Received(s.st, t.configId)
  {
    hide Plan, Pulling, IsReached, IsCut, Inv;
    if PullsPrevious(s.st, t) && s.st.peers != [] {
      var c := t.metadata.configId;
      assert c !in s.plans by { OnlyPulled(s, c); }
      assert NextInv(s) by { InvNext(s); }
      PullKeepsInv(s, c, t.metadata.len, s.st.peers);
    }
  }

  lemma InvNext(s: System)
    requires Inv(s)
    ensures NextInv(s)
  {
    hide ConfigInv, Planned, TransferInv;
  }

  lemma OnlyPulled(s: System, c: nat)
    requires Inv(s)
    ensures c in s.plans <==> c in s.st.pending || c in s.st.sequences
  {
    hide Plan, Pulling, IsReached, TransferInv, Planned;
    assert ConfigInv(s, c);
  }

  lemma RequestKeepsInv(s: System, r: Request)
    requires Inv(s) && Planned(s, r.configId, r.idx)
    ensures Inv(s.(requests := s.requests + {r}))
  {
    hide Plan, Pulling, IsReached, IsCut;
    var s' := s.(requests := s.requests + {r});
    forall c ensures ConfigInv(s', c) {
      assert ConfigInv(s, c);
    }
    forall k | k in s'.transfers ensures TransferInv(s', k) {
      assert TransferInv(s, k);
    }
  }

  lemma DeliverKeepsInv(s: System, t: Transfer, pick: nat)
    requires Inv(s) && Enabled(s, Deliver(t, pick))
    ensures Inv(Apply(s, Deliver(t, pick)))
  {
    hide Plan, ConfigInv, IsCut, Store, Pull;
    assert TransferInv(s, t);
    var s' := Apply(s, Deliver(t, pick));
    if HasHandled(s.st, t.configId, t.segment.idx) {
      assert s' == s;
    } else {
      hide HasHandled, TransferInv, Planned, Inv;
      NewTransfer(s, t);
      PreviousKeepsInv(s, t);
      var mid := AfterPrevious(s, t);
      if t.succeeded {
        assert s' == mid.(st := Store(mid.st, t).value);
        StoreKeepsInv(mid, t);
      } else if pick < |mid.st.peers| {
        var r := Request(mid.st.peers[pick], t.configId, t.segment.idx);
        assert s' == mid.(requests := mid.requests + {r});
        assert Planned(mid, r.configId, r.idx) by { TransferPlanned(mid, t); }
        RequestKeepsInv(mid, r);
      } else {
        assert s' == mid;
      }
    }
  }

  lemma TransferPlanned(s: System, t: Transfer)
    requires TransferInv(s, t)
    ensures Planned(s, t.configId, t.segment.idx)
  {
  }

  lemma ServeKeepsInv(s: System, r: Request, holds: bool, knows: bool)
    requires Inv(s) && Enabled(s, Serve(r, holds, knows))
    ensures Inv(Apply(s, Serve(r, holds, knows)))
  {
    hide Plan, Pulling, IsReached;
    var s' := Apply(s, Serve(r, holds, knows));
    assert Planned(s, r.configId, r.idx);
    forall c ensures ConfigInv(s', c) {
      assert ConfigInv(s, c);
    }
    forall t | t in s'.transfers ensures TransferInv(s', t) {
      if t in s.transfers {
        assert TransferInv(s, t);
      }
    }
  }

  /** Other peers, another active or next configuration. */
  lemma SchedulingKeepsInv(s: System, s': System)
    requires Inv(s) && s' == s.(st := s.st.(active := s'.st.active, next := s'.st.next, peers := s'.st.peers))
    requires s'.st.active >= s.st.active && (s'.st.next.Some? ==> s'.st.active < s'.st.next.value)
    requires || s'.st.next == s.st.next || (s.st.next.None? && s'.st.next.Some?)
             || (s.st.next.Some? && s'.st.active >= s.st.next.value)
    ensures Inv(s')
  {
    hide Plan, Pulling, IsReached, IsCut;
    forall c ensures ConfigInv(s', c) {
      assert ConfigInv(s, c);
    }
    forall t | t in s'.transfers ensures TransferInv(s', t) {
      assert TransferInv(s, t);
    }
  }

  lemma PendingIsPlanned(s: System, c: nat, idx: SegmentIndex)
    requires Inv(s) && c in s.st.pending && idx in s.st.pending[c]
    ensures Planned(s, c, idx)
  {
    hide Plan, IsReached, IsCut, NoRepeats;
    assert ConfigInv(s, c);
  }

  lemma ResendKeepsInv(s: System, c: nat)
    requires Inv(s) && Retry(s.st, c).Some?
    ensures Inv(s.(requests := s.requests + Sent(Retry(s.st, c).value)))
  {
    hide Plan, Pulling, IsReached, IsCut, Planned;
    var out := Retry(s.st, c).value;
    var s' := s.(requests := s.requests + Sent(out));
    forall r | r in out
      ensures Planned(s', r.configId, r.idx)
    {
      assert r.configId == c && c in s.st.pending && r.idx in s.st.pending[c];
      PendingIsPlanned(s, c, r.idx);
      SamePlans(s, s', c, r.idx);
    }
    forall r | r in s.requests
      ensures Planned(s', r.configId, r.idx)
    {
      SamePlans(s, s', r.configId, r.idx);
    }
    forall d ensures ConfigInv(s', d) {
      assert ConfigInv(s, d);
    }
    forall t | t in s'.transfers ensures TransferInv(s', t) {
      assert TransferInv(s, t);
      SamePlans(s, s', t.configId, t.segment.idx);
    }
  }

  lemma SamePlans(s: System, s': System, c: nat, idx: SegmentIndex)
    requires s'.plans == s.plans && Planned(s, c, idx)
    ensures Planned(s', c, idx)
  {
  }

  lemma StepKeepsInv(s: System, s': System)
    requires Inv(s) && Step(s, s')
    ensures Inv(s') && s'.finals == s.finals
  {
    hide Inv, HandleTransfer, Pull, Planned, PlansAfter;
    var a :| Enabled(s, a) && s' == Apply(s, a);
    match a {
      case Start(c, next, nodes) =>
        assert map[c := Pulled(|Final(s, c)|, |nodes|)] == s.plans[c := Pulled(|Final(s, c)|, |nodes|)];
        var named := s.(st := s.st.(next := Some(next)));
        InvNext(s);
        SchedulingKeepsInv(s, named);
        PullKeepsInv(named, c, |Final(s, c)|, nodes);
      case Environment(active, peers) => SchedulingKeepsInv(s, s');
      case RunNext =>
        InvNext(s);
        SchedulingKeepsInv(s, s');
      case Resend(c) => ResendKeepsInv(s, c);
      case Serve(r, holds, knows) => ServeKeepsInv(s, r, holds, knows);
      case Deliver(t, pick) => DeliverKeepsInv(s, t, pick);
    }
  }

  lemma InitInv(s: System)
    requires Init(s)
    ensures Inv(s)
  {
  }

  lemma {:induction false} RunKeepsInv(run: seq<System>, i: nat)
    requires IsRun(run) && i < |run|
    ensures Inv(run[i]) && run[i].finals == run[0].finals
  {
    hide Inv, Step, Init;
    if i == 0 {
      InitInv(run[0]);
    } else {
      RunKeepsInv(run, i - 1);
      assert Step(run[i - 1], run[i]);
      StepKeepsInv(run[i - 1], run[i]);
    }
  }

  // ----- what a pull yields -----------------------------------------------------------------

  lemma ReachIsWhole(len: nat, n: nat, total: nat)
    requires n > 0 && len <= total
    ensures Reach(len, n) == total <==> len == total && total % n == 0
  {
    ReachBounds(len, n);
  }

  /** Whatever order, loss, duplication and retries occurred, a pulled sequence is the
      first n * (len / n) entries of the final sequence; it is the whole sequence if and
      only if the announced length is right and the number of source nodes divides it. */
  lemma PulledIsPrefix(run: seq<System>, i: nat, c: nat)
    requires IsRun(run) && i < |run| && c in run[i].st.sequences
    ensures c in run[i].plans && run[i].plans[c].n > 0
    ensures
      var s, p := run[i], run[i].plans[c];
      && p.len <= |Final(s, c)| && Reach(p.len, p.n) <= |Final(s, c)|
      && s.st.sequences[c] == Final(s, c)[..Reach(p.len, p.n)]
      && (s.st.sequences[c] == Final(s, c) <==> p.len == |Final(s, c)| && p.len % p.n == 0)
  {
    RunKeepsInv(run, i);
    var s := run[i];
    hide IsRun, Plan, Pulling, TransferInv, Planned, Reach;
    assert ConfigInv(s, c);
    var p := s.plans[c];
    ReachIsWhole(p.len, p.n, |Final(s, c)|);
    assert s.st.sequences[c] == Final(s, c)[..Reach(p.len, p.n)];
    assert Reach(p.len, p.n) == |Final(s, c)| <==> s.st.sequences[c] == Final(s, c);
  }

  /** As long as a pull is not finished, a planned segment has not arrived. */
  lemma UnfinishedMissesSegment(run: seq<System>, i: nat, c: nat) returns (idx: SegmentIndex)
    requires IsRun(run) && i < |run| && c in run[i].plans && c !in run[i].st.sequences
    ensures Planned(run[i], c, idx) && forall x :: x in Received(run[i].st, c) ==> x.idx != idx
  {
    RunKeepsInv(run, i);
    var s := run[i];
    hide IsRun, Plan, IsReached, TransferInv, NoRepeats, IsCut;
    assert ConfigInv(s, c);
    idx := s.st.pending[c][0];
    assert idx in s.st.pending[c];
  }

  /** A transfer in flight makes the receiver panic if and only if it is new, asks for the
      pull of the previous sequence, and no ready peer is known. In particular a completed
      sequence always finds the next configuration set. */
  lemma OnlyPanicIsNoPeer(run: seq<System>, i: nat, t: Transfer, pick: nat)
    requires IsRun(run) && i < |run| && t in run[i].transfers
    ensures HandleTransfer(run[i].st, t, pick).None? <==>
      && !HasHandled(run[i].st, t.configId, t.segment.idx)
      && PullsPrevious(run[i].st, t) && run[i].st.peers == []
  {
    RunKeepsInv(run, i);
    var s := run[i];
    hide IsRun, Inv, HasHandled, Store, Plan;
    if !HasHandled(s.st, t.configId, t.segment.idx) {
      NewTransferPulled(s, t);
      if !(PullsPrevious(s.st, t) && s.st.peers == []) {
        StoreSucceeds(Previous(s.st, t).0, t);
      }
    }
  }

  lemma StoreSucceeds(st: PullState, t: Transfer)
    requires t.configId in st.pending && st.next.Some?
    ensures Store(st, t).Some?
  {
    hide Without, Flatten, SortByFrom;
  }

  /** When a new segment arrives its sequence is being pulled and the next configuration
      is set. */
  lemma NewTransferPulled(s: System, t: Transfer)
    requires Inv(s) && t in s.transfers && !HasHandled(s.st, t.configId, t.segment.idx)
    ensures t.configId in s.st.pending && t.metadata.configId != t.configId && s.st.next.Some?
  {
    hide Plan, IsCut, Pulling, IsReached;
    assert TransferInv(s, t);
    NewTransfer(s, t);
    assert ConfigInv(s, t.configId);
  }

  /** Two entries stored out of order: the second comes first. */
  lemma FirstArrival(a: Entry, b: Entry)
    ensures
      var i0, i1 := SegmentIndex(0, 1), SegmentIndex(1, 2);
      var st := PullState(map[1 := [i0, i1]], map[], map[], 0, Some(2), []);
      HandleTransfer(st, Transfer(1, true, Metadata(0, 0), Segment(i1, [b])), 0)
        == Some((PullState(map[1 := [i0]], map[1 := [Segment(i1, [b])]], map[], 0, Some(2), []), []))
  {
    var i0, i1 := SegmentIndex(0, 1), SegmentIndex(1, 2);
    var st := PullState(map[1 := [i0, i1]], map[], map[], 0, Some(2), []);
    var t := Transfer(1, true, Metadata(0, 0), Segment(i1, [b]));
    assert [i0, i1][..1] == [i0] && Without([i0], i1) == [i0];
    assert Without([i0, i1], i1) == [i0];
    assert !HasHandled(st, 1, i1);
    hide Without, HandleTransfer, HasHandled;
    assert st.pending[1 := [i0]] == map[1 := [i0]];
    assert [] + [t.segment] == [t.segment] && st.received[1 := [t.segment]] == map[1 := [t.segment]];
    PlainTransfer(st, t);
  }

  lemma SecondArrival(a: Entry, b: Entry)
    ensures
      var i0, i1 := SegmentIndex(0, 1), SegmentIndex(1, 2);
      var st := PullState(map[1 := [i0]], map[1 := [Segment(i1, [b])]], map[], 0, Some(2), []);
      HandleTransfer(st, Transfer(1, true, Metadata(0, 0), Segment(i0, [a])), 0)
        == Some((PullState(map[], map[], map[1 := [a, b]], 2, None, []), []))
  {
    var i0, i1 := SegmentIndex(0, 1), SegmentIndex(1, 2);
    var sa, sb := Segment(i0, [a]), Segment(i1, [b]);
    var st := PullState(map[1 := [i0]], map[1 := [sb]], map[], 0, Some(2), []);
    var t := Transfer(1, true, Metadata(0, 0), sa);
    assert !HasHandled(st, 1, i0);
    hide HasHandled, HandleTransfer, SortByFrom, Flatten, Insert, Complete;
    Reordered(sa, sb);
    var st1 := PullState(map[1 := []], map[1 := [sb, sa]], map[], 0, Some(2), []);
    LastReceived(st, sa, sb, st1);
    LastSegment(st1, a, b);
    PlainTransfer(st, t);
  }

  lemma LastReceived(st: PullState, sa: Segment, sb: Segment, st1: PullState)
    requires st == PullState(map[1 := [sa.idx]], map[1 := [sb]], map[], 0, Some(2), [])
    requires st1 == PullState(map[1 := []], map[1 := [sb, sa]], map[], 0, Some(2), [])
    ensures Receive(st, 1, sa) == st1
  {
    assert Without([sa.idx], sa.idx) == [];
    assert st.pending[1 := []] == st1.pending;
    assert [sb] + [sa] == [sb, sa] && st.received[1 := [sb, sa]] == st1.received;
  }

  /** A new segment whose transfer pulls nothing else is stored. */
  lemma PlainTransfer(st: PullState, t: Transfer)
    requires !HasHandled(st, t.configId, t.segment.idx) && !PullsPrevious(st, t) && t.succeeded
    requires t.configId in st.pending && Store(st, t).Some?
    ensures HandleTransfer(st, t, 0) == Some((Store(st, t).value, []))
  {
    hide HasHandled, Store;
  }

  lemma LastSegment(st: PullState, a: Entry, b: Entry)
    requires 1 in st.pending && 1 in st.received
    requires st == PullState(map[1 := []], map[1 := st.received[1]], map[], 0, Some(2), [])
    requires Flatten(SortByFrom(st.received[1])) == [a, b]
    ensures Complete(st, 1) == Some(PullState(map[], map[], map[1 := [a, b]], 2, None, []))
  {
    hide SortByFrom, Flatten;
    assert st.pending - {1} == map[] && st.received - {1} == map[];
    assert st.sequences[1 := [a, b]] == map[1 := [a, b]];
    assert |map[1 := [a, b]]| == 1;
  }

  lemma Reordered(sa: Segment, sb: Segment)
    requires sa.idx.from < sb.idx.from
    ensures Flatten(SortByFrom([sb, sa])) == sa.entries + sb.entries
  {
    assert [sb, sa][..1] == [sb] && [sb][..0] == [];
    assert SortByFrom([sb]) == [sb];
    assert SortByFrom([sb, sa]) == Insert([sb], sa) == [sa, sb];
    assert [sa, sb][..1] == [sa] && Flatten([sa]) == sa.entries;
  }

  /** Three entries pulled from two nodes: the third entry is lost. */
  lemma TailIsLost(a: Entry, b: Entry, c: Entry)
    ensures
      var st0 := PullState(map[], map[], map[], 0, Some(2), []);
      var none := Metadata(0, 0);
      var st1 := Pull(st0, 1, |[a, b, c]|, [7, 8]).0;
      var first := HandleTransfer(st1, Transfer(1, true, none, Segment(SegmentIndex(1, 2), [b])), 0);
      && first.Some?
      && var second := HandleTransfer(first.value.0, Transfer(1, true, none, Segment(SegmentIndex(0, 1), [a])), 0);
      && second.Some? && second.value.0.sequences == map[1 := [a, b]]
  {
    var st0 := PullState(map[], map[], map[], 0, Some(2), []);
    var i0, i1 := SegmentIndex(0, 1), SegmentIndex(1, 2);
    assert Plan(3, 2) == [i0, i1];
    assert Pull(st0, 1, 3, [7, 8]).0 == PullState(map[1 := [i0, i1]], map[], map[], 0, Some(2), []);
    hide HandleTransfer;
    FirstArrival(a, b);
    SecondArrival(a, b);
  }
}
