/** Safety of Multi-Paxos over whole runs. */
module MultiPaxosSafety {
  import opened PaxosTypes
  import opened RoundRobin
  import opened LeaderRole
  import opened MultiPaxos
  import opened MultiPaxosInvariant
  import opened MultiPaxosPreservation
  import opened MultiPaxosLeaderSteps
  import opened MultiPaxosProposing
  import A = AcceptorRole
  import P = ProxyRole
  import R = ReplicaRole
  import B = BatcherRole

  lemma InitLeaderInv(s: System, p: Pid)
    requires Init(s) && p in Pids(s.n)
    ensures LeaderInv(s, p) && OpenSlots(s, p)
  {
    hide SafeAt;
    FirstRoundOwner(s.n);
    assert s.leaders[p] == InitLeader(s.n, p);
    assert Phase1aMsg(s.n, s.n, 0) in s.net;
  }

  lemma InitNetInv(s: System)
    requires Init(s)
    ensures NetInv(s)
  {
    hide ChosenBy, InfoIsVoted, InfoIsComplete;
    FirstRoundOwner(s.n);
    assert s.leaders[s.n] == InitLeader(s.n, s.n);
  }

  lemma InitEstablishesInv(s: System)
    requires Init(s)
    ensures Inv(s)
  {
    hide LeaderInv, AcceptorInv, ProxyInv, LogInv, BatcherInv, OpenSlots, NetInv, SafeAt, NextRound, Owner;
    InitNetInv(s);
    forall p | p in Pids(s.n)
      ensures LeaderInv(s, p) && AcceptorInv(s, p) && ProxyInv(s, p) && LogInv(s, p) && BatcherInv(s, p)
      ensures OpenSlots(s, p)
    {
      InitLeaderInv(s, p);
      InitProcessInv(s, p);
    }
  }

  lemma InitProcessInv(s: System, p: Pid)
    requires Init(s) && p in Pids(s.n)
    ensures AcceptorInv(s, p) && ProxyInv(s, p) && LogInv(s, p) && BatcherInv(s, p)
  {
    hide NextRound, Owner, HasVote, HasProposal;
  }

  lemma StepKeepsInv(s: System, a: Action)
    requires Inv(s) && Enabled(s, a)
    ensures Inv(Apply(s, a))
  {
    hide Inv, Apply, Enabled;
    match a
    case Election(_, _) => ElectionKeepsInv(s, a);
    case LeaderGetsPhase1b(p, m, rec) => Phase1bKeepsInv(s, p, m, rec);
    case LeaderGetsNack(_, _) => ElectionKeepsInv(s, a);
    case LeaderGetsWatermark(p, m) => WatermarkKeepsInv(s, p, m);
    case LeaderGetsRecover(_, _) => ElectionKeepsInv(s, a);
    case LeaderGetsBatch(p, m) => BatchKeepsInv(s, p, m);
    case LeaderGetsInfoRequest(p, m) => InfoRequestKeepsInv(s, p, m);
    case LeaderFlushesNoop(p) => FlushKeepsInv(s, p);
    case AcceptorGetsPhase1a(p, m, info) => Phase1aKeepsInv(s, p, m, info);
    case AcceptorGetsPhase2a(p, m) => Phase2aKeepsInv(s, p, m);
    case ProxyGetsPropose(p, m) => ProposeKeepsInv(s, p, m);
    case ProxyGetsPhase2b(p, m) => Phase2bKeepsInv(s, p, m);
    case ReplicaGetsChosen(p, m) => ChosenKeepsInv(s, p, m);
    case ReplicaRecovers(p) => RecoverTimerKeepsInv(s, p);
    case BatcherGetsProposal(_, _) => BatcherKeepsInv(s, a);
    case BatcherFlushes(_) => BatcherKeepsInv(s, a);
    case BatcherGetsNotLeader(_, _) => BatcherKeepsInv(s, a);
    case BatcherGetsLeaderInfo(_, _) => BatcherKeepsInv(s, a);
  }

  /** The invariant holds in every state of every run. */
  lemma {:induction false} RunKeepsInv(run: seq<System>, i: nat)
    requires IsRun(run) && i < |run|
    ensures Inv(run[i])
  {
    hide Inv, Apply, Enabled, Init;
    if i == 0 {
      InitEstablishesInv(run[0]);
    } else {
      RunKeepsInv(run, i - 1);
      assert Step(run[i - 1], run[i - 1 + 1]);
      var a :| Enabled(run[i - 1], a) && run[i] == Apply(run[i - 1], a);
      StepKeepsInv(run[i - 1], a);
    }
  }

  // ----- agreement ---------------------------------------------------------------

  /** A value chosen in an earlier round is the value proposed in a later one. */
  lemma ChosenBindsLater(s: System, slot: Slot, src: Pid, r: Round, v: Value, q: set<Pid>, m: Message)
    requires Inv(s) && GoodSlot(s, slot) && ChosenBy(s, src, slot, r, v, q)
    requires m in s.net && m.ProposeMsg? && m.slot == slot && r < m.round
    ensures m.value == v
  {
    hide NetInv, UniquePhase1a, UniqueProposals, ProcessInv, OpenSlots, GoodSlot;
    assert SafeAt(s, slot, m.round, m.value);
    assert Settled(s, slot, r, m.value);
    var q' :| Settles(s, q', slot, r, m.value);
    var a := QuorumsIntersect(s.n, q, q');
    assert HasVoteIn(s, a, slot, r);
    var w :| HasVote(s, a, slot, r, w);
    var dst :| Phase2bMsg(dst, a, slot, r, w) in s.net;
    var vote := Phase2bMsg(dst, a, slot, r, w);
    assert IsVote(vote, a, slot, r);
    var inPhase2, from :| ProposeMsg(src, slot, r, v, inPhase2, from) in s.net;
    OneValuePerRound(s, slot, ProposeMsg(src, slot, r, v, inPhase2, from), vote);
  }

  /** The round, the voters and the proposal behind a Chosen message. */
  lemma ChosenWitness(s: System, slot: Slot, v: Value) returns (q: set<Pid>, m: Message)
    requires Inv(s) && ChosenMsg(slot, v) in s.net
    ensures m in s.net && m.ProposeMsg? && m.slot == slot && m.value == v
    ensures ChosenBy(s, m.src, slot, m.round, v, q)
  {
    hide UniquePhase1a, UniqueProposals, ProcessInv, SafetyInv, InfoIsVoted, InfoIsComplete;
    assert MessageInv(s, ChosenMsg(slot, v));
    var src, r, votes :| ChosenBy(s, src, slot, r, v, votes);
    var inPhase2, from :| ProposeMsg(src, slot, r, v, inPhase2, from) in s.net;
    q, m := votes, ProposeMsg(src, slot, r, v, inPhase2, from);
  }

  lemma ChosenAgree(s: System, slot: Slot, v: Value, v': Value)
    requires Inv(s) && GoodSlot(s, slot)
    requires ChosenMsg(slot, v) in s.net && ChosenMsg(slot, v') in s.net
    ensures v == v'
  {
    hide NetInv, UniquePhase1a, ProcessInv, SafetyInv, ChosenBy;
    var q, m := ChosenWitness(s, slot, v);
    var q', m' := ChosenWitness(s, slot, v');
    if m.round < m'.round {
      ChosenBindsLater(s, slot, m.src, m.round, v, q, m');
    } else if m'.round < m.round {
      ChosenBindsLater(s, slot, m'.src, m'.round, v', q', m);
    } else {
      assert SameSlotRound(m, m');
    }
  }

  /** AGREEMENT.  In every state of every run, no two Chosen messages for a good
      slot carry different values, whatever rounds and proposers they come from. */
  lemma Agreement(run: seq<System>, i: nat, slot: Slot, v: Value, v': Value)
    requires IsRun(run) && i < |run| && GoodSlot(run[i], slot)
    requires ChosenMsg(slot, v) in run[i].net && ChosenMsg(slot, v') in run[i].net
    ensures v == v'
  {
    RunKeepsInv(run, i);
    ChosenAgree(run[i], slot, v, v');
  }

  /** A slot is good exactly when each of its proposals was issued in Phase 2 at or
      above the watermark that the one Phase1a of its round carried. */
  lemma GoodSlotMeaning(run: seq<System>, i: nat, slot: Slot)
    requires IsRun(run) && i < |run|
    ensures GoodSlot(run[i], slot) <==>
      forall m :: m in run[i].net && m.ProposeMsg? && m.slot == slot ==>
        m.inPhase2 && exists w: Slot :: Phase1aMsg(m.src, m.round, w) in run[i].net && w <= slot
  {
    hide ProcessInv, SafetyInv, UniqueProposals, ChosenBy, InfoIsVoted, InfoIsComplete;
    var s := run[i];
    RunKeepsInv(run, i);
    forall m | m in s.net && m.ProposeMsg? && m.slot == slot && m.inPhase2
      ensures Covered(m) <==> exists w: Slot :: Phase1aMsg(m.src, m.round, w) in s.net && w <= slot
    {
      assert MessageInv(s, m);
      assert Phase1aMsg(m.src, m.round, m.from) in s.net;
    }
  }

  /** VALIDITY.  A chosen batch was sent by some batcher. */
  lemma Validity(run: seq<System>, i: nat, slot: Slot, batch: CommandBatch)
    requires IsRun(run) && i < |run| && ChosenMsg(slot, Batch(batch)) in run[i].net
    ensures exists dst, batcher :: ClientBatchMsg(dst, batcher, batch) in run[i].net
  {
    hide ProcessInv, SafetyInv, UniqueProposals, UniquePhase1a, InfoIsVoted, InfoIsComplete;
    var s := run[i];
    RunKeepsInv(run, i);
    var q, m := ChosenWitness(s, slot, Batch(batch));
    assert MessageInv(s, m);
    assert Submitted(s, Batch(batch));
  }

  // ----- round ownership -----------------------------------------------------------

  /** ROUND OWNERSHIP.  Every proposal that carries a client batch or was issued in
      Phase 2 is in a round that belongs to its issuer, although all leaders but one
      start in Phase 2 at a round of somebody else. */
  lemma RoundOwnership(run: seq<System>, i: nat, m: Message)
    requires IsRun(run) && i < |run| && m in run[i].net && m.ProposeMsg?
    requires m.value.Batch? || m.inPhase2
    ensures run[i].n > 0 && Owner(run[i].n, m.round) == m.src
  {
    hide ProcessInv, SafetyInv, UniqueProposals, UniquePhase1a, ChosenBy, InfoIsVoted, InfoIsComplete, Owner;
    RunKeepsInv(run, i);
    assert MessageInv(run[i], m);
    Phase2ProposalOwner(run[i], m);
  }

  // ----- replicas ---------------------------------------------------------------------

  /** The values a replica has executed, in order (every executed slot is filled). */
  function Executed(r: R.ReplicaState): seq<Value> {
    seq(r.executed, k requires 0 <= k < r.executed => if k in r.log then r.log[k] else Noop)
  }

  /** The slots below `w` are filled with chosen values and executed at replica `r`. */
  ghost predicate HasExecuted(s: System, r: Pid, w: Slot) {
    && r in s.replicas
    && w <= s.replicas[r].executed
    && forall slot :: 0 <= slot < w ==> slot in s.replicas[r].log && ChosenMsg(slot, s.replicas[r].log[slot]) in s.net
  }

  lemma ExecutedIsChosen(run: seq<System>, i: nat, p: Pid, w: Slot)
    requires IsRun(run) && i < |run| && p in run[i].replicas && w <= run[i].replicas[p].executed
    ensures HasExecuted(run[i], p, w)
  {
    hide NetInv, UniqueProposals, UniquePhase1a, SafetyInv, LeaderInv, AcceptorInv, ProxyInv, BatcherInv, IsRun;
    RunKeepsInv(run, i);
    assert LogInv(run[i], p);
  }

  /** LOG CONSISTENCY.  If the slots that both replicas executed are good, one
      executed sequence is a prefix of the other. */
  lemma ReplicaConsistency(run: seq<System>, i: nat, p: Pid, q: Pid)
    requires IsRun(run) && i < |run| && p in run[i].replicas && q in run[i].replicas
    requires forall slot :: 0 <= slot < run[i].replicas[p].executed && slot < run[i].replicas[q].executed ==>
      GoodSlot(run[i], slot)
    ensures Executed(run[i].replicas[p]) <= Executed(run[i].replicas[q]) ||
      Executed(run[i].replicas[q]) <= Executed(run[i].replicas[p])
  {
    hide IsRun, GoodSlot;
    var rp, rq := run[i].replicas[p], run[i].replicas[q];
    ExecutedIsChosen(run, i, p, rp.executed);
    ExecutedIsChosen(run, i, q, rq.executed);
    forall k | 0 <= k < rp.executed && k < rq.executed
      ensures Executed(rp)[k] == Executed(rq)[k]
    {
      Agreement(run, i, k, rp.log[k], rq.log[k]);
    }
  }

  /** What a replica executed it never revises. */
  lemma {:induction false} ExecutedOnlyExtends(run: seq<System>, i: nat, j: nat, p: Pid)
    requires IsRun(run) && i <= j < |run| && p in run[i].replicas
    ensures p in run[j].replicas && Executed(run[i].replicas[p]) <= Executed(run[j].replicas[p])
    decreases j
  {
    hide Inv, Apply, Enabled, Init;
    if i < j {
      ExecutedOnlyExtends(run, i, j - 1, p);
      assert Step(run[j - 1], run[j - 1 + 1]);
      var a :| Enabled(run[j - 1], a) && run[j] == Apply(run[j - 1], a);
      RunKeepsInv(run, j - 1);
      StepExtendsLog(run[j - 1], a, p);
    }
  }

  lemma ChosenExtendsLog(c: R.ReplicaConfig, r: R.ReplicaState, slot: Slot, v: Value)
    requires c.every > 0 && c.n > 0 && R.ReplicaInv(r)
    ensures Executed(r) <= Executed(R.HandleChosen(c, r, slot, v).0)
  {
    R.HandleChosenKeepsCounters(c, r, slot, v);
  }

  /** Only a Chosen message moves a replica, and only the one that handles it. */
  lemma OtherReplicasStay(s: System, a: Action, p: Pid)
    requires Enabled(s, a) && p in s.replicas && !(a.ReplicaGetsChosen? && a.p == p)
    ensures var s' := Apply(s, a); p in s'.replicas && s'.replicas[p] == s.replicas[p]
  {
    hide LeaderStep, R.HandleChosen, P.HandlePropose, P.HandlePhase2b, A.HandlePhase1a, A.HandlePhase2a, B.Flush,
      B.HandleNotLeader, B.HandleLeaderInfo, WellFormed;
  }

  lemma ReplicaLog(s: System, p: Pid)
    requires Inv(s) && p in s.replicas
    ensures p in Pids(s.n) && R.ReplicaInv(s.replicas[p])
  {
    hide NetInv, UniqueProposals, UniquePhase1a, SafetyInv, LeaderInv, AcceptorInv, ProxyInv, BatcherInv,
      R.ReplicaInv;
    assert LogInv(s, p);
  }

  lemma StepExtendsLog(s: System, a: Action, p: Pid)
    requires Inv(s) && Enabled(s, a) && p in s.replicas
    ensures var s' := Apply(s, a); p in s'.replicas && Executed(s.replicas[p]) <= Executed(s'.replicas[p])
  {
    hide Inv, Executed, R.HandleChosen, R.ReplicaInv;
    if a.ReplicaGetsChosen? && a.p == p {
      ReplicaLog(s, p);
      ChosenExtendsLog(ReplicaConfigOf(s, p), s.replicas[p], a.msg.slot, a.msg.value);
      ChosenMoves(s, a);
    } else {
      hide Apply, Enabled;
      OtherReplicasStay(s, a, p);
      SamePrefix(s.replicas[p]);
    }
  }

  lemma ChosenMoves(s: System, a: Action)
    requires Enabled(s, a) && a.ReplicaGetsChosen?
    ensures var s' := Apply(s, a);
      && a.p in s'.replicas
      && s'.replicas[a.p] == R.HandleChosen(ReplicaConfigOf(s, a.p), s.replicas[a.p], a.msg.slot, a.msg.value).0
  {
    hide R.HandleChosen;
  }

  lemma SamePrefix(r: R.ReplicaState)
    ensures Executed(r) <= Executed(r)
  {
  }

  /** WATERMARK SOUNDNESS.  Every slot below a watermark that is in flight or held
      by a leader was executed by some replica. */
  lemma WatermarkSoundness(run: seq<System>, i: nat, w: Slot)
    requires IsRun(run) && i < |run|
    requires WatermarkMsg(w) in run[i].net || exists p :: p in run[i].leaders && run[i].leaders[p].watermark == w
    ensures exists r :: HasExecuted(run[i], r, w)
  {
    hide HasExecuted, IsRun, Inv;
    RunKeepsInv(run, i);
    var r := WatermarkWitness(run[i], w);
    ExecutedIsChosen(run, i, r, w);
  }

  lemma WatermarkWitness(s: System, w: Slot) returns (r: Pid)
    requires Inv(s)
    requires WatermarkMsg(w) in s.net || exists p :: p in s.leaders && s.leaders[p].watermark == w
    ensures r in s.replicas && s.replicas[r].executed >= w
  {
    hide SafetyInv, UniqueProposals, UniquePhase1a, AcceptorInv, ProxyInv, BatcherInv, LogInv, MessageInv,
      LeaderInv;
    if WatermarkMsg(w) in s.net {
      AnnouncedWatermark(s, w);
    } else {
      var p :| p in s.leaders && s.leaders[p].watermark == w;
      assert LeaderInv(s, p);
      HeldWatermark(s, p);
    }
    r :| r in Pids(s.n) && s.replicas[r].executed >= w;
  }

  lemma AnnouncedWatermark(s: System, w: Slot)
    requires WellFormed(s) && MessageInv(s, WatermarkMsg(w))
    ensures exists r :: r in Pids(s.n) && s.replicas[r].executed >= w
  {
    hide ChosenBy, InfoIsVoted, InfoIsComplete, HasProposal, Submitted, Owner;
  }

  lemma HeldWatermark(s: System, p: Pid)
    requires WellFormed(s) && p in Pids(s.n) && LeaderInv(s, p)
    ensures exists r :: r in Pids(s.n) && s.replicas[r].executed >= s.leaders[p].watermark
  {
    hide Owner, OwnerInv, StoredReports, IssuedBelow, PendingSubmitted;
    assert p in Pids(s.n) && s.replicas[p].executed >= 0;
  }
}
