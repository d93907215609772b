/** Every step of the Multi-Paxos transition system keeps the invariant. */
module MultiPaxosPreservation {
  import opened Common
  import opened PaxosTypes
  import opened RoundRobin
  import opened LeaderRole
  import opened MultiPaxos
  import opened MultiPaxosInvariant
  import A = AcceptorRole
  import P = ProxyRole
  import R = ReplicaRole
  import B = BatcherRole

  // ----- frames ----------------------------------------------------------------

  lemma AcceptorFrame(s: System, s': System, a: Pid)
    requires Grows(s, s') && a in Pids(s.n) && AcceptorInv(s, a) && s'.acceptors[a] == s.acceptors[a]
    ensures AcceptorInv(s', a)
  {
    HistoryGrows(s, s');
  }

  lemma ProxyFrame(s: System, s': System, p: Pid)
    requires Grows(s, s') && p in Pids(s.n) && ProxyInv(s, p) && s'.proxies[p] == s.proxies[p]
    ensures ProxyInv(s', p)
  {
    HistoryGrows(s, s');
  }

  /** A leader that did not move keeps its invariant unless somebody proposes in
      its name. */
  lemma LeaderFrame(s: System, s': System, p: Pid)
    requires Grows(s, s') && p in Pids(s.n) && LeaderInv(s, p) && s'.leaders[p] == s.leaders[p]
    requires forall m :: m in s'.net && m !in s.net && m.ProposeMsg? ==> m.src != p
    ensures LeaderInv(s', p)
  {
    WatermarkFrame(s, s', s.leaders[p].watermark);
    hide Grows, Owner, Submitted, OwnerInv, StoredReports, IssuedBelow, PendingSubmitted, ExecutedBelow;
    GrowsBasics(s, s');
    LeaderParts(s, s', p, s.leaders[p]);
  }

  /** The parts of a leader's invariant that speak of the network. */
  lemma LeaderParts(s: System, s': System, p: Pid, l: LeaderState)
    requires WellFormed(s) && WellFormed(s') && s'.n == s.n && s.net <= s'.net
    ensures OwnerInv(s, p, l) ==> OwnerInv(s', p, l)
    ensures StoredReports(s, p, l) ==> StoredReports(s', p, l)
    ensures PendingSubmitted(s, l) ==> PendingSubmitted(s', l)
    ensures IssuedBelow(s, p, l) && (forall m :: m in s'.net && m !in s.net && m.ProposeMsg? ==> m.src != p) ==>
      IssuedBelow(s', p, l)
  {
    hide Owner, HasProposal, HasVote, HasVoteIn, Submitted;
    HistoryGrows(s, s');
  }

  lemma WatermarkExecuted(s: System, m: Message)
    requires WellFormed(s) && m.WatermarkMsg? && MessageInv(s, m)
    ensures ExecutedBelow(s, m.slot)
  {
    hide InfoIsVoted, InfoIsComplete, ChosenBy, HasProposal, Submitted, Owner;
  }

  lemma WatermarkFrame(s: System, s': System, w: Slot)
    requires Grows(s, s') && ExecutedBelow(s, w)
    ensures ExecutedBelow(s', w)
  {
    if w != 0 {
      var r :| r in Pids(s.n) && s.replicas[r].executed >= w;
      assert s'.replicas[r].executed >= w;
    }
  }

  lemma OpenSlotsFrame(s: System, s': System, p: Pid)
    requires Grows(s, s') && p in Pids(s.n) && OpenSlots(s, p) && s'.leaders[p] == s.leaders[p]
    ensures OpenSlots(s', p)
  {
    var l := s.leaders[p];
    if l.phase.Phase2? && !Untouched(s, p) {
      forall slot, v | slot >= l.nextSlot && slot >= l.from
        ensures SafeAt(s', slot, l.round, v)
      {
        SafeAtGrows(s, s', slot, l.round, v);
      }
    }
  }

  lemma ProposalsSafeFrame(s: System, s': System)
    requires Grows(s, s') && ProposalsSafe(s)
    requires forall m :: m in s'.net && m !in s.net && m.ProposeMsg? && GoodSlot(s', m.slot) ==>
      SafeAt(s', m.slot, m.round, m.value)
    ensures ProposalsSafe(s')
  {
    forall m | m in s'.net && m.ProposeMsg? && GoodSlot(s', m.slot)
      ensures SafeAt(s', m.slot, m.round, m.value)
    {
      if m in s.net {
        assert GoodSlot(s, m.slot);
        SafeAtGrows(s, s', m.slot, m.round, m.value);
      }
    }
  }

  /** No leader moves, and no Phase1a or proposal is sent. */
  ghost predicate Quiet(s: System, s': System) {
    && s'.leaders == s.leaders
    && forall m :: m in s'.net && m !in s.net ==> !m.Phase1aMsg? && !m.ProposeMsg?
  }

  /** A quiet step keeps everything that concerns leaders and proposals. */
  lemma QuietStep(s: System, s': System)
    requires Inv(s) && Grows(s, s') && Quiet(s, s')
    requires forall m :: m in s'.net && m !in s.net ==> MessageInv(s', m)
    requires forall p :: p in Pids(s.n) ==> AcceptorInv(s', p) && ProxyInv(s', p) && LogInv(s', p) && BatcherInv(s', p)
    ensures Inv(s')
  {
    NetGrows(s, s');
    forall p | p in Pids(s.n)
      ensures LeaderInv(s', p) && OpenSlots(s', p)
    {
      LeaderFrame(s, s', p);
      OpenSlotsFrame(s, s', p);
    }
    ProposalsSafeFrame(s, s');
  }

  lemma LogFrame(s: System, s': System, p: Pid)
    requires Grows(s, s') && p in Pids(s.n) && LogInv(s, p) && s'.replicas[p] == s.replicas[p]
    ensures LogInv(s', p)
  {
  }

  lemma BatcherFrame(s: System, s': System, p: Pid)
    requires Grows(s, s') && p in Pids(s.n) && BatcherInv(s, p) && s'.batchers[p] == s.batchers[p]
    ensures BatcherInv(s', p)
  {
  }

  /** Growth without a move of leaders, acceptors or replicas. */
  lemma NetOnlyGrows(s: System, s': System)
    requires WellFormed(s) && WellFormed(s') && s'.n == s.n && s.net <= s'.net
    requires s'.leaders == s.leaders && s'.acceptors == s.acceptors && s'.replicas == s.replicas
    requires forall m :: m in s'.net && m !in s.net ==> !m.Phase2bMsg?
    ensures Grows(s, s')
  {
  }

  // ----- acceptors -------------------------------------------------------------

  lemma AcceptorStepGrows(s: System, p: Pid, r: (A.AcceptorState, Message))
    requires WellFormed(s) && p in Pids(s.n)
    requires r.0.round >= s.acceptors[p].round
    requires forall slot :: slot in s.acceptors[p].votes ==>
      slot in r.0.votes && s.acceptors[p].votes[slot].round <= r.0.votes[slot].round
    requires r.1.Phase2bMsg? ==> r.1.acceptor == p && r.1.round >= s.acceptors[p].round
    ensures Grows(s, WithAcceptor(s, p, r))
  {
    var s' := WithAcceptor(s, p, r);
    assert WellFormed(s');
    assert forall m :: m in s'.net && m !in s.net ==> m == r.1;
  }

  lemma AcceptorStep(s: System, p: Pid, r: (A.AcceptorState, Message))
    requires WellFormed(s) && p in Pids(s.n)
    requires var s' := WithAcceptor(s, p, r); Grows(s, s') && MessageInv(s', r.1) && AcceptorInv(s', p)
    requires !r.1.Phase1aMsg? && !r.1.ProposeMsg?
    requires Inv(s)
    ensures Inv(WithAcceptor(s, p, r))
  {
    hide SafetyInv, UniqueProposals, UniquePhase1a, MessageInv, LeaderInv, AcceptorInv, ProxyInv, LogInv,
      BatcherInv, Grows;
    var s' := WithAcceptor(s, p, r);
    assert WellFormed(s');
    forall q | q in Pids(s.n)
      ensures AcceptorInv(s', q) && ProxyInv(s', q) && LogInv(s', q) && BatcherInv(s', q)
    {
      if q != p {
        AcceptorFrame(s, s', q);
      }
      ProxyFrame(s, s', q);
      LogFrame(s, s', q);
      BatcherFrame(s, s', q);
    }
    QuietStep(s, s');
  }

  /** The report an acceptor sends in answer to a Phase1a. */
  lemma ReportInv(s: System, s': System, p: Pid, m: Message, info: seq<SlotInfo>)
    requires Grows(s, s') && NetInv(s) && p in Pids(s.n) && AcceptorInv(s, p)
    requires m in s.net && m.Phase1aMsg? && m.round >= s.acceptors[p].round
    requires A.IsReport(s.acceptors[p].votes, m.watermark, info)
    requires s'.acceptors[p].round == m.round
    requires forall v :: v in s'.net && v !in s.net ==> !v.Phase2bMsg?
    ensures MessageInv(s', Phase1bMsg(m.src, Phase1b(p, m.round, info)))
  {
    hide ChosenBy, Grows, Owner, InfoIsVoted, InfoIsComplete, NetInv, HasProposal, HasVote, HasVoteIn, Submitted;
    GrowsBasics(s, s');
    var b := Phase1b(p, m.round, info);
    assert MessageInv(s, m) by { NetHolds(s, m); }
    ReportIsVoted(s, s', p, m, info);
    ReportIsComplete(s, s', p, m, info);
    assert Phase1aMsg(m.src, b.round, m.watermark) in s'.net;
  }

  lemma NetHolds(s: System, m: Message)
    requires WellFormed(s) && NetInv(s) && m in s.net
    ensures MessageInv(s, m)
  {
    hide MessageInv;
  }

  lemma ReportIsVoted(s: System, s': System, p: Pid, m: Message, info: seq<SlotInfo>)
    requires WellFormed(s) && s.net <= s'.net && p in Pids(s.n) && AcceptorInv(s, p)
    requires m.Phase1aMsg? && m.round >= s.acceptors[p].round
    requires A.IsReport(s.acceptors[p].votes, m.watermark, info)
    ensures InfoIsVoted(s', Phase1b(p, m.round, info))
  {
    hide HasProposal, HasVote, HasVoteIn, Submitted;
    HistoryGrows(s, s');
  }

  lemma ReportIsComplete(s: System, s': System, p: Pid, m: Message, info: seq<SlotInfo>)
    requires WellFormed(s) && NetInv(s) && p in Pids(s.n) && m.Phase1aMsg?
    requires A.IsReport(s.acceptors[p].votes, m.watermark, info)
    requires forall v :: v in s'.net && v !in s.net ==> !v.Phase2bMsg?
    ensures InfoIsComplete(s', Phase1b(p, m.round, info), m.watermark)
  {
    hide NetInv, ChosenBy, InfoIsVoted, HasProposal, HasVote, HasVoteIn, Submitted, Owner;
    forall v | v in s'.net && v.Phase2bMsg? && v.acceptor == p && v.round < m.round && v.slot >= m.watermark
      ensures exists e :: e in info && e.slot == v.slot && e.vote.round >= v.round
    {
      NetHolds(s, v);
      assert SlotInfo(v.slot, s.acceptors[p].votes[v.slot]) in info;
    }
  }

  lemma GrowsBasics(s: System, s': System)
    requires Grows(s, s')
    ensures s.net <= s'.net && WellFormed(s) && WellFormed(s') && s'.n == s.n
  {
  }

  lemma Phase1aKeepsInv(s: System, p: Pid, m: Message, info: seq<SlotInfo>)
    requires Inv(s) && Enabled(s, AcceptorGetsPhase1a(p, m, info))
    ensures Inv(Apply(s, AcceptorGetsPhase1a(p, m, info)))
  {
    hide SafetyInv, UniqueProposals, UniquePhase1a, LeaderInv, AcceptorInv, ProxyInv, LogInv, BatcherInv, Grows;
    var st := s.acceptors[p];
    var r := A.HandlePhase1a(p, st, m.src, m.round, info);
    var s' := WithAcceptor(s, p, r);
    assert AcceptorInv(s, p);
    AcceptorStepGrows(s, p, r);
    PromiseKeepsVotes(s, s', p);
    if m.round >= st.round {
      ReportInv(s, s', p, m, info);
    }
    AcceptorStep(s, p, r);
  }

  lemma PromiseKeepsVotes(s: System, s': System, p: Pid)
    requires Grows(s, s') && p in Pids(s.n) && AcceptorInv(s, p)
    requires s'.acceptors[p].votes == s.acceptors[p].votes
    ensures AcceptorInv(s', p)
  {
    HistoryGrows(s, s');
  }

  /** A new vote of `p`, with the message that tells it. */
  ghost predicate CastsVote(s: System, s': System, p: Pid, m: Message) {
    && Grows(s, s') && p in Pids(s.n) && m.Phase2aMsg?
    && s'.acceptors[p].round == m.round
    && s'.acceptors[p].votes == s.acceptors[p].votes[m.slot := Vote(m.round, m.value)]
    && Phase2bMsg(m.src, p, m.slot, m.round, m.value) in s'.net
  }

  lemma VoteKeepsVotes(s: System, s': System, p: Pid, m: Message)
    requires CastsVote(s, s', p, m) && AcceptorInv(s, p)
    ensures AcceptorInv(s', p)
  {
    hide HasVoteIn, HasProposal, Submitted;
    HistoryGrows(s, s');
    assert HasVote(s', p, m.slot, m.round, m.value);
  }

  lemma VoteInv(s: System, s': System, p: Pid, m: Message)
    requires CastsVote(s, s', p, m) && MessageInv(s, m)
    ensures MessageInv(s', Phase2bMsg(m.src, p, m.slot, m.round, m.value))
  {
    hide InfoIsVoted, InfoIsComplete, ChosenBy, HasProposal, HasVote, HasVoteIn, Submitted, Grows, Owner;
    GrowsBasics(s, s');
    HistoryGrows(s, s');
  }

  /** Refusals say nothing about the state. */
  lemma RefusalInv(s: System, m: Message)
    requires WellFormed(s)
    ensures m.NackMsg? || m.NotLeaderMsg? ==> MessageInv(s, m)
  {
    hide InfoIsVoted, InfoIsComplete, ChosenBy, HasProposal, Submitted, Owner;
  }

  lemma Phase2aKeepsInv(s: System, p: Pid, m: Message)
    requires Inv(s) && Enabled(s, AcceptorGetsPhase2a(p, m))
    ensures Inv(Apply(s, AcceptorGetsPhase2a(p, m)))
  {
    hide SafetyInv, UniqueProposals, UniquePhase1a, LeaderInv, ProxyInv, LogInv, BatcherInv, Grows, MessageInv,
      Owner;
    var st := s.acceptors[p];
    var r := A.HandlePhase2a(p, st, m.src, m.slot, m.round, m.value);
    var s' := WithAcceptor(s, p, r);
    assert MessageInv(s, m);
    assert AcceptorInv(s, p);
    AcceptorStepGrows(s, p, r);
    RefusalInv(s', r.1);
    if m.round >= st.round {
      VoteKeepsVotes(s, s', p, m);
      VoteInv(s, s', p, m);
    } else {
      AcceptorFrame(s, s', p);
    }
    AcceptorStep(s, p, r);
  }

  // ----- proxies, replicas, batchers ------------------------------------------

  lemma ProxyStep(s: System, p: Pid, r: (P.ProxyState, seq<Message>))
    requires WellFormed(s) && p in Pids(s.n)
    requires var s' := WithProxy(s, p, r); ProxyInv(s', p) && forall m :: m in r.1 ==> MessageInv(s', m)
    requires forall m :: m in r.1 ==> m.Phase2aMsg? || m.ChosenMsg?
    requires Inv(s)
    ensures Inv(WithProxy(s, p, r))
  {
    hide SafetyInv, UniqueProposals, UniquePhase1a, MessageInv, LeaderInv, AcceptorInv, ProxyInv, LogInv,
      BatcherInv, Grows;
    var s' := WithProxy(s, p, r);
    NetOnlyGrows(s, s');
    forall q | q in Pids(s.n)
      ensures AcceptorInv(s', q) && ProxyInv(s', q) && LogInv(s', q) && BatcherInv(s', q)
    {
      AcceptorFrame(s, s', q);
      if q != p {
        ProxyFrame(s, s', q);
      }
      LogFrame(s, s', q);
      BatcherFrame(s, s', q);
    }
    QuietStep(s, s');
  }

  lemma ForwardInv(s: System, p: Pid, m: Message, r: (P.ProxyState, seq<Message>))
    requires WellFormed(s) && p in Pids(s.n) && ProxyInv(s, p)
    requires m in s.net && m.ProposeMsg? && m.src == p
    requires r == P.HandlePropose(s.proxies[p], p, m.slot, m.round, m.value)
    ensures var s' := WithProxy(s, p, r); ProxyInv(s', p) && forall c :: c in r.1 ==> c.Phase2aMsg? && MessageInv(s', c)
  {
    hide InfoIsVoted, InfoIsComplete, ChosenBy;
    HistoryGrows(s, WithProxy(s, p, r));
    assert HasProposal(s, p, m.slot, m.round, m.value);
  }

  lemma ProposeKeepsInv(s: System, p: Pid, m: Message)
    requires Inv(s) && Enabled(s, ProxyGetsPropose(p, m))
    ensures Inv(Apply(s, ProxyGetsPropose(p, m)))
  {
    hide SafetyInv, UniqueProposals, UniquePhase1a, LeaderInv, AcceptorInv, ProxyInv, LogInv, BatcherInv, NetInv,
      MessageInv;
    var r := P.HandlePropose(s.proxies[p], m.src, m.slot, m.round, m.value);
    ForwardInv(s, p, m, r);
    ProxyStep(s, p, r);
  }

  /** A Phase2b for a pending tally of `p`, with the acceptors counted so far and now. */
  ghost predicate Counted(s: System, p: Pid, m: Message, acks: set<Pid>)
    requires WellFormed(s) && p in Pids(s.n)
  {
    && m in s.net && m.Phase2bMsg? && m.acceptor in Pids(s.n)
    && var key := P.SlotRound(m.slot, m.round);
    && key in s.proxies[p] && s.proxies[p][key].Pending?
    && acks == s.proxies[p][key].acks + {m.acceptor}
  }

  /** Every counted acceptor voted in the slot and round. */
  lemma CountedVoted(s: System, p: Pid, m: Message, acks: set<Pid>)
    requires WellFormed(s) && p in Pids(s.n) && ProxyInv(s, p) && Counted(s, p, m, acks)
    ensures forall a :: a in acks ==> a in Pids(s.n) && HasVoteIn(s, a, m.slot, m.round)
  {
    assert HasVote(s, m.acceptor, m.slot, m.round, m.voted);
  }

  lemma TallyGrows(s: System, s': System, p: Pid, m: Message, acks: set<Pid>)
    requires WellFormed(s) && p in Pids(s.n) && ProxyInv(s, p) && Counted(s, p, m, acks)
    requires WellFormed(s') && s'.n == s.n && s.net <= s'.net
    requires var key := P.SlotRound(m.slot, m.round);
      || s'.proxies[p] == s.proxies[p][key := P.Pending(s.proxies[p][key].value, acks)]
      || s'.proxies[p] == s.proxies[p][key := P.Done]
    ensures ProxyInv(s', p)
  {
    CountedVoted(s, p, m, acks);
    hide HasProposal, HasVote, HasVoteIn, Submitted;
    HistoryGrows(s, s');
  }

  lemma FullTallyIsChosen(s: System, s': System, p: Pid, m: Message, acks: set<Pid>)
    requires WellFormed(s) && p in Pids(s.n) && ProxyInv(s, p) && Counted(s, p, m, acks) && |acks| >= Majority(s.n)
    requires WellFormed(s') && s'.n == s.n && s.net <= s'.net
    ensures MessageInv(s', ChosenMsg(m.slot, s.proxies[p][P.SlotRound(m.slot, m.round)].value))
  {
    CountedVoted(s, p, m, acks);
    hide HasProposal, HasVote, HasVoteIn, Submitted, InfoIsVoted, InfoIsComplete;
    HistoryGrows(s, s');
    assert ChosenBy(s', p, m.slot, m.round, s.proxies[p][P.SlotRound(m.slot, m.round)].value, acks);
  }

  /** Counting one more Phase2b keeps the tally honest, and a full tally is a
      quorum of votes. */
  lemma TallyInv(s: System, p: Pid, m: Message, r: (P.ProxyState, seq<Message>))
    requires WellFormed(s) && p in Pids(s.n) && ProxyInv(s, p)
    requires m in s.net && m.Phase2bMsg? && m.acceptor in Pids(s.n)
    requires r == P.HandlePhase2b(s.n, s.proxies[p], m.acceptor, m.slot, m.round)
    ensures var s' := WithProxy(s, p, r); ProxyInv(s', p) && forall c :: c in r.1 ==> c.ChosenMsg? && MessageInv(s', c)
  {
    hide MessageInv, ProxyInv;
    var s' := WithProxy(s, p, r);
    var key := P.SlotRound(m.slot, m.round);
    if key in s.proxies[p] && s.proxies[p][key].Pending? {
      var acks := s.proxies[p][key].acks + {m.acceptor};
      TallyGrows(s, s', p, m, acks);
      if |acks| >= Majority(s.n) {
        FullTallyIsChosen(s, s', p, m, acks);
      }
    } else {
      assert s' == s.(net := s'.net);
      ProxyFrame(s, s', p);
    }
  }

  lemma Phase2bKeepsInv(s: System, p: Pid, m: Message)
    requires Inv(s) && Enabled(s, ProxyGetsPhase2b(p, m))
    ensures Inv(Apply(s, ProxyGetsPhase2b(p, m)))
  {
    hide SafetyInv, UniqueProposals, UniquePhase1a, LeaderInv, AcceptorInv, ProxyInv, LogInv, BatcherInv, ChosenBy,
      InfoIsVoted, InfoIsComplete;
    var r := P.HandlePhase2b(s.n, s.proxies[p], m.acceptor, m.slot, m.round);
    assert MessageInv(s, m);
    TallyInv(s, p, m, r);
    ProxyStep(s, p, r);
  }

  lemma ReplicaStepGrows(s: System, p: Pid, r: (R.ReplicaState, seq<Message>))
    requires WellFormed(s) && p in Pids(s.n) && s.replicas[p].executed <= r.0.executed
    requires forall m :: m in r.1 ==> !m.Phase2bMsg?
    ensures Grows(s, WithReplica(s, p, r))
  {
  }

  lemma ReplicaStep(s: System, p: Pid, r: (R.ReplicaState, seq<Message>))
    requires WellFormed(s) && p in Pids(s.n) && s.replicas[p].executed <= r.0.executed
    requires LogInv(WithReplica(s, p, r), p)
    requires forall m :: m in r.1 ==> m.RecoverMsg? || (m.WatermarkMsg? && m.slot <= r.0.executed)
    requires Inv(s)
    ensures Inv(WithReplica(s, p, r))
  {
    hide SafetyInv, UniqueProposals, UniquePhase1a, LeaderInv, AcceptorInv, ProxyInv, LogInv, BatcherInv, Grows,
      ChosenBy, InfoIsVoted, InfoIsComplete;
    var s' := WithReplica(s, p, r);
    ReplicaStepGrows(s, p, r);
    forall q | q in Pids(s.n)
      ensures AcceptorInv(s', q) && ProxyInv(s', q) && LogInv(s', q) && BatcherInv(s', q)
    {
      AcceptorFrame(s, s', q);
      ProxyFrame(s, s', q);
      if q != p {
        LogFrame(s, s', q);
      }
      BatcherFrame(s, s', q);
    }
    forall m | m in r.1
      ensures MessageInv(s', m)
    {
      assert s'.replicas[p] == r.0;
    }
    QuietStep(s, s');
  }

  lemma LogStepInv(s: System, p: Pid, m: Message, r: (R.ReplicaState, seq<Message>))
    requires WellFormed(s) && p in Pids(s.n) && LogInv(s, p) && m in s.net && m.ChosenMsg?
    requires r == R.HandleChosen(ReplicaConfigOf(s, p), s.replicas[p], m.slot, m.value)
    ensures s.replicas[p].executed <= r.0.executed
    ensures LogInv(WithReplica(s, p, r), p)
    ensures forall w :: w in r.1 ==> w.WatermarkMsg? && w.slot <= r.0.executed
  {
    R.HandleChosenKeepsCounters(ReplicaConfigOf(s, p), s.replicas[p], m.slot, m.value);
  }

  lemma ChosenKeepsInv(s: System, p: Pid, m: Message)
    requires Inv(s) && Enabled(s, ReplicaGetsChosen(p, m))
    ensures Inv(Apply(s, ReplicaGetsChosen(p, m)))
  {
    hide SafetyInv, UniqueProposals, UniquePhase1a, LeaderInv, AcceptorInv, ProxyInv, LogInv, BatcherInv, NetInv,
      R.HandleChosen;
    var r := R.HandleChosen(ReplicaConfigOf(s, p), s.replicas[p], m.slot, m.value);
    LogStepInv(s, p, m, r);
    ReplicaStep(s, p, r);
  }

  lemma RecoverTimerKeepsInv(s: System, p: Pid)
    requires Inv(s) && Enabled(s, ReplicaRecovers(p))
    ensures Inv(Apply(s, ReplicaRecovers(p)))
  {
    hide SafetyInv, UniqueProposals, UniquePhase1a, LeaderInv, AcceptorInv, ProxyInv, LogInv, BatcherInv, NetInv,
      Grows;
    var r := (s.replicas[p], [RecoverMsg(s.replicas[p].executed)]);
    ReplicaStepGrows(s, p, r);
    LogFrame(s, WithReplica(s, p, r), p);
    ReplicaStep(s, p, r);
  }

  lemma BatcherStep(s: System, p: Pid, r: (B.BatcherState, seq<Message>))
    requires WellFormed(s) && p in Pids(s.n)
    requires var s' := WithBatcher(s, p, r); BatcherInv(s', p) && forall m :: m in r.1 ==> MessageInv(s', m)
    requires forall m :: m in r.1 ==> m.ClientBatchMsg? || m.LeaderInfoRequestMsg?
    requires Inv(s)
    ensures Inv(WithBatcher(s, p, r))
  {
    hide SafetyInv, UniqueProposals, UniquePhase1a, MessageInv, LeaderInv, AcceptorInv, ProxyInv, LogInv,
      BatcherInv, Grows;
    var s' := WithBatcher(s, p, r);
    NetOnlyGrows(s, s');
    forall q | q in Pids(s.n)
      ensures AcceptorInv(s', q) && ProxyInv(s', q) && LogInv(s', q) && BatcherInv(s', q)
    {
      AcceptorFrame(s, s', q);
      ProxyFrame(s, s', q);
      LogFrame(s, s', q);
      if q != p {
        BatcherFrame(s, s', q);
      }
    }
    QuietStep(s, s');
  }

  /** Batches travel to the owner of an announced round, so a leader that still
      sits untouched in the first round never gets one. */
  lemma RoutedToOwner(s: System, round: Round, batcher: Pid, batch: CommandBatch)
    requires WellFormed(s) && (round == 0 || Announced(s, round))
    ensures MessageInv(s, ClientBatchMsg(Owner(s.n, round), batcher, batch))
  {
    hide InfoIsVoted, InfoIsComplete, ChosenBy;
    FirstRoundOwner(s.n);
  }

  lemma BatcherHandlerInv(s: System, p: Pid, a: Action, r: (B.BatcherState, seq<Message>))
    requires WellFormed(s) && p in Pids(s.n) && BatcherInv(s, p) && a.p == p
    requires match a
      case BatcherGetsProposal(_, c) => r == (B.Submit(s.batchers[p], c), [])
      case BatcherFlushes(_) => r == B.Flush(s.n, p, s.batchers[p])
      case BatcherGetsNotLeader(_, m) => m.NotLeaderMsg? && r == B.HandleNotLeader(p, s.batchers[p], m.batch)
      case BatcherGetsLeaderInfo(_, m) =>
        m.LeaderInfoReplyMsg? && Announced(s, m.round) && r == B.HandleLeaderInfo(s.n, p, s.batchers[p], m.round)
      case _ => false
    ensures BatcherInv(WithBatcher(s, p, r), p)
    ensures forall m :: m in r.1 ==>
      (m.ClientBatchMsg? || m.LeaderInfoRequestMsg?) && MessageInv(WithBatcher(s, p, r), m)
  {
    hide Owner, InfoIsVoted, InfoIsComplete, ChosenBy;
    var s' := WithBatcher(s, p, r);
    var round := if a.BatcherGetsLeaderInfo? then a.msg.round else s.batchers[p].round;
    forall m | m in r.1
      ensures (m.ClientBatchMsg? || m.LeaderInfoRequestMsg?) && MessageInv(s', m)
    {
      if m.ClientBatchMsg? {
        RoutedToOwner(s', round, m.batcher, m.batch);
      }
    }
  }

  lemma BatcherKeepsInv(s: System, a: Action)
    requires Inv(s) && Enabled(s, a)
    requires a.BatcherGetsProposal? || a.BatcherFlushes? || a.BatcherGetsNotLeader? || a.BatcherGetsLeaderInfo?
    ensures Inv(Apply(s, a))
  {
    hide SafetyInv, UniqueProposals, UniquePhase1a, LeaderInv, AcceptorInv, ProxyInv, LogInv, BatcherInv, ChosenBy,
      InfoIsVoted, InfoIsComplete, Owner;
    var p, b := a.p, s.batchers[a.p];
    var r := match a
      case BatcherGetsProposal(_, c) => (B.Submit(b, c), [])
      case BatcherFlushes(_) => B.Flush(s.n, p, b)
      case BatcherGetsNotLeader(_, m) => B.HandleNotLeader(p, b, m.batch)
      case BatcherGetsLeaderInfo(_, m) => B.HandleLeaderInfo(s.n, p, b, m.round);
    if a.BatcherGetsLeaderInfo? {
      assert MessageInv(s, a.msg);
    }
    BatcherHandlerInv(s, p, a, r);
    BatcherStep(s, p, r);
  }
}
