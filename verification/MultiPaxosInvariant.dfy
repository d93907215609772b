/** The inductive invariant of the Multi-Paxos transition system. */
module MultiPaxosInvariant {
  import opened Common
  import opened PaxosTypes
  import opened RoundRobin
  import opened LeaderRole
  import opened MultiPaxos
  import R = ReplicaRole

  // ----- history read off the network -----------------------------------------

  ghost predicate HasProposal(s: System, src: Pid, slot: Slot, round: Round, v: Value) {
    exists inPhase2, from :: ProposeMsg(src, slot, round, v, inPhase2, from) in s.net
  }

  ghost predicate HasVote(s: System, a: Pid, slot: Slot, round: Round, v: Value) {
    exists dst :: Phase2bMsg(dst, a, slot, round, v) in s.net
  }

  ghost predicate HasVoteIn(s: System, a: Pid, slot: Slot, round: Round) {
    exists v :: HasVote(s, a, slot, round, v)
  }

  predicate IsVote(m: Message, a: Pid, slot: Slot, round: Round) {
    m.Phase2bMsg? && m.acceptor == a && m.slot == slot && m.round == round
  }

  /** A proposal is covered when it was issued in Phase 2 for a slot that the
      phase 1 of its round asked about. */
  predicate Covered(m: Message)
    requires m.ProposeMsg?
  {
    m.inPhase2 && m.from <= m.slot
  }

  /** Every proposal for the slot is covered. */
  ghost predicate GoodSlot(s: System, slot: Slot) {
    forall m :: m in s.net && m.ProposeMsg? && m.slot == slot ==> Covered(m)
  }

  predicate IsQuorum(n: nat, q: set<Pid>) {
    q <= Pids(n) && |q| >= Majority(n)
  }

  /** Each process of `q` is past `rho` and voted there for nothing but `v`. */
  ghost predicate Settles(s: System, q: set<Pid>, slot: Slot, rho: Round, v: Value)
    requires WellFormed(s)
  {
    && IsQuorum(s.n, q)
    && forall a :: a in q ==>
       && s.acceptors[a].round > rho
       && forall m :: m in s.net && IsVote(m, a, slot, rho) ==> m.voted == v
  }

  ghost predicate Settled(s: System, slot: Slot, rho: Round, v: Value)
    requires WellFormed(s)
  {
    exists q :: Settles(s, q, slot, rho, v)
  }

  /** No value other than `v` is or can become chosen in a round below `round`. */
  ghost predicate SafeAt(s: System, slot: Slot, round: Round, v: Value)
    requires WellFormed(s)
  {
    forall rho: Round :: rho < round ==> Settled(s, slot, rho, v)
  }

  // ----- the invariant --------------------------------------------------------

  /** The rounds a batcher may hear of. */
  ghost predicate Announced(s: System, round: Round)
    requires WellFormed(s)
  {
    round == s.n || (round > s.n && s.leaders[Owner(s.n, round)].round >= round)
  }

  ghost predicate InfoIsVoted(s: System, b: Phase1b) {
    forall e :: e in b.info ==> e.vote.round <= b.round && HasVote(s, b.acceptor, e.slot, e.vote.round, e.vote.value)
  }

  /** The report misses no earlier vote at or above the watermark. */
  ghost predicate InfoIsComplete(s: System, b: Phase1b, watermark: Slot) {
    forall m :: m in s.net && m.Phase2bMsg? && m.acceptor == b.acceptor && m.round < b.round && m.slot >= watermark ==>
      exists e :: e in b.info && e.slot == m.slot && e.vote.round >= m.round
  }

  ghost predicate ChosenBy(s: System, src: Pid, slot: Slot, round: Round, v: Value, q: set<Pid>) {
    && HasProposal(s, src, slot, round, v)
    && IsQuorum(s.n, q)
    && forall a :: a in q ==> HasVoteIn(s, a, slot, round)
  }

  /** A value is a noop or a batch that some batcher sent. */
  ghost predicate Submitted(s: System, v: Value) {
    v.Batch? ==> exists dst, batcher :: ClientBatchMsg(dst, batcher, v.commands) in s.net
  }

  ghost predicate MessageInv(s: System, m: Message)
    requires WellFormed(s)
  {
    match m
    case Phase1aMsg(src, round, _) =>
      src in Pids(s.n) && Owner(s.n, round) == src && s.n <= round <= s.leaders[src].round
    case Phase1bMsg(dst, b) =>
      && dst in Pids(s.n)
      && b.acceptor in Pids(s.n)
      && s.acceptors[b.acceptor].round >= b.round
      && InfoIsVoted(s, b)
      && exists w :: Phase1aMsg(dst, b.round, w) in s.net && InfoIsComplete(s, b, w)
    case ProposeMsg(src, slot, round, _, inPhase2, from) =>
      && src in Pids(s.n)
      && round <= s.leaders[src].round
      && (inPhase2 ==> Phase1aMsg(src, round, from) in s.net)
      && (m.value.Batch? ==> inPhase2)
      && Submitted(s, m.value)
    case Phase2aMsg(src, slot, round, v) => src in Pids(s.n) && HasProposal(s, src, slot, round, v)
    case Phase2bMsg(dst, a, slot, round, v) =>
      && a in Pids(s.n)
      && HasProposal(s, dst, slot, round, v)
      && round <= s.acceptors[a].round
      && slot in s.acceptors[a].votes
      && round <= s.acceptors[a].votes[slot].round
    case ChosenMsg(slot, v) => exists src, round, q :: ChosenBy(s, src, slot, round, v, q)
    case WatermarkMsg(slot) => exists p :: p in Pids(s.n) && s.replicas[p].executed >= slot
    case ClientBatchMsg(dst, _, _) => dst in Pids(s.n) && (dst == s.n || s.leaders[dst].round > s.n)
    case LeaderInfoReplyMsg(_, round) => Announced(s, round)
    case _ => true
  }

  ghost predicate NetInv(s: System)
    requires WellFormed(s)
  {
    forall m :: m in s.net ==> MessageInv(s, m)
  }

  ghost predicate UniquePhase1a(s: System) {
    forall m, m' :: m in s.net && m' in s.net && m.Phase1aMsg? && m'.Phase1aMsg? && m.round == m'.round ==> m == m'
  }

  predicate SameSlotRound(m: Message, m': Message) {
    m.ProposeMsg? && m'.ProposeMsg? && m.inPhase2 && m'.inPhase2 && m.slot == m'.slot && m.round == m'.round
  }

  ghost predicate UniqueProposals(s: System) {
    forall m, m' :: m in s.net && m' in s.net && SameSlotRound(m, m') ==> m == m'
  }

  /** A leader that is not the initial one starts in Phase 2 at a round it does not
      own; it has then scheduled no flush. */
  ghost predicate Untouched(s: System, p: Pid)
    requires WellFormed(s) && p in Pids(s.n)
  {
    var l := s.leaders[p];
    p != s.n && l.phase.Phase2? && l.round == s.n && l.flushTimers == 0
  }

  ghost predicate StoredReports(s: System, p: Pid, l: LeaderState) {
    forall a :: a in l.phase1bs ==>
      && l.phase1bs[a].acceptor == a
      && l.phase1bs[a].round == l.round
      && Phase1bMsg(p, l.phase1bs[a]) in s.net
  }

  /** Proposals that the leader issued in Phase 2 of its current round. */
  ghost predicate IssuedBelow(s: System, p: Pid, l: LeaderState) {
    forall m :: m in s.net && m.ProposeMsg? && m.src == p && m.inPhase2 && m.round == l.round ==>
      !l.phase.Phase1? && (l.phase.Phase2? ==> m.slot < l.nextSlot)
  }

  ghost predicate OwnerInv(s: System, p: Pid, l: LeaderState)
    requires WellFormed(s)
  {
    && Owner(s.n, l.round) == p
    && Phase1aMsg(p, l.round, l.from) in s.net
  }

  ghost predicate PendingSubmitted(s: System, l: LeaderState) {
    forall batch :: batch in l.pending ==> Submitted(s, Batch(batch))
  }

  /** The slots below `w` were executed somewhere. */
  ghost predicate ExecutedBelow(s: System, w: Slot)
    requires WellFormed(s)
  {
    w == 0 || exists r :: r in Pids(s.n) && s.replicas[r].executed >= w
  }

  ghost predicate LeaderInv(s: System, p: Pid)
    requires WellFormed(s) && p in Pids(s.n)
  {
    var l := s.leaders[p];
    && l.round >= s.n
    && l.from <= l.watermark
    && (l.phase.Inactive? || Untouched(s, p) || OwnerInv(s, p, l))
    && (l.phase.Phase1? ==> StoredReports(s, p, l))
    && IssuedBelow(s, p, l)
    && PendingSubmitted(s, l)
    && ExecutedBelow(s, l.watermark)
  }

  ghost predicate AcceptorInv(s: System, a: Pid)
    requires WellFormed(s) && a in Pids(s.n)
  {
    forall slot :: slot in s.acceptors[a].votes ==>
      && s.acceptors[a].votes[slot].round <= s.acceptors[a].round
      && HasVote(s, a, slot, s.acceptors[a].votes[slot].round, s.acceptors[a].votes[slot].value)
  }

  ghost predicate ProxyInv(s: System, p: Pid)
    requires WellFormed(s) && p in Pids(s.n)
  {
    forall key :: key in s.proxies[p] && s.proxies[p][key].Pending? ==>
      && HasProposal(s, p, key.slot, key.round, s.proxies[p][key].value)
      && forall a :: a in s.proxies[p][key].acks ==> a in Pids(s.n) && HasVoteIn(s, a, key.slot, key.round)
  }

  ghost predicate LogInv(s: System, p: Pid)
    requires WellFormed(s) && p in Pids(s.n)
  {
    && R.ReplicaInv(s.replicas[p])
    && forall slot :: slot in s.replicas[p].log ==> ChosenMsg(slot, s.replicas[p].log[slot]) in s.net
  }

  ghost predicate BatcherInv(s: System, p: Pid)
    requires WellFormed(s) && p in Pids(s.n)
  {
    s.batchers[p].round == 0 || Announced(s, s.batchers[p].round)
  }

  ghost predicate ProcessInv(s: System)
    requires WellFormed(s)
  {
    forall p :: p in Pids(s.n) ==>
      LeaderInv(s, p) && AcceptorInv(s, p) && ProxyInv(s, p) && LogInv(s, p) && BatcherInv(s, p)
  }

  /** Covered proposals are safe in their round. */
  ghost predicate ProposalsSafe(s: System)
    requires WellFormed(s)
  {
    forall m :: m in s.net && m.ProposeMsg? && GoodSlot(s, m.slot) ==> SafeAt(s, m.slot, m.round, m.value)
  }

  /** In Phase 2 every covered slot not yet proposed is open to any value. */
  ghost predicate OpenSlots(s: System, p: Pid)
    requires WellFormed(s) && p in Pids(s.n)
  {
    var l := s.leaders[p];
    l.phase.Phase2? && !Untouched(s, p) ==>
      forall slot, v :: slot >= l.nextSlot && slot >= l.from ==> SafeAt(s, slot, l.round, v)
  }

  ghost predicate SafetyInv(s: System)
    requires WellFormed(s)
  {
    && ProposalsSafe(s)
    && forall p :: p in Pids(s.n) ==> OpenSlots(s, p)
  }

  ghost predicate Inv(s: System) {
    && WellFormed(s)
    && NetInv(s)
    && UniquePhase1a(s)
    && UniqueProposals(s)
    && ProcessInv(s)
    && SafetyInv(s)
  }

  // ----- growth: what every step keeps ------------------------------------------

  /** Rounds, votes, executed prefixes and the network only grow, and a new vote is
      never cast in a round its acceptor had left. */
  ghost predicate Grows(s: System, s': System) {
    && WellFormed(s) && WellFormed(s')
    && s'.n == s.n
    && s.net <= s'.net
    && (forall p :: p in Pids(s.n) ==>
      && s.leaders[p].round <= s'.leaders[p].round
      && s.acceptors[p].round <= s'.acceptors[p].round
      && s.replicas[p].executed <= s'.replicas[p].executed
      && (forall slot :: slot in s.acceptors[p].votes ==>
           slot in s'.acceptors[p].votes && s.acceptors[p].votes[slot].round <= s'.acceptors[p].votes[slot].round))
    && (forall m :: m in s'.net && m !in s.net && m.Phase2bMsg? ==>
      m.acceptor in Pids(s.n) && m.round >= s.acceptors[m.acceptor].round)
  }

  lemma SettlesGrows(s: System, s': System, q: set<Pid>, slot: Slot, rho: Round, v: Value)
    requires Grows(s, s') && Settles(s, q, slot, rho, v)
    ensures Settles(s', q, slot, rho, v)
  {
  }

  lemma SafeAtGrows(s: System, s': System, slot: Slot, round: Round, v: Value)
    requires Grows(s, s') && SafeAt(s, slot, round, v)
    ensures SafeAt(s', slot, round, v)
  {
    forall rho: Round | rho < round
      ensures Settled(s', slot, rho, v)
    {
      assert Settled(s, slot, rho, v);
      var q :| Settles(s, q, slot, rho, v);
      SettlesGrows(s, s', q, slot, rho, v);
    }
  }

  lemma HistoryGrows(s: System, s': System)
    requires s.net <= s'.net
    ensures forall src, slot, round, v :: HasProposal(s, src, slot, round, v) ==> HasProposal(s', src, slot, round, v)
    ensures forall a, slot, round, v :: HasVote(s, a, slot, round, v) ==> HasVote(s', a, slot, round, v)
    ensures forall a, slot, round :: HasVoteIn(s, a, slot, round) ==> HasVoteIn(s', a, slot, round)
    ensures forall v :: Submitted(s, v) ==> Submitted(s', v)
  {
  }

  lemma ReportGrows(s: System, s': System, m: Message)
    requires Grows(s, s') && m.Phase1bMsg? && MessageInv(s, m)
    ensures MessageInv(s', m)
  {
    HistoryGrows(s, s');
    var w :| Phase1aMsg(m.dst, m.report.round, w) in s.net && InfoIsComplete(s, m.report, w);
    assert InfoIsComplete(s', m.report, w);
  }

  lemma ChosenGrows(s: System, s': System, m: Message)
    requires Grows(s, s') && m.ChosenMsg? && MessageInv(s, m)
    ensures MessageInv(s', m)
  {
    HistoryGrows(s, s');
    var src, round, q :| ChosenBy(s, src, m.slot, round, m.value, q);
    assert ChosenBy(s', src, m.slot, round, m.value, q);
  }

  lemma MessageGrows(s: System, s': System, m: Message)
    requires Grows(s, s') && MessageInv(s, m)
    ensures MessageInv(s', m)
  {
    hide ChosenBy, InfoIsVoted, InfoIsComplete, HasProposal, Submitted, Owner;
    if m.Phase1bMsg? {
      ReportGrows(s, s', m);
    } else if m.ChosenMsg? {
      ChosenGrows(s, s', m);
    } else {
      HistoryGrows(s, s');
    }
  }

  /** Old messages keep their invariant; only the new ones remain to be shown. */
  lemma NetGrows(s: System, s': System)
    requires Grows(s, s') && NetInv(s)
    requires forall m :: m in s'.net && m !in s.net ==> MessageInv(s', m)
    ensures NetInv(s')
  {
    forall m | m in s'.net
      ensures MessageInv(s', m)
    {
      if m in s.net {
        MessageGrows(s, s', m);
      }
    }
  }
}
