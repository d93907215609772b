/** Proposing keeps the invariant: the heart of the safety argument. */
module MultiPaxosProposing {
  import opened PaxosTypes
  import opened RoundRobin
  import opened LeaderRole
  import opened MultiPaxos
  import opened MultiPaxosInvariant
  import opened MultiPaxosPreservation
  import opened MultiPaxosLeaderSteps

  // ----- one proposal at the next slot --------------------------------------------

  /** Two Phase 2 proposals of one round come from the owner of that round. */
  lemma Phase2ProposalOwner(s: System, m: Message)
    requires WellFormed(s) && NetInv(s) && m in s.net && m.ProposeMsg? && m.inPhase2
    ensures Owner(s.n, m.round) == m.src
  {
    hide ChosenBy, InfoIsVoted, InfoIsComplete;
    assert MessageInv(s, m);
    assert MessageInv(s, Phase1aMsg(m.src, m.round, m.from));
  }

  predicate IssuedIn(m: Message, p: Pid, round: Round) {
    m.ProposeMsg? && m.src == p && m.inPhase2 && m.round == round
  }

  /** New proposals above everything issued in this round collide with nothing. */
  lemma FreshProposalsUnique(s: System, s': System, p: Pid, added: set<Message>)
    requires WellFormed(s) && NetInv(s) && UniqueProposals(s) && p in Pids(s.n)
    requires s'.net == s.net + added
    requires var l := s.leaders[p];
      && Owner(s.n, l.round) == p
      && (forall m :: m in added && m.ProposeMsg? && m.inPhase2 ==> m.src == p && m.round == l.round)
      && (forall m, m' :: m in s.net && IssuedIn(m, p, l.round) && m' in added && m'.ProposeMsg? ==> m.slot != m'.slot)
      && (forall m, m' :: m in added && m' in added && m.ProposeMsg? && m'.ProposeMsg? && m.slot == m'.slot ==> m == m')
    ensures UniqueProposals(s')
  {
    hide NetInv;
    forall m, m' | m in s'.net && m' in s'.net && SameSlotRound(m, m')
      ensures m == m'
    {
      if m in s.net { Phase2ProposalOwner(s, m); }
      if m' in s.net { Phase2ProposalOwner(s, m'); }
    }
  }

  lemma ProposeLeaderInv(s: System, s': System, p: Pid, added: Message)
    requires WellFormed(s) && WellFormed(s') && s'.n == s.n && p in Pids(s.n) && LeaderInv(s, p)
    requires s'.replicas == s.replicas && s'.net == s.net + {added}
    requires var l := s.leaders[p];
      && added.ProposeMsg? && added.src == p && added.slot == l.nextSlot && added.inPhase2 == l.phase.Phase2?
      && s'.leaders[p] == l.(nextSlot := l.nextSlot + 1, flushTimers := s'.leaders[p].flushTimers)
      && !Untouched(s, p)
    ensures LeaderInv(s', p)
  {
  }

  lemma ProposeOpenSlots(s: System, s': System, p: Pid)
    requires Grows(s, s') && p in Pids(s.n) && OpenSlots(s, p) && !Untouched(s, p)
    requires var l, l' := s.leaders[p], s'.leaders[p];
      l'.phase == l.phase && l'.round == l.round && l'.from == l.from && l'.nextSlot == l.nextSlot + 1
    ensures OpenSlots(s', p)
  {
    hide Grows, SafeAt;
    GrowsBasics(s, s');
    var l := s.leaders[p];
    if l.phase.Phase2? {
      forall slot, v | slot >= l.nextSlot + 1 && slot >= l.from
        ensures SafeAt(s', slot, l.round, v)
      {
        SafeAtGrows(s, s', slot, l.round, v);
      }
    }
  }

  /** A proposal at the next slot: in Phase 2 an open slot takes any value, and
      outside Phase 2 the proposal makes its slot a bad one. */
  lemma ProposeKeepsInvariant(s: System, p: Pid, l': LeaderState, v: Value)
    requires Inv(s) && p in Pids(s.n) && !Untouched(s, p)
    requires Submitted(s, v) && (v.Batch? ==> s.leaders[p].phase.Phase2?)
    requires var l := s.leaders[p]; l' == l.(nextSlot := l.nextSlot + 1, flushTimers := l'.flushTimers)
    ensures var l := s.leaders[p];
      Inv(WithLeader(s, p, (l', [ProposeMsg(p, l.nextSlot, l.round, v, l.phase.Phase2?, l.from)])))
  {
    hide LeaderInv, AcceptorInv, ProxyInv, LogInv, BatcherInv, ProposalsSafe, SafeAt, Grows, MessageInv, NetInv,
      Untouched, Submitted, GoodSlot, OpenSlots, UniqueProposals;
    var l := s.leaders[p];
    var added := ProposeMsg(p, l.nextSlot, l.round, v, l.phase.Phase2?, l.from);
    var r := (l', [added]);
    var s' := WithLeader(s, p, r);
    assert s'.net == s.net + {added};
    assert LeaderInv(s, p) && OpenSlots(s, p);
    LeaderMoveGrows(s, p, r);
    ProposeLeaderInv(s, s', p, added);
    ProposeOpenSlots(s, s', p);
    ProposalMessageInv(s, s', p, added);
    ProposalIsUnique(s, s', p, added);
    ProposalIsSafe(s, s', p, added);
    LeaderStepKeepsInv(s, p, r);
  }

  /** `added` is the leader's proposal at its next slot. */
  predicate IsNextProposal(l: LeaderState, p: Pid, added: Message) {
    && added.ProposeMsg? && added.src == p && added.slot == l.nextSlot && added.round == l.round
    && added.inPhase2 == l.phase.Phase2? && added.from == l.from
  }

  lemma ProposalIsUnique(s: System, s': System, p: Pid, added: Message)
    requires WellFormed(s) && NetInv(s) && UniqueProposals(s) && p in Pids(s.n) && LeaderInv(s, p) && !Untouched(s, p)
    requires IsNextProposal(s.leaders[p], p, added) && s'.net == s.net + {added}
    ensures UniqueProposals(s')
  {
    hide NetInv, LeaderInv, Owner, Untouched;
    if added.inPhase2 {
      Phase2LeaderOwns(s, p);
      FreshProposalsUnique(s, s', p, {added});
    }
  }

  lemma ProposalIsSafe(s: System, s': System, p: Pid, added: Message)
    requires Grows(s, s') && p in Pids(s.n) && OpenSlots(s, p) && !Untouched(s, p)
    requires IsNextProposal(s.leaders[p], p, added) && s'.net == s.net + {added}
    ensures GoodSlot(s', added.slot) ==> SafeAt(s', added.slot, added.round, added.value)
  {
    hide Grows, SafeAt, Untouched;
    GrowsBasics(s, s');
    if GoodSlot(s', added.slot) {
      assert Covered(added);
      SafeAtGrows(s, s', added.slot, added.round, added.value);
    }
  }

  lemma ProposalMessageInv(s: System, s': System, p: Pid, added: Message)
    requires Grows(s, s') && p in Pids(s.n) && LeaderInv(s, p) && !Untouched(s, p)
    requires var l := s.leaders[p];
      added.ProposeMsg? && added.src == p && added.round == l.round && added.from == l.from &&
        added.inPhase2 == l.phase.Phase2?
    requires Submitted(s, added.value) && (added.value.Batch? ==> added.inPhase2)
    ensures MessageInv(s', added)
  {
  }

  lemma Phase2LeaderOwns(s: System, p: Pid)
    requires WellFormed(s) && p in Pids(s.n) && LeaderInv(s, p) && !Untouched(s, p) && s.leaders[p].phase.Phase2?
    ensures Owner(s.n, s.leaders[p].round) == p
    ensures IssuedBelow(s, p, s.leaders[p])
  {
  }

  lemma FlushKeepsInv(s: System, p: Pid)
    requires Inv(s) && Enabled(s, LeaderFlushesNoop(p))
    ensures Inv(Apply(s, LeaderFlushesNoop(p)))
  {
    ProposeKeepsInvariant(s, p, NoopFlush(p, s.leaders[p]).0, Noop);
  }

  lemma BatchKeepsInv(s: System, p: Pid, m: Message)
    requires Inv(s) && Enabled(s, LeaderGetsBatch(p, m))
    ensures Inv(Apply(s, LeaderGetsBatch(p, m)))
  {
    hide LeaderInv, AcceptorInv, ProxyInv, LogInv, BatcherInv, ProposalsSafe, OpenSlots, SafeAt, UniqueProposals,
      UniquePhase1a;
    if s.leaders[p].phase.Phase2? {
      assert MessageInv(s, m);
      ProposeKeepsInvariant(s, p, HandleBatch(p, s.leaders[p], m.batcher, m.batch).0, Batch(m.batch));
    } else {
      ParkKeepsInv(s, p, m);
    }
  }

  // ----- completing phase 1 ------------------------------------------------------

  /** A quorum of reports for round `round`, all sent, about the slots from `from` on. */
  ghost predicate QuorumReports(s: System, p: Pid, round: Round, from: Slot, bs: map<Pid, Phase1b>)
    requires WellFormed(s)
  {
    && IsQuorum(s.n, bs.Keys)
    && Phase1aMsg(p, round, from) in s.net
    && forall a :: a in bs ==> bs[a].acceptor == a && bs[a].round == round && Phase1bMsg(p, bs[a]) in s.net
  }

  lemma ReportFacts(s: System, p: Pid, round: Round, from: Slot, bs: map<Pid, Phase1b>, a: Pid)
    requires WellFormed(s) && NetInv(s) && UniquePhase1a(s) && QuorumReports(s, p, round, from, bs) && a in bs
    ensures s.acceptors[a].round >= round
    ensures InfoIsVoted(s, bs[a]) && InfoIsComplete(s, bs[a], from)
  {
    hide ChosenBy, InfoIsVoted, InfoIsComplete;
    var m := Phase1bMsg(p, bs[a]);
    assert MessageInv(s, m);
    var w :| Phase1aMsg(p, round, w) in s.net && InfoIsComplete(s, bs[a], w);
  }

  /** A vote below the round at a slot of interest is reported, with at least its round. */
  lemma VoteIsReported(s: System, p: Pid, round: Round, from: Slot, bs: map<Pid, Phase1b>, m: Message)
      returns (e: SlotInfo)
    requires WellFormed(s) && NetInv(s) && UniquePhase1a(s) && QuorumReports(s, p, round, from, bs)
    requires m in s.net && m.Phase2bMsg? && m.acceptor in bs && m.round < round && m.slot >= from
    ensures Reported(bs, e) && e.slot == m.slot && e.vote.round >= m.round
  {
    hide NetInv, UniquePhase1a, InfoIsVoted;
    ReportFacts(s, p, round, from, bs, m.acceptor);
    e :| e in bs[m.acceptor].info && e.slot == m.slot && e.vote.round >= m.round;
  }

  /** Nothing reported: the slot is open to every value. */
  lemma UnreportedIsSafe(s: System, p: Pid, round: Round, from: Slot, bs: map<Pid, Phase1b>, slot: Slot, v: Value)
    requires WellFormed(s) && NetInv(s) && UniquePhase1a(s) && QuorumReports(s, p, round, from, bs)
    requires slot >= from && forall e :: Reported(bs, e) ==> e.slot != slot
    ensures SafeAt(s, slot, round, v)
  {
    hide NetInv, UniquePhase1a, Reported, InfoIsVoted, InfoIsComplete;
    forall rho: Round | rho < round
      ensures Settled(s, slot, rho, v)
    {
      forall a | a in bs.Keys
        ensures s.acceptors[a].round > rho
        ensures forall m :: m in s.net && IsVote(m, a, slot, rho) ==> m.voted == v
      {
        ReportFacts(s, p, round, from, bs, a);
        forall m | m in s.net && IsVote(m, a, slot, rho)
          ensures false
        {
          var e := VoteIsReported(s, p, round, from, bs, m);
        }
      }
      assert Settles(s, bs.Keys, slot, rho, v);
    }
  }

  lemma VoteIsProposed(s: System, a: Pid, slot: Slot, round: Round, v: Value) returns (m: Message)
    requires WellFormed(s) && NetInv(s) && HasVote(s, a, slot, round, v)
    ensures m in s.net && m.ProposeMsg? && m.slot == slot && m.round == round && m.value == v
  {
    hide ChosenBy, InfoIsVoted, InfoIsComplete;
    var dst :| Phase2bMsg(dst, a, slot, round, v) in s.net;
    assert MessageInv(s, Phase2bMsg(dst, a, slot, round, v));
    var inPhase2, from :| ProposeMsg(dst, slot, round, v, inPhase2, from) in s.net;
    m := ProposeMsg(dst, slot, round, v, inPhase2, from);
  }

  lemma ReportedIsVoted(s: System, p: Pid, round: Round, from: Slot, bs: map<Pid, Phase1b>, e: SlotInfo)
      returns (a: Pid)
    requires WellFormed(s) && NetInv(s) && UniquePhase1a(s) && QuorumReports(s, p, round, from, bs) && Reported(bs, e)
    ensures a in bs && e.vote.round <= round && HasVote(s, a, e.slot, e.vote.round, e.vote.value)
  {
    hide NetInv, UniquePhase1a, InfoIsComplete;
    a :| a in bs && e in bs[a].info;
    ReportFacts(s, p, round, from, bs, a);
  }

  /** In a good slot all votes of one round are for one value. */
  lemma OneValuePerRound(s: System, slot: Slot, m: Message, v: Message)
    requires WellFormed(s) && NetInv(s) && UniqueProposals(s) && GoodSlot(s, slot)
    requires m in s.net && m.ProposeMsg? && m.slot == slot
    requires v in s.net && v.Phase2bMsg? && v.slot == slot && v.round == m.round
    ensures v.voted == m.value
  {
    hide NetInv;
    assert HasVote(s, v.acceptor, slot, v.round, v.voted);
    var m' := VoteIsProposed(s, v.acceptor, slot, v.round, v.voted);
    assert SameSlotRound(m, m');
  }

  /** Before its first Phase 2 proposal a leader's round holds no vote in a good slot. */
  lemma NoVoteInOwnRound(s: System, p: Pid, m: Message)
    requires WellFormed(s) && NetInv(s) && p in Pids(s.n) && s.leaders[p].phase.Phase1?
    requires Owner(s.n, s.leaders[p].round) == p && IssuedBelow(s, p, s.leaders[p])
    requires m in s.net && m.ProposeMsg? && GoodSlot(s, m.slot)
    ensures m.round != s.leaders[p].round
  {
    hide NetInv;
    assert Covered(m);
    Phase2ProposalOwner(s, m);
  }

  /** The value of a highest reported vote is safe in a good slot. */
  lemma TopVoteIsSafe(s: System, p: Pid, bs: map<Pid, Phase1b>, slot: Slot, e: SlotInfo)
    requires WellFormed(s) && NetInv(s) && UniquePhase1a(s) && UniqueProposals(s) && ProposalsSafe(s) && p in Pids(s.n)
    requires var l := s.leaders[p];
      && l.phase.Phase1? && Owner(s.n, l.round) == p && IssuedBelow(s, p, l)
      && QuorumReports(s, p, l.round, l.from, bs) && slot >= l.from
    requires GoodSlot(s, slot) && IsTopVote(bs, slot, e)
    ensures SafeAt(s, slot, s.leaders[p].round, e.vote.value)
  {
    hide NetInv, UniquePhase1a, UniqueProposals, Reported, GoodSlot, IssuedBelow, QuorumReports, InfoIsVoted,
      InfoIsComplete;
    var l, v := s.leaders[p], e.vote.value;
    var a := ReportedIsVoted(s, p, l.round, l.from, bs, e);
    var m := VoteIsProposed(s, a, slot, e.vote.round, v);
    NoVoteInOwnRound(s, p, m);
    forall rho: Round | rho < l.round
      ensures Settled(s, slot, rho, v)
    {
      if rho < e.vote.round {
        assert SafeAt(s, slot, m.round, v);
      } else {
        ReportsSettle(s, p, bs, slot, e, m, rho);
      }
    }
  }

  /** From the highest reported vote round on, the reporting quorum itself settles. */
  lemma ReportsSettle(s: System, p: Pid, bs: map<Pid, Phase1b>, slot: Slot, e: SlotInfo, m: Message, rho: Round)
    requires WellFormed(s) && NetInv(s) && UniquePhase1a(s) && UniqueProposals(s) && p in Pids(s.n)
    requires var l := s.leaders[p];
      QuorumReports(s, p, l.round, l.from, bs) && slot >= l.from && e.vote.round <= rho < l.round
    requires GoodSlot(s, slot) && IsTopVote(bs, slot, e)
    requires m in s.net && m.ProposeMsg? && m.slot == slot && m.round == e.vote.round && m.value == e.vote.value
    ensures Settled(s, slot, rho, e.vote.value)
  {
    hide NetInv, UniquePhase1a, UniqueProposals, Reported, GoodSlot, InfoIsVoted, InfoIsComplete;
    var l, v := s.leaders[p], e.vote.value;
    forall b | b in bs.Keys
      ensures s.acceptors[b].round > rho
      ensures forall w :: w in s.net && IsVote(w, b, slot, rho) ==> w.voted == v
    {
      ReportFacts(s, p, l.round, l.from, bs, b);
      forall w | w in s.net && IsVote(w, b, slot, rho)
        ensures w.voted == v
      {
        var f := VoteIsReported(s, p, l.round, l.from, bs, w);
        OneValuePerRound(s, slot, m, w);
      }
    }
    assert Settles(s, bs.Keys, slot, rho, v);
  }

  lemma SafeValueIsSafe(s: System, p: Pid, bs: map<Pid, Phase1b>, slot: Slot, v: Value)
    requires WellFormed(s) && NetInv(s) && UniquePhase1a(s) && UniqueProposals(s) && ProposalsSafe(s) && p in Pids(s.n)
    requires var l := s.leaders[p];
      && l.phase.Phase1? && Owner(s.n, l.round) == p && IssuedBelow(s, p, l)
      && QuorumReports(s, p, l.round, l.from, bs) && slot >= l.from
    requires GoodSlot(s, slot) && IsSafeValue(bs, slot, v)
    ensures SafeAt(s, slot, s.leaders[p].round, v)
  {
    hide NetInv, UniquePhase1a, UniqueProposals, ProposalsSafe, Reported, GoodSlot, IssuedBelow, QuorumReports,
      SafeAt, IsTopVote;
    if e :| IsTopVote(bs, slot, e) && e.vote.value == v {
      TopVoteIsSafe(s, p, bs, slot, e);
    } else {
      UnreportedIsSafe(s, p, s.leaders[p].round, s.leaders[p].from, bs, slot, v);
    }
  }

  /** What the leader knows when the report `b` completes its quorum. */
  ghost predicate Completing(s: System, p: Pid, b: Phase1b, rec: Recovery) {
    && WellFormed(s) && p in Pids(s.n) && NetInv(s) && UniquePhase1a(s) && UniqueProposals(s) && ProposalsSafe(s)
    && LeaderInv(s, p)
    && Phase1bMsg(p, b) in s.net
    && CompletesPhase1(s.n, s.leaders[p], b)
    && IsRecovery(s.leaders[p].(phase1bs := s.leaders[p].phase1bs[b.acceptor := b]), rec)
  }

  lemma ReporterIsPid(s: System, m: Message)
    requires WellFormed(s) && m.Phase1bMsg? && MessageInv(s, m)
    ensures m.report.acceptor in Pids(s.n)
  {
    hide InfoIsVoted, InfoIsComplete, ChosenBy, HasProposal, Submitted, Owner;
  }

  lemma CompletingQuorum(s: System, p: Pid, b: Phase1b, rec: Recovery)
    requires Completing(s, p, b, rec)
    ensures var l := s.leaders[p];
      && QuorumReports(s, p, l.round, l.from, l.phase1bs[b.acceptor := b])
      && Owner(s.n, l.round) == p && IssuedBelow(s, p, l) && l.from <= l.watermark
  {
    hide UniquePhase1a, UniqueProposals, ProposalsSafe, IsRecovery, IssuedBelow, MessageInv, NetInv, Owner,
      PendingSubmitted, ExecutedBelow;
    var l := s.leaders[p];
    var bs := l.phase1bs[b.acceptor := b];
    forall a | a in bs
      ensures a in Pids(s.n)
    {
      NetHolds(s, Phase1bMsg(p, bs[a]));
      ReporterIsPid(s, Phase1bMsg(p, bs[a]));
    }
    assert bs.Keys <= Pids(s.n);
    assert |bs.Keys| == |bs|;
  }

  /** The slots of the new proposals, and that no two coincide. */
  lemma CompletionSlots(p: Pid, l: LeaderState, bs: map<Pid, Phase1b>, rec: Recovery, out: seq<Message>)
    requires IsRecovery(l.(phase1bs := bs), rec)
    requires out == Proposals(p, l.round, l.from, l.watermark, rec.values)
                    + Proposals(p, l.round, l.from, RecoveredNextSlot(l, rec), Batches(l.pending))
    ensures forall m :: m in out ==>
      && m.ProposeMsg? && m.src == p && m.round == l.round && m.inPhase2 && m.from == l.from
      && m.slot < RecoveredNextSlot(l, rec) + |l.pending|
    ensures forall m :: m in out ==>
      || (m.slot >= l.watermark && IsSafeValue(bs, m.slot, m.value))
      || (m.slot >= RecoveredNextSlot(l, rec) && m.value in Batches(l.pending))
    ensures forall m, m' :: m in out && m' in out && m.slot == m'.slot ==> m == m'
  {
    hide IsSafeValue, IsMaxSlot, Proposals;
    var first := Proposals(p, l.round, l.from, l.watermark, rec.values);
    var second := Proposals(p, l.round, l.from, RecoveredNextSlot(l, rec), Batches(l.pending));
    ProposalSlots(p, l.round, l.from, l.watermark, rec.values);
    ProposalSlots(p, l.round, l.from, RecoveredNextSlot(l, rec), Batches(l.pending));
    assert forall m :: m in out <==> m in first || m in second;
  }

  /** Consecutive proposals: one per slot, each with its value. */
  lemma ProposalSlots(p: Pid, round: Round, from: Slot, first: Slot, values: seq<Value>)
    ensures forall m :: m in Proposals(p, round, from, first, values) ==>
      && m.ProposeMsg? && first <= m.slot < first + |values|
      && m == ProposeMsg(p, m.slot, round, values[m.slot - first], true, from)
  {
    var out := Proposals(p, round, from, first, values);
    forall m | m in out
      ensures m.ProposeMsg? && first <= m.slot < first + |values|
      ensures m == ProposeMsg(p, m.slot, round, values[m.slot - first], true, from)
    {
      var i :| 0 <= i < |out| && out[i] == m;
    }
  }

  lemma NothingReportedFrom(l: LeaderState, bs: map<Pid, Phase1b>, rec: Recovery, slot: Slot)
    requires IsRecovery(l.(phase1bs := bs), rec) && slot >= RecoveredNextSlot(l, rec)
    ensures forall e :: Reported(bs, e) ==> e.slot != slot
  {
  }

  /** Every proposal of the completion is safe if its slot is good. */
  lemma CompletionIsSafe(s: System, p: Pid, b: Phase1b, rec: Recovery, m: Message)
    requires Completing(s, p, b, rec)
    requires m in HandlePhase1b(s.n, p, s.leaders[p], b, rec).1 && GoodSlot(s, m.slot) && Covered(m)
    ensures SafeAt(s, m.slot, s.leaders[p].round, m.value)
  {
    hide NetInv, UniquePhase1a, UniqueProposals, ProposalsSafe, LeaderInv, IsRecovery, SafeAt, GoodSlot,
      QuorumReports, IssuedBelow, Reported, IsSafeValue;
    var l := s.leaders[p];
    var bs := l.phase1bs[b.acceptor := b];
    CompletingQuorum(s, p, b, rec);
    CompletionSlots(p, l, bs, rec, HandlePhase1b(s.n, p, l, b, rec).1);
    if m.slot >= RecoveredNextSlot(l, rec) {
      NothingReportedFrom(l, bs, rec, m.slot);
      UnreportedIsSafe(s, p, l.round, l.from, bs, m.slot, m.value);
    } else {
      SafeValueIsSafe(s, p, bs, m.slot, m.value);
    }
  }

  lemma CompletionOpensSlots(s: System, s': System, p: Pid, b: Phase1b, rec: Recovery)
    requires Completing(s, p, b, rec) && Grows(s, s')
    requires s'.leaders[p] == HandlePhase1b(s.n, p, s.leaders[p], b, rec).0
    ensures OpenSlots(s', p)
  {
    hide NetInv, UniquePhase1a, UniqueProposals, ProposalsSafe, LeaderInv, IsRecovery, SafeAt, QuorumReports,
      IssuedBelow, Reported, Grows;
    GrowsBasics(s, s');
    var l, l' := s.leaders[p], s'.leaders[p];
    var bs := l.phase1bs[b.acceptor := b];
    CompletingQuorum(s, p, b, rec);
    forall slot, v | slot >= l'.nextSlot && slot >= l'.from
      ensures SafeAt(s', slot, l'.round, v)
    {
      NothingReportedFrom(l, bs, rec, slot);
      UnreportedIsSafe(s, p, l.round, l.from, bs, slot, v);
      SafeAtGrows(s, s', slot, l.round, v);
    }
  }

  lemma CompletionLeaderInv(s: System, s': System, p: Pid, b: Phase1b, rec: Recovery)
    requires Completing(s, p, b, rec) && Grows(s, s')
    requires var r := HandlePhase1b(s.n, p, s.leaders[p], b, rec);
      s'.leaders[p] == r.0 && s'.net == s.net + Sent(r.1) && s'.replicas == s.replicas
    ensures LeaderInv(s', p)
  {
    hide NetInv, UniquePhase1a, UniqueProposals, ProposalsSafe, IsRecovery, Proposals, Batches, IsMaxSlot, Grows,
      Owner, OwnerInv, StoredReports, IssuedBelow, PendingSubmitted, ExecutedBelow;
    GrowsBasics(s, s');
    var l := s.leaders[p];
    CompletionIssued(s, s', p, b, rec);
    CompletionOwner(s, s', p, b, rec);
    SameExecutions(s, s', l.watermark);
  }

  /** Everything issued in the round lies below the new next slot. */
  lemma CompletionIssued(s: System, s': System, p: Pid, b: Phase1b, rec: Recovery)
    requires Completing(s, p, b, rec)
    requires var r := HandlePhase1b(s.n, p, s.leaders[p], b, rec);
      WellFormed(s') && s'.n == s.n && s'.leaders[p] == r.0 && s'.net == s.net + Sent(r.1)
    ensures IssuedBelow(s', p, s'.leaders[p]) && PendingSubmitted(s', s'.leaders[p])
  {
    hide NetInv, UniquePhase1a, UniqueProposals, ProposalsSafe, LeaderInv, IsRecovery, Proposals, Batches,
      IsMaxSlot, Owner, QuorumReports, Submitted;
    var l := s.leaders[p];
    CompletingQuorum(s, p, b, rec);
    CompletionSlots(p, l, l.phase1bs[b.acceptor := b], rec, HandlePhase1b(s.n, p, l, b, rec).1);
  }

  lemma CompletionOwner(s: System, s': System, p: Pid, b: Phase1b, rec: Recovery)
    requires Completing(s, p, b, rec)
    requires var r := HandlePhase1b(s.n, p, s.leaders[p], b, rec);
      WellFormed(s') && s'.n == s.n && s'.leaders[p] == r.0 && s'.net == s.net + Sent(r.1)
    ensures OwnerInv(s', p, s'.leaders[p])
  {
    hide NetInv, UniquePhase1a, UniqueProposals, ProposalsSafe, IsRecovery, Proposals, Batches, IsMaxSlot, Owner,
      StoredReports, IssuedBelow, PendingSubmitted, ExecutedBelow;
  }

  lemma CompletionMessages(s: System, s': System, p: Pid, b: Phase1b, rec: Recovery)
    requires Completing(s, p, b, rec) && Grows(s, s')
    requires var r := HandlePhase1b(s.n, p, s.leaders[p], b, rec);
      s'.leaders[p] == r.0 && s'.net == s.net + Sent(r.1)
    ensures UniqueProposals(s')
    ensures forall m :: m in HandlePhase1b(s.n, p, s.leaders[p], b, rec).1 ==> MessageInv(s', m)
  {
    hide NetInv, UniquePhase1a, UniqueProposals, ProposalsSafe, LeaderInv, IsRecovery, Proposals, Batches, Grows,
      StoredReports;
    GrowsBasics(s, s');
    var l := s.leaders[p];
    var out := HandlePhase1b(s.n, p, l, b, rec).1;
    CompletingQuorum(s, p, b, rec);
    CompletionSlots(p, l, l.phase1bs[b.acceptor := b], rec, out);
    FreshProposalsUnique(s, s', p, Sent(out));
    forall m | m in out
      ensures MessageInv(s', m)
    {
      CompletionSubmitted(s, p, b, rec, m);
    }
  }

  /** Recovered values were proposed before, the others were parked client batches. */
  lemma CompletionSubmitted(s: System, p: Pid, b: Phase1b, rec: Recovery, m: Message)
    requires Completing(s, p, b, rec) && m in HandlePhase1b(s.n, p, s.leaders[p], b, rec).1
    ensures m.ProposeMsg? && Submitted(s, m.value)
  {
    hide UniquePhase1a, UniqueProposals, ProposalsSafe, IsRecovery, Proposals, QuorumReports, ChosenBy,
      InfoIsVoted, InfoIsComplete, IssuedBelow, StoredReports;
    var l := s.leaders[p];
    var bs := l.phase1bs[b.acceptor := b];
    CompletionSlots(p, l, bs, rec, HandlePhase1b(s.n, p, l, b, rec).1);
    CompletingQuorum(s, p, b, rec);
    if m.value in Batches(l.pending) {
      var k :| 0 <= k < |l.pending| && m.value == Batch(l.pending[k]);
      assert l.pending[k] in l.pending;
    } else if e :| IsTopVote(bs, m.slot, e) && e.vote.value == m.value {
      var a := ReportedIsVoted(s, p, l.round, l.from, bs, e);
      var m' := VoteIsProposed(s, a, e.slot, e.vote.round, e.vote.value);
      assert MessageInv(s, m');
    }
  }

  lemma CompletionKeepsInv(s: System, p: Pid, b: Phase1b, rec: Recovery)
    requires Inv(s) && Completing(s, p, b, rec)
    ensures Inv(WithLeader(s, p, HandlePhase1b(s.n, p, s.leaders[p], b, rec)))
  {
    hide NetInv, UniquePhase1a, UniqueProposals, ProposalsSafe, LeaderInv, AcceptorInv, ProxyInv, LogInv,
      BatcherInv, OpenSlots, IsRecovery, Proposals, Batches, SafeAt, Grows, MessageInv;
    var r := HandlePhase1b(s.n, p, s.leaders[p], b, rec);
    var s' := WithLeader(s, p, r);
    var l := s.leaders[p];
    CompletionSlots(p, l, l.phase1bs[b.acceptor := b], rec, r.1);
    LeaderMoveGrows(s, p, r);
    CompletionOpensSlots(s, s', p, b, rec);
    CompletionLeaderInv(s, s', p, b, rec);
    CompletionMessages(s, s', p, b, rec);
    NoNewPhase1a(s, s', r.1);
    forall m | m in r.1 && m.ProposeMsg? && GoodSlot(s', m.slot)
      ensures SafeAt(s', m.slot, m.round, m.value)
    {
      assert m in s'.net;
      CompletionIsSafe(s, p, b, rec, m);
      SafeAtGrows(s, s', m.slot, m.round, m.value);
    }
    LeaderStepKeepsInv(s, p, r);
  }

  lemma NoNewPhase1a(s: System, s': System, out: seq<Message>)
    requires UniquePhase1a(s) && s'.net == s.net + Sent(out)
    requires forall m :: m in out ==> !m.Phase1aMsg?
    ensures UniquePhase1a(s')
  {
  }

  lemma StoreLeaderInv(s: System, s': System, p: Pid, b: Phase1b)
    requires WellFormed(s) && WellFormed(s') && s'.n == s.n && p in Pids(s.n) && LeaderInv(s, p)
    requires s'.replicas == s.replicas && s'.net == s.net && Phase1bMsg(p, b) in s.net
    requires var l := s.leaders[p];
      b.round == l.round && l.phase.Phase1? && s'.leaders[p] == l.(phase1bs := l.phase1bs[b.acceptor := b])
    ensures LeaderInv(s', p)
  {
  }

  lemma Phase1bKeepsInv(s: System, p: Pid, m: Message, rec: Recovery)
    requires Inv(s) && Enabled(s, LeaderGetsPhase1b(p, m, rec))
    ensures Inv(Apply(s, LeaderGetsPhase1b(p, m, rec)))
  {
    hide NetInv, UniquePhase1a, UniqueProposals, ProposalsSafe, LeaderInv, AcceptorInv, ProxyInv, LogInv,
      BatcherInv, IsRecovery, Proposals, Batches, SafeAt;
    var l := s.leaders[p];
    var r := HandlePhase1b(s.n, p, l, m.report, rec);
    var s' := WithLeader(s, p, r);
    assert LeaderInv(s, p);
    if CompletesPhase1(s.n, l, m.report) {
      CompletionKeepsInv(s, p, m.report, rec);
    } else if l.phase.Phase1? && m.report.round == l.round {
      assert s'.net == s.net;
      StoreLeaderInv(s, s', p, m.report);
      SilentMove(s, p, r);
    } else {
      assert s.leaders[p := l] == s.leaders;
      assert Sent([]) == {};
      assert s' == s;
    }
  }
}
