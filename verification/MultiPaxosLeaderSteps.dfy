/** The leader's steps keep the invariant. */
module MultiPaxosLeaderSteps {
  import opened PaxosTypes
  import opened RoundRobin
  import opened LeaderRole
  import opened MultiPaxos
  import opened MultiPaxosInvariant
  import opened MultiPaxosPreservation

  /** What a leader handler may do: raise its round and send in its own name. */
  ghost predicate LeaderMove(s: System, p: Pid, r: (LeaderState, seq<Message>)) {
    && WellFormed(s)
    && p in Pids(s.n)
    && s.leaders[p].round <= r.0.round
    && forall m :: m in r.1 ==> !m.Phase2bMsg? && (m.ProposeMsg? ==> m.src == p)
  }

  lemma LeaderMoveGrows(s: System, p: Pid, r: (LeaderState, seq<Message>))
    requires LeaderMove(s, p, r)
    ensures Grows(s, WithLeader(s, p, r))
  {
  }

  lemma LeaderMoveKeepsOthers(s: System, s': System, p: Pid, q: Pid)
    requires Grows(s, s') && p in Pids(s.n) && q in Pids(s.n)
    requires LeaderInv(s, q) && AcceptorInv(s, q) && ProxyInv(s, q) && LogInv(s, q) && BatcherInv(s, q) &&
      OpenSlots(s, q)
    requires s'.acceptors == s.acceptors && s'.proxies == s.proxies && s'.replicas == s.replicas &&
      s'.batchers == s.batchers
    requires q != p ==> s'.leaders[q] == s.leaders[q]
    requires forall m :: m in s'.net && m !in s.net && m.ProposeMsg? ==> m.src == p
    ensures AcceptorInv(s', q) && ProxyInv(s', q) && LogInv(s', q) && BatcherInv(s', q)
    ensures q != p ==> LeaderInv(s', q) && OpenSlots(s', q)
  {
    hide LeaderInv, AcceptorInv, ProxyInv, LogInv, BatcherInv, OpenSlots;
    AcceptorFrame(s, s', q);
    ProxyFrame(s, s', q);
    LogFrame(s, s', q);
    BatcherFrame(s, s', q);
    if q != p {
      LeaderFrame(s, s', q);
      OpenSlotsFrame(s, s', q);
    }
  }

  lemma LeaderStepKeepsInv(s: System, p: Pid, r: (LeaderState, seq<Message>))
    requires LeaderMove(s, p, r)
    requires var s' := WithLeader(s, p, r);
      && LeaderInv(s', p) && OpenSlots(s', p) && UniquePhase1a(s') && UniqueProposals(s')
      && forall m :: m in r.1 ==> MessageInv(s', m)
    requires var s' := WithLeader(s, p, r);
      forall m :: m in r.1 && m.ProposeMsg? && GoodSlot(s', m.slot) ==> SafeAt(s', m.slot, m.round, m.value)
    requires Inv(s)
    ensures Inv(WithLeader(s, p, r))
  {
    hide LeaderInv, AcceptorInv, ProxyInv, LogInv, BatcherInv, OpenSlots, ProposalsSafe, UniquePhase1a,
      UniqueProposals, MessageInv, Grows, GoodSlot, SafeAt;
    var s' := WithLeader(s, p, r);
    LeaderMoveGrows(s, p, r);
    NetGrows(s, s');
    forall q | q in Pids(s.n)
      ensures LeaderInv(s', q) && AcceptorInv(s', q) && ProxyInv(s', q) && LogInv(s', q) && BatcherInv(s', q) &&
        OpenSlots(s', q)
    {
      LeaderMoveKeepsOthers(s, s', p, q);
    }
    ProposalsSafeFrame(s, s');
  }

  // ----- moves without proposals ------------------------------------------------

  lemma SilentMove(s: System, p: Pid, r: (LeaderState, seq<Message>))
    requires LeaderMove(s, p, r)
    requires var s' := WithLeader(s, p, r);
      && LeaderInv(s', p) && OpenSlots(s', p)
      && forall m :: m in r.1 ==> MessageInv(s', m) && !m.Phase1aMsg? && !m.ProposeMsg?
    requires Inv(s)
    ensures Inv(WithLeader(s, p, r))
  {
    hide LeaderInv, AcceptorInv, ProxyInv, LogInv, BatcherInv, OpenSlots, ProposalsSafe, MessageInv, GoodSlot,
      SafeAt;
    LeaderStepKeepsInv(s, p, r);
  }

  /** The parts of a leader state that the safety argument reads. */
  predicate SameCore(l: LeaderState, l': LeaderState) {
    && l'.phase == l.phase && l'.round == l.round && l'.nextSlot == l.nextSlot && l'.from == l.from
    && l'.flushTimers == l.flushTimers
  }

  lemma OpenSlotsSameCore(s: System, s': System, p: Pid)
    requires Grows(s, s') && p in Pids(s.n) && OpenSlots(s, p) && SameCore(s.leaders[p], s'.leaders[p])
    ensures OpenSlots(s', p)
  {
    var l := s.leaders[p];
    if l.phase.Phase2? && !Untouched(s, p) {
      forall slot, v | slot >= l.nextSlot && slot >= l.from
        ensures SafeAt(s', slot, l.round, v)
      {
        SafeAtGrows(s, s', slot, l.round, v);
      }
    }
  }

  lemma WatermarkLeaderInv(s: System, s': System, p: Pid)
    requires WellFormed(s) && WellFormed(s') && s'.n == s.n && p in Pids(s.n) && LeaderInv(s, p)
    requires s'.net == s.net && s'.replicas == s.replicas
    requires var l, l' := s.leaders[p], s'.leaders[p];
      SameCore(l, l') && l'.phase1bs == l.phase1bs && l'.pending == l.pending && l.watermark <= l'.watermark
      && (l'.watermark == l.watermark || ExecutedBelow(s, l'.watermark))
    ensures LeaderInv(s', p)
  {
  }

  lemma WatermarkKeepsInv(s: System, p: Pid, m: Message)
    requires Inv(s) && Enabled(s, LeaderGetsWatermark(p, m))
    ensures Inv(Apply(s, LeaderGetsWatermark(p, m)))
  {
    hide LeaderInv, AcceptorInv, ProxyInv, LogInv, BatcherInv, OpenSlots, ProposalsSafe, UniquePhase1a,
      UniqueProposals, GoodSlot, SafeAt, Grows, MessageInv, Owner, ExecutedBelow;
    var r := (HandleWatermark(s.leaders[p], m.slot), []);
    var s' := WithLeader(s, p, r);
    assert MessageInv(s, m);
    WatermarkExecuted(s, m);
    assert LeaderInv(s, p) && OpenSlots(s, p);
    LeaderMoveGrows(s, p, r);
    assert s'.net == s.net;
    WatermarkLeaderInv(s, s', p);
    OpenSlotsSameCore(s, s', p);
    SilentMove(s, p, r);
  }

  lemma InactiveLeaderInv(s: System, s': System, p: Pid)
    requires WellFormed(s) && WellFormed(s') && s'.n == s.n && p in Pids(s.n) && LeaderInv(s, p) && NetInv(s)
    requires s'.net == s.net && s'.replicas == s.replicas
    requires s'.leaders[p].phase.Inactive? && s'.leaders[p].round >= s.leaders[p].round
    requires s'.leaders[p].watermark == s.leaders[p].watermark && s'.leaders[p].from == s.leaders[p].from
    requires s'.leaders[p].pending == s.leaders[p].pending
    ensures LeaderInv(s', p)
  {
    hide ChosenBy, InfoIsVoted, InfoIsComplete;
  }

  lemma RetireKeepsInv(s: System, p: Pid, l': LeaderState)
    requires Inv(s) && p in Pids(s.n)
    requires l'.phase.Inactive? && l'.round >= s.leaders[p].round
    requires l'.watermark == s.leaders[p].watermark && l'.from == s.leaders[p].from &&
      l'.pending == s.leaders[p].pending
    ensures Inv(WithLeader(s, p, (l', [])))
  {
    hide LeaderInv, AcceptorInv, ProxyInv, LogInv, BatcherInv, ProposalsSafe, UniquePhase1a, UniqueProposals,
      GoodSlot, SafeAt, MessageInv;
    var s' := WithLeader(s, p, (l', []));
    assert LeaderInv(s, p);
    assert s'.net == s.net;
    InactiveLeaderInv(s, s', p);
    SilentMove(s, p, (l', []));
  }

  lemma ReplyIsAnnounced(s: System, p: Pid)
    requires WellFormed(s) && p in Pids(s.n) && LeaderInv(s, p) && !s.leaders[p].phase.Inactive?
    ensures Announced(s, s.leaders[p].round)
  {
    hide StoredReports, IssuedBelow, Submitted;
  }

  lemma InfoRequestKeepsInv(s: System, p: Pid, m: Message)
    requires Inv(s) && Enabled(s, LeaderGetsInfoRequest(p, m))
    ensures Inv(Apply(s, LeaderGetsInfoRequest(p, m)))
  {
    hide LeaderInv, AcceptorInv, ProxyInv, LogInv, BatcherInv, OpenSlots, ProposalsSafe, UniquePhase1a,
      UniqueProposals, GoodSlot, SafeAt, MessageInv, NetInv, Grows, Owner;
    var l := s.leaders[p];
    var r := (l, HandleInfoRequest(l, m.batcher));
    var s' := WithLeader(s, p, r);
    assert LeaderInv(s, p) && OpenSlots(s, p);
    LeaderMoveGrows(s, p, r);
    LeaderFrame(s, s', p);
    OpenSlotsFrame(s, s', p);
    forall x | x in r.1
      ensures MessageInv(s', x)
    {
      InfoReplyInv(s', p, m.batcher, x);
    }
    SilentMove(s, p, r);
  }

  lemma ParkLeaderInv(s: System, s': System, p: Pid, m: Message)
    requires Grows(s, s') && p in Pids(s.n) && LeaderInv(s, p) && m in s.net && m.ClientBatchMsg?
    requires s'.replicas == s.replicas
    requires forall x :: x in s'.net && x !in s.net ==> !x.ProposeMsg?
    requires s'.leaders[p] == s.leaders[p] ||
      s'.leaders[p] == s.leaders[p].(pending := s.leaders[p].pending + [m.batch])
    ensures LeaderInv(s', p)
  {
    assert Submitted(s, Batch(m.batch));
    hide Grows, Owner, Submitted, OwnerInv, StoredReports, IssuedBelow, ExecutedBelow;
    GrowsBasics(s, s');
    ParkedParts(s, s', p, s'.leaders[p]);
    SameExecutions(s, s', s.leaders[p].watermark);
  }

  lemma ParkedParts(s: System, s': System, p: Pid, l': LeaderState)
    requires WellFormed(s) && WellFormed(s') && s'.n == s.n && s.net <= s'.net && p in Pids(s.n)
    requires l' == s.leaders[p].(pending := l'.pending) && LeaderInv(s, p) && PendingSubmitted(s, l')
    requires forall x :: x in s'.net && x !in s.net ==> !x.ProposeMsg?
    ensures OwnerInv(s, p, s.leaders[p]) ==> OwnerInv(s', p, l')
    ensures l'.phase.Phase1? ==> StoredReports(s', p, l')
    ensures PendingSubmitted(s', l') && IssuedBelow(s', p, l')
  {
    hide Owner, PendingSubmitted, ExecutedBelow;
    LeaderParts(s, s', p, l');
  }

  lemma SameExecutions(s: System, s': System, w: Slot)
    requires WellFormed(s) && WellFormed(s') && s'.n == s.n && s'.replicas == s.replicas && ExecutedBelow(s, w)
    ensures ExecutedBelow(s', w)
  {
  }

  lemma InfoReplyInv(s: System, p: Pid, batcher: Pid, m: Message)
    requires WellFormed(s) && p in Pids(s.n) && LeaderInv(s, p) && m in HandleInfoRequest(s.leaders[p], batcher)
    ensures MessageInv(s, m)
  {
    hide LeaderInv, Announced;
    ReplyIsAnnounced(s, p);
  }

  /** A batch that is refused or parked. */
  lemma ParkKeepsInv(s: System, p: Pid, m: Message)
    requires Inv(s) && Enabled(s, LeaderGetsBatch(p, m)) && !s.leaders[p].phase.Phase2?
    ensures Inv(Apply(s, LeaderGetsBatch(p, m)))
  {
    hide LeaderInv, AcceptorInv, ProxyInv, LogInv, BatcherInv, OpenSlots, ProposalsSafe, UniquePhase1a,
      UniqueProposals, GoodSlot, SafeAt, NetInv, Grows, MessageInv, Owner;
    var l := s.leaders[p];
    var r := HandleBatch(p, l, m.batcher, m.batch);
    var s' := WithLeader(s, p, r);
    assert LeaderInv(s, p) && OpenSlots(s, p);
    LeaderMoveGrows(s, p, r);
    ParkLeaderInv(s, s', p, m);
    OpenSlotsSameCore(s, s', p);
    forall x | x in r.1
      ensures MessageInv(s', x)
    {
      RefusalInv(s', x);
    }
    SilentMove(s, p, r);
  }

  // ----- starting phase 1 ------------------------------------------------------

  lemma NewRoundIsFresh(s: System, p: Pid, round: Round)
    requires WellFormed(s) && NetInv(s) && p in Pids(s.n) && round > s.leaders[p].round && Owner(s.n, round) == p
    ensures forall m :: m in s.net && m.Phase1aMsg? ==> m.round != round
    ensures forall m :: m in s.net && m.ProposeMsg? && m.src == p ==> m.round != round
  {
    hide ChosenBy, InfoIsVoted, InfoIsComplete;
    forall m | m in s.net
      ensures m.Phase1aMsg? ==> m.round != round
      ensures m.ProposeMsg? && m.src == p ==> m.round != round
    {
      assert MessageInv(s, m);
    }
  }

  lemma FreshLeaderInv(s: System, s': System, p: Pid)
    requires WellFormed(s) && WellFormed(s') && s'.n == s.n && p in Pids(s.n) && LeaderInv(s, p)
    requires s'.replicas == s.replicas
    requires var l, l' := s.leaders[p], s'.leaders[p];
      && l'.phase.Phase1? && l'.phase1bs == map[] && l'.pending == [] && l'.round > l.round && Owner(s.n, l'.round) == p
      && l'.watermark == l.watermark && l'.from == l.watermark
      && s'.net == s.net + {Phase1aMsg(p, l'.round, l'.from)}
      && forall m :: m in s.net && m.ProposeMsg? && m.src == p ==> m.round != l'.round
    ensures LeaderInv(s', p)
  {
  }

  lemma StartPhase1KeepsInv(s: System, p: Pid, l1: LeaderState)
    requires Inv(s) && p in Pids(s.n)
    requires l1.round > s.leaders[p].round && Owner(s.n, l1.round) == p && l1.watermark == s.leaders[p].watermark
    ensures Inv(WithLeader(s, p, StartPhase1(p, l1)))
  {
    hide LeaderInv, AcceptorInv, ProxyInv, LogInv, BatcherInv, ProposalsSafe, GoodSlot, SafeAt, NetInv, Grows,
      ChosenBy, InfoIsVoted, InfoIsComplete;
    var r := StartPhase1(p, l1);
    var s' := WithLeader(s, p, r);
    assert LeaderInv(s, p);
    assert s.leaders[p].round >= s.n by { LeaderRoundBound(s, p); }
    NewRoundIsFresh(s, p, l1.round);
    assert s'.net == s.net + {Phase1aMsg(p, l1.round, l1.watermark)};
    FreshLeaderInv(s, s', p);
    LeaderStepKeepsInv(s, p, r);
  }

  lemma LeaderRoundBound(s: System, p: Pid)
    requires WellFormed(s) && p in Pids(s.n) && LeaderInv(s, p)
    ensures s.leaders[p].round >= s.n
  {
  }

  /** Elections, nacks and recover requests: a leader retires or starts phase 1 in
      a later round that it owns. */
  lemma ElectionKeepsInv(s: System, a: Action)
    requires Inv(s) && Enabled(s, a)
    requires a.Election? || a.LeaderGetsNack? || a.LeaderGetsRecover?
    ensures Inv(Apply(s, a))
  {
    hide Inv, NextRound, Owner;
    assert WellFormed(s);
    var p, l := a.p, s.leaders[a.p];
    NextRoundIsLeastOwned(s.n, p, l.round);
    var r := LeaderStep(s, a);
    if a.LeaderGetsNack? && a.msg.round > l.round && !l.phase.Inactive? {
      var bumped := NextRound(s.n, p, a.msg.round);
      NextRoundIsLeastOwned(s.n, p, a.msg.round);
      NextRoundIsLeastOwned(s.n, p, bumped);
      StartPhase1KeepsInv(s, p, l.(round := NextRound(s.n, p, bumped)));
    } else if r == (l, []) {
      assert s.leaders[p := l] == s.leaders;
      assert Apply(s, a) == s;
    } else if r.1 == [] {
      RetireKeepsInv(s, p, r.0);
    } else {
      StartPhase1KeepsInv(s, p, l.(round := NextRound(s.n, p, l.round)));
    }
  }
}
