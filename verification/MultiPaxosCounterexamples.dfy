/** Two runs of two processes in which a slot gets two different chosen values.
    In the first, a noop flush fires outside Phase 2; in the second, a leader in
    Phase 2 proposes below the watermark of its own Phase1a.  Neither half of the
    condition of the agreement theorem can be dropped. */
module MultiPaxosCounterexamples {
  import opened Common
  import opened PaxosTypes
  import opened RoundRobin
  import opened LeaderRole
  import opened MultiPaxos
  import A = AcceptorRole
  import P = ProxyRole
  import R = ReplicaRole
  import B = BatcherRole

  ghost predicate Reachable(s: System) {
    exists run: seq<System> :: IsRun(run) && run[|run| - 1] == s
  }

  lemma ReachableStep(s: System, a: Action)
    requires Reachable(s) && Enabled(s, a)
    ensures Reachable(Apply(s, a))
  {
    hide Init, Enabled, Apply;
    var run: seq<System> :| IsRun(run) && run[|run| - 1] == s;
    var run' := run + [Apply(s, a)];
    forall i | 0 <= i < |run'| - 1
      ensures Step(run'[i], run'[i + 1])
    {
      if i < |run| - 1 {
        assert Step(run[i], run[i + 1]);
      }
    }
    assert IsRun(run') && run'[|run'| - 1] == Apply(s, a);
  }

  /** Two processes whose watermarks are announced after every executed slot. */
  ghost predicate Pair(s: System) {
    && s.n == 2 && s.every == 1 && WellFormed(s) && Reachable(s)
    && 1 in s.leaders && 2 in s.leaders
    && 1 in s.acceptors && 2 in s.acceptors
    && 1 in s.proxies && 2 in s.proxies
    && 1 in s.replicas && 2 in s.replicas
    && 1 in s.batchers && 2 in s.batchers
  }

  ghost predicate SameProposals(s: System, s': System) {
    s.net <= s'.net && forall m :: m in s'.net && m.ProposeMsg? ==> m in s.net
  }

  lemma Start() returns (s: System)
    ensures Pair(s)
    ensures s.leaders == map[1 := InitLeader(2, 1), 2 := InitLeader(2, 2)]
    ensures forall a :: 1 <= a <= 2 ==> a in s.acceptors && s.acceptors[a] == A.InitAcceptor()
    ensures s.proxies == map[1 := map[], 2 := map[]]
    ensures s.replicas == map[1 := R.InitReplica(), 2 := R.InitReplica()]
    ensures s.batchers == map[1 := B.InitBatcher(), 2 := B.InitBatcher()]
    ensures s.net == {Phase1aMsg(2, 2, 0)}
  {
    s := System(2, 1,
      map[1 := InitLeader(2, 1), 2 := InitLeader(2, 2)],
      map[1 := A.InitAcceptor(), 2 := A.InitAcceptor()],
      map[1 := map[], 2 := map[]],
      map[1 := R.InitReplica(), 2 := R.InitReplica()],
      map[1 := B.InitBatcher(), 2 := B.InitBatcher()],
      {Phase1aMsg(2, 2, 0)});
    assert Pids(2) == {1, 2};
    assert Init(s);
    assert IsRun([s]) && [s][|[s]| - 1] == s;
  }

  /** One acceptor promises: it reports nothing because it voted nowhere from the
      watermark on. */
  lemma Promise(s: System, p: Pid, r: Round, w: Slot, a: Pid) returns (s': System)
    requires Pair(s) && 1 <= a <= 2 && Phase1aMsg(p, r, w) in s.net
    requires s.acceptors[a].round <= r && forall k :: k in s.acceptors[a].votes ==> k < w
    ensures Pair(s') && SameProposals(s, s')
    ensures s' == s.(acceptors := s.acceptors[a := s.acceptors[a].(round := r)], net := s'.net)
    ensures Phase1bMsg(p, Phase1b(a, r, [])) in s'.net
  {
    var act := AcceptorGetsPhase1a(a, Phase1aMsg(p, r, w), []);
    assert A.IsReport(s.acceptors[a].votes, w, []);
    ReachableStep(s, act);
    s' := Apply(s, act);
  }

  /** Both acceptors promise and the leader enters Phase 2 without recovering a slot. */
  lemma WinPhase1(s: System, p: Pid, w: Slot) returns (s': System)
    requires Pair(s) && 1 <= p <= 2 && s.leaders[p].phase.Phase1? && s.leaders[p].phase1bs == map[] &&
      s.leaders[p].pending == []
    requires Phase1aMsg(p, s.leaders[p].round, w) in s.net
    requires forall a :: 1 <= a <= 2 ==>
      s.acceptors[a].round <= s.leaders[p].round && forall k :: k in s.acceptors[a].votes ==> k < w
    ensures Pair(s') && SameProposals(s, s')
    ensures s' == s.(leaders := s'.leaders, acceptors := s'.acceptors, net := s'.net)
    ensures var l := s.leaders[p];
      && s'.leaders == s.leaders[p := l.(phase := Phase2, phase1bs := s'.leaders[p].phase1bs,
        flushTimers := l.flushTimers + 1)]
      && forall a :: 1 <= a <= 2 ==> s'.acceptors[a] == s.acceptors[a].(round := l.round)
  {
    hide Reachable, WellFormed;
    var l := s.leaders[p];
    var b1, b2 := Phase1b(1, l.round, []), Phase1b(2, l.round, []);
    var s1 := Promise(s, p, l.round, w, 1);
    var s2 := Promise(s1, p, l.round, w, 2);
    s' := CollectReports(s2, p, b1, b2);
  }

  lemma CollectReports(s: System, p: Pid, b1: Phase1b, b2: Phase1b) returns (s': System)
    requires Pair(s) && 1 <= p <= 2
    requires var l := s.leaders[p];
      && l.phase.Phase1? && l.phase1bs == map[] && l.pending == []
      && b1 == Phase1b(1, l.round, []) && b2 == Phase1b(2, l.round, [])
    requires Phase1bMsg(p, b1) in s.net && Phase1bMsg(p, b2) in s.net
    ensures Pair(s') && s'.net == s.net
    ensures var l := s.leaders[p];
      s' == s.(leaders := s.leaders[p := l.(phase := Phase2, phase1bs := map[1 := b1, 2 := b2],
        flushTimers := l.flushTimers + 1)])
  {
    hide Reachable, WellFormed;
    var s1 := StoreReport(s, p, b1);
    s' := CompleteReports(s1, p, b1, b2);
    assert s.leaders[p := s1.leaders[p]][p := s'.leaders[p]] == s.leaders[p := s'.leaders[p]];
  }

  lemma StoreReport(s: System, p: Pid, b: Phase1b) returns (s': System)
    requires Pair(s) && 1 <= p <= 2
    requires var l := s.leaders[p]; l.phase.Phase1? && l.phase1bs == map[] && b == Phase1b(1, l.round, [])
    requires Phase1bMsg(p, b) in s.net
    ensures Pair(s') && s' == s.(leaders := s.leaders[p := s.leaders[p].(phase1bs := map[1 := b])])
  {
    hide Reachable, IsRecovery, Proposals, Batches;
    var l := s.leaders[p];
    var act := LeaderGetsPhase1b(p, Phase1bMsg(p, b), Recovery(None, []));
    assert l.phase1bs[1 := b] == map[1 := b] && |map[1 := b]| == 1;
    assert Sent([]) == {};
    ReachableStep(s, act);
    s' := Apply(s, act);
  }

  lemma CompleteReports(s: System, p: Pid, b1: Phase1b, b2: Phase1b) returns (s': System)
    requires Pair(s) && 1 <= p <= 2
    requires var l := s.leaders[p];
      && l.phase.Phase1? && l.phase1bs == map[1 := b1] && l.pending == []
      && b1 == Phase1b(1, l.round, []) && b2 == Phase1b(2, l.round, [])
    requires Phase1bMsg(p, b2) in s.net
    ensures Pair(s') && s'.net == s.net
    ensures var l := s.leaders[p];
      s' == s.(leaders := s.leaders[p := l.(phase := Phase2, phase1bs := map[1 := b1, 2 := b2],
        flushTimers := l.flushTimers + 1)])
  {
    hide Reachable, IsRecovery, HandlePhase1b;
    var rec := Recovery(None, []);
    EmptyRecovery(p, s.leaders[p], b1, b2);
    var act := LeaderGetsPhase1b(p, Phase1bMsg(p, b2), rec);
    ReachableStep(s, act);
    s' := Apply(s, act);
    assert Sent([]) == {};
  }

  /** Two empty reports recover no slot. */
  lemma EmptyRecovery(p: Pid, l: LeaderState, b1: Phase1b, b2: Phase1b)
    requires l.phase.Phase1? && l.phase1bs == map[1 := b1] && l.pending == []
    requires b1 == Phase1b(1, l.round, []) && b2 == Phase1b(2, l.round, [])
    ensures IsRecovery(l.(phase1bs := l.phase1bs[2 := b2]), Recovery(None, []))
    ensures HandlePhase1b(2, p, l, b2, Recovery(None, []))
         == (l.(phase := Phase2, phase1bs := map[1 := b1, 2 := b2], flushTimers := l.flushTimers + 1), [])
  {
    var bs := map[1 := b1, 2 := b2];
    assert l.phase1bs[2 := b2] == bs && |bs| == 2;
    assert forall e :: !Reported(bs, e);
    assert |Batches(l.pending)| == 0;
    assert |HandlePhase1b(2, p, l, b2, Recovery(None, [])).1| == 0;
  }

  lemma Accept(s: System, p: Pid, slot: Slot, r: Round, v: Value, a: Pid) returns (s': System)
    requires Pair(s) && 1 <= a <= 2 && Phase2aMsg(p, slot, r, v) in s.net && s.acceptors[a].round <= r
    ensures Pair(s') && SameProposals(s, s')
    ensures s' == s.(acceptors := s'.acceptors, net := s'.net)
    ensures Phase2bMsg(p, a, slot, r, v) in s'.net
    ensures s'.acceptors == s.acceptors[a := s'.acceptors[a]]
    ensures s'.acceptors[a].round == r && s'.acceptors[a].votes.Keys == s.acceptors[a].votes.Keys + {slot}
  {
    var act := AcceptorGetsPhase2a(a, Phase2aMsg(p, slot, r, v));
    ReachableStep(s, act);
    s' := Apply(s, act);
  }

  lemma CountFirstVote(s: System, p: Pid, slot: Slot, r: Round, v: Value) returns (s': System)
    requires Pair(s) && 1 <= p <= 2
    requires var key := P.SlotRound(slot, r); key in s.proxies[p] && s.proxies[p][key] == P.Pending(v, {})
    requires Phase2bMsg(p, 1, slot, r, v) in s.net
    ensures Pair(s')
    ensures s' == s.(proxies := s.proxies[p := s.proxies[p][P.SlotRound(slot, r) := P.Pending(v, {1})]])
  {
    hide Reachable;
    var act := ProxyGetsPhase2b(p, Phase2bMsg(p, 1, slot, r, v));
    assert {} + {1} == {1};
    ReachableStep(s, act);
    s' := Apply(s, act);
    assert s.net + Sent([]) == s.net;
  }

  lemma CountSecondVote(s: System, p: Pid, slot: Slot, r: Round, v: Value) returns (s': System)
    requires Pair(s) && 1 <= p <= 2
    requires var key := P.SlotRound(slot, r); key in s.proxies[p] && s.proxies[p][key] == P.Pending(v, {1})
    requires Phase2bMsg(p, 2, slot, r, v) in s.net
    ensures Pair(s')
    ensures s' == s.(proxies := s.proxies[p := s'.proxies[p]], net := s.net + {ChosenMsg(slot, v)})
  {
    hide Reachable;
    var act := ProxyGetsPhase2b(p, Phase2bMsg(p, 2, slot, r, v));
    assert |{1} + {2}| == 2;
    ReachableStep(s, act);
    s' := Apply(s, act);
    assert Sent([ChosenMsg(slot, v)]) == {ChosenMsg(slot, v)};
  }

  lemma CountVotes(s: System, p: Pid, slot: Slot, r: Round, v: Value) returns (s': System)
    requires Pair(s) && 1 <= p <= 2
    requires var key := P.SlotRound(slot, r); key in s.proxies[p] && s.proxies[p][key] == P.Pending(v, {})
    requires Phase2bMsg(p, 1, slot, r, v) in s.net && Phase2bMsg(p, 2, slot, r, v) in s.net
    ensures Pair(s') && SameProposals(s, s') && ChosenMsg(slot, v) in s'.net
    ensures s' == s.(proxies := s.proxies[p := s'.proxies[p]], net := s'.net)
  {
    hide Reachable, WellFormed;
    var s1 := CountFirstVote(s, p, slot, r, v);
    s' := CountSecondVote(s1, p, slot, r, v);
    assert s.proxies[p := s1.proxies[p]][p := s'.proxies[p]] == s.proxies[p := s'.proxies[p]];
  }

  lemma Forward(s: System, m: Message) returns (s': System)
    requires Pair(s) && m in s.net && m.ProposeMsg? && 1 <= m.src <= 2
    requires P.SlotRound(m.slot, m.round) !in s.proxies[m.src]
    ensures Pair(s') && SameProposals(s, s') && Phase2aMsg(m.src, m.slot, m.round, m.value) in s'.net
    ensures var st := s.proxies[m.src][P.SlotRound(m.slot, m.round) := P.Pending(m.value, {})];
      s' == s.(proxies := s.proxies[m.src := st], net := s'.net)
  {
    var act := ProxyGetsPropose(m.src, m);
    ReachableStep(s, act);
    s' := Apply(s, act);
  }

  /** A proposal of leader `p` goes through both acceptors and is chosen. */
  lemma ChooseProposal(s: System, m: Message) returns (s': System)
    requires Pair(s) && m in s.net && m.ProposeMsg? && 1 <= m.src <= 2
    requires P.SlotRound(m.slot, m.round) !in s.proxies[m.src]
    requires forall a :: 1 <= a <= 2 ==> s.acceptors[a].round <= m.round
    ensures Pair(s') && SameProposals(s, s') && ChosenMsg(m.slot, m.value) in s'.net
    ensures s' == s.(acceptors := s'.acceptors, proxies := s.proxies[m.src := s'.proxies[m.src]], net := s'.net)
    ensures forall a :: 1 <= a <= 2 ==>
      s'.acceptors[a].round == m.round && s'.acceptors[a].votes.Keys == s.acceptors[a].votes.Keys + {m.slot}
  {
    hide Reachable, WellFormed;
    var p := m.src;
    var s1 := Forward(s, m);
    var s2 := Accept(s1, p, m.slot, m.round, m.value, 1);
    var s3 := Accept(s2, p, m.slot, m.round, m.value, 2);
    s' := CountVotes(s3, p, m.slot, m.round, m.value);
  }

  lemma Elect(s: System, p: Pid, r: Round) returns (s': System)
    requires Pair(s) && 1 <= p <= 2 && r == NextRound(2, p, s.leaders[p].round)
    ensures Pair(s') && SameProposals(s, s')
    ensures var l := s.leaders[p];
      && s' == s.(leaders := s.leaders[p := l.(round := r, phase := Phase1, pending := [], phase1bs := map[],
        from := l.watermark)], net := s'.net)
      && Phase1aMsg(p, r, l.watermark) in s'.net
  {
    var act := Election(p, true);
    ReachableStep(s, act);
    s' := Apply(s, act);
  }

  lemma QueueCommand(s: System, c: Command) returns (s': System)
    requires Pair(s) && s.batchers[1] == B.InitBatcher()
    ensures Pair(s') && s' == s.(batchers := s.batchers[1 := B.BatcherState([c], [], 0)])
  {
    hide Reachable;
    var act := BatcherGetsProposal(1, c);
    ReachableStep(s, act);
    s' := Apply(s, act);
    assert [] + [c] == [c];
    assert s.net + Sent([]) == s.net;
  }

  lemma SendBatch(s: System, c: Command) returns (s': System)
    requires Pair(s) && s.batchers[1] == B.BatcherState([c], [], 0)
    ensures Pair(s')
    ensures s' == s.(batchers := s.batchers[1 := B.InitBatcher()], net := s.net + {ClientBatchMsg(2, 1, [c])})
  {
    hide Reachable, Owner;
    FirstRoundOwner(2);
    var act := BatcherFlushes(1);
    ReachableStep(s, act);
    s' := Apply(s, act);
    var batch := ClientBatchMsg(2, 1, [c]);
    assert Sent([batch]) == {batch};
  }

  lemma ProposeBatch(s: System, c: Command) returns (s': System, m: Message)
    requires Pair(s) && s.leaders[2].phase.Phase2? && ClientBatchMsg(2, 1, [c]) in s.net
    ensures Pair(s')
    ensures var l := s.leaders[2];
      && m == ProposeMsg(2, l.nextSlot, l.round, Batch([c]), true, l.from)
      && s' == s.(leaders := s.leaders[2 := l.(nextSlot := l.nextSlot + 1)], net := s.net + {m})
  {
    hide Reachable;
    var act := LeaderGetsBatch(2, ClientBatchMsg(2, 1, [c]));
    ReachableStep(s, act);
    s' := Apply(s, act);
    var l := s.leaders[2];
    m := ProposeMsg(2, l.nextSlot, l.round, Batch([c]), true, l.from);
    assert Sent([m]) == {m};
  }

  /** A client command reaches leader 2 through the batcher of process 1. */
  lemma SubmitToLeader2(s: System, c: Command) returns (s': System, m: Message)
    requires Pair(s) && s.leaders[2].phase.Phase2? && s.batchers[1] == B.InitBatcher()
    ensures Pair(s')
    ensures var l := s.leaders[2];
      && m == ProposeMsg(2, l.nextSlot, l.round, Batch([c]), true, l.from)
      && s' == s.(leaders := s.leaders[2 := l.(nextSlot := l.nextSlot + 1)], batchers := s'.batchers, net := s'.net)
    ensures s.net <= s'.net && m in s'.net && forall x :: x in s'.net && x.ProposeMsg? && x !in s.net ==> x == m
  {
    hide Reachable, WellFormed;
    var s1 := QueueCommand(s, c);
    var s2 := SendBatch(s1, c);
    s', m := ProposeBatch(s2, c);
  }

  lemma FlushNoop(s: System, p: Pid) returns (s': System, m: Message)
    requires Pair(s) && 1 <= p <= 2 && s.leaders[p].flushTimers > 0
    ensures Pair(s')
    ensures var l := s.leaders[p];
      && m == ProposeMsg(p, l.nextSlot, l.round, Noop, l.phase.Phase2?, l.from)
      && s' == s.(leaders := s.leaders[p := NoopFlush(p, l).0], net := s.net + {m})
  {
    var act := LeaderFlushesNoop(p);
    ReachableStep(s, act);
    s' := Apply(s, act);
    var l := s.leaders[p];
    m := ProposeMsg(p, l.nextSlot, l.round, Noop, l.phase.Phase2?, l.from);
    assert Sent([m]) == {m};
  }

  lemma FirstRounds()
    ensures NextRound(2, 1, 2) == 3 && NextRound(2, 1, 3) == 5 && NextRound(2, 2, 2) == 4
    ensures InitLeader(2, 1).round == 2 && InitLeader(2, 2).round == 2
  {
  }

  predicate NoProposals(s: System) {
    forall m :: m in s.net ==> !m.ProposeMsg?
  }

  /** First leader 1 wins round 3, then leader 2 wins round 4. */
  lemma TwoWinners() returns (s: System)
    ensures Pair(s) && NoProposals(s)
    ensures var l := s.leaders[1]; l.round == 3 && l.nextSlot == 0 && l.watermark == 0 && l.flushTimers == 1
    ensures var l := s.leaders[2]; l.phase.Phase2? && l.round == 4 && l.nextSlot == 0 && l.from == 0
    ensures forall a :: 1 <= a <= 2 ==> s.acceptors[a].round == 4
    ensures s.proxies == map[1 := map[], 2 := map[]] && s.batchers[1] == B.InitBatcher()
  {
    hide Reachable, NextRound, WellFormed;
    FirstRounds();
    var s0 := Start();
    var s1 := Elect(s0, 1, 3);
    var s2 := WinPhase1(s1, 1, 0);
    var s3 := Elect(s2, 2, 4);
    s := WinPhase1(s3, 2, 0);
  }

  /** Agreement fails for slot 0 when a noop flush fires in Phase 1, although every
      proposal is at or above the watermark of its phase 1. */
  lemma FlushOutsidePhase2Disagrees() returns (s: System)
    ensures Reachable(s)
    ensures ChosenMsg(0, Batch([[7]])) in s.net && ChosenMsg(0, Noop) in s.net
    ensures forall m :: m in s.net && m.ProposeMsg? ==> m.from <= m.slot
  {
    hide Reachable, NextRound, WellFormed;
    FirstRounds();
    var s4 := TwoWinners();
    var s5, m := SubmitToLeader2(s4, [7]);
    var s6 := ChooseProposal(s5, m);
    assert s6.leaders[1] == s4.leaders[1];
    var s7 := Elect(s6, 1, 5);
    var s8, m' := FlushNoop(s7, 1);
    s := ChooseProposal(s8, m');
  }

  lemma ExecuteFirstSlot(s: System, v: Value) returns (s': System)
    requires Pair(s) && s.replicas[1] == R.InitReplica() && ChosenMsg(0, v) in s.net
    ensures Pair(s') && SameProposals(s, s') && WatermarkMsg(1) in s'.net
    ensures s' == s.(replicas := s'.replicas, net := s'.net)
  {
    hide Reachable;
    var act := ReplicaGetsChosen(1, ChosenMsg(0, v));
    ReachableStep(s, act);
    s' := Apply(s, act);
    var c := ReplicaConfigOf(s, 1);
    var log := R.InitReplica().log[0 := v];
    assert R.FirstHole(log, 0) == R.FirstHole(log, 1) == 1;
    assert R.Announces(c, 1);
    assert R.Announcements(c, 0, 1) == R.Announcements(c, 0, 0) + [WatermarkMsg(1)];
    assert WatermarkMsg(1) in R.Announcements(c, 0, 1);
  }

  lemma LearnWatermark(s: System, w: Slot) returns (s': System)
    requires Pair(s) && WatermarkMsg(w) in s.net && s.leaders[1].watermark <= w
    ensures Pair(s') && s' == s.(leaders := s.leaders[1 := s.leaders[1].(watermark := w)])
  {
    var act := LeaderGetsWatermark(1, WatermarkMsg(w));
    ReachableStep(s, act);
    s' := Apply(s, act);
    assert Sent([]) == {};
  }

  /** Leader 2 gets a batch chosen in slot 0, and leader 1 learns that it was executed. */
  lemma FirstSlotExecuted() returns (s: System)
    ensures Pair(s) && ChosenMsg(0, Batch([[7]])) in s.net
    ensures forall m :: m in s.net && m.ProposeMsg? ==> m.inPhase2
    ensures s.leaders[1] == InitLeader(2, 1).(watermark := 1)
    ensures forall a :: 1 <= a <= 2 ==> s.acceptors[a].round == 2 && s.acceptors[a].votes.Keys == {0}
    ensures s.proxies[1] == map[]
  {
    hide Reachable, NextRound, WellFormed;
    FirstRounds();
    var s0 := Start();
    var s1 := WinPhase1(s0, 2, 0);
    var s2, m := SubmitToLeader2(s1, [7]);
    var s3 := ChooseProposal(s2, m);
    var s4 := ExecuteFirstSlot(s3, m.value);
    s := LearnWatermark(s4, 1);
  }

  /** Agreement fails for slot 0 when a new leader, told that slot 0 was executed,
      hears of no vote from slot 1 on and proposes at its own next slot 0, although
      every proposal is issued in Phase 2. */
  lemma ProposalBelowWatermarkDisagrees() returns (s: System)
    ensures Reachable(s)
    ensures ChosenMsg(0, Batch([[7]])) in s.net && ChosenMsg(0, Noop) in s.net
    ensures forall m :: m in s.net && m.ProposeMsg? ==> m.inPhase2
  {
    hide Reachable, NextRound, WellFormed;
    FirstRounds();
    var s5 := FirstSlotExecuted();
    var s6 := Elect(s5, 1, 3);
    var s7 := WinPhase1(s6, 1, 1);
    var s8, m' := FlushNoop(s7, 1);
    s := ChooseProposal(s8, m');
  }
}
