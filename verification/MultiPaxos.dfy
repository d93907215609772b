/** The Multi-Paxos deployment as a transition system: n processes, each with a
    leader, an acceptor, a proxy leader, a replica and a batcher, and a network
    that may delay, reorder, duplicate or never deliver a message.  The election
    port is an oracle that may announce any leader change at any time. */
module MultiPaxos {
  import opened PaxosTypes
  import opened RoundRobin
  import opened LeaderRole
  import A = AcceptorRole
  import P = ProxyRole
  import R = ReplicaRole
  import B = BatcherRole

  datatype System = System(
    n: nat,
    every: nat,
    leaders: map<Pid, LeaderState>,
    acceptors: map<Pid, A.AcceptorState>,
    proxies: map<Pid, P.ProxyState>,
    replicas: map<Pid, R.ReplicaState>,
    batchers: map<Pid, B.BatcherState>,
    net: set<Message>)

  datatype Action =
    | Election(p: Pid, isNewLeader: bool)
    | LeaderGetsPhase1b(p: Pid, msg: Message, rec: Recovery)
    | LeaderGetsNack(p: Pid, msg: Message)
    | LeaderGetsWatermark(p: Pid, msg: Message)
    | LeaderGetsRecover(p: Pid, msg: Message)
    | LeaderGetsBatch(p: Pid, msg: Message)
    | LeaderGetsInfoRequest(p: Pid, msg: Message)
    | LeaderFlushesNoop(p: Pid)
    | AcceptorGetsPhase1a(p: Pid, msg: Message, info: seq<SlotInfo>)
    | AcceptorGetsPhase2a(p: Pid, msg: Message)
    | ProxyGetsPropose(p: Pid, msg: Message)
    | ProxyGetsPhase2b(p: Pid, msg: Message)
    | ReplicaGetsChosen(p: Pid, msg: Message)
    | ReplicaRecovers(p: Pid)
    | BatcherGetsProposal(p: Pid, command: Command)
    | BatcherFlushes(p: Pid)
    | BatcherGetsNotLeader(p: Pid, msg: Message)
    | BatcherGetsLeaderInfo(p: Pid, msg: Message)

  ghost predicate WellFormed(s: System) {
    && s.n > 0
    && s.every > 0
    && s.leaders.Keys == Pids(s.n)
    && s.acceptors.Keys == Pids(s.n)
    && s.proxies.Keys == Pids(s.n)
    && s.replicas.Keys == Pids(s.n)
    && s.batchers.Keys == Pids(s.n)
  }

  /** Leader n has started phase 1 in its first round; the other leaders start in
      Phase 2 at that same round. */
  ghost predicate Init(s: System) {
    && WellFormed(s)
    && (forall p :: p in Pids(s.n) ==>
      && s.leaders[p] == InitLeader(s.n, p)
      && s.acceptors[p] == A.InitAcceptor()
      && s.proxies[p] == map[]
      && s.replicas[p] == R.InitReplica()
      && s.batchers[p] == B.InitBatcher())
    && s.net == {Phase1aMsg(s.n, NextRound(s.n, s.n, 0), 0)}
  }

  function Sent(out: seq<Message>): set<Message> {
    set m | m in out
  }

  function ReplicaConfigOf(s: System, p: Pid): R.ReplicaConfig {
    R.ReplicaConfig(s.n, p, s.every)
  }

  ghost predicate Enabled(s: System, a: Action) {
    && WellFormed(s)
    && a.p in Pids(s.n)
    && match a
       case Election(_, _) => true
       case LeaderGetsPhase1b(p, m, rec) =>
         && m in s.net && m.Phase1bMsg? && m.dst == p
         && var l := s.leaders[p];
            (CompletesPhase1(s.n, l, m.report) ==>
               IsRecovery(l.(phase1bs := l.phase1bs[m.report.acceptor := m.report]), rec))
       case LeaderGetsNack(p, m) => m in s.net && m.NackMsg? && m.dst == p
       case LeaderGetsWatermark(_, m) => m in s.net && m.WatermarkMsg?
       case LeaderGetsRecover(_, m) => m in s.net && m.RecoverMsg?
       case LeaderGetsBatch(p, m) => m in s.net && m.ClientBatchMsg? && m.dst == p
       case LeaderGetsInfoRequest(_, m) => m in s.net && m.LeaderInfoRequestMsg?
       case LeaderFlushesNoop(p) => s.leaders[p].flushTimers > 0
       case AcceptorGetsPhase1a(p, m, info) =>
         m in s.net && m.Phase1aMsg? && A.IsReport(s.acceptors[p].votes, m.watermark, info)
       case AcceptorGetsPhase2a(_, m) => m in s.net && m.Phase2aMsg?
       case ProxyGetsPropose(p, m) => m in s.net && m.ProposeMsg? && m.src == p
       case ProxyGetsPhase2b(p, m) => m in s.net && m.Phase2bMsg? && m.dst == p
       case ReplicaGetsChosen(_, m) => m in s.net && m.ChosenMsg?
       case ReplicaRecovers(p) => s.replicas[p].recoverTimers > 0
       case BatcherGetsProposal(_, _) => true
       case BatcherFlushes(_) => true
       case BatcherGetsNotLeader(p, m) => m in s.net && m.NotLeaderMsg? && m.dst == p
       case BatcherGetsLeaderInfo(p, m) => m in s.net && m.LeaderInfoReplyMsg? && m.dst == p
  }

  function WithLeader(s: System, p: Pid, r: (LeaderState, seq<Message>)): (s': System)
    ensures WellFormed(s) && p in Pids(s.n) ==> WellFormed(s')
  {
    s.(leaders := s.leaders[p := r.0], net := s.net + Sent(r.1))
  }

  function WithAcceptor(s: System, p: Pid, r: (A.AcceptorState, Message)): (s': System)
    ensures WellFormed(s) && p in Pids(s.n) ==> WellFormed(s')
  {
    s.(acceptors := s.acceptors[p := r.0], net := s.net + {r.1})
  }

  function WithProxy(s: System, p: Pid, r: (P.ProxyState, seq<Message>)): (s': System)
    ensures WellFormed(s) && p in Pids(s.n) ==> WellFormed(s')
  {
    s.(proxies := s.proxies[p := r.0], net := s.net + Sent(r.1))
  }

  function WithReplica(s: System, p: Pid, r: (R.ReplicaState, seq<Message>)): (s': System)
    ensures WellFormed(s) && p in Pids(s.n) ==> WellFormed(s')
  {
    s.(replicas := s.replicas[p := r.0], net := s.net + Sent(r.1))
  }

  function WithBatcher(s: System, p: Pid, r: (B.BatcherState, seq<Message>)): (s': System)
    ensures WellFormed(s) && p in Pids(s.n) ==> WellFormed(s')
  {
    s.(batchers := s.batchers[p := r.0], net := s.net + Sent(r.1))
  }

  ghost function LeaderStep(s: System, a: Action): (LeaderState, seq<Message>)
    requires Enabled(s, a)
    requires a.Election? || a.LeaderGetsPhase1b? || a.LeaderGetsNack? || a.LeaderGetsWatermark? || a.LeaderGetsRecover?
      || a.LeaderGetsBatch? || a.LeaderGetsInfoRequest? || a.LeaderFlushesNoop?
  {
    var l := s.leaders[a.p];
    match a
    case Election(p, isNewLeader) => LeaderChange(s.n, p, l, isNewLeader)
    case LeaderGetsPhase1b(p, m, rec) => HandlePhase1b(s.n, p, l, m.report, rec)
    case LeaderGetsNack(p, m) => HandleNack(s.n, p, l, m.round)
    case LeaderGetsWatermark(_, m) => (HandleWatermark(l, m.slot), [])
    case LeaderGetsRecover(p, _) => HandleRecover(s.n, p, l)
    case LeaderGetsBatch(p, m) => HandleBatch(p, l, m.batcher, m.batch)
    case LeaderGetsInfoRequest(_, m) => (l, HandleInfoRequest(l, m.batcher))
    case LeaderFlushesNoop(p) => NoopFlush(p, l)
  }

  ghost function Apply(s: System, a: Action): System
    requires Enabled(s, a)
  {
    match a
    case AcceptorGetsPhase1a(p, m, info) =>
      WithAcceptor(s, p, A.HandlePhase1a(p, s.acceptors[p], m.src, m.round, info))
    case AcceptorGetsPhase2a(p, m) =>
      WithAcceptor(s, p, A.HandlePhase2a(p, s.acceptors[p], m.src, m.slot, m.round, m.value))
    case ProxyGetsPropose(p, m) =>
      WithProxy(s, p, P.HandlePropose(s.proxies[p], m.src, m.slot, m.round, m.value))
    case ProxyGetsPhase2b(p, m) =>
      WithProxy(s, p, P.HandlePhase2b(s.n, s.proxies[p], m.acceptor, m.slot, m.round))
    case ReplicaGetsChosen(p, m) =>
      WithReplica(s, p, R.HandleChosen(ReplicaConfigOf(s, p), s.replicas[p], m.slot, m.value))
    case ReplicaRecovers(p) =>
      WithReplica(s, p, (s.replicas[p], [RecoverMsg(s.replicas[p].executed)]))
    case BatcherGetsProposal(p, c) => WithBatcher(s, p, (B.Submit(s.batchers[p], c), []))
    case BatcherFlushes(p) => WithBatcher(s, p, B.Flush(s.n, p, s.batchers[p]))
    case BatcherGetsNotLeader(p, m) => WithBatcher(s, p, B.HandleNotLeader(p, s.batchers[p], m.batch))
    case BatcherGetsLeaderInfo(p, m) => WithBatcher(s, p, B.HandleLeaderInfo(s.n, p, s.batchers[p], m.round))
    case _ => WithLeader(s, a.p, LeaderStep(s, a))
  }

  ghost predicate Step(s: System, s': System) {
    exists a :: Enabled(s, a) && s' == Apply(s, a)
  }

  /** A run is a finite sequence of states from an initial one. */
  ghost predicate IsRun(run: seq<System>) {
    && |run| > 0
    && Init(run[0])
    && forall i :: 0 <= i < |run| - 1 ==> Step(run[i], run[i + 1])
  }
}
