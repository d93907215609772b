/** The window accounting of the reconfiguration client: which proposals are in flight,
    which are answered, and when the experiment is finished. */
module ReconfigClient {
  import opened Common

  /** The id under which the reconfiguration itself is pending. */
  const RECONFIG_ID: nat := 0
  const WARMUP_FACTOR: nat := 2

  datatype ClientConfig = ClientConfig(numProposals: nat, limit: nat, preload: nat, wantsReconfig: bool)

  datatype Phase = Setup | Running | Finished

  /** `drops` counts how often the finished latch was decremented; `answered` tells
      whether a reconfiguration response was accepted. */
  datatype ClientState = ClientState(
    latest: nat,
    responses: set<nat>,
    pending: set<nat>,
    leader: nat,
    round: nat,
    phase: Phase,
    reconfig: bool,
    members: seq<nat>,
    drops: nat,
    answered: bool)

  datatype Event =
    | Run
    | NewLeader(pid: nat, round: nat)
    | ProposalResp(id: nat, latestLeader: nat, leaderRound: nat)
    | ReconfigResp(config: seq<nat>, latestLeader: nat, leaderRound: nat)

  function InitClient(cfg: ClientConfig, members: seq<nat>): ClientState {
    ClientState(cfg.preload, {}, {}, 0, 0, Setup, cfg.wantsReconfig, members, 0, false)
  }

  // ----- the handlers on values ---------------------------------------------------------

  /** None stands for a panic: here the underflow of the number of available slots. */
  function SendConcurrent(cfg: ClientConfig, st: ClientState): Option<ClientState> {
    if |st.pending| == cfg.limit || st.leader == 0 then Some(st)
    else if |st.pending| > cfg.limit then None
    else
      var i := st.latest + (cfg.limit - |st.pending|);
      var to := if i > cfg.numProposals + cfg.preload then cfg.numProposals + cfg.preload else i;
      if st.latest + 1 > to then Some(st)
      else Some(st.(pending := st.pending + Range(st.latest + 1, to), latest := to))
  }

  function NormalResponse(cfg: ClientConfig, st: ClientState, id: nat): ClientState {
    var st1 := st.(responses := st.responses + {id});
    if |st1.responses| == cfg.numProposals then
      if !st1.reconfig then st1.(phase := Finished, drops := st1.drops + 1) else st1
    else if |st1.responses| == cfg.numProposals / WARMUP_FACTOR && st1.reconfig then
      st1.(pending := st1.pending + {RECONFIG_ID})
    else st1
  }

  function ReconfigResponse(cfg: ClientConfig, st: ClientState, config: seq<nat>, leader: nat,
    round: nat): Option<ClientState> {
    if RECONFIG_ID !in st.pending then Some(st)
    else
      var st1 := st.(pending := st.pending - {RECONFIG_ID}, answered := true);
      if |st.responses| == cfg.numProposals then Some(st1.(phase := Finished, drops := st.drops + 1))
      else
        var st2 := st1.(reconfig := false, members := config);
        SendConcurrent(cfg, if leader > 0 && st.leader != leader && round > st.round
                            then st2.(leader := leader, round := round) else st2)
  }

  function Respond(cfg: ClientConfig, st: ClientState, id: nat, leader: nat, round: nat): Option<ClientState> {
    if st.phase == Finished then Some(st)
    else if id in st.pending then
      var st1 := st.(pending := st.pending - {id});
      var st2 := if leader in st.members && st.round < round then st1.(leader := leader, round := round) else st1;
      SendConcurrent(cfg, NormalResponse(cfg, st2, id))
    else if id <= cfg.preload && st.phase == Setup then Some(st.(leader := leader, round := round))
    else Some(st)
  }

  function Handle(cfg: ClientConfig, st: ClientState, e: Event): Option<ClientState> {
    match e
    case Run =>
      if st.phase != Setup then Some(st)
      else if st.leader == 0 then None
      else SendConcurrent(cfg, st.(phase := Running))
    case NewLeader(pid, round) =>
      if st.phase == Setup && pid == 0 then None
      else if st.phase == Setup || (st.phase == Running && round > st.round)
      then Some(st.(leader := pid, round := round))
      else Some(st)
    case ProposalResp(id, leader, round) => Respond(cfg, st, id, leader, round)
    case ReconfigResp(config, leader, round) => ReconfigResponse(cfg, st, config, leader, round)
  }

  /** The state after the events, unless one of them panicked. */
  function Replay(cfg: ClientConfig, members: seq<nat>, events: seq<Event>): Option<ClientState> {
    if events == [] then Some(InitClient(cfg, members))
    else
      var before := Replay(cfg, members, events[..|events| - 1]);
      if before.None? then None else Handle(cfg, before.value, events[|events| - 1])
  }

  // ----- the invariant --------------------------------------------------------------------

  function PendingNormal(st: ClientState): set<nat> { st.pending - {RECONFIG_ID} }

  /** Pending and answered ids partition the ids issued after the preload. */
  ghost predicate Partitioned(cfg: ClientConfig, st: ClientState) {
    && cfg.preload <= st.latest <= cfg.preload + cfg.numProposals
    && PendingNormal(st) !! st.responses
    && PendingNormal(st) + st.responses == Range(cfg.preload + 1, st.latest)
  }

  ghost predicate ReconfigInv(cfg: ClientConfig, st: ClientState) {
    && (RECONFIG_ID in st.pending ==> st.reconfig && !st.answered && st.phase == Running && cfg.numProposals >= 2)
    && (cfg.wantsReconfig <==> st.reconfig || st.answered)
    && (st.answered ==> cfg.numProposals >= 2 && (st.reconfig ==> st.phase == Finished))
    && (cfg.wantsReconfig && cfg.numProposals >= 2 ==>
          (RECONFIG_ID in st.pending || st.answered <==> |st.responses| >= cfg.numProposals / 2))
  }

  ghost predicate FinishInv(cfg: ClientConfig, st: ClientState) {
    && st.drops == (if st.phase == Finished then 1 else 0)
    && (st.phase == Setup ==> st.pending == {} && st.responses == {})
    && (st.phase == Finished <==>
          cfg.numProposals > 0 && |st.responses| == cfg.numProposals && (cfg.wantsReconfig ==> st.answered))
  }

  ghost predicate Inv(cfg: ClientConfig, st: ClientState) {
    Partitioned(cfg, st) && |st.pending| <= cfg.limit && ReconfigInv(cfg, st) && FinishInv(cfg, st)
  }

  lemma IssueKeepsPartition(cfg: ClientConfig, st: ClientState, to: nat)
    requires Partitioned(cfg, st) && st.latest < to <= cfg.numProposals + cfg.preload
    ensures Partitioned(cfg, st.(pending := st.pending + Range(st.latest + 1, to), latest := to))
  {
    hide Range;
  }

  lemma IssueFits(cfg: ClientConfig, st: ClientState, to: nat)
    requires st.latest < to && to - st.latest <= cfg.limit - |st.pending|
    ensures |st.pending + Range(st.latest + 1, to)| <= cfg.limit
  {
    hide Range;
    RangeSize(st.latest + 1, to);
    UnionSize(st.pending, Range(st.latest + 1, to));
  }

  lemma SendKeepsInv(cfg: ClientConfig, st: ClientState)
    requires Inv(cfg, st) && st.phase != Setup
    ensures SendConcurrent(cfg, st).Some? && Inv(cfg, SendConcurrent(cfg, st).value)
  {
    hide Range, Partitioned;
    var st' := SendConcurrent(cfg, st).value;
    if st'.latest > st.latest {
      IssueKeepsPartition(cfg, st, st'.latest);
      IssueFits(cfg, st, st'.latest);
    }
  }

  lemma UnionSize(a: set<nat>, b: set<nat>)
    ensures |a + b| <= |a| + |b|
  {
    assert |a + b| == |a| + |b| - |a * b|;
  }

  lemma AnswerKeepsPartition(cfg: ClientConfig, st: ClientState, id: nat)
    requires Partitioned(cfg, st) && id in st.pending && id != RECONFIG_ID
    ensures Partitioned(cfg, st.(pending := st.pending - {id}, responses := st.responses + {id}))
    ensures id !in st.responses
  {
    hide Range;
    var st' := st.(pending := st.pending - {id}, responses := st.responses + {id});
    assert id in PendingNormal(st);
    assert PendingNormal(st') == PendingNormal(st) - {id};
  }

  lemma ResponsesBounded(cfg: ClientConfig, st: ClientState)
    requires Partitioned(cfg, st)
    ensures |st.responses| <= cfg.numProposals
  {
    hide Range;
    RangeSize(cfg.preload + 1, st.latest);
    SubsetSize(st.responses, Range(cfg.preload + 1, st.latest));
  }

  lemma PartitionIgnoresRest(cfg: ClientConfig, st: ClientState, st': ClientState)
    requires Partitioned(cfg, st) && st'.latest == st.latest && st'.responses == st.responses
    requires PendingNormal(st') == PendingNormal(st)
    ensures Partitioned(cfg, st')
  {
  }

  lemma AnswerSizes(st: ClientState, id: nat)
    requires id in st.pending && id !in st.responses
    ensures |st.pending - {id}| == |st.pending| - 1 && |st.responses + {id}| == |st.responses| + 1
    ensures |st.pending - {id} + {RECONFIG_ID}| <= |st.pending|
  {
    UnionSize(st.pending - {id}, {RECONFIG_ID});
  }

  /** What a counted answer changes. */
  ghost predicate Counted(cfg: ClientConfig, st: ClientState, st': ClientState, id: nat) {
    var proposes := |st.responses| + 1 == cfg.numProposals / 2 && cfg.numProposals >= 2 && st.reconfig;
    var finishes := |st.responses| + 1 == cfg.numProposals && !st.reconfig;
    && st'.latest == st.latest && st'.responses == st.responses + {id} && |st'.responses| == |st.responses| + 1
    && PendingNormal(st') == PendingNormal(st.(pending := st.pending - {id})) && |st'.pending| <= |st.pending|
    && (RECONFIG_ID in st'.pending <==> RECONFIG_ID in st.pending || proposes)
    && st'.reconfig == st.reconfig && st'.answered == st.answered
    && st'.phase == (if finishes then Finished else st.phase)
    && st'.drops == (if finishes then st.drops + 1 else st.drops)
  }

  lemma NormalCounts(cfg: ClientConfig, st: ClientState, id: nat)
    requires id in st.pending && id !in st.responses && id != RECONFIG_ID
    ensures Counted(cfg, st, NormalResponse(cfg, st.(pending := st.pending - {id}), id), id)
  {
    AnswerSizes(st, id);
  }

  lemma CountedReconfig(cfg: ClientConfig, st: ClientState, st': ClientState, id: nat)
    requires Counted(cfg, st, st', id) && ReconfigInv(cfg, st) && st.phase == Running
    ensures ReconfigInv(cfg, st')
  {
    hide PendingNormal;
  }

  lemma CountedFinish(cfg: ClientConfig, st: ClientState, st': ClientState, id: nat)
    requires Counted(cfg, st, st', id) && ReconfigInv(cfg, st) && FinishInv(cfg, st) && st.phase == Running
    requires |st'.responses| <= cfg.numProposals
    ensures FinishInv(cfg, st') && st'.phase != Setup && |st'.pending| <= |st.pending|
  {
    hide PendingNormal;
  }

  lemma CountedPartition(cfg: ClientConfig, st: ClientState, st': ClientState, id: nat)
    requires Counted(cfg, st, st', id) && Partitioned(cfg, st) && id in st.pending && id != RECONFIG_ID
    ensures Partitioned(cfg, st')
  {
    AnswerKeepsPartition(cfg, st, id);
    hide Partitioned;
    PartitionIgnoresRest(cfg, st.(pending := st.pending - {id}, responses := st.responses + {id}), st');
  }

  /** Counting the answer to `id`. */
  lemma NormalKeepsInv(cfg: ClientConfig, st: ClientState, id: nat)
    requires Inv(cfg, st) && st.phase == Running && id in st.pending && id != RECONFIG_ID
    ensures
      var st' := NormalResponse(cfg, st.(pending := st.pending - {id}), id);
      Inv(cfg, st') && st'.phase != Setup
  {
    AnswerKeepsPartition(cfg, st, id);
    NormalCounts(cfg, st, id);
    hide Range, Partitioned, NormalResponse, Counted, ReconfigInv, FinishInv;
    var st' := NormalResponse(cfg, st.(pending := st.pending - {id}), id);
    CountedPartition(cfg, st, st', id);
    ResponsesBounded(cfg, st');
    CountedReconfig(cfg, st, st', id);
    CountedFinish(cfg, st, st', id);
  }

  lemma LeaderIrrelevant(cfg: ClientConfig, st: ClientState, leader: nat, round: nat)
    requires Inv(cfg, st)
    ensures Inv(cfg, st.(leader := leader, round := round))
  {
    hide Range, Partitioned;
    PartitionIgnoresRest(cfg, st, st.(leader := leader, round := round));
  }

  /** No response answers the reconfiguration under its own id. */
  predicate Genuine(e: Event) {
    e.ProposalResp? ==> e.id != RECONFIG_ID
  }

  lemma RespondKeepsInv(cfg: ClientConfig, st: ClientState, id: nat, leader: nat, round: nat)
    requires Inv(cfg, st) && id != RECONFIG_ID
    ensures Respond(cfg, st, id, leader, round).Some? && Inv(cfg, Respond(cfg, st, id, leader, round).value)
  {
    hide Partitioned, ReconfigInv, SendConcurrent, NormalResponse;
    LeaderIrrelevant(cfg, st, leader, round);
    if st.phase != Finished && id in st.pending {
      var st2 := if leader in st.members && st.round < round then st.(leader := leader, round := round) else st;
      NormalKeepsInv(cfg, st2, id);
      SendKeepsInv(cfg, NormalResponse(cfg, st2.(pending := st2.pending - {id}), id));
    }
  }

  lemma ReconfigKeepsInv(cfg: ClientConfig, st: ClientState, config: seq<nat>, leader: nat, round: nat)
    requires Inv(cfg, st)
    ensures ReconfigResponse(cfg, st, config, leader, round).Some?
    ensures Inv(cfg, ReconfigResponse(cfg, st, config, leader, round).value)
  {
    hide Partitioned, SendConcurrent;
    if RECONFIG_ID in st.pending {
      var st1 := st.(pending := st.pending - {RECONFIG_ID}, answered := true);
      if |st.responses| == cfg.numProposals {
        PartitionIgnoresRest(cfg, st, st1.(phase := Finished, drops := st.drops + 1));
      } else {
        var st2 := st1.(reconfig := false, members := config);
        PartitionIgnoresRest(cfg, st, st2);
        LeaderIrrelevant(cfg, st2, leader, round);
        SendKeepsInv(cfg, if leader > 0 && st.leader != leader && round > st.round
                          then st2.(leader := leader, round := round) else st2);
      }
    }
  }

  /** The two assertions that a genuine event can fail, both before the run: it may not start
      without a leader, and process 0 may not be announced. */
  predicate MissesLeader(st: ClientState, e: Event) {
    st.phase == Setup && ((e.Run? && st.leader == 0) || (e.NewLeader? && e.pid == 0))
  }

  lemma HandleKeepsInv(cfg: ClientConfig, st: ClientState, e: Event)
    requires Inv(cfg, st) && Genuine(e)
    ensures Handle(cfg, st, e).None? <==> MissesLeader(st, e)
    ensures Handle(cfg, st, e).Some? ==> Inv(cfg, Handle(cfg, st, e).value)
  {
    hide Partitioned, SendConcurrent, Respond, ReconfigResponse;
    match e {
      case Run =>
        if st.phase == Setup && st.leader != 0 {
          PartitionIgnoresRest(cfg, st, st.(phase := Running));
          SendKeepsInv(cfg, st.(phase := Running));
        }
      case NewLeader(pid, round) => LeaderIrrelevant(cfg, st, pid, round);
      case ProposalResp(id, leader, round) => RespondKeepsInv(cfg, st, id, leader, round);
      case ReconfigResp(config, leader, round) => ReconfigKeepsInv(cfg, st, config, leader, round);
    }
  }

  /** Somewhere in the run such an assertion fails. */
  ghost predicate MissedLeader(cfg: ClientConfig, members: seq<nat>, events: seq<Event>) {
    exists i :: 0 <= i < |events| && StopsAt(cfg, members, events, i)
  }

  predicate StopsAt(cfg: ClientConfig, members: seq<nat>, events: seq<Event>, i: nat)
    requires i < |events|
  {
    var r := Replay(cfg, members, events[..i]);
    r.Some? && MissesLeader(r.value, events[i])
  }

  lemma StopsAtPrefix(cfg: ClientConfig, members: seq<nat>, events: seq<Event>, n: nat, i: nat)
    requires i < n <= |events|
    ensures StopsAt(cfg, members, events[..n], i) == StopsAt(cfg, members, events, i)
  {
    assert events[..n][..i] == events[..i];
  }

  /** In every run the number of available slots never underflows, and the accounting
      holds; the client panics exactly when one of the assertions about its leader fails. */
  lemma {:induction false} ReplayKeepsInv(cfg: ClientConfig, members: seq<nat>, events: seq<Event>)
    requires forall i :: 0 <= i < |events| ==> Genuine(events[i])
    ensures Replay(cfg, members, events).None? <==> MissedLeader(cfg, members, events)
    ensures Replay(cfg, members, events).Some? ==> Inv(cfg, Replay(cfg, members, events).value)
  {
    hide Handle, Inv;
    if events == [] {
      InitInv(cfg, members);
    } else {
      var n := |events| - 1;
      var front := events[..n];
      ReplayKeepsInv(cfg, members, front);
      forall i | 0 <= i < n
        ensures StopsAt(cfg, members, front, i) == StopsAt(cfg, members, events, i)
      {
        StopsAtPrefix(cfg, members, events, n, i);
      }
      var before := Replay(cfg, members, front);
      if before.Some? {
        HandleKeepsInv(cfg, before.value, events[n]);
        assert StopsAt(cfg, members, events, n) <==> MissesLeader(before.value, events[n]);
      } else {
        var i :| 0 <= i < n && StopsAt(cfg, members, front, i);
        assert StopsAt(cfg, members, events, i);
      }
    }
  }

  lemma InitInv(cfg: ClientConfig, members: seq<nat>)
    ensures Inv(cfg, InitClient(cfg, members))
  {
  }

  /** A response that carries the reconfiguration's own id would be counted as the
      answer to a proposal; it breaks the accounting exactly when the reconfiguration
      is pending. */
  lemma AccountingKeptIff(cfg: ClientConfig, st: ClientState, id: nat, leader: nat, round: nat)
    requires Inv(cfg, st)
    ensures
      var r := Respond(cfg, st, id, leader, round);
      (r.Some? && Inv(cfg, r.value)) <==> !(id == RECONFIG_ID && RECONFIG_ID in st.pending)
  {
    if id != RECONFIG_ID {
      RespondKeepsInv(cfg, st, id, leader, round);
    } else if RECONFIG_ID in st.pending {
      var r := Respond(cfg, st, id, leader, round);
      assert r.Some? ==> RECONFIG_ID in r.value.responses;
    } else {
      LeaderIrrelevant(cfg, st, leader, round);
    }
  }

  /** The latch drops at most once, and exactly when all proposals and a requested
      reconfiguration are answered. A requested reconfiguration is never proposed when
      there are fewer than two proposals, so that client never finishes. */
  lemma FinishedOnce(cfg: ClientConfig, members: seq<nat>, events: seq<Event>)
    requires forall i :: 0 <= i < |events| ==> Genuine(events[i])
    ensures
      var r := Replay(cfg, members, events);
      && (r.None? <==> MissedLeader(cfg, members, events))
      && (r.Some? ==> Accounts(cfg, r.value))
  {
    ReplayKeepsInv(cfg, members, events);
    hide Replay, MissedLeader;
    var r := Replay(cfg, members, events);
    if r.Some? {
      InvAccounts(cfg, r.value);
    }
  }

  /** What the client's books say. */
  ghost predicate Accounts(cfg: ClientConfig, st: ClientState) {
    var issued, all := Range(cfg.preload + 1, st.latest), Range(cfg.preload + 1, cfg.preload + cfg.numProposals);
    && st.drops <= 1 && |st.pending| <= cfg.limit && st.latest <= cfg.preload + cfg.numProposals
    && PendingNormal(st) !! st.responses && PendingNormal(st) + st.responses == issued
    && (st.drops == 1 <==> cfg.numProposals > 0 && st.responses == all && (cfg.wantsReconfig ==> st.answered))
    && (cfg.wantsReconfig && cfg.numProposals >= 2 ==>
          (RECONFIG_ID in st.pending || st.answered <==> |st.responses| >= cfg.numProposals / 2))
    && (cfg.wantsReconfig && cfg.numProposals < 2 ==> st.drops == 0)
  }

  lemma InvAccounts(cfg: ClientConfig, st: ClientState)
    requires Inv(cfg, st)
    ensures Accounts(cfg, st)
  {
    hide Range;
    AllAnswered(cfg, st);
  }

  // ----- the window is kept full ---------------------------------------------------------------

  /** While the client runs and knows a leader, all slots of the window are used or all
      proposals have been issued. */
  predicate KeepsFull(cfg: ClientConfig, st: ClientState) {
    st.phase == Running ==>
      st.leader != 0 && (|st.pending| == cfg.limit || st.latest == cfg.preload + cfg.numProposals)
  }

  /** Leaders named in events are processes. */
  predicate NamesLeader(e: Event) {
    && (e.NewLeader? ==> e.pid > 0)
    && (e.ProposalResp? || e.ReconfigResp? ==> e.latestLeader > 0)
  }

  lemma SendFills(cfg: ClientConfig, st: ClientState)
    requires Inv(cfg, st) && st.leader != 0
    ensures
      var r := SendConcurrent(cfg, st);
      && r.Some? && r.value == st.(pending := r.value.pending, latest := r.value.latest)
      && (|r.value.pending| == cfg.limit || r.value.latest == cfg.preload + cfg.numProposals)
  {
    hide Range, Partitioned, ReconfigInv, FinishInv;
    var st' := SendConcurrent(cfg, st).value;
    if st'.latest > st.latest {
      NewIdsAdd(cfg, st, st'.latest);
    }
    assert st.latest <= cfg.preload + cfg.numProposals by { LatestBounded(cfg, st); }
  }

  lemma LatestBounded(cfg: ClientConfig, st: ClientState)
    requires Partitioned(cfg, st)
    ensures st.latest <= cfg.preload + cfg.numProposals
  {
    hide Range;
  }

  lemma NewIdsAdd(cfg: ClientConfig, st: ClientState, to: nat)
    requires Partitioned(cfg, st) && st.latest < to
    ensures |st.pending + Range(st.latest + 1, to)| == |st.pending| + (to - st.latest)
  {
    hide Range;
    var issued := Range(st.latest + 1, to);
    RangeSize(st.latest + 1, to);
    forall id | id in st.pending
      ensures id !in issued
    {
      assert id != RECONFIG_ID ==> id in PendingNormal(st);
    }
    assert |st.pending + issued| == |st.pending| + |issued|;
  }

  lemma HandleKeepsFull(cfg: ClientConfig, st: ClientState, e: Event)
    requires Inv(cfg, st) && KeepsFull(cfg, st) && Genuine(e) && NamesLeader(e) && Handle(cfg, st, e).Some?
    ensures KeepsFull(cfg, Handle(cfg, st, e).value)
  {
    hide Inv, SendConcurrent, NormalResponse, Range;
    match e {
      case Run =>
        if st.phase == Setup {
          RunKeepsInv(cfg, st);
          SendFills(cfg, st.(phase := Running));
        }
      case NewLeader(pid, round) =>
      case ProposalResp(id, leader, round) =>
        if st.phase != Finished && id in st.pending {
          RunningIfPending(cfg, st);
          var st2 := if leader in st.members && st.round < round then st.(leader := leader, round := round) else st;
          LeaderIrrelevant(cfg, st, leader, round);
          NormalKeepsInv(cfg, st2, id);
          var mid := NormalResponse(cfg, st2.(pending := st2.pending - {id}), id);
          NormalKeepsLeader(cfg, st2.(pending := st2.pending - {id}), id);
          SendFills(cfg, mid);
        }
      case ReconfigResp(config, leader, round) =>
        if RECONFIG_ID in st.pending && |st.responses| != cfg.numProposals {
          RunningIfPending(cfg, st);
          var st2 := st.(pending := st.pending - {RECONFIG_ID}, answered := true, reconfig := false, members := config);
          var st3 := if leader > 0 && st.leader != leader && round > st.round
                     then st2.(leader := leader, round := round) else st2;
          AnsweredKeepsInv(cfg, st, config);
          LeaderIrrelevant(cfg, st2, leader, round);
          SendFills(cfg, st3);
        }
    }
  }

  lemma RunKeepsInv(cfg: ClientConfig, st: ClientState)
    requires Inv(cfg, st) && st.phase == Setup
    ensures Inv(cfg, st.(phase := Running))
  {
    hide Partitioned;
    PartitionIgnoresRest(cfg, st, st.(phase := Running));
  }

  lemma RunningIfPending(cfg: ClientConfig, st: ClientState)
    requires Inv(cfg, st) && st.pending != {} && (st.phase != Finished || RECONFIG_ID in st.pending)
    ensures st.phase == Running
  {
    hide Partitioned;
  }

  lemma NormalKeepsLeader(cfg: ClientConfig, st: ClientState, id: nat)
    ensures NormalResponse(cfg, st, id).leader == st.leader && NormalResponse(cfg, st, id).round == st.round
    ensures NormalResponse(cfg, st, id).members == st.members
  {
  }

  lemma SendKeepsLeader(cfg: ClientConfig, st: ClientState)
    ensures
      var r := SendConcurrent(cfg, st);
      r.Some? ==> r.value.leader == st.leader && r.value.round == st.round && r.value.members == st.members
  {
  }

  lemma AnsweredKeepsInv(cfg: ClientConfig, st: ClientState, config: seq<nat>)
    requires Inv(cfg, st) && RECONFIG_ID in st.pending && |st.responses| != cfg.numProposals
    ensures Inv(cfg, st.(pending := st.pending - {RECONFIG_ID}, answered := true, reconfig := false, members := config))
  {
    hide Partitioned;
    var st2 := st.(pending := st.pending - {RECONFIG_ID}, answered := true, reconfig := false, members := config);
    PartitionIgnoresRest(cfg, st, st2);
  }

  /** In every run the window is full while the client runs. */
  lemma {:induction false} WindowStaysFull(cfg: ClientConfig, members: seq<nat>, events: seq<Event>)
    requires forall i :: 0 <= i < |events| ==> Genuine(events[i]) && NamesLeader(events[i])
    ensures Replay(cfg, members, events).Some? ==> KeepsFull(cfg, Replay(cfg, members, events).value)
  {
    hide Handle, Inv;
    if events != [] {
      var front := events[..|events| - 1];
      WindowStaysFull(cfg, members, front);
      ReplayKeepsInv(cfg, members, front);
      var before := Replay(cfg, members, front);
      if before.Some? && Replay(cfg, members, events).Some? {
        HandleKeepsFull(cfg, before.value, events[|events| - 1]);
      }
    }
  }

  /** Before it runs the client takes the process named last, by an announcement or by the
      answer to a preloaded proposal. */
  lemma LeaderBeforeRun(cfg: ClientConfig, st: ClientState, e: Event)
    requires Inv(cfg, st) && st.phase == Setup && (e.NewLeader? || e.ProposalResp?)
    ensures
      var (pid, round) := if e.NewLeader? then (e.pid, e.round) else (e.latestLeader, e.leaderRound);
      Handle(cfg, st, e) ==
        if e.NewLeader? && pid == 0 then None
        else Some(if e.NewLeader? || e.id <= cfg.preload then st.(leader := pid, round := round) else st)
  {
    hide Partitioned, Range;
  }

  /** Whom the client takes for leader once it runs: the one named with a higher round, by
      an announcement, by a response that names a member, or by the reconfiguration. */
  lemma LeaderFollowsRounds(cfg: ClientConfig, st: ClientState, e: Event)
    requires Inv(cfg, st) && Genuine(e) && st.phase == Running
    ensures
      var st' := Handle(cfg, st, e);
      var (pid, round) := match e
        case Run => (st.leader, st.round)
        case NewLeader(pid, round) => (pid, round)
        case ProposalResp(id, l, r) => if id in st.pending && l in st.members then (l, r) else (st.leader, st.round)
        case ReconfigResp(_, l, r) =>
          if RECONFIG_ID in st.pending && |st.responses| < cfg.numProposals && l > 0 && l != st.leader
          then (l, r) else (st.leader, st.round);
      && st'.Some?
      && (if round > st.round then st'.value.leader == pid && st'.value.round == round
          else st'.value.leader == st.leader && st'.value.round == st.round)
      && st'.value.members ==
         if e.ReconfigResp? && RECONFIG_ID in st.pending && |st.responses| < cfg.numProposals
         then e.config else st.members
  {
    HandleKeepsInv(cfg, st, e);
    ResponsesBounded(cfg, st);
    hide Inv, SendConcurrent, NormalResponse;
    match e {
      case Run =>
      case NewLeader(pid, round) =>
      case ProposalResp(id, l, r) =>
        var st1 := st.(pending := st.pending - {id});
        var st2 := if l in st.members && st.round < r then st1.(leader := l, round := r) else st1;
        NormalKeepsLeader(cfg, st2, id);
        SendKeepsLeader(cfg, NormalResponse(cfg, st2, id));
      case ReconfigResp(config, l, r) =>
        var st2 := st.(pending := st.pending - {RECONFIG_ID}, answered := true, reconfig := false, members := config);
        SendKeepsLeader(cfg, if l > 0 && st.leader != l && r > st.round then st2.(leader := l, round := r) else st2);
    }
  }

  lemma AllAnswered(cfg: ClientConfig, st: ClientState)
    requires Partitioned(cfg, st)
    ensures |st.responses| == cfg.numProposals <==>
      st.responses == Range(cfg.preload + 1, cfg.preload + cfg.numProposals)
  {
    hide Range;
    var all := Range(cfg.preload + 1, cfg.preload + cfg.numProposals);
    RangeSize(cfg.preload + 1, cfg.preload + cfg.numProposals);
    assert st.responses <= all;
    SameSize(st.responses, all);
  }

  lemma SameSize(a: set<nat>, b: set<nat>)
    requires a <= b
    ensures |a| == |b| <==> a == b
  {
    assert b == a + (b - a);
  }

  // ----- the component ---------------------------------------------------------------------

  class ReconfigurationClient {
    const cfg: ClientConfig
    var latestProposalId: nat
    var responses: set<nat>
    var pendingProposals: set<nat>
    var currentLeader: nat
    var leaderRound: nat
    var phase: Phase
    var reconfig: bool
    var currentConfig: seq<nat>
    var finishedLatchDrops: nat
    ghost var answered: bool

    ghost function View(): ClientState
      reads this
    {
      ClientState(latestProposalId, responses, pendingProposals, currentLeader, leaderRound, phase, reconfig,
                  currentConfig, finishedLatchDrops, answered)
    }

    constructor (cfg: ClientConfig, initialConfig: seq<nat>)
      ensures this.cfg == cfg && View() == InitClient(cfg, initialConfig)
    {
      this.cfg := cfg;
      latestProposalId, responses, pendingProposals := cfg.preload, {}, {};
      currentLeader, leaderRound, phase, reconfig := 0, 0, Setup, cfg.wantsReconfig;
      currentConfig, finishedLatchDrops, answered := initialConfig, 0, false;
    }

    /** Fills the window; returns the ids proposed, and false for an underflow. */
    method SendConcurrentProposals() returns (ok: bool, proposed: seq<nat>)
      modifies this
      ensures ok <==> SendConcurrent(cfg, old(View())).Some?
      ensures ok ==> SendConcurrent(cfg, old(View())) == Some(View())
      ensures ok ==> |proposed| == latestProposalId - old(latestProposalId)
      ensures forall i :: 0 <= i < |proposed| ==> proposed[i] == old(latestProposalId) + 1 + i
    {
      hide Range;
      proposed := [];
      var numInflight := |pendingProposals|;
      if numInflight == cfg.limit || currentLeader == 0 {
        return true, [];
      }
      if numInflight > cfg.limit {
        return false, [];
      }
      var from := latestProposalId + 1;
      var i := latestProposalId + (cfg.limit - numInflight);
      var maxProposalId := cfg.numProposals + cfg.preload;
      var to := if i > maxProposalId then maxProposalId else i;
      if from > to {
        return true, [];
      }
      proposed := Propose(from, to);
      latestProposalId := to;
      return true, proposed;
    }

    method Propose(from: nat, to: nat) returns (proposed: seq<nat>)
      requires from <= to + 1
      modifies this`pendingProposals
      ensures pendingProposals == old(pendingProposals) + Range(from, to)
      ensures |proposed| == to + 1 - from && forall i :: 0 <= i < |proposed| ==> proposed[i] == from + i
    {
      hide Range;
      proposed := [];
      for id := from to to + 1
        invariant forall x :: x in pendingProposals <==> x in old(pendingProposals) || from <= x < id
        invariant |proposed| == id - from && forall j :: 0 <= j < |proposed| ==> proposed[j] == from + j
      {
        proposed := proposed + [id];
        pendingProposals := pendingProposals + {id};
      }
    }

    /** Returns false for a panic. */
    method OnRun() returns (ok: bool)
      modifies this
      ensures ok <==> Handle(cfg, old(View()), Run).Some?
      ensures ok ==> Handle(cfg, old(View()), Run) == Some(View())
    {
      if phase != Setup {
        return true;
      }
      phase := Running;
      if currentLeader == 0 {
        return false;
      }
      var proposed;
      ok, proposed := SendConcurrentProposals();
    }

    method OnLeader(pid: nat, round: nat) returns (ok: bool)
      modifies this
      ensures ok <==> Handle(cfg, old(View()), NewLeader(pid, round)).Some?
      ensures ok ==> Handle(cfg, old(View()), NewLeader(pid, round)) == Some(View())
    {
      if phase == Setup && pid == 0 {
        return false;
      }
      ok := true;
      if phase == Setup || (phase == Running && round > leaderRound) {
        currentLeader, leaderRound := pid, round;
      }
    }

    method HandleNormalResponse(id: nat)
      modifies this
      ensures View() == NormalResponse(cfg, old(View()), id)
    {
      responses := responses + {id};
      var receivedCount := |responses|;
      if receivedCount == cfg.numProposals {
        if !reconfig {
          phase, finishedLatchDrops := Finished, finishedLatchDrops + 1;
        }
      } else if receivedCount == cfg.numProposals / WARMUP_FACTOR && reconfig {
        pendingProposals := pendingProposals + {RECONFIG_ID};
      }
    }

    method HandleReconfigResponse(config: seq<nat>, latestLeader: nat, round: nat) returns (ok: bool)
      modifies this
      ensures ok <==> ReconfigResponse(cfg, old(View()), config, latestLeader, round).Some?
      ensures ok ==> ReconfigResponse(cfg, old(View()), config, latestLeader, round) == Some(View())
    {
      ok := true;
      if RECONFIG_ID in pendingProposals {
        pendingProposals, answered := pendingProposals - {RECONFIG_ID}, true;
        if |responses| == cfg.numProposals {
          phase, finishedLatchDrops := Finished, finishedLatchDrops + 1;
        } else {
          reconfig, currentConfig := false, config;
          if latestLeader > 0 && currentLeader != latestLeader && round > leaderRound {
            currentLeader, leaderRound := latestLeader, round;
          }
          var proposed;
          ok, proposed := SendConcurrentProposals();
        }
      }
    }

    method OnProposalResp(id: nat, latestLeader: nat, round: nat) returns (ok: bool)
      modifies this
      ensures ok <==> Respond(cfg, old(View()), id, latestLeader, round).Some?
      ensures ok ==> Respond(cfg, old(View()), id, latestLeader, round) == Some(View())
    {
      ok := true;
      if phase == Finished {
        return;
      }
      if id in pendingProposals {
        pendingProposals := pendingProposals - {id};
        if latestLeader in currentConfig && leaderRound < round {
          leaderRound, currentLeader := round, latestLeader;
        }
        HandleNormalResponse(id);
        var proposed;
        ok, proposed := SendConcurrentProposals();
      } else if id <= cfg.preload && phase == Setup {
        currentLeader, leaderRound := latestLeader, round;
      }
    }
  }
}
