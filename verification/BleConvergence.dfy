/** Ballot leader election under partial connectivity: on any fixed connection
    graph, three lock-step heartbeat rounds settle the election for good. */
module BleConvergence {
  import opened Common
  import opened BallotLeaderElection

  /** `links[p]` are the servers whose replies reach `p` in a round. */
  datatype Cluster = Cluster(links: map<nat, set<nat>>)

  type Servers = map<nat, BleState>

  ghost predicate ValidCluster(c: Cluster) {
    forall p, q :: p in c.links && q in c.links[p] ==> q in c.links && q != p
  }

  function MajorityOf(c: Cluster): nat {
    Majority(|c.links|)
  }

  /** A quorum-connected server reaches a majority, itself included. */
  predicate QuorumConnected(c: Cluster, p: nat)
    requires p in c.links
  {
    2 * (|c.links[p]| + 1) > |c.links|
  }

  /** One state per server; every server bids with its own process id. */
  ghost predicate ValidServers(c: Cluster, s: Servers) {
    && ValidCluster(c)
    && s.Keys == c.links.Keys
    && forall p :: p in s ==> s[p].current.pid == p && s[p].ballots == []
  }

  /** `replies` holds one reply from each linked server, in some order. */
  ghost predicate RepliesFor(c: Cluster, s: Servers, p: nat, replies: seq<Reply>)
    requires ValidServers(c, s) && p in s
  {
    && |replies| == |c.links[p]|
    && forall r :: r in replies <==> exists q :: q in c.links[p] && r == Answer(s[q])
  }

  /** All servers exchange heartbeats with the states at the start of the round and
      then time out. */
  ghost predicate LockStep(c: Cluster, s: Servers, s': Servers) {
    && ValidServers(c, s)
    && s'.Keys == s.Keys
    && forall p :: p in s ==> Timeout(c, s, p, s'[p])
  }

  /** In the round each linked server's answer arrives once, tagged with the round of the
      asking server, in any order and mixed with replies of other rounds. */
  ghost predicate Delivered(c: Cluster, s: Servers, p: nat, events: seq<Event>)
    requires ValidServers(c, s) && p in s
  {
    && OnlyReplies(events)
    && |set i | 0 <= i < |events| && IsCurrent(events[i], s[p].hbRound)| == |c.links[p]|
    && (forall e :: e in events && IsCurrent(e, s[p].hbRound) ==>
          exists q :: q in c.links[p] && e.reply == Answer(s[q]))
    && (forall q :: q in c.links[p] ==> ReplyArrives(s[p].hbRound, Answer(s[q])) in events)
  }

  predicate IsCurrent(e: Event, round: nat) {
    e.ReplyArrives? && e.round == round
  }

  /** The replies of a round arrive, then the timer fires. */
  ghost predicate Timeout(c: Cluster, s: Servers, p: nat, st': BleState)
    requires ValidServers(c, s) && p in s
  {
    exists events :: Delivered(c, s, p, events) && st' == Run(MajorityOf(c), s[p], events + [TimeoutFires]).0
  }

  lemma {:induction false} CurrentCount(events: seq<Event>, round: nat)
    ensures |CurrentReplies(events, round)| == |set i | 0 <= i < |events| && IsCurrent(events[i], round)|
  {
    if events != [] {
      var n := |events| - 1;
      var front := events[..n];
      CurrentCount(front, round);
      var before := set i | 0 <= i < n && IsCurrent(front[i], round);
      var all := set i | 0 <= i < |events| && IsCurrent(events[i], round);
      assert all == if IsCurrent(events[n], round) then before + {n} else before;
    }
  }

  lemma RunThenTimeout(majority: nat, st: BleState, events: seq<Event>)
    requires OnlyReplies(events) && st.ballots == []
    ensures Run(majority, st, events + [TimeoutFires]).0 ==
      HbTimeout(majority, st.(ballots := CurrentReplies(events, st.hbRound))).0
  {
    hide HbTimeout, HandleReply, CurrentReplies;
    assert (events + [TimeoutFires])[..|events|] == events;
    CollectsCurrentReplies(majority, st, events);
    assert [] + CurrentReplies(events, st.hbRound) == CurrentReplies(events, st.hbRound);
  }

  /** The collected replies are those of the linked servers. */
  lemma DeliveredReplies(c: Cluster, s: Servers, p: nat, events: seq<Event>)
    requires ValidServers(c, s) && p in s && Delivered(c, s, p, events)
    ensures OnlyReplies(events) && RepliesFor(c, s, p, CurrentReplies(events, s[p].hbRound))
  {
    hide CurrentReplies;
    var round := s[p].hbRound;
    CurrentCount(events, round);
    forall r
      ensures r in CurrentReplies(events, round) <==> exists q :: q in c.links[p] && r == Answer(s[q])
    {
      CurrentMembers(events, round, r);
      if ReplyArrives(round, r) in events {
        assert IsCurrent(ReplyArrives(round, r), round);
      }
    }
  }

  /** A round in terms of the timeout handler and the answers of the linked servers. */
  lemma TimeoutReplies(c: Cluster, s: Servers, p: nat, st': BleState) returns (replies: seq<Reply>)
    requires ValidServers(c, s) && p in s && Timeout(c, s, p, st')
    ensures RepliesFor(c, s, p, replies) && st' == HbTimeout(MajorityOf(c), s[p].(ballots := replies)).0
  {
    hide HbTimeout, Run, Delivered, CurrentReplies;
    var events :| Delivered(c, s, p, events) && st' == Run(MajorityOf(c), s[p], events + [TimeoutFires]).0;
    DeliveredReplies(c, s, p, events);
    replies := CurrentReplies(events, s[p].hbRound);
    RunThenTimeout(MajorityOf(c), s[p], events);
  }

  /** The replies, tagged with a round. */
  function Tagged(round: nat, replies: seq<Reply>): (events: seq<Event>)
    ensures |events| == |replies|
    ensures forall i :: 0 <= i < |replies| ==> events[i] == ReplyArrives(round, replies[i])
  {
    if replies == [] then []
    else Tagged(round, replies[..|replies| - 1]) + [ReplyArrives(round, replies[|replies| - 1])]
  }

  lemma {:induction false} TaggedAreCurrent(round: nat, replies: seq<Reply>)
    ensures CurrentReplies(Tagged(round, replies), round) == replies
  {
    if replies != [] {
      var front := replies[..|replies| - 1];
      TaggedAreCurrent(round, front);
      assert Tagged(round, replies)[..|front|] == Tagged(round, front);
      assert replies == front + [replies[|replies| - 1]];
    }
  }

  lemma TaggedDelivered(c: Cluster, s: Servers, p: nat, replies: seq<Reply>)
    requires ValidServers(c, s) && p in s && RepliesFor(c, s, p, replies)
    ensures Delivered(c, s, p, Tagged(s[p].hbRound, replies))
  {
    hide Tagged, CurrentReplies;
    var round := s[p].hbRound;
    var events := Tagged(round, replies);
    TaggedAreCurrent(round, replies);
    CurrentCount(events, round);
    forall e | e in events
      ensures e.ReplyArrives? && exists q :: q in c.links[p] && e.reply == Answer(s[q])
    {
      var i :| 0 <= i < |events| && events[i] == e;
      assert replies[i] in replies;
    }
    forall q | q in c.links[p]
      ensures ReplyArrives(round, Answer(s[q])) in events
    {
      assert Answer(s[q]) in replies;
      CurrentMembers(events, round, Answer(s[q]));
    }
  }

  /** Any order of the answers is a round. */
  lemma RepliesTimeout(c: Cluster, s: Servers, p: nat, replies: seq<Reply>)
    requires ValidServers(c, s) && p in s && RepliesFor(c, s, p, replies)
    ensures Timeout(c, s, p, HbTimeout(MajorityOf(c), s[p].(ballots := replies)).0)
  {
    hide HbTimeout, Run, Delivered, RepliesFor, Tagged, CurrentReplies;
    var events := Tagged(s[p].hbRound, replies);
    TaggedDelivered(c, s, p, replies);
    DeliveredReplies(c, s, p, events);
    TaggedAreCurrent(s[p].hbRound, replies);
    RunThenTimeout(MajorityOf(c), s[p], events);
  }

  /** `q` counts for `p`: it is `p` itself or a linked candidate. */
  ghost predicate Visible(c: Cluster, s: Servers, p: nat, q: nat)
    requires ValidServers(c, s) && p in s
  {
    q in s && (q == p || (q in c.links[p] && s[q].candidate))
  }

  /** `b` is the highest ballot visible to `p`. */
  ghost predicate IsTop(c: Cluster, s: Servers, p: nat, b: Ballot)
    requires ValidServers(c, s) && p in s
  {
    && (exists q :: Visible(c, s, p, q) && s[q].current == b)
    && (forall q :: Visible(c, s, p, q) ==> AtMost(s[q].current, b))
  }

  /** The ballot that the timeout handler computes is the top visible one. */
  lemma TopOfReplies(c: Cluster, s: Servers, p: nat, replies: seq<Reply>)
    requires ValidServers(c, s) && p in s && RepliesFor(c, s, p, replies)
    ensures IsTop(c, s, p, TopBallot(replies + [Reply(s[p].current, true)]))
  {
    var all := replies + [Reply(s[p].current, true)];
    var top := TopBallot(all);
    assert all[|replies|] == Reply(s[p].current, true);
    hide TopBallot;
    forall q | Visible(c, s, p, q)
      ensures AtMost(s[q].current, top)
    {
      if q != p {
        assert Answer(s[q]) in replies;
        assert Reply(s[q].current, true) in all;
      }
    }
    assert Visible(c, s, p, p);
    if top != s[p].current {
      assert Reply(top, true) in replies;
      var q :| q in c.links[p] && Reply(top, true) == Answer(s[q]);
      assert Visible(c, s, p, q);
    }
  }

  /** What one round does to a quorum-connected server, in terms of the top ballot. */
  lemma TimeoutOutcome(c: Cluster, s: Servers, p: nat, st': BleState) returns (top: Ballot)
    requires ValidServers(c, s) && p in s && Timeout(c, s, p, st') && QuorumConnected(c, p)
    ensures IsTop(c, s, p, top)
    ensures st'.candidate && st'.ballots == []
    ensures if Less(top, OrDefault(s[p].leader))
            then st'.leader == None && st'.current == Ballot(OrDefault(s[p].leader).n + 1, p) &&
              Less(s[p].current, st'.current)
            else st'.leader == Some(top) && st'.current == s[p].current
  {
    hide TopBallot, Timeout;
    var replies := TimeoutReplies(c, s, p, st');
    MajorityIff(|c.links|, |c.links[p]| + 1);
    TopOfReplies(c, s, p, replies);
    top := TopBallot(replies + [Reply(s[p].current, true)]);
    assert Visible(c, s, p, p);
  }

  /** A server below a quorum only lowers its flag. */
  lemma TimeoutAlone(c: Cluster, s: Servers, p: nat, st': BleState)
    requires ValidServers(c, s) && p in s && Timeout(c, s, p, st') && !QuorumConnected(c, p)
    ensures !st'.candidate && st'.ballots == [] && st'.leader == s[p].leader && st'.current == s[p].current
  {
    hide TopBallot, Timeout;
    var replies := TimeoutReplies(c, s, p, st');
    MajorityIff(|c.links|, |c.links[p]| + 1);
  }

  /** After one round the flags tell the truth. */
  ghost predicate FlagsExact(c: Cluster, s: Servers) {
    ValidServers(c, s) && forall p :: p in s ==> (s[p].candidate <==> QuorumConnected(c, p))
  }

  /** No quorum-connected server waits for a ballot above what it can see. */
  ghost predicate NoneAhead(c: Cluster, s: Servers) {
    && FlagsExact(c, s)
    && forall p :: p in s && QuorumConnected(c, p) && s[p].leader.Some? ==>
         exists q :: Visible(c, s, p, q) && AtMost(s[p].leader.value, s[q].current)
  }

  /** Every quorum-connected server follows the highest ballot among itself and its
      quorum-connected neighbours. */
  ghost predicate Settled(c: Cluster, s: Servers) {
    && FlagsExact(c, s)
    && forall p :: p in s && QuorumConnected(c, p) ==> s[p].leader.Some? && IsTop(c, s, p, s[p].leader.value)
  }

  lemma RoundMakesFlagsExact(c: Cluster, s: Servers, s': Servers)
    requires LockStep(c, s, s')
    ensures FlagsExact(c, s')
    ensures forall p :: p in s ==> AtMost(s[p].current, s'[p].current)
  {
    forall p | p in s
      ensures s'[p].current.pid == p && s'[p].ballots == [] && (s'[p].candidate <==> QuorumConnected(c, p))
      ensures AtMost(s[p].current, s'[p].current)
    {
      if QuorumConnected(c, p) {
        var top := TimeoutOutcome(c, s, p, s'[p]);
      } else {
        TimeoutAlone(c, s, p, s'[p]);
      }
    }
  }

  lemma SecondRound(c: Cluster, s: Servers, s': Servers)
    requires LockStep(c, s, s') && FlagsExact(c, s)
    ensures NoneAhead(c, s')
  {
    RoundMakesFlagsExact(c, s, s');
    forall p | p in s' && QuorumConnected(c, p) && s'[p].leader.Some?
      ensures exists q :: Visible(c, s', p, q) && AtMost(s'[p].leader.value, s'[q].current)
    {
      var top := TimeoutOutcome(c, s, p, s'[p]);
      var q :| Visible(c, s, p, q) && s[q].current == top;
      assert Visible(c, s', p, q);
    }
  }

  lemma ThirdRound(c: Cluster, s: Servers, s': Servers)
    requires LockStep(c, s, s') && NoneAhead(c, s)
    ensures Settled(c, s')
    ensures forall p :: p in s ==> s'[p].current == s[p].current
  {
    RoundMakesFlagsExact(c, s, s');
    forall p | p in s
      ensures s'[p].current == s[p].current
      ensures QuorumConnected(c, p) ==> s'[p].leader.Some? && IsTop(c, s, p, s'[p].leader.value)
    {
      if QuorumConnected(c, p) {
        var top := TimeoutOutcome(c, s, p, s'[p]);
        NotAheadOfTop(c, s, p, top);
      } else {
        TimeoutAlone(c, s, p, s'[p]);
      }
    }
    forall p | p in s' && QuorumConnected(c, p)
      ensures IsTop(c, s', p, s'[p].leader.value)
    {
      SameTop(c, s, s', p, s'[p].leader.value);
    }
  }

  lemma NotAheadOfTop(c: Cluster, s: Servers, p: nat, top: Ballot)
    requires NoneAhead(c, s) && p in s && QuorumConnected(c, p) && IsTop(c, s, p, top)
    ensures !Less(top, OrDefault(s[p].leader))
  {
    if s[p].leader.Some? {
      var q :| Visible(c, s, p, q) && AtMost(s[p].leader.value, s[q].current);
      assert AtMost(s[q].current, top);
    }
  }

  lemma SameTop(c: Cluster, s: Servers, s': Servers, p: nat, b: Ballot)
    requires FlagsExact(c, s) && FlagsExact(c, s') && s'.Keys == s.Keys && p in s
    requires forall q :: q in s ==> s'[q].current == s[q].current
    requires IsTop(c, s, p, b)
    ensures IsTop(c, s', p, b)
  {
    var q :| Visible(c, s, p, q) && s[q].current == b;
    assert Visible(c, s', p, q);
    forall r | Visible(c, s', p, r)
      ensures AtMost(s'[r].current, b)
    {
      assert Visible(c, s, p, r);
    }
  }

  lemma TopIsUnique(c: Cluster, s: Servers, p: nat, a: Ballot, b: Ballot)
    requires ValidServers(c, s) && p in s && IsTop(c, s, p, a) && IsTop(c, s, p, b)
    ensures a == b
  {
  }

  /** Once settled, a round changes no ballot, no leader and no flag. */
  lemma SettledIsStable(c: Cluster, s: Servers, s': Servers)
    requires LockStep(c, s, s') && Settled(c, s)
    ensures Settled(c, s')
    ensures forall p :: p in s ==>
      s'[p].current == s[p].current && s'[p].leader == s[p].leader && s'[p].candidate == s[p].candidate
  {
    RoundMakesFlagsExact(c, s, s');
    forall p | p in s
      ensures s'[p].current == s[p].current && s'[p].leader == s[p].leader
    {
      if QuorumConnected(c, p) {
        var top := TimeoutOutcome(c, s, p, s'[p]);
        TopIsUnique(c, s, p, top, s[p].leader.value);
      } else {
        TimeoutAlone(c, s, p, s'[p]);
      }
    }
    forall p | p in s' && QuorumConnected(c, p)
      ensures IsTop(c, s', p, s'[p].leader.value)
    {
      SameTop(c, s, s', p, s'[p].leader.value);
    }
  }

  ghost predicate IsLockStepRun(c: Cluster, run: seq<Servers>) {
    && |run| > 0
    && ValidServers(c, run[0])
    && forall i :: 0 <= i < |run| - 1 ==> LockStep(c, run[i], run[i + 1])
  }

  /** CONVERGENCE.  On any fixed graph and from any starting ballots, leaders and
      flags, the election is settled after three lock-step rounds. */
  lemma {:induction false} SettledFromThirdRound(c: Cluster, run: seq<Servers>, i: nat)
    requires IsLockStepRun(c, run) && 3 <= i < |run|
    ensures Settled(c, run[i])
  {
    hide LockStep, FlagsExact, NoneAhead, Settled;
    if i == 3 {
      assert LockStep(c, run[0], run[0 + 1]) && LockStep(c, run[1], run[1 + 1]) && LockStep(c, run[2], run[2 + 1]);
      RoundMakesFlagsExact(c, run[0], run[1]);
      SecondRound(c, run[1], run[2]);
      ThirdRound(c, run[2], run[3]);
    } else {
      SettledFromThirdRound(c, run, i - 1);
      assert LockStep(c, run[i - 1], run[i - 1 + 1]);
      SettledIsStable(c, run[i - 1], run[i]);
    }
  }

  /** ... and nothing changes from then on. */
  lemma {:induction false} NothingChangesAfterThirdRound(c: Cluster, run: seq<Servers>, i: nat, p: nat)
    requires IsLockStepRun(c, run) && 3 <= i < |run| && p in c.links
    ensures p in run[3] && p in run[i] && run[i][p].current == run[3][p].current && run[i][p].leader == run[3][p].leader
  {
    SettledFromThirdRound(c, run, 3);
    if i > 3 {
      NothingChangesAfterThirdRound(c, run, i - 1, p);
      SettledFromThirdRound(c, run, i - 1);
      assert LockStep(c, run[i - 1], run[i - 1 + 1]);
      SettledIsStable(c, run[i - 1], run[i]);
    }
  }

  /** The elected process is quorum-connected and visible to its follower; and the
      quorum-connected server with the highest ballot has elected itself. */
  lemma ElectedLeaders(c: Cluster, run: seq<Servers>, i: nat, p: nat)
    requires IsLockStepRun(c, run) && 3 <= i < |run| && p in c.links && QuorumConnected(c, p)
    ensures ValidServers(c, run[i]) && p in run[i] && run[i][p].leader.Some?
    ensures var s, l := run[i], run[i][p].leader.value.pid;
      && l in c.links && QuorumConnected(c, l) && (l == p || l in c.links[p])
      && s[l].current == s[p].leader.value
    ensures var s := run[i];
      (forall q :: q in c.links && QuorumConnected(c, q) ==> AtMost(s[q].current, s[p].current))
      ==> s[p].leader == Some(s[p].current)
  {
    SettledFromThirdRound(c, run, i);
    var s := run[i];
    var q: nat :| Visible(c, s, p, q) && s[q].current == s[p].leader.value;
    assert Visible(c, s, p, p);
  }

  /** PROGRESS.  If any server is quorum-connected, some quorum-connected server has
      elected itself after three rounds, whatever the rest of the graph looks like. */
  lemma SomeServerLeads(c: Cluster, run: seq<Servers>, i: nat, p: nat) returns (l: nat)
    requires IsLockStepRun(c, run) && 3 <= i < |run| && p in c.links && QuorumConnected(c, p)
    ensures l in c.links && l in run[i] && QuorumConnected(c, l) && run[i][l].leader == Some(run[i][l].current)
  {
    SettledFromThirdRound(c, run, i);
    var s := run[i];
    var qc := set q | q in c.links && QuorumConnected(c, q);
    l := HighestBallot(c, s, qc, p);
    ElectedLeaders(c, run, i, l);
  }

  lemma {:induction false} HighestBallot(c: Cluster, s: Servers, qc: set<nat>, p: nat) returns (l: nat)
    requires ValidServers(c, s) && qc <= s.Keys && p in qc
    ensures l in qc && forall q :: q in qc ==> AtMost(s[q].current, s[l].current)
    decreases qc
  {
    l := p;
    if q :| q in qc && q != p {
      l := HighestBallot(c, s, qc - {p}, q);
      if Less(s[l].current, s[p].current) {
        l := p;
      }
    }
  }

  // ----- three rounds are needed ------------------------------------------------------------

  /** Server 1 of four reaches 2 and 3; the others reach at most server 1. */
  const STAR := Cluster(map[1 := {2, 3}, 2 := {1}, 3 := {1}, 4 := {}])

  function Idle(round: nat, current: Ballot, candidate: bool, leader: Option<Ballot>): BleState {
    BleState(round, [], current, candidate, leader)
  }

  predicate StarServers(s: Servers) {
    s.Keys == {1, 2, 3, 4} && forall p :: p in s ==> s[p].current.pid == p && s[p].ballots == []
  }

  lemma StarShape(s: Servers)
    requires StarServers(s)
    ensures ValidServers(STAR, s) && MajorityOf(STAR) == 3
    ensures QuorumConnected(STAR, 1) && |STAR.links[1]| == 2
  {
    assert STAR.links.Keys == {1, 2, 3, 4};
    assert |STAR.links| == |STAR.links.Keys| == 4;
    assert |{2, 3}| == 2;
  }

  lemma HubTimeout(s: Servers, replies: seq<Reply>, st': BleState)
    requires StarServers(s) && ValidServers(STAR, s)
    requires replies == [Reply(s[2].current, s[2].candidate), Reply(s[3].current, s[3].candidate)]
    requires st' == HbTimeout(3, s[1].(ballots := replies)).0
    ensures Timeout(STAR, s, 1, st')
  {
    hide HbTimeout, Timeout;
    StarShape(s);
    assert STAR.links[1] == {2, 3};
    forall r
      ensures r in replies <==> exists q :: q in STAR.links[1] && r == Answer(s[q])
    {
      assert 2 in STAR.links[1] && 3 in STAR.links[1];
    }
    assert RepliesFor(STAR, s, 1, replies);
    RepliesTimeout(STAR, s, 1, replies);
  }

  /** A server with at most one link has no quorum among four. */
  lemma LeafTimeout(s: Servers, p: nat, st': BleState)
    requires StarServers(s) && ValidServers(STAR, s) && 2 <= p <= 4
    requires st' == s[p].(hbRound := s[p].hbRound + 1, candidate := false)
    ensures Timeout(STAR, s, p, st')
  {
    hide TopBallot;
    StarShape(s);
    var replies := if p == 4 then [] else [Reply(s[1].current, s[1].candidate)];
    assert STAR.links[p] == if p == 4 then {} else {1};
    assert RepliesFor(STAR, s, p, replies) by {
      assert p != 4 ==> |{1}| == 1;
    }
    assert st' == HbTimeout(MajorityOf(STAR), s[p].(ballots := replies)).0;
    hide HbTimeout;
    RepliesTimeout(STAR, s, p, replies);
  }

  lemma StarRound(s: Servers, s': Servers)
    requires StarServers(s) && s'.Keys == {1, 2, 3, 4}
    requires s'[1] == HbTimeout(3,
      s[1].(ballots := [Reply(s[2].current, s[2].candidate), Reply(s[3].current, s[3].candidate)])).0
    requires forall p :: p in s' && p != 1 ==> s'[p] == s[p].(hbRound := s[p].hbRound + 1, candidate := false)
    ensures LockStep(STAR, s, s')
  {
    hide HbTimeout, Timeout;
    StarShape(s);
    HubTimeout(s, [Reply(s[2].current, s[2].candidate), Reply(s[3].current, s[3].candidate)], s'[1]);
    forall p | p in s
      ensures Timeout(STAR, s, p, s'[p])
    {
      if p != 1 {
        LeafTimeout(s, p, s'[p]);
      }
    }
  }

  function StarState(round: nat, hub: BleState, b2: Ballot, flag: bool): (s: Servers)
    requires hub.current.pid == 1 && hub.ballots == [] && b2.pid == 2
    ensures StarServers(s) && s[1] == hub && s[2].current == b2 && s[3].current == Ballot(0, 3)
    ensures s[2].candidate == flag && s[3].candidate == flag
  {
    map[1 := hub, 2 := Idle(round, b2, flag, None), 3 := Idle(round, Ballot(0, 3), flag, None),
      4 := Idle(round, Ballot(0, 4), flag, None)]
  }

  lemma StarStateRound(round: nat, hub: BleState, hub': BleState, b2: Ballot, flag: bool)
    requires hub.current.pid == 1 && hub.ballots == [] && hub'.current.pid == 1 && hub'.ballots == [] && b2.pid == 2
    requires hub' == HbTimeout(3, hub.(ballots := [Reply(b2, flag), Reply(Ballot(0, 3), flag)])).0
    ensures LockStep(STAR, StarState(round, hub, b2, flag), StarState(round + 1, hub', b2, false))
  {
    hide HbTimeout, LockStep, TopBallot;
    StarRound(StarState(round, hub, b2, flag), StarState(round + 1, hub', b2, false));
  }

  lemma LeaderlessHubIsNotSettled(s: Servers)
    requires StarServers(s) && s[1].leader == None
    ensures !Settled(STAR, s)
  {
    StarShape(s);
  }

  /** A stale flag of server 2 misleads server 1 in the first round, the second round
      only discovers it, so the hub leads no earlier than after the third. */
  lemma TwoRoundsAreNotEnough() returns (s0: Servers, s1: Servers, s2: Servers)
    ensures LockStep(STAR, s0, s1) && LockStep(STAR, s1, s2) && !Settled(STAR, s2)
  {
    hide LockStep, Settled, ValidServers, StarState, HbTimeout;
    var b1, b2 := Ballot(0, 1), Ballot(5, 2);
    s0 := StarState(0, Idle(0, b1, true, None), b2, true);
    s1 := StarState(1, Idle(1, b1, true, Some(b2)), b2, false);
    s2 := StarState(2, Idle(2, Ballot(6, 1), true, None), b2, false);
    HubIsMisled(b1, b2, Ballot(0, 3));
    StarStateRound(0, s0[1], s1[1], b2, true);
    StarStateRound(1, s1[1], s2[1], b2, false);
    LeaderlessHubIsNotSettled(s2);
  }

  lemma HubIsMisled(b1: Ballot, b2: Ballot, b3: Ballot)
    requires b1 == Ballot(0, 1) && b2 == Ballot(5, 2) && b3 == Ballot(0, 3)
    ensures HbTimeout(3, BleState(0, [Reply(b2, true), Reply(b3, true)], b1, true, None)).0 ==
      Idle(1, b1, true, Some(b2))
    ensures HbTimeout(3, BleState(1, [Reply(b2, false), Reply(b3, false)], b1, true, Some(b2))).0 ==
      Idle(2, Ballot(6, 1), true, None)
  {
    TopOfThree([Reply(b2, true), Reply(b3, true), Reply(b1, true)]);
    TopOfThree([Reply(b2, false), Reply(b3, false), Reply(b1, true)]);
    assert [Reply(b2, true), Reply(b3, true)] + [Reply(b1, true)] ==
      [Reply(b2, true), Reply(b3, true), Reply(b1, true)];
    assert [Reply(b2, false), Reply(b3, false)] + [Reply(b1, true)] ==
      [Reply(b2, false), Reply(b3, false), Reply(b1, true)];
  }

  lemma TopOfThree(a: seq<Reply>)
    requires |a| == 3
    ensures var t1 := if a[0].candidate && Less(DEFAULT_BALLOT, a[0].ballot) then a[0].ballot else DEFAULT_BALLOT;
      var t2 := if a[1].candidate && Less(t1, a[1].ballot) then a[1].ballot else t1;
      TopBallot(a) == if a[2].candidate && Less(t2, a[2].ballot) then a[2].ballot else t2
  {
    assert a[..2][..1] == [a[0]];
    assert TopBallot([a[0]]) == if a[0].candidate &&
      Less(TopBallot([]), a[0].ballot) then a[0].ballot else TopBallot([]);
  }
}
