/** Ballot leader election: heartbeats that carry a ballot and a flag telling
    whether the sender reached a quorum. */
module BallotLeaderElection {
  import opened Common

  /** Ballots are compared by number, then by process; numbers are unbounded here. */
  datatype Ballot = Ballot(n: nat, pid: nat)

  const DEFAULT_BALLOT := Ballot(0, 0)

  predicate Less(a: Ballot, b: Ballot) {
    a.n < b.n || (a.n == b.n && a.pid < b.pid)
  }

  predicate AtMost(a: Ballot, b: Ballot) {
    Less(a, b) || a == b
  }

  datatype Reply = Reply(ballot: Ballot, candidate: bool)

  datatype BleState = BleState(
    hbRound: nat,
    ballots: seq<Reply>,
    current: Ballot,
    candidate: bool,
    leader: Option<Ballot>)

  function OrDefault(b: Option<Ballot>): Ballot {
    if b.Some? then b.value else DEFAULT_BALLOT
  }

  /** The highest ballot among the candidates, or the default one. */
  function TopBallot(ballots: seq<Reply>): (top: Ballot)
    ensures forall r :: r in ballots && r.candidate ==> AtMost(r.ballot, top)
    ensures top == DEFAULT_BALLOT || Reply(top, true) in ballots
  {
    if ballots == [] then DEFAULT_BALLOT
    else
      var top := TopBallot(ballots[..|ballots| - 1]);
      var r := ballots[|ballots| - 1];
      if r.candidate && Less(top, r.ballot) then r.ballot else top
  }

  lemma TopOfNone()
    ensures TopBallot([]) == DEFAULT_BALLOT
  {
  }

  /** One more reply. */
  lemma TopSnoc(ballots: seq<Reply>, i: nat)
    requires i < |ballots|
    ensures
      var top, r := TopBallot(ballots[..i]), ballots[i];
      TopBallot(ballots[..i + 1]) == if r.candidate && Less(top, r.ballot) then r.ballot else top
  {
    assert ballots[..i + 1][..i] == ballots[..i];
  }

  /** A new leader is announced, or a missed one makes the server raise its ballot. */
  function CheckLeader(st: BleState): (BleState, Option<Ballot>) {
    var top := TopBallot(st.ballots);
    var st1 := st.(ballots := []);
    if Less(top, OrDefault(st.leader)) then
      (st1.(current := st.current.(n := OrDefault(st.leader).n + 1), leader := None), None)
    else if st.leader != Some(top) then (st1.(leader := Some(top)), Some(top))
    else (st1, None)
  }

  function HbTimeout(majority: nat, st: BleState): (BleState, Option<Ballot>) {
    var next := st.(hbRound := st.hbRound + 1);
    if |st.ballots| + 1 >= majority then
      CheckLeader(next.(candidate := true, ballots := st.ballots + [Reply(st.current, true)]))
    else (next.(ballots := [], candidate := false), None)
  }

  /** The reply to a heartbeat request. */
  function Answer(st: BleState): Reply {
    Reply(st.current, st.candidate)
  }

  function HandleReply(st: BleState, round: nat, reply: Reply): BleState {
    if round == st.hbRound then st.(ballots := st.ballots + [reply]) else st
  }

  /** Only heartbeat replies of the current round are counted; requests are answered
      with the current ballot and flag. */
  class BallotLeaderComp {
    const pid: nat
    const majority: nat
    var hbRound: nat
    var ballots: seq<Reply>
    var currentBallot: Ballot
    var candidate: bool
    var leader: Option<Ballot>

    ghost function View(): BleState
      reads this
    {
      BleState(hbRound, ballots, currentBallot, candidate, leader)
    }

    constructor (numPeers: nat, pid: nat, initialLeader: Option<Ballot>)
      ensures this.pid == pid && majority == Majority(numPeers + 1)
      ensures View() == BleState(0, [], if initialLeader.Some? &&
        initialLeader.value.pid == pid then initialLeader.value
                                        else Ballot(0, pid), true, initialLeader)
      ensures currentBallot.pid == pid
    {
      this.pid := pid;
      majority := Majority(numPeers + 1);
      hbRound, ballots, candidate := 0, [], true;
      leader := initialLeader;
      currentBallot := if initialLeader.Some? &&
        initialLeader.value.pid == pid then initialLeader.value else Ballot(0, pid);
    }

    method OnCheckLeader() returns (announced: Option<Ballot>)
      modifies this
      ensures (View(), announced) == CheckLeader(old(View()))
    {
      hide TopBallot;
      var taken := ballots;
      ballots := [];
      TopOfNone();
      var top := DEFAULT_BALLOT;
      for i := 0 to |taken|
        invariant top == TopBallot(taken[..i])
        invariant View() == old(View()).(ballots := [])
      {
        TopSnoc(taken, i);
        if taken[i].candidate && Less(top, taken[i].ballot) {
          top := taken[i].ballot;
        }
      }
      assert taken[..|taken|] == taken;
      announced := None;
      if Less(top, OrDefault(leader)) {
        currentBallot := Ballot(OrDefault(leader).n + 1, currentBallot.pid);
        leader := None;
      } else if leader != Some(top) {
        leader := Some(top);
        announced := Some(top);
      }
    }

    method OnHbTimeout() returns (announced: Option<Ballot>)
      modifies this
      ensures (View(), announced) == HbTimeout(majority, old(View()))
    {
      announced := None;
      if |ballots| + 1 >= majority {
        candidate := true;
        ballots := ballots + [Reply(currentBallot, candidate)];
        announced := OnCheckLeader();
      } else {
        ballots := [];
        candidate := false;
      }
      hbRound := hbRound + 1;
    }

    method OnRequest() returns (reply: Reply)
      ensures reply == Answer(View())
    {
      reply := Reply(currentBallot, candidate);
    }

    method OnReply(round: nat, reply: Reply)
      modifies this
      ensures View() == HandleReply(old(View()), round, reply)
    {
      if round == hbRound {
        ballots := ballots + [reply];
      }
    }
  }

  // ----- monotone announcements over every run ----------------------------------------

  datatype Event = ReplyArrives(round: nat, reply: Reply) | TimeoutFires

  function Handle(majority: nat, st: BleState, e: Event): (BleState, seq<Ballot>) {
    match e
    case ReplyArrives(round, reply) => (HandleReply(st, round, reply), [])
    case TimeoutFires =>
      var (st', announced) := HbTimeout(majority, st);
      (st', if announced.Some? then [announced.value] else [])
  }

  /** The state after a run of events, and the announcements made on the way. */
  function Run(majority: nat, st: BleState, events: seq<Event>): (BleState, seq<Ballot>) {
    if events == [] then (st, [])
    else
      var (st1, out) := Run(majority, st, events[..|events| - 1]);
      var (st2, more) := Handle(majority, st1, events[|events| - 1]);
      (st2, out + more)
  }

  predicate OnlyReplies(events: seq<Event>) {
    forall e :: e in events ==> e.ReplyArrives?
  }

  /** The replies of one round, in the order in which they arrive. */
  function CurrentReplies(events: seq<Event>, round: nat): seq<Reply> {
    if events == [] then []
    else
      var last := events[|events| - 1];
      CurrentReplies(events[..|events| - 1], round) +
      if last.ReplyArrives? && last.round == round then [last.reply] else []
  }

  /** A reply is among them exactly when it arrived with that round. */
  lemma {:induction false} CurrentMembers(events: seq<Event>, round: nat, r: Reply)
    ensures r in CurrentReplies(events, round) <==> ReplyArrives(round, r) in events
  {
    if events != [] {
      var front, last := events[..|events| - 1], events[|events| - 1];
      CurrentMembers(front, round, r);
      assert events == front + [last];
    }
  }

  /** What arrives later comes later. */
  lemma {:induction false} CurrentAppend(a: seq<Event>, b: seq<Event>, round: nat)
    ensures CurrentReplies(a + b, round) == CurrentReplies(a, round) + CurrentReplies(b, round)
  {
    if b == [] {
      assert a + b == a;
    } else {
      var front, last := b[..|b| - 1], b[|b| - 1];
      CurrentAppend(a, front, round);
      assert (a + b)[..|a + b| - 1] == a + front;
    }
  }

  /** Between timeouts a server collects exactly the replies of its current round, in the
      order in which they arrive, and nothing else changes. */
  lemma {:induction false} CollectsCurrentReplies(majority: nat, st: BleState, events: seq<Event>)
    requires OnlyReplies(events)
    ensures Run(majority, st, events) == (st.(ballots := st.ballots + CurrentReplies(events, st.hbRound)), [])
  {
    hide HbTimeout;
    if events == [] {
      assert st.ballots + [] == st.ballots;
    } else {
      var front, last := events[..|events| - 1], events[|events| - 1];
      assert last in events;
      CollectsCurrentReplies(majority, st, front);
      var before := CurrentReplies(front, st.hbRound);
      var (mid, out) := Run(majority, st, front);
      assert Handle(majority, mid, last) == (HandleReply(mid, last.round, last.reply), []);
      assert out == [] && out + [] == [];
      if last.round == st.hbRound {
        assert CurrentReplies(events, st.hbRound) == before + [last.reply];
        assert st.ballots + before + [last.reply] == st.ballots + (before + [last.reply]);
      } else {
        assert CurrentReplies(events, st.hbRound) == before;
      }
    }
  }

  /** Every timeout starts a new round, so that replies to earlier requests no longer
      count. */
  lemma {:induction false} TimeoutsNumberRounds(majority: nat, st: BleState, events: seq<Event>)
    ensures Run(majority, st, events).0.hbRound == st.hbRound + multiset(events)[TimeoutFires]
  {
    hide TopBallot;
    if events != [] {
      var front, last := events[..|events| - 1], events[|events| - 1];
      TimeoutsNumberRounds(majority, st, front);
      assert multiset(events) == multiset(front + [last]) by { assert events == front + [last]; }
      assert multiset(events)[TimeoutFires] == multiset(front)[TimeoutFires] + if last == TimeoutFires then 1 else 0;
    }
  }

  /** The last announced ballot is the leader, or the server has outbid it. */
  predicate Accounted(st: BleState, last: Option<Ballot>) {
    last.Some? ==> st.leader == last || (st.leader.None? && Less(last.value, st.current))
  }

  predicate Increasing(out: seq<Ballot>) {
    forall i, j :: 0 <= i < j < |out| ==> Less(out[i], out[j])
  }

  function Last(first: Option<Ballot>, out: seq<Ballot>): Option<Ballot> {
    if out == [] then first else Some(out[|out| - 1])
  }

  /** One timeout: the own ballot never falls, and an announcement is above the last one. */
  lemma TimeoutIsMonotone(majority: nat, st: BleState, last: Option<Ballot>)
    requires Accounted(st, last)
    ensures var (st', announced) := HbTimeout(majority, st);
      && AtMost(st.current, st'.current)
      && st'.current.pid == st.current.pid
      && (announced.Some? && last.Some? ==> Less(last.value, announced.value))
      && Accounted(st', if announced.Some? then announced else last)
      && (st'.leader.Some? && st'.leader != st.leader ==> announced == st'.leader)
      && (announced.Some? ==> st'.leader == announced && st.leader != announced)
  {
    if |st.ballots| + 1 >= majority {
      var all := st.ballots + [Reply(st.current, true)];
      assert Reply(st.current, true) in all;
      assert AtMost(st.current, TopBallot(all));
    }
  }

  /** In every run of replies and timeouts the announced ballots strictly increase,
      also across the gap after a missed leader, the leader is always the ballot announced
      last, and the own ballot never decreases. */
  lemma {:induction false} AnnouncementsIncrease(majority: nat, st: BleState, events: seq<Event>)
    ensures var (st', out) := Run(majority, st, events);
      && Increasing(out)
      && (st.leader.Some? ==> forall b :: b in out ==> Less(st.leader.value, b))
      && AtMost(st.current, st'.current)
      && Accounted(st', Last(st.leader, out))
      && (st'.leader.Some? ==> st'.leader == Last(st.leader, out))
  {
    hide HbTimeout, TopBallot, CheckLeader;
    if events != [] {
      var front := events[..|events| - 1];
      AnnouncementsIncrease(majority, st, front);
      var (st1, out) := Run(majority, st, front);
      var last := Last(st.leader, out);
      if events[|events| - 1].TimeoutFires? {
        TimeoutIsMonotone(majority, st1, last);
        var (st2, announced) := HbTimeout(majority, st1);
        if announced.Some? {
          AppendIncreasing(st.leader, out, announced.value);
        }
      }
    }
  }

  lemma AppendIncreasing(first: Option<Ballot>, out: seq<Ballot>, b: Ballot)
    requires Increasing(out) && (first.Some? ==> forall x :: x in out ==> Less(first.value, x))
    requires Last(first, out).Some? ==> Less(Last(first, out).value, b)
    ensures Increasing(out + [b])
    ensures first.Some? ==> forall x :: x in out + [b] ==> Less(first.value, x)
  {
    if out != [] {
      assert out[|out| - 1] in out;
      forall i | 0 <= i < |out|
        ensures Less(out[i], b)
      {
        assert i == |out| - 1 || Less(out[i], out[|out| - 1]);
      }
    }
  }
}
