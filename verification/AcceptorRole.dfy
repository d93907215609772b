/** The Multi-Paxos acceptor. */
module AcceptorRole {
  import opened Common
  import opened PaxosTypes

  datatype AcceptorState = AcceptorState(round: Round, votes: map<Slot, Vote>, maxVotedSlot: Slot)

  function InitAcceptor(): AcceptorState {
    AcceptorState(0, map[], 0)
  }

  /** `info` lists the votes at or above `watermark`, by ascending slot. */
  ghost predicate IsReport(votes: map<Slot, Vote>, watermark: Slot, info: seq<SlotInfo>) {
    && (forall i, j :: 0 <= i < j < |info| ==> info[i].slot < info[j].slot)
    && (forall e :: e in info <==> e.slot in votes && e.slot >= watermark && votes[e.slot] == e.vote)
  }

  function HandlePhase1a(index: Pid, st: AcceptorState, src: Pid, round: Round,
    info: seq<SlotInfo>): (AcceptorState, Message) {
    if round < st.round then (st, NackMsg(src, st.round))
    else (st.(round := round), Phase1bMsg(src, Phase1b(index, round, info)))
  }

  function HandlePhase2a(index: Pid, st: AcceptorState, src: Pid, slot: Slot, round: Round,
    value: Value): (AcceptorState, Message) {
    if round < st.round then (st, NackMsg(src, st.round))
    else (AcceptorState(round, st.votes[slot := Vote(round, value)], Max(st.maxVotedSlot, slot)),
          Phase2bMsg(src, index, slot, round, value))
  }

  /** A promise or a vote is given exactly for rounds that are not below the promised one;
      refusals tell that round. */
  lemma AnsweredIff(index: Pid, st: AcceptorState, src: Pid, slot: Slot, round: Round, value: Value,
                    info: seq<SlotInfo>)
    ensures
      var (st', reply) := HandlePhase1a(index, st, src, round, info);
      && st' == st.(round := Max(st.round, round))
      && reply == if st.round <= round then Phase1bMsg(src, Phase1b(index, round, info)) else NackMsg(src, st.round)
    ensures
      var (st', reply) := HandlePhase2a(index, st, src, slot, round, value);
      && st'.round == Max(st.round, round)
      && reply == if st.round <= round then Phase2bMsg(src, index, slot, round, value) else NackMsg(src, st.round)
  {
  }

  datatype Proposal = Proposal(slot: Slot, round: Round, value: Value)

  /** Proposals handled one by one. */
  function AcceptAll(index: Pid, st: AcceptorState, src: Pid, ps: seq<Proposal>): AcceptorState {
    if ps == [] then st
    else
      var p := ps[|ps| - 1];
      HandlePhase2a(index, AcceptAll(index, st, src, ps[..|ps| - 1]), src, p.slot, p.round, p.value).0
  }

  /** The i-th proposal is not below any round seen before. */
  predicate IsAccepted(st: AcceptorState, ps: seq<Proposal>, i: nat) {
    i < |ps| && st.round <= ps[i].round && forall j :: 0 <= j < i ==> ps[j].round <= ps[i].round
  }

  /** The i-th proposal is the last accepted one for its slot. */
  predicate IsLastAccepted(st: AcceptorState, ps: seq<Proposal>, i: nat) {
    IsAccepted(st, ps, i) && forall j :: i < j < |ps| && ps[j].slot == ps[i].slot ==> !IsAccepted(st, ps, j)
  }

  lemma AcceptedPrefix(st: AcceptorState, front: seq<Proposal>, p: Proposal, i: nat)
    requires i < |front|
    ensures IsAccepted(st, front + [p], i) == IsAccepted(st, front, i)
  {
    assert forall j :: 0 <= j < |front| ==> (front + [p])[j] == front[j];
  }

  /** The vote in a slot is the last accepted proposal for it, other slots keep their
      votes, and the promised round is the highest one seen. */
  lemma {:induction false} VotesAreLastAccepted(index: Pid, st: AcceptorState, src: Pid, ps: seq<Proposal>)
    ensures
      var st' := AcceptAll(index, st, src, ps);
      && st'.round >= st.round && (forall j :: 0 <= j < |ps| ==> ps[j].round <= st'.round)
      && (st'.round == st.round || exists j :: 0 <= j < |ps| && ps[j].round == st'.round)
      && (forall i :: 0 <= i < |ps| && IsLastAccepted(st, ps, i) ==>
            ps[i].slot in st'.votes && st'.votes[ps[i].slot] == Vote(ps[i].round, ps[i].value))
      && (forall slot :: (forall i :: 0 <= i < |ps| && ps[i].slot == slot ==> !IsAccepted(st, ps, i)) ==>
            (slot in st'.votes <==> slot in st.votes) && (slot in st.votes ==> st'.votes[slot] == st.votes[slot]))
  {
    if ps != [] {
      var n := |ps| - 1;
      var front, p := ps[..n], ps[n];
      assert ps == front + [p];
      VotesAreLastAccepted(index, st, src, front);
      var mid := AcceptAll(index, st, src, front);
      assert mid.round <= p.round <==> IsAccepted(st, ps, n);
      forall i | 0 <= i < n
        ensures IsAccepted(st, ps, i) == IsAccepted(st, front, i)
      {
        AcceptedPrefix(st, front, p, i);
      }
      hide IsAccepted;
      forall i | 0 <= i < n && IsLastAccepted(st, ps, i)
        ensures IsLastAccepted(st, front, i)
        ensures ps[i].slot != p.slot || !IsAccepted(st, ps, n)
      {
      }
    }
  }

  /** The highest slot voted in, 0 before the first vote. */
  predicate KnowsMaxVoted(st: AcceptorState) {
    && (forall slot :: slot in st.votes ==> slot <= st.maxVotedSlot)
    && (st.maxVotedSlot == 0 || st.maxVotedSlot in st.votes)
  }

  lemma MaxVotedKept(index: Pid, st: AcceptorState, src: Pid, slot: Slot, round: Round, value: Value)
    requires KnowsMaxVoted(st)
    ensures KnowsMaxVoted(HandlePhase2a(index, st, src, slot, round, value).0)
  {
  }

  class Acceptor {
    const index: Pid
    var round: Round
    var states: map<Slot, Vote>
    var maxVotedSlot: Slot

    ghost function View(): AcceptorState
      reads this
    {
      AcceptorState(round, states, maxVotedSlot)
    }

    constructor (pid: Pid)
      ensures index == pid && View() == InitAcceptor()
    {
      index := pid;
      round, states, maxVotedSlot := 0, map[], 0;
    }

    /** The ordered scan of the votes from the watermark on. */
    method CollectVotes(watermark: Slot) returns (info: seq<SlotInfo>)
      ensures IsReport(states, watermark, info)
    {
      var todo := set s | s in states && s >= watermark;
      info := [];
      while todo != {}
        invariant todo <= states.Keys
        invariant forall s :: s in todo ==> s >= watermark
        invariant forall e, s :: e in info && s in todo ==> e.slot < s
        invariant forall i, j :: 0 <= i < j < |info| ==> info[i].slot < info[j].slot
        invariant forall e :: e in info <==>
          e.slot in states && e.slot >= watermark && e.slot !in todo && states[e.slot] == e.vote
        decreases todo
      {
        var s := Least(todo);
        info := info + [SlotInfo(s, states[s])];
        todo := todo - {s};
      }
    }

    static method Least(slots: set<Slot>) returns (least: Slot)
      requires slots != {}
      ensures least in slots
      ensures forall s :: s in slots ==> least <= s
    {
      least :| least in slots;
      var todo := slots - {least};
      while todo != {}
        invariant least in slots
        invariant forall s :: s in slots && s !in todo ==> least <= s
        decreases todo
      {
        var s :| s in todo;
        if s < least {
          least := s;
        }
        todo := todo - {s};
      }
    }

    method OnPhase1a(src: Pid, phase1aRound: Round, watermark: Slot) returns (reply: Message, info: seq<SlotInfo>)
      modifies this
      ensures phase1aRound >= old(round) ==> IsReport(states, watermark, info)
      ensures (View(), reply) == HandlePhase1a(index, old(View()), src, phase1aRound, info)
    {
      info := [];
      if phase1aRound < round {
        reply := NackMsg(src, round);
        return;
      }
      round := phase1aRound;
      info := CollectVotes(watermark);
      reply := Phase1bMsg(src, Phase1b(index, round, info));
    }

    method OnPhase2a(src: Pid, slot: Slot, phase2aRound: Round, value: Value) returns (reply: Message)
      modifies this
      ensures (View(), reply) == HandlePhase2a(index, old(View()), src, slot, phase2aRound, value)
    {
      if phase2aRound < round {
        reply := NackMsg(src, round);
        return;
      }
      round := phase2aRound;
      states := states[slot := Vote(round, value)];
      maxVotedSlot := Max(maxVotedSlot, slot);
      reply := Phase2bMsg(src, index, slot, round, value);
    }
  }
}
