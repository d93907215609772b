/** The Multi-Paxos proxy leader: it forwards proposals and counts votes. */
module ProxyRole {
  import opened Common
  import opened PaxosTypes

  datatype SlotRound = SlotRound(slot: Slot, round: Round)

  /** `acks` holds the acceptors whose Phase2b arrived. */
  datatype Tally = Pending(value: Value, acks: set<Pid>) | Done

  type ProxyState = map<SlotRound, Tally>

  function HandlePropose(st: ProxyState, src: Pid, slot: Slot, round: Round, value: Value): (ProxyState, seq<Message>) {
    var key := SlotRound(slot, round);
    if key in st then (st, [])
    else (st[key := Pending(value, {})], [Phase2aMsg(src, slot, round, value)])
  }

  function HandlePhase2b(n: nat, st: ProxyState, acceptor: Pid, slot: Slot, round: Round): (ProxyState, seq<Message>) {
    var key := SlotRound(slot, round);
    if key !in st || st[key].Done? then (st, [])
    else
      var acks := st[key].acks + {acceptor};
      if |acks| < Majority(n) then (st[key := Pending(st[key].value, acks)], [])
      else (st[key := Done], [ChosenMsg(slot, st[key].value)])
  }

  /** The first proposal of a slot and round is forwarded and opens an empty tally; later
      ones of the same slot and round are ignored. */
  lemma ForwardedOnce(st: ProxyState, src: Pid, slot: Slot, round: Round, value: Value)
    ensures
      var key := SlotRound(slot, round);
      var (st', out) := HandlePropose(st, src, slot, round, value);
      && key in st' && (forall k :: k != key ==> (k in st' <==> k in st) && (k in st ==> st'[k] == st[k]))
      && (key in st ==> st' == st && out == [])
      && (key !in st ==> st'[key] == Pending(value, {}) && out == [Phase2aMsg(src, slot, round, value)])
  {
  }

  /** A vote for a pending tally: Chosen is sent exactly when more than half of the
      acceptors have voted, and then the tally is closed. */
  lemma ChosenIffMajority(n: nat, st: ProxyState, acceptor: Pid, slot: Slot, round: Round)
    requires SlotRound(slot, round) in st && st[SlotRound(slot, round)].Pending?
    ensures
      var key := SlotRound(slot, round);
      var acks := st[key].acks + {acceptor};
      HandlePhase2b(n, st, acceptor, slot, round) ==
        if 2 * |acks| > n then (st[key := Done], [ChosenMsg(slot, st[key].value)])
        else (st[key := Pending(st[key].value, acks)], [])
  {
    MajorityIff(n, |st[SlotRound(slot, round)].acks + {acceptor}|);
  }

  /** Votes for one slot and round, counted one by one. */
  function CountAll(n: nat, st: ProxyState, slot: Slot, round: Round, acceptors: seq<Pid>): (ProxyState, seq<Message>) {
    if acceptors == [] then (st, [])
    else
      var (st1, out) := CountAll(n, st, slot, round, acceptors[..|acceptors| - 1]);
      var (st2, more) := HandlePhase2b(n, st1, acceptors[|acceptors| - 1], slot, round);
      (st2, out + more)
  }

  /** The outcome for value `v` once the acceptors in `voted` have voted. */
  function Outcome(n: nat, st: ProxyState, key: SlotRound, v: Value, voted: set<Pid>): (ProxyState, seq<Message>) {
    if 2 * |voted| > n then (st[key := Done], [ChosenMsg(key.slot, v)])
    else (st[key := Pending(v, voted)], [])
  }

  lemma OutcomeStep(n: nat, st: ProxyState, key: SlotRound, v: Value, voted: set<Pid>, acceptor: Pid)
    ensures
      var (st1, out) := Outcome(n, st, key, v, voted);
      var (st2, more) := HandlePhase2b(n, st1, acceptor, key.slot, key.round);
      (st2, out + more) == Outcome(n, st, key, v, voted + {acceptor})
  {
    var (st1, out) := Outcome(n, st, key, v, voted);
    var after := voted + {acceptor};
    SubsetSize(voted, after);
    assert SlotRound(key.slot, key.round) == key;
    hide HandlePhase2b;
    if 2 * |voted| > n {
      ClosedTally(n, st1, acceptor, key.slot, key.round);
      assert out + [] == out;
    } else {
      ChosenIffMajority(n, st1, acceptor, key.slot, key.round);
      var chosen := [ChosenMsg(key.slot, v)];
      assert out + chosen == chosen && out + [] == out;
      assert st1[key := Done] == st[key := Done];
      assert st1[key := Pending(v, after)] == st[key := Pending(v, after)];
    }
  }

  /** Whatever order and repetitions: a proposal is chosen once, and exactly when the
      distinct acceptors that voted are more than half. */
  lemma {:induction false} ChosenOnceByMajority(n: nat, st: ProxyState, slot: Slot, round: Round, v: Value,
                                                acceptors: seq<Pid>)
    requires SlotRound(slot, round) in st && st[SlotRound(slot, round)] == Pending(v, {})
    ensures
      var key := SlotRound(slot, round);
      var voted := set a | a in acceptors;
      CountAll(n, st, slot, round, acceptors) ==
        if 2 * |voted| > n then (st[key := Done], [ChosenMsg(slot, v)]) else (st[key := Pending(v, voted)], [])
  {
    var key := SlotRound(slot, round);
    if acceptors == [] {
      assert (set a | a in acceptors) == {};
      assert st[key := st[key]] == st;
    } else {
      var front, last := acceptors[..|acceptors| - 1], acceptors[|acceptors| - 1];
      ChosenOnceByMajority(n, st, slot, round, v, front);
      var before, after := set a | a in front, set a | a in acceptors;
      assert acceptors == front + [last];
      assert after == before + {last};
      assert CountAll(n, st, slot, round, front) == Outcome(n, st, key, v, before);
      OutcomeStep(n, st, key, v, before, last);
      hide HandlePhase2b;
      assert CountAll(n, st, slot, round, acceptors) == Outcome(n, st, key, v, after);
    }
  }

  lemma ClosedTally(n: nat, st: ProxyState, acceptor: Pid, slot: Slot, round: Round)
    requires SlotRound(slot, round) in st && st[SlotRound(slot, round)].Done?
    ensures HandlePhase2b(n, st, acceptor, slot, round) == (st, [])
  {
  }

  class ProxyLeader {
    const n: nat
    var states: ProxyState

    constructor (n: nat)
      ensures this.n == n && states == map[]
    {
      this.n := n;
      states := map[];
    }

    method OnPropose(src: Pid, slot: Slot, round: Round, value: Value) returns (out: seq<Message>)
      modifies this
      ensures (states, out) == HandlePropose(old(states), src, slot, round, value)
    {
      var key := SlotRound(slot, round);
      out := [];
      if key !in states {
        out := [Phase2aMsg(src, slot, round, value)];
        states := states[key := Pending(value, {})];
      }
    }

    method OnPhase2b(acceptor: Pid, slot: Slot, round: Round) returns (out: seq<Message>)
      modifies this
      ensures (states, out) == HandlePhase2b(n, old(states), acceptor, slot, round)
    {
      var key := SlotRound(slot, round);
      out := [];
      if key !in states {
        return;
      }
      match states[key] {
        case Done =>
        case Pending(value, acks) =>
          var acks' := acks + {acceptor};
          states := states[key := Pending(value, acks')];
          if |acks'| < Majority(n) {
            return;
          }
          out := [ChosenMsg(slot, value)];
          states := states[key := Done];
          assert states == old(states)[key := Done];
      }
    }
  }
}
