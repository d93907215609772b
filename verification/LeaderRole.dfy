/** The Multi-Paxos leader: state, handlers as functions on the state, and the
    class whose methods update the fields in place. */
module LeaderRole {
  import opened Common
  import opened PaxosTypes
  import opened RoundRobin

  datatype Phase = Inactive | Phase1 | Phase2

  /** `from` is a history variable: the watermark carried by the Phase1a of the
      current round.  `flushTimers` counts the noop flushes that were scheduled
      and have not fired; their handles are dropped, so none is ever cancelled. */
  datatype LeaderState = LeaderState(
    phase: Phase,
    round: Round,
    nextSlot: Slot,
    watermark: Slot,
    phase1bs: map<Pid, Phase1b>,
    pending: seq<CommandBatch>,
    flushTimers: nat,
    from: Slot)

  /** What the leader reads off a quorum of Phase1b reports. */
  datatype Recovery = Recovery(maxSlot: Option<Slot>, values: seq<Value>)

  // ----- choosing safe values ------------------------------------------------

  ghost predicate Reported(bs: map<Pid, Phase1b>, e: SlotInfo) {
    exists a :: a in bs && e in bs[a].info
  }

  ghost predicate IsMaxSlot(bs: map<Pid, Phase1b>, m: Option<Slot>) {
    match m
    case None => forall e :: !Reported(bs, e)
    case Some(x) =>
      && (exists e :: Reported(bs, e) && e.slot == x)
      && (forall e :: Reported(bs, e) ==> e.slot <= x)
  }

  /** `e` is a reported vote for `slot` with the highest vote round. */
  ghost predicate IsTopVote(bs: map<Pid, Phase1b>, slot: Slot, e: SlotInfo) {
    && Reported(bs, e)
    && e.slot == slot
    && forall f :: Reported(bs, f) && f.slot == slot ==> f.vote.round <= e.vote.round
  }

  ghost predicate IsSafeValue(bs: map<Pid, Phase1b>, slot: Slot, v: Value) {
    || (v == Noop && forall e :: Reported(bs, e) ==> e.slot != slot)
    || (exists e :: IsTopVote(bs, slot, e) && e.vote.value == v)
  }

  /** The slots watermark..maxSlot are recovered, each with a safe value. */
  ghost predicate IsRecovery(l: LeaderState, rec: Recovery) {
    && IsMaxSlot(l.phase1bs, rec.maxSlot)
    && |rec.values| == (match rec.maxSlot case None => 0 case Some(x) => Max(0, x + 1 - l.watermark))
    && forall k :: 0 <= k < |rec.values| ==> IsSafeValue(l.phase1bs, l.watermark + k, rec.values[k])
  }

  // ----- handlers as functions -----------------------------------------------

  function InitLeader(n: nat, pid: Pid): LeaderState
    requires n > 0
  {
    LeaderState(if pid == n then Phase1 else Phase2, NextRound(n, n, 0), 0, 0, map[], [], 0, 0)
  }

  function StartPhase1(index: Pid, l: LeaderState): (LeaderState, seq<Message>) {
    (l.(phase := Phase1, pending := [], phase1bs := map[], from := l.watermark),
     [Phase1aMsg(index, l.round, l.watermark)])
  }

  function LeaderChange(n: nat, index: Pid, l: LeaderState, isNewLeader: bool): (LeaderState, seq<Message>)
    requires n > 0
  {
    if isNewLeader
    then StartPhase1(index, l.(round := NextRound(n, index, l.round)))
    else (l.(phase := Inactive), [])
  }

  function Proposals(index: Pid, round: Round, from: Slot, first: Slot, values: seq<Value>): seq<Message> {
    seq(|values|, k requires 0 <= k < |values| => ProposeMsg(index, first + k, round, values[k], true, from))
  }

  function Batches(pending: seq<CommandBatch>): seq<Value> {
    seq(|pending|, k requires 0 <= k < |pending| => Batch(pending[k]))
  }

  predicate CompletesPhase1(n: nat, l: LeaderState, m: Phase1b) {
    && l.phase.Phase1?
    && m.round == l.round
    && |l.phase1bs[m.acceptor := m]| >= Majority(n)
  }

  /** The slot of the first new proposal after recovery: it moves only when some
      vote was reported. */
  function RecoveredNextSlot(l: LeaderState, rec: Recovery): Slot {
    match rec.maxSlot case None => l.nextSlot case Some(x) => x + 1
  }

  function HandlePhase1b(n: nat, index: Pid, l: LeaderState, m: Phase1b, rec: Recovery): (LeaderState, seq<Message>) {
    if l.phase.Phase1? && m.round == l.round then
      var l1 := l.(phase1bs := l.phase1bs[m.acceptor := m]);
      if |l1.phase1bs| < Majority(n) then (l1, [])
      else
        var next := RecoveredNextSlot(l, rec);
        (l1.(phase := Phase2, nextSlot := next + |l.pending|, pending := [], flushTimers := l.flushTimers + 1),
         Proposals(index, l.round, l.from, l.watermark, rec.values)
         + Proposals(index, l.round, l.from, next, Batches(l.pending)))
    else (l, [])
  }

  /** The flush proposes in every phase; outside Phase 2 it only logs an error. */
  function NoopFlush(index: Pid, l: LeaderState): (LeaderState, seq<Message>)
    requires l.flushTimers > 0
  {
    (l.(nextSlot := l.nextSlot + 1, flushTimers := l.flushTimers - 1),
     [ProposeMsg(index, l.nextSlot, l.round, Noop, l.phase.Phase2?, l.from)])
  }

  function HandleBatch(index: Pid, l: LeaderState, batcher: Pid, batch: CommandBatch): (LeaderState, seq<Message>) {
    match l.phase
    case Inactive => (l, [NotLeaderMsg(batcher, batch)])
    case Phase1 => (l.(pending := l.pending + [batch]), [])
    case Phase2 => (l.(nextSlot := l.nextSlot + 1),
                    [ProposeMsg(index, l.nextSlot, l.round, Batch(batch), true, l.from)])
  }

  function HandleNack(n: nat, index: Pid, l: LeaderState, round: Round): (LeaderState, seq<Message>)
    requires n > 0
  {
    if round <= l.round then (l, [])
    else if l.phase.Inactive? then (l.(round := round), [])
    else LeaderChange(n, index, l.(round := NextRound(n, index, round)), true)
  }

  function HandleWatermark(l: LeaderState, slot: Slot): LeaderState {
    l.(watermark := Max(l.watermark, slot))
  }

  function HandleRecover(n: nat, index: Pid, l: LeaderState): (LeaderState, seq<Message>)
    requires n > 0
  {
    if l.phase.Inactive? then (l, []) else LeaderChange(n, index, l, true)
  }

  function HandleInfoRequest(l: LeaderState, batcher: Pid): seq<Message> {
    if l.phase.Inactive? then [] else [LeaderInfoReplyMsg(batcher, l.round)]
  }

  // ----- the component -------------------------------------------------------

  class Leader {
    const n: nat
    const index: Pid
    var phase: Phase
    var round: Round
    var nextSlot: Slot
    var chosenWatermark: Slot
    var phase1bs: map<Pid, Phase1b>
    var pendingBatches: seq<CommandBatch>
    ghost var flushTimers: nat
    var from: Slot  // history: the watermark of the current round's Phase1a

    ghost function View(): LeaderState
      reads this
    {
      LeaderState(phase, round, nextSlot, chosenWatermark, phase1bs, pendingBatches, flushTimers, from)
    }

    constructor (n: nat, pid: Pid)
      requires 1 <= pid <= n
      ensures this.n == n && index == pid
      ensures View() == InitLeader(n, pid)
    {
      this.n, index := n, pid;
      phase := if pid == n then Phase1 else Phase2;
      round := NextRound(n, n, 0);
      nextSlot, chosenWatermark := 0, 0;
      phase1bs, pendingBatches := map[], [];
      flushTimers, from := 0, 0;
    }

    method SendPhase1a() returns (out: seq<Message>)
      modifies this
      ensures (View(), out) == StartPhase1(index, old(View()))
    {
      out := [Phase1aMsg(index, round, chosenWatermark)];
      pendingBatches := [];
      phase1bs := map[];
      phase := Phase1;
      from := chosenWatermark;
    }

    method OnLeaderChange(isNewLeader: bool) returns (out: seq<Message>)
      requires n > 0
      modifies this
      ensures (View(), out) == LeaderChange(n, index, old(View()), isNewLeader)
    {
      out := [];
      if isNewLeader {
        round := NextRound(n, index, round);
        out := SendPhase1a();
      } else {
        phase := Inactive;
      }
    }

    /** The highest reported slot of one report. */
    static method MaxPhase1bSlot(m: Phase1b) returns (best: Option<Slot>)
      ensures best.None? <==> m.info == []
      ensures best.Some? ==> exists e :: e in m.info && e.slot == best.value
      ensures best.Some? ==> forall e :: e in m.info ==> e.slot <= best.value
    {
      best := None;
      for i := 0 to |m.info|
        invariant best.None? <==> i == 0
        invariant best.Some? ==> exists e :: e in m.info && e.slot == best.value
        invariant best.Some? ==> forall e :: e in m.info[..i] ==> e.slot <= best.value
      {
        assert m.info[i] in m.info;
        if best.None? || m.info[i].slot > best.value {
          best := Some(m.info[i].slot);
        }
      }
      assert m.info[..|m.info|] == m.info;
    }

    /** The highest slot over all reports, visited in any order. */
    method MaxReportedSlot() returns (best: Option<Slot>)
      ensures IsMaxSlot(phase1bs, best)
    {
      var todo := phase1bs.Keys;
      best := None;
      ghost var seen: map<Pid, Phase1b> := map[];
      while todo != {}
        invariant todo <= phase1bs.Keys
        invariant seen == map a | a in phase1bs && a !in todo :: phase1bs[a]
        invariant IsMaxSlot(seen, best)
        decreases todo
      {
        var a :| a in todo;
        var m := MaxPhase1bSlot(phase1bs[a]);
        ghost var before := seen;
        todo := todo - {a};
        seen := seen[a := phase1bs[a]];
        assert forall e :: Reported(seen, e) <==> Reported(before, e) || e in phase1bs[a].info by {
          forall e | e in phase1bs[a].info ensures Reported(seen, e) { assert a in seen && e in seen[a].info; }
          forall e | Reported(before, e) ensures Reported(seen, e) {
            var b :| b in before && e in before[b].info;
            assert b in seen && e in seen[b].info;
          }
        }
        if m.Some? && (best.None? || m.value > best.value) {
          best := m;
        }
      }
      assert seen == phase1bs;
    }

    /** The value of a highest vote reported for `slot`, or Noop. */
    method SafeValue(slot: Slot) returns (v: Value)
      ensures IsSafeValue(phase1bs, slot, v)
    {
      var todo := phase1bs.Keys;
      var best: Option<SlotInfo> := None;
      while todo != {}
        invariant todo <= phase1bs.Keys
        invariant best.Some? ==> Reported(phase1bs, best.value) && best.value.slot == slot
        invariant forall a, e :: a in phase1bs && a !in todo && e in phase1bs[a].info && e.slot == slot ==>
          best.Some? && e.vote.round <= best.value.vote.round
        decreases todo
      {
        var a :| a in todo;
        var info := phase1bs[a].info;
        for i := 0 to |info|
          invariant best.Some? ==> Reported(phase1bs, best.value) && best.value.slot == slot
          invariant forall b, e :: b in phase1bs && b !in todo && e in phase1bs[b].info && e.slot == slot ==>
            best.Some? && e.vote.round <= best.value.vote.round
          invariant forall e :: e in info[..i] && e.slot == slot ==>
            best.Some? && e.vote.round <= best.value.vote.round
        {
          if info[i].slot == slot && (best.None? || info[i].vote.round >= best.value.vote.round) {
            assert info[i] in phase1bs[a].info;
            best := Some(info[i]);
          }
        }
        assert info[..|info|] == info;
        todo := todo - {a};
      }
      if best.None? {
        v := Noop;
      } else {
        v := best.value.vote.value;
        assert IsTopVote(phase1bs, slot, best.value);
      }
    }

    method Propose(v: Value) returns (out: seq<Message>)
      modifies this`nextSlot
      ensures nextSlot == old(nextSlot) + 1
      ensures out == [ProposeMsg(index, old(nextSlot), round, v, phase.Phase2?, from)]
    {
      out := [ProposeMsg(index, nextSlot, round, v, phase.Phase2?, from)];
      nextSlot := nextSlot + 1;
    }

    /** Proposes a safe value for every slot from the watermark up to `maxSlot`. */
    method RecoverSlots(maxSlot: Slot) returns (out: seq<Message>, values: seq<Value>)
      ensures |values| == Max(0, maxSlot + 1 - chosenWatermark)
      ensures forall k :: 0 <= k < |values| ==> IsSafeValue(phase1bs, chosenWatermark + k, values[k])
      ensures out == Proposals(index, round, from, chosenWatermark, values)
    {
      out, values := [], [];
      var slot := chosenWatermark;
      while slot <= maxSlot
        invariant chosenWatermark <= slot <= Max(chosenWatermark, maxSlot + 1)
        invariant |values| == slot - chosenWatermark
        invariant forall k :: 0 <= k < |values| ==> IsSafeValue(phase1bs, chosenWatermark + k, values[k])
        invariant out == Proposals(index, round, from, chosenWatermark, values)
      {
        var v := SafeValue(slot);
        out := out + [ProposeMsg(index, slot, round, v, true, from)];
        values := values + [v];
        slot := slot + 1;
      }
    }

    /** Proposes the batches that were parked during phase 1, in arrival order. */
    method DrainPending() returns (out: seq<Message>)
      requires phase.Phase2?
      modifies this`nextSlot, this`pendingBatches
      ensures nextSlot == old(nextSlot) + |old(pendingBatches)|
      ensures pendingBatches == []
      ensures out == Proposals(index, round, from, old(nextSlot), Batches(old(pendingBatches)))
    {
      out := [];
      var batches := pendingBatches;
      pendingBatches := [];
      for i := 0 to |batches|
        invariant nextSlot == old(nextSlot) + i
        invariant out == Proposals(index, round, from, old(nextSlot), Batches(batches[..i]))
        invariant pendingBatches == []
      {
        var sent := Propose(Batch(batches[i]));
        out := out + sent;
        assert Batches(batches[..i + 1]) == Batches(batches[..i]) + [Batch(batches[i])];
      }
      assert batches[..|batches|] == batches;
    }

    method OnPhase1b(m: Phase1b) returns (out: seq<Message>, rec: Recovery)
      modifies this
      ensures CompletesPhase1(n, old(View()), m) ==>
        IsRecovery(old(View()).(phase1bs := old(phase1bs)[m.acceptor := m]), rec)
      ensures (View(), out) == HandlePhase1b(n, index, old(View()), m, rec)
    {
      hide IsSafeValue, IsMaxSlot, Batches;
      out, rec := [], Recovery(None, []);
      if !phase.Phase1? || m.round != round {
        return;
      }
      phase1bs := phase1bs[m.acceptor := m];
      if |phase1bs| < Majority(n) {
        return;
      }
      var maxSlot := MaxReportedSlot();
      var values: seq<Value> := [];
      if maxSlot.Some? {
        out, values := RecoverSlots(maxSlot.value);
        nextSlot := maxSlot.value + 1;
      }
      assert out == Proposals(index, round, from, chosenWatermark, values);
      rec := Recovery(maxSlot, values);
      phase := Phase2;
      flushTimers := flushTimers + 1;
      var sent := DrainPending();
      out := out + sent;
    }

    /** A scheduled noop flush fires. */
    method OnNoopFlush() returns (out: seq<Message>)
      requires flushTimers > 0
      modifies this
      ensures (View(), out) == NoopFlush(index, old(View()))
    {
      flushTimers := flushTimers - 1;
      out := Propose(Noop);
    }

    method OnBatch(batcher: Pid, batch: CommandBatch) returns (out: seq<Message>)
      modifies this
      ensures (View(), out) == HandleBatch(index, old(View()), batcher, batch)
    {
      out := [];
      match phase {
        case Inactive => out := [NotLeaderMsg(batcher, batch)];
        case Phase1 => pendingBatches := pendingBatches + [batch];
        case Phase2 => out := Propose(Batch(batch));
      }
    }

    method OnNack(nackRound: Round) returns (out: seq<Message>)
      requires n > 0
      modifies this
      ensures (View(), out) == HandleNack(n, index, old(View()), nackRound)
    {
      out := [];
      if nackRound <= round {
        return;
      }
      if phase.Inactive? {
        round := nackRound;
      } else {
        round := NextRound(n, index, nackRound);
        out := OnLeaderChange(true);
      }
    }

    method OnWatermark(slot: Slot)
      modifies this
      ensures View() == HandleWatermark(old(View()), slot)
    {
      chosenWatermark := Max(chosenWatermark, slot);
    }

    method OnRecover() returns (out: seq<Message>)
      requires n > 0
      modifies this
      ensures (View(), out) == HandleRecover(n, index, old(View()))
    {
      out := [];
      if !phase.Inactive? {
        out := OnLeaderChange(true);
      }
    }

    method OnInfoRequest(batcher: Pid) returns (out: seq<Message>)
      ensures out == HandleInfoRequest(View(), batcher)
    {
      out := if phase.Inactive? then [] else [LeaderInfoReplyMsg(batcher, round)];
    }
  }
}
