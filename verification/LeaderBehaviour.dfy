/** What the leader's handlers send and keep, message by message and over sequences of
    client batches. */
module LeaderBehaviour {
  import opened Common
  import opened PaxosTypes
  import opened RoundRobin
  import opened LeaderRole

  /** Phase 1 is complete exactly when the current round has reports of more than half of
      the acceptors; before that a report is only stored. */
  lemma ReportsCompleteIff(n: nat, index: Pid, l: LeaderState, m: Phase1b, rec: Recovery)
    requires l.phase.Phase1? && m.round == l.round
    ensures CompletesPhase1(n, l, m) <==> 2 * |l.phase1bs[m.acceptor := m]| > n
    ensures !CompletesPhase1(n, l, m) ==>
      HandlePhase1b(n, index, l, m, rec) == (l.(phase1bs := l.phase1bs[m.acceptor := m]), [])
  {
    MajorityIff(n, |l.phase1bs[m.acceptor := m]|);
  }

  /** Reports of other rounds, or outside phase 1, are ignored. */
  lemma OtherReportsIgnored(n: nat, index: Pid, l: LeaderState, m: Phase1b, rec: Recovery)
    requires !l.phase.Phase1? || m.round != l.round
    ensures HandlePhase1b(n, index, l, m, rec) == (l, [])
  {
  }

  /** Completing phase 1 sends exactly: the recovered values, one per slot from the
      watermark on; then the parked batches in the order in which they were parked, from
      the next free slot on. That slot moves only when some vote was reported. */
  lemma CompletionSends(n: nat, index: Pid, l: LeaderState, m: Phase1b, rec: Recovery)
    requires CompletesPhase1(n, l, m)
    ensures
      var (l', out) := HandlePhase1b(n, index, l, m, rec);
      var next := match rec.maxSlot case None => l.nextSlot case Some(x) => x + 1;
      && |out| == |rec.values| + |l.pending|
      && (forall k :: 0 <= k < |rec.values| ==>
            out[k] == ProposeMsg(index, l.watermark + k, l.round, rec.values[k], true, l.from))
      && (forall i :: 0 <= i < |l.pending| ==>
            out[|rec.values| + i] == ProposeMsg(index, next + i, l.round, Batch(l.pending[i]), true, l.from))
      && l'.phase.Phase2? && l'.nextSlot == next + |l.pending| && l'.pending == []
      && l'.round == l.round && l'.watermark == l.watermark && l'.flushTimers == l.flushTimers + 1
  {
  }

  // ----- client batches --------------------------------------------------------------------

  /** A sequence of batches, each with the batcher that sent it, handled one by one. */
  function HandleBatches(index: Pid, l: LeaderState, bs: seq<(Pid, CommandBatch)>): (LeaderState, seq<Message>) {
    if bs == [] then (l, [])
    else
      var (l1, out) := HandleBatches(index, l, bs[..|bs| - 1]);
      var (l2, more) := HandleBatch(index, l1, bs[|bs| - 1].0, bs[|bs| - 1].1);
      (l2, out + more)
  }

  function BatchesOf(bs: seq<(Pid, CommandBatch)>): (r: seq<CommandBatch>)
    ensures |r| == |bs| && forall i :: 0 <= i < |bs| ==> r[i] == bs[i].1
  {
    seq(|bs|, i requires 0 <= i < |bs| => bs[i].1)
  }

  /** In phase 1 batches are parked behind the earlier ones and nothing is sent. */
  lemma {:induction false} BatchesAreParked(index: Pid, l: LeaderState, bs: seq<(Pid, CommandBatch)>)
    requires l.phase.Phase1?
    ensures HandleBatches(index, l, bs) == (l.(pending := l.pending + BatchesOf(bs)), [])
  {
    if bs == [] {
      assert l.pending + BatchesOf(bs) == l.pending;
    } else {
      var front, last := bs[..|bs| - 1], bs[|bs| - 1];
      BatchesAreParked(index, l, front);
      assert l.pending + BatchesOf(front) + [last.1] == l.pending + BatchesOf(bs);
      var nothing: seq<Message> := [];
      assert nothing + nothing == [];
    }
  }

  /** Batches that arrive during phase 1 are proposed on completion, in arrival order. */
  lemma ParkedBatchesAreProposed(n: nat, index: Pid, l: LeaderState, bs: seq<(Pid, CommandBatch)>, m: Phase1b,
                                 rec: Recovery)
    requires CompletesPhase1(n, l, m) && l.pending == []
    ensures
      var l1 := HandleBatches(index, l, bs).0;
      var out := HandlePhase1b(n, index, l1, m, rec).1;
      var next := match rec.maxSlot case None => l.nextSlot case Some(x) => x + 1;
      && |out| == |rec.values| + |bs|
      && forall i :: 0 <= i < |bs| ==>
           out[|rec.values| + i] == ProposeMsg(index, next + i, l.round, Batch(bs[i].1), true, l.from)
  {
    hide HandlePhase1b, HandleBatches, BatchesOf;
    BatchesAreParked(index, l, bs);
    var l1 := l.(pending := BatchesOf(bs));
    assert HandleBatches(index, l, bs).0 == l1 by { assert [] + BatchesOf(bs) == BatchesOf(bs); }
    CompletionSends(n, index, l1, m, rec);
    hide CompletesPhase1;
  }

  /** In Phase 2 batches are proposed at once, at consecutive slots, in arrival order. */
  lemma {:induction false} BatchesAreProposed(index: Pid, l: LeaderState, bs: seq<(Pid, CommandBatch)>)
    requires l.phase.Phase2?
    ensures
      var (l', out) := HandleBatches(index, l, bs);
      && l' == l.(nextSlot := l.nextSlot + |bs|) && |out| == |bs|
      && forall i :: 0 <= i < |bs| ==>
           out[i] == ProposeMsg(index, l.nextSlot + i, l.round, Batch(bs[i].1), true, l.from)
  {
    if bs != [] {
      BatchesAreProposed(index, l, bs[..|bs| - 1]);
    }
  }

  /** An inactive leader sends every batch back to the batcher it came from. */
  lemma {:induction false} BatchesAreRefused(index: Pid, l: LeaderState, bs: seq<(Pid, CommandBatch)>)
    requires l.phase.Inactive?
    ensures
      var (l', out) := HandleBatches(index, l, bs);
      && l' == l && |out| == |bs|
      && forall i :: 0 <= i < |bs| ==> out[i] == NotLeaderMsg(bs[i].0, bs[i].1)
  {
    if bs != [] {
      BatchesAreRefused(index, l, bs[..|bs| - 1]);
    }
  }

  // ----- rounds ------------------------------------------------------------------------------

  /** The least round after `r` that belongs to `index`. */
  ghost predicate IsNextOwned(n: nat, index: Pid, r: Round, r': Round)
    requires n > 0
  {
    r' > r && Owner(n, r') == index && forall x: Round :: r < x < r' ==> Owner(n, x) != index
  }

  /** A leader that starts over drops its parked batches and old reports and asks all
      acceptors from its watermark on; slots, watermark and flush timers are kept. */
  ghost predicate StartsOver(index: Pid, l: LeaderState, l': LeaderState, out: seq<Message>) {
    && l' == LeaderState(Phase1, l'.round, l.nextSlot, l.watermark, map[], [], l.flushTimers, l.watermark)
    && out == [Phase1aMsg(index, l'.round, l.watermark)]
  }

  /** Being elected, in any phase, starts phase 1 in the next owned round; not being
      elected only silences the leader. */
  lemma ElectionMeaning(n: nat, index: Pid, l: LeaderState)
    requires 1 <= index <= n
    ensures
      var (l', out) := LeaderChange(n, index, l, true);
      StartsOver(index, l, l', out) && IsNextOwned(n, index, l.round, l'.round)
    ensures LeaderChange(n, index, l, false) == (l.(phase := Inactive), [])
  {
    NextRoundIsLeastOwned(n, index, l.round);
  }

  /** A nack of a later round: an active leader starts over in the second owned round after
      it, an inactive one only remembers it. Other nacks are ignored. */
  lemma NackMeaning(n: nat, index: Pid, l: LeaderState, round: Round)
    requires 1 <= index <= n
    ensures
      var (l', out) := HandleNack(n, index, l, round);
      && (round <= l.round ==> l' == l && out == [])
      && (round > l.round && l.phase.Inactive? ==> l' == l.(round := round) && out == [])
      && (round > l.round && !l.phase.Inactive? ==>
            && StartsOver(index, l, l', out)
            && exists mid :: IsNextOwned(n, index, round, mid) && IsNextOwned(n, index, mid, l'.round))
  {
    if round > l.round && !l.phase.Inactive? {
      var mid := NextRound(n, index, round);
      NextRoundIsLeastOwned(n, index, round);
      NextRoundIsLeastOwned(n, index, mid);
      assert IsNextOwned(n, index, round, mid) && IsNextOwned(n, index, mid, NextRound(n, index, mid));
    }
  }

  /** A recover request makes an active leader start over and does not touch an inactive one. */
  lemma RecoverMeaning(n: nat, index: Pid, l: LeaderState)
    requires 1 <= index <= n
    ensures
      var (l', out) := HandleRecover(n, index, l);
      if l.phase.Inactive? then l' == l && out == []
      else StartsOver(index, l, l', out) && IsNextOwned(n, index, l.round, l'.round)
  {
    NextRoundIsLeastOwned(n, index, l.round);
  }

  /** Leader n asks in round n, the first one it owns; the others wait in Phase 2 there. */
  lemma StartMeaning(n: nat, p: Pid)
    requires 1 <= p <= n
    ensures
      var l := InitLeader(n, p);
      && l.round == n && IsNextOwned(n, n, 0, n)
      && l.phase == (if p == n then Phase1 else Phase2)
      && l.nextSlot == 0 && l.watermark == 0 && l.phase1bs == map[] && l.pending == [] && l.flushTimers == 0
  {
    FirstRoundOwner(n);
    NextRoundIsLeastOwned(n, n, 0);
  }

  /** Watermarks are taken over when they are higher, and only then. */
  lemma WatermarkMeaning(l: LeaderState, slot: Slot)
    ensures
      var l' := HandleWatermark(l, slot);
      && l' == l.(watermark := l'.watermark)
      && l'.watermark >= l.watermark && l'.watermark >= slot && (l'.watermark == l.watermark || l'.watermark == slot)
  {
  }

  /** A noop flush takes one slot, in whatever phase it fires. */
  lemma FlushMeaning(index: Pid, l: LeaderState)
    requires l.flushTimers > 0
    ensures
      var (l', out) := NoopFlush(index, l);
      && l' == l.(nextSlot := l.nextSlot + 1, flushTimers := l.flushTimers - 1)
      && out == [ProposeMsg(index, l.nextSlot, l.round, Noop, l.phase.Phase2?, l.from)]
  {
  }

  /** Only active leaders answer, with their round. */
  lemma InfoMeaning(l: LeaderState, batcher: Pid)
    ensures HandleInfoRequest(l, batcher) != [] <==> !l.phase.Inactive?
    ensures forall m :: m in HandleInfoRequest(l, batcher) ==> m == LeaderInfoReplyMsg(batcher, l.round)
  {
  }
}
