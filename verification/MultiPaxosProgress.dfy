/** What a bare majority can do: from any state, a proposal is chosen, and phase 1 is
    completed, with the help of any set of acceptors that are more than half. */
module MultiPaxosProgress {
  import opened Common
  import opened PaxosTypes
  import opened LeaderRole
  import opened MultiPaxos
  import A = AcceptorRole
  import P = ProxyRole

  /** `s'` is reached from `s` by some steps. */
  ghost predicate Leads(s: System, s': System) {
    exists run: seq<System> :: IsPath(run) && run[0] == s && run[|run| - 1] == s'
  }

  ghost predicate IsPath(run: seq<System>) {
    |run| > 0 && forall i :: 0 <= i < |run| - 1 ==> Step(run[i], run[i + 1])
  }

  lemma LeadsToSelf(s: System)
    ensures Leads(s, s)
  {
    hide Step;
    assert IsPath([s]) && [s][0] == s && [s][|[s]| - 1] == s;
  }

  lemma LeadsStep(s: System, mid: System, a: Action)
    requires Leads(s, mid) && Enabled(mid, a)
    ensures Leads(s, Apply(mid, a))
  {
    hide Enabled, Apply;
    var run: seq<System> :| IsPath(run) && run[0] == s && run[|run| - 1] == mid;
    assert Step(mid, Apply(mid, a));
    hide Step;
    var run' := run + [Apply(mid, a)];
    forall i | 0 <= i < |run'| - 1
      ensures Step(run'[i], run'[i + 1])
    {
      if i < |run| - 1 {
        assert Step(run[i], run[i + 1]);
      }
    }
    assert IsPath(run') && run'[0] == s && run'[|run'| - 1] == Apply(mid, a);
  }

  // ----- voting ------------------------------------------------------------------------------

  /** The acceptors in `q` have not promised a round above `r`. */
  ghost predicate Willing(s: System, q: set<Pid>, r: Round) {
    WellFormed(s) && q <= Pids(s.n) && forall a :: a in q ==> s.acceptors[a].round <= r
  }

  /** Only acceptors have moved. */
  ghost predicate AcceptorsMoved(s: System, s': System) {
    s' == s.(acceptors := s'.acceptors, net := s'.net) && s.net <= s'.net
  }

  ghost predicate HaveVoted(s: System, q: set<Pid>, m: Message)
    requires m.ProposeMsg?
  {
    forall a :: a in q ==> Phase2bMsg(m.src, a, m.slot, m.round, m.value) in s.net
  }

  lemma OneVotes(s0: System, s: System, q: set<Pid>, a: Pid, m: Message) returns (s': System)
    requires m.ProposeMsg? && Leads(s0, s) && Willing(s, q, m.round) && a in q
    requires Phase2aMsg(m.src, m.slot, m.round, m.value) in s.net
    ensures Leads(s0, s') && Willing(s', q, m.round) && AcceptorsMoved(s, s')
    ensures Phase2bMsg(m.src, a, m.slot, m.round, m.value) in s'.net
  {
    hide Leads;
    var act := AcceptorGetsPhase2a(a, Phase2aMsg(m.src, m.slot, m.round, m.value));
    LeadsStep(s0, s, act);
    s' := Apply(s, act);
  }

  lemma {:induction false} AllVote(s0: System, s: System, q: set<Pid>, todo: set<Pid>, m: Message) returns (s': System)
    requires m.ProposeMsg? && Leads(s0, s) && Willing(s, q, m.round) && todo <= q && HaveVoted(s, q - todo, m)
    requires Phase2aMsg(m.src, m.slot, m.round, m.value) in s.net
    ensures Leads(s0, s') && WellFormed(s') && AcceptorsMoved(s, s') && HaveVoted(s', q, m)
    decreases todo
  {
    hide Leads, WellFormed;
    if todo == {} {
      s' := s;
      assert q - todo == q;
    } else {
      var a :| a in todo;
      var s1 := OneVotes(s0, s, q, a, m);
      s' := AllVote(s0, s1, q, todo - {a}, m);
    }
  }

  // ----- counting ------------------------------------------------------------------------------

  /** The proxy of the proposer has chosen the value, or counted the acceptors in `q`. */
  ghost predicate HasCounted(s: System, q: set<Pid>, m: Message)
    requires m.ProposeMsg? && WellFormed(s) && m.src in Pids(s.n)
  {
    || ChosenMsg(m.slot, m.value) in s.net
    || (var key := P.SlotRound(m.slot, m.round);
        && key in s.proxies[m.src] && s.proxies[m.src][key].Pending? && s.proxies[m.src][key].value == m.value
        && 2 * |s.proxies[m.src][key].acks| <= s.n && q <= s.proxies[m.src][key].acks)
  }

  lemma OneCounted(s0: System, s: System, q: set<Pid>, a: Pid, m: Message) returns (s': System)
    requires m.ProposeMsg? && WellFormed(s) && m.src in Pids(s.n) && Leads(s0, s) && HasCounted(s, q, m)
    requires Phase2bMsg(m.src, a, m.slot, m.round, m.value) in s.net
    ensures Leads(s0, s') && WellFormed(s') && s'.n == s.n && s.net <= s'.net && HasCounted(s', q + {a}, m)
  {
    hide Leads;
    if ChosenMsg(m.slot, m.value) in s.net {
      s' := s;
    } else {
      hide P.HandlePhase2b;
      P.ChosenIffMajority(s.n, s.proxies[m.src], a, m.slot, m.round);
      var act := ProxyGetsPhase2b(m.src, Phase2bMsg(m.src, a, m.slot, m.round, m.value));
      LeadsStep(s0, s, act);
      s' := Apply(s, act);
    }
  }

  lemma {:induction false} AllCounted(s0: System, s: System, q: set<Pid>, todo: set<Pid>, m: Message)
      returns (s': System)
    requires m.ProposeMsg? && WellFormed(s) && m.src in Pids(s.n) && Leads(s0, s)
    requires todo <= q && HaveVoted(s, q, m) && HasCounted(s, q - todo, m)
    ensures Leads(s0, s') && WellFormed(s') && s'.n == s.n && HasCounted(s', q, m)
    decreases todo
  {
    hide Leads, WellFormed;
    if todo == {} {
      s' := s;
      assert q - todo == q;
    } else {
      hide HasCounted;
      var a :| a in todo;
      var s1 := OneCounted(s0, s, q - todo, a, m);
      assert q - todo + {a} == q - (todo - {a});
      s' := AllCounted(s0, s1, q, todo - {a}, m);
    }
  }

  lemma ForwardProposal(s0: System, s: System, m: Message) returns (s': System)
    requires Leads(s0, s) && WellFormed(s) && m in s.net && m.ProposeMsg? && m.src in Pids(s.n)
    requires P.SlotRound(m.slot, m.round) !in s.proxies[m.src]
    ensures Leads(s0, s') && WellFormed(s') && s'.n == s.n && s'.acceptors == s.acceptors && s.net <= s'.net
    ensures Phase2aMsg(m.src, m.slot, m.round, m.value) in s'.net
    ensures
      var key := P.SlotRound(m.slot, m.round);
      key in s'.proxies[m.src] && s'.proxies[m.src][key] == P.Pending(m.value, {})
  {
    hide Leads;
    var act := ProxyGetsPropose(m.src, m);
    LeadsStep(s0, s, act);
    s' := Apply(s, act);
  }

  /** ANY MAJORITY CHOOSES. A proposal not yet forwarded leads to a Chosen message with
      its value by steps of its proxy and of any acceptors that are more than half, as long
      as these have not promised a later round; no other process is needed. */
  lemma AnyMajorityChooses(s: System, m: Message, q: set<Pid>) returns (s': System)
    requires WellFormed(s) && m in s.net && m.ProposeMsg? && m.src in Pids(s.n)
    requires P.SlotRound(m.slot, m.round) !in s.proxies[m.src]
    requires 2 * |q| > s.n && Willing(s, q, m.round)
    ensures Leads(s, s') && ChosenMsg(m.slot, m.value) in s'.net
  {
    hide Leads, WellFormed;
    LeadsToSelf(s);
    var s1 := ForwardProposal(s, s, m);
    var s2 := AllVote(s, s1, q, q, m);
    assert q - q == {};
    s' := AllCounted(s, s2, q, q, m);
    CountedIsChosen(s', q, m);
  }

  lemma CountedIsChosen(s: System, q: set<Pid>, m: Message)
    requires m.ProposeMsg? && WellFormed(s) && m.src in Pids(s.n) && HasCounted(s, q, m) && 2 * |q| > s.n
    ensures ChosenMsg(m.slot, m.value) in s.net
  {
    if ChosenMsg(m.slot, m.value) !in s.net {
      SubsetSize(q, s.proxies[m.src][P.SlotRound(m.slot, m.round)].acks);
    }
  }

  // ----- reports and recoveries exist ------------------------------------------------------------

  lemma {:induction false} MaxOf(xs: set<nat>) returns (max: nat)
    requires xs != {}
    ensures max in xs && forall x :: x in xs ==> x <= max
  {
    var x :| x in xs;
    var rest := xs - {x};
    if rest == {} {
      max := x;
    } else {
      var y := MaxOf(rest);
      max := if x > y then x else y;
    }
    forall z | z in xs ensures z <= max { assert z == x || z in rest; }
  }

  lemma {:induction false} ListVotes(votes: map<Slot, Vote>, slots: set<Slot>) returns (info: seq<SlotInfo>)
    requires slots <= votes.Keys
    ensures forall i, j :: 0 <= i < j < |info| ==> info[i].slot < info[j].slot
    ensures forall e :: e in info <==> e.slot in slots && votes[e.slot] == e.vote
    decreases slots
  {
    if slots == {} {
      info := [];
    } else {
      var max := MaxOf(slots);
      var front := ListVotes(votes, slots - {max});
      assert forall i :: 0 <= i < |front| ==> front[i] in front;
      info := front + [SlotInfo(max, votes[max])];
    }
  }

  /** Every acceptor can report. */
  lemma ReportExists(votes: map<Slot, Vote>, watermark: Slot) returns (info: seq<SlotInfo>)
    ensures A.IsReport(votes, watermark, info)
  {
    info := ListVotes(votes, set s | s in votes && s >= watermark);
  }

  ghost function Entries(bs: map<Pid, Phase1b>): set<SlotInfo> {
    set a, e | a in bs && e in bs[a].info :: e
  }

  lemma EntriesReported(bs: map<Pid, Phase1b>, e: SlotInfo)
    ensures e in Entries(bs) <==> Reported(bs, e)
  {
  }

  lemma MaxSlotExists(bs: map<Pid, Phase1b>) returns (m: Option<Slot>)
    ensures IsMaxSlot(bs, m)
  {
    forall e ensures e in Entries(bs) <==> Reported(bs, e) { EntriesReported(bs, e); }
    hide Entries, Reported;
    var slots := set e | e in Entries(bs) :: e.slot;
    if slots == {} {
      m := None;
      forall e ensures !Reported(bs, e) { assert e in Entries(bs) ==> e.slot in slots; }
    } else {
      var max := MaxOf(slots);
      m := Some(max);
      var e :| e in Entries(bs) && e.slot == max;
      forall f | Reported(bs, f) ensures f.slot <= max { assert f.slot in slots; }
    }
  }

  lemma SafeValueExists(bs: map<Pid, Phase1b>, slot: Slot) returns (v: Value)
    ensures IsSafeValue(bs, slot, v)
  {
    forall e ensures e in Entries(bs) <==> Reported(bs, e) { EntriesReported(bs, e); }
    hide Entries, Reported;
    var rounds := set e | e in Entries(bs) && e.slot == slot :: e.vote.round;
    if rounds == {} {
      v := Noop;
      forall e | Reported(bs, e) ensures e.slot != slot { assert e.slot == slot ==> e.vote.round in rounds; }
    } else {
      var max := MaxOf(rounds);
      var e :| e in Entries(bs) && e.slot == slot && e.vote.round == max;
      v := e.vote.value;
      forall f | Reported(bs, f) && f.slot == slot
        ensures f.vote.round <= e.vote.round
      {
        assert f.vote.round in rounds;
      }
      assert IsTopVote(bs, slot, e);
    }
  }

  lemma {:induction false} SafeValuesExist(bs: map<Pid, Phase1b>, first: Slot, k: nat) returns (values: seq<Value>)
    ensures |values| == k && forall i :: 0 <= i < k ==> IsSafeValue(bs, first + i, values[i])
  {
    hide IsSafeValue;
    if k == 0 {
      values := [];
    } else {
      var front := SafeValuesExist(bs, first, k - 1);
      var v := SafeValueExists(bs, first + (k - 1));
      values := front + [v];
    }
  }

  /** Every leader can recover. */
  lemma RecoveryExists(l: LeaderState) returns (rec: Recovery)
    ensures IsRecovery(l, rec)
  {
    hide IsMaxSlot, IsSafeValue;
    var m := MaxSlotExists(l.phase1bs);
    var k := match m case None => 0 case Some(x) => Max(0, x + 1 - l.watermark);
    var values := SafeValuesExist(l.phase1bs, l.watermark, k);
    rec := Recovery(m, values);
  }

  // ----- phase 1 -----------------------------------------------------------------------------------

  ghost predicate HasReport(s: System, p: Pid, r: Round, a: Pid) {
    exists info :: Phase1bMsg(p, Phase1b(a, r, info)) in s.net
  }

  ghost predicate HaveReported(s: System, p: Pid, r: Round, q: set<Pid>) {
    forall a :: a in q ==> HasReport(s, p, r, a)
  }

  lemma OneReports(s0: System, s: System, q: set<Pid>, a: Pid, p: Pid, r: Round, w: Slot) returns (s': System)
    requires Leads(s0, s) && Willing(s, q, r) && a in q && Phase1aMsg(p, r, w) in s.net
    ensures Leads(s0, s') && Willing(s', q, r) && AcceptorsMoved(s, s') && HasReport(s', p, r, a)
  {
    hide Leads;
    var info := ReportExists(s.acceptors[a].votes, w);
    hide A.IsReport;
    var act := AcceptorGetsPhase1a(a, Phase1aMsg(p, r, w), info);
    LeadsStep(s0, s, act);
    s' := Apply(s, act);
    assert Phase1bMsg(p, Phase1b(a, r, info)) in s'.net;
  }

  lemma {:induction false} AllReport(s0: System, s: System, q: set<Pid>, todo: set<Pid>, p: Pid, r: Round, w: Slot)
      returns (s': System)
    requires Leads(s0, s) && Willing(s, q, r) && todo <= q && HaveReported(s, p, r, q - todo)
    requires Phase1aMsg(p, r, w) in s.net
    ensures Leads(s0, s') && WellFormed(s') && AcceptorsMoved(s, s') && HaveReported(s', p, r, q)
    decreases todo
  {
    hide Leads, WellFormed;
    if todo == {} {
      s' := s;
      assert q - todo == q;
    } else {
      var a :| a in todo;
      var s1 := OneReports(s0, s, q, a, p, r, w);
      forall b | b in q - todo ensures HasReport(s1, p, r, b) { ReportStays(s, s1, p, r, b); }
      hide HasReport;
      s' := AllReport(s0, s1, q, todo - {a}, p, r, w);
    }
  }

  lemma ReportStays(s: System, s': System, p: Pid, r: Round, a: Pid)
    requires s.net <= s'.net && HasReport(s, p, r, a)
    ensures HasReport(s', p, r, a)
  {
    var info :| Phase1bMsg(p, Phase1b(a, r, info)) in s.net;
    assert Phase1bMsg(p, Phase1b(a, r, info)) in s'.net;
  }

  /** The leader has entered Phase 2 of round `r`, or stored the reports of `q`. */
  ghost predicate HasStored(s: System, p: Pid, r: Round, q: set<Pid>)
    requires WellFormed(s) && p in Pids(s.n)
  {
    var l := s.leaders[p];
    && l.round == r
    && (l.phase.Phase2? || (l.phase.Phase1? && 2 * |l.phase1bs| <= s.n && q <= l.phase1bs.Keys))
  }

  lemma OneStored(s0: System, s: System, p: Pid, r: Round, q: set<Pid>, a: Pid) returns (s': System)
    requires WellFormed(s) && p in Pids(s.n) && Leads(s0, s) && HasStored(s, p, r, q) && HasReport(s, p, r, a)
    ensures Leads(s0, s') && WellFormed(s') && s'.n == s.n && s.net <= s'.net && HasStored(s', p, r, q + {a})
  {
    hide Leads, IsRecovery, Proposals, Batches;
    var l := s.leaders[p];
    if l.phase.Phase2? {
      s' := s;
    } else {
      var info :| Phase1bMsg(p, Phase1b(a, r, info)) in s.net;
      var b := Phase1b(a, r, info);
      MajorityIff(s.n, |l.phase1bs[a := b]|);
      var rec := RecoveryExists(l.(phase1bs := l.phase1bs[a := b]));
      var act := LeaderGetsPhase1b(p, Phase1bMsg(p, b), rec);
      LeadsStep(s0, s, act);
      s' := Apply(s, act);
    }
  }

  lemma {:induction false} AllStored(s0: System, s: System, p: Pid, r: Round, q: set<Pid>, todo: set<Pid>)
      returns (s': System)
    requires WellFormed(s) && p in Pids(s.n) && Leads(s0, s)
    requires todo <= q && HaveReported(s, p, r, q) && HasStored(s, p, r, q - todo)
    ensures Leads(s0, s') && WellFormed(s') && s'.n == s.n && HasStored(s', p, r, q)
    decreases todo
  {
    hide Leads, WellFormed, HasStored;
    if todo == {} {
      s' := s;
      assert q - todo == q;
    } else {
      var a :| a in todo;
      var s1 := OneStored(s0, s, p, r, q - todo, a);
      assert q - todo + {a} == q - (todo - {a});
      forall b | b in q ensures HasReport(s1, p, r, b) { ReportStays(s, s1, p, r, b); }
      hide HasReport;
      s' := AllStored(s0, s1, p, r, q, todo - {a});
    }
  }

  lemma StoredIsPhase2(s: System, p: Pid, r: Round, q: set<Pid>)
    requires WellFormed(s) && p in Pids(s.n) && HasStored(s, p, r, q) && 2 * |q| > s.n
    ensures s.leaders[p].phase.Phase2? && s.leaders[p].round == r
  {
    if !s.leaders[p].phase.Phase2? {
      SubsetSize(q, s.leaders[p].phase1bs.Keys);
    }
  }

  /** ANY MAJORITY ELECTS. A leader that has just started phase 1 enters Phase 2 of its
      round with the reports of any acceptors that are more than half and have not promised
      a later round. */
  lemma AnyMajorityElects(s: System, p: Pid, w: Slot, q: set<Pid>) returns (s': System)
    requires WellFormed(s) && p in Pids(s.n)
    requires s.leaders[p].phase.Phase1? && s.leaders[p].phase1bs == map[]
    requires Phase1aMsg(p, s.leaders[p].round, w) in s.net
    requires 2 * |q| > s.n && Willing(s, q, s.leaders[p].round)
    ensures Leads(s, s') && WellFormed(s') && s'.n == s.n
    ensures s'.leaders[p].phase.Phase2? && s'.leaders[p].round == s.leaders[p].round
  {
    var r := s.leaders[p].round;
    LeadsToSelf(s);
    assert HasStored(s, p, r, {});
    hide Leads, WellFormed;
    assert q - q == {};
    var s1 := AllReport(s, s, q, q, p, r, w);
    assert HasStored(s1, p, r, {}) && p in Pids(s1.n);
    s' := AllStored(s, s1, p, r, q, q);
    StoredIsPhase2(s', p, r, q);
  }
}
