/** A run in which the network delivers packets more than once and a process announces
    itself leader of a view that fewer than a majority have joined. */
module ViewChangeDuplication {
  import opened Common
  import opened BallotLeaderElection
  import opened ViewChange
  import opened ViewChangeSafety

  const VIEWS: seq<nat> := [0, 1, 2, 3]

  /** A step of the system, or a delivery that leaves the packet in the network. */
  ghost predicate DuplicatingStep(s: System, s': System) {
    Step(s, s') || exists k :: k in s.net && Step(s.(net := s.net + multiset{k}), s')
  }

  ghost predicate IsDuplicatingRun(run: seq<System>) {
    && |run| > 0 && Init(run[0])
    && forall i :: 0 <= i < |run| - 1 ==> DuplicatingStep(run[i], run[i + 1])
  }

  ghost predicate Reached(s: System) {
    && WellFormed(s) && s.views == VIEWS && 1 in s.procs && 2 in s.procs
    && exists run :: IsDuplicatingRun(run) && run[|run| - 1] == s
  }

  lemma ReachNext(s: System, s': System)
    requires Reached(s) && DuplicatingStep(s, s')
    ensures exists run :: IsDuplicatingRun(run) && run[|run| - 1] == s'
  {
    hide DuplicatingStep, Init, WellFormed;
    var run :| IsDuplicatingRun(run) && run[|run| - 1] == s;
    var run' := run + [s'];
    forall i | 0 <= i < |run'| - 1
      ensures DuplicatingStep(run'[i], run'[i + 1])
    {
      if i < |run| - 1 {
        assert DuplicatingStep(run[i], run[i + 1]);
      }
    }
    assert IsDuplicatingRun(run') && run'[|run'| - 1] == s';
  }

  lemma Begin() returns (s: System)
    ensures Reached(s) && s.procs[1] == InitVr() && s.procs[2] == InitVr()
    ensures s.joined == map[0 := {}, 1 := {}, 2 := {}, 3 := {}] && s.announced[1] == []
  {
    var none: set<nat> := {};
    var silent: seq<Ballot> := [];
    s := System(VIEWS,
      map[0 := InitVr(), 1 := InitVr(), 2 := InitVr(), 3 := InitVr()],
      multiset{},
      map[0 := none, 1 := none, 2 := none, 3 := none],
      map[0 := none, 1 := none, 2 := none, 3 := none],
      map[0 := silent, 1 := silent, 2 := silent, 3 := silent]);
    assert Members(VIEWS) == {0, 1, 2, 3};
    assert Init(s);
    assert IsDuplicatingRun([s]) && [s][|[s]| - 1] == s;
  }

  /** What a step changes that the run looks at. */
  ghost predicate Becomes(s: System, s': System, p: nat, st': VrState, out: seq<Packet>)
    requires WellFormed(s) && p in s.procs
  {
    && s'.procs == s.procs[p := st'] && s'.net == s.net + multiset(out)
    && s'.joined == (if st'.view > s.procs[p].view then s.joined[p := s.joined[p] + {st'.view}] else s.joined)
  }

  lemma MovedBecomes(s: System, twice: System, p: nat, st': VrState, out: seq<Packet>, src: nat)
    requires WellFormed(s) && p in s.procs && twice == s.(net := twice.net)
    ensures
      var s' := Moved(twice, p, st', s.net + multiset(out), src);
      WellFormed(s') && s'.views == s.views && s'.announced == s.announced && Becomes(s, s', p, st', out)
  {
    MovedFacts(twice, p, st', s.net + multiset(out), src);
    hide WellFormed, CountedAfter;
  }

  lemma StepReached(s: System, twice: System, a: Action)
    requires Reached(s) && Enabled(twice, a)
    requires twice == s || exists k :: k in s.net && twice == s.(net := s.net + multiset{k})
    ensures exists run :: IsDuplicatingRun(run) && run[|run| - 1] == Apply(twice, a)
  {
    hide Enabled, Apply, IsDuplicatingRun;
    assert Step(twice, Apply(twice, a));
    ReachNext(s, Apply(twice, a));
  }

  /** Process 1 misses a heartbeat. */
  lemma Expire(s: System) returns (s': System)
    requires Reached(s)
    ensures Reached(s') && s'.announced == s.announced
    ensures
      var (st', out) := HandleTimeout(VIEWS, 1, s.procs[1], DEFAULT_BALLOT);
      Becomes(s, s', 1, st', out)
  {
    hide HandleTimeout, Moved, IsDuplicatingRun, Distinct, Members;
    var a := Timeout(1, DEFAULT_BALLOT);
    s' := Apply(s, a);
    StepReached(s, s, a);
    var (st', out) := HandleTimeout(VIEWS, 1, s.procs[1], DEFAULT_BALLOT);
    MovedBecomes(s, s, 1, st', out, 1);
  }

  /** A StartViewChange arrives and stays in the network. */
  lemma StartAgain(s: System, k: Packet) returns (s': System)
    requires Reached(s) && k in s.net && k.StartViewChange? && k.dst in s.procs
    ensures Reached(s') && s'.announced == s.announced
    ensures
      var (st', out) := HandleStart(VIEWS, k.dst, s.procs[k.dst], k.b);
      Becomes(s, s', k.dst, st', out)
  {
    hide HandleStart, Moved, IsDuplicatingRun, Distinct, Members;
    var twice := s.(net := s.net + multiset{k});
    var a := GetStart(k.dst, k);
    s' := Apply(twice, a);
    StepReached(s, twice, a);
    var (st', out) := HandleStart(VIEWS, k.dst, s.procs[k.dst], k.b);
    assert twice.net - multiset{k} == s.net;
    MovedBecomes(s, twice, k.dst, st', out, k.src);
  }

  /** A DoViewChange arrives and stays in the network. */
  lemma DoAgain(s: System, k: Packet) returns (s': System)
    requires Reached(s) && k in s.net && k.DoViewChange? && k.dst in s.procs
    ensures Reached(s')
    ensures
      var (st', ann) := HandleDo(VIEWS, s.procs[k.dst], k.b);
      && Becomes(s, s', k.dst, st', [])
      && s'.announced == if ann.Some? then s.announced[k.dst := s.announced[k.dst] + [ann.value]] else s.announced
  {
    hide Apply, Enabled, HandleDo, Moved, IsDuplicatingRun, Distinct, Members;
    var twice := s.(net := s.net + multiset{k});
    var a := GetDo(k.dst, k);
    var (st', ann) := HandleDo(VIEWS, s.procs[k.dst], k.b);
    var mid := DoShape(s, twice, k);
    s' := Apply(twice, a);
    StepReached(s, twice, a);
    if ann.Some? {
      StillWellFormed(mid, k.dst, s.announced[k.dst] + [ann.value]);
    }
    hide WellFormed;
  }

  lemma DoShape(s: System, twice: System, k: Packet) returns (mid: System)
    requires WellFormed(s) && s.views == VIEWS && twice == s.(net := s.net + multiset{k})
    requires k.DoViewChange? && k.dst in s.procs
    ensures Enabled(twice, GetDo(k.dst, k)) && WellFormed(mid) && mid.views == s.views && mid.announced == s.announced
    ensures
      var (st', ann) := HandleDo(VIEWS, s.procs[k.dst], k.b);
      && Becomes(s, mid, k.dst, st', [])
      && Apply(twice, GetDo(k.dst, k)) ==
         if ann.Some? then mid.(announced := s.announced[k.dst := s.announced[k.dst] + [ann.value]]) else mid
  {
    hide HandleDo, Moved, Distinct, Members;
    var (st', ann) := HandleDo(VIEWS, s.procs[k.dst], k.b);
    var nothing: seq<Packet> := [];
    assert twice.net - multiset{k} == s.net == s.net + multiset(nothing);
    MovedBecomes(s, twice, k.dst, st', nothing, k.src);
    mid := Moved(twice, k.dst, st', s.net, k.src);
  }

  lemma StillWellFormed(s: System, p: nat, a: seq<Ballot>)
    requires WellFormed(s) && p in s.procs
    ensures WellFormed(s.(announced := s.announced[p := a]))
  {
    hide Distinct, Members;
  }

  // ----- the run -----------------------------------------------------------------------------

  const FIRST := Ballot(1, 1)

  function InView(status: Status): VrState {
    VrState(1, status, false, DEFAULT_BALLOT)
  }

  /** How the handlers count in a cluster of four, where three are a majority. */
  lemma Handlers()
    ensures MajorityOf(VIEWS) == 3 && BallotOf(VIEWS, 1) == FIRST
    ensures HandleTimeout(VIEWS, 1, InitVr(), DEFAULT_BALLOT) ==
      (InView(Changing(FIRST, 1)), Broadcast(VIEWS, FIRST, 1))
    ensures HandleStart(VIEWS, 2, InitVr(), FIRST) == (InView(Changing(FIRST, 1)), Broadcast(VIEWS, FIRST, 2))
    ensures forall p :: HandleStart(VIEWS, p, InView(Changing(FIRST, 1)), FIRST) == (InView(Changing(FIRST, 2)), [])
    ensures HandleStart(VIEWS, 2, InView(Changing(FIRST, 2)), FIRST) ==
      (InView(Elected(FIRST)), [DoViewChange(1, FIRST, 2)])
    ensures HandleStart(VIEWS, 1, InView(Changing(FIRST, 2)), FIRST) == (InView(Candidate(FIRST, 1)), [])
    ensures HandleDo(VIEWS, InView(Candidate(FIRST, 1)), FIRST) == (InView(Candidate(FIRST, 2)), None)
    ensures HandleDo(VIEWS, InView(Candidate(FIRST, 2)), FIRST).1 == Some(FIRST)
    ensures HandleDo(VIEWS, InView(Candidate(FIRST, 2)), FIRST).0.view == 1
  {
    hide Broadcast;
  }

  lemma BroadcastHas()
    ensures StartViewChange(2, FIRST, 1) in Broadcast(VIEWS, FIRST, 1)
    ensures StartViewChange(1, FIRST, 2) in Broadcast(VIEWS, FIRST, 2)
  {
    assert VIEWS[..3] == [0, 1, 2] && [0, 1, 2][..2] == [0, 1] && [0, 1][..1] == [0] && [0][..0] == [];
  }

  /** Processes 1 and 2 have joined view 1 and hold each other's packet. */
  lemma BothJoin() returns (s: System)
    ensures Reached(s) && s.procs[1] == InView(Changing(FIRST, 1)) && s.procs[2] == InView(Changing(FIRST, 1))
    ensures s.joined == map[0 := {}, 1 := {1}, 2 := {1}, 3 := {}] && s.announced[1] == []
    ensures StartViewChange(2, FIRST, 1) in s.net && StartViewChange(1, FIRST, 2) in s.net
  {
    hide WellFormed, HandleTimeout, HandleStart, Broadcast, IsDuplicatingRun, InitVr;
    Handlers();
    BroadcastHas();
    var s0 := Begin();
    ViewsOf();
    assert s0.joined[1] + {1} == {1} && s0.joined[2] + {1} == {1};
    var s1 := Expire(s0);
    s := StartAgain(s1, StartViewChange(2, FIRST, 1));
  }

  lemma ViewsOf()
    ensures InitVr().view == 0
  {
  }

  /** Process 2 follows and process 1 becomes candidate, each by one packet received twice. */
  lemma BothCount() returns (s: System)
    ensures Reached(s) && s.procs[1] == InView(Candidate(FIRST, 1))
    ensures s.joined == map[0 := {}, 1 := {1}, 2 := {1}, 3 := {}] && s.announced[1] == []
    ensures DoViewChange(1, FIRST, 2) in s.net
  {
    hide WellFormed, HandleStart, IsDuplicatingRun;
    Handlers();
    var toTwo, toOne := StartViewChange(2, FIRST, 1), StartViewChange(1, FIRST, 2);
    var s0 := BothJoin();
    var s1 := StartAgain(s0, toTwo);
    var s2 := StartAgain(s1, toTwo);
    var s3 := StartAgain(s2, toOne);
    s := StartAgain(s3, toOne);
  }

  /** With duplication the majority can be missing: process 1 announces itself leader of
      view 1, which two of four processes have joined. */
  lemma DuplicatesAnnounceWithoutMajority() returns (s: System)
    ensures Reached(s) && FIRST in s.announced[1]
    ensures |Joiners(s, FIRST.n)| < MajorityOf(s.views)
  {
    hide WellFormed, HandleDo, IsDuplicatingRun;
    Handlers();
    var k := DoViewChange(1, FIRST, 2);
    var s0 := BothCount();
    var s1 := DoAgain(s0, k);
    s := DoAgain(s1, k);
    assert s.announced[1] == [] + [FIRST];
    OnlyTwo(s);
  }

  lemma OnlyTwo(s: System)
    requires WellFormed(s) && s.joined == map[0 := {}, 1 := {1}, 2 := {1}, 3 := {}]
    ensures Joiners(s, 1) == {1, 2} && |Joiners(s, 1)| == 2
  {
    hide Distinct, Members;
    assert forall q :: q in s.procs <==> q in s.joined;
    assert Joiners(s, 1) == {1, 2};
  }
}
