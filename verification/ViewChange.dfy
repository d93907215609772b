/** Leader election by view change: a process that misses its leader's heartbeat moves
    to the next view, and the view's candidate leads once enough processes follow. */
module ViewChange {
  import opened Common
  import opened BallotLeaderElection

  datatype Status =
    | Elected(b: Ballot)
    | Candidate(b: Ballot, count: nat)
    | Changing(b: Ballot, count: nat)

  datatype VrState = VrState(view: nat, status: Status, alive: bool, latest: Ballot)

  datatype Packet =
    | StartViewChange(dst: nat, b: Ballot, src: nat)
    | DoViewChange(dst: nat, b: Ballot, src: nat)

  function InitVr(): VrState {
    VrState(0, Elected(DEFAULT_BALLOT), false, DEFAULT_BALLOT)
  }

  function MajorityOf(views: seq<nat>): nat { Majority(|views|) }

  /** The views take turns: view `v` belongs to the process at position v mod n. */
  function BallotOf(views: seq<nat>, v: nat): (b: Ballot)
    requires views != []
    ensures b.n == v && b.pid in views
  {
    Ballot(v, views[v % |views|])
  }

  /** One packet to every process but `pid`. */
  function Broadcast(views: seq<nat>, b: Ballot, pid: nat): seq<Packet> {
    if views == [] then []
    else
      var last := views[|views| - 1];
      Broadcast(views[..|views| - 1], b, pid) + if last != pid then [StartViewChange(last, b, pid)] else []
  }

  /** Entering the view of `b`. */
  function Join(views: seq<nat>, pid: nat, st: VrState, b: Ballot): (VrState, seq<Packet>) {
    (st.(view := b.n, status := Changing(b, 1)), Broadcast(views, b, pid))
  }

  function HandleTimeout(views: seq<nat>, pid: nat, st: VrState, b: Ballot): (VrState, seq<Packet>)
    requires views != []
  {
    if st.status != Elected(b) then (st, [])
    else if st.alive then (st.(alive := false), [])
    else Join(views, pid, st, BallotOf(views, st.view + 1))
  }

  function HandleHbReply(st: VrState, b: Ballot): VrState {
    if st.status == Elected(b) then st.(alive := true) else st
  }

  function HandleStart(views: seq<nat>, pid: nat, st: VrState, b: Ballot): (VrState, seq<Packet>) {
    if b.n > st.status.b.n then Join(views, pid, st, b)
    else if !st.status.Changing? || st.status.b != b then (st, [])
    else if st.status.count + 1 != MajorityOf(views) then (st.(status := Changing(b, st.status.count + 1)), [])
    else if b.pid == pid then (st.(status := Candidate(b, 1)), [])
    else (st.(status := Elected(b), alive := false), [DoViewChange(b.pid, b, pid)])
  }

  function HandleDo(views: seq<nat>, st: VrState, b: Ballot): (VrState, Option<Ballot>) {
    if !st.status.Candidate? || st.status.b != b then (st, None)
    else if st.status.count + 1 != MajorityOf(views) then (st.(status := Candidate(b, st.status.count + 1)), None)
    else (st.(status := Elected(b), alive := true, latest := b), Some(b))
  }

  /** The reply to a heartbeat request carries the ballot announced last. */
  function AnswerHb(st: VrState): Ballot { st.latest }

  // ----- heartbeats decide whether a process stays in its view ---------------------------------

  datatype VrEvent = TimerFires(b: Ballot) | HbArrives(b: Ballot) | StartArrives(b: Ballot) | DoArrives(b: Ballot)

  function HandleEvent(views: seq<nat>, pid: nat, st: VrState, e: VrEvent): (VrState, seq<Packet>)
    requires views != []
  {
    match e
    case TimerFires(b) => HandleTimeout(views, pid, st, b)
    case HbArrives(b) => (HandleHbReply(st, b), [])
    case StartArrives(b) => HandleStart(views, pid, st, b)
    case DoArrives(b) => (HandleDo(views, st, b).0, [])
  }

  /** One process and the events it handles; the state and everything it sent. */
  function LocalRun(views: seq<nat>, pid: nat, st: VrState, events: seq<VrEvent>): (VrState, seq<Packet>)
    requires views != []
  {
    if events == [] then (st, [])
    else
      var (st1, out) := LocalRun(views, pid, st, events[..|events| - 1]);
      var (st2, more) := HandleEvent(views, pid, st1, events[|events| - 1]);
      (st2, out + more)
  }

  /** Nobody asks for a view above `n`. */
  predicate NoHigherView(events: seq<VrEvent>, n: nat) {
    forall e :: e in events && e.StartArrives? ==> e.b.n <= n
  }

  /** Since the last timeout for `b` (or the start) a reply with `b` has arrived. */
  predicate Heard(alive: bool, events: seq<VrEvent>, i: nat, b: Ballot)
    requires i <= |events|
  {
    || (alive && forall k :: 0 <= k < i ==> events[k] != TimerFires(b))
    || exists j :: 0 <= j < i && events[j] == HbArrives(b) && forall k :: j < k < i ==> events[k] != TimerFires(b)
  }

  /** A timeout after an answer of the leader changes nothing but the flag. */
  lemma AnsweredLeaderIsKept(views: seq<nat>, pid: nat, st: VrState, b: Ballot)
    requires views != [] && st.status == Elected(b)
    ensures HandleTimeout(views, pid, HandleHbReply(st, b), b) == (st.(alive := false), [])
  {
  }

  /** While every timeout finds an answer of the leader, the process stays in its view and
      sends nothing; and the flag tells whether the leader was heard. */
  lemma {:induction false} StaysWithAnsweringLeader(views: seq<nat>, pid: nat, st: VrState, events: seq<VrEvent>)
    requires views != [] && st.status.Elected? && st.status.b.n == st.view && NoHigherView(events, st.view)
    requires forall i :: 0 <= i < |events| && events[i] == TimerFires(st.status.b) ==>
      Heard(st.alive, events, i, st.status.b)
    ensures LocalRun(views, pid, st, events) ==
      (st.(alive := Heard(st.alive, events, |events|, st.status.b)), [])
  {
    hide Heard, Broadcast;
    var b := st.status.b;
    if events == [] {
      HeardAtStart(st.alive, events, b);
    } else {
      var n := |events| - 1;
      var front, last := events[..n], events[n];
      assert events == front + [last] && last in events;
      forall i | 0 <= i <= n
        ensures Heard(st.alive, front, i, b) == Heard(st.alive, events, i, b)
      {
        HeardPrefix(st.alive, events, n, i, b);
      }
      assert NoHigherView(front, st.view);
      StaysWithAnsweringLeader(views, pid, st, front);
      HeardNext(st.alive, events, n, b);
      var (st1, out) := LocalRun(views, pid, st, front);
      assert out == [] && out + [] == [];
    }
  }

  lemma HeardAtStart(alive: bool, events: seq<VrEvent>, b: Ballot)
    ensures Heard(alive, events, 0, b) == alive
  {
  }

  lemma HeardPrefix(alive: bool, events: seq<VrEvent>, n: nat, i: nat, b: Ballot)
    requires i <= n <= |events|
    ensures Heard(alive, events[..n], i, b) == Heard(alive, events, i, b)
  {
    var front := events[..n];
    assert forall k :: 0 <= k < n ==> front[k] == events[k];
    if Heard(alive, front, i, b) && !(alive && forall k :: 0 <= k < i ==> front[k] != TimerFires(b)) {
      var j :| 0 <= j < i && front[j] == HbArrives(b) && forall k :: j < k < i ==> front[k] != TimerFires(b);
      assert events[j] == HbArrives(b);
    }
    if Heard(alive, events, i, b) && !(alive && forall k :: 0 <= k < i ==> events[k] != TimerFires(b)) {
      var j :| 0 <= j < i && events[j] == HbArrives(b) && forall k :: j < k < i ==> events[k] != TimerFires(b);
      assert front[j] == HbArrives(b);
    }
  }

  lemma HeardNext(alive: bool, events: seq<VrEvent>, i: nat, b: Ballot)
    requires i < |events|
    ensures Heard(alive, events, i + 1, b) ==
      (if events[i] == TimerFires(b) then false
       else if events[i] == HbArrives(b) then true else Heard(alive, events, i, b))
  {
  }

  /** When no answer came since the last timeout, the next one moves the process to the
      following view and tells every other process. */
  lemma SilentLeaderIsLeft(views: seq<nat>, pid: nat, st: VrState, events: seq<VrEvent>)
    requires views != [] && st.status.Elected? && st.status.b.n == st.view && NoHigherView(events, st.view)
    requires forall i :: 0 <= i < |events| && events[i] == TimerFires(st.status.b) ==>
      Heard(st.alive, events, i, st.status.b)
    requires !Heard(st.alive, events, |events|, st.status.b)
    ensures
      var (st', out) := LocalRun(views, pid, st, events + [TimerFires(st.status.b)]);
      && st'.view == st.view + 1 && st'.status.Changing? && st'.status.count == 1
      && st'.status.b == Ballot(st.view + 1, views[(st.view + 1) % |views|])
      && (forall k :: k in out <==>
            k.StartViewChange? && k.b == st'.status.b && k.src == pid && k.dst in views && k.dst != pid)
  {
    hide Heard, Broadcast, NoHigherView;
    var b := st.status.b;
    StaysWithAnsweringLeader(views, pid, st, events);
    assert (events + [TimerFires(b)])[..|events|] == events;
    var next := Ballot(st.view + 1, views[(st.view + 1) % |views|]);
    var sent := Broadcast(views, next, pid);
    assert [] + sent == sent;
    forall k
      ensures k in sent <==> k.StartViewChange? && k.b == next && k.src == pid && k.dst in views && k.dst != pid
    {
      BroadcastMembers(views, next, pid, k);
    }
  }

  lemma {:induction false} BroadcastMembers(views: seq<nat>, b: Ballot, pid: nat, k: Packet)
    ensures k in Broadcast(views, b, pid) <==>
      k.StartViewChange? && k.b == b && k.src == pid && k.dst in views && k.dst != pid
  {
    if views != [] {
      var front, last := views[..|views| - 1], views[|views| - 1];
      BroadcastMembers(front, b, pid, k);
      assert views == front + [last];
    }
  }

  // ----- counting up to the majority -----------------------------------------------------------

  function Copies(e: VrEvent, k: nat): (events: seq<VrEvent>)
    ensures |events| == k && forall i :: 0 <= i < k ==> events[i] == e
  {
    if k == 0 then [] else Copies(e, k - 1) + [e]
  }

  lemma CopiesNext(e: VrEvent, k: nat)
    requires k > 0
    ensures Copies(e, k)[..k - 1] == Copies(e, k - 1) && Copies(e, k)[k - 1] == e
  {
  }

  /** A process that entered the view of `b` only counts while it and those it heard of are
      at most half; with more than half, the view's own candidate becomes candidate, and
      any other process follows it, tells it so, and waits for its heartbeat. */
  lemma {:induction false} StartsAreCounted(views: seq<nat>, pid: nat, st: VrState, b: Ballot, k: nat)
    requires views != [] && st.status == Changing(b, 1) && 2 * k <= |views| && |views| > 1
    ensures
      var (st', out) := LocalRun(views, pid, st, Copies(StartArrives(b), k));
      if 2 * (k + 1) <= |views| then st' == st.(status := Changing(b, k + 1)) && out == []
      else if b.pid == pid then st' == st.(status := Candidate(b, 1)) && out == []
      else st' == st.(status := Elected(b), alive := false) && out == [DoViewChange(b.pid, b, pid)]
  {
    if k > 0 {
      StartsAreCounted(views, pid, st, b, k - 1);
      CopiesNext(StartArrives(b), k);
      MajorityIff(|views|, k + 1);
      MajorityIff(|views|, k);
      hide Copies, Broadcast;
      var (st1, out) := LocalRun(views, pid, st, Copies(StartArrives(b), k - 1));
      assert st1 == st.(status := Changing(b, k)) && out == [];
      var sent := HandleStart(views, pid, st1, b).1;
      assert out + sent == sent;
    }
  }

  /** DoViewChange packets handled one by one; the announcements made. */
  function CountDo(views: seq<nat>, st: VrState, b: Ballot, k: nat): (VrState, seq<Ballot>) {
    if k == 0 then (st, [])
    else
      var (st1, out) := CountDo(views, st, b, k - 1);
      var (st2, ann) := HandleDo(views, st1, b);
      (st2, out + if ann.Some? then [ann.value] else [])
  }

  /** A candidate announces itself exactly when it and its followers are more than half, and
      counts as heard of from then on. */
  lemma {:induction false} FollowersAreCounted(views: seq<nat>, st: VrState, b: Ballot, k: nat)
    requires views != [] && st.status == Candidate(b, 1) && 2 * k <= |views| && |views| > 1
    ensures CountDo(views, st, b, k) ==
      if 2 * (k + 1) <= |views| then (st.(status := Candidate(b, k + 1)), [])
      else (st.(status := Elected(b), alive := true, latest := b), [b])
  {
    if k > 0 {
      FollowersAreCounted(views, st, b, k - 1);
      MajorityIff(|views|, k + 1);
      MajorityIff(|views|, k);
      var nothing: seq<Ballot> := [];
      assert nothing + [b] == [b] && nothing + [] == [];
    }
  }

  class VRLeaderElectionComp {
    const views: seq<nat>
    const pid: nat
    const majority: nat
    var viewNumber: nat
    var status: Status
    var leaderIsAlive: bool
    var latestBallotAsLeader: Ballot

    ghost predicate Configured() {
      views != [] && majority == MajorityOf(views)
    }

    ghost function View(): VrState
      reads this
    {
      VrState(viewNumber, status, leaderIsAlive, latestBallotAsLeader)
    }

    constructor (views: seq<nat>, pid: nat)
      requires views != []
      ensures Configured() && this.views == views && this.pid == pid && View() == InitVr()
    {
      this.views, this.pid := views, pid;
      majority := Majority(|views|);
      viewNumber, status := 0, Elected(DEFAULT_BALLOT);
      leaderIsAlive, latestBallotAsLeader := false, DEFAULT_BALLOT;
    }

    method GetNextView() returns (b: Ballot)
      requires Configured()
      modifies this`viewNumber
      ensures viewNumber == old(viewNumber) + 1 && b == BallotOf(views, viewNumber)
    {
      viewNumber := viewNumber + 1;
      b := Ballot(viewNumber, views[viewNumber % |views|]);
    }

    method StartChange(b: Ballot) returns (out: seq<Packet>)
      ensures out == Broadcast(views, b, pid)
    {
      out := [];
      for i := 0 to |views|
        invariant out == Broadcast(views[..i], b, pid)
      {
        assert views[..i + 1][..i] == views[..i];
        if views[i] != pid {
          out := out + [StartViewChange(views[i], b, pid)];
        }
      }
      assert views[..|views|] == views;
    }

    method OnTimeout(b: Ballot) returns (out: seq<Packet>)
      requires Configured()
      modifies this
      ensures (View(), out) == HandleTimeout(views, pid, old(View()), b)
    {
      out := [];
      if status == Elected(b) {
        if leaderIsAlive {
          leaderIsAlive := false;
        } else {
          var next := GetNextView();
          status := Changing(next, 1);
          out := StartChange(next);
        }
      }
    }

    method OnRequest() returns (b: Ballot)
      ensures b == AnswerHb(View())
    {
      b := latestBallotAsLeader;
    }

    method OnReply(b: Ballot)
      modifies this
      ensures View() == HandleHbReply(old(View()), b)
    {
      if status == Elected(b) {
        leaderIsAlive := true;
      }
    }

    method OnStartViewChange(b: Ballot) returns (out: seq<Packet>)
      requires Configured()
      modifies this
      ensures (View(), out) == HandleStart(views, pid, old(View()), b)
    {
      out := [];
      if b.n > status.b.n {
        viewNumber := b.n;
        status := Changing(b, 1);
        out := StartChange(b);
      } else if status.Changing? && b == status.b {
        var newCounter := status.count + 1;
        if newCounter == majority {
          if b.pid == pid {
            status := Candidate(b, 1);
          } else {
            out := [DoViewChange(b.pid, b, pid)];
            status, leaderIsAlive := Elected(b), false;
          }
        } else {
          status := Changing(b, newCounter);
        }
      }
    }

    /** Returns the ballot announced on the election port, if any. */
    method OnDoViewChange(b: Ballot) returns (announced: Option<Ballot>)
      requires Configured()
      modifies this
      ensures (View(), announced) == HandleDo(views, old(View()), b)
    {
      announced := None;
      if status.Candidate? && status.b == b {
        var newCounter := status.count + 1;
        if newCounter == majority {
          announced := Some(b);
          status, leaderIsAlive, latestBallotAsLeader := Elected(b), true, b;
        } else {
          status := Candidate(b, newCounter);
        }
      }
    }
  }
}
