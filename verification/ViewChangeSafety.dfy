/** View change over whole runs, with a network that loses, delays and reorders
    packets but does not duplicate them. */
module ViewChangeSafety {
  import opened Common
  import opened BallotLeaderElection
  import opened ViewChange

  /** `joined`, `counted` and `announced` are history that no handler reads: the views a
      process entered, the processes behind its current counter, and its announcements. */
  datatype System = System(
    views: seq<nat>,
    procs: map<nat, VrState>,
    net: multiset<Packet>,
    joined: map<nat, set<nat>>,
    counted: map<nat, set<nat>>,
    announced: map<nat, seq<Ballot>>)

  datatype Action =
    | Timeout(p: nat, b: Ballot)
    | Reply(p: nat, b: Ballot)
    | GetStart(p: nat, k: Packet)
    | GetDo(p: nat, k: Packet)

  function Members(views: seq<nat>): set<nat> { set p | p in views }

  ghost predicate WellFormed(s: System) {
    && s.views != [] && Distinct(s.views)
    && s.procs.Keys == Members(s.views) && s.joined.Keys == s.procs.Keys
    && s.counted.Keys == s.procs.Keys && s.announced.Keys == s.procs.Keys
  }

  ghost predicate Init(s: System) {
    && WellFormed(s)
    && s.net == multiset{}
    && forall p :: p in s.procs ==>
         s.procs[p] == InitVr() && s.joined[p] == {} && s.counted[p] == {} && s.announced[p] == []
  }

  ghost predicate Enabled(s: System, a: Action) {
    && WellFormed(s) && a.p in s.procs
    && match a
       case Timeout(_, _) => true
       case Reply(_, _) => true
       case GetStart(p, k) => k in s.net && k.StartViewChange? && k.dst == p
       case GetDo(p, k) => k in s.net && k.DoViewChange? && k.dst == p
  }

  /** The processes behind the counter after a change of status. */
  function CountedAfter(st: VrState, st': VrState, counted: set<nat>, p: nat, src: nat): set<nat> {
    if st'.status == st.status || st'.status.Elected? then counted
    else if st'.status.count == 1 then {p}
    else counted + {src}
  }

  function Moved(s: System, p: nat, st': VrState, net: multiset<Packet>, src: nat): System
    requires p in s.procs && p in s.joined && p in s.counted
  {
    s.(procs := s.procs[p := st'],
       net := net,
       joined := if st'.view > s.procs[p].view then s.joined[p := s.joined[p] + {st'.view}] else s.joined,
       counted := s.counted[p := CountedAfter(s.procs[p], st', s.counted[p], p, src)])
  }

  ghost function Apply(s: System, a: Action): System
    requires Enabled(s, a)
  {
    var st := s.procs[a.p];
    match a
    case Timeout(p, b) =>
      var (st', out) := HandleTimeout(s.views, p, st, b);
      Moved(s, p, st', s.net + multiset(out), p)
    case Reply(p, b) => Moved(s, p, HandleHbReply(st, b), s.net, p)
    case GetStart(p, k) =>
      var (st', out) := HandleStart(s.views, p, st, k.b);
      Moved(s, p, st', s.net - multiset{k} + multiset(out), k.src)
    case GetDo(p, k) =>
      var (st', ann) := HandleDo(s.views, st, k.b);
      var s' := Moved(s, p, st', s.net - multiset{k}, k.src);
      if ann.Some? then s'.(announced := s.announced[p := s.announced[p] + [ann.value]]) else s'
  }

  ghost predicate Step(s: System, s': System) {
    exists a :: Enabled(s, a) && s' == Apply(s, a)
  }

  ghost predicate IsRun(run: seq<System>) {
    && |run| > 0 && Init(run[0])
    && forall i :: 0 <= i < |run| - 1 ==> Step(run[i], run[i + 1])
  }

  // ----- the invariant ---------------------------------------------------------------

  /** Process state `st` will not ask for view `n` again. */
  predicate Past(st: VrState, n: nat) {
    st.view > n || (st.view == n && st.status.Elected?)
  }

  ghost predicate ProcInv(s: System, p: nat)
    requires WellFormed(s) && p in s.procs
  {
    var st := s.procs[p];
    && st.status.b.n == st.view
    && (forall v :: v in s.joined[p] ==> 0 < v <= st.view)
    && (if st.view == 0 then st.status.Elected?
        else st.status.b == BallotOf(s.views, st.view) && st.view in s.joined[p])
    && (st.status.Candidate? ==> st.status.b.pid == p)
  }

  ghost predicate PacketInv(s: System, k: Packet)
    requires WellFormed(s)
  {
    && s.net[k] == 1 && k.src in s.procs && k.src != k.dst
    && k.b.n in s.joined[k.src] && k.b == BallotOf(s.views, k.b.n)
    && (k.DoViewChange? ==> Past(s.procs[k.src], k.b.n))
  }

  /** Process `q` is rightly behind the counter of `p` and cannot be counted again. */
  ghost predicate Counts(s: System, p: nat, q: nat)
    requires WellFormed(s) && p in s.procs
  {
    var st := s.procs[p];
    && q in s.procs && st.view in s.joined[q]
    && (q != p && st.status.Changing? ==> StartViewChange(p, st.status.b, q) !in s.net)
    && (q != p && st.status.Candidate? ==> DoViewChange(p, st.status.b, q) !in s.net && Past(s.procs[q], st.view))
  }

  ghost predicate CounterInv(s: System, p: nat)
    requires WellFormed(s) && p in s.procs
  {
    var st := s.procs[p];
    !st.status.Elected? ==>
      && p in s.counted[p] && |s.counted[p]| == st.status.count
      && forall q :: q in s.counted[p] ==> Counts(s, p, q)
  }

  ghost function Joiners(s: System, n: nat): set<nat>
    requires WellFormed(s)
  {
    set q | q in s.procs && n in s.joined[q]
  }

  ghost predicate AnnouncementInv(s: System, p: nat, b: Ballot)
    requires WellFormed(s) && p in s.procs
  {
    && b.pid == p && b == BallotOf(s.views, b.n)
    && p in Joiners(s, b.n) && |Joiners(s, b.n)| >= MajorityOf(s.views)
  }

  ghost predicate HistoryInv(s: System, p: nat)
    requires WellFormed(s) && p in s.procs
  {
    var a, st := s.announced[p], s.procs[p];
    && (forall b :: b in a ==> AnnouncementInv(s, p, b))
    && (forall i, j :: 0 <= i < j < |a| ==> a[i].n < a[j].n)
    && (a != [] ==> a[|a| - 1].n < st.view || (a[|a| - 1].n == st.view && st.status.Elected?))
  }

  ghost predicate Inv(s: System) {
    && WellFormed(s)
    && (forall p :: p in s.procs ==> ProcInv(s, p))
    && (forall k :: k in s.net ==> PacketInv(s, k))
    && (forall p :: p in s.procs ==> CounterInv(s, p))
    && (forall p :: p in s.procs ==> HistoryInv(s, p))
  }

  // ----- one step ---------------------------------------------------------------------

  /** Each packet of a broadcast is sent once. */
  lemma {:induction false} BroadcastOnce(views: seq<nat>, b: Ballot, pid: nat)
    requires Distinct(views)
    ensures forall k :: k in Broadcast(views, b, pid) ==>
      k.StartViewChange? && k.b == b && k.src == pid && k.dst != pid && k.dst in views
    ensures forall k :: multiset(Broadcast(views, b, pid))[k] <= 1
  {
    if views != [] {
      var front, last := views[..|views| - 1], views[|views| - 1];
      BroadcastOnce(front, b, pid);
      assert last !in front;
      assert views == front + [last];
    }
  }

  /** A packet that `p` sends now for the first and only time. */
  ghost predicate Unseen(s: System, p: nat, k: Packet)
    requires WellFormed(s) && p in s.procs
  {
    && k.src == p
    && (k.StartViewChange? ==> k.b.n !in s.joined[p])
    && (k.DoViewChange? ==> !Past(s.procs[p], k.b.n))
  }

  ghost predicate SameProc(s: System, s': System, q: nat)
    requires WellFormed(s) && WellFormed(s') && q in s.procs && q in s'.procs
  {
    && s'.procs[q] == s.procs[q] && s'.joined[q] == s.joined[q]
    && s'.counted[q] == s.counted[q] && s'.announced[q] == s.announced[q]
  }

  /** What every step of `p` keeps for the others: it only adds history, and the packets
      it adds are unseen. */
  ghost predicate Local(s: System, s': System, p: nat) {
    && WellFormed(s) && WellFormed(s') && p in s.procs
    && s'.views == s.views && s'.procs.Keys == s.procs.Keys
    && (forall q :: q in s.procs && q != p ==> SameProc(s, s', q))
    && s.joined[p] <= s'.joined[p]
    && (forall n: nat :: Past(s.procs[p], n) ==> Past(s'.procs[p], n))
    && forall k :: k in s'.net ==>
         (k in s.net && s'.net[k] <= s.net[k]) || (Unseen(s, p, k) && PacketInv(s', k))
  }

  lemma PacketsKept(s: System, s': System, p: nat)
    requires Inv(s) && Local(s, s', p)
    ensures forall k :: k in s'.net ==> PacketInv(s', k)
  {
    hide BallotOf, Distinct, Members, HistoryInv, CounterInv, ProcInv, Unseen, MajorityOf;
    forall k | k in s'.net
      ensures PacketInv(s', k)
    {
      if k in s.net && s'.net[k] <= s.net[k] {
        assert PacketInv(s, k);
      }
    }
  }

  lemma CountsElsewhere(s: System, s': System, p: nat, q: nat, r: nat)
    requires Inv(s) && Local(s, s', p) && q in s.procs && q != p && Counts(s, q, r)
    ensures Counts(s', q, r)
  {
    hide BallotOf, Distinct, Members, HistoryInv, MajorityOf, PacketInv, CounterInv;
    assert ProcInv(s, q) && SameProc(s, s', q);
    assert r != p ==> SameProc(s, s', r);
  }

  /** What a step of `p` leaves to `q`, and what was known of `q`. */
  lemma LocalSame(s: System, s': System, p: nat, q: nat)
    requires Inv(s) && Local(s, s', p) && q in s.procs && q != p
    ensures WellFormed(s) && WellFormed(s') && s'.views == s.views && q in s'.procs && SameProc(s, s', q)
    ensures ProcInv(s, q) && CounterInv(s, q)
  {
    hide Distinct, Members, HistoryInv, CounterInv, ProcInv, PacketInv, Unseen, Past, SameProc;
  }

  lemma OthersKept(s: System, s': System, p: nat, q: nat)
    requires Inv(s) && Local(s, s', p) && q in s.procs && q != p
    ensures ProcInv(s', q) && CounterInv(s', q)
  {
    hide Inv, Local, BallotOf, Counts, Distinct, Members;
    LocalSame(s, s', p, q);
    forall r | r in s.counted[q] && !s.procs[q].status.Elected?
      ensures Counts(s', q, r)
    {
      CountsElsewhere(s, s', p, q, r);
    }
  }

  lemma JoinersGrow(s: System, s': System, p: nat, n: nat)
    requires Local(s, s', p)
    ensures Joiners(s, n) <= Joiners(s', n) && |Joiners(s, n)| <= |Joiners(s', n)|
  {
    hide Distinct, Members, PacketInv, Unseen, Past;
    forall q | q in Joiners(s, n)
      ensures q in Joiners(s', n)
    {
      assert q != p ==> SameProc(s, s', q);
    }
    SubsetSize(Joiners(s, n), Joiners(s', n));
  }

  lemma AnnouncementsKept(s: System, s': System, p: nat, q: nat)
    requires Inv(s) && Local(s, s', p) && q in s.procs
    ensures forall b :: b in s.announced[q] ==> AnnouncementInv(s', q, b)
  {
    hide BallotOf, Distinct, Members, CounterInv, ProcInv, PacketInv, Unseen, MajorityOf, Past, Joiners;
    assert HistoryInv(s, q);
    forall b | b in s.announced[q]
      ensures AnnouncementInv(s', q, b)
    {
      assert AnnouncementInv(s, q, b);
      JoinersGrow(s, s', p, b.n);
    }
  }

  lemma OthersHistory(s: System, s': System, p: nat, q: nat)
    requires Inv(s) && Local(s, s', p) && q in s.procs && q != p
    ensures HistoryInv(s', q)
  {
    hide BallotOf, Distinct, Members, CounterInv, ProcInv, PacketInv, Unseen, MajorityOf, Past, AnnouncementInv;
    AnnouncementsKept(s, s', p, q);
    assert HistoryInv(s, q) && SameProc(s, s', q);
  }

  /** It remains to look at the process that moved. */
  lemma LocalKeepsInv(s: System, s': System, p: nat)
    requires Inv(s) && Local(s, s', p) && ProcInv(s', p) && CounterInv(s', p) && HistoryInv(s', p)
    ensures Inv(s')
  {
    hide BallotOf, Distinct, Members, CounterInv, ProcInv, PacketInv, HistoryInv, SameProc, Unseen, Past;
    PacketsKept(s, s', p);
    forall q | q in s'.procs && q != p
      ensures ProcInv(s', q) && CounterInv(s', q) && HistoryInv(s', q)
    {
      OthersKept(s, s', p, q);
      OthersHistory(s, s', p, q);
    }
  }

  // ----- the kinds of step -------------------------------------------------------------

  /** The history of `p` stays in order when nothing is announced. */
  lemma SilentHistory(s: System, s': System, p: nat)
    requires Inv(s) && Local(s, s', p) && s'.announced == s.announced
    ensures HistoryInv(s', p)
  {
    hide Inv, Local, BallotOf, Distinct, Members, MajorityOf, AnnouncementInv;
    OwnHistory(s, s', p);
    AnnouncementsKept(s, s', p, p);
    var a := s.announced[p];
    if a != [] {
      PastKept(s, s', p, a[|a| - 1].n);
    }
  }

  lemma OwnHistory(s: System, s': System, p: nat)
    requires Inv(s) && Local(s, s', p)
    ensures WellFormed(s) && WellFormed(s') && p in s.procs && p in s'.procs && HistoryInv(s, p)
  {
    hide BallotOf, Distinct, Members, CounterInv, ProcInv, PacketInv, Unseen, HistoryInv;
  }

  lemma PastKept(s: System, s': System, p: nat, n: nat)
    requires Local(s, s', p) && Past(s.procs[p], n)
    ensures p in s'.procs && Past(s'.procs[p], n)
  {
    hide Distinct, Members, PacketInv, Unseen, Past;
  }

  predicate Advances(st: VrState, st': VrState) {
    st'.view > st.view || (st'.view == st.view && (st.status.Elected? ==> st'.status.Elected?))
  }

  ghost predicate PacketsLocal(s: System, s': System, p: nat)
    requires WellFormed(s) && WellFormed(s') && p in s.procs
  {
    forall k :: k in s'.net ==> (k in s.net && s'.net[k] <= s.net[k]) || (Unseen(s, p, k) && PacketInv(s', k))
  }

  lemma MovedFacts(s: System, p: nat, st': VrState, net: multiset<Packet>, src: nat)
    requires WellFormed(s) && p in s.procs
    ensures
      var s' := Moved(s, p, st', net, src);
      && WellFormed(s') && s'.views == s.views && s'.procs.Keys == s.procs.Keys && s'.net == net
      && s'.procs[p] == st' && s'.announced == s.announced
      && s'.joined[p] == (if st'.view > s.procs[p].view then s.joined[p] + {st'.view} else s.joined[p])
      && s'.counted[p] == CountedAfter(s.procs[p], st', s.counted[p], p, src)
      && forall q :: q in s.procs && q != p ==> SameProc(s, s', q)
  {
    hide Distinct, Members, CountedAfter;
  }

  lemma MovedIsLocal(s: System, p: nat, st': VrState, net: multiset<Packet>, src: nat)
    requires WellFormed(s) && p in s.procs && Advances(s.procs[p], st')
    requires WellFormed(Moved(s, p, st', net, src)) && PacketsLocal(s, Moved(s, p, st', net, src), p)
    ensures Local(s, Moved(s, p, st', net, src), p)
  {
    MovedFacts(s, p, st', net, src);
    hide Distinct, Members, CountedAfter, Moved, Unseen, PacketInv, SameProc;
  }

  lemma FewerPackets(s: System, s': System, p: nat)
    requires WellFormed(s) && WellFormed(s') && p in s.procs && s'.net <= s.net
    ensures PacketsLocal(s, s', p)
  {
    hide WellFormed, Unseen, PacketInv;
  }

  /** The counter of `p` survives a step that keeps its status. */
  lemma SameCounter(s: System, s': System, p: nat)
    requires Inv(s) && Local(s, s', p) && s'.counted[p] == s.counted[p] && s'.net <= s.net
    requires s'.procs[p].status == s.procs[p].status && s'.procs[p].view == s.procs[p].view
    ensures CounterInv(s', p)
  {
    hide BallotOf, Distinct, Members, HistoryInv, MajorityOf, ProcInv, PacketInv;
    assert CounterInv(s, p);
    forall q | q in s.counted[p] && !s.procs[p].status.Elected?
      ensures Counts(s', p, q)
    {
      assert Counts(s, p, q);
      assert q != p ==> SameProc(s, s', q);
    }
  }

  lemma QuietStep(s: System, p: nat, st': VrState, net: multiset<Packet>, src: nat)
    requires Inv(s) && p in s.procs && st'.status == s.procs[p].status && st'.view == s.procs[p].view && net <= s.net
    ensures Inv(Moved(s, p, st', net, src))
  {
    hide BallotOf, Distinct, Members, HistoryInv, MajorityOf, Local, CounterInv, PacketsLocal, Moved, SameProc,
      PacketInv;
    var s' := Moved(s, p, st', net, src);
    MovedFacts(s, p, st', net, src);
    FewerPackets(s, s', p);
    MovedIsLocal(s, p, st', net, src);
    assert ProcInv(s, p);
    SameCounter(s, s', p);
    SilentHistory(s, s', p);
    LocalKeepsInv(s, s', p);
  }

  lemma UnseenIsNew(s: System, p: nat, k: Packet)
    requires Inv(s) && p in s.procs && Unseen(s, p, k)
    ensures k !in s.net
  {
    hide BallotOf, Distinct, Members, HistoryInv, CounterInv, ProcInv, MajorityOf, Past;
  }

  lemma JoinPackets(s: System, s': System, p: nat, b: Ballot, net: multiset<Packet>)
    requires Inv(s) && p in s.procs && b.n > s.procs[p].view && b == BallotOf(s.views, b.n) && net <= s.net
    requires WellFormed(s') && s'.net == net + multiset(Broadcast(s.views, b, p)) && s'.views == s.views
    requires p in s'.procs && b.n in s'.joined[p]
    ensures PacketsLocal(s, s', p)
  {
    hide BallotOf, Distinct, Members, HistoryInv, CounterInv, MajorityOf, Broadcast;
    BroadcastOnce(s.views, b, p);
    var out := Broadcast(s.views, b, p);
    assert ProcInv(s, p);
    forall k | k in s'.net
      ensures (k in s.net && s'.net[k] <= s.net[k]) || (Unseen(s, p, k) && PacketInv(s', k))
    {
      assert s'.net[k] == net[k] + multiset(out)[k];
      if k in out {
        UnseenIsNew(s, p, k);
      }
    }
  }

  lemma JoinCounter(s: System, p: nat)
    requires WellFormed(s) && p in s.procs && s.counted[p] == {p} && !s.procs[p].status.Elected?
    requires s.procs[p].status.count == 1 && s.procs[p].view in s.joined[p]
    ensures CounterInv(s, p)
  {
  }

  lemma JoinStep(s: System, p: nat, b: Ballot, net: multiset<Packet>, src: nat)
    requires Inv(s) && p in s.procs && b.n > s.procs[p].view && b == BallotOf(s.views, b.n) && net <= s.net
    ensures
      var (st', out) := Join(s.views, p, s.procs[p], b);
      Inv(Moved(s, p, st', net + multiset(out), src))
  {
    hide BallotOf, Distinct, Members, HistoryInv, MajorityOf, Local, CounterInv, PacketsLocal, Moved, SameProc,
      PacketInv, Broadcast;
    var (st', out) := Join(s.views, p, s.procs[p], b);
    var s' := Moved(s, p, st', net + multiset(out), src);
    MovedFacts(s, p, st', net + multiset(out), src);
    JoinPackets(s, s', p, b, net);
    MovedIsLocal(s, p, st', net + multiset(out), src);
    assert ProcInv(s, p);
    JoinCounter(s', p);
    SilentHistory(s, s', p);
    LocalKeepsInv(s, s', p);
  }

  /** The packet `k` is one that the counter of `p` counts. */
  ghost predicate Countable(s: System, p: nat, k: Packet)
    requires WellFormed(s) && p in s.procs
  {
    && k in s.net && k.dst == p && k.b == s.procs[p].status.b
    && ((k.StartViewChange? && s.procs[p].status.Changing?) || (k.DoViewChange? && s.procs[p].status.Candidate?))
  }

  lemma NotYetCounted(s: System, p: nat, k: Packet)
    requires Inv(s) && p in s.procs && Countable(s, p, k)
    ensures k.src !in s.counted[p] && k.src in s.procs && k.src != p
    ensures s.procs[p].view in s.joined[k.src] && k.b.n == s.procs[p].view
    ensures k.DoViewChange? ==> Past(s.procs[k.src], k.b.n)
    ensures s.net[k] == 1
  {
    hide BallotOf, Distinct, Members, HistoryInv, MajorityOf, Past;
    assert CounterInv(s, p) && ProcInv(s, p) && PacketInv(s, k);
    assert k.src in s.counted[p] ==> Counts(s, p, k.src);
  }

  lemma CountsStill(s: System, s': System, p: nat, k: Packet, q: nat)
    requires Inv(s) && Local(s, s', p) && Countable(s, p, k) && s'.net == s.net - multiset{k}
    requires s'.procs[p].view == s.procs[p].view && s'.procs[p].status.b == s.procs[p].status.b
    requires s'.procs[p].status.Changing? == s.procs[p].status.Changing?
    requires s'.procs[p].status.Candidate? == s.procs[p].status.Candidate?
    requires q == k.src || q in s.counted[p]
    ensures Counts(s', p, q)
  {
    hide BallotOf, Distinct, Members, HistoryInv, MajorityOf, PacketInv, ProcInv, Past;
    NotYetCounted(s, p, k);
    assert q != p ==> SameProc(s, s', q);
    assert CounterInv(s, p);
    assert q in s.counted[p] ==> Counts(s, p, q);
  }

  /** A packet from another process raises the counter. */
  lemma CounterGrows(s: System, s': System, p: nat, k: Packet)
    requires Inv(s) && WellFormed(s') && p in s.procs && p in s'.procs && Local(s, s', p) && Countable(s, p, k) &&
      s'.net == s.net - multiset{k}
    requires s'.procs[p].view == s.procs[p].view
    requires !s.procs[p].status.Elected?
    requires s'.procs[p].status == s.procs[p].status.(count := s.procs[p].status.count + 1)
    requires s'.counted[p] == s.counted[p] + {k.src}
    ensures CounterInv(s', p)
  {
    hide BallotOf, Distinct, Members, HistoryInv, MajorityOf, PacketInv, ProcInv, Past, Counts, Local, Countable;
    NotYetCounted(s, p, k);
    assert CounterInv(s, p);
    forall q | q in s'.counted[p]
      ensures Counts(s', p, q)
    {
      CountsStill(s, s', p, k, q);
    }
  }

  lemma CounterPositive(s: System, p: nat)
    requires Inv(s) && p in s.procs && !s.procs[p].status.Elected?
    ensures s.procs[p].status.count >= 1 && ProcInv(s, p)
  {
    hide Counts, Distinct, Members, HistoryInv, PacketInv, BallotOf;
    assert CounterInv(s, p);
  }

  /** A step that counts a packet and changes nothing else. */
  lemma CountStep(s: System, p: nat, k: Packet)
    requires Inv(s) && p in s.procs && Countable(s, p, k) && !s.procs[p].status.Elected?
    ensures
      var st := s.procs[p];
      Inv(Moved(s, p, st.(status := st.status.(count := st.status.count + 1)), s.net - multiset{k}, k.src))
  {
    hide BallotOf, Distinct, Members, HistoryInv, MajorityOf, Local, PacketsLocal, Moved, SameProc, PacketInv,
      Counts, Countable, CounterInv, Inv;
    var st := s.procs[p];
    InvWellFormed(s);
    var st' := st.(status := st.status.(count := st.status.count + 1));
    var net := s.net - multiset{k};
    var s' := Moved(s, p, st', net, k.src);
    CounterPositive(s, p);
    MovedFacts(s, p, st', net, k.src);
    FewerPackets(s, s', p);
    MovedIsLocal(s, p, st', net, k.src);
    CounterGrows(s, s', p, k);
    SilentHistory(s, s', p);
    LocalKeepsInv(s, s', p);
  }

  /** The candidate of the view has seen enough start packets. */
  lemma CandidateStep(s: System, p: nat, net: multiset<Packet>, src: nat)
    requires Inv(s) && p in s.procs && s.procs[p].status.Changing? && s.procs[p].status.b.pid == p && net <= s.net
    ensures
      var st := s.procs[p];
      Inv(Moved(s, p, st.(status := Candidate(st.status.b, 1)), net, src))
  {
    hide BallotOf, Distinct, Members, HistoryInv, MajorityOf, Local, PacketsLocal, Moved, SameProc, PacketInv,
      CounterInv;
    var st := s.procs[p];
    var st' := st.(status := Candidate(st.status.b, 1));
    var s' := Moved(s, p, st', net, src);
    MovedFacts(s, p, st', net, src);
    FewerPackets(s, s', p);
    MovedIsLocal(s, p, st', net, src);
    assert ProcInv(s, p);
    JoinCounter(s', p);
    SilentHistory(s, s', p);
    LocalKeepsInv(s, s', p);
  }

  lemma FollowPackets(s: System, s': System, p: nat, b: Ballot, net: multiset<Packet>)
    requires Inv(s) && p in s.procs && s.procs[p].status.Changing? && s.procs[p].status.b == b && b.pid != p
    requires net <= s.net && WellFormed(s') && s'.views == s.views && p in s'.procs && s'.joined[p] == s.joined[p]
    requires s'.net == net + multiset{DoViewChange(b.pid, b, p)}
    requires s'.procs[p].view == s.procs[p].view && s'.procs[p].status.Elected?
    ensures PacketsLocal(s, s', p)
  {
    hide BallotOf, Distinct, Members, HistoryInv, CounterInv, MajorityOf;
    var sent := DoViewChange(b.pid, b, p);
    assert ProcInv(s, p);
    UnseenIsNew(s, p, sent);
    forall k | k in s'.net
      ensures (k in s.net && s'.net[k] <= s.net[k]) || (Unseen(s, p, k) && PacketInv(s', k))
    {
      assert s'.net[k] == net[k] + if k == sent then 1 else 0;
    }
  }

  /** Another process has seen enough start packets and follows the view's candidate. */
  lemma FollowStep(s: System, p: nat, net: multiset<Packet>, src: nat)
    requires Inv(s) && p in s.procs && s.procs[p].status.Changing? && s.procs[p].status.b.pid != p && net <= s.net
    ensures
      var st, b := s.procs[p], s.procs[p].status.b;
      Inv(Moved(s, p, st.(status := Elected(b), alive := false), net + multiset{DoViewChange(b.pid, b, p)}, src))
  {
    hide BallotOf, Distinct, Members, HistoryInv, MajorityOf, Local, PacketsLocal, Moved, SameProc, PacketInv,
      Counts;
    var st, b := s.procs[p], s.procs[p].status.b;
    var st' := st.(status := Elected(b), alive := false);
    var net' := net + multiset{DoViewChange(b.pid, b, p)};
    var s' := Moved(s, p, st', net', src);
    MovedFacts(s, p, st', net', src);
    FollowPackets(s, s', p, b, net);
    MovedIsLocal(s, p, st', net', src);
    assert ProcInv(s, p);
    SilentHistory(s, s', p);
    LocalKeepsInv(s, s', p);
  }

  // ----- announcing -------------------------------------------------------------------

  /** The processes behind the counter and the sender of the last packet joined. */
  lemma EnoughJoined(s: System, p: nat, k: Packet)
    requires Inv(s) && p in s.procs && Countable(s, p, k) && s.procs[p].status.Candidate?
    requires s.procs[p].status.count + 1 == MajorityOf(s.views)
    ensures p in Joiners(s, k.b.n) && |Joiners(s, k.b.n)| >= MajorityOf(s.views)
  {
    hide BallotOf, Distinct, Members, HistoryInv, MajorityOf, PacketInv, ProcInv, Past, Countable;
    NotYetCounted(s, p, k);
    assert CounterInv(s, p);
    var voters := s.counted[p] + {k.src};
    forall q | q in voters
      ensures q in Joiners(s, k.b.n)
    {
      assert q in s.counted[p] ==> Counts(s, p, q);
    }
    SubsetSize(voters, Joiners(s, k.b.n));
  }

  lemma AnnounceStep(s: System, p: nat, k: Packet)
    requires Inv(s) && p in s.procs && Countable(s, p, k) && s.procs[p].status.Candidate?
    requires s.procs[p].status.count + 1 == MajorityOf(s.views)
    ensures
      var st' := s.procs[p].(status := Elected(k.b), alive := true, latest := k.b);
      Inv(Moved(s, p, st', s.net - multiset{k}, k.src).(announced := s.announced[p := s.announced[p] + [k.b]]))
  {
    hide Inv, BallotOf, Distinct, Members, MajorityOf, Local, PacketsLocal, Moved, SameProc, Countable, Joiners,
      AnnouncementInv, HistoryInv;
    var st' := s.procs[p].(status := Elected(k.b), alive := true, latest := k.b);
    var net := s.net - multiset{k};
    InvWellFormed(s);
    var mid := Moved(s, p, st', net, k.src);
    CandidateFacts(s, p, k);
    MovedFacts(s, p, st', net, k.src);
    FewerPackets(s, mid, p);
    MovedIsLocal(s, p, st', net, k.src);
    SilentHistory(s, mid, p);
    LocalKeepsInv(s, mid, p);
    NewerAnnouncement(s, p, k.b);
    MajorityAnnounces(s, mid, p, k);
    Announce(mid, p, k.b);
  }

  lemma CandidateFacts(s: System, p: nat, k: Packet)
    requires Inv(s) && p in s.procs && Countable(s, p, k) && s.procs[p].status.Candidate?
    ensures k.b == s.procs[p].status.b && k.b.n == s.procs[p].view && k.b.pid == p && k.b == BallotOf(s.views, k.b.n)
    ensures ProcInv(s, p) && HistoryInv(s, p)
  {
    hide BallotOf, Distinct, Members, HistoryInv, PacketInv, CounterInv;
    assert ProcInv(s, p) && HistoryInv(s, p);
  }

  lemma MajorityAnnounces(s: System, s': System, p: nat, k: Packet)
    requires Inv(s) && Local(s, s', p) && Countable(s, p, k) && s.procs[p].status.Candidate?
    requires s.procs[p].status.count + 1 == MajorityOf(s.views) && k.b.pid == p && k.b == BallotOf(s.views, k.b.n)
    ensures AnnouncementInv(s', p, k.b)
  {
    hide Inv, BallotOf, Distinct, Members, MajorityOf, Countable, Joiners, PacketInv, Unseen, SameProc, Past;
    EnoughJoined(s, p, k);
    JoinersGrow(s, s', p, k.b.n);
  }

  lemma NewerAnnouncement(s: System, p: nat, b: Ballot)
    requires WellFormed(s) && p in s.procs && HistoryInv(s, p) && !s.procs[p].status.Elected? && b.n == s.procs[p].view
    ensures forall i :: 0 <= i < |s.announced[p]| ==> s.announced[p][i].n < b.n
  {
    hide AnnouncementInv, Distinct, Members;
    var a := s.announced[p];
    forall i | 0 <= i < |a|
      ensures a[i].n < b.n
    {
      assert i < |a| - 1 ==> a[i].n < a[|a| - 1].n;
    }
  }

  lemma RecordKeepsRest(s: System, p: nat, a: seq<Ballot>, q: nat)
    requires Inv(s) && p in s.procs && q in s.procs
    ensures
      var s' := s.(announced := s.announced[p := a]);
      WellFormed(s') && ProcInv(s', q) && CounterInv(s', q)
  {
    hide BallotOf, Distinct, Members, MajorityOf, Past, HistoryInv, PacketInv;
    var s' := s.(announced := s.announced[p := a]);
    assert ProcInv(s, q) && CounterInv(s, q);
    forall r | r in s.counted[q] && !s.procs[q].status.Elected?
      ensures Counts(s', q, r)
    {
      assert Counts(s, q, r);
    }
  }

  lemma RecordKeepsPackets(s: System, p: nat, a: seq<Ballot>, k: Packet)
    requires Inv(s) && p in s.procs && k in s.net
    ensures
      var s' := s.(announced := s.announced[p := a]);
      WellFormed(s') && PacketInv(s', k)
  {
    hide BallotOf, Distinct, Members, MajorityOf, Past, HistoryInv, CounterInv, ProcInv;
    assert PacketInv(s, k);
  }

  lemma RecordKeepsHistory(s: System, p: nat, b: Ballot, q: nat)
    requires WellFormed(s) && q in s.procs && HistoryInv(s, q)
    requires p in s.procs && s.procs[p].status.Elected? && s.procs[p].view == b.n
    requires AnnouncementInv(s, p, b) && forall i :: 0 <= i < |s.announced[p]| ==> s.announced[p][i].n < b.n
    ensures
      var s' := s.(announced := s.announced[p := s.announced[p] + [b]]);
      WellFormed(s') && HistoryInv(s', q)
  {
    hide BallotOf, Distinct, Members, MajorityOf;
    var s' := s.(announced := s.announced[p := s.announced[p] + [b]]);
    forall c | c in s'.announced[q]
      ensures AnnouncementInv(s', q, c)
    {
      assert AnnouncementInv(s, q, c);
      assert Joiners(s', c.n) == Joiners(s, c.n);
    }
  }

  /** Recording an announcement. */
  lemma Announce(s: System, p: nat, b: Ballot)
    requires Inv(s) && p in s.procs && s.procs[p].status.Elected? && s.procs[p].view == b.n
    requires AnnouncementInv(s, p, b) && forall i :: 0 <= i < |s.announced[p]| ==> s.announced[p][i].n < b.n
    ensures Inv(s.(announced := s.announced[p := s.announced[p] + [b]]))
  {
    hide BallotOf, Distinct, Members, MajorityOf, Past, HistoryInv, CounterInv, ProcInv, PacketInv,
      AnnouncementInv;
    var s' := s.(announced := s.announced[p := s.announced[p] + [b]]);
    assert WellFormed(s');
    forall q | q in s'.procs
      ensures ProcInv(s', q) && CounterInv(s', q) && HistoryInv(s', q)
    {
      RecordKeepsRest(s, p, s.announced[p] + [b], q);
      RecordKeepsHistory(s, p, b, q);
    }
    forall k | k in s'.net
      ensures PacketInv(s', k)
    {
      RecordKeepsPackets(s, p, s.announced[p] + [b], k);
    }
  }

  // ----- every step, every run -----------------------------------------------------------

  lemma TimeoutKeepsInv(s: System, p: nat, b: Ballot)
    requires Inv(s) && p in s.procs
    ensures
      var (st', out) := HandleTimeout(s.views, p, s.procs[p], b);
      Inv(Moved(s, p, st', s.net + multiset(out), p))
  {
    hide Distinct, Members, HistoryInv, MajorityOf, PacketInv, CounterInv, Moved, Broadcast, ProcInv;
    var st := s.procs[p];
    if st.status == Elected(b) && !st.alive {
      JoinStep(s, p, BallotOf(s.views, st.view + 1), s.net, p);
    } else {
      var (st', out) := HandleTimeout(s.views, p, st, b);
      assert s.net + multiset(out) == s.net;
      QuietStep(s, p, st', s.net, p);
    }
  }

  lemma PacketBallot(s: System, p: nat, k: Packet)
    requires Inv(s) && p in s.procs && k in s.net
    ensures k.b == BallotOf(s.views, k.b.n) && s.procs[p].status.b.n == s.procs[p].view
  {
    hide BallotOf, Distinct, Members, HistoryInv, CounterInv, MajorityOf;
    assert PacketInv(s, k) && ProcInv(s, p);
  }

  lemma StartKeepsInv(s: System, p: nat, k: Packet)
    requires Inv(s) && p in s.procs && k in s.net && k.StartViewChange? && k.dst == p
    ensures
      var (st', out) := HandleStart(s.views, p, s.procs[p], k.b);
      Inv(Moved(s, p, st', s.net - multiset{k} + multiset(out), k.src))
  {
    hide BallotOf, Distinct, Members, HistoryInv, PacketInv, CounterInv, Moved, Broadcast, ProcInv, MajorityOf,
      Inv;
    var st := s.procs[p];
    var (st', out) := HandleStart(s.views, p, st, k.b);
    var net := s.net - multiset{k};
    PacketBallot(s, p, k);
    if k.b.n > st.status.b.n {
      JoinStep(s, p, k.b, net, k.src);
    } else if !st.status.Changing? || st.status.b != k.b {
      assert net + multiset(out) == net;
      QuietStep(s, p, st', net, k.src);
    } else if st.status.count + 1 != MajorityOf(s.views) {
      assert net + multiset(out) == net;
      assert st' == st.(status := st.status.(count := st.status.count + 1));
      CountStep(s, p, k);
    } else if k.b.pid == p {
      assert net + multiset(out) == net;
      CandidateStep(s, p, net, k.src);
    } else {
      assert multiset(out) == multiset{DoViewChange(k.b.pid, k.b, p)};
      FollowStep(s, p, net, k.src);
    }
  }

  lemma DoKeepsInv(s: System, p: nat, k: Packet)
    requires Inv(s) && p in s.procs && k in s.net && k.DoViewChange? && k.dst == p
    ensures
      var (st', ann) := HandleDo(s.views, s.procs[p], k.b);
      var s' := Moved(s, p, st', s.net - multiset{k}, k.src);
      Inv(if ann.Some? then s'.(announced := s.announced[p := s.announced[p] + [ann.value]]) else s')
  {
    hide BallotOf, Distinct, Members, HistoryInv, PacketInv, CounterInv, Moved, ProcInv, MajorityOf;
    var st := s.procs[p];
    if !st.status.Candidate? || st.status.b != k.b {
      QuietStep(s, p, st, s.net - multiset{k}, k.src);
    } else if st.status.count + 1 != MajorityOf(s.views) {
      assert HandleDo(s.views, st, k.b).0 == st.(status := st.status.(count := st.status.count + 1));
      CountStep(s, p, k);
    } else {
      AnnounceStep(s, p, k);
    }
  }

  lemma StepKeepsInv(s: System, s': System)
    requires Inv(s) && Step(s, s')
    ensures Inv(s') && s'.views == s.views
  {
    hide HistoryInv, PacketInv, CounterInv, ProcInv, Inv, HandleTimeout, HandleStart, HandleDo, Distinct, Members;
    var a :| Enabled(s, a) && s' == Apply(s, a);
    match a {
      case Timeout(p, b) => TimeoutKeepsInv(s, p, b);
      case Reply(p, b) => QuietStep(s, p, HandleHbReply(s.procs[p], b), s.net, p);
      case GetStart(p, k) => StartKeepsInv(s, p, k);
      case GetDo(p, k) => DoKeepsInv(s, p, k);
    }
  }

  lemma InitInv(s: System)
    requires Init(s)
    ensures Inv(s)
  {
  }

  lemma {:induction false} RunKeepsInv(run: seq<System>, i: nat)
    requires IsRun(run) && i < |run|
    ensures Inv(run[i]) && run[i].views == run[0].views
  {
    hide Inv, Step, Init;
    if i == 0 {
      InitInv(run[0]);
    } else {
      RunKeepsInv(run, i - 1);
      assert Step(run[i - 1], run[i]);
      StepKeepsInv(run[i - 1], run[i]);
    }
  }

  // ----- view safety --------------------------------------------------------------------

  /** A process announces itself leader of a view only after a majority of the
      processes, itself included, joined that view. */
  lemma AnnouncedAfterMajority(run: seq<System>, i: nat, p: nat, b: Ballot)
    requires IsRun(run) && i < |run|
    ensures WellFormed(run[i])
    ensures p in run[i].announced && b in run[i].announced[p] ==>
      && b.pid == p
      && p in Joiners(run[i], b.n) && Joiners(run[i], b.n) <= run[i].procs.Keys
      && 2 * |Joiners(run[i], b.n)| > |run[0].views|
  {
    RunKeepsInv(run, i);
    hide Inv, IsRun, Joiners;
    InvWellFormed(run[i]);
    if p in run[i].announced && b in run[i].announced[p] {
      AnnouncementMeaning(run[i], p, b);
    }
  }

  lemma InvWellFormed(s: System)
    requires Inv(s)
    ensures WellFormed(s)
  {
  }

  lemma AnnouncementMeaning(s: System, p: nat, b: Ballot)
    requires Inv(s) && p in s.announced && b in s.announced[p]
    ensures b.pid == p && b == BallotOf(s.views, b.n)
    ensures p in Joiners(s, b.n) && Joiners(s, b.n) <= s.procs.Keys && 2 * |Joiners(s, b.n)| > |s.views|
  {
    hide Distinct, Members, PacketInv, CounterInv, ProcInv, BallotOf;
    assert HistoryInv(s, p);
    assert AnnouncementInv(s, p, b);
  }

  /** No two processes ever announce the same view. */
  lemma ViewsHaveOneLeader(run: seq<System>, i: nat, j: nat, p: nat, q: nat, b: Ballot, c: Ballot)
    requires IsRun(run) && i < |run| && j < |run|
    requires p in run[i].announced && b in run[i].announced[p]
    requires q in run[j].announced && c in run[j].announced[q]
    requires b.n == c.n
    ensures p == q && b == c
  {
    RunKeepsInv(run, i);
    RunKeepsInv(run, j);
    hide Inv, IsRun;
    AnnouncementMeaning(run[i], p, b);
    AnnouncementMeaning(run[j], q, c);
  }

  /** The views that a process announces strictly increase. */
  lemma AnnouncedViewsIncrease(run: seq<System>, i: nat, p: nat, x: nat, y: nat)
    requires IsRun(run) && i < |run| && p in run[i].announced && x < y < |run[i].announced[p]|
    ensures run[i].announced[p][x].n < run[i].announced[p][y].n
  {
    RunKeepsInv(run, i);
    hide Distinct, Members, PacketInv, CounterInv, ProcInv, BallotOf, IsRun, AnnouncementInv;
    assert HistoryInv(run[i], p);
  }

  lemma {:induction false} MembersCount(views: seq<nat>)
    requires Distinct(views)
    ensures |Members(views)| == |views|
  {
    if views != [] {
      var front, last := views[..|views| - 1], views[|views| - 1];
      MembersCount(front);
      assert views == front + [last];
      assert last !in front;
      assert Members(views) == Members(front) + {last};
    }
  }

  lemma MajoritiesMeet(all: set<nat>, a: set<nat>, b: set<nat>)
    requires a <= all && b <= all && |a| + |b| > |all|
    ensures a * b != {}
  {
    SubsetSize(a + b, all);
    assert |a + b| == |a| + |b| - |a * b|;
  }

  /** Any two announced views were joined by a common process. */
  lemma AnnouncedViewsShareJoiner(run: seq<System>, i: nat, p: nat, q: nat, b: Ballot, c: Ballot) returns (common: nat)
    requires IsRun(run) && i < |run|
    requires p in run[i].announced && b in run[i].announced[p]
    requires q in run[i].announced && c in run[i].announced[q]
    ensures common in run[i].joined && b.n in run[i].joined[common] && c.n in run[i].joined[common]
  {
    AnnouncedAfterMajority(run, i, p, b);
    AnnouncedAfterMajority(run, i, q, c);
    RunKeepsInv(run, i);
    var s := run[i];
    MembersCount(s.views);
    hide IsRun, Inv, Distinct, Members;
    MajoritiesMeet(s.procs.Keys, Joiners(s, b.n), Joiners(s, c.n));
    common :| common in Joiners(s, b.n) * Joiners(s, c.n);
  }

  lemma MovedHistory(s: System, p: nat, st': VrState, net: multiset<Packet>, src: nat, q: nat, v: nat)
    requires WellFormed(s) && p in s.procs && q in s.procs
    ensures
      var s' := Moved(s, p, st', net, src);
      q in s'.joined && q in s'.procs && (v in s'.joined[q] ==> v in s.joined[q] || s'.procs[q].view == v)
  {
    MovedFacts(s, p, st', net, src);
    hide Distinct, Members, CountedAfter, Moved;
    var s' := Moved(s, p, st', net, src);
    assert q != p ==> SameProc(s, s', q);
  }

  lemma StepHistory(s: System, s': System, q: nat, v: nat)
    requires Step(s, s') && WellFormed(s) && q in s.procs
    ensures q in s'.joined && q in s'.procs && (v in s'.joined[q] ==> v in s.joined[q] || s'.procs[q].view == v)
  {
    hide Distinct, Members, CountedAfter, HandleTimeout, HandleStart, HandleDo, Moved;
    var a :| Enabled(s, a) && s' == Apply(s, a);
    var st := s.procs[a.p];
    match a {
      case Timeout(p, b) =>
        var (st', out) := HandleTimeout(s.views, p, st, b);
        MovedHistory(s, p, st', s.net + multiset(out), p, q, v);
      case Reply(p, b) => MovedHistory(s, p, HandleHbReply(st, b), s.net, p, q, v);
      case GetStart(p, k) =>
        var (st', out) := HandleStart(s.views, p, st, k.b);
        MovedHistory(s, p, st', s.net - multiset{k} + multiset(out), k.src, q, v);
      case GetDo(p, k) =>
        var (st', ann) := HandleDo(s.views, st, k.b);
        MovedHistory(s, p, st', s.net - multiset{k}, k.src, q, v);
    }
  }

  /** The history is what it says: a joined view is one the process was in. */
  lemma {:induction false} JoinedMeansEntered(run: seq<System>, i: nat, q: nat, v: nat) returns (j: nat)
    requires IsRun(run) && i < |run| && q in run[i].joined && v in run[i].joined[q]
    ensures j <= i && q in run[j].procs && run[j].procs[q].view == v
  {
    hide Inv, Step;
    j := i;
    if i > 0 {
      RunKeepsInv(run, i);
      RunKeepsInv(run, i - 1);
      assert Step(run[i - 1], run[i]);
      SameMembers(run[i - 1], run[i], q);
      hide Init, WellFormed;
      StepHistory(run[i - 1], run[i], q, v);
      if v in run[i - 1].joined[q] {
        j := JoinedMeansEntered(run, i - 1, q, v);
      }
    }
  }

  lemma SameMembers(s: System, s': System, q: nat)
    requires Inv(s) && Inv(s') && s'.views == s.views && q in s'.joined
    ensures WellFormed(s) && q in s.procs && q in s.joined
  {
    hide HistoryInv, PacketInv, CounterInv, ProcInv, Distinct;
  }

  // ----- heartbeat replies ------------------------------------------------------------------

  /** A process answers heartbeats with the ballot it announced last. */
  ghost predicate LatestInv(s: System, q: nat)
    requires q in s.procs && q in s.announced
  {
    var a := s.announced[q];
    AnswerHb(s.procs[q]) == if a == [] then DEFAULT_BALLOT else a[|a| - 1]
  }

  lemma MovedLatest(s: System, p: nat, st': VrState, net: multiset<Packet>, src: nat, q: nat)
    requires WellFormed(s) && p in s.procs && q in s.procs && LatestInv(s, q)
    ensures
      var s' := Moved(s, p, st', net, src);
      q in s'.procs && q in s'.announced && (q != p || st'.latest == s.procs[p].latest ==> LatestInv(s', q))
  {
    MovedFacts(s, p, st', net, src);
    hide Distinct, Members, CountedAfter, Moved;
    var s' := Moved(s, p, st', net, src);
    assert q != p ==> SameProc(s, s', q);
  }

  lemma DoLatest(s: System, p: nat, k: Packet, q: nat)
    requires Enabled(s, GetDo(p, k)) && q in s.procs && LatestInv(s, q)
    ensures var s' := Apply(s, GetDo(p, k)); q in s'.procs && q in s'.announced && LatestInv(s', q)
  {
    var (st', ann) := HandleDo(s.views, s.procs[p], k.b);
    var net := s.net - multiset{k};
    MovedLatest(s, p, st', net, k.src, q);
    MovedFacts(s, p, st', net, k.src);
    assert ann.Some? ==> st'.latest == ann.value;
    assert ann.None? ==> st'.latest == s.procs[p].latest;
    hide Distinct, Members, CountedAfter, Moved, HandleDo;
    var mid := Moved(s, p, st', net, k.src);
    if ann.Some? {
      assert Apply(s, GetDo(p, k)) == mid.(announced := s.announced[p := s.announced[p] + [ann.value]]);
    }
  }

  lemma StepLatest(s: System, s': System, q: nat)
    requires Step(s, s') && WellFormed(s) && q in s.procs && LatestInv(s, q)
    ensures q in s'.procs && q in s'.announced && LatestInv(s', q)
  {
    hide Distinct, Members, CountedAfter, Moved, Broadcast;
    var a :| Enabled(s, a) && s' == Apply(s, a);
    var st := s.procs[a.p];
    match a {
      case Timeout(p, b) =>
        var (st', out) := HandleTimeout(s.views, p, st, b);
        MovedLatest(s, p, st', s.net + multiset(out), p, q);
      case Reply(p, b) => MovedLatest(s, p, HandleHbReply(st, b), s.net, p, q);
      case GetStart(p, k) =>
        var (st', out) := HandleStart(s.views, p, st, k.b);
        MovedLatest(s, p, st', s.net - multiset{k} + multiset(out), k.src, q);
      case GetDo(p, k) => DoLatest(s, p, k, q);
    }
  }

  /** In every state of every run heartbeats are answered with the last announcement, so a
      process that follows ballot b hears its leader exactly while b is that. */
  lemma {:induction false} AnswersLastAnnouncement(run: seq<System>, i: nat, q: nat)
    requires IsRun(run) && i < |run| && q in run[i].procs
    ensures q in run[i].announced && LatestInv(run[i], q)
  {
    hide Inv, Step, LatestInv;
    RunKeepsInv(run, i);
    InvWellFormed(run[i]);
    if i == 0 {
      InitLatest(run[0], q);
    } else {
      RunKeepsInv(run, i - 1);
      assert Step(run[i - 1], run[i]);
      InvWellFormed(run[i - 1]);
      assert q in run[i - 1].procs by { SameMembers(run[i - 1], run[i], q); }
      hide Init;
      AnswersLastAnnouncement(run, i - 1, q);
      StepLatest(run[i - 1], run[i], q);
    }
  }

  lemma InitLatest(s: System, q: nat)
    requires Init(s) && q in s.procs
    ensures q in s.announced && LatestInv(s, q)
  {
    hide Distinct, Members;
  }
}
