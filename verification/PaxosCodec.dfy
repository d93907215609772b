/** The wire formats of Sequence Paxos and reconfiguration messages. */
module PaxosCodec {
  import opened Common
  import opened Bytes
  import opened WireFormat

  datatype Ballot = Ballot(n: U32, pid: U64)
  datatype Leader = Leader(pid: U64, round: Ballot)
  datatype StopSign = StopSign(configId: U32, nodes: seq<U64>, leader: Option<Leader>)
  datatype Entry = Normal(data: seq<Byte>) | Stop(ss: StopSign)

  datatype PaxosMsg =
    | PrepareReq
    | Prepare(n: Ballot, ld: U64, nAccepted: Ballot, la: U64)
    | Promise(n: Ballot, nAccepted: Ballot, sfx: seq<Entry>, ld: U64, la: U64)
    | AcceptSync(n: Ballot, entries: seq<Entry>, syncIdx: U64)
    | FirstAccept(n: Ballot, entries: seq<Entry>)
    | AcceptDecide(n: Ballot, ld: U64, entries: seq<Entry>)
    | Accepted(n: Ballot, la: U64)
    | Decide(ld: U64, n: Ballot)
    | ProposalForward(entries: seq<Entry>)

  datatype Message = Message(from: U64, to: U64, msg: PaxosMsg)

  // ----- lengths fit in 32 bits ------------------------------------------------------------

  predicate FitsEntry(e: Entry) {
    match e case Normal(d) => |d| < U32_BOUND case Stop(ss) => |ss.nodes| < U32_BOUND
  }

  predicate FitsEntries(es: seq<Entry>) {
    |es| < U32_BOUND && forall e :: e in es ==> FitsEntry(e)
  }

  predicate FitsMsg(m: PaxosMsg) {
    match m
    case Promise(_, _, sfx, _, _) => FitsEntries(sfx)
    case AcceptSync(_, es, _) => FitsEntries(es)
    case FirstAccept(_, es) => FitsEntries(es)
    case AcceptDecide(_, _, es) => FitsEntries(es)
    case ProposalForward(es) => FitsEntries(es)
    case _ => true
  }

  // ----- serialising -----------------------------------------------------------------------

  function PutBallot(b: Ballot, tail: seq<Byte>): seq<Byte> {
    PutU32(b.n, PutU64(b.pid, tail))
  }

  function PutLeader(l: Option<Leader>, tail: seq<Byte>): seq<Byte> {
    match l
    case Some(l) => PutU8(1, PutU64(l.pid, PutBallot(l.round, tail)))
    case None => PutU8(0, tail)
  }

  function PutPids(ps: seq<U64>, tail: seq<Byte>): seq<Byte> {
    PutList((p: U64, t) => PutU64(p, t), ps, tail)
  }

  function PutEntry(e: Entry, tail: seq<Byte>): seq<Byte> {
    match e
    case Normal(d) => PutU8(1, PutBytes(d, tail))
    case Stop(ss) => PutU8(2, PutU32(ss.configId, PutPids(ss.nodes, PutLeader(ss.leader, tail))))
  }

  function PutEntries(es: seq<Entry>, tail: seq<Byte>): seq<Byte> {
    PutList(PutEntry, es, tail)
  }

  function PutMsg(m: PaxosMsg, tail: seq<Byte>): seq<Byte> {
    match m
    case PrepareReq => PutU8(9, tail)
    case Prepare(n, ld, na, la) => PutU8(1, PutU64(ld, PutU64(la, PutBallot(n, PutBallot(na, tail)))))
    case Promise(n, na, sfx, ld, la) =>
      PutU8(2, PutU64(ld, PutU64(la, PutBallot(n, PutBallot(na, PutEntries(sfx, tail))))))
    case AcceptSync(n, es, idx) => PutU8(3, PutU64(idx, PutBallot(n, PutEntries(es, tail))))
    case FirstAccept(n, es) => PutU8(8, PutBallot(n, PutEntries(es, tail)))
    case AcceptDecide(n, ld, es) => PutU8(4, PutU64(ld, PutBallot(n, PutEntries(es, tail))))
    case Accepted(n, la) => PutU8(5, PutBallot(n, PutU64(la, tail)))
    case Decide(ld, n) => PutU8(6, PutBallot(n, PutU64(ld, tail)))
    case ProposalForward(es) => PutU8(7, PutEntries(es, tail))
  }

  function PutMessage(m: Message, tail: seq<Byte>): seq<Byte> {
    PutU64(m.from, PutU64(m.to, PutMsg(m.msg, tail)))
  }

  // ----- deserialising ---------------------------------------------------------------------

  function GetBallot(s: seq<Byte>): Parse<Ballot> {
    var (n, s1) :- GetU32(s);
    var (pid, s2) :- GetU64(s1);
    Parsed(Ballot(n, pid), s2)
  }

  function GetLeader(s: seq<Byte>): Parse<Option<Leader>> {
    var (tag, s1) :- GetU8(s);
    if tag == 1 then
      var (pid, s2) :- GetU64(s1);
      var (round, s3) :- GetBallot(s2);
      Parsed(Some(Leader(pid, round)), s3)
    else Parsed(None, s1)
  }

  function GetPids(s: seq<Byte>): (r: Parse<seq<U64>>)
    ensures r.Parsed? ==> |r.value| < U32_BOUND
  {
    GetList(GetU64, s)
  }

  function GetEntry(s: seq<Byte>): (r: Parse<Entry>)
    ensures r.Parsed? ==> FitsEntry(r.value)
  {
    var (tag, s1) :- GetU8(s);
    if tag == 1 then
      var (d, s2) :- GetBytes(s1);
      Parsed(Normal(d), s2)
    else if tag == 2 then
      var (configId, s2) :- GetU32(s1);
      var (nodes, s3) :- GetPids(s2);
      var (leader, s4) :- GetLeader(s3);
      Parsed(Stop(StopSign(configId, nodes, leader)), s4)
    else Panic
  }

  function GetEntries(s: seq<Byte>): (r: Parse<seq<Entry>>)
    ensures r.Parsed? ==> FitsEntries(r.value)
  {
    ListParsed(GetEntry, s, FitsEntry);
    GetList(GetEntry, s)
  }

  function GetMsg(s: seq<Byte>): (r: Parse<PaxosMsg>)
    ensures r.Parsed? ==> FitsMsg(r.value)
  {
    var (tag, s1) :- GetU8(s);
    if tag == 9 then Parsed(PrepareReq, s1)
    else if tag == 1 then
      var (ld, s2) :- GetU64(s1);
      var (la, s3) :- GetU64(s2);
      var (n, s4) :- GetBallot(s3);
      var (na, s5) :- GetBallot(s4);
      Parsed(Prepare(n, ld, na, la), s5)
    else if tag == 2 then
      var (ld, s2) :- GetU64(s1);
      var (la, s3) :- GetU64(s2);
      var (n, s4) :- GetBallot(s3);
      var (na, s5) :- GetBallot(s4);
      var (sfx, s6) :- GetEntries(s5);
      Parsed(Promise(n, na, sfx, ld, la), s6)
    else if tag == 3 then
      var (idx, s2) :- GetU64(s1);
      var (n, s3) :- GetBallot(s2);
      var (es, s4) :- GetEntries(s3);
      Parsed(AcceptSync(n, es, idx), s4)
    else if tag == 4 then
      var (ld, s2) :- GetU64(s1);
      var (n, s3) :- GetBallot(s2);
      var (es, s4) :- GetEntries(s3);
      Parsed(AcceptDecide(n, ld, es), s4)
    else if tag == 5 then
      var (n, s2) :- GetBallot(s1);
      var (la, s3) :- GetU64(s2);
      Parsed(Accepted(n, la), s3)
    else if tag == 6 then
      var (n, s2) :- GetBallot(s1);
      var (ld, s3) :- GetU64(s2);
      Parsed(Decide(ld, n), s3)
    else if tag == 7 then
      var (es, s2) :- GetEntries(s1);
      Parsed(ProposalForward(es), s2)
    else if tag == 8 then
      var (n, s2) :- GetBallot(s1);
      var (es, s3) :- GetEntries(s2);
      Parsed(FirstAccept(n, es), s3)
    else InvalidType
  }

  function GetMessage(s: seq<Byte>): (r: Parse<Message>)
    ensures r.Parsed? ==> FitsMsg(r.value.msg)
  {
    var (from, s1) :- GetU64(s);
    var (to, s2) :- GetU64(s1);
    var (msg, s3) :- GetMsg(s2);
    Parsed(Message(from, to, msg), s3)
  }

  // ----- round trips -----------------------------------------------------------------------

  lemma BallotsRoundTrip()
    ensures forall b, tail :: GetBallot(PutBallot(b, tail)) == Parsed(b, tail)
  {
    hide GetU32, PutU32, GetU64, PutU64;
    FieldsRoundTrip();
  }

  lemma LeaderRoundTrip(l: Option<Leader>, tail: seq<Byte>)
    ensures GetLeader(PutLeader(l, tail)) == Parsed(l, tail)
  {
    hide GetU8, PutU8, GetU64, PutU64, GetBallot, PutBallot;
    FieldsRoundTrip();
    BallotsRoundTrip();
    match l {
      case Some(x) =>
        var s1 := PutU64(x.pid, PutBallot(x.round, tail));
        assert GetU8(PutU8(1, s1)) == Parsed(1, s1);
      case None =>
    }
  }

  lemma PidsRoundTrip(ps: seq<U64>, tail: seq<Byte>)
    requires |ps| < U32_BOUND
    ensures GetPids(PutPids(ps, tail)) == Parsed(ps, tail)
  {
    hide GetU64, PutU64;
    FieldsRoundTrip();
    ListRoundTrip((p: U64, t) => PutU64(p, t), GetU64, ps, tail);
  }

  lemma EntryRoundTrip(e: Entry, tail: seq<Byte>)
    requires FitsEntry(e)
    ensures GetEntry(PutEntry(e, tail)) == Parsed(e, tail)
  {
    hide GetU8, PutU8, GetU32, PutU32, GetPids, PutPids, GetLeader, PutLeader, GetBytes, PutBytes;
    FieldsRoundTrip();
    match e {
      case Normal(d) => BytesRoundTrip(d, tail);
      case Stop(ss) =>
        PidsRoundTrip(ss.nodes, PutLeader(ss.leader, tail));
        LeaderRoundTrip(ss.leader, tail);
    }
  }

  lemma EntriesRoundTrip(es: seq<Entry>, tail: seq<Byte>)
    requires FitsEntries(es)
    ensures GetEntries(PutEntries(es, tail)) == Parsed(es, tail)
  {
    hide GetEntry, PutEntry;
    forall e, t | e in es ensures GetEntry(PutEntry(e, t)) == Parsed(e, t) {
      EntryRoundTrip(e, t);
    }
    ListRoundTrip(PutEntry, GetEntry, es, tail);
  }

  lemma BallotAppends(b: Ballot, s: seq<Byte>, t: seq<Byte>)
    ensures PutBallot(b, s + t) == PutBallot(b, s) + t
  {
    hide PutU32, PutU64;
    FieldsAppend();
  }

  lemma LeaderAppends(l: Option<Leader>, s: seq<Byte>, t: seq<Byte>)
    ensures PutLeader(l, s + t) == PutLeader(l, s) + t
  {
    hide PutU8, PutU64, PutBallot;
    FieldsAppend();
    if l.Some? {
      BallotAppends(l.value.round, s, t);
    }
  }

  lemma PidsAppend(ps: seq<U64>, s: seq<Byte>, t: seq<Byte>)
    ensures PutPids(ps, s + t) == PutPids(ps, s) + t
  {
    hide PutU64, PutList;
    FieldsAppend();
    ListAppends((p: U64, t) => PutU64(p, t), ps, s, t);
  }

  lemma EntryAppends(e: Entry, s: seq<Byte>, t: seq<Byte>)
    ensures PutEntry(e, s + t) == PutEntry(e, s) + t
  {
    hide PutU8, PutU32, PutPids, PutLeader, PutBytes;
    FieldsAppend();
    match e {
      case Normal(d) => BytesAppend(d, s, t);
      case Stop(ss) =>
        LeaderAppends(ss.leader, s, t);
        PidsAppend(ss.nodes, PutLeader(ss.leader, s), t);
    }
  }

  lemma EntriesAppend(es: seq<Entry>, s: seq<Byte>, t: seq<Byte>)
    ensures PutEntries(es, s + t) == PutEntries(es, s) + t
  {
    hide PutEntry, PutList;
    forall e, s, t ensures PutEntry(e, s + t) == PutEntry(e, s) + t {
      EntryAppends(e, s, t);
    }
    ListAppends(PutEntry, es, s, t);
  }

  lemma MsgAppends(m: PaxosMsg, s: seq<Byte>, t: seq<Byte>)
    ensures PutMsg(m, s + t) == PutMsg(m, s) + t
  {
    hide PutU8, PutU64, PutBallot, PutEntries;
    FieldsAppend();
    forall b, s, t ensures PutBallot(b, s + t) == PutBallot(b, s) + t {
      BallotAppends(b, s, t);
    }
    forall es ensures PutEntries(es, s + t) == PutEntries(es, s) + t {
      EntriesAppend(es, s, t);
    }
  }

  lemma MessageAppends(m: Message, s: seq<Byte>, t: seq<Byte>)
    ensures PutMessage(m, s + t) == PutMessage(m, s) + t
  {
    hide PutU64, PutMsg;
    FieldsAppend();
    MsgAppends(m.msg, s, t);
  }

  /** The bytes of a message. */
  function Serialise(m: Message): seq<Byte> { PutMessage(m, []) }

  lemma PlainMsgRoundTrip(m: PaxosMsg, tail: seq<Byte>)
    requires m.PrepareReq? || m.Prepare? || m.Accepted? || m.Decide?
    ensures GetMsg(PutMsg(m, tail)) == Parsed(m, tail)
  {
    hide GetU8, PutU8, GetU64, PutU64, GetBallot, PutBallot, GetEntries, PutEntries;
    FieldsRoundTrip();
    BallotsRoundTrip();
  }

  lemma PromiseRoundTrip(m: PaxosMsg, tail: seq<Byte>)
    requires m.Promise? && FitsMsg(m)
    ensures GetMsg(PutMsg(m, tail)) == Parsed(m, tail)
  {
    hide GetU8, PutU8, GetU64, PutU64, GetBallot, PutBallot, GetEntries, PutEntries, FitsEntries;
    FieldsRoundTrip();
    BallotsRoundTrip();
    EntriesRoundTrip(m.sfx, tail);
  }

  lemma EntriesMsgRoundTrip(m: PaxosMsg, tail: seq<Byte>)
    requires m.AcceptSync? || m.FirstAccept? || m.AcceptDecide? || m.ProposalForward?
    requires FitsMsg(m)
    ensures GetMsg(PutMsg(m, tail)) == Parsed(m, tail)
  {
    hide GetU8, PutU8, GetU64, PutU64, GetBallot, PutBallot, GetEntries, PutEntries, FitsEntries;
    FieldsRoundTrip();
    BallotsRoundTrip();
    EntriesRoundTrip(m.entries, tail);
  }

  lemma MsgRoundTrip(m: PaxosMsg, tail: seq<Byte>)
    requires FitsMsg(m)
    ensures GetMsg(PutMsg(m, tail)) == Parsed(m, tail)
  {
    hide GetMsg, PutMsg, FitsMsg;
    if m.Promise? {
      PromiseRoundTrip(m, tail);
    } else if m.PrepareReq? || m.Prepare? || m.Accepted? || m.Decide? {
      PlainMsgRoundTrip(m, tail);
    } else {
      EntriesMsgRoundTrip(m, tail);
    }
  }

  lemma MessageFits(m: Message, tail: seq<Byte>)
    requires FitsMsg(m.msg)
    ensures GetMessage(PutMessage(m, tail)) == Parsed(m, tail)
  {
    hide GetU64, PutU64, GetMsg, PutMsg, FitsMsg;
    FieldsRoundTrip();
    MsgRoundTrip(m.msg, tail);
  }

  /** A serialised Paxos message followed by any bytes is read back, leaving exactly those
      bytes, if and only if its list and byte lengths fit in 32 bits. */
  lemma MessageRoundTrip(m: Message, tail: seq<Byte>)
    ensures GetMessage(Serialise(m) + tail) == Parsed(m, tail) <==> FitsMsg(m.msg)
  {
    hide GetMessage, PutMessage, FitsMsg;
    MessageAppends(m, [], tail);
    assert [] + tail == tail;
    if FitsMsg(m.msg) {
      MessageFits(m, tail);
    }
  }

  // ----- the bytes on the wire -----------------------------------------------------------------

  /** Tags, widths and order of the parts of entries. */
  lemma EntryWire(b: Ballot, l: Option<Leader>, e: Entry, tail: seq<Byte>)
    ensures PutBallot(b, tail) == BigEndian(b.n, 4) + (BigEndian(b.pid, 8) + tail)
    ensures PutLeader(l, tail) ==
      match l case None => [0] + tail case Some(x) => [1] + (BigEndian(x.pid, 8) + PutBallot(x.round, tail))
    ensures PutEntry(e, tail) ==
      match e
      case Normal(d) => [1] + (BigEndian(|d|, 4) + (d + tail))
      case Stop(ss) => [2] + (BigEndian(ss.configId, 4) + PutPids(ss.nodes, PutLeader(ss.leader, tail)))
  {
    hide PutList, PutU8, PutU32, PutU64, PutLen, BigEndian;
    FieldsWire();
  }

  /** Tags, widths and order of the parts of Paxos messages. */
  lemma MessageWire(m: Message, tail: seq<Byte>)
    ensures PutMessage(m, tail) == BigEndian(m.from, 8) + (BigEndian(m.to, 8) + (
      match m.msg
      case PrepareReq => [9] + tail
      case Prepare(n, ld, na, la) =>
        [1] + (BigEndian(ld, 8) + (BigEndian(la, 8) + PutBallot(n, PutBallot(na, tail))))
      case Promise(n, na, sfx, ld, la) =>
        [2] + (BigEndian(ld, 8) + (BigEndian(la, 8) + PutBallot(n, PutBallot(na, PutEntries(sfx, tail)))))
      case AcceptSync(n, es, idx) => [3] + (BigEndian(idx, 8) + PutBallot(n, PutEntries(es, tail)))
      case AcceptDecide(n, ld, es) => [4] + (BigEndian(ld, 8) + PutBallot(n, PutEntries(es, tail)))
      case Accepted(n, la) => [5] + PutBallot(n, BigEndian(la, 8) + tail)
      case Decide(ld, n) => [6] + PutBallot(n, BigEndian(ld, 8) + tail)
      case ProposalForward(es) => [7] + PutEntries(es, tail)
      case FirstAccept(n, es) => [8] + PutBallot(n, PutEntries(es, tail))))
  {
    hide PutBallot, PutEntries, PutU8, PutU32, PutU64, PutLen, BigEndian;
    FieldsWire();
  }

  /** Tags, widths and order of the parts of reconfiguration messages. */
  lemma ReconfigWire(m: ReconfigMsg, tail: seq<Byte>)
    ensures PutReconfig(m, tail) ==
      match m
      case Init(configId, continued, newNodes, md, from, leader) =>
        [1] + (BigEndian(configId, 4) + (BigEndian(from, 8) + (BigEndian(md.configId, 4) + (BigEndian(md.len, 8)
          + PutPids(continued, PutPids(newNodes, PutLeader(leader, tail)))))))
      case SegmentRequest(configId, fromIdx, toIdx, requestor) =>
        [2] + (BigEndian(configId, 4) + (BigEndian(fromIdx, 8) + (BigEndian(toIdx, 8)
          + (BigEndian(requestor, 8) + tail))))
      case SegmentTransfer(configId, succeeded, md, fromIdx, toIdx, es) =>
        [3] + (BigEndian(configId, 4) + ([if succeeded then 1 else 0] + (BigEndian(fromIdx, 8) + (BigEndian(toIdx, 8)
          + (BigEndian(md.configId, 4) + (BigEndian(md.len, 8) + PutEntries(es, tail)))))))
  {
    hide PutPids, PutLeader, PutEntries, PutU8, PutU32, PutU64, PutLen, BigEndian;
    FieldsWire();
  }

  // ----- reconfiguration messages -------------------------------------------------------------

  datatype Metadata = Metadata(configId: U32, len: U64)

  datatype ReconfigMsg =
    | Init(configId: U32, continued: seq<U64>, newNodes: seq<U64>, metadata: Metadata, from: U64,
      leader: Option<Leader>)
    | SegmentRequest(configId: U32, fromIdx: U64, toIdx: U64, requestor: U64)
    | SegmentTransfer(configId: U32, succeeded: bool, metadata: Metadata, fromIdx: U64, toIdx: U64, entries: seq<Entry>)

  predicate FitsReconfig(m: ReconfigMsg) {
    match m
    case Init(_, continued, newNodes, _, _, _) => |continued| < U32_BOUND && |newNodes| < U32_BOUND
    case SegmentRequest(_, _, _, _) => true
    case SegmentTransfer(_, _, _, _, _, es) => FitsEntries(es)
  }

  function PutMetadata(m: Metadata, tail: seq<Byte>): seq<Byte> {
    PutU32(m.configId, PutU64(m.len, tail))
  }

  function PutReconfig(m: ReconfigMsg, tail: seq<Byte>): seq<Byte> {
    match m
    case Init(configId, continued, newNodes, md, from, leader) =>
      PutU8(1, PutU32(configId, PutU64(from, PutMetadata(md,
        PutPids(continued, PutPids(newNodes, PutLeader(leader, tail)))))))
    case SegmentRequest(configId, fromIdx, toIdx, requestor) =>
      PutU8(2, PutU32(configId, PutU64(fromIdx, PutU64(toIdx, PutU64(requestor, tail)))))
    case SegmentTransfer(configId, succeeded, md, fromIdx, toIdx, es) =>
      PutU8(3, PutU32(configId, PutU8(if succeeded then 1 else 0,
        PutU64(fromIdx, PutU64(toIdx, PutMetadata(md, PutEntries(es, tail)))))))
  }

  function GetMetadata(s: seq<Byte>): Parse<Metadata> {
    var (configId, s1) :- GetU32(s);
    var (len, s2) :- GetU64(s1);
    Parsed(Metadata(configId, len), s2)
  }

  function GetReconfig(s: seq<Byte>): (r: Parse<ReconfigMsg>)
    ensures r.Parsed? ==> FitsReconfig(r.value)
  {
    var (tag, s1) :- GetU8(s);
    if tag == 1 then
      var (configId, s2) :- GetU32(s1);
      var (from, s3) :- GetU64(s2);
      var (md, s4) :- GetMetadata(s3);
      var (continued, s5) :- GetPids(s4);
      var (newNodes, s6) :- GetPids(s5);
      var (leader, s7) :- GetLeader(s6);
      Parsed(Init(configId, continued, newNodes, md, from, leader), s7)
    else if tag == 2 then
      var (configId, s2) :- GetU32(s1);
      var (fromIdx, s3) :- GetU64(s2);
      var (toIdx, s4) :- GetU64(s3);
      var (requestor, s5) :- GetU64(s4);
      Parsed(SegmentRequest(configId, fromIdx, toIdx, requestor), s5)
    else if tag == 3 then
      var (configId, s2) :- GetU32(s1);
      var (succeeded, s3) :- GetU8(s2);
      var (fromIdx, s4) :- GetU64(s3);
      var (toIdx, s5) :- GetU64(s4);
      var (md, s6) :- GetMetadata(s5);
      var (es, s7) :- GetEntries(s6);
      Parsed(SegmentTransfer(configId, succeeded == 1, md, fromIdx, toIdx, es), s7)
    else InvalidType
  }

  lemma MetadataRoundTrip()
    ensures forall m, tail :: GetMetadata(PutMetadata(m, tail)) == Parsed(m, tail)
  {
    hide GetU32, PutU32, GetU64, PutU64;
    FieldsRoundTrip();
  }

  lemma InitRoundTrip(m: ReconfigMsg, tail: seq<Byte>)
    requires m.Init? && FitsReconfig(m)
    ensures GetReconfig(PutReconfig(m, tail)) == Parsed(m, tail)
  {
    hide GetU8, PutU8, GetU32, PutU32, GetU64, PutU64, GetPids, PutPids, GetLeader, PutLeader, GetMetadata,
      PutMetadata;
    FieldsRoundTrip();
    MetadataRoundTrip();
    var s7 := PutLeader(m.leader, tail);
    var s6 := PutPids(m.newNodes, s7);
    var s5 := PutPids(m.continued, s6);
    LeaderRoundTrip(m.leader, tail);
    PidsRoundTrip(m.newNodes, s7);
    PidsRoundTrip(m.continued, s6);
    assert GetMetadata(PutMetadata(m.metadata, s5)) == Parsed(m.metadata, s5);
  }

  lemma SegmentRoundTrip(m: ReconfigMsg, tail: seq<Byte>)
    requires !m.Init? && FitsReconfig(m)
    ensures GetReconfig(PutReconfig(m, tail)) == Parsed(m, tail)
  {
    hide GetU8, PutU8, GetU32, PutU32, GetU64, PutU64, GetMetadata, PutMetadata, GetEntries, PutEntries,
      FitsEntries;
    FieldsRoundTrip();
    MetadataRoundTrip();
    if m.SegmentTransfer? {
      EntriesRoundTrip(m.entries, tail);
    }
  }

  lemma ReconfigAppends(m: ReconfigMsg, s: seq<Byte>, t: seq<Byte>)
    ensures PutReconfig(m, s + t) == PutReconfig(m, s) + t
  {
    hide PutU8, PutU32, PutU64, PutPids, PutLeader, PutEntries;
    FieldsAppend();
    match m {
      case Init(_, continued, newNodes, _, _, leader) =>
        LeaderAppends(leader, s, t);
        PidsAppend(newNodes, PutLeader(leader, s), t);
        PidsAppend(continued, PutPids(newNodes, PutLeader(leader, s)), t);
      case SegmentRequest(_, _, _, _) =>
      case SegmentTransfer(_, _, _, _, _, es) => EntriesAppend(es, s, t);
    }
  }

  function SerialiseReconfig(m: ReconfigMsg): seq<Byte> { PutReconfig(m, []) }

  /** The same for reconfiguration messages. */
  lemma ReconfigRoundTrip(m: ReconfigMsg, tail: seq<Byte>)
    ensures GetReconfig(SerialiseReconfig(m) + tail) == Parsed(m, tail) <==> FitsReconfig(m)
  {
    hide GetReconfig, PutReconfig, FitsReconfig;
    ReconfigAppends(m, [], tail);
    assert [] + tail == tail;
    if FitsReconfig(m) {
      if m.Init? {
        InitRoundTrip(m, tail);
      } else {
        SegmentRoundTrip(m, tail);
      }
    }
  }
}
