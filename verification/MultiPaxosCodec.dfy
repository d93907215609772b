/** The wire formats of the messages that the Multi-Paxos roles receive. */
module MultiPaxosCodec {
  import opened Bytes
  import opened WireFormat

  datatype Value = Batch(commands: seq<seq<Byte>>) | Noop
  datatype SlotInfo = SlotInfo(slot: U64, voteRound: U64, voteValue: Value)

  datatype LeaderInbound =
    | Phase1b(acceptorIndex: U64, round: U64, info: seq<SlotInfo>)
    | Nack(round: U64)
    | ChosenWatermark(slot: U64)
    | Recover(slot: U64)
    | ClientRequestBatch(proposals: seq<seq<Byte>>)
    | LeaderInfoRequest(src: U64)

  datatype AcceptorInbound =
    | Phase1a(src: U64, round: U64, chosenWatermark: U64)
    | Phase2a(src: U64, slot: U64, round: U64, value: Value)

  datatype ReplicaInbound = Chosen(slot: U64, value: Value)

  datatype BatcherInbound =
    | NotLeader(proposals: seq<seq<Byte>>)
    | LeaderInfoReply(round: U64)

  datatype ProxyInbound =
    | Propose(src: U64, slot: U64, round: U64, value: Value)
    | Phase2b(acceptorIndex: U64, slot: U64, round: U64)

  // ----- lengths fit in 32 bits --------------------------------------------------------------

  predicate FitsString(b: seq<Byte>) { |b| < U32_BOUND }

  predicate FitsStrings(bs: seq<seq<Byte>>) {
    |bs| < U32_BOUND && forall b :: b in bs ==> FitsString(b)
  }

  predicate FitsValue(v: Value) {
    v.Batch? ==> FitsStrings(v.commands)
  }

  predicate FitsInfo(i: SlotInfo) { FitsValue(i.voteValue) }

  predicate FitsLeader(m: LeaderInbound) {
    match m
    case Phase1b(_, _, info) => |info| < U32_BOUND && forall i :: i in info ==> FitsInfo(i)
    case ClientRequestBatch(ps) => FitsStrings(ps)
    case _ => true
  }

  predicate FitsAcceptor(m: AcceptorInbound) { m.Phase2a? ==> FitsValue(m.value) }
  predicate FitsBatcher(m: BatcherInbound) { m.NotLeader? ==> FitsStrings(m.proposals) }
  predicate FitsProxy(m: ProxyInbound) { m.Propose? ==> FitsValue(m.value) }

  // ----- serialising -------------------------------------------------------------------------

  function PutStrings(bs: seq<seq<Byte>>, tail: seq<Byte>): seq<Byte> {
    PutList(PutBytes, bs, tail)
  }

  function PutValue(v: Value, tail: seq<Byte>): seq<Byte> {
    match v
    case Batch(cs) => PutU8(1, PutStrings(cs, tail))
    case Noop => PutU8(0, tail)
  }

  function PutInfo(i: SlotInfo, tail: seq<Byte>): seq<Byte> {
    PutU64(i.slot, PutU64(i.voteRound, PutValue(i.voteValue, tail)))
  }

  function PutInfos(infos: seq<SlotInfo>, tail: seq<Byte>): seq<Byte> {
    PutList(PutInfo, infos, tail)
  }

  function PutLeader(m: LeaderInbound, tail: seq<Byte>): seq<Byte> {
    match m
    case Phase1b(acceptor, round, info) => PutU8(0, PutU64(round, PutU64(acceptor, PutInfos(info, tail))))
    case Nack(round) => PutU8(1, PutU64(round, tail))
    case ChosenWatermark(slot) => PutU8(2, PutU64(slot, tail))
    case Recover(slot) => PutU8(3, PutU64(slot, tail))
    case ClientRequestBatch(ps) => PutU8(4, PutStrings(ps, tail))
    case LeaderInfoRequest(src) => PutU8(5, PutU64(src, tail))
  }

  /** To an acceptor the round comes before the slot. */
  function PutAcceptor(m: AcceptorInbound, tail: seq<Byte>): seq<Byte> {
    match m
    case Phase1a(src, round, w) => PutU8(0, PutU64(src, PutU64(round, PutU64(w, tail))))
    case Phase2a(src, slot, round, v) => PutU8(1, PutU64(src, PutU64(round, PutU64(slot, PutValue(v, tail)))))
  }

  function PutReplica(m: ReplicaInbound, tail: seq<Byte>): seq<Byte> {
    PutU64(m.slot, PutValue(m.value, tail))
  }

  function PutBatcher(m: BatcherInbound, tail: seq<Byte>): seq<Byte> {
    match m
    case NotLeader(ps) => PutU8(0, PutStrings(ps, tail))
    case LeaderInfoReply(round) => PutU8(1, PutU64(round, tail))
  }

  /** To a proxy leader the slot comes before the round. */
  function PutProxy(m: ProxyInbound, tail: seq<Byte>): seq<Byte> {
    match m
    case Propose(src, slot, round, v) => PutU8(0, PutU64(src, PutU64(slot, PutU64(round, PutValue(v, tail)))))
    case Phase2b(acceptor, slot, round) => PutU8(1, PutU64(slot, PutU64(round, PutU64(acceptor, tail))))
  }

  // ----- deserialising -----------------------------------------------------------------------

  function GetStrings(s: seq<Byte>): (r: Parse<seq<seq<Byte>>>)
    ensures r.Parsed? ==> FitsStrings(r.value)
  {
    ListParsed(GetBytes, s, FitsString);
    GetList(GetBytes, s)
  }

  function GetValue(s: seq<Byte>): (r: Parse<Value>)
    ensures r.Parsed? ==> FitsValue(r.value)
  {
    var (tag, s1) :- GetU8(s);
    if tag == 0 then Parsed(Noop, s1)
    else if tag == 1 then
      var (cs, s2) :- GetStrings(s1);
      Parsed(Batch(cs), s2)
    else Panic
  }

  function GetInfo(s: seq<Byte>): (r: Parse<SlotInfo>)
    ensures r.Parsed? ==> FitsInfo(r.value)
  {
    var (slot, s1) :- GetU64(s);
    var (voteRound, s2) :- GetU64(s1);
    var (v, s3) :- GetValue(s2);
    Parsed(SlotInfo(slot, voteRound, v), s3)
  }

  function GetInfos(s: seq<Byte>): (r: Parse<seq<SlotInfo>>)
    ensures r.Parsed? ==> |r.value| < U32_BOUND && forall i :: i in r.value ==> FitsInfo(i)
  {
    ListParsed(GetInfo, s, FitsInfo);
    GetList(GetInfo, s)
  }

  function GetLeader(s: seq<Byte>): (r: Parse<LeaderInbound>)
    ensures r.Parsed? ==> FitsLeader(r.value)
  {
    var (tag, s1) :- GetU8(s);
    if tag == 0 then
      var (round, s2) :- GetU64(s1);
      var (acceptor, s3) :- GetU64(s2);
      var (info, s4) :- GetInfos(s3);
      Parsed(Phase1b(acceptor, round, info), s4)
    else if tag == 1 then
      var (round, s2) :- GetU64(s1);
      Parsed(Nack(round), s2)
    else if tag == 2 then
      var (slot, s2) :- GetU64(s1);
      Parsed(ChosenWatermark(slot), s2)
    else if tag == 3 then
      var (slot, s2) :- GetU64(s1);
      Parsed(Recover(slot), s2)
    else if tag == 4 then
      var (ps, s2) :- GetStrings(s1);
      Parsed(ClientRequestBatch(ps), s2)
    else if tag == 5 then
      var (src, s2) :- GetU64(s1);
      Parsed(LeaderInfoRequest(src), s2)
    else InvalidType
  }

  function GetAcceptor(s: seq<Byte>): (r: Parse<AcceptorInbound>)
    ensures r.Parsed? ==> FitsAcceptor(r.value)
  {
    var (tag, s1) :- GetU8(s);
    if tag == 0 then
      var (src, s2) :- GetU64(s1);
      var (round, s3) :- GetU64(s2);
      var (w, s4) :- GetU64(s3);
      Parsed(Phase1a(src, round, w), s4)
    else if tag == 1 then
      var (src, s2) :- GetU64(s1);
      var (round, s3) :- GetU64(s2);
      var (slot, s4) :- GetU64(s3);
      var (v, s5) :- GetValue(s4);
      Parsed(Phase2a(src, slot, round, v), s5)
    else InvalidType
  }

  function GetReplica(s: seq<Byte>): (r: Parse<ReplicaInbound>)
    ensures r.Parsed? ==> FitsValue(r.value.value)
  {
    var (slot, s1) :- GetU64(s);
    var (v, s2) :- GetValue(s1);
    Parsed(Chosen(slot, v), s2)
  }

  function GetBatcher(s: seq<Byte>): (r: Parse<BatcherInbound>)
    ensures r.Parsed? ==> FitsBatcher(r.value)
  {
    var (tag, s1) :- GetU8(s);
    if tag == 0 then
      var (ps, s2) :- GetStrings(s1);
      Parsed(NotLeader(ps), s2)
    else if tag == 1 then
      var (round, s2) :- GetU64(s1);
      Parsed(LeaderInfoReply(round), s2)
    else InvalidType
  }

  function GetProxy(s: seq<Byte>): (r: Parse<ProxyInbound>)
    ensures r.Parsed? ==> FitsProxy(r.value)
  {
    var (tag, s1) :- GetU8(s);
    if tag == 0 then
      var (src, s2) :- GetU64(s1);
      var (slot, s3) :- GetU64(s2);
      var (round, s4) :- GetU64(s3);
      var (v, s5) :- GetValue(s4);
      Parsed(Propose(src, slot, round, v), s5)
    else if tag == 1 then
      var (slot, s2) :- GetU64(s1);
      var (round, s3) :- GetU64(s2);
      var (acceptor, s4) :- GetU64(s3);
      Parsed(Phase2b(acceptor, slot, round), s4)
    else InvalidType
  }

  // ----- round trips: exactly when the lengths fit ---------------------------------------------

  lemma StringsRoundTrip(bs: seq<seq<Byte>>, tail: seq<Byte>)
    requires FitsStrings(bs)
    ensures GetStrings(PutStrings(bs, tail)) == Parsed(bs, tail)
  {
    hide GetBytes, PutBytes;
    forall b, t | b in bs ensures GetBytes(PutBytes(b, t)) == Parsed(b, t) {
      BytesRoundTrip(b, t);
    }
    ListRoundTrip(PutBytes, GetBytes, bs, tail);
  }

  lemma ValueRoundTrip(v: Value, tail: seq<Byte>)
    requires FitsValue(v)
    ensures GetValue(PutValue(v, tail)) == Parsed(v, tail)
  {
    hide GetU8, PutU8, GetStrings, PutStrings;
    FieldsRoundTrip();
    if v.Batch? {
      StringsRoundTrip(v.commands, tail);
    }
  }

  lemma InfoRoundTrip(i: SlotInfo, tail: seq<Byte>)
    requires FitsInfo(i)
    ensures GetInfo(PutInfo(i, tail)) == Parsed(i, tail)
  {
    hide GetU64, PutU64, GetValue, PutValue;
    FieldsRoundTrip();
    ValueRoundTrip(i.voteValue, tail);
  }

  lemma InfosRoundTrip(infos: seq<SlotInfo>, tail: seq<Byte>)
    requires |infos| < U32_BOUND && forall i :: i in infos ==> FitsInfo(i)
    ensures GetInfos(PutInfos(infos, tail)) == Parsed(infos, tail)
  {
    hide GetInfo, PutInfo;
    forall i, t | i in infos ensures GetInfo(PutInfo(i, t)) == Parsed(i, t) {
      InfoRoundTrip(i, t);
    }
    ListRoundTrip(PutInfo, GetInfo, infos, tail);
  }

  // ----- what is put in front does not depend on what follows ------------------------------------

  lemma StringsAppend(bs: seq<seq<Byte>>, s: seq<Byte>, t: seq<Byte>)
    ensures PutStrings(bs, s + t) == PutStrings(bs, s) + t
  {
    hide PutBytes, PutList;
    forall b, s, t ensures PutBytes(b, s + t) == PutBytes(b, s) + t {
      BytesAppend(b, s, t);
    }
    ListAppends(PutBytes, bs, s, t);
  }

  lemma ValueAppends(v: Value, s: seq<Byte>, t: seq<Byte>)
    ensures PutValue(v, s + t) == PutValue(v, s) + t
  {
    hide PutU8, PutStrings;
    FieldsAppend();
    if v.Batch? {
      StringsAppend(v.commands, s, t);
    }
  }

  lemma InfoAppends(i: SlotInfo, s: seq<Byte>, t: seq<Byte>)
    ensures PutInfo(i, s + t) == PutInfo(i, s) + t
  {
    hide PutU64, PutValue;
    FieldsAppend();
    ValueAppends(i.voteValue, s, t);
  }

  lemma InfosAppend(infos: seq<SlotInfo>, s: seq<Byte>, t: seq<Byte>)
    ensures PutInfos(infos, s + t) == PutInfos(infos, s) + t
  {
    hide PutInfo, PutList;
    forall i, s, t ensures PutInfo(i, s + t) == PutInfo(i, s) + t {
      InfoAppends(i, s, t);
    }
    ListAppends(PutInfo, infos, s, t);
  }

  lemma LeaderAppends(m: LeaderInbound, s: seq<Byte>, t: seq<Byte>)
    ensures PutLeader(m, s + t) == PutLeader(m, s) + t
  {
    hide PutU8, PutU64, PutStrings, PutInfos;
    FieldsAppend();
    match m {
      case Phase1b(_, _, info) => InfosAppend(info, s, t);
      case ClientRequestBatch(ps) => StringsAppend(ps, s, t);
      case _ =>
    }
  }

  lemma AcceptorAppends(m: AcceptorInbound, s: seq<Byte>, t: seq<Byte>)
    ensures PutAcceptor(m, s + t) == PutAcceptor(m, s) + t
  {
    hide PutU8, PutU64, PutValue;
    FieldsAppend();
    if m.Phase2a? {
      ValueAppends(m.value, s, t);
    }
  }

  lemma ReplicaAppends(m: ReplicaInbound, s: seq<Byte>, t: seq<Byte>)
    ensures PutReplica(m, s + t) == PutReplica(m, s) + t
  {
    hide PutU64, PutValue;
    FieldsAppend();
    ValueAppends(m.value, s, t);
  }

  lemma BatcherAppends(m: BatcherInbound, s: seq<Byte>, t: seq<Byte>)
    ensures PutBatcher(m, s + t) == PutBatcher(m, s) + t
  {
    hide PutU8, PutU64, PutStrings;
    FieldsAppend();
    if m.NotLeader? {
      StringsAppend(m.proposals, s, t);
    }
  }

  lemma ProxyAppends(m: ProxyInbound, s: seq<Byte>, t: seq<Byte>)
    ensures PutProxy(m, s + t) == PutProxy(m, s) + t
  {
    hide PutU8, PutU64, PutValue;
    FieldsAppend();
    if m.Propose? {
      ValueAppends(m.value, s, t);
    }
  }

  // ----- whole messages --------------------------------------------------------------------------

  lemma LeaderFits(m: LeaderInbound, tail: seq<Byte>)
    requires FitsLeader(m)
    ensures GetLeader(PutLeader(m, tail)) == Parsed(m, tail)
  {
    hide GetU8, PutU8, GetU64, PutU64, GetStrings, PutStrings, GetInfos, PutInfos, FitsInfo, FitsStrings;
    FieldsRoundTrip();
    match m {
      case Phase1b(_, _, info) => InfosRoundTrip(info, tail);
      case ClientRequestBatch(ps) => StringsRoundTrip(ps, tail);
      case _ =>
    }
  }

  /** A message to a leader followed by any bytes is read back, leaving exactly those
      bytes, if and only if its list and byte lengths fit in 32 bits. */
  lemma LeaderRoundTrip(m: LeaderInbound, tail: seq<Byte>)
    ensures GetLeader(PutLeader(m, []) + tail) == Parsed(m, tail) <==> FitsLeader(m)
  {
    hide GetLeader, PutLeader, FitsLeader;
    LeaderAppends(m, [], tail);
    assert [] + tail == tail;
    if FitsLeader(m) {
      LeaderFits(m, tail);
    }
  }

  lemma AcceptorFits(m: AcceptorInbound, tail: seq<Byte>)
    requires FitsAcceptor(m)
    ensures GetAcceptor(PutAcceptor(m, tail)) == Parsed(m, tail)
  {
    hide GetU8, PutU8, GetU64, PutU64, GetValue, PutValue, FitsValue;
    FieldsRoundTrip();
    if m.Phase2a? {
      ValueRoundTrip(m.value, tail);
    }
  }

  lemma AcceptorRoundTrip(m: AcceptorInbound, tail: seq<Byte>)
    ensures GetAcceptor(PutAcceptor(m, []) + tail) == Parsed(m, tail) <==> FitsAcceptor(m)
  {
    hide GetAcceptor, PutAcceptor, FitsAcceptor;
    AcceptorAppends(m, [], tail);
    assert [] + tail == tail;
    if FitsAcceptor(m) {
      AcceptorFits(m, tail);
    }
  }

  lemma ReplicaFits(m: ReplicaInbound, tail: seq<Byte>)
    requires FitsValue(m.value)
    ensures GetReplica(PutReplica(m, tail)) == Parsed(m, tail)
  {
    hide GetU64, PutU64, GetValue, PutValue, FitsValue;
    FieldsRoundTrip();
    ValueRoundTrip(m.value, tail);
  }

  lemma ReplicaRoundTrip(m: ReplicaInbound, tail: seq<Byte>)
    ensures GetReplica(PutReplica(m, []) + tail) == Parsed(m, tail) <==> FitsValue(m.value)
  {
    hide GetReplica, PutReplica, FitsValue;
    ReplicaAppends(m, [], tail);
    assert [] + tail == tail;
    if FitsValue(m.value) {
      ReplicaFits(m, tail);
    }
  }

  lemma BatcherFits(m: BatcherInbound, tail: seq<Byte>)
    requires FitsBatcher(m)
    ensures GetBatcher(PutBatcher(m, tail)) == Parsed(m, tail)
  {
    hide GetU8, PutU8, GetU64, PutU64, GetStrings, PutStrings, FitsStrings;
    FieldsRoundTrip();
    if m.NotLeader? {
      StringsRoundTrip(m.proposals, tail);
    }
  }

  lemma BatcherRoundTrip(m: BatcherInbound, tail: seq<Byte>)
    ensures GetBatcher(PutBatcher(m, []) + tail) == Parsed(m, tail) <==> FitsBatcher(m)
  {
    hide GetBatcher, PutBatcher, FitsBatcher;
    BatcherAppends(m, [], tail);
    assert [] + tail == tail;
    if FitsBatcher(m) {
      BatcherFits(m, tail);
    }
  }

  lemma ProxyFits(m: ProxyInbound, tail: seq<Byte>)
    requires FitsProxy(m)
    ensures GetProxy(PutProxy(m, tail)) == Parsed(m, tail)
  {
    hide GetU8, PutU8, GetU64, PutU64, GetValue, PutValue, FitsValue;
    FieldsRoundTrip();
    if m.Propose? {
      ValueRoundTrip(m.value, tail);
    }
  }

  lemma ProxyRoundTrip(m: ProxyInbound, tail: seq<Byte>)
    ensures GetProxy(PutProxy(m, []) + tail) == Parsed(m, tail) <==> FitsProxy(m)
  {
    hide GetProxy, PutProxy, FitsProxy;
    ProxyAppends(m, [], tail);
    assert [] + tail == tail;
    if FitsProxy(m) {
      ProxyFits(m, tail);
    }
  }

  // ----- the bytes on the wire -------------------------------------------------------------------

  /** Tags, widths and order of the parts of the messages. */
  lemma PartsWire(v: Value, i: SlotInfo, tail: seq<Byte>)
    ensures PutValue(v, tail) == match v case Noop => [0] + tail case Batch(cs) => [1] + PutStrings(cs, tail)
    ensures PutInfo(i, tail) == BigEndian(i.slot, 8) + (BigEndian(i.voteRound, 8) + PutValue(i.voteValue, tail))
  {
    hide PutStrings, PutU8, PutU64, PutLen, BigEndian;
    FieldsWire();
  }

  lemma LeaderWire(m: LeaderInbound, tail: seq<Byte>)
    ensures PutLeader(m, tail) ==
      match m
      case Phase1b(acceptor, round, info) =>
        [0] + (BigEndian(round, 8) + (BigEndian(acceptor, 8) + PutInfos(info, tail)))
      case Nack(round) => [1] + (BigEndian(round, 8) + tail)
      case ChosenWatermark(slot) => [2] + (BigEndian(slot, 8) + tail)
      case Recover(slot) => [3] + (BigEndian(slot, 8) + tail)
      case ClientRequestBatch(ps) => [4] + PutStrings(ps, tail)
      case LeaderInfoRequest(src) => [5] + (BigEndian(src, 8) + tail)
  {
    hide PutStrings, PutInfos, PutU8, PutU64, PutLen, BigEndian;
    FieldsWire();
  }

  lemma OthersWire(a: AcceptorInbound, r: ReplicaInbound, b: BatcherInbound, p: ProxyInbound, tail: seq<Byte>)
    ensures PutAcceptor(a, tail) ==
      match a
      case Phase1a(src, round, w) => [0] + (BigEndian(src, 8) + (BigEndian(round, 8) + (BigEndian(w, 8) + tail)))
      case Phase2a(src, slot, round, v) =>
        [1] + (BigEndian(src, 8) + (BigEndian(round, 8) + (BigEndian(slot, 8) + PutValue(v, tail))))
    ensures PutReplica(r, tail) == BigEndian(r.slot, 8) + PutValue(r.value, tail)
    ensures PutBatcher(b, tail) ==
      match b
      case NotLeader(ps) => [0] + PutStrings(ps, tail)
      case LeaderInfoReply(round) => [1] + (BigEndian(round, 8) + tail)
    ensures PutProxy(p, tail) ==
      match p
      case Propose(src, slot, round, v) =>
        [0] + (BigEndian(src, 8) + (BigEndian(slot, 8) + (BigEndian(round, 8) + PutValue(v, tail))))
      case Phase2b(acceptor, slot, round) =>
        [1] + (BigEndian(slot, 8) + (BigEndian(round, 8) + (BigEndian(acceptor, 8) + tail)))
  {
    hide PutStrings, PutValue, PutU8, PutU64, PutLen, BigEndian;
    FieldsWire();
  }
}
