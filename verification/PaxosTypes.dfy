/** Messages and values shared by the Multi-Paxos roles.

    The network is a set of messages that only grows: a receiver may see a
    message late, never, or several times.  Messages that the program sends to
    every peer carry no destination.  Two messages carry history annotations
    that no handler reads: `Propose` records whether the leader was in Phase 2
    and which slots its phase 1 covered, `Phase2b` records the value voted for. */
module PaxosTypes {
  import opened Common

  type Pid = nat
  type Round = nat
  type Slot = nat
  type Command = seq<nat>
  type CommandBatch = seq<Command>

  datatype Value = Batch(commands: CommandBatch) | Noop

  /** An acceptor's latest vote in some slot. */
  datatype Vote = Vote(round: Round, value: Value)

  /** One reported vote of a Phase1b message. */
  datatype SlotInfo = SlotInfo(slot: Slot, vote: Vote)

  datatype Phase1b = Phase1b(acceptor: Pid, round: Round, info: seq<SlotInfo>)

  datatype Message =
    | Phase1aMsg(src: Pid, round: Round, watermark: Slot)
    | Phase1bMsg(dst: Pid, report: Phase1b)
    | ProposeMsg(src: Pid, slot: Slot, round: Round, value: Value, inPhase2: bool, from: Slot)
    | Phase2aMsg(src: Pid, slot: Slot, round: Round, value: Value)
    | Phase2bMsg(dst: Pid, acceptor: Pid, slot: Slot, round: Round, voted: Value)
    | NackMsg(dst: Pid, round: Round)
    | ChosenMsg(slot: Slot, value: Value)
    | WatermarkMsg(slot: Slot)
    | RecoverMsg(slot: Slot)
    | ClientBatchMsg(dst: Pid, batcher: Pid, batch: CommandBatch)
    | NotLeaderMsg(dst: Pid, batch: CommandBatch)
    | LeaderInfoRequestMsg(batcher: Pid)
    | LeaderInfoReplyMsg(dst: Pid, round: Round)

  predicate IsPid(n: nat, p: Pid) {
    1 <= p <= n
  }

  /** The process identifiers 1..n. */
  function Pids(n: nat): (ps: set<Pid>)
    ensures forall p :: p in ps <==> 1 <= p <= n
  {
    set p: Pid | p <= n && IsPid(n, p)
  }

  lemma PidsSize(n: nat)
    ensures |Pids(n)| == n
  {
    if n == 0 {
      assert Pids(0) == {};
    } else {
      PidsSize(n - 1);
      assert Pids(n) == Pids(n - 1) + {n};
    }
  }

  /** Two majorities of the processes 1..n share a process. */
  lemma QuorumsIntersect(n: nat, a: set<Pid>, b: set<Pid>) returns (p: Pid)
    requires a <= Pids(n) && b <= Pids(n)
    requires |a| >= Majority(n) && |b| >= Majority(n)
    ensures p in a && p in b
  {
    SubsetSize(a + b, Pids(n));
    PidsSize(n);
    assert |a + b| == |a| + |b| - |a * b|;
    p :| p in a * b;
  }
}
