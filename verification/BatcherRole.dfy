/** The Multi-Paxos batcher: it routes client batches to the owner of the highest
    round some leader reported. */
module BatcherRole {
  import opened PaxosTypes
  import opened RoundRobin

  datatype BatcherState = BatcherState(growing: CommandBatch, resend: seq<CommandBatch>, round: Round)

  function InitBatcher(): BatcherState {
    BatcherState([], [], 0)
  }

  function Submit(b: BatcherState, c: Command): BatcherState {
    b.(growing := b.growing + [c])
  }

  function Flush(n: nat, index: Pid, b: BatcherState): (BatcherState, seq<Message>)
    requires n > 0
  {
    if b.growing == [] then (b, [])
    else (b.(growing := []), [ClientBatchMsg(Owner(n, b.round), index, b.growing)])
  }

  function HandleNotLeader(index: Pid, b: BatcherState, batch: CommandBatch): (BatcherState, seq<Message>) {
    (b.(resend := b.resend + [batch]), [LeaderInfoRequestMsg(index)])
  }

  function ResendTo(index: Pid, leader: Pid, batches: seq<CommandBatch>): seq<Message> {
    seq(|batches|, k requires 0 <= k < |batches| => ClientBatchMsg(leader, index, batches[k]))
  }

  function HandleLeaderInfo(n: nat, index: Pid, b: BatcherState, round: Round): (BatcherState, seq<Message>)
    requires n > 0
  {
    if round <= b.round then (b, [])
    else if Owner(n, b.round) == Owner(n, round) then (b.(round := round), [])
    else (b.(round := round, resend := []), ResendTo(index, Owner(n, round), b.resend))
  }

  // ----- no command is lost, doubled or reordered ----------------------------------------------

  datatype Event =
    | CommandArrives(c: Command)
    | TimerFires
    | BatchRefused(batch: CommandBatch)
    | InfoArrives(round: Round)

  /** The batches sent first and those sent again after a refusal. */
  datatype Log = Log(sent: seq<Message>, resent: seq<Message>)

  function Run(n: nat, index: Pid, b: BatcherState, events: seq<Event>): (BatcherState, Log)
    requires n > 0
  {
    if events == [] then (b, Log([], []))
    else
      var (b1, log) := Run(n, index, b, events[..|events| - 1]);
      match events[|events| - 1]
      case CommandArrives(c) => (Submit(b1, c), log)
      case TimerFires => var (b2, out) := Flush(n, index, b1); (b2, log.(sent := log.sent + out))
      case BatchRefused(batch) => (HandleNotLeader(index, b1, batch).0, log)
      case InfoArrives(round) =>
        var (b2, out) := HandleLeaderInfo(n, index, b1, round); (b2, log.(resent := log.resent + out))
  }

  /** The commands that arrived, in order. */
  function Arrived(events: seq<Event>): seq<Command> {
    if events == [] then []
    else
      var last := events[|events| - 1];
      Arrived(events[..|events| - 1]) + if last.CommandArrives? then [last.c] else []
  }

  /** The batches that were refused, in order. */
  function Refused(events: seq<Event>): seq<CommandBatch> {
    if events == [] then []
    else
      var last := events[|events| - 1];
      Refused(events[..|events| - 1]) + if last.BatchRefused? then [last.batch] else []
  }

  /** Each command is there as often as it arrived. */
  lemma {:induction false} ArrivedCounts(events: seq<Event>, c: Command)
    ensures multiset(Arrived(events))[c] == multiset(events)[CommandArrives(c)]
  {
    if events != [] {
      var front, last := events[..|events| - 1], events[|events| - 1];
      ArrivedCounts(front, c);
      assert multiset(events) == multiset(front + [last]) by { assert events == front + [last]; }
      assert multiset(events)[CommandArrives(c)] ==
        multiset(front)[CommandArrives(c)] + if last == CommandArrives(c) then 1 else 0;
    }
  }

  /** Each refused batch is there as often as it was refused. */
  lemma {:induction false} RefusedCounts(events: seq<Event>, batch: CommandBatch)
    ensures multiset(Refused(events))[batch] == multiset(events)[BatchRefused(batch)]
  {
    if events != [] {
      var front, last := events[..|events| - 1], events[|events| - 1];
      RefusedCounts(front, batch);
      assert multiset(events) == multiset(front + [last]) by { assert events == front + [last]; }
      assert multiset(events)[BatchRefused(batch)] ==
        multiset(front)[BatchRefused(batch)] + if last == BatchRefused(batch) then 1 else 0;
    }
  }

  /** The commands of the batches in the messages, in order. */
  function CommandsIn(ms: seq<Message>): seq<Command>
    requires forall m :: m in ms ==> m.ClientBatchMsg?
  {
    if ms == [] then [] else CommandsIn(ms[..|ms| - 1]) + ms[|ms| - 1].batch
  }

  function BatchesIn(ms: seq<Message>): (r: seq<CommandBatch>)
    requires forall m :: m in ms ==> m.ClientBatchMsg?
    ensures |r| == |ms| && forall i :: 0 <= i < |ms| ==> r[i] == ms[i].batch
  {
    seq(|ms|, i requires 0 <= i < |ms| => ms[i].batch)
  }

  predicate FromBatcher(index: Pid, ms: seq<Message>) {
    forall m :: m in ms ==> m.ClientBatchMsg? && m.batcher == index
  }

  /** A non-empty batch goes to the owner of the known round and starts anew. */
  lemma FlushMeaning(n: nat, index: Pid, b: BatcherState)
    requires n > 0
    ensures
      var (b', out) := Flush(n, index, b);
      && b' == b.(growing := []) && FromBatcher(index, out)
      && CommandsIn(out) == b.growing
      && (forall m :: m in out ==> m.dst == Owner(n, b.round) && m.batch != [])
  {
    if b.growing != [] {
      var m := ClientBatchMsg(Owner(n, b.round), index, b.growing);
      assert [m][..0] == [] && CommandsIn([]) == [];
      assert CommandsIn([m]) == [] + b.growing;
    }
  }

  /** News of a higher round: if its owner is another leader all kept batches go there. */
  lemma InfoMeaning(n: nat, index: Pid, b: BatcherState, round: Round)
    requires n > 0
    ensures
      var (b', out) := HandleLeaderInfo(n, index, b, round);
      && b'.growing == b.growing && b'.round == (if round > b.round then round else b.round)
      && FromBatcher(index, out) && BatchesIn(out) + b'.resend == b.resend
      && (forall m :: m in out ==> m.dst == Owner(n, round))
      && (round > b.round && Owner(n, round) != Owner(n, b.round) ==> b'.resend == [])
  {
    var (b', out) := HandleLeaderInfo(n, index, b, round);
    if out != [] {
      assert BatchesIn(out) == b.resend;
    }
  }

  /** A refused batch is kept behind the others, and the leaders are asked. */
  lemma RefusalMeaning(index: Pid, b: BatcherState, batch: CommandBatch)
    ensures HandleNotLeader(index, b, batch) == (b.(resend := b.resend + [batch]), [LeaderInfoRequestMsg(index)])
  {
  }

  lemma CommandsInAppend(a: seq<Message>, b: seq<Message>)
    requires forall m :: m in a + b ==> m.ClientBatchMsg?
    ensures (forall m :: m in a ==> m.ClientBatchMsg?) && (forall m :: m in b ==> m.ClientBatchMsg?)
    ensures CommandsIn(a + b) == CommandsIn(a) + CommandsIn(b)
  {
    assert forall m :: m in a ==> m in a + b;
    assert forall m :: m in b ==> m in a + b;
    if b == [] {
      assert a + b == a;
    } else {
      var front := b[..|b| - 1];
      assert (a + b)[..|a + b| - 1] == a + front;
      CommandsInAppend(a, front);
    }
  }

  /** CONSERVATION. Over every run the commands sent in batches, followed by those still
      growing, are exactly the commands that arrived; and the batches sent again, followed
      by those still kept, are exactly the refused ones; both in order. */
  lemma {:induction false} CommandsConserved(n: nat, index: Pid, b: BatcherState, events: seq<Event>)
    requires n > 0
    ensures
      var (b', log) := Run(n, index, b, events);
      && FromBatcher(index, log.sent) && FromBatcher(index, log.resent)
      && CommandsIn(log.sent) + b'.growing == b.growing + Arrived(events)
      && BatchesIn(log.resent) + b'.resend == b.resend + Refused(events)
  {
    if events != [] {
      var front, last := events[..|events| - 1], events[|events| - 1];
      CommandsConserved(n, index, b, front);
      var (b1, log) := Run(n, index, b, front);
      ConservedStep(n, index, b, b1, log, Arrived(front), Refused(front), last);
    }
  }

  lemma ConservedStep(n: nat, index: Pid, b: BatcherState, b1: BatcherState, log: Log,
                      arrived: seq<Command>, refused: seq<CommandBatch>, e: Event)
    requires n > 0 && FromBatcher(index, log.sent) && FromBatcher(index, log.resent)
    requires CommandsIn(log.sent) + b1.growing == b.growing + arrived
    requires BatchesIn(log.resent) + b1.resend == b.resend + refused
    ensures e.CommandArrives? ==> CommandsIn(log.sent) + Submit(b1, e.c).growing == b.growing + (arrived + [e.c])
    ensures e.CommandArrives? ==> Submit(b1, e.c).resend == b1.resend
    ensures e.TimerFires? ==>
      var (b2, out) := Flush(n, index, b1);
      && FromBatcher(index, log.sent + out) && CommandsIn(log.sent + out) + b2.growing == b.growing + arrived
      && b2.resend == b1.resend
    ensures e.BatchRefused? ==>
      var b2 := HandleNotLeader(index, b1, e.batch).0;
      b2.growing == b1.growing && BatchesIn(log.resent) + b2.resend == b.resend + (refused + [e.batch])
    ensures e.InfoArrives? ==>
      var (b2, out) := HandleLeaderInfo(n, index, b1, e.round);
      && FromBatcher(index, log.resent + out) && BatchesIn(log.resent + out) + b2.resend == b.resend + refused
      && b2.growing == b1.growing
  {
    match e {
      case CommandArrives(c) =>
        assert CommandsIn(log.sent) + (b1.growing + [c]) == (CommandsIn(log.sent) + b1.growing) + [c];
      case TimerFires =>
        FlushMeaning(n, index, b1);
        CommandsInAppend(log.sent, Flush(n, index, b1).1);
      case BatchRefused(batch) =>
        RefusalMeaning(index, b1, batch);
        assert BatchesIn(log.resent) + (b1.resend + [batch]) == (BatchesIn(log.resent) + b1.resend) + [batch];
      case InfoArrives(round) =>
        InfoMeaning(n, index, b1, round);
        var (b2, out) := HandleLeaderInfo(n, index, b1, round);
        assert BatchesIn(log.resent + out) == BatchesIn(log.resent) + BatchesIn(out);
    }
  }

  class Batcher {
    const n: nat
    const index: Pid
    var growingBatch: CommandBatch
    var pendingResend: seq<CommandBatch>
    var round: Round

    ghost function View(): BatcherState
      reads this
    {
      BatcherState(growingBatch, pendingResend, round)
    }

    constructor (n: nat, index: Pid)
      ensures this.n == n && this.index == index && View() == InitBatcher()
    {
      this.n, this.index := n, index;
      growingBatch, pendingResend, round := [], [], 0;
    }

    method OnProposal(c: Command)
      modifies this
      ensures View() == Submit(old(View()), c)
    {
      growingBatch := growingBatch + [c];
    }

    method OnBatchTimer() returns (out: seq<Message>)
      requires n > 0
      modifies this
      ensures (View(), out) == Flush(n, index, old(View()))
    {
      out := [];
      if growingBatch != [] {
        out := [ClientBatchMsg(Owner(n, round), index, growingBatch)];
        growingBatch := [];
      }
    }

    method OnNotLeader(batch: CommandBatch) returns (out: seq<Message>)
      modifies this
      ensures (View(), out) == HandleNotLeader(index, old(View()), batch)
    {
      pendingResend := pendingResend + [batch];
      out := [LeaderInfoRequestMsg(index)];
    }

    method OnLeaderInfo(infoRound: Round) returns (out: seq<Message>)
      requires n > 0
      modifies this
      ensures (View(), out) == HandleLeaderInfo(n, index, old(View()), infoRound)
    {
      out := [];
      if infoRound <= round {
        return;
      }
      var oldRound := round;
      round := infoRound;
      if Owner(n, oldRound) != Owner(n, round) {
        var leader := Owner(n, round);
        var batches := pendingResend;
        pendingResend := [];
        for i := 0 to |batches|
          invariant out == ResendTo(index, leader, batches[..i])
          invariant growingBatch == old(growingBatch) && pendingResend == [] && round == infoRound
        {
          out := out + [ClientBatchMsg(leader, index, batches[i])];
        }
        assert batches[..|batches|] == batches;
      }
    }
  }
}
