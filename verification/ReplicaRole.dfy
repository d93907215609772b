/** The Multi-Paxos replica: a growing buffer of chosen values, executed in slot
    order up to the first hole. */
module ReplicaRole {
  import opened Common
  import opened PaxosTypes

  /** `numChosen` and `executed` are the counters of the program; `recoverTimers`
      counts the periodic recover timers, whose handles are never kept. */
  datatype ReplicaState = ReplicaState(log: map<Slot, Value>, executed: Slot, numChosen: nat, recoverTimers: nat)

  datatype ReplicaConfig = ReplicaConfig(n: nat, index: Pid, every: nat)

  function InitReplica(): ReplicaState {
    ReplicaState(map[], 0, 0, 0)
  }

  /** The filled slots at or above `e`. */
  ghost function FilledFrom(log: map<Slot, Value>, e: Slot): set<Slot> {
    set s | s in log && s >= e
  }

  /** The first hole at or above `e`: where in-order execution stops. */
  ghost function FirstHole(log: map<Slot, Value>, e: Slot): (hole: Slot)
    ensures hole >= e && hole !in log
    ensures forall s :: e <= s < hole ==> s in log
    decreases FilledFrom(log, e)
  {
    if e !in log then e
    else
      assert FilledFrom(log, e + 1) == FilledFrom(log, e) - {e};
      FirstHole(log, e + 1)
  }

  /** Whether this replica announces the watermark `e`. */
  predicate Announces(c: ReplicaConfig, e: Slot)
    requires c.every > 0 && c.n > 0
  {
    e % c.every == 0 && (e / c.every) % c.n == c.index
  }

  /** The watermarks announced while executing the slots lo..hi-1. */
  function Announcements(c: ReplicaConfig, lo: Slot, hi: Slot): (ms: seq<Message>)
    requires c.every > 0 && c.n > 0 && lo <= hi
    ensures forall m :: m in ms ==> m.WatermarkMsg? && lo < m.slot <= hi
  {
    if lo == hi then []
    else Announcements(c, lo, hi - 1) + if Announces(c, hi) then [WatermarkMsg(hi)] else []
  }

  function Commands(v: Value): seq<Command> {
    match v case Batch(cs) => cs case Noop => []
  }

  /** The commands decided in the slots lo..hi-1, in execution order. */
  function DecidedCommands(log: map<Slot, Value>, lo: Slot, hi: Slot): seq<Command> {
    if lo >= hi then []
    else DecidedCommands(log, lo, hi - 1) + if hi - 1 in log then Commands(log[hi - 1]) else []
  }

  lemma NothingDecided(log: map<Slot, Value>, e: Slot)
    ensures DecidedCommands(log, e, e) == []
  {
  }

  /** The commands of each decided batch are executed all, in order, at the place of its
      slot; noops and slots not decided contribute nothing. */
  lemma {:induction false} DecidedInSlotOrder(log: map<Slot, Value>, lo: Slot, s: Slot, hi: Slot)
    requires lo <= s < hi
    ensures DecidedCommands(log, lo, hi) ==
      DecidedCommands(log, lo, s) + (if s in log && log[s].Batch? then log[s].commands else [])
      + DecidedCommands(log, s + 1, hi)
    decreases hi
  {
    var cs := if s in log && log[s].Batch? then log[s].commands else [];
    if s + 1 == hi {
      assert DecidedCommands(log, lo, s) + cs + [] == DecidedCommands(log, lo, s) + cs;
    } else {
      DecidedInSlotOrder(log, lo, s, hi - 1);
      var last := if hi - 1 in log then Commands(log[hi - 1]) else [];
      var a, b := DecidedCommands(log, lo, s) + cs, DecidedCommands(log, s + 1, hi - 1);
      assert a + b + last == a + (b + last);
    }
  }

  /** Announced are exactly the passed multiples of the interval whose turn it is, in
      ascending order. */
  lemma {:induction false} AnnouncedExactly(c: ReplicaConfig, lo: Slot, hi: Slot, w: Slot)
    requires c.every > 0 && c.n > 0 && lo <= hi
    ensures WatermarkMsg(w) in Announcements(c, lo, hi) <==>
      lo < w <= hi && w % c.every == 0 && (w / c.every) % c.n == c.index
    ensures forall i, j :: 0 <= i < j < |Announcements(c, lo, hi)| ==>
      Announcements(c, lo, hi)[i].slot < Announcements(c, lo, hi)[j].slot
  {
    if lo < hi {
      AnnouncedExactly(c, lo, hi - 1, w);
      var front := Announcements(c, lo, hi - 1);
      assert forall i :: 0 <= i < |front| ==> front[i] in front;
    }
  }

  ghost function HandleChosen(c: ReplicaConfig, r: ReplicaState, slot: Slot, value: Value): (ReplicaState, seq<Message>)
    requires c.every > 0 && c.n > 0
  {
    if slot in r.log then (r, [])
    else
      var log := r.log[slot := value];
      var executed := FirstHole(log, r.executed);
      var wasRunning := r.numChosen != r.executed;
      var shouldRun := r.numChosen + 1 != executed;
      var starts := shouldRun && (!wasRunning || executed != r.executed);
      (ReplicaState(log, executed, r.numChosen + 1, r.recoverTimers + if starts then 1 else 0),
       Announcements(c, r.executed, executed))
  }

  /** What every replica state satisfies. */
  ghost predicate ReplicaInv(r: ReplicaState) {
    && r.numChosen == |r.log|
    && r.executed !in r.log
    && forall s :: 0 <= s < r.executed ==> s in r.log
  }

  lemma {:induction false} PrefixCount(log: map<Slot, Value>, e: Slot)
    requires forall s :: 0 <= s < e ==> s in log
    ensures |log| == e + |FilledFrom(log, e)|
  {
    if e == 0 {
      assert FilledFrom(log, 0) == log.Keys;
    } else {
      PrefixCount(log, e - 1);
      var rest := FilledFrom(log, e);
      assert FilledFrom(log, e - 1) == rest + {e - 1};
      assert e - 1 !in rest;
    }
  }

  /** Handling a Chosen keeps the counters exact: `numChosen` is the number of
      filled slots, execution stops at the first hole, and the two counters
      differ exactly when some chosen slot lies beyond that hole. */
  lemma HandleChosenKeepsCounters(c: ReplicaConfig, r: ReplicaState, slot: Slot, value: Value)
    requires c.every > 0 && c.n > 0 && ReplicaInv(r)
    ensures var r' := HandleChosen(c, r, slot, value).0;
      && ReplicaInv(r')
      && r'.log == (if slot in r.log then r.log else r.log[slot := value])
      && (forall s :: s in r.log ==> s in r'.log && r'.log[s] == r.log[s])
      && r'.executed >= r.executed
      && (r'.numChosen != r'.executed <==> exists s :: s in r'.log && s > r'.executed)
  {
    var r' := HandleChosen(c, r, slot, value).0;
    if slot !in r.log {
      assert r'.log.Keys == r.log.Keys + {slot};
    }
    WaitsIff(r');
  }

  /** A recover timer is started exactly when a chosen slot lies beyond the first hole and
      either none did before or execution has moved. */
  lemma RecoverTimerStartsIff(c: ReplicaConfig, r: ReplicaState, slot: Slot, value: Value)
    requires c.every > 0 && c.n > 0 && ReplicaInv(r)
    ensures
      var r' := HandleChosen(c, r, slot, value).0;
      var waits := exists s :: s in r'.log && s > r'.executed;
      var waited := exists s :: s in r.log && s > r.executed;
      r'.recoverTimers ==
        r.recoverTimers + (if slot !in r.log && waits && (!waited || r'.executed != r.executed) then 1 else 0)
  {
    HandleChosenKeepsCounters(c, r, slot, value);
    WaitsIff(r);
  }

  lemma WaitsIff(r: ReplicaState)
    requires ReplicaInv(r)
    ensures r.numChosen != r.executed <==> exists s :: s in r.log && s > r.executed
  {
    PrefixCount(r.log, r.executed);
    var beyond := FilledFrom(r.log, r.executed);
    if beyond != {} {
      var s :| s in beyond;
      assert s in r.log && s > r.executed;
    }
    if s :| s in r.log && s > r.executed {
      assert s in beyond;
    }
  }

  // ----- the components ------------------------------------------------------

  /** A map from slots to values kept as a padded buffer.  The watermark below
      which keys are dropped never moves from 0 here. */
  class BufferMap {
    const growSize: nat
    var buffer: seq<Option<Value>>
    var watermark: nat
    var largestKey: Option<Slot>

    ghost predicate Valid()
      reads this
    {
      watermark == 0
    }

    ghost function Contents(): map<Slot, Value>
      reads this
    {
      map s: Slot | 0 <= s < |buffer| && buffer[s].Some? :: buffer[s].value
    }

    constructor (growSize: nat)
      ensures Valid() && Contents() == map[]
    {
      this.growSize := growSize;
      buffer, watermark, largestKey := [], 0, None;
    }

    function Normalize(key: Slot): (r: Option<nat>)
      reads this
      ensures r.Some? <==> key >= watermark
      ensures r.Some? ==> r.value + watermark == key
    {
      if key >= watermark then Some(key - watermark) else None
    }

    method Pad(len: nat)
      modifies this`buffer
      ensures |buffer| == Max(len, old(|buffer|))
      ensures buffer[..old(|buffer|)] == old(buffer)
      ensures forall i :: old(|buffer|) <= i < |buffer| ==> buffer[i] == None
    {
      while |buffer| < len
        invariant old(|buffer|) <= |buffer| <= Max(len, old(|buffer|))
        invariant buffer[..old(|buffer|)] == old(buffer)
        invariant forall i :: old(|buffer|) <= i < |buffer| ==> buffer[i] == None
      {
        buffer := buffer + [None];
      }
    }

    method Get(key: Slot) returns (v: Option<Value>)
      requires Valid()
      ensures v == if key in Contents() then Some(Contents()[key]) else None
    {
      var normalized := Normalize(key);
      if normalized.None? || normalized.value >= |buffer| {
        v := None;
      } else {
        v := buffer[normalized.value];
      }
    }

    method Put(key: Slot, value: Value)
      requires Valid()
      modifies this
      ensures Valid()
      ensures Contents() == old(Contents())[key := value]
      ensures |buffer| == if key < old(|buffer|) then old(|buffer|) else key + 1 + growSize
      ensures largestKey == Some(if old(largestKey).None? then key else Max(old(largestKey).value, key))
    {
      largestKey := Some(if largestKey.None? then key else Max(largestKey.value, key));
      var normalized := Normalize(key);
      if normalized.Some? {
        if normalized.value >= |buffer| {
          ghost var before := buffer;
          Pad(normalized.value + 1 + growSize);
          assert forall i :: 0 <= i < |before| ==> buffer[i] == buffer[..|before|][i];
        }
        buffer := buffer[normalized.value := Some(value)];
      }
    }
  }

  class Replica {
    const config: ReplicaConfig
    const log: BufferMap
    var executedWatermark: Slot
    var numChosen: nat
    var recoverTimers: nat
    var currentLeader: Pid

    ghost function View(): ReplicaState
      reads this, log
    {
      ReplicaState(log.Contents(), executedWatermark, numChosen, recoverTimers)
    }

    ghost predicate Valid()
      reads this, log
    {
      config.every > 0 && config.n > 0 && log.Valid() && ReplicaInv(View())
    }

    constructor (n: nat, index: Pid, every: nat, growSize: nat)
      requires n > 0 && every > 0
      ensures Valid() && View() == InitReplica()
      ensures config == ReplicaConfig(n, index, every) && currentLeader == n && fresh(log)
    {
      config := ReplicaConfig(n, index, every);
      log := new BufferMap(growSize);
      executedWatermark, numChosen, recoverTimers := 0, 0, 0;
      currentLeader := n;
    }

    /** Executes the filled slots in order; only the replica of the current
        leader answers the client. */
    method ExecuteLog() returns (out: seq<Message>, replies: seq<Command>)
      requires config.every > 0 && config.n > 0 && log.Valid()
      modifies this`executedWatermark
      ensures executedWatermark == FirstHole(log.Contents(), old(executedWatermark))
      ensures out == Announcements(config, old(executedWatermark), executedWatermark)
      ensures replies == if config.index == currentLeader
                         then DecidedCommands(log.Contents(), old(executedWatermark), executedWatermark) else []
    {
      out, replies := [], [];
      while true
        invariant executedWatermark >= old(executedWatermark)
        invariant forall s :: old(executedWatermark) <= s < executedWatermark ==> s in log.Contents()
        invariant FirstHole(log.Contents(), old(executedWatermark)) == FirstHole(log.Contents(), executedWatermark)
        invariant out == Announcements(config, old(executedWatermark), executedWatermark)
        invariant replies == if config.index == currentLeader
                             then DecidedCommands(log.Contents(), old(executedWatermark), executedWatermark) else []
        decreases FilledFrom(log.Contents(), executedWatermark)
      {
        var entry := log.Get(executedWatermark);
        if entry.None? {
          return;
        }
        if config.index == currentLeader {
          replies := replies + Commands(entry.value);
        }
        ghost var before := FilledFrom(log.Contents(), executedWatermark);
        executedWatermark := executedWatermark + 1;
        assert FilledFrom(log.Contents(), executedWatermark) == before - {executedWatermark - 1};
        if Announces(config, executedWatermark) {
          out := out + [WatermarkMsg(executedWatermark)];
        }
      }
    }

    /** The election port names the leader. */
    method OnLeaderChange(leader: Pid)
      modifies this`currentLeader
      ensures currentLeader == leader
    {
      currentLeader := leader;
    }

    method OnChosen(slot: Slot, value: Value) returns (out: seq<Message>, replies: seq<Command>)
      requires Valid()
      modifies this, log
      ensures Valid()
      ensures (View(), out) == HandleChosen(config, old(View()), slot, value)
      ensures replies == if config.index == currentLeader
                         then DecidedCommands(log.Contents(), old(executedWatermark), executedWatermark) else []
      ensures currentLeader == old(currentLeader)
    {
      hide Announcements, DecidedCommands, FirstHole, ReplicaInv, BufferMap.Contents;
      NothingDecided(log.Contents(), executedWatermark);
      HandleChosenKeepsCounters(config, View(), slot, value);
      var wasRunning := numChosen != executedWatermark;
      var oldExecuted := executedWatermark;
      out, replies := [], [];
      var present := log.Get(slot);
      if present.Some? {
        return;
      }
      log.Put(slot, value);
      numChosen := numChosen + 1;
      out, replies := ExecuteLog();
      var shouldRun := numChosen != executedWatermark;
      var shouldReset := oldExecuted != executedWatermark;
      if wasRunning {
        if shouldRun && shouldReset {
          recoverTimers := recoverTimers + 1;
        }
      } else if shouldRun {
        recoverTimers := recoverTimers + 1;
      }
    }
  }
}
