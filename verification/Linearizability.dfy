/** Register histories and what it means for them to be linearizable. */
module Linearizability {
  import opened Common

  datatype Kind = ReadInvocation | ReadResponse | WriteInvocation | WriteResponse

  datatype Event = Event(key: nat, kind: Kind, value: Option<nat>, time: int, sender: nat)

  /** A completed operation: what it wrote or returned, and when it ran. */
  datatype Op = Op(key: nat, sender: nat, write: bool, value: nat, inv: int, res: int)

  predicate IsInvocation(e: Event) {
    e.kind.ReadInvocation? || e.kind.WriteInvocation?
  }

  /** `f` is the response to the invocation `e`, and the value is recorded. */
  predicate Answers(e: Event, f: Event) {
    && e.key == f.key && e.sender == f.sender && e.time < f.time
    && ((e.kind.ReadInvocation? && f.kind.ReadResponse? && f.value.Some?)
        || (e.kind.WriteInvocation? && f.kind.WriteResponse? && e.value.Some?))
  }

  function OpOf(e: Event, f: Event): Op
    requires Answers(e, f)
  {
    var write := e.kind.WriteInvocation?;
    Op(e.key, e.sender, write, if write then e.value.value else f.value.value, e.time, f.time)
  }

  /** The completed operations of a trace. */
  ghost function OpsOf(h: seq<Event>): set<Op> {
    set e, f | e in h && f in h && Answers(e, f) :: OpOf(e, f)
  }

  /** Every event belongs to exactly one completed operation: a sender's two events
      on a key are an invocation and its response. */
  ghost predicate Complete(h: seq<Event>) {
    && (forall e, f :: e in h && f in h && e.key == f.key && e.sender == f.sender && e.time < f.time ==> Answers(e, f))
    && (forall e :: e in h && IsInvocation(e) ==> exists f :: f in h && Answers(e, f))
    && (forall f :: f in h && !IsInvocation(f) ==> exists e :: e in h && Answers(e, f))
  }

  /** Within one key no two events share a timestamp. */
  ghost predicate DistinctTimes(h: seq<Event>) {
    forall i, j :: 0 <= i < j < |h| && h[i].key == h[j].key ==> h[i].time != h[j].time
  }

  predicate NoDup<T(==)>(s: seq<T>) {
    s == [] || (s[0] !in s[1..] && NoDup(s[1..]))
  }

  /** No operation comes after one that was invoked only after it had responded. */
  ghost predicate RespectsRealTime(order: seq<Op>) {
    order == [] || ((forall x :: x in order[1..] ==> !(x.res < order[0].inv)) && RespectsRealTime(order[1..]))
  }

  /** A register that holds `v`: reads return the latest written value. */
  predicate Legal(v: nat, order: seq<Op>)
    decreases order
  {
    order == [] ||
    (if order[0].write then Legal(order[0].value, order[1..]) else order[0].value == v && Legal(v, order[1..]))
  }

  /** `order` arranges exactly the operations of `ops`, respecting real time. */
  ghost predicate Arranges(ops: set<Op>, order: seq<Op>) {
    NoDup(order) && RespectsRealTime(order) && forall o :: o in order <==> o in ops
  }

  /** A linearization of the operations of one key, from register value `v`. */
  ghost predicate Linearizes(ops: set<Op>, v: nat, order: seq<Op>) {
    Arranges(ops, order) && Legal(v, order)
  }

  ghost predicate Linearizable(h: seq<Event>, v: nat) {
    exists order :: Linearizes(OpsOf(h), v, order)
  }

  /** The operations of one key, in the given order. */
  function Project(order: seq<Op>, k: nat): seq<Op> {
    if order == [] then []
    else if order[0].key == k then [order[0]] + Project(order[1..], k)
    else Project(order[1..], k)
  }

  /** One total order over the operations of all keys that respects global real
      time and is legal for the register of each key, initially 0. */
  ghost predicate GloballyLinearizes(h: seq<Event>, order: seq<Op>) {
    Arranges(OpsOf(h), order) && forall k :: Legal(0, Project(order, k))
  }

  ghost predicate GloballyLinearizable(h: seq<Event>) {
    exists order :: GloballyLinearizes(h, order)
  }

  /** The values written along an order. */
  function Written(order: seq<Op>): seq<nat> {
    if order == [] then []
    else (if order[0].write then [order[0].value] else []) + Written(order[1..])
  }
}
