/** The backtracking search that decides whether a single-key trace is
    linearizable, and the checker over all keys. */
module LinearizabilitySearch {
  import opened Common
  import opened Linearizability

  /** An unwrap of an absent value ends the program. */
  datatype Verdict = Answer(linearizable: bool) | Panic

  class ValueStack {
    var items: seq<nat>

    constructor (items: seq<nat>)
      ensures this.items == items
    {
      this.items := items;
    }
  }

  ghost predicate SortedByTime(h: seq<Event>) {
    forall i, j :: 0 <= i < j < |h| ==> h[i].time < h[j].time
  }

  ghost predicate OneKey(h: seq<Event>) {
    forall e, f :: e in h && f in h ==> e.key == f.key
  }

  /** A complete trace of one key with strictly increasing timestamps. */
  ghost predicate KeyTrace(h: seq<Event>) {
    Complete(h) && SortedByTime(h) && OneKey(h)
  }

  // ----- helpers of the search -------------------------------------------------

  function MinimalPrefix(h: seq<Event>): seq<Event> {
    if h == [] || !IsInvocation(h[0]) then [] else [h[0]] + MinimalPrefix(h[1..])
  }

  /** The invocations before the first response. */
  method GetMinimalOps(trace: seq<Event>) returns (ops: seq<Event>)
    ensures ops == MinimalPrefix(trace)
    ensures forall e :: e in ops ==> e in trace && IsInvocation(e)
  {
    ops := [];
    var i := 0;
    while i < |trace|
      invariant 0 <= i <= |trace|
      invariant MinimalPrefix(trace) == ops + MinimalPrefix(trace[i..])
      invariant forall e :: e in ops ==> e in trace && IsInvocation(e)
    {
      if !IsInvocation(trace[i]) {
        break;
      }
      ops := ops + [trace[i]];
      i := i + 1;
    }
  }

  /** The value of a write, or what the read by the same sender returned. */
  function ResponseValue(invocation: Event, trace: seq<Event>): Option<nat> {
    if invocation.kind.ReadInvocation? then FirstReadValue(invocation.sender, trace) else invocation.value
  }

  function FirstReadValue(sender: nat, trace: seq<Event>): Option<nat> {
    if trace == [] then None
    else if trace[0].kind.ReadResponse? && trace[0].sender == sender then trace[0].value
    else FirstReadValue(sender, trace[1..])
  }

  function Without(sender: nat, trace: seq<Event>): (rest: seq<Event>)
    ensures |rest| <= |trace|
    ensures forall e :: e in rest <==> e in trace && e.sender != sender
  {
    if trace == [] then []
    else if trace[0].sender == sender then Without(sender, trace[1..])
    else [trace[0]] + Without(sender, trace[1..])
  }

  /** Removes both events of an operation; at least the entry itself goes. */
  method RemoveOp(entry: Event, trace: seq<Event>) returns (rest: seq<Event>)
    requires entry in trace
    ensures rest == Without(entry.sender, trace)
    ensures |rest| < |trace|
  {
    hide Without;
    rest := [];
    for i := 0 to |trace|
      invariant Without(entry.sender, trace) == rest + Without(entry.sender, trace[i..])
      invariant |rest| <= i && (|rest| == i ==> entry !in trace[..i])
    {
      WithoutFrom(entry.sender, trace, i);
      if trace[i].sender != entry.sender {
        rest := rest + [trace[i]];
      }
    }
    assert trace[..|trace|] == trace;
    assert trace[|trace|..] == [];
  }

  lemma WithoutFrom(sender: nat, trace: seq<Event>, i: nat)
    requires i < |trace|
    ensures Without(sender, trace[i..]) ==
      (if trace[i].sender == sender then [] else [trace[i]]) + Without(sender, trace[i + 1..])
  {
    assert trace[i..][1..] == trace[i + 1..];
  }

  // ----- facts about complete single-key traces -----------------------------------

  lemma {:induction false} SortedWithout(sender: nat, h: seq<Event>)
    requires SortedByTime(h)
    ensures SortedByTime(Without(sender, h))
  {
    if h != [] {
      assert SortedByTime(h[1..]);
      SortedWithout(sender, h[1..]);
      var rest := Without(sender, h[1..]);
      forall e | e in rest
        ensures h[0].time < e.time
      {
        assert e in h[1..];
      }
    }
  }

  lemma WithoutIsKeyTrace(o: Event, h: seq<Event>)
    requires KeyTrace(h)
    ensures KeyTrace(Without(o.sender, h))
  {
    SortedWithout(o.sender, h);
    var rest := Without(o.sender, h);
    forall e | e in rest && IsInvocation(e)
      ensures exists f :: f in rest && Answers(e, f)
    {
      var f :| f in h && Answers(e, f);
      assert f in rest;
    }
    forall f | f in rest && !IsInvocation(f)
      ensures exists e :: e in rest && Answers(e, f)
    {
      var e :| e in h && Answers(e, f);
      assert e in rest;
    }
  }

  lemma TimesIdentifyEvents(h: seq<Event>, e: Event, f: Event)
    requires SortedByTime(h) && e in h && f in h && e.time == f.time
    ensures e == f
  {
    var i :| 0 <= i < |h| && h[i] == e;
    var j :| 0 <= j < |h| && h[j] == f;
  }

  /** A sender has one invocation and one response. */
  lemma OneEventPerSide(h: seq<Event>, e: Event, f: Event)
    requires KeyTrace(h) && e in h && f in h && e.sender == f.sender && IsInvocation(e) == IsInvocation(f)
    ensures e == f
  {
    assert e.key == f.key;
    assert !Answers(e, f) && !Answers(f, e);
    assert e.time == f.time;
    TimesIdentifyEvents(h, e, f);
  }

  /** Each sender has one operation in a complete trace of one key. */
  lemma OneOpPerSender(h: seq<Event>, x: Op, y: Op)
    requires KeyTrace(h) && x in OpsOf(h) && y in OpsOf(h) && x.sender == y.sender
    ensures x == y
  {
    hide KeyTrace;
    var e, f :| e in h && f in h && Answers(e, f) && x == OpOf(e, f);
    var e', f' :| e' in h && f' in h && Answers(e', f') && y == OpOf(e', f');
    OneEventPerSide(h, e, e');
    OneEventPerSide(h, f, f');
  }

  /** Removing a sender removes exactly its operation. */
  lemma OpsWithout(sender: nat, h: seq<Event>, x: Op)
    ensures x in OpsOf(Without(sender, h)) <==> x in OpsOf(h) && x.sender != sender
  {
    var rest := Without(sender, h);
    if x in OpsOf(h) && x.sender != sender {
      var e, f :| e in h && f in h && Answers(e, f) && x == OpOf(e, f);
      assert e in rest && f in rest;
    }
  }

  lemma {:induction false} FirstReadOf(h: seq<Event>, f: Event)
    requires f in h && f.kind.ReadResponse?
    requires forall g :: g in h && g.kind.ReadResponse? && g.sender == f.sender ==> g == f
    ensures FirstReadValue(f.sender, h) == f.value
  {
    if !(h[0].kind.ReadResponse? && h[0].sender == f.sender) {
      FirstReadOf(h[1..], f);
    } else {
      assert h[0] in h;
    }
  }

  /** The operation behind an invocation, with the value the search looks up. */
  lemma InvocationOp(h: seq<Event>, e: Event) returns (o: Op)
    requires KeyTrace(h) && e in h && IsInvocation(e)
    ensures o in OpsOf(h) && o.sender == e.sender && o.inv == e.time && o.write == e.kind.WriteInvocation?
    ensures ResponseValue(e, h) == Some(o.value)
  {
    var f :| f in h && Answers(e, f);
    o := OpOf(e, f);
    hide KeyTrace, Complete;
    if e.kind.ReadInvocation? {
      forall g | g in h && g.kind.ReadResponse? && g.sender == f.sender
        ensures g == f
      {
        OneEventPerSide(h, f, g);
      }
      FirstReadOf(h, f);
    }
  }

  /** In a sorted trace the minimal prefix holds the invocations before every response. */
  lemma {:induction false} MinimalMeansFirst(h: seq<Event>, e: Event)
    requires SortedByTime(h) && e in h
    ensures e in MinimalPrefix(h) <==> IsInvocation(e) && forall f :: f in h && !IsInvocation(f) ==> e.time < f.time
  {
    if !IsInvocation(h[0]) {
      assert h[0] in h;
      var i :| 0 <= i < |h| && h[i] == e;
      assert h[0].time <= e.time;
    } else if e == h[0] {
      forall f | f in h && !IsInvocation(f)
        ensures e.time < f.time
      {
        var i :| 0 <= i < |h| && h[i] == f;
      }
    } else {
      var t := h[1..];
      assert e in t;
      MinimalMeansFirst(t, e);
      assert forall f :: f in h <==> f == h[0] || f in t;
      assert MinimalPrefix(h) == [h[0]] + MinimalPrefix(t);
    }
  }

  // ----- one step of the search --------------------------------------------------

  /** The register after an operation, if the operation is legal on `v`. */
  function After(v: nat, o: Op): nat {
    if o.write then o.value else v
  }

  predicate LegalFirst(v: nat, o: Op) {
    o.write || o.value == v
  }

  /** A minimal legal operation in front of a linearization of the rest. */
  lemma PrependOp(h: seq<Event>, v: nat, e: Event, o: Op, rest: seq<Op>)
    requires KeyTrace(h) && e in MinimalPrefix(h) && e in h && o in OpsOf(h) && o.sender == e.sender && o.inv == e.time
    requires LegalFirst(v, o) && Linearizes(OpsOf(Without(e.sender, h)), After(v, o), rest)
    ensures Linearizes(OpsOf(h), v, [o] + rest)
  {
    hide OpsOf, MinimalPrefix, Without, Complete, OneKey, RespectsRealTime, NoDup;
    var ops, ops' := OpsOf(h), OpsOf(Without(e.sender, h));
    forall x
      ensures x in ops <==> x == o || x in ops'
      ensures x in ops' ==> x != o && !(x.res < o.inv)
    {
      OpsWithout(e.sender, h, x);
      if x in ops && x.sender == e.sender {
        OneOpPerSender(h, x, o);
      }
      if x in ops' {
        MinimalBeforeResponses(h, e, x);
      }
    }
    ConsArranges(ops, o, rest);
    assert ([o] + rest)[1..] == rest;
  }

  lemma ConsArranges(ops: set<Op>, o: Op, rest: seq<Op>)
    requires NoDup(rest) && RespectsRealTime(rest) && o !in rest
    requires forall x :: x in rest ==> !(x.res < o.inv)
    requires forall x :: x in ops <==> x == o || x in rest
    ensures Arranges(ops, [o] + rest)
  {
    assert ([o] + rest)[1..] == rest;
  }

  lemma MinimalBeforeResponses(h: seq<Event>, e: Event, x: Op)
    requires SortedByTime(h) && e in h && e in MinimalPrefix(h) && x in OpsOf(h)
    ensures !(x.res < e.time)
  {
    MinimalMeansFirst(h, e);
    var g, f :| g in h && f in h && Answers(g, f) && x == OpOf(g, f);
  }

  /** A linearization starts with a minimal operation, and its tail linearizes the rest. */
  lemma SplitFirst(h: seq<Event>, v: nat, order: seq<Op>) returns (e: Event)
    requires KeyTrace(h) && order != [] && Linearizes(OpsOf(h), v, order)
    ensures e in MinimalPrefix(h) && e in h && IsInvocation(e) && e.sender == order[0].sender
    ensures LegalFirst(v, order[0]) && Linearizes(OpsOf(Without(e.sender, h)), After(v, order[0]), order[1..])
  {
    var o := order[0];
    assert o in order;
    var e', f' :| e' in h && f' in h && Answers(e', f') && o == OpOf(e', f');
    e := e';
    forall f | f in h && !IsInvocation(f)
      ensures e.time < f.time
    {
      var g :| g in h && Answers(g, f);
      var x := OpOf(g, f);
      assert x in OpsOf(h);
      assert x in order;
      if x != o {
        assert x in order[1..];
      }
      if f.time == e.time { TimesIdentifyEvents(h, e, f); }
    }
    MinimalMeansFirst(h, e);
    forall x
      ensures x in order[1..] <==> x in OpsOf(Without(e.sender, h))
    {
      OpsWithout(e.sender, h, x);
      if x in OpsOf(h) && x.sender == o.sender {
        OneOpPerSender(h, x, o);
      }
    }
  }

  lemma EmptyTrace(v: nat)
    ensures Linearizes(OpsOf([]), v, [])
  {
  }

  /** Every operation is behind some minimal one, so a non-empty trace has none
      other than non-empty linearizations. */
  lemma NonEmptyOrder(h: seq<Event>, v: nat, order: seq<Op>)
    requires KeyTrace(h) && h != [] && Linearizes(OpsOf(h), v, order)
    ensures order != []
  {
    var e := h[0];
    assert e in h;
    if IsInvocation(e) {
      var f :| f in h && Answers(e, f);
      assert OpOf(e, f) in order;
    } else {
      var g :| g in h && Answers(g, e);
      assert OpOf(g, e) in order;
    }
  }

  // ----- the search -----------------------------------------------------------------

  /** `order` linearizes the trace from the top of the stack `s`, and pushing its
      writes on `s` gives `s'`. */
  ghost predicate Explains(h: seq<Event>, s: seq<nat>, order: seq<Op>, s': seq<nat>) {
    s != [] && Linearizes(OpsOf(h), s[|s| - 1], order) && s' == s + Written(order)
  }

  /** No linearization from value `v` starts with the operation invoked by `e`. */
  ghost predicate NoneStartsWith(h: seq<Event>, v: nat, e: Event) {
    forall order: seq<Op> :: Linearizes(OpsOf(h), v, order) && order != [] ==> order[0].sender != e.sender
  }

  lemma NotLegalFirst(h: seq<Event>, v: nat, e: Event, o: Op)
    requires KeyTrace(h) && e in h && o in OpsOf(h) && o.sender == e.sender
    requires !LegalFirst(v, o) || !Linearizable(Without(e.sender, h), After(v, o))
    ensures NoneStartsWith(h, v, e)
  {
    forall order: seq<Op> | Linearizes(OpsOf(h), v, order) && order != []
      ensures order[0].sender != e.sender
    {
      if order[0].sender == e.sender {
        assert order[0] in order;
        OneOpPerSender(h, order[0], o);
        var e' := SplitFirst(h, v, order);
        assert Linearizes(OpsOf(Without(e.sender, h)), After(v, o), order[1..]);
      }
    }
  }

  lemma Exhausted(h: seq<Event>, v: nat, ops: seq<Event>)
    requires KeyTrace(h) && h != [] && ops == MinimalPrefix(h) && forall e :: e in ops ==> NoneStartsWith(h, v, e)
    ensures !Linearizable(h, v)
  {
    hide Linearizes, KeyTrace, MinimalPrefix, OpsOf;
    forall order: seq<Op>
      ensures !Linearizes(OpsOf(h), v, order)
    {
      if Linearizes(OpsOf(h), v, order) {
        NonEmptyOrder(h, v, order);
        var e := SplitFirst(h, v, order);
      }
    }
  }

  lemma ExplainsPrepend(h: seq<Event>, s: seq<nat>, e: Event, o: Op, s1: seq<nat>, rest: seq<Op>, s': seq<nat>)
    requires KeyTrace(h) && s != [] && e in MinimalPrefix(h) && e in h && o in OpsOf(h) && o.sender == e.sender &&
      o.inv == e.time
    requires LegalFirst(s[|s| - 1], o) && s1 == if o.write then s + [o.value] else s
    requires Explains(Without(e.sender, h), s1, rest, s')
    ensures Explains(h, s, [o] + rest, s')
  {
    hide Linearizes, KeyTrace, MinimalPrefix, OpsOf, Without;
    PrependOp(h, s[|s| - 1], e, o, rest);
    var order := [o] + rest;
    assert order[1..] == rest;
    assert s1 + Written(rest) == s + Written(order);
  }

  /** The search terminates.  On a complete trace with a non-empty stack it answers,
      and the answer is exactly whether a linearization from the top value exists;
      with a positive answer the stack has grown by the writes of one linearization;
      and whenever it answers false the stack is as it was. */
  method IsLinearizable(h: seq<Event>, s: ValueStack) returns (r: Verdict)
    modifies s
    ensures r == Answer(false) ==> s.items == old(s.items)
    ensures KeyTrace(h) && old(s.items) != [] ==>
      r == Answer(Linearizable(h, old(s.items)[|old(s.items)| - 1]))
    ensures KeyTrace(h) && old(s.items) != [] && r == Answer(true) ==>
      exists order :: Explains(h, old(s.items), order, s.items)
    decreases |h|
  {
    hide Linearizes, KeyTrace, MinimalPrefix, OpsOf, Without, NoneStartsWith, ResponseValue;
    if h == [] {
      if s.items != [] {
        EmptyTrace(s.items[|s.items| - 1]);
        assert s.items == s.items + Written([]);
        assert Explains(h, s.items, [], s.items);
      }
      return Answer(true);
    }
    ghost var top := if s.items == [] then 0 else s.items[|s.items| - 1];
    ghost var good := KeyTrace(h) && s.items != [];
    var ops := GetMinimalOps(h);
    for i := 0 to |ops|
      invariant s.items == old(s.items)
      invariant good ==> forall e :: e in ops[..i] ==> NoneStartsWith(h, top, e)
    {
      var op := ops[i];
      assert op in ops;
      var responseValue := ResponseValue(op, h);
      ghost var o: Op;
      if good {
        o := InvocationOp(h, op);
        WithoutIsKeyTrace(op, h);
      }
      if responseValue.None? {
        return Panic;
      }
      if op.kind.WriteInvocation? || op.kind.WriteResponse? {
        var removed := RemoveOp(op, h);
        s.items := s.items + [responseValue.value];
        ghost var pushed := s.items;
        var inner := IsLinearizable(removed, s);
        if inner == Panic {
          return Panic;
        }
        if inner == Answer(true) {
          if good {
            ghost var rest :| Explains(removed, pushed, rest, s.items);
            ExplainsPrepend(h, old(s.items), op, o, pushed, rest, s.items);
          }
          return Answer(true);
        }
        s.items := s.items[..|s.items| - 1];
        assert s.items == old(s.items);
        if good {
          NotLegalFirst(h, top, op, o);
        }
      } else {
        var removed := RemoveOp(op, h);
        if s.items == [] {
          return Panic;
        }
        if s.items[|s.items| - 1] == responseValue.value {
          var inner := IsLinearizable(removed, s);
          if inner == Panic {
            return Panic;
          }
          if inner == Answer(true) {
            if good {
              ghost var rest :| Explains(removed, old(s.items), rest, s.items);
              ExplainsPrepend(h, old(s.items), op, o, old(s.items), rest, s.items);
            }
            return Answer(true);
          }
        }
        if good {
          NotLegalFirst(h, top, op, o);
        }
      }
    }
    assert ops[..|ops|] == ops;
    if good {
      Exhausted(h, top, ops);
    }
    return Answer(false);
  }
}
