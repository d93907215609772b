/** Fields of wire messages: what serialisers put in front of the bytes that follow, and
    what deserialisers take off the front of a buffer. */
module WireFormat {
  import opened Bytes

  /** What is read, and the bytes left; or an unknown message tag; or a panic: a read past
      the end of the buffer or an unknown nested tag. */
  datatype Parse<+T> = Parsed(value: T, rest: seq<Byte>) | InvalidType | Panic {
    predicate IsFailure() { !Parsed? }
    function PropagateFailure<U>(): Parse<U> requires IsFailure() { if InvalidType? then InvalidType else Panic }
    function Extract(): (T, seq<Byte>) requires !IsFailure() { (value, rest) }
  }

  type U8 = x: nat | x < 256
  type U32 = x: nat | x < 0x1_0000_0000

  const U32_BOUND: nat := 0x1_0000_0000

  /** The `k` low-order bytes of `x`: longer values are truncated. */
  function Put(k: nat, x: nat, tail: seq<Byte>): seq<Byte> {
    BigEndian(x, k) + tail
  }

  function Get(k: nat, s: seq<Byte>): (r: Parse<nat>)
    ensures r.Parsed? ==> r.value < Bound(k)
  {
    if |s| < k then Panic else
      ValueBounded(s[..k]);
      Parsed(Value(s[..k]), s[k..])
  }

  lemma {:induction false} ValueBounded(b: seq<Byte>)
    ensures Value(b) < Bound(|b|)
  {
    if b != [] {
      ValueBounded(b[..|b| - 1]);
    }
  }

  lemma Bounds()
    ensures Bound(1) == 256 && Bound(4) == U32_BOUND && Bound(8) == U64_BOUND
  {
    assert Bound(2) == 65536;
    assert Bound(6) == 0x1_0000_0000_0000;
  }

  function PutU8(x: U8, tail: seq<Byte>): seq<Byte> { Put(1, x, tail) }
  function PutU32(x: U32, tail: seq<Byte>): seq<Byte> { Put(4, x, tail) }
  function PutU64(x: U64, tail: seq<Byte>): seq<Byte> { Put(8, x, tail) }

  /** A length is cast to 32 bits before it is written. */
  function PutLen(x: nat, tail: seq<Byte>): seq<Byte> { Put(4, x, tail) }

  function GetU8(s: seq<Byte>): Parse<U8> {
    Bounds();
    match Get(1, s) case Parsed(x, rest) => Parsed(x, rest) case _ => Panic
  }

  function GetU32(s: seq<Byte>): Parse<U32> {
    Bounds();
    match Get(4, s) case Parsed(x, rest) => Parsed(x, rest) case _ => Panic
  }

  function GetU64(s: seq<Byte>): Parse<U64> {
    Bounds();
    match Get(8, s) case Parsed(x, rest) => Parsed(x, rest) case _ => Panic
  }

  lemma GetPut(k: nat, x: nat, tail: seq<Byte>)
    requires x < Bound(k)
    ensures Get(k, Put(k, x, tail)) == Parsed(x, tail)
  {
    hide Value, Bound, BigEndian;
    BigEndianRoundTrip(x, k);
    assert Put(k, x, tail)[..k] == BigEndian(x, k);
    assert Put(k, x, tail)[k..] == tail;
  }

  /** Fixed-width fields, and lengths that fit, are read back. */
  lemma FieldsRoundTrip()
    ensures forall x: U8, tail :: GetU8(PutU8(x, tail)) == Parsed(x, tail)
    ensures forall x: U32, tail :: GetU32(PutU32(x, tail)) == Parsed(x, tail)
    ensures forall x: U64, tail :: GetU64(PutU64(x, tail)) == Parsed(x, tail)
    ensures forall x: nat, tail :: x < U32_BOUND ==> GetU32(PutLen(x, tail)) == Parsed(x, tail)
  {
    hide Get, Put, Bound;
    Bounds();
    forall x: U8, tail ensures GetU8(PutU8(x, tail)) == Parsed(x, tail) { GetPut(1, x, tail); }
    forall x: U32, tail ensures GetU32(PutU32(x, tail)) == Parsed(x, tail) { GetPut(4, x, tail); }
    forall x: U64, tail ensures GetU64(PutU64(x, tail)) == Parsed(x, tail) { GetPut(8, x, tail); }
    forall x: nat, tail | x < U32_BOUND ensures GetU32(PutLen(x, tail)) == Parsed(x, tail) { GetPut(4, x, tail); }
  }

  /** What the fields look like on the wire. */
  lemma FieldsWire()
    ensures forall x: U8, tail :: PutU8(x, tail) == [x] + tail
    ensures forall x: U32, tail :: PutU32(x, tail) == BigEndian(x, 4) + tail
    ensures forall x: U64, tail :: PutU64(x, tail) == BigEndian(x, 8) + tail
    ensures forall x: nat, tail :: PutLen(x, tail) == BigEndian(x, 4) + tail
  {
    forall x: U8, tail
      ensures PutU8(x, tail) == [x] + tail
    {
      assert BigEndian(x, 1) == BigEndian(x / 256, 0) + [x % 256];
    }
  }

  // ----- byte strings and lists ---------------------------------------------------------

  function PutBytes(b: seq<Byte>, tail: seq<Byte>): seq<Byte> {
    PutLen(|b|, b + tail)
  }

  function Take(n: nat, s: seq<Byte>): (r: Parse<seq<Byte>>)
    ensures r.Parsed? ==> |r.value| == n
  {
    if |s| < n then Panic else Parsed(s[..n], s[n..])
  }

  function GetBytes(s: seq<Byte>): (r: Parse<seq<Byte>>)
    ensures r.Parsed? ==> |r.value| < U32_BOUND
  {
    var (n, s1) :- GetU32(s);
    Take(n, s1)
  }

  lemma BytesRoundTrip(b: seq<Byte>, tail: seq<Byte>)
    requires |b| < U32_BOUND
    ensures GetBytes(PutBytes(b, tail)) == Parsed(b, tail)
  {
    hide GetU32, PutLen;
    FieldsRoundTrip();
    assert (b + tail)[..|b|] == b && (b + tail)[|b|..] == tail;
  }

  function PutAll<T>(put: (T, seq<Byte>) -> seq<Byte>, xs: seq<T>, tail: seq<Byte>): seq<Byte> {
    if xs == [] then tail else put(xs[0], PutAll(put, xs[1..], tail))
  }

  /** The length, then the elements. */
  function PutList<T>(put: (T, seq<Byte>) -> seq<Byte>, xs: seq<T>, tail: seq<Byte>): seq<Byte> {
    PutLen(|xs|, PutAll(put, xs, tail))
  }

  function GetAll<T>(get: seq<Byte> -> Parse<T>, n: nat, s: seq<Byte>): (r: Parse<seq<T>>)
    ensures r.Parsed? ==> |r.value| == n
  {
    if n == 0 then Parsed([], s)
    else
      var (x, s1) :- get(s);
      var (xs, s2) :- GetAll(get, n - 1, s1);
      Parsed([x] + xs, s2)
  }

  function GetList<T>(get: seq<Byte> -> Parse<T>, s: seq<Byte>): (r: Parse<seq<T>>)
    ensures r.Parsed? ==> |r.value| < U32_BOUND
  {
    var (n, s1) :- GetU32(s);
    GetAll(get, n, s1)
  }

  lemma {:induction false} AllRoundTrip<T>(put: (T, seq<Byte>) -> seq<Byte>, get: seq<Byte> -> Parse<T>, xs: seq<T>,
    tail: seq<Byte>)
    requires forall x, t :: x in xs ==> get(put(x, t)) == Parsed(x, t)
    ensures GetAll(get, |xs|, PutAll(put, xs, tail)) == Parsed(xs, tail)
  {
    if xs != [] {
      AllRoundTrip(put, get, xs[1..], tail);
      assert [xs[0]] + xs[1..] == xs;
    }
  }

  /** A list is its length and then its elements, the first one first. */
  lemma ListWire<T>(put: (T, seq<Byte>) -> seq<Byte>, x: T, xs: seq<T>, tail: seq<Byte>)
    ensures PutList(put, xs, tail) == BigEndian(|xs|, 4) + PutAll(put, xs, tail)
    ensures PutAll(put, [], tail) == tail
    ensures PutAll(put, [x] + xs, tail) == put(x, PutAll(put, xs, tail))
  {
    assert ([x] + xs)[1..] == xs;
  }

  /** A list is read back when its length fits and its elements are read back. */
  lemma ListRoundTrip<T>(put: (T, seq<Byte>) -> seq<Byte>, get: seq<Byte> -> Parse<T>, xs: seq<T>, tail: seq<Byte>)
    requires |xs| < U32_BOUND && forall x, t :: x in xs ==> get(put(x, t)) == Parsed(x, t)
    ensures GetList(get, PutList(put, xs, tail)) == Parsed(xs, tail)
  {
    hide GetU32, PutLen;
    FieldsRoundTrip();
    AllRoundTrip(put, get, xs, tail);
  }

  /** What holds of every element that can be read holds of the elements of a list. */
  lemma {:induction false} AllParsed<T>(get: seq<Byte> -> Parse<T>, n: nat, s: seq<Byte>, ok: T -> bool)
    requires forall t :: get(t).Parsed? ==> ok(get(t).value)
    ensures GetAll(get, n, s).Parsed? ==> forall x :: x in GetAll(get, n, s).value ==> ok(x)
  {
    if n > 0 && get(s).Parsed? {
      AllParsed(get, n - 1, get(s).rest, ok);
    }
  }

  lemma ListParsed<T>(get: seq<Byte> -> Parse<T>, s: seq<Byte>, ok: T -> bool)
    requires forall t :: get(t).Parsed? ==> ok(get(t).value)
    ensures GetList(get, s).Parsed? ==> forall x :: x in GetList(get, s).value ==> ok(x)
  {
    hide GetU32;
    if GetU32(s).Parsed? {
      AllParsed(get, GetU32(s).value, GetU32(s).rest, ok);
    }
  }

  // ----- what is put in front does not depend on what follows -----------------------------------

  lemma PutAppends(k: nat, x: nat, s: seq<Byte>, t: seq<Byte>)
    ensures Put(k, x, s + t) == Put(k, x, s) + t
  {
    hide BigEndian;
  }

  lemma FieldsAppend()
    ensures forall x: U8, s, t :: PutU8(x, s + t) == PutU8(x, s) + t
    ensures forall x: U32, s, t :: PutU32(x, s + t) == PutU32(x, s) + t
    ensures forall x: U64, s, t :: PutU64(x, s + t) == PutU64(x, s) + t
    ensures forall x: nat, s, t :: PutLen(x, s + t) == PutLen(x, s) + t
  {
    hide Put;
    forall x: U8, s, t ensures PutU8(x, s + t) == PutU8(x, s) + t { PutAppends(1, x, s, t); }
    forall x: U32, s, t ensures PutU32(x, s + t) == PutU32(x, s) + t { PutAppends(4, x, s, t); }
    forall x: U64, s, t ensures PutU64(x, s + t) == PutU64(x, s) + t { PutAppends(8, x, s, t); }
    forall x: nat, s, t ensures PutLen(x, s + t) == PutLen(x, s) + t { PutAppends(4, x, s, t); }
  }

  lemma BytesAppend(b: seq<Byte>, s: seq<Byte>, t: seq<Byte>)
    ensures PutBytes(b, s + t) == PutBytes(b, s) + t
  {
    hide PutLen;
    FieldsAppend();
    assert b + (s + t) == (b + s) + t;
  }

  lemma {:induction false} AllAppend<T>(put: (T, seq<Byte>) -> seq<Byte>, xs: seq<T>, s: seq<Byte>, t: seq<Byte>)
    requires forall x, s, t :: x in xs ==> put(x, s + t) == put(x, s) + t
    ensures PutAll(put, xs, s + t) == PutAll(put, xs, s) + t
  {
    if xs != [] {
      AllAppend(put, xs[1..], s, t);
    }
  }

  lemma ListAppends<T>(put: (T, seq<Byte>) -> seq<Byte>, xs: seq<T>, s: seq<Byte>, t: seq<Byte>)
    requires forall x, s, t :: x in xs ==> put(x, s + t) == put(x, s) + t
    ensures PutList(put, xs, s + t) == PutList(put, xs, s) + t
  {
    hide PutLen;
    FieldsAppend();
    AllAppend(put, xs, s, t);
  }
}
