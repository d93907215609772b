/** Bytes, big-endian integers and writes into the middle of a buffer. */
module Bytes {
  import opened Common

  type Byte = x: int | 0 <= x < 256

  function Bound(k: nat): nat {
    if k == 0 then 1 else 256 * Bound(k - 1)
  }

  /** The `k` low-order bytes of `x`, most significant first. */
  function BigEndian(x: nat, k: nat): (b: seq<Byte>)
    ensures |b| == k
  {
    if k == 0 then [] else BigEndian(x / 256, k - 1) + [x % 256]
  }

  function Value(b: seq<Byte>): nat {
    if b == [] then 0 else 256 * Value(b[..|b| - 1]) + b[|b| - 1]
  }

  lemma DropByte(x: nat, m: nat)
    requires x < 256 * m
    ensures x / 256 < m
  {
  }

  lemma ValueSnoc(front: seq<Byte>, last: Byte)
    ensures Value(front + [last]) == 256 * Value(front) + last
  {
    assert (front + [last])[..|front|] == front;
  }

  lemma {:induction false} BigEndianRoundTrip(x: nat, k: nat)
    requires x < Bound(k)
    ensures Value(BigEndian(x, k)) == x
  {
    if k > 0 {
      var high, low := x / 256, x % 256;
      assert x == 256 * high + low;
      DropByte(x, Bound(k - 1));
      BigEndianRoundTrip(high, k - 1);
      hide Value, Bound;
      ValueSnoc(BigEndian(high, k - 1), low);
    }
  }

  lemma {:induction false} BoundPositive(k: nat)
    ensures Bound(k) > 0
  {
    if k > 0 {
      BoundPositive(k - 1);
    }
  }

  lemma DivDiv(x: nat, m: nat)
    requires m > 0
    ensures x / 256 / m == x / (256 * m)
  {
    var q, r := x / 256, x % 256;
    var q2, r2 := q / m, q % m;
    assert x == 256 * q + r && q == m * q2 + r2;
    assert x == (256 * m) * q2 + (256 * r2 + r);
    DivModUnique(256 * m, x, q2, 256 * r2 + r);
  }

  /** Byte `i` holds the digit of weight 256^(k - 1 - i): the most significant is first. */
  lemma {:induction false} BigEndianAt(x: nat, k: nat, i: nat)
    requires i < k
    ensures Bound(k - 1 - i) > 0 && BigEndian(x, k)[i] == (x / Bound(k - 1 - i)) % 256
  {
    BoundPositive(k - 1 - i);
    if i == k - 1 {
      assert Bound(0) == 1;
    } else {
      BigEndianAt(x / 256, k - 1, i);
      DivDiv(x, Bound(k - 2 - i));
    }
  }

  const U64_BOUND := 0x1_0000_0000_0000_0000

  type U64 = x: nat | x < 0x1_0000_0000_0000_0000

  function U64Bytes(x: U64): (b: seq<Byte>)
    ensures |b| == 8
  {
    BigEndian(x, 8)
  }

  lemma U64RoundTrip(x: U64)
    ensures Value(U64Bytes(x)) == x
  {
    assert Bound(2) == 65536;
    assert Bound(4) == 0x1_0000_0000;
    assert Bound(6) == 0x1_0000_0000_0000;
    assert Bound(8) == U64_BOUND;
    BigEndianRoundTrip(x, 8);
  }

  /** Writing `b` at position `at`; the write may run past the end of `s`. */
  function Overwrite(s: seq<Byte>, at: nat, b: seq<Byte>): (r: seq<Byte>)
    requires at <= |s|
    ensures |r| == if at + |b| <= |s| then |s| else at + |b|
    ensures r[..at] == s[..at] && r[at..at + |b|] == b
    ensures forall i :: at + |b| <= i < |s| ==> r[i] == s[i]
  {
    s[..at] + b + if at + |b| <= |s| then s[at + |b|..] else []
  }
}
