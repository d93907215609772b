/** The round-robin assignment of rounds to leaders. */
module RoundRobin {
  import opened Common
  import opened PaxosTypes

  /** The leader that owns `round`: leader n owns the multiples of n. */
  function Owner(n: nat, round: Round): (p: Pid)
    requires n > 0
    ensures 1 <= p <= n
  {
    if round % n < 1 then n else round % n
  }

  function NextRound(n: nat, leader: Pid, round: Round): Round
    requires n > 0
  {
    var base := n * (round / n);
    var offset := leader % n;
    if base + offset > round then base + offset else base + n + offset
  }

  lemma OwnerOf(n: nat, round: Round, q: nat, o: nat)
    requires o < n && round == n * q + o
    ensures Owner(n, round) == if o == 0 then n else o
  {
    DivModUnique(n, round, q, o);
  }

  lemma LeaderOffset(n: nat, leader: Pid)
    requires 1 <= leader <= n
    ensures leader % n == if leader == n then 0 else leader
  {
    if leader == n {
      DivModUnique(n, leader, 1, 0);
    } else {
      DivModUnique(n, leader, 0, leader);
    }
  }

  /** The next classic round is the least later round that the leader owns. */
  lemma NextRoundIsLeastOwned(n: nat, leader: Pid, round: Round)
    requires 1 <= leader <= n
    ensures NextRound(n, leader, round) > round
    ensures Owner(n, NextRound(n, leader, round)) == leader
    ensures forall r: Round :: round < r < NextRound(n, leader, round) ==> Owner(n, r) != leader
  {
    var q, rest := round / n, round % n;
    var offset := leader % n;
    var base := n * q;
    assert round == base + rest;
    LeaderOffset(n, leader);
    NextRoundOwned(n, leader, round, q, offset);
    forall r: Round | round < r < NextRound(n, leader, round)
      ensures Owner(n, r) != leader
    {
      EarlierRoundNotOwned(n, base, q, rest, offset, r);
    }
  }

  lemma NextRoundOwned(n: nat, leader: Pid, round: Round, q: nat, offset: nat)
    requires 1 <= leader <= n && q == round / n && offset == leader % n
    requires offset == if leader == n then 0 else leader
    ensures Owner(n, NextRound(n, leader, round)) == leader
  {
    var base := n * q;
    if base + offset > round {
      OwnerOf(n, base + offset, q, offset);
    } else {
      assert base + n == n * (q + 1);
      OwnerOf(n, base + n + offset, q + 1, offset);
    }
  }

  lemma EarlierRoundNotOwned(n: nat, base: nat, q: nat, rest: nat, offset: nat, r: Round)
    requires base == n * q && rest < n && offset < n
    requires base + rest < r < if offset > rest then base + offset else base + n + offset
    ensures Owner(n, r) != if offset == 0 then n else offset
  {
    if r < base + n {
      OwnerOf(n, r, q, r - base);
    } else {
      assert base + n == n * (q + 1);
      OwnerOf(n, r, q + 1, r - (base + n));
    }
  }

  /** Leaders take turns: after leader p's round comes that of p + 1, after n's that of 1. */
  lemma LeadersTakeTurns(n: nat, round: Round)
    requires n > 0
    ensures Owner(n, round + 1) == if Owner(n, round) == n then 1 else Owner(n, round) + 1
  {
    var q, rest := round / n, round % n;
    OwnerOf(n, round, q, rest);
    if rest + 1 < n {
      OwnerOf(n, round + 1, q, rest + 1);
    } else {
      NextMultiple(n, q);
      OwnerOf(n, round + 1, q + 1, 0);
    }
  }

  /** Every leader starts in the first round of leader n. */
  lemma FirstRoundOwner(n: nat)
    requires n > 0
    ensures NextRound(n, n, 0) == n
    ensures Owner(n, 0) == n
    ensures Owner(n, n) == n
  {
    DivModUnique(n, n, 1, 0);
    DivModUnique(n, 0, 0, 0);
  }
}
