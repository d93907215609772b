/** Replacing members of a configuration. */
module Membership {
  import opened Common

  datatype Policy = ReplaceLeader | ReplaceFollower

  function Followers(config: seq<nat>, leader: nat): seq<nat> {
    if config == [] then []
    else
      var front, last := Followers(config[..|config| - 1], leader), config[|config| - 1];
      if last != leader then front + [last] else front
  }

  lemma {:induction false} FollowersFacts(config: seq<nat>, leader: nat)
    ensures forall x :: x in Followers(config, leader) <==> x in config && x != leader
    ensures Distinct(config) ==> Distinct(Followers(config, leader))
    ensures Distinct(config) ==> |Followers(config, leader)| == if leader in config then |config| - 1 else |config|
  {
    if config != [] {
      var front, last := config[..|config| - 1], config[|config| - 1];
      FollowersFacts(front, leader);
      assert config == front + [last];
      if Distinct(config) {
        assert last !in front;
      }
    }
  }

  lemma RemoveAt(nodes: seq<nat>, k: nat)
    requires k < |nodes|
    ensures forall x :: x in nodes[..k] + nodes[k + 1..] ==> x in nodes
    ensures Distinct(nodes) ==> Distinct(nodes[..k] + nodes[k + 1..])
  {
  }

  lemma JoinDistinct(a: seq<nat>, b: seq<nat>)
    ensures Distinct(a + b) <==> Distinct(a) && Distinct(b) && forall x :: x in a ==> x !in b
  {
    var s := a + b;
    assert forall i :: 0 <= i < |s| ==> if i < |a| then s[i] in a else s[i] in b;
    if Distinct(s) {
      forall i, j | 0 <= i < j < |a| ensures a[i] != a[j] { assert s[i] != s[j]; }
      forall i, j | 0 <= i < j < |b| ensures b[i] != b[j] { assert s[|a| + i] != s[|a| + j]; }
      forall i, j | 0 <= i < |a| && 0 <= j < |b| ensures a[i] != b[j] { assert s[i] != s[|a| + j]; }
    }
  }

  /** How many followers go; negative when there is no node to take the leader's place. */
  function NumRemove(policy: Policy, newNodes: seq<nat>): int {
    match policy
    case ReplaceFollower => |newNodes|
    case ReplaceLeader => |newNodes| - 1
  }

  /** The new configuration: the kept followers, the new nodes and a kept leader. */
  ghost predicate IsReplacement(policy: Policy, newNodes: seq<nat>, leader: nat, config: seq<nat>,
                                kept: seq<nat>, r: seq<nat>) {
    && r == kept + newNodes + (if policy.ReplaceFollower? then [leader] else [])
    && |r| == |Followers(config, leader)| + 1
    && (forall x :: x in kept ==> x in config && x != leader)
    && (Distinct(config) ==> Distinct(kept))
  }

  /** For every choice of removals, given as arbitrary random numbers. The code panics
      when there is no node to replace the leader with or no follower left to remove. */
  method GetNewConfiguration(policy: Policy, newNodes: seq<nat>, leader: nat, config: seq<nat>, random: seq<nat>)
      returns (r: Option<seq<nat>>, ghost kept: seq<nat>)
    requires |random| == |newNodes|
    ensures r.Some? <==> 0 <= NumRemove(policy, newNodes) <= |Followers(config, leader)|
    ensures r.Some? ==> IsReplacement(policy, newNodes, leader, config, kept, r.value)
  {
    hide Distinct, Followers;
    var followers := Followers(config, leader);
    FollowersFacts(config, leader);
    var numRemove := NumRemove(policy, newNodes);
    if numRemove < 0 {
      return None, [];
    }
    var left := RemoveRandom(followers, numRemove, random);
    if left.None? {
      return None, [];
    }
    var nodes := left.value;
    kept := nodes;
    nodes := nodes + newNodes;
    if policy.ReplaceFollower? {
      nodes := nodes + [leader];
    }
    return Some(nodes), kept;
  }

  /** Removes `num` nodes one after the other. */
  method RemoveRandom(followers: seq<nat>, num: nat, random: seq<nat>) returns (left: Option<seq<nat>>)
    requires num <= |random|
    ensures left.Some? <==> num <= |followers|
    ensures left.Some? ==> |left.value| == |followers| - num && forall x :: x in left.value ==> x in followers
    ensures left.Some? && Distinct(followers) ==> Distinct(left.value)
  {
    hide Distinct;
    var nodes := followers;
    for i := 0 to num
      invariant |nodes| == |followers| - i
      invariant forall x :: x in nodes ==> x in followers
      invariant Distinct(followers) ==> Distinct(nodes)
    {
      if nodes == [] {
        return None;
      }
      var rnd := random[i] % |nodes|;
      RemoveAt(nodes, rnd);
      nodes := nodes[..rnd] + nodes[rnd + 1..];
    }
    return Some(nodes);
  }

  /** In a duplicate-free configuration with the leader, the replacement has the same
      size; it is duplicate-free if and only if the new nodes are distinct, none of them
      is a kept follower, and a kept leader is not among them; and it contains the
      leader exactly when the policy keeps it, unless a new node brings it back. */
  lemma ReplacementIsConfiguration(policy: Policy, newNodes: seq<nat>, leader: nat, config: seq<nat>,
                                   kept: seq<nat>, r: seq<nat>)
    requires Distinct(config) && leader in config && IsReplacement(policy, newNodes, leader, config, kept, r)
    ensures |r| == |config|
    ensures Distinct(r) <==>
      && Distinct(newNodes) && (forall x :: x in kept ==> x !in newNodes)
      && (policy.ReplaceFollower? ==> leader !in newNodes)
    ensures leader in r <==> policy.ReplaceFollower? || leader in newNodes
  {
    FollowersFacts(config, leader);
    JoinDistinct(kept, newNodes);
    JoinDistinct(kept + newNodes, [leader]);
    assert policy.ReplaceLeader? ==> r == kept + newNodes;
    assert forall x :: x in kept + newNodes <==> x in kept || x in newNodes;
  }

  datatype Change = Off | Single | Majority | Unknown

  /** The nodes that replace members of the configuration 1..n. */
  function ReconfigNodes(change: Change, n: nat): (r: Option<Option<seq<nat>>>) {
    match change
    case Off => Some(None)
    case Single => Some(Some([n + 1]))
    case Majority => Some(Some(seq(n / 2 + 1, i => n + 1 + i)))
    case Unknown => None
  }

  /** One new node, or a majority of them, numbered on from the members. */
  lemma PlannedNodes(change: Change, n: nat)
    requires change.Single? || change.Majority?
    ensures
      var r := ReconfigNodes(change, n);
      && r.Some? && r.value.Some?
      && var nodes := r.value.value;
      && |nodes| == (if change.Single? then 1 else n / 2 + 1)
      && (forall i :: 0 <= i < |nodes| ==> nodes[i] == n + 1 + i)
      && Distinct(nodes) && forall x :: x in nodes ==> x > n
  {
  }

  /** For a duplicate-free configuration of members 1..n with its leader, a plan never
      runs out of followers if and only if the cluster is large enough for it; and every
      outcome of the replacement is then duplicate-free. */
  lemma PlanFits(change: Change, policy: Policy, config: seq<nat>, leader: nat, kept: seq<nat>, r: seq<nat>)
    requires change.Single? || change.Majority?
    requires Distinct(config) && leader in config && forall x :: x in config ==> 1 <= x <= |config|
    ensures
      var n, nodes := |config|, ReconfigNodes(change, |config|).value.value;
      && (0 <= NumRemove(policy, nodes) <= |Followers(config, leader)| <==>
            n >= if policy.ReplaceLeader? then 1 else if change.Majority? then 3 else 2)
      && (IsReplacement(policy, nodes, leader, config, kept, r) ==>
            Distinct(r) && |r| == n && (leader in r <==> policy.ReplaceFollower?))
  {
    FollowersFacts(config, leader);
    PlannedNodes(change, |config|);
    var nodes := ReconfigNodes(change, |config|).value.value;
    hide Distinct, Followers, ReconfigNodes;
    if IsReplacement(policy, nodes, leader, config, kept, r) {
      ReplacementIsConfiguration(policy, nodes, leader, config, kept, r);
    }
  }
}
