/** Majority and joint quorums over sets of voter ids (src/quorum, src/util.rs). */
module Quorum {
  type NodeId = nat

  /** The "no node" id of the wire protocol. */
  const INVALID_ID: NodeId := 0

  function Majority(total: nat): nat {
    total / 2 + 1
  }

  /** A majority of `voters` is in `s`. An empty half of a joint configuration always agrees. */
  predicate HasMajority(voters: set<NodeId>, s: set<NodeId>) {
    voters == {} || |voters * s| >= Majority(|voters|)
  }

  /** A quorum of a joint configuration: a majority of both halves. */
  predicate IsQuorum(incoming: set<NodeId>, outgoing: set<NodeId>, s: set<NodeId>) {
    HasMajority(incoming, s) && HasMajority(outgoing, s)
  }

  lemma SubsetSize<T>(a: set<T>, b: set<T>)
    requires a <= b
    ensures |a| <= |b|
  {
    assert b == a + (b - a);
    assert |b| == |a| + |b - a|;
  }

  /** Two subsets of `all` whose sizes add up to more than `|all|` meet. */
  lemma Pigeonhole<T>(all: set<T>, a: set<T>, b: set<T>)
    requires a <= all && b <= all
    requires |a| + |b| > |all|
    ensures exists x :: x in a && x in b
  {
    if a !! b {
      assert |a + b| == |a| + |b|;
      SubsetSize(a + b, all);
    }
  }

  lemma MajorityMonotone(voters: set<NodeId>, a: set<NodeId>, b: set<NodeId>)
    requires HasMajority(voters, a)
    requires a <= b
    ensures HasMajority(voters, b)
  {
    SubsetSize(voters * a, voters * b);
  }

  lemma QuorumMonotone(incoming: set<NodeId>, outgoing: set<NodeId>, a: set<NodeId>, b: set<NodeId>)
    requires IsQuorum(incoming, outgoing, a)
    requires a <= b
    ensures IsQuorum(incoming, outgoing, b)
  {
    MajorityMonotone(incoming, a, b);
    MajorityMonotone(outgoing, a, b);
  }

  /** Any two quorums of a non-empty configuration share a voter. */
  lemma QuorumsIntersect(incoming: set<NodeId>, outgoing: set<NodeId>, a: set<NodeId>, b: set<NodeId>)
    requires incoming != {}
    requires IsQuorum(incoming, outgoing, a) && IsQuorum(incoming, outgoing, b)
    ensures exists x :: x in a && x in b && x in incoming
  {
    assert incoming * a <= incoming && incoming * b <= incoming;
    Pigeonhole(incoming, incoming * a, incoming * b);
    var x :| x in incoming * a && x in incoming * b;
    assert x in a && x in b && x in incoming;
  }

  /** The ids of a list. */
  function Elements(ids: seq<NodeId>): set<NodeId> {
    set x | x in ids
  }
}
