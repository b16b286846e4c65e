/** Majorities of one peer list intersect. */
module Quorums {
  import opened RaftTypes
  import opened RaftSpec

  predicate Quorum(peers: seq<NodeId>, q: set<NodeId>) {
    (forall p | p in q :: p in peers) && |q| >= Majority(peers)
  }

  lemma SubsetSize(a: set<NodeId>, b: set<NodeId>)
    requires a <= b
    ensures |a| <= |b|
  {
    assert b == a + (b - a);
  }

  ghost function Members(peers: seq<NodeId>): set<NodeId> {
    set p | p in peers
  }

  lemma {:induction false} PeerCount(peers: seq<NodeId>)
    ensures |Members(peers)| <= |peers|
  {
    if peers != [] {
      PeerCount(peers[1..]);
      assert Members(peers) == {peers[0]} + Members(peers[1..]);
    }
  }

  /** Any two quorums share a node. */
  lemma QuorumsIntersect(peers: seq<NodeId>, a: set<NodeId>, b: set<NodeId>) returns (p: NodeId)
    requires Quorum(peers, a) && Quorum(peers, b)
    ensures p in a && p in b && p in peers
  {
    PeerCount(peers);
    SubsetSize(a + b, Members(peers));
    assert |a + b| == |a| + |b| - |a * b|;
    assert |a * b| > 0;
    assert a * b != {};
    p :| p in a * b;
  }
}
