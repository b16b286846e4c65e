/** Five nodes: pieces of the runs of StaleHazard and PastEndHazard. */
module FiveNodes {
  import opened RaftTypes
  import opened RaftLogs
  import opened RaftSpec
  import opened RaftCluster
  import opened RaftFacts
  import opened LeaderCompleteness
  import opened RunTools
  import opened RaftHazards

  const FIVE: seq<NodeId> := [1, 2, 3, 4, 5]

  /** A node of the five-node cluster with this term and log, which has committed nothing. */
  predicate Has(c: Cluster, i: NodeId, term: nat, log: Log) {
    c.peers == FIVE && Member(c, i) && c.nodes[i].currentTerm == term && c.nodes[i].log == log
    && c.nodes[i].commitIndex == 0 && c.nodes[i].lastApplied == 0
  }

  const W4 := LogEntry(4, X)

  /** A request that carries the leader's whole log, before any commit. */
  function WholeLog(leader: NodeId, term: nat, log: Log): AppendEntriesRequest {
    AppendEntriesRequest(term, leader, 0, 0, log[1..], 0)
  }

  lemma WholeLogRequest(c: Cluster, i: NodeId, term: nat, log: Log, to: NodeId)
    requires Has(c, i, term, log) && log[0] == SENTINEL
    ensures AppendEnvelope(c.nodes[i], to, 1) == Envelope(i, to, AppendEntries(WholeLog(i, term, log)), None)
  {
    assert EntriesFrom(log, 1) == log[1..];
  }

  predicate Fresh(c: Cluster, i: NodeId) {
    Has(c, i, 0, EMPTY_LOG) && c.nodes[i].role == Follower
  }

  /** The five nodes before anything has happened. */
  predicate Untouched(c: Cluster) {
    Fresh(c, 1) && Fresh(c, 2) && Fresh(c, 3) && Fresh(c, 4) && Fresh(c, 5)
  }

  /** A follower takes a leader's whole log. */
  lemma TakesWholeLog(c: Cluster, i: NodeId, p: NodeId, sent: Cluster, allowed: Allowed) returns (c': Cluster)
    requires Member(sent, i) && Has(sent, i, sent.nodes[i].currentTerm, sent.nodes[i].log)
    requires sent.nodes[i].log[0] == SENTINEL && AppendEnvelope(sent.nodes[i], p, 1) in c.network
    requires Member(c, p) && Has(c, p, c.nodes[p].currentTerm, c.nodes[p].log) && c.nodes[p].log[0] == SENTINEL
    requires c.nodes[p].currentTerm <= sent.nodes[i].currentTerm
    requires Merged(c.nodes[p].log, 1, sent.nodes[i].log[1..]) == sent.nodes[i].log
    ensures Reaches(c, c', allowed) && OnlyTouched(c, c', {p})
    ensures Has(c', p, sent.nodes[i].currentTerm, sent.nodes[i].log) && c'.nodes[p].role == Follower
    ensures var request := WholeLog(i, sent.nodes[i].currentTerm, sent.nodes[i].log);
            ReplyEnvelope(p, request, true, LastIndex(sent.nodes[i].log)) in c'.network
  {
    WholeLogRequest(sent, i, sent.nodes[i].currentTerm, sent.nodes[i].log, p);
    c' := Accepts(c, p, AppendEnvelope(sent.nodes[i], p, 1), sent.nodes[i].log, allowed);
  }

  /** A node just elected with an empty log proposes. */
  lemma FirstProposal(c: Cluster, i: NodeId, term: nat, command: LogCommand, allowed: Allowed) returns (c': Cluster)
    requires JustElected(c, i, term, EMPTY_LOG) && Has(c, i, term, EMPTY_LOG)
    ensures Reaches(c, c', allowed) && OnlyTouched(c, c', {i})
    ensures Has(c', i, term, [SENTINEL, LogEntry(term, command)]) && c'.nodes[i].role == Leader
    ensures c'.nodes[i].nextIndex == Tracking(FIVE, i, 1) && c'.nodes[i].matchIndex == Tracking(FIVE, i, 0)
    ensures forall p | p in FIVE && p != i :: AppendEnvelope(c'.nodes[i], p, 1) in c'.network
  {
    c' := Proposes(c, i, command, allowed);
    forall p | p in FIVE && p != i ensures AppendEnvelope(c'.nodes[i], p, 1) in c'.network {
      TrackingLookup(FIVE, i, 1, p);
    }
  }

  /** A node elected with an empty log by two voters with empty logs proposes. */
  lemma FreshLeader(c: Cluster, i: NodeId, v: NodeId, w: NodeId, term: nat, command: LogCommand, allowed: Allowed)
    returns (c': Cluster)
    requires Has(c, i, term, EMPTY_LOG) && c.nodes[i].role != Leader && v != w
    requires WouldVote(c, i, v) && WouldVote(c, i, w)
    ensures Reaches(c, c', allowed) && OnlyTouched(c, c', {i, v, w})
    ensures Has(c', i, term + 1, [SENTINEL, LogEntry(term + 1, command)]) && c'.nodes[i].role == Leader
    ensures c'.nodes[i].nextIndex == Tracking(FIVE, i, 1) && c'.nodes[i].matchIndex == Tracking(FIVE, i, 0)
    ensures forall p | p in FIVE && p != i :: AppendEnvelope(c'.nodes[i], p, 1) in c'.network
    ensures Voted(c, c', v, term + 1) && Voted(c, c', w, term + 1)
  {
    var c1 := ElectWithTwo(c, i, v, w, allowed);
    assert Has(c1, i, term + 1, EMPTY_LOG);
    c' := FirstProposal(c1, i, term + 1, command, allowed);
    assert c'.nodes[v] == c1.nodes[v] && c'.nodes[w] == c1.nodes[w];
    Extends(c, c1, c', {i, v, w}, {i}, allowed);
    assert {i, v, w} + {i} == {i, v, w};
  }

  /** Node 1 wins term 1 with the votes of nodes v and w and proposes twice. */
  lemma TwoEntries(c: Cluster, v: NodeId, w: NodeId, allowed: Allowed) returns (c': Cluster)
    requires Has(c, 1, 0, EMPTY_LOG) && c.nodes[1].role == Follower && v != w
    requires WouldVote(c, 1, v) && WouldVote(c, 1, w)
    ensures Reaches(c, c', allowed) && OnlyTouched(c, c', {1, v, w})
    ensures Has(c', 1, 1, [SENTINEL, X1, X1]) && c'.nodes[1].role == Leader
    ensures c'.nodes[1].matchIndex == Tracking(FIVE, 1, 0)
    ensures Voted(c, c', v, 1) && Voted(c, c', w, 1)
    ensures AppendEnvelope(c'.nodes[1], 2, 1) in c'.network
  {
    var c1 := FreshLeader(c, 1, v, w, 0, X, allowed);
    TrackingLookup(FIVE, 1, 1, 2);
    c' := Proposes(c1, 1, X, allowed);
    assert c'.nodes[v] == c1.nodes[v] && c'.nodes[w] == c1.nodes[w];
    Extends(c, c1, c', {1, v, w}, {1}, allowed);
    assert {1, v, w} + {1} == {1, v, w};
  }
}
