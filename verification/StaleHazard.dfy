/** A success reply of an older term, counted by a later leader, breaks safety on its own. */
module StaleHazard {
  import opened RaftTypes
  import opened RaftLogs
  import opened RaftSpec
  import opened RaftCluster
  import opened RaftFacts
  import opened LeaderCompleteness
  import opened RunTools
  import opened RaftHazards
  import opened FiveNodes

  /** Node 1 leads term 1 and node 2 has acknowledged its two entries; the reply is still on its way. */
  lemma StaleStart(c: Cluster, allowed: Allowed) returns (c': Cluster)
    requires Untouched(c)
    ensures Reaches(c, c', allowed)
    ensures Has(c', 1, 1, [SENTINEL, X1, X1]) && Has(c', 2, 1, [SENTINEL, X1, X1])
    ensures Has(c', 3, 1, EMPTY_LOG) && Has(c', 4, 1, EMPTY_LOG) && Has(c', 5, 0, EMPTY_LOG)
    ensures c'.nodes[3].role != Leader
    ensures ReplyEnvelope(2, WholeLog(1, 1, [SENTINEL, X1, X1]), true, 2) in c'.network
  {
    var c1 := TwoEntries(c, 3, 4, allowed);
    c' := TakesWholeLog(c1, 1, 2, c1, allowed);
    ReachesTrans(c, c1, c', allowed);
  }

  /** Node 3, elected with an empty log, overwrites node 1's log. */
  lemma StaleOverwrite(c: Cluster, allowed: Allowed) returns (c': Cluster)
    requires Has(c, 1, 1, [SENTINEL, X1, X1])
    requires Has(c, 3, 1, EMPTY_LOG) && Has(c, 4, 1, EMPTY_LOG) && Has(c, 5, 0, EMPTY_LOG)
    requires c.nodes[3].role != Leader
    ensures Reaches(c, c', allowed) && OnlyTouched(c, c', {1, 3, 4, 5})
    ensures Has(c', 1, 2, [SENTINEL, Y2]) && Has(c', 3, 2, [SENTINEL, Y2]) && Has(c', 4, 2, [SENTINEL, Y2])
    ensures Has(c', 5, 2, EMPTY_LOG) && c'.nodes[1].role == Follower
  {
    var c1 := FreshLeader(c, 3, 4, 5, 1, Y, allowed);
    c' := BothTake(c1, allowed);
    Extends(c, c1, c', {3, 4, 5}, {1, 4}, allowed);
    assert {3, 4, 5} + {1, 4} == {1, 3, 4, 5};
  }

  lemma BothTake(c: Cluster, allowed: Allowed) returns (c': Cluster)
    requires Has(c, 3, 2, [SENTINEL, Y2]) && Has(c, 1, 1, [SENTINEL, X1, X1]) && Has(c, 4, 2, EMPTY_LOG)
    requires AppendEnvelope(c.nodes[3], 1, 1) in c.network && AppendEnvelope(c.nodes[3], 4, 1) in c.network
    ensures Reaches(c, c', allowed) && OnlyTouched(c, c', {1, 4})
    ensures Has(c', 1, 2, [SENTINEL, Y2]) && Has(c', 4, 2, [SENTINEL, Y2]) && c'.nodes[1].role == Follower
  {
    var c1 := TakesWholeLog(c, 3, 1, c, allowed);
    c' := TakesWholeLog(c1, 3, 4, c, allowed);
    Extends(c, c1, c', {1}, {4}, allowed);
    assert {1} + {4} == {1, 4};
  }

  /** Node 1 wins term 3 and proposes; node 4 accepts and its reply is on its way. */
  lemma StaleReturn(c: Cluster, allowed: Allowed) returns (c': Cluster)
    requires Has(c, 1, 2, [SENTINEL, Y2]) && Has(c, 3, 2, [SENTINEL, Y2]) && Has(c, 4, 2, [SENTINEL, Y2])
    requires c.nodes[1].role == Follower
    ensures Reaches(c, c', allowed) && OnlyTouched(c, c', {1, 3, 4})
    ensures Has(c', 1, 3, [SENTINEL, Y2, Z3]) && c'.nodes[1].role == Leader
    ensures c'.nodes[1].matchIndex == Tracking(FIVE, 1, 0)
    ensures Has(c', 3, 3, [SENTINEL, Y2]) && c'.nodes[3].role == Follower && Has(c', 4, 3, [SENTINEL, Y2, Z3])
    ensures ReplyEnvelope(4, AppendEntriesRequest(3, 1, 1, 2, [Z3], 0), true, 2) in c'.network
  {
    var c1 := ElectWithTwo(c, 1, 3, 4, allowed);
    TrackingLookup(FIVE, 1, 2, 4);
    var c2 := Proposes(c1, 1, Z, allowed);
    assert c2.nodes[1].log == [SENTINEL, Y2, Z3];
    Extends(c, c1, c2, {1, 3, 4}, {1}, allowed);
    c' := AcceptsThird(c2, allowed);
    Extends(c, c2, c', {1, 3, 4} + {1}, {4}, allowed);
    assert {1, 3, 4} + {1} + {4} == {1, 3, 4};
  }

  lemma AcceptsThird(c: Cluster, allowed: Allowed) returns (c': Cluster)
    requires Has(c, 1, 3, [SENTINEL, Y2, Z3]) && Has(c, 4, 3, [SENTINEL, Y2])
    requires AppendEnvelope(c.nodes[1], 4, 2) in c.network
    ensures Reaches(c, c', allowed) && OnlyTouched(c, c', {4}) && Has(c', 4, 3, [SENTINEL, Y2, Z3])
    ensures ReplyEnvelope(4, AppendEntriesRequest(3, 1, 1, 2, [Z3], 0), true, 2) in c'.network
  {
    var log: Log := [SENTINEL, Y2, Z3];
    var m := AppendEnvelope(c.nodes[1], 4, 2);
    assert m.body.appendRequest == AppendEntriesRequest(3, 1, 1, 2, [Z3], 0);
    assert Merged([SENTINEL, Y2], 2, [Z3]) == log;
    c' := Accepts(c, 4, m, log, allowed);
  }

  /** The reply of term 1 is counted in term 3; with node 4's it makes a majority of three. */
  lemma StaleCommit(c: Cluster) returns (c': Cluster)
    requires Has(c, 1, 3, [SENTINEL, Y2, Z3]) && c.nodes[1].role == Leader
    requires c.nodes[1].matchIndex == Tracking(FIVE, 1, 0)
    requires ReplyEnvelope(2, WholeLog(1, 1, [SENTINEL, X1, X1]), true, 2) in c.network
    requires ReplyEnvelope(4, AppendEntriesRequest(3, 1, 1, 2, [Z3], 0), true, 2) in c.network
    ensures Reaches(c, c', Allowed(true, false, false)) && OnlyTouched(c, c', {1})
    ensures CommitRecord(3, [SENTINEL, Y2, Z3]) in c'.history.committed && Applied(1, 2, Z) in c'.history.applied
    ensures Member(c', 1) && c'.nodes[1].currentTerm == 3 && c'.nodes[1].log == [SENTINEL, Y2, Z3]
  {
    c' := CommitsOnTwo(c, 1, 2, WholeLog(1, 1, [SENTINEL, X1, X1]),
                       4, AppendEntriesRequest(3, 1, 1, 2, [Z3], 0), 2, Allowed(true, false, false));
    assert c.nodes[1].log[2].command == Z;
  }

  /** Node 3 wins term 4 with the votes of nodes 2 and 5 and proposes in place of the committed entry. */
  lemma StaleLeader(c: Cluster, allowed: Allowed) returns (c': Cluster)
    requires Has(c, 3, 3, [SENTINEL, Y2]) && c.nodes[3].role == Follower
    requires Has(c, 2, 1, [SENTINEL, X1, X1]) && Has(c, 5, 2, EMPTY_LOG)
    ensures Reaches(c, c', allowed) && OnlyTouched(c, c', {2, 3, 5})
    ensures Has(c', 3, 4, [SENTINEL, Y2, W4]) && c'.nodes[3].role == Leader
    ensures c'.nodes[3].matchIndex == Tracking(FIVE, 3, 0)
    ensures AppendEnvelope(c'.nodes[3], 1, 2) in c'.network && AppendEnvelope(c'.nodes[3], 4, 2) in c'.network
  {
    var c1 := StaleElected(c, allowed);
    TrackingLookup(FIVE, 3, 2, 1);
    TrackingLookup(FIVE, 3, 2, 4);
    c' := Proposes(c1, 3, X, allowed);
    assert c'.nodes[3].log == [SENTINEL, Y2, W4];
    Extends(c, c1, c', {2, 3, 5}, {3}, allowed);
    assert {2, 3, 5} + {3} == {2, 3, 5};
  }

  lemma StaleElected(c: Cluster, allowed: Allowed) returns (c': Cluster)
    requires Has(c, 3, 3, [SENTINEL, Y2]) && c.nodes[3].role == Follower
    requires Has(c, 2, 1, [SENTINEL, X1, X1]) && Has(c, 5, 2, EMPTY_LOG)
    ensures Reaches(c, c', allowed) && OnlyTouched(c, c', {2, 3, 5})
    ensures Has(c', 3, 4, [SENTINEL, Y2]) && c'.nodes[3].role == Leader
    ensures c'.nodes[3].nextIndex == Tracking(FIVE, 3, 2) && c'.nodes[3].matchIndex == Tracking(FIVE, 3, 0)
  {
    c' := ElectWithTwo(c, 3, 2, 5, allowed);
    assert {3, 2, 5} == {2, 3, 5};
  }

  /** A node that holds the committed entry gives it up for node 3's. */
  lemma Overwritten(c: Cluster, p: NodeId, sent: NodeState, allowed: Allowed) returns (c': Cluster)
    requires c.peers == FIVE && Member(c, p) && c.nodes[p].currentTerm <= 4 && c.nodes[p].log == [SENTINEL, Y2, Z3]
    requires sent.id == 3 && sent.currentTerm == 4 && sent.log == [SENTINEL, Y2, W4] && sent.commitIndex == 0
    requires AppendEnvelope(sent, p, 2) in c.network
    ensures Reaches(c, c', allowed) && OnlyTouched(c, c', {p})
    ensures ReplyEnvelope(p, AppendEntriesRequest(4, 3, 1, 2, [W4], 0), true, 2) in c'.network
  {
    var log: Log := [SENTINEL, Y2, W4];
    assert AppendRequestFor(sent, 2) == AppendEntriesRequest(4, 3, 1, 2, [W4], 0);
    assert Merged([SENTINEL, Y2, Z3], 2, [W4]) == log;
    c' := Accepts(c, p, AppendEnvelope(sent, p, 2), log, allowed);
  }

  /** Nodes 1 and 4 accept, and node 3 commits and applies another command at index 2. */
  lemma StaleSecond(c: Cluster, allowed: Allowed) returns (c': Cluster)
    requires Has(c, 3, 4, [SENTINEL, Y2, W4]) && c.nodes[3].role == Leader
    requires c.nodes[3].matchIndex == Tracking(FIVE, 3, 0)
    requires AppendEnvelope(c.nodes[3], 1, 2) in c.network && AppendEnvelope(c.nodes[3], 4, 2) in c.network
    requires Member(c, 1) && c.nodes[1].currentTerm == 3 && c.nodes[1].log == [SENTINEL, Y2, Z3]
    requires Has(c, 4, 3, [SENTINEL, Y2, Z3])
    ensures Reaches(c, c', allowed) && OnlyTouched(c, c', {1, 3, 4}) && Applied(3, 2, X) in c'.history.applied
    ensures c'.nodes[3].role == Leader && c'.nodes[3].currentTerm == 4 && c'.nodes[3].log == [SENTINEL, Y2, W4]
  {
    var c1 := Overwritten(c, 1, c.nodes[3], allowed);
    var c2 := Overwritten(c1, 4, c.nodes[3], allowed);
    Extends(c, c1, c2, {1}, {4}, allowed);
    var r := AppendEntriesRequest(4, 3, 1, 2, [W4], 0);
    c' := CommitsOnTwo(c2, 3, 1, r, 4, r, 2, allowed);
    Extends(c, c2, c', {1} + {4}, {3}, allowed);
    assert {1} + {4} + {3} == {1, 3, 4};
    assert c.nodes[3].log[2].command == X;
  }

  lemma StaleFinish(c: Cluster) returns (c': Cluster)
    requires Has(c, 3, 3, [SENTINEL, Y2]) && c.nodes[3].role == Follower
    requires Has(c, 2, 1, [SENTINEL, X1, X1]) && Has(c, 5, 2, EMPTY_LOG) && Has(c, 4, 3, [SENTINEL, Y2, Z3])
    requires Member(c, 1) && c.nodes[1].currentTerm == 3 && c.nodes[1].log == [SENTINEL, Y2, Z3]
    requires CommitRecord(3, [SENTINEL, Y2, Z3]) in c.history.committed && Applied(1, 2, Z) in c.history.applied
    ensures Reaches(c, c', Allowed(true, false, false)) && Unsafe(c')
  {
    var allowed := Allowed(true, false, false);
    var c1 := StaleLeader(c, allowed);
    c' := StaleSecond(c1, allowed);
    ReachesTrans(c, c1, c', allowed);
    assert c'.nodes[3].log[2] == W4 && [SENTINEL, Y2, Z3][2] == Z3;
    LeaderLacks(c', 3, CommitRecord(3, [SENTINEL, Y2, Z3]), Applied(1, 2, Z), Applied(3, 2, X));
  }

  lemma StaleRun(c: Cluster) returns (c': Cluster)
    requires Untouched(c)
    ensures Reaches(c, c', Allowed(true, false, false)) && Unsafe(c')
  {
    var allowed := Allowed(true, false, false);
    var c1 := StaleStart(c, allowed);
    var c2 := StaleOverwrite(c1, allowed);
    var c3 := StaleReturn(c2, allowed);
    var c4 := StaleCommit(c3);
    c' := StaleFinish(c4);
    ReachesTrans(c, c1, c2, allowed);
    ReachesTrans(c, c2, c3, allowed);
    ReachesTrans(c, c3, c4, allowed);
    ReachesTrans(c, c4, c', allowed);
  }

  /** With stale success replies delivered, and nothing else unusual, safety fails. */
  lemma StaleBreaksSafety()
    ensures exists events: seq<Event> ::
              && RunPermitted(Initial(FIVE), events, Allowed(true, false, false))
              && Unsafe(Exec(Initial(FIVE), events))
  {
    var c := StaleRun(Initial(FIVE));
    var events: seq<Event> :| Leads(Initial(FIVE), events, c, Allowed(true, false, false));
  }
}
