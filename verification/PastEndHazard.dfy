/** A request that starts past its sender's log, accepted by a follower whose log also ends
    before it, breaks safety on its own. */
module PastEndHazard {
  import opened RaftTypes
  import opened RaftLogs
  import opened RaftSpec
  import opened RaftCluster
  import opened RaftFacts
  import opened Persistence
  import opened LeaderCompleteness
  import opened RunTools
  import opened RaftHazards
  import opened FiveNodes

  const Z5 := LogEntry(5, Z)
  const Z6 := LogEntry(6, Z)

  /** Node 1 leads term 1 with three entries of its own; node 2 wins term 2 and proposes. */
  lemma PastEndStart(c: Cluster, allowed: Allowed) returns (c': Cluster)
    requires Untouched(c)
    ensures Reaches(c, c', allowed)
    ensures Has(c', 1, 1, [SENTINEL, X1, X1, X1]) && Has(c', 2, 2, [SENTINEL, Y2]) && Has(c', 3, 1, EMPTY_LOG)
    ensures Has(c', 4, 2, EMPTY_LOG) && Has(c', 5, 2, EMPTY_LOG) && c'.nodes[3].role == Follower
  {
    var c1 := ThreeEntries(c, allowed);
    c' := FreshLeader(c1, 2, 4, 5, 1, Y, allowed);
    ReachesTrans(c, c1, c', allowed);
  }

  lemma ThreeEntries(c: Cluster, allowed: Allowed) returns (c': Cluster)
    requires Untouched(c)
    ensures Reaches(c, c', allowed) && OnlyTouched(c, c', {1, 2, 3})
    ensures Has(c', 1, 1, [SENTINEL, X1, X1, X1])
    ensures Has(c', 2, 1, EMPTY_LOG) && c'.nodes[2].role == Follower
    ensures Has(c', 3, 1, EMPTY_LOG) && c'.nodes[3].role == Follower
  {
    var c1 := TwoEntries(c, 2, 3, allowed);
    c' := Proposes(c1, 1, X, allowed);
    Extends(c, c1, c', {1, 2, 3}, {1}, allowed);
    assert {1, 2, 3} + {1} == {1, 2, 3};
  }

  /** Node 2 restarts and wins term 3; node 1 rejects its request with the hint 3. */
  lemma PastEndHint(c: Cluster, allowed: Allowed) returns (c': Cluster)
    requires Has(c, 1, 1, [SENTINEL, X1, X1, X1]) && Has(c, 2, 2, [SENTINEL, Y2]) && Has(c, 3, 1, EMPTY_LOG)
    requires Has(c, 4, 2, EMPTY_LOG) && AllDurable(c)
    ensures Reaches(c, c', allowed) && OnlyTouched(c, c', {1, 2, 3, 4})
    ensures Has(c', 1, 3, [SENTINEL, X1, X1, X1]) && Has(c', 2, 3, [SENTINEL, Y2])
    ensures Has(c', 3, 3, EMPTY_LOG) && Has(c', 4, 3, EMPTY_LOG) && c'.nodes[3].role == Follower
    ensures ReplyEnvelope(1, AppendEntriesRequest(3, 2, 1, 2, [], 0), false, 3) in c'.network
  {
    var c1 := RestartedAndElected(c, allowed);
    c' := RejectsFirst(c1, 1, 3, [SENTINEL, X1, X1, X1], allowed);
    Extends(c, c1, c', {2, 3, 4}, {1}, allowed);
    assert {2, 3, 4} + {1} == {1, 2, 3, 4};
  }

  lemma RestartedAndElected(c: Cluster, allowed: Allowed) returns (c': Cluster)
    requires Has(c, 2, 2, [SENTINEL, Y2]) && Has(c, 3, 1, EMPTY_LOG) && Has(c, 4, 2, EMPTY_LOG) && AllDurable(c)
    ensures Reaches(c, c', allowed) && OnlyTouched(c, c', {2, 3, 4})
    ensures JustElected(c', 2, 3, [SENTINEL, Y2]) && Has(c', 2, 3, [SENTINEL, Y2])
    ensures Has(c', 3, 3, EMPTY_LOG) && Has(c', 4, 3, EMPTY_LOG) && c'.nodes[3].role == Follower
  {
    var c1 := Restarts(c, 2, allowed);
    c' := ElectWithTwo(c1, 2, 3, 4, allowed);
    Extends(c, c1, c', {2}, {2, 3, 4}, allowed);
    assert {2} + {2, 3, 4} == {2, 3, 4};
  }

  /** Node 3 wins term 4 with an empty log and gives node 1 two entries; node 2 steps down. */
  lemma PastEndOverwrite(c: Cluster, allowed: Allowed) returns (c': Cluster)
    requires Has(c, 1, 3, [SENTINEL, X1, X1, X1]) && Has(c, 2, 3, [SENTINEL, Y2])
    requires Has(c, 3, 3, EMPTY_LOG) && Has(c, 4, 3, EMPTY_LOG) && Has(c, 5, 2, EMPTY_LOG)
    requires c.nodes[3].role == Follower
    ensures Reaches(c, c', allowed)
    ensures c.network <= c'.network
    ensures Has(c', 1, 4, [SENTINEL, W4, W4]) && Has(c', 2, 4, [SENTINEL, Y2]) && Has(c', 3, 4, [SENTINEL, W4, W4])
    ensures Has(c', 4, 4, EMPTY_LOG) && Has(c', 5, 4, EMPTY_LOG) && c'.nodes[2].role == Follower
  {
    var c1 := ThirdLeads(c, allowed);
    c' := OverwritesFirst(c1, allowed);
    Extends(c, c1, c', {2, 3, 4, 5}, {1}, allowed);
  }

  lemma ThirdLeads(c: Cluster, allowed: Allowed) returns (c': Cluster)
    requires Has(c, 2, 3, [SENTINEL, Y2]) && Has(c, 3, 3, EMPTY_LOG)
    requires Has(c, 4, 3, EMPTY_LOG) && Has(c, 5, 2, EMPTY_LOG)
    requires c.nodes[3].role == Follower
    ensures Reaches(c, c', allowed) && OnlyTouched(c, c', {2, 3, 4, 5})
    ensures Has(c', 2, 4, [SENTINEL, Y2]) && Has(c', 3, 4, [SENTINEL, W4, W4]) && c'.nodes[2].role == Follower
    ensures Has(c', 4, 4, EMPTY_LOG) && Has(c', 5, 4, EMPTY_LOG)
    ensures AppendEnvelope(c'.nodes[3], 1, 1) in c'.network
  {
    var c1 := ThirdElected(c, allowed);
    c' := ProposesTwice(c1, 3, 4, 1, allowed);
    assert c'.nodes[2] == c1.nodes[2] && c'.nodes[4] == c1.nodes[4] && c'.nodes[5] == c1.nodes[5];
    Extends(c, c1, c', {2, 3, 4, 5}, {3}, allowed);
    assert {2, 3, 4, 5} + {3} == {2, 3, 4, 5};
  }

  lemma ThirdElected(c: Cluster, allowed: Allowed) returns (c': Cluster)
    requires Has(c, 2, 3, [SENTINEL, Y2]) && Has(c, 3, 3, EMPTY_LOG)
    requires Has(c, 4, 3, EMPTY_LOG) && Has(c, 5, 2, EMPTY_LOG)
    requires c.nodes[3].role == Follower
    ensures Reaches(c, c', allowed) && OnlyTouched(c, c', {2, 3, 4, 5})
    ensures Has(c', 3, 4, EMPTY_LOG) && c'.nodes[3].role == Leader
    ensures c'.nodes[3].nextIndex == Tracking(FIVE, 3, 1) && c'.nodes[3].matchIndex == Tracking(FIVE, 3, 0)
    ensures Has(c', 2, 4, [SENTINEL, Y2]) && c'.nodes[2].role == Follower
    ensures Has(c', 4, 4, EMPTY_LOG) && Has(c', 5, 4, EMPTY_LOG)
  {
    c' := ElectedOverOther(c, 3, 4, 5, 2, allowed);
    assert {3, 4, 5, 2} == {2, 3, 4, 5};
  }

  lemma OverwritesFirst(c: Cluster, allowed: Allowed) returns (c': Cluster)
    requires Has(c, 1, 3, [SENTINEL, X1, X1, X1]) && Has(c, 3, 4, [SENTINEL, W4, W4])
    requires AppendEnvelope(c.nodes[3], 1, 1) in c.network
    ensures Reaches(c, c', allowed) && OnlyTouched(c, c', {1}) && Has(c', 1, 4, [SENTINEL, W4, W4])
  {
    c' := TakesWholeLog(c, 3, 1, c, allowed);
  }

  /** A node is elected by v and w, and another node hears of it and steps down. */
  lemma ElectedOverOther(c: Cluster, i: NodeId, v: NodeId, w: NodeId, other: NodeId, allowed: Allowed)
    returns (c': Cluster)
    requires c.peers == FIVE && WouldVote(c, i, v) && WouldVote(c, i, w) && v != w && c.nodes[i].role != Leader
    requires Member(c, other) && other in FIVE && other !in {i, v, w}
    requires c.nodes[other].currentTerm <= c.nodes[i].currentTerm
    ensures Reaches(c, c', allowed) && OnlyTouched(c, c', {i, v, w, other})
    ensures JustElected(c', i, c.nodes[i].currentTerm + 1, c.nodes[i].log) && SameData(c.nodes[i], c'.nodes[i])
    ensures Voted(c, c', v, c.nodes[i].currentTerm + 1) && Voted(c, c', w, c.nodes[i].currentTerm + 1)
    ensures Voted(c, c', other, c.nodes[i].currentTerm + 1)
  {
    var c1 := ElectWithTwo(c, i, v, w, allowed);
    c' := StepsDown(c1, other, CandidacyEnvelope(i, other, c.nodes[i].currentTerm + 1, c.nodes[i].log), allowed);
    assert c1.nodes[other] == c.nodes[other] && c'.nodes[i] == c1.nodes[i];
    assert c'.nodes[v] == c1.nodes[v] && c'.nodes[w] == c1.nodes[w];
    Extends(c, c1, c', {i, v, w}, {other}, allowed);
    assert {i, v, w} + {other} == {i, v, w, other};
  }

  lemma ProposesTwice(c: Cluster, i: NodeId, term: nat, to: NodeId, allowed: Allowed) returns (c': Cluster)
    requires Has(c, i, term, EMPTY_LOG) && c.nodes[i].role == Leader && to in FIVE && to != i
    requires c.nodes[i].nextIndex == Tracking(FIVE, i, 1) && c.nodes[i].matchIndex == Tracking(FIVE, i, 0)
    ensures Reaches(c, c', allowed) && OnlyTouched(c, c', {i})
    ensures Has(c', i, term, [SENTINEL, LogEntry(term, X), LogEntry(term, X)])
    ensures AppendEnvelope(c'.nodes[i], to, 1) in c'.network
  {
    var c1 := Proposes(c, i, X, allowed);
    TrackingLookup(FIVE, i, 1, to);
    c' := Proposes(c1, i, X, allowed);
    ReachesTrans(c, c1, c', allowed);
  }

  /** Node 2 wins term 5 and learns two hints: node 4's, of this term, and node 1's, of term 3. */
  lemma PastEndReturn(c: Cluster, allowed: Allowed) returns (c': Cluster)
    requires Has(c, 2, 4, [SENTINEL, Y2]) && Has(c, 3, 4, [SENTINEL, W4, W4])
    requires Has(c, 4, 4, EMPTY_LOG) && Has(c, 5, 4, EMPTY_LOG) && c.nodes[2].role == Follower
    requires ReplyEnvelope(1, AppendEntriesRequest(3, 2, 1, 2, [], 0), false, 3) in c.network
    ensures Reaches(c, c', allowed) && OnlyTouched(c, c', {2, 3, 4, 5})
    ensures Has(c', 2, 5, [SENTINEL, Y2]) && c'.nodes[2].role == Leader
    ensures c'.nodes[2].matchIndex == Tracking(FIVE, 2, 0)
    ensures Lookup(c'.nodes[2].nextIndex, 1) == Some(4) && Lookup(c'.nodes[2].nextIndex, 4) == Some(1)
    ensures Has(c', 3, 5, [SENTINEL, W4, W4]) && Has(c', 4, 5, EMPTY_LOG) && Has(c', 5, 5, EMPTY_LOG)
    ensures c'.nodes[3].role == Follower
  {
    var c1 := ReturnElected(c, allowed);
    c' := LearnsHints(c1, allowed);
    Extends(c, c1, c', {2, 3, 4, 5}, {2}, allowed);
    assert {2, 3, 4, 5} + {2} == {2, 3, 4, 5};
  }

  lemma ReturnElected(c: Cluster, allowed: Allowed) returns (c': Cluster)
    requires Has(c, 2, 4, [SENTINEL, Y2]) && Has(c, 3, 4, [SENTINEL, W4, W4])
    requires Has(c, 4, 4, EMPTY_LOG) && Has(c, 5, 4, EMPTY_LOG) && c.nodes[2].role == Follower
    ensures Reaches(c, c', allowed) && OnlyTouched(c, c', {2, 3, 4, 5})
    ensures Has(c', 2, 5, [SENTINEL, Y2]) && c'.nodes[2].role == Leader
    ensures c'.nodes[2].nextIndex == Tracking(FIVE, 2, 2) && c'.nodes[2].matchIndex == Tracking(FIVE, 2, 0)
    ensures Has(c', 3, 5, [SENTINEL, W4, W4]) && c'.nodes[3].role == Follower
    ensures Has(c', 4, 5, EMPTY_LOG) && Has(c', 5, 5, EMPTY_LOG)
    ensures ReplyEnvelope(4, AppendEntriesRequest(5, 2, 1, 2, [], 0), false, 0) in c'.network
  {
    var c1 := ElectedInFive(c, allowed);
    c' := RejectsFirst(c1, 4, 5, EMPTY_LOG, allowed);
    assert c'.nodes[2] == c1.nodes[2] && c'.nodes[3] == c1.nodes[3] && c'.nodes[5] == c1.nodes[5];
    Extends(c, c1, c', {2, 3, 4, 5}, {4}, allowed);
    assert {2, 3, 4, 5} + {4} == {2, 3, 4, 5};
  }

  lemma ElectedInFive(c: Cluster, allowed: Allowed) returns (c': Cluster)
    requires Has(c, 2, 4, [SENTINEL, Y2]) && Has(c, 3, 4, [SENTINEL, W4, W4])
    requires Has(c, 4, 4, EMPTY_LOG) && Has(c, 5, 4, EMPTY_LOG) && c.nodes[2].role == Follower
    ensures Reaches(c, c', allowed) && OnlyTouched(c, c', {2, 3, 4, 5})
    ensures JustElected(c', 2, 5, [SENTINEL, Y2]) && Has(c', 2, 5, [SENTINEL, Y2])
    ensures Has(c', 3, 5, [SENTINEL, W4, W4]) && c'.nodes[3].role == Follower
    ensures Has(c', 4, 5, EMPTY_LOG) && Has(c', 5, 5, EMPTY_LOG)
  {
    c' := ElectedOverOther(c, 2, 4, 5, 3, allowed);
    assert {2, 4, 5, 3} == {2, 3, 4, 5};
  }

  /** Node 2, just elected with one entry, is told by node p that the check at index 1 fails. */
  lemma RejectsFirst(c: Cluster, p: NodeId, term: nat, log: Log, allowed: Allowed) returns (c': Cluster)
    requires JustElected(c, 2, term, [SENTINEL, Y2]) && Has(c, 2, term, [SENTINEL, Y2])
    requires p in FIVE && p != 2 && Member(c, p) && c.nodes[p].currentTerm <= term
    requires Has(c, p, c.nodes[p].currentTerm, log)
    requires TermAt(log, 1) != 2
    ensures Reaches(c, c', allowed) && OnlyTouched(c, c', {p}) && Has(c', p, term, log)
    ensures c'.nodes[p].role == Follower
    ensures ReplyEnvelope(p, AppendEntriesRequest(term, 2, 1, 2, [], 0), false, LastIndex(log)) in c'.network
  {
    var m := AppendEnvelope(c.nodes[2], p, 2);
    assert m in c.network && m.body.appendRequest == AppendEntriesRequest(term, 2, 1, 2, [], 0);
    c' := Rejects(c, p, m, allowed);
  }

  lemma TwoHints(next: seq<(NodeId, nat)>)
    requires next == Tracking(FIVE, 2, 2)
    ensures var next' := SetFirst(SetFirst(next, 4, 1), 1, 4);
            Lookup(next', 1) == Some(4) && Lookup(next', 4) == Some(1)
  {
    TrackingLookup(FIVE, 2, 2, 1);
    TrackingLookup(FIVE, 2, 2, 4);
    LookupSetFirst(next, 4, 1);
    LookupSetOther(next, 4, 1, 1);
    LookupSetFirst(SetFirst(next, 4, 1), 1, 4);
    LookupSetOther(SetFirst(next, 4, 1), 1, 4, 4);
  }

  lemma LearnsHints(c: Cluster, allowed: Allowed) returns (c': Cluster)
    requires Has(c, 2, 5, [SENTINEL, Y2]) && c.nodes[2].role == Leader
    requires c.nodes[2].nextIndex == Tracking(FIVE, 2, 2)
    requires ReplyEnvelope(4, AppendEntriesRequest(5, 2, 1, 2, [], 0), false, 0) in c.network
    requires ReplyEnvelope(1, AppendEntriesRequest(3, 2, 1, 2, [], 0), false, 3) in c.network
    ensures Reaches(c, c', allowed) && OnlyTouched(c, c', {2})
    ensures Has(c', 2, 5, [SENTINEL, Y2]) && c'.nodes[2].role == Leader
    ensures c'.nodes[2].matchIndex == c.nodes[2].matchIndex
    ensures Lookup(c'.nodes[2].nextIndex, 1) == Some(4) && Lookup(c'.nodes[2].nextIndex, 4) == Some(1)
  {
    var c1 := TakesHint(c, 2, 4, AppendEntriesRequest(5, 2, 1, 2, [], 0), 0, allowed);
    c' := TakesHint(c1, 2, 1, AppendEntriesRequest(3, 2, 1, 2, [], 0), 3, allowed);
    TwoHints(c.nodes[2].nextIndex);
    Extends(c, c1, c', {2}, {2}, allowed);
    assert {2} + {2} == {2};
  }

  /** Node 2's proposal goes to node 4 in full and to node 1 as a request past the log's end,
      which node 1, whose log also ends before it, accepts without having any of it. */
  lemma PastEndAccepted(c: Cluster) returns (c': Cluster)
    requires Has(c, 2, 5, [SENTINEL, Y2]) && c.nodes[2].role == Leader
    requires c.nodes[2].matchIndex == Tracking(FIVE, 2, 0)
    requires Lookup(c.nodes[2].nextIndex, 1) == Some(4) && Lookup(c.nodes[2].nextIndex, 4) == Some(1)
    requires Has(c, 1, 4, [SENTINEL, W4, W4]) && Has(c, 4, 5, EMPTY_LOG)
    ensures Reaches(c, c', Allowed(false, false, true)) && OnlyTouched(c, c', {1, 2, 4})
    ensures Has(c', 2, 5, [SENTINEL, Y2, Z5]) && c'.nodes[2].role == Leader
    ensures c'.nodes[2].matchIndex == Tracking(FIVE, 2, 0)
    ensures Has(c', 1, 5, [SENTINEL, W4, W4])
    ensures ReplyEnvelope(1, AppendEntriesRequest(5, 2, 3, 0, [], 0), true, 2) in c'.network
    ensures ReplyEnvelope(4, WholeLog(2, 5, [SENTINEL, Y2, Z5]), true, 2) in c'.network
  {
    var allowed := Allowed(false, false, true);
    var c1 := Proposes(c, 2, Z, allowed);
    assert c1.nodes[2].log == [SENTINEL, Y2, Z5];
    var c2 := AcceptsPastEnd(c1);
    Extends(c, c1, c2, {2}, {1}, allowed);
    c' := TakesWholeLog(c2, 2, 4, c1, allowed);
    Extends(c, c2, c', {2} + {1}, {4}, allowed);
    assert {2} + {1} + {4} == {1, 2, 4};
  }

  lemma AcceptsPastEnd(c: Cluster) returns (c': Cluster)
    requires Has(c, 2, 5, [SENTINEL, Y2, Z5]) && AppendEnvelope(c.nodes[2], 1, 4) in c.network
    requires Has(c, 1, 4, [SENTINEL, W4, W4])
    ensures Reaches(c, c', Allowed(false, false, true)) && OnlyTouched(c, c', {1})
    ensures Has(c', 1, 5, [SENTINEL, W4, W4])
    ensures ReplyEnvelope(1, AppendEntriesRequest(5, 2, 3, 0, [], 0), true, 2) in c'.network
  {
    var m := AppendEnvelope(c.nodes[2], 1, 4);
    assert m.body.appendRequest == AppendEntriesRequest(5, 2, 3, 0, [], 0);
    c' := Accepts(c, 1, m, [SENTINEL, W4, W4], Allowed(false, false, true));
  }

  /** Both replies count, and the entry is committed with only nodes 2 and 4 holding it. */
  lemma PastEndCommit(c: Cluster) returns (c': Cluster)
    requires Has(c, 2, 5, [SENTINEL, Y2, Z5]) && c.nodes[2].role == Leader
    requires c.nodes[2].matchIndex == Tracking(FIVE, 2, 0)
    requires ReplyEnvelope(1, AppendEntriesRequest(5, 2, 3, 0, [], 0), true, 2) in c.network
    requires ReplyEnvelope(4, WholeLog(2, 5, [SENTINEL, Y2, Z5]), true, 2) in c.network
    ensures Reaches(c, c', Allowed(false, false, true)) && OnlyTouched(c, c', {2})
    ensures CommitRecord(5, [SENTINEL, Y2, Z5]) in c'.history.committed && Applied(2, 1, Y) in c'.history.applied
  {
    c' := CommitsOnTwo(c, 2, 1, AppendEntriesRequest(5, 2, 3, 0, [], 0),
                       4, WholeLog(2, 5, [SENTINEL, Y2, Z5]), 2, Allowed(false, false, true));
    assert c.nodes[2].log[1].command == Y;
  }

  /** Node 3 wins term 6 with the votes of nodes 1 and 5; node 5 hints that its log is empty. */
  lemma PastEndElected(c: Cluster, allowed: Allowed) returns (c': Cluster)
    requires Has(c, 3, 5, [SENTINEL, W4, W4]) && c.nodes[3].role == Follower
    requires Has(c, 1, 5, [SENTINEL, W4, W4]) && Has(c, 5, 5, EMPTY_LOG)
    ensures Reaches(c, c', allowed) && OnlyTouched(c, c', {1, 3, 5})
    ensures JustElected(c', 3, 6, [SENTINEL, W4, W4]) && Has(c', 3, 6, [SENTINEL, W4, W4])
    ensures Has(c', 1, 6, [SENTINEL, W4, W4]) && Has(c', 5, 6, EMPTY_LOG)
  {
    c' := ElectWithTwo(c, 3, 1, 5, allowed);
    assert {3, 1, 5} == {1, 3, 5};
  }

  lemma PastEndLearns(c: Cluster, allowed: Allowed) returns (c': Cluster)
    requires JustElected(c, 3, 6, [SENTINEL, W4, W4]) && Has(c, 3, 6, [SENTINEL, W4, W4]) && Has(c, 5, 6, EMPTY_LOG)
    ensures Reaches(c, c', allowed) && OnlyTouched(c, c', {3, 5})
    ensures Has(c', 3, 6, [SENTINEL, W4, W4]) && c'.nodes[3].role == Leader && Has(c', 5, 6, EMPTY_LOG)
    ensures c'.nodes[3].matchIndex == Tracking(FIVE, 3, 0)
    ensures Lookup(c'.nodes[3].nextIndex, 1) == Some(3) && Lookup(c'.nodes[3].nextIndex, 5) == Some(1)
  {
    c' := LearnsEmpty(c, 3, 5, 6, [SENTINEL, W4, W4], allowed);
    TrackingLookup(FIVE, 3, 3, 1);
    LookupSetOther(c.nodes[3].nextIndex, 5, 1, 1);
  }

  /** Node 3 proposes; the request reaches nodes 1 and 5. */
  lemma PastEndProposes(c: Cluster, allowed: Allowed) returns (c': Cluster)
    requires Has(c, 3, 6, [SENTINEL, W4, W4]) && c.nodes[3].role == Leader
    requires c.nodes[3].matchIndex == Tracking(FIVE, 3, 0)
    requires Lookup(c.nodes[3].nextIndex, 1) == Some(3) && Lookup(c.nodes[3].nextIndex, 5) == Some(1)
    ensures Reaches(c, c', allowed) && OnlyTouched(c, c', {3})
    ensures Has(c', 3, 6, [SENTINEL, W4, W4, Z6]) && c'.nodes[3].role == Leader
    ensures c'.nodes[3].matchIndex == Tracking(FIVE, 3, 0)
    ensures AppendEnvelope(c'.nodes[3], 1, 3) in c'.network && AppendEnvelope(c'.nodes[3], 5, 1) in c'.network
  {
    c' := Proposes(c, 3, Z, allowed);
    assert c'.nodes[3].log == [SENTINEL, W4, W4, Z6];
  }

  lemma FirstTakesEntry(c: Cluster, allowed: Allowed) returns (c': Cluster)
    requires Has(c, 3, 6, [SENTINEL, W4, W4, Z6]) && Has(c, 1, 6, [SENTINEL, W4, W4])
    requires AppendEnvelope(c.nodes[3], 1, 3) in c.network
    ensures Reaches(c, c', allowed) && OnlyTouched(c, c', {1})
    ensures ReplyEnvelope(1, AppendEntriesRequest(6, 3, 2, 4, [Z6], 0), true, 3) in c'.network
  {
    var log: Log := [SENTINEL, W4, W4, Z6];
    var m := AppendEnvelope(c.nodes[3], 1, 3);
    assert m.body.appendRequest == AppendEntriesRequest(6, 3, 2, 4, [Z6], 0);
    assert Merged([SENTINEL, W4, W4], 3, [Z6]) == log;
    c' := Accepts(c, 1, m, log, allowed);
  }

  /** Both accept, and node 3 commits and applies its log from the first index on. */
  lemma PastEndSecond(c: Cluster, allowed: Allowed) returns (c': Cluster)
    requires Has(c, 3, 6, [SENTINEL, W4, W4, Z6]) && c.nodes[3].role == Leader
    requires c.nodes[3].matchIndex == Tracking(FIVE, 3, 0)
    requires AppendEnvelope(c.nodes[3], 1, 3) in c.network && AppendEnvelope(c.nodes[3], 5, 1) in c.network
    requires Has(c, 1, 6, [SENTINEL, W4, W4]) && Has(c, 5, 6, EMPTY_LOG)
    ensures Reaches(c, c', allowed) && OnlyTouched(c, c', {1, 3, 5}) && Applied(3, 1, X) in c'.history.applied
    ensures c'.nodes[3].role == Leader && c'.nodes[3].currentTerm == 6
    ensures c'.nodes[3].log == [SENTINEL, W4, W4, Z6]
  {
    var log: Log := [SENTINEL, W4, W4, Z6];
    var c1 := FirstTakesEntry(c, allowed);
    assert Merged(EMPTY_LOG, 1, log[1..]) == log;
    var c2 := TakesWholeLog(c1, 3, 5, c, allowed);
    Extends(c, c1, c2, {1}, {5}, allowed);
    c' := CommitsOnTwo(c2, 3, 1, AppendEntriesRequest(6, 3, 2, 4, [Z6], 0), 5, WholeLog(3, 6, log), 3, allowed);
    Extends(c, c2, c', {1} + {5}, {3}, allowed);
    assert {1} + {5} + {3} == {1, 3, 5};
    assert log[1].command == X;
  }

  lemma PastEndEnd(c: Cluster) returns (c': Cluster)
    requires Has(c, 3, 5, [SENTINEL, W4, W4]) && c.nodes[3].role == Follower
    requires Has(c, 1, 5, [SENTINEL, W4, W4]) && Has(c, 5, 5, EMPTY_LOG)
    requires CommitRecord(5, [SENTINEL, Y2, Z5]) in c.history.committed && Applied(2, 1, Y) in c.history.applied
    ensures Reaches(c, c', Allowed(false, false, true)) && Unsafe(c')
  {
    var allowed := Allowed(false, false, true);
    var c1 := PastEndElected(c, allowed);
    var c2 := PastEndLearns(c1, allowed);
    ReachesTrans(c, c1, c2, allowed);
    var c3 := PastEndProposes(c2, allowed);
    ReachesTrans(c, c2, c3, allowed);
    c' := PastEndSecond(c3, allowed);
    ReachesTrans(c, c3, c', allowed);
    assert c'.nodes[3].log[1] == W4 && [SENTINEL, Y2, Z5][1] == Y2;
    LeaderLacks(c', 3, CommitRecord(5, [SENTINEL, Y2, Z5]), Applied(2, 1, Y), Applied(3, 1, X));
  }

  lemma PastEndRun(c: Cluster) returns (c': Cluster)
    requires Untouched(c) && AllDurable(c)
    ensures Reaches(c, c', Allowed(false, false, true)) && Unsafe(c')
  {
    var allowed := Allowed(false, false, true);
    var c1 := PastEndStart(c, allowed);
    ReachesDurable(c, c1, allowed);
    var c2 := PastEndHint(c1, allowed);
    var c3 := PastEndOverwrite(c2, allowed);
    var c4 := PastEndFinish(c3);
    c' := c4;
    ReachesTrans(c, c1, c2, allowed);
    ReachesTrans(c, c2, c3, allowed);
    ReachesTrans(c, c3, c', allowed);
  }

  lemma PastEndFinish(c: Cluster) returns (c': Cluster)
    requires Has(c, 1, 4, [SENTINEL, W4, W4]) && Has(c, 2, 4, [SENTINEL, Y2]) && Has(c, 3, 4, [SENTINEL, W4, W4])
    requires Has(c, 4, 4, EMPTY_LOG) && Has(c, 5, 4, EMPTY_LOG) && c.nodes[2].role == Follower
    requires ReplyEnvelope(1, AppendEntriesRequest(3, 2, 1, 2, [], 0), false, 3) in c.network
    ensures Reaches(c, c', Allowed(false, false, true)) && Unsafe(c')
  {
    var allowed := Allowed(false, false, true);
    var c1 := PastEndReturn(c, allowed);
    var c2 := PastEndAccepted(c1);
    var c3 := PastEndCommit(c2);
    c' := PastEndEnd(c3);
    ReachesTrans(c, c1, c2, allowed);
    ReachesTrans(c, c2, c3, allowed);
    ReachesTrans(c, c3, c', allowed);
  }

  /** With requests past the leader's log accepted, and nothing else unusual, safety fails. */
  lemma PastEndBreaksSafety()
    ensures exists events: seq<Event> ::
              && RunPermitted(Initial(FIVE), events, Allowed(false, false, true))
              && Unsafe(Exec(Initial(FIVE), events))
  {
    var c := PastEndRun(Initial(FIVE));
    var events: seq<Event> :| Leads(Initial(FIVE), events, c, Allowed(false, false, true));
  }
}
