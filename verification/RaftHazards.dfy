/** What a hazardous delivery does. For each of the three there is a run that contains only
    hazardous deliveries of that kind and in which a leader lacks an entry committed in an
    earlier term and two nodes apply different commands at one index. Here: the overclaiming
    reply, in a cluster of three; StaleHazard and PastEndHazard have the other two. */
module RaftHazards {
  import opened RaftTypes
  import opened RaftLogs
  import opened RaftSpec
  import opened RaftCluster
  import opened RaftFacts
  import opened LeaderCompleteness
  import opened RunTools

  const THREE: seq<NodeId> := [1, 2, 3]

  const X := Put("k", "x")
  const Y := Put("k", "y")
  const Z := Put("k", "z")

  const X1 := LogEntry(1, X)
  const Y2 := LogEntry(2, Y)
  const Z3 := LogEntry(3, Z)

  /** Both promises are broken. */
  ghost predicate Unsafe(c: Cluster) {
    !CurrentLeadersComplete(c) && !StateMachinesAgree(c)
  }

  /** A leader lacks a prefix committed before, and two nodes differ in what they applied. */
  lemma LeaderLacks(c: Cluster, i: NodeId, r: CommitRecord, a: Applied, b: Applied)
    requires r in c.history.committed && i in c.nodes && c.nodes[i].role == Leader
    requires r.term <= c.nodes[i].currentTerm && !(r.entries <= c.nodes[i].log)
    requires a in c.history.applied && b in c.history.applied && a.index == b.index && a.command != b.command
    ensures Unsafe(c)
  {
  }

  /** A node of the three-node cluster with this term and log, which has committed nothing. */
  predicate HasOfThree(c: Cluster, i: NodeId, term: nat, log: Log) {
    c.peers == THREE && Member(c, i) && c.nodes[i].currentTerm == term && c.nodes[i].log == log
    && c.nodes[i].commitIndex == 0 && c.nodes[i].lastApplied == 0
  }

  // ---- A permitted run ----

  /** Node 1 leads term 1 with one entry, which is on its way to the others. */
  lemma LeaderWithEntry(allowed: Allowed) returns (c: Cluster)
    ensures Reaches(Initial(THREE), c, allowed)
    ensures HasOfThree(c, 1, 1, [SENTINEL, X1]) && c.nodes[1].role == Leader
    ensures c.nodes[1].matchIndex == Tracking(THREE, 1, 0) && AppendEnvelope(c.nodes[1], 2, 1) in c.network
    ensures HasOfThree(c, 2, 1, EMPTY_LOG) && c.nodes[2].role == Follower
    ensures HasOfThree(c, 3, 0, EMPTY_LOG) && c.nodes[3].role == Follower
  {
    var c0 := Initial(THREE);
    var c1 := FirstLeader(allowed);
    TrackingLookup(THREE, 1, 1, 2);
    c := Proposes(c1, 1, X, allowed);
    ReachesTrans(c0, c1, c, allowed);
  }

  lemma FirstLeader(allowed: Allowed) returns (c: Cluster)
    ensures Reaches(Initial(THREE), c, allowed)
    ensures JustElected(c, 1, 1, EMPTY_LOG) && HasOfThree(c, 1, 1, EMPTY_LOG)
    ensures HasOfThree(c, 2, 1, EMPTY_LOG) && c.nodes[2].role == Follower
    ensures HasOfThree(c, 3, 0, EMPTY_LOG) && c.nodes[3].role == Follower
  {
    c := ElectWithOne(Initial(THREE), 1, 2, allowed);
  }

  /** Runs without any hazard do commit: here a leader, one vote and one acknowledgement. */
  lemma PermittedRunCommits()
    ensures exists events: seq<Event> ::
              && RunPermitted(Initial(THREE), events, NOTHING)
              && CommitRecord(1, [SENTINEL, X1]) in Exec(Initial(THREE), events).history.committed
  {
    var c1 := LeaderWithEntry(NOTHING);
    var c2 := CommitsWithOneAck(c1);
    ReachesTrans(Initial(THREE), c1, c2, NOTHING);
    var events: seq<Event> :| Leads(Initial(THREE), events, c2, NOTHING);
  }

  lemma CommitsWithOneAck(c: Cluster) returns (c': Cluster)
    requires HasOfThree(c, 1, 1, [SENTINEL, X1]) && c.nodes[1].role == Leader
    requires c.nodes[1].matchIndex == Tracking(THREE, 1, 0) && AppendEnvelope(c.nodes[1], 2, 1) in c.network
    requires HasOfThree(c, 2, 1, EMPTY_LOG)
    ensures Reaches(c, c', NOTHING) && CommitRecord(1, [SENTINEL, X1]) in c'.history.committed
  {
    var m := AppendEnvelope(c.nodes[1], 2, 1);
    var r := AppendEntriesRequest(1, 1, 0, 0, [X1], 0);
    assert m.body.appendRequest == r;
    assert Merged(EMPTY_LOG, 1, [X1]) == [SENTINEL, X1];
    var c1 := Accepts(c, 2, m, [SENTINEL, X1], NOTHING);
    c' := CommitsOnOne(c1, 1, 2, r, 1, NOTHING);
    ReachesTrans(c, c1, c', NOTHING);
  }

  // ---- Overclaiming replies ----

  /** Node 2 wins term 2 with an empty log, and node 1's reply to its first request claims index 1. */
  lemma OverclaimReply(c: Cluster) returns (c': Cluster)
    requires HasOfThree(c, 1, 1, [SENTINEL, X1])
    requires HasOfThree(c, 2, 1, EMPTY_LOG) && c.nodes[2].role == Follower
    requires HasOfThree(c, 3, 0, EMPTY_LOG) && c.nodes[3].role == Follower
    ensures Reaches(c, c', Allowed(false, true, false))
    ensures HasOfThree(c', 1, 2, [SENTINEL, X1]) && c'.nodes[1].role == Follower
    ensures HasOfThree(c', 2, 2, EMPTY_LOG) && c'.nodes[2].role == Leader
    ensures c'.nodes[2].matchIndex == [(1, 1), (3, 0)]
    ensures HasOfThree(c', 3, 2, EMPTY_LOG) && c'.nodes[3].role == Follower
  {
    var allowed := Allowed(false, true, false);
    var c1 := ElectWithOne(c, 2, 3, allowed);
    var m := AppendEnvelope(c1.nodes[2], 1, 1);
    var r := m.body.appendRequest;
    assert r == AppendEntriesRequest(2, 2, 0, 0, [], 0);
    var c2 := Accepts(c1, 1, m, c.nodes[1].log, allowed);
    assert Tracking(THREE, 2, 0) == [(1, 0), (3, 0)];
    c' := Counts(c2, 2, 1, r, 1, allowed);
    assert SetFirst(c2.nodes[2].matchIndex, 1, 1) == [(1, 1), (3, 0)];
    ReachesTrans(c, c1, c2, allowed);
    ReachesTrans(c, c2, c', allowed);
  }

  /** Node 2 commits and applies its next proposal at once, although nobody else holds it. */
  lemma OverclaimCommit(c: Cluster) returns (c': Cluster)
    requires HasOfThree(c, 2, 2, EMPTY_LOG) && c.nodes[2].role == Leader
    requires c.nodes[2].matchIndex == [(1, 1), (3, 0)]
    ensures Reaches(c, c', Allowed(false, true, false)) && OnlyTouched(c, c', {2})
    ensures CommitRecord(2, [SENTINEL, Y2]) in c'.history.committed && Applied(2, 1, Y) in c'.history.applied
  {
    c' := Take(c, 2, Propose(Y), Allowed(false, true, false));
    var s1 := Appended(c.nodes[2], Y);
    assert CountAtLeast(s1.matchIndex, 1) == 1 by {
      var rest: seq<(NodeId, nat)> := [(3, 0)];
      assert s1.matchIndex[1..] == rest && rest[1..] == [];
      assert CountAtLeast(rest, 1) == 0;
    }
    assert s1.log == [SENTINEL, Y2];
    CommitsAll(s1);
    assert c'.nodes[2] == AdvanceCommit(s1).node;
    AppliedOnCommit(c', 2, s1, NodeStep(c.nodes[2], Propose(Y)).actions);
  }

  /** Node 1 wins term 3, learns where node 3's log ends and proposes. */
  lemma OverclaimReturn(c: Cluster, allowed: Allowed) returns (c': Cluster)
    requires JustElected(c, 1, 3, [SENTINEL, X1]) && HasOfThree(c, 1, 3, [SENTINEL, X1])
    requires HasOfThree(c, 3, 3, EMPTY_LOG)
    ensures Reaches(c, c', allowed) && OnlyTouched(c, c', {1, 3})
    ensures HasOfThree(c', 1, 3, [SENTINEL, X1, Z3]) && c'.nodes[1].role == Leader
    ensures c'.nodes[1].matchIndex == Tracking(THREE, 1, 0) && AppendEnvelope(c'.nodes[1], 3, 1) in c'.network
    ensures HasOfThree(c', 3, 3, EMPTY_LOG)
  {
    var c1 := OverclaimHint(c, allowed);
    c' := Proposes(c1, 1, Z, allowed);
    assert c'.nodes[1].log == [SENTINEL, X1, Z3];
    Extends(c, c1, c', {1, 3}, {1}, allowed);
    assert {1, 3} + {1} == {1, 3};
  }

  lemma OverclaimHint(c: Cluster, allowed: Allowed) returns (c': Cluster)
    requires JustElected(c, 1, 3, [SENTINEL, X1]) && HasOfThree(c, 1, 3, [SENTINEL, X1])
    requires HasOfThree(c, 3, 3, EMPTY_LOG)
    ensures Reaches(c, c', allowed) && OnlyTouched(c, c', {1, 3})
    ensures HasOfThree(c', 1, 3, [SENTINEL, X1]) && c'.nodes[1].role == Leader
    ensures c'.nodes[1].matchIndex == Tracking(THREE, 1, 0) && Lookup(c'.nodes[1].nextIndex, 3) == Some(1)
    ensures HasOfThree(c', 3, 3, EMPTY_LOG)
  {
    c' := LearnsEmpty(c, 1, 3, 3, [SENTINEL, X1], allowed);
  }

  /** Node 3 takes node 1's log, and node 1 commits and applies it. */
  lemma OverclaimSecond(c: Cluster, allowed: Allowed) returns (c': Cluster)
    requires HasOfThree(c, 1, 3, [SENTINEL, X1, Z3]) && c.nodes[1].role == Leader
    requires c.nodes[1].matchIndex == Tracking(THREE, 1, 0) && AppendEnvelope(c.nodes[1], 3, 1) in c.network
    requires HasOfThree(c, 3, 3, EMPTY_LOG)
    ensures Reaches(c, c', allowed) && OnlyTouched(c, c', {1, 3})
    ensures Applied(1, 1, X) in c'.history.applied
    ensures Member(c', 1) && c'.nodes[1].role == Leader && c'.nodes[1].currentTerm == 3
    ensures c'.nodes[1].log == [SENTINEL, X1, Z3]
  {
    var log: Log := [SENTINEL, X1, Z3];
    var m := AppendEnvelope(c.nodes[1], 3, 1);
    var r := AppendEntriesRequest(3, 1, 0, 0, [X1, Z3], 0);
    assert m.body.appendRequest == r;
    assert Merged(EMPTY_LOG, 1, [X1, Z3]) == log;
    var c1 := Accepts(c, 3, m, log, allowed);
    c' := CommitsOnOne(c1, 1, 3, r, 2, allowed);
    Extends(c, c1, c', {3}, {1}, allowed);
    assert {3} + {1} == {1, 3};
    assert log[1].command == X;
  }

  lemma OverclaimFinish(c: Cluster) returns (c': Cluster)
    requires HasOfThree(c, 1, 2, [SENTINEL, X1]) && c.nodes[1].role == Follower
    requires HasOfThree(c, 3, 2, EMPTY_LOG)
    requires CommitRecord(2, [SENTINEL, Y2]) in c.history.committed && Applied(2, 1, Y) in c.history.applied
    ensures Reaches(c, c', Allowed(false, true, false)) && Unsafe(c')
  {
    var allowed := Allowed(false, true, false);
    var c1 := ElectWithOne(c, 1, 3, allowed);
    var c2 := OverclaimReturn(c1, allowed);
    c' := OverclaimSecond(c2, allowed);
    assert c'.nodes[1].log[1] == X1 && [SENTINEL, Y2][1] == Y2;
    LeaderLacks(c', 1, CommitRecord(2, [SENTINEL, Y2]), Applied(1, 1, X), Applied(2, 1, Y));
    ReachesTrans(c, c1, c2, allowed);
    ReachesTrans(c, c2, c', allowed);
  }

  /** With overclaiming replies delivered, and nothing else unusual, safety fails. */
  lemma OverclaimBreaksSafety()
    ensures exists events: seq<Event> ::
              && RunPermitted(Initial(THREE), events, Allowed(false, true, false))
              && Unsafe(Exec(Initial(THREE), events))
  {
    var allowed := Allowed(false, true, false);
    var c0 := Initial(THREE);
    var c1 := LeaderWithEntry(allowed);
    var c2 := OverclaimReply(c1);
    var c3 := OverclaimCommit(c2);
    var c4 := OverclaimFinish(c3);
    ReachesTrans(c0, c1, c2, allowed);
    ReachesTrans(c0, c2, c3, allowed);
    ReachesTrans(c0, c3, c4, allowed);
    var events: seq<Event> :| Leads(c0, events, c4, allowed);
  }
}
