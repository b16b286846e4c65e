/** What the lists of actions and the tracking pairs of the step functions contain. */
module RaftFacts {
  import opened RaftTypes
  import opened RaftLogs
  import opened RaftSpec

  /** A request whose slice is the slice of `lead` that it names. */
  predicate Covers(lead: Log, r: AppendEntriesRequest) {
    && r.prevLogIndex + |r.entries| < |lead|
    && lead[r.prevLogIndex].term == r.prevLogTerm
    && r.entries == lead[r.prevLogIndex + 1..r.prevLogIndex + 1 + |r.entries|]
  }

  /** A request that starts past the sender's log: it names index > 0 with term 0. */
  predicate PastEnd(r: AppendEntriesRequest) {
    r.prevLogIndex > 0 && r.prevLogTerm == 0 && r.entries == []
  }

  predicate AllAtLeastOne(pairs: seq<(NodeId, nat)>) {
    forall k | 0 <= k < |pairs| :: pairs[k].1 >= 1
  }

  lemma {:induction false} LookupAtLeastOne(pairs: seq<(NodeId, nat)>, id: NodeId)
    requires AllAtLeastOne(pairs)
    ensures Lookup(pairs, id).Some? ==> Lookup(pairs, id).value >= 1
  {
    if pairs != [] && pairs[0].0 != id {
      LookupAtLeastOne(pairs[1..], id);
    }
  }

  lemma {:induction false} SetFirstAtLeastOne(pairs: seq<(NodeId, nat)>, id: NodeId, value: nat)
    requires AllAtLeastOne(pairs) && value >= 1
    ensures AllAtLeastOne(SetFirst(pairs, id, value))
  {
    if pairs != [] && pairs[0].0 != id {
      SetFirstAtLeastOne(pairs[1..], id, value);
    }
  }

  lemma {:induction false} LookupSetFirst(pairs: seq<(NodeId, nat)>, id: NodeId, value: nat)
    requires Lookup(pairs, id).Some?
    ensures Lookup(SetFirst(pairs, id, value), id) == Some(value)
  {
    if pairs[0].0 != id {
      LookupSetFirst(pairs[1..], id, value);
    }
  }

  lemma {:induction false} LookupSetOther(pairs: seq<(NodeId, nat)>, id: NodeId, value: nat, other: NodeId)
    requires other != id
    ensures Lookup(SetFirst(pairs, id, value), other) == Lookup(pairs, other)
  {
    if pairs != [] && pairs[0].0 != id {
      LookupSetOther(pairs[1..], id, value, other);
    }
  }

  lemma {:induction false} TrackingAtLeastOne(peers: seq<NodeId>, self: NodeId, value: nat)
    requires value >= 1
    ensures AllAtLeastOne(Tracking(peers, self, value))
  {
    if peers != [] {
      TrackingAtLeastOne(peers[1..], self, value);
    }
  }

  /** With next_index at least 1, a request covers the sender's log to its end or starts past it. */
  lemma RequestCoversOrPastEnd(s: NodeState, next: nat)
    requires next >= 1
    ensures var r := AppendRequestFor(s, next);
            || (Covers(s.log, r) && r.prevLogIndex + |r.entries| == LastIndex(s.log))
            || (PastEnd(r) && r.prevLogIndex >= |s.log|)
  {
    var r := AppendRequestFor(s, next);
    if next <= |s.log| {
      assert r.entries == s.log[next..];
      assert s.log[r.prevLogIndex + 1..r.prevLogIndex + 1 + |r.entries|] == s.log[next..];
    }
  }

  ghost predicate IsReplication(s: NodeState, a: Action) {
    && a.SendAppendEntries? && a.to != s.id && a.to in s.peers
    && a.appendRequest.term == s.currentTerm && a.appendRequest.leaderId == s.id
    && a.appendRequest.leaderCommit == s.commitIndex
    && (|| (Covers(s.log, a.appendRequest)
            && a.appendRequest.prevLogIndex + |a.appendRequest.entries| == LastIndex(s.log))
        || PastEnd(a.appendRequest))
  }

  lemma {:induction false} ReplicationFacts(s: NodeState, peers: seq<NodeId>)
    requires AllAtLeastOne(s.nextIndex)
    requires forall p | p in peers :: p in s.peers
    ensures forall a | a in ReplicateTo(s, peers) :: IsReplication(s, a)
  {
    if peers != [] {
      ReplicationFacts(s, peers[1..]);
      LookupAtLeastOne(s.nextIndex, peers[0]);
      var next := Lookup(s.nextIndex, peers[0]);
      if next.Some? {
        RequestCoversOrPastEnd(s, next.value);
      }
    }
  }

  lemma {:induction false} VoteRequestFacts(s: NodeState, peers: seq<NodeId>)
    ensures forall a | a in VoteRequests(s, peers) ::
              a.SendRequestVote? && a.to in peers && a.voteRequest == VoteRequestOf(s)
  {
    if peers != [] {
      VoteRequestFacts(s, peers[1..]);
    }
  }

  ghost predicate IsApplication(log: Log, from: nat, upTo: nat, a: Action) {
    a.ApplyEntry? && from < a.index <= upTo && a.index < |log| && a.command == log[a.index].command
  }

  lemma {:induction false} ApplyFacts(log: Log, from: nat, upTo: nat)
    ensures forall a | a in ApplyActions(log, from, upTo) :: IsApplication(log, from, upTo, a)
    decreases upTo - from
  {
    if from < upTo {
      ApplyFacts(log, from + 1, upTo);
    }
  }

  lemma FollowCommitFacts(s: NodeState, leaderCommit: nat)
    ensures forall a | a in FollowCommit(s, leaderCommit).actions ::
              IsApplication(s.log, s.lastApplied, FollowCommit(s, leaderCommit).node.commitIndex, a)
  {
    ApplyFacts(s.log, s.lastApplied, FollowCommit(s, leaderCommit).node.commitIndex);
  }

  lemma AdvanceCommitFacts(s: NodeState)
    ensures forall a | a in AdvanceCommit(s).actions ::
              IsApplication(s.log, s.lastApplied, AdvanceCommit(s).node.commitIndex, a)
  {
    ApplyFacts(s.log, s.lastApplied, CommitScan(s, LastIndex(s.log)));
  }

  lemma {:induction false} VoteRequestsComplete(s: NodeState, peers: seq<NodeId>, p: NodeId)
    requires p in peers && p != s.id
    ensures SendRequestVote(p, VoteRequestOf(s)) in VoteRequests(s, peers)
  {
    if peers[0] != p {
      VoteRequestsComplete(s, peers[1..], p);
    }
  }

  lemma {:induction false} ReplicationComplete(s: NodeState, peers: seq<NodeId>, p: NodeId, next: nat)
    requires p in peers && p != s.id && Lookup(s.nextIndex, p) == Some(next)
    ensures SendAppendEntries(p, AppendRequestFor(s, next)) in ReplicateTo(s, peers)
  {
    if peers[0] != p {
      ReplicationComplete(s, peers[1..], p, next);
    }
  }

  lemma {:induction false} TrackingLookup(peers: seq<NodeId>, self: NodeId, value: nat, p: NodeId)
    requires p in peers && p != self
    ensures Lookup(Tracking(peers, self, value), p) == Some(value)
  {
    if peers[0] != p {
      TrackingLookup(peers[1..], self, value, p);
    }
  }
}
