/** Persistence coupling: whenever a handler returns, the state file holds the in-memory
    term, vote and log, so a restart between steps only resets volatile state. */
module Persistence {
  import opened RaftTypes
  import opened RaftSpec
  import opened RaftCluster

  /** Loading the state file gives back the node's term, vote and log. */
  ghost predicate Durable(s: NodeState) {
    Load(s.disk) == Saved(s)
  }

  ghost predicate AllDurable(c: Cluster) {
    forall i | i in c.nodes :: Durable(c.nodes[i])
  }

  lemma ElectionKeepsDurable(s: NodeState)
    ensures Durable(StartElection(s).node)
  {
  }

  lemma AppendEntriesKeepsDurable(s: NodeState, r: AppendEntriesRequest)
    requires Durable(s)
    ensures Durable(HandleAppendEntries(s, r).node)
  {
    assert Durable(FollowLeader(s, r));
    assert Durable(AcceptEntries(FollowLeader(s, r), r));
  }

  /** Every input leaves the file equal to memory, including the ones that truncate the log. */
  lemma StepKeepsDurable(s: NodeState, input: Input)
    requires Durable(s)
    ensures Durable(NodeStep(s, input).node)
  {
    match input
    case Tick =>
      ElectionKeepsDurable(s.(timers := s.timers.(election := CountDown(s.timers.election))));
    case Propose(command) =>
      if s.role == Leader {
        assert Durable(Appended(s, command));
      }
    case Restart =>
    case Deliver(envelope) =>
      match envelope.body
      case RequestVote(r) =>
      case VoteResponse(r) =>
      case AppendEntries(r) => AppendEntriesKeepsDurable(s, r);
      case AppendResponse(r) =>
  }

  /** A restart at a step boundary is exactly a reset of the volatile fields. */
  lemma RestartResetsVolatile(s: NodeState)
    requires Durable(s)
    ensures var s' := NodeStep(s, Restart).node;
            && s'.currentTerm == s.currentTerm && s'.votedFor == s.votedFor && s'.log == s.log
            && s'.id == s.id && s'.peers == s.peers && s'.disk == s.disk
            && s'.role == Follower && s'.leaderId == None && s'.votesReceived == {}
            && s'.commitIndex == 0 && s'.lastApplied == 0 && s'.nextIndex == [] && s'.matchIndex == []
  {
  }

  lemma {:induction false} RunKeepsDurable(c: Cluster, events: seq<Event>)
    requires AllDurable(c)
    ensures AllDurable(Exec(c, events))
    decreases |events|
  {
    if events != [] {
      var e := events[0];
      if Enabled(c, e) {
        StepKeepsDurable(c.nodes[e.node], e.input);
      }
      RunKeepsDurable(Step(c, e), events[1..]);
    }
  }

  /** In every reachable state, after every sequence of events, disk and memory agree. */
  lemma DiskEqualsMemory(peers: seq<NodeId>, events: seq<Event>)
    ensures AllDurable(Exec(Initial(peers), events))
  {
    RunKeepsDurable(Initial(peers), events);
  }
}
