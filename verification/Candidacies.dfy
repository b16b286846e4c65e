/** The log a candidate asks votes with: it is what its requests describe, every vote goes to
    such a candidacy, and a winner still holds it when it becomes leader. */
module Candidacies {
  import opened RaftTypes
  import opened RaftLogs
  import opened RaftSpec
  import opened RaftCluster
  import opened RaftFacts
  import opened Persistence
  import opened ElectionSafety
  import opened LogMatching

  type CandidateLogs = map<Tenure, Log>

  ghost predicate CandidateOk(c: Cluster, i: NodeId)
    requires i in c.nodes
  {
    var s := c.nodes[i];
    && (s.role != Follower ==> Tenure(s.currentTerm, i) in c.history.candidateLog)
    && (s.role == Candidate ==> c.history.candidateLog[Tenure(s.currentTerm, i)] == s.log)
  }

  ghost predicate CandidacyOk(c: Cluster, t: Tenure)
    requires t in c.history.candidateLog
  {
    && t.node in c.nodes && t.term <= c.nodes[t.node].currentTerm
    && LogOk(c.history.leaderLog, c.history.candidateLog[t])
  }

  predicate Describes(logs: CandidateLogs, from: NodeId, r: RequestVoteRequest) {
    var t := Tenure(r.term, from);
    t in logs && r.lastLogIndex == LastIndex(logs[t]) && r.lastLogTerm == LastTerm(logs[t])
  }

  ghost predicate CandidateInv(c: Cluster) {
    && (forall i | i in c.nodes :: CandidateOk(c, i))
    && (forall t | t in c.history.candidateLog :: CandidacyOk(c, t))
    && (forall v | v in c.history.votes :: Tenure(v.term, v.candidate) in c.history.candidateLog)
    && (forall e | e in c.network && e.body.RequestVote? ::
          Describes(c.history.candidateLog, e.from, e.body.voteRequest))
  }

  /** How a node comes by its vote: its own new candidacy, the vote it already had, or a grant. */
  ghost predicate VoteCast(s: NodeState, s': NodeState, input: Input) {
    s'.votedFor.Some? ==>
      || (s'.currentTerm == s.currentTerm && s'.votedFor == s.votedFor)
      || (s'.votedFor == Some(s.id) && s'.role != Follower && s'.currentTerm > s.currentTerm && s'.log == s.log)
      || Granted(s, s', input)
  }

  ghost predicate Granted(s: NodeState, s': NodeState, input: Input) {
    && input.Deliver? && input.envelope.body.RequestVote?
    && s'.votedFor == Some(input.envelope.body.voteRequest.candidateId)
    && s'.currentTerm == input.envelope.body.voteRequest.term
    && s'.log == s.log
    && UpToDate(input.envelope.body.voteRequest.lastLogTerm, input.envelope.body.voteRequest.lastLogIndex, s.log)
  }

  ghost predicate CandidateStep(s: NodeState, o: Outcome, input: Input) {
    var s' := o.node;
    && VoteCast(s, s', input)
    && (s'.role != Follower ==>
          || (s.role != Follower && s'.currentTerm == s.currentTerm)
          || (s'.currentTerm > s.currentTerm && s'.log == s.log))
    && (s'.role == Candidate ==> s'.log == s.log && (s'.currentTerm > s.currentTerm || s.role == Candidate))
    && (forall a | a in o.actions && a.SendRequestVote? :: s'.role == Candidate && a.voteRequest == VoteRequestOf(s'))
  }

  lemma WinCandidateStep(s: NodeState)
    ensures forall a | a in WinElection(s).actions :: !a.SendRequestVote?
  {
    TrackingAtLeastOne(s.peers, s.id, LastIndex(s.log) + 1);
    var s1 := WinElection(s).node;
    ReplicationFacts(s1, s1.peers);
  }

  lemma TickCandidateStep(s: NodeState)
    requires AllAtLeastOne(s.nextIndex)
    ensures CandidateStep(s, HandleTick(s), Tick)
  {
    if s.role == Leader {
      var s1 := s.(timers := s.timers.(heartbeat := HEARTBEAT_INTERVAL));
      ReplicationFacts(s1, s1.peers);
    } else {
      var s0 := s.(timers := s.timers.(election := CountDown(s.timers.election)));
      var s1 := Persist(ResetElectionTimeout(BecomeCandidate(s0).(votesReceived := {s.id})));
      WinCandidateStep(s1);
      VoteRequestFacts(s1, s1.peers);
    }
  }

  lemma DeliverCandidateStep(s: NodeState, e: Envelope)
    ensures CandidateStep(s, Receive(s, e), Deliver(e))
  {
    match e.body
    case RequestVote(r) =>
    case VoteResponse(r) =>
      if s.role == Candidate && r.term == s.currentTerm {
        WinCandidateStep(if r.voteGranted then s.(votesReceived := s.votesReceived + {e.from}) else s);
      }
    case AppendEntries(r) => AppendEntriesCandidateStep(s, e, r);
    case AppendResponse(r) =>
      if s.role == Leader && r.term <= s.currentTerm && r.success {
        AdvanceCommitFacts(match r.matchIndex
                           case None => s
                           case Some(m) => s.(matchIndex := SetFirst(s.matchIndex, e.from, m),
                                              nextIndex := SetFirst(s.nextIndex, e.from, m + 1)));
      }
  }

  lemma AppendEntriesCandidateStep(s: NodeState, e: Envelope, r: AppendEntriesRequest)
    requires e.body == AppendEntries(r)
    ensures CandidateStep(s, HandleAppendEntries(s, r), Deliver(e))
  {
    FollowCommitFacts(AcceptEntries(FollowLeader(s, r), r), r.leaderCommit);
  }

  lemma NodeStepCandidateStep(s: NodeState, input: Input)
    requires AllAtLeastOne(s.nextIndex) && Durable(s)
    ensures CandidateStep(s, NodeStep(s, input), input)
  {
    match input
    case Tick => TickCandidateStep(s);
    case Propose(command) =>
      if s.role == Leader {
        var s1 := Appended(s, command);
        ReplicationFacts(s1, s1.peers);
        AdvanceCommitFacts(s1);
      }
    case Restart =>
    case Deliver(envelope) => DeliverCandidateStep(s, envelope);
  }

  // ---- The invariant over a step ----

  lemma CandidateLogsAfter(c: Cluster, e: Event, o: Outcome)
    requires CandidateInv(c) && Enabled(c, e) && o.node.id == e.node
    requires c.nodes[e.node].currentTerm <= o.node.currentTerm
    requires CandidateStep(c.nodes[e.node], o, e.input)
    requires Grown(c.history.leaderLog, After(c, e, o).history.leaderLog)
    requires LogOk(After(c, e, o).history.leaderLog, o.node.log)
    ensures var c' := After(c, e, o);
            && (forall i | i in c'.nodes :: CandidateOk(c', i))
            && (forall t | t in c'.history.candidateLog :: CandidacyOk(c', t))
            && (forall t | t in c.history.candidateLog ::
                  t in c'.history.candidateLog && c'.history.candidateLog[t] == c.history.candidateLog[t])
  {
    var c' := After(c, e, o);
    assert CandidateOk(c, e.node);
    forall t | t in c'.history.candidateLog ensures CandidacyOk(c', t) {
      if t in c.history.candidateLog {
        assert CandidacyOk(c, t);
        LogOkGrows(c.history.leaderLog, c'.history.leaderLog, c.history.candidateLog[t]);
      }
    }
    forall i | i in c'.nodes ensures CandidateOk(c', i) {
      assert CandidateOk(c, i);
    }
  }

  lemma CandidateInvAfter(c: Cluster, e: Event, o: Outcome)
    requires CandidateInv(c) && Enabled(c, e) && o.node.id == e.node
    requires c.nodes[e.node].id == e.node
    requires c.nodes[e.node].currentTerm <= o.node.currentTerm
    requires c.nodes[e.node].votedFor.Some? ==>
               Vote(c.nodes[e.node].currentTerm, e.node, c.nodes[e.node].votedFor.value) in c.history.votes
    requires e.input.Deliver? ==> AddressOk(e.input.envelope)
    requires CandidateStep(c.nodes[e.node], o, e.input)
    requires Grown(c.history.leaderLog, After(c, e, o).history.leaderLog)
    requires LogOk(After(c, e, o).history.leaderLog, o.node.log)
    ensures CandidateInv(After(c, e, o))
  {
    var c' := After(c, e, o);
    CandidateLogsAfter(c, e, o);
    assert CandidateOk(c', e.node);
    forall m | m in c'.network && m.body.RequestVote?
      ensures Describes(c'.history.candidateLog, m.from, m.body.voteRequest)
    {
      if m in c.network {
        assert Describes(c.history.candidateLog, m.from, m.body.voteRequest);
      } else {
        var a :| a in o.actions && !a.ApplyEntry? && m == ToEnvelope(e.node, a, Answered(e.input));
      }
    }
    forall v | v in c'.history.votes ensures Tenure(v.term, v.candidate) in c'.history.candidateLog {
      if v !in c.history.votes && Granted(c.nodes[e.node], o.node, e.input) {
        assert Describes(c.history.candidateLog, v.candidate, e.input.envelope.body.voteRequest);
      }
    }
  }
}
