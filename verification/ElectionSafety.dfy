/** Election Safety: over every run, at most one node is ever leader in a term. */
module ElectionSafety {
  import opened RaftTypes
  import opened RaftLogs
  import opened RaftSpec
  import opened RaftCluster
  import opened RaftFacts
  import opened Quorums
  import opened Persistence

  // ---- Addresses ----

  ghost predicate NodeOk(c: Cluster, i: NodeId)
    requires i in c.nodes
  {
    && c.nodes[i].id == i && c.nodes[i].peers == c.peers
    && AllAtLeastOne(c.nodes[i].nextIndex)
  }

  /** Requests name their sender, and AppendEntries never go back to it. */
  predicate AddressOk(e: Envelope) {
    match e.body
    case RequestVote(r) => r.candidateId == e.from
    case AppendEntries(r) => r.leaderId == e.from && e.to != e.from
    case _ => true
  }

  ghost predicate WellFormed(c: Cluster) {
    && c.nodes.Keys == Members(c.peers)
    && (forall i | i in c.nodes :: NodeOk(c, i))
    && (forall e | e in c.network :: e.from in c.nodes && AddressOk(e))
  }

  // ---- Votes ----

  /** A past vote binds the voter: its term is not behind, and in that same term the vote stands. */
  ghost predicate VoteStands(c: Cluster, v: Vote) {
    && v.voter in c.nodes
    && v.term <= c.nodes[v.voter].currentTerm
    && (v.term == c.nodes[v.voter].currentTerm ==> c.nodes[v.voter].votedFor == Some(v.candidate))
  }

  ghost predicate OneVotePerTerm(votes: set<Vote>) {
    forall v, w | v in votes && w in votes && v.term == w.term && v.voter == w.voter :: v.candidate == w.candidate
  }

  ghost predicate VotedBy(votes: set<Vote>, term: nat, candidate: NodeId, voters: set<NodeId>) {
    forall x | x in voters :: Vote(term, x, candidate) in votes
  }

  predicate GrantRecorded(votes: set<Vote>, e: Envelope) {
    e.body.VoteResponse? && e.body.voteResponse.voteGranted
    ==> Vote(e.body.voteResponse.term, e.from, e.to) in votes
  }

  ghost predicate TallyOk(c: Cluster, i: NodeId)
    requires i in c.nodes
  {
    var s := c.nodes[i];
    && (s.votedFor.Some? ==> Vote(s.currentTerm, i, s.votedFor.value) in c.history.votes)
    && (s.role != Follower ==> VotedBy(c.history.votes, s.currentTerm, i, s.votesReceived))
    && (s.role == Leader ==>
          Tenure(s.currentTerm, i) in c.history.electors && |s.votesReceived| >= Majority(c.peers))
  }

  ghost predicate TenureOk(c: Cluster, t: Tenure)
    requires t in c.history.electors
  {
    && t.node in c.nodes
    && |c.history.electors[t]| >= Majority(c.peers)
    && VotedBy(c.history.votes, t.term, t.node, c.history.electors[t])
    && t.term <= c.nodes[t.node].currentTerm
    && (t.term == c.nodes[t.node].currentTerm ==> c.nodes[t.node].role != Candidate)
  }

  ghost predicate ElectionInv(c: Cluster) {
    && WellFormed(c)
    && (forall v | v in c.history.votes :: VoteStands(c, v))
    && OneVotePerTerm(c.history.votes)
    && (forall e | e in c.network :: GrantRecorded(c.history.votes, e))
    && (forall i | i in c.nodes :: TallyOk(c, i))
    && (forall t | t in c.history.electors :: TenureOk(c, t))
  }

  /** At most one node was ever leader in each term. */
  ghost predicate OneLeaderPerTerm(c: Cluster) {
    forall t, u | t in c.history.electors && u in c.history.electors && t.term == u.term :: t.node == u.node
  }

  lemma ElectionInvGivesOneLeader(c: Cluster)
    requires ElectionInv(c)
    ensures OneLeaderPerTerm(c)
  {
    var h := c.history;
    forall t, u | t in h.electors && u in h.electors && t.term == u.term ensures t.node == u.node {
      assert TenureOk(c, t) && TenureOk(c, u);
      forall x | x in h.electors[t] ensures x in c.peers {
        assert VoteStands(c, Vote(t.term, x, t.node));
      }
      forall x | x in h.electors[u] ensures x in c.peers {
        assert VoteStands(c, Vote(u.term, x, u.node));
      }
      var p := QuorumsIntersect(c.peers, h.electors[t], h.electors[u]);
      assert Vote(t.term, p, t.node) in h.votes && Vote(u.term, p, u.node) in h.votes;
    }
  }

  // ---- What one node step may do ----

  /** What every handler does to term, vote, role and tally, given the votes already cast. */
  ghost predicate VoteStep(votes: set<Vote>, s: NodeState, o: Outcome) {
    var s' := o.node;
    && s'.id == s.id && s'.peers == s.peers
    && AllAtLeastOne(s'.nextIndex)
    && s.currentTerm <= s'.currentTerm
    && (s'.currentTerm == s.currentTerm && s.votedFor.Some? ==> s'.votedFor == s.votedFor)
    && (s'.role != Follower ==>
          forall x | x in s'.votesReceived ::
            Vote(s'.currentTerm, x, s.id) in votes || (x == s.id && s'.votedFor == Some(s.id)))
    && (s'.role == Candidate ==> s'.currentTerm > s.currentTerm || s.role == Candidate)
    && (s'.role == Leader ==>
          || (s.role == Leader && s'.currentTerm == s.currentTerm && s'.votesReceived == s.votesReceived)
          || ((s'.currentTerm > s.currentTerm || s.role == Candidate)
              && |s'.votesReceived| >= Majority(s.peers)))
    && (forall a | a in o.actions && !a.ApplyEntry? :: SentOk(s', a))
  }

  ghost predicate SentOk(s: NodeState, a: Action)
    requires !a.ApplyEntry?
  {
    match a
    case SendRequestVote(to, r) => r.candidateId == s.id
    case SendAppendEntries(to, r) => r.leaderId == s.id && to != s.id
    case SendRequestVoteResponse(to, r) => r.voteGranted ==> r.term == s.currentTerm && s.votedFor == Some(to)
    case SendAppendEntriesResponse(to, r) => true
  }

  ghost predicate TalliedBefore(votes: set<Vote>, s: NodeState) {
    && AllAtLeastOne(s.nextIndex)
    && (s.role != Follower ==> VotedBy(votes, s.currentTerm, s.id, s.votesReceived))
  }

  lemma WinVoteStep(votes: set<Vote>, s: NodeState, s1: NodeState)
    requires s1.id == s.id && s1.peers == s.peers
    requires s1.currentTerm > s.currentTerm || (s1.currentTerm == s.currentTerm && s.role == Candidate)
    requires s1.currentTerm == s.currentTerm && s.votedFor.Some? ==> s1.votedFor == s.votedFor
    requires forall x | x in s1.votesReceived ::
               Vote(s1.currentTerm, x, s.id) in votes || (x == s.id && s1.votedFor == Some(s.id))
    requires |s1.votesReceived| >= Majority(s.peers)
    ensures VoteStep(votes, s, WinElection(s1))
  {
    TrackingAtLeastOne(s1.peers, s1.id, LastIndex(s1.log) + 1);
    var s2 := WinElection(s1).node;
    ReplicationFacts(s2, s2.peers);
  }

  lemma TickVoteStep(votes: set<Vote>, s: NodeState)
    requires TalliedBefore(votes, s)
    ensures VoteStep(votes, s, HandleTick(s))
  {
    if s.role == Leader {
      var s1 := s.(timers := s.timers.(heartbeat := HEARTBEAT_INTERVAL));
      ReplicationFacts(s1, s1.peers);
    } else {
      var s0 := s.(timers := s.timers.(election := CountDown(s.timers.election)));
      var s1 := Persist(ResetElectionTimeout(BecomeCandidate(s0).(votesReceived := {s.id})));
      if |s1.votesReceived| >= Majority(s1.peers) {
        WinVoteStep(votes, s, s1);
      } else {
        VoteRequestFacts(s1, s1.peers);
      }
    }
  }

  lemma RequestVoteVoteStep(votes: set<Vote>, s: NodeState, r: RequestVoteRequest)
    requires TalliedBefore(votes, s)
    ensures VoteStep(votes, s, HandleRequestVote(s, r))
  {
  }

  lemma VoteResponseVoteStep(votes: set<Vote>, s: NodeState, from: NodeId, r: RequestVoteResponse)
    requires TalliedBefore(votes, s)
    requires r.voteGranted ==> Vote(r.term, from, s.id) in votes
    ensures VoteStep(votes, s, HandleRequestVoteResponse(s, from, r))
  {
    if s.role == Candidate && r.term == s.currentTerm {
      var s1 := if r.voteGranted then s.(votesReceived := s.votesReceived + {from}) else s;
      if |s1.votesReceived| >= Majority(s1.peers) {
        WinVoteStep(votes, s, s1);
      }
    }
  }

  lemma AppendEntriesVoteStep(votes: set<Vote>, s: NodeState, r: AppendEntriesRequest)
    requires TalliedBefore(votes, s)
    ensures VoteStep(votes, s, HandleAppendEntries(s, r))
  {
    FollowCommitFacts(AcceptEntries(FollowLeader(s, r), r), r.leaderCommit);
  }

  lemma AdvanceVoteStep(votes: set<Vote>, s: NodeState, s1: NodeState)
    requires TalliedBefore(votes, s) && s.role == Leader
    requires s1 == s.(log := s1.log, disk := s1.disk, matchIndex := s1.matchIndex, nextIndex := s1.nextIndex)
    requires AllAtLeastOne(s1.nextIndex)
    ensures VoteStep(votes, s, AdvanceCommit(s1))
  {
    AdvanceCommitFacts(s1);
  }

  lemma AppendResponseVoteStep(votes: set<Vote>, s: NodeState, from: NodeId, r: AppendEntriesResponse)
    requires TalliedBefore(votes, s)
    ensures VoteStep(votes, s, HandleAppendEntriesResponse(s, from, r))
  {
    if s.role == Leader && r.term <= s.currentTerm {
      if r.matchIndex.Some? {
        SetFirstAtLeastOne(s.nextIndex, from, r.matchIndex.value + 1);
      }
      if r.success {
        AdvanceVoteStep(votes, s,
          match r.matchIndex
          case None => s
          case Some(m) => s.(matchIndex := SetFirst(s.matchIndex, from, m),
                             nextIndex := SetFirst(s.nextIndex, from, m + 1)));
      } else if r.matchIndex.None? {
        StepBackAtLeastOne(s.nextIndex, from);
      }
    }
  }

  lemma StepBackAtLeastOne(pairs: seq<(NodeId, nat)>, id: NodeId)
    requires AllAtLeastOne(pairs)
    ensures AllAtLeastOne(StepBack(pairs, id))
  {
    var next := Lookup(pairs, id);
    if next.Some? && next.value > 1 {
      SetFirstAtLeastOne(pairs, id, next.value - 1);
    }
  }

  lemma ProposeVoteStep(votes: set<Vote>, s: NodeState, command: LogCommand)
    requires TalliedBefore(votes, s) && s.role == Leader
    ensures VoteStep(votes, s, HandlePropose(s, command).value)
  {
    var s1 := Appended(s, command);
    ReplicationFacts(s1, s1.peers);
    AdvanceVoteStep(votes, s, s1);
  }

  lemma RestartVoteStep(votes: set<Vote>, s: NodeState)
    requires Durable(s)
    ensures VoteStep(votes, s, Outcome(Open(s.id, s.peers, s.disk), []))
  {
  }

  lemma NodeStepVoteStep(c: Cluster, e: Event)
    requires ElectionInv(c) && Enabled(c, e) && Durable(c.nodes[e.node])
    ensures VoteStep(c.history.votes, c.nodes[e.node], NodeStep(c.nodes[e.node], e.input))
  {
    var s := c.nodes[e.node];
    var votes := c.history.votes;
    assert NodeOk(c, e.node) && TallyOk(c, e.node);
    match e.input
    case Tick => TickVoteStep(votes, s);
    case Propose(command) =>
      if s.role == Leader {
        ProposeVoteStep(votes, s, command);
      }
    case Restart => RestartVoteStep(votes, s);
    case Deliver(envelope) =>
      assert GrantRecorded(votes, envelope);
      match envelope.body
      case RequestVote(r) => RequestVoteVoteStep(votes, s, r);
      case VoteResponse(r) => VoteResponseVoteStep(votes, s, envelope.from, r);
      case AppendEntries(r) => AppendEntriesVoteStep(votes, s, r);
      case AppendResponse(r) => AppendResponseVoteStep(votes, s, envelope.from, r);
  }

  // ---- The invariant over a step and over a run ----

  lemma VotesAfter(c: Cluster, e: Event, o: Outcome)
    requires ElectionInv(c) && Enabled(c, e) && VoteStep(c.history.votes, c.nodes[e.node], o)
    ensures var c' := After(c, e, o);
            && (forall v | v in c'.history.votes :: VoteStands(c', v))
            && OneVotePerTerm(c'.history.votes)
            && c.history.votes <= c'.history.votes
  {
    var c' := After(c, e, o);
    assert NodeOk(c, e.node);
    forall v | v in c'.history.votes ensures VoteStands(c', v) {
      if v in c.history.votes {
        assert VoteStands(c, v);
      }
    }
  }

  lemma WellFormedAfter(c: Cluster, e: Event, o: Outcome)
    requires ElectionInv(c) && Enabled(c, e) && VoteStep(c.history.votes, c.nodes[e.node], o)
    ensures WellFormed(After(c, e, o))
    ensures forall m | m in After(c, e, o).network :: GrantRecorded(After(c, e, o).history.votes, m)
  {
    var c' := After(c, e, o);
    assert NodeOk(c, e.node);
    forall i | i in c'.nodes ensures NodeOk(c', i) {
      assert NodeOk(c, i);
    }
    forall m | m in c'.network
      ensures m.from in c'.nodes && AddressOk(m) && GrantRecorded(c'.history.votes, m)
    {
      if m !in c.network {
        var a :| a in o.actions && !a.ApplyEntry? && m == ToEnvelope(e.node, a, Answered(e.input));
        assert SentOk(o.node, a);
      } else {
        assert GrantRecorded(c.history.votes, m);
      }
    }
  }

  lemma TalliesAfter(c: Cluster, e: Event, o: Outcome)
    requires ElectionInv(c) && Enabled(c, e) && VoteStep(c.history.votes, c.nodes[e.node], o)
    ensures var c' := After(c, e, o); forall i | i in c'.nodes :: TallyOk(c', i)
  {
    var c' := After(c, e, o);
    assert NodeOk(c, e.node) && TallyOk(c, e.node);
    forall i | i in c'.nodes ensures TallyOk(c', i) {
      assert TallyOk(c, i);
    }
  }

  lemma TenuresAfter(c: Cluster, e: Event, o: Outcome)
    requires ElectionInv(c) && Enabled(c, e) && VoteStep(c.history.votes, c.nodes[e.node], o)
    requires TallyOk(After(c, e, o), e.node)
    ensures var c' := After(c, e, o); forall t | t in c'.history.electors :: TenureOk(c', t)
  {
    var c' := After(c, e, o);
    assert NodeOk(c, e.node);
    forall t | t in c'.history.electors ensures TenureOk(c', t) {
      if t in c.history.electors {
        assert TenureOk(c, t);
      }
    }
  }

  lemma ElectionInvStep(c: Cluster, e: Event)
    requires ElectionInv(c) && AllDurable(c)
    ensures ElectionInv(Step(c, e))
  {
    if Enabled(c, e) {
      var o := NodeStep(c.nodes[e.node], e.input);
      NodeStepVoteStep(c, e);
      VotesAfter(c, e, o);
      WellFormedAfter(c, e, o);
      TalliesAfter(c, e, o);
      TenuresAfter(c, e, o);
    }
  }

  lemma ElectionInvInitial(peers: seq<NodeId>)
    ensures ElectionInv(Initial(peers)) && AllDurable(Initial(peers))
  {
    var c := Initial(peers);
    assert c.nodes.Keys == Members(peers);
    forall i | i in c.nodes ensures NodeOk(c, i) && TallyOk(c, i) {
    }
  }

  lemma {:induction false} ElectionInvRun(c: Cluster, events: seq<Event>)
    requires ElectionInv(c) && AllDurable(c)
    ensures ElectionInv(Exec(c, events))
    decreases |events|
  {
    if events != [] {
      ElectionInvStep(c, events[0]);
      RunKeepsDurable(c, [events[0]]);
      assert Exec(c, [events[0]]) == Step(c, events[0]);
      ElectionInvRun(Step(c, events[0]), events[1..]);
    }
  }

  /** Election Safety, for every run from the initial state: no term ever has two leaders. */
  lemma ElectionSafetyTheorem(peers: seq<NodeId>, events: seq<Event>)
    ensures OneLeaderPerTerm(Exec(Initial(peers), events))
  {
    ElectionInvInitial(peers);
    ElectionInvRun(Initial(peers), events);
    ElectionInvGivesOneLeader(Exec(Initial(peers), events));
  }

  /** No node ever votes for two candidates in one term, restarts included. */
  lemma VoteOnceTheorem(peers: seq<NodeId>, events: seq<Event>)
    ensures OneVotePerTerm(Exec(Initial(peers), events).history.votes)
  {
    ElectionInvInitial(peers);
    ElectionInvRun(Initial(peers), events);
  }
}
