/** What one node step does to replies, match indices, the commit index and applied entries. */
module CommitSteps {
  import opened RaftTypes
  import opened RaftLogs
  import opened RaftSpec
  import opened RaftCluster
  import opened RaftFacts
  import opened Persistence
  import opened LogMatching

  /** Success replies answer accepted requests and report the whole log's last index. */
  ghost predicate RepliesOk(s': NodeState, actions: seq<Action>, effect: LogEffect) {
    && (forall a | a in actions && a.SendAppendEntriesResponse? && a.appendResponse.success ::
          effect.Accepted?
          && a.appendResponse == AppendEntriesResponse(s'.currentTerm, true, Some(LastIndex(s'.log))))
    && (effect.Accepted? ==>
          exists a | a in actions :: a.SendAppendEntriesResponse? && a.appendResponse.success)
  }

  ghost predicate MatchUpdated(s: NodeState, s': NodeState, input: Input) {
    && input.Deliver? && input.envelope.body.AppendResponse?
    && input.envelope.body.appendResponse.success
    && input.envelope.body.appendResponse.matchIndex.Some?
    && input.envelope.body.appendResponse.term <= s.currentTerm
    && s'.matchIndex == SetFirst(s.matchIndex, input.envelope.from,
                                 input.envelope.body.appendResponse.matchIndex.value)
  }

  ghost predicate MatchStep(s: NodeState, s': NodeState, input: Input, effect: LogEffect) {
    s'.role == Leader ==>
      if effect.Elected? then s'.matchIndex == Tracking(s.peers, s.id, 0)
      else s'.matchIndex == s.matchIndex || MatchUpdated(s, s', input)
  }

  ghost predicate SameCommit(s: NodeState, s': NodeState) {
    s'.commitIndex == s.commitIndex && s'.lastApplied == s.lastApplied
  }

  /** Both indices move to `target`. */
  ghost predicate CommitMoved(s: NodeState, s': NodeState, target: nat) {
    && s'.commitIndex == target
    && s'.lastApplied == (if s.lastApplied < target then target else s.lastApplied)
  }

  ghost predicate CommitStep(s: NodeState, s': NodeState, input: Input, effect: LogEffect) {
    || SameCommit(s, s')
    || (input.Restart? && s'.commitIndex == 0 && s'.lastApplied == 0)
    || (&& s.role == Leader && s'.role == Leader && !effect.Elected?
        && s.commitIndex < s'.commitIndex <= LastIndex(s'.log)
        && Committable(s', s'.commitIndex) && CommitMoved(s, s', s'.commitIndex))
    || (&& effect.Accepted? && effect.request.leaderCommit > s.commitIndex
        && CommitMoved(s, s', if effect.request.leaderCommit < LastIndex(s'.log)
                              then effect.request.leaderCommit else LastIndex(s'.log)))
  }

  /** Accepting a request that is not past the follower's commit index leaves it alone. */
  ghost predicate FollowsCommit(s: NodeState, s': NodeState, effect: LogEffect) {
    effect.Accepted? && effect.request.leaderCommit <= s.commitIndex ==> SameCommit(s, s')
  }

  /** Applied entries are those after the old last_applied up to the new commit index. */
  ghost predicate AppliesOk(s: NodeState, o: Outcome) {
    forall a | a in o.actions && a.ApplyEntry? ::
      IsApplication(o.node.log, s.lastApplied, o.node.commitIndex, a)
  }

  /** Requests carry a commit index the leader has reached, and reach the end of its log. */
  ghost predicate RequestsOk(o: Outcome) {
    forall a | a in o.actions && a.SendAppendEntries? ::
      && a.appendRequest.leaderCommit <= o.node.commitIndex
      && (|| PastEnd(a.appendRequest)
          || a.appendRequest.prevLogIndex + |a.appendRequest.entries| == LastIndex(o.node.log))
  }

  ghost predicate CommitFacts(s: NodeState, o: Outcome, input: Input, effect: LogEffect) {
    && RepliesOk(o.node, o.actions, effect)
    && MatchStep(s, o.node, input, effect)
    && CommitStep(s, o.node, input, effect)
    && AppliesOk(s, o)
    && RequestsOk(o)
  }

  lemma {:induction false} CommitScanFacts(s: NodeState, hi: nat)
    ensures var n := CommitScan(s, hi);
            && n >= s.commitIndex
            && (n > s.commitIndex ==> n <= hi && Committable(s, n))
            && (forall k | s.commitIndex < k <= hi && Committable(s, k) :: k <= n)
  {
    if hi > s.commitIndex && !Committable(s, hi) {
      CommitScanFacts(s, hi - 1);
    }
  }

  lemma AdvanceFacts(s: NodeState, s1: NodeState, input: Input)
    requires s.role == Leader
    requires s1 == s.(log := s1.log, disk := s1.disk, matchIndex := s1.matchIndex, nextIndex := s1.nextIndex)
    ensures var o := AdvanceCommit(s1);
            && CommitStep(s, o.node, input, Kept) && s1.commitIndex <= o.node.commitIndex
            && o.node.log == s1.log && o.node.matchIndex == s1.matchIndex
            && (forall a | a in o.actions :: IsApplication(s1.log, s.lastApplied, o.node.commitIndex, a))
  {
    CommitScanFacts(s1, LastIndex(s1.log));
    AdvanceCommitFacts(s1);
  }

  lemma WinCommitFacts(s: NodeState)
    ensures RequestsOk(WinElection(s))
    ensures forall a | a in WinElection(s).actions :: a.SendAppendEntries?
  {
    TrackingAtLeastOne(s.peers, s.id, LastIndex(s.log) + 1);
    var s1 := WinElection(s).node;
    ReplicationFacts(s1, s1.peers);
  }

  lemma TickCommitFacts(s: NodeState)
    requires AllAtLeastOne(s.nextIndex)
    ensures CommitFacts(s, HandleTick(s), Tick, EffectOf(s, Tick))
  {
    if s.role == Leader {
      var s1 := s.(timers := s.timers.(heartbeat := HEARTBEAT_INTERVAL));
      ReplicationFacts(s1, s1.peers);
    } else {
      var s0 := s.(timers := s.timers.(election := CountDown(s.timers.election)));
      var s1 := Persist(ResetElectionTimeout(BecomeCandidate(s0).(votesReceived := {s.id})));
      WinCommitFacts(s1);
      VoteRequestFacts(s1, s1.peers);
    }
  }

  lemma ProposeCommitFacts(s: NodeState, command: LogCommand)
    requires AllAtLeastOne(s.nextIndex) && s.role == Leader
    ensures CommitFacts(s, HandlePropose(s, command).value, Propose(command), EffectOf(s, Propose(command)))
  {
    var s1 := Appended(s, command);
    ReplicationFacts(s1, s1.peers);
    AdvanceFacts(s, s1, Propose(command));
  }

  lemma AcceptCommitFacts(s: NodeState, e: Envelope, r: AppendEntriesRequest)
    requires e.body == AppendEntries(r) && PassesCheck(s, r)
    ensures CommitFacts(s, HandleAppendEntries(s, r), Deliver(e), Accepted(r))
    ensures FollowsCommit(s, HandleAppendEntries(s, r).node, Accepted(r))
  {
    var s2 := AcceptEntries(FollowLeader(s, r), r);
    FollowCommitFacts(s2, r.leaderCommit);
    AcceptedOutcome(s, s2, FollowCommit(s2, r.leaderCommit), HandleAppendEntries(s, r), e, r);
  }

  /** The facts of an accepted request, from the state before the commit index moves. */
  lemma AcceptedOutcome(s: NodeState, s2: NodeState, applied: Outcome, o: Outcome, e: Envelope, r: AppendEntriesRequest)
    requires s2.commitIndex == s.commitIndex && s2.lastApplied == s.lastApplied && s2.role == Follower
    requires applied == FollowCommit(s2, r.leaderCommit) && o.node == applied.node
    requires forall a | a in applied.actions :: IsApplication(s2.log, s2.lastApplied, applied.node.commitIndex, a)
    requires o.actions == applied.actions + [SendAppendEntriesResponse(r.leaderId,
                            AppendEntriesResponse(s2.currentTerm, true, Some(LastIndex(s2.log))))]
    ensures CommitFacts(s, o, Deliver(e), Accepted(r)) && FollowsCommit(s, o.node, Accepted(r))
  {
    var reply := o.actions[|o.actions| - 1];
    assert reply.SendAppendEntriesResponse? && reply.appendResponse.success && reply in o.actions;
  }

  lemma AppendResponseCommitFacts(s: NodeState, e: Envelope, r: AppendEntriesResponse)
    requires e.body == AppendResponse(r)
    ensures CommitFacts(s, HandleAppendEntriesResponse(s, e.from, r), Deliver(e), Kept)
  {
    if s.role == Leader && r.term <= s.currentTerm && r.success {
      AdvanceFacts(s, match r.matchIndex
                      case None => s
                      case Some(m) => s.(matchIndex := SetFirst(s.matchIndex, e.from, m),
                                         nextIndex := SetFirst(s.nextIndex, e.from, m + 1)), Deliver(e));
    }
  }

  lemma VoteResponseCommitFacts(s: NodeState, e: Envelope, r: RequestVoteResponse)
    requires e.body == VoteResponse(r)
    ensures CommitFacts(s, Receive(s, e), Deliver(e), EffectOf(s, Deliver(e)))
  {
    if s.role == Candidate && r.term == s.currentTerm {
      WinCommitFacts(if r.voteGranted then s.(votesReceived := s.votesReceived + {e.from}) else s);
    }
  }

  lemma NodeStepCommitFacts(s: NodeState, input: Input)
    requires AllAtLeastOne(s.nextIndex) && Durable(s)
    ensures CommitFacts(s, NodeStep(s, input), input, EffectOf(s, input))
    ensures FollowsCommit(s, NodeStep(s, input).node, EffectOf(s, input))
  {
    match input
    case Tick => TickCommitFacts(s);
    case Propose(command) =>
      if s.role == Leader {
        ProposeCommitFacts(s, command);
      }
    case Restart =>
    case Deliver(e) =>
      match e.body
      case RequestVote(r) =>
      case VoteResponse(r) => VoteResponseCommitFacts(s, e, r);
      case AppendEntries(r) =>
        if PassesCheck(s, r) {
          AcceptCommitFacts(s, e, r);
        }
      case AppendResponse(r) => AppendResponseCommitFacts(s, e, r);
  }
}
