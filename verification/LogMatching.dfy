/** Log Matching: over every run, logs and in-flight slices that hold an entry with the same
    index and term agree on every earlier index. */
module LogMatching {
  import opened RaftTypes
  import opened RaftLogs
  import opened RaftSpec
  import opened RaftCluster
  import opened RaftFacts
  import opened Persistence
  import opened ElectionSafety

  type LeaderLogs = map<nat, Log>

  /** The entry at k was made by the leader of its term, which held the same log up to k, and
      no earlier entry has a later term. */
  ghost predicate EntryOk(leaders: LeaderLogs, log: Log, k: nat)
    requires k < |log|
  {
    && log[k].term >= 1 && log[k].term in leaders && AgreeUpTo(log, leaders[log[k].term], k)
    && (forall j | 0 <= j <= k :: log[j].term <= log[k].term)
  }

  ghost predicate LogOk(leaders: LeaderLogs, log: Log) {
    log[0] == SENTINEL && forall k | 1 <= k < |log| :: EntryOk(leaders, log, k)
  }

  predicate Ascending(log: Log) {
    forall j, k | 0 <= j <= k < |log| :: log[j].term <= log[k].term
  }

  lemma LogOkAscending(leaders: LeaderLogs, log: Log)
    requires LogOk(leaders, log)
    ensures Ascending(log)
  {
    forall j, k | 0 <= j <= k < |log| ensures log[j].term <= log[k].term {
      if k > 0 {
        assert EntryOk(leaders, log, k);
      }
    }
  }

  ghost predicate Grown(a: LeaderLogs, b: LeaderLogs) {
    forall t | t in a :: t in b && AgreeUpTo(a[t], b[t], LastIndex(a[t]))
  }

  lemma LogOkGrows(a: LeaderLogs, b: LeaderLogs, log: Log)
    requires LogOk(a, log) && Grown(a, b)
    ensures LogOk(b, log)
  {
    forall k | 1 <= k < |log| ensures EntryOk(b, log, k) {
      assert EntryOk(a, log, k);
    }
  }

  lemma LogOkPrefix(leaders: LeaderLogs, log: Log, n: nat)
    requires LogOk(leaders, log) && 1 <= n <= |log|
    ensures LogOk(leaders, log[..n]) && LastTerm(log[..n]) <= LastTerm(log)
  {
    forall k | 1 <= k < n ensures EntryOk(leaders, log[..n], k) {
      assert EntryOk(leaders, log, k);
    }
    if |log| > 1 {
      assert EntryOk(leaders, log, LastIndex(log));
    }
  }

  /** Logs made of leaders' entries satisfy the Log Matching Property pairwise. */
  lemma LogsMatch(leaders: LeaderLogs, a: Log, b: Log)
    requires LogOk(leaders, a) && LogOk(leaders, b)
    ensures Matching(a, b)
  {
    forall k | 0 <= k < |a| && k < |b| && a[k].term == b[k].term ensures AgreeUpTo(a, b, k) {
      if k > 0 {
        assert EntryOk(leaders, a, k) && EntryOk(leaders, b, k);
      }
    }
  }

  // ---- The invariant ----

  ghost predicate NodeLogOk(c: Cluster, i: NodeId)
    requires i in c.nodes
  {
    StateLogOk(c.history.leaderLog, c.nodes[i])
  }

  ghost predicate LeaderLogOk(c: Cluster, t: nat)
    requires t in c.history.leaderLog
  {
    var log := c.history.leaderLog[t];
    && t >= 1 && LogOk(c.history.leaderLog, log) && LastTerm(log) <= t
    && exists n: NodeId :: Tenure(t, n) in c.history.electors
  }

  ghost predicate SliceOk(c: Cluster, e: Envelope) {
    e.body.AppendEntries? ==>
      var r := e.body.appendRequest;
      && Tenure(r.term, e.from) in c.history.electors
      && r.term in c.history.leaderLog
      && (Covers(c.history.leaderLog[r.term], r) || PastEnd(r))
  }

  ghost predicate LogInv(c: Cluster) {
    && (forall i | i in c.nodes :: NodeLogOk(c, i))
    && (forall t | t in c.history.leaderLog :: LeaderLogOk(c, t))
    && (forall t | t in c.history.electors :: t.term in c.history.leaderLog)
    && (forall e | e in c.network :: SliceOk(c, e))
  }

  // ---- What one node step may do to the log ----

  datatype LogEffect = Kept | Elected | Extended(entry: LogEntry) | Accepted(request: AppendEntriesRequest)

  ghost predicate PassesCheck(s: NodeState, r: AppendEntriesRequest) {
    r.term >= s.currentTerm && TermAt(s.log, r.prevLogIndex) == r.prevLogTerm
  }

  ghost predicate HasEffect(s: NodeState, s': NodeState, effect: LogEffect) {
    match effect
    case Kept =>
      && s'.log == s.log
      && (s'.role == Leader ==> s.role == Leader && s'.currentTerm == s.currentTerm)
    case Elected =>
      && s'.log == s.log && s'.role == Leader
      && (s'.currentTerm > s.currentTerm || s.role == Candidate)
    case Extended(entry) =>
      && s'.log == s.log + [entry] && entry.term == s.currentTerm
      && s.role == Leader && s'.role == Leader && s'.currentTerm == s.currentTerm
    case Accepted(r) =>
      && PassesCheck(s, r)
      && s'.log == Merged(s.log, r.prevLogIndex + 1, r.entries)
      && s'.role == Follower && s'.currentTerm == r.term
  }

  /** Every AppendEntries sent comes from a leader and covers its log or starts past it. */
  ghost predicate SendsSlices(s': NodeState, actions: seq<Action>) {
    forall a | a in actions && a.SendAppendEntries? ::
      && s'.role == Leader && a.appendRequest.term == s'.currentTerm
      && (Covers(s'.log, a.appendRequest) || PastEnd(a.appendRequest))
  }

  function EffectOf(s: NodeState, input: Input): LogEffect {
    match input
    case Tick => if NodeStep(s, input).node.role == Leader && s.role != Leader then Elected else Kept
    case Propose(command) => if s.role == Leader then Extended(LogEntry(s.currentTerm, command)) else Kept
    case Restart => Kept
    case Deliver(envelope) =>
      match envelope.body
      case VoteResponse(_) => if NodeStep(s, input).node.role == Leader && s.role != Leader then Elected else Kept
      case AppendEntries(r) =>
        if r.term >= s.currentTerm && TermAt(s.log, r.prevLogIndex) == r.prevLogTerm then Accepted(r) else Kept
      case _ => Kept
  }

  lemma WinSends(s: NodeState)
    ensures SendsSlices(WinElection(s).node, WinElection(s).actions)
  {
    TrackingAtLeastOne(s.peers, s.id, LastIndex(s.log) + 1);
    var s1 := WinElection(s).node;
    ReplicationFacts(s1, s1.peers);
  }

  lemma TickEffect(s: NodeState)
    requires AllAtLeastOne(s.nextIndex)
    ensures var o := HandleTick(s); HasEffect(s, o.node, EffectOf(s, Tick)) && SendsSlices(o.node, o.actions)
  {
    if s.role == Leader {
      var s1 := s.(timers := s.timers.(heartbeat := HEARTBEAT_INTERVAL));
      ReplicationFacts(s1, s1.peers);
    } else {
      var s0 := s.(timers := s.timers.(election := CountDown(s.timers.election)));
      var s1 := Persist(ResetElectionTimeout(BecomeCandidate(s0).(votesReceived := {s.id})));
      WinSends(s1);
      VoteRequestFacts(s1, s1.peers);
    }
  }

  lemma ProposeEffect(s: NodeState, command: LogCommand)
    requires AllAtLeastOne(s.nextIndex) && s.role == Leader
    ensures var o := HandlePropose(s, command).value;
            HasEffect(s, o.node, EffectOf(s, Propose(command))) && SendsSlices(o.node, o.actions)
  {
    var s1 := Appended(s, command);
    ReplicationFacts(s1, s1.peers);
    AdvanceCommitFacts(s1);
  }

  lemma AppendEntriesEffect(s: NodeState, e: Envelope)
    requires e.body.AppendEntries?
    ensures var o := HandleAppendEntries(s, e.body.appendRequest);
            HasEffect(s, o.node, EffectOf(s, Deliver(e))) && SendsSlices(o.node, o.actions)
  {
    var r := e.body.appendRequest;
    if PassesCheck(s, r) {
      var s2 := AcceptEntries(FollowLeader(s, r), r);
      AcceptedLogIsMerged(FollowLeader(s, r), r);
      FollowCommitFacts(s2, r.leaderCommit);
      AcceptedEffect(s, s2, HandleAppendEntries(s, r), r);
    } else {
      RejectedEffect(s, r);
    }
  }

  lemma AcceptedEffect(s: NodeState, s2: NodeState, o: Outcome, r: AppendEntriesRequest)
    requires PassesCheck(s, r) && s2.log == Merged(s.log, r.prevLogIndex + 1, r.entries)
    requires s2.role == Follower && s2.currentTerm == r.term
    requires o.node == FollowCommit(s2, r.leaderCommit).node
    requires o.actions == FollowCommit(s2, r.leaderCommit).actions
                          + [SendAppendEntriesResponse(r.leaderId,
                               AppendEntriesResponse(s2.currentTerm, true, Some(LastIndex(s2.log))))]
    requires forall a | a in FollowCommit(s2, r.leaderCommit).actions :: a.ApplyEntry?
    ensures HasEffect(s, o.node, Accepted(r)) && SendsSlices(o.node, o.actions)
  {
  }

  lemma RejectedEffect(s: NodeState, r: AppendEntriesRequest)
    requires !PassesCheck(s, r)
    ensures var o := HandleAppendEntries(s, r); HasEffect(s, o.node, Kept) && SendsSlices(o.node, o.actions)
  {
  }

  lemma DeliverEffect(s: NodeState, e: Envelope)
    ensures var o := Receive(s, e);
            HasEffect(s, o.node, EffectOf(s, Deliver(e))) && SendsSlices(o.node, o.actions)
  {
    match e.body
    case RequestVote(r) =>
    case VoteResponse(r) =>
      if s.role == Candidate && r.term == s.currentTerm {
        WinSends(if r.voteGranted then s.(votesReceived := s.votesReceived + {e.from}) else s);
      }
    case AppendEntries(r) => AppendEntriesEffect(s, e);
    case AppendResponse(r) =>
      if s.role == Leader && r.term <= s.currentTerm && r.success {
        AdvanceCommitFacts(match r.matchIndex
                           case None => s
                           case Some(m) => s.(matchIndex := SetFirst(s.matchIndex, e.from, m),
                                              nextIndex := SetFirst(s.nextIndex, e.from, m + 1)));
      }
  }

  lemma NodeStepEffect(s: NodeState, input: Input)
    requires AllAtLeastOne(s.nextIndex) && Durable(s)
    ensures var o := NodeStep(s, input); HasEffect(s, o.node, EffectOf(s, input)) && SendsSlices(o.node, o.actions)
  {
    match input
    case Tick => TickEffect(s);
    case Propose(command) =>
      if s.role == Leader {
        ProposeEffect(s, command);
      }
    case Restart =>
    case Deliver(envelope) => DeliverEffect(s, envelope);
  }

  // ---- Leader logs and changed logs, on values ----

  function ObserveLeader(leaders: LeaderLogs, s: NodeState): LeaderLogs {
    if s.role == Leader then leaders[s.currentTerm := s.log] else leaders
  }

  ghost predicate StateLogOk(leaders: LeaderLogs, s: NodeState) {
    && LogOk(leaders, s.log)
    && LastTerm(s.log) <= s.currentTerm
    && (s.role == Candidate ==> s.currentTerm >= 1)
    && (s.role == Leader ==>
          s.currentTerm >= 1 && s.currentTerm in leaders && s.log == leaders[s.currentTerm])
  }

  ghost predicate RequestOk(leaders: LeaderLogs, r: AppendEntriesRequest) {
    && r.term in leaders
    && LogOk(leaders, leaders[r.term]) && LastTerm(leaders[r.term]) <= r.term
    && (Covers(leaders[r.term], r) || PastEnd(r))
  }

  /** A step of one node on its log, where an election opens a new term. */
  ghost predicate LogStep(leaders: LeaderLogs, s: NodeState, s': NodeState, effect: LogEffect) {
    && StateLogOk(leaders, s)
    && HasEffect(s, s', effect)
    && s.currentTerm <= s'.currentTerm
    && (effect.Elected? ==> s'.currentTerm !in leaders && s'.currentTerm >= 1)
    && (effect.Accepted? ==> RequestOk(leaders, effect.request))
  }

  lemma LeaderLogsGrow(leaders: LeaderLogs, s: NodeState, s': NodeState, effect: LogEffect)
    requires LogStep(leaders, s, s', effect)
    ensures Grown(leaders, ObserveLeader(leaders, s'))
    ensures effect.Kept? || effect.Accepted? ==> ObserveLeader(leaders, s') == leaders
  {
  }

  /** A follower whose log passes the check has the previous entry, and matches the leader's log. */
  lemma CheckMeansAgreement(leaders: LeaderLogs, s: NodeState, r: AppendEntriesRequest)
    requires RequestOk(leaders, r) && LogOk(leaders, s.log)
    requires PassesCheck(s, r) && Covers(leaders[r.term], r)
    ensures r.prevLogIndex < |s.log|
    ensures Matching(s.log, leaders[r.term])
    ensures s.log[r.prevLogIndex].term == leaders[r.term][r.prevLogIndex].term
  {
    if r.prevLogIndex > 0 {
      assert EntryOk(leaders, leaders[r.term], r.prevLogIndex);
    }
    LogsMatch(leaders, s.log, leaders[r.term]);
  }

  /** The log a follower ends with after accepting a request that covers the leader's log. */
  lemma AcceptedShape(leaders: LeaderLogs, s: NodeState, r: AppendEntriesRequest)
    requires RequestOk(leaders, r) && LogOk(leaders, s.log)
    requires PassesCheck(s, r) && Covers(leaders[r.term], r)
    ensures var log' := Merged(s.log, r.prevLogIndex + 1, r.entries);
            && AgreeUpTo(log', leaders[r.term], r.prevLogIndex + |r.entries|)
            && (log' == s.log || log' == leaders[r.term][..r.prevLogIndex + |r.entries| + 1])
  {
    CheckMeansAgreement(leaders, s, r);
    MergedFollowsLeader(s.log, leaders[r.term], r.prevLogIndex, r.entries);
  }

  lemma AcceptedLogOk(leaders: LeaderLogs, s: NodeState, r: AppendEntriesRequest)
    requires RequestOk(leaders, r) && LogOk(leaders, s.log) && LastTerm(s.log) <= s.currentTerm
    requires PassesCheck(s, r)
    ensures LogOk(leaders, Merged(s.log, r.prevLogIndex + 1, r.entries))
    ensures LastTerm(Merged(s.log, r.prevLogIndex + 1, r.entries)) <= r.term
  {
    var lead := leaders[r.term];
    if Covers(lead, r) {
      AcceptedShape(leaders, s, r);
      LogOkPrefix(leaders, lead, r.prevLogIndex + |r.entries| + 1);
    }
  }

  lemma ExtendedLogOk(a: LeaderLogs, b: LeaderLogs, log: Log, entry: LogEntry)
    requires LogOk(a, log) && Grown(a, b)
    requires entry.term >= 1 && LastTerm(log) <= entry.term
    requires entry.term in b && b[entry.term] == log + [entry]
    ensures LogOk(b, log + [entry])
  {
    LogOkGrows(a, b, log);
    if |log| > 1 {
      assert EntryOk(b, log, LastIndex(log));
    }
    forall k | 1 <= k < |log| + 1 ensures EntryOk(b, log + [entry], k) {
      if k < |log| {
        assert EntryOk(b, log, k);
      }
    }
  }

  lemma ChangedLogOk(leaders: LeaderLogs, s: NodeState, s': NodeState, effect: LogEffect)
    requires LogStep(leaders, s, s', effect)
    ensures LogOk(ObserveLeader(leaders, s'), s'.log)
    ensures LastTerm(s'.log) <= s'.currentTerm
  {
    LeaderLogsGrow(leaders, s, s', effect);
    match effect
    case Kept => LogOkGrows(leaders, ObserveLeader(leaders, s'), s.log);
    case Elected => LogOkGrows(leaders, ObserveLeader(leaders, s'), s.log);
    case Extended(entry) => ExtendedLogOk(leaders, ObserveLeader(leaders, s'), s.log, entry);
    case Accepted(r) => AcceptedLogOk(leaders, s, r);
  }

  // ---- The invariant over a step ----

  lemma LedByWinnerOnly(c: Cluster, e: Event, o: Outcome, n: NodeId)
    requires Enabled(c, e) && ElectionInv(After(c, e, o)) && o.node.id == e.node && o.node.role == Leader
    requires Tenure(o.node.currentTerm, n) in c.history.electors
    ensures n == e.node
  {
    ElectionInvGivesOneLeader(After(c, e, o));
    assert Tenure(o.node.currentTerm, n) in After(c, e, o).history.electors;
    assert Tenure(o.node.currentTerm, e.node) in After(c, e, o).history.electors;
  }

  /** A term in which a node becomes leader had no leader before. */
  lemma ElectedTermIsNew(c: Cluster, e: Event, o: Outcome)
    requires ElectionInv(c) && LogInv(c) && Enabled(c, e) && ElectionInv(After(c, e, o))
    requires o.node.id == e.node && HasEffect(c.nodes[e.node], o.node, Elected)
    requires c.nodes[e.node].currentTerm <= o.node.currentTerm
    ensures o.node.currentTerm !in c.history.leaderLog
  {
    var t := o.node.currentTerm;
    if t in c.history.leaderLog {
      assert LeaderLogOk(c, t);
      var n :| Tenure(t, n) in c.history.electors;
      assert TenureOk(c, Tenure(t, n));
      LedByWinnerOnly(c, e, o, n);
      assert false;
    }
  }

  lemma OtherLeaderOtherTerm(c: Cluster, e: Event, o: Outcome, i: NodeId)
    requires Enabled(c, e) && ElectionInv(After(c, e, o))
    requires o.node.id == e.node
    requires i in c.nodes && i != e.node && c.nodes[i].role == Leader && o.node.role == Leader
    ensures c.nodes[i].currentTerm != o.node.currentTerm
  {
    var c' := After(c, e, o);
    ElectionInvGivesOneLeader(c');
    assert TallyOk(c', i) && TallyOk(c', e.node);
  }

  /** Everything known about one step of one node. */
  ghost predicate StepFacts(c: Cluster, e: Event, o: Outcome, effect: LogEffect) {
    && LogInv(c) && Enabled(c, e) && o.node.id == e.node
    && (o.node.role == Candidate ==> o.node.currentTerm >= 1)
    && LogStep(c.history.leaderLog, c.nodes[e.node], o.node, effect)
    && SendsSlices(o.node, o.actions)
    && (forall i | i in c.nodes && i != e.node && c.nodes[i].role == Leader && o.node.role == Leader ::
          c.nodes[i].currentTerm != o.node.currentTerm)
  }

  lemma StepHasFacts(c: Cluster, e: Event)
    requires ElectionInv(c) && AllDurable(c) && LogInv(c) && Enabled(c, e)
    ensures StepFacts(c, e, NodeStep(c.nodes[e.node], e.input), EffectOf(c.nodes[e.node], e.input))
  {
    var s := c.nodes[e.node];
    var o := NodeStep(s, e.input);
    assert NodeOk(c, e.node) && NodeLogOk(c, e.node);
    NodeStepVoteStep(c, e);
    ElectionInvStep(c, e);
    NodeStepEffect(s, e.input);
    FactsFromEffect(c, e, o, EffectOf(s, e.input));
  }

  lemma FactsFromEffect(c: Cluster, e: Event, o: Outcome, effect: LogEffect)
    requires ElectionInv(c) && LogInv(c) && Enabled(c, e) && ElectionInv(After(c, e, o))
    requires VoteStep(c.history.votes, c.nodes[e.node], o)
    requires HasEffect(c.nodes[e.node], o.node, effect) && SendsSlices(o.node, o.actions)
    requires effect.Accepted? ==>
               e.input.Deliver? && e.input.envelope.body == AppendEntries(effect.request)
    ensures StepFacts(c, e, o, effect)
  {
    assert NodeOk(c, e.node) && NodeLogOk(c, e.node);
    EffectIsStep(c, e, o, effect);
    OtherLeadersOtherTerms(c, e, o);
  }

  lemma OtherLeadersOtherTerms(c: Cluster, e: Event, o: Outcome)
    requires Enabled(c, e) && ElectionInv(After(c, e, o)) && o.node.id == e.node
    ensures forall i | i in c.nodes && i != e.node && c.nodes[i].role == Leader && o.node.role == Leader ::
              c.nodes[i].currentTerm != o.node.currentTerm
  {
    forall i | i in c.nodes && i != e.node && c.nodes[i].role == Leader && o.node.role == Leader
      ensures c.nodes[i].currentTerm != o.node.currentTerm
    {
      OtherLeaderOtherTerm(c, e, o, i);
    }
  }

  lemma EffectIsStep(c: Cluster, e: Event, o: Outcome, effect: LogEffect)
    requires ElectionInv(c) && LogInv(c) && Enabled(c, e) && ElectionInv(After(c, e, o))
    requires VoteStep(c.history.votes, c.nodes[e.node], o)
    requires HasEffect(c.nodes[e.node], o.node, effect)
    requires effect.Accepted? ==>
               e.input.Deliver? && e.input.envelope.body == AppendEntries(effect.request)
    ensures LogStep(c.history.leaderLog, c.nodes[e.node], o.node, effect)
  {
    assert NodeOk(c, e.node) && NodeLogOk(c, e.node);
    match effect
    case Elected => ElectedTermIsNew(c, e, o);
    case Accepted(r) => assert SliceOk(c, e.input.envelope) && LeaderLogOk(c, r.term);
    case _ =>
  }

  lemma NodeLogsAfter(c: Cluster, e: Event, o: Outcome, effect: LogEffect)
    requires StepFacts(c, e, o, effect)
    ensures forall i | i in After(c, e, o).nodes :: NodeLogOk(After(c, e, o), i)
  {
    var c' := After(c, e, o);
    var leaders := c.history.leaderLog;
    assert c'.history.leaderLog == ObserveLeader(leaders, o.node);
    ChangedLogOk(leaders, c.nodes[e.node], o.node, effect);
    LeaderLogsGrow(leaders, c.nodes[e.node], o.node, effect);
    OtherLogsAfter(c, c', e.node);
  }

  lemma OtherLogsAfter(c: Cluster, c': Cluster, p: NodeId)
    requires p in c.nodes && p in c'.nodes && c'.nodes == c.nodes[p := c'.nodes[p]]
    requires forall i | i in c.nodes :: NodeLogOk(c, i)
    requires Grown(c.history.leaderLog, c'.history.leaderLog) && NodeLogOk(c', p)
    requires c'.history.leaderLog == ObserveLeader(c.history.leaderLog, c'.nodes[p])
    requires forall i | i in c.nodes && i != p && c.nodes[i].role == Leader && c'.nodes[p].role == Leader ::
               c.nodes[i].currentTerm != c'.nodes[p].currentTerm
    ensures forall i | i in c'.nodes :: NodeLogOk(c', i)
  {
    forall i | i in c'.nodes && i != p ensures NodeLogOk(c', i) {
      assert NodeLogOk(c, i);
      LogOkGrows(c.history.leaderLog, c'.history.leaderLog, c.nodes[i].log);
    }
  }

  lemma LeaderLogsAfter(c: Cluster, e: Event, o: Outcome, effect: LogEffect)
    requires StepFacts(c, e, o, effect)
    ensures var c' := After(c, e, o);
            && (forall t | t in c'.history.leaderLog :: LeaderLogOk(c', t))
            && (forall t | t in c'.history.electors :: t.term in c'.history.leaderLog)
  {
    var c' := After(c, e, o);
    var leaders := c.history.leaderLog;
    assert c'.history.leaderLog == ObserveLeader(leaders, o.node);
    ChangedLogOk(leaders, c.nodes[e.node], o.node, effect);
    LeaderLogsGrow(leaders, c.nodes[e.node], o.node, effect);
    forall t | t in c'.history.leaderLog ensures LeaderLogOk(c', t) {
      if o.node.role == Leader && t == o.node.currentTerm {
        assert Tenure(t, e.node) in c'.history.electors;
      } else {
        assert LeaderLogOk(c, t);
        var n :| Tenure(t, n) in c.history.electors;
        assert Tenure(t, n) in c'.history.electors;
        LogOkGrows(leaders, c'.history.leaderLog, leaders[t]);
      }
    }
  }

  lemma CoversGrows(a: Log, b: Log, r: AppendEntriesRequest)
    requires Covers(a, r) && AgreeUpTo(a, b, LastIndex(a))
    ensures Covers(b, r)
  {
  }

  lemma SlicesAfter(c: Cluster, e: Event, o: Outcome, effect: LogEffect)
    requires StepFacts(c, e, o, effect)
    ensures forall m | m in After(c, e, o).network :: SliceOk(After(c, e, o), m)
  {
    var c' := After(c, e, o);
    assert c'.history.leaderLog == ObserveLeader(c.history.leaderLog, o.node);
    LeaderLogsGrow(c.history.leaderLog, c.nodes[e.node], o.node, effect);
    forall m | m in c'.network && m.body.AppendEntries? ensures SliceOk(c', m) {
      if m in c.network {
        assert SliceOk(c, m);
        var t := m.body.appendRequest.term;
        if Covers(c.history.leaderLog[t], m.body.appendRequest) {
          CoversGrows(c.history.leaderLog[t], c'.history.leaderLog[t], m.body.appendRequest);
        }
      } else {
        var a :| a in o.actions && !a.ApplyEntry? && m == ToEnvelope(e.node, a, Answered(e.input));
        assert Tenure(o.node.currentTerm, e.node) in c'.history.electors;
      }
    }
  }

  ghost predicate BasicInv(c: Cluster) {
    ElectionInv(c) && AllDurable(c) && LogInv(c)
  }

  lemma LogInvAfter(c: Cluster, e: Event, o: Outcome, effect: LogEffect)
    requires StepFacts(c, e, o, effect)
    ensures LogInv(After(c, e, o))
  {
    NodeLogsAfter(c, e, o, effect);
    LeaderLogsAfter(c, e, o, effect);
    SlicesAfter(c, e, o, effect);
  }

  lemma BasicInvStep(c: Cluster, e: Event)
    requires BasicInv(c)
    ensures BasicInv(Step(c, e))
  {
    if Enabled(c, e) {
      ElectionInvStep(c, e);
      StepHasFacts(c, e);
      LogInvAfter(c, e, NodeStep(c.nodes[e.node], e.input), EffectOf(c.nodes[e.node], e.input));
      StepKeepsDurable(c.nodes[e.node], e.input);
    }
  }

  lemma {:induction false} BasicInvRun(c: Cluster, events: seq<Event>)
    requires BasicInv(c)
    ensures BasicInv(Exec(c, events))
    decreases |events|
  {
    if events != [] {
      BasicInvStep(c, events[0]);
      BasicInvRun(Step(c, events[0]), events[1..]);
    }
  }

  lemma BasicInvInitial(peers: seq<NodeId>)
    ensures BasicInv(Initial(peers))
  {
    ElectionInvInitial(peers);
  }

  // ---- The theorem ----

  /** A slice in flight, put at the positions it names, matches a log. */
  ghost predicate SliceMatches(r: AppendEntriesRequest, log: Log) {
    forall j | 0 <= j < |r.entries| && r.prevLogIndex + 1 + j < |log|
               && r.entries[j].term == log[r.prevLogIndex + 1 + j].term ::
      && TermAt(log, r.prevLogIndex) == r.prevLogTerm
      && forall i | 0 <= i <= j :: r.entries[i] == log[r.prevLogIndex + 1 + i]
  }

  ghost predicate LogMatchingHolds(c: Cluster) {
    && (forall i, j | i in c.nodes && j in c.nodes :: Matching(c.nodes[i].log, c.nodes[j].log))
    && (forall i, e | i in c.nodes && e in c.network && e.body.AppendEntries? ::
          SliceMatches(e.body.appendRequest, c.nodes[i].log))
    && (forall i | i in c.nodes :: c.nodes[i].log[0] == SENTINEL && Ascending(c.nodes[i].log))
  }

  lemma SliceMatchesLog(lead: Log, r: AppendEntriesRequest, log: Log)
    requires Matching(log, lead)
    requires Covers(lead, r) || PastEnd(r)
    ensures SliceMatches(r, log)
  {
    forall j | 0 <= j < |r.entries| && r.prevLogIndex + 1 + j < |log|
               && r.entries[j].term == log[r.prevLogIndex + 1 + j].term
      ensures TermAt(log, r.prevLogIndex) == r.prevLogTerm
      ensures forall i | 0 <= i <= j :: r.entries[i] == log[r.prevLogIndex + 1 + i]
    {
      var k := r.prevLogIndex + 1 + j;
      assert lead[k] == r.entries[j];
      assert AgreeUpTo(log, lead, k);
      assert log[r.prevLogIndex] == lead[r.prevLogIndex];
      forall i | 0 <= i <= j ensures r.entries[i] == log[r.prevLogIndex + 1 + i] {
        assert lead[r.prevLogIndex + 1 + i] == r.entries[i];
      }
    }
  }

  /** Log Matching, for every run from the initial state. */
  lemma LogMatchingTheorem(peers: seq<NodeId>, events: seq<Event>)
    ensures LogMatchingHolds(Exec(Initial(peers), events))
  {
    var c := Exec(Initial(peers), events);
    BasicInvInitial(peers);
    BasicInvRun(Initial(peers), events);
    var leaders := c.history.leaderLog;
    forall i, j | i in c.nodes && j in c.nodes ensures Matching(c.nodes[i].log, c.nodes[j].log) {
      assert NodeLogOk(c, i) && NodeLogOk(c, j);
      LogsMatch(leaders, c.nodes[i].log, c.nodes[j].log);
    }
    forall i, e | i in c.nodes && e in c.network && e.body.AppendEntries?
      ensures SliceMatches(e.body.appendRequest, c.nodes[i].log)
    {
      assert NodeLogOk(c, i) && SliceOk(c, e);
      var t := e.body.appendRequest.term;
      assert LeaderLogOk(c, t);
      LogsMatch(leaders, c.nodes[i].log, leaders[t]);
      SliceMatchesLog(leaders[t], e.body.appendRequest, c.nodes[i].log);
    }
    forall i | i in c.nodes ensures c.nodes[i].log[0] == SENTINEL && Ascending(c.nodes[i].log) {
      assert NodeLogOk(c, i);
      LogOkAscending(leaders, c.nodes[i].log);
    }
  }

  /** A delivered request, however old, repeated or reordered: it keeps every index on which the
      follower agrees with that term's leader, and afterwards the log holds the whole slice. */
  ghost predicate AppendIsSafe(lead: Log, s: NodeState, r: AppendEntriesRequest, log': Log) {
    && (forall n: nat | AgreeUpTo(s.log, lead, n) :: AgreeUpTo(log', lead, n))
    && (PassesCheck(s, r) ==> HoldsSlice(log', r))
  }

  /** What an accepted request keeps, ... */
  lemma AcceptedKeepsAll(leaders: LeaderLogs, s: NodeState, r: AppendEntriesRequest, log': Log)
    requires RequestOk(leaders, r) && LogOk(leaders, s.log) && PassesCheck(s, r) && Covers(leaders[r.term], r)
    requires log' == Merged(s.log, r.prevLogIndex + 1, r.entries)
    ensures forall n: nat | AgreeUpTo(s.log, leaders[r.term], n) :: AgreeUpTo(log', leaders[r.term], n)
  {
    CheckMeansAgreement(leaders, s, r);
    forall n: nat | AgreeUpTo(s.log, leaders[r.term], n) ensures AgreeUpTo(log', leaders[r.term], n) {
      MergedKeepsAgreement(s.log, leaders[r.term], r.prevLogIndex, r.entries, n);
    }
  }

  predicate HoldsSlice(log: Log, r: AppendEntriesRequest) {
    forall j | 0 <= j < |r.entries| ::
      r.prevLogIndex + 1 + j < |log| && log[r.prevLogIndex + 1 + j] == r.entries[j]
  }

  /** ... and what it brings. */
  lemma AcceptedHoldsSlice(leaders: LeaderLogs, s: NodeState, r: AppendEntriesRequest, log': Log)
    requires RequestOk(leaders, r) && LogOk(leaders, s.log) && PassesCheck(s, r) && Covers(leaders[r.term], r)
    requires log' == Merged(s.log, r.prevLogIndex + 1, r.entries)
    ensures HoldsSlice(log', r)
  {
    var lead := leaders[r.term];
    AcceptedShape(leaders, s, r);
    forall j | 0 <= j < |r.entries|
      ensures r.prevLogIndex + 1 + j < |log'| && log'[r.prevLogIndex + 1 + j] == r.entries[j]
    {
      assert lead[r.prevLogIndex + 1 + j] == r.entries[j];
    }
  }

  /** For every run and every AppendEntries ever sent in it; a leader's log is the lead of its term. */
  lemma AppendEntriesTheorem(peers: seq<NodeId>, events: seq<Event>, m: Envelope, p: NodeId)
    requires var c := Exec(Initial(peers), events);
             m in c.network && m.body.AppendEntries? && p in c.nodes
    ensures var c := Exec(Initial(peers), events);
            var r := m.body.appendRequest;
            && r.term in c.history.leaderLog
            && AppendIsSafe(c.history.leaderLog[r.term], c.nodes[p], r, HandleAppendEntries(c.nodes[p], r).node.log)
            && (forall l | l in c.nodes && c.nodes[l].role == Leader && c.nodes[l].currentTerm == r.term ::
                  c.nodes[l].log == c.history.leaderLog[r.term])
  {
    var c := Exec(Initial(peers), events);
    var r := m.body.appendRequest;
    BasicInvInitial(peers);
    BasicInvRun(Initial(peers), events);
    assert SliceOk(c, m) && LeaderLogOk(c, r.term) && NodeLogOk(c, p);
    forall l | l in c.nodes && c.nodes[l].role == Leader && c.nodes[l].currentTerm == r.term
      ensures c.nodes[l].log == c.history.leaderLog[r.term]
    {
      assert NodeLogOk(c, l);
    }
    HandledLog(c.nodes[p], r);
    DeliveredIsSafe(c.history.leaderLog, c.nodes[p], r, HandleAppendEntries(c.nodes[p], r).node.log);
  }

  lemma AcceptedLogIsMerged(s: NodeState, r: AppendEntriesRequest)
    ensures AcceptEntries(s, r).log == Merged(s.log, r.prevLogIndex + 1, r.entries)
  {
  }

  lemma HandledLog(s: NodeState, r: AppendEntriesRequest)
    ensures PassesCheck(s, r) ==> HandleAppendEntries(s, r).node.log == Merged(s.log, r.prevLogIndex + 1, r.entries)
    ensures !PassesCheck(s, r) ==> HandleAppendEntries(s, r).node.log == s.log
  {
    AcceptedLogIsMerged(FollowLeader(s, r), r);
  }

  lemma DeliveredIsSafe(leaders: LeaderLogs, s: NodeState, r: AppendEntriesRequest, log': Log)
    requires RequestOk(leaders, r) && LogOk(leaders, s.log)
    requires PassesCheck(s, r) ==> log' == Merged(s.log, r.prevLogIndex + 1, r.entries)
    requires !PassesCheck(s, r) ==> log' == s.log
    ensures AppendIsSafe(leaders[r.term], s, r, log')
  {
    if PassesCheck(s, r) && Covers(leaders[r.term], r) {
      AcceptedKeepsAll(leaders, s, r, log');
      AcceptedHoldsSlice(leaders, s, r, log');
    }
  }
}
