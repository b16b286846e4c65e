/** Leader Completeness and State Machine Safety, over every run in which three kinds of
    delivery do not happen; RaftHazards, StaleHazard and PastEndHazard each show a run that breaks
    safety through one of them. */
module LeaderCompleteness {
  import opened RaftTypes
  import opened RaftLogs
  import opened RaftSpec
  import opened RaftCluster
  import opened RaftFacts
  import opened Quorums
  import opened ElectionSafety
  import opened LogMatching
  import opened Candidacies
  import opened Acknowledgements
  import opened CommitSteps
  import opened KeepInvariant

  // ---- The three hazardous deliveries ----

  /** A success reply reaches a leader and claims an index past all that its sender has
      acknowledged in the leader's term. */
  predicate Unearned(c: Cluster, m: Envelope) {
    && m.body.AppendResponse? && m.body.appendResponse.success
    && m.body.appendResponse.matchIndex.Some?
    && m.to in c.nodes && c.nodes[m.to].role == Leader
    && m.body.appendResponse.matchIndex.value > Ack(c.history, c.nodes[m.to].currentTerm, m.from)
  }

  /** An unearned reply of an earlier term, which the leader counts all the same. */
  predicate StaleSuccess(c: Cluster, m: Envelope) {
    Unearned(c, m) && m.body.appendResponse.term < c.nodes[m.to].currentTerm
  }

  /** A success reply claims an index past what the request it answers covered. */
  predicate PastRequest(m: Envelope) {
    && m.body.AppendResponse? && m.body.appendResponse.success
    && m.body.appendResponse.matchIndex.Some?
    && (m.answers.Some? ==>
          m.body.appendResponse.matchIndex.value > m.answers.value.prevLogIndex + |m.answers.value.entries|)
  }

  /** An unearned reply of the leader's own term, which reports the whole log of its sender and
      so claims more than the request covered. */
  predicate Overclaim(c: Cluster, m: Envelope) {
    Unearned(c, m) && PastRequest(m) && m.body.appendResponse.term == c.nodes[m.to].currentTerm
  }

  /** A request that starts past its sender's log passes the check on a log that also ends before it. */
  predicate PassesPastEnd(c: Cluster, m: Envelope) {
    && m.body.AppendEntries? && PastEnd(m.body.appendRequest)
    && m.to in c.nodes && m.body.appendRequest.term >= c.nodes[m.to].currentTerm
    && TermAt(c.nodes[m.to].log, m.body.appendRequest.prevLogIndex) == 0
  }

  /** Which hazards a run is allowed to contain. */
  datatype Allowed = Allowed(stale: bool, overclaim: bool, pastEnd: bool)

  const NOTHING := Allowed(false, false, false)

  predicate Permitted(c: Cluster, e: Event, allowed: Allowed) {
    Enabled(c, e) && e.input.Deliver? ==>
      && (StaleSuccess(c, e.input.envelope) ==> allowed.stale)
      && (Overclaim(c, e.input.envelope) ==> allowed.overclaim)
      && (PassesPastEnd(c, e.input.envelope) ==> allowed.pastEnd)
  }

  ghost predicate RunPermitted(c: Cluster, events: seq<Event>, allowed: Allowed)
    decreases |events|
  {
    events == [] || (Permitted(c, events[0], allowed) && RunPermitted(Step(c, events[0]), events[1..], allowed))
  }

  // ---- Safe prefixes ----

  /** The log up to index k is part of what a chosen entry of term at most `term` fixes. */
  ghost predicate SafeUpTo(c: Cluster, term: nat, log: seq<LogEntry>, k: nat) {
    k < |log| && (k > 0 ==> exists t: nat, i: nat :: Fixes(c, t, i, term, log, k))
  }

  ghost predicate Fixes(c: Cluster, t: nat, i: nat, term: nat, log: seq<LogEntry>, k: nat) {
    t <= term && k <= i && Chosen(c, t, i) && AgreeUpTo(log, c.history.leaderLog[t], k)
  }

  lemma SafeUpToStays(c: Cluster, c': Cluster, term: nat, term': nat, log: seq<LogEntry>, k: nat)
    requires Grows(c, c') && term <= term' && SafeUpTo(c, term, log, k)
    ensures SafeUpTo(c', term', log, k)
  {
    if k > 0 {
      var t: nat, i: nat :| Fixes(c, t, i, term, log, k);
      ChosenStays(c, c', t, i);
      assert Fixes(c', t, i, term', log, k);
    }
  }

  lemma SafeUpToTransfers(c: Cluster, term: nat, log: seq<LogEntry>, k: nat, log': seq<LogEntry>, k': nat)
    requires SafeUpTo(c, term, log, k) && k' <= k && AgreeUpTo(log', log, k')
    ensures SafeUpTo(c, term, log', k')
  {
    if k' > 0 {
      var t: nat, i: nat :| Fixes(c, t, i, term, log, k);
      assert Fixes(c, t, i, term, log', k');
    }
  }

  /** Two safe prefixes agree on every index both cover. */
  lemma SafePrefixesAgree(c: Cluster, a: seq<LogEntry>, ta: nat, ka: nat, b: seq<LogEntry>, tb: nat, kb: nat, k: nat)
    requires KeepInv(c) && SafeUpTo(c, ta, a, ka) && SafeUpTo(c, tb, b, kb)
    requires 0 < k <= ka && k <= kb
    ensures a[k] == b[k]
  {
    var t: nat, i: nat :| Fixes(c, t, i, ta, a, ka);
    var u: nat, j: nat :| Fixes(c, u, j, tb, b, kb);
    if t <= u {
      ChosenInLaterLeaders(c, t, i, u);
    } else {
      ChosenInLaterLeaders(c, u, j, t);
    }
  }

  // ---- Counting match indices ----

  predicate DistinctIds(pairs: seq<(NodeId, nat)>) {
    forall i, j | 0 <= i < j < |pairs| :: pairs[i].0 != pairs[j].0
  }

  ghost predicate TracksPeers(pairs: seq<(NodeId, nat)>, peers: seq<NodeId>, self: NodeId) {
    DistinctIds(pairs) && forall k | 0 <= k < |pairs| :: pairs[k].0 in peers && pairs[k].0 != self
  }

  function CountedIds(pairs: seq<(NodeId, nat)>, index: nat): set<NodeId> {
    if pairs == [] then {}
    else (if pairs[0].1 >= index then {pairs[0].0} else {}) + CountedIds(pairs[1..], index)
  }

  lemma {:induction false} CountedIdIsPair(pairs: seq<(NodeId, nat)>, index: nat, id: NodeId) returns (k: nat)
    requires id in CountedIds(pairs, index)
    ensures k < |pairs| && pairs[k].0 == id && pairs[k].1 >= index
  {
    if pairs[0].1 >= index && pairs[0].0 == id {
      k := 0;
    } else {
      k := CountedIdIsPair(pairs[1..], index, id);
      k := k + 1;
    }
  }

  lemma {:induction false} CountIsSize(pairs: seq<(NodeId, nat)>, index: nat)
    requires DistinctIds(pairs)
    ensures |CountedIds(pairs, index)| == CountAtLeast(pairs, index)
  {
    if pairs != [] {
      CountIsSize(pairs[1..], index);
      if pairs[0].0 in CountedIds(pairs[1..], index) {
        var k := CountedIdIsPair(pairs[1..], index, pairs[0].0);
        assert false;
      }
    }
  }

  /** The nodes a leader counts for an index, itself included, are a quorum when it may commit it. */
  lemma CountedQuorum(s: NodeState, index: nat)
    requires TracksPeers(s.matchIndex, s.peers, s.id) && s.id in s.peers
    requires Committable(s, index)
    ensures Quorum(s.peers, CountedIds(s.matchIndex, index) + {s.id})
  {
    CountIsSize(s.matchIndex, index);
    forall x | x in CountedIds(s.matchIndex, index) ensures x in s.peers && x != s.id {
      var k := CountedIdIsPair(s.matchIndex, index, x);
    }
  }

  /** ... and so meet every quorum of voters. */
  lemma CountedMeetsVoters(s: NodeState, index: nat, voters: set<NodeId>) returns (p: NodeId)
    requires TracksPeers(s.matchIndex, s.peers, s.id) && s.id in s.peers
    requires Committable(s, index) && Quorum(s.peers, voters)
    ensures p in voters
    ensures p == s.id || exists k | 0 <= k < |s.matchIndex| :: s.matchIndex[k].0 == p && s.matchIndex[k].1 >= index
  {
    CountedQuorum(s, index);
    p := QuorumsIntersect(s.peers, CountedIds(s.matchIndex, index) + {s.id}, voters);
    if p != s.id {
      var k := CountedIdIsPair(s.matchIndex, index, p);
    }
  }

  lemma {:induction false} TrackingPair(peers: seq<NodeId>, self: NodeId, value: nat, k: nat)
    requires k < |Tracking(peers, self, value)|
    ensures var pair := Tracking(peers, self, value)[k]; pair.0 in peers && pair.0 != self && pair.1 == value
  {
    if peers[0] == self {
      TrackingPair(peers[1..], self, value, k);
    } else if k > 0 {
      TrackingPair(peers[1..], self, value, k - 1);
    }
  }

  lemma {:induction false} TrackingDistinct(peers: seq<NodeId>, self: NodeId, value: nat)
    requires NoDuplicates(peers)
    ensures DistinctIds(Tracking(peers, self, value))
  {
    if peers != [] {
      TrackingDistinct(peers[1..], self, value);
      var rest := Tracking(peers[1..], self, value);
      forall k | 0 <= k < |rest| ensures rest[k].0 != peers[0] {
        TrackingPair(peers[1..], self, value, k);
      }
    }
  }

  lemma TrackingTracks(peers: seq<NodeId>, self: NodeId, value: nat)
    requires NoDuplicates(peers)
    ensures TracksPeers(Tracking(peers, self, value), peers, self)
    ensures forall k | 0 <= k < |Tracking(peers, self, value)| :: Tracking(peers, self, value)[k].1 == value
  {
    var pairs := Tracking(peers, self, value);
    TrackingDistinct(peers, self, value);
    forall k | 0 <= k < |pairs| ensures pairs[k].0 in peers && pairs[k].0 != self && pairs[k].1 == value {
      TrackingPair(peers, self, value, k);
    }
  }

  lemma {:induction false} SetFirstTracks(pairs: seq<(NodeId, nat)>, id: NodeId, value: nat)
    ensures |SetFirst(pairs, id, value)| == |pairs|
    ensures forall k | 0 <= k < |pairs| ::
              && SetFirst(pairs, id, value)[k].0 == pairs[k].0
              && (SetFirst(pairs, id, value)[k] == pairs[k] || SetFirst(pairs, id, value)[k] == (id, value))
  {
    if pairs != [] && pairs[0].0 != id {
      SetFirstTracks(pairs[1..], id, value);
    }
  }

  // ---- The commit invariant ----

  ghost predicate CommitOk(c: Cluster, p: NodeId)
    requires p in c.nodes
  {
    var s := c.nodes[p];
    s.lastApplied == s.commitIndex && SafeUpTo(c, s.currentTerm, s.log, s.commitIndex)
  }

  ghost predicate MatchOk(c: Cluster, p: NodeId)
    requires p in c.nodes
  {
    var s := c.nodes[p];
    s.role == Leader ==>
      && TracksPeers(s.matchIndex, c.peers, p)
      && forall k | 0 <= k < |s.matchIndex| :: s.matchIndex[k].1 <= Ack(c.history, s.currentTerm, s.matchIndex[k].0)
  }

  ghost predicate ReplyOk(c: Cluster, m: Envelope) {
    m.body.AppendResponse? && m.body.appendResponse.success && m.body.appendResponse.matchIndex.Some?
    && !PastRequest(m) ==>
      m.body.appendResponse.matchIndex.value <= Ack(c.history, m.body.appendResponse.term, m.from)
  }

  ghost predicate CommitSent(c: Cluster, m: Envelope) {
    m.body.AppendEntries? ==>
      var r := m.body.appendRequest;
      !PastEnd(r) ==>
        && r.term in c.history.leaderLog
        && r.leaderCommit <= r.prevLogIndex + |r.entries|
        && SafeUpTo(c, r.term, c.history.leaderLog[r.term], r.leaderCommit)
  }

  ghost predicate AppliedOk(c: Cluster, a: Applied) {
    exists t: nat, i: nat :: AppliedFrom(c, t, i, a)
  }

  ghost predicate AppliedFrom(c: Cluster, t: nat, i: nat, a: Applied) {
    Chosen(c, t, i) && 0 < a.index <= i && c.history.leaderLog[t][a.index].command == a.command
  }

  ghost predicate RecordOk(c: Cluster, r: CommitRecord) {
    |r.entries| > 0 && r.entries[0] == SENTINEL && SafeUpTo(c, r.term, r.entries, |r.entries| - 1)
  }

  ghost predicate CommitInv(c: Cluster) {
    && NoDuplicates(c.peers)
    && (forall p | p in c.nodes :: CommitOk(c, p) && MatchOk(c, p))
    && (forall m | m in c.network :: ReplyOk(c, m) && CommitSent(c, m))
    && (forall a | a in c.history.applied :: AppliedOk(c, a))
    && (forall r | r in c.history.committed :: RecordOk(c, r))
  }

  // ---- A step: commit indices ----

  /** A leader commits only chosen entries. */
  lemma CommittableIsChosen(c: Cluster, p: NodeId, k: nat)
    requires p in c.nodes && c.nodes[p].id == p && c.nodes[p].peers == c.peers && p in c.peers
    requires c.nodes[p].role == Leader && MatchOk(c, p) && LeaderAcks(c, p)
    requires c.nodes[p].currentTerm in c.history.leaderLog
    requires c.nodes[p].log == c.history.leaderLog[c.nodes[p].currentTerm]
    requires 0 < k <= LastIndex(c.nodes[p].log) && Committable(c.nodes[p], k)
    ensures Chosen(c, c.nodes[p].currentTerm, k)
  {
    var s := c.nodes[p];
    CountedQuorum(s, k);
    var q := CountedIds(s.matchIndex, k) + {p};
    forall x | x in q ensures Ack(c.history, s.currentTerm, x) >= k {
      if x != p {
        var j := CountedIdIsPair(s.matchIndex, k, x);
      }
    }
    assert AckedBy(c, q, s.currentTerm, k);
  }

  lemma LeaderCommitSafe(c: Cluster, p: NodeId)
    requires p in c.nodes && c.nodes[p].id == p && c.nodes[p].peers == c.peers && p in c.peers
    requires c.nodes[p].role == Leader && MatchOk(c, p) && LeaderAcks(c, p)
    requires c.nodes[p].currentTerm in c.history.leaderLog
    requires c.nodes[p].log == c.history.leaderLog[c.nodes[p].currentTerm]
    requires c.nodes[p].commitIndex <= LastIndex(c.nodes[p].log)
    requires Committable(c.nodes[p], c.nodes[p].commitIndex)
    ensures SafeUpTo(c, c.nodes[p].currentTerm, c.nodes[p].log, c.nodes[p].commitIndex)
  {
    var s := c.nodes[p];
    if s.commitIndex > 0 {
      CommittableIsChosen(c, p, s.commitIndex);
      assert Fixes(c, s.currentTerm, s.commitIndex, s.currentTerm, s.log, s.commitIndex);
    }
  }

  /** Accepting a request leaves the committed prefix in place. */
  lemma AcceptedKeepsCommit(c: Cluster, p: NodeId, r: AppendEntriesRequest)
    requires KeepInv(c) && p in c.nodes && CommitOk(c, p)
    requires LogOk(c.history.leaderLog, c.nodes[p].log)
    requires RequestOk(c.history.leaderLog, r) && PassesCheck(c.nodes[p], r)
    requires Covers(c.history.leaderLog[r.term], r)
    ensures SafeUpTo(c, r.term, Merged(c.nodes[p].log, r.prevLogIndex + 1, r.entries), c.nodes[p].commitIndex)
  {
    var s := c.nodes[p];
    var k := s.commitIndex;
    if k > 0 {
      var t: nat, i: nat :| Fixes(c, t, i, s.currentTerm, s.log, k);
      ChosenInLaterLeaders(c, t, i, r.term);
      MergedKeepsFixed(c.history.leaderLog, s, r, c.history.leaderLog[t], i, k);
      assert Fixes(c, t, i, r.term, Merged(s.log, r.prevLogIndex + 1, r.entries), k);
    }
  }

  /** A prefix that agrees with an earlier leader's log, of which the later leader has more. */
  lemma MergedKeepsFixed(leaders: LeaderLogs, s: NodeState, r: AppendEntriesRequest, earlier: Log, i: nat, k: nat)
    requires RequestOk(leaders, r) && LogOk(leaders, s.log) && PassesCheck(s, r) && Covers(leaders[r.term], r)
    requires k <= i && AgreeUpTo(leaders[r.term], earlier, i) && AgreeUpTo(s.log, earlier, k)
    ensures AgreeUpTo(Merged(s.log, r.prevLogIndex + 1, r.entries), earlier, k)
  {
    CheckMeansAgreement(leaders, s, r);
    MergedKeepsAgreement(s.log, leaders[r.term], r.prevLogIndex, r.entries, k);
  }

  /** The commit index a follower takes over is the leader's, and it is safe on its log. */
  lemma FollowerCommitSafe(c: Cluster, p: NodeId, r: AppendEntriesRequest, m: Envelope)
    requires p in c.nodes && m.body == AppendEntries(r) && CommitSent(c, m) && !PastEnd(r)
    requires LogOk(c.history.leaderLog, c.nodes[p].log)
    requires RequestOk(c.history.leaderLog, r) && PassesCheck(c.nodes[p], r)
    requires Covers(c.history.leaderLog[r.term], r)
    ensures var log' := Merged(c.nodes[p].log, r.prevLogIndex + 1, r.entries);
            r.leaderCommit <= LastIndex(log') && SafeUpTo(c, r.term, log', r.leaderCommit)
  {
    AcceptedShape(c.history.leaderLog, c.nodes[p], r);
    SafeUpToTransfers(c, r.term, c.history.leaderLog[r.term], r.leaderCommit,
                      Merged(c.nodes[p].log, r.prevLogIndex + 1, r.entries), r.leaderCommit);
  }

  /** Match indices of a leader stay at or below what each peer has acknowledged in its term. */
  lemma MatchOkAfter(c: Cluster, c': Cluster, p: NodeId, input: Input, effect: LogEffect)
    requires Grows(c, c') && NoDuplicates(c.peers) && p in c.nodes && MatchOk(c, p)
    requires c.nodes[p].id == p && c.nodes[p].peers == c.peers
    requires MatchStep(c.nodes[p], c'.nodes[p], input, effect)
    requires c'.nodes[p].role == Leader && !effect.Elected? ==>
               c.nodes[p].role == Leader && c'.nodes[p].currentTerm == c.nodes[p].currentTerm
    requires input.Deliver? ==>
               && input.envelope.to == p && ReplyOk(c, input.envelope)
               && !Overclaim(c, input.envelope) && !StaleSuccess(c, input.envelope)
    ensures MatchOk(c', p)
  {
    var s := c.nodes[p];
    if c'.nodes[p].role == Leader {
      TrackingTracks(c.peers, p, 0);
      if !effect.Elected? && MatchUpdated(s, c'.nodes[p], input) {
        var m := input.envelope;
        SetFirstTracks(s.matchIndex, m.from, m.body.appendResponse.matchIndex.value);
        assert !Unearned(c, m);
      }
    }
  }

  /** A follower's new commit index is safe when both its old one and the leader's are. */
  lemma FollowedCommitOk(c: Cluster, c': Cluster, p: NodeId, r: AppendEntriesRequest, input: Input)
    requires Grows(c, c') && p in c.nodes && !input.Restart?
    requires c.nodes[p].lastApplied == c.nodes[p].commitIndex && c'.nodes[p].currentTerm == r.term
    requires CommitStep(c.nodes[p], c'.nodes[p], input, Accepted(r)) && c'.nodes[p].role == Follower
    requires FollowsCommit(c.nodes[p], c'.nodes[p], Accepted(r))
    requires SafeUpTo(c, r.term, c'.nodes[p].log, r.leaderCommit)
    requires SafeUpTo(c, r.term, c'.nodes[p].log, c.nodes[p].commitIndex)
    ensures CommitOk(c', p) && c'.nodes[p].commitIndex >= c.nodes[p].commitIndex
  {
    SafeUpToStays(c, c', r.term, r.term, c'.nodes[p].log, r.leaderCommit);
    SafeUpToStays(c, c', r.term, r.term, c'.nodes[p].log, c.nodes[p].commitIndex);
  }

  lemma AcceptedCommitOk(c: Cluster, c': Cluster, p: NodeId, r: AppendEntriesRequest, m: Envelope, input: Input)
    requires KeepInv(c) && Grows(c, c') && p in c.nodes && CommitOk(c, p) && !input.Restart?
    requires m.body == AppendEntries(r) && CommitSent(c, m) && !PastEnd(r)
    requires LogOk(c.history.leaderLog, c.nodes[p].log)
    requires RequestOk(c.history.leaderLog, r) && Covers(c.history.leaderLog[r.term], r)
    requires PassesCheck(c.nodes[p], r) && c'.nodes[p].role == Follower && c'.nodes[p].currentTerm == r.term
    requires c'.nodes[p].log == Merged(c.nodes[p].log, r.prevLogIndex + 1, r.entries)
    requires CommitStep(c.nodes[p], c'.nodes[p], input, Accepted(r))
    requires FollowsCommit(c.nodes[p], c'.nodes[p], Accepted(r))
    ensures CommitOk(c', p) && c'.nodes[p].commitIndex >= c.nodes[p].commitIndex
  {
    FollowerCommitSafe(c, p, r, m);
    AcceptedKeepsCommit(c, p, r);
    FollowedCommitOk(c, c', p, r, input);
  }

  lemma OwnCommitOk(c: Cluster, c': Cluster, p: NodeId, input: Input, effect: LogEffect)
    requires Grows(c, c') && p in c.nodes && CommitOk(c, p) && !effect.Accepted?
    requires c'.nodes[p].id == p && c'.nodes[p].peers == c'.peers && p in c'.peers
    requires AgreeUpTo(c'.nodes[p].log, c.nodes[p].log, LastIndex(c.nodes[p].log))
    requires CommitStep(c.nodes[p], c'.nodes[p], input, effect)
    requires c'.nodes[p].role == Leader ==>
               && MatchOk(c', p) && LeaderAcks(c', p)
               && c'.nodes[p].currentTerm in c'.history.leaderLog
               && c'.nodes[p].log == c'.history.leaderLog[c'.nodes[p].currentTerm]
    ensures CommitOk(c', p)
    ensures input.Restart? || c'.nodes[p].commitIndex >= c.nodes[p].commitIndex
  {
    var s := c.nodes[p];
    var s' := c'.nodes[p];
    if SameCommit(s, s') {
      SafeUpToStays(c, c', s.currentTerm, s'.currentTerm, s.log, s.commitIndex);
      SafeUpToTransfers(c', s'.currentTerm, s.log, s.commitIndex, s'.log, s.commitIndex);
    } else if s'.commitIndex > 0 {
      LeaderCommitSafe(c', p);
    }
  }

  lemma CommitOkStays(c: Cluster, c': Cluster, p: NodeId)
    requires Grows(c, c') && p in c.nodes && c'.nodes[p] == c.nodes[p]
    requires CommitOk(c, p) && MatchOk(c, p)
    ensures CommitOk(c', p) && MatchOk(c', p)
  {
    var s := c.nodes[p];
    SafeUpToStays(c, c', s.currentTerm, s.currentTerm, s.log, s.commitIndex);
  }

  // ---- A step: messages and histories ----

  lemma OldMessageOk(c: Cluster, c': Cluster, m: Envelope)
    requires Grows(c, c') && ReplyOk(c, m) && CommitSent(c, m)
    ensures ReplyOk(c', m) && CommitSent(c', m)
  {
    if m.body.AppendEntries? && !PastEnd(m.body.appendRequest) {
      var r := m.body.appendRequest;
      var before := c.history.leaderLog[r.term];
      SafeUpToStays(c, c', r.term, r.term, before, r.leaderCommit);
      SafeUpToTransfers(c', r.term, before, r.leaderCommit, c'.history.leaderLog[r.term], r.leaderCommit);
    }
  }

  lemma NewMessageOk(c': Cluster, p: NodeId, o: Outcome, effect: LogEffect, a: Action, m: Envelope,
                     answers: Option<AppendEntriesRequest>)
    requires p in c'.nodes && c'.nodes[p] == o.node && o.node.id == p
    requires a in o.actions && !a.ApplyEntry? && m == ToEnvelope(p, a, answers)
    requires RepliesOk(o.node, o.actions, effect) && RequestsOk(o) && SendsSlices(o.node, o.actions)
    requires effect.Accepted? ==>
               && answers == Some(effect.request)
               && Ack(c'.history, o.node.currentTerm, p) >= effect.request.prevLogIndex + |effect.request.entries|
    requires CommitOk(c', p)
    requires o.node.role == Leader ==>
               && o.node.currentTerm in c'.history.leaderLog
               && o.node.log == c'.history.leaderLog[o.node.currentTerm]
    ensures ReplyOk(c', m) && CommitSent(c', m)
  {
    if m.body.AppendEntries? {
      SafeUpToTransfers(c', o.node.currentTerm, o.node.log, o.node.commitIndex,
                        o.node.log, a.appendRequest.leaderCommit);
    }
  }

  lemma OldAppliedOk(c: Cluster, c': Cluster, a: Applied)
    requires Grows(c, c') && AppliedOk(c, a)
    ensures AppliedOk(c', a)
  {
    var t: nat, i: nat :| AppliedFrom(c, t, i, a);
    ChosenStays(c, c', t, i);
    assert AppliedFrom(c', t, i, a);
  }

  lemma NewAppliedOk(c': Cluster, p: NodeId, from: nat, a: Action)
    requires p in c'.nodes && CommitOk(c', p)
    requires IsApplication(c'.nodes[p].log, from, c'.nodes[p].commitIndex, a)
    ensures AppliedOk(c', Applied(p, a.index, a.command))
  {
    var s := c'.nodes[p];
    var t: nat, i: nat :| Fixes(c', t, i, s.currentTerm, s.log, s.commitIndex);
    assert AppliedFrom(c', t, i, Applied(p, a.index, a.command));
  }

  lemma RecordsOkAfter(c: Cluster, c': Cluster, p: NodeId)
    requires Grows(c, c') && p in c'.nodes && CommitOk(c', p) && c'.nodes[p].log[0] == SENTINEL
    requires forall r | r in c.history.committed :: RecordOk(c, r)
    requires forall r | r in c'.history.committed ::
               r in c.history.committed || r == CommitRecord(c'.nodes[p].currentTerm, CommittedPrefix(c'.nodes[p]))
    ensures forall r | r in c'.history.committed :: RecordOk(c', r)
  {
    var s := c'.nodes[p];
    forall r | r in c'.history.committed ensures RecordOk(c', r) {
      if r in c.history.committed {
        SafeUpToStays(c, c', r.term, r.term, r.entries, |r.entries| - 1);
      } else {
        SafeUpToTransfers(c', s.currentTerm, s.log, s.commitIndex, r.entries, s.commitIndex);
      }
    }
  }

  // ---- A step: all of it ----

  /** Everything a step may rely on. */
  ghost predicate SafetyStep(c: Cluster, e: Event, o: Outcome, effect: LogEffect) {
    && KeepStep(c, e, o, effect) && CommitInv(c)
    && CommitFacts(c.nodes[e.node], o, e.input, effect)
    && FollowsCommit(c.nodes[e.node], o.node, effect)
    && o.node.peers == c.peers && NodeOk(c, e.node) && e.node in c.peers
    && Permitted(c, e, NOTHING)
  }

  lemma ThisNodeMatchOk(c: Cluster, e: Event, o: Outcome, effect: LogEffect)
    requires SafetyStep(c, e, o, effect) && Grows(c, After(c, e, o))
    ensures MatchOk(After(c, e, o), e.node)
  {
    assert MatchOk(c, e.node);
    if e.input.Deliver? {
      assert ReplyOk(c, e.input.envelope);
    }
    MatchOkAfter(c, After(c, e, o), e.node, e.input, effect);
  }

  lemma FollowerNodeCommitOk(c: Cluster, e: Event, o: Outcome, r: AppendEntriesRequest)
    requires SafetyStep(c, e, o, Accepted(r)) && Grows(c, After(c, e, o))
    ensures CommitOk(After(c, e, o), e.node) && o.node.commitIndex >= c.nodes[e.node].commitIndex
  {
    AcceptedStepFacts(c, e, o, r);
    AcceptedCommitOk(c, After(c, e, o), e.node, r, e.input.envelope, e.input);
  }

  lemma AcceptedStepFacts(c: Cluster, e: Event, o: Outcome, r: AppendEntriesRequest)
    requires SafetyStep(c, e, o, Accepted(r))
    ensures e.input.Deliver? && e.input.envelope.body == AppendEntries(r)
    ensures CommitOk(c, e.node) && CommitSent(c, e.input.envelope) && !PastEnd(r)
    ensures LogOk(c.history.leaderLog, c.nodes[e.node].log)
    ensures RequestOk(c.history.leaderLog, r) && Covers(c.history.leaderLog[r.term], r)
    ensures PassesCheck(c.nodes[e.node], r) && o.node.role == Follower && o.node.currentTerm == r.term
    ensures o.node.log == Merged(c.nodes[e.node].log, r.prevLogIndex + 1, r.entries)
  {
  }

  lemma OwnNodeCommitOk(c: Cluster, e: Event, o: Outcome, effect: LogEffect)
    requires SafetyStep(c, e, o, effect) && !effect.Accepted? && Grows(c, After(c, e, o))
    requires NodeLogOk(After(c, e, o), e.node) && MatchOk(After(c, e, o), e.node)
    requires o.node.role == Leader ==> LeaderAcks(After(c, e, o), e.node)
    ensures CommitOk(After(c, e, o), e.node)
    ensures e.input.Restart? || o.node.commitIndex >= c.nodes[e.node].commitIndex
  {
    assert CommitOk(c, e.node);
    OwnCommitOk(c, After(c, e, o), e.node, e.input, effect);
  }

  lemma ThisNodeCommitOk(c: Cluster, e: Event, o: Outcome, effect: LogEffect)
    requires SafetyStep(c, e, o, effect) && Grows(c, After(c, e, o))
    requires NodeLogOk(After(c, e, o), e.node) && MatchOk(After(c, e, o), e.node)
    requires o.node.role == Leader ==> LeaderAcks(After(c, e, o), e.node)
    ensures CommitOk(After(c, e, o), e.node)
    ensures e.input.Restart? || o.node.commitIndex >= c.nodes[e.node].commitIndex
  {
    if effect.Accepted? {
      FollowerNodeCommitOk(c, e, o, effect.request);
    } else {
      OwnNodeCommitOk(c, e, o, effect);
    }
  }

  lemma MessagesOkAfter(c: Cluster, e: Event, o: Outcome, effect: LogEffect)
    requires CommitInv(c) && Enabled(c, e) && Grows(c, After(c, e, o)) && o.node.id == e.node
    requires RepliesOk(o.node, o.actions, effect) && RequestsOk(o) && SendsSlices(o.node, o.actions)
    requires NodeLogOk(After(c, e, o), e.node) && CommitOk(After(c, e, o), e.node)
    requires effect.Accepted? ==>
               && Answered(e.input) == Some(effect.request)
               && Ack(After(c, e, o).history, o.node.currentTerm, e.node)
                  >= effect.request.prevLogIndex + |effect.request.entries|
    ensures forall m | m in After(c, e, o).network :: ReplyOk(After(c, e, o), m) && CommitSent(After(c, e, o), m)
  {
    var c' := After(c, e, o);
    forall m | m in c'.network ensures ReplyOk(c', m) && CommitSent(c', m) {
      if m in c.network {
        OldMessageOk(c, c', m);
      } else {
        var a :| a in o.actions && !a.ApplyEntry? && m == ToEnvelope(e.node, a, Answered(e.input));
        NewMessageOk(c', e.node, o, effect, a, m, Answered(e.input));
      }
    }
  }

  lemma AppliedOkAfter(c: Cluster, e: Event, o: Outcome)
    requires CommitInv(c) && Enabled(c, e) && Grows(c, After(c, e, o)) && CommitOk(After(c, e, o), e.node)
    requires AppliesOk(c.nodes[e.node], o)
    ensures forall a | a in After(c, e, o).history.applied :: AppliedOk(After(c, e, o), a)
  {
    var c' := After(c, e, o);
    forall a | a in c'.history.applied ensures AppliedOk(c', a) {
      if a in c.history.applied {
        OldAppliedOk(c, c', a);
      } else {
        var x :| x in o.actions && x.ApplyEntry? && a == Applied(e.node, x.index, x.command);
        NewAppliedOk(c', e.node, c.nodes[e.node].lastApplied, x);
      }
    }
  }

  lemma NodesCommitOkAfter(c: Cluster, e: Event, o: Outcome, effect: LogEffect)
    requires SafetyStep(c, e, o, effect)
    requires Grows(c, After(c, e, o)) && NodeLogOk(After(c, e, o), e.node)
    requires o.node.role == Leader ==> LeaderAcks(After(c, e, o), e.node)
    ensures forall p | p in After(c, e, o).nodes :: CommitOk(After(c, e, o), p) && MatchOk(After(c, e, o), p)
    ensures e.input.Restart? || o.node.commitIndex >= c.nodes[e.node].commitIndex
  {
    ThisNodeMatchOk(c, e, o, effect);
    ThisNodeCommitOk(c, e, o, effect);
    forall p | p in c.nodes && p != e.node ensures CommitOk(After(c, e, o), p) && MatchOk(After(c, e, o), p) {
      CommitOkStays(c, After(c, e, o), p);
    }
  }

  lemma AcceptedIsAcked(c: Cluster, e: Event, o: Outcome, effect: LogEffect)
    requires KeepStep(c, e, o, effect)
    ensures effect.Accepted? ==>
              && Answered(e.input) == Some(effect.request)
              && Ack(After(c, e, o).history, o.node.currentTerm, e.node)
                 >= effect.request.prevLogIndex + |effect.request.entries|
  {
    AcksAfter(c, e, o, effect);
  }

  lemma CommitInvAfter(c: Cluster, e: Event, o: Outcome, effect: LogEffect)
    requires CommitInv(c) && Enabled(c, e) && Grows(c, After(c, e, o)) && o.node.id == e.node
    requires CommitFacts(c.nodes[e.node], o, e.input, effect) && SendsSlices(o.node, o.actions)
    requires NodeLogOk(After(c, e, o), e.node)
    requires effect.Accepted? ==>
               && Answered(e.input) == Some(effect.request)
               && Ack(After(c, e, o).history, o.node.currentTerm, e.node)
                  >= effect.request.prevLogIndex + |effect.request.entries|
    requires forall p | p in After(c, e, o).nodes :: CommitOk(After(c, e, o), p) && MatchOk(After(c, e, o), p)
    ensures CommitInv(After(c, e, o))
  {
    assert CommitOk(After(c, e, o), e.node);
    MessagesOkAfter(c, e, o, effect);
    AppliedOkAfter(c, e, o);
    RecordsOkAfter(c, After(c, e, o), e.node);
  }

  // ---- Runs ----

  ghost predicate SafetyInv(c: Cluster) {
    BasicInv(c) && CandidateInv(c) && KeepInv(c) && CommitInv(c)
  }

  /** A request a node accepts in a permitted step covers its leader's log. */
  lemma AcceptedCovers(c: Cluster, e: Event)
    requires LogInv(c) && Enabled(c, e) && Permitted(c, e, NOTHING)
    requires EffectOf(c.nodes[e.node], e.input).Accepted?
    ensures var r := EffectOf(c.nodes[e.node], e.input).request;
            && Answered(e.input) == Some(r) && !PastEnd(r)
            && r.term in c.history.leaderLog && Covers(c.history.leaderLog[r.term], r)
  {
    assert SliceOk(c, e.input.envelope);
  }

  lemma StepIsSafetyStep(c: Cluster, e: Event)
    requires SafetyInv(c) && Enabled(c, e) && Permitted(c, e, NOTHING)
    ensures SafetyStep(c, e, NodeStep(c.nodes[e.node], e.input), EffectOf(c.nodes[e.node], e.input))
    ensures VoteCast(c.nodes[e.node], NodeStep(c.nodes[e.node], e.input).node, e.input)
  {
    assert NodeOk(c, e.node);
    StepHasFacts(c, e);
    NodeStepVoteStep(c, e);
    NodeStepCandidateStep(c.nodes[e.node], e.input);
    NodeStepCommitFacts(c.nodes[e.node], e.input);
    if EffectOf(c.nodes[e.node], e.input).Accepted? {
      AcceptedCovers(c, e);
    }
  }

  lemma CandidateInvStep(c: Cluster, e: Event)
    requires BasicInv(c) && CandidateInv(c)
    ensures CandidateInv(Step(c, e))
  {
    if Enabled(c, e) {
      var s := c.nodes[e.node];
      assert NodeOk(c, e.node) && TallyOk(c, e.node);
      assert e.input.Deliver? ==> AddressOk(e.input.envelope);
      NodeStepCandidateStep(s, e.input);
      StepHasFacts(c, e);
      CandidateInvAfterStep(c, e, NodeStep(s, e.input), EffectOf(s, e.input));
    }
  }

  lemma CandidateInvAfterStep(c: Cluster, e: Event, o: Outcome, effect: LogEffect)
    requires StepFacts(c, e, o, effect) && CandidateInv(c) && c.nodes[e.node].id == e.node && TallyOk(c, e.node)
    requires e.input.Deliver? ==> AddressOk(e.input.envelope)
    requires CandidateStep(c.nodes[e.node], o, e.input)
    ensures CandidateInv(After(c, e, o))
  {
    ChangedLogOk(c.history.leaderLog, c.nodes[e.node], o.node, effect);
    LeaderLogsGrow(c.history.leaderLog, c.nodes[e.node], o.node, effect);
    assert After(c, e, o).history.leaderLog == ObserveLeader(c.history.leaderLog, o.node);
    CandidateInvAfter(c, e, o);
  }

  lemma SafetyAfter(c: Cluster, e: Event, o: Outcome, effect: LogEffect)
    requires SafetyStep(c, e, o, effect) && ElectionInv(c) && CandidateInv(c)
    requires ElectionInv(After(c, e, o)) && NodeLogOk(After(c, e, o), e.node)
    requires VoteCast(c.nodes[e.node], o.node, e.input)
    requires e.input.Deliver? && e.input.envelope.body.RequestVote? ==> effect == Kept
    ensures KeepInv(After(c, e, o)) && CommitInv(After(c, e, o)) && Grows(c, After(c, e, o))
    ensures e.input.Restart? || o.node.commitIndex >= c.nodes[e.node].commitIndex
  {
    KeepInvAfter(c, e, o, effect);
    NodesCommitOkAfter(c, e, o, effect);
    AcceptedIsAcked(c, e, o, effect);
    CommitInvAfter(c, e, o, effect);
  }

  lemma VoteRequestKeepsLog(s: NodeState, input: Input)
    ensures input.Deliver? && input.envelope.body.RequestVote? ==> EffectOf(s, input) == Kept
  {
  }

  lemma EnabledStepSafe(c: Cluster, e: Event)
    requires SafetyInv(c) && Enabled(c, e) && Permitted(c, e, NOTHING)
    requires ElectionInv(Step(c, e)) && NodeLogOk(Step(c, e), e.node)
    ensures KeepInv(Step(c, e)) && CommitInv(Step(c, e)) && Grows(c, Step(c, e))
    ensures e.input.Restart? || Step(c, e).nodes[e.node].commitIndex >= c.nodes[e.node].commitIndex
  {
    StepIsSafetyStep(c, e);
    VoteRequestKeepsLog(c.nodes[e.node], e.input);
    SafetyAfter(c, e, NodeStep(c.nodes[e.node], e.input), EffectOf(c.nodes[e.node], e.input));
  }

  lemma SafetyInvStep(c: Cluster, e: Event)
    requires SafetyInv(c) && Permitted(c, e, NOTHING)
    ensures SafetyInv(Step(c, e)) && Grows(c, Step(c, e))
    ensures forall p | p in c.nodes && e != Event(p, Restart) ::
              Step(c, e).nodes[p].commitIndex >= c.nodes[p].commitIndex
  {
    BasicInvStep(c, e);
    CandidateInvStep(c, e);
    if Enabled(c, e) {
      assert e.node in Step(c, e).nodes;
      EnabledStepSafe(c, e);
    }
  }

  lemma SafetyInvInitial(peers: seq<NodeId>)
    requires NoDuplicates(peers)
    ensures SafetyInv(Initial(peers))
  {
    BasicInvInitial(peers);
    InitialCommits(peers);
  }

  lemma InitialCommits(peers: seq<NodeId>)
    ensures var c := Initial(peers);
            forall p | p in c.nodes :: CandidateOk(c, p) && NodeKeeps(c, p) && CommitOk(c, p) && MatchOk(c, p)
  {
    var c := Initial(peers);
    forall p | p in c.nodes ensures CandidateOk(c, p) && NodeKeeps(c, p) && CommitOk(c, p) && MatchOk(c, p) {
    }
  }

  lemma {:induction false} SafetyInvRun(c: Cluster, events: seq<Event>)
    requires SafetyInv(c) && RunPermitted(c, events, NOTHING)
    ensures SafetyInv(Exec(c, events))
    decreases |events|
  {
    if events != [] {
      SafetyInvStep(c, events[0]);
      SafetyInvRun(Step(c, events[0]), events[1..]);
    }
  }

  // ---- The theorems ----

  /** A prefix a leader ever committed is in the log of every leader of its term or later. */
  ghost predicate LeadersComplete(c: Cluster) {
    forall r, t | r in c.history.committed && t in c.history.leaderLog && r.term <= t ::
      r.entries <= c.history.leaderLog[t]
  }

  /** ... in particular in the log of every node that is a leader now. */
  ghost predicate CurrentLeadersComplete(c: Cluster) {
    forall r, p | r in c.history.committed && p in c.nodes
                  && c.nodes[p].role == Leader && r.term <= c.nodes[p].currentTerm ::
      r.entries <= c.nodes[p].log
  }

  /** No two nodes ever applied different commands at one index. */
  ghost predicate StateMachinesAgree(c: Cluster) {
    forall a, b | a in c.history.applied && b in c.history.applied && a.index == b.index :: a.command == b.command
  }

  lemma SafetyInvGivesCompleteness(c: Cluster)
    requires SafetyInv(c)
    ensures LeadersComplete(c) && CurrentLeadersComplete(c)
  {
    forall r, t | r in c.history.committed && t in c.history.leaderLog && r.term <= t
      ensures r.entries <= c.history.leaderLog[t]
    {
      assert LeaderLogOk(c, t);
      RecordInLeader(c, r, t);
    }
    forall r, p | r in c.history.committed && p in c.nodes
                  && c.nodes[p].role == Leader && r.term <= c.nodes[p].currentTerm
      ensures r.entries <= c.nodes[p].log
    {
      assert NodeLogOk(c, p);
      RecordInLeader(c, r, c.nodes[p].currentTerm);
    }
  }

  lemma RecordInLeader(c: Cluster, r: CommitRecord, t: nat)
    requires KeepInv(c) && RecordOk(c, r) && t in c.history.leaderLog && r.term <= t
    requires c.history.leaderLog[t][0] == SENTINEL
    ensures r.entries <= c.history.leaderLog[t]
  {
    var k := |r.entries| - 1;
    if k > 0 {
      var u: nat, i: nat :| Fixes(c, u, i, r.term, r.entries, k);
      ChosenInLaterLeaders(c, u, i, t);
      assert AgreeUpTo(r.entries, c.history.leaderLog[t], k);
    }
  }

  lemma AppliedAgree(c: Cluster, a: Applied, b: Applied)
    requires KeepInv(c) && AppliedOk(c, a) && AppliedOk(c, b) && a.index == b.index
    ensures a.command == b.command
  {
    var t: nat, i: nat :| AppliedFrom(c, t, i, a);
    var u: nat, j: nat :| AppliedFrom(c, u, j, b);
    if t <= u {
      ChosenInLaterLeaders(c, t, i, u);
    } else {
      ChosenInLaterLeaders(c, u, j, t);
    }
  }

  lemma SafetyInvGivesAgreement(c: Cluster)
    requires SafetyInv(c)
    ensures StateMachinesAgree(c)
  {
    forall a, b | a in c.history.applied && b in c.history.applied && a.index == b.index
      ensures a.command == b.command
    {
      AppliedAgree(c, a, b);
    }
  }

  /** Leader Completeness and State Machine Safety for every permitted run, restarts included. */
  lemma SafetyTheorem(peers: seq<NodeId>, events: seq<Event>)
    requires NoDuplicates(peers) && RunPermitted(Initial(peers), events, NOTHING)
    ensures var c := Exec(Initial(peers), events);
            LeadersComplete(c) && CurrentLeadersComplete(c) && StateMachinesAgree(c)
  {
    SafetyInvInitial(peers);
    SafetyInvRun(Initial(peers), events);
    SafetyInvGivesCompleteness(Exec(Initial(peers), events));
    SafetyInvGivesAgreement(Exec(Initial(peers), events));
  }

  /** The conditions said of single deliveries, without the history of acknowledgements: no
      success reply of an older term reaches a leader, none claims more than the request it
      answers covered, and no request that starts past its sender's log passes the check. */
  predicate Ordinary(c: Cluster, e: Event) {
    Enabled(c, e) && e.input.Deliver? ==>
      var m := e.input.envelope;
      && !(m.body.AppendResponse? && m.body.appendResponse.success
           && c.nodes[m.to].role == Leader && m.body.appendResponse.term < c.nodes[m.to].currentTerm)
      && !PastRequest(m)
      && !PassesPastEnd(c, m)
  }

  ghost predicate RunOrdinary(c: Cluster, events: seq<Event>)
    decreases |events|
  {
    events == [] || (Ordinary(c, events[0]) && RunOrdinary(Step(c, events[0]), events[1..]))
  }

  lemma {:induction false} OrdinaryRunPermitted(c: Cluster, events: seq<Event>)
    requires RunOrdinary(c, events)
    ensures RunPermitted(c, events, NOTHING)
    decreases |events|
  {
    if events != [] {
      OrdinaryRunPermitted(Step(c, events[0]), events[1..]);
    }
  }

  /** ... and so for every run made of ordinary deliveries. */
  lemma OrdinaryRunsAreSafe(peers: seq<NodeId>, events: seq<Event>)
    requires NoDuplicates(peers) && RunOrdinary(Initial(peers), events)
    ensures RunPermitted(Initial(peers), events, NOTHING)
    ensures var c := Exec(Initial(peers), events);
            LeadersComplete(c) && CurrentLeadersComplete(c) && StateMachinesAgree(c)
  {
    OrdinaryRunPermitted(Initial(peers), events);
    SafetyTheorem(peers, events);
  }

  /** In a permitted run, between steps last_applied equals commit_index, and neither ever goes
      back except by a restart. */
  lemma CommitNeverDecreases(peers: seq<NodeId>, events: seq<Event>, e: Event)
    requires NoDuplicates(peers) && RunPermitted(Initial(peers), events, NOTHING)
    requires Permitted(Exec(Initial(peers), events), e, NOTHING)
    ensures var c := Exec(Initial(peers), events);
            && (forall p | p in c.nodes :: c.nodes[p].lastApplied == c.nodes[p].commitIndex)
            && (forall p | p in c.nodes && e != Event(p, Restart) ::
                  p in Step(c, e).nodes && Step(c, e).nodes[p].commitIndex >= c.nodes[p].commitIndex)
  {
    var c := Exec(Initial(peers), events);
    SafetyInvInitial(peers);
    SafetyInvRun(Initial(peers), events);
    SafetyInvStep(c, e);
    forall p | p in c.nodes ensures c.nodes[p].lastApplied == c.nodes[p].commitIndex {
      assert CommitOk(c, p);
    }
  }
}
