/** Pieces of runs: a node times out, collects votes, a leader replicates. They build the runs
    of RaftHazards. */
module RunTools {
  import opened RaftTypes
  import opened RaftLogs
  import opened RaftSpec
  import opened RaftCluster
  import opened Persistence
  import opened RaftFacts
  import opened CommitSteps
  import opened ApplyOrder
  import opened LeaderCompleteness

  /** Some run with only these hazards leads from c to c'. */
  ghost predicate Reaches(c: Cluster, c': Cluster, allowed: Allowed) {
    exists events: seq<Event> :: Leads(c, events, c', allowed)
  }

  ghost predicate Leads(c: Cluster, events: seq<Event>, c': Cluster, allowed: Allowed) {
    RunPermitted(c, events, allowed) && Exec(c, events) == c'
  }

  lemma {:induction false} RunPermittedConcat(c: Cluster, xs: seq<Event>, ys: seq<Event>, allowed: Allowed)
    requires RunPermitted(c, xs, allowed) && RunPermitted(Exec(c, xs), ys, allowed)
    ensures RunPermitted(c, xs + ys, allowed)
    decreases |xs|
  {
    if xs == [] {
      assert xs + ys == ys;
    } else {
      assert (xs + ys)[1..] == xs[1..] + ys;
      RunPermittedConcat(Step(c, xs[0]), xs[1..], ys, allowed);
    }
  }

  lemma ReachesTrans(a: Cluster, b: Cluster, c: Cluster, allowed: Allowed)
    requires Reaches(a, b, allowed) && Reaches(b, c, allowed)
    ensures Reaches(a, c, allowed)
  {
    var xs: seq<Event> :| Leads(a, xs, b, allowed);
    var ys: seq<Event> :| Leads(b, ys, c, allowed);
    ExecConcat(a, xs, ys);
    RunPermittedConcat(a, xs, ys, allowed);
    assert Leads(a, xs + ys, c, allowed);
  }

  lemma ReachesStep(c: Cluster, e: Event, allowed: Allowed)
    requires Permitted(c, e, allowed)
    ensures Reaches(c, Step(c, e), allowed)
  {
    var c' := Step(c, e);
    assert [e][1..] == [];
    assert Exec(c', []) == c' && RunPermitted(c', [], allowed);
    assert Leads(c, [e], c', allowed);
  }

  predicate Member(c: Cluster, i: NodeId) {
    i in c.nodes && c.nodes[i].id == i && c.nodes[i].peers == c.peers
  }

  /** Nothing is lost, and only the nodes in `touched` change. */
  ghost predicate OnlyTouched(c: Cluster, c': Cluster, touched: set<NodeId>) {
    && c'.peers == c.peers && c'.nodes.Keys == c.nodes.Keys
    && (forall j | j in c.nodes && j !in touched :: c'.nodes[j] == c.nodes[j])
    && c.network <= c'.network
    && c.history.committed <= c'.history.committed
    && c.history.applied <= c'.history.applied
  }

  /** One enabled step, seen from outside. */
  lemma Take(c: Cluster, i: NodeId, input: Input, allowed: Allowed) returns (c': Cluster)
    requires Enabled(c, Event(i, input)) && Permitted(c, Event(i, input), allowed)
    ensures c' == Step(c, Event(i, input))
    ensures Reaches(c, c', allowed) && OnlyTouched(c, c', {i})
    ensures c'.nodes[i] == NodeStep(c.nodes[i], input).node
    ensures Outbox(i, NodeStep(c.nodes[i], input).actions, Answered(input)) <= c'.network
    ensures AppliedBy(i, NodeStep(c.nodes[i], input).actions) <= c'.history.applied
    ensures c'.nodes[i].role == Leader ==>
              CommitRecord(c'.nodes[i].currentTerm, CommittedPrefix(c'.nodes[i])) in c'.history.committed
    ensures c'.nodes[i].role == Leader && c'.nodes[i].id == i ==>
              c'.nodes[i].currentTerm in c'.history.leaderLog
              && c'.history.leaderLog[c'.nodes[i].currentTerm] == c'.nodes[i].log
  {
    c' := Step(c, Event(i, input));
    ReachesStep(c, Event(i, input), allowed);
  }

  lemma TouchedTrans(a: Cluster, b: Cluster, c: Cluster, x: set<NodeId>, y: set<NodeId>)
    requires OnlyTouched(a, b, x) && OnlyTouched(b, c, y)
    ensures OnlyTouched(a, c, x + y)
  {
  }

  lemma Extends(a: Cluster, b: Cluster, c: Cluster, x: set<NodeId>, y: set<NodeId>, allowed: Allowed)
    requires Reaches(a, b, allowed) && OnlyTouched(a, b, x)
    requires Reaches(b, c, allowed) && OnlyTouched(b, c, y)
    ensures Reaches(a, c, allowed) && OnlyTouched(a, c, x + y)
  {
    ReachesTrans(a, b, c, allowed);
    TouchedTrans(a, b, c, x, y);
  }

  function RequestEnvelope(s: NodeState, to: NodeId): Envelope {
    Envelope(s.id, to, RequestVote(VoteRequestOf(s)), None)
  }

  function CandidacyEnvelope(i: NodeId, to: NodeId, term: nat, log: Log): Envelope {
    Envelope(i, to, RequestVote(RequestVoteRequest(term, i, LastIndex(log), LastTerm(log))), None)
  }

  function AppendEnvelope(s: NodeState, to: NodeId, next: nat): Envelope {
    Envelope(s.id, to, AppendEntries(AppendRequestFor(s, next)), None)
  }

  /** What a node keeps while it only moves between roles and terms. */
  predicate SameData(s: NodeState, s': NodeState) {
    s'.id == s.id && s'.peers == s.peers && s'.log == s.log
    && s'.commitIndex == s.commitIndex && s'.lastApplied == s.lastApplied
  }

  /** A follower or candidate is left alone until its timer expires and it starts an election. */
  lemma TimesOut(c: Cluster, i: NodeId, allowed: Allowed) returns (c': Cluster)
    requires Member(c, i) && c.nodes[i].role != Leader && Majority(c.peers) >= 2
    ensures Reaches(c, c', allowed) && OnlyTouched(c, c', {i})
    ensures var s' := c'.nodes[i];
            && SameData(c.nodes[i], s') && s'.role == Candidate && s'.currentTerm == c.nodes[i].currentTerm + 1
            && s'.votesReceived == {i}
            && (forall p | p in c.peers && p != i :: RequestEnvelope(s', p) in c'.network)
    decreases c.nodes[i].timers.election
  {
    var s := c.nodes[i];
    var c1 := Take(c, i, Tick, allowed);
    if s.timers.election > 1 {
      c' := TimesOut(c1, i, allowed);
      ReachesTrans(c, c1, c', allowed);
      TouchedTrans(c, c1, c', {i}, {i});
    } else {
      c' := c1;
      var s' := c'.nodes[i];
      forall p | p in c.peers && p != i ensures RequestEnvelope(s', p) in c'.network {
        VoteRequestsComplete(s', s'.peers, p);
        var a := SendRequestVote(p, VoteRequestOf(s'));
        assert a in NodeStep(s, Tick).actions;
        assert RequestEnvelope(s', p) == ToEnvelope(i, a, None);
      }
    }
  }

  /** A voter of a lower term whose log is no more up to date grants its vote to a candidate. */
  lemma Votes(c: Cluster, i: NodeId, v: NodeId, allowed: Allowed) returns (c': Cluster)
    requires Member(c, i) && Member(c, v) && i != v && c.nodes[i].role == Candidate
    requires RequestEnvelope(c.nodes[i], v) in c.network
    requires c.nodes[v].currentTerm < c.nodes[i].currentTerm
    requires UpToDate(LastTerm(c.nodes[i].log), LastIndex(c.nodes[i].log), c.nodes[v].log)
    ensures Reaches(c, c', allowed) && OnlyTouched(c, c', {i, v})
    ensures SameData(c.nodes[v], c'.nodes[v]) && c'.nodes[v].role == Follower
    ensures c'.nodes[v].currentTerm == c.nodes[i].currentTerm
    ensures SameData(c.nodes[i], c'.nodes[i]) && c'.nodes[i].currentTerm == c.nodes[i].currentTerm
    ensures c'.nodes[i].votesReceived == c.nodes[i].votesReceived + {v}
    ensures if |c'.nodes[i].votesReceived| >= Majority(c.peers)
            then var o := WinElection(c.nodes[i].(votesReceived := c'.nodes[i].votesReceived));
                 c'.nodes[i] == o.node && Outbox(i, o.actions, None) <= c'.network
            else c'.nodes[i] == c.nodes[i].(votesReceived := c'.nodes[i].votesReceived)
  {
    var c1 := Grants(c, i, v, allowed);
    c' := Take(c1, i, Deliver(VoteEnvelope(v, i, c.nodes[i].currentTerm)), allowed);
    Extends(c, c1, c', {v}, {i}, allowed);
    assert {v} + {i} == {i, v};
  }

  function VoteEnvelope(v: NodeId, i: NodeId, term: nat): Envelope {
    Envelope(v, i, VoteResponse(RequestVoteResponse(term, true)), None)
  }

  lemma Grants(c: Cluster, i: NodeId, v: NodeId, allowed: Allowed) returns (c': Cluster)
    requires Member(c, i) && Member(c, v) && i != v
    requires RequestEnvelope(c.nodes[i], v) in c.network
    requires c.nodes[v].currentTerm < c.nodes[i].currentTerm
    requires UpToDate(LastTerm(c.nodes[i].log), LastIndex(c.nodes[i].log), c.nodes[v].log)
    ensures Reaches(c, c', allowed) && OnlyTouched(c, c', {v})
    ensures SameData(c.nodes[v], c'.nodes[v]) && c'.nodes[v].role == Follower
    ensures c'.nodes[v].currentTerm == c.nodes[i].currentTerm
    ensures VoteEnvelope(v, i, c.nodes[i].currentTerm) in c'.network
  {
    var s := c.nodes[i];
    c' := Take(c, v, Deliver(RequestEnvelope(s, v)), allowed);
    var a := SendRequestVoteResponse(i, RequestVoteResponse(s.currentTerm, true));
    assert a in NodeStep(c.nodes[v], Deliver(RequestEnvelope(s, v))).actions;
    assert VoteEnvelope(v, i, s.currentTerm) == ToEnvelope(v, a, None);
  }

  /** A node that has just won: fresh tracking, and a first request on its way to every peer. */
  ghost predicate JustElected(c: Cluster, i: NodeId, term: nat, log: Log) {
    && Member(c, i) && c.nodes[i].role == Leader && c.nodes[i].currentTerm == term && c.nodes[i].log == log
    && c.nodes[i].nextIndex == Tracking(c.peers, i, |log|)
    && c.nodes[i].matchIndex == Tracking(c.peers, i, 0)
    && (forall p | p in c.peers && p != i :: AppendEnvelope(c.nodes[i], p, |log|) in c.network)
  }

  lemma WinnerSends(c: Cluster, i: NodeId, s: NodeState)
    requires Member(c, i) && c.nodes[i] == WinElection(s).node && s.id == i && s.peers == c.peers
    requires Outbox(i, WinElection(s).actions, None) <= c.network
    ensures JustElected(c, i, s.currentTerm, s.log)
  {
    var s' := c.nodes[i];
    forall p | p in c.peers && p != i ensures AppendEnvelope(s', p, |s.log|) in c.network {
      TrackingLookup(s.peers, i, LastIndex(s.log) + 1, p);
      ReplicationComplete(s', s'.peers, p, |s.log|);
      var a := SendAppendEntries(p, AppendRequestFor(s', |s.log|));
      assert ToEnvelope(i, a, None) == AppendEnvelope(s', p, |s.log|);
    }
  }

  /** A node may win an election in its next term with this voter's help. */
  ghost predicate WouldVote(c: Cluster, i: NodeId, v: NodeId) {
    && Member(c, i) && Member(c, v) && v != i && v in c.peers
    && c.nodes[v].currentTerm <= c.nodes[i].currentTerm
    && UpToDate(LastTerm(c.nodes[i].log), LastIndex(c.nodes[i].log), c.nodes[v].log)
  }

  ghost predicate Voted(c: Cluster, c': Cluster, v: NodeId, term: nat) {
    && Member(c, v) && Member(c', v) && SameData(c.nodes[v], c'.nodes[v])
    && c'.nodes[v].role == Follower && c'.nodes[v].currentTerm == term
  }

  /** One vote besides its own makes a node leader in a cluster with majority two. */
  lemma ElectWithOne(c: Cluster, i: NodeId, v: NodeId, allowed: Allowed) returns (c': Cluster)
    requires Majority(c.peers) == 2
    requires WouldVote(c, i, v) && c.nodes[i].role != Leader
    ensures Reaches(c, c', allowed) && OnlyTouched(c, c', {i, v})
    ensures JustElected(c', i, c.nodes[i].currentTerm + 1, c.nodes[i].log)
    ensures SameData(c.nodes[i], c'.nodes[i])
    ensures Voted(c, c', v, c.nodes[i].currentTerm + 1)
  {
    var c1 := TimesOut(c, i, allowed);
    assert RequestEnvelope(c1.nodes[i], v) in c1.network;
    c' := Votes(c1, i, v, allowed);
    assert c'.nodes[i].votesReceived == {i, v};
    WinnerSends(c', i, c1.nodes[i].(votesReceived := {i, v}));
    ReachesTrans(c, c1, c', allowed);
    TouchedTrans(c, c1, c', {i}, {i, v});
  }

  /** Two votes besides its own make a node leader in a cluster with majority three. */
  lemma ElectWithTwo(c: Cluster, i: NodeId, v: NodeId, w: NodeId, allowed: Allowed) returns (c': Cluster)
    requires Majority(c.peers) == 3 && v != w
    requires WouldVote(c, i, v) && WouldVote(c, i, w) && c.nodes[i].role != Leader
    ensures Reaches(c, c', allowed) && OnlyTouched(c, c', {i, v, w})
    ensures JustElected(c', i, c.nodes[i].currentTerm + 1, c.nodes[i].log)
    ensures SameData(c.nodes[i], c'.nodes[i])
    ensures Voted(c, c', v, c.nodes[i].currentTerm + 1) && Voted(c, c', w, c.nodes[i].currentTerm + 1)
    ensures forall p | p in c.peers && p != i ::
              CandidacyEnvelope(i, p, c.nodes[i].currentTerm + 1, c.nodes[i].log) in c'.network
  {
    var c1 := TimesOut(c, i, allowed);
    assert RequestEnvelope(c1.nodes[i], v) in c1.network && RequestEnvelope(c1.nodes[i], w) in c1.network;
    var c2 := Votes(c1, i, v, allowed);
    assert c2.nodes[i].votesReceived == {i, v};
    assert RequestEnvelope(c2.nodes[i], w) == RequestEnvelope(c1.nodes[i], w);
    c' := Votes(c2, i, w, allowed);
    assert c'.nodes[i].votesReceived == {i, v, w};
    WinnerSends(c', i, c2.nodes[i].(votesReceived := {i, v, w}));
    ReachesTrans(c, c1, c2, allowed);
    ReachesTrans(c, c2, c', allowed);
    TouchedTrans(c, c1, c2, {i}, {i, v});
    TouchedTrans(c, c2, c', {i, v}, {i, w});
    assert {i, v} + {i, w} == {i, v, w};
    forall p | p in c.peers && p != i
      ensures CandidacyEnvelope(i, p, c.nodes[i].currentTerm + 1, c.nodes[i].log) in c'.network
    {
      assert RequestEnvelope(c1.nodes[i], p) in c1.network;
    }
  }

  lemma {:induction false} NoneCounted(peers: seq<NodeId>, self: NodeId, index: nat)
    requires index > 0
    ensures CountAtLeast(Tracking(peers, self, 0), index) == 0
  {
    if peers != [] {
      NoneCounted(peers[1..], self, index);
    }
  }

  /** A proposal at a leader that has heard no acknowledgement only extends its log and sends it. */
  lemma Proposes(c: Cluster, i: NodeId, command: LogCommand, allowed: Allowed) returns (c': Cluster)
    requires Member(c, i) && c.nodes[i].role == Leader && Majority(c.peers) >= 2
    requires c.nodes[i].matchIndex == Tracking(c.peers, i, 0)
    ensures Reaches(c, c', allowed) && OnlyTouched(c, c', {i})
    ensures c'.nodes[i] == Appended(c.nodes[i], command)
    ensures forall p, next: nat | p in c.peers && p != i && Lookup(c.nodes[i].nextIndex, p) == Some(next) ::
              AppendEnvelope(c'.nodes[i], p, next) in c'.network
  {
    var s := c.nodes[i];
    var s1 := Appended(s, command);
    var target := CommitScan(s1, LastIndex(s1.log));
    CommitScanFacts(s1, LastIndex(s1.log));
    if target > s1.commitIndex {
      NoneCounted(c.peers, i, target);
      assert false;
    }
    c' := Take(c, i, Propose(command), allowed);
    ProposalSent(c', i, s, command);
  }

  lemma ProposalSent(c': Cluster, i: NodeId, s: NodeState, command: LogCommand)
    requires s.id == i && s.role == Leader
    requires Outbox(i, HandlePropose(s, command).value.actions, None) <= c'.network
    ensures forall p, next: nat | p in s.peers && p != i && Lookup(s.nextIndex, p) == Some(next) ::
              AppendEnvelope(Appended(s, command), p, next) in c'.network
  {
    var s1 := Appended(s, command);
    forall p, next: nat | p in s.peers && p != i && Lookup(s.nextIndex, p) == Some(next)
      ensures AppendEnvelope(s1, p, next) in c'.network
    {
      ReplicationComplete(s1, s1.peers, p, next);
      var a := SendAppendEntries(p, AppendRequestFor(s1, next));
      assert a in HandlePropose(s, command).value.actions;
      assert ToEnvelope(i, a, None) == AppendEnvelope(s1, p, next);
    }
  }

  function ReplyEnvelope(from: NodeId, r: AppendEntriesRequest, success: bool, index: nat): Envelope {
    Envelope(from, r.leaderId, AppendResponse(AppendEntriesResponse(r.term, success, Some(index))), Some(r))
  }

  lemma AcceptOutcome(s: NodeState, r: AppendEntriesRequest, log: Log)
    requires r.term >= s.currentTerm && r.leaderCommit <= s.commitIndex
    requires TermAt(s.log, r.prevLogIndex) == r.prevLogTerm
    requires Merged(s.log, r.prevLogIndex + 1, r.entries) == log
    ensures var o := HandleAppendEntries(s, r);
            && o.node.id == s.id && o.node.peers == s.peers && o.node.role == Follower
            && o.node.currentTerm == r.term && o.node.log == log
            && o.node.commitIndex == s.commitIndex && o.node.lastApplied == s.lastApplied
            && o.actions == [SendAppendEntriesResponse(r.leaderId,
                               AppendEntriesResponse(r.term, true, Some(LastIndex(log))))]
  {
    var s2 := AcceptEntries(FollowLeader(s, r), r);
    assert s2.log == log;
    assert FollowCommit(s2, r.leaderCommit) == Outcome(s2, []);
  }

  /** A request without news of commits passes the check: the log is merged and its end reported. */
  lemma Accepts(c: Cluster, p: NodeId, m: Envelope, log: Log, allowed: Allowed) returns (c': Cluster)
    requires m in c.network && m.to == p && Member(c, p) && m.body.AppendEntries?
    requires Permitted(c, Event(p, Deliver(m)), allowed)
    requires var r := m.body.appendRequest;
             && r.term >= c.nodes[p].currentTerm && r.leaderCommit <= c.nodes[p].commitIndex
             && TermAt(c.nodes[p].log, r.prevLogIndex) == r.prevLogTerm
             && Merged(c.nodes[p].log, r.prevLogIndex + 1, r.entries) == log
    ensures Reaches(c, c', allowed) && OnlyTouched(c, c', {p}) && Member(c', p)
    ensures c'.nodes[p].role == Follower && c'.nodes[p].currentTerm == m.body.appendRequest.term
    ensures c'.nodes[p].log == log && c'.nodes[p].commitIndex == c.nodes[p].commitIndex
    ensures c'.nodes[p].lastApplied == c.nodes[p].lastApplied
    ensures ReplyEnvelope(p, m.body.appendRequest, true, LastIndex(log)) in c'.network
  {
    var r := m.body.appendRequest;
    AcceptOutcome(c.nodes[p], r, log);
    c' := Take(c, p, Deliver(m), allowed);
    var a := SendAppendEntriesResponse(r.leaderId, AppendEntriesResponse(r.term, true, Some(LastIndex(log))));
    assert ToEnvelope(p, a, Some(r)) == ReplyEnvelope(p, r, true, LastIndex(log));
  }

  /** A request fails the check: the follower only changes term, and hints at the end of its log. */
  lemma Rejects(c: Cluster, p: NodeId, m: Envelope, allowed: Allowed) returns (c': Cluster)
    requires m in c.network && m.to == p && Member(c, p) && m.body.AppendEntries?
    requires Permitted(c, Event(p, Deliver(m)), allowed)
    requires m.body.appendRequest.term >= c.nodes[p].currentTerm
    requires TermAt(c.nodes[p].log, m.body.appendRequest.prevLogIndex) != m.body.appendRequest.prevLogTerm
    ensures Reaches(c, c', allowed) && OnlyTouched(c, c', {p}) && Member(c', p)
    ensures SameData(c.nodes[p], c'.nodes[p])
    ensures c'.nodes[p].role == Follower && c'.nodes[p].currentTerm == m.body.appendRequest.term
    ensures ReplyEnvelope(p, m.body.appendRequest, false, LastIndex(c.nodes[p].log)) in c'.network
  {
    var r := m.body.appendRequest;
    c' := Take(c, p, Deliver(m), allowed);
    var last := LastIndex(c.nodes[p].log);
    var a := SendAppendEntriesResponse(r.leaderId, AppendEntriesResponse(r.term, false, Some(last)));
    assert a in HandleAppendEntries(c.nodes[p], r).actions;
    assert ToEnvelope(p, a, Some(r)) == ReplyEnvelope(p, r, false, LastIndex(c.nodes[p].log));
  }

  function Tracked(s: NodeState, p: NodeId, index: nat): NodeState {
    s.(matchIndex := SetFirst(s.matchIndex, p, index), nextIndex := SetFirst(s.nextIndex, p, index + 1))
  }

  lemma NothingToCommit(s: NodeState)
    requires forall k | s.commitIndex < k <= LastIndex(s.log) :: !Committable(s, k)
    ensures AdvanceCommit(s) == Outcome(s, [])
  {
    CommitScanFacts(s, LastIndex(s.log));
  }

  /** A leader takes a reply that leaves nothing to commit. */
  lemma Counts(c: Cluster, i: NodeId, p: NodeId, r: AppendEntriesRequest, index: nat, allowed: Allowed)
    returns (c': Cluster)
    requires Member(c, i) && c.nodes[i].role == Leader && r.term <= c.nodes[i].currentTerm && r.leaderId == i
    requires ReplyEnvelope(p, r, true, index) in c.network
    requires Permitted(c, Event(i, Deliver(ReplyEnvelope(p, r, true, index))), allowed)
    requires forall k | c.nodes[i].commitIndex < k <= LastIndex(c.nodes[i].log) ::
               !Committable(Tracked(c.nodes[i], p, index), k)
    ensures Reaches(c, c', allowed) && OnlyTouched(c, c', {i})
    ensures c'.nodes[i] == Tracked(c.nodes[i], p, index)
  {
    NothingToCommit(Tracked(c.nodes[i], p, index));
    c' := Take(c, i, Deliver(ReplyEnvelope(p, r, true, index)), allowed);
  }

  /** The greatest committable index is the last one: the leader commits its whole log. */
  lemma CommitsAll(s: NodeState)
    requires s.commitIndex < LastIndex(s.log) && Committable(s, LastIndex(s.log))
    ensures AdvanceCommit(s).node.commitIndex == LastIndex(s.log)
    ensures AdvanceCommit(s).node.log == s.log && AdvanceCommit(s).node.role == s.role
    ensures AdvanceCommit(s).node.currentTerm == s.currentTerm
    ensures CommittedPrefix(AdvanceCommit(s).node) == s.log
    ensures forall k | s.lastApplied < k <= LastIndex(s.log) && s.log[k].command != Noop ::
              ApplyEntry(k, s.log[k].command) in AdvanceCommit(s).actions
  {
    forall k | s.lastApplied < k <= LastIndex(s.log) && s.log[k].command != Noop
      ensures ApplyEntry(k, s.log[k].command) in AdvanceCommit(s).actions
    {
      ApplyActionsComplete(s.log, s.lastApplied, LastIndex(s.log), k);
    }
  }

  /** The node has applied its whole log, Noops aside. */
  ghost predicate AppliedAll(c: Cluster, i: NodeId, log: Log) {
    forall k | 0 < k < |log| && log[k].command != Noop :: Applied(i, k, log[k].command) in c.history.applied
  }

  lemma AppliedOnCommit(c: Cluster, i: NodeId, s: NodeState, actions: seq<Action>)
    requires s.commitIndex < LastIndex(s.log) && Committable(s, LastIndex(s.log)) && s.lastApplied == 0
    requires AppliedBy(i, actions) <= c.history.applied
    requires forall a | a in AdvanceCommit(s).actions :: a in actions
    ensures AppliedAll(c, i, s.log)
  {
    CommitsAll(s);
    forall k | 0 < k < |s.log| && s.log[k].command != Noop
      ensures Applied(i, k, s.log[k].command) in c.history.applied
    {
      assert ApplyEntry(k, s.log[k].command) in actions;
    }
  }

  /** A leader takes a reply that lets it commit its whole log. */
  lemma CommitsOnReply(c: Cluster, i: NodeId, p: NodeId, r: AppendEntriesRequest, index: nat, allowed: Allowed)
    returns (c': Cluster)
    requires Member(c, i) && c.nodes[i].role == Leader && r.term <= c.nodes[i].currentTerm && r.leaderId == i
    requires ReplyEnvelope(p, r, true, index) in c.network
    requires Permitted(c, Event(i, Deliver(ReplyEnvelope(p, r, true, index))), allowed)
    requires c.nodes[i].commitIndex < LastIndex(c.nodes[i].log)
    requires Committable(Tracked(c.nodes[i], p, index), LastIndex(c.nodes[i].log)) && c.nodes[i].lastApplied == 0
    ensures Reaches(c, c', allowed) && OnlyTouched(c, c', {i})
    ensures CommitRecord(c.nodes[i].currentTerm, c.nodes[i].log) in c'.history.committed
    ensures AppliedAll(c', i, c.nodes[i].log)
    ensures Member(c', i) && c'.nodes[i].role == Leader && c'.nodes[i].log == c.nodes[i].log
    ensures c'.nodes[i].currentTerm == c.nodes[i].currentTerm
  {
    var s := Tracked(c.nodes[i], p, index);
    CommitsAll(s);
    c' := Take(c, i, Deliver(ReplyEnvelope(p, r, true, index)), allowed);
    assert c'.nodes[i] == AdvanceCommit(s).node;
    AppliedOnCommit(c', i, s, NodeStep(c.nodes[i], Deliver(ReplyEnvelope(p, r, true, index))).actions);
  }

  /** Raising one pair past an index adds one to the count for that index. */
  lemma {:induction false} CountRaised(pairs: seq<(NodeId, nat)>, id: NodeId, value: nat, index: nat)
    requires Lookup(pairs, id).Some? && Lookup(pairs, id).value < index <= value
    ensures CountAtLeast(SetFirst(pairs, id, value), index) == CountAtLeast(pairs, index) + 1
  {
    if pairs[0].0 != id {
      CountRaised(pairs[1..], id, value, index);
      assert SetFirst(pairs, id, value)[1..] == SetFirst(pairs[1..], id, value);
    } else {
      assert SetFirst(pairs, id, value)[1..] == pairs[1..];
    }
  }

  /** A reply that claims no more than its request covered is no hazard, unless it is stale. */
  lemma ReplyPermitted(c: Cluster, i: NodeId, p: NodeId, r: AppendEntriesRequest, index: nat, allowed: Allowed)
    requires i in c.nodes && r.leaderId == i && index <= r.prevLogIndex + |r.entries|
    requires r.term < c.nodes[i].currentTerm ==> allowed.stale
    ensures Permitted(c, Event(i, Deliver(ReplyEnvelope(p, r, true, index))), allowed)
  {
  }

  /** A leader that has heard no acknowledgement and whose last entry alone is of its term. */
  ghost predicate AwaitsAcks(c: Cluster, i: NodeId) {
    && Member(c, i) && c.nodes[i].role == Leader && c.nodes[i].matchIndex == Tracking(c.peers, i, 0)
    && c.nodes[i].commitIndex == 0 && c.nodes[i].lastApplied == 0 && |c.nodes[i].log| >= 2
    && forall k | 0 < k < |c.nodes[i].log| ::
         c.nodes[i].log[k].term == c.nodes[i].currentTerm <==> k == LastIndex(c.nodes[i].log)
  }

  /** A reply on its way to leader i, claiming its whole log, as far as the request covered. */
  ghost predicate AckComing(c: Cluster, i: NodeId, p: NodeId, r: AppendEntriesRequest, index: nat, allowed: Allowed) {
    && p in c.peers && p != i && i in c.nodes && r.leaderId == i && r.term <= c.nodes[i].currentTerm
    && (r.term < c.nodes[i].currentTerm ==> allowed.stale)
    && index <= r.prevLogIndex + |r.entries| && ReplyEnvelope(p, r, true, index) in c.network
  }

  ghost predicate CommittedAll(c: Cluster, c': Cluster, i: NodeId)
    requires i in c.nodes
  {
    && OnlyTouched(c, c', {i})
    && CommitRecord(c.nodes[i].currentTerm, c.nodes[i].log) in c'.history.committed
    && AppliedAll(c', i, c.nodes[i].log)
    && Member(c', i) && c'.nodes[i].role == Leader && c'.nodes[i].log == c.nodes[i].log
    && c'.nodes[i].currentTerm == c.nodes[i].currentTerm
  }

  /** With majority two, one reply commits and applies the leader's whole log. */
  lemma CommitsOnOne(c: Cluster, i: NodeId, p: NodeId, r: AppendEntriesRequest, index: nat, allowed: Allowed)
    returns (c': Cluster)
    requires AwaitsAcks(c, i) && Majority(c.peers) == 2
    requires index == LastIndex(c.nodes[i].log) && AckComing(c, i, p, r, index, allowed)
    ensures Reaches(c, c', allowed) && CommittedAll(c, c', i)
  {
    NoneCounted(c.peers, i, index);
    TrackingLookup(c.peers, i, 0, p);
    CountRaised(c.nodes[i].matchIndex, p, index, index);
    ReplyPermitted(c, i, p, r, index, allowed);
    c' := CommitsOnReply(c, i, p, r, index, allowed);
  }

  lemma FirstOfTwo(c: Cluster, i: NodeId, p: NodeId, r: AppendEntriesRequest, index: nat, allowed: Allowed)
    returns (c': Cluster)
    requires AwaitsAcks(c, i) && Majority(c.peers) == 3
    requires index == LastIndex(c.nodes[i].log) && AckComing(c, i, p, r, index, allowed)
    ensures Reaches(c, c', allowed) && OnlyTouched(c, c', {i}) && c'.nodes[i] == Tracked(c.nodes[i], p, index)
    ensures CountAtLeast(c'.nodes[i].matchIndex, index) == 1
  {
    NoneCounted(c.peers, i, index);
    TrackingLookup(c.peers, i, 0, p);
    CountRaised(c.nodes[i].matchIndex, p, index, index);
    ReplyPermitted(c, i, p, r, index, allowed);
    c' := Counts(c, i, p, r, index, allowed);
  }

  /** With majority three, two replies do. */
  lemma CommitsOnTwo(c: Cluster, i: NodeId, p: NodeId, r: AppendEntriesRequest, q: NodeId, r': AppendEntriesRequest,
                     index: nat, allowed: Allowed)
    returns (c': Cluster)
    requires AwaitsAcks(c, i) && Majority(c.peers) == 3 && p != q
    requires index == LastIndex(c.nodes[i].log)
    requires AckComing(c, i, p, r, index, allowed) && AckComing(c, i, q, r', index, allowed)
    ensures Reaches(c, c', allowed) && CommittedAll(c, c', i)
  {
    var c1 := FirstOfTwo(c, i, p, r, index, allowed);
    TrackingLookup(c.peers, i, 0, q);
    LookupSetOther(c.nodes[i].matchIndex, p, index, q);
    CountRaised(c1.nodes[i].matchIndex, q, index, index);
    ReplyPermitted(c1, i, q, r', index, allowed);
    c' := CommitsOnReply(c1, i, q, r', index, allowed);
    Extends(c, c1, c', {i}, {i}, allowed);
    assert {i} + {i} == {i};
  }

  lemma ReachesDurable(c: Cluster, c': Cluster, allowed: Allowed)
    requires Reaches(c, c', allowed) && AllDurable(c)
    ensures AllDurable(c')
  {
    var events: seq<Event> :| Leads(c, events, c', allowed);
    RunKeepsDurable(c, events);
  }

  /** A restart keeps term and log and makes the node a follower that has committed nothing. */
  lemma Restarts(c: Cluster, i: NodeId, allowed: Allowed) returns (c': Cluster)
    requires Member(c, i) && AllDurable(c)
    ensures Reaches(c, c', allowed) && OnlyTouched(c, c', {i}) && Member(c', i)
    ensures c'.nodes[i].role == Follower && c'.nodes[i].currentTerm == c.nodes[i].currentTerm
    ensures c'.nodes[i].log == c.nodes[i].log && c'.nodes[i].commitIndex == 0 && c'.nodes[i].lastApplied == 0
  {
    RestartResetsVolatile(c.nodes[i]);
    c' := Take(c, i, Restart, allowed);
  }

  /** A leader takes a rejection that hints at the end of the follower's log. */
  lemma TakesHint(c: Cluster, i: NodeId, p: NodeId, r: AppendEntriesRequest, index: nat, allowed: Allowed)
    returns (c': Cluster)
    requires Member(c, i) && c.nodes[i].role == Leader && r.term <= c.nodes[i].currentTerm && r.leaderId == i
    requires ReplyEnvelope(p, r, false, index) in c.network
    ensures Reaches(c, c', allowed) && OnlyTouched(c, c', {i})
    ensures c'.nodes[i] == c.nodes[i].(nextIndex := SetFirst(c.nodes[i].nextIndex, p, index + 1))
  {
    c' := Take(c, i, Deliver(ReplyEnvelope(p, r, false, index)), allowed);
  }

  /** A node that hears of a later candidacy it will not support steps down into that term. */
  lemma StepsDown(c: Cluster, p: NodeId, m: Envelope, allowed: Allowed) returns (c': Cluster)
    requires m in c.network && m.to == p && Member(c, p) && m.body.RequestVote?
    requires m.body.voteRequest.term > c.nodes[p].currentTerm
    ensures Reaches(c, c', allowed) && OnlyTouched(c, c', {p})
    ensures SameData(c.nodes[p], c'.nodes[p])
    ensures c'.nodes[p].role == Follower && c'.nodes[p].currentTerm == m.body.voteRequest.term
  {
    c' := Take(c, p, Deliver(m), allowed);
  }

  /** A new leader with entries learns from a peer with an empty log to start from the beginning. */
  lemma LearnsEmpty(c: Cluster, i: NodeId, p: NodeId, term: nat, log: Log, allowed: Allowed) returns (c': Cluster)
    requires JustElected(c, i, term, log) && |log| >= 2 && LastTerm(log) >= 1
    requires Member(c, p) && p in c.peers && p != i && c.nodes[p].currentTerm <= term && c.nodes[p].log == EMPTY_LOG
    ensures Reaches(c, c', allowed) && OnlyTouched(c, c', {i, p})
    ensures c'.nodes[i] == c.nodes[i].(nextIndex := SetFirst(c.nodes[i].nextIndex, p, 1))
    ensures Lookup(c'.nodes[i].nextIndex, p) == Some(1)
    ensures SameData(c.nodes[p], c'.nodes[p]) && c'.nodes[p].currentTerm == term
  {
    var m := AppendEnvelope(c.nodes[i], p, |log|);
    var c1 := Rejects(c, p, m, allowed);
    c' := TakesHint(c1, i, p, m.body.appendRequest, 0, allowed);
    TrackingLookup(c.peers, i, |log|, p);
    LookupSetFirst(c.nodes[i].nextIndex, p, 1);
    Extends(c, c1, c', {p}, {i}, allowed);
    assert {p} + {i} == {i, p};
  }
}
