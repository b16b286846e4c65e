/** Replication in runs: a leader that only ticks brings a follower it can reconcile to its own
    log, commit index and applied commands, by deliveries none of which is a hazard. */
module Convergence {
  import opened RaftTypes
  import opened RaftLogs
  import opened RaftSpec
  import opened RaftCluster
  import opened RaftFacts
  import opened ElectionSafety
  import opened CommitSteps
  import opened LeaderCompleteness
  import opened NodeDuties
  import opened CatchUp
  import opened BackOff
  import opened RunTools

  // ---- Runs without proposals ----

  ghost predicate Quietly(c: Cluster, events: seq<Event>, c': Cluster) {
    && RunPermitted(c, events, NOTHING) && Exec(c, events) == c'
    && forall e | e in events :: !e.input.Propose? && !e.input.Restart?
  }

  /** Some permitted run of ticks and deliveries leads from c to c', and only these nodes take part. */
  ghost predicate Settles(c: Cluster, c': Cluster, among: set<NodeId>) {
    OnlyTouched(c, c', among) && exists events: seq<Event> :: Quietly(c, events, c')
  }

  lemma SettlesTrans(a: Cluster, b: Cluster, c: Cluster, among: set<NodeId>)
    requires Settles(a, b, among) && Settles(b, c, among)
    ensures Settles(a, c, among)
  {
    var xs: seq<Event> :| Quietly(a, xs, b);
    var ys: seq<Event> :| Quietly(b, ys, c);
    ExecConcat(a, xs, ys);
    RunPermittedConcat(a, xs, ys, NOTHING);
    assert Quietly(a, xs + ys, c);
    TouchedTrans(a, b, c, among, among);
    assert among + among == among;
  }

  lemma SettlesSelf(c: Cluster, among: set<NodeId>)
    ensures Settles(c, c, among)
  {
    assert Quietly(c, [], c);
  }

  lemma SettlesStep(c: Cluster, e: Event, among: set<NodeId>)
    requires Enabled(c, e) && Permitted(c, e, NOTHING) && e.node in among
    requires !e.input.Propose? && !e.input.Restart?
    ensures Settles(c, Step(c, e), among)
    ensures Step(c, e).nodes == c.nodes[e.node := NodeStep(c.nodes[e.node], e.input).node]
    ensures Outbox(e.node, NodeStep(c.nodes[e.node], e.input).actions, Answered(e.input)) <= Step(c, e).network
  {
    var c' := Step(c, e);
    assert [e][1..] == [];
    assert Exec(c', []) == c' && RunPermitted(c', [], NOTHING);
    assert Quietly(c, [e], c');
  }

  // ---- One round in a run ----

  lemma {:induction false} TicksInRun(c: Cluster, i: NodeId, k: nat, among: set<NodeId>) returns (c': Cluster)
    requires i in c.nodes && i in among
    ensures Settles(c, c', among) && c'.nodes == c.nodes[i := AfterTicks(c.nodes[i], k)]
    decreases k
  {
    if k == 0 {
      c' := c;
      SettlesSelf(c, among);
    } else {
      var c1 := Step(c, Event(i, Tick));
      SettlesStep(c, Event(i, Tick), among);
      c' := TicksInRun(c1, i, k - 1, among);
      SettlesTrans(c, c1, c', among);
    }
  }

  /** The leader after its heartbeat: only its timers have changed. */
  function Beaten(s: NodeState): NodeState {
    s.(timers := s.timers.(heartbeat := HEARTBEAT_INTERVAL))
  }

  /** Ticks alone put the request a peer's next_index calls for on the network. */
  lemma HeartbeatInRun(c: Cluster, i: NodeId, j: NodeId, next: nat, among: set<NodeId>) returns (c': Cluster)
    requires Member(c, i) && i in among && c.nodes[i].role == Leader && j in c.peers && j != i
    requires Lookup(c.nodes[i].nextIndex, j) == Some(next)
    ensures Settles(c, c', among) && c'.nodes == c.nodes[i := Beaten(c.nodes[i])]
    ensures AppendEnvelope(Beaten(c.nodes[i]), j, next) in c'.network
  {
    var s := c.nodes[i];
    var k := Due(s.timers.heartbeat) - 1;
    var c1 := TicksInRun(c, i, k, among);
    var a := SendAppendEntries(j, AppendRequestFor(s, next));
    HeartbeatSent(s, a);
    c' := Step(c1, Event(i, Tick));
    SettlesStep(c1, Event(i, Tick), among);
    SettlesTrans(c, c1, c', among);
    assert a in NodeStep(AfterTicks(s, k), Tick).actions;
    assert ToEnvelope(i, a, None) == AppendEnvelope(Beaten(s), j, next);
  }

  /** The reply a follower gives to a request, as an envelope. */
  lemma ReplySent(c: Cluster, j: NodeId, m: Envelope, reply: AppendEntriesResponse, among: set<NodeId>)
    returns (c': Cluster)
    requires m in c.network && m.to == j && j in c.nodes && j in among && m.body.AppendEntries?
    requires !PassesPastEnd(c, m)
    requires ReplyIn(HandleAppendEntries(c.nodes[j], m.body.appendRequest).actions) == Some(reply)
    requires RepliesTo(HandleAppendEntries(c.nodes[j], m.body.appendRequest).actions, m.body.appendRequest.leaderId)
    ensures Settles(c, c', among)
    ensures c'.nodes == c.nodes[j := HandleAppendEntries(c.nodes[j], m.body.appendRequest).node]
    ensures Envelope(j, m.body.appendRequest.leaderId, AppendResponse(reply), Some(m.body.appendRequest)) in c'.network
  {
    var r := m.body.appendRequest;
    var o := HandleAppendEntries(c.nodes[j], r);
    c' := Step(c, Event(j, Deliver(m)));
    SettlesStep(c, Event(j, Deliver(m)), among);
    var a := o.actions[|o.actions| - 1];
    assert a in o.actions;
    assert ToEnvelope(j, a, Some(r)) == Envelope(j, r.leaderId, AppendResponse(reply), Some(r));
  }

  /** The last action is a reply to this node. */
  predicate RepliesTo(actions: seq<Action>, to: NodeId) {
    actions != [] && actions[|actions| - 1].SendAppendEntriesResponse? && actions[|actions| - 1].to == to
  }

  lemma AlwaysReplies(s: NodeState, r: AppendEntriesRequest)
    ensures RepliesTo(HandleAppendEntries(s, r).actions, r.leaderId)
    ensures ReplyIn(HandleAppendEntries(s, r).actions).Some?
  {
  }

  /** A reply that claims no more than the request covered is never a hazard to its sender's leader. */
  lemma HonestReplyPermitted(c: Cluster, i: NodeId, j: NodeId, r: AppendEntriesRequest, reply: AppendEntriesResponse)
    requires i in c.nodes && r.leaderId == i && reply.term >= c.nodes[i].currentTerm
    requires reply.success && reply.matchIndex.Some? ==> reply.matchIndex.value <= r.prevLogIndex + |r.entries|
    ensures Permitted(c, Event(i, Deliver(Envelope(j, i, AppendResponse(reply), Some(r)))), NOTHING)
  {
  }

  /** A request is answered, and the answer is on the network. */
  lemma RequestInRun(c: Cluster, i: NodeId, j: NodeId, next: nat, reply: AppendEntriesResponse) returns (c': Cluster)
    requires Member(c, i) && Member(c, j) && i != j && j in c.peers && c.nodes[i].role == Leader
    requires Lookup(c.nodes[i].nextIndex, j) == Some(next)
    requires var r := AppendRequestFor(Beaten(c.nodes[i]), next);
             !PastEnd(r) && ReplyIn(HandleAppendEntries(c.nodes[j], r).actions) == Some(reply)
    ensures Settles(c, c', {i, j})
    ensures var r := AppendRequestFor(Beaten(c.nodes[i]), next);
            && c'.nodes == c.nodes[i := Beaten(c.nodes[i])][j := HandleAppendEntries(c.nodes[j], r).node]
            && Envelope(j, i, AppendResponse(reply), Some(r)) in c'.network
  {
    var s := Beaten(c.nodes[i]);
    var c1 := HeartbeatInRun(c, i, j, next, {i, j});
    AlwaysReplies(c.nodes[j], AppendRequestFor(s, next));
    c' := ReplySent(c1, j, AppendEnvelope(s, j, next), reply, {i, j});
    SettlesTrans(c, c1, c', {i, j});
  }

  /** One round of a leader and a peer, carried out by ticks and deliveries. */
  lemma RoundInRun(c: Cluster, i: NodeId, j: NodeId, next: nat, reply: AppendEntriesResponse) returns (c': Cluster)
    requires Member(c, i) && Member(c, j) && i != j && j in c.peers && c.nodes[i].role == Leader
    requires Lookup(c.nodes[i].nextIndex, j) == Some(next)
    requires var r := AppendRequestFor(Beaten(c.nodes[i]), next);
             && !PastEnd(r) && reply.term == r.term
             && ReplyIn(HandleAppendEntries(c.nodes[j], r).actions) == Some(reply)
             && (reply.success && reply.matchIndex.Some? ==> reply.matchIndex.value <= r.prevLogIndex + |r.entries|)
    ensures Settles(c, c', {i, j})
    ensures var p := Round(Pair(Beaten(c.nodes[i]), c.nodes[j]));
            c'.nodes == c.nodes[i := p.leader][j := p.follower]
  {
    var c1 := RequestInRun(c, i, j, next, reply);
    c' := ReplyTaken(c1, i, j, AppendRequestFor(Beaten(c.nodes[i]), next), reply);
    SettlesTrans(c, c1, c', {i, j});
    RoundSteps(Pair(Beaten(c.nodes[i]), c.nodes[j]), next, reply);
  }

  lemma ReplyTaken(c: Cluster, i: NodeId, j: NodeId, r: AppendEntriesRequest, reply: AppendEntriesResponse)
    returns (c': Cluster)
    requires i in c.nodes && r.leaderId == i && reply.term >= c.nodes[i].currentTerm
    requires reply.success && reply.matchIndex.Some? ==> reply.matchIndex.value <= r.prevLogIndex + |r.entries|
    requires Envelope(j, i, AppendResponse(reply), Some(r)) in c.network
    ensures Settles(c, c', {i, j})
    ensures c'.nodes == c.nodes[i := HandleAppendEntriesResponse(c.nodes[i], j, reply).node]
  {
    var back := Envelope(j, i, AppendResponse(reply), Some(r));
    HonestReplyPermitted(c, i, j, r, reply);
    c' := Step(c, Event(i, Deliver(back)));
    SettlesStep(c, Event(i, Deliver(back)), {i, j});
  }

  // ---- What the rounds bring ----

  /** Leader i and peer j stand as CatchUp needs them, with next_index inside the leader's log. */
  ghost predicate PairAt(c: Cluster, i: NodeId, j: NodeId, next: nat) {
    && Member(c, i) && Member(c, j) && i != j && j in c.peers
    && Tracks(Pair(c.nodes[i], c.nodes[j]), next) && next <= |c.nodes[i].log|
    && c.nodes[i].commitIndex < |c.nodes[i].log|
    && c.nodes[i].lastApplied == c.nodes[i].commitIndex && c.nodes[j].lastApplied == c.nodes[j].commitIndex
  }

  /** Every committable index is committed. */
  ghost predicate AllCommitted(s: NodeState) {
    forall k | s.commitIndex < k <= LastIndex(s.log) :: !Committable(s, k)
  }

  lemma AdvanceCommitsAll(s: NodeState)
    requires s.commitIndex == s.lastApplied && s.commitIndex <= LastIndex(s.log)
    ensures var s' := AdvanceCommit(s).node;
            && AllCommitted(s') && s' == s.(commitIndex := s'.commitIndex, lastApplied := s'.lastApplied)
            && s'.lastApplied == s'.commitIndex && s.commitIndex <= s'.commitIndex <= LastIndex(s.log)
            && (AllCommitted(s) ==> s' == s)
  {
    CommitScanFacts(s, LastIndex(s.log));
    var s' := AdvanceCommit(s).node;
    forall k | s'.commitIndex < k <= LastIndex(s'.log) ensures !Committable(s', k) {
      assert Committable(s', k) <==> Committable(s, k);
    }
  }

  /** What a success reply of its term does to a leader. */
  ghost predicate LeaderTook(s: NodeState, s': NodeState, from: NodeId, index: nat) {
    && AllCommitted(s') && s'.lastApplied == s'.commitIndex && s.commitIndex <= s'.commitIndex <= LastIndex(s.log)
    && s'.id == s.id && s'.peers == s.peers && s'.log == s.log && s'.role == Leader
    && s'.currentTerm == s.currentTerm
    && Lookup(s'.nextIndex, from) == Some(index + 1) && Lookup(s'.matchIndex, from) == Some(index)
    && (AllCommitted(s) && Lookup(s.matchIndex, from) == Some(index) ==> s'.commitIndex == s.commitIndex)
  }

  lemma LeaderTakes(s: NodeState, from: NodeId, index: nat)
    requires s.role == Leader && s.commitIndex == s.lastApplied && s.commitIndex <= LastIndex(s.log)
    requires Lookup(s.nextIndex, from).Some? && Lookup(s.matchIndex, from).Some?
    ensures var reply := AppendEntriesResponse(s.currentTerm, true, Some(index));
            LeaderTook(s, HandleAppendEntriesResponse(s, from, reply).node, from, index)
  {
    var s1 := s.(matchIndex := SetFirst(s.matchIndex, from, index),
                 nextIndex := SetFirst(s.nextIndex, from, index + 1));
    LookupSetFirst(s.nextIndex, from, index + 1);
    LookupSetFirst(s.matchIndex, from, index);
    AdvanceCommitsAll(s1);
    if AllCommitted(s) && Lookup(s.matchIndex, from) == Some(index) {
      SetFirstSame(s.matchIndex, from, index);
      assert AllCommitted(s1) by {
        forall k | s1.commitIndex < k <= LastIndex(s1.log) ensures !Committable(s1, k) {
          assert Committable(s1, k) <==> Committable(s, k);
        }
      }
    }
  }

  lemma {:induction false} SetFirstSame(pairs: seq<(NodeId, nat)>, id: NodeId, value: nat)
    requires Lookup(pairs, id) == Some(value)
    ensures SetFirst(pairs, id, value) == pairs
  {
    if pairs[0].0 != id {
      SetFirstSame(pairs[1..], id, value);
    }
  }

  /** What a passing round does to both, the follower's log becoming the leader's. */
  ghost predicate Completed(s: NodeState, f: NodeState, s': NodeState, f': NodeState) {
    && s'.id == s.id && s'.peers == s.peers && s'.role == Leader && s'.currentTerm == s.currentTerm && s'.log == s.log
    && f'.id == f.id && f'.peers == f.peers && f'.currentTerm == s.currentTerm && f'.log == s.log
    && s'.lastApplied == s'.commitIndex && s.commitIndex <= s'.commitIndex <= LastIndex(s.log) && AllCommitted(s')
    && f'.lastApplied == f'.commitIndex && f'.commitIndex == Max(f.commitIndex, s.commitIndex)
    && Lookup(s'.nextIndex, f.id) == Some(|s.log|) && Lookup(s'.matchIndex, f.id) == Some(|s.log| - 1)
    && (AllCommitted(s) && Lookup(s.matchIndex, f.id) == Some(|s.log| - 1) ==> s'.commitIndex == s.commitIndex)
  }

  /** What a request that completes its log does to a follower. */
  ghost predicate FollowerTook(s: NodeState, f: NodeState, o: Outcome) {
    && o.node.id == f.id && o.node.peers == f.peers && o.node.log == s.log && o.node.currentTerm == s.currentTerm
    && o.node.lastApplied == o.node.commitIndex && o.node.commitIndex == Max(f.commitIndex, s.commitIndex)
    && ReplyIn(o.actions) == Some(AppendEntriesResponse(s.currentTerm, true, Some(|s.log| - 1)))
  }

  lemma FollowerKeepsName(s: NodeState, r: AppendEntriesRequest)
    ensures HandleAppendEntries(s, r).node.id == s.id && HandleAppendEntries(s, r).node.peers == s.peers
  {
  }

  lemma FollowerTakes(s: NodeState, f: NodeState, r: AppendEntriesRequest, o: Outcome)
    requires FollowsCommitOf(f, r, o) && s.commitIndex <= LastIndex(s.log) && f.lastApplied == f.commitIndex
    requires r.leaderCommit == s.commitIndex && r.term == s.currentTerm
    requires o.node.id == f.id && o.node.peers == f.peers && o.node.log == s.log && o.node.currentTerm == s.currentTerm
    ensures FollowerTook(s, f, o)
  {
  }

  lemma FollowerCompletes(s: NodeState, f: NodeState, next: nat)
    requires s.commitIndex <= LastIndex(s.log) && f.lastApplied == f.commitIndex && f.currentTerm <= s.currentTerm
    requires 1 <= next <= |f.log| && next <= |s.log| && f.log[next - 1].term == s.log[next - 1].term
    requires Merged(f.log, next, s.log[next..]) == s.log
    ensures FollowerTook(s, f, HandleAppendEntries(f, AppendRequestFor(s, next)))
  {
    var r := AppendRequestFor(s, next);
    InsideRequest(Pair(s, f), next);
    FollowerOutcome(f, r);
    FollowerCommits(f, r);
    FollowerKeepsName(f, r);
    FollowerTakes(s, f, r, HandleAppendEntries(f, r));
  }

  lemma BothTook(s: NodeState, f: NodeState, s': NodeState, o: Outcome)
    requires LeaderTook(s, s', f.id, |s.log| - 1) && FollowerTook(s, f, o)
    ensures Completed(s, f, s', o.node)
  {
  }

  /** A round that passes. */
  lemma RoundCompletes(s: NodeState, f: NodeState, next: nat)
    requires s.role == Leader && f.currentTerm <= s.currentTerm && 1 <= next <= |f.log| && next <= |s.log|
    requires Lookup(s.nextIndex, f.id) == Some(next) && Lookup(s.matchIndex, f.id).Some?
    requires s.commitIndex < |s.log| && s.lastApplied == s.commitIndex && f.lastApplied == f.commitIndex
    requires f.log[next - 1].term == s.log[next - 1].term && Merged(f.log, next, s.log[next..]) == s.log
    ensures Completed(s, f, Round(Pair(s, f)).leader, Round(Pair(s, f)).follower)
    ensures ReplyIn(HandleAppendEntries(f, AppendRequestFor(s, next)).actions)
         == Some(AppendEntriesResponse(s.currentTerm, true, Some(|s.log| - 1)))
  {
    var reply := AppendEntriesResponse(s.currentTerm, true, Some(|s.log| - 1));
    FollowerCompletes(s, f, next);
    LeaderTakes(s, f.id, |s.log| - 1);
    RoundIs(s, f, next, reply, HandleAppendEntriesResponse(s, f.id, reply).node,
            HandleAppendEntries(f, AppendRequestFor(s, next)));
  }

  lemma RoundIs(s: NodeState, f: NodeState, next: nat, reply: AppendEntriesResponse, s': NodeState, o: Outcome)
    requires Lookup(s.nextIndex, f.id) == Some(next) && o == HandleAppendEntries(f, AppendRequestFor(s, next))
    requires ReplyIn(o.actions) == Some(reply) && s' == HandleAppendEntriesResponse(s, f.id, reply).node
    requires LeaderTook(s, s', f.id, |s.log| - 1) && FollowerTook(s, f, o)
    ensures Completed(s, f, Round(Pair(s, f)).leader, Round(Pair(s, f)).follower)
  {
    RoundSteps(Pair(s, f), next, reply);
    BothTook(s, f, s', o);
  }

  lemma BeatenCommitted(s: NodeState)
    ensures AllCommitted(Beaten(s)) <==> AllCommitted(s)
  {
    assert forall k: nat :: Committable(Beaten(s), k) <==> Committable(s, k);
  }

  lemma InsideIsHonest(s: NodeState, next: nat)
    requires RealTerms(s.log) && 1 <= next <= |s.log|
    ensures var r := AppendRequestFor(s, next);
            !PastEnd(r) && r.term == s.currentTerm && r.prevLogIndex + |r.entries| == |s.log| - 1
  {
  }

  /** ... in a run. */
  lemma CompleteInRun(c: Cluster, i: NodeId, j: NodeId, next: nat) returns (c': Cluster)
    requires PairAt(c, i, j, next) && next <= |c.nodes[j].log|
    requires c.nodes[j].log[next - 1].term == c.nodes[i].log[next - 1].term
    requires Merged(c.nodes[j].log, next, c.nodes[i].log[next..]) == c.nodes[i].log
    ensures Settles(c, c', {i, j}) && PairAt(c', i, j, |c.nodes[i].log|)
    ensures Completed(c.nodes[i], c.nodes[j], c'.nodes[i], c'.nodes[j])
  {
    var s, f := Beaten(c.nodes[i]), c.nodes[j];
    assert Tracks(Pair(s, f), next);
    InsideIsHonest(s, next);
    RoundCompletes(s, f, next);
    c' := RoundInRun(c, i, j, next, AppendEntriesResponse(s.currentTerm, true, Some(|s.log| - 1)));
    CompletedBeaten(c.nodes[i], f, c'.nodes[i], c'.nodes[j]);
    CompletedPair(c, c', i, j, s, f);
  }

  lemma CompletedBeaten(s: NodeState, f: NodeState, s': NodeState, f': NodeState)
    requires Completed(Beaten(s), f, s', f')
    ensures Completed(s, f, s', f')
  {
    BeatenCommitted(s);
  }

  /** Both ends of a completed round, put together. */
  lemma CompletedPair(c: Cluster, c': Cluster, i: NodeId, j: NodeId, s: NodeState, f: NodeState)
    requires i in c.nodes && j in c.nodes && i != j && j in c.peers && c'.peers == c.peers
    requires i in c'.nodes && j in c'.nodes && s.id == i && f.id == j && s.peers == c.peers && f.peers == c.peers
    requires RealTerms(s.log) && s.commitIndex < |s.log| && Completed(s, f, c'.nodes[i], c'.nodes[j])
    ensures PairAt(c', i, j, |s.log|)
  {
    PrefixMatches(s.log, s.log);
  }

  /** A round that only finds the end of a lagging follower's log, in a run. */
  lemma RejectInRun(c: Cluster, i: NodeId, j: NodeId, next: nat) returns (c': Cluster)
    requires PairAt(c, i, j, next) && c.nodes[j].log <= c.nodes[i].log && next > |c.nodes[j].log|
    ensures Settles(c, c', {i, j}) && PairAt(c', i, j, |c.nodes[j].log|)
    ensures c'.nodes[i].log == c.nodes[i].log && c'.nodes[i].commitIndex == c.nodes[i].commitIndex
    ensures c'.nodes[i].currentTerm == c.nodes[i].currentTerm
    ensures c'.nodes[j].log == c.nodes[j].log && c'.nodes[j].commitIndex == c.nodes[j].commitIndex
  {
    var s, f := Beaten(c.nodes[i]), c.nodes[j];
    var r := AppendRequestFor(s, next);
    assert Tracks(Pair(s, f), next);
    InsideIsHonest(s, next);
    assert TermAt(f.log, r.prevLogIndex) != r.prevLogTerm;
    RejectedOutcome(f, r);
    RejectedRound(Pair(s, f), next);
    RejectedKeeps(s, f, next);
    c' := RoundInRun(c, i, j, next, AppendEntriesResponse(s.currentTerm, false, Some(LastIndex(f.log))));
  }

  lemma RejectedKeeps(s: NodeState, f: NodeState, next: nat)
    requires s.role == Leader && f.currentTerm <= s.currentTerm && Lookup(s.nextIndex, f.id) == Some(next)
    requires var r := AppendRequestFor(s, next); TermAt(f.log, r.prevLogIndex) != r.prevLogTerm
    ensures var p := Round(Pair(s, f));
            && p.leader == s.(nextIndex := p.leader.nextIndex)
            && p.follower.id == f.id && p.follower.peers == f.peers
            && p.follower.commitIndex == f.commitIndex && p.follower.lastApplied == f.lastApplied
  {
    var r := AppendRequestFor(s, next);
    RejectedOutcome(f, r);
    RoundSteps(Pair(s, f), next, AppendEntriesResponse(r.term, false, Some(LastIndex(f.log))));
  }

  // ---- The theorem ----

  /** The follower holds the leader's log, has committed and applied what the leader has (or
      more, if it had), and nobody else has moved. */
  ghost predicate ServesLike(c: Cluster, c': Cluster, i: NodeId, j: NodeId)
    requires i in c.nodes && j in c.nodes
  {
    && Settles(c, c', {i, j}) && i in c'.nodes && j in c'.nodes
    && c'.nodes[i].role == Leader && c'.nodes[i].currentTerm == c.nodes[i].currentTerm
    && c'.nodes[i].log == c.nodes[i].log && c'.nodes[j].log == c.nodes[i].log
    && c.nodes[i].commitIndex <= c'.nodes[i].commitIndex
    && c'.nodes[i].lastApplied == c'.nodes[i].commitIndex
    && c'.nodes[j].lastApplied == c'.nodes[j].commitIndex
    && c'.nodes[j].commitIndex == Max(c.nodes[j].commitIndex, c'.nodes[i].commitIndex)
  }

  /** From a next_index that passes: one round for the log, one more for the commit index. */
  lemma PassingConverges(c: Cluster, i: NodeId, j: NodeId, next: nat) returns (c': Cluster)
    requires PairAt(c, i, j, next) && next <= |c.nodes[j].log|
    requires c.nodes[j].log[next - 1].term == c.nodes[i].log[next - 1].term
    requires Merged(c.nodes[j].log, next, c.nodes[i].log[next..]) == c.nodes[i].log
    ensures ServesLike(c, c', i, j)
  {
    var log := c.nodes[i].log;
    var c1 := CompleteInRun(c, i, j, next);
    assert log[|log|..] == [];
    c' := CompleteInRun(c1, i, j, |log|);
    SettlesTrans(c, c1, c', {i, j});
  }

  lemma ReconcilableMerges(f: Log, l: Log, next: nat)
    requires RealTerms(f) && RealTerms(l) && Matching(f, l) && 1 <= next <= |f| && next <= |l|
    requires f[next - 1].term == l[next - 1].term && (f <= l || !(l <= f))
    ensures Merged(f, next, l[next..]) == l
  {
    DivergedCompletes(f, l, next);
  }

  lemma PairConverges(c: Cluster, i: NodeId, j: NodeId, next: nat) returns (c': Cluster)
    requires PairAt(c, i, j, next) && Reconciles(Pair(c.nodes[i], c.nodes[j]), next)
    ensures ServesLike(c, c', i, j)
  {
    var f, l := c.nodes[j].log, c.nodes[i].log;
    if next <= |f| {
      ReconcilableMerges(f, l, next);
      c' := PassingConverges(c, i, j, next);
    } else {
      var c1 := RejectInRun(c, i, j, next);
      ReconcilableMerges(f, l, |f|);
      c' := PassingConverges(c1, i, j, |f|);
      SettlesTrans(c, c1, c', {i, j});
    }
  }

  /** In every state of every permitted run, for every leader and every peer of no higher term
      that can be reconciled: a permitted run of ticks and deliveries between the two leads to a
      state in which the peer serves like the leader. */
  lemma ConvergenceTheorem(peers: seq<NodeId>, events: seq<Event>, i: NodeId, j: NodeId, next: nat)
    returns (c': Cluster)
    requires NoDuplicates(peers) && RunPermitted(Initial(peers), events, NOTHING)
    requires var c := Exec(Initial(peers), events);
             && i in c.nodes && j in c.nodes && i != j && c.nodes[i].role == Leader
             && c.nodes[j].currentTerm <= c.nodes[i].currentTerm
             && Lookup(c.nodes[i].nextIndex, j) == Some(next) && 1 <= next <= |c.nodes[i].log|
             && Reconciles(Pair(c.nodes[i], c.nodes[j]), next)
    ensures ServesLike(Exec(Initial(peers), events), c', i, j)
  {
    var c := Exec(Initial(peers), events);
    SafetyInvInitial(peers);
    SafetyInvRun(Initial(peers), events);
    RunTracks(Initial(peers), events);
    ReachedPair(c, i, j, next);
    c' := PairConverges(c, i, j, next);
  }

  lemma ReachedPair(c: Cluster, i: NodeId, j: NodeId, next: nat)
    requires SafetyInv(c) && i in c.nodes && j in c.nodes && i != j && TracksOthers(c.nodes[i])
    requires c.nodes[i].role == Leader && c.nodes[j].currentTerm <= c.nodes[i].currentTerm
    requires Lookup(c.nodes[i].nextIndex, j) == Some(next) && next <= |c.nodes[i].log|
    ensures PairAt(c, i, j, next)
  {
    var n := PairTracks(c, i, j);
    assert CommitOk(c, i) && CommitOk(c, j);
    assert NodeOk(c, i) && NodeOk(c, j);
  }
}
