/** What a node owes on each input, said from the fields of the message and of the node: when a
    vote is granted, what a follower commits and applies, who hears from a leader's ticks, and
    how long a node keeps quiet. */
module NodeDuties {
  import opened RaftTypes
  import opened RaftLogs
  import opened RaftSpec
  import opened RaftCluster
  import opened RaftFacts
  import opened LogMatching
  import opened ApplyOrder

  // ---- Votes ----

  /** A vote is granted exactly to a candidate of no older term, for whom the voter is free in
      that term, and whose log ends in a later term, or in the same term at no earlier index. */
  lemma VoteGrantedExactly(s: NodeState, r: RequestVoteRequest)
    ensures var o := HandleRequestVote(s, r);
            var granted :=
              && r.term >= s.currentTerm
              && (r.term > s.currentTerm || s.votedFor == None || s.votedFor == Some(r.candidateId))
              && (|| r.lastLogTerm > s.log[|s.log| - 1].term
                  || (r.lastLogTerm == s.log[|s.log| - 1].term && r.lastLogIndex >= |s.log| - 1));
            && o.actions == [SendRequestVoteResponse(r.candidateId, RequestVoteResponse(o.node.currentTerm, granted))]
            && o.node.currentTerm == (if r.term > s.currentTerm then r.term else s.currentTerm)
            && o.node.votedFor == (if granted then Some(r.candidateId)
                                   else if r.term > s.currentTerm then None else s.votedFor)
            && (granted ==> ELECTION_TIMEOUT_MIN <= o.node.timers.election < ELECTION_TIMEOUT_MAX)
            && (r.term == s.currentTerm ==> o.node.role == s.role)
            && o.node.log == s.log && o.node.commitIndex == s.commitIndex && o.node.lastApplied == s.lastApplied
  {
  }

  /** The log of a would be voted for by the holder of b. */
  predicate AtLeastAs(a: Log, b: Log) {
    UpToDate(LastTerm(a), LastIndex(a), b)
  }

  /** The election restriction is a total preorder on logs, and a longer log of the same history
      is never behind. */
  lemma ElectionOrder(a: Log, b: Log, c: Log)
    ensures AtLeastAs(a, a)
    ensures AtLeastAs(a, b) || AtLeastAs(b, a)
    ensures AtLeastAs(a, b) && AtLeastAs(b, c) ==> AtLeastAs(a, c)
    ensures AtLeastAs(a, b) && AtLeastAs(b, a) ==> LastTerm(a) == LastTerm(b) && |a| == |b|
    ensures Ascending(a) && b <= a ==> AtLeastAs(a, b)
  {
    if Ascending(a) && b <= a {
      assert a[|b| - 1].term <= a[|a| - 1].term;
    }
  }

  /** In any group of nodes there is one for whose log all of them would vote. */
  lemma {:induction false} ElectableExists(logs: seq<Log>) returns (best: nat)
    requires logs != []
    ensures best < |logs| && forall k | 0 <= k < |logs| :: AtLeastAs(logs[best], logs[k])
  {
    best := 0;
    if |logs| == 1 {
      ElectionOrder(logs[0], logs[0], logs[0]);
    } else {
      var rest := logs[1..];
      var b := ElectableExists(rest);
      ElectionOrder(logs[0], rest[b], rest[b]);
      ElectionOrder(rest[b], logs[0], logs[0]);
      if AtLeastAs(rest[b], logs[0]) {
        best := b + 1;
        forall k | 0 <= k < |logs| ensures AtLeastAs(logs[best], logs[k]) {
          assert k > 0 ==> logs[k] == rest[k - 1];
        }
      } else {
        forall k | 0 <= k < |logs| ensures AtLeastAs(logs[0], logs[k]) {
          if k > 0 {
            assert logs[k] == rest[k - 1];
          }
          ElectionOrder(logs[0], rest[b], logs[k]);
        }
      }
    }
  }

  // ---- A follower commits and applies ----

  function Min(a: nat, b: nat): nat { if a < b then a else b }

  function Max(a: nat, b: nat): nat { if a < b then b else a }

  /** The commit index moves to the leader's, as far as the log reaches, everything up to it is
      applied in passing, and the reply names the end of the log. A request with no news of
      commits only gets the reply. */
  ghost predicate FollowsCommitOf(s: NodeState, r: AppendEntriesRequest, o: Outcome) {
    var last := |o.node.log| - 1;
    var reply := SendAppendEntriesResponse(r.leaderId, AppendEntriesResponse(r.term, true, Some(last)));
    && o.actions != [] && o.actions[|o.actions| - 1] == reply
    && (r.leaderCommit > s.commitIndex ==>
          && o.node.commitIndex == Min(r.leaderCommit, last)
          && o.node.lastApplied == Max(s.lastApplied, o.node.commitIndex)
          && forall j | s.lastApplied < j <= o.node.commitIndex && o.node.log[j].command != Noop ::
               ApplyEntry(j, o.node.log[j].command) in o.actions)
    && (r.leaderCommit <= s.commitIndex ==>
          o.actions == [reply] && o.node.commitIndex == s.commitIndex && o.node.lastApplied == s.lastApplied)
  }

  /** What an accepted request does beyond the log. */
  lemma FollowerCommits(s: NodeState, r: AppendEntriesRequest)
    requires r.term >= s.currentTerm && TermAt(s.log, r.prevLogIndex) == r.prevLogTerm
    ensures FollowsCommitOf(s, r, HandleAppendEntries(s, r))
  {
    var s2 := AcceptEntries(FollowLeader(s, r), r);
    if r.leaderCommit > s.commitIndex {
      FollowCommitApplies(s2, r.leaderCommit);
    }
  }

  lemma FollowCommitApplies(s: NodeState, leaderCommit: nat)
    requires leaderCommit > s.commitIndex
    ensures var o := FollowCommit(s, leaderCommit);
            && o.node.log == s.log && o.node.commitIndex == Min(leaderCommit, |s.log| - 1)
            && o.node.lastApplied == Max(s.lastApplied, o.node.commitIndex)
            && forall j | s.lastApplied < j <= o.node.commitIndex && s.log[j].command != Noop ::
                 ApplyEntry(j, s.log[j].command) in o.actions
  {
    var target := Min(leaderCommit, |s.log| - 1);
    forall j | s.lastApplied < j <= target && s.log[j].command != Noop
      ensures ApplyEntry(j, s.log[j].command) in ApplyActions(s.log, s.lastApplied, target)
    {
      ApplyActionsComplete(s.log, s.lastApplied, target, j);
    }
  }

  // ---- Terms ----

  function TermOf(body: Message): nat {
    match body
    case RequestVote(r) => r.term
    case VoteResponse(r) => r.term
    case AppendEntries(r) => r.term
    case AppendResponse(r) => r.term
  }

  /** Requests concern every node; a vote reply concerns a candidate, an append reply a leader. */
  predicate Concerns(s: NodeState, body: Message) {
    match body
    case VoteResponse(_) => s.role == Candidate
    case AppendResponse(_) => s.role == Leader
    case _ => true
  }

  /** Whatever the message, a later term makes the node a follower of that term with no tracking
      vectors, and saves that; a reply that does not concern the node changes nothing. */
  lemma LaterTermStepsDown(s: NodeState, e: Envelope)
    ensures var o := Receive(s, e);
            && (Concerns(s, e.body) && TermOf(e.body) > s.currentTerm ==>
                  && o.node.role == Follower && o.node.currentTerm == TermOf(e.body)
                  && o.node.nextIndex == [] && o.node.matchIndex == []
                  && o.node.disk == Some(PersistentState(o.node.currentTerm, o.node.votedFor, o.node.log))
                  && (!e.body.RequestVote? ==> o.node.votedFor == None))
            && (!Concerns(s, e.body) ==> o == Outcome(s, []))
  {
    if e.body.AppendEntries? && TermOf(e.body) > s.currentTerm {
      LaterLeader(s, e.body.appendRequest);
    }
  }

  lemma LaterLeader(s: NodeState, r: AppendEntriesRequest)
    requires r.term > s.currentTerm
    ensures var o := HandleAppendEntries(s, r);
            && o.node.role == Follower && o.node.currentTerm == r.term
            && o.node.nextIndex == [] && o.node.matchIndex == [] && o.node.votedFor == None
            && o.node.disk == Some(PersistentState(o.node.currentTerm, None, o.node.log))
  {
    var s2 := AcceptEntries(FollowLeader(s, r), r);
    assert s2.votedFor == None && s2.disk == Some(Saved(s2));
  }

  /** A request of an older term is refused, with the newer term, and changes nothing. */
  lemma OlderTermRefused(s: NodeState, e: Envelope)
    requires TermOf(e.body) < s.currentTerm
    ensures e.body.RequestVote? ==>
              Receive(s, e) == Outcome(s, [SendRequestVoteResponse(e.body.voteRequest.candidateId,
                                             RequestVoteResponse(s.currentTerm, false))])
    ensures e.body.AppendEntries? ==>
              Receive(s, e) == Outcome(s, [SendAppendEntriesResponse(e.body.appendRequest.leaderId,
                                             AppendEntriesResponse(s.currentTerm, false, None))])
    ensures e.body.VoteResponse? ==> Receive(s, e) == Outcome(s, [])
  {
  }

  /** A rejection without a hint moves next_index back by one, but not below 1, and no other pair. */
  lemma HintlessRejection(s: NodeState, from: NodeId, term: nat, p: NodeId)
    requires s.role == Leader && term <= s.currentTerm
    ensures var o := HandleAppendEntriesResponse(s, from, AppendEntriesResponse(term, false, None));
            && o.actions == [] && o.node == s.(nextIndex := o.node.nextIndex)
            && Lookup(o.node.nextIndex, p) ==
               (match Lookup(s.nextIndex, p)
                case Some(next) => Some(if p == from && next > 1 then next - 1 else next)
                case None => None)
  {
    var next := Lookup(s.nextIndex, from);
    if next.Some? && next.value > 1 {
      LookupSetFirst(s.nextIndex, from, next.value - 1);
      if p != from {
        LookupSetOther(s.nextIndex, from, next.value - 1, p);
      }
    }
  }

  // ---- Timers ----

  function AfterTicks(s: NodeState, n: nat): NodeState
    decreases n
  {
    if n == 0 then s else AfterTicks(HandleTick(s).node, n - 1)
  }

  /** Word from a leader of no older term makes it the known leader and restarts the election timer. */
  lemma LeaderHeard(s: NodeState, r: AppendEntriesRequest)
    requires r.term >= s.currentTerm
    ensures var o := HandleAppendEntries(s, r);
            && o.node.role == Follower && o.node.leaderId == Some(r.leaderId)
            && ELECTION_TIMEOUT_MIN <= o.node.timers.election < ELECTION_TIMEOUT_MAX
  {
    var s1 := FollowLeader(s, r);
    assert ELECTION_TIMEOUT_MIN <= s1.timers.election < ELECTION_TIMEOUT_MAX;
    var s2 := AcceptEntries(s1, r);
    assert s2.timers == s1.timers && s2.leaderId == s1.leaderId && s2.role == Follower;
  }

  lemma OpenedTimers(id: NodeId, peers: seq<NodeId>, disk: Option<PersistentState>)
    ensures ELECTION_TIMEOUT_MIN <= Open(id, peers, disk).timers.election < ELECTION_TIMEOUT_MAX
    ensures Open(id, peers, disk).timers.heartbeat == HEARTBEAT_INTERVAL
  {
  }

  /** Until its election timer runs out a node that does not lead only counts down. */
  lemma {:induction false} QuietUntilTimeout(s: NodeState, n: nat)
    requires s.role != Leader && n < s.timers.election
    ensures AfterTicks(s, n) == s.(timers := s.timers.(election := s.timers.election - n))
    ensures n > 0 ==> HandleTick(s).actions == []
    decreases n
  {
    if n > 0 {
      QuietUntilTimeout(HandleTick(s).node, n - 1);
    }
  }

  /** ... and when it does, it stands in the next term, asking every other peer for its vote,
      unless its own vote is already a majority. */
  lemma StandsAtTimeout(s: NodeState, p: NodeId)
    requires s.role != Leader && s.timers.election <= 1
    ensures var o := HandleTick(s);
            && o.node.currentTerm == s.currentTerm + 1 && o.node.votedFor == Some(s.id)
            && o.node.votesReceived == {s.id} && o.node.log == s.log
            && ELECTION_TIMEOUT_MIN <= o.node.timers.election < ELECTION_TIMEOUT_MAX
            && (Majority(s.peers) <= 1 ==> o.node.role == Leader)
            && (Majority(s.peers) > 1 ==>
                  && o.node.role == Candidate && o.node.leaderId == None
                  && (p in s.peers && p != s.id ==>
                        SendRequestVote(p, RequestVoteRequest(s.currentTerm + 1, s.id, |s.log| - 1,
                                                              s.log[|s.log| - 1].term)) in o.actions))
  {
    var s0 := s.(timers := s.timers.(election := 0));
    var s1 := Persist(ResetElectionTimeout(BecomeCandidate(s0).(votesReceived := {s.id})));
    assert HandleTick(s) == StartElection(s0);
    assert |s1.votesReceived| == 1;
    if Majority(s.peers) > 1 && p in s.peers && p != s.id {
      VoteRequestsComplete(s1, s1.peers, p);
    }
  }

  // ---- The timeout generator ----

  /** The inverse of the generator's multiplier modulo 2^64, and how often their product passes 2^64. */
  const SEED_INVERSE: nat := 13877824140714322085
  const SEED_TURNS: nat := 4787856489426250814

  /** The generator never stands still, and different seeds never meet. */
  lemma NextSeedApart(a: nat, b: nat)
    requires a < TWO_64 && b < TWO_64
    ensures NextSeed(a) < TWO_64 && NextSeed(a) % 2 != a % 2
    ensures NextSeed(a) == NextSeed(b) ==> a == b
  {
    SeedUndone(a);
    SeedUndone(b);
  }

  /** The seed can be computed back from the next one. */
  lemma SeedUndone(seed: nat)
    requires seed < TWO_64
    ensures (NextSeed(seed) + TWO_64 - 1442695040888963407) * SEED_INVERSE % TWO_64 == seed
  {
    var x := seed * 6364136223846793005 + 1442695040888963407;
    var q, r := x / TWO_64, x % TWO_64;
    assert 6364136223846793005 * SEED_INVERSE == SEED_TURNS * TWO_64 + 1;
    var turns := seed * SEED_TURNS + (1 - q) * SEED_INVERSE;
    assert (r + TWO_64 - 1442695040888963407) * SEED_INVERSE == turns * TWO_64 + seed;
    WholeTurns(turns, seed);
  }

  lemma WholeTurns(turns: int, x: nat)
    requires x < TWO_64
    ensures (turns * TWO_64 + x) % TWO_64 == x
  {
  }

  function SeedAfter(seed: nat, n: nat): nat
    decreases n
  {
    if n == 0 then seed else SeedAfter(NextSeed(seed), n - 1)
  }

  /** Nodes, whose ids are their first seeds, never draw from the same seed at the same turn. */
  lemma {:induction false} SeedsStayApart(a: nat, b: nat, n: nat)
    requires a < TWO_64 && b < TWO_64 && a != b
    ensures SeedAfter(a, n) != SeedAfter(b, n)
    decreases n
  {
    if n > 0 {
      NextSeedApart(a, b);
      NextSeedApart(b, a);
      SeedsStayApart(NextSeed(a), NextSeed(b), n - 1);
    }
  }

  // ---- Heartbeats ----

  /** A leader replicates to exactly the tracked peers other than itself, each from its next_index. */
  lemma {:induction false} ReplicationExactly(s: NodeState, peers: seq<NodeId>, a: Action)
    ensures a in ReplicateTo(s, peers) <==>
              && a.SendAppendEntries? && a.to in peers && a.to != s.id && Lookup(s.nextIndex, a.to).Some?
              && a.appendRequest == AppendRequestFor(s, Lookup(s.nextIndex, a.to).value)
  {
    if peers != [] {
      ReplicationExactly(s, peers[1..], a);
    }
  }

  /** How many more ticks until a leader sends. */
  function Due(heartbeat: nat): nat {
    if heartbeat == 0 then 1 else heartbeat
  }

  lemma {:induction false} QuietBetweenHeartbeats(s: NodeState, k: nat)
    requires s.role == Leader && k < Due(s.timers.heartbeat)
    ensures var left := if k == 0 then s.timers.heartbeat else s.timers.heartbeat - k;
            AfterTicks(s, k) == s.(timers := s.timers.(heartbeat := left))
    ensures k > 0 ==> HandleTick(s).actions == []
    decreases k
  {
    if k > 0 {
      QuietBetweenHeartbeats(HandleTick(s).node, k - 1);
    }
  }

  /** A leader's tick sends exactly when the heartbeat timer has run down; it then sends every
      tracked peer what its next_index calls for, and the timer starts over. */
  lemma HeartbeatSent(s: NodeState, a: Action)
    requires s.role == Leader
    ensures var before := AfterTicks(s, Due(s.timers.heartbeat) - 1);
            var o := HandleTick(before);
            && before == s.(timers := before.timers)
            && o.node == s.(timers := s.timers.(heartbeat := HEARTBEAT_INTERVAL))
            && (a in o.actions <==>
                  && a.SendAppendEntries? && a.to in s.peers && a.to != s.id && Lookup(s.nextIndex, a.to).Some?
                  && a.appendRequest == AppendRequestFor(s, Lookup(s.nextIndex, a.to).value))
  {
    var k := Due(s.timers.heartbeat) - 1;
    QuietBetweenHeartbeats(s, k);
    var s1 := s.(timers := s.timers.(heartbeat := HEARTBEAT_INTERVAL));
    assert HandleTick(AfterTicks(s, k)) == Outcome(s1, ReplicateTo(s1, s1.peers));
    ReplicationExactly(s1, s1.peers, a);
  }

  /** Of any HEARTBEAT_INTERVAL ticks in a row, some tick sends every tracked peer its request. */
  lemma HeartbeatWithinInterval(s: NodeState) returns (k: nat)
    requires s.role == Leader && s.timers.heartbeat <= HEARTBEAT_INTERVAL
    ensures k < HEARTBEAT_INTERVAL
    ensures forall p, next: nat | p in s.peers && p != s.id && Lookup(s.nextIndex, p) == Some(next) ::
              SendAppendEntries(p, AppendRequestFor(s, next)) in HandleTick(AfterTicks(s, k)).actions
  {
    k := Due(s.timers.heartbeat) - 1;
    forall p, next: nat | p in s.peers && p != s.id && Lookup(s.nextIndex, p) == Some(next)
      ensures SendAppendEntries(p, AppendRequestFor(s, next)) in HandleTick(AfterTicks(s, k)).actions
    {
      HeartbeatSent(s, SendAppendEntries(p, AppendRequestFor(s, next)));
    }
  }

  /** A node that wins knows itself as leader and starts every other peer at the end of its log;
      it sends to each at once, and again on its next tick. */
  lemma WinnerSpeaks(s: NodeState, p: NodeId)
    requires p in s.peers && p != s.id
    ensures var o := WinElection(s);
            && o.node.role == Leader && o.node.leaderId == Some(s.id)
            && Lookup(o.node.nextIndex, p) == Some(|s.log|) && Lookup(o.node.matchIndex, p) == Some(0)
            && SendAppendEntries(p, AppendRequestFor(o.node, |s.log|)) in o.actions
            && SendAppendEntries(p, AppendRequestFor(o.node, |s.log|)) in HandleTick(o.node).actions
  {
    var o := WinElection(s);
    TrackingLookup(s.peers, s.id, |s.log|, p);
    TrackingLookup(s.peers, s.id, 0, p);
    ReplicationExactly(o.node, o.node.peers, SendAppendEntries(p, AppendRequestFor(o.node, |s.log|)));
    HeartbeatSent(o.node, SendAppendEntries(p, AppendRequestFor(o.node, |s.log|)));
  }
}
