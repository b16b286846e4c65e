/** The Raft node as pure step functions: each takes the node's state and an input and
    gives the next state and the actions to perform. The class in RaftNodes is proved to
    compute exactly these. */
module RaftSpec {
  import opened RaftTypes
  import opened RaftLogs

  const ELECTION_TIMEOUT_MIN: nat := 30
  const ELECTION_TIMEOUT_MAX: nat := 60
  const HEARTBEAT_INTERVAL: nat := 3
  const TWO_64: nat := 0x1_0000_0000_0000_0000

  datatype Timers = Timers(election: nat, electionDuration: nat, heartbeat: nat, seed: nat)

  datatype NodeState = NodeState(
    id: NodeId, peers: seq<NodeId>,
    currentTerm: nat, votedFor: Option<NodeId>, log: Log,
    commitIndex: nat, lastApplied: nat,
    nextIndex: seq<(NodeId, nat)>, matchIndex: seq<(NodeId, nat)>,
    role: NodeRole, leaderId: Option<NodeId>,
    timers: Timers, votesReceived: set<NodeId>,
    disk: Option<PersistentState>)

  datatype Outcome = Outcome(node: NodeState, actions: seq<Action>)

  // ---- Persistence ----

  function Saved(s: NodeState): PersistentState {
    PersistentState(s.currentTerm, s.votedFor, s.log)
  }

  function Persist(s: NodeState): NodeState {
    s.(disk := Some(Saved(s)))
  }

  /** What a restart reads back; no file yet means the initial values. */
  function Load(disk: Option<PersistentState>): PersistentState {
    match disk
    case None => PersistentState(0, None, EMPTY_LOG)
    case Some(p) => p
  }

  /** Opening a node on its state file. */
  function Open(id: NodeId, peers: seq<NodeId>, disk: Option<PersistentState>): NodeState {
    var p := Load(disk);
    ResetElectionTimeout(
      NodeState(id, peers, p.currentTerm, p.votedFor, FromEntries(p.log), 0, 0, [], [], Follower, None,
                Timers(0, 0, HEARTBEAT_INTERVAL, id), {}, disk))
  }

  // ---- Roles and timers ----

  function NextSeed(seed: nat): nat {
    (seed * 6364136223846793005 + 1442695040888963407) % TWO_64
  }

  function ResetElectionTimeout(s: NodeState): NodeState {
    var seed := NextSeed(s.timers.seed);
    var duration := seed % (ELECTION_TIMEOUT_MAX - ELECTION_TIMEOUT_MIN) + ELECTION_TIMEOUT_MIN;
    s.(timers := Timers(duration, duration, s.timers.heartbeat, seed))
  }

  function Majority(peers: seq<NodeId>): nat {
    |peers| / 2 + 1
  }

  function BecomeFollower(s: NodeState, term: nat): NodeState {
    var s1 := if term > s.currentTerm then s.(currentTerm := term, votedFor := None) else s;
    s1.(role := Follower, nextIndex := [], matchIndex := [])
  }

  function BecomeCandidate(s: NodeState): NodeState {
    s.(currentTerm := s.currentTerm + 1, role := Candidate, votedFor := Some(s.id), leaderId := None)
  }

  /** One tracking pair for every peer but the node itself, in peer order. */
  function Tracking(peers: seq<NodeId>, self: NodeId, value: nat): seq<(NodeId, nat)> {
    if peers == [] then []
    else if peers[0] == self then Tracking(peers[1..], self, value)
    else [(peers[0], value)] + Tracking(peers[1..], self, value)
  }

  function BecomeLeader(s: NodeState): NodeState {
    s.(role := Leader, leaderId := Some(s.id),
       nextIndex := Tracking(s.peers, s.id, LastIndex(s.log) + 1),
       matchIndex := Tracking(s.peers, s.id, 0))
  }

  // ---- Sending ----

  function Lookup(pairs: seq<(NodeId, nat)>, id: NodeId): Option<nat> {
    if pairs == [] then None
    else if pairs[0].0 == id then Some(pairs[0].1)
    else Lookup(pairs[1..], id)
  }

  function AppendRequestFor(s: NodeState, next: nat): AppendEntriesRequest {
    var prev := if next > 0 then next - 1 else 0;
    AppendEntriesRequest(s.currentTerm, s.id, prev, TermAt(s.log, prev), EntriesFrom(s.log, next), s.commitIndex)
  }

  function ReplicateToPeer(s: NodeState, peer: NodeId): Option<Action> {
    match Lookup(s.nextIndex, peer)
    case None => None
    case Some(next) => Some(SendAppendEntries(peer, AppendRequestFor(s, next)))
  }

  function ReplicateTo(s: NodeState, peers: seq<NodeId>): seq<Action> {
    if peers == [] then []
    else
      var rest := ReplicateTo(s, peers[1..]);
      if peers[0] == s.id then rest
      else match ReplicateToPeer(s, peers[0])
        case None => rest
        case Some(a) => [a] + rest
  }

  function VoteRequestOf(s: NodeState): RequestVoteRequest {
    RequestVoteRequest(s.currentTerm, s.id, LastIndex(s.log), LastTerm(s.log))
  }

  function VoteRequests(s: NodeState, peers: seq<NodeId>): seq<Action> {
    if peers == [] then []
    else (if peers[0] == s.id then [] else [SendRequestVote(peers[0], VoteRequestOf(s))])
         + VoteRequests(s, peers[1..])
  }

  // ---- Ticks and elections ----

  function WinElection(s: NodeState): Outcome {
    var s1 := BecomeLeader(s);
    var s2 := s1.(timers := s1.timers.(heartbeat := 0));
    Outcome(s2, ReplicateTo(s2, s2.peers))
  }

  function StartElection(s: NodeState): Outcome {
    var s1 := Persist(ResetElectionTimeout(BecomeCandidate(s).(votesReceived := {s.id})));
    if |s1.votesReceived| >= Majority(s1.peers) then WinElection(s1)
    else Outcome(s1, VoteRequests(s1, s1.peers))
  }

  function CountDown(n: nat): nat {
    if n > 0 then n - 1 else 0
  }

  function HandleTick(s: NodeState): Outcome {
    if s.role == Leader then
      var left := CountDown(s.timers.heartbeat);
      if left > 0 then Outcome(s.(timers := s.timers.(heartbeat := left)), [])
      else
        var s1 := s.(timers := s.timers.(heartbeat := HEARTBEAT_INTERVAL));
        Outcome(s1, ReplicateTo(s1, s1.peers))
    else
      var left := CountDown(s.timers.election);
      var s1 := s.(timers := s.timers.(election := left));
      if left > 0 then Outcome(s1, []) else StartElection(s1)
  }

  predicate CanVote(s: NodeState, candidate: NodeId) {
    s.votedFor == None || s.votedFor == Some(candidate)
  }

  predicate UpToDate(lastLogTerm: nat, lastLogIndex: nat, log: Log) {
    lastLogTerm > LastTerm(log) || (lastLogTerm == LastTerm(log) && lastLogIndex >= LastIndex(log))
  }

  function HandleRequestVote(s: NodeState, request: RequestVoteRequest): Outcome {
    if request.term < s.currentTerm then
      Outcome(s, [SendRequestVoteResponse(request.candidateId, RequestVoteResponse(s.currentTerm, false))])
    else
      var s1 := if request.term > s.currentTerm then Persist(BecomeFollower(s, request.term)) else s;
      var granted :=
        CanVote(s1, request.candidateId) && UpToDate(request.lastLogTerm, request.lastLogIndex, s1.log);
      var s2 := if granted
                then Persist(ResetElectionTimeout(s1.(votedFor := Some(request.candidateId))))
                else s1;
      Outcome(s2, [SendRequestVoteResponse(request.candidateId, RequestVoteResponse(s2.currentTerm, granted))])
  }

  function HandleRequestVoteResponse(s: NodeState, from: NodeId, response: RequestVoteResponse): Outcome {
    if s.role != Candidate then Outcome(s, [])
    else if response.term > s.currentTerm then Outcome(Persist(BecomeFollower(s, response.term)), [])
    else if response.term != s.currentTerm then Outcome(s, [])
    else
      var s1 := if response.voteGranted then s.(votesReceived := s.votesReceived + {from}) else s;
      if |s1.votesReceived| >= Majority(s1.peers) then WinElection(s1) else Outcome(s1, [])
  }

  // ---- Applying ----

  /** ApplyEntry actions for the indices after `from` up to `upTo`; a Noop yields none. */
  function ApplyActions(log: Log, from: nat, upTo: nat): seq<Action>
    decreases upTo - from
  {
    if from >= upTo then []
    else
      (if from + 1 < |log| && log[from + 1].command != Noop
       then [ApplyEntry(from + 1, log[from + 1].command)] else [])
      + ApplyActions(log, from + 1, upTo)
  }

  function ApplyCommitted(s: NodeState, newCommit: nat): Outcome {
    Outcome(s.(lastApplied := if s.lastApplied < newCommit then newCommit else s.lastApplied,
               commitIndex := newCommit),
            ApplyActions(s.log, s.lastApplied, newCommit))
  }

  // ---- AppendEntries ----

  function AcceptEntries(s: NodeState, request: AppendEntriesRequest): NodeState {
    var at := request.prevLogIndex + 1;
    if MatchLength(s.log, at, request.entries) == |request.entries| then s
    else Persist(s.(log := Merged(s.log, at, request.entries)))
  }

  function FollowCommit(s: NodeState, leaderCommit: nat): Outcome {
    if leaderCommit > s.commitIndex then
      ApplyCommitted(s, if leaderCommit < LastIndex(s.log) then leaderCommit else LastIndex(s.log))
    else Outcome(s, [])
  }

  function FollowLeader(s: NodeState, request: AppendEntriesRequest): NodeState {
    Persist(ResetElectionTimeout(BecomeFollower(s, request.term).(leaderId := Some(request.leaderId))))
  }

  function HandleAppendEntries(s: NodeState, request: AppendEntriesRequest): Outcome {
    if request.term < s.currentTerm then
      Outcome(s, [SendAppendEntriesResponse(request.leaderId, AppendEntriesResponse(s.currentTerm, false, None))])
    else
      var s1 := FollowLeader(s, request);
      if TermAt(s1.log, request.prevLogIndex) != request.prevLogTerm then
        Outcome(s1, [SendAppendEntriesResponse(request.leaderId,
                       AppendEntriesResponse(s1.currentTerm, false, Some(LastIndex(s1.log))))])
      else
        var s2 := AcceptEntries(s1, request);
        var applied := FollowCommit(s2, request.leaderCommit);
        Outcome(applied.node,
                applied.actions + [SendAppendEntriesResponse(request.leaderId,
                  AppendEntriesResponse(s2.currentTerm, true, Some(LastIndex(s2.log))))])
  }

  /** Sets the value of the first pair with this id. */
  function SetFirst(pairs: seq<(NodeId, nat)>, id: NodeId, value: nat): seq<(NodeId, nat)> {
    if pairs == [] then []
    else if pairs[0].0 == id then [(id, value)] + pairs[1..]
    else [pairs[0]] + SetFirst(pairs[1..], id, value)
  }

  /** Steps the first pair with this id back by one, but not below 1. */
  function StepBack(pairs: seq<(NodeId, nat)>, id: NodeId): seq<(NodeId, nat)> {
    match Lookup(pairs, id)
    case None => pairs
    case Some(next) => if next > 1 then SetFirst(pairs, id, next - 1) else pairs
  }

  function CountAtLeast(pairs: seq<(NodeId, nat)>, index: nat): nat {
    if pairs == [] then 0
    else (if pairs[0].1 >= index then 1 else 0) + CountAtLeast(pairs[1..], index)
  }

  /** The commit rule: the entry is of the current term, and a majority counting the leader
      itself has a match index at or past it. */
  predicate Committable(s: NodeState, index: nat) {
    TermAt(s.log, index) == s.currentTerm && 1 + CountAtLeast(s.matchIndex, index) >= Majority(s.peers)
  }

  /** The greatest committable index in (commitIndex, hi], or commitIndex if there is none. */
  function CommitScan(s: NodeState, hi: nat): nat {
    if hi <= s.commitIndex then s.commitIndex
    else if Committable(s, hi) then hi
    else CommitScan(s, hi - 1)
  }

  function AdvanceCommit(s: NodeState): Outcome {
    var target := CommitScan(s, LastIndex(s.log));
    if target > s.commitIndex then ApplyCommitted(s.(commitIndex := target), target) else Outcome(s, [])
  }

  function HandleAppendEntriesResponse(s: NodeState, from: NodeId, response: AppendEntriesResponse): Outcome {
    if s.role != Leader then Outcome(s, [])
    else if response.term > s.currentTerm then Outcome(Persist(BecomeFollower(s, response.term)), [])
    else if response.success then
      AdvanceCommit(match response.matchIndex
                    case None => s
                    case Some(m) => s.(matchIndex := SetFirst(s.matchIndex, from, m),
                                       nextIndex := SetFirst(s.nextIndex, from, m + 1)))
    else
      Outcome(match response.matchIndex
              case Some(m) => s.(nextIndex := SetFirst(s.nextIndex, from, m + 1))
              case None => s.(nextIndex := StepBack(s.nextIndex, from)),
              [])
  }

  /** The node after a leader took a proposal, before it looks at the commit rule. */
  function Appended(s: NodeState, command: LogCommand): NodeState {
    Persist(s.(log := s.log + [LogEntry(s.currentTerm, command)]))
  }

  function HandlePropose(s: NodeState, command: LogCommand): Option<Outcome> {
    if s.role != Leader then None
    else
      var s1 := Appended(s, command);
      var committed := AdvanceCommit(s1);
      Some(Outcome(committed.node, ReplicateTo(s1, s1.peers) + committed.actions))
  }
}
