/** The records the Raft layer exchanges: log entries, the four RPC bodies and
    the actions a node asks its runtime to perform. Node ids, terms and indices
    are unbounded naturals. */
module RaftTypes {
  type NodeId = nat

  datatype Option<+T> = None | Some(value: T)

  datatype LogCommand = Put(key: string, value: string) | Delete(key: string) | Noop

  datatype LogEntry = LogEntry(term: nat, command: LogCommand)

  datatype NodeRole = Follower | Candidate | Leader

  datatype RequestVoteRequest = RequestVoteRequest(
    term: nat, candidateId: NodeId, lastLogIndex: nat, lastLogTerm: nat)

  datatype RequestVoteResponse = RequestVoteResponse(term: nat, voteGranted: bool)

  datatype AppendEntriesRequest = AppendEntriesRequest(
    term: nat, leaderId: NodeId, prevLogIndex: nat, prevLogTerm: nat,
    entries: seq<LogEntry>, leaderCommit: nat)

  datatype AppendEntriesResponse = AppendEntriesResponse(
    term: nat, success: bool, matchIndex: Option<nat>)

  datatype Action =
    | SendRequestVote(to: NodeId, voteRequest: RequestVoteRequest)
    | SendRequestVoteResponse(to: NodeId, voteResponse: RequestVoteResponse)
    | SendAppendEntries(to: NodeId, appendRequest: AppendEntriesRequest)
    | SendAppendEntriesResponse(to: NodeId, appendResponse: AppendEntriesResponse)
    | ApplyEntry(index: nat, command: LogCommand)

  /** What the state file holds: the three fields that survive a restart. */
  datatype PersistentState = PersistentState(
    currentTerm: nat, votedFor: Option<NodeId>, log: seq<LogEntry>)
}
