/** A cluster of Raft nodes as a step system. The network is the set of every envelope ever
    sent, so delivery may lose, repeat and reorder; a restart reopens a node on its disk. A
    run is a sequence of events; an event that is not enabled changes nothing. */
module RaftCluster {
  import opened RaftTypes
  import opened RaftLogs
  import opened RaftSpec

  datatype Message =
    | RequestVote(voteRequest: RequestVoteRequest)
    | VoteResponse(voteResponse: RequestVoteResponse)
    | AppendEntries(appendRequest: AppendEntriesRequest)
    | AppendResponse(appendResponse: AppendEntriesResponse)

  /** `answers` records, for an observer of the network, the AppendEntries request an envelope
      was sent in reply to; no handler reads it. */
  datatype Envelope = Envelope(
    from: NodeId, to: NodeId, body: Message, answers: Option<AppendEntriesRequest>)

  datatype Input = Tick | Propose(command: LogCommand) | Deliver(envelope: Envelope) | Restart

  datatype Event = Event(node: NodeId, input: Input)

  /** A vote ever cast, and a (term, node) pair. */
  datatype Vote = Vote(term: nat, voter: NodeId, candidate: NodeId)
  datatype Tenure = Tenure(term: nat, node: NodeId)
  datatype Applied = Applied(node: NodeId, index: nat, command: LogCommand)
  datatype CommitRecord = CommitRecord(term: nat, entries: seq<LogEntry>)

  /** What an observer of the whole run has written down.
      - votes: every vote held by some node after some step
      - candidateLog: the log each candidacy started with
      - electors: for each tenure as leader, the vote set it was won with
      - leaderLog: the log last seen at a leader of each term
      - acks: the furthest index a node has acknowledged (or, as leader, held) in a term
      - committed: the log prefix up to commit_index, for each leader at each step
      - applied: every ApplyEntry action ever emitted */
  datatype History = History(
    votes: set<Vote>,
    candidateLog: map<Tenure, Log>,
    electors: map<Tenure, set<NodeId>>,
    leaderLog: map<nat, Log>,
    acks: map<Tenure, nat>,
    committed: set<CommitRecord>,
    applied: set<Applied>)

  datatype Cluster = Cluster(
    peers: seq<NodeId>, nodes: map<NodeId, NodeState>, network: set<Envelope>, history: History)

  predicate NoDuplicates(peers: seq<NodeId>) {
    forall i, j | 0 <= i < j < |peers| :: peers[i] != peers[j]
  }

  function Initial(peers: seq<NodeId>): Cluster {
    Cluster(peers, map i | i in peers :: Open(i, peers, None), {},
            History({}, map[], map[], map[], map[], {}, {}))
  }

  predicate Enabled(c: Cluster, e: Event) {
    && e.node in c.nodes
    && (e.input.Deliver? ==> e.input.envelope in c.network && e.input.envelope.to == e.node)
  }

  function Receive(s: NodeState, envelope: Envelope): Outcome {
    match envelope.body
    case RequestVote(request) => HandleRequestVote(s, request)
    case VoteResponse(response) => HandleRequestVoteResponse(s, envelope.from, response)
    case AppendEntries(request) => HandleAppendEntries(s, request)
    case AppendResponse(response) => HandleAppendEntriesResponse(s, envelope.from, response)
  }

  function NodeStep(s: NodeState, input: Input): Outcome {
    match input
    case Tick => HandleTick(s)
    case Propose(command) =>
      (match HandlePropose(s, command)
       case None => Outcome(s, [])
       case Some(outcome) => outcome)
    case Deliver(envelope) => Receive(s, envelope)
    case Restart => Outcome(Open(s.id, s.peers, s.disk), [])
  }

  function Answered(input: Input): Option<AppendEntriesRequest> {
    if input.Deliver? && input.envelope.body.AppendEntries?
    then Some(input.envelope.body.appendRequest) else None
  }

  function ToEnvelope(from: NodeId, a: Action, answers: Option<AppendEntriesRequest>): Envelope
    requires !a.ApplyEntry?
  {
    match a
    case SendRequestVote(to, request) => Envelope(from, to, RequestVote(request), answers)
    case SendRequestVoteResponse(to, response) => Envelope(from, to, VoteResponse(response), answers)
    case SendAppendEntries(to, request) => Envelope(from, to, AppendEntries(request), answers)
    case SendAppendEntriesResponse(to, response) => Envelope(from, to, AppendResponse(response), answers)
  }

  function Outbox(from: NodeId, actions: seq<Action>, answers: Option<AppendEntriesRequest>): set<Envelope> {
    set a | a in actions && !a.ApplyEntry? :: ToEnvelope(from, a, answers)
  }

  function AppliedBy(node: NodeId, actions: seq<Action>): set<Applied> {
    set a | a in actions && a.ApplyEntry? :: Applied(node, a.index, a.command)
  }

  function Raise(acks: map<Tenure, nat>, t: Tenure, index: nat): map<Tenure, nat> {
    if t in acks && acks[t] >= index then acks else acks[t := index]
  }

  /** The index a node has acknowledged by this step: what the accepted request covered. */
  function AckOf(input: Input, actions: seq<Action>): Option<nat> {
    match Answered(input)
    case None => None
    case Some(request) =>
      if exists a | a in actions :: a.SendAppendEntriesResponse? && a.appendResponse.success
      then Some(request.prevLogIndex + |request.entries|) else None
  }

  function CommittedPrefix(s: NodeState): seq<LogEntry> {
    if s.commitIndex < |s.log| then s.log[..s.commitIndex + 1] else s.log
  }

  function Observe(h: History, s: NodeState, ack: Option<nat>, applied: set<Applied>): History {
    var here := Tenure(s.currentTerm, s.id);
    var leads := s.role == Leader;
    var acks1 := if leads then Raise(h.acks, here, LastIndex(s.log)) else h.acks;
    History(
      if s.votedFor.Some? then h.votes + {Vote(s.currentTerm, s.id, s.votedFor.value)} else h.votes,
      if s.role != Follower && here !in h.candidateLog then h.candidateLog[here := s.log] else h.candidateLog,
      if leads then h.electors[here := s.votesReceived] else h.electors,
      if leads then h.leaderLog[s.currentTerm := s.log] else h.leaderLog,
      if ack.Some? then Raise(acks1, here, ack.value) else acks1,
      if leads then h.committed + {CommitRecord(s.currentTerm, CommittedPrefix(s))} else h.committed,
      h.applied + applied)
  }

  /** The cluster after node `e.node` took input `e.input` with this outcome. */
  function After(c: Cluster, e: Event, o: Outcome): Cluster {
    Cluster(c.peers, c.nodes[e.node := o.node],
            c.network + Outbox(e.node, o.actions, Answered(e.input)),
            Observe(c.history, o.node, AckOf(e.input, o.actions), AppliedBy(e.node, o.actions)))
  }

  function Step(c: Cluster, e: Event): Cluster {
    if !Enabled(c, e) then c else After(c, e, NodeStep(c.nodes[e.node], e.input))
  }

  function Exec(c: Cluster, events: seq<Event>): Cluster
    decreases |events|
  {
    if events == [] then c else Exec(Step(c, events[0]), events[1..])
  }

  lemma {:induction false} ExecConcat(c: Cluster, xs: seq<Event>, ys: seq<Event>)
    ensures Exec(c, xs + ys) == Exec(Exec(c, xs), ys)
    decreases |xs|
  {
    if xs == [] {
      assert xs + ys == ys;
    } else {
      assert (xs + ys)[1..] == xs[1..] + ys;
      ExecConcat(Step(c, xs[0]), xs[1..], ys);
    }
  }
}
