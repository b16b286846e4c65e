/** The Raft node as the object that runs: its handlers update the state in place, and each is
    proved to leave the node in the state, and return the actions, of its step function. */
module RaftNodes {
  import opened RaftTypes
  import opened RaftLogs
  import opened RaftSpec

  /** The state file. */
  class StatePersister {
    var saved: Option<PersistentState>

    constructor (contents: Option<PersistentState>)
      ensures saved == contents
    {
      saved := contents;
    }

    method Save(state: PersistentState)
      modifies this
      ensures saved == Some(state)
    {
      saved := Some(state);
    }
  }

  /** Overwrites the value of the first pair with this id, as the loops over the tracking
      vectors do. */
  method SetTracked(pairs: seq<(NodeId, nat)>, id: NodeId, value: nat) returns (updated: seq<(NodeId, nat)>)
    ensures updated == SetFirst(pairs, id, value)
  {
    updated := pairs;
    var k := 0;
    while k < |updated|
      invariant 0 <= k <= |pairs| && updated == pairs
      invariant SetFirst(pairs, id, value) == pairs[..k] + SetFirst(pairs[k..], id, value)
    {
      if updated[k].0 == id {
        updated := updated[k := (id, value)];
        return;
      }
      assert pairs[..k + 1] == pairs[..k] + [pairs[k]] && pairs[k..][1..] == pairs[k + 1..];
      k := k + 1;
    }
  }

  lemma ApplyStep(log: Log, from: nat, upTo: nat)
    requires from < upTo
    ensures var rest := ApplyActions(log, from + 1, upTo);
            ApplyActions(log, from, upTo)
            == if from + 1 < |log| && log[from + 1].command != Noop
               then [ApplyEntry(from + 1, log[from + 1].command)] + rest else rest
  {
  }

  class RaftState {
    const id: NodeId
    const peers: seq<NodeId>
    var currentTerm: nat
    var votedFor: Option<NodeId>
    var log: RaftLog
    var commitIndex: nat
    var lastApplied: nat
    var nextIndex: seq<(NodeId, nat)>
    var matchIndex: seq<(NodeId, nat)>
    var role: NodeRole
    var leaderId: Option<NodeId>

    constructor (id: NodeId, peers: seq<NodeId>)
      ensures this.id == id && this.peers == peers && fresh(log) && log.Valid() && log.entries == EMPTY_LOG
      ensures currentTerm == 0 && votedFor == None && commitIndex == 0 && lastApplied == 0
      ensures nextIndex == [] && matchIndex == [] && role == Follower && leaderId == None
    {
      this.id, this.peers := id, peers;
      currentTerm, votedFor := 0, None;
      log := new RaftLog();
      commitIndex, lastApplied := 0, 0;
      nextIndex, matchIndex := [], [];
      role, leaderId := Follower, None;
    }

    method BecomeFollower(term: nat)
      modifies `currentTerm, `votedFor, `role, `nextIndex, `matchIndex
      ensures currentTerm == if term > old(currentTerm) then term else old(currentTerm)
      ensures votedFor == if term > old(currentTerm) then None else old(votedFor)
      ensures role == Follower && nextIndex == [] && matchIndex == []
    {
      if term > currentTerm {
        currentTerm := term;
        votedFor := None;
      }
      role := Follower;
      nextIndex := [];
      matchIndex := [];
    }

    method BecomeCandidate()
      modifies `currentTerm, `votedFor, `role, `leaderId
      ensures currentTerm == old(currentTerm) + 1 && role == Candidate
      ensures votedFor == Some(id) && leaderId == None
    {
      currentTerm := currentTerm + 1;
      role := Candidate;
      votedFor := Some(id);
      leaderId := None;
    }

    method BecomeLeader()
      requires log.Valid()
      modifies `role, `leaderId, `nextIndex, `matchIndex
      ensures role == Leader && leaderId == Some(id)
      ensures nextIndex == Tracking(peers, id, LastIndex(log.entries) + 1)
      ensures matchIndex == Tracking(peers, id, 0)
    {
      role := Leader;
      leaderId := Some(id);
      var last := LastIndex(log.entries) + 1;
      nextIndex := Tracking(peers, id, last);
      matchIndex := Tracking(peers, id, 0);
    }
  }

  class RaftNode {
    const state: RaftState
    const persister: StatePersister
    var electionTimeout: nat
    var electionTimeoutDuration: nat
    var heartbeatTimeout: nat
    var votesReceived: set<NodeId>
    var randomSeed: nat

    ghost predicate Valid()
      reads this, state, state.log
    {
      state.log.Valid()
    }

    /** The value the step functions work on. */
    ghost function View(): NodeState
      requires Valid()
      reads this, state, state.log, persister
    {
      NodeState(state.id, state.peers, state.currentTerm, state.votedFor, state.log.entries,
                state.commitIndex, state.lastApplied, state.nextIndex, state.matchIndex,
                state.role, state.leaderId,
                Timers(electionTimeout, electionTimeoutDuration, heartbeatTimeout, randomSeed),
                votesReceived, persister.saved)
    }

    constructor WithPersistence(id: NodeId, peers: seq<NodeId>, disk: StatePersister)
      ensures Valid() && persister == disk && fresh(state) && fresh(state.log)
      ensures View() == Open(id, peers, disk.saved)
    {
      state := new RaftState(id, peers);
      persister := disk;
      electionTimeout, electionTimeoutDuration := 0, 0;
      heartbeatTimeout := HEARTBEAT_INTERVAL;
      votesReceived := {};
      randomSeed := id;
      new;
      if disk.saved.Some? {
        var p := disk.saved.value;
        state.currentTerm := p.currentTerm;
        state.votedFor := p.votedFor;
        state.log := new RaftLog.FromSaved(p.log);
      }
      ResetTimeout();
    }

    method ResetTimeout()
      requires Valid()
      modifies `electionTimeout, `electionTimeoutDuration, `randomSeed
      ensures Valid() && View() == ResetElectionTimeout(old(View()))
    {
      randomSeed := NextSeed(randomSeed);
      var range := ELECTION_TIMEOUT_MAX - ELECTION_TIMEOUT_MIN;
      var offset := randomSeed % range + ELECTION_TIMEOUT_MIN;
      electionTimeoutDuration := offset;
      electionTimeout := offset;
    }

    method PersistState()
      requires Valid()
      modifies persister
      ensures Valid() && View() == Persist(old(View()))
    {
      persister.Save(PersistentState(state.currentTerm, state.votedFor, state.log.entries));
    }

    // ---- Sending ----

    method ReplicateToAllPeers() returns (actions: seq<Action>)
      requires Valid()
      ensures actions == ReplicateTo(View(), View().peers)
    {
      ghost var s := View();
      actions := [];
      var k := 0;
      while k < |state.peers|
        invariant 0 <= k <= |state.peers|
        invariant actions + ReplicateTo(s, state.peers[k..]) == ReplicateTo(s, state.peers)
      {
        var peer := state.peers[k];
        assert state.peers[k..][1..] == state.peers[k + 1..];
        if peer != state.id {
          var action := Replicate(peer);
          if action.Some? {
            actions := actions + [action.value];
          }
        }
        k := k + 1;
      }
    }

    /** None when the peer is not tracked. */
    method Replicate(peer: NodeId) returns (action: Option<Action>)
      requires Valid()
      ensures action == ReplicateToPeer(View(), peer)
    {
      var next := Lookup(state.nextIndex, peer);
      if next.None? {
        return None;
      }
      var prev := if next.value > 0 then next.value - 1 else 0;
      var request := AppendEntriesRequest(
        state.currentTerm, state.id, prev, TermAt(state.log.entries, prev),
        EntriesFrom(state.log.entries, next.value), state.commitIndex);
      action := Some(SendAppendEntries(peer, request));
    }

    // ---- Elections ----

    method Tick() returns (actions: seq<Action>)
      requires Valid()
      modifies this, state, persister
      ensures Valid() && View() == HandleTick(old(View())).node && actions == HandleTick(old(View())).actions
      ensures state.log == old(state.log)
    {
      if state.role == Leader {
        actions := TickHeartbeat();
      } else {
        actions := TickElection();
      }
    }

    method TickHeartbeat() returns (actions: seq<Action>)
      requires Valid() && state.role == Leader
      modifies `heartbeatTimeout
      ensures Valid() && View() == HandleTick(old(View())).node && actions == HandleTick(old(View())).actions
    {
      if heartbeatTimeout > 0 {
        heartbeatTimeout := heartbeatTimeout - 1;
      }
      if heartbeatTimeout > 0 {
        return [];
      }
      heartbeatTimeout := HEARTBEAT_INTERVAL;
      actions := ReplicateToAllPeers();
    }

    method TickElection() returns (actions: seq<Action>)
      requires Valid() && state.role != Leader
      modifies this, state, persister
      ensures Valid() && View() == HandleTick(old(View())).node && actions == HandleTick(old(View())).actions
      ensures state.log == old(state.log)
    {
      if electionTimeout > 0 {
        electionTimeout := electionTimeout - 1;
      }
      if electionTimeout > 0 {
        return [];
      }
      actions := BeginElection();
    }

    method BeginElection() returns (actions: seq<Action>)
      requires Valid()
      modifies this, state, persister
      ensures Valid() && View() == StartElection(old(View())).node && actions == StartElection(old(View())).actions
      ensures state.log == old(state.log)
    {
      Stand();
      if |votesReceived| >= Majority(state.peers) {
        actions := Win();
      } else {
        actions := RequestVotes();
      }
    }

    /** Enters a new term as a candidate with its own vote, and saves that. */
    method Stand()
      requires Valid()
      modifies this, state, persister
      ensures Valid() && state.log == old(state.log)
      ensures View() == Persist(ResetElectionTimeout(BecomeCandidate(old(View())).(votesReceived := {old(View()).id})))
    {
      state.BecomeCandidate();
      votesReceived := {state.id};
      ResetTimeout();
      PersistState();
    }

    method RequestVotes() returns (actions: seq<Action>)
      requires Valid()
      ensures actions == VoteRequests(View(), View().peers)
    {
      ghost var s := View();
      actions := [];
      var k := 0;
      while k < |state.peers|
        invariant 0 <= k <= |state.peers|
        invariant actions + VoteRequests(s, state.peers[k..]) == VoteRequests(s, state.peers)
      {
        var peer := state.peers[k];
        assert state.peers[k..][1..] == state.peers[k + 1..];
        if peer != state.id {
          var request := RequestVoteRequest(
            state.currentTerm, state.id, LastIndex(state.log.entries), LastTerm(state.log.entries));
          assert request == VoteRequestOf(s);
          actions := actions + [SendRequestVote(peer, request)];
        }
        k := k + 1;
      }
    }

    method Win() returns (actions: seq<Action>)
      requires Valid()
      modifies this, state
      ensures Valid() && View() == WinElection(old(View())).node && actions == WinElection(old(View())).actions
      ensures state.log == old(state.log)
    {
      state.BecomeLeader();
      heartbeatTimeout := 0;
      actions := ReplicateToAllPeers();
    }

    method OnRequestVote(request: RequestVoteRequest) returns (actions: seq<Action>)
      requires Valid()
      modifies this, state, persister
      ensures Valid() && state.log == old(state.log)
      ensures View() == HandleRequestVote(old(View()), request).node
      ensures actions == HandleRequestVote(old(View()), request).actions
    {
      if request.term < state.currentTerm {
        return [SendRequestVoteResponse(request.candidateId, RequestVoteResponse(state.currentTerm, false))];
      }
      if request.term > state.currentTerm {
        state.BecomeFollower(request.term);
        PersistState();
      }
      var canVote := state.votedFor == None || state.votedFor == Some(request.candidateId);
      var upToDate := UpToDate(request.lastLogTerm, request.lastLogIndex, state.log.entries);
      var granted := canVote && upToDate;
      if granted {
        state.votedFor := Some(request.candidateId);
        ResetTimeout();
        PersistState();
      }
      actions := [SendRequestVoteResponse(request.candidateId, RequestVoteResponse(state.currentTerm, granted))];
    }

    method OnRequestVoteResponse(from: NodeId, response: RequestVoteResponse) returns (actions: seq<Action>)
      requires Valid()
      modifies this, state, persister
      ensures Valid() && state.log == old(state.log)
      ensures View() == HandleRequestVoteResponse(old(View()), from, response).node
      ensures actions == HandleRequestVoteResponse(old(View()), from, response).actions
    {
      if state.role != Candidate {
        return [];
      }
      if response.term > state.currentTerm {
        state.BecomeFollower(response.term);
        PersistState();
        return [];
      }
      if response.term != state.currentTerm {
        return [];
      }
      if response.voteGranted {
        votesReceived := votesReceived + {from};
      }
      if |votesReceived| >= Majority(state.peers) {
        actions := Win();
        return;
      }
      actions := [];
    }

    // ---- Replication ----

    method OnAppendEntries(request: AppendEntriesRequest) returns (actions: seq<Action>)
      requires Valid()
      modifies this, state, state.log, persister
      ensures Valid() && state.log == old(state.log)
      ensures View() == HandleAppendEntries(old(View()), request).node
      ensures actions == HandleAppendEntries(old(View()), request).actions
    {
      if request.term < state.currentTerm {
        return [SendAppendEntriesResponse(request.leaderId, AppendEntriesResponse(state.currentTerm, false, None))];
      }
      Follow(request);
      var prevTerm := TermAt(state.log.entries, request.prevLogIndex);
      if prevTerm != request.prevLogTerm {
        return [SendAppendEntriesResponse(request.leaderId,
                  AppendEntriesResponse(state.currentTerm, false, Some(LastIndex(state.log.entries))))];
      }
      if |request.entries| > 0 {
        AddEntries(request);
      }
      actions := [];
      if request.leaderCommit > state.commitIndex {
        var last := LastIndex(state.log.entries);
        var newCommit := if request.leaderCommit < last then request.leaderCommit else last;
        actions := ApplyCommittedEntries(newCommit);
      }
      actions := actions + [SendAppendEntriesResponse(request.leaderId,
                   AppendEntriesResponse(state.currentTerm, true, Some(LastIndex(state.log.entries))))];
    }

    method Follow(request: AppendEntriesRequest)
      requires Valid()
      modifies this, state, persister
      ensures Valid() && state.log == old(state.log)
      ensures View() == FollowLeader(old(View()), request)
    {
      state.BecomeFollower(request.term);
      state.leaderId := Some(request.leaderId);
      ResetTimeout();
      PersistState();
    }

    method AddEntries(request: AppendEntriesRequest)
      requires Valid()
      modifies state.log, persister
      ensures Valid() && View() == AcceptEntries(old(View()), request)
    {
      var insertIndex := ResolveConflict(request.prevLogIndex + 1, request.entries);
      var newEntries := request.entries[insertIndex - (request.prevLogIndex + 1)..];
      if |newEntries| > 0 {
        var _ := state.log.AppendEntries(newEntries);
        PersistState();
      }
    }

    /** Skips the entries the log already holds from index `at` on, and truncates at the first
        conflict. */
    method ResolveConflict(at: nat, entries: seq<LogEntry>) returns (insertIndex: nat)
      requires Valid() && at >= 1
      modifies state.log
      ensures Valid() && insertIndex == at + MatchLength(old(state.log.entries), at, entries)
      ensures state.log.entries == if insertIndex == at + |entries| then old(state.log.entries)
                                   else TruncateFrom(old(state.log.entries), insertIndex)
    {
      ghost var log := state.log.entries;
      insertIndex := at;
      var k := 0;
      while k < |entries|
        invariant 0 <= k <= |entries| && insertIndex == at + k
        invariant state.log.entries == log
        invariant MatchLength(log, at, entries) == k + MatchLength(log, insertIndex, entries[k..])
      {
        var existing := TermAt(state.log.entries, insertIndex);
        if existing == 0 && insertIndex > LastIndex(state.log.entries) {
          break;
        }
        if existing != entries[k].term {
          state.log.Truncate(insertIndex);
          break;
        }
        assert entries[k..][1..] == entries[k + 1..];
        insertIndex := insertIndex + 1;
        k := k + 1;
      }
    }

    method ApplyCommittedEntries(newCommit: nat) returns (actions: seq<Action>)
      requires Valid()
      modifies state`lastApplied, state`commitIndex
      ensures Valid() && View() == ApplyCommitted(old(View()), newCommit).node
      ensures actions == ApplyCommitted(old(View()), newCommit).actions
    {
      ghost var from, log := state.lastApplied, state.log.entries;
      actions := [];
      while state.lastApplied < newCommit
        invariant from <= state.lastApplied && (state.lastApplied <= newCommit || state.lastApplied == from)
        invariant actions + ApplyActions(log, state.lastApplied, newCommit) == ApplyActions(log, from, newCommit)
      {
        ApplyStep(log, state.lastApplied, newCommit);
        state.lastApplied := state.lastApplied + 1;
        var index := state.lastApplied;
        if index < |state.log.entries| && state.log.entries[index].command != Noop {
          actions := actions + [ApplyEntry(index, state.log.entries[index].command)];
        }
      }
      state.commitIndex := newCommit;
    }

    method OnAppendEntriesResponse(from: NodeId, response: AppendEntriesResponse) returns (actions: seq<Action>)
      requires Valid()
      modifies this, state, persister
      ensures Valid() && state.log == old(state.log)
      ensures View() == HandleAppendEntriesResponse(old(View()), from, response).node
      ensures actions == HandleAppendEntriesResponse(old(View()), from, response).actions
    {
      if state.role != Leader {
        return [];
      }
      if response.term > state.currentTerm {
        state.BecomeFollower(response.term);
        PersistState();
        return [];
      }
      if response.success {
        if response.matchIndex.Some? {
          state.matchIndex := SetTracked(state.matchIndex, from, response.matchIndex.value);
          state.nextIndex := SetTracked(state.nextIndex, from, response.matchIndex.value + 1);
        }
        actions := MaybeAdvanceCommitIndex();
        return;
      }
      if response.matchIndex.Some? {
        state.nextIndex := SetTracked(state.nextIndex, from, response.matchIndex.value + 1);
      } else {
        var next := Lookup(state.nextIndex, from);
        if next.Some? && next.value > 1 {
          state.nextIndex := SetTracked(state.nextIndex, from, next.value - 1);
        }
      }
      actions := [];
    }

    method MaybeAdvanceCommitIndex() returns (actions: seq<Action>)
      requires Valid()
      modifies state`lastApplied, state`commitIndex
      ensures Valid() && View() == AdvanceCommit(old(View())).node
      ensures actions == AdvanceCommit(old(View())).actions
    {
      ghost var s := View();
      var oldCommit := state.commitIndex;
      var last := LastIndex(state.log.entries);
      var index := oldCommit + 1;
      while index <= last
        invariant oldCommit < index && (index <= last + 1 || index == oldCommit + 1)
        invariant state.lastApplied == s.lastApplied && state.commitIndex >= oldCommit
        invariant state.commitIndex == CommitScan(s, index - 1)
      {
        if TermAt(state.log.entries, index) == state.currentTerm {
          var replicationCount := CountReplicas(index);
          if replicationCount >= Majority(state.peers) {
            state.commitIndex := index;
          }
        }
        index := index + 1;
      }
      if state.commitIndex > oldCommit {
        actions := ApplyCommittedEntries(state.commitIndex);
      } else {
        actions := [];
      }
    }

    /** The leader itself, plus every peer whose match index reaches `index`. */
    method CountReplicas(index: nat) returns (count: nat)
      ensures count == 1 + CountAtLeast(state.matchIndex, index)
    {
      count := 1;
      var k := 0;
      while k < |state.matchIndex|
        invariant 0 <= k <= |state.matchIndex|
        invariant count + CountAtLeast(state.matchIndex[k..], index) == 1 + CountAtLeast(state.matchIndex, index)
      {
        assert state.matchIndex[k..][1..] == state.matchIndex[k + 1..];
        if state.matchIndex[k].1 >= index {
          count := count + 1;
        }
        k := k + 1;
      }
    }

    /** None when this node is not the leader. */
    method Propose(command: LogCommand) returns (actions: Option<seq<Action>>)
      requires Valid()
      modifies this, state, state.log, persister
      ensures Valid() && state.log == old(state.log)
      ensures actions.None? <==> HandlePropose(old(View()), command).None?
      ensures actions.None? ==> View() == old(View())
      ensures actions.Some? ==> HandlePropose(old(View()), command) == Some(Outcome(View(), actions.value))
    {
      if state.role != Leader {
        return None;
      }
      var _ := state.log.Append(LogEntry(state.currentTerm, command));
      PersistState();
      var sends := ReplicateToAllPeers();
      var applies := MaybeAdvanceCommitIndex();
      actions := Some(sends + applies);
    }
  }
}
