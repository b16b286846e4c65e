/** Apply order: over one uptime of a node, for any inputs whatever, the ApplyEntry actions
    have strictly increasing indices, leave out nothing but Noops, and carry the command that
    is in the log when they are emitted. */
module ApplyOrder {
  import opened RaftTypes
  import opened RaftLogs
  import opened RaftSpec
  import opened RaftCluster
  import opened RaftFacts
  import opened CommitSteps

  function Emitted(actions: seq<Action>): seq<Action> {
    if actions == [] then []
    else (if actions[0].ApplyEntry? then [actions[0]] else []) + Emitted(actions[1..])
  }

  lemma {:induction false} EmittedConcat(a: seq<Action>, b: seq<Action>)
    ensures Emitted(a + b) == Emitted(a) + Emitted(b)
  {
    if a == [] {
      assert a + b == b;
    } else {
      assert (a + b)[1..] == a[1..] + b;
      EmittedConcat(a[1..], b);
    }
  }

  lemma {:induction false} SendsEmitNothing(actions: seq<Action>)
    requires forall a | a in actions :: !a.ApplyEntry?
    ensures Emitted(actions) == []
  {
    if actions != [] {
      SendsEmitNothing(actions[1..]);
    }
  }

  lemma {:induction false} ApplicationsEmitThemselves(log: Log, from: nat, upTo: nat)
    ensures Emitted(ApplyActions(log, from, upTo)) == ApplyActions(log, from, upTo)
    decreases upTo - from
  {
    if from < upTo {
      ApplicationsEmitThemselves(log, from + 1, upTo);
      EmittedConcat(if from + 1 < |log| && log[from + 1].command != Noop
                    then [ApplyEntry(from + 1, log[from + 1].command)] else [],
                    ApplyActions(log, from + 1, upTo));
    }
  }

  lemma {:induction false} ReplicationEmitsNothing(s: NodeState, peers: seq<NodeId>)
    ensures Emitted(ReplicateTo(s, peers)) == []
  {
    if peers != [] {
      ReplicationEmitsNothing(s, peers[1..]);
    }
  }

  /** A step emits exactly the entries between the old and the new last_applied. */
  ghost predicate EmitsGap(s: NodeState, o: Outcome) {
    && Emitted(o.actions) == ApplyActions(o.node.log, s.lastApplied, o.node.lastApplied)
    && s.lastApplied <= o.node.lastApplied
    && (s.lastApplied < o.node.lastApplied ==> o.node.lastApplied <= LastIndex(o.node.log))
  }

  lemma AdvanceEmits(s: NodeState)
    ensures EmitsGap(s, AdvanceCommit(s))
  {
    CommitScanFacts(s, LastIndex(s.log));
    ApplicationsEmitThemselves(s.log, s.lastApplied, CommitScan(s, LastIndex(s.log)));
  }

  lemma FollowEmits(s: NodeState, leaderCommit: nat)
    ensures EmitsGap(s, FollowCommit(s, leaderCommit))
  {
    ApplicationsEmitThemselves(s.log, s.lastApplied, FollowCommit(s, leaderCommit).node.commitIndex);
  }

  lemma AppendEntriesEmits(s: NodeState, r: AppendEntriesRequest)
    ensures EmitsGap(s, HandleAppendEntries(s, r))
  {
    var s2 := AcceptEntries(FollowLeader(s, r), r);
    FollowEmits(s2, r.leaderCommit);
    EmittedConcat(FollowCommit(s2, r.leaderCommit).actions,
                  [SendAppendEntriesResponse(r.leaderId,
                     AppendEntriesResponse(s2.currentTerm, true, Some(LastIndex(s2.log))))]);
  }

  lemma TickEmits(s: NodeState)
    ensures EmitsGap(s, HandleTick(s))
  {
    if s.role == Leader {
      var s1 := s.(timers := s.timers.(heartbeat := HEARTBEAT_INTERVAL));
      ReplicationEmitsNothing(s1, s1.peers);
    } else {
      var s0 := s.(timers := s.timers.(election := CountDown(s.timers.election)));
      var s1 := Persist(ResetElectionTimeout(BecomeCandidate(s0).(votesReceived := {s.id})));
      ReplicationEmitsNothing(WinElection(s1).node, s1.peers);
      VoteRequestFacts(s1, s1.peers);
      SendsEmitNothing(VoteRequests(s1, s1.peers));
    }
  }

  lemma ProposeEmits(s: NodeState, command: LogCommand)
    requires s.role == Leader
    ensures EmitsGap(s, HandlePropose(s, command).value)
  {
    var s1 := Appended(s, command);
    AdvanceEmits(s1);
    ReplicationEmitsNothing(s1, s1.peers);
    EmittedConcat(ReplicateTo(s1, s1.peers), AdvanceCommit(s1).actions);
  }

  lemma DeliverEmits(s: NodeState, e: Envelope)
    ensures EmitsGap(s, Receive(s, e))
  {
    match e.body
    case RequestVote(r) =>
    case VoteResponse(r) =>
      var s1 := if r.voteGranted then s.(votesReceived := s.votesReceived + {e.from}) else s;
      ReplicationEmitsNothing(WinElection(s1).node, s1.peers);
    case AppendEntries(r) => AppendEntriesEmits(s, r);
    case AppendResponse(r) =>
      AdvanceEmits(match r.matchIndex
                   case None => s
                   case Some(m) => s.(matchIndex := SetFirst(s.matchIndex, e.from, m),
                                      nextIndex := SetFirst(s.nextIndex, e.from, m + 1)));
  }

  lemma NodeStepEmits(s: NodeState, input: Input)
    requires !input.Restart?
    ensures EmitsGap(s, NodeStep(s, input))
  {
    match input
    case Tick => TickEmits(s);
    case Propose(command) =>
      if s.role == Leader {
        ProposeEmits(s, command);
      }
    case Deliver(envelope) => DeliverEmits(s, envelope);
  }

  // ---- One uptime ----

  function UptimeEnd(s: NodeState, inputs: seq<Input>): NodeState
    decreases |inputs|
  {
    if inputs == [] then s else UptimeEnd(NodeStep(s, inputs[0]).node, inputs[1..])
  }

  function UptimeEmitted(s: NodeState, inputs: seq<Input>): seq<Action>
    decreases |inputs|
  {
    if inputs == [] then []
    else Emitted(NodeStep(s, inputs[0]).actions) + UptimeEmitted(NodeStep(s, inputs[0]).node, inputs[1..])
  }

  ghost predicate IncreasingWithin(actions: seq<Action>, from: nat, upTo: nat) {
    && (forall k | 0 <= k < |actions| :: actions[k].ApplyEntry? && from < actions[k].index <= upTo)
    && (forall j, k | 0 <= j < k < |actions| :: actions[j].index < actions[k].index)
  }

  /** Index j was passed by some step, which emitted the command then in the log, or it was a Noop. */
  ghost predicate Passed(s: NodeState, inputs: seq<Input>, j: nat)
    decreases |inputs|
  {
    inputs != [] &&
    var o := NodeStep(s, inputs[0]);
    if j <= o.node.lastApplied
    then j < |o.node.log|
         && (o.node.log[j].command == Noop || ApplyEntry(j, o.node.log[j].command) in Emitted(o.actions))
    else Passed(o.node, inputs[1..], j)
  }

  lemma {:induction false} ApplyActionsIncreasing(log: Log, from: nat, upTo: nat)
    ensures IncreasingWithin(ApplyActions(log, from, upTo), from, upTo)
    decreases upTo - from
  {
    if from < upTo {
      ApplyActionsIncreasing(log, from + 1, upTo);
    }
  }

  lemma {:induction false} ApplyActionsComplete(log: Log, from: nat, upTo: nat, j: nat)
    requires from < j <= upTo < |log| && log[j].command != Noop
    ensures ApplyEntry(j, log[j].command) in ApplyActions(log, from, upTo)
    decreases upTo - from
  {
    if j > from + 1 {
      ApplyActionsComplete(log, from + 1, upTo, j);
    }
  }

  /** Over one uptime the emitted indices increase strictly, from the first last_applied to the last. */
  lemma {:induction false} ApplyOrderTheorem(s: NodeState, inputs: seq<Input>)
    requires forall k | 0 <= k < |inputs| :: !inputs[k].Restart?
    ensures s.lastApplied <= UptimeEnd(s, inputs).lastApplied
    ensures IncreasingWithin(UptimeEmitted(s, inputs), s.lastApplied, UptimeEnd(s, inputs).lastApplied)
    decreases |inputs|
  {
    if inputs != [] {
      var o := NodeStep(s, inputs[0]);
      NodeStepEmits(s, inputs[0]);
      ApplyActionsIncreasing(o.node.log, s.lastApplied, o.node.lastApplied);
      ApplyOrderTheorem(o.node, inputs[1..]);
    }
  }

  /** ... and every index up to the final last_applied was emitted in passing, unless it was a Noop. */
  lemma {:induction false} ApplySkipsNothing(s: NodeState, inputs: seq<Input>, j: nat)
    requires forall k | 0 <= k < |inputs| :: !inputs[k].Restart?
    requires s.lastApplied < j <= UptimeEnd(s, inputs).lastApplied
    ensures Passed(s, inputs, j)
    decreases |inputs|
  {
    var o := NodeStep(s, inputs[0]);
    NodeStepEmits(s, inputs[0]);
    if j > o.node.lastApplied {
      ApplySkipsNothing(o.node, inputs[1..], j);
    } else if o.node.log[j].command != Noop {
      ApplyActionsComplete(o.node.log, s.lastApplied, o.node.lastApplied, j);
    }
  }
}
