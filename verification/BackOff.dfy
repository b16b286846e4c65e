/** Back-off in runs: in every reachable state the condition of CatchUp decides, for each
    leader and each peer of no higher term, whether request/reply rounds will ever reconcile
    their logs; and a run without any hazard reaches a pair that they never will. */
module BackOff {
  import opened RaftTypes
  import opened RaftLogs
  import opened RaftSpec
  import opened RaftCluster
  import opened RaftFacts
  import opened Persistence
  import opened ElectionSafety
  import opened LogMatching
  import opened LeaderCompleteness
  import opened CatchUp
  import opened RunTools
  import opened RaftHazards

  // ---- A leader tracks every other peer ----

  ghost predicate TracksPeer(s: NodeState, p: NodeId) {
    Lookup(s.nextIndex, p).Some? && Lookup(s.matchIndex, p).Some?
  }

  ghost predicate TracksOthers(s: NodeState) {
    s.role == Leader ==> forall p | p in s.peers && p != s.id :: TracksPeer(s, p)
  }

  lemma SetFirstKeeps(pairs: seq<(NodeId, nat)>, id: NodeId, value: nat, p: NodeId)
    requires Lookup(pairs, p).Some?
    ensures Lookup(SetFirst(pairs, id, value), p).Some?
  {
    if p == id {
      LookupSetFirst(pairs, id, value);
    } else {
      LookupSetOther(pairs, id, value, p);
    }
  }

  lemma WinnerTracks(s: NodeState)
    ensures TracksOthers(WinElection(s).node)
  {
    forall p | p in s.peers && p != s.id ensures TracksPeer(WinElection(s).node, p) {
      TrackingLookup(s.peers, s.id, LastIndex(s.log) + 1, p);
      TrackingLookup(s.peers, s.id, 0, p);
    }
  }

  lemma ReplyTracks(s: NodeState, from: NodeId, r: AppendEntriesResponse)
    requires TracksOthers(s)
    ensures TracksOthers(HandleAppendEntriesResponse(s, from, r).node)
  {
    var s' := HandleAppendEntriesResponse(s, from, r).node;
    if s'.role == Leader {
      forall p | p in s.peers && p != s.id ensures TracksPeer(s', p) {
        assert TracksPeer(s, p);
        if r.matchIndex.Some? {
          SetFirstKeeps(s.nextIndex, from, r.matchIndex.value + 1, p);
          SetFirstKeeps(s.matchIndex, from, r.matchIndex.value, p);
        } else if Lookup(s.nextIndex, from).Some? && Lookup(s.nextIndex, from).value > 1 {
          SetFirstKeeps(s.nextIndex, from, Lookup(s.nextIndex, from).value - 1, p);
        }
      }
    }
  }

  lemma NodeStepTracks(s: NodeState, input: Input)
    requires TracksOthers(s)
    ensures TracksOthers(NodeStep(s, input).node)
  {
    match input
    case Tick =>
      var s0 := s.(timers := s.timers.(election := CountDown(s.timers.election)));
      WinnerTracks(Persist(ResetElectionTimeout(BecomeCandidate(s0).(votesReceived := {s.id}))));
    case Propose(command) =>
    case Restart =>
    case Deliver(e) =>
      match e.body
      case RequestVote(r) =>
      case VoteResponse(r) =>
        WinnerTracks(if r.voteGranted then s.(votesReceived := s.votesReceived + {e.from}) else s);
      case AppendEntries(r) =>
      case AppendResponse(r) => ReplyTracks(s, e.from, r);
  }

  lemma {:induction false} RunTracks(c: Cluster, events: seq<Event>)
    requires forall i | i in c.nodes :: TracksOthers(c.nodes[i])
    ensures forall i | i in Exec(c, events).nodes :: TracksOthers(Exec(c, events).nodes[i])
    decreases |events|
  {
    if events != [] {
      var e := events[0];
      if Enabled(c, e) {
        NodeStepTracks(c.nodes[e.node], e.input);
      }
      RunTracks(Step(c, e), events[1..]);
    }
  }

  // ---- Every run ----

  lemma LogsOkForRounds(leaders: LeaderLogs, f: Log, l: Log)
    requires LogOk(leaders, f) && LogOk(leaders, l)
    ensures RealTerms(f) && RealTerms(l) && Matching(f, l)
  {
    LogsMatch(leaders, f, l);
    forall k | 1 <= k < |f| ensures f[k].term >= 1 {
      assert EntryOk(leaders, f, k);
    }
    forall k | 1 <= k < |l| ensures l[k].term >= 1 {
      assert EntryOk(leaders, l, k);
    }
  }

  lemma PairTracks(c: Cluster, i: NodeId, j: NodeId) returns (next: nat)
    requires BasicInv(c) && i in c.nodes && j in c.nodes && i != j && TracksOthers(c.nodes[i])
    requires c.nodes[i].role == Leader && c.nodes[j].currentTerm <= c.nodes[i].currentTerm
    ensures Lookup(c.nodes[i].nextIndex, j) == Some(next) && Tracks(Pair(c.nodes[i], c.nodes[j]), next)
  {
    assert NodeOk(c, i) && NodeOk(c, j) && NodeLogOk(c, i) && NodeLogOk(c, j);
    assert j in c.peers && TracksPeer(c.nodes[i], j);
    next := Lookup(c.nodes[i].nextIndex, j).value;
    LookupAtLeastOne(c.nodes[i].nextIndex, j);
    LogsOkForRounds(c.history.leaderLog, c.nodes[j].log, c.nodes[i].log);
  }

  /** In every reachable state, for every leader and every peer of no higher term. */
  lemma BackOffInRuns(peers: seq<NodeId>, events: seq<Event>, i: NodeId, j: NodeId) returns (next: nat)
    requires var c := Exec(Initial(peers), events);
             && i in c.nodes && j in c.nodes && i != j && c.nodes[i].role == Leader
             && c.nodes[j].currentTerm <= c.nodes[i].currentTerm
    ensures var c := Exec(Initial(peers), events);
            var p := Pair(c.nodes[i], c.nodes[j]);
            && Lookup(c.nodes[i].nextIndex, j) == Some(next) && next >= 1
            && ((exists n: nat :: CaughtUp(Rounds(p, n))) <==> Reconciles(p, next))
            && (Reconciles(p, next) ==> CaughtUp(Rounds(p, 2)))
            && (!Reconciles(p, next) ==> forall n: nat :: Rounds(p, n).follower.log == p.follower.log)
  {
    var c := Exec(Initial(peers), events);
    BasicInvInitial(peers);
    BasicInvRun(Initial(peers), events);
    RunTracks(Initial(peers), events);
    next := PairTracks(c, i, j);
    BackOffTheorem(Pair(c.nodes[i], c.nodes[j]), next);
  }

  // ---- A follower that never catches up ----

  /** Node 2 takes an entry of its own in term 2, restarts and wins term 3, while node 1 still
      holds an entry of term 1. */
  lemma StuckRun(c: Cluster) returns (c': Cluster)
    requires HasOfThree(c, 1, 1, [SENTINEL, X1]) && AllDurable(c)
    requires HasOfThree(c, 2, 1, EMPTY_LOG) && c.nodes[2].role == Follower
    requires HasOfThree(c, 3, 0, EMPTY_LOG)
    ensures Reaches(c, c', NOTHING)
    ensures HasOfThree(c', 1, 1, [SENTINEL, X1])
    ensures HasOfThree(c', 2, 3, [SENTINEL, Y2]) && JustElected(c', 2, 3, [SENTINEL, Y2])
  {
    var c1 := SecondLeads(c);
    ReachesDurable(c, c1, NOTHING);
    var c2 := Restarts(c1, 2, NOTHING);
    ReachesTrans(c, c1, c2, NOTHING);
    assert HasOfThree(c2, 2, 2, [SENTINEL, Y2]) && HasOfThree(c2, 3, 2, EMPTY_LOG);
    c' := ElectWithOne(c2, 2, 3, NOTHING);
    ReachesTrans(c, c2, c', NOTHING);
  }

  lemma SecondLeads(c: Cluster) returns (c': Cluster)
    requires HasOfThree(c, 2, 1, EMPTY_LOG) && c.nodes[2].role == Follower && HasOfThree(c, 3, 0, EMPTY_LOG)
    ensures Reaches(c, c', NOTHING) && OnlyTouched(c, c', {2, 3})
    ensures HasOfThree(c', 2, 2, [SENTINEL, Y2]) && HasOfThree(c', 3, 2, EMPTY_LOG)
  {
    var c1 := ElectWithOne(c, 2, 3, NOTHING);
    c' := Proposes(c1, 2, Y, NOTHING);
    assert c'.nodes[2].log == [SENTINEL, Y2];
    Extends(c, c1, c', {2, 3}, {2}, NOTHING);
    assert {2, 3} + {2} == {2, 3};
  }

  lemma PairIsStuck(c: Cluster)
    requires HasOfThree(c, 1, 1, [SENTINEL, X1])
    requires HasOfThree(c, 2, 3, [SENTINEL, Y2]) && JustElected(c, 2, 3, [SENTINEL, Y2])
    ensures Lookup(c.nodes[2].nextIndex, 1) == Some(2) && !Reconciles(Pair(c.nodes[2], c.nodes[1]), 2)
  {
    TrackingLookup(THREE, 2, 2, 1);
    assert c.nodes[1].log[1].term == 1 && c.nodes[2].log[1].term == 2;
  }

  ghost predicate NeverReconciled(c: Cluster, i: NodeId, j: NodeId) {
    && i in c.nodes && j in c.nodes && c.nodes[i].role == Leader
    && c.nodes[j].currentTerm <= c.nodes[i].currentTerm
    && forall n: nat :: !CaughtUp(Rounds(Pair(c.nodes[i], c.nodes[j]), n))
  }

  /** A run without any hazard reaches a leader and a peer whose logs no number of rounds will
      ever reconcile. */
  lemma FollowerNeverCatchesUp()
    ensures exists events: seq<Event> ::
              RunPermitted(Initial(THREE), events, NOTHING) && NeverReconciled(Exec(Initial(THREE), events), 2, 1)
  {
    var c0 := Initial(THREE);
    var c1 := LeaderWithEntry(NOTHING);
    ReachesDurable(c0, c1, NOTHING);
    var c2 := StuckRun(c1);
    ReachesTrans(c0, c1, c2, NOTHING);
    PairIsStuck(c2);
    var events: seq<Event> :| Leads(c0, events, c2, NOTHING);
    var next := BackOffInRuns(THREE, events, 2, 1);
    assert NeverReconciled(c2, 2, 1);
    assert RunPermitted(Initial(THREE), events, NOTHING) && NeverReconciled(Exec(Initial(THREE), events), 2, 1);
  }
}
