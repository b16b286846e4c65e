/** Every step keeps the acknowledgement invariant, provided a request that the node accepts
    covers its leader's log. */
module KeepInvariant {
  import opened RaftTypes
  import opened RaftLogs
  import opened RaftSpec
  import opened RaftCluster
  import opened RaftFacts
  import opened Quorums
  import opened ElectionSafety
  import opened LogMatching
  import opened Candidacies
  import opened Acknowledgements
  import opened CommitSteps

  /** The index a step acknowledges, as leader or as follower. */
  function NewAck(s': NodeState, effect: LogEffect): Option<nat> {
    match effect
    case Kept => None
    case Elected => Some(LastIndex(s'.log))
    case Extended(_) => Some(LastIndex(s'.log))
    case Accepted(r) => Some(r.prevLogIndex + |r.entries|)
  }

  ghost predicate AcksMoved(h: History, h': History, s': NodeState, effect: LogEffect) {
    forall term: nat, p: NodeId ::
      Ack(h', term, p) ==
        if term == s'.currentTerm && p == s'.id && NewAck(s', effect).Some?
           && NewAck(s', effect).value > Ack(h, term, p)
        then NewAck(s', effect).value else Ack(h, term, p)
  }

  /** Everything a step may rely on. */
  ghost predicate KeepStep(c: Cluster, e: Event, o: Outcome, effect: LogEffect) {
    && StepFacts(c, e, o, effect) && KeepInv(c)
    && RepliesOk(o.node, o.actions, effect)
    && (effect.Accepted? ==>
          && Answered(e.input) == Some(effect.request)
          && Covers(c.history.leaderLog[effect.request.term], effect.request))
  }

  lemma AcksRaised(c: Cluster, e: Event, o: Outcome, effect: LogEffect)
    requires KeepStep(c, e, o, effect)
    ensures After(c, e, o).history.acks ==
            (match NewAck(o.node, effect)
             case None => c.history.acks
             case Some(k) => Raise(c.history.acks, Tenure(o.node.currentTerm, e.node), k))
  {
    assert AckOf(e.input, o.actions) ==
           if effect.Accepted? then NewAck(o.node, effect) else None;
    if effect.Kept? && o.node.role == Leader {
      assert LeaderAcks(c, e.node);
    }
  }

  lemma AcksAfter(c: Cluster, e: Event, o: Outcome, effect: LogEffect)
    requires KeepStep(c, e, o, effect)
    ensures AcksMoved(c.history, After(c, e, o).history, o.node, effect)
    ensures forall t | t in After(c, e, o).history.acks ::
              t in c.history.acks || (t == Tenure(o.node.currentTerm, e.node) && NewAck(o.node, effect).Some?)
    ensures forall t | t in c.history.acks :: t in After(c, e, o).history.acks
    ensures o.node.role == Leader ==> LeaderAcks(After(c, e, o), e.node)
  {
    AcksRaised(c, e, o, effect);
    RaiseFacts(c.history, After(c, e, o).history, o.node, effect);
    if effect.Kept? && o.node.role == Leader {
      assert LeaderAcks(c, e.node);
    }
  }

  lemma RaiseFacts(h: History, h': History, s': NodeState, effect: LogEffect)
    requires h'.acks == (match NewAck(s', effect)
                         case None => h.acks
                         case Some(k) => Raise(h.acks, Tenure(s'.currentTerm, s'.id), k))
    ensures AcksMoved(h, h', s', effect)
  {
  }

  lemma GrowsAfter(c: Cluster, e: Event, o: Outcome, effect: LogEffect)
    requires KeepStep(c, e, o, effect)
    ensures Grows(c, After(c, e, o))
  {
    AcksAfter(c, e, o, effect);
    LeaderLogsGrow(c.history.leaderLog, c.nodes[e.node], o.node, effect);
    assert After(c, e, o).history.leaderLog == ObserveLeader(c.history.leaderLog, o.node);
    GrowsFromAcks(c, After(c, e, o), e.node, effect);
  }

  lemma GrowsFromAcks(c: Cluster, c': Cluster, i: NodeId, effect: LogEffect)
    requires i in c.nodes && i in c'.nodes && c'.nodes == c.nodes[i := c'.nodes[i]] && c'.peers == c.peers
    requires c'.nodes[i].id == i && c.nodes[i].currentTerm <= c'.nodes[i].currentTerm
    requires AcksMoved(c.history, c'.history, c'.nodes[i], effect)
    requires Grown(c.history.leaderLog, c'.history.leaderLog)
    ensures Grows(c, c')
  {
  }

  lemma AckOkAfter(c: Cluster, e: Event, o: Outcome, effect: LogEffect)
    requires KeepStep(c, e, o, effect)
    ensures var c' := After(c, e, o); forall t | t in c'.history.acks :: AckOk(c', t)
  {
    var c' := After(c, e, o);
    AcksAfter(c, e, o, effect);
    GrowsAfter(c, e, o, effect);
    forall t | t in c'.history.acks ensures AckOk(c', t) {
      assert c'.history.acks[t] == Ack(c'.history, t.term, t.node);
      if t in c.history.acks {
        assert AckOk(c, t);
      }
    }
  }

  /** An own entry that somebody had acknowledged before the step was there before the step. */
  lemma AckedEntryIsOld(c: Cluster, c': Cluster, term: nat, i: nat, p: NodeId)
    requires KeepInv(c) && Grows(c, c')
    requires OwnEntry(c'.history.leaderLog, term, i) && i <= Ack(c.history, term, p)
    ensures OwnEntry(c.history.leaderLog, term, i)
  {
    assert Tenure(term, p) in c.history.acks;
    assert AckOk(c, Tenure(term, p));
  }

  /** A newly elected leader has no entry of its own term yet. */
  lemma NewLeaderHasNoOwnEntry(leaders: LeaderLogs, s: NodeState, s': NodeState, i: nat)
    requires LogStep(leaders, s, s', Elected)
    ensures !OwnEntry(ObserveLeader(leaders, s'), s'.currentTerm, i)
  {
    if 0 < i < |s.log| {
      assert EntryOk(leaders, s.log, i);
    }
  }

  /** A follower that accepts a request keeps what it acknowledged, and holds what it acknowledges now. */
  lemma AcceptedNodeKeeps(c: Cluster, c': Cluster, p: NodeId, r: AppendEntriesRequest, term: nat, i: nat)
    requires KeepInv(c) && Grows(c, c') && p in c.nodes
    requires LogOk(c.history.leaderLog, c.nodes[p].log)
    requires RequestOk(c.history.leaderLog, r) && PassesCheck(c.nodes[p], r)
    requires Covers(c.history.leaderLog[r.term], r)
    requires OwnEntry(c.history.leaderLog, term, i)
    requires i <= Ack(c.history, term, p) || (term == r.term && i <= r.prevLogIndex + |r.entries|)
    ensures KeptIn(c', term, i, Merged(c.nodes[p].log, r.prevLogIndex + 1, r.entries))
  {
    if i <= Ack(c.history, term, p) {
      assert Tenure(term, p) in c.history.acks;
      assert AckOk(c, Tenure(term, p));
      AcceptedKeeps(c, p, r, term, i);
    } else {
      AcceptedShape(c.history.leaderLog, c.nodes[p], r);
    }
    KeptInStays(c, c', term, i, Merged(c.nodes[p].log, r.prevLogIndex + 1, r.entries));
  }

  lemma UnchangedNodeKeeps(c: Cluster, c': Cluster, p: NodeId, log: Log, term: nat, i: nat)
    requires KeepInv(c) && Grows(c, c') && p in c.nodes
    requires OwnEntry(c.history.leaderLog, term, i) && i <= Ack(c.history, term, p)
    requires AgreeUpTo(log, c.nodes[p].log, LastIndex(c.nodes[p].log))
    ensures KeptIn(c', term, i, log)
  {
    assert NodeKeeps(c, p);
    assert KeptIn(c, term, i, c.nodes[p].log);
    KeptInStays(c, c', term, i, c.nodes[p].log);
  }

  lemma FollowerKeeps(c: Cluster, c': Cluster, p: NodeId, r: AppendEntriesRequest)
    requires KeepInv(c) && Grows(c, c') && p in c.nodes && c'.history.leaderLog == c.history.leaderLog
    requires LogOk(c.history.leaderLog, c.nodes[p].log)
    requires RequestOk(c.history.leaderLog, r) && PassesCheck(c.nodes[p], r)
    requires Covers(c.history.leaderLog[r.term], r)
    requires c'.nodes[p].log == Merged(c.nodes[p].log, r.prevLogIndex + 1, r.entries)
    requires c'.nodes[p].currentTerm == r.term && c'.nodes[p].id == p
    requires AcksMoved(c.history, c'.history, c'.nodes[p], Accepted(r))
    ensures NodeKeeps(c', p)
  {
    forall term: nat, i: nat | OwnEntry(c'.history.leaderLog, term, i) && i <= Ack(c'.history, term, p)
      ensures KeptIn(c', term, i, c'.nodes[p].log)
    {
      AcceptedNodeKeeps(c, c', p, r, term, i);
    }
  }

  /** A node whose log is unchanged, or extended as leader, keeps what it acknowledged. */
  lemma ExtendingNodeKeeps(c: Cluster, c': Cluster, p: NodeId)
    requires KeepInv(c) && Grows(c, c') && p in c.nodes
    requires AgreeUpTo(c'.nodes[p].log, c.nodes[p].log, LastIndex(c.nodes[p].log))
    requires forall term: nat | Ack(c'.history, term, p) != Ack(c.history, term, p) ::
               term in c'.history.leaderLog && c'.history.leaderLog[term] == c'.nodes[p].log
    ensures NodeKeeps(c', p)
  {
    forall term: nat, i: nat | OwnEntry(c'.history.leaderLog, term, i) && i <= Ack(c'.history, term, p)
      ensures KeptIn(c', term, i, c'.nodes[p].log)
    {
      if i <= Ack(c.history, term, p) {
        AckedEntryIsOld(c, c', term, i, p);
        UnchangedNodeKeeps(c, c', p, c'.nodes[p].log, term, i);
      }
    }
  }

  lemma ThisNodeKeeps(c: Cluster, c': Cluster, p: NodeId, effect: LogEffect)
    requires KeepInv(c) && Grows(c, c') && p in c.nodes && p in c'.nodes && c'.nodes[p].id == p
    requires LogOk(c.history.leaderLog, c.nodes[p].log) && HasEffect(c.nodes[p], c'.nodes[p], effect)
    requires AcksMoved(c.history, c'.history, c'.nodes[p], effect)
    requires c'.history.leaderLog == ObserveLeader(c.history.leaderLog, c'.nodes[p])
    requires effect.Accepted? ==>
               && RequestOk(c.history.leaderLog, effect.request)
               && Covers(c.history.leaderLog[effect.request.term], effect.request)
    ensures NodeKeeps(c', p)
  {
    if effect.Accepted? {
      FollowerKeeps(c, c', p, effect.request);
    } else {
      OwnNodeAcks(c, c', p, effect);
      ExtendingNodeKeeps(c, c', p);
    }
  }

  /** Unless it accepts a request, a node's log only grows, and it acknowledges anew only what
      it holds as leader. */
  lemma OwnNodeAcks(c: Cluster, c': Cluster, p: NodeId, effect: LogEffect)
    requires p in c.nodes && p in c'.nodes && c'.nodes[p].id == p && !effect.Accepted?
    requires HasEffect(c.nodes[p], c'.nodes[p], effect)
    requires AcksMoved(c.history, c'.history, c'.nodes[p], effect)
    requires c'.history.leaderLog == ObserveLeader(c.history.leaderLog, c'.nodes[p])
    ensures AgreeUpTo(c'.nodes[p].log, c.nodes[p].log, LastIndex(c.nodes[p].log))
    ensures forall term: nat | Ack(c'.history, term, p) != Ack(c.history, term, p) ::
              term in c'.history.leaderLog && c'.history.leaderLog[term] == c'.nodes[p].log
  {
  }

  lemma NodeKeepsAfter(c: Cluster, e: Event, o: Outcome, effect: LogEffect)
    requires KeepStep(c, e, o, effect)
    ensures forall p | p in After(c, e, o).nodes :: NodeKeeps(After(c, e, o), p)
  {
    GrowsAfter(c, e, o, effect);
    AcksAfter(c, e, o, effect);
    ThisNodeKeeps(c, After(c, e, o), e.node, effect);
    OtherNodesKeep(c, After(c, e, o), e.node, effect);
  }

  lemma OtherNodesKeep(c: Cluster, c': Cluster, i: NodeId, effect: LogEffect)
    requires KeepInv(c) && Grows(c, c') && i in c.nodes && i in c'.nodes && c'.nodes[i].id == i
    requires c'.nodes == c.nodes[i := c'.nodes[i]] && AcksMoved(c.history, c'.history, c'.nodes[i], effect)
    ensures forall p | p in c'.nodes && p != i :: NodeKeeps(c', p)
  {
    forall p | p in c'.nodes && p != i ensures NodeKeeps(c', p) {
      ExtendingNodeKeeps(c, c', p);
    }
  }

  // ---- Votes ----

  /** A granted vote: the voter's log holds what it acknowledged, so the candidate's does. */
  lemma GrantKeeps(c: Cluster, p: NodeId, candidate: Log, term: nat, i: nat)
    requires KeepInv(c) && LogInv(c) && p in c.nodes
    requires LogOk(c.history.leaderLog, candidate)
    requires UpToDate(LastTerm(candidate), LastIndex(candidate), c.nodes[p].log)
    requires OwnEntry(c.history.leaderLog, term, i) && i <= Ack(c.history, term, p)
    ensures KeptIn(c, term, i, candidate)
  {
    assert NodeKeeps(c, p) && NodeLogOk(c, p) && LeaderLogOk(c, term);
    assert KeptIn(c, term, i, c.nodes[p].log);
    if !Blocked(c, term, i) {
      UpToDateKeeps(c, c.nodes[p].log, candidate, term, i);
    }
  }

  lemma OldVoteKeeps(c: Cluster, c': Cluster, v: Vote)
    requires KeepInv(c) && Grows(c, c')
    requires v in c.history.votes && VoteStands(c, v)
    requires var t := Tenure(v.term, v.candidate);
             && t in c.history.candidateLog && t in c'.history.candidateLog
             && c'.history.candidateLog[t] == c.history.candidateLog[t]
    ensures VoteKeeps(c', v)
  {
    var log := c.history.candidateLog[Tenure(v.term, v.candidate)];
    forall term: nat, i: nat
      | OwnEntry(c'.history.leaderLog, term, i) && term < v.term && i <= Ack(c'.history, term, v.voter)
      ensures KeptIn(c', term, i, log)
    {
      AckedEntryIsOld(c, c', term, i, v.voter);
      assert VoteKeeps(c, v);
      assert KeptIn(c, term, i, log);
      KeptInStays(c, c', term, i, log);
    }
  }

  lemma GrantedVoteKeeps(c: Cluster, c': Cluster, v: Vote, log: Log)
    requires KeepInv(c) && LogInv(c) && Grows(c, c') && v.voter in c.nodes
    requires forall term: nat :: Ack(c'.history, term, v.voter) == Ack(c.history, term, v.voter)
    requires LogOk(c.history.leaderLog, log) && UpToDate(LastTerm(log), LastIndex(log), c.nodes[v.voter].log)
    requires var t := Tenure(v.term, v.candidate);
             t in c'.history.candidateLog && c'.history.candidateLog[t] == log
    ensures VoteKeeps(c', v)
  {
    forall term: nat, i: nat
      | OwnEntry(c'.history.leaderLog, term, i) && term < v.term && i <= Ack(c'.history, term, v.voter)
      ensures KeptIn(c', term, i, log)
    {
      AckedEntryIsOld(c, c', term, i, v.voter);
      GrantKeeps(c, v.voter, log, term, i);
      KeptInStays(c, c', term, i, log);
    }
  }

  lemma OwnVoteKeeps(c': Cluster, v: Vote)
    requires v.voter in c'.nodes && NodeKeeps(c', v.voter)
    requires Tenure(v.term, v.candidate) in c'.history.candidateLog
    requires c'.history.candidateLog[Tenure(v.term, v.candidate)] == c'.nodes[v.voter].log
    ensures VoteKeeps(c', v)
  {
    var log := c'.nodes[v.voter].log;
    forall term: nat, i: nat
      | OwnEntry(c'.history.leaderLog, term, i) && term < v.term && i <= Ack(c'.history, term, v.voter)
      ensures KeptIn(c', term, i, log)
    {
    }
  }

  lemma {:induction false} NewCandidacyLog(c: Cluster, e: Event, o: Outcome)
    requires CandidateInv(c) && Enabled(c, e) && o.node.id == e.node
    requires o.node.currentTerm > c.nodes[e.node].currentTerm && o.node.role != Follower
    ensures var t := Tenure(o.node.currentTerm, e.node);
            t in After(c, e, o).history.candidateLog && After(c, e, o).history.candidateLog[t] == o.node.log
  {
    var t := Tenure(o.node.currentTerm, e.node);
    assert t in c.history.candidateLog ==> CandidacyOk(c, t);
  }

  lemma NewVoteKeeps(c: Cluster, e: Event, o: Outcome, effect: LogEffect, v: Vote)
    requires KeepInv(c) && LogInv(c) && CandidateInv(c) && Enabled(c, e) && Grows(c, After(c, e, o))
    requires AcksMoved(c.history, After(c, e, o).history, o.node, effect)
    requires o.node.id == e.node && c.nodes[e.node].id == e.node && TallyOk(c, e.node)
    requires VoteCast(c.nodes[e.node], o.node, e.input)
    requires e.input.Deliver? && e.input.envelope.body.RequestVote? ==>
               effect == Kept && AddressOk(e.input.envelope)
    requires NodeKeeps(After(c, e, o), e.node)
    requires v in After(c, e, o).history.votes && v !in c.history.votes
    ensures VoteKeeps(After(c, e, o), v)
  {
    var c' := After(c, e, o);
    if Granted(c.nodes[e.node], o.node, e.input) {
      var m := e.input.envelope;
      var t := Tenure(v.term, v.candidate);
      assert Describes(c.history.candidateLog, m.from, m.body.voteRequest);
      assert CandidacyOk(c, t);
      GrantedVoteKeeps(c, c', v, c.history.candidateLog[t]);
    } else {
      NewCandidacyLog(c, e, o);
      OwnVoteKeeps(c', v);
    }
  }

  lemma VoteKeepsAfter(c: Cluster, e: Event, o: Outcome, effect: LogEffect)
    requires KeepInv(c) && LogInv(c) && CandidateInv(c) && Enabled(c, e) && Grows(c, After(c, e, o))
    requires ElectionInv(c)
    requires AcksMoved(c.history, After(c, e, o).history, o.node, effect)
    requires o.node.id == e.node
    requires VoteCast(c.nodes[e.node], o.node, e.input)
    requires e.input.Deliver? && e.input.envelope.body.RequestVote? ==> effect == Kept
    requires NodeKeeps(After(c, e, o), e.node)
    ensures forall v | v in After(c, e, o).history.votes :: VoteKeeps(After(c, e, o), v)
  {
    assert NodeOk(c, e.node) && TallyOk(c, e.node);
    assert e.input.Deliver? ==> AddressOk(e.input.envelope);
    forall v | v in After(c, e, o).history.votes ensures VoteKeeps(After(c, e, o), v) {
      if v in c.history.votes {
        assert VoteStands(c, v);
        OldVoteKeeps(c, After(c, e, o), v);
      } else {
        NewVoteKeeps(c, e, o, effect, v);
      }
    }
  }

  // ---- Leaders ----

  lemma ElectorsAreQuorum(c: Cluster, t: Tenure)
    requires ElectionInv(c) && t in c.history.electors
    ensures Quorum(c.peers, c.history.electors[t])
    ensures forall x | x in c.history.electors[t] ::
              x in c.nodes && c.nodes[x].currentTerm >= t.term && Vote(t.term, x, t.node) in c.history.votes
  {
    assert TenureOk(c, t);
    forall x | x in c.history.electors[t] ensures x in c.nodes && c.nodes[x].currentTerm >= t.term {
      assert VoteStands(c, Vote(t.term, x, t.node));
    }
  }

  /** A newly elected leader: if one of its electors acknowledged an earlier entry, the vote
      shows the leader's log holds it; if none did, they are a quorum that blocks it. */
  lemma NewLeaderKeeps(c: Cluster, t: Tenure)
    requires ElectionInv(c) && t in c.history.electors && t.term in c.history.leaderLog
    requires forall v | v in c.history.votes :: VoteKeeps(c, v)
    requires t in c.history.candidateLog && c.history.candidateLog[t] == c.history.leaderLog[t.term]
    ensures LeaderKeeps(c, t.term)
  {
    var q := c.history.electors[t];
    var log := c.history.leaderLog[t.term];
    ElectorsAreQuorum(c, t);
    forall term: nat, i: nat | OwnEntry(c.history.leaderLog, term, i) && term < t.term
      ensures KeptIn(c, term, i, log)
    {
      if x :| x in q && Ack(c.history, term, x) >= i {
        assert VoteKeeps(c, Vote(t.term, x, t.node));
      } else {
        assert Behind(c, q, term, i);
      }
    }
  }

  /** An entry a stale leader appends after a later leader was elected is blocked at once. */
  lemma LateEntryBlocked(c: Cluster, later: Tenure, term: nat, i: nat)
    requires ElectionInv(c) && later in c.history.electors && term < later.term
    requires forall x | x in c.nodes && c.nodes[x].currentTerm > term :: Ack(c.history, term, x) < i
    ensures Blocked(c, term, i)
  {
    ElectorsAreQuorum(c, later);
    assert Behind(c, c.history.electors[later], term, i);
  }

  lemma OldLeaderKeeps(c: Cluster, c': Cluster, later: nat)
    requires KeepInv(c) && Grows(c, c') && later in c.history.leaderLog
    requires forall term: nat, i: nat | OwnEntry(c'.history.leaderLog, term, i) && term < later ::
               OwnEntry(c.history.leaderLog, term, i) || Blocked(c', term, i)
    ensures LeaderKeeps(c', later)
  {
    var log := c.history.leaderLog[later];
    forall term: nat, i: nat | OwnEntry(c'.history.leaderLog, term, i) && term < later
      ensures KeptIn(c', term, i, c'.history.leaderLog[later])
    {
      if !Blocked(c', term, i) {
        assert LeaderKeeps(c, later);
        assert KeptIn(c, term, i, log);
        KeptInStays(c, c', term, i, log);
      }
    }
  }

  /** An own entry is new only when a leader appends it, and then it is that leader's last. */
  lemma NewOwnEntry(leaders: LeaderLogs, s: NodeState, s': NodeState, effect: LogEffect, term: nat, i: nat)
    requires LogStep(leaders, s, s', effect)
    requires OwnEntry(ObserveLeader(leaders, s'), term, i) && !OwnEntry(leaders, term, i)
    ensures effect.Extended? && term == s'.currentTerm && i == LastIndex(s'.log) && i == |leaders[term]|
  {
    if effect.Elected? {
      if term == s'.currentTerm {
        NewLeaderHasNoOwnEntry(leaders, s, s', i);
      }
    }
  }

  lemma EntriesOldOrBlocked(c: Cluster, e: Event, o: Outcome, effect: LogEffect, later: nat, term: nat, i: nat)
    requires KeepStep(c, e, o, effect) && Grows(c, After(c, e, o))
    requires AcksMoved(c.history, After(c, e, o).history, o.node, effect)
    requires ElectionInv(After(c, e, o))
    requires later in c.history.leaderLog && term < later
    requires OwnEntry(After(c, e, o).history.leaderLog, term, i)
    ensures OwnEntry(c.history.leaderLog, term, i) || Blocked(After(c, e, o), term, i)
  {
    var c' := After(c, e, o);
    if !OwnEntry(c.history.leaderLog, term, i) {
      NewOwnEntry(c.history.leaderLog, c.nodes[e.node], o.node, effect, term, i);
      assert LeaderLogOk(c, later);
      var n :| Tenure(later, n) in c.history.electors;
      NewEntryUnacked(c, c', e.node, o.node, effect, i);
      LateEntryBlocked(c', Tenure(later, n), term, i);
    }
  }

  lemma NewEntryUnacked(c: Cluster, c': Cluster, p: NodeId, s': NodeState, effect: LogEffect, i: nat)
    requires KeepInv(c) && p in c'.nodes && c'.nodes[p] == s' && s'.id == p
    requires AcksMoved(c.history, c'.history, s', effect)
    requires s'.currentTerm in c.history.leaderLog && i == |c.history.leaderLog[s'.currentTerm]|
    ensures forall x | x in c'.nodes && c'.nodes[x].currentTerm > s'.currentTerm ::
              Ack(c'.history, s'.currentTerm, x) < i
  {
    forall x | x in c'.nodes && c'.nodes[x].currentTerm > s'.currentTerm
      ensures Ack(c'.history, s'.currentTerm, x) < i
    {
      var t := Tenure(s'.currentTerm, x);
      assert t in c.history.acks ==> AckOk(c, t);
    }
  }

  lemma LeaderKeepsAfter(c: Cluster, e: Event, o: Outcome, effect: LogEffect)
    requires KeepStep(c, e, o, effect) && Grows(c, After(c, e, o))
    requires AcksMoved(c.history, After(c, e, o).history, o.node, effect)
    requires ElectionInv(After(c, e, o)) && CandidateInv(c)
    requires forall v | v in After(c, e, o).history.votes :: VoteKeeps(After(c, e, o), v)
    ensures forall t | t in After(c, e, o).history.leaderLog :: LeaderKeeps(After(c, e, o), t)
  {
    var c' := After(c, e, o);
    forall t | t in c'.history.leaderLog ensures LeaderKeeps(c', t) {
      if t in c.history.leaderLog {
        forall term: nat, i: nat | OwnEntry(c'.history.leaderLog, term, i) && term < t
          ensures OwnEntry(c.history.leaderLog, term, i) || Blocked(c', term, i)
        {
          EntriesOldOrBlocked(c, e, o, effect, t, term, i);
        }
        OldLeaderKeeps(c, c', t);
      } else {
        ElectedLogIsCandidateLog(c, e, o, effect);
        NewLeaderKeeps(c', Tenure(t, e.node));
      }
    }
  }

  lemma ElectedLogIsCandidateLog(c: Cluster, e: Event, o: Outcome, effect: LogEffect)
    requires StepFacts(c, e, o, effect) && CandidateInv(c)
    requires o.node.role == Leader && o.node.currentTerm !in c.history.leaderLog
    ensures var t := Tenure(o.node.currentTerm, e.node);
            && t in After(c, e, o).history.candidateLog
            && After(c, e, o).history.candidateLog[t] == o.node.log
            && t in After(c, e, o).history.electors
  {
    assert CandidateOk(c, e.node);
    if o.node.currentTerm > c.nodes[e.node].currentTerm {
      NewCandidacyLog(c, e, o);
    }
  }

  // ---- All of it ----

  lemma LeaderAcksAfter(c: Cluster, c': Cluster, p: NodeId, s': NodeState, effect: LogEffect)
    requires p in c.nodes && c'.nodes == c.nodes[p := s'] && s'.id == p
    requires AcksMoved(c.history, c'.history, s', effect)
    requires forall t | t in c.history.acks :: t in c'.history.acks
    requires forall q | q in c.nodes && c.nodes[q].role == Leader :: LeaderAcks(c, q)
    requires s'.role == Leader ==> LeaderAcks(c', p)
    ensures forall q | q in c'.nodes && c'.nodes[q].role == Leader :: LeaderAcks(c', q)
  {
    forall q | q in c'.nodes && c'.nodes[q].role == Leader ensures LeaderAcks(c', q) {
      if q != p {
        assert LeaderAcks(c, q);
        assert Ack(c'.history, c.nodes[q].currentTerm, q) == Ack(c.history, c.nodes[q].currentTerm, q);
      }
    }
  }

  lemma KeepInvAfter(c: Cluster, e: Event, o: Outcome, effect: LogEffect)
    requires KeepStep(c, e, o, effect) && ElectionInv(c) && CandidateInv(c)
    requires ElectionInv(After(c, e, o))
    requires VoteCast(c.nodes[e.node], o.node, e.input)
    requires e.input.Deliver? && e.input.envelope.body.RequestVote? ==> effect == Kept
    ensures KeepInv(After(c, e, o)) && Grows(c, After(c, e, o))
  {
    var c' := After(c, e, o);
    GrowsAfter(c, e, o, effect);
    AcksAfter(c, e, o, effect);
    AckOkAfter(c, e, o, effect);
    NodeKeepsAfter(c, e, o, effect);
    VoteKeepsAfter(c, e, o, effect);
    LeaderKeepsAfter(c, e, o, effect);
    LeaderAcksAfter(c, c', e.node, o.node, effect);
  }
}
