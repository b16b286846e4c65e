/** What an acknowledgement binds. An own entry (T, i) is an entry at index i made by the
    leader of term T. Whoever acknowledged it keeps it, votes only for candidates that hold
    it, and later leaders hold it - unless a quorum has moved past term T without
    acknowledging it, after which it can never be replicated on a majority in term T. */
module Acknowledgements {
  import opened RaftTypes
  import opened RaftLogs
  import opened RaftSpec
  import opened RaftCluster
  import opened RaftFacts
  import opened Quorums
  import opened LogMatching

  function Ack(h: History, term: nat, node: NodeId): nat {
    if Tenure(term, node) in h.acks then h.acks[Tenure(term, node)] else 0
  }

  predicate OwnEntry(leaders: LeaderLogs, term: nat, i: nat) {
    term in leaders && 0 < i < |leaders[term]| && leaders[term][i].term == term
  }

  ghost predicate Behind(c: Cluster, q: set<NodeId>, term: nat, i: nat) {
    forall p | p in q :: p in c.nodes && c.nodes[p].currentTerm > term && Ack(c.history, term, p) < i
  }

  /** A quorum has left term T without acknowledging index i in it. */
  ghost predicate Blocked(c: Cluster, term: nat, i: nat) {
    exists q: set<NodeId> :: Quorum(c.peers, q) && Behind(c, q, term, i)
  }

  ghost predicate KeptIn(c: Cluster, term: nat, i: nat, log: Log) {
    (term in c.history.leaderLog && AgreeUpTo(log, c.history.leaderLog[term], i)) || Blocked(c, term, i)
  }

  ghost predicate NodeKeeps(c: Cluster, p: NodeId)
    requires p in c.nodes
  {
    forall term: nat, i: nat {:trigger KeptIn(c, term, i, c.nodes[p].log)}
      | OwnEntry(c.history.leaderLog, term, i) && i <= Ack(c.history, term, p) ::
      KeptIn(c, term, i, c.nodes[p].log)
  }

  ghost predicate VoteKeeps(c: Cluster, v: Vote) {
    var t := Tenure(v.term, v.candidate);
    t in c.history.candidateLog ==>
      forall term: nat, i: nat {:trigger KeptIn(c, term, i, c.history.candidateLog[t])}
        | OwnEntry(c.history.leaderLog, term, i) && term < v.term && i <= Ack(c.history, term, v.voter) ::
        KeptIn(c, term, i, c.history.candidateLog[t])
  }

  ghost predicate LeaderKeeps(c: Cluster, later: nat)
    requires later in c.history.leaderLog
  {
    forall term: nat, i: nat {:trigger KeptIn(c, term, i, c.history.leaderLog[later])}
      | OwnEntry(c.history.leaderLog, term, i) && term < later ::
      KeptIn(c, term, i, c.history.leaderLog[later])
  }

  ghost predicate AckOk(c: Cluster, t: Tenure)
    requires t in c.history.acks
  {
    && t.term in c.history.leaderLog && c.history.acks[t] < |c.history.leaderLog[t.term]|
    && t.node in c.nodes && t.term <= c.nodes[t.node].currentTerm
  }

  ghost predicate LeaderAcks(c: Cluster, p: NodeId)
    requires p in c.nodes
  {
    var t := Tenure(c.nodes[p].currentTerm, p);
    t in c.history.acks && c.history.acks[t] >= LastIndex(c.nodes[p].log)
  }

  ghost predicate KeepInv(c: Cluster) {
    && (forall t | t in c.history.acks :: AckOk(c, t))
    && (forall p | p in c.nodes :: NodeKeeps(c, p))
    && (forall v | v in c.history.votes :: VoteKeeps(c, v))
    && (forall t | t in c.history.leaderLog :: LeaderKeeps(c, t))
    && (forall p | p in c.nodes && c.nodes[p].role == Leader :: LeaderAcks(c, p))
  }

  // ---- A quorum that acknowledged and a quorum that is blocked cannot both exist ----

  ghost predicate AckedBy(c: Cluster, q: set<NodeId>, term: nat, i: nat) {
    forall p | p in q :: Ack(c.history, term, p) >= i
  }

  ghost predicate Chosen(c: Cluster, term: nat, i: nat) {
    && OwnEntry(c.history.leaderLog, term, i)
    && exists q: set<NodeId> :: Quorum(c.peers, q) && AckedBy(c, q, term, i)
  }

  lemma ChosenIsNotBlocked(c: Cluster, term: nat, i: nat)
    requires Chosen(c, term, i)
    ensures !Blocked(c, term, i)
  {
    var q :| Quorum(c.peers, q) && AckedBy(c, q, term, i);
    forall r: set<NodeId> | Quorum(c.peers, r) ensures !Behind(c, r, term, i) {
      var p := QuorumsIntersect(c.peers, q, r);
    }
  }

  /** Leader Completeness on a state: a chosen entry, with all before it, is in every later leader's log. */
  lemma ChosenInLaterLeaders(c: Cluster, term: nat, i: nat, later: nat)
    requires KeepInv(c) && Chosen(c, term, i) && term <= later && later in c.history.leaderLog
    ensures AgreeUpTo(c.history.leaderLog[later], c.history.leaderLog[term], i)
  {
    if term < later {
      ChosenIsNotBlocked(c, term, i);
      assert LeaderKeeps(c, later);
      assert KeptIn(c, term, i, c.history.leaderLog[later]);
    }
  }

  // ---- Growth ----

  /** What every step preserves of the quantities the predicates above speak of. */
  ghost predicate Grows(c: Cluster, c': Cluster) {
    && c'.peers == c.peers && c'.nodes.Keys == c.nodes.Keys
    && (forall p | p in c.nodes :: c.nodes[p].currentTerm <= c'.nodes[p].currentTerm)
    && Grown(c.history.leaderLog, c'.history.leaderLog)
    && (forall term: nat, p: NodeId :: Ack(c.history, term, p) <= Ack(c'.history, term, p))
    && (forall term: nat, p | p in c.nodes && term < c.nodes[p].currentTerm ::
          Ack(c'.history, term, p) == Ack(c.history, term, p))
  }

  lemma BlockedStays(c: Cluster, c': Cluster, term: nat, i: nat)
    requires Grows(c, c') && Blocked(c, term, i)
    ensures Blocked(c', term, i)
  {
    var q :| Quorum(c.peers, q) && Behind(c, q, term, i);
    assert Behind(c', q, term, i);
  }

  lemma ChosenStays(c: Cluster, c': Cluster, term: nat, i: nat)
    requires Grows(c, c') && Chosen(c, term, i)
    ensures Chosen(c', term, i)
  {
    var q :| Quorum(c.peers, q) && AckedBy(c, q, term, i);
    assert AckedBy(c', q, term, i);
  }

  lemma KeptInStays(c: Cluster, c': Cluster, term: nat, i: nat, log: Log)
    requires Grows(c, c') && KeptIn(c, term, i, log)
    ensures KeptIn(c', term, i, log)
  {
    if Blocked(c, term, i) {
      BlockedStays(c, c', term, i);
    }
  }

  // ---- What a changed log keeps ----

  /** Accepting a request from a leader keeps every entry acknowledged before. */
  lemma AcceptedKeeps(c: Cluster, p: NodeId, r: AppendEntriesRequest, term: nat, i: nat)
    requires KeepInv(c) && p in c.nodes
    requires LogOk(c.history.leaderLog, c.nodes[p].log)
    requires RequestOk(c.history.leaderLog, r) && PassesCheck(c.nodes[p], r)
    requires Covers(c.history.leaderLog[r.term], r)
    requires OwnEntry(c.history.leaderLog, term, i) && i <= Ack(c.history, term, p) && term <= r.term
    ensures KeptIn(c, term, i, Merged(c.nodes[p].log, r.prevLogIndex + 1, r.entries))
  {
    var s := c.nodes[p];
    var lead := c.history.leaderLog[r.term];
    assert NodeKeeps(c, p);
    assert KeptIn(c, term, i, s.log);
    if !Blocked(c, term, i) {
      if term < r.term {
        assert LeaderKeeps(c, r.term);
        assert KeptIn(c, term, i, lead);
      }
      assert AgreeUpTo(s.log, lead, i);
      CheckMeansAgreement(c.history.leaderLog, s, r);
      MergedKeepsAgreement(s.log, lead, r.prevLogIndex, r.entries, i);
    }
  }

  /** The election restriction: a candidate whose log is at least as up to date as the log of a
      voter that holds an own entry of an earlier term holds that entry too. */
  lemma UpToDateKeeps(c: Cluster, log: Log, candidate: Log, term: nat, i: nat)
    requires forall t | t in c.history.leaderLog :: LeaderKeeps(c, t)
    requires LogOk(c.history.leaderLog, log) && LogOk(c.history.leaderLog, candidate)
    requires OwnEntry(c.history.leaderLog, term, i)
    requires LogOk(c.history.leaderLog, c.history.leaderLog[term])
    requires AgreeUpTo(log, c.history.leaderLog[term], i)
    requires UpToDate(LastTerm(candidate), LastIndex(candidate), log)
    ensures KeptIn(c, term, i, candidate)
  {
    var leaders := c.history.leaderLog;
    assert EntryOk(leaders, log, LastIndex(log));
    assert term <= LastTerm(log);
    assert LastIndex(candidate) > 0;
    assert EntryOk(leaders, candidate, LastIndex(candidate));
    if LastTerm(candidate) > LastTerm(log) {
      var w := LastTerm(candidate);
      assert LeaderKeeps(c, w);
      assert KeptIn(c, term, i, leaders[w]);
      if !Blocked(c, term, i) {
        assert EntryOk(leaders, leaders[term], i);
        assert LastIndex(candidate) >= i;
      }
    }
  }
}
