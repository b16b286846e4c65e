/** Rounds of request and reply between a leader and one follower. A follower that lags without
    diverging catches up in two, whatever next_index (at least 1) the leader holds for it; for
    any other follower BackOffTheorem says exactly when it ever does. */
module CatchUp {
  import opened RaftTypes
  import opened RaftLogs
  import opened RaftSpec
  import opened RaftFacts

  datatype Pair = Pair(leader: NodeState, follower: NodeState)

  function ReplyIn(actions: seq<Action>): Option<AppendEntriesResponse> {
    if actions == [] then None
    else
      var a := actions[|actions| - 1];
      if a.SendAppendEntriesResponse? then Some(a.appendResponse) else None
  }

  /** The leader sends what it believes the follower needs, the follower answers, the leader takes the answer. */
  function Round(p: Pair): Pair {
    match ReplicateToPeer(p.leader, p.follower.id)
    case None => p
    case Some(action) =>
      if !action.SendAppendEntries? then p
      else
        var o := HandleAppendEntries(p.follower, action.appendRequest);
        match ReplyIn(o.actions)
        case None => Pair(p.leader, o.node)
        case Some(reply) =>
          Pair(HandleAppendEntriesResponse(p.leader, p.follower.id, reply).node, o.node)
  }

  /** The follower's log is a prefix of the leader's, and its term is not higher. */
  ghost predicate Lags(p: Pair, next: nat) {
    && p.leader.role == Leader && p.follower.currentTerm <= p.leader.currentTerm
    && p.leader.log[0].term == 0 && (forall k | 1 <= k < |p.leader.log| :: p.leader.log[k].term >= 1)
    && p.follower.log <= p.leader.log
    && next >= 1 && Lookup(p.leader.nextIndex, p.follower.id) == Some(next)
    && Lookup(p.leader.matchIndex, p.follower.id).Some?
  }

  ghost predicate SameLeader(p: Pair, p': Pair) {
    p'.leader.log == p.leader.log && p'.follower.id == p.follower.id
  }

  ghost predicate CaughtUp(p: Pair) {
    && p.follower.log == p.leader.log
    && Lookup(p.leader.matchIndex, p.follower.id) == Some(LastIndex(p.leader.log))
  }

  lemma PrefixMatches(a: Log, b: Log)
    requires a <= b
    ensures Matching(a, b)
  {
    forall k | 0 <= k < |a| && k < |b| && a[k].term == b[k].term ensures AgreeUpTo(a, b, k) {
    }
  }

  /** A request that starts inside the follower's prefix brings it to the leader's log. */
  lemma MergeCompletes(follower: Log, leader: Log, next: nat)
    requires follower <= leader && 1 <= next <= |follower|
    ensures Merged(follower, next, leader[next..]) == leader
  {
    var entries := leader[next..];
    PrefixMatches(follower, leader);
    assert entries == leader[next..next - 1 + 1 + |entries|] && leader[..next - 1 + |entries| + 1] == leader;
    MergedFollowsLeader(follower, leader, next - 1, entries);
    assert AgreeUpTo(follower, leader, LastIndex(leader)) ==> follower == leader;
  }

  lemma FollowerOutcome(s: NodeState, r: AppendEntriesRequest)
    requires r.term >= s.currentTerm && TermAt(s.log, r.prevLogIndex) == r.prevLogTerm
    ensures var o := HandleAppendEntries(s, r);
            var log' := Merged(s.log, r.prevLogIndex + 1, r.entries);
            && o.node.log == log' && o.node.id == s.id && o.node.currentTerm == r.term
            && ReplyIn(o.actions) == Some(AppendEntriesResponse(r.term, true, Some(LastIndex(log'))))
  {
    FollowCommitFacts(AcceptEntries(FollowLeader(s, r), r), r.leaderCommit);
  }

  lemma LeaderOutcome(s: NodeState, from: NodeId, term: nat, success: bool, index: nat)
    requires s.role == Leader && term <= s.currentTerm
    requires Lookup(s.nextIndex, from).Some? && Lookup(s.matchIndex, from).Some?
    ensures var s' := HandleAppendEntriesResponse(s, from, AppendEntriesResponse(term, success, Some(index))).node;
            && s'.log == s.log && s'.role == Leader && s'.currentTerm == s.currentTerm && s'.id == s.id
            && Lookup(s'.nextIndex, from) == Some(index + 1)
            && Lookup(s'.matchIndex, from) == (if success then Some(index) else Lookup(s.matchIndex, from))
  {
    LookupSetFirst(s.nextIndex, from, index + 1);
    LookupSetFirst(s.matchIndex, from, index);
  }

  /** What the leader holds for the follower after a round whose reply reports `index`. */
  ghost predicate Reported(p: Pair, p': Pair, success: bool, index: nat) {
    && p'.leader.log == p.leader.log && p'.leader.role == Leader && p'.leader.currentTerm == p.leader.currentTerm
    && p'.follower.id == p.follower.id && p'.follower.currentTerm == p.leader.currentTerm
    && Lookup(p'.leader.nextIndex, p.follower.id) == Some(index + 1)
    && Lookup(p'.leader.matchIndex, p.follower.id) ==
       (if success then Some(index) else Lookup(p.leader.matchIndex, p.follower.id))
  }

  lemma RoundSteps(p: Pair, next: nat, reply: AppendEntriesResponse)
    requires Lookup(p.leader.nextIndex, p.follower.id) == Some(next)
    requires ReplyIn(HandleAppendEntries(p.follower, AppendRequestFor(p.leader, next)).actions) == Some(reply)
    ensures Round(p) == Pair(HandleAppendEntriesResponse(p.leader, p.follower.id, reply).node,
                             HandleAppendEntries(p.follower, AppendRequestFor(p.leader, next)).node)
  {
  }

  lemma PassingFollower(p: Pair, next: nat, r: AppendEntriesRequest, log': Log)
    requires p.follower.currentTerm <= p.leader.currentTerm && r == AppendRequestFor(p.leader, next)
    requires Lookup(p.leader.nextIndex, p.follower.id) == Some(next)
    requires TermAt(p.follower.log, r.prevLogIndex) == r.prevLogTerm
    requires log' == Merged(p.follower.log, r.prevLogIndex + 1, r.entries)
    ensures Round(p).follower.log == log' && Round(p).follower.id == p.follower.id
    ensures Round(p).follower.currentTerm == r.term
    ensures Round(p).leader ==
            HandleAppendEntriesResponse(p.leader, p.follower.id,
                                        AppendEntriesResponse(r.term, true, Some(LastIndex(log')))).node
  {
    FollowerOutcome(p.follower, r);
    RoundSteps(p, next, AppendEntriesResponse(r.term, true, Some(LastIndex(log'))));
  }

  lemma PassingRound(p: Pair, next: nat, r: AppendEntriesRequest, log': Log)
    requires p.leader.role == Leader && p.follower.currentTerm <= p.leader.currentTerm
    requires r == AppendRequestFor(p.leader, next)
    requires Lookup(p.leader.nextIndex, p.follower.id) == Some(next) && Lookup(p.leader.matchIndex, p.follower.id).Some?
    requires TermAt(p.follower.log, r.prevLogIndex) == r.prevLogTerm
    requires log' == Merged(p.follower.log, r.prevLogIndex + 1, r.entries)
    ensures Round(p).follower.log == log' && Reported(p, Round(p), true, LastIndex(log'))
  {
    PassingFollower(p, next, r, log');
    LeaderOutcome(p.leader, p.follower.id, r.term, true, LastIndex(log'));
  }

  lemma RejectedOutcome(s: NodeState, r: AppendEntriesRequest)
    requires r.term >= s.currentTerm && TermAt(s.log, r.prevLogIndex) != r.prevLogTerm
    ensures var o := HandleAppendEntries(s, r);
            && o.node.log == s.log && o.node.id == s.id && o.node.currentTerm == r.term
            && ReplyIn(o.actions) == Some(AppendEntriesResponse(r.term, false, Some(LastIndex(s.log))))
  {
  }

  lemma RejectedRound(p: Pair, next: nat)
    requires p.leader.role == Leader && p.follower.currentTerm <= p.leader.currentTerm
    requires Lookup(p.leader.nextIndex, p.follower.id) == Some(next) && Lookup(p.leader.matchIndex, p.follower.id).Some?
    requires var r := AppendRequestFor(p.leader, next); TermAt(p.follower.log, r.prevLogIndex) != r.prevLogTerm
    ensures Round(p).follower.log == p.follower.log
    ensures Reported(p, Round(p), false, LastIndex(p.follower.log))
  {
    var r := AppendRequestFor(p.leader, next);
    RejectedOutcome(p.follower, r);
    RoundSteps(p, next, AppendEntriesResponse(r.term, false, Some(LastIndex(p.follower.log))));
    LeaderOutcome(p.leader, p.follower.id, r.term, false, LastIndex(p.follower.log));
  }

  /** The request for a next_index inside the follower's log passes, and completes it. */
  lemma RequestCompletes(p: Pair, next: nat)
    requires 1 <= next <= |p.follower.log| && p.follower.log <= p.leader.log
    ensures var r := AppendRequestFor(p.leader, next);
            && TermAt(p.follower.log, r.prevLogIndex) == r.prevLogTerm
            && Merged(p.follower.log, r.prevLogIndex + 1, r.entries) == p.leader.log
  {
    InsideRequest(p, next);
    MergeCompletes(p.follower.log, p.leader.log, next);
  }

  /** With next_index inside the follower's log, one round is enough. */
  lemma OneRound(p: Pair, next: nat)
    requires Lags(p, next) && next <= |p.follower.log|
    ensures CaughtUp(Round(p)) && SameLeader(p, Round(p))
    ensures Lags(Round(p), |p.leader.log|)
  {
    RequestCompletes(p, next);
    PassingRound(p, next, AppendRequestFor(p.leader, next), p.leader.log);
    ReportedCompletes(p, Round(p), next);
  }

  lemma ReportedCompletes(p: Pair, p': Pair, next: nat)
    requires Lags(p, next) && p'.follower.log == p.leader.log && Reported(p, p', true, LastIndex(p.leader.log))
    ensures CaughtUp(p') && SameLeader(p, p') && Lags(p', |p.leader.log|)
  {
  }

  /** With next_index past the follower's log, one round moves it to the end of that log. */
  lemma RoundFindsEnd(p: Pair, next: nat)
    requires Lags(p, next) && next > |p.follower.log|
    ensures Lags(Round(p), |p.follower.log|) && SameLeader(p, Round(p))
    ensures Round(p).follower.log == p.follower.log
  {
    if next <= |p.leader.log| {
      RejectedRound(p, next);
    } else {
      PassingRound(p, next, AppendRequestFor(p.leader, next), p.follower.log);
    }
  }

  /** From any next_index at least 1, two rounds make the logs equal and the leader knows it. */
  lemma CatchUpTheorem(p: Pair, next: nat)
    requires Lags(p, next)
    ensures CaughtUp(Round(Round(p))) && SameLeader(p, Round(Round(p)))
  {
    if next <= |p.follower.log| {
      OneRound(p, next);
      OneRound(Round(p), |p.leader.log|);
    } else {
      RoundFindsEnd(p, next);
      OneRound(Round(p), |p.follower.log|);
    }
  }

  // ---- Any follower ----

  function Rounds(p: Pair, n: nat): Pair
    decreases n
  {
    if n == 0 then p else Rounds(Round(p), n - 1)
  }

  predicate RealTerms(log: Log) {
    log[0] == SENTINEL && forall k | 1 <= k < |log| :: log[k].term >= 1
  }

  /** A leader and a follower of no higher term, whose logs may have diverged. */
  ghost predicate Tracks(p: Pair, next: nat) {
    && p.leader.role == Leader && p.follower.currentTerm <= p.leader.currentTerm
    && RealTerms(p.leader.log) && RealTerms(p.follower.log) && Matching(p.follower.log, p.leader.log)
    && next >= 1 && Lookup(p.leader.nextIndex, p.follower.id) == Some(next)
    && Lookup(p.leader.matchIndex, p.follower.id).Some?
  }

  /** The follower only lags, or next_index points inside both logs behind an entry on which
      they agree and the follower does not already hold the whole of the leader's log. */
  predicate Reconciles(p: Pair, next: nat)
    requires next >= 1
  {
    var f, l := p.follower.log, p.leader.log;
    || f <= l
    || (next <= |f| && next <= |l| && f[next - 1].term == l[next - 1].term && !(l <= f))
  }

  /** The next round will be about the end of the follower's log, which the leader does not hold. */
  ghost predicate Stuck(p: Pair) {
    Tracks(p, |p.follower.log|) && !(p.follower.log <= p.leader.log)
  }

  lemma DivergedAtEnd(f: Log, l: Log)
    requires RealTerms(f) && RealTerms(l) && Matching(f, l) && !(f <= l)
    ensures |f| >= 2 && f[|f| - 1].term >= 1 && TermAt(l, |f| - 1) != f[|f| - 1].term
  {
    assert |f| <= |l| && f[|f| - 1].term == l[|f| - 1].term ==> AgreeUpTo(f, l, |f| - 1);
  }

  /** What a round that changes neither log leaves behind. */
  lemma SettlesAtEnd(p: Pair, p': Pair, success: bool)
    requires p.leader.role == Leader && RealTerms(p.leader.log) && RealTerms(p.follower.log)
    requires Matching(p.follower.log, p.leader.log) && Lookup(p.leader.matchIndex, p.follower.id).Some?
    requires p'.follower.log == p.follower.log && Reported(p, p', success, LastIndex(p.follower.log))
    ensures Tracks(p', |p.follower.log|)
  {
  }

  /** The hint is the index the leader just tried: nothing moves. */
  lemma StuckRound(p: Pair)
    requires Stuck(p)
    ensures Stuck(Round(p)) && Round(p).follower.log == p.follower.log && Round(p).leader.log == p.leader.log
  {
    DivergedAtEnd(p.follower.log, p.leader.log);
    RejectedRound(p, |p.follower.log|);
    SettlesAtEnd(p, Round(p), false);
  }

  lemma {:induction false} StuckForever(p: Pair, n: nat)
    requires Stuck(p)
    ensures Rounds(p, n).follower.log == p.follower.log && Rounds(p, n).leader.log == p.leader.log
    decreases n
  {
    if n > 0 {
      StuckRound(p);
      StuckForever(Round(p), n - 1);
    }
  }

  /** A request that passes and completes the log of a diverged follower. */
  lemma DivergedCompletes(f: Log, l: Log, next: nat)
    requires RealTerms(f) && RealTerms(l) && Matching(f, l) && 1 <= next <= |f| && next <= |l|
    requires f[next - 1].term == l[next - 1].term
    ensures Merged(f, next, l[next..]) == if l <= f then f else l
  {
    var entries := l[next..];
    assert entries == l[next - 1 + 1..next - 1 + 1 + |entries|];
    MergedFollowsLeader(f, l, next - 1, entries);
    assert l[..next - 1 + |entries| + 1] == l;
    if l <= f {
      HeldEntriesMatch(f, l, next);
    }
  }

  lemma {:induction false} HeldEntriesMatch(f: Log, l: Log, next: nat)
    requires l <= f && 1 <= next <= |l|
    ensures MatchLength(f, next, l[next..]) == |l[next..]|
    decreases |l| - next
  {
    if next < |l| {
      assert l[next..][1..] == l[next + 1..];
      HeldEntriesMatch(f, l, next + 1);
    }
  }

  lemma InsideRequest(p: Pair, next: nat)
    requires 1 <= next <= |p.leader.log|
    ensures var r := AppendRequestFor(p.leader, next);
            r.prevLogIndex == next - 1 && r.prevLogTerm == p.leader.log[next - 1].term
            && r.entries == p.leader.log[next..]
  {
  }

  /** next_index behind an entry on which the logs agree: one round brings the longer log. */
  lemma InsideRound(p: Pair, next: nat, log: Log)
    requires Tracks(p, next) && next <= |p.follower.log| && next <= |p.leader.log|
    requires p.follower.log[next - 1].term == p.leader.log[next - 1].term
    requires log == if p.leader.log <= p.follower.log then p.follower.log else p.leader.log
    ensures Round(p).follower.log == log && Reported(p, Round(p), true, LastIndex(log))
  {
    InsideRequest(p, next);
    DivergedCompletes(p.follower.log, p.leader.log, next);
    PassingRound(p, next, AppendRequestFor(p.leader, next), log);
  }

  lemma BroughtOver(p: Pair, p': Pair)
    requires p.leader.role == Leader && RealTerms(p.leader.log) && Lookup(p.leader.matchIndex, p.follower.id).Some?
    requires p'.follower.log == p.leader.log && Reported(p, p', true, LastIndex(p.leader.log))
    ensures CaughtUp(p') && Lags(p', |p.leader.log|)
  {
  }

  /** Any other next_index: the round only moves it to the end of the follower's log. */
  lemma OutsideRound(p: Pair, next: nat)
    requires Tracks(p, next)
    requires next > |p.follower.log| || next > |p.leader.log|
             || p.follower.log[next - 1].term != p.leader.log[next - 1].term
    ensures Tracks(Round(p), |p.follower.log|)
    ensures Round(p).follower.log == p.follower.log && Round(p).leader.log == p.leader.log
  {
    var r := AppendRequestFor(p.leader, next);
    if TermAt(p.follower.log, r.prevLogIndex) == r.prevLogTerm {
      assert r.entries == [];
      assert Merged(p.follower.log, r.prevLogIndex + 1, r.entries) == p.follower.log;
      PassingRound(p, next, r, p.follower.log);
      SettlesAtEnd(p, Round(p), true);
    } else {
      RejectedRound(p, next);
      SettlesAtEnd(p, Round(p), false);
    }
  }

  lemma FirstRoundSticks(p: Pair, next: nat)
    requires Tracks(p, next) && !Reconciles(p, next)
    ensures Stuck(Round(p)) && Round(p).follower.log == p.follower.log && Round(p).leader.log == p.leader.log
  {
    if next <= |p.follower.log| && next <= |p.leader.log|
       && p.follower.log[next - 1].term == p.leader.log[next - 1].term {
      InsideRound(p, next, p.follower.log);
      SettlesAtEnd(p, Round(p), true);
    } else {
      OutsideRound(p, next);
    }
  }

  lemma ReconcilesInTwo(p: Pair, next: nat)
    requires Tracks(p, next) && Reconciles(p, next)
    ensures CaughtUp(Round(Round(p)))
  {
    if p.follower.log <= p.leader.log {
      CatchUpTheorem(p, next);
    } else {
      InsideRound(p, next, p.leader.log);
      BroughtOver(p, Round(p));
      OneRound(Round(p), |p.leader.log|);
    }
  }

  lemma NeverReconciles(p: Pair, next: nat, n: nat)
    requires Tracks(p, next) && !Reconciles(p, next)
    ensures Rounds(p, n).follower.log == p.follower.log && !CaughtUp(Rounds(p, n))
  {
    if n > 0 {
      FirstRoundSticks(p, next);
      StuckForever(Round(p), n - 1);
    }
  }

  /** Exactly when repeated rounds bring a follower's log to the leader's. If they ever do, two
      are enough; if not, the follower's log never changes. */
  lemma BackOffTheorem(p: Pair, next: nat)
    requires Tracks(p, next)
    ensures (exists n: nat :: CaughtUp(Rounds(p, n))) <==> Reconciles(p, next)
    ensures Reconciles(p, next) ==> CaughtUp(Rounds(p, 2))
    ensures !Reconciles(p, next) ==> forall n: nat :: Rounds(p, n).follower.log == p.follower.log
  {
    if Reconciles(p, next) {
      ReconcilesInTwo(p, next);
      TwoRounds(p);
    } else {
      forall n: nat ensures Rounds(p, n).follower.log == p.follower.log && !CaughtUp(Rounds(p, n)) {
        NeverReconciles(p, next, n);
      }
    }
  }

  lemma TwoRounds(p: Pair)
    ensures Rounds(p, 2) == Round(Round(p))
  {
    assert Rounds(Round(p), 1) == Rounds(Round(Round(p)), 0);
  }
}
