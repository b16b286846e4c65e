/** The Raft log: a vector whose element 0 is a sentinel of term 0. The functions
    give its operations on values; the class updates the vector in place. */
module RaftLogs {
  import opened RaftTypes

  const SENTINEL := LogEntry(0, Noop)

  /** A log always holds at least the sentinel slot. */
  type Log = l: seq<LogEntry> | |l| >= 1 witness [SENTINEL]

  const EMPTY_LOG: Log := [SENTINEL]

  function LastIndex(log: Log): nat {
    |log| - 1
  }

  function LastTerm(log: Log): nat {
    log[|log| - 1].term
  }

  /** A missing index has term 0, like the sentinel. */
  function TermAt(log: Log, index: nat): nat {
    if index < |log| then log[index].term else 0
  }

  function EntriesFrom(log: Log, start: nat): seq<LogEntry> {
    if start >= |log| then [] else log[start..]
  }

  function TruncateFrom(log: Log, index: nat): Log
    requires index >= 1
  {
    if index < |log| then log[..index] else log
  }

  function FromEntries(entries: seq<LogEntry>): Log {
    if entries == [] then EMPTY_LOG else entries
  }

  /** How many leading entries the log already holds, with equal terms, from index `at` on. */
  function MatchLength(log: Log, at: nat, entries: seq<LogEntry>): (n: nat)
    ensures n <= |entries|
    ensures n < |entries| && at + n < |log| ==> log[at + n].term != entries[n].term
    decreases entries
  {
    if entries == [] || at >= |log| || log[at].term != entries[0].term then 0
    else 1 + MatchLength(log, at + 1, entries[1..])
  }

  /** The log after accepting `entries` at index `at`: matching entries are skipped, the
      first conflict truncates, and what is left is appended. */
  function Merged(log: Log, at: nat, entries: seq<LogEntry>): Log
    requires at >= 1
  {
    var n := MatchLength(log, at, entries);
    if n == |entries| then log else TruncateFrom(log, at + n) + entries[n..]
  }

  /** Two logs hold the same entries at every index up to and including `n`. */
  predicate AgreeUpTo(a: seq<LogEntry>, b: seq<LogEntry>, n: nat) {
    n < |a| && n < |b| && forall k | 0 <= k <= n :: a[k] == b[k]
  }

  /** The Log Matching Property between two logs: an equal term at an index means equal
      entries up to that index. */
  ghost predicate Matching(a: seq<LogEntry>, b: seq<LogEntry>) {
    forall k {:trigger AgreeUpTo(a, b, k)} | 0 <= k < |a| && k < |b| && a[k].term == b[k].term ::
      AgreeUpTo(a, b, k)
  }

  /** The entries the merge loop skips are entries on which the two logs agree. */
  lemma {:induction false} SkippedEntriesAgree(log: Log, lead: Log, prev: nat, entries: seq<LogEntry>)
    requires prev + |entries| < |lead| && prev < |log|
    requires Matching(log, lead)
    requires log[prev].term == lead[prev].term
    requires entries == lead[prev + 1..prev + 1 + |entries|]
    ensures AgreeUpTo(log, lead, prev + MatchLength(log, prev + 1, entries))
    decreases entries
  {
    assert AgreeUpTo(log, lead, prev);
    if MatchLength(log, prev + 1, entries) > 0 {
      assert entries[0] == lead[prev + 1];
      SkippedEntriesAgree(log, lead, prev + 1, entries[1..]);
    }
  }

  lemma TruncatedIsPrefix(log: Log, lead: Log, prev: nat, entries: seq<LogEntry>, n: nat)
    requires prev + |entries| < |lead| && n <= |entries|
    requires AgreeUpTo(log, lead, prev + n)
    requires entries == lead[prev + 1..prev + 1 + |entries|]
    ensures TruncateFrom(log, prev + 1 + n) + entries[n..] == lead[..prev + |entries| + 1]
  {
    var kept := TruncateFrom(log, prev + 1 + n);
    assert kept == lead[..prev + 1 + n];
    assert entries[n..] == lead[prev + 1 + n..prev + |entries| + 1];
  }

  /** Accepting the entries `prev+1..` of a log `lead` on a log that passes the consistency
      check at `prev`: the result holds the whole slice, and is either the old log or a
      prefix of `lead`. */
  lemma MergedFollowsLeader(log: Log, lead: Log, prev: nat, entries: seq<LogEntry>)
    requires prev + |entries| < |lead| && prev < |log|
    requires Matching(log, lead)
    requires log[prev].term == lead[prev].term
    requires entries == lead[prev + 1..prev + 1 + |entries|]
    ensures AgreeUpTo(Merged(log, prev + 1, entries), lead, prev + |entries|)
    ensures Merged(log, prev + 1, entries) == log
            || Merged(log, prev + 1, entries) == lead[..prev + |entries| + 1]
  {
    var n := MatchLength(log, prev + 1, entries);
    SkippedEntriesAgree(log, lead, prev, entries);
    if n < |entries| {
      TruncatedIsPrefix(log, lead, prev, entries, n);
      assert Merged(log, prev + 1, entries) == lead[..prev + |entries| + 1];
    }
  }

  /** The merge never removes an index on which the two logs already agreed. */
  lemma MergedKeepsAgreement(log: Log, lead: Log, prev: nat, entries: seq<LogEntry>, i: nat)
    requires prev + |entries| < |lead| && prev < |log|
    requires Matching(log, lead)
    requires log[prev].term == lead[prev].term
    requires entries == lead[prev + 1..prev + 1 + |entries|]
    requires AgreeUpTo(log, lead, i)
    ensures AgreeUpTo(Merged(log, prev + 1, entries), lead, i)
  {
    var n := MatchLength(log, prev + 1, entries);
    if n < |entries| {
      SkippedEntriesAgree(log, lead, prev, entries);
      TruncatedIsPrefix(log, lead, prev, entries, n);
      assert entries[n] == lead[prev + 1 + n];
      assert i <= prev + n;
    }
  }

  class RaftLog {
    var entries: seq<LogEntry>

    ghost predicate Valid()
      reads this
    {
      |entries| >= 1
    }

    constructor ()
      ensures Valid() && entries == EMPTY_LOG
    {
      entries := EMPTY_LOG;
    }

    constructor FromSaved(saved: seq<LogEntry>)
      ensures Valid() && entries == FromEntries(saved)
    {
      entries := if saved == [] then EMPTY_LOG else saved;
    }

    method Append(entry: LogEntry) returns (index: nat)
      requires Valid()
      modifies this
      ensures Valid() && entries == old(entries) + [entry]
      ensures index == LastIndex(entries) && entries[index] == entry
    {
      entries := entries + [entry];
      index := |entries| - 1;
    }

    method AppendEntries(more: seq<LogEntry>) returns (index: nat)
      requires Valid()
      modifies this
      ensures Valid() && entries == old(entries) + more
      ensures index == LastIndex(entries)
    {
      entries := entries + more;
      index := |entries| - 1;
    }

    /** Removes `index` and everything after it; an index past the end removes nothing, and
        index 0, which no caller passes, would remove the sentinel. */
    method Truncate(index: nat)
      requires Valid()
      modifies this
      ensures entries == if index < |old(entries)| then old(entries)[..index] else old(entries)
      ensures Valid() <==> index >= 1
    {
      if index < |entries| {
        entries := entries[..index];
      }
    }
  }
}
