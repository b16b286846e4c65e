/** What applying a log does to the storage engine. */
module AppliedLogs {
  import opened RaftTypes
  import opened RaftLogs
  import opened RaftSpec
  import opened ApplyOrder
  import opened Wals
  import opened Storage
  import opened ClusterNodes

  /** Fields without a bar, a newline, or a carriage return at the end of their line. */
  predicate CleanCommand(command: LogCommand) {
    forall e | e in WalOf(command) :: Clean(e)
  }

  predicate CleanLog(log: seq<LogEntry>) {
    forall i | 0 < i < |log| :: CleanCommand(log[i].command)
  }

  /** The writes of the log entries after index `from`. */
  function LogWrites(log: seq<LogEntry>, from: nat): seq<WalEntry>
    decreases |log| - from
  {
    if from + 1 >= |log| then [] else WalOf(log[from + 1].command) + LogWrites(log, from + 1)
  }

  lemma {:induction false} LogWritesClean(log: seq<LogEntry>, from: nat)
    requires CleanLog(log)
    ensures forall e | e in LogWrites(log, from) :: EngineMade(e) && Clean(e)
    decreases |log| - from
  {
    if from + 1 < |log| {
      LogWritesClean(log, from + 1);
    }
  }

  lemma {:induction false} LogWritesSplit(log: seq<LogEntry>, from: nat, mid: nat)
    requires from <= mid < |log|
    ensures LogWrites(log, from) == LogWrites(log[..mid + 1], from) + LogWrites(log, mid)
    decreases mid - from
  {
    if from < mid {
      LogWritesSplit(log, from + 1, mid);
      Regroup(WalOf(log[from + 1].command), LogWrites(log[..mid + 1], from + 1), LogWrites(log, mid));
    }
  }

  lemma LogWritesAppend(log: seq<LogEntry>, entry: LogEntry, from: nat)
    requires from < |log|
    ensures LogWrites(log + [entry], from) == LogWrites(log, from) + WalOf(entry.command)
  {
    var longer := log + [entry];
    LogWritesSplit(longer, from, |log| - 1);
    assert longer[..|log|] == log;
    assert LogWrites(longer, |log|) == [];
  }

  /** A log writes every key its prefix writes. */
  lemma PrefixWrites(log: seq<LogEntry>, longer: seq<LogEntry>, key: string)
    requires 0 < |log| <= |longer| && log == longer[..|log|] && Writes(LogWrites(log, 0), key)
    ensures Writes(LogWrites(longer, 0), key)
  {
    LogWritesSplit(longer, 0, |log| - 1);
    var a := LogWrites(log, 0);
    var k :| 0 <= k < |a| && a[k].key == key;
    assert LogWrites(longer, 0)[k].key == key;
  }

  // ---- Processing actions ----

  /** What an action writes to the engine: only ApplyEntry does. */
  function ActionWrites(a: Action): seq<WalEntry> {
    if a.ApplyEntry? then WalOf(a.command) else []
  }

  function ActionsWrite(actions: seq<Action>): seq<WalEntry> {
    if actions == [] then [] else ActionWrites(actions[0]) + ActionsWrite(actions[1..])
  }

  function StoreProcessed(store: Store, actions: seq<Action>): Store {
    WrittenAll(store, ActionsWrite(actions))
  }

  lemma {:induction false} WrittenAllConcat(store: Store, a: seq<WalEntry>, b: seq<WalEntry>)
    ensures WrittenAll(store, a + b) == WrittenAll(WrittenAll(store, a), b)
    decreases a
  {
    if a == [] {
      assert a + b == b;
    } else {
      assert (a + b)[1..] == a[1..] + b;
      WrittenAllConcat(Written(store, a[0]), a[1..], b);
    }
  }

  /** A node's engine after processing actions: their writes, in order. */
  lemma {:induction false} ProcessedStore(s: Server, actions: seq<Action>)
    ensures Processed(s, actions).store == StoreProcessed(s.store, actions)
    ensures Processed(s, actions).raft == s.raft
    decreases actions
  {
    if actions != [] {
      var s1 := ProcessedOne(s, actions[0]);
      assert s1.store == WrittenAll(s.store, ActionWrites(actions[0]));
      ProcessedStore(s1, actions[1..]);
      WrittenAllConcat(s.store, ActionWrites(actions[0]), ActionsWrite(actions[1..]));
    }
  }

  /** The messages among the actions do not matter. */
  lemma {:induction false} EmittedWrite(actions: seq<Action>)
    ensures ActionsWrite(actions) == ActionsWrite(Emitted(actions))
  {
    if actions != [] {
      EmittedWrite(actions[1..]);
      if actions[0].ApplyEntry? {
        assert Emitted(actions)[0] == actions[0] && Emitted(actions)[1..] == Emitted(actions[1..]);
      } else {
        assert Emitted(actions) == Emitted(actions[1..]);
      }
    }
  }

  /** The actions that apply a stretch of the log write that stretch. */
  lemma {:induction false} ApplyActionsWrite(log: Log, from: nat, upTo: nat)
    requires upTo < |log|
    ensures ActionsWrite(ApplyActions(log, from, upTo)) == LogWrites(log[..upTo + 1], from)
    decreases upTo - from
  {
    if from < upTo {
      var command, rest := log[from + 1].command, ApplyActions(log, from + 1, upTo);
      ApplyActionsWrite(log, from + 1, upTo);
      if command == Noop {
        assert ApplyActions(log, from, upTo) == rest;
      } else {
        var actions := ApplyActions(log, from, upTo);
        assert actions[0] == ApplyEntry(from + 1, command) && actions[1..] == rest;
      }
    }
  }

  // ---- What an accepted write means ----

  /** A write is accepted exactly by a leader, which then holds it in its log, has saved it,
      and names its index as the one to wait for; otherwise nothing changes. */
  lemma AcceptedIsLogged(s: Server, command: LogCommand, accepted: Response)
    requires accepted != NOT_LEADER
    ensures var r := Proposed(s, command, accepted);
            && (r.response == accepted <==> s.raft.role == Leader)
            && (s.raft.role == Leader ==>
                  && r.server.pending == Some(|s.raft.log|)
                  && r.server.raft.log == s.raft.log + [LogEntry(s.raft.currentTerm, command)]
                  && Load(r.server.raft.disk).log == r.server.raft.log)
            && (s.raft.role != Leader ==> r == Reply(s, NOT_LEADER))
  {
    if s.raft.role == Leader {
      var o := HandlePropose(s.raft, command).value;
      ProcessedStore(s.(raft := o.node), o.actions);
    }
  }
}
