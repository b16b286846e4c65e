/** A cluster of one node is a durable map: for any interleaving of client commands, ticks and
    restarts, GET answers as a plain map updated by each accepted SET and DEL, although the
    whole log is applied again, on top of the recovered data, at the first write after each
    restart. */
module SingleNodes {
  import opened RaftTypes
  import opened RaftLogs
  import opened RaftSpec
  import opened RaftCluster
  import opened Persistence
  import opened Wals
  import opened Storage
  import opened ClusterNodes
  import opened AppliedLogs
  import Routers

  datatype ServerEvent = Client(command: Command) | Time | Reboot | Drain

  function ServerStep(s: Server, e: ServerEvent): Server {
    match e
    case Client(command) => Handled(s, command).server
    case Time => Ticked(s)
    case Reboot => Rebooted(s)
    case Drain => s.(outbound := [])
  }

  /** The plain map, told only the commands and whether they were accepted. */
  function Reference(m: map<string, string>, command: Command, response: Response): map<string, string> {
    match command
    case Set(key, value) => if response == SimpleString("OK") then m[key := value] else m
    case Del(key) => if response == Integer(1) then m - {key} else m
    case _ => m
  }

  datatype Pair = Pair(server: Server, reference: map<string, string>)

  function PairStep(p: Pair, e: ServerEvent): Pair {
    Pair(ServerStep(p.server, e),
         if e.Client? then Reference(p.reference, e.command, Handled(p.server, e.command).response)
         else p.reference)
  }

  function PairRun(p: Pair, events: seq<ServerEvent>): Pair
    decreases events
  {
    if events == [] then p else PairRun(PairStep(p, events[0]), events[1..])
  }

  predicate CleanEvent(e: ServerEvent) {
    (e.Client? && e.command.Set? ==> CleanCommand(Put(e.command.key, e.command.value)))
    && (e.Client? && e.command.Del? ==> CleanCommand(Delete(e.command.key)))
  }

  // ---- The invariant ----

  ghost predicate Mirrors(table: Table, m: map<string, string>) {
    forall key :: Read(table, key) == if key in m then Some(m[key]) else None
  }

  /** Between events the table is the whole log applied once, and the file agrees with it. */
  ghost predicate Inv(p: Pair) {
    var s := p.server;
    && s.raft.peers == [s.raft.id] && Durable(s.raft)
    && s.raft.commitIndex == s.raft.lastApplied && s.raft.lastApplied <= LastIndex(s.raft.log)
    && CleanLog(s.raft.log) && InSync(s.store)
    && s.store.table == Rebuilt(map[], LogWrites(s.raft.log, 0))
    && Mirrors(s.store.table, p.reference)
  }

  lemma NothingToSend(s: NodeState)
    requires s.peers == [s.id]
    ensures ReplicateTo(s, s.peers) == []
  {
    assert s.peers[1..] == [];
  }

  /** A tick of a lone node leaves everything but role, term, vote and timers alone. */
  lemma LoneTick(s: NodeState)
    requires s.peers == [s.id]
    ensures var o := HandleTick(s);
            o.actions == [] && o.node.log == s.log && o.node.peers == s.peers && o.node.id == s.id
            && o.node.commitIndex == s.commitIndex && o.node.lastApplied == s.lastApplied
  {
    var s1 := s.(timers := s.timers.(heartbeat := HEARTBEAT_INTERVAL));
    NothingToSend(s1);
    var s2 := s.(timers := s.timers.(election := CountDown(s.timers.election)));
    var s3 := Persist(ResetElectionTimeout(BecomeCandidate(s2).(votesReceived := {s.id})));
    assert Majority(s3.peers) == 1;
    NothingToSend(WinElection(s3).node);
  }

  /** A proposal to a lone leader commits and applies at once everything not yet applied. */
  lemma LonePropose(s: NodeState, command: LogCommand)
    requires s.peers == [s.id] && s.role == Leader
    requires s.commitIndex == s.lastApplied && s.lastApplied <= LastIndex(s.log)
    ensures var log := s.log + [LogEntry(s.currentTerm, command)];
            HandlePropose(s, command)
            == Some(Outcome(Appended(s, command).(commitIndex := LastIndex(log), lastApplied := LastIndex(log)),
                            ApplyActions(log, s.lastApplied, LastIndex(log))))
  {
    var s1 := Appended(s, command);
    NothingToSend(s1);
    var last := LastIndex(s1.log);
    assert Majority(s1.peers) == 1;
    assert Committable(s1, last);
    assert CommitScan(s1, last) == last;
    var applies := AdvanceCommit(s1).actions;
    assert [] + applies == applies;
  }

  /** Applying again what the table already holds, and then one more command. */
  lemma CatchingUp(log: Log, entry: LogEntry, applied: nat)
    requires applied <= LastIndex(log)
    ensures Rebuilt(Rebuilt(map[], LogWrites(log, 0)), LogWrites(log + [entry], applied))
         == Rebuilt(map[], LogWrites(log + [entry], 0))
  {
    var longer := log + [entry];
    var a, b, c := LogWrites(log[..applied + 1], 0), LogWrites(log, applied), LogWrites(longer, applied);
    LogWritesSplit(log, 0, applied);
    LogWritesSplit(longer, 0, applied);
    assert longer[..applied + 1] == log[..applied + 1];
    LogWritesAppend(log, entry, applied);
    RebuiltConcat(map[], a, b);
    RebuiltConcat(map[], a, c);
    forall key | Writes(b, key)
      ensures Writes(c, key)
    {
      var k :| 0 <= k < |b| && b[k].key == key;
      assert c[k].key == key;
    }
    ReappliedOver(Rebuilt(map[], a), b, c);
  }

  lemma MirrorsWrite(table: Table, m: map<string, string>, command: LogCommand)
    requires Mirrors(table, m) && command != Noop
    ensures Mirrors(Rebuilt(table, WalOf(command)),
                    if command.Put? then m[command.key := command.value] else m - {command.key})
  {
    RebuiltOne(table, WalOf(command)[0]);
  }

  lemma ProposeKeepsInv(p: Pair, command: LogCommand, accepted: Response)
    requires Inv(p) && p.server.raft.role == Leader && CleanCommand(command) && command != Noop
    ensures Proposed(p.server, command, accepted).response == accepted
    ensures Inv(Pair(Proposed(p.server, command, accepted).server,
                     if command.Put? then p.reference[command.key := command.value]
                     else p.reference - {command.key}))
  {
    var s := p.server;
    var entry := LogEntry(s.raft.currentTerm, command);
    var log := s.raft.log + [entry];
    LonePropose(s.raft, command);
    var o := HandlePropose(s.raft, command).value;
    ProcessedStore(s.(raft := o.node), o.actions);
    ApplyActionsWrite(log, s.raft.lastApplied, LastIndex(log));
    assert log[..|log|] == log;
    assert CleanLog(log);
    LogWritesClean(log, s.raft.lastApplied);
    WrittenAllInSync(s.store, LogWrites(log, s.raft.lastApplied));
    CatchingUp(s.raft.log, entry, s.raft.lastApplied);
    LogWritesAppend(s.raft.log, entry, 0);
    RebuiltConcat(map[], LogWrites(s.raft.log, 0), WalOf(command));
    MirrorsWrite(s.store.table, p.reference, command);
    assert Durable(o.node);
  }

  lemma ClientKeepsInv(p: Pair, command: Command)
    requires Inv(p) && CleanEvent(Client(command))
    ensures Inv(PairStep(p, Client(command)))
  {
    var s := p.server.(pending := None);
    var p1 := Pair(s, p.reference);
    assert Inv(p1);
    match command
    case Set(key, value) =>
      if Redirect(s, key).None? && s.raft.role == Leader {
        ProposeKeepsInv(p1, Put(key, value), SimpleString("OK"));
      }
    case Del(key) =>
      if Redirect(s, key).None? && s.raft.role == Leader {
        ProposeKeepsInv(p1, Delete(key), Integer(1));
      }
    case _ =>
  }

  lemma StepKeepsInv(p: Pair, e: ServerEvent)
    requires Inv(p) && CleanEvent(e)
    ensures Inv(PairStep(p, e))
  {
    match e
    case Client(command) => ClientKeepsInv(p, command);
    case Time =>
      LoneTick(p.server.raft);
      StepKeepsDurable(p.server.raft, Tick);
    case Reboot => RestartResetsVolatile(p.server.raft);
    case Drain =>
  }

  lemma {:induction false} RunKeepsInv(p: Pair, events: seq<ServerEvent>)
    requires Inv(p) && forall e | e in events :: CleanEvent(e)
    ensures Inv(PairRun(p, events))
    decreases events
  {
    if events != [] {
      StepKeepsInv(p, events[0]);
      RunKeepsInv(PairStep(p, events[0]), events[1..]);
    }
  }

  /** A new node on an empty disk, beside an empty map. */
  function Start(id: NodeId, router: Option<Routers.RouterState>, shardId: nat): Pair {
    Pair(Booted(id, [id], None, "", router, shardId), map[])
  }

  /** For every run, a GET of a key that is not redirected answers as the plain map does. */
  lemma SingleNodeRefinement(
      id: NodeId, router: Option<Routers.RouterState>, shardId: nat, events: seq<ServerEvent>, key: string)
    requires forall e | e in events :: CleanEvent(e)
    ensures var p := PairRun(Start(id, router, shardId), events);
            Redirect(p.server, key).None? ==>
              Handled(p.server, Get(key)).response
              == (if key in p.reference then BulkString(p.reference[key]) else Null)
  {
    var p := Start(id, router, shardId);
    assert Replayed("") == [];
    assert Inv(p);
    RunKeepsInv(p, events);
  }

  // ---- The node does accept writes ----

  function TicksTaken(s: Server, n: nat): Server
    decreases n
  {
    if n == 0 then s else TicksTaken(Ticked(s), n - 1)
  }

  /** A lone node leads once its election timer has run out, and goes on leading. */
  lemma {:induction false} LoneNodeElectsItself(s: Server, n: nat)
    requires s.raft.peers == [s.raft.id]
    requires s.raft.role == Leader || (n > 0 && n >= s.raft.timers.election)
    ensures TicksTaken(s, n).raft.role == Leader
    decreases n
  {
    if n > 0 {
      LoneTick(s.raft);
      assert Majority(s.raft.peers) == 1;
      LoneNodeElectsItself(Ticked(s), n - 1);
    }
  }

  /** Ticks leave a lone node's log, engine and routing alone. */
  ghost predicate SameHoldings(s: Server, s': Server) {
    && s'.store == s.store && s'.router == s.router && s'.shardId == s.shardId
    && s'.raft.id == s.raft.id && s'.raft.peers == s.raft.peers && s'.raft.log == s.raft.log
    && s'.raft.commitIndex == s.raft.commitIndex && s'.raft.lastApplied == s.raft.lastApplied
  }

  lemma {:induction false} TicksKeepHoldings(s: Server, n: nat)
    requires s.raft.peers == [s.raft.id]
    ensures SameHoldings(s, TicksTaken(s, n))
    decreases n
  {
    if n > 0 {
      LoneTick(s.raft);
      TicksKeepHoldings(Ticked(s), n - 1);
    }
  }

  /** Sixty ticks after any restart, a SET of a key that is not redirected is accepted. */
  lemma WritesAcceptedAfterRestart(s: Server, key: string, value: string)
    requires s.raft.peers == [s.raft.id]
    requires s.router.None? || Routers.Belongs(s.router.value, key, s.shardId)
    ensures Handled(TicksTaken(Rebooted(s), ELECTION_TIMEOUT_MAX), Set(key, value)).response == SimpleString("OK")
  {
    LoneNodeElectsItself(Rebooted(s), ELECTION_TIMEOUT_MAX);
    TicksKeepHoldings(Rebooted(s), ELECTION_TIMEOUT_MAX);
  }

  // ---- Which values survive ----

  /** A new lone node that has become leader and accepted one SET. */
  function AfterFirstSet(id: NodeId, key: string, value: string): Reply {
    Handled(TicksTaken(Booted(id, [id], None, "", None, 1), ELECTION_TIMEOUT_MAX), Set(key, value))
  }

  lemma FirstSetWritten(id: NodeId, key: string, value: string)
    ensures AfterFirstSet(id, key, value).response == SimpleString("OK")
    ensures AfterFirstSet(id, key, value).server.router == None
    ensures AfterFirstSet(id, key, value).server.store
         == Written(Opened(""), WalEntry(OpPut, key, Some(value)))
  {
    var s0 := Booted(id, [id], None, "", None, 1);
    LoneNodeElectsItself(s0, ELECTION_TIMEOUT_MAX);
    TicksKeepHoldings(s0, ELECTION_TIMEOUT_MAX);
    var s := TicksTaken(s0, ELECTION_TIMEOUT_MAX);
    FirstWrite(s.(pending := None), key, value);
  }

  lemma FirstWrite(s: Server, key: string, value: string)
    requires s.raft.peers == [s.raft.id] && s.raft.role == Leader && s.raft.log == EMPTY_LOG
    requires s.raft.commitIndex == 0 && s.raft.lastApplied == 0
    ensures var r := Proposed(s, Put(key, value), SimpleString("OK"));
            && r.response == SimpleString("OK") && r.server.router == s.router
            && r.server.store == Written(s.store, WalEntry(OpPut, key, Some(value)))
  {
    var entry := LogEntry(s.raft.currentTerm, Put(key, value));
    var log := s.raft.log + [entry];
    LonePropose(s.raft, Put(key, value));
    var o := HandlePropose(s.raft, Put(key, value)).value;
    assert o.actions == [ApplyEntry(1, Put(key, value))] by {
      assert ApplyActions(log, 1, 1) == [];
    }
    var s1 := s.(raft := o.node);
    assert Processed(s1, o.actions) == ProcessedOne(s1, o.actions[0]);
    var e := WalEntry(OpPut, key, Some(value));
    assert WrittenAll(s.store, [e]) == Written(s.store, e) by { assert [e][1..] == []; }
  }

  /** The value a reopened engine gives back is one that some replayed entry put there. */
  lemma ReadComesFromEntry(es: seq<WalEntry>, key: string, value: string) returns (k: nat)
    requires Read(Rebuilt(map[], es), key) == Some(value)
    ensures k < |es| && es[k].key == key && es[k].operation == OpPut && ValueText(es[k]) == value
  {
    if !Writes(es, key) {
      RebuiltKeeps(map[], es, key);
    }
    k := LastWriteExists(es, key);
    LastWriteWins(map[], es, key, k);
  }

  lemma ReopenedOneEntry(e: WalEntry)
    requires e.operation == OpPut && EngineMade(e)
    ensures Read(Opened(Serialize(e)).table, e.key) == Some(ValueText(e)) <==> Clean(e)
  {
    var es := Replayed(Serialize(e));
    if Clean(e) {
      ReplayOneClean(e);
      RebuiltOne(map[], e);
    }
    if Read(Rebuilt(map[], es), e.key) == Some(ValueText(e)) {
      var k := ReadComesFromEntry(es, e.key, ValueText(e));
      LinesHaveNoNewline(Serialize(e));
      ParsedFieldsAreClean(Lines(Serialize(e)));
      assert es[k] in es;
      ReplayHead(e, "");
      assert Serialize(e) + "" == Serialize(e);
      assert Lines("") == [] && ParseLines([]) == [];
      assert es == [Trimmed(e)];
      TrimmedBody(e);
    }
  }

  /** The refinement needs its condition: an accepted SET is read back after the next restart
      if and only if its fields are clean. (Before that restart it is read back in any case.) */
  lemma SetSurvivesRestart(id: NodeId, key: string, value: string)
    ensures var s := AfterFirstSet(id, key, value).server;
            && Handled(s, Get(key)).response == BulkString(value)
            && (Handled(Rebooted(s), Get(key)).response == BulkString(value)
                <==> Clean(WalEntry(OpPut, key, Some(value))))
  {
    var e := WalEntry(OpPut, key, Some(value));
    FirstSetWritten(id, key, value);
    assert Replayed("") == [];
    assert "" + Serialize(e) == Serialize(e);
    ReopenedOneEntry(e);
  }
}
