/** The replicated store: a cluster in which every node applies its log to its own storage
    engine. After a restart the engine recovers from its own file while last_applied starts
    again at 0, so the log is applied once more on top of the recovered data. Over every
    permitted run, a node holds exactly the committed commands up to last_applied, each applied
    once, if and only if those write every key it ever wrote - certainly once it has caught up
    with its own past - and so two such nodes answer alike. */
module ReplicatedStores {
  import opened RaftTypes
  import opened RaftLogs
  import opened RaftSpec
  import opened RaftCluster
  import opened LogMatching
  import opened Acknowledgements
  import opened LeaderCompleteness
  import opened ApplyOrder
  import opened Wals
  import opened Storage
  import opened AppliedLogs

  /** The log up to last_applied. */
  function AppliedPrefix(s: NodeState): seq<LogEntry> {
    if s.lastApplied < |s.log| then s.log[..s.lastApplied + 1] else s.log
  }

  /** The cluster, each node's engine, and (for an observer) the longest log prefix each node
      has applied in any of its uptimes. A node not yet in a map has written nothing. */
  datatype World = World(cluster: Cluster, stores: map<NodeId, Store>, peaks: map<NodeId, seq<LogEntry>>)

  function StoreOf(w: World, p: NodeId): Store {
    if p in w.stores then w.stores[p] else Opened("")
  }

  function PeakOf(w: World, p: NodeId): seq<LogEntry> {
    if p in w.peaks then w.peaks[p] else EMPTY_LOG
  }

  function InitialWorld(peers: seq<NodeId>): World {
    World(Initial(peers), map[], map[])
  }

  function StoreStep(store: Store, input: Input, actions: seq<Action>): Store {
    if input.Restart? then Opened(store.file) else StoreProcessed(store, actions)
  }

  function PeakStep(peak: seq<LogEntry>, s: NodeState): seq<LogEntry> {
    if |AppliedPrefix(s)| > |peak| then AppliedPrefix(s) else peak
  }

  function WorldStep(w: World, e: Event): World {
    if !Enabled(w.cluster, e) then w
    else
      var o := NodeStep(w.cluster.nodes[e.node], e.input);
      World(Step(w.cluster, e),
            w.stores[e.node := StoreStep(StoreOf(w, e.node), e.input, o.actions)],
            w.peaks[e.node := PeakStep(PeakOf(w, e.node), o.node)])
  }

  function WorldRun(w: World, events: seq<Event>): World
    decreases events
  {
    if events == [] then w else WorldRun(WorldStep(w, events[0]), events[1..])
  }

  predicate CleanProposal(e: Event) {
    e.input.Propose? ==> CleanCommand(e.input.command)
  }

  // ---- Logs hold clean commands ----

  ghost predicate CleanLeaders(leaders: LeaderLogs) {
    forall t | t in leaders :: CleanLog(leaders[t])
  }

  lemma LogIsClean(leaders: LeaderLogs, log: Log)
    requires LogOk(leaders, log) && CleanLeaders(leaders)
    ensures CleanLog(log)
  {
    forall i | 0 < i < |log| ensures CleanCommand(log[i].command) {
      assert EntryOk(leaders, log, i);
    }
  }

  lemma LeadersStayClean(leaders: LeaderLogs, s: NodeState, s': NodeState, effect: LogEffect)
    requires LogStep(leaders, s, s', effect) && CleanLeaders(leaders)
    requires effect.Extended? ==> CleanCommand(effect.entry.command)
    ensures CleanLeaders(ObserveLeader(leaders, s'))
  {
    LogIsClean(leaders, s.log);
  }

  lemma StepStaysClean(c: Cluster, e: Event)
    requires BasicInv(c) && CleanLeaders(c.history.leaderLog) && CleanProposal(e)
    ensures CleanLeaders(Step(c, e).history.leaderLog)
  {
    if Enabled(c, e) {
      var s := c.nodes[e.node];
      StepHasFacts(c, e);
      LeadersStayClean(c.history.leaderLog, s, NodeStep(s, e.input).node, EffectOf(s, e.input));
    }
  }

  // ---- Safe prefixes ----

  ghost predicate SafeAll(c: Cluster, t: nat, log: seq<LogEntry>) {
    |log| > 0 && SafeUpTo(c, t, log, |log| - 1)
  }

  ghost predicate SafePrefix(c: Cluster, log: seq<LogEntry>) {
    |log| > 0 && log[0] == SENTINEL && exists t: nat :: SafeAll(c, t, log)
  }

  predicate IsPrefix(a: seq<LogEntry>, b: seq<LogEntry>) {
    |a| <= |b| && a == b[..|a|]
  }

  lemma SafePrefixStays(c: Cluster, c': Cluster, log: seq<LogEntry>)
    requires Grows(c, c') && SafePrefix(c, log)
    ensures SafePrefix(c', log)
  {
    var t: nat :| SafeAll(c, t, log);
    SafeUpToStays(c, c', t, t, log, |log| - 1);
    assert SafeAll(c', t, log);
  }

  lemma SafePrefixesComparable(c: Cluster, a: seq<LogEntry>, b: seq<LogEntry>)
    requires KeepInv(c) && SafePrefix(c, a) && SafePrefix(c, b) && |a| <= |b|
    ensures IsPrefix(a, b)
  {
    var ta: nat :| SafeAll(c, ta, a);
    var tb: nat :| SafeAll(c, tb, b);
    forall k | 0 <= k < |a| ensures a[k] == b[k] {
      if k > 0 {
        SafePrefixesAgree(c, a, ta, |a| - 1, b, tb, |b| - 1, k);
      }
    }
  }

  ghost predicate AllComparable(c: Cluster) {
    forall a, b | SafePrefix(c, a) && SafePrefix(c, b) && |a| <= |b| :: IsPrefix(a, b)
  }

  ghost predicate AllStay(c: Cluster, c': Cluster) {
    forall log | SafePrefix(c, log) :: SafePrefix(c', log)
  }

  lemma KeepInvCompares(c: Cluster)
    requires KeepInv(c)
    ensures AllComparable(c)
  {
    forall a, b | SafePrefix(c, a) && SafePrefix(c, b) && |a| <= |b| ensures IsPrefix(a, b) {
      SafePrefixesComparable(c, a, b);
    }
  }

  lemma GrowsStays(c: Cluster, c': Cluster)
    requires Grows(c, c')
    ensures AllStay(c, c')
  {
    forall log | SafePrefix(c, log) ensures SafePrefix(c', log) {
      SafePrefixStays(c, c', log);
    }
  }

  /** The node's applied prefix is a safe, clean prefix of its log. */
  ghost predicate AppliedOkAt(c: Cluster, s: NodeState) {
    s.lastApplied < |s.log| && SafePrefix(c, AppliedPrefix(s)) && CleanLog(AppliedPrefix(s))
  }

  lemma AppliedIsSafe(c: Cluster, p: NodeId)
    requires p in c.nodes && CommitOk(c, p) && c.nodes[p].log[0] == SENTINEL
    ensures c.nodes[p].lastApplied < |c.nodes[p].log| && SafePrefix(c, AppliedPrefix(c.nodes[p]))
  {
    var s := c.nodes[p];
    SafeUpToTransfers(c, s.currentTerm, s.log, s.commitIndex, AppliedPrefix(s), s.lastApplied);
    assert SafeAll(c, s.currentTerm, AppliedPrefix(s));
  }

  lemma AppliedOkFrom(c: Cluster, p: NodeId)
    requires p in c.nodes && CommitOk(c, p)
    requires LogOk(c.history.leaderLog, c.nodes[p].log) && CleanLeaders(c.history.leaderLog)
    ensures AppliedOkAt(c, c.nodes[p])
  {
    AppliedIsSafe(c, p);
    LogIsClean(c.history.leaderLog, c.nodes[p].log);
  }

  lemma SafetyInvAt(c: Cluster, p: NodeId)
    requires SafetyInv(c) && p in c.nodes
    ensures CommitOk(c, p) && LogOk(c.history.leaderLog, c.nodes[p].log)
  {
    assert NodeLogOk(c, p);
  }

  lemma AppliedOkEverywhere(c: Cluster)
    requires SafetyInv(c) && CleanLeaders(c.history.leaderLog)
    ensures AllComparable(c) && forall p | p in c.nodes :: AppliedOkAt(c, c.nodes[p])
  {
    KeepInvCompares(c);
    forall p | p in c.nodes ensures AppliedOkAt(c, c.nodes[p]) {
      SafetyInvAt(c, p);
      AppliedOkFrom(c, p);
    }
  }

  // ---- Tables ----

  ghost predicate WritesKey(log: seq<LogEntry>, key: string) {
    Writes(LogWrites(log, 0), key)
  }

  /** The table is the applied prefix on top of what earlier uptimes left behind. */
  ghost predicate Held(base: Table, table: Table, peak: seq<LogEntry>, applied: seq<LogEntry>) {
    && (forall key | key in base :: WritesKey(peak, key))
    && table == Rebuilt(base, LogWrites(applied, 0))
    && (forall key :: key in table <==> WritesKey(peak, key))
  }

  ghost predicate Holds(table: Table, peak: seq<LogEntry>, applied: seq<LogEntry>) {
    exists base: Table :: Held(base, table, peak, applied)
  }

  /** The longer of two prefixes of one log. */
  ghost predicate Longer(peak': seq<LogEntry>, peak: seq<LogEntry>, applied: seq<LogEntry>) {
    (peak' == peak && IsPrefix(applied, peak)) || (peak' == applied && IsPrefix(peak, applied))
  }

  lemma RebuiltAlsoHas(table: Table, es: seq<WalEntry>, key: string)
    ensures key in Rebuilt(table, es) <==> key in table || Writes(es, key)
  {
    if Writes(es, key) {
      var k := LastWriteExists(es, key);
      LastWriteWins(table, es, key, k);
    } else {
      RebuiltKeeps(table, es, key);
    }
  }

  /** Applying on adds the keys of the stretch applied, and so keeps step with the peak. */
  lemma MoreKeys(table: Table, peak: seq<LogEntry>, peak': seq<LogEntry>,
                 applied: seq<LogEntry>, applied': seq<LogEntry>, key: string)
    requires |applied| > 0 && |peak| > 0 && IsPrefix(applied, peak) && IsPrefix(applied, applied')
    requires Longer(peak', peak, applied') && (key in table <==> WritesKey(peak, key))
    ensures key in Rebuilt(table, LogWrites(applied', |applied| - 1)) <==> WritesKey(peak', key)
  {
    var more := LogWrites(applied', |applied| - 1);
    RebuiltAlsoHas(table, more, key);
    LogWritesSplit(applied', 0, |applied| - 1);
    WritesConcat(LogWrites(applied, 0), more, key);
    if WritesKey(applied, key) {
      PrefixWrites(applied, peak, key);
    }
    if peak' == peak && WritesKey(applied', key) {
      PrefixWrites(applied', peak, key);
    }
    if peak' == applied' && WritesKey(peak, key) {
      PrefixWrites(peak, applied', key);
    }
  }

  lemma AllMoreKeys(table: Table, table': Table, peak: seq<LogEntry>, peak': seq<LogEntry>,
                    applied: seq<LogEntry>, applied': seq<LogEntry>)
    requires |applied| > 0 && |peak| > 0 && IsPrefix(applied, peak) && IsPrefix(applied, applied')
    requires Longer(peak', peak, applied') && forall key :: key in table <==> WritesKey(peak, key)
    requires table' == Rebuilt(table, LogWrites(applied', |applied| - 1))
    ensures forall key :: key in table' <==> WritesKey(peak', key)
    ensures forall key | WritesKey(peak, key) :: WritesKey(peak', key)
  {
    forall key
      ensures key in table' <==> WritesKey(peak', key)
      ensures WritesKey(peak, key) ==> WritesKey(peak', key)
    {
      MoreKeys(table, peak, peak', applied, applied', key);
      if WritesKey(peak, key) && peak' != peak {
        PrefixWrites(peak, peak', key);
      }
    }
  }

  /** Applying on from one prefix to a longer one. */
  lemma HeldMore(base: Table, table: Table, table': Table, peak: seq<LogEntry>, peak': seq<LogEntry>,
                 applied: seq<LogEntry>, applied': seq<LogEntry>)
    requires Held(base, table, peak, applied)
    requires |applied| > 0 && |peak| > 0 && IsPrefix(applied, peak) && IsPrefix(applied, applied')
    requires Longer(peak', peak, applied') && table' == Rebuilt(table, LogWrites(applied', |applied| - 1))
    ensures Held(base, table', peak', applied')
  {
    AppliedFurther(base, applied, applied');
    AllMoreKeys(table, table', peak, peak', applied, applied');
  }

  lemma AppliedFurther(base: Table, applied: seq<LogEntry>, applied': seq<LogEntry>)
    requires |applied| > 0 && IsPrefix(applied, applied')
    ensures Rebuilt(Rebuilt(base, LogWrites(applied, 0)), LogWrites(applied', |applied| - 1))
         == Rebuilt(base, LogWrites(applied', 0))
  {
    LogWritesSplit(applied', 0, |applied| - 1);
    RebuiltConcat(base, LogWrites(applied, 0), LogWrites(applied', |applied| - 1));
  }

  lemma HoldsMore(store: Store, store': Store, peak: seq<LogEntry>, peak': seq<LogEntry>,
                  applied: seq<LogEntry>, applied': seq<LogEntry>, from: nat)
    requires InSync(store) && Holds(store.table, peak, applied) && CleanLog(applied')
    requires |applied| == from + 1 && |peak| > 0 && IsPrefix(applied, peak) && IsPrefix(applied, applied')
    requires Longer(peak', peak, applied') && store' == WrittenAll(store, LogWrites(applied', from))
    ensures InSync(store') && Holds(store'.table, peak', applied')
  {
    var base :| Held(base, store.table, peak, applied);
    LogWritesClean(applied', from);
    WrittenAllInSync(store, LogWrites(applied', from));
    HeldMore(base, store.table, store'.table, peak, peak', applied, applied');
  }

  /** A restart starts the prefix over on top of everything there is. */
  lemma HoldsRestarted(table: Table, peak: seq<LogEntry>, applied: seq<LogEntry>, start: seq<LogEntry>)
    requires Holds(table, peak, applied) && |start| == 1
    ensures Holds(table, peak, start)
  {
    var base :| Held(base, table, peak, applied);
    assert Held(table, table, peak, start);
  }

  /** Nothing of the past is left exactly when the applied prefix writes every key of the peak. */
  lemma HoldsExactly(table: Table, peak: seq<LogEntry>, applied: seq<LogEntry>)
    requires Holds(table, peak, applied)
    ensures table == Rebuilt(map[], LogWrites(applied, 0))
       <==> forall key | WritesKey(peak, key) :: WritesKey(applied, key)
  {
    var base :| Held(base, table, peak, applied);
    if forall key | WritesKey(peak, key) :: WritesKey(applied, key) {
      Overwritten(base, map[], LogWrites(applied, 0));
    }
    if table == Rebuilt(map[], LogWrites(applied, 0)) {
      forall key | WritesKey(peak, key) ensures WritesKey(applied, key) {
        RebuiltKeys(LogWrites(applied, 0), key);
      }
    }
  }

  // ---- The invariant ----

  ghost predicate NodeStoreOk(c: Cluster, s: NodeState, store: Store, peak: seq<LogEntry>) {
    && InSync(store) && SafePrefix(c, peak)
    && |AppliedPrefix(s)| <= |peak| && Holds(store.table, peak, AppliedPrefix(s))
  }

  ghost predicate NodesOk(c: Cluster, w: World) {
    forall p | p in c.nodes :: NodeStoreOk(c, c.nodes[p], StoreOf(w, p), PeakOf(w, p))
  }

  ghost predicate WorldInv(w: World) {
    SafetyInv(w.cluster) && CleanLeaders(w.cluster.history.leaderLog) && NodesOk(w.cluster, w)
  }

  /** Applied prefixes only grow over a step that is not a restart, and peaks always do. */
  lemma PrefixesGrow(c: Cluster, c': Cluster, before: seq<LogEntry>, after: seq<LogEntry>, peak: seq<LogEntry>)
    requires AllStay(c, c') && AllComparable(c') && |before| <= |after|
    requires SafePrefix(c, before) && SafePrefix(c, peak) && SafePrefix(c', after)
    ensures IsPrefix(before, after) && (|before| <= |peak| ==> IsPrefix(before, peak))
    ensures SafePrefix(c', peak) && (if |after| > |peak| then IsPrefix(peak, after) else IsPrefix(after, peak))
  {
    assert SafePrefix(c', before) && SafePrefix(c', peak);
  }

  /** What a step of a node writes to its engine. */
  lemma StepWrites(store: Store, actions: seq<Action>, applied': seq<LogEntry>, log: Log, from: nat, upTo: nat)
    requires Emitted(actions) == ApplyActions(log, from, upTo) && upTo < |log| && applied' == log[..upTo + 1]
    ensures StoreProcessed(store, actions) == WrittenAll(store, LogWrites(applied', from))
  {
    EmittedWrite(actions);
    ApplyActionsWrite(log, from, upTo);
  }

  /** The node that took the step. */
  lemma ThisNodeAfter(c: Cluster, c': Cluster, s: NodeState, o: Outcome, store: Store, peak: seq<LogEntry>)
    requires NodeStoreOk(c, s, store, peak) && AllStay(c, c') && AllComparable(c')
    requires AppliedOkAt(c, s) && AppliedOkAt(c', o.node) && EmitsGap(s, o)
    ensures NodeStoreOk(c', o.node, StoreProcessed(store, o.actions), PeakStep(peak, o.node))
  {
    PrefixesGrow(c, c', AppliedPrefix(s), AppliedPrefix(o.node), peak);
    ThisNodeTable(s, o, store, peak);
  }

  lemma ThisNodeTable(s: NodeState, o: Outcome, store: Store, peak: seq<LogEntry>)
    requires InSync(store) && |peak| > 0 && Holds(store.table, peak, AppliedPrefix(s))
    requires s.lastApplied < |s.log| && o.node.lastApplied < |o.node.log|
    requires EmitsGap(s, o) && CleanLog(AppliedPrefix(o.node))
    requires IsPrefix(AppliedPrefix(s), AppliedPrefix(o.node)) && IsPrefix(AppliedPrefix(s), peak)
    requires Longer(PeakStep(peak, o.node), peak, AppliedPrefix(o.node))
    ensures InSync(StoreProcessed(store, o.actions))
    ensures Holds(StoreProcessed(store, o.actions).table, PeakStep(peak, o.node), AppliedPrefix(o.node))
  {
    StepTable(store, o.actions, peak, PeakStep(peak, o.node), AppliedPrefix(s), AppliedPrefix(o.node),
              o.node.log, s.lastApplied, o.node.lastApplied);
  }

  lemma StepTable(store: Store, actions: seq<Action>, peak: seq<LogEntry>, peak': seq<LogEntry>,
                  applied: seq<LogEntry>, applied': seq<LogEntry>, log: Log, from: nat, upTo: nat)
    requires InSync(store) && |peak| > 0 && Holds(store.table, peak, applied)
    requires Emitted(actions) == ApplyActions(log, from, upTo) && upTo < |log|
    requires |applied| == from + 1 && applied' == log[..upTo + 1] && CleanLog(applied')
    requires IsPrefix(applied, peak) && IsPrefix(applied, applied') && Longer(peak', peak, applied')
    ensures InSync(StoreProcessed(store, actions)) && Holds(StoreProcessed(store, actions).table, peak', applied')
  {
    StepWrites(store, actions, applied', log, from, upTo);
    HoldsMore(store, StoreProcessed(store, actions), peak, peak', applied, applied', from);
  }

  lemma ThisNodeRestarted(c: Cluster, c': Cluster, s: NodeState, s': NodeState, store: Store, peak: seq<LogEntry>)
    requires NodeStoreOk(c, s, store, peak) && AllStay(c, c') && AllComparable(c')
    requires AppliedOkAt(c, s) && s'.lastApplied == 0
    ensures NodeStoreOk(c', s', Opened(store.file), PeakStep(peak, s'))
  {
    HoldsRestarted(store.table, peak, AppliedPrefix(s), AppliedPrefix(s'));
  }

  lemma NodesOkAfter(w: World, w': World, i: NodeId, input: Input, o: Outcome)
    requires i in w.cluster.nodes && w'.cluster.nodes == w.cluster.nodes[i := o.node]
    requires AllStay(w.cluster, w'.cluster) && AllComparable(w'.cluster) && NodesOk(w.cluster, w)
    requires AppliedOkAt(w.cluster, w.cluster.nodes[i]) && AppliedOkAt(w'.cluster, o.node)
    requires if input.Restart? then o.node.lastApplied == 0 else EmitsGap(w.cluster.nodes[i], o)
    requires w'.stores == w.stores[i := StoreStep(StoreOf(w, i), input, o.actions)]
    requires w'.peaks == w.peaks[i := PeakStep(PeakOf(w, i), o.node)]
    ensures NodesOk(w'.cluster, w')
  {
    ThisNodeOk(w.cluster, w'.cluster, w.cluster.nodes[i], input, o, StoreOf(w, i), PeakOf(w, i));
    OthersOk(w, w', i, w'.cluster);
  }

  lemma ThisNodeOk(c: Cluster, c': Cluster, s: NodeState, input: Input, o: Outcome, store: Store, peak: seq<LogEntry>)
    requires NodeStoreOk(c, s, store, peak) && AllStay(c, c') && AllComparable(c')
    requires AppliedOkAt(c, s) && AppliedOkAt(c', o.node)
    requires if input.Restart? then o.node.lastApplied == 0 else EmitsGap(s, o)
    ensures NodeStoreOk(c', o.node, StoreStep(store, input, o.actions), PeakStep(peak, o.node))
  {
    if input.Restart? {
      ThisNodeRestarted(c, c', s, o.node, store, peak);
    } else {
      ThisNodeAfter(c, c', s, o, store, peak);
    }
  }

  lemma OthersOk(w: World, w': World, i: NodeId, c': Cluster)
    requires NodesOk(w.cluster, w) && AllStay(w.cluster, c') && i in c'.nodes
    requires c'.nodes == w.cluster.nodes[i := c'.nodes[i]]
    requires forall p | p != i :: StoreOf(w', p) == StoreOf(w, p) && PeakOf(w', p) == PeakOf(w, p)
    requires NodeStoreOk(c', c'.nodes[i], StoreOf(w', i), PeakOf(w', i))
    ensures NodesOk(c', w')
  {
    forall p | p in c'.nodes && p != i ensures NodeStoreOk(c', c'.nodes[p], StoreOf(w', p), PeakOf(w', p)) {
      assert NodeStoreOk(w.cluster, w.cluster.nodes[p], StoreOf(w, p), PeakOf(w, p));
    }
  }

  /** What a permitted step means for safe prefixes. */
  lemma StepPrefixFacts(c: Cluster, e: Event)
    requires SafetyInv(c) && CleanLeaders(c.history.leaderLog)
    requires Permitted(c, e, NOTHING) && CleanProposal(e)
    ensures SafetyInv(Step(c, e)) && CleanLeaders(Step(c, e).history.leaderLog) && AllStay(c, Step(c, e))
  {
    SafetyInvStep(c, e);
    StepStaysClean(c, e);
    GrowsStays(c, Step(c, e));
  }

  lemma WorldInvStep(w: World, e: Event)
    requires WorldInv(w) && Permitted(w.cluster, e, NOTHING) && CleanProposal(e)
    ensures WorldInv(WorldStep(w, e))
  {
    StepPrefixFacts(w.cluster, e);
    AppliedOkEverywhere(w.cluster);
    AppliedOkEverywhere(Step(w.cluster, e));
    EnabledNodesOk(w, e, Step(w.cluster, e));
  }

  lemma EnabledNodesOk(w: World, e: Event, c': Cluster)
    requires c' == Step(w.cluster, e) && AllStay(w.cluster, c') && AllComparable(c') && NodesOk(w.cluster, w)
    requires forall p | p in w.cluster.nodes :: AppliedOkAt(w.cluster, w.cluster.nodes[p])
    requires forall p | p in c'.nodes :: AppliedOkAt(c', c'.nodes[p])
    ensures NodesOk(c', WorldStep(w, e)) && WorldStep(w, e).cluster == c'
  {
    if Enabled(w.cluster, e) {
      assert e.node in c'.nodes;
      if !e.input.Restart? {
        NodeStepEmits(w.cluster.nodes[e.node], e.input);
      }
      NodesOkAfter(w, WorldStep(w, e), e.node, e.input, NodeStep(w.cluster.nodes[e.node], e.input));
    }
  }

  lemma {:induction false} WorldInvRun(w: World, events: seq<Event>)
    requires WorldInv(w) && RunPermitted(w.cluster, events, NOTHING) && forall e | e in events :: CleanProposal(e)
    ensures WorldInv(WorldRun(w, events)) && WorldRun(w, events).cluster == Exec(w.cluster, events)
    decreases events
  {
    if events != [] {
      WorldInvStep(w, events[0]);
      WorldInvRun(WorldStep(w, events[0]), events[1..]);
    }
  }

  lemma WorldInvInitial(peers: seq<NodeId>)
    requires NoDuplicates(peers)
    ensures WorldInv(InitialWorld(peers))
  {
    SafetyInvInitial(peers);
    InitialNodesOk(Initial(peers), InitialWorld(peers));
  }

  lemma InitialNodesOk(c: Cluster, w: World)
    requires w.stores == map[] && w.peaks == map[]
    requires forall p | p in c.nodes :: c.nodes[p].lastApplied == 0 && c.nodes[p].log == EMPTY_LOG
    ensures NodesOk(c, w)
  {
    assert Replayed("") == [];
    assert SafeAll(c, 0, EMPTY_LOG);
    assert Held(map[], map[], EMPTY_LOG, EMPTY_LOG);
    assert EMPTY_LOG[..1] == EMPTY_LOG;
  }

  // ---- The theorem ----

  /** The node has applied, since its last restart, all it had ever applied before. */
  predicate CaughtUp(w: World, p: NodeId)
    requires p in w.cluster.nodes
  {
    w.cluster.nodes[p].lastApplied + 1 >= |PeakOf(w, p)|
  }

  /** The log it has applied since writes every key it ever wrote. */
  ghost predicate Settled(w: World, p: NodeId)
    requires p in w.cluster.nodes
  {
    forall key | WritesKey(PeakOf(w, p), key) :: WritesKey(AppliedPrefix(w.cluster.nodes[p]), key)
  }

  /** A node holds exactly its applied commands, each applied once, if and only if it has
      settled, and certainly when it has caught up; its file always agrees with its table. */
  ghost predicate HoldsItsLog(w: World, p: NodeId)
    requires p in w.cluster.nodes
  {
    && (StoreOf(w, p).table == Rebuilt(map[], LogWrites(AppliedPrefix(w.cluster.nodes[p]), 0)) <==> Settled(w, p))
    && (CaughtUp(w, p) ==> Settled(w, p))
    && Opened(StoreOf(w, p).file) == StoreOf(w, p)
  }

  ghost predicate NodesAnswerAlike(w: World, p: NodeId, q: NodeId)
    requires p in w.cluster.nodes && q in w.cluster.nodes
  {
    Settled(w, p) && Settled(w, q) && w.cluster.nodes[p].lastApplied == w.cluster.nodes[q].lastApplied ==>
      StoreOf(w, p).table == StoreOf(w, q).table
  }

  lemma NodeHoldsItsLog(w: World, p: NodeId)
    requires NodesOk(w.cluster, w) && AllComparable(w.cluster)
    requires p in w.cluster.nodes && AppliedOkAt(w.cluster, w.cluster.nodes[p])
    ensures HoldsItsLog(w, p)
  {
    assert NodeStoreOk(w.cluster, w.cluster.nodes[p], StoreOf(w, p), PeakOf(w, p));
    HoldsExactly(StoreOf(w, p).table, PeakOf(w, p), AppliedPrefix(w.cluster.nodes[p]));
    if CaughtUp(w, p) {
      CaughtUpSettled(PeakOf(w, p), AppliedPrefix(w.cluster.nodes[p]));
    }
  }

  lemma CaughtUpSettled(peak: seq<LogEntry>, applied: seq<LogEntry>)
    requires |peak| > 0 && IsPrefix(peak, applied)
    ensures forall key | WritesKey(peak, key) :: WritesKey(applied, key)
  {
    forall key | WritesKey(peak, key) ensures WritesKey(applied, key) {
      PrefixWrites(peak, applied, key);
    }
  }

  lemma SameLengthSamePrefix(c: Cluster, a: seq<LogEntry>, b: seq<LogEntry>)
    requires AllComparable(c) && SafePrefix(c, a) && SafePrefix(c, b)
    ensures |a| == |b| ==> a == b
  {
    if |a| == |b| {
      assert IsPrefix(a, b);
    }
  }

  lemma NodePairAgrees(w: World, p: NodeId, q: NodeId)
    requires AllComparable(w.cluster) && p in w.cluster.nodes && q in w.cluster.nodes
    requires AppliedOkAt(w.cluster, w.cluster.nodes[p]) && AppliedOkAt(w.cluster, w.cluster.nodes[q])
    requires HoldsItsLog(w, p) && HoldsItsLog(w, q)
    ensures NodesAnswerAlike(w, p, q)
  {
    SameLengthSamePrefix(w.cluster, AppliedPrefix(w.cluster.nodes[p]), AppliedPrefix(w.cluster.nodes[q]));
  }

  lemma WorldAgrees(w: World)
    requires NodesOk(w.cluster, w) && AllComparable(w.cluster)
    requires forall p | p in w.cluster.nodes :: AppliedOkAt(w.cluster, w.cluster.nodes[p])
    ensures forall p | p in w.cluster.nodes :: HoldsItsLog(w, p)
    ensures forall p, q | p in w.cluster.nodes && q in w.cluster.nodes :: NodesAnswerAlike(w, p, q)
  {
    forall p | p in w.cluster.nodes ensures HoldsItsLog(w, p) {
      NodeHoldsItsLog(w, p);
    }
    forall p, q | p in w.cluster.nodes && q in w.cluster.nodes ensures NodesAnswerAlike(w, p, q) {
      NodePairAgrees(w, p, q);
    }
  }

  /** For every permitted run whose proposals are clean, restarts included. */
  lemma ReplicatedStoreTheorem(peers: seq<NodeId>, events: seq<Event>)
    requires NoDuplicates(peers) && RunPermitted(Initial(peers), events, NOTHING)
    requires forall e | e in events :: CleanProposal(e)
    ensures var w := WorldRun(InitialWorld(peers), events);
            && w.cluster == Exec(Initial(peers), events)
            && (forall p | p in w.cluster.nodes :: HoldsItsLog(w, p))
            && (forall p, q | p in w.cluster.nodes && q in w.cluster.nodes :: NodesAnswerAlike(w, p, q))
  {
    WorldInvInitial(peers);
    WorldInvRun(InitialWorld(peers), events);
    AppliedOkEverywhere(Exec(Initial(peers), events));
    WorldAgrees(WorldRun(InitialWorld(peers), events));
  }
}
