/** A cluster of complete nodes: each input of the Raft layer taken by a ClusterNode, which
    applies and queues what Raft returns. The queues carry exactly the messages of the step
    system and the engines are those of ReplicatedStores, so the theorems about both hold of
    the answers clients get. */
module ServerCluster {
  import opened RaftTypes
  import opened RaftSpec
  import opened RaftCluster
  import opened LeaderCompleteness
  import opened CatchUp
  import opened RunTools
  import opened Convergence
  import opened Wals
  import opened Storage
  import opened ClusterNodes
  import opened AppliedLogs
  import opened ReplicatedStores
  import Routers

  // ---- The outbound queue ----

  /** What an action puts on the queue: every action but ApplyEntry is a message. */
  function MessageOf(a: Action): seq<PeerMessage> {
    if a.ApplyEntry? then []
    else
      var e := ToEnvelope(0, a, None);
      [PeerMessage(e.to, e.body)]
  }

  function MessagesOf(actions: seq<Action>): seq<PeerMessage> {
    if actions == [] then [] else MessageOf(actions[0]) + MessagesOf(actions[1..])
  }

  /** The envelopes the transport makes of a node's queued messages. */
  function Mailed(from: NodeId, messages: seq<PeerMessage>, answers: Option<AppendEntriesRequest>): set<Envelope> {
    set m | m in messages :: Envelope(from, m.to, m.payload, answers)
  }

  /** Processing actions appends one message for each action that is no ApplyEntry, in order,
      applies the others in order, and touches nothing else. */
  lemma {:induction false} ProcessedExactly(s: Server, actions: seq<Action>)
    ensures Processed(s, actions)
         == s.(store := StoreProcessed(s.store, actions), outbound := s.outbound + MessagesOf(actions))
    decreases actions
  {
    ProcessedStore(s, actions);
    if actions == [] {
      assert s.outbound + [] == s.outbound;
    } else {
      ProcessedOneExactly(s, actions[0]);
      ProcessedExactly(ProcessedOne(s, actions[0]), actions[1..]);
      Regroup(s.outbound, MessageOf(actions[0]), MessagesOf(actions[1..]));
    }
  }

  lemma ProcessedOneExactly(s: Server, a: Action)
    ensures ProcessedOne(s, a)
         == s.(store := WrittenAll(s.store, ActionWrites(a)), outbound := s.outbound + MessageOf(a))
  {
    assert s.outbound + [] == s.outbound;
  }

  lemma {:induction false} MessageComesFrom(actions: seq<Action>, m: PeerMessage)
    ensures m in MessagesOf(actions) <==> exists a | a in actions :: !a.ApplyEntry? && MessageOf(a) == [m]
  {
    if actions != [] {
      MessageComesFrom(actions[1..], m);
      assert m in MessageOf(actions[0]) <==> !actions[0].ApplyEntry? && MessageOf(actions[0]) == [m];
      if exists a | a in actions :: !a.ApplyEntry? && MessageOf(a) == [m] {
        var a :| a in actions && !a.ApplyEntry? && MessageOf(a) == [m];
        assert a == actions[0] || a in actions[1..];
      }
    }
  }

  /** The envelopes made of the queued messages are exactly those the step system sends. */
  lemma QueueIsOutbox(from: NodeId, actions: seq<Action>, answers: Option<AppendEntriesRequest>)
    ensures Mailed(from, MessagesOf(actions), answers) == Outbox(from, actions, answers)
  {
    forall e | e in Mailed(from, MessagesOf(actions), answers) ensures e in Outbox(from, actions, answers) {
      var m :| m in MessagesOf(actions) && e == Envelope(from, m.to, m.payload, answers);
      MessageComesFrom(actions, m);
      var a :| a in actions && !a.ApplyEntry? && MessageOf(a) == [m];
      assert ToEnvelope(from, a, answers) == e;
    }
    forall e | e in Outbox(from, actions, answers) ensures e in Mailed(from, MessagesOf(actions), answers) {
      var a :| a in actions && !a.ApplyEntry? && e == ToEnvelope(from, a, answers);
      var m := MessageOf(a)[0];
      assert MessageOf(a) == [m];
      MessageComesFrom(actions, m);
      assert e == Envelope(from, m.to, m.payload, answers);
    }
  }

  // ---- A node takes an input ----

  /** A tick, a proposal, a message handed to its handler by the transport, or a restart. */
  function ServerTakes(s: Server, input: Input): Server {
    match input
    case Tick => Ticked(s)
    case Propose(command) =>
      (match HandlePropose(s.raft, command)
       case None => s
       case Some(o) => Processed(s.(raft := o.node), o.actions))
    case Deliver(envelope) =>
      var o := Receive(s.raft, envelope);
      Processed(s.(raft := o.node), o.actions)
    case Restart => Rebooted(s)
  }

  /** The complete node moves as the step system and the replicated store say. */
  lemma ServerTakesExactly(s: Server, input: Input)
    ensures var o := NodeStep(s.raft, input);
            var s' := ServerTakes(s, input);
            && s'.raft == o.node && s'.store == StoreStep(s.store, input, o.actions)
            && s'.router == s.router && s'.shardId == s.shardId
            && (!input.Restart? ==> s'.outbound == s.outbound + MessagesOf(o.actions) && s'.pending == s.pending)
            && (input.Restart? ==> s'.outbound == [] && s'.pending == None)
  {
    var o := NodeStep(s.raft, input);
    if !input.Restart? {
      ProcessedExactly(s.(raft := o.node), o.actions);
    }
    if input.Propose? && HandlePropose(s.raft, input.command).None? {
      assert o.actions == [] && s.outbound + [] == s.outbound;
      ProcessedExactly(s, []);
    }
  }

  /** A client's write is a proposal to the leader's Raft node and nothing more. */
  lemma WriteIsProposal(s: Server, command: Command)
    requires command.Set? || command.Del?
    ensures var r := Handled(s, command);
            var s0 := s.(pending := None);
            var write := if command.Set? then Put(command.key, command.value) else Delete(command.key);
            if Redirect(s, command.key).None? && s.raft.role == Leader
            then r == Reply(ServerTakes(s0, Propose(write)).(pending := Some(|s.raft.log|)),
                            if command.Set? then SimpleString("OK") else Integer(1))
            else r == Reply(s0, if Redirect(s, command.key).Some? then Redirect(s, command.key).value
                                else Error("NOTLEADER - this node is not the leader"))
  {
    var s0 := s.(pending := None);
    var write := if command.Set? then Put(command.key, command.value) else Delete(command.key);
    AcceptedIsLogged(s0, write, if command.Set? then SimpleString("OK") else Integer(1));
    assert Redirect(s0, command.key) == Redirect(s, command.key);
  }

  /** Only an accepted write leaves an index to wait for; no other command changes anything. */
  lemma OtherCommandsOnlyAnswer(s: Server, command: Command)
    requires !command.Set? && !command.Del?
    ensures Handled(s, command).server == s.(pending := None)
    ensures command.Ping? ==> Handled(s, command).response == SimpleString("PONG")
    ensures command.Unknown? ==> Handled(s, command).response == Error("unknown command '" + command.name + "'")
  {
  }

  // ---- Whole runs ----

  type Servers = map<NodeId, Server>

  function InitialServers(peers: seq<NodeId>, router: Option<Routers.RouterState>, shardId: nat): Servers {
    map p | p in peers :: Booted(p, peers, None, "", router, shardId)
  }

  function ServersStep(servers: Servers, c: Cluster, e: Event): Servers {
    if Enabled(c, e) && e.node in servers then servers[e.node := ServerTakes(servers[e.node], e.input)] else servers
  }

  function ServersRun(servers: Servers, c: Cluster, events: seq<Event>): Servers
    decreases events
  {
    if events == [] then servers
    else ServersRun(ServersStep(servers, c, events[0]), Step(c, events[0]), events[1..])
  }

  /** Every node is the Raft node of the cluster over the engine of the replicated store. */
  ghost predicate Mirror(servers: Servers, w: World, router: Option<Routers.RouterState>, shardId: nat) {
    && servers.Keys == w.cluster.nodes.Keys
    && forall p | p in servers ::
         && servers[p].raft == w.cluster.nodes[p] && servers[p].store == StoreOf(w, p)
         && servers[p].router == router && servers[p].shardId == shardId
  }

  lemma MirrorUpdated(servers: Servers, w: World, w': World, i: NodeId, s': Server,
                      router: Option<Routers.RouterState>, shardId: nat)
    requires Mirror(servers, w, router, shardId) && i in servers && s'.router == router && s'.shardId == shardId
    requires w'.cluster.nodes == w.cluster.nodes[i := s'.raft] && w'.stores == w.stores[i := s'.store]
    ensures Mirror(servers[i := s'], w', router, shardId)
  {
  }

  /** What the network gains is what the node queued. */
  lemma NetworkGains(s: Server, c: Cluster, e: Event)
    requires Enabled(c, e) && !e.input.Restart? && s.raft == c.nodes[e.node]
    ensures var s' := ServerTakes(s, e.input);
            && s.outbound <= s'.outbound
            && Step(c, e).network == c.network + Mailed(e.node, s'.outbound[|s.outbound|..], Answered(e.input))
  {
    var actions := NodeStep(s.raft, e.input).actions;
    ServerTakesExactly(s, e.input);
    assert (s.outbound + MessagesOf(actions))[|s.outbound|..] == MessagesOf(actions);
    QueueIsOutbox(e.node, actions, Answered(e.input));
  }

  /** One event: the nodes stay mirrors, and the network gains what the node queued. */
  lemma StepMirrors(servers: Servers, w: World, e: Event, router: Option<Routers.RouterState>, shardId: nat)
    requires Mirror(servers, w, router, shardId)
    ensures Mirror(ServersStep(servers, w.cluster, e), WorldStep(w, e), router, shardId)
    ensures Enabled(w.cluster, e) && !e.input.Restart? ==>
              var before, after := servers[e.node], ServersStep(servers, w.cluster, e)[e.node];
              && before.outbound <= after.outbound
              && Step(w.cluster, e).network == w.cluster.network
                   + Mailed(e.node, after.outbound[|before.outbound|..], Answered(e.input))
  {
    if Enabled(w.cluster, e) {
      ServerTakesExactly(servers[e.node], e.input);
      MirrorUpdated(servers, w, WorldStep(w, e), e.node, ServerTakes(servers[e.node], e.input), router, shardId);
      if !e.input.Restart? {
        NetworkGains(servers[e.node], w.cluster, e);
      }
    }
  }

  lemma {:induction false} RunMirrors(servers: Servers, w: World, events: seq<Event>,
                                      router: Option<Routers.RouterState>, shardId: nat)
    requires Mirror(servers, w, router, shardId)
    ensures Mirror(ServersRun(servers, w.cluster, events), WorldRun(w, events), router, shardId)
    decreases events
  {
    if events != [] {
      StepMirrors(servers, w, events[0], router, shardId);
      assert WorldStep(w, events[0]).cluster == Step(w.cluster, events[0]);
      RunMirrors(ServersStep(servers, w.cluster, events[0]), WorldStep(w, events[0]), events[1..], router, shardId);
    }
  }

  lemma InitialMirrors(peers: seq<NodeId>, router: Option<Routers.RouterState>, shardId: nat)
    ensures Mirror(InitialServers(peers, router, shardId), InitialWorld(peers), router, shardId)
  {
  }

  /** For every permitted run with clean proposals: two nodes of a shard's group that have
      applied the same number of entries, and whose applied entries write every key they ever
      wrote, give every client the same answer to every GET. */
  lemma ClientsAgree(peers: seq<NodeId>, events: seq<Event>, router: Option<Routers.RouterState>, shardId: nat,
                     p: NodeId, q: NodeId, key: string)
    requires NoDuplicates(peers) && RunPermitted(Initial(peers), events, NOTHING)
    requires forall e | e in events :: CleanProposal(e)
    requires p in peers && q in peers
    ensures var w := WorldRun(InitialWorld(peers), events);
            var servers := ServersRun(InitialServers(peers, router, shardId), Initial(peers), events);
            && p in servers && q in servers && p in w.cluster.nodes && q in w.cluster.nodes
            && servers[p].raft == w.cluster.nodes[p] && servers[q].raft == w.cluster.nodes[q]
            && (Settled(w, p) && Settled(w, q) && servers[p].raft.lastApplied == servers[q].raft.lastApplied ==>
                  Handled(servers[p], Get(key)).response == Handled(servers[q], Get(key)).response)
  {
    var w := WorldRun(InitialWorld(peers), events);
    var servers := ServersRun(InitialServers(peers, router, shardId), Initial(peers), events);
    ReplicatedStoreTheorem(peers, events);
    InitialMirrors(peers, router, shardId);
    RunMirrors(InitialServers(peers, router, shardId), InitialWorld(peers), events, router, shardId);
    RunKeepsNodes(Initial(peers), events);
    MirrorsAnswerAlike(servers, w, router, shardId, p, q, key);
  }

  lemma MirrorsAnswerAlike(servers: Servers, w: World, router: Option<Routers.RouterState>, shardId: nat,
                           p: NodeId, q: NodeId, key: string)
    requires Mirror(servers, w, router, shardId) && p in servers && q in servers && NodesAnswerAlike(w, p, q)
    ensures Settled(w, p) && Settled(w, q) && servers[p].raft.lastApplied == servers[q].raft.lastApplied ==>
              Handled(servers[p], Get(key)).response == Handled(servers[q], Get(key)).response
  {
  }

  /** A peer that can be reconciled comes to answer like its leader: after a permitted run of ticks
      and deliveries between the two, if it had not applied more than the leader has committed by
      then, every GET gives the same answer on both. */
  lemma FollowerAnswersLikeLeader(
      peers: seq<NodeId>, events: seq<Event>, router: Option<Routers.RouterState>, shardId: nat,
      i: NodeId, j: NodeId, next: nat, key: string) returns (more: seq<Event>)
    requires NoDuplicates(peers) && RunPermitted(Initial(peers), events, NOTHING)
    requires forall e | e in events :: CleanProposal(e)
    requires i in peers && j in peers
    requires var c := Exec(Initial(peers), events);
             && i in c.nodes && j in c.nodes && i != j && c.nodes[i].role == Leader
             && c.nodes[j].currentTerm <= c.nodes[i].currentTerm
             && Lookup(c.nodes[i].nextIndex, j) == Some(next) && 1 <= next <= |c.nodes[i].log|
             && Reconciles(Pair(c.nodes[i], c.nodes[j]), next)
    ensures RunPermitted(Initial(peers), events + more, NOTHING)
    ensures ServesLike(Exec(Initial(peers), events), Exec(Initial(peers), events + more), i, j)
    ensures var w := WorldRun(InitialWorld(peers), events + more);
            var servers := ServersRun(InitialServers(peers, router, shardId), Initial(peers), events + more);
            && i in servers && j in servers && i in w.cluster.nodes && j in w.cluster.nodes
            && (Settled(w, i) && Settled(w, j) && servers[i].raft.lastApplied == servers[j].raft.lastApplied ==>
                  Handled(servers[i], Get(key)).response == Handled(servers[j], Get(key)).response)
  {
    var c := Exec(Initial(peers), events);
    var c' := ConvergenceTheorem(peers, events, i, j, next);
    more :| Quietly(c, more, c');
    RunPermittedConcat(Initial(peers), events, more, NOTHING);
    ExecConcat(Initial(peers), events, more);
    ClientsAgree(peers, events + more, router, shardId, i, j, key);
  }

  lemma {:induction false} RunKeepsNodes(c: Cluster, events: seq<Event>)
    ensures Exec(c, events).nodes.Keys == c.nodes.Keys
    decreases |events|
  {
    if events != [] {
      RunKeepsNodes(Step(c, events[0]), events[1..]);
    }
  }
}
