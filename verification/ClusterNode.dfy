/** A complete cluster node: a Raft node over a storage engine, with optional sharding. Client
    writes go through Raft, reads go to the engine, and the actions Raft returns are applied
    to the engine or queued for delivery. */
module ClusterNodes {
  import opened RaftTypes
  import opened RaftLogs
  import opened RaftSpec
  import opened RaftNodes
  import opened RaftCluster
  import opened Wals
  import opened Storage
  import opened HashRings
  import opened Routers

  datatype Command = Get(key: string) | Set(key: string, value: string) | Del(key: string)
                   | Ping | Unknown(name: string)

  datatype Response = SimpleString(text: string) | BulkString(text: string) | Null
                    | Error(text: string) | Integer(value: int)

  datatype PeerMessage = PeerMessage(to: NodeId, payload: Message)

  datatype Server = Server(
    raft: NodeState, store: Store, outbound: seq<PeerMessage>,
    router: Option<RouterState>, shardId: nat, pending: Option<nat>)

  datatype Reply = Reply(server: Server, response: Response)

  const NOT_LEADER := Error("NOTLEADER - this node is not the leader")

  // ---- Step functions ----

  /** The node on its state file and its write-ahead log. */
  function Booted(id: NodeId, peers: seq<NodeId>, disk: Option<PersistentState>, file: string,
                  router: Option<RouterState>, shardId: nat): Server {
    Server(Open(id, peers, disk), Opened(file), [], router, shardId, None)
  }

  function Rebooted(s: Server): Server {
    Booted(s.raft.id, s.raft.peers, s.raft.disk, s.store.file, s.router, s.shardId)
  }

  /** What a log command writes to the engine: a Noop writes nothing. */
  function WalOf(command: LogCommand): seq<WalEntry> {
    match command
    case Put(key, value) => [WalEntry(OpPut, key, Some(value))]
    case Delete(key) => [WalEntry(OpDelete, key, None)]
    case Noop => []
  }

  function ProcessedOne(s: Server, a: Action): Server {
    match a
    case ApplyEntry(_, command) => s.(store := WrittenAll(s.store, WalOf(command)))
    case SendRequestVote(to, request) => s.(outbound := s.outbound + [PeerMessage(to, RequestVote(request))])
    case SendRequestVoteResponse(to, response) =>
      s.(outbound := s.outbound + [PeerMessage(to, VoteResponse(response))])
    case SendAppendEntries(to, request) => s.(outbound := s.outbound + [PeerMessage(to, AppendEntries(request))])
    case SendAppendEntriesResponse(to, response) =>
      s.(outbound := s.outbound + [PeerMessage(to, AppendResponse(response))])
  }

  function Processed(s: Server, actions: seq<Action>): Server
    decreases actions
  {
    if actions == [] then s else Processed(ProcessedOne(s, actions[0]), actions[1..])
  }

  function Ticked(s: Server): Server {
    var o := HandleTick(s.raft);
    Processed(s.(raft := o.node), o.actions)
  }

  function MovedText(owner: Option<nat>): string {
    "MOVED - key belongs to shard " + Decimal(if owner.Some? then owner.value else 0)
  }

  /** The redirection a sharded node answers for a key that is not its own. */
  function Redirect(s: Server, key: string): Option<Response> {
    if s.router.None? || Belongs(s.router.value, key, s.shardId) then None
    else Some(Error(MovedText(OwnerOf(s.router.value, key))))
  }

  function Proposed(s: Server, command: LogCommand, accepted: Response): Reply {
    if s.raft.role != Leader then Reply(s, NOT_LEADER)
    else match HandlePropose(s.raft, command)
      case None => Reply(s, Error("failed to propose"))
      case Some(o) =>
        var s1 := Processed(s.(raft := o.node), o.actions);
        Reply(s1.(pending := Some(LastIndex(s1.raft.log))), accepted)
  }

  function Answer(value: Option<string>): Response {
    if value.Some? then BulkString(value.value) else Null
  }

  function Handled(server: Server, command: Command): Reply {
    var s := server.(pending := None);
    match command
    case Get(key) =>
      Reply(s, if Redirect(s, key).Some? then Redirect(s, key).value else Answer(Read(s.store.table, key)))
    case Set(key, value) =>
      if Redirect(s, key).Some? then Reply(s, Redirect(s, key).value)
      else Proposed(s, Put(key, value), SimpleString("OK"))
    case Del(key) =>
      if Redirect(s, key).Some? then Reply(s, Redirect(s, key).value)
      else Proposed(s, Delete(key), Integer(1))
    case Ping => Reply(s, SimpleString("PONG"))
    case Unknown(name) => Reply(s, Error("unknown command '" + name + "'"))
  }

  // ---- The object ----

  class ClusterNode {
    const raft: RaftNode
    const storage: StorageEngine
    var outboundMessages: seq<PeerMessage>
    const router: Option<Router>
    const shardId: nat
    var pendingCommitIndex: Option<nat>

    ghost function Routing(): set<object>
    {
      if router.Some? then {router.value, router.value.ring} else {}
    }

    ghost predicate Valid()
      reads this, raft, raft.state, raft.state.log, Routing()
    {
      raft.Valid() && (router.Some? ==> router.value.Valid())
    }

    ghost function View(): Server
      requires Valid()
      reads this, raft, raft.state, raft.state.log, raft.persister, storage, storage.wal, storage.memtable, Routing()
    {
      Server(raft.View(), storage.View(), outboundMessages,
             if router.Some? then Some(router.value.View()) else None, shardId, pendingCommitIndex)
    }

    constructor (id: NodeId, peers: seq<NodeId>, disk: StatePersister, file: string)
      ensures Valid() && raft.persister == disk && View() == Booted(id, peers, disk.saved, file, None, 1)
    {
      storage := new StorageEngine(file);
      raft := new RaftNode.WithPersistence(id, peers, disk);
      outboundMessages := [];
      router := None;
      shardId := 1;
      pendingCommitIndex := None;
    }

    constructor WithSharding(id: NodeId, peers: seq<NodeId>, disk: StatePersister, file: string,
                             shardId: nat, configs: seq<ShardConfig>)
      ensures Valid() && raft.persister == disk
      ensures View() == Booted(id, peers, disk.saved, file, Some(NewRouter(configs, 64)), shardId)
    {
      storage := new StorageEngine(file);
      raft := new RaftNode.WithPersistence(id, peers, disk);
      outboundMessages := [];
      var r := new Router(configs, 64);
      router := Some(r);
      this.shardId := shardId;
      pendingCommitIndex := None;
    }

    method HandleClientCommand(command: Command) returns (response: Response)
      requires Valid()
      modifies this, raft, raft.state, raft.state.log, raft.persister, storage.wal, storage.memtable
      ensures Valid() && Reply(View(), response) == Handled(old(View()), command)
      ensures raft.state.log == old(raft.state.log)
    {
      pendingCommitIndex := None;
      if command.Get? {
        var moved := CheckShard(command.key);
        if moved.Some? {
          return moved.value;
        }
        var value := storage.Get(command.key);
        response := if value.Some? then BulkString(value.value) else Null;
      } else if command.Set? {
        var moved := CheckShard(command.key);
        if moved.Some? {
          return moved.value;
        }
        response := ProposeWrite(Put(command.key, command.value), SimpleString("OK"));
      } else if command.Del? {
        var moved := CheckShard(command.key);
        if moved.Some? {
          return moved.value;
        }
        response := ProposeWrite(Delete(command.key), Integer(1));
      } else if command.Ping? {
        response := SimpleString("PONG");
      } else {
        response := Error("unknown command '" + command.name + "'");
      }
    }

    method CheckShard(key: string) returns (moved: Option<Response>)
      requires Valid()
      ensures moved == Redirect(View(), key)
    {
      moved := None;
      if router.Some? {
        var belongs := router.value.KeyBelongsToShard(key, shardId);
        if !belongs {
          var target := router.value.GetShardId(key);
          moved := Some(Error("MOVED - key belongs to shard " + Decimal(if target.Some? then target.value else 0)));
        }
      }
    }

    method ProposeWrite(command: LogCommand, accepted: Response) returns (response: Response)
      requires Valid()
      modifies this, raft, raft.state, raft.state.log, raft.persister, storage.wal, storage.memtable
      ensures Valid() && Reply(View(), response) == Proposed(old(View()), command, accepted)
      ensures raft.state.log == old(raft.state.log)
    {
      if raft.state.role != Leader {
        return NOT_LEADER;
      }
      var proposed := ProposeAndProcess(command);
      if !proposed {
        return Error("failed to propose");
      }
      pendingCommitIndex := Some(LastIndex(raft.state.log.entries));
      response := accepted;
    }

    /** Proposes the command and processes what Raft returns, if it takes it. */
    method ProposeAndProcess(command: LogCommand) returns (proposed: bool)
      requires Valid()
      modifies this, raft, raft.state, raft.state.log, raft.persister, storage.wal, storage.memtable
      ensures Valid() && raft.state.log == old(raft.state.log)
      ensures proposed <==> HandlePropose(old(View()).raft, command).Some?
      ensures !proposed ==> View() == old(View())
      ensures proposed ==>
                var o := HandlePropose(old(View()).raft, command).value;
                View() == Processed(old(View()).(raft := o.node), o.actions)
    {
      var actions := raft.Propose(command);
      proposed := actions.Some?;
      if proposed {
        ProcessActions(actions.value);
      }
    }

    method Tick()
      requires Valid()
      modifies this, raft, raft.state, raft.state.log, raft.persister, storage.wal, storage.memtable
      ensures Valid() && View() == Ticked(old(View()))
      ensures raft.state.log == old(raft.state.log)
    {
      var actions := raft.Tick();
      ProcessActions(actions);
    }

    method ProcessActions(actions: seq<Action>)
      requires Valid()
      modifies `outboundMessages, storage.wal, storage.memtable
      ensures Valid() && View() == Processed(old(View()), actions)
    {
      for k := 0 to |actions|
        invariant Valid() && Processed(View(), actions[k..]) == Processed(old(View()), actions)
      {
        assert actions[k..][1..] == actions[k + 1..];
        ProcessAction(actions[k]);
      }
    }

    method ProcessAction(action: Action)
      requires Valid()
      modifies `outboundMessages, storage.wal, storage.memtable
      ensures Valid() && View() == ProcessedOne(old(View()), action)
    {
      match action {
        case ApplyEntry(_, command) => Apply(command);
        case SendRequestVote(to, request) => Queue(to, RequestVote(request));
        case SendRequestVoteResponse(to, response) => Queue(to, VoteResponse(response));
        case SendAppendEntries(to, request) => Queue(to, AppendEntries(request));
        case SendAppendEntriesResponse(to, response) => Queue(to, AppendResponse(response));
      }
    }

    method Queue(to: NodeId, payload: Message)
      modifies `outboundMessages
      ensures outboundMessages == old(outboundMessages) + [PeerMessage(to, payload)]
    {
      outboundMessages := outboundMessages + [PeerMessage(to, payload)];
    }

    method Apply(command: LogCommand)
      modifies storage.wal, storage.memtable
      ensures storage.View() == WrittenAll(old(storage.View()), WalOf(command))
    {
      match command {
        case Put(key, value) => storage.Put(key, value);
        case Delete(key) => storage.Delete(key);
        case Noop =>
      }
      assert forall e: WalEntry :: [e][1..] == [];
    }

    method TakeOutboundMessages() returns (messages: seq<PeerMessage>)
      requires Valid()
      modifies `outboundMessages
      ensures Valid() && messages == old(outboundMessages) && View() == old(View()).(outbound := [])
    {
      messages := outboundMessages;
      outboundMessages := [];
    }
  }
}
