/** MOVED replies: a sharded node that does not own a key names the one shard that does. */
module Redirects {
  import opened RaftTypes
  import opened HashRings
  import opened Routers
  import opened ClusterNodes

  lemma MovedTextInjective(a: nat, b: nat)
    requires MovedText(Some(a)) == MovedText(Some(b))
    ensures a == b
  {
    var prefix := "MOVED - key belongs to shard ";
    assert MovedText(Some(a))[|prefix|..] == Decimal(a);
    assert MovedText(Some(b))[|prefix|..] == Decimal(b);
    DecimalReadsBack(a);
    DecimalReadsBack(b);
  }

  predicate OnKey(command: Command, key: string) {
    (command.Get? || command.Set? || command.Del?) && command.key == key
  }

  /** After any adds and removes, while the ring has a point, exactly one shard serves a key:
      a node of any other shard changes nothing and answers every command on it with the one
      MOVED text that names that shard. */
  lemma MovedNamesOwner(shards: seq<ShardConfig>, virtualNodes: nat, ops: seq<RouterOp>, key: string)
    returns (owner: nat)
    requires RouterRun(NewRouter(shards, virtualNodes), ops).ring != map[]
    ensures forall s: Server | s.router == Some(RouterRun(NewRouter(shards, virtualNodes), ops)) ::
              if s.shardId == owner then Redirect(s, key) == None
              else forall command | OnKey(command, key) ::
                     Handled(s, command)
                     == Reply(s.(pending := None), Error("MOVED - key belongs to shard " + Decimal(owner)))
    ensures forall id | MovedText(Some(id)) == MovedText(Some(owner)) :: id == owner
  {
    var router := RouterRun(NewRouter(shards, virtualNodes), ops);
    owner := UniqueOwnership(shards, virtualNodes, ops, key);
    assert Belongs(router, key, owner);
    forall id | MovedText(Some(id)) == MovedText(Some(owner)) ensures id == owner {
      MovedTextInjective(id, owner);
    }
  }

  /** After any adds and removes that leave no shard configured, every node with that router,
      whatever its own shard, answers every command on every key with a MOVED to shard 0. */
  lemma NoShardsMovesToZero(shards: seq<ShardConfig>, virtualNodes: nat, ops: seq<RouterOp>)
    requires RouterRun(NewRouter(shards, virtualNodes), ops).shards == []
    ensures forall s: Server, command, key
              | s.router == Some(RouterRun(NewRouter(shards, virtualNodes), ops)) && OnKey(command, key) ::
              Handled(s, command) == Reply(s.(pending := None), Error("MOVED - key belongs to shard 0"))
  {
    var router := RouterRun(NewRouter(shards, virtualNodes), ops);
    FilledRingInv(map[], shards, shards, virtualNodes);
    RouterRunInv(NewRouter(shards, virtualNodes), ops);
    assert forall id :: !Configured(router.shards, id);
    assert router.ring == map[];
    assert Decimal(0) == "0";
    assert MovedText(None) == "MOVED - key belongs to shard 0";
  }
}
