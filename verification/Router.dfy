/** The request router: the ring together with the configuration of each shard. */
module Routers {
  import opened RaftTypes
  import opened Hashing
  import opened HashRings

  datatype ShardConfig = ShardConfig(shardId: nat, nodeIds: seq<nat>, leaderPort: Option<nat>)

  datatype RouterState = RouterState(ring: Ring, virtualNodes: nat, shards: seq<ShardConfig>)

  datatype RouterOp = AddConfig(config: ShardConfig) | RemoveConfig(shardId: nat)

  function RingWith(ring: Ring, shard: nat, virtualNodes: nat): Ring {
    Labelled(ring, Points(shard, virtualNodes), shard)
  }

  function FilledRing(ring: Ring, shards: seq<ShardConfig>, virtualNodes: nat): Ring
    decreases shards
  {
    if shards == [] then ring
    else FilledRing(RingWith(ring, shards[0].shardId, virtualNodes), shards[1..], virtualNodes)
  }

  function NewRouter(shards: seq<ShardConfig>, virtualNodes: nat): RouterState {
    RouterState(FilledRing(map[], shards, virtualNodes), virtualNodes, shards)
  }

  function Kept(shards: seq<ShardConfig>, shardId: nat): seq<ShardConfig> {
    if shards == [] then []
    else (if shards[0].shardId != shardId then [shards[0]] else []) + Kept(shards[1..], shardId)
  }

  function RouterAfter(router: RouterState, op: RouterOp): RouterState {
    match op
    case AddConfig(config) =>
      router.(ring := RingWith(router.ring, config.shardId, router.virtualNodes), shards := router.shards + [config])
    case RemoveConfig(id) =>
      router.(ring := Without(router.ring, id), shards := Kept(router.shards, id))
  }

  function RouterRun(router: RouterState, ops: seq<RouterOp>): RouterState
    decreases ops
  {
    if ops == [] then router else RouterRun(RouterAfter(router, ops[0]), ops[1..])
  }

  function OwnerOf(router: RouterState, key: string): Option<nat> {
    Owner(router.ring, Hash(key))
  }

  predicate Belongs(router: RouterState, key: string, shardId: nat) {
    OwnerOf(router, key) == Some(shardId)
  }

  /** The first configuration with this id. */
  function FindShard(shards: seq<ShardConfig>, shardId: nat): Option<ShardConfig> {
    if shards == [] then None
    else if shards[0].shardId == shardId then Some(shards[0])
    else FindShard(shards[1..], shardId)
  }

  function Routed(router: RouterState, key: string): Option<ShardConfig> {
    match OwnerOf(router, key)
    case None => None
    case Some(id) => FindShard(router.shards, id)
  }

  // ---- What every add and remove keeps ----

  predicate Configured(shards: seq<ShardConfig>, shardId: nat) {
    exists k | 0 <= k < |shards| :: shards[k].shardId == shardId
  }

  /** Every point lies on the circle and is labelled with a configured shard. */
  predicate RouterInv(router: RouterState) {
    OnCircle(router.ring) && forall p | p in router.ring :: Configured(router.shards, router.ring[p])
  }

  lemma PointsOnCircle(shard: nat, n: nat, p: nat)
    requires p in Points(shard, n)
    ensures p < WORD
  {
    var i :| 0 <= i < n && p == VnodePosition(shard, i);
    HashWithin(StringBytes(VnodeName(shard, i)));
  }

  lemma RingWithInv(ring: Ring, shards: seq<ShardConfig>, shard: nat, virtualNodes: nat)
    requires RouterInv(RouterState(ring, virtualNodes, shards)) && Configured(shards, shard)
    ensures RouterInv(RouterState(RingWith(ring, shard, virtualNodes), virtualNodes, shards))
  {
    forall p | p in Points(shard, virtualNodes)
      ensures p < WORD
    {
      PointsOnCircle(shard, virtualNodes, p);
    }
  }

  lemma {:induction false} FilledRingInv(ring: Ring, all: seq<ShardConfig>, shards: seq<ShardConfig>, virtualNodes: nat)
    requires RouterInv(RouterState(ring, virtualNodes, all))
    requires forall s | s in shards :: s in all
    ensures RouterInv(RouterState(FilledRing(ring, shards, virtualNodes), virtualNodes, all))
    decreases shards
  {
    if shards != [] {
      assert shards[0] in all;
      RingWithInv(ring, all, shards[0].shardId, virtualNodes);
      FilledRingInv(RingWith(ring, shards[0].shardId, virtualNodes), all, shards[1..], virtualNodes);
    }
  }

  lemma {:induction false} KeptConfigured(shards: seq<ShardConfig>, removed: nat, shardId: nat)
    ensures Configured(Kept(shards, removed), shardId) <==> shardId != removed && Configured(shards, shardId)
  {
    if shards != [] {
      KeptConfigured(shards[1..], removed, shardId);
      ConfiguredCons(shards, shardId);
      var kept := Kept(shards, removed);
      if shards[0].shardId != removed {
        assert kept[1..] == Kept(shards[1..], removed);
        ConfiguredCons(kept, shardId);
      } else {
        assert kept == Kept(shards[1..], removed);
      }
    }
  }

  lemma ConfiguredCons(shards: seq<ShardConfig>, shardId: nat)
    requires shards != []
    ensures Configured(shards, shardId) <==> shards[0].shardId == shardId || Configured(shards[1..], shardId)
  {
    if Configured(shards, shardId) && shards[0].shardId != shardId {
      var k :| 0 <= k < |shards| && shards[k].shardId == shardId;
      assert shards[1..][k - 1].shardId == shardId;
    }
    if Configured(shards[1..], shardId) {
      var k :| 0 <= k < |shards[1..]| && shards[1..][k].shardId == shardId;
      assert shards[k + 1].shardId == shardId;
    }
  }

  lemma RouterStepInv(router: RouterState, op: RouterOp)
    requires RouterInv(router)
    ensures RouterInv(RouterAfter(router, op))
  {
    match op
    case AddConfig(config) =>
      var shards := router.shards + [config];
      assert shards[|router.shards|].shardId == config.shardId;
      forall id | Configured(router.shards, id)
        ensures Configured(shards, id)
      {
        var k :| 0 <= k < |router.shards| && router.shards[k].shardId == id;
        assert shards[k].shardId == id;
      }
      RingWithInv(router.ring, shards, config.shardId, router.virtualNodes);
    case RemoveConfig(id) =>
      forall p | p in Without(router.ring, id)
        ensures Configured(Kept(router.shards, id), router.ring[p])
      {
        KeptConfigured(router.shards, id, router.ring[p]);
      }
  }

  lemma {:induction false} RouterRunInv(router: RouterState, ops: seq<RouterOp>)
    requires RouterInv(router)
    ensures RouterInv(RouterRun(router, ops))
    decreases ops
  {
    if ops != [] {
      RouterStepInv(router, ops[0]);
      RouterRunInv(RouterAfter(router, ops[0]), ops[1..]);
    }
  }

  /** A position at which a point lies is answered for by that very point. */
  lemma PointAnswersForItself(ring: Ring, p: nat)
    requires p in ring && OnCircle(ring)
    ensures Owner(ring, p) == Some(ring[p])
  {
    forall q | q in ring && q != p ensures Clockwise(p, p) < Clockwise(p, q) {
      ClockwiseIs(p, p);
      ClockwiseIs(p, q);
    }
    assert Nearest(ring, p, p);
    ClockwiseLookup(ring, p, p);
  }

  /** A shard just added answers for each of its virtual nodes, first to last. */
  lemma AddedShardIsOnRing(router: RouterState, config: ShardConfig, i: nat)
    requires RouterInv(router) && i < router.virtualNodes
    ensures Owner(RouterAfter(router, AddConfig(config)).ring, Hash(VnodeName(config.shardId, i)))
         == Some(config.shardId)
  {
    var after := RouterAfter(router, AddConfig(config));
    RouterStepInv(router, AddConfig(config));
    assert VnodePosition(config.shardId, i) in Points(config.shardId, router.virtualNodes);
    PointAnswersForItself(after.ring, VnodePosition(config.shardId, i));
  }

  /** Routing finds the first configuration with the id, or none if there is none. */
  lemma {:induction false} FindsFirst(shards: seq<ShardConfig>, shardId: nat, k: nat)
    requires forall m | 0 <= m < k && m < |shards| :: shards[m].shardId != shardId
    ensures k < |shards| && shards[k].shardId == shardId ==> FindShard(shards, shardId) == Some(shards[k])
    ensures k >= |shards| ==> FindShard(shards, shardId) == None
  {
    if shards != [] && k > 0 {
      FindsFirst(shards[1..], shardId, k - 1);
    }
  }

  lemma {:induction false} FindConfigured(shards: seq<ShardConfig>, shardId: nat)
    requires Configured(shards, shardId)
    ensures FindShard(shards, shardId).Some?
    ensures FindShard(shards, shardId).value in shards && FindShard(shards, shardId).value.shardId == shardId
  {
    ConfiguredCons(shards, shardId);
    if shards[0].shardId != shardId {
      FindConfigured(shards[1..], shardId);
    }
  }

  /** After any adds and removes, while the ring has a point, each key belongs to exactly one
      shard id, and routing returns a configuration held for that id. */
  lemma UniqueOwnership(shards: seq<ShardConfig>, virtualNodes: nat, ops: seq<RouterOp>, key: string)
    returns (owner: nat)
    requires RouterRun(NewRouter(shards, virtualNodes), ops).ring != map[]
    ensures var router := RouterRun(NewRouter(shards, virtualNodes), ops);
            (forall id :: Belongs(router, key, id) <==> id == owner)
            && Routed(router, key).Some?
            && Routed(router, key).value in router.shards && Routed(router, key).value.shardId == owner
  {
    FilledRingInv(map[], shards, shards, virtualNodes);
    RouterRunInv(NewRouter(shards, virtualNodes), ops);
    var router := RouterRun(NewRouter(shards, virtualNodes), ops);
    owner := OwnerOf(router, key).value;
    FindConfigured(router.shards, owner);
  }

  // ---- What a router holds, told from its history ----

  function Empty(virtualNodes: nat): RouterState {
    RouterState(map[], virtualNodes, [])
  }

  function Adds(shards: seq<ShardConfig>): seq<RouterOp> {
    if shards == [] then [] else [AddConfig(shards[0])] + Adds(shards[1..])
  }

  /** A new router is an empty one to which its shards were added in order. */
  lemma {:induction false} FillingIsAdding(router: RouterState, shards: seq<ShardConfig>)
    ensures RouterRun(router, Adds(shards))
         == router.(ring := FilledRing(router.ring, shards, router.virtualNodes), shards := router.shards + shards)
    decreases shards
  {
    if shards == [] {
      assert router.shards + [] == router.shards;
    } else {
      assert Adds(shards)[1..] == Adds(shards[1..]);
      FillingIsAdding(RouterAfter(router, AddConfig(shards[0])), shards[1..]);
      OneThenRest(router.shards, shards);
    }
  }

  lemma OneThenRest(a: seq<ShardConfig>, b: seq<ShardConfig>)
    requires b != []
    ensures a + [b[0]] + b[1..] == a + b
  {
  }

  lemma {:induction false} RouterRunConcat(router: RouterState, a: seq<RouterOp>, b: seq<RouterOp>)
    ensures RouterRun(router, a + b) == RouterRun(RouterRun(router, a), b)
    decreases a
  {
    if a == [] {
      assert a + b == b;
    } else {
      assert (a + b)[1..] == a[1..] + b;
      RouterRunConcat(RouterAfter(router, a[0]), a[1..], b);
    }
  }

  lemma RouterRunLast(router: RouterState, ops: seq<RouterOp>)
    requires ops != []
    ensures RouterRun(router, ops) == RouterAfter(RouterRun(router, ops[..|ops| - 1]), ops[|ops| - 1])
  {
    var last := ops[|ops| - 1];
    assert ops == ops[..|ops| - 1] + [last] && [last][1..] == [];
    RouterRunConcat(router, ops[..|ops| - 1], [last]);
    assert RouterRun(RouterRun(router, ops[..|ops| - 1]), [last])
        == RouterRun(RouterAfter(RouterRun(router, ops[..|ops| - 1]), last), []);
  }

  lemma {:induction false} RunKeepsVirtualNodes(router: RouterState, ops: seq<RouterOp>)
    ensures RouterRun(router, ops).virtualNodes == router.virtualNodes
    decreases ops
  {
    if ops != [] {
      RunKeepsVirtualNodes(RouterAfter(router, ops[0]), ops[1..]);
    }
  }

  predicate AddsAt(op: RouterOp, virtualNodes: nat, p: nat) {
    op.AddConfig? && p in Points(op.config.shardId, virtualNodes)
  }

  /** Operation k added shard id over position p, and nothing since took p or removed the shard. */
  predicate LabelledBy(ops: seq<RouterOp>, virtualNodes: nat, p: nat, id: nat, k: nat) {
    && k < |ops| && AddsAt(ops[k], virtualNodes, p) && ops[k].config.shardId == id
    && forall m | k < m < |ops| :: !AddsAt(ops[m], virtualNodes, p) && ops[m] != RemoveConfig(id)
  }

  /** A position bears exactly the label of the last shard added over it, unless that shard was
      removed since. */
  lemma {:induction false} RingHistory(virtualNodes: nat, ops: seq<RouterOp>, p: nat, id: nat)
    ensures var ring := RouterRun(Empty(virtualNodes), ops).ring;
            p in ring && ring[p] == id <==> exists k: nat :: LabelledBy(ops, virtualNodes, p, id, k)
    decreases |ops|
  {
    if ops != [] {
      var init, last := ops[..|ops| - 1], ops[|ops| - 1];
      RingHistory(virtualNodes, init, p, id);
      RouterRunLast(Empty(virtualNodes), ops);
      RunKeepsVirtualNodes(Empty(virtualNodes), init);
      LabelHistory(virtualNodes, ops, p, id);
    }
  }

  lemma LabelHistory(virtualNodes: nat, ops: seq<RouterOp>, p: nat, id: nat)
    requires ops != []
    ensures var init, last := ops[..|ops| - 1], ops[|ops| - 1];
            (exists k: nat :: LabelledBy(ops, virtualNodes, p, id, k))
            <==> if AddsAt(last, virtualNodes, p) then last.config.shardId == id
                 else last != RemoveConfig(id) && exists k: nat :: LabelledBy(init, virtualNodes, p, id, k)
  {
    var init, last := ops[..|ops| - 1], ops[|ops| - 1];
    if AddsAt(last, virtualNodes, p) && last.config.shardId == id {
      assert LabelledBy(ops, virtualNodes, p, id, |ops| - 1);
    }
    if exists k: nat :: LabelledBy(ops, virtualNodes, p, id, k) {
      var k: nat :| LabelledBy(ops, virtualNodes, p, id, k);
      if k < |ops| - 1 {
        assert LabelledBy(init, virtualNodes, p, id, k);
      }
    }
    if !AddsAt(last, virtualNodes, p) && last != RemoveConfig(id)
       && exists k: nat :: LabelledBy(init, virtualNodes, p, id, k) {
      var k: nat :| LabelledBy(init, virtualNodes, p, id, k);
      assert LabelledBy(ops, virtualNodes, p, id, k);
    }
  }

  /** Operation k added this very configuration, and its shard was not removed since. */
  predicate KeptSince(ops: seq<RouterOp>, config: ShardConfig, k: nat) {
    k < |ops| && ops[k] == AddConfig(config) && forall m | k < m < |ops| :: ops[m] != RemoveConfig(config.shardId)
  }

  lemma {:induction false} KeptExactly(shards: seq<ShardConfig>, removed: nat, config: ShardConfig)
    ensures config in Kept(shards, removed) <==> config in shards && config.shardId != removed
  {
    if shards != [] {
      KeptExactly(shards[1..], removed, config);
    }
  }

  /** A router holds exactly the configurations added, node ids and leader port included, whose
      shard was not removed since. */
  lemma {:induction false} ConfigHistory(virtualNodes: nat, ops: seq<RouterOp>, config: ShardConfig)
    ensures config in RouterRun(Empty(virtualNodes), ops).shards <==> exists k: nat :: KeptSince(ops, config, k)
    decreases |ops|
  {
    if ops != [] {
      var init, last := ops[..|ops| - 1], ops[|ops| - 1];
      ConfigHistory(virtualNodes, init, config);
      RouterRunLast(Empty(virtualNodes), ops);
      if last.RemoveConfig? {
        KeptExactly(RouterRun(Empty(virtualNodes), init).shards, last.shardId, config);
      }
      KeptHistory(ops, config);
    }
  }

  lemma KeptHistory(ops: seq<RouterOp>, config: ShardConfig)
    requires ops != []
    ensures var init, last := ops[..|ops| - 1], ops[|ops| - 1];
            (exists k: nat :: KeptSince(ops, config, k))
            <==> last == AddConfig(config)
                 || (last != RemoveConfig(config.shardId) && exists k: nat :: KeptSince(init, config, k))
  {
    var init, last := ops[..|ops| - 1], ops[|ops| - 1];
    if last == AddConfig(config) {
      assert KeptSince(ops, config, |ops| - 1);
    }
    if exists k: nat :: KeptSince(ops, config, k) {
      var k: nat :| KeptSince(ops, config, k);
      if k < |ops| - 1 {
        assert KeptSince(init, config, k);
      }
    }
    if last != RemoveConfig(config.shardId) && exists k: nat :: KeptSince(init, config, k) {
      var k: nat :| KeptSince(init, config, k);
      assert KeptSince(ops, config, k);
    }
  }

  /** The same of a router made from a list of shards: its history begins with adding them. */
  lemma RouterHistory(shards: seq<ShardConfig>, virtualNodes: nat, ops: seq<RouterOp>)
    ensures RouterRun(NewRouter(shards, virtualNodes), ops) == RouterRun(Empty(virtualNodes), Adds(shards) + ops)
  {
    FillingIsAdding(Empty(virtualNodes), shards);
    assert [] + shards == shards;
    RouterRunConcat(Empty(virtualNodes), Adds(shards), ops);
  }

  /** Adding a shard to a router leaves each key where it was or moves it to the new shard. */
  lemma AddMovesKey(router: RouterState, config: ShardConfig, key: string)
    requires RouterInv(router) && router.ring != map[]
    ensures OwnerOf(RouterAfter(router, AddConfig(config)), key) == OwnerOf(router, key)
         || OwnerOf(RouterAfter(router, AddConfig(config)), key) == Some(config.shardId)
  {
    var points := Points(config.shardId, router.virtualNodes);
    forall p | p in points
      ensures p < WORD
    {
      PointsOnCircle(config.shardId, router.virtualNodes, p);
    }
    HashWithin(StringBytes(key));
    AddMovesMinimally(router.ring, points, config.shardId, Hash(key));
  }

  /** Removing a shard from a router moves only the keys it owned. */
  lemma RemoveMovesKey(router: RouterState, shardId: nat, key: string)
    requires RouterInv(router) && !Belongs(router, key, shardId)
    ensures OwnerOf(RouterAfter(router, RemoveConfig(shardId)), key) == OwnerOf(router, key)
  {
    HashWithin(StringBytes(key));
    RemoveMovesOnlyItsOwn(router.ring, shardId, Hash(key));
  }

  class Router {
    const ring: HashRing
    var shards: seq<ShardConfig>

    ghost predicate Valid()
      reads this, ring
    {
      ring.Valid()
    }

    ghost function View(): RouterState
      reads this, ring
    {
      RouterState(ring.ring, ring.numVirtualNodes, shards)
    }

    constructor (shards: seq<ShardConfig>, virtualNodes: nat)
      ensures Valid() && fresh(ring) && View() == NewRouter(shards, virtualNodes)
    {
      ring := new HashRing(virtualNodes);
      this.shards := shards;
      new;
      for k := 0 to |shards|
        invariant fresh(ring) && ring.Valid() && this.shards == shards && ring.numVirtualNodes == virtualNodes
        invariant FilledRing(ring.ring, shards[k..], virtualNodes) == FilledRing(map[], shards, virtualNodes)
      {
        assert shards[k..][1..] == shards[k + 1..];
        ring.AddShard(shards[k].shardId);
      }
    }

    method Route(key: string) returns (config: Option<ShardConfig>)
      requires Valid()
      ensures config == Routed(View(), key)
    {
      var id := ring.GetShard(key);
      if id.None? {
        return None;
      }
      config := FindShard(shards, id.value);
    }

    method GetShardId(key: string) returns (id: Option<nat>)
      requires Valid()
      ensures id == OwnerOf(View(), key)
    {
      id := ring.GetShard(key);
    }

    method KeyBelongsToShard(key: string, shardId: nat) returns (belongs: bool)
      requires Valid()
      ensures belongs == Belongs(View(), key, shardId)
    {
      var id := ring.GetShard(key);
      belongs := id.Some? && id.value == shardId;
    }

    method AddShard(config: ShardConfig)
      requires Valid()
      modifies this, ring
      ensures Valid() && View() == RouterAfter(old(View()), AddConfig(config))
    {
      ring.AddShard(config.shardId);
      shards := shards + [config];
    }

    method RemoveShard(shardId: nat)
      requires Valid()
      modifies this, ring
      ensures Valid() && View() == RouterAfter(old(View()), RemoveConfig(shardId))
    {
      ring.RemoveShard(shardId);
      shards := Kept(shards, shardId);
    }
  }
}
