/** The consistent-hash ring: points on a circle of 2^64 positions, each labelled with a shard. */
module HashRings {
  import opened RaftTypes
  import opened Hashing

  /** From a position to the shard whose point is there. */
  type Ring = map<nat, nat>

  predicate OnCircle(ring: Ring) {
    forall p | p in ring :: p < WORD
  }

  lemma {:induction false} LeastExists(s: set<nat>) returns (m: nat)
    requires s != {}
    ensures m in s && forall x | x in s :: m <= x
  {
    m :| m in s;
    if s == {m} {
      assert forall x | x in s :: x == m;
    } else {
      var rest := LeastExists(s - {m});
      assert forall x | x in s :: x == m || x in s - {m};
      if rest < m {
        m := rest;
      }
    }
  }

  function Least(s: set<nat>): (m: nat)
    requires s != {}
    ensures m in s && forall x | x in s :: m <= x
  {
    LeastWitness(s);
    var m :| m in s && forall x | x in s :: m <= x;
    m
  }

  lemma LeastWitness(s: set<nat>)
    requires s != {}
    ensures exists m :: m in s && forall x | x in s :: m <= x
  {
    var m := LeastExists(s);
  }

  /** The points at or after `hash`. */
  function Ahead(ring: Ring, hash: nat): set<nat> {
    set p | p in ring && p >= hash
  }

  /** The point that answers for `hash`: the first one at or after it, or else the first of all. */
  function Successor(ring: Ring, hash: nat): (p: nat)
    requires ring != map[]
    ensures p in ring
  {
    if Ahead(ring, hash) != {} then Least(Ahead(ring, hash)) else Least(ring.Keys)
  }

  function Owner(ring: Ring, hash: nat): Option<nat> {
    if ring == map[] then None else Some(ring[Successor(ring, hash)])
  }

  // ---- The ring as a circle ----

  /** How far one walks clockwise from `from` to `to`. */
  function Clockwise(from: nat, to: nat): nat {
    (to - from) % WORD
  }

  /** The point with the shortest clockwise walk from `hash`. */
  ghost predicate Nearest(ring: Ring, hash: nat, p: nat) {
    p in ring && forall q | q in ring && q != p :: Clockwise(hash, p) < Clockwise(hash, q)
  }

  lemma ClockwiseIs(from: nat, to: nat)
    requires from < WORD && to < WORD
    ensures Clockwise(from, to) == if to >= from then to - from else to - from + WORD
  {
  }

  /** The lookup with wraparound finds the one point nearest clockwise. */
  lemma SuccessorIsNearest(ring: Ring, hash: nat)
    requires ring != map[] && OnCircle(ring) && hash < WORD
    ensures Nearest(ring, hash, Successor(ring, hash))
  {
    var p := Successor(ring, hash);
    forall q | q in ring && q != p
      ensures Clockwise(hash, p) < Clockwise(hash, q)
    {
      ClockwiseIs(hash, p);
      ClockwiseIs(hash, q);
      if q >= hash {
        assert q in Ahead(ring, hash);
      }
    }
  }

  /** The owner is the label of the nearest point, and there is exactly one nearest point. */
  lemma ClockwiseLookup(ring: Ring, hash: nat, p: nat)
    requires ring != map[] && OnCircle(ring) && hash < WORD
    ensures Nearest(ring, hash, p) <==> p == Successor(ring, hash)
    ensures Nearest(ring, hash, p) ==> Owner(ring, hash) == Some(ring[p])
  {
    SuccessorIsNearest(ring, hash);
    var s := Successor(ring, hash);
  }

  // ---- Adding and removing shards ----

  function Decimal(n: nat): string {
    (if n < 10 then "" else Decimal(n / 10)) + [(n % 10 + '0' as nat) as char]
  }

  /** The number a string of digits stands for. */
  function Value(digits: string): int {
    if digits == "" then 0
    else 10 * Value(digits[..|digits| - 1]) + (digits[|digits| - 1] as int - '0' as int)
  }

  lemma {:induction false} DecimalReadsBack(n: nat)
    ensures Value(Decimal(n)) == n
  {
    var digits := Decimal(n);
    var front := if n < 10 then "" else Decimal(n / 10);
    assert digits == front + [(n % 10 + '0' as nat) as char];
    assert digits[..|digits| - 1] == front;
    if n >= 10 {
      DecimalReadsBack(n / 10);
    } else {
      assert Value(front) == 0;
    }
  }

  lemma {:induction false} DecimalDigits(n: nat)
    ensures |Decimal(n)| >= 1 && AllDigits(Decimal(n))
  {
    if n >= 10 {
      DecimalDigits(n / 10);
    }
  }

  function VnodeName(shard: nat, i: nat): string {
    "shard-" + Decimal(shard) + "-vnode-" + Decimal(i)
  }

  function VnodePosition(shard: nat, i: nat): nat {
    Hash(VnodeName(shard, i))
  }

  predicate AllDigits(text: string) {
    forall k | 0 <= k < |text| :: '0' <= text[k] <= '9'
  }

  function FirstDash(text: string): nat {
    if text == "" || text[0] == '-' then 0 else 1 + FirstDash(text[1..])
  }

  lemma {:induction false} FirstDashIs(digits: string, rest: string)
    requires AllDigits(digits)
    ensures FirstDash(digits + ("-" + rest)) == |digits|
  {
    var text := digits + ("-" + rest);
    if digits == "" {
      assert text[0] == '-';
    } else {
      assert text[0] == digits[0] && text[1..] == digits[1..] + ("-" + rest);
      FirstDashIs(digits[1..], rest);
    }
  }

  /** Digits followed by a dash and anything: the text tells both. */
  lemma DigitsThenDash(a: string, x: string, b: string, y: string)
    requires AllDigits(a) && AllDigits(b) && a + ("-" + x) == b + ("-" + y)
    ensures a == b && x == y
  {
    var text := a + ("-" + x);
    FirstDashIs(a, x);
    FirstDashIs(b, y);
    assert a == text[..|a|] && b == text[..|b|];
    assert x == text[|a| + 1..] && y == text[|b| + 1..];
  }

  lemma SameAfterPrefix(prefix: string, a: string, b: string)
    requires prefix + a == prefix + b
    ensures a == b
  {
    assert a == (prefix + a)[|prefix|..] && b == (prefix + b)[|prefix|..];
  }

  lemma NameParts(shard: nat, i: nat)
    ensures VnodeName(shard, i) == "shard-" + (Decimal(shard) + ("-" + ("vnode-" + Decimal(i))))
  {
  }

  /** Every virtual node of every shard has a name of its own. */
  lemma VnodeNamesDiffer(s: nat, i: nat, t: nat, j: nat)
    requires VnodeName(s, i) == VnodeName(t, j)
    ensures s == t && i == j
  {
    var x, y := "vnode-" + Decimal(i), "vnode-" + Decimal(j);
    NameParts(s, i);
    NameParts(t, j);
    SameAfterPrefix("shard-", Decimal(s) + ("-" + x), Decimal(t) + ("-" + y));
    DecimalDigits(s);
    DecimalDigits(t);
    DigitsThenDash(Decimal(s), x, Decimal(t), y);
    SameAfterPrefix("vnode-", Decimal(i), Decimal(j));
    DecimalReadsBack(s);
    DecimalReadsBack(t);
    DecimalReadsBack(i);
    DecimalReadsBack(j);
  }

  lemma DigitBytes(x: char)
    requires '0' <= x <= '9'
    ensures CharBytes(x) == [x as nat]
  {
  }

  /** Names that differ in a single digit have different positions. */
  lemma DigitSeparates(front: string, x: char, y: char, back: string)
    requires '0' <= x <= '9' && '0' <= y <= '9' && x != y
    ensures Hash(front + [x] + back) != Hash(front + [y] + back)
  {
    DigitBytes(x);
    DigitBytes(y);
    HashSeparatesKeys(front, x, y, back, 0);
  }

  lemma SingleDigit(n: nat)
    requires n < 10
    ensures Decimal(n) == [(n + '0' as nat) as char]
  {
  }

  /** The i-th points of two shards with single-digit ids never coincide, ... */
  lemma ShardsHaveOwnPoints(s: nat, t: nat, i: nat)
    requires s < 10 && t < 10 && s != t
    ensures VnodePosition(s, i) != VnodePosition(t, i)
  {
    SingleDigit(s);
    SingleDigit(t);
    var back := "-vnode-" + Decimal(i);
    assert VnodeName(s, i) == "shard-" + Decimal(s) + back && VnodeName(t, i) == "shard-" + Decimal(t) + back;
    DigitSeparates("shard-", Decimal(s)[0], Decimal(t)[0], back);
  }

  /** ... nor do the points of one shard whose numbers differ only in the last digit. */
  lemma VnodesHaveOwnPoints(s: nat, i: nat, j: nat)
    requires i / 10 == j / 10 && i != j
    ensures VnodePosition(s, i) != VnodePosition(s, j)
  {
    var front := "shard-" + Decimal(s) + "-vnode-" + (if i < 10 then "" else Decimal(i / 10));
    var x, y := (i % 10 + '0' as nat) as char, (j % 10 + '0' as nat) as char;
    assert VnodeName(s, i) == front + [x] + "" && VnodeName(s, j) == front + [y] + "";
    DigitSeparates(front, x, y, "");
  }

  /** The positions of a shard's first `n` virtual nodes. */
  function Points(shard: nat, n: nat): set<nat> {
    set i | 0 <= i < n :: VnodePosition(shard, i)
  }

  /** The ring after inserting the points; a point already there changes its label. */
  function Labelled(ring: Ring, points: set<nat>, shard: nat): Ring {
    map p | p in ring.Keys + points :: if p in points then shard else ring[p]
  }

  function Without(ring: Ring, shard: nat): Ring {
    map p | p in ring && ring[p] != shard :: ring[p]
  }

  /** Some added point is at most as far from `hash` as the point that answered before. */
  ghost predicate CutsIn(ring: Ring, points: set<nat>, hash: nat)
    requires ring != map[]
  {
    exists q | q in points :: Clockwise(hash, q) <= Clockwise(hash, Successor(ring, hash))
  }

  lemma LabelledSuccessor(ring: Ring, points: set<nat>, shard: nat, hash: nat)
    requires OnCircle(ring) && (forall p | p in points :: p < WORD) && hash < WORD
    requires ring != map[] && points != {}
    ensures var grown := Labelled(ring, points, shard);
            grown != map[] && Nearest(grown, hash, Successor(grown, hash))
            && Nearest(ring, hash, Successor(ring, hash))
  {
    var grown := Labelled(ring, points, shard);
    var p :| p in points;
    assert p in grown;
    SuccessorIsNearest(grown, hash);
    SuccessorIsNearest(ring, hash);
  }

  /** Adding a shard moves exactly the keys that one of its points cuts off, all of them to
      the new shard, and leaves the owner of every other key alone. Colliding points count. */
  lemma AddMovesMinimally(ring: Ring, points: set<nat>, shard: nat, hash: nat)
    requires OnCircle(ring) && (forall p | p in points :: p < WORD) && hash < WORD
    requires ring != map[]
    ensures Owner(Labelled(ring, points, shard), hash)
         == if CutsIn(ring, points, hash) then Some(shard) else Owner(ring, hash)
  {
    var grown := Labelled(ring, points, shard);
    if points == {} {
      assert grown == ring;
    } else {
      LabelledSuccessor(ring, points, shard, hash);
      var p, p' := Successor(ring, hash), Successor(grown, hash);
      if CutsIn(ring, points, hash) {
        var q :| q in points && Clockwise(hash, q) <= Clockwise(hash, p);
        assert q in grown;
      } else {
        assert p' !in points ==> p' in ring;
        assert p in grown && p !in points;
      }
    }
  }

  /** Removing a shard leaves the owner of every key it did not own. */
  lemma RemoveMovesOnlyItsOwn(ring: Ring, shard: nat, hash: nat)
    requires OnCircle(ring) && hash < WORD
    ensures Owner(ring, hash) != Some(shard) ==> Owner(Without(ring, shard), hash) == Owner(ring, hash)
    ensures Owner(Without(ring, shard), hash) != Some(shard)
  {
    var rest := Without(ring, shard);
    if ring != map[] && Owner(ring, hash) != Some(shard) {
      var p := Successor(ring, hash);
      assert p in rest;
      SuccessorIsNearest(ring, hash);
      assert Nearest(rest, hash, p);
      ClockwiseLookup(rest, hash, p);
    } else if ring == map[] {
      assert rest == map[];
    }
  }

  /** Adding an absent shard and removing it again gives the ring back if and only if its
      points miss all existing ones. */
  lemma AddThenRemove(ring: Ring, points: set<nat>, shard: nat)
    requires shard !in ring.Values
    ensures Without(Labelled(ring, points, shard), shard) == ring <==> points !! ring.Keys
  {
    var back := Without(Labelled(ring, points, shard), shard);
    forall p
      ensures p in back <==> p in ring && p !in points
      ensures p in back ==> back[p] == ring[p]
    {
      if p in ring {
        assert ring[p] in ring.Values;
      }
    }
    if back == ring {
      forall p | p in points
        ensures p !in ring.Keys
      {
        assert p !in back;
      }
    }
  }

  lemma PointsStep(shard: nat, n: nat)
    ensures Points(shard, 0) == {}
    ensures Points(shard, n + 1) == Points(shard, n) + {VnodePosition(shard, n)}
  {
    forall p | p in Points(shard, n + 1) ensures p in Points(shard, n) + {VnodePosition(shard, n)} {
      var i :| 0 <= i < n + 1 && p == VnodePosition(shard, i);
    }
  }

  lemma LabelOneMore(ring: Ring, points: set<nat>, p: nat, shard: nat)
    ensures Labelled(ring, points, shard)[p := shard] == Labelled(ring, points + {p}, shard)
  {
  }

  class HashRing {
    var ring: Ring
    const numVirtualNodes: nat

    ghost predicate Valid()
      reads this
    {
      OnCircle(ring)
    }

    constructor (numVirtualNodes: nat)
      ensures Valid() && ring == map[] && this.numVirtualNodes == numVirtualNodes
    {
      ring := map[];
      this.numVirtualNodes := numVirtualNodes;
    }

    method AddShard(shard: nat)
      requires Valid()
      modifies this
      ensures Valid() && ring == Labelled(old(ring), Points(shard, numVirtualNodes), shard)
    {
      PointsStep(shard, 0);
      for i := 0 to numVirtualNodes
        invariant Valid() && ring == Labelled(old(ring), Points(shard, i), shard)
      {
        var position := VirtualNode(shard, i);
        PointsStep(shard, i);
        LabelOneMore(old(ring), Points(shard, i), position, shard);
        ring := ring[position := shard];
      }
    }

    method VirtualNode(shard: nat, i: nat) returns (position: nat)
      ensures position == VnodePosition(shard, i) && position < WORD
    {
      var key := "shard-" + Decimal(shard) + "-vnode-" + Decimal(i);
      position := ComputeHash(key);
    }

    method RemoveShard(shard: nat)
      requires Valid()
      modifies this
      ensures Valid() && ring == Without(old(ring), shard)
    {
      ring := map p | p in ring && ring[p] != shard :: ring[p];
    }

    method GetShard(key: string) returns (shard: Option<nat>)
      requires Valid()
      ensures shard == Owner(ring, Hash(key))
    {
      if ring == map[] {
        return None;
      }
      var hash := ComputeHash(key);
      shard := NextClockwise(hash);
    }

    method NextClockwise(hash: nat) returns (shard: Option<nat>)
      requires ring != map[]
      ensures shard == Owner(ring, hash)
    {
      var ahead := set p | p in ring && p >= hash;
      if ahead != {} {
        shard := Some(ring[Least(ahead)]);
      } else {
        shard := Some(ring[Least(ring.Keys)]);
      }
    }
  }
}
