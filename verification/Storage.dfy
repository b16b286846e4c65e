/** The storage engine: a memtable with tombstones over the write-ahead log, and recovery. */
module Storage {
  import opened RaftTypes
  import opened Wals

  /** A deleted key stays in the table, mapped to None. */
  type Table = map<string, Option<string>>

  function TableAfter(table: Table, e: WalEntry): Table {
    match e.operation
    case OpPut => table[e.key := Some(ValueText(e))]
    case OpDelete => table[e.key := None]
  }

  function Rebuilt(table: Table, es: seq<WalEntry>): Table
    decreases es
  {
    if es == [] then table else Rebuilt(TableAfter(table, es[0]), es[1..])
  }

  /** A tombstone and a missing key read the same. */
  function Read(table: Table, key: string): Option<string> {
    if key in table then table[key] else None
  }

  /** The engine as a value: the file on disk and the table in memory. */
  datatype Store = Store(file: string, table: Table)

  function Opened(file: string): Store {
    Store(file, Rebuilt(map[], Replayed(file)))
  }

  function Written(store: Store, e: WalEntry): Store {
    Store(store.file + Serialize(e), TableAfter(store.table, e))
  }

  function WrittenAll(store: Store, es: seq<WalEntry>): Store
    decreases es
  {
    if es == [] then store else WrittenAll(Written(store, es[0]), es[1..])
  }

  // ---- What a rebuilt table holds ----

  predicate Writes(es: seq<WalEntry>, key: string) {
    exists k | 0 <= k < |es| :: es[k].key == key
  }

  /** The entry that wrote the key last. */
  ghost predicate LastWriteAt(es: seq<WalEntry>, key: string, k: nat) {
    k < |es| && es[k].key == key && forall m | k < m < |es| :: es[m].key != key
  }

  function ValueOf(e: WalEntry): Option<string> {
    if e.operation == OpPut then Some(ValueText(e)) else None
  }

  /** A key nothing wrote keeps its old slot. */
  lemma {:induction false} RebuiltKeeps(table: Table, es: seq<WalEntry>, key: string)
    requires !Writes(es, key)
    ensures key in Rebuilt(table, es) <==> key in table
    ensures key in table ==> Rebuilt(table, es)[key] == table[key]
    decreases es
  {
    if es != [] {
      assert es[0].key != key;
      assert !Writes(es[1..], key) by {
        assert forall k | 0 <= k < |es[1..]| :: es[1..][k] == es[k + 1];
      }
      RebuiltKeeps(TableAfter(table, es[0]), es[1..], key);
    }
  }

  /** A key something wrote holds what the last write gave it, whatever was there before. */
  lemma {:induction false} LastWriteWins(table: Table, es: seq<WalEntry>, key: string, k: nat)
    requires LastWriteAt(es, key, k)
    ensures key in Rebuilt(table, es) && Rebuilt(table, es)[key] == ValueOf(es[k])
    decreases es
  {
    if k == 0 {
      assert !Writes(es[1..], key) by {
        assert forall m | 0 <= m < |es[1..]| :: es[1..][m] == es[m + 1];
      }
      RebuiltKeeps(TableAfter(table, es[0]), es[1..], key);
    } else {
      assert LastWriteAt(es[1..], key, k - 1);
      LastWriteWins(TableAfter(table, es[0]), es[1..], key, k - 1);
    }
  }

  lemma {:induction false} LastWriteExists(es: seq<WalEntry>, key: string) returns (k: nat)
    requires Writes(es, key)
    ensures LastWriteAt(es, key, k)
  {
    k := |es| - 1;
    while es[k].key != key
      invariant 0 <= k < |es|
      decreases k
      invariant forall m | k < m < |es| :: es[m].key != key
      invariant exists m | 0 <= m <= k :: es[m].key == key
    {
      k := k - 1;
    }
  }

  /** Two tables that agree wherever the entries do not write become the same table. */
  lemma Overwritten(table: Table, other: Table, es: seq<WalEntry>)
    requires forall key | !Writes(es, key) :: key in table <==> key in other
    requires forall key | !Writes(es, key) && key in table && key in other :: table[key] == other[key]
    ensures Rebuilt(table, es) == Rebuilt(other, es)
  {
    forall key
      ensures key in Rebuilt(table, es) <==> key in Rebuilt(other, es)
      ensures key in Rebuilt(table, es) ==> Rebuilt(table, es)[key] == Rebuilt(other, es)[key]
    {
      if Writes(es, key) {
        var k := LastWriteExists(es, key);
        LastWriteWins(table, es, key, k);
        LastWriteWins(other, es, key, k);
      } else {
        RebuiltKeeps(table, es, key);
        RebuiltKeeps(other, es, key);
      }
    }
  }

  /** Entries already applied make no difference to a later application that covers them. */
  lemma ReappliedOver(table: Table, earlier: seq<WalEntry>, es: seq<WalEntry>)
    requires forall key | Writes(earlier, key) :: Writes(es, key)
    ensures Rebuilt(Rebuilt(table, earlier), es) == Rebuilt(table, es)
  {
    forall key | !Writes(es, key)
      ensures key in Rebuilt(table, earlier) <==> key in table
      ensures key in table ==> Rebuilt(table, earlier)[key] == table[key]
    {
      RebuiltKeeps(table, earlier, key);
    }
    Overwritten(Rebuilt(table, earlier), table, es);
  }

  lemma {:induction false} RebuiltConcat(table: Table, a: seq<WalEntry>, b: seq<WalEntry>)
    ensures Rebuilt(table, a + b) == Rebuilt(Rebuilt(table, a), b)
    decreases a
  {
    if a == [] {
      assert a + b == b;
    } else {
      assert (a + b)[1..] == a[1..] + b;
      RebuiltConcat(TableAfter(table, a[0]), a[1..], b);
    }
  }

  lemma RebuiltOne(table: Table, e: WalEntry)
    ensures Rebuilt(table, [e]) == TableAfter(table, e)
  {
    assert [e][1..] == [];
  }

  // ---- Recovery ----

  /** The table is what reopening the file would build, and the file ends at a line start. */
  predicate InSync(store: Store) {
    AtLineStart(store.file) && store.table == Opened(store.file).table
  }

  lemma WrittenInSync(store: Store, e: WalEntry)
    requires InSync(store) && EngineMade(e) && Clean(e)
    ensures InSync(Written(store, e))
  {
    AppendReadsBack(store.file, e);
    RebuiltConcat(map[], Replayed(store.file), [e]);
    var file := store.file + Serialize(e);
    assert file[|file| - 1] == '\n';
    RebuiltOne(store.table, e);
  }

  lemma {:induction false} WrittenAllInSync(store: Store, es: seq<WalEntry>)
    requires InSync(store) && forall e | e in es :: EngineMade(e) && Clean(e)
    ensures InSync(WrittenAll(store, es))
    ensures WrittenAll(store, es).table == Rebuilt(store.table, es)
    decreases es
  {
    if es != [] {
      WrittenInSync(store, es[0]);
      WrittenAllInSync(Written(store, es[0]), es[1..]);
    }
  }

  datatype EngineStep = Write(entry: WalEntry) | Reopen

  function EngineAfter(store: Store, step: EngineStep): Store {
    match step
    case Write(e) => Written(store, e)
    case Reopen => Opened(store.file)
  }

  function EngineRun(store: Store, steps: seq<EngineStep>): Store
    decreases steps
  {
    if steps == [] then store else EngineRun(EngineAfter(store, steps[0]), steps[1..])
  }

  function EntryOf(step: EngineStep): seq<WalEntry> {
    if step.Write? then [step.entry] else []
  }

  function EntriesOf(steps: seq<EngineStep>): seq<WalEntry> {
    if steps == [] then [] else EntryOf(steps[0]) + EntriesOf(steps[1..])
  }

  predicate CleanStep(step: EngineStep) {
    step.Write? ==> EngineMade(step.entry) && Clean(step.entry)
  }

  lemma EngineStepInSync(store: Store, step: EngineStep)
    requires InSync(store) && CleanStep(step)
    ensures InSync(EngineAfter(store, step))
    ensures EngineAfter(store, step).table == Rebuilt(store.table, EntryOf(step))
  {
    if step.Write? {
      WrittenInSync(store, step.entry);
    }
  }

  /** Over any run of clean writes and reopenings, on a file that does not end in a torn line,
      the table is the old one with every write applied once, in order, and reopening gives
      the same table. */
  lemma {:induction false} RecoveryTheorem(store: Store, steps: seq<EngineStep>)
    requires InSync(store) && forall s | s in steps :: CleanStep(s)
    ensures EngineRun(store, steps).table == Rebuilt(store.table, EntriesOf(steps))
    ensures InSync(EngineRun(store, steps))
    decreases steps
  {
    if steps != [] {
      EngineStepInSync(store, steps[0]);
      RecoveryTheorem(EngineAfter(store, steps[0]), steps[1..]);
      RebuiltConcat(store.table, EntryOf(steps[0]), EntriesOf(steps[1..]));
    }
  }

  /** Reopening a file cut at any character gives the table of the entries whose newline
      survived, or else that table with one slot changed: the torn put's own key set to part of
      its value, or a key that begins the torn delete's key deleted. */
  lemma TornRecovery(es: seq<WalEntry>, n: nat)
    requires forall e | e in es :: EngineMade(e) && Clean(e)
    requires n <= |SerializeAll(es)|
    ensures var m := Complete(es, n);
            TornTable(Opened(SerializeAll(es)[..n]).table, Rebuilt(map[], es[..m]),
                      if n == |SerializeAll(es[..m])| || m == |es| then None else Some(es[m]))
  {
    TornTail(es, n);
    CutAtLineEnd(es, n);
    TornReplayTable(Replayed(SerializeAll(es)[..n]), es, Complete(es, n));
  }

  /** A cut between two lines tears nothing. */
  lemma CutAtLineEnd(es: seq<WalEntry>, n: nat)
    requires forall e | e in es :: EngineMade(e) && Clean(e)
    requires n <= |SerializeAll(es)|
    ensures n == |SerializeAll(es[..Complete(es, n)])| ==>
              Replayed(SerializeAll(es)[..n]) == es[..Complete(es, n)]
  {
    ReplayWhole(es, Complete(es, n));
    var text, whole := SerializeAll(es), SerializeAll(es[..Complete(es, n)]);
    var torn := CutFile(es, n);
    assert |text[..n]| == |whole| + |torn|;
    assert n == |whole| ==> whole + torn == whole;
  }

  lemma ReplayWhole(es: seq<WalEntry>, m: nat)
    requires m <= |es| && forall e | e in es :: EngineMade(e) && Clean(e)
    ensures Replayed(SerializeAll(es[..m])) == es[..m]
  {
    assert forall e | e in es[..m] :: e in es;
    RoundTripExactly(es[..m]);
  }

  predicate TornTable(recovered: Table, written: Table, torn: Option<WalEntry>) {
    || recovered == written
    || (&& torn.Some?
        && match torn.value.operation
           case OpPut => exists j | 0 <= j <= |ValueText(torn.value)| ::
                           recovered == written[torn.value.key := Some(ValueText(torn.value)[..j])]
           case OpDelete => exists j | 0 <= j <= |torn.value.key| :: recovered == written[torn.value.key[..j] := None])
  }

  lemma TornReplayTable(r: seq<WalEntry>, es: seq<WalEntry>, m: nat)
    requires m <= |es| && TornReplay(r, es, m)
    ensures TornTable(Rebuilt(map[], r), Rebuilt(map[], es[..m]), if m < |es| then Some(es[m]) else None)
  {
    if r != es[..m] {
      assert r == es[..m] + [r[m]];
      RebuiltConcat(map[], es[..m], [r[m]]);
      RebuiltOne(Rebuilt(map[], es[..m]), r[m]);
      if es[m].operation == OpPut {
        assert ValueText(r[m]) == ValueText(es[m])[..|ValueText(r[m])|];
      } else {
        assert r[m].key == es[m].key[..|r[m].key|];
      }
    }
  }

  // ---- Applying a log again ----

  predicate AtMost(lengths: seq<nat>, n: nat) {
    forall i | 0 <= i < |lengths| :: lengths[i] <= n
  }

  /** One command sequence applied again and again, each time up to some length. */
  function Prefixes(cs: seq<WalEntry>, lengths: seq<nat>): seq<WalEntry>
    requires AtMost(lengths, |cs|)
  {
    if lengths == [] then [] else cs[..lengths[0]] + Prefixes(cs, lengths[1..])
  }

  lemma {:induction false} PrefixesWrite(cs: seq<WalEntry>, lengths: seq<nat>, last: nat, key: string)
    requires last <= |cs| && AtMost(lengths, last)
    requires Writes(Prefixes(cs, lengths), key)
    ensures Writes(cs[..last], key)
  {
    if lengths != [] {
      var all, n := Prefixes(cs, lengths), lengths[0];
      var k :| 0 <= k < |all| && all[k].key == key;
      if k < n {
        assert cs[..last][k] == all[k];
      } else {
        assert Prefixes(cs, lengths[1..])[k - n] == all[k];
        PrefixesWrite(cs, lengths[1..], last, key);
      }
    }
  }

  lemma WritesConcat(a: seq<WalEntry>, b: seq<WalEntry>, key: string)
    ensures Writes(a + b, key) <==> Writes(a, key) || Writes(b, key)
  {
    if Writes(a, key) {
      var k :| 0 <= k < |a| && a[k].key == key;
      assert (a + b)[k].key == key;
    }
    if Writes(b, key) {
      var k :| 0 <= k < |b| && b[k].key == key;
      assert (a + b)[|a| + k].key == key;
    }
  }

  /** A table built from nothing has exactly the keys that were written. */
  lemma RebuiltKeys(es: seq<WalEntry>, key: string)
    ensures key in Rebuilt(map[], es) <==> Writes(es, key)
  {
    if Writes(es, key) {
      var k := LastWriteExists(es, key);
      LastWriteWins(map[], es, key, k);
    } else {
      RebuiltKeeps(map[], es, key);
    }
  }

  /** Applying entries after others ends where applying them alone does, exactly when they write
      every key the others wrote. */
  lemma ForgetsExactly(earlier: seq<WalEntry>, es: seq<WalEntry>)
    ensures Rebuilt(map[], earlier + es) == Rebuilt(map[], es)
       <==> forall key | Writes(earlier, key) :: Writes(es, key)
  {
    RebuiltConcat(map[], earlier, es);
    if forall key | Writes(earlier, key) :: Writes(es, key) {
      ReappliedOver(map[], earlier, es);
    }
    if Rebuilt(map[], earlier + es) == Rebuilt(map[], es) {
      forall key | Writes(earlier, key) ensures Writes(es, key) {
        WritesConcat(earlier, es, key);
        RebuiltKeys(earlier + es, key);
        RebuiltKeys(es, key);
      }
    }
  }

  /** ... and gives the same reads exactly when every other key was last deleted. */
  lemma ReadsForgetExactly(earlier: seq<WalEntry>, es: seq<WalEntry>)
    ensures (forall key :: Read(Rebuilt(map[], earlier + es), key) == Read(Rebuilt(map[], es), key))
       <==> forall key, k: nat | LastWriteAt(earlier, key, k) && !Writes(es, key) :: earlier[k].operation == OpDelete
  {
    RebuiltConcat(map[], earlier, es);
    forall key
      ensures Writes(es, key) || !Writes(earlier, key) ==>
                Read(Rebuilt(map[], earlier + es), key) == Read(Rebuilt(map[], es), key)
      ensures forall k: nat | LastWriteAt(earlier, key, k) && !Writes(es, key) ::
                Read(Rebuilt(map[], earlier + es), key) == ValueOf(earlier[k]) && Read(Rebuilt(map[], es), key) == None
    {
      ReadAfter(earlier, es, key);
    }
    forall key | Writes(earlier, key)
      ensures exists k: nat :: LastWriteAt(earlier, key, k)
    {
      var k := LastWriteExists(earlier, key);
    }
  }

  lemma ReadAfter(earlier: seq<WalEntry>, es: seq<WalEntry>, key: string)
    ensures Writes(es, key) || !Writes(earlier, key) ==>
              Read(Rebuilt(map[], earlier + es), key) == Read(Rebuilt(map[], es), key)
    ensures forall k: nat | LastWriteAt(earlier, key, k) && !Writes(es, key) ::
              Read(Rebuilt(map[], earlier + es), key) == ValueOf(earlier[k]) && Read(Rebuilt(map[], es), key) == None
  {
    RebuiltConcat(map[], earlier, es);
    if Writes(es, key) {
      var k := LastWriteExists(es, key);
      LastWriteWins(Rebuilt(map[], earlier), es, key, k);
      LastWriteWins(map[], es, key, k);
    } else {
      RebuiltKeeps(Rebuilt(map[], earlier), es, key);
      RebuiltKeeps(map[], es, key);
      if !Writes(earlier, key) {
        RebuiltKeeps(map[], earlier, key);
      }
      forall k: nat | LastWriteAt(earlier, key, k)
        ensures Read(Rebuilt(map[], earlier), key) == ValueOf(earlier[k])
      {
        LastWriteWins(map[], earlier, key, k);
      }
    }
  }

  lemma {:induction false} PrefixesClean(cs: seq<WalEntry>, lengths: seq<nat>)
    requires AtMost(lengths, |cs|)
    ensures forall e | e in Prefixes(cs, lengths) :: e in cs
  {
    if lengths != [] {
      PrefixesClean(cs, lengths[1..]);
    }
  }

  /** An engine whose file holds any prefixes of one command sequence recovers the table of the
      last prefix applied once, exactly when that prefix writes every key the earlier ones wrote. */
  lemma ReapplicationConvergesExactly(cs: seq<WalEntry>, lengths: seq<nat>, last: nat)
    requires last <= |cs| && AtMost(lengths, |cs|) && forall e | e in cs :: EngineMade(e) && Clean(e)
    ensures Opened(SerializeAll(Prefixes(cs, lengths) + cs[..last])).table == Rebuilt(map[], cs[..last])
       <==> forall key | Writes(Prefixes(cs, lengths), key) :: Writes(cs[..last], key)
  {
    PrefixesClean(cs, lengths);
    RoundTripExactly(Prefixes(cs, lengths) + cs[..last]);
    ForgetsExactly(Prefixes(cs, lengths), cs[..last]);
  }

  /** ... so certainly when the last prefix is at least as long as every earlier one. */
  lemma ReapplicationConverges(cs: seq<WalEntry>, lengths: seq<nat>, last: nat)
    requires last <= |cs| && AtMost(lengths, last) && forall e | e in cs :: EngineMade(e) && Clean(e)
    ensures Opened(SerializeAll(Prefixes(cs, lengths) + cs[..last])).table == Rebuilt(map[], cs[..last])
  {
    ReapplicationConvergesExactly(cs, lengths, last);
    forall key | Writes(Prefixes(cs, lengths), key) ensures Writes(cs[..last], key) {
      PrefixesWrite(cs, lengths, last, key);
    }
  }

  /** The recovered reads are those of the last prefix exactly when every key that only earlier
      prefixes wrote was last deleted by them. */
  lemma ReapplicationReadsExactly(cs: seq<WalEntry>, lengths: seq<nat>, last: nat)
    requires last <= |cs| && AtMost(lengths, |cs|) && forall e | e in cs :: EngineMade(e) && Clean(e)
    ensures var earlier := Prefixes(cs, lengths);
            (forall key ::
               Read(Opened(SerializeAll(earlier + cs[..last])).table, key) == Read(Rebuilt(map[], cs[..last]), key))
            <==> forall key, k: nat | LastWriteAt(earlier, key, k) && !Writes(cs[..last], key) ::
                   earlier[k].operation == OpDelete
  {
    PrefixesClean(cs, lengths);
    RoundTripExactly(Prefixes(cs, lengths) + cs[..last]);
    ReadsForgetExactly(Prefixes(cs, lengths), cs[..last]);
  }

  /** A shorter last prefix can fail it: the key only the longer one wrote stays behind. */
  lemma ShorterPrefixDiverges()
    ensures var cs := [WalEntry(OpPut, "a", Some("1")), WalEntry(OpPut, "b", Some("1"))];
            Opened(SerializeAll(Prefixes(cs, [2]) + cs[..1])).table != Rebuilt(map[], cs[..1])
  {
    var a, b := WalEntry(OpPut, "a", Some("1")), WalEntry(OpPut, "b", Some("1"));
    var cs := [a, b];
    forall e | e in cs ensures EngineMade(e) && Clean(e) {
      assert "PUT|a|1" == Body(a) && "PUT|b|1" == Body(b);
    }
    assert Prefixes(cs, [2]) == cs[..2] + Prefixes(cs, []);
    assert Prefixes(cs, [2])[1].key == "b" && cs[..1] == [a];
    assert Writes(Prefixes(cs, [2]), "b") && !Writes(cs[..1], "b");
    ReapplicationConvergesExactly(cs, [2], 1);
  }

  // ---- The objects ----

  class Memtable {
    var entries: Table

    constructor ()
      ensures entries == map[]
    {
      entries := map[];
    }

    method Put(key: string, value: string)
      modifies this
      ensures entries == old(entries)[key := Some(value)]
    {
      entries := entries[key := Some(value)];
    }

    method Delete(key: string)
      modifies this
      ensures entries == old(entries)[key := None]
    {
      entries := entries[key := None];
    }

    /** None: not here. Some(None): deleted. */
    method Get(key: string) returns (slot: Option<Option<string>>)
      ensures slot.Some? <==> key in entries
      ensures slot.Some? ==> slot.value == entries[key]
    {
      slot := if key in entries then Some(entries[key]) else None;
    }
  }

  class StorageEngine {
    const wal: Wal
    const memtable: Memtable

    ghost function View(): Store
      reads this, wal, memtable
    {
      Store(wal.contents, memtable.entries)
    }

    /** Opens the file and rebuilds the table from it. */
    constructor (file: string)
      ensures fresh(wal) && fresh(memtable) && View() == Opened(file)
    {
      wal := new Wal(file);
      memtable := new Memtable();
      new;
      var entries := wal.Replay();
      for k := 0 to |entries|
        invariant fresh(wal) && fresh(memtable) && wal.contents == file
        invariant Rebuilt(memtable.entries, entries[k..]) == Rebuilt(map[], entries)
      {
        var entry := entries[k];
        assert entries[k..][1..] == entries[k + 1..];
        match entry.operation {
          case OpPut =>
            var value := if entry.value.Some? then entry.value.value else "";
            memtable.Put(entry.key, value);
          case OpDelete =>
            memtable.Delete(entry.key);
        }
      }
    }

    method Put(key: string, value: string)
      modifies wal, memtable
      ensures View() == Written(old(View()), WalEntry(OpPut, key, Some(value)))
    {
      wal.Append(WalEntry(OpPut, key, Some(value)));
      memtable.Put(key, value);
    }

    method Delete(key: string)
      modifies wal, memtable
      ensures View() == Written(old(View()), WalEntry(OpDelete, key, None))
    {
      wal.Append(WalEntry(OpDelete, key, None));
      memtable.Delete(key);
    }

    method Get(key: string) returns (value: Option<string>)
      ensures value == Read(View().table, key)
    {
      var slot := memtable.Get(key);
      value := if slot.Some? then slot.value else None;
    }
  }
}
