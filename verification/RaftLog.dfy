/** The persistent log (src/raft/raft_log.cc): two sorted stores and the window kept in memory over them. */
module RaftLogStore {
  import opened RaftTypes
  import opened Coding
  import opened KeyOrder
  import opened LogState

  // ---------- iterators of the store

  /** Iterator::SeekToFirst: the least key, in the order of the comparator. */
  method SeekToFirst(keys: set<int>) returns (least: int)
    requires keys != {} && Small(keys)
    ensures least in keys && forall k | k in keys :: least <= k
  {
    HasKey(keys);
    least :| least in keys;
    var todo := keys - {least};
    while todo != {}
      invariant todo <= keys && least in keys
      invariant forall k | k in keys && k !in todo :: least <= k
      decreases |todo|
    {
      HasKey(todo);
      var k :| k in todo;
      OrderBelow(k, least);
      if Compare(k, least) < 0 {
        least := k;
      }
      todo := todo - {k};
    }
  }

  /** Iterator::SeekToLast: the greatest key, in the order of the comparator. */
  method SeekToLast(keys: set<int>) returns (greatest: int)
    requires keys != {} && Small(keys)
    ensures greatest in keys && forall k | k in keys :: k <= greatest
  {
    HasKey(keys);
    greatest :| greatest in keys;
    var todo := keys - {greatest};
    while todo != {}
      invariant todo <= keys && greatest in keys
      invariant forall k | k in keys && k !in todo :: k <= greatest
      decreases |todo|
    {
      HasKey(todo);
      var k :| k in todo;
      OrderBelow(k, greatest);
      if Compare(k, greatest) > 0 {
        greatest := k;
      }
      todo := todo - {k};
    }
  }

  /** Iterator::Prev: the key before k. */
  method Prev(keys: set<int>, k: int) returns (prev: int)
    requires k in keys && Small(keys) && exists x :: x in keys && x < k
    ensures prev in keys && prev < k && forall x | x in keys && x < k :: x <= prev
  {
    forall x | x in keys
      ensures Compare(x, k) < 0 <==> x < k
    {
      OrderBelow(x, k);
    }
    var before := set x | x in keys && Compare(x, k) < 0;
    var y :| y in keys && y < k;
    assert y in before;
    prev := SeekToLast(before);
    forall x | x in keys && x < k
      ensures x <= prev
    {
      assert x in before;
    }
  }

  /** Iterator::Next: the key after k. */
  method Next(keys: set<int>, k: int) returns (next: int)
    requires k in keys && Small(keys) && exists x :: x in keys && x > k
    ensures next in keys && next > k && forall x | x in keys && x > k :: x >= next
  {
    forall x | x in keys
      ensures Compare(x, k) > 0 <==> x > k
    {
      OrderBelow(x, k);
    }
    var after := set x | x in keys && Compare(x, k) > 0;
    var y :| y in keys && y > k;
    assert y in after;
    next := SeekToFirst(after);
    forall x | x in keys && x > k
      ensures x >= next
    {
      assert x in after;
    }
  }

  // ---------- the log

  class RaftLog {
    const crc: Crc

    // on disk
    var db: Store
    var configDb: Store

    // in memory
    var first: nat
    var last: nat
    var append: nat
    var lastChecksum: nat
    var configIndices: set<int>

    ghost var state: LogState

    /** The stores hold the state. */
    ghost predicate Stored()
      reads this
    {
      StoresHold(crc, db, configDb, state)
    }

    /** And the fields in memory say the same. */
    ghost predicate Valid()
      reads this
    {
      Stored() && InMemory(crc, first, last, append, lastChecksum, configIndices, state)
    }

    /** Nothing was ever stored. */
    ghost predicate Blank()
      reads this
    {
      db == map[] && configDb == map[] && state == LogState([], 0, None)
    }

    constructor (crc: Crc)
      ensures Blank() && this.crc == crc && configIndices == {}
    {
      this.crc := crc;
      db, configDb := map[], map[];
      first, last, append, lastChecksum, configIndices := 0, 0, 0, 0, {};
      state := LogState([], 0, None);
    }

    /** RaftLog::Check. */
    predicate Check()
      reads this
    {
      if first == last then
        (first == 0 ==> append >= 1) && (first > 0 ==> append == last + 1)
      else
        first <= last && first >= 1 && append == last + 1
    }

    /** The assertions of Check hold whenever the log is valid. */
    lemma CheckHolds()
      requires Valid()
      ensures Check()
    {
    }

    /** How the window lies over the history. */
    lemma Window()
      requires Valid()
      ensures 0 in db && Sane(state) && first == First(state) && append == |state.history| + 1
      ensures lastChecksum == Chain(crc, state.history) && configIndices == ConfigIndexes(state)
      ensures first == 0 <==> last == 0
      ensures first == 0 ==> forall i: nat :: DroppedFrom(state, i) == state && DroppedUntil(state, i) == state
      ensures first > 0 ==> first == state.cut + 1 <= last == |state.history|
      ensures forall i: nat | i > last :: DroppedFrom(state, i) == state
      ensures forall i: nat | i < first :: DroppedUntil(state, i) == state
    {
    }

    predicate IndexValid(index: nat)
      reads this
    {
      index != 0 && first <= index <= last
    }

    method GetMeta(index: nat) returns (meta: Option<Cell>)
      requires Valid()
      ensures meta == if InWindow(state, index) then Some(MetaOf(crc, state.history, index)) else None
    {
      CheckHolds();
      KeysInvert(index, 0);
      hide MetaOf, Chain;
      var key := MetaKey(index);
      assert InWindow(state, index) ==> EntryStored(crc, db, state.history, index);
      if key in db {
        return Some(db[key]);
      } else {
        return None;
      }
    }

    method GetValue(index: nat) returns (value: Option<Bytes>)
      requires Valid() && index > 0
      ensures value == if InWindow(state, index) then Some(state.history[index - 1].value) else None
    {
      CheckHolds();
      KeysInvert(index, 0);
      hide MetaOf, Chain;
      var key := DataKey(index);
      assert InWindow(state, index) ==> EntryStored(crc, db, state.history, index);
      if key in db {
        return Some(db[key].value);
      } else {
        return None;
      }
    }

    /** RaftLog::Get: the entry of an index of the window. */
    method Get(index: nat) returns (entry: Option<Entry>)
      requires Valid()
      ensures entry == if InWindow(state, index) then Some(state.history[index - 1]) else None
    {
      var meta := GetMeta(index);
      if meta.Some? {
        var value := GetValue(index);
        return Some(Entry(meta.value.term, meta.value.kind, value.value));
      } else {
        return None;
      }
    }

    method LastMeta() returns (meta: Option<Cell>)
      requires Valid()
      ensures meta == if last == 0 then None else Some(MetaOf(crc, state.history, |state.history|))
    {
      if last == 0 {
        return None;
      } else {
        meta := GetMeta(last);
      }
    }

    method AppendOne(e: Entry)
      requires Valid()
      modifies this
      ensures Valid() && state == Appended(old(state), e)
    {
      hide MainHolds, ConfigHolds, Chain, ConfigIndexes, CheckThis, CheckAll, First, Last, Appended, Put, StoresHold;
      hide InMemory, Sane;
      CheckHolds();
      Window();
      AppendHolds(crc, db, configDb, state, e);
      var tmpFirst, tmpLast, tmpAppend;
      if first == last && first == 0 {
        tmpFirst, tmpLast, tmpAppend := append, append, append + 1;
      } else {
        tmpFirst, tmpLast := first, last + 1;
        tmpAppend := tmpLast + 1;
      }
      var ths := CheckThis(crc, append, e);
      var all := CheckAll(crc, lastChecksum, ths);
      var meta := Meta(e.term, e.kind, lastChecksum, ths, all);
      db := Put(db, tmpLast, meta, e.value);
      if e.kind == Config {
        configDb := Put(configDb, tmpLast, meta, e.value);
        configIndices := configIndices + {tmpLast};
      }
      first, last, append, lastChecksum := tmpFirst, tmpLast, tmpAppend, all;
      state := Appended(state, e);
    }

    /** The keys that a deletion puts into its batches, and the configuration indexes among them. */
    method Collect(lo: nat, hi: nat) returns (gone: set<int>, goneConfigs: set<int>, dropped: seq<int>)
      requires 0 < lo <= hi + 1
      ensures forall k :: k in gone <==> KeyWithin(k, lo, hi)
      ensures forall k :: k in goneConfigs <==> KeyWithin(k, lo, hi) && IndexOfKey(k) in configIndices
      ensures forall j :: j in dropped <==> lo <= j <= hi && j in configIndices
      ensures forall j, k | 0 <= j < k < |dropped| :: dropped[j] < dropped[k]
    {
      gone, goneConfigs, dropped := {}, {}, [];
      var i := lo;
      while i <= hi
        invariant lo <= i <= hi + 1
        invariant forall k :: k in gone <==> KeyWithin(k, lo, i - 1)
        invariant forall k :: k in goneConfigs <==> KeyWithin(k, lo, i - 1) && IndexOfKey(k) in configIndices
        invariant forall j :: j in dropped <==> lo <= j < i && j in configIndices
        invariant forall j | 0 <= j < |dropped| :: dropped[j] < i
        invariant forall j, k | 0 <= j < k < |dropped| :: dropped[j] < dropped[k]
      {
        KeysOf(i);
        gone := gone + {MetaKey(i), DataKey(i)};
        if i in configIndices {
          goneConfigs := goneConfigs + {MetaKey(i), DataKey(i)};
          dropped := dropped + [i];
        }
        i := i + 1;
      }
    }

    /** Deletes the entries from an index on. Returns the configuration indexes among them, in order, for
        each of which the source calls its delete callback. */
    method DeleteFrom(from: nat) returns (dropped: seq<int>)
      requires Valid()
      modifies this
      ensures Valid() && state == DroppedFrom(old(state), from)
      ensures forall i, j | 0 <= i < j < |dropped| :: dropped[i] < dropped[j]
      ensures forall i :: i in dropped <==> i in old(configIndices) && i !in configIndices
    {
      hide MainHolds, ConfigHolds, Chain, ConfigIndexes, MetaOf, IndexOfKey, First, Last, DroppedFrom, Sane;
      hide StoresHold, InMemory;
      CheckHolds();
      Window();
      if (first == last && first == 0) || from > last {
        return [];
      }
      var start := if from < first then first else from;
      var emptied := start == first;
      var meta := GetMeta(start);
      MetaParts(crc, state.history, start);
      var tmpChecksum := meta.value.preChkAll;
      var gone, goneConfigs;
      gone, goneConfigs, dropped := Collect(start, last);
      var newDb := db - gone;
      if emptied {
        newDb := newDb[0 := Zero(start, tmpChecksum)];
      }
      DropFromHolds(crc, db, newDb, configDb, configDb - goneConfigs, state, from, start);
      var newIndices := set j | j in configIndices && j !in dropped;
      assert newIndices == set j | j in configIndices && !(start <= j <= last);
      db, configDb, configIndices := newDb, configDb - goneConfigs, newIndices;
      first, last := if emptied then 0 else first, if emptied then 0 else start - 1;
      append, lastChecksum := start, tmpChecksum;
      state := DroppedFrom(state, from);
    }

    /** Deletes the entries up to an index. */
    method DeleteUtil(to: nat)
      requires Valid()
      modifies this
      ensures Valid() && state == DroppedUntil(old(state), to)
      ensures configDb == old(configDb) && configIndices == old(configIndices)
    {
      hide MainHolds, ConfigHolds, Chain, ConfigIndexes, MetaOf, IndexOfKey, First, Last, DroppedUntil, Sane;
      hide StoresHold, InMemory;
      CheckHolds();
      Window();
      if (first == last && first == 0) || to < first {
        return;
      }
      var end := if to > last then last else to;
      var emptied := end == last;
      var tmpChecksum := lastChecksum;
      if emptied {
        var meta := GetMeta(end);
        MetaParts(crc, state.history, end);
        tmpChecksum := meta.value.chkAll;
        assert state.history[..end] == state.history;
      }
      var gone, _, _ := Collect(first, end);
      var newDb := db - gone;
      if emptied {
        newDb := newDb[0 := Zero(last + 1, tmpChecksum)];
      }
      DropUntilHolds(crc, db, newDb, configDb, state, to, end);
      db := newDb;
      append := last + 1;
      first, last := if emptied then 0 else end + 1, if emptied then 0 else last;
      lastChecksum := tmpChecksum;
      state := DroppedUntil(state, to);
      CheckHolds();
    }

    /** Stores the configuration that the server is set up with. */
    method AppendFirstConfig(value: Bytes)
      requires Valid()
      modifies this
      ensures Valid() && state == old(state).(firstConfig := Some(value))
    {
      hide StoresHold, ConfigIndexes, First, Last, Chain;
      FirstConfigHolds(crc, db, configDb, state, value);
      configDb := configDb[0 := Value(value)];
      configIndices := configIndices + {0};
      state := state.(firstConfig := Some(value));
    }

    /** The last configuration: 0 and the first one, 1 and the entry of the greatest configuration index, or
        -1 if there is none. */
    method LastConfig() returns (rv: int, value: Bytes, meta: Cell)
      requires Valid() && |state.history| < MAX_INDEX
      ensures rv == -1 || rv == 0 || rv == 1
      ensures rv == -1 <==> configIndices == {}
      ensures rv == 0 <==> configIndices == {0}
      ensures rv == 0 ==> state.firstConfig == Some(value)
      ensures rv == 1 ==> exists i: nat :: IsLastConfig(crc, state, i, value, meta)
    {
      hide Chain, MetaOf, EntryStored, MainHolds, ConfigHolds, ConfigIndexes, IsLastConfig;
      ConfigKeysSmall(crc, configDb, state);
      if configDb.Keys == {} {
        return -1, [], Meta(0, Config, 0, 0, 0);
      }
      var k := SeekToLast(configDb.Keys);
      LastConfigKey(crc, configDb, state, k);
      value := configDb[k].value;
      if k == 0 {
        return 0, value, Meta(0, Config, 0, 0, 0);
      }
      var prev := Prev(configDb.Keys, k);
      return 1, value, configDb[prev];
    }

    /** Opens the stores on a new object and sets its fields from what is stored. */
    method Init()
      requires Blank() || Stored()
      requires |state.history| < MAX_INDEX && configIndices == {}
      modifies this
      ensures Valid() && state == old(state)
      ensures !old(Blank()) ==> db == old(db)
      ensures configDb == old(configDb)
    {
      hide Chain, MetaOf, EntryStored, MainHolds, ConfigHolds, ConfigIndexes, StoresHold, InMemory, First, Last;
      BlankOrNot();
      if db.Keys == {} {
        db := map[0 := Zero(1, 0)];
        first, last, append := 0, 0, 1;
        BlankHolds(crc);
      }
      assert Stored();
      MainOpened(crc, db, configDb, state);
      var k := SeekToLast(db.Keys);
      GreatestKey(crc, db, configDb, state, k);
      if k == 0 {
        first, last := 0, 0;
        append, lastChecksum := db[k].append, db[k].checksum;
      } else {
        assert k % 2 == 0;
        last := k / 2;
        var least := SeekToFirst(db.Keys);
        var next := Next(db.Keys, least);
        LeastKey(crc, db, configDb, state, least, next);
        assert next % 2 == 1;
        first := (next + 1) / 2;
        append := last + 1;
        lastChecksum := db[MetaKey(last)].chkAll;
      }
      Remembered(crc, first, last, append, lastChecksum, state);
      ConfigOpened(crc, db, configDb, state);
      var found := ReadConfigIndices();
      configIndices := configIndices + found;
      assert configIndices == found;
      CheckHolds();
    }

    /** The walk over the configuration store. */
    method ReadConfigIndices() returns (found: set<int>)
      requires Small(configDb.Keys)
      ensures found == set x | x in configDb :: IndexOfKey(x)
    {
      found := {};
      var todo := configDb.Keys;
      while todo != {}
        invariant todo <= configDb.Keys
        invariant found == set x | x in configDb && x !in todo :: IndexOfKey(x)
        decreases |todo|
      {
        var x := SeekToFirst(todo);
        var index := if x == 0 then x else if x % 2 == 0 then x / 2 else (x + 1) / 2;
        found := found + {index};
        todo := todo - {x};
      }
      assert found == set x | x in configDb :: IndexOfKey(x);
    }

    lemma BlankOrNot()
      requires Blank() || Stored()
      ensures db.Keys == {} <==> Blank()
    {
    }

    /** A new process over the same stores: everything in memory is as it was. */
    method Restart()
      requires Valid() && |state.history| < MAX_INDEX
      modifies this
      ensures Valid() && state == old(state)
      ensures db == old(db) && configDb == old(configDb)
      ensures first == old(first) && last == old(last) && append == old(append)
      ensures lastChecksum == old(lastChecksum) && configIndices == old(configIndices)
    {
      BlankOrNot();
      Window();
      first, last, append, lastChecksum, configIndices := 0, 0, 0, 0, {};
      Init();
    }

    method Do(op: Op)
      requires Valid() && |state.history| < MAX_INDEX
      modifies this
      ensures Valid() && state == Done(old(state), op)
    {
      hide StoresHold, InMemory;
      match op {
        case Append(e) => AppendOne(e);
        case CutFrom(from) => var _ := DeleteFrom(from);
        case CompactTo(to) => DeleteUtil(to);
        case Configure(value) => AppendFirstConfig(value);
        case Reopen => Restart();
      }
    }

    /** Any sequence of operations, restarts among them. */
    method Run(ops: seq<Op>)
      requires Valid() && |state.history| + |ops| < MAX_INDEX
      modifies this
      ensures Valid() && state == Outcome(old(state), ops)
    {
      hide StoresHold, InMemory, Done, Outcome;
      RunNothing(state, ops);
      var i := 0;
      while i < |ops|
        invariant 0 <= i <= |ops| && Valid()
        invariant state == Outcome(old(state), ops[..i])
        invariant |state.history| <= |old(state).history| + i
      {
        GrowsByOne(state, ops[i]);
        NextOp(old(state), ops, i);
        Do(ops[i]);
        i := i + 1;
      }
      assert ops[..i] == ops;
    }
  }

  /** Logs with equal histories agree on the next index, on the checksum of the whole, and on everything
      stored under the keys they share, whatever truncations, appends, compactions and restarts led there. */
  lemma HistoryDetermines(a: RaftLog, b: RaftLog, k: int)
    requires a.Valid() && b.Valid() && a.crc == b.crc && a.state.history == b.state.history
    ensures a.append == b.append && a.lastChecksum == b.lastChecksum
    ensures k != 0 && k in a.db && k in b.db ==> a.db[k] == b.db[k]
  {
    hide MainHolds, ConfigHolds, ConfigIndexes, Chain, MetaOf, EntryStored;
    if k != 0 && k in a.db && k in b.db {
      var i := IndexOfKey(k);
      MainKey(a.crc, a.db, a.state, k);
      MainKey(b.crc, b.db, b.state, k);
      MainEntry(a.crc, a.db, a.state, i);
      MainEntry(b.crc, b.db, b.state, i);
      StoredCells(a.crc, a.db, a.state.history, i);
      StoredCells(b.crc, b.db, b.state.history, i);
      KeysOf(i);
      assert KeyWithin(k, i, i);
    }
  }
}
