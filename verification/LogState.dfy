/** What the stores of the persistent log (src/raft/raft_log.cc) hold, and what its operations mean.

  A store is a finite map, and a batch is written as a whole. Checksums are on, as the constructor of the
  source leaves them; CRC-32 is the parameter `crc`, about which nothing is assumed.
*/
module LogState {
  import opened RaftTypes
  import opened Coding
  import opened KeyOrder

  /** CRC-32, left open. */
  datatype Crc = Crc(of: Bytes -> nat)

  /** What a key holds: the meta data or the value of an entry, or, under key 0 of the main store, the next
      index and the checksum of an empty log. */
  datatype Cell =
    | Meta(term: nat, kind: EntryType, preChkAll: nat, chkThs: nat, chkAll: nat)
    | Value(value: Bytes)
    | Zero(append: nat, checksum: nat)

  type Store = map<int, Cell>

  // ---------- checksums

  /** What the checksum of an entry is made of: the index, which is written twice, the term, the type and the
      value with its length. */
  function CheckBytes(index: nat, e: Entry): Bytes {
    Fixed(index, 4) + Fixed(e.term, 8) + Fixed(KindCode(e.kind), 4) + Fixed(index, 4)
    + EncodeVarint32(|e.value| % U32) + e.value
  }

  /** LogEntry::CheckThis. */
  function CheckThis(crc: Crc, index: nat, e: Entry): nat {
    crc.of(CheckBytes(index, e))
  }

  /** LogEntry::CheckAll. */
  function CheckAll(crc: Crc, preChkAll: nat, chkThs: nat): nat {
    crc.of(Fixed(preChkAll, 4) + Fixed(chkThs, 4))
  }

  /** The checksum of a whole history. */
  function Chain(crc: Crc, h: Log): nat {
    if h == [] then 0
    else CheckAll(crc, Chain(crc, h[..|h| - 1]), CheckThis(crc, |h|, h[|h| - 1]))
  }

  function MetaOf(crc: Crc, h: Log, i: nat): Cell
    requires 1 <= i <= |h|
  {
    Meta(h[i - 1].term, h[i - 1].kind, Chain(crc, h[..i - 1]), CheckThis(crc, i, h[i - 1]), Chain(crc, h[..i]))
  }

  lemma MetaStable(crc: Crc, h: Log, h': Log, i: nat)
    requires 1 <= i <= |h| && i <= |h'| && h[..i] == h'[..i]
    ensures MetaOf(crc, h, i) == MetaOf(crc, h', i)
  {
    assert h[..i - 1] == h[..i][..i - 1] && h'[..i - 1] == h'[..i][..i - 1];
    assert h[i - 1] == h[..i][i - 1] && h'[i - 1] == h'[..i][i - 1];
  }

  lemma NextMeta(crc: Crc, h: Log, e: Entry)
    ensures var h', i := h + [e], |h| + 1;
            var ths := CheckThis(crc, i, e);
            var all := CheckAll(crc, Chain(crc, h), ths);
            && MetaOf(crc, h', i) == Meta(e.term, e.kind, Chain(crc, h), ths, all)
            && Chain(crc, h') == all
  {
    var h', i := h + [e], |h| + 1;
    hide CheckThis, CheckAll;
    assert h'[..i] == h' && h'[..i - 1] == h;
    assert Chain(crc, h') == CheckAll(crc, Chain(crc, h), CheckThis(crc, i, e));
  }

  lemma MetaParts(crc: Crc, h: Log, i: nat)
    requires 1 <= i <= |h|
    ensures var m := MetaOf(crc, h, i);
            m.Meta? && m.preChkAll == Chain(crc, h[..i - 1]) && m.chkAll == Chain(crc, h[..i])
  {
  }

  lemma ChainStep(crc: Crc, h: Log, i: nat)
    requires 1 <= i <= |h|
    ensures Chain(crc, h[..i]) == CheckAll(crc, Chain(crc, h[..i - 1]), CheckThis(crc, i, h[i - 1]))
  {
    assert h[..i][..i - 1] == h[..i - 1];
  }

  // ---------- what a checksum tells

  predicate Sized(index: nat, e: Entry) {
    index < U32 && e.term < U64 && |e.value| < U32
  }

  lemma CheckHead(index: nat, e: Entry)
    requires Sized(index, e)
    ensures var b := CheckBytes(index, e);
            && |b| >= 20 && Unfixed(b[..4]) == index && Unfixed(b[4..12]) == e.term
            && Unfixed(b[12..16]) == KindCode(e.kind) && Unfixed(b[16..20]) == index
            && b[20..] == EncodeString2(e.value)
  {
    hide EncodeVarint32, Fixed, Unfixed, Pow256;
    Widths();
    FixedRoundTrip(index, 4);
    FixedRoundTrip(e.term, 8);
    FixedRoundTrip(KindCode(e.kind), 4);
    var i, t, k := Fixed(index, 4), Fixed(e.term, 8), Fixed(KindCode(e.kind), 4);
    assert CheckBytes(index, e) == i + t + k + i + EncodeString2(e.value);
    FivePieces(i, t, k, i, EncodeString2(e.value));
  }

  lemma FivePieces(i: Bytes, t: Bytes, k: Bytes, j: Bytes, str: Bytes)
    requires |i| == 4 && |t| == 8 && |k| == 4 && |j| == 4
    ensures var b := i + t + k + j + str;
            && b[..4] == i && b[4..12] == t && b[12..16] == k && b[16..20] == j && b[20..] == str
  {
  }

  /** Of what a checksum is made, nothing of the entry and its place is left out. */
  lemma CheckBytesTell(i: nat, e: Entry, j: nat, f: Entry)
    requires Sized(i, e) && Sized(j, f) && CheckBytes(i, e) == CheckBytes(j, f)
    ensures i == j && e == f
  {
    hide CheckBytes, DecodeString2, EncodeString2;
    CheckHead(i, e);
    CheckHead(j, f);
    StringRoundTrip(e.value, []);
    StringRoundTrip(f.value, []);
    assert EncodeString2(e.value) + [] == EncodeString2(e.value);
    assert EncodeString2(f.value) + [] == EncodeString2(f.value);
  }

  lemma FixedTells(v: nat, w: nat)
    requires v < U32 && w < U32 && Fixed(v, 4) == Fixed(w, 4)
    ensures v == w
  {
    Widths();
    FixedRoundTrip(v, 4);
    FixedRoundTrip(w, 4);
  }

  lemma PairTells(a: nat, b: nat, c: nat, d: nat)
    requires a < U32 && b < U32 && c < U32 && d < U32
    requires Fixed(a, 4) + Fixed(b, 4) == Fixed(c, 4) + Fixed(d, 4)
    ensures a == c && b == d
  {
    hide Fixed;
    var l, r := Fixed(a, 4) + Fixed(b, 4), Fixed(c, 4) + Fixed(d, 4);
    assert l[..4] == Fixed(a, 4) && l[4..] == Fixed(b, 4) && r[..4] == Fixed(c, 4) && r[4..] == Fixed(d, 4);
    FixedTells(a, c);
    FixedTells(b, d);
  }

  ghost predicate Crc32Like(crc: Crc) {
    forall b :: crc.of(b) < U32
  }

  ghost predicate AllSized(h: Log) {
    forall k | 0 <= k < |h| :: Sized(k + 1, h[k])
  }

  lemma ChainIsSmall(crc: Crc, h: Log)
    requires Crc32Like(crc)
    ensures Chain(crc, h) < U32
  {
  }

  /** Two histories of one length that end in the same checksum are the same, or CRC-32 maps two different strings
      to one number. */
  lemma {:induction false} ChainTells(crc: Crc, h: Log, h': Log) returns (b: Bytes, b': Bytes)
    requires Crc32Like(crc) && AllSized(h) && AllSized(h') && |h| == |h'|
    requires h != h' && Chain(crc, h) == Chain(crc, h')
    ensures b != b' && crc.of(b) == crc.of(b')
    decreases |h|
  {
    hide CheckBytes, Fixed;
    var n := |h|;
    var most, most', last, last' := h[..n - 1], h'[..n - 1], h[n - 1], h'[n - 1];
    assert h == most + [last] && h' == most' + [last'];
    var pre, pre', ths, ths' := Chain(crc, most), Chain(crc, most'), CheckThis(crc, n, last), CheckThis(crc, n, last');
    b, b' := Fixed(pre, 4) + Fixed(ths, 4), Fixed(pre', 4) + Fixed(ths', 4);
    ChainIsSmall(crc, most);
    ChainIsSmall(crc, most');
    if b == b' {
      PairTells(pre, ths, pre', ths');
      if last == last' {
        b, b' := ChainTells(crc, most, most');
      } else {
        b, b' := CheckBytes(n, last), CheckBytes(n, last');
        if b == b' {
          CheckBytesTell(n, last, n, last');
        }
      }
    }
  }

  // ---------- what a log stands for

  /** Every entry since the beginning; how many at the front have been compacted away; the configuration the
      server was set up with, once it is stored. */
  datatype LogState = LogState(history: Log, cut: nat, firstConfig: Option<Bytes>)

  ghost predicate Sane(ls: LogState) {
    ls.cut <= |ls.history|
  }

  function First(ls: LogState): nat {
    if ls.cut >= |ls.history| then 0 else ls.cut + 1
  }

  function Last(ls: LogState): nat {
    if ls.cut >= |ls.history| then 0 else |ls.history|
  }

  predicate InWindow(ls: LogState, i: int) {
    ls.cut < i <= |ls.history|
  }

  predicate IsConfig(ls: LogState, i: int) {
    1 <= i <= |ls.history| && ls.history[i - 1].kind == Config
  }

  ghost function ConfigIndexes(ls: LogState): set<int> {
    (set i: int | 1 <= i <= |ls.history| && IsConfig(ls, i)) + (if ls.firstConfig.Some? then {0} else {})
  }

  /** The main store holds the window. */
  ghost predicate MainHolds(crc: Crc, db: Store, ls: LogState) {
    && 0 in db
    && (forall k | k in db :: k >= 0 && (k == 0 || InWindow(ls, IndexOfKey(k))))
    && (forall i: nat {:trigger InWindow(ls, i)} | InWindow(ls, i) :: EntryStored(crc, db, ls.history, i))
    && (ls.cut == |ls.history| ==> db[0] == Zero(|ls.history| + 1, Chain(crc, ls.history)))
  }

  ghost predicate EntryStored(crc: Crc, db: Store, h: Log, i: nat)
    requires 1 <= i <= |h|
  {
    && MetaKey(i) in db && db[MetaKey(i)] == MetaOf(crc, h, i)
    && DataKey(i) in db && db[DataKey(i)] == Value(h[i - 1].value)
  }

  /** The configuration store holds the first configuration and every configuration entry of the history. */
  ghost predicate ConfigHolds(crc: Crc, db: Store, ls: LogState) {
    && (0 in db <==> ls.firstConfig.Some?)
    && (0 in db ==> db[0] == Value(ls.firstConfig.value))
    && (forall k | k in db :: k >= 0 && (k == 0 || IsConfig(ls, IndexOfKey(k))))
    && (forall i: nat {:trigger IsConfig(ls, i)} | IsConfig(ls, i) :: EntryStored(crc, db, ls.history, i))
  }

  ghost predicate StoresHold(crc: Crc, db: Store, configDb: Store, ls: LogState) {
    Sane(ls) && MainHolds(crc, db, ls) && ConfigHolds(crc, configDb, ls)
  }

  /** The fields in memory say what the state says. */
  ghost predicate InMemory(crc: Crc, first: nat, last: nat, append: nat, checksum: nat, configs: set<int>,
                           ls: LogState) {
    && first == First(ls) && last == Last(ls)
    && append == |ls.history| + 1
    && checksum == Chain(crc, ls.history)
    && configs == ConfigIndexes(ls)
  }

  // ---------- what the operations mean

  function Appended(ls: LogState, e: Entry): LogState {
    ls.(history := ls.history + [e])
  }

  function DroppedFrom(ls: LogState, from: nat): LogState {
    if First(ls) == 0 || from > |ls.history| then ls
    else ls.(history := ls.history[..Max(from, First(ls)) - 1])
  }

  function DroppedUntil(ls: LogState, to: nat): LogState {
    if First(ls) == 0 || to < First(ls) then ls
    else ls.(cut := Min(to, |ls.history|))
  }

  // ---------- the pure half of the proofs

  lemma WindowGrows(ls: LogState, e: Entry)
    requires Sane(ls)
    ensures var ls' := Appended(ls, e);
            && Sane(ls') && ls'.history == ls.history + [e] && |ls'.history| == |ls.history| + 1
            && Last(ls') == |ls.history| + 1
            && First(ls') == (if First(ls) == 0 then |ls.history| + 1 else First(ls))
            && (First(ls) == 0 <==> Last(ls) == 0) && (Last(ls) != 0 ==> Last(ls) == |ls.history|)
  {
  }

  /** An entry stays stored as long as its two keys and the history up to it stay. */
  lemma StillStored(crc: Crc, db: Store, db': Store, h: Log, h': Log, i: nat)
    requires 1 <= i <= |h| && i <= |h'| && h[..i] == h'[..i] && EntryStored(crc, db, h, i)
    requires MetaKey(i) in db' && db'[MetaKey(i)] == db[MetaKey(i)]
    requires DataKey(i) in db' && db'[DataKey(i)] == db[DataKey(i)]
    ensures EntryStored(crc, db', h', i)
  {
    MetaStable(crc, h, h', i);
    assert h[i - 1] == h[..i][i - 1] && h'[i - 1] == h'[..i][i - 1];
  }

  /** A batch that writes both keys of an index. */
  function Put(db: Store, i: nat, meta: Cell, value: Bytes): Store {
    db[MetaKey(i) := meta][DataKey(i) := Value(value)]
  }

  /** The store with one more entry. */
  function WithEntry(crc: Crc, db: Store, h: Log, i: nat): Store
    requires 1 <= i <= |h|
  {
    Put(db, i, MetaOf(crc, h, i), h[i - 1].value)
  }

  lemma NewStored(crc: Crc, db: Store, h: Log, i: nat)
    requires 1 <= i <= |h|
    ensures EntryStored(crc, WithEntry(crc, db, h, i), h, i)
    ensures forall k | k in WithEntry(crc, db, h, i) :: k in db || (k > 0 && IndexOfKey(k) == i)
    ensures forall k | k in db && IndexOfKey(k) != i ::
              k in WithEntry(crc, db, h, i) && WithEntry(crc, db, h, i)[k] == db[k]
  {
  }

  /** An appended entry is stored beside the others. */
  lemma AppendStores(crc: Crc, db: Store, ls: LogState, e: Entry)
    requires Sane(ls) && MainHolds(crc, db, ls)
    ensures var ls' := Appended(ls, e);
            MainHolds(crc, WithEntry(crc, db, ls'.history, |ls'.history|), ls')
  {
    hide EntryStored, MetaOf, Chain, WithEntry;
    var ls', i := Appended(ls, e), |ls.history| + 1;
    var db' := WithEntry(crc, db, ls'.history, i);
    NewStored(crc, db, ls'.history, i);
    assert db'[0] == db[0];
    forall j: nat | InWindow(ls', j)
      ensures EntryStored(crc, db', ls'.history, j)
    {
      if j < i {
        assert InWindow(ls, j);
        KeptEntry(crc, db, db', ls.history, ls'.history, j, i);
      }
    }
  }

  lemma KeptEntry(crc: Crc, db: Store, db': Store, h: Log, h': Log, j: nat, i: nat)
    requires 1 <= j <= |h| && j <= |h'| && h[..j] == h'[..j] && EntryStored(crc, db, h, j) && j != i
    requires forall k | k in db && IndexOfKey(k) != i :: k in db' && db'[k] == db[k]
    ensures EntryStored(crc, db', h', j)
  {
    KeysInvert(j, 0);
    StillStored(crc, db, db', h, h', j);
  }

  /** A configuration entry goes to the configuration store too, any other does not. */
  lemma AppendConfigStores(crc: Crc, db: Store, ls: LogState, e: Entry)
    requires Sane(ls) && ConfigHolds(crc, db, ls)
    ensures var ls' := Appended(ls, e);
            && ConfigHolds(crc, if e.kind == Config then WithEntry(crc, db, ls'.history, |ls'.history|) else db, ls')
            && ConfigIndexes(ls') == ConfigIndexes(ls) + (if e.kind == Config then {|ls'.history|} else {})
  {
    hide EntryStored, MetaOf, Chain, WithEntry;
    var ls', i := Appended(ls, e), |ls.history| + 1;
    var db' := if e.kind == Config then WithEntry(crc, db, ls'.history, i) else db;
    NewStored(crc, db, ls'.history, i);
    forall j: int | j != i
      ensures IsConfig(ls', j) <==> IsConfig(ls, j)
    {
    }
    forall j: nat | IsConfig(ls', j)
      ensures EntryStored(crc, db', ls'.history, j)
    {
      if j < i {
        assert IsConfig(ls, j);
        KeptEntry(crc, db, db', ls.history, ls'.history, j, i);
      }
    }
  }

  /** k is one of the two keys of an index lo .. hi. */
  predicate KeyWithin(k: int, lo: nat, hi: int) {
    k > 0 && lo <= IndexOfKey(k) <= hi
  }

  /** The keys of an index are the two keys that belong to it. */
  lemma KeysOf(i: nat)
    requires i > 0
    ensures forall k :: KeyWithin(k, i, i) <==> k == MetaKey(i) || k == DataKey(i)
  {
  }

  /** Deleting the end of the window. */
  lemma DropFromStores(crc: Crc, db: Store, db': Store, ls: LogState, from: nat)
    requires Sane(ls) && MainHolds(crc, db, ls) && 0 < First(ls) <= from <= |ls.history|
    requires 0 in db' && forall k | k != 0 :: k in db' <==> k in db && !KeyWithin(k, from, |ls.history|)
    requires forall k | k != 0 && k in db' :: db'[k] == db[k]
    requires from == First(ls) ==> db'[0] == Zero(from, Chain(crc, ls.history[..from - 1]))
    ensures MainHolds(crc, db', DroppedFrom(ls, from)) && Sane(DroppedFrom(ls, from))
  {
    hide EntryStored, MetaOf, Chain;
    var ls' := DroppedFrom(ls, from);
    forall j: nat | InWindow(ls', j)
      ensures EntryStored(crc, db', ls'.history, j)
    {
      assert InWindow(ls, j);
      KeysInvert(j, 0);
      CutStored(crc, db, db', ls.history, ls'.history, j);
    }
  }

  lemma CutStored(crc: Crc, db: Store, db': Store, h: Log, h': Log, j: nat)
    requires 1 <= j <= |h| && j <= |h'| && h[..j] == h'[..j] && EntryStored(crc, db, h, j)
    requires MetaKey(j) in db ==> MetaKey(j) in db' && db'[MetaKey(j)] == db[MetaKey(j)]
    requires DataKey(j) in db ==> DataKey(j) in db' && db'[DataKey(j)] == db[DataKey(j)]
    ensures EntryStored(crc, db', h', j)
  {
    StillStored(crc, db, db', h, h', j);
  }

  lemma DropFromConfigStores(crc: Crc, db: Store, db': Store, ls: LogState, from: nat)
    requires Sane(ls) && ConfigHolds(crc, db, ls) && 0 < First(ls) <= from <= |ls.history|
    requires forall k :: k in db' <==>
               k in db && !(KeyWithin(k, from, |ls.history|) && IsConfig(ls, IndexOfKey(k)))
    requires forall k | k in db' :: db'[k] == db[k]
    ensures ConfigHolds(crc, db', DroppedFrom(ls, from))
    ensures ConfigIndexes(DroppedFrom(ls, from)) ==
            ConfigIndexes(ls) - set i: int | from <= i <= |ls.history| && IsConfig(ls, i)
  {
    hide EntryStored, MetaOf, Chain;
    var ls' := DroppedFrom(ls, from);
    forall j: int
      ensures IsConfig(ls', j) <==> IsConfig(ls, j) && j < from
    {
    }
    forall j: nat | IsConfig(ls', j)
      ensures EntryStored(crc, db', ls'.history, j)
    {
      assert IsConfig(ls, j);
      KeysInvert(j, 0);
      CutStored(crc, db, db', ls.history, ls'.history, j);
    }
  }

  lemma DropFromHolds(crc: Crc, db: Store, db': Store, configDb: Store, configDb': Store,
                      ls: LogState, from: nat, start: nat)
    requires StoresHold(crc, db, configDb, ls)
    requires 0 < First(ls) && start == Max(from, First(ls)) <= |ls.history|
    requires 0 in db' && forall k | k != 0 :: k in db' <==> k in db && !KeyWithin(k, start, |ls.history|)
    requires forall k | k != 0 && k in db' :: db'[k] == db[k]
    requires start == First(ls) ==> db'[0] == Zero(start, Chain(crc, ls.history[..start - 1]))
    requires forall k :: k in configDb' <==>
               k in configDb && !(KeyWithin(k, start, |ls.history|) && IndexOfKey(k) in ConfigIndexes(ls))
    requires forall k | k in configDb' :: configDb'[k] == configDb[k]
    ensures var ls' := DroppedFrom(ls, from);
            var emptied := start == First(ls);
            && StoresHold(crc, db', configDb', ls')
            && InMemory(crc, if emptied then 0 else First(ls), if emptied then 0 else start - 1, start,
                        Chain(crc, ls.history[..start - 1]),
                        (set i | i in ConfigIndexes(ls) && !(start <= i <= |ls.history|)), ls')
  {
    hide MainHolds, ConfigHolds, Chain, MetaOf;
    assert DroppedFrom(ls, from) == DroppedFrom(ls, start);
    DropFromStores(crc, db, db', ls, start);
    forall k | k in configDb && KeyWithin(k, start, |ls.history|)
      ensures IndexOfKey(k) in ConfigIndexes(ls) <==> IsConfig(ls, IndexOfKey(k))
    {
    }
    DropFromConfigStores(crc, configDb, configDb', ls, start);
  }

  /** Deleting the beginning of the window. */
  lemma DropUntilStores(crc: Crc, db: Store, db': Store, ls: LogState, to: nat)
    requires Sane(ls) && MainHolds(crc, db, ls) && 0 < First(ls) <= to <= |ls.history|
    requires 0 in db' && forall k | k != 0 :: k in db' <==> k in db && !KeyWithin(k, First(ls), to)
    requires forall k | k != 0 && k in db' :: db'[k] == db[k]
    requires to == |ls.history| ==> db'[0] == Zero(to + 1, Chain(crc, ls.history))
    ensures MainHolds(crc, db', DroppedUntil(ls, to)) && Sane(DroppedUntil(ls, to))
  {
    hide EntryStored, MetaOf, Chain;
    var ls' := DroppedUntil(ls, to);
    forall j: nat | InWindow(ls', j)
      ensures EntryStored(crc, db', ls'.history, j)
    {
      assert InWindow(ls, j);
      KeysInvert(j, 0);
      CutStored(crc, db, db', ls.history, ls'.history, j);
    }
  }

  lemma DropUntilHolds(crc: Crc, db: Store, db': Store, configDb: Store, ls: LogState, to: nat, end: nat)
    requires StoresHold(crc, db, configDb, ls)
    requires 0 < First(ls) <= to && end == Min(to, |ls.history|)
    requires 0 in db' && forall k | k != 0 :: k in db' <==> k in db && !KeyWithin(k, First(ls), end)
    requires forall k | k != 0 && k in db' :: db'[k] == db[k]
    requires end == |ls.history| ==> db'[0] == Zero(end + 1, Chain(crc, ls.history))
    ensures var ls' := DroppedUntil(ls, to);
            var emptied := end == |ls.history|;
            && StoresHold(crc, db', configDb, ls')
            && InMemory(crc, if emptied then 0 else end + 1, if emptied then 0 else |ls.history|, |ls.history| + 1,
                        Chain(crc, ls.history), ConfigIndexes(ls), ls')
  {
    hide MainHolds, ConfigHolds, Chain, MetaOf, ConfigIndexes;
    assert DroppedUntil(ls, to) == DroppedUntil(ls, end);
    DropUntilStores(crc, db, db', ls, end);
    ConfigUntouched(crc, configDb, ls, end);
  }

  lemma FirstConfigHolds(crc: Crc, db: Store, configDb: Store, ls: LogState, value: Bytes)
    requires StoresHold(crc, db, configDb, ls)
    ensures var ls' := ls.(firstConfig := Some(value));
            && StoresHold(crc, db, configDb[0 := Value(value)], ls')
            && ConfigIndexes(ls') == ConfigIndexes(ls) + {0}
            && First(ls') == First(ls) && Last(ls') == Last(ls)
  {
    hide MainHolds, ConfigHolds, ConfigIndexes;
    MainIgnoresConfig(crc, db, ls, value);
    SetFirstConfig(crc, configDb, ls, value);
  }

  lemma MainIgnoresConfig(crc: Crc, db: Store, ls: LogState, value: Bytes)
    requires Sane(ls) && MainHolds(crc, db, ls)
    ensures Sane(ls.(firstConfig := Some(value))) && MainHolds(crc, db, ls.(firstConfig := Some(value)))
  {
    hide EntryStored, Chain;
    var ls' := ls.(firstConfig := Some(value));
    assert forall i: int :: InWindow(ls', i) <==> InWindow(ls, i);
  }

  lemma SetFirstConfig(crc: Crc, db: Store, ls: LogState, value: Bytes)
    requires ConfigHolds(crc, db, ls)
    ensures var ls' := ls.(firstConfig := Some(value));
            ConfigHolds(crc, db[0 := Value(value)], ls') && ConfigIndexes(ls') == ConfigIndexes(ls) + {0}
  {
    hide EntryStored, Chain;
    var ls', db' := ls.(firstConfig := Some(value)), db[0 := Value(value)];
    assert forall i: int :: IsConfig(ls', i) <==> IsConfig(ls, i);
    forall j: nat | IsConfig(ls', j)
      ensures EntryStored(crc, db', ls'.history, j)
    {
      assert IsConfig(ls, j);
      StoredKeys(crc, db, ls.history, j);
      StillStored(crc, db, db', ls.history, ls.history, j);
    }
  }

  lemma StoredKeys(crc: Crc, db: Store, h: Log, i: nat)
    requires 1 <= i <= |h| && EntryStored(crc, db, h, i)
    ensures MetaKey(i) in db && DataKey(i) in db && MetaKey(i) != 0 && DataKey(i) != 0
  {
  }

  lemma ConfigUntouched(crc: Crc, db: Store, ls: LogState, cut: nat)
    requires ConfigHolds(crc, db, ls)
    ensures ConfigHolds(crc, db, ls.(cut := cut)) && ConfigIndexes(ls.(cut := cut)) == ConfigIndexes(ls)
  {
    hide EntryStored, MetaOf, Chain;
    var ls' := ls.(cut := cut);
    assert forall i: int :: IsConfig(ls', i) <==> IsConfig(ls, i);
  }

  /** All that appending does, with the new checksums computed from the last one. */
  lemma AppendHolds(crc: Crc, db: Store, configDb: Store, ls: LogState, e: Entry)
    requires StoresHold(crc, db, configDb, ls)
    ensures var ls', i := Appended(ls, e), |ls.history| + 1;
            var ths := CheckThis(crc, i, e);
            var all := CheckAll(crc, Chain(crc, ls.history), ths);
            var meta := Meta(e.term, e.kind, Chain(crc, ls.history), ths, all);
            && StoresHold(crc, Put(db, i, meta, e.value),
                          if e.kind == Config then Put(configDb, i, meta, e.value) else configDb, ls')
            && InMemory(crc, if First(ls) == 0 then i else First(ls), i, i + 1, all,
                        if e.kind == Config then ConfigIndexes(ls) + {i} else ConfigIndexes(ls), ls')
  {
    hide MainHolds, ConfigHolds, Chain, ConfigIndexes, CheckThis, CheckAll, MetaOf;
    WindowGrows(ls, e);
    NextMeta(crc, ls.history, e);
    AppendStores(crc, db, ls, e);
    AppendConfigStores(crc, configDb, ls, e);
  }

  // ---------- what a new process finds

  lemma MainEntry(crc: Crc, db: Store, ls: LogState, i: nat)
    requires MainHolds(crc, db, ls) && InWindow(ls, i)
    ensures EntryStored(crc, db, ls.history, i)
  {
    hide EntryStored, Chain;
  }

  lemma MainKey(crc: Crc, db: Store, ls: LogState, k: int)
    requires MainHolds(crc, db, ls)
    ensures k in db ==> k >= 0 && (k == 0 || InWindow(ls, IndexOfKey(k)))
    ensures 0 in db
  {
    hide EntryStored, Chain;
  }

  lemma ConfigEntryAt(crc: Crc, db: Store, ls: LogState, i: nat)
    requires ConfigHolds(crc, db, ls) && IsConfig(ls, i)
    ensures EntryStored(crc, db, ls.history, i)
  {
    hide EntryStored, Chain;
  }

  lemma ConfigKey(crc: Crc, db: Store, ls: LogState, k: int)
    requires ConfigHolds(crc, db, ls)
    ensures k in db ==> k >= 0 && (k == 0 || IsConfig(ls, IndexOfKey(k)))
    ensures 0 in db <==> ls.firstConfig.Some?
    ensures 0 in db ==> db[0] == Value(ls.firstConfig.value)
  {
    hide EntryStored, Chain;
  }

  lemma StoredCells(crc: Crc, db: Store, h: Log, i: nat)
    requires 1 <= i <= |h| && EntryStored(crc, db, h, i)
    ensures MetaKey(i) in db && db[MetaKey(i)] == MetaOf(crc, h, i)
    ensures DataKey(i) in db && db[DataKey(i)] == Value(h[i - 1].value)
  {
  }

  /** The keys of the main store are exactly 0 and the two keys of each index of the window. */
  lemma KeysExactly(crc: Crc, db: Store, ls: LogState, k: int)
    requires Sane(ls) && MainHolds(crc, db, ls)
    ensures k in db <==> k == 0 || KeyWithin(k, ls.cut + 1, |ls.history|)
  {
    hide Chain, MetaOf, MainHolds, EntryStored;
    MainKey(crc, db, ls, k);
    if KeyWithin(k, ls.cut + 1, |ls.history|) {
      var i := IndexOfKey(k);
      MainEntry(crc, db, ls, i);
      StoredCells(crc, db, ls.history, i);
      KeysOf(i);
    }
  }

  lemma WindowKeys(crc: Crc, db: Store, ls: LogState)
    requires Sane(ls) && MainHolds(crc, db, ls)
    ensures First(ls) == 0 ==> forall k | k in db :: k == 0
    ensures First(ls) > 0 ==>
              && DataKey(Last(ls)) in db && MetaKey(First(ls)) in db && MetaKey(Last(ls)) in db
              && db[MetaKey(Last(ls))] == MetaOf(crc, ls.history, |ls.history|)
              && forall k | k in db :: k <= DataKey(Last(ls)) && (k != 0 ==> k >= MetaKey(First(ls)))
  {
    hide Chain, MetaOf, MainHolds, EntryStored;
    forall k | k in db
      ensures k == 0 || KeyWithin(k, ls.cut + 1, |ls.history|)
    {
      KeysExactly(crc, db, ls, k);
    }
    if First(ls) > 0 {
      MainEntry(crc, db, ls, First(ls));
      MainEntry(crc, db, ls, Last(ls));
      StoredCells(crc, db, ls.history, First(ls));
      StoredCells(crc, db, ls.history, Last(ls));
    }
  }

  /** The keys of the configuration store name the configuration indexes. */
  lemma ConfigKeys(crc: Crc, db: Store, ls: LogState, k: int)
    requires ConfigHolds(crc, db, ls) && k in db
    ensures k >= 0 && IndexOfKey(k) in ConfigIndexes(ls) && IndexOfKey(k) <= |ls.history|
    ensures k > 0 ==> 1 <= IndexOfKey(k) && EntryStored(crc, db, ls.history, IndexOfKey(k))
  {
    hide Chain, MetaOf, EntryStored, ConfigHolds;
    ConfigKey(crc, db, ls, k);
    if k > 0 {
      ConfigEntryAt(crc, db, ls, IndexOfKey(k));
    }
  }

  lemma ConfigKeyOf(crc: Crc, db: Store, ls: LogState, i: int)
    requires ConfigHolds(crc, db, ls) && i in ConfigIndexes(ls)
    ensures i >= 0 && DataKey(i) in db && IndexOfKey(DataKey(i)) == i
  {
    hide Chain, MetaOf, EntryStored, ConfigHolds;
    ConfigKey(crc, db, ls, 0);
    if i != 0 {
      assert IsConfig(ls, i);
      ConfigEntryAt(crc, db, ls, i);
      StoredCells(crc, db, ls.history, i);
    }
  }

  // ---------- the range of the keys

  const MAX_KEY: int := 0x8000_0000

  predicate Small(keys: set<int>) {
    forall k | k in keys :: 0 <= k < MAX_KEY
  }

  lemma HasKey(keys: set<int>)
    requires keys != {}
    ensures exists k :: k in keys
  {
    if forall k :: k !in keys {
      assert false;
    }
  }

  // ---------- the last configuration

  /** i is the greatest configuration index and has this value and meta data. */
  ghost predicate IsLastConfig(crc: Crc, ls: LogState, i: nat, value: Bytes, meta: Cell) {
    && IsConfig(ls, i) && (forall j | IsConfig(ls, j) :: j <= i)
    && value == ls.history[i - 1].value && meta == MetaOf(crc, ls.history, i)
  }

  lemma ConfigKeysSmall(crc: Crc, db: Store, ls: LogState)
    requires ConfigHolds(crc, db, ls) && |ls.history| < MAX_INDEX
    ensures Small(db.Keys)
    ensures db.Keys == {} <==> ConfigIndexes(ls) == {}
  {
    hide Chain, MetaOf, EntryStored, ConfigHolds;
    forall k | k in db
      ensures 0 <= k < MAX_KEY && IndexOfKey(k) in ConfigIndexes(ls)
    {
      ConfigKeys(crc, db, ls, k);
    }
    forall i | i in ConfigIndexes(ls)
      ensures DataKey(i) in db.Keys
    {
      ConfigKeyOf(crc, db, ls, i);
    }
    if db.Keys != {} {
      HasKey(db.Keys);
    }
  }

  lemma LastConfigKey(crc: Crc, db: Store, ls: LogState, k: int)
    requires ConfigHolds(crc, db, ls) && k in db && forall x | x in db :: x <= k
    ensures k >= 0 && db[k].Value? && ConfigIndexes(ls) != {}
    ensures k == 0 <==> ConfigIndexes(ls) == {0}
    ensures k == 0 ==> ls.firstConfig == Some(db[k].value)
    ensures k > 0 ==> k - 1 in db && IsLastConfig(crc, ls, IndexOfKey(k), db[k].value, db[k - 1])
  {
    hide Chain, MetaOf, EntryStored, ConfigHolds;
    ConfigKeys(crc, db, ls, k);
    ConfigKey(crc, db, ls, k);
    ConfigKey(crc, db, ls, 0);
    forall i | i in ConfigIndexes(ls)
      ensures 0 <= DataKey(i) <= k
    {
      ConfigKeyOf(crc, db, ls, i);
    }
    if k > 0 {
      var i := IndexOfKey(k);
      StoredCells(crc, db, ls.history, i);
      forall j | IsConfig(ls, j)
        ensures j <= i
      {
        assert j in ConfigIndexes(ls);
      }
    }
  }

  // ---------- opening the stores

  lemma BlankHolds(crc: Crc)
    ensures StoresHold(crc, map[0 := Zero(1, 0)], map[], LogState([], 0, None))
  {
  }

  lemma MainOpened(crc: Crc, db: Store, configDb: Store, ls: LogState)
    requires StoresHold(crc, db, configDb, ls) && |ls.history| < MAX_INDEX
    ensures Small(db.Keys) && 0 in db.Keys
  {
    hide Chain, MetaOf, EntryStored, MainHolds, ConfigHolds;
    forall k | k in db
      ensures 0 <= k < MAX_KEY
    {
      MainKey(crc, db, ls, k);
    }
    MainKey(crc, db, ls, 0);
  }

  lemma EmptyCell(crc: Crc, db: Store, ls: LogState)
    requires Sane(ls) && MainHolds(crc, db, ls) && First(ls) == 0
    ensures 0 in db && db[0] == Zero(|ls.history| + 1, Chain(crc, ls.history))
  {
    hide EntryStored, Chain;
  }

  lemma GreatestKey(crc: Crc, db: Store, configDb: Store, ls: LogState, k: int)
    requires StoresHold(crc, db, configDb, ls) && k in db && forall x | x in db :: x <= k
    ensures k == 0 ==> First(ls) == 0 && Last(ls) == 0 && db[0] == Zero(|ls.history| + 1, Chain(crc, ls.history))
    ensures k != 0 ==> k > 0 && k % 2 == 0 && k / 2 == Last(ls) == |ls.history| && First(ls) > 0
    ensures k != 0 ==> MetaKey(k / 2) in db && db[MetaKey(k / 2)].Meta?
                       && db[MetaKey(k / 2)].chkAll == Chain(crc, ls.history)
  {
    hide Chain, MetaOf, EntryStored, MainHolds, ConfigHolds;
    WindowKeys(crc, db, ls);
    MainKey(crc, db, ls, k);
    if First(ls) == 0 {
      EmptyCell(crc, db, ls);
    } else {
      MetaParts(crc, ls.history, |ls.history|);
      assert ls.history[..|ls.history|] == ls.history;
    }
  }

  lemma LeastKey(crc: Crc, db: Store, configDb: Store, ls: LogState, least: int, next: int)
    requires StoresHold(crc, db, configDb, ls) && First(ls) > 0
    requires least in db && forall x | x in db :: least <= x
    requires next in db && next > least && forall x | x in db && x > least :: x >= next
    ensures least == 0 && next % 2 == 1 && (next + 1) / 2 == First(ls)
  {
    hide Chain, MetaOf, EntryStored, MainHolds, ConfigHolds;
    WindowKeys(crc, db, ls);
    MainKey(crc, db, ls, least);
    MainKey(crc, db, ls, next);
  }

  lemma Remembered(crc: Crc, first: nat, last: nat, append: nat, checksum: nat, ls: LogState)
    requires first == First(ls) && last == Last(ls)
    requires append == |ls.history| + 1 && checksum == Chain(crc, ls.history)
    ensures InMemory(crc, first, last, append, checksum, ConfigIndexes(ls), ls)
  {
  }

  lemma ConfigOpened(crc: Crc, db: Store, configDb: Store, ls: LogState)
    requires StoresHold(crc, db, configDb, ls) && |ls.history| < MAX_INDEX
    ensures Small(configDb.Keys)
    ensures ConfigIndexes(ls) == set x | x in configDb :: IndexOfKey(x)
  {
    hide Chain, MetaOf, EntryStored, MainHolds, ConfigHolds;
    ConfigKeysSmall(crc, configDb, ls);
    forall k | k in configDb
      ensures IndexOfKey(k) in ConfigIndexes(ls)
    {
      ConfigKeys(crc, configDb, ls, k);
    }
    forall i | i in ConfigIndexes(ls)
      ensures exists x :: x in configDb && IndexOfKey(x) == i
    {
      ConfigKeyOf(crc, configDb, ls, i);
    }
  }

  // ---------- runs of operations

  datatype Op = Append(e: Entry) | CutFrom(from: nat) | CompactTo(to: nat) | Configure(config: Bytes) | Reopen

  function Done(ls: LogState, op: Op): LogState {
    match op
    case Append(e) => Appended(ls, e)
    case CutFrom(from) => DroppedFrom(ls, from)
    case CompactTo(to) => DroppedUntil(ls, to)
    case Configure(value) => ls.(firstConfig := Some(value))
    case Reopen => ls
  }

  /** What a reader gets at an index. */
  function ReadAt(ls: LogState, i: nat): Option<Entry> {
    if InWindow(ls, i) then Some(ls.history[i - 1]) else None
  }

  /** What each operation does to the reader: an append adds one entry behind the last index that ever was, a cut
      takes away what is at its index and behind it, a compaction what is at its index and before it, and nothing
      else changes. An index that was compacted away is not given out again. */
  lemma OpsAndReaders(ls: LogState, op: Op, i: nat)
    requires Sane(ls)
    ensures var ls' := Done(ls, op);
            match op
            case Append(e) => ReadAt(ls', i) == (if i == |ls.history| + 1 then Some(e) else ReadAt(ls, i))
            case CutFrom(from) =>
              && ReadAt(ls', i) == (if i >= from then None else ReadAt(ls, i))
              && ls.cut <= |ls'.history| <= |ls.history|
            case CompactTo(to) =>
              ReadAt(ls', i) == (if i <= to then None else ReadAt(ls, i)) && ls'.history == ls.history
            case Configure(value) => ReadAt(ls', i) == ReadAt(ls, i) && ls'.firstConfig == Some(value)
            case Reopen => ls' == ls
  {
  }

  function Outcome(ls: LogState, ops: seq<Op>): LogState {
    if ops == [] then ls else Done(Outcome(ls, ops[..|ops| - 1]), ops[|ops| - 1])
  }

  lemma OneOp(ls: LogState, op: Op)
    ensures Outcome(ls, [op]) == Done(ls, op)
  {
    assert [op][..0] == [];
  }

  lemma RunNothing(ls: LogState, ops: seq<Op>)
    ensures Outcome(ls, ops[..0]) == ls
  {
  }

  lemma NextOp(ls: LogState, ops: seq<Op>, i: nat)
    requires i < |ops|
    ensures Outcome(ls, ops[..i + 1]) == Done(Outcome(ls, ops[..i]), ops[i])
  {
    assert ops[..i + 1][..i] == ops[..i];
  }

  lemma GrowsByOne(ls: LogState, op: Op)
    ensures |Done(ls, op).history| <= |ls.history| + 1
  {
  }

  function Appends(es: Log): seq<Op> {
    seq(|es|, i requires 0 <= i < |es| => Append(es[i]))
  }

  lemma {:induction false} AppendsAdd(ls: LogState, es: Log)
    ensures Outcome(ls, Appends(es)) == ls.(history := ls.history + es)
  {
    if es != [] {
      var most := es[..|es| - 1];
      assert Appends(es)[..|es| - 1] == Appends(most);
      AppendsAdd(ls, most);
      assert ls.history + es == (ls.history + most) + [es[|es| - 1]];
    }
  }

  lemma {:induction false} OutcomeSplit(ls: LogState, a: seq<Op>, b: seq<Op>)
    ensures Outcome(ls, a + b) == Outcome(Outcome(ls, a), b)
    decreases |b|
  {
    if b == [] {
      assert a + b == a;
    } else {
      assert (a + b)[..|a + b| - 1] == a + b[..|b| - 1];
      OutcomeSplit(ls, a, b[..|b| - 1]);
    }
  }

  /** To cut the log anywhere in its window and append the same entries again changes nothing at all. */
  lemma ReappendRestores(ls: LogState, from: nat)
    requires Sane(ls) && InWindow(ls, from)
    ensures Outcome(ls, [CutFrom(from)] + Appends(ls.history[from - 1..])) == ls
  {
    var tail := ls.history[from - 1..];
    var cut := Outcome(ls, [CutFrom(from)]);
    OneOp(ls, CutFrom(from));
    assert cut == ls.(history := ls.history[..from - 1]);
    OutcomeSplit(ls, [CutFrom(from)], Appends(tail));
    AppendsAdd(cut, tail);
    assert ls.history[..from - 1] + tail == ls.history;
  }

  // ---------- the checksums

  /** The stored checksums form a chain: each entry's is made of its predecessor's and its own. */
  lemma ChecksumsChain(crc: Crc, h: Log, i: nat)
    requires 1 <= i <= |h|
    ensures var m := MetaOf(crc, h, i);
            && m.chkAll == CheckAll(crc, m.preChkAll, m.chkThs)
            && m.preChkAll == (if i == 1 then 0 else MetaOf(crc, h, i - 1).chkAll)
  {
    ChainStep(crc, h, i);
  }
}
