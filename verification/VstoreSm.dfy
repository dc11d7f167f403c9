/** The key-value state machine (src/vstore/vstore_sm.cc): every applied entry is written in one batch with
    its index and term, under two reserved keys of the same store. */
module VstoreSms {
  import opened RaftTypes
  import opened Coding
  import opened RaftStep

  function Ascii(s: string): Bytes {
    seq(|s|, i requires 0 <= i < |s| => (s[i] as int % 256) as Byte)
  }

  const LAST_INDEX_KEY: Bytes := Ascii("VSTORE_LAST_INDEX_KEY")
  const LAST_TERM_KEY: Bytes := Ascii("VSTORE_LAST_TERM_KEY")

  lemma ReservedKeysDiffer()
    ensures LAST_INDEX_KEY != LAST_TERM_KEY && |LAST_INDEX_KEY| == 21
  {
    assert |LAST_INDEX_KEY| == 21 && |LAST_TERM_KEY| == 20;
  }

  // ---------- what an entry says

  datatype KV = KV(key: Bytes, value: Bytes)

  /** KV::ToString. */
  function KvBytes(kv: KV): Bytes
    requires |kv.key| < U32 && |kv.value| < U32
  {
    EncodeString2(kv.key) + EncodeString2(kv.value)
  }

  /** One string of KV::FromString: it, if it can be read, and the rest from where the claimed size leads. */
  function TakeString(b: Bytes): (Bytes, Bytes) {
    var s := DecodeString2(b);
    if 0 < s.claimed <= |b| then (s.result, b[s.claimed..]) else ([], b)
  }

  /** KV::FromString on a new object. */
  function KvOf(b: Bytes): KV {
    var (key, rest) := TakeString(b);
    KV(key, TakeString(rest).0)
  }

  /** A pair comes back from its encoding if the key is under 128 bytes; the value can be of any size. */
  lemma KvRoundTrip(kv: KV)
    requires |kv.key| < 128 && |kv.value| < I32 - 1
    ensures KvOf(KvBytes(kv)) == kv
  {
    hide DecodeString2, EncodeString2;
    var k, v := EncodeString2(kv.key), EncodeString2(kv.value);
    StringRoundTrip(kv.key, v);
    StringRoundTrip(kv.value, []);
    assert (k + v)[|k|..] == v;
    assert v + [] == v;
  }

  /** An encoded value survives being read one byte early, at `last`: an empty one unless the byte is 1, another
      one if its size and all its bytes are that byte. */
  predicate SurvivesEarly(value: Bytes, last: Byte) {
    if value == [] then last != 1
    else |value| == last as int && last < 128 && forall i | 0 <= i < |value| :: value[i] == last
  }

  /** Keys under 2^14 and values under 2^25 bytes come back exactly if the key is under 128 bytes, or the value
      survives being read from the last byte of the key. */
  lemma KvExactly(kv: KV)
    requires |kv.key| < 0x4000 && |kv.value| < 0x200_0000
    ensures KvOf(KvBytes(kv)) == kv <==>
            |kv.key| < 128 || SurvivesEarly(kv.value, kv.key[|kv.key| - 1])
  {
    hide KvOf, KvBytes, SurvivesEarly;
    if |kv.key| < 128 {
      KvRoundTrip(kv);
    } else {
      KvLongKeyExactly(kv);
    }
  }

  lemma KvLongKeyExactly(kv: KV)
    requires 128 <= |kv.key| < 0x4000 && |kv.value| < 0x200_0000
    ensures KvOf(KvBytes(kv)) == kv <==> SurvivesEarly(kv.value, kv.key[|kv.key| - 1])
  {
    hide DecodeString2, EncodeString2;
    var last := kv.key[|kv.key| - 1];
    var k, v := EncodeString2(kv.key), EncodeString2(kv.value);
    StringRoundTrip(kv.key, v);
    TwoByteLength(kv.key);
    assert (k + v)[1 + |kv.key|..] == [last] + v;
    EarlyValue(kv.value, last);
  }

  lemma TwoByteLength(key: Bytes)
    requires 128 <= |key| < 0x4000
    ensures |EncodeString2(key)| == 2 + |key|
    ensures EncodeString2(key)[1 + |key|..] == [key[|key| - 1]]
  {
    var head := EncodeVarint32(|key|);
    assert |head| == 2;
    assert (head + key)[1 + |key|..] == key[|key| - 1..];
  }

  /** What a decoder makes of an encoded value that it starts to read one byte early, at `last`. */
  lemma EarlyValue(value: Bytes, last: Byte)
    requires |value| < 0x200_0000
    ensures TakeString([last] + EncodeString2(value)).0 == value <==> SurvivesEarly(value, last)
  {
    if last < 128 {
      EarlyShort(value, last);
    } else {
      EarlyLong(value, last);
    }
  }

  lemma EarlyShort(value: Bytes, last: Byte)
    requires |value| < 0x200_0000 && last < 128
    ensures TakeString([last] + EncodeString2(value)).0 == value <==> SurvivesEarly(value, last)
  {
    hide ReadVarint, EncodeVarint32;
    var e := EncodeString2(value);
    EncoderLength(|value|);
    OneByteRead(last, e);
    Claim(last as nat);
    ShortLength(value);
    if 0 < |value| < 128 && |value| == last as int {
      ShiftedIsSame(value, last);
    }
  }

  /** A byte under 128 is a length of its own. */
  lemma OneByteRead(last: Byte, rest: Bytes)
    requires last < 128
    ensures ReadVarint32([last] + rest) == Got(last as nat, rest)
  {
    assert ([last] + rest)[1..] == rest;
  }

  lemma ShortLength(value: Bytes)
    requires |value| < U32
    ensures |value| < 128 ==> EncodeString2(value) == [|value| as Byte] + value
  {
  }

  /** The front of last followed by value is value again exactly if value repeats last. */
  lemma ShiftedIsSame(value: Bytes, last: Byte)
    requires value != []
    ensures ([last] + value)[..|value|] == value <==> forall i | 0 <= i < |value| :: value[i] == last
  {
    if ([last] + value)[..|value|] == value {
      forall i: nat | i < |value|
        ensures value[i] == last
      {
        Repeats(value, last, i);
      }
    }
  }

  lemma {:induction false} Repeats(value: Bytes, last: Byte, i: nat)
    requires i < |value| && ([last] + value)[..|value|] == value
    ensures value[i] == last
  {
    assert value[i] == ([last] + value)[..|value|][i] == ([last] + value)[i];
    if i > 0 {
      Repeats(value, last, i - 1);
    }
  }

  lemma EarlyLong(value: Bytes, last: Byte)
    requires |value| < 0x200_0000 && last >= 128
    ensures TakeString([last] + EncodeString2(value)).0 == []
  {
    hide Varint;
    var n, b := |value|, [last] + EncodeString2(value);
    EncoderIsVarint(n);
    FourBytes(n);
    ReadBack(n, value, 4);
    assert b[1..] == Varint(n) + value;
    assert ReadVarint(b, 5) == Got(last as nat % 128 + 128 * n, value);
    assert ReadVarint32(b) == Got(last as nat % 128 + 128 * n, value);
  }

  lemma FourBytes(n: nat)
    requires n < 0x200_0000
    ensures |Varint(n)| <= 4
  {
    EncoderIsVarint(n);
  }

  /** A pair that does not come back: a key of 128 zeros and the value [7]. */
  lemma LongKeyLosesValue()
    ensures var kv := KV(seq(128, _ => 0 as Byte), [7]); KvOf(KvBytes(kv)) != kv
  {
    KvExactly(KV(seq(128, _ => 0 as Byte), [7]));
  }

  // ---------- the store

  type Store = map<Bytes, Bytes>

  /** The batch of one applied entry, its three puts in order. */
  function Batch(db: Store, a: Applied): Store {
    var kv := KvOf(a.entry.value);
    db[LAST_INDEX_KEY := Fixed(a.index, 4)][LAST_TERM_KEY := Fixed(a.entry.term, 8)][kv.key := kv.value]
  }

  /** The store after a sequence of applied entries. */
  function StoreOf(sm: seq<Applied>): Store {
    if sm == [] then map[] else Batch(StoreOf(sm[..|sm| - 1]), sm[|sm| - 1])
  }

  /** A stored number, 0 if it was never stored, and None where the source's assertion on its size fails. */
  function Recorded(db: Store, key: Bytes, width: nat): Option<nat> {
    if key !in db then Some(0)
    else if |db[key]| != width then None
    else Some(Unfixed(db[key]))
  }

  /** The last index that the store records. */
  function RecordedIndex(db: Store): Option<nat> {
    Recorded(db, LAST_INDEX_KEY, 4)
  }

  function RecordedTerm(db: Store): Option<nat> {
    Recorded(db, LAST_TERM_KEY, 8)
  }

  /** The user's key of an applied entry. */
  function KeyOf(a: Applied): Bytes {
    KvOf(a.entry.value).key
  }

  class VstoreSm {
    var db: Store

    constructor ()
      ensures db == map[]
    {
      db := map[];
    }

    /** One batch: unless the user's key is a reserved one, the store records the entry's index and term; the
        user's key holds the user's value in any case, and no other key is touched. */
    method Apply(a: Applied)
      modifies this
      ensures db == Batch(old(db), a)
      ensures a.index < U32 && KeyOf(a) != LAST_INDEX_KEY ==> RecordedIndex(db) == Some(a.index)
      ensures a.entry.term < U64 && KeyOf(a) != LAST_TERM_KEY ==> RecordedTerm(db) == Some(a.entry.term)
      ensures KeyOf(a) in db && db[KeyOf(a)] == KvOf(a.entry.value).value
      ensures forall k | k != LAST_INDEX_KEY && k != LAST_TERM_KEY && k != KeyOf(a) ::
                (k in db <==> k in old(db)) && (k in db ==> db[k] == old(db)[k])
    {
      hide KvOf;
      ReservedKeysDiffer();
      Widths();
      if a.index < U32 {
        FixedRoundTrip(a.index, 4);
      }
      if a.entry.term < U64 {
        FixedRoundTrip(a.entry.term, 8);
      }
      var batch := db[LAST_INDEX_KEY := Fixed(a.index, 4)];
      batch := batch[LAST_TERM_KEY := Fixed(a.entry.term, 8)];
      var kv := KvOf(a.entry.value);
      batch := batch[kv.key := kv.value];
      db := batch;
    }

    method LastIndex() returns (index: Option<nat>)
      ensures index == RecordedIndex(db)
    {
      if LAST_INDEX_KEY in db {
        var value := db[LAST_INDEX_KEY];
        if |value| != 4 {
          return None;
        }
        index := Some(Unfixed(value));
      } else {
        index := Some(0);
      }
    }

    method LastTerm() returns (term: Option<nat>)
      ensures term == RecordedTerm(db)
    {
      if LAST_TERM_KEY in db {
        var value := db[LAST_TERM_KEY];
        if |value| != 8 {
          return None;
        }
        term := Some(Unfixed(value));
      } else {
        term := Some(0);
      }
    }

    method Get(key: Bytes) returns (value: Option<Bytes>)
      ensures value == if key in db then Some(db[key]) else None
    {
      value := if key in db then Some(db[key]) else None;
    }

    /** Applying entry after entry. */
    method ApplyAll(sm: seq<Applied>, more: seq<Applied>)
      requires db == StoreOf(sm)
      modifies this
      ensures db == StoreOf(sm + more)
    {
      hide Batch;
      var i := 0;
      assert sm + more[..0] == sm;
      while i < |more|
        invariant 0 <= i <= |more| && db == StoreOf(sm + more[..i])
      {
        var next := sm + more[..i + 1];
        assert next[..|next| - 1] == sm + more[..i] && next[|next| - 1] == more[i];
        Apply(more[i]);
        i := i + 1;
      }
      assert more[..i] == more;
    }
  }

  // ---------- what the store tells

  /** The value that the entry writes under the key, if it writes there. */
  predicate Writes(a: Applied, key: Bytes, value: Bytes) {
    KeyOf(a) == key ==> KvOf(a.entry.value).value == value
  }

  /** The store reports the last applied index exactly if the last entry writes nothing under the key reserved
      for it, or writes these same 4 bytes; it stops the process exactly if the last entry writes a value of
      another size there. What earlier entries wrote does not matter. */
  lemma LastIndexExactly(sm: seq<Applied>)
    requires sm != [] && sm[|sm| - 1].index < U32
    ensures var last := sm[|sm| - 1];
            && (RecordedIndex(StoreOf(sm)) == Some(last.index) <==> Writes(last, LAST_INDEX_KEY, Fixed(last.index, 4)))
            && (RecordedIndex(StoreOf(sm)) == None <==>
                KeyOf(last) == LAST_INDEX_KEY && |KvOf(last.entry.value).value| != 4)
  {
    hide KvOf;
    ReservedKeysDiffer();
    Widths();
    FixedRoundTrip(sm[|sm| - 1].index, 4);
    FixedOfUnfixed(KvOf(sm[|sm| - 1].entry.value).value);
  }

  /** The same for the last applied term, with 8 bytes. */
  lemma LastTermExactly(sm: seq<Applied>)
    requires sm != [] && sm[|sm| - 1].entry.term < U64
    ensures var last := sm[|sm| - 1];
            && (RecordedTerm(StoreOf(sm)) == Some(last.entry.term) <==>
                Writes(last, LAST_TERM_KEY, Fixed(last.entry.term, 8)))
            && (RecordedTerm(StoreOf(sm)) == None <==>
                KeyOf(last) == LAST_TERM_KEY && |KvOf(last.entry.value).value| != 8)
  {
    hide KvOf;
    ReservedKeysDiffer();
    Widths();
    FixedRoundTrip(sm[|sm| - 1].entry.term, 8);
    FixedOfUnfixed(KvOf(sm[|sm| - 1].entry.value).value);
  }

  /** A pair that a client puts under the key of the last index: whatever was applied before, the store then
      reports the number in the pair's value, or stops the process. */
  lemma ClientSetsIndex(sm: seq<Applied>, index: nat, term: nat, value: Bytes)
    requires |value| < I32 - 1
    ensures var entry := Entry(term, Data, KvBytes(KV(LAST_INDEX_KEY, value)));
            RecordedIndex(StoreOf(sm + [Applied(index, entry)])) == if |value| == 4 then Some(Unfixed(value)) else None
  {
    hide KvOf, KvBytes, LAST_INDEX_KEY, LAST_TERM_KEY;
    ReservedKeysDiffer();
    KvRoundTrip(KV(LAST_INDEX_KEY, value));
    var a := Applied(index, Entry(term, Data, KvBytes(KV(LAST_INDEX_KEY, value))));
    assert (sm + [a])[..|sm|] == sm;
  }

  /** At index 7 the one byte 7 stops the process, and the number 8 in 4 bytes is reported instead of 7. */
  lemma IndexMisreported(sm: seq<Applied>, term: nat)
    ensures var stops := Applied(7, Entry(term, Data, KvBytes(KV(LAST_INDEX_KEY, [7]))));
            RecordedIndex(StoreOf(sm + [stops])) == None
    ensures var lies := Applied(7, Entry(term, Data, KvBytes(KV(LAST_INDEX_KEY, [8, 0, 0, 0]))));
            RecordedIndex(StoreOf(sm + [lies])) == Some(8)
  {
    ClientSetsIndex(sm, 7, term, [7]);
    ClientSetsIndex(sm, 7, term, [8, 0, 0, 0]);
    assert Unfixed([8, 0, 0, 0]) == 8;
  }

  /** No entry writes under a reserved key. */
  predicate KeepsReserved(sm: seq<Applied>) {
    forall i | 0 <= i < |sm| :: KeyOf(sm[i]) != LAST_INDEX_KEY && KeyOf(sm[i]) != LAST_TERM_KEY
  }

  /** Position of the last entry that writes a key, or -1. */
  function LastWrite(sm: seq<Applied>, key: Bytes): (p: int)
    ensures -1 <= p < |sm|
  {
    if sm == [] then -1
    else if KeyOf(sm[|sm| - 1]) == key then |sm| - 1
    else LastWrite(sm[..|sm| - 1], key)
  }

  lemma {:induction false} LastWriteIs(sm: seq<Applied>, key: Bytes, i: nat)
    requires i < |sm|
    ensures LastWrite(sm, key) >= 0 ==> KeyOf(sm[LastWrite(sm, key)]) == key
    ensures KeyOf(sm[i]) == key ==> i <= LastWrite(sm, key)
  {
    hide KvOf, KeyOf;
    var most := sm[..|sm| - 1];
    if KeyOf(sm[|sm| - 1]) != key && |sm| > 1 {
      LastWriteIs(most, key, if i < |most| then i else 0);
    }
  }

  /** A key that is not reserved holds what the last entry that writes it says. */
  lemma {:induction false} UserKeyHolds(sm: seq<Applied>, key: Bytes)
    requires key != LAST_INDEX_KEY && key != LAST_TERM_KEY
    ensures var p := LastWrite(sm, key);
            && (key in StoreOf(sm) <==> p >= 0)
            && (p >= 0 ==> StoreOf(sm)[key] == KvOf(sm[p].entry.value).value)
  {
    hide KvOf;
    if sm != [] {
      UserKeyHolds(sm[..|sm| - 1], key);
    }
  }
}
