/** Log entries and append-entries messages on the wire (src/raft/raft_log.h, src/raft/append_entries.h). */
module Codec {
  import opened RaftTypes
  import opened Coding

  /** LogEntry with its checksums. */
  datatype WireEntry = WireEntry(index: nat, preChkAll: nat, chkThs: nat, chkAll: nat,
                                 term: nat, kind: EntryType, value: Bytes)

  datatype WireMessage = WireMessage(src: nat, dest: nat, term: nat, uid: nat, sendTs: nat, elapse: nat,
                                     preLogIndex: nat, preLogTerm: nat, commitIndex: nat,
                                     entries: seq<WireEntry>)

  // ---------- runs of fixed-width fields

  datatype Field = Field(value: nat, width: nat)

  function Fields(fs: seq<Field>): Bytes {
    if fs == [] then [] else Fixed(fs[0].value, fs[0].width) + Fields(fs[1..])
  }

  function Sum(widths: seq<nat>): nat {
    if widths == [] then 0 else widths[0] + Sum(widths[1..])
  }

  function ReadFields(b: Bytes, widths: seq<nat>): (vs: seq<nat>)
    requires |b| >= Sum(widths)
    ensures |vs| == |widths|
  {
    if widths == [] then []
    else [Unfixed(b[..widths[0]])] + ReadFields(b[widths[0]..], widths[1..])
  }

  function Values(fs: seq<Field>): seq<nat> {
    seq(|fs|, i requires 0 <= i < |fs| => fs[i].value)
  }

  function WidthsOf(fs: seq<Field>): seq<nat> {
    seq(|fs|, i requires 0 <= i < |fs| => fs[i].width)
  }

  ghost predicate Fitting(fs: seq<Field>) {
    forall i | 0 <= i < |fs| :: fs[i].value < Pow256(fs[i].width)
  }

  lemma Peel(front: Bytes, back: Bytes)
    ensures (front + back)[..|front|] == front && (front + back)[|front|..] == back
  {
  }

  lemma Tails(fs: seq<Field>)
    requires fs != []
    ensures |WidthsOf(fs)| == |fs| && WidthsOf(fs)[0] == fs[0].width && WidthsOf(fs)[1..] == WidthsOf(fs[1..])
    ensures Values(fs) == [fs[0].value] + Values(fs[1..])
  {
  }

  lemma NoFields()
    ensures WidthsOf([]) == [] && Values([]) == []
  {
  }

  lemma {:induction false} FieldsRoundTrip(fs: seq<Field>, rest: Bytes)
    requires Fitting(fs)
    ensures |Fields(fs)| == Sum(WidthsOf(fs))
    ensures ReadFields(Fields(fs) + rest, WidthsOf(fs)) == Values(fs)
  {
    hide Fixed, Unfixed, Pow256, Values, WidthsOf;
    if fs == [] {
      NoFields();
    } else {
      var head, tail := Fixed(fs[0].value, fs[0].width), Fields(fs[1..]) + rest;
      FieldsRoundTrip(fs[1..], rest);
      FixedRoundTrip(fs[0].value, fs[0].width);
      assert Fields(fs) + rest == head + tail;
      Tails(fs);
      Peel(head, tail);
    }
  }

  // ---------- one entry

  /** U32ToEntryType, which stops on any other number. */
  function KindOf(code: nat): Option<EntryType> {
    if code == 0 then Some(Unknown) else if code == 1 then Some(Data)
    else if code == 2 then Some(Noop) else if code == 3 then Some(Config)
    else None
  }

  const ENTRY_WIDTHS: seq<nat> := [4, 4, 4, 8, 4]
  const ENTRY_HEAD: nat := 24

  function EntryFields(e: WireEntry): seq<Field> {
    [Field(e.index, 4), Field(e.chkThs, 4), Field(e.chkAll, 4), Field(e.term, 8), Field(KindCode(e.kind), 4)]
  }

  /** LogEntry::ToString. */
  function EntryBytes(e: WireEntry): Bytes
    requires |e.value| < U32
  {
    Fields(EntryFields(e)) + EncodeString2(e.value)
  }

  datatype EntryRead = EntryRead(claimed: int, entry: WireEntry) | Failed

  lemma EntryWidths()
    ensures Sum(ENTRY_WIDTHS) == ENTRY_HEAD
  {
    assert ENTRY_WIDTHS[1..] == [4, 4, 8, 4] && [4, 4, 8, 4][1..] == [4, 8, 4];
    assert [4, 8, 4][1..] == [8, 4] && [8, 4][1..] == [4];
    assert Sum([4]) == 4 && Sum([8, 4]) == 12 && Sum([4, 8, 4]) == 16;
  }

  lemma EntryLayout(e: WireEntry)
    ensures WidthsOf(EntryFields(e)) == ENTRY_WIDTHS
    ensures Values(EntryFields(e)) == [e.index, e.chkThs, e.chkAll, e.term, KindCode(e.kind)]
  {
  }

  /** The string field of an entry, in the window that LogEntry::FromString opens for it. */
  function Window(mem: Bytes, len: int): Bytes
    requires |mem| >= ENTRY_HEAD
  {
    var room := if 0 <= len - 12 <= |mem| - ENTRY_HEAD then len - 12 else |mem| - ENTRY_HEAD;
    mem[ENTRY_HEAD..ENTRY_HEAD + room]
  }

  lemma WindowHolds(head: Bytes, str: Bytes, rest: Bytes, len: int) returns (tail: Bytes)
    requires |head| == ENTRY_HEAD && ENTRY_HEAD + |str| <= len
    ensures Window(head + (str + rest), len) == str + tail
  {
    var mem := head + (str + rest);
    var room := if 0 <= len - 12 <= |mem| - ENTRY_HEAD then len - 12 else |mem| - ENTRY_HEAD;
    tail := rest[..room - |str|];
    assert mem[ENTRY_HEAD..] == str + rest;
    assert mem[ENTRY_HEAD..ENTRY_HEAD + room] == mem[ENTRY_HEAD..][..room];
    assert (str + rest)[..room] == str + tail;
  }

  /** LogEntry::FromString on an object whose pre_chk_all holds `junk`: mem is the memory from the pointer on,
      to where it can be read. The string may reach as far as len - 12 bytes past the fixed fields. */
  function DecodeEntry(mem: Bytes, len: int, junk: nat): EntryRead {
    EntryWidths();
    if |mem| < ENTRY_HEAD then Failed
    else
      var vs := ReadFields(mem, ENTRY_WIDTHS);
      match KindOf(vs[4])
      case None => Failed
      case Some(kind) =>
        var s := DecodeString2(Window(mem, len));
        if s.claimed <= 0 then Failed
        else EntryRead(ENTRY_HEAD + s.claimed, WireEntry(vs[0], junk, vs[1], vs[2], vs[3], kind, s.result))
  }

  predicate EntryInRange(e: WireEntry) {
    && e.index < U32 && e.chkThs < U32 && e.chkAll < U32 && e.term < U64
    && |e.value| < I32 - 64
  }

  /** Decoding an encoded entry, whatever follows it, gives every field but pre_chk_all, which is not
      encoded; the claimed size is the encoded size exactly for values under 128 bytes. */
  lemma EntryRoundTrip(e: WireEntry, rest: Bytes, len: int, junk: nat)
    requires EntryInRange(e) && |EntryBytes(e)| <= len
    ensures var r := DecodeEntry(EntryBytes(e) + rest, len, junk);
            && r.EntryRead? && r.entry == e.(preChkAll := junk)
            && r.claimed == 25 + |e.value|
            && (r.claimed == |EntryBytes(e)| <==> |e.value| < 128)
    ensures 25 + |e.value| <= |EntryBytes(e)| <= 29 + |e.value|
  {
    EntryWidths();
    Widths();
    EntryLayout(e);
    var fs, str := EntryFields(e), EncodeString2(e.value);
    var mem := EntryBytes(e) + rest;
    FieldsRoundTrip(fs, str + rest);
    assert mem == Fields(fs) + (str + rest);
    var tail := WindowHolds(Fields(fs), str, rest, len);
    StringRoundTrip(e.value, tail);
    hide Fields, ReadFields, DecodeString2, EncodeString2, Window, Values, WidthsOf, EntryFields;
  }

  // ---------- whole messages

  const HEADER_WIDTHS: seq<nat> := [8, 8, 8, 4, 8, 8, 4, 8, 4, 4]
  const HEADER: nat := 64

  function HeaderFields(m: WireMessage): seq<Field> {
    [Field(m.src, 8), Field(m.dest, 8), Field(m.term, 8), Field(m.uid, 4), Field(m.sendTs, 8), Field(m.elapse, 8),
     Field(m.preLogIndex, 4), Field(m.preLogTerm, 8), Field(m.commitIndex, 4), Field(|m.entries|, 4)]
  }

  function EntriesBytes(es: seq<WireEntry>): Bytes
    requires forall i | 0 <= i < |es| :: |es[i].value| < U32
  {
    if es == [] then [] else EntryBytes(es[0]) + EntriesBytes(es[1..])
  }

  function MessageBytes(m: WireMessage): Bytes
    requires forall i | 0 <= i < |m.entries| :: |m.entries[i].value| < U32
  {
    Fields(HeaderFields(m)) + EntriesBytes(m.entries)
  }

  /** AppendEntries::ToString. */
  method ToString(m: WireMessage) returns (s: Bytes)
    requires forall i | 0 <= i < |m.entries| :: |m.entries[i].value| < U32
    ensures s == MessageBytes(m)
  {
    s := Fields(HeaderFields(m));
    var i := 0;
    while i < |m.entries|
      invariant 0 <= i <= |m.entries|
      invariant s + EntriesBytes(m.entries[i..]) == MessageBytes(m)
    {
      assert m.entries[i..][0] == m.entries[i] && m.entries[i..][1..] == m.entries[i + 1..];
      s := s + EntryBytes(m.entries[i]);
      i := i + 1;
    }
    assert s + [] == s;
  }

  /** AppendEntries::MaxBytes: the size of the buffer that ToString fills. */
  method MaxBytes(m: WireMessage) returns (size: nat)
    requires forall i | 0 <= i < |m.entries| :: |m.entries[i].value| < U32
    ensures |MessageBytes(m)| + 4 + 7 * |m.entries| <= size <= |MessageBytes(m)| + 4 + 11 * |m.entries|
  {
    hide EntryBytes, HeaderFields;
    HeaderLayout(m);
    size := 60 + 8;
    var i := 0;
    while i < |m.entries|
      invariant 0 <= i <= |m.entries|
      invariant 4 + 7 * i <= size + |EntriesBytes(m.entries[i..])| - |MessageBytes(m)| <= 4 + 11 * i
    {
      assert m.entries[i..][0] == m.entries[i] && m.entries[i..][1..] == m.entries[i + 1..];
      EntrySize(m.entries[i]);
      size := size + 4 + 4 + 4 + 4 + 8 + 4 + 8 + |m.entries[i].value|;
      i := i + 1;
    }
  }

  lemma EntrySize(e: WireEntry)
    requires |e.value| < U32
    ensures 25 + |e.value| <= |EntryBytes(e)| <= 29 + |e.value|
  {
    EntryWidths();
    EntryLayout(e);
    FieldsSize(EntryFields(e));
  }

  lemma {:induction false} FieldsSize(fs: seq<Field>)
    ensures |Fields(fs)| == Sum(WidthsOf(fs))
  {
    if fs != [] {
      FieldsSize(fs[1..]);
      Tails(fs);
    }
  }

  lemma HeaderLayout(m: WireMessage)
    ensures WidthsOf(HeaderFields(m)) == HEADER_WIDTHS
    ensures Values(HeaderFields(m)) ==
            [m.src, m.dest, m.term, m.uid, m.sendTs, m.elapse, m.preLogIndex, m.preLogTerm, m.commitIndex,
             |m.entries|]
    ensures |Fields(HeaderFields(m))| == Sum(HEADER_WIDTHS) == HEADER
  {
    FieldsSize(HeaderFields(m));
    HeaderWidths();
  }

  // ---------- where the fields are

  function Offset(fs: seq<Field>, i: nat): nat
    requires i <= |fs|
  {
    if i == 0 then 0 else fs[0].width + Offset(fs[1..], i - 1)
  }

  lemma {:induction false} FieldAt(fs: seq<Field>, rest: Bytes, i: nat)
    requires i < |fs|
    ensures var b, at := Fields(fs) + rest, Offset(fs, i);
            at + fs[i].width <= |Fields(fs)| && b[at..at + fs[i].width] == Fixed(fs[i].value, fs[i].width)
    decreases i
  {
    hide Fixed;
    var head := Fixed(fs[0].value, fs[0].width);
    assert Fields(fs) + rest == head + (Fields(fs[1..]) + rest);
    if i > 0 {
      FieldAt(fs[1..], rest, i - 1);
    }
  }

  lemma OffsetStep(fs: seq<Field>, i: nat)
    requires i < |fs|
    ensures Offset(fs, i + 1) == Offset(fs, i) + fs[i].width
  {
    if i > 0 {
      OffsetStep(fs[1..], i - 1);
    }
  }

  /** The fixed fields of a message are little-endian numbers of 8 or 4 bytes, in this order, and the entries
      follow. */
  lemma MessageLayout(m: WireMessage)
    requires forall i | 0 <= i < |m.entries| :: |m.entries[i].value| < U32
    ensures var b := MessageBytes(m);
            && |b| >= 64
            && b[0..8] == Fixed(m.src, 8) && b[8..16] == Fixed(m.dest, 8) && b[16..24] == Fixed(m.term, 8)
            && b[24..28] == Fixed(m.uid, 4) && b[28..36] == Fixed(m.sendTs, 8) && b[36..44] == Fixed(m.elapse, 8)
            && b[44..48] == Fixed(m.preLogIndex, 4) && b[48..56] == Fixed(m.preLogTerm, 8)
            && b[56..60] == Fixed(m.commitIndex, 4) && b[60..64] == Fixed(|m.entries|, 4)
            && b[64..] == EntriesBytes(m.entries)
  {
    hide Fixed, Fields, EntriesBytes, Offset, WidthsOf, Values;
    HeaderLayout(m);
    var fs, rest := HeaderFields(m), EntriesBytes(m.entries);
    FirstOffset(fs);
    forall i: nat | i < 10
      ensures Offset(fs, i + 1) == Offset(fs, i) + fs[i].width
    {
      OffsetStep(fs, i);
    }
    assert Offset(fs, 1) == 8 && Offset(fs, 2) == 16 && Offset(fs, 3) == 24 && Offset(fs, 4) == 28;
    assert Offset(fs, 5) == 36 && Offset(fs, 6) == 44 && Offset(fs, 7) == 48 && Offset(fs, 8) == 56;
    assert Offset(fs, 9) == 60;
    forall i: nat | i < 10
      ensures Offset(fs, i) + fs[i].width <= |Fields(fs)|
      ensures MessageBytes(m)[Offset(fs, i)..Offset(fs, i) + fs[i].width] == Fixed(fs[i].value, fs[i].width)
    {
      FieldAt(fs, rest, i);
    }
    Peel(Fields(fs), rest);
  }

  lemma FirstOffset(fs: seq<Field>)
    ensures Offset(fs, 0) == 0
  {
  }

  /** The same for the fields of an entry; its value follows with its length. */
  lemma EntryBytesLayout(e: WireEntry)
    requires |e.value| < U32
    ensures var b := EntryBytes(e);
            && |b| >= 24
            && b[0..4] == Fixed(e.index, 4) && b[4..8] == Fixed(e.chkThs, 4) && b[8..12] == Fixed(e.chkAll, 4)
            && b[12..20] == Fixed(e.term, 8) && b[20..24] == Fixed(KindCode(e.kind), 4)
            && b[24..] == EncodeString2(e.value)
  {
    hide Fixed, Fields, EncodeString2, Offset, WidthsOf, Values;
    EntryWidths();
    EntryLayout(e);
    FieldsSize(EntryFields(e));
    var fs, rest := EntryFields(e), EncodeString2(e.value);
    FirstOffset(fs);
    forall i: nat | i < 5
      ensures Offset(fs, i + 1) == Offset(fs, i) + fs[i].width
    {
      OffsetStep(fs, i);
    }
    assert Offset(fs, 1) == 4 && Offset(fs, 2) == 8 && Offset(fs, 3) == 12 && Offset(fs, 4) == 20;
    forall i: nat | i < 5
      ensures Offset(fs, i) + fs[i].width <= |Fields(fs)|
      ensures EntryBytes(e)[Offset(fs, i)..Offset(fs, i) + fs[i].width] == Fixed(fs[i].value, fs[i].width)
    {
      FieldAt(fs, rest, i);
    }
    Peel(Fields(fs), rest);
  }

  lemma HeaderWidths()
    ensures Sum(HEADER_WIDTHS) == HEADER
  {
    var w := HEADER_WIDTHS;
    assert Sum(w) == 8 + Sum(w[1..]) && Sum(w[1..]) == 8 + Sum(w[2..]) && Sum(w[2..]) == 8 + Sum(w[3..]);
    assert Sum(w[3..]) == 4 + Sum(w[4..]) && Sum(w[4..]) == 8 + Sum(w[5..]) && Sum(w[5..]) == 8 + Sum(w[6..]);
    assert Sum(w[6..]) == 4 + Sum(w[7..]) && Sum(w[7..]) == 8 + Sum(w[8..]) && Sum(w[8..]) == 4 + Sum(w[9..]);
    assert Sum(w[9..]) == 4 + Sum(w[10..]);
  }

  /** The entries read so far, the bytes claimed for them, and what the length counter says. */
  datatype EntriesRead = EntriesRead(claimed: int, entries: seq<WireEntry>, len: int) | NoEntries

  function DecodeEntries(mem: Bytes, len: int, n: nat, junk: nat): EntriesRead {
    if n == 0 then EntriesRead(0, [], len)
    else
      match DecodeEntry(mem, len, junk)
      case Failed => NoEntries
      case EntryRead(c, e) =>
        if c < 0 || c > |mem| then NoEntries
        else Prefixed(c, [e], DecodeEntries(mem[c..], len - c, n - 1, junk))
  }

  /** r, with what was read before it. */
  function Prefixed(claimed: int, entries: seq<WireEntry>, r: EntriesRead): EntriesRead {
    match r
    case NoEntries => NoEntries
    case EntriesRead(c, es, left) => EntriesRead(claimed + c, entries + es, left)
  }

  lemma PrefixedTwice(c1: int, es1: seq<WireEntry>, c2: int, es2: seq<WireEntry>, r: EntriesRead)
    ensures Prefixed(c1, es1, Prefixed(c2, es2, r)) == Prefixed(c1 + c2, es1 + es2, r)
    ensures Prefixed(0, [], r) == r
  {
    if r.EntriesRead? {
      assert es1 + (es2 + r.entries) == es1 + es2 + r.entries;
      assert [] + r.entries == r.entries;
    }
  }

  lemma PrefixedLast(claimed: int, entries: seq<WireEntry>, left: int)
    ensures Prefixed(claimed, entries, EntriesRead(0, [], left)) == EntriesRead(claimed, entries, left)
    ensures Prefixed(claimed, entries, NoEntries) == NoEntries
  {
  }

  datatype MessageRead = MessageRead(claimed: int, message: WireMessage) | NoMessage

  /** AppendEntries::FromString on a new object; NoMessage stands for a failed assertion. The length counter
      leaves out the 16 bytes of send_ts and elapse. */
  function DecodeMessage(mem: Bytes, len: int, junk: nat): MessageRead {
    HeaderWidths();
    if |mem| < HEADER then NoMessage
    else
      var v := ReadFields(mem, HEADER_WIDTHS);
      var n := ToI32(v[9]);
      Assembled(v, DecodeEntries(mem[HEADER..], len - 48, if n < 0 then 0 else n, junk))
  }

  function Assembled(v: seq<nat>, r: EntriesRead): MessageRead
    requires |v| == 10
  {
    match r
    case NoEntries => NoMessage
    case EntriesRead(c, es, left) =>
      if left < 0 then NoMessage
      else MessageRead(HEADER + c, WireMessage(v[0], v[1], v[2], v[3], v[4], v[5], v[6], v[7], v[8], es))
  }

  lemma EntriesStep(mem: Bytes, len: int, n: nat, junk: nat)
    requires n > 0
    ensures var e := DecodeEntry(mem, len, junk);
            DecodeEntries(mem, len, n, junk) ==
              if e.Failed? || e.claimed < 0 || e.claimed > |mem| then NoEntries
              else Prefixed(e.claimed, [e.entry], DecodeEntries(mem[e.claimed..], len - e.claimed, n - 1, junk))
    ensures DecodeEntries(mem, len, 0, junk) == EntriesRead(0, [], len)
  {
  }

  /** The loop of AppendEntries::FromString. */
  method ReadEntries(mem: Bytes, len: int, n: nat, junk: nat) returns (r: EntriesRead)
    ensures r == DecodeEntries(mem, len, n, junk)
  {
    hide DecodeEntry, DecodeEntries, Prefixed;
    var p, len2, entries, i := 0, len, [], 0;
    PrefixedTwice(0, [], 0, [], DecodeEntries(mem, len, n, junk));
    assert mem[0..] == mem;
    while i < n
      invariant 0 <= p <= |mem| && 0 <= i <= n
      invariant DecodeEntries(mem, len, n, junk) ==
                Prefixed(p, entries, DecodeEntries(mem[p..], len2, n - i, junk))
    {
      var e := DecodeEntry(mem[p..], len2, junk);
      EntriesStep(mem[p..], len2, n - i, junk);
      if e.Failed? || e.claimed < 0 || e.claimed > |mem| - p {
        PrefixedLast(p, entries, len2);
        return NoEntries;
      }
      assert mem[p..][e.claimed..] == mem[p + e.claimed..];
      PrefixedTwice(p, entries, e.claimed, [e.entry],
                    DecodeEntries(mem[p + e.claimed..], len2 - e.claimed, n - i - 1, junk));
      entries := entries + [e.entry];
      p, len2, i := p + e.claimed, len2 - e.claimed, i + 1;
    }
    EntriesStep(mem[p..], len2, 1, junk);
    PrefixedLast(p, entries, len2);
    return EntriesRead(p, entries, len2);
  }

  method FromString(mem: Bytes, len: int, junk: nat) returns (r: MessageRead)
    ensures r == DecodeMessage(mem, len, junk)
  {
    HeaderWidths();
    if |mem| < HEADER {
      return NoMessage;
    }
    var v := ReadFields(mem, HEADER_WIDTHS);
    var n := ToI32(v[9]);
    var es := ReadEntries(mem[HEADER..], len - 48, if n < 0 then 0 else n, junk);
    r := Assembled(v, es);
  }

  // ---------- what comes back

  /** The message as far as it is encoded: pre_chk_all is not. */
  function Encoded(m: WireMessage, junk: nat): WireMessage {
    m.(entries := EncodedEntries(m.entries, junk))
  }

  function EncodedEntries(es: seq<WireEntry>, junk: nat): seq<WireEntry> {
    seq(|es|, i requires 0 <= i < |es| => es[i].(preChkAll := junk))
  }

  predicate AllInRange(es: seq<WireEntry>) {
    forall i | 0 <= i < |es| :: |es[i].value| < U32 && EntryInRange(es[i])
  }

  predicate InRange(m: WireMessage) {
    && m.src < U64 && m.dest < U64 && m.term < U64 && m.uid < U32 && m.sendTs < U64 && m.elapse < U64
    && m.preLogIndex < U32 && m.preLogTerm < U64 && m.commitIndex < U32
    && |m.entries| < I32
    && AllInRange(m.entries)
  }

  /** Every value, except perhaps the last, is under 128 bytes. */
  predicate ShortButLast(es: seq<WireEntry>) {
    forall i | 0 <= i < |es| - 1 :: |es[i].value| < 128
  }

  predicate Short(es: seq<WireEntry>) {
    forall i | 0 <= i < |es| :: |es[i].value| < 128
  }

  lemma {:induction false} EntriesRoundTrip(es: seq<WireEntry>, rest: Bytes, len: int, junk: nat)
    requires AllInRange(es)
    requires ShortButLast(es) && |EntriesBytes(es)| <= len
    ensures var r := DecodeEntries(EntriesBytes(es) + rest, len, |es|, junk);
            && r.EntriesRead? && r.entries == EncodedEntries(es, junk)
            && r.len == len - r.claimed
            && 0 <= r.claimed <= |EntriesBytes(es)|
            && (r.claimed == |EntriesBytes(es)| <==> Short(es))
  {
    hide DecodeEntry, EntryBytes;
    if es != [] {
      var head, tail := EntryBytes(es[0]), EntriesBytes(es[1..]) + rest;
      EntrySize(es[0]);
      EntryRoundTrip(es[0], tail, len, junk);
      assert EntriesBytes(es) + rest == head + tail;
      Peel(head, tail);
      if |es| == 1 {
        EntriesStep(head + tail, len, 1, junk);
      } else {
        EntriesRoundTrip(es[1..], rest, len - |head|, junk);
      }
      assert EncodedEntries(es, junk) == [es[0].(preChkAll := junk)] + EncodedEntries(es[1..], junk);
    }
  }

  lemma HeaderRoundTrip(m: WireMessage, rest: Bytes)
    requires InRange(m)
    ensures |Fields(HeaderFields(m))| == HEADER == Sum(HEADER_WIDTHS)
    ensures ReadFields(Fields(HeaderFields(m)) + rest, HEADER_WIDTHS) == Values(HeaderFields(m))
  {
    Widths();
    HeaderLayout(m);
    FieldsRoundTrip(HeaderFields(m), rest);
  }

  lemma CountRoundTrip(n: nat)
    requires n < I32
    ensures ToI32(n) == n
  {
  }

  /** A message whose values are all short, except perhaps the last, comes back whole but for pre_chk_all,
      whatever follows it. The claimed size is the size written exactly if the last value is short too.
      Messages of the source's own senders carry one entry at most. */
  lemma MessageRoundTrip(m: WireMessage, rest: Bytes, junk: nat)
    requires InRange(m) && ShortButLast(m.entries)
    ensures var b := MessageBytes(m);
            var r := DecodeMessage(b + rest, |b|, junk);
            && r.MessageRead? && r.message == Encoded(m, junk)
            && (r.claimed == |b| <==> Short(m.entries))
  {
    hide DecodeMessage, DecodeEntries, EntriesBytes, MessageBytes, Short, Encoded, EncodedEntries, Assembled, InRange;
    DecodesTo(m, rest, junk);
    EntriesRoundTrip(m.entries, rest, |MessageBytes(m)| - 48, junk);
    AssembledIs(m, DecodeEntries(EntriesBytes(m.entries) + rest, |MessageBytes(m)| - 48, |m.entries|, junk), junk);
  }

  /** The header of an encoded message is read back, and its entries are decoded behind it. */
  lemma DecodesTo(m: WireMessage, rest: Bytes, junk: nat)
    requires InRange(m)
    ensures AllInRange(m.entries) && |MessageBytes(m)| == HEADER + |EntriesBytes(m.entries)|
    ensures var b, body := MessageBytes(m), EntriesBytes(m.entries);
            && |Values(HeaderFields(m))| == 10
            && DecodeMessage(b + rest, |b|, junk) ==
               Assembled(Values(HeaderFields(m)), DecodeEntries(body + rest, |b| - 48, |m.entries|, junk))
  {
    hide DecodeMessage, DecodeEntries, ReadFields, EntryBytes, Assembled, Fields;
    var body := EntriesBytes(m.entries);
    HeaderRoundTrip(m, body + rest);
    HeaderLayout(m);
    assert MessageBytes(m) + rest == Fields(HeaderFields(m)) + (body + rest);
    AfterHeader(Fields(HeaderFields(m)), body + rest, |MessageBytes(m)|, Values(HeaderFields(m)), junk);
  }

  lemma AfterHeader(head: Bytes, body: Bytes, len: int, v: seq<nat>, junk: nat)
    requires |head| == HEADER == Sum(HEADER_WIDTHS) && |v| == 10 && v[9] < I32
    requires ReadFields(head + body, HEADER_WIDTHS) == v
    ensures DecodeMessage(head + body, len, junk) == Assembled(v, DecodeEntries(body, len - 48, v[9], junk))
  {
    CountRoundTrip(v[9]);
    Peel(head, body);
    hide ToI32, ReadFields, DecodeEntries;
  }

  lemma AssembledIs(m: WireMessage, r: EntriesRead, junk: nat)
    requires r.EntriesRead? && r.entries == EncodedEntries(m.entries, junk) && r.len >= 0
    ensures Assembled(Values(HeaderFields(m)), r) == MessageRead(HEADER + r.claimed, Encoded(m, junk))
  {
    HeaderLayout(m);
  }

  // ---------- what does not come back

  lemma KindIsRead(mem: Bytes)
    requires |mem| >= ENTRY_HEAD
    ensures Sum(ENTRY_WIDTHS) == ENTRY_HEAD && ReadFields(mem, ENTRY_WIDTHS)[4] == Unfixed(mem[20..24])
  {
    EntryWidths();
    var w := ENTRY_WIDTHS;
    assert w[1..][1..] == w[2..] && w[2..][1..] == w[3..] && w[3..][1..] == w[4..];
    assert Sum(w[4..]) == 4 && Sum(w[3..]) == 12 && Sum(w[2..]) == 16 && Sum(w[1..]) == 20;
    assert mem[4..][4..] == mem[8..] && mem[8..][4..] == mem[12..] && mem[12..][8..] == mem[20..];
    assert mem[20..][..4] == mem[20..24];
    hide Unfixed;
    assert ReadFields(mem, w)[4] == ReadFields(mem[4..], w[1..])[3];
    assert ReadFields(mem[4..], w[1..])[3] == ReadFields(mem[8..], w[2..])[2];
    assert ReadFields(mem[8..], w[2..])[2] == ReadFields(mem[12..], w[3..])[1];
    assert ReadFields(mem[12..], w[3..])[1] == ReadFields(mem[20..], w[4..])[0];
  }

  /** The bytes that end the fixed fields of an entry: a term under 2^32 leaves four zeros before the kind. */
  lemma EndOfHead(e: WireEntry)
    requires e.term < U32
    ensures |Fields(EntryFields(e))| == ENTRY_HEAD
    ensures Fields(EntryFields(e))[16..] == [0, 0, 0, 0, KindCode(e.kind) as Byte, 0, 0, 0]
  {
    var f := EntryFields(e);
    EntryLayout(e);
    EntryWidths();
    FieldsSize(f);
    SmallTerm(e.term);
    assert Fixed(KindCode(e.kind), 4) == [KindCode(e.kind) as Byte, 0, 0, 0] by {
      assert Fixed(0, 3) == [0, 0, 0];
    }
    hide Fixed;
    assert f[1..][1..] == f[2..] && f[2..][1..] == f[3..] && f[3..][1..] == f[4..] && f[4..][1..] == [];
    assert Fields(f[4..]) == Fixed(KindCode(e.kind), 4) + [];
    assert Fields(f[3..]) == Fixed(e.term, 8) + Fields(f[4..]);
    assert Fields(f[2..]) == Fixed(e.chkAll, 4) + Fields(f[3..]);
    assert Fields(f[1..]) == Fixed(e.chkThs, 4) + Fields(f[2..]);
    assert Fields(f) == Fixed(e.index, 4) + Fields(f[1..]);
    assert Fields(f)[12..] == Fields(f[3..]);
    assert Fields(f)[16..] == Fields(f)[12..][4..];
  }

  lemma SmallTerm(term: nat)
    requires term < U32
    ensures Fixed(term, 8)[4..] == [0, 0, 0, 0]
  {
    Widths();
    HighZeros(term, 8, 4);
    assert Fixed(0, 2) == [0, 0];
    assert Fixed(0, 4) == [0, 0, 0, 0];
  }

  lemma {:induction false} HighZeros(v: nat, width: nat, k: nat)
    requires k <= width && v < Pow256(k)
    ensures Fixed(v, width)[k..] == Fixed(0, width - k)
    decreases k
  {
    if k > 0 {
      HighZeros(v / 256, width - 1, k - 1);
      assert Fixed(v, width)[k..] == Fixed(v / 256, width - 1)[k - 1..];
    }
  }

  /** A decoder that starts one to three bytes early takes the kind for a number of at least 256. */
  lemma EarlyReadFails(early: Bytes, e: WireEntry, rest: Bytes, len: int, junk: nat)
    requires 1 <= |early| <= 3 && EntryInRange(e) && e.kind != Unknown && e.term < U32
    ensures DecodeEntry(early + (EntryBytes(e) + rest), len, junk) == Failed
  {
    var head := Fields(EntryFields(e));
    EndOfHead(e);
    var mem := early + (EntryBytes(e) + rest);
    var d := |early|;
    KindIsRead(mem);
    assert mem[20..24] == head[20 - d..24 - d];
    assert head[20 - d..24 - d] == head[16..][4 - d..8 - d];
    var c := KindCode(e.kind) as Byte;
    EarlyKind([0, 0, 0, 0, c, 0, 0, 0], c, d);
  }

  lemma EarlyKind(b: Bytes, c: Byte, d: nat)
    requires b == [0, 0, 0, 0, c, 0, 0, 0] && 1 <= d <= 3 && c > 0
    ensures Unfixed(b[4 - d..8 - d]) >= 256
  {
    var w := b[4 - d..8 - d];
    assert w[1..][1..] == w[2..] && w[2..][1..] == w[3..];
    assert Unfixed(w[2..]) == w[2] as nat + 256 * Unfixed(w[3..]);
    assert Unfixed(w[1..]) == w[1] as nat + 256 * Unfixed(w[2..]);
    assert Unfixed(w) == w[0] as nat + 256 * Unfixed(w[1..]);
    assert Unfixed(w[3..]) == w[3] as nat + 256 * 0;
  }

  /** Entries as the log makes them: of a known kind, a term under 2^32, a value under 2^28 bytes. */
  predicate Usual(es: seq<WireEntry>) {
    && AllInRange(es)
    && forall i | 0 <= i < |es| :: es[i].kind != Unknown && es[i].term < U32 && |es[i].value| < 0x1000_0000
  }

  lemma ClaimIsEarly(e: WireEntry)
    requires EntryInRange(e) && 128 <= |e.value| < 0x1000_0000
    ensures 1 <= |EntryBytes(e)| - (25 + |e.value|) <= 3
  {
    EntryLayout(e);
    EntryWidths();
    FieldsSize(EntryFields(e));
  }

  /** A long value that is not the last makes the decoder fail on the entry behind it. */
  lemma {:induction false} LongValueFails(es: seq<WireEntry>, rest: Bytes, len: int, junk: nat)
    requires Usual(es) && |EntriesBytes(es)| <= len && !ShortButLast(es)
    ensures DecodeEntries(EntriesBytes(es) + rest, len, |es|, junk) == NoEntries
  {
    hide DecodeEntry, EntryBytes, EntryInRange;
    var head, tail := EntryBytes(es[0]), EntriesBytes(es[1..]) + rest;
    EntrySize(es[0]);
    EntryRoundTrip(es[0], tail, len, junk);
    assert EntriesBytes(es) + rest == head + tail;
    Peel(head, tail);
    EntriesStep(head + tail, len, |es|, junk);
    var c := 25 + |es[0].value|;
    if |es[0].value| < 128 {
      LongValueFails(es[1..], rest, len - c, junk);
    } else {
      ClaimIsEarly(es[0]);
      var e := es[1];
      var more := EntriesBytes(es[1..][1..]) + rest;
      assert (head + tail)[c..] == head[c..] + tail;
      assert tail == EntryBytes(e) + more;
      EarlyReadFails(head[c..], e, more, len - c, junk);
      EntriesStep(head[c..] + tail, len - c, |es| - 1, junk);
    }
  }

  /** For usual entries the round trip works exactly if every value but the last is under 128 bytes. */
  lemma RoundTripExactly(m: WireMessage, rest: Bytes, junk: nat)
    requires InRange(m) && Usual(m.entries)
    ensures var b := MessageBytes(m);
            var r := DecodeMessage(b + rest, |b|, junk);
            (r.MessageRead? && r.message == Encoded(m, junk)) <==> ShortButLast(m.entries)
  {
    if ShortButLast(m.entries) {
      MessageRoundTrip(m, rest, junk);
    } else {
      hide DecodeMessage, DecodeEntries, EntriesBytes, MessageBytes, ShortButLast, Encoded, InRange;
      DecodesTo(m, rest, junk);
      LongValueFails(m.entries, rest, |MessageBytes(m)| - 48, junk);
    }
  }
}
