/** The index manager (src/raft/index_manager.h): a leader's next and match indexes. */
module IndexManagers {
  import opened RaftTypes
  import opened Quorum
  import opened VoteManagers

  // ---------- sorting

  /** How many numbers of s are at least k. */
  function AtLeast(s: seq<nat>, k: nat): nat {
    if s == [] then 0 else AtLeast(s[1..], k) + One(s[0] >= k)
  }

  predicate Ascending(s: seq<nat>) {
    forall i, j | 0 <= i < j < |s| :: s[i] <= s[j]
  }

  lemma {:induction false} AtLeastConcat(a: seq<nat>, b: seq<nat>, k: nat)
    ensures AtLeast(a + b, k) == AtLeast(a, k) + AtLeast(b, k)
  {
    if a == [] {
      assert a + b == b;
    } else {
      assert (a + b)[1..] == a[1..] + b;
      AtLeastConcat(a[1..], b, k);
    }
  }

  /** What std::sort leaves. */
  method Sort(s: seq<nat>) returns (r: seq<nat>)
    ensures Ascending(r) && |r| == |s|
    ensures forall k: nat :: AtLeast(r, k) == AtLeast(s, k)
  {
    r := [];
    var i := 0;
    while i < |s|
      invariant 0 <= i <= |s| && |r| == i && Ascending(r)
      invariant forall k: nat :: AtLeast(r, k) == AtLeast(s[..i], k)
    {
      var j := i;
      while j > 0 && r[j - 1] > s[i]
        invariant 0 <= j <= i
        invariant forall l | j <= l < i :: r[l] > s[i]
      {
        j := j - 1;
      }
      forall k: nat
        ensures AtLeast(r[..j] + [s[i]] + r[j..], k) == AtLeast(s[..i + 1], k)
      {
        assert s[..i + 1] == s[..i] + [s[i]];
        assert r == r[..j] + r[j..];
        AtLeastConcat(s[..i], [s[i]], k);
        AtLeastConcat(r[..j], r[j..], k);
        AtLeastConcat(r[..j], [s[i]], k);
        AtLeastConcat(r[..j] + [s[i]], r[j..], k);
      }
      r := r[..j] + [s[i]] + r[j..];
      i := i + 1;
    }
    assert s[..i] == s;
  }

  /** In an ascending sequence, the numbers from position m on are at least the one there, and those up to m
      are below anything greater. */
  lemma MiddleCounts(r: seq<nat>, m: nat, k: nat)
    requires Ascending(r) && m < |r|
    ensures AtLeast(r, r[m]) >= |r| - m
    ensures k > r[m] ==> AtLeast(r, k) <= |r| - m - 1
  {
    assert r == r[..m] + r[m..];
    AtLeastConcat(r[..m], r[m..], r[m]);
    AllAtLeast(r[m..], r[m]);
    assert r == r[..m + 1] + r[m + 1..];
    AtLeastConcat(r[..m + 1], r[m + 1..], k);
    if k > r[m] {
      NoneAtLeast(r[..m + 1], k);
    }
    AtLeastBound(r[m + 1..], k);
  }

  lemma {:induction false} AllAtLeast(s: seq<nat>, k: nat)
    requires forall i | 0 <= i < |s| :: s[i] >= k
    ensures AtLeast(s, k) == |s|
  {
    if s != [] {
      AllAtLeast(s[1..], k);
    }
  }

  lemma {:induction false} NoneAtLeast(s: seq<nat>, k: nat)
    requires forall i | 0 <= i < |s| :: s[i] < k
    ensures AtLeast(s, k) == 0
  {
    if s != [] {
      NoneAtLeast(s[1..], k);
    }
  }

  lemma {:induction false} AtLeastBound(s: seq<nat>, k: nat)
    ensures AtLeast(s, k) <= |s|
  {
    if s != [] {
      AtLeastBound(s[1..], k);
    }
  }

  // ---------- the table

  class IndexManager {
    var indices: map<Addr, IndexItem>

    constructor (peers: seq<Addr>)
      ensures indices == Fill(PeerSet(peers), IndexItem(1, 0))
    {
      indices := map[];
      new;
      Reset(peers);
    }

    method Reset(peers: seq<Addr>)
      modifies this
      ensures indices == Fill(PeerSet(peers), IndexItem(1, 0))
    {
      indices := map[];
      var i := 0;
      while i < |peers|
        invariant 0 <= i <= |peers|
        invariant indices.Keys == PeerSet(peers[..i])
        invariant forall p | p in indices :: indices[p] == IndexItem(1, 0)
      {
        assert peers[..i + 1] == peers[..i] + [peers[i]];
        indices := indices[peers[i] := IndexItem(1, 0)];
        i := i + 1;
      }
      assert peers[..i] == peers;
      FillIs(indices, PeerSet(peers), IndexItem(1, 0));
    }

    method ResetNext(index: nat)
      modifies this
      ensures indices.Keys == old(indices).Keys
      ensures forall p | p in indices :: indices[p] == old(indices)[p].(next := index)
    {
      var todo := indices.Keys;
      while todo != {}
        invariant todo <= indices.Keys == old(indices).Keys
        invariant forall p | p in indices ::
                    indices[p] == if p in todo then old(indices)[p] else old(indices)[p].(next := index)
        decreases |todo|
      {
        var p :| p in todo;
        indices := indices[p := indices[p].(next := index)];
        todo := todo - {p};
      }
    }

    method ResetMatch(index: nat)
      modifies this
      ensures indices.Keys == old(indices).Keys
      ensures forall p | p in indices :: indices[p] == old(indices)[p].(match_ := index)
    {
      var todo := indices.Keys;
      while todo != {}
        invariant todo <= indices.Keys == old(indices).Keys
        invariant forall p | p in indices ::
                    indices[p] == if p in todo then old(indices)[p] else old(indices)[p].(match_ := index)
        decreases |todo|
      {
        var p :| p in todo;
        indices := indices[p := indices[p].(match_ := index)];
        todo := todo - {p};
      }
    }

    /** A look-up makes an empty row for an unknown peer. */
    method Touch(addr: Addr)
      modifies this
      ensures indices == if addr in old(indices) then old(indices) else old(indices)[addr := NO_INDEX]
    {
      if addr !in indices {
        indices := indices[addr := NO_INDEX];
      }
    }

    method GetNext(addr: Addr) returns (next: nat)
      modifies this
      ensures indices == if addr in old(indices) then old(indices) else old(indices)[addr := NO_INDEX]
      ensures next == indices[addr].next
    {
      Touch(addr);
      next := indices[addr].next;
    }

    method GetMatch(addr: Addr) returns (index: nat)
      modifies this
      ensures indices == if addr in old(indices) then old(indices) else old(indices)[addr := NO_INDEX]
      ensures index == indices[addr].match_
    {
      Touch(addr);
      index := indices[addr].match_;
    }

    method SetNext(addr: Addr, index: nat)
      modifies this
      ensures indices == old(indices)[addr :=
                (if addr in old(indices) then old(indices)[addr] else NO_INDEX).(next := index)]
    {
      Touch(addr);
      indices := indices[addr := indices[addr].(next := index)];
    }

    method SetMatch(addr: Addr, index: nat)
      modifies this
      ensures indices == old(indices)[addr :=
                (if addr in old(indices) then old(indices)[addr] else NO_INDEX).(match_ := index)]
    {
      Touch(addr);
      indices := indices[addr := indices[addr].(match_ := index)];
    }

    method DecrNext(addr: Addr)
      requires addr in indices && indices[addr].next > 0
      modifies this
      ensures indices == old(indices)[addr := old(indices)[addr].(next := old(indices)[addr].next - 1)]
    {
      indices := indices[addr := indices[addr].(next := indices[addr].next - 1)];
    }

    /** The match indexes of leader and peers, as MajorityMax collects them. */
    method Matches(own: nat) returns (matches: seq<nat>)
      ensures Collected(indices, own, {}, matches)
    {
      hide Collected;
      matches := [own];
      var todo := indices.Keys;
      CollectStart(indices, own);
      while todo != {}
        invariant todo <= indices.Keys && Collected(indices, own, todo, matches)
        decreases |todo|
      {
        var p :| p in todo;
        CollectStep(indices, own, todo, matches, p);
        matches := matches + [indices[p].match_];
        todo := todo - {p};
      }
    }

    /** The middle of the sorted match indexes, the leader's own among them, is the largest index that a
        strict majority has reached, for every number of peers. */
    method MajorityMax(own: nat) returns (k: nat)
      ensures IsMajorityMax(indices, own, k)
    {
      var matches := Matches(own);
      var sorted := Sort(matches);
      k := sorted[(|sorted| - 1) / 2];
      MiddleIsMajorityMax(indices, own, sorted);
    }
  }

  lemma Alone(v: nat, k: nat)
    ensures AtLeast([v], k) == One(v >= k)
  {
    assert [v][1..] == [];
  }

  /** matches holds the leader's own index and those of the peers that are not left to do. */
  ghost predicate Collected(indices: map<Addr, IndexItem>, own: nat, todo: set<Addr>, matches: seq<nat>) {
    && |matches| == 1 + |indices.Keys - todo|
    && forall k: nat :: AtLeast(matches, k) == One(own >= k) + |Reached(indices, k) - todo|
  }

  lemma CollectStart(indices: map<Addr, IndexItem>, own: nat)
    ensures Collected(indices, own, indices.Keys, [own])
  {
    hide AtLeast;
    forall k: nat
      ensures AtLeast([own], k) == One(own >= k) + |Reached(indices, k) - indices.Keys|
    {
      Alone(own, k);
      assert Reached(indices, k) - indices.Keys == {};
    }
    assert indices.Keys - indices.Keys == {};
  }

  lemma CollectStep(indices: map<Addr, IndexItem>, own: nat, todo: set<Addr>, matches: seq<nat>, p: Addr)
    requires Collected(indices, own, todo, matches) && p in todo && p in indices
    ensures Collected(indices, own, todo - {p}, matches + [indices[p].match_])
  {
    hide AtLeast;
    var more := matches + [indices[p].match_];
    forall k: nat
      ensures AtLeast(more, k) == One(own >= k) + |Reached(indices, k) - (todo - {p})|
    {
      AtLeastConcat(matches, [indices[p].match_], k);
      Alone(indices[p].match_, k);
      CountOne(Reached(indices, k), todo, p);
    }
    CountOne(indices.Keys, todo, p);
  }

  lemma CollectEnd(indices: map<Addr, IndexItem>, own: nat, matches: seq<nat>, k: nat)
    requires Collected(indices, own, {}, matches)
    ensures |matches| == |indices| + 1
    ensures AtLeast(matches, k) == One(own >= k) + |Reached(indices, k)|
  {
    assert indices.Keys - {} == indices.Keys && |indices.Keys| == |indices|;
    assert Reached(indices, k) - {} == Reached(indices, k);
  }

  lemma MiddleIsMajorityMax(indices: map<Addr, IndexItem>, own: nat, sorted: seq<nat>)
    requires Ascending(sorted) && Collected(indices, own, {}, sorted)
    ensures IsMajorityMax(indices, own, sorted[(|sorted| - 1) / 2])
  {
    hide AtLeast, Reached, Ascending, Collected;
    CollectEnd(indices, own, sorted, 0);
    var m := (|sorted| - 1) / 2;
    MiddleCounts(sorted, m, 0);
    CollectEnd(indices, own, sorted, sorted[m]);
    assert AtLeast(sorted, sorted[m]) >= |sorted| - m;
    forall k: nat | k > sorted[m]
      ensures !StrictMajority(indices, own, k)
    {
      MiddleCounts(sorted, m, k);
      CollectEnd(indices, own, sorted, k);
      assert AtLeast(sorted, k) <= |sorted| - m - 1;
    }
  }
}
