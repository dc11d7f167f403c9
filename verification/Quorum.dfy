/** Counting votes and match indexes: what the vote manager's and index manager's loops compute. */
module Quorum {
  import opened RaftTypes

  // ---------- vote counting (src/raft/vote_manager.cc)

  function Granted(votes: map<Addr, VoteItem>): set<Addr> {
    set j | j in votes && votes[j].grant
  }

  function PreVoteOk(votes: map<Addr, VoteItem>): set<Addr> {
    set j | j in votes && votes[j].logok && votes[j].intervalOk
  }

  /** The source's threshold (votes.size() + 1 + 1) / 2 for a table of `peers` rows. */
  function Threshold(peers: nat): nat {
    (peers + 2) / 2
  }

  function One(b: bool): nat {
    if b then 1 else 0
  }

  predicate Majority(votes: map<Addr, VoteItem>, mine: bool) {
    |Granted(votes)| + One(mine) >= Threshold(|votes|)
  }

  predicate MajorityPreVoteOk(votes: map<Addr, VoteItem>, mine: bool) {
    |PreVoteOk(votes)| + One(mine) >= Threshold(|votes|)
  }

  predicate QuorumAll(votes: map<Addr, VoteItem>, mine: bool) {
    mine && forall j | j in votes :: votes[j].grant
  }

  /** Cluster sizes for which the vote threshold, tested after a grant, is a strict majority. */
  predicate SoundSize(n: nat) {
    n % 2 == 1 || n == 2
  }

  // ---------- match counting (src/raft/index_manager.h)

  /** Peers whose match index has reached k. */
  function Reached(indices: map<Addr, IndexItem>, k: nat): set<Addr> {
    set j | j in indices && indices[j].match_ >= k
  }

  /** k is reached by more than half of the members: the peers and this server, which stands at `own`. */
  predicate StrictMajority(indices: map<Addr, IndexItem>, own: nat, k: nat) {
    2 * (|Reached(indices, k)| + One(own >= k)) > |indices| + 1
  }

  /** k is the largest index reached by a strict majority. */
  ghost predicate IsMajorityMax(indices: map<Addr, IndexItem>, own: nat, k: nat) {
    && StrictMajority(indices, own, k)
    && forall k' :: k' > k ==> !StrictMajority(indices, own, k')
  }

  ghost function MajorityMax(indices: map<Addr, IndexItem>, own: nat): (k: nat)
    ensures IsMajorityMax(indices, own, k)
  {
    MajorityMaxExists(indices, own);
    var k :| IsMajorityMax(indices, own, k);
    k
  }

  lemma MajorityMaxUnique(indices: map<Addr, IndexItem>, own: nat, a: nat, b: nat)
    requires IsMajorityMax(indices, own, a) && IsMajorityMax(indices, own, b)
    ensures a == b
  {
  }

  /** A bound on every match index. */
  lemma MatchBound(indices: map<Addr, IndexItem>, keys: set<Addr>) returns (m: nat)
    requires keys <= indices.Keys
    ensures forall j | j in keys :: indices[j].match_ <= m
  {
    if keys == {} {
      m := 0;
    } else {
      var j :| j in keys;
      m := MatchBound(indices, keys - {j});
      m := Max(m, indices[j].match_);
    }
  }

  lemma MajorityMaxExists(indices: map<Addr, IndexItem>, own: nat)
    ensures exists k :: IsMajorityMax(indices, own, k)
  {
    var m := MatchBound(indices, indices.Keys);
    m := Max(m, own);
    forall k | k > m
      ensures !StrictMajority(indices, own, k)
    {
      assert Reached(indices, k) == {};
    }
    assert Reached(indices, 0) == indices.Keys;
    var k := m;
    while !StrictMajority(indices, own, k)
      invariant k <= m
      invariant forall k' :: k' > k ==> !StrictMajority(indices, own, k')
      decreases k
    {
      if k == 0 {
        assert false;
      }
      k := k - 1;
    }
    assert IsMajorityMax(indices, own, k);
  }

  // ---------- finite sets

  lemma SubsetSize<T>(a: set<T>, b: set<T>)
    requires a <= b
    ensures |a| <= |b|
  {
    assert b == a + (b - a);
  }

  /** Two sets of members that each hold more than half of them share a member. */
  lemma QuorumsMeet(members: set<Addr>, a: set<Addr>, b: set<Addr>) returns (v: Addr)
    requires a <= members && b <= members
    requires 2 * |a| > |members| && 2 * |b| > |members|
    ensures v in a && v in b
  {
    if a * b == {} {
      assert |a + b| == |a| + |b|;
      SubsetSize(a + b, members);
      assert false;
    }
    v :| v in a * b;
  }
}
