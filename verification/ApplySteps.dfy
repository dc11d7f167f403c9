/** Committing and applying: the state machine always holds the data entries of the applied prefix. */
module ApplySteps {
  import opened RaftTypes
  import opened Quorum
  import opened RaftStep
  import opened Cluster
  import opened Invariant
  import opened Stability
  import opened Completeness
  import opened ServerSteps
  import opened VoteSteps

  lemma {:induction false} DataBetweenSplit(log: Log, lo: nat, mid: nat, hi: nat)
    requires lo <= mid <= hi <= |log|
    ensures DataBetween(log, lo, mid) + DataBetween(log, mid, hi) == DataBetween(log, lo, hi)
  {
    if mid < hi {
      DataBetweenSplit(log, lo, mid, hi - 1);
    }
  }

  /** The apply loop feeds the state machine exactly the data entries up to the commit index. */
  lemma {:induction false} ApplyFromOk(s: Server, i: nat)
    requires 1 <= i <= s.commit + 1 && s.commit <= |s.log|
    requires forall k | 0 <= k < |s.log| :: s.log[k].kind != Unknown
    ensures ApplyFrom(s, i) == s.(sm := s.sm + DataBetween(s.log, i - 1, s.commit), lastApply := s.commit)
    decreases s.commit + 1 - i
  {
    if i <= s.commit {
      DataBetweenSplit(s.log, i - 1, i, s.commit);
      assert DataBetween(s.log, i - 1, i) ==
             if s.log[i - 1].kind == Data then [Applied(i, s.log[i - 1])] else [];
      if s.log[i - 1].kind == Data {
        var s' := s.(sm := s.sm + [Applied(i, s.log[i - 1])]);
        ApplyFromOk(s', i + 1);
        assert s.sm + ([Applied(i, s.log[i - 1])] + DataBetween(s.log, i, s.commit))
            == s'.sm + DataBetween(s.log, i, s.commit);
      } else {
        ApplyFromOk(s, i + 1);
        assert [] + DataBetween(s.log, i, s.commit) == DataBetween(s.log, i, s.commit);
      }
    }
  }

  lemma KnownKinds(h: History, l: Log)
    requires Good(h, l)
    ensures forall k | 0 <= k < |l| :: l[k].kind != Unknown
  {
  }

  /** What StateMachineApply leaves: everything up to the commit index is applied. */
  lemma ApplyAll(s: Server, c: nat)
    requires s.lastApply <= |s.log| && c <= |s.log|
    requires forall k | 0 <= k < |s.log| :: s.log[k].kind != Unknown
    requires s.sm == DataBetween(s.log, 0, s.lastApply)
    ensures var s' := StateMachineApply(s.(commit := c));
            && s' == s.(commit := c, sm := s'.sm, lastApply := Max(s.lastApply, c))
            && s'.sm == DataBetween(s.log, 0, Max(s.lastApply, c))
  {
    if c > s.lastApply {
      ApplyFromOk(s.(commit := c), s.lastApply + 1);
      DataBetweenSplit(s.log, 0, s.lastApply, c);
    }
  }

  lemma CommitOk(h: History, s: Server, c: nat)
    requires HistOk(h) && ServerOk(h, s) && c <= |s.log| && Certified(h, s.log, c, s.term)
    ensures ServerOk(h, StateMachineApply(s.(commit := c)))
    ensures var s' := StateMachineApply(s.(commit := c));
            s' == s.(commit := c, sm := s'.sm, lastApply := Max(s.lastApply, c))
  {
    KnownKinds(h, s.log);
    ApplyAll(s, c);
    var s' := StateMachineApply(s.(commit := c));
    assert ApplyOk(h, s');
    assert LogOk_(h, s');
    assert RoleOk(h, s');
  }

  // ---------- a leader's commit index

  /** The largest index on a strict majority is in the leader's log. */
  lemma MajorityInLog(h: History, s: Server)
    requires HistOk(h) && ServerOk(h, s) && s.role == Leader
    ensures MajorityMax(s.indices, |s.log|) <= |s.log|
  {
    var k := MajorityMax(s.indices, |s.log|);
    if k > |s.log| {
      assert Reached(s.indices, k) != {};
      var j :| j in Reached(s.indices, k);
      MatchInLog(h, s, j);
    }
  }

  lemma MatchInLog(h: History, s: Server, j: Addr)
    requires HistOk(h) && ServerOk(h, s) && s.role == Leader && j in s.indices
    ensures s.indices[j].match_ <= |s.log|
  {
    if s.indices[j].match_ > 0 {
      assert AckOk(h, s.term, j);
    }
  }

  /** An entry of the leader's term that a strict majority has reached is committed. */
  lemma MajorityCommits(h: History, s: Server, k: nat)
    requires HistOk(h) && ServerOk(h, s) && s.role == Leader
    requires 1 <= k <= |s.log| && s.log[k - 1].term == s.term && StrictMajority(s.indices, |s.log|, k)
    ensures Committed(h, s.term, k) && Certified(h, s.log, k, s.term)
  {
    var r := Reached(s.indices, k);
    var q := r + {s.me};
    assert |q| == |r| + 1;
    assert |s.indices| == |s.indices.Keys|;
    assert |h.members| == |PeerSet(s.peers)| + 1;
    assert HasQuorum(h, s.term, k, q) by {
      forall a | a in q
        ensures Acked(h, s.term, a, k)
      {
      }
    }
    assert CertifiedBy(h, s.log, k, s.term, s.term, k);
  }

  lemma MaybeCommitOk(h: History, s: Server)
    requires HistOk(h) && ServerOk(h, s) && s.role == Leader
    ensures ServerOk(h, MaybeCommit(s))
    ensures var s' := MaybeCommit(s);
            s' == s.(commit := s'.commit, sm := s'.sm, lastApply := s'.lastApply)
    ensures s.commit <= MaybeCommit(s).commit
  {
    hide HistOk, ServerOk;
    OwnLog(h, s);
    MajorityInLog(h, s);
    var k := MajorityMax(s.indices, LastIndex(s));
    if k > s.commit && s.log[k - 1].term == s.term {
      MajorityCommits(h, s, k);
      CommitOk(h, s, k);
    }
  }
}
