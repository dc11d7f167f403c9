/** The vote manager (src/raft/vote_manager.cc): its table and the loops that count in it. */
module VoteManagers {
  import opened RaftTypes
  import opened Quorum

  class VoteManager {
    var votes: map<Addr, VoteItem>

    constructor (peers: seq<Addr>)
      ensures votes == Fill(PeerSet(peers), NO_VOTE)
    {
      votes := map[];
      new;
      Reset(peers);
    }

    method Reset(peers: seq<Addr>)
      modifies this
      ensures votes == Fill(PeerSet(peers), NO_VOTE)
    {
      votes := map[];
      var i := 0;
      while i < |peers|
        invariant 0 <= i <= |peers|
        invariant votes.Keys == PeerSet(peers[..i])
        invariant forall p | p in votes :: votes[p] == NO_VOTE
      {
        assert peers[..i + 1] == peers[..i] + [peers[i]];
        votes := votes[peers[i] := NO_VOTE];
        i := i + 1;
      }
      assert peers[..i] == peers;
      FillIs(votes, PeerSet(peers), NO_VOTE);
    }

    method Majority(myVote: bool) returns (b: bool)
      ensures b == Quorum.Majority(votes, myVote)
    {
      var count := 0;
      if myVote {
        count := count + 1;
      }
      var todo := votes.Keys;
      while todo != {}
        invariant todo <= votes.Keys
        invariant count == One(myVote) + |Granted(votes) - todo|
        decreases |todo|
      {
        var v :| v in todo;
        CountOne(Granted(votes), todo, v);
        if votes[v].grant {
          count := count + 1;
        }
        todo := todo - {v};
      }
      assert Granted(votes) - {} == Granted(votes);
      b := count >= (|votes| + 1 + 1) / 2;
    }

    method MajorityPreVoteOk(myVote: bool) returns (b: bool)
      ensures b == Quorum.MajorityPreVoteOk(votes, myVote)
    {
      var count := 0;
      if myVote {
        count := count + 1;
      }
      var todo := votes.Keys;
      while todo != {}
        invariant todo <= votes.Keys
        invariant count == One(myVote) + |PreVoteOk(votes) - todo|
        decreases |todo|
      {
        var v :| v in todo;
        CountOne(PreVoteOk(votes), todo, v);
        if votes[v].logok && votes[v].intervalOk {
          count := count + 1;
        }
        todo := todo - {v};
      }
      assert PreVoteOk(votes) - {} == PreVoteOk(votes);
      b := count >= (|votes| + 1 + 1) / 2;
    }

    method QuorumAll(myVote: bool) returns (b: bool)
      ensures b == Quorum.QuorumAll(votes, myVote)
    {
      if !myVote {
        return false;
      }
      var todo := votes.Keys;
      while todo != {}
        invariant todo <= votes.Keys
        invariant forall j | j in votes && j !in todo :: votes[j].grant
        decreases |todo|
      {
        var v :| v in todo;
        if !votes[v].grant {
          return false;
        }
        todo := todo - {v};
      }
      return true;
    }

    method Clear()
      modifies this
      ensures votes == Fill(old(votes).Keys, NO_VOTE)
    {
      var todo := votes.Keys;
      while todo != {}
        invariant todo <= votes.Keys == old(votes).Keys
        invariant forall j | j in votes && j !in todo :: votes[j] == NO_VOTE
        decreases |todo|
      {
        var v :| v in todo;
        votes := votes[v := NO_VOTE];
        todo := todo - {v};
      }
      FillIs(votes, votes.Keys, NO_VOTE);
    }

    /** The row of a peer; looking up a peer without one makes an empty one. */
    function Row(id: Addr): VoteItem
      reads this
    {
      if id in votes then votes[id] else NO_VOTE
    }

    method GetVote(id: Addr)
      modifies this
      ensures votes == old(votes)[id := old(Row(id)).(grant := true)]
    {
      votes := votes[id := Row(id).(grant := true)];
    }

    method Done(id: Addr)
      modifies this
      ensures votes == old(votes)[id := old(Row(id)).(done := true)]
    {
      votes := votes[id := Row(id).(done := true)];
    }

    method LogOk(id: Addr)
      modifies this
      ensures votes == old(votes)[id := old(Row(id)).(logok := true)]
    {
      votes := votes[id := Row(id).(logok := true)];
    }

    method IntervalOk(id: Addr)
      modifies this
      ensures votes == old(votes)[id := old(Row(id)).(intervalOk := true)]
    {
      votes := votes[id := Row(id).(intervalOk := true)];
    }
  }

  lemma FillIs<V>(m: map<Addr, V>, keys: set<Addr>, v: V)
    requires m.Keys == keys && forall k | k in keys :: m[k] == v
    ensures m == Fill(keys, v)
  {
  }

  /** Taking v off the list counts it if it belongs to the counted. */
  lemma CountOne(counted: set<Addr>, todo: set<Addr>, v: Addr)
    requires v in todo
    ensures |counted - (todo - {v})| == |counted - todo| + (if v in counted then 1 else 0)
  {
    if v in counted {
      assert counted - (todo - {v}) == (counted - todo) + {v};
    } else {
      assert counted - (todo - {v}) == counted - todo;
    }
  }
}
