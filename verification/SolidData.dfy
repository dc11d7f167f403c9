/** Term and vote, and their copies on disk (src/raft/solid_data.cc). */
module SolidDatas {
  import opened RaftTypes

  class SolidData {
    // on disk
    var storedTerm: Option<nat>
    var storedVote: Option<Addr>

    // in memory
    var term: nat
    var vote: Addr

    /** Memory and disk agree. */
    ghost predicate Valid()
      reads this
    {
      storedTerm == Some(term) && storedVote == Some(vote)
    }

    constructor ()
      ensures storedTerm == None && storedVote == None
    {
      storedTerm, storedVote, term, vote := None, None, 0, 0;
    }

    /** Reads both from disk; the first time, sets term 1 and no vote. */
    method Init()
      modifies this
      ensures Valid()
      ensures term == if old(storedTerm).Some? then old(storedTerm).value else 1
      ensures vote == if old(storedVote).Some? then old(storedVote).value else NO_ADDR
    {
      match storedTerm {
        case None =>
          term := 1;
          storedTerm := Some(term);
        case Some(t) =>
          term := t;
      }
      match storedVote {
        case None =>
          vote := NO_ADDR;
          storedVote := Some(vote);
        case Some(v) =>
          vote := v;
      }
    }

    method IncrTerm()
      requires Valid()
      modifies this
      ensures Valid() && term == old(term) + 1 && vote == old(vote)
    {
      term := term + 1;
      storedTerm := Some(term);
    }

    method SetTerm(t: nat)
      requires Valid()
      modifies this
      ensures Valid() && term == t && vote == old(vote)
    {
      term := t;
      storedTerm := Some(term);
    }

    method SetVote(v: Addr)
      requires Valid()
      modifies this
      ensures Valid() && vote == v && term == old(term)
    {
      vote := v;
      storedVote := Some(vote);
    }

    /** A new process reads back what the last one had. */
    method Restart()
      requires Valid()
      modifies this
      ensures Valid() && term == old(term) && vote == old(vote)
    {
      term, vote := 0, 0;
      Init();
    }
  }
}
