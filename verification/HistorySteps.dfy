/** The ways the history grows, and why its invariant survives each. */
module HistorySteps {
  import opened RaftTypes
  import opened Quorum
  import opened RaftStep
  import opened Cluster
  import opened Invariant
  import opened Stability

  lemma VotesStable(h1: History, h2: History)
    requires HistOk(h1) && Extends(h1, h2)
    ensures forall term: nat, v: Addr {:trigger VoteOk(h2, term, v)} | (term, v) in h1.votes :: VoteOk(h2, term, v)
  {
    forall term: nat, v: Addr {:trigger VoteOk(h2, term, v)} | (term, v) in h1.votes
      ensures VoteOk(h2, term, v)
    {
      assert VoteOk(h1, term, v);
      GoodStable(h1, h2, VoteLog(h1, term, v));
    }
  }

  lemma ElectionsStable(h1: History, h2: History)
    requires HistOk(h1) && Extends(h1, h2)
    requires forall term: nat {:trigger LeaderLog(h2, term)} | term in h1.elections :: Good(h2, LeaderLog(h2, term))
    ensures forall term: nat {:trigger ElectionOk(h2, term)} | term in h1.elections :: ElectionOk(h2, term)
  {
    forall term: nat {:trigger ElectionOk(h2, term)} | term in h1.elections
      ensures ElectionOk(h2, term)
    {
      assert ElectionOk(h1, term) && LogGrows(term, h1.elections[term], h2.elections[term]);
      var e1, e2 := h1.elections[term], h2.elections[term];
      assert Good(h2, LeaderLog(h2, term));
      forall k | |e2.elog| <= k < |e2.llog|
        ensures e2.llog[k].term == term
      {
        if k < |e1.llog| {
          assert e1.llog[k] == e2.llog[k];
        }
      }
    }
  }

  /** Entries of its term on top of a good log make a good leader log. */
  lemma GrownLogGood(h: History, term: nat, base: Log)
    requires term in h.elections && Good(h, base) && base <= LeaderLog(h, term)
    requires forall k | |base| <= k < |LeaderLog(h, term)| ::
               LeaderLog(h, term)[k].term == term && LeaderLog(h, term)[k].kind != Unknown
    ensures Good(h, LeaderLog(h, term))
  {
    var l := LeaderLog(h, term);
    forall k | 0 <= k < |l|
      ensures l[k].kind != Unknown && l[k].term in h.elections && Has(l, LeaderLog(h, l[k].term), k + 1)
    {
      if k < |base| {
        assert base[k] == l[k];
        assert l[..k + 1] == base[..k + 1];
      }
    }
  }

  /** Only server me, in the term it is in, acknowledges more: its later votes do not exist yet. */
  ghost predicate AcksOnlyAt(h1: History, h2: History, me: Addr, term: nat) {
    && (forall t: nat, a: Addr | (t, a) in h2.acked && !(t == term && a == me) ::
          (t, a) in h1.acked && h1.acked[(t, a)] == h2.acked[(t, a)])
    && (forall t: nat | t > term :: (t, me) !in h1.votes)
  }

  /** Elections that are new were won with votes that were there before. */
  ghost predicate WonByOldVotes(h1: History, h2: History) {
    forall u | u in h2.elections && u !in h1.elections ::
      forall v | v in h2.elections[u].quorum :: (u, v) in h1.votes
  }

  lemma KeptCarries(h1: History, h2: History, me: Addr, at: nat, u: nat, v: Addr, term: nat, k: nat)
    requires HistOk(h1) && Extends(h1, h2) && h1.votes == h2.votes
    requires AcksOnlyAt(h1, h2, me, at) && WonByOldVotes(h1, h2)
    requires term < u && Acked(h2, term, v, k)
    requires if u in h2.elections then v in h2.elections[u].quorum else (u, v) in h2.votes
    ensures Kept(h2, term, k, VoteLog(h2, u, v), u - 1)
  {
    if u in h1.elections {
      assert ElectionOk(h1, u) && LogGrows(u, h1.elections[u], h2.elections[u]);
      assert Voted(h1, u, v, h1.elections[u].leader);
    }
    assert (u, v) in h1.votes;
    assert Acked(h1, term, v, k) && AckOk(h1, term, v);
    assert Kept(h1, term, k, VoteLog(h1, u, v), u - 1);
    KeptStable(h1, h2, term, k, VoteLog(h1, u, v), u - 1, u - 1);
  }

  lemma KeptStays(h1: History, h2: History, me: Addr, at: nat)
    requires HistOk(h1) && Extends(h1, h2) && h1.votes == h2.votes
    requires AcksOnlyAt(h1, h2, me, at) && WonByOldVotes(h1, h2)
    ensures QuorumKept(h2) && BallotKept(h2)
  {
    forall u: nat, v: Addr, term: nat, k: nat
      | u in h2.elections && v in h2.elections[u].quorum && term < u && Acked(h2, term, v, k)
      ensures Kept(h2, term, k, VoteLog(h2, u, v), u - 1)
    {
      KeptCarries(h1, h2, me, at, u, v, term, k);
    }
    forall u: nat, v: Addr, term: nat, k: nat
      | (u, v) in h2.votes && u !in h2.elections && term < u && Acked(h2, term, v, k)
      ensures Kept(h2, term, k, VoteLog(h2, u, v), u - 1)
    {
      KeptCarries(h1, h2, me, at, u, v, term, k);
    }
  }

  lemma AcksStable(h1: History, h2: History, me: Addr, at: nat)
    requires HistOk(h1) && Extends(h1, h2) && AcksOnlyAt(h1, h2, me, at)
    requires (at, me) in h2.acked ==> AckOk(h2, at, me)
    ensures forall t: nat, a: Addr {:trigger AckOk(h2, t, a)} | (t, a) in h2.acked :: AckOk(h2, t, a)
  {
    forall t: nat, a: Addr {:trigger AckOk(h2, t, a)} | (t, a) in h2.acked
      ensures AckOk(h2, t, a)
    {
      if !(t == at && a == me) {
        assert AckOk(h1, t, a);
        assert LogGrows(t, h1.elections[t], h2.elections[t]);
      }
    }
  }

  // ---------- the four ways

  /** me votes for c in a term in which it has not voted. */
  lemma VoteGrows(h: History, h': History, me: Addr, c: Addr, term: nat, log: Log)
    requires HistOk(h) && (term, me) !in h.votes
    requires h' == h.(votes := h.votes[(term, me) := VoteRec(c, log)])
    requires VoteOk(h', term, me)
    requires forall t: nat, k: nat | t < term && Acked(h, t, me, k) && term !in h.elections ::
               Kept(h, t, k, log, term - 1)
    ensures HistOk(h') && GrowsBy(me, h, h')
  {
    VotesStable(h, h');
    forall t: nat {:trigger ElectionOk(h', t)} | t in h.elections
      ensures ElectionOk(h', t)
    {
      assert ElectionOk(h, t);
      GoodStable(h, h', LeaderLog(h, t));
      assert t == term ==> me !in h.elections[t].quorum;
    }
    forall t: nat, a: Addr {:trigger AckOk(h', t, a)} | (t, a) in h'.acked
      ensures AckOk(h', t, a)
    {
      assert AckOk(h, t, a);
    }
    forall u: nat, v: Addr, t: nat, k: nat
      | u in h'.elections && v in h'.elections[u].quorum && t < u && Acked(h', t, v, k)
      ensures Kept(h', t, k, VoteLog(h', u, v), u - 1)
    {
      assert ElectionOk(h, u) && Voted(h, u, v, h.elections[u].leader);
      assert Acked(h, t, v, k) && AckOk(h, t, v);
      KeptStable(h, h', t, k, VoteLog(h, u, v), u - 1, u - 1);
    }
    forall u: nat, v: Addr, t: nat, k: nat
      | (u, v) in h'.votes && u !in h'.elections && t < u && Acked(h', t, v, k)
      ensures Kept(h', t, k, VoteLog(h', u, v), u - 1)
    {
      assert Acked(h, t, v, k) && AckOk(h, t, v);
      KeptStable(h, h', t, k, VoteLog(h', u, v), u - 1, u - 1);
    }
  }

  /** me wins the election of a term that had no leader, and appends entries of the term. */
  lemma ElectionGrows(h: History, h': History, me: Addr, term: nat, quorum: set<Addr>, log: Log, log': Log)
    requires HistOk(h) && term !in h.elections && (term, me) !in h.acked
    requires h' == h.(elections := h.elections[term := Election(me, quorum, log, log')],
                      acked := h.acked[(term, me) := |log'|])
    requires me in h.members && quorum <= h.members && 2 * |quorum| > |h.members|
    requires Voted(h, term, me, me) && log == VoteLog(h, term, me)
    requires forall v | v in quorum :: Voted(h, term, v, me)
    requires forall t: nat | t > term :: (t, me) !in h.votes
    requires log <= log' && forall k | |log| <= k < |log'| :: log'[k].term == term && log'[k].kind != Unknown
    ensures HistOk(h') && GrowsBy(me, h, h')
  {
    assert VoteOk(h, term, me);
    assert Extends(h, h');
    VotesStable(h, h');
    GoodStable(h, h', log);
    GrownLogGood(h', term, log);
    forall t: nat {:trigger LeaderLog(h', t)} | t in h.elections
      ensures Good(h', LeaderLog(h', t))
    {
      assert ElectionOk(h, t);
      GoodStable(h, h', LeaderLog(h, t));
    }
    ElectionsStable(h, h');
    assert ElectionOk(h', term);
    AcksStable(h, h', me, term);
    KeptStays(h, h', me, term);
  }

  /** me, the leader of the term it is in, appends entries of that term. */
  lemma AppendGrows(h: History, h': History, me: Addr, term: nat, log': Log)
    requires HistOk(h) && LedBy(h, term, me)
    requires h' == h.(elections := h.elections[term := h.elections[term].(llog := log')],
                      acked := h.acked[(term, me) := |log'|])
    requires Acked(h, term, me, |LeaderLog(h, term)|)
    requires forall t: nat | t > term :: (t, me) !in h.votes
    requires LeaderLog(h, term) <= log'
    requires forall k | |LeaderLog(h, term)| <= k < |log'| :: log'[k].term == term && log'[k].kind != Unknown
    ensures HistOk(h') && GrowsBy(me, h, h')
  {
    assert ElectionOk(h, term) && AckOk(h, term, me);
    assert LogGrows(term, h.elections[term], h'.elections[term]);
    assert Extends(h, h');
    VotesStable(h, h');
    GoodStable(h, h', LeaderLog(h, term));
    GrownLogGood(h', term, LeaderLog(h, term));
    forall t: nat {:trigger LeaderLog(h', t)} | t in h.elections
      ensures Good(h', LeaderLog(h', t))
    {
      assert ElectionOk(h, t);
      GoodStable(h, h', LeaderLog(h, t));
    }
    ElectionsStable(h, h');
    AcksStable(h, h', me, term);
    KeptStays(h, h', me, term);
  }

  /** me acknowledges the first k entries of the leader of the term it is in. */
  lemma AckGrows(h: History, h': History, me: Addr, term: nat, k: nat)
    requires HistOk(h) && term in h.elections && me in h.members && k <= |LeaderLog(h, term)|
    requires h' == h.(acked := h.acked[(term, me) := Max(AckedUpTo(h, term, me), k)])
    requires forall t: nat | t > term :: (t, me) !in h.votes
    ensures HistOk(h') && GrowsBy(me, h, h')
  {
    if (term, me) in h.acked {
      assert AckOk(h, term, me);
    }
    assert Extends(h, h');
    VotesStable(h, h');
    forall t: nat {:trigger LeaderLog(h', t)} | t in h.elections
      ensures Good(h', LeaderLog(h', t))
    {
      assert ElectionOk(h, t);
      GoodStable(h, h', LeaderLog(h, t));
    }
    ElectionsStable(h, h');
    AcksStable(h, h', me, term);
    KeptStays(h, h', me, term);
  }
}
