/** Leader completeness, derived from the history alone (section 5.4 of the extended Raft paper). */
module Completeness {
  import opened RaftTypes
  import opened Quorum
  import opened RaftStep
  import opened Cluster
  import opened Invariant
  import opened Stability

  /** Log matching: logs that hold the same term at a place agree up to there. */
  lemma LogsMatch(h: History, l: Log, m: Log, i: nat)
    requires Good(h, l) && Good(h, m)
    requires i < |l| && i < |m| && l[i].term == m[i].term
    ensures Has(l, m, i + 1)
  {
  }

  lemma HasLess(l: Log, m: Log, k: nat, k': nat)
    requires Has(l, m, k) && k' <= k
    ensures Has(l, m, k')
  {
    assert l[..k'] == l[..k][..k'] == m[..k][..k'] == m[..k'];
  }

  lemma HasTrans(a: Log, b: Log, c: Log, k: nat)
    requires Has(a, b, k) && Has(b, c, k)
    ensures Has(a, c, k)
  {
  }

  /** Terms never decrease along a log. */
  lemma TermsSorted(h: History, l: Log, i: nat, j: nat)
    requires HistOk(h) && Good(h, l) && i <= j < |l|
    ensures l[i].term <= l[j].term
  {
    var t := l[j].term;
    HasAt(l, LeaderLog(h, t), j + 1, i);
    LeaderLogTerms(h, t);
  }

  /** A log that ends in the same term as one that has l, and is no shorter, has l too. */
  lemma SameEnd(h: History, mine: Log, yours: Log, l: Log, k: nat)
    requires Good(h, mine) && Good(h, yours)
    requires 1 <= k <= |yours| <= |mine| && Has(yours, l, k)
    requires LastLogTerm(mine) == LastLogTerm(yours)
    ensures Has(mine, l, k)
  {
    var m := LeaderLog(h, LastLogTerm(mine));
    HasLess(mine, m, |mine|, k);
    HasLess(yours, m, |yours|, k);
    HasTrans(mine, m, yours, k);
  }

  /** A log whose last entry was put there by a leader that has l, in a later term, has l too. */
  lemma LaterEnd(h: History, mine: Log, l: Log, k: nat)
    requires Good(h, mine) && mine != [] && Has(LeaderLog(h, LastLogTerm(mine)), l, k)
    requires TermsAtMost(l, LastLogTerm(mine) - 1)
    ensures Has(mine, l, k)
  {
    var m := LeaderLog(h, LastLogTerm(mine));
    assert Has(mine, m, |mine|);
    if |mine| < k {
      HasAt(mine, m, |mine|, |mine| - 1);
      HasAt(m, l, k, |mine| - 1);
    } else {
      HasLess(mine, m, |mine|, k);
    }
  }

  lemma ElectionFacts(h: History, u: nat, v: Addr)
    requires HistOk(h) && u in h.elections && v in h.elections[u].quorum
    ensures Good(h, h.elections[u].elog) && TermsAtMost(h.elections[u].elog, u - 1)
    ensures Good(h, VoteLog(h, u, v))
    ensures v == h.elections[u].leader || |h.members| > 2 ==> UpToDate(h.elections[u].elog, VoteLog(h, u, v))
  {
    assert ElectionOk(h, u) && Voted(h, u, v, h.elections[u].leader);
    assert VoteOk(h, u, v) && VoteOk(h, u, h.elections[u].leader);
  }

  lemma LastTermAtLeast(h: History, l: Log, m: Log, k: nat)
    requires HistOk(h) && Good(h, l) && 1 <= k && Has(l, m, k)
    ensures LastLogTerm(l) >= m[k - 1].term
  {
    HasAt(l, m, k, k - 1);
    TermsSorted(h, l, k - 1, |l| - 1);
  }

  /** The log with which a server won its election is up to date with a voter's log, so it has what the
      voter's log kept of a committed prefix. */
  lemma WinnerHas(h: History, mine: Log, yours: Log, l: Log, k: nat, term: nat, u: nat)
    requires Good(h, mine) && Good(h, yours) && UpToDate(mine, yours)
    requires TermsAtMost(mine, u - 1) && TermsAtMost(l, term)
    requires 1 <= k && Has(yours, l, k) && LastLogTerm(yours) >= term
    requires forall w: nat | term < w < u && w in h.elections :: Has(LeaderLog(h, w), l, k)
    ensures Has(mine, l, k)
  {
    if LastLogTerm(mine) == LastLogTerm(yours) {
      SameEnd(h, mine, yours, l, k);
    } else {
      LaterEnd(h, mine, l, k);
    }
  }

  /** One who acknowledged and whose vote was tested: of two members, the leader itself. */
  lemma Witness(h: History, q: set<Addr>, u: nat) returns (v: Addr)
    requires HistOk(h) && u in h.elections && q <= h.members && 2 * |q| > |h.members|
    ensures v in q && v in h.elections[u].quorum
    ensures v == h.elections[u].leader || |h.members| > 2
  {
    hide HistOk;
    var e := h.elections[u];
    ElectionSets(h, u);
    v := QuorumsMeet(h.members, q, e.quorum);
    if |h.members| <= 2 {
      AllOf(h.members, q);
      AllOf(h.members, e.quorum);
      v := e.leader;
    }
  }

  lemma ElectionSets(h: History, u: nat)
    requires HistOk(h) && u in h.elections
    ensures var e := h.elections[u]; e.leader in h.members && e.quorum <= h.members && 2 * |e.quorum| > |h.members|
  {
    assert ElectionOk(h, u);
  }

  /** More than half of two or fewer are all. */
  lemma AllOf(all: set<Addr>, q: set<Addr>)
    requires q <= all && 2 * |q| > |all| && |all| <= 2
    ensures q == all
  {
    assert all == q + (all - q);
    assert |all - q| == 0;
  }

  /** A committed prefix is in the log of every later leader. */
  lemma {:induction false} LaterLeadersHave(h: History, term: nat, k: nat, u: nat)
    requires HistOk(h) && Committed(h, term, k)
    requires term < u && u in h.elections
    ensures Has(LeaderLog(h, u), LeaderLog(h, term), k)
    ensures Has(h.elections[u].elog, LeaderLog(h, term), k)
    decreases u
  {
    forall w: nat | term < w < u && w in h.elections
      ensures Has(LeaderLog(h, w), LeaderLog(h, term), k)
    {
      LaterLeadersHave(h, term, k, w);
    }
    var e := h.elections[u];
    var q: set<Addr> :| HasQuorum(h, term, k, q);
    assert ElectionOk(h, u);
    var v := Witness(h, q, u);
    assert Acked(h, term, v, k);
    assert Kept(h, term, k, VoteLog(h, u, v), u - 1);
    ElectionFacts(h, u, v);
    LeaderLogTerms(h, term);
    LastTermAtLeast(h, VoteLog(h, u, v), LeaderLog(h, term), k);
    WinnerHas(h, e.elog, VoteLog(h, u, v), LeaderLog(h, term), k, term, u);
    assert e.llog[..k] == e.elog[..k];
  }

  /** Prefixes committed by two leaders agree. */
  lemma CommittedAgree(h: History, t1: nat, k1: nat, t2: nat, k2: nat, c: nat)
    requires HistOk(h) && Committed(h, t1, k1) && Committed(h, t2, k2)
    requires c <= k1 && c <= k2
    ensures Has(LeaderLog(h, t1), LeaderLog(h, t2), c)
  {
    if t1 < t2 {
      LaterLeadersHave(h, t1, k1, t2);
      HasLess(LeaderLog(h, t2), LeaderLog(h, t1), k1, c);
    } else if t2 < t1 {
      LaterLeadersHave(h, t2, k2, t1);
      HasLess(LeaderLog(h, t1), LeaderLog(h, t2), k2, c);
    }
  }

  /** Two certified logs agree as far as both are certified. */
  lemma CertifiedAgree(h: History, l: Log, cl: nat, tl: nat, m: Log, cm: nat, tm: nat, c: nat)
    requires HistOk(h) && Certified(h, l, cl, tl) && Certified(h, m, cm, tm)
    requires c <= cl && c <= cm
    ensures Has(l, m, c)
  {
    if c > 0 {
      var t1: nat, k1: nat :| CertifiedBy(h, l, cl, tl, t1, k1);
      var t2: nat, k2: nat :| CertifiedBy(h, m, cm, tm, t2, k2);
      CommittedAgree(h, t1, k1, t2, k2, c);
      HasLess(l, LeaderLog(h, t1), cl, c);
      HasLess(m, LeaderLog(h, t2), cm, c);
    }
  }

  /** The leader of a term has everything certified up to that term. */
  lemma LeaderHasCertified(h: History, l: Log, c: nat, term: nat)
    requires HistOk(h) && Certified(h, l, c, term) && term in h.elections
    ensures Has(LeaderLog(h, term), l, c)
  {
    if c > 0 {
      var t: nat, k: nat :| CertifiedBy(h, l, c, term, t, k);
      if t < term {
        LaterLeadersHave(h, t, k, term);
        HasLess(LeaderLog(h, term), LeaderLog(h, t), k, c);
      }
    }
  }
}
