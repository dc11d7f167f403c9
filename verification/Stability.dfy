/** What stays true while the history grows. */
module Stability {
  import opened RaftTypes
  import opened Quorum
  import opened RaftStep
  import opened Cluster
  import opened Invariant

  /** h2 keeps every vote, election and acknowledgement of h1; a leader's log only gets entries of its
      own term appended. */
  ghost predicate Extends(h1: History, h2: History) {
    && h1.members == h2.members
    && (forall term: nat, v: Addr | (term, v) in h1.votes ::
          (term, v) in h2.votes && h2.votes[(term, v)] == h1.votes[(term, v)])
    && (forall term: nat | term in h1.elections ::
          && term in h2.elections
          && LogGrows(term, h1.elections[term], h2.elections[term]))
    && (forall term: nat, a: Addr | (term, a) in h1.acked ::
          (term, a) in h2.acked && h1.acked[(term, a)] <= h2.acked[(term, a)])
  }

  ghost predicate LogGrows(term: nat, e1: Election, e2: Election) {
    && e1.(llog := e2.llog) == e2
    && e1.llog <= e2.llog
    && forall k | |e1.llog| <= k < |e2.llog| :: e2.llog[k].term == term
  }

  /** The history grew by what server `me` did. */
  ghost predicate GrowsBy(me: Addr, h1: History, h2: History) {
    && Extends(h1, h2)
    && (forall term: nat, v: Addr | (term, v) in h2.votes && v != me :: (term, v) in h1.votes)
    && (forall term: nat | term in h2.elections && h2.elections[term].leader != me ::
          term in h1.elections && h1.elections[term].llog == h2.elections[term].llog)
    && (forall term: nat, a: Addr | (term, a) in h2.acked && a != me ::
          (term, a) in h1.acked && h1.acked[(term, a)] == h2.acked[(term, a)])
  }

  lemma ExtendsTransitive(h1: History, h2: History, h3: History)
    requires Extends(h1, h2) && Extends(h2, h3)
    ensures Extends(h1, h3)
  {
    forall term: nat | term in h1.elections
      ensures term in h3.elections && LogGrows(term, h1.elections[term], h3.elections[term])
    {
      assert LogGrows(term, h1.elections[term], h2.elections[term]);
      assert LogGrows(term, h2.elections[term], h3.elections[term]);
      var e1, e2, e3 := h1.elections[term], h2.elections[term], h3.elections[term];
      forall k | |e1.llog| <= k < |e3.llog|
        ensures e3.llog[k].term == term
      {
        if k < |e2.llog| {
          assert e2.llog[k] == e3.llog[k];
        }
      }
    }
  }

  lemma GrowsTransitive(me: Addr, h1: History, h2: History, h3: History)
    requires GrowsBy(me, h1, h2) && GrowsBy(me, h2, h3)
    ensures GrowsBy(me, h1, h3)
  {
    ExtendsTransitive(h1, h2, h3);
  }

  lemma LeaderLogTerms(h: History, term: nat)
    requires HistOk(h) && term in h.elections
    ensures TermsAtMost(LeaderLog(h, term), term)
  {
    var e := h.elections[term];
    assert ElectionOk(h, term) && VoteOk(h, term, e.leader);
    forall k | 0 <= k < |e.llog|
      ensures e.llog[k].term <= term
    {
      if k < |e.elog| {
        assert e.llog[k] == e.elog[k];
      }
    }
  }

  lemma HasStable(h1: History, h2: History, l: Log, term: nat, k: nat)
    requires Extends(h1, h2) && term in h1.elections && k <= |LeaderLog(h1, term)|
    ensures Has(l, LeaderLog(h1, term), k) <==> Has(l, LeaderLog(h2, term), k)
    ensures LeaderLog(h1, term)[..k] == LeaderLog(h2, term)[..k]
  {
    assert LogGrows(term, h1.elections[term], h2.elections[term]);
  }

  lemma GoodStable(h1: History, h2: History, l: Log)
    requires Extends(h1, h2) && Good(h1, l)
    ensures Good(h2, l)
  {
    forall k | 0 <= k < |l|
      ensures l[k].term in h2.elections && Has(l, LeaderLog(h2, l[k].term), k + 1)
    {
      HasStable(h1, h2, l, l[k].term, k + 1);
    }
  }

  lemma HasAt(l: Log, m: Log, k: nat, i: nat)
    requires Has(l, m, k) && i < k
    ensures l[i] == m[i]
  {
    assert l[i] == l[..k][i];
    assert m[i] == m[..k][i];
  }

  /** Entries of a term above all those of m do not help a log to get more of m. */
  lemma HadBefore(w1: Log, w2: Log, m: Log, k: nat, term: nat)
    requires w1 <= w2 && (forall i | |w1| <= i < |w2| :: w2[i].term > term)
    requires TermsAtMost(m, term) && Has(w2, m, k)
    ensures Has(w1, m, k)
  {
    if |w1| < k {
      HasAt(w2, m, k, |w1|);
    } else {
      assert w1[..k] == w2[..k];
    }
  }

  lemma LostStable(h1: History, h2: History, w: nat, term: nat, k: nat)
    requires HistOk(h1) && Extends(h1, h2)
    requires term < w && term in h1.elections && k <= |LeaderLog(h1, term)|
    requires Lost(h1, w, term, k)
    ensures Lost(h2, w, term, k)
  {
    LeaderLogTerms(h1, term);
    HasStable(h1, h2, LeaderLog(h2, w), term, k);
    assert LogGrows(w, h1.elections[w], h2.elections[w]);
    if Has(LeaderLog(h2, w), LeaderLog(h1, term), k) {
      HadBefore(LeaderLog(h1, w), LeaderLog(h2, w), LeaderLog(h1, term), k, term);
    }
  }

  lemma KeptStable(h1: History, h2: History, term: nat, k: nat, l: Log, upTo: int, upTo': int)
    requires HistOk(h1) && Extends(h1, h2) && upTo <= upTo'
    requires term in h1.elections && k <= |LeaderLog(h1, term)|
    requires Kept(h1, term, k, l, upTo)
    ensures Kept(h2, term, k, l, upTo')
  {
    HasStable(h1, h2, l, term, k);
    if !Has(l, LeaderLog(h1, term), k) {
      var w: nat :| term < w <= upTo && Lost(h1, w, term, k);
      LostStable(h1, h2, w, term, k);
    }
  }

  lemma CommittedStable(h1: History, h2: History, term: nat, k: nat)
    requires Extends(h1, h2) && Committed(h1, term, k)
    ensures Committed(h2, term, k)
  {
    assert LogGrows(term, h1.elections[term], h2.elections[term]);
    var q: set<Addr> :| HasQuorum(h1, term, k, q);
    assert HasQuorum(h2, term, k, q);
    assert LeaderLog(h1, term)[k - 1] == LeaderLog(h2, term)[k - 1];
  }

  lemma CertifiedStable(h1: History, h2: History, l: Log, c: nat, upTo: nat, upTo': nat)
    requires Extends(h1, h2) && Certified(h1, l, c, upTo) && upTo <= upTo'
    ensures Certified(h2, l, c, upTo')
  {
    if c > 0 {
      var term: nat, k: nat :| CertifiedBy(h1, l, c, upTo, term, k);
      CommittedStable(h1, h2, term, k);
      HasStable(h1, h2, l, term, c);
      assert CertifiedBy(h2, l, c, upTo', term, k);
    }
  }

  /** Logs that agree up to c are certified together. */
  lemma CertifiedTransfer(h: History, l: Log, l': Log, c: nat, upTo: nat)
    requires Certified(h, l, c, upTo) && Has(l, l', c)
    ensures Certified(h, l', c, upTo)
  {
    if c > 0 {
      var term: nat, k: nat :| CertifiedBy(h, l, c, upTo, term, k);
      assert CertifiedBy(h, l', c, upTo, term, k);
    }
  }

  lemma CertifiedLess(h: History, l: Log, c: nat, c': nat, upTo: nat)
    requires Certified(h, l, c, upTo) && c' <= c
    ensures Certified(h, l, c', upTo)
  {
    if c' > 0 {
      var term: nat, k: nat :| CertifiedBy(h, l, c, upTo, term, k);
      var m := LeaderLog(h, term);
      assert l[..c'] == l[..c][..c'] == m[..c][..c'] == m[..c'];
      assert CertifiedBy(h, l, c', upTo, term, k);
    }
  }

  lemma MessageStable(h1: History, h2: History, m: Message)
    requires Extends(h1, h2) && MessageOk(h1, m)
    ensures MessageOk(h2, m)
  {
    match m
    case AppendEntries(src, _, term, pre, preTerm, commit, es) =>
      assert LogGrows(term, h1.elections[term], h2.elections[term]);
      var l1, l2 := LeaderLog(h1, term), LeaderLog(h2, term);
      forall j | 0 <= j < |es|
        ensures es[j] == LogEntry(pre + 1 + j, l2[pre + j])
      {
        assert l1[pre + j] == l2[pre + j];
      }
      CertifiedStable(h1, h2, l1, commit, term, term);
      CertifiedTransfer(h2, l1, l2, commit, term);
      if pre > 0 {
        assert l1[pre - 1] == l2[pre - 1];
      }
    case AppendEntriesReply(_, _, _, _, _, _, _, reqTerm) =>
      assert LogGrows(reqTerm, h1.elections[reqTerm], h2.elections[reqTerm]);
    case _ =>
  }

  lemma OtherLogStable(h1: History, h2: History, me: Addr, s: Server)
    requires HistOk(h1) && GrowsBy(me, h1, h2) && LogOk_(h1, s) && s.me != me
    ensures LogOk_(h2, s)
  {
    GoodStable(h1, h2, s.log);
    forall term: nat, k: nat | Acked(h2, term, s.me, k)
      ensures Kept(h2, term, k, s.log, s.term)
    {
      assert Acked(h1, term, s.me, k) && AckOk(h1, term, s.me);
      KeptStable(h1, h2, term, k, s.log, s.term, s.term);
    }
  }

  lemma RoleStable(h1: History, h2: History, s: Server)
    requires Extends(h1, h2) && RoleOk(h1, s)
    ensures RoleOk(h2, s)
  {
    if s.leader != NO_ADDR {
      assert LogGrows(s.term, h1.elections[s.term], h2.elections[s.term]);
    }
    if s.role == Leader {
      assert LogGrows(s.term, h1.elections[s.term], h2.elections[s.term]);
    }
  }

  lemma ApplyStable(h1: History, h2: History, s: Server)
    requires Extends(h1, h2) && ApplyOk(h1, s)
    ensures ApplyOk(h2, s)
  {
    CertifiedStable(h1, h2, s.log, s.commit, s.term, s.term);
    CertifiedStable(h1, h2, s.log, s.lastApply, s.term, s.term);
  }

  /** What one server does leaves the invariant of every other server in place. */
  lemma OtherStable(h1: History, h2: History, me: Addr, s: Server)
    requires HistOk(h1) && GrowsBy(me, h1, h2) && ServerOk(h1, s) && s.me != me
    ensures ServerOk(h2, s)
  {
    OtherLogStable(h1, h2, me, s);
    RoleStable(h1, h2, s);
    ApplyStable(h1, h2, s);
  }
}
