/** Requests for votes, and the election itself. */
module VoteSteps {
  import opened RaftTypes
  import opened Quorum
  import opened RaftStep
  import opened Cluster
  import opened Invariant
  import opened Stability
  import opened HistorySteps
  import opened Completeness
  import opened ServerSteps

  // ---------- voting

  /** What a server acknowledged in earlier terms, it kept up to any term without a leader. */
  lemma KeptBeforeVote(h: History, s: Server, term: nat)
    requires HistOk(h) && LogOk_(h, s) && s.term <= term
    requires s.term == term ==> term !in h.elections
    ensures forall t: nat, k: nat | t < term && Acked(h, t, s.me, k) :: Kept(h, t, k, s.log, term - 1)
  {
    forall t: nat, k: nat | t < term && Acked(h, t, s.me, k)
      ensures Kept(h, t, k, s.log, term - 1)
    {
      assert Kept(h, t, k, s.log, s.term);
    }
  }

  /** A server that has cast a vote the history records still satisfies its invariant. */
  lemma VoterOk(h: History, h': History, s: Server, c: Addr)
    requires HistOk(h) && HistOk(h') && GrowsBy(s.me, h, h') && ServerOk(h, s)
    requires s.vote == NO_ADDR && c != NO_ADDR && c != s.me && s.role != Candidate
    requires h' == h.(votes := h.votes[(s.term, s.me) := VoteRec(c, s.log)])
    ensures ServerOk(h', s.(vote := c))
  {
    hide Certified;
    var s' := s.(vote := c);
    GoodStable(h, h', s.log);
    forall t: nat, k: nat | Acked(h', t, s.me, k)
      ensures Kept(h', t, k, s.log, s.term)
    {
      assert Acked(h, t, s.me, k) && AckOk(h, t, s.me);
      KeptStable(h, h', t, k, s.log, s.term, s.term);
    }
    assert LogOk_(h', s');
    RoleStable(h, h', s);
    ApplyStable(h, h', s);
  }

  /** The history after s votes for c. */
  ghost function Balloted(h: History, s: Server, c: Addr): History {
    h.(votes := h.votes[(s.term, s.me) := VoteRec(c, s.log)])
  }

  /** s may vote for a candidate whose log is up to date with its own. */
  lemma GrantGrows(h: History, s: Server, c: Addr)
    requires HistOk(h) && Shaped(h, s) && BallotOk(h, s) && LogOk_(h, s)
    requires s.vote == NO_ADDR && c != s.me && Voted(h, s.term, c, c)
    requires UpToDate(VoteLog(h, s.term, c), s.log)
    ensures HistOk(Balloted(h, s, c)) && GrowsBy(s.me, h, Balloted(h, s, c))
  {
    hide Good, GrowsBy;
    var h' := Balloted(h, s, c);
    assert VoteOk(h, s.term, c);
    assert Extends(h, h');
    GoodStable(h, h', s.log);
    assert VoteLog(h', s.term, c) == VoteLog(h, s.term, c);
    assert VoteOk(h', s.term, s.me);
    if s.term !in h.elections {
      KeptBeforeVote(h, s, s.term);
    }
    VoteGrows(h, h', s.me, c, s.term, s.log);
  }

  lemma GrantOk(h: History, s: Server, s1: Server, m: Message, e: Effect)
    requires HistOk(h) && ServerOk(h, s1) && MessageOk(h, m) && m.RequestVote?
    requires s1.me == s.me && s1.log == s.log && s1.role == Follower && s1.vote == NO_ADDR
    requires m.term == s1.term && LogOk(s1, m.lastLogIndex, m.lastLogTerm) && !m.preVote && m.src != s.me
    requires e.server == s1.(vote := m.src)
    requires e.sent == [RequestVoteReply(s.me, m.src, s1.term, true, false, true, true, s1.term)]
    ensures StepOk(h, s, e)
  {
    hide HistOk, ServerOk, Extends, GrowsBy, Record, UpToDate;
    var h' := Balloted(h, s1, m.src);
    RequestTells(h, s1, m);
    GrantGrows(h, s1, m.src);
    VoterOk(h, h', s1, m.src);
    VoteRecorded(h, s, s1, m.src, e);
  }

  /** A request the log test accepts comes from a candidate whose log is up to date. */
  lemma RequestTells(h: History, s: Server, m: Message)
    requires HistOk(h) && ServerOk(h, s) && MessageOk(h, m) && m.RequestVote? && !m.preVote
    requires m.term == s.term && LogOk(s, m.lastLogIndex, m.lastLogTerm)
    ensures Voted(h, s.term, m.src, m.src) && UpToDate(VoteLog(h, s.term, m.src), s.log) && m.src != NO_ADDR
    ensures Shaped(h, s) && BallotOk(h, s) && LogOk_(h, s) && m.src in h.members
  {
    OwnLog(h, s);
  }

  lemma VoteRecorded(h: History, s: Server, s1: Server, c: Addr, e: Effect)
    requires s1.me == s.me && s1.log == s.log && s1.vote == NO_ADDR && c != NO_ADDR && c != s.me
    requires (s1.term, s1.me) !in h.votes && c in h.members && s.me in h.members && Voted(h, s1.term, c, c)
    requires e.server == s1.(vote := c)
    requires e.sent == [RequestVoteReply(s.me, c, s1.term, true, false, true, true, s1.term)]
    requires HistOk(Balloted(h, s1, c)) && GrowsBy(s.me, h, Balloted(h, s1, c))
    requires ServerOk(Balloted(h, s1, c), e.server)
    ensures StepOk(h, s, e)
  {
    hide HistOk, ServerOk, GrowsBy;
    var h' := Balloted(h, s1, c);
    assert RecordVote(h, s, e.server) == h' == RecordVote(h', s, e.server);
    RecordsNothing(h', s, e);
    assert MessageOk(h', e.sent[0]);
  }

  /** The server that decides on a request: it has caught up with the request's term. */
  ghost function CaughtUp(s: Server, term: nat): Server {
    if term > s.term then StepDown(s, term) else s
  }

  lemma CaughtUpOk(h: History, s: Server, term: nat)
    requires HistOk(h) && ServerOk(h, s)
    ensures ServerOk(h, CaughtUp(s, term))
  {
    if term > s.term {
      StepDownOk(h, s, term);
    }
  }

  lemma RealAddress(h: History, a: Addr)
    requires HistOk(h) && a in h.members
    ensures a != NO_ADDR
  {
  }

  lemma RecordedVote(h: History, s: Server)
    requires ServerOk(h, s)
    ensures s.vote != NO_ADDR ==> Voted(h, s.term, s.me, s.vote)
  {
  }

  /** Replying to a request for a vote without casting one. */
  lemma VoteReplyOk(h: History, s: Server, m: Message, e: Effect)
    requires HistOk(h) && ServerOk(h, e.server) && e.server.me == s.me && MessageOk(h, m) && m.dest == s.me
    requires |e.sent| == 1 && e.sent[0].RequestVoteReply? && m.RequestVote? && e.sent[0].preVote == m.preVote
    requires e.sent[0].src == m.dest && e.sent[0].dest == m.src && e.sent[0].reqTerm == m.term
    requires e.sent[0].granted && !e.sent[0].preVote ==> e.server.term == m.term && e.server.vote == m.src
    ensures StepOk(h, s, e)
  {
    hide HistOk, ServerOk, StepOk;
    RecordedVote(h, e.server);
    RealAddress(h, m.src);
    assert MessageOk(h, e.sent[0]);
    Quiet(h, s, e);
  }

  lemma RequestSource(h: History, m: Message)
    requires MessageOk(h, m)
    ensures m.src != m.dest
  {
  }

  lemma SameLogOk(s: Server, s1: Server, m: Message)
    requires m.RequestVote? && s1.log == s.log && s1.sm == s.sm
    ensures LogOk(s1, m.lastLogIndex, m.lastLogTerm) == LogOk(s, m.lastLogIndex, m.lastLogTerm)
  {
  }

  /** The effect of a request that wins a vote. */
  lemma GrantedReply(s: Server, m: Message, intervalOk: bool)
    requires m.RequestVote? && !m.preVote && m.dest == s.me && (intervalOk || m.leaderTransfer)
    requires m.term >= s.term && StepDown(s, m.term).vote == NO_ADDR && LogOk(s, m.lastLogIndex, m.lastLogTerm)
    ensures OnRequestVote(s, m, intervalOk) ==
            Effect(StepDown(s, m.term).(vote := m.src),
                   [RequestVoteReply(s.me, m.src, m.term, true, false, true, true, m.term)])
  {
    hide LogOk;
  }

  lemma RealVoteOk(h: History, s: Server, m: Message, intervalOk: bool)
    requires HistOk(h) && MessageOk(h, m) && m.RequestVote? && !m.preVote && m.dest == s.me
    requires intervalOk || m.leaderTransfer
    requires m.term >= s.term && ServerOk(h, StepDown(s, m.term)) && StepDown(s, m.term).vote == NO_ADDR
    requires LogOk(s, m.lastLogIndex, m.lastLogTerm)
    ensures StepOk(h, s, OnRequestVote(s, m, intervalOk))
  {
    hide HistOk, ServerOk, StepOk, MessageOk, LogOk;
    SameLogOk(s, StepDown(s, m.term), m);
    GrantedReply(s, m, intervalOk);
    RequestSource(h, m);
    GrantOk(h, s, StepDown(s, m.term), m, OnRequestVote(s, m, intervalOk));
  }

  lemma OnRequestVoteOk(h: History, s: Server, m: Message, intervalOk: bool)
    requires HistOk(h) && ServerOk(h, s) && MessageOk(h, m) && m.RequestVote? && m.dest == s.me
    ensures StepOk(h, s, OnRequestVote(s, m, intervalOk))
  {
    hide HistOk, ServerOk, StepOk;
    var e := OnRequestVote(s, m, intervalOk);
    if !intervalOk && !m.leaderTransfer {
      VoteReplyOk(h, s, m, e);
    } else {
      var s1 := CaughtUp(s, m.term);
      CaughtUpOk(h, s, m.term);
      if m.term == s1.term && LogOk(s, m.lastLogIndex, m.lastLogTerm) && s1.vote == NO_ADDR {
        StepDownOk(h, s1, s1.term);
        if m.preVote {
          VoteReplyOk(h, s, m, e);
        } else {
          RealVoteOk(h, s, m, intervalOk);
        }
      } else {
        VoteReplyOk(h, s, m, e);
      }
    }
  }

  // ---------- becoming leader

  lemma DataBetweenPrefix(l: Log, l': Log, lo: nat, hi: nat)
    requires hi <= |l| && hi <= |l'| && l[..hi] == l'[..hi]
    ensures DataBetween(l, lo, hi) == DataBetween(l', lo, hi)
  {
    if lo < hi {
      assert l[hi - 1] == l[..hi][hi - 1] == l'[..hi][hi - 1] == l'[hi - 1];
      HasLess(l, l', hi, hi - 1);
      DataBetweenPrefix(l, l', lo, hi - 1);
    }
  }

  /** A server whose log is now its own leader log of the term, grown at the end. */
  lemma LeaderLogOk(h: History, h': History, s: Server, s': Server)
    requires HistOk(h) && HistOk(h') && GrowsBy(s.me, h, h')
    requires LogOk_(h, s) && ApplyOk(h, s)
    requires s'.me == s.me && s'.term == s.term && s.log <= s'.log && s'.sm == s.sm
    requires s'.commit == s.commit && s'.lastApply == s.lastApply
    requires LedBy(h', s.term, s.me) && LeaderLog(h', s.term) == s'.log && Acked(h', s.term, s.me, |s'.log|)
    requires forall t: nat, k: nat | t != s.term && Acked(h', t, s.me, k) :: Acked(h, t, s.me, k)
    requires TermsAtMost(s'.log, s.term)
    ensures LogOk_(h', s') && ApplyOk(h', s')
  {
    hide Good, Certified, Extends, Lost;
    assert ElectionOk(h', s.term);
    forall t: nat, k: nat | Acked(h', t, s.me, k)
      ensures Kept(h', t, k, s'.log, s.term)
    {
      if t == s.term {
        assert AckOk(h', t, s.me);
      } else {
        assert Acked(h, t, s.me, k) && AckOk(h, t, s.me);
        KeptStable(h, h', t, k, s.log, s.term, s.term);
        if Has(s.log, LeaderLog(h', t), k) {
          assert s.log[..k] == s'.log[..k];
        }
      }
    }
    ApplyStable(h, h', s);
    assert Has(s.log, s'.log, |s.log|);
    HasLess(s.log, s'.log, |s.log|, s.commit);
    HasLess(s.log, s'.log, |s.log|, s.lastApply);
    CertifiedTransfer(h', s.log, s'.log, s.commit, s.term);
    CertifiedTransfer(h', s.log, s'.log, s.lastApply, s.term);
    DataBetweenPrefix(s.log, s'.log, 0, s.lastApply);
  }

  /** The code's threshold is a strict majority for the sizes in question. */
  lemma ThresholdIsMajority(h: History, s: Server)
    requires HistOk(h) && Shaped(h, s)
    requires Majority(s.votes, true)
    requires |h.members| == 2 ==> Granted(s.votes) != {}
    ensures 2 * |Granted(s.votes) + {s.me}| > |h.members|
    ensures Granted(s.votes) + {s.me} <= h.members
  {
    assert |h.members| == |PeerSet(s.peers)| + 1;
    assert |s.votes.Keys| == |s.votes|;
    assert s.me !in Granted(s.votes);
    assert |Granted(s.votes) + {s.me}| == |Granted(s.votes)| + 1;
  }

  /** Nobody else leads the term of a server that more than half voted for. */
  lemma OnlyWinner(h: History, term: nat, me: Addr, q: set<Addr>)
    requires HistOk(h) && q <= h.members && 2 * |q| > |h.members|
    requires forall v | v in q :: Voted(h, term, v, me)
    requires term in h.elections
    ensures LedBy(h, term, me)
  {
    assert ElectionOk(h, term);
    var v := QuorumsMeet(h.members, q, h.elections[term].quorum);
    assert Voted(h, term, v, me) && Voted(h, term, v, h.elections[term].leader);
  }

  /** The history after s, a candidate that more than half voted for, becomes leader. */
  ghost function Crowned(h: History, s: Server): History {
    var log' := BecomeLeaderLog(s);
    var e := if s.term in h.elections then h.elections[s.term].(llog := log')
             else Election(s.me, Granted(s.votes) + {s.me}, s.log, log');
    h.(elections := h.elections[s.term := e], acked := h.acked[(s.term, s.me) := |log'|])
  }

  ghost function BecomeLeaderLog(s: Server): Log {
    s.log + [NoopEntry(s.term)]
  }

  lemma AcksHaveLeader(h: History, term: nat, a: Addr)
    requires HistOk(h)
    ensures (term, a) in h.acked ==> term in h.elections
  {
    if (term, a) in h.acked {
      assert AckOk(h, term, a);
    }
  }

  lemma CrownedOk(h: History, s: Server)
    requires HistOk(h) && ServerOk(h, s) && s.role == Candidate && s.vote == s.me
    requires Majority(s.votes, true)
    requires |h.members| == 2 ==> Granted(s.votes) != {}
    ensures HistOk(Crowned(h, s)) && GrowsBy(s.me, h, Crowned(h, s))
    ensures LedBy(Crowned(h, s), s.term, s.me)
  {
    hide ApplyOk, Majority, Extends;
    var q := Granted(s.votes) + {s.me};
    ThresholdIsMajority(h, s);
    if s.term in h.elections {
      OnlyWinner(h, s.term, s.me, q);
      AppendGrows(h, Crowned(h, s), s.me, s.term, BecomeLeaderLog(s));
    } else {
      AcksHaveLeader(h, s.term, s.me);
      ElectionGrows(h, Crowned(h, s), s.me, s.term, q, s.log, BecomeLeaderLog(s));
    }
  }

  lemma NewLeaderRole(h: History, s: Server)
    requires s.role == Candidate && LedBy(h, s.term, s.me) && LastIndex(s) == |s.log|
    ensures RoleOk(h, BecomeLeader(s))
  {
  }

  lemma NewLeaderRest(h: History, h': History, s: Server)
    requires GrowsBy(s.me, h, h') && h'.votes == h.votes && s.role == Candidate
    requires Shaped(h, s) && BallotOk(h, s)
    requires forall t: nat | t > s.term && (t, s.me) in h'.acked :: (t, s.me) in h.acked
    ensures Shaped(h', BecomeLeader(s)) && BallotOk(h', BecomeLeader(s))
  {
  }

  lemma NewLeaderLog(h: History, s: Server)
    requires HistOk(h) && HistOk(Crowned(h, s)) && GrowsBy(s.me, h, Crowned(h, s))
    requires LogOk_(h, s) && ApplyOk(h, s) && s.role == Candidate
    requires LedBy(Crowned(h, s), s.term, s.me)
    ensures LogOk_(Crowned(h, s), BecomeLeader(s)) && ApplyOk(Crowned(h, s), BecomeLeader(s))
  {
    hide HistOk, Good, Certified, Extends, GrowsBy, ApplyOk;
    LeaderLogOk(h, Crowned(h, s), s, BecomeLeader(s));
  }

  lemma BecomeLeaderOk(h: History, s: Server)
    requires HistOk(h) && ServerOk(h, s) && s.role == Candidate && s.vote == s.me
    requires Majority(s.votes, true)
    requires |h.members| == 2 ==> Granted(s.votes) != {}
    ensures HistOk(Crowned(h, s)) && GrowsBy(s.me, h, Crowned(h, s))
    ensures ServerOk(Crowned(h, s), BecomeLeader(s))
  {
    var h' := Crowned(h, s);
    CrownedOk(h, s);
    OwnLog(h, s);
    NewLeaderLog(h, s);
    NewLeaderRole(h', s);
    NewLeaderRest(h, h', s);
  }

  /** A server that has voted for itself in its term still has that vote. */
  lemma OwnVoteStands(h: History, s: Server)
    requires ServerOk(h, s) && Voted(h, s.term, s.me, s.me)
    ensures s.vote == s.me
  {
  }

  /** What is recorded when a server, from the state s on, wins as s2. */
  lemma RecordsCrown(h: History, s: Server, s2: Server)
    requires s2.role == Candidate && s2.vote == s2.me == s.me && s2.log == s.log && s.me != NO_ADDR
    requires (s2.term, s.me) in h.votes
    requires s2.term in h.elections ==> LedBy(h, s2.term, s.me)
    ensures Record(h, s, Effect(BecomeLeader(s2), [])) == Crowned(h, s2)
  {
    var s' := BecomeLeader(s2);
    assert Supporters(s') == Granted(s2.votes) + {s.me};
    var h2 := RecordElection(h, s, s');
    assert h2.elections[s2.term := h2.elections[s2.term].(llog := s'.log)] == Crowned(h, s2).elections;
  }

  lemma SelfVote(h: History, s: Server)
    requires HistOk(h) && Shaped(h, s) && BallotOk(h, s) && s.vote == s.me
    ensures s.me != NO_ADDR && Voted(h, s.term, s.me, s.me)
  {
  }

  lemma CrownLeads(h: History, s: Server)
    requires HistOk(h) && ServerOk(h, s) && s.role == Candidate && s.vote == s.me
    requires Majority(s.votes, true)
    requires |h.members| == 2 ==> Granted(s.votes) != {}
    ensures s.term in h.elections ==> LedBy(h, s.term, s.me)
  {
    ThresholdIsMajority(h, s);
    if s.term in h.elections {
      OnlyWinner(h, s.term, s.me, Granted(s.votes) + {s.me});
    }
  }

  /** Winning as s2, from the state s on. */
  lemma WinOk(h: History, s: Server, s2: Server)
    requires HistOk(h) && ServerOk(h, s2) && s2.role == Candidate && s2.vote == s2.me
    requires Majority(s2.votes, true)
    requires |h.members| == 2 ==> Granted(s2.votes) != {}
    requires s2.me == s.me && s2.log == s.log
    ensures StepOk(h, s, Effect(BecomeLeader(s2), []))
  {
    SelfVote(h, s2);
    CrownLeads(h, s2);
    RecordsCrown(h, s, s2);
    hide HistOk, ServerOk;
    BecomeLeaderOk(h, s2);
  }

  // ---------- standing for election

  /** The server after it has moved to a new term and voted for itself. */
  ghost function Standing(s: Server): Server {
    BecomeCandidate(s.(term := s.term + 1)).(vote := s.me)
  }

  lemma SelfVoteOk(h: History, me: Addr, term: nat, log: Log)
    requires me in h.members && (term, me) !in h.votes
    requires Good(h, log) && TermsAtMost(log, term - 1)
    ensures var h' := h.(votes := h.votes[(term, me) := VoteRec(me, log)]); VoteOk(h', term, me)
  {
    var h' := h.(votes := h.votes[(term, me) := VoteRec(me, log)]);
    assert Extends(h, h');
    GoodStable(h, h', log);
  }

  lemma StandGrows(h: History, s: Server)
    requires HistOk(h) && Shaped(h, s) && BallotOk(h, s) && LogOk_(h, s)
    ensures HistOk(Balloted(h, Standing(s), s.me)) && GrowsBy(s.me, h, Balloted(h, Standing(s), s.me))
  {
    hide HistOk, Good, Extends;
    var h', t := Balloted(h, Standing(s), s.me), s.term + 1;
    SelfVoteOk(h, s.me, t, s.log);
    KeptBeforeVote(h, s, t);
    hide HistOk, VoteOk;
    VoteGrows(h, h', s.me, s.me, t, s.log);
  }

  /** The log of a server that has just stood, against the history with its vote. */
  lemma StandingLog(h: History, h': History, s: Server, s1: Server)
    requires HistOk(h) && GrowsBy(s.me, h, h') && BallotOk(h, s) && LogOk_(h, s) && ApplyOk(h, s)
    requires s1.me == s.me && s1.term > s.term && s1.log == s.log && s1.sm == s.sm
    requires s1.commit == s.commit && s1.lastApply == s.lastApply
    requires h'.elections == h.elections && h'.acked == h.acked
    requires VoteLog(h', s1.term, s.me) == s.log
    ensures LogOk_(h', s1) && ApplyOk(h', s1)
  {
    LaterTerm(h, s, s1);
    GoodStable(h, h', s.log);
    forall t: nat, k: nat | Acked(h', t, s.me, k)
      ensures Kept(h', t, k, s1.log, s1.term)
    {
      assert Acked(h, t, s.me, k) && AckOk(h, t, s.me);
      KeptStable(h, h', t, k, s.log, s.term, s1.term);
    }
    ApplyStable(h, h', s1);
  }

  lemma StandingRest(h: History, h': History, s: Server, s1: Server)
    requires GrowsBy(s.me, h, h') && Shaped(h, s) && BallotOk(h, s) && s.me != NO_ADDR
    requires s1.me == s.me && s1.peers == s.peers && s1.term == s.term + 1 && s1.vote == s.me
    requires s1.votes == Fill(s.votes.Keys, NO_VOTE) && s1.indices == s.indices
    requires s1.role == Candidate && s1.leader == NO_ADDR && TimersOk(s1)
    requires Voted(h', s1.term, s.me, s.me) && s1.log == VoteLog(h', s1.term, s.me) && h'.acked == h.acked
    requires forall t: nat | t > s1.term :: (t, s.me) !in h'.votes
    ensures Shaped(h', s1) && BallotOk(h', s1) && RoleOk(h', s1)
  {
  }

  lemma StandingOk(h: History, s: Server)
    requires HistOk(h) && ServerOk(h, s) && s.role != Leader
    requires GrowsBy(s.me, h, Balloted(h, Standing(s), s.me))
    ensures ServerOk(Balloted(h, Standing(s), s.me), Standing(s))
  {
    hide HistOk, Good, Certified, LogOk_, ApplyOk;
    var h', s1 := Balloted(h, Standing(s), s.me), Standing(s);
    RealAddress(h, s.me);
    StandingRest(h, h', s, s1);
    StandingLog(h, h', s, s1);
  }

  lemma TimersOnly(h: History, s: Server, timers: Timers)
    requires ServerOk(h, s) && TimersOk(s.(timers := timers))
    ensures ServerOk(h, s.(timers := timers))
  {
  }

  lemma StandOk(h: History, s: Server)
    requires HistOk(h) && ServerOk(h, s) && s.role != Leader && s.peers != []
    ensures StepOk(h, s, Effect(StartCampaign(Standing(s)), []))
  {
    var h', e := Balloted(h, Standing(s), s.me), Effect(StartCampaign(Standing(s)), []);
    StandGrows(h, s);
    StandingOk(h, s);
    TimersOnly(h', Standing(s), StartCampaign(Standing(s)).timers);
    assert RecordVote(h, s, e.server) == h';
    hide HistOk, ServerOk;
    RecordsNothing(h', s, e);
  }

  lemma StandAloneOk(h: History, s: Server)
    requires HistOk(h) && ServerOk(h, s) && s.role != Leader && s.peers == []
    ensures StepOk(h, s, Effect(BecomeLeader(Standing(s)), []))
  {
    var h' := Balloted(h, Standing(s), s.me);
    var s1, e := Standing(s), Effect(BecomeLeader(Standing(s)), []);
    StandGrows(h, s);
    StandingOk(h, s);
    assert |h.members| == 1 && Majority(s1.votes, true) by {
      assert h.members == {s.me};
    }
    assert RecordVote(h, s, e.server) == h' == RecordVote(h', s, e.server);
    hide HistOk, ServerOk;
    WinOk(h', s, s1);
    GrowsTransitive(s.me, h, h', Record(h', s, e));
  }

  lemma RowsAndRole(h: History, s: Server)
    requires ServerOk(h, s)
    ensures s.votes.Keys == PeerSet(s.peers)
  {
  }

  lemma AloneOrNot(s: Server)
    requires s.votes.Keys == PeerSet(s.peers)
    ensures QuorumAll(Standing(s).votes, true) <==> s.peers == []
  {
    if s.peers != [] {
      assert s.peers[0] in Standing(s).votes;
    }
  }

  lemma DoRequestVoteOk(h: History, s: Server)
    requires HistOk(h) && ServerOk(h, s) && s.role != Leader
    ensures StepOk(h, s, Effect(DoRequestVote(s), []))
  {
    hide HistOk, ServerOk, StepOk;
    RowsAndRole(h, s);
    AloneOrNot(s);
    if s.peers == [] {
      StandAloneOk(h, s);
    } else {
      StandOk(h, s);
    }
  }

  // ---------- replies

  /** Any change to the rows of the vote table that grants only what was voted. */
  lemma RowsOk(h: History, s: Server, votes: map<Addr, VoteItem>, stopped: set<Addr>)
    requires Shaped(h, s) && RoleOk(h, s) && votes.Keys == s.votes.Keys
    requires forall j | j in votes :: votes[j].grant ==> s.votes[j].grant || Voted(h, s.term, j, s.me)
    ensures var s' := s.(votes := votes, timers := s.timers.(requestVotes := s.timers.requestVotes - stopped));
            Shaped(h, s') && RoleOk(h, s')
  {
  }

  lemma CountedOk(h: History, s: Server, j: Addr, granted: bool)
    requires ServerOk(h, s) && j in h.members && j != s.me
    requires granted ==> Voted(h, s.term, j, s.me)
    ensures ServerOk(h, NoteVote(s, j, granted))
  {
    CountedRows(s, j, granted);
    RowsOk(h, s, NoteVote(s, j, granted).votes, {j});
    OnlyRows(h, s, NoteVote(s, j, granted));
  }

  lemma CountedRows(s: Server, j: Addr, granted: bool)
    requires j in s.votes
    ensures var s' := NoteVote(s, j, granted);
            && s'.votes.Keys == s.votes.Keys
            && (forall i | i in s.votes :: s'.votes[i].grant ==> s.votes[i].grant || (granted && i == j))
            && s' == s.(votes := s'.votes, timers := s.timers.(requestVotes := s.timers.requestVotes - {j}))
  {
  }

  /** The parts of a server's invariant that the vote table and the timers do not touch. */
  lemma OnlyRows(h: History, s: Server, s': Server)
    requires ServerOk(h, s) && s' == s.(votes := s'.votes, timers := s'.timers)
    requires Shaped(h, s') && RoleOk(h, s')
    ensures ServerOk(h, s')
  {
  }

  lemma OnRealVoteOk(h: History, s: Server, j: Addr, granted: bool)
    requires HistOk(h) && ServerOk(h, s) && j in h.members && j != s.me
    requires granted ==> Voted(h, s.term, j, s.me) && Voted(h, s.term, s.me, s.me)
    ensures StepOk(h, s, Effect(OnRealVote(s, j, granted), []))
  {
    var s2 := NoteVote(s, j, granted);
    CountedOk(h, s, j, granted);
    assert granted ==> j in Granted(s2.votes);
    if granted {
      OwnVoteStands(h, s2);
    }
    hide HistOk, ServerOk, StepOk;
    if granted && Majority(s2.votes, s2.vote == s2.me) && s2.role == Candidate {
      WinOk(h, s, s2);
    } else {
      Quiet(h, s, Effect(s2, []));
    }
  }

  lemma NotedRows(s: Server, j: Addr, logOk: bool, intervalOk: bool)
    requires j in s.votes
    ensures var s' := NotePreVote(s, j, logOk, intervalOk);
            && s'.votes.Keys == s.votes.Keys
            && (forall i | i in s.votes :: s'.votes[i].grant == s.votes[i].grant)
            && s' == s.(votes := s'.votes, timers := s.timers.(requestVotes := s.timers.requestVotes - {j}))
  {
  }

  lemma NotedOk(h: History, s: Server, j: Addr, logOk: bool, intervalOk: bool)
    requires ServerOk(h, s) && j in h.members && j != s.me
    ensures ServerOk(h, NotePreVote(s, j, logOk, intervalOk))
  {
    NotedRows(s, j, logOk, intervalOk);
    RowsOk(h, s, NotePreVote(s, j, logOk, intervalOk).votes, {j});
    OnlyRows(h, s, NotePreVote(s, j, logOk, intervalOk));
  }

  /** Standing forgets the role and the pre-vote flag it started from. */
  ghost function Retired(s: Server): Server {
    s.(role := Follower, preVoting := false, timers := s.timers.(requestVotes := {}))
  }

  lemma RetiredOk(h: History, s: Server)
    requires ServerOk(h, s) && s.role != Leader
    ensures ServerOk(h, Retired(s))
    ensures DoRequestVote(s.(preVoting := false)) == DoRequestVote(Retired(s))
  {
    hide Good, TermsAtMost, Certified, Kept, Voted, VoteLog, Acked, LeaderLog, DataBetween, DoRequestVote;
    RetiredStands(s);
  }

  lemma RetiredStands(s: Server)
    requires s.timers.election
    ensures DoRequestVote(s.(preVoting := false)) == DoRequestVote(Retired(s))
  {
    hide QuorumAll, Fill;
  }

  /** Only the log and the name of the state before matter to what is recorded. */
  lemma StepFrom(h: History, s: Server, s1: Server, e: Effect)
    requires StepOk(h, s1, e) && s1.me == s.me && s1.log == s.log
    ensures StepOk(h, s, e)
  {
  }

  /** Standing for election from a state that differs from s in votes, flags and timers at most. */
  lemma StandFrom(h: History, s: Server, s1: Server)
    requires HistOk(h) && ServerOk(h, s1) && s1.role != Leader && s1.me == s.me && s1.log == s.log
    ensures StepOk(h, s, Effect(DoRequestVote(s1.(preVoting := false)), []))
  {
    hide HistOk, ServerOk, StepOk;
    RetiredOk(h, s1);
    DoRequestVoteOk(h, Retired(s1));
    StepFrom(h, s, Retired(s1), Effect(DoRequestVote(Retired(s1)), []));
  }

  lemma OnPreVoteOk(h: History, s: Server, j: Addr, logOk: bool, intervalOk: bool)
    requires HistOk(h) && ServerOk(h, s) && j in h.members && j != s.me
    ensures StepOk(h, s, Effect(OnPreVote(s, j, logOk, intervalOk), []))
  {
    hide HistOk, ServerOk, StepOk;
    var s3 := NotePreVote(s, j, logOk, intervalOk);
    NotedOk(h, s, j, logOk, intervalOk);
    if logOk && MajorityPreVoteOk(s3.votes, true) && s3.role == Candidate && s3.preVoting {
      StandFrom(h, s, s3);
    } else {
      Quiet(h, s, Effect(s3, []));
    }
  }

  lemma OnRequestVoteReplyOk(h: History, s: Server, m: Message)
    requires HistOk(h) && ServerOk(h, s) && MessageOk(h, m) && m.RequestVoteReply? && m.dest == s.me
    ensures StepOk(h, s, OnRequestVoteReply(s, m))
  {
    hide HistOk, ServerOk, StepOk;
    if m.term < s.term || m.reqTerm != s.term {
      Quiet(h, s, Effect(s, []));
    } else if m.term > s.term {
      StepDownOk(h, s, m.term);
      Quiet(h, s, Effect(StepDown(s, m.term), []));
    } else if !m.preVote {
      OnRealVoteOk(h, s, m.src, m.granted);
    } else {
      OnPreVoteOk(h, s, m.src, m.logOk, m.intervalOk);
    }
  }

  lemma ElectOk(h: History, s: Server, preVote: bool)
    requires HistOk(h) && ServerOk(h, s) && s.role != Leader
    ensures StepOk(h, s, Elect(s, preVote))
  {
    hide HistOk, ServerOk, StepOk;
    if preVote && |s.peers| > 0 {
      DoPreVoteOk(h, s);
      Quiet(h, s, Effect(DoPreVote(s.(preVoting := true)), []));
    } else {
      StandFrom(h, s, s);
    }
  }

  lemma SendRequestVoteOk(h: History, s: Server, dest: Addr)
    requires HistOk(h) && ServerOk(h, s) && s.role == Candidate && dest in h.members && dest != s.me
    ensures StepOk(h, s, SendRequestVote(s, dest))
  {
    var e := SendRequestVote(s, dest);
    OwnLog(h, s);
    assert MessageOk(h, e.sent[0]) by {
      if !s.preVoting {
        SelfVote(h, s);
      }
    }
    assert ServerOk(h, e.server);
    Quiet(h, s, e);
  }
}
