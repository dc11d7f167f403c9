/** Log replication: sending entries, accepting them, and hearing back. */
module AppendSteps {
  import opened RaftTypes
  import opened Quorum
  import opened RaftStep
  import opened Reconciling
  import opened Cluster
  import opened Invariant
  import opened Stability
  import opened HistorySteps
  import opened Completeness
  import opened ServerSteps
  import opened VoteSteps
  import opened ApplySteps

  // ---------- sending

  lemma LeaderTables(h: History, s: Server, j: Addr)
    requires HistOk(h) && ServerOk(h, s) && s.role == Leader && j in s.peers
    ensures j in s.indices && 1 <= s.indices[j].next <= |s.log| + 1
    ensures LedBy(h, s.term, s.me) && s.log == LeaderLog(h, s.term)
    ensures j in h.members && s.me in h.members && j != s.me
  {
    assert j in PeerSet(s.peers);
  }

  lemma OwnCertificates(h: History, s: Server)
    requires ServerOk(h, s)
    ensures Certified(h, s.log, s.commit, s.term) && Certified(h, s.log, s.lastApply, s.term)
    ensures s.commit <= |s.log| && s.lastApply <= |s.log|
  {
  }

  /** A leader's message is a slice of its log; no assertion of the sender fails. */
  lemma SendOk(h: History, s: Server, j: Addr)
    requires HistOk(h) && ServerOk(h, s) && s.role == Leader && j in s.peers && s.alive
    ensures var e := SendAppendEntries(s, j);
            e.server == s && |e.sent| == 1 && MessageOk(h, e.sent[0]) && !e.sent[0].AppendEntriesReply?
  {
    hide HistOk, ServerOk, Certified;
    LeaderTables(h, s, j);
    OwnLog(h, s);
    var m := SendAppendEntries(s, j).sent[0];
    OwnCertificates(h, s);
    CertifiedLess(h, s.log, s.commit, m.commitIndex, s.term);
  }

  lemma HeartBeatOk(h: History, s: Server, j: Addr)
    requires HistOk(h) && ServerOk(h, s) && s.role == Leader && j in s.peers && s.alive
    ensures StepOk(h, s, HeartBeat(s, j)) && HeartBeat(s, j).server.alive
  {
    hide HistOk, ServerOk, StepOk;
    SendOk(h, s, j);
    Quiet(h, s, HeartBeat(s, j));
  }

  lemma AgainOk(h: History, s: Server, j: Addr)
    requires ServerOk(h, s) && s.role == Leader
    ensures ServerOk(h, AgainHeartBeat(s, j))
  {
    assert TimersOk(AgainHeartBeat(s, j));
    if j in s.peers {
      TimersOnly(h, s, AgainHeartBeat(s, j).timers);
    }
  }

  /** The sends of a proposal, from peer k on. */
  lemma {:induction false} SendFromOk(h: History, s: Server, k: nat)
    requires HistOk(h) && ServerOk(h, s) && s.role == Leader && s.alive
    ensures var e := SendFrom(s, k);
            && ServerOk(h, e.server)
            && e.server == s.(timers := e.server.timers)
            && forall m | m in e.sent :: MessageOk(h, m) && !m.AppendEntriesReply?
    decreases |s.peers| - k
  {
    hide HistOk, ServerOk;
    if k < |s.peers| {
      SendOk(h, s, s.peers[k]);
      AgainOk(h, s, s.peers[k]);
      SendFromOk(h, AgainHeartBeat(s, s.peers[k]), k + 1);
    }
  }

  // ---------- proposing

  /** The history after leader s has appended an entry. */
  ghost function Appended(h: History, s: Server, e: Entry): History {
    var log' := s.log + [e];
    if s.term in h.elections then
      h.(elections := h.elections[s.term := h.elections[s.term].(llog := log')],
         acked := h.acked[(s.term, s.me) := |log'|])
    else h
  }

  lemma AppendOk(h: History, s: Server, e: Entry)
    requires HistOk(h) && ServerOk(h, s) && s.role == Leader
    requires e.term == s.term && e.kind != Unknown
    ensures HistOk(Appended(h, s, e)) && GrowsBy(s.me, h, Appended(h, s, e))
    ensures ServerOk(Appended(h, s, e), s.(log := s.log + [e]))
  {
    hide Certified, Extends, GrowsBy, ApplyOk, HistOk, Good;
    var h', s' := Appended(h, s, e), s.(log := s.log + [e]);
    AppendGrows(h, h', s.me, s.term, s'.log);
    LeaderLogOk(h, h', s, s');
    RoleStable(h, h', s);
  }

  lemma RecordsAppend(h: History, s: Server, e: Entry, s': Server, sent: seq<Message>)
    requires HistOk(h) && ServerOk(h, s) && s.role == Leader
    requires s'.me == s.me && s'.term == s.term && s'.vote == s.vote && s'.role == Leader
    requires s'.log == s.log + [e]
    requires forall m | m in sent :: !m.AppendEntriesReply?
    ensures Record(h, s, Effect(s', sent)) == Appended(h, s, e)
  {
    if |sent| == 1 {
      assert sent[0] in sent;
    }
  }

  lemma ProposeOk(h: History, s: Server, value: Bytes)
    requires HistOk(h) && ServerOk(h, s) && s.alive
    ensures StepOk(h, s, Propose(s, value)) && Propose(s, value).server.alive
  {
    hide HistOk, ServerOk;
    if s.role != Leader {
      Quiet(h, s, Effect(s, []));
    } else {
      var e := Entry(s.term, Data, value);
      var h', s1 := Appended(h, s, e), s.(log := s.log + [e]);
      AppendOk(h, s, e);
      MaybeCommitOk(h', s1);
      SendFromOk(h', MaybeCommit(s1), 0);
      var eff := SendFrom(MaybeCommit(s1), 0);
      RecordsAppend(h, s, e, eff.server, eff.sent);
    }
  }

  // ---------- replies to the leader

  /** A row that holds only what the peer acknowledged, with a next index inside the log. */
  lemma RowOk(h: History, s: Server, j: Addr, next: nat, index: nat)
    requires ServerOk(h, s) && j in s.peers
    requires s.role == Leader ==> 1 <= next <= |s.log| + 1 && (index > 0 ==> Acked(h, s.term, j, index))
    ensures ServerOk(h, s.(indices := s.indices[j := IndexItem(next, index)]))
  {
    hide Certified;
    assert j in PeerSet(s.peers);
    var s' := s.(indices := s.indices[j := IndexItem(next, index)]);
    assert RoleOk(h, s');
    assert Shaped(h, s');
  }

  lemma AckInLog(h: History, s: Server, j: Addr, k: nat)
    requires HistOk(h) && ServerOk(h, s) && s.role == Leader
    ensures Acked(h, s.term, j, k) ==> k <= |s.log|
  {
    if Acked(h, s.term, j, k) {
      assert AckOk(h, s.term, j);
    }
  }

  /** What the leader's tables say of a peer. */
  lemma TableFacts(h: History, s: Server, j: Addr)
    requires HistOk(h) && ServerOk(h, s) && s.role == Leader && j in s.peers
    ensures 1 <= NextOf(s, j) <= |s.log| + 1 && MatchOf(s, j) <= |s.log|
    ensures MatchOf(s, j) > 0 ==> Acked(h, s.term, j, MatchOf(s, j))
  {
    assert j in PeerSet(s.peers);
    AckInLog(h, s, j, MatchOf(s, j));
  }

  lemma SuccessNoted(h: History, s: Server, m: Message)
    requires HistOk(h) && ServerOk(h, s) && s.role == Leader && s.alive
    requires m.AppendEntriesReply? && m.src in s.peers && m.success
    requires Acked(h, s.term, m.src, m.reqPreIndex + m.reqNumEntries)
    ensures ServerOk(h, NoteReply(s, m))
    ensures var s' := NoteReply(s, m);
            s'.alive && s'.role == Leader && s'.me == s.me && s'.peers == s.peers && s'.log == s.log
  {
    hide HistOk, ServerOk;
    var j, k := m.src, m.reqPreIndex + m.reqNumEntries;
    TableFacts(h, s, j);
    var s1 := s;
    if MatchOf(s, j) <= k {
      RowOk(h, s, j, NextOf(s, j), k);
      MaybeCommitOk(h, SetMatch(s, j, k));
      s1 := MaybeCommit(SetMatch(s, j, k));
    }
    TableFacts(h, s1, j);
    RowOk(h, s1, j, MatchOf(s1, j) + 1, MatchOf(s1, j));
  }

  lemma FailureNoted(h: History, s: Server, m: Message)
    requires HistOk(h) && ServerOk(h, s) && s.role == Leader && s.alive
    requires m.AppendEntriesReply? && m.src in s.peers && !m.success
    ensures ServerOk(h, NoteReply(s, m))
    ensures var s' := NoteReply(s, m); s' == s.(indices := s'.indices)
  {
    hide HistOk, ServerOk;
    var j := m.src;
    TableFacts(h, s, j);
    var s1 := s;
    if NextOf(s, j) > 1 {
      RowOk(h, s, j, NextOf(s, j) - 1, MatchOf(s, j));
      s1 := SetNext(s, j, NextOf(s, j) - 1);
    }
    TableFacts(h, s1, j);
    if NextOf(s1, j) > m.lastLogIndex + 1 {
      RowOk(h, s1, j, m.lastLogIndex + 1, MatchOf(s1, j));
    }
  }

  lemma ReplyAddress(h: History, s: Server, m: Message)
    requires HistOk(h) && ServerOk(h, s) && MessageOk(h, m) && m.dest == s.me
    ensures m.src in s.peers && m.src in h.members && m.src != s.me
  {
    assert m.src in PeerSet(s.peers);
  }

  lemma OnAppendEntriesReplyOk(h: History, s: Server, m: Message)
    requires HistOk(h) && ServerOk(h, s) && s.alive
    requires MessageOk(h, m) && m.AppendEntriesReply? && m.dest == s.me
    ensures StepOk(h, s, OnAppendEntriesReply(s, m))
    ensures !OnAppendEntriesReply(s, m).server.alive ==>
              s.role != Leader && m.reqTerm == s.term && LedBy(h, s.term, s.me)
  {
    hide HistOk, ServerOk, StepOk;
    ReplyAddress(h, s, m);
    if m.term < s.term || m.reqTerm != s.term {
      Quiet(h, s, Effect(s, []));
    } else if s.role != Leader {
      DeadOk(h, s);
      Quiet(h, s, Effect(s.(alive := false), []));
    } else if m.term > s.term {
      StepDownOk(h, s, m.term);
      Quiet(h, s, Effect(StepDown(s, m.term), []));
    } else {
      if m.success {
        SuccessNoted(h, s, m);
      } else {
        FailureNoted(h, s, m);
      }
      var s1 := NoteReply(s, m);
      if NextOf(s1, m.src) <= LastIndex(s1) {
        SendOk(h, s1, m.src);
        AgainOk(h, s1, m.src);
      }
      Quiet(h, s, OnAppendEntriesReply(s, m));
    }
  }

  /** A stopped process leaves its stored state in order. */
  lemma DeadOk(h: History, s: Server)
    requires ServerOk(h, s)
    ensures ServerOk(h, s.(alive := false))
  {
    var s' := s.(alive := false);
    assert LogOk_(h, s');
    assert RoleOk(h, s');
    assert ApplyOk(h, s');
  }

  // ---------- accepting entries

  lemma GoodPrefix(h: History, l: Log, k: nat)
    requires Good(h, l) && k <= |l|
    ensures Good(h, l[..k])
  {
    forall i | 0 <= i < k
      ensures var p := l[..k]; p[i].term in h.elections && Has(p, LeaderLog(h, p[i].term), i + 1)
    {
      assert l[..k][..i + 1] == l[..i + 1];
    }
  }

  /** A message of the leader's that fits the log: the entries are the leader's, and up to where they
      start the log is the leader's too. */
  ghost predicate Fits(h: History, log: Log, term: nat, pre: nat, es: seq<LogEntry>) {
    && term in h.elections
    && pre + |es| <= |LeaderLog(h, term)|
    && Has(log, LeaderLog(h, term), pre)
    && forall j | 0 <= j < |es| :: es[j] == LogEntry(pre + 1 + j, LeaderLog(h, term)[pre + j])
  }

  lemma SentByLeader(h: History, m: Message)
    requires MessageOk(h, m) && m.AppendEntries?
    ensures var l := LeaderLog(h, m.term);
            && m.term in h.elections
            && m.preLogIndex + |m.entries| <= |l|
            && m.preLogTerm == (if m.preLogIndex == 0 then 0 else l[m.preLogIndex - 1].term)
            && forall j | 0 <= j < |m.entries| :: m.entries[j] == LogEntry(m.preLogIndex + 1 + j, l[m.preLogIndex + j])
  {
  }

  lemma MessageFits(h: History, s: Server, m: Message)
    requires HistOk(h) && ServerOk(h, s) && MessageOk(h, m) && m.AppendEntries?
    requires PreMatches(s, m)
    ensures Fits(h, s.log, m.term, m.preLogIndex, m.entries)
  {
    hide HistOk;
    hide Good, ServerOk, MessageOk;
    OwnLog(h, s);
    ServerLogGood(h, s);
    SentByLeader(h, m);
    if m.preLogIndex > 0 {
      LeaderLogGood(h, m.term);
      LogsMatch(h, s.log, LeaderLog(h, m.term), m.preLogIndex - 1);
    }
  }

  lemma LeaderLogGood(h: History, term: nat)
    requires HistOk(h) && term in h.elections
    ensures Good(h, LeaderLog(h, term))
  {
    assert ElectionOk(h, term);
  }

  /** As far as the entries match, the log is the leader's. */
  lemma MatchedPrefix(h: History, log: Log, term: nat, pre: nat, es: seq<LogEntry>)
    requires HistOk(h) && Good(h, log) && Fits(h, log, term, pre, es)
    ensures Has(log, LeaderLog(h, term), pre + FirstNew(log, pre, es))
  {
    hide HistOk, Good;
    var k := FirstNew(log, pre, es);
    if k > 0 {
      HeldBefore(log, pre, es, k - 1);
      var e := es[k - 1];
      assert e.entry.term == LeaderLog(h, term)[pre + (k - 1)].term;
      LeaderLogGood(h, term);
      LogsMatch(h, log, LeaderLog(h, term), pre + k - 1);
    }
  }

  /** What is left: the log as it was if it had everything, else the leader's log up to the last entry. */
  lemma ReconcileIs(h: History, log: Log, term: nat, pre: nat, es: seq<LogEntry>)
    requires HistOk(h) && Good(h, log) && Fits(h, log, term, pre, es)
    ensures var log', l, k := Reconcile(log, pre, es), LeaderLog(h, term), FirstNew(log, pre, es);
            && Has(log', l, pre + |es|)
            && Has(log, l, pre + k)
            && (k == |es| ==> log' == log)
            && (k < |es| ==> log' == l[..pre + |es|] && pre + k <= |log|)
            && (k < |es| && pre + k < |log| ==> log[pre + k].term != l[pre + k].term)
  {
    hide HistOk, Good, FirstNew;
    MatchedPrefix(h, log, term, pre, es);
    NotHeldAt(log, pre, es);
    var log', l, k := Reconcile(log, pre, es), LeaderLog(h, term), FirstNew(log, pre, es);
    if k < |es| {
      var e := es[k];
      assert e == LogEntry(pre + 1 + k, l[pre + k]);
      assert log' == log[..pre + k] + Payload(es)[k..];
      assert l[..pre + |es|] == l[..pre + k] + l[pre + k..pre + |es|];
      assert Payload(es)[k..] == l[pre + k..pre + |es|];
    }
  }

  lemma HasUpTo(l: Log, m: Log, c: nat, k: nat)
    requires Has(l, m, c)
    ensures k < c ==> l[k] == m[k]
  {
    if k < c {
      HasAt(l, m, c, k);
    }
  }

  /** Logs that share c entries differ only from there on. */
  lemma NoFurther(l: Log, m: Log, c: nat, k: nat)
    requires Has(l, m, c) && k < |l| && k < |m| && l[k].term != m[k].term
    ensures c <= k
  {
    HasUpTo(l, m, c, k);
  }

  /** What was certified or kept is not cut away: the cut is where the leader's log differs. */
  lemma CutAbove(h: History, log: Log, term: nat, pre: nat, es: seq<LogEntry>, c: nat)
    requires HistOk(h) && Good(h, log) && Fits(h, log, term, pre, es)
    requires c <= |log| && Certified(h, log, c, term)
    ensures var k := FirstNew(log, pre, es); k < |es| && pre + k < |log| ==> c < pre + k + 1
    ensures Has(log, Reconcile(log, pre, es), c)
  {
    hide HistOk, Good, Certified, Reconcile, FirstNew;
    ReconcileIs(h, log, term, pre, es);
    LeaderHasCertified(h, log, c, term);
    var k, l := FirstNew(log, pre, es), LeaderLog(h, term);
    if k < |es| {
      if pre + k < |log| {
        NoFurther(l, log, c, pre + k);
      }
      assert log[..c] == l[..c] == l[..pre + |es|][..c];
    }
  }

  /** An acknowledged prefix survives the cut, or the leader of this term never had it. */
  lemma AckSurvives(h: History, log: Log, term: nat, pre: nat, es: seq<LogEntry>, t: nat, k: nat)
    requires HistOk(h) && Good(h, log) && Fits(h, log, term, pre, es)
    requires t <= term && Kept(h, t, k, log, term)
    ensures Kept(h, t, k, Reconcile(log, pre, es), term)
  {
    hide HistOk, Fits, Reconcile;
    ReconcileIs(h, log, term, pre, es);
    var f, l, m := FirstNew(log, pre, es), LeaderLog(h, term), LeaderLog(h, t);
    if f < |es| && Has(log, m, k) {
      if k <= pre + f {
        assert log[..k] == l[..pre + |es|][..k] by {
          HasLess(log, l, pre + f, k);
        }
      } else {
        HasAt(log, m, k, pre + f);
        assert l[pre + f].term != m[pre + f].term;
        if Has(l, m, k) {
          HasAt(l, m, k, pre + f);
        }
        assert Lost(h, term, t, k);
      }
    }
  }

  lemma ReconciledLog(h: History, s: Server, s1: Server, pre: nat, es: seq<LogEntry>)
    requires HistOk(h) && LogOk_(h, s) && BallotOk(h, s) && Fits(h, s.log, s.term, pre, es)
    requires !LedBy(h, s.term, s.me)
    requires s1 == s.(log := Reconcile(s.log, pre, es))
    ensures LogOk_(h, s1)
  {
    ReconcileIs(h, s.log, s.term, pre, es);
    assert ElectionOk(h, s.term);
    LeaderLogTerms(h, s.term);
    if FirstNew(s.log, pre, es) < |es| {
      GoodPrefix(h, LeaderLog(h, s.term), pre + |es|);
    }
    forall t: nat, k: nat | Acked(h, t, s.me, k)
      ensures Kept(h, t, k, s1.log, s.term)
    {
      assert Kept(h, t, k, s.log, s.term);
      AckSurvives(h, s.log, s.term, pre, es, t, k);
    }
  }

  lemma ReconciledApply(h: History, s: Server, s1: Server, pre: nat, es: seq<LogEntry>)
    requires HistOk(h) && Good(h, s.log) && ApplyOk(h, s) && Fits(h, s.log, s.term, pre, es)
    requires s1 == s.(log := Reconcile(s.log, pre, es))
    ensures ApplyOk(h, s1)
  {
    CutAbove(h, s.log, s.term, pre, es, s.commit);
    CutAbove(h, s.log, s.term, pre, es, s.lastApply);
    CertifiedTransfer(h, s.log, s1.log, s.commit, s.term);
    CertifiedTransfer(h, s.log, s1.log, s.lastApply, s.term);
    DataBetweenPrefix(s.log, s1.log, 0, s.lastApply);
  }

  lemma ReconciledOk(h: History, s: Server, pre: nat, es: seq<LogEntry>)
    requires HistOk(h) && ServerOk(h, s) && Fits(h, s.log, s.term, pre, es)
    requires s.role == Follower && !LedBy(h, s.term, s.me)
    ensures ServerOk(h, s.(log := Reconcile(s.log, pre, es)))
  {
    var s1 := s.(log := Reconcile(s.log, pre, es));
    ReconciledRest(h, s, s1.log);
    hide HistOk;
    ReconciledLog(h, s, s1, pre, es);
    ReconciledApply(h, s, s1, pre, es);
  }

  lemma ReconciledRest(h: History, s: Server, log: Log)
    requires Shaped(h, s) && BallotOk(h, s) && RoleOk(h, s) && s.role == Follower
    ensures var s1 := s.(log := log); Shaped(h, s1) && BallotOk(h, s1) && RoleOk(h, s1)
  {
  }

  /** Moving the commit index to what the leader's message says. */
  lemma AdvanceOk(h: History, s: Server, c: nat)
    requires HistOk(h) && ServerOk(h, s) && s.alive && c <= |s.log| && Certified(h, s.log, c, s.term)
    ensures ServerOk(h, AdvanceCommit(s, c))
    ensures var s' := AdvanceCommit(s, c);
            s' == s.(commit := Max(s.commit, c), sm := s'.sm, lastApply := s'.lastApply)
  {
    hide HistOk, ServerOk;
    OwnLog(h, s);
    if s.commit < c {
      CommitOk(h, s, c);
    }
  }

  /** The history after s acknowledges k entries of its term's leader. */
  ghost function Confirmed(h: History, s: Server, k: nat): History {
    h.(acked := h.acked[(s.term, s.me) := Max(AckedUpTo(h, s.term, s.me), k)])
  }

  lemma ConfirmedLog(h: History, s: Server, k: nat)
    requires HistOk(h) && GrowsBy(s.me, h, Confirmed(h, s, k)) && LogOk_(h, s)
    requires Has(s.log, LeaderLog(h, s.term), k) && !LedBy(h, s.term, s.me)
    ensures LogOk_(Confirmed(h, s, k), s)
  {
    var h' := Confirmed(h, s, k);
    GoodStable(h, h', s.log);
    forall t: nat, i: nat | Acked(h', t, s.me, i)
      ensures Kept(h', t, i, s.log, s.term)
    {
      if Acked(h, t, s.me, i) {
        assert AckOk(h, t, s.me);
        KeptStable(h, h', t, i, s.log, s.term, s.term);
      } else {
        HasLess(s.log, LeaderLog(h, s.term), k, i);
      }
    }
  }

  lemma ConfirmedOk(h: History, s: Server, k: nat)
    requires HistOk(h) && ServerOk(h, s) && s.term in h.elections && !LedBy(h, s.term, s.me)
    requires Has(s.log, LeaderLog(h, s.term), k)
    ensures HistOk(Confirmed(h, s, k)) && GrowsBy(s.me, h, Confirmed(h, s, k))
    ensures ServerOk(Confirmed(h, s, k), s)
  {
    hide HistOk, Good, Certified, Extends, ApplyOk;
    var h' := Confirmed(h, s, k);
    AckGrows(h, h', s.me, s.term, k);
    hide HistOk;
    ConfirmedLog(h, s, k);
    RoleStable(h, h', s);
    ApplyStable(h, h', s);
  }

  /** What is recorded of an accepted message is the acknowledgement. */
  lemma RecordsAck(h: History, s: Server, e: Effect, k: nat)
    requires HistOk(h) && ServerOk(h, e.server) && e.server.me == s.me && e.server.role == Follower
    requires !LedBy(h, e.server.term, s.me)
    requires |e.sent| == 1 && e.sent[0].AppendEntriesReply? && e.sent[0].success
    requires e.sent[0].reqTerm == e.server.term && e.sent[0].reqPreIndex + e.sent[0].reqNumEntries == k
    ensures Record(h, s, e) == Confirmed(h, e.server, k)
  {
    hide HistOk, Certified, LogOk_, ApplyOk;
  }

  /** The entries a message carries, as its invariant describes them. */
  lemma MessageCertified(h: History, s: Server, m: Message)
    requires HistOk(h) && MessageOk(h, m) && m.AppendEntries? && Fits(h, s.log, m.term, m.preLogIndex, m.entries)
    requires Good(h, s.log)
    ensures var log' := Reconcile(s.log, m.preLogIndex, m.entries);
            m.commitIndex <= |log'| && Certified(h, log', m.commitIndex, m.term)
  {
    ReconcileIs(h, s.log, m.term, m.preLogIndex, m.entries);
    var log', l := Reconcile(s.log, m.preLogIndex, m.entries), LeaderLog(h, m.term);
    HasLess(log', l, m.preLogIndex + |m.entries|, m.commitIndex);
    CertifiedTransfer(h, l, log', m.commitIndex, m.term);
  }

  lemma AssertionsHold(h: History, s: Server, m: Message)
    requires HistOk(h) && ServerOk(h, s) && MessageOk(h, m) && m.AppendEntries?
    requires m.term == s.term && PreMatches(s, m)
    ensures EntriesAsserted(s, m.preLogIndex, m.entries)
  {
    MessageFits(h, s, m);
    CutAbove(h, s.log, s.term, m.preLogIndex, m.entries, s.commit);
  }

  lemma ServerLogGood(h: History, s: Server)
    requires ServerOk(h, s)
    ensures Good(h, s.log)
  {
  }

  lemma LedByOther(h: History, s: Server, m: Message)
    requires MessageOk(h, m) && m.AppendEntries? && m.dest == s.me
    ensures LedBy(h, m.term, m.src) && m.src != s.me && !LedBy(h, m.term, s.me) && m.term in h.elections
    ensures m.src in h.members
  {
  }

  lemma AcceptOk(h: History, s0: Server, s: Server, m: Message)
    requires HistOk(h) && ServerOk(h, s) && s.alive && s.role == Follower && s.term == m.term
    requires MessageOk(h, m) && m.AppendEntries? && m.dest == s.me && s0.me == s.me
    requires PreMatches(s, m)
    ensures StepOk(h, s0, AcceptEntries(s, m)) && AcceptEntries(s, m).server.alive
  {
    hide HistOk, ServerOk, Certified, MessageOk;
    var k := m.preLogIndex + |m.entries|;
    AssertionsHold(h, s, m);
    MessageFits(h, s, m);
    ServerLogGood(h, s);
    LedByOther(h, s, m);
    ReconcileIs(h, s.log, m.term, m.preLogIndex, m.entries);
    MessageCertified(h, s, m);
    ReconciledOk(h, s, m.preLogIndex, m.entries);
    var s1 := s.(log := Reconcile(s.log, m.preLogIndex, m.entries));
    AdvanceOk(h, s1, m.commitIndex);
    var s2 := AdvanceCommit(s1, m.commitIndex);
    ConfirmedOk(h, s2, k);
    RecordsAck(h, s0, AcceptEntries(s, m), k);
    SuccessReplyOk(h, s2, m, AppendReply(s1, m, true), k);
  }

  lemma SuccessReplyOk(h: History, s: Server, m: Message, r: Message, k: nat)
    requires MessageOk(h, m) && m.AppendEntries? && m.term == s.term && m.dest == s.me
    requires r.AppendEntriesReply? && r.src == m.dest && r.dest == m.src && r.reqTerm == m.term
    requires r.reqPreIndex + r.reqNumEntries == k && r.reqTerm <= r.term
    ensures MessageOk(Confirmed(h, s, k), r)
  {
  }

  lemma LeaderNoted(h: History, s: Server, a: Addr)
    requires HistOk(h) && ServerOk(h, s) && LedBy(h, s.term, a) && a != NO_ADDR
    ensures s.leader != NO_ADDR ==> s.leader == a
    ensures ServerOk(h, s.(leader := a))
  {
    var s' := s.(leader := a);
    assert LogOk_(h, s');
    assert RoleOk(h, s');
    assert ApplyOk(h, s');
  }

  lemma RejectOk(h: History, s0: Server, s: Server, m: Message, r: Message)
    requires HistOk(h) && ServerOk(h, s) && s.me == s0.me
    requires MessageOk(h, m) && m.AppendEntries? && m.dest == s.me
    requires r.AppendEntriesReply? && r.src == m.dest && r.dest == m.src && r.reqTerm == m.term && !r.success
    requires r.reqTerm <= r.term
    ensures StepOk(h, s0, Effect(s, [r]))
  {
    hide HistOk, ServerOk, StepOk, Certified, LeaderLog;
    assert MessageOk(h, r);
    Quiet(h, s0, Effect(s, [r]));
  }

  lemma OnAppendEntriesOk(h: History, s: Server, m: Message)
    requires HistOk(h) && ServerOk(h, s) && s.alive
    requires MessageOk(h, m) && m.AppendEntries? && m.dest == s.me
    ensures StepOk(h, s, OnAppendEntries(s, m)) && OnAppendEntries(s, m).server.alive
  {
    hide HistOk, ServerOk, StepOk, MessageOk;
    if m.term < s.term {
      RejectOk(h, s, s, m, AppendReply(s, m, false));
    } else {
      var s1 := StepDown(s, m.term);
      StepDownOk(h, s, m.term);
      LedByOther(h, s, m);
      RealAddress(h, m.src);
      LeaderNoted(h, s1, m.src);
      var s2 := s1.(leader := m.src);
      if !PreMatches(s2, m) {
        RejectOk(h, s, s2, m, AppendReply(s2, m, false));
      } else {
        AcceptOk(h, s, s2, m);
      }
    }
  }
}
