/** Steps of one server that leave the history as it is. */
module ServerSteps {
  import opened RaftTypes
  import opened Quorum
  import opened RaftStep
  import opened Cluster
  import opened Invariant
  import opened Stability
  import opened Completeness

  /** What each handler must do: grow the history by its own server only, and keep the three parts of the
      invariant. */
  ghost predicate StepOk(h: History, s: Server, e: Effect) {
    var h' := Record(h, s, e);
    && HistOk(h')
    && GrowsBy(s.me, h, h')
    && ServerOk(h', e.server)
    && e.server.me == s.me
    && (forall m | m in e.sent :: MessageOk(h', m))
  }

  /** What was recorded already is not recorded again. */
  lemma RecordsNothing(h: History, s: Server, e: Effect)
    requires HistOk(h) && ServerOk(h, e.server) && e.server.me == s.me
    requires forall m | m in e.sent :: !(m.AppendEntriesReply? && m.success)
    ensures Record(h, s, e) == h
  {
    hide Good, Certified, Kept, ApplyOk;
    var s' := e.server;
    if LedBy(h, s'.term, s'.me) {
      assert AckOk(h, s'.term, s'.me);
      assert h.elections[s'.term := h.elections[s'.term].(llog := s'.log)] == h.elections;
      assert h.acked[(s'.term, s'.me) := |s'.log|] == h.acked;
    }
    if |e.sent| == 1 {
      assert e.sent[0] in e.sent;
    }
  }

  lemma Quiet(h: History, s: Server, e: Effect)
    requires HistOk(h) && ServerOk(h, e.server) && e.server.me == s.me
    requires forall m | m in e.sent :: MessageOk(h, m) && !(m.AppendEntriesReply? && m.success)
    ensures StepOk(h, s, e)
  {
    RecordsNothing(h, s, e);
  }

  lemma LeaderIsMember(h: History, term: nat)
    requires HistOk(h) && term in h.elections
    ensures h.elections[term].leader in h.members
    ensures Voted(h, term, h.elections[term].leader, h.elections[term].leader)
  {
    assert ElectionOk(h, term);
  }

  // ---------- role changes

  /** A server's log and apply state stay right when it moves to a later term. */
  lemma LaterTerm(h: History, s: Server, s': Server)
    requires HistOk(h) && BallotOk(h, s) && LogOk_(h, s) && ApplyOk(h, s)
    requires s'.me == s.me && s'.log == s.log && s'.sm == s.sm && s'.term > s.term
    requires s'.commit == s.commit && s'.lastApply == s.lastApply
    ensures LogOk_(h, s') && ApplyOk(h, s')
  {
    forall t: nat, k: nat | Acked(h, t, s.me, k)
      ensures Kept(h, t, k, s'.log, s'.term)
    {
      assert AckOk(h, t, s.me);
      KeptStable(h, h, t, k, s.log, s.term, s'.term);
    }
    if s'.term in h.elections {
      LeaderIsMember(h, s'.term);
    }
    CertifiedStable(h, h, s.log, s.commit, s.term, s'.term);
    CertifiedStable(h, h, s.log, s.lastApply, s.term, s'.term);
  }

  lemma StepDownOk(h: History, s: Server, term: nat)
    requires HistOk(h) && ServerOk(h, s) && s.term <= term
    ensures ServerOk(h, StepDown(s, term))
  {
    if s.term < term {
      LaterTerm(h, s, StepDown(s, term));
    }
  }

  /** Standing for a pre-vote, or giving up a candidacy, within the same term. */
  lemma DoPreVoteOk(h: History, s: Server)
    requires HistOk(h) && ServerOk(h, s) && s.role != Leader
    ensures ServerOk(h, DoPreVote(s.(preVoting := true)))
  {
  }

  /** The entries behind the last data entry of a range do not matter to the state machine. */
  lemma DataBetweenLast(log: Log, hi: nat)
    requires hi <= |log|
    ensures SmLast(DataBetween(log, 0, hi)) <= hi
    ensures DataBetween(log, 0, SmLast(DataBetween(log, 0, hi))) == DataBetween(log, 0, hi)
    ensures var d := DataBetween(log, 0, hi); d != [] ==> d[|d| - 1].index == SmLast(d) > 0
  {
    if hi > 0 && log[hi - 1].kind != Data {
      DataBetweenLast(log, hi - 1);
    }
  }

  lemma RebootOk(h: History, s: Server)
    requires HistOk(h) && ServerOk(h, s)
    ensures ServerOk(h, Reboot(s))
  {
    var s' := Reboot(s);
    DataBetweenLast(s.log, s.lastApply);
    CertifiedLess(h, s.log, s.lastApply, s'.lastApply, s.term);
    assert LogOk_(h, s');
    assert RoleOk(h, s');
  }

  lemma StopStartOk(h: History, s: Server)
    requires HistOk(h) && ServerOk(h, s)
    ensures ServerOk(h, StopStart(s))
  {
    var s' := StopStart(s);
    DataBetweenLast(s.log, s.lastApply);
    CertifiedLess(h, s.log, s.lastApply, s'.lastApply, s.term);
    assert LogOk_(h, s');
    assert RoleOk(h, s');
  }

  // ---------- reading the server's own log

  /** The state machine never gets ahead of the log. */
  lemma OwnLog(h: History, s: Server)
    requires ServerOk(h, s)
    ensures LastIndex(s) == |s.log| && LastTerm(s) == LastLogTerm(s.log)
  {
    DataBetweenLast(s.log, s.lastApply);
  }
}
