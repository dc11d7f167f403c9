/** A log that a crash left between two of the writes of one append-entries message: cut where it differed from
    the leader's, with some of the new entries appended. */
module CutLog {
  import opened RaftTypes
  import opened RaftStep
  import opened Cluster
  import opened Invariant
  import opened Stability
  import opened Completeness
  import opened ServerSteps
  import opened VoteSteps
  import opened AppendSteps
  import Durability

  /** A cut of the reconciled log: at or behind where the entries start to differ. */
  ghost predicate CutPoint(log: Log, pre: nat, es: seq<LogEntry>, kept: nat) {
    FirstNew(log, pre, es) < |es| && Min(pre + FirstNew(log, pre, es), |log|) <= kept <= |Reconcile(log, pre, es)|
  }

  /** What is left is a piece of the leader's log, which the old log shares up to where they differ. */
  lemma CutIs(h: History, log: Log, term: nat, pre: nat, es: seq<LogEntry>, kept: nat)
    requires HistOk(h) && Good(h, log) && Fits(h, log, term, pre, es) && CutPoint(log, pre, es, kept)
    ensures var l, f := LeaderLog(h, term), pre + FirstNew(log, pre, es);
            && f <= kept <= |l| && Reconcile(log, pre, es)[..kept] == l[..kept]
            && Has(log, l, f) && (f < |log| ==> f < |l| && log[f].term != l[f].term)
  {
    hide HistOk, Good, FirstNew, Reconcile;
    ReconcileIs(h, log, term, pre, es);
  }

  lemma CertifiedKept(h: History, log: Log, term: nat, f: nat, kept: nat, c: nat)
    requires HistOk(h) && term in h.elections && c <= |log| && Certified(h, log, c, term)
    requires f <= kept <= |LeaderLog(h, term)| && Has(log, LeaderLog(h, term), f)
    requires f < |log| ==> f < |LeaderLog(h, term)| && log[f].term != LeaderLog(h, term)[f].term
    ensures c <= kept && Has(log, LeaderLog(h, term)[..kept], c)
  {
    hide HistOk, Certified;
    var l := LeaderLog(h, term);
    LeaderHasCertified(h, log, c, term);
    if f < |log| {
      NoFurther(l, log, c, f);
    }
    assert l[..kept][..c] == l[..c];
  }

  lemma AckCut(h: History, log: Log, term: nat, f: nat, kept: nat, t: nat, k: nat)
    requires term in h.elections && t <= term && Kept(h, t, k, log, term)
    requires f <= kept <= |LeaderLog(h, term)| && Has(log, LeaderLog(h, term), f)
    requires f < |log| ==> f < |LeaderLog(h, term)| && log[f].term != LeaderLog(h, term)[f].term
    ensures Kept(h, t, k, LeaderLog(h, term)[..kept], term)
  {
    var l, m := LeaderLog(h, term), LeaderLog(h, t);
    if Has(log, m, k) {
      if k <= f {
        HasLess(log, l, f, k);
        assert l[..kept][..k] == l[..k];
      } else {
        HasAt(log, m, k, f);
        if Has(l, m, k) {
          HasAt(l, m, k, f);
        }
        assert Lost(h, term, t, k);
      }
    }
  }

  lemma CutLogOk(h: History, s: Server, f: nat, kept: nat)
    requires HistOk(h) && LogOk_(h, s) && BallotOk(h, s) && s.term in h.elections && !LedBy(h, s.term, s.me)
    requires f <= kept <= |LeaderLog(h, s.term)| && Has(s.log, LeaderLog(h, s.term), f)
    requires f < |s.log| ==> f < |LeaderLog(h, s.term)| && s.log[f].term != LeaderLog(h, s.term)[f].term
    ensures LogOk_(h, s.(log := LeaderLog(h, s.term)[..kept]))
  {
    var l, s1 := LeaderLog(h, s.term), s.(log := LeaderLog(h, s.term)[..kept]);
    assert ElectionOk(h, s.term);
    LeaderLogTerms(h, s.term);
    GoodPrefix(h, l, kept);
    forall t: nat, k: nat | Acked(h, t, s.me, k)
      ensures Kept(h, t, k, s1.log, s.term)
    {
      assert Kept(h, t, k, s.log, s.term);
      AckCut(h, s.log, s.term, f, kept, t, k);
    }
  }

  lemma CutApplyOk(h: History, s: Server, f: nat, kept: nat)
    requires HistOk(h) && ApplyOk(h, s) && s.term in h.elections
    requires f <= kept <= |LeaderLog(h, s.term)| && Has(s.log, LeaderLog(h, s.term), f)
    requires f < |s.log| ==> f < |LeaderLog(h, s.term)| && s.log[f].term != LeaderLog(h, s.term)[f].term
    ensures ApplyOk(h, s.(log := LeaderLog(h, s.term)[..kept]))
  {
    hide HistOk, Certified;
    var log := LeaderLog(h, s.term)[..kept];
    CertifiedKept(h, s.log, s.term, f, kept, s.commit);
    CertifiedKept(h, s.log, s.term, f, kept, s.lastApply);
    CertifiedTransfer(h, s.log, log, s.commit, s.term);
    CertifiedTransfer(h, s.log, log, s.lastApply, s.term);
    DataBetweenPrefix(s.log, log, 0, s.lastApply);
  }

  lemma CutOk(h: History, s: Server, pre: nat, es: seq<LogEntry>, kept: nat)
    requires HistOk(h) && ServerOk(h, s) && Fits(h, s.log, s.term, pre, es)
    requires s.role == Follower && !LedBy(h, s.term, s.me) && CutPoint(s.log, pre, es, kept)
    ensures ServerOk(h, s.(log := Reconcile(s.log, pre, es)[..kept]))
  {
    hide HistOk, Reconcile, FirstNew, Good, LogOk_, ApplyOk, Shaped, BallotOk, RoleOk;
    var log := Reconcile(s.log, pre, es)[..kept];
    ServerLogGood(h, s);
    ReconciledRest(h, s, log);
    CutIs(h, s.log, s.term, pre, es, kept);
    CutLogOk(h, s, pre + FirstNew(s.log, pre, es), kept);
    CutApplyOk(h, s, pre + FirstNew(s.log, pre, es), kept);
  }

  /** The receiver of an append-entries message, whose entries it is about to write. */
  ghost function Writing(s: Server, m: Message): Server
    requires m.AppendEntries? && m.term >= s.term
  {
    StepDown(s, m.term).(leader := m.src)
  }

  lemma WritingCutOk(h: History, s: Server, m: Message, kept: nat)
    requires HistOk(h) && ServerOk(h, s) && MessageOk(h, m) && m.dest == s.me && Durability.Accepts(s, m)
    requires CutPoint(s.log, m.preLogIndex, m.entries, kept)
    ensures var log := Reconcile(s.log, m.preLogIndex, m.entries)[..kept];
            ServerOk(h, Writing(s, m).(log := log))
  {
    hide HistOk, ServerOk, MessageOk, CutPoint, Fits, Reconcile;
    StepDownOk(h, s, m.term);
    LedByOther(h, s, m);
    RealAddress(h, m.src);
    LeaderNoted(h, StepDown(s, m.term), m.src);
    Durability.AcceptedFits(h, s, m);
    CutOk(h, Writing(s, m), m.preLogIndex, m.entries, kept);
  }
}
