/** The log part of the specification that the source quotes above OnAppendEntries, which handles one entry
    at a time, and the proof that the source's loop over many entries arrives at the same log. */
module EntrySteps {
  import opened RaftTypes
  import opened Quorum
  import opened RaftStep
  import opened Reconciling
  import opened Cluster
  import opened Invariant
  import opened Safety
  import opened Theorems
  import Assertions
  import AppendSteps
  import ServerSteps
  import VoteSteps

  /** What is left of a request: the log so far, the position and term the next entry goes on top of, and
      the entries not yet done with. */
  datatype Task = Task(log: Log, pre: nat, preTerm: nat, entries: seq<LogEntry>)

  /** logOk of the specification, which it tests again for every single entry. */
  ghost predicate SpecLogOk(t: Task) {
    t.pre == 0 || (t.pre <= |t.log| && t.log[t.pre - 1].term == t.preTerm)
  }

  /** The next request of the batch, after its first entry is done with. */
  ghost function Advance(t: Task): Task
    requires t.entries != []
  {
    Task(t.log, t.pre + 1, t.entries[0].entry.term, t.entries[1..])
  }

  /** One step of the specification on a request of one entry: already done, remove one entry, append. */
  ghost predicate SpecStep(t: Task, t': Task) {
    && t.entries != [] && SpecLogOk(t)
    && var e := t.entries[0].entry;
       if |t.log| > t.pre then
         if t.log[t.pre].term == e.term then t' == Advance(t)
         else t' == t.(log := t.log[..|t.log| - 1])
       else t' == t.(log := t.log + [e])
  }

  ghost predicate SpecRun(run: seq<Task>, from: Task, to: Task) {
    && run != [] && run[0] == from && run[|run| - 1] == to
    && forall i | 0 <= i < |run| - 1 :: SpecStep(run[i], run[i + 1])
  }

  ghost function Finished(t: Task): Task {
    Task(Reconcile(t.log, t.pre, t.entries), t.pre + |t.entries|,
         if t.entries == [] then t.preTerm else t.entries[|t.entries| - 1].entry.term, [])
  }

  /** Steps left: removals, then an append and a confirmation for each entry. */
  ghost function StepsLeft(t: Task): nat {
    var k := FirstNew(t.log, t.pre, t.entries);
    if k == |t.entries| then |t.entries|
    else k + 2 * (|t.entries| - k) + (if |t.log| > t.pre + k then |t.log| - t.pre - k else 0)
  }

  lemma PayloadTail(es: seq<LogEntry>)
    requires es != []
    ensures Payload(es) == [es[0].entry] + Payload(es[1..])
    ensures forall k | 1 <= k <= |es| :: Payload(es)[k..] == Payload(es[1..])[k - 1..]
  {
  }

  lemma MatchAdvances(log: Log, pre: nat, es: seq<LogEntry>)
    requires es != [] && |log| > pre && log[pre].term == es[0].entry.term
    ensures FirstNew(log, pre, es) == 1 + FirstNew(log, pre + 1, es[1..])
  {
  }

  lemma DoneKeepsResult(t: Task)
    requires t.entries != [] && SpecLogOk(t)
    requires |t.log| > t.pre && t.log[t.pre].term == t.entries[0].entry.term
    ensures Finished(Advance(t)) == Finished(t)
    ensures SpecLogOk(Advance(t)) && StepsLeft(Advance(t)) < StepsLeft(t)
  {
    hide FirstNew, Payload;
    var rest := t.entries[1..];
    var k := FirstNew(t.log, t.pre, t.entries);
    MatchAdvances(t.log, t.pre, t.entries);
    PayloadTail(t.entries);
    assert rest != [] ==> rest[|rest| - 1] == t.entries[|t.entries| - 1];
  }

  lemma RemoveKeepsResult(t: Task, t': Task)
    requires t.entries != [] && SpecLogOk(t)
    requires |t.log| > t.pre && t.log[t.pre].term != t.entries[0].entry.term
    requires t' == t.(log := t.log[..|t.log| - 1])
    ensures Finished(t') == Finished(t)
    ensures SpecLogOk(t') && StepsLeft(t') < StepsLeft(t)
  {
    FirstNewIs(t.log, t.pre, t.entries, 0);
    FirstNewIs(t'.log, t.pre, t.entries, 0);
    assert t'.log[..t.pre] == t.log[..t.pre];
  }

  lemma AppendKeepsResult(t: Task, t': Task)
    requires t.entries != [] && SpecLogOk(t) && |t.log| == t.pre
    requires t' == t.(log := t.log + [t.entries[0].entry])
    ensures Finished(t') == Finished(t)
    ensures SpecLogOk(t') && StepsLeft(t') < StepsLeft(t)
  {
    FirstNewIs(t.log, t.pre, t.entries, 0);
    FirstNewIs(t'.log, t.pre, t.entries, 1);
    PayloadTail(t.entries);
    assert t.log[..t.pre] == t.log;
    assert t'.log[..|t'.log|] == t'.log;
    assert Payload(t.entries)[0..] == Payload(t.entries);
    if |t.entries| == 1 {
      assert Payload(t.entries[1..]) == [];
    }
  }

  /** A step of the specification keeps the log that the source's loop would make of the rest, and gets
      closer to it. */
  lemma StepKeepsResult(t: Task, t': Task)
    requires SpecStep(t, t')
    ensures Finished(t') == Finished(t)
    ensures SpecLogOk(t') && StepsLeft(t') < StepsLeft(t)
  {
    hide Finished, StepsLeft;
    if |t.log| > t.pre {
      if t.log[t.pre].term == t.entries[0].entry.term {
        DoneKeepsResult(t);
      } else {
        RemoveKeepsResult(t, t');
      }
    } else {
      AppendKeepsResult(t, t');
    }
  }

  lemma FinishedNow(t: Task)
    requires t.entries == []
    ensures Finished(t) == t
  {
  }

  /** The source's loop refines the specification: for every request the log test accepts, single-entry
      steps lead to the log the loop produces. */
  lemma {:induction false} LoopRefinesSpec(t: Task) returns (run: seq<Task>)
    requires SpecLogOk(t)
    ensures SpecRun(run, t, Finished(t))
    decreases StepsLeft(t)
  {
    hide StepsLeft, Reconcile, FirstNew;
    if t.entries == [] {
      FinishedNow(t);
      run := [t];
    } else {
      var e := t.entries[0].entry;
      var t' := if |t.log| > t.pre then
                  if t.log[t.pre].term == e.term then Advance(t) else t.(log := t.log[..|t.log| - 1])
                else t.(log := t.log + [e]);
      StepKeepsResult(t, t');
      var rest := LoopRefinesSpec(t');
      run := [t] + rest;
      forall i | 0 <= i < |run| - 1
        ensures SpecStep(run[i], run[i + 1])
      {
        if i > 0 {
          assert SpecStep(rest[i - 1], rest[i]);
        }
      }
    }
  }

  /** And nothing else: whatever steps are taken, a run that is done with all entries ends in that log. */
  lemma {:induction false} SpecHasOneResult(run: seq<Task>, t: Task, t': Task)
    requires SpecRun(run, t, t') && t'.entries == []
    ensures t' == Finished(t)
    decreases |run|
  {
    hide StepsLeft, Reconcile, FirstNew;
    if |run| == 1 {
      FinishedNow(t);
    } else {
      var rest := run[1..];
      assert SpecStep(run[0], run[1]);
      forall i | 0 <= i < |rest| - 1
        ensures SpecStep(rest[i], rest[i + 1])
      {
        assert SpecStep(run[i + 1], run[i + 2]);
      }
      SpecHasOneResult(rest, run[1], t');
      StepKeepsResult(t, run[1]);
    }
  }

  // ---------- reprocessing

  /** A log that goes on past the entries of the request keeps what follows them exactly if it holds them
      all; otherwise it is cut behind them. */
  lemma SuffixKept(log: Log, pre: nat, es: seq<LogEntry>)
    requires pre + |es| < |log|
    ensures Reconcile(log, pre, es) == log <==>
            forall j | 0 <= j < |es| :: log[pre + j].term == es[j].entry.term
    ensures Reconcile(log, pre, es) != log ==> |Reconcile(log, pre, es)| == pre + |es|
  {
    hide FirstNew;
    var k := FirstNew(log, pre, es);
    if k < |es| {
      NotHeldAt(log, pre, es);
      assert log[pre + k].term != es[k].entry.term;
      assert |Reconcile(log, pre, es)| == pre + |es|;
    } else {
      forall j: nat | 0 <= j < |es|
        ensures Holds(log, pre, es, j)
      {
        HeldBefore(log, pre, es, j);
      }
      assert forall j: nat | 0 <= j < |es| :: Holds(log, pre, es, j) ==> log[pre + j].term == es[j].entry.term;
    }
  }

  lemma ReconcileAgain(log: Log, pre: nat, es: seq<LogEntry>)
    requires pre <= |log|
    ensures var l := Reconcile(log, pre, es);
            && FirstNew(l, pre, es) == |es|
            && pre + |es| <= |l|
            && Reconcile(l, pre, es) == l
            && (pre > 0 ==> l[pre - 1] == log[pre - 1])
  {
    var l := Reconcile(log, pre, es);
    var k := FirstNew(log, pre, es);
    if k > 0 {
      HeldBefore(log, pre, es, k - 1);
    }
    forall j: nat | 0 <= j < |es|
      ensures Holds(l, pre, es, j)
    {
      if j < k {
        HeldBefore(log, pre, es, j);
      } else {
        assert l[pre + j] == Payload(es)[k..][j - k];
      }
    }
    FirstNewIs(l, pre, es, |es|);
    if |es| > 0 {
      assert Holds(l, pre, es, |es| - 1);
    }
  }

  lemma SentEntries(h: History, m: Message)
    requires MessageOk(h, m) && m.AppendEntries?
    ensures forall j | 0 <= j < |m.entries| :: m.entries[j].index == m.preLogIndex + 1 + j
  {
  }

  lemma LogAgain(s: Server, m: Message)
    requires m.AppendEntries? && m.preLogIndex <= |s.log|
    requires forall j | 0 <= j < |m.entries| :: m.entries[j].index == m.preLogIndex + 1 + j
    ensures var l := Reconcile(s.log, m.preLogIndex, m.entries);
            && EntriesAsserted(s.(log := l), m.preLogIndex, m.entries)
            && Reconcile(l, m.preLogIndex, m.entries) == l
  {
    hide FirstNew, Reconcile;
    ReconcileAgain(s.log, m.preLogIndex, m.entries);
  }

  lemma PreAgain(s: Server, s': Server, m: Message)
    requires m.AppendEntries? && m.preLogIndex <= |s.log| && PreMatches(s, m)
    requires s'.log == Reconcile(s.log, m.preLogIndex, m.entries)
    ensures PreMatches(s', m)
  {
    ReconcileAgain(s.log, m.preLogIndex, m.entries);
  }

  lemma AcceptAgain(h: History, s: Server, m: Message)
    requires HistOk(h) && ServerOk(h, s) && s.alive && s.role == Follower && s.term == m.term
    requires MessageOk(h, m) && m.AppendEntries? && m.dest == s.me
    requires PreMatches(s, m)
    ensures var e := AcceptEntries(s, m);
            && AcceptEntries(e.server, m) == e && PreMatches(e.server, m)
            && e.server.term == s.term && e.server.role == s.role && e.server.leader == s.leader
            && e.server.timers == s.timers
  {
    hide HistOk, ServerOk, Certified, MessageOk, Reconcile, EntriesAsserted, PreMatches, AdvanceCommit;
    var pre, es := m.preLogIndex, m.entries;
    AppendSteps.AssertionsHold(h, s, m);
    AppendSteps.MessageFits(h, s, m);
    AppendSteps.ServerLogGood(h, s);
    AppendSteps.LedByOther(h, s, m);
    AppendSteps.ReconcileIs(h, s.log, m.term, pre, es);
    AppendSteps.MessageCertified(h, s, m);
    AppendSteps.ReconciledOk(h, s, pre, es);
    SentEntries(h, m);
    var s1 := s.(log := Reconcile(s.log, pre, es));
    AppendSteps.AdvanceOk(h, s1, m.commitIndex);
    var s2 := AdvanceCommit(s1, m.commitIndex);
    ServerSteps.OwnLog(h, s1);
    ServerSteps.OwnLog(h, s2);
    LogAgain(s, m);
    PreAgain(s, s2, m);
    assert s2.(log := s2.log) == s2;
    AssertedAgain(s, s2, pre, es);
    CommittedAlready(s2, m.commitIndex);
  }

  lemma AssertedAgain(s: Server, s': Server, pre: nat, es: seq<LogEntry>)
    requires pre <= |s.log| && s'.log == Reconcile(s.log, pre, es)
    requires forall j | 0 <= j < |es| :: es[j].index == pre + 1 + j
    ensures EntriesAsserted(s', pre, es)
  {
    hide FirstNew, Reconcile;
    ReconcileAgain(s.log, pre, es);
  }

  lemma CommittedAlready(s: Server, c: nat)
    requires s.commit >= c
    ensures AdvanceCommit(s, c) == s
  {
  }

  lemma HandledAgain(h: History, s: Server, m: Message)
    requires HistOk(h) && ServerOk(h, s) && s.alive
    requires MessageOk(h, m) && m.AppendEntries? && m.dest == s.me
    ensures var e := OnAppendEntries(s, m); OnAppendEntries(e.server, m) == e
  {
    hide HistOk, ServerOk, MessageOk, AcceptEntries, PreMatches;
    if m.term >= s.term {
      var s1 := StepDown(s, m.term);
      ServerSteps.StepDownOk(h, s, m.term);
      AppendSteps.LedByOther(h, s, m);
      VoteSteps.RealAddress(h, m.src);
      AppendSteps.LeaderNoted(h, s1, m.src);
      var s2 := s1.(leader := m.src);
      if PreMatches(s2, m) {
        AcceptAgain(h, s2, m);
      }
    }
  }

  /** The receipt of an append-entries message a second time changes nothing and repeats the reply. */
  lemma ReprocessingChangesNothing(peersOf: map<Addr, seq<Addr>>, g: System, m: Message)
    requires SoundCluster(peersOf) && Reachable(peersOf, g)
    requires m in g.msgs && m.AppendEntries? && m.dest in g.servers && g.servers[m.dest].alive
    ensures var e := OnAppendEntries(g.servers[m.dest], m);
            OnAppendEntries(e.server, m) == e
  {
    hide Inv, HistOk, ServerOk, Reachable, Configured, MessageOk, OnAppendEntries;
    ReachableOk(peersOf, g);
    ServerOf(g, m.dest);
    SentMessage(g, m);
    HandledAgain(g.hist, g.servers[m.dest], m);
  }
}
