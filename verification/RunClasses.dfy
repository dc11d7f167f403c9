/** Two properties that hold on some runs and not on others, and exactly which: that no assertion fails, and
    that match indexes never go back within a term. */
module RunClasses {
  import opened RaftTypes
  import opened Quorum
  import opened RaftStep
  import opened Cluster
  import opened Invariant
  import opened Safety
  import opened Theorems
  import opened Frames
  import opened MatchGrowth
  import Assertions
  import Durability
  import Interrupted

  // ---------- kinds of runs

  predicate IsRestart(ev: Event) {
    ev.Restart? || ev.Bounce? || ev.Crash?
  }

  predicate IsPreVote(ev: Event) {
    ev.Timeout? && ev.preVote
  }

  /** Runs with or without restarts, with or without pre-votes. */
  predicate Allowed(run: seq<Event>, restarts: bool, preVotes: bool) {
    forall i | 0 <= i < |run| :: (IsRestart(run[i]) ==> restarts) && (IsPreVote(run[i]) ==> preVotes)
  }

  // ---------- assertions

  ghost predicate AllAlive(g: System) {
    forall a | a in g.servers :: g.servers[a].alive
  }

  ghost predicate NeverStops(peersOf: map<Addr, seq<Addr>>, restarts: bool) {
    forall run: seq<Event> | Allowed(run, restarts, true) :: AllAlive(After(peersOf, run))
  }

  lemma NobodyReplies(peersOf: map<Addr, seq<Addr>>, g: System, ev: Event, a: Addr)
    requires SoundCluster(peersOf) && |peersOf| == 1 && Reachable(peersOf, g) && a in g.servers
    ensures !Assertions.LateReply(g, ev, a)
  {
    hide Configured, Reachable;
    ReachableOk(peersOf, g);
    if Assertions.LateReply(g, ev, a) {
      SentMessage(g, ev.m);
      OnlyOne(peersOf.Keys, ev.m.src, ev.m.dest);
    }
  }

  lemma OnlyOne(s: set<Addr>, x: Addr, y: Addr)
    requires |s| == 1 && x in s && y in s
    ensures x == y
  {
    assert |s - {x}| == 0;
    assert s - {x} == {};
  }

  lemma {:induction false} LoneServerRuns(peersOf: map<Addr, seq<Addr>>, run: seq<Event>)
    requires SoundCluster(peersOf) && |peersOf| == 1
    ensures AllAlive(After(peersOf, run))
    decreases |run|
  {
    hide SoundCluster, Next, Assertions.LateReply;
    NamedRun(peersOf, run);
    if run != [] {
      var most, ev := run[..|run| - 1], run[|run| - 1];
      var g := After(peersOf, most);
      LoneServerRuns(peersOf, most);
      NamedRun(peersOf, most);
      assert Reachable(peersOf, g);
      forall a | a in After(peersOf, run).servers
        ensures After(peersOf, run).servers[a].alive
      {
        NobodyReplies(peersOf, g, ev, a);
        Assertions.AssertionFailsExactly(peersOf, g, ev, a);
      }
    }
  }

  /** No assertion ever fails, on all runs of the kind, exactly if the kind has no restarts or the cluster has
      one member only. */
  lemma AssertionsHoldExactly(peersOf: map<Addr, seq<Addr>>, restarts: bool)
    requires SoundCluster(peersOf)
    ensures NeverStops(peersOf, restarts) <==> !restarts || |peersOf| == 1
  {
    hide SoundCluster, After, AllAlive;
    if !restarts {
      forall run: seq<Event> | Allowed(run, restarts, true)
        ensures AllAlive(After(peersOf, run))
      {
        SteadyRuns(peersOf, run);
      }
    } else if |peersOf| == 1 {
      forall run: seq<Event> | Allowed(run, restarts, true)
        ensures AllAlive(After(peersOf, run))
      {
        LoneServerRuns(peersOf, run);
      }
    } else {
      var a := SomeMember(peersOf);
      var run := Interrupted.LeaderCanStop(peersOf, a);
      StoppedOne(After(peersOf, run), a);
      assert Allowed(run, restarts, true);
    }
  }

  lemma StoppedOne(g: System, a: Addr)
    requires a in g.servers && !g.servers[a].alive
    ensures !AllAlive(g)
  {
  }

  lemma SteadyRuns(peersOf: map<Addr, seq<Addr>>, run: seq<Event>)
    requires SoundCluster(peersOf) && Allowed(run, false, true)
    ensures AllAlive(After(peersOf, run))
  {
    hide SoundCluster, After;
    NamedRun(peersOf, run);
    forall a | a in After(peersOf, run).servers
      ensures After(peersOf, run).servers[a].alive
    {
      Assertions.NoAssertionFails(peersOf, run, a);
    }
  }

  // ---------- match indexes within a term

  /** a leads after the first lo events, and after all of them, the same term. */
  ghost predicate LeadsTwice(peersOf: map<Addr, seq<Addr>>, run: seq<Event>, lo: nat, a: Addr) {
    && lo <= |run|
    && var g1, g2 := After(peersOf, run[..lo]), After(peersOf, run);
       && a in g1.servers && a in g2.servers
       && g1.servers[a].role == g2.servers[a].role == Leader && g1.servers[a].term == g2.servers[a].term
  }

  /** The match indexes that a has after lo events are no greater than those it has after all of them. */
  ghost predicate MatchKept(peersOf: map<Addr, seq<Addr>>, run: seq<Event>, lo: nat, a: Addr) {
    && lo <= |run|
    && var g1, g2 := After(peersOf, run[..lo]), After(peersOf, run);
       a in g1.servers && a in g2.servers && MatchesGrow(g1.servers[a], g2.servers[a])
  }

  /** s, reached from the leader s1, still leads with its match indexes grown, or is past its term, or has lost
      the term and is no candidate for it. */
  ghost predicate LeadsOrLost(s1: Server, s: Server) {
    || (s.role == Leader && MatchesGrow(s1, s))
    || s.term > s1.term
    || (s.term == s1.term && s.role == Follower)
  }

  lemma ProposeRole(s: Server, value: Bytes)
    ensures Propose(s, value).server.role == s.role
  {
    hide MaybeCommit, SendFrom;
    var s1 := s.(log := s.log + [Entry(s.term, Data, value)]);
    Durability.MaybeCommitRest(s1);
    Assertions.SendFromRole(MaybeCommit(s1), 0);
  }

  /** A server that is no candidate becomes none within its term, except by pre-voting. */
  ghost predicate NoCandidate(s: Server, s': Server) {
    s'.term > s.term || (s'.term == s.term && (s'.role == s.role || s'.role == Follower))
  }

  lemma VoteReplyRole(s: Server, m: Message)
    requires m.RequestVoteReply? && s.role != Candidate
    ensures NoCandidate(s, OnRequestVoteReply(s, m).server)
  {
    hide DoRequestVote, BecomeLeader, MajorityPreVoteOk, Majority;
  }

  lemma ReplyRole(s: Server, m: Message)
    requires m.AppendEntriesReply?
    ensures NoCandidate(s, OnAppendEntriesReply(s, m).server)
  {
    hide NoteReply;
    Assertions.NoteReplyRole(s, m);
    Durability.NoteReplyKeeps(s, m);
    NoteReplyTerm(s, m);
  }

  lemma NoteReplyTerm(s: Server, m: Message)
    requires m.AppendEntriesReply?
    ensures NoteReply(s, m).term == s.term
  {
    hide MaybeCommit;
    Durability.MaybeCommitRest(SetMatch(s, m.src, m.reqPreIndex + m.reqNumEntries));
  }

  lemma MessageRole(s: Server, m: Message, intervalOk: bool)
    requires s.role != Candidate
    ensures NoCandidate(s, OnMessage(s, m, intervalOk).server)
  {
    hide OnAppendEntries, OnAppendEntriesReply, OnRequestVoteReply, LogOk, LastIndex, LastTerm;
    match m
    case RequestVoteReply(_, _, _, _, _, _, _, _) => VoteReplyRole(s, m);
    case AppendEntriesReply(_, _, _, _, _, _, _, _) => ReplyRole(s, m);
    case AppendEntries(_, _, _, _, _, _, _) => EntriesRest(s, m);
    case _ =>
  }

  lemma OtherRole(s: Server, ev: Event)
    requires s.role != Candidate && !IsPreVote(ev)
    requires ev.Timeout? || ev.VoteTimer? || ev.BeatTimer? || ev.ClientTransfer? || ev.Restart? || ev.Bounce?
    ensures NoCandidate(s, Handle(s, ev).server)
  {
    hide LastIndex, LastTerm, GetTerm, Fill, QuorumAll;
  }

  lemma HandleRole(s: Server, ev: Event)
    requires s.role != Candidate && !ev.Crash? && !IsPreVote(ev)
    ensures NoCandidate(s, Handle(s, ev).server)
  {
    hide NoCandidate, Propose, HeartBeat, OnMessage, Elect, RequestVoteRpc, LeaderTransfer, Reboot, StopStart;
    match ev
    case ClientPropose(_, value) => ProposeTerm(s, value);
    case Deliver(m, intervalOk) => MessageRole(s, m, intervalOk);
    case _ => OtherRole(s, ev);
  }

  lemma ProposeTerm(s: Server, value: Bytes)
    ensures NoCandidate(s, Propose(s, value).server)
  {
    hide Propose;
    ProposeRole(s, value);
    ProposeTables(s, value);
  }

  /** One handler, without pre-votes. */
  lemma HandleLeads(s1: Server, s: Server, ev: Event)
    requires LeadsOrLost(s1, s) && !ev.Crash? && !IsPreVote(ev)
    ensures LeadsOrLost(s1, Handle(s, ev).server)
  {
    hide Handle;
    Durability.TermOnward(s, ev);
    if s.term == s1.term {
      HandleRole(s, ev);
      if s.role == Leader {
        HandleTables(s, ev);
      }
    }
  }

  lemma CrashLeads(s1: Server, s: Server, s': Server, applied: nat)
    requires s.term <= s'.term && s1.term <= s.term
    ensures LeadsOrLost(s1, CrashTo(s, s', applied))
  {
  }

  lemma StepLeads(peersOf: map<Addr, seq<Addr>>, g: System, ev: Event, a: Addr, s1: Server)
    requires Named(peersOf, g) && a in g.servers && LeadsOrLost(s1, g.servers[a])
    requires Site(ev) == a ==> !IsPreVote(ev)
    ensures a in Next(g, ev).servers && LeadsOrLost(s1, Next(g, ev).servers[a])
  {
    hide Handle, Record, LeadsOrLost, CrashTo;
    if Enabled(g, ev) {
      if Site(ev) == a {
        TermsKeep(s1, g.servers[a]);
        if ev.Crash? {
          Durability.TermOnward(g.servers[a], ev.during);
          HandleName(g.servers[a], ev.during);
          CrashLeads(s1, g.servers[a], Handle(g.servers[a], ev.during).server, ev.applied);
        } else {
          HandleName(g.servers[a], ev);
          HandleLeads(s1, g.servers[a], ev);
        }
      }
    }
  }

  lemma TermsKeep(s1: Server, s: Server)
    requires LeadsOrLost(s1, s)
    ensures s1.term <= s.term
  {
  }

  /** Runs on which a does not pre-vote from lo on. */
  predicate NoPreVoteAt(run: seq<Event>, lo: nat, a: Addr) {
    forall i | lo <= i < |run| :: IsPreVote(run[i]) ==> run[i].at != a
  }

  lemma {:induction false} RunLeads(peersOf: map<Addr, seq<Addr>>, run: seq<Event>, lo: nat, a: Addr)
    requires lo <= |run| && NoPreVoteAt(run, lo, a) && a in After(peersOf, run[..lo]).servers
    requires After(peersOf, run[..lo]).servers[a].role == Leader
    ensures a in After(peersOf, run).servers
    ensures LeadsOrLost(After(peersOf, run[..lo]).servers[a], After(peersOf, run).servers[a])
    decreases |run|
  {
    hide Next, Exec, Init, Named, LeadsOrLost;
    if lo == |run| {
      assert run[..lo] == run;
      StartsLeading(After(peersOf, run).servers[a]);
    } else {
      var most, ev := run[..|run| - 1], run[|run| - 1];
      assert most[..lo] == run[..lo];
      RunLeads(peersOf, most, lo, a);
      NamedRun(peersOf, most);
      LastStep(peersOf, run);
      SiteOfPreVote(ev);
      StepLeads(peersOf, After(peersOf, most), ev, a, After(peersOf, run[..lo]).servers[a]);
    }
  }

  lemma StartsLeading(s: Server)
    requires s.role == Leader
    ensures LeadsOrLost(s, s)
  {
  }

  lemma SiteOfPreVote(ev: Event)
    ensures IsPreVote(ev) ==> Site(ev) == ev.at
  {
  }

  /** Between two moments at which a leads a term no match index goes back, if a does not pre-vote in between:
      a real candidacy raises the term. Holds for clusters of any size, restarts included. */
  lemma MatchKeptWithoutPreVote(peersOf: map<Addr, seq<Addr>>, run: seq<Event>, lo: nat, a: Addr)
    requires LeadsTwice(peersOf, run, lo, a) && NoPreVoteAt(run, lo, a)
    ensures MatchKept(peersOf, run, lo, a)
  {
    hide After;
    RunLeads(peersOf, run, lo, a);
  }

  // ---------- the same without restarts

  /** s, reached from the leader s1, still leads with its match indexes grown, or is past its term. */
  ghost predicate LeadsOrPast(s1: Server, s: Server) {
    (s.role == Leader && MatchesGrow(s1, s)) || s.term > s1.term
  }

  /** Runs on which a is not restarted from lo on. */
  ghost predicate NoRestartAt(run: seq<Event>, lo: nat, a: Addr) {
    forall i | lo <= i < |run| :: IsRestart(run[i]) ==> Site(run[i]) != a
  }

  lemma HandleStays(g: System, ev: Event, s1: Server)
    requires Inv(g) && Enabled(g, ev) && !IsRestart(ev) && LeadsOrPast(s1, g.servers[Site(ev)])
    ensures LeadsOrPast(s1, Handle(g.servers[Site(ev)], ev).server)
  {
    hide Inv, Handle;
    var s := g.servers[Site(ev)];
    Durability.TermOnward(s, ev);
    if s.term == s1.term {
      Assertions.LeaderStays(g, ev);
      HandleTables(s, ev);
    }
  }

  lemma StepStays(g: System, ev: Event, a: Addr, s1: Server)
    requires Inv(g) && a in g.servers && LeadsOrPast(s1, g.servers[a])
    requires Site(ev) == a ==> !IsRestart(ev)
    ensures a in Next(g, ev).servers && LeadsOrPast(s1, Next(g, ev).servers[a])
  {
    hide Inv, HistOk, ServerOk, Handle, Record, LeadsOrPast, CrashTo;
    if Enabled(g, ev) {
      ServerOf(g, Site(ev));
      if Site(ev) == a {
        HandleStays(g, ev, s1);
      }
    }
  }

  lemma {:induction false} RunStays(peersOf: map<Addr, seq<Addr>>, run: seq<Event>, lo: nat, a: Addr)
    requires SoundCluster(peersOf)
    requires lo <= |run| && NoRestartAt(run, lo, a) && a in After(peersOf, run[..lo]).servers
    requires After(peersOf, run[..lo]).servers[a].role == Leader
    ensures a in After(peersOf, run).servers
    ensures LeadsOrPast(After(peersOf, run[..lo]).servers[a], After(peersOf, run).servers[a])
    decreases |run|
  {
    hide Inv, Next, Exec, Init, LeadsOrPast, SoundCluster;
    if lo == |run| {
      assert run[..lo] == run;
      StartsStaying(After(peersOf, run).servers[a]);
    } else {
      var most, ev := run[..|run| - 1], run[|run| - 1];
      assert most[..lo] == run[..lo];
      RunStays(peersOf, most, lo, a);
      assert Reachable(peersOf, After(peersOf, most));
      ReachableOk(peersOf, After(peersOf, most));
      LastStep(peersOf, run);
      StepStays(After(peersOf, most), ev, a, After(peersOf, run[..lo]).servers[a]);
    }
  }

  lemma StartsStaying(s: Server)
    requires s.role == Leader
    ensures LeadsOrPast(s, s)
  {
  }

  /** Between two moments at which a leads a term no match index goes back, if a is not restarted in between,
      pre-votes or not: it leads all along. */
  lemma MatchKeptWithoutRestart(peersOf: map<Addr, seq<Addr>>, run: seq<Event>, lo: nat, a: Addr)
    requires SoundCluster(peersOf) && LeadsTwice(peersOf, run, lo, a) && NoRestartAt(run, lo, a)
    ensures MatchKept(peersOf, run, lo, a)
  {
    hide After, SoundCluster;
    RunStays(peersOf, run, lo, a);
  }

  lemma LoneServerMatch(peersOf: map<Addr, seq<Addr>>, run: seq<Event>, lo: nat, a: Addr)
    requires SoundCluster(peersOf) && |peersOf| == 1 && LeadsTwice(peersOf, run, lo, a)
    ensures MatchKept(peersOf, run, lo, a)
  {
    hide Inv, HistOk, After, Configured;
    var g := After(peersOf, run[..lo]);
    assert Reachable(peersOf, g);
    ReachableOk(peersOf, g);
    NoRows(peersOf, g, a);
  }

  lemma NoRows(peersOf: map<Addr, seq<Addr>>, g: System, a: Addr)
    requires Inv(g) && |peersOf| == 1 && g.servers.Keys == peersOf.Keys == g.hist.members && a in g.servers
    ensures g.servers[a].indices.Keys == {}
  {
    hide HistOk;
    InvParts(g, a);
    assert |peersOf.Keys| == 1;
    forall j | j in g.servers[a].indices
      ensures false
    {
      OnlyOne(peersOf.Keys, j, a);
    }
  }

  ghost predicate NeverGoesBack(peersOf: map<Addr, seq<Addr>>, restarts: bool, preVotes: bool) {
    forall run: seq<Event>, lo: nat, a: Addr |
      Allowed(run, restarts, preVotes) && LeadsTwice(peersOf, run, lo, a) :: MatchKept(peersOf, run, lo, a)
  }

  lemma KeptOnKind(peersOf: map<Addr, seq<Addr>>, restarts: bool, preVotes: bool, run: seq<Event>, lo: nat, a: Addr)
    requires SoundCluster(peersOf) && (!(restarts && preVotes) || |peersOf| == 1)
    requires Allowed(run, restarts, preVotes) && LeadsTwice(peersOf, run, lo, a)
    ensures MatchKept(peersOf, run, lo, a)
  {
    hide SoundCluster, LeadsTwice, MatchKept;
    if |peersOf| == 1 {
      LoneServerMatch(peersOf, run, lo, a);
    } else if restarts {
      MatchKeptWithoutPreVote(peersOf, run, lo, a);
    } else {
      MatchKeptWithoutRestart(peersOf, run, lo, a);
    }
  }

  lemma NotKeptOnKind(peersOf: map<Addr, seq<Addr>>)
    requires SoundCluster(peersOf) && |peersOf| != 1
    ensures !NeverGoesBack(peersOf, true, true)
  {
    hide SoundCluster, LeadsTwice, MatchKept, After, Interrupted.WentBack, NeverGoesBack, Configured;
    var a := SomeMember(peersOf);
    var run, more, u := Interrupted.MatchCanGoBack(peersOf, a);
    var all := run + more;
    assert all[..|run|] == run;
    NotKept(peersOf, all, |run|, a, u);
    Refutes(peersOf, all, |run|, a);
  }

  lemma Refutes(peersOf: map<Addr, seq<Addr>>, run: seq<Event>, lo: nat, a: Addr)
    requires LeadsTwice(peersOf, run, lo, a) && !MatchKept(peersOf, run, lo, a)
    ensures !NeverGoesBack(peersOf, true, true)
  {
    hide LeadsTwice, MatchKept;
    assert Allowed(run, true, true);
  }

  /** No match index ever goes back within a term, on all runs of the kind, exactly if the kind does not have
      both restarts and pre-votes, or the cluster has one member only. */
  lemma MatchMonotonicExactly(peersOf: map<Addr, seq<Addr>>, restarts: bool, preVotes: bool)
    requires SoundCluster(peersOf)
    ensures NeverGoesBack(peersOf, restarts, preVotes) <==> !(restarts && preVotes) || |peersOf| == 1
  {
    hide SoundCluster, LeadsTwice, MatchKept, Allowed;
    if restarts && preVotes && |peersOf| != 1 {
      NotKeptOnKind(peersOf);
    } else {
      forall run: seq<Event>, lo: nat, a: Addr |
        Allowed(run, restarts, preVotes) && LeadsTwice(peersOf, run, lo, a)
        ensures MatchKept(peersOf, run, lo, a)
      {
        KeptOnKind(peersOf, restarts, preVotes, run, lo, a);
      }
    }
  }

  lemma NotKept(peersOf: map<Addr, seq<Addr>>, run: seq<Event>, lo: nat, a: Addr, u: Addr)
    requires lo <= |run|
    requires Interrupted.WentBack(After(peersOf, run[..lo]), After(peersOf, run), a, u)
    ensures LeadsTwice(peersOf, run, lo, a) && !MatchKept(peersOf, run, lo, a)
  {
  }
}
