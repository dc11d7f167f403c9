/** Every event keeps the invariant, so every run does. */
module Safety {
  import opened RaftTypes
  import opened Quorum
  import opened RaftStep
  import opened Cluster
  import opened Invariant
  import opened Stability
  import opened Completeness
  import opened ServerSteps
  import opened VoteSteps
  import opened ApplySteps
  import opened AppendSteps

  lemma ArmedFor(h: History, s: Server)
    requires ServerOk(h, s)
    ensures s.timers.election ==> s.role != Leader
    ensures forall j | j in s.timers.requestVotes :: s.role == Candidate && j in s.peers
    ensures forall j | j in s.timers.heartbeats :: s.role == Leader && j in s.peers
    ensures forall j | j in s.peers :: j in h.members && j != s.me
  {
    forall j | j in s.peers
      ensures j in h.members && j != s.me
    {
      assert j in PeerSet(s.peers);
    }
  }

  lemma TransferOk(h: History, s: Server, dest: Addr)
    requires HistOk(h) && ServerOk(h, s) && dest in h.members && dest != s.me
    ensures StepOk(h, s, LeaderTransfer(s, dest))
  {
    hide HistOk, StepOk, Good, Certified, LogOk_, RoleOk, ApplyOk, BallotOk, LastTerm, LastIndex;
    var e := LeaderTransfer(s, dest);
    assert forall m | m in e.sent :: MessageOk(h, m);
    Quiet(h, s, e);
  }

  lemma TransferFlags(h: History, s: Server, t: nat)
    requires ServerOk(h, s)
    ensures ServerOk(h, s.(leaderTransfer := true, transferMaxTerm := t))
  {
    var s' := s.(leaderTransfer := true, transferMaxTerm := t);
    assert LogOk_(h, s');
    assert RoleOk(h, s');
    assert ApplyOk(h, s');
  }

  lemma ElectionArmed(h: History, s: Server)
    requires ServerOk(h, s) && s.role == Follower
    ensures ServerOk(h, s.(timers := s.timers.(election := true)))
  {
    TimersOnly(h, s, s.timers.(election := true));
  }

  lemma OnTimeoutNowOk(h: History, s: Server, m: Message)
    requires HistOk(h) && ServerOk(h, s) && m.TimeoutNow? && m.dest == s.me
    ensures StepOk(h, s, OnTimeoutNow(s, m))
  {
    hide HistOk, ServerOk, StepOk;
    ArmedFor(h, s);
    var e := OnTimeoutNow(s, m);
    var s1 := s.(leaderTransfer := true, transferMaxTerm := s.term + MAX_TRANSFER_TERM);
    var s2 := CaughtUp(s1, m.term);
    TransferFlags(h, s, s1.transferMaxTerm);
    CaughtUpOk(h, s1, m.term);
    if e.server != s2 {
      ElectionArmed(h, s2);
    }
    Quiet(h, s, e);
  }

  lemma OnMessageOk(h: History, s: Server, m: Message, intervalOk: bool)
    requires HistOk(h) && ServerOk(h, s) && s.alive && MessageOk(h, m) && m.dest == s.me
    ensures StepOk(h, s, OnMessage(s, m, intervalOk))
  {
    hide HistOk, ServerOk, StepOk, MessageOk;
    match m
    case RequestVote(_, _, _, _, _, _, _) => OnRequestVoteOk(h, s, m, intervalOk);
    case RequestVoteReply(_, _, _, _, _, _, _, _) => OnRequestVoteReplyOk(h, s, m);
    case AppendEntries(_, _, _, _, _, _, _) => OnAppendEntriesOk(h, s, m);
    case AppendEntriesReply(_, _, _, _, _, _, _, _) => OnAppendEntriesReplyOk(h, s, m);
    case TimeoutNow(_, _, _, _, _, _) => OnTimeoutNowOk(h, s, m);
  }

  lemma ServersAreMembers(g: System)
    requires Inv(g)
    ensures g.servers.Keys == g.hist.members
  {
  }

  lemma SentMessage(g: System, m: Message)
    requires Inv(g) && m in g.msgs
    ensures MessageOk(g.hist, m)
  {
  }

  lemma HandleOk(g: System, ev: Event)
    requires Inv(g) && Enabled(g, ev) && !ev.Crash?
    ensures StepOk(g.hist, g.servers[Site(ev)], Handle(g.servers[Site(ev)], ev))
  {
    hide Inv, HistOk, ServerOk, StepOk, MessageOk;
    var h, s := g.hist, g.servers[Site(ev)];
    ServerOf(g, Site(ev));
    ArmedFor(h, s);
    match ev
    case Timeout(_, preVote) => ElectOk(h, s, preVote);
    case VoteTimer(_, peer) => SendRequestVoteOk(h, s, peer);
    case BeatTimer(_, peer) => HeartBeatOk(h, s, peer);
    case ClientPropose(_, value) => ProposeOk(h, s, value);
    case ClientTransfer(_, target) =>
      ServersAreMembers(g);
      TransferOk(h, s, target);
    case Deliver(m, intervalOk) =>
      SentMessage(g, m);
      OnMessageOk(h, s, m, intervalOk);
    case Restart(_) =>
      RebootOk(h, s);
      Quiet(h, s, Effect(Reboot(s), []));
    case Bounce(_) =>
      StopStartOk(h, s);
      Quiet(h, s, Effect(StopStart(s), []));
  }

  // ---------- crashes

  /** A crash in the apply loop leaves a state machine that holds a prefix of what it was being fed. */
  lemma CrashOk(h: History, h': History, s: Server, s': Server, applied: nat)
    requires HistOk(h') && Extends(h, h') && ServerOk(h, s) && ServerOk(h', s')
    ensures ServerOk(h', CrashTo(s, s', applied))
  {
    hide HistOk, ServerOk, Certified, Extends, DataBetween;
    ApplyParts(h, s);
    ApplyParts(h', s');
    if s.lastApply <= applied <= s'.lastApply && applied <= |s'.log| {
      CertifiedStable(h, h', s.log, s.lastApply, s.term, s.term);
      CertifiedAgree(h', s.log, s.lastApply, s.term, s'.log, s'.lastApply, s'.term, s.lastApply);
      DataBetweenPrefix(s.log, s'.log, 0, s.lastApply);
      DataBetweenSplit(s'.log, 0, s.lastApply, applied);
      CertifiedLess(h', s'.log, s'.lastApply, applied, s'.term);
      PartialOk(h', s', applied);
      RebootOk(h', s'.(sm := DataBetween(s'.log, 0, applied), lastApply := applied));
    } else {
      RebootOk(h', s');
    }
  }

  lemma ApplyParts(h: History, s: Server)
    requires ServerOk(h, s)
    ensures s.lastApply <= |s.log| && Certified(h, s.log, s.lastApply, s.term)
    ensures s.sm == DataBetween(s.log, 0, s.lastApply) && Good(h, s.log)
  {
  }

  lemma PartialOk(h: History, s: Server, applied: nat)
    requires ServerOk(h, s) && applied <= |s.log| && Certified(h, s.log, applied, s.term)
    ensures ServerOk(h, s.(sm := DataBetween(s.log, 0, applied), lastApply := applied))
  {
    var s' := s.(sm := DataBetween(s.log, 0, applied), lastApply := applied);
    assert LogOk_(h, s');
    assert RoleOk(h, s');
  }

  // ---------- the system

  lemma StepParts(h: History, s: Server, e: Effect)
    requires StepOk(h, s, e)
    ensures HistOk(Record(h, s, e)) && Extends(h, Record(h, s, e)) && GrowsBy(s.me, h, Record(h, s, e))
    ensures Record(h, s, e).members == h.members
    ensures ServerOk(Record(h, s, e), e.server) && e.server.me == s.me
  {
  }

  lemma StepMessage(h: History, s: Server, e: Effect, m: Message)
    requires StepOk(h, s, e) && m in e.sent
    ensures MessageOk(Record(h, s, e), m)
  {
  }

  /** One server moved on; the others and the old messages are as before. */
  lemma TakeOk(g: System, g': System, s: Server, s': Server, e: Effect)
    requires Inv(g) && s.me in g.servers && g.servers[s.me] == s
    requires StepOk(g.hist, s, e) && s'.me == s.me && ServerOk(Record(g.hist, s, e), s')
    requires g'.servers == g.servers[s.me := s'] && g'.hist == Record(g.hist, s, e)
    requires forall m | m in g'.msgs :: m in g.msgs || m in e.sent
    ensures Inv(g') && Extends(g.hist, g'.hist)
  {
    hide HistOk, ServerOk, StepOk, MessageOk, Record, GrowsBy;
    StepParts(g.hist, s, e);
    forall a | a in g'.servers
      ensures g'.servers[a].me == a && ServerOk(g'.hist, g'.servers[a])
    {
      if a != s.me {
        OtherStable(g.hist, g'.hist, s.me, g.servers[a]);
      }
    }
    forall m | m in g'.msgs
      ensures MessageOk(g'.hist, m)
    {
      if m in g.msgs {
        MessageStable(g.hist, g'.hist, m);
      } else {
        StepMessage(g.hist, s, e, m);
      }
    }
  }

  lemma ServerOf(g: System, a: Addr)
    requires Inv(g) && a in g.servers
    ensures g.servers[a].me == a && ServerOk(g.hist, g.servers[a]) && HistOk(g.hist)
  {
  }

  lemma NextOk(g: System, ev: Event)
    requires Inv(g)
    ensures Inv(Next(g, ev)) && Extends(g.hist, Next(g, ev).hist)
  {
    hide Inv, HistOk, ServerOk, StepOk, Record;
    if Enabled(g, ev) {
      var s := g.servers[Site(ev)];
      ServerOf(g, Site(ev));
      if ev.Crash? {
        var e := Handle(s, ev.during);
        HandleOk(g, ev.during);
        StepParts(g.hist, s, e);
        var s' := CrashTo(s, e.server, ev.applied);
        CrashOk(g.hist, Record(g.hist, s, e), s, e.server, ev.applied);
        TakeOk(g, Next(g, ev), s, s', e);
      } else {
        var e := Handle(s, ev);
        HandleOk(g, ev);
        StepParts(g.hist, s, e);
        TakeOk(g, Next(g, ev), s, e.server, e);
      }
    } else {
      ExtendsSelf(g.hist);
    }
  }

  lemma ExtendsSelf(h: History)
    ensures Extends(h, h)
  {
  }

  lemma EmptyOk(members: set<Addr>)
    requires NO_ADDR !in members && SoundSize(|members|)
    ensures HistOk(History(members, map[], map[], map[]))
  {
  }

  lemma FirstOk(members: set<Addr>, a: Addr, peers: seq<Addr>)
    requires a in members && a !in peers && PeerSet(peers) + {a} == members
    ensures ServerOk(History(members, map[], map[], map[]), FirstStart(a, peers)) && FirstStart(a, peers).me == a
  {
    var h, s := History(members, map[], map[], map[]), FirstStart(a, peers);
    assert LogOk_(h, s);
    assert RoleOk(h, s);
  }

  lemma MemberOf(peersOf: map<Addr, seq<Addr>>)
    requires Configured(peersOf)
    ensures NO_ADDR !in peersOf.Keys
    ensures forall a | a in peersOf :: a !in peersOf[a] && PeerSet(peersOf[a]) + {a} == peersOf.Keys
  {
  }

  lemma InitOk(peersOf: map<Addr, seq<Addr>>)
    requires Configured(peersOf) && SoundSize(|peersOf|)
    ensures Inv(Init(peersOf))
  {
    hide HistOk, ServerOk, Configured, PeerSet, FirstStart, SoundSize;
    var g := Init(peersOf);
    assert |peersOf.Keys| == |peersOf|;
    MemberOf(peersOf);
    EmptyOk(peersOf.Keys);
    forall a | a in g.servers
      ensures g.servers[a].me == a && ServerOk(g.hist, g.servers[a])
    {
      FirstOk(peersOf.Keys, a, peersOf[a]);
    }
  }

  /** The invariant holds after every run, and the history only grows along it. */
  lemma {:induction false} RunOk(g: System, run: seq<Event>)
    requires Inv(g)
    ensures Inv(Exec(g, run)) && Extends(g.hist, Exec(g, run).hist)
    decreases |run|
  {
    if run == [] {
      ExtendsSelf(g.hist);
    } else {
      var g1 := Exec(g, run[..|run| - 1]);
      RunOk(g, run[..|run| - 1]);
      NextOk(g1, run[|run| - 1]);
      ExtendsTransitive(g.hist, g1.hist, Exec(g, run).hist);
    }
  }

  lemma {:induction false} ExecSplit(g: System, a: seq<Event>, b: seq<Event>)
    ensures Exec(g, a + b) == Exec(Exec(g, a), b)
    decreases |b|
  {
    if b == [] {
      assert a + b == a;
    } else {
      assert (a + b)[..|a + b| - 1] == a + b[..|b| - 1];
      ExecSplit(g, a, b[..|b| - 1]);
    }
  }
}
