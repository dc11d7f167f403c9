/** Which assertions of the source can fail, and which timers are armed. */
module Assertions {
  import opened RaftTypes
  import opened Quorum
  import opened RaftStep
  import opened Cluster
  import opened Invariant
  import opened Stability
  import opened Completeness
  import opened ServerSteps
  import opened VoteSteps
  import opened ApplySteps
  import opened AppendSteps
  import opened Safety
  import opened Theorems
  import Durability

  /** The event brings a a reply to a request of its present term, which it does not lead any more: the one event
      on which an assertion can fail. */
  ghost predicate LateReply(g: System, ev: Event, a: Addr) {
    && Enabled(g, ev) && Site(ev) == a
    && ev.Deliver? && ev.m.AppendEntriesReply?
    && g.servers[a].role != Leader && ev.m.reqTerm == g.servers[a].term
  }

  /** Handlers without assertions of their own. */
  lemma VotesAlive(s: Server, m: Message, intervalOk: bool)
    requires m.RequestVote? || m.TimeoutNow?
    ensures OnMessage(s, m, intervalOk).server.alive == s.alive
  {
  }

  lemma RealVoteAlive(s: Server, j: Addr, granted: bool)
    ensures OnRealVote(s, j, granted).alive == s.alive
  {
    hide Majority, LastIndex, Fill;
  }

  lemma PreVoteAlive(s: Server, j: Addr, logOk: bool, intervalOk: bool)
    ensures OnPreVote(s, j, logOk, intervalOk).alive == s.alive
  {
    hide MajorityPreVoteOk, QuorumAll, LastIndex, Fill;
  }

  lemma VoteReplyAlive(s: Server, m: Message)
    requires m.RequestVoteReply?
    ensures OnRequestVoteReply(s, m).server.alive == s.alive
  {
    hide OnRealVote, OnPreVote;
    RealVoteAlive(s, m.src, m.granted);
    PreVoteAlive(s, m.src, m.logOk, m.intervalOk);
  }

  lemma MessageAlive(h: History, s: Server, m: Message, intervalOk: bool)
    requires HistOk(h) && ServerOk(h, s) && s.alive && MessageOk(h, m) && m.dest == s.me
    ensures OnMessage(s, m, intervalOk).server.alive
            || (m.AppendEntriesReply? && s.role != Leader && m.reqTerm == s.term && LedBy(h, s.term, s.me))
  {
    hide HistOk, ServerOk, StepOk, MessageOk;
    hide OnRequestVote, OnRequestVoteReply, OnAppendEntries, OnAppendEntriesReply;
    match m
    case RequestVoteReply(_, _, _, _, _, _, _, _) => VoteReplyAlive(s, m);
    case AppendEntries(_, _, _, _, _, _, _) => OnAppendEntriesOk(h, s, m);
    case AppendEntriesReply(_, _, _, _, _, _, _, _) => OnAppendEntriesReplyOk(h, s, m);
    case _ => VotesAlive(s, m, intervalOk);
  }

  lemma PlainAlive(g: System, ev: Event)
    requires Inv(g) && Enabled(g, ev) && !ev.Crash?
    ensures Handle(g.servers[Site(ev)], ev).server.alive || LateReply(g, ev, Site(ev))
  {
    hide Inv, HistOk, ServerOk, StepOk, MessageOk, HeartBeat, Propose, OnMessage;
    var s := g.servers[Site(ev)];
    ServerOf(g, Site(ev));
    ArmedFor(g.hist, s);
    match ev
    case BeatTimer(_, peer) => HeartBeatOk(g.hist, s, peer);
    case ClientPropose(_, value) => ProposeOk(g.hist, s, value);
    case Deliver(m, intervalOk) =>
      SentMessage(g, m);
      MessageAlive(g.hist, s, m, intervalOk);
    case _ =>
  }

  lemma CrashedRuns(s: Server, s': Server, applied: nat)
    ensures CrashTo(s, s', applied).alive
  {
  }

  lemma LateReplyStops(s: Server, m: Message)
    requires m.AppendEntriesReply? && s.role != Leader && m.reqTerm == s.term <= m.term
    ensures !OnAppendEntriesReply(s, m).server.alive
  {
  }

  lemma ReplyTerms(h: History, m: Message)
    requires MessageOk(h, m) && m.AppendEntriesReply?
    ensures m.reqTerm <= m.term && LedBy(h, m.reqTerm, m.dest)
  {
  }

  lemma LateReplyIs(g: System, ev: Event)
    requires Inv(g) && Enabled(g, ev) && !ev.Crash?
    ensures !Handle(g.servers[Site(ev)], ev).server.alive <==> LateReply(g, ev, Site(ev))
  {
    hide Inv, MessageOk, OnAppendEntriesReply;
    PlainAlive(g, ev);
    if LateReply(g, ev, Site(ev)) {
      SentMessage(g, ev.m);
      ReplyTerms(g.hist, ev.m);
      LateReplyStops(g.servers[Site(ev)], ev.m);
    }
  }

  /** In any reachable state, the one assertion that can fail is the one on being leader when a reply comes in,
      and it fails exactly when a reply to a request of its own term reaches a server that is not leader. */
  lemma AssertionFailsExactly(peersOf: map<Addr, seq<Addr>>, g: System, ev: Event, a: Addr)
    requires SoundCluster(peersOf) && Reachable(peersOf, g) && a in g.servers && g.servers[a].alive
    ensures a in Next(g, ev).servers
    ensures !Next(g, ev).servers[a].alive <==> LateReply(g, ev, a)
  {
    hide Inv, HistOk, ServerOk, Reachable, Configured, Record, Handle;
    ReachableOk(peersOf, g);
    if Enabled(g, ev) {
      ServerOf(g, Site(ev));
      if ev.Crash? {
        CrashedRuns(g.servers[Site(ev)], Handle(g.servers[Site(ev)], ev.during).server, ev.applied);
      } else {
        LateReplyIs(g, ev);
      }
    }
  }

  // ---------- runs without restarts

  predicate RestartFree(run: seq<Event>) {
    forall i | 0 <= i < |run| :: !run[i].Restart? && !run[i].Bounce? && !run[i].Crash?
  }

  /** Running, and leader of the current term if it ever was. */
  ghost predicate Steady(h: History, s: Server) {
    s.alive && (LedBy(h, s.term, s.me) ==> s.role == Leader)
  }

  lemma LeaderVoted(h: History, s: Server)
    requires HistOk(h) && ServerOk(h, s) && LedBy(h, s.term, s.me)
    ensures s.vote != NO_ADDR
  {
    LeaderIsMember(h, s.term);
  }

  lemma EntriesTerm(s: Server, m: Message)
    requires m.AppendEntries?
    ensures OnAppendEntries(s, m).server.term == Max(s.term, m.term)
    ensures m.term < s.term ==> OnAppendEntries(s, m).server == s
  {
    if m.term >= s.term {
      Durability.AcceptKeeps(StepDown(s, m.term).(leader := m.src), m);
    }
  }

  /** A leader leaves its role only by moving to a later term. */
  lemma LeaderStays(g: System, ev: Event)
    requires Inv(g) && Enabled(g, ev) && !ev.Crash? && !ev.Restart? && !ev.Bounce?
    requires g.servers[Site(ev)].role == Leader
    ensures var s' := Handle(g.servers[Site(ev)], ev).server;
            s'.term > g.servers[Site(ev)].term || s'.role == Leader
  {
    hide Inv, HistOk, ServerOk, MessageOk, MaybeCommit, OnAppendEntries;
    var h, s := g.hist, g.servers[Site(ev)];
    ServerOf(g, Site(ev));
    ArmedFor(h, s);
    LeadsItsTerm(g, Site(ev));
    LeaderVoted(h, s);
    match ev
    case ClientPropose(_, value) =>
      ProposeStays(h, s, value);
    case Deliver(m, intervalOk) =>
      SentMessage(g, m);
      if m.AppendEntries? {
        LedByOther(h, s, m);
        EntriesTerm(s, m);
      } else if m.AppendEntriesReply? {
        ReplyStays(s, m);
      } else if m.RequestVoteReply? {
        VoteReplyStays(s, m);
      } else if m.RequestVote? {
        RequestStays(s, m, intervalOk);
      }
    case _ =>
  }

  lemma MaybeCommitRole(s: Server)
    ensures MaybeCommit(s).role == s.role && MaybeCommit(s).term == s.term
  {
    Durability.MaybeCommitRest(s);
  }

  lemma {:induction false} SendFromRole(s: Server, k: nat)
    ensures SendFrom(s, k).server.role == s.role
    decreases |s.peers| - k
  {
    if k < |s.peers| {
      SendFromRole(AgainHeartBeat(s, s.peers[k]), k + 1);
    }
  }

  lemma ProposeStays(h: History, s: Server, value: Bytes)
    requires s.role == Leader
    ensures Propose(s, value).server.role == Leader
  {
    hide MaybeCommit, SendFrom;
    var s1 := s.(log := s.log + [Entry(s.term, Data, value)]);
    MaybeCommitRole(s1);
    SendFromRole(MaybeCommit(s1), 0);
  }

  lemma ReplyStays(s: Server, m: Message)
    requires m.AppendEntriesReply? && s.role == Leader
    ensures var s' := OnAppendEntriesReply(s, m).server; s'.term > s.term || s'.role == Leader
  {
    hide NoteReply;
    NoteReplyRole(s, m);
  }

  lemma NoteReplyRole(s: Server, m: Message)
    requires m.AppendEntriesReply?
    ensures NoteReply(s, m).role == s.role
  {
    hide MaybeCommit;
    MaybeCommitRole(SetMatch(s, m.src, m.reqPreIndex + m.reqNumEntries));
  }

  lemma VoteReplyStays(s: Server, m: Message)
    requires m.RequestVoteReply? && s.role == Leader
    ensures var s' := OnRequestVoteReply(s, m).server; s'.term > s.term || s'.role == Leader
  {
    hide DoRequestVote, BecomeLeader;
  }

  lemma RequestStays(s: Server, m: Message, intervalOk: bool)
    requires m.RequestVote? && s.role == Leader && s.vote != NO_ADDR
    ensures var s' := OnRequestVote(s, m, intervalOk).server; s'.term > s.term || s'.role == Leader
  {
  }

  /** An election that a step adds to the history is one the server is leader by. */
  lemma NewLeaderLeads(h: History, s: Server, e: Effect)
    requires LedBy(Record(h, s, e), e.server.term, s.me) && e.server.me == s.me
    ensures LedBy(h, e.server.term, s.me) || e.server.role == Leader
  {
  }

  lemma NotYetLed(h: History, s: Server, term: nat)
    requires HistOk(h) && ServerOk(h, s) && term > s.term
    ensures !LedBy(h, term, s.me)
  {
    if term in h.elections {
      LeaderIsMember(h, term);
    }
  }

  lemma NeverLate(g: System, ev: Event)
    requires Inv(g) && Enabled(g, ev) && Steady(g.hist, g.servers[Site(ev)])
    ensures !LateReply(g, ev, Site(ev))
  {
    hide Inv, MessageOk;
    ServerOf(g, Site(ev));
    if LateReply(g, ev, Site(ev)) {
      SentMessage(g, ev.m);
      ReplyTerms(g.hist, ev.m);
    }
  }

  lemma SteadyStep(g: System, ev: Event)
    requires Inv(g) && Enabled(g, ev) && !ev.Crash? && !ev.Restart? && !ev.Bounce?
    requires Steady(g.hist, g.servers[Site(ev)])
    ensures Steady(Next(g, ev).hist, Handle(g.servers[Site(ev)], ev).server)
  {
    hide Inv, HistOk, ServerOk, Record, Handle, StepOk;
    var h, s, e := g.hist, g.servers[Site(ev)], Handle(g.servers[Site(ev)], ev);
    ServerOf(g, Site(ev));
    PlainAlive(g, ev);
    HandleOk(g, ev);
    StepParts(h, s, e);
    Durability.TermOnward(s, ev);
    NeverLate(g, ev);
    if LedBy(Record(h, s, e), e.server.term, s.me) {
      NewLeaderLeads(h, s, e);
      if LedBy(h, e.server.term, s.me) {
        if e.server.term > s.term {
          NotYetLed(h, s, e.server.term);
        } else {
          LeaderStays(g, ev);
        }
      }
    }
  }

  ghost predicate AllSteady(g: System) {
    forall a | a in g.servers :: Steady(g.hist, g.servers[a])
  }

  lemma OtherSteady(h1: History, h2: History, me: Addr, s: Server)
    requires GrowsBy(me, h1, h2) && s.me != me && Steady(h1, s)
    ensures Steady(h2, s)
  {
  }

  lemma AllSteadyStep(g: System, ev: Event)
    requires Inv(g) && AllSteady(g) && !ev.Crash? && !ev.Restart? && !ev.Bounce?
    ensures AllSteady(Next(g, ev))
  {
    hide Inv, HistOk, ServerOk, Record, Handle, StepOk, Steady;
    if Enabled(g, ev) {
      var s, e := g.servers[Site(ev)], Handle(g.servers[Site(ev)], ev);
      ServerOf(g, Site(ev));
      HandleOk(g, ev);
      StepParts(g.hist, s, e);
      SteadyStep(g, ev);
      forall a | a in Next(g, ev).servers
        ensures Steady(Next(g, ev).hist, Next(g, ev).servers[a])
      {
        if a != s.me {
          ServerOf(g, a);
          OtherSteady(g.hist, Next(g, ev).hist, s.me, g.servers[a]);
        }
      }
    }
  }

  lemma {:induction false} SteadyRun(g: System, run: seq<Event>)
    requires Inv(g) && AllSteady(g) && RestartFree(run)
    ensures Inv(Exec(g, run)) && AllSteady(Exec(g, run))
    decreases |run|
  {
    hide Inv, AllSteady, Extends, Next;
    RunOk(g, run);
    if run != [] {
      SteadyRun(g, run[..|run| - 1]);
      AllSteadyStep(Exec(g, run[..|run| - 1]), run[|run| - 1]);
    }
  }

  /** In a run without restarts no assertion ever fails, and a server leads its term exactly if it is the
      leader that term has had. */
  lemma NoAssertionFails(peersOf: map<Addr, seq<Addr>>, run: seq<Event>, a: Addr)
    requires SoundCluster(peersOf) && RestartFree(run) && a in peersOf
    ensures var g := After(peersOf, run);
            && a in g.servers && g.servers[a].alive
            && (g.servers[a].role == Leader <==> LedBy(g.hist, g.servers[a].term, a))
  {
    hide Inv, Configured;
    var g := After(peersOf, run);
    InitOk(peersOf);
    SteadyRun(Init(peersOf), run);
    assert Reachable(peersOf, g);
    ReachableOk(peersOf, g);
    ServerOf(g, a);
    LeadsItsTerm(g, a);
  }

  // ---------- timers

  /** In every reachable state the armed timers fit the role, so the role assertions at the head of the
      three timer callbacks hold whenever a timer fires. */
  lemma TimersFitRole(peersOf: map<Addr, seq<Addr>>, g: System, a: Addr)
    requires SoundCluster(peersOf) && Reachable(peersOf, g) && a in g.servers
    ensures var s := g.servers[a];
            && (s.timers.election <==> s.role != Leader)
            && (s.timers.heartbeats != {} ==> s.role == Leader)
            && (s.timers.requestVotes != {} ==> s.role == Candidate)
            && s.timers.heartbeats + s.timers.requestVotes <= PeerSet(s.peers)
  {
    hide HistOk, Reachable, Configured;
    ReachableOk(peersOf, g);
    ServerOf(g, a);
  }
}
