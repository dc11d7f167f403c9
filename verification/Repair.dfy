/** A leader brings any peer's log to its own, whatever the two logs and the leader's tables are. */
module Repairs {
  import opened RaftTypes
  import opened Quorum
  import opened RaftStep
  import opened Cluster
  import opened Invariant
  import opened Stability
  import opened Completeness
  import opened Safety
  import opened Theorems
  import opened Frames
  import opened EntryAnswers
  import Durability
  import Campaigns

  // ---------- what a leader has from the start

  /** A leader's log ends in its own term, and its heartbeats are armed for all peers. */
  ghost predicate Reigning(s: Server) {
    s.role == Leader ==>
      s.log != [] && s.log[|s.log| - 1].term == s.term && s.timers.heartbeats == PeerSet(s.peers)
  }

  lemma AgainReigns(s: Server, j: Addr)
    requires Reigning(s)
    ensures Reigning(AgainHeartBeat(s, j))
  {
    if j in s.peers {
      assert j in PeerSet(s.peers);
      assert s.role == Leader ==> s.timers.heartbeats + {j} == s.timers.heartbeats;
    }
  }

  lemma SendReigns(s: Server, j: Addr)
    requires Reigning(s)
    ensures Reigning(SendAppendEntries(s, j).server)
  {
    hide LastIndex, GetTerm;
  }

  lemma {:induction false} SendFromReigns(s: Server, k: nat)
    requires Reigning(s)
    ensures Reigning(SendFrom(s, k).server)
    decreases |s.peers| - k
  {
    hide Reigning, SendAppendEntries, AgainHeartBeat;
    if k < |s.peers| {
      SendReigns(s, s.peers[k]);
      AgainReigns(s, s.peers[k]);
      AgainPeers(s, s.peers[k]);
      SendFromReigns(AgainHeartBeat(s, s.peers[k]), k + 1);
    }
  }

  lemma AgainPeers(s: Server, j: Addr)
    ensures AgainHeartBeat(s, j).peers == s.peers
  {
  }

  lemma ProposeReigns(s: Server, value: Bytes)
    requires Reigning(s)
    ensures Reigning(Propose(s, value).server)
  {
    hide MaybeCommit, SendFrom;
    if s.role == Leader {
      var s1 := s.(log := s.log + [Entry(s.term, Data, value)]);
      Durability.MaybeCommitRest(s1);
      SendFromReigns(MaybeCommit(s1), 0);
    }
  }

  lemma ReplyReigns(s: Server, m: Message)
    requires m.AppendEntriesReply? && Reigning(s)
    ensures Reigning(OnAppendEntriesReply(s, m).server)
  {
    hide NoteReply, SendAppendEntries, AgainHeartBeat, LastIndex;
    NoteReplyReigns(s, m);
    SendReigns(NoteReply(s, m), m.src);
    AgainReigns(NoteReply(s, m), m.src);
  }

  lemma NoteReplyReigns(s: Server, m: Message)
    requires m.AppendEntriesReply? && Reigning(s)
    ensures Reigning(NoteReply(s, m))
  {
    hide MaybeCommit;
    Durability.MaybeCommitRest(SetMatch(s, m.src, m.reqPreIndex + m.reqNumEntries));
  }

  lemma VoteReplyReigns(s: Server, m: Message)
    requires m.RequestVoteReply? && Reigning(s)
    ensures Reigning(OnRequestVoteReply(s, m).server)
  {
    hide OnRealVote, OnPreVote;
    RealVoteReigns(s, m.src, m.granted);
    PreVoteReigns(s, m.src, m.logOk, m.intervalOk);
  }

  lemma RealVoteReigns(s: Server, j: Addr, granted: bool)
    requires Reigning(s)
    ensures Reigning(OnRealVote(s, j, granted))
  {
    hide Majority, Fill, LastIndex;
  }

  lemma PreVoteReigns(s: Server, j: Addr, logOk: bool, intervalOk: bool)
    requires Reigning(s)
    ensures Reigning(OnPreVote(s, j, logOk, intervalOk))
  {
    hide MajorityPreVoteOk, DoRequestVote;
    StandReigns(NotePreVote(s, j, logOk, intervalOk).(preVoting := false));
  }

  lemma StandReigns(s: Server)
    ensures Reigning(DoRequestVote(s))
  {
    hide QuorumAll, Fill, LastIndex;
  }

  lemma MessageReigns(s: Server, m: Message, intervalOk: bool)
    requires Reigning(s)
    ensures Reigning(OnMessage(s, m, intervalOk).server)
  {
    hide OnAppendEntries, OnAppendEntriesReply, OnRequestVoteReply, LogOk, LastIndex, LastTerm;
    match m
    case RequestVoteReply(_, _, _, _, _, _, _, _) => VoteReplyReigns(s, m);
    case AppendEntriesReply(_, _, _, _, _, _, _, _) => ReplyReigns(s, m);
    case AppendEntries(_, _, _, _, _, _, _) => EntriesRest(s, m);
    case _ =>
  }

  lemma OtherReigns(s: Server, ev: Event)
    requires ev.Timeout? || ev.VoteTimer? || ev.BeatTimer? || ev.ClientTransfer? || ev.Restart? || ev.Bounce?
    requires Reigning(s)
    ensures Reigning(Handle(s, ev).server)
  {
    hide LastIndex, LastTerm, GetTerm, Fill, DoRequestVote;
    StandReigns(s.(preVoting := false));
  }

  lemma HandleReigns(s: Server, ev: Event)
    requires !ev.Crash? && Reigning(s)
    ensures Reigning(Handle(s, ev).server)
  {
    hide Reigning, Propose, OnMessage, Elect, RequestVoteRpc, HeartBeat, LeaderTransfer, Reboot, StopStart;
    match ev
    case ClientPropose(_, value) => ProposeReigns(s, value);
    case Deliver(m, intervalOk) => MessageReigns(s, m, intervalOk);
    case _ => OtherReigns(s, ev);
  }

  ghost predicate AllReigning(g: System) {
    forall a | a in g.servers :: Reigning(g.servers[a])
  }

  lemma StepReigns(peersOf: map<Addr, seq<Addr>>, g: System, ev: Event)
    requires Named(peersOf, g) && AllReigning(g)
    ensures AllReigning(Next(g, ev))
  {
    hide Handle, Record, Reigning, CrashTo;
    if Enabled(g, ev) {
      var s := g.servers[Site(ev)];
      HandleReigns(s, Plain(ev));
      if ev.Crash? {
        CrashReigns(s, Handle(s, ev.during).server, ev.applied);
      }
    }
  }

  lemma CrashReigns(s: Server, s': Server, applied: nat)
    ensures Reigning(CrashTo(s, s', applied))
  {
  }

  lemma {:induction false} RunReigns(peersOf: map<Addr, seq<Addr>>, run: seq<Event>)
    ensures AllReigning(After(peersOf, run))
    decreases |run|
  {
    hide Next, Named;
    if run != [] {
      RunReigns(peersOf, run[..|run| - 1]);
      NamedRun(peersOf, run[..|run| - 1]);
      StepReigns(peersOf, After(peersOf, run[..|run| - 1]), run[|run| - 1]);
    }
  }

  lemma LeaderReigns(peersOf: map<Addr, seq<Addr>>, g: System, a: Addr)
    requires Reachable(peersOf, g) && a in g.servers
    ensures Reigning(g.servers[a]) && g.servers[a].me == a && g.servers.Keys == peersOf.Keys
    ensures a in peersOf && g.servers[a].peers == peersOf[a]
  {
    hide Exec, Init, Reigning;
    var run: seq<Event> :| g == After(peersOf, run);
    RunReigns(peersOf, run);
    NamedRun(peersOf, run);
  }

  // ---------- one exchange

  lemma GoesOnReachable(peersOf: map<Addr, seq<Addr>>, g: System, run: seq<Event>)
    requires Reachable(peersOf, g)
    ensures Reachable(peersOf, Exec(g, run))
  {
    hide Exec, Init;
    var before: seq<Event> :| g == After(peersOf, before);
    ExecSplit(Init(peersOf), before, run);
    assert Exec(g, run) == After(peersOf, before + run);
  }

  /** a leads and runs, and j runs and is in no later term. */
  ghost predicate Pair(g: System, a: Addr, j: Addr) {
    && a in g.servers && j in g.servers && a != j
    && g.servers[a].alive && g.servers[a].role == Leader
    && g.servers[j].alive && g.servers[j].term <= g.servers[a].term
    && RowFits(g.servers[a], j) && g.servers[a].indices[j].match_ <= |g.servers[a].log|
  }

  /** Only a and j have changed: a in nothing but what it knows and has committed. */
  ghost predicate Between(g: System, g': System, a: Addr, j: Addr) {
    && Pair(g', a, j) && g'.servers.Keys == g.servers.Keys && a in g.servers
    && (forall x | x in g.servers && x != a && x != j :: g'.servers[x] == g.servers[x])
    && g'.servers[a].log == g.servers[a].log && g'.servers[a].term == g.servers[a].term
    && OthersKept(g.servers[a], g'.servers[a], j)
  }

  /** The rows of other peers are the same, and the commit index has not gone back. */
  ghost predicate OthersKept(s: Server, s': Server, j: Addr) {
    && s'.indices.Keys == s.indices.Keys && s.commit <= s'.commit
    && forall x | x in s.indices && x != j :: s'.indices[x] == s.indices[x]
  }

  lemma IsPair(peersOf: map<Addr, seq<Addr>>, g: System, a: Addr, j: Addr)
    requires SoundCluster(peersOf) && Reachable(peersOf, g)
    requires a in g.servers && j in g.servers && a != j && g.servers[a].alive && g.servers[a].role == Leader
    requires g.servers[j].alive && g.servers[j].term <= g.servers[a].term
    ensures Pair(g, a, j) && j in g.servers[a].timers.heartbeats && g.servers[a].me == a
    ensures Has(g.servers[j].log, g.servers[a].log, g.servers[a].indices[j].match_)
  {
    hide Inv, HistOk, Reachable, SoundCluster, Has;
    LeaderTablesAreTrue(peersOf, g, a, j);
    LeaderReigns(peersOf, g, a);
    ReachableOk(peersOf, g);
    PeersOf(g, a, j);
    assert j in PeerSet(g.servers[a].peers);
  }

  /** The request fits, or it does not and the next index is above 1. */
  lemma FitsOrNot(s: Server, j: Addr, log: Log)
    requires RowFits(s, j)
    ensures var m := Due(s, j);
            && m.AppendEntries? && m.term == s.term && m.src == s.me && m.dest == j
            && m.preLogIndex == s.indices[j].next - 1
            && (!LogFits(log, m) ==> s.indices[j].next > 1)
            && |m.entries| == (if s.indices[j].next <= |s.log| then 1 else 0)
  {
  }

  /** What an exchange leaves in the row: the match index has grown, or the next index is behind it, or has gone
      back. */
  ghost predicate Progress(s: Server, s': Server, j: Addr)
    requires RowFits(s, j) && RowFits(s', j)
  {
    var row, row' := s.indices[j], s'.indices[j];
    && row.match_ <= row'.match_ <= |s.log|
    && (row'.match_ == row.match_ ==> row'.next == row.match_ + 1 || row'.next < row.next)
  }

  lemma FailureProgress(s: Server, m: Message, s': Server)
    requires m.AppendEntriesReply? && RowFits(s, m.src) && BacksUp(s, m, s') && s.indices[m.src].next > 1
    requires s.indices[m.src].match_ <= |s.log|
    ensures RowFits(s', m.src) && Progress(s, s', m.src) && s'.indices[m.src].match_ == s.indices[m.src].match_
    ensures s'.log == s.log && s'.term == s.term && s'.role == s.role && s'.alive == s.alive
  {
  }

  lemma SuccessProgress(s: Server, m: Message, s': Server)
    requires m.AppendEntriesReply? && RowFits(s, m.src) && MovesOn(s, m, s')
    requires m.reqPreIndex == s.indices[m.src].next - 1
    requires m.reqNumEntries == (if s.indices[m.src].next <= |s.log| then 1 else 0)
    requires s.indices[m.src].match_ <= |s.log|
    ensures RowFits(s', m.src) && Progress(s, s', m.src)
    ensures s.indices[m.src].next == s.indices[m.src].match_ + 1 <= |s.log| ==>
              s'.indices[m.src].match_ > s.indices[m.src].match_
    ensures s'.log == s.log && s'.term == s.term && s'.role == s.role && s'.alive == s.alive
  {
    hide CommitsBy, Moved;
  }

  /** A row whose next index is behind its match index always fits the peer's log. */
  lemma BehindMatchFits(s: Server, j: Addr, log: Log)
    requires RowFits(s, j) && s.indices[j].next == s.indices[j].match_ + 1
    requires Has(log, s.log, s.indices[j].match_)
    ensures Due(s, j).AppendEntries? && LogFits(log, Due(s, j))
  {
    var k := s.indices[j].match_;
    if k > 0 {
      assert log[..k][k - 1] == s.log[..k][k - 1];
    }
  }

  /** A beat, the answer, and what the leader makes of it: a and j have changed by these, and nobody else has. */
  ghost predicate Exchanged(g: System, g': System, a: Addr, j: Addr)
    requires Pair(g, a, j) && Pair(g', a, j)
  {
    var s, t, s', t' := g.servers[a], g.servers[j], g'.servers[a], g'.servers[j];
    var req := Due(s, j);
    && g'.servers == g.servers[a := s'][j := t']
    && req.AppendEntries? && j in s.indices && req.dest == j && req.src == a
    && if LogFits(t.log, req) then
         EntriesTaken(t, req, t') && MovesOn(s, ReplyTo(req, s.term, true, |t'.log|), s')
       else
         t' == FollowerOf(t, req) && BacksUp(s, ReplyTo(req, s.term, false, |t.log|), s')
  }

  lemma Exchange(peersOf: map<Addr, seq<Addr>>, g: System, a: Addr, j: Addr) returns (run: seq<Event>)
    requires SoundCluster(peersOf) && Reachable(peersOf, g) && Pair(g, a, j)
    ensures var g' := Exec(g, run);
            Reachable(peersOf, g') && Between(g, g', a, j) && Exchanged(g, g', a, j)
  {
    hide Reachable, SoundCluster, Next, Due, LogFits, EntriesTaken, BacksUp, MovesOn, GoesOn, FollowerOf, Has, RowFits;
    IsPair(peersOf, g, a, j);
    var s, t := g.servers[a], g.servers[j];
    FitsOrNot(s, j, t.log);
    var req := Due(s, j);
    var e1, e2 := BeatTimer(a, j), Deliver(req, true);
    BeatAnswered(peersOf, g, a, j);
    var g1 := Next(g, e1);
    OneEvent(g, e1);
    GoesOnReachable(peersOf, g, [e1]);
    EntriesAnswered(peersOf, g1, req, true);
    var g2 := Next(g1, e2);
    OneEvent(g1, e2);
    GoesOnReachable(peersOf, g1, [e2]);
    var fits := LogFits(t.log, req);
    var r := ReplyTo(req, req.term, fits, if fits then |g2.servers[j].log| else |t.log|);
    FollowerRuns(t, req, g2.servers[j], fits);
    ReplyAnswered(peersOf, g2, r, true);
    var e3 := Deliver(r, true);
    var g3 := Next(g2, e3);
    OneEvent(g2, e3);
    GoesOnReachable(peersOf, g2, [e3]);
    if fits {
      LeadsOnMoved(s, r, g3.servers[a]);
    } else {
      LeadsOnBacked(s, r, g3.servers[a]);
    }
    Campaigns.ThreeSteps(g, e1, e2, e3);
    run := [e1, e2, e3];
    IsPair(peersOf, g3, a, j);
  }

  lemma LeadsOnMoved(s: Server, m: Message, s': Server)
    requires m.AppendEntriesReply? && m.src in s.indices && MovesOn(s, m, s')
    ensures s'.log == s.log && s'.term == s.term && s'.role == s.role && s'.alive == s.alive
    ensures OthersKept(s, s', m.src)
  {
    hide IsMajorityMax;
  }

  lemma LeadsOnBacked(s: Server, m: Message, s': Server)
    requires m.AppendEntriesReply? && m.src in s.indices && BacksUp(s, m, s')
    ensures s'.log == s.log && s'.term == s.term && s'.role == s.role && s'.alive == s.alive
    ensures OthersKept(s, s', m.src)
  {
  }

  /** An exchange moves the pair on. */
  lemma ExchangeProgress(g: System, g': System, a: Addr, j: Addr)
    requires Pair(g, a, j) && Pair(g', a, j) && Exchanged(g, g', a, j)
    requires Has(g.servers[j].log, g.servers[a].log, g.servers[a].indices[j].match_)
    ensures Progress(g.servers[a], g'.servers[a], j)
    ensures g.servers[a].indices[j].next == g.servers[a].indices[j].match_ + 1 <= |g.servers[a].log| ==>
              g'.servers[a].indices[j].match_ > g.servers[a].indices[j].match_
  {
    hide Due, LogFits, EntriesTaken, BacksUp, MovesOn, FollowerOf, Has, RowFits, Progress;
    var s, t, s', t' := g.servers[a], g.servers[j], g'.servers[a], g'.servers[j];
    FitsOrNot(s, j, t.log);
    var req := Due(s, j);
    if LogFits(t.log, req) {
      SuccessProgress(s, ReplyTo(req, s.term, true, |t'.log|), s');
    } else {
      FailureProgress(s, ReplyTo(req, s.term, false, |t.log|), s');
    }
    if s.indices[j].next == s.indices[j].match_ + 1 {
      BehindMatchFits(s, j, t.log);
    }
  }

  lemma OneEvent(g: System, e: Event)
    ensures Exec(g, [e]) == Next(g, e)
  {
    hide Next;
    assert [e][..0] == [];
  }

  lemma FollowerRuns(t: Server, m: Message, t': Server, fits: bool)
    requires m.AppendEntries? && t.alive && (if fits then EntriesTaken(t, m, t') else t' == FollowerOf(t, m))
    ensures t'.alive && t'.term == m.term
  {
    hide Taken, Moved;
  }

  // ---------- to the end

  /** With the leader's whole log in front, a peer in no later term has nothing behind it. */
  lemma NothingBehind(peersOf: map<Addr, seq<Addr>>, g: System, a: Addr, j: Addr)
    requires SoundCluster(peersOf) && Reachable(peersOf, g) && Pair(g, a, j)
    requires Has(g.servers[j].log, g.servers[a].log, |g.servers[a].log|)
    ensures g.servers[j].log == g.servers[a].log
  {
    hide Inv, HistOk, ServerOk, Reachable, SoundCluster;
    ReachableOk(peersOf, g);
    LeadsItsTerm(g, a);
    LeaderReigns(peersOf, g, a);
    LogFacts(g, j);
    var l, log, term := g.servers[a].log, g.servers[j].log, g.servers[a].term;
    OneMoreLed(g.hist, log, l, term);
    assert log[..|l|] == l[..|l|];
  }

  lemma LogFacts(g: System, j: Addr)
    requires Inv(g) && j in g.servers
    ensures HistOk(g.hist) && Good(g.hist, g.servers[j].log) && TermsAtMost(g.servers[j].log, g.servers[j].term)
  {
  }

  /** What follows an entry of the term, in a log without later ones, the leader of the term put there. */
  lemma OneMoreLed(h: History, log: Log, l: Log, term: nat)
    requires HistOk(h) && Good(h, log) && TermsAtMost(log, term)
    requires l != [] && l[|l| - 1].term == term && Has(log, l, |l|)
    ensures |log| > |l| ==> |LeaderLog(h, term)| > |l|
  {
    hide HistOk;
    if |log| > |l| {
      HasAt(log, l, |l|, |l| - 1);
      TermsSorted(h, log, |l| - 1, |l|);
      assert log[|l|].term == term;
    }
  }

  /** The leader knows that j has its whole log. */
  ghost predicate Caught(g: System, a: Addr, j: Addr) {
    && a in g.servers && j in g.servers && j in g.servers[a].indices
    && g.servers[j].log == g.servers[a].log
    && g.servers[a].indices[j] == IndexItem(|g.servers[a].log| + 1, |g.servers[a].log|)
  }

  /** From any reachable state in which a leader and a peer of no later term both run, heartbeats and their answers
      alone bring the peer's log to the leader's. */
  lemma {:induction false} PeerIsRepaired(peersOf: map<Addr, seq<Addr>>, g: System, a: Addr, j: Addr)
      returns (run: seq<Event>)
    requires SoundCluster(peersOf) && Reachable(peersOf, g)
    requires a in g.servers && j in g.servers && a != j && g.servers[a].alive && g.servers[a].role == Leader
    requires g.servers[j].alive && g.servers[j].term <= g.servers[a].term
    ensures var g' := Exec(g, run); Reachable(peersOf, g') && Between(g, g', a, j) && Caught(g', a, j)
    decreases |g.servers[a].log| - MatchOf(g.servers[a], j),
              if NextOf(g.servers[a], j) == MatchOf(g.servers[a], j) + 1 then 0 else NextOf(g.servers[a], j)
  {
    hide Reachable, SoundCluster, Exec, Has, Exchanged, OthersKept;
    IsPair(peersOf, g, a, j);
    var row, last := g.servers[a].indices[j], |g.servers[a].log|;
    if row == IndexItem(last + 1, last) {
      NothingBehind(peersOf, g, a, j);
      run := [];
      Campaigns.StartsEmpty(g);
      NothingChanged(g.servers[a], j);
    } else {
      var first := Exchange(peersOf, g, a, j);
      var g1 := Exec(g, first);
      ExchangeProgress(g, g1, a, j);
      var rest := PeerIsRepaired(peersOf, g1, a, j);
      ExecSplit(g, first, rest);
      run := first + rest;
      BothKept(g.servers[a], g1.servers[a], Exec(g, run).servers[a], j);
    }
  }

  lemma NothingChanged(s: Server, j: Addr)
    ensures OthersKept(s, s, j)
  {
  }

  lemma BothKept(s: Server, s1: Server, s2: Server, j: Addr)
    requires OthersKept(s, s1, j) && OthersKept(s1, s2, j)
    ensures OthersKept(s, s2, j)
  {
  }

  // ---------- a majority

  ghost predicate Leading(g: System, a: Addr) {
    a in g.servers && g.servers[a].alive && g.servers[a].role == Leader
  }

  /** j can be repaired by a. */
  ghost predicate WithinReach(g: System, a: Addr, j: Addr) {
    a in g.servers && j in g.servers && j != a && g.servers[j].alive && g.servers[j].term <= g.servers[a].term
  }

  /** a goes on leading with the same log and term, with no less committed, and nobody outside q + {a} changes. */
  ghost predicate GoesOnLeading(g: System, g': System, a: Addr, q: set<Addr>) {
    && Leading(g, a) && Leading(g', a) && g'.servers.Keys == g.servers.Keys
    && g'.servers[a].log == g.servers[a].log && g'.servers[a].term == g.servers[a].term
    && g.servers[a].commit <= g'.servers[a].commit
    && forall x | x in g.servers && x != a && x !in q :: g'.servers[x] == g.servers[x]
  }

  ghost predicate AllWithinReach(g: System, a: Addr, q: set<Addr>) {
    forall j | j in q :: WithinReach(g, a, j)
  }

  ghost predicate AllCaught(g: System, a: Addr, q: set<Addr>) {
    forall j | j in q :: Caught(g, a, j)
  }

  lemma BetweenGoesOn(g: System, g': System, a: Addr, j: Addr, ready: set<Addr>, caught: set<Addr>)
    requires Leading(g, a) && Between(g, g', a, j) && AllWithinReach(g, a, ready) && AllCaught(g, a, caught)
    requires j !in caught && a !in caught
    ensures GoesOnLeading(g, g', a, {j}) && AllWithinReach(g', a, ready + {j}) && AllCaught(g', a, caught)
  {
  }

  lemma LeadingOn(g: System, g1: System, g2: System, a: Addr, q1: set<Addr>, q2: set<Addr>)
    requires GoesOnLeading(g, g1, a, q1) && GoesOnLeading(g1, g2, a, q2)
    ensures GoesOnLeading(g, g2, a, q1 + q2)
  {
  }

  lemma SameLeading(g: System, a: Addr)
    requires Leading(g, a)
    ensures GoesOnLeading(g, g, a, {})
  {
  }

  lemma OneWithinReach(g: System, a: Addr, q: set<Addr>, j: Addr)
    requires AllWithinReach(g, a, q) && j in q && Leading(g, a)
    ensures a in g.servers && j in g.servers && j != a && g.servers[j].alive
    ensures g.servers[j].term <= g.servers[a].term
    ensures g.servers[a].alive && g.servers[a].role == Leader && AllWithinReach(g, a, q - {j})
  {
  }

  lemma OneMoreCaught(g: System, a: Addr, q: set<Addr>, j: Addr)
    requires AllCaught(g, a, q) && Caught(g, a, j)
    ensures AllCaught(g, a, q + {j})
  {
  }

  /** One peer after the other. */
  lemma {:induction false} RepairAll(peersOf: map<Addr, seq<Addr>>, g: System, a: Addr,
                                     done: set<Addr>, q: set<Addr>) returns (run: seq<Event>)
    requires SoundCluster(peersOf) && Reachable(peersOf, g) && Leading(g, a) && a !in done && done !! q
    requires AllWithinReach(g, a, done + q) && AllCaught(g, a, done)
    ensures var g' := Exec(g, run);
            && Reachable(peersOf, g') && GoesOnLeading(g, g', a, q)
            && AllWithinReach(g', a, done + q) && AllCaught(g', a, done + q)
    decreases |q|
  {
    hide Reachable, SoundCluster, Exec, Caught, AllWithinReach, AllCaught, Between, GoesOnLeading, Leading;
    if q == {} {
      run := [];
      Campaigns.StartsEmpty(g);
      SameLeading(g, a);
      assert done + q == done;
    } else {
      var j :| j in q;
      OneWithinReach(g, a, done + q, j);
      var first := PeerIsRepaired(peersOf, g, a, j);
      var g1 := Exec(g, first);
      BetweenGoesOn(g, g1, a, j, done + q, done);
      OneMoreCaught(g1, a, done, j);
      LeadsNow(g, g1, a, {j});
      assert |q - {j}| == |q| - 1;
      assert done + q + {j} == done + q == done + {j} + (q - {j}) && q == {j} + (q - {j});
      var rest := RepairAll(peersOf, g1, a, done + {j}, q - {j});
      ExecSplit(g, first, rest);
      run := first + rest;
      LeadingOn(g, g1, Exec(g, run), a, {j}, q - {j});
    }
  }

  lemma LeadsNow(g: System, g': System, a: Addr, q: set<Addr>)
    requires GoesOnLeading(g, g', a, q)
    ensures a in g.servers && a in g'.servers && Leading(g', a) && g'.servers[a].log == g.servers[a].log
    ensures g.servers[a].commit <= g'.servers[a].commit
  {
  }

  /** Strictly more than half of the members, the leader included. */
  ghost predicate MoreThanHalf(s: Server, q: set<Addr>) {
    q <= s.indices.Keys && 2 * (|q| + 1) > |s.indices| + 1
  }

  lemma AllCommits(s: Server, s': Server, q: set<Addr>)
    requires s.log != [] && s.log[|s.log| - 1].term == s.term && MoreThanHalf(s, q)
    requires forall j | j in q :: s.indices[j].match_ == |s.log|
    requires CommitsBy(s, s.indices, s') && s'.log == s.log && s.commit <= s'.commit
    ensures s'.commit == |s.log|
  {
    var k: nat :| CommitsAt(s, s.indices, s', k);
    var r := Reached(s.indices, |s.log|);
    assert q <= r;
    SubsetSize(q, r);
    assert StrictMajority(s.indices, |s.log|, |s.log|);
    assert k == |s.log|;
  }

  /** An exchange with a peer that has everything lets the leader commit, and the peer commit what the leader had
      committed. */
  lemma CaughtExchange(g: System, g': System, a: Addr, j: Addr)
    requires Pair(g, a, j) && Pair(g', a, j) && Exchanged(g, g', a, j) && Caught(g, a, j)
    ensures Caught(g', a, j)
    ensures CommitsBy(g.servers[a], g.servers[a].indices, g'.servers[a])
    ensures g.servers[a].commit == |g.servers[a].log| ==> g'.servers[j].commit == |g.servers[a].log|
  {
    hide CommitsBy;
    var s, t, s', t' := g.servers[a], g.servers[j], g'.servers[a], g'.servers[j];
    var row := s.indices[j];
    BehindMatchFits(s, j, t.log);
    assert s.indices[j := IndexItem(row.next, |s.log|)] == s.indices;
  }

  /** The leader commits by one more exchange, when a majority has everything. */
  lemma CommitsOnce(peersOf: map<Addr, seq<Addr>>, g: System, a: Addr, q: set<Addr>) returns (run: seq<Event>)
    requires SoundCluster(peersOf) && Reachable(peersOf, g) && Leading(g, a) && a !in q && q != {}
    requires AllWithinReach(g, a, q) && AllCaught(g, a, q) && MoreThanHalf(g.servers[a], q)
    ensures var g' := Exec(g, run);
            && Reachable(peersOf, g') && GoesOnLeading(g, g', a, q)
            && AllWithinReach(g', a, q) && AllCaught(g', a, q)
            && g'.servers[a].commit == |g'.servers[a].log|
  {
    hide Reachable, SoundCluster, Exec, Exchanged, GoesOnLeading, CommitsBy, Has;
    var j :| j in q;
    IsPair(peersOf, g, a, j);
    run := Exchange(peersOf, g, a, j);
    var g1 := Exec(g, run);
    CaughtExchange(g, g1, a, j);
    BetweenGoesOn(g, g1, a, j, q, q - {j});
    OneMoreCaught(g1, a, q - {j}, j);
    assert q - {j} + {j} == q && q + {j} == q;
    MoreMayChange(g, g1, a, {j}, q);
    LeaderReigns(peersOf, g, a);
    AllCommits(g.servers[a], g1.servers[a], q);
  }

  lemma MoreMayChange(g: System, g': System, a: Addr, q: set<Addr>, r: set<Addr>)
    requires GoesOnLeading(g, g', a, q) && q <= r
    ensures GoesOnLeading(g, g', a, r)
  {
  }

  /** The peers of q know that all of the log is committed. */
  ghost predicate AllCommitted(g: System, a: Addr, q: set<Addr>) {
    a in g.servers && forall j | j in q :: j in g.servers && g.servers[j].commit == |g.servers[a].log|
  }

  lemma CommitBound(peersOf: map<Addr, seq<Addr>>, g: System, a: Addr)
    requires SoundCluster(peersOf) && Reachable(peersOf, g) && a in g.servers
    ensures g.servers[a].commit <= |g.servers[a].log|
  {
    hide Reachable, SoundCluster, Inv, HistOk;
    ReachableOk(peersOf, g);
    Certificates(g, a);
  }

  lemma StillCommitted(g: System, g': System, a: Addr, j: Addr, told: set<Addr>)
    requires GoesOnLeading(g, g', a, {j}) && AllCommitted(g, a, told) && a !in told
    requires j in g'.servers && g'.servers[j].commit == |g.servers[a].log|
    ensures AllCommitted(g', a, told + {j})
  {
  }

  lemma TellOne(peersOf: map<Addr, seq<Addr>>, g: System, a: Addr, q: set<Addr>, told: set<Addr>, j: Addr)
      returns (run: seq<Event>)
    requires SoundCluster(peersOf) && Reachable(peersOf, g) && Leading(g, a) && a !in q && j in q && told <= q
    requires AllWithinReach(g, a, q) && AllCaught(g, a, q) && AllCommitted(g, a, told)
    requires g.servers[a].commit == |g.servers[a].log|
    ensures var g' := Exec(g, run);
            && Reachable(peersOf, g') && GoesOnLeading(g, g', a, q) && AllWithinReach(g', a, q) && AllCaught(g', a, q)
            && AllCommitted(g', a, told + {j}) && a in g'.servers && g'.servers[a].commit == |g'.servers[a].log|
  {
    hide Reachable, SoundCluster, Exec, Exchanged, GoesOnLeading, CommitsBy, Has, AllCommitted;
    IsPair(peersOf, g, a, j);
    run := Exchange(peersOf, g, a, j);
    var g1 := Exec(g, run);
    CaughtExchange(g, g1, a, j);
    BetweenGoesOn(g, g1, a, j, q, q - {j});
    OneMoreCaught(g1, a, q - {j}, j);
    assert q - {j} + {j} == q && q + {j} == q;
    CommitBound(peersOf, g1, a);
    LeadsNow(g, g1, a, {j});
    StillCommitted(g, g1, a, j, told);
    MoreMayChange(g, g1, a, {j}, q);
  }

  /** The leader tells the others, one after the other. */
  lemma {:induction false} TellAll(peersOf: map<Addr, seq<Addr>>, g: System, a: Addr, q: set<Addr>,
                                   told: set<Addr>, rest: set<Addr>) returns (run: seq<Event>)
    requires SoundCluster(peersOf) && Reachable(peersOf, g) && Leading(g, a) && a !in q && q == told + rest
    requires AllWithinReach(g, a, q) && AllCaught(g, a, q) && told !! rest && AllCommitted(g, a, told)
    requires g.servers[a].commit == |g.servers[a].log|
    ensures var g' := Exec(g, run);
            && Reachable(peersOf, g') && GoesOnLeading(g, g', a, q) && AllCaught(g', a, q)
            && AllCommitted(g', a, q) && g'.servers[a].commit == |g'.servers[a].log|
    decreases |rest|
  {
    hide Reachable, SoundCluster, Exec, GoesOnLeading, AllCommitted, AllCaught, AllWithinReach, Leading;
    if rest == {} {
      run := [];
      Campaigns.StartsEmpty(g);
      SameLeading(g, a);
      MoreMayChange(g, g, a, {}, q);
      assert told == q;
    } else {
      var j :| j in rest;
      var first := TellOne(peersOf, g, a, q, told, j);
      var g1 := Exec(g, first);
      LeadsNow(g, g1, a, q);
      assert |rest - {j}| == |rest| - 1;
      var more := TellAll(peersOf, g1, a, q, told + {j}, rest - {j});
      ExecSplit(g, first, more);
      run := first + more;
      LeadingOn(g, g1, Exec(g, run), a, q, q);
      assert q + q == q;
    }
  }

  /** From any reachable state in which a leader and peers of no later term run that are a majority with it,
      heartbeats and their answers alone commit its whole log: at the leader, and at all of these peers, whose logs
      are the leader's then. */
  lemma LeaderCommitsAll(peersOf: map<Addr, seq<Addr>>, g: System, a: Addr, q: set<Addr>) returns (run: seq<Event>)
    requires SoundCluster(peersOf) && Reachable(peersOf, g) && Leading(g, a) && q != {} && AllWithinReach(g, a, q)
    requires 2 * (|q| + 1) > |peersOf|
    ensures var g' := Exec(g, run);
            && Reachable(peersOf, g') && GoesOnLeading(g, g', a, q)
            && g'.servers[a].commit == |g.servers[a].log|
            && forall j | j in q ::
                 j in g'.servers && g'.servers[j].log == g.servers[a].log && g'.servers[j].commit == |g.servers[a].log|
  {
    hide Reachable, SoundCluster, Exec, GoesOnLeading, MoreThanHalf, WithinReach;
    NotItself(g, a, q);
    assert {} + q == q;
    var first := RepairAll(peersOf, g, a, {}, q);
    var g1 := Exec(g, first);
    LeadsNow(g, g1, a, q);
    IsMajority(peersOf, g1, a, q);
    var second := CommitsOnce(peersOf, g1, a, q);
    var g2 := Exec(g1, second);
    LeadsNow(g1, g2, a, q);
    var third := TellAll(peersOf, g2, a, q, {}, q);
    LeadsNow(g2, Exec(g2, third), a, q);
    ExecSplit(g, first, second);
    ExecSplit(g, first + second, third);
    run := first + second + third;
    LeadingOn(g, g1, g2, a, q, q);
    assert q + q == q;
    LeadingOn(g, g2, Exec(g, run), a, q, q);
  }

  lemma NotItself(g: System, a: Addr, q: set<Addr>)
    requires AllWithinReach(g, a, q)
    ensures a !in q
  {
  }

  lemma IsMajority(peersOf: map<Addr, seq<Addr>>, g: System, a: Addr, q: set<Addr>)
    requires SoundCluster(peersOf) && Reachable(peersOf, g) && a in g.servers && a !in q
    requires forall j | j in q :: Caught(g, a, j)
    requires 2 * (|q| + 1) > |peersOf|
    ensures MoreThanHalf(g.servers[a], q)
  {
    hide Reachable, HistOk, Inv, Configured;
    ReachableOk(peersOf, g);
    LeaderReigns(peersOf, g, a);
    InvParts(g, a);
    Campaigns.PeersAre(peersOf, a);
    assert |peersOf.Keys| == |peersOf|;
    assert |g.servers[a].indices| == |g.servers[a].indices.Keys|;
  }
}
