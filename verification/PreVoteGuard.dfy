/** Pre-voting guards the term: with pre-vote on, no term of the cluster is exceeded before enough members
    have said that they would vote. Holds for clusters of any size from two on. */
module PreVoteGuard {
  import opened RaftTypes
  import opened Quorum
  import opened RaftStep
  import opened Cluster
  import opened Invariant
  import opened Safety
  import opened Theorems
  import opened Frames
  import Durability
  import VoteReplies

  /** The event runs with pre-vote on. */
  predicate PreVoteOn(ev: Event)
    decreases ev
  {
    match ev
    case Timeout(_, preVote) => preVote
    case Crash(during, _) => PreVoteOn(during)
    case _ => true
  }

  // ---------- one handler

  ghost predicate Fit(s: Server) {
    && |s.peers| > 0
    && s.votes.Keys == PeerSet(s.peers)
    && s.timers.requestVotes <= PeerSet(s.peers)
    && s.timers.heartbeats <= PeerSet(s.peers)
  }

  /** The event is a message of the server's network, or a timer of its own. */
  ghost predicate Addressed(s: Server, ev: Event) {
    match ev
    case VoteTimer(_, peer) => peer in s.timers.requestVotes
    case BeatTimer(_, peer) => peer in s.timers.heartbeats
    case ClientTransfer(_, target) => target in PeerSet(s.peers)
    case Deliver(m, _) => m.dest == s.me && m.src in PeerSet(s.peers)
    case _ => true
  }

  /** ev is the receipt of a pre-vote reply of s's own term. */
  ghost predicate PreVoteAnswer(s: Server, ev: Event) {
    && ev.Deliver? && ev.m.RequestVoteReply? && ev.m.preVote
    && ev.m.term == s.term && ev.m.reqTerm == s.term
  }

  /** The vote table with the flags of a pre-vote reply noted. */
  ghost function Noted(votes: map<Addr, VoteItem>, m: Message): map<Addr, VoteItem>
    requires m.RequestVoteReply? && m.src in votes
  {
    var v := votes[m.src];
    votes[m.src := v.(logok := v.logok || m.logOk, intervalOk := v.intervalOk || m.intervalOk)]
  }

  /** The answer that makes s a real candidate. */
  ghost predicate PreVoteWon(s: Server, ev: Event) {
    && PreVoteAnswer(s, ev) && ev.m.src in s.votes
    && s.role == Candidate && s.preVoting
    && MajorityPreVoteOk(Noted(s.votes, ev.m), true)
  }

  /** A candidate's flags were there before, in the same candidacy, or come from the reply just received. */
  ghost predicate FlagsFrom(s: Server, ev: Event, s': Server) {
    s'.role == Candidate ==> forall j | j in s'.votes ::
      && (s'.votes[j].logok ==>
            || (s.role == Candidate && s'.term == s.term && j in s.votes && s.votes[j].logok)
            || (s'.term == s.term && PreVoteAnswer(s, ev) && ev.m.src == j && ev.m.logOk))
      && (s'.votes[j].intervalOk ==>
            || (s.role == Candidate && s'.term == s.term && j in s.votes && s.votes[j].intervalOk)
            || (s'.term == s.term && PreVoteAnswer(s, ev) && ev.m.src == j && ev.m.intervalOk))
  }

  ghost predicate Guarded(s: Server, ev: Event, e: Effect) {
    && SameName(s, e.server) && Fit(e.server)
    && (forall m | m in e.sent :: m.src == s.me && m.dest in PeerSet(s.peers) && m.term <= e.server.term)
    && s.term <= e.server.term
    && (e.server.term > s.term ==>
          || (ev.Deliver? && ev.m.term >= e.server.term)
          || (PreVoteWon(s, ev) && e.server.term == s.term + 1))
    && FlagsFrom(s, ev, e.server)
  }

  lemma ElectGuarded(s: Server, ev: Event)
    requires Fit(s) && ev.Timeout? && ev.preVote
    ensures Guarded(s, ev, Elect(s, true))
  {
  }

  lemma {:induction false} SendFromQuiet(s: Server, k: nat)
    requires Fit(s)
    ensures var e := SendFrom(s, k);
            && SameName(s, e.server) && Fit(e.server)
            && e.server.votes == s.votes && e.server.term == s.term && e.server.role == s.role
            && forall m | m in e.sent :: m.src == s.me && m.dest in PeerSet(s.peers) && m.term == s.term
    decreases |s.peers| - k
  {
    if k < |s.peers| {
      SendFromQuiet(AgainHeartBeat(s, s.peers[k]), k + 1);
    }
  }

  lemma ProposeGuarded(s: Server, ev: Event, value: Bytes)
    requires Fit(s) && ev.ClientPropose?
    ensures Guarded(s, ev, Propose(s, value))
  {
    hide MaybeCommit, SendFrom;
    if s.role == Leader {
      var s1 := s.(log := s.log + [Entry(s.term, Data, value)]);
      Durability.MaybeCommitRest(s1);
      SendFromQuiet(MaybeCommit(s1), 0);
    }
  }

  lemma RequestGuarded(s: Server, ev: Event)
    requires Fit(s) && ev.Deliver? && ev.m.RequestVote? && Addressed(s, ev)
    ensures Guarded(s, ev, OnRequestVote(s, ev.m, ev.intervalOk))
  {
    hide LogOk;
  }

  lemma EntriesGuarded(s: Server, ev: Event)
    requires Fit(s) && ev.Deliver? && ev.m.AppendEntries? && Addressed(s, ev)
    ensures Guarded(s, ev, OnAppendEntries(s, ev.m))
  {
    hide AcceptEntries, PreMatches;
    if ev.m.term >= s.term {
      var s2 := StepDown(s, ev.m.term).(leader := ev.m.src);
      AcceptRest(s2, ev.m);
      AcceptSent(s2, ev.m);
    }
  }

  lemma AcceptSent(s: Server, m: Message)
    requires m.AppendEntries?
    ensures forall r | r in AcceptEntries(s, m).sent :: r.src == m.dest && r.dest == m.src && r.term == s.term
  {
    hide Reconcile, EntriesAsserted, StateMachineApply;
    Durability.ApplyKeeps(s.(log := Reconcile(s.log, m.preLogIndex, m.entries), commit := m.commitIndex));
  }

  lemma NoteReplyQuiet(s: Server, m: Message)
    requires m.AppendEntriesReply?
    ensures var s' := NoteReply(s, m);
            && SameName(s, s') && s'.votes == s.votes && s'.term == s.term && s'.role == s.role
            && s'.timers == s.timers
  {
    hide MaybeCommit;
    Durability.MaybeCommitRest(SetMatch(s, m.src, m.reqPreIndex + m.reqNumEntries));
  }

  lemma ReplyGuarded(s: Server, ev: Event)
    requires Fit(s) && ev.Deliver? && ev.m.AppendEntriesReply? && Addressed(s, ev)
    ensures Guarded(s, ev, OnAppendEntriesReply(s, ev.m))
  {
    hide NoteReply, LastIndex, GetTerm;
    NoteReplyQuiet(s, ev.m);
  }

  lemma RealVoteGuarded(s: Server, ev: Event)
    requires Fit(s) && ev.Deliver? && ev.m.RequestVoteReply? && Addressed(s, ev)
    ensures Guarded(s, ev, Effect(OnRealVote(s, ev.m.src, ev.m.granted), []))
  {
    hide Majority;
  }

  /** What a pre-vote reply does, with its flags noted in one go. */
  lemma OnPreVoteIs(s: Server, m: Message)
    requires m.RequestVoteReply? && m.src in s.votes
    ensures var s' := StopRequestVote(s, m.src).(votes := Noted(s.votes, m));
            OnPreVote(s, m.src, m.logOk, m.intervalOk) ==
              if m.logOk && MajorityPreVoteOk(s'.votes, true) && s.role == Candidate && s.preVoting then
                DoRequestVote(s'.(preVoting := false))
              else s'
  {
    hide MajorityPreVoteOk, DoRequestVote;
    var s1 := StopRequestVote(s, m.src);
    var s2 := if m.logOk then s1.(votes := s1.votes[m.src := VoteRow(s1, m.src).(logok := true)]) else s1;
    var s3 := if m.intervalOk then s2.(votes := s2.votes[m.src := VoteRow(s2, m.src).(intervalOk := true)]) else s2;
    assert s3.votes == Noted(s.votes, m);
  }

  lemma CampaignGuarded(s: Server, ev: Event, s': Server)
    requires Fit(s) && PreVoteWon(s, ev) && Fit(s') && SameName(s, s') && s'.term == s.term
    ensures Guarded(s, ev, Effect(DoRequestVote(s'), []))
  {
    hide MajorityPreVoteOk;
  }

  lemma PreVoteGuarded(s: Server, ev: Event)
    requires Fit(s) && PreVoteAnswer(s, ev) && Addressed(s, ev)
    ensures Guarded(s, ev, Effect(OnPreVote(s, ev.m.src, ev.m.logOk, ev.m.intervalOk), []))
  {
    hide MajorityPreVoteOk, DoRequestVote, OnPreVote;
    var m := ev.m;
    OnPreVoteIs(s, m);
    var s' := StopRequestVote(s, m.src).(votes := Noted(s.votes, m));
    if m.logOk && MajorityPreVoteOk(s'.votes, true) && s.role == Candidate && s.preVoting {
      CampaignGuarded(s, ev, s'.(preVoting := false));
    } else {
      assert Guarded(s, ev, Effect(s', []));
    }
  }

  lemma VoteReplyGuarded(s: Server, ev: Event)
    requires Fit(s) && ev.Deliver? && ev.m.RequestVoteReply? && Addressed(s, ev)
    ensures Guarded(s, ev, OnRequestVoteReply(s, ev.m))
  {
    var m := ev.m;
    if m.term == s.term && m.reqTerm == s.term {
      hide OnRealVote, OnPreVote, Guarded;
      if m.preVote {
        PreVoteGuarded(s, ev);
      } else {
        RealVoteGuarded(s, ev);
      }
    }
  }

  lemma HandleGuarded(s: Server, ev: Event)
    requires Fit(s) && Addressed(s, ev) && PreVoteOn(ev) && !ev.Crash?
    ensures Guarded(s, ev, Handle(s, ev))
  {
    hide Guarded, Propose, OnAppendEntries, OnAppendEntriesReply, OnRequestVoteReply, OnRequestVote, Elect;
    match ev
    case Timeout(_, _) => ElectGuarded(s, ev);
    case ClientPropose(_, value) => ProposeGuarded(s, ev, value);
    case Deliver(m, intervalOk) =>
      match m {
        case RequestVote(_, _, _, _, _, _, _) => RequestGuarded(s, ev);
        case RequestVoteReply(_, _, _, _, _, _, _, _) => VoteReplyGuarded(s, ev);
        case AppendEntries(_, _, _, _, _, _, _) => EntriesGuarded(s, ev);
        case AppendEntriesReply(_, _, _, _, _, _, _, _) => ReplyGuarded(s, ev);
        case TimeoutNow(_, _, _, _, _, _) => RestGuarded(s, ev);
      }
    case _ => RestGuarded(s, ev);
  }

  lemma RestGuarded(s: Server, ev: Event)
    requires Fit(s) && Addressed(s, ev)
    requires ev.VoteTimer? || ev.BeatTimer? || ev.ClientTransfer? || ev.Restart? || ev.Bounce?
             || (ev.Deliver? && ev.m.TimeoutNow?)
    ensures Guarded(s, ev, Handle(s, ev))
  {
    hide Guarded, Handle, Fit, Addressed;
    if ev.Restart? || ev.Bounce? {
      RestartGuarded(s, ev);
    } else if ev.VoteTimer? || ev.BeatTimer? {
      TimerGuarded(s, ev);
    } else {
      TransferGuarded(s, ev);
    }
  }

  lemma RestartGuarded(s: Server, ev: Event)
    requires Fit(s) && (ev.Restart? || ev.Bounce?)
    ensures Guarded(s, ev, Handle(s, ev))
  {
  }

  lemma TimerGuarded(s: Server, ev: Event)
    requires Fit(s) && Addressed(s, ev) && (ev.VoteTimer? || ev.BeatTimer?)
    ensures Guarded(s, ev, Handle(s, ev))
  {
    hide LastTerm, LastIndex, GetTerm;
  }

  lemma TransferGuarded(s: Server, ev: Event)
    requires Fit(s) && Addressed(s, ev) && (ev.ClientTransfer? || (ev.Deliver? && ev.m.TimeoutNow?))
    ensures Guarded(s, ev, Handle(s, ev))
  {
    hide LastTerm, LastIndex;
  }

  // ---------- the cluster

  ghost predicate TermReached(g: System, term: nat) {
    exists a :: a in g.servers && term <= g.servers[a].term
  }

  ghost predicate SentOk(peersOf: map<Addr, seq<Addr>>, g: System, m: Message) {
    && m.src in peersOf && m.dest in peersOf && m.src != m.dest
    && TermReached(g, m.term)
  }

  ghost predicate Guard(peersOf: map<Addr, seq<Addr>>, g: System) {
    && Named(peersOf, g)
    && (forall a | a in g.servers :: Fit(g.servers[a]))
    && (forall m | m in g.msgs :: SentOk(peersOf, g, m))
  }

  ghost predicate Wired(peersOf: map<Addr, seq<Addr>>) {
    Configured(peersOf) && |peersOf| >= 2
  }

  lemma Others(peersOf: map<Addr, seq<Addr>>, a: Addr)
    requires Wired(peersOf) && a in peersOf
    ensures PeerSet(peersOf[a]) == peersOf.Keys - {a} && |peersOf.Keys| >= 2
  {
    assert |peersOf.Keys| == |peersOf|;
  }

  lemma PeersOf(peersOf: map<Addr, seq<Addr>>, a: Addr)
    requires Wired(peersOf) && a in peersOf
    ensures PeerSet(peersOf[a]) == peersOf.Keys - {a} && |PeerSet(peersOf[a])| + 1 == |peersOf.Keys|
    ensures |peersOf[a]| > 0
  {
    Others(peersOf, a);
    hide Wired;
    if peersOf[a] == [] {
      assert false;
    }
  }

  lemma GuardAtStart(peersOf: map<Addr, seq<Addr>>)
    requires Wired(peersOf)
    ensures Guard(peersOf, Init(peersOf))
  {
    hide Wired, Fit;
    forall a | a in peersOf
      ensures Fit(FirstStart(a, peersOf[a]))
    {
      PeersOf(peersOf, a);
      FirstFits(a, peersOf[a]);
    }
  }

  lemma FirstFits(a: Addr, peers: seq<Addr>)
    requires |peers| > 0
    ensures Fit(FirstStart(a, peers))
  {
  }

  lemma IsAddressed(peersOf: map<Addr, seq<Addr>>, g: System, ev: Event)
    requires Wired(peersOf) && Guard(peersOf, g) && Enabled(g, ev) && !ev.Crash?
    ensures Addressed(g.servers[Site(ev)], ev)
  {
    PeersOf(peersOf, Site(ev));
  }

  lemma ReachedStays(g: System, g': System, a: Addr, term: nat)
    requires a in g.servers && g'.servers.Keys == g.servers.Keys
    requires forall b | b in g.servers && b != a :: g'.servers[b] == g.servers[b]
    requires g.servers[a].term <= g'.servers[a].term && TermReached(g, term)
    ensures TermReached(g', term)
  {
    var b :| b in g.servers && term <= g.servers[b].term;
    assert term <= g'.servers[b].term;
  }

  lemma EnabledAt(g: System, ev: Event)
    requires Enabled(g, ev)
    ensures Site(ev) in g.servers
    ensures Plain(ev).Deliver? ==> Plain(ev).m in g.msgs && Plain(ev).m.dest == Site(ev)
  {
  }

  /** What one event does to the servers and the network. */
  lemma NextIs(peersOf: map<Addr, seq<Addr>>, g: System, ev: Event)
    requires Named(peersOf, g) && Enabled(g, ev)
    ensures var a, g' := Site(ev), Next(g, ev);
            var e := Handle(g.servers[a], Plain(ev));
            && Site(Plain(ev)) == a && !Plain(ev).Crash? && Enabled(g, Plain(ev))
            && g'.servers.Keys == g.servers.Keys
            && (forall b | b in g.servers && b != a :: g'.servers[b] == g.servers[b])
            && g.msgs <= g'.msgs <= g.msgs + Sent(e.sent)
            && g'.servers[a].term == e.server.term
            && (g'.servers[a] == e.server
                || (exists sm: seq<Applied> :: g'.servers[a] == Reboot(e.server.(sm := sm))))
  {
    hide Handle, Record;
  }

  lemma GuardStep(peersOf: map<Addr, seq<Addr>>, g: System, ev: Event)
    requires Wired(peersOf) && Guard(peersOf, g) && PreVoteOn(ev)
    ensures Guard(peersOf, Next(g, ev))
  {
    hide Handle, Record, Next, Wired, Fit, FlagsFrom, Addressed, TermReached, Enabled, Reboot;
    NamedStep(peersOf, g, ev);
    if Enabled(g, ev) {
      EnabledAt(g, ev);
      var a, g' := Site(ev), Next(g, ev);
      var s, plain := g.servers[a], Plain(ev);
      NextIs(peersOf, g, ev);
      IsAddressed(peersOf, g, plain);
      HandleGuarded(s, plain);
      var e := Handle(s, plain);
      RebootFits(e.server);
      PeersOf(peersOf, a);
      forall m | m in g'.msgs
        ensures SentOk(peersOf, g', m)
      {
        if m in g.msgs {
          ReachedStays(g, g', a, m.term);
        } else {
          assert m in e.sent;
          IsReached(g', a, m.term);
        }
      }
    } else {
      Idle(g, ev);
    }
  }

  lemma IsReached(g: System, a: Addr, term: nat)
    requires a in g.servers && term <= g.servers[a].term
    ensures TermReached(g, term)
  {
  }

  lemma RebootFits(s: Server)
    requires Fit(s)
    ensures forall sm: seq<Applied> :: Fit(Reboot(s.(sm := sm))) && Reboot(s.(sm := sm)).role == Follower
  {
  }

  lemma {:induction false} GuardRun(peersOf: map<Addr, seq<Addr>>, run: seq<Event>)
    requires Wired(peersOf) && forall i | 0 <= i < |run| :: PreVoteOn(run[i])
    ensures Guard(peersOf, After(peersOf, run))
    decreases |run|
  {
    hide Next, Guard, Wired;
    if run == [] {
      GuardAtStart(peersOf);
    } else {
      GuardRun(peersOf, run[..|run| - 1]);
      GuardStep(peersOf, After(peersOf, run[..|run| - 1]), run[|run| - 1]);
    }
  }

  // ---------- where a candidate's flags come from

  /** a is candidate of the term and has j flagged: log-ok if `log`, else interval-ok. Becoming a candidate
      clears all flags. */
  ghost predicate Flagged(g: System, a: Addr, term: nat, j: Addr, log: bool) {
    && a in g.servers && g.servers[a].role == Candidate && g.servers[a].term == term
    && j in g.servers[a].votes
    && if log then g.servers[a].votes[j].logok else g.servers[a].votes[j].intervalOk
  }

  /** j tells a, in reply to a pre-vote request of the term, that its log, or else its timing, allows a vote. */
  predicate Says(m: Message, a: Addr, term: nat, j: Addr, log: bool) {
    && m.RequestVoteReply? && m.preVote && m.src == j && m.dest == a
    && m.term == term && m.reqTerm == term
    && if log then m.logOk else m.intervalOk
  }

  /** Event i of the run delivers this to a, and the flag has been up ever since: a has not become a candidate
      again in between. */
  ghost predicate SetSince(peersOf: map<Addr, seq<Addr>>, run: seq<Event>, i: nat,
                           a: Addr, term: nat, j: Addr, log: bool) {
    && i < |run| && run[i].Deliver? && Enabled(After(peersOf, run[..i]), run[i])
    && Says(run[i].m, a, term, j, log)
    && forall k | i < k <= |run| :: Flagged(After(peersOf, run[..k]), a, term, j, log)
  }

  ghost predicate Heard(peersOf: map<Addr, seq<Addr>>, run: seq<Event>, a: Addr, term: nat, j: Addr, log: bool) {
    exists i: nat :: SetSince(peersOf, run, i, a, term, j, log)
  }

  lemma HeardStill(peersOf: map<Addr, seq<Addr>>, run: seq<Event>, a: Addr, term: nat, j: Addr, log: bool)
    requires run != [] && Heard(peersOf, run[..|run| - 1], a, term, j, log)
    requires Flagged(After(peersOf, run), a, term, j, log)
    ensures Heard(peersOf, run, a, term, j, log)
  {
    hide Flagged, Exec, Enabled, Says;
    var most := run[..|run| - 1];
    var i: nat :| SetSince(peersOf, most, i, a, term, j, log);
    assert most[..i] == run[..i] && most[i] == run[i];
    forall k | i < k <= |run|
      ensures Flagged(After(peersOf, run[..k]), a, term, j, log)
    {
      if k < |run| {
        assert most[..k] == run[..k];
      } else {
        assert run[..k] == run;
      }
    }
    assert SetSince(peersOf, run, i, a, term, j, log);
  }

  lemma HeardNow(peersOf: map<Addr, seq<Addr>>, run: seq<Event>, a: Addr, term: nat, j: Addr, log: bool)
    requires run != [] && run[|run| - 1].Deliver? && Says(run[|run| - 1].m, a, term, j, log)
    requires Enabled(After(peersOf, run[..|run| - 1]), run[|run| - 1])
    requires Flagged(After(peersOf, run), a, term, j, log)
    ensures Heard(peersOf, run, a, term, j, log)
  {
    hide Flagged, Exec, Enabled, Says;
    assert run[..|run|] == run;
    assert SetSince(peersOf, run, |run| - 1, a, term, j, log);
  }

  /** One handler: a flag was up before, or the event is the reply that sets it. */
  lemma FlagStep(s: Server, ev: Event, s': Server, j: Addr, log: bool)
    requires FlagsFrom(s, ev, s') && s'.role == Candidate && j in s'.votes
    requires if log then s'.votes[j].logok else s'.votes[j].intervalOk
    ensures || (s.role == Candidate && s.term == s'.term && j in s.votes
                && if log then s.votes[j].logok else s.votes[j].intervalOk)
            || (PreVoteAnswer(s, ev) && s.term == s'.term && ev.m.src == j
                && if log then ev.m.logOk else ev.m.intervalOk)
  {
  }

  lemma FlagOrigin(peersOf: map<Addr, seq<Addr>>, g: System, ev: Event, a: Addr, term: nat, j: Addr, log: bool)
    requires Wired(peersOf) && Guard(peersOf, g) && PreVoteOn(ev)
    requires Flagged(Next(g, ev), a, term, j, log)
    ensures Flagged(g, a, term, j, log) || (Enabled(g, ev) && ev.Deliver? && Says(ev.m, a, term, j, log))
  {
    hide Handle, Record, Next, Wired, Fit, FlagsFrom, Addressed, SentOk, Enabled, Reboot;
    if !Enabled(g, ev) {
      Idle(g, ev);
    } else {
      EnabledAt(g, ev);
      NextIs(peersOf, g, ev);
      if Site(ev) == a {
        var s, plain := g.servers[a], Plain(ev);
        IsAddressed(peersOf, g, plain);
        HandleGuarded(s, plain);
        if ev.Crash? {
          CrashedIsFollower(g, ev);
        } else {
          PlainNext(g, ev);
          FlagStep(s, ev, Handle(s, ev).server, j, log);
        }
      }
    }
  }

  lemma CrashedIsFollower(g: System, ev: Event)
    requires Enabled(g, ev) && ev.Crash? && g.servers[Site(ev)].me == Site(ev)
    ensures Next(g, ev).servers[Site(ev)].role == Follower
  {
    hide Handle, Record;
  }

  lemma PlainNext(g: System, ev: Event)
    requires Enabled(g, ev) && !ev.Crash? && g.servers[Site(ev)].me == Site(ev)
    ensures Next(g, ev).servers[Site(ev)] == Handle(g.servers[Site(ev)], ev).server
  {
    hide Handle, Record;
  }

  /** Every flag of a candidate was set by a reply delivered in its present candidacy. */
  lemma {:induction false} FlagsHeard(peersOf: map<Addr, seq<Addr>>, run: seq<Event>,
                                      a: Addr, term: nat, j: Addr, log: bool)
    requires Wired(peersOf) && forall i | 0 <= i < |run| :: PreVoteOn(run[i])
    requires Flagged(After(peersOf, run), a, term, j, log)
    ensures Heard(peersOf, run, a, term, j, log)
    decreases |run|
  {
    hide Next, Guard, Wired, Heard, Flagged, Enabled, Says;
    if run == [] {
      NoFlagsAtStart(peersOf, a, term, j, log);
    } else {
      var most, ev := run[..|run| - 1], run[|run| - 1];
      GuardRun(peersOf, most);
      FlagOrigin(peersOf, After(peersOf, most), ev, a, term, j, log);
      if Flagged(After(peersOf, most), a, term, j, log) {
        FlagsHeard(peersOf, most, a, term, j, log);
        HeardStill(peersOf, run, a, term, j, log);
      } else {
        HeardNow(peersOf, run, a, term, j, log);
      }
    }
  }

  lemma NoFlagsAtStart(peersOf: map<Addr, seq<Addr>>, a: Addr, term: nat, j: Addr, log: bool)
    ensures !Flagged(Init(peersOf), a, term, j, log)
  {
  }

  // ---------- the guard

  /** j has told a so by the reply m that is now arriving, or by one delivered in its present candidacy. */
  ghost predicate Told(peersOf: map<Addr, seq<Addr>>, run: seq<Event>, m: Message,
                       a: Addr, term: nat, j: Addr, log: bool) {
    Says(m, a, term, j, log) || Heard(peersOf, run, a, term, j, log)
  }

  /** In the run, j got a pre-vote request of a's for the term, and then a's log was not behind its own, or else its
      interval check succeeded or was waived by the transfer bit. */
  ghost predicate Checked(peersOf: map<Addr, seq<Addr>>, run: seq<Event>, a: Addr, term: nat, j: Addr, log: bool) {
    exists i: nat :: CheckedAt(peersOf, run, i, a, term, j, log)
  }

  ghost predicate CheckedAt(peersOf: map<Addr, seq<Addr>>, run: seq<Event>, i: nat,
                            a: Addr, term: nat, j: Addr, log: bool) {
    && i < |run| && run[i].Deliver? && Enabled(After(peersOf, run[..i]), run[i])
    && var ask := run[i].m;
       && ask.RequestVote? && ask.preVote && ask.src == a && ask.dest == j && ask.term == term
       && if log then VoteReplies.EndNotBehind(ask, After(peersOf, run[..i]).servers[j])
          else run[i].intervalOk || ask.leaderTransfer
  }

  lemma SaysChecked(peersOf: map<Addr, seq<Addr>>, run: seq<Event>, m: Message, a: Addr, term: nat, j: Addr, log: bool)
    requires m in After(peersOf, run).msgs && Says(m, a, term, j, log)
    ensures Checked(peersOf, run, a, term, j, log)
  {
    hide Exec, Init, Enabled, VoteReplies.EndNotBehind;
    VoteReplies.ReplyOrigin(peersOf, run, m);
    var i: nat :| VoteReplies.AnswersEvent(peersOf, run, i, m);
    assert CheckedAt(peersOf, run, i, a, term, j, log);
  }

  lemma CheckedLater(peersOf: map<Addr, seq<Addr>>, run: seq<Event>, k: nat, a: Addr, term: nat, j: Addr, log: bool)
    requires k <= |run| && Checked(peersOf, run[..k], a, term, j, log)
    ensures Checked(peersOf, run, a, term, j, log)
  {
    hide Exec, Init, Enabled, VoteReplies.EndNotBehind;
    var i: nat :| CheckedAt(peersOf, run[..k], i, a, term, j, log);
    assert run[..k][..i] == run[..i] && run[..k][i] == run[i];
    assert CheckedAt(peersOf, run, i, a, term, j, log);
  }

  /** Whoever has told a so had checked it. */
  lemma ToldChecked(peersOf: map<Addr, seq<Addr>>, run: seq<Event>, m: Message, a: Addr, term: nat, j: Addr, log: bool)
    requires m in After(peersOf, run).msgs && Told(peersOf, run, m, a, term, j, log)
    ensures Checked(peersOf, run, a, term, j, log)
  {
    hide Exec, Init, Says, Checked, Flagged;
    if Says(m, a, term, j, log) {
      SaysChecked(peersOf, run, m, a, term, j, log);
    } else {
      var i: nat :| SetSince(peersOf, run, i, a, term, j, log);
      SaysChecked(peersOf, run[..i], run[i].m, a, term, j, log);
      CheckedLater(peersOf, run, i, a, term, j, log);
    }
  }

  /** After the run, the members in q have told the pre-voting candidate a, in its present candidacy, that both
      their logs and their timing allow a vote, which they had checked, m being the last such reply; with a itself
      they are at least half of the members. */
  ghost predicate Approved(peersOf: map<Addr, seq<Addr>>, run: seq<Event>, m: Message, a: Addr, q: set<Addr>) {
    var g := After(peersOf, run);
    && a in g.servers && g.servers[a].role == Candidate && g.servers[a].preVoting
    && m in g.msgs && m.dest == a
    && q <= g.servers.Keys - {a} && 2 * (|q| + 1) >= |g.servers|
    && forall j | j in q ::
         && Told(peersOf, run, m, a, g.servers[a].term, j, true)
         && Told(peersOf, run, m, a, g.servers[a].term, j, false)
         && Checked(peersOf, run, a, g.servers[a].term, j, true)
         && Checked(peersOf, run, a, g.servers[a].term, j, false)
  }

  lemma WinnerApproved(peersOf: map<Addr, seq<Addr>>, run: seq<Event>, a: Addr, ev: Event) returns (q: set<Addr>)
    requires Wired(peersOf) && forall i | 0 <= i < |run| :: PreVoteOn(run[i])
    requires a in After(peersOf, run).servers && PreVoteWon(After(peersOf, run).servers[a], ev)
    requires ev.m in After(peersOf, run).msgs && ev.m.dest == a
    ensures Approved(peersOf, run, ev.m, a, q) && q == PreVoteOk(Noted(After(peersOf, run).servers[a].votes, ev.m))
  {
    hide Wired, Majority, Told, Checked, Exec, Init, MajorityPreVoteOk;
    var g := After(peersOf, run);
    var s := g.servers[a];
    GuardRun(peersOf, run);
    q := PreVoteOk(Noted(s.votes, ev.m));
    PeersOf(peersOf, a);
    WinningCount(s, ev);
    assert |g.servers.Keys| == |g.servers|;
    forall j | j in q
      ensures Told(peersOf, run, ev.m, a, s.term, j, true) && Told(peersOf, run, ev.m, a, s.term, j, false)
      ensures Checked(peersOf, run, a, s.term, j, true) && Checked(peersOf, run, a, s.term, j, false)
    {
      FlagTold(peersOf, run, a, ev, j, true);
      FlagTold(peersOf, run, a, ev, j, false);
      ToldChecked(peersOf, run, ev.m, a, s.term, j, true);
      ToldChecked(peersOf, run, ev.m, a, s.term, j, false);
    }
  }

  lemma WinningCount(s: Server, ev: Event)
    requires Fit(s) && PreVoteWon(s, ev)
    ensures var q := PreVoteOk(Noted(s.votes, ev.m));
            q <= PeerSet(s.peers) && 2 * (|q| + 1) >= |PeerSet(s.peers)| + 1
  {
    var votes := Noted(s.votes, ev.m);
    assert votes.Keys == s.votes.Keys;
    assert |votes| == |votes.Keys|;
  }

  lemma FlagTold(peersOf: map<Addr, seq<Addr>>, run: seq<Event>, a: Addr, ev: Event, j: Addr, log: bool)
    requires Wired(peersOf) && forall i | 0 <= i < |run| :: PreVoteOn(run[i])
    requires a in After(peersOf, run).servers && PreVoteWon(After(peersOf, run).servers[a], ev) && ev.m.dest == a
    requires j in PreVoteOk(Noted(After(peersOf, run).servers[a].votes, ev.m))
    ensures Told(peersOf, run, ev.m, a, After(peersOf, run).servers[a].term, j, log)
  {
    hide MajorityPreVoteOk, Heard, Wired, Exec, Init;
    var g := After(peersOf, run);
    if !Says(ev.m, a, g.servers[a].term, j, log) {
      FlagsHeard(peersOf, run, a, g.servers[a].term, j, log);
    }
  }

  /** With pre-vote on, whatever the run, the largest term of the cluster is exceeded only by a pre-voting
      candidate, on a reply m that makes at least half of the members, the candidate included, flagged both
      log-ok and interval-ok, each flag by a reply of its present term delivered since it last became
      candidate, and sent by a member that had made the check on this candidate's request of this term. */
  lemma TermGrowsOnlyByPreVote(peersOf: map<Addr, seq<Addr>>, run: seq<Event>, ev: Event, a: Addr)
      returns (m: Message, q: set<Addr>)
    requires Configured(peersOf) && |peersOf| >= 2
    requires PreVoteOn(ev) && forall i | 0 <= i < |run| :: PreVoteOn(run[i])
    requires a in Next(After(peersOf, run), ev).servers
    requires !TermReached(After(peersOf, run), Next(After(peersOf, run), ev).servers[a].term)
    ensures var g := After(peersOf, run);
            && Plain(ev).Deliver? && m == Plain(ev).m && m.RequestVoteReply? && m.preVote
            && Approved(peersOf, run, m, a, q)
            && m.src in g.servers[a].votes && q == PreVoteOk(Noted(g.servers[a].votes, m))
            && MajorityPreVoteOk(Noted(g.servers[a].votes, m), true)
            && Next(g, ev).servers[a].term == g.servers[a].term + 1
  {
    hide Next, Handle, Fit, FlagsFrom, Addressed, TermReached, Configured, Exec, PreVoteWon, Enabled;
    hide Approved, Named, SentOk, Init;
    var g := After(peersOf, run);
    assert Wired(peersOf);
    GuardRun(peersOf, run);
    GuardParts(peersOf, g);
    if !Enabled(g, ev) {
      Idle(g, ev);
      IsReached(g, a, g.servers[a].term);
    } else {
      EnabledAt(g, ev);
      var s, plain := g.servers[Site(ev)], Plain(ev);
      NextIs(peersOf, g, ev);
      IsAddressed(peersOf, g, plain);
      HandleGuarded(s, plain);
      if a != Site(ev) || Handle(s, plain).server.term <= s.term {
        IsReached(g, a, Next(g, ev).servers[a].term);
      } else if plain.Deliver? && plain.m.term >= Handle(s, plain).server.term {
        SentReached(peersOf, g, plain.m);
        ReachedLess(g, plain.m.term, Handle(s, plain).server.term);
      } else {
        WonByReply(s, plain);
        m := plain.m;
        q := WinnerApproved(peersOf, run, a, plain);
      }
    }
  }

  lemma GuardParts(peersOf: map<Addr, seq<Addr>>, g: System)
    requires Guard(peersOf, g)
    ensures Named(peersOf, g) && g.servers.Keys == peersOf.Keys
    ensures forall a | a in g.servers :: Fit(g.servers[a])
  {
  }

  lemma SentReached(peersOf: map<Addr, seq<Addr>>, g: System, m: Message)
    requires Guard(peersOf, g) && m in g.msgs
    ensures TermReached(g, m.term)
  {
  }

  lemma WonByReply(s: Server, ev: Event)
    requires PreVoteWon(s, ev)
    ensures ev.Deliver? && ev.m.RequestVoteReply? && ev.m.preVote && ev.m.src in s.votes
    ensures MajorityPreVoteOk(Noted(s.votes, ev.m), true)
  {
  }

  lemma Idle(g: System, ev: Event)
    requires !Enabled(g, ev)
    ensures Next(g, ev) == g
  {
  }

  lemma ReachedLess(g: System, term: nat, less: nat)
    requires TermReached(g, term) && less <= term
    ensures TermReached(g, less)
  {
  }

  // ---------- no votes

  lemma NoteKeepsGrants(votes: map<Addr, VoteItem>, m: Message, v: Addr)
    requires m.RequestVoteReply? && m.src in votes && v in votes
    ensures Noted(votes, m)[v].grant == votes[v].grant
  {
  }

  lemma RequestVotes(s: Server, m: Message, intervalOk: bool)
    requires m.RequestVote? && m.preVote
    ensures var s' := OnRequestVote(s, m, intervalOk).server;
            && s'.votes == s.votes && s'.me == s.me
            && ((s'.term == s.term && s'.vote == s.vote) || (s'.term > s.term && s'.vote == NO_ADDR))
  {
    hide LogOk;
  }

  lemma ReplyVotes(s: Server, m: Message, v: Addr)
    requires m.RequestVoteReply? && m.preVote && m.src in s.votes
    ensures var s' := OnRequestVoteReply(s, m).server;
            && (v in s'.votes && s'.votes[v].grant ==> v in s.votes && s.votes[v].grant)
            && ((s'.term == s.term && s'.vote == s.vote)
                || (s'.term > s.term && s'.vote == NO_ADDR)
                || (s'.term == s.term + 1 && s'.vote == s.me))
  {
    hide BecomeLeader, Fill;
    if m.term == s.term && m.reqTerm == s.term {
      OnPreVoteIs(s, m);
      if v in s.votes {
        NoteKeepsGrants(s.votes, m, v);
      }
      hide OnPreVote, MajorityPreVoteOk, QuorumAll, Noted;
    }
  }

  lemma VoteStands(h: History, s: Server, e: Effect)
    requires HistOk(h) && BallotOk(h, s)
    requires (e.server.term == s.term && e.server.vote == s.vote)
             || (e.server.term > s.term && e.server.vote == NO_ADDR)
    ensures Record(h, s, e).votes == h.votes
  {
  }

  lemma OwnVoteOnly(h: History, s: Server, e: Effect)
    requires e.server.vote == s.me
    ensures Record(h, s, e).votes == h.votes
            || Record(h, s, e).votes == h.votes[(e.server.term, s.me) := VoteRec(s.me, s.log)]
  {
  }

  lemma Delivered(g: System, m: Message, intervalOk: bool)
    requires m in g.msgs && m.dest in g.servers && g.servers[m.dest].alive && g.servers[m.dest].me == m.dest
    ensures var e, g' := OnMessage(g.servers[m.dest], m, intervalOk), Next(g, Deliver(m, intervalOk));
            && m.dest in g'.servers && g'.servers[m.dest] == e.server
            && g'.hist == Record(g.hist, g.servers[m.dest], e)
  {
    hide OnMessage, Record;
  }

  /** In every reachable state, delivering a pre-vote message casts no vote and counts none: no grant appears at
      the receiver, and the votes on record are the same, except that a reply can make the receiver vote for
      itself in a new term. */
  lemma PreVotesCastNoVote(peersOf: map<Addr, seq<Addr>>, g: System, m: Message, intervalOk: bool, v: Addr)
    requires SoundCluster(peersOf) && Reachable(peersOf, g) && m in g.msgs && m.dest in g.servers
    requires (m.RequestVote? || m.RequestVoteReply?) && m.preVote && g.servers[m.dest].alive
    ensures var s, g' := g.servers[m.dest], Next(g, Deliver(m, intervalOk));
            && m.dest in g'.servers
            && (v in g'.servers[m.dest].votes && g'.servers[m.dest].votes[v].grant ==>
                  v in s.votes && s.votes[v].grant)
            && (g'.hist.votes == g.hist.votes
                || (m.RequestVoteReply?
                    && g'.hist.votes == g.hist.votes[(s.term + 1, m.dest) := VoteRec(m.dest, s.log)]))
  {
    hide Inv, HistOk, Reachable, SoundCluster, Record, OnRequestVote, OnRequestVoteReply, Next, MessageOk, Shaped;
    hide BallotOk, LogOk_, RoleOk, ApplyOk;
    ReachableOk(peersOf, g);
    InvParts(g, m.dest);
    SentMessage(g, m);
    var s := g.servers[m.dest];
    var e := OnMessage(s, m, intervalOk);
    Delivered(g, m, intervalOk);
    if m.RequestVote? {
      RequestVotes(s, m, intervalOk);
      VoteStands(g.hist, s, e);
    } else {
      SenderIsPeer(g.hist, s, m);
      ReplyVotes(s, m, v);
      if e.server.vote == s.me && e.server.term == s.term + 1 {
        OwnVoteOnly(g.hist, s, e);
      } else {
        VoteStands(g.hist, s, e);
      }
    }
  }

  lemma SenderIsPeer(h: History, s: Server, m: Message)
    requires Shaped(h, s) && MessageOk(h, m) && m.dest == s.me
    ensures m.src in s.votes
  {
    assert m.src in PeerSet(s.peers) + {s.me};
  }
}
