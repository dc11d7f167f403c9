/** What no handler touches: a server's name and configuration. Holds for clusters of any size. */
module Frames {
  import opened RaftTypes
  import opened Quorum
  import opened RaftStep
  import opened Cluster
  import Durability

  ghost predicate SameName(s: Server, s': Server) {
    s'.me == s.me && s'.peers == s.peers
  }

  lemma {:induction false} SendFromName(s: Server, k: nat)
    ensures SameName(s, SendFrom(s, k).server)
    decreases |s.peers| - k
  {
    if k < |s.peers| {
      SendFromName(AgainHeartBeat(s, s.peers[k]), k + 1);
    }
  }

  lemma ProposeName(s: Server, value: Bytes)
    ensures SameName(s, Propose(s, value).server)
  {
    hide MaybeCommit, SendFrom;
    var s1 := s.(log := s.log + [Entry(s.term, Data, value)]);
    Durability.MaybeCommitRest(s1);
    SendFromName(MaybeCommit(s1), 0);
  }

  lemma ReplyName(s: Server, m: Message)
    requires m.AppendEntriesReply?
    ensures SameName(s, OnAppendEntriesReply(s, m).server)
  {
    hide NoteReply;
    NoteReplyName(s, m);
  }

  lemma NoteReplyName(s: Server, m: Message)
    requires m.AppendEntriesReply?
    ensures SameName(s, NoteReply(s, m))
  {
    hide MaybeCommit;
    Durability.MaybeCommitRest(SetMatch(s, m.src, m.reqPreIndex + m.reqNumEntries));
  }

  lemma VoteReplyName(s: Server, m: Message)
    requires m.RequestVoteReply?
    ensures SameName(s, OnRequestVoteReply(s, m).server)
  {
    hide OnRealVote, OnPreVote;
    RealVoteName(s, m.src, m.granted);
    PreVoteName(s, m.src, m.logOk, m.intervalOk);
  }

  lemma RealVoteName(s: Server, j: Addr, granted: bool)
    ensures SameName(s, OnRealVote(s, j, granted))
  {
    hide Majority;
  }

  lemma StandName(s: Server)
    ensures SameName(s, DoRequestVote(s))
  {
    hide QuorumAll, Fill;
  }

  lemma PreVoteName(s: Server, j: Addr, logOk: bool, intervalOk: bool)
    ensures SameName(s, OnPreVote(s, j, logOk, intervalOk))
  {
    hide MajorityPreVoteOk, DoRequestVote;
    StandName(NotePreVote(s, j, logOk, intervalOk).(preVoting := false));
  }

  /** Accepting entries touches the log and what applying is about. */
  lemma AcceptRest(s: Server, m: Message)
    requires m.AppendEntries?
    ensures var s' := AcceptEntries(s, m).server;
            s' == s.(alive := s'.alive, log := s'.log, commit := s'.commit, sm := s'.sm, lastApply := s'.lastApply)
  {
    hide Reconcile, EntriesAsserted, AdvanceCommit, LastIndex;
    AdvanceRest(s.(log := Reconcile(s.log, m.preLogIndex, m.entries)), m.commitIndex);
  }

  lemma AdvanceRest(s: Server, c: nat)
    ensures var s' := AdvanceCommit(s, c);
            s' == s.(alive := s'.alive, commit := s'.commit, sm := s'.sm, lastApply := s'.lastApply)
  {
    hide StateMachineApply, LastIndex;
    Durability.ApplyKeeps(s.(commit := c));
  }

  /** A request of a past term is only answered; any other makes the receiver a follower of its term. */
  lemma EntriesRest(s: Server, m: Message)
    requires m.AppendEntries?
    ensures var s' := OnAppendEntries(s, m).server;
            && SameName(s, s') && s'.votes == s.votes && s'.preVoting == s.preVoting
            && (m.term < s.term ==> s' == s)
            && (m.term >= s.term ==> s'.role == Follower && s'.term == m.term)
  {
    hide AcceptEntries, PreMatches;
    if m.term >= s.term {
      AcceptRest(StepDown(s, m.term).(leader := m.src), m);
    }
  }

  lemma HandleName(s: Server, ev: Event)
    requires !ev.Crash?
    ensures SameName(s, Handle(s, ev).server)
  {
    hide SameName, Propose, HeartBeat, OnMessage, Elect, RequestVoteRpc, LeaderTransfer, Reboot, StopStart;
    match ev
    case BeatTimer(_, peer) => BeatName(s, peer);
    case ClientPropose(_, value) => ProposeName(s, value);
    case Deliver(m, intervalOk) => MessageName(s, m, intervalOk);
    case _ => OtherName(s, ev);
  }

  lemma OtherName(s: Server, ev: Event)
    requires ev.Timeout? || ev.VoteTimer? || ev.ClientTransfer? || ev.Restart? || ev.Bounce?
    ensures SameName(s, Handle(s, ev).server)
  {
    hide LastIndex, LastTerm, Fill, DoRequestVote;
    StandName(s.(preVoting := false));
  }

  lemma MessageName(s: Server, m: Message, intervalOk: bool)
    ensures SameName(s, OnMessage(s, m, intervalOk).server)
  {
    hide OnAppendEntries, OnAppendEntriesReply, OnRequestVoteReply, LogOk, LastIndex, LastTerm;
    match m
    case RequestVoteReply(_, _, _, _, _, _, _, _) => VoteReplyName(s, m);
    case AppendEntriesReply(_, _, _, _, _, _, _, _) => ReplyName(s, m);
    case AppendEntries(_, _, _, _, _, _, _) => EntriesRest(s, m);
    case _ =>
  }

  lemma BeatName(s: Server, peer: Addr)
    ensures SameName(s, HeartBeat(s, peer).server)
  {
  }

  /** Every server is known to itself and to the others by its key. */
  ghost predicate Named(peersOf: map<Addr, seq<Addr>>, g: System) {
    && g.servers.Keys == peersOf.Keys
    && forall a | a in g.servers :: g.servers[a].me == a && g.servers[a].peers == peersOf[a]
  }

  lemma NamedStep(peersOf: map<Addr, seq<Addr>>, g: System, ev: Event)
    requires Named(peersOf, g)
    ensures Named(peersOf, Next(g, ev))
  {
    hide Handle, Record;
    if Enabled(g, ev) {
      var plain := if ev.Crash? then ev.during else ev;
      HandleName(g.servers[Site(plain)], plain);
    }
  }

  lemma {:induction false} NamedRun(peersOf: map<Addr, seq<Addr>>, run: seq<Event>)
    ensures Named(peersOf, After(peersOf, run))
    decreases |run|
  {
    hide Next;
    if run != [] {
      NamedRun(peersOf, run[..|run| - 1]);
      NamedStep(peersOf, After(peersOf, run[..|run| - 1]), run[|run| - 1]);
    }
  }
}
