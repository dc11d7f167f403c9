/** A leader's match indexes never go back while it stays leader. */
module MatchGrowth {
  import opened RaftTypes
  import opened Quorum
  import opened RaftStep
  import opened Cluster
  import Durability
  import opened Frames

  /** The same term, and every row's match index at least what it was. */
  ghost predicate MatchesGrow(s: Server, s': Server) {
    && s'.term == s.term
    && forall j | j in s.indices :: j in s'.indices && s'.indices[j].match_ >= s.indices[j].match_
  }

  lemma {:induction false} SendFromTables(s: Server, k: nat)
    ensures MatchesGrow(s, SendFrom(s, k).server)
    decreases |s.peers| - k
  {
    if k < |s.peers| {
      SendFromTables(AgainHeartBeat(s, s.peers[k]), k + 1);
    }
  }

  lemma ProposeTables(s: Server, value: Bytes)
    ensures MatchesGrow(s, Propose(s, value).server)
  {
    hide MaybeCommit, SendFrom;
    var s1 := s.(log := s.log + [Entry(s.term, Data, value)]);
    Durability.MaybeCommitRest(s1);
    SendFromTables(MaybeCommit(s1), 0);
  }

  lemma SuccessTables(s: Server, m: Message)
    requires m.AppendEntriesReply? && m.success
    ensures MatchesGrow(s, NoteReply(s, m)) && NoteReply(s, m).role == s.role
  {
    hide MaybeCommit;
    Durability.MaybeCommitRest(SetMatch(s, m.src, m.reqPreIndex + m.reqNumEntries));
  }

  lemma FailureTables(s: Server, m: Message)
    requires m.AppendEntriesReply? && !m.success
    ensures MatchesGrow(s, NoteReply(s, m)) && NoteReply(s, m).role == s.role
  {
  }

  lemma ReplyTables(s: Server, m: Message)
    requires m.AppendEntriesReply? && s.role == Leader
    ensures var s' := OnAppendEntriesReply(s, m).server; s'.role == Leader ==> MatchesGrow(s, s')
  {
    hide NoteReply;
    if m.success {
      SuccessTables(s, m);
    } else {
      FailureTables(s, m);
    }
  }

  lemma VoteReplyTables(s: Server, m: Message)
    requires m.RequestVoteReply? && s.role == Leader
    ensures var s' := OnRequestVoteReply(s, m).server; s'.role == Leader ==> MatchesGrow(s, s')
  {
    hide DoRequestVote, BecomeLeader, MajorityPreVoteOk, Majority, OnRealVote, OnPreVote;
    RealVoteTables(s, m.src, m.granted);
    PreVoteTables(s, m.src, m.logOk, m.intervalOk);
  }

  lemma RealVoteTables(s: Server, j: Addr, granted: bool)
    requires s.role == Leader
    ensures MatchesGrow(s, OnRealVote(s, j, granted))
  {
    hide BecomeLeader, Majority;
  }

  lemma PreVoteTables(s: Server, j: Addr, logOk: bool, intervalOk: bool)
    requires s.role == Leader
    ensures MatchesGrow(s, OnPreVote(s, j, logOk, intervalOk))
  {
    hide DoRequestVote, MajorityPreVoteOk;
  }

  lemma HandleTables(s: Server, ev: Event)
    requires s.role == Leader && !ev.Crash?
    ensures var s' := Handle(s, ev).server; s'.role == Leader ==> MatchesGrow(s, s')
  {
    hide MatchesGrow, Propose, HeartBeat, OnMessage, Elect, RequestVoteRpc, LeaderTransfer, Reboot, StopStart;
    match ev
    case BeatTimer(_, peer) => BeatTables(s, peer);
    case ClientPropose(_, value) => ProposeTables(s, value);
    case Deliver(m, intervalOk) => MessageTables(s, m, intervalOk);
    case _ => OtherTables(s, ev);
  }

  lemma OtherTables(s: Server, ev: Event)
    requires s.role == Leader
    requires ev.Timeout? || ev.VoteTimer? || ev.ClientTransfer? || ev.Restart? || ev.Bounce?
    ensures var s' := Handle(s, ev).server; s'.role == Leader ==> MatchesGrow(s, s')
  {
    hide LastIndex, LastTerm, Fill;
  }

  lemma MessageTables(s: Server, m: Message, intervalOk: bool)
    requires s.role == Leader
    ensures var s' := OnMessage(s, m, intervalOk).server; s'.role == Leader ==> MatchesGrow(s, s')
  {
    hide OnAppendEntries, OnAppendEntriesReply, OnRequestVoteReply, LogOk, LastIndex, LastTerm;
    match m
    case RequestVoteReply(_, _, _, _, _, _, _, _) => VoteReplyTables(s, m);
    case AppendEntriesReply(_, _, _, _, _, _, _, _) => ReplyTables(s, m);
    case AppendEntries(_, _, _, _, _, _, _) => EntriesRest(s, m);
    case _ =>
  }

  lemma BeatTables(s: Server, peer: Addr)
    ensures MatchesGrow(s, HeartBeat(s, peer).server)
  {
    hide LastIndex, GetTerm;
  }

  lemma StepTables(peersOf: map<Addr, seq<Addr>>, g: System, ev: Event, a: Addr)
    requires Named(peersOf, g)
    requires a in g.servers && g.servers[a].role == Leader
    requires a in Next(g, ev).servers && Next(g, ev).servers[a].role == Leader
    ensures MatchesGrow(g.servers[a], Next(g, ev).servers[a])
  {
    hide Handle, Record;
    if Enabled(g, ev) && Site(ev) == a && !ev.Crash? {
      HandleTables(g.servers[a], ev);
    }
  }

  /** a leads after the first lo events of the run, after all of them, and all along in between. */
  ghost predicate LeadsThrough(peersOf: map<Addr, seq<Addr>>, run: seq<Event>, lo: nat, a: Addr) {
    && lo <= |run| && a in peersOf
    && forall i | lo <= i <= |run| :: LeadsAfter(peersOf, run[..i], a)
  }

  ghost predicate LeadsAfter(peersOf: map<Addr, seq<Addr>>, run: seq<Event>, a: Addr) {
    var g := After(peersOf, run);
    a in g.servers && g.servers[a].role == Leader
  }

  /** As long as a server stays leader, its term stands still and no match index goes back, whatever
      replies come in, however late and in whatever order. Holds for clusters of any size. */
  lemma {:induction false} MatchNeverDecreases(peersOf: map<Addr, seq<Addr>>, run: seq<Event>, lo: nat, a: Addr)
    requires LeadsThrough(peersOf, run, lo, a)
    ensures var g1, g2 := After(peersOf, run[..lo]), After(peersOf, run);
            && a in g1.servers && a in g2.servers
            && MatchesGrow(g1.servers[a], g2.servers[a])
    decreases |run|
  {
    hide Next, Exec, Named;
    if lo == |run| {
      assert run[..lo] == run && LeadsAfter(peersOf, run[..lo], a);
    } else {
      var most, ev := run[..|run| - 1], run[|run| - 1];
      LeadsBefore(peersOf, run, lo, a);
      MatchNeverDecreases(peersOf, most, lo, a);
      assert most[..lo] == run[..lo];
      NamedRun(peersOf, most);
      LastStep(peersOf, run);
      StepTables(peersOf, After(peersOf, most), ev, a);
    }
  }

  lemma LeadsBefore(peersOf: map<Addr, seq<Addr>>, run: seq<Event>, lo: nat, a: Addr)
    requires LeadsThrough(peersOf, run, lo, a) && lo < |run|
    ensures LeadsThrough(peersOf, run[..|run| - 1], lo, a)
    ensures LeadsAfter(peersOf, run[..|run| - 1], a) && LeadsAfter(peersOf, run, a)
  {
    hide LeadsAfter;
    var most := run[..|run| - 1];
    forall i | lo <= i <= |most|
      ensures LeadsAfter(peersOf, most[..i], a)
    {
      assert most[..i] == run[..i];
    }
    assert most[..|most|] == most && run[..|run|] == run;
  }

  lemma LastStep(peersOf: map<Addr, seq<Addr>>, run: seq<Event>)
    requires run != []
    ensures After(peersOf, run) == Next(After(peersOf, run[..|run| - 1]), run[|run| - 1])
  {
    hide Next;
  }
}
