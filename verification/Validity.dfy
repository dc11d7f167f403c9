/** Nothing comes from nowhere: what a log holds and what a state machine was given, some client proposed.
    Holds for clusters of any size. */
module Validity {
  import opened RaftTypes
  import opened Quorum
  import opened RaftStep
  import opened Cluster
  import opened Frames
  import Durability

  /** The values that clients propose in a run. */
  ghost function Proposals(run: seq<Event>): set<Bytes> {
    set i | 0 <= i < |run| && Plain(run[i]).ClientPropose? :: Plain(run[i]).value
  }

  ghost predicate Known(e: Entry, vs: set<Bytes>) {
    e.kind == Data ==> e.value in vs
  }

  ghost predicate LogKnown(log: Log, vs: set<Bytes>) {
    forall k | 0 <= k < |log| :: Known(log[k], vs)
  }

  ghost predicate FedKnown(sm: seq<Applied>, vs: set<Bytes>) {
    forall k | 0 <= k < |sm| :: sm[k].entry.kind == Data && Known(sm[k].entry, vs)
  }

  ghost predicate ServerKnown(s: Server, vs: set<Bytes>) {
    LogKnown(s.log, vs) && FedKnown(s.sm, vs)
  }

  ghost predicate MessageKnown(m: Message, vs: set<Bytes>) {
    m.AppendEntries? ==> forall j | 0 <= j < |m.entries| :: Known(m.entries[j].entry, vs)
  }

  ghost predicate EffectKnown(e: Effect, vs: set<Bytes>) {
    ServerKnown(e.server, vs) && forall m | m in e.sent :: MessageKnown(m, vs)
  }

  // ---------- applying

  lemma {:induction false} DataBetweenKnown(log: Log, lo: nat, hi: nat, vs: set<Bytes>)
    requires hi <= |log| && LogKnown(log, vs)
    ensures FedKnown(DataBetween(log, lo, hi), vs)
  {
    if lo < hi {
      DataBetweenKnown(log, lo, hi - 1, vs);
    }
  }

  lemma {:induction false} ApplyFromKnown(s: Server, i: nat, vs: set<Bytes>)
    requires i >= 1 && ServerKnown(s, vs)
    ensures ServerKnown(ApplyFrom(s, i), vs)
    decreases s.commit + 1 - i
  {
    if i <= s.commit && i <= |s.log| && s.log[i - 1].kind != Unknown {
      if s.log[i - 1].kind == Data {
        ApplyFromKnown(s.(sm := s.sm + [Applied(i, s.log[i - 1])]), i + 1, vs);
      } else {
        ApplyFromKnown(s, i + 1, vs);
      }
    }
  }

  lemma ApplyKnown(s: Server, vs: set<Bytes>)
    requires ServerKnown(s, vs)
    ensures ServerKnown(StateMachineApply(s), vs)
  {
    hide ServerKnown;
    if s.commit > s.lastApply {
      ApplyFromKnown(s, s.lastApply + 1, vs);
    }
  }

  lemma CommitKnown(s: Server, vs: set<Bytes>)
    requires ServerKnown(s, vs)
    ensures ServerKnown(MaybeCommit(s), vs)
  {
    hide StateMachineApply;
    ApplyKnown(s.(commit := MajorityMax(s.indices, LastIndex(s))), vs);
  }

  // ---------- sending

  lemma SendKnown(s: Server, dest: Addr, vs: set<Bytes>)
    requires ServerKnown(s, vs)
    ensures EffectKnown(SendAppendEntries(s, dest), vs)
  {
    hide GetTerm, LastIndex;
  }

  lemma AgainKnown(s: Server, j: Addr, vs: set<Bytes>)
    requires ServerKnown(s, vs)
    ensures ServerKnown(AgainHeartBeat(s, j), vs)
  {
  }

  lemma {:induction false} SendFromKnown(s: Server, k: nat, vs: set<Bytes>)
    requires ServerKnown(s, vs)
    ensures EffectKnown(SendFrom(s, k), vs)
    decreases |s.peers| - k
  {
    hide ServerKnown, MessageKnown, SendAppendEntries, AgainHeartBeat;
    if k < |s.peers| {
      SendKnown(s, s.peers[k], vs);
      AgainKnown(s, s.peers[k], vs);
      SamePeers(s, s.peers[k]);
      SendFromKnown(AgainHeartBeat(s, s.peers[k]), k + 1, vs);
    }
  }

  lemma SamePeers(s: Server, j: Addr)
    ensures AgainHeartBeat(s, j).peers == s.peers
  {
  }

  lemma ProposeKnown(s: Server, value: Bytes, vs: set<Bytes>)
    requires ServerKnown(s, vs) && value in vs
    ensures EffectKnown(Propose(s, value), vs)
  {
    hide MaybeCommit, SendFrom;
    var s1 := s.(log := s.log + [Entry(s.term, Data, value)]);
    CommitKnown(s1, vs);
    SendFromKnown(MaybeCommit(s1), 0, vs);
  }

  // ---------- the handlers

  lemma StandKnown(s: Server, vs: set<Bytes>)
    requires ServerKnown(s, vs)
    ensures ServerKnown(DoRequestVote(s), vs)
  {
    hide QuorumAll;
  }

  lemma VoteReplyKnown(s: Server, m: Message, vs: set<Bytes>)
    requires m.RequestVoteReply? && ServerKnown(s, vs)
    ensures EffectKnown(OnRequestVoteReply(s, m), vs)
  {
    hide OnRealVote, OnPreVote;
    RealVoteKnown(s, m.src, m.granted, vs);
    PreVoteKnown(s, m.src, m.logOk, m.intervalOk, vs);
  }

  lemma RealVoteKnown(s: Server, j: Addr, granted: bool, vs: set<Bytes>)
    requires ServerKnown(s, vs)
    ensures ServerKnown(OnRealVote(s, j, granted), vs)
  {
    hide Majority;
  }

  lemma PreVoteKnown(s: Server, j: Addr, logOk: bool, intervalOk: bool, vs: set<Bytes>)
    requires ServerKnown(s, vs)
    ensures ServerKnown(OnPreVote(s, j, logOk, intervalOk), vs)
  {
    hide MajorityPreVoteOk, DoRequestVote;
    StandKnown(NotePreVote(s, j, logOk, intervalOk).(preVoting := false), vs);
  }

  lemma ReplyKnown(s: Server, m: Message, vs: set<Bytes>)
    requires m.AppendEntriesReply? && ServerKnown(s, vs)
    ensures EffectKnown(OnAppendEntriesReply(s, m), vs)
  {
    hide NoteReply, SendAppendEntries, AgainHeartBeat, LastIndex, ServerKnown, MessageKnown;
    NoteReplyKnown(s, m, vs);
    SendKnown(NoteReply(s, m), m.src, vs);
    AgainKnown(NoteReply(s, m), m.src, vs);
    DownKnown(s, m.term, vs);
    DeadKnown(s, vs);
  }

  lemma DownKnown(s: Server, term: nat, vs: set<Bytes>)
    requires ServerKnown(s, vs)
    ensures s.term <= term ==> ServerKnown(StepDown(s, term), vs)
  {
  }

  lemma DeadKnown(s: Server, vs: set<Bytes>)
    requires ServerKnown(s, vs)
    ensures ServerKnown(s.(alive := false), vs)
  {
  }

  lemma NoteReplyKnown(s: Server, m: Message, vs: set<Bytes>)
    requires m.AppendEntriesReply? && ServerKnown(s, vs)
    ensures ServerKnown(NoteReply(s, m), vs)
  {
    hide MaybeCommit;
    CommitKnown(SetMatch(s, m.src, m.reqPreIndex + m.reqNumEntries), vs);
  }

  lemma ReconcileKnown(log: Log, pre: nat, es: seq<LogEntry>, vs: set<Bytes>)
    requires LogKnown(log, vs) && forall j | 0 <= j < |es| :: Known(es[j].entry, vs)
    ensures LogKnown(Reconcile(log, pre, es), vs)
  {
    hide FirstNew, Known;
  }

  lemma AcceptKnown(s: Server, m: Message, vs: set<Bytes>)
    requires m.AppendEntries? && ServerKnown(s, vs) && MessageKnown(m, vs)
    ensures EffectKnown(AcceptEntries(s, m), vs)
  {
    hide Reconcile, EntriesAsserted, StateMachineApply, Known, LastIndex;
    ReconcileKnown(s.log, m.preLogIndex, m.entries, vs);
    ApplyKnown(s.(log := Reconcile(s.log, m.preLogIndex, m.entries), commit := m.commitIndex), vs);
  }

  lemma EntriesKnown(s: Server, m: Message, vs: set<Bytes>)
    requires m.AppendEntries? && ServerKnown(s, vs) && MessageKnown(m, vs)
    ensures EffectKnown(OnAppendEntries(s, m), vs)
  {
    hide AcceptEntries, PreMatches, LastIndex, Known;
    if m.term >= s.term {
      AcceptKnown(StepDown(s, m.term).(leader := m.src), m, vs);
    }
  }

  lemma MessageGivesKnown(s: Server, m: Message, intervalOk: bool, vs: set<Bytes>)
    requires ServerKnown(s, vs) && MessageKnown(m, vs)
    ensures EffectKnown(OnMessage(s, m, intervalOk), vs)
  {
    hide OnAppendEntries, OnAppendEntriesReply, OnRequestVoteReply, LogOk, LastIndex, LastTerm, LogKnown, FedKnown;
    match m
    case RequestVoteReply(_, _, _, _, _, _, _, _) => VoteReplyKnown(s, m, vs);
    case AppendEntriesReply(_, _, _, _, _, _, _, _) => ReplyKnown(s, m, vs);
    case AppendEntries(_, _, _, _, _, _, _) => EntriesKnown(s, m, vs);
    case _ =>
  }

  lemma OtherKnown(s: Server, ev: Event, vs: set<Bytes>)
    requires ev.Timeout? || ev.VoteTimer? || ev.ClientTransfer? || ev.Restart? || ev.Bounce?
    requires ServerKnown(s, vs)
    ensures EffectKnown(Handle(s, ev), vs)
  {
    hide LastIndex, LastTerm, Fill, DoRequestVote, LogKnown, FedKnown;
    StandKnown(s.(preVoting := false), vs);
  }

  lemma HandleKnown(s: Server, ev: Event, vs: set<Bytes>)
    requires !ev.Crash? && ServerKnown(s, vs)
    requires ev.ClientPropose? ==> ev.value in vs
    requires ev.Deliver? ==> MessageKnown(ev.m, vs)
    ensures EffectKnown(Handle(s, ev), vs)
  {
    hide EffectKnown, ServerKnown, MessageKnown, Propose, SendAppendEntries, OnMessage, Elect, RequestVoteRpc;
    hide LeaderTransfer, Reboot, StopStart;
    match ev
    case BeatTimer(_, peer) => BeatKnown(s, peer, vs);
    case ClientPropose(_, value) => ProposeKnown(s, value, vs);
    case Deliver(m, intervalOk) => MessageGivesKnown(s, m, intervalOk, vs);
    case _ => OtherKnown(s, ev, vs);
  }

  lemma BeatKnown(s: Server, peer: Addr, vs: set<Bytes>)
    requires ServerKnown(s, vs)
    ensures EffectKnown(HeartBeat(s, peer), vs)
  {
    hide SendAppendEntries, LogKnown, FedKnown;
    SendKnown(s, peer, vs);
  }

  lemma CrashKnown(s: Server, s': Server, applied: nat, vs: set<Bytes>)
    requires ServerKnown(s, vs) && ServerKnown(s', vs)
    ensures ServerKnown(CrashTo(s, s', applied), vs)
  {
    hide DataBetween, Fill, SmLast, Known;
    if s.lastApply <= applied <= s'.lastApply && applied <= |s'.log| {
      DataBetweenKnown(s'.log, s.lastApply, applied, vs);
    }
  }

  // ---------- runs

  ghost predicate AllKnown(g: System, vs: set<Bytes>) {
    && (forall a | a in g.servers :: ServerKnown(g.servers[a], vs))
    && forall m | m in g.msgs :: MessageKnown(m, vs)
  }

  lemma StepKnown(peersOf: map<Addr, seq<Addr>>, g: System, ev: Event, vs: set<Bytes>)
    requires Named(peersOf, g) && AllKnown(g, vs)
    requires Plain(ev).ClientPropose? ==> Plain(ev).value in vs
    ensures AllKnown(Next(g, ev), vs)
  {
    hide Handle, Record, ServerKnown, MessageKnown, CrashTo;
    if Enabled(g, ev) {
      var s := g.servers[Site(ev)];
      assert Enabled(g, Plain(ev));
      HandleKnown(s, Plain(ev), vs);
      if ev.Crash? {
        CrashKnown(s, Handle(s, ev.during).server, ev.applied, vs);
      }
    }
  }

  lemma MoreKnown(g: System, vs: set<Bytes>, vs': set<Bytes>)
    requires AllKnown(g, vs) && vs <= vs'
    ensures AllKnown(g, vs')
  {
  }

  lemma ProposalsGrow(run: seq<Event>)
    requires run != []
    ensures var last := Plain(run[|run| - 1]); last.ClientPropose? ==> last.value in Proposals(run)
    ensures Proposals(run[..|run| - 1]) <= Proposals(run)
  {
    var most := run[..|run| - 1];
    forall v | v in Proposals(most)
      ensures v in Proposals(run)
    {
      var i :| 0 <= i < |most| && Plain(most[i]).ClientPropose? && Plain(most[i]).value == v;
      assert run[i] == most[i];
    }
  }

  lemma {:induction false} RunKnown(peersOf: map<Addr, seq<Addr>>, run: seq<Event>)
    ensures AllKnown(After(peersOf, run), Proposals(run))
    decreases |run|
  {
    hide Next, ServerKnown, Proposals, AllKnown, Init, Named;
    if run == [] {
      NothingKnown(peersOf, Proposals(run));
    } else {
      var most := run[..|run| - 1];
      RunKnown(peersOf, most);
      ProposalsGrow(run);
      MoreKnown(After(peersOf, most), Proposals(most), Proposals(run));
      NamedRun(peersOf, most);
      StepKnown(peersOf, After(peersOf, most), run[|run| - 1], Proposals(run));
    }
  }

  lemma NothingKnown(peersOf: map<Addr, seq<Addr>>, vs: set<Bytes>)
    ensures AllKnown(Init(peersOf), vs)
  {
    hide Fill;
  }

  /** Over every run, each data entry of each log and each entry that a state machine was given carries a value
      that a client proposed in that run, and a state machine is given nothing but data entries. */
  lemma OnlyProposals(peersOf: map<Addr, seq<Addr>>, run: seq<Event>, a: Addr)
    requires a in After(peersOf, run).servers
    ensures var s := After(peersOf, run).servers[a];
            && (forall k | 0 <= k < |s.log| && s.log[k].kind == Data :: s.log[k].value in Proposals(run))
            && (forall k | 0 <= k < |s.sm| :: s.sm[k].entry.kind == Data && s.sm[k].entry.value in Proposals(run))
  {
    hide After, Proposals;
    RunKnown(peersOf, run);
    var s := After(peersOf, run).servers[a];
    assert ServerKnown(s, Proposals(run));
    forall k | 0 <= k < |s.log| && s.log[k].kind == Data
      ensures s.log[k].value in Proposals(run)
    {
      assert Known(s.log[k], Proposals(run));
    }
  }
}
