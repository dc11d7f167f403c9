/** What no event takes away: a committed prefix of a server's log, and what its state machine was given. */
module Durability {
  import opened RaftTypes
  import opened Quorum
  import opened RaftStep
  import opened Cluster
  import opened Invariant
  import opened Stability
  import opened Completeness
  import opened ServerSteps
  import opened VoteSteps
  import opened ApplySteps
  import opened AppendSteps
  import opened Safety
  import opened Theorems

  // ---------- one handler, in any state

  /** The term and the state machine only grow, and so does the log, except under accepted entries. */
  ghost predicate Onward(s: Server, s': Server) {
    s.term <= s'.term && s.sm <= s'.sm && s.log <= s'.log
  }

  lemma {:induction false} ApplyFromKeeps(s: Server, i: nat)
    requires i >= 1
    ensures var s' := ApplyFrom(s, i);
            s.sm <= s'.sm && s' == s.(alive := s'.alive, sm := s'.sm, lastApply := s'.lastApply)
    decreases s.commit + 1 - i
  {
    if i <= s.commit && i <= |s.log| && s.log[i - 1].kind != Unknown {
      if s.log[i - 1].kind == Data {
        ApplyFromKeeps(s.(sm := s.sm + [Applied(i, s.log[i - 1])]), i + 1);
      } else {
        ApplyFromKeeps(s, i + 1);
      }
    }
  }

  /** Applying touches only what applying is about. */
  lemma ApplyKeeps(s: Server)
    ensures var s' := StateMachineApply(s);
            s.sm <= s'.sm && s' == s.(alive := s'.alive, sm := s'.sm, lastApply := s'.lastApply)
  {
    if s.commit > s.lastApply {
      ApplyFromKeeps(s, s.lastApply + 1);
    }
  }

  lemma MaybeCommitKeeps(s: Server)
    ensures Onward(s, MaybeCommit(s)) && MaybeCommit(s).log == s.log
  {
    ApplyKeeps(s.(commit := MajorityMax(s.indices, LastIndex(s))));
  }

  /** Committing leaves role, tables and log alone. */
  lemma MaybeCommitRest(s: Server)
    ensures var s' := MaybeCommit(s);
            s' == s.(alive := s'.alive, commit := s'.commit, sm := s'.sm, lastApply := s'.lastApply)
  {
    ApplyKeeps(s.(commit := MajorityMax(s.indices, LastIndex(s))));
  }

  lemma {:induction false} SendFromKeeps(s: Server, k: nat)
    ensures Onward(s, SendFrom(s, k).server)
    decreases |s.peers| - k
  {
    if k < |s.peers| {
      SendFromKeeps(AgainHeartBeat(s, s.peers[k]), k + 1);
    }
  }

  lemma AcceptKeeps(s: Server, m: Message)
    requires m.AppendEntries?
    ensures var s' := AcceptEntries(s, m).server;
            && s'.term == s.term && s.sm <= s'.sm
            && (s'.log == s.log || s'.log == Reconcile(s.log, m.preLogIndex, m.entries))
  {
    hide Reconcile, EntriesAsserted, StateMachineApply;
    ApplyKeeps(s.(log := Reconcile(s.log, m.preLogIndex, m.entries), commit := m.commitIndex));
  }

  lemma NoteReplyKeeps(s: Server, m: Message)
    requires m.AppendEntriesReply?
    ensures Onward(s, NoteReply(s, m))
  {
    hide MaybeCommit;
    MaybeCommitKeeps(SetMatch(s, m.src, m.reqPreIndex + m.reqNumEntries));
  }

  lemma OnReplyKeeps(s: Server, m: Message)
    requires m.AppendEntriesReply?
    ensures Onward(s, OnAppendEntriesReply(s, m).server)
  {
    hide NoteReply;
    NoteReplyKeeps(s, m);
  }

  /** The accepted entries of a message, as the log sees them. */
  ghost predicate Accepts(s: Server, m: Message) {
    m.AppendEntries? && m.term >= s.term && PreMatches(StepDown(s, m.term).(leader := m.src), m)
  }

  lemma OnEntriesKeeps(s: Server, m: Message)
    requires m.AppendEntries?
    ensures var s' := OnAppendEntries(s, m).server;
            && s.term <= s'.term && s.sm <= s'.sm
            && (s.log <= s'.log
                || (Accepts(s, m) && s'.term == m.term
                    && s'.log == Reconcile(s.log, m.preLogIndex, m.entries)))
  {
    hide AcceptEntries, PreMatches, Reconcile;
    if m.term >= s.term {
      AcceptKeeps(StepDown(s, m.term).(leader := m.src), m);
    }
  }

  lemma DoRequestVoteKeeps(s: Server)
    ensures Onward(s, DoRequestVote(s))
  {
  }

  lemma OnRealVoteKeeps(s: Server, j: Addr, granted: bool)
    ensures Onward(s, OnRealVote(s, j, granted))
  {
  }

  lemma OnPreVoteKeeps(s: Server, j: Addr, logOk: bool, intervalOk: bool)
    ensures Onward(s, OnPreVote(s, j, logOk, intervalOk))
  {
    hide DoRequestVote;
    DoRequestVoteKeeps(NotePreVote(s, j, logOk, intervalOk).(preVoting := false));
  }

  lemma OnVoteReplyKeeps(s: Server, m: Message)
    requires m.RequestVoteReply?
    ensures Onward(s, OnRequestVoteReply(s, m).server)
  {
    hide OnRealVote, OnPreVote;
    OnRealVoteKeeps(s, m.src, m.granted);
    OnPreVoteKeeps(s, m.src, m.logOk, m.intervalOk);
  }

  lemma OnRequestVoteKeeps(s: Server, m: Message, intervalOk: bool)
    requires m.RequestVote?
    ensures Onward(s, OnRequestVote(s, m, intervalOk).server)
  {
  }

  lemma MessageKeeps(s: Server, m: Message, intervalOk: bool)
    requires !m.AppendEntries?
    ensures Onward(s, OnMessage(s, m, intervalOk).server)
  {
    hide OnRequestVote, OnRequestVoteReply, OnAppendEntriesReply;
    match m
    case RequestVote(_, _, _, _, _, _, _) => OnRequestVoteKeeps(s, m, intervalOk);
    case RequestVoteReply(_, _, _, _, _, _, _, _) => OnVoteReplyKeeps(s, m);
    case AppendEntriesReply(_, _, _, _, _, _, _, _) => OnReplyKeeps(s, m);
    case TimeoutNow(_, _, _, _, _, _) =>
  }

  lemma ProposeKeeps(s: Server, value: Bytes)
    ensures Onward(s, Propose(s, value).server)
  {
    hide MaybeCommit, SendFrom;
    var s1 := s.(log := s.log + [Entry(s.term, Data, value)]);
    MaybeCommitKeeps(s1);
    SendFromKeeps(MaybeCommit(s1), 0);
  }

  lemma ElectKeeps(s: Server, preVote: bool)
    ensures Onward(s, Elect(s, preVote).server)
  {
    hide DoRequestVote;
    DoRequestVoteKeeps(s.(preVoting := false));
  }

  lemma HandleKeeps(s: Server, ev: Event)
    requires !ev.Crash? && !(ev.Deliver? && ev.m.AppendEntries?)
    ensures Onward(s, Handle(s, ev).server)
  {
    hide Propose, Elect, OnMessage;
    match ev
    case Deliver(m, intervalOk) => MessageKeeps(s, m, intervalOk);
    case ClientPropose(_, value) => ProposeKeeps(s, value);
    case Timeout(_, preVote) => ElectKeeps(s, preVote);
    case _ =>
  }

  lemma TermOnward(s: Server, ev: Event)
    requires !ev.Crash?
    ensures s.term <= Handle(s, ev).server.term
  {
    hide Handle;
    if ev.Deliver? && ev.m.AppendEntries? {
      HandlesEntries(s, ev);
      OnEntriesKeeps(s, ev.m);
    } else {
      HandleKeeps(s, ev);
    }
  }

  lemma HandlesEntries(s: Server, ev: Event)
    requires ev.Deliver? && ev.m.AppendEntries?
    ensures Handle(s, ev).server == OnAppendEntries(s, ev.m).server
  {
  }

  // ---------- one event of a reachable system

  /** A message whose entries get accepted fits the log of the server that accepts it. */
  lemma AcceptedFits(h: History, s: Server, m: Message)
    requires HistOk(h) && ServerOk(h, s) && MessageOk(h, m) && m.dest == s.me && Accepts(s, m)
    ensures Fits(h, s.log, m.term, m.preLogIndex, m.entries) && Good(h, s.log)
  {
    hide HistOk, ServerOk, MessageOk;
    StepDownOk(h, s, m.term);
    LedByOther(h, s, m);
    RealAddress(h, m.src);
    LeaderNotedAgain(h, StepDown(s, m.term), m.src);
    MessageFits(h, StepDown(s, m.term).(leader := m.src), m);
    ServerLogGood(h, s);
  }

  lemma LeaderNotedAgain(h: History, s: Server, a: Addr)
    requires HistOk(h) && ServerOk(h, s) && LedBy(h, s.term, a) && a != NO_ADDR
    ensures ServerOk(h, s.(leader := a))
  {
    LeaderNoted(h, s, a);
  }

  lemma PlainKeeps(g: System, ev: Event, c: nat)
    requires Inv(g) && Enabled(g, ev) && !ev.Crash?
    requires var s := g.servers[Site(ev)]; c <= |s.log| && Certified(g.hist, s.log, c, s.term)
    ensures var s, s' := g.servers[Site(ev)], Handle(g.servers[Site(ev)], ev).server;
            s.term <= s'.term && s.sm <= s'.sm && Has(s'.log, s.log, c)
  {
    hide Inv, HistOk, ServerOk, Certified, MessageOk;
    var s, s' := g.servers[Site(ev)], Handle(g.servers[Site(ev)], ev).server;
    if ev.Deliver? && ev.m.AppendEntries? {
      OnEntriesKeeps(s, ev.m);
      if Accepts(s, ev.m) && s'.log == Reconcile(s.log, ev.m.preLogIndex, ev.m.entries) {
        SentMessage(g, ev.m);
        ServerOf(g, Site(ev));
        AcceptedFits(g.hist, s, ev.m);
        CertifiedStable(g.hist, g.hist, s.log, c, s.term, ev.m.term) by {
          ExtendsSelf(g.hist);
        }
        CutAbove(g.hist, s.log, ev.m.term, ev.m.preLogIndex, ev.m.entries, c);
      }
    } else {
      HandleKeeps(s, ev);
    }
  }

  lemma HasSelf(l: Log, c: nat)
    requires c <= |l|
    ensures Has(l, l, c)
  {
  }

  lemma EventKeeps(g: System, ev: Event, a: Addr, c: nat)
    requires Inv(g) && a in g.servers
    requires var s := g.servers[a]; c <= |s.log| && Certified(g.hist, s.log, c, s.term)
    ensures a in Next(g, ev).servers
    ensures var s, s' := g.servers[a], Next(g, ev).servers[a];
            s.term <= s'.term && s.sm <= s'.sm && Has(s'.log, s.log, c)
  {
    hide Inv, Certified, HistOk, ServerOk, Record, Handle, Has;
    if Enabled(g, ev) {
      ServerOf(g, Site(ev));
      if Site(ev) == a {
        PlainKeeps(g, if ev.Crash? then ev.during else ev, c);
      } else {
        HasSelf(g.servers[a].log, c);
      }
    } else {
      HasSelf(g.servers[a].log, c);
    }
  }

  /** Along a run, a certified prefix stays in the log it was certified for. */
  lemma {:induction false} RunKeeps(g: System, run: seq<Event>, a: Addr, c: nat)
    requires Inv(g) && a in g.servers
    requires var s := g.servers[a]; c <= |s.log| && Certified(g.hist, s.log, c, s.term)
    ensures var g' := Exec(g, run);
            && Inv(g') && a in g'.servers
            && g.servers[a].term <= g'.servers[a].term && g.servers[a].sm <= g'.servers[a].sm
            && Has(g'.servers[a].log, g.servers[a].log, c)
            && Certified(g'.hist, g'.servers[a].log, c, g'.servers[a].term)
    decreases |run|
  {
    hide Inv, Certified, Extends, Next;
    if run != [] {
      var g1, ev := Exec(g, run[..|run| - 1]), run[|run| - 1];
      RunKeeps(g, run[..|run| - 1], a, c);
      EventKeeps(g1, ev, a, c);
      NextOk(g1, ev);
      var s1, s2, h2 := g1.servers[a], Next(g1, ev).servers[a], Next(g1, ev).hist;
      CertifiedStable(g1.hist, h2, s1.log, c, s1.term, s2.term);
      CertifiedTransfer(h2, s1.log, s2.log, c, s2.term);
    }
  }

  // ---------- the theorems

  /** What a server has once committed stays in its log, through truncations, restarts and crashes; its
      term never goes back and its state machine is never given anything twice or out of order. */
  lemma CommittedNeverTruncated(peersOf: map<Addr, seq<Addr>>, g1: System, g2: System, a: Addr)
    requires SoundCluster(peersOf) && Reachable(peersOf, g1) && Follows(g1, g2) && a in g1.servers
    ensures a in g2.servers
    ensures var s1, s2 := g1.servers[a], g2.servers[a];
            && Has(s2.log, s1.log, s1.commit)
            && s1.term <= s2.term
            && s1.sm <= s2.sm
  {
    hide Inv, Certified, HistOk, Reachable, Configured;
    ReachableOk(peersOf, g1);
    Certificates(g1, a);
    var run: seq<Event> :| g2 == Exec(g1, run);
    RunKeeps(g1, run, a, g1.servers[a].commit);
  }

  /** d holds each data entry of log indexes lo + 1 .. hi once, in log order, and nothing else. */
  ghost predicate Exactly(log: Log, lo: nat, hi: nat, d: seq<Applied>)
    requires lo <= hi <= |log|
  {
    && (forall i | 0 <= i < |d| :: lo < d[i].index <= hi && d[i].entry == log[d[i].index - 1]
                                   && d[i].entry.kind == Data)
    && (forall i, j | 0 <= i < j < |d| :: d[i].index < d[j].index)
    && (forall k | lo <= k < hi && log[k].kind == Data :: Applied(k + 1, log[k]) in d)
  }

  /** DataBetween, entry by entry: each data entry of the range once, in log order, and nothing else. */
  lemma {:induction false} DataBetweenExact(log: Log, lo: nat, hi: nat)
    requires lo <= hi <= |log|
    ensures Exactly(log, lo, hi, DataBetween(log, lo, hi))
  {
    hide Exactly;
    if lo == hi {
      NothingExactly(log, lo);
    } else {
      DataBetweenExact(log, lo, hi - 1);
      ExactlyOneMore(log, lo, hi - 1, DataBetween(log, lo, hi - 1));
      assert DataBetween(log, lo, hi - 1) + [] == DataBetween(log, lo, hi - 1);
    }
  }

  lemma NothingExactly(log: Log, lo: nat)
    requires lo <= |log|
    ensures Exactly(log, lo, lo, [])
  {
  }

  lemma ExactlyOneMore(log: Log, lo: nat, hi: nat, d: seq<Applied>)
    requires lo <= hi < |log| && Exactly(log, lo, hi, d)
    ensures Exactly(log, lo, hi + 1, if log[hi].kind == Data then d + [Applied(hi + 1, log[hi])] else d)
  {
    hide Exactly;
    if log[hi].kind == Data {
      ExactlyWith(log, lo, hi, d, Applied(hi + 1, log[hi]));
    } else {
      ExactlyWithout(log, lo, hi, d);
    }
  }

  lemma ExactlyWithout(log: Log, lo: nat, hi: nat, d: seq<Applied>)
    requires lo <= hi < |log| && Exactly(log, lo, hi, d) && log[hi].kind != Data
    ensures Exactly(log, lo, hi + 1, d)
  {
  }

  lemma ExactlyWith(log: Log, lo: nat, hi: nat, d: seq<Applied>, last: Applied)
    requires lo <= hi < |log| && Exactly(log, lo, hi, d)
    requires last == Applied(hi + 1, log[hi]) && log[hi].kind == Data
    ensures Exactly(log, lo, hi + 1, d + [last])
  {
    OneMoreInOrder(log, lo, hi, d, last);
    OneMoreIsThere(log, lo, hi, d, last);
  }

  lemma OneMoreInOrder(log: Log, lo: nat, hi: nat, d: seq<Applied>, last: Applied)
    requires lo <= hi < |log| && Exactly(log, lo, hi, d)
    requires last == Applied(hi + 1, log[hi]) && log[hi].kind == Data
    ensures var d' := d + [last];
            && (forall i | 0 <= i < |d'| :: lo < d'[i].index <= hi + 1 && d'[i].entry == log[d'[i].index - 1]
                                            && d'[i].entry.kind == Data)
            && (forall i, j | 0 <= i < j < |d'| :: d'[i].index < d'[j].index)
  {
  }

  lemma OneMoreIsThere(log: Log, lo: nat, hi: nat, d: seq<Applied>, last: Applied)
    requires lo <= hi < |log| && Exactly(log, lo, hi, d) && last == Applied(hi + 1, log[hi])
    ensures forall k | lo <= k < hi + 1 && log[k].kind == Data :: Applied(k + 1, log[k]) in d + [last]
  {
    forall k | lo <= k < hi + 1 && log[k].kind == Data
      ensures Applied(k + 1, log[k]) in d + [last]
    {
      if k < hi {
        assert Applied(k + 1, log[k]) in d;
      }
    }
  }

  /** In every reachable state, crashes in the middle of applying included, a server's state machine has
      been given each data entry of its applied prefix exactly once, in order, and nothing else. */
  lemma ExactlyOnceInOrder(peersOf: map<Addr, seq<Addr>>, g: System, a: Addr)
    requires SoundCluster(peersOf) && Reachable(peersOf, g) && a in g.servers
    ensures var s := g.servers[a];
            && s.lastApply <= |s.log|
            && (forall i | 0 <= i < |s.sm| :: 1 <= s.sm[i].index <= s.lastApply
                                              && s.sm[i].entry == s.log[s.sm[i].index - 1])
            && (forall i, j | 0 <= i < j < |s.sm| :: s.sm[i].index < s.sm[j].index)
            && (forall k | 0 <= k < s.lastApply && s.log[k].kind == Data :: Applied(k + 1, s.log[k]) in s.sm)
  {
    hide Inv, Certified, HistOk, Reachable, Configured;
    ReachableOk(peersOf, g);
    Certificates(g, a);
    DataBetweenExact(g.servers[a].log, 0, g.servers[a].lastApply);
  }
}
