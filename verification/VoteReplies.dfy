/** Where replies to requests for votes come from: each was sent on the delivery of the request that it answers,
    and its flags are what the answering server checked then. Holds for clusters of any size. */
module VoteReplies {
  import opened RaftTypes
  import opened Quorum
  import opened RaftStep
  import opened Cluster
  import opened Frames

  /** The end of the candidate's log, as its request tells it, is not behind what the server reports of its own. */
  ghost predicate EndNotBehind(m: Message, s: Server)
    requires m.RequestVote?
  {
    m.lastLogTerm > LastTerm(s) || (m.lastLogTerm == LastTerm(s) && m.lastLogIndex >= LastIndex(s))
  }

  /** m answers the request ask, which s got with this outcome of its interval check. */
  ghost predicate Tells(s: Server, ask: Message, intervalOk: bool, m: Message) {
    && ask.RequestVote? && m.RequestVoteReply?
    && m.src == ask.dest && m.dest == ask.src && m.reqTerm == ask.term && m.preVote == ask.preVote
    && (m.intervalOk <==> intervalOk || ask.leaderTransfer)
    && (m.logOk <==> EndNotBehind(ask, s))
    && (m.granted ==> m.intervalOk)
  }

  /** Event i of the run delivers the request that m answers. */
  ghost predicate AnswersEvent(peersOf: map<Addr, seq<Addr>>, run: seq<Event>, i: nat, m: Message) {
    && i < |run| && run[i].Deliver? && Enabled(After(peersOf, run[..i]), run[i])
    && Tells(After(peersOf, run[..i]).servers[run[i].m.dest], run[i].m, run[i].intervalOk, m)
  }

  ghost predicate NoAnswer(m: Message) {
    !m.RequestVoteReply?
  }

  lemma {:induction false} SendsNoAnswer(s: Server, k: nat)
    ensures forall m | m in SendFrom(s, k).sent :: NoAnswer(m)
    decreases |s.peers| - k
  {
    if k < |s.peers| {
      SendsNoAnswer(AgainHeartBeat(s, s.peers[k]), k + 1);
    }
  }

  lemma ProposeNoAnswer(s: Server, value: Bytes)
    ensures forall m | m in Propose(s, value).sent :: NoAnswer(m)
  {
    hide MaybeCommit, SendFrom;
    SendsNoAnswer(MaybeCommit(s.(log := s.log + [Entry(s.term, Data, value)])), 0);
  }

  lemma ReplyNoAnswer(s: Server, m: Message)
    requires m.AppendEntriesReply?
    ensures forall r | r in OnAppendEntriesReply(s, m).sent :: NoAnswer(r)
  {
    hide NoteReply, LastIndex, GetTerm;
  }

  lemma EntriesNoAnswer(s: Server, m: Message)
    requires m.AppendEntries?
    ensures forall r | r in OnAppendEntries(s, m).sent :: NoAnswer(r)
  {
    hide Reconcile, EntriesAsserted, AdvanceCommit, LastIndex, PreMatches;
  }

  lemma RequestAnswer(s: Server, m: Message, intervalOk: bool)
    requires m.RequestVote?
    ensures forall r | r in OnRequestVote(s, m, intervalOk).sent :: Tells(s, m, intervalOk, r)
  {
    hide LastIndex, LastTerm;
  }

  lemma OthersNoAnswer(s: Server, ev: Event)
    requires ev.Timeout? || ev.VoteTimer? || ev.BeatTimer? || ev.ClientTransfer? || ev.Restart? || ev.Bounce?
             || (ev.Deliver? && (ev.m.TimeoutNow? || ev.m.RequestVoteReply?))
    ensures forall r | r in Handle(s, ev).sent :: NoAnswer(r)
  {
    hide LastIndex, LastTerm, GetTerm, DoRequestVote, DoPreVote, Reboot, StopStart, OnRealVote, OnPreVote;
  }

  lemma HandleAnswers(s: Server, ev: Event, r: Message)
    requires !ev.Crash? && r in Handle(s, ev).sent && r.RequestVoteReply?
    ensures ev.Deliver? && Tells(s, ev.m, ev.intervalOk, r)
  {
    hide Propose, OnAppendEntries, OnAppendEntriesReply, OnRequestVoteReply, OnRequestVote, Elect, RequestVoteRpc;
    hide HeartBeat, LeaderTransfer, OnTimeoutNow, Tells;
    match ev
    case ClientPropose(_, value) => ProposeNoAnswer(s, value);
    case Deliver(m, intervalOk) =>
      match m {
        case RequestVote(_, _, _, _, _, _, _) => RequestAnswer(s, m, intervalOk);
        case AppendEntries(_, _, _, _, _, _, _) => EntriesNoAnswer(s, m);
        case AppendEntriesReply(_, _, _, _, _, _, _, _) => ReplyNoAnswer(s, m);
        case _ => OthersNoAnswer(s, ev);
      }
    case _ => OthersNoAnswer(s, ev);
  }

  lemma NewMessage(g: System, ev: Event, r: Message)
    requires r in Next(g, ev).msgs && r !in g.msgs
    ensures Enabled(g, ev) && !ev.Crash? && Site(ev) in g.servers && r in Handle(g.servers[Site(ev)], ev).sent
  {
    hide Handle, Record;
  }

  /** Every reply in the network was sent on the delivery of its request. */
  lemma {:induction false} ReplyOrigin(peersOf: map<Addr, seq<Addr>>, run: seq<Event>, r: Message)
    requires r in After(peersOf, run).msgs && r.RequestVoteReply?
    ensures exists i: nat :: AnswersEvent(peersOf, run, i, r)
    decreases |run|
  {
    hide Next, Handle, Tells, Init, Enabled;
    if run == [] {
      NothingSent(peersOf);
    } else {
      var most, ev := run[..|run| - 1], run[|run| - 1];
      if r in After(peersOf, most).msgs {
        ReplyOrigin(peersOf, most, r);
        var i: nat :| AnswersEvent(peersOf, most, i, r);
        AnswersStill(peersOf, run, i, r);
      } else {
        NewMessage(After(peersOf, most), ev, r);
        HandleAnswers(After(peersOf, most).servers[Site(ev)], ev, r);
        assert AnswersEvent(peersOf, run, |run| - 1, r);
      }
    }
  }

  lemma NothingSent(peersOf: map<Addr, seq<Addr>>)
    ensures Init(peersOf).msgs == {}
  {
  }

  lemma AnswersStill(peersOf: map<Addr, seq<Addr>>, run: seq<Event>, i: nat, r: Message)
    requires run != [] && AnswersEvent(peersOf, run[..|run| - 1], i, r)
    ensures AnswersEvent(peersOf, run, i, r)
  {
    hide Exec, Init, Tells, Enabled;
    assert run[..|run| - 1][..i] == run[..i] && run[..|run| - 1][i] == run[i];
  }
}
