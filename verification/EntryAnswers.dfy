/** What the handlers of log replication do in a running cluster, told from outside: which requests are accepted
    and what the log holds then, how a leader's tables follow the replies, and what is sent to whom. */
module EntryAnswers {
  import opened RaftTypes
  import opened Quorum
  import opened RaftStep
  import opened Cluster
  import opened Invariant
  import opened Stability
  import opened Completeness
  import opened ServerSteps
  import opened VoteSteps
  import opened ApplySteps
  import opened AppendSteps
  import opened Safety
  import opened Theorems
  import opened Reconciling

  /** Only server a changed, and only these messages were sent. */
  ghost predicate Does(g: System, g': System, a: Addr, s': Server, sent: set<Message>) {
    g'.servers == g.servers[a := s'] && g'.msgs == g.msgs + sent
  }

  // ---------- requests

  /** logOk of the quoted specification. */
  ghost predicate LogFits(log: Log, m: Message)
    requires m.AppendEntries?
  {
    m.preLogIndex == 0 || (m.preLogIndex <= |log| && log[m.preLogIndex - 1].term == m.preLogTerm)
  }

  ghost predicate HoldsAll(log: Log, m: Message)
    requires m.AppendEntries?
  {
    forall j | 0 <= j < |m.entries| ::
      m.preLogIndex + j < |log| && log[m.preLogIndex + j] == m.entries[j].entry
  }

  /** The log has every entry of the request in its place; a log that had them stays as it is, and any other now
      ends with them. */
  ghost predicate Taken(log: Log, m: Message, log': Log)
    requires m.AppendEntries?
  {
    && HoldsAll(log', m)
    && (HoldsAll(log, m) ==> log' == log)
    && (!HoldsAll(log, m) ==>
          && |log'| == m.preLogIndex + |m.entries| && m.preLogIndex <= |log|
          && log'[..m.preLogIndex] == log[..m.preLogIndex])
  }

  /** A follower of the request's term and sender; all else is as it was. */
  ghost function FollowerOf(s: Server, m: Message): Server
    requires m.AppendEntries?
  {
    s.(term := m.term, vote := if m.term > s.term then NO_ADDR else s.vote, role := Follower, leader := m.src,
       timers := Timers(true, {}, {}))
  }

  /** The commit index moves to c, and the state machine has what is committed of this log. */
  ghost predicate Moved(s: Server, s': Server, c: nat) {
    && s'.commit == c <= |s'.log|
    && s'.lastApply == (if c > s.commit && c > s.lastApply then c else s.lastApply) <= |s'.log|
    && s'.sm == DataBetween(s'.log, 0, s'.lastApply)
  }

  ghost predicate EntriesTaken(s: Server, m: Message, s': Server)
    requires m.AppendEntries?
  {
    && s' == FollowerOf(s, m).(log := s'.log, commit := s'.commit, lastApply := s'.lastApply, sm := s'.sm)
    && Taken(s.log, m, s'.log)
    && Moved(s, s', Max(s.commit, m.commitIndex))
  }

  ghost function ReplyTo(m: Message, term: nat, success: bool, last: nat): Message
    requires m.AppendEntries?
  {
    AppendEntriesReply(m.dest, m.src, term, success, last, m.preLogIndex, |m.entries|, m.term)
  }

  lemma FitsIs(h: History, s: Server, m: Message)
    requires ServerOk(h, s) && m.AppendEntries?
    ensures PreMatches(s, m) <==> LogFits(s.log, m)
  {
    hide ServerOk, LastIndex;
    OwnLog(h, s);
  }

  /** Every entry is held, by its value, exactly if all of them match by their terms. */
  lemma HeldExactly(h: History, log: Log, m: Message)
    requires HistOk(h) && Good(h, log) && m.AppendEntries? && Fits(h, log, m.term, m.preLogIndex, m.entries)
    ensures HoldsAll(log, m) <==> FirstNew(log, m.preLogIndex, m.entries) == |m.entries|
  {
    hide HistOk, Good, Reconcile;
    var pre, es, l := m.preLogIndex, m.entries, LeaderLog(h, m.term);
    var k := FirstNew(log, pre, es);
    MatchedPrefix(h, log, m.term, pre, es);
    NotHeldAt(log, pre, es);
    if k == |es| {
      forall j | 0 <= j < |es|
        ensures pre + j < |log| && log[pre + j] == es[j].entry
      {
        HasAt(log, l, pre + k, pre + j);
      }
    } else {
      OneNotHeld(log, m, k);
    }
  }

  lemma OneNotHeld(log: Log, m: Message, k: nat)
    requires m.AppendEntries? && k < |m.entries| && !Holds(log, m.preLogIndex, m.entries, k)
    ensures !HoldsAll(log, m)
  {
    var e := m.entries[k];
  }

  lemma TakenIs(h: History, log: Log, m: Message)
    requires HistOk(h) && Good(h, log) && m.AppendEntries? && Fits(h, log, m.term, m.preLogIndex, m.entries)
    ensures Taken(log, m, Reconcile(log, m.preLogIndex, m.entries))
  {
    hide HistOk, Good, FirstNew, Reconcile, HoldsAll;
    var pre, es, l := m.preLogIndex, m.entries, LeaderLog(h, m.term);
    HeldExactly(h, log, m);
    ReconcileIs(h, log, m.term, pre, es);
    var log' := Reconcile(log, pre, es);
    if FirstNew(log, pre, es) < |es| {
      assert log'[..pre] == l[..pre] == log[..pre];
      PieceHoldsAll(l, log', m);
    }
  }

  lemma PieceHoldsAll(l: Log, log: Log, m: Message)
    requires m.AppendEntries? && m.preLogIndex + |m.entries| <= |l|
    requires log == l[..m.preLogIndex + |m.entries|]
    requires forall j | 0 <= j < |m.entries| :: m.entries[j].entry == l[m.preLogIndex + j]
    ensures HoldsAll(log, m)
  {
  }

  lemma AdvanceMoves(h: History, s: Server, s0: Server, c: nat)
    requires ServerOk(h, s) && s.alive && c <= |s.log| && s0.commit == s.commit && s0.lastApply == s.lastApply
    ensures var s' := AdvanceCommit(s, c);
            && s' == s.(commit := s'.commit, lastApply := s'.lastApply, sm := s'.sm)
            && Moved(s0, s', Max(s.commit, c))
  {
    hide Certified;
    OwnLog(h, s);
    KnownKinds(h, s.log);
    ApplyAll(s, c);
  }

  lemma AcceptAnswer(h: History, s: Server, m: Message)
    requires HistOk(h) && ServerOk(h, s) && s.alive && s.role == Follower && s.term == m.term
    requires MessageOk(h, m) && m.AppendEntries? && m.dest == s.me && PreMatches(s, m)
    ensures var e := AcceptEntries(s, m);
            && e.server == s.(log := e.server.log, commit := e.server.commit, lastApply := e.server.lastApply,
                              sm := e.server.sm)
            && Taken(s.log, m, e.server.log) && Moved(s, e.server, Max(s.commit, m.commitIndex))
            && e.sent == [ReplyTo(m, m.term, true, |e.server.log|)]
  {
    hide HistOk, ServerOk, MessageOk, Good, Taken, Moved, AdvanceCommit, Reconcile;
    AssertionsHold(h, s, m);
    MessageFits(h, s, m);
    ServerLogGood(h, s);
    LedByOther(h, s, m);
    MessageCertified(h, s, m);
    ReconciledOk(h, s, m.preLogIndex, m.entries);
    TakenIs(h, s.log, m);
    var s1 := s.(log := Reconcile(s.log, m.preLogIndex, m.entries));
    AdvanceMoves(h, s1, s, m.commitIndex);
    OwnLog(h, s1);
  }

  lemma SameMove(s: Server, s2: Server, s': Server, c: nat)
    requires s2.commit == s.commit && s2.lastApply == s.lastApply && Moved(s2, s', c)
    ensures Moved(s, s', c)
  {
  }

  lemma StepDownIs(s: Server, m: Message)
    requires m.AppendEntries? && m.term >= s.term
    ensures StepDown(s, m.term).(leader := m.src) == FollowerOf(s, m)
  {
  }

  /** What becomes of a request of the present term or a later one. */
  lemma EntriesAnswer(h: History, s: Server, m: Message)
    requires HistOk(h) && ServerOk(h, s) && s.alive && MessageOk(h, m) && m.AppendEntries? && m.dest == s.me
    requires m.term >= s.term
    ensures var e := OnAppendEntries(s, m);
            if LogFits(s.log, m) then
              EntriesTaken(s, m, e.server) && e.sent == [ReplyTo(m, m.term, true, |e.server.log|)]
            else e.server == FollowerOf(s, m) && e.sent == [ReplyTo(m, m.term, false, |s.log|)]
  {
    hide HistOk, ServerOk, MessageOk, Taken, Moved, LogFits, PreMatches, AcceptEntries, LastIndex;
    StepDownOk(h, s, m.term);
    LedByOther(h, s, m);
    RealAddress(h, m.src);
    LeaderNoted(h, StepDown(s, m.term), m.src);
    StepDownIs(s, m);
    var s2 := FollowerOf(s, m);
    FitsIs(h, s2, m);
    if LogFits(s.log, m) {
      AcceptAnswer(h, s2, m);
      SameMove(s, s2, AcceptEntries(s2, m).server, Max(s.commit, m.commitIndex));
    } else {
      OwnLog(h, s2);
    }
  }

  lemma TakesOne(g: System, ev: Event)
    requires Enabled(g, ev) && !ev.Crash? && g.servers[Site(ev)].me == Site(ev)
    ensures var e := Handle(g.servers[Site(ev)], ev); Does(g, Next(g, ev), Site(ev), e.server, Sent(e.sent))
  {
    hide Handle, Record;
  }

  lemma SentOne(m: Message)
    ensures Sent([m]) == {m}
  {
  }

  /** In every reachable state an append-entries request that arrives is answered with success exactly if its term
      is not past and the log has its previous entry; then the log has its entries, and the commit index and the
      state machine follow. Nothing else changes but what makes the receiver a follower of the sender. */
  lemma EntriesAnswered(peersOf: map<Addr, seq<Addr>>, g: System, m: Message, intervalOk: bool)
    requires SoundCluster(peersOf) && Reachable(peersOf, g)
    requires m in g.msgs && m.AppendEntries? && m.dest in g.servers && g.servers[m.dest].alive
    ensures var s, g' := g.servers[m.dest], Next(g, Deliver(m, intervalOk));
            && m.dest in g'.servers
            && var s' := g'.servers[m.dest];
            if m.term < s.term then Does(g, g', m.dest, s, {ReplyTo(m, s.term, false, |s.log|)})
            else if LogFits(s.log, m) then
              Does(g, g', m.dest, s', {ReplyTo(m, m.term, true, |s'.log|)}) && EntriesTaken(s, m, s')
            else Does(g, g', m.dest, FollowerOf(s, m), {ReplyTo(m, m.term, false, |s.log|)})
  {
    hide Inv, HistOk, ServerOk, MessageOk, Reachable, SoundCluster, EntriesTaken, LogFits, LastIndex;
    ReachableOk(peersOf, g);
    var s, ev := g.servers[m.dest], Deliver(m, intervalOk);
    ServerOf(g, m.dest);
    SentMessage(g, m);
    TakesOne(g, ev);
    SentOne(ReplyTo(m, s.term, false, |s.log|));
    SentOne(ReplyTo(m, m.term, false, |s.log|));
    SentOne(ReplyTo(m, m.term, true, |Next(g, ev).servers[m.dest].log|));
    if m.term < s.term {
      OwnLog(g.hist, s);
    } else {
      EntriesAnswer(g.hist, s, m);
    }
  }

  // ---------- what a leader sends

  ghost predicate RowFits(s: Server, j: Addr) {
    j in s.indices && 1 <= s.indices[j].next <= |s.log| + 1
  }

  /** The request for a peer: the entry at its next index, if there is one, behind its predecessor's term, and the
      commit index as far as the request reaches. */
  ghost function Due(s: Server, j: Addr): Message
    requires RowFits(s, j)
  {
    var next := s.indices[j].next;
    var entries := if next <= |s.log| then [LogEntry(next, s.log[next - 1])] else [];
    var reach := next - 1 + |entries|;
    AppendEntries(s.me, j, s.term, next - 1, if next == 1 then 0 else s.log[next - 2].term,
                  if s.commit < reach then s.commit else reach, entries)
  }

  lemma SendIs(s: Server, j: Addr)
    requires RowFits(s, j) && SmLast(s.sm) <= |s.log|
    ensures SendAppendEntries(s, j) == Effect(s, [Due(s, j)])
  {
  }

  lemma RowsFit(h: History, s: Server, j: Addr)
    requires HistOk(h) && ServerOk(h, s) && s.role == Leader && j in s.peers
    ensures RowFits(s, j) && SmLast(s.sm) <= |s.log| && s.indices[j].match_ <= |s.log|
  {
    hide HistOk;
    TableFacts(h, s, j);
    OwnLog(h, s);
  }

  lemma SameDue(s: Server, s': Server, j: Addr)
    requires RowFits(s, j) && s'.indices == s.indices && s'.log == s.log && s'.me == s.me
    requires s'.term == s.term && s'.commit == s.commit
    ensures RowFits(s', j) && Due(s', j) == Due(s, j)
  {
  }

  /** The armed heartbeat of a leader brings the peer its request. */
  lemma BeatAnswered(peersOf: map<Addr, seq<Addr>>, g: System, a: Addr, j: Addr)
    requires SoundCluster(peersOf) && Reachable(peersOf, g)
    requires a in g.servers && g.servers[a].alive && j in g.servers[a].timers.heartbeats
    ensures var s, g' := g.servers[a], Next(g, BeatTimer(a, j));
            s.role == Leader && RowFits(s, j) && Does(g, g', a, s, {Due(s, j)})
  {
    hide Inv, HistOk, ServerOk, Reachable, SoundCluster, Due, RowFits, SendAppendEntries;
    ReachableOk(peersOf, g);
    ServerOf(g, a);
    ArmedFor(g.hist, g.servers[a]);
    RowsFit(g.hist, g.servers[a], j);
    SendIs(g.servers[a], j);
    SentOne(Due(g.servers[a], j));
    TakesOne(g, BeatTimer(a, j));
  }

  // ---------- committing

  /** The commit index goes to the largest index that a strict majority has reached, by the match indexes and the
      leader's own log, if it is past the old one and the entry there is of the leader's term. */
  ghost predicate CommitsBy(s: Server, indices: map<Addr, IndexItem>, s': Server) {
    exists k: nat :: CommitsAt(s, indices, s', k)
  }

  ghost predicate CommitsAt(s: Server, indices: map<Addr, IndexItem>, s': Server, k: nat) {
    && k <= |s.log| && IsMajorityMax(indices, |s.log|, k)
    && Moved(s, s', if k > s.commit && s.log[k - 1].term == s.term then k else s.commit)
  }

  lemma MaybeCommitIs(h: History, s: Server)
    requires HistOk(h) && ServerOk(h, s) && s.role == Leader && s.alive
    ensures var s' := MaybeCommit(s);
            s' == s.(commit := s'.commit, lastApply := s'.lastApply, sm := s'.sm) && CommitsBy(s, s.indices, s')
  {
    hide HistOk, ServerOk, IsMajorityMax, LastIndex, DataBetween, StateMachineApply;
    OwnLog(h, s);
    MajorityInLog(h, s);
    StandsStill(h, s);
    var k := MajorityMax(s.indices, |s.log|);
    ServerLogGood(h, s);
    KnownKinds(h, s.log);
    ApplyAll(s, k);
    assert CommitsAt(s, s.indices, MaybeCommit(s), k);
  }

  // ---------- proposals

  /** The requests for the peers from k on, in order. */
  ghost predicate DueFrom(s: Server, k: nat, sent: seq<Message>)
    requires k <= |s.peers| && forall j | j in s.peers :: RowFits(s, j)
  {
    |sent| == |s.peers| - k && forall i | k <= i < |s.peers| :: sent[i - k] == Due(s, s.peers[i])
  }

  lemma AllSameDue(s: Server, s': Server)
    requires forall j | j in s.peers :: RowFits(s, j)
    requires s' == s.(timers := s'.timers)
    ensures forall j | j in s.peers :: RowFits(s', j) && Due(s', j) == Due(s, j)
  {
    forall j | j in s.peers
      ensures RowFits(s', j) && Due(s', j) == Due(s, j)
    {
      SameDue(s, s', j);
    }
  }

  lemma OneMoreDue(s: Server, s1: Server, k: nat, rest: seq<Message>)
    requires k < |s.peers| && s1 == s.(timers := s1.timers)
    requires forall j | j in s.peers :: RowFits(s, j) && RowFits(s1, j)
    requires DueFrom(s1, k + 1, rest)
    ensures DueFrom(s, k, [Due(s, s.peers[k])] + rest)
  {
    hide Due, RowFits;
    AllSameDue(s, s1);
    var sent := [Due(s, s.peers[k])] + rest;
    forall i | k <= i < |s.peers|
      ensures sent[i - k] == Due(s, s.peers[i])
    {
      if i > k {
        assert sent[i - k] == rest[i - (k + 1)];
      }
    }
  }

  lemma {:induction false} SendFromIs(s: Server, k: nat)
    requires k <= |s.peers| && s.alive && SmLast(s.sm) <= |s.log|
    requires forall j | j in s.peers :: RowFits(s, j)
    ensures var e := SendFrom(s, k);
            && e.server == s.(timers := s.timers.(heartbeats := s.timers.heartbeats + PeerSet(s.peers[k..])))
            && DueFrom(s, k, e.sent)
    decreases |s.peers| - k
  {
    hide SendAppendEntries, Due, RowFits, DueFrom;
    if k == |s.peers| {
      assert PeerSet(s.peers[k..]) == {};
      NothingDue(s);
    } else {
      var j := s.peers[k];
      var s1 := AgainHeartBeat(s, j);
      SendIs(s, j);
      AllSameDue(s, s1);
      SendFromIs(s1, k + 1);
      OneMoreDue(s, s1, k, SendFrom(s1, k + 1).sent);
      assert s.peers[k..] == [j] + s.peers[k + 1..];
      assert PeerSet(s.peers[k..]) == {j} + PeerSet(s.peers[k + 1..]);
    }
  }

  lemma NothingDue(s: Server)
    requires forall j | j in s.peers :: RowFits(s, j)
    ensures DueFrom(s, |s.peers|, [])
  {
  }

  /** A proposal adds the entry, commits what that commits, and sends each peer, in order, what its row says. */
  ghost predicate Proposed(s: Server, value: Bytes, s': Server) {
    && s' == s.(log := s.log + [Entry(s.term, Data, value)],
                commit := s'.commit, lastApply := s'.lastApply, sm := s'.sm,
                timers := s.timers.(heartbeats := s.timers.heartbeats + PeerSet(s.peers)))
    && CommitsBy(s.(log := s'.log), s.indices, s')
    && forall j | j in s.peers :: RowFits(s', j)
  }

  lemma ProposeAnswer(h: History, s: Server, value: Bytes)
    requires HistOk(h) && ServerOk(h, s) && s.alive && s.role == Leader
    ensures var e := Propose(s, value);
            && Proposed(s, value, e.server)
            && |e.sent| == |s.peers| && forall i | 0 <= i < |s.peers| :: e.sent[i] == Due(e.server, s.peers[i])
  {
    hide HistOk, ServerOk, CommitsBy, Due, RowFits, MaybeCommit, SendFrom;
    var entry := Entry(s.term, Data, value);
    var h', s1 := Appended(h, s, entry), s.(log := s.log + [entry]);
    AppendOk(h, s, entry);
    MaybeCommitIs(h', s1);
    MaybeCommitOk(h', s1);
    var c := MaybeCommit(s1);
    forall j | j in s.peers
      ensures RowFits(c, j)
    {
      RowsFit(h', c, j);
    }
    OwnLog(h', c);
    SendFromIs(c, 0);
    assert s.peers[0..] == s.peers;
    SameCommit(s1, s.indices, c, SendFrom(c, 0).server);
    AllSameDue(c, SendFrom(c, 0).server);
    assert DueFrom(c, 0, SendFrom(c, 0).sent);
  }

  lemma SameCommit(s: Server, indices: map<Addr, IndexItem>, c: Server, c': Server)
    requires CommitsBy(s, indices, c) && c' == c.(timers := c'.timers, indices := c'.indices)
    ensures CommitsBy(s, indices, c')
  {
    var k: nat :| CommitsAt(s, indices, c, k);
    assert CommitsAt(s, indices, c', k);
  }

  lemma SentDue(s: Server, sent: seq<Message>)
    requires forall j | j in s.peers :: RowFits(s, j)
    requires |sent| == |s.peers| && forall i | 0 <= i < |s.peers| :: sent[i] == Due(s, s.peers[i])
    ensures Sent(sent) == set j | j in s.peers :: Due(s, j)
  {
    hide Due;
    var all := set j | j in s.peers :: Due(s, j);
    forall m | m in Sent(sent)
      ensures m in all
    {
      var i :| 0 <= i < |sent| && sent[i] == m;
      assert s.peers[i] in s.peers;
    }
    forall m | m in all
      ensures m in Sent(sent)
    {
      var j :| j in s.peers && m == Due(s, j);
      var i :| 0 <= i < |s.peers| && s.peers[i] == j;
      assert sent[i] in sent;
    }
  }

  /** In every reachable state a proposal to a leader adds the entry and sends one request to each peer: the new
      entry to one that was caught up. To any other server it does nothing. */
  lemma ProposalAnswered(peersOf: map<Addr, seq<Addr>>, g: System, a: Addr, value: Bytes)
    requires SoundCluster(peersOf) && Reachable(peersOf, g) && a in g.servers && g.servers[a].alive
    ensures var s, g' := g.servers[a], Next(g, ClientPropose(a, value));
            && a in g'.servers
            && var s' := g'.servers[a];
            if s.role == Leader then
              && Proposed(s, value, s') && Does(g, g', a, s', set j | j in s'.peers :: Due(s', j))
              && (forall j | j in s.peers && s.indices[j].next == |s.log| + 1 ::
                    Due(s', j).entries == [LogEntry(|s.log| + 1, Entry(s.term, Data, value))])
            else Does(g, g', a, s, {})
  {
    hide Inv, HistOk, ServerOk, Reachable, SoundCluster, Propose, CommitsBy;
    ReachableOk(peersOf, g);
    var s := g.servers[a];
    ServerOf(g, a);
    TakesOne(g, ClientPropose(a, value));
    if s.role == Leader {
      ProposeAnswer(g.hist, s, value);
      SentDue(Propose(s, value).server, Propose(s, value).sent);
    } else {
      NotProposed(s, value);
    }
  }

  lemma NotProposed(s: Server, value: Bytes)
    requires s.role != Leader
    ensures Propose(s, value) == Effect(s, []) && Sent([]) == {}
  {
  }

  // ---------- replies

  /** After a failure the next index goes back by one, but not below 1, and not past the end of the peer's log. */
  ghost function Backed(next: nat, last: nat): nat {
    var lower := if next > 1 then next - 1 else 1;
    if lower > last + 1 then last + 1 else lower
  }

  ghost predicate BacksUp(s: Server, m: Message, s': Server)
    requires m.AppendEntriesReply? && m.src in s.indices
  {
    s' == s.(indices := s.indices[m.src := IndexItem(Backed(s.indices[m.src].next, m.lastLogIndex),
                                                     s.indices[m.src].match_)],
             timers := s'.timers)
  }

  /** After a success the match index is at least what the request reached, and the next one is behind it. */
  ghost predicate MovesOn(s: Server, m: Message, s': Server)
    requires m.AppendEntriesReply? && m.src in s.indices
  {
    var row, reached := s.indices[m.src], m.reqPreIndex + m.reqNumEntries;
    var match_ := if row.match_ > reached then row.match_ else reached;
    && s' == s.(indices := s.indices[m.src := IndexItem(match_ + 1, match_)], timers := s'.timers,
                commit := s'.commit, lastApply := s'.lastApply, sm := s'.sm)
    && (if row.match_ > reached then Moved(s, s', s.commit)
        else CommitsBy(s, s.indices[m.src := IndexItem(row.next, reached)], s'))
  }

  /** The next request goes out at once, as long as there is an entry for it. */
  ghost predicate GoesOn(s: Server, s': Server, j: Addr, sent: set<Message>) {
    && RowFits(s', j)
    && s'.timers == (if s'.indices[j].next <= |s'.log| then s.timers.(heartbeats := s.timers.heartbeats + {j})
                     else s.timers)
    && sent == (if s'.indices[j].next <= |s'.log| then {Due(s', j)} else {})
  }

  lemma BacksUpIs(s: Server, m: Message)
    requires m.AppendEntriesReply? && RowFits(s, m.src) && !m.success
    ensures NoteReply(s, m) == s.(indices := s.indices[m.src :=
              IndexItem(Backed(s.indices[m.src].next, m.lastLogIndex), s.indices[m.src].match_)])
  {
  }

  lemma MovesOnIs(h: History, s: Server, m: Message)
    requires HistOk(h) && ServerOk(h, s) && s.role == Leader && s.alive
    requires m.AppendEntriesReply? && m.src in s.peers && m.success
    requires Acked(h, s.term, m.src, m.reqPreIndex + m.reqNumEntries)
    ensures m.src in s.indices && MovesOn(s, m, NoteReply(s, m)) && NoteReply(s, m).timers == s.timers
  {
    hide HistOk, ServerOk, CommitsBy, MaybeCommit;
    var j, k := m.src, m.reqPreIndex + m.reqNumEntries;
    RowsFit(h, s, j);
    if MatchOf(s, j) <= k {
      RowOk(h, s, j, NextOf(s, j), k);
      MaybeCommitIs(h, SetMatch(s, j, k));
      SameBase(s, SetMatch(s, j, k), s.indices[j := IndexItem(NextOf(s, j), k)], MaybeCommit(SetMatch(s, j, k)));
      SameCommit(s, s.indices[j := IndexItem(NextOf(s, j), k)], MaybeCommit(SetMatch(s, j, k)), NoteReply(s, m));
    } else {
      StandsStill(h, s);
    }
  }

  lemma StandsStill(h: History, s: Server)
    requires ServerOk(h, s)
    ensures s.sm == DataBetween(s.log, 0, s.lastApply) && s.commit <= |s.log| && s.lastApply <= |s.log|
  {
  }

  lemma SameBase(s: Server, s1: Server, indices: map<Addr, IndexItem>, s': Server)
    requires CommitsBy(s1, indices, s') && s1 == s.(indices := s1.indices)
    ensures CommitsBy(s, indices, s')
  {
    var k: nat :| CommitsAt(s1, indices, s', k);
    assert CommitsAt(s, indices, s', k);
  }

  lemma ReplyNoted(h: History, s: Server, m: Message)
    requires HistOk(h) && ServerOk(h, s) && s.alive && s.role == Leader && MessageOk(h, m) && m.dest == s.me
    requires m.AppendEntriesReply? && m.term == s.term == m.reqTerm
    ensures m.src in s.indices
    ensures var s' := NoteReply(s, m);
            && ServerOk(h, s') && s'.alive && s'.role == Leader && s'.log == s.log && s'.timers == s.timers
            && s'.me == s.me && s'.peers == s.peers && m.src in s.peers
            && (if m.success then MovesOn(s, m, s') else BacksUp(s, m, s'))
  {
    hide HistOk, ServerOk, MovesOn, NoteReply;
    ReplyAddress(h, s, m);
    RowsFit(h, s, m.src);
    if m.success {
      SuccessReached(h, m);
      SuccessNoted(h, s, m);
      MovesOnIs(h, s, m);
    } else {
      FailureNoted(h, s, m);
      BacksUpIs(s, m);
    }
  }

  lemma SuccessReached(h: History, m: Message)
    requires MessageOk(h, m) && m.AppendEntriesReply? && m.success
    ensures Acked(h, m.reqTerm, m.src, m.reqPreIndex + m.reqNumEntries)
  {
  }

  lemma ReplyAnswer(h: History, s: Server, m: Message)
    requires HistOk(h) && ServerOk(h, s) && s.alive && s.role == Leader && MessageOk(h, m) && m.dest == s.me
    requires m.AppendEntriesReply? && m.term == s.term == m.reqTerm
    ensures m.src in s.indices
    ensures var e := OnAppendEntriesReply(s, m);
            && (if m.success then MovesOn(s, m, e.server) else BacksUp(s, m, e.server))
            && GoesOn(s, e.server, m.src, Sent(e.sent))
  {
    hide HistOk, ServerOk, MovesOn, NoteReply, SendAppendEntries, Due, MessageOk;
    ReplyNoted(h, s, m);
    var s1 := NoteReply(s, m);
    RowsFit(h, s1, m.src);
    OwnLog(h, s1);
    SendIs(s1, m.src);
    SameDue(s1, AgainHeartBeat(s1, m.src), m.src);
    SentOne(Due(s1, m.src));
    NoneSent();
    if m.success {
      TimersAside(s, m, s1, AgainHeartBeat(s1, m.src));
    }
  }

  lemma NoneSent()
    ensures Sent([]) == {}
  {
  }

  lemma TimersAside(s: Server, m: Message, s1: Server, s2: Server)
    requires m.AppendEntriesReply? && m.src in s.indices && MovesOn(s, m, s1) && s2 == s1.(timers := s2.timers)
    ensures MovesOn(s, m, s2)
  {
    hide CommitsBy;
    var row, reached := s.indices[m.src], m.reqPreIndex + m.reqNumEntries;
    if row.match_ <= reached {
      SameCommit(s, s.indices[m.src := IndexItem(row.next, reached)], s1, s2);
    }
  }

  /** In every reachable state a leader that gets a reply of its term moves the peer's next index back after a
      failure and on after a success, commits what the new match index commits, and sends the next request. A reply
      of a later term makes it a follower; one of another term or to another request does nothing. */
  lemma ReplyAnswered(peersOf: map<Addr, seq<Addr>>, g: System, m: Message, intervalOk: bool)
    requires SoundCluster(peersOf) && Reachable(peersOf, g) && m in g.msgs && m.AppendEntriesReply?
    requires m.dest in g.servers && g.servers[m.dest].alive && g.servers[m.dest].role == Leader
    ensures var s, g' := g.servers[m.dest], Next(g, Deliver(m, intervalOk));
            && m.dest in g'.servers && m.src in s.indices
            && var s' := g'.servers[m.dest];
            if m.term < s.term || m.reqTerm != s.term then Does(g, g', m.dest, s, {})
            else if m.term > s.term then
              && Does(g, g', m.dest, s', {})
              && s' == s.(term := m.term, vote := NO_ADDR, leader := NO_ADDR, role := Follower,
                          timers := Timers(true, {}, {}))
            else
              && (if m.success then MovesOn(s, m, s') else BacksUp(s, m, s'))
              && exists sent: set<Message> :: GoesOn(s, s', m.src, sent) && Does(g, g', m.dest, s', sent)
  {
    hide Inv, HistOk, ServerOk, MessageOk, Reachable, SoundCluster, MovesOn, BacksUp, GoesOn, NoteReply;
    hide SendAppendEntries;
    ReachableOk(peersOf, g);
    var s, ev := g.servers[m.dest], Deliver(m, intervalOk);
    ServerOf(g, m.dest);
    SentMessage(g, m);
    ReplyAddress(g.hist, s, m);
    RowsFit(g.hist, s, m.src);
    TakesOne(g, ev);
    NoneSent();
    if m.term == s.term == m.reqTerm {
      ReplyAnswer(g.hist, s, m);
    }
  }
}
