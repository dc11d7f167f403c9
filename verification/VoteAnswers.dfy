/** What the handlers of elections, transfers and restarts do in a running cluster, told from outside: what is
    asked, what is answered, which votes and flags are noted, and who stands or leads after that. */
module VoteAnswers {
  import opened RaftTypes
  import opened Quorum
  import opened RaftStep
  import opened Cluster
  import opened Invariant
  import opened ServerSteps
  import opened VoteSteps
  import opened AppendSteps
  import opened Safety
  import opened Theorems
  import opened EntryAnswers

  // ---------- requests for votes

  ghost function LastEntryTerm(log: Log): nat {
    if log == [] then 0 else log[|log| - 1].term
  }

  /** A log that ends like this is at least as up to date as `log`. */
  ghost predicate NotBehind(lastIndex: nat, lastTerm: nat, log: Log) {
    lastTerm > LastEntryTerm(log) || (lastTerm == LastEntryTerm(log) && lastIndex >= |log|)
  }

  ghost function Newer(s: Server, term: nat): Server {
    if term > s.term then
      s.(term := term, vote := NO_ADDR, leader := NO_ADDR, role := Follower, timers := Timers(true, {}, {}))
    else s
  }

  /** The request is of the present term or a later one, its log is not behind, and no vote is cast yet. */
  ghost predicate WouldVote(s: Server, m: Message)
    requires m.RequestVote?
  {
    && m.term >= s.term && (m.term > s.term || s.vote == NO_ADDR)
    && NotBehind(m.lastLogIndex, m.lastLogTerm, s.log)
  }

  ghost predicate Heeds(s: Server, m: Message, s': Server)
    requires m.RequestVote?
  {
    var base := Newer(s, m.term);
    s' == if WouldVote(s, m) then
            base.(role := Follower, timers := Timers(true, {}, {}), vote := if m.preVote then NO_ADDR else m.src)
          else base
  }

  ghost function VoteReply(s: Server, m: Message, term: nat, granted: bool, intervalOk: bool): Message
    requires m.RequestVote?
  {
    RequestVoteReply(m.dest, m.src, term, granted, m.preVote, NotBehind(m.lastLogIndex, m.lastLogTerm, s.log),
                     intervalOk, m.term)
  }

  lemma LogOkIs(h: History, s: Server, m: Message)
    requires ServerOk(h, s) && m.RequestVote?
    ensures LogOk(s, m.lastLogIndex, m.lastLogTerm) <==> NotBehind(m.lastLogIndex, m.lastLogTerm, s.log)
  {
    hide ServerOk;
    OwnLog(h, s);
  }

  lemma VoteAnswer(h: History, s: Server, m: Message, intervalOk: bool)
    requires ServerOk(h, s) && m.RequestVote? && m.src != NO_ADDR
    ensures var e := OnRequestVote(s, m, intervalOk);
            if intervalOk || m.leaderTransfer then
              && Heeds(s, m, e.server)
              && e.sent == [VoteReply(s, m, e.server.term, m.term >= s.term && e.server.vote == m.src, true)]
            else e == Effect(s, [VoteReply(s, m, s.term, false, false)])
  {
    hide ServerOk, LogOk, NotBehind;
    LogOkIs(h, s, m);
  }

  /** In every reachable state a request for a vote is answered truthfully. The reply's log flag is the comparison
      of the logs, its interval flag the interval check or the transfer bit that waives it. If neither allows a
      vote, the server stays as it is and grants nothing. Otherwise it moves to a later term, and votes if it has no
      vote and the log is not behind, except in a pre-vote. */
  lemma VoteRequestAnswered(peersOf: map<Addr, seq<Addr>>, g: System, m: Message, intervalOk: bool)
    requires SoundCluster(peersOf) && Reachable(peersOf, g)
    requires m in g.msgs && m.RequestVote? && m.dest in g.servers && g.servers[m.dest].alive
    ensures var s, g' := g.servers[m.dest], Next(g, Deliver(m, intervalOk));
            && m.dest in g'.servers
            && var s' := g'.servers[m.dest];
            if intervalOk || m.leaderTransfer then
              && Heeds(s, m, s')
              && Does(g, g', m.dest, s',
                      {VoteReply(s, m, s'.term, m.term >= s.term && s'.vote == m.src, true)})
            else Does(g, g', m.dest, s, {VoteReply(s, m, s.term, false, false)})
  {
    hide Inv, HistOk, ServerOk, MessageOk, Reachable, SoundCluster, Heeds, NotBehind;
    ReachableOk(peersOf, g);
    var s, ev := g.servers[m.dest], Deliver(m, intervalOk);
    ServerOf(g, m.dest);
    SentMessage(g, m);
    Sender(g.hist, m);
    TakesOne(g, ev);
    VoteAnswer(g.hist, s, m, intervalOk);
    var e := OnRequestVote(s, m, intervalOk);
    SentOne(VoteReply(s, m, e.server.term, m.term >= s.term && e.server.vote == m.src, true));
    SentOne(VoteReply(s, m, s.term, false, false));
  }

  lemma Sender(h: History, m: Message)
    requires HistOk(h) && MessageOk(h, m)
    ensures m.src != NO_ADDR && m.src in h.members && m.dest in h.members && m.src != m.dest
  {
    hide MessageOk;
    Ends(h, m);
    RealAddress(h, m.src);
  }

  lemma Ends(h: History, m: Message)
    requires MessageOk(h, m)
    ensures m.src in h.members && m.dest in h.members && m.src != m.dest
  {
  }

  /** An armed request-vote timer sends the request: with the present term, the end of the log, the pre-vote bit of
      the candidacy, and the transfer bit as long as the transfer lasts. */
  lemma VoteTimerAnswered(peersOf: map<Addr, seq<Addr>>, g: System, a: Addr, j: Addr)
    requires SoundCluster(peersOf) && Reachable(peersOf, g)
    requires a in g.servers && g.servers[a].alive && j in g.servers[a].timers.requestVotes
    ensures var s, g' := g.servers[a], Next(g, VoteTimer(a, j));
            var lasts := s.leaderTransfer && s.term <= s.transferMaxTerm;
            && s.role == Candidate
            && Does(g, g', a, if lasts then s else s.(leaderTransfer := false, transferMaxTerm := 0),
                    {RequestVote(a, j, s.term, |s.log|, LastEntryTerm(s.log), lasts, s.preVoting)})
  {
    hide Inv, HistOk, ServerOk, Reachable, SoundCluster, LastIndex, LastTerm;
    ReachableOk(peersOf, g);
    var s := g.servers[a];
    ServerOf(g, a);
    ArmedFor(g.hist, s);
    OwnLog(g.hist, s);
    TakesOne(g, VoteTimer(a, j));
    var lasts := s.leaderTransfer && s.term <= s.transferMaxTerm;
    SentOne(RequestVote(a, j, s.term, |s.log|, LastEntryTerm(s.log), lasts, s.preVoting));
  }

  // ---------- standing and winning

  /** Every row of the votes is empty. */
  ghost predicate NoVotes(votes: map<Addr, VoteItem>, peers: seq<Addr>) {
    votes.Keys == PeerSet(peers) && forall j | j in votes :: votes[j] == VoteItem(false, false, false, false)
  }

  /** A candidate of the next term that asks all peers, with its own vote. */
  ghost predicate Stood(s: Server, s': Server) {
    && s' == s.(term := s.term + 1, vote := s.me, role := Candidate, leader := NO_ADDR, preVoting := false,
                votes := s'.votes, timers := Timers(true, PeerSet(s.peers), s.timers.heartbeats))
    && NoVotes(s'.votes, s.peers)
  }

  /** A candidate of the present term that asks all peers how they would vote. */
  ghost predicate PreStood(s: Server, s': Server) {
    && s' == s.(role := Candidate, leader := NO_ADDR, preVoting := true,
                votes := s'.votes, timers := Timers(true, PeerSet(s.peers), s.timers.heartbeats))
    && NoVotes(s'.votes, s.peers)
  }

  /** A leader of the term: its log ends with a no-op, it knows nothing of its peers' logs, and will send from its
      own end on. */
  ghost predicate Leads(s: Server, s': Server) {
    && s' == s.(role := Leader, leader := s.me, leaderTransfer := false, indices := s'.indices,
                log := s.log + [Entry(s.term, Noop, [48])], timers := Timers(false, {}, PeerSet(s.peers)))
    && s'.indices.Keys == PeerSet(s.peers) && forall j | j in s'.indices :: s'.indices[j] == IndexItem(|s.log| + 1, 0)
  }

  lemma StandIs(s: Server)
    requires s.votes.Keys == PeerSet(s.peers) && PeerSet(s.peers) != {}
    ensures Stood(s, DoRequestVote(s.(preVoting := false)))
  {
    var c := BecomeCandidate(s.(preVoting := false, term := s.term + 1)).(vote := s.me);
    var j :| j in PeerSet(s.peers);
    assert j in c.votes && !c.votes[j].grant;
  }

  lemma PreStandIs(s: Server)
    requires s.votes.Keys == PeerSet(s.peers)
    ensures PreStood(s, DoPreVote(s.(preVoting := true)))
  {
  }

  lemma LeadIs(h: History, s: Server)
    requires ServerOk(h, s) && s.role == Candidate
    ensures Leads(s, BecomeLeader(s))
  {
    OwnLog(h, s);
  }

  /** A server on its own in the cluster stands and leads at once. */
  lemma AloneIs(h: History, s: Server)
    requires ServerOk(h, s) && PeerSet(s.peers) == {}
    ensures var c := s.(term := s.term + 1, vote := s.me, preVoting := false, leader := NO_ADDR, role := Candidate);
            Leads(c.(votes := DoRequestVote(s.(preVoting := false)).votes), DoRequestVote(s.(preVoting := false)))
  {
    OwnLog(h, s);
    TableRows(h, s);
    var c := BecomeCandidate(s.(preVoting := false, term := s.term + 1)).(vote := s.me);
    assert c.votes.Keys == {};
  }

  lemma TableRows(h: History, s: Server)
    requires ServerOk(h, s)
    ensures s.votes.Keys == PeerSet(s.peers) == s.indices.Keys
  {
  }

  lemma NoneIsEmpty(peers: seq<Addr>)
    ensures PeerSet(peers) == {} <==> |peers| == 0
  {
    if |peers| > 0 {
      assert peers[0] in PeerSet(peers);
    }
  }

  /** In every reachable state an armed election timer makes its server stand: for a pre-vote in its present term if
      that is on, else for the next one. */
  lemma TimeoutAnswered(peersOf: map<Addr, seq<Addr>>, g: System, a: Addr, preVote: bool)
    requires SoundCluster(peersOf) && Reachable(peersOf, g)
    requires a in g.servers && g.servers[a].alive && g.servers[a].timers.election
    ensures var s, g' := g.servers[a], Next(g, Timeout(a, preVote));
            && a in g'.servers && Does(g, g', a, g'.servers[a], {})
            && (|s.peers| > 0 && preVote ==> PreStood(s, g'.servers[a]))
            && (|s.peers| > 0 && !preVote ==> Stood(s, g'.servers[a]))
            && (|s.peers| == 0 ==>
                  Leads(s.(term := s.term + 1, vote := a, role := Candidate, leader := NO_ADDR, preVoting := false,
                           votes := g'.servers[a].votes), g'.servers[a]))
  {
    hide Inv, HistOk, ServerOk, Reachable, SoundCluster, DoRequestVote, DoPreVote, Leads, Stood, PreStood, PeerSet;
    ReachableOk(peersOf, g);
    var s := g.servers[a];
    ServerOf(g, a);
    ArmedFor(g.hist, s);
    TableRows(g.hist, s);
    NoneIsEmpty(s.peers);
    TakesOne(g, Timeout(a, preVote));
    NoneSent();
    if |s.peers| == 0 {
      AloneIs(g.hist, s);
    } else if preVote {
      PreStandIs(s);
    } else {
      StandIs(s);
    }
  }

  // ---------- replies

  /** The row of a voter that has answered, and granted if it did; its request is not sent again. */
  ghost predicate VoteNoted(s: Server, j: Addr, granted: bool, s': Server)
    requires j in s.votes
  {
    s' == s.(votes := s.votes[j := s.votes[j].(done := true, grant := s.votes[j].grant || granted)],
             timers := Timers(s.timers.election, s.timers.requestVotes - {j}, s.timers.heartbeats))
  }

  ghost predicate FlagsSet(s: Server, m: Message, s': Server)
    requires m.RequestVoteReply? && m.src in s.votes
  {
    var row := s.votes[m.src];
    s' == s.(votes := s.votes[m.src := VoteItem(row.grant, row.done, row.logok || m.logOk,
                                                row.intervalOk || m.intervalOk)],
             timers := Timers(s.timers.election, s.timers.requestVotes - {m.src}, s.timers.heartbeats))
  }

  /** Half of the members or more, this server included. */
  ghost predicate HalfOrMore(s: Server, q: set<Addr>) {
    2 * (|q| + 1) >= |s.votes| + 1
  }

  ghost function Granters(votes: map<Addr, VoteItem>): set<Addr> {
    set j | j in votes && votes[j].grant
  }

  ghost function Approvers(votes: map<Addr, VoteItem>): set<Addr> {
    set j | j in votes && votes[j].logok && votes[j].intervalOk
  }

  /** A real reply: the vote is noted, and a candidate leads when it has a new vote and half of all, its own one
      included. */
  ghost predicate VoteCounted(s: Server, m: Message, s': Server)
    requires m.RequestVoteReply? && m.src in s.votes
  {
    exists noted: Server ::
      && VoteNoted(s, m.src, m.granted, noted)
      && if m.granted && s.role == Candidate && HalfOrMore(s, Granters(noted.votes)) then Leads(noted, s')
         else s' == noted
  }

  /** A pre-vote reply: its flags are noted, and a pre-voting candidate stands when its log is approved by the sender
      and half of all, itself included, have approved both log and timing. */
  ghost predicate FlagsCounted(s: Server, m: Message, s': Server)
    requires m.RequestVoteReply? && m.src in s.votes
  {
    exists noted: Server ::
      && FlagsSet(s, m, noted)
      && if m.logOk && s.role == Candidate && s.preVoting && HalfOrMore(s, Approvers(noted.votes)) then Stood(noted, s')
         else s' == noted
  }

  lemma VoteNotedIs(s: Server, j: Addr, granted: bool)
    requires j in s.votes
    ensures VoteNoted(s, j, granted, NoteVote(s, j, granted))
  {
  }

  lemma FlagsSetIs(s: Server, m: Message)
    requires m.RequestVoteReply? && m.src in s.votes
    ensures FlagsSet(s, m, NotePreVote(s, m.src, m.logOk, m.intervalOk))
  {
  }

  /** A counted grant means that the server stood itself. */
  lemma GrantMeansOwn(h: History, s: Server, m: Message)
    requires HistOk(h) && ServerOk(h, s) && MessageOk(h, m) && m.RequestVoteReply? && m.dest == s.me
    requires !m.preVote && m.granted && m.reqTerm == s.term
    ensures s.vote == s.me && Voted(h, s.term, m.src, s.me)
  {
    hide HistOk;
    Asked(h, m);
    OwnVoteStands(h, s);
  }

  lemma Asked(h: History, m: Message)
    requires MessageOk(h, m) && m.RequestVoteReply? && !m.preVote && m.granted
    ensures Voted(h, m.reqTerm, m.dest, m.dest) && Voted(h, m.reqTerm, m.src, m.dest)
  {
  }

  lemma CountIs(s: Server, s2: Server)
    requires s2.votes.Keys == s.votes.Keys && s2.vote == s2.me
    ensures Majority(s2.votes, true) <==> HalfOrMore(s, Granters(s2.votes))
    ensures MajorityPreVoteOk(s2.votes, true) <==> HalfOrMore(s, Approvers(s2.votes))
  {
    assert Granted(s2.votes) == Granters(s2.votes) && PreVoteOk(s2.votes) == Approvers(s2.votes);
    assert |s2.votes| == |s2.votes.Keys| == |s.votes.Keys| == |s.votes|;
  }

  lemma RealReplyAnswer(h: History, s: Server, m: Message)
    requires HistOk(h) && ServerOk(h, s) && MessageOk(h, m) && m.RequestVoteReply? && m.dest == s.me
    requires !m.preVote && m.reqTerm == s.term && m.src in s.votes
    ensures VoteCounted(s, m, OnRealVote(s, m.src, m.granted))
  {
    hide HistOk, ServerOk, MessageOk, VoteNoted, Leads, HalfOrMore, Granters, NoteVote, BecomeLeader, Majority;
    var noted := NoteVote(s, m.src, m.granted);
    VoteNotedIs(s, m.src, m.granted);
    NotedRest(s, m.src, m.granted, noted);
    if m.granted {
      GrantMeansOwn(h, s, m);
      CountIs(s, noted);
      if s.role == Candidate && HalfOrMore(s, Granters(noted.votes)) {
        Membership(h, s, m.src);
        CountedOk(h, s, m.src, m.granted);
        LeadIs(h, noted);
      }
    }
  }

  lemma NotedRest(s: Server, j: Addr, granted: bool, noted: Server)
    requires j in s.votes && VoteNoted(s, j, granted, noted)
    ensures noted.votes.Keys == s.votes.Keys && noted.role == s.role && noted.vote == s.vote && noted.me == s.me
  {
  }

  lemma Membership(h: History, s: Server, j: Addr)
    requires ServerOk(h, s) && j in s.votes
    ensures j in h.members && j != s.me
  {
  }

  lemma PreReplyAnswer(h: History, s: Server, m: Message)
    requires ServerOk(h, s) && m.RequestVoteReply? && m.src in s.votes
    ensures FlagsCounted(s, m, OnPreVote(s, m.src, m.logOk, m.intervalOk))
  {
    hide ServerOk, Stood, HalfOrMore, Approvers, DoRequestVote, NotePreVote, MajorityPreVoteOk;
    var noted := NotePreVote(s, m.src, m.logOk, m.intervalOk);
    FlagsSetIs(s, m);
    TableRows(h, s);
    FlagRest(s, m, noted);
    CountFlags(s, noted);
    if m.logOk && s.role == Candidate && s.preVoting && HalfOrMore(s, Approvers(noted.votes)) {
      StandIs(noted);
    }
  }

  lemma FlagRest(s: Server, m: Message, noted: Server)
    requires m.RequestVoteReply? && m.src in s.votes && FlagsSet(s, m, noted)
    ensures noted.votes.Keys == s.votes.Keys && noted.role == s.role && noted.preVoting == s.preVoting
    ensures noted.peers == s.peers
  {
  }

  lemma CountFlags(s: Server, s2: Server)
    requires s2.votes.Keys == s.votes.Keys
    ensures MajorityPreVoteOk(s2.votes, true) <==> HalfOrMore(s, Approvers(s2.votes))
  {
    CountIs(s, s2.(vote := s2.me));
  }

  /** In every reachable state a reply to a request for a vote is counted if it is of the present term and to a
      request of it; a later term makes the receiver a follower, and anything else changes nothing. */
  lemma VoteReplyAnswered(peersOf: map<Addr, seq<Addr>>, g: System, m: Message, intervalOk: bool)
    requires SoundCluster(peersOf) && Reachable(peersOf, g)
    requires m in g.msgs && m.RequestVoteReply? && m.dest in g.servers && g.servers[m.dest].alive
    ensures var s, g' := g.servers[m.dest], Next(g, Deliver(m, intervalOk));
            && m.dest in g'.servers && m.src in s.votes
            && var s' := g'.servers[m.dest];
            && Does(g, g', m.dest, s', {})
            && (if m.term < s.term || m.reqTerm != s.term then s' == s
                else if m.term > s.term then s' == Newer(s, m.term)
                else if m.preVote then FlagsCounted(s, m, s')
                else VoteCounted(s, m, s'))
  {
    hide Inv, HistOk, ServerOk, MessageOk, Reachable, SoundCluster, FlagsCounted, VoteCounted, OnRealVote, OnPreVote;
    ReachableOk(peersOf, g);
    var s, ev := g.servers[m.dest], Deliver(m, intervalOk);
    ServerOf(g, m.dest);
    SentMessage(g, m);
    PeerRow(g.hist, s, m);
    TakesOne(g, ev);
    NoneSent();
    if m.term == s.term == m.reqTerm {
      if m.preVote {
        PreReplyAnswer(g.hist, s, m);
      } else {
        RealReplyAnswer(g.hist, s, m);
      }
    }
  }

  lemma PeerRow(h: History, s: Server, m: Message)
    requires HistOk(h) && ServerOk(h, s) && MessageOk(h, m) && m.dest == s.me
    ensures m.src in s.votes && m.src in s.peers
  {
    hide HistOk, MessageOk;
    Ends(h, m);
    assert m.src in PeerSet(s.peers);
  }

  // ---------- transfers

  /** A leader asked to hand over sends the target its term and the end of its log; nobody else sends anything. */
  lemma TransferAnswered(peersOf: map<Addr, seq<Addr>>, g: System, a: Addr, target: Addr)
    requires SoundCluster(peersOf) && Reachable(peersOf, g)
    requires a in g.servers && g.servers[a].alive && target in g.servers && target != a
    ensures var s, g' := g.servers[a], Next(g, ClientTransfer(a, target));
            Does(g, g', a, s, if s.role == Leader then
              {TimeoutNow(a, target, s.term, |s.log|, LastEntryTerm(s.log), false)} else {})
  {
    hide Inv, HistOk, ServerOk, Reachable, SoundCluster, LastIndex, LastTerm;
    ReachableOk(peersOf, g);
    var s := g.servers[a];
    ServerOf(g, a);
    OwnLog(g.hist, s);
    TakesOne(g, ClientTransfer(a, target));
    NoneSent();
    SentOne(TimeoutNow(a, target, s.term, |s.log|, LastEntryTerm(s.log), false));
  }

  /** Whoever gets it may ask for votes as in a transfer for three terms, counted from its own, and moves to a later
      term; as a follower's election timer is armed in any case, the test on the log decides nothing. */
  lemma TimeoutNowAnswered(peersOf: map<Addr, seq<Addr>>, g: System, m: Message, intervalOk: bool)
    requires SoundCluster(peersOf) && Reachable(peersOf, g)
    requires m in g.msgs && m.TimeoutNow? && m.dest in g.servers && g.servers[m.dest].alive
    ensures var s := g.servers[m.dest];
            Does(g, Next(g, Deliver(m, intervalOk)), m.dest,
                 Newer(s, m.term).(leaderTransfer := true, transferMaxTerm := s.term + 3), {})
  {
    hide Inv, HistOk, ServerOk, Reachable, SoundCluster, LastIndex, LastTerm;
    ReachableOk(peersOf, g);
    var s := g.servers[m.dest];
    ServerOf(g, m.dest);
    FollowersArmed(g.hist, s);
    TakesOne(g, Deliver(m, intervalOk));
    NoneSent();
  }

  lemma FollowersArmed(h: History, s: Server)
    requires ServerOk(h, s)
    ensures s.role != Leader ==> s.timers.election
    ensures s.timers.(election := s.timers.election) == s.timers
  {
  }

  // ---------- stopping and starting

  /** A new process has what was stored, is a follower with empty tables, has committed nothing that it knows of,
      and goes on applying behind the last entry its state machine was given. */
  lemma RestartAnswered(peersOf: map<Addr, seq<Addr>>, g: System, a: Addr)
    requires SoundCluster(peersOf) && Reachable(peersOf, g) && a in g.servers
    ensures var s, g' := g.servers[a], Next(g, Restart(a));
            && a in g'.servers
            && var s' := g'.servers[a];
            && Does(g, g', a, s', {})
            && s' == Server(true, a, s.peers, s.term, s.vote, s.log, s.sm, Follower, NO_ADDR, 0, s'.lastApply,
                            s'.votes, s'.indices, false, false, 0, Timers(true, {}, {}))
            && NoVotes(s'.votes, s.peers)
            && s'.indices.Keys == PeerSet(s.peers)
            && (forall j | j in s'.indices :: s'.indices[j] == IndexItem(|s.log| + 1, 0))
            && s'.lastApply == (if s.sm == [] then 0 else s.sm[|s.sm| - 1].index)
  {
    hide Inv, HistOk, ServerOk, Reachable, SoundCluster;
    ReachableOk(peersOf, g);
    ServerOf(g, a);
    TakesOne(g, Restart(a));
    NoneSent();
  }

  /** Stopped and started again, the same object is a follower with its tables and its commit index. */
  lemma BounceAnswered(peersOf: map<Addr, seq<Addr>>, g: System, a: Addr)
    requires SoundCluster(peersOf) && Reachable(peersOf, g) && a in g.servers && g.servers[a].alive
    ensures var s := g.servers[a];
            Does(g, Next(g, Bounce(a)), a,
                 s.(role := Follower, timers := Timers(true, {}, {}),
                    lastApply := if s.sm == [] then 0 else s.sm[|s.sm| - 1].index), {})
  {
    hide Inv, HistOk, ServerOk, Reachable, SoundCluster;
    ReachableOk(peersOf, g);
    ServerOf(g, a);
    TakesOne(g, Bounce(a));
    NoneSent();
  }
}
