/** Elections when processes die between any two of their writes.

  A vote that is left over in a new term can be one that no log test was made for, but it is still one vote in
  one term. So two leaders of a term stay impossible, for exactly the cluster sizes for which they are without
  such crashes. The proof is about the network alone: what votes were ever asked for and granted.
*/
module TornElections {
  import opened RaftTypes
  import opened Quorum
  import opened RaftStep
  import opened Cluster
  import opened Theorems
  import opened TornWrites
  import opened Frames
  import Campaigns
  import CutLog
  import Durability
  import EvenCluster
  import TornRun
  import Safety

  // ---------- votes in the network

  ghost predicate IsAsk(m: Message, term: nat, c: Addr) {
    m.RequestVote? && !m.preVote && m.term == term && m.src == c
  }

  ghost predicate IsGrant(m: Message, term: nat, v: Addr, c: Addr) {
    m.RequestVoteReply? && !m.preVote && m.granted && m.reqTerm == term && m.src == v && m.dest == c
  }

  ghost predicate HasAsked(msgs: set<Message>, term: nat, c: Addr) {
    exists m :: m in msgs && IsAsk(m, term, c)
  }

  ghost predicate HasGranted(msgs: set<Message>, term: nat, v: Addr, c: Addr) {
    exists m :: m in msgs && IsGrant(m, term, v, c)
  }

  /** v has told the network that its vote of the term is c's. */
  ghost predicate Cast(msgs: set<Message>, term: nat, v: Addr, c: Addr) {
    HasGranted(msgs, term, v, c) || (v == c && HasAsked(msgs, term, c))
  }

  /** The server's vote of the term is c's, or it is past the term. */
  ghost predicate Bound(s: Server, term: nat, c: Addr) {
    s.term > term || (s.term == term && s.vote == c)
  }

  ghost predicate WonBy(msgs: set<Message>, all: set<Addr>, term: nat, a: Addr, q: set<Addr>) {
    q <= all && a in q && 2 * |q| > |all| && forall v | v in q && v != a :: HasGranted(msgs, term, v, a)
  }

  /** The network shows that a won the term. */
  ghost predicate Won(msgs: set<Message>, all: set<Addr>, term: nat, a: Addr) {
    exists q: set<Addr> :: WonBy(msgs, all, term, a, q)
  }

  // ---------- the invariant

  ghost predicate PeersFit(all: set<Addr>, s: Server) {
    s.me in all && NO_ADDR !in all && PeerSet(s.peers) == all - {s.me}
  }

  ghost predicate TableOk(msgs: set<Message>, s: Server) {
    && s.votes.Keys == PeerSet(s.peers) && s.timers.requestVotes <= PeerSet(s.peers)
    && (s.role == Candidate ==> forall j | j in s.votes && s.votes[j].grant :: HasGranted(msgs, s.term, j, s.me))
    && (s.role == Candidate && !s.preVoting ==> s.vote == s.me)
  }

  ghost predicate VoterFine(msgs: set<Message>, all: set<Addr>, s: Server) {
    && PeersFit(all, s) && TableOk(msgs, s)
    && (s.role == Leader ==> Won(msgs, all, s.term, s.me))
  }

  ghost predicate VoteMessage(m: Message) {
    m.RequestVote? || m.RequestVoteReply?
  }

  ghost predicate SentBetween(all: set<Addr>, msgs: set<Message>) {
    forall m | m in msgs && VoteMessage(m) :: m.src in all && m.dest in all && m.src != m.dest
  }

  ghost predicate VotesBind(g: System) {
    forall term: nat, v: Addr, c: Addr | Cast(g.msgs, term, v, c) ::
      v in g.servers && c in g.servers && Bound(g.servers[v], term, c) && HasAsked(g.msgs, term, c)
  }

  ghost predicate OneVote(msgs: set<Message>) {
    forall term: nat, v: Addr, c: Addr, d: Addr | Cast(msgs, term, v, c) && Cast(msgs, term, v, d) :: c == d
  }

  ghost predicate ElectInv(g: System, all: set<Addr>) {
    && g.servers.Keys == all && SoundSize(|all|)
    && (forall a | a in g.servers :: g.servers[a].me == a && VoterFine(g.msgs, all, g.servers[a]))
    && SentBetween(all, g.msgs) && VotesBind(g) && OneVote(g.msgs)
  }

  // ---------- what a handler does

  /** The term only grows, and a vote stands until it does. */
  ghost predicate KeepsWord(s: Server, s': Server) {
    && s'.me == s.me && s.term <= s'.term
    && (s'.term == s.term && s.vote != NO_ADDR ==> s'.vote == s.vote)
  }

  /** A vote message shows only what its sender's vote is, and a grant only what was asked for. */
  ghost predicate Shows(msgs: set<Message>, all: set<Addr>, s: Server, m: Message) {
    VoteMessage(m) ==>
      && m.src == s.me && m.dest in all - {s.me}
      && (m.RequestVote? && !m.preVote ==> m.term == s.term && s.vote == s.me)
      && (m.RequestVoteReply? && !m.preVote && m.granted ==>
            m.reqTerm == s.term && s.vote == m.dest && HasAsked(msgs, m.reqTerm, m.dest))
  }

  ghost predicate Fine(msgs: set<Message>, all: set<Addr>, s: Server, e: Effect) {
    && KeepsWord(s, e.server) && VoterFine(msgs, all, e.server)
    && forall m | m in e.sent :: Shows(msgs, all, e.server, m)
  }

  /** Nothing that elections are about has changed. */
  ghost predicate Passive(s: Server, s': Server) {
    && s'.me == s.me && s'.peers == s.peers && s'.term == s.term && s'.vote == s.vote && s'.role == s.role
    && s'.votes == s.votes && s'.preVoting == s.preVoting && s'.timers.requestVotes == s.timers.requestVotes
  }

  /** A follower that has kept its word. */
  ghost predicate Down(s: Server, s': Server) {
    && KeepsWord(s, s') && s'.peers == s.peers && s'.role == Follower
    && s'.votes.Keys == PeerSet(s.peers) && s'.timers.requestVotes == {}
  }

  lemma PassiveFine(msgs: set<Message>, all: set<Addr>, s: Server, e: Effect)
    requires VoterFine(msgs, all, s) && Passive(s, e.server)
    requires forall m | m in e.sent :: !VoteMessage(m)
    ensures Fine(msgs, all, s, e)
  {
    hide Won;
  }

  lemma DownFine(msgs: set<Message>, all: set<Addr>, s: Server, e: Effect)
    requires VoterFine(msgs, all, s) && Down(s, e.server)
    requires forall m | m in e.sent :: !VoteMessage(m)
    ensures Fine(msgs, all, s, e)
  {
  }

  lemma StepDownDown(s: Server, term: nat)
    requires s.term <= term && s.votes.Keys == PeerSet(s.peers)
    ensures Down(s, StepDown(s, term))
  {
  }

  // ---------- handlers that send entries

  lemma {:induction false} SendsEntries(s: Server, k: nat)
    ensures Passive(s, SendFrom(s, k).server) && forall m | m in SendFrom(s, k).sent :: !VoteMessage(m)
    decreases |s.peers| - k
  {
    if k < |s.peers| {
      SendsEntries(AgainHeartBeat(s, s.peers[k]), k + 1);
    }
  }

  lemma ProposeFine(msgs: set<Message>, all: set<Addr>, s: Server, value: Bytes)
    requires VoterFine(msgs, all, s)
    ensures Fine(msgs, all, s, Propose(s, value))
  {
    hide MaybeCommit, SendFrom, VoterFine, Fine;
    var s1 := s.(log := s.log + [Entry(s.term, Data, value)]);
    Durability.MaybeCommitRest(s1);
    SendsEntries(MaybeCommit(s1), 0);
    PassiveFine(msgs, all, s, Propose(s, value));
  }

  lemma ReplyFine(msgs: set<Message>, all: set<Addr>, s: Server, m: Message)
    requires VoterFine(msgs, all, s) && m.AppendEntriesReply?
    ensures Fine(msgs, all, s, OnAppendEntriesReply(s, m))
  {
    hide NoteReply, Fine, LastIndex, VoterFine, GetTerm;
    var e := OnAppendEntriesReply(s, m);
    if m.reqTerm == s.term && s.role == Leader && m.term > s.term {
      TableKeys(msgs, all, s);
      StepDownDown(s, m.term);
      DownFine(msgs, all, s, e);
    } else {
      NotePassive(s, m);
      PassiveFine(msgs, all, s, e);
    }
  }

  lemma TableKeys(msgs: set<Message>, all: set<Addr>, s: Server)
    requires VoterFine(msgs, all, s)
    ensures s.votes.Keys == PeerSet(s.peers) == all - {s.me} && s.me in all && NO_ADDR !in all
  {
  }

  lemma NotePassive(s: Server, m: Message)
    requires m.AppendEntriesReply?
    ensures Passive(s, NoteReply(s, m))
  {
    hide MaybeCommit;
    Durability.MaybeCommitRest(SetMatch(s, m.src, m.reqPreIndex + m.reqNumEntries));
  }

  lemma EntriesFine(msgs: set<Message>, all: set<Addr>, s: Server, m: Message)
    requires VoterFine(msgs, all, s) && m.AppendEntries?
    ensures Fine(msgs, all, s, OnAppendEntries(s, m))
  {
    hide AcceptEntries, PreMatches, Fine, VoterFine, StepDown, LastIndex;
    if m.term < s.term {
      PassiveFine(msgs, all, s, OnAppendEntries(s, m));
    } else {
      TableKeys(msgs, all, s);
      StepDownDown(s, m.term);
      AcceptRest(StepDown(s, m.term).(leader := m.src), m);
      AcceptSends(StepDown(s, m.term).(leader := m.src), m);
      DownFine(msgs, all, s, OnAppendEntries(s, m));
    }
  }

  lemma AcceptSends(s: Server, m: Message)
    requires m.AppendEntries?
    ensures forall r | r in AcceptEntries(s, m).sent :: !VoteMessage(r)
  {
    hide Reconcile, EntriesAsserted, AdvanceCommit, LastIndex;
  }

  // ---------- handlers of votes

  lemma RequestFine(msgs: set<Message>, all: set<Addr>, s: Server, m: Message, intervalOk: bool)
    requires VoterFine(msgs, all, s) && m in msgs && m.RequestVote? && m.dest == s.me && m.src in all - {s.me}
    ensures Fine(msgs, all, s, OnRequestVote(s, m, intervalOk))
  {
    hide VoterFine, LogOk, HasAsked, OnRequestVote;
    var e := OnRequestVote(s, m, intervalOk);
    TableKeys(msgs, all, s);
    RequestLeaves(s, m, intervalOk);
    if !m.preVote {
      AskedThere(msgs, m);
    }
    if Down(s, e.server) {
      DownFine(msgs, all, s, Effect(e.server, []));
    } else {
      PassiveFine(msgs, all, s, Effect(e.server, []));
    }
  }

  lemma AskedThere(msgs: set<Message>, m: Message)
    requires m in msgs && m.RequestVote? && !m.preVote
    ensures HasAsked(msgs, m.term, m.src)
  {
    assert IsAsk(m, m.term, m.src);
  }

  /** A request leaves the server as it is or a follower, and is answered truthfully. */
  lemma RequestLeaves(s: Server, m: Message, intervalOk: bool)
    requires m.RequestVote? && m.dest == s.me && s.votes.Keys == PeerSet(s.peers)
    ensures var e := OnRequestVote(s, m, intervalOk);
            && (Down(s, e.server) || e.server == s)
            && |e.sent| == 1 && e.sent[0].RequestVoteReply? && e.sent[0].src == s.me && e.sent[0].dest == m.src
            && e.sent[0].preVote == m.preVote && e.sent[0].reqTerm == m.term
            && (e.sent[0].granted ==> m.term == e.server.term && e.server.vote == m.src)
  {
    hide LogOk;
  }

  /** A grant of the present term to s shows that s stood in it. */
  lemma GrantMeansStood(g: System, all: set<Addr>, a: Addr, v: Addr)
    requires ElectInv(g, all) && a in g.servers && HasGranted(g.msgs, g.servers[a].term, v, a)
    ensures g.servers[a].vote == a && v in all
  {
    hide HasGranted, HasAsked, VoterFine, SentBetween, OneVote;
    var s := g.servers[a];
    assert Cast(g.msgs, s.term, v, a);
    assert Cast(g.msgs, s.term, a, a);
    assert Bound(s, s.term, a);
  }

  lemma GrantNoted(msgs: set<Message>, all: set<Addr>, s: Server, j: Addr, granted: bool)
    requires VoterFine(msgs, all, s) && j in all - {s.me}
    requires granted ==> HasGranted(msgs, s.term, j, s.me)
    ensures VoterFine(msgs, all, NoteVote(s, j, granted)) && KeepsWord(s, NoteVote(s, j, granted))
    ensures granted ==> j in Granted(NoteVote(s, j, granted).votes)
    ensures NoteVote(s, j, granted).term == s.term && NoteVote(s, j, granted).vote == s.vote
  {
    hide Won, HasGranted;
  }

  lemma Enthroned(msgs: set<Message>, all: set<Addr>, s: Server, j: Addr)
    requires VoterFine(msgs, all, s) && s.role == Candidate && s.vote == s.me && Majority(s.votes, true)
    requires SoundSize(|all|) && j in Granted(s.votes)
    ensures VoterFine(msgs, all, BecomeLeader(s)) && KeepsWord(s, BecomeLeader(s))
  {
    hide HasGranted;
    var granted := Granted(s.votes);
    var q := granted + {s.me};
    assert granted <= s.votes.Keys;
    assert |q| == |granted| + 1;
    assert |granted| >= 1;
    assert |s.votes.Keys| == |all| - 1;
    assert |s.votes| == |s.votes.Keys|;
    assert WonBy(msgs, all, s.term, s.me, q);
  }

  lemma RealVoteFine(msgs: set<Message>, all: set<Addr>, s: Server, j: Addr, granted: bool)
    requires VoterFine(msgs, all, s) && j in all - {s.me} && SoundSize(|all|)
    requires granted ==> HasGranted(msgs, s.term, j, s.me) && s.vote == s.me
    ensures Fine(msgs, all, s, Effect(OnRealVote(s, j, granted), []))
  {
    hide VoterFine, HasGranted, BecomeLeader, NoteVote, Majority, Granted;
    GrantNoted(msgs, all, s, j, granted);
    var s2 := NoteVote(s, j, granted);
    NoteName(s, j, granted);
    if granted && Majority(s2.votes, s2.vote == s2.me) && s2.role == Candidate {
      Enthroned(msgs, all, s2, j);
    }
  }

  lemma NoteName(s: Server, j: Addr, granted: bool)
    ensures NoteVote(s, j, granted).me == s.me
  {
  }

  lemma Runs(msgs: set<Message>, all: set<Addr>, s: Server)
    requires VoterFine(msgs, all, s) && !s.preVoting
    ensures var c := BecomeCandidate(s.(term := s.term + 1)).(vote := s.me);
            && VoterFine(msgs, all, c) && VoterFine(msgs, all, StartCampaign(c)) && c.me == s.me && c.term == s.term + 1
            && (QuorumAll(c.votes, true) ==> all == {s.me})
  {
    hide HasGranted, Won;
    var c := BecomeCandidate(s.(term := s.term + 1)).(vote := s.me);
    assert forall j | j in c.votes :: !c.votes[j].grant;
    if QuorumAll(c.votes, true) {
      NoneGranted(c.votes);
    }
  }

  lemma NoneGranted(votes: map<Addr, VoteItem>)
    requires QuorumAll(votes, true) && forall j | j in votes :: !votes[j].grant
    ensures votes.Keys == {}
  {
  }

  lemma AloneLeads(msgs: set<Message>, all: set<Addr>, s: Server)
    requires VoterFine(msgs, all, s) && s.role == Candidate && all == {s.me}
    ensures VoterFine(msgs, all, BecomeLeader(s))
  {
    hide HasGranted;
    assert WonBy(msgs, all, s.term, s.me, {s.me});
  }

  /** Standing in a new term: no vote is counted yet, and only a server on its own wins at once. */
  lemma StandFine(msgs: set<Message>, all: set<Addr>, s: Server)
    requires VoterFine(msgs, all, s) && !s.preVoting
    ensures Fine(msgs, all, s, Effect(DoRequestVote(s), []))
  {
    hide VoterFine, QuorumAll;
    Runs(msgs, all, s);
    var c := BecomeCandidate(s.(term := s.term + 1)).(vote := s.me);
    if QuorumAll(c.votes, true) {
      AloneLeads(msgs, all, c);
    }
  }

  lemma PreVoteFine(msgs: set<Message>, all: set<Addr>, s: Server, j: Addr, logOk: bool, intervalOk: bool)
    requires VoterFine(msgs, all, s) && j in all - {s.me}
    ensures Fine(msgs, all, s, Effect(OnPreVote(s, j, logOk, intervalOk), []))
  {
    hide MajorityPreVoteOk, DoRequestVote, HasGranted, Won;
    var s3 := NotePreVote(s, j, logOk, intervalOk);
    FlagsNoted(msgs, all, s, j, logOk, intervalOk);
    if logOk && MajorityPreVoteOk(s3.votes, true) && s3.role == Candidate && s3.preVoting {
      Stands(msgs, all, s, s3);
    }
  }

  lemma FlagsNoted(msgs: set<Message>, all: set<Addr>, s: Server, j: Addr, logOk: bool, intervalOk: bool)
    requires VoterFine(msgs, all, s) && j in all - {s.me}
    ensures var s3 := NotePreVote(s, j, logOk, intervalOk);
            VoterFine(msgs, all, s3) && s3.me == s.me && s3.term == s.term && s3.vote == s.vote
  {
    hide HasGranted, Won;
  }

  lemma Stands(msgs: set<Message>, all: set<Addr>, s: Server, s3: Server)
    requires VoterFine(msgs, all, s3) && s3.role == Candidate && s3.preVoting
    requires s3.me == s.me && s3.term == s.term && s3.vote == s.vote
    ensures Fine(msgs, all, s, Effect(DoRequestVote(s3.(preVoting := false)), []))
  {
    hide HasGranted, Won;
    var c := s3.(preVoting := false, role := Follower);
    StandFine(msgs, all, c);
    assert DoRequestVote(c) == DoRequestVote(s3.(preVoting := false));
  }

  lemma VoteReplyFine(g: System, all: set<Addr>, a: Addr, m: Message)
    requires ElectInv(g, all) && a in g.servers && m in g.msgs && m.RequestVoteReply? && m.dest == a
    ensures Fine(g.msgs, all, g.servers[a], OnRequestVoteReply(g.servers[a], m))
  {
    hide VoterFine, Fine, OnRealVote, OnPreVote, HasGranted, StepDown, VotesBind, OneVote;
    var s := g.servers[a];
    TableKeys(g.msgs, all, s);
    if m.term < s.term || m.reqTerm != s.term {
      PassiveFine(g.msgs, all, s, Effect(s, []));
    } else if m.term > s.term {
      StepDownDown(s, m.term);
      DownFine(g.msgs, all, s, Effect(StepDown(s, m.term), []));
    } else if !m.preVote {
      if m.granted {
        GrantThere(g.msgs, m);
        GrantMeansStood(g, all, a, m.src);
      }
      RealVoteFine(g.msgs, all, s, m.src, m.granted);
    } else {
      PreVoteFine(g.msgs, all, s, m.src, m.logOk, m.intervalOk);
    }
  }

  lemma GrantThere(msgs: set<Message>, m: Message)
    requires m in msgs && m.RequestVoteReply? && !m.preVote && m.granted
    ensures HasGranted(msgs, m.reqTerm, m.src, m.dest)
  {
    assert IsGrant(m, m.reqTerm, m.src, m.dest);
  }

  lemma RpcFine(msgs: set<Message>, all: set<Addr>, s: Server, peer: Addr)
    requires VoterFine(msgs, all, s) && peer in s.timers.requestVotes
    ensures Fine(msgs, all, s, RequestVoteRpc(s, peer))
  {
    hide LastIndex, LastTerm, HasGranted, Won;
  }

  lemma ElectFine(msgs: set<Message>, all: set<Addr>, s: Server, preVote: bool)
    requires VoterFine(msgs, all, s)
    ensures Fine(msgs, all, s, Elect(s, preVote))
  {
    hide DoRequestVote, HasGranted, Won;
    if s.role == Leader {
      PassiveFine(msgs, all, s, Effect(s.(alive := false), []));
    } else if !(preVote && |s.peers| > 0) {
      var c := s.(preVoting := false, role := Follower);
      StandFine(msgs, all, c);
      SameStand(s);
    }
  }

  lemma SameStand(s: Server)
    ensures DoRequestVote(s.(preVoting := false, role := Follower)) == DoRequestVote(s.(preVoting := false))
  {
  }

  lemma OtherFine(msgs: set<Message>, all: set<Addr>, s: Server, ev: Event)
    requires VoterFine(msgs, all, s)
    requires ev.BeatTimer? || ev.ClientTransfer? || ev.Restart? || ev.Bounce? || (ev.Deliver? && ev.m.TimeoutNow?)
    ensures Fine(msgs, all, s, Handle(s, ev))
  {
    hide LastIndex, LastTerm, GetTerm, Won, HasGranted;
  }

  lemma HandleFine(g: System, all: set<Addr>, ev: Event)
    requires ElectInv(g, all) && Enabled(g, ev) && !ev.Crash?
    ensures Fine(g.msgs, all, g.servers[Site(ev)], Handle(g.servers[Site(ev)], ev))
  {
    hide VoterFine, Fine, OneVote, VotesBind, Propose, OnAppendEntries, OnAppendEntriesReply, OnRequestVoteReply;
    hide OnRequestVote, Elect, RequestVoteRpc, HeartBeat, LeaderTransfer, Reboot, StopStart, OnTimeoutNow;
    var s := g.servers[Site(ev)];
    match ev
    case Timeout(_, preVote) => ElectFine(g.msgs, all, s, preVote);
    case VoteTimer(_, peer) => RpcFine(g.msgs, all, s, peer);
    case ClientPropose(_, value) => ProposeFine(g.msgs, all, s, value);
    case Deliver(m, intervalOk) =>
      match m {
        case RequestVote(_, _, _, _, _, _, _) => RequestFine(g.msgs, all, s, m, intervalOk);
        case RequestVoteReply(_, _, _, _, _, _, _, _) => VoteReplyFine(g, all, m.dest, m);
        case AppendEntries(_, _, _, _, _, _, _) => EntriesFine(g.msgs, all, s, m);
        case AppendEntriesReply(_, _, _, _, _, _, _, _) => ReplyFine(g.msgs, all, s, m);
        case TimeoutNow(_, _, _, _, _, _) => OtherFine(g.msgs, all, s, ev);
      }
    case _ => OtherFine(g.msgs, all, s, ev);
  }

  // ---------- the system

  lemma WonStays(msgs: set<Message>, msgs': set<Message>, all: set<Addr>, term: nat, a: Addr)
    requires msgs <= msgs' && Won(msgs, all, term, a)
    ensures Won(msgs', all, term, a)
  {
    var q: set<Addr> :| WonBy(msgs, all, term, a, q);
    assert WonBy(msgs', all, term, a, q);
  }

  lemma VoterFineStays(msgs: set<Message>, msgs': set<Message>, all: set<Addr>, s: Server)
    requires msgs <= msgs' && VoterFine(msgs, all, s)
    ensures VoterFine(msgs', all, s)
  {
    hide Won;
    if s.role == Leader {
      WonStays(msgs, msgs', all, s.term, s.me);
    }
  }

  /** A new vote message only shows the vote that its sender now has. */
  lemma NewCast(msgs: set<Message>, all: set<Addr>, s: Server, sent: set<Message>, term: nat, v: Addr, c: Addr)
    requires forall m | m in sent :: Shows(msgs, all, s, m)
    requires Cast(msgs + sent, term, v, c) && !Cast(msgs, term, v, c) && s.me in all
    ensures v == s.me && c in all && term == s.term && s.vote == c && HasAsked(msgs + sent, term, c)
  {
    if HasGranted(msgs + sent, term, v, c) {
      var m :| m in msgs + sent && IsGrant(m, term, v, c);
      assert Shows(msgs, all, s, m);
    } else {
      var m :| m in msgs + sent && IsAsk(m, term, c);
      assert Shows(msgs, all, s, m);
    }
  }

  lemma AskedStays(msgs: set<Message>, msgs': set<Message>, term: nat, c: Addr)
    requires msgs <= msgs' && HasAsked(msgs, term, c)
    ensures HasAsked(msgs', term, c)
  {
  }

  lemma BoundStays(s: Server, s': Server, term: nat, c: Addr)
    requires Bound(s, term, c) && KeepsWord(s, s') && c != NO_ADDR
    ensures Bound(s', term, c)
  {
  }

  lemma StillBound(g: System, g': System, all: set<Addr>, a: Addr, s': Server, sent: set<Message>,
                   term: nat, v: Addr, c: Addr)
    requires g.servers.Keys == all && NO_ADDR !in all && VotesBind(g) && a in g.servers && s'.me == a
    requires g'.servers == g.servers[a := s'] && g'.msgs == g.msgs + sent && KeepsWord(g.servers[a], s')
    requires forall m | m in sent :: Shows(g.msgs, all, s', m)
    requires Cast(g'.msgs, term, v, c)
    ensures v in all && c in all && Bound(g'.servers[v], term, c) && HasAsked(g'.msgs, term, c)
  {
    hide Cast, HasAsked, Bound, KeepsWord, Shows;
    if Cast(g.msgs, term, v, c) {
      AskedStays(g.msgs, g'.msgs, term, c);
      if v == a {
        BoundStays(g.servers[a], s', term, c);
      }
    } else {
      NewCast(g.msgs, all, s', sent, term, v, c);
      BoundNow(s', term, c);
    }
  }

  lemma BoundNow(s: Server, term: nat, c: Addr)
    requires s.term == term && s.vote == c
    ensures Bound(s, term, c)
  {
  }

  lemma StillOneVote(g: System, g': System, all: set<Addr>, a: Addr, s': Server, sent: set<Message>,
                     term: nat, v: Addr, c: Addr, d: Addr)
    requires OneVote(g.msgs) && VotesBind(g') && s'.me == a && a in all
    requires g'.servers == g.servers[a := s'] && g'.msgs == g.msgs + sent
    requires forall m | m in sent :: Shows(g.msgs, all, s', m)
    requires Cast(g'.msgs, term, v, c) && Cast(g'.msgs, term, v, d)
    ensures c == d
  {
    hide Cast, HasAsked, Shows;
    if !Cast(g.msgs, term, v, c) {
      NewCast(g.msgs, all, s', sent, term, v, c);
      assert Bound(g'.servers[v], term, d);
    } else if !Cast(g.msgs, term, v, d) {
      NewCast(g.msgs, all, s', sent, term, v, d);
      assert Bound(g'.servers[v], term, c);
    }
  }

  lemma VotesStillBind(g: System, g': System, all: set<Addr>, a: Addr, s': Server, sent: set<Message>)
    requires g.servers.Keys == all && NO_ADDR !in all && VotesBind(g) && OneVote(g.msgs)
    requires a in g.servers && s'.me == a
    requires g'.servers == g.servers[a := s'] && g'.msgs == g.msgs + sent && KeepsWord(g.servers[a], s')
    requires forall m | m in sent :: Shows(g.msgs, all, s', m)
    ensures VotesBind(g') && OneVote(g'.msgs)
  {
    hide Cast, HasAsked, Bound, KeepsWord, Shows;
    assert VotesBind(g') by {
      forall term: nat, v: Addr, c: Addr | Cast(g'.msgs, term, v, c)
        ensures v in g'.servers && c in g'.servers && Bound(g'.servers[v], term, c) && HasAsked(g'.msgs, term, c)
      {
        StillBound(g, g', all, a, s', sent, term, v, c);
      }
    }
    forall term: nat, v: Addr, c: Addr, d: Addr | Cast(g'.msgs, term, v, c) && Cast(g'.msgs, term, v, d)
      ensures c == d
    {
      StillOneVote(g, g', all, a, s', sent, term, v, c, d);
    }
  }

  lemma StillSent(all: set<Addr>, msgs: set<Message>, sent: set<Message>, s: Server)
    requires SentBetween(all, msgs) && s.me in all && forall m | m in sent :: Shows(msgs, all, s, m)
    ensures SentBetween(all, msgs + sent)
  {
    hide HasAsked;
    forall m | m in msgs + sent && VoteMessage(m)
      ensures m.src in all && m.dest in all && m.src != m.dest
    {
      if m in sent {
        assert Shows(msgs, all, s, m);
      }
    }
  }

  /** One server moved on as Fine says, and the network has more messages. */
  lemma TakeFine(g: System, g': System, all: set<Addr>, a: Addr, s': Server, sent: set<Message>)
    requires ElectInv(g, all) && a in g.servers
    requires KeepsWord(g.servers[a], s') && VoterFine(g.msgs, all, s')
    requires forall m | m in sent :: Shows(g.msgs, all, s', m)
    requires g'.servers == g.servers[a := s'] && g'.msgs == g.msgs + sent
    ensures ElectInv(g', all)
  {
    hide VoterFine, Shows, VotesBind, OneVote, SentBetween, Won;
    NamedSo(g, all, a, s');
    VotesStillBind(g, g', all, a, s', sent);
    StillSent(all, g.msgs, sent, s');
    forall b | b in g'.servers
      ensures g'.servers[b].me == b && VoterFine(g'.msgs, all, g'.servers[b])
    {
      VoterFineStays(g.msgs, g'.msgs, all, g'.servers[b]);
    }
  }

  lemma NamedSo(g: System, all: set<Addr>, a: Addr, s': Server)
    requires ElectInv(g, all) && a in g.servers && KeepsWord(g.servers[a], s')
    ensures s'.me == a && a in all && NO_ADDR !in all
  {
    hide VotesBind, OneVote, SentBetween, Won;
    assert VoterFine(g.msgs, all, g.servers[a]);
  }

  lemma RebootFine(msgs: set<Message>, all: set<Addr>, s: Server, s': Server)
    requires PeersFit(all, s) && s'.me == s.me && s'.peers == s.peers && KeepsWord(s, s')
    ensures VoterFine(msgs, all, Reboot(s')) && KeepsWord(s, Reboot(s'))
  {
  }

  lemma CrashFine(msgs: set<Message>, all: set<Addr>, s: Server, s': Server, applied: nat)
    requires PeersFit(all, s) && s'.me == s.me && s'.peers == s.peers && KeepsWord(s, s')
    ensures VoterFine(msgs, all, CrashTo(s, s', applied)) && KeepsWord(s, CrashTo(s, s', applied))
  {
    hide Reboot, VoterFine, DataBetween;
    if s.lastApply <= applied <= s'.lastApply && applied <= |s'.log| {
      RebootFine(msgs, all, s, s'.(sm := s.sm + DataBetween(s'.log, s.lastApply, applied)));
    } else {
      RebootFine(msgs, all, s, s');
    }
  }

  lemma FineParts(msgs: set<Message>, all: set<Addr>, s: Server, e: Effect)
    requires Fine(msgs, all, s, e) && VoterFine(msgs, all, s)
    ensures KeepsWord(s, e.server) && VoterFine(msgs, all, e.server) && PeersFit(all, s)
    ensures forall m | m in Sent(e.sent) :: Shows(msgs, all, e.server, m)
  {
    hide KeepsWord, TableOk, Won, Shows;
  }

  lemma WholeFine(g: System, all: set<Addr>, ev: Event)
    requires ElectInv(g, all)
    ensures ElectInv(Next(g, ev), all)
  {
    hide ElectInv, VoterFine, Fine, Handle, Record, KeepsWord, Shows, PeersFit, CrashTo;
    if Enabled(g, ev) {
      var a := Site(ev);
      ServerFine(g, all, a);
      var s, e := g.servers[a], Handle(g.servers[a], Plain(ev));
      HandleFine(g, all, Plain(ev));
      FineParts(g.msgs, all, s, e);
      if ev.Crash? {
        HandleName(s, ev.during);
        CrashFine(g.msgs, all, s, e.server, ev.applied);
        assert g.msgs + {} == g.msgs;
        TakeFine(g, Next(g, ev), all, a, CrashTo(s, e.server, ev.applied), {});
      } else {
        TakeFine(g, Next(g, ev), all, a, e.server, Sent(e.sent));
      }
    }
  }

  lemma ServerFine(g: System, all: set<Addr>, a: Addr)
    requires ElectInv(g, all) && a in g.servers
    ensures g.servers[a].me == a && VoterFine(g.msgs, all, g.servers[a]) && PeersFit(all, g.servers[a])
  {
    hide VotesBind, OneVote, SentBetween, TableOk, Won;
  }

  lemma TornFine(g: System, all: set<Addr>, ev: Event, vote: Addr)
    requires ElectInv(g, all) && Tears(g, ev)
    ensures var s := g.servers[Site(ev)];
            ElectInv(Replaced(g, TornServer(s, Handle(s, ev).server.term, vote)), all)
  {
    hide ElectInv, VoterFine, Handle, Enabled, Found, PeersFit, Reboot;
    TearsAt(g, ev);
    var a := Site(ev);
    ServerFine(g, all, a);
    var s := g.servers[a];
    var s' := s.(term := Handle(s, ev).server.term, vote := vote);
    RebootFine(g.msgs, all, s, s');
    assert g.msgs + {} == g.msgs;
    TakeFine(g, Replaced(g, Reboot(s')), all, a, Reboot(s'), {});
  }

  lemma CutFine(g: System, all: set<Addr>, ev: Event, kept: nat)
    requires ElectInv(g, all) && Cuts(g, ev, kept)
    ensures ElectInv(TornNext(g, Cut(ev, kept)), all)
  {
    hide ElectInv, VoterFine, PeersFit, Reboot, Durability.Accepts, EntriesAsserted, CutLog.CutPoint, Reconcile;
    var a, m := ev.m.dest, ev.m;
    ServerFine(g, all, a);
    var s := g.servers[a];
    CutFacts(s, m, kept);
    var s' := CutLog.Writing(s, m).(log := Reconcile(s.log, m.preLogIndex, m.entries)[..kept]);
    RebootFine(g.msgs, all, s, s');
    assert g.msgs + {} == g.msgs;
    TakeFine(g, TornNext(g, Cut(ev, kept)), all, a, Reboot(s'), {});
  }

  lemma TornNextFine(g: System, all: set<Addr>, te: TornEvent)
    requires ElectInv(g, all)
    ensures ElectInv(TornNext(g, te), all)
  {
    hide ElectInv, Next, Tears, Cuts, Replaced, TornServer, CutServer;
    match te
    case Whole(ev) => WholeFine(g, all, ev);
    case Torn(ev) =>
      if Tears(g, ev) {
        TearsAt(g, ev);
        TornFine(g, all, ev, g.servers[Site(ev)].vote);
      }
    case Cleared(ev) =>
      if Tears(g, ev) {
        TearsAt(g, ev);
        TornFine(g, all, ev, OpeningVote(g.servers[Site(ev)], Handle(g.servers[Site(ev)], ev).server));
      }
    case Cut(ev, kept) =>
      if Cuts(g, ev, kept) {
        CutFine(g, all, ev, kept);
      }
  }

  lemma FirstFine(all: set<Addr>, a: Addr, peers: seq<Addr>)
    requires a in all && NO_ADDR !in all && PeerSet(peers) == all - {a}
    ensures FirstStart(a, peers).me == a && VoterFine({}, all, FirstStart(a, peers))
  {
  }

  lemma NothingCast(term: nat, v: Addr, c: Addr)
    ensures !Cast({}, term, v, c)
  {
  }

  lemma StartFine(peersOf: map<Addr, seq<Addr>>)
    requires SoundCluster(peersOf)
    ensures ElectInv(Init(peersOf), peersOf.Keys)
  {
    hide Fill, FirstStart, VoterFine, Cast, Configured, PeerSet;
    assert |peersOf.Keys| == |peersOf|;
    var g := Init(peersOf);
    forall a | a in g.servers
      ensures g.servers[a].me == a && VoterFine(g.msgs, peersOf.Keys, g.servers[a])
    {
      Campaigns.PeersAre(peersOf, a);
      Safety.MemberOf(peersOf);
      FirstFine(peersOf.Keys, a, peersOf[a]);
    }
    forall term: nat, v: Addr, c: Addr
      ensures !Cast({}, term, v, c)
    {
      NothingCast(term, v, c);
    }
  }

  lemma {:induction false} TornRunFine(peersOf: map<Addr, seq<Addr>>, run: seq<TornEvent>, lo: nat)
    requires SoundCluster(peersOf) && lo <= |run|
    ensures ElectInv(TornAfter(peersOf, run[..lo]), peersOf.Keys) && ElectInv(TornAfter(peersOf, run), peersOf.Keys)
    ensures TornAfter(peersOf, run[..lo]).msgs <= TornAfter(peersOf, run).msgs
    decreases |run|
  {
    hide ElectInv, TornNext, Init, SoundCluster;
    if run == [] {
      StartFine(peersOf);
      assert run[..lo] == run;
    } else {
      var most, te := run[..|run| - 1], run[|run| - 1];
      var k := if lo < |run| then lo else |most|;
      TornRunFine(peersOf, most, k);
      assert most[..k] == run[..k];
      TornNextFine(TornAfter(peersOf, most), peersOf.Keys, te);
      MessagesStay(TornAfter(peersOf, most), te);
      if lo == |run| {
        assert run[..lo] == run;
      }
    }
  }

  lemma MessagesStay(g: System, te: TornEvent)
    ensures g.msgs <= TornNext(g, te).msgs
  {
    hide Handle, Record, Enabled, Tears, Cuts, CutServer, TornServer, CrashTo;
  }

  // ---------- the theorem

  lemma WinnersAgree(g: System, all: set<Addr>, term: nat, a: Addr, b: Addr)
    requires ElectInv(g, all) && Won(g.msgs, all, term, a) && Won(g.msgs, all, term, b)
    ensures a == b
  {
    hide VoterFine, SentBetween, HasGranted, HasAsked, VotesBind, OneVote;
    var p: set<Addr> :| WonBy(g.msgs, all, term, a, p);
    var q: set<Addr> :| WonBy(g.msgs, all, term, b, q);
    var v := QuorumsMeet(all, p, q);
    if a != b {
      BackedBy(g, all, term, a, p, v);
      BackedBy(g, all, term, b, q, v);
      OnlyOneVote(g, all, term, v, a, b);
    }
  }

  lemma OnlyOneVote(g: System, all: set<Addr>, term: nat, v: Addr, c: Addr, d: Addr)
    requires ElectInv(g, all) && (Cast(g.msgs, term, v, c) || all == {c}) && (Cast(g.msgs, term, v, d) || all == {d})
    requires c in all && d in all
    ensures c == d
  {
    hide VoterFine, SentBetween, VotesBind, Cast;
  }

  /** Whoever is in a winner's quorum cast its vote for it, the winner included, unless it is on its own. */
  lemma BackedBy(g: System, all: set<Addr>, term: nat, a: Addr, q: set<Addr>, v: Addr)
    requires ElectInv(g, all) && WonBy(g.msgs, all, term, a, q) && v in q
    ensures Cast(g.msgs, term, v, a) || all == {a}
    ensures a in all
  {
    hide VoterFine, SentBetween, HasGranted, HasAsked, OneVote;
    if v == a {
      if q == {a} {
        assert |q| == 1;
        assert |all| == 1;
        OnlyThat(all, a);
      } else {
        var w :| w in q && w != a;
        assert Cast(g.msgs, term, w, a);
      }
    }
  }

  lemma OnlyThat(all: set<Addr>, a: Addr)
    requires |all| == 1 && a in all
    ensures all == {a}
  {
    assert |all - {a}| == 0;
    assert all == {a} + (all - {a});
  }

  /** No two servers lead a term, at whatever two moments of a run with such crashes. */
  lemma TornElectionSafety(peersOf: map<Addr, seq<Addr>>, run: seq<TornEvent>, lo: nat, a: Addr, b: Addr)
    requires SoundCluster(peersOf) && lo <= |run|
    requires var g1, g2 := TornAfter(peersOf, run[..lo]), TornAfter(peersOf, run);
             && a in g1.servers && g1.servers[a].role == Leader
             && b in g2.servers && g2.servers[b].role == Leader && g2.servers[b].term == g1.servers[a].term
    ensures a == b
  {
    hide ElectInv, TornExec, Init, SoundCluster, Won;
    TornRunFine(peersOf, run, lo);
    var g1, g2 := TornAfter(peersOf, run[..lo]), TornAfter(peersOf, run);
    LeaderWon(g1, peersOf.Keys, a);
    LeaderWon(g2, peersOf.Keys, b);
    WonStays(g1.msgs, g2.msgs, peersOf.Keys, g1.servers[a].term, a);
    WinnersAgree(g2, peersOf.Keys, g1.servers[a].term, a, b);
  }

  lemma LeaderWon(g: System, all: set<Addr>, a: Addr)
    requires ElectInv(g, all) && a in g.servers && g.servers[a].role == Leader
    ensures Won(g.msgs, all, g.servers[a].term, a)
  {
    hide VotesBind, OneVote, SentBetween;
    assert VoterFine(g.msgs, all, g.servers[a]);
  }

  ghost predicate BothLed(peersOf: map<Addr, seq<Addr>>, run: seq<TornEvent>, lo: nat, a: Addr, b: Addr) {
    && lo <= |run|
    && var g1, g2 := TornAfter(peersOf, run[..lo]), TornAfter(peersOf, run);
       && a in g1.servers && g1.servers[a].role == Leader
       && b in g2.servers && g2.servers[b].role == Leader && g2.servers[b].term == g1.servers[a].term
  }

  /** On every run with such crashes, at any two moments, a term has one leader only. */
  ghost predicate NeverTwoLeaders(peersOf: map<Addr, seq<Addr>>) {
    forall run: seq<TornEvent>, lo: nat, a: Addr, b: Addr | BothLed(peersOf, run, lo, a, b) :: a == b
  }

  /** Crashes between any two writes, even those that lose committed entries, do not touch election safety: it
      holds for exactly the sizes for which it holds without them. */
  lemma TornElectionSafetyExactly(peersOf: map<Addr, seq<Addr>>)
    requires Configured(peersOf) && |peersOf| > 0
    ensures NeverTwoLeaders(peersOf) <==> SoundSize(|peersOf|)
  {
    hide Configured, TornExec, Init, SoundSize;
    if SoundSize(|peersOf|) {
      forall run: seq<TornEvent>, lo: nat, a: Addr, b: Addr | BothLed(peersOf, run, lo, a, b)
        ensures a == b
      {
        TornElectionSafety(peersOf, run, lo, a, b);
      }
    } else {
      TwoLed(peersOf);
    }
  }

  lemma TwoLed(peersOf: map<Addr, seq<Addr>>)
    requires Configured(peersOf) && |peersOf| > 0 && !SoundSize(|peersOf|)
    ensures !NeverTwoLeaders(peersOf)
  {
    hide Configured, TornExec, Exec, Init;
    EvenCluster.ElectionSafetyExactly(peersOf);
    var g: System, a: Addr, b: Addr :| Reachable(peersOf, g) && EvenCluster.BothLead(g, a, b) && a != b;
    var run: seq<Event> :| g == After(peersOf, run);
    TornRun.WholeRun(Init(peersOf), run);
    var whole := TornRun.Wholes(run);
    assert whole[..|whole|] == whole;
    assert BothLed(peersOf, whole, |whole|, a, b);
  }
}
