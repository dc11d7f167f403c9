/** Runs that elect a server, vote by vote, for showing what can happen. */
module Campaigns {
  import opened RaftTypes
  import opened Quorum
  import opened RaftStep
  import opened Cluster
  import opened Theorems
  import opened Safety
  import Frames

  // ---------- a candidate and its voters

  /** A candidate of a term with an empty log that has the votes of `done` beside its own. */
  ghost predicate Campaigning(s: Server, a: Addr, peers: seq<Addr>, term: nat, done: set<Addr>) {
    && s.alive && s.me == a && s.peers == peers && a != NO_ADDR
    && s.role == Candidate && s.term == term && s.vote == a && s.log == [] && s.sm == []
    && !s.preVoting && !s.leaderTransfer
    && s.votes.Keys == PeerSet(peers) && s.indices.Keys == PeerSet(peers)
    && s.commit == s.lastApply == 0
    && Granted(s.votes) == done
    && PeerSet(peers) - done <= s.timers.requestVotes && s.timers.election
  }

  /** The same server once it has won: its log is its no-op, its tables are fresh. */
  ghost predicate Elected(s: Server, a: Addr, peers: seq<Addr>, term: nat) {
    && s.alive && s.me == a && s.peers == peers && a != NO_ADDR
    && s.role == Leader && s.term == term && s.vote == a && s.log == [NoopEntry(term)] && s.sm == []
    && s.commit == s.lastApply == 0
    && s.votes.Keys == PeerSet(peers)
    && s.indices == Fill(PeerSet(peers), IndexItem(1, 0))
    && s.timers.heartbeats == PeerSet(peers)
  }

  ghost function Ask(a: Addr, v: Addr, term: nat): Message {
    RequestVote(a, v, term, 0, 0, false, false)
  }

  ghost function Grant(a: Addr, v: Addr, term: nat, logOk: bool): Message {
    RequestVoteReply(v, a, term, true, false, logOk, true, term)
  }

  /** v's grant of the term is in the network. */
  ghost predicate Granting(msgs: set<Message>, a: Addr, v: Addr, term: nat) {
    TheGrant(msgs, a, v, term) in msgs
  }

  /** The receiver of a grant does not look at its log-ok flag. */
  ghost function TheGrant(msgs: set<Message>, a: Addr, v: Addr, term: nat): Message {
    Grant(a, v, term, Grant(a, v, term, true) in msgs)
  }

  /** v would grant a its vote for the term. */
  ghost predicate Willing(s: Server, v: Addr, a: Addr, term: nat) {
    && s.alive && s.me == v
    && OnRequestVote(s, Ask(a, v, term), true).sent == [Grant(a, v, term, LogOk(s, 0, 0))]
  }

  /** Nobody but these changed, and nothing that was sent is lost. */
  ghost predicate SameServers(g: System, g': System, except: set<Addr>) {
    && g'.servers.Keys == g.servers.Keys && g.msgs <= g'.msgs
    && forall x | x in g.servers && x !in except :: g'.servers[x] == g.servers[x]
  }

  lemma Same(g: System, vs: set<Addr>)
    ensures SameServers(g, g, vs)
  {
  }

  lemma Joined(g: System, g1: System, g2: System, s1: set<Addr>, s2: set<Addr>, all: set<Addr>)
    requires SameServers(g, g1, s1) && SameServers(g1, g2, s2) && s1 + s2 <= all
    ensures SameServers(g, g2, all)
  {
  }

  lemma Untouched(g: System, g': System, except: set<Addr>, vs: set<Addr>)
    requires SameServers(g, g', except) && vs !! except
    ensures forall v | v in vs && v in g.servers :: v in g'.servers && g'.servers[v] == g.servers[v]
    ensures g'.servers.Keys == g.servers.Keys && g.msgs <= g'.msgs
  {
  }

  /** v is as it was started. */
  ghost predicate Waits(g: System, peersOf: map<Addr, seq<Addr>>, v: Addr) {
    v in peersOf && v in g.servers && g.servers[v] == FirstStart(v, peersOf[v])
  }

  lemma FirstIsWilling(v: Addr, peers: seq<Addr>, a: Addr, term: nat)
    requires a != NO_ADDR && term >= 1
    ensures Willing(FirstStart(v, peers), v, a, term)
  {
  }

  /** Anyone with an empty log in an earlier term is willing. */
  lemma EarlierIsWilling(s: Server, v: Addr, a: Addr, term: nat)
    requires s.alive && s.me == v && s.log == [] && s.sm == [] && s.term < term && a != NO_ADDR
    ensures Willing(s, v, a, term)
  {
  }

  // ---------- single events

  /** A server with an empty log that is not leading stands for the next term. */
  lemma Stand(g: System, a: Addr)
    requires a in g.servers && a != NO_ADDR
    requires var s := g.servers[a];
             && s.alive && s.me == a && s.role != Leader && s.timers.election && !s.leaderTransfer
             && |s.peers| > 0 && s.log == [] && s.sm == [] && s.commit == s.lastApply == 0
             && s.votes.Keys == PeerSet(s.peers) && s.indices.Keys == PeerSet(s.peers)
    ensures var s, g' := g.servers[a], Next(g, Timeout(a, false));
            && a in g'.servers && Campaigning(g'.servers[a], a, s.peers, s.term + 1, {})
            && SameServers(g, g', {a})
  {
    hide Record;
    var s := g.servers[a];
    var c := DoRequestVote(s.(preVoting := false));
    assert s.peers[0] in c.votes;
    assert Granted(c.votes) == {};
  }

  lemma Asks(g: System, a: Addr, peers: seq<Addr>, term: nat, done: set<Addr>, v: Addr)
    requires a in g.servers && Campaigning(g.servers[a], a, peers, term, done) && v in PeerSet(peers) - done
    ensures var g' := Next(g, VoteTimer(a, v));
            && a in g'.servers && Campaigning(g'.servers[a], a, peers, term, done)
            && SameServers(g, g', {a})
            && Ask(a, v, term) in g'.msgs
  {
    hide Record;
    var e := SendRequestVote(g.servers[a], v);
    assert e.sent == [Ask(a, v, term)];
    assert Ask(a, v, term) in Sent(e.sent);
  }

  lemma Answers(g: System, a: Addr, term: nat, v: Addr)
    requires v in g.servers && Willing(g.servers[v], v, a, term) && Ask(a, v, term) in g.msgs
    ensures var g' := Next(g, Deliver(Ask(a, v, term), true));
            && SameServers(g, g', {v}) && Granting(g'.msgs, a, v, term)
            && g'.servers[v] == OnRequestVote(g.servers[v], Ask(a, v, term), true).server
  {
    hide Record, OnRequestVote, LogOk;
    var s := g.servers[v];
    OwnName(s, Ask(a, v, term));
    assert Grant(a, v, term, LogOk(s, 0, 0)) in Sent(OnRequestVote(s, Ask(a, v, term), true).sent);
  }

  lemma OwnName(s: Server, m: Message)
    requires m.RequestVote?
    ensures OnRequestVote(s, m, true).server.me == s.me
  {
  }

  /** One more grant for a candidate with `done` grants: it wins, or has one more. */
  lemma OneMoreGrant(s: Server, v: Addr, done: set<Addr>)
    requires Granted(s.votes) == done && v in s.votes && v !in done && s.role == Candidate && s.vote == s.me
    ensures var s2 := NoteVote(s, v, true);
            && s2.votes.Keys == s.votes.Keys && Granted(s2.votes) == done + {v}
            && OnRealVote(s, v, true) == if |done| + 2 >= Threshold(|s.votes.Keys|) then BecomeLeader(s2) else s2
  {
    hide BecomeLeader;
    var s2 := NoteVote(s, v, true);
    assert s2.votes.Keys == s.votes.Keys;
    assert Granted(s2.votes) == done + {v};
    assert |s2.votes| == |s2.votes.Keys|;
    assert |done + {v}| == |done| + 1;
  }

  lemma CountsGrant(s: Server, a: Addr, peers: seq<Addr>, term: nat, done: set<Addr>, v: Addr)
    requires Campaigning(s, a, peers, term, done) && v in PeerSet(peers) - done
    ensures var s' := OnRealVote(s, v, true);
            if |done| + 2 >= Threshold(|PeerSet(peers)|) then Elected(s', a, peers, term)
            else Campaigning(s', a, peers, term, done + {v})
  {
    hide OnRealVote, BecomeLeader, Granted;
    OneMoreGrant(s, v, done);
    if |done| + 2 >= Threshold(|PeerSet(peers)|) {
      Crown(NoteVote(s, v, true), a, peers, term);
    }
  }

  lemma Crown(s: Server, a: Addr, peers: seq<Addr>, term: nat)
    requires s.alive && s.me == a && s.peers == peers && a != NO_ADDR && s.role == Candidate && s.term == term
    requires s.vote == a && s.log == [] && s.sm == [] && s.commit == s.lastApply == 0
    requires s.votes.Keys == PeerSet(peers) && s.indices.Keys == PeerSet(peers)
    ensures Elected(BecomeLeader(s), a, peers, term)
  {
  }

  /** A grant of the candidate's own term is counted, whenever it arrives. */
  lemma GrantArrives(g: System, a: Addr, term: nat, v: Addr)
    requires a in g.servers && g.servers[a].alive && g.servers[a].me == a && g.servers[a].term == term
    requires Granting(g.msgs, a, v, term)
    ensures var g' := Next(g, Deliver(TheGrant(g.msgs, a, v, term), true));
            SameServers(g, g', {a}) && g'.servers[a] == OnRealVote(g.servers[a], v, true)
  {
    hide Record, OnRealVote, OnPreVote;
    Frames.RealVoteName(g.servers[a], v, true);
  }

  // ---------- whole campaigns

  /** The number of votes that make a leader: the threshold, but the test follows a peer's grant. */
  ghost function Goal(peers: seq<Addr>): nat {
    Max(2, Threshold(|PeerSet(peers)|))
  }

  lemma OneStep(g: System, run: seq<Event>, e: Event)
    ensures Exec(g, run + [e]) == Next(Exec(g, run), e)
  {
    assert (run + [e])[..|run|] == run;
  }

  lemma ThreeSteps(g: System, e1: Event, e2: Event, e3: Event)
    ensures Exec(g, [e1, e2, e3]) == Next(Next(Next(g, e1), e2), e3)
  {
    hide Next;
    OneStep(g, [], e1);
    OneStep(g, [e1], e2);
    OneStep(g, [e1, e2], e3);
    assert [] + [e1] == [e1] && [e1] + [e2] == [e1, e2] && [e1, e2] + [e3] == [e1, e2, e3];
  }

  /** One voter: asked, it grants, and the grant is counted. */
  lemma OneVoter(g: System, a: Addr, peers: seq<Addr>, term: nat, done: set<Addr>, v: Addr) returns (run: seq<Event>)
    requires a in g.servers && Campaigning(g.servers[a], a, peers, term, done)
    requires v in PeerSet(peers) - done && v != a && v in g.servers && Willing(g.servers[v], v, a, term)
    ensures var g' := Exec(g, run);
            && SameServers(g, g', {a, v}) && Granting(g'.msgs, a, v, term)
            && g'.servers[v] == OnRequestVote(g.servers[v], Ask(a, v, term), true).server
            && (if |done| + 2 >= Threshold(|PeerSet(peers)|) then Elected(g'.servers[a], a, peers, term)
                else Campaigning(g'.servers[a], a, peers, term, done + {v}))
  {
    hide Next, Willing, OnRequestVote, Elected, PeerSet;
    var e1, e2 := VoteTimer(a, v), Deliver(Ask(a, v, term), true);
    Asks(g, a, peers, term, done, v);
    var g1 := Next(g, e1);
    Answers(g1, a, term, v);
    var g2 := Next(g1, e2);
    var e3 := Deliver(TheGrant(g2.msgs, a, v, term), true);
    GrantArrives(g2, a, term, v);
    CountsGrant(g2.servers[a], a, peers, term, done, v);
    var g3 := Next(g2, e3);
    StillGranting(g2, g3, a, v, term);
    ThreeSteps(g, e1, e2, e3);
    run := [e1, e2, e3];
  }

  lemma StillGranting(g: System, g': System, a: Addr, v: Addr, term: nat)
    requires g.msgs <= g'.msgs && Granting(g.msgs, a, v, term)
    ensures Granting(g'.msgs, a, v, term)
  {
  }

  /** The run in which a collects the votes of `voters`, one after the other, and becomes leader. */
  lemma {:induction false} Collect(g: System, a: Addr, peers: seq<Addr>, term: nat,
                                   done: set<Addr>, voters: set<Addr>) returns (run: seq<Event>)
    requires a in g.servers && Campaigning(g.servers[a], a, peers, term, done)
    requires voters <= PeerSet(peers) - done && voters != {} && a !in voters
    requires forall v | v in voters :: v in g.servers && Willing(g.servers[v], v, a, term)
    requires |done| + |voters| + 1 == Goal(peers)
    ensures var g' := Exec(g, run);
            && SameServers(g, g', voters + {a}) && Elected(g'.servers[a], a, peers, term)
            && forall v | v in voters ::
                 && Granting(g'.msgs, a, v, term)
                 && g'.servers[v] == OnRequestVote(g.servers[v], Ask(a, v, term), true).server
    decreases |voters|
  {
    hide Exec, Willing, Campaigning, OnRequestVote, Elected, Granting;
    var v :| v in voters;
    var first := OneVoter(g, a, peers, term, done, v);
    var g1 := Exec(g, first);
    var rest := voters - {v};
    assert |rest| == |voters| - 1;
    if rest == {} {
      run := first;
    } else {
      assert |done + {v}| == |done| + 1;
      var more := Collect(g1, a, peers, term, done + {v}, rest);
      ExecSplit(g, first, more);
      run := first + more;
      StillGranting(g1, Exec(g, run), a, v, term);
    }
  }

  // ---------- sets of members

  lemma Pick<T>(s: set<T>, k: nat) returns (t: set<T>)
    requires k <= |s|
    ensures t <= s && |t| == k
  {
    if k == |s| {
      t := s;
    } else {
      var x :| x in s;
      t := Pick(s - {x}, k);
    }
  }

  lemma PeersAre(peersOf: map<Addr, seq<Addr>>, a: Addr)
    requires Configured(peersOf) && a in peersOf
    ensures a != NO_ADDR && PeerSet(peersOf[a]) == peersOf.Keys - {a}
    ensures |PeerSet(peersOf[a])| == |peersOf.Keys| - 1
  {
  }

  lemma NonEmpty(peers: seq<Addr>, p: Addr)
    requires p in PeerSet(peers)
    ensures |peers| > 0
  {
  }

  lemma EnoughVoters(peersOf: map<Addr, seq<Addr>>, a: Addr) returns (voters: set<Addr>)
    requires Configured(peersOf) && |peersOf.Keys| >= 2 && a in peersOf
    ensures a != NO_ADDR && |peersOf[a]| > 0
    ensures voters != {} && voters <= PeerSet(peersOf[a]) && a !in voters && voters <= peersOf.Keys
    ensures |voters| + 1 == Goal(peersOf[a])
  {
    hide Configured, PeerSet;
    PeersAre(peersOf, a);
    voters := Pick(PeerSet(peersOf[a]), Goal(peersOf[a]) - 1);
    var v :| v in voters;
    NonEmpty(peersOf[a], v);
  }

  lemma AtTheStart(peersOf: map<Addr, seq<Addr>>, v: Addr)
    requires v in peersOf
    ensures Waits(Init(peersOf), peersOf, v) && Init(peersOf).servers.Keys == peersOf.Keys
  {
  }

  lemma StandFirst(g: System, peersOf: map<Addr, seq<Addr>>, a: Addr)
    requires Waits(g, peersOf, a) && a != NO_ADDR && |peersOf[a]| > 0
    ensures var g' := Next(g, Timeout(a, false));
            && a in g'.servers && Campaigning(g'.servers[a], a, peersOf[a], 2, {})
            && SameServers(g, g', {a})
  {
    hide Next;
    Stand(g, a);
  }

  /** v, just started, has voted for a in term 2, and its grant is in the network. */
  ghost predicate VotedFor(g: System, peersOf: map<Addr, seq<Addr>>, a: Addr, v: Addr) {
    && v in peersOf && v in g.servers && Granting(g.msgs, a, v, 2)
    && g.servers[v] == FirstStart(v, peersOf[v]).(term := 2, vote := a)
  }

  /** In every cluster of two or more, odd sizes included, every member can be elected: the theorems about
      leaders are about something. */
  lemma AnyoneCanLead(peersOf: map<Addr, seq<Addr>>, a: Addr) returns (run: seq<Event>, voters: set<Addr>)
    requires Configured(peersOf) && |peersOf.Keys| >= 2 && a in peersOf
    ensures voters != {} && voters <= PeerSet(peersOf[a]) && a !in voters && |voters| + 1 == Goal(peersOf[a])
    ensures var g := After(peersOf, run);
            && g.servers.Keys == peersOf.Keys && Elected(g.servers[a], a, peersOf[a], 2)
            && (forall v | v in voters :: VotedFor(g, peersOf, a, v))
            && (forall x | x in peersOf && x != a && x !in voters :: Waits(g, peersOf, x))
  {
    hide Configured, Goal, Exec, PeerSet, OnRequestVote, FirstStart, Elected, Granting, Willing, Campaigning;
    hide SameServers;
    voters := EnoughVoters(peersOf, a);
    var g1, first := FirstStand(peersOf, a, peersOf.Keys - {a});
    var more := Collect(g1, a, peersOf[a], 2, {}, voters);
    ExecSplit(Init(peersOf), first, more);
    run := first + more;
    Untouched(g1, Exec(g1, more), voters + {a}, peersOf.Keys - {a} - voters);
    forall v | v in voters
      ensures VotedFor(After(peersOf, run), peersOf, a, v)
    {
      FirstVote(v, peersOf[v], a);
    }
  }

  lemma FirstStand(peersOf: map<Addr, seq<Addr>>, a: Addr, voters: set<Addr>) returns (g: System, run: seq<Event>)
    requires a in peersOf && a != NO_ADDR && |peersOf[a]| > 0 && voters <= peersOf.Keys && a !in voters
    ensures g == After(peersOf, run) && g.servers.Keys == peersOf.Keys
    ensures Campaigning(g.servers[a], a, peersOf[a], 2, {})
    ensures forall v | v in voters :: g.servers[v] == FirstStart(v, peersOf[v]) && Willing(g.servers[v], v, a, 2)
  {
    hide Next, Campaigning, Init, FirstStart, Willing;
    var g0, e := Init(peersOf), Timeout(a, false);
    AtTheStart(peersOf, a);
    StandFirst(g0, peersOf, a);
    g, run := Next(g0, e), [e];
    forall v | v in voters
      ensures g.servers[v] == FirstStart(v, peersOf[v]) && Willing(g.servers[v], v, a, 2)
    {
      AtTheStart(peersOf, v);
      FirstIsWilling(v, peersOf[v], a, 2);
    }
    OneStep(g0, [], e);
    StartsEmpty(g0);
    assert [] + [e] == [e];
  }

  lemma StartsEmpty(g: System)
    ensures Exec(g, []) == g
  {
  }

  lemma FirstVote(v: Addr, peers: seq<Addr>, a: Addr)
    ensures OnRequestVote(FirstStart(v, peers), Ask(a, v, 2), true).server ==
            FirstStart(v, peers).(term := 2, vote := a)
  {
  }
}
