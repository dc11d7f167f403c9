/** A run in which torn writes lose a committed entry, for every cluster of three or more that is of odd size.

  With 2h + 1 members: c stands in term 2 and gets the votes of the h members of V. Each of them times out and
  dies between its two writes: it is in term 3 with its vote still for c. The h others elect a in term 3, and a
  commits an entry that the members of V hold. They time out and die between their writes again, which leaves
  them in term 4, with the vote still for c. c, whose log is empty, stands in term 4, and they tell it that it
  has their votes.
*/
module TornRun {
  import opened RaftTypes
  import opened Quorum
  import opened RaftStep
  import opened Cluster
  import opened Invariant
  import opened Safety
  import opened Theorems
  import opened Campaigns
  import opened Replications
  import opened TornWrites

  // ---------- runs

  ghost function Wholes(run: seq<Event>): seq<TornEvent> {
    seq(|run|, i requires 0 <= i < |run| => Whole(run[i]))
  }

  lemma {:induction false} WholeRun(g: System, run: seq<Event>)
    ensures TornExec(g, Wholes(run)) == Exec(g, run)
    decreases |run|
  {
    hide Next;
    if run != [] {
      var most := run[..|run| - 1];
      WholeRun(g, most);
      assert Wholes(run)[..|run| - 1] == Wholes(most);
    }
  }

  lemma {:induction false} TornSplit(g: System, a: seq<TornEvent>, b: seq<TornEvent>)
    ensures TornExec(g, a + b) == TornExec(TornExec(g, a), b)
    decreases |b|
  {
    hide TornNext;
    if b == [] {
      assert a + b == a;
    } else {
      assert (a + b)[..|a + b| - 1] == a + b[..|b| - 1];
      TornSplit(g, a, b[..|b| - 1]);
    }
  }

  lemma TornOne(g: System, te: TornEvent)
    ensures TornExec(g, [te]) == TornNext(g, te)
  {
    assert [te][..0] == [];
  }

  // ---------- votes that are not counted

  /** c asks for the vote of v and does not wait for the answer. */
  lemma AskOne(g: System, c: Addr, peers: seq<Addr>, term: nat, v: Addr) returns (run: seq<Event>)
    requires c in g.servers && Campaigning(g.servers[c], c, peers, term, {}) && v in PeerSet(peers) && v != c
    requires v in g.servers && Willing(g.servers[v], v, c, term)
    ensures var g' := Exec(g, run);
            && SameServers(g, g', {v, c}) && Campaigning(g'.servers[c], c, peers, term, {})
            && g'.servers[v] == OnRequestVote(g.servers[v], Ask(c, v, term), true).server
  {
    hide Next, Willing, Campaigning, OnRequestVote, PeerSet, Granting;
    var e1, e2 := VoteTimer(c, v), Deliver(Ask(c, v, term), true);
    assert v in PeerSet(peers) - {};
    Asks(g, c, peers, term, {}, v);
    Answers(Next(g, e1), c, term, v);
    run := [e1, e2];
    OneStep(g, [], e1);
    OneStep(g, [e1], e2);
    StartsEmpty(g);
    assert [] + [e1] == [e1] && [e1] + [e2] == [e1, e2];
  }

  lemma {:induction false} AskAll(g: System, c: Addr, peers: seq<Addr>, term: nat, vs: set<Addr>)
      returns (run: seq<Event>)
    requires c in g.servers && Campaigning(g.servers[c], c, peers, term, {})
    requires vs <= PeerSet(peers) && c !in vs
    requires forall v | v in vs :: v in g.servers && Willing(g.servers[v], v, c, term)
    ensures var g' := Exec(g, run);
            && SameServers(g, g', vs + {c}) && Campaigning(g'.servers[c], c, peers, term, {})
            && forall v | v in vs :: g'.servers[v] == OnRequestVote(g.servers[v], Ask(c, v, term), true).server
    decreases |vs|
  {
    hide Exec, Willing, Campaigning, OnRequestVote, PeerSet;
    if vs == {} {
      run := [];
      StartsEmpty(g);
    } else {
      var v :| v in vs;
      var first := AskOne(g, c, peers, term, v);
      var rest := vs - {v};
      assert |rest| == |vs| - 1;
      var more := AskAll(Exec(g, first), c, peers, term, rest);
      ExecSplit(g, first, more);
      run := first + more;
    }
  }

  // ---------- torn timeouts

  /** A server whose election timer is armed, so that it can die while it stands. */
  ghost predicate CanTear(s: Server, v: Addr) {
    s.alive && s.me == v && s.role == Follower && s.timers.election
  }

  lemma TearOne(g: System, v: Addr)
    requires v in g.servers && CanTear(g.servers[v], v)
    ensures var s, g' := g.servers[v], TornNext(g, Torn(Timeout(v, false)));
            SameServers(g, g', {v}) && g'.servers[v] == TornServer(s, s.term + 1, s.vote)
  {
    hide TornServer, QuorumAll;
    var s := g.servers[v];
    StandsNext(s);
    TornName(s, s.term + 1, s.vote);
  }

  lemma StandsNext(s: Server)
    requires s.role == Follower
    ensures Elect(s, false).server.term == s.term + 1
  {
    hide QuorumAll;
  }

  lemma {:induction false} TearAll(g: System, vs: set<Addr>) returns (run: seq<TornEvent>)
    requires forall v | v in vs :: v in g.servers && CanTear(g.servers[v], v)
    ensures var g' := TornExec(g, run);
            && SameServers(g, g', vs)
            && forall v | v in vs :: g'.servers[v] == TornServer(g.servers[v], g.servers[v].term + 1, g.servers[v].vote)
    decreases |vs|
  {
    hide TornNext, CanTear, TornServer;
    if vs == {} {
      run := [];
    } else {
      var v :| v in vs;
      var te := Torn(Timeout(v, false));
      TearOne(g, v);
      var g1 := TornNext(g, te);
      TornOne(g, te);
      var rest := vs - {v};
      assert |rest| == |vs| - 1;
      var more := TearAll(g1, rest);
      TornSplit(g, [te], more);
      run := [te] + more;
    }
  }

  // ---------- the members

  /** a commits with the h members of vs after the votes of the h members of ws; c is one of ws. */
  ghost predicate Roles(peersOf: map<Addr, seq<Addr>>, a: Addr, c: Addr, vs: set<Addr>, ws: set<Addr>) {
    && {a, c} + vs + ws <= peersOf.Keys && NO_ADDR !in peersOf
    && a !in vs + ws && c in ws && vs !! ws && |vs| == |ws| > 0
    && PeersMatch(peersOf, a, vs) && PeersMatch(peersOf, c, vs) && ws <= PeerSet(peersOf[a])
  }

  ghost predicate PeersMatch(peersOf: map<Addr, seq<Addr>>, x: Addr, vs: set<Addr>) {
    && x in peersOf && |peersOf[x]| > 0 && vs <= PeerSet(peersOf[x])
    && |PeerSet(peersOf[x])| == 2 * |vs| && Goal(peersOf[x]) == |vs| + 1
  }

  lemma SplitMembers(peersOf: map<Addr, seq<Addr>>) returns (a: Addr, c: Addr, vs: set<Addr>, ws: set<Addr>)
    requires SoundCluster(peersOf) && |peersOf| >= 3
    ensures Roles(peersOf, a, c, vs, ws)
  {
    hide Configured, PeerSet;
    var all := peersOf.Keys;
    assert |all| == |peersOf|;
    a :| a in all;
    var rest := all - {a};
    assert |rest| == |all| - 1;
    ws := Pick(rest, |rest| / 2);
    c :| c in ws;
    vs := rest - ws;
    assert |vs| == |rest| - |ws|;
    Matching(peersOf, a, vs);
    Matching(peersOf, c, vs);
    PeersAre(peersOf, a);
  }

  lemma Matching(peersOf: map<Addr, seq<Addr>>, x: Addr, vs: set<Addr>)
    requires Configured(peersOf) && x in peersOf && vs <= peersOf.Keys - {x}
    requires |peersOf.Keys| == 2 * |vs| + 1 && |vs| > 0
    ensures PeersMatch(peersOf, x, vs) && NO_ADDR !in peersOf
  {
    hide Configured, PeerSet;
    PeersAre(peersOf, x);
    NoUnnamed(peersOf);
    var v :| v in vs;
    NonEmpty(peersOf[x], v);
  }

  lemma NoUnnamed(peersOf: map<Addr, seq<Addr>>)
    requires Configured(peersOf)
    ensures NO_ADDR !in peersOf
  {
  }

  // ---------- first part: c does not win term 2, and its voters keep their votes in term 3

  /** c stands in term 2; its voters are in term 3 with their votes still for it; the others have just started. */
  ghost predicate Abandoned(g: System, peersOf: map<Addr, seq<Addr>>, c: Addr, vs: set<Addr>) {
    && g.servers.Keys == peersOf.Keys
    && c in peersOf && Campaigning(g.servers[c], c, peersOf[c], 2, {})
    && (forall v | v in vs && v in peersOf :: g.servers[v] == FirstStart(v, peersOf[v]).(term := 3, vote := c))
    && forall x | x in peersOf && x != c && x !in vs :: g.servers[x] == FirstStart(x, peersOf[x])
  }

  /** v has voted for c in term 2, and will keep that vote in term 3. */
  ghost predicate KeepsVote(s: Server, v: Addr, peers: seq<Addr>, c: Addr) {
    CanTear(s, v) && TornServer(s, s.term + 1, s.vote) == FirstStart(v, peers).(term := 3, vote := c)
  }

  lemma TornVoter(v: Addr, peers: seq<Addr>, c: Addr)
    ensures KeepsVote(OnRequestVote(FirstStart(v, peers), Ask(c, v, 2), true).server, v, peers, c)
  {
    FirstVote(v, peers, c);
  }

  lemma Abandons(peersOf: map<Addr, seq<Addr>>, a: Addr, c: Addr, vs: set<Addr>, ws: set<Addr>)
      returns (run: seq<TornEvent>)
    requires Roles(peersOf, a, c, vs, ws)
    ensures Abandoned(TornAfter(peersOf, run), peersOf, c, vs)
  {
    hide Exec, TornExec, Init, FirstStart, Campaigning, CanTear, TornServer, PeersMatch, PeerSet;
    var asks := CastsVotes(peersOf, a, c, vs, ws);
    var g := After(peersOf, asks);
    var tears := TearAll(g, vs);
    WholeRun(Init(peersOf), asks);
    TornSplit(Init(peersOf), Wholes(asks), tears);
    run := Wholes(asks) + tears;
  }

  lemma CastsVotes(peersOf: map<Addr, seq<Addr>>, a: Addr, c: Addr, vs: set<Addr>, ws: set<Addr>)
      returns (run: seq<Event>)
    requires Roles(peersOf, a, c, vs, ws)
    ensures var g := After(peersOf, run);
            && g.servers.Keys == peersOf.Keys && Campaigning(g.servers[c], c, peersOf[c], 2, {})
            && (forall x | x in peersOf && x != c && x !in vs :: g.servers[x] == FirstStart(x, peersOf[x]))
            && forall v | v in vs :: KeepsVote(g.servers[v], v, peersOf[v], c)
  {
    hide Exec, Init, FirstStart, OnRequestVote, Willing, Campaigning, KeepsVote, PeerSet, Goal;
    var g, stand := StandsAlone(peersOf, c, vs);
    var asks := AskAll(g, c, peersOf[c], 2, vs);
    ExecSplit(Init(peersOf), stand, asks);
    run := stand + asks;
    forall v | v in vs
      ensures KeepsVote(Exec(g, asks).servers[v], v, peersOf[v], c)
    {
      TornVoter(v, peersOf[v], c);
    }
  }

  lemma StandsAlone(peersOf: map<Addr, seq<Addr>>, c: Addr, vs: set<Addr>) returns (g: System, run: seq<Event>)
    requires c in peersOf && c != NO_ADDR && |peersOf[c]| > 0 && vs <= peersOf.Keys && c !in vs
    ensures g == After(peersOf, run) && g.servers.Keys == peersOf.Keys
    ensures Campaigning(g.servers[c], c, peersOf[c], 2, {})
    ensures forall v | v in vs :: Willing(g.servers[v], v, c, 2)
    ensures forall x | x in peersOf && x != c :: g.servers[x] == FirstStart(x, peersOf[x])
  {
    hide Campaigning, Willing, Exec, Init;
    g, run := FirstStand(peersOf, c, peersOf.Keys - {c});
  }

  // ---------- second part: the others elect a in term 3, and it commits with c's voters

  /** c has given a its vote for term 3. */
  ghost predicate Displaced(s: Server, c: Addr, peers: seq<Addr>) {
    && s.alive && s.me == c && s.peers == peers && s.role != Leader && s.term == 3 && s.timers.election
    && !s.leaderTransfer && s.log == [] && s.sm == [] && s.commit == s.lastApply == 0
    && s.votes.Keys == PeerSet(peers) && s.indices.Keys == PeerSet(peers)
  }

  /** a has committed its no-op of term 3, which vs hold; vs have not forgotten that they voted for c. */
  ghost predicate NoopCommitted(g: System, peersOf: map<Addr, seq<Addr>>, a: Addr, c: Addr, vs: set<Addr>) {
    && g.servers.Keys == peersOf.Keys && {a, c} + vs <= peersOf.Keys
    && g.servers[a].term == 3 && g.servers[a].log == [NoopEntry(3)] && g.servers[a].commit == 1
    && Displaced(g.servers[c], c, peersOf[c])
    && AllFollow(g, vs, 3, c, [NoopEntry(3)], a)
  }

  lemma Displaces(s: Server, c: Addr, peers: seq<Addr>, a: Addr)
    requires Campaigning(s, c, peers, 2, {}) && a != NO_ADDR
    ensures Willing(s, c, a, 3) && Displaced(OnRequestVote(s, Ask(a, c, 3), true).server, c, peers)
  {
  }

  /** a stands, and stands again. */
  lemma StandsTwice(g: System, a: Addr, peers: seq<Addr>) returns (run: seq<Event>)
    requires a in g.servers && a != NO_ADDR && g.servers[a] == FirstStart(a, peers) && |peers| > 0
    ensures var g' := Exec(g, run); SameServers(g, g', {a}) && Campaigning(g'.servers[a], a, peers, 3, {})
  {
    hide Next;
    var e := Timeout(a, false);
    Stand(g, a);
    Stand(Next(g, e), a);
    run := [e, e];
    OneStep(g, [], e);
    OneStep(g, [e], e);
    StartsEmpty(g);
    assert [] + [e] == [e] && [e] + [e] == [e, e];
  }

  lemma Elects(g: System, peersOf: map<Addr, seq<Addr>>, a: Addr, c: Addr, vs: set<Addr>, ws: set<Addr>)
      returns (run: seq<Event>)
    requires Roles(peersOf, a, c, vs, ws) && Abandoned(g, peersOf, c, vs)
    ensures var g' := Exec(g, run);
            && SameServers(g, g', ws + {a})
            && Replicating(g'.servers[a], a, peersOf[a], 3, [NoopEntry(3)], {}, PeerSet(peersOf[a]))
            && Displaced(g'.servers[c], c, peersOf[c])
  {
    hide Exec, FirstStart, OnRequestVote, Willing, Campaigning, Displaced, PeerSet, Goal, Elected, Replicating;
    hide Granting, Abandoned, SameServers;
    AtFirst(g, peersOf, a, c, vs);
    var stands := StandsTwice(g, a, peersOf[a]);
    var g1 := Exec(g, stands);
    Untouched(g, g1, {a}, ws);
    forall w | w in ws
      ensures w in g1.servers && Willing(g1.servers[w], w, a, 3)
    {
      WaitersAreWilling(g, peersOf, a, c, vs, w);
    }
    assert PeerSet(peersOf[a]) - {} == PeerSet(peersOf[a]);
    var votes := Collect(g1, a, peersOf[a], 3, {}, ws);
    Displaces(g1.servers[c], c, peersOf[c], a);
    ExecSplit(g, stands, votes);
    run := stands + votes;
    Joined(g, g1, Exec(g, run), {a}, ws + {a}, ws + {a});
    Untouched(g, Exec(g, run), ws + {a}, {});
    ElectedReplicates(Exec(g, run).servers[a], a, peersOf[a], 3);
  }

  lemma AtFirst(g: System, peersOf: map<Addr, seq<Addr>>, a: Addr, c: Addr, vs: set<Addr>)
    requires Abandoned(g, peersOf, c, vs) && a in peersOf && a !in vs && a != c
    ensures a in g.servers && g.servers[a] == FirstStart(a, peersOf[a])
    ensures g.servers.Keys == peersOf.Keys && Campaigning(g.servers[c], c, peersOf[c], 2, {})
  {
  }

  lemma WaitersAreWilling(g: System, peersOf: map<Addr, seq<Addr>>, a: Addr, c: Addr, vs: set<Addr>, w: Addr)
    requires Abandoned(g, peersOf, c, vs) && w in peersOf && w !in vs && a != NO_ADDR
    ensures w in g.servers && Willing(g.servers[w], w, a, 3)
  {
    hide FirstStart, Campaigning, Willing, OnRequestVote, Displaced;
    if w == c {
      Displaces(g.servers[c], c, peersOf[c], a);
    } else {
      FirstIsWilling(w, peersOf[w], a, 3);
    }
  }

  lemma VotersFollow(g: System, peersOf: map<Addr, seq<Addr>>, a: Addr, c: Addr, vs: set<Addr>)
    requires Abandoned(g, peersOf, c, vs) && vs <= peersOf.Keys
    ensures AllFollow(g, vs, 3, c, [], a)
  {
  }

  lemma ReplicatingCommitted(s: Server, a: Addr, peers: seq<Addr>, vs: set<Addr>)
    requires Replicating(s, a, peers, 3, [NoopEntry(3)], vs, PeerSet(peers)) && |PeerSet(peers)| == 2 * |vs|
    ensures s.term == 3 && s.log == [NoopEntry(3)] && s.commit == 1
  {
  }

  /** a, elected, gets its no-op acknowledged by c's voters. */
  lemma AllAck(g: System, peersOf: map<Addr, seq<Addr>>, a: Addr, c: Addr, vs: set<Addr>) returns (run: seq<Event>)
    requires PeersMatch(peersOf, a, vs) && a !in vs && a != NO_ADDR && c !in vs && c != a
    requires g.servers.Keys == peersOf.Keys && c in peersOf && Displaced(g.servers[c], c, peersOf[c])
    requires Replicating(g.servers[a], a, peersOf[a], 3, [NoopEntry(3)], {}, PeerSet(peersOf[a]))
    requires AllFollow(g, vs, 3, c, [], a) && vs <= peersOf.Keys
    ensures NoopCommitted(Exec(g, run), peersOf, a, c, vs)
  {
    hide Exec, Displaced, AllFollow, PeerSet, Goal, Replicating, SameServers;
    assert [NoopEntry(3)][..0] == [];
    run := AckAll(g, a, peersOf[a], 3, c, [NoopEntry(3)], {}, PeerSet(peersOf[a]), vs);
    assert {} + vs == vs;
    Untouched(g, Exec(g, run), vs + {a}, {c});
    ReplicatingCommitted(Exec(g, run).servers[a], a, peersOf[a], vs);
  }

  lemma CommitsNoop(g: System, peersOf: map<Addr, seq<Addr>>, a: Addr, c: Addr, vs: set<Addr>, ws: set<Addr>)
      returns (run: seq<Event>)
    requires Roles(peersOf, a, c, vs, ws) && Abandoned(g, peersOf, c, vs)
    ensures NoopCommitted(Exec(g, run), peersOf, a, c, vs)
  {
    hide Exec, Abandoned, Displaced, AllFollow, PeersMatch, NoopCommitted, Replicating, SameServers;
    AtFirst(g, peersOf, a, c, vs);
    var elects := Elects(g, peersOf, a, c, vs, ws);
    var g1 := Exec(g, elects);
    VotersFollow(g, peersOf, a, c, vs);
    StillFollow(g, g1, ws + {a}, vs, vs, 3, c, [], a);
    Untouched(g, g1, ws + {a}, {});
    var acks := AllAck(g1, peersOf, a, c, vs);
    ExecSplit(g, elects, acks);
    run := elects + acks;
  }

  // ---------- third part: c's voters take it for the candidate of term 4

  lemma StillWilling(s: Server, v: Addr, c: Addr, a: Addr)
    requires Following(s, v, 3, c, [NoopEntry(3)], a) && c != NO_ADDR
    ensures CanTear(s, v) && s.term == 3 && s.vote == c && Willing(TornServer(s, 4, c), v, c, 4)
  {
  }

  /** c's voters die between their writes, and c stands for term 4. */
  lemma StandsAgain(g: System, peersOf: map<Addr, seq<Addr>>, a: Addr, c: Addr, vs: set<Addr>)
      returns (tears: seq<TornEvent>)
    requires NoopCommitted(g, peersOf, a, c, vs) && c !in vs && c != NO_ADDR && |peersOf[c]| > 0
    ensures var g' := Next(TornExec(g, tears), Timeout(c, false));
            && c in g'.servers && Campaigning(g'.servers[c], c, peersOf[c], 4, {})
            && forall v | v in vs :: v in g'.servers && Willing(g'.servers[v], v, c, 4)
  {
    hide Next, TornExec, FirstStart, OnRequestVote, Willing, Campaigning, CanTear, TornServer, Following, PeerSet;
    forall v | v in vs
      ensures v in g.servers && CanTear(g.servers[v], v)
      ensures g.servers[v].term == 3 && g.servers[v].vote == c && Willing(TornServer(g.servers[v], 4, c), v, c, 4)
    {
      StillWilling(g.servers[v], v, c, a);
    }
    tears := TearAll(g, vs);
    Stand(TornExec(g, tears), c);
  }

  lemma Returns(g: System, peersOf: map<Addr, seq<Addr>>, a: Addr, c: Addr, vs: set<Addr>, ws: set<Addr>)
      returns (run: seq<TornEvent>)
    requires Roles(peersOf, a, c, vs, ws) && NoopCommitted(g, peersOf, a, c, vs)
    ensures var g' := TornExec(g, run); c in g'.servers && Elected(g'.servers[c], c, peersOf[c], 4)
  {
    hide Exec, TornExec, Willing, Campaigning, NoopCommitted, PeerSet, Goal, Elected, Granting;
    var tears := StandsAgain(g, peersOf, a, c, vs);
    var g1, e := TornExec(g, tears), Timeout(c, false);
    OneStep(g1, [], e);
    StartsEmpty(g1);
    assert [] + [e] == [e];
    assert PeerSet(peersOf[c]) - {} == PeerSet(peersOf[c]);
    var votes := Collect(Exec(g1, [e]), c, peersOf[c], 4, {}, vs);
    ExecSplit(g1, [e], votes);
    WholeRun(g1, [e] + votes);
    TornSplit(g, tears, Wholes([e] + votes));
    run := tears + Wholes([e] + votes);
  }

  // ---------- the whole run

  lemma CommittedIsLost(peersOf: map<Addr, seq<Addr>>)
      returns (run: seq<TornEvent>, more: seq<TornEvent>, a: Addr, c: Addr)
    requires SoundCluster(peersOf) && |peersOf| >= 3
    ensures var g1, g2 := TornAfter(peersOf, run), TornAfter(peersOf, run + more);
            && a in g1.servers && g1.servers[a].term == 3
            && g1.servers[a].log == [NoopEntry(3)] && g1.servers[a].commit == 1
            && c in g2.servers && g2.servers[c].role == Leader && g2.servers[c].term == 4
            && g2.servers[c].log == [NoopEntry(4)]
  {
    hide TornExec, Exec, Init, Roles, Abandoned, SoundCluster, Displaced, Following;
    var vs, ws;
    a, c, vs, ws := SplitMembers(peersOf);
    var first := Abandons(peersOf, a, c, vs, ws);
    var g := TornAfter(peersOf, first);
    var commits := CommitsNoop(g, peersOf, a, c, vs, ws);
    WholeRun(g, commits);
    TornSplit(Init(peersOf), first, Wholes(commits));
    run := first + Wholes(commits);
    more := Returns(TornAfter(peersOf, run), peersOf, a, c, vs, ws);
    TornSplit(Init(peersOf), run, more);
  }

  /** A leader has every entry that was committed before, on all runs of the kind, exactly if no torn write hits
      a server that has voted for another. */
  lemma TornCompletenessExactly(peersOf: map<Addr, seq<Addr>>, voted: bool)
    requires SoundCluster(peersOf)
    ensures AlwaysComplete(peersOf, voted) <==> !voted || |peersOf| <= 2
  {
    hide SoundCluster, TornExec, Init, TornAllowed, Complete;
    if voted && |peersOf| > 2 {
      var run, more, a, c := CommittedIsLost(peersOf);
      Incomplete(peersOf, run, more, a, c);
    } else {
      forall run: seq<TornEvent>, lo: nat, a: Addr, b: Addr | TornAllowed(peersOf, run, voted)
        ensures Complete(peersOf, run, lo, a, b)
      {
        HarmlessIsComplete(peersOf, run, lo, a, b);
      }
    }
  }

  lemma Incomplete(peersOf: map<Addr, seq<Addr>>, run: seq<TornEvent>, more: seq<TornEvent>, a: Addr, c: Addr)
    requires var g1, g2 := TornAfter(peersOf, run), TornAfter(peersOf, run + more);
             && a in g1.servers && g1.servers[a].term == 3
             && g1.servers[a].log == [NoopEntry(3)] && g1.servers[a].commit == 1
             && c in g2.servers && g2.servers[c].role == Leader && g2.servers[c].term == 4
             && g2.servers[c].log == [NoopEntry(4)]
    ensures !AlwaysComplete(peersOf, true)
  {
    hide TornAfter;
    assert (run + more)[..|run|] == run;
    assert [NoopEntry(4)][..1][0] != [NoopEntry(3)][..1][0];
    assert !Complete(peersOf, run + more, |run|, a, c);
    assert TornAllowed(peersOf, run + more, true);
  }
}
