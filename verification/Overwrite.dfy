/** Runs in which a new leader replaces what a follower's log has and its own has not. */
module Overwrites {
  import opened RaftTypes
  import opened Quorum
  import opened RaftStep
  import opened Cluster
  import opened Safety
  import opened Theorems
  import opened Campaigns
  import opened Replications

  /** A server in term 1 or 2 with nothing in its log. */
  ghost predicate Unwritten(s: Server, v: Addr) {
    s.alive && s.me == v && s.log == [] && s.sm == [] && s.term < 3
  }

  lemma OthersBlank(g: System, peersOf: map<Addr, seq<Addr>>, a: Addr, voters: set<Addr>, v: Addr)
    requires v in peersOf && v != a
    requires forall v | v in voters :: VotedFor(g, peersOf, a, v)
    requires forall x | x in peersOf && x != a && x !in voters :: Waits(g, peersOf, x)
    ensures v in g.servers && Unwritten(g.servers[v], v)
  {
  }

  /** A voter of a's stands for term 3. */
  lemma VoterStands(g: System, peersOf: map<Addr, seq<Addr>>, a: Addr, c: Addr)
    requires VotedFor(g, peersOf, a, c) && c != NO_ADDR && |peersOf[c]| > 0
    ensures var g' := Next(g, Timeout(c, false));
            c in g'.servers && Campaigning(g'.servers[c], c, peersOf[c], 3, {}) && SameServers(g, g', {c})
  {
    hide Next, Granting;
    Stand(g, c);
  }

  /** The leader of term 2 with its no-op gets the no-op of term 3. */
  lemma Gives(s: Server, a: Addr, peers: seq<Addr>, c: Addr)
    requires Elected(s, a, peers, 2) && c != NO_ADDR
    ensures var s' := OnAppendEntries(s, Beat(c, a, 3, [NoopEntry(3)])).server;
            s'.me == a && s'.log == [NoopEntry(3)] && s'.term == 3 && s'.role == Follower
  {
    var m := Beat(c, a, 3, [NoopEntry(3)]);
    assert Payload(m.entries) == [NoopEntry(3)];
    assert [NoopEntry(2)][..0] + [NoopEntry(3)] == [NoopEntry(3)];
  }

  lemma NoopReplaced(g: System, a: Addr, c: Addr, peers: seq<Addr>)
    requires a in g.servers && g.servers[a].alive && g.servers[a].me == a && Elected(g.servers[a], a, peers, 2)
    requires Beat(c, a, 3, [NoopEntry(3)]) in g.msgs && c != NO_ADDR
    ensures var g' := Next(g, Deliver(Beat(c, a, 3, [NoopEntry(3)]), true));
            SameServers(g, g', {a}) && g'.servers[a].log == [NoopEntry(3)]
  {
    hide Record, OnAppendEntries, Elected;
    Gives(g.servers[a], a, peers, c);
  }

  lemma IsElected(s: Server, a: Addr, peers: seq<Addr>, term: nat)
    requires Elected(s, a, peers, term)
    ensures s.alive && s.me == a && a != NO_ADDR && s.role == Leader && s.term == term && s.log == [NoopEntry(term)]
  {
  }

  /** The members that vote for c, other than a. */
  lemma OtherVoters(peersOf: map<Addr, seq<Addr>>, a: Addr, c: Addr) returns (ws: set<Addr>)
    requires Configured(peersOf) && |peersOf| >= 3 && a in peersOf && c in peersOf && a != c
    ensures c != NO_ADDR && |peersOf[c]| > 0 && a in PeerSet(peersOf[c])
    ensures ws != {} && ws <= PeerSet(peersOf[c]) && ws <= peersOf.Keys && a !in ws && c !in ws
    ensures |ws| + 1 == Goal(peersOf[c])
  {
    hide Configured, PeerSet;
    PeersAre(peersOf, c);
    assert |peersOf.Keys| == |peersOf|;
    var rest := PeerSet(peersOf[c]) - {a};
    assert |rest| == |peersOf| - 2;
    ws := Pick(rest, Goal(peersOf[c]) - 1);
    NonEmpty(peersOf[c], a);
    var w :| w in ws;
  }

  /** c, with the votes of others, is elected in term 3, and its heartbeat reaches a. */
  lemma Takeover(g: System, peersOf: map<Addr, seq<Addr>>, a: Addr, c: Addr, voters: set<Addr>)
      returns (run: seq<Event>)
    requires Configured(peersOf) && |peersOf| >= 3 && a in peersOf && c in voters && a !in voters
    requires voters <= peersOf.Keys && g.servers.Keys == peersOf.Keys && Elected(g.servers[a], a, peersOf[a], 2)
    requires forall v | v in voters :: VotedFor(g, peersOf, a, v)
    requires forall x | x in peersOf && x != a && x !in voters :: Waits(g, peersOf, x)
    ensures var g' := Exec(g, run);
            && a in g'.servers && g'.servers[a].log == [NoopEntry(3)]
            && c in g'.servers && Elected(g'.servers[c], c, peersOf[c], 3)
  {
    hide Configured, PeerSet, Exec, Next, VotedFor, Waits, Unwritten, Willing, Campaigning, Elected, Goal, Granting;
    hide OnRequestVote, Replicating;
    var ws := OtherVoters(peersOf, a, c);
    var e := Timeout(c, false);
    VoterStands(g, peersOf, a, c);
    var g1 := Next(g, e);
    OneStep(g, [], e);
    StartsEmpty(g);
    assert [] + [e] == [e];
    forall w | w in ws
      ensures w in g1.servers && Willing(g1.servers[w], w, c, 3)
    {
      OthersBlank(g, peersOf, a, voters, w);
      BlankIsWilling(g1.servers[w], w, c);
    }
    assert PeerSet(peersOf[c]) - {} == PeerSet(peersOf[c]);
    var votes := Collect(g1, c, peersOf[c], 3, {}, ws);
    var g2 := Exec(g1, votes);
    ExecSplit(g, [e], votes);
    var e1, e2 := BeatTimer(c, a), Deliver(Beat(c, a, 3, [NoopEntry(3)]), true);
    ElectedReplicates(g2.servers[c], c, peersOf[c], 3);
    NotYetEnough(peersOf[c], a);
    Beats(g2, c, peersOf[c], 3, [NoopEntry(3)], {}, PeerSet(peersOf[c]), a);
    var g3 := Next(g2, e1);
    OneStep(g, [e] + votes, e1);
    IsElected(g3.servers[a], a, peersOf[a], 2);
    NoopReplaced(g3, a, c, peersOf[a]);
    OneStep(g, [e] + votes + [e1], e2);
    run := [e] + votes + [e1] + [e2];
  }

  lemma NotYetEnough(peers: seq<Addr>, p: Addr)
    requires p in PeerSet(peers)
    ensures !Enough(peers, {})
  {
    assert |PeerSet(peers)| >= 1;
  }

  lemma BlankIsWilling(s: Server, v: Addr, c: Addr)
    requires Unwritten(s, v) && c != NO_ADDR
    ensures Willing(s, v, c, 3)
  {
    hide Willing;
    EarlierIsWilling(s, v, c, 3);
  }

  /** In every cluster of three or more, some run makes a server lead, and later replaces its log by what a leader
      of the next term has. */
  lemma SuffixIsReplaced(peersOf: map<Addr, seq<Addr>>, a: Addr)
      returns (run: seq<Event>, more: seq<Event>, c: Addr)
    requires Configured(peersOf) && |peersOf| >= 3 && a in peersOf
    ensures var g1, g2 := After(peersOf, run), After(peersOf, run + more);
            && a in g1.servers && g1.servers[a].role == Leader && g1.servers[a].log == [NoopEntry(2)]
            && a in g2.servers && g2.servers[a].log == [NoopEntry(3)]
            && c in g2.servers && c != a && g2.servers[c].role == Leader && g2.servers[c].log == [NoopEntry(3)]
  {
    hide Configured, PeerSet, Exec, Init, VotedFor, Waits, Elected, Goal;
    assert |peersOf.Keys| == |peersOf|;
    PeersAre(peersOf, a);
    var voters;
    run, voters := AnyoneCanLead(peersOf, a);
    c :| c in voters;
    var g := After(peersOf, run);
    more := Takeover(g, peersOf, a, c, voters);
    ExecSplit(Init(peersOf), run, more);
    IsElected(g.servers[a], a, peersOf[a], 2);
    IsElected(Exec(g, more).servers[c], c, peersOf[c], 3);
  }
}
