/** The vote threshold of the source is half the members, rounded up. With an even number of members, four
    or more, two candidates can both reach it in one term. */
module EvenCluster {
  import opened RaftTypes
  import opened Quorum
  import opened RaftStep
  import opened Cluster
  import opened Theorems
  import opened Safety
  import opened Campaigns

  lemma TwoOf(all: set<Addr>) returns (a: Addr, b: Addr)
    requires |all| >= 2
    ensures a in all && b in all && a != b
  {
    a :| a in all;
    assert |all - {a}| >= 1;
    b :| b in all - {a};
  }

  /** Two candidates and, for each, enough other members to reach the threshold without the other's. */
  lemma Camps(peersOf: map<Addr, seq<Addr>>) returns (a: Addr, b: Addr, va: set<Addr>, vb: set<Addr>)
    requires Configured(peersOf) && |peersOf.Keys| % 2 == 0 && |peersOf.Keys| >= 4
    ensures a in peersOf && b in peersOf && a != b && a != NO_ADDR && b != NO_ADDR
    ensures PeerSet(peersOf[a]) == peersOf.Keys - {a} && PeerSet(peersOf[b]) == peersOf.Keys - {b}
    ensures va != {} && vb != {} && va !! vb && va + vb <= peersOf.Keys - {a, b}
    ensures |va| + 1 == Goal(peersOf[a]) && |vb| + 1 == Goal(peersOf[b])
  {
    hide Configured, PeerSet;
    var all := peersOf.Keys;
    a, b := TwoOf(all);
    PeersAre(peersOf, a);
    PeersAre(peersOf, b);
    va, vb := Halves(all, a, b);
  }

  lemma Halves(all: set<Addr>, a: Addr, b: Addr) returns (va: set<Addr>, vb: set<Addr>)
    requires |all| % 2 == 0 && |all| >= 4 && a in all && b in all && a != b
    ensures va != {} && vb != {} && va !! vb && va + vb <= all - {a, b}
    ensures |va| + 1 == |vb| + 1 == Threshold(|all| - 1)
  {
    var others := all - {a} - {b};
    var h := |all| / 2;
    assert |others| == 2 * h - 2;
    va := Pick(others, h - 1);
    vb := others - va;
    assert |vb| == h - 1;
  }

  /** Both candidates stand before either asks for a vote. */
  lemma BothStand(peersOf: map<Addr, seq<Addr>>, a: Addr, b: Addr) returns (run: seq<Event>)
    requires a in peersOf && b in peersOf && a != b && a != NO_ADDR && b != NO_ADDR
    requires |peersOf[a]| > 0 && |peersOf[b]| > 0
    ensures var g := After(peersOf, run);
            && g.servers.Keys == peersOf.Keys
            && Campaigning(g.servers[a], a, peersOf[a], 2, {})
            && Campaigning(g.servers[b], b, peersOf[b], 2, {})
            && forall v | v in peersOf && v != a && v != b :: Waits(g, peersOf, v)
  {
    hide Next, Campaigning;
    var g0 := Init(peersOf);
    var e1, e2 := Timeout(a, false), Timeout(b, false);
    StandFirst(g0, peersOf, a);
    StandFirst(Next(g0, e1), peersOf, b);
    OneStep(g0, [], e1);
    OneStep(g0, [e1], e2);
    run := [e1, e2];
    assert [] + [e1] == [e1] && [e1] + [e2] == run;
  }

  /** With an even number of members, four or more, some run has two leaders of term 2 at once. */
  lemma TwoLeaders(peersOf: map<Addr, seq<Addr>>) returns (g: System, a: Addr, b: Addr)
    requires Configured(peersOf) && |peersOf.Keys| % 2 == 0 && |peersOf.Keys| >= 4
    ensures Reachable(peersOf, g) && a in g.servers && b in g.servers && a != b
    ensures g.servers[a].role == Leader && g.servers[b].role == Leader
    ensures g.servers[a].term == g.servers[b].term == 2
  {
    hide Next, Campaigning, Configured, Threshold, Goal, Waits, Willing, Exec, Reachable, SameServers, Init;
    hide Elected, Granting, OnRequestVote;
    var va, vb;
    a, b, va, vb := Camps(peersOf);
    NonEmpty(peersOf[a], b);
    NonEmpty(peersOf[b], a);
    var r0 := BothStand(peersOf, a, b);
    var g0 := After(peersOf, r0);
    Ready(g0, peersOf, va, a);
    Ready(g0, peersOf, vb, b);
    var r1 := Collect(g0, a, peersOf[a], 2, {}, va);
    var g1 := Exec(g0, r1);
    Untouched(g0, g1, va + {a}, vb + {b});
    var r2 := Collect(g1, b, peersOf[b], 2, {}, vb);
    g := Exec(g1, r2);
    Untouched(g1, g, vb + {b}, va + {a});
    LeadsTerm(g.servers[a], a, peersOf[a], 2);
    LeadsTerm(g.servers[b], b, peersOf[b], 2);
    ThreeParts(peersOf, r0, r1, r2);
  }

  lemma LeadsTerm(s: Server, a: Addr, peers: seq<Addr>, term: nat)
    requires Elected(s, a, peers, term)
    ensures s.role == Leader && s.term == term
  {
  }

  lemma Ready(g: System, peersOf: map<Addr, seq<Addr>>, voters: set<Addr>, a: Addr)
    requires a != NO_ADDR && forall v | v in voters :: Waits(g, peersOf, v)
    ensures forall v | v in voters :: v in g.servers && Willing(g.servers[v], v, a, 2)
  {
    hide Willing, FirstStart;
    forall v | v in voters
      ensures v in g.servers && Willing(g.servers[v], v, a, 2)
    {
      assert Waits(g, peersOf, v);
      FirstIsWilling(v, peersOf[v], a, 2);
    }
  }

  lemma Untouched(g: System, g': System, changed: set<Addr>, kept: set<Addr>)
    requires SameServers(g, g', changed) && kept !! changed && kept <= g.servers.Keys
    ensures g'.servers.Keys == g.servers.Keys
    ensures forall v | v in kept :: g'.servers[v] == g.servers[v]
  {
  }

  lemma ThreeParts(peersOf: map<Addr, seq<Addr>>, r0: seq<Event>, r1: seq<Event>, r2: seq<Event>)
    ensures Reachable(peersOf, Exec(Exec(After(peersOf, r0), r1), r2))
  {
    hide Exec, Init;
    ExecSplit(Init(peersOf), r0, r1);
    ExecSplit(Init(peersOf), r0 + r1, r2);
    assert After(peersOf, r0 + r1 + r2) == Exec(Exec(After(peersOf, r0), r1), r2);
  }

  /** No reachable state has two leaders of one term. */
  ghost predicate OneLeaderPerTerm(peersOf: map<Addr, seq<Addr>>) {
    forall g: System, a: Addr, b: Addr ::
      Reachable(peersOf, g) && BothLead(g, a, b) ==> a == b
  }

  ghost predicate BothLead(g: System, a: Addr, b: Addr) {
    && a in g.servers && b in g.servers
    && g.servers[a].role == Leader && g.servers[b].role == Leader
    && g.servers[a].term == g.servers[b].term
  }

  /** Election safety holds exactly for the sizes that are odd or two. */
  lemma ElectionSafetyExactly(peersOf: map<Addr, seq<Addr>>)
    requires Configured(peersOf) && |peersOf| > 0
    ensures OneLeaderPerTerm(peersOf) <==> SoundSize(|peersOf|)
  {
    hide Configured, Next;
    if SoundSize(|peersOf|) {
      forall g: System, a: Addr, b: Addr | Reachable(peersOf, g) && BothLead(g, a, b)
        ensures a == b
      {
        assert g == Exec(g, []);
        ElectionSafety(peersOf, g, g, a, b);
      }
    } else {
      assert |peersOf.Keys| == |peersOf|;
      var g, a, b := TwoLeaders(peersOf);
      assert BothLead(g, a, b);
    }
  }
}
