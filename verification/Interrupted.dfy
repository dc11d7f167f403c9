/** What can happen to a leader that is stopped and started again within its term, in every cluster of two or
  more.

  It keeps term, vote and log and is a follower. A late reply to what it sent as leader then fails the
  assertion on being leader. And with pre-vote on it becomes a candidate of the same term, and late or
  duplicated replies to its old, real requests for votes make it leader of that term once more, with fresh
  tables: its match indexes start again from 0.
*/
module Interrupted {
  import opened RaftTypes
  import opened Quorum
  import opened RaftStep
  import opened Cluster
  import opened Theorems
  import opened Safety
  import opened Campaigns
  import opened Replications

  // ---------- one entry is acknowledged

  /** a leads term 2 with its no-op as its log, which u has acknowledged. */
  ghost predicate Reigns(s: Server, a: Addr, peers: seq<Addr>, u: Addr) {
    Replicating(s, a, peers, 2, [NoopEntry(2)], {u}, PeerSet(peers))
  }

  ghost function Ack(a: Addr, u: Addr): Message {
    Accepted(a, u, 2, 1)
  }

  lemma Further(peersOf: map<Addr, seq<Addr>>, run: seq<Event>, e: Event)
    ensures After(peersOf, run + [e]) == Next(After(peersOf, run), e)
  {
    hide Next, Init;
    OneStep(Init(peersOf), run, e);
  }

  /** a is elected by `voters` and one of them, u, acknowledges its no-op. */
  lemma FirstAck(peersOf: map<Addr, seq<Addr>>, a: Addr)
      returns (run: seq<Event>, voters: set<Addr>, u: Addr)
    requires Configured(peersOf) && |peersOf.Keys| >= 2 && a in peersOf
    ensures voters != {} && voters <= PeerSet(peersOf[a]) && |voters| + 1 == Goal(peersOf[a]) && u in voters
    ensures var g := After(peersOf, run);
            && a in g.servers && Ack(a, u) in g.msgs && Reigns(g.servers[a], a, peersOf[a], u)
            && forall v | v in voters :: Granting(g.msgs, a, v, 2)
  {
    hide Configured, Goal, PeerSet, Exec, Init, Elected, Replicating, Following, FirstStart, Granting;
    var r0;
    r0, voters := AnyoneCanLead(peersOf, a);
    u :| u in voters;
    var g, peers := After(peersOf, r0), peersOf[a];
    assert VotedFor(g, peersOf, a, u);
    ElectedReplicates(g.servers[a], a, peers, 2);
    VoterFollows(g.servers[u], u, peersOf[u], a);
    assert [NoopEntry(2)][..0] == [] && {} + {u} == {u} && u in PeerSet(peers) - {};
    var more := OneAck(g, a, peers, 2, a, [NoopEntry(2)], {}, PeerSet(peers), u);
    ExecSplit(Init(peersOf), r0, more);
    run := r0 + more;
    forall v | v in voters
      ensures Granting(After(peersOf, run).msgs, a, v, 2)
    {
      assert VotedFor(g, peersOf, a, v);
      StillGranting(g, After(peersOf, run), a, v, 2);
    }
  }

  // ---------- the assertion on being leader

  /** In every cluster of two or more, some run with a stop and start of a leader ends at a failed assertion. */
  lemma LeaderCanStop(peersOf: map<Addr, seq<Addr>>, a: Addr) returns (run: seq<Event>)
    requires Configured(peersOf) && |peersOf.Keys| >= 2 && a in peersOf
    ensures a in After(peersOf, run).servers && !After(peersOf, run).servers[a].alive
  {
    hide Configured, Next, After, Goal, PeerSet;
    var r0, voters, u := FirstAck(peersOf, a);
    var e1, e2 := Bounce(a), Deliver(Ack(a, u), true);
    Stops(After(peersOf, r0), a, u, peersOf[a]);
    Further(peersOf, r0, e1);
    Further(peersOf, r0 + [e1], e2);
    run := r0 + [e1] + [e2];
  }

  lemma Stops(g: System, a: Addr, u: Addr, peers: seq<Addr>)
    requires a in g.servers && Reigns(g.servers[a], a, peers, u) && Ack(a, u) in g.msgs
    ensures var g' := Next(Next(g, Bounce(a)), Deliver(Ack(a, u), true));
            a in g'.servers && !g'.servers[a].alive
  {
    hide Record, PeerRows, Enough, DataBetween;
  }

  // ---------- the same term, led again

  /** A candidate of the term it led before, with the grants of `done`. */
  ghost predicate Again(s: Server, a: Addr, peers: seq<Addr>, done: set<Addr>) {
    && s.alive && s.me == a && s.role == Candidate && s.term == 2 && s.vote == a
    && |s.log| == 1 && s.sm == []
    && s.votes.Keys == PeerSet(peers) && s.indices.Keys == PeerSet(peers)
    && Granted(s.votes) == done
  }

  ghost predicate LedAgain(s: Server, peers: seq<Addr>) {
    s.role == Leader && s.term == 2 && s.indices == Fill(PeerSet(peers), IndexItem(2, 0))
  }

  lemma OneGrantAgain(s: Server, a: Addr, peers: seq<Addr>, done: set<Addr>, v: Addr)
    requires Again(s, a, peers, done) && v in PeerSet(peers) - done
    ensures var s' := OnRealVote(s, v, true);
            if |done| + 2 >= Threshold(|PeerSet(peers)|) then LedAgain(s', peers) else Again(s', a, peers, done + {v})
  {
    hide OnRealVote, Granted, Fill;
    OneMoreGrant(s, v, done);
  }

  /** The old grants, delivered once more. */
  lemma {:induction false} Regain(g: System, a: Addr, peers: seq<Addr>, done: set<Addr>, voters: set<Addr>)
      returns (run: seq<Event>)
    requires a in g.servers && Again(g.servers[a], a, peers, done)
    requires voters <= PeerSet(peers) - done && voters != {} && |done| + |voters| + 1 == Goal(peers)
    requires forall v | v in voters :: Granting(g.msgs, a, v, 2)
    ensures var g' := Exec(g, run); a in g'.servers && LedAgain(g'.servers[a], peers)
    decreases |voters|
  {
    hide Next, LedAgain, Granting, OnRealVote, PeerSet;
    var v :| v in voters;
    var e := Deliver(TheGrant(g.msgs, a, v, 2), true);
    GrantArrives(g, a, 2, v);
    OneGrantAgain(g.servers[a], a, peers, done, v);
    var g1 := Next(g, e);
    OneStep(g, [], e);
    StartsEmpty(g);
    assert [] + [e] == [e];
    var rest := voters - {v};
    assert |rest| == |voters| - 1;
    if rest == {} {
      run := [e];
    } else {
      assert |done + {v}| == |done| + 1;
      forall w | w in rest
        ensures Granting(g1.msgs, a, w, 2)
      {
        StillGranting(g, g1, a, w, 2);
      }
      var more := Regain(g1, a, peers, done + {v}, rest);
      ExecSplit(g, [e], more);
      run := [e] + more;
    }
  }

  lemma StopsAndTimesOut(g: System, a: Addr)
    requires a in g.servers && g.servers[a].alive && g.servers[a].me == a
    ensures var g2 := Next(Next(g, Bounce(a)), Timeout(a, true));
            && a in g2.servers && g.msgs <= g2.msgs
            && g2.servers[a] == Elect(StopStart(g.servers[a]), true).server
  {
    hide Record, Elect;
  }

  lemma PreVotesAgain(s: Server, a: Addr, peers: seq<Addr>, u: Addr)
    requires Reigns(s, a, peers, u) && PeerSet(peers) != {}
    ensures Again(Elect(StopStart(s), true).server, a, peers, {})
  {
    hide PeerRows, Enough;
    if peers == [] {
      assert false;
    }
    NoGrants(s.votes.Keys);
  }

  lemma NoGrants(keys: set<Addr>)
    ensures Granted(Fill(keys, NO_VOTE)) == {}
  {
  }

  /** a leads the same term at two moments, and its match index for u has gone back in between. */
  ghost predicate WentBack(g1: System, g2: System, a: Addr, u: Addr) {
    && a in g1.servers && a in g2.servers
    && g1.servers[a].role == g2.servers[a].role == Leader && g1.servers[a].term == g2.servers[a].term
    && u in g1.servers[a].indices && u in g2.servers[a].indices
    && g1.servers[a].indices[u].match_ > g2.servers[a].indices[u].match_
  }

  lemma GoesBack(g1: System, g2: System, a: Addr, u: Addr, peers: seq<Addr>)
    requires a in g1.servers && Reigns(g1.servers[a], a, peers, u)
    requires a in g2.servers && LedAgain(g2.servers[a], peers) && u in PeerSet(peers)
    ensures WentBack(g1, g2, a, u)
  {
  }

  /** In every cluster of two or more, some run makes a server leader, and later leader of the same term again
      with a match index that has gone back. */
  lemma MatchCanGoBack(peersOf: map<Addr, seq<Addr>>, a: Addr) returns (run: seq<Event>, more: seq<Event>, u: Addr)
    requires Configured(peersOf) && |peersOf.Keys| >= 2 && a in peersOf
    ensures WentBack(After(peersOf, run), After(peersOf, run + more), a, u)
  {
    hide Configured, Next, PeerSet, Goal, Reigns, LedAgain, Again, Granting, Exec, Init, WentBack;
    var voters;
    run, voters, u := FirstAck(peersOf, a);
    var e1, e2 := Bounce(a), Timeout(a, true);
    var peers, g1 := peersOf[a], After(peersOf, run);
    StillRuns(g1.servers[a], a, peers, u);
    StopsAndTimesOut(g1, a);
    PreVotesAgain(g1.servers[a], a, peers, u);
    Further(peersOf, run, e1);
    Further(peersOf, run + [e1], e2);
    var g3 := After(peersOf, run + [e1] + [e2]);
    forall v | v in voters
      ensures Granting(g3.msgs, a, v, 2)
    {
      StillGranting(g1, g3, a, v, 2);
    }
    var last := Regain(g3, a, peers, {}, voters);
    ExecSplit(Init(peersOf), run + [e1] + [e2], last);
    more := [e1] + [e2] + last;
    assert run + more == run + [e1] + [e2] + last;
    GoesBack(g1, After(peersOf, run + more), a, u, peers);
  }

  lemma StillRuns(s: Server, a: Addr, peers: seq<Addr>, u: Addr)
    requires Reigns(s, a, peers, u)
    ensures s.alive && s.me == a
  {
  }
}
