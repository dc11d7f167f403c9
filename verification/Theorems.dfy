/** The safety properties of the cluster, over every run.

  g1 is any reachable state and g2 any state that a further run leads to from it (g1 itself included), so
  a statement about a server of g1 and a server of g2 is one about all times. All hold for clusters whose
  size is odd or two; module EvenCluster shows that no other size will do.
*/
module Theorems {
  import opened RaftTypes
  import opened Quorum
  import opened RaftStep
  import opened Cluster
  import opened Invariant
  import opened Stability
  import opened Completeness
  import opened ServerSteps
  import opened VoteSteps
  import opened ApplySteps
  import opened AppendSteps
  import opened Safety

  ghost predicate SoundCluster(peersOf: map<Addr, seq<Addr>>) {
    Configured(peersOf) && SoundSize(|peersOf|)
  }

  ghost predicate Reachable(peersOf: map<Addr, seq<Addr>>, g: System) {
    exists run: seq<Event> :: g == After(peersOf, run)
  }

  ghost predicate Follows(g1: System, g2: System) {
    exists run: seq<Event> :: g2 == Exec(g1, run)
  }

  lemma SomeMember(peersOf: map<Addr, seq<Addr>>) returns (a: Addr)
    requires SoundCluster(peersOf)
    ensures a in peersOf && Configured(peersOf)
    ensures |peersOf.Keys| == |peersOf|
  {
    hide Configured;
    assert |peersOf.Keys| == |peersOf|;
    a :| a in peersOf.Keys;
  }

  lemma ReachableOk(peersOf: map<Addr, seq<Addr>>, g: System)
    requires SoundCluster(peersOf) && Reachable(peersOf, g)
    ensures Inv(g) && g.servers.Keys == peersOf.Keys == g.hist.members
  {
    hide Inv, Configured;
    var run: seq<Event> :| g == After(peersOf, run);
    InitOk(peersOf);
    RunOk(Init(peersOf), run);
    MembersStay(Init(peersOf), g);
  }

  lemma FollowsOk(g1: System, g2: System)
    requires Inv(g1) && Follows(g1, g2)
    ensures Inv(g2) && Extends(g1.hist, g2.hist) && g2.servers.Keys == g1.servers.Keys
  {
    hide Inv, Extends;
    var run: seq<Event> :| g2 == Exec(g1, run);
    RunOk(g1, run);
    MembersStay(g1, g2);
  }

  lemma MembersStay(g1: System, g2: System)
    requires Inv(g1) && Inv(g2) && Extends(g1.hist, g2.hist)
    ensures g2.servers.Keys == g1.servers.Keys == g1.hist.members == g2.hist.members
  {
  }

  lemma InvParts(g: System, a: Addr)
    requires Inv(g) && a in g.servers
    ensures HistOk(g.hist) && g.servers[a].me == a && ServerOk(g.hist, g.servers[a])
    ensures BallotOk(g.hist, g.servers[a]) && LogOk_(g.hist, g.servers[a])
    ensures RoleOk(g.hist, g.servers[a]) && ApplyOk(g.hist, g.servers[a]) && Shaped(g.hist, g.servers[a])
  {
  }

  lemma LedByStable(h1: History, h2: History, term: nat, a: Addr)
    requires Extends(h1, h2) && LedBy(h1, term, a)
    ensures LedBy(h2, term, a)
    ensures LeaderLog(h1, term) <= LeaderLog(h2, term)
  {
    assert LogGrows(term, h1.elections[term], h2.elections[term]);
  }

  // ---------- election safety

  /** At most one server is ever leader of a term. */
  lemma ElectionSafety(peersOf: map<Addr, seq<Addr>>, g1: System, g2: System, a: Addr, b: Addr)
    requires SoundCluster(peersOf) && Reachable(peersOf, g1) && Follows(g1, g2)
    requires a in g1.servers && g1.servers[a].role == Leader
    requires b in g2.servers && g2.servers[b].role == Leader
    requires g1.servers[a].term == g2.servers[b].term
    ensures a == b
  {
    hide Inv, HistOk, ServerOk, Extends, Reachable, Follows, Configured, Good;
    ReachableOk(peersOf, g1);
    FollowsOk(g1, g2);
    LeadsItsTerm(g1, a);
    LeadsItsTerm(g2, b);
    LedByStable(g1.hist, g2.hist, g1.servers[a].term, a);
    OneLeader(g2.hist, g1.servers[a].term, a, b);
  }

  lemma LeadsItsTerm(g: System, a: Addr)
    requires Inv(g) && a in g.servers
    ensures g.servers[a].role == Leader ==> LedBy(g.hist, g.servers[a].term, a)
    ensures g.servers[a].leader != NO_ADDR ==> LedBy(g.hist, g.servers[a].term, g.servers[a].leader)
    ensures LedBy(g.hist, g.servers[a].term, a) ==> g.servers[a].log == LeaderLog(g.hist, g.servers[a].term)
  {
    hide HistOk;
    InvParts(g, a);
  }

  lemma OneLeader(h: History, term: nat, a: Addr, b: Addr)
    requires LedBy(h, term, a) && LedBy(h, term, b)
    ensures a == b
  {
  }

  /** Whoever a server takes for the leader of its term is a member, and the only server that anybody, at
      any time, takes for the leader of that term. */
  lemma LeaderCacheIsRight(peersOf: map<Addr, seq<Addr>>, g1: System, g2: System, a: Addr, b: Addr)
    requires SoundCluster(peersOf) && Reachable(peersOf, g1) && Follows(g1, g2)
    requires a in g1.servers && g1.servers[a].leader != NO_ADDR
    requires b in g2.servers && g2.servers[b].term == g1.servers[a].term
    ensures g1.servers[a].leader in g1.servers
    ensures g2.servers[b].role == Leader ==> b == g1.servers[a].leader
    ensures g2.servers[b].leader != NO_ADDR ==> g2.servers[b].leader == g1.servers[a].leader
  {
    hide Inv, HistOk, ServerOk, Extends, Reachable, Follows;
    var term, leader := g1.servers[a].term, g1.servers[a].leader;
    ReachableOk(peersOf, g1);
    FollowsOk(g1, g2);
    LeadsItsTerm(g1, a);
    LeadsItsTerm(g2, b);
    LedByStable(g1.hist, g2.hist, term, leader);
    InvParts(g1, a);
    LeaderIsMember(g1.hist, term);
  }

  // ---------- logs

  lemma ServerLog(g: System, a: Addr)
    requires Inv(g) && a in g.servers
    ensures HistOk(g.hist) && Good(g.hist, g.servers[a].log)
  {
  }

  /** Logs that hold an entry of the same term at an index agree on everything up to it, at whatever
      times they are looked at. */
  lemma LogMatching(peersOf: map<Addr, seq<Addr>>, g1: System, g2: System, a: Addr, b: Addr, k: nat)
    requires SoundCluster(peersOf) && Reachable(peersOf, g1) && Follows(g1, g2)
    requires a in g1.servers && 1 <= k <= |g1.servers[a].log|
    requires b in g2.servers && k <= |g2.servers[b].log|
    requires g1.servers[a].log[k - 1].term == g2.servers[b].log[k - 1].term
    ensures g1.servers[a].log[..k] == g2.servers[b].log[..k]
  {
    hide Inv, HistOk, ServerOk, Extends, Reachable, Follows, Configured, Good;
    ReachableOk(peersOf, g1);
    FollowsOk(g1, g2);
    ServerLog(g1, a);
    ServerLog(g2, b);
    GoodStable(g1.hist, g2.hist, g1.servers[a].log);
    LogsMatch(g2.hist, g1.servers[a].log, g2.servers[b].log, k - 1);
  }

  /** A leader only appends to its log while its term lasts, restarts included. */
  lemma LeaderAppendOnly(peersOf: map<Addr, seq<Addr>>, g1: System, g2: System, a: Addr)
    requires SoundCluster(peersOf) && Reachable(peersOf, g1) && Follows(g1, g2)
    requires a in g1.servers && g1.servers[a].role == Leader
    requires a in g2.servers && g2.servers[a].term == g1.servers[a].term
    ensures g1.servers[a].log <= g2.servers[a].log
  {
    hide Inv, HistOk, ServerOk, Extends, Reachable, Follows, Configured, Good;
    ReachableOk(peersOf, g1);
    FollowsOk(g1, g2);
    LeadsItsTerm(g1, a);
    LeadsItsTerm(g2, a);
    LedByStable(g1.hist, g2.hist, g1.servers[a].term, a);
  }

  // ---------- committed entries

  lemma Certificates(g: System, a: Addr)
    requires Inv(g) && a in g.servers
    ensures var s := g.servers[a];
            && s.commit <= |s.log| && s.lastApply <= |s.log|
            && Certified(g.hist, s.log, s.commit, s.term)
            && Certified(g.hist, s.log, s.lastApply, s.term)
            && s.sm == DataBetween(s.log, 0, s.lastApply)
            && HistOk(g.hist)
  {
  }

  /** What a server of some term has committed is in the log of every leader of that or a later term. */
  lemma LeaderCompleteness(peersOf: map<Addr, seq<Addr>>, g1: System, g2: System, a: Addr, b: Addr)
    requires SoundCluster(peersOf) && Reachable(peersOf, g1) && Follows(g1, g2)
    requires a in g1.servers && b in g2.servers
    requires g2.servers[b].role == Leader && g2.servers[b].term >= g1.servers[a].term
    ensures Has(g2.servers[b].log, g1.servers[a].log, g1.servers[a].commit)
  {
    hide Inv, Extends, Reachable, Follows, Configured;
    ReachableOk(peersOf, g1);
    FollowsOk(g1, g2);
    CompletenessBetween(g1, g2, a, b);
  }

  lemma CompletenessBetween(g1: System, g2: System, a: Addr, b: Addr)
    requires Inv(g1) && Inv(g2) && Extends(g1.hist, g2.hist)
    requires a in g1.servers && b in g2.servers
    requires g2.servers[b].role == Leader && g2.servers[b].term >= g1.servers[a].term
    ensures Has(g2.servers[b].log, g1.servers[a].log, g1.servers[a].commit)
  {
    hide Inv, HistOk, ServerOk, Extends, Good, Certified;
    Certificates(g1, a);
    Certificates(g2, b);
    LeadsItsTerm(g2, b);
    var s1, term := g1.servers[a], g2.servers[b].term;
    CertifiedStable(g1.hist, g2.hist, s1.log, s1.commit, s1.term, term);
    LeaderHasCertified(g2.hist, s1.log, s1.commit, term);
  }

  /** No two servers ever apply different entries at an index, and what one state machine was given is a
      prefix of what the other was given, or the other way round. */
  lemma StateMachineSafety(peersOf: map<Addr, seq<Addr>>, g1: System, g2: System, a: Addr, b: Addr)
    requires SoundCluster(peersOf) && Reachable(peersOf, g1) && Follows(g1, g2)
    requires a in g1.servers && b in g2.servers
    ensures var s1, s2 := g1.servers[a], g2.servers[b];
            && Has(s1.log, s2.log, Min(s1.lastApply, s2.lastApply))
            && (s1.lastApply <= s2.lastApply ==> s1.sm <= s2.sm)
            && (s2.lastApply <= s1.lastApply ==> s2.sm <= s1.sm)
  {
    hide Inv, HistOk, ServerOk, Extends, Reachable, Follows, Configured, Good, Certified;
    ReachableOk(peersOf, g1);
    FollowsOk(g1, g2);
    Certificates(g1, a);
    Certificates(g2, b);
    var s1, s2 := g1.servers[a], g2.servers[b];
    var c := Min(s1.lastApply, s2.lastApply);
    CertifiedStable(g1.hist, g2.hist, s1.log, s1.lastApply, s1.term, s1.term);
    CertifiedAgree(g2.hist, s1.log, s1.lastApply, s1.term, s2.log, s2.lastApply, s2.term, c);
    DataBetweenPrefix(s1.log, s2.log, 0, c);
    if s1.lastApply <= s2.lastApply {
      DataBetweenSplit(s2.log, 0, c, s2.lastApply);
    }
    if s2.lastApply <= s1.lastApply {
      DataBetweenSplit(s1.log, 0, c, s1.lastApply);
    }
  }

  lemma AcksKept(g: System, a: Addr, term: nat, k: nat)
    requires Inv(g) && a in g.servers && Acked(g.hist, term, a, k)
    ensures Kept(g.hist, term, k, g.servers[a].log, g.servers[a].term)
  {
    hide HistOk;
    InvParts(g, a);
  }

  /** A committed prefix is in the log that each member of its quorum has right now. */
  lemma CommittedHeld(g: System, term: nat, k: nat, q: set<Addr>, a: Addr)
    requires Inv(g) && HistOk(g.hist) && Committed(g.hist, term, k) && HasQuorum(g.hist, term, k, q)
    requires a in q && a in g.servers
    ensures Has(g.servers[a].log, LeaderLog(g.hist, term), k)
  {
    hide Inv, HistOk, Committed, Lost;
    AcksKept(g, a, term, k);
    if !Has(g.servers[a].log, LeaderLog(g.hist, term), k) {
      var w: nat :| term < w <= g.servers[a].term && Lost(g.hist, w, term, k);
      NeverLost(g.hist, term, k, w);
    }
  }

  lemma NeverLost(h: History, term: nat, k: nat, w: nat)
    requires HistOk(h) && Committed(h, term, k) && term < w
    ensures !Lost(h, w, term, k)
  {
    if w in h.elections {
      LaterLeadersHave(h, term, k, w);
    }
  }

  /** More than half of the members have the first c entries of l. */
  ghost predicate Replicated(g: System, l: Log, c: nat) {
    exists q: set<Addr> :: HeldBy(g, l, c, q)
  }

  ghost predicate HeldBy(g: System, l: Log, c: nat, q: set<Addr>) {
    q <= g.servers.Keys && 2 * |q| > |g.servers| && forall b | b in q :: Has(g.servers[b].log, l, c)
  }

  /** Each committed index of each server is held by a strict majority, at that moment. */
  lemma CommittedIsReplicated(peersOf: map<Addr, seq<Addr>>, g: System, a: Addr)
    requires SoundCluster(peersOf) && Reachable(peersOf, g)
    requires a in g.servers && g.servers[a].commit > 0
    ensures Replicated(g, g.servers[a].log, g.servers[a].commit)
  {
    hide Inv, HistOk, ServerOk, Reachable, Configured, Good, Committed;
    ReachableOk(peersOf, g);
    Certificates(g, a);
    var s := g.servers[a];
    var term: nat, k: nat :| CertifiedBy(g.hist, s.log, s.commit, s.term, term, k);
    CommittedHasQuorum(g.hist, term, k);
    var q: set<Addr> :| HasQuorum(g.hist, term, k, q);
    assert |g.servers.Keys| == |g.servers|;
    forall b | b in q
      ensures Has(g.servers[b].log, s.log, s.commit)
    {
      CommittedHeld(g, term, k, q, b);
      HasLess(g.servers[b].log, LeaderLog(g.hist, term), k, s.commit);
    }
    assert HeldBy(g, s.log, s.commit, q);
  }

  lemma CommittedHasQuorum(h: History, term: nat, k: nat)
    requires Committed(h, term, k)
    ensures exists q: set<Addr> :: HasQuorum(h, term, k, q)
  {
  }

  // ---------- a leader's tables

  /** A leader's next index stays between 1 and one past its log, and its match index is what the peer
      accepted of this very log and still has, unless a leader of a later term overwrote it. */
  lemma LeaderTablesAreTrue(peersOf: map<Addr, seq<Addr>>, g: System, a: Addr, j: Addr)
    requires SoundCluster(peersOf) && Reachable(peersOf, g)
    requires a in g.servers && j in g.servers && a != j && g.servers[a].role == Leader
    ensures var s := g.servers[a];
            && j in s.indices
            && 1 <= s.indices[j].next <= |s.log| + 1
            && s.indices[j].match_ <= |s.log|
            && (g.servers[j].term <= s.term ==> Has(g.servers[j].log, s.log, s.indices[j].match_))
  {
    hide Inv, HistOk, ServerOk, Reachable, Configured, Good;
    ReachableOk(peersOf, g);
    var s := g.servers[a];
    ServerOf(g, a);
    LeadsItsTerm(g, a);
    PeersOf(g, a, j);
    TableFacts(g.hist, s, j);
    if s.indices[j].match_ > 0 {
      AcksKept(g, j, s.term, s.indices[j].match_);
    }
  }

  lemma PeersOf(g: System, a: Addr, j: Addr)
    requires Inv(g) && a in g.servers && j in g.servers && a != j
    ensures j in g.servers[a].peers && j in g.servers[a].indices && j in g.servers[a].votes
  {
    hide HistOk;
    InvParts(g, a);
    assert j in PeerSet(g.servers[a].peers);
  }
}
