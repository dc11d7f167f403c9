/** Crashes between two writes of one handler.

  The rest of the model takes the writes of a handler before it applies anything as one step. Here a process can
  also die after a new term is stored and before the vote that goes with it, after both and before anything else,
  and after any part of what an append-entries message changes in the log. All of these are harmless but one. A
  server that has voted for another and dies between term and vote comes back with that vote in the new term, and
  will tell the candidate it once voted for that it has its vote, without testing its log again: so a leader can
  miss committed entries. Leader completeness holds on all runs of a kind exactly if such crashes hit no server
  that has voted for another, or the cluster has at most two members.
*/
module TornWrites {
  import opened RaftTypes
  import opened Quorum
  import opened RaftStep
  import opened Cluster
  import opened Invariant
  import opened Stability
  import opened HistorySteps
  import opened ServerSteps
  import opened VoteSteps
  import opened Safety
  import opened Theorems
  import opened CutLog
  import Durability

  /** An event that runs as in the rest of the model, or one whose handler dies early. A new term is the first
      thing that any handler writes, and the vote the second.
      Torn: only the term is written.
      Cleared: term and first vote are written, nothing else.
      Cut: of an append-entries message, term and vote are written, and the log as far as its first `kept` entries. */
  datatype TornEvent = Whole(ev: Event) | Torn(during: Event) | Cleared(during: Event) | Cut(during: Event, kept: nat)

  ghost predicate Tears(g: System, ev: Event) {
    && !ev.Crash? && Enabled(g, ev)
    && Handle(g.servers[Site(ev)], ev).server.term > g.servers[Site(ev)].term
  }

  /** The vote that goes with a new term: a server's own if it stands, else none. */
  ghost function OpeningVote(s: Server, s': Server): Addr {
    if s'.vote == s.me then s.me else NO_ADDR
  }

  ghost predicate Cuts(g: System, ev: Event, kept: nat) {
    && ev.Deliver? && ev.m.AppendEntries? && Enabled(g, ev)
    && var s := g.servers[ev.m.dest];
       && Durability.Accepts(s, ev.m)
       && EntriesAsserted(Writing(s, ev.m), ev.m.preLogIndex, ev.m.entries)
       && CutPoint(s.log, ev.m.preLogIndex, ev.m.entries, kept)
  }

  /** A new process over this term and vote and everything else as it was stored. */
  ghost function TornServer(s: Server, term: nat, vote: Addr): Server {
    Reboot(s.(term := term, vote := vote))
  }

  ghost function CutServer(s: Server, m: Message, kept: nat): Server
    requires m.AppendEntries? && m.term >= s.term && kept <= |Reconcile(s.log, m.preLogIndex, m.entries)|
  {
    Reboot(Writing(s, m).(log := Reconcile(s.log, m.preLogIndex, m.entries)[..kept]))
  }

  /** The history takes a vote that is there in a new term for one cast in it. */
  ghost function Found(h: History, s: Server): History {
    if s.vote != NO_ADDR then Balloted(h, s, s.vote) else h
  }

  ghost function Replaced(g: System, s: Server): System {
    g.(servers := g.servers[s.me := s], hist := Found(g.hist, s))
  }

  ghost function TornNext(g: System, te: TornEvent): System {
    match te
    case Whole(ev) => Next(g, ev)
    case Torn(ev) =>
      if Tears(g, ev) then
        var s := g.servers[Site(ev)];
        Replaced(g, TornServer(s, Handle(s, ev).server.term, s.vote))
      else g
    case Cleared(ev) =>
      if Tears(g, ev) then
        var s, s' := g.servers[Site(ev)], Handle(g.servers[Site(ev)], ev).server;
        Replaced(g, TornServer(s, s'.term, OpeningVote(s, s')))
      else g
    case Cut(ev, kept) =>
      if Cuts(g, ev, kept) then
        g.(servers := g.servers[ev.m.dest := CutServer(g.servers[ev.m.dest], ev.m, kept)])
      else g
  }

  ghost function TornExec(g: System, run: seq<TornEvent>): System
    decreases |run|
  {
    if run == [] then g else TornNext(TornExec(g, run[..|run| - 1]), run[|run| - 1])
  }

  ghost function TornAfter(peersOf: map<Addr, seq<Addr>>, run: seq<TornEvent>): System {
    TornExec(Init(peersOf), run)
  }

  /** No torn write, or one at a server that has not voted for another in its term. */
  ghost predicate Harmless(g: System, te: TornEvent) {
    te.Torn? && Tears(g, te.during) ==>
      var s := g.servers[Site(te.during)]; s.vote == NO_ADDR || s.vote == s.me
  }

  /** Runs with torn writes anywhere, or only where they are harmless. */
  ghost predicate TornAllowed(peersOf: map<Addr, seq<Addr>>, run: seq<TornEvent>, voted: bool) {
    voted || forall i | 0 <= i < |run| :: Harmless(TornAfter(peersOf, run[..i]), run[i])
  }

  ghost predicate Small(h: History) {
    |h.members| <= 2
  }

  // ---------- harmless torn writes keep the invariant

  lemma SameStorage(s1: Server, s2: Server)
    requires s1.me == s2.me && s1.peers == s2.peers && s1.term == s2.term && s1.vote == s2.vote
    requires s1.log == s2.log && s1.sm == s2.sm
    ensures Reboot(s1) == Reboot(s2)
  {
  }

  /** Without a vote, the stored data is that of a server that has stepped down. */
  lemma NoVoteOk(h: History, s: Server, term: nat)
    requires HistOk(h) && ServerOk(h, s) && s.term < term
    ensures ServerOk(h, TornServer(s, term, NO_ADDR))
  {
    hide HistOk, ServerOk, Reboot;
    StepDownOk(h, s, term);
    RebootOk(h, StepDown(s, term));
    SameStorage(s.(term := term, vote := NO_ADDR), StepDown(s, term));
  }

  /** With its own vote, it is that of a server that has stepped down to the term before and stood. */
  lemma OwnVoteOk(h: History, s: Server, term: nat)
    requires HistOk(h) && ServerOk(h, s) && s.term < term
    ensures var s' := TornServer(s, term, s.me);
            HistOk(Balloted(h, s', s.me)) && GrowsBy(s.me, h, Balloted(h, s', s.me))
            && ServerOk(Balloted(h, s', s.me), s')
  {
    hide HistOk, ServerOk, Reboot, Standing, StepDown;
    var s1 := StepDown(s, term - 1);
    StepDownOk(h, s, term - 1);
    SteppedDown(s, term);
    StandingName(s1);
    SameBallot(h, Standing(s1));
    Parts(h, s1);
    StandGrows(h, s1);
    StandingOk(h, s1);
    RebootOk(Balloted(h, Standing(s1), s.me), Standing(s1));
  }

  lemma SteppedDown(s: Server, term: nat)
    requires s.term < term
    ensures var s1 := StepDown(s, term - 1);
            && s1.role == Follower && s1.me == s.me
            && TornServer(s, term, s.me) == Reboot(Standing(s1))
  {
    hide Reboot;
    SameStorage(s.(term := term, vote := s.me), Standing(StepDown(s, term - 1)));
  }

  lemma StandingName(s: Server)
    ensures Standing(s).me == s.me
  {
  }

  lemma SameBallot(h: History, s: Server)
    ensures forall c :: Balloted(h, Reboot(s), c) == Balloted(h, s, c)
  {
  }

  lemma Parts(h: History, s: Server)
    requires ServerOk(h, s)
    ensures Shaped(h, s) && BallotOk(h, s) && LogOk_(h, s)
  {
  }

  /** In a cluster of one or two even another's vote does no harm: whoever is elected there needs its own vote
      too, and all members to commit. */
  lemma LeftVoteOk(h: History, s: Server, term: nat)
    requires HistOk(h) && ServerOk(h, s) && s.term < term && Small(h)
    requires s.vote != NO_ADDR && s.vote != s.me
    ensures var s' := TornServer(s, term, s.vote);
            HistOk(Balloted(h, s', s.vote)) && GrowsBy(s.me, h, Balloted(h, s', s.vote))
            && ServerOk(Balloted(h, s', s.vote), s')
  {
    hide HistOk, ServerOk, Reboot, StepDown;
    var s1, c := StepDown(s, term), s.vote;
    StepDownOk(h, s, term);
    NewTerm(s, term);
    VotedMember(h, s);
    LeftGrows(h, s1, c);
    VoterOk(h, Balloted(h, s1, c), s1, c);
    RebootOk(Balloted(h, s1, c), s1.(vote := c));
    SameStorage(s.(term := term), s1.(vote := c));
    SameBallot(h, s1.(vote := c));
  }

  lemma NewTerm(s: Server, term: nat)
    requires s.term < term
    ensures var s1 := StepDown(s, term);
            && s1.me == s.me && s1.peers == s.peers && s1.log == s.log && s1.sm == s.sm
            && s1.role == Follower && s1.term == term && s1.vote == NO_ADDR
  {
  }

  lemma VotedMember(h: History, s: Server)
    requires HistOk(h) && ServerOk(h, s) && s.vote != NO_ADDR
    ensures s.vote in h.members
  {
    assert VoteOk(h, s.term, s.me);
  }

  lemma LeftGrows(h: History, s: Server, c: Addr)
    requires HistOk(h) && ServerOk(h, s) && Small(h) && s.vote == NO_ADDR && c in h.members && c != s.me
    ensures HistOk(Balloted(h, s, c)) && GrowsBy(s.me, h, Balloted(h, s, c))
  {
    hide GrowsBy, HistOk, Good;
    var h' := Balloted(h, s, c);
    Parts(h, s);
    assert Extends(h, h');
    GoodStable(h, h', s.log);
    assert VoteOk(h', s.term, s.me);
    if s.term !in h.elections {
      KeptBeforeVote(h, s, s.term);
    }
    VoteGrows(h, h', s.me, c, s.term, s.log);
  }

  lemma TornServerOk(h: History, s: Server, term: nat, vote: Addr)
    requires HistOk(h) && ServerOk(h, s) && s.term < term
    requires vote == NO_ADDR || vote == s.me || (vote == s.vote && Small(h))
    ensures var s' := TornServer(s, term, vote);
            && s'.me == s.me && HistOk(Found(h, s')) && GrowsBy(s.me, h, Found(h, s')) && ServerOk(Found(h, s'), s')
  {
    hide HistOk, ServerOk, GrowsBy, Balloted, Reboot, Small;
    TornName(s, term, vote);
    GrowsSelf(h, s.me);
    if vote == NO_ADDR {
      NoVoteOk(h, s, term);
    } else if vote == s.me {
      OwnVoteOk(h, s, term);
    } else {
      LeftVoteOk(h, s, term);
    }
  }

  lemma TornName(s: Server, term: nat, vote: Addr)
    ensures TornServer(s, term, vote).me == s.me && TornServer(s, term, vote).vote == vote
  {
  }

  lemma GrowsSelf(h: History, a: Addr)
    ensures GrowsBy(a, h, h)
  {
  }

  lemma TearsAt(g: System, ev: Event)
    requires Tears(g, ev)
    ensures Site(ev) in g.servers && Handle(g.servers[Site(ev)], ev).server.term > g.servers[Site(ev)].term
  {
  }

  lemma TornOk(g: System, ev: Event, vote: Addr)
    requires Inv(g) && Tears(g, ev)
    requires var s := g.servers[Site(ev)]; vote == NO_ADDR || vote == s.me || (vote == s.vote && Small(g.hist))
    ensures var s := g.servers[Site(ev)]; var g' := Replaced(g, TornServer(s, Handle(s, ev).server.term, vote));
            Inv(g') && Extends(g.hist, g'.hist)
  {
    hide Inv, HistOk, ServerOk, Extends, GrowsBy, Handle, Enabled, TornServer, Found, Small;
    var a := Site(ev);
    TearsAt(g, ev);
    ServerOf(g, a);
    var s, term := g.servers[a], Handle(g.servers[a], ev).server.term;
    TornServerOk(g.hist, s, term, vote);
    OneReplaced(g, Replaced(g, TornServer(s, term, vote)), a);
  }

  lemma CutsOk(g: System, ev: Event, kept: nat)
    requires Inv(g) && Cuts(g, ev, kept)
    ensures var g' := TornNext(g, Cut(ev, kept)); Inv(g') && g'.hist == g.hist
  {
    hide Inv, HistOk, ServerOk, MessageOk, Extends, GrowsBy, Durability.Accepts, EntriesAsserted, CutPoint, Reboot;
    hide Reconcile;
    var a, m := ev.m.dest, ev.m;
    ServerOf(g, a);
    SentMessage(g, m);
    var s := g.servers[a];
    CutFacts(s, m, kept);
    WritingCutOk(g.hist, s, m, kept);
    CutName(s, m, kept);
    RebootOk(g.hist, Writing(s, m).(log := Reconcile(s.log, m.preLogIndex, m.entries)[..kept]));
    GrowsSelf(g.hist, a);
    OneReplaced(g, TornNext(g, Cut(ev, kept)), a);
  }

  lemma CutFacts(s: Server, m: Message, kept: nat)
    requires Durability.Accepts(s, m) && CutPoint(s.log, m.preLogIndex, m.entries, kept)
    ensures m.AppendEntries? && m.term >= s.term && kept <= |Reconcile(s.log, m.preLogIndex, m.entries)|
  {
    hide Reconcile;
  }

  lemma CutName(s: Server, m: Message, kept: nat)
    requires m.AppendEntries? && m.term >= s.term && kept <= |Reconcile(s.log, m.preLogIndex, m.entries)|
    ensures CutServer(s, m, kept).me == s.me
  {
    hide Reconcile;
  }

  /** Whatever a crash leaves of a handler's writes keeps the invariant, if it leaves no other server's vote in a
      new term, or in clusters of one or two. */
  lemma TornNextOk(g: System, te: TornEvent)
    requires Inv(g) && (Harmless(g, te) || Small(g.hist))
    ensures Inv(TornNext(g, te)) && Extends(g.hist, TornNext(g, te).hist)
  {
    hide Inv, HistOk, ServerOk, Extends, Next, Handle, Enabled, Replaced, TornServer, Small, Cuts, CutServer;
    ExtendsSelf(g.hist);
    match te
    case Whole(ev) => NextOk(g, ev);
    case Torn(ev) =>
      if Tears(g, ev) {
        TearsAt(g, ev);
        TornOk(g, ev, g.servers[Site(ev)].vote);
      }
    case Cleared(ev) =>
      if Tears(g, ev) {
        TearsAt(g, ev);
        TornOk(g, ev, OpeningVote(g.servers[Site(ev)], Handle(g.servers[Site(ev)], ev).server));
      }
    case Cut(ev, kept) =>
      if Cuts(g, ev, kept) {
        CutsOk(g, ev, kept);
      }
  }

  lemma OneReplaced(g: System, g': System, a: Addr)
    requires Inv(g) && a in g.servers && g'.msgs == g.msgs && HistOk(g'.hist) && GrowsBy(a, g.hist, g'.hist)
    requires g'.servers.Keys == g.servers.Keys && g'.servers[a].me == a && ServerOk(g'.hist, g'.servers[a])
    requires forall b | b in g.servers && b != a :: g'.servers[b] == g.servers[b]
    ensures Inv(g') && Extends(g.hist, g'.hist)
  {
    hide HistOk, ServerOk, MessageOk;
    forall b | b in g'.servers
      ensures g'.servers[b].me == b && ServerOk(g'.hist, g'.servers[b])
    {
      if b != a {
        OtherStable(g.hist, g'.hist, a, g.servers[b]);
      }
    }
    forall m | m in g'.msgs
      ensures MessageOk(g'.hist, m)
    {
      MessageStable(g.hist, g'.hist, m);
    }
  }

  lemma {:induction false} TornRunOk(peersOf: map<Addr, seq<Addr>>, run: seq<TornEvent>, lo: nat)
    requires SoundCluster(peersOf) && (TornAllowed(peersOf, run, false) || |peersOf| <= 2) && lo <= |run|
    ensures Inv(TornAfter(peersOf, run[..lo])) && Inv(TornAfter(peersOf, run))
    ensures Extends(TornAfter(peersOf, run[..lo]).hist, TornAfter(peersOf, run).hist)
    ensures TornAfter(peersOf, run).hist.members == peersOf.Keys
    decreases |run|
  {
    hide Inv, Extends, TornNext, Configured, Harmless, Init, TornAllowed;
    if run == [] {
      InitOk(peersOf);
      Starts(peersOf);
      ExtendsSelf(Init(peersOf).hist);
      assert run[..lo] == run;
    } else {
      var most, te := run[..|run| - 1], run[|run| - 1];
      var k := if lo < |run| then lo else |most|;
      AllowedBefore(peersOf, run);
      TornRunOk(peersOf, most, k);
      assert most[..k] == run[..k];
      assert |peersOf.Keys| == |peersOf|;
      TornNextOk(TornAfter(peersOf, most), te);
      SameMembers(TornAfter(peersOf, most).hist, TornAfter(peersOf, run).hist);
      if lo == |run| {
        assert run[..lo] == run;
        ExtendsSelf(TornAfter(peersOf, run).hist);
      } else {
        ExtendsTransitive(TornAfter(peersOf, run[..lo]).hist, TornAfter(peersOf, most).hist,
                          TornAfter(peersOf, run).hist);
      }
    }
  }

  lemma Starts(peersOf: map<Addr, seq<Addr>>)
    ensures Init(peersOf).hist.members == peersOf.Keys
  {
  }

  lemma SameMembers(h1: History, h2: History)
    requires Extends(h1, h2)
    ensures h2.members == h1.members
  {
  }

  lemma AllowedBefore(peersOf: map<Addr, seq<Addr>>, run: seq<TornEvent>)
    requires run != []
    ensures TornAllowed(peersOf, run, false) ==>
              && TornAllowed(peersOf, run[..|run| - 1], false)
              && Harmless(TornAfter(peersOf, run[..|run| - 1]), run[|run| - 1])
  {
    hide Harmless, TornExec;
    if TornAllowed(peersOf, run, false) {
      var most := run[..|run| - 1];
      forall i | 0 <= i < |most|
        ensures Harmless(TornAfter(peersOf, most[..i]), most[i])
      {
        assert most[..i] == run[..i] && most[i] == run[i];
      }
    }
  }

  // ---------- leader completeness on a run

  /** Whatever a has committed after lo events is in the log that b has as a leader, of that or a later term,
      after all of them. */
  ghost predicate Complete(peersOf: map<Addr, seq<Addr>>, run: seq<TornEvent>, lo: nat, a: Addr, b: Addr) {
    lo <= |run| ==>
      var g1, g2 := TornAfter(peersOf, run[..lo]), TornAfter(peersOf, run);
      a in g1.servers && b in g2.servers && g2.servers[b].role == Leader
      && g2.servers[b].term >= g1.servers[a].term ==>
        Has(g2.servers[b].log, g1.servers[a].log, g1.servers[a].commit)
  }

  ghost predicate AlwaysComplete(peersOf: map<Addr, seq<Addr>>, voted: bool) {
    forall run: seq<TornEvent>, lo: nat, a: Addr, b: Addr |
      TornAllowed(peersOf, run, voted) :: Complete(peersOf, run, lo, a, b)
  }

  lemma HarmlessIsComplete(peersOf: map<Addr, seq<Addr>>, run: seq<TornEvent>, lo: nat, a: Addr, b: Addr)
    requires SoundCluster(peersOf) && (TornAllowed(peersOf, run, false) || |peersOf| <= 2)
    ensures Complete(peersOf, run, lo, a, b)
  {
    hide Inv, Extends, TornExec, SoundCluster, TornAllowed, Has;
    if lo <= |run| {
      TornRunOk(peersOf, run, lo);
      var g1, g2 := TornAfter(peersOf, run[..lo]), TornAfter(peersOf, run);
      if a in g1.servers && b in g2.servers && g2.servers[b].role == Leader
         && g2.servers[b].term >= g1.servers[a].term {
        CompletenessBetween(g1, g2, a, b);
      }
    }
  }
}
