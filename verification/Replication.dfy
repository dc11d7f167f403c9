/** Runs in which a leader gets its last entry acknowledged, peer by peer, for showing what can happen. */
module Replications {
  import opened RaftTypes
  import opened Quorum
  import opened RaftStep
  import opened Cluster
  import opened Theorems
  import opened Safety
  import opened Campaigns
  import opened ServerSteps
  import ApplySteps
  import VoteSteps

  // ---------- a leader and its followers

  ghost predicate NoUnknown(log: Log) {
    forall k | 0 <= k < |log| :: log[k].kind != Unknown
  }

  /** The peers of `done` have all k entries, those of `behind` all but the last, others not the last. */
  ghost predicate PeerRows(indices: map<Addr, IndexItem>, k: nat, done: set<Addr>, behind: set<Addr>)
    requires k >= 1
  {
    forall j | j in indices ::
      && 1 <= indices[j].next <= k + 1
      && (j in done ==> indices[j] == IndexItem(k + 1, k))
      && (j !in done ==> indices[j].match_ < k)
      && (j in behind - done ==> indices[j] == IndexItem(k, k - 1))
  }

  /** More than half of the members, the leader included, have what the peers of `done` have. */
  ghost predicate Enough(peers: seq<Addr>, done: set<Addr>) {
    2 * (|done| + 1) > |PeerSet(peers)| + 1
  }

  /** a leads the term, with all of its log committed, or all but the last entry. */
  ghost predicate Replicating(s: Server, a: Addr, peers: seq<Addr>, term: nat, log: Log,
                              done: set<Addr>, behind: set<Addr>) {
    && s.alive && s.me == a && s.peers == peers && a != NO_ADDR
    && s.role == Leader && s.term == term && s.vote == a && s.votes.Keys == PeerSet(peers)
    && s.log == log && |log| >= 1 && log[|log| - 1].term == term && NoUnknown(log)
    && s.indices.Keys == PeerSet(peers) && PeerRows(s.indices, |log|, done, behind)
    && s.timers.heartbeats == PeerSet(peers)
    && s.commit == s.lastApply == (if Enough(peers, done) then |log| else |log| - 1)
    && s.sm == DataBetween(log, 0, s.commit)
  }

  /** A follower of the term that knows no leader but a, with its vote and its log. */
  ghost predicate Following(s: Server, v: Addr, term: nat, vote: Addr, log: Log, a: Addr) {
    && s.alive && s.me == v && s.role == Follower && s.timers.election
    && s.term == term && s.vote == vote && s.log == log && NoUnknown(log)
    && (s.leader == NO_ADDR || s.leader == a)
    && s.commit <= |log| && s.lastApply <= |log| && s.sm == DataBetween(log, 0, s.lastApply)
  }

  ghost predicate AllFollow(g: System, vs: set<Addr>, term: nat, vote: Addr, log: Log, a: Addr) {
    forall v | v in vs :: v in g.servers && Following(g.servers[v], v, term, vote, log, a)
  }

  ghost function Beat(a: Addr, v: Addr, term: nat, log: Log): Message
    requires |log| >= 1
  {
    var pre := |log| - 1;
    AppendEntries(a, v, term, pre, if pre == 0 then 0 else log[pre - 1].term, pre, [LogEntry(pre + 1, log[pre])])
  }

  ghost function Accepted(a: Addr, v: Addr, term: nat, k: nat): Message
    requires k >= 1
  {
    AppendEntriesReply(v, a, term, true, k, k - 1, 1, term)
  }

  lemma ElectedReplicates(s: Server, a: Addr, peers: seq<Addr>, term: nat)
    requires Elected(s, a, peers, term) && PeerSet(peers) != {}
    ensures Replicating(s, a, peers, term, [NoopEntry(term)], {}, PeerSet(peers))
  {
    assert |PeerSet(peers)| >= 1;
  }

  // ---------- one peer

  lemma Beats(g: System, a: Addr, peers: seq<Addr>, term: nat, log: Log, done: set<Addr>, behind: set<Addr>, v: Addr)
    requires a in g.servers && Replicating(g.servers[a], a, peers, term, log, done, behind)
    requires v in PeerSet(peers) && v in behind - done && !Enough(peers, done)
    ensures var g' := Next(g, BeatTimer(a, v));
            SameServers(g, g', {}) && Beat(a, v, term, log) in g'.msgs
  {
    hide Record, Enough, DataBetween;
    var s := g.servers[a];
    DataBetweenLast(log, s.commit);
    var e := HeartBeat(s, v);
    assert e.sent == [Beat(a, v, term, log)];
    assert Beat(a, v, term, log) in Sent(e.sent);
  }

  lemma Takes(s: Server, a: Addr, v: Addr, term: nat, vote: Addr, log: Log)
    requires |log| >= 1 && Following(s, v, term, vote, log[..|log| - 1], a) && NoUnknown(log) && a != NO_ADDR
    ensures var e := OnAppendEntries(s, Beat(a, v, term, log));
            Following(e.server, v, term, vote, log, a) && e.sent == [Accepted(a, v, term, |log|)]
  {
    hide DataBetween;
    var pre := |log| - 1;
    var m := Beat(a, v, term, log);
    assert Payload(m.entries) == [log[pre]];
    assert log[..pre] + [log[pre]] == log;
    DataBetweenLast(log[..pre], s.lastApply);
    VoteSteps.DataBetweenPrefix(log[..pre], log, 0, s.lastApply);
    var s2 := StepDown(s, term).(leader := a);
    var s3 := s2.(log := log);
    ApplySteps.ApplyAll(s3, pre);
    assert Reconcile(s2.log, pre, m.entries) == log;
  }

  lemma BeatTaken(g: System, a: Addr, v: Addr, term: nat, vote: Addr, log: Log)
    requires |log| >= 1 && v in g.servers && Following(g.servers[v], v, term, vote, log[..|log| - 1], a)
    requires NoUnknown(log) && Beat(a, v, term, log) in g.msgs && a != NO_ADDR
    ensures var g' := Next(g, Deliver(Beat(a, v, term, log), true));
            && SameServers(g, g', {v}) && Accepted(a, v, term, |log|) in g'.msgs
            && Following(g'.servers[v], v, term, vote, log, a)
  {
    hide Record, OnAppendEntries, NoUnknown;
    Takes(g.servers[v], a, v, term, vote, log);
    assert Accepted(a, v, term, |log|) in Sent([Accepted(a, v, term, |log|)]);
  }

  /** The peers of `done` have reached k, which nobody has passed. */
  ghost predicate Reach(indices: map<Addr, IndexItem>, k: nat, done: set<Addr>) {
    forall j | j in indices :: if j in done then indices[j].match_ == k else indices[j].match_ < k
  }

  lemma OneMoreRow(indices: map<Addr, IndexItem>, k: nat, done: set<Addr>, behind: set<Addr>, v: Addr)
    requires k >= 1 && PeerRows(indices, k, done, behind) && v in indices && v in behind - done
    ensures indices[v] == IndexItem(k, k - 1)
    ensures Reach(indices[v := IndexItem(k, k)], k, done + {v})
    ensures PeerRows(indices[v := IndexItem(k + 1, k)], k, done + {v}, behind)
  {
  }

  /** With one more peer at the last entry, it is committed, or nothing is. */
  lemma Commits(s: Server, peers: seq<Addr>, done: set<Addr>)
    requires s.log != [] && NoUnknown(s.log) && s.log[|s.log| - 1].term == s.term && s.alive
    requires s.commit == s.lastApply == |s.log| - 1 && s.sm == DataBetween(s.log, 0, s.commit)
    requires s.indices.Keys == PeerSet(peers) && done <= PeerSet(peers)
    requires Reach(s.indices, |s.log|, done)
    ensures var k := |s.log|;
            && (Enough(peers, done) ==>
                  MaybeCommit(s) == s.(commit := k, lastApply := k, sm := DataBetween(s.log, 0, k)))
            && (!Enough(peers, done) ==> MaybeCommit(s) == s)
  {
    hide DataBetween, PeerSet;
    var k := |s.log|;
    DataBetweenLast(s.log, s.commit);
    assert |s.indices| == |s.indices.Keys|;
    assert Reached(s.indices, k) == done;
    forall i: nat | i > k
      ensures !StrictMajority(s.indices, k, i)
    {
      assert Reached(s.indices, i) == {};
    }
    assert IsMajorityMax(s.indices, k, MajorityMax(s.indices, k));
    assert StrictMajority(s.indices, k, k) <==> Enough(peers, done);
    ApplySteps.ApplyAll(s, k);
  }

  lemma Acknowledges(s: Server, a: Addr, v: Addr, term: nat)
    requires s.role == Leader && s.term == term && s.log != [] && v in s.indices
    requires s.indices[v] == IndexItem(|s.log|, |s.log| - 1)
    requires var s2 := MaybeCommit(SetMatch(s, v, |s.log|));
             s2.alive && s2.log == s.log && SmLast(s2.sm) <= |s.log|
             && s2.indices == SetMatch(s, v, |s.log|).indices
    ensures var k := |s.log|;
            OnAppendEntriesReply(s, Accepted(a, v, term, k)).server == SetNext(MaybeCommit(SetMatch(s, v, k)), v, k + 1)
  {
    hide MaybeCommit;
  }

  lemma MatchNoted(s: Server, a: Addr, peers: seq<Addr>, term: nat, log: Log,
                   done: set<Addr>, behind: set<Addr>, v: Addr)
    requires Replicating(s, a, peers, term, log, done, behind) && !Enough(peers, done)
    requires v in PeerSet(peers) && v in behind - done && done <= PeerSet(peers)
    ensures Replicating(OnAppendEntriesReply(s, Accepted(a, v, term, |log|)).server, a, peers, term, log,
                        done + {v}, behind)
  {
    hide OnAppendEntriesReply, MaybeCommit, PeerSet, DataBetween, Enough, NoUnknown, PeerRows, Reach;
    OneMoreRow(s.indices, |log|, done, behind, v);
    Commits(SetMatch(s, v, |log|), peers, done + {v});
    DataBetweenLast(log, |log|);
    DataBetweenLast(log, |log| - 1);
    Acknowledges(s, a, v, term);
    var s2 := MaybeCommit(SetMatch(s, v, |log|));
    assert SetNext(s2, v, |log| + 1).indices == s.indices[v := IndexItem(|log| + 1, |log|)];
  }

  lemma AckNoted(g: System, a: Addr, peers: seq<Addr>, term: nat, log: Log,
                done: set<Addr>, behind: set<Addr>, v: Addr)
    requires a in g.servers && Replicating(g.servers[a], a, peers, term, log, done, behind) && !Enough(peers, done)
    requires v in PeerSet(peers) && v in behind - done && done <= PeerSet(peers)
    requires Accepted(a, v, term, |log|) in g.msgs
    ensures var g' := Next(g, Deliver(Accepted(a, v, term, |log|), true));
            SameServers(g, g', {a}) && Replicating(g'.servers[a], a, peers, term, log, done + {v}, behind)
  {
    hide Record, OnAppendEntriesReply, PeerRows, Enough, NoUnknown, DataBetween;
    MatchNoted(g.servers[a], a, peers, term, log, done, behind, v);
  }

  lemma LeaderFacts(s: Server, a: Addr, peers: seq<Addr>, term: nat, log: Log, done: set<Addr>, behind: set<Addr>)
    requires Replicating(s, a, peers, term, log, done, behind)
    ensures |log| >= 1 && a != NO_ADDR && NoUnknown(log)
  {
  }

  lemma OneAck(g: System, a: Addr, peers: seq<Addr>, term: nat, vote: Addr, log: Log,
               done: set<Addr>, behind: set<Addr>, v: Addr) returns (run: seq<Event>)
    requires a in g.servers && Replicating(g.servers[a], a, peers, term, log, done, behind) && v != a
    requires |log| >= 1 && v in PeerSet(peers) && v in behind - done && done <= PeerSet(peers) && !Enough(peers, done)
    requires v in g.servers && Following(g.servers[v], v, term, vote, log[..|log| - 1], a)
    ensures var g' := Exec(g, run);
            && SameServers(g, g', {v, a}) && a in g'.servers && v in g'.servers
            && Replicating(g'.servers[a], a, peers, term, log, done + {v}, behind)
            && Following(g'.servers[v], v, term, vote, log, a)
            && Accepted(a, v, term, |log|) in g'.msgs
  {
    hide Next, Replicating, Following, PeerSet, Enough, NoUnknown;
    LeaderFacts(g.servers[a], a, peers, term, log, done, behind);
    var e1, e2 := BeatTimer(a, v), Deliver(Beat(a, v, term, log), true);
    var e3 := Deliver(Accepted(a, v, term, |log|), true);
    Beats(g, a, peers, term, log, done, behind, v);
    BeatTaken(Next(g, e1), a, v, term, vote, log);
    AckNoted(Next(Next(g, e1), e2), a, peers, term, log, done, behind, v);
    ThreeSteps(g, e1, e2, e3);
    run := [e1, e2, e3];
  }

  // ---------- many peers

  lemma OneFewer(all: set<Addr>, done: set<Addr>, vs: set<Addr>, v: Addr)
    requires v in vs && vs <= all - done && done <= all
    ensures v in all - done && |vs - {v}| == |vs| - 1 && |done + {v}| == |done| + 1
    ensures done + {v} <= all && vs - {v} <= all - (done + {v})
    ensures done + {v} + (vs - {v}) == done + vs
  {
  }

  /** a gets its last entry acknowledged by all in vs. */
  lemma {:induction false} AckAll(g: System, a: Addr, peers: seq<Addr>, term: nat, vote: Addr, log: Log,
                                  done: set<Addr>, behind: set<Addr>, vs: set<Addr>) returns (run: seq<Event>)
    requires a in g.servers && Replicating(g.servers[a], a, peers, term, log, done, behind) && a !in vs
    requires vs <= PeerSet(peers) - done && vs <= behind && done <= PeerSet(peers)
    requires 2 * (|done| + |vs|) <= |PeerSet(peers)| + 1
    requires |log| >= 1 && AllFollow(g, vs, term, vote, log[..|log| - 1], a)
    ensures var g' := Exec(g, run);
            && SameServers(g, g', vs + {a})
            && a in g'.servers && Replicating(g'.servers[a], a, peers, term, log, done + vs, behind)
            && AllFollow(g', vs, term, vote, log, a)
    decreases |vs|
  {
    hide Exec, Replicating, Following, PeerSet, SameServers, AllFollow;
    if vs == {} {
      run := [];
      StartsEmpty(g);
      assert done + vs == done;
      Same(g, vs + {a});
      NoneFollows(g, vs, term, vote, log, a);
    } else {
      var v :| v in vs;
      OneFewer(PeerSet(peers), done, vs, v);
      OneFollows(g, vs, term, vote, log[..|log| - 1], a, v);
      var first := OneAck(g, a, peers, term, vote, log, done, behind, v);
      var g1 := Exec(g, first);
      StillFollow(g, g1, {v, a}, vs - {v}, vs, term, vote, log[..|log| - 1], a);
      var more := AckAll(g1, a, peers, term, vote, log, done + {v}, behind, vs - {v});
      ExecSplit(g, first, more);
      run := first + more;
      Joined(g, g1, Exec(g, run), {v, a}, vs - {v} + {a}, vs + {a});
      OneMoreFollows(g1, Exec(g, run), vs - {v} + {a}, vs, v, term, vote, log, a);
    }
  }

  lemma NoneFollows(g: System, vs: set<Addr>, term: nat, vote: Addr, log: Log, a: Addr)
    requires vs == {}
    ensures AllFollow(g, vs, term, vote, log, a)
  {
  }

  lemma OneFollows(g: System, vs: set<Addr>, term: nat, vote: Addr, log: Log, a: Addr, v: Addr)
    requires AllFollow(g, vs, term, vote, log, a) && v in vs
    ensures v in g.servers && Following(g.servers[v], v, term, vote, log, a)
  {
    hide Following;
  }

  lemma StillFollow(g: System, g': System, except: set<Addr>, rest: set<Addr>, vs: set<Addr>,
                    term: nat, vote: Addr, log: Log, a: Addr)
    requires SameServers(g, g', except) && rest <= vs && rest !! except && AllFollow(g, vs, term, vote, log, a)
    ensures AllFollow(g', rest, term, vote, log, a)
  {
    hide Following;
  }

  lemma OneMoreFollows(g: System, g': System, except: set<Addr>, vs: set<Addr>, v: Addr,
                       term: nat, vote: Addr, log: Log, a: Addr)
    requires v in g.servers && Following(g.servers[v], v, term, vote, log, a)
    requires SameServers(g, g', except) && v !in except && AllFollow(g', vs - {v}, term, vote, log, a)
    ensures AllFollow(g', vs, term, vote, log, a)
  {
    hide Following;
  }

  // ---------- a client's value

  /** Nobody but the leader has the newest entry, so nothing more is committed. */
  lemma NothingCommits(s: Server)
    requires |s.log| >= 2 && |s.indices| > 0 && SmLast(s.sm) <= |s.log| && s.commit == |s.log| - 1
    requires forall j | j in s.indices :: s.indices[j].match_ < |s.log|
    ensures MaybeCommit(s) == s
  {
    forall k: nat | k >= |s.log|
      ensures !StrictMajority(s.indices, |s.log|, k)
    {
      assert Reached(s.indices, k) == {};
    }
    assert IsMajorityMax(s.indices, |s.log|, MajorityMax(s.indices, |s.log|));
  }

  /** With a row for every peer, sending to all fails no assertion. */
  lemma {:induction false} SendsToAll(s: Server, k: nat)
    requires s.alive && PeerSet(s.peers) <= s.indices.Keys && PeerSet(s.peers) <= s.timers.heartbeats
    requires forall j | j in s.indices :: 1 <= s.indices[j].next <= |s.log| + 1
    ensures SendFrom(s, k).server == s
    decreases |s.peers| - k
  {
    if k < |s.peers| {
      var j := s.peers[k];
      assert j in PeerSet(s.peers);
      assert s.timers.heartbeats + {j} == s.timers.heartbeats;
      SendsToAll(s, k + 1);
    }
  }

  lemma ProposalRows(indices: map<Addr, IndexItem>, k: nat, done: set<Addr>, behind: set<Addr>)
    requires k >= 1 && PeerRows(indices, k, done, behind)
    ensures PeerRows(indices, k + 1, {}, done)
    ensures forall j | j in indices :: indices[j].match_ < k + 1 && 1 <= indices[j].next <= k + 2
  {
  }

  lemma ProposalTaken(s: Server, a: Addr, peers: seq<Addr>, term: nat, log: Log,
                      done: set<Addr>, behind: set<Addr>, value: Bytes)
    requires Replicating(s, a, peers, term, log, done, behind) && Enough(peers, done) && PeerSet(peers) != {}
    ensures Replicating(Propose(s, value).server, a, peers, term, log + [Entry(term, Data, value)], {}, done)
  {
    hide PeerRows, DataBetween, MaybeCommit, SendFrom;
    var log' := log + [Entry(term, Data, value)];
    var s1 := s.(log := log');
    DataBetweenLast(log, |log|);
    VoteSteps.DataBetweenPrefix(log, log', 0, |log|);
    ProposalRows(s.indices, |log|, done, behind);
    assert |s.indices| == |s.indices.Keys|;
    assert |PeerSet(peers)| >= 1;
    NothingCommits(s1);
    SendsToAll(s1, 0);
  }

  lemma Proposes(g: System, a: Addr, peers: seq<Addr>, term: nat, log: Log,
                 done: set<Addr>, behind: set<Addr>, value: Bytes)
    requires a in g.servers && Replicating(g.servers[a], a, peers, term, log, done, behind)
    requires Enough(peers, done) && PeerSet(peers) != {}
    ensures var g' := Next(g, ClientPropose(a, value));
            && SameServers(g, g', {a})
            && Replicating(g'.servers[a], a, peers, term, log + [Entry(term, Data, value)], {}, done)
  {
    hide Record, Propose, PeerRows, DataBetween, Enough;
    ProposalTaken(g.servers[a], a, peers, term, log, done, behind, value);
  }

  /** One committed entry after another, with the same peers. */
  lemma ValueApplied(g: System, a: Addr, peers: seq<Addr>, vs: set<Addr>, value: Bytes) returns (run: seq<Event>)
    requires a in g.servers && Elected(g.servers[a], a, peers, 2) && a !in vs && vs <= PeerSet(peers) && vs != {}
    requires Enough(peers, vs) && 2 * |vs| <= |PeerSet(peers)| + 1 && AllFollow(g, vs, 2, a, [], a)
    ensures var g' := Exec(g, run); a in g'.servers && HasApplied(g'.servers[a], value)
  {
    hide Exec, Next, Elected, Replicating, Following, PeerSet, SameServers, AllFollow, Enough, HasApplied;
    var log1 := [NoopEntry(2)];
    var log2 := log1 + [Entry(2, Data, value)];
    assert log1[..0] == [] && log2[..1] == log1 && {} + vs == vs && vs <= PeerSet(peers) - {};
    ElectedReplicates(g.servers[a], a, peers, 2);
    var first := AckAll(g, a, peers, 2, a, log1, {}, PeerSet(peers), vs);
    var g1, e := Exec(g, first), ClientPropose(a, value);
    Proposes(g1, a, peers, 2, log1, vs, PeerSet(peers), value);
    OneStep(g, first, e);
    var g2 := Exec(g, first + [e]);
    StillFollow(g1, g2, {a}, vs, vs, 2, a, log1, a);
    Untouched(g1, g2, {a}, {});
    var second := AckAll(g2, a, peers, 2, a, log2, {}, vs, vs);
    ExecSplit(g, first + [e], second);
    run := first + [e] + second;
    BothApplied(Exec(g, run).servers[a], a, peers, value, vs, vs);
  }

  /** The state machine was given the value, once, and nothing else. */
  ghost predicate HasApplied(s: Server, value: Bytes) {
    && s.alive && s.role == Leader && s.term == 2 && s.log == [NoopEntry(2), Entry(2, Data, value)]
    && s.sm == [Applied(2, Entry(2, Data, value))]
  }

  lemma BothApplied(s: Server, a: Addr, peers: seq<Addr>, value: Bytes, done: set<Addr>, behind: set<Addr>)
    requires Replicating(s, a, peers, 2, [NoopEntry(2)] + [Entry(2, Data, value)], done, behind)
    requires Enough(peers, done)
    ensures HasApplied(s, value)
  {
    hide PeerRows, Enough;
    TwoApplied([NoopEntry(2), Entry(2, Data, value)], value);
  }

  lemma TwoApplied(log: Log, value: Bytes)
    requires log == [NoopEntry(2), Entry(2, Data, value)]
    ensures DataBetween(log, 0, 2) == [Applied(2, Entry(2, Data, value))]
  {
    assert DataBetween(log, 0, 1) == [];
  }

  /** A server on its own. */
  lemma AloneApplies(peersOf: map<Addr, seq<Addr>>, a: Addr, value: Bytes) returns (run: seq<Event>)
    requires a in peersOf && a != NO_ADDR && peersOf[a] == []
    ensures var g := After(peersOf, run); a in g.servers && HasApplied(g.servers[a], value)
  {
    hide Record, Init, FirstStart;
    var g0, e1, e2 := Init(peersOf), Timeout(a, false), ClientPropose(a, value);
    AtTheStart(peersOf, a);
    assert Waits(g0, peersOf, a);
    AloneStands(g0.servers[a], a);
    AloneProposes(Elect(g0.servers[a], false).server, a, value);
    run := [e1, e2];
    OneStep(g0, [], e1);
    OneStep(g0, [e1], e2);
    StartsEmpty(g0);
    assert [] + [e1] == [e1] && [e1] + [e2] == [e1, e2];
  }

  ghost predicate Alone(s: Server, a: Addr) {
    && s.alive && s.me == a && s.peers == [] && s.role == Leader && s.term == 2 && s.log == [NoopEntry(2)]
    && s.sm == [] && s.commit == s.lastApply == 0 && s.indices == map[]
  }

  lemma AloneStands(s: Server, a: Addr)
    requires s == FirstStart(a, [])
    ensures s.alive && s.timers.election && s.me == a && Alone(Elect(s, false).server, a)
  {
    assert Fill({}, IndexItem(2, 0)) == map[];
  }

  lemma AloneProposes(s: Server, a: Addr, value: Bytes)
    requires Alone(s, a)
    ensures HasApplied(Propose(s, value).server, value) && Propose(s, value).server.me == a
  {
    var log := [NoopEntry(2), Entry(2, Data, value)];
    var s1 := s.(log := s.log + [Entry(2, Data, value)]);
    assert s1.log == log;
    assert Reached(map[], 2) == {} && StrictMajority(map[], 2, 2);
    assert MajorityMax(s1.indices, 2) == 2;
    TwoApplied(log, value);
    ApplySteps.ApplyAll(s1, 2);
  }

  /** In every cluster that the theorems are about, a client can get any value applied by any member as leader. */
  lemma AnyValueIsApplied(peersOf: map<Addr, seq<Addr>>, a: Addr, value: Bytes) returns (run: seq<Event>)
    requires SoundCluster(peersOf) && a in peersOf
    ensures var g := After(peersOf, run); a in g.servers && HasApplied(g.servers[a], value)
  {
    hide Configured, PeerSet, Exec, Init, Elected, FirstStart, Granting, HasApplied, AllFollow, Following;
    PeersAre(peersOf, a);
    assert |peersOf.Keys| == |peersOf|;
    if |peersOf| == 1 {
      SomePeers(peersOf[a]);
      run := AloneApplies(peersOf, a, value);
    } else {
      var first, voters := AnyoneCanLead(peersOf, a);
      var g := After(peersOf, first);
      forall v | v in voters
        ensures v in g.servers && Following(g.servers[v], v, 2, a, [], a)
      {
        assert VotedFor(g, peersOf, a, v);
        VoterFollows(g.servers[v], v, peersOf[v], a);
      }
      AllOfThem(g, voters, 2, a, [], a);
      var more := ValueApplied(g, a, peersOf[a], voters, value);
      ExecSplit(Init(peersOf), first, more);
      run := first + more;
    }
  }

  lemma AllOfThem(g: System, vs: set<Addr>, term: nat, vote: Addr, log: Log, a: Addr)
    requires forall v | v in vs :: v in g.servers && Following(g.servers[v], v, term, vote, log, a)
    ensures AllFollow(g, vs, term, vote, log, a)
  {
    hide Following;
  }

  lemma SomePeers(peers: seq<Addr>)
    ensures peers != [] ==> |PeerSet(peers)| > 0
  {
    if peers != [] {
      assert peers[0] in PeerSet(peers);
    }
  }

  lemma VoterFollows(s: Server, v: Addr, peers: seq<Addr>, a: Addr)
    requires s == FirstStart(v, peers).(term := 2, vote := a)
    ensures Following(s, v, 2, a, [], a)
  {
  }
}
