/** A cluster of servers and its network, as runs over events.

  The network is the set of all messages ever sent: a message may arrive late, never, twice or out of
  order. The history records, for the proofs and for stating the theorems, each vote, each election and
  each acknowledgement; no handler reads it.
*/
module Cluster {
  import opened RaftTypes
  import opened Quorum
  import opened RaftStep

  /** A vote and the voter's log when it was cast. */
  datatype VoteRec = VoteRec(cand: Addr, vlog: Log)

  /** The first time a server became leader of a term: who voted, its log then (`elog`), and its log as
      it is now or was when the server left the term (`llog`). */
  datatype Election = Election(leader: Addr, quorum: set<Addr>, elog: Log, llog: Log)

  /** votes: per term and voter; acked: per term and server, the log index up to which the server has
      accepted the leader's log of that term, which its reply acknowledges if it gets to send one. */
  datatype History = History(
    members: set<Addr>,
    votes: map<(nat, Addr), VoteRec>,
    elections: map<nat, Election>,
    acked: map<(nat, Addr), nat>)

  datatype System = System(servers: map<Addr, Server>, msgs: set<Message>, hist: History)

  datatype Event =
    | Timeout(at: Addr, preVote: bool)
    | VoteTimer(at: Addr, peer: Addr)
    | BeatTimer(at: Addr, peer: Addr)
    | ClientPropose(at: Addr, value: Bytes)
    | ClientTransfer(at: Addr, target: Addr)
    | Deliver(m: Message, intervalOk: bool)
    | Restart(at: Addr)
    | Bounce(at: Addr)
    | Crash(during: Event, applied: nat)

  // ---------- history

  ghost function RecordVote(h: History, s: Server, s': Server): History {
    if s'.vote != NO_ADDR && (s'.term, s.me) !in h.votes then
      h.(votes := h.votes[(s'.term, s.me) := VoteRec(s'.vote, s.log)])
    else h
  }

  ghost function Supporters(s: Server): set<Addr> {
    Granted(s.votes) + (if s.vote == s.me then {s.me} else {})
  }

  ghost function RecordElection(h: History, s: Server, s': Server): History {
    if s'.role == Leader && s'.term !in h.elections then
      h.(elections := h.elections[s'.term := Election(s.me, Supporters(s'), s.log, s'.log)])
    else h
  }

  ghost predicate LedBy(h: History, term: nat, a: Addr) {
    term in h.elections && h.elections[term].leader == a
  }

  /** The leader of the current term counts as having acknowledged its own log. */
  ghost function RecordLog(h: History, s': Server): History {
    if LedBy(h, s'.term, s'.me) then
      h.(elections := h.elections[s'.term := h.elections[s'.term].(llog := s'.log)],
         acked := h.acked[(s'.term, s'.me) := |s'.log|])
    else h
  }

  ghost function AckedUpTo(h: History, term: nat, a: Addr): nat {
    if (term, a) in h.acked then h.acked[(term, a)] else 0
  }

  ghost function RecordAck(h: History, me: Addr, sent: seq<Message>): History {
    if |sent| == 1 && sent[0].AppendEntriesReply? && sent[0].success then
      var r := sent[0];
      h.(acked := h.acked[(r.reqTerm, me) :=
           Max(AckedUpTo(h, r.reqTerm, me), r.reqPreIndex + r.reqNumEntries)])
    else h
  }

  ghost function Record(h: History, s: Server, e: Effect): History {
    var h1 := RecordVote(h, s, e.server);
    var h2 := RecordElection(h1, s, e.server);
    var h3 := RecordLog(h2, e.server);
    RecordAck(h3, s.me, e.sent)
  }

  // ---------- events

  /** The server an event happens at. */
  ghost function Site(ev: Event): Addr
    decreases ev
  {
    match ev
    case Deliver(m, _) => m.dest
    case Crash(during, _) => Site(during)
    case _ => ev.at
  }

  /** The event whose handler runs, to its end or into a crash. */
  ghost function Plain(ev: Event): Event {
    if ev.Crash? then ev.during else ev
  }

  /** A handler can run: its timer is armed, its message was sent, its server exists and is running. */
  ghost predicate Enabled(g: System, ev: Event) {
    && Site(ev) in g.servers
    && var s := g.servers[Site(ev)];
    match ev
    case Timeout(_, _) => s.alive && s.timers.election
    case VoteTimer(_, peer) => s.alive && peer in s.timers.requestVotes
    case BeatTimer(_, peer) => s.alive && peer in s.timers.heartbeats
    case ClientPropose(_, _) => s.alive
    case ClientTransfer(_, target) => s.alive && target in g.servers && target != s.me
    case Deliver(m, _) => s.alive && m in g.msgs
    case Restart(_) => true
    case Bounce(_) => s.alive
    case Crash(during, _) => !during.Crash? && Enabled(g, during)
  }

  ghost function OnMessage(s: Server, m: Message, intervalOk: bool): Effect {
    match m
    case RequestVote(_, _, _, _, _, _, _) => OnRequestVote(s, m, intervalOk)
    case RequestVoteReply(_, _, _, _, _, _, _, _) => OnRequestVoteReply(s, m)
    case AppendEntries(_, _, _, _, _, _, _) => OnAppendEntries(s, m)
    case AppendEntriesReply(_, _, _, _, _, _, _, _) => OnAppendEntriesReply(s, m)
    case TimeoutNow(_, _, _, _, _, _) => OnTimeoutNow(s, m)
  }

  /** What the server does on an event that is not a crash. */
  ghost function Handle(s: Server, ev: Event): Effect
    requires !ev.Crash?
  {
    match ev
    case Timeout(_, preVote) => Elect(s, preVote)
    case VoteTimer(_, peer) => RequestVoteRpc(s, peer)
    case BeatTimer(_, peer) => HeartBeat(s, peer)
    case ClientPropose(_, value) => Propose(s, value)
    case ClientTransfer(_, target) => LeaderTransfer(s, target)
    case Deliver(m, intervalOk) => OnMessage(s, m, intervalOk)
    case Restart(_) => Effect(Reboot(s), [])
    case Bounce(_) => Effect(StopStart(s), [])
  }

  ghost function Sent(sent: seq<Message>): set<Message> {
    set m | m in sent
  }

  ghost function Take(g: System, s: Server, e: Effect): System {
    System(g.servers[s.me := e.server], g.msgs + Sent(e.sent), Record(g.hist, s, e))
  }

  /** A process that dies in the apply loop of a handler, `applied` being the last index it got to:
      the log, term, vote and the state machine up to there are on disk, nothing is sent. */
  ghost function CrashTo(s: Server, s': Server, applied: nat): Server {
    if s.lastApply <= applied <= s'.lastApply && applied <= |s'.log| then
      Reboot(s'.(sm := s.sm + DataBetween(s'.log, s.lastApply, applied)))
    else Reboot(s')
  }

  ghost function Next(g: System, ev: Event): System {
    if !Enabled(g, ev) then g
    else
      var s := g.servers[Site(ev)];
      match ev
      case Crash(during, applied) =>
        var e := Handle(s, during);
        Take(g, s, e).(servers := g.servers[s.me := CrashTo(s, e.server, applied)], msgs := g.msgs)
      case _ => Take(g, s, Handle(s, ev))
  }

  // ---------- runs

  ghost predicate Configured(peersOf: map<Addr, seq<Addr>>) {
    && NO_ADDR !in peersOf
    && forall a | a in peersOf ::
         && a !in peersOf[a]
         && PeerSet(peersOf[a]) + {a} == peersOf.Keys
         && forall i, j :: 0 <= i < j < |peersOf[a]| ==> peersOf[a][i] != peersOf[a][j]
  }

  ghost function StartAll(peersOf: map<Addr, seq<Addr>>, keys: set<Addr>): (servers: map<Addr, Server>)
    requires keys <= peersOf.Keys
    ensures servers.Keys == keys
    ensures forall a | a in keys :: servers[a] == FirstStart(a, peersOf[a])
  {
    if keys == {} then map[]
    else
      var a :| a in keys;
      StartAll(peersOf, keys - {a})[a := FirstStart(a, peersOf[a])]
  }

  /** Every member started on empty storage, each with the others as its peers. */
  ghost function Init(peersOf: map<Addr, seq<Addr>>): System {
    System(StartAll(peersOf, peersOf.Keys), {},
           History(peersOf.Keys, map[], map[], map[]))
  }

  ghost function Exec(g: System, run: seq<Event>): System
    decreases |run|
  {
    if run == [] then g else Next(Exec(g, run[..|run| - 1]), run[|run| - 1])
  }

  /** The state after `run` from the start. */
  ghost function After(peersOf: map<Addr, seq<Addr>>, run: seq<Event>): System {
    Exec(Init(peersOf), run)
  }
}
