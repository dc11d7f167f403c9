/** What each handler of a server does, as a function of the server's state.

  Every handler runs to its end or to the first assertion of the source that fails; a failed assertion
  stops the process, which is `alive` turning false. What happened before it stays.
*/
module RaftStep {
  import opened RaftTypes
  import opened Quorum

  // ---------- reading the log and the state machine

  /** What the state machine reports as its last index; module StoredState says when the key-value store does. */
  function SmLast(sm: seq<Applied>): nat {
    if sm == [] then 0 else sm[|sm| - 1].index
  }

  function SmLastTerm(sm: seq<Applied>): nat {
    if sm == [] then 0 else sm[|sm| - 1].entry.term
  }

  ghost function LastIndex(s: Server): nat {
    Max(SmLast(s.sm), |s.log|)
  }

  ghost function LastLogTerm(log: Log): nat {
    if log == [] then 0 else log[|log| - 1].term
  }

  ghost function LastTerm(s: Server): nat {
    if |s.log| >= SmLast(s.sm) then LastLogTerm(s.log) else SmLastTerm(s.sm)
  }

  ghost function GetTerm(s: Server, index: nat): nat {
    if index == 0 then 0
    else if index <= |s.log| then s.log[index - 1].term
    else SmLastTerm(s.sm)
  }

  ghost function NextOf(s: Server, peer: Addr): nat {
    if peer in s.indices then s.indices[peer].next else 0
  }

  ghost function MatchOf(s: Server, peer: Addr): nat {
    if peer in s.indices then s.indices[peer].match_ else 0
  }

  /** The index manager after a look-up, which makes an empty row for an unknown peer. */
  ghost function Touch(s: Server, peer: Addr): Server {
    if peer in s.indices then s else s.(indices := s.indices[peer := NO_INDEX])
  }

  ghost function SetNext(s: Server, peer: Addr, next: nat): Server {
    s.(indices := s.indices[peer := IndexItem(next, MatchOf(s, peer))])
  }

  ghost function SetMatch(s: Server, peer: Addr, index: nat): Server {
    s.(indices := s.indices[peer := IndexItem(NextOf(s, peer), index)])
  }

  // ---------- role changes

  ghost function ElectionTimerOnly(): Timers {
    Timers(true, {}, {})
  }

  ghost function StepDown(s: Server, term: nat): Server
    requires s.term <= term
  {
    if s.term < term then
      s.(term := term, vote := NO_ADDR, leader := NO_ADDR, role := Follower, timers := ElectionTimerOnly())
    else
      s.(role := Follower, timers := ElectionTimerOnly())
  }

  ghost function BecomeCandidate(s: Server): Server {
    s.(role := Candidate, leader := NO_ADDR, votes := Fill(s.votes.Keys, NO_VOTE))
  }

  ghost function NoopEntry(term: nat): Entry {
    Entry(term, Noop, [48])
  }

  ghost function BecomeLeader(s: Server): Server
    requires s.role == Candidate
  {
    s.(role := Leader, leader := s.me, leaderTransfer := false,
       timers := Timers(false, {}, PeerSet(s.peers)),
       indices := Fill(s.indices.Keys, IndexItem(LastIndex(s) + 1, 0)),
       log := s.log + [NoopEntry(s.term)])
  }

  /** Arms every request-vote timer and re-arms the election timer. */
  ghost function StartCampaign(s: Server): Server {
    s.(timers := s.timers.(election := true, requestVotes := PeerSet(s.peers)))
  }

  ghost function DoRequestVote(s: Server): Server {
    var c := BecomeCandidate(s.(term := s.term + 1)).(vote := s.me);
    if QuorumAll(c.votes, c.vote == c.me) then BecomeLeader(c) else StartCampaign(c)
  }

  ghost function DoPreVote(s: Server): Server {
    StartCampaign(BecomeCandidate(s))
  }

  // ---------- timers

  ghost function Elect(s: Server, preVote: bool): Effect {
    if s.role == Leader then Effect(s.(alive := false), [])
    else if preVote && |s.peers| > 0 then Effect(DoPreVote(s.(preVoting := true)), [])
    else Effect(DoRequestVote(s.(preVoting := false)), [])
  }

  ghost function SendRequestVote(s: Server, dest: Addr): Effect {
    var transfer := s.leaderTransfer && s.term <= s.transferMaxTerm;
    var s' := if transfer then s else s.(leaderTransfer := false, transferMaxTerm := 0);
    Effect(s', [RequestVote(s.me, dest, s.term, LastIndex(s), LastTerm(s), transfer, s.preVoting)])
  }

  ghost function RequestVoteRpc(s: Server, dest: Addr): Effect {
    if s.role != Candidate then Effect(s.(alive := false), []) else SendRequestVote(s, dest)
  }

  ghost function SendAppendEntries(s: Server, dest: Addr): Effect {
    var next := NextOf(s, dest);
    if next == 0 || next - 1 > LastIndex(s) then Effect(Touch(s, dest).(alive := false), [])
    else
      var pre := next - 1;
      var entries := if next <= |s.log| then [LogEntry(next, s.log[next - 1])] else [];
      Effect(s, [AppendEntries(s.me, dest, s.term, pre, GetTerm(s, pre),
                               Min(s.commit, pre + |entries|), entries)])
  }

  ghost function HeartBeat(s: Server, dest: Addr): Effect {
    if s.role != Leader then Effect(s.(alive := false), []) else SendAppendEntries(s, dest)
  }

  // ---------- commit and apply

  /** The data entries of log indexes lo + 1 .. hi, in order, as the state machine gets them. */
  ghost function DataBetween(log: Log, lo: nat, hi: nat): seq<Applied>
    requires hi <= |log|
  {
    if hi <= lo then []
    else DataBetween(log, lo, hi - 1) +
         (if log[hi - 1].kind == Data then [Applied(hi, log[hi - 1])] else [])
  }

  /** The apply loop from index i on. */
  ghost function ApplyFrom(s: Server, i: nat): Server
    requires i >= 1
    decreases s.commit + 1 - i
  {
    if i > s.commit then s.(lastApply := s.commit)
    else if i > |s.log| || s.log[i - 1].kind == Unknown then s.(alive := false)
    else if s.log[i - 1].kind == Data then
      ApplyFrom(s.(sm := s.sm + [Applied(i, s.log[i - 1])]), i + 1)
    else ApplyFrom(s, i + 1)
  }

  ghost function StateMachineApply(s: Server): Server {
    if s.commit > s.lastApply then ApplyFrom(s, s.lastApply + 1) else s
  }

  ghost function MaybeCommit(s: Server): Server {
    var k := MajorityMax(s.indices, LastIndex(s));
    if s.commit >= k then s
    else if k > |s.log| then s.(alive := false)
    else if s.log[k - 1].term != s.term then s
    else StateMachineApply(s.(commit := k))
  }

  // ---------- requests from clients

  ghost function AgainHeartBeat(s: Server, peer: Addr): Server {
    if peer in s.peers then s.(timers := s.timers.(heartbeats := s.timers.heartbeats + {peer})) else s
  }

  /** Sends to peers k, k + 1, ... in configuration order. */
  ghost function SendFrom(s: Server, k: nat): Effect
    decreases |s.peers| - k
  {
    if k >= |s.peers| then Effect(s, [])
    else
      var e := SendAppendEntries(s, s.peers[k]);
      if !e.server.alive then e
      else
        var rest := SendFrom(AgainHeartBeat(s, s.peers[k]), k + 1);
        Effect(rest.server, e.sent + rest.sent)
  }

  ghost function Propose(s: Server, value: Bytes): Effect {
    if s.role != Leader then Effect(s, [])
    else
      var c := MaybeCommit(s.(log := s.log + [Entry(s.term, Data, value)]));
      if !c.alive then Effect(c, []) else SendFrom(c, 0)
  }

  ghost function LeaderTransfer(s: Server, dest: Addr): Effect {
    if s.role != Leader then Effect(s, [])
    else Effect(s, [TimeoutNow(s.me, dest, s.term, LastIndex(s), LastTerm(s), false)])
  }

  // ---------- votes

  ghost function LogOk(s: Server, lastLogIndex: nat, lastLogTerm: nat): bool {
    || lastLogTerm > LastTerm(s)
    || (lastLogTerm == LastTerm(s) && lastLogIndex >= LastIndex(s))
  }

  /** `intervalOk` is the outcome of the heartbeat interval check, true also when the check is off. */
  ghost function OnRequestVote(s: Server, m: Message, intervalOk: bool): Effect
    requires m.RequestVote?
  {
    var logOk := LogOk(s, m.lastLogIndex, m.lastLogTerm);
    if !intervalOk && !m.leaderTransfer then
      Effect(s, [RequestVoteReply(m.dest, m.src, s.term, false, m.preVote, logOk, false, m.term)])
    else
      var s1 := if m.term > s.term then StepDown(s, m.term) else s;
      var s2 := if m.term == s1.term && logOk && s1.vote == NO_ADDR then
                  StepDown(s1, s1.term).(vote := if m.preVote then s1.vote else m.src)
                else s1;
      var granted := m.term == s2.term && s2.vote == m.src;
      Effect(s2, [RequestVoteReply(m.dest, m.src, s2.term, granted, m.preVote, logOk, true, m.term)])
  }

  ghost function VoteRow(s: Server, peer: Addr): VoteItem {
    if peer in s.votes then s.votes[peer] else NO_VOTE
  }

  ghost function StopRequestVote(s: Server, peer: Addr): Server {
    s.(timers := s.timers.(requestVotes := s.timers.requestVotes - {peer}))
  }

  /** The row of a voter that has answered, and its grant. */
  ghost function NoteVote(s: Server, src: Addr, granted: bool): Server {
    var s1 := StopRequestVote(s.(votes := s.votes[src := VoteRow(s, src).(done := true)]), src);
    if granted then s1.(votes := s1.votes[src := VoteRow(s1, src).(grant := true)]) else s1
  }

  ghost function OnRealVote(s: Server, src: Addr, granted: bool): Server {
    var s2 := NoteVote(s, src, granted);
    if granted && Majority(s2.votes, s2.vote == s2.me) && s2.role == Candidate then BecomeLeader(s2) else s2
  }

  /** The flags of a pre-vote reply. */
  ghost function NotePreVote(s: Server, src: Addr, logOk: bool, intervalOk: bool): Server {
    var s1 := StopRequestVote(s, src);
    var s2 := if logOk then s1.(votes := s1.votes[src := VoteRow(s1, src).(logok := true)]) else s1;
    if intervalOk then s2.(votes := s2.votes[src := VoteRow(s2, src).(intervalOk := true)]) else s2
  }

  ghost function OnPreVote(s: Server, src: Addr, logOk: bool, intervalOk: bool): Server {
    var s3 := NotePreVote(s, src, logOk, intervalOk);
    if logOk && MajorityPreVoteOk(s3.votes, true) && s3.role == Candidate && s3.preVoting then
      DoRequestVote(s3.(preVoting := false))
    else s3
  }

  ghost function OnRequestVoteReply(s: Server, m: Message): Effect
    requires m.RequestVoteReply?
  {
    if m.term < s.term || m.reqTerm != s.term then Effect(s, [])
    else if m.term > s.term then Effect(StepDown(s, m.term), [])
    else if !m.preVote then Effect(OnRealVote(s, m.src, m.granted), [])
    else Effect(OnPreVote(s, m.src, m.logOk, m.intervalOk), [])
  }

  // ---------- log replication

  /** Position of the first entry that the log does not already hold, or |es|. */
  ghost function FirstNew(log: Log, pre: nat, es: seq<LogEntry>): (k: nat)
    ensures k <= |es|
    decreases |es|
  {
    if es == [] || pre >= |log| || log[pre].term != es[0].entry.term then 0
    else FirstNew(log, pre + 1, es[1..]) + 1
  }

  ghost function Payload(es: seq<LogEntry>): Log {
    seq(|es|, i requires 0 <= i < |es| => es[i].entry)
  }

  /** Cuts the log at the first entry that differs and appends from there; a log that already holds
      every entry stays as it is. */
  ghost function Reconcile(log: Log, pre: nat, es: seq<LogEntry>): Log {
    var k := FirstNew(log, pre, es);
    if k == |es| then log else log[..Min(pre + k, |log|)] + Payload(es)[k..]
  }

  /** The assertions of the entry loop: every entry looked at carries the index expected of it, and a
      cut is above the commit index. */
  ghost predicate EntriesAsserted(s: Server, pre: nat, es: seq<LogEntry>) {
    var k := FirstNew(s.log, pre, es);
    && (forall j :: 0 <= j < |es| && j <= k ==> es[j].index == pre + 1 + j)
    && (k < |es| && pre + k < |s.log| ==> s.commit < pre + k + 1)
  }

  ghost function AdvanceCommit(s: Server, commit: nat): Server {
    if s.commit >= commit then s
    else if commit > LastIndex(s) then s.(commit := commit, alive := false)
    else StateMachineApply(s.(commit := commit))
  }

  ghost predicate PreMatches(s: Server, m: Message)
    requires m.AppendEntries?
  {
    && m.preLogIndex <= LastIndex(s)
    && (1 <= m.preLogIndex <= |s.log| ==> GetTerm(s, m.preLogIndex) == m.preLogTerm)
  }

  ghost function AppendReply(s: Server, m: Message, success: bool): Message
    requires m.AppendEntries?
  {
    AppendEntriesReply(m.dest, m.src, s.term, success, LastIndex(s), m.preLogIndex, |m.entries|, m.term)
  }

  ghost function AcceptEntries(s: Server, m: Message): Effect
    requires m.AppendEntries?
  {
    if !EntriesAsserted(s, m.preLogIndex, m.entries) then Effect(s.(alive := false), [])
    else
      var s1 := s.(log := Reconcile(s.log, m.preLogIndex, m.entries));
      var s2 := AdvanceCommit(s1, m.commitIndex);
      if !s2.alive then Effect(s2, [])
      else Effect(s2, [AppendReply(s1, m, true)])
  }

  ghost function OnAppendEntries(s: Server, m: Message): Effect
    requires m.AppendEntries?
  {
    if m.term < s.term then Effect(s, [AppendReply(s, m, false)])
    else
      var s1 := StepDown(s, m.term);
      if s1.leader != NO_ADDR && s1.leader != m.src then Effect(s1.(alive := false), [])
      else
        var s2 := s1.(leader := m.src);
        if !PreMatches(s2, m) then Effect(s2, [AppendReply(s2, m, false)])
        else AcceptEntries(s2, m)
  }

  /** The leader's tables after a reply of its own term. */
  ghost function NoteReply(s: Server, m: Message): Server
    requires m.AppendEntriesReply?
  {
    if m.success then
      var index := m.reqPreIndex + m.reqNumEntries;
      var s1 := if MatchOf(s, m.src) > index then s else MaybeCommit(SetMatch(s, m.src, index));
      if !s1.alive then s1 else SetNext(s1, m.src, MatchOf(s1, m.src) + 1)
    else
      var s1 := if NextOf(s, m.src) > 1 then SetNext(s, m.src, NextOf(s, m.src) - 1) else Touch(s, m.src);
      if NextOf(s1, m.src) > m.lastLogIndex + 1 then SetNext(s1, m.src, m.lastLogIndex + 1) else s1
  }

  ghost function OnAppendEntriesReply(s: Server, m: Message): Effect
    requires m.AppendEntriesReply?
  {
    if m.term < s.term || m.reqTerm != s.term then Effect(s, [])
    else if s.role != Leader then Effect(s.(alive := false), [])
    else if m.term > s.term then Effect(StepDown(s, m.term), [])
    else
      var s1 := NoteReply(s, m);
      if !s1.alive || NextOf(s1, m.src) > LastIndex(s1) then Effect(s1, [])
      else
        var e := SendAppendEntries(s1, m.src);
        if !e.server.alive then e else Effect(AgainHeartBeat(s1, m.src), e.sent)
  }

  // ---------- leadership transfer

  ghost function OnTimeoutNow(s: Server, m: Message): Effect
    requires m.TimeoutNow?
  {
    var s1 := s.(leaderTransfer := true, transferMaxTerm := s.term + MAX_TRANSFER_TERM);
    var enough := m.lastLogTerm <= LastTerm(s)
                  || (m.lastLogTerm == LastTerm(s) && m.lastLogIndex <= LastIndex(s));
    var s2 := if m.term > s1.term then StepDown(s1, m.term) else s1;
    if (m.force || enough) && s2.role == Follower then
      Effect(s2.(timers := s2.timers.(election := true)), [])
    else Effect(s2, [])
  }

  // ---------- life cycle

  /** A server with no persisted data, after Init and Start. */
  ghost function FirstStart(me: Addr, peers: seq<Addr>): Server {
    Server(true, me, peers, 1, NO_ADDR, [], [], Follower, NO_ADDR, 0, 0,
           Fill(PeerSet(peers), NO_VOTE),
           Fill(PeerSet(peers), IndexItem(1, 0)),
           false, false, 0, ElectionTimerOnly())
  }

  /** A new process over the stored term, vote, log and state machine. */
  ghost function Reboot(s: Server): Server {
    FirstStart(s.me, s.peers).(
      term := s.term, vote := s.vote, log := s.log, sm := s.sm,
      lastApply := SmLast(s.sm),
      indices := Fill(PeerSet(s.peers), IndexItem(|s.log| + 1, 0)))
  }

  /** Stop followed by Start on the same object: the tables and the commit index survive. */
  ghost function StopStart(s: Server): Server {
    s.(role := Follower, timers := ElectionTimerOnly(), lastApply := SmLast(s.sm))
  }
}
