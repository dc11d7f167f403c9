/** A server as the source writes it: an object whose handlers update its fields and the managers it owns.
    Each method is proved to do what the function of module RaftStep of the same name says, so that what is
    proved of clusters of those functions holds of clusters of these objects. */
module Rafts {
  import opened RaftTypes
  import opened Reconciling
  import opened SolidDatas
  import opened VoteManagers
  import opened IndexManagers
  import opened TimerManagers
  import opened KeyOrder
  import opened LogState
  import opened RaftLogStore
  import Quorum
  import RaftStep
  import Durability
  import Cluster

  /** A server with its tables in place and no timer armed, before Start. */
  ghost function Stopped(me: Addr, peers: seq<Addr>, term: nat, vote: Addr, log: Log, sm: seq<Applied>,
                         next: nat): Server {
    Server(true, me, peers, term, vote, log, sm, Follower, NO_ADDR, 0, 0,
           Fill(PeerSet(peers), NO_VOTE), Fill(PeerSet(peers), IndexItem(next, 0)),
           false, false, 0, Timers(false, {}, {}))
  }

  lemma StartedAgain(s: Server)
    ensures var v := Stopped(s.me, s.peers, s.term, s.vote, s.log, s.sm, |s.log| + 1);
            RaftStep.StepDown(v.(lastApply := RaftStep.SmLast(v.sm)), v.term) == RaftStep.Reboot(s)
  {
  }

  lemma StartedFirst(me: Addr, peers: seq<Addr>)
    ensures var v := Stopped(me, peers, 1, NO_ADDR, [], [], 1);
            RaftStep.StepDown(v.(lastApply := RaftStep.SmLast(v.sm)), v.term) == RaftStep.FirstStart(me, peers)
  {
  }

  lemma SameLast(s: Server, s': Server)
    requires s'.log == s.log && s'.sm == s.sm
    ensures RaftStep.LastIndex(s') == RaftStep.LastIndex(s)
  {
  }

  class Raft {
    const me: Addr
    const peers: seq<Addr>
    const meta: SolidData
    const log: RaftLog
    const votes: VoteManager
    const indices: IndexManager
    const timers: TimerManager

    var alive: bool
    var role: Role
    var leader: Addr
    var commit: nat
    var lastApply: nat
    var sm: seq<Applied>
    var preVoting: bool
    var leaderTransfer: bool
    var transferMaxTerm: nat
    var sent: seq<Message>

    ghost predicate Valid()
      reads this, meta, log, votes, indices, timers
    {
      && me !in peers
      && meta.Valid() && log.Valid() && log.state.cut == 0
      && timers.For(peers)
    }

    ghost function View(): Server
      reads this, meta, log, votes, indices, timers
    {
      Server(alive, me, peers, meta.term, meta.vote, log.state.history, sm, role, leader, commit, lastApply,
             votes.votes, indices.indices, preVoting, leaderTransfer, transferMaxTerm, timers.View())
    }

    /** The first process on empty storage: construction, Init and Start. */
    constructor (me: Addr, peers: seq<Addr>, crc: Crc)
      requires me !in peers
      ensures Valid() && View() == RaftStep.FirstStart(me, peers) && sent == []
      ensures fresh(meta) && fresh(log) && fresh(votes) && fresh(indices) && fresh(timers)
    {
      hide StoresHold, InMemory, PeerSet, Fill, RaftStep.StepDown, RaftStep.SmLast, RaftStep.FirstStart;
      this.me, this.peers := me, peers;
      var meta := new SolidData();
      var log := new RaftLog(crc);
      var votes := new VoteManager(peers);
      var indices := new IndexManager(peers);
      var timers := new TimerManager(peers);
      this.meta, this.log, this.votes, this.indices, this.timers := meta, log, votes, indices, timers;
      alive, role, leader := true, Follower, NO_ADDR;
      commit, lastApply, sm := 0, 0, [];
      preVoting, leaderTransfer, transferMaxTerm := false, false, 0;
      sent := [];
      new;
      FilledKeys(peers);
      meta.Init();
      log.Init();
      assert View() == Stopped(me, peers, 1, NO_ADDR, [], [], 1);
      StartedFirst(me, peers);
      Start();
    }

    /** Raft::Start, on tables that are in place. */
    method Start()
      requires Valid()
      modifies this`lastApply, this`role, this`leader, meta, timers
      ensures Valid()
      ensures View() == RaftStep.StepDown(old(View()).(lastApply := RaftStep.SmLast(sm)), old(View()).term)
    {
      lastApply := RaftStep.SmLast(sm);
      StepDown(meta.term);
    }

    /** The window of a log that was never compacted. */
    lemma WholeLog()
      requires Valid()
      ensures log.last == |log.state.history| && log.append == log.last + 1
      ensures log.first == if log.state.history == [] then 0 else 1
      ensures forall i :: InWindow(log.state, i) <==> 1 <= i <= |log.state.history|
      ensures forall i: nat | 1 <= i <= |log.state.history| ::
                DroppedFrom(log.state, i) == log.state.(history := log.state.history[..i - 1])
    {
      log.Window();
    }

    method LastIndex() returns (last: nat)
      requires Valid()
      ensures last == RaftStep.LastIndex(View())
    {
      WholeLog();
      last := Max(RaftStep.SmLast(sm), log.last);
    }

    method LastTerm() returns (term: nat)
      requires Valid()
      ensures term == RaftStep.LastTerm(View())
    {
      WholeLog();
      var snapshotLast := RaftStep.SmLast(sm);
      if log.last >= snapshotLast {
        if log.last == 0 {
          return 0;
        } else {
          var last := log.LastMeta();
          MetaParts(log.crc, log.state.history, log.last);
          return last.value.term;
        }
      } else {
        return RaftStep.SmLastTerm(sm);
      }
    }

    method GetTerm(index: nat) returns (term: nat)
      requires Valid()
      ensures term == RaftStep.GetTerm(View(), index)
    {
      WholeLog();
      if index == 0 {
        return 0;
      }
      var m := log.GetMeta(index);
      if m.Some? {
        MetaParts(log.crc, log.state.history, index);
        return m.value.term;
      } else {
        return RaftStep.SmLastTerm(sm);
      }
    }

    // ---------- role changes

    method StepDown(newTerm: nat)
      requires Valid() && meta.term <= newTerm
      modifies this`leader, this`role, meta, timers
      ensures Valid() && View() == RaftStep.StepDown(old(View()), newTerm)
    {
      if meta.term < newTerm {
        meta.SetTerm(newTerm);
        meta.SetVote(NO_ADDR);
        leader := NO_ADDR;
        role := Follower;
      } else if role != Follower {
        role := Follower;
      }
      timers.StopHeartBeat();
      timers.StopAllRequestVote();
      timers.AgainElection();
    }

    method BecomeCandidate()
      requires Valid()
      modifies this`leader, this`role, votes
      ensures Valid() && View() == RaftStep.BecomeCandidate(old(View()))
    {
      role := Candidate;
      leader := NO_ADDR;
      votes.Clear();
    }

    method AppendNoop()
      requires Valid()
      modifies log
      ensures Valid()
      ensures View() == old(View()).(log := old(View()).log + [RaftStep.NoopEntry(old(View()).term)])
    {
      WholeLog();
      log.AppendOne(Entry(meta.term, Noop, [48]));
    }

    method BecomeLeader()
      requires Valid() && role == Candidate
      modifies this`leaderTransfer, this`role, this`leader, timers, indices, log
      ensures Valid() && View() == RaftStep.BecomeLeader(old(View()))
    {
      hide StoresHold, InMemory, RaftStep.SmLast, PeerSet, Fill, RaftStep.LastIndex;
      leaderTransfer := false;
      role := Leader;
      leader := me;
      ghost var s1 := View();
      timers.StopElection();
      timers.StopAllRequestVote();
      ghost var s2 := View();
      assert s2 == s1.(timers := Timers(false, {}, s1.timers.heartbeats));
      SameLast(old(View()), s2);
      var last := LastIndex();
      ResetIndices(last + 1);
      ghost var s3 := View();
      timers.StartHeartBeat();
      assert View() == s3.(timers := Timers(false, {}, PeerSet(peers)));
      AppendNoop();
    }

    method ResetIndices(next: nat)
      requires Valid()
      modifies indices
      ensures Valid()
      ensures View() == old(View()).(indices := Fill(old(View()).indices.Keys, IndexItem(next, 0)))
    {
      indices.ResetNext(next);
      indices.ResetMatch(0);
      FillIs(indices.indices, indices.indices.Keys, IndexItem(next, 0));
    }

    method DoRequestVote()
      requires Valid()
      modifies this`leaderTransfer, this`role, this`leader, meta, votes, timers, indices, log
      ensures Valid() && View() == RaftStep.DoRequestVote(old(View()))
    {
      hide StoresHold, InMemory, PeerSet, RaftStep.BecomeLeader, Quorum.QuorumAll;
      meta.IncrTerm();
      BecomeCandidate();
      meta.SetVote(me);
      var all := votes.QuorumAll(meta.vote == me);
      if all {
        BecomeLeader();
        return;
      }
      timers.StartRequestVote();
      timers.AgainElection();
    }

    method DoPreVote()
      requires Valid()
      modifies this`role, this`leader, votes, timers
      ensures Valid() && View() == RaftStep.DoPreVote(old(View()))
    {
      BecomeCandidate();
      timers.StartRequestVote();
      timers.AgainElection();
    }

    // ---------- timers

    method Elect(preVote: bool)
      requires Valid() && alive
      modifies this, meta, votes, timers, indices, log
      ensures Valid() && View() == RaftStep.Elect(old(View()), preVote).server
      ensures sent == old(sent) + RaftStep.Elect(old(View()), preVote).sent
    {
      hide StoresHold, InMemory, PeerSet, RaftStep.DoPreVote, RaftStep.DoRequestVote;
      if role == Leader {
        alive := false;
        return;
      }
      if preVote && |peers| > 0 {
        preVoting := true;
        DoPreVote();
      } else {
        preVoting := false;
        DoRequestVote();
      }
    }

    method SendRequestVote(dest: Addr)
      requires Valid()
      modifies this`leaderTransfer, this`transferMaxTerm, this`sent
      ensures Valid() && View() == RaftStep.SendRequestVote(old(View()), dest).server
      ensures sent == old(sent) + RaftStep.SendRequestVote(old(View()), dest).sent
    {
      hide StoresHold, InMemory, PeerSet, RaftStep.LastIndex, RaftStep.LastTerm;
      var lastIndex := LastIndex();
      var lastTerm := LastTerm();
      var transfer;
      if leaderTransfer && meta.term <= transferMaxTerm {
        transfer := true;
      } else {
        transfer := false;
        leaderTransfer := false;
        transferMaxTerm := 0;
      }
      sent := sent + [RequestVote(me, dest, meta.term, lastIndex, lastTerm, transfer, preVoting)];
    }

    method RequestVoteRpc(dest: Addr)
      requires Valid() && alive
      modifies this`alive, this`leaderTransfer, this`transferMaxTerm, this`sent
      ensures Valid() && View() == RaftStep.RequestVoteRpc(old(View()), dest).server
      ensures sent == old(sent) + RaftStep.RequestVoteRpc(old(View()), dest).sent
    {
      if role != Candidate {
        alive := false;
        return;
      }
      SendRequestVote(dest);
    }

    method SendAppendEntries(dest: Addr)
      requires Valid()
      modifies this`alive, this`sent, indices
      ensures Valid() && View() == RaftStep.SendAppendEntries(old(View()), dest).server
      ensures sent == old(sent) + RaftStep.SendAppendEntries(old(View()), dest).sent
    {
      hide StoresHold, InMemory, PeerSet, RaftStep.LastIndex;
      WholeLog();
      var lastIndex := LastIndex();
      var next := indices.GetNext(dest);
      if next == 0 || next - 1 > lastIndex {
        alive := false;
        return;
      }
      var pre := next - 1;
      var preTerm := 0;
      if pre >= log.first {
        preTerm := GetTerm(pre);
      }
      var entries := [];
      if log.IndexValid(next) {
        var e := log.Get(next);
        entries := [LogEntry(next, e.value)];
      }
      sent := sent + [AppendEntries(me, dest, meta.term, pre, preTerm, Min(commit, pre + |entries|), entries)];
    }

    method HeartBeat(dest: Addr)
      requires Valid() && alive
      modifies this`alive, this`sent, indices
      ensures Valid() && View() == RaftStep.HeartBeat(old(View()), dest).server
      ensures sent == old(sent) + RaftStep.HeartBeat(old(View()), dest).sent
    {
      if role != Leader {
        alive := false;
        return;
      }
      SendAppendEntries(dest);
    }

    // ---------- commit and apply

    method StateMachineApply()
      requires Valid() && alive
      modifies this`alive, this`sm, this`lastApply
      ensures Valid() && View() == RaftStep.StateMachineApply(old(View()))
    {
      hide StoresHold, InMemory, PeerSet;
      WholeLog();
      if commit > lastApply {
        var i := lastApply + 1;
        while i <= commit
          invariant lastApply == old(lastApply) && lastApply + 1 <= i <= commit + 1 && alive && Valid()
          invariant RaftStep.ApplyFrom(View(), i) == RaftStep.ApplyFrom(old(View()), old(lastApply) + 1)
        {
          var e := log.Get(i);
          if e.None? {
            alive := false;
            return;
          }
          match e.value.kind {
            case Data => sm := sm + [Applied(i, e.value)];
            case Config =>
            case Noop =>
            case Unknown =>
              alive := false;
              return;
          }
          i := i + 1;
        }
        lastApply := commit;
      }
    }

    method MaybeCommit()
      requires Valid() && alive && role == Leader
      modifies this`alive, this`sm, this`lastApply, this`commit
      ensures Valid() && View() == RaftStep.MaybeCommit(old(View()))
    {
      hide StoresHold, InMemory, PeerSet, RaftStep.LastIndex, RaftStep.StateMachineApply, Quorum.IsMajorityMax;
      WholeLog();
      var last := LastIndex();
      var newCommit := indices.MajorityMax(last);
      Quorum.MajorityMaxUnique(indices.indices, last, newCommit, Quorum.MajorityMax(indices.indices, last));
      if commit >= newCommit {
        return;
      }
      var m := log.GetMeta(newCommit);
      if m.None? {
        alive := false;
        return;
      }
      MetaParts(log.crc, log.state.history, newCommit);
      if m.value.term != meta.term {
        return;
      }
      commit := newCommit;
      StateMachineApply();
    }

    // ---------- requests from clients

    method Propose(value: Bytes)
      requires Valid() && alive
      modifies this, timers, indices, log
      ensures Valid() && View() == RaftStep.Propose(old(View()), value).server
      ensures sent == old(sent) + RaftStep.Propose(old(View()), value).sent
    {
      hide StoresHold, InMemory, PeerSet, RaftStep.MaybeCommit, RaftStep.SendFrom;
      if role != Leader {
        return;
      }
      DoPropose(value);
    }

    method DoPropose(value: Bytes)
      requires Valid() && alive && role == Leader
      modifies this, timers, indices, log
      ensures Valid() && View() == RaftStep.Propose(old(View()), value).server
      ensures sent == old(sent) + RaftStep.Propose(old(View()), value).sent
    {
      hide StoresHold, InMemory, PeerSet, RaftStep.MaybeCommit, RaftStep.SendFrom;
      log.AppendOne(Entry(meta.term, Data, value));
      MaybeCommit();
      if !alive {
        return;
      }
      SendToAll();
    }

    /** The loop over the peers in DoPropose. */
    method SendToAll()
      requires Valid() && alive
      modifies this`alive, this`sent, timers, indices
      ensures Valid() && View() == RaftStep.SendFrom(old(View()), 0).server
      ensures sent == old(sent) + RaftStep.SendFrom(old(View()), 0).sent
    {
      hide StoresHold, InMemory, RaftStep.SendAppendEntries, RaftStep.SendFrom;
      var i := 0;
      while i < |peers|
        invariant 0 <= i <= |peers| && Valid() && alive
        invariant RaftStep.SendFrom(old(View()), 0).server == RaftStep.SendFrom(View(), i).server
        invariant old(sent) + RaftStep.SendFrom(old(View()), 0).sent == sent + RaftStep.SendFrom(View(), i).sent
      {
        ghost var s := View();
        SendOne(s, i);
        SendAppendEntries(peers[i]);
        if !alive {
          return;
        }
        SendKeeps(s, peers[i]);
        timers.AgainHeartBeat(peers[i]);
        assert View() == RaftStep.AgainHeartBeat(s, peers[i]);
        i := i + 1;
      }
      SendOne(View(), i);
    }

    lemma SendOne(s: Server, i: nat)
      ensures i >= |s.peers| ==> RaftStep.SendFrom(s, i) == Effect(s, [])
      ensures i < |s.peers| ==>
                var e := RaftStep.SendAppendEntries(s, s.peers[i]);
                var rest := RaftStep.SendFrom(RaftStep.AgainHeartBeat(s, s.peers[i]), i + 1);
                if !e.server.alive then RaftStep.SendFrom(s, i) == e
                else RaftStep.SendFrom(s, i).server == rest.server && RaftStep.SendFrom(s, i).sent == e.sent + rest.sent
    {
    }

    lemma SendKeeps(s: Server, dest: Addr)
      requires RaftStep.SendAppendEntries(s, dest).server.alive
      ensures RaftStep.SendAppendEntries(s, dest).server == s
    {
    }

    method LeaderTransfer(dest: Addr)
      requires Valid() && alive
      modifies this`sent
      ensures Valid() && View() == RaftStep.LeaderTransfer(old(View()), dest).server
      ensures sent == old(sent) + RaftStep.LeaderTransfer(old(View()), dest).sent
    {
      hide StoresHold, InMemory, PeerSet, RaftStep.LastIndex, RaftStep.LastTerm;
      if role != Leader {
        return;
      }
      var lastIndex := LastIndex();
      var lastTerm := LastTerm();
      sent := sent + [TimeoutNow(me, dest, meta.term, lastIndex, lastTerm, false)];
    }

    // ---------- votes

    /** `intervalOk` is the outcome of the heartbeat interval check, true also when the check is off. */
    method OnRequestVote(m: Message, intervalOk: bool)
      requires Valid() && alive && m.RequestVote?
      modifies this`leader, this`role, this`sent, meta, timers
      ensures Valid() && View() == RaftStep.OnRequestVote(old(View()), m, intervalOk).server
      ensures sent == old(sent) + RaftStep.OnRequestVote(old(View()), m, intervalOk).sent
    {
      hide StoresHold, InMemory, PeerSet, RaftStep.LastIndex, RaftStep.LastTerm, RaftStep.StepDown;
      var lastIndex := LastIndex();
      var lastTerm := LastTerm();
      var logOk := m.lastLogTerm > lastTerm || (m.lastLogTerm == lastTerm && m.lastLogIndex >= lastIndex);
      if !m.leaderTransfer && !intervalOk {
        sent := sent + [RequestVoteReply(m.dest, m.src, meta.term, false, m.preVote, logOk, false, m.term)];
        return;
      }
      if m.term > meta.term {
        StepDown(m.term);
      }
      Vote(m, logOk);
      var granted := m.term == meta.term && meta.vote == m.src;
      sent := sent + [RequestVoteReply(m.dest, m.src, meta.term, granted, m.preVote, logOk, true, m.term)];
    }

    method OnRequestVoteReply(m: Message)
      requires Valid() && alive && m.RequestVoteReply?
      modifies this, meta, votes, timers, indices, log
      ensures Valid() && View() == RaftStep.OnRequestVoteReply(old(View()), m).server
      ensures sent == old(sent)
    {
      hide StoresHold, InMemory, RaftStep.OnRealVote, RaftStep.OnPreVote;
      if m.term < meta.term {
        return;
      }
      if m.reqTerm != meta.term {
        return;
      }
      if m.term > meta.term {
        StepDown(m.term);
      } else if !m.preVote {
        OnRealVote(m.src, m.granted);
      } else {
        OnPreVote(m.src, m.logOk, m.intervalOk);
      }
    }

    method NoteVote(src: Addr, granted: bool)
      requires Valid()
      modifies votes, timers
      ensures Valid() && View() == RaftStep.NoteVote(old(View()), src, granted)
    {
      hide StoresHold, InMemory, PeerSet;
      votes.Done(src);
      timers.StopRequestVote(src);
      if granted {
        votes.GetVote(src);
      }
    }

    method OnRealVote(src: Addr, granted: bool)
      requires Valid()
      modifies this`leaderTransfer, this`role, this`leader, votes, timers, indices, log
      ensures Valid() && View() == RaftStep.OnRealVote(old(View()), src, granted)
    {
      hide StoresHold, InMemory, RaftStep.BecomeLeader, RaftStep.NoteVote, Quorum.Majority, PeerSet;
      NoteVote(src, granted);
      if granted {
        var majority := votes.Majority(meta.vote == me);
        if majority && role == Candidate {
          BecomeLeader();
        }
      }
    }

    method NotePreVote(src: Addr, logOk: bool, intervalOk: bool)
      requires Valid()
      modifies votes, timers
      ensures Valid() && View() == RaftStep.NotePreVote(old(View()), src, logOk, intervalOk)
    {
      hide StoresHold, InMemory, PeerSet;
      timers.StopRequestVote(src);
      if logOk {
        votes.LogOk(src);
      }
      if intervalOk {
        votes.IntervalOk(src);
      }
    }

    method OnPreVote(src: Addr, logOk: bool, intervalOk: bool)
      requires Valid()
      modifies this`preVoting, this`leaderTransfer, this`role, this`leader, meta, votes, timers, indices, log
      ensures Valid() && View() == RaftStep.OnPreVote(old(View()), src, logOk, intervalOk)
    {
      hide StoresHold, InMemory, RaftStep.DoRequestVote, RaftStep.NotePreVote, Quorum.MajorityPreVoteOk, PeerSet;
      NotePreVote(src, logOk, intervalOk);
      if logOk {
        var majority := votes.MajorityPreVoteOk(true);
        if majority && role == Candidate && preVoting {
          preVoting := false;
          DoRequestVote();
        }
      }
    }

    /** Casting a vote, or not, for a request that may be granted. */
    method Vote(m: Message, logOk: bool)
      requires Valid() && m.RequestVote?
      modifies this`leader, this`role, meta, timers
      ensures Valid()
      ensures var s := old(View());
              View() == if m.term == s.term && logOk && s.vote == NO_ADDR then
                          RaftStep.StepDown(s, s.term).(vote := if m.preVote then s.vote else m.src)
                        else s
    {
      hide StoresHold, InMemory, PeerSet;
      if m.term == meta.term {
        if logOk && meta.vote == NO_ADDR {
          StepDown(meta.term);
          timers.StopAllRequestVote();
          timers.AgainElection();
          if !m.preVote {
            meta.SetVote(m.src);
          }
        }
      }
    }

    // ---------- log replication

    /** Appends the entries of a message from position k on. */
    method AppendRest(es: seq<LogEntry>, k: nat)
      requires Valid() && k <= |es|
      modifies log
      ensures Valid()
      ensures View() == old(View()).(log := old(View()).log + RaftStep.Payload(es)[k..])
    {
      hide StoresHold, InMemory, PeerSet;
      ghost var before := log.state.history;
      var i := k;
      while i < |es|
        invariant k <= i <= |es| && Valid()
        invariant log.state.history == before + RaftStep.Payload(es)[k..i]
      {
        assert RaftStep.Payload(es)[k..i + 1] == RaftStep.Payload(es)[k..i] + [es[i].entry];
        log.AppendOne(es[i].entry);
        i := i + 1;
      }
    }

    /** Whether the log has an entry of the same term at this index. */
    method HasEntry(index: nat, e: LogEntry) returns (has: bool)
      requires Valid() && index > 0
      ensures has <==> index <= |log.state.history| && log.state.history[index - 1].term == e.entry.term
    {
      hide StoresHold, InMemory, PeerSet;
      WholeLog();
      if log.last >= index {
        var m := log.GetMeta(index);
        MetaParts(log.crc, log.state.history, index);
        return m.value.term == e.entry.term;
      }
      return false;
    }

    method CutFrom(index: nat)
      requires Valid() && index > 0
      modifies log
      ensures Valid()
      ensures View() == old(View()).(log := old(View()).log[..Min(index - 1, |old(View()).log|)])
    {
      hide StoresHold, InMemory, PeerSet;
      WholeLog();
      if log.last >= index {
        var _ := log.DeleteFrom(index);
      } else {
        assert log.state.history[..|log.state.history|] == log.state.history;
      }
    }

    /** The loop over the entries of a message: those the log has are left alone, at the first that differs
        the log is cut, and from there all are appended. The source also skips entries before the first
        index of the log, of which there are none as long as the log is never compacted. */
    method MakeLogSame(pre: nat, es: seq<LogEntry>)
      requires Valid() && alive
      modifies this`alive, log
      ensures Valid()
      ensures View() == if RaftStep.EntriesAsserted(old(View()), pre, es)
                        then old(View()).(log := RaftStep.Reconcile(old(View()).log, pre, es))
                        else old(View()).(alive := false)
    {
      hide StoresHold, InMemory, PeerSet, RaftStep.FirstNew, RaftStep.Payload;
      ghost var s := View();
      var index, k := pre, 0;
      while k < |es|
        invariant 0 <= k <= |es| && index == pre + k && Valid() && View() == s
        invariant forall j: nat | 0 <= j < k :: Holds(s.log, pre, es, j) && es[j].index == pre + 1 + j
      {
        WholeLog();
        index := index + 1;
        if es[k].index != index {
          NotAsserted(s, pre, es, k);
          alive := false;
          return;
        }
        var has := HasEntry(index, es[k]);
        if has {
          k := k + 1;
          continue;
        }
        if log.last >= index && !(commit < index) {
          NotAsserted(s, pre, es, k);
          alive := false;
          return;
        }
        CutFrom(index);
        CutHere(s, pre, es, k);
        AppendRest(es, k);
        return;
      }
      AllHeld(s, pre, es);
    }

    lemma NotAsserted(s: Server, pre: nat, es: seq<LogEntry>, k: nat)
      requires k < |es|
      requires forall j: nat | 0 <= j < k :: Holds(s.log, pre, es, j)
      requires es[k].index != pre + 1 + k || (pre + k < |s.log| && !Holds(s.log, pre, es, k) && s.commit >= pre + k + 1)
      ensures !RaftStep.EntriesAsserted(s, pre, es)
    {
      hide RaftStep.FirstNew;
      if es[k].index != pre + 1 + k {
        AtLeast(s.log, pre, es, k);
      } else {
        FirstNewIs(s.log, pre, es, k);
      }
    }

    lemma {:induction false} AtLeast(log: Log, pre: nat, es: seq<LogEntry>, k: nat)
      requires k <= |es| && forall j: nat | 0 <= j < k :: Holds(log, pre, es, j)
      ensures RaftStep.FirstNew(log, pre, es) >= k
    {
      hide RaftStep.FirstNew;
      NotHeldAt(log, pre, es);
    }

    lemma CutHere(s: Server, pre: nat, es: seq<LogEntry>, k: nat)
      requires k < |es| && !Holds(s.log, pre, es, k)
      requires forall j: nat | 0 <= j < k :: Holds(s.log, pre, es, j) && es[j].index == pre + 1 + j
      requires es[k].index == pre + 1 + k
      requires pre + k < |s.log| ==> s.commit < pre + k + 1
      ensures RaftStep.EntriesAsserted(s, pre, es)
      ensures RaftStep.Reconcile(s.log, pre, es) ==
              s.log[..Min(pre + k, |s.log|)] + RaftStep.Payload(es)[k..]
    {
      hide RaftStep.FirstNew, RaftStep.Payload;
      FirstNewIs(s.log, pre, es, k);
    }

    lemma AllHeld(s: Server, pre: nat, es: seq<LogEntry>)
      requires forall j: nat | 0 <= j < |es| :: Holds(s.log, pre, es, j) && es[j].index == pre + 1 + j
      ensures RaftStep.EntriesAsserted(s, pre, es) && RaftStep.Reconcile(s.log, pre, es) == s.log
    {
      hide RaftStep.FirstNew, RaftStep.Payload;
      FirstNewIs(s.log, pre, es, |es|);
    }

    method AdvanceCommit(index: nat)
      requires Valid() && alive
      modifies this`alive, this`commit, this`sm, this`lastApply
      ensures Valid() && View() == RaftStep.AdvanceCommit(old(View()), index)
    {
      hide StoresHold, InMemory, PeerSet, RaftStep.StateMachineApply, RaftStep.LastIndex;
      if commit < index {
        ghost var s := View();
        commit := index;
        SameLast(s, View());
        var last := LastIndex();
        if commit > last {
          alive := false;
          return;
        }
        StateMachineApply();
      }
    }

    /** Whether the log fits in front of the entries of a message. */
    method PreMatches(m: Message) returns (b: bool)
      requires Valid() && m.AppendEntries?
      ensures b == RaftStep.PreMatches(View(), m)
    {
      hide StoresHold, InMemory, PeerSet, RaftStep.LastIndex, RaftStep.GetTerm;
      WholeLog();
      var last := LastIndex();
      if m.preLogIndex > last {
        return false;
      }
      if log.IndexValid(m.preLogIndex) {
        var myPreTerm := GetTerm(m.preLogIndex);
        if myPreTerm != m.preLogTerm {
          return false;
        }
      }
      return true;
    }

    method AcceptEntries(m: Message)
      requires Valid() && alive && m.AppendEntries?
      modifies this`alive, this`commit, this`sm, this`lastApply, this`sent, log
      ensures Valid() && View() == RaftStep.AcceptEntries(old(View()), m).server
      ensures sent == old(sent) + RaftStep.AcceptEntries(old(View()), m).sent
    {
      hide StoresHold, InMemory, PeerSet, RaftStep.LastIndex, RaftStep.AdvanceCommit, RaftStep.Reconcile;
      hide RaftStep.EntriesAsserted;
      MakeLogSame(m.preLogIndex, m.entries);
      if !alive {
        return;
      }
      var last := LastIndex();
      var reply := AppendEntriesReply(m.dest, m.src, meta.term, true, last, m.preLogIndex, |m.entries|, m.term);
      AdvanceCommit(m.commitIndex);
      if !alive {
        return;
      }
      sent := sent + [reply];
    }

    method OnAppendEntries(m: Message)
      requires Valid() && alive && m.AppendEntries?
      modifies this, meta, timers, log
      ensures Valid() && View() == RaftStep.OnAppendEntries(old(View()), m).server
      ensures sent == old(sent) + RaftStep.OnAppendEntries(old(View()), m).sent
    {
      hide StoresHold, InMemory, PeerSet, RaftStep.LastIndex, RaftStep.AcceptEntries, RaftStep.PreMatches;
      if m.term < meta.term {
        Reject(m);
        return;
      }
      StepDown(m.term);
      if leader == NO_ADDR {
        leader := m.src;
      } else if leader != m.src {
        alive := false;
        return;
      }
      var matches := PreMatches(m);
      if !matches {
        Reject(m);
        return;
      }
      AcceptEntries(m);
    }

    method Reject(m: Message)
      requires Valid() && m.AppendEntries?
      modifies this`sent
      ensures Valid() && View() == old(View())
      ensures sent == old(sent) + [RaftStep.AppendReply(View(), m, false)]
    {
      hide StoresHold, InMemory, PeerSet, RaftStep.LastIndex;
      var last := LastIndex();
      sent := sent + [AppendEntriesReply(m.dest, m.src, meta.term, false, last, m.preLogIndex, |m.entries|, m.term)];
    }

    /** What a reply of the leader's own term does to its tables and its commit index. */
    method NoteReply(m: Message)
      requires Valid() && alive && role == Leader && m.AppendEntriesReply?
      modifies this`alive, this`commit, this`sm, this`lastApply, indices
      ensures Valid() && View() == RaftStep.NoteReply(old(View()), m)
    {
      hide StoresHold, InMemory, RaftStep.NoteReply;
      if m.success {
        NoteSuccess(m);
      } else {
        NoteFailure(m);
      }
    }

    method NoteSuccess(m: Message)
      requires Valid() && alive && role == Leader && m.AppendEntriesReply? && m.success
      modifies this`alive, this`commit, this`sm, this`lastApply, indices
      ensures Valid() && View() == RaftStep.NoteReply(old(View()), m)
    {
      hide StoresHold, InMemory, PeerSet, RaftStep.MaybeCommit;
      var match_ := indices.GetMatch(m.src);
      if match_ > m.reqPreIndex + m.reqNumEntries {
      } else {
        indices.SetMatch(m.src, m.reqPreIndex + m.reqNumEntries);
        CommitKeepsTables(View());
        assert View() == RaftStep.SetMatch(old(View()), m.src, m.reqPreIndex + m.reqNumEntries);
        MaybeCommit();
        if !alive {
          return;
        }
      }
      FollowMatch(m.src);
    }

    /** The next index after a success: one past the match index. */
    method FollowMatch(peer: Addr)
      requires Valid()
      modifies indices
      ensures Valid()
      ensures View() == RaftStep.SetNext(old(View()), peer, RaftStep.MatchOf(old(View()), peer) + 1)
    {
      hide StoresHold, InMemory, PeerSet;
      var match_ := indices.GetMatch(peer);
      indices.SetNext(peer, match_ + 1);
    }

    method NoteFailure(m: Message)
      requires Valid() && m.AppendEntriesReply? && !m.success
      modifies indices
      ensures Valid() && View() == RaftStep.NoteReply(old(View()), m)
    {
      hide StoresHold, InMemory, PeerSet;
      var next := indices.GetNext(m.src);
      if next > 1 {
        indices.DecrNext(m.src);
      }
      ghost var s := View();
      assert s == if RaftStep.NextOf(old(View()), m.src) > 1
                  then RaftStep.SetNext(old(View()), m.src, RaftStep.NextOf(old(View()), m.src) - 1)
                  else RaftStep.Touch(old(View()), m.src);
      CapNext(m.src, m.lastLogIndex + 1);
    }

    method CapNext(peer: Addr, cap: nat)
      requires Valid() && peer in indices.indices
      modifies indices
      ensures Valid()
      ensures View() == if RaftStep.NextOf(old(View()), peer) > cap then RaftStep.SetNext(old(View()), peer, cap)
                        else old(View())
    {
      hide StoresHold, InMemory, PeerSet;
      var next := indices.GetNext(peer);
      if next > cap {
        indices.SetNext(peer, cap);
      }
    }

    lemma CommitKeepsTables(s: Server)
      ensures RaftStep.MaybeCommit(s).indices == s.indices && RaftStep.MaybeCommit(s).role == s.role
    {
      Durability.MaybeCommitRest(s);
    }

    method OnAppendEntriesReply(m: Message)
      requires Valid() && alive && m.AppendEntriesReply?
      modifies this, meta, timers, indices
      ensures Valid() && View() == RaftStep.OnAppendEntriesReply(old(View()), m).server
      ensures sent == old(sent) + RaftStep.OnAppendEntriesReply(old(View()), m).sent
    {
      hide StoresHold, InMemory, RaftStep.NoteReply, RaftStep.LastIndex, RaftStep.SendAppendEntries, RaftStep.StepDown;
      if m.term < meta.term {
        return;
      }
      if m.reqTerm != meta.term {
        return;
      }
      if role != Leader {
        alive := false;
        return;
      }
      if m.term > meta.term {
        StepDown(m.term);
        return;
      }
      NotedRow(View(), m);
      NoteReply(m);
      if !alive {
        return;
      }
      SendMore(m.src);
    }

    lemma NotedRow(s: Server, m: Message)
      requires m.AppendEntriesReply?
      ensures var s' := RaftStep.NoteReply(s, m); s'.alive ==> m.src in s'.indices
    {
      hide RaftStep.MaybeCommit;
    }

    /** Sends the next entry at once if there is one. */
    method SendMore(dest: Addr)
      requires Valid() && alive && dest in indices.indices
      modifies this`alive, this`sent, timers, indices
      ensures Valid()
      ensures var s := old(View());
              var e := RaftStep.SendAppendEntries(s, dest);
              if RaftStep.NextOf(s, dest) > RaftStep.LastIndex(s) then View() == s && sent == old(sent)
              else sent == old(sent) + e.sent
                   && View() == if e.server.alive then RaftStep.AgainHeartBeat(s, dest) else e.server
    {
      hide StoresHold, InMemory, RaftStep.LastIndex, RaftStep.SendAppendEntries;
      ghost var s := View();
      var next := indices.GetNext(dest);
      var last := LastIndex();
      if next <= last {
        SendAppendEntries(dest);
        if !alive {
          return;
        }
        SendKeeps(s, dest);
        timers.AgainHeartBeat(dest);
      }
    }

    // ---------- leadership transfer and life cycle

    method OnTimeoutNow(m: Message)
      requires Valid() && alive && m.TimeoutNow?
      modifies this`leaderTransfer, this`transferMaxTerm, this`leader, this`role, meta, timers
      ensures Valid() && View() == RaftStep.OnTimeoutNow(old(View()), m).server && sent == old(sent)
    {
      hide StoresHold, InMemory, PeerSet, RaftStep.LastIndex, RaftStep.LastTerm, RaftStep.StepDown;
      var lastIndex := LastIndex();
      var lastTerm := LastTerm();
      leaderTransfer := true;
      transferMaxTerm := meta.term + MAX_TRANSFER_TERM;
      var enough := m.lastLogTerm <= lastTerm || (m.lastLogTerm == lastTerm && m.lastLogIndex <= lastIndex);
      if m.term > meta.term {
        StepDown(m.term);
      }
      if !m.force && !enough {
      } else if role == Follower {
        timers.StartElection();
      }
    }

    /** Stop followed by Start on the same object. */
    method StopStart()
      requires Valid()
      modifies this`lastApply, this`role, this`leader, meta, timers
      ensures Valid() && View() == RaftStep.StopStart(old(View()))
    {
      hide StoresHold, InMemory, PeerSet, RaftStep.SmLast;
      timers.Stop();
      Start();
    }

    /** A new process over what this one has stored. */
    method Restart()
      requires Valid() && |log.state.history| < MAX_INDEX
      modifies this, meta, log, votes, indices, timers
      ensures Valid() && View() == RaftStep.Reboot(old(View())) && sent == old(sent)
    {
      hide StoresHold, InMemory, PeerSet, RaftStep.SmLast, Fill, RaftStep.Reboot, RaftStep.StepDown;
      ghost var s := View();
      meta.Restart();
      log.Restart();
      alive, role, leader := true, Follower, NO_ADDR;
      commit, lastApply := 0, 0;
      preVoting, leaderTransfer, transferMaxTerm := false, false, 0;
      ResetTables();
      WholeLog();
      ResetIndices(log.last + 1);
      assert View() == Stopped(me, peers, s.term, s.vote, s.log, s.sm, |s.log| + 1);
      StartedAgain(s);
      Start();
    }

    /** The managers of a new process. */
    method ResetTables()
      requires Valid()
      modifies votes, indices, timers
      ensures Valid()
      ensures View() == old(View()).(votes := Fill(PeerSet(peers), NO_VOTE),
                                     indices := Fill(PeerSet(peers), IndexItem(1, 0)),
                                     timers := Timers(false, {}, {}))
    {
      hide StoresHold, InMemory, PeerSet, Fill;
      FilledKeys(peers);
      votes.Reset(peers);
      indices.Reset(peers);
      timers.Stop();
    }

    lemma FilledKeys(ps: seq<Addr>)
      ensures Fill(PeerSet(ps), NO_VOTE).Keys == PeerSet(ps)
      ensures Fill(PeerSet(ps), IndexItem(1, 0)).Keys == PeerSet(ps)
    {
    }

    // ---------- every event

    /** What a cluster may ask of this server: it is running, and, for a new process to read the log back, the
        log is within the order of its keys. */
    ghost predicate Ready(ev: Cluster.Event)
      reads this, meta, log, votes, indices, timers
    {
      && Valid() && !ev.Crash? && (ev.Restart? || alive)
      && (ev.Restart? ==> |log.state.history| < MAX_INDEX)
    }

    /** Whatever happens to the object, it does what the cluster's model of a server does. */
    method Handle(ev: Cluster.Event)
      requires Ready(ev)
      modifies this, meta, log, votes, indices, timers
      ensures Valid() && View() == Cluster.Handle(old(View()), ev).server
      ensures sent == old(sent) + Cluster.Handle(old(View()), ev).sent
    {
      hide StoresHold, InMemory, PeerSet, RaftStep.Elect, RaftStep.RequestVoteRpc, RaftStep.HeartBeat;
      hide RaftStep.Propose, RaftStep.LeaderTransfer, Cluster.OnMessage, RaftStep.Reboot, RaftStep.StopStart;
      match ev {
        case Timeout(_, preVote) => Elect(preVote);
        case VoteTimer(_, peer) => RequestVoteRpc(peer);
        case BeatTimer(_, peer) => HeartBeat(peer);
        case ClientPropose(_, value) => Propose(value);
        case ClientTransfer(_, target) => LeaderTransfer(target);
        case Deliver(m, intervalOk) => OnMessage(m, intervalOk);
        case Restart(_) => Restart();
        case Bounce(_) => StopStart();
      }
    }

    method OnMessage(m: Message, intervalOk: bool)
      requires Valid() && alive
      modifies this, meta, log, votes, indices, timers
      ensures Valid() && View() == Cluster.OnMessage(old(View()), m, intervalOk).server
      ensures sent == old(sent) + Cluster.OnMessage(old(View()), m, intervalOk).sent
    {
      hide StoresHold, InMemory, PeerSet, RaftStep.OnRequestVote, RaftStep.OnAppendEntries;
      hide RaftStep.OnAppendEntriesReply;
      match m {
        case RequestVote(_, _, _, _, _, _, _) => OnRequestVote(m, intervalOk);
        case RequestVoteReply(_, _, _, _, _, _, _, _) => OnRequestVoteReply(m);
        case AppendEntries(_, _, _, _, _, _, _) => OnAppendEntries(m);
        case AppendEntriesReply(_, _, _, _, _, _, _, _) => OnAppendEntriesReply(m);
        case TimeoutNow(_, _, _, _, _, _) => OnTimeoutNow(m);
      }
    }
  }
}
