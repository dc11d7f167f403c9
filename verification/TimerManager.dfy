/** The timer manager (src/raft/timer_manager.cc): which timers are armed. When they fire is not modelled. */
module TimerManagers {
  import opened RaftTypes

  function Armed(timers: map<Addr, bool>): set<Addr> {
    set p | p in timers && timers[p]
  }

  class TimerManager {
    var election: bool
    var requestVotes: map<Addr, bool>
    var heartbeats: map<Addr, bool>

    function View(): Timers
      reads this
    {
      Timers(election, Armed(requestVotes), Armed(heartbeats))
    }

    ghost predicate For(peers: seq<Addr>)
      reads this
    {
      requestVotes.Keys == PeerSet(peers) && heartbeats.Keys == PeerSet(peers)
    }

    constructor (peers: seq<Addr>)
      ensures For(peers) && View() == Timers(false, {}, {})
    {
      election := false;
      requestVotes, heartbeats := map[], map[];
      new;
      var i := 0;
      while i < |peers|
        invariant 0 <= i <= |peers| && !election
        invariant requestVotes.Keys == heartbeats.Keys == PeerSet(peers[..i])
        invariant forall p | p in requestVotes :: !requestVotes[p] && !heartbeats[p]
      {
        assert peers[..i + 1] == peers[..i] + [peers[i]];
        requestVotes, heartbeats := requestVotes[peers[i] := false], heartbeats[peers[i] := false];
        i := i + 1;
      }
      assert peers[..i] == peers;
    }

    method StartElection()
      modifies this`election
      ensures View() == old(View()).(election := true)
    {
      election := true;
    }

    method AgainElection()
      modifies this`election
      ensures View() == old(View()).(election := true)
    {
      election := true;
    }

    method StopElection()
      modifies this`election
      ensures View() == old(View()).(election := false)
    {
      election := false;
    }

    method StartRequestVote()
      modifies this`requestVotes
      ensures requestVotes.Keys == old(requestVotes).Keys
      ensures View() == old(View()).(requestVotes := requestVotes.Keys)
    {
      var todo := requestVotes.Keys;
      while todo != {}
        invariant todo <= requestVotes.Keys == old(requestVotes).Keys
        invariant forall p | p in requestVotes && p !in todo :: requestVotes[p]
        decreases |todo|
      {
        var p :| p in todo;
        requestVotes := requestVotes[p := true];
        todo := todo - {p};
      }
    }

    method StopAllRequestVote()
      modifies this`requestVotes
      ensures requestVotes.Keys == old(requestVotes).Keys
      ensures View() == old(View()).(requestVotes := {})
    {
      var todo := requestVotes.Keys;
      while todo != {}
        invariant todo <= requestVotes.Keys == old(requestVotes).Keys
        invariant Armed(requestVotes) <= todo
        decreases |todo|
      {
        var p :| p in todo;
        requestVotes := requestVotes[p := false];
        todo := todo - {p};
      }
    }

    method StopRequestVote(addr: Addr)
      modifies this`requestVotes
      ensures requestVotes.Keys == old(requestVotes).Keys
      ensures View() == old(View()).(requestVotes := old(View()).requestVotes - {addr})
    {
      if addr in requestVotes {
        requestVotes := requestVotes[addr := false];
      }
    }

    method StartHeartBeat()
      modifies this`heartbeats
      ensures heartbeats.Keys == old(heartbeats).Keys
      ensures View() == old(View()).(heartbeats := heartbeats.Keys)
    {
      var todo := heartbeats.Keys;
      while todo != {}
        invariant todo <= heartbeats.Keys == old(heartbeats).Keys
        invariant forall p | p in heartbeats && p !in todo :: heartbeats[p]
        decreases |todo|
      {
        var p :| p in todo;
        heartbeats := heartbeats[p := true];
        todo := todo - {p};
      }
    }

    method StopHeartBeat()
      modifies this`heartbeats
      ensures heartbeats.Keys == old(heartbeats).Keys
      ensures View() == old(View()).(heartbeats := {})
    {
      var todo := heartbeats.Keys;
      while todo != {}
        invariant todo <= heartbeats.Keys == old(heartbeats).Keys
        invariant Armed(heartbeats) <= todo
        decreases |todo|
      {
        var p :| p in todo;
        heartbeats := heartbeats[p := false];
        todo := todo - {p};
      }
    }

    method AgainHeartBeat(addr: Addr)
      modifies this`heartbeats
      ensures heartbeats.Keys == old(heartbeats).Keys
      ensures View() == old(View()).(heartbeats :=
                old(View()).heartbeats + if addr in old(heartbeats) then {addr} else {})
    {
      if addr in heartbeats {
        heartbeats := heartbeats[addr := true];
      }
    }

    method Stop()
      modifies this
      ensures requestVotes.Keys == old(requestVotes).Keys && heartbeats.Keys == old(heartbeats).Keys
      ensures View() == Timers(false, {}, {})
    {
      StopElection();
      StopAllRequestVote();
      StopHeartBeat();
    }
  }
}
