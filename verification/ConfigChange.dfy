/** Membership as one server keeps it: comparing configurations, and changing the current one together with
    the tables that have a row for each peer (src/raft/raft.cc, raft_config.cc, config_manager.h). */
module ConfigChanges {
  import opened RaftTypes
  import opened VoteManagers
  import opened IndexManagers
  import opened TimerManagers

  datatype RaftConfig = RaftConfig(me: Addr, peers: seq<Addr>)

  /** The members of a configuration. */
  function Members(c: RaftConfig): set<Addr> {
    PeerSet(c.peers) + {c.me}
  }

  predicate NoRepeats(s: seq<Addr>) {
    forall i, j | 0 <= i < j < |s| :: s[i] != s[j]
  }

  predicate Proper(c: RaftConfig) {
    c.me !in c.peers && NoRepeats(c.peers)
  }

  /** RaftConfig::ToVector. */
  function ToVector(c: RaftConfig): seq<Addr> {
    [c.me] + c.peers
  }

  /** RaftConfig::ToSet. */
  method ToSet(c: RaftConfig) returns (all: set<Addr>)
    ensures all == Members(c)
  {
    all := {c.me};
    var i := 0;
    while i < |c.peers|
      invariant 0 <= i <= |c.peers|
      invariant all == PeerSet(c.peers[..i]) + {c.me}
    {
      assert c.peers[..i + 1] == c.peers[..i] + [c.peers[i]];
      all := all + {c.peers[i]};
      i := i + 1;
    }
    assert c.peers[..i] == c.peers;
  }

  method InConfig(c: RaftConfig, addr: Addr) returns (b: bool)
    ensures b <==> addr in Members(c)
  {
    if c.me == addr {
      return true;
    }
    var i := 0;
    while i < |c.peers|
      invariant 0 <= i <= |c.peers|
      invariant addr !in c.peers[..i]
    {
      if c.peers[i] == addr {
        return true;
      }
      i := i + 1;
    }
    return false;
  }

  /** RaftConfig::IamIn: every member of c is one of rhs. */
  method IamIn(c: RaftConfig, rhs: RaftConfig) returns (b: bool)
    ensures b <==> Members(c) <= Members(rhs)
  {
    var mine := ToVector(c);
    var yours := ToSet(rhs);
    var i := 0;
    while i < |mine|
      invariant 0 <= i <= |mine|
      invariant forall j | 0 <= j < i :: mine[j] in yours
    {
      if mine[i] !in yours {
        assert mine[i] in Members(c);
        return false;
      }
      i := i + 1;
    }
    forall a | a in Members(c)
      ensures a in yours
    {
      assert a in mine;
    }
    return true;
  }

  /** The elements of v outside s, in order. */
  function Outside(v: seq<Addr>, s: set<Addr>): (r: seq<Addr>)
    ensures forall a :: a in r <==> a in v && a !in s
  {
    if v == [] then []
    else Outside(v[..|v| - 1], s) + (if v[|v| - 1] in s then [] else [v[|v| - 1]])
  }

  method Difference(v: seq<Addr>, s: set<Addr>) returns (diff: seq<Addr>)
    ensures diff == Outside(v, s)
  {
    diff := [];
    var i := 0;
    while i < |v|
      invariant 0 <= i <= |v| && diff == Outside(v[..i], s)
    {
      assert v[..i + 1][..i] == v[..i];
      if v[i] !in s {
        diff := diff + [v[i]];
      }
      i := i + 1;
    }
    assert v[..i] == v;
  }

  /** 0 for equal configurations, in the order of their peers too; -1 if the first one's members are among
      the second's; 1 for the converse; -2 if neither. diff: the members of the larger that the smaller
      lacks, in the order of the larger. */
  method ConfigCompare(c1: RaftConfig, c2: RaftConfig) returns (rv: int, diff: seq<Addr>)
    ensures rv == 0 <==> c1 == c2
    ensures rv == -1 <==> c1 != c2 && Members(c1) <= Members(c2)
    ensures rv == 1 <==> !(Members(c1) <= Members(c2)) && Members(c2) <= Members(c1)
    ensures rv == 0 || rv == -1 || rv == 1 || rv == -2
    ensures diff == if rv == -1 then Outside(ToVector(c2), Members(c1))
                    else if rv == 1 then Outside(ToVector(c1), Members(c2)) else []
  {
    if c1 == c2 {
      return 0, [];
    }
    var in12 := IamIn(c1, c2);
    if in12 {
      var small := ToSet(c1);
      diff := Difference(ToVector(c2), small);
      return -1, diff;
    }
    var in21 := IamIn(c2, c1);
    if in21 {
      var small := ToSet(c2);
      diff := Difference(ToVector(c1), small);
      return 1, diff;
    }
    return -2, [];
  }

  lemma {:induction false} OutsideNoRepeats(v: seq<Addr>, s: set<Addr>)
    requires NoRepeats(v)
    ensures NoRepeats(Outside(v, s))
  {
    if v != [] {
      OutsideNoRepeats(v[..|v| - 1], s);
    }
  }

  // ---------- the configuration a proposal leads to

  /** cur has fewer members than rc, or the other way round. */
  predicate Smaller(c1: RaftConfig, c2: RaftConfig) {
    Members(c1) < Members(c2)
  }

  /** What the server makes of a proposed configuration: its own, with the missing members appended or the
      surplus ones taken out. */
  function Changed(cur: RaftConfig, rc: RaftConfig): RaftConfig {
    if Smaller(cur, rc) then cur.(peers := cur.peers + Outside(ToVector(rc), Members(cur)))
    else cur.(peers := Outside(cur.peers, Members(cur) - Members(rc)))
  }

  lemma AppendNoRepeats(a: seq<Addr>, b: seq<Addr>)
    requires NoRepeats(a) && NoRepeats(b) && forall x | x in b :: x !in a
    ensures NoRepeats(a + b)
  {
    forall i, j | 0 <= i < j < |a + b|
      ensures (a + b)[i] != (a + b)[j]
    {
      if i < |a| && j >= |a| {
        assert b[j - |a|] in b;
      }
    }
  }

  lemma GrownMembers(cur: RaftConfig, rc: RaftConfig)
    requires Proper(cur) && Proper(rc) && Smaller(cur, rc)
    ensures Proper(Changed(cur, rc))
    ensures PeerSet(Changed(cur, rc).peers) == Members(rc) - {cur.me}
  {
    hide Outside;
    var more := Outside(ToVector(rc), Members(cur));
    AppendNoRepeats([rc.me], rc.peers);
    OutsideNoRepeats(ToVector(rc), Members(cur));
    hide NoRepeats;
    AppendNoRepeats(cur.peers, more);
  }

  lemma ShrunkMembers(cur: RaftConfig, rc: RaftConfig)
    requires Proper(cur) && Proper(rc) && Smaller(rc, cur)
    ensures Proper(Changed(cur, rc))
    ensures PeerSet(Changed(cur, rc).peers) == Members(rc) - {cur.me}
  {
    hide Outside, NoRepeats;
    OutsideNoRepeats(cur.peers, Members(cur) - Members(rc));
  }

  /** The proposal's members, and no repetitions; this server keeps its place. */
  lemma ChangedMembers(cur: RaftConfig, rc: RaftConfig)
    requires Proper(cur) && Proper(rc) && (Smaller(cur, rc) || Smaller(rc, cur))
    ensures Proper(Changed(cur, rc)) && Changed(cur, rc).me == cur.me
    ensures PeerSet(Changed(cur, rc).peers) == Members(rc) - {cur.me}
    ensures Members(Changed(cur, rc)) == Members(rc) + {cur.me}
  {
    hide Proper, Outside;
    if Smaller(cur, rc) {
      GrownMembers(cur, rc);
    } else {
      ShrunkMembers(cur, rc);
    }
  }

  /** To roll a change back gives the old members, with this server in its place. */
  lemma BackAgain(cur: RaftConfig, rc: RaftConfig)
    requires Proper(cur) && Proper(rc) && (Smaller(cur, rc) || Smaller(rc, cur)) && cur.me in Members(rc)
    ensures var next := Changed(cur, rc);
            && (Smaller(next, cur) <==> Smaller(rc, cur)) && (Smaller(cur, next) <==> Smaller(cur, rc))
            && Members(Changed(next, cur)) == Members(cur)
  {
    hide Proper, Changed;
    ChangedMembers(cur, rc);
    assert Members(Changed(cur, rc)) == Members(rc);
    ChangedMembers(Changed(cur, rc), cur);
    MeIsMember(cur);
  }

  lemma MeIsMember(c: RaftConfig)
    ensures c.me in Members(c)
  {
  }

  // ---------- the tables

  /** The rows that a server keeps for its peers: of the vote, index and snapshot managers, and whether the
      request-vote and heartbeat timers are armed. */
  datatype Tables = Tables(votes: map<Addr, VoteItem>, indices: map<Addr, IndexItem>, snapshots: set<Addr>,
                           requestVotes: map<Addr, bool>, heartbeats: map<Addr, bool>)

  /** AddPeer: what is armed for a new peer, and its next index, depend on who leads. */
  function AddRow(t: Tables, a: Addr, leading: bool, lastIndex: nat): Tables {
    Tables(t.votes[a := NO_VOTE], t.indices[a := IndexItem(if leading then lastIndex + 1 else 1, 0)],
           t.snapshots + {a}, t.requestVotes[a := false], t.heartbeats[a := leading])
  }

  /** DeletePeer. */
  function DropRow(t: Tables, a: Addr): Tables {
    Tables(t.votes - {a}, t.indices - {a}, t.snapshots - {a}, t.requestVotes - {a}, t.heartbeats - {a})
  }

  function AddRows(t: Tables, nodes: seq<Addr>, leading: bool, lastIndex: nat): Tables {
    if nodes == [] then t
    else AddRow(AddRows(t, nodes[..|nodes| - 1], leading, lastIndex), nodes[|nodes| - 1], leading, lastIndex)
  }

  function DropRows(t: Tables, nodes: seq<Addr>): Tables {
    if nodes == [] then t else DropRow(DropRows(t, nodes[..|nodes| - 1]), nodes[|nodes| - 1])
  }

  /** What a configuration change makes of the tables. */
  function Retabled(t: Tables, cur: RaftConfig, rc: RaftConfig, leading: bool, lastIndex: nat): Tables {
    if Smaller(cur, rc) then AddRows(t, Outside(ToVector(rc), Members(cur)), leading, lastIndex)
    else DropRows(t, Outside(ToVector(cur), Members(rc)))
  }

  /** Every table has a row for each of these and for nobody else. */
  predicate Keyed(t: Tables, keys: set<Addr>) {
    && t.votes.Keys == keys && t.indices.Keys == keys && t.snapshots == keys
    && t.requestVotes.Keys == keys && t.heartbeats.Keys == keys
  }

  /** The tables agree on the rows of a. */
  predicate SameRow(t: Tables, t': Tables, a: Addr) {
    && a in t.votes && a in t'.votes && t'.votes[a] == t.votes[a]
    && a in t.indices && a in t'.indices && t'.indices[a] == t.indices[a]
    && a in t.requestVotes && a in t'.requestVotes && t'.requestVotes[a] == t.requestVotes[a]
    && a in t.heartbeats && a in t'.heartbeats && t'.heartbeats[a] == t.heartbeats[a]
  }

  /** The row of a peer that has just come in: no vote and no match, and only a leader arms its heartbeat at once
      and starts sending behind its own log. */
  predicate NewRow(t: Tables, a: Addr, leading: bool, lastIndex: nat) {
    && a in t.votes && t.votes[a] == VoteItem(false, false, false, false)
    && a in t.indices && t.indices[a].match_ == 0
    && t.indices[a].next == (if leading then lastIndex + 1 else 1)
    && a in t.snapshots && a in t.requestVotes && !t.requestVotes[a]
    && a in t.heartbeats && (t.heartbeats[a] <==> leading)
  }

  lemma {:induction false} AddRowsKeys(t: Tables, nodes: seq<Addr>, leading: bool, lastIndex: nat, keys: set<Addr>)
    requires Keyed(t, keys)
    ensures Keyed(AddRows(t, nodes, leading, lastIndex), keys + PeerSet(nodes))
    ensures forall a | a in keys && a !in nodes :: SameRow(t, AddRows(t, nodes, leading, lastIndex), a)
  {
    if nodes != [] {
      var most, last := nodes[..|nodes| - 1], nodes[|nodes| - 1];
      AddRowsKeys(t, most, leading, lastIndex, keys);
      assert PeerSet(nodes) == PeerSet(most) + {last};
    }
  }

  lemma AddRowIsNew(t: Tables, b: Addr, leading: bool, lastIndex: nat, a: Addr)
    requires a == b || NewRow(t, a, leading, lastIndex)
    ensures NewRow(AddRow(t, b, leading, lastIndex), a, leading, lastIndex)
  {
  }

  lemma {:induction false} AddRowsAreNew(t: Tables, nodes: seq<Addr>, leading: bool, lastIndex: nat, a: Addr)
    requires a in nodes
    ensures NewRow(AddRows(t, nodes, leading, lastIndex), a, leading, lastIndex)
  {
    hide NewRow, AddRow;
    var most, last := nodes[..|nodes| - 1], nodes[|nodes| - 1];
    if a != last {
      assert a in most;
      AddRowsAreNew(t, most, leading, lastIndex, a);
    }
    AddRowIsNew(AddRows(t, most, leading, lastIndex), last, leading, lastIndex, a);
  }

  lemma {:induction false} DropRowsKeys(t: Tables, nodes: seq<Addr>, keys: set<Addr>)
    requires Keyed(t, keys)
    ensures Keyed(DropRows(t, nodes), keys - PeerSet(nodes))
    ensures forall a | a in keys && a !in nodes :: SameRow(t, DropRows(t, nodes), a)
  {
    if nodes != [] {
      var most, last := nodes[..|nodes| - 1], nodes[|nodes| - 1];
      DropRowsKeys(t, most, keys);
      assert PeerSet(nodes) == PeerSet(most) + {last};
    }
  }

  /** The tables follow the configuration: the keys are the new peers, the rows of peers that stay are untouched,
      and the rows of peers that come in are new ones. */
  lemma TablesFollow(t: Tables, cur: RaftConfig, rc: RaftConfig, leading: bool, lastIndex: nat)
    requires Proper(cur) && Proper(rc) && (Smaller(cur, rc) || Smaller(rc, cur))
    requires Keyed(t, PeerSet(cur.peers))
    ensures var t', peers := Retabled(t, cur, rc, leading, lastIndex), PeerSet(Changed(cur, rc).peers);
            && Keyed(t', peers)
            && (forall a | a in cur.peers && a in peers :: SameRow(t, t', a))
            && (forall a | a in peers && a !in cur.peers :: NewRow(t', a, leading, lastIndex))
  {
    hide Keyed, SameRow, NewRow, Changed, NoRepeats, Outside;
    ChangedMembers(cur, rc);
    if Smaller(cur, rc) {
      var nodes := Outside(ToVector(rc), Members(cur));
      AddRowsKeys(t, nodes, leading, lastIndex, PeerSet(cur.peers));
      assert PeerSet(cur.peers) + PeerSet(nodes) == Members(rc) - {cur.me};
      forall a | a in nodes
        ensures NewRow(AddRows(t, nodes, leading, lastIndex), a, leading, lastIndex)
      {
        AddRowsAreNew(t, nodes, leading, lastIndex, a);
      }
    } else {
      var nodes := Outside(ToVector(cur), Members(rc));
      DropRowsKeys(t, nodes, PeerSet(cur.peers));
      assert PeerSet(cur.peers) - PeerSet(nodes) == Members(rc) - {cur.me};
    }
  }

  /** After a change and its rollback the keys are the old peers again, the rows of the peers that were there all
      along are untouched, and those of peers that come back are new ones, by the server's role and log then. */
  lemma RollbackRestores(t: Tables, cur: RaftConfig, rc: RaftConfig, leading: bool, lastIndex: nat,
                         leading': bool, lastIndex': nat)
    requires Proper(cur) && Proper(rc) && (Smaller(cur, rc) || Smaller(rc, cur)) && cur.me in Members(rc)
    requires Keyed(t, PeerSet(cur.peers))
    ensures var next := Changed(cur, rc);
            var t2 := Retabled(Retabled(t, cur, rc, leading, lastIndex), next, cur, leading', lastIndex');
            && Keyed(t2, PeerSet(cur.peers))
            && (forall a | a in cur.peers && a in Members(rc) :: SameRow(t, t2, a))
            && (forall a | a in cur.peers && a !in Members(rc) :: NewRow(t2, a, leading', lastIndex'))
  {
    hide Retabled, Keyed, Changed, Smaller, SameRow, NewRow;
    var next := Changed(cur, rc);
    var t1 := Retabled(t, cur, rc, leading, lastIndex);
    var t2 := Retabled(t1, next, cur, leading', lastIndex');
    BackAgain(cur, rc);
    ChangedMembers(cur, rc);
    ChangedMembers(next, cur);
    TablesFollow(t, cur, rc, leading, lastIndex);
    TablesFollow(t1, next, cur, leading', lastIndex');
    assert PeerSet(cur.peers) == Members(cur) - {cur.me};
    forall a | a in cur.peers && a in Members(rc)
      ensures SameRow(t, t2, a)
    {
      assert a in PeerSet(next.peers) && a in PeerSet(Changed(next, cur).peers);
      SameRowTwice(t, t1, t2, a);
    }
    assert forall a | a in cur.peers && a !in Members(rc) ::
             a in PeerSet(Changed(next, cur).peers) && a !in PeerSet(next.peers);
  }

  // ---------- the server

  class Membership {
    const votes: VoteManager
    const indices: IndexManager
    const timers: TimerManager

    var current: RaftConfig
    var previous: Option<RaftConfig>
    var snapshots: set<Addr>
    var changingIndex: nat
    var standby: bool
    var leading: bool
    var lastIndex: nat

    function Rows(): Tables
      reads this, votes, indices, timers
    {
      Tables(votes.votes, indices.indices, snapshots, timers.requestVotes, timers.heartbeats)
    }

    ghost predicate Valid()
      reads this, votes, indices, timers
    {
      && Proper(current) && Keyed(Rows(), PeerSet(current.peers))
      && (previous.Some? ==> Proper(previous.value))
    }

    constructor (c: RaftConfig)
      requires Proper(c)
      ensures Valid() && current == c && previous == None && changingIndex == 0 && !standby
      ensures fresh(votes) && fresh(indices) && fresh(timers)
    {
      votes := new VoteManager(c.peers);
      indices := new IndexManager(c.peers);
      timers := new TimerManager(c.peers);
      current, previous, snapshots, changingIndex := c, None, PeerSet(c.peers), 0;
      standby, leading, lastIndex := false, false, 0;
    }

    /** The timers must not exist yet. */
    method AddPeer(addr: Addr)
      requires addr !in timers.requestVotes && addr !in timers.heartbeats
      modifies this`snapshots, votes, indices, timers
      ensures Rows() == AddRow(old(Rows()), addr, leading, lastIndex)
    {
      indices.indices := indices.indices[addr := IndexItem(if leading then lastIndex + 1 else 1, 0)];
      votes.votes := votes.votes[addr := NO_VOTE];
      snapshots := snapshots + {addr};
      timers.requestVotes := timers.requestVotes[addr := false];
      timers.heartbeats := timers.heartbeats[addr := leading];
    }

    method DeletePeer(addr: Addr)
      modifies this`snapshots, votes, indices, timers
      ensures Rows() == DropRow(old(Rows()), addr)
    {
      indices.indices := indices.indices - {addr};
      votes.votes := votes.votes - {addr};
      snapshots := snapshots - {addr};
      timers.requestVotes := timers.requestVotes - {addr};
      timers.heartbeats := timers.heartbeats - {addr};
    }

    /** The loop that adds peers. */
    method AddAll(nodes: seq<Addr>) returns (peers: seq<Addr>)
      requires Valid() && NoRepeats(nodes) && forall n | n in nodes :: n !in current.peers
      modifies this`snapshots, votes, indices, timers
      ensures peers == current.peers + nodes
      ensures Rows() == AddRows(old(Rows()), nodes, leading, lastIndex)
    {
      hide AddRow;
      peers := current.peers;
      ghost var t := Rows();
      var i := 0;
      while i < |nodes|
        invariant 0 <= i <= |nodes| && peers == current.peers + nodes[..i]
        invariant Rows() == AddRows(t, nodes[..i], leading, lastIndex)
      {
        AddRowsKeys(t, nodes[..i], leading, lastIndex, PeerSet(current.peers));
        assert nodes[i] !in nodes[..i];
        assert nodes[..i + 1][..i] == nodes[..i];
        AddPeer(nodes[i]);
        peers := peers + [nodes[i]];
        i := i + 1;
      }
      assert nodes[..i] == nodes;
    }

    /** The loop that removes them. */
    method DeleteAll(nodes: seq<Addr>) returns (peers: seq<Addr>)
      modifies this`snapshots, votes, indices, timers
      ensures peers == Outside(current.peers, PeerSet(nodes))
      ensures Rows() == DropRows(old(Rows()), nodes)
    {
      hide DropRow, Outside;
      peers := current.peers;
      ghost var t := Rows();
      var i := 0;
      OutsideNothing(peers);
      while i < |nodes|
        invariant 0 <= i <= |nodes| && peers == Outside(current.peers, PeerSet(nodes[..i]))
        invariant Rows() == DropRows(t, nodes[..i])
      {
        assert nodes[..i + 1][..i] == nodes[..i];
        assert PeerSet(nodes[..i + 1]) == PeerSet(nodes[..i]) + {nodes[i]};
        OutsideTwice(current.peers, PeerSet(nodes[..i]), {nodes[i]});
        DeletePeer(nodes[i]);
        peers := Outside(peers, {nodes[i]});
        i := i + 1;
      }
      assert nodes[..i] == nodes;
    }

    /** The assertion on a proposal: one of the two configurations contains the other, and not both; a standby
        server only ever gains members. */
    predicate Acceptable(rc: RaftConfig)
      reads this
    {
      Smaller(current, rc) || (!standby && Smaller(rc, current))
    }

    /** Changes the tables to fit a proposed configuration, unless the assertion on it fails. */
    method DoConfigChange(rc: RaftConfig) returns (ok: bool, changed: RaftConfig)
      requires Valid() && Proper(rc)
      modifies this`snapshots, votes, indices, timers
      ensures ok <==> Acceptable(rc)
      ensures !ok ==> Rows() == old(Rows())
      ensures ok ==> changed == Changed(current, rc)
      ensures ok ==> Rows() == Retabled(old(Rows()), current, rc, leading, lastIndex)
    {
      hide AddRows, DropRows, Keyed, Outside, NoRepeats;
      var add := IamIn(current, rc);
      var rm := IamIn(rc, current);
      if !standby {
        if !((add && !rm) || (rm && !add)) {
          return false, current;
        }
      } else if !(add && !rm) {
        return false, current;
      }
      var rv, diff := ConfigCompare(current, rc);
      if add {
        assert rv == -1;
        NewNodes(current, rc);
        var peers := AddAll(diff);
        return true, current.(peers := peers);
      } else {
        assert rv == 1;
        assert PeerSet(diff) == Members(current) - Members(rc);
        var peers := DeleteAll(diff);
        return true, current.(peers := peers);
      }
    }

    /** What the log calls when it appends a configuration entry at index i. */
    method ConfigChange(rc: RaftConfig, i: nat) returns (ok: bool)
      requires Valid() && Proper(rc)
      modifies this`current, this`previous, this`changingIndex, this`snapshots, votes, indices, timers
      ensures ok <==> old(Acceptable(rc))
      ensures Valid() && (!ok ==> current == old(current) && Rows() == old(Rows()))
      ensures ok ==> current == Changed(old(current), rc) && previous == Some(old(current)) && changingIndex == i
      ensures ok ==> Rows() == Retabled(old(Rows()), old(current), rc, leading, lastIndex)
      ensures ok ==> forall a | a in PeerSet(current.peers) - PeerSet(old(current).peers) ::
                       NewRow(Rows(), a, leading, lastIndex)
    {
      hide Retabled, Keyed, Changed, Smaller, Proper, NewRow;
      var changed;
      ok, changed := DoConfigChange(rc);
      if !ok {
        return;
      }
      ChangedMembers(current, rc);
      TablesFollow(old(Rows()), current, rc, leading, lastIndex);
      previous := Some(current);
      current := changed;
      changingIndex := i;
    }

    /** What the log calls when it deletes the configuration entry at index i. Without a previous
        configuration the process stops, as it does if the assertion on the previous one fails. */
    method ConfigRollback(i: nat) returns (ok: bool)
      requires Valid()
      modifies this`current, this`previous, this`changingIndex, this`snapshots, votes, indices, timers
      ensures ok <==> old(previous).Some? && old(Acceptable(previous.value))
      ensures !ok ==> Valid() && current == old(current) && Rows() == old(Rows())
      ensures ok ==> current == old(previous).value && previous == None
      ensures ok ==> changingIndex == if old(changingIndex) == i then 0 else old(changingIndex)
      ensures ok ==> Rows() == Retabled(old(Rows()), old(current), current, leading, lastIndex)
      ensures ok && current.me == old(current).me ==> Valid()
    {
      hide Retabled, Keyed, Changed, Smaller;
      if previous.None? {
        return false;
      }
      var before, changed := previous.value, current;
      ok, changed := DoConfigChange(before);
      if !ok {
        return;
      }
      ChangedMembers(current, before);
      TablesFollow(old(Rows()), current, before, leading, lastIndex);
      assert PeerSet(before.peers) == Members(before) - {before.me};
      current := before;
      previous := None;
      if changingIndex == i {
        changingIndex := 0;
      }
    }

    /** A change and its rollback, with whatever role and last index the server has by then: the configuration
        and the keys of every table are what they were, and so are the rows of the peers that were there all
        along. A standby server gains members and cannot roll that back. */
    method ChangeAndRollback(rc: RaftConfig, i: nat, leading': bool, lastIndex': nat) returns (ok: bool)
      requires Valid() && Proper(rc) && current.me in Members(rc) && changingIndex == 0
      modifies this, votes, indices, timers
      ensures ok <==> !standby && (Smaller(old(current), rc) || Smaller(rc, old(current)))
      ensures standby == old(standby) && Valid()
      ensures ok ==> current == old(current) && changingIndex == 0
      ensures ok ==> forall a | a in current.peers && a in Members(rc) :: SameRow(old(Rows()), Rows(), a)
    {
      hide Retabled, Keyed, Changed, Smaller, Proper, SameRow;
      ok := ConfigChange(rc, i);
      if ok {
        ghost var cur := old(current);
        NotBoth(cur, rc);
        BackAgain(cur, rc);
        ChangedMembers(cur, rc);
        RollbackRestores(old(Rows()), cur, rc, leading, lastIndex, leading', lastIndex');
        leading, lastIndex := leading', lastIndex';
        ok := ConfigRollback(i);
      }
    }
  }

  lemma NotBoth(c1: RaftConfig, c2: RaftConfig)
    ensures !(Smaller(c1, c2) && Smaller(c2, c1))
  {
  }

  lemma SameRowTwice(t1: Tables, t2: Tables, t3: Tables, a: Addr)
    requires SameRow(t1, t2, a) && SameRow(t2, t3, a)
    ensures SameRow(t1, t3, a)
  {
  }

  lemma NewNodes(cur: RaftConfig, rc: RaftConfig)
    requires Proper(rc)
    ensures NoRepeats(Outside(ToVector(rc), Members(cur)))
  {
    AppendNoRepeats([rc.me], rc.peers);
    OutsideNoRepeats(ToVector(rc), Members(cur));
  }

  lemma {:induction false} OutsideNothing(v: seq<Addr>)
    ensures Outside(v, PeerSet([])) == v
  {
    hide Outside;
    if v == [] {
      OutsideEmpty(PeerSet([]));
    } else {
      var most, last := v[..|v| - 1], v[|v| - 1];
      assert v == most + [last];
      OutsideNothing(most);
      OutsideStep(most, last, PeerSet([]));
    }
  }

  lemma OutsideEmpty(s: set<Addr>)
    ensures Outside([], s) == []
  {
  }

  lemma OutsideStep(v: seq<Addr>, x: Addr, s: set<Addr>)
    ensures Outside(v + [x], s) == Outside(v, s) + (if x in s then [] else [x])
  {
    assert (v + [x])[..|v|] == v;
  }

  lemma {:induction false} OutsideTwice(v: seq<Addr>, s: set<Addr>, t: set<Addr>)
    ensures Outside(Outside(v, s), t) == Outside(v, s + t)
  {
    hide Outside;
    if v == [] {
      OutsideEmpty(s);
      OutsideEmpty(t);
      OutsideEmpty(s + t);
    } else {
      var most, last := v[..|v| - 1], v[|v| - 1];
      assert v == most + [last];
      OutsideTwice(most, s, t);
      OutsideStep(most, last, s);
      OutsideStep(most, last, s + t);
      if last in s {
        assert Outside(most, s) + [] == Outside(most, s);
      } else {
        OutsideStep(Outside(most, s), last, t);
      }
    }
  }
}
