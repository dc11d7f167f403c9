/** The stored state machine of a server in a running cluster.

  The cluster's theorems take the state machine to report the index and term of what it was given last. Here
  this is shown of the key-value store, for exactly the clients that it is true of.
*/
module StoredState {
  import opened RaftTypes
  import opened Coding
  import opened RaftStep
  import opened Cluster
  import opened Theorems
  import opened VstoreSms
  import Validity
  import Replications
  import ServerSteps

  /** What the store records is what the protocol takes for the state machine's last index and term. */
  predicate Reports(sm: seq<Applied>) {
    RecordedIndex(StoreOf(sm)) == Some(SmLast(sm)) && RecordedTerm(StoreOf(sm)) == Some(SmLastTerm(sm))
  }

  /** The numbers fit the 4 and 8 bytes that are stored. */
  predicate Storable(sm: seq<Applied>) {
    SmLast(sm) < U32 && SmLastTerm(sm) < U64
  }

  /** The store reports the last index and term exactly if the last entry leaves them under the reserved keys. */
  lemma ReportsExactly(sm: seq<Applied>)
    requires Storable(sm)
    ensures Reports(sm) <==>
            sm == [] || (var last := sm[|sm| - 1];
                         && Writes(last, LAST_INDEX_KEY, Fixed(last.index, 4))
                         && Writes(last, LAST_TERM_KEY, Fixed(last.entry.term, 8)))
  {
    hide Writes, Batch;
    if sm != [] {
      LastIndexExactly(sm);
      LastTermExactly(sm);
    }
  }

  lemma ReservedReports(sm: seq<Applied>)
    requires KeepsReserved(sm) && Storable(sm)
    ensures Reports(sm)
  {
    hide StoreOf, Reports, KeyOf;
    ReportsExactly(sm);
  }

  // ---------- in a running cluster

  /** The value names a key that is reserved for the store itself. */
  predicate Reserved(value: Bytes) {
    KvOf(value).key == LAST_INDEX_KEY || KvOf(value).key == LAST_TERM_KEY
  }

  /** Runs in which clients name any key, or only keys that are not reserved. */
  ghost predicate Proposing(run: seq<Event>, reserved: bool) {
    forall v | v in Validity.Proposals(run) :: Reserved(v) ==> reserved
  }

  lemma ProposalsKeepReserved(sm: seq<Applied>, run: seq<Event>)
    requires Proposing(run, false)
    requires forall k | 0 <= k < |sm| :: sm[k].entry.value in Validity.Proposals(run)
    ensures KeepsReserved(sm)
  {
    hide KvOf, Validity.Proposals;
    forall k | 0 <= k < |sm|
      ensures KeyOf(sm[k]) != LAST_INDEX_KEY && KeyOf(sm[k]) != LAST_TERM_KEY
    {
      assert !Reserved(sm[k].entry.value);
    }
  }

  /** As long as no client names a reserved key, every server's store reports what the protocol takes for the
      state machine's last index and term: in clusters of any size, with crashes inside the apply loop. */
  lemma PlainClientsReport(peersOf: map<Addr, seq<Addr>>, run: seq<Event>, a: Addr)
    requires Proposing(run, false) && a in After(peersOf, run).servers
    requires Storable(After(peersOf, run).servers[a].sm)
    ensures Reports(After(peersOf, run).servers[a].sm)
  {
    hide After, Proposing, Validity.Proposals, KeepsReserved, Reports, Storable;
    Validity.OnlyProposals(peersOf, run, a);
    ProposalsKeepReserved(After(peersOf, run).servers[a].sm, run);
    ReservedReports(After(peersOf, run).servers[a].sm);
  }

  /** In every reachable state, whatever crashes there were, even inside the apply loop: as long as the store
      reports its last index, it holds exactly the data entries of the log up to there, and this is where a new
      process goes on applying. */
  lemma StoreFollowsLog(peersOf: map<Addr, seq<Addr>>, g: System, a: Addr)
    requires SoundCluster(peersOf) && Reachable(peersOf, g) && a in g.servers && Reports(g.servers[a].sm)
    ensures var s := g.servers[a];
            && RecordedIndex(StoreOf(s.sm)).Some?
            && var r := RecordedIndex(StoreOf(s.sm)).value;
            && r <= s.lastApply <= |s.log|
            && StoreOf(s.sm) == StoreOf(DataBetween(s.log, 0, r))
            && Reboot(s).lastApply == r
  {
    hide StoreOf, Reachable, SoundCluster, RecordedIndex, RecordedTerm;
    ReachableOk(peersOf, g);
    Certificates(g, a);
    ServerSteps.DataBetweenLast(g.servers[a].log, g.servers[a].lastApply);
  }

  // ---------- what one proposal can do

  lemma ValueMisreports(value: Bytes, sm: seq<Applied>)
    requires |value| < I32 - 1 && |value| != 4
    requires sm == [Applied(2, Entry(2, Data, KvBytes(KV(LAST_INDEX_KEY, value))))]
    ensures Storable(sm) && RecordedIndex(StoreOf(sm)) == None && Reserved(sm[0].entry.value)
  {
    hide StoreOf, KvOf, KvBytes, RecordedIndex;
    ClientSetsIndex([], 2, 2, value);
    assert [] + sm == sm;
    ReservedKeysDiffer();
    KvRoundTrip(KV(LAST_INDEX_KEY, value));
  }

  /** In every cluster that the theorems are about, one proposal makes the store of any member, as leader, report
      any index, or stop at the next look at it: the stored value under the reserved key decides. */
  lemma OneProposalMisreports(peersOf: map<Addr, seq<Addr>>, a: Addr, value: Bytes) returns (run: seq<Event>)
    requires SoundCluster(peersOf) && a in peersOf && |value| < I32 - 1
    ensures var g := After(peersOf, run);
            && a in g.servers && g.servers[a].role == Leader && SmLast(g.servers[a].sm) == 2
            && g.servers[a].sm == [Applied(2, Entry(2, Data, KvBytes(KV(LAST_INDEX_KEY, value))))]
            && RecordedIndex(StoreOf(g.servers[a].sm)) == if |value| == 4 then Some(Unfixed(value)) else None
  {
    hide StoreOf, KvOf, KvBytes, RecordedIndex, SoundCluster, After;
    run := Replications.AnyValueIsApplied(peersOf, a, KvBytes(KV(LAST_INDEX_KEY, value)));
    ClientSetsIndex([], 2, 2, value);
    assert [] + [Applied(2, Entry(2, Data, KvBytes(KV(LAST_INDEX_KEY, value))))] == After(peersOf, run).servers[a].sm;
  }

  /** On all runs of the kind, every store reports what the protocol takes for its last index and term. */
  ghost predicate AlwaysReports(peersOf: map<Addr, seq<Addr>>, reserved: bool) {
    forall run: seq<Event>, a: Addr | Proposing(run, reserved) && a in After(peersOf, run).servers ::
      Storable(After(peersOf, run).servers[a].sm) ==> Reports(After(peersOf, run).servers[a].sm)
  }

  /** What the cluster's theorems take for granted of the state machine is true of the key-value store, on all
      runs of a kind, exactly if clients do not name the reserved keys. */
  lemma AlwaysReportsExactly(peersOf: map<Addr, seq<Addr>>, reserved: bool)
    requires SoundCluster(peersOf)
    ensures AlwaysReports(peersOf, reserved) <==> !reserved
  {
    hide SoundCluster, After, Proposing, Storable, Reports;
    if reserved {
      Misreports(peersOf);
    } else {
      forall run: seq<Event>, a: Addr | Proposing(run, reserved) && a in After(peersOf, run).servers
        ensures Storable(After(peersOf, run).servers[a].sm) ==> Reports(After(peersOf, run).servers[a].sm)
      {
        if Storable(After(peersOf, run).servers[a].sm) {
          PlainClientsReport(peersOf, run, a);
        }
      }
    }
  }

  lemma Misreports(peersOf: map<Addr, seq<Addr>>)
    requires SoundCluster(peersOf)
    ensures !AlwaysReports(peersOf, true)
  {
    hide SoundCluster, After, StoreOf, KvBytes, RecordedIndex;
    var a := SomeMember(peersOf);
    var run := OneProposalMisreports(peersOf, a, [7]);
    ValueMisreports([7], After(peersOf, run).servers[a].sm);
    assert Proposing(run, true);
  }
}
