/** The values a raft server handles: log entries, messages, and the server's own state.

  Log index k of the source is position k - 1 of the sequence `log`; term 0 and address 0 mean "none".
*/
module RaftTypes {

  /** A RaftAddr in its 64-bit form; 0 is no address. */
  type Addr = nat
  const NO_ADDR: Addr := 0

  /** MAX_TRANSFER_TERM. */
  const MAX_TRANSFER_TERM: nat := 3

  newtype Byte = x: int | 0 <= x < 256
  type Bytes = seq<Byte>

  datatype EntryType = Unknown | Data | Noop | Config

  /** The number that stands for an entry type in stored and sent bytes. */
  function KindCode(kind: EntryType): nat {
    match kind case Unknown => 0 case Data => 1 case Noop => 2 case Config => 3
  }

  datatype Option<T> = None | Some(value: T)

  /** AppendEntry: what the log stores at one index. */
  datatype Entry = Entry(term: nat, kind: EntryType, value: Bytes)
  type Log = seq<Entry>

  /** LogEntry as it travels in a message, with its log index. */
  datatype LogEntry = LogEntry(index: nat, entry: Entry)

  /** One call of the state machine's Apply. */
  datatype Applied = Applied(index: nat, entry: Entry)

  datatype Message =
    | RequestVote(src: Addr, dest: Addr, term: nat, lastLogIndex: nat, lastLogTerm: nat,
                  leaderTransfer: bool, preVote: bool)
    | RequestVoteReply(src: Addr, dest: Addr, term: nat, granted: bool, preVote: bool,
                       logOk: bool, intervalOk: bool, reqTerm: nat)
    | AppendEntries(src: Addr, dest: Addr, term: nat, preLogIndex: nat, preLogTerm: nat,
                    commitIndex: nat, entries: seq<LogEntry>)
    | AppendEntriesReply(src: Addr, dest: Addr, term: nat, success: bool, lastLogIndex: nat,
                         reqPreIndex: nat, reqNumEntries: nat, reqTerm: nat)
    | TimeoutNow(src: Addr, dest: Addr, term: nat, lastLogIndex: nat, lastLogTerm: nat, force: bool)

  datatype Role = Follower | Candidate | Leader

  /** One row of the vote manager. */
  datatype VoteItem = VoteItem(grant: bool, done: bool, logok: bool, intervalOk: bool)
  const NO_VOTE := VoteItem(false, false, false, false)

  /** One row of the index manager. */
  datatype IndexItem = IndexItem(next: nat, match_: nat)
  const NO_INDEX := IndexItem(0, 0)

  /** Which timers are armed: the election timer, and per peer the request-vote and heartbeat timers. */
  datatype Timers = Timers(election: bool, requestVotes: set<Addr>, heartbeats: set<Addr>)

  /** The state of one server. `alive` turns false when an assertion of the source fails and the
      process stops. Persistent: term, vote, log and sm. */
  datatype Server = Server(
    alive: bool,
    me: Addr,
    peers: seq<Addr>,
    term: nat,
    vote: Addr,
    log: Log,
    sm: seq<Applied>,
    role: Role,
    leader: Addr,
    commit: nat,
    lastApply: nat,
    votes: map<Addr, VoteItem>,
    indices: map<Addr, IndexItem>,
    preVoting: bool,
    leaderTransfer: bool,
    transferMaxTerm: nat,
    timers: Timers)

  /** What one handler does: the new state of the server and the messages it sends, in order. */
  datatype Effect = Effect(server: Server, sent: seq<Message>)

  /** Peers of a configuration, as a set. */
  function PeerSet(peers: seq<Addr>): set<Addr> {
    set p | p in peers
  }

  /** The table that holds v for each key. */
  ghost function Fill<V>(keys: set<Addr>, v: V): (m: map<Addr, V>)
    ensures m.Keys == keys
    ensures forall k | k in keys :: m[k] == v
  {
    if keys == {} then map[]
    else
      var k :| k in keys;
      Fill(keys - {k}, v)[k := v]
  }

  function Min(a: nat, b: nat): nat {
    if a <= b then a else b
  }

  function Max(a: nat, b: nat): nat {
    if a >= b then a else b
  }
}
