# vraft: a verified model

vraft is a Raft implementation in C++ over leveldb. This project models its protocol core, its persistent log, its
wire codec, its key-value state machine and its local membership bookkeeping in Dafny, and proves the properties that
the source's comments, its quoted TLA+ specification and the Raft paper promise. Where the code does not keep a
promise, the project proves exactly when it does.

## How it is put together

**One server, twice.** Module `RaftStep` says what each handler does as a function of a server's state
(`OnRequestVote`, `OnAppendEntries`, `Elect`, `Propose`, ...). `Rafts.Raft` is the object the source has: fields,
managers (`VoteManagers`, `IndexManagers`, `TimerManagers`, `SolidDatas`), a persistent log (`RaftLogStore`), loops
and early returns. Every method is proved to do to the object what the function does to its value; `Rafts.Raft.Handle`
states this for every event. A failed `assert` of the source stops the process: `alive` turns false. What the handlers
achieve is told from outside, in numbers and without these functions, by `EntryAnswers` and `VoteAnswers`: for every
event in every reachable state, what is sent, what changes and that nothing else does.

**A cluster.** Module `Cluster` is a state machine over events: timers firing, client requests, message delivery,
restarts (same storage, everything else lost), stop and start on the same object, and crashes in the middle of a
handler's apply loop. The network is the set of all messages ever sent, so a message can be lost, delayed, duplicated
and reordered. Timers and the outcome of the heartbeat interval check are nondeterministic. A history variable, which
no handler reads, records votes, elections and acknowledgements. `Invariant` states what holds in every reachable
state, `Safety` proves it step by step, and `Theorems`, `Durability`, `Assertions`, `EntrySteps`, `MatchGrowth`,
`PreVoteGuard` and `Validity` draw the conclusions, for every configuration, every run and every message.

**The state machine.** All of these theorems take it that a server's state machine reports the index and the term of
the last entry it was given, 0 before the first: the source's log tests and the point at which a new process goes on
applying depend on what it reports (src/raft/raft.cc:110 and 282-308, src/raft/raft_core.cc:174-193). For the
key-value store of the repository this is not always so, because a client's pair may name one of the two keys under
which the store keeps these numbers. `StoredState` discharges the assumption for exactly the other clients: it holds
on all runs if and only if no client names a reserved key, and if one does, a single proposal, in any cluster of sound
size, makes the store report any index, or stop the process.

**Where a promise fails.** `Campaigns` builds runs that elect a server, vote by vote, for clusters of any size from
two on, and `Replications` goes on to runs that commit and apply entries. `Interrupted` leads from there to a failed
assertion and to a match index that goes back, and `RunClasses` says for exactly which kinds of runs (with restarts or
without, with pre-votes or without) the two promises hold. `TornWrites` adds crashes between any two writes of a
handler: after a new term and before its vote, after both, and after any part of what an append-entries message does
to the log (`CutLog`). It proves the whole invariant and leader completeness again for those that do not leave a vote
for another server in a new term; `TornRun` builds the run in which the others lose a committed entry, and
`TornElections` proves that not even they lead to two leaders of a term.

**Getting on.** From any reachable state, `Repairs` builds runs of heartbeats and answers in which a leader brings a
peer's log to its own, whatever the two logs and its tables are, and commits its whole log with a majority of them.
`Overwrites` shows that a log is overwritten on the way where it has to be.

**The vote threshold.** The source compares the number of votes with half the members rounded up. For an odd number of
members that is a strict majority; for an even number it is not, except for two members, where the test is made only
after a vote of the peer. The global theorems are therefore about clusters whose size is odd or two
(`Quorum.SoundSize`), and `EvenCluster` proves that election safety holds for exactly these sizes. `MajorityMax`,
which decides on commits, is a strict majority for every size.

**The persistent log.** `LogState` says which keys the two stores hold for a history of entries of which a prefix may
have been compacted away; `RaftLogStore.RaftLog` is the object, with the loops over batches and iterators, and is
proved against it, restarts included. `KeyOrder` proves for which keys the wrapping comparator is an order. CRC-32 is
an arbitrary function.

**The codec.** `Coding` and `Codec` model varints, length-prefixed strings, log entries and append-entries messages,
including the byte count that `DecodeString2` gets wrong, and say for which messages decoding gives back what was
encoded.

## Where code and comments differ

The model follows the code.

- The quoted specification grants a vote only if the candidate's log is up to date. The code casts a vote under that
  test, but its reply says "granted" whenever the term matches and the recorded vote is the sender's, without looking
  at the log again (src/raft/raft_request_vote.cc:110-111).
- The log test of a leadership transfer reads `last_log_term <= last_term` where the second disjunct suggests `<`
  (src/raft/raft_timeout_now.cc:22-26), so it accepts any index at an equal term.
- A leader sends `TimeoutNow` but the receiver only arms its election timer; with pre-vote on it then asks for
  pre-votes, and keeps the transfer flag for three terms.
- The specification handles a request with one entry and can lower the commit index; the code handles any number of
  entries and never lowers it.
- The Raft paper (Figure 2) has match indexes increase monotonically. A leader that is stopped and started keeps its
  term; pre-voting makes it a candidate of that term, and a late reply to its old request for votes makes it leader of
  the same term again, with match indexes reset to 0 (`Interrupted.MatchCanGoBack`). It takes both, the restart and
  the pre-vote (`RunClasses.MatchMonotonicExactly`). No safety property suffers.
- A server asserts that it is leader when it gets a reply to an append-entries request of its own term
  (src/raft/raft_append_entries.cc:290). A leader that is stopped and started is a follower in the term of its own
  requests, so a reply still under way stops the process (`Interrupted.LeaderCanStop`). No other assertion of the
  handlers can fail in a cluster as `Cluster` models it, and this one only after a restart
  (`RunClasses.AssertionsHoldExactly`).
- The paper has term and vote on disk before a message is answered. Here they are two separate writes
  (src/raft/raft_core.cc:58 and 72, 210 and 211). A process that dies between them keeps an old vote in a new term,
  which then is granted without a log test, and in every cluster of odd size from three on a committed entry can be
  lost (`TornRun.TornCompletenessExactly`).
- The key-value store keeps the last applied index and term under two keys of the same store that clients write to
  (src/vstore/vstore_sm.cc:32-45), and asserts their size when it reads them (src/vstore/vstore_sm.cc:71 and 85). A
  client can overwrite them (`StoredState.OneProposalMisreports`).
- The comment on `ConfigCompare` promises -1 for a smaller configuration; it also returns -1 for the same members in
  another order or around another `me` (src/raft/raft_config.cc:102-136).

## Model

| member | source | states |
|---|---|---|
| `Theorems.ElectionSafety` | src/raft/raft_request_vote.cc:86-113 | Over every run and at any two moments of it, two leaders of one term are the same server. |
| `EvenCluster.TwoLeaders` | src/raft/vote_manager.cc:17-28 | For every even size from four on, a run exists that reaches two leaders of one term at once. |
| `EvenCluster.ElectionSafetyExactly` | src/raft/vote_manager.cc:17-28 | No reachable state has two leaders of one term if and only if the size is odd or two. |
| `Theorems.LeaderCacheIsRight` | src/raft/raft_append_entries.cc:132-137 | Whoever a server takes for the leader is a member and the only server anybody, ever, takes for or sees as leader of that term. |
| `Theorems.LogMatching` | src/raft/raft_append_entries.cc:139-214 | Logs of any two servers at any two moments that hold the same term at an index agree on everything up to it. |
| `Theorems.LeaderAppendOnly` | src/raft/raft_client_request.cc:78-98 | While its term lasts a leader's log only grows at the end, through restarts too. |
| `Theorems.LeaderCompleteness` | src/raft/raft_core.cc:338-369 | What a server has committed is in the log of every leader, at any later moment, of that or a later term. |
| `Theorems.StateMachineSafety` | src/raft/raft_core.cc:371-421 | Any two servers' applied sequences, at any two moments, are one a prefix of the other, and their logs agree as far as both have applied. |
| `Theorems.CommittedIsReplicated` | src/raft/raft_core.cc:338-369 | Each committed prefix of each server is held, at that moment, by a strict majority of the members. |
| `Theorems.LeaderTablesAreTrue` | src/raft/raft_append_entries.cc:299-326 | A leader's next index lies between 1 and one past its log, and its match index is what the peer has of this very log, unless a later leader overwrote it. |
| `Repairs.PeerIsRepaired` | src/raft/raft_append_entries.cc:264-342 | From any reachable state with a running leader and a running peer of no later term, some run of heartbeats and answers between the two makes the peer's log the leader's, and the leader's row for it says so; no other server changes. |
| `Repairs.LeaderCommitsAll` | src/raft/raft_core.cc:338-369 | From any reachable state with a running leader and running peers of no later term that are a majority with it, some run of heartbeats and answers commits the leader's whole log, at the leader and at all of these peers. |
| `Overwrites.SuffixIsReplaced` | src/raft/raft_append_entries.cc:180-214 | In every cluster of three or more, and for each of its members, some run makes the member lead with an entry in its log, and later replaces this entry by that of the next leader. |
| `MatchGrowth.MatchNeverDecreases` | src/raft/raft_append_entries.cc:299-314 | While a server stays leader its term stands still and no match index goes back, whatever stale or reordered replies arrive. |
| `Interrupted.MatchCanGoBack` | src/raft/raft_request_vote.cc:175-188 | In every cluster of two or more some run makes a leader get an acknowledgement, be stopped and started, and win its own term again by late vote replies with a match index back at 0. |
| `RunClasses.MatchKeptWithoutPreVote` | src/raft/raft_request_vote.cc:175-188 | Between two moments at which a server leads one term no match index goes back if it does not pre-vote in between, restarts included, in clusters of every size. |
| `RunClasses.MatchKeptWithoutRestart` | src/raft/raft_core.cc:260-294 | The same if it is not restarted in between, pre-votes included. |
| `RunClasses.MatchMonotonicExactly` | src/raft/raft_append_entries.cc:299-314 | Match indexes never go back within a term, on all runs of a kind, if and only if the kind does not have both restarts and pre-votes, or the cluster has one member. |
| `Campaigns.AnyoneCanLead` | src/raft/raft_core.cc:55-85 | In every cluster of two or more, of odd size too, every member can be elected. |
| `Completeness.LaterLeadersHave` | src/raft/raft_request_vote.cc:58-104 | From the history alone: the leader of every later term has every entry that a majority acknowledged in an earlier leader's term. |
| `Durability.CommittedNeverTruncated` | src/raft/raft_append_entries.cc:180-199 | No later step of any run removes or overwrites an entry that a server had committed, and its term and state machine only grow. |
| `Durability.ExactlyOnceInOrder` | src/raft/raft_core.cc:379-420 | With crashes in the middle of applying, a state machine has been given each data entry of its applied prefix once, in order, and nothing else. |
| `Durability.DataBetweenExact` | src/raft/raft_core.cc:381-417 | The entries fed to the state machine for a range are its data entries, each once, with increasing indexes. |
| `Validity.OnlyProposals` | src/raft/raft_client_request.cc:111-135 | Over every run, in clusters of any size, each data entry of each log and all that a state machine was given carries a value that a client proposed in that run. |
| `Replications.AnyValueIsApplied` | src/raft/raft_core.cc:338-421 | In every cluster of sound size, for each member and each value, some run makes that member lead, commit the value and give it to its state machine. |
| `Assertions.AssertionFailsExactly` | src/raft/raft_append_entries.cc:290 | In every reachable state an event stops a running server if and only if it is the delivery, to that server while it is not leader, of a reply to an append-entries request of its present term. |
| `Interrupted.LeaderCanStop` | src/raft/raft_append_entries.cc:290 | In every cluster of two or more, and for each of its members, some run ends with that member stopped by this assertion. |
| `Assertions.NoAssertionFails` | src/raft/raft_append_entries.cc:290 | Without restarts no assertion ever fails, and a server is leader if and only if it is the one leader its term has had. |
| `RunClasses.AssertionsHoldExactly` | src/raft/raft_append_entries.cc:290 | No assertion ever fails, on all runs of a kind, if and only if the kind has no restarts or the cluster has one member. |
| `Assertions.LeaderStays` | src/raft/raft_core.cc:205-219 | No event but a stop, restart or crash makes a leader give up its role without moving to a later term. |
| `Assertions.TimersFitRole` | src/raft/timer_manager.cc:134-230 | The election timer is armed exactly when not leader, heartbeats only on a leader, request-vote timers only on a candidate, so the three callbacks' role assertions hold. |
| `Safety.NextOk` | src/raft/raft.h:57-80 | Every event, crashes included, keeps the whole invariant and only extends the history of votes, elections and acknowledgements. |
| `Safety.RunOk` | src/raft/raft.h:57-80 | The same over whole runs. |
| `TornWrites.TornNextOk` | src/raft/raft_core.cc:55-72 | A crash between any two writes of a handler keeps the whole invariant, if it does not leave a vote for another server in a new term, or the cluster has at most two members. |
| `TornWrites.HarmlessIsComplete` | src/raft/raft_core.cc:205-211 | With such crashes anywhere in a run, a leader still has what anybody committed before in that or an earlier term. |
| `TornRun.CommittedIsLost` | src/raft/raft_core.cc:205-211 | In every cluster of three or more of odd size, a run with crashes between term and vote at servers that had voted for another makes one leader commit an entry and another be elected in a later term without it. |
| `TornRun.TornCompletenessExactly` | src/raft/raft_core.cc:205-211 | With crashes between any two writes of a handler, leader completeness holds on all runs of a kind if and only if none leaves a vote for another server in a new term, or the cluster has at most two members. |
| `CutLog.WritingCutOk` | src/raft/raft_append_entries.cc:167-214 | A server whose log holds any part of what an append-entries message does to it, the truncation alone included, satisfies the invariant against the unchanged history. |
| `TornElections.TornElectionSafety` | src/raft/raft_request_vote.cc:86-113 | With crashes between any two writes, those that lose committed entries included, two leaders of one term at any two moments of a run are the same server. |
| `TornElections.TornElectionSafetyExactly` | src/raft/vote_manager.cc:17-28 | This holds on all such runs if and only if the size is odd or two. |
| `EntrySteps.LoopRefinesSpec` | src/raft/raft_append_entries.cc:167-214 | For every request the log test accepts, single-entry steps of the quoted specification (already done, remove one, append) lead to the log that the loop over all entries leaves. |
| `EntrySteps.SpecHasOneResult` | src/raft/raft_append_entries.cc:46-79 | Every complete run of those single-entry steps ends in that log. |
| `EntrySteps.SuffixKept` | src/raft/raft_append_entries.cc:180-214 | A log that goes on past a request's entries is left as it is if and only if it holds them all; otherwise it ends behind them. |
| `EntrySteps.ReprocessingChangesNothing` | src/raft/raft_append_entries.cc:82-247 | In every reachable state a second receipt of an append-entries message changes nothing and sends the same reply. |
| `EntryAnswers.EntriesAnswered` | src/raft/raft_append_entries.cc:82-247 | In every reachable state a request gets a success reply if and only if its term is not past and the log has its previous entry with its term. Then the log holds each of its entries in its place, is as it was if it held them all, and ends with them otherwise; commit index and state machine follow. A refusal leaves log and commit index alone. The reply tells the length of the log. |
| `EntryAnswers.ReplyAnswered` | src/raft/raft_append_entries.cc:264-342 | In every reachable state a failure reply of the leader's term sets the next index to the smaller of one less, but at least 1, and one past the peer's log; a success raises the match index to what the request reached, puts the next index behind it and commits what a strict majority then has of the term. The next request goes out at once if there is an entry for it. Other replies do nothing, or end the lead. |
| `EntryAnswers.BeatAnswered` | src/raft/raft_append_entries.cc:344-416 | In every reachable state a heartbeat sends its peer the entry at its next index, if there is one, with the index and term before it and the commit index as far as the request reaches. |
| `EntryAnswers.ProposalAnswered` | src/raft/raft_client_request.cc:78-98 | In every reachable state a proposal to a leader adds the entry, commits what that commits, arms all heartbeats and sends each peer what its row says, the new entry to a peer that was caught up; to another server it does nothing. |
| `EntryAnswers.ProposeAnswer` | src/raft/raft_client_request.cc:86-95 | A leader's proposal sends one request to each peer, in the order of the configuration. |
| `PreVoteGuard.TermGrowsOnlyByPreVote` | src/raft/raft_request_vote.cc:191-216 | With pre-vote on, in clusters of any size from two, the largest term is exceeded only by a pre-voting candidate, on a reply that makes at least half of the members, itself included, flagged as approving its log and its timing. Each flag was set by a reply of its present term delivered since it last became candidate, and each of these members had got a pre-vote request of this candidate and term with a log that was not behind, and one whose interval check succeeded or was waived. |
| `PreVoteGuard.PreVotesCastNoVote` | src/raft/raft_request_vote.cc:95-98 | In every reachable state, delivering a pre-vote message adds no grant and casts no vote, except that a reply can make the receiver vote for itself in a new term. |
| `VoteReplies.ReplyOrigin` | src/raft/raft_request_vote.cc:41-122 | Over every run, in clusters of any size, each vote reply in the network was sent on the delivery of the request it answers; its interval flag holds if and only if the interval check succeeded then or the transfer bit waived it, its log flag if and only if the request's log end was not behind. |
| `VoteAnswers.VoteRequestAnswered` | src/raft/raft_request_vote.cc:41-122 | In every reachable state a request for a vote is answered with the comparison of the logs and the interval check written out. Refused by the interval check, the server stays as it is and grants nothing; otherwise it moves to a later term, and votes if and only if it has no vote, the log is not behind and it is no pre-vote. |
| `VoteAnswers.VoteReplyAnswered` | src/raft/raft_request_vote.cc:143-224 | In every reachable state a reply of the present term is noted in its sender's row; a candidate leads if and only if a new grant makes half of the members, itself included, and a pre-voting one stands if and only if a reply with the log flag makes half of them flagged for log and timing. |
| `VoteAnswers.VoteTimerAnswered` | src/raft/raft_request_vote.cc:226-265 | In every reachable state an armed timer sends a request with the term, the end of the log, the pre-vote bit, and the transfer bit if and only if the transfer still lasts, else its flags are cleared. |
| `VoteAnswers.TimeoutAnswered` | src/raft/raft_core.cc:26-100 | In every reachable state an armed election timer makes a server with peers a pre-voting candidate of its term, or a candidate of the next one with its own vote, asking all peers; a server on its own leads at once, its log ending in a no-op. |
| `VoteAnswers.TransferAnswered` | src/raft/raft_timeout_now.cc:48-60 | In every reachable state a leader asked to hand over sends the target its term and the end of its log, and nobody else sends anything. |
| `VoteAnswers.TimeoutNowAnswered` | src/raft/raft_timeout_now.cc:13-46 | In every reachable state the receiver may ask for votes as in a transfer for three terms and moves to a later term; nothing else changes, whatever the test on the log says. |
| `VoteAnswers.RestartAnswered` | src/raft/raft.cc:156-194 | In every reachable state a new process has term, vote, log and state machine as stored, and is a follower with empty tables, commit index 0, and next indexes behind its log. |
| `VoteAnswers.BounceAnswered` | src/raft/raft.cc:91-154 | In every reachable state a server stopped and started is a follower with its tables and commit index, and applies on from the last entry its state machine was given. |
| `Rafts.Raft.constructor` | src/raft/raft.cc:91-134 | A server constructed, initialised and started on empty storage is the model's first state. |
| `Rafts.Raft.Handle` | src/raft/raft.h:50-100 | For every event the object does, to its state and in the messages it sends, what the cluster model says. |
| `Rafts.Raft.OnRequestVote` | src/raft/raft_request_vote.cc:41-122 | The object's new state and its reply are those of the model, on every branch. |
| `Rafts.Raft.OnRequestVoteReply` | src/raft/raft_request_vote.cc:143-224 | The same for replies to real and pre-votes. |
| `Rafts.Raft.SendRequestVote` | src/raft/raft_request_vote.cc:226-265 | The request sent and the transfer flags left are those of the model. |
| `Rafts.Raft.MakeLogSame` | src/raft/raft_append_entries.cc:167-214 | The loop over the entries either stops at a failed assertion with the log untouched or leaves the reconciled log. |
| `Rafts.Raft.OnAppendEntries` | src/raft/raft_append_entries.cc:82-247 | The object's new state and reply are those of the model: stale, leader mismatch, gap, term mismatch, acceptance, commit and apply. |
| `Rafts.Raft.OnAppendEntriesReply` | src/raft/raft_append_entries.cc:264-342 | The leader's tables, commit index, state machine and next message are those of the model. |
| `Rafts.Raft.SendAppendEntries` | src/raft/raft_append_entries.cc:344-416 | The message sent, with its entry, previous term and commit index, is that of the model, or the assertion on the next index fails. |
| `Rafts.Raft.StepDown` | src/raft/raft_core.cc:205-240 | Term, vote, leader, role and timers after stepping down are those of the model. |
| `Rafts.Raft.BecomeLeader` | src/raft/raft_core.cc:260-294 | Role, tables, timers and the appended no-op of a new leader are those of the model. |
| `Rafts.Raft.DoRequestVote` | src/raft/raft_core.cc:55-85 | Standing for election, or winning at once without peers, is that of the model. |
| `Rafts.Raft.MaybeCommit` | src/raft/raft_core.cc:338-369 | The commit index and what is applied are those of the model. |
| `Rafts.Raft.StateMachineApply` | src/raft/raft_core.cc:371-421 | The apply loop feeds the state machine what the model says and stops where it says. |
| `Rafts.Raft.Propose` | src/raft/raft_client_request.cc:111-135 | A proposal appends, commits and sends to every peer as the model says. |
| `Rafts.Raft.OnTimeoutNow` | src/raft/raft_timeout_now.cc:13-46 | Transfer flags, term and election timer are those of the model. |
| `Rafts.Raft.Restart` | src/raft/raft.cc:156-194 | A new process over the stored term, vote, log and state machine is the model's rebooted server. |
| `VoteManagers.VoteManager.Majority` | src/raft/vote_manager.cc:17-28 | The counting loop decides whether the granted rows and the own vote reach half the members rounded up. |
| `VoteManagers.VoteManager.MajorityPreVoteOk` | src/raft/vote_manager.cc:43-54 | The same for rows flagged both log-ok and interval-ok. |
| `VoteManagers.VoteManager.QuorumAll` | src/raft/vote_manager.cc:56-66 | True exactly if the own vote and every row are granted. |
| `VoteManagers.VoteManager.Clear` | src/raft/vote_manager.cc:68-75 | Every row is empty afterwards and the rows are the same. |
| `IndexManagers.IndexManager.MajorityMax` | src/raft/index_manager.h:56-64 | The middle of the sorted match indexes is the largest index that a strict majority has reached, for every number of peers. |
| `Quorum.MajorityMaxUnique` | src/raft/index_manager.h:56-64 | There is only one such index. |
| `Quorum.QuorumsMeet` | src/raft/vote_manager.cc:17-28 | Two sets of members that each hold more than half share a member. |
| `SolidDatas.SolidData.Restart` | src/raft/solid_data.cc:19-69 | A new process reads back the term and vote last set. |
| `LogState.KeysExactly` | src/raft/raft_log.cc:12-27 | The main store's keys are exactly 0 and, for each index of the window, its odd and its even key. |
| `RaftLogStore.RaftLog.Init` | src/raft/raft_log.cc:140-250 | Opening the stores sets first, last, append, checksum and configuration indexes to what the stored history determines. |
| `RaftLogStore.RaftLog.Restart` | src/raft/raft_log.cc:140-250 | Reopening the stores rebuilds exactly the fields in memory as they were. |
| `RaftLogStore.RaftLog.AppendOne` | src/raft/raft_log.cc:491-605 | The history grows by the entry; stores, window, checksum and configuration indexes follow. |
| `RaftLogStore.RaftLog.DeleteFrom` | src/raft/raft_log.cc:609-719 | The history is cut at the index, within the window; the dropped configuration indexes are reported in order. |
| `RaftLogStore.RaftLog.DeleteUtil` | src/raft/raft_log.cc:721-804 | The prefix is compacted away; the history, its checksum and the configuration store stay. |
| `RaftLogStore.RaftLog.Get` | src/raft/raft_log.cc:408-427 | Returns the entry of an index of the window, and nothing outside it. |
| `RaftLogStore.RaftLog.LastConfig` | src/raft/raft_log.cc:333-372 | Returns the configuration of the greatest configuration index with its meta data, the first configuration, or that there is none. |
| `RaftLogStore.RaftLog.Run` | src/raft/raft_log.cc:491-804 | After any sequence of appends, cuts, compactions, first configurations and restarts the log is valid and stands for the history that the operations mean. |
| `LogState.ReappendRestores` | src/raft/raft_log.cc:609-719 | To cut the log anywhere in its window and append the same entries again changes nothing. |
| `LogState.ChecksumsChain` | src/raft/raft_log.h:125-177 | Each stored checksum is made of its predecessor's and of the entry, starting from 0. |
| `LogState.ChainTells` | src/raft/raft_log.h:125-177 | If two different histories of one length end in the same checksum, CRC-32 maps two different strings to one number: index, term, type, value and what came before are all in. |
| `LogState.OpsAndReaders` | src/raft/raft_log.cc:408-804 | An append, cut or compaction changes what a reader gets at exactly the indexes it is about. |
| `RaftLogStore.HistoryDetermines` | src/raft/raft_log.cc:518-535 | Logs with equal histories agree on the next index, the checksum and every shared key, whatever operations led there. |
| `KeyOrder.AgreesExactly` | src/raft/raft_log.cc:109-124 | The wrapping comparator orders two keys as unsigned numbers if and only if they are less than 2^31 apart. |
| `KeyOrder.OrderBelow` | src/raft/raft_log.cc:109-124 | Below 2^31 it is the unsigned order. |
| `KeyOrder.KeysInvert` | src/raft/raft_log.cc:15-27 | Indexes and positive keys correspond, one odd and one even key to each index. |
| `KeyOrder.LayoutSortedExactly` | src/raft/raft_log.cc:109-124 | The keys 0 to 2n are sorted by the comparator if and only if n is below 2^30. |
| `Coding.GetVarint32` | src/util/coding.cc:7-35 | The loop reads what at most five bytes spell, as far as 32 bits hold it. |
| `Coding.EncoderIsVarint` | src/util/coding.cc:224-250 | The five branches of the encoder are the general seven-bits-a-byte form. |
| `Coding.VarintRoundTrip` | src/util/coding.cc:224-262 | Every 32-bit number comes back, and exactly its bytes are consumed. |
| `Coding.StringRoundTrip` | src/util/coding.cc:366-388 | Every string under 2^32 bytes comes back with what follows it; the claimed size is the consumed size if and only if the string is under 128 bytes, and positive if and only if it is under 2^31 - 1 bytes. |
| `Coding.FixedRoundTrip` | src/util/coding.cc:199-222 | Fixed-width numbers come back. |
| `Codec.EntryRoundTrip` | src/raft/raft_log.h:196-271 | An entry comes back but for pre_chk_all, whatever follows it; the claimed size is right if and only if the value is under 128 bytes. |
| `Codec.ToString` | src/raft/append_entries.h:77-134 | The loop writes the header fields and then every entry. |
| `Codec.MaxBytes` | src/raft/append_entries.h:42-65 | The buffer exceeds what is written, by 4 bytes and 7 to 11 more for each entry. |
| `Codec.FromString` | src/raft/append_entries.h:140-208 | The loop reads header and entries by the claimed sizes, or stops at a failed assertion. |
| `Codec.MessageRoundTrip` | src/raft/append_entries.h:77-208 | A message whose values except perhaps the last are under 128 bytes comes back; the claimed size is right if and only if the last one is too. |
| `Codec.RoundTripExactly` | src/raft/append_entries.h:77-208 | For entries of known kind, terms under 2^32 and values under 2^28 bytes, the message comes back if and only if every value but the last is under 128 bytes. |
| `Codec.MessageLayout` | src/raft/append_entries.h:77-134 | The fields of a message lie one after the other at fixed offsets as little-endian numbers, in the source's order, and the entries follow. |
| `Codec.EntryBytesLayout` | src/raft/raft_log.h:195-227 | The same for the fields of an entry, with its value and its length behind them. |
| `VstoreSms.VstoreSm.Apply` | src/vstore/vstore_sm.cc:29-63 | Unless the user's key is reserved the store records the entry's index and term; the user's key holds the user's value; no other key is touched. |
| `VstoreSms.KvRoundTrip` | src/raft/kv.h:47-102 | A pair with a key under 128 bytes and a value under 2^31 - 1 bytes comes back from its encoding. |
| `VstoreSms.KvExactly` | src/raft/kv.h:47-102 | With keys under 2^14 and values under 2^25 bytes a pair comes back if and only if the key is under 128 bytes or the value survives being read one byte early: it repeats the key's last byte, and that byte is its size, or it is empty and that byte is not 1. |
| `VstoreSms.LongKeyLosesValue` | src/raft/kv.h:76-102 | A key of 128 zero bytes with the value [7] does not come back. |
| `VstoreSms.LastIndexExactly` | src/vstore/vstore_sm.cc:65-77 | The store reports the last applied index if and only if the last entry writes nothing under the reserved key, or these same 4 bytes; the assertion on the size fails if and only if the last entry writes a value of another size there. |
| `VstoreSms.LastTermExactly` | src/vstore/vstore_sm.cc:79-91 | The same for the recorded term and its 8 bytes. |
| `VstoreSms.ClientSetsIndex` | src/vstore/vstore_sm.cc:29-77 | Whatever was applied before, after a pair under the reserved key the store reports the number that the pair's value spells, or the assertion on its size fails. |
| `VstoreSms.IndexMisreported` | src/vstore/vstore_sm.cc:65-77 | At index 7 the value [7] makes the assertion fail, and the 4 bytes of 8 are reported as the last index. |
| `VstoreSms.UserKeyHolds` | src/vstore/vstore_sm.cc:93-104 | A key that is not reserved holds what the last entry that writes it says, and is there only if one does. |
| `StoredState.StoreFollowsLog` | src/raft/raft.cc:107-111 | In every reachable state, crashes inside the apply loop included, as long as the store reports its last index it is the fold of the log's data entries up to there, and a new process goes on from there. |
| `StoredState.PlainClientsReport` | src/raft/raft.cc:282-308 | Over every run in which no client names a reserved key, in clusters of any size, every store reports the index and term that the protocol takes for its last ones. |
| `StoredState.OneProposalMisreports` | src/vstore/vstore_sm.cc:29-77 | In every cluster of sound size, for each member, one proposal makes its store report any index while it was given one entry, at index 2, or fail its assertion. |
| `StoredState.AlwaysReportsExactly` | src/raft/raft.cc:282-308 | The stores report what the protocol takes for granted, on all runs of a kind, if and only if no client names a reserved key. |
| `ConfigChanges.InConfig` | src/raft/raft_config.cc:57-69 | True exactly for the members of a configuration. |
| `ConfigChanges.IamIn` | src/raft/raft_config.cc:89-100 | True exactly if all members of one configuration are members of the other. |
| `ConfigChanges.ConfigCompare` | src/raft/raft_config.cc:102-136 | The return value says how the member sets compare, and diff lists what the smaller lacks. |
| `ConfigChanges.ChangedMembers` | src/raft/raft.cc:324-363 | After a change the members are the proposed ones and this server, without repetitions, and `me` is unchanged. |
| `ConfigChanges.TablesFollow` | src/raft/raft.cc:457-530 | The keys of all four peer tables are the new peers; rows of peers that stay are untouched; a peer that comes in has no vote and no match, starts behind the leader's log with its heartbeat armed if this server leads, and at 1 with no heartbeat else. |
| `ConfigChanges.RollbackRestores` | src/raft/raft.cc:447-455 | After a change and its rollback all tables have the old keys, rows of peers there all along are untouched, and those of peers that come back are new ones, by the role and last index that the server has by then. |
| `ConfigChanges.Membership.ConfigChange` | src/raft/raft.cc:318-363 | Succeeds exactly if one member set strictly contains the other, and for a standby server only if members are gained; then configuration, previous configuration, index and tables change as the specification functions say, and each new peer gets a new row. |
| `ConfigChanges.Membership.ConfigRollback` | src/raft/raft.cc:447-455 | Succeeds exactly if there is a previous configuration that passes the same assertion; then restores and forgets it, and the tables change accordingly. |
| `ConfigChanges.Membership.ChangeAndRollback` | src/raft/config_manager.h:52-68 | A change and its rollback, with role and last index changed in between, leave configuration, keys and surviving rows as they were; it succeeds exactly for acceptable changes of servers that are not standby. |

## Left out

- Liveness, wall-clock time and election randomness: runs that repair and commit are shown to exist, not to happen; timers may fire whenever they are armed, and the outcome of the interval check is a free boolean.
- Integer widths of terms and log indexes: they are unbounded, except in the key order, the checksums and the codecs.
- Crashes between two writes of one handler: all are modelled, but those before anything is applied in `TornWrites`, `TornRun` and `TornElections` only; `Rafts.Raft` and the other theorems take these writes for one.
- Membership change across the cluster, and standby servers in it: a cluster's members are fixed, its logs are proved for data and no-op entries of clients and leaders, and membership is modelled for one server only.
- Snapshot transfer: the protocol never compacts its log, so the sending path is not reached; compaction is modelled in the persistent log alone.
- Rafts.Raft.StateMachineApply: does not reset `changing_index_` and `standby_` on a configuration entry, which belongs to the membership of one server.
- Rafts.Raft.Restart: requires log indexes below 2^30, within which the stored keys are in order.
- RaftLogStore.RaftLog.Init: the same bound, which `KeyOrder.LayoutSortedExactly` shows to be exact for the order of the keys.
- RaftLogStore.RaftLog.Restart: the same bound.
- RaftLogStore.RaftLog.LastConfig: the same bound.
- Disabled checksums: nothing in the source turns them off.
- leveldb: a finite map with atomic batches; the two stores of the log are written in one step.
- Collisions of CRC-32: nothing is claimed about them.
- Total message sizes of 2^31 bytes and more: the int32_t byte counters of the codec are unbounded here, except in the return value of `DecodeString2`.
- Memory beyond a message: the decoder's window for a string may reach past the encoded bytes; the round trips hold for any bytes that follow, and reading past the end of memory counts as a failure.
- Tracing, JSON, TCP, event loops, connectors, console, vectordb and the acceptor: input, output and foreign code.
- Rafts.Raft.Handle: crashes are not methods of the object; a crash is a handler followed by a restart, in the cluster model.
- RaftLogStore.RaftLog.Run: the history stays within the same bound; the callbacks on configuration entries are reported or left to the caller, not called.
- ConfigChanges.Membership.ConfigRollback: without a previous configuration the source dereferences a null pointer; here it reports failure, as for the assertion.
- VstoreSms.KvExactly: keys of 2^14 bytes and more, whose value is read from two to four bytes early, and values of 2^25 bytes and more with a key over 127 bytes are not covered.
- StoredState.AlwaysReportsExactly: says nothing of indexes from 2^32 and terms from 2^64 on, which the store's 4 and 8 bytes cannot hold.
- What the protocol does with a state machine that reports wrongly: the cluster's servers go by what the state machine was given.
- Codec.RoundTripExactly: outside the usual ranges only one direction is proved, since a misread tail can coincide with the right one.
