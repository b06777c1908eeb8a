# Orris: the Raft core and its write-ahead log, modelled and proved

Orris is a replicated key-value store: Raft elects a leader, the leader replicates a log, a write-ahead log keeps each
node's share of it on disk, and committed entries are applied to a map. This project models that core in Dafny and proves
what it promises for every run of a cluster of any size, with any interleaving, any message loss, delay, duplication and
reordering, and crashes after any record a handler writes.

`dafny verify dfyconfig.toml` checks everything.

## How it is built

| layer | files | content |
|---|---|---|
| program | `Node.dfy`, `Kv.dfy`, `Wal.dfy` (class `Log`), `Crc.dfy` | the critical sections of `internal/raft` as methods of a class, with the loops of the code; the store; the log file; the checksum |
| one node as a value | `Storage.dfy`, `Replica.dfy` | the function each critical section computes; the methods of `Node.dfy` are proved equal to these |
| one handler, record by record | `LogMerge.dfy` | what an AppendEntries request does to a log, at every record boundary on the way |
| cluster | `Cluster.dfy` | all nodes, all messages ever sent, one event for each critical section, and crashes inside one |
| proof | `History.dfy`, `Growth.dfy`, `NodeSteps.dfy`, `HistorySteps.dfy`, `AppendSteps.dfy`, `Steps.dfy` | history variables, the inductive invariant, and its preservation by every event |
| safety | `Theorems.dfy`, `Messages.dfy`, `Backtracking.dfy`, `Disk.dfy` | what never goes wrong; statements about runs only, no history appears in them |
| obligations | `Answers.dfy` | what each step must answer and bring about, in every run: no node may refuse or ignore what the rules tell it to do |
| availability | `Availability.dfy` | from every reachable state any majority can, on its own, elect a leader, commit a write and apply it |
| instances | `Example.dfy` | a concrete run that elects, writes, commits, crashes and recovers, and a run of two nodes out of three, so the theorems are not empty |

A *run* (`Cluster.IsRun`) starts with empty nodes and takes one event at a time. An event is one critical section (all that
happens between a lock and its unlock), or the same section cut short: the node dies after some of the section's records
and restarts from those. Messages are never removed, so they may be handled late, twice or never.

The proof does not follow the usual one for Raft, because the code differs from it. A failed consistency check truncates
the follower's log at once; the follower commits up to its own last index; match indexes are overwritten and not
maximised. The invariant is therefore built on entries that *may still* be committed (`History.Live`: stored in a term by
a majority, counting nodes that have not yet left that term), and on what a log may lose on its way to the sender's log
(`LogMerge.Moves`).

### Assumptions

- Node identifiers are not empty, because `""` stands for "no vote", and all nodes know the same fixed members.
- Appends to the write-ahead log succeed; the code drops their errors.
- At cluster level a crash leaves whole records. `Disk.CrashAtAnyByte` shows that a cut at any byte is such a crash as far
  as the next recovery goes; what appending after a torn frame does is stated separately (below).
- Integers do not overflow. Only the four-byte length in a frame header wraps around.
- Records are a sum type: an ENTRY record without an entry and a record of an unknown type, both ignored by recovery, do
  not exist here.
- The serialisation of records is a pair of functions (`Wal.Codec`); a lemma assumes of it only what its `requires` says.
- The increment of the vote counter belongs to the step that accepts the reply. The promotion test that follows is a step
  of its own, which may see later votes as well.
- `HandleAppendEntries` needs `prevLogIndex >= -1` (below that the code would index out of range);
  `Messages.CommitIsShipped` proves it of every request ever sent. Two scans need `commitIndex >= -1`, and the application
  loop `lastApplied >= -1`, for the same reason; `Theorems.StateMachineSafety` proves both in every reachable state.

### Where the code and its documentation disagree

- README.md:125 of the repository says a torn tail is truncated. `ReadAll` only seeks to the end, so later appends land
  behind the torn bytes. `Wal.TornTailExample` loses a record that way, `Wal.AppendAfterTornWrite` gives the family in
  which everything appended is lost, and `Wal.AppendBehindLeftovers` says exactly when appended records are found again.
- README.md:18 promises linearizable reads, and README.md:110 that a write is applied when the client is told OK. The code
  does neither: `Example.CommittingRun` reaches a state in which a write is answered and no node has applied it.
  `Theorems.AcknowledgedWriteIsRead` says exactly what a read returns.

## Model

| member | source | states |
|---|---|---|
| `Theorems.LeaderCompleteness` | internal/raft/replication.go:107-130 | in every run, all that a node of term T regards as committed is, entry for entry, in the log of every leader of every later term, whichever of the two states comes first |
| `Theorems.StateMachineSafety` | internal/raft/replication.go:186-199 | the committed parts of any two logs, on any nodes at any two moments, are prefixes of one another; -1 <= lastApplied <= commitIndex < length always |
| `Theorems.EqualAppliedEqualData` | internal/raft/apply.go:24-37 | nodes that have applied equally far, at whatever moments, hold the same map |
| `Theorems.CommitStable` | internal/raft/replication.go:147-193 | no event, crash or restart moves a commit index back or changes an entry at or below it, through none of the three truncations |
| `Theorems.AcknowledgedWriteIsDurable` | internal/raft/client.go:43-84 | once a write is answered with success its entry is still at its index, committed, and in the log of every later leader across any crashes |
| `Theorems.AcknowledgedWriteIsRead` | internal/raft/state.go:62-66 | what a local read returns of an acknowledged SET: its value on every node that has applied it and no later entry for the key, the map from before the write on every node that has not |
| `Theorems.ElectionSafety` | internal/raft/election.go:74-103 | two leaders of one term, at any two moments of a run, are the same node |
| `Theorems.LogMatching` | internal/raft/replication.go:147-184 | any two logs of a run that agree on the term at an index are identical up to it |
| `Theorems.LogShape` | internal/raft/client.go:43-53 | entries sit at their own index; terms start at 1, never decrease along a log and never exceed the node's term |
| `Theorems.LeaderAppendOnly` | internal/raft/client.go:53-57 | within its term a leader's log only grows |
| `Theorems.AppliedData` | internal/raft/apply.go:28-36 | the map is always the fold of the log up to lastApplied |
| `Theorems.CrashTransparency` | internal/raft/node.go:53-85 | at every lock release the file replays to exactly the live term, vote, log and commit index, and recovery rebuilds the map that incremental application reaches; role and progress maps are lost |
| `Theorems.OneVotePerTerm` | internal/raft/replication.go:233-241 | a node's file never holds votes for two candidates in one term |
| `Theorems.CountedVotesArePersisted` | internal/raft/election.go:60-86 | everyone an election has counted has that very vote in its file, and the candidate is not counted twice |
| `Theorems.CandidateLogFrozen` | internal/raft/election.go:20-26 | a candidate's log does not change while it is a candidate of one term, and every vote request it sent describes it |
| `Theorems.ChosenInLaterLeader` | internal/raft/replication.go:216-242 | a majority-stored prefix was already in the log of every later leader when that leader was elected |
| `Theorems.RunInv` | internal/raft/replication.go:132-245 | the invariant holds in every state of every run |
| `Steps.EventStep` | internal/raft/replication.go:81-245 | every event, completed or cut short by a crash, preserves the invariant and only extends the history |
| `Steps.MidCrash` | internal/raft/replication.go:154-198 | a handler interrupted after any of its records leaves a file whose replay satisfies the invariant |
| `Steps.CrashStep` | internal/raft/node.go:46-85 | a restart from any record boundary of any critical section preserves the invariant |
| `HistorySteps.WinnerHolds` | internal/raft/replication.go:225-231 | the up-to-date check makes a majority's winner hold everything that may still be committed in earlier terms |
| `HistorySteps.OneWinner` | internal/raft/replication.go:216-241 | a second majority for the same term has the same candidate |
| `HistorySteps.SupersededIsDead` | internal/raft/replication.go:204-214 | once a later term has a leader, nothing an earlier leader still appends can be committed in its term |
| `NodeSteps.CommittableIsChosen` | internal/raft/replication.go:113-128 | an index the leader may commit is stored by a majority in the leader's own term |
| `Availability.MajorityServes` | internal/raft/client.go:34-85 | from every reachable state of a cluster of two or more, any majority, all others silent for ever, can elect one of its own, answer a write with success and have it applied on each of its nodes |
| `Availability.MajorityElects` | internal/raft/election.go:10-103 | any majority not made of leaders only can elect a leader in a term newer than all of theirs, without touching a log |
| `Availability.BestIsElected` | internal/raft/replication.go:216-241 | the member of a majority whose last entry is not behind any other's wins the election of any newer term |
| `Availability.WriteCommits` | internal/raft/replication.go:81-130 | a leader with a majority of no later term behind it brings any write to its commit index, whatever conflicts the followers' logs have |
| `Availability.Stock` | internal/raft/replication.go:54-105 | exchanges carried out as steps of the cluster end with the peer holding the leader's log, both indexes recorded, the commit index moved as far as it goes, and nobody else touched |
| `Availability.HeartbeatCommits` | internal/raft/replication.go:186-199 | an empty exchange with a peer that holds the leader's log brings that peer to the leader's commit index |
| `Answers.AppendReplyGiven` | internal/raft/replication.go:136-201 | every AppendEntries reply of a run goes back to the moment it was given: its term is the node's term right after, exceeds the request's exactly when the node was in a later one; success exactly when the request was not stale and fitted the log |
| `Answers.AppendAnswer` | internal/raft/replication.go:136-157 | term, role, vote and response after the handler; a failed check cuts the log at the request's previous index and commits nothing |
| `Answers.VoteGivenExactly` | internal/raft/replication.go:204-245 | a vote is granted if and only if the term is not older, no other vote was given in it, and the pair (last term, last position) is not behind; the answer carries the node's new term |
| `Answers.VoteReplyGiven` | internal/raft/replication.go:204-245 | every vote reply goes back to the moment it was given, with the node's term right after and exactly the grant the rules ask for |
| `Answers.SomeoneGrants` | internal/raft/replication.go:225-231 | of any two nodes of a reachable state, asked in a term newer than both, at least one grants the other, and both do exactly when their logs are the same |
| `Answers.CampaignStarts` | internal/raft/election.go:10-34 | a timeout starts a candidacy in the very next term with a request that describes the log; a leader ignores it |
| `Answers.VoteReplyTaken` | internal/raft/election.go:60-76 | a running candidate counts exactly the granted votes; a higher term deposes it, on disk too; others ignore the reply |
| `Answers.PromotedExactly` | internal/raft/election.go:78-129 | a candidate leads after the promotion test if and only if the counted votes and its own are a majority of the members; then every peer's next index is the log's length and match index -1 |
| `Answers.RoundCoversPeers` | internal/raft/replication.go:16-34 | a leader's round is for every peer, with that peer's next index and the leader's term and commit index |
| `Answers.RequestOfRound` | internal/raft/replication.go:22-73 | every request in flight belongs to a round started while its sender led that term, with that commit index and that next index for this very peer |
| `Answers.CommitSpreads` | internal/raft/replication.go:186-199 | a follower that accepts a request has at least the commit index the leader had when the round began |
| `Answers.AppendReplyTaken` | internal/raft/replication.go:81-105 | what a reply does to the leader of its term, in all five cases: deposed on disk too, indexes and commit index moved as far as they go, left alone, or next index one back |
| `Answers.StaleLeaderIsDeposed` | internal/raft/replication.go:88-91 | a leader that hears from a peer that was in a later term follows that peer's term, without a vote |
| `Answers.LeadershipIsUnbroken` | internal/raft/election.go:95-103 | a node that has led a term and leads it no more never leads it again |
| `Answers.PollOutcome` | internal/raft/client.go:74-85 | success, waiting and lost leadership mean exactly: committed at its index, held there uncommitted by a node still leading, and never leading that term again |
| `Answers.AppliedExactly` | internal/raft/apply.go:24-37 | applying goes all the way to the commit index and changes nothing but the map and lastApplied |
| `Messages.CommitIsShipped` | internal/raft/replication.go:54-72 | every request ever built has -1 <= leaderCommit <= prevLogIndex + number of entries |
| `Messages.BuiltFrom` | internal/raft/replication.go:47-73 | every request in flight was built, at an earlier moment, by the leader of its term from its whole log then |
| `Messages.AcceptedAppend` | internal/raft/replication.go:147-199 | an accepted request, however late, leaves a log that already extends the sender's log at build time alone and otherwise makes it equal to that log; the commit index becomes the greater of the two |
| `Messages.MatchingInFlight` | internal/raft/replication.go:167-184 | Log Matching between any log and the entries of any request in flight |
| `Messages.MatchIndexSound` | internal/raft/replication.go:81-105 | a leader's match index for a peer is backed by a moment at which that peer, in that term, held the leader's log so far, and still is while the peer stays in that term; next indexes stay within the log |
| `Messages.AckWitness` | internal/raft/replication.go:186-201 | an acknowledgement goes back to a moment when the node was in that term and had stored that much |
| `Backtracking.BacktrackingTerminates` | internal/raft/replication.go:93-104 | from every reachable state a leader left alone with a peer of no higher term needs at most nextIndex + 1 exchanges, after which its log is a prefix of the peer's |
| `Backtracking.Failed` | internal/raft/replication.go:99-104 | a failed exchange moves the next index back by one and leaves a pair of matching logs |
| `Backtracking.Succeeded` | internal/raft/replication.go:93-98 | after a successful exchange the follower's log extends the leader's, and match and next index say so |
| `LogMerge.CheckPassage` | internal/raft/replication.go:147-184 | at every record boundary of the handler the replayed log keeps all it shares with the sender's; a passed check ends with the sender's log, or with the own log if that extends it |
| `LogMerge.MergePassage` | internal/raft/replication.go:166-184 | the nested append loop ends with the merge of the two logs, and every record boundary in it is safe |
| `LogMerge.MovesKeep` | internal/raft/replication.go:149-164 | whatever prefix of a log is comparable with the sender's log survives all truncations |
| `Replica.CommitTarget` | internal/raft/replication.go:107-130 | the scan finds the greatest current-term index above commitIndex that a strict majority holds, or commitIndex exactly when there is none |
| `Node.Node.constructor` | internal/raft/node.go:17-36 | a new node is the recovery of its file's records |
| `Node.Node.RecoverState` | internal/raft/node.go:46-85 | the two loops compute the replay of the records and the fold of the committed entries |
| `Node.Node.ReplayOne` | internal/raft/node.go:53-74 | one record changes term and vote, log, or commit index as replay says, and nothing else |
| `Node.Node.ReapplyCommitted` | internal/raft/node.go:76-85 | the second loop leaves the fold of the committed part of the log in the store |
| `Node.Node.StepDown` | internal/raft/election.go:106-116 | new term, no vote, follower, and the record of it |
| `Node.Node.StartElection` | internal/raft/election.go:10-34 | the term bump, the vote for itself, its record and the request; nothing at a leader |
| `Node.Node.HandleVoteReply` | internal/raft/election.go:60-74 | stale replies are discarded, a higher term makes the node step down, a grant counts |
| `Node.Node.CheckVotes` | internal/raft/election.go:78-103 | promotion exactly for a candidate of that term with a strict majority |
| `Node.Node.BecomeLeader` | internal/raft/election.go:118-132 | the role, and next and match index of every peer |
| `Node.Node.ResetProgress` | internal/raft/election.go:125-129 | the loop sets every peer's next index to the log's length and match index to -1, other keys untouched |
| `Node.Election.constructor` | internal/raft/election.go:38-41 | an election starts with the candidate's own vote |
| `Node.Election.HandleReply` | internal/raft/election.go:54-87 | the shared counter is one more than the number of distinct peers whose vote was accepted; promotion follows from it |
| `Node.Election.Finish` | internal/raft/election.go:90-103 | the final promotion test uses that number |
| `Node.Node.ClientWrite` | internal/raft/client.go:34-58 | a leader appends the entry at the end of its log in its term and records it; others refuse |
| `Node.Node.PollWrite` | internal/raft/client.go:74-85 | one tick: lost leadership, success exactly when the commit index has reached the entry, or wait |
| `Node.Node.SendHeartbeats` | internal/raft/replication.go:16-34 | the snapshot of next index, term and commit index for every peer |
| `Node.Node.BuildAppend` | internal/raft/replication.go:47-73 | the request built from the snapshot and the log at that later moment |
| `Node.Node.HandleAppendReply` | internal/raft/replication.go:81-105 | match and next index overwritten on success with entries, next index one back on failure, step down on a higher term |
| `Node.Node.CountMatching` | internal/raft/replication.go:113-118 | self and the number of peers whose match index reaches the index |
| `Node.Node.AdvanceCommitIndex` | internal/raft/replication.go:107-130 | commitIndex becomes the greatest committable index above it and stays exactly when there is none |
| `Node.Node.HandleAppendEntries` | internal/raft/replication.go:132-202 | state and response after the whole handler |
| `Node.Node.MergeEntries` | internal/raft/replication.go:166-184 | the nested loop over the entries, records included |
| `Node.Node.StoreEntries` | internal/raft/replication.go:158-184 | a conflicting head drops the whole log before the merge |
| `Node.Node.UpdateCommit` | internal/raft/replication.go:186-199 | the commit index is raised to the lesser of the leader's and the own last index, and recorded |
| `Node.Node.HandleRequestVote` | internal/raft/replication.go:204-245 | state and response: a grant exactly for a term not older, no other vote in it and a log at least as up to date |
| `Node.Node.ApplyCommittedEntries` | internal/raft/apply.go:24-37 | the loop applies every committed entry of the log once, in order |
| `Node.Node.GetState` | internal/raft/state.go:62-66 | a read returns the local map's binding |
| `Storage.ReplayCommitGrows` | internal/raft/node.go:69-72 | the replayed commit index never decreases as the file grows |
| `Kv.ReadsLastWrite` | internal/kv/store.go:14-31 | after any log a key is present exactly if the last entry to touch it set it, with that entry's value |
| `Kv.Store.Set` | internal/kv/store.go:14-18 | binds the key and leaves every other |
| `Kv.Store.Delete` | internal/kv/store.go:20-24 | unbinds the key and leaves every other |
| `Kv.Store.Get` | internal/kv/store.go:26-31 | the binding, or the empty string and false |
| `Kv.Store.GetAll` | internal/kv/store.go:33-41 | the copying loop returns the whole map |
| `Wal.RoundTrip` | internal/storage/wal.go:90-160 | reading back what was appended gives the same records, for all record lists with payloads under 2^32 bytes |
| `Wal.TornWrite` | internal/storage/wal.go:130-147 | a file cut at any byte gives exactly the records whose frames are complete |
| `Wal.WholeIsExact` | internal/storage/wal.go:142-147 | the number of those is the number of frames that end at or before the cut |
| `Wal.ReadIsLongest` | internal/storage/wal.go:113-160 | from any file whatever, reading finds the longest list of records whose frames the file begins with, for a codec that accepts only what it writes |
| `Wal.AppendAfterCleanTail` | internal/storage/wal.go:162-163 | appending to a file that ends on a frame boundary |
| `Wal.AppendAfterTornWrite` | internal/storage/wal.go:162-163 | behind a torn frame nothing appended is found, whatever the checksums, while more payload is announced than written; behind a clean cut all is |
| `Wal.AppendBehindLeftovers` | internal/storage/wal.go:162-163 | appended records are found again if and only if the bytes from the first leftover byte on begin with the new frames |
| `Wal.TornTailSwallows` | internal/storage/wal.go:139-157 | reading passes a torn frame if and only if later bytes complete a payload with the recorded checksum that decodes |
| `Wal.TornTailExample` | README.md:125 | a record appended behind a torn one is lost to every later recovery |
| `Wal.CorruptionBoundary` | internal/storage/wal.go:149-152 | changing at most four consecutive payload bytes of record k makes recovery return exactly the records before k |
| `Wal.HeaderExample` | internal/storage/wal.go:99-102 | the header of the nine digits, byte for byte: length, then checksum, most significant byte first |
| `Wal.LengthBack` | internal/storage/wal.go:101-101 | a length below 2^32 survives its four big-endian bytes |
| `Wal.ChecksumBack` | internal/storage/wal.go:102-102 | a checksum survives its four bytes |
| `Wal.Log.constructor` | internal/storage/wal.go:56-67 | opening positions at the end |
| `Wal.Log.Append` | internal/storage/wal.go:82-111 | the file grows by exactly the record's frame |
| `Wal.Log.ReadFrame` | internal/storage/wal.go:131-158 | the first record, or nothing if the frame is incomplete, corrupt or undecodable |
| `Wal.Log.ReadAll` | internal/storage/wal.go:115-165 | the loop returns the readable records, leaves the file as it is and the position at its end |
| `Disk.CrashAtAnyByte` | internal/storage/wal.go:104-110 | power failing at any byte of a handler's writes makes recovery reach a state that the cluster model's crash event has |
| `Crc.BurstDetected` | internal/storage/wal.go:149-152 | a change within at most four consecutive bytes always changes the checksum |
| `Crc.RunInjective` | index.html:269-273 | the register loses nothing: equal results after equal bytes mean equal registers before |
| `Crc.StepIsShifts` | index.html:269-273 | the table step equals mixing the byte in and shifting bit by bit eight times |
| `Crc.CheckValue` | index.html:269-273 | the checksum of the nine digits is 0xCBF43926, the standard check value |
| `Crc.BuildTable` | index.html:260-268 | the nested loops fill the table with eight-fold shifts |
| `Crc.TableEntry` | index.html:262-266 | the inner loop shifts eight times |
| `Crc.Crc32` | index.html:269-273 | the table-driven loop computes the checksum |
| `Example.TwoOfThree` | internal/raft/election.go:78-103 | a run of three nodes in which one never acts and the other two elect, commit and apply |
| `Example.CommittingRun` | internal/raft/client.go:73-84 | a run in which a leader is elected, its write is replicated, committed and answered before any node has applied it, and the write is in its map after a crash |

## Left out

- Timers, tickers, channels and goroutine scheduling: every critical section may run at any time, and nothing is said about real time or about what must eventually happen. `MajorityServes` says what can always still happen, and `BacktrackingTerminates` how many exchanges it takes. A cluster without peers never commits, because only a peer's reply starts the commit scan.
- The client's waiting loop is modelled tick by tick; its five-second deadline and the stop channel are not.
- `internal/transport/tcp.go`: sockets and streams. What is kept is that a reply belongs to its request and that either may be lost.
- `internal/client/server.go`: the line protocol. Reads are claimed only as far as `AcknowledgedWriteIsRead` goes.
- gob: an encode and a decode function. `ReadIsLongest` and `AppendBehindLeftovers` assume a codec that accepts only what it writes, which gob does not promise for payloads with trailing bytes.
- I/O errors of the write-ahead log, the early return on a read error, and use after Stop.
- Several recoveries from one file with torn frames in the middle, at cluster level: after a torn write the cluster theorems hold up to the next append, and the byte-level lemmas say what that append does.
- Membership change and snapshots: the code has neither.
- Update in place of slices that share memory: `log[nextIdx:]` is copied by the code and is a value here.
- `cmd/`, `web/index.html` and the rest of `index.html`: process control, dashboards and a browser simulation.
- The other getters of `internal/raft/state.go`: each returns one field.
