# A verified model of a Raft-replicated, sharded key-value store

This project models, in Dafny, the logic of a small distributed key-value store written in
Rust: a Raft node that turns ticks, messages and proposals into actions; the cluster node
that applies committed commands to a storage engine with a write-ahead log; and the
consistent-hash ring that decides which shard serves a key. It proves what the store
promises over every run, and where a promise does not hold for the code as written, it
proves exactly when it does.

Check the whole project with `dafny verify dfyconfig.toml`.

## How the model is built

- **Objects and step functions.** Code that updates fields in place is a class
  (`RaftLog`, `RaftState`, `RaftNode`, `StatePersister`, `Wal`, `Memtable`,
  `StorageEngine`, `HashRing`, `Router`, `ClusterNode`) with the loops of the original.
  Each method is proved to leave the object in the state, and return the result, of a pure
  step function (`RaftSpec`, `Storage`, `Routers`, `ClusterNodes`). The theorems are about
  those functions.
- **The cluster** (`RaftCluster`) is a map of nodes plus the set of every message ever sent,
  so loss, repetition and reordering are all possible; a restart reopens a node on its state
  file. A run is any sequence of ticks, proposals, deliveries and restarts. An observer's
  history (votes, electors, leader logs, acknowledgements, commits, applied entries) is
  written beside it; no handler reads it.
- **Three hazards.** Election Safety and Log Matching hold for every run. Leader
  Completeness and State Machine Safety do not: the handlers count a success reply of an
  older term (src/raft/node.rs:610-616), a success reply reports the follower's whole last
  index instead of what the request covered (src/raft/node.rs:549-555), and a request that
  starts past the leader's own log can pass the check on a follower whose log also ends
  before it, because a missing index has term 0 (src/raft/log.rs:94-96). The predicates
  `StaleSuccess`, `Overclaim` and `PassesPastEnd` say when a delivery is one of these: the
  first two only when the reply claims an index past all that its sender has acknowledged
  in the leader's term, so that ordinary reordering and repetition of replies is allowed.
  `SafetyTheorem` holds for every run without such deliveries, and for each of the three
  there is a run with only deliveries of that one kind that loses a committed entry and in
  which two nodes apply different commands at one index, so none of the three conditions
  can be dropped.
- **The applied state.** After a restart the engine recovers from its own file while
  `last_applied` starts again at 0, so the log is applied once more on top of recovered
  data. `ReplicatedStoreTheorem` and `SingleNodeRefinement` show that this converges.

| file | content |
|---|---|
| RaftTypes, RaftLog, RaftSpec, RaftNode | records, log, step functions, the node object |
| RaftCluster, RaftFacts, Quorums | runs of a cluster; facts about messages; majorities |
| Persistence, ElectionSafety, LogMatching | invariants of every run |
| Candidacies, Acknowledgements, CommitSteps, KeepInvariant, LeaderCompleteness | safety of every permitted run |
| RunTools, FiveNodes, RaftHazards, StaleHazard, PastEndHazard | the runs that break safety |
| NodeDuties | what a node owes on each input, said from the fields of message and node |
| ApplyOrder, CatchUp, BackOff, Convergence | order of application; when a follower catches up, one that never does, and how it does in a run |
| Wal, Storage | the log file, the memtable, the engine and recovery |
| Hashing, HashRing, Router | the hash, the ring, the router |
| ClusterNode, AppliedLog, Redirects, SingleNode | the cluster node; redirection; a cluster of one |
| ReplicatedStore, ServerCluster | engines and complete nodes in a cluster, and the answers clients get |

## Where code and documentation disagree

The model follows the code.

- The comment on src/raft/node.rs:678-710 and the documentation describe the standard commit
  rule; the count it uses may include replies that do not show what they are counted for (the
  first two hazards).
- `LogCommand::Noop` is described as Raft bookkeeping, but no code path appends one on
  election; the model lets a caller propose one and skips it when applying.
- README.md:100-102 says replay brings the memtable back exactly; a field with a bar or a
  newline, or a line that ends in a carriage return, does not come back
  (`RoundTripExactly`, `SetSurvivesRestart`).
- A write after a torn tail is glued to the torn line and not read back
  (`AppendReadsBack`).
- The rejection hint is meant to let the leader jump back (src/raft/node.rs:486-489), but it
  always names the end of the follower's log. `BackOffTheorem` says exactly when rounds of
  request and reply reconcile two logs, and `FollowerNeverCatchesUp` gives a run without any
  hazard in which they never do.
- `truncate_from` accepts index 0 and would then remove the sentinel; no caller passes it.

## Model

| member | source | states |
|---|---|---|
| LeaderCompleteness.SafetyTheorem | src/raft/node.rs:443-710 | For every run without the three hazardous deliveries (a success reply is one only if it claims more than its sender ever acknowledged in the leader's term), restarts included: a prefix ever committed by a leader is in the log of every leader of its term or later, and no two nodes ever apply different commands at one index |
| LeaderCompleteness.OrdinaryRunsAreSafe | src/raft/node.rs:443-710 | The same for every run in which no success reply of an older term reaches a leader, none claims more than the request it answers covered, and no request past its sender's log passes the check; such runs are permitted |
| LeaderCompleteness.CommitNeverDecreases | src/raft/node.rs:538-594 | In such a run last_applied equals commit_index between steps, and neither goes back except by a restart |
| LeaderCompleteness.CountedQuorum | src/raft/node.rs:678-710 | When the commit rule holds for an index, the counted peers and the leader are a majority of the peer list |
| LeaderCompleteness.CountedMeetsVoters | src/raft/state.rs:153-181 | Every quorum of voters contains the leader or a peer whose match index reaches the committed index |
| LeaderCompleteness.SafetyInvStep | src/raft/node.rs:443-747 | Every permitted step of any node keeps the whole safety invariant |
| Acknowledgements.ChosenInLaterLeaders | src/raft/node.rs:351-362 | An entry acknowledged by a majority in its term is in the log of every leader of a later term |
| Acknowledgements.UpToDateKeeps | src/raft/node.rs:351-362 | The election restriction: a candidate whose log is at least as up to date as a log that holds an entry holds that entry too, unless a quorum has moved on without acknowledging it |
| Acknowledgements.AcceptedKeeps | src/raft/node.rs:477-532 | Accepting a request of a later leader does not remove an entry the follower had acknowledged |
| KeepInvariant.KeepInvAfter | src/raft/node.rs:304-747 | Every step keeps: what a node acknowledged is in its log, in the logs of candidates it voted for and in later leaders' logs |
| RaftHazards.PermittedRunCommits | src/raft/node.rs:678-710 | Runs without any hazard do commit: one vote and one acknowledgement of three nodes are enough |
| RaftHazards.OverclaimBreaksSafety | src/raft/node.rs:549-555 | A run of three nodes in which only overclaiming success replies are unusual ends with a leader that lacks a committed entry and two nodes that applied different commands at one index |
| StaleHazard.StaleBreaksSafety | src/raft/node.rs:599-629 | The same for five nodes with only success replies of older terms |
| PastEndHazard.PastEndBreaksSafety | src/raft/log.rs:94-96 | The same for five nodes with only requests past the leader's own log |
| ElectionSafety.ElectionSafetyTheorem | src/raft/node.rs:232-432 | For every run, no term ever has two leaders |
| ElectionSafety.VoteOnceTheorem | src/raft/node.rs:304-382 | For every run, no node ever votes for two candidates in one term, restarts included |
| Quorums.QuorumsIntersect | src/raft/state.rs:178-181 | Two sets of peers of majority size share a member |
| LogMatching.LogMatchingTheorem | src/raft/node.rs:477-532 | For every run, logs and in-flight slices with an equal term at an index agree on every earlier index both cover; the sentinel stays and terms never decrease along a log |
| LogMatching.AppendEntriesTheorem | src/raft/node.rs:443-532 | For every request ever sent, however old or repeated: the follower keeps every index on which it agrees with that term's leader, and if the check passes its log then holds the whole slice |
| RaftLogs.MergedFollowsLeader | src/raft/node.rs:495-532 | Merging a leader's slice that passes the check gives agreement through the end of the slice, and either the old log or a prefix of the leader's |
| RaftLogs.MergedKeepsAgreement | src/raft/node.rs:495-532 | The merge never removes an index on which the logs already agreed |
| Persistence.DiskEqualsMemory | src/raft/node.rs:819-834 | In every reachable state the saved term, vote and log equal the ones in memory |
| Persistence.StepKeepsDurable | src/raft/node.rs:232-747 | Every input leaves the state file equal to memory |
| Persistence.RestartResetsVolatile | src/raft/node.rs:114-149 | A restart between steps keeps term, vote and log and resets every volatile field |
| CommitSteps.CommitScanFacts | src/raft/node.rs:678-710 | The commit loop ends at the greatest index above the old one that has the current term and a majority count, or at the old one if there is none |
| ApplyOrder.ApplyOrderTheorem | src/raft/node.rs:565-594 | Over one uptime, for any inputs, the emitted ApplyEntry indices increase strictly from the first last_applied to the last |
| ApplyOrder.ApplySkipsNothing | src/raft/node.rs:565-594 | Every index passed was emitted with the command then in the log, unless it was a Noop |
| CatchUp.CatchUpTheorem | src/raft/node.rs:616-661 | If a follower's log is a prefix of the leader's and its term is no higher, then from any next_index at least 1 two request/reply rounds make the logs equal and set match_index to the leader's last index |
| CatchUp.BackOffTheorem | src/raft/node.rs:477-491 | For any leader and any follower of no higher term with matching logs: repeated rounds ever make the logs equal if and only if the follower's log is a prefix of the leader's, or next_index points inside both logs behind an entry of equal term and the follower does not hold the leader's whole log; if they ever do, two rounds are enough, and if not, the follower's log never changes |
| BackOff.BackOffInRuns | src/raft/node.rs:639-661 | The same in every reachable state, for every leader and every peer of no higher term; the leader always tracks that peer |
| BackOff.FollowerNeverCatchesUp | src/raft/node.rs:486-489 | A run of three nodes without any hazard reaches a leader and a peer that no number of rounds will reconcile |
| Convergence.ConvergenceTheorem | src/raft/node.rs:443-665 | In every state of every permitted run, for every leader and every peer of no higher term that can be reconciled: a permitted run of ticks and deliveries between the two gives the peer the leader's log, and commits and applies on it what the leader has committed |
| Convergence.RoundInRun | src/raft/node.rs:212-224 | A round of request and reply is carried out by ticks of the leader and two deliveries, none of them a hazard when the reply claims no more than the request covered |
| NodeDuties.VoteGrantedExactly | src/raft/node.rs:304-382 | A vote is granted exactly to a candidate of no older term for whom the voter is free, whose log ends in a later term or in the same term at no earlier index; term, vote and timer afterwards |
| NodeDuties.ElectionOrder | src/raft/node.rs:351-362 | The election restriction is a total preorder on logs; a longer log of the same history is never behind |
| NodeDuties.ElectableExists | src/raft/node.rs:351-362 | In any group of nodes there is one for whose log all of them would vote |
| NodeDuties.FollowerCommits | src/raft/node.rs:534-556 | An accepted request moves the commit index to the smaller of the leader's and the end of the log, applies every non-Noop entry passed, and reports the end of the log; without news of commits there is only the reply |
| NodeDuties.LaterTermStepsDown | src/raft/node.rs:304-616 | Any message of a later term that concerns the node makes it a follower of that term without tracking vectors, and saves that; a reply that does not concern it changes nothing |
| NodeDuties.OlderTermRefused | src/raft/node.rs:452-462 | A request of an older term is refused with the newer term and changes nothing |
| NodeDuties.HintlessRejection | src/raft/node.rs:651-661 | A rejection without a hint moves that peer's next_index back by one, not below 1, and nothing else |
| NodeDuties.LeaderHeard | src/raft/node.rs:464-472 | A request of no older term makes its sender the known leader and restarts the election timer between 30 and 60 ticks |
| NodeDuties.OpenedTimers | src/raft/node.rs:157-171 | A node opens with an election timer between 30 and 60 ticks |
| NodeDuties.NextSeedApart | src/raft/node.rs:157-163 | The timeout generator never stands still, and different seeds have different successors |
| NodeDuties.SeedsStayApart | src/raft/node.rs:157-163 | Nodes with different ids never draw from the same seed at the same turn |
| NodeDuties.QuietUntilTimeout | src/raft/node.rs:193-206 | Until its election timer runs out, a node that does not lead only counts down |
| NodeDuties.StandsAtTimeout | src/raft/node.rs:232-278 | When it runs out, the node stands in the next term and asks every other peer for its vote, or leads at once if its own vote is a majority |
| NodeDuties.ReplicationExactly | src/raft/node.rs:755-810 | Replication sends to exactly the tracked peers other than the node itself, each what its next_index calls for |
| NodeDuties.HeartbeatSent | src/raft/node.rs:212-224 | A leader's ticks are silent until its timer has run down, and then send exactly that and start the timer over |
| NodeDuties.HeartbeatWithinInterval | src/raft/node.rs:212-224 | Of any three ticks of a leader in a row, some tick sends every tracked peer its request |
| NodeDuties.WinnerSpeaks | src/raft/node.rs:419-429 | A node that wins knows itself as leader, starts every other peer at the end of its log with nothing matched, sends to each at once, and again on its next tick |
| RaftLogs.RaftLog.constructor | src/raft/log.rs:55-63 | A new log holds only the sentinel |
| RaftLogs.RaftLog.FromSaved | src/raft/log.rs:161-169 | A log rebuilt from saved entries is those entries, or a new log when there are none |
| RaftLogs.RaftLog.Append | src/raft/log.rs:100-103 | Adds one entry at the end and returns its index |
| RaftLogs.RaftLog.AppendEntries | src/raft/log.rs:107-114 | Adds the entries at the end and returns the last index |
| RaftLogs.RaftLog.Truncate | src/raft/log.rs:126-133 | Removes the index and everything after it; an index past the end removes nothing; the log stays valid exactly when the index is not 0 |
| RaftNodes.RaftState.constructor | src/raft/state.rs:104-118 | A follower of term 0 with an empty log |
| RaftNodes.RaftState.BecomeFollower | src/raft/state.rs:125-137 | Takes a higher term and forgets the vote only then; always drops the tracking vectors |
| RaftNodes.RaftState.BecomeCandidate | src/raft/state.rs:143-148 | Next term, own vote, no known leader |
| RaftNodes.RaftState.BecomeLeader | src/raft/state.rs:153-174 | Tracks every other peer from the end of the log, with nothing matched |
| RaftNodes.RaftNode.WithPersistence | src/raft/node.rs:114-149 | The node is the one the state file describes, with volatile fields reset |
| RaftNodes.RaftNode.ResetTimeout | src/raft/node.rs:157-171 | The next seed of the generator, and a timeout between 30 and 60 ticks from it |
| RaftNodes.RaftNode.PersistState | src/raft/node.rs:819-834 | The file holds the node's term, vote and log |
| RaftNodes.RaftNode.Tick | src/raft/node.rs:179-224 | The new state and the actions are those of the tick step function |
| RaftNodes.RaftNode.BeginElection | src/raft/node.rs:232-278 | The new state and the actions are those of the election step function, the lone-node win included |
| RaftNodes.RaftNode.OnRequestVote | src/raft/node.rs:304-382 | The new state and the reply are those of the vote step function |
| RaftNodes.RaftNode.OnRequestVoteResponse | src/raft/node.rs:388-432 | The new state and the actions are those of the vote-reply step function |
| RaftNodes.RaftNode.OnAppendEntries | src/raft/node.rs:443-559 | The new state and the actions are those of the append step function |
| RaftNodes.RaftNode.ResolveConflict | src/raft/node.rs:501-520 | The loop stops at the first entry the log does not already hold with the same term, and truncates there if the log reaches that far |
| RaftNodes.RaftNode.ApplyCommittedEntries | src/raft/node.rs:565-594 | The loop moves last_applied to the target and emits the non-Noop entries passed |
| RaftNodes.RaftNode.OnAppendEntriesResponse | src/raft/node.rs:599-665 | The new state and the actions are those of the append-reply step function |
| RaftNodes.SetTracked | src/raft/node.rs:621-632 | The loop overwrites the value of the first pair with the given id and nothing else |
| RaftNodes.RaftNode.MaybeAdvanceCommitIndex | src/raft/node.rs:678-710 | The ascending loop ends at the greatest committable index, and everything up to it is applied |
| RaftNodes.RaftNode.CountReplicas | src/raft/node.rs:690-696 | The leader itself plus the peers whose match index reaches the index |
| RaftNodes.RaftNode.Propose | src/raft/node.rs:724-747 | None and no change unless leader; otherwise the state and actions of the proposal step function |
| RaftNodes.RaftNode.ReplicateToAllPeers | src/raft/node.rs:755-769 | One request for every tracked peer but itself, in peer order |
| RaftNodes.RaftNode.Replicate | src/raft/node.rs:779-810 | The request a peer's next_index calls for, or none if the peer is not tracked |
| ReplicatedStores.ReplicatedStoreTheorem | src/cluster.rs:207-229 | For every permitted run with clean proposals: a node holds exactly its applied commands, each applied once, if and only if the log it has applied since its last restart writes every key it ever wrote, and so certainly once it has applied again all it ever had; its file always agrees with its table; two such nodes with equal last_applied hold the same data |
| ReplicatedStores.WorldInvStep | src/cluster.rs:207-229 | Every permitted step keeps: each engine is its applied log prefix on top of writes of an earlier applied prefix, in step with its file |
| ServerCluster.ProcessedExactly | src/cluster.rs:207-260 | Processing actions queues one message for each action that is no ApplyEntry, in order, applies the others in order, and touches nothing else |
| ServerCluster.QueueIsOutbox | src/cluster.rs:231-257 | The envelopes made of the queued messages are exactly those the step system sends |
| ServerCluster.ServerTakesExactly | src/transport.rs:239-261 | A complete node that takes a tick, a proposal, a message or a restart moves its Raft state, its engine and its queue as the step system and the replicated store say |
| ServerCluster.WriteIsProposal | src/cluster.rs:117-180 | A client's SET or DEL is a proposal to the leader's Raft node that leaves its index to wait for; anywhere else it is the redirection or the NOTLEADER error, and changes nothing |
| ServerCluster.OtherCommandsOnlyAnswer | src/cluster.rs:99-190 | Every other command only answers, and leaves no index to wait for |
| ServerCluster.StepMirrors | src/transport.rs:239-261 | Over every event complete nodes stay in step with the cluster and the engines, and the network gains exactly what the node queued |
| ServerCluster.ClientsAgree | src/cluster.rs:101-117 | For every permitted run with clean proposals, two nodes that have applied as many entries, and whose applied entries write every key they ever wrote, give every client the same answer to every GET |
| ServerCluster.FollowerAnswersLikeLeader | src/cluster.rs:101-117 | A peer that can be reconciled comes, by a permitted run of ticks and deliveries, to answer every GET like its leader |
| AppliedLogs.ProcessedStore | src/cluster.rs:207-229 | Processing actions writes the applied commands to the engine in order, and leaves the Raft state alone |
| AppliedLogs.ApplyActionsWrite | src/raft/node.rs:565-594 | The actions that apply a stretch of the log write exactly that stretch |
| AppliedLogs.AcceptedIsLogged | src/cluster.rs:131-151 | A write is accepted exactly by a leader, which then has it last in its log, saved, and named by pending_commit_index; otherwise nothing changes |
| SingleNodes.SingleNodeRefinement | src/cluster.rs:99-229 | For a lone node, every interleaving of commands, ticks and restarts makes GET answer as a plain map updated by each accepted SET and DEL (clean fields) |
| SingleNodes.SetSurvivesRestart | src/storage/wal.rs:45-117 | An accepted SET is read back before a restart in any case, and after it if and only if its fields are clean |
| SingleNodes.CatchingUp | src/storage/engine.rs:48-61 | Applying any tail of a log again and then one more command gives the longer log applied once |
| SingleNodes.LonePropose | src/raft/node.rs:724-747 | A proposal to a lone leader commits and applies at once everything not yet applied |
| SingleNodes.LoneNodeElectsItself | src/raft/node.rs:251-257 | A lone node leads once its election timer has run out, and goes on leading |
| SingleNodes.WritesAcceptedAfterRestart | src/cluster.rs:131-151 | Sixty ticks after any restart a lone node accepts a SET of a key that is its own |
| ClusterNodes.ClusterNode.constructor | src/cluster.rs:49-67 | The node opened on its two files, without sharding, in shard 1 |
| ClusterNodes.ClusterNode.WithSharding | src/cluster.rs:70-92 | The same with a router of 64 virtual nodes per shard |
| ClusterNodes.ClusterNode.HandleClientCommand | src/cluster.rs:99-191 | The new state and the response are those of the command step function: redirect, read, propose, error |
| ClusterNodes.ClusterNode.CheckShard | src/cluster.rs:103-111 | The MOVED reply for a key that is not this shard's, with shard 0 when the ring is empty |
| ClusterNodes.ClusterNode.Tick | src/cluster.rs:197-200 | A Raft tick whose actions are processed |
| ClusterNodes.ClusterNode.ProcessActions | src/cluster.rs:207-260 | The loop applies or queues every action in order |
| ClusterNodes.ClusterNode.TakeOutboundMessages | src/cluster.rs:263-271 | Hands over the queue and leaves it empty |
| Wals.RoundTrip | src/storage/wal.rs:45-117 | For entries without newlines, replay of the printed lines returns in order exactly those with no bar in a field, each without a carriage return at the end of its line |
| Wals.RoundTripExactly | src/storage/wal.rs:45-117 | For every sequence of engine-made entries, replay returns it unchanged if and only if every entry is free of newlines and bars and its line does not end in a carriage return |
| Wals.LineFormat | src/storage/wal.rs:45-57 | The text of a put and of a delete in the file |
| Wals.ParsedIsPrinted | src/storage/wal.rs:96-113 | The reader accepts nothing but printed lines |
| Wals.TornTail | src/storage/wal.rs:88-117 | Replay of a file cut at any character gives every entry whose newline survived, in order, and at most one more, which has the torn entry's operation and part of its last field |
| Wals.CompleteCounts | src/storage/wal.rs:62-67 | Which entries count as complete: those whose text, newline included, lies before the cut |
| Wals.AppendReadsBack | src/storage/wal.rs:62-67 | A clean entry appended to any file is read back after what the file said before if and only if the file is empty or ends in a newline |
| Wals.Wal.constructor | src/storage/wal.rs:31-42 | Opening does not change the file |
| Wals.Wal.Append | src/storage/wal.rs:62-67 | The file grows by the printed entry |
| Wals.ReadLines | src/storage/wal.rs:96-114 | The loop over the lines collects the entries of the well-formed ones, in order |
| Wals.Wal.Replay | src/storage/wal.rs:88-117 | The entries of the well-formed lines of the file, in order |
| Storage.RecoveryTheorem | src/storage/engine.rs:26-110 | Over any run of clean writes and reopenings on a file that does not end in a torn line, the table is the old one with every write applied once, and reopening gives it again |
| Storage.TornRecovery | src/storage/engine.rs:26-72 | Reopening a file cut at any character gives the table of the entries whose newline survived; only if the cut falls inside a line may one slot differ: the torn put's key holding part of its value, or a key that begins the torn delete's key deleted |
| Storage.ReapplicationConvergesExactly | src/storage/engine.rs:48-61 | A file holding any prefixes of one command sequence recovers the table of the last prefix applied once if and only if that prefix writes every key the earlier ones wrote |
| Storage.ReapplicationConverges | src/storage/engine.rs:48-61 | So in particular when the last prefix is at least as long as every earlier one |
| Storage.ReapplicationReadsExactly | src/storage/engine.rs:121-127 | The recovered reads are those of the last prefix if and only if every key only the earlier prefixes wrote was last deleted by them |
| Storage.ShorterPrefixDiverges | src/storage/engine.rs:48-61 | An example: two puts applied whole and then only the first leave the second key behind |
| Storage.LastWriteWins | src/storage/memtable.rs:31-56 | After any entries, a key holds what the last entry on it gave it, whatever the table held before |
| Storage.RebuiltKeeps | src/storage/memtable.rs:31-56 | A key no entry writes keeps its slot |
| Storage.Memtable.constructor | src/storage/memtable.rs:22-27 | An empty table |
| Storage.Memtable.Put | src/storage/memtable.rs:31-47 | The key holds the value; other keys are untouched |
| Storage.Memtable.Delete | src/storage/memtable.rs:51-56 | The key holds a tombstone; other keys are untouched |
| Storage.Memtable.Get | src/storage/memtable.rs:68-80 | Tells a missing key from a deleted one from a value |
| Storage.StorageEngine.constructor | src/storage/engine.rs:26-72 | The recovery loop builds the table of the replayed entries and leaves the file alone |
| Storage.StorageEngine.Put | src/storage/engine.rs:79-94 | The printed entry goes to the file and the value to the table |
| Storage.StorageEngine.Delete | src/storage/engine.rs:99-110 | The printed entry goes to the file and a tombstone to the table |
| Storage.StorageEngine.Get | src/storage/engine.rs:121-127 | A deleted and a missing key both read as none |
| Hashing.HashSeparates | src/sharding/ring.rs:122-143 | Two keys of equal length that differ in exactly one byte never get the same position |
| Hashing.HashSeparatesKeys | src/sharding/ring.rs:122-143 | Two keys that differ in one character whose encodings have equal length and differ in one byte never get the same position |
| Hashing.CharReadsBack | src/sharding/ring.rs:127 | The UTF-8 bytes of a character, followed by anything, read back as that character |
| Hashing.StringBytesInjective | src/sharding/ring.rs:127 | Different keys are different byte sequences |
| Hashing.ZeroByteHash | src/sharding/ring.rs:124-130 | A zero byte multiplies, which from the offset gives the published FNV-1a value of one |
| Hashing.FnvInjective | src/sharding/ring.rs:127-130 | Different hash states stay different over the same bytes |
| Hashing.FinalizeUndoes | src/sharding/ring.rs:136-140 | The finalizer has a left inverse on 64-bit words |
| Hashing.FinalizeOnto | src/sharding/ring.rs:136-140 | The same function is a right inverse, so the finalizer is a bijection |
| Hashing.XorShiftUndoes | src/sharding/ring.rs:136-140 | The 33-bit xor-shift undoes itself on 64-bit words |
| Hashing.ComputeHash | src/sharding/ring.rs:122-143 | The loop and the mixing steps compute the hash of the key's UTF-8 bytes, a 64-bit word |
| HashRings.ClockwiseLookup | src/sharding/ring.rs:70-94 | On a non-empty ring the owner is the label of the one point that minimises the clockwise distance modulo 2^64 |
| HashRings.AddMovesMinimally | src/sharding/ring.rs:41-49 | Adding points moves exactly the keys one of them cuts off, all to the new shard, and no other key, colliding points included |
| HashRings.RemoveMovesOnlyItsOwn | src/sharding/ring.rs:56-60 | Removing a shard changes the owner of no key it did not own, and leaves it no key |
| HashRings.AddThenRemove | src/sharding/ring.rs:41-60 | Adding an absent shard and removing it gives the ring back if and only if its points miss all existing ones |
| HashRings.VnodeNamesDiffer | src/sharding/ring.rs:45 | Every virtual node of every shard has a name of its own |
| HashRings.ShardsHaveOwnPoints | src/sharding/ring.rs:41-49 | The i-th points of two shards with single-digit ids never coincide |
| HashRings.VnodesHaveOwnPoints | src/sharding/ring.rs:41-49 | Points of one shard whose numbers differ only in the last digit never coincide |
| HashRings.DecimalReadsBack | src/sharding/ring.rs:45 | A printed number reads back as that number |
| HashRings.HashRing.constructor | src/sharding/ring.rs:29-34 | An empty ring |
| HashRings.HashRing.AddShard | src/sharding/ring.rs:41-49 | The loop labels the position of each virtual node with the shard |
| HashRings.HashRing.RemoveShard | src/sharding/ring.rs:56-60 | Exactly the points of other shards stay |
| HashRings.HashRing.GetShard | src/sharding/ring.rs:70-94 | None on an empty ring, else the label of the next point clockwise with wraparound |
| Routers.UniqueOwnership | src/sharding/router.rs:38-93 | After any adds and removes, while the ring has a point, each key belongs to exactly one shard id and routing returns a configuration held for that id |
| Routers.RingHistory | src/sharding/router.rs:38-93 | A position bears exactly the label of the last shard added over it, unless that shard was removed since |
| Routers.ConfigHistory | src/sharding/router.rs:84-93 | A router holds exactly the configurations added, node ids and leader port included, whose shard was not removed since |
| Routers.RouterHistory | src/sharding/router.rs:38-46 | A router made from a list of shards is an empty one to which they were added in order |
| Routers.AddedShardIsOnRing | src/sharding/router.rs:84-87 | A shard just added answers for the position of each of its virtual nodes |
| Routers.FindsFirst | src/sharding/router.rs:52-56 | Routing finds the first configuration with the id, or none if there is none |
| Routers.AddMovesKey | src/sharding/router.rs:84-87 | Adding a shard leaves a key's owner alone or makes it the new shard |
| Routers.RemoveMovesKey | src/sharding/router.rs:90-93 | Removing a shard leaves every key it did not own |
| Routers.Router.constructor | src/sharding/router.rs:38-46 | The loop puts every configured shard on the ring |
| Routers.Router.Route | src/sharding/router.rs:52-56 | The first configuration with the owner's id |
| Routers.Router.GetShardId | src/sharding/router.rs:59-61 | The owner of the key |
| Routers.Router.KeyBelongsToShard | src/sharding/router.rs:67-72 | True exactly for the owner |
| Routers.Router.AddShard | src/sharding/router.rs:84-87 | Ring and configurations gain the shard |
| Routers.Router.RemoveShard | src/sharding/router.rs:90-93 | Ring and configurations lose the shard |
| Redirects.MovedNamesOwner | src/cluster.rs:102-159 | While the ring has a point, one shard serves a key, and a node of any other shard changes nothing and answers GET, SET and DEL on it with the one MOVED text that names that shard |
| Redirects.NoShardsMovesToZero | src/cluster.rs:102-159 | After any adds and removes that leave no shard configured, every node, whatever its own shard, answers GET, SET and DEL on every key with a MOVED to shard 0 and changes nothing |

## Left out

- TCP, threads, mutexes, sleeps and JSON encoding (src/transport.rs, src/network/server.rs): message delivery is a step of the cluster; only the dispatch of a message to its handler is modelled.
- await_commit (src/network/server.rs:236-253): polls the wall clock and compares an index but not a term, so no statement about acknowledged writes rests on it.
- Failing saves, loads and file writes, and partly written state files: saves and loads succeed; the state file is a cell and the write-ahead log a character sequence.
- RaftNode without a persister (src/raft/node.rs:95-108): every node here has a state file.
- Crashes in the middle of a handler: a restart happens between steps.
- Integer widths of terms, indices, ids and timers: unbounded, except in the hash and the timeout generator, where 64-bit wrap-around is written out.
- Membership: every node has the same peer list and the nodes are exactly its members; the safety theorem also assumes the list has no duplicates.
- Liveness of elections with more than one node, the quality of the timeout generator and the evenness of the key distribution.
- RESP parsing and response printing (src/network/protocol.rs): commands and responses are values.
- Memtable byte accounting, iteration and clearing, shard counting, metrics, console output, and the deployment files: easy, or not logic.
