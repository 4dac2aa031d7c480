# Verified models of three small distributed systems

Three programs are modelled here, each in its own group of Dafny modules.

**A replicated key-value store (`2/server`).** Servers elect leaders by majority vote, a leader copies its log to
the others, a majority rule raises the commit index, and committed entries are applied to a string map. Term and
vote, and the log, live in two files that survive a crash.

- `Quorums`, `CommitIndex`: strict majorities, and the loop that computes the commit index.
- `RaftNode`: what each lock section does to one server, as pure functions. `Outcomes` says what they leave behind, as
  relations between the states before and after. `Server`, `LogFile` and `Db` hold the same operations as objects
  that update their fields, arrays and files in place; each method is proved equal to its function and to have its
  outcome.
- `Cluster`: any number of servers and a network that may lose, duplicate and reorder everything, as a state
  machine. An event is one lock section, or one step of the two sections that hold the lock while messages are
  exchanged (a campaign and a heartbeat round); a crash may also fall between two writes of the append handler.
  `Reachable` is the set of states that runs from a fresh cluster of at least two servers lead to, crashes and
  restarts included. Its flag `ordered` adds an assumption: the append requests of one term reach a server in the
  order they were sent to it (they may still be lost, and the last one may come again), and no crash falls inside the
  handling of one.
- `Elections`, `Leadership`, `Replication`, `EraExact`, `ApplyOnce`: what holds over every run and every network.
- `Completeness`, `Applied`: what holds exactly while no write cuts into what was acknowledged. `Ordered` shows that
  runs in order are of that kind, `Loss` what happens otherwise.
- `Safety`, `Eras`, `Continuations`, `Divergence`: when exactly all servers apply the same entries.
- `Backoff`: the search for the point where two logs agree, for logs with arbitrary terms.

The code differs from the Raft paper (Ongaro and Ousterhout, "In Search of an Understandable Consensus Algorithm",
sections 5.2 to 5.4) in ways the model keeps. Client entries are never stamped with a term, so all of them have
term 0; the commit rule does not look at terms; an append request overwrites the vote and always cuts what follows its
previous index; a reply with a higher term clears only the leader flag; and the bound in `CommitChanges` is tested with
`<` where `<=` is needed. So leader completeness, log matching and state machine safety, which the paper promises, are
not given unconditionally. What is given is proved with its exact conditions, each a test on one request at the
server that gets it:

- The first missing test: if the server acknowledged something in the request's term, the log is not left shorter than
  that. Over any network, a step keeps what was acknowledged if and only if its write passes this test
  (`Completeness.GuardExact`). In every run whose writes pass it, leader completeness and durability hold, no slice
  leaves the log, and what a server applied is the beginning of its log (`Completeness`, `Applied`). Runs in order are
  of that kind (`Ordered.OrderedKeeps`). Otherwise one late message is enough to lose a committed entry
  (`Loss.CommitLost`).
- The second missing test: that the part of its log a follower keeps is the beginning of its leader's log. It is exactly
  what keeps every log a prefix of its leader's, over any network (`Safety.TestExact`, `EraExact.EraPrefixIff`); without
  it a log is a graft of two, in a way that is known exactly (`EraExact.LogIsGraft`). In every run whose writes pass
  both tests, with any number of servers, leaders and crashes, any two commits agree in content, and of what two
  servers applied, at whatever two moments, one is a prefix of the other (`Safety.CommitsAgree`, `Safety.AppliedAgree`).
- Every run of two servers passes the second test, and every run until a second election is won (`Eras`).
- With three or more servers, from every state reached in order some continuation in order makes two servers apply
  different sequences (`Divergence.StateMachinesDiverge`), and some run leads to a log that is no prefix of its
  leader's (`Divergence.LogsDiverge`). So state machine safety holds over all runs of a cluster, in order or merely
  keeping what was acknowledged, if and only if it has two servers (`Divergence.SafeIffTwoServers`).

**A last-writer-wins map (`3/server`).** Every replica stamps its writes and deletions with a
(time, id) pair and broadcasts them to all replicas, itself included. `LwwReplica` has one replica's objects,
`LwwSystem` all replicas with the broadcasts between them, delivered in any order and, as they are retried, any
number of times.

**A scatter/gather integrator (`1/`).** A client cuts a list of points into chunks, sends each to a worker, sends it
again elsewhere when a connection fails, and adds up the answers. `Integrator` has the chunks, the wire format, the
workers and the sums; `SocketSet` the poll loop and its in-place removal of sockets; `RequestSender` the retrying
request multiplexer on top of it; `Gathering` the whole calculation through that multiplexer.

## Model

| member | source | states |
|---|---|---|
| CommitIndex.CalcCommitIndex | 2/server/raft.go:213-240 | the loop returns the greatest recorded match index that strictly more than half of the nodes have reached |
| CommitIndex.SortedPositionIsCommitIndex | 2/server/raft.go:214-234 | that index is the element at position n - n/2 - 1 of the sorted indexes |
| CommitIndex.CommitIndexHasFollower | 2/server/env.go:23-23 | with two or more nodes some follower has reached the returned index, so it is never the leader's own maximum marker |
| Elections.ElectionSafety | 2/server/raft.go:317-378 | in every reachable state, under any network and with crashes, no term has two winners, and a winner had a majority |
| Elections.OneVotePerTerm | 2/server/raft.go:53-88 | no server grants two different vote requests of one term, although append requests overwrite the vote |
| Elections.GrantExact | 2/server/raft.go:53-88 | in every reachable state a vote is given if and only if the request's term is not behind, no vote was given in that term, and the candidate's log was at least as long; a later term is taken over in any case and ends leadership |
| Elections.CountExact | 2/server/raft.go:343-377 | in every reachable state a counted vote ends the campaign for an answer of a later term first, then for a majority of yes, which wins the election, then for a majority of no, and otherwise goes on |
| Elections.LeadershipCoherent | 2/server/raft.go:368-377 | a server that calls itself leader has leader bookkeeping, and one with bookkeeping won its current term and is not campaigning |
| Elections.LeaderHearsNoRival | 2/server/raft.go:411-424 | a server with leader bookkeeping never receives an append request of its own current term |
| Leadership.LeadershipExact | 2/server/raft.go:200-203 | in every reachable state a step leaves a server its leader flag if and only if it wins an election, or had the flag, keeps its bookkeeping, and counts no answer of a higher term; and its bookkeeping if and only if it wins one, or had it and stays in the term without a crash |
| Leadership.DeposedUntilWin | 2/server/raft.go:200-250 | after a leader counted an answer of a higher term, in every continuation it begins no broadcast until it wins an election again |
| Leadership.LeadsWhileUnsurpassed | 2/server/raft.go:200-210 | over any run in which it stays in its term without a crash, a leader keeps its bookkeeping, and its flag if and only if no answer it counts is of a higher term |
| Elections.StepKeepsElections | 2/server/raft.go:53-88 | every event keeps the votes, campaigns, wins and messages consistent with one another |
| Replication.QuorumCommit | 2/server/raft.go:242-274 | every raise of a commit index is backed by a strict majority, the winner of that term among them, each of which held or acknowledged more entries than the index in that same term, whichever replies the calculation had seen |
| Replication.NewCommit | 2/server/raft.go:268-272 | the index the commit rule yields is inside the leader's log and held by such a majority |
| Replication.StepKeepsReplication | 2/server/raft.go:151-211 | every event keeps the leader's next and match indexes, the requests under way, the answers and the logs consistent |
| Replication.SentSlice | 2/server/raft.go:151-164 | a leader's request is the rest of its log after the follower's next index, which starts inside the log of the election unless the follower has acknowledged this leader |
| Replication.AppendFaithfulIff | 2/server/log.go:160-193 | an accepted request makes the follower's log the leader's if and only if the part it keeps agrees, which the code does not test |
| EraExact.LogIsGraft | 2/server/log.go:160-193 | over every run and network a server no leader wrote to has an empty log, and any other's log is exactly what it came with, up to the shorter of that and the log its leader was elected with, and from there on its leader's log |
| EraExact.EraPrefixIff | 2/server/raft.go:427-438 | over every run and network, the log of a server some leader wrote to is a prefix of the log of the leader that last wrote it if and only if the two were comparable when it joined |
| Completeness.GuardExact | 2/server/log.go:174-177 | over any network a step keeps what all servers acknowledged in their current terms if and only if its write, if any, leaves the log at least as long as what was acknowledged in the request's term |
| Completeness.LeaderCompleteness | 2/server/raft.go:53-88 | in every run whose writes pass the first test, over any network and with crashes, also inside the append handler, every winner of a later term starts with a log longer than every index committed before |
| Completeness.CommittedLengthStays | 2/server/raft.go:411-440 | in every such run no server of the majority behind a commit ever again has a log that short |
| Completeness.CommittedEntriesStay | 2/server/log.go:160-193 | in every such run the entries up to a committed index that a server of the majority behind it has are the ones it always has |
| Completeness.StepSafe | 2/server/raft.go:53-88 | every such step keeps, for each index a majority holds or may still come to hold, the holders' logs, the logs they join later eras with, their later votes and all later winners above it |
| Ordered.OrderedKeeps | 2/server/raft.go:411-440 | every state reached with appends in order, and no crash inside the handling of one, is reached by a run whose writes pass the first test |
| Ordered.LeaderCompletenessInOrder | 2/server/raft.go:53-88 | so leader completeness holds for appends in order |
| Ordered.CommittedLengthStaysInOrder | 2/server/raft.go:411-440 | and so does durability |
| Loss.CommitLost | 2/server/log.go:174-177 | with three servers and one message late, a state is reached in which a server behind a commit no longer has the committed index and its pump is outside the log, and later another leader is elected without it |
| Applied.PumpExact | 2/server/env.go:50-75 | over any network, from a state where no slice has left the log, a step keeps that if and only if the request it accepts, if any, leaves the log longer than the server's commit index |
| Applied.CommitsInRange | 2/server/env.go:50-75 | in every run whose writes pass the first test the slices CommitChanges takes never leave the log in spite of the off-by-one bound; lastApplied is the commit index and below the log's length, and as many entries were queued |
| Applied.AppendsNeverPanic | 2/server/raft.go:427-434 | in every such run no request that arrives and passes the test drops the sentinel or makes the commit part leave the log |
| Applied.CommitsInRangeInOrder | 2/server/env.go:50-75 | so the slices stay in the log for appends in order |
| Applied.AppendsNeverPanicInOrder | 2/server/raft.go:427-434 | and no request in order makes the code panic |
| Applied.AppliedIsLog | 2/server/env.go:50-75 | in every run whose writes pass the first test, what a server applied is the beginning of its log, whatever leaders wrote to it |
| Applied.StoreIsFold | 2/server/db.go:15-53 | in every such run the drained store is the fold of log positions 1 to lastApplied, also after a restart replayed from empty |
| Safety.TestExact | 2/server/log.go:160-187 | over any network a step keeps all joins agreeing if and only if what it writes, if anything, follows a part that is the beginning of its leader's log, which is the test CheckAndCorrect lacks |
| Safety.StepContentSafe | 2/server/raft.go:411-440 | every step that passes both tests keeps this: whoever holds an index that a majority holds, or may still come to hold, has the content of that term's leader |
| Safety.StepKeepsSafety | 2/server/env.go:50-75 | every such step keeps what each server applied equal to the beginning of its log and to the content of a commit |
| Safety.CommitsAgree | 2/server/raft.go:268-272 | in every run that passes both tests, the contents of any two commits agree, whichever leaders made them |
| Safety.AppliedAgree | 2/server/env.go:50-75 | in every such run, of what one server had applied at some moment and what any server has applied at that or a later moment, one is a prefix of the other, for any number of elections and crashes in between |
| Eras.SoleEraAgrees | 2/server/raft.go:411-440 | until a second election is won every run passes the second test |
| Eras.TwoServersAgree | 2/server/raft.go:411-440 | every run of two servers passes the second test, over any network |
| Eras.TwoServersApplied | 2/server/env.go:50-75 | with two servers, in every run whose writes pass the first test, of what any two servers applied, at whatever two moments, one is a prefix of the other |
| Eras.SoleEraLogs | 2/server/raft.go:427-438 | until a second election is won every log is a prefix of the one leader's, under loss, duplication, reordering and crashes |
| Eras.SoleEraApplied | 2/server/env.go:50-75 | until then, in runs whose writes pass the first test, of what any two servers applied, at whatever two moments, one is a prefix of the other |
| Divergence.StateMachinesDiverge | 2/server/env.go:84-91 | with three or more servers, from every state reached with appends in order some continuation in order makes two servers apply sequences of which neither is a prefix of the other |
| Divergence.SafeIffTwoServers | 2/server/raft.go:53-88 | state machine safety over time, for all runs in order and equally for all runs whose writes pass the first test, holds if and only if the cluster has two servers |
| Divergence.LogsDiverge | 2/server/log.go:160-187 | with three or more servers a state is reachable in which a server's log is no prefix of the log of the leader it follows, and the two were not comparable when it joined |
| Divergence.BadJoinDiverges | 2/server/log.go:174-184 | while a leader still leads a majority that has joined it, one member with a log that did not agree, some continuation without any election and without any further join makes that leader and that member apply different sequences |
| ApplyOnce.AppliesInOrder | 2/server/env.go:50-75 | within one process lifetime, under any network and across role changes, every event continues the queue with log positions lastApplied + 1, lastApplied + 2, ... |
| ApplyOnce.RepliesExactlyOnce | 2/server/db.go:15-30 | a client waiting on an applied entry gets exactly one reply, the store's outcome at that position, so the one-slot channel never blocks |
| ApplyOnce.ClientHears | 2/server/env.go:84-91 | from a client's command on, in every continuation without a restart of the server in which the entry stays in the log until its position is applied, the channel the client waits on gets nothing before and then exactly one reply, the outcome of the client's own operation at that position |
| ApplyOnce.CountingRefines | 2/server/raft.go:334-366 | the vote-counting loop computes what the cluster's counting events compute one by one |
| RaftNode.PollFirst | 2/server/raft.go:338-365 | of the answers to a campaign the first that is of a later term, or completes a majority of yes or of no, decides, tested in this order; without one it stays undecided |
| Outcomes.CommitOutcome | 2/server/env.go:50-75 | for all inputs the pump applies up to the new commit index or the end of the log, and fails if and only if the index is just the log's length, which the bound lets pass, or that end is behind what was applied |
| Outcomes.VoteOutcome | 2/server/raft.go:53-88 | for logs with arbitrary terms a vote is given if and only if the request is of no earlier term, no vote was given in its term, and the candidate's log is no older by term and then length; and what becomes of term, vote and leadership in each case |
| Outcomes.OneWouldVote | 2/server/raft.go:72-88 | of two servers that have not voted in a term at least one would give the other its vote |
| Outcomes.CampaignOutcome | 2/server/raft.go:322-377 | a campaign is for the next term, with its own vote first; the first deciding answer makes it follow a later term without a vote, win with fresh bookkeeping, or fail with its vote kept |
| Outcomes.PrepareOutcome | 2/server/raft.go:153-164 | a heartbeat carries the log after the follower's next index, or nothing when that is out of reach, with index and term of the entry before, the leader's term and its commit index |
| Outcomes.AppendOutcome | 2/server/raft.go:411-440 | a request is accepted if and only if it is of no earlier term and the log has the entry it builds on; what becomes of the log, with an entry of another term dropped, of term, vote and leadership, and of the commit part |
| Backoff.Converges | 2/server/raft.go:151-211 | for any two logs with matching, undisturbed exchanges make them equal within as many rounds as the initial next index, which falls by one a round and never below 1; the leader learns of it unless the last answer was lost because the commit part left the log, which it does not when no commit index is beyond the leader's log |
| Backoff.RoundOutcome | 2/server/raft.go:153-210 | one exchange either makes the logs equal, and the leader knows unless the answer was lost, or takes the leader one index back, and keeps the logs matching |
| Backoff.AcceptedIffAgrees | 2/server/log.go:160-187 | under log matching a request is accepted if and only if the part the follower keeps agrees with the leader's log |
| Server.PState.constructor | 2/server/state.go:19-33 | a process starts from the stored term and vote, or from term 0 and no vote |
| Server.PState.DumpPState | 2/server/state.go:56-78 | afterwards the file holds term and vote |
| Server.PState.SetVote | 2/server/state.go:49-54 | the vote is recorded and saved, the term kept |
| Server.Progress.NewLeaderState | 2/server/env.go:13-25 | the arrays filled in place are the bookkeeping of a new leader: every next index right after the log, every match index 0 but the leader's own |
| Server.TEnv.CommitChanges | 2/server/env.go:50-75 | both branches do what the cluster's step does, with the outcome stated for it, and fail exactly when the slice is not in the log |
| Server.TEnv.ApplyRequestSync | 2/server/env.go:84-91 | the last entry in log and file is the command, with the very channel handed to the client, the next in number |
| Server.TEnv.HandleRequestVote | 2/server/raft.go:53-88 | the handler refines the cluster's vote step, reply and saved state included, and has the outcome stated for it |
| Server.TEnv.TryBecomeLeader | 2/server/raft.go:317-378 | the campaign with its counting loop refines the campaign step and is decided by the first deciding answer |
| Server.TEnv.PrepareHB | 2/server/raft.go:153-164 | the request built is the one the cluster's step sends, with the outcome stated for it |
| Server.TEnv.FinishHB | 2/server/raft.go:200-210 | an answer of a higher term clears the leader flag and nothing else; any other sets or lowers that follower's next index, and on success its match index; as the cluster's step does |
| Server.TEnv.CommitRound | 2/server/raft.go:268-272 | the commit part of a heartbeat round refines the cluster's step with the index the majority rule defines: nothing unless that is higher, and then the pump's outcome for it |
| Server.TEnv.HandleAppendEntries | 2/server/raft.go:411-440 | the handler refines the cluster's append step, has the outcome stated for it, and keeps file and memory equal; it panics without an answer exactly when the sentinel would go or the commit part leaves the log |
| Server.TEnv.HandleAppendPartly | 2/server/raft.go:416-432 | the handler stopped by a crash before the log is touched or after some of the entries are written leaves in the files what the cluster's step of that kind does |
| Server.CrashRestart | 2/server/log.go:82-117 | stopping and starting again from the two files is exactly the cluster's crash step: term, vote and entries are kept, channels and all else are not |
| LogFile.HeaderRoundTrip | 2/server/log.go:41-65 | the four length bytes give the length back |
| LogFile.FrameLayout | 2/server/log.go:36-52 | an entry is written after its length, the least significant byte of which comes first |
| LogFile.RecoverAll | 2/server/log.go:54-117 | reading a complete file gives back the entries written, without their channels |
| LogFile.TornRecovery | 2/server/log.go:54-116 | for every byte prefix, recovery gives exactly the complete frames in it, except that a cut right after a length header is an error |
| LogFile.CompleteFrames | 2/server/log.go:95-116 | every cut has its number of complete frames, so the previous statement covers all cuts |
| LogFile.DeserializeEntry | 2/server/log.go:54-80 | the reader's outcome on every remainder of a file, by the length announced and the bytes left: an entry, the end, a cut frame, another error |
| LogFile.NewLog | 2/server/log.go:82-117 | a missing file gives the sentinel alone, any other the sentinel and what is recoverable, or an error; a cut tail goes if the system truncates and stays if not |
| LogFile.Reopen | 2/server/log.go:82-117 | closing and opening a log gives back its entries without channels |
| LogFile.TornConsumed | 2/server/log.go:95-116 | the offset kept while reading a cut file is the end of its complete frames |
| LogFile.ReopenTorn | 2/server/log.go:104-107 | after a cut file was opened, file and memory agree again if and only if the tail is gone, be it that the cut fell between frames or that truncation succeeded |
| LogFile.WLog.DumpLog | 2/server/log.go:119-139 | the file then holds exactly the frames of the entries after the sentinel |
| LogFile.WLog.Append | 2/server/log.go:141-154 | one entry more in memory and in the file |
| LogFile.WLog.CheckAndCorrect | 2/server/log.go:160-187 | yes exactly if the log has an entry of that term at that index; what follows it goes, and the entry too on a no; the file still mirrors memory, unless the request claims another term for the sentinel; then the log is lost from memory and writing it panics |
| LogFile.WLog.AppendEntries | 2/server/log.go:189-193 | all entries more in memory and in the file |
| Db.Store.Create | 2/server/db.go:63-73 | inserts exactly when the key is absent |
| Db.Store.Update | 2/server/db.go:75-85 | replaces exactly when the key is present |
| Db.Store.Delete | 2/server/db.go:87-97 | removes exactly when the key is present |
| Db.Store.Cas | 2/server/db.go:99-113 | replaces exactly when the stored value is the expected one |
| Db.Store.Get | 2/server/db.go:55-61 | the stored value, or nothing |
| Db.Store.CommitEntry | 2/server/db.go:39-53 | for each operation, when it succeeds and what it leaves in the map, and that this is the effect the fold uses |
| Db.StatusIff | 2/server/db.go:39-113 | in a fold of entries a Create succeeds if and only if its key is not there then, an Update or Delete if and only if it is, a Cas if and only if it is there with the expected value |
| Db.HoldsIff | 2/server/db.go:39-113 | after any entries a key is there if and only if a Create of it succeeded and no Delete of it after that, and has a value if and only if the last entry that succeeded on it is a Create, Update or Cas of that value |
| Db.Store.Consume | 2/server/db.go:22-27 | the store stays the fold of everything consumed, and every channel's replies stay those of the entries that carry it |
| Db.Store.Drain | 2/server/db.go:15-30 | the same for a whole batch |
| Db.OneReply | 2/server/db.go:22-27 | with distinct channels, the channel of the k-th entry gets exactly the status at that position |
| LwwReplica.CompareOrders | 3/server/clock.go:26-42 | the comparison is a strict total order, lexicographic by time and id |
| LwwReplica.TDb.Put | 3/server/db.go:25-39 | the write replaces what is stored exactly when it is later by time and then id, or nothing is stored; equal timestamps end the process |
| LwwReplica.TDb.Delete | 3/server/db.go:41-54 | the same for a deletion, which is stored as a tombstone |
| LwwReplica.TDb.Get | 3/server/db.go:56-64 | a key is found exactly when its newest operation is not a deletion |
| LwwReplica.TState.BroadcastToAll | 3/server/server.go:71-75 | one message for every replica |
| LwwReplica.TState.HandlePatch | 3/server/server.go:82-108 | one new timestamp for the request; the new messages are exactly, for each entry and each replica, a write of that entry's value to its key |
| LwwReplica.TState.HandleDelete | 3/server/server.go:114-139 | the same for deletions, which carry no text |
| LwwReplica.TState.HandleBroadcast | 3/server/server.go:181-201 | a delivered operation is merged into the store, the text of a deletion dropped |
| LwwSystem.Convergence | 3/server/db.go:25-64 | in every reachable state two living replicas with nothing on its way to them hold equal maps, tombstones included, however often and in whatever order broadcasts were applied |
| LwwSystem.StoresGreatest | 3/server/db.go:25-64 | at any moment a replica stores for a key an operation if and only if it was applied there and has the greatest timestamp of those applied for that key |
| LwwSystem.NewestRequestWins | 3/server/server.go:82-139 | from the requests of a run to the store: a living replica with nothing on its way to it has, for each key that some request names, exactly what the request with the greatest (time, id) asked for it, a value or a tombstone, and no other key; the time of a request is its number at its node |
| LwwSystem.TimestampSafety | 3/server/server.go:96-106 | while no request repeats a key and no broadcast is applied twice, no two operations on a key carry one timestamp, no replica dies and no delivery would be fatal |
| LwwSystem.LaterWriteWins | 3/server/server.go:96-106 | wherever a node's later write was applied, its earlier one is not what is stored, in whatever order they came |
| LwwSystem.FatalIff | 3/server/db.go:29-35 | in every reachable state a delivery is fatal if and only if an operation with its very timestamp was applied for the key and nothing newer |
| LwwSystem.DeathIffRepeat | 3/server/server.go:103-107 | a list of requests has an order of deliveries, each broadcast applied once, in which a replica dies, if and only if a request repeats a key |
| Integrator.TwoPoints | 1/server/calc.cpp:8-16 | two points give the left rule: the width times the height of the first |
| Integrator.SquareSplit | 1/server/calc.cpp:8-16 | the sum can be split at any point, which then ends one part and starts the other |
| Integrator.LastHeightUnused | 1/server/calc.cpp:8-16 | the height of the last point does not matter |
| Integrator.ConstantHeight | 1/server/calc.cpp:8-16 | a function constant on all points but the last is integrated exactly |
| Integrator.SumBetween | 1/server/calc.cpp:8-16 | for points from left to right the sum lies between the rectangles of the least and the greatest height, the last point's not counted |
| Integrator.ChunksConcat | 1/client/discovery.cpp:56-76 | the chunks joined are the input |
| Integrator.ChunksBounded | 1/client/discovery.cpp:59-62 | every chunk has at least two points and at most one more than the request size |
| Integrator.ChunksFull | 1/client/discovery.cpp:62-62 | every chunk but the last has exactly the request size |
| Integrator.ReqSize | 1/client/discovery.cpp:59-59 | the request size is the least number, but at least two, with which the nodes together take all points |
| Integrator.AtMostNodes | 1/client/discovery.cpp:59-62 | there are never more requests than nodes |
| Integrator.OneChunkIff | 1/client/discovery.cpp:62-62 | there is a single chunk, the whole input, if and only if the points exceed the request size by at most one |
| Integrator.PartialSums | 1/client/discovery.cpp:182-196 | the partial sums are the full sum minus exactly the cells that cross chunk boundaries |
| Integrator.CountRoundTrip | 1/client/discovery.cpp:64-65 | the eight count bytes give the count back |
| Integrator.CountBytes | 1/client/discovery.cpp:64-65 | of the count bytes the most significant comes first |
| Integrator.PointBytes | 1/client/discovery.cpp:66-69 | a point's eight bytes of x and then eight of y stand at sixteen times its index |
| Integrator.PrepareRequests | 1/client/discovery.cpp:56-76 | the loop yields the encoded chunks in order |
| Integrator.ParseRoundTrip | 1/server/parser.cpp:32-44 | parsing an encoded list gives it back |
| Integrator.ReadBody | 1/server/worker_server.cpp:48-53 | the read loop stops at the announced size, at an empty read or when nothing more arrives, whichever is first, and returns what arrived; so all of a complete body in whatever fragments |
| Integrator.WriteOut | 1/server/worker_server.cpp:60-67 | what was written is a prefix, and everything if every write takes something |
| Integrator.HandleClient | 1/server/worker_server.cpp:36-69 | a complete request in whatever fragments is answered with the encoded sum of its points; a short header is refused; after a body cut inside a point any answer is possible |
| Integrator.RepliesAddUp | 1/client/discovery.cpp:190-195 | decoding and adding the answers gives the total of the partial sums |
| SocketSet.TSocketSet.RegisterSocket | 1/client/socket.cpp:18-60 | one socket more, on a descriptor not in use, and the two vectors stay aligned |
| SocketSet.TSocketSet.Poll | 1/client/socket.cpp:62-133 | the finished sockets are handed out and the others kept, both in order; every response is what arrived on its own connection, and a socket is CLOSED exactly when the other side ended it and ERROR exactly when an error was reported on it |
| SocketSet.TSocketSet.Advance | 1/client/socket.cpp:76-118 | every socket makes the step its events call for: ERROR exactly on a reported error, CLOSED exactly on a clean end; exactly the finished ones are marked |
| SocketSet.TSocketSet.Compact | 1/client/socket.cpp:120-132 | erasing the marked sockets in place with a running shift removes exactly them from both vectors |
| SocketSet.SplitAll | 1/client/socket.cpp:120-132 | removing and keeping split the sockets: nothing lost, nothing made up |
| SocketSet.UpdatedRecorded | 1/client/socket.cpp:77-117 | a round keeps each socket's response equal to what arrived on its connection and its unsent rest equal to what is missing |
| RequestSender.TRequestSender.constructor | 1/client/request_sender.cpp:28-32 | a sender starts with one living endpoint per address |
| RequestSender.TRequestSender.UpdateEndpoints | 1/client/request_sender.cpp:34-41 | the list is replaced by new living endpoints for the current addresses |
| RequestSender.TRequestSender.NextEndpoint | 1/client/request_sender.cpp:43-56 | the first living endpoint in cyclic order after the last one handed out, with a refresh after the allowed number of uses; an exception exactly when none lives |
| RequestSender.TRequestSender.SendRequests | 1/client/request_sender.cpp:58-113 | on a normal return each result is exactly what arrived on the one connection of its request that the other side ended, and what was sent on it is that request's own prefix; an endpoint of the list lives at the end exactly if it lived before and no connection to it broke; no request is given an endpoint to which a connection broke before; the exception that none lives comes exactly when so; no lookup fails and no assertion fires |
| RequestSender.TRequestSender.OpenAll | 1/client/request_sender.cpp:70-79 | descriptors stay in bijection with assigned requests, and none is left without a connection |
| RequestSender.TRequestSender.Settle | 1/client/request_sender.cpp:83-98 | a failed connection's request goes to another endpoint and a closed one's is finished, counted, and dropped from the map; afterwards an endpoint of the list lives exactly if it lived before and no connection to it broke, and it ends early exactly if none lives |
| RequestSender.TRequestSender.PollOnce | 1/client/request_sender.cpp:81-98 | one poll and the settling of what it hands out keep all that is known of requests, endpoints and history |
| RequestSender.RetryTried | 1/client/request_sender.cpp:85-87 | a request whose connection broke is given an endpoint to which every connection that ever breaks does so later |
| RequestSender.RemovedInTurn | 1/client/socket.cpp:120-132 | what a round hands out comes in the order in which it broke, after all that broke in earlier rounds |
| RequestSender.SomeOpen | 1/client/request_sender.cpp:99-102 | poll is never called with nothing open while requests are unfinished |
| RequestSender.PollKeeps | 1/client/request_sender.cpp:81-83 | a poll round keeps the bijection over the sockets handed out and those still open, and the history of every finished request |
| Gathering.ResultsServed | 1/client/request_sender.cpp:106-111 | when a worker served every connection that ended, reading what its header announces, the results are the encoded partial sums in order |
| Gathering.WorkerAnswers | 1/server/worker_server.cpp:36-69 | what a worker makes of as much of a sent request as its header announces is the answer to exactly that request |
| Gathering.AddUp | 1/client/discovery.cpp:190-195 | the answers are decoded and added in order, unless one is not a double |
| Gathering.Calc | 1/client/discovery.cpp:182-196 | end to end through the retrying sender and the workers' fragmented reads, whatever arrived on failed connections, the result is the full sum minus the cells that cross chunk boundaries |

## Left out

- Server.TEnv.HandleAppendPartly: a crash falls between two writes; dumps are taken to be atomic and to succeed, and of a frame cut in the middle nothing remains, as when truncation succeeds (`LogFile.ReopenTorn` has the other case). Entries must fit the four length bytes.
- Server.TEnv.HandleRequestVote: a crash between its two dumps, which leaves the new term without the vote, is not a step of its own.
- Server.TEnv.CommitChanges: sending on a full commit queue blocks in the code while the lock is held; the queue has no bound here. A Go slice is bounded by capacity, so a bound that is past the end by one can pass silently and then hands on an entry that is not in the log; the model queues nothing and sets a flag instead. Neither happens while writes pass the first test.
- Server.TEnv.TryBecomeLeader: the vote requests are taken to be sampled while the candidate holds its lock; the code reads the fields in goroutines that may run later, whose answers then go to an abandoned channel.
- Server.TEnv.ApplyRequestSync: the check that this server is leader and the append are one step; the code takes the lock twice.
- LogFile.RecoverAll: the JSON text of an entry is an abstract codec that is injective up to the channel, never empty, and shorter than 2^32 bytes.
- Elections.ElectionSafety: terms, indexes and lengths are unbounded integers; 64-bit wrap-around is modelled only for the next index and the leader's match index.
- Completeness.LeaderCompleteness: for runs whose writes pass the first test; `Completeness.GuardExact` and `Loss.CommitLost` say exactly what is missing otherwise.
- Applied.CommitsInRange: likewise; when the flag is set the model still lists the reply, which may count as lost.
- ApplyOnce.AppliesInOrder: for any network, except for that one case of `CommitChanges` in which the slice passes the end of the log silently.
- Safety.AppliedAgree: for runs whose writes pass both tests; `Divergence.SafeIffTwoServers` says what is missing otherwise.
- Divergence.BadJoinDiverges: if the leader and its team are only just a majority, the leader's log must be no longer than its own marker, the greatest 64-bit number.
- LwwSystem.Convergence: replicas are not restarted, and times are unbounded. A replica that ends takes the broadcasts it was still retrying with it, on a fatal timestamp as well as when a request fails and its missing response is closed (3/server/server.go:57-61); the model keeps them pending, so nothing on its way means nothing undelivered, such lost broadcasts included.
- LwwReplica.TState.BroadcastToAll: the goroutines that retry a broadcast until it is acknowledged are a set of pending broadcasts.
- Integrator.PartialSums: over the reals; rounding of doubles is not modelled.
- Integrator.ParseRoundTrip: a double is eight abstract bytes, for the numbers the format represents; the detection of the byte order is left out.
- RequestSender.TRequestSender.SendRequests: for a given number of turns of the main loop. It need not end: a refresh of the endpoint list revives dead endpoints.
- SocketSet.TSocketSet.Poll: what poll, send and recv report is arbitrary; a failing poll is an exception of the caller's turn, and a poll without a time limit does not time out.
- Clusters of one server: there the leader's own marker, the greatest 64-bit number, becomes the commit index.
- Timers, heartbeat deadlines and liveness of elections; a server that keeps its bookkeeping after losing leadership does not campaign.
- HTTP servers and clients, redirects, status codes, JSON text, configuration, the interactive client, and the recorded leader id that redirects use.
- Causal order between the replicas of the map; clocks are not merged on receipt.
- Discovery by UDP broadcast, the shared address list, and thread handling; the list is a function from looks to addresses.
