# Verified model of the Raft key-value store

The repository is a replicated key-value store in C++: a Raft server (`src/raftCore/raft.cpp`), the key-value
server that applies committed commands (`src/raftCore/kvServer.cpp`), the skip list that stores the pairs
(`src/skipList/include/skipList.h`), and a fiber runtime with timers, IO events and a scheduler (`src/fiber`).
This project models these parts in Dafny and proves what they are meant to guarantee. `dafny verify
dfyconfig.toml` checks everything.

## How the model is built

**Raft.** `RaftNode.dfy` holds one function per handler, on a server's state as a value. `RaftServer.dfy` is the
server as the code has it, a class whose methods update fields in place and loop where the code loops; each
method is proved to do what its function says. `RaftWorld.dfy` puts N servers together with the calls between
them: each handler runs under the mutex and is one step; calls may be lost, delayed and reordered; a reply is
consumed at most once, by the thread that sent the request. Its later fields are history that no step reads.
`RaftHandlers.dfy` says what every handler does field by field, without naming the functions that compute it, so
that the functions are tied to the code and not only to the theorems that use them.

- `RaftElection` (as written, either append rule, with snapshots): election safety.
- `RaftRounds` (as written, either append rule, with snapshots): the counter of a heartbeat round.
- `RaftEntries` (as written, either append rule, with snapshots): entries of one index and term are one entry, so
  the append handler never stops a process.
- `RaftMarks` (as written, either append rule, with snapshots): every term that a server, request or snapshot names
  is that of a logged entry, and everything handed over is a logged command or a snapshot that was sent.
- `RaftReplication` (as written, either append rule, no compaction): the round counters against the counting rule.
- `RaftLog`, `RaftCommit` (receiver of section 5.3 of the Raft paper, no compaction): log matching, leader
  completeness, state machine safety. `Replicas` carries the last one over to the key-value state.
- `RaftGrants`: a candidate whose log continues the voter's is granted the vote with the receiver of section 5.3; as
  written it can be refused.
- `RaftMerge` (as written): the exact result of the append loop, exactly when it is that of section 5.3, and the
  exact condition under which whole runs of the code have log matching; they have state machine safety then too.
- `RaftCounterexample` (as written): a run of five servers in which log matching fails, and which goes on until a
  leader lacks a committed entry and two servers have applied different commands at one index.
- `RaftSingle` (as written, with compaction): invariants of one server over every interleaving of its handlers, and
  exactly when its heartbeats go on.
- `RaftProjection` (as written, with snapshots): every server of a cluster runs as `RaftSingle` describes.
- `RaftSnapshotAhead` (as written, with snapshots): a run of five servers in which a heartbeat stops a process.
- `RaftCatchUp` (as written, no compaction): a follower catches up, in any run.

**Two append rules.** `raft.cpp:64-67` replaces a conflicting entry and keeps everything after it; section 5.3 of
the Raft paper removes the conflicting entry and all that follow. The parameter `Receiver` chooses. With the rule
of the code, log matching, leader completeness and state machine safety are false: `RaftCounterexample` reaches a
state in which servers 0 and 1 have handed over `a` and `x` as their first commands. What is left of log matching is
`RaftEntries.OneEntryASlot`: the entry itself is determined by index and term, what comes before it is not. So the
results about all logs use `Section53`, and `RaftMerge` carries them over to the code: a delivery has the effect of
section 5.3 if and only if no sent entry conflicts or nothing lies beyond the last one. Runs in which that always
holds are runs of section 5.3, and they are exactly the runs in which logs match throughout. Everything else uses
`AsWritten` or holds for both.

**Skip list.** `SkipList.dfy` is the linked structure: nodes with arrays of forward pointers, rewired in loops. A
ghost sequence lists the towers in order, and every pointer must lead to the next tower that reaches its level.
The methods are proved against a finite map, for every choice of tower heights. `KvState.dfy` is the replicated
state as a value, `KvServer.dfy` the server on top of the skip list.

**Fiber runtime.** `Timer.dfy`, `IoManager.dfy` and `Scheduler.dfy` are classes whose methods are the steps that
threads take under the mutex, so a sequence of calls is an interleaving; their invariants hold between any two.
`addTimer` and `listExpiredCb` read the clock before they take the lock, so readings may be used out of order.
With that, and the unsigned subtraction in the rollover test, a timer can fire early and be armed for before the
promised deadline although the clock never goes back (`Timers.LateReadingMovesDeadline`); `ListExpiredCb` states
exactly when.

## Where the code is read by its evident meaning

- `raft.cpp:41-46` sets a rejection and lacks `return`; it is modelled as a rejection, also where `RaftSnapshotAhead`
  rests on it (without `return` the follower's process stops in the term look-up instead).
- `raft.cpp:45`, `raft.cpp:280` and `kvServer.cpp:238` misspell names and do not compile.
- `leaderUpdateCommitIndex` is never called. It first resets the commit index, and can leave it smaller than it
  was; it is modelled as written, and its test is what `RaftReplication.RunObeysCommitRule` refers to.
- The comment on `CondInstallSnapshot` (`raft.cpp:147`) says it keeps the end of the log; the code keeps the start.

## Model

| member | source | states |
|---|---|---|
| RaftElection.ElectionSafety | src/raftCore/raft.cpp:652-706 | in every run, with either append rule and with snapshots, two servers that lead the same term, at whatever times, are the same |
| RaftElection.StepKeepsElection | src/raftCore/raft.cpp:163-210 | one vote a server and term, granted replies carry the term of their request, and the vote counters match the votes counted: kept by every step of every handler, although winning never checks for a candidate |
| RaftElection.WinIsFresh | src/raftCore/raft.cpp:681-696 | the vote that takes the counter to N/2+1 completes the majority exactly, and nobody has won that term before |
| RaftElection.QuorumIsLeaders | src/raftCore/raft.cpp:566-580 | whoever has a majority of a term's votes is the server that leads it |
| RaftElection.NoTermWonTwice | src/raftCore/raft.cpp:681-690 | an election's counter, restarted at 0 on winning, never comes back to N/2+1, and the assertion against leading one term twice never fires |
| RaftReplication.StepKeepsReplication | src/raftCore/raft.cpp:214-275 | every request carries the slice of its term's leader log from prevLogIndex to the end its round shares, replies and acknowledgements say what the follower holds, and the round counters match the acknowledgements: kept by every step |
| RaftReplication.RunObeysCommitRule | src/raftCore/raft.cpp:746-781 | whenever in a run a reply moves the commit index, it moves forward to the end of the acknowledged request, a majority with the leader has acknowledged the leader's log through there, and the index passes the test of leaderUpdateCommitIndex |
| RaftRounds.StepKeepsRounds | src/raftCore/raft.cpp:214-275 | each peer's acknowledgement of a round is counted once, and the counter says how many there were, minus a majority after it was reset: kept by every step of every handler, snapshots included |
| RaftRounds.CrossingIsFirst | src/raftCore/raft.cpp:746-763 | a reply that takes the counter to N/2+1 completes the majority exactly and is the first of its round to do so |
| RaftRounds.RoundCrossesOnce | src/raftCore/raft.cpp:746-768 | in every run, with snapshots too, a heartbeat round's counter reaches N/2+1 at most once, with exactly a majority behind it |
| RaftReplication.BackOffBounds | src/raftCore/raft.cpp:92-102 | the index suggested after a failed check is at least 1 and at most prevLogIndex |
| RaftReplication.HeartbeatNeverCrashes | src/raftCore/raft.cpp:214-235 | a leader's nextIndex of every peer is at least 1 and at most one past its log, so no heartbeat stops a process, in every run |
| RaftLog.LogMatching | src/raftCore/raft.cpp:48-69 | in every run, two logs that hold entries of the same index and term agree on every index up to it (receiver of section 5.3) |
| RaftLog.MergeFollowsLeader | src/raftCore/raft.cpp:48-74 | after a successful check the follower's log is the leader's through the end of the request, or its own longer log that continues it |
| RaftLog.MergeKeepsCommonPrefix | src/raftCore/raft.cpp:48-74 | merging never loses a prefix that the old log and the leader's log share |
| RaftEntries.OneEntryASlot | src/raftCore/raft.cpp:48-69 | in every run, with either append rule and with snapshots, entries of one index and term are the same entry, in whichever servers or requests and at whatever times they are held |
| RaftEntries.StepKeepsEntries | src/raftCore/raft.cpp:807-832 | entries are created by the leader of their term above all entries that term has had, and keep their slots through merging, compaction and snapshots: kept by every step of every handler |
| RaftEntries.AppendNeverCrashes | src/raftCore/raft.cpp:55-63 | the assertion that entries of one index and term have one command never fires in any run, with either append rule and with snapshots |
| RaftMarks.StepKeepsMarks | src/raftCore/raft.cpp:919-941 | the index and term of each server's snapshot, of each vote request, of each prevLogIndex and of each snapshot on its way are those of a logged entry, and streams hold logged commands and sent snapshots: kept by every step |
| RaftMarks.SnapshotTermIsOfEntry | src/raftCore/raft.cpp:919-941 | in every run, with snapshots, a server's snapshot term is the term of an entry that was logged at its snapshot index |
| RaftMarks.HandedOverIsSourced | src/raftCore/raft.cpp:312-331 | in every run, with snapshots, each command handed over is that of an entry logged at its index, and each snapshot handed over was sent to this server with this index, term and data |
| RaftLog.UpToDateKeeps | src/raftCore/raft.cpp:584-589 | a candidate whose log passes the up-to-date check holds every committed prefix that the voter holds, unless a leader of a term in between already lacked it |
| RaftLog.StepKeepsLog | src/raftCore/raft.cpp:535-581 | what a server has acknowledged or voted for binds the logs of all later leaders: kept by every step |
| RaftLog.LaterLogsHold | src/raftCore/raft.cpp:746-768 | what a majority has acknowledged of one term, through an entry of that term, starts the log of every later term |
| RaftCommit.LeaderCompleteness | src/raftCore/raft.cpp:76-83 | whatever any server has committed at one point of a run is in the log of every leader of its term or a later one at any later point |
| RaftCommit.StateMachineSafety | src/raftCore/raft.cpp:312-331 | no two servers ever hand over different commands for one index, and the x-th command handed over has index x |
| RaftCommit.StepKeepsCommit | src/raftCore/raft.cpp:758-778 | commit indices, also the min(leaderCommit, lastIndex) of followers, stay within committed prefixes, and what was handed over is the log through lastApplied: kept by every step |
| RaftCommit.ApplyNeverCrashes | src/raftCore/raft.cpp:312-321 | the commit index never passes the last index, in any run |
| Replicas.ReplicasAgree | src/raftCore/kvServer.cpp:225-242 | of two servers at any two points of a run, the one that has applied more is in the state of the other after a replay of the rest; those that have applied equally much are in the same state |
| RaftMerge.MergeAsWritten | src/raftCore/raft.cpp:48-69 | the new log is the old one through prevLogIndex, then what was sent, then the old tail beyond it, and still contiguous |
| RaftMerge.RunMergesAsWritten | src/raftCore/raft.cpp:48-69 | in every run, with snapshots too, that is the log that a request leaves which passes its check |
| RaftMerge.MergeIsSection53 | src/raftCore/raft.cpp:64-67 | the result is that of section 5.3 if and only if nothing sent conflicts or the old log ends no later than the last entry sent |
| RaftMerge.MergeKeepsMatching | src/raftCore/raft.cpp:64-67 | the merged log matches a server that still has the old log if and only if the same condition holds; with section 5.3 always; and the command assertion cannot fire between matching logs |
| RaftMerge.CleanIsSection53 | src/raftCore/raft.cpp:9-103 | delivering a request has the effect of section 5.3 if and only if the request fails its check, conflicts with nothing stored, or leaves nothing stored beyond it |
| RaftMerge.CleanRunIsSection53 | src/raftCore/raft.cpp:48-69 | a run of the code whose deliveries all are like that is a run of section 5.3 |
| RaftMerge.MatchedIffClean | src/raftCore/raft.cpp:48-69 | in a run of the code without compaction all logs match, also those held at different times, if and only if every delivery is like that |
| RaftMerge.UncleanMismatch | src/raftCore/raft.cpp:64-67 | a delivery that is not leaves the follower with a log that does not match the one it had |
| RaftMerge.MatchingAcrossTime | src/raftCore/raft.cpp:48-69 | with the receiver of section 5.3 logs held at different times of a run match |
| RaftMerge.CleanRunsAreSafe | src/raftCore/raft.cpp:312-331 | in such runs of the code, without compaction, log matching, leader completeness and state machine safety hold |
| RaftCounterexample.LogMatchingFailsAsWritten | src/raftCore/raft.cpp:64-67 | a reachable state of five servers of the code as written whose logs hold the same entry of one index and term after different ones |
| RaftCounterexample.LeaderCompletenessFailsAsWritten | src/raftCore/raft.cpp:64-67 | a reachable state of five servers of the code as written in which a server has committed an entry that the leader of its term does not hold |
| RaftCounterexample.StateMachineSafetyFailsAsWritten | src/raftCore/raft.cpp:64-67 | a reachable state of five servers of the code as written in which two servers have handed over different commands for index 1 |
| RaftSnapshotAhead.HeartbeatStopsAsWritten | src/raftCore/raft.cpp:226-236 | a reachable state of five servers of the code as written, with snapshots only of what was handed over, in which the leader's next heartbeat stops its process: a follower that has compacted past the leader's log asks for what comes after |
| RaftSingle.LocalRun | src/raftCore/raft.cpp:638-650 | in every interleaving of one server's handlers, with compaction: logs[i] has index snapshotIndex + 1 + i, snapshotIndex <= lastApplied <= commitIndex <= last index, requests sent end inside the log, and what was handed over has no gap but a snapshot's and ends at lastApplied |
| RaftSingle.StepKeepsLocal | src/raftCore/raft.cpp:365-417 | every handler keeps that, moves terms and commit, applied and snapshot index only forward, and takes back nothing handed over |
| RaftSingle.LocalRunMovesForward | src/raftCore/raft.cpp:919-952 | terms, commit, applied and snapshot index never decrease between any two points of a run |
| RaftSingle.ApplyStream | src/raftCore/raft.cpp:312-331 | commands handed over have strictly increasing indices, none comes twice, and every applied index was handed over or is covered by an installed snapshot |
| RaftSingle.CommandsIncrease | src/raftCore/raft.cpp:316-329 | a stream without gaps hands over its commands in increasing order of index |
| RaftSingle.NothingSkipped | src/raftCore/raft.cpp:395-403 | an index that a stream has passed is a command in it or covered by a snapshot in it |
| RaftSingle.CompactionSkips | src/raftCore/raft.cpp:922-944 | asked for a snapshot, a server skips commands if and only if the index is past what it has handed over and not past the commit index |
| RaftSingle.LocalRunNeverCrashes | src/raftCore/raft.cpp:312-321 | the index assertions of getApplyLogs, Snapshot and sendAppendEntries cannot fire in a run of one server, and doHeartBeat finds every nextIndex at least 1 |
| RaftSingle.SuggestionsArePositive | src/raftCore/raft.cpp:36-46 | what a follower suggests on rejecting a request is at least 1, and at most prevLogIndex or one past its snapshot |
| RaftSingle.SuggestionPastRequest | src/raftCore/raft.cpp:41-46 | a follower and a request of its term that ends at index 1, to which it answers with the suggestion 6 |
| RaftSingle.ImmodestSuggestionStops | src/raftCore/raft.cpp:741-745 | a suggestion the leader acts on puts its nextIndex where the next heartbeat stops if and only if it is past the leader's last index plus one |
| RaftSingle.ModestIffBeats | src/raftCore/raft.cpp:226-236 | throughout a run of one server no heartbeat would stop the process, if and only if no suggestion it acts on is past its last index plus one |
| RaftProjection.ServerRunsAlone | src/raftCore/raft.cpp:9-953 | what each server of a cluster does in a run of the code, with snapshots requested only of what was handed over, is a run of that server by itself: the requests it gets are contiguous, the replies are to requests it sent, and no suggestion is below 1 |
| RaftProjection.StepKeepsFloors | src/raftCore/raft.cpp:36-102 | every request sent starts at index 0 or later with term 0 at index 0, and every suggestion on its way is at least 1: kept by every step of the cluster |
| RaftProjection.ServersStayInOrder | src/raftCore/raft.cpp:919-952 | in every such run of the cluster snapshotIndex <= lastApplied <= commitIndex <= last index on every server, they never go back, and the index assertions of getApplyLogs and Snapshot cannot fire |
| RaftProjection.ServersHandOverInOrder | src/raftCore/raft.cpp:312-331 | in every such run each server hands over commands in strictly increasing order of index, and every applied index was handed over or is covered by a snapshot it installed |
| RaftCatchUp.RejectedExchange | src/raftCore/raft.cpp:741-745 | a failed exchange changes only nextIndex, which goes down and stays at least 1 |
| RaftCatchUp.SuccessfulExchange | src/raftCore/raft.cpp:746-758 | after a successful exchange the follower's log is the leader's followed by what it had beyond, and the leader knows |
| RaftCatchUp.FollowerCatchesUp | src/raftCore/raft.cpp:341-352 | for the two alone, fewer than nextIndex failures precede a success, after which the follower equals the leader at every index up to the leader's last |
| RaftCatchUp.ExchangeOutcome | src/raftCore/raft.cpp:720-758 | in any run, if the leader's nextIndex of the follower is the same when it consumes the answer as when it sent the request, and whatever else goes on in between: a failed check leaves the follower's log alone and lowers nextIndex, which stays at least 1; a passed one gives the follower, if the logs match on arrival, all the leader held on sending |
| RaftCatchUp.RunCatchesUp | src/raftCore/raft.cpp:341-352 | in any run, of as many consecutive exchanges as nextIndex was at their beginning one succeeds, while clients, other followers and everybody else go on |
| RaftServer.Raft.constructor | src/raftCore/raft.cpp:834-859 | a new server is in the initial state |
| RaftServer.Raft.GetLastLogIndex | src/raftCore/raft.cpp:592-609 | the last entry's own index is snapshotIndex plus the length of the log |
| RaftServer.Raft.GetSlicesIndexFromLogIndex | src/raftCore/raft.cpp:638-650 | the slot computed for an index holds the entry of that index |
| RaftServer.Raft.GetLogTermFromLogIndex | src/raftCore/raft.cpp:618-632 | the term of an index, the snapshot's at the snapshot index |
| RaftServer.Raft.DoElection | src/raftCore/raft.cpp:163-210 | a server that does not lead becomes a candidate of the next term and asks every other server, with its last index and term |
| RaftServer.Raft.RequestVote | src/raftCore/raft.cpp:535-581 | state and reply of the vote handler on every path, and exactly when the vote is granted |
| RaftServer.Raft.ReceiveVote | src/raftCore/raft.cpp:667-704 | state and counter after a vote reply; the process stops if and only if the reply wins while the server leads |
| RaftServer.Raft.Start | src/raftCore/raft.cpp:807-832 | a leader appends the command at the next index in its term and reports both |
| RaftServer.Raft.DoHeartBeat | src/raftCore/raft.cpp:214-275 | the process stops if and only if a peer's nextIndex is past the last index plus one; otherwise exactly the peers whose next entry is in the log get the rest of it, all requests end at the last index with contiguous entries, and exactly the others get a snapshot |
| RaftServer.Raft.GetPrevLogInfo | src/raftCore/raft.cpp:341-352 | prevLogIndex is nextIndex - 1 and prevLogTerm its term |
| RaftServer.Raft.AppendEntries | src/raftCore/raft.cpp:9-103 | state and reply of the append handler on every path; the process stops if and only if a sent and a stored entry of one index and term have different commands; the log never gets shorter |
| RaftServer.Raft.AppendLogs | src/raftCore/raft.cpp:48-69 | the append loop computes the merge, entry by entry |
| RaftServer.Raft.BackOffFrom | src/raftCore/raft.cpp:91-98 | the loop computes the suggested index |
| RaftServer.BackOffMeans | src/raftCore/raft.cpp:91-98 | from the suggested index through prevLogIndex the terms are equal and just before it they differ, or all are equal and prevLogIndex is suggested |
| RaftServer.Raft.ReceiveAppend | src/raftCore/raft.cpp:720-785 | state and counter after an append reply on every path |
| RaftServer.Raft.LeaderUpdateCommitIndex | src/raftCore/raft.cpp:494-516 | the commit index becomes the largest index with a majority and an entry of the current term, or else the snapshot index |
| RaftServer.Raft.GetApplyLogs | src/raftCore/raft.cpp:312-331 | hands over exactly the entries after lastApplied through commitIndex, with their indices |
| RaftServer.Raft.Snapshot | src/raftCore/raft.cpp:919-953 | the log keeps exactly the entries after the index, every index from the snapshot's on keeps its term, the last index stays, and a refused request changes nothing |
| RaftServer.Raft.InstallSnapshot | src/raftCore/raft.cpp:365-417 | state, reply and message on every path, and the last index does not go down |
| RaftServer.Raft.ReceiveSnapshotReply | src/raftCore/raft.cpp:477-491 | state after the reply to a snapshot |
| RaftServer.Raft.SendSnapshot | src/raftCore/raft.cpp:461-475 | a snapshot goes out with its index and term and the server's present term |
| RaftHandlers.InitOutcome | src/raftCore/raft.cpp:834-859 | a new server follows in term 0 without a vote, with an empty log and all indices 0 |
| RaftHandlers.CandidacyOutcome | src/raftCore/raft.cpp:163-210 | a candidate stands in the next term, has its own vote, and asks with its last index and that index's term |
| RaftHandlers.OneOfTwoGetsVote | src/raftCore/raft.cpp:584-589 | of any two servers at least one is granted the other's vote when it asks in a term later than the other's |
| RaftHandlers.ExtensionGetsVote | src/raftCore/raft.cpp:584-589 | a candidate of a later term whose log continues the voter's gets the vote if and only if its last entry is not of an older term than the voter's |
| RaftHandlers.VoteOutcome | src/raftCore/raft.cpp:535-581 | who is granted a vote, and the voter's term, vote, status and answer on every path |
| RaftHandlers.VoteReplyOutcome | src/raftCore/raft.cpp:667-704 | a later term ends the candidacy, an earlier one or a refusal changes nothing, a vote counts once, and with more than half the peers the server leads with nextIndex one past its log and matchIndex 0 |
| RaftHandlers.StartOutcome | src/raftCore/raft.cpp:807-832 | a leader's new entry has the client's command, its term and the next index |
| RaftHandlers.RequestOutcome | src/raftCore/raft.cpp:236-262 | a request starts right after prevLogIndex, names that index's term, and carries exactly the entries from there to the end, also over a compacted log |
| RaftHandlers.AppendOutcome | src/raftCore/raft.cpp:9-103 | a check passes exactly when the follower knows the term at prevLogIndex; the commit index becomes the smaller of the leader's and the last index, but no smaller than it was; the suggestion of a failed check; what stays on every path |
| RaftHandlers.AppendReplyOutcome | src/raftCore/raft.cpp:720-785 | on each kind of reply what becomes of matchIndex, which an acknowledgement never lowers, nextIndex, the counter, and exactly when the commit index moves |
| RaftHandlers.CommitRuleMeans | src/raftCore/raft.cpp:494-516 | the test holds of an index if and only if its entry is of the current term and some majority with the leader holds it |
| RaftHandlers.ApplyOutcome | src/raftCore/raft.cpp:312-331 | everything committed and not handed over is handed over, each entry's command at its index, also over a compacted log |
| RaftHandlers.CompactionOutcome | src/raftCore/raft.cpp:919-953 | compaction happens exactly for a committed index after the snapshot, forgets no term from there on and no entry after it, and the snapshot's term is the term that index had |
| RaftHandlers.InstallOutcome | src/raftCore/raft.cpp:365-417 | a current snapshot ahead of the server's own is taken over with its index, term and data and handed on, exactly the entries beyond it stay, and the indices move up to it |
| RaftHandlers.SnapshotAnswer | src/raftCore/raft.cpp:365-417 | the answer carries the term where the code sets it, and 0 where it does not |
| RaftHandlers.SnapshotReplyOutcome | src/raftCore/raft.cpp:477-491 | after the answer the leader takes the peer to hold exactly the snapshot, steps down, or ignores it |
| RaftHandlers.SnapshotThenEntries | src/raftCore/raft.cpp:226-262 | a follower behind the leader's snapshot catches up in two calls: with the snapshot installed, the next request passes the check with the whole rest of the log |
| RaftGrants.ContinuationGetsVote | src/raftCore/raft.cpp:584-589 | in every run with the receiver of section 5.3 a server grants its vote, in a later term, to one whose log continues its own |
| RaftGrants.ContinuationRefusedAsWritten | src/raftCore/raft.cpp:64-67 | a reachable state of five servers of the code as written in which a server whose log continues another's is refused its vote in every term |
| SkipLists.SkipList.constructor | src/skipList/include/skipList.h:341-349 | an empty list |
| SkipLists.SkipList.FindUpdate | src/skipList/include/skipList.h:151-156 | the search path: on each level the last node with a smaller key |
| SkipLists.SkipList.SearchElement | src/skipList/include/skipList.h:313-331 | finds a key if and only if the map has it, with its value, as a scan of the lowest level would |
| SkipLists.SkipList.InsertElement | src/skipList/include/skipList.h:144-185 | adds a new pair in a tower of the level drawn, leaves an existing key alone, for every tower height; all levels stay linked and sorted and the count is right |
| SkipLists.SkipList.DeleteElement | src/skipList/include/skipList.h:269-298 | removes the key if it is there; all levels stay linked and the level drops to the tallest tower left |
| SkipLists.SkipList.LowerLevel | src/skipList/include/skipList.h:290-292 | the level goes down exactly to where a tower reaches |
| SkipLists.SkipList.InsertSetElement | src/skipList/include/skipList.h:306-310 | stores the pair whether or not the key was there |
| SkipLists.SkipList.GetRandomLevel | src/skipList/include/skipList.h:370-377 | the level is one more than the run of heads, at most the maximum |
| SkipLists.SkipList.DisplayList | src/skipList/include/skipList.h:189-199 | the lowest level is the whole chain, each level is the sublist of the towers that reach it and a sublist of the level below, the top one is not empty, and levels above it are |
| SkipLists.SkipList.Size | src/skipList/include/skipList.h:247-249 | the element count is the size of the map |
| SkipLists.SkipList.DumpFile | src/skipList/include/skipList.h:203-217 | the pairs in strictly increasing order of keys; loading them gives back the map |
| SkipLists.SkipList.LoadFile | src/skipList/include/skipList.h:220-244 | the map becomes what the dump holds; the empty string changes nothing, an unreadable one leaves the list empty |
| SkipLists.DumpedIsHeld | src/skipList/include/skipList.h:203-244 | keys and values read off the lowest level make up exactly the map |
| SkipLists.LoadedMeans | src/skipList/include/skipList.h:220-244 | loading holds exactly the keys listed, each with the value of its first pair |
| Keys.LessMeans | src/skipList/include/skipList.h:151-156 | keys are compared as strings: by the first place where they differ |
| SkipLists.SplicedIsLinked | src/skipList/include/skipList.h:176-181 | rewiring the nodes found makes every pointer of every level right for the chain with the new tower |
| SkipLists.UnsplicedIsLinked | src/skipList/include/skipList.h:285-288 | rewiring the nodes found, up to the first level that does not point at the node, makes every pointer right for the chain without it |
| KvState.ExactlyOnce | src/raftCore/kvServer.cpp:140-173 | after any list of commands the map is what its "Put" and "Append" commands with an id above all earlier ones of their client leave, in order, and the table holds each client's largest id |
| KvState.ExecMeans | src/raftCore/kvServer.cpp:140-163 | a command "Put" or "Append" with an id above its client's recorded one, or of a client with none, stores its value and its id; any other changes nothing |
| KvState.FeedingAgain | src/raftCore/kvServer.cpp:166-173 | feeding commands that were fed already, in any order and number, changes nothing |
| KvState.SnapshotAndSuffix | src/raftCore/kvServer.cpp:145-147 | a snapshot after a cut and the rest of the list, or the whole list filtered by index, give the state of a full run |
| KvServers.KvServer.constructor | src/raftCore/kvServer.cpp:331 | an empty server whose list has 6 levels |
| KvServers.KvServer.IfRequestDuplicate | src/raftCore/kvServer.cpp:166-173 | true if and only if the client's last applied id is at least this one |
| KvServers.KvServer.ExecuteWrite | src/raftCore/kvServer.cpp:12-52 | Put and Append both store the pair and record the id |
| KvServers.KvServer.GetCommandFromRaft | src/raftCore/kvServer.cpp:140-163 | a command past the installed snapshot that is a "Put" or "Append" with a new id stores its value and id, any other changes nothing; a snapshot made then stands for the state just reached |
| KvServers.KvServer.ReadRaftApplyCommands | src/raftCore/kvServer.cpp:225-242 | the state is the replay of the commands not skipped, whatever the tower heights |
| KvServers.KvServer.MakeSnapShot | src/raftCore/include/kvServer.h:109-116 | restoring the snapshot gives this server's state, whatever state it is restored over |
| KvServers.KvServer.ReadSnapShotToInstall | src/raftCore/include/kvServer.h:118-124 | the state becomes what the snapshot stands for, whatever the tower heights; the empty string changes nothing |
| KvServers.KvServer.GetSnapShotFromRaft | src/raftCore/kvServer.cpp:294-301 | an accepted snapshot is installed and its index remembered |
| KvServers.SnapshotRoundTrip | src/raftCore/kvServer.cpp:294-309 | for any commands, cut and tower heights: snapshot, restore into another server, feed the rest or the whole list; both servers end in the state of one full run |
| Timers.TimerManager.Find | src/fiber/timer.cpp:8-25 | looking a timer up with the comparator finds it if and only if it is in the set |
| Timers.TimerManager.Cancel | src/fiber/timer.cpp:35-44 | an armed timer loses its callback and leaves the set; the lookup never misses |
| Timers.TimerManager.Refresh | src/fiber/timer.cpp:47-60 | an armed timer's deadline becomes now plus its interval, and nobody is woken; with the clock read under the lock it never moves earlier; for any reading the promise of getNextTimer breaks if and only if now plus the interval is before it |
| Timers.TimerManager.Reset | src/fiber/timer.cpp:65-88 | new interval and deadline, from now or from the present start; the answer is always true; a wake-up is sent if and only if the moved timer is first and none is pending |
| Timers.TimerManager.AddTimer | src/fiber/timer.cpp:94-99 | the new timer is in the set, however old its clock reading is; a wake-up is sent if and only if it is first and none is pending |
| Timers.TimerManager.AddToSet | src/fiber/timer.cpp:172-182 | unless a wake-up has been sent some armed timer is due no later than the new one |
| Timers.TimerManager.GetNextTimer | src/fiber/timer.cpp:115-128 | the time to the earliest deadline; from here on, unless OnTimerInsertedAtFront is called or refresh or listExpiredCb arm a timer for before it, no armed timer is due before it |
| Timers.TimerManager.DetectClockRollover | src/fiber/timer.cpp:184-191 | a rollover is a step back by more than an hour, or any step back with less than an hour on the clock, as the 64-bit unsigned subtraction has it |
| Timers.TimerManager.DueCount | src/fiber/timer.cpp:151-155 | the members taken are exactly those due at or before now, or all after a rollover |
| Timers.TimerManager.ListExpiredCb | src/fiber/timer.cpp:130-170 | exactly the due callbacks, in the order of their deadlines and then their addresses; one-shot timers lose theirs, recurring ones are armed at now plus their interval, all others are untouched; while the promise of getNextTimer stands, some timer is due before it afterwards if and only if the clock test takes this for a rollover and a recurring timer's interval from now ends before it |
| Timers.LateReadingMovesDeadline | src/fiber/timer.cpp:130-170 | a run with a clock that never goes back in which a reading made before taking the lock counts as a rollover: a timer fires early, is armed for before the promised deadline, and nobody is woken |
| Timers.TimerManager.HasTimer | src/fiber/timer.cpp:193-196 | true if and only if some timer has a callback |
| IoManagers.IOManager.constructor | src/fiber/iomanager.cpp:36-57 | nothing registered, 32 contexts |
| IoManagers.FdContext.TriggerEvent | src/fiber/iomanager.cpp:23-34 | the event's bit and context are cleared, its handler handed on, the other event untouched |
| IoManagers.IOManager.ContextResize | src/fiber/iomanager.cpp:359-367 | old contexts stay, new ones are empty |
| IoManagers.IOManager.EpollCtl | src/fiber/iomanager.cpp:91-100 | called only where the kernel accepts it: ADD for descriptors it does not watch, MOD and DEL for those it does |
| IoManagers.IOManager.AddEvent | src/fiber/iomanager.cpp:72-120 | registers the handler, stops the process if and only if the event is registered already, changes nothing when the kernel refuses; registry, kernel and counter stay in step; a table too small grows to one and a half times the descriptor |
| IoManagers.IOManager.DelEvent | src/fiber/iomanager.cpp:122-152 | drops exactly this registration without scheduling it |
| IoManagers.IOManager.CancelEvent | src/fiber/iomanager.cpp:155-184 | schedules exactly this handler, once |
| IoManagers.IOManager.CancelAll | src/fiber/iomanager.cpp:186-221 | schedules exactly the registered handlers of the descriptor, reading before writing, forgets them and unwatches it |
| IoManagers.IOManager.Dispatch | src/fiber/iomanager.cpp:298-337 | with an error every registered event of the descriptor is triggered, else exactly those reported and registered, reading first, and no other registration changes; nothing happens when none of them is registered or the kernel refuses; otherwise the process stops if and only if an event was reported that is not registered |
| IoManagers.TakenMeans | src/fiber/iomanager.cpp:298-337 | the same of what one report takes, as used for whole batches of reports |
| IoManagers.IOManager.DispatchAll | src/fiber/iomanager.cpp:287-338 | what is left registered and what was scheduled, in order, is the result of the reports one after the other; the process stops if and only if some report, after those before it, takes a registered event together with one that is not |
| IoManagers.StopsIff | src/fiber/iomanager.cpp:287-338 | when each descriptor is reported once, that is so if and only if one of the reports does, by what is registered at the beginning; reports within the registration never stop the process |
| IoManagers.IOManager.Post | src/fiber/iomanager.cpp:23-34 | a triggered handler becomes a task of its own that the scheduler has accepted |
| IoManagers.IOManager.Stopping | src/fiber/iomanager.cpp:348-357 | yes if and only if no timer is armed, nothing is registered, and the scheduler may stop; then nothing is watched, and every handler ever registered was dropped, or is a task of its own that a worker has resumed once |
| IoManagers.ScheduleBalances | src/fiber/iomanager.cpp:23-34 | scheduling a registered handler keeps the books: every registration is registered, dropped or scheduled exactly once |
| Schedulers.Scheduler.Schedule | src/fiber/include/scheduler.hpp:64-107 | a task that is not empty goes to the end of the queue; the answer is whether the queue was empty |
| Schedulers.Scheduler.Take | src/fiber/scheduler.cpp:92-114 | a worker takes the first task whose thread is -1 or its own, and one if and only if there is one; it skips the others, and others are told exactly when one is left or skipped |
| Schedulers.Scheduler.PinnedStaysPut | src/fiber/scheduler.cpp:92-132 | a task meant for one thread is only ever in that thread's hands, and finished by it |
| Schedulers.Scheduler.Resume | src/fiber/scheduler.cpp:119-132 | the task in hand is finished, by its worker |
| Schedulers.Scheduler.Leave | src/fiber/scheduler.cpp:123-134 | the active count goes down only after the task was resumed |
| Schedulers.Scheduler.Stopping | src/fiber/scheduler.cpp:152-155 | yes if and only if stop was called, every task accepted so far was resumed, once, by a thread it may run on, and every worker is looking for a task |

## Left out

- RaftLog.LogMatching: uses the receiver of section 5.3 and no compaction, because the claim is false of the code's append rule, as RaftCounterexample.LogMatchingFailsAsWritten shows; RaftMerge.CleanRunsAreSafe has it for the code under a condition on each delivery.
- RaftLog.MergeFollowsLeader: about the merge of section 5.3; RaftMerge.MergeAsWritten has the code's.
- RaftLog.MergeKeepsCommonPrefix: about the merge of section 5.3.
- RaftLog.StepKeepsLog: same setting as log matching.
- RaftLog.LaterLogsHold: same setting as log matching.
- RaftGrants.ContinuationGetsVote: same setting as log matching, false as written by RaftGrants.ContinuationRefusedAsWritten; RaftHandlers.ExtensionGetsVote has the exact condition for both.
- RaftCommit.LeaderCompleteness: same setting as log matching.
- RaftCommit.StateMachineSafety: same setting as log matching, false of the code's append rule by RaftCounterexample.StateMachineSafetyFailsAsWritten.
- RaftCommit.StepKeepsCommit: same setting as log matching.
- RaftCommit.ApplyNeverCrashes: same setting; RaftProjection.ServersStayInOrder has it for the code as written, with snapshots.
- Replicas.ReplicasAgree: same setting as log matching.
- RaftReplication.StepKeepsReplication: no compaction, since what it says of requests and logs counts indices from 1; RaftRounds.StepKeepsRounds has the counters with snapshots.
- RaftReplication.BackOffBounds: for a log without compacted entries; RaftSingle.SuggestionsArePositive has the bounds with them.
- RaftReplication.HeartbeatNeverCrashes: no compaction, because with snapshots it is false as written by RaftSnapshotAhead.HeartbeatStopsAsWritten; RaftSingle.ModestIffBeats and RaftServer.Raft.DoHeartBeat say exactly when the process stops.
- RaftMerge.CleanRunsAreSafe: one direction and no compaction; one direction because a run with an unclean delivery may end before anything it has spoiled is applied; for log matching RaftMerge.MatchedIffClean has both.
- RaftMerge.MatchedIffClean: no compaction, since logs are compared from index 1.
- RaftMerge.MatchingAcrossTime: same setting as log matching.
- RaftReplication.RunObeysCommitRule: no snapshots are sent, because the reply to one can lower matchIndex (raft.cpp:489).
- RaftProjection.ServerRunsAlone: snapshots are requested only of what was handed over, which is what the key-value server does, and holds of every run without snapshots (RaftProjection.UncompactedIsPromised); RaftSingle.CompactionSkips says what happens otherwise.
- RaftSingle.ApplyStream: speaks of the order in which handlers produce messages; the threads that push them to the key-value server may reorder a snapshot and commands.
- RaftCatchUp.FollowerCatchesUp: one leader and one follower that nobody else talks to; RaftCatchUp.RunCatchesUp has it for runs.
- RaftCatchUp.ExchangeOutcome: no compaction, and nextIndex is the same when the answer is consumed as when the request was sent; a passed check says something only of logs that match on arrival, which as written they need not.
- RaftCatchUp.RunCatchesUp: the exchanges follow one another, because an old reply consumed late can set nextIndex back up; no compaction, and logs that match on arrival.
- KvServers.KvServer.GetSnapShotFromRaft: the answer of `CondInstallSnapshot` is a parameter.
- Timers.TimerManager.ListExpiredCb: deadlines are unbounded integers, so an interval near the end of 64 bits does not wrap.
- IoManagers.IOManager.AddEvent: the look-up under the read lock and the growth under the write lock are one step, so two threads growing the table at once are not modelled.
- SkipLists.SkipList.FindUpdate: entries above the present level are the header from the start; the code sets them when the new tower is taller.
- Terms, indices, request ids and counters are unbounded; 32-bit overflow is not modelled.
- Crash recovery: the persister truncates its files on start, so runs are without restart.
- Steps in which a process would stop in an assertion are not taken in the protocol modules; the theorems say which assertions cannot fire.
- `CondInstallSnapshot` itself.
- The Get call and its write to the request table, wait channels, time-outs and the clerk.
- Boost archives and protobuf: encoding followed by decoding is taken to be the identity.
- Election and heartbeat timers are free choices of when a step happens.
- Locks of the skip list; `load_file` takes its own lock again through `insert_element` and would not return.
- Freeing of skip list nodes.
- Condition timers, hooks, fiber switching, threads, the idle count and the wake-up pipe.
- Worker exit, and tasks that other threads submit after stopping was answered with yes.
