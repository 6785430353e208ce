/** The records that Raft nodes store and exchange. */
module RaftTypes {

  datatype LogEntry = LogEntry(command: string, logTerm: int, logIndex: int)

  datatype Status = Follower | Candidate | Leader

  datatype VoteState = Killed | Voted | Expire | Normal

  datatype AppState = Disconnected | AppNormal

  /** The value of updateNextIndex that asks the leader to leave nextIndex alone. */
  const KEEP_NEXT_INDEX := -100

  /** The value of votedFor while a node has no vote in its term. */
  const NO_VOTE := -1

  datatype VoteArgs = VoteArgs(term: int, candidateId: int, lastLogIndex: int, lastLogTerm: int)

  datatype VoteReply = VoteReply(term: int, voteState: VoteState, voteGranted: bool)

  datatype AppendArgs = AppendArgs(term: int, leaderId: int, prevLogIndex: int, prevLogTerm: int,
                                   entries: seq<LogEntry>, leaderCommit: int)

  datatype AppendReply = AppendReply(term: int, success: bool, updateNextIndex: int, appState: AppState)

  datatype SnapshotArgs = SnapshotArgs(leaderId: int, term: int, lastIndex: int, lastTerm: int, data: string)

  datatype ApplyMsg =
    | CommandMsg(command: string, index: int)
    | SnapshotMsg(data: string, term: int, index: int)

  /** How AppendEntries treats stored entries beyond the ones it was sent: the code keeps them all
      (AsWritten), section 5.3 of the Raft paper drops everything from the first conflict on (Section53). */
  datatype Receiver = AsWritten | Section53

  /** One Raft server; `logs[i]` is meant to be the entry with index snapIndex + 1 + i. */
  datatype Node = Node(
    me: nat, peers: nat,
    term: int, votedFor: int, status: Status,
    logs: seq<LogEntry>, commitIndex: int, lastApplied: int,
    nextIndex: seq<int>, matchIndex: seq<int>,
    snapIndex: int, snapTerm: int)
}
