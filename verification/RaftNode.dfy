/** What each handler of a Raft server does to the server's state, one function a handler. The class
    RaftServer is proved against these functions; the protocol modules reason about their runs. */
module RaftNode {
  import opened RaftTypes

  // ---------- indices ----------

  function LastIndex(n: Node): int { n.snapIndex + |n.logs| }

  function LastTerm(n: Node): int {
    if n.logs == [] then n.snapTerm else n.logs[|n.logs| - 1].logTerm
  }

  /** The term recorded at an index; the snapshot stands for the index it ends at. */
  function TermAt(n: Node, index: int): int
    requires n.snapIndex <= index <= LastIndex(n)
  {
    if index == n.snapIndex then n.snapTerm else n.logs[index - n.snapIndex - 1].logTerm
  }

  function Majority(n: Node): int { n.peers / 2 + 1 }

  /** The entry in slot i carries index base + 1 + i. */
  predicate Contiguous(logs: seq<LogEntry>, base: int) {
    forall i :: 0 <= i < |logs| ==> logs[i].logIndex == base + 1 + i
  }

  /** The state invariant of one server. */
  predicate WellFormed(n: Node) {
    && n.me < n.peers
    && Contiguous(n.logs, n.snapIndex)
    && 0 <= n.snapIndex <= n.lastApplied <= n.commitIndex <= LastIndex(n)
    && |n.nextIndex| == n.peers && |n.matchIndex| == n.peers
  }

  /** Terms, commit and snapshot indices only move forward. */
  predicate Progress(n: Node, n': Node) {
    && n.term <= n'.term && n.commitIndex <= n'.commitIndex
    && n.snapIndex <= n'.snapIndex && n.lastApplied <= n'.lastApplied
    && n'.me == n.me && n'.peers == n.peers
  }

  function Init(me: nat, peers: nat): Node {
    Node(me, peers, 0, NO_VOTE, Follower, [], 0, 0, seq(peers, _ => 0), seq(peers, _ => 0), 0, 0)
  }

  // ---------- elections ----------

  /** Every message with a larger term turns its receiver into a follower of that term without a vote. */
  function StepDown(n: Node, term: int): Node {
    n.(term := term, votedFor := NO_VOTE, status := Follower)
  }

  function UpToDate(n: Node, index: int, term: int): bool {
    term > LastTerm(n) || (term == LastTerm(n) && index >= LastIndex(n))
  }

  function BecomeCandidate(n: Node): Node {
    n.(status := Candidate, term := n.term + 1, votedFor := n.me)
  }

  function MakeVoteArgs(n: Node): VoteArgs {
    VoteArgs(n.term, n.me, LastIndex(n), LastTerm(n))
  }

  function HandleVote(n: Node, a: VoteArgs): (Node, VoteReply) {
    if a.term < n.term then (n, VoteReply(n.term, Expire, false))
    else
      var n1 := if a.term > n.term then StepDown(n, a.term) else n;
      if !UpToDate(n1, a.lastLogIndex, a.lastLogTerm) then (n1, VoteReply(n1.term, Voted, false))
      else if n1.votedFor != NO_VOTE && n1.votedFor != a.candidateId then (n1, VoteReply(n1.term, Voted, false))
      else (n1.(votedFor := a.candidateId), VoteReply(n1.term, Normal, true))
  }

  /** A reply counts when it grants a vote in the node's current term. */
  predicate VoteCounts(n: Node, r: VoteReply) { r.term == n.term && r.voteGranted }

  predicate VoteWins(n: Node, r: VoteReply, votedNum: int) {
    VoteCounts(n, r) && votedNum + 1 >= Majority(n)
  }

  function BecomeLeader(n: Node): Node {
    n.(status := Leader, nextIndex := seq(n.peers, _ => LastIndex(n) + 1), matchIndex := seq(n.peers, _ => 0))
  }

  /** The node and the election's shared vote counter after one reply. The counter restarts at 0 on winning. */
  function HandleVoteReply(n: Node, r: VoteReply, votedNum: int): (Node, int) {
    if r.term > n.term then (StepDown(n, r.term), votedNum)
    else if !VoteCounts(n, r) then (n, votedNum)
    else if VoteWins(n, r, votedNum) then (BecomeLeader(n), 0)
    else (n, votedNum + 1)
  }

  // ---------- replication ----------

  function Start(n: Node, command: string): Node {
    if n.status != Leader then n
    else n.(logs := n.logs + [LogEntry(command, n.term, LastIndex(n) + 1)])
  }

  /** The request for a peer whose next entry is still in the log: everything from nextIndex to the end. */
  function MakeAppendArgs(n: Node, peer: nat): AppendArgs
    requires peer < |n.nextIndex| && n.snapIndex < n.nextIndex[peer] <= LastIndex(n) + 1
  {
    var prev := n.nextIndex[peer] - 1;
    AppendArgs(n.term, n.me, prev, TermAt(n, prev), n.logs[prev - n.snapIndex..], n.commitIndex)
  }

  /** What a leader sends next to this peer is past its own log; the heartbeat stops the process there. */
  predicate PastLog(n: Node, peer: nat) {
    peer < |n.nextIndex| && peer != n.me && n.nextIndex[peer] > LastIndex(n) + 1
  }

  /** The process stops inside doHeartBeat. */
  predicate HeartbeatStops(n: Node) { n.status == Leader && exists p :: 0 <= p < |n.nextIndex| && PastLog(n, p) }

  /** A sent entry differs in term from the stored entry of its index. */
  predicate Conflicts(logs: seq<LogEntry>, at: nat, entries: seq<LogEntry>) {
    exists i :: 0 <= i < |entries| && at + i < |logs| && logs[at + i].logTerm != entries[i].logTerm
  }

  /** Two entries of one index and term carry different commands: the receiver stops the process. */
  predicate Clash(logs: seq<LogEntry>, at: nat, entries: seq<LogEntry>) {
    exists i :: 0 <= i < |entries| && at + i < |logs| && logs[at + i].logTerm == entries[i].logTerm
                && logs[at + i].command != entries[i].command
  }

  /** The slots a request covers: a stored entry survives when its term equals the sent one. */
  function Overlay(logs: seq<LogEntry>, at: nat, entries: seq<LogEntry>): (r: seq<LogEntry>)
    requires at <= |logs|
    ensures |r| == at + |entries|
  {
    logs[..at] + seq(|entries|, i requires 0 <= i < |entries| =>
      if at + i < |logs| && logs[at + i].logTerm == entries[i].logTerm then logs[at + i] else entries[i])
  }

  /** The stored entries beyond the ones sent. */
  function TailBeyond(logs: seq<LogEntry>, at: nat, entries: seq<LogEntry>): seq<LogEntry> {
    if at + |entries| <= |logs| then logs[at + |entries|..] else []
  }

  /** The log after a successful consistency check at slot `at`. */
  function Merge(mode: Receiver, logs: seq<LogEntry>, at: nat, entries: seq<LogEntry>): seq<LogEntry>
    requires at <= |logs|
  {
    Overlay(logs, at, entries) +
    if mode == AsWritten || !Conflicts(logs, at, entries) then TailBeyond(logs, at, entries) else []
  }

  /** The largest index in (snapIndex, from] such that the entry below it has a term other than `term`,
      or `none` when all of them have that term. */
  function ScanBack(n: Node, from: int, term: int, none: int): int
    requires n.snapIndex - 1 <= from <= LastIndex(n)
    decreases from - n.snapIndex
  {
    if from < n.snapIndex then none
    else if TermAt(n, from) != term then from + 1
    else ScanBack(n, from - 1, term, none)
  }

  /** The index a follower suggests after a failed consistency check. */
  function BackOff(n: Node, prev: int): int
    requires n.snapIndex <= prev <= LastIndex(n)
  {
    ScanBack(n, prev, TermAt(n, prev), prev)
  }

  function Rejection(n: Node, next: int): AppendReply { AppendReply(n.term, false, next, AppNormal) }

  function AcceptAppend(mode: Receiver, n: Node, a: AppendArgs): Node
    requires n.snapIndex <= a.prevLogIndex <= LastIndex(n)
  {
    var n1 := n.(logs := Merge(mode, n.logs, a.prevLogIndex - n.snapIndex, a.entries));
    var last := LastIndex(n1);
    n1.(commitIndex := if a.leaderCommit <= n.commitIndex then n.commitIndex
                       else if a.leaderCommit <= last then a.leaderCommit else last)
  }

  /** The follower as it stands when it reaches the consistency check. */
  function Follow(n: Node, term: int): Node {
    (if term > n.term then StepDown(n, term) else n).(status := Follower)
  }

  predicate AppendMatches(n: Node, a: AppendArgs) {
    && a.term >= n.term
    && n.snapIndex <= a.prevLogIndex <= LastIndex(n)
    && TermAt(n, a.prevLogIndex) == a.prevLogTerm
  }

  /** The process stops inside the handler. */
  predicate AppendCrashes(n: Node, a: AppendArgs) {
    AppendMatches(n, a) && Clash(n.logs, a.prevLogIndex - n.snapIndex, a.entries)
  }

  function HandleAppend(mode: Receiver, n: Node, a: AppendArgs): (Node, AppendReply) {
    if a.term < n.term then (n, Rejection(n, KEEP_NEXT_INDEX))
    else
      var n1 := Follow(n, a.term);
      if a.prevLogIndex > LastIndex(n1) then (n1, Rejection(n1, LastIndex(n1) + 1))
      else if a.prevLogIndex < n1.snapIndex then (n1, Rejection(n1, n1.snapIndex + 1))
      else if TermAt(n1, a.prevLogIndex) == a.prevLogTerm then
        (AcceptAppend(mode, n1, a), AppendReply(n1.term, true, 0, AppNormal))
      else (n1, Rejection(n1, BackOff(n1, a.prevLogIndex)))
  }

  /** The reply is one the leader acts on: it still leads the term the reply speaks of. */
  predicate AppendReplyCounts(n: Node, r: AppendReply) {
    r.appState == AppNormal && r.term == n.term && n.status == Leader
  }

  /** The index up to which a request covers the leader's log. */
  function EndOf(a: AppendArgs): int { a.prevLogIndex + |a.entries| }

  function Acknowledge(n: Node, peer: nat, end: int): Node
    requires peer < |n.matchIndex| && peer < |n.nextIndex|
  {
    var matched := if n.matchIndex[peer] >= end then n.matchIndex[peer] else end;
    n.(matchIndex := n.matchIndex[peer := matched], nextIndex := n.nextIndex[peer := matched + 1])
  }

  function AdvanceCommit(n: Node, end: int): Node {
    if end > n.commitIndex then n.(commitIndex := end) else n
  }

  predicate EndsInTerm(a: AppendArgs, term: int) {
    |a.entries| > 0 && a.entries[|a.entries| - 1].logTerm == term
  }

  /** The leader and the heartbeat round's shared counter after one reply. */
  function HandleAppendReply(n: Node, peer: nat, a: AppendArgs, r: AppendReply, appendNums: int): (Node, int)
    requires peer < |n.matchIndex| && peer < |n.nextIndex|
  {
    if r.appState == Disconnected then (n, appendNums)
    else if r.term > n.term then (StepDown(n, r.term), appendNums)
    else if !AppendReplyCounts(n, r) then (n, appendNums)
    else if !r.success then
      (if r.updateNextIndex == KEEP_NEXT_INDEX then n
       else n.(nextIndex := n.nextIndex[peer := r.updateNextIndex]), appendNums)
    else
      var n1 := Acknowledge(n, peer, EndOf(a));
      if appendNums + 1 < Majority(n) then (n1, appendNums + 1)
      else (if EndsInTerm(a, n.term) then AdvanceCommit(n1, EndOf(a)) else n1, 0)
  }

  /** The counting rule of section 5.3 and 5.4.2 of the Raft paper, the test in leaderUpdateCommitIndex. */
  function Holders(n: Node, index: int): set<nat>
    requires |n.matchIndex| == n.peers
  {
    set i: nat | i < n.peers && (i == n.me || n.matchIndex[i] >= index)
  }

  predicate CommitRule(n: Node, index: int)
    requires |n.matchIndex| == n.peers
  {
    && n.snapIndex < index <= LastIndex(n)
    && |Holders(n, index)| >= Majority(n)
    && TermAt(n, index) == n.term
  }

  // ---------- applying and compaction ----------

  function Commands(logs: seq<LogEntry>, base: int): (r: seq<ApplyMsg>)
    ensures |r| == |logs|
  {
    seq(|logs|, i requires 0 <= i < |logs| => CommandMsg(logs[i].command, base + 1 + i))
  }

  /** Everything committed and not yet applied. */
  function ApplyLogs(n: Node): (Node, seq<ApplyMsg>)
    requires n.snapIndex <= n.lastApplied && n.commitIndex <= LastIndex(n)
  {
    if n.lastApplied >= n.commitIndex then (n, [])
    else
      (n.(lastApplied := n.commitIndex),
       Commands(n.logs[n.lastApplied - n.snapIndex..n.commitIndex - n.snapIndex], n.lastApplied))
  }

  function Max(a: int, b: int): int { if a >= b then a else b }

  function Snapshot(n: Node, index: int): Node
    requires n.commitIndex <= LastIndex(n)
  {
    if n.snapIndex >= index || index > n.commitIndex then n
    else n.(snapIndex := index, snapTerm := TermAt(n, index), logs := n.logs[index - n.snapIndex..],
            commitIndex := Max(n.commitIndex, index), lastApplied := Max(n.lastApplied, index))
  }

  /** The snapshot a leader sends a peer whose next entry it has compacted. */
  function MakeSnapshotArgs(n: Node, data: string): SnapshotArgs {
    SnapshotArgs(n.me, n.term, n.snapIndex, n.snapTerm, data)
  }

  /** The node after a leader's snapshot, and the message handed to the key-value server, if any. */
  function InstallSnapshot(n: Node, a: SnapshotArgs): (Node, seq<ApplyMsg>) {
    if a.term < n.term then (n, [])
    else
      var n1 := Follow(n, a.term);
      if a.lastIndex <= n1.snapIndex then (n1, [])
      else
        var kept := if LastIndex(n1) > a.lastIndex then n1.logs[a.lastIndex - n1.snapIndex..] else [];
        (n1.(logs := kept, commitIndex := Max(n1.commitIndex, a.lastIndex),
             lastApplied := Max(n1.lastApplied, a.lastIndex),
             snapIndex := a.lastIndex, snapTerm := a.lastTerm),
         [SnapshotMsg(a.data, a.lastTerm, a.lastIndex)])
  }
}
