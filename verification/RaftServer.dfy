/** A Raft server as the code keeps it: fields that the handlers update in place while they hold the mutex.
    Every handler is proved to do to the fields what its function in RaftNode says, and not to reach the
    assertions that would stop the process, unless its contract says when it does. */
module RaftServer {
  import opened RaftTypes
  import opened RaftNode
  import opened RaftWorld
  import opened Quorums
  import opened Wrappers

  /** What a leader believes its peers hold is inside its own log, and it never sends from below index 1. */
  predicate InBounds(n: Node) {
    n.status == Leader ==>
      && (forall p :: 0 <= p < |n.nextIndex| ==> 1 <= n.nextIndex[p])
      && (forall p :: 0 <= p < |n.matchIndex| ==> 0 <= n.matchIndex[p] <= LastIndex(n))
  }

  class Raft {
    const me: nat
    const peers: nat
    var currentTerm: int
    var votedFor: int
    var status: Status
    var logs: seq<LogEntry>
    var commitIndex: int
    var lastApplied: int
    var nextIndex: seq<int>
    var matchIndex: seq<int>
    var snapIndex: int
    var snapTerm: int

    function State(): Node
      reads this
    {
      Node(me, peers, currentTerm, votedFor, status, logs, commitIndex, lastApplied, nextIndex, matchIndex,
           snapIndex, snapTerm)
    }

    predicate Valid()
      reads this
    {
      WellFormed(State()) && InBounds(State())
    }

    constructor (me: nat, peers: nat)
      requires me < peers
      ensures Valid() && State() == Init(me, peers)
    {
      this.me, this.peers := me, peers;
      currentTerm, votedFor, status, logs := 0, NO_VOTE, Follower, [];
      commitIndex, lastApplied, snapIndex, snapTerm := 0, 0, 0, 0;
      nextIndex, matchIndex := seq(peers, _ => 0), seq(peers, _ => 0);
    }

    // ---------- indices: the last entry's own index is the position it stands for ----------

    function GetLastLogIndex(): (r: int)
      requires Contiguous(logs, snapIndex)
      reads this
      ensures r == LastIndex(State())
    {
      if logs == [] then snapIndex else logs[|logs| - 1].logIndex
    }

    function GetLastLogTerm(): (r: int)
      reads this
      ensures r == LastTerm(State())
    {
      if logs == [] then snapTerm else logs[|logs| - 1].logTerm
    }

    /** The slot of an index that is still in the log. */
    function GetSlicesIndexFromLogIndex(index: int): (r: nat)
      requires WellFormed(State()) && snapIndex < index <= LastIndex(State())
      reads this
      ensures r < |logs| && logs[r].logIndex == index
    {
      index - snapIndex - 1
    }

    function GetLogTermFromLogIndex(index: int): (r: int)
      requires WellFormed(State()) && snapIndex <= index <= LastIndex(State())
      reads this
      ensures r == TermAt(State(), index)
    {
      if index == snapIndex then snapTerm else logs[GetSlicesIndexFromLogIndex(index)].logTerm
    }

    // ---------- elections ----------

    /** Stands for election unless it leads, and asks every other server for its vote. */
    method DoElection() returns (requests: map<nat, VoteArgs>)
      requires Valid()
      modifies this
      ensures Valid() && Progress(old(State()), State())
      ensures old(status) == Leader ==> State() == old(State()) && requests == map[]
      ensures old(status) != Leader ==>
                && State() == BecomeCandidate(old(State()))
                && requests.Keys == NodesBelow(peers) - {me}
                && forall i: nat :: i in requests ==> requests[i] == MakeVoteArgs(State())
    {
      requests := map[];
      if status == Leader { return; }
      status := Candidate;
      currentTerm := currentTerm + 1;
      votedFor := me;
      for i := 0 to peers
        invariant requests.Keys == NodesBelow(i) - {me}
            && forall j: nat :: j in requests ==> requests[j] == MakeVoteArgs(State())
        invariant Valid() && State() == BecomeCandidate(old(State()))
      {
        if i == me { continue; }
        requests := requests[i := VoteArgs(currentTerm, me, GetLastLogIndex(), GetLastLogTerm())];
      }
    }

    method RequestVote(args: VoteArgs) returns (reply: VoteReply)
      requires Valid()
      modifies this
      ensures (State(), reply) == HandleVote(old(State()), args)
      ensures var last, lastTerm := old(LastIndex(State())), old(LastTerm(State()));
              reply.voteGranted <==>
                && args.term >= old(currentTerm)
                && (args.term == old(currentTerm) ==> old(votedFor) == -1 || old(votedFor) == args.candidateId)
                && (args.lastLogTerm > lastTerm || (args.lastLogTerm == lastTerm && args.lastLogIndex >= last))
      ensures Valid() && Progress(old(State()), State())
    {
      if args.term < currentTerm {
        return VoteReply(currentTerm, Expire, false);
      }
      if args.term > currentTerm {
        status := Follower;
        currentTerm := args.term;
        votedFor := NO_VOTE;
      }
      var lastIndex, lastTerm := GetLastLogIndex(), GetLastLogTerm();
      if !(args.lastLogTerm > lastTerm || (args.lastLogTerm == lastTerm && args.lastLogIndex >= lastIndex)) {
        return VoteReply(currentTerm, Voted, false);
      }
      if votedFor != NO_VOTE && votedFor != args.candidateId {
        return VoteReply(currentTerm, Voted, false);
      }
      votedFor := args.candidateId;
      reply := VoteReply(currentTerm, Normal, true);
    }

    /** Consumes one reply of an election whose counter stands at votedNum; no counter comes back when the
        process stops because the server already leads the term it has just won. */
    method ReceiveVote(reply: VoteReply, votedNum: int) returns (num: Option<int>)
      requires Valid()
      modifies this
      ensures num == None <==> VoteWins(old(State()), reply, votedNum) && old(status) == Leader
      ensures num.Some? ==> (State(), num.value) == HandleVoteReply(old(State()), reply, votedNum)
      ensures num.Some? ==> Valid() && Progress(old(State()), State())
    {
      if reply.term > currentTerm {
        status := Follower;
        currentTerm := reply.term;
        votedFor := NO_VOTE;
        return Some(votedNum);
      } else if reply.term < currentTerm {
        return Some(votedNum);
      }
      if !reply.voteGranted {
        return Some(votedNum);
      }
      num := Some(votedNum + 1);
      if num.value >= peers / 2 + 1 {
        if status == Leader {
          return None;
        }
        num := Some(0);
        status := Leader;
        var lastLogIndex := GetLastLogIndex();
        for i := 0 to |nextIndex|
          invariant |nextIndex| == |matchIndex| == peers
          invariant forall j :: 0 <= j < i ==> nextIndex[j] == lastLogIndex + 1 && matchIndex[j] == 0
          invariant State() == old(State()).(status := Leader, nextIndex := nextIndex, matchIndex := matchIndex)
        {
          nextIndex := nextIndex[i := lastLogIndex + 1];
          matchIndex := matchIndex[i := 0];
        }
        assert State() == BecomeLeader(old(State()));
      }
    }

    // ---------- replication ----------

    /** A leader appends a client's command to its own log. */
    method Start(command: string) returns (newIndex: int, newTerm: int, isLeader: bool)
      requires Valid()
      modifies this
      ensures State() == RaftNode.Start(old(State()), command) && Valid() && Progress(old(State()), State())
      ensures isLeader == (old(status) == Leader)
      ensures isLeader ==> newIndex == LastIndex(State()) && newTerm == LastTerm(State()) == currentTerm
    {
      if status != Leader {
        return -1, -1, false;
      }
      var entry := LogEntry(command, currentTerm, GetLastLogIndex() + 1);
      logs := logs + [entry];
      return entry.logIndex, entry.logTerm, true;
    }

    /** One heartbeat round: every other server is sent either the rest of the log from its next entry on, or,
        when compaction has removed that entry, a snapshot. The process stops when a nextIndex is past the log. */
    method DoHeartBeat() returns (ok: bool, requests: map<nat, AppendArgs>, snapshots: set<nat>)
      requires Valid()
      ensures !ok <==> HeartbeatStops(State())
      ensures status != Leader ==> requests == map[] && snapshots == {}
      ensures status == Leader && ok ==>
                && (forall i: nat :: i in snapshots <==> i < peers && i != me && nextIndex[i] <= snapIndex)
                && (forall i: nat :: i in requests <==> i < peers && i != me && SendsEntries(State(), i))
                && (forall i: nat :: i < peers && i != me ==> i in snapshots || i in requests)
                && (forall i: nat :: i in requests ==> requests[i] == MakeAppendArgs(State(), i))
      ensures forall i: nat :: i in requests ==>
                EndOf(requests[i]) == LastIndex(State()) && Contiguous(requests[i].entries, requests[i].prevLogIndex)
    {
      hide EndOf, LastIndex, Contiguous;
      ok, requests, snapshots := true, map[], {};
      if status != Leader { return; }
      for i := 0 to peers
        invariant ok && forall j: nat :: j < i ==> !PastLog(State(), j)
        invariant forall j: nat :: j < i && j != me ==> j in snapshots || j in requests
        invariant forall j: nat :: j in snapshots <==> j < i && j != me && nextIndex[j] <= snapIndex
        invariant forall j: nat :: j in requests <==> j < i && j != me && SendsEntries(State(), j)
        invariant forall j: nat :: j in requests ==> requests[j] == MakeAppendArgs(State(), j)
        invariant forall j: nat :: j in requests ==>
                    EndOf(requests[j]) == LastIndex(State())
                      && Contiguous(requests[j].entries, requests[j].prevLogIndex)
      {
        if i == me { continue; }
        assert nextIndex[i] >= 1;
        if nextIndex[i] <= snapIndex {
          assert snapIndex <= LastIndex(State());
          snapshots := snapshots + {i};
          continue;
        }
        if nextIndex[i] - 1 > GetLastLogIndex() {
          assert PastLog(State(), i);
          return false, requests, snapshots;
        }
        var request := RequestFor(i);
        requests := requests[i := request];
      }
    }

    method RequestFor(server: nat) returns (request: AppendArgs)
      requires Valid() && SendsEntries(State(), server)
      ensures request == MakeAppendArgs(State(), server)
      ensures EndOf(request) == LastIndex(State()) && Contiguous(request.entries, request.prevLogIndex)
    {
      var prevLogIndex, prevLogTerm := GetPrevLogInfo(server);
      var entries := [];
      if prevLogIndex != snapIndex {
        var first := GetSlicesIndexFromLogIndex(prevLogIndex) + 1;
        for j := first to |logs|
          invariant entries == logs[first..j]
        {
          entries := entries + [logs[j]];
        }
      } else {
        entries := logs;
      }
      assert prevLogIndex + |entries| == GetLastLogIndex();
      request := AppendArgs(currentTerm, me, prevLogIndex, prevLogTerm, entries, commitIndex);
    }

    method GetPrevLogInfo(server: nat) returns (prevIndex: int, prevTerm: int)
      requires Valid() && SendsEntries(State(), server)
      ensures prevIndex == nextIndex[server] - 1 && prevTerm == TermAt(State(), prevIndex)
    {
      if nextIndex[server] == snapIndex + 1 {
        return snapIndex, snapTerm;
      }
      prevIndex := nextIndex[server] - 1;
      prevTerm := logs[GetSlicesIndexFromLogIndex(prevIndex)].logTerm;
    }

    /** Handles a request whose entries are contiguous. No reply comes back when the process stops on two
        entries of one index and term with different commands. */
    method AppendEntries(args: AppendArgs) returns (reply: Option<AppendReply>)
      requires Valid() && Contiguous(args.entries, args.prevLogIndex)
      modifies this
      ensures reply == None <==> AppendCrashes(old(State()), args)
      ensures reply.Some? ==> (State(), reply.value) == HandleAppend(AsWritten, old(State()), args)
      ensures reply.Some? ==>
          Valid() && Progress(old(State()), State()) && LastIndex(State()) >= old(LastIndex(State()))
    {
      hide Merge, Clash, BackOff, Contiguous;
      if args.term < currentTerm {
        return Some(AppendReply(currentTerm, false, KEEP_NEXT_INDEX, AppNormal));
      }
      if args.term > currentTerm {
        status := Follower;
        currentTerm := args.term;
        votedFor := NO_VOTE;
      }
      status := Follower;
      if args.prevLogIndex > GetLastLogIndex() {
        return Some(AppendReply(currentTerm, false, GetLastLogIndex() + 1, AppNormal));
      } else if args.prevLogIndex < snapIndex {
        return Some(AppendReply(currentTerm, false, snapIndex + 1, AppNormal));
      }
      if GetLogTermFromLogIndex(args.prevLogIndex) == args.prevLogTerm {
        var ok := AppendLogs(args);
        if !ok { return None; }
        assert GetLastLogIndex() >= args.prevLogIndex + |args.entries|;
        if args.leaderCommit > commitIndex {
          commitIndex := if args.leaderCommit <= GetLastLogIndex() then args.leaderCommit else GetLastLogIndex();
        }
        assert GetLastLogIndex() >= commitIndex;
        reply := Some(AppendReply(currentTerm, true, 0, AppNormal));
      } else {
        var next := BackOffFrom(args.prevLogIndex);
        reply := Some(AppendReply(currentTerm, false, next, AppNormal));
      }
    }

    /** The append loop: an entry beyond the log is added, one whose term differs replaces the stored one, and
        nothing is removed. */
    method AppendLogs(args: AppendArgs) returns (ok: bool)
      requires Valid() && status == Follower && Contiguous(args.entries, args.prevLogIndex)
      requires snapIndex <= args.prevLogIndex <= LastIndex(State())
      modifies this`logs
      ensures ok <==> !Clash(old(logs), args.prevLogIndex - snapIndex, args.entries)
      ensures ok ==> logs == Merge(AsWritten, old(logs), args.prevLogIndex - snapIndex, args.entries)
      ensures ok ==> Valid() && LastIndex(State()) >= Max(old(LastIndex(State())), EndOf(args))
    {
      hide Merge, Clash;
      ghost var was := logs;
      var at := args.prevLogIndex - snapIndex;
      var i := 0;
      MergeNothing(logs, at);
      while i < |args.entries|
        invariant 0 <= i <= |args.entries| && Valid() && |logs| >= at + i && |logs| >= |was|
        invariant logs == Merge(AsWritten, was, at, args.entries[..i]) && !Clash(was, at, args.entries[..i])
      {
        var log := args.entries[i];
        MergeOne(was, at, args.entries[..i], log);
        ClashOne(was, at, args.entries[..i], log);
        assert args.entries[..i + 1] == args.entries[..i] + [log];
        if log.logIndex > GetLastLogIndex() {
          logs := logs + [log];
        } else {
          var slot := GetSlicesIndexFromLogIndex(log.logIndex);
          if logs[slot].logTerm == log.logTerm && logs[slot].command != log.command {
            ClashStays(was, at, args.entries, i);
            return false;
          }
          if logs[slot].logTerm != log.logTerm {
            logs := logs[slot := log];
          }
        }
        i := i + 1;
      }
      assert args.entries[..i] == args.entries;
      ok := true;
    }

    /** The index a failed consistency check suggests: just after the last entry below prevLogIndex whose term
        differs, or prevLogIndex itself when there is none. */
    method BackOffFrom(prevLogIndex: int) returns (next: int)
      requires Valid() && snapIndex <= prevLogIndex <= LastIndex(State())
      ensures next == BackOff(State(), prevLogIndex)
    {
      next := prevLogIndex;
      var index := prevLogIndex;
      while index >= snapIndex
        invariant snapIndex - 1 <= index <= prevLogIndex && next == prevLogIndex
        invariant BackOff(State(), prevLogIndex)
                  == ScanBack(State(), index, TermAt(State(), prevLogIndex), prevLogIndex)
      {
        if GetLogTermFromLogIndex(index) != GetLogTermFromLogIndex(prevLogIndex) {
          return index + 1;
        }
        index := index - 1;
      }
    }

    /** Consumes one reply of a heartbeat round whose counter stands at appendNums. The request was one of
        this server's, so it ends inside the log; whatever index a failure suggests is taken over. */
    method ReceiveAppend(peer: nat, args: AppendArgs, reply: AppendReply, appendNums: int) returns (num: int)
      requires Valid() && peer < peers && 0 <= EndOf(args) <= LastIndex(State())
      requires reply.updateNextIndex == KEEP_NEXT_INDEX || reply.success || 1 <= reply.updateNextIndex
      modifies this
      ensures (State(), num) == HandleAppendReply(old(State()), peer, args, reply, appendNums)
      ensures Valid() && Progress(old(State()), State())
    {
      num := appendNums;
      if reply.appState == Disconnected { return; }
      if reply.term > currentTerm {
        status := Follower;
        currentTerm := reply.term;
        votedFor := NO_VOTE;
        return;
      } else if reply.term < currentTerm {
        return;
      }
      if status != Leader { return; }
      if !reply.success {
        if reply.updateNextIndex != KEEP_NEXT_INDEX {
          nextIndex := nextIndex[peer := reply.updateNextIndex];
        }
      } else {
        num := num + 1;
        matchIndex := matchIndex[peer := Max(matchIndex[peer], args.prevLogIndex + |args.entries|)];
        nextIndex := nextIndex[peer := matchIndex[peer] + 1];
        assert nextIndex[peer] <= GetLastLogIndex() + 1;
        if num >= 1 + peers / 2 {
          num := 0;
          if |args.entries| > 0 && args.entries[|args.entries| - 1].logTerm == currentTerm {
            commitIndex := Max(commitIndex, args.prevLogIndex + |args.entries|);
          }
          assert commitIndex <= GetLastLogIndex();
        }
      }
    }

    /** The counting rule applied directly: the largest index that a majority holds and whose entry is of the
        current term becomes the commit index, the snapshot index if there is none. It can be smaller than the
        commit index was. */
    method LeaderUpdateCommitIndex()
      requires Valid()
      modifies this`commitIndex
      ensures snapIndex <= commitIndex <= LastIndex(State())
      ensures commitIndex > snapIndex ==> CommitRule(old(State()), commitIndex)
      ensures forall i :: CommitRule(old(State()), i) ==> i <= commitIndex
    {
      ghost var n := State();
      commitIndex := snapIndex;
      var index := GetLastLogIndex();
      while index >= snapIndex + 1
        invariant commitIndex == snapIndex <= index <= LastIndex(n) && State() == n.(commitIndex := commitIndex)
        invariant forall i :: CommitRule(n, i) ==> i <= index
      {
        var sum := CountHolders(index);
        assert Holders(State(), index) == Holders(n, index);
        assert TermAt(State(), index) == TermAt(n, index);
        if sum >= peers / 2 + 1 && logs[index - snapIndex - 1].logTerm == currentTerm {
          commitIndex := index;
          break;
        }
        index := index - 1;
      }
    }

    method CountHolders(index: int) returns (sum: nat)
      requires |matchIndex| == peers
      ensures sum == |Holders(State(), index)|
    {
      sum := 0;
      ghost var counted: set<nat> := {};
      for i := 0 to peers
        invariant counted == set j: nat | j < i && (j == me || matchIndex[j] >= index)
        invariant sum == |counted|
      {
        if i == me || matchIndex[i] >= index {
          sum := sum + 1;
          counted := counted + {i};
        }
      }
      assert counted == Holders(State(), index);
    }

    // ---------- applying and compaction ----------

    /** Hands over everything committed and not yet applied. */
    method GetApplyLogs() returns (msgs: seq<ApplyMsg>)
      requires Valid()
      modifies this`lastApplied
      ensures (State(), msgs) == ApplyLogs(old(State()))
      ensures Valid() && Progress(old(State()), State())
    {
      hide Commands;
      assert commitIndex <= GetLastLogIndex();
      msgs := [];
      CommandsNone(lastApplied);
      ghost var from := lastApplied;
      while lastApplied < commitIndex
        invariant Valid() && from <= lastApplied <= commitIndex
        invariant State() == old(State()).(lastApplied := lastApplied)
        invariant msgs == Commands(logs[from - snapIndex..lastApplied - snapIndex], from)
      {
        lastApplied := lastApplied + 1;
        var slot := GetSlicesIndexFromLogIndex(lastApplied);
        assert logs[slot].logIndex == lastApplied;
        msgs := msgs + [CommandMsg(logs[slot].command, lastApplied)];
        CommandsGrow(logs, from - snapIndex, slot, from);
      }
    }

    /** The key-value server has a snapshot of everything through `index`; the log keeps what comes after. */
    method Snapshot(index: int)
      requires Valid()
      modifies this
      ensures State() == RaftNode.Snapshot(old(State()), index)
      ensures snapIndex == if old(snapIndex) < index <= old(commitIndex) then index else old(snapIndex)
      ensures forall i :: snapIndex <= i <= LastIndex(State()) ==> TermAt(State(), i) == TermAt(old(State()), i)
      ensures Valid() && Progress(old(State()), State()) && LastIndex(State()) == old(LastIndex(State()))
    {
      if snapIndex >= index || index > commitIndex {
        return;
      }
      var newTerm := logs[GetSlicesIndexFromLogIndex(index)].logTerm;
      var kept := [];
      var last := GetLastLogIndex();
      for i := index + 1 to last + 1
        invariant kept == logs[index - snapIndex..i - 1 - snapIndex]
      {
        kept := kept + [logs[GetSlicesIndexFromLogIndex(i)]];
      }
      snapIndex, snapTerm, logs := index, newTerm, kept;
      commitIndex, lastApplied := Max(commitIndex, index), Max(lastApplied, index);
      assert |logs| + snapIndex == last;
    }

    /** A leader's snapshot replaces the log through its last index. */
    method InstallSnapshot(args: SnapshotArgs) returns (replyTerm: int, msgs: seq<ApplyMsg>)
      requires Valid()
      modifies this
      ensures (State(), msgs) == RaftNode.InstallSnapshot(old(State()), args)
      ensures replyTerm == SnapshotReplyTerm(old(State()), State(), args)
      ensures Valid() && Progress(old(State()), State()) && LastIndex(State()) >= old(LastIndex(State()))
    {
      replyTerm, msgs := 0, [];
      if args.term < currentTerm {
        return currentTerm, [];
      }
      if args.term > currentTerm {
        currentTerm := args.term;
        votedFor := NO_VOTE;
        status := Follower;
      }
      status := Follower;
      if args.lastIndex <= snapIndex { return; }
      ReplaceThrough(args.lastIndex, args.lastTerm);
      return currentTerm, [SnapshotMsg(args.data, args.lastTerm, args.lastIndex)];
    }

    /** A snapshot takes the place of the log through its index. */
    method ReplaceThrough(index: int, term: int)
      requires Valid() && status == Follower && index > snapIndex
      modifies this
      ensures var n := old(State());
              State() == n.(logs := if LastIndex(n) > index then n.logs[index - n.snapIndex..] else [],
                            commitIndex := Max(n.commitIndex, index), lastApplied := Max(n.lastApplied, index),
                            snapIndex := index, snapTerm := term)
      ensures Valid() && LastIndex(State()) == Max(old(LastIndex(State())), index)
    {
      if GetLastLogIndex() > index {
        logs := logs[GetSlicesIndexFromLogIndex(index) + 1..];
      } else {
        logs := [];
      }
      commitIndex, lastApplied := Max(commitIndex, index), Max(lastApplied, index);
      snapIndex, snapTerm := index, term;
    }

    /** What a peer is sent whose next entry is compacted, whether or not this server still leads. */
    method SendSnapshot(data: string) returns (args: SnapshotArgs)
      requires Valid()
      ensures args == MakeSnapshotArgs(State(), data) && 0 <= args.lastIndex <= commitIndex
    {
      args := SnapshotArgs(me, currentTerm, snapIndex, snapTerm, data);
    }

    method ReceiveSnapshotReply(peer: nat, args: SnapshotArgs, replyTerm: int)
      requires Valid() && peer < peers && 0 <= args.lastIndex <= LastIndex(State())
      modifies this
      ensures State() == HandleSnapshotReply(old(State()), peer, args, replyTerm)
      ensures Valid() && Progress(old(State()), State())
    {
      if status != Leader || currentTerm != args.term { return; }
      if replyTerm > currentTerm {
        currentTerm := replyTerm;
        votedFor := NO_VOTE;
        status := Follower;
        return;
      }
      matchIndex := matchIndex[peer := args.lastIndex];
      nextIndex := nextIndex[peer := matchIndex[peer] + 1];
    }
  }

  // ---------- handing over commands ----------

  lemma CommandsNone(base: int)
    ensures Commands([], base) == []
  {}

  lemma CommandsLast(logs: seq<LogEntry>, base: int)
    requires logs != []
    ensures var n := |logs| - 1;
            Commands(logs, base) == Commands(logs[..n], base) + [CommandMsg(logs[n].command, base + 1 + n)]
  {}

  lemma SliceLast(logs: seq<LogEntry>, i: nat, j: nat)
    requires i <= j < |logs|
    ensures logs[i..j + 1] != [] && logs[i..j + 1][..j - i] == logs[i..j] && logs[i..j + 1][j - i] == logs[j]
  {}

  lemma CommandsGrow(logs: seq<LogEntry>, i: nat, j: nat, base: int)
    requires i <= j < |logs|
    ensures Commands(logs[i..j + 1], base)
            == Commands(logs[i..j], base) + [CommandMsg(logs[j].command, base + 1 + j - i)]
  {
    hide Commands;
    SliceLast(logs, i, j);
    CommandsLast(logs[i..j + 1], base);
  }

  // ---------- the index suggested after a failed check ----------

  lemma {:induction false} ScanBackMeans(n: Node, from: int, term: int, none: int)
    requires n.snapIndex - 1 <= from <= LastIndex(n)
    ensures var r := ScanBack(n, from, term, none);
            || (r == none && forall i :: n.snapIndex <= i <= from ==> TermAt(n, i) == term)
            || (n.snapIndex < r <= from + 1 && TermAt(n, r - 1) != term
                 && forall i :: r <= i <= from ==> TermAt(n, i) == term)
    decreases from - n.snapIndex
  {
    if from >= n.snapIndex && TermAt(n, from) == term { ScanBackMeans(n, from - 1, term, none); }
  }

  /** From the suggested index through prevLogIndex the follower's terms are all the same, and right before it
      they differ; or they are the same all the way down, and prevLogIndex itself is suggested. */
  lemma BackOffMeans(n: Node, prev: int)
    requires n.snapIndex <= prev <= LastIndex(n)
    ensures var r := BackOff(n, prev);
            && r <= prev && (forall i :: n.snapIndex <= i && r <= i <= prev ==> TermAt(n, i) == TermAt(n, prev))
            && (if n.snapIndex < r && TermAt(n, r - 1) != TermAt(n, prev) then true
                else r == prev && forall i :: n.snapIndex <= i <= prev ==> TermAt(n, i) == TermAt(n, prev))
  {
    ScanBackMeans(n, prev, TermAt(n, prev), prev);
  }

  // ---------- the append loop, entry by entry ----------

  lemma MergeNothing(logs: seq<LogEntry>, at: nat)
    requires at <= |logs|
    ensures Merge(AsWritten, logs, at, []) == logs && !Clash(logs, at, [])
  {}

  /** One more entry extends the merged log or replaces one slot of it. */
  lemma MergeOne(logs: seq<LogEntry>, at: nat, entries: seq<LogEntry>, e: LogEntry)
    requires at <= |logs|
    ensures var k := at + |entries|;
            var before, after := Merge(AsWritten, logs, at, entries), Merge(AsWritten, logs, at, entries + [e]);
            if k >= |before| then k == |before| && after == before + [e]
            else
              && k < |logs| && before[k] == logs[k]
              && after == before[k := if logs[k].logTerm == e.logTerm then logs[k] else e]
  {
    OverlayOne(logs, at, entries, e);
    hide Clash, Overlay;
    if at + |entries| < |logs| {
      SpliceOne(logs, at + |entries|, Overlay(logs, at, entries),
                if logs[at + |entries|].logTerm == e.logTerm then logs[at + |entries|] else e);
    }
  }

  /** In front of the rest of a list, one more element takes the place of the next one. */
  lemma SpliceOne(logs: seq<LogEntry>, k: nat, over: seq<LogEntry>, x: LogEntry)
    requires k < |logs| && |over| == k
    ensures (over + logs[k..])[k] == logs[k] && over + [x] + logs[k + 1..] == (over + logs[k..])[k := x]
  {}

  lemma OverlayOne(logs: seq<LogEntry>, at: nat, entries: seq<LogEntry>, e: LogEntry)
    requires at <= |logs|
    ensures var k := at + |entries|;
            Overlay(logs, at, entries + [e])
            == Overlay(logs, at, entries) + [if k < |logs| && logs[k].logTerm == e.logTerm then logs[k] else e]
  {
    var more := entries + [e];
    assert more[|entries|] == e && forall i :: 0 <= i < |entries| ==> more[i] == entries[i];
  }

  lemma ClashOne(logs: seq<LogEntry>, at: nat, entries: seq<LogEntry>, e: LogEntry)
    requires at <= |logs|
    ensures Clash(logs, at, entries + [e]) <==>
              Clash(logs, at, entries) || (at + |entries| < |logs| && logs[at + |entries|].logTerm == e.logTerm
                                           && logs[at + |entries|].command != e.command)
  {
    var more := entries + [e];
    assert more[|entries|] == e && forall i :: 0 <= i < |entries| ==> more[i] == entries[i];
  }

  lemma ClashStays(logs: seq<LogEntry>, at: nat, entries: seq<LogEntry>, i: nat)
    requires i < |entries| && Clash(logs, at, entries[..i + 1])
    ensures Clash(logs, at, entries)
  {
    var j :| 0 <= j < i + 1 && at + j < |logs| && logs[at + j].logTerm == entries[..i + 1][j].logTerm
             && logs[at + j].command != entries[..i + 1][j].command;
    assert entries[j] == entries[..i + 1][j];
  }
}
