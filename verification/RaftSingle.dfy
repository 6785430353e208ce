/** One server by itself, as written and with compaction: any interleaving of its handlers, fed requests with
    contiguous entries and replies to requests it has sent. RaftProjection shows that the servers of a cluster
    run like this. */
module RaftSingle {
  import opened RaftTypes
  import opened RaftNode
  import opened RaftWorld
  import opened RaftServer

  /** The server, what it has sent, and the messages its handlers have produced for the key-value server. */
  datatype Local = Local(node: Node, appends: set<AppendArgs>, snapshots: set<SnapshotArgs>, stream: seq<ApplyMsg>)

  datatype Input =
    | Elect
    | Vote(vote: VoteArgs)
    | VoteReplied(voteReply: VoteReply, votedNum: int)
    | Command(command: string)
    | Beat
    | Append(append: AppendArgs)
    | AppendReplied(to: nat, append: AppendArgs, appendReply: AppendReply, appendNums: int)
    | Apply
    | Compact(index: int)
    | SendSnapshot(data: string)
    | Install(snapshot: SnapshotArgs)
    | SnapshotReplied(to: nat, snapshot: SnapshotArgs, replyTerm: int)

  /** What callers and the network guarantee. A snapshot is requested only of what has been handed over, and a
      rejected request is answered with an index of at least 1 (see SuggestionsArePositive); inputs on which the
      process stops are not taken. */
  ghost predicate Allowed(l: Local, i: Input) {
    match i
    case VoteReplied(r, num) => !(VoteWins(l.node, r, num) && l.node.status == Leader)
    case Append(a) => Contiguous(a.entries, a.prevLogIndex) && !AppendCrashes(l.node, a)
    case AppendReplied(to, a, r, _) =>
      && to < l.node.peers && to < |l.node.nextIndex| && to < |l.node.matchIndex| && a in l.appends
      && (r.success || r.updateNextIndex == KEEP_NEXT_INDEX || 1 <= r.updateNextIndex)
    case Beat => !HeartbeatStops(l.node)
    case Apply => l.node.snapIndex <= l.node.lastApplied && l.node.commitIndex <= LastIndex(l.node)
    case Compact(index) => index <= l.node.lastApplied && l.node.commitIndex <= LastIndex(l.node)
    case SnapshotReplied(to, s, _) =>
      to < l.node.peers && to < |l.node.nextIndex| && to < |l.node.matchIndex| && s in l.snapshots
    case _ => true
  }

  ghost function React(l: Local, i: Input): Local
    requires Allowed(l, i)
  {
    match i
    case Elect => if l.node.status == Leader then l else l.(node := BecomeCandidate(l.node))
    case Vote(a) => l.(node := HandleVote(l.node, a).0)
    case VoteReplied(r, num) => l.(node := HandleVoteReply(l.node, r, num).0)
    case Command(command) => l.(node := Start(l.node, command))
    case Beat => if l.node.status != Leader then l else l.(appends := l.appends + Requests(l.node))
    case Append(a) => l.(node := HandleAppend(AsWritten, l.node, a).0)
    case AppendReplied(to, a, r, num) => l.(node := HandleAppendReply(l.node, to, a, r, num).0)
    case Apply => var (n, msgs) := ApplyLogs(l.node); l.(node := n, stream := l.stream + msgs)
    case Compact(index) => l.(node := Snapshot(l.node, index))
    case SendSnapshot(data) =>
      l.(snapshots := l.snapshots + {MakeSnapshotArgs(l.node, data)})
    case Install(s) => var (n, msgs) := InstallSnapshot(l.node, s); l.(node := n, stream := l.stream + msgs)
    case SnapshotReplied(to, s, term) => l.(node := HandleSnapshotReply(l.node, to, s, term))
  }

  ghost function Requests(n: Node): set<AppendArgs> {
    set p: nat | p < n.peers && p != n.me && SendsEntries(n, p) :: MakeAppendArgs(n, p)
  }

  ghost predicate LocalNext(l: Local, l': Local) { exists i :: Allowed(l, i) && l' == React(l, i) }

  ghost predicate IsLocalRun(run: seq<Local>) {
    && |run| > 0
    && (exists me: nat, peers: nat :: me < peers && run[0] == Local(Init(me, peers), {}, {}, []))
    && forall k :: 0 <= k < |run| - 1 ==> LocalNext(run[k], run[k + 1])
  }

  // ---------- the stream of messages ----------

  /** How far a stream has brought its receiver. */
  function Reached(stream: seq<ApplyMsg>): int {
    if stream == [] then 0
    else
      var before := Reached(stream[..|stream| - 1]);
      match stream[|stream| - 1]
      case CommandMsg(_, index) => index
      case SnapshotMsg(_, _, index) => Max(before, index)
  }

  /** Every command is the one right after where the stream stood. */
  predicate Gapless(stream: seq<ApplyMsg>) {
    forall k :: 0 <= k < |stream| && stream[k].CommandMsg? ==> stream[k].index == Reached(stream[..k]) + 1
  }

  ghost predicate LocalInv(l: Local) {
    && WellFormed(l.node) && InBounds(l.node)
    && (forall a :: a in l.appends ==> 0 <= EndOf(a) <= LastIndex(l.node))
    && (forall s :: s in l.snapshots ==> 0 <= s.lastIndex <= LastIndex(l.node))
    && Gapless(l.stream) && Reached(l.stream) == l.node.lastApplied
  }

  lemma ReachedOne(stream: seq<ApplyMsg>, m: ApplyMsg)
    ensures Reached(stream + [m]) == if m.CommandMsg? then m.index else Max(Reached(stream), m.index)
    ensures Gapless(stream) && (m.CommandMsg? ==> m.index == Reached(stream) + 1) ==> Gapless(stream + [m])
  {
    assert (stream + [m])[..|stream|] == stream;
    forall k | 0 <= k < |stream| ensures (stream + [m])[..k] == stream[..k] {}
  }

  /** Handing over a slice of the log right after where the stream stands keeps it gapless. */
  lemma {:induction false} CommandsFollow(stream: seq<ApplyMsg>, logs: seq<LogEntry>)
    requires Gapless(stream)
    ensures Gapless(stream + Commands(logs, Reached(stream)))
    ensures Reached(stream + Commands(logs, Reached(stream))) == Reached(stream) + |logs|
  {
    var msgs := Commands(logs, Reached(stream));
    if logs == [] {
      assert stream + msgs == stream;
    } else {
      hide Gapless, Reached;
      var init := logs[..|logs| - 1];
      CommandsFollow(stream, init);
      var before := Commands(init, Reached(stream));
      CommandsLast(logs, Reached(stream));
      ReachedOne(stream + before, msgs[|init|]);
      hide Commands;
      assert stream + msgs == stream + before + [msgs[|init|]];
    }
  }

  lemma {:induction false} ReachedMonotone(stream: seq<ApplyMsg>, k: nat)
    requires Gapless(stream) && k <= |stream|
    ensures 0 <= Reached(stream[..k]) <= Reached(stream)
    decreases |stream|
  {
    if stream == [] {
    } else {
      var init := stream[..|stream| - 1];
      assert forall j :: 0 <= j <= |init| ==> init[..j] == stream[..j];
      ReachedMonotone(init, if k < |stream| then k else |init|);
      if k == |stream| { assert stream[..k] == stream; }
    }
  }

  /** No index is handed over twice, and commands come in order. */
  lemma CommandsIncrease(stream: seq<ApplyMsg>, k: nat, m: nat)
    requires Gapless(stream) && k < m < |stream| && stream[k].CommandMsg? && stream[m].CommandMsg?
    ensures stream[k].index < stream[m].index
  {
    var before := stream[..m];
    assert Gapless(before) by { assert forall j :: 0 <= j <= m ==> before[..j] == stream[..j]; }
    ReachedMonotone(before, k + 1);
    assert before[..k + 1] == stream[..k] + [stream[k]];
    ReachedOne(stream[..k], stream[k]);
  }

  /** The message hands over the command at x, or a snapshot that covers x. */
  predicate Covers(m: ApplyMsg, x: int) { if m.CommandMsg? then m.index == x else m.index >= x }

  /** An index the stream has passed was handed over as a command unless a snapshot covers it. */
  lemma {:induction false} NothingSkipped(stream: seq<ApplyMsg>, x: int) returns (k: nat)
    requires Gapless(stream) && 1 <= x <= Reached(stream)
    ensures k < |stream| && Covers(stream[k], x)
    decreases |stream|
  {
    var init := stream[..|stream| - 1];
    assert Gapless(init) by { assert forall j :: 0 <= j <= |init| ==> init[..j] == stream[..j]; }
    if x <= Reached(init) {
      k := NothingSkipped(init, x);
    } else {
      assert stream[..|init|] == init;
      k := |init|;
    }
  }

  // ---------- every handler, every run ----------

  ghost predicate Forward(n: Node, n': Node) {
    WellFormed(n') && InBounds(n') && Progress(n, n') && LastIndex(n) <= LastIndex(n')
  }

  lemma HandlersKeepNode(l: Local, i: Input)
    requires LocalInv(l) && Allowed(l, i)
    ensures Forward(l.node, React(l, i).node)
  {
    hide Forward, WellFormed, InBounds, Gapless, Reached, HandleAppend, HandleAppendReply, InstallSnapshot,
      AppendCrashes, HandleVote, HandleVoteReply, ApplyLogs, Snapshot, HandleSnapshotReply, Start, BecomeCandidate,
      LastIndex, VoteWins, Contiguous, EndOf, Requests;
    match i
    case Append(a) => AppendKeepsNode(l.node, a);
    case AppendReplied(to, a, r, num) => AppendReplyKeepsNode(l.node, to, a, r, num);
    case Install(s) => InstallKeepsNode(l.node, s);
    case SnapshotReplied(to, s, term) => SnapshotReplyKeepsNode(l.node, to, s, term);
    case Elect | Vote(_) | VoteReplied(_, _) => VoteInputKeepsNode(l, i);
    case _ => PlainInputKeepsNode(l.node, i);
  }

  lemma PlainInputKeepsNode(n: Node, i: Input)
    requires WellFormed(n) && InBounds(n)
    ensures i.Command? ==> Forward(n, Start(n, i.command))
    ensures i.Apply? ==> Forward(n, ApplyLogs(n).0)
    ensures i.Compact? && i.index <= n.lastApplied ==> Forward(n, Snapshot(n, i.index))
    ensures Forward(n, n)
  {}

  lemma SnapshotReplyKeepsNode(n: Node, to: nat, s: SnapshotArgs, term: int)
    requires WellFormed(n) && InBounds(n) && to < n.peers && 0 <= s.lastIndex <= LastIndex(n)
    ensures Forward(n, HandleSnapshotReply(n, to, s, term))
  {}

  lemma VoteInputKeepsNode(l: Local, i: Input)
    requires LocalInv(l) && Allowed(l, i) && (i.Elect? || i.Vote? || i.VoteReplied?)
    ensures Forward(l.node, React(l, i).node)
  {
    hide Gapless, UpToDate;
  }

  lemma AppendKeepsNode(n: Node, a: AppendArgs)
    requires WellFormed(n) && InBounds(n) && Contiguous(a.entries, a.prevLogIndex) && !AppendCrashes(n, a)
    ensures Forward(n, HandleAppend(AsWritten, n, a).0)
  {
    hide Forward, WellFormed, InBounds, Merge, Clash, BackOff, Contiguous;
    if AppendMatches(n, a) { AcceptKeepsNode(n, a); } else { RejectKeepsNode(n, a); }
  }

  lemma AcceptKeepsNode(n: Node, a: AppendArgs)
    requires WellFormed(n) && Contiguous(a.entries, a.prevLogIndex) && AppendMatches(n, a)
    ensures Forward(n, AcceptAppend(AsWritten, Follow(n, a.term), a))
  {
    hide Conflicts;
  }

  lemma RejectKeepsNode(n: Node, a: AppendArgs)
    requires WellFormed(n) && InBounds(n)
    ensures Forward(n, n) && (a.term >= n.term ==> Forward(n, Follow(n, a.term)))
  {}

  lemma AppendReplyKeepsNode(n: Node, to: nat, a: AppendArgs, r: AppendReply, num: int)
    requires WellFormed(n) && InBounds(n) && to < n.peers && 0 <= EndOf(a) <= LastIndex(n)
    requires r.success || r.updateNextIndex == KEEP_NEXT_INDEX || 1 <= r.updateNextIndex
    ensures Forward(n, HandleAppendReply(n, to, a, r, num).0)
  {}

  lemma InstallKeepsNode(n: Node, s: SnapshotArgs)
    requires WellFormed(n) && InBounds(n)
    ensures Forward(n, InstallSnapshot(n, s).0)
  {}

  lemma RequestsEnd(n: Node, a: AppendArgs)
    requires WellFormed(n) && a in Requests(n)
    ensures 0 <= EndOf(a) <= LastIndex(n)
  {}

  lemma SentStaysInside(l: Local, i: Input)
    requires LocalInv(l) && Allowed(l, i)
    ensures var l' := React(l, i);
            && (forall a :: a in l'.appends ==> 0 <= EndOf(a) <= LastIndex(l'.node))
            && (forall s :: s in l'.snapshots ==> 0 <= s.lastIndex <= LastIndex(l'.node))
  {
    HandlersKeepNode(l, i);
    hide Gapless, InBounds, WellFormed, Allowed, Requests, EndOf, LastIndex;
    if i.Beat? {
      forall a | a in Requests(l.node) ensures 0 <= EndOf(a) <= LastIndex(l.node) { RequestsEnd(l.node, a); }
    }
    if i.SendSnapshot? { assert 0 <= l.node.snapIndex <= LastIndex(l.node) by { InvBounds(l); } }
  }

  lemma InvBounds(l: Local)
    requires LocalInv(l)
    ensures 0 <= l.node.snapIndex <= l.node.lastApplied <= l.node.commitIndex <= LastIndex(l.node)
  {}

  lemma StreamFollows(l: Local, i: Input)
    requires LocalInv(l) && Allowed(l, i)
    ensures var l' := React(l, i);
            l.stream <= l'.stream && Gapless(l'.stream) && Reached(l'.stream) == l'.node.lastApplied
  {
    hide InBounds;
    if i.Apply? {
      ApplyFollows(l);
    } else if i.Install? {
      InstallFollows(l, i.snapshot);
    } else {
      AppliedKept(l, i);
    }
  }

  lemma ApplyFollows(l: Local)
    requires LocalInv(l)
    ensures var (n, msgs) := ApplyLogs(l.node); Gapless(l.stream + msgs) && Reached(l.stream + msgs) == n.lastApplied
  {
    var n := l.node;
    hide Gapless, Reached, Commands, InBounds;
    if n.lastApplied < n.commitIndex {
      CommandsFollow(l.stream, n.logs[n.lastApplied - n.snapIndex..n.commitIndex - n.snapIndex]);
    } else {
      assert l.stream + [] == l.stream;
    }
  }

  lemma InstallFollows(l: Local, s: SnapshotArgs)
    requires LocalInv(l)
    ensures var (n, msgs) := InstallSnapshot(l.node, s);
            Gapless(l.stream + msgs) && Reached(l.stream + msgs) == n.lastApplied
  {
    hide Gapless, Reached, InBounds, WellFormed;
    var msgs := InstallSnapshot(l.node, s).1;
    if msgs == [] { assert l.stream + [] == l.stream; } else { ReachedOne(l.stream, msgs[0]); }
  }

  lemma AppliedKept(l: Local, i: Input)
    requires LocalInv(l) && Allowed(l, i) && !i.Apply? && !i.Install?
    ensures var l' := React(l, i); l'.stream == l.stream && l'.node.lastApplied == l.node.lastApplied
  {
    hide Gapless, Merge, BackOff, WellFormed, InBounds, MakeAppendArgs, Reached;
  }

  /** Asked for a snapshot of more than it has handed over, a server skips commands: this is why the key-value
      server's promise is needed. */
  lemma CompactionSkips(n: Node, index: int)
    requires WellFormed(n)
    ensures Snapshot(n, index).lastApplied > n.lastApplied <==> n.lastApplied < index <= n.commitIndex
  {}

  lemma StepKeepsLocal(l: Local, i: Input)
    requires LocalInv(l) && Allowed(l, i)
    ensures LocalInv(React(l, i)) && Progress(l.node, React(l, i).node) && l.stream <= React(l, i).stream
  {
    hide React, Allowed, Gapless, Reached;
    HandlersKeepNode(l, i);
    SentStaysInside(l, i);
    StreamFollows(l, i);
  }

  /** In every run of one server as written: entry i has index snapIndex + 1 + i, and
      snapIndex <= lastApplied <= commitIndex <= last index; the stream has no gap but a snapshot's. */
  lemma {:induction false} LocalRun(run: seq<Local>, k: nat)
    requires IsLocalRun(run) && k < |run|
    ensures LocalInv(run[k])
  {
    hide Allowed, React;
    if k == 0 {
      hide LocalNext;
    } else {
      LocalRun(run, k - 1);
      assert LocalNext(run[k - 1], run[k]);
      var i :| Allowed(run[k - 1], i) && run[k] == React(run[k - 1], i);
      StepKeepsLocal(run[k - 1], i);
    }
  }

  /** Term, commit, applied and snapshot index never go back, and what has been handed over stays. */
  lemma {:induction false} LocalRunMovesForward(run: seq<Local>, j: nat, k: nat)
    requires IsLocalRun(run) && j <= k < |run|
    ensures Progress(run[j].node, run[k].node) && run[j].stream <= run[k].stream
    decreases k
  {
    hide Allowed, React, LocalInv;
    if j < k {
      LocalRunMovesForward(run, j, k - 1);
      LocalRun(run, k - 1);
      assert LocalNext(run[k - 1], run[k]);
      var i :| Allowed(run[k - 1], i) && run[k] == React(run[k - 1], i);
      StepKeepsLocal(run[k - 1], i);
    }
  }

  /** The commands a server hands over in a run have strictly increasing indices, so none comes twice, and
      every index it has applied was handed over as a command or is covered by a snapshot. */
  lemma ApplyStream(run: seq<Local>, t: nat, x: int) returns (k: nat)
    requires IsLocalRun(run) && t < |run| && 1 <= x <= run[t].node.lastApplied
    ensures var stream := run[t].stream;
            && k < |stream| && Covers(stream[k], x)
            && forall j, m :: 0 <= j < m < |stream| && stream[j].CommandMsg? && stream[m].CommandMsg? ==>
                 stream[j].index < stream[m].index
  {
    hide IsLocalRun, Gapless, Covers;
    LocalRun(run, t);
    var stream := run[t].stream;
    k := NothingSkipped(stream, x);
    forall j, m | 0 <= j < m < |stream| && stream[j].CommandMsg? && stream[m].CommandMsg?
      ensures stream[j].index < stream[m].index
    {
      CommandsIncrease(stream, j, m);
    }
  }

  /** The index assertions of getApplyLogs, Snapshot and sendAppendEntries hold wherever a run has led, and
      doHeartBeat finds every nextIndex at least 1. */
  lemma LocalRunNeverCrashes(run: seq<Local>, k: nat, peer: nat)
    requires IsLocalRun(run) && k < |run| && peer < |run[k].node.nextIndex|
    ensures var n := run[k].node;
            && Allowed(run[k], Input.Apply)
                 && (forall index :: index <= n.lastApplied ==> Allowed(run[k], Input.Compact(index)))
            && (n.status == Leader ==> n.nextIndex[peer] >= 1)
            && (n.status == Leader && peer != n.me && n.nextIndex[peer] > n.snapIndex ==>
                  (PastLog(n, peer) <==> !SendsEntries(n, peer)))
            && forall a :: a in run[k].appends ==> EndOf(a) <= LastIndex(n)
  {
    LocalRun(run, k);
    hide Gapless, Reached, IsLocalRun;
  }

  // ---------- what followers suggest, and when heartbeats go on ----------

  /** A follower that rejects a request of at least its first index, or one whose terms at index 0 agree, asks
      the leader to keep nextIndex or suggests at least 1, at most prevLogIndex or one past its snapshot. */
  lemma SuggestionsArePositive(n: Node, a: AppendArgs)
    requires WellFormed(n) && 0 <= a.prevLogIndex
        && (a.prevLogIndex == n.snapIndex == 0 ==> a.prevLogTerm == n.snapTerm)
    requires !HandleAppend(AsWritten, n, a).1.success
    ensures var next := HandleAppend(AsWritten, n, a).1.updateNextIndex;
            next == KEEP_NEXT_INDEX || (1 <= next && (next <= a.prevLogIndex || next == n.snapIndex + 1))
  {
    hide Merge, BackOff, Contiguous;
    var f := Follow(n, a.term);
    if n.snapIndex <= a.prevLogIndex <= LastIndex(n) { BackOffMeans(f, a.prevLogIndex); }
  }

  /** What a follower suggests can be past the end of the request, and past all the leader has: here the leader's
      log ends at index 1, and the follower's snapshot at 5. */
  lemma SuggestionPastRequest() returns (follower: Node, request: AppendArgs)
    ensures WellFormed(follower) && EndOf(request) == 1 && request.term == follower.term
    ensures HandleAppend(AsWritten, follower, request).1 == AppendReply(follower.term, false, 6, AppNormal)
  {
    follower := Init(1, 3).(term := 2, snapIndex := 5, snapTerm := 1, commitIndex := 5, lastApplied := 5);
    request := AppendArgs(2, 0, 0, 0, [LogEntry("x", 1, 1)], 0);
  }

  /** A suggestion the leader acts on is not past its log. A snapshot is of committed entries, so a server whose log
      holds all that is committed is never told more; as written a leader need not (see RaftSnapshotAhead). */
  predicate Modest(l: Local, i: Input) {
    i.AppendReplied? && i.to != l.node.me && AppendReplyCounts(l.node, i.appendReply) && !i.appendReply.success ==>
      i.appendReply.updateNextIndex <= LastIndex(l.node) + 1
  }

  ghost predicate ModestNext(l: Local, l': Local) { exists i :: Allowed(l, i) && Modest(l, i) && l' == React(l, i) }

  ghost predicate IsModestRun(run: seq<Local>) {
    IsLocalRun(run) && forall k :: 0 <= k < |run| - 1 ==> ModestNext(run[k], run[k + 1])
  }

  lemma ModestStepBeats(l: Local, i: Input)
    requires LocalInv(l) && !HeartbeatStops(l.node) && Allowed(l, i) && Modest(l, i)
    ensures !HeartbeatStops(React(l, i).node)
  {
    hide LocalInv, Allowed, HandleAppend, HandleVote, HandleVoteReply, HandleAppendReply;
    match i
    case Append(a) => AppendFollows(l, a);
    case Vote(_) | VoteReplied(_, _) => VoteBeats(l, i);
    case AppendReplied(_, _, _, _) | SnapshotReplied(_, _, _) => ReplyBeats(l, i);
    case _ => PlainBeats(l, i);
  }

  lemma VoteBeats(l: Local, i: Input)
    requires LocalInv(l) && !HeartbeatStops(l.node) && Allowed(l, i) && (i.Vote? || i.VoteReplied?)
    ensures !HeartbeatStops(React(l, i).node)
  {
    hide Gapless, Reached, UpToDate, Contiguous;
    forall p: nat | React(l, i).node.status == Leader ensures !PastLog(React(l, i).node, p) {
      assert l.node.status == Leader ==> !PastLog(l.node, p);
    }
  }

  lemma ReplyBeats(l: Local, i: Input)
    requires LocalInv(l) && !HeartbeatStops(l.node) && Allowed(l, i) && Modest(l, i)
        && (i.AppendReplied? || i.SnapshotReplied?)
    ensures !HeartbeatStops(React(l, i).node)
  {
    hide Gapless, Reached, Contiguous;
    forall p: nat | React(l, i).node.status == Leader ensures !PastLog(React(l, i).node, p) {
      assert l.node.status == Leader ==> !PastLog(l.node, p);
    }
  }

  lemma PlainBeats(l: Local, i: Input)
    requires LocalInv(l) && !HeartbeatStops(l.node) && Allowed(l, i)
    requires !i.Append? && !i.Vote? && !i.VoteReplied? && !i.AppendReplied? && !i.SnapshotReplied?
    ensures !HeartbeatStops(React(l, i).node)
  {
    hide Gapless, Reached, Contiguous;
    forall p: nat | React(l, i).node.status == Leader ensures !PastLog(React(l, i).node, p) {
      assert l.node.status == Leader ==> !PastLog(l.node, p);
    }
  }

  lemma AppendFollows(l: Local, a: AppendArgs)
    requires Allowed(l, Append(a))
    ensures React(l, Append(a)).node.status == Follower || React(l, Append(a)).node == l.node
  {
    hide Merge, BackOff, Contiguous;
  }

  /** While every suggestion is modest, heartbeats go on: no nextIndex is ever past the leader's log. */
  lemma {:induction false} ModestRunBeats(run: seq<Local>, k: nat)
    requires IsModestRun(run) && k < |run|
    ensures !HeartbeatStops(run[k].node)
  {
    hide Allowed, React, LocalInv, HeartbeatStops, Modest;
    if k == 0 {
      InitBeats(run);
    } else {
      ModestRunBeats(run, k - 1);
      LocalRun(run, k - 1);
      assert ModestNext(run[k - 1], run[k]);
      var i :| Allowed(run[k - 1], i) && Modest(run[k - 1], i) && run[k] == React(run[k - 1], i);
      ModestStepBeats(run[k - 1], i);
    }
  }

  lemma InitBeats(run: seq<Local>)
    requires IsLocalRun(run)
    ensures !HeartbeatStops(run[0].node)
  {
    hide LocalNext;
  }

  /** A suggestion that is not modest leaves the leader's next heartbeat stopped at that peer, and a modest one does
      not. */
  lemma ImmodestSuggestionStops(l: Local, i: Input)
    requires LocalInv(l) && Allowed(l, i) && i.AppendReplied? && AppendReplyCounts(l.node, i.appendReply)
        && i.to != l.node.me
    requires !i.appendReply.success && i.appendReply.updateNextIndex != KEEP_NEXT_INDEX
    ensures PastLog(React(l, i).node, i.to) <==> !Modest(l, i)
    ensures !Modest(l, i) ==> HeartbeatStops(React(l, i).node)
  {
    hide Gapless, Reached;
  }

  lemma BeatingStepIsModest(l: Local, i: Input)
    requires LocalInv(l) && Allowed(l, i) && !HeartbeatStops(React(l, i).node)
    ensures Modest(l, i)
  {
    hide LocalInv, Allowed, HeartbeatStops, React;
    if !Modest(l, i) {
      assert i.appendReply.updateNextIndex != KEEP_NEXT_INDEX by { InvBounds(l); }
      ImmodestSuggestionStops(l, i);
    }
  }

  /** A server's heartbeats go on throughout a run exactly when no suggestion it acts on is past its log. */
  lemma ModestIffBeats(run: seq<Local>)
    requires IsLocalRun(run)
    ensures IsModestRun(run) <==> forall k :: 0 <= k < |run| ==> !HeartbeatStops(run[k].node)
  {
    hide Allowed, React, LocalInv, HeartbeatStops, Modest;
    if IsModestRun(run) {
      forall k: nat | k < |run| ensures !HeartbeatStops(run[k].node) { ModestRunBeats(run, k); }
    }
    if forall k :: 0 <= k < |run| ==> !HeartbeatStops(run[k].node) {
      forall k | 0 <= k < |run| - 1 ensures ModestNext(run[k], run[k + 1]) {
        LocalRun(run, k);
        assert LocalNext(run[k], run[k + 1]);
        var i :| Allowed(run[k], i) && run[k + 1] == React(run[k], i);
        BeatingStepIsModest(run[k], i);
      }
    }
  }
}
