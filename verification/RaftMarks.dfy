/** What indices and terms stand for, and what is handed over, for the code as written, with either append rule and
    with snapshots: wherever a server, a request or a snapshot names the term of an index, an entry of that index
    and term was logged; and whatever a server hands over is a logged command at its own index, or a snapshot that
    was sent to it. */
module RaftMarks {
  import opened RaftTypes
  import opened RaftNode
  import opened RaftWorld
  import opened RaftElection
  import opened RaftEntries

  /** An entry of this index and term was logged; index 0 has none, and term 0. */
  ghost predicate Marked(seen: set<LogEntry>, index: int, term: int) {
    (index == 0 && term == 0) || exists e :: e in seen && e.logIndex == index && e.logTerm == term
  }

  ghost predicate IsLogged(seen: set<LogEntry>, command: string, index: int) {
    exists e :: e in seen && e.logIndex == index && e.command == command
  }

  ghost predicate SnapMarked(n: Node, seen: set<LogEntry>) { Marked(seen, n.snapIndex, n.snapTerm) }

  /** What has been handed over: logged commands, and snapshots that were sent to this server. */
  ghost predicate Sourced(w: World, n: nat, m: ApplyMsg, seen: set<LogEntry>) {
    match m
    case CommandMsg(command, index) => IsLogged(seen, command, index)
    case SnapshotMsg(data, term, index) =>
      exists s :: s in w.snapshotRpcs && s.SnapshotSent? && s.to == n && s.args.data == data && s.args.lastTerm == term
                  && s.args.lastIndex == index
  }

  ghost predicate NodesMarked(w: World, seen: set<LogEntry>) {
    forall n :: 0 <= n < |w.nodes| ==> SnapMarked(w.nodes[n], seen)
  }

  ghost predicate VoteMarked(rpc: VoteRpc, seen: set<LogEntry>) {
    rpc.VoteSent? ==> Marked(seen, rpc.args.lastLogIndex, rpc.args.lastLogTerm)
  }

  ghost predicate AppendMarked(rpc: AppendRpc, seen: set<LogEntry>) {
    rpc.AppendSent? ==> Marked(seen, rpc.args.prevLogIndex, rpc.args.prevLogTerm)
  }

  ghost predicate CallsMarked(w: World, seen: set<LogEntry>) {
    && (forall id :: id in w.voteRpcs ==> VoteMarked(w.voteRpcs[id], seen))
    && (forall id :: id in w.appendRpcs ==> AppendMarked(w.appendRpcs[id], seen))
    && (forall s :: s in w.snapshotRpcs ==> Marked(seen, s.args.lastIndex, s.args.lastTerm))
  }

  ghost predicate StreamsSourced(w: World, seen: set<LogEntry>) {
    forall n, k :: 0 <= n < |w.emitted| && 0 <= k < |w.emitted[n]| ==> Sourced(w, n, w.emitted[n][k], seen)
  }

  ghost predicate MarkInv(w: World, seen: set<LogEntry>) {
    NodesMarked(w, seen) && CallsMarked(w, seen) && StreamsSourced(w, seen)
  }

  // ---------- what the handlers do to the snapshot's index and term ----------

  ghost predicate SameSnap(n: Node, n': Node) { n'.snapIndex == n.snapIndex && n'.snapTerm == n.snapTerm }

  lemma VoteKeepsSnap(n: Node, a: VoteArgs)
    ensures SameSnap(n, HandleVote(n, a).0)
  {}

  lemma VoteReplyKeepsSnap(n: Node, r: VoteReply, num: int)
    ensures SameSnap(n, HandleVoteReply(n, r, num).0)
  {}

  lemma AppendReplyKeepsSnap(n: Node, peer: nat, a: AppendArgs, r: AppendReply, num: int)
    requires peer < |n.matchIndex| && peer < |n.nextIndex|
    ensures SameSnap(n, HandleAppendReply(n, peer, a, r, num).0)
  {}

  lemma ApplyKeepsSnap(n: Node)
    requires n.snapIndex <= n.lastApplied && n.commitIndex <= LastIndex(n)
    ensures SameSnap(n, ApplyLogs(n).0)
  {}

  lemma SnapshotReplyKeepsSnap(n: Node, peer: nat, a: SnapshotArgs, term: int)
    requires peer < |n.matchIndex| && peer < |n.nextIndex|
    ensures SameSnap(n, HandleSnapshotReply(n, peer, a, term))
  {}

  /** The last index and term of a log are those of an entry, or of the snapshot. */
  lemma LastIsMarked(n: Node, seen: set<LogEntry>)
    requires SnapMarked(n, seen) && Contiguous(n.logs, n.snapIndex) && forall e :: e in n.logs ==> e in seen
    ensures Marked(seen, LastIndex(n), LastTerm(n))
  {
    if n.logs != [] { assert n.logs[|n.logs| - 1] in seen; }
  }

  lemma TermIsMarked(n: Node, index: int, seen: set<LogEntry>)
    requires SnapMarked(n, seen) && Contiguous(n.logs, n.snapIndex) && forall e :: e in n.logs ==> e in seen
    requires n.snapIndex <= index <= LastIndex(n)
    ensures Marked(seen, index, TermAt(n, index))
  {
    if index > n.snapIndex { assert n.logs[index - n.snapIndex - 1] in seen; }
  }

  lemma CompactMarked(n: Node, index: int, seen: set<LogEntry>)
    requires SnapMarked(n, seen) && Contiguous(n.logs, n.snapIndex) && (forall e :: e in n.logs ==> e in seen)
    requires n.commitIndex <= LastIndex(n)
    ensures SnapMarked(Snapshot(n, index), seen)
  {
    hide Marked;
    if n.snapIndex < index <= n.commitIndex { TermIsMarked(n, index, seen); }
  }

  lemma InstallMarked(n: Node, a: SnapshotArgs, seen: set<LogEntry>)
    requires SnapMarked(n, seen) && Marked(seen, a.lastIndex, a.lastTerm)
    ensures SnapMarked(InstallSnapshot(n, a).0, seen)
  {
    hide Marked;
  }

  /** The commands handed over are those of the log, at their own indices. */
  lemma AppliedIsLogged(n: Node, k: nat, seen: set<LogEntry>)
    requires Contiguous(n.logs, n.snapIndex) && (forall e :: e in n.logs ==> e in seen)
    requires n.snapIndex <= n.lastApplied && n.commitIndex <= LastIndex(n) && k < |ApplyLogs(n).1|
    ensures var m := ApplyLogs(n).1[k]; m.CommandMsg? && IsLogged(seen, m.command, m.index)
  {
    assert n.logs[n.lastApplied - n.snapIndex + k] in seen;
  }

  // ---------- steps ----------

  /** One server changes, and its snapshot's index and term are still those of an entry. */
  ghost predicate MarkedAt(w: World, w': World, i: nat, seen: set<LogEntry>) {
    && i < |w.nodes| && |w'.nodes| == |w.nodes| && w'.nodes == w.nodes[i := w'.nodes[i]]
    && SnapMarked(w'.nodes[i], seen)
  }

  lemma VoteStepsMark(c: Config, w: World, e: Event, seen: set<LogEntry>) returns (i: nat)
    requires NodesMarked(w, seen) && Enabled(c, w, e) && (e.Election? || e.DeliverVote? || e.ReturnVote?)
    ensures MarkedAt(w, Step(c, w, e), i, seen)
  {
    hide Marked, HandleVote, HandleVoteReply, MakeVoteArgs, BallotHolders, VoteWins, VoteCounts;
    match e
    case Election(n) => i := n; assert SnapMarked(w.nodes[n], seen);
    case DeliverVote(id) =>
      i := id.voter;
      assert SnapMarked(w.nodes[i], seen);
      VoteKeepsSnap(w.nodes[i], w.voteRpcs[id].args);
    case ReturnVote(id) =>
      i := id.candidate;
      assert SnapMarked(w.nodes[i], seen);
      VoteReplyKeepsSnap(w.nodes[i], w.voteRpcs[id].reply, w.votedNums[(i, id.term)]);
  }

  lemma OtherStepsMark(c: Config, w: World, e: Event, seen: set<LogEntry>) returns (i: nat)
    requires EntryInv(c, w, seen) && NodesMarked(w, seen) && CallsMarked(w, seen) && Enabled(c, w, e)
    requires !e.Election? && !e.DeliverVote? && !e.ReturnVote?
    ensures MarkedAt(w, Step(c, w, e), i, seen)
  {
    hide ElectionInv, Unique, FromLeaders, RequestsWithin, Marked, HandleAppend, HandleAppendReply, ApplyLogs, Snapshot,
      InstallSnapshot, HandleSnapshotReply, Start, HeartbeatStops, AppendCrashes;
    match e
    case ClientStart(n, command) => i := n; StartKeepsSnap(w.nodes[n], command);
    case Heartbeat(n) => i := n;
    case DeliverAppend(id) => i := id.to; AppendKeepsSnap(c.receiver, w.nodes[i], w.appendRpcs[id].args);
    case ReturnAppend(id) =>
      i := w.rounds[id.round].leader;
      var rpc := w.appendRpcs[id];
      AppendReplyKeepsSnap(w.nodes[i], id.to, rpc.args, rpc.reply, w.rounds[id.round].appendNums);
    case Apply(n) => i := n; ApplyKeepsSnap(w.nodes[n]);
    case Compact(n, index) => i := n; CompactMarked(w.nodes[n], index, seen);
    case SendSnapshot(n, _, _) => i := n;
    case DeliverSnapshot(s) => i := s.to; InstallMarked(w.nodes[i], s.args, seen);
    case ReturnSnapshot(s) => i := s.from; SnapshotReplyKeepsSnap(w.nodes[i], s.to, s.args, s.term);
    assert SnapMarked(w.nodes[i], seen);
  }

  lemma StartKeepsSnap(n: Node, command: string)
    ensures SameSnap(n, Start(n, command))
  {}

  lemma AppendKeepsSnap(mode: Receiver, n: Node, a: AppendArgs)
    ensures SameSnap(n, HandleAppend(mode, n, a).0)
  {
    hide Merge, BackOff;
  }

  lemma StepMarksNodes(c: Config, w: World, e: Event, seen: set<LogEntry>)
    requires EntryInv(c, w, seen) && NodesMarked(w, seen) && CallsMarked(w, seen) && Enabled(c, w, e)
    ensures NodesMarked(Step(c, w, e), seen)
  {
    hide EntryInv, CallsMarked, SnapMarked, Enabled, Step;
    var i;
    if e.Election? || e.DeliverVote? || e.ReturnVote? {
      i := VoteStepsMark(c, w, e, seen);
    } else {
      i := OtherStepsMark(c, w, e, seen);
    }
  }

  /** Requests are made from marked indices. */
  lemma ElectionMarksCalls(c: Config, w: World, n: nat, seen: set<LogEntry>)
    requires EntryInv(c, w, seen) && NodesMarked(w, seen) && CallsMarked(w, seen) && CanElect(w, n)
    ensures CallsMarked(DoElection(w, n), seen)
  {
    hide ElectionInv, Unique, FromLeaders, RequestsWithin, Marked, LastIndex, LastTerm;
    LastIsMarked(w.nodes[n], seen);
    SameLast(w.nodes[n]);
  }

  lemma SameLast(n: Node)
    ensures LastIndex(BecomeCandidate(n)) == LastIndex(n) && LastTerm(BecomeCandidate(n)) == LastTerm(n)
  {}

  lemma HeartbeatMarksCalls(c: Config, w: World, n: nat, seen: set<LogEntry>)
    requires EntryInv(c, w, seen) && NodesMarked(w, seen) && CallsMarked(w, seen) && CanHeartbeat(w, n)
    ensures CallsMarked(DoHeartbeat(w, n), seen)
  {
    hide ElectionInv, Unique, FromLeaders, RequestsWithin, Marked, HeartbeatStops, TermAt;
    forall p: nat | SendsEntries(w.nodes[n], p) ensures AppendMarked(AppendSent(MakeAppendArgs(w.nodes[n], p)), seen) {
      TermIsMarked(w.nodes[n], w.nodes[n].nextIndex[p] - 1, seen);
    }
    hide MakeAppendArgs;
  }

  /** No request is new but answers and consumed calls, and snapshot calls are marked. */
  ghost predicate NoNewRequests(w: World, w': World, seen: set<LogEntry>) {
    && (forall id :: id in w'.voteRpcs && w'.voteRpcs[id].VoteSent? ==>
          id in w.voteRpcs && w'.voteRpcs[id] == w.voteRpcs[id])
    && (forall id :: id in w'.appendRpcs && w'.appendRpcs[id].AppendSent? ==>
          id in w.appendRpcs && w'.appendRpcs[id] == w.appendRpcs[id])
    && (forall s :: s in w'.snapshotRpcs ==> Marked(seen, s.args.lastIndex, s.args.lastTerm))
  }

  lemma OldRequestsMarked(w: World, w': World, seen: set<LogEntry>)
    requires CallsMarked(w, seen) && NoNewRequests(w, w', seen)
    ensures CallsMarked(w', seen)
  {
    hide Marked;
    forall id | id in w'.voteRpcs ensures VoteMarked(w'.voteRpcs[id], seen) {
      assert id in w.voteRpcs ==> VoteMarked(w.voteRpcs[id], seen);
    }
    forall id | id in w'.appendRpcs ensures AppendMarked(w'.appendRpcs[id], seen) {
      assert id in w.appendRpcs ==> AppendMarked(w.appendRpcs[id], seen);
    }
  }

  lemma DeliveredVoteCalls(w: World, id: VoteId)
    requires CanDeliverVote(w, id)
    ensures var w' := DoDeliverVote(w, id);
            && w'.appendRpcs == w.appendRpcs && w'.snapshotRpcs == w.snapshotRpcs && id in w'.voteRpcs
            && !w'.voteRpcs[id].VoteSent? && w'.voteRpcs == w.voteRpcs[id := w'.voteRpcs[id]]
  {
    hide HandleVote;
  }

  lemma ReturnedVoteCalls(w: World, id: VoteId)
    requires CanReturnVote(w, id)
    ensures var w' := DoReturnVote(w, id);
            && w'.appendRpcs == w.appendRpcs && w'.snapshotRpcs == w.snapshotRpcs && id in w'.voteRpcs
            && !w'.voteRpcs[id].VoteSent? && w'.voteRpcs == w.voteRpcs[id := w'.voteRpcs[id]]
  {
    hide HandleVoteReply, BallotHolders, VoteWins, VoteCounts;
  }

  lemma VoteStepsAskNothing(c: Config, w: World, e: Event, seen: set<LogEntry>)
    requires CallsMarked(w, seen) && Enabled(c, w, e) && (e.DeliverVote? || e.ReturnVote?)
    ensures NoNewRequests(w, Step(c, w, e), seen)
  {
    hide Marked, DoDeliverVote, DoReturnVote, CrashesOnVote;
    if e.DeliverVote? { DeliveredVoteCalls(w, e.vote); } else { ReturnedVoteCalls(w, e.vote); }
  }

  lemma OtherStepsAskNothing(c: Config, w: World, e: Event, seen: set<LogEntry>)
    requires NodesMarked(w, seen) && CallsMarked(w, seen) && Enabled(c, w, e)
    requires !e.Election? && !e.DeliverVote? && !e.ReturnVote? && !e.Heartbeat?
    ensures NoNewRequests(w, Step(c, w, e), seen)
  {
    hide Marked, HandleAppend, HandleAppendReply, ApplyLogs, Snapshot, InstallSnapshot, HandleSnapshotReply, Start,
      AppendCrashes, Acks, Crosses;
    if e.SendSnapshot? { assert SnapMarked(w.nodes[e.n], seen); }
  }

  lemma StepMarksCalls(c: Config, w: World, e: Event, seen: set<LogEntry>)
    requires EntryInv(c, w, seen) && NodesMarked(w, seen) && CallsMarked(w, seen) && Enabled(c, w, e)
    ensures CallsMarked(Step(c, w, e), seen)
  {
    hide EntryInv, CallsMarked, NodesMarked, DoElection, DoHeartbeat;
    match e
    case Election(n) => ElectionMarksCalls(c, w, n, seen);
    case Heartbeat(n) => HeartbeatMarksCalls(c, w, n, seen);
    case _ =>
      if e.DeliverVote? || e.ReturnVote? {
        VoteStepsAskNothing(c, w, e, seen);
      } else {
        OtherStepsAskNothing(c, w, e, seen);
      }
      hide Enabled, Step, NoNewRequests;
      OldRequestsMarked(w, Step(c, w, e), seen);
  }

  /** Calls with snapshots stay on record, so what came from one still does. */
  lemma SourcedStays(w: World, w': World, n: nat, m: ApplyMsg, seen: set<LogEntry>)
    requires Sourced(w, n, m, seen) && w.snapshotRpcs <= w'.snapshotRpcs
    ensures Sourced(w', n, m, seen)
  {
    hide IsLogged;
    if m.SnapshotMsg? {
      var s :| s in w.snapshotRpcs && s.SnapshotSent? && s.to == n && s.args.data == m.data && s.args.lastTerm == m.term
               && s.args.lastIndex == m.index;
      assert s in w'.snapshotRpcs;
    }
  }

  /** What a step adds to a stream is sourced. */
  ghost predicate AddsSourced(w: World, w': World, i: nat, msgs: seq<ApplyMsg>, seen: set<LogEntry>) {
    && i < |w.emitted| == |w'.emitted| && w'.emitted == w.emitted[i := w.emitted[i] + msgs]
    && w.snapshotRpcs <= w'.snapshotRpcs
    && forall k :: 0 <= k < |msgs| ==> Sourced(w', i, msgs[k], seen)
  }

  lemma AddedKeepsSourced(w: World, w': World, i: nat, msgs: seq<ApplyMsg>, seen: set<LogEntry>)
    requires StreamsSourced(w, seen) && AddsSourced(w, w', i, msgs, seen)
    ensures StreamsSourced(w', seen)
  {
    forall n, k | 0 <= n < |w'.emitted| && 0 <= k < |w'.emitted[n]| ensures Sourced(w', n, w'.emitted[n][k], seen) {
      if n != i || k < |w.emitted[n]| {
        assert w'.emitted[n][k] == w.emitted[n][k];
        SourcedStays(w, w', n, w.emitted[n][k], seen);
      }
    }
  }

  lemma ApplyAdds(c: Config, w: World, n: nat, seen: set<LogEntry>)
    requires EntryInv(c, w, seen) && CanApply(w, n)
    ensures AddsSourced(w, DoApply(w, n), n, ApplyLogs(w.nodes[n]).1, seen)
  {
    hide ElectionInv, Unique, FromLeaders, RequestsWithin, IsLogged, ApplyLogs;
    var msgs := ApplyLogs(w.nodes[n]).1;
    forall k | 0 <= k < |msgs| ensures Sourced(DoApply(w, n), n, msgs[k], seen) {
      AppliedIsLogged(w.nodes[n], k, seen);
    }
  }

  lemma InstallAdds(w: World, s: SnapshotRpc, seen: set<LogEntry>)
    requires CanDeliverSnapshot(w, s)
    ensures AddsSourced(w, DoDeliverSnapshot(w, s), s.to, InstallSnapshot(w.nodes[s.to], s.args).1, seen)
  {
    var w' := DoDeliverSnapshot(w, s);
    assert s in w'.snapshotRpcs;
    var msgs := InstallSnapshot(w.nodes[s.to], s.args).1;
    assert forall k :: 0 <= k < |msgs| ==> msgs[k] == SnapshotMsg(s.args.data, s.args.lastTerm, s.args.lastIndex);
    hide InstallSnapshot, DoDeliverSnapshot;
  }

  lemma OthersAddNothing(c: Config, w: World, e: Event)
    requires Enabled(c, w, e) && !e.Apply? && !e.DeliverSnapshot?
    ensures Step(c, w, e).emitted == w.emitted && w.snapshotRpcs <= Step(c, w, e).snapshotRpcs
  {
    hide HandleVote, HandleVoteReply, HandleAppend, HandleAppendReply, Snapshot, HandleSnapshotReply, Start,
      AppendCrashes, BallotHolders, VoteWins, VoteCounts, MakeVoteArgs, MakeAppendArgs, HeartbeatStops;
  }

  lemma StepKeepsSourced(c: Config, w: World, e: Event, seen: set<LogEntry>)
    requires EntryInv(c, w, seen) && StreamsSourced(w, seen) && Enabled(c, w, e)
    ensures StreamsSourced(Step(c, w, e), seen)
  {
    hide EntryInv, Sourced, DoApply, DoDeliverSnapshot, AddsSourced;
    var w' := Step(c, w, e);
    match e
    case Apply(n) => ApplyAdds(c, w, n, seen); AddedKeepsSourced(w, w', n, ApplyLogs(w.nodes[n]).1, seen);
    case DeliverSnapshot(s) =>
      InstallAdds(w, s, seen);
      AddedKeepsSourced(w, w', s.to, InstallSnapshot(w.nodes[s.to], s.args).1, seen);
    case _ =>
      OthersAddNothing(c, w, e);
      forall n, k | 0 <= n < |w'.emitted| && 0 <= k < |w'.emitted[n]| ensures Sourced(w', n, w'.emitted[n][k], seen) {
        SourcedStays(w, w', n, w.emitted[n][k], seen);
      }
  }

  lemma MoreSeen(w: World, seen: set<LogEntry>, more: set<LogEntry>)
    requires MarkInv(w, seen) && seen <= more
    ensures MarkInv(w, more)
  {
    assert forall i, t :: Marked(seen, i, t) ==> Marked(more, i, t);
    assert forall x, i :: IsLogged(seen, x, i) ==> IsLogged(more, x, i);
    hide Marked, IsLogged;
  }

  lemma StepKeepsMarks(c: Config, w: World, e: Event, seen: set<LogEntry>)
    requires EntryInv(c, w, seen) && MarkInv(w, seen) && Enabled(c, w, e)
    ensures MarkInv(Step(c, w, e), seen)
  {
    hide EntryInv, NodesMarked, CallsMarked, StreamsSourced, Enabled, Step;
    StepMarksNodes(c, w, e, seen);
    StepMarksCalls(c, w, e, seen);
    StepKeepsSourced(c, w, e, seen);
  }

  // ---------- every run ----------

  lemma InitMarks(c: Config, seen: set<LogEntry>)
    ensures MarkInv(InitWorld(c), seen)
  {}

  lemma {:induction false} RunMarks(c: Config, run: seq<World>, i: nat)
    requires IsRun(c, run) && i < |run|
    ensures MarkInv(run[i], Seen(run, i))
  {
    hide Enabled, Step, Entries, MarkInv, EntryInv;
    if i == 0 {
      InitMarks(c, Seen(run, 0));
    } else {
      RunMarks(c, run, i - 1);
      RunEntries(c, run, i - 1);
      var e := RunStep(c, run, i - 1);
      StepKeepsMarks(c, run[i - 1], e, Seen(run, i - 1));
      MoreSeen(run[i], Seen(run, i - 1), Seen(run, i));
    }
  }

  /** In every run the snapshot term of a server is the term of an entry that was logged at its snapshot index. */
  lemma SnapshotTermIsOfEntry(c: Config, run: seq<World>, i: nat, n: nat)
    requires IsRun(c, run) && i < |run| && n < |run[i].nodes|
    ensures var node := run[i].nodes[n];
            (node.snapIndex == 0 && node.snapTerm == 0)
            || exists e :: e in Seen(run, i) && e.logIndex == node.snapIndex && e.logTerm == node.snapTerm
  {
    hide IsRun, CallsMarked, StreamsSourced;
    RunMarks(c, run, i);
    assert SnapMarked(run[i].nodes[n], Seen(run, i));
  }

  /** Whatever a server has handed over in a run is a logged command at its own index, or a snapshot sent to it. */
  lemma HandedOverIsSourced(c: Config, run: seq<World>, i: nat, n: nat, k: nat)
    requires IsRun(c, run) && i < |run| && n < |run[i].emitted| && k < |run[i].emitted[n]|
    ensures Sourced(run[i], n, run[i].emitted[n][k], Seen(run, i))
  {
    hide IsRun, CallsMarked, NodesMarked, Sourced;
    RunMarks(c, run, i);
  }
}
