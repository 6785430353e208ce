/** One entry an index and term, for the code as written, with either append rule and with snapshots: an entry is
    created once, by the leader of its term, above all the entries that term has had; merging, compacting and
    installing snapshots leave every entry its index. So wherever and whenever in a run two servers or requests
    hold entries of one index and term, they hold the same entry, whatever comes before it in their logs. */
module RaftEntries {
  import opened RaftTypes
  import opened RaftNode
  import opened RaftWorld
  import opened RaftElection

  /** The entries in the servers' logs and in the requests on their way. */
  ghost function Entries(w: World): set<LogEntry> {
    (set n, e | 0 <= n < |w.nodes| && e in w.nodes[n].logs :: e)
    + set id, e | id in w.appendRpcs && w.appendRpcs[id].AppendSent? && e in w.appendRpcs[id].args.entries :: e
  }

  /** The entries that were anywhere in a run up to point i. */
  ghost function Seen(run: seq<World>, i: nat): set<LogEntry>
    requires i < |run|
  {
    if i == 0 then Entries(run[0]) else Seen(run, i - 1) + Entries(run[i])
  }

  ghost predicate SameSlot(e: LogEntry, f: LogEntry) { e.logIndex == f.logIndex && e.logTerm == f.logTerm }

  /** Index and term determine the entry. */
  ghost predicate Unique(seen: set<LogEntry>) { forall e, f :: e in seen && f in seen && SameSlot(e, f) ==> e == f }

  /** Every entry sits in the slot of its index. */
  ghost predicate LogsPlaced(w: World) {
    forall n :: 0 <= n < |w.nodes| ==> Contiguous(w.nodes[n].logs, w.nodes[n].snapIndex)
  }

  ghost predicate NodesWithin(w: World, seen: set<LogEntry>) {
    forall n, e :: 0 <= n < |w.nodes| && e in w.nodes[n].logs ==> e in seen
  }

  ghost predicate RequestWithin(rpc: AppendRpc, seen: set<LogEntry>) {
    rpc.AppendSent? ==>
      Contiguous(rpc.args.entries, rpc.args.prevLogIndex) && forall e :: e in rpc.args.entries ==> e in seen
  }

  ghost predicate RequestsWithin(w: World, seen: set<LogEntry>) {
    forall id :: id in w.appendRpcs ==> RequestWithin(w.appendRpcs[id], seen)
  }

  /** A term's entries come from its leader, and while it leads none of them is past its log. */
  ghost predicate FromLeaders(w: World, seen: set<LogEntry>) {
    && (forall e :: e in seen ==> e.logTerm in w.leaders)
    && (forall n, e :: 0 <= n < |w.nodes| && w.nodes[n].status == Leader && e in seen ==>
          e.logTerm == w.nodes[n].term ==> e.logIndex <= LastIndex(w.nodes[n]))
  }

  ghost predicate EntryInv(c: Config, w: World, seen: set<LogEntry>) {
    && ElectionInv(c, w) && LogsPlaced(w) && NodesWithin(w, seen) && RequestsWithin(w, seen)
    && Unique(seen) && FromLeaders(w, seen)
  }

  // ---------- what the handlers do to one log ----------

  /** Nothing new in the log, everything in its slot, and a leader keeps its last index. */
  ghost predicate Sifted(n: Node, n': Node, seen: set<LogEntry>) {
    && Contiguous(n'.logs, n'.snapIndex) && (forall e :: e in n'.logs ==> e in seen)
    && (n'.status == Leader ==> n.status == Leader && n'.term == n.term && LastIndex(n) <= LastIndex(n'))
  }

  lemma MergeSifts(mode: Receiver, logs: seq<LogEntry>, base: int, at: nat, entries: seq<LogEntry>, seen: set<LogEntry>)
    requires at <= |logs| && Contiguous(logs, base) && Contiguous(entries, base + at)
    requires (forall e :: e in logs ==> e in seen) && forall e :: e in entries ==> e in seen
    ensures Contiguous(Merge(mode, logs, at, entries), base)
        && forall e :: e in Merge(mode, logs, at, entries) ==> e in seen
  {
    hide Conflicts;
    var over := Overlay(logs, at, entries);
    var r := Merge(mode, logs, at, entries);
    forall i | 0 <= i < |r| ensures r[i].logIndex == base + 1 + i && r[i] in seen {
      if i >= |over| { assert r[i] == TailBeyond(logs, at, entries)[i - |over|] == logs[i]; }
    }
  }

  lemma AppendSifts(mode: Receiver, n: Node, a: AppendArgs, seen: set<LogEntry>)
    requires Contiguous(n.logs, n.snapIndex) && (forall e :: e in n.logs ==> e in seen)
    requires Contiguous(a.entries, a.prevLogIndex) && forall e :: e in a.entries ==> e in seen
    ensures Sifted(n, HandleAppend(mode, n, a).0, seen)
  {
    hide Merge, BackOff, Contiguous;
    if AppendMatches(n, a) { MergeSifts(mode, n.logs, n.snapIndex, a.prevLogIndex - n.snapIndex, a.entries, seen); }
  }

  lemma AppendReplySifts(n: Node, peer: nat, a: AppendArgs, r: AppendReply, num: int, seen: set<LogEntry>)
    requires Contiguous(n.logs, n.snapIndex) && (forall e :: e in n.logs ==> e in seen)
    requires peer < |n.matchIndex| && peer < |n.nextIndex|
    ensures Sifted(n, HandleAppendReply(n, peer, a, r, num).0, seen)
  {
    hide Contiguous;
  }

  lemma CompactSifts(n: Node, index: int, seen: set<LogEntry>)
    requires Contiguous(n.logs, n.snapIndex) && (forall e :: e in n.logs ==> e in seen) && n.commitIndex <= LastIndex(n)
    ensures Sifted(n, Snapshot(n, index), seen)
  {}

  lemma InstallSifts(n: Node, a: SnapshotArgs, seen: set<LogEntry>)
    requires Contiguous(n.logs, n.snapIndex) && (forall e :: e in n.logs ==> e in seen)
    ensures Sifted(n, InstallSnapshot(n, a).0, seen)
  {}

  lemma VoteSifts(n: Node, a: VoteArgs, seen: set<LogEntry>)
    requires Contiguous(n.logs, n.snapIndex) && (forall e :: e in n.logs ==> e in seen)
    ensures Sifted(n, HandleVote(n, a).0, seen)
  {
    hide Contiguous, UpToDate;
  }

  lemma VoteReplySifts(n: Node, r: VoteReply, num: int, seen: set<LogEntry>)
    requires Contiguous(n.logs, n.snapIndex) && (forall e :: e in n.logs ==> e in seen) && !VoteWins(n, r, num)
    ensures Sifted(n, HandleVoteReply(n, r, num).0, seen)
  {
    hide Contiguous;
  }

  // ---------- steps ----------

  /** One server's log is sifted, requests carry what was seen, and no term is won. */
  ghost predicate SiftedAt(w: World, w': World, i: nat, seen: set<LogEntry>) {
    && i < |w.nodes| && |w'.nodes| == |w.nodes| && w'.nodes == w.nodes[i := w'.nodes[i]]
    && Sifted(w.nodes[i], w'.nodes[i], seen) && w'.leaders == w.leaders && RequestsWithin(w', seen)
  }

  lemma SiftedKeeps(c: Config, w: World, w': World, i: nat, seen: set<LogEntry>)
    requires EntryInv(c, w, seen) && SiftedAt(w, w', i, seen) && ElectionInv(c, w')
    ensures EntryInv(c, w', seen)
  {
    hide ElectionInv, RequestsWithin, Unique, Contiguous;
  }

  /** A server wins a term that no entry has. */
  ghost predicate WonFresh(w: World, w': World, n: nat) {
    && n < |w.nodes| && |w'.nodes| == |w.nodes| && w'.nodes == w.nodes[n := BecomeLeader(w.nodes[n])]
    && w.nodes[n].term !in w.leaders && w'.leaders == w.leaders[w.nodes[n].term := n] && w'.appendRpcs == w.appendRpcs
  }

  lemma WonKeepsEntries(c: Config, w: World, w': World, n: nat, seen: set<LogEntry>)
    requires EntryInv(c, w, seen) && WonFresh(w, w', n) && ElectionInv(c, w')
    ensures EntryInv(c, w', seen)
  {
    hide ElectionInv, RequestWithin, Unique, Contiguous;
  }

  /** A leader logs a command at the next index of its log. */
  ghost predicate Logged(w: World, w': World, n: nat, e: LogEntry) {
    && n < |w.nodes| && w.nodes[n].status == Leader && |w'.nodes| == |w.nodes|
    && e.logTerm == w.nodes[n].term && e.logIndex == LastIndex(w.nodes[n]) + 1
    && w'.nodes == w.nodes[n := w.nodes[n].(logs := w.nodes[n].logs + [e])]
    && w'.leaders == w.leaders && w'.appendRpcs == w.appendRpcs
  }

  lemma OneLeaderATerm(c: Config, w: World, n: nat, m: nat)
    requires ElectionInv(c, w) && n < |w.nodes| && m < |w.nodes| && w.nodes[n].status == w.nodes[m].status == Leader
    requires w.nodes[n].term == w.nodes[m].term
    ensures n == m && w.nodes[n].term in w.leaders
  {
    LeaderLeads(c, w, n);
    LeaderLeads(c, w, m);
  }

  /** It is the first entry of its index and term. */
  lemma LoggedIsNew(c: Config, w: World, w': World, n: nat, e: LogEntry, seen: set<LogEntry>)
    requires EntryInv(c, w, seen) && Logged(w, w', n, e)
    ensures Unique(seen + {e}) && FromLeaders(w', seen + {e})
  {
    hide ElectionInv, RequestsWithin, NodesWithin, LogsPlaced;
    OneLeaderATerm(c, w, n, n);
    assert Unique(seen + {e}) by { assert forall f :: f in seen ==> !SameSlot(e, f); }
    hide Unique;
    forall m, f | 0 <= m < |w'.nodes| && w'.nodes[m].status == Leader && f in seen + {e}
      && f.logTerm == w'.nodes[m].term
      ensures f.logIndex <= LastIndex(w'.nodes[m])
    {
      if f == e { OneLeaderATerm(c, w, n, m); }
    }
  }

  lemma LoggedStaysWithin(c: Config, w: World, w': World, n: nat, e: LogEntry, seen: set<LogEntry>)
    requires EntryInv(c, w, seen) && Logged(w, w', n, e)
    ensures LogsPlaced(w') && NodesWithin(w', seen + {e}) && RequestsWithin(w', seen + {e})
  {
    hide ElectionInv, Unique, FromLeaders;
    forall id | id in w'.appendRpcs ensures RequestWithin(w'.appendRpcs[id], seen + {e}) {
      assert RequestWithin(w.appendRpcs[id], seen);
    }
  }

  lemma LoggedKeeps(c: Config, w: World, w': World, n: nat, e: LogEntry, seen: set<LogEntry>)
    requires EntryInv(c, w, seen) && Logged(w, w', n, e) && ElectionInv(c, w')
    ensures EntryInv(c, w', seen + {e})
  {
    LoggedIsNew(c, w, w', n, e, seen);
    LoggedStaysWithin(c, w, w', n, e, seen);
    hide ElectionInv, Unique, FromLeaders, RequestsWithin, NodesWithin, LogsPlaced;
  }

  lemma HeartbeatSifts(c: Config, w: World, e: Event, seen: set<LogEntry>)
    requires EntryInv(c, w, seen) && e.Heartbeat? && Enabled(c, w, e)
    ensures SiftedAt(w, Step(c, w, e), e.n, seen)
  {
    hide ElectionInv, Unique, FromLeaders, TermAt;
  }

  lemma VoteStepsSift(c: Config, w: World, e: Event, seen: set<LogEntry>) returns (i: nat)
    requires EntryInv(c, w, seen) && Enabled(c, w, e)
    requires e.Election? || e.DeliverVote? || (e.ReturnVote? && !WouldWin(w, e.vote))
    ensures SiftedAt(w, Step(c, w, e), i, seen)
  {
    hide ElectionInv, Unique, FromLeaders, HandleVote, HandleVoteReply, MakeVoteArgs, BallotHolders;
    match e
    case Election(n) => i := n;
    case DeliverVote(id) => i := id.voter; VoteSifts(w.nodes[i], w.voteRpcs[id].args, seen);
    case ReturnVote(id) =>
      i := id.candidate;
      VoteReplySifts(w.nodes[i], w.voteRpcs[id].reply, w.votedNums[(i, id.term)], seen);
  }

  lemma OtherStepsSift(c: Config, w: World, e: Event, seen: set<LogEntry>) returns (i: nat)
    requires EntryInv(c, w, seen) && Enabled(c, w, e)
    requires !e.Election? && !e.DeliverVote? && !e.ReturnVote? && !e.ClientStart? && !e.Heartbeat?
    ensures SiftedAt(w, Step(c, w, e), i, seen)
  {
    hide ElectionInv, Unique, FromLeaders, HandleAppend, HandleAppendReply, InstallSnapshot, Snapshot, AppendCrashes;
    match e
    case DeliverAppend(id) => i := id.to; AppendSifts(c.receiver, w.nodes[i], w.appendRpcs[id].args, seen);
    case ReturnAppend(id) =>
      i := w.rounds[id.round].leader;
      var rpc := w.appendRpcs[id];
      AppendReplySifts(w.nodes[i], id.to, rpc.args, rpc.reply, w.rounds[id.round].appendNums, seen);
    case Apply(n) => i := n;
    case Compact(n, index) => i := n; CompactSifts(w.nodes[n], index, seen);
    case SendSnapshot(n, _, _) => i := n;
    case DeliverSnapshot(s) => i := s.to; InstallSifts(w.nodes[i], s.args, seen);
    case ReturnSnapshot(s) => i := s.from;
  }

  lemma EntriesWithin(c: Config, w: World, seen: set<LogEntry>)
    requires EntryInv(c, w, seen)
    ensures Entries(w) <= seen
  {
    hide ElectionInv, Unique, FromLeaders, LogsPlaced, Contiguous;
  }

  /** A step that logs no command adds no entry. */
  lemma NoEntryAdded(c: Config, w: World, e: Event, seen: set<LogEntry>)
    requires EntryInv(c, w, seen) && Enabled(c, w, e) && !e.ClientStart? && ElectionInv(c, Step(c, w, e))
    ensures EntryInv(c, Step(c, w, e), seen)
  {
    hide ElectionInv, SiftedAt, WonFresh, LogsPlaced, NodesWithin, RequestsWithin, Unique, FromLeaders, Enabled, Step;
    if e.Heartbeat? {
      HeartbeatSifts(c, w, e, seen);
      SiftedKeeps(c, w, Step(c, w, e), e.n, seen);
    } else if e.ReturnVote? && WouldWin(w, e.vote) {
      ReturnWins(c, w, e);
      WonKeepsEntries(c, w, Step(c, w, e), e.vote.candidate, seen);
    } else {
      var i;
      if e.Election? || e.DeliverVote? || e.ReturnVote? {
        i := VoteStepsSift(c, w, e, seen);
      } else {
        i := OtherStepsSift(c, w, e, seen);
      }
      SiftedKeeps(c, w, Step(c, w, e), i, seen);
    }
  }

  lemma StepKeepsEntries(c: Config, w: World, e: Event, seen: set<LogEntry>)
    requires EntryInv(c, w, seen) && Enabled(c, w, e)
    ensures EntryInv(c, Step(c, w, e), seen + Entries(Step(c, w, e)))
  {
    hide ElectionInv, Logged, EntryInv, Entries, Enabled, Step;
    var w' := Step(c, w, e);
    ElectionKept(c, w, e, seen);
    if e.ClientStart? {
      var entry := StartLogs(c, w, e);
      LoggedKeeps(c, w, w', e.n, entry, seen);
      EntriesWithin(c, w', seen + {entry});
      assert seen + Entries(w') == seen + {entry};
    } else {
      NoEntryAdded(c, w, e, seen);
      EntriesWithin(c, w', seen);
      assert seen + Entries(w') == seen;
    }
  }

  lemma ElectionKept(c: Config, w: World, e: Event, seen: set<LogEntry>)
    requires EntryInv(c, w, seen) && Enabled(c, w, e)
    ensures ElectionInv(c, Step(c, w, e))
  {
    hide ElectionInv, Enabled, Step;
    StepKeepsElection(c, w, e);
  }

  lemma StartLogs(c: Config, w: World, e: Event) returns (entry: LogEntry)
    requires e.ClientStart? && Enabled(c, w, e)
    ensures Logged(w, Step(c, w, e), e.n, entry) && entry in Entries(Step(c, w, e))
  {
    entry := LogEntry(e.command, w.nodes[e.n].term, LastIndex(w.nodes[e.n]) + 1);
    assert entry in Step(c, w, e).nodes[e.n].logs;
  }

  lemma ReturnWins(c: Config, w: World, e: Event)
    requires ElectionInv(c, w) && Enabled(c, w, e) && e.ReturnVote? && WouldWin(w, e.vote)
    ensures WonFresh(w, Step(c, w, e), e.vote.candidate)
  {
    WinIsFresh(c, w, e.vote);
    hide ElectionInv;
  }

  // ---------- every run ----------

  lemma {:induction false} RunEntries(c: Config, run: seq<World>, i: nat)
    requires IsRun(c, run) && i < |run|
    ensures EntryInv(c, run[i], Seen(run, i))
  {
    hide Enabled, Step, Entries;
    if i == 0 {
      RunElection(c, run, 0);
      InitEntries(c);
    } else {
      hide EntryInv;
      RunEntries(c, run, i - 1);
      var e := RunStep(c, run, i - 1);
      StepKeepsEntries(c, run[i - 1], e, Seen(run, i - 1));
    }
  }

  lemma InitEntries(c: Config)
    ensures EntryInv(c, InitWorld(c), Entries(InitWorld(c)))
  {
    InitElection(c);
    hide ElectionInv;
  }

  lemma {:induction false} SeenBefore(c: Config, run: seq<World>, j: nat, i: nat)
    requires IsRun(c, run) && j <= i < |run|
    ensures Entries(run[j]) <= Seen(run, i)
    decreases i
  {
    hide IsRun, Entries;
    if j < i { SeenBefore(c, run, j, i - 1); }
  }

  /** In every run, entries of one index and term are the same entry, wherever and whenever they are held. */
  lemma OneEntryASlot(c: Config, run: seq<World>, i: nat, j: nat, e: LogEntry, f: LogEntry)
    requires IsRun(c, run) && i < |run| && j < |run| && e in Entries(run[i]) && f in Entries(run[j]) && SameSlot(e, f)
    ensures e == f
  {
    var last := |run| - 1;
    SeenBefore(c, run, i, last);
    SeenBefore(c, run, j, last);
    RunEntries(c, run, last);
    hide IsRun, Entries, ElectionInv, Seen;
  }

  /** The assertion that two entries of one index and term carry the same command never fires: in no run does
      delivering a request stop a process. */
  lemma AppendNeverCrashes(c: Config, run: seq<World>, i: nat, id: AppendId)
    requires IsRun(c, run) && i < |run|
    requires id in run[i].appendRpcs && run[i].appendRpcs[id].AppendSent? && id.to < |run[i].nodes|
    ensures !AppendCrashes(run[i].nodes[id.to], run[i].appendRpcs[id].args)
  {
    RunEntries(c, run, i);
    NoClash(c, run[i], Seen(run, i), id);
  }

  lemma NoClash(c: Config, w: World, seen: set<LogEntry>, id: AppendId)
    requires EntryInv(c, w, seen) && id in w.appendRpcs && w.appendRpcs[id].AppendSent? && id.to < |w.nodes|
    ensures !AppendCrashes(w.nodes[id.to], w.appendRpcs[id].args)
  {
    hide ElectionInv, FromLeaders;
    var n, a := w.nodes[id.to], w.appendRpcs[id].args;
    assert RequestWithin(w.appendRpcs[id], seen);
    if AppendMatches(n, a) {
      var at := a.prevLogIndex - n.snapIndex;
      forall i | 0 <= i < |a.entries| && at + i < |n.logs| && n.logs[at + i].logTerm == a.entries[i].logTerm
        ensures n.logs[at + i] == a.entries[i]
      {
        assert SameSlot(n.logs[at + i], a.entries[i]);
      }
    }
  }
}
