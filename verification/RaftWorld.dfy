/** A cluster of Raft servers and the calls between them, as a step system. Every handler runs under the
    server's mutex, so it is one atomic step; timers and the network decide when a step happens. A call is
    sent, handled at most once, and its reply consumed at most once; a call that never moves on is a lost
    one. Steps that would stop a process inside an assertion are not taken.

    The maps from `ballots` on are history: they record what happened and no step reads them. */
module RaftWorld {
  import opened RaftTypes
  import opened RaftNode

  /** receiver: the append rule; compaction: whether snapshots are taken and sent. */
  datatype Config = Config(peers: nat, receiver: Receiver, compaction: bool)

  datatype VoteId = VoteId(candidate: nat, term: int, voter: nat)

  datatype VoteRpc =
    | VoteSent(args: VoteArgs)
    | VoteAnswered(reply: VoteReply)
    | VoteDone(counted: bool)

  datatype AppendId = AppendId(round: nat, to: nat)

  datatype AppendRpc =
    | AppendSent(args: AppendArgs)
    | AppendAnswered(args: AppendArgs, reply: AppendReply)
    | AppendDone(acked: bool)

  /** One heartbeat round: who sent it, in which term, where its requests end, its shared counter, and
      (history) whether that counter has reached a majority. */
  datatype Round = Round(leader: nat, term: int, end: int, appendNums: int, crossed: bool)

  datatype SnapshotRpc =
    | SnapshotSent(from: nat, to: nat, args: SnapshotArgs)
    | SnapshotAnswered(from: nat, to: nat, args: SnapshotArgs, term: int)

  datatype World = World(
    nodes: seq<Node>,
    voteRpcs: map<VoteId, VoteRpc>,
    votedNums: map<(nat, int), int>,
    appendRpcs: map<AppendId, AppendRpc>,
    rounds: seq<Round>,
    snapshotRpcs: set<SnapshotRpc>,
    emitted: seq<seq<ApplyMsg>>,
    ballots: map<(nat, int), nat>,
    leaders: map<int, nat>,
    electors: map<int, set<nat>>,
    termLogs: map<int, seq<LogEntry>>,
    accepted: map<(nat, int), int>)

  datatype Event =
    | Election(n: nat)
    | DeliverVote(vote: VoteId)
    | ReturnVote(vote: VoteId)
    | ClientStart(n: nat, command: string)
    | Heartbeat(n: nat)
    | DeliverAppend(append: AppendId)
    | ReturnAppend(append: AppendId)
    | Apply(n: nat)
    | Compact(n: nat, index: int)
    | SendSnapshot(n: nat, to: nat, data: string)
    | DeliverSnapshot(snapshot: SnapshotRpc)
    | ReturnSnapshot(snapshot: SnapshotRpc)

  function InitWorld(c: Config): World {
    World(seq(c.peers, i requires 0 <= i < c.peers => Init(i, c.peers)),
          map[], map[], map[], [], {}, seq(c.peers, _ => []), map[], map[], map[], map[], map[])
  }

  function Accepted(w: World, n: nat, t: int): int {
    if (n, t) in w.accepted then w.accepted[(n, t)] else 0
  }

  // ---------- elections ----------

  predicate CanElect(w: World, n: nat) { n < |w.nodes| && w.nodes[n].status != Leader }

  function DoElection(w: World, n: nat): World
    requires CanElect(w, n)
  {
    var n1 := BecomeCandidate(w.nodes[n]);
    var sent := map v: nat | v < |w.nodes| && v != n :: VoteId(n, n1.term, v) := VoteSent(MakeVoteArgs(n1));
    w.(nodes := w.nodes[n := n1], voteRpcs := w.voteRpcs + sent, votedNums := w.votedNums[(n, n1.term) := 1],
       ballots := w.ballots[(n, n1.term) := n])
  }

  predicate CanDeliverVote(w: World, id: VoteId) {
    id in w.voteRpcs && w.voteRpcs[id].VoteSent? && id.voter < |w.nodes|
  }

  function DoDeliverVote(w: World, id: VoteId): World
    requires CanDeliverVote(w, id)
  {
    var (n1, reply) := HandleVote(w.nodes[id.voter], w.voteRpcs[id].args);
    w.(nodes := w.nodes[id.voter := n1], voteRpcs := w.voteRpcs[id := VoteAnswered(reply)],
       ballots := if reply.voteGranted then w.ballots[(id.voter, id.term) := id.candidate] else w.ballots)
  }

  /** The nodes that have voted for n in this term. */
  function BallotHolders(w: World, n: nat, term: int): set<nat> {
    set v: nat | v < |w.nodes| && (v, term) in w.ballots && w.ballots[(v, term)] == n
  }

  predicate CanReturnVote(w: World, id: VoteId) {
    && id in w.voteRpcs && w.voteRpcs[id].VoteAnswered? && id.candidate < |w.nodes|
    && (id.candidate, id.term) in w.votedNums
    && !CrashesOnVote(w, id)
  }

  /** The assertion that a node wins a term it already leads. */
  predicate CrashesOnVote(w: World, id: VoteId)
    requires id in w.voteRpcs && w.voteRpcs[id].VoteAnswered? && id.candidate < |w.nodes|
    requires (id.candidate, id.term) in w.votedNums
  {
    var n := w.nodes[id.candidate];
    VoteWins(n, w.voteRpcs[id].reply, w.votedNums[(id.candidate, id.term)]) && n.status == Leader
  }

  function DoReturnVote(w: World, id: VoteId): World
    requires CanReturnVote(w, id)
  {
    var n := w.nodes[id.candidate];
    var reply := w.voteRpcs[id].reply;
    var key := (id.candidate, id.term);
    var (n1, num) := HandleVoteReply(n, reply, w.votedNums[key]);
    var w1 := w.(nodes := w.nodes[id.candidate := n1], votedNums := w.votedNums[key := num],
                 voteRpcs := w.voteRpcs[id := VoteDone(VoteCounts(n, reply))]);
    if VoteWins(n, reply, w.votedNums[key]) then
      w1.(leaders := w.leaders[n.term := id.candidate],
          electors := w.electors[n.term := BallotHolders(w, id.candidate, n.term)],
          termLogs := w.termLogs[n.term := n.logs],
          accepted := w.accepted[(id.candidate, n.term) := |n.logs|])
    else w1
  }

  // ---------- replication ----------

  predicate CanStart(w: World, n: nat) { n < |w.nodes| && w.nodes[n].status == Leader }

  function DoStart(w: World, n: nat, command: string): World
    requires CanStart(w, n)
  {
    var n1 := Start(w.nodes[n], command);
    w.(nodes := w.nodes[n := n1], termLogs := w.termLogs[n1.term := n1.logs],
       accepted := w.accepted[(n, n1.term) := |n1.logs|])
  }

  /** The peer's next entry is in the leader's log; otherwise a snapshot is sent instead. */
  predicate SendsEntries(n: Node, peer: nat) {
    peer < |n.nextIndex| && n.snapIndex < n.nextIndex[peer] <= LastIndex(n) + 1
  }

  predicate CanHeartbeat(w: World, n: nat) {
    n < |w.nodes| && w.nodes[n].status == Leader && !HeartbeatStops(w.nodes[n])
  }

  function DoHeartbeat(w: World, n: nat): World
    requires CanHeartbeat(w, n)
  {
    var leader := w.nodes[n];
    var r := |w.rounds|;
    var sent := map p: nat | p < |w.nodes| && p != n && SendsEntries(leader, p) ::
                  AppendId(r, p) := AppendSent(MakeAppendArgs(leader, p));
    w.(rounds := w.rounds + [Round(n, leader.term, LastIndex(leader), 1, false)], appendRpcs := w.appendRpcs + sent)
  }

  predicate CanDeliverAppend(w: World, id: AppendId) {
    && id in w.appendRpcs && w.appendRpcs[id].AppendSent? && id.to < |w.nodes|
    && !AppendCrashes(w.nodes[id.to], w.appendRpcs[id].args)
  }

  function DoDeliverAppend(c: Config, w: World, id: AppendId): World
    requires CanDeliverAppend(w, id)
  {
    var args := w.appendRpcs[id].args;
    var (n1, reply) := HandleAppend(c.receiver, w.nodes[id.to], args);
    w.(nodes := w.nodes[id.to := n1], appendRpcs := w.appendRpcs[id := AppendAnswered(args, reply)],
       accepted := if reply.success
         then w.accepted[(id.to, args.term) := Max(Accepted(w, id.to, args.term), EndOf(args))]
                   else w.accepted)
  }

  predicate CanReturnAppend(w: World, id: AppendId) {
    && id in w.appendRpcs && w.appendRpcs[id].AppendAnswered? && id.round < |w.rounds|
    && var leader := w.rounds[id.round].leader;
       leader < |w.nodes| && id.to < |w.nodes[leader].matchIndex| && id.to < |w.nodes[leader].nextIndex|
  }

  /** The reply raises the round's counter. */
  predicate Acks(w: World, id: AppendId)
    requires CanReturnAppend(w, id)
  {
    var rpc := w.appendRpcs[id];
    AppendReplyCounts(w.nodes[w.rounds[id.round].leader], rpc.reply) && rpc.reply.success
  }

  /** The reply takes the round's counter to a majority. */
  predicate Crosses(w: World, id: AppendId)
    requires CanReturnAppend(w, id)
  {
    var round := w.rounds[id.round];
    Acks(w, id) && round.appendNums + 1 >= Majority(w.nodes[round.leader])
  }

  function DoReturnAppend(w: World, id: AppendId): World
    requires CanReturnAppend(w, id)
  {
    var round := w.rounds[id.round];
    var rpc := w.appendRpcs[id];
    var (n1, num) := HandleAppendReply(w.nodes[round.leader], id.to, rpc.args, rpc.reply, round.appendNums);
    w.(nodes := w.nodes[round.leader := n1], appendRpcs := w.appendRpcs[id := AppendDone(Acks(w, id))],
       rounds := w.rounds[id.round := round.(appendNums := num, crossed := round.crossed || Crosses(w, id))])
  }

  predicate CanApply(w: World, n: nat) {
    && n < |w.nodes| && n < |w.emitted|
    && w.nodes[n].snapIndex <= w.nodes[n].lastApplied && w.nodes[n].commitIndex <= LastIndex(w.nodes[n])
  }

  function DoApply(w: World, n: nat): World
    requires CanApply(w, n)
  {
    var (n1, msgs) := ApplyLogs(w.nodes[n]);
    w.(nodes := w.nodes[n := n1], emitted := w.emitted[n := w.emitted[n] + msgs])
  }

  // ---------- compaction ----------

  predicate CanCompact(w: World, n: nat) { n < |w.nodes| && w.nodes[n].commitIndex <= LastIndex(w.nodes[n]) }

  function DoCompact(w: World, n: nat, index: int): World
    requires CanCompact(w, n)
  {
    w.(nodes := w.nodes[n := Snapshot(w.nodes[n], index)])
  }

  /** The sending thread does not check that its node still leads. */
  function DoSendSnapshot(w: World, n: nat, to: nat, data: string): World
    requires n < |w.nodes|
  {
    w.(snapshotRpcs := w.snapshotRpcs + {SnapshotSent(n, to, MakeSnapshotArgs(w.nodes[n], data))})
  }

  predicate CanDeliverSnapshot(w: World, s: SnapshotRpc) {
    s in w.snapshotRpcs && s.SnapshotSent? && s.to < |w.nodes| && s.to < |w.emitted|
  }

  /** The reply carries the term only on the two paths that set it; elsewhere it is the protobuf default 0. */
  function SnapshotReplyTerm(n: Node, n': Node, a: SnapshotArgs): int {
    if a.term < n.term then n.term else if a.lastIndex <= n.snapIndex then 0 else n'.term
  }

  function DoDeliverSnapshot(w: World, s: SnapshotRpc): World
    requires CanDeliverSnapshot(w, s)
  {
    var (n1, msgs) := InstallSnapshot(w.nodes[s.to], s.args);
    var term := SnapshotReplyTerm(w.nodes[s.to], n1, s.args);
    w.(nodes := w.nodes[s.to := n1], emitted := w.emitted[s.to := w.emitted[s.to] + msgs],
       snapshotRpcs := w.snapshotRpcs + {SnapshotAnswered(s.from, s.to, s.args, term)})
  }

  predicate CanReturnSnapshot(w: World, s: SnapshotRpc) {
    && s in w.snapshotRpcs && s.SnapshotAnswered? && s.from < |w.nodes|
    && s.to < |w.nodes[s.from].matchIndex| && s.to < |w.nodes[s.from].nextIndex|
  }

  function HandleSnapshotReply(n: Node, peer: nat, a: SnapshotArgs, replyTerm: int): Node
    requires peer < |n.matchIndex| && peer < |n.nextIndex|
  {
    if n.status != Leader || n.term != a.term then n
    else if replyTerm > n.term then StepDown(n, replyTerm)
    else n.(matchIndex := n.matchIndex[peer := a.lastIndex], nextIndex := n.nextIndex[peer := a.lastIndex + 1])
  }

  function DoReturnSnapshot(w: World, s: SnapshotRpc): World
    requires CanReturnSnapshot(w, s)
  {
    w.(nodes := w.nodes[s.from := HandleSnapshotReply(w.nodes[s.from], s.to, s.args, s.term)])
  }

  // ---------- steps and runs ----------

  predicate Enabled(c: Config, w: World, e: Event) {
    match e
    case Election(n) => CanElect(w, n)
    case DeliverVote(id) => CanDeliverVote(w, id)
    case ReturnVote(id) => CanReturnVote(w, id)
    case ClientStart(n, _) => CanStart(w, n)
    case Heartbeat(n) => CanHeartbeat(w, n)
    case DeliverAppend(id) => CanDeliverAppend(w, id)
    case ReturnAppend(id) => CanReturnAppend(w, id)
    case Apply(n) => CanApply(w, n)
    case Compact(n, _) => c.compaction && CanCompact(w, n)
    case SendSnapshot(n, _, _) => c.compaction && n < |w.nodes|
    case DeliverSnapshot(s) => c.compaction && CanDeliverSnapshot(w, s)
    case ReturnSnapshot(s) => c.compaction && CanReturnSnapshot(w, s)
  }

  function Step(c: Config, w: World, e: Event): World
    requires Enabled(c, w, e)
  {
    match e
    case Election(n) => DoElection(w, n)
    case DeliverVote(id) => DoDeliverVote(w, id)
    case ReturnVote(id) => DoReturnVote(w, id)
    case ClientStart(n, command) => DoStart(w, n, command)
    case Heartbeat(n) => DoHeartbeat(w, n)
    case DeliverAppend(id) => DoDeliverAppend(c, w, id)
    case ReturnAppend(id) => DoReturnAppend(w, id)
    case Apply(n) => DoApply(w, n)
    case Compact(n, index) => DoCompact(w, n, index)
    case SendSnapshot(n, to, data) => DoSendSnapshot(w, n, to, data)
    case DeliverSnapshot(s) => DoDeliverSnapshot(w, s)
    case ReturnSnapshot(s) => DoReturnSnapshot(w, s)
  }

  ghost predicate Next(c: Config, w: World, w': World) {
    exists e :: Enabled(c, w, e) && w' == Step(c, w, e)
  }

  /** A run from the initial state. */
  ghost predicate IsRun(c: Config, run: seq<World>) {
    && |run| > 0 && run[0] == InitWorld(c)
    && forall i :: 0 <= i < |run| - 1 ==> Next(c, run[i], run[i + 1])
  }

  lemma RunStep(c: Config, run: seq<World>, i: nat) returns (e: Event)
    requires IsRun(c, run) && i + 1 < |run|
    ensures Enabled(c, run[i], e) && run[i + 1] == Step(c, run[i], e)
  {
    hide Enabled, Step;
    assert Next(c, run[i], run[i + 1]);
    e :| Enabled(c, run[i], e) && run[i + 1] == Step(c, run[i], e);
  }

  /** Snapshots are requested only of what has been handed over, as the key-value server promises. */
  ghost predicate Promised(w: World, e: Event) {
    e.Compact? && e.n < |w.nodes| ==> e.index <= w.nodes[e.n].lastApplied
  }

  ghost predicate PromisedNext(c: Config, w: World, w': World) {
    exists e :: Enabled(c, w, e) && Promised(w, e) && w' == Step(c, w, e)
  }

  /** A run in which that is so. */
  ghost predicate IsPromisedRun(c: Config, run: seq<World>) {
    && |run| > 0 && run[0] == InitWorld(c)
    && forall i :: 0 <= i < |run| - 1 ==> PromisedNext(c, run[i], run[i + 1])
  }

  lemma PromisedRunIsRun(c: Config, run: seq<World>)
    requires IsPromisedRun(c, run)
    ensures IsRun(c, run)
  {
    hide Enabled, Step, Promised, InitWorld;
    forall i | 0 <= i < |run| - 1 ensures Next(c, run[i], run[i + 1]) {
      assert PromisedNext(c, run[i], run[i + 1]);
    }
  }

  lemma PromisedStep(c: Config, run: seq<World>, i: nat) returns (e: Event)
    requires IsPromisedRun(c, run) && i + 1 < |run|
    ensures Enabled(c, run[i], e) && Promised(run[i], e) && run[i + 1] == Step(c, run[i], e)
  {
    hide Enabled, Step, Promised, InitWorld;
    assert PromisedNext(c, run[i], run[i + 1]);
    e :| Enabled(c, run[i], e) && Promised(run[i], e) && run[i + 1] == Step(c, run[i], e);
  }
}
