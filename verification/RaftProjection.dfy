/** Every server of a cluster, as written and with snapshots, runs as RaftSingle describes: what its peers send it
    is what RaftSingle allows. So what is proved there holds of each server in every run of the cluster in which
    snapshots are requested only of what has been handed over. */
module RaftProjection {
  import opened RaftTypes
  import opened RaftNode
  import opened RaftWorld
  import opened RaftElection
  import opened RaftRounds
  import opened RaftEntries
  import opened RaftMarks
  import opened RaftServer
  import opened RaftSingle

  /** The requests of a server's rounds whose replies it has not consumed. */
  ghost function Asked(w: World, n: nat): set<AppendArgs> {
    set id | id in w.appendRpcs && !w.appendRpcs[id].AppendDone? && id.round < |w.rounds|
      && w.rounds[id.round].leader == n
      :: w.appendRpcs[id].args
  }

  /** The snapshots a server has sent. */
  ghost function Offered(w: World, n: nat): set<SnapshotArgs> {
    set s | s in w.snapshotRpcs && s.SnapshotSent? && s.from == n :: s.args
  }

  /** One server of the world, given all requests it has sent. */
  ghost function ServerOf(w: World, n: nat, asked: set<AppendArgs>): Local
    requires n < |w.nodes| && n < |w.emitted|
  {
    Local(w.nodes[n], asked, Offered(w, n), w.emitted[n])
  }

  // ---------- what servers send each other ----------

  ghost predicate ReplyFloor(r: AppendReply) {
    r.success || r.updateNextIndex == KEEP_NEXT_INDEX || 1 <= r.updateNextIndex
  }

  ghost predicate RpcFloor(rpc: AppendRpc) {
    match rpc
    case AppendSent(a) => 0 <= a.prevLogIndex && (a.prevLogIndex == 0 ==> a.prevLogTerm == 0)
    case AppendAnswered(_, r) => ReplyFloor(r)
    case AppendDone(_) => true
  }

  /** Index 0 has term 0 everywhere, no suggestion is below 1, and answers are to snapshots that were sent. */
  ghost predicate Floors(w: World) {
    && (forall n :: 0 <= n < |w.nodes| && w.nodes[n].snapIndex == 0 ==> w.nodes[n].snapTerm == 0)
    && (forall id :: id in w.appendRpcs ==> RpcFloor(w.appendRpcs[id]))
    && (forall s :: s in w.snapshotRpcs && s.SnapshotAnswered? ==> SnapshotSent(s.from, s.to, s.args) in w.snapshotRpcs)
  }

  ghost predicate AllWellFormed(w: World) {
    forall n :: 0 <= n < |w.nodes| ==> WellFormed(w.nodes[n]) && InBounds(w.nodes[n])
  }

  /** One node and one call change, or requests are added, with their floors. */
  ghost predicate FloorsAt(w: World, w': World, i: nat) {
    && i < |w.nodes| && |w'.nodes| == |w.nodes| && w'.nodes == w.nodes[i := w'.nodes[i]]
    && (w'.nodes[i].snapIndex == 0 ==> w'.nodes[i].snapTerm == 0)
    && (forall id :: id in w'.appendRpcs ==> RpcFloor(w'.appendRpcs[id]))
    && (forall s :: s in w'.snapshotRpcs && s.SnapshotAnswered? ==>
          SnapshotSent(s.from, s.to, s.args) in w'.snapshotRpcs)
  }

  lemma DeliveryFloor(c: Config, w: World, id: AppendId)
    requires Floors(w) && AllWellFormed(w) && CanDeliverAppend(w, id) && c.receiver == AsWritten
    ensures FloorsAt(w, DoDeliverAppend(c, w, id), id.to)
  {
    hide HandleAppend, WellFormed, AppendCrashes, InBounds;
    var n, a := w.nodes[id.to], w.appendRpcs[id].args;
    assert RpcFloor(w.appendRpcs[id]);
    AppendFloor(n, a);
  }

  lemma AppendFloor(n: Node, a: AppendArgs)
    requires WellFormed(n) && 0 <= a.prevLogIndex && (a.prevLogIndex == 0 ==> a.prevLogTerm == 0)
    requires n.snapIndex == 0 ==> n.snapTerm == 0
    ensures var (n', r) := HandleAppend(AsWritten, n, a);
            ReplyFloor(r) && n'.snapIndex == n.snapIndex && n'.snapTerm == n.snapTerm
  {
    var r := HandleAppend(AsWritten, n, a).1;
    if !r.success { SuggestionsArePositive(n, a); }
    hide Merge, BackOff, WellFormed;
  }

  lemma RequestFloor(n: Node, peer: nat)
    requires WellFormed(n) && SendsEntries(n, peer) && (n.snapIndex == 0 ==> n.snapTerm == 0)
    ensures RpcFloor(AppendSent(MakeAppendArgs(n, peer)))
  {}

  lemma HeartbeatFloor(w: World, n: nat)
    requires Floors(w) && AllWellFormed(w) && CanHeartbeat(w, n)
    ensures FloorsAt(w, DoHeartbeat(w, n), n)
  {
    hide HeartbeatStops, MakeAppendArgs, RpcFloor, WellFormed, InBounds;
    forall p: nat | SendsEntries(w.nodes[n], p) ensures RpcFloor(AppendSent(MakeAppendArgs(w.nodes[n], p))) {
      RequestFloor(w.nodes[n], p);
    }
  }

  lemma VoteFloors(c: Config, w: World, e: Event) returns (i: nat)
    requires Floors(w) && Enabled(c, w, e) && (e.Election? || e.DeliverVote? || e.ReturnVote?)
    ensures FloorsAt(w, Step(c, w, e), i)
  {
    hide HandleVote, HandleVoteReply, MakeVoteArgs, BallotHolders, VoteWins, VoteCounts, RpcFloor;
    match e
    case Election(n) => i := n;
    case DeliverVote(id) => i := id.voter; VoteKeepsSnap(w.nodes[i], w.voteRpcs[id].args);
    case ReturnVote(id) =>
      i := id.candidate;
      VoteReplyKeepsSnap(w.nodes[i], w.voteRpcs[id].reply, w.votedNums[(i, id.term)]);
  }

  lemma OtherFloors(c: Config, w: World, e: Event) returns (i: nat)
    requires Floors(w) && AllWellFormed(w) && Enabled(c, w, e)
    requires !e.Election? && !e.DeliverVote? && !e.ReturnVote? && !e.DeliverAppend? && !e.Heartbeat?
    ensures FloorsAt(w, Step(c, w, e), i)
  {
    hide HandleAppendReply, InBounds, Contiguous, ApplyLogs, Snapshot, InstallSnapshot, HandleSnapshotReply;
    match e
    case ClientStart(n, _) => i := n;
    case ReturnAppend(id) =>
      i := w.rounds[id.round].leader;
      var rpc := w.appendRpcs[id];
      AppendReplyKeepsSnap(w.nodes[i], id.to, rpc.args, rpc.reply, w.rounds[id.round].appendNums);
    case Apply(n) => i := n; ApplyKeepsSnap(w.nodes[n]);
    case Compact(n, index) => i := n; CompactFloor(w.nodes[n], index);
    case SendSnapshot(n, _, _) => i := n;
    case DeliverSnapshot(s) => i := s.to; InstallFloor(w.nodes[i], s.args);
    case ReturnSnapshot(s) => i := s.from; SnapshotReplyKeepsSnap(w.nodes[i], s.to, s.args, s.term);
  }

  lemma CompactFloor(n: Node, index: int)
    requires 0 <= n.snapIndex && n.commitIndex <= LastIndex(n)
    ensures Snapshot(n, index).snapIndex == 0 ==> SameSnap(n, Snapshot(n, index))
  {}

  lemma InstallFloor(n: Node, a: SnapshotArgs)
    requires 0 <= n.snapIndex
    ensures InstallSnapshot(n, a).0.snapIndex == 0 ==> SameSnap(n, InstallSnapshot(n, a).0)
  {}

  lemma StepKeepsFloors(c: Config, w: World, e: Event)
    requires Floors(w) && AllWellFormed(w) && Enabled(c, w, e) && c.receiver == AsWritten
    ensures Floors(Step(c, w, e))
  {
    hide AllWellFormed, RpcFloor, DoDeliverAppend, DoHeartbeat;
    var i;
    if e.DeliverAppend? {
      i := e.append.to;
      DeliveryFloor(c, w, e.append);
    } else if e.Heartbeat? {
      i := e.n;
      HeartbeatFloor(w, e.n);
    } else if e.Election? || e.DeliverVote? || e.ReturnVote? {
      i := VoteFloors(c, w, e);
    } else {
      i := OtherFloors(c, w, e);
    }
    hide Enabled, Step;
  }

  // ---------- one step of the cluster, seen by one server ----------

  /** Some input that leaves the server alone. */
  lemma Idle(l: Local) returns (i: Input)
    ensures Allowed(l, i) && React(l, i) == l
  {
    i := if l.node.status == Leader then Elect else Command("");
  }

  /** What a heartbeat adds. */
  ghost predicate Beaten(w: World, w': World, m: nat) {
    && m < |w.nodes| && |w'.rounds| == |w.rounds| + 1 && w'.rounds[|w.rounds|].leader == m
    && (forall r :: 0 <= r < |w.rounds| ==> w'.rounds[r] == w.rounds[r])
    && (forall id :: id in w.appendRpcs ==>
          id.round < |w.rounds| && id in w'.appendRpcs && w'.appendRpcs[id] == w.appendRpcs[id])
    && (forall p: nat :: p < |w.nodes| && p != m && SendsEntries(w.nodes[m], p) ==>
          AppendId(|w.rounds|, p) in w'.appendRpcs)
    && (forall id :: id in w'.appendRpcs && id !in w.appendRpcs ==>
          && id.round == |w.rounds| && id.to < |w.nodes| && id.to != m && SendsEntries(w.nodes[m], id.to)
          && w'.appendRpcs[id] == AppendSent(MakeAppendArgs(w.nodes[m], id.to)))
  }

  lemma HeartbeatBeats(w: World, m: nat)
    requires RoundInv(w) && CanHeartbeat(w, m)
    ensures Beaten(w, DoHeartbeat(w, m), m)
  {
    hide RoundInv, MakeAppendArgs, HeartbeatStops, LastIndex;
    RoundsStarted(w);
  }

  lemma BeatAsks(c: Config, w: World, w': World, m: nat, n: nat)
    requires Shape(c, w) && Beaten(w, w', m)
    ensures Asked(w', n) == Asked(w, n) + if m == n then Requests(w.nodes[m]) else {}
  {
    hide MakeAppendArgs, LastIndex;
    var after := Asked(w, n) + if m == n then Requests(w.nodes[m]) else {};
    forall a | a in after ensures a in Asked(w', n) {
      if a !in Asked(w, n) {
        var p: nat :| p < |w.nodes| && p != m && SendsEntries(w.nodes[m], p) && a == MakeAppendArgs(w.nodes[m], p);
        assert AppendId(|w.rounds|, p) in w'.appendRpcs;
      }
    }
  }

  lemma DeliveryAsks(c: Config, w: World, id: AppendId, n: nat)
    requires CanDeliverAppend(w, id)
    ensures Asked(DoDeliverAppend(c, w, id), n) <= Asked(w, n)
  {
    hide HandleAppend, AppendCrashes;
  }

  lemma ReturnAsks(w: World, id: AppendId, n: nat)
    requires CanReturnAppend(w, id)
    ensures Asked(DoReturnAppend(w, id), n) <= Asked(w, n)
  {
    hide HandleAppendReply, Acks, Crosses;
  }

  lemma AskedMoves(c: Config, w: World, e: Event, n: nat)
    requires RoundInv(w) && Shape(c, w) && Enabled(c, w, e) && n < |w.nodes|
    ensures if e == Heartbeat(n) then Asked(Step(c, w, e), n) == Asked(w, n) + Requests(w.nodes[n])
            else Asked(Step(c, w, e), n) <= Asked(w, n)
  {
    hide RoundInv, Shape, Asked, Requests, DoHeartbeat, DoDeliverAppend, DoReturnAppend;
    match e
    case Heartbeat(m) => HeartbeatBeats(w, m); BeatAsks(c, w, DoHeartbeat(w, m), m, n);
    case DeliverAppend(id) => DeliveryAsks(c, w, id, n);
    case ReturnAppend(id) => ReturnAsks(w, id, n);
    case _ =>
      OtherStepsLeaveRounds(c, w, e);
      AloneKeepsAsked(w, Step(c, w, e), n);
  }

  lemma AloneKeepsAsked(w: World, w': World, n: nat)
    requires RoundsAlone(w, w')
    ensures Asked(w', n) == Asked(w, n)
  {}

  lemma OfferedMoves(c: Config, w: World, e: Event, n: nat)
    requires Enabled(c, w, e) && n < |w.nodes|
    ensures Offered(Step(c, w, e), n) == Offered(w, n)
              + if e.SendSnapshot? && e.n == n then
                  {MakeSnapshotArgs(w.nodes[n], e.data)}
                else {}
  {
  }

  /** The server whose handler runs in a step. */
  ghost function Actor(c: Config, w: World, e: Event): nat
    requires Enabled(c, w, e)
  {
    match e
    case Election(n) => n
    case DeliverVote(id) => id.voter
    case ReturnVote(id) => id.candidate
    case ClientStart(n, _) => n
    case Heartbeat(n) => n
    case DeliverAppend(id) => id.to
    case ReturnAppend(id) => w.rounds[id.round].leader
    case Apply(n) => n
    case Compact(n, _) => n
    case SendSnapshot(n, _, _) => n
    case DeliverSnapshot(s) => s.to
    case ReturnSnapshot(s) => s.from
  }

  /** What the step is for that server. */
  ghost function InputOf(c: Config, w: World, e: Event): Input
    requires Enabled(c, w, e)
  {
    match e
    case Election(_) => Elect
    case DeliverVote(id) => Vote(w.voteRpcs[id].args)
    case ReturnVote(id) => VoteReplied(w.voteRpcs[id].reply, w.votedNums[(id.candidate, id.term)])
    case ClientStart(_, command) => Command(command)
    case Heartbeat(_) => Beat
    case DeliverAppend(id) => Append(w.appendRpcs[id].args)
    case ReturnAppend(id) =>
      AppendReplied(id.to, w.appendRpcs[id].args, w.appendRpcs[id].reply, w.rounds[id.round].appendNums)
    case Apply(_) => Input.Apply
    case Compact(_, index) => Input.Compact(index)
    case SendSnapshot(_, _, data) => Input.SendSnapshot(data)
    case DeliverSnapshot(s) => Install(s.args)
    case ReturnSnapshot(s) => SnapshotReplied(s.to, s.args, s.term)
  }

  /** The world keeps what its servers need. */
  ghost predicate Supplied(c: Config, w: World) {
    && c.receiver == AsWritten && Shape(c, w) && RoundInv(w) && Floors(w)
    && forall id :: id in w.appendRpcs && w.appendRpcs[id].AppendSent? ==>
         Contiguous(w.appendRpcs[id].args.entries, w.appendRpcs[id].args.prevLogIndex)
  }

  lemma InputAllowed(c: Config, w: World, e: Event, n: nat, asked: set<AppendArgs>)
    requires Supplied(c, w) && Enabled(c, w, e) && Promised(w, e) && n == Actor(c, w, e) && n < c.peers
    requires Asked(w, n) <= asked
    ensures Allowed(ServerOf(w, n, asked), InputOf(c, w, e))
  {
    hide RoundInv, AppendCrashes, HeartbeatStops, VoteWins, Contiguous;
    if e.ReturnAppend? {
      assert RpcFloor(w.appendRpcs[e.append]);
      assert w.appendRpcs[e.append].args in Asked(w, n);
    }
  }

  /** The handler does to the server what RaftSingle says. */
  ghost predicate Reacts(c: Config, w: World, e: Event, n: nat, asked: set<AppendArgs>)
    requires Shape(c, w) && Enabled(c, w, e) && n == Actor(c, w, e) && n < c.peers
    requires Allowed(ServerOf(w, n, asked), InputOf(c, w, e))
  {
    var l, w' := React(ServerOf(w, n, asked), InputOf(c, w, e)), Step(c, w, e);
    && n < |w'.nodes| && n < |w'.emitted| && l.node == w'.nodes[n] && l.stream == w'.emitted[n]
    && l.appends == (if e.Heartbeat? then asked + Requests(w.nodes[n]) else asked)
    && l.snapshots == Offered(w, n)
         + if e.SendSnapshot? then
             {MakeSnapshotArgs(w.nodes[n], e.data)}
           else {}
  }

  lemma VoteReacts(c: Config, w: World, e: Event, n: nat, asked: set<AppendArgs>)
    requires Shape(c, w) && Enabled(c, w, e) && n == Actor(c, w, e) && n < c.peers
    requires Allowed(ServerOf(w, n, asked), InputOf(c, w, e))
    requires e.Election? || e.DeliverVote? || e.ReturnVote? || e.ClientStart? || e.Heartbeat?
    ensures Reacts(c, w, e, n, asked)
  {
    hide HeartbeatStops, VoteWins, Offered, HandleVote, HandleVoteReply, Requests, BecomeCandidate, MakeVoteArgs, Start;
  }

  lemma OtherReacts(c: Config, w: World, e: Event, n: nat, asked: set<AppendArgs>)
    requires Shape(c, w) && Enabled(c, w, e) && n == Actor(c, w, e) && n < c.peers
    requires Allowed(ServerOf(w, n, asked), InputOf(c, w, e)) && c.receiver == AsWritten
    requires !e.Election? && !e.DeliverVote? && !e.ReturnVote? && !e.ClientStart? && !e.Heartbeat?
    ensures Reacts(c, w, e, n, asked)
  {
    hide AppendCrashes, Contiguous, Offered, HandleAppend, HandleAppendReply, InstallSnapshot, Snapshot,
      HandleSnapshotReply, ApplyLogs;
  }

  /** A step leaves every other server alone. */
  ghost predicate Rests(c: Config, w: World, e: Event, n: nat)
    requires Enabled(c, w, e) && n < |w.nodes| && n < |w.emitted|
  {
    var w' := Step(c, w, e);
    n < |w'.nodes| && n < |w'.emitted| && w'.nodes[n] == w.nodes[n] && w'.emitted[n] == w.emitted[n]
  }

  lemma VoteRests(c: Config, w: World, e: Event, n: nat)
    requires Shape(c, w) && Enabled(c, w, e) && n != Actor(c, w, e) && n < c.peers
    requires e.Election? || e.DeliverVote? || e.ReturnVote? || e.ClientStart? || e.Heartbeat?
    ensures Rests(c, w, e, n)
  {
    hide HeartbeatStops, VoteWins, HandleVote, HandleVoteReply, BecomeCandidate, MakeVoteArgs, Start, BallotHolders,
      MakeAppendArgs;
  }

  lemma OtherRests(c: Config, w: World, e: Event, n: nat)
    requires Shape(c, w) && Enabled(c, w, e) && n != Actor(c, w, e) && n < c.peers
    requires !e.Election? && !e.DeliverVote? && !e.ReturnVote? && !e.ClientStart? && !e.Heartbeat?
    ensures Rests(c, w, e, n)
  {
    hide AppendCrashes, HandleAppend, HandleAppendReply, InstallSnapshot, Snapshot, HandleSnapshotReply, ApplyLogs;
  }

  /** Every step of the cluster is an allowed step of each server. */
  lemma ServerStep(c: Config, w: World, e: Event, n: nat, asked: set<AppendArgs>) returns (i: Input)
    requires Supplied(c, w) && Enabled(c, w, e) && Promised(w, e) && n < c.peers && Asked(w, n) <= asked
    ensures var w', l := Step(c, w, e), ServerOf(w, n, asked);
            && n < |w'.nodes| && n < |w'.emitted|
            && Allowed(l, i) && React(l, i) == ServerOf(w', n, asked + Asked(w', n))
  {
    hide Enabled, Step, Allowed, React, Asked, Offered, Requests, RoundInv, Floors;
    AskedMoves(c, w, e, n);
    OfferedMoves(c, w, e, n);
    var plain := !e.Election? && !e.DeliverVote? && !e.ReturnVote? && !e.ClientStart? && !e.Heartbeat?;
    if n == Actor(c, w, e) {
      i := InputOf(c, w, e);
      InputAllowed(c, w, e, n, asked);
      hide InputOf;
      if plain { OtherReacts(c, w, e, n, asked); } else { VoteReacts(c, w, e, n, asked); }
    } else {
      i := Idle(ServerOf(w, n, asked));
      if plain { OtherRests(c, w, e, n); } else { VoteRests(c, w, e, n); }
    }
  }

  // ---------- every run ----------

  /** Every request a server has sent up to point k. */
  ghost function Requested(run: seq<World>, n: nat, k: nat): set<AppendArgs>
    requires k < |run|
  {
    if k == 0 then Asked(run[0], n) else Requested(run, n, k - 1) + Asked(run[k], n)
  }

  ghost predicate ServerOk(w: World, n: nat, asked: set<AppendArgs>) {
    n < |w.nodes| && n < |w.emitted| && Asked(w, n) <= asked && LocalInv(ServerOf(w, n, asked))
  }

  lemma SuppliedNow(c: Config, run: seq<World>, k: nat)
    requires IsPromisedRun(c, run) && c.receiver == AsWritten && k < |run| && Floors(run[k])
    ensures Supplied(c, run[k])
  {
    hide IsPromisedRun, IsRun, Floors, RoundInv, ElectionInv, Shape, Unique, FromLeaders, Contiguous;
    PromisedRunIsRun(c, run);
    RunRounds(c, run, k);
    RunEntries(c, run, k);
    forall id | id in run[k].appendRpcs && run[k].appendRpcs[id].AppendSent?
      ensures Contiguous(run[k].appendRpcs[id].args.entries, run[k].appendRpcs[id].args.prevLogIndex)
    {
      assert RequestWithin(run[k].appendRpcs[id], Seen(run, k));
    }
  }

  lemma StartsAlone(c: Config, n: nat)
    requires n < c.peers
    ensures Asked(InitWorld(c), n) == {} && ServerOk(InitWorld(c), n, {})
    ensures ServerOf(InitWorld(c), n, {}) == Local(Init(n, c.peers), {}, {}, [])
  {}

  lemma RunStarts(c: Config, run: seq<World>)
    requires IsPromisedRun(c, run)
    ensures Floors(run[0]) && forall n: nat :: n < c.peers ==> ServerOk(run[0], n, Requested(run, n, 0))
  {
    hide PromisedNext, ServerOk, Asked;
    forall n: nat | n < c.peers ensures ServerOk(run[0], n, Requested(run, n, 0)) { StartsAlone(c, n); }
  }

  lemma ServersWellFormed(c: Config, run: seq<World>, k: nat)
    requires k < |run| && Supplied(c, run[k])
    requires forall n: nat :: n < c.peers ==> ServerOk(run[k], n, Requested(run, n, k))
    ensures AllWellFormed(run[k])
  {
    hide RoundInv, Floors, WellFormed, InBounds, Gapless, Reached, Asked;
    forall n: nat | n < |run[k].nodes| ensures WellFormed(run[k].nodes[n]) && InBounds(run[k].nodes[n]) {
      assert ServerOk(run[k], n, Requested(run, n, k));
    }
  }

  /** One step of a run is a step of server n by itself. */
  lemma ServerMoves(c: Config, run: seq<World>, k: nat, n: nat)
    requires IsPromisedRun(c, run) && k + 1 < |run| && Supplied(c, run[k]) && n < c.peers
    requires ServerOk(run[k], n, Requested(run, n, k))
    ensures ServerOk(run[k + 1], n, Requested(run, n, k + 1))
    ensures LocalNext(ServerOf(run[k], n, Requested(run, n, k)), ServerOf(run[k + 1], n, Requested(run, n, k + 1)))
  {
    hide Supplied, Enabled, Step, Promised, Allowed, React, LocalInv, Asked, Offered, IsPromisedRun;
    var e := PromisedStep(c, run, k);
    var i := ServerStep(c, run[k], e, n, Requested(run, n, k));
    StepKeepsLocal(ServerOf(run[k], n, Requested(run, n, k)), i);
  }

  lemma FloorsOf(c: Config, w: World)
    requires Supplied(c, w)
    ensures Floors(w) && c.receiver == AsWritten
  {}

  lemma {:induction false} RunSupplied(c: Config, run: seq<World>, k: nat)
    requires IsPromisedRun(c, run) && c.receiver == AsWritten && k < |run|
    ensures Supplied(c, run[k]) && forall n: nat :: n < c.peers ==> ServerOk(run[k], n, Requested(run, n, k))
  {
    hide Supplied, Enabled, Step, Promised, ServerOk, Asked, Floors, AllWellFormed;
    if k == 0 {
      RunStarts(c, run);
      SuppliedNow(c, run, 0);
    } else {
      hide IsPromisedRun;
      RunSupplied(c, run, k - 1);
      forall n: nat | n < c.peers ensures ServerOk(run[k], n, Requested(run, n, k)) { ServerMoves(c, run, k - 1, n); }
      ServersWellFormed(c, run, k - 1);
      var e := PromisedStep(c, run, k - 1);
      assert Floors(run[k - 1]) by { FloorsOf(c, run[k - 1]); }
      StepKeepsFloors(c, run[k - 1], e);
      SuppliedNow(c, run, k);
    }
  }

  /** What one server does in a run of the cluster as written, with snapshots, is a run of that server by itself. */
  lemma ServerRunsAlone(c: Config, run: seq<World>, n: nat) returns (locals: seq<Local>)
    requires IsPromisedRun(c, run) && c.receiver == AsWritten && n < c.peers
    ensures IsLocalRun(locals) && |locals| == |run|
    ensures forall k :: 0 <= k < |run| ==>
              && n < |run[k].nodes| && n < |run[k].emitted|
              && locals[k] == ServerOf(run[k], n, locals[k].appends) && Asked(run[k], n) <= locals[k].appends
  {
    hide Supplied, Asked, LocalNext, PromisedNext, LocalInv;
    forall k: nat | k < |run| ensures ServerOk(run[k], n, Requested(run, n, k)) { RunSupplied(c, run, k); }
    locals := seq(|run|, k requires 0 <= k < |run| => ServerOf(run[k], n, Requested(run, n, k)));
    StartsAlone(c, n);
    forall k | 0 <= k < |locals| - 1 ensures LocalNext(locals[k], locals[k + 1]) {
      RunSupplied(c, run, k);
      ServerMoves(c, run, k, n);
    }
    assert locals[0] == Local(Init(n, c.peers), {}, {}, []);
  }

  /** So in every such run each server's log, commit, applied and snapshot index are in order, they never go back,
      and what it has handed over stays. */
  lemma ServersStayInOrder(c: Config, run: seq<World>, j: nat, k: nat, n: nat)
    requires IsPromisedRun(c, run) && c.receiver == AsWritten && n < c.peers && j <= k < |run|
    ensures n < |run[j].nodes| && n < |run[k].nodes| && n < |run[j].emitted| && n < |run[k].emitted|
    ensures WellFormed(run[k].nodes[n]) && InBounds(run[k].nodes[n]) && CanApply(run[k], n) && CanCompact(run[k], n)
    ensures Progress(run[j].nodes[n], run[k].nodes[n]) && run[j].emitted[n] <= run[k].emitted[n]
  {
    hide IsPromisedRun, IsLocalRun, Asked, Gapless, Reached;
    var locals := ServerRunsAlone(c, run, n);
    LocalRun(locals, k);
    LocalRunMovesForward(locals, j, k);
  }

  /** The commands each server hands over have strictly increasing indices, and every index it has applied was
      handed over or is covered by a snapshot it installed. */
  lemma ServersHandOverInOrder(c: Config, run: seq<World>, k: nat, n: nat, x: int) returns (m: nat)
    requires IsPromisedRun(c, run) && c.receiver == AsWritten && n < c.peers && k < |run|
    requires n < |run[k].nodes| && n < |run[k].emitted| && 1 <= x <= run[k].nodes[n].lastApplied
    ensures var stream := run[k].emitted[n];
            && m < |stream| && Covers(stream[m], x)
            && forall i, j :: 0 <= i < j < |stream| && stream[i].CommandMsg? && stream[j].CommandMsg? ==>
                 stream[i].index < stream[j].index
  {
    hide IsPromisedRun, IsLocalRun, Asked, Covers;
    var locals := ServerRunsAlone(c, run, n);
    m := ApplyStream(locals, k, x);
  }

  /** A run without compaction is one of these. */
  lemma UncompactedIsPromised(c: Config, run: seq<World>)
    requires IsRun(c, run) && !c.compaction
    ensures IsPromisedRun(c, run)
  {
    hide InitWorld, Step;
    forall i | 0 <= i < |run| - 1 ensures PromisedNext(c, run[i], run[i + 1]) {
      var e := RunStep(c, run, i);
      assert Promised(run[i], e);
    }
  }
}
