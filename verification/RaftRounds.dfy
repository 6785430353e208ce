/** The counter that the replies of one heartbeat round share, for the code as written, with either append rule
    and with snapshots: it counts each peer's acknowledgement once, and reaches a majority at most once. */
module RaftRounds {
  import opened RaftTypes
  import opened RaftNode
  import opened RaftWorld
  import opened RaftElection
  import opened Quorums

  ghost function Acked(w: World, r: nat): set<nat> {
    set p: nat | p < |w.nodes| && AppendId(r, p) in w.appendRpcs && w.appendRpcs[AppendId(r, p)] == AppendDone(true)
  }

  /** A round's counter is one more than the acknowledgements consumed, until it reaches a majority and
      restarts; it is behind by a majority from then on. */
  ghost predicate RoundCount(w: World, r: nat)
    requires r < |w.rounds|
  {
    var round := w.rounds[r];
    && round.leader < |w.nodes|
    && var acked := |Acked(w, r)|;
       if round.crossed then round.appendNums == acked - |w.nodes| / 2 && acked >= |w.nodes| / 2
       else round.appendNums == 1 + acked && (acked == 0 || 1 + acked < |w.nodes| / 2 + 1)
  }

  /** A call belongs to a round of another server. */
  ghost predicate RpcPlaced(w: World, id: AppendId) {
    && id.round < |w.rounds| && id.to < |w.nodes|
    && w.rounds[id.round].leader < |w.nodes| && id.to != w.rounds[id.round].leader
  }

  ghost predicate RoundInv(w: World) {
    && (forall r :: 0 <= r < |w.rounds| ==> RoundCount(w, r))
    && (forall id :: id in w.appendRpcs ==> RpcPlaced(w, id))
  }

  ghost predicate SameRound(r: Round, r': Round) { r'.leader == r.leader && r'.term == r.term && r'.end == r.end }

  /** The peers that have acknowledged are other servers than the leader. */
  lemma AckedOthers(w: World, r: nat)
    requires RoundInv(w) && r < |w.rounds|
    ensures AllBelow(Acked(w, r), |w.nodes|) && w.rounds[r].leader < |w.nodes| && w.rounds[r].leader !in Acked(w, r)
    ensures |Acked(w, r)| <= |w.nodes| - 1
  {
    assert RoundCount(w, r);
    forall p | p in Acked(w, r) ensures p != w.rounds[r].leader { assert RpcPlaced(w, AppendId(r, p)); }
    hide RoundInv, RoundCount;
    OthersSize(Acked(w, r), w.rounds[r].leader, |w.nodes|);
  }

  /** A reply still to be consumed that would take the counter to a majority finds exactly the others of a
      majority counted, and is the first to do so. */
  lemma CrossingIsFirst(w: World, id: AppendId)
    requires RoundInv(w) && id in w.appendRpcs && w.appendRpcs[id].AppendAnswered? && id.round < |w.rounds|
    requires w.rounds[id.round].appendNums + 1 >= |w.nodes| / 2 + 1
    ensures !w.rounds[id.round].crossed && |Acked(w, id.round)| + 1 == |w.nodes| / 2 && id.to !in Acked(w, id.round)
  {
    assert RoundCount(w, id.round) && RpcPlaced(w, id) && AppendId(id.round, id.to) == id;
    AckedOthers(w, id.round);
    hide RoundInv, Acked;
    var b := AddTwo(Acked(w, id.round), id.to, w.rounds[id.round].leader, |w.nodes|);
  }

  // ---------- steps ----------

  lemma CountKept(w: World, w': World, r: nat)
    requires r < |w.rounds| && r < |w'.rounds| && w'.rounds[r] == w.rounds[r] && |w'.nodes| == |w.nodes|
    requires RoundCount(w, r) && Acked(w', r) == Acked(w, r)
    ensures RoundCount(w', r)
  {
    hide Acked;
  }

  ghost predicate RoundsAlone(w: World, w': World) {
    |w'.nodes| == |w.nodes| && w'.rounds == w.rounds && w'.appendRpcs == w.appendRpcs
  }

  lemma AloneKeepsRounds(w: World, w': World)
    requires RoundInv(w) && RoundsAlone(w, w')
    ensures RoundInv(w')
  {
    forall r: nat | r < |w'.rounds| ensures RoundCount(w', r) {
      assert RoundCount(w, r);
      assert Acked(w', r) == Acked(w, r);
      CountKept(w, w', r);
    }
    forall id | id in w'.appendRpcs ensures RpcPlaced(w', id) { assert RpcPlaced(w, id); }
  }

  /** A heartbeat opens a round with requests to others and touches no call of an earlier one. */
  ghost predicate RoundOpened(w: World, w': World, n: nat) {
    && n < |w.nodes| == |w'.nodes| && |w'.rounds| == |w.rounds| + 1
    && (forall r :: 0 <= r < |w.rounds| ==> w'.rounds[r] == w.rounds[r])
    && w'.rounds[|w.rounds|].leader == n && w'.rounds[|w.rounds|].appendNums == 1 && !w'.rounds[|w.rounds|].crossed
    && (forall id :: id in w.appendRpcs && id.round < |w.rounds| ==>
          id in w'.appendRpcs && w'.appendRpcs[id] == w.appendRpcs[id])
    && (forall id :: id in w'.appendRpcs && id.round != |w.rounds| ==> id in w.appendRpcs)
    && (forall id :: id in w'.appendRpcs && id.round == |w.rounds| ==>
          id.to < |w.nodes| && id.to != n && w'.appendRpcs[id].AppendSent?)
  }

  lemma RoundsStarted(w: World)
    requires RoundInv(w)
    ensures forall id :: id in w.appendRpcs ==> id.round < |w.rounds|
  {
    forall id | id in w.appendRpcs ensures id.round < |w.rounds| { assert RpcPlaced(w, id); }
  }

  lemma HeartbeatOpens(w: World, n: nat)
    requires RoundInv(w) && CanHeartbeat(w, n)
    ensures RoundOpened(w, DoHeartbeat(w, n), n)
  {
    hide RoundInv, MakeAppendArgs, SendsEntries, HeartbeatStops;
    RoundsStarted(w);
  }

  lemma OpenedKeepsRounds(w: World, w': World, n: nat)
    requires RoundInv(w) && RoundOpened(w, w', n)
    ensures RoundInv(w')
  {
    assert Acked(w', |w.rounds|) == {};
    assert RoundCount(w', |w.rounds|);
    forall r: nat | r < |w.rounds| ensures RoundCount(w', r) {
      assert RoundCount(w, r);
      assert Acked(w', r) == Acked(w, r);
      CountKept(w, w', r);
    }
    forall id | id in w'.appendRpcs && id.round != |w.rounds| ensures RpcPlaced(w', id) { assert RpcPlaced(w, id); }
  }

  ghost predicate RpcAnswered(w: World, w': World, id: AppendId) {
    && id in w.appendRpcs && w.appendRpcs[id].AppendSent? && |w'.nodes| == |w.nodes| && w'.rounds == w.rounds
    && id in w'.appendRpcs && w'.appendRpcs[id].AppendAnswered?
         && w'.appendRpcs == w.appendRpcs[id := w'.appendRpcs[id]]
  }

  lemma AnsweredKeepsRounds(w: World, w': World, id: AppendId)
    requires RoundInv(w) && RpcAnswered(w, w', id)
    ensures RoundInv(w')
  {
    forall r: nat | r < |w'.rounds| ensures RoundCount(w', r) {
      assert RoundCount(w, r);
      assert Acked(w', r) == Acked(w, r);
      CountKept(w, w', r);
    }
    forall j | j in w'.appendRpcs ensures RpcPlaced(w', j) { assert RpcPlaced(w, j); }
  }

  ghost predicate RpcConsumed(w: World, w': World, id: AppendId, acks: bool, crosses: bool) {
    && id in w.appendRpcs && w.appendRpcs[id].AppendAnswered? && id.round < |w.rounds| == |w'.rounds|
    && |w'.nodes| == |w.nodes| && w'.appendRpcs == w.appendRpcs[id := AppendDone(acks)]
    && var round, round' := w.rounds[id.round], w'.rounds[id.round];
       && w'.rounds == w.rounds[id.round := round'] && SameRound(round, round')
       && crosses == (acks && round.appendNums + 1 >= |w.nodes| / 2 + 1)
       && round'.crossed == (round.crossed || crosses)
       && round'.appendNums == (if crosses then 0 else if acks then round.appendNums + 1 else round.appendNums)
  }

  lemma ReturnConsumes(c: Config, w: World, id: AppendId)
    requires Shape(c, w) && CanReturnAppend(w, id)
    ensures RpcConsumed(w, DoReturnAppend(w, id), id, Acks(w, id), Crosses(w, id))
  {}

  /** A consumed reply is counted once. */
  lemma AckedGrows(w: World, w': World, id: AppendId, acks: bool, crosses: bool)
    requires RpcConsumed(w, w', id, acks, crosses) && id.to < |w.nodes|
    ensures forall r: nat :: r != id.round ==> Acked(w', r) == Acked(w, r)
    ensures id.to !in Acked(w, id.round)
    ensures Acked(w', id.round) == Acked(w, id.round) + if acks then {id.to} else {}
  {
    assert AppendId(id.round, id.to) == id;
  }

  lemma ThisCountMoves(w: World, w': World, id: AppendId, acks: bool, crosses: bool)
    requires RpcConsumed(w, w', id, acks, crosses) && RoundCount(w, id.round)
    requires crosses ==> !w.rounds[id.round].crossed && |Acked(w, id.round)| + 1 == |w.nodes| / 2
    requires id.to !in Acked(w, id.round) && Acked(w', id.round) == Acked(w, id.round) + if acks then {id.to} else {}
    ensures RoundCount(w', id.round)
  {
    hide Acked;
    assert |Acked(w', id.round)| == |Acked(w, id.round)| + if acks then 1 else 0;
  }

  lemma ConsumedKeepsRounds(w: World, w': World, id: AppendId, acks: bool, crosses: bool)
    requires RoundInv(w) && RpcConsumed(w, w', id, acks, crosses)
    ensures RoundInv(w')
  {
    assert RoundCount(w, id.round) && RpcPlaced(w, id);
    if crosses { CrossingIsFirst(w, id); }
    AckedGrows(w, w', id, acks, crosses);
    ThisCountMoves(w, w', id, acks, crosses);
    hide Acked;
    forall r: nat | r < |w'.rounds| && r != id.round ensures RoundCount(w', r) {
      assert RoundCount(w, r);
      CountKept(w, w', r);
    }
    forall j | j in w'.appendRpcs ensures RpcPlaced(w', j) { assert RpcPlaced(w, j); }
  }

  lemma OtherStepsLeaveRounds(c: Config, w: World, e: Event)
    requires Shape(c, w) && Enabled(c, w, e) && !e.Heartbeat? && !e.DeliverAppend? && !e.ReturnAppend?
    ensures RoundsAlone(w, Step(c, w, e))
  {
    hide HandleVote, HandleVoteReply, MakeVoteArgs, InstallSnapshot, Snapshot, ApplyLogs, BallotHolders, VoteWins,
      VoteCounts, Start, BecomeCandidate, HandleSnapshotReply;
  }

  lemma StepKeepsRounds(c: Config, w: World, e: Event)
    requires Shape(c, w) && RoundInv(w) && Enabled(c, w, e)
    ensures RoundInv(Step(c, w, e))
  {
    var w' := Step(c, w, e);
    hide RoundInv, Shape, DoHeartbeat, DoReturnAppend, HandleAppend;
    match e
    case Heartbeat(n) => HeartbeatOpens(w, n); OpenedKeepsRounds(w, w', n);
    case DeliverAppend(id) => AnsweredKeepsRounds(w, w', id);
    case ReturnAppend(id) => ReturnConsumes(c, w, id); ConsumedKeepsRounds(w, w', id, Acks(w, id), Crosses(w, id));
    case _ => OtherStepsLeaveRounds(c, w, e); AloneKeepsRounds(w, w');
  }

  lemma {:induction false} RunRounds(c: Config, run: seq<World>, i: nat)
    requires IsRun(c, run) && i < |run|
    ensures RoundInv(run[i]) && Shape(c, run[i])
  {
    hide Enabled, Step, Shape;
    RunElection(c, run, i);
    if i > 0 {
      hide RoundInv;
      RunRounds(c, run, i - 1);
      var e := RunStep(c, run, i - 1);
      StepKeepsRounds(c, run[i - 1], e);
    }
  }

  /** In every run a heartbeat round's counter reaches a majority at most once, and then exactly. */
  lemma RoundCrossesOnce(c: Config, run: seq<World>, i: nat, id: AppendId)
    requires IsRun(c, run) && i < |run| && CanReturnAppend(run[i], id) && Crosses(run[i], id)
    ensures !run[i].rounds[id.round].crossed && |Acked(run[i], id.round)| + 1 == c.peers / 2
  {
    RunRounds(c, run, i);
    hide IsRun, RoundInv;
    CrossingIsFirst(run[i], id);
  }
}
