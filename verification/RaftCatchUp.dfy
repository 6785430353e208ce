/** A follower catches up, as written: with a stable leader and no compaction, each failed consistency check
    lowers nextIndex, so some exchange succeeds, and then the follower holds the leader's whole log. First for the
    two alone, then in any run, where the rest of the cluster moves on in between. */
module RaftCatchUp {
  import opened RaftTypes
  import opened RaftNode
  import opened RaftWorld
  import opened RaftElection
  import opened RaftRounds
  import opened RaftReplication
  import opened RaftLog
  import opened RaftMerge

  ghost predicate Sound(n: Node) { LogOk(n.logs, n.term) && n.snapIndex == n.snapTerm == 0 }

  /** A leader and one follower whose logs satisfy log matching. */
  ghost predicate Pair(l: Node, f: Node, p: nat) {
    && Sound(l) && Sound(f) && Matching(f.logs, l.logs) && l.commitIndex <= |l.logs|
    && l.status == Leader && f.term <= l.term && p < |l.nextIndex| == |l.matchIndex|
    && 1 <= l.nextIndex[p] <= |l.logs| + 1 && 0 <= l.matchIndex[p] <= |l.logs|
  }

  /** One exchange of a heartbeat round between the two, with the round's counter at num: whether it
      succeeded, and both servers after it. */
  function OneExchange(l: Node, f: Node, p: nat, num: int): (bool, Node, Node)
    requires p < |l.nextIndex| && p < |l.matchIndex| && SendsEntries(l, p)
  {
    var a := MakeAppendArgs(l, p);
    var (f', r) := HandleAppend(AsWritten, f, a);
    (r.success, HandleAppendReply(l, p, a, r, num).0, f')
  }

  lemma RequestShape(l: Node, f: Node, p: nat)
    requires Pair(l, f, p)
    ensures SendsEntries(l, p)
    ensures var a := MakeAppendArgs(l, p);
            && a.term == l.term && a.prevLogIndex == l.nextIndex[p] - 1 && a.entries == l.logs[a.prevLogIndex..]
            && a.prevLogTerm == TermIn(l.logs, a.prevLogIndex) && EndOf(a) == |l.logs|
            && a.leaderCommit == l.commitIndex
  {}

  /** What a failed check tells the leader. */
  lemma RejectedRequest(f: Node, a: AppendArgs)
    requires Sound(f) && f.term <= a.term && 0 <= a.prevLogIndex && (a.prevLogIndex == 0 ==> a.prevLogTerm == 0)
    requires !HandleAppend(AsWritten, f, a).1.success
    ensures var (f', r) := HandleAppend(AsWritten, f, a);
            && f' == Follow(f, a.term) && r == Rejection(f', r.updateNextIndex) && f'.term == a.term
            && 1 <= r.updateNextIndex <= a.prevLogIndex
  {
    hide Merge, BackOff, Matching;
    var n := Follow(f, a.term);
    if 1 <= a.prevLogIndex <= |f.logs| { BackOffBounds(n, a.prevLogIndex); }
  }

  /** A failed exchange changes nothing but nextIndex, which goes down and stays positive. */
  lemma RejectedExchange(l: Node, f: Node, p: nat, num: int)
    requires Pair(l, f, p) && SendsEntries(l, p) && !OneExchange(l, f, p, num).0
    ensures var (_, l', f') := OneExchange(l, f, p, num);
            && Pair(l', f', p) && l' == l.(nextIndex := l'.nextIndex) && f'.logs == f.logs
            && 1 <= l'.nextIndex[p] < l.nextIndex[p]
  {
    RequestShape(l, f, p);
    var a := MakeAppendArgs(l, p);
    RejectedRequest(f, a);
    hide HandleAppend, Matching, MakeAppendArgs, SendsEntries;
  }

  /** After a successful exchange the follower's log is the leader's, followed by what it had beyond it. */
  lemma SuccessfulExchange(l: Node, f: Node, p: nat, num: int)
    requires Pair(l, f, p) && SendsEntries(l, p) && OneExchange(l, f, p, num).0
    ensures var (_, l', f') := OneExchange(l, f, p, num);
            && l'.logs == l.logs && l'.status == Leader && l'.term == l.term
            && f'.logs == l.logs + TailBeyond(f.logs, |l.logs|, [])
            && l'.matchIndex[p] == |l.logs| && l'.nextIndex[p] == |l.logs| + 1
            && f'.commitIndex == Max(f.commitIndex, l.commitIndex)
  {
    hide HandleAppend, MakeAppendArgs, Merge, Clash, SendsEntries;
    RequestShape(l, f, p);
    var a := MakeAppendArgs(l, p);
    AcceptedRequest(f, a);
    MergedWithLeader(f, l, a);
    hide Matching;
  }

  /** A whole suffix after a matching entry merges to the leader's log and the tail beyond it. */
  lemma MergedWithLeader(f: Node, l: Node, a: AppendArgs)
    requires Sound(f) && Sound(l) && Matching(f.logs, l.logs)
    requires 0 <= a.prevLogIndex <= |f.logs| && a.prevLogIndex <= |l.logs| && a.entries == l.logs[a.prevLogIndex..]
    requires TermIn(f.logs, a.prevLogIndex) == TermIn(l.logs, a.prevLogIndex)
    ensures Merge(AsWritten, f.logs, a.prevLogIndex, a.entries) == l.logs + TailBeyond(f.logs, |l.logs|, [])
  {
    var at := a.prevLogIndex;
    assert f.logs[..at] == l.logs[..at];
    MatchingNeverClashes(f.logs, l.logs, at);
    MergeAsWritten(f.logs, 0, at, a.entries);
    assert l.logs[..at] + a.entries == l.logs;
  }

  lemma AcceptedRequest(f: Node, a: AppendArgs)
    requires Sound(f) && f.term <= a.term && 0 <= a.prevLogIndex && HandleAppend(AsWritten, f, a).1.success
    ensures a.prevLogIndex <= |f.logs| && TermIn(f.logs, a.prevLogIndex) == a.prevLogTerm
    ensures var (f', r) := HandleAppend(AsWritten, f, a);
            && f'.logs == Merge(AsWritten, f.logs, a.prevLogIndex, a.entries)
            && r == AppendReply(a.term, true, 0, AppNormal)
            && f'.commitIndex == (if a.leaderCommit <= f.commitIndex then f.commitIndex
                                  else if a.leaderCommit <= |f'.logs| then a.leaderCommit else |f'.logs|)
  {
    hide Merge, BackOff;
  }

  /** The exchanges of successive rounds until one succeeds: how many failed, and both servers at the end. The
      counters of the rounds are whatever the other followers made them. */
  ghost function CatchUp(l: Node, f: Node, p: nat, nums: nat -> int): (r: (nat, Node, Node))
    requires Pair(l, f, p)
    ensures r.0 < l.nextIndex[p]
    decreases l.nextIndex[p]
  {
    RequestShape(l, f, p);
    var (ok, l', f') := OneExchange(l, f, p, nums(0));
    if ok then (0, l', f')
    else
      RejectedExchange(l, f, p, nums(0));
      var (k, l'', f'') := CatchUp(l', f', p, (i: nat) => nums(i + 1));
      (k + 1, l'', f'')
  }

  /** Catching up takes fewer failures than nextIndex was, leaves the leader's log alone, and ends with the
      follower holding it at every index up to the leader's last. */
  lemma {:induction false} FollowerCatchesUp(l: Node, f: Node, p: nat, nums: nat -> int)
    requires Pair(l, f, p)
    ensures var (k, l', f') := CatchUp(l, f, p, nums);
            && k < l.nextIndex[p] && l'.logs == l.logs && l'.status == Leader && l'.term == l.term
            && |f'.logs| >= |l.logs| && f'.logs[..|l.logs|] == l.logs
            && p < |l'.matchIndex| && l'.matchIndex[p] == |l.logs| && f'.commitIndex >= l.commitIndex
    decreases l.nextIndex[p]
  {
    RequestShape(l, f, p);
    if OneExchange(l, f, p, nums(0)).0 {
      SuccessfulExchange(l, f, p, nums(0));
    } else {
      RejectedExchange(l, f, p, nums(0));
      var (_, l', f') := OneExchange(l, f, p, nums(0));
      FollowerCatchesUp(l', f', p, (i: nat) => nums(i + 1));
    }
    hide OneExchange, Matching;
  }

  // ---------- in a run, with everything else going on ----------

  /** What an rpc may become in a step: a request is answered, an answer consumed, and neither is altered. */
  ghost predicate RpcMoves(r: AppendRpc, r': AppendRpc) {
    match r
    case AppendSent(a) => r' == r || (r'.AppendAnswered? && r'.args == a)
    case AppendAnswered(_, _) => r' == r || r'.AppendDone?
    case AppendDone(_) => r' == r
  }

  lemma StepMovesRpcs(c: Config, w: World, e: Event, id: AppendId)
    requires ReplicationInv(c, w) && Enabled(c, w, e) && id in w.appendRpcs
    ensures var w' := Step(c, w, e); id in w'.appendRpcs && RpcMoves(w.appendRpcs[id], w'.appendRpcs[id])
  {
    hide ElectionInv, NodeLogsOk, TermLogsOk, LeaderLogsOk, AcceptedOk, RoundsOk, HandleAppend, HandleAppendReply,
      HandleVote, HandleVoteReply, MakeAppendArgs, SendsEntries;
    assert AppendRpcOk(w, id);
    hide AppendRpcsOk;
  }

  /** A request still unanswered later is the request sent; an answer not yet consumed is the answer given. */
  lemma {:induction false} RpcKeeps(c: Config, run: seq<World>, i: nat, j: nat, id: AppendId)
    requires IsRun(c, run) && i <= j < |run| && !c.compaction && id in run[i].appendRpcs
    ensures id in run[j].appendRpcs
    ensures var before, after := run[i].appendRpcs[id], run[j].appendRpcs[id];
            && (before.AppendSent? && after.AppendSent? ==> after == before)
            && (!before.AppendSent? && after.AppendAnswered? ==> after == before)
            && (!before.AppendSent? ==> !after.AppendSent?)
    decreases j
  {
    hide Enabled, Step, ReplicationInv;
    if i < j {
      RpcKeeps(c, run, i, j - 1, id);
      RunReplication(c, run, j - 1);
      var e := RunStep(c, run, j - 1);
      StepMovesRpcs(c, run[j - 1], e, id);
    }
  }

  /** The steps at which a leader sends a follower a request, the follower handles it and the leader consumes
      the reply. */
  datatype Exchange = Exchange(sent: nat, delivered: nat, returned: nat, id: AppendId)

  ghost predicate Takes(c: Config, w: World, e: Event, w': World) { Enabled(c, w, e) && w' == Step(c, w, e) }

  /** The exchange happens in the run between leader l of this term and follower f, who is not in a later term
      when it handles the request, and no other reply changes what l would send f next before this one is
      consumed. Anything else may happen in between. */
  ghost predicate IsExchange(c: Config, run: seq<World>, l: nat, f: nat, term: int, x: Exchange) {
    && x.sent < x.delivered < x.returned < |run| - 1 && x.id.to == f && l != f && f < c.peers
    && Takes(c, run[x.sent], Heartbeat(l), run[x.sent + 1])
    && x.id.round == |run[x.sent].rounds|
    && Takes(c, run[x.delivered], DeliverAppend(x.id), run[x.delivered + 1])
    && Takes(c, run[x.returned], ReturnAppend(x.id), run[x.returned + 1])
    && Leading(run[x.sent], l, term) && Leading(run[x.returned], l, term)
    && f < |run[x.delivered].nodes| && run[x.delivered].nodes[f].term <= term
    && f < |run[x.sent].nodes[l].nextIndex| && f < |run[x.returned].nodes[l].nextIndex|
    && run[x.returned].nodes[l].nextIndex[f] == run[x.sent].nodes[l].nextIndex[f]
  }

  ghost predicate Leading(w: World, l: nat, term: int) {
    l < |w.nodes| && w.nodes[l].status == Leader && w.nodes[l].term == term
  }

  ghost predicate Succeeds(run: seq<World>, x: Exchange) {
    && x.delivered + 1 < |run| && x.id in run[x.delivered + 1].appendRpcs
    && run[x.delivered + 1].appendRpcs[x.id].AppendAnswered? && run[x.delivered + 1].appendRpcs[x.id].reply.success
  }

  lemma StepMovesRounds(c: Config, w: World, e: Event, r: nat)
    requires Enabled(c, w, e) && r < |w.rounds|
    ensures var w' := Step(c, w, e); r < |w'.rounds| && SameRound(w.rounds[r], w'.rounds[r])
  {
    hide HandleAppend, HandleAppendReply, HandleVote, HandleVoteReply, MakeAppendArgs, SendsEntries, MakeVoteArgs,
      BallotHolders, VoteWins, VoteCounts, Start, BecomeCandidate, HandleSnapshotReply, InstallSnapshot, Snapshot,
      ApplyLogs, Acks, Crosses;
  }

  lemma {:induction false} RoundKeeps(c: Config, run: seq<World>, i: nat, j: nat, r: nat)
    requires IsRun(c, run) && i <= j < |run| && r < |run[i].rounds|
    ensures r < |run[j].rounds| && SameRound(run[i].rounds[r], run[j].rounds[r])
    decreases j
  {
    hide Enabled, Step;
    if i < j {
      RoundKeeps(c, run, i, j - 1, r);
      var e := RunStep(c, run, j - 1);
      StepMovesRounds(c, run[j - 1], e, r);
    }
  }

  /** The request a heartbeat sends a peer. */
  lemma HeartbeatSends(c: Config, w: World, l: nat, f: nat)
    requires ReplicationInv(c, w) && CanHeartbeat(w, l) && f < c.peers && f != l
    ensures SendsEntries(w.nodes[l], f) && Sound(w.nodes[l])
    ensures var w', id := DoHeartbeat(w, l), AppendId(|w.rounds|, f);
            && id in w'.appendRpcs && w'.appendRpcs[id] == AppendSent(MakeAppendArgs(w.nodes[l], f))
            && |w'.rounds| == |w.rounds| + 1 && w'.rounds[|w.rounds|].leader == l
  {
    hide ReplicationInv, ElectionInv, MakeAppendArgs, LogOk;
    ElectionOf(c, w);
    ShapeOf(c, w, l);
    LeaderNextIndices(c, w, l);
    NodeIsSound(c, w, l);
  }

  /** The request, its arrival at the follower and the return of the answer. */
  ghost predicate Carries(run: seq<World>, l: nat, f: nat, x: Exchange, a: AppendArgs) {
    && x.delivered < x.returned < |run| - 1
    && var d, d', r := run[x.delivered], run[x.delivered + 1], run[x.returned];
       && f < |d.nodes| && f < |d'.nodes| && Sound(d.nodes[f]) && !AppendCrashes(d.nodes[f], a)
       && var (n, reply) := HandleAppend(AsWritten, d.nodes[f], a);
          && d'.nodes[f] == n && (Succeeds(run, x) <==> reply.success)
          && x.id in r.appendRpcs && r.appendRpcs[x.id] == AppendAnswered(a, reply)
          && x.id.round < |r.rounds| && r.rounds[x.id.round].leader == l
  }

  /** The same request is delivered, and the answer to it consumed, by the leader that sent it. */
  lemma ExchangeRequest(c: Config, run: seq<World>, l: nat, f: nat, term: int, x: Exchange) returns (a: AppendArgs)
    requires IsRun(c, run) && !c.compaction && c.receiver == AsWritten && IsExchange(c, run, l, f, term, x)
    ensures var sent := run[x.sent].nodes[l]; SendsEntries(sent, f) && Sound(sent) && a == MakeAppendArgs(sent, f)
    ensures Carries(run, l, f, x, a)
  {
    hide IsRun, ReplicationInv, MakeAppendArgs, HandleAppend, AppendCrashes, Sound, DoHeartbeat, DoDeliverAppend;
    RunReplication(c, run, x.sent);
    RunReplication(c, run, x.delivered);
    HeartbeatSends(c, run[x.sent], l, f);
    a := MakeAppendArgs(run[x.sent].nodes[l], f);
    RpcKeeps(c, run, x.sent + 1, x.delivered, x.id);
    RoundKeeps(c, run, x.sent + 1, x.returned, x.id.round);
    DeliveredAnswer(c, run[x.delivered], x.id);
    RpcKeeps(c, run, x.delivered + 1, x.returned, x.id);
    NodeIsSound(c, run[x.delivered], f);
  }

  lemma NodeIsSound(c: Config, w: World, n: nat)
    requires ReplicationInv(c, w) && n < |w.nodes|
    ensures Sound(w.nodes[n])
  {
    hide ElectionInv, TermLogsOk, LeaderLogsOk, AcceptedOk, RoundsOk, AppendRpcsOk;
  }

  lemma DeliveredAnswer(c: Config, w: World, id: AppendId)
    requires CanDeliverAppend(w, id)
    ensures var w', a := DoDeliverAppend(c, w, id), w.appendRpcs[id].args;
            && id in w'.appendRpcs
                 && w'.appendRpcs[id] == AppendAnswered(a, HandleAppend(c.receiver, w.nodes[id.to], a).1)
            && |w'.nodes| == |w.nodes| && w'.nodes[id.to] == HandleAppend(c.receiver, w.nodes[id.to], a).0
  {
    hide HandleAppend;
  }

  /** In a run, a failed exchange leaves the follower's log alone and lowers what is sent next, which stays at
      least 1. After a successful one the follower holds everything the leader held when it sent the request, if
      it matched that on arrival, and the leader knows. */
  lemma ExchangeOutcome(c: Config, run: seq<World>, l: nat, f: nat, term: int, x: Exchange)
    requires IsRun(c, run) && !c.compaction && c.receiver == AsWritten && IsExchange(c, run, l, f, term, x)
    requires Matching(run[x.delivered].nodes[f].logs, run[x.sent].nodes[l].logs)
    ensures Leading(run[x.returned + 1], l, term) && f < |run[x.returned + 1].nodes[l].nextIndex|
    ensures f < |run[x.returned + 1].nodes[l].matchIndex| && f < |run[x.delivered + 1].nodes|
    ensures var sent, after := run[x.sent].nodes[l], run[x.returned + 1].nodes[l];
            var f0, f1 := run[x.delivered].nodes[f], run[x.delivered + 1].nodes[f];
            if Succeeds(run, x) then
              f1.logs == sent.logs + TailBeyond(f0.logs, |sent.logs|, []) && after.matchIndex[f] >= |sent.logs|
            else
              f1.logs == f0.logs && 1 <= after.nextIndex[f] < sent.nextIndex[f]
  {
    hide IsRun, ReplicationInv, MakeAppendArgs, HandleAppend, AppendCrashes, Matching, Sound, Succeeds, Merge, TailBeyond, HandleAppendReply, LogOk;
    var a := ExchangeRequest(c, run, l, f, term, x);
    var sent, f0 := run[x.sent].nodes[l], run[x.delivered].nodes[f];
    SentShape(sent, f);
    if Succeeds(run, x) {
      AcceptedRequest(f0, a);
      MergedWithLeader(f0, sent, a);
    } else {
      RejectedRequest(f0, a);
    }
    ReplyOutcome(run[x.returned].nodes[l], f, a, HandleAppend(AsWritten, f0, a).1,
                 run[x.returned].rounds[x.id.round].appendNums);
  }

  lemma SentShape(l: Node, p: nat)
    requires Sound(l) && SendsEntries(l, p)
    ensures var a := MakeAppendArgs(l, p);
            && a.term == l.term && 0 <= a.prevLogIndex == l.nextIndex[p] - 1 <= |l.logs|
                 && a.entries == l.logs[a.prevLogIndex..]
            && a.prevLogTerm == TermIn(l.logs, a.prevLogIndex) && EndOf(a) == |l.logs|
  {}

  lemma ReplyOutcome(n: Node, p: nat, a: AppendArgs, r: AppendReply, num: int)
    requires p < |n.nextIndex| && p < |n.matchIndex| && AppendReplyCounts(n, r)
    ensures var n' := HandleAppendReply(n, p, a, r, num).0;
            && n'.status == Leader && n'.term == n.term && |n'.nextIndex| == |n.nextIndex|
                 && |n'.matchIndex| == |n.matchIndex|
            && (r.success ==> n'.matchIndex[p] >= EndOf(a))
            && (!r.success && r.updateNextIndex != KEEP_NEXT_INDEX ==> n'.nextIndex[p] == r.updateNextIndex)
  {}

  /** A sequence of exchanges between the two, with no other reply of the follower consumed from the first to the
      last, each of whose requests arrives at a log that matches the one it was cut from. */
  ghost predicate AreExchanges(c: Config, run: seq<World>, l: nat, f: nat, term: int, xs: seq<Exchange>) {
    && (forall m :: 0 <= m < |xs| ==>
          IsExchange(c, run, l, f, term, xs[m])
            && Matching(run[xs[m].delivered].nodes[f].logs, run[xs[m].sent].nodes[l].logs))
    && (forall m :: 0 <= m < |xs| - 1 ==> Continues(run, l, f, xs[m], xs[m + 1]))
  }

  ghost predicate Continues(run: seq<World>, l: nat, f: nat, x: Exchange, y: Exchange) {
    && x.returned < y.sent < |run| && x.returned + 1 < |run|
    && l < |run[x.returned + 1].nodes| && f < |run[x.returned + 1].nodes[l].nextIndex|
    && l < |run[y.sent].nodes| && f < |run[y.sent].nodes[l].nextIndex|
    && run[y.sent].nodes[l].nextIndex[f] == run[x.returned + 1].nodes[l].nextIndex[f]
  }

  /** While none has succeeded, every exchange has lowered what is sent next by one at least. */
  lemma {:induction false} FailuresLower(c: Config, run: seq<World>, l: nat, f: nat, term: int, xs: seq<Exchange>,
                                         m: nat)
    requires IsRun(c, run) && !c.compaction && c.receiver == AsWritten && AreExchanges(c, run, l, f, term, xs)
        && m < |xs|
    requires forall k :: 0 <= k <= m ==> !Succeeds(run, xs[k])
    ensures IsExchange(c, run, l, f, term, xs[0]) && IsExchange(c, run, l, f, term, xs[m])
    ensures l < |run[xs[m].returned + 1].nodes| && f < |run[xs[m].returned + 1].nodes[l].nextIndex|
    ensures 1 <= run[xs[m].returned + 1].nodes[l].nextIndex[f] < run[xs[0].sent].nodes[l].nextIndex[f] - m
  {
    hide IsRun, IsExchange, Succeeds, Matching;
    assert IsExchange(c, run, l, f, term, xs[m]);
    ExchangeOutcome(c, run, l, f, term, xs[m]);
    if m > 0 {
      FailuresLower(c, run, l, f, term, xs, m - 1);
      assert Continues(run, l, f, xs[m - 1], xs[m]);
    }
  }

  /** In any run of the code as written without compaction, as many exchanges as nextIndex was at their beginning
      are enough: one of them succeeds, and then the follower equals the leader at every index up to the
      leader's last. Meanwhile clients, the other followers and everybody else may do what they like. */
  lemma RunCatchesUp(c: Config, run: seq<World>, l: nat, f: nat, term: int, xs: seq<Exchange>) returns (m: nat)
    requires IsRun(c, run) && !c.compaction && c.receiver == AsWritten && AreExchanges(c, run, l, f, term, xs)
    requires xs != [] && IsExchange(c, run, l, f, term, xs[0]) && |xs| >= run[xs[0].sent].nodes[l].nextIndex[f]
    ensures m < |xs| && IsExchange(c, run, l, f, term, xs[m]) && Succeeds(run, xs[m])
    ensures f < |run[xs[m].delivered + 1].nodes|
        && run[xs[m].sent].nodes[l].logs <= run[xs[m].delivered + 1].nodes[f].logs
    ensures Leading(run[xs[m].returned + 1], l, term) && f < |run[xs[m].returned + 1].nodes[l].matchIndex|
    ensures run[xs[m].returned + 1].nodes[l].matchIndex[f] >= |run[xs[m].sent].nodes[l].logs|
  {
    hide IsRun, IsExchange, Succeeds, Matching, Continues;
    if forall k :: 0 <= k < |xs| ==> !Succeeds(run, xs[k]) {
      FailuresLower(c, run, l, f, term, xs, |xs| - 1);
    }
    m :| m < |xs| && Succeeds(run, xs[m]);
    ExchangeOutcome(c, run, l, f, term, xs[m]);
  }
}
