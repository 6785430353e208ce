/** Replication without compaction, for either append rule: what a leader's log, the requests in flight, the
    acknowledgements and the round counters have to do with each other; and that counting acknowledgements of
    one heartbeat round is as good as the counting rule over matchIndex. */
module RaftReplication {
  import opened RaftTypes
  import opened RaftNode
  import opened RaftWorld
  import opened RaftElection
  import opened RaftRounds
  import opened Quorums

  // ---------- invariants ----------

  ghost predicate EntryTerms(logs: seq<LogEntry>, term: int) {
    forall i :: 0 <= i < |logs| ==> 1 <= logs[i].logTerm <= term
  }

  ghost predicate LogOk(logs: seq<LogEntry>, term: int) { Contiguous(logs, 0) && EntryTerms(logs, term) }

  ghost predicate NodeLogsOk(w: World) {
    forall n :: 0 <= n < |w.nodes| ==>
      LogOk(w.nodes[n].logs, w.nodes[n].term) && w.nodes[n].snapIndex == 0 && w.nodes[n].snapTerm == 0
  }

  /** The log the leader of each term has, or had when it last led. */
  ghost predicate TermLogsOk(w: World) {
    w.termLogs.Keys == w.leaders.Keys && forall t :: t in w.termLogs ==> LogOk(w.termLogs[t], t)
  }

  ghost predicate LeaderLogOk(w: World, n: nat)
    requires n < |w.nodes|
  {
    var leader := w.nodes[n];
    leader.status == Leader ==>
      && leader.term in w.termLogs && w.termLogs[leader.term] == leader.logs
      && Accepted(w, n, leader.term) == |leader.logs|
      && (forall p :: 0 <= p < |leader.nextIndex| ==> 1 <= leader.nextIndex[p] <= |leader.logs| + 1)
      && (forall p :: 0 <= p < |leader.matchIndex| ==> 0 <= leader.matchIndex[p] <= |leader.logs|)
  }

  ghost predicate LeaderLogsOk(w: World) { forall n :: 0 <= n < |w.nodes| ==> LeaderLogOk(w, n) }

  ghost predicate AcceptedOk(w: World) {
    forall n: nat, t: int :: (n, t) in w.accepted ==>
      && n < |w.nodes| && t in w.termLogs && t <= w.nodes[n].term
      && 0 <= w.accepted[(n, t)] <= |w.termLogs[t]|
  }

  /** A round was opened by the leader of its term and ends inside its log. */
  ghost predicate RoundOk(w: World, r: nat)
    requires r < |w.rounds|
  {
    var round := w.rounds[r];
    && round.leader < |w.nodes| && Leads(w, round.leader, round.term)
    && round.term in w.termLogs && 0 <= round.end <= |w.termLogs[round.term]|
  }

  ghost predicate RoundsOk(w: World) { forall r :: 0 <= r < |w.rounds| ==> RoundOk(w, r) }

  /** The term of the entry at a 1-based index, 0 at index 0. */
  function TermIn(logs: seq<LogEntry>, index: int): int
    requires 0 <= index <= |logs|
  {
    if index == 0 then 0 else logs[index - 1].logTerm
  }

  /** The request carries the slice of this log from its prevLogIndex to `end`. */
  ghost predicate CarriesSlice(logs: seq<LogEntry>, end: int, a: AppendArgs) {
    && 0 <= a.prevLogIndex <= end <= |logs| && EndOf(a) == end
    && a.entries == logs[a.prevLogIndex..end]
    && a.prevLogTerm == TermIn(logs, a.prevLogIndex)
  }

  ghost predicate ArgsOk(w: World, round: Round, a: AppendArgs) {
    && a.term == round.term && a.term in w.termLogs && CarriesSlice(w.termLogs[a.term], round.end, a)
  }

  ghost predicate ReplyOk(w: World, to: nat, a: AppendArgs, r: AppendReply) {
    if r.success then r.term == a.term && Accepted(w, to, a.term) >= EndOf(a)
    else if r.updateNextIndex == KEEP_NEXT_INDEX then true
    else r.term == a.term && 1 <= r.updateNextIndex <= a.prevLogIndex
  }

  ghost predicate AckOk(w: World, id: AppendId, round: Round)
    requires round.leader < |w.nodes|
  {
    var leader := w.nodes[round.leader];
    && Accepted(w, id.to, round.term) >= round.end
    && (leader.status == Leader && leader.term == round.term && id.to < |leader.matchIndex| ==>
          leader.matchIndex[id.to] >= round.end)
  }

  ghost predicate AppendRpcOk(w: World, id: AppendId)
    requires id in w.appendRpcs
  {
    && RpcPlaced(w, id)
    && match w.appendRpcs[id]
       case AppendSent(args) => ArgsOk(w, w.rounds[id.round], args)
       case AppendAnswered(args, reply) => ArgsOk(w, w.rounds[id.round], args) && ReplyOk(w, id.to, args, reply)
       case AppendDone(acked) => acked ==> AckOk(w, id, w.rounds[id.round])
  }

  ghost predicate AppendRpcsOk(w: World) { forall id :: id in w.appendRpcs ==> AppendRpcOk(w, id) }

  ghost predicate ReplicationInv(c: Config, w: World) {
    && !c.compaction && ElectionInv(c, w) && RoundInv(w)
    && NodeLogsOk(w) && TermLogsOk(w) && LeaderLogsOk(w) && AcceptedOk(w) && RoundsOk(w) && AppendRpcsOk(w)
  }

  // ---------- what only grows ----------

  type TermLogs = map<int, seq<LogEntry>>

  ghost predicate TermLogsIncrease(tl: TermLogs, tl': TermLogs) {
    forall t :: t in tl ==> t in tl' && tl[t] <= tl'[t]
  }

  ghost predicate AcceptedGrows(w: World, w': World) {
    forall n: nat, t: int :: Accepted(w, n, t) <= Accepted(w', n, t)
  }

  lemma SliceKept(logs: seq<LogEntry>, logs': seq<LogEntry>, end: int, a: AppendArgs)
    requires logs <= logs' && CarriesSlice(logs, end, a)
    ensures CarriesSlice(logs', end, a)
  {}

  lemma ArgsKept(w: World, w': World, round: Round, a: AppendArgs)
    requires TermLogsIncrease(w.termLogs, w'.termLogs) && ArgsOk(w, round, a)
    ensures ArgsOk(w', round, a)
  {
    SliceKept(w.termLogs[a.term], w'.termLogs[a.term], round.end, a);
  }

  /** A leader's book of matched indices does not fall back while it leads a term that already had a log. */
  ghost predicate BooksKept(w: World, w': World) {
    |w'.nodes| == |w.nodes| &&
    forall n :: 0 <= n < |w.nodes| && w'.nodes[n].status == Leader && w'.nodes[n].term in w.termLogs ==>
      var n0, n1 := w.nodes[n], w'.nodes[n];
      n0.status == Leader && n0.term == n1.term && |n0.matchIndex| == |n1.matchIndex|
      && forall p :: 0 <= p < |n0.matchIndex| ==> n0.matchIndex[p] <= n1.matchIndex[p]
  }

  /** A request stays in order while logs and acknowledgements grow. */
  lemma RpcKept(w: World, w': World, id: AppendId)
    requires id in w.appendRpcs && AppendRpcOk(w, id) && id in w'.appendRpcs && w'.appendRpcs[id] == w.appendRpcs[id]
    requires TermLogsIncrease(w.termLogs, w'.termLogs) && AcceptedGrows(w, w') && BooksKept(w, w')
    requires id.round < |w'.rounds| && SameRound(w.rounds[id.round], w'.rounds[id.round])
    requires w.rounds[id.round].term in w.termLogs
    ensures AppendRpcOk(w', id)
  {
    match w.appendRpcs[id]
    case AppendSent(args) => ArgsKept(w, w', w.rounds[id.round], args);
    case AppendAnswered(args, reply) => ArgsKept(w, w', w.rounds[id.round], args);
    case AppendDone(acked) => if acked { AckKept(w, w', id, w.rounds[id.round]); }
  }

  lemma AckKept(w: World, w': World, id: AppendId, round: Round)
    requires AcceptedGrows(w, w') && BooksKept(w, w') && round.leader < |w.nodes| && AckOk(w, id, round)
    requires round.term in w.termLogs
    ensures AckOk(w', id, round)
  {
    assert Accepted(w, id.to, round.term) <= Accepted(w', id.to, round.term);
  }

  lemma RpcsKept(w: World, w': World)
    requires AppendRpcsOk(w) && RoundsOk(w) && w'.appendRpcs == w.appendRpcs && w'.rounds == w.rounds
    requires TermLogsIncrease(w.termLogs, w'.termLogs) && AcceptedGrows(w, w') && BooksKept(w, w')
    ensures AppendRpcsOk(w')
  {
    hide TermLogsIncrease, AcceptedGrows, BooksKept;
    forall id | id in w'.appendRpcs ensures AppendRpcOk(w', id) {
      assert AppendRpcOk(w, id);
      assert RoundOk(w, id.round);
      RpcKept(w, w', id);
    }
  }

  lemma RoundsKept(w: World, w': World)
    requires RoundsOk(w) && w'.appendRpcs == w.appendRpcs && w'.rounds == w.rounds && |w'.nodes| == |w.nodes|
    requires TermLogsIncrease(w.termLogs, w'.termLogs) && LeadersGrow(w, w')
    ensures RoundsOk(w')
  {
    forall r: nat | r < |w'.rounds| ensures RoundOk(w', r) { assert RoundOk(w, r); }
  }

  // ---------- steps that leave logs and leaders' books alone ----------

  ghost predicate Calm(n: Node, n': Node) {
    && n'.logs == n.logs && n'.snapIndex == n.snapIndex && n'.snapTerm == n.snapTerm && n.term <= n'.term
    && (n'.status == Leader ==>
          n.status == Leader && n'.term == n.term && n'.nextIndex == n.nextIndex && n'.matchIndex == n.matchIndex)
  }

  ghost predicate CalmAt(w: World, w': World, i: nat) {
    && i < |w.nodes| == |w'.nodes| && w'.nodes == w.nodes[i := w'.nodes[i]] && Calm(w.nodes[i], w'.nodes[i])
    && w'.appendRpcs == w.appendRpcs && w'.rounds == w.rounds && w'.leaders == w.leaders
    && w'.termLogs == w.termLogs && w'.accepted == w.accepted
  }

  lemma CalmKeeps(c: Config, w: World, w': World, i: nat)
    requires ReplicationInv(c, w) && CalmAt(w, w', i) && ElectionInv(c, w') && RoundInv(w')
    ensures ReplicationInv(c, w')
  {
    hide ElectionInv, RoundsOk, AppendRpcsOk;
    forall n: nat | n < |w'.nodes| ensures LeaderLogOk(w', n) { assert LeaderLogOk(w, n); }
    RoundsKept(w, w');
    RpcsKept(w, w');
  }

  // ---------- winning a term ----------

  ghost predicate Won(w: World, w': World, n: nat) {
    && n < |w.nodes| == |w'.nodes|
    && var t := w.nodes[n].term;
       && w'.nodes == w.nodes[n := w'.nodes[n]] && w'.nodes[n] == BecomeLeader(w.nodes[n])
       && t !in w.leaders && w'.leaders == w.leaders[t := n] && w'.termLogs == w.termLogs[t := w.nodes[n].logs]
       && w'.accepted == w.accepted[(n, t) := |w.nodes[n].logs|]
       && w'.appendRpcs == w.appendRpcs && w'.rounds == w.rounds
  }

  /** The bound on accepted indices reads Accepted alone. */
  lemma AcceptedBound(w: World, n: nat, t: int)
    requires AcceptedOk(w)
    ensures Accepted(w, n, t) != 0 ==> n < |w.nodes| && t in w.termLogs && t <= w.nodes[n].term
    ensures 0 <= Accepted(w, n, t) && (t in w.termLogs ==> Accepted(w, n, t) <= |w.termLogs[t]|)
  {
    if (n, t) in w.accepted {}
  }

  lemma WonLogs(c: Config, w: World, w': World, n: nat)
    requires ReplicationInv(c, w) && Won(w, w', n) && w.nodes[n].term >= 1
    ensures NodeLogsOk(w') && TermLogsOk(w') && LeaderLogsOk(w') && AcceptedOk(w')
    ensures TermLogsIncrease(w.termLogs, w'.termLogs) && AcceptedGrows(w, w')
  {
    hide ElectionInv, RoundsOk, AppendRpcsOk;
    AcceptedBound(w, n, w.nodes[n].term);
    forall m: nat | m < |w'.nodes| ensures LeaderLogOk(w', m) { assert LeaderLogOk(w, m); }
  }

  lemma WonBooks(c: Config, w: World, w': World, n: nat)
    requires ReplicationInv(c, w) && Won(w, w', n)
    ensures BooksKept(w, w') && LeadersGrow(w, w')
  {
    hide ElectionInv, RoundsOk, AppendRpcsOk, LeaderLogsOk, NodeLogsOk, AcceptedOk;
  }

  lemma WonKeeps(c: Config, w: World, w': World, n: nat)
    requires ReplicationInv(c, w) && Won(w, w', n) && w.nodes[n].term >= 1 && ElectionInv(c, w') && RoundInv(w')
    ensures ReplicationInv(c, w')
  {
    WonLogs(c, w, w', n);
    WonBooks(c, w, w', n);
    hide ElectionInv, NodeLogsOk, LeaderLogsOk, AcceptedOk, RoundsOk, AppendRpcsOk, TermLogsOk, BooksKept, LeadersGrow,
      TermLogsIncrease, AcceptedGrows;
    RoundsKept(w, w');
    RpcsKept(w, w');
  }

  // ---------- a client command ----------

  ghost predicate Appended(w: World, w': World, n: nat) {
    && n < |w.nodes| == |w'.nodes| && w.nodes[n].status == Leader
    && w'.nodes == w.nodes[n := w'.nodes[n]]
    && (var n0, n1 := w.nodes[n], w'.nodes[n];
        && |n1.logs| == |n0.logs| + 1 && n0.logs <= n1.logs
        && n1.logs[|n0.logs|].logTerm == n0.term && n1.logs[|n0.logs|].logIndex == |n0.logs| + 1
        && n1 == n0.(logs := n1.logs)
        && w'.termLogs == w.termLogs[n0.term := n1.logs]
        && w'.accepted == w.accepted[(n, n0.term) := |n1.logs|])
    && w'.appendRpcs == w.appendRpcs && w'.rounds == w.rounds && w'.leaders == w.leaders
  }

  lemma OtherLeadersDiffer(c: Config, w: World, n: nat, m: nat)
    requires ElectionInv(c, w) && n < |w.nodes| && m < |w.nodes| && m != n
    requires w.nodes[n].status == Leader && w.nodes[m].status == Leader
    ensures w.nodes[m].term != w.nodes[n].term
  {
    LeaderLeads(c, w, n);
    LeaderLeads(c, w, m);
  }

  lemma AppendedLogs(c: Config, w: World, w': World, n: nat)
    requires ReplicationInv(c, w) && Appended(w, w', n) && w.nodes[n].term >= 1
    ensures NodeLogsOk(w') && TermLogsOk(w') && TermLogsIncrease(w.termLogs, w'.termLogs)
  {
    hide ElectionInv, RoundInv, RoundsOk, AppendRpcsOk, AcceptedOk;
    assert LeaderLogOk(w, n);
    LeaderLeads(c, w, n);
    hide LeaderLogsOk, LeaderLogOk;
    LogExtended(w.nodes[n].logs, w'.nodes[n].logs, w.nodes[n].term);
    hide LogOk, Contiguous, EntryTerms;
  }

  lemma LogExtended(logs: seq<LogEntry>, logs': seq<LogEntry>, term: int)
    requires LogOk(logs, term) && term >= 1 && logs <= logs' && |logs'| == |logs| + 1
    requires logs'[|logs|].logTerm == term && logs'[|logs|].logIndex == |logs| + 1
    ensures LogOk(logs', term)
  {}

  lemma AppendedAccepts(c: Config, w: World, w': World, n: nat)
    requires ReplicationInv(c, w) && Appended(w, w', n) && TermLogsIncrease(w.termLogs, w'.termLogs)
    ensures AcceptedGrows(w, w') && AcceptedOk(w')
  {
    hide ElectionInv, RoundInv, RoundsOk, AppendRpcsOk, NodeLogsOk, TermLogsOk, Leads, LogOk, TermLogsIncrease,
      AcceptedOk;
    assert LeaderLogOk(w, n);
    hide LeaderLogsOk;
    AppendedBook(w, w', n);
  }

  lemma AppendedBook(w: World, w': World, n: nat)
    requires AcceptedOk(w) && Appended(w, w', n) && LeaderLogOk(w, n) && TermLogsIncrease(w.termLogs, w'.termLogs)
    ensures AcceptedGrows(w, w') && AcceptedOk(w')
  {
    hide LogOk;
    assert forall m: nat, t: int :: (m, t) != (n, w.nodes[n].term) ==> Accepted(w', m, t) == Accepted(w, m, t);
    assert Accepted(w', n, w.nodes[n].term) == |w.nodes[n].logs| + 1 == |w'.termLogs[w.nodes[n].term]|;
    hide LeaderLogOk;
  }

  lemma AppendedLeaders(c: Config, w: World, w': World, n: nat)
    requires ReplicationInv(c, w) && Appended(w, w', n)
    ensures LeaderLogsOk(w')
  {
    hide RoundsOk, AppendRpcsOk, AcceptedOk, ElectionInv, TermLogsOk, NodeLogsOk;
    forall m: nat | m < |w'.nodes| ensures LeaderLogOk(w', m) {
      assert LeaderLogOk(w, m);
      if m != n && w.nodes[m].status == Leader { OtherLeadersDiffer(c, w, n, m); }
    }
  }

  lemma AppendedKeeps(c: Config, w: World, w': World, n: nat)
    requires ReplicationInv(c, w) && Appended(w, w', n) && w.nodes[n].term >= 1 && ElectionInv(c, w') && RoundInv(w')
    ensures ReplicationInv(c, w')
  {
    AppendedLogs(c, w, w', n);
    AppendedAccepts(c, w, w', n);
    AppendedLeaders(c, w, w', n);
    hide ElectionInv, NodeLogsOk, LeaderLogsOk, AcceptedOk, RoundsOk, AppendRpcsOk;
    RoundsKept(w, w');
    RpcsKept(w, w');
  }

  // ---------- a heartbeat ----------

  ghost predicate RoundSent(w: World, w': World, n: nat) {
    && n < |w.nodes| && w.nodes[n].status == Leader && w'.nodes == w.nodes
    && w'.rounds == w.rounds + [Round(n, w.nodes[n].term, |w.nodes[n].logs|, 1, false)]
    && (forall id :: id in w.appendRpcs && id.round < |w.rounds| ==>
          id in w'.appendRpcs && w'.appendRpcs[id] == w.appendRpcs[id])
    && (forall id :: id in w'.appendRpcs && id.round != |w.rounds| ==> id in w.appendRpcs)
    && (forall id :: id in w'.appendRpcs && id.round == |w.rounds| ==>
          && id.to < |w.nodes| && id.to != n && w'.appendRpcs[id].AppendSent?
          && w'.appendRpcs[id].args.term == w.nodes[n].term
          && CarriesSlice(w.nodes[n].logs, |w.nodes[n].logs|, w'.appendRpcs[id].args))
    && w'.leaders == w.leaders && w'.termLogs == w.termLogs && w'.accepted == w.accepted
  }

  lemma RequestCarriesSlice(w: World, n: nat, p: nat)
    requires NodeLogsOk(w) && n < |w.nodes| && p < |w.nodes[n].nextIndex|
    requires 1 <= w.nodes[n].nextIndex[p] <= |w.nodes[n].logs| + 1
    ensures SendsEntries(w.nodes[n], p)
    ensures CarriesSlice(w.nodes[n].logs, |w.nodes[n].logs|, MakeAppendArgs(w.nodes[n], p))
    ensures MakeAppendArgs(w.nodes[n], p).term == w.nodes[n].term
  {}

  lemma HeartbeatRequests(c: Config, w: World, n: nat, id: AppendId)
    requires ReplicationInv(c, w) && CanHeartbeat(w, n)
    requires id in DoHeartbeat(w, n).appendRpcs && id.round == |w.rounds|
    ensures var w' := DoHeartbeat(w, n);
            && id.to < |w.nodes| && id.to != n && w'.appendRpcs[id].AppendSent?
            && w'.appendRpcs[id].args.term == w.nodes[n].term
            && CarriesSlice(w.nodes[n].logs, |w.nodes[n].logs|, w'.appendRpcs[id].args)
  {
    hide ElectionInv, RoundsOk, TermLogsOk, AcceptedOk, CarriesSlice, MakeAppendArgs;
    assert LeaderLogOk(w, n);
    assert id in w.appendRpcs ==> AppendRpcOk(w, id);
    hide LeaderLogsOk, AppendRpcsOk;
    RequestCarriesSlice(w, n, id.to);
  }

  lemma HeartbeatEffect(c: Config, w: World, n: nat)
    requires ReplicationInv(c, w) && CanHeartbeat(w, n)
    ensures RoundSent(w, DoHeartbeat(w, n), n)
  {
    hide ReplicationInv, MakeAppendArgs, SendsEntries, CarriesSlice;
    var w' := DoHeartbeat(w, n);
    assert |w.nodes[n].logs| == LastIndex(w.nodes[n]) by { NotCompacted(c, w, n); }
    forall id | id in w'.appendRpcs && id.round == |w.rounds|
      ensures && id.to < |w.nodes| && id.to != n && w'.appendRpcs[id].AppendSent?
              && w'.appendRpcs[id].args.term == w.nodes[n].term
              && CarriesSlice(w.nodes[n].logs, |w.nodes[n].logs|, w'.appendRpcs[id].args)
    {
      HeartbeatRequests(c, w, n, id);
    }
  }

  lemma NotCompacted(c: Config, w: World, n: nat)
    requires ReplicationInv(c, w) && n < |w.nodes|
    ensures w.nodes[n].snapIndex == 0
  {
    hide ElectionInv, RoundsOk, TermLogsOk, AcceptedOk, AppendRpcsOk, LeaderLogsOk;
  }

  lemma RoundSentRounds(c: Config, w: World, w': World, n: nat)
    requires ReplicationInv(c, w) && RoundSent(w, w', n)
    ensures RoundsOk(w')
  {
    hide ElectionInv, NodeLogsOk, AcceptedOk, AppendRpcsOk, TermLogsOk, LeaderLogsOk, CarriesSlice, LeaderLogOk;
    LeaderLeads(c, w, n);
    LeaderBook(c, w, n);
    assert RoundOk(w', |w.rounds|);
    forall r: nat | r < |w.rounds| ensures RoundOk(w', r) { assert RoundOk(w, r); }
  }

  lemma RoundSentRpcs(c: Config, w: World, w': World, n: nat)
    requires ReplicationInv(c, w) && RoundSent(w, w', n)
    ensures AppendRpcsOk(w')
  {
    hide ElectionInv, RoundInv, NodeLogsOk, AcceptedOk, TermLogsOk, CarriesSlice;
    assert LeaderLogOk(w, n);
    hide LeaderLogsOk;
    forall id | id in w'.appendRpcs && id.round != |w.rounds| ensures AppendRpcOk(w', id) {
      assert AppendRpcOk(w, id) && RoundOk(w, id.round);
      hide AppendRpcOk, RoundOk;
      RpcKept(w, w', id);
    }
  }

  lemma RoundSentKeeps(c: Config, w: World, w': World, n: nat)
    requires ReplicationInv(c, w) && RoundSent(w, w', n) && ElectionInv(c, w') && RoundInv(w')
    ensures ReplicationInv(c, w')
  {
    hide ElectionInv, RoundsOk, AppendRpcsOk, LogOk, CarriesSlice, LeaderLogsOk;
    RoundSentRounds(c, w, w', n);
    RoundSentRpcs(c, w, w', n);
    assert w'.nodes == w.nodes && w'.leaders == w.leaders && w'.termLogs == w.termLogs && w'.accepted == w.accepted;
    hide RoundSent;
    SameLeaderLogs(w, w');
  }

  lemma SameLeaderLogs(w: World, w': World)
    requires LeaderLogsOk(w) && w'.nodes == w.nodes && w'.termLogs == w.termLogs && w'.accepted == w.accepted
    ensures LeaderLogsOk(w')
  {
    forall m: nat | m < |w'.nodes| ensures LeaderLogOk(w', m) { assert LeaderLogOk(w, m); }
  }

  // ---------- handling a request ----------

  lemma {:induction false} ScanBackBounds(n: Node, from: int, term: int, none: int)
    requires LogOk(n.logs, n.term) && n.snapIndex == 0 && n.snapTerm == 0 && term >= 1
    requires -1 <= from <= LastIndex(n)
    ensures from >= 0 ==> 1 <= ScanBack(n, from, term, none) <= from + 1
    decreases from
  {
    if from >= 0 && TermAt(n, from) == term { ScanBackBounds(n, from - 1, term, none); }
  }

  /** After a failed check the suggested index is at least 1 and no larger than the one tried. */
  lemma BackOffBounds(n: Node, prev: int)
    requires LogOk(n.logs, n.term) && n.snapIndex == 0 && n.snapTerm == 0 && 1 <= prev <= LastIndex(n)
    ensures 1 <= BackOff(n, prev) <= prev
  {
    assert ScanBack(n, prev, TermAt(n, prev), prev) == ScanBack(n, prev - 1, TermAt(n, prev), prev);
    ScanBackBounds(n, prev - 1, TermAt(n, prev), prev);
  }

  lemma MergeLogOk(mode: Receiver, logs: seq<LogEntry>, at: nat, entries: seq<LogEntry>, term: int)
    requires LogOk(logs, term) && at <= |logs|
    requires Contiguous(entries, at) && EntryTerms(entries, term)
    ensures LogOk(Merge(mode, logs, at, entries), term)
    ensures |Merge(mode, logs, at, entries)| >= at + |entries|
  {
    hide Conflicts;
    var r := Merge(mode, logs, at, entries);
    forall i | 0 <= i < |r| ensures r[i].logIndex == i + 1 && 1 <= r[i].logTerm <= term {
      if at <= i < at + |entries| {
        assert r[i] == Overlay(logs, at, entries)[i];
        assert r[i] == entries[i - at] || (i < |logs| && r[i] == logs[i]);
      } else {
        assert r[i] == logs[i];
      }
    }
  }

  /** What an append handler can have done when compaction is off. */
  ghost predicate AppendOutcome(mode: Receiver, n: Node, a: AppendArgs, n': Node, r: AppendReply) {
    if r.success then
      && n.term <= a.term == r.term == n'.term && n'.status == Follower
      && 0 <= a.prevLogIndex <= |n.logs| && TermIn(n.logs, a.prevLogIndex) == a.prevLogTerm
      && n'.logs == Merge(mode, n.logs, a.prevLogIndex, a.entries)
      && n'.snapIndex == n.snapIndex && n'.snapTerm == n.snapTerm
    else
      && Calm(n, n')
      && (r.updateNextIndex != KEEP_NEXT_INDEX ==> r.term == a.term && 1 <= r.updateNextIndex <= a.prevLogIndex)
  }

  lemma HandleAppendOutcome(mode: Receiver, n: Node, a: AppendArgs)
    requires LogOk(n.logs, n.term) && n.snapIndex == 0 && n.snapTerm == 0
    requires a.prevLogIndex >= 0 && (a.prevLogIndex == 0 ==> a.prevLogTerm == 0)
    ensures AppendOutcome(mode, n, a, HandleAppend(mode, n, a).0, HandleAppend(mode, n, a).1)
  {
    hide Merge, BackOff;
    var n1 := Follow(n, a.term);
    if a.term >= n.term && 1 <= a.prevLogIndex <= LastIndex(n1) && TermAt(n1, a.prevLogIndex) != a.prevLogTerm {
      assert EntryTerms(n1.logs, n1.term);
      BackOffBounds(n1, a.prevLogIndex);
    }
  }

  ghost predicate AppendHandled(c: Config, w: World, w': World, id: AppendId, a: AppendArgs, r: AppendReply) {
    && id in w.appendRpcs && w.appendRpcs[id] == AppendSent(a) && id.to < |w.nodes| == |w'.nodes|
    && w'.nodes == w.nodes[id.to := w'.nodes[id.to]]
    && AppendOutcome(c.receiver, w.nodes[id.to], a, w'.nodes[id.to], r)
    && w'.appendRpcs == w.appendRpcs[id := AppendAnswered(a, r)]
    && w'.accepted == (if r.success then w.accepted[(id.to, a.term) := Max(Accepted(w, id.to, a.term), EndOf(a))]
                       else w.accepted)
    && w'.rounds == w.rounds && w'.leaders == w.leaders && w'.termLogs == w.termLogs
  }

  lemma DeliverAppendEffect(c: Config, w: World, id: AppendId)
    requires ReplicationInv(c, w) && CanDeliverAppend(w, id)
    ensures var w' := DoDeliverAppend(c, w, id); id in w'.appendRpcs && w'.appendRpcs[id].AppendAnswered?
    ensures var w' := DoDeliverAppend(c, w, id);
            AppendHandled(c, w, w', id, w.appendRpcs[id].args, w'.appendRpcs[id].reply)
  {
    hide ElectionInv, RoundsOk, LeaderLogsOk, TermLogsOk, AcceptedOk, HandleAppend, LogOk;
    assert AppendRpcOk(w, id);
    assert LogOk(w.nodes[id.to].logs, w.nodes[id.to].term);
    hide AppendRpcsOk;
    HandleAppendOutcome(c.receiver, w.nodes[id.to], w.appendRpcs[id].args);
    hide NodeLogsOk, AppendRpcOk, AppendOutcome;
  }

  lemma HandledLogs(c: Config, w: World, w': World, id: AppendId, a: AppendArgs, r: AppendReply)
    requires ReplicationInv(c, w) && AppendHandled(c, w, w', id, a, r)
    ensures NodeLogsOk(w')
  {
    hide ElectionInv, RoundsOk, LeaderLogsOk, AcceptedOk, Merge, LogOk;
    assert AppendRpcOk(w, id);
    hide AppendRpcsOk;
    LogOkLater();
    if r.success {
      SliceLogOk(w.termLogs[a.term], EndOf(a), a, a.term);
      MergeLogOk(c.receiver, w.nodes[id.to].logs, a.prevLogIndex, a.entries, a.term);
    }
    assert LogOk(w'.nodes[id.to].logs, w'.nodes[id.to].term);
    assert w'.nodes[id.to].snapIndex == 0 && w'.nodes[id.to].snapTerm == 0;
    hide TermLogsOk, AppendRpcOk, AppendOutcome;
  }

  lemma SliceLogOk(logs: seq<LogEntry>, end: int, a: AppendArgs, term: int)
    requires LogOk(logs, term) && CarriesSlice(logs, end, a)
    ensures Contiguous(a.entries, a.prevLogIndex) && EntryTerms(a.entries, term)
  {}

  lemma HandledAccepts(c: Config, w: World, w': World, id: AppendId, a: AppendArgs, r: AppendReply)
    requires ReplicationInv(c, w) && AppendHandled(c, w, w', id, a, r)
    ensures AcceptedOk(w') && AcceptedGrows(w, w')
    ensures r.success ==> Accepted(w', id.to, a.term) >= EndOf(a)
  {
    hide ElectionInv, RoundsOk, Merge, NodeLogsOk, LogOk, TermLogsOk, LeaderLogsOk;
    assert AppendRpcOk(w, id);
    assert r.success ==> a.term in w.termLogs && 0 <= EndOf(a) <= |w.termLogs[a.term]|;
    hide AppendRpcsOk, AppendRpcOk;
    AcceptedBound(w, id.to, a.term);
    AcceptedAfter(c, w, w', id, a, r);
  }

  lemma AcceptedAfter(c: Config, w: World, w': World, id: AppendId, a: AppendArgs, r: AppendReply)
    requires AcceptedOk(w) && AppendHandled(c, w, w', id, a, r)
    requires r.success ==> a.term in w.termLogs && 0 <= EndOf(a) <= |w.termLogs[a.term]|
    requires r.success && a.term in w.termLogs ==> 0 <= Accepted(w, id.to, a.term) <= |w.termLogs[a.term]|
    ensures AcceptedOk(w') && AcceptedGrows(w, w')
    ensures r.success ==> Accepted(w', id.to, a.term) >= EndOf(a)
  {
    hide Merge, LogOk;
  }

  lemma HandledLeaders(c: Config, w: World, w': World, id: AppendId, a: AppendArgs, r: AppendReply)
    requires ReplicationInv(c, w) && AppendHandled(c, w, w', id, a, r)
    ensures LeaderLogsOk(w') && BooksKept(w, w')
  {
    hide ElectionInv, RoundsOk, AppendRpcsOk, Merge, NodeLogsOk, LogOk, TermLogsOk, AcceptedOk;
    forall m: nat | m < |w'.nodes| ensures LeaderLogOk(w', m) { assert LeaderLogOk(w, m); }
  }

  lemma HandledRpcs(c: Config, w: World, w': World, id: AppendId, a: AppendArgs, r: AppendReply)
    requires ReplicationInv(c, w) && AppendHandled(c, w, w', id, a, r)
    requires AcceptedGrows(w, w') && BooksKept(w, w') && (r.success ==> Accepted(w', id.to, a.term) >= EndOf(a))
    ensures AppendRpcsOk(w')
  {
    hide ElectionInv, RoundInv, NodeLogsOk, TermLogsOk, AcceptedOk, LeaderLogsOk, CarriesSlice, AcceptedGrows,
      BooksKept, Accepted, Calm;
    assert AppendRpcOk(w, id);
    assert w'.termLogs == w.termLogs && w'.rounds == w.rounds && w'.leaders == w.leaders;
    assert ReplyOk(w', id.to, a, r);
    hide AppendOutcome;
    assert AppendRpcOk(w', id);
    forall j | j in w'.appendRpcs && j != id ensures AppendRpcOk(w', j) {
      assert AppendRpcOk(w, j) && RoundOk(w, j.round);
      hide AppendRpcOk, RoundOk, AppendRpcsOk, RoundsOk;
      RpcKept(w, w', j);
    }
  }

  lemma HandledRounds(c: Config, w: World, w': World, id: AppendId, a: AppendArgs, r: AppendReply)
    requires ReplicationInv(c, w) && AppendHandled(c, w, w', id, a, r)
    ensures RoundsOk(w')
  {
    hide ElectionInv, NodeLogsOk, TermLogsOk, AcceptedOk, LeaderLogsOk, AppendOutcome, AppendRpcsOk, Accepted;
    forall k: nat | k < |w'.rounds| ensures RoundOk(w', k) { assert RoundOk(w, k); }
  }

  lemma HandledKeeps(c: Config, w: World, w': World, id: AppendId, a: AppendArgs, r: AppendReply)
    requires ReplicationInv(c, w) && AppendHandled(c, w, w', id, a, r) && ElectionInv(c, w') && RoundInv(w')
    ensures ReplicationInv(c, w')
  {
    HandledLogs(c, w, w', id, a, r);
    HandledAccepts(c, w, w', id, a, r);
    HandledLeaders(c, w, w', id, a, r);
    HandledRpcs(c, w, w', id, a, r);
    HandledRounds(c, w, w', id, a, r);
    hide ElectionInv, NodeLogsOk, AcceptedOk, LeaderLogsOk, AppendRpcsOk, RoundsOk;
  }

  // ---------- consuming a reply ----------

  /** The leader's node after a reply: its books move within the log and never back. */
  ghost predicate Booked(n: Node, n': Node) {
    && n'.logs == n.logs && n'.snapIndex == n.snapIndex && n'.snapTerm == n.snapTerm && n.term <= n'.term
    && (n'.status == Leader ==>
          && n.status == Leader && n'.term == n.term
          && |n'.nextIndex| == |n.nextIndex| && |n'.matchIndex| == |n.matchIndex|
          && (forall p :: 0 <= p < |n.nextIndex| ==> 1 <= n'.nextIndex[p] <= |n.logs| + 1)
          && (forall p :: 0 <= p < |n.matchIndex| ==> n.matchIndex[p] <= n'.matchIndex[p] <= |n.logs|))
  }

  ghost predicate AppendReturned(w: World, w': World, id: AppendId, acks: bool, crosses: bool) {
    && RpcConsumed(w, w', id, acks, crosses)
    && (var round := w.rounds[id.round];
        && round.leader < |w.nodes| && w'.nodes == w.nodes[round.leader := w'.nodes[round.leader]]
        && Booked(w.nodes[round.leader], w'.nodes[round.leader]) && (acks ==> AckOk(w', id, round)))
    && w'.leaders == w.leaders && w'.termLogs == w.termLogs && w'.accepted == w.accepted
  }

  lemma HandleReplyBooks(n: Node, peer: nat, a: AppendArgs, r: AppendReply, num: int)
    requires peer < |n.matchIndex| && peer < |n.nextIndex|
    requires n.status == Leader ==>
               && (forall p :: 0 <= p < |n.nextIndex| ==> 1 <= n.nextIndex[p] <= |n.logs| + 1)
               && (forall p :: 0 <= p < |n.matchIndex| ==> 0 <= n.matchIndex[p] <= |n.logs|)
    requires AppendReplyCounts(n, r) && r.success ==> 0 <= EndOf(a) <= |n.logs|
    requires AppendReplyCounts(n, r) && !r.success && r.updateNextIndex != KEEP_NEXT_INDEX ==>
               1 <= r.updateNextIndex <= |n.logs| + 1
    ensures var n' := HandleAppendReply(n, peer, a, r, num).0;
            && Booked(n, n') && n'.peers == n.peers && n'.me == n.me
            && (AppendReplyCounts(n, r) && r.success ==> n'.matchIndex[peer] >= EndOf(a))
    ensures HandleAppendReply(n, peer, a, r, num).1
            == if !(AppendReplyCounts(n, r) && r.success) then num else if num + 1 >= Majority(n) then 0 else num + 1
  {}

  lemma ReturnAppendEffect(c: Config, w: World, id: AppendId)
    requires ReplicationInv(c, w) && CanReturnAppend(w, id)
    ensures AppendReturned(w, DoReturnAppend(w, id), id, Acks(w, id), Crosses(w, id))
  {
    hide ReplicationInv, ElectionInv, Booked, HandleAppendReply, RpcConsumed;
    ReplyInLog(c, w, id);
    ElectionOf(c, w);
    ShapeIn(c, w);
    ReturnConsumes(c, w, id);
    var round := w.rounds[id.round];
    var n := w.nodes[round.leader];
    var a, r := w.appendRpcs[id].args, w.appendRpcs[id].reply;
    ShapeOf(c, w, round.leader);
    HandleReplyBooks(n, id.to, a, r, round.appendNums);
    hide LeaderLogOk;
  }

  /** A reply its leader acts on speaks of indices in the leader's log. */
  lemma ReplyInLog(c: Config, w: World, id: AppendId)
    requires ReplicationInv(c, w) && CanReturnAppend(w, id)
    ensures w.rounds[id.round].leader < |w.nodes|
    ensures LeaderLogOk(w, w.rounds[id.round].leader)
    ensures var n := w.nodes[w.rounds[id.round].leader];
            var a, r := w.appendRpcs[id].args, w.appendRpcs[id].reply;
            && (AppendReplyCounts(n, r) && r.success ==>
                  && n.term == w.rounds[id.round].term && 0 <= EndOf(a) == w.rounds[id.round].end <= |n.logs|
                  && Accepted(w, id.to, n.term) >= EndOf(a))
            && (AppendReplyCounts(n, r) && !r.success && r.updateNextIndex != KEEP_NEXT_INDEX ==>
                  1 <= r.updateNextIndex <= |n.logs| + 1)
  {
    assert AppendRpcOk(w, id) && LeaderLogOk(w, w.rounds[id.round].leader) && RoundOk(w, id.round);
    hide ElectionInv, RoundsOk, AppendRpcsOk, LeaderLogsOk, TermLogsOk, AcceptedOk, NodeLogsOk;
  }

  lemma ShapeIn(c: Config, w: World)
    requires ElectionInv(c, w)
    ensures Shape(c, w)
  {}

  lemma ShapeOf(c: Config, w: World, n: nat)
    requires ElectionInv(c, w) && n < |w.nodes|
    ensures w.nodes[n].peers == |w.nodes| == c.peers && w.nodes[n].me == n
    ensures |w.nodes[n].matchIndex| == |w.nodes[n].nextIndex| == c.peers
  {}

  /** Everyone whose acknowledgement was consumed has accepted the round's end. */
  lemma AckedAccepted(c: Config, w: World, r: nat)
    requires ReplicationInv(c, w) && r < |w.rounds|
    ensures forall p :: p in Acked(w, r) ==> Accepted(w, p, w.rounds[r].term) >= w.rounds[r].end
  {
    hide ElectionInv, RoundInv, NodeLogsOk, TermLogsOk, LeaderLogsOk, AcceptedOk, RoundsOk, Accepted;
    forall p | p in Acked(w, r) ensures Accepted(w, p, w.rounds[r].term) >= w.rounds[r].end {
      assert AppendRpcOk(w, AppendId(r, p));
    }
  }

  lemma ReturnedRounds(c: Config, w: World, w': World, id: AppendId, acks: bool, crosses: bool)
    requires ReplicationInv(c, w) && AppendReturned(w, w', id, acks, crosses)
    ensures RoundsOk(w')
  {
    hide ElectionInv, RoundInv, Booked, AckOk, NodeLogsOk, TermLogsOk, LeaderLogsOk, AcceptedOk, AppendRpcsOk;
    forall r: nat | r < |w'.rounds| ensures RoundOk(w', r) { assert RoundOk(w, r); }
  }

  lemma ReturnedLeaders(c: Config, w: World, w': World, id: AppendId, acks: bool, crosses: bool)
    requires ReplicationInv(c, w) && AppendReturned(w, w', id, acks, crosses)
    ensures LeaderLogsOk(w') && NodeLogsOk(w') && AcceptedOk(w')
  {
    hide ElectionInv, TermLogsOk, RoundsOk, AppendRpcsOk, AckOk, LogOk;
    forall m: nat | m < |w'.nodes| ensures LeaderLogOk(w', m) { assert LeaderLogOk(w, m); }
    assert NodeLogsOk(w') by { LogOkLater(); hide LeaderLogsOk, AcceptedOk; }
  }

  lemma LogOkLater()
    ensures forall logs: seq<LogEntry>, t: int, t': int :: LogOk(logs, t) && t <= t' ==> LogOk(logs, t')
  {}

  lemma ReturnedBooks(w: World, w': World, id: AppendId, acks: bool, crosses: bool)
    requires AppendReturned(w, w', id, acks, crosses)
    ensures BooksKept(w, w')
  {
    hide AckOk;
  }

  lemma OtherRpcKept(c: Config, w: World, w': World, id: AppendId, acks: bool, crosses: bool, j: AppendId)
    requires ReplicationInv(c, w) && AppendReturned(w, w', id, acks, crosses) && BooksKept(w, w')
    requires j in w.appendRpcs && j != id
    ensures j in w'.appendRpcs && AppendRpcOk(w', j)
  {
    hide ElectionInv, AcceptedOk, TermLogsOk, NodeLogsOk, LeaderLogsOk, BooksKept, Booked, AckOk;
    assert AppendRpcOk(w, j) && RoundOk(w, j.round);
    hide AppendRpcsOk, RoundsOk;
    assert SameRound(w.rounds[j.round], w'.rounds[j.round]);
    hide AppendRpcOk, RoundOk;
    RpcKept(w, w', j);
  }

  lemma ReturnedRpcs(c: Config, w: World, w': World, id: AppendId, acks: bool, crosses: bool)
    requires ReplicationInv(c, w) && AppendReturned(w, w', id, acks, crosses)
    ensures AppendRpcsOk(w')
  {
    hide ElectionInv, AcceptedOk, TermLogsOk, NodeLogsOk, LeaderLogsOk, RoundsOk, BooksKept, Booked;
    assert AppendRpcOk(w, id);
    assert AppendRpcOk(w', id);
    hide AckOk;
    ReturnedBooks(w, w', id, acks, crosses);
    forall j | j in w'.appendRpcs && j != id ensures AppendRpcOk(w', j) {
      hide AppendRpcOk, AppendRpcsOk;
      OtherRpcKept(c, w, w', id, acks, crosses, j);
    }
  }

  lemma ReturnedKeeps(c: Config, w: World, w': World, id: AppendId, acks: bool, crosses: bool)
    requires ReplicationInv(c, w) && AppendReturned(w, w', id, acks, crosses) && ElectionInv(c, w') && RoundInv(w')
    ensures ReplicationInv(c, w')
  {
    assert w'.termLogs == w.termLogs && w'.leaders == w.leaders;
    ReturnedRounds(c, w, w', id, acks, crosses);
    ReturnedLeaders(c, w, w', id, acks, crosses);
    ReturnedRpcs(c, w, w', id, acks, crosses);
    hide ElectionInv, NodeLogsOk, LeaderLogsOk, AppendRpcsOk, RoundsOk, AppendReturned, AppendRpcOk, AcceptedOk, LogOk;
  }

  // ---------- every step, every run ----------

  lemma LeadsPositive(c: Config, w: World, n: nat, t: int)
    requires ElectionInv(c, w) && ((n, t) in w.votedNums || Leads(w, n, t))
    ensures t >= 1
  {
    assert CountOk(w, n, t);
  }

  lemma VoteStepsAreCalm(c: Config, w: World, e: Event)
    requires ReplicationInv(c, w) && Enabled(c, w, e) && (e.Election? || e.DeliverVote? || e.Apply?)
    ensures CalmAt(w, Step(c, w, e), if e.DeliverVote? then e.vote.voter else e.n)
  {
    hide ReplicationInv;
  }

  lemma ReturnVoteIsCalmOrWins(c: Config, w: World, id: VoteId)
    requires ReplicationInv(c, w) && CanReturnVote(w, id)
    ensures if WouldWin(w, id) then Won(w, DoReturnVote(w, id), id.candidate)
            else CalmAt(w, DoReturnVote(w, id), id.candidate)
  {
    hide Won, CalmAt, DoReturnVote, ElectionInv, CanReturnVote, WouldWin;
    if WouldWin(w, id) {
      ElectionOf(c, w);
      WinIsFresh(c, w, id);
      WonByReturn(w, id);
    } else {
      CalmByReturn(w, id);
    }
  }

  lemma WonByReturn(w: World, id: VoteId)
    requires CanReturnVote(w, id) && WouldWin(w, id)
    requires id.term == w.nodes[id.candidate].term && id.term !in w.leaders
    ensures Won(w, DoReturnVote(w, id), id.candidate)
  {}

  lemma CalmByReturn(w: World, id: VoteId)
    requires CanReturnVote(w, id) && !WouldWin(w, id)
    ensures CalmAt(w, DoReturnVote(w, id), id.candidate)
  {}

  lemma StartAppends(c: Config, w: World, n: nat, command: string)
    requires ReplicationInv(c, w) && CanStart(w, n)
    ensures Appended(w, DoStart(w, n, command), n)
  {
    assert w.nodes[n].snapIndex == 0;
    hide ReplicationInv;
  }

  lemma ShapeAndRounds(c: Config, w: World, e: Event)
    requires ReplicationInv(c, w) && Enabled(c, w, e)
    ensures RoundInv(Step(c, w, e))
  {
    hide RoundInv, NodeLogsOk, TermLogsOk, LeaderLogsOk, AcceptedOk, RoundsOk, AppendRpcsOk, Enabled, Step;
    StepKeepsRounds(c, w, e);
  }

  lemma StepKeepsReplication(c: Config, w: World, e: Event)
    requires ReplicationInv(c, w) && Enabled(c, w, e)
    ensures ReplicationInv(c, Step(c, w, e))
  {
    StepKeepsElection(c, w, e);
    ShapeAndRounds(c, w, e);
    var w' := Step(c, w, e);
    hide RoundInv, DoElection, DoDeliverVote, DoReturnVote, DoStart, DoHeartbeat, DoDeliverAppend, DoReturnAppend,
      DoApply, ElectionInv, NodeLogsOk, TermLogsOk, LeaderLogsOk, AcceptedOk, RoundsOk, AppendRpcsOk, Won, Appended,
      CalmAt, RoundSent, AppendHandled, AppendReturned;
    match e
    case Election(n) => VoteStepsAreCalm(c, w, e); CalmKeeps(c, w, w', n);
    case DeliverVote(id) => VoteStepsAreCalm(c, w, e); CalmKeeps(c, w, w', id.voter);
    case Apply(n) => VoteStepsAreCalm(c, w, e); CalmKeeps(c, w, w', n);
    case ReturnVote(id) =>
      ReturnVoteIsCalmOrWins(c, w, id);
      if WouldWin(w, id) {
        WinIsFresh(c, w, id);
        LeadsPositive(c, w, id.candidate, id.term);
        WonKeeps(c, w, w', id.candidate);
      } else {
        CalmKeeps(c, w, w', id.candidate);
      }
    case ClientStart(n, command) =>
      StartAppends(c, w, n, command);
      LeaderLeads(c, w, n);
      LeadsPositive(c, w, n, w.nodes[n].term);
      AppendedKeeps(c, w, w', n);
    case Heartbeat(n) => HeartbeatEffect(c, w, n); RoundSentKeeps(c, w, w', n);
    case DeliverAppend(id) =>
      DeliverAppendEffect(c, w, id);
      HandledKeeps(c, w, w', id, w.appendRpcs[id].args, w'.appendRpcs[id].reply);
    case ReturnAppend(id) =>
      ReturnAppendEffect(c, w, id);
      ReturnedKeeps(c, w, w', id, Acks(w, id), Crosses(w, id));
    case _ =>
  }

  lemma InitReplication(c: Config)
    requires !c.compaction
    ensures ReplicationInv(c, InitWorld(c))
  {
    InitElection(c);
  }

  lemma {:induction false} RunReplication(c: Config, run: seq<World>, i: nat)
    requires IsRun(c, run) && i < |run| && !c.compaction
    ensures ReplicationInv(c, run[i])
  {
    hide Enabled, Step, ReplicationInv;
    if i == 0 {
      InitReplication(c);
    } else {
      RunReplication(c, run, i - 1);
      var e := RunStep(c, run, i - 1);
      StepKeepsReplication(c, run[i - 1], e);
    }
  }

  ghost predicate MovesCommit(w: World, id: AppendId) {
    && CanReturnAppend(w, id) && w.rounds[id.round].leader < |w.nodes|
    && var l := w.rounds[id.round].leader;
       HandleAppendReply(w.nodes[l], id.to, w.appendRpcs[id].args, w.appendRpcs[id].reply,
                         w.rounds[id.round].appendNums).0.commitIndex != w.nodes[l].commitIndex
  }

  /** The reply moved the commit index of the leader's node to the end of its request. */
  ghost predicate CommitMoved(w: World, w': World, id: AppendId) {
    && CanReturnAppend(w, id) && |w.nodes| == |w'.nodes|
    && var l := w.rounds[id.round].leader;
       && l < |w.nodes|
       && var n, n' := w.nodes[l], w'.nodes[l];
          && n'.status == n.status == Leader && n'.term == n.term && n'.logs == n.logs && n'.snapIndex == n.snapIndex
          && n'.me == n.me && n'.peers == n.peers && |n'.matchIndex| == |n.matchIndex|
          && n'.commitIndex == EndOf(w.appendRpcs[id].args) > n.commitIndex
          && EndsInTerm(w.appendRpcs[id].args, n.term)
  }

  lemma MovesCommitMeans(w: World, id: AppendId)
    requires MovesCommit(w, id)
    ensures Crosses(w, id) && CommitMoved(w, DoReturnAppend(w, id), id)
  {}

  lemma CrossingQuorum(c: Config, w: World, w': World, id: AppendId) returns (quorum: set<nat>)
    requires ReplicationInv(c, w) && AppendReturned(w, w', id, true, true) && ReplicationInv(c, w')
    ensures var l := w.rounds[id.round].leader;
            IsQuorum(quorum, c.peers) && l in quorum && quorum == Acked(w', id.round) + {l}
            && forall p :: p in quorum && p != l ==> Accepted(w', p, w.rounds[id.round].term) >= w.rounds[id.round].end
  {
    hide ReplicationInv, Acked, Booked, AckOk, ElectionInv, Accepted;
    var l := w.rounds[id.round].leader;
    RoundsOf(c, w);
    assert RpcPlaced(w, id);
    hide RoundInv;
    ElectionOf(c, w);
    ShapeOf(c, w, l);
    CrossingIsFirst(w, id);
    AckedGrows(w, w', id, true, true);
    AckedAccepted(c, w', id.round);
    AckedOthers(w, id.round);
    quorum := AddTwo(Acked(w, id.round), id.to, l, c.peers);
  }

  /** The state after a commit: the counting rule's test passes for the new index, and a majority, the leader
      included, has acknowledged the leader's log through it. */
  ghost predicate CommitsByRule(c: Config, w: World, l: nat, quorum: set<nat>) {
    && l < |w.nodes| && |w.nodes[l].matchIndex| == w.nodes[l].peers && w.nodes[l].status == Leader
    && CommitRule(w.nodes[l], w.nodes[l].commitIndex)
    && IsQuorum(quorum, c.peers) && l in quorum
    && forall p :: p in quorum ==> Accepted(w, p, w.nodes[l].term) >= w.nodes[l].commitIndex
  }

  lemma MovedByRule(c: Config, w: World, w': World, id: AppendId) returns (quorum: set<nat>)
    requires ReplicationInv(c, w) && ReplicationInv(c, w')
    requires AppendReturned(w, w', id, true, true) && CommitMoved(w, w', id) && Acks(w, id)
    ensures CommitsByRule(c, w', w.rounds[id.round].leader, quorum)
  {
    hide ReplicationInv, AppendReturned, Acks, Acked, Accepted, Holders, CommitRule;
    var l := w.rounds[id.round].leader;
    quorum := CrossingQuorum(c, w, w', id);
    CommitIsAcked(c, w, w', id);
    ElectionOf(c, w');
    ShapeOf(c, w', l);
    RoundKept(w, w', id);
    AckedAreHolders(c, w', id.round);
    RuleFromQuorum(w'.nodes[l], w'.nodes[l].commitIndex, quorum);
  }

  lemma RoundsOf(c: Config, w: World)
    requires ReplicationInv(c, w)
    ensures RoundInv(w)
  {
    hide ElectionInv, RoundInv;
  }

  lemma ElectionOf(c: Config, w: World)
    requires ReplicationInv(c, w)
    ensures ElectionInv(c, w)
  {
    hide ElectionInv, NodeLogsOk, TermLogsOk, LeaderLogsOk, AcceptedOk, RoundsOk, AppendRpcsOk;
  }

  lemma RoundKept(w: World, w': World, id: AppendId)
    requires AppendReturned(w, w', id, true, true)
    ensures id.round < |w.rounds| && id.round < |w'.rounds| && SameRound(w.rounds[id.round], w'.rounds[id.round])
  {
    hide Booked, AckOk;
  }

  /** The leader's counter for one heartbeat round commits only what the counting rule over matchIndex commits:
      whenever a reply moves the commit index, it moves it forward to the end of the acknowledged request, and
      that index passes the rule's test with a majority behind it. */
  lemma CounterObeysCommitRule(c: Config, w: World, id: AppendId) returns (quorum: set<nat>)
    requires ReplicationInv(c, w) && MovesCommit(w, id)
    ensures CommitMoved(w, DoReturnAppend(w, id), id)
    ensures CommitsByRule(c, DoReturnAppend(w, id), w.rounds[id.round].leader, quorum)
  {
    hide ReplicationInv, AppendReturned, CommitMoved, DoReturnAppend, CommitsByRule, HandleAppendReply, Crosses, Acks;
    var w' := DoReturnAppend(w, id);
    MovesCommitMeans(w, id);
    ReturnAppendEffect(c, w, id);
    StepKeepsReplication(c, w, ReturnAppend(id));
    quorum := MovedByRule(c, w, w', id);
  }

  /** The same at every point of every run. */
  lemma RunObeysCommitRule(c: Config, run: seq<World>, i: nat, id: AppendId) returns (quorum: set<nat>)
    requires IsRun(c, run) && i < |run| && !c.compaction && MovesCommit(run[i], id)
    ensures CommitMoved(run[i], DoReturnAppend(run[i], id), id)
    ensures CommitsByRule(c, DoReturnAppend(run[i], id), run[i].rounds[id.round].leader, quorum)
  {
    hide IsRun, ReplicationInv, CommitMoved, CommitsByRule, DoReturnAppend, MovesCommit;
    RunReplication(c, run, i);
    quorum := CounterObeysCommitRule(c, run[i], id);
  }

  lemma RuleFromQuorum(n: Node, index: int, quorum: set<nat>)
    requires |n.matchIndex| == n.peers && n.snapIndex == 0 && 1 <= index <= |n.logs|
    requires n.logs[index - 1].logTerm == n.term && quorum <= Holders(n, index) && |quorum| >= Majority(n)
    ensures CommitRule(n, index)
  {
    SubsetSize(quorum, Holders(n, index));
  }

  /** The facts about the leader's node that the counting rule asks for. */
  lemma CommitIsAcked(c: Config, w: World, w': World, id: AppendId)
    requires ReplicationInv(c, w) && ReplicationInv(c, w')
    requires AppendReturned(w, w', id, true, true) && CommitMoved(w, w', id) && Acks(w, id)
    ensures var round := w.rounds[id.round]; var n' := w'.nodes[round.leader];
            && n'.commitIndex == round.end && n'.term == round.term && n'.snapIndex == 0
            && 1 <= n'.commitIndex <= |n'.logs| && n'.logs[n'.commitIndex - 1].logTerm == n'.term
            && Accepted(w', round.leader, n'.term) >= n'.commitIndex
            && SameRound(round, w'.rounds[id.round])
  {
    hide ReplicationInv, Booked, AckOk, LeaderLogOk;
    ReplyInLog(c, w, id);
    EndEntryTerm(c, w, id);
    LeaderBook(c, w', w.rounds[id.round].leader);
  }

  lemma LeaderBook(c: Config, w: World, n: nat)
    requires ReplicationInv(c, w) && n < |w.nodes| && w.nodes[n].status == Leader
    ensures w.nodes[n].term in w.termLogs && w.termLogs[w.nodes[n].term] == w.nodes[n].logs
    ensures Accepted(w, n, w.nodes[n].term) == |w.nodes[n].logs|
  {
    hide ElectionInv, NodeLogsOk, TermLogsOk, AcceptedOk, RoundsOk, AppendRpcsOk;
    assert LeaderLogOk(w, n);
  }

  /** The last entry a request carries is the entry at the end of the leader's log slice. */
  lemma EndEntryTerm(c: Config, w: World, id: AppendId)
    requires ReplicationInv(c, w) && CanReturnAppend(w, id) && Acks(w, id)
    requires w.rounds[id.round].leader < |w.nodes|
    requires EndsInTerm(w.appendRpcs[id].args, w.nodes[w.rounds[id.round].leader].term)
    ensures var n := w.nodes[w.rounds[id.round].leader]; var end := EndOf(w.appendRpcs[id].args);
            n.snapIndex == 0 && 1 <= end <= |n.logs| && n.logs[end - 1].logTerm == n.term
  {
    hide ElectionInv, TermLogsOk, AcceptedOk, RoundsOk, LogOk;
    assert AppendRpcOk(w, id) && LeaderLogOk(w, w.rounds[id.round].leader);
    assert w.nodes[w.rounds[id.round].leader].snapIndex == 0;
    hide NodeLogsOk, LeaderLogsOk, AppendRpcsOk, ReplicationInv;
  }

  lemma AckedAreHolders(c: Config, w: World, r: nat)
    requires ReplicationInv(c, w) && r < |w.rounds| && w.rounds[r].leader < |w.nodes|
    requires var n := w.nodes[w.rounds[r].leader]; n.status == Leader && n.term == w.rounds[r].term
    ensures var n := w.nodes[w.rounds[r].leader];
            |n.matchIndex| == n.peers && Acked(w, r) + {n.me} <= Holders(n, w.rounds[r].end)
  {
    ShapeOf(c, w, w.rounds[r].leader);
    forall p | p in Acked(w, r) ensures w.nodes[w.rounds[r].leader].matchIndex[p] >= w.rounds[r].end {
      assert AppendRpcOk(w, AppendId(r, p));
    }
  }

  lemma LeaderNextIndices(c: Config, w: World, n: nat)
    requires ReplicationInv(c, w) && n < |w.nodes| && w.nodes[n].status == Leader
    ensures forall p :: 0 <= p < |w.nodes[n].nextIndex| ==> 1 <= w.nodes[n].nextIndex[p] <= |w.nodes[n].logs| + 1
  {
    hide ElectionInv, NodeLogsOk, TermLogsOk, AcceptedOk, RoundsOk, AppendRpcsOk;
    assert LeaderLogOk(w, n);
  }

  /** The index assertions of doHeartBeat never fire: a leader always has the entries its peers need next. */
  lemma HeartbeatNeverCrashes(c: Config, run: seq<World>, i: nat, n: nat)
    requires IsRun(c, run) && i < |run| && !c.compaction && n < |run[i].nodes|
    requires run[i].nodes[n].status == Leader
    ensures (forall peer: nat :: peer < c.peers ==> SendsEntries(run[i].nodes[n], peer)) && CanHeartbeat(run[i], n)
  {
    hide IsRun, ReplicationInv, ElectionInv;
    RunReplication(c, run, i);
    ElectionOf(c, run[i]);
    ShapeOf(c, run[i], n);
    LeaderNextIndices(c, run[i], n);
    NotCompacted(c, run[i], n);
  }
}
