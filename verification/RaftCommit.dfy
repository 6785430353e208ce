/** State Machine Safety (section 5.4.3 of the Raft paper) on top of Leader Completeness: commit indices stay
    within committed prefixes, so no two servers ever hand different commands to the state machine at one
    index. Same setting as RaftLog: no compaction, the receiver of section 5.3. */
module RaftCommit {
  import opened RaftTypes
  import opened RaftNode
  import opened RaftWorld
  import opened RaftElection
  import opened RaftRounds
  import opened RaftReplication
  import opened RaftLog
  import opened Quorums

  /** This sequence of entries is part of what some term up to `bound` has committed. */
  ghost predicate Backed(c: Config, w: World, p: seq<LogEntry>, bound: int) {
    p == [] || exists t, k :: t <= bound && BackedBy(c, w, p, t, k)
  }

  ghost predicate BackedBy(c: Config, w: World, p: seq<LogEntry>, t: int, k: int) {
    Committed(c, w, t, k) && |p| <= k && p <= w.termLogs[t]
  }

  ghost predicate NodeBacked(c: Config, w: World, n: nat)
    requires n < |w.nodes|
  {
    var node := w.nodes[n];
    && 0 <= node.lastApplied <= node.commitIndex <= |node.logs|
    && Backed(c, w, node.logs[..node.commitIndex], node.term)
    && n < |w.emitted| && w.emitted[n] == Commands(node.logs[..node.lastApplied], 0)
  }

  ghost predicate RequestBacked(c: Config, w: World, a: AppendArgs) {
    && a.term in w.termLogs && 0 <= a.leaderCommit <= EndOf(a) <= |w.termLogs[a.term]|
    && Backed(c, w, w.termLogs[a.term][..a.leaderCommit], a.term)
  }

  ghost predicate NodesBacked(c: Config, w: World) { forall n :: 0 <= n < |w.nodes| ==> NodeBacked(c, w, n) }

  ghost predicate RequestsBacked(c: Config, w: World) {
    forall id :: id in w.appendRpcs && w.appendRpcs[id].AppendSent? ==> RequestBacked(c, w, w.appendRpcs[id].args)
  }

  ghost predicate CommitInv(c: Config, w: World) {
    LogInv(c, w) && NodesBacked(c, w) && RequestsBacked(c, w)
  }

  // ---------- backing is stable ----------

  lemma CommittedStays(c: Config, w: World, w': World, m: nat, T: int, t: int, k: int)
    requires Moves(w, w', m, T) && Committed(c, w, t, k)
    ensures Committed(c, w', t, k) && w.termLogs[t] <= w'.termLogs[t]
  {
    var q :| IsQuorum(q, c.peers) && AllAccepted(w, q, t, k);
    forall n | n in q ensures Accepted(w', n, t) >= k {
      assert Accepted(w, n, t) >= k && (n, t) != (m, T) ==> Accepted(w', n, t) == Accepted(w, n, t);
    }
    assert AllAccepted(w', q, t, k);
  }

  lemma BackedStays(c: Config, w: World, w': World, m: nat, T: int, p: seq<LogEntry>, bound: int, bound': int)
    requires Moves(w, w', m, T) && Backed(c, w, p, bound) && bound <= bound'
    ensures Backed(c, w', p, bound')
  {
    if p != [] {
      var t, k :| t <= bound && BackedBy(c, w, p, t, k);
      CommittedStays(c, w, w', m, T, t, k);
      assert BackedBy(c, w', p, t, k);
    }
  }

  /** What is backed by a term is in the log of that term and of every later one. */
  lemma BackedInLater(c: Config, w: World, p: seq<LogEntry>, bound: int, term: int)
    requires LogInv(c, w) && Backed(c, w, p, bound) && bound <= term && term in w.termLogs
    ensures p <= w.termLogs[term]
  {
    hide LogInv;
    if p != [] {
      var t, k :| t <= bound && BackedBy(c, w, p, t, k);
      if t < term {
        LaterLogsHold(c, w, t, k, term);
        assert p <= w.termLogs[t][..k];
      }
    }
  }

  /** Two backed sequences are prefixes of one another. */
  lemma BackedComparable(c: Config, w: World, p: seq<LogEntry>, q: seq<LogEntry>, b1: int, b2: int)
    requires LogInv(c, w) && Backed(c, w, p, b1) && Backed(c, w, q, b2)
    ensures p <= q || q <= p
  {
    hide LogInv;
    if p != [] && q != [] {
      var t1, k1 :| t1 <= b1 && BackedBy(c, w, p, t1, k1);
      var t2, k2 :| t2 <= b2 && BackedBy(c, w, q, t2, k2);
      var t := if t1 >= t2 then t1 else t2;
      BackedInLater(c, w, p, t1, t);
      BackedInLater(c, w, q, t2, t);
    }
  }

  // ---------- steps ----------

  /** Node n kept what it committed and applied. */
  ghost predicate CommitSame(w: World, w': World, n: nat) {
    && n < |w.nodes| == |w'.nodes| && n < |w.emitted| == |w'.emitted|
    && var old0, new0 := w.nodes[n], w'.nodes[n];
       && new0.commitIndex == old0.commitIndex && new0.lastApplied == old0.lastApplied
       && old0.logs <= new0.logs && old0.term <= new0.term && w'.emitted[n] == w.emitted[n]
  }

  lemma SameNodeBacked(c: Config, w: World, w': World, m: nat, T: int, n: nat)
    requires Moves(w, w', m, T) && CommitSame(w, w', n) && NodeBacked(c, w, n)
    ensures NodeBacked(c, w', n)
  {
    var p := w.nodes[n].logs[..w.nodes[n].commitIndex];
    BackedStays(c, w, w', m, T, p, w.nodes[n].term, w'.nodes[n].term);
    assert w'.nodes[n].logs[..w'.nodes[n].commitIndex] == p;
    assert w'.nodes[n].logs[..w'.nodes[n].lastApplied] == w.nodes[n].logs[..w.nodes[n].lastApplied];
  }

  lemma SameRequestBacked(c: Config, w: World, w': World, m: nat, T: int, a: AppendArgs)
    requires Moves(w, w', m, T) && RequestBacked(c, w, a)
    ensures RequestBacked(c, w', a)
  {
    BackedStays(c, w, w', m, T, w.termLogs[a.term][..a.leaderCommit], a.term, a.term);
    assert w.termLogs[a.term] <= w'.termLogs[a.term];
    assert w'.termLogs[a.term][..a.leaderCommit] == w.termLogs[a.term][..a.leaderCommit];
  }

  /** Requests still under way were under way before. */
  ghost predicate NoNewAppends(w: World, w': World) {
    forall id :: id in w'.appendRpcs && w'.appendRpcs[id].AppendSent? ==>
      id in w.appendRpcs && w'.appendRpcs[id] == w.appendRpcs[id]
  }

  lemma OldRequestsBacked(c: Config, w: World, w': World, m: nat, T: int)
    requires Moves(w, w', m, T) && RequestsBacked(c, w) && NoNewAppends(w, w')
    ensures RequestsBacked(c, w')
  {
    forall id | id in w'.appendRpcs && w'.appendRpcs[id].AppendSent?
      ensures RequestBacked(c, w', w'.appendRpcs[id].args)
    {
      hide Moves;
      assert id in w.appendRpcs && w'.appendRpcs[id] == w.appendRpcs[id];
      SameRequestBacked(c, w, w', m, T, w.appendRpcs[id].args);
    }
  }

  /** Only node m changes. */
  ghost predicate OnlyTouches(w: World, w': World, m: nat) {
    && m < |w.nodes| == |w'.nodes| && |w.emitted| == |w'.emitted|
    && forall n :: 0 <= n < |w.nodes| && n != m ==>
         w'.nodes[n] == w.nodes[n] && (n < |w.emitted| ==> w'.emitted[n] == w.emitted[n])
  }

  lemma TouchKeeps(c: Config, w: World, w': World, m: nat, T: int)
    requires CommitInv(c, w) && LogInv(c, w') && Moves(w, w', m, T) && OnlyTouches(w, w', m)
    requires NodeBacked(c, w', m) && RequestsBacked(c, w')
    ensures CommitInv(c, w')
  {
    hide LogInv, Moves, RequestsBacked, Backed;
    forall n: nat | n < |w'.nodes| ensures NodeBacked(c, w', n) {
      if n != m {
        assert NodeBacked(c, w, n);
        SameNodeBacked(c, w, w', m, T, n);
      }
    }
  }

  /** A step in which the touched node commits and applies nothing and no request is sent. */
  lemma IdleKeeps(c: Config, w: World, w': World, m: nat, T: int)
    requires CommitInv(c, w) && LogInv(c, w') && Moves(w, w', m, T) && OnlyTouches(w, w', m)
    requires CommitSame(w, w', m) && NoNewAppends(w, w')
    ensures CommitInv(c, w')
  {
    assert NodesBacked(c, w) && RequestsBacked(c, w)
        && NodeBacked(c, w, m) by { hide LogInv, NodeBacked, RequestBacked; }
    hide LogInv, Moves, RequestsBacked, Backed, CommitInv, OnlyTouches, NodeBacked, NodesBacked, NoNewAppends;
    SameNodeBacked(c, w, w', m, T, m);
    OldRequestsBacked(c, w, w', m, T);
    TouchKeeps(c, w, w', m, T);
  }

  // ---------- commits ----------

  lemma RoundCommitBacked(c: Config, w: World, id: AppendId)
    requires CommitInv(c, w) && MovesCommit(w, id) && LogInv(c, DoReturnAppend(w, id))
    ensures var w' := DoReturnAppend(w, id); var l := w.rounds[id.round].leader;
            l < |w'.nodes| && 0 <= w'.nodes[l].commitIndex <= |w'.nodes[l].logs|
            && Backed(c, w', w'.nodes[l].logs[..w'.nodes[l].commitIndex], w'.nodes[l].term)
            && w'.nodes[l].commitIndex > w.nodes[l].commitIndex
  {
    hide LogInv, ReplicationInv, CommitsByRule, CommitMoved, DoReturnAppend, NodesBacked, RequestsBacked;
    var w' := DoReturnAppend(w, id);
    var l := w.rounds[id.round].leader;
    LogParts(c, w);
    LogParts(c, w');
    var quorum := CounterObeysCommitRule(c, w, id);
    CommitMovedForward(w, w', id);
    RuleCommits(c, w', l, quorum);
  }

  lemma CommitMovedForward(w: World, w': World, id: AppendId)
    requires CommitMoved(w, w', id)
    ensures var l := w.rounds[id.round].leader;
            l < |w.nodes| == |w'.nodes| && w'.nodes[l].commitIndex > w.nodes[l].commitIndex
  {}

  lemma RuleCommits(c: Config, w: World, l: nat, quorum: set<nat>)
    requires ReplicationInv(c, w) && CommitsByRule(c, w, l, quorum)
    ensures 0 <= w.nodes[l].commitIndex <= |w.nodes[l].logs|
    ensures Backed(c, w, w.nodes[l].logs[..w.nodes[l].commitIndex], w.nodes[l].term)
  {
    hide ReplicationInv, Holders, Accepted, IsQuorum;
    LeaderBook(c, w, l);
    NotCompacted(c, w, l);
    var n := w.nodes[l];
    assert AllAccepted(w, quorum, n.term, n.commitIndex);
    assert Committed(c, w, n.term, n.commitIndex);
    assert BackedBy(c, w, n.logs[..n.commitIndex], n.term, n.commitIndex);
  }

  /** What consuming a reply leaves alone on the leader's node. */
  lemma ReturnAppendFrame(w: World, id: AppendId)
    requires CanReturnAppend(w, id) && w.rounds[id.round].leader < |w.nodes|
    ensures var w' := DoReturnAppend(w, id); var l := w.rounds[id.round].leader;
            && OnlyTouches(w, w', l) && NoNewAppends(w, w') && w'.emitted == w.emitted
            && w'.nodes[l].logs == w.nodes[l].logs && w.nodes[l].term <= w'.nodes[l].term
            && w'.nodes[l].lastApplied == w.nodes[l].lastApplied
            && (!MovesCommit(w, id) ==> w'.nodes[l].commitIndex == w.nodes[l].commitIndex)
  {}

  lemma SameCommit(w: World, w': World, n: nat)
    requires n < |w.nodes| == |w'.nodes| && n < |w.emitted| == |w'.emitted| && w'.emitted == w.emitted
    requires w'.nodes[n].commitIndex == w.nodes[n].commitIndex && w'.nodes[n].lastApplied == w.nodes[n].lastApplied
    requires w.nodes[n].logs <= w'.nodes[n].logs && w.nodes[n].term <= w'.nodes[n].term
    ensures CommitSame(w, w', n)
  {}

  lemma ReturnedBacked(c: Config, w: World, w': World, l: nat)
    requires l < |w.nodes| && l < |w'.nodes| && NodeBacked(c, w, l) && w'.emitted == w.emitted
    requires w'.nodes[l].logs == w.nodes[l].logs && w'.nodes[l].lastApplied == w.nodes[l].lastApplied
    requires w.nodes[l].commitIndex <= w'.nodes[l].commitIndex <= |w'.nodes[l].logs|
    requires Backed(c, w', w'.nodes[l].logs[..w'.nodes[l].commitIndex], w'.nodes[l].term)
    ensures NodeBacked(c, w', l)
  {
    hide Backed;
  }

  lemma ReturnAppendKeepsCommit(c: Config, w: World, id: AppendId)
    requires CommitInv(c, w) && CanReturnAppend(w, id) && w.rounds[id.round].leader < |w.nodes|
    requires LogInv(c, DoReturnAppend(w, id))
    requires var w' := DoReturnAppend(w, id); var l := w.rounds[id.round].leader;
             |w'.nodes| == |w.nodes| && Moves(w, w', l, w'.nodes[l].term)
    ensures CommitInv(c, DoReturnAppend(w, id))
  {
    var w' := DoReturnAppend(w, id);
    var l := w.rounds[id.round].leader;
    hide DoReturnAppend, LogInv, Moves, OnlyTouches, NoNewAppends, RequestsBacked, NodesBacked, Backed, MovesCommit,
      CommitSame;
    ReturnAppendFrame(w, id);
    OnlyTouchesSize(w, w', l);
    NodeIsBacked(c, w, l);
    if MovesCommit(w, id) {
      RoundCommitBacked(c, w, id);
      OldRequestsBacked(c, w, w', l, w'.nodes[l].term);
      ReturnedBacked(c, w, w', l);
      hide NodeBacked;
      TouchKeeps(c, w, w', l, w'.nodes[l].term);
    } else {
      SameCommit(w, w', l);
      hide NodeBacked;
      IdleKeeps(c, w, w', l, w'.nodes[l].term);
    }
  }

  /** The commit index follows the leader's up to the end of the log. */
  ghost predicate TakesOverCommit(n: Node, n': Node, a: AppendArgs) {
    n'.commitIndex == if a.leaderCommit <= n.commitIndex then n.commitIndex
                      else if a.leaderCommit <= |n'.logs| then a.leaderCommit else |n'.logs|
  }

  /** The commit index and applied index after an append handler. */
  lemma AppendCommitIndex(mode: Receiver, n: Node, a: AppendArgs)
    requires n.snapIndex == 0
    ensures var (n', r) := HandleAppend(mode, n, a);
            && n'.lastApplied == n.lastApplied
            && (if r.success then TakesOverCommit(n, n', a)
                else n'.commitIndex == n.commitIndex && n'.logs == n.logs && n.term <= n'.term)
  {
    hide Merge, BackOff;
  }

  /** Node `to` after accepting a request: what it had committed and applied is still there, and a commit
      index it takes over from the leader lies within the part the request verified. */
  lemma MergedCommit(c: Config, w: World, w': World, to: nat, T: int, a: AppendArgs)
    requires to < |w.nodes| && to < |w'.nodes| && w'.emitted == w.emitted && w'.termLogs == w.termLogs
    requires w.nodes[to].term <= T == w'.nodes[to].term && w'.nodes[to].lastApplied == w.nodes[to].lastApplied
    requires TakesOverCommit(w.nodes[to], w'.nodes[to], a) && T in w.termLogs
        && 0 <= a.prevLogIndex <= |w.nodes[to].logs|
    requires w'.nodes[to].logs == Merge(Section53, w.nodes[to].logs, a.prevLogIndex, a.entries)
    requires Follows(w.termLogs, w.nodes[to].logs, w.termLogs[T], EndOf(a), a)
    requires LogInv(c, w) && Moves(w, w', to, T) && NodeBacked(c, w, to) && RequestBacked(c, w, a) && a.term == T
    ensures NodeBacked(c, w', to)
  {
    hide LogInv, Moves, Follows, Merge, Backed;
    var n, n' := w.nodes[to], w'.nodes[to];
    var leader := w.termLogs[T];
    var p := n.logs[..n.commitIndex];
    BackedInLater(c, w, p, n.term, T);
    MergeKeepsCommonPrefix(w.termLogs, n.logs, leader, EndOf(a), a, p);
    MergeFollowsLeader(w.termLogs, n.logs, leader, EndOf(a), a);
    assert |n'.logs| >= |p| && |n'.logs| >= EndOf(a);
    assert n'.logs[..n.lastApplied] == p[..n.lastApplied] == n.logs[..n.lastApplied];
    if a.leaderCommit <= n.commitIndex {
      assert n'.logs[..n'.commitIndex] == p;
      BackedStays(c, w, w', to, T, p, n.term, T);
    } else {
      var q := leader[..a.leaderCommit];
      assert q <= leader[..EndOf(a)];
      assert n'.logs[..n'.commitIndex] == q;
      BackedStays(c, w, w', to, T, q, T, T);
    }
  }

  lemma HandledFacts(c: Config, w: World, w': World, id: AppendId, a: AppendArgs, r: AppendReply)
    requires LogInv(c, w) && AppendHandled(c, w, w', id, a, r) && r.success
    ensures id.to < |w.nodes| == |w'.nodes| && w'.termLogs == w.termLogs && id in w.appendRpcs
    ensures w.appendRpcs[id] == AppendSent(a) && w.nodes[id.to].term <= a.term == w'.nodes[id.to].term
    ensures 0 <= a.prevLogIndex <= |w.nodes[id.to].logs|
    ensures w'.nodes[id.to].logs == Merge(Section53, w.nodes[id.to].logs, a.prevLogIndex, a.entries)
  {
    hide ReplicationInv, MatchInv, PersistInv, VotesInv, CompleteInv, CandidatesOk, Merge;
  }

  lemma AcceptedCommit(c: Config, w: World, w': World, id: AppendId, a: AppendArgs, r: AppendReply)
    requires id.to < |w.nodes| && id.to < |w'.nodes| && w'.emitted == w.emitted
    requires w'.nodes[id.to].lastApplied == w.nodes[id.to].lastApplied
    requires TakesOverCommit(w.nodes[id.to], w'.nodes[id.to], a)
    requires CommitInv(c, w) && AppendHandled(c, w, w', id, a, r) && r.success && Moves(w, w', id.to, a.term)
    ensures NodeBacked(c, w', id.to)
  {
    hide LogInv, AppendHandled, Moves, Follows, Merge, NodeBacked, RequestBacked;
    HandledFacts(c, w, w', id, a, r);
    AcceptedFollows(c, w, w', id, a, r);
    assert NodeBacked(c, w, id.to) && RequestBacked(c, w, a);
    MergedCommit(c, w, w', id.to, a.term, a);
  }

  lemma DeliverAppendCommitFrame(c: Config, w: World, id: AppendId)
    requires CanDeliverAppend(w, id) && w.nodes[id.to].snapIndex == 0
    ensures var w' := DoDeliverAppend(c, w, id); var n, n' := w.nodes[id.to], w'.nodes[id.to];
            && OnlyTouches(w, w', id.to) && NoNewAppends(w, w') && w'.emitted == w.emitted
            && id in w'.appendRpcs && w'.appendRpcs[id].AppendAnswered?
            && n'.lastApplied == n.lastApplied
            && (if w'.appendRpcs[id].reply.success then
                  TakesOverCommit(n, n', w.appendRpcs[id].args)
                else n'.commitIndex == n.commitIndex && n'.logs == n.logs && n.term <= n'.term)
  {
    hide HandleAppend;
    AppendCommitIndex(c.receiver, w.nodes[id.to], w.appendRpcs[id].args);
  }

  lemma NodesUncompacted(c: Config, w: World, n: nat)
    requires LogInv(c, w) && n < |w.nodes|
    ensures w.nodes[n].snapIndex == 0
  {
    hide ElectionInv, TermLogsOk, LeaderLogsOk, AcceptedOk, RoundsOk, AppendRpcsOk, MatchInv, PersistInv, VotesInv,
      CompleteInv, CandidatesOk;
  }

  lemma DeliverAppendKeepsCommit(c: Config, w: World, id: AppendId)
    requires CommitInv(c, w) && CanDeliverAppend(w, id) && LogInv(c, DoDeliverAppend(c, w, id))
    requires Moves(w, DoDeliverAppend(c, w, id), id.to, DoDeliverAppend(c, w, id).nodes[id.to].term)
    ensures CommitInv(c, DoDeliverAppend(c, w, id))
  {
    hide LogInv, ReplicationInv, DoDeliverAppend, Moves, AppendHandled, OnlyTouches, NoNewAppends, RequestsBacked,
      NodesBacked;
    var w' := DoDeliverAppend(c, w, id);
    LogParts(c, w);
    NodesUncompacted(c, w, id.to);
    DeliverAppendEffect(c, w, id);
    DeliverAppendCommitFrame(c, w, id);
    OnlyTouchesSize(w, w', id.to);
    var T := w'.nodes[id.to].term;
    var a, r := w.appendRpcs[id].args, w'.appendRpcs[id].reply;
    if r.success {
      HandledTerm(c, w, w', id, a, r);
      AcceptedCommit(c, w, w', id, a, r);
      OldRequestsBacked(c, w, w', id.to, T);
      hide NodeBacked;
      TouchKeeps(c, w, w', id.to, T);
    } else {
      NodeIsBacked(c, w, id.to);
      assert CommitSame(w, w', id.to);
      hide CommitSame, CommitInv;
      IdleKeeps(c, w, w', id.to, T);
    }
  }

  lemma OnlyTouchesSize(w: World, w': World, m: nat)
    requires OnlyTouches(w, w', m)
    ensures m < |w.nodes| == |w'.nodes| && |w.emitted| == |w'.emitted|
  {}

  lemma NodeIsBacked(c: Config, w: World, n: nat)
    requires CommitInv(c, w) && n < |w.nodes|
    ensures NodeBacked(c, w, n)
  {
    hide LogInv, NodeBacked, RequestsBacked;
  }

  // ---------- requests ----------

  lemma NewRequestBacked(c: Config, w: World, n: nat, p: nat)
    requires n < |w.nodes| && NodeBacked(c, w, n) && w.nodes[n].snapIndex == 0 && SendsEntries(w.nodes[n], p)
    requires w.nodes[n].term in w.termLogs && w.termLogs[w.nodes[n].term] == w.nodes[n].logs
    ensures RequestBacked(c, w, MakeAppendArgs(w.nodes[n], p))
  {
    hide Backed;
  }

  lemma HeartbeatRpcs(w: World, n: nat)
    requires CanHeartbeat(w, n)
    ensures var w' := DoHeartbeat(w, n);
            && w'.termLogs == w.termLogs && w'.accepted == w.accepted
            && forall id :: id in w'.appendRpcs ==>
                 || (id in w.appendRpcs && w'.appendRpcs[id] == w.appendRpcs[id])
                 || (SendsEntries(w.nodes[n], id.to)
                      && w'.appendRpcs[id] == AppendSent(MakeAppendArgs(w.nodes[n], id.to)))
  {
    hide MakeAppendArgs, SendsEntries;
  }

  lemma HeartbeatRequestsBacked(c: Config, w: World, n: nat)
    requires CommitInv(c, w) && CanHeartbeat(w, n)
    ensures RequestsBacked(c, DoHeartbeat(w, n))
  {
    hide LogInv, ReplicationInv, NodeBacked, RequestBacked, NodesBacked, DoHeartbeat, SendsEntries, MakeAppendArgs;
    var w' := DoHeartbeat(w, n);
    LogParts(c, w);
    LeaderBook(c, w, n);
    NodesUncompacted(c, w, n);
    NodeIsBacked(c, w, n);
    HeartbeatRpcs(w, n);
    forall id | id in w'.appendRpcs && w'.appendRpcs[id].AppendSent?
      ensures RequestBacked(c, w', w'.appendRpcs[id].args)
    {
      if id in w.appendRpcs && w'.appendRpcs[id] == w.appendRpcs[id] {
        assert RequestBacked(c, w, w.appendRpcs[id].args);
      } else {
        NewRequestBacked(c, w, n, id.to);
      }
      BackedAlike(c, w, w', w'.appendRpcs[id].args);
    }
  }

  lemma BackedAlike(c: Config, w: World, w': World, a: AppendArgs)
    requires w'.termLogs == w.termLogs && w'.accepted == w.accepted && RequestBacked(c, w, a)
    ensures RequestBacked(c, w', a)
  {
    var p := w.termLogs[a.term][..a.leaderCommit];
    if p != [] {
      var t, k :| t <= a.term && BackedBy(c, w, p, t, k);
      var q :| IsQuorum(q, c.peers) && AllAccepted(w, q, t, k);
      assert AllAccepted(w', q, t, k);
      assert Committed(c, w', t, k) && BackedBy(c, w', p, t, k);
    }
  }

  // ---------- applying ----------

  lemma CommandsAppend(logs: seq<LogEntry>, i: nat, j: nat)
    requires i <= j <= |logs|
    ensures Commands(logs[..i], 0) + Commands(logs[i..j], i) == Commands(logs[..j], 0)
  {}

  lemma AppliedBacked(c: Config, w: World, n: nat)
    requires CommitInv(c, w) && CanApply(w, n)
    requires Moves(w, DoApply(w, n), n, DoApply(w, n).nodes[n].term)
    ensures NodeBacked(c, DoApply(w, n), n)
  {
    hide LogInv, Backed, Moves, RequestsBacked;
    var w' := DoApply(w, n);
    NodeIsBacked(c, w, n);
    NodesUncompacted(c, w, n);
    var node := w.nodes[n];
    CommandsAppend(node.logs, node.lastApplied, node.commitIndex);
    BackedStays(c, w, w', n, w'.nodes[n].term, node.logs[..node.commitIndex], node.term, w'.nodes[n].term);
  }

  // ---------- every step, every run ----------

  /** Elections, votes, client commands and heartbeats neither commit nor apply. */
  lemma IdleFrame(c: Config, w: World, e: Event)
    requires Enabled(c, w, e) && Touched(w, e) < |w.nodes| == |w.emitted|
    requires e.Election? || e.DeliverVote? || e.ReturnVote? || e.ClientStart? || e.Heartbeat?
    ensures var w' := Step(c, w, e);
            && OnlyTouches(w, w', Touched(w, e)) && CommitSame(w, w', Touched(w, e))
            && (!e.Heartbeat? ==> NoNewAppends(w, w'))
  {
    hide OnlyTouches, CommitSame, NoNewAppends, Step, Enabled;
    match e
    case Election(n) => ElectionFrame(c, w, n);
    case DeliverVote(id) => DeliverVoteFrame(c, w, id);
    case ReturnVote(id) => ConsumedVoteFrame(c, w, id);
    case _ => LeaderFrame(c, w, e);
  }

  lemma LeaderFrame(c: Config, w: World, e: Event)
    requires Enabled(c, w, e) && Touched(w, e) < |w.nodes| == |w.emitted| && (e.Heartbeat? || e.ClientStart?)
    ensures var w' := Step(c, w, e);
            && OnlyTouches(w, w', Touched(w, e)) && CommitSame(w, w', Touched(w, e))
            && (!e.Heartbeat? ==> NoNewAppends(w, w'))
  {
    hide MakeAppendArgs, SendsEntries;
  }

  lemma ElectionFrame(c: Config, w: World, n: nat)
    requires Enabled(c, w, Election(n)) && Touched(w, Election(n)) < |w.nodes| == |w.emitted|
    ensures var w', m := Step(c, w, Election(n)), Touched(w, Election(n));
            OnlyTouches(w, w', m) && CommitSame(w, w', m) && NoNewAppends(w, w')
  {
    hide MakeVoteArgs;
  }

  lemma DeliverVoteFrame(c: Config, w: World, id: VoteId)
    requires Enabled(c, w, DeliverVote(id)) && Touched(w, DeliverVote(id)) < |w.nodes| == |w.emitted|
    ensures var w', m := Step(c, w, DeliverVote(id)), Touched(w, DeliverVote(id));
            OnlyTouches(w, w', m) && CommitSame(w, w', m) && NoNewAppends(w, w')
  {
    hide UpToDate;
  }

  lemma ConsumedVoteFrame(c: Config, w: World, id: VoteId)
    requires Enabled(c, w, ReturnVote(id)) && Touched(w, ReturnVote(id)) < |w.nodes| == |w.emitted|
    ensures var w', m := Step(c, w, ReturnVote(id)), Touched(w, ReturnVote(id));
            OnlyTouches(w, w', m) && CommitSame(w, w', m) && NoNewAppends(w, w')
  {
    hide DoReturnVote, HandleVoteReply;
    ConsumedVote(w, id);
    VoteReplyCommits(w.nodes[id.candidate], w.voteRpcs[id].reply, w.votedNums[(id.candidate, id.term)]);
  }

  lemma ConsumedVote(w: World, id: VoteId)
    requires CanReturnVote(w, id)
    ensures var w', n := DoReturnVote(w, id), id.candidate;
            && w'.emitted == w.emitted && w'.appendRpcs == w.appendRpcs
            && w'.nodes == w.nodes[n := HandleVoteReply(w.nodes[n], w.voteRpcs[id].reply, w.votedNums[(n, id.term)]).0]
  {
    hide BallotHolders, HandleVoteReply, VoteWins, VoteCounts;
  }

  lemma VoteReplyCommits(n: Node, r: VoteReply, num: int)
    ensures var n' := HandleVoteReply(n, r, num).0;
            && n'.logs == n.logs && n.term <= n'.term && n'.commitIndex == n.commitIndex
                 && n'.lastApplied == n.lastApplied
  {}

  lemma StepKeepsCommit(c: Config, w: World, e: Event)
    requires CommitInv(c, w) && Enabled(c, w, e)
    ensures CommitInv(c, Step(c, w, e))
  {
    hide LogInv, NodesBacked, RequestsBacked, Step, Touched, Moves, OnlyTouches, CommitSame, NoNewAppends, NodeBacked;
    var w' := Step(c, w, e);
    StepKeepsLog(c, w, e);
    var m := Touched(w, e);
    var T := w'.nodes[m].term;
    TouchedNode(c, w, w', m, T);
    if e.Election? || e.DeliverVote? || e.ReturnVote? || e.ClientStart? || e.Heartbeat? {
      IdleFrame(c, w, e);
      if e.Heartbeat? {
        HeartbeatKeepsCommit(c, w, e);
      } else {
        IdleKeeps(c, w, w', m, T);
      }
    } else {
      ApplyOrAppendKeepsCommit(c, w, e);
    }
  }

  lemma TouchedNode(c: Config, w: World, w': World, m: nat, T: int)
    requires LogInv(c, w) && Moves(w, w', m, T)
    ensures m < |w.nodes| == |w'.nodes| == |w.emitted|
  {
    hide NodeLogsOk, TermLogsOk, LeaderLogsOk, AcceptedOk, RoundsOk, AppendRpcsOk, MatchInv, PersistInv, VotesInv,
      CompleteInv, CandidatesOk, BallotsOk, VoteRpcsOk, CountsOk, LeadersOk;
  }

  lemma HeartbeatKeepsCommit(c: Config, w: World, e: Event)
    requires CommitInv(c, w) && Enabled(c, w, e) && e.Heartbeat? && LogInv(c, Step(c, w, e))
    requires var w' := Step(c, w, e); var m := Touched(w, e);
             && m < |w.nodes| == |w'.nodes| && Moves(w, w', m, w'.nodes[m].term)
             && OnlyTouches(w, w', m) && CommitSame(w, w', m)
    ensures CommitInv(c, Step(c, w, e))
  {
    hide LogInv, NodesBacked, RequestsBacked, Moves, OnlyTouches, CommitSame, NoNewAppends, NodeBacked, DoHeartbeat;
    var w', m := Step(c, w, e), Touched(w, e);
    HeartbeatRequestsBacked(c, w, e.n);
    NodeIsBacked(c, w, m);
    SameNodeBacked(c, w, w', m, w'.nodes[m].term, m);
    TouchKeeps(c, w, w', m, w'.nodes[m].term);
  }

  lemma ApplyOrAppendKeepsCommit(c: Config, w: World, e: Event)
    requires CommitInv(c, w) && Enabled(c, w, e) && LogInv(c, Step(c, w, e))
    requires !e.Election? && !e.DeliverVote? && !e.ReturnVote? && !e.ClientStart? && !e.Heartbeat?
    requires var w' := Step(c, w, e); var m := Touched(w, e);
             && m < |w.nodes| == |w'.nodes| && Moves(w, w', m, w'.nodes[m].term)
    ensures CommitInv(c, Step(c, w, e))
  {
    hide NodesBacked, RequestsBacked, Moves, OnlyTouches, NodeBacked, DoReturnAppend, DoDeliverAppend, DoApply;
    assert !c.compaction by { LogParts(c, w); hide MatchInv, PersistInv, VotesInv, CompleteInv, CandidatesOk; }
    hide LogInv;
    match e
    case DeliverAppend(id) => DeliverAppendKeepsCommit(c, w, id);
    case ReturnAppend(id) => ReturnAppendKeepsCommit(c, w, id);
    case Apply(n) => ApplyKeepsCommit(c, w, n);
    case _ =>
  }

  lemma ApplyFrame(w: World, n: nat)
    requires CanApply(w, n)
    ensures OnlyTouches(w, DoApply(w, n), n) && NoNewAppends(w, DoApply(w, n))
  {
    hide ApplyLogs;
  }

  lemma ApplyKeepsCommit(c: Config, w: World, n: nat)
    requires CommitInv(c, w) && CanApply(w, n) && LogInv(c, DoApply(w, n))
    requires Moves(w, DoApply(w, n), n, DoApply(w, n).nodes[n].term)
    ensures CommitInv(c, DoApply(w, n))
  {
    hide LogInv, NodesBacked, RequestsBacked, Moves, OnlyTouches, NodeBacked, NoNewAppends, DoApply;
    var w' := DoApply(w, n);
    ApplyFrame(w, n);
    OnlyTouchesSize(w, w', n);
    AppliedBacked(c, w, n);
    OldRequestsBacked(c, w, w', n, w'.nodes[n].term);
    TouchKeeps(c, w, w', n, w'.nodes[n].term);
  }

  lemma InitCommit(c: Config)
    requires !c.compaction && c.receiver == Section53
    ensures CommitInv(c, InitWorld(c))
  {
    InitLog(c);
    hide LogInv;
  }

  lemma {:induction false} RunCommit(c: Config, run: seq<World>, i: nat)
    requires IsRun(c, run) && i < |run| && !c.compaction && c.receiver == Section53
    ensures CommitInv(c, run[i])
  {
    hide Enabled, Step, CommitInv;
    if i == 0 {
      InitCommit(c);
    } else {
      RunCommit(c, run, i - 1);
      var e := RunStep(c, run, i - 1);
      StepKeepsCommit(c, run[i - 1], e);
    }
  }

  /** Committed sequences of one state stay committed in the next. */
  lemma StepKeepsBacked(c: Config, w: World, e: Event, p: seq<LogEntry>, bound: int)
    requires LogInv(c, w) && Enabled(c, w, e) && Backed(c, w, p, bound)
    ensures Backed(c, Step(c, w, e), p, bound)
  {
    hide LogInv, Step, Enabled, Touched, Moves, Backed;
    StepKeepsLog(c, w, e);
    var m := Touched(w, e);
    BackedStays(c, w, Step(c, w, e), m, Step(c, w, e).nodes[m].term, p, bound, bound);
  }

  lemma {:induction false} RunKeepsBacked(c: Config, run: seq<World>, i: nat, j: nat, p: seq<LogEntry>, bound: int)
    requires IsRun(c, run) && i <= j < |run| && !c.compaction && c.receiver == Section53
    requires Backed(c, run[i], p, bound)
    ensures Backed(c, run[j], p, bound)
    decreases j
  {
    hide Enabled, Step, LogInv, Backed;
    if i < j {
      RunKeepsBacked(c, run, i, j - 1, p, bound);
      RunLog(c, run, j - 1);
      var e := RunStep(c, run, j - 1);
      StepKeepsBacked(c, run[j - 1], e, p, bound);
    }
  }

  lemma CommitIsLogged(c: Config, run: seq<World>, i: nat, n: nat)
    requires IsRun(c, run) && i < |run| && !c.compaction && c.receiver == Section53 && n < |run[i].nodes|
    ensures 0 <= run[i].nodes[n].commitIndex <= |run[i].nodes[n].logs|
  {
    hide IsRun, LogInv, ReplicationInv, Backed;
    RunCommit(c, run, i);
    NodeIsBacked(c, run[i], n);
  }

  /** Leader Completeness: what any node has committed at some point of a run is in the log of every node that
      leads its term or a later one at any later point. */
  lemma LeaderCompleteness(c: Config, run: seq<World>, i: nat, j: nat, n: nat, leader: nat)
    requires IsRun(c, run) && i <= j < |run| && !c.compaction && c.receiver == Section53
    requires n < |run[i].nodes| && leader < |run[j].nodes|
    requires run[j].nodes[leader].status == Leader && run[j].nodes[leader].term >= run[i].nodes[n].term
    ensures var node := run[i].nodes[n];
            0 <= node.commitIndex <= |node.logs| && node.logs[..node.commitIndex] <= run[j].nodes[leader].logs
  {
    hide IsRun, LogInv, ReplicationInv, Backed;
    RunCommit(c, run, i);
    NodeIsBacked(c, run[i], n);
    RunLog(c, run, j);
    LogParts(c, run[j]);
    LeaderBook(c, run[j], leader);
    var node := run[i].nodes[n];
    var p := node.logs[..node.commitIndex];
    RunKeepsBacked(c, run, i, j, p, node.term);
    BackedInLater(c, run[j], p, node.term, run[j].nodes[leader].term);
  }

  /** State Machine Safety: the commands any two servers have handed to their state machines, at any two points
      of a run, agree wherever both have handed over an index, and the x-th command has index x. */
  lemma StateMachineSafety(c: Config, run: seq<World>, i: nat, j: nat, a: nat, b: nat, x: nat)
    requires IsRun(c, run) && i <= j < |run| && !c.compaction && c.receiver == Section53
    requires a < |run[i].nodes| == |run[i].emitted| && b < |run[j].nodes| == |run[j].emitted|
    requires x < |run[i].emitted[a]| && x < |run[j].emitted[b]|
    ensures run[i].emitted[a][x] == run[j].emitted[b][x]
    ensures run[i].emitted[a][x].CommandMsg? && run[i].emitted[a][x].index == x + 1
  {
    hide IsRun, LogInv, Backed;
    RunCommit(c, run, i);
    RunCommit(c, run, j);
    NodeIsBacked(c, run[i], a);
    NodeIsBacked(c, run[j], b);
    RunLog(c, run, j);
    var na, nb := run[i].nodes[a], run[j].nodes[b];
    var p, q := na.logs[..na.commitIndex], nb.logs[..nb.commitIndex];
    RunKeepsBacked(c, run, i, j, p, na.term);
    BackedComparable(c, run[j], p, q, na.term, nb.term);
    assert na.logs[x] == p[x] && nb.logs[x] == q[x];
  }

  /** The index assertions of getApplyLogs never fire, in any run. */
  lemma ApplyNeverCrashes(c: Config, run: seq<World>, i: nat, n: nat)
    requires IsRun(c, run) && i < |run| && !c.compaction && c.receiver == Section53 && n < |run[i].nodes|
    ensures CanApply(run[i], n)
  {
    hide IsRun, Backed, LogInv;
    RunCommit(c, run, i);
    NodeIsBacked(c, run[i], n);
    NodesUncompacted(c, run[i], n);
  }
}
