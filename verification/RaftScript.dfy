/** Pieces from which runs of the code as written are put together step by step. */
module RaftScript {
  import opened RaftTypes
  import opened RaftNode
  import opened RaftWorld
  import opened RaftReplication
  import opened RaftMerge

  /** A run in which snapshots are requested only of what has been handed over ends in this state. */
  ghost predicate Reachable(c: Config, w: World) { exists run :: IsPromisedRun(c, run) && run[|run| - 1] == w }

  lemma OneMoreStep(c: Config, w: World, e: Event)
    requires Reachable(c, w) && Enabled(c, w, e) && Promised(w, e)
    ensures Reachable(c, Step(c, w, e))
  {
    hide Enabled, Step, InitWorld, Promised;
    var run :| IsPromisedRun(c, run) && run[|run| - 1] == w;
    var longer := run + [Step(c, w, e)];
    assert IsPromisedRun(c, longer) by {
      forall i | 0 <= i < |longer| - 1 ensures PromisedNext(c, longer[i], longer[i + 1]) {
        if i < |run| - 1 { assert PromisedNext(c, run[i], run[i + 1]); }
      }
    }
    assert longer[|longer| - 1] == Step(c, w, e);
  }

  /** A voter grants its vote to a candidate of a later term. */
  lemma GetVote(c: Config, w: World, id: VoteId, args: VoteArgs) returns (w': World)
    requires Reachable(c, w) && id.voter < |w.nodes|
    requires id in w.voteRpcs && w.voteRpcs[id] == VoteSent(args) && args.term > w.nodes[id.voter].term
    requires UpToDate(w.nodes[id.voter], args.lastLogIndex, args.lastLogTerm)
    ensures Reachable(c, w') && w'.votedNums == w.votedNums && w'.emitted == w.emitted
    ensures w'.nodes == w.nodes[id.voter := StepDown(w.nodes[id.voter], args.term).(votedFor := args.candidateId)]
    ensures w'.voteRpcs == w.voteRpcs[id := VoteAnswered(VoteReply(args.term, Normal, true))]
  {
    hide Reachable;
    w' := Step(c, w, DeliverVote(id));
    OneMoreStep(c, w, DeliverVote(id));
  }

  /** A candidate of five counts a vote, and leads with the third. */
  lemma CountVote(c: Config, w: World, id: VoteId, num: int) returns (w': World)
    requires Reachable(c, w) && id.candidate < |w.nodes|
    requires var n := w.nodes[id.candidate]; n.term == id.term && n.status != Leader && n.peers == 5
    requires id in w.voteRpcs && w.voteRpcs[id] == VoteAnswered(VoteReply(id.term, Normal, true))
    requires (id.candidate, id.term) in w.votedNums && w.votedNums[(id.candidate, id.term)] == num
    ensures Reachable(c, w') && w'.voteRpcs == w.voteRpcs[id := VoteDone(true)] && w'.emitted == w.emitted
    ensures w'.votedNums == w.votedNums[(id.candidate, id.term) := if num >= 2 then 0 else num + 1]
    ensures var n := w.nodes[id.candidate]; w'.nodes == w.nodes[id.candidate := if num >= 2 then BecomeLeader(n) else n]
  {
    hide Reachable, BallotHolders, BecomeLeader, HandleVoteReply, VoteWins;
    ThirdVoteWins(w.nodes[id.candidate], id.term, num);
    w' := Step(c, w, ReturnVote(id));
    OneMoreStep(c, w, ReturnVote(id));
  }

  lemma ThirdVoteWins(n: Node, term: int, num: int)
    requires n.term == term && n.peers == 5
    ensures var r := VoteReply(term, Normal, true);
            && VoteCounts(n, r) && (VoteWins(n, r, num) <==> num >= 2)
            && HandleVoteReply(n, r, num) == if num >= 2 then (BecomeLeader(n), 0) else (n, num + 1)
  {
    hide BecomeLeader;
  }

  function VotedFor(node: Node, n: nat, term: int): Node { StepDown(node, term).(votedFor := n) }

  /** A candidacy asks every peer for its vote. */
  lemma StandAt(c: Config, w: World, n: nat) returns (w': World)
    requires Reachable(c, w) && n < |w.nodes| && w.nodes[n].status != Leader && w.nodes[n].me == n
    ensures Reachable(c, w') && w'.nodes == w.nodes[n := BecomeCandidate(w.nodes[n])] && w'.emitted == w.emitted
    ensures var t := w.nodes[n].term + 1;
            && (n, t) in w'.votedNums && w'.votedNums[(n, t)] == 1
            && forall p: nat :: p < |w.nodes| && p != n ==>
                 && VoteId(n, t, p) in w'.voteRpcs
                 && w'.voteRpcs[VoteId(n, t, p)]
                      == VoteSent(VoteArgs(t, n, LastIndex(w.nodes[n]), LastTerm(w.nodes[n])))
  {
    hide Reachable;
    OneMoreStep(c, w, Election(n));
    w' := Step(c, w, Election(n));
  }

  /** Two voters of smaller terms and no longer logs make a server of five a leader. */
  lemma Elect(c: Config, w: World, n: nat, u: nat, v: nat) returns (w': World)
    requires Reachable(c, w) && |w.nodes| == 5 && n < 5 && u < 5 && v < 5 && n != u && n != v && u != v
    requires var node := w.nodes[n];
             && node.me == n && node.peers == 5 && node.status != Leader
             && w.nodes[u].term <= node.term && w.nodes[v].term <= node.term
             && UpToDate(w.nodes[u], LastIndex(node), LastTerm(node))
             && UpToDate(w.nodes[v], LastIndex(node), LastTerm(node))
    ensures Reachable(c, w') && w'.emitted == w.emitted
    ensures var t := w.nodes[n].term + 1;
            w'.nodes == w.nodes[n := BecomeLeader(BecomeCandidate(w.nodes[n]))]
                               [u := VotedFor(w.nodes[u], n, t)][v := VotedFor(w.nodes[v], n, t)]
  {
    hide Reachable, UpToDate, LastIndex, LastTerm, BecomeLeader;
    var args := VoteArgs(w.nodes[n].term + 1, n, LastIndex(w.nodes[n]), LastTerm(w.nodes[n]));
    var forU, forV := VoteId(n, args.term, u), VoteId(n, args.term, v);
    var w1 := StandAt(c, w, n);
    var w2 := GetVote(c, w1, forU, args);
    var w3 := GetVote(c, w2, forV, args);
    var w4 := CountVote(c, w3, forU, 1);
    w' := CountVote(c, w4, forV, 2);
  }

  lemma StartAt(c: Config, w: World, n: nat, command: string) returns (w': World)
    requires Reachable(c, w) && n < |w.nodes| && w.nodes[n].status == Leader
    ensures Reachable(c, w') && w'.nodes == w.nodes[n := Start(w.nodes[n], command)] && w'.emitted == w.emitted
  {
    hide Reachable;
    OneMoreStep(c, w, ClientStart(n, command));
    w' := Step(c, w, ClientStart(n, command));
  }

  /** A heartbeat sends everything from each peer's nextIndex on. */
  lemma BeatAt(c: Config, w: World, n: nat) returns (w': World)
    requires Reachable(c, w) && CanHeartbeat(w, n)
    ensures Reachable(c, w') && w'.nodes == w.nodes && w'.emitted == w.emitted
    ensures w'.rounds == w.rounds + [Round(n, w.nodes[n].term, LastIndex(w.nodes[n]), 1, false)]
    ensures forall p: nat :: p < |w.nodes| && p != n && SendsEntries(w.nodes[n], p) ==>
              var id := AppendId(|w.rounds|, p);
              id in w'.appendRpcs && w'.appendRpcs[id] == AppendSent(MakeAppendArgs(w.nodes[n], p))
  {
    hide Reachable, MakeAppendArgs;
    OneMoreStep(c, w, Heartbeat(n));
    w' := Step(c, w, Heartbeat(n));
  }

  lemma DeliverAt(c: Config, w: World, id: AppendId, args: AppendArgs) returns (w': World)
    requires Reachable(c, w) && id in w.appendRpcs && w.appendRpcs[id] == AppendSent(args) && id.to < |w.nodes|
    requires !AppendCrashes(w.nodes[id.to], args)
    ensures Reachable(c, w') && w'.rounds == w.rounds && w'.emitted == w.emitted
    ensures var (n, r) := HandleAppend(c.receiver, w.nodes[id.to], args);
            w'.nodes == w.nodes[id.to := n] && w'.appendRpcs == w.appendRpcs[id := AppendAnswered(args, r)]
  {
    hide Reachable, AppendCrashes, HandleAppend;
    OneMoreStep(c, w, DeliverAppend(id));
    w' := Step(c, w, DeliverAppend(id));
  }

  lemma ReturnAt(c: Config, w: World, id: AppendId, args: AppendArgs, r: AppendReply) returns (w': World)
    requires Reachable(c, w) && CanReturnAppend(w, id) && w.appendRpcs[id] == AppendAnswered(args, r)
    ensures Reachable(c, w') && w'.emitted == w.emitted && |w'.rounds| == |w.rounds|
    ensures forall other :: other in w.appendRpcs && other != id ==>
              other in w'.appendRpcs && w'.appendRpcs[other] == w.appendRpcs[other]
    ensures var round := w.rounds[id.round];
            var (n, num) := HandleAppendReply(w.nodes[round.leader], id.to, args, r, round.appendNums);
            && w'.nodes == w.nodes[round.leader := n]
            && w'.rounds[id.round].leader == round.leader && w'.rounds[id.round].appendNums == num
  {
    hide Reachable, HandleAppendReply;
    OneMoreStep(c, w, ReturnAppend(id));
    w' := Step(c, w, ReturnAppend(id));
  }

  lemma ApplyAt(c: Config, w: World, n: nat) returns (w': World)
    requires Reachable(c, w) && CanApply(w, n)
    ensures Reachable(c, w')
    ensures var (node, msgs) := ApplyLogs(w.nodes[n]);
            w'.nodes == w.nodes[n := node] && w'.emitted == w.emitted[n := w.emitted[n] + msgs]
  {
    hide Reachable;
    OneMoreStep(c, w, Apply(n));
    w' := Step(c, w, Apply(n));
  }

  /** A leader sends everything from a peer's nextIndex on, and the peer handles it. */
  lemma Replicate(c: Config, w: World, n: nat, to: nat) returns (w': World)
    requires Reachable(c, w) && CanHeartbeat(w, n) && to < |w.nodes| && n != to
    requires SendsEntries(w.nodes[n], to) && !AppendCrashes(w.nodes[to], MakeAppendArgs(w.nodes[n], to))
    ensures Reachable(c, w') && w'.emitted == w.emitted
    ensures w'.nodes == w.nodes[to := HandleAppend(c.receiver, w.nodes[to], MakeAppendArgs(w.nodes[n], to)).0]
  {
    hide Reachable, AppendCrashes, HandleAppend, MakeAppendArgs;
    w' := BeatAt(c, w, n);
    w' := DeliverAt(c, w', AppendId(|w.rounds|, to), MakeAppendArgs(w.nodes[n], to));
  }

  /** A reply that asks for no more than the leader has lets its heartbeats go on. */
  lemma StillBeats(n: Node, to: nat, a: AppendArgs, r: AppendReply, num: int)
    requires to < |n.nextIndex| == |n.matchIndex| && n.matchIndex[to] <= LastIndex(n) && EndOf(a) <= LastIndex(n)
    requires !HeartbeatStops(n) && r.updateNextIndex <= LastIndex(n) + 1
    ensures !HeartbeatStops(HandleAppendReply(n, to, a, r, num).0)
  {
    var n' := HandleAppendReply(n, to, a, r, num).0;
    forall p | 0 <= p < |n'.nextIndex| && n'.status == Leader ensures !PastLog(n', p) { assert !PastLog(n, p); }
  }

  /** What a server that has not compacted makes of a request that passes its check. */
  lemma Accepts(n: Node, a: AppendArgs)
    requires n.snapIndex == n.snapTerm == 0 && n.term <= a.term && Contiguous(n.logs, 0)
    requires 0 <= a.prevLogIndex <= |n.logs| && TermIn(n.logs, a.prevLogIndex) == a.prevLogTerm
    requires Contiguous(a.entries, a.prevLogIndex) && !Clash(n.logs, a.prevLogIndex, a.entries)
    ensures !AppendCrashes(n, a)
    ensures var logs := n.logs[..a.prevLogIndex] + a.entries + TailBeyond(n.logs, a.prevLogIndex, a.entries);
            && HandleAppend(AsWritten, n, a).1 == AppendReply(a.term, true, 0, AppNormal)
            && HandleAppend(AsWritten, n, a).0
               == Follow(n, a.term).(logs := logs, commitIndex := if a.leaderCommit <= n.commitIndex then n.commitIndex
                                                                  else if a.leaderCommit <= |logs| then a.leaderCommit
                                                                  else |logs|)
  {
    hide Merge, Clash, Contiguous;
    MergeAsWritten(n.logs, 0, a.prevLogIndex, a.entries);
  }

  lemma CompactAt(c: Config, w: World, n: nat, index: int) returns (w': World)
    requires Reachable(c, w) && c.compaction && CanCompact(w, n) && index <= w.nodes[n].lastApplied
    ensures Reachable(c, w') && w'.nodes == w.nodes[n := Snapshot(w.nodes[n], index)]
  {
    hide Reachable;
    OneMoreStep(c, w, Compact(n, index));
    w' := Step(c, w, Compact(n, index));
  }

  // ---------- how the runs begin ----------

  /** Nothing committed, applied or compacted. */
  ghost predicate Plain(n: Node, me: nat) {
    n.me == me && n.peers == 5 && n.commitIndex == n.lastApplied == n.snapIndex == n.snapTerm == 0
  }

  ghost predicate Quiet5(c: Config, w: World) {
    Reachable(c, w) && c.peers == 5 && c.receiver == AsWritten && |w.nodes| == |w.emitted| == 5
      && w.emitted == [[], [], [], [], []]
    && forall i :: 0 <= i < 5 ==> Plain(w.nodes[i], i)
  }

  /** Server 0 leads term 1, with the votes of servers 1 and 4. */
  lemma TermOneStarts(c: Config) returns (w: World)
    requires c.peers == 5 && c.receiver == AsWritten
    ensures Quiet5(c, w)
    ensures w.nodes[0] == BecomeLeader(BecomeCandidate(Init(0, 5)))
    ensures w.nodes[1] == VotedFor(Init(1, 5), 0, 1) && w.nodes[4] == VotedFor(Init(4, 5), 0, 1)
    ensures w.nodes[2] == Init(2, 5) && w.nodes[3] == Init(3, 5)
  {
    w := InitWorld(c);
    assert IsPromisedRun(c, [w]);
    assert Reachable(c, w);
    assert w.emitted == [[], [], [], [], []];
    hide Reachable, BecomeLeader;
    w := Elect(c, w, 0, 1, 4);
    assert Plain(w.nodes[0], 0) by { LeaderIsPlain(BecomeCandidate(Init(0, 5)), 0); }
  }

  lemma LeaderIsPlain(n: Node, me: nat)
    requires Plain(n, me)
    ensures var l := BecomeLeader(n);
            && Plain(l, me) && l.status == Leader && l.term == n.term && l.logs == n.logs
            && |l.nextIndex| == |l.matchIndex| == 5
            && (forall p :: 0 <= p < 5 ==> l.nextIndex[p] == |n.logs| + 1 && l.matchIndex[p] == 0)
            && !HeartbeatStops(l)
  {}
}
