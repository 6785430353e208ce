/** Elections can succeed: with the receiver of section 5.3 of the Raft paper a candidate whose log continues the
    voter's is never refused for its log. As written it can be, because the tail that is kept may end in an older
    term than what was put in front of it. */
module RaftGrants {
  import opened RaftTypes
  import opened RaftNode
  import opened RaftWorld
  import opened RaftElection
  import opened RaftReplication
  import opened RaftLog
  import opened RaftHandlers
  import opened RaftScript
  import RaftSnapshotAhead

  lemma LogOrigin(c: Config, w: World, n: nat)
    requires LogInv(c, w) && n < |w.nodes|
    ensures w.nodes[n].snapIndex == w.nodes[n].snapTerm == 0 && FromTermLogs(w.termLogs, w.nodes[n].logs)
    ensures forall i :: 0 <= i < |w.nodes[n].logs| ==> w.nodes[n].logs[i].logTerm >= 1
    ensures forall t :: t in w.termLogs ==> EntryTerms(w.termLogs[t], t)
  {
    LogParts(c, w);
    hide ElectionInv, LeaderLogsOk, AcceptedOk, RoundsOk, AppendRpcsOk, PersistInv, VotesInv, CompleteInv, CandidatesOk,
      FromTermLogs;
    assert LogOk(w.nodes[n].logs, w.nodes[n].term);
  }

  /** In every run of section 5.3 a server gives its vote, in a later term, to one whose log continues its own. */
  lemma ContinuationGetsVote(c: Config, run: seq<World>, i: nat, voter: nat, candidate: nat, term: int)
    requires IsRun(c, run) && i < |run| && !c.compaction && c.receiver == Section53
    requires voter < |run[i].nodes| && candidate < |run[i].nodes| && term > run[i].nodes[voter].term
    requires run[i].nodes[voter].logs <= run[i].nodes[candidate].logs
    ensures HandleVote(run[i].nodes[voter], MakeVoteArgs(run[i].nodes[candidate].(term := term))).1.voteGranted
  {
    hide IsRun, HandleVote, FromTermLogs, LogInv, EntryTerms;
    RunLog(c, run, i);
    var v, n := run[i].nodes[voter], run[i].nodes[candidate];
    LogOrigin(c, run[i], voter);
    LogOrigin(c, run[i], candidate);
    if v.logs != [] { TermsAscend(run[i].termLogs, n.logs, |v.logs| - 1, |n.logs| - 1); }
    ExtensionGetsVote(v, n.(term := term), LastIndex(n), LastTerm(n), LastIndex(v), LastTerm(v));
  }

  /** As written it is refused here, whatever the term: server 1 holds x, y and c, server 2 only x and y. */
  lemma ContinuationRefusedAsWritten() returns (w: World)
    ensures Reachable(RaftSnapshotAhead.FIVE, w) && |w.nodes| == 5 && w.nodes[2].logs < w.nodes[1].logs
    ensures forall term :: !HandleVote(w.nodes[2], MakeVoteArgs(w.nodes[1].(term := term))).1.voteGranted
  {
    hide Reachable, HandleVote;
    w := RaftSnapshotAhead.Commits();
    var v, n := w.nodes[2], w.nodes[1];
    forall term ensures !HandleVote(v, MakeVoteArgs(n.(term := term))).1.voteGranted {
      VoteOutcome(v, MakeVoteArgs(n.(term := term)), 2, 2);
    }
  }
}
