/** Sections 5.3 and 5.4 of the Raft paper without compaction, for a receiver that drops the entries that
    follow a conflict: Log Matching, Leader Completeness and State Machine Safety in every run.

    Log Matching rests on one invariant: each entry sits on the same prefix as in the log of the leader of its
    term. Leader Completeness rests on what acknowledging an index commits a node to: until some later leader
    whose own log lacks the acknowledged prefix comes along, the node's log keeps it, so the votes it gives
    elect leaders that hold it. */
module RaftLog {
  import opened RaftTypes
  import opened RaftNode
  import opened RaftWorld
  import opened RaftElection
  import opened RaftRounds
  import opened RaftReplication
  import opened Quorums

  // ---------- log matching ----------

  /** Each entry of the log is preceded by what precedes it in the log of its term's leader. */
  ghost predicate FromTermLogs(tl: TermLogs, logs: seq<LogEntry>) {
    forall i :: 0 <= i < |logs| ==> logs[i].logTerm in tl && logs[..i + 1] <= tl[logs[i].logTerm]
  }

  /** Log Matching between two logs. */
  ghost predicate Matching(a: seq<LogEntry>, b: seq<LogEntry>) {
    forall i :: 0 <= i < |a| && i < |b| && a[i].logTerm == b[i].logTerm ==> a[..i + 1] == b[..i + 1]
  }

  lemma FromTermLogsMatch(tl: TermLogs, a: seq<LogEntry>, b: seq<LogEntry>)
    requires FromTermLogs(tl, a) && FromTermLogs(tl, b)
    ensures Matching(a, b)
  {
    forall i | 0 <= i < |a| && i < |b| && a[i].logTerm == b[i].logTerm ensures a[..i + 1] == b[..i + 1] {
      assert a[..i + 1] <= tl[a[i].logTerm] && b[..i + 1] <= tl[a[i].logTerm];
    }
  }

  lemma FromTermLogsKept(tl: TermLogs, tl': TermLogs, logs: seq<LogEntry>)
    requires FromTermLogs(tl, logs) && TermLogsIncrease(tl, tl')
    ensures FromTermLogs(tl', logs)
  {
    forall i | 0 <= i < |logs| ensures logs[i].logTerm in tl' && logs[..i + 1] <= tl'[logs[i].logTerm] {
      assert logs[..i + 1] <= tl[logs[i].logTerm] <= tl'[logs[i].logTerm];
    }
  }

  lemma FromTermLogsPrefix(tl: TermLogs, logs: seq<LogEntry>, k: nat)
    requires FromTermLogs(tl, logs) && k <= |logs|
    ensures FromTermLogs(tl, logs[..k])
  {
    forall i | 0 <= i < k ensures logs[..k][i].logTerm in tl && logs[..k][..i + 1] <= tl[logs[..k][i].logTerm] {
      assert logs[..k][..i + 1] == logs[..i + 1];
    }
  }

  /** Terms never fall along a log. */
  lemma TermsAscend(tl: TermLogs, logs: seq<LogEntry>, i: nat, j: nat)
    requires FromTermLogs(tl, logs) && i <= j < |logs|
    requires forall t :: t in tl ==> EntryTerms(tl[t], t)
    ensures logs[i].logTerm <= logs[j].logTerm
  {
    var t := logs[j].logTerm;
    assert logs[..j + 1] <= tl[t];
    assert logs[i] == logs[..j + 1][i] == tl[t][i];
  }

  /** Logs that agree on the term at an index agree up to it. */
  lemma AgreeUpTo(tl: TermLogs, a: seq<LogEntry>, b: seq<LogEntry>, k: nat)
    requires FromTermLogs(tl, a) && FromTermLogs(tl, b) && k <= |a| && k <= |b|
    requires (forall i :: 0 <= i < |a| ==> a[i].logTerm >= 1) && forall i :: 0 <= i < |b| ==> b[i].logTerm >= 1
    requires TermIn(a, k) == TermIn(b, k)
    ensures a[..k] == b[..k]
  {
    if k > 0 {
      FromTermLogsMatch(tl, a, b);
      assert a[..k - 1 + 1] == b[..k - 1 + 1];
    }
  }

  // ---------- the merge against a leader's log ----------

  /** A log that passes the consistency check against a request cut from `leader`'s log. */
  ghost predicate Follows(tl: TermLogs, logs: seq<LogEntry>, leader: seq<LogEntry>, end: int, a: AppendArgs) {
    && FromTermLogs(tl, logs) && FromTermLogs(tl, leader)
    && (forall i :: 0 <= i < |logs| ==> logs[i].logTerm >= 1)
    && (forall i :: 0 <= i < |leader| ==> leader[i].logTerm >= 1)
    && CarriesSlice(leader, end, a) && a.prevLogIndex <= |logs|
    && TermIn(logs, a.prevLogIndex) == a.prevLogTerm
  }

  /** Where a stored entry has the term of the sent one, it is the sent one. */
  lemma SameTermSameEntry(tl: TermLogs, logs: seq<LogEntry>, leader: seq<LogEntry>, end: int, a: AppendArgs, i: nat)
    requires Follows(tl, logs, leader, end, a) && i < |a.entries| && a.prevLogIndex + i < |logs|
    requires logs[a.prevLogIndex + i].logTerm == a.entries[i].logTerm
    ensures logs[a.prevLogIndex + i] == a.entries[i]
  {
    var k := a.prevLogIndex + i;
    assert a.entries[i] == leader[k];
    FromTermLogsMatch(tl, logs, leader);
    assert logs[k] == logs[..k + 1][k] == leader[..k + 1][k];
  }

  lemma OverlayIsLeaders(tl: TermLogs, logs: seq<LogEntry>, leader: seq<LogEntry>, end: int, a: AppendArgs)
    requires Follows(tl, logs, leader, end, a)
    ensures Overlay(logs, a.prevLogIndex, a.entries) == leader[..end]
    ensures !Clash(logs, a.prevLogIndex, a.entries)
  {
    var at := a.prevLogIndex;
    forall i: nat | i < |a.entries| && at + i < |logs| && logs[at + i].logTerm == a.entries[i].logTerm
      ensures logs[at + i] == a.entries[i]
    {
      SameTermSameEntry(tl, logs, leader, end, a, i);
    }
    AgreeUpTo(tl, logs, leader, at);
    hide FromTermLogs;
    var slots := Overlay(logs, at, a.entries)[at..];
    assert slots == a.entries;
    assert leader[..end] == leader[..at] + leader[at..end];
  }

  /** The receiver of section 5.3 either keeps a log that already extends the leader's slice, or ends up with
      exactly the leader's log through the slice. */
  lemma MergeFollowsLeader(tl: TermLogs, logs: seq<LogEntry>, leader: seq<LogEntry>, end: int, a: AppendArgs)
    requires Follows(tl, logs, leader, end, a)
    ensures var r := Merge(Section53, logs, a.prevLogIndex, a.entries);
            && leader[..end] <= r && (r == leader[..end] || r == logs)
  {
    OverlayIsLeaders(tl, logs, leader, end, a);
    if !Conflicts(logs, a.prevLogIndex, a.entries) && end <= |logs| {
      NoConflictAgrees(tl, logs, leader, end, a);
      assert logs[..end] + logs[end..] == logs;
    }
    hide Conflicts, Overlay, FromTermLogs, LogOk;
  }

  /** Without a conflict the stored entries are the leader's through the end of the request. */
  lemma NoConflictAgrees(tl: TermLogs, logs: seq<LogEntry>, leader: seq<LogEntry>, end: int, a: AppendArgs)
    requires Follows(tl, logs, leader, end, a) && !Conflicts(logs, a.prevLogIndex, a.entries) && end <= |logs|
    requires Overlay(logs, a.prevLogIndex, a.entries) == leader[..end]
    ensures logs[..end] == leader[..end]
  {
    var at := a.prevLogIndex;
    hide FromTermLogs, LogOk;
    forall i | 0 <= i < end ensures logs[i] == leader[..end][i] {
      if i < at {
        assert Overlay(logs, at, a.entries)[i] == logs[i];
      } else {
        assert logs[at + (i - at)].logTerm == a.entries[i - at].logTerm;
        assert Overlay(logs, at, a.entries)[i] == logs[i];
      }
    }
  }

  /** What log and leader have in common survives the merge. */
  lemma MergeKeepsCommonPrefix(tl: TermLogs, logs: seq<LogEntry>, leader: seq<LogEntry>, end: int, a: AppendArgs,
                               p: seq<LogEntry>)
    requires Follows(tl, logs, leader, end, a) && p <= logs && p <= leader
    ensures p <= Merge(Section53, logs, a.prevLogIndex, a.entries)
  {
    MergeFollowsLeader(tl, logs, leader, end, a);
    if |p| > end {
      NoConflictInCommon(logs, leader, end, a, p);
      OverlayIsLeaders(tl, logs, leader, end, a);
      hide Overlay, Conflicts, Follows;
      assert leader[..end] == p[..end] == logs[..end];
      assert leader[..end] + logs[end..] == logs;
    }
  }

  lemma NoConflictInCommon(logs: seq<LogEntry>, leader: seq<LogEntry>, end: int, a: AppendArgs, p: seq<LogEntry>)
    requires CarriesSlice(leader, end, a) && p <= logs && p <= leader && end < |p| && a.prevLogIndex <= |logs|
    ensures !Conflicts(logs, a.prevLogIndex, a.entries)
  {
    var at := a.prevLogIndex;
    forall i | 0 <= i < |a.entries| && at + i < |logs| ensures logs[at + i].logTerm == a.entries[i].logTerm {
      assert a.entries[i] == leader[at + i] == p[at + i] == logs[at + i];
    }
  }

  // ---------- invariants ----------

  ghost predicate MatchInv(w: World) {
    && (forall t :: t in w.termLogs ==> FromTermLogs(w.termLogs, w.termLogs[t]))
    && forall n :: 0 <= n < |w.nodes| ==> FromTermLogs(w.termLogs, w.nodes[n].logs)
  }

  /** Node n has acknowledged the log of term t through index c, which holds an entry of that term. */
  ghost predicate Pledged(w: World, n: nat, t: int, c: int) {
    t in w.termLogs && 1 <= c <= |w.termLogs[t]| && c <= Accepted(w, n, t) && w.termLogs[t][c - 1].logTerm == t
  }

  /** The log of term u does not start with the first c entries of the log of term t. */
  ghost predicate Lacks(w: World, t: int, c: int, u: int) {
    t in w.termLogs && 0 <= c <= |w.termLogs[t]| && u in w.termLogs && !(w.termLogs[t][..c] <= w.termLogs[u])
  }

  /** This log starts with the first c entries of term t's log, or some term after t and up to `bound` had a
      leader without them. */
  ghost predicate Kept(w: World, t: int, c: int, logs: seq<LogEntry>, bound: int) {
    && t in w.termLogs && 0 <= c <= |w.termLogs[t]|
    && (w.termLogs[t][..c] <= logs || exists u :: t < u <= bound && Lacks(w, t, c, u))
  }

  ghost predicate PersistAt(w: World, n: nat)
    requires n < |w.nodes|
  {
    forall t: int, c: int :: Pledged(w, n, t, c) ==> Kept(w, t, c, w.nodes[n].logs, w.nodes[n].term)
  }

  /** What a node has acknowledged its log keeps. */
  ghost predicate PersistInv(w: World) { forall n :: 0 <= n < |w.nodes| ==> PersistAt(w, n) }

  /** A vote for a candidate that has not won yet covers what the voter acknowledged in earlier terms. */
  ghost predicate VoteCovers(w: World, v: nat, term: int, cand: nat)
    requires cand < |w.nodes|
  {
    term !in w.termLogs && w.nodes[cand].term == term ==>
      forall t: int, c: int :: t < term && Pledged(w, v, t, c) ==> Kept(w, t, c, w.nodes[cand].logs, term - 1)
  }

  ghost predicate VoteOk(w: World, v: nat, term: int)
    requires (v, term) in w.ballots
  {
    && w.ballots[(v, term)] < |w.nodes| && term <= w.nodes[w.ballots[(v, term)]].term
    && VoteCovers(w, v, term, w.ballots[(v, term)])
  }

  ghost predicate VotesInv(w: World) { forall v: nat, term: int :: (v, term) in w.ballots ==> VoteOk(w, v, term) }

  /** The term's electors were a majority, and its log covers what they acknowledged in earlier terms. */
  ghost predicate ElectedOk(c: Config, w: World, term: int)
    requires term in w.termLogs
  {
    && term in w.electors && IsQuorum(w.electors[term], c.peers) && |w.nodes| == c.peers
    && forall n :: n in w.electors[term] ==>
         && term <= w.nodes[n].term
         && forall t: int, k: int :: t < term && Pledged(w, n, t, k) ==> Kept(w, t, k, w.termLogs[term], term - 1)
  }

  ghost predicate CompleteInv(c: Config, w: World) { forall t :: t in w.termLogs ==> ElectedOk(c, w, t) }

  /** A vote request still under way describes its candidate's log while the candidate may still win. */
  ghost predicate CandidatesOk(w: World) {
    forall id :: id in w.voteRpcs && w.voteRpcs[id].VoteSent? && id.candidate < |w.nodes|
                 && w.nodes[id.candidate].term == id.term && id.term !in w.termLogs ==>
      && w.voteRpcs[id].args.lastLogIndex == |w.nodes[id.candidate].logs|
      && w.voteRpcs[id].args.lastLogTerm == TermIn(w.nodes[id.candidate].logs, |w.nodes[id.candidate].logs|)
  }

  ghost predicate LogInv(c: Config, w: World) {
    && c.receiver == Section53 && ReplicationInv(c, w)
    && MatchInv(w) && PersistInv(w) && VotesInv(w) && CompleteInv(c, w) && CandidatesOk(w)
  }

  // ---------- what a step may do ----------

  /** Logs of terms grow by entries of their own term only. */
  ghost predicate OwnGrowth(tl: TermLogs, tl': TermLogs) {
    && TermLogsIncrease(tl, tl')
    && forall u, i :: u in tl && |tl[u]| <= i < |tl'[u]| ==> tl'[u][i].logTerm == u
  }

  lemma OneTermGrows(tl: TermLogs, term: int, logs: seq<LogEntry>)
    requires term in tl ==> tl[term] <= logs && forall i :: |tl[term]| <= i < |logs| ==> logs[i].logTerm == term
    ensures OwnGrowth(tl, tl[term := logs])
  {}

  /** Every vote request still pending was pending before. */
  ghost predicate NoNewRequests(w: World, w': World) {
    forall id :: id in w'.voteRpcs && w'.voteRpcs[id].VoteSent? ==>
      id in w.voteRpcs && w'.voteRpcs[id] == w.voteRpcs[id]
  }

  lemma LacksStays(w: World, w': World, t: int, c: int, u: int)
    requires OwnGrowth(w.termLogs, w'.termLogs) && Lacks(w, t, c, u) && t < u && c >= 1
        && w.termLogs[t][c - 1].logTerm == t
    ensures Lacks(w', t, c, u) && w'.termLogs[t][..c] == w.termLogs[t][..c]
  {
    var p := w.termLogs[t][..c];
    assert w'.termLogs[t][..c] == p;
    assert p[c - 1].logTerm == t;
    assert |w.termLogs[u]| < c <= |w'.termLogs[u]| ==> w'.termLogs[u][c - 1].logTerm == u;
  }

  lemma KeptStays(w: World, w': World, t: int, c: int, logs: seq<LogEntry>, logs': seq<LogEntry>, b: int, b': int)
    requires OwnGrowth(w.termLogs, w'.termLogs) && Kept(w, t, c, logs, b) && b <= b'
    requires c >= 1 && w.termLogs[t][c - 1].logTerm == t
    requires w.termLogs[t][..c] <= logs ==>
               w.termLogs[t][..c] <= logs' || exists u :: t < u <= b' && Lacks(w', t, c, u)
    ensures Kept(w', t, c, logs', b')
  {
    assert w'.termLogs[t][..c] == w.termLogs[t][..c];
    if !(w.termLogs[t][..c] <= logs) {
      var u :| t < u <= b && Lacks(w, t, c, u);
      LacksStays(w, w', t, c, u);
    }
  }

  /** New acknowledgements are node m's, in term T; only m's log may change. */
  ghost predicate Moves(w: World, w': World, m: nat, T: int) {
    && m < |w.nodes| == |w'.nodes| && OwnGrowth(w.termLogs, w'.termLogs)
    && (forall n: nat, t: int :: (n, t) != (m, T) ==> Accepted(w', n, t) == Accepted(w, n, t))
    && Accepted(w, m, T) <= Accepted(w', m, T)
    && (forall n :: 0 <= n < |w.nodes| ==> w.nodes[n].term <= w'.nodes[n].term)
    && (forall n :: 0 <= n < |w.nodes| && n != m ==> w'.nodes[n].logs == w.nodes[n].logs)
    && (w'.nodes[m].logs == w.nodes[m].logs || w'.nodes[m].term in w'.termLogs)
    && w'.nodes[m].term == T
  }

  lemma PledgedBefore(w: World, w': World, m: nat, T: int, n: nat, t: int, c: int)
    requires Moves(w, w', m, T) && AcceptedOk(w) && Pledged(w', n, t, c) && (n, t) != (m, T)
    ensures Pledged(w, n, t, c)
  {
    AcceptedBound(w, n, t);
    assert Accepted(w', n, t) == Accepted(w, n, t);
    assert w.termLogs[t] <= w'.termLogs[t];
  }

  lemma OthersPersist(w: World, w': World, m: nat, T: int, n: nat)
    requires Moves(w, w', m, T) && AcceptedOk(w) && PersistInv(w) && n < |w.nodes|
    requires n != m || (w'.nodes[m].logs == w.nodes[m].logs && Accepted(w', m, T) == Accepted(w, m, T))
    ensures PersistAt(w', n)
  {
    assert PersistAt(w, n);
    forall t: int, c: int | Pledged(w', n, t, c) ensures Kept(w', t, c, w'.nodes[n].logs, w'.nodes[n].term) {
      if (n, t) != (m, T) {
        PledgedBefore(w, w', m, T, n, t, c);
      } else {
        AcceptedBound(w, n, t);
      }
      assert Pledged(w, n, t, c);
      KeptStays(w, w', t, c, w.nodes[n].logs, w'.nodes[n].logs, w.nodes[n].term, w'.nodes[n].term);
    }
  }

  lemma VoteStaysCovering(w: World, w': World, m: nat, T: int, v: nat, term: int, cand: nat)
    requires Moves(w, w', m, T) && AcceptedOk(w) && cand < |w.nodes| && VoteCovers(w, v, term, cand)
    requires v < |w.nodes| && term <= w'.nodes[v].term && term <= w.nodes[cand].term
    ensures term <= w'.nodes[cand].term && VoteCovers(w', v, term, cand)
  {
    if term !in w'.termLogs && w'.nodes[cand].term == term {
      assert w'.nodes[cand].logs == w.nodes[cand].logs && w.nodes[cand].term == term;
      forall t: int, c: int | t < term && Pledged(w', v, t, c) ensures Kept(w', t, c, w'.nodes[cand].logs, term - 1) {
        PledgedBefore(w, w', m, T, v, t, c);
        KeptStays(w, w', t, c, w.nodes[cand].logs, w'.nodes[cand].logs, term - 1, term - 1);
      }
    }
  }

  lemma OldElectedOk(c: Config, w: World, w': World, m: nat, T: int, term: int)
    requires Moves(w, w', m, T) && AcceptedOk(w) && term in w.termLogs && ElectedOk(c, w, term)
    requires term in w'.electors && w'.electors[term] == w.electors[term]
    ensures term in w'.termLogs && ElectedOk(c, w', term)
  {
    forall n | n in w'.electors[term]
      ensures term <= w'.nodes[n].term
      ensures forall t: int, k: int :: t < term && Pledged(w', n, t, k) ==> Kept(w', t, k, w'.termLogs[term], term - 1)
    {
      forall t: int, k: int | t < term && Pledged(w', n, t, k) ensures Kept(w', t, k, w'.termLogs[term], term - 1) {
        PledgedBefore(w, w', m, T, n, t, k);
        assert w.termLogs[term] <= w'.termLogs[term];
        KeptStays(w, w', t, k, w.termLogs[term], w'.termLogs[term], term - 1, term - 1);
      }
    }
  }

  lemma CandidatesKept(c: Config, w: World, w': World, m: nat, T: int)
    requires ElectionInv(c, w) && Moves(w, w', m, T) && CandidatesOk(w)
    requires NoNewRequests(w, w')
    ensures CandidatesOk(w')
  {
    forall id | id in w'.voteRpcs && w'.voteRpcs[id].VoteSent? && id.candidate < |w'.nodes|
                && w'.nodes[id.candidate].term == id.term && id.term !in w'.termLogs
      ensures w'.nodes[id.candidate].logs == w.nodes[id.candidate].logs && w.nodes[id.candidate].term == id.term
    {
      assert VoteRpcOk(w, id) && CountOk(w, id.candidate, id.term);
    }
  }

  // ---------- votes ----------

  /** A candidate whose log is at least as up to date as the voter's keeps what the voter's log keeps. */
  lemma UpToDateKeeps(w: World, t: int, k: int, voter: seq<LogEntry>, cand: seq<LogEntry>, b: int, term: int)
    requires FromTermLogs(w.termLogs, voter) && FromTermLogs(w.termLogs, cand) && TermLogsOk(w)
    requires EntryTerms(cand, term) && EntryTerms(voter, term) && term !in w.termLogs
    requires Kept(w, t, k, voter, b) && b <= term && k >= 1 && w.termLogs[t][k - 1].logTerm == t && t < term
    requires var lc, lv := TermIn(cand, |cand|), TermIn(voter, |voter|);
             lc > lv || (lc == lv && |cand| >= |voter|)
    ensures Kept(w, t, k, cand, term - 1)
  {
    var p := w.termLogs[t][..k];
    if p <= voter {
      TermsAscend(w.termLogs, voter, k - 1, |voter| - 1);
      var last := TermIn(cand, |cand|);
      assert voter[k - 1] == p[k - 1];
      assert cand[..|cand| - 1 + 1] <= w.termLogs[last] && cand == cand[..|cand| - 1 + 1];
      if last == TermIn(voter, |voter|) {
        assert voter[..|voter| - 1 + 1] <= w.termLogs[last] && voter == voter[..|voter| - 1 + 1];
        assert voter <= cand;
      } else if p <= w.termLogs[last] {
        LaterLogCovers(w, t, k, cand, last);
      } else {
        assert Lacks(w, t, k, last);
      }
    } else {
      var u :| t < u <= b && Lacks(w, t, k, u);
      assert u != term;
    }
  }

  /** A log that ends in a later term is long enough to hold the prefix its term's log has. */
  lemma LaterLogCovers(w: World, t: int, k: int, cand: seq<LogEntry>, last: int)
    requires TermLogsOk(w) && t in w.termLogs && 1 <= k <= |w.termLogs[t]| && w.termLogs[t][k - 1].logTerm == t
    requires FromTermLogs(w.termLogs, cand) && |cand| > 0 && cand[|cand| - 1].logTerm == last > t
    requires last in w.termLogs && cand <= w.termLogs[last] && w.termLogs[t][..k] <= w.termLogs[last]
    ensures w.termLogs[t][..k] <= cand
  {
    assert EntryTerms(w.termLogs[t], t);
    var p := w.termLogs[t][..k];
    assert forall i {:trigger cand[i]} :: 0 <= i < |cand| && i < k ==> cand[i] == p[i] == w.termLogs[t][i];
  }

  /** What a granted vote says about the two logs while the candidate may still win. */
  lemma GrantCompares(c: Config, w: World, id: VoteId)
    requires LogInv(c, w) && CanDeliverVote(w, id)
    requires HandleVote(w.nodes[id.voter], w.voteRpcs[id].args).1.voteGranted
    ensures id.candidate < |w.nodes| && id.term <= w.nodes[id.candidate].term && w.nodes[id.voter].term <= id.term
    ensures id.term !in w.termLogs && w.nodes[id.candidate].term == id.term ==>
              var voter, cand := w.nodes[id.voter].logs, w.nodes[id.candidate].logs;
              var lc, lv := TermIn(cand, |cand|), TermIn(voter, |voter|);
              lc > lv || (lc == lv && |cand| >= |voter|)
  {
    assert VoteRpcOk(w, id) && CountOk(w, id.candidate, id.term);
    assert w.nodes[id.voter].snapTerm == 0 && w.nodes[id.voter].snapIndex == 0;
    GrantMeans(w.nodes[id.voter], w.voteRpcs[id].args);
    hide ReplicationInv, PersistInv, VotesInv, CompleteInv, MatchInv, HandleVote, VoteRpcOk, CountOk;
  }

  lemma GrantMeans(n: Node, a: VoteArgs)
    requires HandleVote(n, a).1.voteGranted
    ensures n.term <= a.term
    ensures a.lastLogTerm > LastTerm(n) || (a.lastLogTerm == LastTerm(n) && a.lastLogIndex >= LastIndex(n))
  {}

  lemma GrantCovers(c: Config, w: World, id: VoteId)
    requires LogInv(c, w) && CanDeliverVote(w, id)
    requires HandleVote(w.nodes[id.voter], w.voteRpcs[id].args).1.voteGranted
    ensures id.candidate < |w.nodes| && id.term <= w.nodes[id.candidate].term
    ensures VoteCovers(w, id.voter, id.term, id.candidate)
  {
    hide HandleVote, ElectionInv, LeaderLogsOk, AcceptedOk, VotesInv, CompleteInv, CandidatesOk;
    GrantCompares(c, w, id);
    var v, cand := w.nodes[id.voter], w.nodes[id.candidate];
    ReplicationParts(c, w);
    hide ReplicationInv;
    assert EntryTerms(v.logs, id.term) && EntryTerms(cand.logs, cand.term);
    assert PersistAt(w, id.voter);
    if id.term !in w.termLogs && cand.term == id.term {
      forall t: int, k: int | t < id.term && Pledged(w, id.voter, t, k) ensures Kept(w, t, k, cand.logs, id.term - 1) {
        UpToDateKeeps(w, t, k, v.logs, cand.logs, v.term, id.term);
      }
    }
  }

  // ---------- the node that moves ----------

  lemma WinnerPersists(c: Config, w: World, w': World, n: nat)
    requires LogInv(c, w) && Won(w, w', n) && Moves(w, w', n, w.nodes[n].term)
    ensures PersistAt(w', n)
  {
    var T := w.nodes[n].term;
    assert PersistAt(w, n);
    ReplicationParts(c, w);
    assert FromTermLogs(w.termLogs, w.nodes[n].logs);
    assert forall i :: 0 <= i < |w'.termLogs[T]| ==> w'.termLogs[T][i].logTerm != T;
    hide ReplicationInv, VotesInv, CompleteInv, CandidatesOk;
    forall t: int, k: int | Pledged(w', n, t, k) ensures Kept(w', t, k, w'.nodes[n].logs, w'.nodes[n].term) {
      PledgedBefore(w, w', n, T, n, t, k);
      KeptStays(w, w', t, k, w.nodes[n].logs, w'.nodes[n].logs, w.nodes[n].term, w'.nodes[n].term);
    }
  }

  lemma ReplicationParts(c: Config, w: World)
    requires ReplicationInv(c, w)
    ensures ElectionInv(c, w) && NodeLogsOk(w) && TermLogsOk(w) && LeaderLogsOk(w) && AcceptedOk(w)
  {}

  lemma WriterPersists(c: Config, w: World, w': World, n: nat)
    requires LogInv(c, w) && Appended(w, w', n) && Moves(w, w', n, w.nodes[n].term)
    ensures PersistAt(w', n)
  {
    hide ReplicationInv, MatchInv, VotesInv, CompleteInv, CandidatesOk, ElectionInv, NodeLogsOk, TermLogsOk,
      LeaderLogsOk, AcceptedOk;
    var T := w.nodes[n].term;
    LogParts(c, w);
    ReplicationParts(c, w);
    assert PersistAt(w, n);
    hide LogInv, PersistInv;
    forall t: int, k: int | Pledged(w', n, t, k) ensures Kept(w', t, k, w'.nodes[n].logs, w'.nodes[n].term) {
      if t != T { WriterKept(w, w', n, t, k); } else { OwnLogKept(w, w', n, k); }
    }
  }

  lemma WriterKept(w: World, w': World, n: nat, t: int, k: int)
    requires AcceptedOk(w) && Appended(w, w', n) && Moves(w, w', n, w.nodes[n].term) && PersistAt(w, n)
    requires Pledged(w', n, t, k) && t != w.nodes[n].term
    ensures Kept(w', t, k, w'.nodes[n].logs, w'.nodes[n].term)
  {
    hide AcceptedOk, Moves;
    PledgedBefore(w, w', n, w.nodes[n].term, n, t, k);
    MovesGrowth(w, w', n, w.nodes[n].term);
    hide Kept;
    KeptStays(w, w', t, k, w.nodes[n].logs, w'.nodes[n].logs, w.nodes[n].term, w'.nodes[n].term);
  }

  lemma OwnLogKept(w: World, w': World, n: nat, k: int)
    requires Appended(w, w', n) && Pledged(w', n, w.nodes[n].term, k)
    ensures Kept(w', w.nodes[n].term, k, w'.nodes[n].logs, w'.nodes[n].term)
  {}

  lemma MovesGrowth(w: World, w': World, m: nat, T: int)
    requires Moves(w, w', m, T)
    ensures OwnGrowth(w.termLogs, w'.termLogs)
  {}

  /** A request and the log that accepts it are as the merge lemmas ask. */
  lemma AcceptedFollows(c: Config, w: World, w': World, id: AppendId, a: AppendArgs, r: AppendReply)
    requires LogInv(c, w) && AppendHandled(c, w, w', id, a, r) && r.success
    ensures a.term in w.termLogs && id.round < |w.rounds|
    ensures Follows(w.termLogs, w.nodes[id.to].logs, w.termLogs[a.term], EndOf(a), a)
  {
    assert AppendRpcOk(w, id);
    assert LogOk(w.nodes[id.to].logs, w.nodes[id.to].term) && LogOk(w.termLogs[a.term], a.term);
  }

  /** An earlier pledge survives the merge, or the leader it follows lacks it. */
  lemma PledgeSurvives(w: World, w': World, n: nat, T: int, end: int, a: AppendArgs, t: int, k: int)
    requires n < |w.nodes| && T in w.termLogs && Follows(w.termLogs, w.nodes[n].logs, w.termLogs[T], end, a)
    requires w'.termLogs == w.termLogs && n < |w'.nodes|
    requires w'.nodes[n].logs == Merge(Section53, w.nodes[n].logs, a.prevLogIndex, a.entries)
    requires Pledged(w, n, t, k) && Kept(w, t, k, w.nodes[n].logs, w.nodes[n].term)
    requires t <= w.nodes[n].term <= T
    ensures Kept(w', t, k, w'.nodes[n].logs, T)
  {
    var p := w.termLogs[t][..k];
    hide FromTermLogs, Merge;
    if p <= w.nodes[n].logs {
      if p <= w.termLogs[T] {
        MergeKeepsCommonPrefix(w.termLogs, w.nodes[n].logs, w.termLogs[T], end, a, p);
      } else {
        assert Lacks(w', t, k, T);
      }
    } else {
      var u :| t < u <= w.nodes[n].term && Lacks(w, t, k, u);
      assert Lacks(w', t, k, u);
    }
  }

  lemma MergedPersists(w: World, w': World, n: nat, T: int, end: int, a: AppendArgs)
    requires n < |w.nodes| && n < |w'.nodes| && AcceptedOk(w) && PersistAt(w, n)
    requires T in w.termLogs && Follows(w.termLogs, w.nodes[n].logs, w.termLogs[T], end, a)
    requires w'.termLogs == w.termLogs && w.nodes[n].term <= T == w'.nodes[n].term
    requires w'.nodes[n].logs == Merge(Section53, w.nodes[n].logs, a.prevLogIndex, a.entries)
    requires forall t: int :: t != T ==> Accepted(w', n, t) == Accepted(w, n, t)
    requires Accepted(w', n, T) == Max(Accepted(w, n, T), end)
    ensures PersistAt(w', n)
  {
    MergeFollowsLeader(w.termLogs, w.nodes[n].logs, w.termLogs[T], end, a);
    hide Merge, Follows, Accepted;
    forall t: int, k: int | Pledged(w', n, t, k) ensures Kept(w', t, k, w'.nodes[n].logs, T) {
      if t == T && k <= end {
        assert w.termLogs[T][..k] <= w.termLogs[T][..end];
      } else {
        AcceptedBound(w, n, t);
        assert Pledged(w, n, t, k);
        PledgeSurvives(w, w', n, T, end, a, t, k);
      }
    }
  }

  lemma FollowerPersists(c: Config, w: World, w': World, id: AppendId, a: AppendArgs, r: AppendReply)
    requires LogInv(c, w) && AppendHandled(c, w, w', id, a, r) && r.success
    ensures PersistAt(w', id.to)
  {
    hide ReplicationInv, MatchInv, VotesInv, CompleteInv, CandidatesOk, Merge, Follows, PersistAt, ElectionInv,
      NodeLogsOk, TermLogsOk, LeaderLogsOk, AcceptedOk;
    AcceptedFollows(c, w, w', id, a, r);
    assert PersistAt(w, id.to);
    ReplicationParts(c, w);
    hide PersistInv;
    MergedPersists(w, w', id.to, a.term, EndOf(a), a);
  }

  // ---------- putting a step together ----------

  /** The parts of the invariant that concern the node that moved, new ballots and new terms. */
  ghost predicate NewPartsOk(c: Config, w: World, w': World, m: nat) {
    && MatchInv(w') && CandidatesOk(w') && m < |w'.nodes| && PersistAt(w', m)
    && (forall v: nat, term: int :: (v, term) in w'.ballots
                                    && !((v, term) in w.ballots && w.ballots[(v, term)] == w'.ballots[(v, term)]) ==>
          VoteOk(w', v, term))
    && (forall t :: t in w.electors && t in w.termLogs ==> t in w'.electors && w'.electors[t] == w.electors[t])
    && (forall t :: t in w'.termLogs && t !in w.termLogs ==> ElectedOk(c, w', t))
  }

  lemma MoveKeeps(c: Config, w: World, w': World, m: nat, T: int)
    requires LogInv(c, w) && ReplicationInv(c, w') && Moves(w, w', m, T) && NewPartsOk(c, w, w', m)
    ensures LogInv(c, w')
  {
    hide ReplicationInv, MatchInv, CandidatesOk, PersistAt, VoteCovers, Moves, AcceptedOk, NodeLogsOk, TermLogsOk,
      LeaderLogsOk, ElectionInv, ElectedOk;
    ReplicationParts(c, w);
    BallotBounds(c, w);
    MovesSize(w, w', m, T);
    OldTermsMoved(w, w');
    forall n: nat | n < |w'.nodes| ensures PersistAt(w', n) {
      if n != m { OthersPersist(w, w', m, T, n); }
    }
    forall v: nat, term: int | (v, term) in w'.ballots ensures VoteOk(w', v, term) {
      if (v, term) in w.ballots && w.ballots[(v, term)] == w'.ballots[(v, term)] {
        assert VoteOk(w, v, term);
        TermsRise(w, w', m, T, v);
        VoteStaysCovering(w, w', m, T, v, term, w.ballots[(v, term)]);
      }
    }
    forall t | t in w'.termLogs ensures ElectedOk(c, w', t) {
      if t in w.termLogs {
        assert ElectedOk(c, w, t);
        HasElectors(c, w, t);
        OldElectedOk(c, w, w', m, T, t);
      }
    }
  }

  lemma HasElectors(c: Config, w: World, term: int)
    requires term in w.termLogs && ElectedOk(c, w, term)
    ensures term in w.electors
  {}

  lemma OldTermsMoved(w: World, w': World)
    requires TermLogsIncrease(w.termLogs, w'.termLogs)
    ensures forall t :: t in w.termLogs ==> t in w'.termLogs
  {}

  lemma MovesSize(w: World, w': World, m: nat, T: int)
    requires Moves(w, w', m, T)
    ensures |w'.nodes| == |w.nodes| && TermLogsIncrease(w.termLogs, w'.termLogs)
  {}

  lemma TermsRise(w: World, w': World, m: nat, T: int, n: nat)
    requires Moves(w, w', m, T) && n < |w.nodes|
    ensures n < |w'.nodes| && w.nodes[n].term <= w'.nodes[n].term
  {}

  lemma BallotBounds(c: Config, w: World)
    requires ElectionInv(c, w)
    ensures forall v: nat, term: int :: (v, term) in w.ballots ==> v < |w.nodes| && term <= w.nodes[v].term
  {}

  /** The step changes one node and neither its log nor any history of logs. */
  ghost predicate StillAt(w: World, w': World, m: nat) {
    && m < |w.nodes| == |w'.nodes| && w'.nodes == w.nodes[m := w'.nodes[m]]
    && w'.nodes[m].logs == w.nodes[m].logs && w.nodes[m].term <= w'.nodes[m].term
    && w'.termLogs == w.termLogs && w'.accepted == w.accepted && w'.electors == w.electors
  }

  lemma StillMoves(c: Config, w: World, w': World, m: nat)
    requires LogInv(c, w) && StillAt(w, w', m)
    ensures Moves(w, w', m, w'.nodes[m].term) && PersistAt(w', m) && MatchInv(w')
  {
    ReplicationParts(c, w);
    hide ReplicationInv, VotesInv, CompleteInv, CandidatesOk;
    OthersPersist(w, w', m, w'.nodes[m].term, m);
  }

  lemma ElectionKeepsLog(c: Config, w: World, n: nat)
    requires LogInv(c, w) && CanElect(w, n) && ReplicationInv(c, DoElection(w, n))
    ensures LogInv(c, DoElection(w, n))
  {
    hide LogInv, ReplicationInv, MatchInv, PersistAt, CandidatesOk, Moves, VoteOk, VotesInv;
    var w' := DoElection(w, n);
    assert StillAt(w, w', n);
    hide StillAt;
    StillMoves(c, w, w', n);
    NewCandidateDescribed(c, w, n);
    OwnVoteCovers(c, w, n);
    MoveKeeps(c, w, w', n, w'.nodes[n].term);
  }

  /** A new candidacy sends requests of its own term and leaves the others alone. */
  lemma ElectionRequests(w: World, n: nat)
    requires CanElect(w, n)
    ensures var w', n1 := DoElection(w, n), BecomeCandidate(w.nodes[n]);
            && w'.nodes == w.nodes[n := n1] && w'.termLogs == w.termLogs
            && forall id :: id in w'.voteRpcs ==>
                 if id.candidate == n && id.term == n1.term && id.voter < |w.nodes| && id.voter != n
                 then w'.voteRpcs[id] == VoteSent(MakeVoteArgs(n1))
                 else id in w.voteRpcs && w'.voteRpcs[id] == w.voteRpcs[id]
  {}

  lemma NewCandidateDescribed(c: Config, w: World, n: nat)
    requires LogInv(c, w) && CanElect(w, n)
    ensures CandidatesOk(DoElection(w, n))
  {
    hide MatchInv, PersistInv, VotesInv, CompleteInv, ElectionInv, TermLogsOk, LeaderLogsOk, AcceptedOk, RoundsOk,
      AppendRpcsOk, DoElection, LogOk;
    var w' := DoElection(w, n);
    ElectionRequests(w, n);
    ReplicationParts(c, w);
    ElectionOf(c, w);
    NewTermIsUnused(c, w, n, w'.nodes[n].term);
    assert w.nodes[n].snapIndex == 0 && w.nodes[n].snapTerm == 0;
    assert forall id :: id in w.voteRpcs && id.candidate == n ==> id.term != w'.nodes[n].term;
    hide NodeLogsOk;
  }

  lemma OwnVoteCovers(c: Config, w: World, n: nat)
    requires LogInv(c, w) && CanElect(w, n)
    ensures VoteOk(DoElection(w, n), n, w.nodes[n].term + 1)
  {
    hide ReplicationInv, MatchInv, VotesInv, CompleteInv, CandidatesOk, MakeVoteArgs;
    var w' := DoElection(w, n);
    assert PersistAt(w, n);
    hide LogInv, PersistInv;
    assert w'.nodes[n].logs == w.nodes[n].logs && w'.termLogs == w.termLogs && w'.accepted == w.accepted;
    forall t: int, k: int | t < w'.nodes[n].term && Pledged(w', n, t, k)
      ensures Kept(w', t, k, w'.nodes[n].logs, w'.nodes[n].term - 1)
    {
      assert Pledged(w, n, t, k) && Kept(w, t, k, w.nodes[n].logs, w.nodes[n].term);
      SameKept(w, w', t, k, w.nodes[n].logs, w.nodes[n].term);
    }
  }

  lemma SameKept(w: World, w': World, t: int, k: int, logs: seq<LogEntry>, bound: int)
    requires w'.termLogs == w.termLogs && Kept(w, t, k, logs, bound)
    ensures Kept(w', t, k, logs, bound)
  {
    assert forall u :: Lacks(w, t, k, u) ==> Lacks(w', t, k, u);
  }

  lemma DeliveryIsStill(c: Config, w: World, id: VoteId)
    requires LogInv(c, w) && CanDeliverVote(w, id)
    ensures StillAt(w, DoDeliverVote(w, id), id.voter)
    ensures id in DoDeliverVote(w, id).voteRpcs && DoDeliverVote(w, id).voteRpcs[id].VoteAnswered?
    ensures DoDeliverVote(w, id).voteRpcs[id].reply == HandleVote(w.nodes[id.voter], w.voteRpcs[id].args).1
  {
    hide LogInv;
  }

  lemma DeliveredVote(c: Config, w: World, w': World, id: VoteId, reply: VoteReply)
    requires AcceptedOk(w) && VoteDelivered(w, w', id, reply) && Moves(w, w', id.voter, w'.nodes[id.voter].term)
    requires reply.voteGranted && id.candidate < |w.nodes| && id.term <= w.nodes[id.candidate].term
    requires VoteCovers(w, id.voter, id.term, id.candidate)
    ensures (id.voter, id.term) in w'.ballots && VoteOk(w', id.voter, id.term)
  {
    var T := w'.nodes[id.voter].term;
    assert id.term == T && id.voter < |w.nodes|;
    hide VoteCovers, Moves, AcceptedOk;
    VoteStaysCovering(w, w', id.voter, T, id.voter, id.term, id.candidate);
  }

  lemma DeliveredBallots(w: World, w': World, id: VoteId, reply: VoteReply)
    requires VoteDelivered(w, w', id, reply)
    ensures NoNewRequests(w, w')
    ensures forall v: nat, term: int ::
              (v, term) in w'.ballots && !((v, term) in w.ballots && w.ballots[(v, term)] == w'.ballots[(v, term)]) ==>
                reply.voteGranted && (v, term) == (id.voter, id.term)
  {}

  lemma DeliveredParts(c: Config, w: World, w': World, id: VoteId, reply: VoteReply)
    requires LogInv(c, w) && VoteDelivered(w, w', id, reply) && StillAt(w, w', id.voter)
    requires reply.voteGranted ==>
               && id.candidate < |w.nodes| && id.term <= w.nodes[id.candidate].term
               && VoteCovers(w, id.voter, id.term, id.candidate)
    ensures NewPartsOk(c, w, w', id.voter) && Moves(w, w', id.voter, w'.nodes[id.voter].term)
  {
    hide LogInv, ReplicationInv, StillAt, MatchInv, PersistAt, Moves, CandidatesOk, VoteCovers, VoteOk, ElectionInv,
      NodeLogsOk, TermLogsOk, LeaderLogsOk, AcceptedOk, PersistInv, VotesInv, CompleteInv, NoNewRequests;
    assert id.voter < |w'.nodes|;
    hide VoteDelivered;
    var T := w'.nodes[id.voter].term;
    LogParts(c, w);
    ReplicationParts(c, w);
    StillMoves(c, w, w', id.voter);
    StillHistory(w, w', id.voter);
    DeliveredBallots(w, w', id, reply);
    CandidatesKept(c, w, w', id.voter, T);
    if reply.voteGranted { DeliveredVote(c, w, w', id, reply); }
  }

  lemma LogParts(c: Config, w: World)
    requires LogInv(c, w)
    ensures ReplicationInv(c, w) && MatchInv(w) && PersistInv(w) && VotesInv(w) && CompleteInv(c, w) && CandidatesOk(w)
  {}

  lemma DeliveredKeepsLog(c: Config, w: World, w': World, id: VoteId, reply: VoteReply)
    requires LogInv(c, w) && VoteDelivered(w, w', id, reply) && StillAt(w, w', id.voter) && ReplicationInv(c, w')
    requires reply.voteGranted ==>
               && id.candidate < |w.nodes| && id.term <= w.nodes[id.candidate].term
               && VoteCovers(w, id.voter, id.term, id.candidate)
    ensures LogInv(c, w')
  {
    DeliveredParts(c, w, w', id, reply);
    var T := w'.nodes[id.voter].term;
    hide LogInv, ReplicationInv, VoteDelivered, StillAt, NewPartsOk, Moves, VoteCovers;
    MoveKeeps(c, w, w', id.voter, T);
  }

  lemma StillHistory(w: World, w': World, m: nat)
    requires StillAt(w, w', m)
    ensures w'.termLogs == w.termLogs && w'.accepted == w.accepted && w'.electors == w.electors
  {}

  lemma DeliverVoteKeepsLog(c: Config, w: World, id: VoteId)
    requires LogInv(c, w) && CanDeliverVote(w, id) && ReplicationInv(c, DoDeliverVote(w, id))
    ensures LogInv(c, DoDeliverVote(w, id))
  {
    var w' := DoDeliverVote(w, id);
    ReplicationParts(c, w);
    DeliverVoteEffect(c, w, id);
    DeliveryIsStill(c, w, id);
    var reply := w'.voteRpcs[id].reply;
    if reply.voteGranted { GrantCovers(c, w, id); }
    hide LogInv, ReplicationInv, VoteDelivered, StillAt, HandleVote, DoDeliverVote, VoteCovers;
    DeliveredKeepsLog(c, w, w', id, reply);
  }

  // ---------- the other steps ----------

  /** The step leaves votes, their pending requests and electors alone. */
  ghost predicate VotesUntouched(w: World, w': World) {
    w'.ballots == w.ballots && w'.electors == w.electors && NoNewRequests(w, w')
  }

  lemma UntouchedKeeps(c: Config, w: World, w': World, m: nat, T: int)
    requires LogInv(c, w) && ReplicationInv(c, w') && VotesUntouched(w, w') && Moves(w, w', m, T)
    requires w'.termLogs.Keys == w.termLogs.Keys && MatchInv(w') && PersistAt(w', m)
    ensures LogInv(c, w')
  {
    ReplicationParts(c, w);
    CandidatesKept(c, w, w', m, T);
    MovesSize(w, w', m, T);
    hide LogInv, ReplicationInv, MatchInv, PersistAt, CandidatesOk, Moves, VoteOk, ElectedOk, ElectionInv, NodeLogsOk,
      TermLogsOk, LeaderLogsOk, AcceptedOk;
    assert NewPartsOk(c, w, w', m);
    MoveKeeps(c, w, w', m, T);
  }

  /** A still step that leaves votes alone. */
  lemma StillKeeps(c: Config, w: World, w': World, m: nat)
    requires LogInv(c, w) && ReplicationInv(c, w') && StillAt(w, w', m) && VotesUntouched(w, w')
    ensures LogInv(c, w')
  {
    StillMoves(c, w, w', m);
    StillHistory(w, w', m);
    hide LogInv, ReplicationInv, MatchInv, PersistAt, Moves, VotesUntouched, StillAt;
    UntouchedKeeps(c, w, w', m, w'.nodes[m].term);
  }

  lemma WonKeepsMatch(c: Config, w: World, w': World, n: nat)
    requires LogInv(c, w) && Won(w, w', n)
    ensures MatchInv(w')
  {
    hide ReplicationInv, PersistInv, VotesInv, CompleteInv, CandidatesOk, ElectionInv, NodeLogsOk, LeaderLogsOk,
      AcceptedOk, LogInv, LogOk, FromTermLogs;
    LogParts(c, w);
    ReplicationParts(c, w);
    assert TermLogsIncrease(w.termLogs, w'.termLogs);
    hide TermLogsIncrease;
    forall t | t in w'.termLogs ensures FromTermLogs(w'.termLogs, w'.termLogs[t]) {
      FromTermLogsKept(w.termLogs, w'.termLogs, if t in w.termLogs then w.termLogs[t] else w.nodes[n].logs);
    }
    forall m: nat | m < |w'.nodes| ensures FromTermLogs(w'.termLogs, w'.nodes[m].logs) {
      FromTermLogsKept(w.termLogs, w'.termLogs, w.nodes[m].logs);
    }
  }

  /** The new leader's log covers what its electors acknowledged. */
  lemma WinnerElected(c: Config, w: World, w': World, n: nat, voters: set<nat>)
    requires n < |w.nodes| && LogInv(c, w) && Won(w, w', n) && Moves(w, w', n, w.nodes[n].term)
    requires IsQuorum(voters, c.peers) && (forall v :: v in voters ==> HasBallot(w, v, w.nodes[n].term, n))
    requires w.nodes[n].term in w'.electors && w'.electors[w.nodes[n].term] == BallotHolders(w, n, w.nodes[n].term)
    ensures ElectedOk(c, w', w.nodes[n].term)
  {
    hide LogInv, Won, Moves, IsQuorum, VoteOk, VotesInv, AcceptedOk, Pledged, Kept, HasBallot;
    var term := w.nodes[n].term;
    WonFacts(c, w, w', n);
    VotersAreQuorum(c, w, n, term, voters);
    assert forall v :: v in w'.electors[term] ==> v < |w'.nodes| && (v, term) in w.ballots && w.ballots[(v, term)] == n;
    forall v | v in w'.electors[term]
      ensures term <= w'.nodes[v].term
      ensures forall t: int, k: int :: t < term && Pledged(w', v, t, k) ==> Kept(w', t, k, w'.termLogs[term], term - 1)
    {
      BallotOk(w, v, term);
      ElectorOk(c, w, w', n, v);
    }
  }

  lemma WonFacts(c: Config, w: World, w': World, n: nat)
    requires LogInv(c, w) && Won(w, w', n)
    ensures |w'.nodes| == |w.nodes| == c.peers && AcceptedOk(w) && VotesInv(w)
    ensures w.nodes[n].term in w'.termLogs && w.nodes[n].term !in w.termLogs
    ensures forall v: nat, term: int :: (v, term) in w.ballots ==> v < |w.nodes| && term <= w.nodes[v].term
  {
    hide MatchInv, PersistInv, CompleteInv, CandidatesOk, VotesInv, ElectionInv, AcceptedOk;
    LogParts(c, w);
    ReplicationParts(c, w);
    BallotBounds(c, w);
    ShapeOf(c, w, n);
  }

  lemma BallotOk(w: World, v: nat, term: int)
    requires VotesInv(w) && (v, term) in w.ballots
    ensures VoteOk(w, v, term)
  {}

  lemma ElectorOk(c: Config, w: World, w': World, n: nat, v: nat)
    requires Won(w, w', n) && Moves(w, w', n, w.nodes[n].term) && w.nodes[n].term !in w.termLogs && AcceptedOk(w)
    requires (v, w.nodes[n].term) in w.ballots && w.ballots[(v, w.nodes[n].term)] == n && VoteOk(w, v, w.nodes[n].term)
    requires v < |w.nodes| && w.nodes[n].term <= w.nodes[v].term
    ensures v < |w'.nodes| && w.nodes[n].term in w'.termLogs && w.nodes[n].term <= w'.nodes[v].term
    ensures var term := w.nodes[n].term;
            forall t: int, k: int :: t < term && Pledged(w', v, t, k) ==> Kept(w', t, k, w'.termLogs[term], term - 1)
  {
    var term := w.nodes[n].term;
    hide Pledged, Kept, VoteOk, AcceptedOk;
    forall t: int, k: int | t < term && Pledged(w', v, t, k) ensures Kept(w', t, k, w'.termLogs[term], term - 1) {
      ElectorKept(c, w, w', n, v, t, k);
    }
  }

  lemma VotersAreQuorum(c: Config, w: World, n: nat, term: int, voters: set<nat>)
    requires |w.nodes| == c.peers && IsQuorum(voters, c.peers) && forall v :: v in voters ==> HasBallot(w, v, term, n)
    ensures IsQuorum(BallotHolders(w, n, term), c.peers)
  {
    assert voters <= BallotHolders(w, n, term);
    SubsetSize(voters, BallotHolders(w, n, term));
  }

  lemma ElectorKept(c: Config, w: World, w': World, n: nat, v: nat, t: int, k: int)
    requires Won(w, w', n) && Moves(w, w', n, w.nodes[n].term) && w.nodes[n].term !in w.termLogs && AcceptedOk(w)
    requires (v, w.nodes[n].term) in w.ballots && w.ballots[(v, w.nodes[n].term)] == n && VoteOk(w, v, w.nodes[n].term)
    requires v < |w.nodes| && t < w.nodes[n].term && Pledged(w', v, t, k)
    ensures w.nodes[n].term in w'.termLogs && Kept(w', t, k, w'.termLogs[w.nodes[n].term], w.nodes[n].term - 1)
  {
    var term := w.nodes[n].term;
    PledgedBefore(w, w', n, term, v, t, k);
    KeptStays(w, w', t, k, w.nodes[n].logs, w'.termLogs[term], term - 1, term - 1);
  }

  lemma WonMoves(c: Config, w: World, w': World, n: nat)
    requires LogInv(c, w) && Won(w, w', n)
    ensures Moves(w, w', n, w.nodes[n].term)
  {
    var T := w.nodes[n].term;
    ReplicationParts(c, w);
    AcceptedBound(w, n, T);
    assert T !in w.termLogs && Accepted(w, n, T) == 0;
    OneTermGrows(w.termLogs, T, w.nodes[n].logs);
    hide LogInv, ElectionInv, NodeLogsOk, TermLogsOk, LeaderLogsOk, AcceptedOk, ReplicationInv, OwnGrowth;
  }

  lemma WonParts(c: Config, w: World, w': World, n: nat, voters: set<nat>)
    requires n < |w.nodes| && LogInv(c, w) && Won(w, w', n) && Moves(w, w', n, w.nodes[n].term)
    requires IsQuorum(voters, c.peers) && (forall v :: v in voters ==> HasBallot(w, v, w.nodes[n].term, n))
    requires w'.electors == w.electors[w.nodes[n].term := BallotHolders(w, n, w.nodes[n].term)]
    requires w'.ballots == w.ballots && NoNewRequests(w, w')
    ensures NewPartsOk(c, w, w', n)
  {
    hide LogInv, ReplicationInv, MatchInv, PersistAt, Moves, CandidatesOk, ElectedOk, BallotHolders, HasBallot, VoteOk,
      ElectionInv, NodeLogsOk, LeaderLogsOk, AcceptedOk, NoNewRequests, IsQuorum, VotesInv, CompleteInv, PersistInv;
    LogParts(c, w);
    ReplicationParts(c, w);
    WinnerPersists(c, w, w', n);
    WonKeepsMatch(c, w, w', n);
    WinnerElected(c, w, w', n, voters);
    CandidatesKept(c, w, w', n, w.nodes[n].term);
  }

  lemma WonKeepsLog(c: Config, w: World, w': World, n: nat, voters: set<nat>)
    requires LogInv(c, w) && Won(w, w', n) && ReplicationInv(c, w')
    requires IsQuorum(voters, c.peers) && (forall v :: v in voters ==> HasBallot(w, v, w.nodes[n].term, n))
    requires w'.electors == w.electors[w.nodes[n].term := BallotHolders(w, n, w.nodes[n].term)]
    requires w'.ballots == w.ballots && NoNewRequests(w, w')
    ensures LogInv(c, w')
  {
    WonMoves(c, w, w', n);
    WonParts(c, w, w', n, voters);
    var T := w.nodes[n].term;
    hide LogInv, ReplicationInv, Moves, NewPartsOk, Won, BallotHolders, HasBallot, NoNewRequests, IsQuorum;
    MoveKeeps(c, w, w', n, T);
  }

  lemma ExtendedFromTermLogs(tl: TermLogs, tl': TermLogs, logs: seq<LogEntry>, logs': seq<LogEntry>, T: int)
    requires FromTermLogs(tl, logs) && TermLogsIncrease(tl, tl') && T in tl' && tl'[T] == logs'
    requires logs <= logs' && |logs'| == |logs| + 1 && logs'[|logs|].logTerm == T
    ensures FromTermLogs(tl', logs')
  {
    FromTermLogsKept(tl, tl', logs);
    forall i | 0 <= i < |logs'| ensures logs'[i].logTerm in tl' && logs'[..i + 1] <= tl'[logs'[i].logTerm] {
      if i < |logs| {
        assert logs[..i + 1] == logs'[..i + 1] && logs[i] == logs'[i];
      }
    }
  }

  lemma AppendedTermLogs(c: Config, w: World, w': World, n: nat)
    requires LogInv(c, w) && Appended(w, w', n)
    ensures OwnGrowth(w.termLogs, w'.termLogs) && TermLogsIncrease(w.termLogs, w'.termLogs)
    ensures w'.termLogs.Keys == w.termLogs.Keys && w'.termLogs[w.nodes[n].term] == w'.nodes[n].logs
  {
    assert ReplicationInv(c, w) && n < |w.nodes| && w.nodes[n].status == Leader by { LogParts(c, w); hide LogInv; }
    hide LogInv, ReplicationInv, OwnGrowth, TermLogsIncrease;
    LeaderBook(c, w, n);
    AppendedGrowth(w, w', n);
  }

  lemma AppendedGrowth(w: World, w': World, n: nat)
    requires Appended(w, w', n)
    requires w.nodes[n].term in w.termLogs && w.termLogs[w.nodes[n].term] == w.nodes[n].logs
    ensures OwnGrowth(w.termLogs, w'.termLogs) && TermLogsIncrease(w.termLogs, w'.termLogs)
    ensures w'.termLogs.Keys == w.termLogs.Keys && w'.termLogs[w.nodes[n].term] == w'.nodes[n].logs
  {
    var T, logs := w.nodes[n].term, w'.nodes[n].logs;
    hide Accepted;
    OneTermGrows(w.termLogs, T, logs);
    hide OwnGrowth, TermLogsIncrease;
    GrowthIncreases(w.termLogs, w'.termLogs);
  }

  lemma GrowthIncreases(tl: TermLogs, tl': TermLogs)
    requires OwnGrowth(tl, tl')
    ensures TermLogsIncrease(tl, tl')
  {}

  lemma AppendedMoves(c: Config, w: World, w': World, n: nat)
    requires LogInv(c, w) && Appended(w, w', n) && OwnGrowth(w.termLogs, w'.termLogs)
    ensures Moves(w, w', n, w.nodes[n].term)
  {
    assert ReplicationInv(c, w) && n < |w.nodes| && w.nodes[n].status == Leader by { LogParts(c, w); hide LogInv; }
    hide LogInv, ReplicationInv, OwnGrowth, Moves;
    LeaderBook(c, w, n);
    WriteMoves(w, w', n);
  }

  lemma WriteMoves(w: World, w': World, n: nat)
    requires Appended(w, w', n) && OwnGrowth(w.termLogs, w'.termLogs)
    requires Accepted(w, n, w.nodes[n].term) == |w.nodes[n].logs|
    ensures Moves(w, w', n, w.nodes[n].term)
  {
    hide OwnGrowth;
  }

  lemma AppendedKeepsMatch(c: Config, w: World, w': World, n: nat)
    requires LogInv(c, w) && Appended(w, w', n) && TermLogsIncrease(w.termLogs, w'.termLogs)
    ensures MatchInv(w')
  {
    hide ReplicationInv, PersistInv, VotesInv, CompleteInv, CandidatesOk, FromTermLogs, TermLogsIncrease, LogInv,
      Accepted;
    var T := w.nodes[n].term;
    LogParts(c, w);
    ExtendedFromTermLogs(w.termLogs, w'.termLogs, w.nodes[n].logs, w'.nodes[n].logs, T);
    forall t | t in w'.termLogs && t != T ensures FromTermLogs(w'.termLogs, w'.termLogs[t]) {
      FromTermLogsKept(w.termLogs, w'.termLogs, w.termLogs[t]);
    }
    forall m: nat | m < |w'.nodes| && m != n ensures FromTermLogs(w'.termLogs, w'.nodes[m].logs) {
      FromTermLogsKept(w.termLogs, w'.termLogs, w.nodes[m].logs);
    }
  }

  lemma AppendedKeepsLog(c: Config, w: World, w': World, n: nat)
    requires LogInv(c, w) && Appended(w, w', n) && ReplicationInv(c, w') && VotesUntouched(w, w')
    ensures LogInv(c, w')
  {
    AppendedTermLogs(c, w, w', n);
    AppendedMoves(c, w, w', n);
    WriterPersists(c, w, w', n);
    AppendedKeepsMatch(c, w, w', n);
    assert n < |w.nodes|;
    hide LogInv, ReplicationInv, MatchInv, PersistAt, Moves, VotesUntouched, Appended, TermLogsIncrease, OwnGrowth;
    UntouchedKeeps(c, w, w', n, w.nodes[n].term);
  }

  lemma HandledMoves(c: Config, w: World, w': World, id: AppendId, a: AppendArgs, r: AppendReply)
    requires LogInv(c, w) && AppendHandled(c, w, w', id, a, r) && r.success
    ensures Moves(w, w', id.to, a.term) && w'.termLogs == w.termLogs
  {
    hide LogInv, AppendHandled, Follows, Moves;
    AcceptedFollows(c, w, w', id, a, r);
    AcceptMoves(c, w, w', id, a, r);
  }

  lemma AcceptMoves(c: Config, w: World, w': World, id: AppendId, a: AppendArgs, r: AppendReply)
    requires AppendHandled(c, w, w', id, a, r) && r.success && a.term in w.termLogs
    ensures Moves(w, w', id.to, a.term) && w'.termLogs == w.termLogs
  {
    hide Merge, TermIn;
    SameTermLogs(w.termLogs);
    hide OwnGrowth;
  }

  lemma SameTermLogs(tl: TermLogs)
    ensures OwnGrowth(tl, tl)
  {}

  lemma HandledLogFromTermLogs(c: Config, w: World, w': World, id: AppendId, a: AppendArgs, r: AppendReply)
    requires LogInv(c, w) && AppendHandled(c, w, w', id, a, r) && r.success
    ensures FromTermLogs(w.termLogs, w'.nodes[id.to].logs) && w'.termLogs == w.termLogs
  {
    AcceptedFollows(c, w, w', id, a, r);
    var leader := w.termLogs[a.term];
    MergeFollowsLeader(w.termLogs, w.nodes[id.to].logs, leader, EndOf(a), a);
    assert FromTermLogs(w.termLogs, leader) && FromTermLogs(w.termLogs, w.nodes[id.to].logs) && EndOf(a) <= |leader|;
    hide LogInv, ReplicationInv, FromTermLogs, Merge, Follows;
    FromTermLogsPrefix(w.termLogs, leader, EndOf(a));
  }

  lemma HandledKeepsMatch(c: Config, w: World, w': World, id: AppendId, a: AppendArgs, r: AppendReply)
    requires LogInv(c, w) && AppendHandled(c, w, w', id, a, r) && r.success
    ensures MatchInv(w')
  {
    hide ReplicationInv, PersistInv, VotesInv, CompleteInv, CandidatesOk, FromTermLogs, AppendOutcome, LogInv;
    HandledLogFromTermLogs(c, w, w', id, a, r);
    LogParts(c, w);
    forall n: nat | n < |w'.nodes| ensures FromTermLogs(w'.termLogs, w'.nodes[n].logs) {
      assert n != id.to ==> w'.nodes[n] == w.nodes[n];
    }
  }

  lemma HandledKeepsLog(c: Config, w: World, w': World, id: AppendId, a: AppendArgs, r: AppendReply)
    requires LogInv(c, w) && AppendHandled(c, w, w', id, a, r) && ReplicationInv(c, w') && VotesUntouched(w, w')
    ensures LogInv(c, w')
  {
    if r.success {
      HandledMoves(c, w, w', id, a, r);
      FollowerPersists(c, w, w', id, a, r);
      HandledKeepsMatch(c, w, w', id, a, r);
      hide LogInv, ReplicationInv, MatchInv, PersistAt, Moves, VotesUntouched, AppendHandled;
      UntouchedKeeps(c, w, w', id.to, a.term);
    } else {
      RejectedIsStill(c, w, w', id, a, r);
      hide LogInv, ReplicationInv, VotesUntouched, AppendHandled, StillAt;
      StillKeeps(c, w, w', id.to);
    }
  }

  // ---------- every step, every run ----------

  /** A step other than the two that move logs or elect a leader: which node it touches. */
  function Touched(w: World, e: Event): nat {
    match e
    case Election(n) => n
    case DeliverVote(id) => id.voter
    case ReturnVote(id) => id.candidate
    case ClientStart(n, _) => n
    case Heartbeat(n) => n
    case DeliverAppend(id) => id.to
    case ReturnAppend(id) => if id.round < |w.rounds| then w.rounds[id.round].leader else 0
    case Apply(n) => n
    case _ => 0
  }

  lemma ReturnVoteFrame(w: World, id: VoteId)
    requires CanReturnVote(w, id)
    ensures var w' := DoReturnVote(w, id);
            && |w'.nodes| == |w.nodes| && w'.ballots == w.ballots && NoNewRequests(w, w')
            && w'.electors == (if WouldWin(w, id) then
                                 var n := w.nodes[id.candidate];
                                 w.electors[n.term := BallotHolders(w, id.candidate, n.term)]
                               else w.electors)
  {
    hide HandleVoteReply, BallotHolders, VoteCounts;
  }

  /** A step that is calm at one node is still there. */
  lemma CalmIsStill(w: World, w': World, i: nat)
    requires CalmAt(w, w', i) && w'.electors == w.electors
    ensures StillAt(w, w', i)
  {}

  lemma ReturnVoteKeepsLog(c: Config, w: World, id: VoteId)
    requires LogInv(c, w) && CanReturnVote(w, id) && ReplicationInv(c, DoReturnVote(w, id))
    ensures LogInv(c, DoReturnVote(w, id))
    ensures Moves(w, DoReturnVote(w, id), id.candidate, DoReturnVote(w, id).nodes[id.candidate].term)
  {
    var w' := DoReturnVote(w, id);
    LogParts(c, w);
    ReplicationParts(c, w);
    ReturnVoteIsCalmOrWins(c, w, id);
    ReturnVoteFrame(w, id);
    if WouldWin(w, id) {
      WinIsFresh(c, w, id);
      var voters := WinningQuorum(c, w, id);
      hide LogInv, ReplicationInv, IsQuorum, DoReturnVote, NoNewRequests, WouldWin, HasBallot, BallotHolders, CalmAt;
      hide ElectionInv, NodeLogsOk, TermLogsOk, LeaderLogsOk, AcceptedOk, Counted;
      WonMoves(c, w, w', id.candidate);
      WonKeepsLog(c, w, w', id.candidate, voters);
      WonTerm(w, w', id.candidate);
      hide Won, Moves;
    } else {
      hide LogInv, ReplicationInv, DoReturnVote, NoNewRequests, WouldWin, CalmAt, StillAt;
      CalmIsStill(w, w', id.candidate);
      StillMoves(c, w, w', id.candidate);
      StillKeeps(c, w, w', id.candidate);
      hide Moves;
    }
  }

  lemma WonTerm(w: World, w': World, n: nat)
    requires Won(w, w', n)
    ensures w'.nodes[n].term == w.nodes[n].term
  {}

  lemma ReturnAppendIsStill(c: Config, w: World, id: AppendId)
    requires LogInv(c, w) && CanReturnAppend(w, id)
    ensures w.rounds[id.round].leader < |w.nodes|
    ensures StillAt(w, DoReturnAppend(w, id), w.rounds[id.round].leader) && VotesUntouched(w, DoReturnAppend(w, id))
  {
    hide LogInv, ReplicationInv, HandleAppendReply, AckOk, Acks, Crosses;
    LogParts(c, w);
    ReturnAppendEffect(c, w, id);
  }

  lemma HeartbeatIsStill(c: Config, w: World, n: nat)
    requires CanHeartbeat(w, n)
    ensures StillAt(w, DoHeartbeat(w, n), n) && VotesUntouched(w, DoHeartbeat(w, n))
  {
    hide MakeAppendArgs, SendsEntries;
    assert DoHeartbeat(w, n).nodes == w.nodes;
  }

  lemma ApplyIsStill(c: Config, w: World, n: nat)
    requires CanApply(w, n)
    ensures StillAt(w, DoApply(w, n), n) && VotesUntouched(w, DoApply(w, n))
  {
    hide Commands;
  }

  lemma QuietStepsAreStill(c: Config, w: World, e: Event)
    requires LogInv(c, w) && Enabled(c, w, e) && (e.Heartbeat? || e.ReturnAppend? || e.Apply?)
    ensures StillAt(w, Step(c, w, e), Touched(w, e)) && VotesUntouched(w, Step(c, w, e))
  {
    hide LogInv, StillAt, VotesUntouched, DoHeartbeat, DoReturnAppend, DoApply;
    match e
    case ReturnAppend(id) => ReturnAppendIsStill(c, w, id);
    case Heartbeat(n) => HeartbeatIsStill(c, w, n);
    case Apply(n) => ApplyIsStill(c, w, n);
    case _ =>
  }

  lemma StepKeepsLog(c: Config, w: World, e: Event)
    requires LogInv(c, w) && Enabled(c, w, e)
    ensures LogInv(c, Step(c, w, e))
    ensures Touched(w, e) < |Step(c, w, e).nodes|
    ensures Moves(w, Step(c, w, e), Touched(w, e), Step(c, w, e).nodes[Touched(w, e)].term)
  {
    var w' := Step(c, w, e);
    LogParts(c, w);
    StepKeepsReplication(c, w, e);
    assert !c.compaction;
    hide ReplicationInv, LogInv, MatchInv, PersistInv, VotesInv, CompleteInv, CandidatesOk, Moves, StillAt,
      VotesUntouched, DoElection, DoDeliverVote, DoReturnVote, DoStart, DoHeartbeat, DoDeliverAppend,
      DoReturnAppend, DoApply;
    match e
    case Election(n) => ElectionKeepsLog(c, w, n); ElectionMoves(c, w, n);
    case DeliverVote(id) =>
      DeliverVoteKeepsLog(c, w, id);
      DeliveryIsStill(c, w, id);
      StillMoves(c, w, w', id.voter);
    case ReturnVote(id) => ReturnVoteKeepsLog(c, w, id);
    case ClientStart(n, command) => StartKeepsLog(c, w, n, command);
    case DeliverAppend(id) => DeliverAppendKeepsLog(c, w, id);
    case Heartbeat(_) => QuietKeepsLog(c, w, e);
    case ReturnAppend(_) => QuietKeepsLog(c, w, e);
    case Apply(_) => QuietKeepsLog(c, w, e);
    case _ =>
  }

  lemma QuietKeepsLog(c: Config, w: World, e: Event)
    requires LogInv(c, w) && Enabled(c, w, e) && (e.Heartbeat? || e.ReturnAppend? || e.Apply?)
    requires ReplicationInv(c, Step(c, w, e))
    ensures LogInv(c, Step(c, w, e)) && Touched(w, e) < |Step(c, w, e).nodes|
    ensures Moves(w, Step(c, w, e), Touched(w, e), Step(c, w, e).nodes[Touched(w, e)].term)
  {
    QuietStepsAreStill(c, w, e);
    var w' := Step(c, w, e);
    assert Touched(w, e) < |w'.nodes|;
    hide Step, LogInv, ReplicationInv, StillAt, VotesUntouched, Touched;
    StillMoves(c, w, w', Touched(w, e));
    StillKeeps(c, w, w', Touched(w, e));
  }

  lemma ElectionMoves(c: Config, w: World, n: nat)
    requires LogInv(c, w) && CanElect(w, n)
    ensures Moves(w, DoElection(w, n), n, DoElection(w, n).nodes[n].term)
  {
    assert StillAt(w, DoElection(w, n), n) by { hide LogInv; }
    hide LogInv, StillAt;
    StillMoves(c, w, DoElection(w, n), n);
  }

  lemma StartFrame(w: World, n: nat, command: string)
    requires CanStart(w, n)
    ensures var w' := DoStart(w, n, command);
            VotesUntouched(w, w') && n < |w'.nodes| && w'.nodes[n].term == w.nodes[n].term
  {}

  lemma StartKeepsLog(c: Config, w: World, n: nat, command: string)
    requires LogInv(c, w) && CanStart(w, n) && ReplicationInv(c, DoStart(w, n, command))
    ensures LogInv(c, DoStart(w, n, command))
    ensures Moves(w, DoStart(w, n, command), n, DoStart(w, n, command).nodes[n].term)
  {
    LogParts(c, w);
    StartAppends(c, w, n, command);
    var w' := DoStart(w, n, command);
    StartFrame(w, n, command);
    hide DoStart, LogInv, ReplicationInv, VotesUntouched, Appended, Moves, OwnGrowth, TermLogsIncrease;
    AppendedTermLogs(c, w, w', n);
    AppendedMoves(c, w, w', n);
    AppendedKeepsLog(c, w, w', n);
  }

  lemma DeliverAppendFrame(c: Config, w: World, id: AppendId)
    requires CanDeliverAppend(w, id)
    ensures VotesUntouched(w, DoDeliverAppend(c, w, id))
  {
    hide HandleAppend;
  }

  lemma HandledTerm(c: Config, w: World, w': World, id: AppendId, a: AppendArgs, r: AppendReply)
    requires AppendHandled(c, w, w', id, a, r)
    ensures r.success ==> w'.nodes[id.to].term == a.term
  {
    hide Merge;
  }

  lemma RejectedIsStill(c: Config, w: World, w': World, id: AppendId, a: AppendArgs, r: AppendReply)
    requires AppendHandled(c, w, w', id, a, r) && !r.success && VotesUntouched(w, w')
    ensures StillAt(w, w', id.to)
  {
    hide NoNewRequests;
  }

  lemma DeliverAppendKeepsLog(c: Config, w: World, id: AppendId)
    requires LogInv(c, w) && CanDeliverAppend(w, id) && ReplicationInv(c, DoDeliverAppend(c, w, id))
    ensures LogInv(c, DoDeliverAppend(c, w, id))
    ensures Moves(w, DoDeliverAppend(c, w, id), id.to, DoDeliverAppend(c, w, id).nodes[id.to].term)
  {
    LogParts(c, w);
    DeliverAppendEffect(c, w, id);
    var w' := DoDeliverAppend(c, w, id);
    var a, r := w.appendRpcs[id].args, w'.appendRpcs[id].reply;
    DeliverAppendFrame(c, w, id);
    hide DoDeliverAppend, LogInv, ReplicationInv, VotesUntouched, Moves;
    HandledKeepsLog(c, w, w', id, a, r);
    HandledTerm(c, w, w', id, a, r);
    if r.success {
      HandledMoves(c, w, w', id, a, r);
    } else {
      RejectedIsStill(c, w, w', id, a, r);
      hide StillAt, AppendHandled;
      StillMoves(c, w, w', id.to);
    }
  }

  lemma InitLog(c: Config)
    requires !c.compaction && c.receiver == Section53
    ensures LogInv(c, InitWorld(c))
  {
    InitReplication(c);
  }

  lemma {:induction false} RunLog(c: Config, run: seq<World>, i: nat)
    requires IsRun(c, run) && i < |run| && !c.compaction && c.receiver == Section53
    ensures LogInv(c, run[i])
  {
    hide Enabled, Step, LogInv;
    if i == 0 {
      InitLog(c);
    } else {
      RunLog(c, run, i - 1);
      var e := RunStep(c, run, i - 1);
      hide Moves, Touched;
      StepKeepsLog(c, run[i - 1], e);
    }
  }

  /** Log Matching (section 5.3): in every run, logs that hold an entry with the same index and term are the
      same up to it. */
  lemma LogMatching(c: Config, run: seq<World>, i: nat, a: nat, b: nat)
    requires IsRun(c, run) && i < |run| && !c.compaction && c.receiver == Section53
    requires a < |run[i].nodes| && b < |run[i].nodes|
    ensures Matching(run[i].nodes[a].logs, run[i].nodes[b].logs)
  {
    hide IsRun;
    RunLog(c, run, i);
    LogParts(c, run[i]);
    hide LogInv, ReplicationInv, PersistInv, VotesInv, CompleteInv, CandidatesOk;
    FromTermLogsMatch(run[i].termLogs, run[i].nodes[a].logs, run[i].nodes[b].logs);
  }

  // ---------- leader completeness ----------

  /** A majority has acknowledged the log of term t through index k, which holds an entry of that term. */
  ghost predicate Committed(c: Config, w: World, t: int, k: int) {
    && t in w.termLogs && 1 <= k <= |w.termLogs[t]| && w.termLogs[t][k - 1].logTerm == t
    && exists q :: IsQuorum(q, c.peers) && AllAccepted(w, q, t, k)
  }

  ghost predicate AllAccepted(w: World, q: set<nat>, t: int, k: int) { forall n :: n in q ==> Accepted(w, n, t) >= k }

  /** Every later term's log starts with what an earlier term committed. */
  lemma {:induction false} LaterLogsHold(c: Config, w: World, t: int, k: int, term: int)
    requires LogInv(c, w) && Committed(c, w, t, k) && t < term && term in w.termLogs
    ensures w.termLogs[t][..k] <= w.termLogs[term]
    decreases term - t
  {
    LogParts(c, w);
    var q :| IsQuorum(q, c.peers) && AllAccepted(w, q, t, k);
    assert ElectedOk(c, w, term);
    var n := QuorumsMeet(q, w.electors[term], c.peers);
    assert Pledged(w, n, t, k);
    assert Kept(w, t, k, w.termLogs[term], term - 1);
    hide LogInv, ReplicationInv;
    if !(w.termLogs[t][..k] <= w.termLogs[term]) {
      var u :| t < u <= term - 1 && Lacks(w, t, k, u);
      LaterLogsHold(c, w, t, k, u);
    }
  }
}
