/** What the handlers achieve, said of the fields before and after without the functions that compute them: who is
    granted a vote, which requests pass, what compaction and snapshots leave of a log, and what a leader makes of
    each reply. Constants are written out as the code has them. */
module RaftHandlers {
  import opened RaftTypes
  import opened RaftNode
  import opened RaftWorld
  import opened Quorums

  /** The term of the last entry, or of the snapshot when there is none after it. */
  ghost predicate EndsWith(n: Node, index: int, term: int) {
    && index == n.snapIndex + |n.logs|
    && term == if |n.logs| > 0 then n.logs[|n.logs| - 1].logTerm else n.snapTerm
  }

  /** A new server follows in term 0 and has neither a vote, nor a log, nor a snapshot. */
  lemma InitOutcome(me: nat, peers: nat)
    ensures var n := Init(me, peers);
            && n.me == me && n.peers == peers && n.term == 0 && n.votedFor == -1 && n.status == Follower && n.logs == []
            && n.commitIndex == n.lastApplied == n.snapIndex == n.snapTerm == 0
            && |n.nextIndex| == |n.matchIndex| == peers
            && forall p :: 0 <= p < peers ==> n.nextIndex[p] == n.matchIndex[p] == 0
  {}

  // ---------- votes ----------

  /** A candidate stands in the next term, votes for itself, and asks with where its log ends. */
  lemma CandidacyOutcome(n: Node, last: int, lastTerm: int)
    requires EndsWith(n, last, lastTerm)
    ensures var n' := BecomeCandidate(n);
            && n' == n.(term := n.term + 1, votedFor := n.me, status := Candidate)
            && MakeVoteArgs(n') == VoteArgs(n.term + 1, n.me, last, lastTerm)
  {}

  /** Of any two servers at least one gets the vote of the other, when it asks in a term later than the other's. */
  lemma OneOfTwoGetsVote(a: Node, b: Node, t: int, u: int)
    requires t > b.term && u > a.term
    ensures HandleVote(b, MakeVoteArgs(a.(term := t))).1.voteGranted
            || HandleVote(a, MakeVoteArgs(b.(term := u))).1.voteGranted
  {}

  /** A candidate of a later term whose log continues the voter's gets the vote exactly when its last entry is not
      of an older term than the voter's. */
  lemma ExtensionGetsVote(voter: Node, candidate: Node, last: int, lastTerm: int, term: int, voterTerm: int)
    requires candidate.term > voter.term && voter.logs <= candidate.logs
    requires voter.snapIndex == candidate.snapIndex && voter.snapTerm == candidate.snapTerm
    requires EndsWith(candidate, last, lastTerm) && EndsWith(voter, term, voterTerm)
    ensures HandleVote(voter, MakeVoteArgs(candidate)).1.voteGranted <==> lastTerm >= voterTerm
  {}

  /** Who gets a vote, what the voter becomes, and what it answers. */
  lemma VoteOutcome(n: Node, a: VoteArgs, last: int, lastTerm: int)
    requires EndsWith(n, last, lastTerm)
    ensures var (n', r) := HandleVote(n, a);
            && (r.voteGranted <==>
                  && a.term >= n.term && (a.term == n.term ==> n.votedFor == -1 || n.votedFor == a.candidateId)
                  && (a.lastLogTerm != lastTerm ==> a.lastLogTerm > lastTerm)
                  && (a.lastLogTerm == lastTerm ==> a.lastLogIndex >= last))
            && n' == n.(term := n'.term, votedFor := n'.votedFor, status := n'.status)
            && n'.term == Max(n.term, a.term) == r.term
            && n'.votedFor == (if r.voteGranted then a.candidateId else if a.term > n.term then -1 else n.votedFor)
            && n'.status == (if a.term > n.term then Follower else n.status)
            && r.voteState == (if a.term < n.term then Expire else if r.voteGranted then Normal else Voted)
  {}

  /** What a candidate makes of a reply. */
  lemma VoteReplyOutcome(n: Node, r: VoteReply, num: int)
    ensures var (n', num') := HandleVoteReply(n, r, num);
            && (r.term > n.term ==> n' == n.(term := r.term, votedFor := -1, status := Follower) && num' == num)
            && (r.term < n.term || (r.term == n.term && !r.voteGranted) ==> n' == n && num' == num)
            && (r.term == n.term && r.voteGranted && 2 * (num + 1) <= n.peers ==> n' == n && num' == num + 1)
            && (r.term == n.term && r.voteGranted && 2 * (num + 1) > n.peers ==>
                  && num' == 0 && n'.status == Leader && |n'.nextIndex| == |n'.matchIndex| == n.peers
                  && n' == n.(status := Leader, nextIndex := n'.nextIndex, matchIndex := n'.matchIndex)
                  && forall p :: 0 <= p < n.peers ==>
                       n'.nextIndex[p] == n.snapIndex + |n.logs| + 1 && n'.matchIndex[p] == 0)
  {}

  // ---------- replication ----------

  /** A leader's new entry comes right after its last one, in its own term. */
  lemma StartOutcome(n: Node, command: string)
    ensures n.status != Leader ==> Start(n, command) == n
    ensures n.status == Leader ==>
              Start(n, command) == n.(logs := n.logs + [LogEntry(command, n.term, n.snapIndex + |n.logs| + 1)])
  {}

  /** A request starts right after prevLogIndex and carries every entry from there to the end of the log. */
  lemma RequestOutcome(n: Node, peer: nat)
    requires WellFormed(n) && peer < n.peers && n.snapIndex < n.nextIndex[peer] <= n.snapIndex + |n.logs| + 1
    ensures var a := MakeAppendArgs(n, peer);
            && a.term == n.term && a.leaderId == n.me && a.leaderCommit == n.commitIndex
            && a.prevLogIndex + 1 == n.nextIndex[peer]
            && (a.prevLogIndex == n.snapIndex ==> a.prevLogTerm == n.snapTerm)
            && (forall e :: e in n.logs && e.logIndex == a.prevLogIndex ==> e.logTerm == a.prevLogTerm)
            && (forall e :: e in a.entries <==> e in n.logs && e.logIndex > a.prevLogIndex)
            && a.prevLogIndex + |a.entries| == n.snapIndex + |n.logs|
            && Contiguous(a.entries, a.prevLogIndex)
  {
    var a := MakeAppendArgs(n, peer);
    var at := a.prevLogIndex - n.snapIndex;
    forall e | e in n.logs && e.logIndex > a.prevLogIndex ensures e in a.entries {
      var i :| 0 <= i < |n.logs| && n.logs[i] == e;
      assert a.entries[i - at] == e;
    }
  }

  /** The terms agree at an index that the server still knows. */
  ghost predicate KnowsTerm(n: Node, index: int, term: int) {
    || (index == n.snapIndex && term == n.snapTerm)
    || (n.snapIndex < index <= n.snapIndex + |n.logs| && n.logs[index - n.snapIndex - 1].logTerm == term)
  }

  /** A follower's answer and what it takes over. Stale requests change nothing; a passed check acknowledges the
      request and raises the commit index to the leader's, but not past the log; a failed one leaves the log alone
      and suggests the index right after the log, right after the snapshot, or inside the log. */
  lemma AppendOutcome(mode: Receiver, n: Node, a: AppendArgs)
    ensures var (n', r) := HandleAppend(mode, n, a);
            && (a.term < n.term ==> n' == n && r == AppendReply(n.term, false, -100, AppNormal))
            && (a.term >= n.term ==>
                  && n'.term == a.term == r.term && n'.status == Follower && r.appState == AppNormal
                  && n'.votedFor == (if a.term > n.term then -1 else n.votedFor)
                  && (r.success <==> KnowsTerm(n, a.prevLogIndex, a.prevLogTerm))
                  && n' == n.(term := n'.term, status := n'.status, votedFor := n'.votedFor, logs := n'.logs,
                              commitIndex := n'.commitIndex)
                  && (r.success ==>
                        n'.commitIndex == if a.leaderCommit <= n.commitIndex then n.commitIndex
                                          else if a.leaderCommit <= n.snapIndex + |n'.logs| then a.leaderCommit
                                          else n.snapIndex + |n'.logs|)
                  && (!r.success ==> n'.logs == n.logs && n'.commitIndex == n.commitIndex)
                  && (a.prevLogIndex > n.snapIndex + |n.logs| ==> r.updateNextIndex == n.snapIndex + |n.logs| + 1)
                  && (a.prevLogIndex < n.snapIndex && a.prevLogIndex <= n.snapIndex + |n.logs| ==>
                        r.updateNextIndex == n.snapIndex + 1))
  {
    hide Merge, BackOff;
  }

  /** What a leader makes of a reply, and when that moves its commit index. */
  lemma AppendReplyOutcome(n: Node, peer: nat, a: AppendArgs, r: AppendReply, num: int)
    requires peer < |n.matchIndex| && peer < |n.nextIndex|
    ensures var (n', num') := HandleAppendReply(n, peer, a, r, num);
            var acts := r.appState == AppNormal && r.term == n.term && n.status == Leader;
            var end := a.prevLogIndex + |a.entries|;
            && (r.appState == AppNormal && r.term > n.term ==>
                  n' == n.(term := r.term, votedFor := -1, status := Follower) && num' == num)
            && (r.appState == Disconnected || r.term < n.term || (r.term == n.term && n.status != Leader) ==>
                  n' == n && num' == num)
            && (acts && !r.success ==>
                  num' == num && n' == n.(nextIndex := if r.updateNextIndex == -100 then n.nextIndex
                                                      else n.nextIndex[peer := r.updateNextIndex]))
            && (acts && r.success ==>
                  && n'.matchIndex == n.matchIndex[peer := if end > n.matchIndex[peer] then end else n.matchIndex[peer]]
                  && n'.nextIndex == n.nextIndex[peer := n'.matchIndex[peer] + 1]
                  && n' == n.(matchIndex := n'.matchIndex, nextIndex := n'.nextIndex, commitIndex := n'.commitIndex)
                  && num' == (if 2 * (num + 1) > n.peers then 0 else num + 1)
                  && (if 2 * (num + 1) > n.peers && end > n.commitIndex && |a.entries| > 0
                         && a.entries[|a.entries| - 1].logTerm == n.term then n'.commitIndex == end
                      else n'.commitIndex == n.commitIndex))
  {}

  /** The counting rule: an index after the snapshot with an entry of the current term that a majority holds, the
      leader itself being one of it. */
  lemma CommitRuleMeans(n: Node, index: int)
    requires |n.matchIndex| == n.peers && n.me < n.peers
    ensures CommitRule(n, index) <==>
              && n.snapIndex < index <= n.snapIndex + |n.logs| && n.logs[index - n.snapIndex - 1].logTerm == n.term
              && exists q :: IsQuorum(q, n.peers) && forall p :: p in q && p != n.me ==> n.matchIndex[p] >= index
  {
    hide Holders;
    HoldersHold(n, index);
    if CommitRule(n, index) { assert IsQuorum(Holders(n, index), n.peers); }
    forall q | IsQuorum(q, n.peers) && forall p :: p in q && p != n.me ==> n.matchIndex[p] >= index
      ensures |Holders(n, index)| >= n.peers / 2 + 1
    {
      assert q <= Holders(n, index);
      SubsetSize(q, Holders(n, index));
    }
  }

  lemma HoldersHold(n: Node, index: int)
    requires |n.matchIndex| == n.peers
    ensures forall p :: p in Holders(n, index) <==> 0 <= p < n.peers && (p == n.me || n.matchIndex[p] >= index)
    ensures AllBelow(Holders(n, index), n.peers)
  {}

  // ---------- applying, compaction and snapshots ----------

  /** Everything committed and not yet handed over is, each command at its entry's index. */
  lemma ApplyOutcome(n: Node)
    requires WellFormed(n)
    ensures var (n', msgs) := ApplyLogs(n);
            && n' == n.(lastApplied := n.commitIndex) && |msgs| == n.commitIndex - n.lastApplied
            && forall e :: e in n.logs && n.lastApplied < e.logIndex <= n.commitIndex ==>
                 msgs[e.logIndex - n.lastApplied - 1] == CommandMsg(e.command, e.logIndex)
  {}

  /** Compaction happens exactly for an index after the snapshot that is committed. It forgets no term from that
      index on and no entry after it, and changes nothing else but to count the index as applied. */
  lemma CompactionOutcome(n: Node, index: int)
    requires WellFormed(n)
    ensures var n' := Snapshot(n, index);
            && n'.snapIndex == (if n.snapIndex < index <= n.commitIndex then index else n.snapIndex)
            && n'.snapIndex + |n'.logs| == n.snapIndex + |n.logs|
            && (forall i :: n'.snapIndex <= i <= n.snapIndex + |n.logs| ==> TermAt(n', i) == TermAt(n, i))
            && (forall e :: e in n'.logs <==> e in n.logs && e.logIndex > n'.snapIndex)
            && n'.lastApplied == (if n'.snapIndex > n.lastApplied then n'.snapIndex else n.lastApplied)
            && n' == n.(snapIndex := n'.snapIndex, snapTerm := n'.snapTerm, logs := n'.logs,
                        lastApplied := n'.lastApplied)
  {
    var n' := Snapshot(n, index);
    forall e | e in n.logs && e.logIndex > n'.snapIndex ensures e in n'.logs {
      var i :| 0 <= i < |n.logs| && n.logs[i] == e;
      assert n'.logs[i - (n'.snapIndex - n.snapIndex)] == e;
    }
  }

  /** A snapshot of a current leader that is ahead of the server's own takes the place of everything through its
      index, with its index, term and data; what the log has beyond it stays. */
  lemma InstallOutcome(n: Node, a: SnapshotArgs)
    requires WellFormed(n)
    ensures var (n', msgs) := InstallSnapshot(n, a);
            var takes := a.term >= n.term && a.lastIndex > n.snapIndex;
            && (a.term < n.term ==> n' == n)
            && (a.term >= n.term ==>
                  && n'.term == a.term && n'.status == Follower
                  && n'.votedFor == if a.term > n.term then -1 else n.votedFor)
            && msgs == (if takes then [SnapshotMsg(a.data, a.lastTerm, a.lastIndex)] else [])
            && (takes ==>
                  && n'.snapIndex == a.lastIndex && n'.snapTerm == a.lastTerm
                  && (forall e :: e in n'.logs <==> e in n.logs && e.logIndex > a.lastIndex)
                  && Contiguous(n'.logs, a.lastIndex)
                  && n'.commitIndex == (if a.lastIndex > n.commitIndex then a.lastIndex else n.commitIndex)
                  && n'.lastApplied == (if a.lastIndex > n.lastApplied then a.lastIndex else n.lastApplied)
                  && n'.nextIndex == n.nextIndex && n'.matchIndex == n.matchIndex)
            && (!takes ==> n' == n.(term := n'.term, status := n'.status, votedFor := n'.votedFor))
  {
    var n' := InstallSnapshot(n, a).0;
    if a.term >= n.term && a.lastIndex > n.snapIndex {
      forall e | e in n.logs && e.logIndex > a.lastIndex ensures e in n'.logs {
        var i :| 0 <= i < |n.logs| && n.logs[i] == e;
        assert n'.logs[i - (a.lastIndex - n.snapIndex)] == e;
      }
    }
  }

  /** The answer to a snapshot carries the term where the code sets it, and 0 where it does not. */
  lemma SnapshotAnswer(n: Node, a: SnapshotArgs)
    ensures SnapshotReplyTerm(n, InstallSnapshot(n, a).0, a)
            == if a.term < n.term then n.term else if a.lastIndex <= n.snapIndex then 0 else a.term
  {}

  /** What a leader makes of it: unless it no longer leads the term it sent the snapshot in, it steps down for a
      later term, or takes the peer to hold exactly the snapshot. */
  lemma SnapshotReplyOutcome(n: Node, peer: nat, a: SnapshotArgs, term: int)
    requires peer < |n.matchIndex| && peer < |n.nextIndex|
    ensures var n' := HandleSnapshotReply(n, peer, a, term);
            && (n.status != Leader || n.term != a.term ==> n' == n)
            && (n.status == Leader && n.term == a.term && term > n.term ==>
                  n' == n.(term := term, votedFor := -1, status := Follower))
            && (n.status == Leader && n.term == a.term && term <= n.term ==>
                  n' == n.(matchIndex := n.matchIndex[peer := a.lastIndex],
                           nextIndex := n.nextIndex[peer := a.lastIndex + 1]))
  {}

  /** A follower that is behind the leader's snapshot catches up in two calls: with the snapshot installed and its
      answer consumed, the next request passes the check, carries the whole log after the snapshot, and leaves the
      follower with a log that ends no earlier. */
  lemma SnapshotThenEntries(l: Node, f: Node, p: nat, data: string)
    requires WellFormed(l) && WellFormed(f) && l.status == Leader && f.term <= l.term && p < l.peers && p != l.me
    requires f.snapIndex < l.snapIndex
    ensures var s := MakeSnapshotArgs(l, data);
            var (f', _) := InstallSnapshot(f, s);
            var l' := HandleSnapshotReply(l, p, s, SnapshotReplyTerm(f, f', s));
            && s.leaderId == l.me && s.data == data && l'.status == Leader && SendsEntries(l', p)
            && var a := MakeAppendArgs(l', p);
               var (f'', r) := HandleAppend(AsWritten, f', a);
               && a.prevLogIndex == f'.snapIndex && a.entries == l.logs && r.success
               && f''.snapIndex + |f''.logs| >= l.snapIndex + |l.logs| && f''.commitIndex >= l.commitIndex
  {
    hide Conflicts;
  }
}
