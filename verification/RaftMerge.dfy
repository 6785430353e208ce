/** The append loop as the code has it, which keeps every stored entry beyond the ones it was sent: its exact
    result, when that is the result of section 5.3 of the Raft paper, and what goes wrong when it is not. */
module RaftMerge {
  import opened RaftTypes
  import opened RaftNode
  import opened RaftWorld
  import opened RaftElection
  import opened RaftEntries
  import opened RaftReplication
  import opened RaftLog
  import opened RaftCommit

  /** The merge keeps the log through prevLogIndex, then holds exactly what was sent, then the old tail. */
  lemma MergeAsWritten(logs: seq<LogEntry>, base: int, at: nat, entries: seq<LogEntry>)
    requires at <= |logs| && Contiguous(logs, base) && Contiguous(entries, base + at) && !Clash(logs, at, entries)
    ensures Overlay(logs, at, entries) == logs[..at] + entries
    ensures Merge(AsWritten, logs, at, entries) == logs[..at] + entries + TailBeyond(logs, at, entries)
    ensures Contiguous(Merge(AsWritten, logs, at, entries), base)
  {
    var over := Overlay(logs, at, entries);
    forall i | 0 <= i < |entries| ensures over[at + i] == entries[i] {
      assert at + i < |logs| ==> logs[at + i].logIndex == base + at + 1 + i == entries[i].logIndex;
    }
    assert over == logs[..at] + entries;
  }

  /** In every run, with snapshots too, that is what a request that passes its check leaves: nothing sent can clash
      with anything stored. */
  lemma RunMergesAsWritten(c: Config, run: seq<World>, i: nat, id: AppendId)
    requires IsRun(c, run) && i < |run|
    requires id in run[i].appendRpcs && run[i].appendRpcs[id].AppendSent? && id.to < |run[i].nodes|
    requires AppendMatches(run[i].nodes[id.to], run[i].appendRpcs[id].args)
    ensures var n, a := run[i].nodes[id.to], run[i].appendRpcs[id].args;
            var at, n' := a.prevLogIndex - n.snapIndex, HandleAppend(AsWritten, n, a).0;
            && n'.logs == n.logs[..at] + a.entries + TailBeyond(n.logs, at, a.entries)
            && Contiguous(n'.logs, n.snapIndex) && n'.snapIndex == n.snapIndex
  {
    hide IsRun, Merge, Clash, Contiguous, ElectionInv, Unique, FromLeaders, HandleAppend;
    RunEntries(c, run, i);
    AppendNeverCrashes(c, run, i, id);
    var n, a := run[i].nodes[id.to], run[i].appendRpcs[id].args;
    assert RequestWithin(run[i].appendRpcs[id], Seen(run, i));
    MatchedLogs(n, a);
    MergeAsWritten(n.logs, n.snapIndex, a.prevLogIndex - n.snapIndex, a.entries);
  }

  /** The code's merge is that of section 5.3 exactly when nothing sent conflicts or nothing lies beyond. */
  lemma MergeIsSection53(logs: seq<LogEntry>, at: nat, entries: seq<LogEntry>)
    requires at <= |logs|
    ensures Merge(AsWritten, logs, at, entries) == Merge(Section53, logs, at, entries)
            <==> !Conflicts(logs, at, entries) || |logs| <= at + |entries|
  {
    var over := Overlay(logs, at, entries);
    var tail := TailBeyond(logs, at, entries);
    assert Merge(AsWritten, logs, at, entries) == over + tail;
    if Conflicts(logs, at, entries) {
      assert Merge(Section53, logs, at, entries) == over + [];
      assert |over + tail| == |over| + |tail|;
    }
  }

  /** Logs that match hold the same entry wherever they hold one of the same index and term. */
  lemma MatchingNeverClashes(logs: seq<LogEntry>, leader: seq<LogEntry>, at: nat)
    requires at <= |leader| && Matching(logs, leader)
    ensures !Clash(logs, at, leader[at..])
  {
    forall i | 0 <= i < |leader| - at && at + i < |logs| && logs[at + i].logTerm == leader[at..][i].logTerm
      ensures logs[at + i].command == leader[at..][i].command
    {
      assert logs[..at + i + 1][at + i] == leader[..at + i + 1][at + i];
    }
  }

  /** A follower is sent the whole rest of a leader's log, which matches its own. Its new log matches a server
      that still has the old one exactly when the code's merge is that of section 5.3. */
  lemma MergeKeepsMatching(logs: seq<LogEntry>, leader: seq<LogEntry>, at: nat)
    requires at <= |logs| && at <= |leader| && Matching(logs, leader) && logs[..at] == leader[..at]
    requires Contiguous(logs, 0) && Contiguous(leader, 0)
    ensures !Clash(logs, at, leader[at..])
    ensures Matching(Merge(AsWritten, logs, at, leader[at..]), logs)
            <==> !Conflicts(logs, at, leader[at..]) || |logs| <= |leader|
    ensures Matching(Merge(Section53, logs, at, leader[at..]), logs)
  {
    var entries := leader[at..];
    MatchingNeverClashes(logs, leader, at);
    MergeAsWritten(logs, 0, at, entries);
    hide Clash, Contiguous;
    if Conflicts(logs, at, entries) {
      ConflictingMerge(logs, leader, at);
    } else {
      AgreeingMerge(logs, leader, at);
    }
  }

  /** On a conflict section 5.3 leaves the leader's log; the code does so when the old log was no longer. */
  lemma ConflictingMerge(logs: seq<LogEntry>, leader: seq<LogEntry>, at: nat)
    requires at <= |logs| && at <= |leader| && Matching(logs, leader) && logs[..at] == leader[..at]
    requires Conflicts(logs, at, leader[at..]) && Overlay(logs, at, leader[at..]) == logs[..at] + leader[at..]
    ensures Matching(Merge(AsWritten, logs, at, leader[at..]), logs) <==> |logs| <= |leader|
    ensures Matching(Merge(Section53, logs, at, leader[at..]), logs)
  {
    var entries := leader[at..];
    hide Overlay, Conflicts;
    assert leader == logs[..at] + entries;
    assert Merge(Section53, logs, at, entries) == leader + [];
    if |logs| > |leader| {
      UncleanMerge(logs, at, entries);
    } else {
      assert Merge(AsWritten, logs, at, entries) == leader;
    }
  }

  /** Without one both keep every old entry. */
  lemma AgreeingMerge(logs: seq<LogEntry>, leader: seq<LogEntry>, at: nat)
    requires at <= |logs| && at <= |leader| && logs[..at] == leader[..at]
    requires Contiguous(logs, 0) && Contiguous(leader, 0)
    requires !Clash(logs, at, leader[at..]) && !Conflicts(logs, at, leader[at..])
    requires Overlay(logs, at, leader[at..]) == logs[..at] + leader[at..]
    ensures Matching(Merge(AsWritten, logs, at, leader[at..]), logs)
    ensures Merge(Section53, logs, at, leader[at..]) == Merge(AsWritten, logs, at, leader[at..])
  {
    var entries := leader[at..];
    AgreesOnOverlap(logs, leader, at, entries);
    hide Overlay, Clash, Conflicts, Contiguous;
    assert leader == logs[..at] + entries;
    var merged := Merge(AsWritten, logs, at, entries);
    assert forall j :: 0 <= j < |merged| && j < |logs| ==> merged[j] == logs[j];
  }

  lemma Mismatch(a: seq<LogEntry>, b: seq<LogEntry>, i: nat, k: nat)
    requires i < k < |a| && k < |b| && a[i] != b[i] && a[k].logTerm == b[k].logTerm
    ensures !Matching(a, b)
  {
    assert a[..k + 1][i] != b[..k + 1][i];
  }

  /** The first entry kept beyond a conflict has the term it had, and below it the logs differ. */
  lemma UncleanMerge(logs: seq<LogEntry>, at: nat, entries: seq<LogEntry>)
    requires at + |entries| < |logs| && Conflicts(logs, at, entries)
    ensures !Matching(Merge(AsWritten, logs, at, entries), logs)
  {
    var i :| 0 <= i < |entries| && at + i < |logs| && logs[at + i].logTerm != entries[i].logTerm;
    var merged, k := Merge(AsWritten, logs, at, entries), at + |entries|;
    assert merged[at + i] == Overlay(logs, at, entries)[at + i] == entries[i];
    assert merged[k] == TailBeyond(logs, at, entries)[0] == logs[k];
    hide Matching, Overlay, Conflicts;
    Mismatch(merged, logs, at + i, k);
  }

  /** Without a conflict the two logs are the same wherever both have an entry. */
  lemma AgreesOnOverlap(logs: seq<LogEntry>, leader: seq<LogEntry>, at: nat, entries: seq<LogEntry>)
    requires at <= |logs| && at <= |leader| && logs[..at] == leader[..at] && entries == leader[at..]
    requires Contiguous(logs, 0) && Contiguous(leader, 0)
    requires !Clash(logs, at, entries) && !Conflicts(logs, at, entries)
    ensures forall j :: 0 <= j < |logs| && j < |leader| ==> logs[j] == leader[j]
  {
    forall j | 0 <= j < |logs| && j < |leader| ensures logs[j] == leader[j] {
      if j < at {
        assert logs[j] == logs[..at][j] == leader[..at][j];
      } else {
        assert leader[j] == entries[j - at];
      }
    }
  }

  // ---------- runs of the code that are runs of section 5.3 ----------

  /** A request about to be delivered keeps no tail behind a conflict. The receiver could check this first. */
  predicate CleanDelivery(w: World, id: AppendId) {
    CanDeliverAppend(w, id) &&
    var n, a := w.nodes[id.to], w.appendRpcs[id].args;
    AppendMatches(n, a) ==>
      var at := a.prevLogIndex - n.snapIndex;
      !Conflicts(n.logs, at, a.entries) || |n.logs| <= at + |a.entries|
  }

  /** Delivering a request has the effect section 5.3 asks for exactly when it is clean. */
  lemma CleanIsSection53(c: Config, w: World, id: AppendId)
    requires CanDeliverAppend(w, id)
    ensures DoDeliverAppend(c.(receiver := AsWritten), w, id) == DoDeliverAppend(c.(receiver := Section53), w, id)
            <==> CleanDelivery(w, id)
  {
    var n, a := w.nodes[id.to], w.appendRpcs[id].args;
    hide HandleAppend, Merge, Conflicts, AppendCrashes, AcceptAppend, Follow;
    SameDelivery(c, w, id);
    if AppendMatches(n, a) {
      MergeIsSection53(n.logs, a.prevLogIndex - n.snapIndex, a.entries);
      MatchedOutcome(AsWritten, n, a);
      MatchedOutcome(Section53, n, a);
      SameCommit53(n, a);
    } else {
      UnmatchedOutcome(n, a);
    }
  }

  lemma SameDelivery(c: Config, w: World, id: AppendId)
    requires CanDeliverAppend(w, id)
    ensures var n, a := w.nodes[id.to], w.appendRpcs[id].args;
            DoDeliverAppend(c.(receiver := AsWritten), w, id) == DoDeliverAppend(c.(receiver := Section53), w, id)
            <==> HandleAppend(AsWritten, n, a) == HandleAppend(Section53, n, a)
  {
    hide HandleAppend, AppendCrashes;
    var w1, w2 := DoDeliverAppend(c.(receiver := AsWritten), w, id), DoDeliverAppend(c.(receiver := Section53), w, id);
    assert w1 == w2 ==> w1.nodes[id.to] == w2.nodes[id.to] && w1.appendRpcs[id] == w2.appendRpcs[id];
  }

  lemma MatchedOutcome(mode: Receiver, n: Node, a: AppendArgs)
    requires AppendMatches(n, a)
    ensures HandleAppend(mode, n, a)
        == (AcceptAppend(mode, Follow(n, a.term), a), AppendReply(a.term, true, 0, AppNormal))
  {}

  lemma UnmatchedOutcome(n: Node, a: AppendArgs)
    requires !AppendMatches(n, a)
    ensures HandleAppend(AsWritten, n, a) == HandleAppend(Section53, n, a)
  {}

  lemma SameCommit53(n: Node, a: AppendArgs)
    requires AppendMatches(n, a)
    ensures var at, f := a.prevLogIndex - n.snapIndex, Follow(n, a.term);
            AcceptAppend(AsWritten, f, a) == AcceptAppend(Section53, f, a)
            <==> Merge(AsWritten, n.logs, at, a.entries) == Merge(Section53, n.logs, at, a.entries)
  {
    hide Merge;
  }

  ghost predicate CleanNext(c: Config, w: World, w': World) {
    exists e :: Enabled(c, w, e) && w' == Step(c, w, e) && (e.DeliverAppend? ==> CleanDelivery(w, e.append))
  }

  /** A run of the code in which every delivery is clean. */
  ghost predicate IsCleanRun(c: Config, run: seq<World>) {
    && c.receiver == AsWritten && |run| > 0 && run[0] == InitWorld(c)
    && forall i :: 0 <= i < |run| - 1 ==> CleanNext(c, run[i], run[i + 1])
  }

  /** It is a run of section 5.3 too, so everything proved of those holds of it. */
  lemma CleanRunIsSection53(c: Config, run: seq<World>)
    requires IsCleanRun(c, run)
    ensures IsRun(c.(receiver := Section53), run)
  {
    var c' := c.(receiver := Section53);
    hide Enabled, Step, InitWorld, CleanDelivery;
    forall i | 0 <= i < |run| - 1 ensures Next(c', run[i], run[i + 1]) {
      assert CleanNext(c, run[i], run[i + 1]);
      var e :| Enabled(c, run[i], e) && run[i + 1] == Step(c, run[i], e)
               && (e.DeliverAppend? ==> CleanDelivery(run[i], e.append));
      SameStep53(c, run[i], e);
    }
    assert InitWorld(c) == InitWorld(c') by { SameInit53(c); }
  }

  lemma SameInit53(c: Config)
    ensures InitWorld(c) == InitWorld(c.(receiver := Section53))
  {}

  lemma SameStep53(c: Config, w: World, e: Event)
    requires c.receiver == AsWritten && Enabled(c, w, e) && (e.DeliverAppend? ==> CleanDelivery(w, e.append))
    ensures Enabled(c.(receiver := Section53), w, e) && Step(c, w, e) == Step(c.(receiver := Section53), w, e)
  {
    hide CanDeliverVote, CanReturnVote, CanReturnAppend, CanDeliverAppend, CleanDelivery, DoDeliverAppend;
    if e.DeliverAppend? {
      CleanIsSection53(c, w, e.append);
      assert c.(receiver := AsWritten) == c;
    }
  }

  /** State Machine Safety, Leader Completeness and Log Matching for the code as written, in runs without compaction
      whose deliveries are clean. RaftCounterexample shows what can happen after one that is not. */
  lemma CleanRunsAreSafe(c: Config, run: seq<World>, i: nat, j: nat, n: nat, m: nat)
    requires IsCleanRun(c, run) && !c.compaction && i <= j < |run|
    requires n < |run[i].nodes| == |run[i].emitted| && m < |run[j].nodes| == |run[j].emitted|
    ensures forall k :: 0 <= k < |run[i].emitted[n]| && k < |run[j].emitted[m]| ==>
        run[i].emitted[n][k] == run[j].emitted[m][k]
    ensures forall n': nat :: n' < |run[i].nodes| ==> Matching(run[i].nodes[n].logs, run[i].nodes[n'].logs)
    ensures var node, later := run[i].nodes[n], run[j].nodes[m];
            && 0 <= node.commitIndex <= |node.logs|
            && (later.status == Leader && later.term >= node.term ==> node.logs[..node.commitIndex] <= later.logs)
  {
    var c' := c.(receiver := Section53);
    CleanRunIsSection53(c, run);
    hide IsRun, IsCleanRun;
    forall k | 0 <= k < |run[i].emitted[n]| && k < |run[j].emitted[m]|
      ensures run[i].emitted[n][k] == run[j].emitted[m][k]
    {
      StateMachineSafety(c', run, i, j, n, m, k);
    }
    forall n': nat | n' < |run[i].nodes| ensures Matching(run[i].nodes[n].logs, run[i].nodes[n'].logs) {
      LogMatching(c', run, i, n, n');
    }
    CommitIsLogged(c', run, i, n);
    if run[j].nodes[m].status == Leader && run[j].nodes[m].term >= run[i].nodes[n].term {
      LeaderCompleteness(c', run, i, j, n, m);
    }
  }

  // ---------- logs match throughout a run exactly when its deliveries are clean ----------

  /** Any two logs match, whenever in the run they were held. */
  ghost predicate MatchedThroughout(run: seq<World>) {
    forall i: nat, j: nat, a: nat, b: nat ::
      i < |run| && j < |run| && a < |run[i].nodes| && b < |run[j].nodes| ==>
        Matching(run[i].nodes[a].logs, run[j].nodes[b].logs)
  }

  /** A delivery that is not clean leaves its receiver with a log that does not match the one it had. */
  lemma UncleanMismatch(c: Config, w: World, id: AppendId)
    requires CanDeliverAppend(w, id) && c.receiver == AsWritten
    ensures var w' := DoDeliverAppend(c, w, id);
            && |w'.nodes| == |w.nodes|
            && (!CleanDelivery(w, id) ==> !Matching(w'.nodes[id.to].logs, w.nodes[id.to].logs))
  {
    hide HandleAppend, Conflicts, Matching, AppendCrashes, Merge;
    if !CleanDelivery(w, id) {
      var n, a := w.nodes[id.to], w.appendRpcs[id].args;
      MatchedLogs(n, a);
      hide AppendMatches;
      UncleanMerge(n.logs, a.prevLogIndex - n.snapIndex, a.entries);
    }
  }

  lemma MatchedLogs(n: Node, a: AppendArgs)
    requires AppendMatches(n, a)
    ensures HandleAppend(AsWritten, n, a).0.logs == Merge(AsWritten, n.logs, a.prevLogIndex - n.snapIndex, a.entries)
    ensures HandleAppend(AsWritten, n, a).0.snapIndex == n.snapIndex
  {
    hide Merge;
  }

  /** In a run of section 5.3 the logs of the terms' leaders only grow. */
  lemma {:induction false} TermLogsOnlyGrow(c: Config, run: seq<World>, i: nat, j: nat)
    requires IsRun(c, run) && i <= j < |run| && !c.compaction && c.receiver == Section53
    ensures TermLogsIncrease(run[i].termLogs, run[j].termLogs)
    decreases j
  {
    hide Enabled, Step, LogInv, Moves, Touched;
    if i < j {
      TermLogsOnlyGrow(c, run, i, j - 1);
      RunLog(c, run, j - 1);
      var e := RunStep(c, run, j - 1);
      StepKeepsLog(c, run[j - 1], e);
      var m := Touched(run[j - 1], e);
      MovesSize(run[j - 1], run[j], m, run[j].nodes[m].term);
    }
  }

  /** So logs held at different times match too. */
  lemma MatchingAcrossTime(c: Config, run: seq<World>, i: nat, j: nat, a: nat, b: nat)
    requires IsRun(c, run) && i <= j < |run| && !c.compaction && c.receiver == Section53
    requires a < |run[i].nodes| && b < |run[j].nodes|
    ensures Matching(run[i].nodes[a].logs, run[j].nodes[b].logs) && Matching(run[j].nodes[b].logs, run[i].nodes[a].logs)
  {
    hide IsRun, LogInv, FromTermLogs, TermLogsIncrease, Matching, ReplicationInv, PersistInv, VotesInv, CompleteInv,
      CandidatesOk;
    TermLogsOnlyGrow(c, run, i, j);
    RunLog(c, run, i);
    RunLog(c, run, j);
    LogParts(c, run[i]);
    LogParts(c, run[j]);
    FromTermLogsKept(run[i].termLogs, run[j].termLogs, run[i].nodes[a].logs);
    FromTermLogsMatch(run[j].termLogs, run[i].nodes[a].logs, run[j].nodes[b].logs);
    FromTermLogsMatch(run[j].termLogs, run[j].nodes[b].logs, run[i].nodes[a].logs);
  }

  /** The exact condition under which the code as written keeps Log Matching, over whole runs without compaction:
      logs match throughout if and only if no delivery keeps a tail behind a conflict. */
  lemma MatchedIffClean(c: Config, run: seq<World>)
    requires IsRun(c, run) && c.receiver == AsWritten && !c.compaction
    ensures IsCleanRun(c, run) <==> MatchedThroughout(run)
  {
    hide Enabled, Step, InitWorld, CleanDelivery, Matching;
    if IsCleanRun(c, run) {
      CleanRunIsSection53(c, run);
      hide IsRun, IsCleanRun;
      forall i: nat, j: nat, a: nat, b: nat | i < |run| && j < |run| && a < |run[i].nodes| && b < |run[j].nodes|
        ensures Matching(run[i].nodes[a].logs, run[j].nodes[b].logs)
      {
        var c' := c.(receiver := Section53);
        if i <= j { MatchingAcrossTime(c', run, i, j, a, b); } else { MatchingAcrossTime(c', run, j, i, b, a); }
      }
    }
    if MatchedThroughout(run) {
      forall i | 0 <= i < |run| - 1 ensures CleanNext(c, run[i], run[i + 1]) {
        MatchedStepIsClean(c, run, i);
      }
    }
  }

  lemma MatchedStepIsClean(c: Config, run: seq<World>, i: nat)
    requires IsRun(c, run) && c.receiver == AsWritten && MatchedThroughout(run) && i + 1 < |run|
    ensures CleanNext(c, run[i], run[i + 1])
  {
    hide IsRun, CleanDelivery, Matching, DoDeliverAppend;
    var e := RunStep(c, run, i);
    if e.DeliverAppend? {
      UncleanMismatch(c, run[i], e.append);
      assert Matching(run[i + 1].nodes[e.append.to].logs, run[i].nodes[e.append.to].logs);
    }
  }
}
