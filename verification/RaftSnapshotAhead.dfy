/** A run of five servers of the code as written, with snapshots, in which a heartbeat stops the leader's process.
    Server 0 leads term 1 and copies a, b, c to server 1. Server 2 leads term 2, copies x to server 4, then x and y
    to servers 1 and 3, and commits both; server 1 keeps c behind them, applies x and y and compacts them. Its last
    entry now is c, of term 1, so it votes for server 4, whose log ends with x. As leader of term 3 server 4 asks
    server 1 to continue after x and is told to send from index 3, which is past its own log. */
module RaftSnapshotAhead {
  import opened RaftTypes
  import opened RaftNode
  import opened RaftWorld
  import opened RaftMerge
  import opened RaftScript

  const FIVE := Config(5, AsWritten, true)
  const A := LogEntry("a", 1, 1)
  const B := LogEntry("b", 1, 2)
  const C := LogEntry("c", 1, 3)
  const X := LogEntry("x", 2, 1)
  const Y := LogEntry("y", 2, 2)

  /** Server 0 logs three commands and replicates them to server 1. */
  lemma TermOne() returns (w: World)
    ensures Quiet5(FIVE, w)
    ensures w.nodes[0].logs == [A, B, C] && w.nodes[0].term == 1
    ensures w.nodes[1] == VotedFor(Init(1, 5), 0, 1).(logs := [A, B, C])
    ensures w.nodes[2] == Init(2, 5) && w.nodes[3] == Init(3, 5) && w.nodes[4] == VotedFor(Init(4, 5), 0, 1)
  {
    hide Reachable, HandleAppend;
    w := TermOneStarts(FIVE);
    w := StartAt(FIVE, w, 0, "a");
    w := StartAt(FIVE, w, 0, "b");
    w := StartAt(FIVE, w, 0, "c");
    var args := MakeAppendArgs(w.nodes[0], 1);
    assert args == AppendArgs(1, 0, 0, 0, [A, B, C], 0);
    Accepts(w.nodes[1], args);
    w := Replicate(FIVE, w, 0, 1);
  }

  ghost predicate IsLeader(n: Node, logs: seq<LogEntry>, term: int) {
    && n.logs == logs && n.term == term && n.status == Leader && !HeartbeatStops(n)
    && |n.nextIndex| == |n.matchIndex| == 5 && forall p :: 0 <= p < 5 ==> 0 <= n.matchIndex[p] <= |logs|
  }

  /** Server 2 leads term 2 and sends server 4 its first entry. */
  lemma TermTwo() returns (w: World)
    ensures Quiet5(FIVE, w)
    ensures w.nodes[0].logs == [A, B, C] && w.nodes[0].term == 1
    ensures w.nodes[1].logs == [A, B, C] && w.nodes[1].term == 1
    ensures IsLeader(w.nodes[2], [X], 2) && w.nodes[2].nextIndex[1] == w.nodes[2].nextIndex[3] == 1
    ensures w.nodes[3].logs == [] && w.nodes[3].term == 2
    ensures w.nodes[4].logs == [X] && w.nodes[4].term == 2 && w.nodes[4].status == Follower
  {
    hide Reachable, HandleAppend, BecomeLeader;
    w := TermOne();
    w := StandAt(FIVE, w, 2);
    var n := BecomeCandidate(w.nodes[2]);
    w := Elect(FIVE, w, 2, 3, 4);
    LeaderIsPlain(n, 2);
    w := StartAt(FIVE, w, 2, "x");
    var args := MakeAppendArgs(w.nodes[2], 4);
    assert args == AppendArgs(2, 2, 0, 0, [X], 0);
    Accepts(w.nodes[4], args);
    w := Replicate(FIVE, w, 2, 4);
  }

  lemma LoggingBeats(n: Node, command: string)
    requires !HeartbeatStops(n)
    ensures !HeartbeatStops(Start(n, command))
  {
    var n' := Start(n, command);
    forall p | 0 <= p < |n'.nextIndex| && n'.status == Leader ensures !PastLog(n', p) { assert !PastLog(n, p); }
  }

  /** It logs a second entry, and a round to servers 1 and 3 commits both; server 1 keeps c behind them. */
  lemma Commits() returns (w: World)
    ensures Reachable(FIVE, w) && |w.nodes| == |w.emitted| == 5
    ensures w.nodes[0].logs == [A, B, C] && w.nodes[0].term == 1 && Plain(w.nodes[0], 0)
    ensures w.nodes[1].logs == [X, Y, C] && w.nodes[1].term == 2 && Plain(w.nodes[1], 1)
        && w.nodes[1].status == Follower
    ensures w.nodes[4].logs == [X] && w.nodes[4].term == 2 && w.nodes[4].status == Follower && Plain(w.nodes[4], 4)
    ensures var n := w.nodes[2];
            && IsLeader(n, [X, Y], 2) && n.nextIndex[1] == 3 && n.commitIndex == 2 && n.me == 2 && n.snapIndex == 0
  {
    hide Reachable, HandleAppend, HeartbeatStops;
    w := TermTwo();
    LoggingBeats(w.nodes[2], "y");
    w := StartAt(FIVE, w, 2, "y");
    var r := |w.rounds|;
    var to1, to3 := MakeAppendArgs(w.nodes[2], 1), MakeAppendArgs(w.nodes[2], 3);
    assert to1 == to3 == AppendArgs(2, 2, 0, 0, [X, Y], 0);
    Accepts(w.nodes[1], to1);
    Accepts(w.nodes[3], to3);
    var ok := AppendReply(2, true, 0, AppNormal);
    w := BeatAt(FIVE, w, 2);
    w := DeliverAt(FIVE, w, AppendId(r, 1), to1);
    w := DeliverAt(FIVE, w, AppendId(r, 3), to3);
    StillBeats(w.nodes[2], 1, to1, ok, 1);
    w := ReturnAt(FIVE, w, AppendId(r, 1), to1, ok);
    StillBeats(w.nodes[2], 3, to3, ok, 2);
    w := ReturnAt(FIVE, w, AppendId(r, 3), to3, ok);
  }

  /** Server 1 learns that x and y are committed, applies them and compacts them. */
  lemma Compacts() returns (w: World)
    ensures Reachable(FIVE, w) && |w.nodes| == 5
    ensures w.nodes[0].logs == [A, B, C] && w.nodes[0].term == 1 && Plain(w.nodes[0], 0)
    ensures w.nodes[1].logs == [C] && w.nodes[1].term == 2 && w.nodes[1].snapIndex == 2
    ensures w.nodes[4].logs == [X] && w.nodes[4].term == 2 && w.nodes[4].status == Follower && Plain(w.nodes[4], 4)
  {
    hide Reachable, HandleAppend, HeartbeatStops, ApplyLogs;
    w := Commits();
    var args := MakeAppendArgs(w.nodes[2], 1);
    assert args == AppendArgs(2, 2, 2, 2, [], 2);
    Accepts(w.nodes[1], args);
    w := Replicate(FIVE, w, 2, 1);
    assert w.nodes[1].logs == [X, Y, C];
    AppliesTwo(w.nodes[1]);
    w := ApplyAt(FIVE, w, 1);
    w := CompactAt(FIVE, w, 1, 2);
  }

  lemma AppliesTwo(n: Node)
    requires n.snapIndex == n.lastApplied == 0 && n.commitIndex == 2 <= |n.logs|
    ensures ApplyLogs(n).0 == n.(lastApplied := 2)
  {}

  /** Server 4 is elected by servers 0 and 1, whose last entries are of term 1. */
  lemma TermThree() returns (w: World)
    ensures Reachable(FIVE, w) && |w.nodes| == 5
    ensures w.nodes[1].logs == [C] && w.nodes[1].term == 3 && w.nodes[1].snapIndex == 2
    ensures IsLeader(w.nodes[4], [X], 3) && Plain(w.nodes[4], 4) && w.nodes[4].nextIndex[1] == 2
  {
    hide Reachable, BecomeLeader, HeartbeatStops;
    w := Compacts();
    var n := BecomeCandidate(w.nodes[4]);
    w := Elect(FIVE, w, 4, 0, 1);
    LeaderIsPlain(n, 4);
  }

  /** The code can stop there: a follower whose snapshot is past the leader's log asks for what comes after it, and
      the leader's next heartbeat finds nextIndex past its own last index. */
  lemma HeartbeatStopsAsWritten() returns (w: World)
    ensures Reachable(FIVE, w) && |w.nodes| == 5 && HeartbeatStops(w.nodes[4])
  {
    hide Reachable;
    w := TermThree();
    var id := AppendId(|w.rounds|, 1);
    var args := MakeAppendArgs(w.nodes[4], 1);
    var r := HandleAppend(AsWritten, w.nodes[1], args).1;
    assert r == Rejection(w.nodes[1], 3);
    w := BeatAt(FIVE, w, 4);
    w := DeliverAt(FIVE, w, id, args);
    w := ReturnAt(FIVE, w, id, args, r);
    assert PastLog(w.nodes[4], 1);
  }
}
