/** What keeping the tail costs. A run of five servers of the code as written, without compaction, in which Log
    Matching fails, and which goes on to break Leader Completeness and State Machine Safety. Commands a and b are
    logged in term 1 by server 0 and copied to server 1. In term 2 server 2, elected without them, logs x and sends
    it to server 1, where it takes the place of a and b stays. In term 3 server 1 is elected because its log ends
    like that of server 0, logs z, and matches server 0 at b; so both commit and apply everything through z, and
    server 0 has applied a where server 1 has applied x. */
module RaftCounterexample {
  import opened RaftTypes
  import opened RaftNode
  import opened RaftWorld
  import opened RaftLog
  import opened RaftMerge
  import opened RaftScript

  const FIVE := Config(5, AsWritten, false)
  const A := LogEntry("a", 1, 1)
  const B := LogEntry("b", 1, 2)
  const X := LogEntry("x", 2, 1)
  const Z := LogEntry("z", 3, 3)

  /** It logs two commands and replicates them to server 1. */
  lemma TermOne() returns (w: World)
    ensures Quiet5(FIVE, w)
    ensures w.nodes[0].logs == [A, B] && w.nodes[0].term == 1
    ensures w.nodes[1] == VotedFor(Init(1, 5), 0, 1).(logs := [A, B])
    ensures w.nodes[2] == Init(2, 5) && w.nodes[3] == Init(3, 5) && w.nodes[4] == VotedFor(Init(4, 5), 0, 1)
  {
    hide Reachable, HandleAppend;
    w := TermOneStarts(FIVE);
    w := StartAt(FIVE, w, 0, "a");
    w := StartAt(FIVE, w, 0, "b");
    var args := MakeAppendArgs(w.nodes[0], 1);
    assert args == AppendArgs(1, 0, 0, 0, [A, B], 0);
    Accepts(w.nodes[1], args);
    w := Replicate(FIVE, w, 0, 1);
  }

  /** Server 2 leads term 2 and sends server 1 its one entry. */
  lemma TermTwo() returns (w: World)
    ensures Quiet5(FIVE, w)
    ensures w.nodes[0].logs == [A, B] && w.nodes[0].term == 1
    ensures w.nodes[1].logs == [X, B] && w.nodes[1].term == 2 && w.nodes[1].status == Follower
    ensures w.nodes[4].logs == [] && w.nodes[4].term == 2
  {
    hide Reachable, HandleAppend;
    w := TermOne();
    w := StandAt(FIVE, w, 2);
    w := Elect(FIVE, w, 2, 3, 4);
    w := StartAt(FIVE, w, 2, "x");
    var args := MakeAppendArgs(w.nodes[2], 1);
    assert args == AppendArgs(2, 2, 0, 0, [X], 0);
    Accepts(w.nodes[1], args);
    w := Replicate(FIVE, w, 2, 1);
  }

  /** Log Matching fails: servers 0 and 1 hold the same second entry after different first ones. */
  lemma LogMatchingFailsAsWritten() returns (w: World)
    ensures Reachable(FIVE, w) && |w.nodes| == 5
    ensures !Matching(w.nodes[0].logs, w.nodes[1].logs)
  {
    hide Reachable, Plain, Matching;
    w := TermTwo();
    Mismatch(w.nodes[0].logs, w.nodes[1].logs, 0, 1);
  }

  /** Server 1 leads term 3, with the votes of servers 0 and 4, and logs z. */
  lemma TermThree() returns (w: World)
    ensures Quiet5(FIVE, w)
    ensures w.nodes[0].logs == [A, B] && w.nodes[0].term == 3 && w.nodes[0].status == Follower
    ensures w.nodes[4].logs == [] && w.nodes[4].term == 3 && w.nodes[4].status == Follower
    ensures var n := w.nodes[1];
            && n.logs == [X, B, Z] && n.term == 3 && n.status == Leader && !HeartbeatStops(n)
            && |n.nextIndex| == |n.matchIndex| == 5 && n.nextIndex[0] == n.nextIndex[4] == 3
            && n.matchIndex[0] == n.matchIndex[4] == 0
  {
    hide Reachable, BecomeLeader;
    w := TermTwo();
    var n := BecomeCandidate(w.nodes[1]);
    w := Elect(FIVE, w, 1, 0, 4);
    LeaderIsPlain(n, 1);
    w := StartAt(FIVE, w, 1, "z");
  }

  /** Its first round teaches it that server 4 has nothing. */
  lemma FirstRound() returns (w: World)
    ensures Quiet5(FIVE, w)
    ensures w.nodes[0].logs == [A, B] && w.nodes[0].term == 3 && w.nodes[0].status == Follower
    ensures w.nodes[4].logs == [] && w.nodes[4].term == 3 && w.nodes[4].status == Follower
    ensures var n := w.nodes[1];
            && n.logs == [X, B, Z] && n.term == 3 && n.status == Leader && !HeartbeatStops(n)
            && |n.nextIndex| == |n.matchIndex| == 5 && n.nextIndex[0] == 3 && n.nextIndex[4] == 1
            && n.matchIndex[0] == n.matchIndex[4] == 0
  {
    hide Reachable, HeartbeatStops;
    w := TermThree();
    var id := AppendId(|w.rounds|, 4);
    var args := MakeAppendArgs(w.nodes[1], 4);
    var r := HandleAppend(AsWritten, w.nodes[4], args).1;
    assert r == Rejection(w.nodes[4], 1);
    w := BeatAt(FIVE, w, 1);
    w := DeliverAt(FIVE, w, id, args);
    StillBeats(w.nodes[1], 4, args, r, 1);
    w := ReturnAt(FIVE, w, id, args, r);
  }

  /** Its second round finds b at server 0 and puts z behind it, gives server 4 everything, and commits z. */
  lemma SecondRound() returns (w: World)
    ensures Reachable(FIVE, w) && |w.nodes| == |w.emitted| == 5 && w.emitted == [[], [], [], [], []]
    ensures Plain(w.nodes[0], 0) && w.nodes[0].logs == [A, B, Z] && w.nodes[0].term == 3
    ensures var n := w.nodes[1];
            && n.logs == [X, B, Z] && n.term == 3 && n.status == Leader && !HeartbeatStops(n) && n.me == 1
                 && n.peers == 5
            && n.snapIndex == n.snapTerm == n.lastApplied == 0 && n.commitIndex == 3
            && |n.nextIndex| == |n.matchIndex| == 5 && n.nextIndex[0] == 4
  {
    hide Reachable, HandleAppend, HeartbeatStops;
    w := FirstRound();
    var r := |w.rounds|;
    var to0, to4 := MakeAppendArgs(w.nodes[1], 0), MakeAppendArgs(w.nodes[1], 4);
    assert to0 == AppendArgs(3, 1, 2, 1, [Z], 0) && to4 == AppendArgs(3, 1, 0, 0, [X, B, Z], 0);
    Accepts(w.nodes[0], to0);
    Accepts(w.nodes[4], to4);
    var ok := AppendReply(3, true, 0, AppNormal);
    w := BeatAt(FIVE, w, 1);
    w := DeliverAt(FIVE, w, AppendId(r, 0), to0);
    w := DeliverAt(FIVE, w, AppendId(r, 4), to4);
    StillBeats(w.nodes[1], 0, to0, ok, 1);
    w := ReturnAt(FIVE, w, AppendId(r, 0), to0, ok);
    StillBeats(w.nodes[1], 4, to4, ok, 2);
    w := ReturnAt(FIVE, w, AppendId(r, 4), to4, ok);
  }

  /** Its third round tells server 0 that z is committed. */
  lemma ThirdRound() returns (w: World)
    ensures Reachable(FIVE, w) && |w.nodes| == |w.emitted| == 5 && w.emitted == [[], [], [], [], []]
    ensures w.nodes[0].logs == [A, B, Z] && w.nodes[1].logs == [X, B, Z]
    ensures w.nodes[0].term == w.nodes[1].term == 3 && w.nodes[1].status == Leader
    ensures forall i :: 0 <= i < 2 ==>
              w.nodes[i].snapIndex == w.nodes[i].lastApplied == 0 && w.nodes[i].commitIndex == 3
  {
    hide Reachable, HandleAppend, HeartbeatStops;
    w := SecondRound();
    var args := MakeAppendArgs(w.nodes[1], 0);
    assert args == AppendArgs(3, 1, 3, 3, [], 3);
    Accepts(w.nodes[0], args);
    w := Replicate(FIVE, w, 1, 0);
  }

  /** Leader Completeness fails: server 0 has committed a at index 1, and the leader of its term has x there. */
  lemma LeaderCompletenessFailsAsWritten() returns (w: World)
    ensures Reachable(FIVE, w) && |w.nodes| == 5
    ensures var node, leader := w.nodes[0], w.nodes[1];
            && leader.status == Leader && leader.term == node.term && 1 <= node.commitIndex <= |node.logs|
            && !(node.logs[..node.commitIndex] <= leader.logs)
  {
    hide Reachable;
    w := ThirdRound();
    assert w.nodes[0].logs[..3][0] != w.nodes[1].logs[0];
  }

  lemma AppliesAll(n: Node)
    requires n.snapIndex == n.lastApplied == 0 && n.commitIndex == |n.logs| == 3
    ensures ApplyLogs(n).1
            == [CommandMsg(n.logs[0].command, 1), CommandMsg(n.logs[1].command, 2), CommandMsg(n.logs[2].command, 3)]
  {}

  /** State Machine Safety fails: servers 0 and 1 have handed over different commands for index 1. */
  lemma StateMachineSafetyFailsAsWritten() returns (w: World)
    ensures Reachable(FIVE, w) && |w.emitted| == 5
    ensures w.emitted[0] == [CommandMsg("a", 1), CommandMsg("b", 2), CommandMsg("z", 3)]
    ensures w.emitted[1] == [CommandMsg("x", 1), CommandMsg("b", 2), CommandMsg("z", 3)]
  {
    hide Reachable, ApplyLogs;
    w := ThirdRound();
    AppliesAll(w.nodes[0]);
    AppliesAll(w.nodes[1]);
    w := ApplyAt(FIVE, w, 0);
    w := ApplyAt(FIVE, w, 1);
  }
}
