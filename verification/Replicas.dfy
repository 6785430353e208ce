/** Raft and the key-value server together: servers that have applied as much hold the same pairs. Same
    setting as RaftCommit: no compaction, the receiver of section 5.3. */
module Replicas {
  import opened RaftTypes
  import opened RaftNode
  import opened RaftWorld
  import opened RaftCommit
  import opened KvState

  /** The commands of a stream as the key-value server reads them; a command string decodes to an Op. */
  function Decoded(decode: string -> Op, stream: seq<ApplyMsg>): (r: seq<Op>)
    requires forall x :: 0 <= x < |stream| ==> stream[x].CommandMsg?
    ensures |r| == |stream| && forall x :: 0 <= x < |r| ==> r[x] == decode(stream[x].command)
  {
    seq(|stream|, x requires 0 <= x < |stream| => decode(stream[x].command))
  }

  /** At any two points of a run, the server that has handed over less is a replay of the rest behind the other
      one; servers that have handed over equally many commands are in the same state. */
  lemma ReplicasAgree(c: Config, run: seq<World>, i: nat, j: nat, a: nat, b: nat, decode: string -> Op)
    requires IsRun(c, run) && i < |run| && j < |run| && !c.compaction && c.receiver == Section53
    requires a < |run[i].nodes| == |run[i].emitted| && b < |run[j].nodes| == |run[j].emitted|
    requires |run[i].emitted[a]| <= |run[j].emitted[b]|
    ensures (forall x :: 0 <= x < |run[i].emitted[a]| ==> run[i].emitted[a][x].CommandMsg?)
            && (forall x :: 0 <= x < |run[j].emitted[b]| ==> run[j].emitted[b][x].CommandMsg?)
    ensures var p, q := Decoded(decode, run[i].emitted[a]), Decoded(decode, run[j].emitted[b]);
            p <= q && Replay(EMPTY, q) == Replay(Replay(EMPTY, p), q[|p|..])
  {
    hide IsRun, Replay;
    var p, q := run[i].emitted[a], run[j].emitted[b];
    forall x | 0 <= x < |p| ensures p[x].CommandMsg? && p[x] == q[x] {
      if i <= j { StateMachineSafety(c, run, i, j, a, b, x); } else { StateMachineSafety(c, run, j, i, b, a, x); }
    }
    forall x | 0 <= x < |q| ensures q[x].CommandMsg? { StateMachineSafety(c, run, j, j, b, b, x); }
    var p', q' := Decoded(decode, p), Decoded(decode, q);
    assert q' == p' + q'[|p'|..];
    ReplayAppend(EMPTY, p', q'[|p'|..]);
  }
}
