/** The replicated key-value state as a value: which commands take effect, and what a snapshot stands for. */
module KvState {
  import opened Keys

  datatype Op = Op(operation: string, key: Key, value: string, clientId: string, requestId: int)

  /** The pairs stored and the last request applied for each client. */
  datatype Db = Db(data: map<Key, string>, lastRequest: map<string, int>)

  const EMPTY := Db(map[], map[])

  predicate IsWrite(op: Op) { op.operation == "Put" || op.operation == "Append" }

  predicate Duplicate(db: Db, clientId: string, requestId: int) {
    clientId in db.lastRequest && requestId <= db.lastRequest[clientId]
  }

  /** One committed command. Append overwrites like Put; anything else, a Get for one, changes nothing. */
  function Exec(db: Db, op: Op): Db {
    if Duplicate(db, op.clientId, op.requestId) || !IsWrite(op) then db
    else Db(db.data[op.key := op.value], db.lastRequest[op.clientId := op.requestId])
  }

  function Replay(db: Db, ops: seq<Op>): Db {
    if ops == [] then db else Exec(Replay(db, ops[..|ops| - 1]), ops[|ops| - 1])
  }

  lemma {:induction false} ReplayAppend(db: Db, a: seq<Op>, b: seq<Op>)
    ensures Replay(db, a + b) == Replay(Replay(db, a), b)
  {
    if b == [] {
      assert a + b == a;
    } else {
      ReplayAppend(db, a, b[..|b| - 1]);
      assert (a + b)[..|a + b| - 1] == a + b[..|b| - 1];
    }
  }

  // ---------- exactly once ----------

  /** A Put or Append whose request id exceeds those of all earlier ones of its client. */
  ghost predicate Fresh(ops: seq<Op>, i: nat)
    requires i < |ops|
  {
    (ops[i].operation == "Put" || ops[i].operation == "Append") &&
    forall j :: 0 <= j < i && ops[j].clientId == ops[i].clientId ==>
      ops[j].operation == "Put" || ops[j].operation == "Append" ==> ops[j].requestId < ops[i].requestId
  }

  ghost function FreshOps(ops: seq<Op>): seq<Op> {
    if ops == [] then []
    else
      var n := |ops| - 1;
      FreshOps(ops[..n]) + if Fresh(ops, n) then [ops[n]] else []
  }

  /** The map left by writing one after the other, whatever the request ids. */
  function Written(ops: seq<Op>): map<Key, string> {
    if ops == [] then map[]
    else
      var n := |ops| - 1;
      Written(ops[..n])[ops[n].key := ops[n].value]
  }

  /** The table holds the largest request id among the Puts and Appends of each client that has sent any. */
  ghost predicate IsTable(ops: seq<Op>, table: map<string, int>) {
    && (forall i :: 0 <= i < |ops| && (ops[i].operation == "Put" || ops[i].operation == "Append") ==>
          ops[i].clientId in table && ops[i].requestId <= table[ops[i].clientId])
    && (forall c :: c in table ==>
          exists i :: 0 <= i < |ops| && (ops[i].operation == "Put" || ops[i].operation == "Append")
                      && ops[i].clientId == c && ops[i].requestId == table[c])
  }

  /** One command, written out: a Put or Append with an id above the one recorded for its client, or from a client
      with none, stores its value at its key and its id for the client; anything else changes nothing. */
  lemma ExecMeans(db: Db, op: Op)
    ensures if (op.operation == "Put" || op.operation == "Append")
               && (op.clientId in db.lastRequest ==> op.requestId > db.lastRequest[op.clientId])
            then Exec(db, op) == Db(db.data[op.key := op.value], db.lastRequest[op.clientId := op.requestId])
            else Exec(db, op) == db
  {}

  /** Applying a list leaves what its fresh writes leave, in order, and a table of each client's largest id. */
  lemma {:induction false} ExactlyOnce(ops: seq<Op>)
    ensures Replay(EMPTY, ops).data == Written(FreshOps(ops))
    ensures IsTable(ops, Replay(EMPTY, ops).lastRequest)
  {
    if ops == [] {
    } else {
      hide IsTable, Fresh, Written, Duplicate, IsWrite;
      var n := |ops| - 1;
      ExactlyOnce(ops[..n]);
      OneMoreOp(ops, Replay(EMPTY, ops[..n]));
    }
  }

  lemma OneMoreOp(ops: seq<Op>, db: Db)
    requires ops != [] && db.data == Written(FreshOps(ops[..|ops| - 1])) && IsTable(ops[..|ops| - 1], db.lastRequest)
    ensures var db' := Exec(db, ops[|ops| - 1]); db'.data == Written(FreshOps(ops)) && IsTable(ops, db'.lastRequest)
  {
    hide IsTable, Fresh, Written, Duplicate, IsWrite;
    var n := |ops| - 1;
    FreshIsNotDuplicate(ops, db);
    FreshOne(ops);
    hide FreshOps;
    assert ops == ops[..n] + [ops[n]];
    TableGrows(ops[..n], db, ops[n]);
  }

  lemma FreshOne(ops: seq<Op>)
    requires ops != []
    ensures var n := |ops| - 1;
            Written(FreshOps(ops))
            == if Fresh(ops, n) then Written(FreshOps(ops[..n]))[ops[n].key := ops[n].value]
              else Written(FreshOps(ops[..n]))
  {
    hide Fresh, Written;
    var n := |ops| - 1;
    WrittenOne(FreshOps(ops[..n]), ops[n]);
    assert FreshOps(ops[..n]) + [] == FreshOps(ops[..n]);
  }

  lemma WrittenOne(ops: seq<Op>, op: Op)
    ensures Written(ops + [op]) == Written(ops)[op.key := op.value]
  {
    assert (ops + [op])[..|ops|] == ops;
  }

  lemma FreshIsNotDuplicate(ops: seq<Op>, db: Db)
    requires ops != [] && IsTable(ops[..|ops| - 1], db.lastRequest)
    ensures var op := ops[|ops| - 1]; Fresh(ops, |ops| - 1) <==>
        IsWrite(op) && !Duplicate(db, op.clientId, op.requestId)
  {
    var n := |ops| - 1;
    var init, op := ops[..n], ops[n];
    assert forall j :: 0 <= j < n ==> init[j] == ops[j];
    if op.clientId in db.lastRequest {
      var i :| 0 <= i < |init| && IsWrite(init[i]) && init[i].clientId == op.clientId
               && init[i].requestId == db.lastRequest[op.clientId];
      assert ops[i] == init[i];
    }
  }

  lemma TableGrows(ops: seq<Op>, db: Db, op: Op)
    requires IsTable(ops, db.lastRequest)
    ensures IsTable(ops + [op], Exec(db, op).lastRequest)
  {
    var more, table := ops + [op], Exec(db, op).lastRequest;
    forall c | c in table
      ensures exists i :: 0 <= i < |more| && IsWrite(more[i]) && more[i].clientId == c && more[i].requestId == table[c]
    {
      if c in db.lastRequest && table[c] == db.lastRequest[c] {
        var i :| 0 <= i < |ops| && IsWrite(ops[i]) && ops[i].clientId == c && ops[i].requestId == table[c];
        assert more[i] == ops[i];
      } else {
        assert more[|ops|] == op;
      }
    }
  }

  // ---------- feeding again ----------

  /** The command would have no effect now. */
  predicate Spent(db: Db, op: Op) { IsWrite(op) ==> Duplicate(db, op.clientId, op.requestId) }

  lemma SpentStays(db: Db, op: Op, other: Op)
    requires Spent(db, op)
    ensures Spent(Exec(db, other), op)
  {}

  lemma {:induction false} ReplayedIsSpent(db: Db, ops: seq<Op>, i: nat)
    requires i < |ops|
    ensures Spent(Replay(db, ops), ops[i])
  {
    var n := |ops| - 1;
    if i < n {
      ReplayedIsSpent(db, ops[..n], i);
      SpentStays(Replay(db, ops[..n]), ops[i], ops[n]);
    }
  }

  /** Feeding any commands that have been fed, in any order and any number of times, changes nothing. */
  lemma {:induction false} FeedingAgain(db: Db, ops: seq<Op>, again: seq<Op>)
    requires forall op :: op in again ==> op in ops
    ensures Replay(Replay(db, ops), again) == Replay(db, ops)
  {
    if again != [] {
      FeedingAgain(db, ops, again[..|again| - 1]);
      assert again[|again| - 1] in again;
      var i :| 0 <= i < |ops| && ops[i] == again[|again| - 1];
      ReplayedIsSpent(db, ops, i);
    }
  }

  // ---------- committed commands by index ----------

  datatype Command = Command(op: Op, index: int)

  /** The commands of a list that a server whose snapshot ends at `last` does not skip. */
  function Unskipped(last: int, commands: seq<Command>): seq<Op> {
    if commands == [] then []
    else
      var n := |commands| - 1;
      Unskipped(last, commands[..n]) + if commands[n].index <= last then [] else [commands[n].op]
  }

  function Ops(commands: seq<Command>): (r: seq<Op>)
    ensures |r| == |commands| && forall i :: 0 <= i < |r| ==> r[i] == commands[i].op
  {
    seq(|commands|, i requires 0 <= i < |commands| => commands[i].op)
  }

  /** A log of commands carries the indices from 1 on. */
  predicate InOrder(commands: seq<Command>) {
    forall i :: 0 <= i < |commands| ==> commands[i].index == i + 1
  }

  lemma {:induction false} UnskippedSuffix(commands: seq<Command>, cut: nat)
    requires InOrder(commands) && cut <= |commands|
    ensures Unskipped(cut, commands) == Ops(commands[cut..])
    ensures Unskipped(cut, commands[cut..]) == Ops(commands[cut..])
  {
    if cut < |commands| {
      var n := |commands| - 1;
      UnskippedSuffix(commands[..n], cut);
      assert commands[cut..][..n - cut] == commands[..n][cut..];
      OpsLast(commands[cut..]);
    } else {
      SkippedAll(commands, cut);
    }
  }

  lemma OpsLast(commands: seq<Command>)
    requires commands != []
    ensures var n := |commands| - 1; Ops(commands) == Ops(commands[..n]) + [commands[n].op]
  {}

  lemma {:induction false} NoneSkipped(commands: seq<Command>, last: int)
    requires forall i :: 0 <= i < |commands| ==> commands[i].index > last
    ensures Unskipped(last, commands) == Ops(commands)
  {
    if commands != [] {
      NoneSkipped(commands[..|commands| - 1], last);
      OpsLast(commands);
    }
  }

  lemma {:induction false} SkippedAll(commands: seq<Command>, cut: int)
    requires forall i :: 0 <= i < |commands| ==> commands[i].index <= cut
    ensures Unskipped(cut, commands) == []
  {
    if commands != [] { SkippedAll(commands[..|commands| - 1], cut); }
  }

  /** Restoring what the first `cut` commands left and feeding the rest, or the whole list again, is the same
      as one full run. */
  lemma SnapshotAndSuffix(commands: seq<Command>, cut: nat)
    requires InOrder(commands) && cut <= |commands|
    ensures var full := Replay(EMPTY, Ops(commands));
            var snapshot := Replay(EMPTY, Ops(commands[..cut]));
            && Replay(snapshot, Unskipped(cut, commands[cut..])) == full
            && Replay(snapshot, Unskipped(cut, commands)) == full
  {
    hide Replay, Unskipped, InOrder;
    UnskippedSuffix(commands, cut);
    ReplayAppend(EMPTY, Ops(commands[..cut]), Ops(commands[cut..]));
    assert Ops(commands) == Ops(commands[..cut]) + Ops(commands[cut..]);
  }
}
