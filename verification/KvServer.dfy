/** The key-value server: a skip list of pairs and a table of request ids that committed commands update, and
    the snapshots that replace both. */
module KvServers {
  import opened Keys
  import opened KvState
  import opened SkipLists

  /** What a snapshot string is made of; the empty string is none. */
  datatype Snapshot = NoSnapshot | Snapshot(kvData: Dump, lastRequest: map<string, int>)

  /** The state a snapshot stands for, for a server that is in state db. */
  function Restored(s: Snapshot, db: Db): Db {
    match s
    case NoSnapshot => db
    case Snapshot(Empty, table) => Db(db.data, table)
    case Snapshot(Unreadable, table) => Db(map[], table)
    case Snapshot(Pairs(keys, values), table) => Db(Loaded(keys, values), table)
  }

  class KvServer {
    const list: SkipList
    var lastRequestId: map<string, int>
    var lastSnapshotIndex: int

    ghost predicate Valid()
      reads this, list, Towers(list.all)
    {
      list.Valid()
    }

    ghost function State(): Db
      reads this, list
    {
      Db(list.contents, lastRequestId)
    }

    constructor ()
      ensures Valid() && fresh(list) && fresh(Towers(list.all)) && State() == EMPTY && lastSnapshotIndex == 0
      ensures list.maxLevel == 6
    {
      list := new SkipList(6);
      lastRequestId, lastSnapshotIndex := map[], 0;
    }

    method IfRequestDuplicate(clientId: string, requestId: int) returns (duplicate: bool)
      ensures duplicate <==> Duplicate(State(), clientId, requestId)
    {
      if clientId !in lastRequestId {
        return false;
      }
      duplicate := requestId <= lastRequestId[clientId];
    }

    /** Put and Append do the same. */
    method ExecuteWrite(op: Op, heads: nat)
      requires Valid()
      modifies this, list, Towers(list.all)
      ensures Valid() && fresh(Towers(list.all) - old(Towers(list.all))) && lastSnapshotIndex == old(lastSnapshotIndex)
      ensures State() == Db(old(list.contents)[op.key := op.value], old(lastRequestId)[op.clientId := op.requestId])
    {
      list.InsertSetElement(op.key, op.value, heads);
      lastRequestId := lastRequestId[op.clientId := op.requestId];
    }

    /** Applies one committed command, unless the last installed snapshot covers it, and makes a snapshot when
        the log has grown too big. */
    method GetCommandFromRaft(c: Command, heads: nat, tooBig: bool) returns (snapshot: Snapshot)
      requires Valid()
      modifies this, list, Towers(list.all)
      ensures Valid() && fresh(Towers(list.all) - old(Towers(list.all))) && lastSnapshotIndex == old(lastSnapshotIndex)
      ensures State() == Replay(old(State()), Unskipped(lastSnapshotIndex, [c]))
      ensures var op := c.op;
              if c.index > lastSnapshotIndex && (op.operation == "Put" || op.operation == "Append")
                 && (op.clientId in old(lastRequestId) ==> op.requestId > old(lastRequestId)[op.clientId])
              then
                && list.contents == old(list.contents)[op.key := op.value]
                && lastRequestId == old(lastRequestId)[op.clientId := op.requestId]
              else State() == old(State())
      ensures snapshot.Snapshot? <==> c.index > lastSnapshotIndex && tooBig
      ensures snapshot.Snapshot? ==> forall db :: Restored(snapshot, db) == State()
    {
      hide SkipList.Valid;
      snapshot := NoSnapshot;
      UnskippedOne(lastSnapshotIndex, c);
      ReplayOne(State(), c.op);
      ExecMeans(State(), c.op);
      if c.index <= lastSnapshotIndex {
        return;
      }
      var duplicate := IfRequestDuplicate(c.op.clientId, c.op.requestId);
      if !duplicate && (c.op.operation == "Put" || c.op.operation == "Append") {
        ExecuteWrite(c.op, heads);
      }
      if tooBig {
        snapshot := MakeSnapShot();
      }
    }

    /** Applies what the Raft server hands over, in order. */
    method ReadRaftApplyCommands(commands: seq<Command>, heads: nat -> nat)
      requires Valid()
      modifies this, list, Towers(list.all)
      ensures Valid() && fresh(Towers(list.all) - old(Towers(list.all))) && lastSnapshotIndex == old(lastSnapshotIndex)
      ensures State() == Replay(old(State()), Unskipped(lastSnapshotIndex, commands))
    {
      hide SkipList.Valid, Replay, Exec, Unskipped, Linked, Sorted, Holds;
      UnskippedNone(lastSnapshotIndex);
      ReplayOne(State(), Op("", "", "", "", 0));
      ghost var was := State();
      var i := 0;
      while i < |commands|
        invariant 0 <= i <= |commands|
        invariant Valid() && fresh(Towers(list.all) - old(Towers(list.all)))
            && lastSnapshotIndex == old(lastSnapshotIndex)
        invariant State() == Replay(was, Unskipped(lastSnapshotIndex, commands[..i]))
      {
        var _ := GetCommandFromRaft(commands[i], heads(i), false);
        UnskippedMore(lastSnapshotIndex, commands[..i], commands[i]);
        ReplayAppend(was, Unskipped(lastSnapshotIndex, commands[..i]), Unskipped(lastSnapshotIndex, [commands[i]]));
        assert commands[..i + 1] == commands[..i] + [commands[i]];
        i := i + 1;
      }
      assert commands[..i] == commands;
    }

    /** A snapshot stands for the present state, whatever the state of the server that reads it. */
    method MakeSnapShot() returns (snapshot: Snapshot)
      requires Valid()
      ensures Valid() && snapshot.Snapshot? && forall db :: Restored(snapshot, db) == State()
    {
      var kvData := list.DumpFile();
      snapshot := Snapshot(kvData, lastRequestId);
    }

    method ReadSnapShotToInstall(snapshot: Snapshot, heads: nat -> nat)
      requires Valid()
      modifies this, list, Towers(list.all)
      ensures Valid() && fresh(Towers(list.all) - old(Towers(list.all))) && lastSnapshotIndex == old(lastSnapshotIndex)
      ensures State() == Restored(snapshot, old(State()))
      ensures snapshot.NoSnapshot? ==> State() == old(State())
      ensures snapshot.Snapshot? ==>
          && lastRequestId == snapshot.lastRequest
          && match snapshot.kvData
             case Empty => list.contents == old(list.contents)
             case Unreadable => list.contents == map[]
             case Pairs(keys, values) => list.contents == Loaded(keys, values)
    {
      if snapshot.NoSnapshot? { return; }
      lastRequestId := snapshot.lastRequest;
      list.LoadFile(snapshot.kvData, heads);
    }

    /** Installs a snapshot that Raft has accepted; commands up to its index are skipped from then on. */
    method GetSnapShotFromRaft(snapshot: Snapshot, index: int, accepted: bool, heads: nat -> nat)
      requires Valid()
      modifies this, list, Towers(list.all)
      ensures Valid() && fresh(Towers(list.all) - old(Towers(list.all)))
      ensures State() == if accepted then Restored(snapshot, old(State())) else old(State())
      ensures lastSnapshotIndex == if accepted then index else old(lastSnapshotIndex)
    {
      if accepted {
        ReadSnapShotToInstall(snapshot, heads);
        lastSnapshotIndex := index;
      }
    }
  }

  lemma UnskippedOne(last: int, c: Command)
    ensures Unskipped(last, [c]) == if c.index <= last then [] else [c.op]
  {
    assert [c][..0] == [];
  }

  lemma UnskippedNone(last: int)
    ensures Unskipped(last, []) == []
  {}

  lemma UnskippedMore(last: int, commands: seq<Command>, c: Command)
    ensures Unskipped(last, commands + [c]) == Unskipped(last, commands) + Unskipped(last, [c])
  {
    UnskippedOne(last, c);
    assert (commands + [c])[..|commands|] == commands;
  }

  lemma ReplayOne(db: Db, op: Op)
    ensures Replay(db, [op]) == Exec(db, op) && Replay(db, []) == db
  {
    assert [op][..0] == [];
  }

  /** For any command list, any cut and any tower heights: a server that restores the snapshot taken after the
      cut, and is then fed the rest or the whole list, ends in the state of one that ran the whole list. */
  method SnapshotRoundTrip(commands: seq<Command>, cut: nat, again: bool, heads: nat -> nat, otherHeads: nat -> nat)
    returns (full: KvServer, restored: KvServer)
    requires InOrder(commands) && cut <= |commands|
    ensures full.Valid() && restored.Valid()
    ensures restored.State() == full.State() == Replay(EMPTY, Ops(commands))
  {
    hide SkipList.Valid, Replay, Exec, Unskipped, Linked, Sorted, Holds;
    full := new KvServer();
    full.ReadRaftApplyCommands(commands[..cut], heads);
    var snapshot := full.MakeSnapShot();
    full.ReadRaftApplyCommands(commands[cut..], heads);
    restored := new KvServer();
    restored.GetSnapShotFromRaft(snapshot, cut, true, otherHeads);
    restored.ReadRaftApplyCommands(if again then commands else commands[cut..], otherHeads);
    NoneSkipped(commands[..cut], 0);
    NoneSkipped(commands[cut..], 0);
    UnskippedSuffix(commands, cut);
    SnapshotAndSuffix(commands, cut);
  }
}
