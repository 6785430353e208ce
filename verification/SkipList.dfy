/** The skip list: towers of forward pointers over one sorted chain. */
module SkipLists {
  import opened Keys

  class Node {
    const key: Key
    const value: string
    const forward: array<Node?>

    constructor (key: Key, value: string, level: nat)
      ensures this.key == key && this.value == value && fresh(forward)
      ensures forward.Length == level + 1 && forall i :: 0 <= i < forward.Length ==> forward[i] == null
    {
      this.key, this.value := key, value;
      this.forward := new Node?[level + 1](_ => null);
    }
  }

  // ---------- the shape a chain of towers must have ----------

  /** The position of the next tower after p that reaches level i, or the end. */
  ghost function NextAt(all: seq<Node>, p: nat, i: nat): (q: nat)
    requires p < |all|
    ensures p < q <= |all|
    ensures q < |all| ==> all[q].forward.Length > i
    ensures forall r :: p < r < q ==> all[r].forward.Length <= i
    decreases |all| - p
  {
    if p + 1 == |all| || all[p + 1].forward.Length > i then p + 1 else NextAt(all, p + 1, i)
  }

  /** Where the forward pointer of level i at position p has to lead. */
  ghost function Target(all: seq<Node>, p: nat, i: nat): Node?
    requires p < |all|
  {
    var q := NextAt(all, p, i);
    if q < |all| then all[q] else null
  }

  ghost predicate Sorted(all: seq<Node>) {
    forall p, q :: 1 <= p < q < |all| ==> Less(all[p].key, all[q].key)
  }

  /** The last position whose key is smaller than this one. */
  ghost function Rank(all: seq<Node>, key: Key): (s: nat)
    requires |all| > 0 && Sorted(all)
    ensures s < |all|
    ensures forall p :: 1 <= p <= s ==> Less(all[p].key, key)
    ensures forall p :: s < p < |all| ==> !Less(all[p].key, key)
  {
    if |all| == 1 then 0
    else
      var last := |all| - 1;
      if Less(all[last].key, key) then
        assert forall p :: 1 <= p < last ==> Less(all[p].key, key) by {
          forall p | 1 <= p < last ensures Less(all[p].key, key) { LessTransitive(all[p].key, all[last].key, key); }
        }
        last
      else Rank(all[..last], key)
  }

  // ---------- one tower more ----------

  ghost function With(all: seq<Node>, s: nat, x: Node): seq<Node>
    requires s < |all|
  {
    all[..s + 1] + [x] + all[s + 1..]
  }

  lemma NextIs(all: seq<Node>, p: nat, i: nat, q: nat)
    requires p < q <= |all| && (q < |all| ==> all[q].forward.Length > i)
    requires forall r :: p < r < q ==> all[r].forward.Length <= i
    ensures NextAt(all, p, i) == q
  {}

  lemma TargetBefore(all: seq<Node>, s: nat, x: Node, p: nat, i: nat)
    requires p <= s < |all|
    ensures Target(With(all, s, x), p, i)
            == if NextAt(all, p, i) > s && i < x.forward.Length then x else Target(all, p, i)
    ensures NextAt(With(all, s, x), p, i) > s <==> NextAt(all, p, i) > s
  {
    var q := NextAt(all, p, i);
    if q <= s {
      NextIs(With(all, s, x), p, i, q);
    } else if i < x.forward.Length {
      NextIs(With(all, s, x), p, i, s + 1);
    } else {
      NextIs(With(all, s, x), p, i, q + 1);
    }
  }

  lemma TargetAfter(all: seq<Node>, s: nat, x: Node, p: nat, i: nat)
    requires s < p < |all|
    ensures Target(With(all, s, x), p + 1, i) == Target(all, p, i)
  {
    NextIs(With(all, s, x), p + 1, i, NextAt(all, p, i) + 1);
  }

  lemma TargetOfNew(all: seq<Node>, s: nat, x: Node, p: nat, i: nat)
    requires p <= s < |all| && NextAt(all, p, i) > s
    ensures Target(With(all, s, x), s + 1, i) == Target(all, p, i)
  {
    NextIs(With(all, s, x), s + 1, i, NextAt(all, p, i) + 1);
  }

  ghost predicate DistinctTowers(all: seq<Node>) {
    forall p, q :: 0 <= p < q < |all| ==> all[p].forward != all[q].forward
  }

  ghost function Towers(all: seq<Node>): set<array<Node?>> {
    set n | n in all :: n.forward
  }

  /** Every pointer of every tower leads to the next tower that reaches its level. */
  ghost predicate Linked(all: seq<Node>)
    reads Towers(all)
  {
    forall p, i :: 0 <= p < |all| && 0 <= i < all[p].forward.Length ==> all[p].forward[i] == Target(all, p, i)
  }

  /** The chain holds exactly the pairs of the map. */
  ghost predicate Holds(all: seq<Node>, m: map<Key, string>) {
    && (forall p :: 1 <= p < |all| ==> all[p].key in m && m[all[p].key] == all[p].value)
    && (forall k :: k in m ==> exists p :: 1 <= p < |all| && all[p].key == k)
  }

  class SkipList {
    const maxLevel: nat
    const header: Node
    var skipListLevel: nat
    var elementCount: nat
    ghost var all: seq<Node>
    ghost var contents: map<Key, string>

    ghost predicate Valid()
      reads this, Towers(all)
    {
      && |all| > 0 && all[0] == header && header.forward.Length == maxLevel + 1
      && Sorted(all) && DistinctTowers(all) && Linked(all) && Holds(all, contents)
      && elementCount == |all| - 1
      && skipListLevel <= maxLevel
      && (forall p :: 1 <= p < |all| ==> 1 <= all[p].forward.Length <= skipListLevel + 1)
      && (skipListLevel > 0 ==> header.forward[skipListLevel] != null)
    }

    constructor (maxLevel: nat)
      ensures Valid() && fresh(Towers(all))
      ensures contents == map[] && this.maxLevel == maxLevel
    {
      this.maxLevel := maxLevel;
      var h := new Node([], [], maxLevel);
      header := h;
      skipListLevel, elementCount := 0, 0;
      all, contents := [h], map[];
      new;
      assert forall n :: n in all ==> n == h;
    }

    /** The last node of level i, from position p on, whose key is smaller. */
    method Advance(from: Node, key: Key, i: nat, ghost p: nat) returns (current: Node, ghost q: nat)
      requires Valid() && p <= Rank(all, key) && from == all[p] && from.forward.Length > i
      ensures FoundAt(all, key, i, current, q)
      ensures q <= Rank(all, key) && current == all[q] && current.forward.Length > i
    {
      hide Less, DistinctTowers, Holds, Sorted;
      current, q := from, p;
      ghost var s := Rank(all, key);
      while current.forward[i] != null && Less(current.forward[i].key, key)
        invariant q <= s && current == all[q] && current.forward.Length > i
        decreases s - q
      {
        current, q := current.forward[i], NextAt(all, q, i);
      }
    }

    /** The last node of each level whose key is smaller. */
    method FindUpdate(key: Key) returns (update: seq<Node>, ghost pos: seq<nat>)
      requires Valid()
      ensures Found(all, key, skipListLevel, update, pos) && |update| == |pos| == maxLevel + 1
      ensures FoundAt(all, key, 0, update[0], Rank(all, key))
    {
      hide Less, DistinctTowers, Holds, Sorted, FoundAt, NextAt, Rank;
      var current := header;
      ghost var p: nat := 0;
      update, pos := seq(maxLevel + 1, _ => header), seq(maxLevel + 1, _ => 0);
      var i := skipListLevel + 1;
      while i > 0
        invariant 0 <= i <= skipListLevel + 1 && p <= Rank(all, key) && current == all[p] && current.forward.Length >= i
        invariant |update| == |pos| == maxLevel + 1
        invariant i <= skipListLevel ==> current == update[i] && p == pos[i]
        invariant forall j :: i <= j <= skipListLevel ==> FoundAt(all, key, j, update[j], pos[j])
        invariant forall j :: skipListLevel < j <= maxLevel ==> update[j] == header && pos[j] == 0
      {
        i := i - 1;
        current, p := Advance(current, key, i, p);
        update, pos := update[i := current], pos[i := p];
      }
      FoundLowest(all, key, current, p);
    }

    /** The number of times a fair coin comes up heads in a row decides the level, up to the maximum. */
    method GetRandomLevel(heads: nat) returns (k: nat)
      ensures k == if heads + 1 < maxLevel then heads + 1 else maxLevel
    {
      k := 1;
      var flips := heads;
      while flips > 0
        invariant k + flips == heads + 1
      {
        k, flips := k + 1, flips - 1;
      }
      k := if k < maxLevel then k else maxLevel;
    }

    /** Going down the levels finds what scanning the lowest one would. */
    method SearchElement(key: Key) returns (found: bool, value: string)
      requires Valid()
      ensures found <==> key in contents
      ensures found ==> value == contents[key]
      ensures forall p :: 1 <= p < |all| && all[p].key == key ==> found && value == all[p].value
    {
      hide Less;
      var update, pos := FindUpdate(key);
      var current := Candidate(update[0], key);
      if current != null && current.key == key {
        return true, current.value;
      }
      found, value := false, "";
    }

    /** The only node that can carry the key. */
    method Candidate(before: Node, key: Key) returns (current: Node?)
      requires Valid() && FoundAt(all, key, 0, before, Rank(all, key))
      ensures var k := Rank(all, key) + 1; current == if k < |all| then all[k] else null
      ensures key in contents <==> current != null && current.key == key
      ensures key in contents ==> contents[key] == current.value
    {
      hide Valid, Rank, Sorted, NextAt;
      LowestAfter(before, key);
      current := before.forward[0];
    }

    lemma LowestAfter(before: Node, key: Key)
      requires Valid() && FoundAt(all, key, 0, before, Rank(all, key))
      ensures var k := Rank(all, key) + 1;
              && before.forward.Length > 0 && before.forward[0] == (if k < |all| then all[k] else null)
              && (key in contents <==> k < |all| && all[k].key == key)
              && (key in contents ==> contents[key] == all[k].value)
    {
      hide Less, Sorted, DistinctTowers, Holds, Rank;
      FirstAfter(before, key);
      HeldAfter(all, contents, key);
    }

    lemma FirstAfter(before: Node, key: Key)
      requires Valid() && FoundAt(all, key, 0, before, Rank(all, key))
      ensures before.forward.Length > 0
      ensures var k := Rank(all, key) + 1; before.forward[0] == if k < |all| then all[k] else null
    {
      hide Less, Sorted, DistinctTowers, Holds, Rank;
      StepAt(Rank(all, key), 0);
      LowestStep(Rank(all, key));
    }

    /** Adds a pair under a key that is not there yet, with a tower of the given number of coin flips; does
        nothing when the key is there. */
    method InsertElement(key: Key, value: string, heads: nat) returns (inserted: bool)
      requires Valid()
      modifies this, Towers(all)
      ensures Valid() && fresh(Towers(all) - old(Towers(all)))
      ensures inserted <==> key !in old(contents)
      ensures contents == if inserted then old(contents)[key := value] else old(contents)
      ensures inserted ==>
          exists x :: x in all && x.key == key
                      && x.forward.Length == if heads + 1 < maxLevel then heads + 2 else maxLevel + 1
    {
      hide Valid, Found, FoundAt, Rank, Less;
      var update, pos := FindUpdate(key);
      var current := Candidate(update[0], key);
      if current != null && current.key == key {
        return false;
      }
      var level := GetRandomLevel(heads);
      var _ := AddTower(key, value, level, update, pos);
      inserted := true;
    }

    method AddTower(key: Key, value: string, level: nat, update: seq<Node>, ghost pos: seq<nat>) returns (x: Node)
      requires Valid() && key !in contents && level <= maxLevel
      requires Found(all, key, skipListLevel, update, pos) && |pos| == maxLevel + 1
      modifies this, Towers(all)
      ensures Valid() && fresh(Towers(all) - old(Towers(all)))
      ensures contents == old(contents)[key := value]
      ensures x in all && x.key == key && x.forward.Length == level + 1
    {
      hide Less, Sorted, DistinctTowers, FoundAt, Target, NextAt, Holds, Places, Rank, With, Spliced;
      ghost var s := Rank(all, key);
      x := new Node(key, value, level);
      FoundAbove(all, key, skipListLevel, level, update, pos);
      Splice(x, update, pos);
      SplicedIsLinked(all, key, x, update, pos);
      WithHolds(all, s, x, contents);
      WithSorted(all, s, x);
      WithTowers(all, s, x);
      WithHeights(all, s, x, skipListLevel);
      StillReached(all, x, pos);
      all, contents := With(all, s, x), contents[key := value];
      if level > skipListLevel {
        skipListLevel := level;
      }
      elementCount := elementCount + 1;
      NewIsIn(old(all), s, x);
    }

    lemma NewIsIn(all: seq<Node>, s: nat, x: Node)
      requires s < |all|
      ensures x in With(all, s, x)
    {
      assert With(all, s, x)[s + 1] == x;
    }

    /** Puts a new tower behind the nodes found, level by level. */
    method Splice(x: Node, update: seq<Node>, ghost pos: seq<nat>)
      requires |all| > 0 && DistinctTowers(all) && Linked(all) && x.forward !in Towers(all)
      requires Places(all, update, pos, x.forward.Length)
      modifies Towers(all), x.forward
      ensures Spliced(all, x, pos, x.forward.Length)
    {
      hide DistinctTowers, Target;
      var i := 0;
      assert Spliced(all, x, pos, 0);
      hide Spliced, Linked;
      while i < x.forward.Length
        invariant 0 <= i <= x.forward.Length && Spliced(all, x, pos, i)
      {
        assert update[i].forward in Towers(all);
        SpliceLevel(x, update[i], pos, i);
        i := i + 1;
      }
    }

    method SpliceLevel(x: Node, u: Node, ghost pos: seq<nat>, i: nat)
      requires Spliced(all, x, pos, i) && i < x.forward.Length && i < |pos| && pos[i] < |all|
      requires DistinctTowers(all) && x.forward !in Towers(all) && u == all[pos[i]] && u.forward.Length > i
      modifies u.forward, x.forward
      ensures Spliced(all, x, pos, i + 1)
    {
      hide Target;
      assert forall p :: 0 <= p < |all| && p != pos[i] ==> all[p].forward != u.forward;
      assert forall p :: 0 <= p < |all| ==> all[p].forward in Towers(all);
      hide DistinctTowers;
      x.forward[i] := u.forward[i];
      u.forward[i] := x;
    }

    /** Removes the pair under a key, if there is one, and lowers the level to the tallest tower left. */
    method DeleteElement(key: Key)
      requires Valid()
      modifies this, Towers(all)
      ensures Valid() && Towers(all) <= old(Towers(all))
      ensures contents == old(contents) - {key}
    {
      hide Valid, Found, FoundAt, Less, Rank;
      var update, pos := FindUpdate(key);
      var current := Candidate(update[0], key);
      if current != null && current.key == key {
        RemoveTower(current, update, pos);
      }
    }

    method RemoveTower(current: Node, update: seq<Node>, ghost pos: seq<nat>)
      requires Valid() && Rank(all, current.key) + 1 < |all| && current == all[Rank(all, current.key) + 1]
      requires Found(all, current.key, skipListLevel, update, pos)
      modifies this, Towers(all)
      ensures Valid() && Towers(all) <= old(Towers(all))
      ensures contents == old(contents) - {current.key}
    {
      hide Less, Sorted, DistinctTowers, FoundAt, Target, NextAt, Holds, Rank, Unspliced;
      ghost var key, s := current.key, Rank(all, current.key);
      Unsplice(current, s + 1, update, pos);
      UnsplicedIsLinked(all, key, s + 1, update, pos);
      WithoutHolds(all, s + 1, contents);
      WithoutSorted(all, s + 1);
      all, contents := Without(all, s + 1), contents - {key};
      elementCount := elementCount - 1;
      LowerLevel();
    }

    /** Lowers the level until a tower reaches it. */
    method LowerLevel()
      requires |all| > 0 && all[0] == header && header.forward.Length == maxLevel + 1 && Linked(all)
      requires skipListLevel <= maxLevel
      requires forall p :: 1 <= p < |all| ==> all[p].forward.Length <= skipListLevel + 1
      modifies this`skipListLevel
      ensures skipListLevel <= maxLevel
      ensures forall p :: 1 <= p < |all| ==> all[p].forward.Length <= skipListLevel + 1
      ensures skipListLevel > 0 ==> header.forward[skipListLevel] != null
    {
      hide Target, NextAt;
      while skipListLevel > 0 && header.forward[skipListLevel] == null
        invariant skipListLevel <= maxLevel
        invariant forall p :: 1 <= p < |all| ==> all[p].forward.Length <= skipListLevel + 1
      {
        TopIsEmpty(all, skipListLevel);
        skipListLevel := skipListLevel - 1;
      }
    }

    /** Makes the nodes found point past the tower at position d, level by level, up to its height. */
    method Unsplice(current: Node, ghost d: nat, update: seq<Node>, ghost pos: seq<nat>)
      requires 0 < d < |all| && Sorted(all) && DistinctTowers(all) && Linked(all)
      requires current == all[d] && d == Rank(all, current.key) + 1 && current.forward.Length <= skipListLevel + 1
      requires Found(all, current.key, skipListLevel, update, pos)
      modifies Towers(all)
      ensures Unspliced(all, d, pos, current.forward.Length)
    {
      hide Less, Sorted, DistinctTowers, Target, NextAt, Rank;
      var i := 0;
      assert Unspliced(all, d, pos, 0);
      hide Linked, Unspliced;
      while i <= skipListLevel
        invariant 0 <= i <= current.forward.Length && Unspliced(all, d, pos, i)
        invariant i == current.forward.Length ==> i <= skipListLevel + 1
      {
        PointsAtFound(all, current.key, d, i, update[i], pos);
        if update[i].forward[i] != current { break; }
        assert update[i].forward in Towers(all);
        UnspliceLevel(current, d, update[i], pos, i);
        i := i + 1;
      }
    }

    method UnspliceLevel(current: Node, ghost d: nat, u: Node, ghost pos: seq<nat>, i: nat)
      requires 0 < d < |all| && Unspliced(all, d, pos, i) && i < current.forward.Length && current == all[d]
      requires DistinctTowers(all) && i < |pos| && pos[i] < d && u == all[pos[i]] && u.forward.Length > i
      modifies u.forward
      ensures Unspliced(all, d, pos, i + 1)
    {
      hide Target;
      assert forall p :: 0 <= p < |all| && p != pos[i] ==> all[p].forward != u.forward;
      hide DistinctTowers;
      u.forward[i] := current.forward[i];
    }

    /** Stores a pair whether or not the key is there. */
    method InsertSetElement(key: Key, value: string, heads: nat)
      requires Valid()
      modifies this, Towers(all)
      ensures Valid() && fresh(Towers(all) - old(Towers(all)))
      ensures contents == old(contents)[key := value]
    {
      hide Valid;
      var found, oldValue := SearchElement(key);
      if found {
        DeleteElement(key);
      }
      var inserted := InsertElement(key, value, heads);
    }

    method Size() returns (n: nat)
      requires Valid()
      ensures n == |contents|
    {
      HeldOnce(all, contents);
      n := elementCount;
    }

    /** The nodes met by following the pointers of one level. */
    method LevelNodes(i: nat) returns (nodes: seq<Node>)
      requires Valid() && i <= maxLevel
      ensures nodes == Chain(all, 0, i) && Valid()
    {
      hide Valid, NextAt, Target, Chain;
      nodes := [];
      HeaderFirst();
      StepAt(0, i);
      var current := header.forward[i];
      ghost var p: nat := 0;
      while current != null
        invariant Valid() && p < |all| && current == Target(all, p, i)
        invariant nodes + Chain(all, p, i) == Chain(all, 0, i)
        decreases |all| - p
      {
        nodes := nodes + [current];
        ChainStep(all, p, i);
        p := NextAt(all, p, i);
        StepAt(p, i);
        current := current.forward[i];
      }
      ChainStep(all, p, i);
    }

    lemma HeaderFirst()
      requires Valid()
      ensures |all| > 0 && all[0] == header && header.forward.Length == maxLevel + 1
    {}

    lemma LowestStep(p: nat)
      requires Valid() && p < |all|
      ensures if p + 1 < |all| then Target(all, p, 0) == all[p + 1] && all[p + 1].forward.Length > 0
              else Target(all, p, 0) == null
      ensures Sorted(all) && Holds(all, contents)
    {}

    lemma StepAt(p: nat, i: nat)
      requires Valid() && p < |all| && i < all[p].forward.Length
      ensures all[p].forward[i] == Target(all, p, i)
    {}

    /** Every level in turn: the lowest is the whole chain, and each is a sublist of the one below. */
    method DisplayList() returns (levels: seq<seq<Node>>)
      requires Valid()
      ensures |levels| == skipListLevel + 1 && levels[0] == all[1..]
      ensures forall i :: 0 <= i < skipListLevel ==> Sublist(levels[i + 1], levels[i])
      ensures forall i, n: Node :: 0 <= i <= skipListLevel ==>
          (n in levels[i] <==> n in all[1..] && n.forward.Length > i)
      ensures forall i :: skipListLevel < i <= maxLevel ==> Chain(all, 0, i) == []
      ensures skipListLevel > 0 ==> levels[skipListLevel] != []
    {
      hide Valid, Chain, Sublist;
      LevelsNest();
      levels := [];
      var i: nat := 0;
      while i <= skipListLevel
        invariant Valid() && i <= skipListLevel + 1 && |levels| == i && skipListLevel <= maxLevel
        invariant forall j :: 0 <= j < i ==> levels[j] == Chain(all, 0, j)
      {
        var nodes := LevelNodes(i);
        levels := levels + [nodes];
        i := i + 1;
      }
      forall k: nat, n: Node | k <= skipListLevel ensures n in levels[k] <==> n in all[1..] && n.forward.Length > k {
        ChainHas(all, 0, k, n);
      }
    }

    lemma LevelsNest()
      requires Valid()
      ensures |all| > 0 && skipListLevel <= maxLevel && Chain(all, 0, 0) == all[1..]
      ensures forall i: nat :: Sublist(Chain(all, 0, i + 1), Chain(all, 0, i))
      ensures forall i: nat, n: Node :: n in Chain(all, 0, i) <==> n in all[1..] && n.forward.Length > i
      ensures forall i :: skipListLevel < i ==> Chain(all, 0, i) == []
      ensures skipListLevel > 0 ==> Chain(all, 0, skipListLevel) != []
    {
      hide Sorted, Holds, DistinctTowers, Chain, Sublist;
      forall i: nat ensures Sublist(Chain(all, 0, i + 1), Chain(all, 0, i)) { ChainNests(all, 0, i); }
      forall i: nat, n: Node ensures n in Chain(all, 0, i) <==> n in all[1..] && n.forward.Length > i {
        ChainHas(all, 0, i, n);
      }
      LowestIsAll(all, 0);
      EmptyAbove(all, skipListLevel);
    }

    /** All pairs in the order of their keys. */
    method DumpFile() returns (dump: Dump)
      requires Valid()
      ensures dump.Pairs? && |dump.keys| == |dump.values| == |contents|
      ensures forall i, j :: 0 <= i < j < |dump.keys| ==> Less(dump.keys[i], dump.keys[j])
      ensures Loaded(dump.keys, dump.values) == contents
    {
      hide Valid, NextAt, Target, Less;
      HeaderFirst();
      StepAt(0, 0);
      var keys, values := [], [];
      var node := header.forward[0];
      ghost var p: nat := 0;
      while node != null
        invariant Valid() && p < |all| && node == Target(all, p, 0) && |keys| == |values| == p
        invariant forall i :: 0 <= i < p ==> keys[i] == all[i + 1].key && values[i] == all[i + 1].value
        decreases |all| - p
      {
        LowestStep(p);
        keys, values := keys + [node.key], values + [node.value];
        p := p + 1;
        StepAt(p, 0);
        node := node.forward[0];
      }
      LowestStep(p);
      HeldOnce(all, contents);
      DumpedIsHeld(all, contents, keys, values);
      dump := Pairs(keys, values);
    }

    /** Replaces the contents by what a dump holds. The empty string changes nothing, and one that is not a
        dump leaves the list empty. */
    method LoadFile(dump: Dump, heads: nat -> nat)
      requires Valid()
      modifies this, Towers(all)
      ensures Valid() && fresh(Towers(all) - old(Towers(all)))
      ensures contents == if dump.Empty? then old(contents) else if dump.Unreadable? then map[]
                          else Loaded(dump.keys, dump.values)
    {
      hide Valid;
      if dump.Empty? { return; }
      Clear();
      if dump.Unreadable? { return; }
      var i := 0;
      while i < |dump.keys|
        invariant 0 <= i <= |dump.keys| && Valid() && fresh(Towers(all) - old(Towers(all)))
        invariant contents == Loaded(dump.keys[..i], dump.values[..i])
      {
        var inserted := InsertElement(dump.keys[i], dump.values[i], heads(i));
        assert dump.keys[..i + 1][..i] == dump.keys[..i] && dump.values[..i + 1][..i] == dump.values[..i];
        i := i + 1;
      }
      assert dump.keys[..i] == dump.keys && dump.values[..i] == dump.values;
    }

    method Clear()
      requires Valid()
      modifies this, Towers(all)
      ensures Valid() && Towers(all) <= old(Towers(all)) && contents == map[]
    {
      hide Less, Sorted, DistinctTowers, Holds, NextAt;
      NothingAbove(all, skipListLevel);
      assert forall j :: skipListLevel < j <= maxLevel ==> header.forward[j] == null;
      var i := 0;
      while i <= skipListLevel
        invariant 0 <= i <= skipListLevel + 1
        invariant forall j :: 0 <= j < header.forward.Length ==>
                    header.forward[j] == if j < i then null else old(header.forward[j])
        modifies header.forward
      {
        header.forward[i] := null;
        i := i + 1;
      }
      HeaderAlone(header);
      skipListLevel, elementCount := 0, 0;
      all, contents := [header], map[];
    }
  }

  // ---------- levels ----------

  /** The towers after position p that reach level i. */
  ghost function Chain(all: seq<Node>, p: nat, i: nat): seq<Node>
    requires p < |all|
    decreases |all| - p
  {
    var q := NextAt(all, p, i);
    if q == |all| then [] else [all[q]] + Chain(all, q, i)
  }

  ghost predicate Sublist<T>(a: seq<T>, b: seq<T>)
    decreases |b|
  {
    a == [] || (b != [] && ((a[0] == b[0] && Sublist(a[1..], b[1..])) || Sublist(a, b[1..])))
  }

  lemma ChainStep(all: seq<Node>, p: nat, i: nat)
    requires p < |all|
    ensures Target(all, p, i) == null ==> Chain(all, p, i) == []
    ensures Target(all, p, i) != null ==>
              var q := NextAt(all, p, i);
              && q < |all| && all[q] == Target(all, p, i) && all[q].forward.Length > i
              && Chain(all, p, i) == [all[q]] + Chain(all, q, i)
  {}

  lemma {:induction false} ChainHas(all: seq<Node>, p: nat, i: nat, n: Node)
    requires p < |all|
    ensures n in Chain(all, p, i) <==> n in all[p + 1..] && n.forward.Length > i
    decreases |all| - p
  {
    var q := NextAt(all, p, i);
    if q < |all| {
      ChainHas(all, q, i, n);
      assert all[p + 1..] == all[p + 1..q] + [all[q]] + all[q + 1..];
    }
  }

  lemma {:induction false} LowestIsAll(all: seq<Node>, p: nat)
    requires p < |all| && forall r :: p < r < |all| ==> all[r].forward.Length >= 1
    ensures Chain(all, p, 0) == all[p + 1..]
    decreases |all| - p
  {
    if p + 1 < |all| { LowestIsAll(all, p + 1); }
  }

  lemma {:induction false} ChainNests(all: seq<Node>, p: nat, i: nat)
    requires p < |all|
    ensures Sublist(Chain(all, p, i + 1), Chain(all, p, i))
    decreases |all| - p
  {
    var q := NextAt(all, p, i);
    if q < |all| {
      ChainNests(all, q, i);
      if all[q].forward.Length > i + 1 {
        NextIs(all, p, i + 1, q);
      } else {
        NextIs(all, p, i + 1, NextAt(all, q, i + 1));
      }
    }
  }

  lemma NothingAbove(all: seq<Node>, level: nat)
    requires |all| > 0 && forall p :: 1 <= p < |all| ==> all[p].forward.Length <= level + 1
    ensures forall i :: level < i ==> Target(all, 0, i) == null
  {}

  lemma HeaderAlone(header: Node)
    requires forall j :: 0 <= j < header.forward.Length ==> header.forward[j] == null
    ensures Linked([header]) && Sorted([header]) && DistinctTowers([header]) && Holds([header], map[])
    ensures Towers([header]) == {header.forward}
  {}

  /** No tower reaches above the level, and one reaches it unless the header's pointer is null. */
  lemma EmptyAbove(all: seq<Node>, level: nat)
    requires |all| > 0 && level < all[0].forward.Length && Linked(all)
    requires forall p :: 1 <= p < |all| ==> 1 <= all[p].forward.Length <= level + 1
    ensures forall i :: level < i ==> Chain(all, 0, i) == []
    ensures all[0].forward[level] != null ==> Chain(all, 0, level) != []
  {}

  // ---------- dumping and loading ----------

  /** The string a list is saved as: empty, not in the format, or the keys and values put into it. */
  datatype Saved = Empty | Unreadable | Pairs(keys: seq<Key>, values: seq<string>)

  type Dump = d: Saved | d.Pairs? ==> |d.keys| == |d.values| witness Empty

  /** The map that inserting the pairs one by one gives: the first pair of a key stays. */
  function Loaded<K(==), V>(keys: seq<K>, values: seq<V>): map<K, V>
    requires |keys| == |values|
  {
    if keys == [] then map[]
    else
      var n := |keys| - 1;
      var m := Loaded(keys[..n], values[..n]);
      if keys[n] in m then m else m[keys[n] := values[n]]
  }

  /** Every key listed is held, with the value of its first pair, and no other key is. */
  lemma {:induction false} LoadedMeans<K(!new), V>(keys: seq<K>, values: seq<V>)
    requires |keys| == |values|
    ensures forall i :: 0 <= i < |keys| ==> keys[i] in Loaded(keys, values)
    ensures forall k :: k in Loaded(keys, values) ==>
              exists i :: 0 <= i < |keys| && keys[i] == k && k !in keys[..i] && Loaded(keys, values)[k] == values[i]
  {
    if keys != [] {
      var n := |keys| - 1;
      var m := Loaded(keys[..n], values[..n]);
      LoadedMeans(keys[..n], values[..n]);
      forall k | k in Loaded(keys, values)
        ensures exists i :: 0 <= i < |keys| && keys[i] == k && k !in keys[..i] && Loaded(keys, values)[k] == values[i]
      {
        if k in m {
          var i :| 0 <= i < n && keys[..n][i] == k && k !in keys[..n][..i] && m[k] == values[..n][i];
          assert keys[..n][..i] == keys[..i];
        } else {
          assert keys[n] == k && forall i :: 0 <= i < n ==> keys[..n][i] in m;
        }
      }
    }
  }

  lemma {:induction false} LoadedKeys<K(!new), V>(keys: seq<K>, values: seq<V>)
    requires |keys| == |values| && NoRepeats(keys)
    ensures PairedIn(keys, values, Loaded(keys, values))
  {
    if keys != [] {
      hide NoRepeats, PairedIn;
      var n := |keys| - 1;
      var m := Loaded(keys[..n], values[..n]);
      LastIsNew(keys);
      LoadedKeys(keys[..n], values[..n]);
      PairedMore(keys[..n], values[..n], m, keys[n], values[n]);
      assert keys == keys[..n] + [keys[n]] && values == values[..n] + [values[n]];
    }
  }

  ghost predicate NoRepeats<T>(s: seq<T>) { forall i, j :: 0 <= i < j < |s| ==> s[i] != s[j] }

  lemma LastIsNew<T>(s: seq<T>)
    requires s != [] && NoRepeats(s)
    ensures s[|s| - 1] !in s[..|s| - 1] && NoRepeats(s[..|s| - 1])
  {}

  /** The map holds each key with its value, nothing else, and as many pairs as there are keys. */
  ghost predicate PairedIn<K(!new), V>(keys: seq<K>, values: seq<V>, m: map<K, V>)
    requires |keys| == |values|
  {
    && (forall i :: 0 <= i < |keys| ==> keys[i] in m && m[keys[i]] == values[i])
    && (forall k :: k in m ==> k in keys) && |m| == |keys|
  }

  lemma PairedMore<K(!new), V>(keys: seq<K>, values: seq<V>, m: map<K, V>, k: K, v: V)
    requires |keys| == |values| && PairedIn(keys, values, m) && k !in keys
    ensures k !in m && PairedIn(keys + [k], values + [v], m[k := v])
  {}

  /** The keys and values along the chain make up the map it holds. */
  lemma DumpedIsHeld(all: seq<Node>, m: map<Key, string>, keys: seq<Key>, values: seq<string>)
    requires |all| > 0 && Sorted(all) && Holds(all, m) && |keys| == |values| == |all| - 1
    requires forall i :: 0 <= i < |keys| ==> keys[i] == all[i + 1].key && values[i] == all[i + 1].value
    ensures Loaded(keys, values) == m && |m| == |keys|
  {
    hide Less, Loaded;
    assert NoRepeats(keys) by {
      forall i, j | 0 <= i < j < |keys| ensures keys[i] != keys[j] {
        LessIrreflexive(keys[i]);
        SortedAt(all, i + 1, j + 1);
      }
    }
    hide Sorted;
    LoadedKeys(keys, values);
    var l := Loaded(keys, values);
    forall k | k in m ensures k in l && l[k] == m[k] {
      var p :| 1 <= p < |all| && all[p].key == k;
      assert keys[p - 1] == k;
    }
    assert l.Keys == m.Keys;
  }

  lemma HeldOnce(all: seq<Node>, m: map<Key, string>)
    requires |all| > 0 && Sorted(all) && Holds(all, m)
    ensures |m| == |all| - 1
  {
    var keys := seq(|all| - 1, i requires 0 <= i < |all| - 1 => all[i + 1].key);
    var values := seq(|all| - 1, i requires 0 <= i < |all| - 1 => all[i + 1].value);
    DumpedIsHeld(all, m, keys, values);
  }

  // ---------- deleting ----------

  ghost function Without(all: seq<Node>, d: nat): seq<Node>
    requires d < |all|
  {
    all[..d] + all[d + 1..]
  }

  /** The nodes at these positions have been made to pass the tower at position d on all levels below i. */
  ghost predicate Unspliced(all: seq<Node>, d: nat, pos: seq<nat>, i: nat)
    requires d < |all|
    reads Towers(all)
  {
    && i <= |pos| && (forall j :: 0 <= j < i ==> pos[j] < d)
    && forall p, j :: 0 <= p < |all| && 0 <= j < all[p].forward.Length ==>
         all[p].forward[j] == if j < i && p == pos[j] then Target(all, d, j) else Target(all, p, j)
  }

  /** On the levels it reaches, and only there, the tower of the key is what the node found points at. */
  lemma PointsAtFound(all: seq<Node>, key: Key, d: nat, i: nat, u: Node, pos: seq<nat>)
    requires 0 < d < |all| && Sorted(all) && DistinctTowers(all) && d == Rank(all, key) + 1
    requires i < |pos| && FoundAt(all, key, i, u, pos[i]) && Unspliced(all, d, pos, i)
    ensures pos[i] < d && u.forward[i] == all[d] <==> i < all[d].forward.Length
    ensures pos[i] < d
  {
    hide Sorted, Rank;
    var q := NextAt(all, pos[i], i);
    assert u.forward[i] == Target(all, pos[i], i);
    assert i < all[d].forward.Length ==> q == d;
    assert forall r :: 0 <= r < |all| && r != d ==> all[r] != all[d] by {
      assert forall r :: 0 <= r < |all| && r != d ==> all[r].forward != all[d].forward;
    }
  }

  lemma UnsplicedIsLinked(all: seq<Node>, key: Key, d: nat, update: seq<Node>, pos: seq<nat>)
    requires 0 < d < |all| && Sorted(all) && d == Rank(all, key) + 1 && |pos| == |update| >= all[d].forward.Length
    requires forall j :: 0 <= j < all[d].forward.Length ==> FoundAt(all, key, j, update[j], pos[j])
    requires Unspliced(all, d, pos, all[d].forward.Length)
    ensures Linked(Without(all, d))
  {
    hide Rank, Sorted, NextAt, Target, Unspliced, FoundAt;
    var rest := Without(all, d);
    forall p, i | 0 <= p < |rest| && 0 <= i < rest[p].forward.Length ensures rest[p].forward[i] == Target(rest, p, i) {
      if p < d {
        UnlinkedBefore(all, key, d, update, pos, p, i);
      } else {
        UnlinkedAfter(all, key, d, update, pos, p, i);
      }
    }
  }

  lemma UnlinkedBefore(all: seq<Node>, key: Key, d: nat, update: seq<Node>, pos: seq<nat>, p: nat, i: nat)
    requires 0 < d < |all| && Sorted(all) && d == Rank(all, key) + 1 && |pos| == |update| >= all[d].forward.Length
    requires forall j :: 0 <= j < all[d].forward.Length ==> FoundAt(all, key, j, update[j], pos[j])
    requires Unspliced(all, d, pos, all[d].forward.Length) && p < d && i < all[p].forward.Length
    ensures all[p].forward[i] == Target(Without(all, d), p, i)
  {
    hide Rank, Sorted, NextAt, Target;
    var rest := Without(all, d);
    assert all == With(rest, d - 1, all[d]);
    TargetBefore(rest, d - 1, all[d], p, i);
    if i < all[d].forward.Length {
      assert FoundAt(all, key, i, update[i], pos[i]);
      FoundIsUnique(all, key, i, update[i], pos[i], p);
      if p == pos[i] {
        TargetOfNew(rest, d - 1, all[d], p, i);
      }
    }
  }

  lemma UnlinkedAfter(all: seq<Node>, key: Key, d: nat, update: seq<Node>, pos: seq<nat>, p: nat, i: nat)
    requires 0 < d < |all| && |pos| == |update| >= all[d].forward.Length
    requires Unspliced(all, d, pos, all[d].forward.Length) && d <= p < |all| - 1 && i < all[p + 1].forward.Length
    ensures all[p + 1].forward[i] == Target(Without(all, d), p, i)
  {
    hide NextAt, Target;
    var rest := Without(all, d);
    assert all == With(rest, d - 1, all[d]);
    assert all[p + 1].forward[i] == Target(all, p + 1, i);
    TargetAfter(rest, d - 1, all[d], p, i);
  }

  lemma WithoutHolds(all: seq<Node>, d: nat, m: map<Key, string>)
    requires 0 < d < |all| && Sorted(all) && Holds(all, m)
    ensures Holds(Without(all, d), m - {all[d].key})
  {
    var rest := Without(all, d);
    LessIrreflexive(all[d].key);
    hide Less;
    assert forall p :: 1 <= p < |all| && p != d ==> all[p].key != all[d].key;
    forall k | k in m && k != all[d].key ensures exists p :: 1 <= p < |rest| && rest[p].key == k {
      var p :| 1 <= p < |all| && all[p].key == k;
      assert rest[if p < d then p else p - 1] == all[p];
    }
  }

  lemma WithoutSorted(all: seq<Node>, d: nat)
    requires 0 < d < |all| && Sorted(all) && DistinctTowers(all)
    ensures Sorted(Without(all, d)) && DistinctTowers(Without(all, d)) && Towers(Without(all, d)) <= Towers(all)
  {
    hide Less;
    assert forall n :: n in Without(all, d) ==> n in all;
  }

  /** When the header's pointer of a level is null no tower reaches it. */
  lemma TopIsEmpty(all: seq<Node>, level: nat)
    requires |all| > 0 && Linked(all) && level < all[0].forward.Length && all[0].forward[level] == null
    ensures forall p :: 1 <= p < |all| ==> all[p].forward.Length <= level
  {
    assert NextAt(all, 0, level) == |all|;
  }

  // ---------- inserting ----------

  /** One node for each level below h, with its position. */
  ghost predicate Places(all: seq<Node>, update: seq<Node>, pos: seq<nat>, h: nat) {
    && h <= |update| == |pos|
    && forall i :: 0 <= i < h ==> pos[i] < |all| && update[i] == all[pos[i]] && update[i].forward.Length > i
  }

  /** The new tower x has been linked in behind the nodes at these positions on all levels below i. */
  ghost predicate Spliced(all: seq<Node>, x: Node, pos: seq<nat>, i: nat)
    reads Towers(all), x.forward
  {
    && i <= |pos| && i <= x.forward.Length && (forall j :: 0 <= j < i ==> pos[j] < |all|)
    && (forall j :: 0 <= j < i ==> x.forward[j] == Target(all, pos[j], j))
    && forall p, j :: 0 <= p < |all| && 0 <= j < all[p].forward.Length ==>
         all[p].forward[j] == if j < i && p == pos[j] then x else Target(all, p, j)
  }

  /** On the lowest level the node found is the one right before the place of the key. */
  lemma FoundLowest(all: seq<Node>, key: Key, u: Node, p: nat)
    requires |all| > 0 && Sorted(all) && FoundAt(all, key, 0, u, p)
        && forall q :: 1 <= q < |all| ==> all[q].forward.Length >= 1
    ensures p == Rank(all, key)
  {
    hide Rank, Sorted;
    assert NextAt(all, p, 0) == p + 1;
  }

  /** The node found on a level is the only one whose pointer passes the place of the key. */
  lemma FoundIsUnique(all: seq<Node>, key: Key, i: nat, u: Node, p: nat, q: nat)
    requires |all| > 0 && Sorted(all) && FoundAt(all, key, i, u, p) && q < |all|
    ensures q <= Rank(all, key) < NextAt(all, q, i) && all[q].forward.Length > i ==> q == p
  {}

  /** Above the current level only the header is left. */
  lemma FoundAbove(all: seq<Node>, key: Key, level: nat, level': nat, update: seq<Node>, pos: seq<nat>)
    requires |all| > 0 && Sorted(all) && Found(all, key, level, update, pos)
    requires level' < |pos| && all[0].forward.Length > level'
        && forall p :: 1 <= p < |all| ==> all[p].forward.Length <= level + 1
    ensures forall j :: 0 <= j <= level' ==> FoundAt(all, key, j, update[j], pos[j])
    ensures Places(all, update, pos, level' + 1)
  {
    hide Rank;
  }

  lemma SplicedIsLinked(all: seq<Node>, key: Key, x: Node, update: seq<Node>, pos: seq<nat>)
    requires |all| > 0 && Sorted(all) && |pos| == |update| >= x.forward.Length
    requires forall j :: 0 <= j < x.forward.Length ==> FoundAt(all, key, j, update[j], pos[j])
    requires Spliced(all, x, pos, x.forward.Length)
    ensures Linked(With(all, Rank(all, key), x))
  {
    hide Rank, Sorted, NextAt, With, Target, FoundAt, Spliced;
    var s := Rank(all, key);
    var more := With(all, s, x);
    FoundBelow(all, key, x.forward.Length, update, pos);
    WithAt(all, s, x, 0);
    forall p, i | 0 <= p < |more| && 0 <= i < more[p].forward.Length ensures more[p].forward[i] == Target(more, p, i) {
      if p <= s {
        LinkedBefore(all, key, x, update, pos, p, i);
      } else if p == s + 1 {
        WithAt(all, s, x, p);
        LinkedNew(all, key, x, update, pos, i);
      } else {
        WithAt(all, s, x, p);
        LinkedAfter(all, s, x, pos, p - 1, i);
      }
    }
  }

  lemma LinkedBefore(all: seq<Node>, key: Key, x: Node, update: seq<Node>, pos: seq<nat>, p: nat, i: nat)
    requires |all| > 0 && Sorted(all) && |pos| == |update| >= x.forward.Length
    requires forall j :: 0 <= j < x.forward.Length ==> FoundAt(all, key, j, update[j], pos[j])
    requires Spliced(all, x, pos, x.forward.Length)
    requires p <= Rank(all, key) && i < With(all, Rank(all, key), x)[p].forward.Length
    ensures var more := With(all, Rank(all, key), x); more[p].forward[i] == Target(more, p, i)
  {
    var s := Rank(all, key);
    hide Rank, Sorted, NextAt, With, Target;
    WithAt(all, s, x, p);
    TargetBefore(all, s, x, p, i);
    if i < x.forward.Length { FoundIsUnique(all, key, i, update[i], pos[i], p); }
  }

  lemma LinkedNew(all: seq<Node>, key: Key, x: Node, update: seq<Node>, pos: seq<nat>, i: nat)
    requires |all| > 0 && Sorted(all) && |pos| == |update| >= x.forward.Length > i
    requires FoundAt(all, key, i, update[i], pos[i])
    requires Spliced(all, x, pos, x.forward.Length)
    ensures var more, k := With(all, Rank(all, key), x), Rank(all, key) + 1;
            more[k] == x && x.forward[i] == Target(more, k, i)
  {
    var s := Rank(all, key);
    hide Rank, Sorted, NextAt, With, Target;
    WithAt(all, s, x, s + 1);
    TargetOfNew(all, s, x, pos[i], i);
  }

  lemma LinkedAfter(all: seq<Node>, s: nat, x: Node, pos: seq<nat>, p: nat, i: nat)
    requires s < |all| && Spliced(all, x, pos, x.forward.Length)
        && forall j :: 0 <= j < x.forward.Length ==> pos[j] <= s
    requires s < p < |all| && i < all[p].forward.Length
    ensures all[p].forward[i] == Target(With(all, s, x), p + 1, i)
  {
    hide NextAt, With, Target;
    TargetAfter(all, s, x, p, i);
  }

  lemma FoundBelow(all: seq<Node>, key: Key, h: nat, update: seq<Node>, pos: seq<nat>)
    requires |all| > 0 && Sorted(all) && |pos| == |update| >= h
    requires forall j :: 0 <= j < h ==> FoundAt(all, key, j, update[j], pos[j])
    ensures forall j :: 0 <= j < h ==> pos[j] <= Rank(all, key)
  {
    hide Rank;
  }

  lemma WithAt(all: seq<Node>, s: nat, x: Node, p: nat)
    requires s < |all| && p <= |all|
    ensures |With(all, s, x)| == |all| + 1
    ensures With(all, s, x)[p] == if p <= s then all[p] else if p == s + 1 then x else all[p - 1]
  {}

  lemma WithHeights(all: seq<Node>, s: nat, x: Node, level: nat)
    requires s < |all| && 1 <= x.forward.Length
        && forall p :: 1 <= p < |all| ==> 1 <= all[p].forward.Length <= level + 1
    ensures var more := With(all, s, x);
            && |more| == |all| + 1 && more[0] == all[0]
            && forall p :: 1 <= p < |more| ==>
                 1 <= more[p].forward.Length && (more[p].forward.Length <= level + 1 || more[p] == x)
  {
    var more := With(all, s, x);
    forall p | 1 <= p < |more|
      ensures 1 <= more[p].forward.Length && (more[p].forward.Length <= level + 1 || more[p] == x)
    {
      assert more[p] == if p <= s then all[p] else if p == s + 1 then x else all[p - 1];
    }
  }

  /** The header's pointers of the new tower's levels lead somewhere, and those that did still do. */
  lemma StillReached(all: seq<Node>, x: Node, pos: seq<nat>)
    requires |all| > 0 && Spliced(all, x, pos, x.forward.Length)
    ensures forall j :: 0 <= j < all[0].forward.Length ==>
              (Target(all, 0, j) != null || (j < x.forward.Length && pos[j] == 0) ==> all[0].forward[j] != null)
  {
    hide Target;
  }

  lemma WithTowers(all: seq<Node>, s: nat, x: Node)
    requires s < |all| && DistinctTowers(all) && x.forward !in Towers(all)
    ensures DistinctTowers(With(all, s, x)) && Towers(With(all, s, x)) == Towers(all) + {x.forward}
  {
    var more := With(all, s, x);
    assert forall p :: 0 <= p < |all| ==> all[p].forward in Towers(all);
    WithAt(all, s, x, 0);
    WithMembers(all, s, x);
    hide With;
    forall p, q | 0 <= p < q < |more| ensures more[p].forward != more[q].forward {
      WithAt(all, s, x, p);
      WithAt(all, s, x, q);
    }
  }

  lemma WithMembers(all: seq<Node>, s: nat, x: Node)
    requires s < |all|
    ensures forall n :: n in With(all, s, x) <==> n in all || n == x
  {
    assert all == all[..s + 1] + all[s + 1..];
  }

  lemma WithHolds(all: seq<Node>, s: nat, x: Node, m: map<Key, string>)
    requires s < |all| && Holds(all, m) && x.key !in m
    ensures Holds(With(all, s, x), m[x.key := x.value]) && forall p :: 1 <= p < |all| ==> all[p].key != x.key
  {
    var more := With(all, s, x);
    var m' := m[x.key := x.value];
    assert more[s + 1] == x;
    forall k | k in m' ensures exists p :: 1 <= p < |more| && more[p].key == k {
      if k != x.key {
        var p :| 1 <= p < |all| && all[p].key == k;
        assert more[if p <= s then p else p + 1] == all[p];
      }
    }
  }

  lemma WithSorted(all: seq<Node>, s: nat, x: Node)
    requires |all| > 0 && Sorted(all) && s == Rank(all, x.key)
    requires forall p :: 1 <= p < |all| ==> all[p].key != x.key
    ensures Sorted(With(all, s, x))
  {
    hide Less, With;
    forall p | s < p < |all| ensures Less(x.key, all[p].key) {
      LessTotal(x.key, all[s + 1].key);
      if p > s + 1 { LessTransitive(x.key, all[s + 1].key, all[p].key); }
    }
    var more := With(all, s, x);
    WithAt(all, s, x, 0);
    forall p, q | 1 <= p < q < |more| ensures Less(more[p].key, more[q].key) {
      WithAt(all, s, x, p);
      WithAt(all, s, x, q);
    }
  }

  /** The map has a key exactly when it stands right after the smaller ones. */
  lemma HeldAfter(all: seq<Node>, m: map<Key, string>, key: Key)
    requires |all| > 0 && Sorted(all) && Holds(all, m)
    ensures var k := Rank(all, key) + 1;
            && (key in m <==> k < |all| && all[k].key == key)
            && (key in m ==> m[key] == all[k].value)
  {
    hide Less, Sorted, Rank;
    OnlyAtRank(all, key);
  }

  lemma SortedAt(all: seq<Node>, p: nat, q: nat)
    requires Sorted(all)
    ensures 1 <= p < q < |all| ==> Less(all[p].key, all[q].key)
  {}

  /** A key stands right after the smaller ones or nowhere. */
  lemma OnlyAtRank(all: seq<Node>, key: Key)
    requires |all| > 0 && Sorted(all)
    ensures forall p :: 1 <= p < |all| && all[p].key == key ==> p == Rank(all, key) + 1
  {
    var s := Rank(all, key);
    LessIrreflexive(key);
    hide Less;
    forall p | 1 <= p < |all| && all[p].key == key ensures p == s + 1 {
      assert p > s;
      SortedAt(all, s + 1, p);
    }
  }

  /** The node u at position p is the last one of level i whose key is smaller. */
  ghost predicate FoundAt(all: seq<Node>, key: Key, i: nat, u: Node, p: nat)
    requires |all| > 0 && Sorted(all)
  {
    p <= Rank(all, key) < NextAt(all, p, i) && u == all[p] && u.forward.Length > i
  }

  ghost predicate Found(all: seq<Node>, key: Key, level: nat, update: seq<Node>, pos: seq<nat>)
    requires |all| > 0 && Sorted(all)
  {
    && |update| == |pos| > level && (forall i :: 0 <= i <= level ==> FoundAt(all, key, i, update[i], pos[i]))
    && (forall i :: level < i < |pos| ==> update[i] == all[0] && pos[i] == 0)
  }
}
