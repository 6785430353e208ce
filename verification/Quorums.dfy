/** Counting facts about sets of node numbers. */
module Quorums {

  ghost function NodesBelow(n: nat): set<nat>
    decreases n
  {
    if n == 0 then {} else NodesBelow(n - 1) + {n - 1}
  }

  lemma {:induction false} NodesBelowHas(n: nat, i: nat)
    ensures i in NodesBelow(n) <==> i < n
  {
    if n > 0 { NodesBelowHas(n - 1, i); }
  }

  lemma {:induction false} NodesBelowSize(n: nat)
    ensures |NodesBelow(n)| == n
  {
    if n > 0 {
      NodesBelowSize(n - 1);
      NodesBelowHas(n - 1, n - 1);
    }
  }

  lemma {:induction false} SubsetSize(a: set<nat>, b: set<nat>)
    requires a <= b
    ensures |a| <= |b|
  {
    if a == {} {
    } else {
      var x :| x in a;
      SubsetSize(a - {x}, b - {x});
      assert |a| == |a - {x}| + 1 && |b| == |b - {x}| + 1;
    }
  }

  ghost predicate AllBelow(q: set<nat>, n: nat) { forall i :: i in q ==> i < n }

  lemma AllBelowIsSubset(q: set<nat>, n: nat)
    requires AllBelow(q, n)
    ensures q <= NodesBelow(n)
  {
    forall i | i in q ensures i in NodesBelow(n) { NodesBelowHas(n, i); }
  }

  ghost predicate IsQuorum(q: set<nat>, n: nat) {
    AllBelow(q, n) && |q| >= n / 2 + 1
  }

  lemma DisjointSize(a: set<nat>, b: set<nat>, n: nat)
    requires AllBelow(a, n) && AllBelow(b, n) && a * b == {}
    ensures |a| + |b| <= n
  {
    AllBelowIsSubset(a + b, n);
    NodesBelowSize(n);
    SubsetSize(a + b, NodesBelow(n));
    assert |a + b| == |a| + |b|;
  }

  /** Two majorities of n nodes share a node. */
  lemma QuorumsMeet(a: set<nat>, b: set<nat>, n: nat) returns (x: nat)
    requires IsQuorum(a, n) && IsQuorum(b, n)
    ensures x in a && x in b
  {
    if a * b == {} {
      DisjointSize(a, b, n);
    }
    x :| x in a * b;
  }

  /** A set of nodes other than `me` has fewer than n members. */
  lemma OthersSize(a: set<nat>, me: nat, n: nat)
    requires AllBelow(a, n) && me !in a && me < n
    ensures |a| <= n - 1
  {
    AllBelowIsSubset(a, n);
    NodesBelowSize(n);
    NodesBelowHas(n, me);
    SubsetSize(a, NodesBelow(n) - {me});
  }

  lemma AddTwo(a: set<nat>, x: nat, y: nat, n: nat) returns (b: set<nat>)
    requires AllBelow(a, n) && x < n && y < n && x != y && x !in a && y !in a
    ensures b == a + {x} + {y} && AllBelow(b, n) && |b| == |a| + 2 <= n
  {
    b := a + {x} + {y};
    AllBelowIsSubset(b, n);
    NodesBelowSize(n);
    SubsetSize(b, NodesBelow(n));
    assert |b| == |a + {x}| + 1;
  }
}
