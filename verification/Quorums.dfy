/** Optional values and bytes, and strict majorities of the node ids 0 .. n-1. */
module Prelude {
  datatype Option<+T> = None | Some(value: T)

  type Byte = x: int | 0 <= x < 256
}

module Quorums {
  function Ids(n: nat): (s: set<nat>)
    ensures |s| == n
    ensures forall x: nat :: x in s <==> x < n
  {
    if n == 0 then {}
    else
      var last: nat := n - 1;
      Ids(last) + {last}
  }

  /** More than n/2 of the n nodes, the count the votes and the commit rule use. */
  ghost predicate Majority(s: set<nat>, n: nat) {
    (forall x | x in s :: x < n) && |s| > n / 2
  }

  lemma SubsetSize(a: set<nat>, b: set<nat>)
    requires a <= b
    ensures |a| <= |b|
  {
    assert a + (b - a) == b;
  }

  /** Two strict majorities of the same cluster share a node. */
  lemma MajoritiesMeet(a: set<nat>, b: set<nat>, n: nat) returns (x: nat)
    requires Majority(a, n) && Majority(b, n)
    ensures x in a && x in b
  {
    assert |a| + |b| == |a + b| + |a * b|;
    SubsetSize(a + b, Ids(n));
    assert |a * b| > 0;
    x :| x in a * b;
  }
}
