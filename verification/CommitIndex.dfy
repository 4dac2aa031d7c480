/** The majority commit rule: calcCommitIndex and what the number it returns means. */
module CommitIndex {
  import opened Quorums

  /** The nodes whose recorded match index is at least `x`. */
  ghost function Reaching(m: seq<nat>, x: nat): set<nat> {
    set j: nat | j < |m| && m[j] >= x
  }

  /** `x` is the greatest recorded index reached by strictly more than half of the nodes. */
  ghost predicate IsCommitIndex(m: seq<nat>, x: nat) {
    && x in m
    && Majority(Reaching(m, x), |m|)
    && forall y | y in m && Majority(Reaching(m, y), |m|) :: y <= x
  }

  ghost predicate Ascending(s: seq<nat>) {
    forall i, j | 0 <= i < j < |s| :: s[i] <= s[j]
  }

  function CountFrom(s: seq<nat>, x: nat): nat {
    if s == [] then 0 else (if s[|s| - 1] >= x then 1 else 0) + CountFrom(s[..|s| - 1], x)
  }

  lemma {:induction false} ReachingCounts(m: seq<nat>, x: nat)
    ensures |Reaching(m, x)| == CountFrom(m, x)
  {
    if m != [] {
      var last: nat := |m| - 1;
      ReachingCounts(m[..last], x);
      var rest := Reaching(m[..last], x);
      assert Reaching(m, x) == if m[last] >= x then rest + {last} else rest;
    }
  }

  lemma {:induction false} CountFromConcat(a: seq<nat>, b: seq<nat>, x: nat)
    ensures CountFrom(a + b, x) == CountFrom(a, x) + CountFrom(b, x)
  {
    if b == [] {
      assert a + b == a;
    } else {
      assert (a + b)[..|a + b| - 1] == a + b[..|b| - 1];
      CountFromConcat(a, b[..|b| - 1], x);
    }
  }

  /** In an ascending sequence the entries from `x` up are a suffix. */
  lemma {:induction false} CountFromAscending(s: seq<nat>, x: nat, g: nat)
    requires Ascending(s) && g <= |s|
    requires forall i | 0 <= i < g :: s[i] < x
    requires forall i | g <= i < |s| :: s[i] >= x
    ensures CountFrom(s, x) == |s| - g
  {
    if s != [] {
      if g < |s| {
        CountFromAscending(s[..|s| - 1], x, g);
      } else {
        CountFromAscending(s[..|s| - 1], x, g - 1);
      }
    }
  }

  lemma DropOne(rest: seq<nat>, v: nat, l: seq<nat>, r: seq<nat>)
    requires multiset(rest + [v]) == multiset(l + [v] + r)
    ensures multiset(rest) == multiset(l + r)
  {
    assert multiset(rest) == multiset(rest + [v]) - multiset{v};
    assert multiset(l + r) == multiset(l + [v] + r) - multiset{v};
  }

  lemma {:induction false} CountFromPermutation(a: seq<nat>, b: seq<nat>, x: nat)
    requires multiset(a) == multiset(b)
    ensures CountFrom(a, x) == CountFrom(b, x)
  {
    if a == [] {
      assert |multiset(b)| == 0;
    } else {
      var rest, v := a[..|a| - 1], a[|a| - 1];
      assert a == rest + [v];
      assert v in multiset(b);
      var k :| 0 <= k < |b| && b[k] == v;
      var l, r := b[..k], b[k + 1..];
      assert b == l + [v] + r;
      DropOne(rest, v, l, r);
      CountFromPermutation(rest, l + r, x);
      CountFromConcat(l + [v], r, x);
      CountFromConcat(l, [v], x);
      CountFromConcat(l, r, x);
    }
  }

  lemma Inserted(s: seq<nat>, k: nat, x: nat)
    requires Ascending(s) && k <= |s| && (forall j | 0 <= j < k :: s[j] < x) && (k < |s| ==> x <= s[k])
    ensures Ascending(s[..k] + [x] + s[k..]) && multiset(s[..k] + [x] + s[k..]) == multiset(s) + multiset{x}
  {
    assert s == s[..k] + s[k..];
  }

  /** The first position of an ascending sequence whose element is at least `x`. */
  function Position(s: seq<nat>, x: nat): (k: nat)
    requires Ascending(s)
    ensures k <= |s| && (forall j | 0 <= j < k :: s[j] < x) && (k < |s| ==> x <= s[k])
  {
    if s == [] || s[|s| - 1] < x then |s| else Position(s[..|s| - 1], x)
  }

  function Insert(s: seq<nat>, x: nat): (r: seq<nat>)
    requires Ascending(s)
    ensures Ascending(r) && multiset(r) == multiset(s) + multiset{x} && |r| == |s| + 1
  {
    var k := Position(s, x);
    Inserted(s, k, x);
    s[..k] + [x] + s[k..]
  }

  lemma SplitLast(m: seq<nat>)
    requires m != []
    ensures multiset(m) == multiset(m[..|m| - 1]) + multiset{m[|m| - 1]}
  {
    assert m == m[..|m| - 1] + [m[|m| - 1]];
  }

  /** Stands for the library sort: an ascending rearrangement. */
  function Sorted(m: seq<nat>): (s: seq<nat>)
    ensures Ascending(s) && multiset(s) == multiset(m) && |s| == |m|
  {
    if m == [] then []
    else
      SplitLast(m);
      Insert(Sorted(m[..|m| - 1]), m[|m| - 1])
  }

  /** The element at position n - n/2 - 1 of the sorted indexes is the greatest one a strict majority reached. */
  lemma SortedPositionIsCommitIndex(m: seq<nat>, s: seq<nat>)
    requires |m| > 0 && Ascending(s) && multiset(s) == multiset(m) && |s| == |m|
    ensures IsCommitIndex(m, s[|m| - |m| / 2 - 1])
  {
    var n := |m|;
    var p := n - n / 2 - 1;
    forall x: nat | x in m ensures Majority(Reaching(m, x), n) <==> x <= s[p] {
      assert x in multiset(s);
      var k :| 0 <= k < n && s[k] == x;
      var g := FirstOf(s, k);
      CountFromAscending(s, x, g);
      CountFromPermutation(s, m, x);
      ReachingCounts(m, x);
      assert CountFrom(s, x) == n - g;
      assert n - g > n / 2 <==> g <= p;
      if g <= p {
        assert s[g] <= s[p];
      } else {
        assert s[p] < x;
      }
    }
    assert s[p] in multiset(s);
    assert s[p] in multiset(m);
    assert s[p] in m;
  }

  /** The start of the run of equal values that position `k` of an ascending sequence belongs to. */
  lemma FirstOf(s: seq<nat>, k: nat) returns (g: nat)
    requires Ascending(s) && k < |s|
    ensures g <= k && s[g] == s[k]
    ensures forall i | 0 <= i < g :: s[i] < s[k]
    ensures forall i | g <= i < |s| :: s[i] >= s[k]
  {
    g := k;
    while g > 0 && s[g - 1] == s[k]
      invariant g <= k && s[g] == s[k]
    {
      g := g - 1;
    }
  }

  method CalcCommitIndex(matchIndex: seq<nat>) returns (maxIdx: nat)
    requires |matchIndex| > 0
    ensures IsCommitIndex(matchIndex, maxIdx)
  {
    var indexes := Sorted(matchIndex);
    var numNodes := |indexes|;
    var prevIdx := indexes[0];
    var currCnt := 0;
    maxIdx := 0;
    ghost var start: nat := 0;
    ghost var p := numNodes - numNodes / 2 - 1;
    for i := 0 to numNodes
      invariant start <= i && currCnt == i - start
      invariant start < numNodes && prevIdx == indexes[start] && (i > 0 ==> start < i)
      invariant forall k | start <= k < i :: indexes[k] == prevIdx
      invariant start > 0 ==> maxIdx == indexes[if p < start - 1 then p else start - 1]
      invariant start > 0 ==> indexes[start - 1] < prevIdx
    {
      var idx := indexes[i];
      if idx == prevIdx {
        currCnt := currCnt + 1;
      } else {
        if currCnt + (numNodes - i) > numNodes / 2 {
          maxIdx := prevIdx;
        }
        currCnt := 1;
        prevIdx := idx;
        start := i;
      }
    }
    if currCnt > numNodes / 2 {
      maxIdx := prevIdx;
    }
    SortedPositionIsCommitIndex(matchIndex, indexes);
  }

  /** There is always one. */
  lemma SomeCommitIndex(m: seq<nat>) returns (x: nat)
    requires |m| > 0
    ensures IsCommitIndex(m, x)
  {
    SortedPositionIsCommitIndex(m, Sorted(m));
    x := Sorted(m)[|m| - |m| / 2 - 1];
  }

  /** With two or more nodes the commit index never exceeds the largest follower's match index, so the
      leader's own marker is not what is returned. */
  lemma CommitIndexHasFollower(m: seq<nat>, self: nat, x: nat) returns (j: nat)
    requires |m| >= 2 && self < |m| && IsCommitIndex(m, x)
    ensures j < |m| && j != self && m[j] >= x
  {
    if Reaching(m, x) <= {self} {
      SubsetSize(Reaching(m, x), {self});
    }
    assert !(Reaching(m, x) <= {self});
    j :| j in Reaching(m, x) && j != self;
  }
}
