/** The next-index search between one leader and one follower, for logs with arbitrary terms. */
module Backoff {
  import opened RaftNode

  /** Two logs with the same sentinel in which equal terms at one index mean equal prefixes. */
  ghost predicate Matching(a: seq<Entry>, b: seq<Entry>) {
    && |a| > 0 && |b| > 0 && a[0] == b[0] == SENTINEL
    && forall k | 0 <= k < |a| && k < |b| && a[k].term == b[k].term ::
         WireAll(a)[..k + 1] == WireAll(b)[..k + 1]
  }

  ghost predicate Pair(l: Node, f: Node, j: nat, size: nat) {
    && WellFormed(l, size) && l.leader.Some? && j < size
    && 1 <= l.leader.value.nextIndex[j] <= |l.log|
    && f.term <= l.term
    && Matching(l.log, f.log)
  }

  /** One undisturbed exchange: request, follower's handling, leader's handling of the answer. If the follower's
      commit part leaves its log, there is no answer. */
  function Round(l: Node, f: Node, self: nat, j: nat): (Node, Node)
    requires |l.log| > 0 && l.leader.Some?
    requires j < |l.leader.value.nextIndex| && j < |l.leader.value.matchIndex|
  {
    var r := PrepareAppend(l, self, j);
    var (g, answer) := HandleAppend(f, r);
    (if LeavesLog(f, r) then l else HandleAppendReply(l, j, answer), g)
  }

  /** Neither commit index is beyond the leader's log, and the follower handed on what it committed. */
  ghost predicate InStep(l: Node, f: Node) {
    l.commitIndex < |l.log| && f.lastApplied == f.commitIndex < |l.log|
  }

  lemma HandledLog(n: Node, r: AppendRequest)
    requires r.term >= n.term
    ensures var (m, answer) := HandleAppend(n, r); var (ok, log) := CheckAndCorrect(n.log, r.prevLogIndex, r.prevLogTerm);
      && m.term == r.term && answer == AppendReply(r.term, ok)
      && m.log == if ok then log + r.entries else log
  {
  }

  /** What the follower does with one request: it takes over the leader's log, or it refuses and keeps a
      matching log, and then the request did not start right after the sentinel. */
  lemma FollowerOutcome(l: Node, f: Node, self: nat, j: nat, size: nat)
    requires Pair(l, f, j, size)
    ensures var r := PrepareAppend(l, self, j); var (g, answer) := HandleAppend(f, r);
      && g.term == l.term && answer.term == l.term && Matching(l.log, g.log)
      && (answer.success ==> WireAll(g.log) == WireAll(l.log))
      && (!answer.success ==> l.leader.value.nextIndex[j] > 1)
  {
    var r := PrepareAppend(l, self, j);
    var prev := r.prevLogIndex;
    HandledLog(f, r);
    if prev < |f.log| && f.log[prev].term != l.log[prev].term {
      Truncated(l.log, f.log, prev);
    } else if prev < |f.log| {
      Agreed(l.log, f.log, prev);
    }
  }

  /** Then the commit part stays in the log, and the follower stays in step. */
  lemma InStepAnswers(l: Node, f: Node, self: nat, j: nat, size: nat)
    requires Pair(l, f, j, size) && InStep(l, f)
    ensures !LeavesLog(f, PrepareAppend(l, self, j))
    ensures InStep(Round(l, f, self, j).0, Round(l, f, self, j).1)
  {
  }

  /** What a round does: the logs are equal and the leader knows, unless the answer was lost; or the leader steps
      one index back. */
  lemma RoundOutcome(l: Node, f: Node, self: nat, j: nat, size: nat)
    requires Pair(l, f, j, size)
    ensures var (m, g) := Round(l, f, self, j); var next := l.leader.value.nextIndex[j];
      && Pair(m, g, j, size) && m.log == l.log
      && if Accepts(f, PrepareAppend(l, self, j)) then RoundEnded(l, f, m, g, self, j)
         else next > 1 && m.leader.value.nextIndex[j] == next - 1
  {
    FollowerOutcome(l, f, self, j, size);
  }

  /** The follower has the leader's log, and the leader knows it if the answer came. */
  ghost predicate RoundEnded(l: Node, f: Node, m: Node, g: Node, self: nat, j: nat) {
    && |l.log| > 0 && l.leader.Some? && j < |l.leader.value.nextIndex|
    && WireAll(g.log) == WireAll(l.log)
    && if LeavesLog(f, PrepareAppend(l, self, j)) then m == l else Knows(l, m, j)
  }

  ghost predicate Knows(l: Node, m: Node, j: nat) {
    && m.leader.Some? && j < |m.leader.value.nextIndex| && j < |m.leader.value.matchIndex|
    && m.leader.value.nextIndex[j] == |l.log| && m.leader.value.matchIndex[j] == |l.log| - 1
  }

  lemma Truncated(a: seq<Entry>, b: seq<Entry>, prev: nat)
    requires Matching(a, b) && 0 < prev < |b|
    ensures Matching(a, b[..prev])
  {
    forall k | 0 <= k < |a| && k < prev && a[k].term == b[k].term
      ensures WireAll(a)[..k + 1] == WireAll(b[..prev])[..k + 1]
    {
      assert WireAll(b[..prev])[..k + 1] == WireAll(b)[..k + 1];
    }
  }

  lemma Agreed(a: seq<Entry>, b: seq<Entry>, prev: nat)
    requires Matching(a, b) && prev < |a| && prev < |b| && a[prev].term == b[prev].term
    ensures WireAll(b[..prev + 1] + WireAll(a[prev + 1..])) == WireAll(a)
    ensures Matching(a, b[..prev + 1] + WireAll(a[prev + 1..]))
  {
    var c := b[..prev + 1] + WireAll(a[prev + 1..]);
    assert WireAll(a)[..prev + 1] == WireAll(b)[..prev + 1];
    forall x | 0 <= x < |a| ensures WireAll(c)[x] == WireAll(a)[x] {
      if x <= prev {
        assert WireAll(a)[..prev + 1][x] == WireAll(b)[..prev + 1][x];
      }
    }
  }

  /** Back-off convergence: undisturbed exchanges bring the follower's log to the leader's within as many
      rounds as the initial next index, which goes down by one a round and never falls below 1. The leader learns
      of it if the last answer came, and it comes if the commit indexes are not beyond the leader's log. */
  lemma {:induction false} Converges(l: Node, f: Node, self: nat, j: nat, size: nat) returns (trace: seq<(Node, Node)>)
    requires Pair(l, f, j, size)
    ensures 2 <= |trace| <= l.leader.value.nextIndex[j] + 1 && trace[0] == (l, f)
    ensures forall k | 0 <= k < |trace| - 1 ::
      && Pair(trace[k].0, trace[k].1, j, size)
      && trace[k].0.leader.value.nextIndex[j] == l.leader.value.nextIndex[j] - k
      && trace[k + 1] == Round(trace[k].0, trace[k].1, self, j)
    ensures var (p, q) := trace[|trace| - 2]; var (m, g) := trace[|trace| - 1];
      m.log == p.log == l.log && RoundEnded(p, q, m, g, self, j)
    ensures InStep(l, f) ==> Knows(l, trace[|trace| - 1].0, j)
    decreases l.leader.value.nextIndex[j]
  {
    hide LeavesLog, HandleAppend, Matching, WireAll;
    RoundOutcome(l, f, self, j, size);
    var (m, g) := Round(l, f, self, j);
    if InStep(l, f) {
      InStepAnswers(l, f, self, j, size);
    }
    if Accepts(f, PrepareAppend(l, self, j)) {
      trace := [(l, f), (m, g)];
    } else {
      var rest := Converges(m, g, self, j, size);
      trace := [(l, f)] + rest;
      forall k | 0 <= k < |trace| - 1
        ensures Pair(trace[k].0, trace[k].1, j, size)
        ensures trace[k].0.leader.value.nextIndex[j] == l.leader.value.nextIndex[j] - k
        ensures trace[k + 1] == Round(trace[k].0, trace[k].1, self, j)
      {
        if k > 0 {
          assert trace[k] == rest[k - 1] && trace[k + 1] == rest[k];
        }
      }
    }
  }

  /** Under log matching a leader's request is accepted exactly when the follower's kept part agrees. */
  lemma AcceptedIffAgrees(l: Node, f: Node, self: nat, j: nat, size: nat)
    requires Pair(l, f, j, size)
    ensures var r := PrepareAppend(l, self, j); var k := r.prevLogIndex + 1;
      HandleAppend(f, r).1.success <==> k <= |f.log| && WireAll(f.log)[..k] == WireAll(l.log)[..k]
  {
    var r := PrepareAppend(l, self, j);
    var k := r.prevLogIndex + 1;
    if k <= |f.log| && WireAll(f.log)[..k] == WireAll(l.log)[..k] {
      assert WireAll(f.log)[..k][k - 1] == WireAll(l.log)[..k][k - 1];
      assert f.log[k - 1].term == l.log[k - 1].term;
    }
  }
}
