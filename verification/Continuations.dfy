/** How a cluster can be driven from a given state: crashes, elections, commands and heartbeat rounds that are
    possible with appends in order. */
module Continuations {
  import opened Prelude
  import opened RaftNode
  import opened CommitIndex
  import opened Cluster
  import opened Elections
  import opened Replication
  import opened Completeness

  // ----- continuations

  ghost predicate Reaches(c: Cluster, d: Cluster, ordered: bool) {
    exists events :: Run(c, events, ordered) == Some(d)
  }

  lemma {:induction false} RunConcat(c: Cluster, a: seq<Event>, b: seq<Event>, ordered: bool)
    requires Run(c, a, ordered).Some?
    ensures Run(c, a + b, ordered) == Run(Run(c, a, ordered).value, b, ordered)
    decreases |a|
  {
    if a == [] {
      assert a + b == b;
    } else {
      assert (a + b)[0] == a[0] && (a + b)[1..] == a[1..] + b;
      RunConcat(Apply(c, a[0]), a[1..], b, ordered);
    }
  }

  lemma Chain(c: Cluster, d: Cluster, e: Cluster, ordered: bool)
    requires Reaches(c, d, ordered) && Reaches(d, e, ordered)
    ensures Reaches(c, e, ordered)
  {
    var a :| Run(c, a, ordered) == Some(d);
    var b :| Run(d, b, ordered) == Some(e);
    RunConcat(c, a, b, ordered);
  }

  lemma Stay(c: Cluster, ordered: bool)
    ensures Reaches(c, c, ordered)
  {
    assert Run(c, [], ordered) == Some(c);
  }

  lemma OneStep(c: Cluster, e: Event, ordered: bool)
    requires Enabled(c, e, ordered)
    ensures Enabled(c, e, false) && Reaches(c, Apply(c, e), ordered)
  {
    assert [e][1..] == [];
    assert Run(Apply(c, e), [], ordered) == Some(Apply(c, e));
    assert Run(c, [e], ordered) == Some(Apply(c, e));
  }

  lemma StaysReachable(c: Cluster, d: Cluster, n: nat, ordered: bool)
    requires Reachable(c, n, ordered) && Reaches(c, d, ordered)
    ensures Reachable(d, n, ordered)
  {
    var a :| Run(Init(n), a, ordered) == Some(c);
    assert Reaches(Init(n), c, ordered);
    Chain(Init(n), c, d, ordered);
  }

  lemma StartReachable(n: nat, ordered: bool)
    requires n >= 2
    ensures Reachable(Init(n), n, ordered)
  {
    assert Run(Init(n), [], ordered) == Some(Init(n));
  }

  // ----- stamps

  /** No server has seen a stamp that is still to come. */
  ghost predicate Timely(c: Cluster) {
    && (forall m | m in c.appends :: m.stamp <= c.clock)
    && (forall i, t | 0 <= i < |c.procs| && t in c.procs[i].seen :: c.procs[i].seen[t] <= c.clock)
  }

  lemma StepTimely(c: Cluster, e: Event)
    requires Timely(c) && Enabled(c, e, false)
    ensures Timely(Apply(c, e))
  {
    hide HandleAppend, HandleVote, PrepareAppend, CommitChanges, HandleAppendReply, WireAll, Accepts, PartlyAppended;
    var d := Apply(c, e);
    StepLocal(c, e);
    forall i, t | 0 <= i < |d.procs| && t in d.procs[i].seen ensures d.procs[i].seen[t] <= d.clock {
      if i == e.i {
        OwnSeen(c, e, t);
      } else {
        assert d.procs[i] == c.procs[i];
      }
    }
  }

  lemma OwnSeen(c: Cluster, e: Event, t: nat)
    requires Timely(c) && Enabled(c, e, false) && e.i < |Apply(c, e).procs| && t in Apply(c, e).procs[e.i].seen
    ensures Apply(c, e).procs[e.i].seen[t] <= c.clock
  {
    hide HandleAppend, HandleVote, PrepareAppend, CommitChanges, HandleAppendReply, WireAll, Accepts, PartlyAppended;
    match e
    case CountVote(i, a) => CountCases(c, i, a);
    case _ =>
  }

  lemma {:induction false} RunTimely(c: Cluster, events: seq<Event>, ordered: bool)
    requires Timely(c) && Run(c, events, ordered).Some?
    ensures Timely(Run(c, events, ordered).value)
    decreases |events|
  {
    hide Timely, Apply;
    if events != [] {
      StepTimely(c, events[0]);
      RunTimely(Apply(c, events[0]), events[1..], ordered);
    }
  }

  lemma ReachedTimely(c: Cluster, n: nat, ordered: bool)
    requires Reachable(c, n, ordered)
    ensures Timely(c)
  {
    var a :| Run(Init(n), a, ordered) == Some(c);
    RunTimely(Init(n), a, ordered);
  }

  // ----- the building blocks

  ghost predicate Ready(c: Cluster, n: nat, o: bool) {
    n >= 2 && Reachable(c, n, o) && |c.procs| == n
  }

  /** `d` follows `c`, with only server `i` touched. */
  ghost predicate Follow(c: Cluster, d: Cluster, n: nat, o: bool, i: nat) {
    && Ready(d, n, o) && |c.procs| == n && Reaches(c, d, o) && i < n && Grows(c, d)
    && forall k | 0 <= k < n && k != i :: d.procs[k] == c.procs[k]
  }

  /** Every step here is possible in order. */
  lemma Take(c: Cluster, n: nat, o: bool, e: Event) returns (d: Cluster)
    requires Ready(c, n, o) && Enabled(c, e, true)
    ensures Enabled(c, e, false) && d == Apply(c, e) && Follow(c, d, n, o, e.i)
  {
    hide Apply, Run, Grows;
    OneStep(c, e, o);
    d := Apply(c, e);
    StaysReachable(c, d, n, o);
    StepLocal(c, e);
    ReachedElections(c, n, o);
    StepGrows(c, e);
  }

  lemma Formed(c: Cluster, n: nat, o: bool, i: nat)
    requires Ready(c, n, o) && i < n
    ensures WellFormed(c.procs[i].node, n) && ZeroTerms(c.procs[i].node.log) && Live(c, i)
  {
    ReachedElections(c, n, o);
    assert ProcOk(c, i);
  }

  ghost predicate Resting(p: Proc) {
    p.mode.Idle? && p.node.leader.None?
  }

  /** Nobody leads, and nobody is busy. */
  ghost predicate Calm(c: Cluster, n: nat, o: bool) {
    Ready(c, n, o) && forall k | 0 <= k < n :: Resting(c.procs[k])
  }

  /** Server `l` leads and is not busy. */
  ghost predicate Leading(c: Cluster, n: nat, o: bool, l: nat) {
    && Ready(c, n, o) && l < n && c.procs[l].mode.Idle? && WellFormed(c.procs[l].node, n)
    && c.procs[l].node.leader.Some? && c.procs[l].node.isLeader
  }

  /** Server `v` does not lead, is not busy, and knows of no later term. */
  ghost predicate Hearing(c: Cluster, l: nat, v: nat) {
    && l < |c.procs| && v < |c.procs| && v != l
    && Resting(c.procs[v]) && c.procs[v].node.term <= c.procs[l].node.term
  }

  /** Server `l` leads, and all others listen. */
  ghost predicate Led(c: Cluster, n: nat, o: bool, l: nat) {
    Leading(c, n, o, l) && forall k | 0 <= k < n && k != l :: Hearing(c, l, k)
  }

  ghost predicate SameLogs(c: Cluster, d: Cluster) {
    |c.procs| == |d.procs| && forall k | 0 <= k < |c.procs| :: WireAll(d.procs[k].node.log) == WireAll(c.procs[k].node.log)
  }

  /** No leader newly wrote to the server, and it began no era. */
  ghost predicate EraSame(p: Proc, q: Proc) {
    q.epoch == p.epoch && q.source == p.source && q.base == p.base && q.led == p.led
  }

  /** What was committed and applied is the same. */
  ghost predicate SameApplied(n: Node, m: Node) {
    && m.commitIndex == n.commitIndex && m.lastApplied == n.lastApplied
    && m.queue == n.queue && m.outOfRange == n.outOfRange
  }

  lemma CrashOne(c: Cluster, n: nat, o: bool, i: nat) returns (d: Cluster)
    requires Ready(c, n, o) && i < n
    ensures Follow(c, d, n, o, i) && Resting(d.procs[i]) && WireAll(d.procs[i].node.log) == WireAll(c.procs[i].node.log)
    ensures d.procs[i].node.term == c.procs[i].node.term && EraSame(c.procs[i], d.procs[i]) && d.wins == c.wins
  {
    Formed(c, n, o, i);
    d := Take(c, n, o, Crash(i));
    WireTwice(c.procs[i].node.log);
  }

  lemma {:induction false} CrashAll(c: Cluster, n: nat, o: bool, k: nat) returns (d: Cluster)
    requires Ready(c, n, o) && k <= n && forall i | 0 <= i < k :: Resting(c.procs[i])
    ensures Calm(d, n, o) && Reaches(c, d, o) && SameLogs(c, d) && Grows(c, d)
    decreases n - k
  {
    hide WireAll, Resting, Grows;
    if k == n {
      Stay(c, o);
      GrowsSelf(c);
      d := c;
    } else {
      var c1 := CrashOne(c, n, o, k);
      d := CrashAll(c1, n, o, k + 1);
      Chain(c, c1, d, o);
      GrowsTwice(c, c1, d);
    }
  }

  /** A campaign that is given up raises the term. */
  lemma Fail(c: Cluster, n: nat, o: bool, i: nat) returns (d: Cluster)
    requires Ready(c, n, o) && i < n && Resting(c.procs[i])
    ensures Follow(c, d, n, o, i) && Resting(d.procs[i])
    ensures d.procs[i].node == StartCampaign(c.procs[i].node, i).(isLeader := false)
  {
    hide Reachable, WireAll, HandleAppend, HandleVote, ProcGrows;
    Formed(c, n, o, i);
    var c1 := Take(c, n, o, BeginCampaign(i));
    Formed(c1, n, o, i);
    d := Take(c1, n, o, GiveUp(i));
    Chain(c, c1, d, o);
    GrowsTwice(c, c1, d);
  }

  lemma {:induction false} RaiseTo(c: Cluster, n: nat, o: bool, i: nat, t: nat) returns (d: Cluster)
    requires Calm(c, n, o) && i < n
    ensures Calm(d, n, o) && Reaches(c, d, o) && d.procs[i].node.term >= t && d.procs[i].node.log == c.procs[i].node.log
    ensures (forall k | 0 <= k < n && k != i :: d.procs[k] == c.procs[k]) && Grows(c, d)
    ensures SameApplied(c.procs[i].node, d.procs[i].node)
    decreases if c.procs[i].node.term < t then t - c.procs[i].node.term else 0
  {
    hide WireAll, Resting, Grows, Reachable;
    if c.procs[i].node.term >= t {
      Stay(c, o);
      GrowsSelf(c);
      d := c;
    } else {
      var c1 := Fail(c, n, o, i);
      d := RaiseTo(c1, n, o, i, t);
      Chain(c, c1, d, o);
      GrowsTwice(c, c1, d);
    }
  }

  lemma {:induction false} TermBound(procs: seq<Proc>) returns (t: nat)
    ensures forall k | 0 <= k < |procs| :: procs[k].node.term <= t
  {
    if procs == [] {
      t := 0;
    } else {
      var k := |procs| - 1;
      t := TermBound(procs[..k]);
      t := if t < procs[k].node.term then procs[k].node.term else t;
    }
  }

  /** A resting server of an earlier term grants the request of a candidate with a log as long as its own. */
  lemma Grant(c: Cluster, n: nat, o: bool, v: nat, q: VoteRequest) returns (d: Cluster, a: VoteAnswer)
    requires Ready(c, n, o) && v < n && Resting(c.procs[v]) && q in c.voteRequests && q.candidate != v
    requires q.term > c.procs[v].node.term && q.lastLogTerm == 0 && q.lastLogIndex + 1 >= |c.procs[v].node.log|
    ensures Follow(c, d, n, o, v) && a in d.voteAnswers && a == VoteAnswer(v, q, VoteReply(q.term, true))
    ensures d.procs[v].node.term == q.term && Resting(d.procs[v]) && d.procs[v].node.log == c.procs[v].node.log
    ensures SameApplied(c.procs[v].node, d.procs[v].node)
  {
    hide Reachable, Grows, WireAll, HandleVote, AfterVote;
    Formed(c, n, o, v);
    assert Back(c.procs[v].node.log).term == 0;
    Granting(c.procs[v], q);
    d := Take(c, n, o, AnswerVote(v, q));
    a := VoteAnswer(v, q, VoteReply(q.term, true));
  }

  lemma Granting(p: Proc, q: VoteRequest)
    requires |p.node.log| > 0 && Back(p.node.log).term == 0 && Resting(p)
    requires q.term > p.node.term && q.lastLogTerm == 0 && q.lastLogIndex + 1 >= |p.node.log|
    ensures HandleVote(p.node, q).1 == VoteReply(q.term, true)
    ensures var x := AfterVote(p, q); x.node.term == q.term && Resting(x) && x.node.log == p.node.log
    ensures SameApplied(p.node, AfterVote(p, q).node)
  {
  }

  /** The candidate counts a granted vote. */
  lemma Tally(c: Cluster, n: nat, o: bool, i: nat, a: VoteAnswer) returns (d: Cluster)
    requires Ready(c, n, o) && i < n && |c.procs[i].node.log| > 0
    requires c.procs[i].mode.Campaigning? && c.procs[i].mode.refused == {}
    requires a in c.voteAnswers && a.reply == VoteReply(c.procs[i].node.term, true) && a.voter !in c.procs[i].mode.granted
    requires a.req.candidate == i && a.req.term == c.procs[i].node.term
    ensures Follow(c, d, n, o, i)
    ensures var g := c.procs[i].mode.granted + {a.voter};
      if |g| > n / 2 then d.procs[i].node == BecomeLeader(c.procs[i].node, i, n) && d.procs[i].mode.Idle?
      else d.procs[i] == c.procs[i].(mode := Campaigning(g, {}))
  {
    Formed(c, n, o, i);
    d := Take(c, n, o, CountVote(i, a));
    CountCases(c, i, a);
  }

  // ----- an election

  /** The servers that may still vote for candidate `i`. */
  ghost predicate Voters(c: Cluster, n: nat, i: nat, voters: seq<nat>)
    requires |c.procs| == n && i < n && c.procs[i].mode.Campaigning?
  {
    && (forall x, y | 0 <= x < y < |voters| :: voters[x] != voters[y])
    && (forall x | 0 <= x < |voters| ::
          && voters[x] < n && voters[x] != i && voters[x] !in c.procs[i].mode.granted
          && |c.procs[voters[x]].node.log| <= |c.procs[i].node.log|
          && c.procs[voters[x]].node.term < c.procs[i].node.term)
  }

  /** A campaign under way, with nobody else busy. */
  ghost predicate Running(c: Cluster, n: nat, o: bool, i: nat) {
    && Ready(c, n, o) && i < n && WellFormed(c.procs[i].node, n) && ZeroTerms(c.procs[i].node.log)
    && c.procs[i].mode.Campaigning? && c.procs[i].mode.refused == {}
    && RequestOf(c.procs[i].node, i) in c.voteRequests
    && forall k | 0 <= k < n && k != i :: Resting(c.procs[k]) && c.procs[k].node.term <= c.procs[i].node.term
  }

  ghost predicate PumpKept(c: Cluster, d: Cluster) {
    |c.procs| == |d.procs| && forall k | 0 <= k < |c.procs| :: SameApplied(c.procs[k].node, d.procs[k].node)
  }

  /** One voter's vote is asked for and counted. */
  lemma OneVote(c: Cluster, n: nat, o: bool, i: nat, v: nat) returns (d: Cluster)
    requires Running(c, n, o, i) && v < n && v != i && v !in c.procs[i].mode.granted
    requires |c.procs[v].node.log| <= |c.procs[i].node.log| && c.procs[v].node.term < c.procs[i].node.term
    ensures Ready(d, n, o) && Reaches(c, d, o) && SameLogs(c, d) && Grows(c, d)
    ensures forall k | 0 <= k < n && k != i && k != v :: d.procs[k] == c.procs[k]
    ensures Resting(d.procs[v]) && d.procs[v].node.term == c.procs[i].node.term
    ensures RequestOf(c.procs[i].node, i) in d.voteRequests && PumpKept(c, d)
    ensures var g := c.procs[i].mode.granted + {v};
      if |g| > n / 2 then d.procs[i].node == BecomeLeader(c.procs[i].node, i, n) && d.procs[i].mode.Idle?
      else d.procs[i] == c.procs[i].(mode := Campaigning(g, {}))
  {
    hide WireAll, Reachable, Grows, BecomeLeader, SameLogs, PumpKept, SameApplied;
    var q := RequestOf(c.procs[i].node, i);
    var c1, a := Grant(c, n, o, v, q);
    d := Tally(c1, n, o, i, a);
    Chain(c, c1, d, o);
    GrowsTwice(c, c1, d);
    Crowned(c.procs[i].node, i, n);
    BothSame(c, d, n, i, v);
  }

  lemma Crowned(n: Node, i: nat, size: nat)
    requires |n.log| > 0 && i < size
    ensures BecomeLeader(n, i, size).log == n.log && SameApplied(n, BecomeLeader(n, i, size)) && SameApplied(n, n)
  {
  }

  lemma BothSame(c: Cluster, d: Cluster, n: nat, i: nat, v: nat)
    requires |c.procs| == |d.procs| == n && i < n && v < n
    requires forall k | 0 <= k < n && k != i && k != v :: d.procs[k] == c.procs[k]
    requires d.procs[i].node.log == c.procs[i].node.log && SameApplied(c.procs[i].node, d.procs[i].node)
    requires d.procs[v].node.log == c.procs[v].node.log && SameApplied(c.procs[v].node, d.procs[v].node)
    ensures SameLogs(c, d) && PumpKept(c, d)
  {
    hide WireAll;
  }

  lemma SameTwice(c: Cluster, d: Cluster, e: Cluster)
    requires SameLogs(c, d) && SameLogs(d, e) && PumpKept(c, d) && PumpKept(d, e)
    ensures SameLogs(c, e) && PumpKept(c, e)
  {
    hide WireAll;
    forall k | 0 <= k < |c.procs| ensures SameApplied(c.procs[k].node, e.procs[k].node) {
      assert SameApplied(c.procs[k].node, d.procs[k].node) && SameApplied(d.procs[k].node, e.procs[k].node);
    }
  }

  lemma {:induction false} VoteOn(c: Cluster, n: nat, o: bool, i: nat, voters: seq<nat>) returns (d: Cluster)
    requires Running(c, n, o, i) && Voters(c, n, i, voters)
    requires |c.procs[i].mode.granted| <= n / 2 < |c.procs[i].mode.granted| + |voters|
    ensures Led(d, n, o, i) && Reaches(c, d, o) && SameLogs(c, d) && Grows(c, d) && PumpKept(c, d)
    ensures d.procs[i].node == BecomeLeader(c.procs[i].node, i, n)
    decreases |voters|
  {
    hide WireAll, Reachable, Resting, Grows, SameLogs, PumpKept, BecomeLeader, SameApplied, Led;
    var g := c.procs[i].mode.granted + {voters[0]};
    assert |g| == |c.procs[i].mode.granted| + 1;
    var c1 := OneVote(c, n, o, i, voters[0]);
    if |g| > n / 2 {
      d := c1;
      NowLed(c, d, n, o, i, voters[0]);
    } else {
      RestVoters(c, c1, n, i, voters);
      d := VoteOn(c1, n, o, i, voters[1..]);
      Chain(c, c1, d, o);
      GrowsTwice(c, c1, d);
      SameTwice(c, c1, d);
    }
  }

  lemma NowLed(c: Cluster, d: Cluster, n: nat, o: bool, i: nat, v: nat)
    requires Running(c, n, o, i) && Ready(d, n, o) && v < n && v != i
    requires forall k | 0 <= k < n && k != i && k != v :: d.procs[k] == c.procs[k]
    requires Resting(d.procs[v]) && d.procs[v].node.term == c.procs[i].node.term
    requires d.procs[i].node == BecomeLeader(c.procs[i].node, i, n) && d.procs[i].mode.Idle?
    ensures Led(d, n, o, i)
  {
    hide WireAll, Reachable;
  }

  lemma RestVoters(c: Cluster, d: Cluster, n: nat, i: nat, voters: seq<nat>)
    requires |c.procs| == |d.procs| == n && i < n && c.procs[i].mode.Campaigning? && Voters(c, n, i, voters) && voters != []
    requires d.procs[i] == c.procs[i].(mode := Campaigning(c.procs[i].mode.granted + {voters[0]}, {}))
    requires forall k | 0 <= k < n && k != i && k != voters[0] :: d.procs[k] == c.procs[k]
    ensures Voters(d, n, i, voters[1..])
  {
  }

  /** Server `i` begins a campaign in a new term. */
  lemma Campaign(c: Cluster, n: nat, o: bool, i: nat, voters: seq<nat>) returns (d: Cluster)
    requires Calm(c, n, o) && i < n
    requires forall x, y | 0 <= x < y < |voters| :: voters[x] != voters[y]
    requires forall x | 0 <= x < |voters| ::
      voters[x] < n && voters[x] != i && |c.procs[voters[x]].node.log| <= |c.procs[i].node.log|
    ensures Running(d, n, o, i) && Voters(d, n, i, voters) && d.procs[i].mode.granted == {i} && Grows(c, d)
    ensures Reaches(c, d, o) && SameLogs(c, d) && PumpKept(c, d) && d.procs[i].node.log == c.procs[i].node.log
    ensures forall k | 0 <= k < n :: c.procs[k].node.term < d.procs[i].node.term
  {
    hide WireAll, Reachable, Grows, SameLogs, PumpKept;
    var t := TermBound(c.procs);
    var c1 := RaiseTo(c, n, o, i, t);
    Formed(c1, n, o, i);
    d := Take(c1, n, o, BeginCampaign(i));
    Formed(d, n, o, i);
    Chain(c, c1, d, o);
    GrowsTwice(c, c1, d);
    BothSame(c, d, n, i, i);
  }

  /** Server `i` is elected by `voters`, whose logs are no longer than its own, in a new term. */
  lemma Elect(c: Cluster, n: nat, o: bool, i: nat, voters: seq<nat>) returns (d: Cluster)
    requires Calm(c, n, o) && i < n && |voters| >= n / 2
    requires forall x, y | 0 <= x < y < |voters| :: voters[x] != voters[y]
    requires forall x | 0 <= x < |voters| ::
      voters[x] < n && voters[x] != i && |c.procs[voters[x]].node.log| <= |c.procs[i].node.log|
    ensures Led(d, n, o, i) && Reaches(c, d, o) && SameLogs(c, d) && Grows(c, d) && PumpKept(c, d)
    ensures d.procs[i].node.log == c.procs[i].node.log
    ensures forall k | 0 <= k < n :: c.procs[k].node.term < d.procs[i].node.term
    ensures d.procs[i].node.leader.value.nextIndex == seq(n, _ => |c.procs[i].node.log|)
    ensures d.procs[i].node.leader.value.matchIndex == seq(n, _ => 0)[i := MAX_INDEX]
  {
    hide WireAll, Reachable, Grows, Led, SameApplied, SameLogs, PumpKept, Running, Voters, BecomeLeader;
    var c1 := Campaign(c, n, o, i, voters);
    assert |{i}| == 1;
    NonEmpty(c1, n, o, i);
    d := VoteOn(c1, n, o, i, voters);
    Chain(c, c1, d, o);
    GrowsTwice(c, c1, d);
    SameTwice(c, c1, d);
    Throne(c1.procs[i].node, i, n);
  }

  lemma NonEmpty(c: Cluster, n: nat, o: bool, i: nat)
    requires Running(c, n, o, i)
    ensures |c.procs| == n && i < n && |c.procs[i].node.log| > 0 && c.procs[i].mode.Campaigning?
  {
  }

  lemma Throne(n: Node, i: nat, size: nat)
    requires |n.log| > 0 && i < size
    ensures var m := BecomeLeader(n, i, size);
      && m.log == n.log && m.term == n.term && m.leader.Some?
      && m.leader.value.nextIndex == seq(size, _ => |n.log|) && m.leader.value.matchIndex == seq(size, _ => 0)[i := MAX_INDEX]
  {
  }

  /** A leader's client command. */
  lemma Client(c: Cluster, n: nat, o: bool, l: nat, value: string) returns (d: Cluster)
    requires Led(c, n, o, l)
    ensures Led(d, n, o, l) && Follow(c, d, n, o, l)
    ensures exists e: Entry :: e.value == value && d.procs[l].node.log == c.procs[l].node.log + [e]
    ensures d.procs[l].node.term == c.procs[l].node.term && d.procs[l].node.leader == c.procs[l].node.leader
    ensures SameApplied(c.procs[l].node, d.procs[l].node) && d.appends == c.appends
  {
    hide Reachable, Grows;
    Formed(c, n, o, l);
    d := Take(c, n, o, ClientRequest(l, Create, "k", value, ""));
    Formed(d, n, o, l);
    forall k | 0 <= k < n && k != l ensures Hearing(d, l, k) {
      assert Hearing(c, l, k);
    }
  }

  /** Commands until the log has `size` entries. */
  lemma {:induction false} Fill(c: Cluster, n: nat, o: bool, l: nat, value: string, size: nat) returns (d: Cluster)
    requires Led(c, n, o, l) && |c.procs[l].node.log| < size
    ensures Led(d, n, o, l) && Reaches(c, d, o) && |d.procs[l].node.log| == size && d.procs[l].node.log[size - 1].value == value
    ensures forall k | 0 <= k < n && k != l :: d.procs[k] == c.procs[k]
    decreases size - |c.procs[l].node.log|
  {
    hide WireAll, Reachable, Grows, Resting;
    d := Client(c, n, o, l, value);
    if |d.procs[l].node.log| < size {
      var c1 := d;
      d := Fill(c1, n, o, l, value, size);
      Chain(c, c1, d, o);
    }
  }

  // ----- a heartbeat round with one follower

  ghost function RequestFor(c: Cluster, l: nat, v: nat): AppendMsg
    requires l < |c.procs| && |c.procs[l].node.log| > 0 && c.procs[l].node.leader.Some?
    requires v < |c.procs[l].node.leader.value.nextIndex|
  {
    AppendMsg(v, c.clock, PrepareAppend(c.procs[l].node, l, v))
  }

  /** The leader opens a round and sends its request. */
  lemma Send(c: Cluster, n: nat, o: bool, l: nat, v: nat) returns (d: Cluster)
    requires Leading(c, n, o, l) && v < n && v != l
    ensures Follow(c, d, n, o, l) && d.wins == c.wins && d.clock == c.clock + 1
    ensures var m := RequestFor(c, l, v);
      m in d.appends && d.procs[l] == c.procs[l].(mode := Broadcasting(map[v := m], {}, false))
  {
    hide PrepareAppend, Reachable, Grows;
    var c1 := Take(c, n, o, BeginBroadcast(l));
    Formed(c1, n, o, l);
    d := Take(c1, n, o, SendAppend(l, v));
    assert map[][v := RequestFor(c, l, v)] == map[v := RequestFor(c, l, v)];
    Chain(c, c1, d, o);
    GrowsTwice(c, c1, d);
  }

  /** The follower answers it. */
  lemma Answer(c: Cluster, n: nat, o: bool, v: nat, m: AppendMsg) returns (d: Cluster, a: AppendAnswer)
    requires Ready(c, n, o) && v < n && Resting(c.procs[v]) && m in c.appends && m.to == v
    requires m.stamp >= Seen(c.procs[v], m.req.term)
    ensures Follow(c, d, n, o, v) && d.wins == c.wins && a in d.appendAnswers
    ensures d.procs[v] == AfterAppend(c.procs[v], m) && a == AppendAnswer(m, HandleAppend(c.procs[v].node, m.req).1)
  {
    hide AfterAppend, HandleAppend, Reachable, Grows;
    Formed(c, n, o, v);
    d := Take(c, n, o, AnswerAppend(v, m));
    a := AppendAnswer(m, HandleAppend(c.procs[v].node, m.req).1);
  }

  lemma AnsweredProc(p: Proc, m: AppendMsg)
    ensures AfterAppend(p, m).node == HandleAppend(p.node, m.req).0 && AfterAppend(p, m).mode == p.mode
    ensures p.epoch == m.req.term ==> EraSame(p, AfterAppend(p, m))
  {
  }

  lemma InTime(c: Cluster, n: nat, o: bool, v: nat)
    requires Ready(c, n, o) && v < n
    ensures forall t: nat :: Seen(c.procs[v], t) <= c.clock
  {
    ReachedTimely(c, n, o);
  }

  /** The leader lets the commit rule run, and ends the round. */
  lemma Close(c: Cluster, n: nat, o: bool, l: nat) returns (d: Cluster, x: nat)
    requires Ready(c, n, o) && l < n && c.procs[l].node.leader.Some?
    requires c.procs[l].mode.Broadcasting? && !c.procs[l].mode.counted
    ensures Follow(c, d, n, o, l) && d.wins == c.wins && IsCommitIndex(c.procs[l].node.leader.value.matchIndex, x)
    ensures d.procs[l] == c.procs[l].(node := AdvanceCommit(c.procs[l].node, x), mode := Idle)
    ensures c.procs[l].node.commitIndex < x ==> exists k :: NewlyCommitted(c, d, l, x, k)
  {
    hide Reachable, Grows, AdvanceCommit, IsCommitIndex;
    Formed(c, n, o, l);
    x := SomeCommitIndex(c.procs[l].node.leader.value.matchIndex);
    var k := Commit(c.procs[l].node.term, x, l, Reaching(c.procs[l].node.leader.value.matchIndex, x) + {l});
    var c1 := Take(c, n, o, CommitRound(l, x));
    assert c.procs[l].node.commitIndex < x ==> k in c1.commits;
    Formed(c1, n, o, l);
    d := Take(c1, n, o, EndBroadcast(l));
    assert c.procs[l].node.commitIndex < x ==> NewlyCommitted(c, d, l, x, k);
    Chain(c, c1, d, o);
    GrowsTwice(c, c1, d);
  }

  ghost predicate NewlyCommitted(c: Cluster, d: Cluster, l: nat, x: nat, k: Commit)
    requires l < |c.procs| && c.procs[l].node.leader.Some?
  {
    k in d.commits && k == Commit(c.procs[l].node.term, x, l, Reaching(c.procs[l].node.leader.value.matchIndex, x) + {l})
  }

  /** The leader counts an answer first. */
  lemma Count(c: Cluster, n: nat, o: bool, l: nat, a: AppendAnswer) returns (d: Cluster)
    requires Ready(c, n, o) && l < n && WellFormed(c.procs[l].node, n) && c.procs[l].node.leader.Some?
    requires a in c.appendAnswers && a.msg.to < n && a.msg.to != l
    requires c.procs[l].mode == Broadcasting(map[a.msg.to := a.msg], {}, false)
    ensures Follow(c, d, n, o, l) && d.wins == c.wins
    ensures d.procs[l] == c.procs[l].(node := HandleAppendReply(c.procs[l].node, a.msg.to, a.reply),
                                      mode := Broadcasting(map[a.msg.to := a.msg], {a.msg.to}, false))
  {
    hide Reachable, Grows, HandleAppendReply;
    d := Take(c, n, o, CountAppend(l, a));
    assert {} + {a.msg.to} == {a.msg.to};
  }
}
