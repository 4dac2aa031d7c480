/** What happens without the first test: an old request that a newer one overtook cuts committed entries away. Three
    servers, no crash before the loss, nothing lost on the network, and one message late. */
module Loss {
  import opened RaftNode
  import opened CommitIndex
  import opened Cluster
  import opened Elections
  import opened Replication
  import opened EraExact
  import opened Completeness
  import opened Continuations

  const VALUE := "v"

  /** The commit indexes the rule yields before and after the first answer. */
  lemma NoneReached(x: nat)
    requires IsCommitIndex([MAX_INDEX, 0, 0], x)
    ensures x == 0
  {
    var m := [MAX_INDEX, 0, 0];
    assert Reaching(m, MAX_INDEX) == {0};
  }

  lemma OneReached(x: nat)
    requires IsCommitIndex([MAX_INDEX, 1, 0], x)
    ensures x == 1 && Reaching([MAX_INDEX, 1, 0], 1) + {0} == {0, 1}
  {
    var m := [MAX_INDEX, 1, 0];
    assert Reaching(m, 1) == {0, 1};
    assert m[1] == 1;
    assert Reaching(m, MAX_INDEX) == {0};
  }

  // ----- the three requests at the follower

  lemma FirstAppend(n: Node, r: AppendRequest)
    requires n.log == [SENTINEL] && n.commitIndex == n.lastApplied == 0 && !n.outOfRange && r.term >= n.term
    requires r.prevLogIndex == 0 && r.prevLogTerm == 0 && |r.entries| == 1 && r.leaderCommit == 0
    ensures var (m, reply) := HandleAppend(n, r);
      && m.log == [SENTINEL] + r.entries && m.commitIndex == m.lastApplied == 0 && !m.outOfRange && m.term == r.term
      && m.leader.None? && reply == AppendReply(r.term, true)
  {
  }

  lemma SecondAppend(n: Node, r: AppendRequest)
    requires |n.log| == 2 && n.log[1].term == 0 && n.commitIndex == n.lastApplied == 0 && !n.outOfRange && r.term >= n.term
    requires r.prevLogIndex == 1 && r.prevLogTerm == 0 && r.entries == [] && r.leaderCommit == 1
    ensures var (m, reply) := HandleAppend(n, r);
      m.log == n.log && m.commitIndex == m.lastApplied == 1 && !m.outOfRange && m.term == r.term && m.leader.None?
  {
    assert n.log[..2] + [] == n.log;
  }

  /** The late one: the entry it does not know of goes, and the pump finds its slice outside the log. */
  lemma LateAppend(n: Node, r: AppendRequest)
    requires |n.log| == 2 && n.log[0] == SENTINEL && n.commitIndex == n.lastApplied == 1 && r.term >= n.term
    requires r.prevLogIndex == 0 && r.prevLogTerm == 0 && r.entries == [] && r.leaderCommit == 0
    ensures var (m, reply) := HandleAppend(n, r); |m.log| == 1 && m.outOfRange && LeavesLog(n, r)
  {
  }

  // ----- the run

  /** The first server leads term `t`, `next` and `match` are what it knows of the second, and the third is empty. */
  ghost predicate First(c: Cluster, t: nat, next: nat, matched: nat) {
    && Leading(c, 3, false, 0) && c.procs[0].node.term == t && Resting(c.procs[1]) && c.procs[1].node.term <= t
    && c.procs[0].node.leader.value == LeaderState([1, next, 1], [MAX_INDEX, matched, 0])
    && |c.procs[2].node.log| == 1
  }

  /** Nothing is committed, and the second server is empty too. */
  ghost predicate Fresh(c: Cluster, t: nat) {
    && First(c, t, 1, 0) && c.procs[0].node.commitIndex == 0 && c.procs[0].node.lastApplied == 0
    && c.procs[1].node.log == [SENTINEL] && c.procs[1].node.commitIndex == c.procs[1].node.lastApplied == 0
    && !c.procs[1].node.outOfRange
  }

  /** The empty request that will be late. */
  ghost predicate Late(c: Cluster, m: AppendMsg, t: nat) {
    m in c.appends && m.to == 1 && m.req == AppendRequest(t, 0, 0, 0, [], 0)
  }

  lemma Start() returns (c: Cluster, t: nat)
    ensures Fresh(c, t) && |c.procs[0].node.log| == 1 && Led(c, 3, false, 0)
  {
    hide WireAll, Grows, Run, Reachable;
    StartReachable(3, false);
    c := Elect(Init(3), 3, false, 0, [1]);
    t := c.procs[0].node.term;
    Formed(c, 3, false, 1);
    SameWires(c.procs[1].node.log, [SENTINEL]);
    SameWires(c.procs[2].node.log, [SENTINEL]);
    assert c.procs[1].node.log == [SENTINEL];
    assert seq(3, _ => 1) == [1, 1, 1];
    assert seq(3, _ => 0)[0 := MAX_INDEX] == [MAX_INDEX, 0, 0];
    assert Hearing(c, 0, 1);
  }

  /** A round without answers: its request is still under way at the end. */
  lemma SendLate(c: Cluster, t: nat) returns (d: Cluster, m: AppendMsg)
    requires Fresh(c, t) && |c.procs[0].node.log| == 1 && Led(c, 3, false, 0)
    ensures Fresh(d, t) && |d.procs[0].node.log| == 1 && Late(d, m, t) && Led(d, 3, false, 0)
  {
    hide Reachable, WireAll;
    Formed(c, 3, false, 0);
    m := RequestFor(c, 0, 1);
    assert WireAll(c.procs[0].node.log[1..]) == [];
    var c1 := Send(c, 3, false, 0, 1);
    var x;
    d, x := Close(c1, 3, false, 0);
    NoneReached(x);
    assert AdvanceCommit(c1.procs[0].node, 0) == c1.procs[0].node;
    assert m in d.appends;
    forall k | 0 <= k < 3 && k != 0 ensures Hearing(d, 0, k) {
      assert Hearing(c, 0, k);
    }
  }

  /** The second server has the entry, and the first has committed it with commit `k`. */
  ghost predicate Done(c: Cluster, t: nat, k: Commit) {
    && First(c, t, 2, 1) && k in c.commits && k == Commit(t, 1, 0, {0, 1})
    && |c.procs[0].node.log| == 2 && c.procs[0].node.commitIndex == 1 && |c.procs[1].node.log| == 2
    && c.procs[1].node.commitIndex == c.procs[1].node.lastApplied == 0 && !c.procs[1].node.outOfRange
  }

  lemma Replicate(c: Cluster, t: nat, m: AppendMsg) returns (d: Cluster, k: Commit)
    requires Fresh(c, t) && |c.procs[0].node.log| == 2 && Late(c, m, t)
    ensures Done(d, t, k) && Late(d, m, t)
  {
    hide Reachable, WireAll, Resting;
    var c1, r, a := Accept(c, t, m);
    d, k := Commits(c1, t, m, r, a);
  }

  /** The entry is sent and accepted, and the answer is on its way. */
  ghost predicate Answering(c: Cluster, t: nat, r: AppendMsg, a: AppendAnswer) {
    && Ready(c, 3, false) && WellFormed(c.procs[0].node, 3) && c.procs[0].node.leader.Some? && c.procs[0].node.isLeader
    && c.procs[0].node.term == t && c.procs[0].node.leader.value == LeaderState([1, 1, 1], [MAX_INDEX, 0, 0])
    && c.procs[0].mode == Broadcasting(map[1 := r], {}, false)
    && a in c.appendAnswers && a.msg == r && r.to == 1 && a.reply == AppendReply(t, true)
    && |c.procs[0].node.log| == 2 && c.procs[0].node.commitIndex == c.procs[0].node.lastApplied == 0
    && |c.procs[1].node.log| == 2 && Resting(c.procs[1]) && c.procs[1].node.term <= t
    && c.procs[1].node.commitIndex == c.procs[1].node.lastApplied == 0 && !c.procs[1].node.outOfRange
    && |c.procs[2].node.log| == 1
  }

  lemma Accept(c: Cluster, t: nat, m: AppendMsg) returns (d: Cluster, r: AppendMsg, a: AppendAnswer)
    requires Fresh(c, t) && |c.procs[0].node.log| == 2 && Late(c, m, t)
    ensures Answering(d, t, r, a) && Late(d, m, t)
  {
    hide Reachable, WireAll, HandleAppend, AfterAppend, ProcGrows;
    Formed(c, 3, false, 0);
    r := RequestFor(c, 0, 1);
    assert |WireAll(c.procs[0].node.log[1..])| == 1;
    var c1 := Send(c, 3, false, 0, 1);
    InTime(c, 3, false, 1);
    d, a := Answer(c1, 3, false, 1, r);
    FirstAppend(c1.procs[1].node, r.req);
    AnsweredProc(c1.procs[1], r);
    assert m in d.appends;
  }

  lemma Commits(c: Cluster, t: nat, m: AppendMsg, r: AppendMsg, a: AppendAnswer) returns (d: Cluster, k: Commit)
    requires Answering(c, t, r, a) && Late(c, m, t)
    ensures Done(d, t, k) && Late(d, m, t)
  {
    hide Reachable, WireAll, AdvanceCommit, Resting, IsCommitIndex, ProcGrows;
    var c1 := Count(c, 3, false, 0, a);
    assert c1.procs[0].node.leader.value == LeaderState([1, 2, 1], [MAX_INDEX, 1, 0]);
    var x;
    d, x := Close(c1, 3, false, 0);
    OneReached(x);
    k :| NewlyCommitted(c1, d, 0, x, k);
    Raised(c1.procs[0].node);
    Formed(d, 3, false, 0);
    assert m in d.appends;
  }

  lemma Raised(n: Node)
    requires |n.log| == 2 && n.commitIndex == n.lastApplied == 0
    ensures var m := AdvanceCommit(n, 1);
      && m.log == n.log && m.commitIndex == 1 && m.leader == n.leader && m.isLeader == n.isLeader && m.term == n.term
  {
  }

  /** The second server learns of the commit and applies the entry. */
  lemma Learn(c: Cluster, t: nat, k: Commit, m: AppendMsg) returns (d: Cluster)
    requires Done(c, t, k) && Late(c, m, t)
    ensures Ready(d, 3, false) && k in d.commits && Late(d, m, t) && |d.procs[2].node.log| == 1 && d.procs[0].node.term == t
    ensures Resting(d.procs[1]) && d.procs[1].node.term <= t && |d.procs[1].node.log| == 2
    ensures d.procs[1].node.commitIndex == d.procs[1].node.lastApplied == 1
  {
    hide Reachable, WireAll, HandleAppend, AfterAppend;
    Formed(c, 3, false, 0);
    Formed(c, 3, false, 1);
    var r := RequestFor(c, 0, 1);
    assert WireAll(c.procs[0].node.log[2..]) == [];
    var c1 := Send(c, 3, false, 0, 1);
    InTime(c, 3, false, 1);
    var a;
    d, a := Answer(c1, 3, false, 1, r);
    SecondAppend(c1.procs[1].node, r.req);
    AnsweredProc(c1.procs[1], r);
    assert k in d.commits && m in d.appends;
  }

  /** Now the late request arrives. It fails the test. */
  lemma Arrive(c: Cluster, t: nat, k: Commit, m: AppendMsg) returns (d: Cluster)
    requires Ready(c, 3, false) && k in c.commits && Late(c, m, t) && |c.procs[2].node.log| == 1
    requires Resting(c.procs[1]) && c.procs[1].node.term <= t && |c.procs[1].node.log| == 2 && c.procs[0].node.term == t
    requires c.procs[1].node.commitIndex == c.procs[1].node.lastApplied == 1
    ensures Ready(d, 3, false) && k in d.commits && |d.procs[2].node.log| == 1 && d.procs[0].node.term == t
    ensures |d.procs[1].node.log| == 1 && d.procs[1].node.outOfRange
  {
    hide Reachable, WireAll, HandleAppend, AfterAppend;
    Formed(c, 3, false, 1);
    var e := AnswerAppend(1, m);
    OneStep(c, e, false);
    d := Apply(c, e);
    StaysReachable(c, d, 3, false);
    LateAppend(c.procs[1].node, m.req);
    AnsweredProc(c.procs[1], m);
  }

  /** Then the two servers without the entry elect one of them. */
  lemma WinWithout(c: Cluster, t: nat) returns (d: Cluster, w: Win)
    requires Ready(c, 3, false) && |c.procs[1].node.log| == 1 && |c.procs[2].node.log| == 1 && c.procs[0].node.term == t
    ensures Ready(d, 3, false) && c.commits <= d.commits
    ensures w in d.wins && w.term > t && Leads(d, w.leader, w.term) && |d.procs[w.leader].led[w.term].start| <= 1
  {
    hide Reachable, WireAll, Grows;
    var c1 := CrashAll(c, 3, false, 0);
    SameWires(c.procs[1].node.log, c1.procs[1].node.log);
    SameWires(c.procs[2].node.log, c1.procs[2].node.log);
    d := Elect(c1, 3, false, 2, [1]);
    GrowsMore(c, c1, 0);
    GrowsMore(c1, d, 0);
    w := ShortStart(d, 2);
  }

  lemma GrowsMore(c: Cluster, d: Cluster, i: nat)
    requires Grows(c, d) && i < |c.procs|
    ensures c.commits <= d.commits && |c.procs| == |d.procs| && c.procs[i].node.term <= d.procs[i].node.term
  {
    assert ProcGrows(c.procs[i], d.procs[i]);
  }

  lemma ShortStart(c: Cluster, l: nat) returns (w: Win)
    requires Ready(c, 3, false) && l < 3 && c.procs[l].node.leader.Some? && |c.procs[l].node.log| == 1
    ensures w in c.wins && w.term == c.procs[l].node.term && w.leader == l && Leads(c, l, w.term)
    ensures |c.procs[l].led[w.term].start| <= 1
  {
    ReachedReplication(c, 3, false);
    assert ProcOk(c, l) && RecordsOk(c, l);
    w :| w in c.wins && w.term == c.procs[l].node.term && w.leader == l;
    assert |WireAll(c.procs[l].node.log)| == 1;
  }

  /** All three properties fail together: a state is reached, and later another, such that in the first a server of
      the majority behind a commit no longer has the committed index and has its pump outside the log, and in the
      second a later leader was elected without it. */
  lemma CommitLost() returns (c: Cluster, d: Cluster, k: Commit, w: Win)
    ensures Reachable(c, 3, false) && |c.procs| == 3 && Reachable(d, 3, false) && k in c.commits && k in d.commits
    ensures 1 in k.holders && |c.procs[1].node.log| <= k.index && c.procs[1].node.outOfRange
    ensures w in d.wins && w.term > k.term && Leads(d, w.leader, w.term) && |d.procs[w.leader].led[w.term].start| <= k.index
    ensures !ReachableKeeping(c, 3)
  {
    hide Reachable, WireAll, Run, KeepingRun;
    var c0, t := Start();
    var c1, m := SendLate(c0, t);
    var c2 := Client(c1, 3, false, 0, VALUE);
    assert Hearing(c2, 0, 1);
    assert Fresh(c2, t) && Late(c2, m, t);
    var c3;
    c3, k := Replicate(c2, t, m);
    var c4 := Learn(c3, t, k, m);
    c := Arrive(c4, t, k, m);
    d, w := WinWithout(c, t);
    if ReachableKeeping(c, 3) {
      CommittedLengthStays(c, 3, k, 1);
    }
  }
}
