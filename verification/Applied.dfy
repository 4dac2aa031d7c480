/** What servers apply: when the slices taken by the commit pump stay in the log, and that what a server applied
    is, and stays, the beginning of its log. */
module Applied {
  import opened Prelude
  import opened RaftNode
  import opened CommitIndex
  import opened Cluster
  import opened Elections
  import opened Replication
  import opened EraExact
  import opened Completeness
  import opened Ordered
  import Db

  // ----- the pump, over any network

  /** No slice has left the log, and everything committed was handed on. */
  ghost predicate Pumps(n: Node) {
    !n.outOfRange && n.lastApplied == n.commitIndex == |n.queue| < |n.log|
  }

  ghost predicate PumpInv(c: Cluster) {
    && ReplicationInv(c)
    && (forall i | 0 <= i < |c.procs| :: Pumps(c.procs[i].node))
    && (forall m | m in c.appends :: m.req.leaderCommit < Total(m.req))
  }

  /** The test: an accepted request leaves the log longer than what was committed here. */
  ghost predicate KeepsCommitted(c: Cluster, e: Event) {
    e.AnswerAppend? && Writes(c, e) ==> c.procs[e.i].node.commitIndex < Total(e.m.req)
  }

  /** The clamp in CommitChanges is off by one, and it does not help either way: the slice leaves the log exactly
      when the new log does not reach beyond the commit index. */
  lemma AppendPumps(n: Node, r: AppendRequest)
    requires |n.log| > 0 && n.log[0] == SENTINEL && ZeroTerms(n.log) && ZeroTerms(r.entries) && r.prevLogTerm == 0
    requires Pumps(n) && r.leaderCommit < Total(r)
    ensures LeavesLog(n, r) <==> Accepts(n, r) && Total(r) <= n.commitIndex
    ensures Pumps(HandleAppend(n, r).0) <==> !LeavesLog(n, r)
    ensures Accepts(n, r) && !LeavesLog(n, r) ==>
      var m := HandleAppend(n, r).0;
      && m.commitIndex == Max(n.commitIndex, r.leaderCommit)
      && m.queue == n.queue + m.log[n.commitIndex + 1..m.commitIndex + 1]
    ensures !Accepts(n, r) ==>
      var m := HandleAppend(n, r).0; m.commitIndex == n.commitIndex && m.queue == n.queue
  {
    if r.term >= n.term {
      AppendNode(n, r);
    }
  }

  /** Events that leave commit bookkeeping alone, and the log no shorter. */
  ghost predicate CommitSame(p: Proc, q: Proc) {
    && q.node.outOfRange == p.node.outOfRange && q.node.lastApplied == p.node.lastApplied
    && q.node.commitIndex == p.node.commitIndex && q.node.queue == p.node.queue
    && |q.node.log| >= |p.node.log| && q.acked == p.acked && q.node.term >= p.node.term
    && (q.node.term == p.node.term && p.node.leader.Some? ==> q.node.leader.Some?)
  }

  ghost predicate Pumping(e: Event) {
    e.AnswerAppend? || e.Crash? || e.CrashInAppend? || e.CommitRound?
  }

  lemma SameShape(c: Cluster, e: Event)
    requires ReplicationInv(c) && Enabled(c, e, false) && !Pumping(e)
    ensures CommitSame(c.procs[e.i], Apply(c, e).procs[e.i])
  {
    hide CommitSame, AfterVote, HandleVote, CampaignOk, RecordsOk;
    assert ProcOk(c, e.i);
    match e
    case AnswerVote(i, q) => VoteSame(c, i, q);
    case CountVote(i, a) => CountSame(c, i, a);
    case _ => QuietSame(c, e);
  }

  lemma QuietSame(c: Cluster, e: Event)
    requires Enabled(c, e, false) && ProcOk(c, e.i) && !Pumping(e) && !e.AnswerVote? && !e.CountVote?
    ensures CommitSame(c.procs[e.i], Apply(c, e).procs[e.i])
  {
    hide CampaignOk, HandleAppend, AfterVote, AfterAppend, AfterCrashInAppend, AfterWin, PrepareAppend, WireAll,
         CommitChanges;
  }

  lemma VoteSame(c: Cluster, i: nat, q: VoteRequest)
    requires i < |c.procs| && ProcOk(c, i)
    ensures CommitSame(c.procs[i], AfterVote(c.procs[i], q))
  {
  }

  lemma CountSame(c: Cluster, i: nat, a: VoteAnswer)
    requires i < |c.procs| && ProcOk(c, i) && Enabled(c, CountVote(i, a), false)
    ensures CommitSame(c.procs[i], Apply(c, CountVote(i, a)).procs[i])
  {
    hide Apply;
    CountCases(c, i, a);
  }

  /** A process that has just started has applied nothing. */
  ghost predicate Restarted(n: Node) {
    n.commitIndex == 0 && n.lastApplied == 0 && n.queue == [] && !n.outOfRange && |n.log| > 0
  }

  lemma CrashShape(c: Cluster, e: Event)
    requires ReplicationInv(c) && Enabled(c, e, false) && (e.Crash? || e.CrashInAppend?)
    ensures Restarted(Apply(c, e).procs[e.i].node)
  {
    hide RecordsOk, CampaignOk;
    assert ProcOk(c, e.i);
  }

  /** The commit rule raises the commit index inside the leader's log. */
  lemma RoundShape(c: Cluster, e: Event)
    requires |c.procs| >= 2 && ReplicationInv(c) && Enabled(c, e, false) && e.CommitRound?
    requires Pumps(c.procs[e.i].node)
    ensures var n, d := c.procs[e.i].node, Apply(c, e); var m := d.procs[e.i].node;
      && Pumps(m) && m.log == n.log && m.term == n.term && m.leader == n.leader && n.leader.Some?
      && d.procs[e.i].led == c.procs[e.i].led && d.procs[e.i].acked == c.procs[e.i].acked
      && m.commitIndex == Max(n.commitIndex, e.index)
      && m.queue == n.queue + n.log[n.commitIndex + 1..m.commitIndex + 1]
      && (n.commitIndex < e.index ==>
            exists k :: k in d.commits && k.index == e.index && k.term == n.term && k.leader == e.i)
  {
    hide LeaderOk, SentOk, EpochOk, CampaignOk, CommitOk, AdvanceCommit, WireAll, IsCommitIndex, Pumps;
    assert ProcOk(c, e.i) && RecordsOk(c, e.i);
    var n := c.procs[e.i].node;
    if n.commitIndex < e.index {
      NewCommit(c, e.i, e.index);
    }
    AdvancedNode(n, e.index);
    if n.commitIndex < e.index {
      var k := Commit(n.term, e.index, e.i, Reaching(n.leader.value.matchIndex, e.index) + {e.i});
      assert k in Apply(c, e).commits;
    }
  }

  lemma AdvancedNode(n: Node, index: nat)
    requires Pumps(n) && (n.commitIndex < index ==> index < |n.log|)
    ensures var m := AdvanceCommit(n, index);
      && Pumps(m) && m.log == n.log && m.term == n.term && m.leader == n.leader
      && m.commitIndex == Max(n.commitIndex, index)
      && m.queue == n.queue + n.log[n.commitIndex + 1..m.commitIndex + 1]
  {
  }

  lemma AnsweredPump(c: Cluster, e: Event)
    requires PumpInv(c) && Enabled(c, e, false) && e.AnswerAppend?
    ensures e.i < |Apply(c, e).procs| && (Pumps(Apply(c, e).procs[e.i].node) <==> KeepsCommitted(c, e))
  {
    hide Pumps, HandleAppend, LeavesLog, Accepts;
    AnsweredNode(c, e.i, e.m);
    assert e == AnswerAppend(e.i, e.m);
    var n := c.procs[e.i].node;
    AppendPumps(n, e.m.req);
    assert Pumps(n);
  }

  lemma AnsweredNode(c: Cluster, i: nat, m: AppendMsg)
    requires ReplicationInv(c) && Enabled(c, AnswerAppend(i, m), false)
    ensures var n := c.procs[i].node; var r := m.req;
      && |n.log| > 0 && n.log[0] == SENTINEL && ZeroTerms(n.log) && ZeroTerms(r.entries) && r.prevLogTerm == 0
      && m in c.appends && m.to == i
      && i < |Apply(c, AnswerAppend(i, m)).procs|
      && Apply(c, AnswerAppend(i, m)).procs[i].node == HandleAppend(n, r).0
      && Apply(c, AnswerAppend(i, m)).commits == c.commits
  {
    hide HandleAppend, RecordsOk, CampaignOk;
    assert ProcOk(c, i) && AppendOk(c, m);
  }

  lemma OwnPump(c: Cluster, e: Event)
    requires |c.procs| >= 2 && PumpInv(c) && Enabled(c, e, false)
    ensures e.i < |Apply(c, e).procs| && (Pumps(Apply(c, e).procs[e.i].node) <==> KeepsCommitted(c, e))
  {
    hide ReplicationInv, Apply, KeepsCommitted, Writes;
    StepLocal(c, e);
    if e.AnswerAppend? {
      AnsweredPump(c, e);
    } else {
      OnlyAnswers(c, e);
      if e.Crash? || e.CrashInAppend? {
        CrashShape(c, e);
      } else if e.CommitRound? {
        RoundShape(c, e);
      } else {
        SameShape(c, e);
      }
    }
  }

  lemma OnlyAnswers(c: Cluster, e: Event)
    requires !e.AnswerAppend?
    ensures KeepsCommitted(c, e)
  {
  }

  lemma SentLength(c: Cluster, e: Event, m: AppendMsg)
    requires ReplicationInv(c) && Enabled(c, e, false) && m in Apply(c, e).appends && m !in c.appends
    ensures e.SendAppend? && m == AppendMsg(e.j, c.clock, PrepareAppend(c.procs[e.i].node, e.i, e.j))
    ensures Total(m.req) == |c.procs[e.i].node.log| && m.req.leaderCommit == c.procs[e.i].node.commitIndex
    ensures m.req.leader == e.i && m.req.term == c.procs[e.i].node.term && Leads(c, e.i, m.req.term)
    ensures c.procs[e.i].led[m.req.term].log == WireAll(c.procs[e.i].node.log)
    ensures Apply(c, e).procs[e.i].node == c.procs[e.i].node
  {
    hide HandleAppend, AfterAppend, AfterCrashInAppend, AfterVote, HandleVote, RecordsOk, CampaignOk, WireAll;
    assert ProcOk(c, e.i) && RecordsOk(c, e.i);
    if e.SendAppend? {
      SentSlice(c, e.i, e.j);
    }
  }

  /** Exactly the steps that pass the test keep every slice in the log, over any network. */
  lemma PumpExact(c: Cluster, e: Event)
    requires |c.procs| >= 2 && PumpInv(c) && Enabled(c, e, false)
    ensures PumpInv(Apply(c, e)) <==> KeepsCommitted(c, e)
  {
    hide ReplicationInv, Apply, KeepsCommitted;
    var d := Apply(c, e);
    StepKeepsReplication(c, e);
    StepLocal(c, e);
    OwnPump(c, e);
    forall m | m in d.appends ensures m.req.leaderCommit < Total(m.req) {
      if m !in c.appends {
        SentLength(c, e, m);
      }
    }
  }

  // ----- where commit indexes come from, while acknowledged entries are kept

  /** A commit index comes from the commit of some leader: of an earlier term, or of the server's current
      one, and then its own log is already longer or it leads. */
  ghost predicate Sourced(c: Cluster, i: nat, k: Commit)
    requires i < |c.procs|
  {
    var p := c.procs[i];
    var n := p.node;
    && k in c.commits && k.index == n.commitIndex && k.term <= n.term
    && (k.term == n.term ==> n.leader.Some? || (n.term in p.acked && p.acked[n.term] > n.commitIndex))
  }

  /** What the server applied is the beginning of its log. */
  ghost predicate AppliedLog(n: Node) {
    n.commitIndex < |n.log| && WireAll(n.queue) == WireAll(n.log)[1..n.commitIndex + 1]
  }

  ghost predicate RangeOk(c: Cluster, i: nat)
    requires i < |c.procs|
  {
    var n := c.procs[i].node;
    && AppliedLog(n)
    && (n.commitIndex > 0 ==> exists k :: Sourced(c, i, k))
  }

  ghost predicate LeaderCommitOk(c: Cluster, m: AppendMsg) {
    m.req.leaderCommit > 0 ==>
      exists k :: k in c.commits && k.index == m.req.leaderCommit && k.term <= m.req.term
  }

  ghost predicate RangeInv(c: Cluster) {
    && LengthInv(c) && AllSafe(c) && PumpInv(c)
    && (forall i | 0 <= i < |c.procs| :: RangeOk(c, i))
    && (forall m | m in c.appends :: LeaderCommitOk(c, m))
  }

  lemma RangeGives(c: Cluster)
    requires RangeInv(c)
    ensures LengthInv(c) && FloorInv(c) && ReplicationInv(c) && ElectionInv(c) && AllSafe(c) && PumpInv(c)
  {
  }

  lemma SourceStays(c: Cluster, d: Cluster, i: nat, k: Commit)
    requires i < |c.procs| && Grows(c, d) && d.procs[i] == c.procs[i] && Sourced(c, i, k)
    ensures Sourced(d, i, k)
  {
  }

  lemma RangeStays(c: Cluster, d: Cluster, i: nat)
    requires i < |c.procs| && Grows(c, d) && d.procs[i] == c.procs[i] && RangeOk(c, i)
    ensures RangeOk(d, i)
  {
    if c.procs[i].node.commitIndex > 0 {
      var k :| Sourced(c, i, k);
      assert Sourced(d, i, k);
    }
  }

  /** The queue stays the beginning of the log when the next entries of the log are queued. */
  lemma QueueExtends(log: seq<Entry>, queue: seq<Entry>, before: nat, bound: nat)
    requires before <= bound < |log| && WireAll(queue) == WireAll(log)[1..before + 1]
    ensures WireAll(queue + log[before + 1..bound + 1]) == WireAll(log)[1..bound + 1]
  {
    var q := WireAll(queue + log[before + 1..bound + 1]);
    assert |queue| == |WireAll(queue)| == before;
    forall x | 0 <= x < bound ensures q[x] == WireAll(log)[1..bound + 1][x] {
      if x < before {
        assert q[x] == WireAll(queue)[x];
      }
    }
  }

  /** It also stays that while the entries up to the commit index do. */
  lemma AppliedOn(n: Node, x: Node)
    requires AppliedLog(n) && n.commitIndex <= x.commitIndex < |x.log|
    requires WireAll(n.log)[..n.commitIndex + 1] <= WireAll(x.log)
    requires x.queue == n.queue + x.log[n.commitIndex + 1..x.commitIndex + 1]
    ensures AppliedLog(x)
  {
    hide WireAll;
    var a, b, k := WireAll(n.log), WireAll(x.log), n.commitIndex;
    assert a[1..k + 1] == a[..k + 1][1..] == b[..k + 1][1..] == b[1..k + 1];
    QueueExtends(x.log, n.queue, k, x.commitIndex);
  }

  lemma TakeOfPrefix(a: seq<Entry>, b: seq<Entry>, k: nat)
    requires a <= b && k <= |a|
    ensures a[..k] <= b
  {
  }

  lemma SameRange(c: Cluster, d: Cluster, i: nat)
    requires i < |c.procs| && Grows(c, d) && RangeOk(c, i) && CommitSame(c.procs[i], d.procs[i])
    requires WireAll(c.procs[i].node.log) <= WireAll(d.procs[i].node.log)
    ensures RangeOk(d, i)
  {
    hide WireAll, AppliedLog;
    var n, x := c.procs[i].node, d.procs[i].node;
    AppliedSame(n, x);
    if n.commitIndex > 0 {
      var k :| Sourced(c, i, k);
      assert Sourced(d, i, k);
    }
  }

  lemma AppliedSame(n: Node, x: Node)
    requires AppliedLog(n) && x.commitIndex == n.commitIndex && x.queue == n.queue
    requires |n.log| <= |x.log| && WireAll(n.log) <= WireAll(x.log)
    ensures AppliedLog(x)
  {
    TakeOfPrefix(WireAll(n.log), WireAll(x.log), n.commitIndex + 1);
    assert x.log[n.commitIndex + 1..x.commitIndex + 1] == [];
    AppliedOn(n, x);
  }

  lemma RestartedRange(c: Cluster, i: nat)
    requires i < |c.procs| && Restarted(c.procs[i].node)
    ensures RangeOk(c, i)
  {
  }

  lemma RaisedRange(c: Cluster, d: Cluster, i: nat, index: nat)
    requires i < |c.procs| == |d.procs| && RangeOk(c, i) && c.procs[i].node.leader.Some? && c.commits <= d.commits
    requires var n, m := c.procs[i].node, d.procs[i].node;
      && Pumps(m) && m.log == n.log && m.term == n.term && m.leader == n.leader
      && d.procs[i].acked == c.procs[i].acked
      && m.commitIndex == Max(n.commitIndex, index)
      && m.queue == n.queue + n.log[n.commitIndex + 1..m.commitIndex + 1]
      && (n.commitIndex < index ==> exists k :: k in d.commits && k.index == index && k.term == n.term)
    ensures RangeOk(d, i)
  {
    hide AppliedLog;
    var n := c.procs[i].node;
    AppliedRaised(n, d.procs[i].node);
    if n.commitIndex < index {
      var k :| k in d.commits && k.index == index && k.term == n.term;
      assert Sourced(d, i, k);
    } else if n.commitIndex > 0 {
      var k :| Sourced(c, i, k);
      assert Sourced(d, i, k);
    }
  }

  lemma AppliedRaised(n: Node, m: Node)
    requires AppliedLog(n) && m.log == n.log && n.commitIndex <= m.commitIndex < |m.log|
    requires m.queue == n.queue + n.log[n.commitIndex + 1..m.commitIndex + 1]
    ensures AppliedLog(m)
  {
    TakeOfPrefix(WireAll(n.log), WireAll(n.log), n.commitIndex + 1);
    AppliedOn(n, m);
  }

  // ----- the follower side

  /** What a request writes starts behind what the server applied, unless its leader wrote that too, and if the
      request keeps what was acknowledged, the new log reaches beyond the commit index. */
  lemma AppendCovers(c: Cluster, e: Event)
    requires RangeInv(c) && Enabled(c, e, false) && e.AnswerAppend? && Writes(c, e)
    ensures c.procs[e.i].node.commitIndex <= e.m.req.prevLogIndex || c.procs[e.i].epoch == e.m.req.term
    ensures KeepsAcked(c, e) ==> KeepsCommitted(c, e)
    ensures forall k :: Sourced(c, e.i, k) && k.index > 0 && k.term == e.m.req.term ==> e.m.req.term in c.procs[e.i].acked
  {
    hide LengthInv, PumpInv, WireAll, Accepts, LeaderCommitOk;
    RangeGives(c);
    var n := c.procs[e.i].node;
    assert RangeOk(c, e.i) && ProcOk(c, e.i) && RecordsOk(c, e.i);
    WriteTerm(c, e);
    NotOwnEra(c, e.i, e.m);
    KeptPart(c, e);
    if n.commitIndex > 0 {
      var k :| Sourced(c, e.i, k);
      if k.term < e.m.req.term {
        CommitInStart(c, e.m, k);
      }
    }
  }

  /** An era of a later term than a commit began with the committed index inside. */
  lemma CommitInStart(c: Cluster, m: AppendMsg, k: Commit)
    requires ReplicationInv(c) && AllSafe(c) && m in c.appends && k in c.commits && k.term < m.req.term
    ensures Leads(c, m.req.leader, m.req.term) && k.index < |c.procs[m.req.leader].led[m.req.term].start| <= Total(m.req)
  {
    assert AppendOk(c, m) && SliceOk(c, m) && ProcOk(c, m.req.leader);
    var w :| w in c.wins && w.term == m.req.term && w.leader == m.req.leader;
    LaterWin(c, k, w);
  }

  /** A server's source of its commit index survives a request of its own or a later term. */
  lemma OldSource(c: Cluster, d: Cluster, i: nat, m: AppendMsg, k: Commit)
    requires ReplicationInv(c) && Grows(c, d) && i < |c.procs| && m in c.appends && m.to == i && Sourced(c, i, k)
    requires d.procs[i].node.commitIndex == c.procs[i].node.commitIndex > 0
    requires m.req.term >= c.procs[i].node.term && d.procs[i].node.term == m.req.term
    ensures Sourced(d, i, k)
  {
    hide RecordsOk, CampaignOk;
    assert ProcOk(c, i) && ProcGrows(c.procs[i], d.procs[i]);
    NotOwnEra(c, i, m);
  }

  lemma AnsweredRange(c: Cluster, e: Event)
    requires RangeInv(c) && Enabled(c, e, false) && e.AnswerAppend? && KeepsAcked(c, e)
    requires FloorInv(Apply(c, e)) && Grows(c, Apply(c, e))
    ensures e.i < |Apply(c, e).procs| && RangeOk(Apply(c, e), e.i)
  {
    hide RangeInv, FloorInv, Apply, HandleAppend, Writes, KeepsAcked, WireAll, AppliedLog, Sourced;
    RangeGives(c);
    OkOf(c, e.i);
    AnsweredNode(c, e.i, e.m);
    assert e == AnswerAppend(e.i, e.m);
    if Writes(c, e) {
      AcceptedRange(c, e);
    } else {
      RefusedRange(c, e);
    }
  }

  lemma OkOf(c: Cluster, i: nat)
    requires RangeInv(c) && i < |c.procs|
    ensures RangeOk(c, i) && Pumps(c.procs[i].node)
  {
  }

  lemma RefusedRange(c: Cluster, e: Event)
    requires RangeInv(c) && Enabled(c, e, false) && e.AnswerAppend? && !Writes(c, e) && Grows(c, Apply(c, e))
    ensures e.i < |Apply(c, e).procs| && RangeOk(Apply(c, e), e.i)
  {
    hide RangeInv, Apply, HandleAppend, WireAll, AppliedLog, Sourced, Pumps;
    RangeGives(c);
    OkOf(c, e.i);
    var p, d := c.procs[e.i], Apply(c, e);
    AnsweredNode(c, e.i, e.m);
    assert e == AnswerAppend(e.i, e.m);
    QuietShape(c, e);
    SameEra(p, d.procs[e.i]);
    LeaderCommitBelow(c, e.m);
    AppendPumps(p.node, e.m.req);
    AppliedSame(p.node, d.procs[e.i].node);
    if p.node.commitIndex > 0 {
      var k :| Sourced(c, e.i, k);
      if e.m.req.term < p.node.term {
        StaleAppend(p, e.m);
        StaleNode(c, e.i, e.m);
        SourceStays(c, d, e.i, k);
      } else {
        AppendNode(p.node, e.m.req);
        OldSource(c, d, e.i, e.m, k);
      }
    }
  }

  lemma StaleNode(c: Cluster, i: nat, m: AppendMsg)
    requires Enabled(c, AnswerAppend(i, m), false) && m.req.term < c.procs[i].node.term
    ensures Apply(c, AnswerAppend(i, m)).procs[i] == c.procs[i]
  {
    StaleAppend(c.procs[i], m);
  }

  lemma LeaderCommitBelow(c: Cluster, m: AppendMsg)
    requires RangeInv(c) && m in c.appends
    ensures m.req.leaderCommit < Total(m.req) && LeaderCommitOk(c, m)
  {
  }

  lemma AcceptedRange(c: Cluster, e: Event)
    requires RangeInv(c) && Enabled(c, e, false) && e.AnswerAppend? && Writes(c, e) && KeepsAcked(c, e)
    requires FloorInv(Apply(c, e)) && Grows(c, Apply(c, e))
    ensures e.i < |Apply(c, e).procs| && RangeOk(Apply(c, e), e.i)
  {
    hide RangeInv, FloorInv, Apply, HandleAppend, WireAll, AppliedLog, Sourced, Writes, KeepsAcked, Grows;
    RangeGives(c);
    OkOf(c, e.i);
    LeaderCommitBelow(c, e.m);
    AcceptedNode(c, e);
    AppliedKept(c, e);
    AppliedOn(c.procs[e.i].node, Apply(c, e).procs[e.i].node);
    AcceptedSource(c, Apply(c, e), e.i, e.m);
  }

  lemma AcceptedNode(c: Cluster, e: Event)
    requires RangeInv(c) && Enabled(c, e, false) && e.AnswerAppend? && Writes(c, e) && KeepsAcked(c, e)
    ensures e.m in c.appends && e.m.to == e.i && e.m.req.term >= c.procs[e.i].node.term && e.i < |Apply(c, e).procs|
    ensures var n, q := c.procs[e.i].node, Apply(c, e).procs[e.i];
      && q.node.term == e.m.req.term && |q.node.log| == Total(e.m.req)
      && q.node.commitIndex == Max(n.commitIndex, e.m.req.leaderCommit) < Total(e.m.req)
      && q.node.queue == n.queue + q.node.log[n.commitIndex + 1..q.node.commitIndex + 1]
      && e.m.req.term in q.acked && q.acked[e.m.req.term] >= Total(e.m.req)
  {
    hide RangeInv, Apply, HandleAppend, WireAll, Accepts, KeepsAcked, LeavesLog, Sourced, RangeOk;
    RangeGives(c);
    OkOf(c, e.i);
    AnsweredNode(c, e.i, e.m);
    assert e == AnswerAppend(e.i, e.m);
    LeaderCommitBelow(c, e.m);
    AppendCovers(c, e);
    AppendPumps(c.procs[e.i].node, e.m.req);
    WriteShape(c, e);
  }

  lemma AppliedKept(c: Cluster, e: Event)
    requires RangeInv(c) && Enabled(c, e, false) && e.AnswerAppend? && Writes(c, e) && KeepsAcked(c, e)
    requires FloorInv(Apply(c, e))
    ensures var p, q := c.procs[e.i], Apply(c, e).procs[e.i];
      && p.node.commitIndex < |p.node.log|
      && WireAll(p.node.log)[..p.node.commitIndex + 1] <= WireAll(q.node.log)
  {
    hide RangeInv, FloorInv, Apply, WireAll, Accepts, KeepsAcked, Written;
    RangeGives(c);
    OkOf(c, e.i);
    AppendCovers(c, e);
    WriteShape(c, e);
    WriteKeeps(c, e, c.procs[e.i].node.commitIndex + 1);
  }

  /** The commit index after an accepted request is the old one or the one the request brings. */
  lemma AcceptedSource(c: Cluster, d: Cluster, i: nat, m: AppendMsg)
    requires ReplicationInv(c) && i < |c.procs| && RangeOk(c, i) && Grows(c, d) && m in c.appends && m.to == i
    requires LeaderCommitOk(c, m) && m.req.term >= c.procs[i].node.term && d.procs[i].node.term == m.req.term
    requires d.procs[i].node.commitIndex == Max(c.procs[i].node.commitIndex, m.req.leaderCommit) < Total(m.req)
    requires m.req.term in d.procs[i].acked && d.procs[i].acked[m.req.term] >= Total(m.req)
    ensures d.procs[i].node.commitIndex > 0 ==> exists k :: Sourced(d, i, k)
  {
    hide ReplicationInv;
    var n := c.procs[i].node;
    if n.commitIndex < m.req.leaderCommit {
      var k :| k in c.commits && k.index == m.req.leaderCommit && k.term <= m.req.term;
      assert Sourced(d, i, k);
    } else if n.commitIndex > 0 {
      var k :| Sourced(c, i, k);
      OldSource(c, d, i, m, k);
    }
  }

  lemma OwnRange(c: Cluster, e: Event)
    requires |c.procs| >= 2 && RangeInv(c) && Enabled(c, e, false) && KeepsAcked(c, e)
    requires FloorInv(Apply(c, e)) && Grows(c, Apply(c, e)) && e.i < |Apply(c, e).procs|
    ensures RangeOk(Apply(c, e), e.i) && KeepsCommitted(c, e)
  {
    hide RangeInv, FloorInv, Apply, RangeOk, KeepsAcked, Writes, KeepsCommitted, CommitSame, Grows;
    RangeGives(c);
    OkOf(c, e.i);
    if e.AnswerAppend? {
      AnsweredRange(c, e);
      if Writes(c, e) {
        AppendCovers(c, e);
      } else {
        NotWriting(c, e);
      }
    } else {
      OnlyAnswers(c, e);
      if e.Crash? || e.CrashInAppend? {
        CrashShape(c, e);
        RestartedRange(Apply(c, e), e.i);
      } else if e.CommitRound? {
        RoundShape(c, e);
        GrowsCommits(c, Apply(c, e));
        RaisedRange(c, Apply(c, e), e.i, e.index);
      } else {
        SameShape(c, e);
        QuietWrites(c, e);
        LogKept(c, e);
        SameRange(c, Apply(c, e), e.i);
      }
    }
  }

  lemma NotWriting(c: Cluster, e: Event)
    requires !Writes(c, e)
    ensures KeepsCommitted(c, e)
  {
  }

  lemma QuietWrites(c: Cluster, e: Event)
    requires !Pumping(e)
    ensures !Writes(c, e)
  {
  }

  lemma GrowsCommits(c: Cluster, d: Cluster)
    requires Grows(c, d)
    ensures |c.procs| == |d.procs| && c.commits <= d.commits && c.wins <= d.wins
  {
  }

  lemma StepKeepsRange(c: Cluster, e: Event)
    requires |c.procs| >= 2 && RangeInv(c) && Enabled(c, e, false) && KeepsAcked(c, e)
    ensures RangeInv(Apply(c, e)) && KeepsCommitted(c, e)
  {
    hide LengthInv, AllSafe, PumpInv, Apply, RangeOk, LeaderCommitOk, KeepsAcked, KeepsCommitted, Grows;
    var d := Apply(c, e);
    RangeGives(c);
    GuardExact(c, e);
    LengthGives(d);
    StepAllSafe(c, e);
    StepGrows(c, e);
    StepLocal(c, e);
    OwnRange(c, e);
    PumpExact(c, e);
    forall i | 0 <= i < |d.procs| ensures RangeOk(d, i) {
      if i != e.i {
        RangeStays(c, d, i);
      }
    }
    SentCommits(c, e);
  }

  lemma SentCommits(c: Cluster, e: Event)
    requires RangeInv(c) && Enabled(c, e, false)
    ensures forall m | m in Apply(c, e).appends :: LeaderCommitOk(Apply(c, e), m)
  {
    hide LengthInv, AllSafe, PumpInv, Apply, AppliedLog;
    RangeGives(c);
    StepLocal(c, e);
    var d := Apply(c, e);
    forall m | m in d.appends ensures LeaderCommitOk(d, m) {
      if m in c.appends {
        assert LeaderCommitOk(c, m);
      } else {
        SentLength(c, e, m);
        assert RangeOk(c, e.i);
        if m.req.leaderCommit > 0 {
          var k :| Sourced(c, e.i, k);
          assert k in d.commits;
        }
      }
    }
  }

  lemma {:induction false} RunKeepsRange(c: Cluster, events: seq<Event>)
    requires |c.procs| >= 2 && RangeInv(c) && KeepingRun(c, events)
    ensures Run(c, events, false).Some? && RangeInv(Run(c, events, false).value)
    ensures |Run(c, events, false).value.procs| == |c.procs|
    decreases |events|
  {
    hide RangeInv, KeepsAcked, Apply;
    if events != [] {
      StepKeepsRange(c, events[0]);
      StepLocal(c, events[0]);
      RunKeepsRange(Apply(c, events[0]), events[1..]);
    }
  }

  lemma InitRange(n: nat)
    ensures RangeInv(Init(n))
  {
    InitSafe(n);
    assert WireAll([]) == [];
  }

  lemma ReachedRange(c: Cluster, n: nat)
    requires ReachableKeeping(c, n)
    ensures RangeInv(c) && |c.procs| == n >= 2
  {
    hide RangeInv, KeepsAcked, Apply, Run;
    var events :| Run(Init(n), events, false) == Some(c) && KeepingRun(Init(n), events);
    InitRange(n);
    RunKeepsRange(Init(n), events);
  }

  // ----- what this gives, over every run that keeps what was acknowledged

  /** No slice CommitChanges takes ever leaves the log: on every server the last applied index is the
      commit index, it is below the length of the log, and exactly that many entries went to the queue. */
  lemma CommitsInRange(c: Cluster, n: nat, i: nat)
    requires ReachableKeeping(c, n) && i < n
    ensures |c.procs| == n
    ensures var x := c.procs[i].node;
      !x.outOfRange && x.lastApplied == x.commitIndex == |x.queue| && x.commitIndex < |x.log|
  {
    hide RangeInv;
    ReachedRange(c, n);
    OkOf(c, i);
  }

  /** No append request that arrives and passes the test makes the code panic: it does not claim another term for
      the sentinel, and it does not make the commit part leave the log. */
  lemma AppendsNeverPanic(c: Cluster, n: nat, i: nat, m: AppendMsg)
    requires ReachableKeeping(c, n) && Enabled(c, AnswerAppend(i, m), false) && KeepsAcked(c, AnswerAppend(i, m))
    ensures !LosesSentinel(c.procs[i].node, m.req) && !LeavesLog(c.procs[i].node, m.req)
  {
    hide RangeInv, Apply, KeepsAcked, LeavesLog, Accepts;
    var e := AnswerAppend(i, m);
    ReachedRange(c, n);
    RangeGives(c);
    StepKeepsRange(c, e);
    AnsweredNode(c, i, m);
    OkOf(c, i);
    LeaderCommitBelow(c, m);
    AppendPumps(c.procs[i].node, m.req);
  }

  /** What a server applied is the beginning of its log, whatever leaders wrote to it. */
  lemma AppliedIsLog(c: Cluster, n: nat, i: nat)
    requires ReachableKeeping(c, n) && i < n
    ensures |c.procs| == n && c.procs[i].node.lastApplied < |c.procs[i].node.log|
    ensures WireAll(c.procs[i].node.queue) == WireAll(c.procs[i].node.log)[1..c.procs[i].node.lastApplied + 1]
  {
    hide RangeInv;
    ReachedRange(c, n);
    OkOf(c, i);
  }

  /** So a server's store, once its queue is drained, is the fold of its log positions 1 .. lastApplied, also when
      a restarted process replays from empty. */
  lemma StoreIsFold(c: Cluster, n: nat, i: nat)
    requires ReachableKeeping(c, n) && i < n
    ensures |c.procs| == n && c.procs[i].node.lastApplied < |c.procs[i].node.log|
    ensures Db.Fold(c.procs[i].node.queue) == Db.Fold(c.procs[i].node.log[1..c.procs[i].node.lastApplied + 1])
  {
    AppliedIsLog(c, n, i);
    FoldOfLog(c.procs[i].node.log, c.procs[i].node.queue, c.procs[i].node.lastApplied + 1);
  }

  lemma FoldOfLog(log: seq<Entry>, queue: seq<Entry>, k: nat)
    requires 1 <= k <= |log| && WireAll(queue) == WireAll(log)[1..k]
    ensures Db.Fold(queue) == Db.Fold(log[1..k])
  {
    Db.FoldWire(queue);
    Db.FoldWire(log[1..k]);
    assert WireAll(log[1..k]) == WireAll(log)[1..k];
  }

  // ----- the same, in order

  lemma CommitsInRangeInOrder(c: Cluster, n: nat, i: nat)
    requires Reachable(c, n, true) && i < n
    ensures |c.procs| == n
    ensures var x := c.procs[i].node;
      !x.outOfRange && x.lastApplied == x.commitIndex == |x.queue| && x.commitIndex < |x.log|
  {
    OrderedKeeps(c, n);
    CommitsInRange(c, n, i);
  }

  lemma AppendsNeverPanicInOrder(c: Cluster, n: nat, i: nat, m: AppendMsg)
    requires Reachable(c, n, true) && Enabled(c, AnswerAppend(i, m), true)
    ensures !LosesSentinel(c.procs[i].node, m.req) && !LeavesLog(c.procs[i].node, m.req)
  {
    hide OrderInv, KeepsAcked, LeavesLog, LosesSentinel, Run;
    OrderedKeeps(c, n);
    ReachedOrder(c, n);
    OrderedPasses(c, AnswerAppend(i, m));
    AppendsNeverPanic(c, n, i, m);
  }
}
