/** When the appends of one term reach a server in the order they were sent to it, and no crash falls inside the
    handling of one, every write keeps what was acknowledged. */
module Ordered {
  import opened Prelude
  import opened RaftNode
  import opened Cluster
  import opened Elections
  import opened Replication
  import opened EraExact
  import opened Completeness

  /** Requests that may still be delivered are at least as long as what their receiver acknowledged. */
  ghost predicate NotShorter(c: Cluster, m: AppendMsg)
    requires m.to < |c.procs|
  {
    var p := c.procs[m.to];
    m.stamp >= Seen(p, m.req.term) && m.req.term in p.acked ==> Total(m.req) >= p.acked[m.req.term]
  }

  ghost predicate Rising(a: AppendMsg, b: AppendMsg) {
    a.req.term == b.req.term && a.stamp <= b.stamp ==> Total(a.req) <= Total(b.req)
  }

  ghost predicate OrderInv(c: Cluster) {
    && LengthInv(c)
    && (forall m | m in c.appends :: m.to < |c.procs| && NotShorter(c, m))
    && (forall a, b | a in c.appends && b in c.appends :: Rising(a, b))
  }

  /** In order, a request that is accepted passes the test. */
  lemma OrderedPasses(c: Cluster, e: Event)
    requires OrderInv(c) && Enabled(c, e, true)
    ensures Enabled(c, e, false) && KeepsAcked(c, e)
  {
    hide LengthInv, Accepts;
  }

  /** Only appends change what a server acknowledged and the stamps it has seen. */
  lemma SeenShape(c: Cluster, e: Event)
    requires ReplicationInv(c) && Enabled(c, e, false) && !e.AnswerAppend? && !e.CrashInAppend?
    ensures var p, q := c.procs[e.i], Apply(c, e).procs[e.i]; q.acked == p.acked && q.seen == p.seen
    ensures !e.SendAppend? ==> Apply(c, e).appends == c.appends
  {
    hide RecordsOk, CampaignOk, SliceOk, AfterAppend, AfterCrashInAppend, PrepareAppend, WireAll, WinOk, Judge;
    assert ProcOk(c, e.i);
  }

  lemma OldNotShorter(c: Cluster, d: Cluster)
    requires OrderInv(c) && |c.procs| == |d.procs|
    requires forall i | 0 <= i < |c.procs| :: d.procs[i].acked == c.procs[i].acked && d.procs[i].seen == c.procs[i].seen
    ensures forall m | m in c.appends :: m.to < |d.procs| && NotShorter(d, m)
  {
    forall m | m in c.appends ensures m.to < |d.procs| && NotShorter(d, m) {
      assert NotShorter(c, m);
    }
  }

  lemma QuietKeepsOrder(c: Cluster, e: Event)
    requires |c.procs| >= 2 && OrderInv(c) && Enabled(c, e, true) && !e.AnswerAppend? && !e.SendAppend?
    ensures OrderInv(Apply(c, e))
  {
    hide LengthInv, Apply, NotShorter, Rising, KeepsAcked;
    OrderedPasses(c, e);
    GuardExact(c, e);
    LengthGives(c);
    StepLocal(c, e);
    SeenShape(c, e);
    OldNotShorter(c, Apply(c, e));
  }

  lemma SendKeepsOrder(c: Cluster, i: nat, j: nat)
    requires |c.procs| >= 2 && OrderInv(c) && Enabled(c, SendAppend(i, j), true)
    ensures OrderInv(Apply(c, SendAppend(i, j)))
  {
    hide LengthInv, NotShorter, Rising, KeepsAcked, PrepareAppend;
    var e := SendAppend(i, j);
    OrderedPasses(c, e);
    GuardExact(c, e);
    SendKeepsFromOrder(c, Apply(c, e), i, j, AppendMsg(j, c.clock, PrepareAppend(c.procs[i].node, i, j)));
  }

  lemma SendKeepsFromOrder(c: Cluster, d: Cluster, i: nat, j: nat, m: AppendMsg)
    requires OrderInv(c) && LengthInv(d) && i < |c.procs| && j < |c.procs| && j != i
    requires c.procs[i].node.leader.Some? && c.procs[i].mode.Broadcasting? && |c.procs[i].node.log| > 0
    requires j < |c.procs[i].node.leader.value.nextIndex|
    requires m == AppendMsg(j, c.clock, PrepareAppend(c.procs[i].node, i, j))
    requires d == c.(
      procs := c.procs[i := c.procs[i].(mode := c.procs[i].mode.(sent := c.procs[i].mode.sent[j := m]))],
      appends := c.appends + {m}, clock := c.clock + 1)
    ensures OrderInv(d)
  {
    hide LengthInv, PrepareAppend;
    OldNotShorter(c, d);
    NewestLongest(c, i, j);
    assert NotShorter(d, m);
    forall a, b | a in d.appends && b in d.appends ensures Rising(a, b) {
      if a in c.appends && b in c.appends {
        assert Rising(a, b);
      }
    }
  }

  /** A request about to be sent is at least as long as every earlier one of its term, and as everything
      acknowledged in it. */
  lemma NewestLongest(c: Cluster, i: nat, j: nat)
    requires OrderInv(c) && i < |c.procs| && j < |c.procs| && j != i && c.procs[i].node.leader.Some?
    requires |c.procs[i].node.log| > 0 && j < |c.procs[i].node.leader.value.nextIndex|
    ensures var r := PrepareAppend(c.procs[i].node, i, j);
      && (forall a | a in c.appends && a.req.term == r.term :: Total(a.req) <= Total(r) && a.stamp < c.clock)
      && (r.term in c.procs[j].acked ==> c.procs[j].acked[r.term] <= Total(r))
  {
    hide FloorInv, LeaderOk, SentOk, CampaignOk;
    LengthGives(c);
    var r := PrepareAppend(c.procs[i].node, i, j);
    assert ProcOk(c, i) && RecordsOk(c, i);
    SentSlice(c, i, j);
    forall a | a in c.appends && a.req.term == r.term ensures Total(a.req) <= Total(r) && a.stamp < c.clock {
      OneLeader(c, i, a);
    }
    if r.term in c.procs[j].acked {
      assert AckOk(c, j) && AckSent(c, j, r.term);
    }
  }

  lemma AnswerKeepsOrder(c: Cluster, i: nat, m: AppendMsg)
    requires |c.procs| >= 2 && OrderInv(c) && Enabled(c, AnswerAppend(i, m), true)
    ensures OrderInv(Apply(c, AnswerAppend(i, m)))
  {
    hide LengthInv, NotShorter, Rising, KeepsAcked, AfterAppend;
    var e := AnswerAppend(i, m);
    OrderedPasses(c, e);
    GuardExact(c, e);
    AnswerKeepsFromOrder(c, Apply(c, e), i, m);
  }

  lemma AnswerKeepsFromOrder(c: Cluster, d: Cluster, i: nat, m: AppendMsg)
    requires OrderInv(c) && LengthInv(d) && i < |c.procs| && m in c.appends && m.to == i
    requires m.stamp >= Seen(c.procs[i], m.req.term)
    requires d.procs == c.procs[i := AfterAppend(c.procs[i], m)] && d.appends == c.appends
    ensures OrderInv(d)
  {
    hide LengthInv, AfterAppend, NotShorter;
    LengthGives(c);
    assert NotShorter(c, m);
    AnsweredSeen(c, i, m);
    forall a | a in d.appends ensures a.to < |d.procs| && NotShorter(d, a) {
      assert NotShorter(c, a) && Rising(m, a);
      ReceiverNotShorter(c, d, i, m, a);
    }
  }

  lemma ReceiverNotShorter(c: Cluster, d: Cluster, i: nat, m: AppendMsg, a: AppendMsg)
    requires i < |c.procs| && |c.procs| == |d.procs| && a.to < |c.procs| && m.to == i
    requires forall v | 0 <= v < |c.procs| && v != i :: d.procs[v] == c.procs[v]
    requires NotShorter(c, a) && Rising(m, a) && m.stamp >= Seen(c.procs[i], m.req.term)
    requires var p, q, t := c.procs[i], d.procs[i], m.req.term;
      || q == p
      || (q.acked == p.acked && q.seen == p.seen[t := m.stamp])
      || (q.acked == p.acked[t := Total(m.req)] && q.seen == p.seen[t := m.stamp])
    ensures NotShorter(d, a)
  {
  }

  /** What answering an append does to a server's acknowledgements and stamps. */
  lemma AnsweredSeen(c: Cluster, i: nat, m: AppendMsg)
    requires ReplicationInv(c) && i < |c.procs| && m in c.appends && m.to == i && NotShorter(c, m)
    requires m.stamp >= Seen(c.procs[i], m.req.term)
    ensures var p, q, t := c.procs[i], AfterAppend(c.procs[i], m), m.req.term;
      || q == p
      || (q.acked == p.acked && q.seen == p.seen[t := m.stamp])
      || (q.acked == p.acked[t := Total(m.req)] && q.seen == p.seen[t := m.stamp])
  {
    hide RecordsOk, CampaignOk, HandleAppend, WireAll;
    assert ProcOk(c, i) && AppendOk(c, m);
    StaleAppend(c.procs[i], m);
    if m.req.term >= c.procs[i].node.term {
      AppendNode(c.procs[i].node, m.req);
    }
  }

  lemma StepKeepsOrder(c: Cluster, e: Event)
    requires |c.procs| >= 2 && OrderInv(c) && Enabled(c, e, true)
    ensures Enabled(c, e, false) && KeepsAcked(c, e) && OrderInv(Apply(c, e))
  {
    hide OrderInv, Apply, KeepsAcked;
    OrderedPasses(c, e);
    match e
    case SendAppend(i, j) => SendKeepsOrder(c, i, j);
    case AnswerAppend(i, m) => AnswerKeepsOrder(c, i, m);
    case _ => QuietKeepsOrder(c, e);
  }

  lemma {:induction false} OrderedRun(c: Cluster, events: seq<Event>)
    requires |c.procs| >= 2 && OrderInv(c) && Run(c, events, true).Some?
    ensures KeepingRun(c, events) && Run(c, events, false) == Run(c, events, true)
    ensures OrderInv(Run(c, events, true).value)
    decreases |events|
  {
    hide OrderInv, KeepsAcked, Apply;
    if events != [] {
      StepKeepsOrder(c, events[0]);
      StepLocal(c, events[0]);
      OrderedRun(Apply(c, events[0]), events[1..]);
    }
  }

  lemma InitOrder(n: nat)
    ensures OrderInv(Init(n))
  {
    InitSafe(n);
  }

  lemma ReachedOrder(c: Cluster, n: nat)
    requires Reachable(c, n, true)
    ensures OrderInv(c)
  {
    hide OrderInv, KeepingRun, Run;
    var events :| Run(Init(n), events, true) == Some(c);
    InitOrder(n);
    OrderedRun(Init(n), events);
  }

  /** Every state reached in order is reached by a run whose writes pass the test. */
  lemma OrderedKeeps(c: Cluster, n: nat)
    requires Reachable(c, n, true)
    ensures ReachableKeeping(c, n)
  {
    hide OrderInv, KeepingRun, Run;
    var events :| Run(Init(n), events, true) == Some(c);
    InitOrder(n);
    OrderedRun(Init(n), events);
  }

  // ----- what this gives, in order

  /** Leader completeness for appends in order. */
  lemma LeaderCompletenessInOrder(c: Cluster, n: nat, k: Commit, w: Win)
    requires Reachable(c, n, true) && k in c.commits && w in c.wins && w.term > k.term
    ensures Leads(c, w.leader, w.term) && |c.procs[w.leader].led[w.term].start| > k.index
  {
    OrderedKeeps(c, n);
    LeaderCompleteness(c, n, k, w);
  }

  /** Durability for appends in order. */
  lemma CommittedLengthStaysInOrder(c: Cluster, n: nat, k: Commit, v: nat)
    requires Reachable(c, n, true) && k in c.commits && v in k.holders
    ensures v < n && |c.procs| == n && |c.procs[v].node.log| > k.index
  {
    OrderedKeeps(c, n);
    CommittedLengthStays(c, n, k, v);
  }
}
