/** What append requests, acknowledgements and commits mean over every run, with no assumption on the network. */
module Replication {
  import opened Prelude
  import opened Quorums
  import opened RaftNode
  import opened CommitIndex
  import opened Cluster
  import opened Elections

  /** What leader `i` records about follower `j`. */
  ghost predicate PeerOk(c: Cluster, i: nat, j: nat)
    requires i < |c.procs| && j < |c.procs|
    requires WellFormed(c.procs[i].node, |c.procs|) && c.procs[i].node.leader.Some?
    requires c.procs[i].node.term in c.procs[i].led
  {
    var n := c.procs[i].node;
    var ls := n.leader.value;
    && 1 <= ls.nextIndex[j] <= |n.log|
    && ls.matchIndex[j] < |n.log|
    && (ls.matchIndex[j] == 0
        || (n.term in c.procs[j].acked && c.procs[j].acked[n.term] > ls.matchIndex[j]))
    && (ls.nextIndex[j] <= |c.procs[i].led[n.term].start| || n.term in c.procs[j].acked)
  }

  ghost predicate LeaderOk(c: Cluster, i: nat)
    requires i < |c.procs| && ProcOk(c, i)
  {
    var n := c.procs[i].node;
    n.leader.Some? ==>
      && n.leader.value.matchIndex[i] == MAX_INDEX
      && forall j | 0 <= j < |c.procs| && j != i :: PeerOk(c, i, j)
  }

  /** A request of the round in progress. */
  ghost predicate SentOk(c: Cluster, i: nat, j: nat)
    requires i < |c.procs| && ProcOk(c, i) && c.procs[i].mode.Broadcasting? && j in c.procs[i].mode.sent
  {
    var n := c.procs[i].node;
    var m := c.procs[i].mode.sent[j];
    && j < |c.procs| && j != i
    && m in c.appends && m.to == j
    && m.req.term == n.term && Total(m.req) == |n.log|
    && (j !in c.procs[i].mode.heard ==> m.req.prevLogIndex + 1 == n.leader.value.nextIndex[j])
  }

  ghost predicate EpochOk(c: Cluster, i: nat)
    requires i < |c.procs|
  {
    var p := c.procs[i];
    && (p.epoch == 0 ==> p.node.log == [SENTINEL])
    && (p.epoch > 0 ==>
          && Leads(c, p.source, p.epoch)
          && p.epoch <= p.node.term)
    && (forall t | t in p.acked :: 0 < t <= p.epoch)
    && (p.node.term in p.led ==> p.epoch == p.node.term && p.source == i)
    && (forall t | t in p.led :: 0 < t && p.led[t].start <= p.led[t].log && WireAll(p.led[t].log) == p.led[t].log)
  }

  ghost predicate RecordsOk(c: Cluster, i: nat)
    requires i < |c.procs| && ProcOk(c, i)
  {
    && LeaderOk(c, i)
    && EpochOk(c, i)
    && (c.procs[i].mode.Campaigning? ==> c.procs[i].node.term > 0)
    && (c.procs[i].mode.Broadcasting? ==> forall j | j in c.procs[i].mode.sent :: SentOk(c, i, j))
  }

  /** A request carries the slice of its leader's log after prevLogIndex, up to the end it then had, and
      starts inside the log of the election unless its receiver has already acknowledged this leader. */
  ghost predicate SliceOk(c: Cluster, m: AppendMsg)
    requires AppendOk(c, m)
  {
    var era := c.procs[m.req.leader].led[m.req.term];
    && |era.start| <= Total(m.req) <= |era.log|
    && m.req.entries == era.log[m.req.prevLogIndex + 1..Total(m.req)]
    && (m.req.prevLogIndex < |era.start| || m.req.term in c.procs[m.to].acked)
    && m.stamp < c.clock
  }

  ghost predicate AppendAnswerOk(c: Cluster, a: AppendAnswer) {
    && a.msg in c.appends && a.msg.to < |c.procs|
    && (a.reply.success ==>
          && a.reply.term == a.msg.req.term
          && a.msg.req.term in c.procs[a.msg.to].acked
          && c.procs[a.msg.to].acked[a.msg.req.term] >= Total(a.msg.req))
    && (!a.reply.success ==> a.reply.term > a.msg.req.term || a.msg.req.prevLogIndex > 0)
  }

  /** `v` has held, in term `t`, a log with more than `index` entries that it acknowledged or led. */
  ghost predicate Holds(c: Cluster, v: nat, t: nat, index: nat) {
    && v < |c.procs|
    && (|| (t in c.procs[v].acked && c.procs[v].acked[t] > index)
        || (t in c.procs[v].led && |c.procs[v].led[t].log| > index))
  }

  ghost predicate CommitOk(c: Cluster, k: Commit) {
    && k.index > 0
    && Majority(k.holders, |c.procs|)
    && k.leader in k.holders && Leads(c, k.leader, k.term)
    && forall v | v in k.holders :: Holds(c, v, k.term, k.index)
  }

  ghost predicate ReplicationInv(c: Cluster) {
    && ElectionInv(c)
    && (forall i | 0 <= i < |c.procs| :: RecordsOk(c, i))
    && (forall m | m in c.appends :: SliceOk(c, m))
    && (forall a | a in c.appendAnswers :: AppendAnswerOk(c, a))
    && (forall k | k in c.commits :: CommitOk(c, k))
  }

  // ----- frames

  lemma HoldsStays(c: Cluster, d: Cluster, v: nat, t: nat, index: nat)
    requires Grows(c, d) && Holds(c, v, t, index)
    ensures Holds(d, v, t, index)
  {
    assert ProcGrows(c.procs[v], d.procs[v]);
  }

  lemma EpochStays(c: Cluster, d: Cluster, i: nat)
    requires i < |c.procs| && Grows(c, d) && EpochOk(c, i) && d.procs[i] == c.procs[i]
    ensures EpochOk(d, i)
  {
    var p := c.procs[i];
    if p.epoch > 0 {
      assert ProcGrows(c.procs[p.source], d.procs[p.source]);
    }
  }

  lemma PeersStay(c: Cluster, d: Cluster, i: nat)
    requires i < |c.procs| && Grows(c, d) && ProcOk(c, i) && ProcOk(d, i) && LeaderOk(c, i)
    requires d.procs[i] == c.procs[i]
    ensures LeaderOk(d, i)
  {
    if c.procs[i].node.leader.Some? {
      forall j | 0 <= j < |d.procs| && j != i ensures PeerOk(d, i, j) {
        assert PeerOk(c, i, j);
        assert ProcGrows(c.procs[j], d.procs[j]);
      }
    }
  }

  lemma RecordsStay(c: Cluster, d: Cluster, i: nat)
    requires i < |c.procs| && Grows(c, d) && ProcOk(c, i) && ProcOk(d, i) && RecordsOk(c, i)
    requires d.procs[i] == c.procs[i]
    ensures RecordsOk(d, i)
  {
    PeersStay(c, d, i);
    EpochStays(c, d, i);
    if d.procs[i].mode.Broadcasting? {
      forall j | j in d.procs[i].mode.sent ensures SentOk(d, i, j) {
        assert SentOk(c, i, j);
      }
    }
  }

  lemma SliceStays(c: Cluster, d: Cluster, m: AppendMsg)
    requires Grows(c, d) && AppendOk(c, m) && AppendOk(d, m) && SliceOk(c, m)
    ensures SliceOk(d, m)
  {
    assert ProcGrows(c.procs[m.req.leader], d.procs[m.req.leader]);
    assert ProcGrows(c.procs[m.to], d.procs[m.to]);
  }

  lemma AnswerStays(c: Cluster, d: Cluster, a: AppendAnswer)
    requires Grows(c, d) && AppendAnswerOk(c, a)
    ensures AppendAnswerOk(d, a)
  {
    assert ProcGrows(c.procs[a.msg.to], d.procs[a.msg.to]);
  }

  lemma CommitStays(c: Cluster, d: Cluster, k: Commit)
    requires Grows(c, d) && CommitOk(c, k)
    ensures CommitOk(d, k)
  {
    assert ProcGrows(c.procs[k.leader], d.procs[k.leader]);
    forall v | v in k.holders ensures Holds(d, v, k.term, k.index) {
      HoldsStays(c, d, v, k.term, k.index);
    }
  }

  lemma FrameReplication(c: Cluster, d: Cluster, k: nat)
    requires ReplicationInv(c) && ElectionInv(d) && Grows(c, d) && k < |c.procs|
    requires forall i | 0 <= i < |c.procs| && i != k :: d.procs[i] == c.procs[i]
    requires RecordsOk(d, k)
    requires forall m | m in d.appends - c.appends :: SliceOk(d, m)
    requires forall a | a in d.appendAnswers - c.appendAnswers :: AppendAnswerOk(d, a)
    requires forall x | x in d.commits - c.commits :: CommitOk(d, x)
    ensures ReplicationInv(d)
  {
    forall i | 0 <= i < |d.procs| ensures RecordsOk(d, i) {
      if i != k {
        RecordsStay(c, d, i);
      }
    }
    forall m | m in d.appends ensures SliceOk(d, m) {
      if m in c.appends {
        SliceStays(c, d, m);
      }
    }
    forall a | a in d.appendAnswers ensures AppendAnswerOk(d, a) {
      if a in c.appendAnswers {
        AnswerStays(c, d, a);
      }
    }
    forall x | x in d.commits ensures CommitOk(d, x) {
      if x in c.commits {
        CommitStays(c, d, x);
      }
    }
  }

  // ----- every event keeps the invariant

  lemma WireTwice(s: seq<Entry>)
    ensures WireAll(WireAll(s)) == WireAll(s)
    ensures WireAll([SENTINEL]) == [SENTINEL]
  {
  }

  ghost predicate NodeOnly(p: Proc, q: Proc) {
    && q.acked == p.acked && q.led == p.led && q.epoch == p.epoch && q.source == p.source && q.base == p.base
    && (q.node.log == p.node.log || (q.node.log == WireAll(p.node.log) && q.node.leader.None?))
    && (q.node.leader == p.node.leader || q.node.leader.None?)
    && (q.node.leader.Some? ==> q.node.term == p.node.term)
    && (q.mode.Broadcasting? ==> q.mode.sent == map[])
    && (q.mode.Campaigning? ==> q.node.term > 0)
  }

  /** Events that touch neither the log nor the leader's bookkeeping nor the network's appends. */
  lemma NodeOnlyKeeps(c: Cluster, d: Cluster, k: nat)
    requires ReplicationInv(c) && ElectionInv(d) && Grows(c, d) && k < |c.procs|
    requires forall i | 0 <= i < |c.procs| && i != k :: d.procs[i] == c.procs[i]
    requires d.appends == c.appends && d.appendAnswers == c.appendAnswers && d.commits == c.commits
    requires NodeOnly(c.procs[k], d.procs[k])
    ensures ReplicationInv(d)
  {
    assert ProcOk(c, k) && RecordsOk(c, k) && ProcOk(d, k);
    WireTwice(c.procs[k].node.log);
    NodeOnlyEpoch(c, d, k);
    if d.procs[k].node.leader.Some? {
      forall j | 0 <= j < |d.procs| && j != k ensures PeerOk(d, k, j) {
        assert PeerOk(c, k, j);
        assert ProcGrows(c.procs[j], d.procs[j]);
      }
    }
    FrameReplication(c, d, k);
  }

  lemma NodeOnlyEpoch(c: Cluster, d: Cluster, k: nat)
    requires k < |c.procs| && Grows(c, d) && ProcOk(c, k) && EpochOk(c, k)
    requires var p, q := c.procs[k], d.procs[k];
      && q.acked == p.acked && q.led == p.led && q.epoch == p.epoch && q.source == p.source && q.base == p.base
      && (q.node.log == p.node.log || q.node.log == WireAll(p.node.log))
    ensures EpochOk(d, k)
  {
    var p := c.procs[k];
    WireTwice(p.node.log);
    if p.epoch > 0 {
      assert ProcGrows(c.procs[p.source], d.procs[p.source]);
    }
  }

  lemma SimpleShape(c: Cluster, e: Event)
    requires Enabled(c, e, false)
    requires c.procs[e.i].mode.Campaigning? ==> c.procs[e.i].node.term > 0
    requires
      || e.Crash? || e.BeginCampaign? || e.AnswerVote? || e.GiveUp? || e.BeginBroadcast? || e.EndBroadcast?
      || (e.CountVote? && !VerdictOf(c.procs[e.i], e.vote, |c.procs|).Won? && c.procs[e.i].node.leader.None?)
    ensures var d := Apply(c, e);
      && d.appends == c.appends && d.appendAnswers == c.appendAnswers && d.commits == c.commits
      && NodeOnly(c.procs[e.i], d.procs[e.i])
  {
    hide WireAll, HandleAppend, AfterAppend, AfterCrashInAppend, PrepareAppend, AfterWin, AfterClient, Judge,
         AfterVote, NodeOnly, HandleVote;
    match e
    case AnswerVote(i, q) => VoteNodeOnly(c.procs[i], q);
    case CountVote(i, a) => CountNodeOnly(c, i, a);
    case _ => IdleNodeOnly(c, e);
  }

  lemma IdleNodeOnly(c: Cluster, e: Event)
    requires Enabled(c, e, false)
    requires e.Crash? || e.BeginCampaign? || e.GiveUp? || e.BeginBroadcast? || e.EndBroadcast?
    ensures NodeOnly(c.procs[e.i], Apply(c, e).procs[e.i])
  {
    hide WireAll, HandleAppend, AfterAppend, AfterCrashInAppend, PrepareAppend, AfterWin, AfterClient, Judge, AfterVote;
  }

  lemma VoteNodeOnly(p: Proc, q: VoteRequest)
    requires |p.node.log| > 0 && p.mode.Idle?
    ensures NodeOnly(p, AfterVote(p, q))
  {
    hide WireAll;
  }

  lemma CountNodeOnly(c: Cluster, i: nat, a: VoteAnswer)
    requires Enabled(c, CountVote(i, a), false) && !VerdictOf(c.procs[i], a, |c.procs|).Won?
    requires c.procs[i].node.term > 0 && c.procs[i].node.leader.None?
    ensures NodeOnly(c.procs[i], Apply(c, CountVote(i, a)).procs[i])
  {
    hide Apply, WireAll;
    CountCases(c, i, a);
  }

  lemma SimpleKeeps(c: Cluster, e: Event)
    requires ReplicationInv(c) && Enabled(c, e, false)
    requires
      || e.Crash? || e.BeginCampaign? || e.AnswerVote? || e.GiveUp? || e.BeginBroadcast? || e.EndBroadcast?
      || (e.CountVote? && !VerdictOf(c.procs[e.i], e.vote, |c.procs|).Won?)
    ensures ReplicationInv(Apply(c, e))
  {
    assert ProcOk(c, e.i) && RecordsOk(c, e.i);
    SimpleShape(c, e);
    StepLocal(c, e);
    StepGrows(c, e);
    StepKeepsElections(c, e);
    NodeOnlyKeeps(c, Apply(c, e), e.i);
  }

  lemma WinKeepsReplication(c: Cluster, i: nat, a: VoteAnswer)
    requires ReplicationInv(c) && Enabled(c, CountVote(i, a), false)
    requires VerdictOf(c.procs[i], a, |c.procs|).Won?
    ensures ReplicationInv(Apply(c, CountVote(i, a)))
  {
    var e := CountVote(i, a);
    StepGrows(c, e);
    StepKeepsElections(c, e);
    WinKeepsFromReplication(c, Apply(c, e), i, Win(c.procs[i].node.term, i, Granted(c.procs[i], a)));
  }

  lemma WinKeepsFromReplication(c: Cluster, d: Cluster, i: nat, w: Win)
    requires ReplicationInv(c) && ElectionInv(d) && Grows(c, d) && i < |c.procs| && |c.procs[i].node.log| > 0
    requires c.procs[i].mode.Campaigning?
    requires d == c.(procs := c.procs[i := AfterWin(c.procs[i], i, |c.procs|)], wins := c.wins + {w})
    ensures ReplicationInv(d)
  {
    hide ProcOk, RecordsOk, ProcGrows, EpochOk, LeaderOk, SentOk, CampaignOk, BecomeLeader, WireAll;
    assert ProcOk(c, i) && RecordsOk(c, i) && ProcOk(d, i);
    WinnerRecords(c, d, i);
    FrameReplication(c, d, i);
  }

  lemma WinnerRecords(c: Cluster, d: Cluster, i: nat)
    requires i < |c.procs| && |c.procs| == |d.procs| && ProcOk(c, i) && RecordsOk(c, i) && ProcOk(d, i)
    requires c.procs[i].mode.Campaigning?
    requires d.procs[i] == AfterWin(c.procs[i], i, |c.procs|)
    ensures RecordsOk(d, i)
  {
    forall j | 0 <= j < |d.procs| && j != i ensures PeerOk(d, i, j) {
    }
  }

  lemma ClientKeepsReplication(c: Cluster, e: Event)
    requires ReplicationInv(c) && Enabled(c, e, false) && e.ClientRequest?
    ensures ReplicationInv(Apply(c, e))
  {
    StepGrows(c, e);
    StepKeepsElections(c, e);
    ClientKeepsFromReplication(c, Apply(c, e), e);
  }

  lemma ClientKeepsFromReplication(c: Cluster, d: Cluster, e: Event)
    requires ReplicationInv(c) && ElectionInv(d) && Grows(c, d) && e.ClientRequest? && e.i < |c.procs|
    requires c.procs[e.i].node.leader.Some? && c.procs[e.i].mode.Idle?
    requires d == c.(procs := c.procs[e.i := AfterClient(c.procs[e.i], e.op, e.key, e.value, e.prevValue)])
    ensures ReplicationInv(d)
  {
    hide ProcGrows, AfterClient, LeaderOk, SentOk, EpochOk, ProcOk, WireAll;
    assert ProcOk(c, e.i) && RecordsOk(c, e.i) && ProcOk(d, e.i);
    ClientOk(c, d, e);
    FrameReplication(c, d, e.i);
  }

  lemma ClientOk(c: Cluster, d: Cluster, e: Event)
    requires e.ClientRequest? && e.i < |c.procs| && Grows(c, d)
    requires ProcOk(c, e.i) && RecordsOk(c, e.i) && ProcOk(d, e.i)
    requires c.procs[e.i].node.leader.Some? && c.procs[e.i].mode.Idle?
    requires d == c.(procs := c.procs[e.i := AfterClient(c.procs[e.i], e.op, e.key, e.value, e.prevValue)])
    ensures RecordsOk(d, e.i)
  {
    var i := e.i;
    forall j | 0 <= j < |d.procs| && j != i ensures PeerOk(d, i, j) {
      assert PeerOk(c, i, j);
    }
    assert EpochOk(d, i) by {
      assert ProcGrows(c.procs[i], d.procs[i]);
    }
  }

  lemma SendAppendKeepsReplication(c: Cluster, i: nat, j: nat)
    requires ReplicationInv(c) && Enabled(c, SendAppend(i, j), false)
    ensures ReplicationInv(Apply(c, SendAppend(i, j)))
  {
    hide RecordsOk, CampaignOk, ProcGrows, PrepareAppend, HandleAppend, AfterAppend, AfterCrashInAppend, SliceOk;
    var e := SendAppend(i, j);
    assert ProcOk(c, i);
    StepGrows(c, e);
    StepKeepsElections(c, e);
    SendKeepsFromReplication(c, Apply(c, e), i, j, AppendMsg(j, c.clock, PrepareAppend(c.procs[i].node, i, j)));
  }

  lemma SendKeepsFromReplication(c: Cluster, d: Cluster, i: nat, j: nat, m: AppendMsg)
    requires ReplicationInv(c) && ElectionInv(d) && Grows(c, d) && i < |c.procs| && j < |c.procs| && j != i
    requires ProcOk(c, i) && c.procs[i].mode.Broadcasting?
    requires m == AppendMsg(j, c.clock, PrepareAppend(c.procs[i].node, i, j))
    requires d == c.(
      procs := c.procs[i := c.procs[i].(mode := c.procs[i].mode.(sent := c.procs[i].mode.sent[j := m]))],
      appends := c.appends + {m}, clock := c.clock + 1)
    ensures ReplicationInv(d)
  {
    hide CampaignOk, EpochOk, LeaderOk, SentOk, PeerOk, ProcGrows, PrepareAppend, WireAll, CommitOk;
    assert RecordsOk(c, i) && ProcOk(d, i) && AppendOk(d, m);
    SentSlice(c, i, j);
    assert SliceOk(d, m) by {
      assert d.procs[i].led == c.procs[i].led && d.procs[j].acked == c.procs[j].acked;
    }
    SenderOk(c, d, i, j, m);
    FrameReplication(c, d, i);
  }

  /** The request leaderHB builds is the rest of the leader's log after the follower's next index. */
  lemma SentSlice(c: Cluster, i: nat, j: nat)
    requires i < |c.procs| && j < |c.procs| && j != i && ProcOk(c, i) && RecordsOk(c, i)
    requires c.procs[i].node.leader.Some?
    ensures var n := c.procs[i].node; var r := PrepareAppend(n, i, j); var era := c.procs[i].led[n.term];
      && r.term == n.term && r.leader == i
      && r.prevLogIndex + 1 == n.leader.value.nextIndex[j]
      && Total(r) == |n.log| == |era.log| && |era.start| <= |era.log|
      && r.entries == era.log[r.prevLogIndex + 1..]
      && (r.prevLogIndex < |era.start| || n.term in c.procs[j].acked)
  {
    assert PeerOk(c, i, j);
    var n := c.procs[i].node;
    var r := PrepareAppend(n, i, j);
    assert WireAll(n.log[r.prevLogIndex + 1..]) == WireAll(n.log)[r.prevLogIndex + 1..];
  }

  lemma SenderOk(c: Cluster, d: Cluster, i: nat, j: nat, m: AppendMsg)
    requires i < |c.procs| && j < |c.procs| && j != i && Grows(c, d)
    requires ProcOk(c, i) && RecordsOk(c, i) && ProcOk(d, i) && c.procs[i].mode.Broadcasting?
    requires m in d.appends && m.to == j && m.req.term == c.procs[i].node.term
    requires Total(m.req) == |c.procs[i].node.log|
    requires m.req.prevLogIndex + 1 == c.procs[i].node.leader.value.nextIndex[j]
    requires d.procs[i] == c.procs[i].(mode := c.procs[i].mode.(sent := c.procs[i].mode.sent[j := m]))
    ensures RecordsOk(d, i)
  {
    forall k | 0 <= k < |d.procs| && k != i ensures PeerOk(d, i, k) {
      assert PeerOk(c, i, k);
      assert ProcGrows(c.procs[k], d.procs[k]);
    }
    assert EpochOk(d, i) by {
      NodeOnlyEpoch(c, d, i);
    }
    forall k | k in d.procs[i].mode.sent ensures SentOk(d, i, k) {
      if k != j {
        assert SentOk(c, i, k);
      }
    }
  }

  lemma CountAppendKeepsReplication(c: Cluster, i: nat, a: AppendAnswer)
    requires ReplicationInv(c) && Enabled(c, CountAppend(i, a), false)
    ensures ReplicationInv(Apply(c, CountAppend(i, a)))
  {
    var e := CountAppend(i, a);
    StepGrows(c, e);
    StepKeepsElections(c, e);
    CountKeepsFromReplication(c, Apply(c, e), i, a);
  }

  lemma CountKeepsFromReplication(c: Cluster, d: Cluster, i: nat, a: AppendAnswer)
    requires ReplicationInv(c) && ElectionInv(d) && Grows(c, d) && Enabled(c, CountAppend(i, a), false)
    requires d == c.(procs := c.procs[i := c.procs[i].(
      node := HandleAppendReply(c.procs[i].node, a.msg.to, a.reply),
      mode := c.procs[i].mode.(heard := c.procs[i].mode.heard + {a.msg.to}))])
    ensures ReplicationInv(d)
  {
    hide ProcOk, RecordsOk, EpochOk, LeaderOk, SentOk, PeerOk, ProcGrows, HandleAppendReply, CampaignOk;
    assert ProcOk(c, i) && RecordsOk(c, i) && ProcOk(d, i);
    CounterOk(c, d, i, a);
    FrameReplication(c, d, i);
  }

  lemma CounterOk(c: Cluster, d: Cluster, i: nat, a: AppendAnswer)
    requires i < |c.procs| && Grows(c, d) && ProcOk(c, i) && RecordsOk(c, i) && ProcOk(d, i)
    requires Enabled(c, CountAppend(i, a), false) && AppendAnswerOk(c, a)
    requires forall k | 0 <= k < |c.procs| && k != i :: d.procs[k] == c.procs[k]
    requires d.procs[i] == c.procs[i].(
      node := HandleAppendReply(c.procs[i].node, a.msg.to, a.reply),
      mode := c.procs[i].mode.(heard := c.procs[i].mode.heard + {a.msg.to}))
    ensures RecordsOk(d, i)
  {
    var j := a.msg.to;
    assert SentOk(c, i, j);
    forall k | 0 <= k < |d.procs| && k != i ensures PeerOk(d, i, k) {
      assert PeerOk(c, i, k);
      assert d.procs[k] == c.procs[k];
    }
    NodeOnlyEpoch(c, d, i);
    forall k | k in d.procs[i].mode.sent ensures SentOk(d, i, k) {
      assert SentOk(c, i, k);
    }
  }

  lemma CommitRoundKeepsReplication(c: Cluster, i: nat, index: nat)
    requires |c.procs| >= 2 && ReplicationInv(c) && Enabled(c, CommitRound(i, index), false)
    ensures ReplicationInv(Apply(c, CommitRound(i, index)))
  {
    hide ProcOk, RecordsOk, Grows, SliceOk, AppendAnswerOk, AdvanceCommit, AfterAppend, PrepareAppend, PeerOk,
         Reaching, IsCommitIndex;
    var e := CommitRound(i, index);
    var d := Apply(c, e);
    StepGrows(c, e);
    StepKeepsElections(c, e);
    var n := c.procs[i].node;
    var k := Commit(n.term, index, i, Reaching(n.leader.value.matchIndex, index) + {i});
    assert ProcOk(c, i) && RecordsOk(c, i);
    if n.commitIndex < index {
      NewCommit(c, i, index);
      CommitStays(c, d, k);
    }
    CommitKeepsFromReplication(c, d, i, index, k);
  }

  lemma CommitKeepsFromReplication(c: Cluster, d: Cluster, i: nat, index: nat, k: Commit)
    requires ReplicationInv(c) && ElectionInv(d) && Grows(c, d) && i < |c.procs| && ProcOk(c, i) && c.procs[i].mode.Broadcasting?
    requires d.commits <= c.commits + {k} && (k in d.commits ==> CommitOk(d, k))
    requires d.appends == c.appends && d.appendAnswers == c.appendAnswers
    requires d.procs == c.procs[i := c.procs[i].(node := AdvanceCommit(c.procs[i].node, index),
                                                 mode := c.procs[i].mode.(counted := true))]
    ensures ReplicationInv(d)
  {
    hide CampaignOk, WinOk, SliceOk, AppendAnswerOk, CommitOk, WireAll, ProcGrows;
    assert RecordsOk(c, i) && ProcOk(d, i);
    forall k | 0 <= k < |d.procs| && k != i ensures PeerOk(d, i, k) {
      assert PeerOk(c, i, k);
    }
    NodeOnlyEpoch(c, d, i);
    forall k | k in d.procs[i].mode.sent ensures SentOk(d, i, k) {
      assert SentOk(c, i, k);
    }
    FrameReplication(c, d, i);
  }

  /** Quorum commit: the index the commit rule yields is held by a strict majority that includes the leader. */
  lemma NewCommit(c: Cluster, i: nat, index: nat)
    requires i < |c.procs| && |c.procs| >= 2 && ProcOk(c, i) && RecordsOk(c, i) && c.procs[i].node.leader.Some?
    requires IsCommitIndex(c.procs[i].node.leader.value.matchIndex, index) && index > 0
    ensures CommitOk(c, Commit(c.procs[i].node.term, index, i, Reaching(c.procs[i].node.leader.value.matchIndex, index) + {i}))
    ensures index < |c.procs[i].node.log|
  {
    var n := c.procs[i].node;
    var m := n.leader.value.matchIndex;
    var f := CommitIndexHasFollower(m, i, index);
    assert PeerOk(c, i, f);
    var holders := Reaching(m, index) + {i};
    SubsetSize(Reaching(m, index), holders);
    forall v | v in holders ensures Holds(c, v, n.term, index) {
      if v != i {
        assert PeerOk(c, i, v);
      }
    }
  }

  /** A follower's new log after a successful append is, up to channels, its kept part and the leader's slice. */
  lemma Spliced(log: seq<Entry>, era: seq<Entry>, r: AppendRequest)
    requires r.prevLogIndex < |log| && Total(r) <= |era|
    requires r.entries == era[r.prevLogIndex + 1..Total(r)]
    requires WireAll(era) == era
    requires WireAll(log)[..r.prevLogIndex + 1] == era[..r.prevLogIndex + 1]
    ensures WireAll(log[..r.prevLogIndex + 1] + r.entries) == era[..Total(r)]
  {
    var k := r.prevLogIndex + 1;
    var w := WireAll(log[..k] + r.entries);
    forall x | 0 <= x < Total(r) ensures w[x] == era[x] {
      if x < k {
        assert w[x] == WireAll(log)[..k][x] == era[..k][x];
      } else {
        assert r.entries[x - k] == era[x] == WireAll(era)[x];
      }
    }
  }

  /** The exact condition under which an append makes the follower's log the leader's: the kept part must
      already agree. The code only compares the terms of the last kept entry, and those are all zero. */
  lemma AppendFaithfulIff(n: Node, r: AppendRequest, era: seq<Entry>)
    requires |n.log| > 0 && n.log[0] == SENTINEL && ZeroTerms(n.log) && ZeroTerms(r.entries) && r.prevLogTerm == 0
    requires r.term >= n.term && r.prevLogIndex < |n.log| && Total(r) <= |era| && WireAll(era) == era
    requires r.entries == era[r.prevLogIndex + 1..Total(r)]
    ensures WireAll(HandleAppend(n, r).0.log) == era[..Total(r)]
      <==> WireAll(n.log)[..r.prevLogIndex + 1] == era[..r.prevLogIndex + 1]
  {
    AppendNode(n, r);
    var k := r.prevLogIndex + 1;
    var w := WireAll(HandleAppend(n, r).0.log);
    if WireAll(n.log)[..k] == era[..k] {
      Spliced(n.log, era, r);
    }
    if w == era[..Total(r)] {
      forall x | 0 <= x < k ensures WireAll(n.log)[..k][x] == era[..k][x] {
        assert w[x] == era[..Total(r)][x];
      }
    }
  }

  lemma AnswerAppendKeepsReplication(c: Cluster, i: nat, m: AppendMsg)
    requires ReplicationInv(c) && Enabled(c, AnswerAppend(i, m), false)
    ensures ReplicationInv(Apply(c, AnswerAppend(i, m)))
  {
    var e := AnswerAppend(i, m);
    StepGrows(c, e);
    StepKeepsElections(c, e);
    AppendKeepsFromReplication(c, Apply(c, e), i, m);
  }

  lemma AppendKeepsFromReplication(c: Cluster, d: Cluster, i: nat, m: AppendMsg)
    requires ReplicationInv(c) && ElectionInv(d) && Grows(c, d) && i < |c.procs| && m in c.appends && m.to == i
    requires c.procs[i].mode.Idle?
    requires d == c.(procs := c.procs[i := AfterAppend(c.procs[i], m)],
                     appendAnswers := c.appendAnswers + {AppendAnswer(m, HandleAppend(c.procs[i].node, m.req).1)})
    ensures ReplicationInv(d)
  {
    hide ProcOk, RecordsOk, ProcGrows, AfterAppend, HandleAppend, SliceOk, CommitOk;
    assert ProcOk(c, i) && AppendOk(c, m);
    AnswererOk(c, d, i, m);
    AnswerOk(c, d, i, m);
    FrameReplication(c, d, i);
  }

  lemma AnswererOk(c: Cluster, d: Cluster, i: nat, m: AppendMsg)
    requires ReplicationInv(c) && Grows(c, d) && i < |c.procs| && m in c.appends && m.to == i
    requires c.procs[i].mode.Idle? && ProcOk(d, i)
    requires d.procs == c.procs[i := AfterAppend(c.procs[i], m)]
    ensures RecordsOk(d, i)
  {
    hide CampaignOk, LeaderOk, SentOk, EpochOk, WireAll, HandleAppend, ProcGrows;
    assert ProcOk(c, i) && RecordsOk(c, i) && AppendOk(c, m);
    if m.req.term < c.procs[i].node.term {
      StaleAppend(c.procs[i], m);
      assert d.procs[i] == c.procs[i];
      RecordsStay(c, d, i);
    } else {
      assert RecordsOk(c, m.req.leader);
      ReceiverOk(c, d, i, m);
      AppendNode(c.procs[i].node, m.req);
      IdleOk(d, i);
    }
  }

  lemma AnswerOk(c: Cluster, d: Cluster, i: nat, m: AppendMsg)
    requires i < |c.procs| && ProcOk(c, i) && AppendOk(c, m) && m.to == i && m in d.appends
    requires |d.procs| == |c.procs| && d.procs[i] == AfterAppend(c.procs[i], m)
    ensures AppendAnswerOk(d, AppendAnswer(m, HandleAppend(c.procs[i].node, m.req).1))
  {
    if m.req.term >= c.procs[i].node.term {
      AppendNode(c.procs[i].node, m.req);
    }
  }

  lemma IdleOk(d: Cluster, i: nat)
    requires i < |d.procs| && ProcOk(d, i) && EpochOk(d, i)
    requires d.procs[i].node.leader.None? && d.procs[i].mode.Idle?
    ensures RecordsOk(d, i)
  {
  }

  lemma ReceiverOk(c: Cluster, d: Cluster, i: nat, m: AppendMsg)
    requires ElectionInv(c) && Grows(c, d) && i < |c.procs| && m in c.appends && m.to == i
    requires ProcOk(c, i) && EpochOk(c, i) && AppendOk(c, m) && EpochOk(c, m.req.leader)
    requires m.req.term >= c.procs[i].node.term
    requires d.procs == c.procs[i := AfterAppend(c.procs[i], m)]
    ensures EpochOk(d, i)
  {
    hide ProcGrows, CampaignOk, HandleAppend;
    AppendNode(c.procs[i].node, m.req);
    NotOwnEra(c, i, m);
    if m.req.term == c.procs[i].epoch {
      NonZeroEra(c, m);
      SameSource(c, i, m);
    }
    if HandleAppend(c.procs[i].node, m.req).1.success {
      JoinedEpoch(c, d, i, m);
    } else {
      UntouchedEpoch(c, d, i, m);
    }
  }

  lemma NonZeroEra(c: Cluster, m: AppendMsg)
    requires AppendOk(c, m) && EpochOk(c, m.req.leader)
    ensures m.req.term > 0
  {
  }

  /** A request that does not touch the log, up to channels, may still raise the term. */
  lemma UntouchedEpoch(c: Cluster, d: Cluster, i: nat, m: AppendMsg)
    requires i < |c.procs| && Grows(c, d) && EpochOk(c, i) && m.req.term >= c.procs[i].node.term
    requires m.req.term !in c.procs[i].led
    requires var p, q := c.procs[i], d.procs[i];
      && q.node.term == m.req.term && (q.node.log == p.node.log || q.node.log == WireAll(p.node.log)) && q.led == p.led
      && q.acked == p.acked && q.epoch == p.epoch && q.source == p.source && q.base == p.base
    ensures EpochOk(d, i)
  {
    var p := c.procs[i];
    WireTwice(p.node.log);
    if p.epoch > 0 {
      assert ProcGrows(c.procs[p.source], d.procs[p.source]);
    }
  }

  lemma JoinedEpoch(c: Cluster, d: Cluster, i: nat, m: AppendMsg)
    requires i < |c.procs| && EpochOk(c, i) && AppendOk(c, m) && Grows(c, d)
    requires EpochOk(c, m.req.leader) && m.req.term >= c.procs[i].node.term && m.req.term !in c.procs[i].led
    requires m.req.term == c.procs[i].epoch ==> c.procs[i].source == m.req.leader
    requires var p, q := c.procs[i], d.procs[i];
      && q.node.term == m.req.term && q.led == p.led
      && q.epoch == Joining(p, m.req).epoch && q.source == Joining(p, m.req).source
      && (q.acked == p.acked || q.acked.Keys == p.acked.Keys + {m.req.term})
    ensures EpochOk(d, i)
  {
    assert ProcGrows(c.procs[m.req.leader], d.procs[m.req.leader]);
  }

  /** The leader that last wrote this log is the sender, when they belong to the same term. */
  lemma SameSource(c: Cluster, i: nat, m: AppendMsg)
    requires ElectionInv(c) && i < |c.procs| && m in c.appends && EpochOk(c, i) && c.procs[i].epoch == m.req.term > 0
    ensures c.procs[i].source == m.req.leader
  {
    assert AppendOk(c, m) && ProcOk(c, m.req.leader) && ProcOk(c, c.procs[i].source);
  }

  lemma CrashInAppendKeepsReplication(c: Cluster, e: Event)
    requires ReplicationInv(c) && Enabled(c, e, false) && e.CrashInAppend?
    ensures ReplicationInv(Apply(c, e))
  {
    hide Enabled, Apply;
    StepGrows(c, e);
    StepKeepsElections(c, e);
    CrashInAppendShape(c, e);
    CrashedRecords(c, Apply(c, e), e.i, e.m, e.written);
    FrameReplication(c, Apply(c, e), e.i);
  }

  lemma CrashInAppendShape(c: Cluster, e: Event)
    requires Enabled(c, e, false) && e.CrashInAppend?
    ensures e.i < |c.procs| && e.m in c.appends && e.m.to == e.i && e.m.req.term >= c.procs[e.i].node.term
    ensures e.written.Some? ==> Accepts(c.procs[e.i].node, e.m.req) && e.written.value <= |e.m.req.entries|
    ensures Apply(c, e) == c.(procs := c.procs[e.i := AfterCrashInAppend(c.procs[e.i], e.m, e.written)])
  {
  }

  lemma CrashedRecords(c: Cluster, d: Cluster, i: nat, m: AppendMsg, written: Option<nat>)
    requires ReplicationInv(c) && ElectionInv(d) && Grows(c, d) && i < |c.procs| && m in c.appends && m.to == i
    requires m.req.term >= c.procs[i].node.term
    requires written.Some? ==> Accepts(c.procs[i].node, m.req) && written.value <= |m.req.entries|
    requires d.procs == c.procs[i := AfterCrashInAppend(c.procs[i], m, written)]
    ensures RecordsOk(d, i)
  {
    hide LeaderOk, SentOk, CampaignOk, ProcGrows, ElectionInv;
    ElectionGives(c, d, i, m);
    assert RecordsOk(c, i) && RecordsOk(c, m.req.leader);
    NotOwnEra(c, i, m);
    if m.req.term == c.procs[i].epoch {
      SameSource(c, i, m);
    }
    if written.Some? {
      JoinedEpoch(c, d, i, m);
    } else {
      WireTwice(c.procs[i].node.log);
      UntouchedEpoch(c, d, i, m);
    }
    IdleOk(d, i);
  }

  lemma ElectionGives(c: Cluster, d: Cluster, i: nat, m: AppendMsg)
    requires ElectionInv(c) && ElectionInv(d) && i < |c.procs| == |d.procs| && m in c.appends
    ensures ProcOk(c, i) && ProcOk(d, i) && AppendOk(c, m) && ProcOk(c, m.req.leader)
  {
  }

  lemma StepKeepsReplication(c: Cluster, e: Event)
    requires |c.procs| >= 2 && ReplicationInv(c) && Enabled(c, e, false)
    ensures ReplicationInv(Apply(c, e))
  {
    match e
    case Crash(_) => SimpleKeeps(c, e);
    case BeginCampaign(_) => SimpleKeeps(c, e);
    case AnswerVote(_, _) => SimpleKeeps(c, e);
    case CountVote(i, a) =>
      if VerdictOf(c.procs[i], a, |c.procs|).Won? {
        WinKeepsReplication(c, i, a);
      } else {
        SimpleKeeps(c, e);
      }
    case GiveUp(_) => SimpleKeeps(c, e);
    case ClientRequest(_, _, _, _, _) => ClientKeepsReplication(c, e);
    case BeginBroadcast(_) => SimpleKeeps(c, e);
    case SendAppend(i, j) => SendAppendKeepsReplication(c, i, j);
    case CountAppend(i, a) => CountAppendKeepsReplication(c, i, a);
    case CommitRound(i, index) => CommitRoundKeepsReplication(c, i, index);
    case EndBroadcast(_) => SimpleKeeps(c, e);
    case AnswerAppend(i, m) => AnswerAppendKeepsReplication(c, i, m);
    case CrashInAppend(_, _, _) => CrashInAppendKeepsReplication(c, e);
  }

  lemma {:induction false} RunKeepsReplication(c: Cluster, events: seq<Event>, ordered: bool)
    requires |c.procs| >= 2 && ReplicationInv(c) && Run(c, events, ordered).Some?
    ensures ReplicationInv(Run(c, events, ordered).value) && |Run(c, events, ordered).value.procs| == |c.procs|
    decreases |events|
  {
    if events != [] {
      StepKeepsReplication(c, events[0]);
      StepLocal(c, events[0]);
      RunKeepsReplication(Apply(c, events[0]), events[1..], ordered);
    }
  }

  lemma InitReplication(n: nat)
    ensures ReplicationInv(Init(n))
  {
    WireTwice([]);
  }

  lemma ReachedReplication(c: Cluster, n: nat, ordered: bool)
    requires Reachable(c, n, ordered)
    ensures ReplicationInv(c) && |c.procs| == n
  {
    hide ReplicationInv, Run, Apply;
    var events :| Run(Init(n), events, ordered) == Some(c);
    InitReplication(n);
    RunKeepsReplication(Init(n), events, ordered);
  }

  // ----- what this gives, over every run

  /** Quorum commit: every raise of a leader's commit index to `k.index` in term `k.term` is backed by a
      strict majority that includes the leader, each of which held a longer log in that same term. */
  lemma QuorumCommit(c: Cluster, n: nat, ordered: bool, k: Commit)
    requires Reachable(c, n, ordered) && k in c.commits
    ensures Majority(k.holders, n) && k.leader in k.holders
    ensures exists w | w in c.wins :: w.term == k.term && w.leader == k.leader
    ensures forall v | v in k.holders :: Holds(c, v, k.term, k.index)
  {
    ReachedReplication(c, n, ordered);
    assert CommitOk(c, k) && ProcOk(c, k.leader);
  }
}
