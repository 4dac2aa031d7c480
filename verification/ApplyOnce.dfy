/** Exactly-once application and client replies, and the campaign loop against the cluster's events. No
    assumption on the network. */
module ApplyOnce {
  import opened Prelude
  import opened RaftNode
  import opened Cluster
  import opened Elections
  import opened Replication
  import Db

  /** No entry still waiting in the log shares its status channel with another or with a queued one. */
  ghost predicate Pumped(n: Node) {
    && n.lastApplied == |n.queue|
    && Db.DistinctChans(n.queue) && Db.DistinctChans(n.log)
    && Below(n.queue, n.nextChan) && Below(n.log, n.nextChan)
    && forall x, y | 0 <= x < |n.queue| && n.lastApplied < y < |n.log| && n.queue[x].chan.Some? ::
         n.queue[x].chan != n.log[y].chan
  }

  ghost predicate Below(s: seq<Entry>, bound: nat) {
    forall x | 0 <= x < |s| && s[x].chan.Some? :: s[x].chan.value < bound
  }

  ghost predicate NoChans(s: seq<Entry>) {
    forall x | 0 <= x < |s| :: s[x].chan.None?
  }

  /** The pump: in either branch the next entries of the log are queued in order, each once. */
  lemma CommitPumped(n: Node, leaderCommit: nat)
    requires Pumped(n)
    ensures Pumped(CommitChanges(n, leaderCommit)) && n.queue <= CommitChanges(n, leaderCommit).queue
  {
    if CommitInRange(n, leaderCommit) {
      var bound := CommitBound(n, leaderCommit);
      var more := n.log[n.lastApplied + 1..bound + 1];
      var q := n.queue + more;
      forall i, j | 0 <= i < j < |q| && q[i].chan.Some? ensures q[i].chan != q[j].chan {
        if j >= |n.queue| {
          assert q[j] == n.log[j + 1];
          if i >= |n.queue| {
            assert q[i] == n.log[i + 1];
          }
        }
      }
      forall x, y | 0 <= x < |q| && bound < y < |n.log| && q[x].chan.Some? ensures q[x].chan != n.log[y].chan {
        if x >= |n.queue| {
          assert q[x] == n.log[x + 1];
        }
      }
    }
  }

  lemma ClientPumped(n: Node, op: Op, key: string, value: string, prevValue: string)
    requires Pumped(n)
    ensures Pumped(ClientAppend(n, op, key, value, prevValue))
  {
  }

  lemma AppendPumped(n: Node, r: AppendRequest)
    requires Pumped(n) && NoChans(r.entries)
    ensures Pumped(HandleAppend(n, r).0)
  {
    if r.term >= n.term {
      var (ok, log) := CheckAndCorrect(n.log, r.prevLogIndex, r.prevLogTerm);
      var m := n.(isLeader := false, leader := None, term := r.term, votedFor := Some(r.leader));
      assert log <= n.log;
      assert Pumped(m.(log := log));
      if ok {
        assert Pumped(m.(log := log + r.entries));
        CommitPumped(m.(log := log + r.entries), r.leaderCommit);
      }
    }
  }

  lemma RestartPumped(n: Node)
    ensures Pumped(Restart(n))
  {
  }

  lemma AdvancePumped(n: Node, index: nat)
    requires Pumped(n)
    ensures Pumped(AdvanceCommit(n, index))
  {
    if n.commitIndex < index {
      CommitPumped(n.(commitIndex := index), index);
    }
  }

  ghost predicate SamePump(n: Node, m: Node) {
    m.queue == n.queue && m.log == n.log && m.lastApplied == n.lastApplied && m.nextChan == n.nextChan
  }

  lemma CountShape(c: Cluster, i: nat, a: VoteAnswer)
    requires Enabled(c, CountVote(i, a), false)
    ensures SamePump(c.procs[i].node, Apply(c, CountVote(i, a)).procs[i].node)
  {
    hide Apply;
    CountCases(c, i, a);
  }

  lemma QuietPump(c: Cluster, e: Event)
    requires Enabled(c, e, false)
    requires !Crashes(e) && !e.ClientRequest? && !e.CommitRound? && !e.AnswerAppend?
    ensures SamePump(c.procs[e.i].node, Apply(c, e).procs[e.i].node)
  {
    hide HandleAppend, AfterAppend, AfterCrashInAppend, WireAll, PrepareAppend;
    match e
    case CountVote(i, a) => CountShape(c, i, a);
    case _ =>
  }

  lemma StepPumped(c: Cluster, e: Event)
    requires ReplicationInv(c) && Enabled(c, e, false) && Pumped(c.procs[e.i].node)
    ensures Pumped(Apply(c, e).procs[e.i].node)
  {
    hide Pumped, ProcOk, LeaderOk, SentOk, WireAll;
    var n := c.procs[e.i].node;
    match e
    case Crash(_) => RestartPumped(n);
    case CrashInAppend(_, m, written) => RestartPumped(PartlyAppended(n, m.req, written));
    case ClientRequest(_, op, key, value, prevValue) => ClientPumped(n, op, key, value, prevValue);
    case CommitRound(_, index) => AdvancePumped(n, index);
    case AnswerAppend(_, m) =>
      NoChansSent(c, m);
      AppendPumped(n, m.req);
    case _ =>
      QuietPump(c, e);
      SamePumped(n, Apply(c, e).procs[e.i].node);
  }

  lemma SamePumped(n: Node, m: Node)
    requires Pumped(n) && SamePump(n, m)
    ensures Pumped(m)
  {
  }

  lemma NoChansSent(c: Cluster, m: AppendMsg)
    requires ReplicationInv(c) && m in c.appends
    ensures NoChans(m.req.entries)
  {
    assert AppendOk(c, m) && SliceOk(c, m) && RecordsOk(c, m.req.leader);
    var log := c.procs[m.req.leader].led[m.req.term].log;
    assert WireAll(log) == log;
    forall x | 0 <= x < |m.req.entries| ensures m.req.entries[x].chan.None? {
      assert m.req.entries[x] == log[m.req.prevLogIndex + 1 + x] == WireAll(log)[m.req.prevLogIndex + 1 + x];
    }
  }

  ghost predicate AllPumped(c: Cluster) {
    forall i | 0 <= i < |c.procs| :: Pumped(c.procs[i].node)
  }

  lemma {:induction false} RunPumped(c: Cluster, events: seq<Event>, ordered: bool)
    requires |c.procs| >= 2 && ReplicationInv(c) && Run(c, events, ordered).Some?
    requires AllPumped(c)
    ensures AllPumped(Run(c, events, ordered).value)
    decreases |events|
  {
    hide Apply, ReplicationInv, Pumped;
    if events != [] {
      StepKeepsReplication(c, events[0]);
      StepLocal(c, events[0]);
      StepPumped(c, events[0]);
      RunPumped(Apply(c, events[0]), events[1..], ordered);
    }
  }

  lemma InitPumped(n: nat)
    ensures AllPumped(Init(n))
  {
  }

  lemma ReachedPumped(c: Cluster, n: nat, ordered: bool)
    requires Reachable(c, n, ordered)
    ensures ReplicationInv(c) && |c.procs| == n && AllPumped(c)
  {
    hide ReplicationInv, Run, Apply, Pumped;
    ReachedReplication(c, n, ordered);
    var events :| Run(Init(n), events, ordered) == Some(c);
    InitReplication(n);
    InitPumped(n);
    RunPumped(Init(n), events, ordered);
  }

  /** Exactly once: in every reachable state of any server, the number of entries queued since the process
      started is lastApplied, no two of them carry the same status channel, and so the client waiting on
      the k-th gets exactly one reply, the store's outcome at that position. */
  lemma RepliesExactlyOnce(c: Cluster, n: nat, ordered: bool, i: nat, k: nat, chan: nat)
    requires Reachable(c, n, ordered) && i < |c.procs|
    requires k < |c.procs[i].node.queue| && c.procs[i].node.queue[k].chan == Some(chan)
    ensures |c.procs[i].node.queue| == c.procs[i].node.lastApplied
    ensures Db.RepliesTo(c.procs[i].node.queue, chan) == [Db.Status(c.procs[i].node.queue, k)]
  {
    ReachedPumped(c, n, ordered);
    Db.OneReply(c.procs[i].node.queue, k, chan);
  }

  /** The queue only grows, by the run of log entries that starts at lastApplied + 1. */
  ghost predicate QueueAdvances(n: Node, m: Node) {
    && n.queue <= m.queue
    && forall k | |n.queue| <= k < |m.queue| :: k + 1 < |m.log| && m.queue[k] == m.log[k + 1]
  }

  lemma CommitAdvances(n: Node, leaderCommit: nat)
    requires Pumped(n)
    ensures QueueAdvances(n, CommitChanges(n, leaderCommit))
  {
  }

  lemma AppendAdvances(n: Node, r: AppendRequest)
    requires Pumped(n) && NoChans(r.entries)
    ensures QueueAdvances(n, HandleAppend(n, r).0)
  {
    if r.term >= n.term {
      var (ok, log) := CheckAndCorrect(n.log, r.prevLogIndex, r.prevLogTerm);
      if ok {
        var m := n.(isLeader := false, leader := None, term := r.term, votedFor := Some(r.leader), log := log + r.entries);
        assert log <= n.log;
        CommitAdvances(m, r.leaderCommit);
      }
    }
  }

  lemma StepAdvances(c: Cluster, e: Event)
    requires ReplicationInv(c) && Enabled(c, e, false) && Pumped(c.procs[e.i].node) && !Crashes(e)
    ensures QueueAdvances(c.procs[e.i].node, Apply(c, e).procs[e.i].node)
  {
    var n := c.procs[e.i].node;
    match e
    case CommitRound(_, index) =>
      if n.commitIndex < index {
        CommitAdvances(n.(commitIndex := index), index);
      }
    case AnswerAppend(_, m) =>
      NoChansSent(c, m);
      AppendAdvances(n, m.req);
    case ClientRequest(_, op, key, value, prevValue) =>
    case _ => QuietPump(c, e);
  }

  /** Within one process lifetime every event, in whatever role, continues the queue where it stopped: the
      indices applied are 1, 2, 3, ... without gap or repetition; a crash empties it. */
  lemma AppliesInOrder(c: Cluster, n: nat, ordered: bool, e: Event)
    requires Reachable(c, n, ordered) && Enabled(c, e, ordered)
    ensures Enabled(c, e, false)
    ensures var p, q := c.procs[e.i].node, Apply(c, e).procs[e.i].node;
      && |q.queue| == q.lastApplied
      && if Crashes(e) then q.queue == [] else QueueAdvances(p, q)
  {
    ReachedPumped(c, n, ordered);
    StepPumped(c, e);
    if !Crashes(e) {
      StepAdvances(c, e);
    }
  }

  // ----- from a client's command to its reply

  /** The channel `chan` is carried by no entry but the one written at position `pos`, wherever that entry still is. */
  ghost predicate OnlyAt(n: Node, pos: nat, chan: nat, entry: Entry) {
    && chan < n.nextChan
    && (forall x | 0 <= x < |n.log| && n.log[x].chan == Some(chan) :: x == pos && n.log[x] == entry)
    && (forall x | 0 <= x < |n.queue| && n.queue[x].chan == Some(chan) :: x + 1 == pos && n.queue[x] == entry)
  }

  /** The log has `entry` at position `pos`, in every state of the run up to the one in which that position is
      applied. */
  ghost predicate StaysUntilApplied(c: Cluster, events: seq<Event>, ordered: bool, i: nat, pos: nat, entry: Entry)
    requires Run(c, events, ordered).Some? && i < |c.procs|
    decreases |events|
  {
    var n := c.procs[i].node;
    && pos < |n.log| && n.log[pos] == entry
    && (events != [] && n.lastApplied < pos ==>
          StaysUntilApplied(Apply(c, events[0]), events[1..], ordered, i, pos, entry))
  }

  lemma StepOnlyAt(c: Cluster, e: Event, pos: nat, chan: nat, entry: Entry)
    requires ReplicationInv(c) && Enabled(c, e, false) && Pumped(c.procs[e.i].node) && !Crashes(e)
    requires OnlyAt(c.procs[e.i].node, pos, chan, entry)
    ensures OnlyAt(Apply(c, e).procs[e.i].node, pos, chan, entry)
  {
    hide Pumped, ProcOk, LeaderOk, SentOk, WireAll, OnlyAt;
    var n := c.procs[e.i].node;
    match e
    case ClientRequest(_, op, key, value, prevValue) => ClientOnlyAt(n, op, key, value, prevValue, pos, chan, entry);
    case CommitRound(_, index) =>
      if n.commitIndex < index {
        SameOnlyAt(n, n.(commitIndex := index), pos, chan, entry);
        SamePumped(n, n.(commitIndex := index));
        PumpOnlyAt(n.(commitIndex := index), index, pos, chan, entry);
      }
    case AnswerAppend(_, m) =>
      NoChansSent(c, m);
      AppendOnlyAt(n, m.req, pos, chan, entry);
    case Crash(_) =>
    case CrashInAppend(_, _, _) =>
    case _ =>
      QuietPump(c, e);
      SameOnlyAt(n, Apply(c, e).procs[e.i].node, pos, chan, entry);
  }

  lemma SameOnlyAt(n: Node, m: Node, pos: nat, chan: nat, entry: Entry)
    requires OnlyAt(n, pos, chan, entry) && SamePump(n, m)
    ensures OnlyAt(m, pos, chan, entry)
  {
  }

  lemma ClientOnlyAt(n: Node, op: Op, key: string, value: string, prevValue: string, pos: nat, chan: nat, entry: Entry)
    requires OnlyAt(n, pos, chan, entry)
    ensures OnlyAt(ClientAppend(n, op, key, value, prevValue), pos, chan, entry)
  {
  }

  lemma PumpOnlyAt(n: Node, leaderCommit: nat, pos: nat, chan: nat, entry: Entry)
    requires Pumped(n) && OnlyAt(n, pos, chan, entry)
    ensures OnlyAt(CommitChanges(n, leaderCommit), pos, chan, entry)
  {
    if CommitInRange(n, leaderCommit) {
      var q := CommitChanges(n, leaderCommit).queue;
      forall x | 0 <= x < |q| && q[x].chan == Some(chan) ensures x + 1 == pos && q[x] == entry {
        if x >= |n.queue| {
          assert q[x] == n.log[x + 1];
        }
      }
    }
  }

  lemma AppendOnlyAt(n: Node, r: AppendRequest, pos: nat, chan: nat, entry: Entry)
    requires Pumped(n) && NoChans(r.entries) && OnlyAt(n, pos, chan, entry)
    ensures OnlyAt(HandleAppend(n, r).0, pos, chan, entry)
  {
    if r.term >= n.term {
      var (ok, log) := CheckAndCorrect(n.log, r.prevLogIndex, r.prevLogTerm);
      var m := n.(isLeader := false, leader := None, term := r.term, votedFor := Some(r.leader));
      assert log <= n.log;
      if ok {
        var k := m.(log := log + r.entries);
        assert OnlyAt(k, pos, chan, entry);
        assert Pumped(k);
        PumpOnlyAt(k, r.leaderCommit, pos, chan, entry);
      }
    }
  }

  /** Over a run without a restart of the server the queue only grows, and no other entry gets the channel. */
  lemma {:induction false} RunOnlyAt(c: Cluster, events: seq<Event>, ordered: bool, i: nat, pos: nat, chan: nat,
                                     entry: Entry)
    requires |c.procs| >= 2 && ReplicationInv(c) && AllPumped(c) && Run(c, events, ordered).Some? && i < |c.procs|
    requires OnlyAt(c.procs[i].node, pos, chan, entry) && KeepsRunning(events, i)
    ensures var d := Run(c, events, ordered).value;
      && |d.procs| == |c.procs| && AllPumped(d)
      && OnlyAt(d.procs[i].node, pos, chan, entry) && c.procs[i].node.queue <= d.procs[i].node.queue
    decreases |events|
  {
    hide Apply, ReplicationInv, Pumped, OnlyAt, KeepsRunning;
    if events != [] {
      var e := events[0];
      RunsOn(events, i);
      StepKeepsReplication(c, e);
      StepLocal(c, e);
      StepPumped(c, e);
      if e.i == i {
        StepOnlyAt(c, e, pos, chan, entry);
        StepAdvances(c, e);
      }
      RunOnlyAt(Apply(c, e), events[1..], ordered, i, pos, chan, entry);
    }
  }

  /** If the position is not applied at the start and the entry stays, it is what is applied there. */
  lemma {:induction false} RunApplies(c: Cluster, events: seq<Event>, ordered: bool, i: nat, pos: nat, chan: nat,
                                      entry: Entry)
    requires |c.procs| >= 2 && ReplicationInv(c) && AllPumped(c) && Run(c, events, ordered).Some? && i < |c.procs|
    requires OnlyAt(c.procs[i].node, pos, chan, entry) && KeepsRunning(events, i)
    requires StaysUntilApplied(c, events, ordered, i, pos, entry) && |c.procs[i].node.queue| < pos
    ensures var d := Run(c, events, ordered).value;
      |d.procs| == |c.procs| && (pos <= |d.procs[i].node.queue| ==> d.procs[i].node.queue[pos - 1] == entry)
    decreases |events|
  {
    hide Apply, ReplicationInv, OnlyAt, KeepsRunning;
    if events != [] {
      var e := events[0];
      var d := Apply(c, e);
      RunsOn(events, i);
      StepKeepsReplication(c, e);
      StepLocal(c, e);
      StepPumped(c, e);
      AppliesAt(c, e, i, pos, chan, entry);
      PumpedCount(c, i);
      PumpedCount(d, i);
      if pos <= |d.procs[i].node.queue| {
        RunOnlyAt(d, events[1..], ordered, i, pos, chan, entry);
      } else {
        RunApplies(d, events[1..], ordered, i, pos, chan, entry);
      }
    }
  }

  lemma PumpedCount(c: Cluster, i: nat)
    requires AllPumped(c) && i < |c.procs|
    ensures c.procs[i].node.lastApplied == |c.procs[i].node.queue|
  {
  }

  lemma AppliesAt(c: Cluster, e: Event, i: nat, pos: nat, chan: nat, entry: Entry)
    requires ReplicationInv(c) && Enabled(c, e, false) && i < |c.procs| && AllPumped(c) && (e.i == i ==> !Crashes(e))
    requires OnlyAt(c.procs[i].node, pos, chan, entry) && |c.procs[i].node.queue| < pos
    ensures i < |Apply(c, e).procs|
    ensures var m := Apply(c, e).procs[i].node;
      && OnlyAt(m, pos, chan, entry)
      && (pos <= |m.queue| && pos < |m.log| && m.log[pos] == entry ==> m.queue[pos - 1] == entry)
  {
    hide Apply, ReplicationInv, OnlyAt, Pumped;
    StepLocal(c, e);
    if e.i == i {
      StepOnlyAt(c, e, pos, chan, entry);
      StepAdvances(c, e);
    }
  }

  /** From the command to the reply: `chan` is the channel the client is handed and `pos` the position its command
      gets. In every continuation in which the server is not restarted and the entry stays until it is applied, the
      channel has received nothing until the position is applied, and then exactly one reply, the outcome of the
      client's own operation there. It never gets one if the position was applied before. */
  lemma ClientHears(c: Cluster, n: nat, ordered: bool, i: nat, op: Op, key: string, value: string, prevValue: string,
                    events: seq<Event>, d: Cluster)
    requires Reachable(c, n, ordered)
    requires var e := ClientRequest(i, op, key, value, prevValue);
      && Enabled(c, e, ordered) && Enabled(c, e, false) && Run(Apply(c, e), events, ordered) == Some(d)
    requires KeepsRunning(events, i)
    requires var pos, now := |c.procs[i].node.log|, Apply(c, ClientRequest(i, op, key, value, prevValue));
      && i < |now.procs| && pos < |now.procs[i].node.log|
      && StaysUntilApplied(now, events, ordered, i, pos, now.procs[i].node.log[pos])
    ensures i < |d.procs|
    ensures var chan, pos, q := c.procs[i].node.nextChan, |c.procs[i].node.log|, d.procs[i].node.queue;
      if c.procs[i].node.lastApplied < pos <= |q| then
        && Db.RepliesTo(q, chan) == [Db.Status(q, pos - 1)]
        && q[pos - 1].op == op && q[pos - 1].key == key && q[pos - 1].value == value
        && q[pos - 1].prevValue == prevValue
      else Db.RepliesTo(q, chan) == []
  {
    hide Run, Apply, ReplicationInv, Pumped, StaysUntilApplied, KeepsRunning, OnlyAt;
    var e := ClientRequest(i, op, key, value, prevValue);
    var was, now := c.procs[i].node, Apply(c, e);
    var pos, chan := |was.log|, was.nextChan;
    ReachedPumped(c, n, ordered);
    StepKeepsReplication(c, e);
    StepPumped(c, e);
    StepLocal(c, e);
    Written(c, i, op, key, value, prevValue);
    var entry := now.procs[i].node.log[pos];
    RunOnlyAt(now, events, ordered, i, pos, chan, entry);
    var q := d.procs[i].node.queue;
    PumpedCount(c, i);
    PumpedCount(now, i);
    if |now.procs[i].node.queue| < pos {
      RunApplies(now, events, ordered, i, pos, chan, entry);
      if pos <= |q| {
        PumpedChans(d, i);
        Db.OneReply(q, pos - 1, chan);
      } else {
        NotHeard(d.procs[i].node, pos, chan, entry);
      }
    } else {
      Freshly(was, chan);
      assert q[pos - 1] == was.queue[pos - 1];
      NotHeard(d.procs[i].node, pos, chan, entry);
    }
  }

  lemma PumpedChans(c: Cluster, i: nat)
    requires AllPumped(c) && i < |c.procs|
    ensures Db.DistinctChans(c.procs[i].node.queue)
  {
  }

  lemma Freshly(n: Node, chan: nat)
    requires Pumped(n) && n.nextChan == chan
    ensures forall x | 0 <= x < |n.queue| :: n.queue[x].chan != Some(chan)
  {
  }

  /** The client's entry is written at the end of the log, and carries the channel handed out. */
  lemma Written(c: Cluster, i: nat, op: Op, key: string, value: string, prevValue: string)
    requires Enabled(c, ClientRequest(i, op, key, value, prevValue), false) && Pumped(c.procs[i].node)
    ensures var n := c.procs[i].node; var pos := |n.log|;
      var m := Apply(c, ClientRequest(i, op, key, value, prevValue)).procs[i].node;
      && |m.log| == pos + 1 && m.queue == n.queue
      && var entry := m.log[pos];
      && OnlyAt(m, pos, n.nextChan, entry)
      && entry.op == op && entry.key == key && entry.value == value && entry.prevValue == prevValue
      && entry.chan == Some(n.nextChan)
  {
  }

  lemma NotHeard(n: Node, pos: nat, chan: nat, entry: Entry)
    requires OnlyAt(n, pos, chan, entry)
    requires 0 < pos <= |n.queue| ==> n.queue[pos - 1].chan != Some(chan)
    ensures Db.RepliesTo(n.queue, chan) == []
  {
    Db.NoReply(n.queue, chan);
  }

  // ----- the campaign loop as events

  ghost function Replies(answers: seq<VoteAnswer>): (r: seq<VoteReply>)
    ensures |r| == |answers|
    ensures forall k | 0 <= k < |answers| :: r[k] == answers[k].reply
  {
    seq(|answers|, k requires 0 <= k < |answers| => answers[k].reply)
  }

  /** The answers to one campaign, from different peers not yet counted. */
  ghost predicate Answers(c: Cluster, i: nat, answers: seq<VoteAnswer>)
    requires i < |c.procs| && c.procs[i].mode.Campaigning?
  {
    && (forall k | 0 <= k < |answers| ::
          && answers[k] in c.voteAnswers && answers[k].req.candidate == i
          && answers[k].req.term == c.procs[i].node.term
          && answers[k].voter !in c.procs[i].mode.granted + c.procs[i].mode.refused)
    && (forall k, x | 0 <= k < x < |answers| :: answers[k].voter != answers[x].voter)
  }

  ghost function Outcome(n: Node, i: nat, size: nat, verdict: Verdict, seen: nat): Node
    requires |n.log| > 0 && i < size
  {
    if verdict.Won? then BecomeLeader(n, i, size) else CloseCampaign(n, verdict, seen)
  }

  /** The vote-counting loop and the cluster's events agree: counting a campaign's answers one event at a
      time ends with the server state the loop computes. */
  lemma {:induction false} CountingRefines(c: Cluster, i: nat, answers: seq<VoteAnswer>) returns (events: seq<Event>)
    requires ElectionInv(c) && i < |c.procs| && c.procs[i].mode.Campaigning?
    requires Answers(c, i, answers)
    ensures WellFormed(c.procs[i].node, |c.procs|)
    ensures var n := c.procs[i].node;
      var (verdict, seen) := Poll(|c.procs[i].mode.granted|, |c.procs[i].mode.refused|, n.term, |c.procs|, Replies(answers));
      && Run(c, events, true).Some?
      && i < |Run(c, events, true).value.procs|
      && Run(c, events, true).value.procs[i].mode.Idle?
      && Run(c, events, true).value.procs[i].node == Outcome(n, i, |c.procs|, verdict, seen)
    decreases |answers|
  {
    hide CampaignOk, NewLeaderState;
    assert ProcOk(c, i);
    var p := c.procs[i];
    if answers == [] {
      events := [GiveUp(i)];
      RunOne(c, GiveUp(i));
    } else {
      var a := answers[0];
      var e := CountVote(i, a);
      assert Enabled(c, e, true);
      CountCases(c, i, a);
      PollStep(p, answers, p.node.term, |c.procs|);
      if VerdictOf(p, a, |c.procs|).Undecided? {
        StepKeepsElections(c, e);
        LaterAnswers(c, i, answers);
        var rest := CountingRefines(Apply(c, e), i, answers[1..]);
        events := [e] + rest;
        assert events[1..] == rest;
      } else {
        events := [e];
        RunOne(c, e);
      }
    }
  }

  /** The first answer's part in the count. */
  lemma PollStep(p: Proc, answers: seq<VoteAnswer>, term: nat, size: nat)
    requires p.mode.Campaigning? && answers != [] && answers[0].voter !in p.mode.granted + p.mode.refused
    ensures var a := answers[0]; var verdict := Judge(|Granted(p, a)|, |Refused(p, a)|, a.reply.term, term, size);
      Poll(|p.mode.granted|, |p.mode.refused|, term, size, Replies(answers)) ==
      if verdict.Undecided? then Poll(|Granted(p, a)|, |Refused(p, a)|, term, size, Replies(answers[1..]))
      else (verdict, a.reply.term)
  {
    var a := answers[0];
    assert |Granted(p, a)| == |p.mode.granted| + if a.reply.granted then 1 else 0;
    assert |Refused(p, a)| == |p.mode.refused| + if a.reply.granted then 0 else 1;
    assert Replies(answers)[0] == a.reply && Replies(answers)[1..] == Replies(answers[1..]);
  }

  lemma LaterAnswers(c: Cluster, i: nat, answers: seq<VoteAnswer>)
    requires i < |c.procs| && c.procs[i].mode.Campaigning? && Answers(c, i, answers) && answers != []
    requires Enabled(c, CountVote(i, answers[0]), false)
    requires VerdictOf(c.procs[i], answers[0], |c.procs|).Undecided?
    ensures var d := Apply(c, CountVote(i, answers[0]));
      d.procs[i].mode.Campaigning? && Answers(d, i, answers[1..])
  {
    CountCases(c, i, answers[0]);
    StepLocal(c, CountVote(i, answers[0]));
  }

  lemma RunOne(c: Cluster, e: Event)
    requires Enabled(c, e, true)
    ensures Enabled(c, e, false) && Run(c, [e], true) == Some(Apply(c, e))
  {
    assert [e][1..] == [];
    assert Run(Apply(c, e), [], true) == Some(Apply(c, e));
  }
}
