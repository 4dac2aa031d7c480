/** What a follower's log consists of, over every run and network, and exactly when it is a prefix of its
    leader's. */
module EraExact {
  import opened Prelude
  import opened RaftNode
  import opened Cluster
  import opened Elections
  import opened Replication

  ghost predicate Comparable(a: seq<Entry>, b: seq<Entry>) {
    a <= b || b <= a
  }

  // ----- what an event does to a server's log and history

  /** The event writes to the server's log what a leader sent. */
  ghost predicate Writes(c: Cluster, e: Event) {
    && e.i < |c.procs|
    && match e
       case AnswerAppend(i, m) => Accepts(c.procs[i].node, m.req)
       case CrashInAppend(_, _, written) => written.Some?
       case _ => false
  }

  /** How many entries of the request it writes. */
  function Part(e: Event): nat
    requires e.AnswerAppend? || (e.CrashInAppend? && e.written.Some?)
  {
    if e.AnswerAppend? then |e.m.req.entries| else e.written.value
  }

  ghost predicate Elected(c: Cluster, e: Event) {
    && Enabled(c, e, false) && e.CountVote? && VerdictOf(c.procs[e.i], e.vote, |c.procs|).Won?
  }

  /** The log is kept up to the entry `prev`, and `part` entries of the request follow. */
  ghost predicate Written(p: Proc, q: Proc, r: AppendRequest, part: nat) {
    && r.term >= p.node.term && r.prevLogIndex < |p.node.log| && part <= |r.entries|
    && WireAll(q.node.log) == WireAll(p.node.log[..r.prevLogIndex + 1] + r.entries[..part])
    && q.node.term == r.term && q.node.leader.None? && q.led == p.led && q.votes == p.votes
    && q.epoch == Joining(p, r).epoch && q.source == Joining(p, r).source && q.base == Joining(p, r).base
  }

  /** Nothing a leader sent is written, and no era begins. */
  ghost predicate LogSame(p: Proc, q: Proc) {
    && WireAll(q.node.log) == WireAll(p.node.log)
    && q.epoch == p.epoch && q.source == p.source && q.base == p.base && q.acked == p.acked && q.led == p.led
  }

  lemma WriteShape(c: Cluster, e: Event)
    requires ReplicationInv(c) && Enabled(c, e, false) && Writes(c, e)
    ensures e.m in c.appends && e.m.to == e.i
    ensures Written(c.procs[e.i], Apply(c, e).procs[e.i], e.m.req, Part(e))
    ensures var p, q, t := c.procs[e.i], Apply(c, e).procs[e.i], e.m.req.term;
      if e.AnswerAppend? then
        && Total(e.m.req) == |q.node.log|
        && q.acked == p.acked[t := if t in p.acked then Max(p.acked[t], |q.node.log|) else |q.node.log|]
      else q.acked == p.acked
  {
    hide RecordsOk, WireAll, HandleAppend, AfterAppend, AfterCrashInAppend, Written, Accepts;
    assert ProcOk(c, e.i) && AppendOk(c, e.m);
    var p := c.procs[e.i];
    AcceptsIff(p.node, e.m.req);
    if e.AnswerAppend? {
      AnswerWrites(p, e.m);
    } else {
      CrashWrites(p, e.m, e.written.value);
    }
  }

  lemma AnswerWrites(p: Proc, m: AppendMsg)
    requires Accepts(p.node, m.req) && |p.node.log| > 0 && p.node.log[0] == SENTINEL && ZeroTerms(p.node.log)
    requires ZeroTerms(m.req.entries) && m.req.prevLogTerm == 0
    ensures var q, t := AfterAppend(p, m), m.req.term;
      && Written(p, q, m.req, |m.req.entries|) && Total(m.req) == |q.node.log|
      && q.acked == p.acked[t := if t in p.acked then Max(p.acked[t], |q.node.log|) else |q.node.log|]
  {
    hide WireAll, HandleAppend;
    AppendNode(p.node, m.req);
    AcceptsIff(p.node, m.req);
    assert m.req.entries[..|m.req.entries|] == m.req.entries;
  }

  lemma CrashWrites(p: Proc, m: AppendMsg, part: nat)
    requires Accepts(p.node, m.req) && part <= |m.req.entries|
    ensures Written(p, AfterCrashInAppend(p, m, Some(part)), m.req, part)
    ensures AfterCrashInAppend(p, m, Some(part)).acked == p.acked
  {
    hide WireAll;
    WireTwice(PartlyAppended(p.node, m.req, Some(part)).log);
  }

  lemma QuietShape(c: Cluster, e: Event)
    requires ReplicationInv(c) && Enabled(c, e, false) && !Writes(c, e) && !e.ClientRequest? && !Elected(c, e)
    ensures LogSame(c.procs[e.i], Apply(c, e).procs[e.i])
  {
    hide ReplicationInv, WireAll, LogSame, HandleAppend, AfterAppend, AfterCrashInAppend;
    match e
    case CountVote(i, a) =>
      CountCases(c, i, a);
      CountQuiet(c, i, a);
    case AnswerAppend(i, m) => RefusedQuiet(c, i, m);
    case CrashInAppend(i, m, written) => UnwrittenQuiet(c.procs[i], m);
    case AnswerVote(i, q) => VoteQuiet(c.procs[i], q);
    case _ => IdleQuiet(c, e);
  }

  lemma CountQuiet(c: Cluster, i: nat, a: VoteAnswer)
    requires Enabled(c, CountVote(i, a), false)
    requires !VerdictOf(c.procs[i], a, |c.procs|).Won?
    ensures LogSame(c.procs[i], Apply(c, CountVote(i, a)).procs[i])
  {
    hide Apply, WireAll;
    CountCases(c, i, a);
  }

  lemma RefusedQuiet(c: Cluster, i: nat, m: AppendMsg)
    requires ReplicationInv(c) && i < |c.procs| && m in c.appends && m.to == i && !Accepts(c.procs[i].node, m.req)
    ensures LogSame(c.procs[i], AfterAppend(c.procs[i], m))
  {
    hide RecordsOk, CampaignOk, WireAll, HandleAppend;
    assert ProcOk(c, i) && AppendOk(c, m);
    StaleAppend(c.procs[i], m);
    if m.req.term >= c.procs[i].node.term {
      AppendNode(c.procs[i].node, m.req);
      AcceptsIff(c.procs[i].node, m.req);
    }
  }

  lemma UnwrittenQuiet(p: Proc, m: AppendMsg)
    ensures LogSame(p, AfterCrashInAppend(p, m, None))
  {
    WireTwice(p.node.log);
  }

  lemma VoteQuiet(p: Proc, q: VoteRequest)
    requires |p.node.log| > 0
    ensures LogSame(p, AfterVote(p, q))
  {
    hide WireAll;
  }

  lemma IdleQuiet(c: Cluster, e: Event)
    requires Enabled(c, e, false) && !e.AnswerAppend? && !e.CrashInAppend? && !e.ClientRequest?
    requires !e.CountVote? && !e.AnswerVote?
    ensures LogSame(c.procs[e.i], Apply(c, e).procs[e.i])
  {
    hide AfterAppend, AfterCrashInAppend, HandleAppend, PrepareAppend, AfterWin, AfterClient, Judge, AfterVote, WireAll;
    WireTwice(c.procs[e.i].node.log);
  }

  /** A client's entry goes to the end of a leader's log and era. */
  lemma ClientShape(c: Cluster, e: Event)
    requires ReplicationInv(c) && Enabled(c, e, false) && e.ClientRequest?
    ensures var p, q, t := c.procs[e.i], Apply(c, e).procs[e.i], c.procs[e.i].node.term;
      && q.epoch == p.epoch && q.source == p.source && q.base == p.base && q.acked == p.acked
      && q.node.term == t == p.epoch && p.source == e.i && t in p.led && t in q.led
      && p.led[t].log == WireAll(p.node.log) && q.led[t].log == WireAll(q.node.log)
      && q.led.Keys == p.led.Keys && q.votes == p.votes
      && p.node.log <= q.node.log && p.node.leader.Some? && (exists w | w in c.wins :: w.term == t && w.leader == e.i)
  {
    assert ProcOk(c, e.i) && RecordsOk(c, e.i);
  }

  /** A winner's log starts a new era. */
  lemma WonShape(c: Cluster, e: Event)
    requires ReplicationInv(c) && Elected(c, e)
    ensures |c.procs[e.i].node.log| > 0 && c.procs[e.i].mode.Campaigning?
    ensures Apply(c, e).procs[e.i] == AfterWin(c.procs[e.i], e.i, |c.procs|)
    ensures Apply(c, e).wins == c.wins + {Win(c.procs[e.i].node.term, e.i, Granted(c.procs[e.i], e.vote))}
  {
    hide ReplicationInv;
  }

  lemma SameWires(a: seq<Entry>, b: seq<Entry>)
    requires WireAll(a) == WireAll(b)
    ensures |a| == |b|
  {
    assert |WireAll(a)| == |WireAll(b)|;
  }

  // ----- lower bounds for what a request keeps

  /** A request of term `t` that keeps `k` entries of this server's log either keeps everything the log of
      the election covers, or everything the server had when it joined the era, or comes too late. */
  ghost predicate Floor(p: Proc, start: nat, t: nat, k: nat) {
    || k >= start
    || p.node.term > t
    || (p.node.term == t && k >= if p.epoch == t then |p.base| else |p.node.log|)
  }

  ghost predicate PeerFloor(c: Cluster, i: nat, j: nat)
    requires i < |c.procs| && j < |c.procs| && ProcOk(c, i) && c.procs[i].node.leader.Some?
  {
    var n := c.procs[i].node;
    Floor(c.procs[j], |c.procs[i].led[n.term].start|, n.term, n.leader.value.nextIndex[j])
  }

  ghost predicate MsgFloor(c: Cluster, m: AppendMsg, k: nat)
    requires AppendOk(c, m)
  {
    Floor(c.procs[m.to], |c.procs[m.req.leader].led[m.req.term].start|, m.req.term, k)
  }

  ghost predicate AnswerFloor(c: Cluster, a: AppendAnswer)
    requires AppendOk(c, a.msg)
  {
    !a.reply.success && a.reply.term <= a.msg.req.term ==> MsgFloor(c, a.msg, a.msg.req.prevLogIndex)
  }

  // ----- what a log consists of

  function Shared(a: seq<Entry>, b: seq<Entry>): nat {
    if |a| < |b| then |a| else |b|
  }

  /** The log is what the server came with, up to the shorter of that and the log of the election, and from there
      on what its leader's log has. */
  ghost predicate Graft(base: seq<Entry>, era: Era, log: seq<Entry>) {
    var k := Shared(base, era.start);
    k <= |log| <= |era.log| && WireAll(log) == base[..k] + era.log[k..|log|]
  }

  ghost predicate Grafted(c: Cluster, i: nat)
    requires i < |c.procs|
  {
    var p := c.procs[i];
    p.epoch > 0 && Leads(c, p.source, p.epoch) ==> Graft(p.base, c.procs[p.source].led[p.epoch], p.node.log)
  }

  ghost predicate FloorInv(c: Cluster) {
    && ReplicationInv(c)
    && (forall i, j | 0 <= i < |c.procs| && 0 <= j < |c.procs| && j != i && c.procs[i].node.leader.Some? ::
          ProcOk(c, i) && PeerFloor(c, i, j))
    && (forall m | m in c.appends :: AppendOk(c, m) && MsgFloor(c, m, m.req.prevLogIndex + 1))
    && (forall a | a in c.appendAnswers :: AppendOk(c, a.msg) && AnswerFloor(c, a))
    && (forall i | 0 <= i < |c.procs| :: Grafted(c, i))
  }

  lemma FloorsGive(c: Cluster)
    requires FloorInv(c)
    ensures ReplicationInv(c) && ElectionInv(c)
  {
  }

  /** How a server that does not lead era `t` can change while it stays in term `t`. */
  ghost predicate Follows(p: Proc, q: Proc, t: nat) {
    q.node.term == t ==>
      || p.node.term < t
      || (p.epoch != t && q.epoch != t && |q.node.log| == |p.node.log|)
      || (p.epoch != t && q.epoch == t && |q.base| == |p.node.log|)
      || (p.epoch == t && q.epoch == t && |q.base| == |p.base|)
  }

  lemma FollowShape(c: Cluster, e: Event, t: nat)
    requires ReplicationInv(c) && Enabled(c, e, false)
    requires t !in c.procs[e.i].led && t !in Apply(c, e).procs[e.i].led
    ensures Follows(c.procs[e.i], Apply(c, e).procs[e.i], t)
  {
    hide Apply, WireAll, Elected, LogSame, ReplicationInv, Accepts;
    StepLocal(c, e);
    var p, q := c.procs[e.i], Apply(c, e).procs[e.i];
    if Writes(c, e) {
      WriteShape(c, e);
      JoinFollows(p, q, e.m.req, Part(e), t);
    } else if e.ClientRequest? {
      ClientShape(c, e);
    } else if Elected(c, e) {
      WonShape(c, e);
    } else {
      QuietShape(c, e);
      QuietFollows(p, q, t);
    }
  }

  lemma JoinFollows(p: Proc, q: Proc, r: AppendRequest, part: nat, t: nat)
    requires Written(p, q, r, part)
    ensures Follows(p, q, t)
  {
  }

  lemma QuietFollows(p: Proc, q: Proc, t: nat)
    requires LogSame(p, q)
    ensures Follows(p, q, t)
  {
    SameWires(p.node.log, q.node.log);
  }

  lemma FloorStays(p: Proc, q: Proc, start: nat, t: nat, k: nat)
    requires Floor(p, start, t, k) && p.node.term <= q.node.term && Follows(p, q, t)
    ensures Floor(q, start, t, k)
  {
  }

  /** Only one server leads an era. */
  lemma SoleLeader(c: Cluster, a: nat, b: nat, t: nat)
    requires ElectionInv(c) && Leads(c, a, t) && Leads(c, b, t)
    ensures a == b
  {
    assert ProcOk(c, a) && ProcOk(c, b);
  }

  lemma FloorAfter(c: Cluster, e: Event, l: nat, j: nat, t: nat, k: nat)
    requires ReplicationInv(c) && Enabled(c, e, false) && ReplicationInv(Apply(c, e)) && Leads(c, l, t) && j < |c.procs| && j != l
    requires Floor(c.procs[j], |c.procs[l].led[t].start|, t, k)
    ensures var d := Apply(c, e);
      Leads(d, l, t) && j < |d.procs| && Floor(d.procs[j], |d.procs[l].led[t].start|, t, k)
  {
    hide Apply, Follows, Floor;
    var d := Apply(c, e);
    StepGrows(c, e);
    StepLocal(c, e);
    assert ProcGrows(c.procs[l], d.procs[l]) && ProcGrows(c.procs[j], d.procs[j]);
    if j == e.i {
      if t in d.procs[j].led {
        SoleLeader(d, j, l, t);
      }
      FollowShape(c, e, t);
      FloorStays(c.procs[j], d.procs[j], |c.procs[l].led[t].start|, t, k);
    }
  }

  // ----- what a step adds

  lemma OldMessages(c: Cluster, e: Event)
    requires FloorInv(c) && Enabled(c, e, false) && ReplicationInv(Apply(c, e))
    ensures var d := Apply(c, e);
      && (forall m | m in c.appends :: AppendOk(d, m) && MsgFloor(d, m, m.req.prevLogIndex + 1))
      && (forall a | a in c.appendAnswers :: AppendOk(d, a.msg) && AnswerFloor(d, a))
  {
    var d := Apply(c, e);
    StepLocal(c, e);
    forall m | m in c.appends ensures AppendOk(d, m) && MsgFloor(d, m, m.req.prevLogIndex + 1) {
      assert AppendOk(c, m);
      FloorAfter(c, e, m.req.leader, m.to, m.req.term, m.req.prevLogIndex + 1);
    }
    forall a | a in c.appendAnswers ensures AppendOk(d, a.msg) && AnswerFloor(d, a) {
      assert AppendAnswerOk(c, a) && AppendOk(c, a.msg);
      if !a.reply.success && a.reply.term <= a.msg.req.term {
        FloorAfter(c, e, a.msg.req.leader, a.msg.to, a.msg.req.term, a.msg.req.prevLogIndex);
      }
    }
  }

  /** A leader whose bookkeeping an event leaves alone. */
  lemma OldPeers(c: Cluster, e: Event, i: nat)
    requires FloorInv(c) && Enabled(c, e, false) && ReplicationInv(Apply(c, e)) && i < |c.procs|
    requires c.procs[i].node.leader.Some? && ProcOk(Apply(c, e), i)
    requires Apply(c, e).procs[i].node.leader == c.procs[i].node.leader
    requires Apply(c, e).procs[i].node.term == c.procs[i].node.term
    ensures forall j | 0 <= j < |c.procs| && j != i :: PeerFloor(Apply(c, e), i, j)
  {
    var d := Apply(c, e);
    StepLocal(c, e);
    assert ProcOk(c, i);
    forall j | 0 <= j < |c.procs| && j != i ensures PeerFloor(d, i, j) {
      assert PeerFloor(c, i, j);
      FloorAfter(c, e, i, j, c.procs[i].node.term, c.procs[i].node.leader.value.nextIndex[j]);
    }
  }

  lemma GraftOn(base: seq<Entry>, era: Era, log: seq<Entry>, k: nat, more: seq<Entry>)
    requires Graft(base, era, log) && Shared(base, era.start) <= k <= |log| && k + |more| <= |era.log|
    requires more == era.log[k..k + |more|] && WireAll(era.log) == era.log
    ensures Graft(base, era, log[..k] + more)
  {
    var s, w := Shared(base, era.start), WireAll(log[..k] + more);
    forall x | 0 <= x < |w| ensures w[x] == (base[..s] + era.log[s..|w|])[x] {
      if x < k {
        assert w[x] == WireAll(log)[x] == (base[..s] + era.log[s..|log|])[x];
      } else {
        assert more[x - k] == era.log[x] == WireAll(era.log)[x];
      }
    }
    assert w == base[..s] + era.log[s..|w|];
  }

  lemma GraftNew(log: seq<Entry>, era: Era, k: nat, more: seq<Entry>)
    requires k == Shared(WireAll(log), era.start) && k + |more| <= |era.log|
    requires more == era.log[k..k + |more|] && WireAll(era.log) == era.log
    ensures Graft(WireAll(log), era, log[..k] + more)
  {
    var w := WireAll(log[..k] + more);
    forall x | 0 <= x < |w| ensures w[x] == (WireAll(log)[..k] + era.log[k..|w|])[x] {
      if x >= k {
        assert more[x - k] == era.log[x] == WireAll(era.log)[x];
      }
    }
    assert w == WireAll(log)[..k] + era.log[k..|w|];
  }

  lemma GraftGrows(base: seq<Entry>, era: Era, log: seq<Entry>, era': Era, log': seq<Entry>)
    requires Graft(base, era, log) && era'.start == era.start && era.log <= era'.log
    requires WireAll(log') == WireAll(log) || (WireAll(log) == era.log && WireAll(log') == era'.log)
    ensures Graft(base, era', log')
  {
    var k := Shared(base, era.start);
    if WireAll(log') == WireAll(log) {
      SameWires(log, log');
      assert era'.log[k..|log|] == era.log[k..|log|];
    } else {
      assert |log| == |WireAll(log)| && |log'| == |WireAll(log')|;
      assert era'.log == era'.log[..k] + era'.log[k..];
      assert era.log[..k] == (base[..k] + era.log[k..|log|])[..k] == base[..k];
      assert era'.log[..k] == era.log[..k];
    }
  }

  /** A request keeps the part of the log that the server came with and the election did not cover. */
  lemma KeptPart(c: Cluster, e: Event)
    requires FloorInv(c) && Enabled(c, e, false) && Writes(c, e)
    ensures e.m in c.appends && Leads(c, e.m.req.leader, e.m.req.term) && e.m.req.term > 0
    ensures var p, r := c.procs[e.i], e.m.req; var k, start := r.prevLogIndex + 1, |c.procs[r.leader].led[r.term].start|;
      if p.epoch == r.term then p.source == r.leader && (k >= start || k >= |p.base|)
      else k == if |p.node.log| < start then |p.node.log| else start
  {
    hide CampaignOk, LeaderOk, SentOk, PeerFloor, AnswerFloor, HandleAppend, WireAll, Graft, Apply;
    WriteShape(c, e);
    assert ProcOk(c, e.i) && RecordsOk(c, e.i) && AppendOk(c, e.m) && SliceOk(c, e.m) && RecordsOk(c, e.m.req.leader);
    assert MsgFloor(c, e.m, e.m.req.prevLogIndex + 1);
    if e.m.req.term == c.procs[e.i].epoch {
      SameSource(c, e.i, e.m);
    }
  }

  lemma WrittenGraft(c: Cluster, e: Event)
    requires FloorInv(c) && Enabled(c, e, false) && Writes(c, e)
    ensures Grafted(Apply(c, e), e.i)
  {
    hide FloorInv, WireAll, Graft, Apply, Accepts, ReplicationInv;
    FloorsGive(c);
    WriteShape(c, e);
    KeptPart(c, e);
    StepLocal(c, e);
    MessageSlice(c, e.m);
    assert c.procs[e.m.req.leader] == Apply(c, e).procs[e.m.req.leader];
    if c.procs[e.i].epoch == e.m.req.term {
      EraOf(c, e.i);
    }
    SplicedGraft(c.procs[e.i], Apply(c, e).procs[e.i], e.m.req, Part(e), c.procs[e.m.req.leader].led[e.m.req.term]);
  }

  lemma MessageSlice(c: Cluster, m: AppendMsg)
    requires ReplicationInv(c) && m in c.appends
    ensures Leads(c, m.req.leader, m.req.term) && m.to != m.req.leader && m.req.term > 0
    ensures var era := c.procs[m.req.leader].led[m.req.term];
      && era.start <= era.log && WireAll(era.log) == era.log && Total(m.req) <= |era.log|
      && m.req.entries == era.log[m.req.prevLogIndex + 1..Total(m.req)]
  {
    hide WireAll;
    assert AppendOk(c, m) && SliceOk(c, m) && RecordsOk(c, m.req.leader);
  }

  /** A request of a term comes from the server that leads it. */
  lemma OneLeader(c: Cluster, i: nat, a: AppendMsg)
    requires ReplicationInv(c) && i < |c.procs| && a in c.appends && a.req.term in c.procs[i].led
    ensures a.req.leader == i && AppendOk(c, a) && SliceOk(c, a)
    ensures |c.procs[i].led[a.req.term].start| <= Total(a.req) <= |c.procs[i].led[a.req.term].log|
    ensures a.stamp < c.clock
  {
    assert AppendOk(c, a) && SliceOk(c, a) && ProcOk(c, i) && ProcOk(c, a.req.leader);
  }

  lemma TakeOfSlice(s: seq<Entry>, a: nat, b: nat, k: nat)
    requires a <= b <= |s| && k <= b - a
    ensures s[a..b][..k] == s[a..a + k]
  {
  }

  lemma SplicedGraft(p: Proc, q: Proc, r: AppendRequest, part: nat, era: Era)
    requires Written(p, q, r, part) && era.start <= era.log && WireAll(era.log) == era.log && Total(r) <= |era.log|
    requires r.entries == era.log[r.prevLogIndex + 1..Total(r)]
    requires var k, start := r.prevLogIndex + 1, |era.start|;
      if p.epoch == r.term then Graft(p.base, era, p.node.log) && (k >= start || k >= |p.base|)
      else k == if |p.node.log| < start then |p.node.log| else start
    ensures Graft(q.base, era, q.node.log)
  {
    hide WireAll, Graft;
    var k, more := r.prevLogIndex + 1, r.entries[..part];
    TakeOfSlice(era.log, k, Total(r), part);
    if p.epoch == r.term {
      GraftOn(p.base, era, p.node.log, k, more);
    } else {
      assert |WireAll(p.node.log)| == |p.node.log|;
      GraftNew(p.node.log, era, k, more);
    }
    GraftGrows(q.base, era, p.node.log[..k] + more, era, q.node.log);
  }

  lemma EraOf(c: Cluster, i: nat)
    requires FloorInv(c) && i < |c.procs| && c.procs[i].epoch > 0
    ensures Leads(c, c.procs[i].source, c.procs[i].epoch)
    ensures var era := c.procs[c.procs[i].source].led[c.procs[i].epoch];
      era.start <= era.log && Graft(c.procs[i].base, era, c.procs[i].node.log)
  {
    hide Graft;
    assert RecordsOk(c, i) && RecordsOk(c, c.procs[i].source) && Grafted(c, i);
  }

  /** A server keeps its graft while it stays in its era and writes nothing but its own clients' entries. */
  lemma GraftStays(c: Cluster, d: Cluster, i: nat)
    requires i < |c.procs| && Grows(c, d) && Grafted(c, i) && EpochOk(c, i)
    requires var p, q := c.procs[i], d.procs[i];
      && q.epoch == p.epoch && q.source == p.source && q.base == p.base
      && (|| WireAll(q.node.log) == WireAll(p.node.log)
          || (&& p.source == i && Leads(c, i, p.epoch) && Leads(d, i, p.epoch)
              && p.led[p.epoch].log == WireAll(p.node.log) && q.led[p.epoch].log == WireAll(q.node.log)))
    ensures Grafted(d, i)
  {
    hide WireAll, Graft;
    var p := c.procs[i];
    if p.epoch > 0 {
      assert ProcGrows(c.procs[p.source], d.procs[p.source]);
      GraftGrows(p.base, c.procs[p.source].led[p.epoch], p.node.log,
                 d.procs[p.source].led[p.epoch], d.procs[i].node.log);
    }
  }

  lemma WonGraft(c: Cluster, e: Event)
    requires ReplicationInv(c) && Elected(c, e)
    ensures Grafted(Apply(c, e), e.i)
  {
    WonShape(c, e);
  }

  lemma GraftsAfter(c: Cluster, e: Event)
    requires FloorInv(c) && Enabled(c, e, false)
    ensures forall i | 0 <= i < |c.procs| :: i < |Apply(c, e).procs| && Grafted(Apply(c, e), i)
  {
    hide Grafted, Apply, Writes, Elected, Enabled, LogSame, PeerFloor, MsgFloor, AnswerFloor;
    var d := Apply(c, e);
    StepGrows(c, e);
    StepLocal(c, e);
    forall i | 0 <= i < |c.procs| ensures i < |d.procs| && Grafted(d, i) {
      assert RecordsOk(c, i);
      if i != e.i {
        GraftStays(c, d, i);
      } else if Writes(c, e) {
        WrittenGraft(c, e);
      } else if Elected(c, e) {
        WonGraft(c, e);
      } else if e.ClientRequest? {
        ClientShape(c, e);
        GraftStays(c, d, i);
      } else {
        QuietShape(c, e);
        SameEra(c.procs[i], d.procs[i]);
        GraftStays(c, d, i);
      }
    }
  }

  lemma SameEra(p: Proc, q: Proc)
    requires LogSame(p, q)
    ensures WireAll(q.node.log) == WireAll(p.node.log) && q.epoch == p.epoch && q.source == p.source && q.base == p.base
    ensures q.acked == p.acked && q.led == p.led && |q.node.log| == |p.node.log|
  {
    SameWires(p.node.log, q.node.log);
  }

  /** A refused request's kept part is at least what the server then had. */
  lemma NewAnswer(c: Cluster, i: nat, m: AppendMsg)
    requires FloorInv(c) && Enabled(c, AnswerAppend(i, m), false) && ReplicationInv(Apply(c, AnswerAppend(i, m)))
    ensures var d := Apply(c, AnswerAppend(i, m));
      AppendOk(d, m) && AnswerFloor(d, AppendAnswer(m, HandleAppend(c.procs[i].node, m.req).1))
  {
    hide CampaignOk, LeaderOk, SentOk, WinOk, WireAll, PeerFloor;
    var p := c.procs[i];
    var d := Apply(c, AnswerAppend(i, m));
    assert AppendOk(c, m) && AppendOk(d, m) && ProcOk(c, i) && RecordsOk(c, i) && Grafted(c, i);
    assert RecordsOk(c, m.req.leader);
    if m.req.term >= p.node.term {
      AppendNode(p.node, m.req);
      if m.req.prevLogIndex >= |p.node.log| {
        assert d.procs[m.req.leader] == c.procs[m.req.leader];
        if m.req.term == p.epoch {
          NonZeroEra(c, m);
          SameSource(c, i, m);
        }
      }
    }
  }

  lemma WinnerPeers(c: Cluster, i: nat, a: VoteAnswer)
    requires ReplicationInv(c) && Enabled(c, CountVote(i, a), false) && VerdictOf(c.procs[i], a, |c.procs|).Won?
    requires ReplicationInv(Apply(c, CountVote(i, a)))
    ensures var d := Apply(c, CountVote(i, a));
      forall j | 0 <= j < |d.procs| && j != i && i < |d.procs| && d.procs[i].node.leader.Some? ::
        ProcOk(d, i) && PeerFloor(d, i, j)
  {
    assert ProcOk(c, i) && ProcOk(Apply(c, CountVote(i, a)), i);
  }

  /** A counted answer moves the next index up to the end of the leader's log, or to the refused request. */
  lemma CountedFloor(n: Node, peer: Proc, start: nat, j: nat, a: AppendAnswer)
    requires n.leader.Some? && j < |n.leader.value.nextIndex| == |n.leader.value.matchIndex|
    requires a.msg.to < |n.leader.value.nextIndex| && |n.log| > 0 && start <= |n.log|
    requires Floor(peer, start, n.term, n.leader.value.nextIndex[j])
    requires j == a.msg.to ==>
      && a.msg.req.prevLogIndex + 1 == n.leader.value.nextIndex[j]
      && (!a.reply.success && a.reply.term <= n.term ==> Floor(peer, start, n.term, a.msg.req.prevLogIndex))
    ensures var m := HandleAppendReply(n, a.msg.to, a.reply);
      && m.leader.Some? && |m.leader.value.nextIndex| == |n.leader.value.nextIndex| && m.term == n.term
      && Floor(peer, start, n.term, m.leader.value.nextIndex[j])
  {
  }

  lemma CounterPeers(c: Cluster, i: nat, a: AppendAnswer)
    requires FloorInv(c) && Enabled(c, CountAppend(i, a), false) && ReplicationInv(Apply(c, CountAppend(i, a)))
    ensures var d := Apply(c, CountAppend(i, a));
      forall j | 0 <= j < |d.procs| && j != i && i < |d.procs| && d.procs[i].node.leader.Some? ::
        ProcOk(d, i) && PeerFloor(d, i, j)
  {
    hide CampaignOk, WireAll, Grafted, Graft, WinOk, PeerOk, Floor, HandleAppendReply;
    var d := Apply(c, CountAppend(i, a));
    assert ProcOk(c, i) && RecordsOk(c, i) && ProcOk(d, i) && SentOk(c, i, a.msg.to);
    assert a.msg in c.appends && AppendOk(c, a.msg) && AnswerFloor(c, a);
    SoleLeader(c, i, a.msg.req.leader, a.msg.req.term);
    var n := c.procs[i].node;
    forall j | 0 <= j < |d.procs| && j != i ensures PeerFloor(d, i, j) {
      assert PeerFloor(c, i, j);
      CountedFloor(n, c.procs[j], |c.procs[i].led[n.term].start|, j, a);
    }
  }

  lemma PeersAfter(c: Cluster, e: Event, i: nat, j: nat)
    requires FloorInv(c) && Enabled(c, e, false) && ReplicationInv(Apply(c, e))
    requires i < |c.procs| && j < |c.procs| && j != i
    requires i < |Apply(c, e).procs| && Apply(c, e).procs[i].node.leader.Some?
    ensures j < |Apply(c, e).procs| && ProcOk(Apply(c, e), i) && PeerFloor(Apply(c, e), i, j)
  {
    var d := Apply(c, e);
    StepLocal(c, e);
    assert ProcOk(c, i) && ProcOk(d, i);
    if e.CountVote? && i == e.i && VerdictOf(c.procs[i], e.vote, |c.procs|).Won? {
      WinnerPeers(c, i, e.vote);
    } else if e.CountAppend? && i == e.i {
      CounterPeers(c, i, e.answer);
    } else {
      LeaderShape(c, e, i);
      OldPeers(c, e, i);
    }
  }

  lemma LeaderShape(c: Cluster, e: Event, i: nat)
    requires ReplicationInv(c) && Enabled(c, e, false) && i < |c.procs|
    requires i == e.i ==> !e.CountAppend? && (e.CountVote? ==> !VerdictOf(c.procs[i], e.vote, |c.procs|).Won?)
    requires i < |Apply(c, e).procs| && Apply(c, e).procs[i].node.leader.Some?
    ensures Apply(c, e).procs[i].node.leader == c.procs[i].node.leader
    ensures Apply(c, e).procs[i].node.term == c.procs[i].node.term
  {
    hide RecordsOk, HandleAppend, WireAll, AfterWin, PrepareAppend, AfterCrashInAppend, AfterAppend, AfterVote;
    hide HandleVote;
    assert ProcOk(c, i);
    if i == e.i {
      match e
      case AnswerVote(_, q) => VoterLeader(c.procs[i], q);
      case AnswerAppend(_, m) => AppendedLeader(c.procs[i], m);
      case CrashInAppend(_, m, written) => CrashedLeader(c.procs[i], m, written);
      case _ =>
    } else {
      StepLocal(c, e);
    }
  }

  lemma VoterLeader(p: Proc, q: VoteRequest)
    requires |p.node.log| > 0
    ensures var x := AfterVote(p, q).node;
      x.leader.None? || (x.leader == p.node.leader && x.term == p.node.term)
  {
  }

  lemma AppendedLeader(p: Proc, m: AppendMsg)
    ensures var q := AfterAppend(p, m); q == p || q.node.leader.None?
  {
  }

  lemma CrashedLeader(p: Proc, m: AppendMsg, written: Option<nat>)
    requires written.Some? ==> Accepts(p.node, m.req) && written.value <= |m.req.entries|
    ensures AfterCrashInAppend(p, m, written).node.leader.None?
  {
  }

  lemma NewRequest(c: Cluster, i: nat, j: nat)
    requires FloorInv(c) && Enabled(c, SendAppend(i, j), false) && ReplicationInv(Apply(c, SendAppend(i, j)))
    ensures var d := Apply(c, SendAppend(i, j));
      forall m | m in d.appends - c.appends :: AppendOk(d, m) && MsgFloor(d, m, m.req.prevLogIndex + 1)
    ensures Apply(c, SendAppend(i, j)).appendAnswers == c.appendAnswers
  {
    hide CampaignOk, EpochOk, LeaderOk, SentOk, WinOk, WireAll, PrepareAppend;
    var d := Apply(c, SendAppend(i, j));
    assert ProcOk(c, i) && RecordsOk(c, i) && PeerFloor(c, i, j);
    SentSlice(c, i, j);
    var m := AppendMsg(j, c.clock, PrepareAppend(c.procs[i].node, i, j));
    assert AppendOk(d, m);
    assert d.procs[i].led == c.procs[i].led && d.procs[j] == c.procs[j];
  }

  lemma MessagesAfter(c: Cluster, e: Event)
    requires FloorInv(c) && Enabled(c, e, false) && ReplicationInv(Apply(c, e))
    ensures var d := Apply(c, e);
      && (forall m | m in d.appends :: AppendOk(d, m) && MsgFloor(d, m, m.req.prevLogIndex + 1))
      && (forall a | a in d.appendAnswers :: AppendOk(d, a.msg) && AnswerFloor(d, a))
  {
    hide ReplicationInv, MsgFloor, AnswerFloor, HandleAppend, AfterAppend, AfterCrashInAppend, PrepareAppend;
    OldMessages(c, e);
    match e
    case SendAppend(i, j) => NewRequest(c, i, j);
    case AnswerAppend(i, m) => NewAnswer(c, i, m);
    case _ => SameMessages(c, e);
  }

  lemma SameMessages(c: Cluster, e: Event)
    requires Enabled(c, e, false) && !e.SendAppend? && !e.AnswerAppend?
    ensures Apply(c, e).appends == c.appends && Apply(c, e).appendAnswers == c.appendAnswers
  {
    hide HandleAppend, AfterAppend, AfterCrashInAppend, PrepareAppend, AfterVote, HandleVote, AfterWin, AfterClient;
  }

  lemma StepKeepsFloors(c: Cluster, e: Event)
    requires |c.procs| >= 2 && FloorInv(c) && Enabled(c, e, false)
    ensures FloorInv(Apply(c, e))
  {
    var d := Apply(c, e);
    StepKeepsReplication(c, e);
    StepLocal(c, e);
    MessagesAfter(c, e);
    GraftsAfter(c, e);
    forall i, j | 0 <= i < |d.procs| && 0 <= j < |d.procs| && j != i && d.procs[i].node.leader.Some?
      ensures ProcOk(d, i) && PeerFloor(d, i, j)
    {
      PeersAfter(c, e, i, j);
    }
  }

  lemma {:induction false} RunKeepsFloors(c: Cluster, events: seq<Event>, ordered: bool)
    requires |c.procs| >= 2 && FloorInv(c) && Run(c, events, ordered).Some?
    ensures FloorInv(Run(c, events, ordered).value) && |Run(c, events, ordered).value.procs| == |c.procs|
    decreases |events|
  {
    if events != [] {
      StepKeepsFloors(c, events[0]);
      StepLocal(c, events[0]);
      RunKeepsFloors(Apply(c, events[0]), events[1..], ordered);
    }
  }

  lemma InitFloors(n: nat)
    ensures FloorInv(Init(n))
  {
    WireTwice([]);
  }

  lemma ReachedFloors(c: Cluster, n: nat, ordered: bool)
    requires Reachable(c, n, ordered)
    ensures FloorInv(c) && |c.procs| == n
  {
    var events :| Run(Init(n), events, ordered) == Some(c);
    InitFloors(n);
    RunKeepsFloors(Init(n), events, ordered);
  }

  /** In every reachable state, whatever the network did: a server no leader wrote to has an empty log. The log of
      any other is what it came with, up to the shorter of that and the log its leader was elected with, and from
      there on what that leader's log has. */
  lemma LogIsGraft(c: Cluster, n: nat, ordered: bool, i: nat)
    requires Reachable(c, n, ordered) && i < n
    ensures |c.procs| == n
    ensures c.procs[i].epoch == 0 ==> c.procs[i].node.log == [SENTINEL]
    ensures c.procs[i].epoch > 0 ==>
      && Leads(c, c.procs[i].source, c.procs[i].epoch)
      && Graft(c.procs[i].base, c.procs[c.procs[i].source].led[c.procs[i].epoch], c.procs[i].node.log)
  {
    hide Graft;
    ReachedFloors(c, n, ordered);
    assert RecordsOk(c, i) && Grafted(c, i);
  }

  lemma PrefixIff(c: Cluster, i: nat)
    requires FloorInv(c) && i < |c.procs| && c.procs[i].epoch > 0
    ensures Leads(c, c.procs[i].source, c.procs[i].epoch)
    ensures var era := c.procs[c.procs[i].source].led[c.procs[i].epoch];
      WireAll(c.procs[i].node.log) <= era.log <==> Comparable(c.procs[i].base, era.start)
  {
    hide FloorInv, WireAll, Graft, Comparable;
    EraOf(c, i);
    var p := c.procs[i];
    GraftIff(p.base, c.procs[p.source].led[p.epoch], p.node.log);
  }

  lemma GraftIff(base: seq<Entry>, era: Era, log: seq<Entry>)
    requires Graft(base, era, log) && era.start <= era.log
    ensures WireAll(log) <= era.log <==> Comparable(base, era.start)
  {
    var k := Shared(base, era.start);
    assert WireAll(log)[..k] == base[..k];
    assert era.start[..k] == era.log[..k];
    assert Comparable(base, era.start) <==> base[..k] == era.start[..k];
    if base[..k] == era.log[..k] {
      assert WireAll(log) == era.log[..k] + era.log[k..|log|] == era.log[..|log|];
    }
    if WireAll(log) <= era.log {
      assert WireAll(log)[..k] == era.log[..k];
    }
  }

  /** So the log of a server a leader wrote to is a prefix of the log of its epoch's leader if and only if the log
      it came with was a prefix or an extension of the log that leader was elected with. */
  lemma EraPrefixIff(c: Cluster, n: nat, ordered: bool, i: nat)
    requires Reachable(c, n, ordered) && i < n
    ensures |c.procs| == n
    ensures c.procs[i].epoch > 0 ==>
      && Leads(c, c.procs[i].source, c.procs[i].epoch)
      && var era := c.procs[c.procs[i].source].led[c.procs[i].epoch];
         WireAll(c.procs[i].node.log) <= era.log <==> Comparable(c.procs[i].base, era.start)
  {
    ReachedFloors(c, n, ordered);
    if c.procs[i].epoch > 0 {
      PrefixIff(c, i);
    }
  }
}
