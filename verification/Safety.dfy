/** State machine safety across any number of leaders. It holds in every run in which each write keeps what was
    acknowledged and keeps a part of the log that agrees with the leader's; the code tests neither. */
module Safety {
  import opened Prelude
  import opened Quorums
  import opened RaftNode
  import opened Cluster
  import opened Elections
  import opened Replication
  import opened EraExact
  import opened Completeness
  import opened Ordered
  import opened Applied

  // ----- the second missing test

  /** The test a write ought to pass: the part of the log it keeps is the beginning of its leader's log. */
  ghost predicate KeepsAgreeing(c: Cluster, e: Event) {
    Writes(c, e) ==>
      && Leads(c, e.m.req.leader, e.m.req.term) && e.m.req.prevLogIndex < |c.procs[e.i].node.log|
      && WireAll(c.procs[e.i].node.log)[..e.m.req.prevLogIndex + 1] <= c.procs[e.m.req.leader].led[e.m.req.term].log
  }

  /** Every server came to the era it is in with a log that was a prefix or an extension of the log the
      era's leader was elected with. */
  ghost predicate JoinsAgree(c: Cluster) {
    forall i | 0 <= i < |c.procs| && c.procs[i].epoch > 0 :: JoinAgrees(c, i)
  }

  ghost predicate JoinAgrees(c: Cluster, i: nat)
    requires i < |c.procs|
  {
    var p := c.procs[i];
    Leads(c, p.source, p.epoch) && Comparable(p.base, c.procs[p.source].led[p.epoch].start)
  }

  /** A run in which every write passes this test. */
  ghost predicate AgreeingRun(c: Cluster, events: seq<Event>)
    decreases |events|
  {
    events == [] ||
    (Enabled(c, events[0], false) && KeepsAgreeing(c, events[0]) && AgreeingRun(Apply(c, events[0]), events[1..]))
  }

  /** Reached by a run in which every write passes both tests. */
  ghost predicate ReachableAgreeing(c: Cluster, n: nat) {
    n >= 2 && exists events :: Run(Init(n), events, false) == Some(c) && KeepingRun(Init(n), events) && AgreeingRun(Init(n), events)
  }

  /** With agreeing joins every log is a prefix of the log of the leader that last wrote it. */
  lemma InEra(c: Cluster, i: nat)
    requires FloorInv(c) && JoinsAgree(c) && i < |c.procs| && c.procs[i].epoch > 0
    ensures Leads(c, c.procs[i].source, c.procs[i].epoch)
    ensures WireAll(c.procs[i].node.log) <= c.procs[c.procs[i].source].led[c.procs[i].epoch].log
  {
    hide FloorInv, WireAll, Comparable;
    assert JoinAgrees(c, i);
    PrefixIff(c, i);
  }

  /** Exactly these runs keep all joins agreeing: from a state where they do, a step keeps that if and only
      if what it writes, if anything, passes the test. */
  lemma TestExact(c: Cluster, e: Event)
    requires |c.procs| >= 2 && FloorInv(c) && JoinsAgree(c) && Enabled(c, e, false)
    ensures JoinsAgree(Apply(c, e)) <==> KeepsAgreeing(c, e)
  {
    hide FloorInv, JoinsAgree, JoinAgrees, KeepsAgreeing, Writes, Apply, Grows;
    var d := Apply(c, e);
    StepKeepsFloors(c, e);
    FloorsGive(c);
    StepGrows(c, e);
    StepLocal(c, e);
    OthersAgree(c, d, e.i);
    if Writes(c, e) {
      WriteExact(c, e);
    } else {
      NothingWritten(c, e);
      QuietJoin(c, e);
    }
  }

  lemma NothingWritten(c: Cluster, e: Event)
    requires !Writes(c, e)
    ensures KeepsAgreeing(c, e)
  {
  }

  /** The joins of the servers a step does not touch stay as they are. */
  lemma OthersAgree(c: Cluster, d: Cluster, k: nat)
    requires ReplicationInv(c) && Grows(c, d) && k < |c.procs| && JoinsAgree(c)
    requires forall i | 0 <= i < |c.procs| && i != k :: d.procs[i] == c.procs[i]
    ensures JoinsAgree(d) <==> (d.procs[k].epoch > 0 ==> JoinAgrees(d, k))
  {
    hide ReplicationInv;
    forall i | 0 <= i < |d.procs| && i != k && d.procs[i].epoch > 0 ensures JoinAgrees(d, i) {
      assert JoinAgrees(c, i) && ProcGrows(c.procs[c.procs[i].source], d.procs[c.procs[i].source]);
    }
  }

  /** Other events keep a server's era, or open one with the server's own log. */
  lemma QuietJoin(c: Cluster, e: Event)
    requires ReplicationInv(c) && Enabled(c, e, false) && !Writes(c, e) && JoinsAgree(c)
    requires Grows(c, Apply(c, e)) && e.i < |Apply(c, e).procs|
    ensures Apply(c, e).procs[e.i].epoch > 0 ==> JoinAgrees(Apply(c, e), e.i)
  {
    hide ReplicationInv, Apply, WireAll, Writes, LogSame, JoinsAgree;
    if Elected(c, e) {
      WonShape(c, e);
    } else {
      if e.ClientRequest? {
        ClientShape(c, e);
      } else {
        QuietShape(c, e);
        SameEra(c.procs[e.i], Apply(c, e).procs[e.i]);
      }
      SameJoin(c, Apply(c, e), e.i);
    }
  }

  lemma SameJoin(c: Cluster, d: Cluster, i: nat)
    requires i < |c.procs| && Grows(c, d) && JoinsAgree(c)
    requires var p, q := c.procs[i], d.procs[i]; q.epoch == p.epoch && q.source == p.source && q.base == p.base
    ensures d.procs[i].epoch > 0 ==> JoinAgrees(d, i)
  {
    if c.procs[i].epoch > 0 {
      assert JoinAgrees(c, i) && ProcGrows(c.procs[c.procs[i].source], d.procs[c.procs[i].source]);
    }
  }

  lemma WriteExact(c: Cluster, e: Event)
    requires FloorInv(c) && Enabled(c, e, false) && FloorInv(Apply(c, e)) && Writes(c, e)
    requires e.i < |Apply(c, e).procs|
    ensures Apply(c, e).procs[e.i].epoch > 0
    ensures KeepsAgreeing(c, e) <==> JoinAgrees(Apply(c, e), e.i)
  {
    hide FloorInv, Apply, WireAll, Accepts, Comparable, ReplicationInv, ElectionInv;
    FloorsGive(c);
    WriteShape(c, e);
    StepLocal(c, e);
    MessageSlice(c, e.m);
    var d, r := Apply(c, e), e.m.req;
    assert d.procs[r.leader] == c.procs[r.leader];
    var era := c.procs[r.leader].led[r.term];
    WrittenEra(c, e);
    PrefixIff(d, e.i);
    TakeOfSlice(era.log, r.prevLogIndex + 1, Total(r), Part(e));
    SplicePrefixIff(c.procs[e.i].node.log, era.log, r.prevLogIndex + 1, r.entries[..Part(e)]);
  }

  lemma WrittenEra(c: Cluster, e: Event)
    requires FloorInv(c) && Enabled(c, e, false) && Writes(c, e) && e.i < |Apply(c, e).procs|
    ensures Apply(c, e).procs[e.i].epoch == e.m.req.term && Apply(c, e).procs[e.i].source == e.m.req.leader
  {
    hide FloorInv, Apply, WireAll, Accepts;
    FloorsGive(c);
    WriteShape(c, e);
    KeptPart(c, e);
  }

  lemma SplicePrefixIff(log: seq<Entry>, era: seq<Entry>, k: nat, more: seq<Entry>)
    requires k <= |log| && k + |more| <= |era| && more == era[k..k + |more|] && WireAll(era) == era
    ensures WireAll(log[..k] + more) <= era <==> WireAll(log)[..k] <= era
  {
    var w := WireAll(log[..k] + more);
    assert w[..k] == WireAll(log)[..k];
    if WireAll(log)[..k] <= era {
      forall x | 0 <= x < |w| ensures w[x] == era[x] {
        if x < k {
          assert w[x] == WireAll(log)[..k][x];
        } else {
          assert more[x - k] == era[x] == WireAll(era)[x];
        }
      }
    }
  }

  // ----- what a majority holds is the leader's

  /** Server `v` has the first `index` entries of the log of term `t`'s leader. */
  ghost predicate Matches(c: Cluster, v: nat, t: nat, index: nat)
    requires v < |c.procs|
  {
    forall l: nat | Leads(c, l, t) ::
      && index < |c.procs[v].node.log| && index < |c.procs[l].led[t].log|
      && WireAll(c.procs[v].node.log)[..index + 1] == c.procs[l].led[t].log[..index + 1]
  }

  /** Whoever holds an index of a term that a majority holds, or may still come to hold, has its content. */
  ghost predicate ContentSafe(c: Cluster) {
    forall t, index, quorum, v |
      Choosable(c, t, index, quorum) && v in quorum && v < |c.procs| && Holds(c, v, t, index) :: Matches(c, v, t, index)
  }

  lemma HeldInEra(c: Cluster, v: nat, t: nat, index: nat, l: nat)
    requires LengthInv(c) && v < |c.procs| && Holds(c, v, t, index) && Leads(c, l, t)
    ensures index < |c.procs[l].led[t].log|
  {
    hide FloorInv, AppendOk, SliceOk;
    LengthGives(c);
    if t in c.procs[v].acked && c.procs[v].acked[t] > index {
      assert AckOk(c, v) && AckSent(c, v, t);
      var m :| m in c.appends && m.to == v && m.req.term == t && Total(m.req) == c.procs[v].acked[t];
      OneLeader(c, l, m);
    } else {
      SoleLeader(c, v, l, t);
    }
  }

  /** A server that comes to hold an index of term `t` does so in the era of `t`. */
  lemma NewHolder(c: Cluster, d: Cluster, v: nat, t: nat, index: nat)
    requires LengthInv(d) && JoinsAgree(d) && v < |c.procs| == |d.procs|
    requires HistoryStep(c.procs[v], d.procs[v]) && !Holds(c, v, t, index) && Holds(d, v, t, index)
    ensures Matches(d, v, t, index)
  {
    hide FloorInv, WireAll, JoinsAgree;
    LengthGives(d);
    NowHolds(c, d, v, t, index);
    InEra(d, v);
    forall l: nat | Leads(d, l, t)
      ensures index < |d.procs[l].led[t].log|
      ensures WireAll(d.procs[v].node.log)[..index + 1] == d.procs[l].led[t].log[..index + 1]
    {
      HeldInEra(d, v, t, index, l);
      SoleLeader(d, d.procs[v].source, l, t);
    }
  }

  lemma NowHolds(c: Cluster, d: Cluster, v: nat, t: nat, index: nat)
    requires LengthInv(d) && v < |c.procs| == |d.procs|
    requires HistoryStep(c.procs[v], d.procs[v]) && !Holds(c, v, t, index) && Holds(d, v, t, index)
    ensures d.procs[v].epoch == t > 0 && |d.procs[v].node.log| > index
  {
    hide FloorInv, LeaderOk, SentOk, CampaignOk, WireAll;
    LengthGives(d);
    assert ProcOk(d, v) && RecordsOk(d, v) && AckOk(d, v);
    assert d.procs[v].node.term == t;
    HoldsNow(d, v, t, index);
  }

  lemma EraOfHolder(c: Cluster, v: nat, t: nat, index: nat) returns (l: nat)
    requires LengthInv(c) && v < |c.procs| && Holds(c, v, t, index)
    ensures Leads(c, l, t)
  {
    hide FloorInv;
    LengthGives(c);
    if t in c.procs[v].acked && c.procs[v].acked[t] > index {
      assert AckOk(c, v) && AckSent(c, v, t);
      var m :| m in c.appends && m.to == v && m.req.term == t && Total(m.req) == c.procs[v].acked[t];
      assert AppendOk(c, m);
      l := m.req.leader;
    } else {
      l := v;
    }
  }

  /** Matching survives while the first entries of the log do. */
  lemma MatchesOn(c: Cluster, d: Cluster, v: nat, t: nat, index: nat)
    requires LengthInv(c) && LengthInv(d) && Grows(c, d) && v < |c.procs| && Holds(c, v, t, index) && Matches(c, v, t, index)
    requires index < |c.procs[v].node.log| && index < |d.procs[v].node.log|
    requires WireAll(c.procs[v].node.log)[..index + 1] == WireAll(d.procs[v].node.log)[..index + 1]
    ensures Matches(d, v, t, index)
  {
    hide LengthInv, WireAll;
    LengthGives(d);
    var o := EraOfHolder(c, v, t, index);
    forall l: nat | Leads(d, l, t)
      ensures index < |d.procs[l].led[t].log|
      ensures WireAll(d.procs[v].node.log)[..index + 1] == d.procs[l].led[t].log[..index + 1]
    {
      assert ProcGrows(c.procs[o], d.procs[o]);
      SoleLeader(d, o, l, t);
    }
  }

  lemma StepContentSafe(c: Cluster, e: Event)
    requires |c.procs| >= 2 && LengthInv(c) && AllSafe(c) && ContentSafe(c)
    requires Enabled(c, e, false) && KeepsAcked(c, e) && JoinsAgree(Apply(c, e))
    ensures ContentSafe(Apply(c, e))
  {
    hide LengthInv, JoinsAgree, Matches, AllSafe, Apply, KeepsAcked;
    var d := Apply(c, e);
    GuardExact(c, e);
    StepAllSafe(c, e);
    forall t, index, quorum, v |
      Choosable(d, t, index, quorum) && v in quorum && v < |d.procs| && Holds(d, v, t, index)
      ensures Matches(d, v, t, index)
    {
      HolderStep(c, e, t, index, quorum, v);
    }
  }

  lemma HolderStep(c: Cluster, e: Event, t: nat, index: nat, quorum: set<nat>, v: nat)
    requires LengthInv(c) && AllSafe(c) && ContentSafe(c)
    requires Enabled(c, e, false) && JoinsAgree(Apply(c, e)) && LengthInv(Apply(c, e)) && AllSafe(Apply(c, e))
    requires Choosable(Apply(c, e), t, index, quorum) && v in quorum && v < |Apply(c, e).procs|
    requires Holds(Apply(c, e), v, t, index)
    ensures Matches(Apply(c, e), v, t, index)
  {
    hide Apply, Matches, JoinsAgree, LengthInv, WireAll, Holds, HistoryStep, Grows, HolderSafe;
    var d := Apply(c, e);
    LengthGives(c);
    LengthGives(d);
    StepGrows(c, e);
    StepLocal(c, e);
    HistoryShape(c, e);
    TermsGrow(c, d, e.i);
    ChoosableBack(c, d, e.i, t, index, quorum);
    assert Safe(c, t, index, quorum) && Safe(d, t, index, quorum);
    if v != e.i {
      HoldsSame(c, d, v, t, index);
      HeldLength(c, v, t, index, quorum);
      MatchesOn(c, d, v, t, index);
    } else if Holds(c, v, t, index) {
      HeldLength(d, v, t, index, quorum);
      HeldStays(c, e, t, index, quorum, v);
      MatchesOn(c, d, v, t, index);
    } else {
      NewHolder(c, d, v, t, index);
    }
  }

  lemma TermsGrow(c: Cluster, d: Cluster, i: nat)
    requires Grows(c, d) && i < |c.procs|
    ensures c.procs[i].node.term <= d.procs[i].node.term
  {
    assert ProcGrows(c.procs[i], d.procs[i]);
  }

  lemma HeldLength(c: Cluster, v: nat, t: nat, index: nat, quorum: set<nat>)
    requires v < |c.procs| && v in quorum && Holds(c, v, t, index) && Safe(c, t, index, quorum)
    ensures index < |c.procs[v].node.log|
  {
    assert HolderSafe(c.procs[v], t, index);
  }

  lemma HoldsSame(c: Cluster, d: Cluster, v: nat, t: nat, index: nat)
    requires v < |c.procs| == |d.procs| && c.procs[v] == d.procs[v] && Holds(d, v, t, index)
    ensures Holds(c, v, t, index)
  {
  }

  // ----- what is applied is what was committed

  /** Server `i` has the content of commit `k` up to its index. */
  ghost predicate Backed(c: Cluster, i: nat, k: Commit)
    requires i < |c.procs|
  {
    && Leads(c, k.leader, k.term)
    && k.index < |c.procs[i].node.log| && k.index < |c.procs[k.leader].led[k.term].log|
    && WireAll(c.procs[i].node.log)[..k.index + 1] == c.procs[k.leader].led[k.term].log[..k.index + 1]
  }

  /** A server's commit index is that of a commit whose content it has. */
  ghost predicate BackedOk(c: Cluster, i: nat)
    requires i < |c.procs|
  {
    c.procs[i].node.commitIndex > 0 ==> exists k :: Sourced(c, i, k) && Backed(c, i, k)
  }

  /** The commit index a request carries is that of a commit whose content its leader's log has. */
  ghost predicate CarriesCommit(c: Cluster, m: AppendMsg) {
    m.req.leaderCommit > 0 ==>
      exists k :: k in c.commits && k.index == m.req.leaderCommit && k.term <= m.req.term && CommitIn(c, m, k)
  }

  ghost predicate CommitIn(c: Cluster, m: AppendMsg, k: Commit) {
    && Leads(c, k.leader, k.term) && Leads(c, m.req.leader, m.req.term)
    && k.index < |c.procs[m.req.leader].led[m.req.term].log| && k.index < |c.procs[k.leader].led[k.term].log|
    && c.procs[m.req.leader].led[m.req.term].log[..k.index + 1] == c.procs[k.leader].led[k.term].log[..k.index + 1]
  }

  ghost predicate SafetyInv(c: Cluster) {
    && RangeInv(c) && ContentSafe(c) && JoinsAgree(c)
    && (forall i | 0 <= i < |c.procs| :: BackedOk(c, i))
    && (forall m | m in c.appends :: CarriesCommit(c, m))
  }

  lemma BackedStays(c: Cluster, d: Cluster, i: nat, k: Commit)
    requires i < |c.procs| && Grows(c, d) && Backed(c, i, k) && k.index < |d.procs[i].node.log|
    requires WireAll(c.procs[i].node.log)[..k.index + 1] <= WireAll(d.procs[i].node.log)
    ensures Backed(d, i, k)
  {
    assert ProcGrows(c.procs[k.leader], d.procs[k.leader]);
  }

  lemma CarriesStays(c: Cluster, d: Cluster, m: AppendMsg)
    requires Grows(c, d) && CarriesCommit(c, m)
    ensures CarriesCommit(d, m)
  {
    hide CommitIn;
    if m.req.leaderCommit > 0 {
      var k :| k in c.commits && k.index == m.req.leaderCommit && k.term <= m.req.term && CommitIn(c, m, k);
      CommitInStays(c, d, m, k);
    }
  }

  lemma CommitInStays(c: Cluster, d: Cluster, m: AppendMsg, k: Commit)
    requires Grows(c, d) && CommitIn(c, m, k)
    ensures CommitIn(d, m, k)
  {
    assert ProcGrows(c.procs[k.leader], d.procs[k.leader]);
    assert ProcGrows(c.procs[m.req.leader], d.procs[m.req.leader]);
    var a, b := c.procs[m.req.leader].led[m.req.term].log, d.procs[m.req.leader].led[m.req.term].log;
    var x, y := c.procs[k.leader].led[k.term].log, d.procs[k.leader].led[k.term].log;
    assert a <= b && x <= y;
    assert b[..k.index + 1] == a[..k.index + 1] == x[..k.index + 1] == y[..k.index + 1];
  }

  /** A server whose commit index stays keeps its commit while its source and the entries up to it stay. */
  lemma BackedSame(c: Cluster, d: Cluster, i: nat)
    requires i < |c.procs| && Grows(c, d) && BackedOk(c, i)
    requires c.procs[i].node.commitIndex == d.procs[i].node.commitIndex < |d.procs[i].node.log|
    requires c.procs[i].node.commitIndex < |c.procs[i].node.log|
    requires WireAll(c.procs[i].node.log)[..c.procs[i].node.commitIndex + 1] <= WireAll(d.procs[i].node.log)
    requires forall k | c.procs[i].node.commitIndex > 0 && Sourced(c, i, k) :: Sourced(d, i, k)
    ensures BackedOk(d, i)
  {
    hide WireAll, Backed, Sourced;
    if c.procs[i].node.commitIndex > 0 {
      var k :| Sourced(c, i, k) && Backed(c, i, k);
      SourcedCommit(c, i, k);
      BackedStays(c, d, i, k);
    }
  }

  lemma SourcedCommit(c: Cluster, i: nat, k: Commit)
    requires i < |c.procs| && Sourced(c, i, k)
    ensures k in c.commits && k.index == c.procs[i].node.commitIndex
  {
  }

  lemma OtherBacked(c: Cluster, d: Cluster, i: nat)
    requires RangeInv(c) && i < |c.procs| && Grows(c, d) && d.procs[i] == c.procs[i] && BackedOk(c, i)
    ensures BackedOk(d, i)
  {
    hide RangeInv, WireAll, BackedOk, Sourced, Grows;
    OkOf(c, i);
    GrowsCommits(c, d);
    TakeOfPrefix(WireAll(c.procs[i].node.log), WireAll(c.procs[i].node.log), c.procs[i].node.commitIndex + 1);
    forall k | Sourced(c, i, k) ensures Sourced(d, i, k) {
      SourceStays(c, d, i, k);
    }
    BackedSame(c, d, i);
  }

  lemma SourceSame(c: Cluster, d: Cluster, i: nat, k: Commit)
    requires i < |c.procs| && Grows(c, d) && CommitSame(c.procs[i], d.procs[i]) && Sourced(c, i, k)
    ensures Sourced(d, i, k)
  {
  }

  /** Events that leave commit bookkeeping alone and only extend the log. */
  lemma QuietBacked(c: Cluster, e: Event)
    requires RangeInv(c) && Enabled(c, e, false) && !Pumping(e) && Grows(c, Apply(c, e)) && e.i < |Apply(c, e).procs|
    requires BackedOk(c, e.i)
    ensures BackedOk(Apply(c, e), e.i)
  {
    hide RangeInv, WireAll, BackedOk, Sourced, Grows, Apply;
    RangeGives(c);
    OkOf(c, e.i);
    SameShape(c, e);
    QuietWrites(c, e);
    LogKept(c, e);
    var p, d := c.procs[e.i], Apply(c, e);
    TakeOfPrefix(WireAll(p.node.log), WireAll(d.procs[e.i].node.log), p.node.commitIndex + 1);
    forall k | Sourced(c, e.i, k) ensures Sourced(d, e.i, k) {
      SourceSame(c, d, e.i, k);
    }
    BackedSame(c, d, e.i);
  }

  lemma RefusedBacked(c: Cluster, e: Event)
    requires RangeInv(c) && Enabled(c, e, false) && e.AnswerAppend? && !Writes(c, e) && Grows(c, Apply(c, e))
    requires e.i < |Apply(c, e).procs| && BackedOk(c, e.i)
    ensures BackedOk(Apply(c, e), e.i)
  {
    hide RangeInv, WireAll, BackedOk, Sourced, Grows, Apply, HandleAppend;
    RangeGives(c);
    OkOf(c, e.i);
    var p, d := c.procs[e.i], Apply(c, e);
    AnsweredNode(c, e.i, e.m);
    assert e == AnswerAppend(e.i, e.m);
    QuietShape(c, e);
    SameEra(p, d.procs[e.i]);
    LeaderCommitBelow(c, e.m);
    AppendPumps(p.node, e.m.req);
    TakeOfPrefix(WireAll(p.node.log), WireAll(d.procs[e.i].node.log), p.node.commitIndex + 1);
    forall k | p.node.commitIndex > 0 && Sourced(c, e.i, k) ensures Sourced(d, e.i, k) {
      RefusedSource(c, e, k);
    }
    BackedSame(c, d, e.i);
  }

  lemma RefusedSource(c: Cluster, e: Event, k: Commit)
    requires ReplicationInv(c) && Enabled(c, e, false) && e.AnswerAppend? && Grows(c, Apply(c, e))
    requires e.i < |Apply(c, e).procs| && Sourced(c, e.i, k)
    requires Apply(c, e).procs[e.i].node.commitIndex == c.procs[e.i].node.commitIndex > 0
    ensures Sourced(Apply(c, e), e.i, k)
  {
    hide ReplicationInv, Sourced, Grows, Apply, HandleAppend;
    AnsweredNode(c, e.i, e.m);
    assert e == AnswerAppend(e.i, e.m);
    if e.m.req.term < c.procs[e.i].node.term {
      StaleNode(c, e.i, e.m);
      SourceStays(c, Apply(c, e), e.i, k);
    } else {
      AppendNode(c.procs[e.i].node, e.m.req);
      OldSource(c, Apply(c, e), e.i, e.m, k);
    }
  }

  lemma AcceptedBacked(c: Cluster, e: Event)
    requires SafetyInv(c) && Enabled(c, e, false) && e.AnswerAppend? && Writes(c, e) && KeepsAcked(c, e)
    requires Grows(c, Apply(c, e)) && FloorInv(Apply(c, e)) && JoinsAgree(Apply(c, e)) && e.i < |Apply(c, e).procs|
    ensures BackedOk(Apply(c, e), e.i)
  {
    hide RangeInv, FloorInv, JoinsAgree, ContentSafe, WireAll, BackedOk, Sourced, Grows, Apply, Writes, KeepsAcked;
    RangeGives(c);
    OkOf(c, e.i);
    AcceptedNode(c, e);
    assert BackedOk(c, e.i);
    var p, d := c.procs[e.i], Apply(c, e);
    if p.node.commitIndex < e.m.req.leaderCommit {
      WrittenEra(c, e);
      BroughtCommit(c, d, e.i, e.m);
    } else {
      AppliedKept(c, e);
      forall k | p.node.commitIndex > 0 && Sourced(c, e.i, k) ensures Sourced(d, e.i, k) {
        OldSource(c, d, e.i, e.m, k);
      }
      BackedSame(c, d, e.i);
    }
  }

  /** The commit index an accepted append brings is that of a commit whose content is now in the log. */
  lemma BroughtCommit(c: Cluster, d: Cluster, i: nat, m: AppendMsg)
    requires SafetyInv(c) && FloorInv(d) && JoinsAgree(d) && Grows(c, d) && i < |d.procs| && m in c.appends
    requires d.procs[i].node.term == m.req.term && d.procs[i].epoch == m.req.term && d.procs[i].source == m.req.leader
    requires 0 < d.procs[i].node.commitIndex == m.req.leaderCommit < |d.procs[i].node.log|
    requires m.req.term in d.procs[i].acked && d.procs[i].acked[m.req.term] > m.req.leaderCommit
    ensures BackedOk(d, i)
  {
    hide RangeInv, FloorInv, ContentSafe, JoinsAgree, WireAll, CommitIn, Grows, BackedOk;
    RangeGives(c);
    assert CarriesCommit(c, m);
    CarriesStays(c, d, m);
    MessageSlice(c, m);
    InEra(d, i);
    var k :| k in d.commits && k.index == m.req.leaderCommit && k.term <= m.req.term && CommitIn(d, m, k);
    InBacked(d, i, m, k);
    assert Sourced(d, i, k);
    SomeBacked(d, i, k);
  }

  lemma SomeBacked(c: Cluster, i: nat, k: Commit)
    requires i < |c.procs| && Sourced(c, i, k) && Backed(c, i, k)
    ensures BackedOk(c, i)
  {
  }

  lemma InBacked(d: Cluster, i: nat, m: AppendMsg, k: Commit)
    requires i < |d.procs| && CommitIn(d, m, k) && k.index < |d.procs[i].node.log|
    requires WireAll(d.procs[i].node.log) <= d.procs[m.req.leader].led[m.req.term].log
    ensures Backed(d, i, k)
  {
    hide WireAll;
  }

  /** A leader's own commit is backed by its own era. */
  lemma RoundBacked(c: Cluster, e: Event)
    requires |c.procs| >= 2 && RangeInv(c) && Enabled(c, e, false) && e.CommitRound? && BackedOk(c, e.i)
    requires Grows(c, Apply(c, e)) && e.i < |Apply(c, e).procs|
    ensures BackedOk(Apply(c, e), e.i)
  {
    hide RangeInv, WireAll, BackedOk, Grows, Apply;
    RangeGives(c);
    OkOf(c, e.i);
    RoundShape(c, e);
    var n, d := c.procs[e.i].node, Apply(c, e);
    if n.commitIndex < e.index {
      var k :| k in d.commits && k.index == e.index && k.term == n.term && k.leader == e.i;
      OwnEra(c, e.i);
      assert Sourced(d, e.i, k) && Backed(d, e.i, k);
      SomeBacked(d, e.i, k);
    } else {
      TakeOfPrefix(WireAll(n.log), WireAll(d.procs[e.i].node.log), n.commitIndex + 1);
      GrowsCommits(c, d);
      BackedSame(c, d, e.i);
    }
  }

  lemma OwnEra(c: Cluster, i: nat)
    requires ElectionInv(c) && i < |c.procs| && c.procs[i].node.leader.Some?
    ensures Leads(c, i, c.procs[i].node.term)
    ensures c.procs[i].led[c.procs[i].node.term].log == WireAll(c.procs[i].node.log)
  {
    assert ProcOk(c, i);
  }

  lemma OwnBacked(c: Cluster, e: Event)
    requires |c.procs| >= 2 && SafetyInv(c) && Enabled(c, e, false) && KeepsAcked(c, e)
    requires Grows(c, Apply(c, e)) && FloorInv(Apply(c, e)) && JoinsAgree(Apply(c, e)) && e.i < |Apply(c, e).procs|
    ensures BackedOk(Apply(c, e), e.i)
  {
    hide RangeInv, FloorInv, JoinsAgree, ContentSafe, BackedOk, Grows, Apply, Writes, KeepsAcked, CarriesCommit;
    assert BackedOk(c, e.i);
    if e.AnswerAppend? {
      if Writes(c, e) {
        AcceptedBacked(c, e);
      } else {
        RefusedBacked(c, e);
      }
    } else if e.CommitRound? {
      RoundBacked(c, e);
    } else if e.Crash? || e.CrashInAppend? {
      RangeGives(c);
      CrashShape(c, e);
      RestartedBacked(Apply(c, e), e.i);
    } else {
      QuietBacked(c, e);
    }
  }

  lemma RestartedBacked(c: Cluster, i: nat)
    requires i < |c.procs| && Restarted(c.procs[i].node)
    ensures BackedOk(c, i)
  {
  }

  // ----- every step of an agreeing run

  lemma SentCarries(c: Cluster, e: Event)
    requires SafetyInv(c) && Enabled(c, e, false) && Grows(c, Apply(c, e))
    ensures forall m | m in Apply(c, e).appends :: CarriesCommit(Apply(c, e), m)
  {
    hide RangeInv, ContentSafe, JoinsAgree, CarriesCommit, Apply, Grows;
    RangeGives(c);
    var d := Apply(c, e);
    forall m | m in d.appends ensures CarriesCommit(d, m) {
      if m in c.appends {
        CarriesStays(c, d, m);
      } else {
        SentLength(c, e, m);
        assert BackedOk(c, e.i);
        NewCarries(c, d, e.i, m);
      }
    }
  }

  lemma NewCarries(c: Cluster, d: Cluster, i: nat, m: AppendMsg)
    requires i < |c.procs| && BackedOk(c, i) && Grows(c, d) && m.req.leader == i && Leads(c, i, m.req.term)
    requires m.req.leaderCommit == c.procs[i].node.commitIndex && m.req.term == c.procs[i].node.term
    requires c.procs[i].led[m.req.term].log == WireAll(c.procs[i].node.log)
    ensures CarriesCommit(d, m)
  {
    hide WireAll;
    if m.req.leaderCommit > 0 {
      var k :| Sourced(c, i, k) && Backed(c, i, k);
      assert CommitIn(c, m, k);
      CommitInStays(c, d, m, k);
    }
  }

  lemma StepKeepsSafety(c: Cluster, e: Event)
    requires |c.procs| >= 2 && SafetyInv(c) && Enabled(c, e, false) && KeepsAcked(c, e) && JoinsAgree(Apply(c, e))
    ensures SafetyInv(Apply(c, e))
  {
    hide RangeInv, ContentSafe, JoinsAgree, BackedOk, CarriesCommit, Apply, Grows, KeepsAcked;
    var d := Apply(c, e);
    RangeGives(c);
    StepKeepsRange(c, e);
    RangeGives(d);
    StepContentSafe(c, e);
    StepGrows(c, e);
    StepLocal(c, e);
    SentCarries(c, e);
    OwnBacked(c, e);
    forall i | 0 <= i < |d.procs| ensures BackedOk(d, i) {
      if i != e.i {
        OtherBacked(c, d, i);
      }
    }
  }

  lemma {:induction false} AgreeingRunSafe(c: Cluster, events: seq<Event>)
    requires |c.procs| >= 2 && SafetyInv(c) && KeepingRun(c, events) && AgreeingRun(c, events)
    ensures Run(c, events, false).Some? && SafetyInv(Run(c, events, false).value)
    decreases |events|
  {
    hide SafetyInv, Apply, KeepsAcked, KeepsAgreeing;
    if events != [] {
      SafetyGives(c);
      TestExact(c, events[0]);
      StepKeepsSafety(c, events[0]);
      StepLocal(c, events[0]);
      AgreeingRunSafe(Apply(c, events[0]), events[1..]);
    }
  }

  lemma SafetyGives(c: Cluster)
    requires SafetyInv(c)
    ensures RangeInv(c) && LengthInv(c) && AllSafe(c) && FloorInv(c) && ContentSafe(c) && JoinsAgree(c) && ReplicationInv(c)
  {
  }

  lemma InitSafety(n: nat)
    ensures SafetyInv(Init(n))
  {
    InitRange(n);
    forall v: nat, t: nat, index: nat | v < n ensures !Holds(Init(n), v, t, index) {
    }
  }

  lemma ReachedSafety(c: Cluster, n: nat)
    requires ReachableAgreeing(c, n)
    ensures SafetyInv(c) && |c.procs| == n >= 2 && ReachableKeeping(c, n)
  {
    hide SafetyInv, Apply, Run, AgreeingRun, KeepingRun;
    var events :| Run(Init(n), events, false) == Some(c) && KeepingRun(Init(n), events) && AgreeingRun(Init(n), events);
    InitSafety(n);
    AgreeingRunSafe(Init(n), events);
    ReachedSafe(c, n);
  }

  /** In order, only the second test remains to be passed. */
  lemma OrderedAgrees(c: Cluster, n: nat, events: seq<Event>)
    requires n >= 2 && Run(Init(n), events, true) == Some(c) && AgreeingRun(Init(n), events)
    ensures ReachableAgreeing(c, n)
  {
    hide OrderInv, Run, AgreeingRun, KeepingRun;
    InitOrder(n);
    OrderedRun(Init(n), events);
  }

  // ----- state machine safety

  /** The content of any two commits agrees, whichever leaders made them: the shorter is a prefix of the longer. */
  lemma CommitsAgree(c: Cluster, n: nat, k: Commit, h: Commit)
    requires ReachableAgreeing(c, n) && k in c.commits && h in c.commits
    ensures Leads(c, k.leader, k.term) && Leads(c, h.leader, h.term)
    ensures k.index < |c.procs[k.leader].led[k.term].log| && h.index < |c.procs[h.leader].led[h.term].log|
    ensures Comparable(c.procs[k.leader].led[k.term].log[..k.index + 1], c.procs[h.leader].led[h.term].log[..h.index + 1])
  {
    ReachedSafety(c, n);
    SafetyGives(c);
    CommitsComparable(c, k, h);
  }

  lemma CommitsComparable(c: Cluster, k: Commit, h: Commit)
    requires ReplicationInv(c) && ContentSafe(c) && k in c.commits && h in c.commits
    ensures Leads(c, k.leader, k.term) && Leads(c, h.leader, h.term)
    ensures k.index < |c.procs[k.leader].led[k.term].log| && h.index < |c.procs[h.leader].led[h.term].log|
    ensures Comparable(c.procs[k.leader].led[k.term].log[..k.index + 1], c.procs[h.leader].led[h.term].log[..h.index + 1])
  {
    hide ElectionInv, RecordsOk, WireAll, Comparable, ContentSafe;
    assert CommitOk(c, k) && CommitOk(c, h);
    var v := MajoritiesMeet(k.holders, h.holders, |c.procs|);
    CommitMatches(c, k, v);
    CommitMatches(c, h, v);
    TakesCompare(WireAll(c.procs[v].node.log), k.index + 1, h.index + 1);
  }

  lemma CommitMatches(c: Cluster, k: Commit, v: nat)
    requires ContentSafe(c) && CommitOk(c, k) && v in k.holders
    ensures v < |c.procs| && Leads(c, k.leader, k.term)
    ensures k.index < |c.procs[v].node.log| && k.index < |c.procs[k.leader].led[k.term].log|
    ensures WireAll(c.procs[v].node.log)[..k.index + 1] == c.procs[k.leader].led[k.term].log[..k.index + 1]
  {
    hide WireAll;
    assert Holds(c, v, k.term, k.index) && Choosable(c, k.term, k.index, k.holders);
    assert Matches(c, v, k.term, k.index);
  }

  lemma TakesCompare(s: seq<Entry>, a: nat, b: nat)
    requires a <= |s| && b <= |s|
    ensures Comparable(s[..a], s[..b])
  {
  }

  /** State machine safety, over time: of what server `i` has applied at some moment since it started, and what
      server `j` has applied at the same or any later moment since it last started, one is a prefix of the other,
      whatever crashed and whoever led in between. */
  lemma AppliedAgree(c: Cluster, n: nat, events: seq<Event>, i: nat, j: nat)
    requires ReachableAgreeing(c, n) && KeepingRun(c, events) && AgreeingRun(c, events) && i < n && j < n
    ensures |c.procs| == n && Run(c, events, false).Some? && |Run(c, events, false).value.procs| == n
    ensures Comparable(WireAll(c.procs[i].node.queue), WireAll(Run(c, events, false).value.procs[j].node.queue))
  {
    hide SafetyInv, AllSafe, LengthInv, KeepingRun, AgreeingRun, Run, Grows, WireAll, Comparable;
    ReachedSafety(c, n);
    AgreeingRunSafe(c, events);
    SafetyGives(c);
    RunSafe(c, events);
    GrowsCommits(c, Run(c, events, false).value);
    QueuesCompare(c, Run(c, events, false).value, i, j);
  }

  /** What a server applied is the content of a commit. */
  lemma QueueContent(c: Cluster, i: nat) returns (k: Commit)
    requires SafetyInv(c) && i < |c.procs| && c.procs[i].node.commitIndex > 0
    ensures k in c.commits && Leads(c, k.leader, k.term) && k.index < |c.procs[k.leader].led[k.term].log|
    ensures WireAll(c.procs[i].node.queue) == c.procs[k.leader].led[k.term].log[..k.index + 1][1..]
  {
    hide RangeInv, ContentSafe, JoinsAgree, WireAll, CarriesCommit;
    OkOf(c, i);
    assert BackedOk(c, i);
    k :| Sourced(c, i, k) && Backed(c, i, k);
    assert WireAll(c.procs[i].node.queue) == WireAll(c.procs[i].node.log)[..k.index + 1][1..];
  }

  lemma QueuesCompare(c: Cluster, d: Cluster, i: nat, j: nat)
    requires SafetyInv(c) && SafetyInv(d) && Grows(c, d) && i < |c.procs| && j < |d.procs|
    ensures Comparable(WireAll(c.procs[i].node.queue), WireAll(d.procs[j].node.queue))
  {
    hide SafetyInv, WireAll, Comparable;
    if c.procs[i].node.commitIndex > 0 && d.procs[j].node.commitIndex > 0 {
      var k := QueueContent(c, i);
      var h := QueueContent(d, j);
      SafetyGives(d);
      CommitsComparable(d, k, h);
      assert ProcGrows(c.procs[k.leader], d.procs[k.leader]);
      LaterTake(c.procs[k.leader].led[k.term].log, d.procs[k.leader].led[k.term].log, k.index + 1);
      TailsCompare(d.procs[k.leader].led[k.term].log[..k.index + 1], d.procs[h.leader].led[h.term].log[..h.index + 1]);
    } else {
      EmptyQueue(c, i);
      EmptyQueue(d, j);
      EmptyCompares(WireAll(c.procs[i].node.queue), WireAll(d.procs[j].node.queue));
    }
  }

  lemma LaterTake(a: seq<Entry>, b: seq<Entry>, k: nat)
    requires a <= b && k <= |a|
    ensures a[..k] == b[..k]
  {
  }

  lemma EmptyQueue(c: Cluster, i: nat)
    requires SafetyInv(c) && i < |c.procs|
    ensures c.procs[i].node.commitIndex == 0 ==> WireAll(c.procs[i].node.queue) == []
  {
    OkOf(c, i);
  }

  lemma EmptyCompares(a: seq<Entry>, b: seq<Entry>)
    requires a == [] || b == []
    ensures Comparable(a, b)
  {
  }

  lemma TailsCompare(a: seq<Entry>, b: seq<Entry>)
    requires |a| > 0 && |b| > 0 && Comparable(a, b)
    ensures Comparable(a[1..], b[1..])
  {
  }
}
