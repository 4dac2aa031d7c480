/** Runs in which every write passes the second test by itself: those with one won election, and all runs of two
    servers, over any network. */
module Eras {
  import opened Prelude
  import opened Quorums
  import opened RaftNode
  import opened Cluster
  import opened Elections
  import opened Replication
  import opened EraExact
  import opened Completeness
  import opened Safety

  // ----- one won election

  ghost predicate FreshStarts(c: Cluster) {
    forall i, t | 0 <= i < |c.procs| && t in c.procs[i].led :: c.procs[i].led[t].start == [SENTINEL]
  }

  lemma OnlyWin(s: set<Win>, w: Win)
    requires |s| <= 1 && w in s
    ensures s == {w}
  {
    assert |s - {w}| == 0;
    assert s == {w} + (s - {w});
  }

  lemma WinsFew(a: set<Win>, b: set<Win>)
    requires a <= b && |b| <= 1
    ensures |a| <= 1
  {
    assert b == a + (b - a);
  }

  lemma EpochWon(c: Cluster, i: nat) returns (w: Win)
    requires ReplicationInv(c) && i < |c.procs| && c.procs[i].epoch > 0
    ensures w in c.wins && w.term == c.procs[i].epoch && w.leader == c.procs[i].source
  {
    assert RecordsOk(c, i) && ProcOk(c, c.procs[i].source);
    w :| w in c.wins && w.term == c.procs[i].epoch && w.leader == c.procs[i].source;
  }

  lemma SenderWon(c: Cluster, m: AppendMsg) returns (w: Win)
    requires ElectionInv(c) && m in c.appends
    ensures w in c.wins && w.term == m.req.term && w.leader == m.req.leader
    ensures Leads(c, m.req.leader, m.req.term) && m.to != m.req.leader
  {
    assert AppendOk(c, m) && ProcOk(c, m.req.leader);
    w :| w in c.wins && w.term == m.req.term && w.leader == m.req.leader;
  }

  /** The only winner so far never cuts into a log that disagrees with its own. */
  lemma SoleAgrees(c: Cluster, e: Event)
    requires FloorInv(c) && JoinsAgree(c) && FreshStarts(c) && |c.wins| <= 1 && Enabled(c, e, false)
    ensures KeepsAgreeing(c, e)
  {
    hide FloorInv, JoinsAgree, FreshStarts, WireAll, Accepts, Apply;
    if Writes(c, e) {
      FloorsGive(c);
      WriteShape(c, e);
      var w := Sender(c, e.m);
      if c.procs[e.i].epoch > 0 {
        InEra(c, e.i);
        var v := EpochWon(c, e.i);
        OnlyWin(c.wins, w);
      } else {
        EmptyLog(c, e.i, e.m);
      }
    }
  }

  lemma Sender(c: Cluster, m: AppendMsg) returns (w: Win)
    requires ReplicationInv(c) && m in c.appends
    ensures w in c.wins && w.term == m.req.term && w.leader == m.req.leader
    ensures Leads(c, m.req.leader, m.req.term) && m.to != m.req.leader
  {
    w := SenderWon(c, m);
  }

  lemma EmptyLog(c: Cluster, i: nat, m: AppendMsg)
    requires ReplicationInv(c) && FreshStarts(c) && i < |c.procs| && c.procs[i].epoch == 0 && m in c.appends
    ensures Leads(c, m.req.leader, m.req.term)
    ensures |c.procs[i].node.log| == 1 && WireAll(c.procs[i].node.log)[..1] == WireAll(c.procs[i].node.log)
    ensures WireAll(c.procs[i].node.log) <= c.procs[m.req.leader].led[m.req.term].log
  {
    assert AppendOk(c, m) && RecordsOk(c, i) && RecordsOk(c, m.req.leader);
    WireTwice([]);
  }

  lemma FreshStep(c: Cluster, e: Event)
    requires ReplicationInv(c) && FreshStarts(c) && Enabled(c, e, false) && |Apply(c, e).wins| <= 1
    ensures FreshStarts(Apply(c, e))
  {
    hide ReplicationInv, FreshStarts, Apply;
    var d := Apply(c, e);
    StepLocal(c, e);
    forall i, t | 0 <= i < |d.procs| && t in d.procs[i].led ensures d.procs[i].led[t].start == [SENTINEL] {
      if i == e.i {
        StartStep(c, e, t);
      } else {
        FreshStart(c, i, t);
      }
    }
    FreshFrom(d);
  }

  lemma FreshFrom(c: Cluster)
    requires forall i, t | 0 <= i < |c.procs| && t in c.procs[i].led :: c.procs[i].led[t].start == [SENTINEL]
    ensures FreshStarts(c)
  {
  }

  lemma FreshStart(c: Cluster, i: nat, t: nat)
    requires FreshStarts(c) && Leads(c, i, t)
    ensures c.procs[i].led[t].start == [SENTINEL]
  {
  }

  lemma StartStep(c: Cluster, e: Event, t: nat)
    requires ReplicationInv(c) && FreshStarts(c) && Enabled(c, e, false) && |Apply(c, e).wins| <= 1
    requires e.i < |Apply(c, e).procs| && t in Apply(c, e).procs[e.i].led
    ensures Apply(c, e).procs[e.i].led[t].start == [SENTINEL]
  {
    hide ReplicationInv, FreshStarts, Apply;
    Gives(c);
    StepGrowsProc(c, e);
    if t in c.procs[e.i].led {
      FreshStart(c, e.i, t);
      assert ProcGrows(c.procs[e.i], Apply(c, e).procs[e.i]);
    } else {
      OnlyElections(c, e, t);
      NewStart(c, e, t);
    }
  }

  lemma Gives(c: Cluster)
    requires ReplicationInv(c)
    ensures ElectionInv(c)
  {
  }

  /** A new era is opened by a won election. */
  lemma OnlyElections(c: Cluster, e: Event, t: nat)
    requires ReplicationInv(c) && Enabled(c, e, false)
    requires e.i < |Apply(c, e).procs| && t in Apply(c, e).procs[e.i].led && t !in c.procs[e.i].led
    ensures Elected(c, e)
  {
    hide ReplicationInv, Apply, Writes, WireAll, Elected, LogSame;
    if Writes(c, e) {
      WriteShape(c, e);
    } else if e.ClientRequest? {
      ClientShape(c, e);
    } else if !Elected(c, e) {
      QuietShape(c, e);
      SameEra(c.procs[e.i], Apply(c, e).procs[e.i]);
    }
  }

  lemma NewStart(c: Cluster, e: Event, t: nat)
    requires ReplicationInv(c) && Elected(c, e) && |Apply(c, e).wins| <= 1
    requires e.i < |Apply(c, e).procs| && t in Apply(c, e).procs[e.i].led && t !in c.procs[e.i].led
    ensures Apply(c, e).procs[e.i].led[t].start == [SENTINEL]
  {
    hide Apply, LeaderOk, SentOk, WireAll;
    WonShape(c, e);
    var w := Win(c.procs[e.i].node.term, e.i, Granted(c.procs[e.i], e.vote));
    GrantedVoted(c, e.i, e.vote);
    FirstWin(c, e.i, w);
    assert RecordsOk(c, e.i);
    WireTwice([]);
  }

  lemma FirstWin(c: Cluster, i: nat, w: Win)
    requires ReplicationInv(c) && i < |c.procs| && |c.procs[i].node.log| > 0 && |c.wins + {w}| <= 1
    requires c.procs[i].mode.Campaigning?
    requires w.term == c.procs[i].node.term && |w.voters| > |c.procs| / 2
    requires forall v | v in w.voters :: Voted(c, v, RequestOf(c.procs[i].node, i))
    ensures c.procs[i].epoch == 0
  {
    forall v | v in c.wins ensures v.term != w.term {
      NewTerm(c, i, w.voters, v);
    }
    OnlyWin(c.wins + {w}, w);
    assert c.wins == {};
    NoEpoch(c, i);
  }

  lemma NoEpoch(c: Cluster, i: nat)
    requires ReplicationInv(c) && i < |c.procs| && c.wins == {}
    ensures c.procs[i].epoch == 0
  {
    assert RecordsOk(c, i);
    assert c.procs[i].epoch > 0 ==> ProcOk(c, c.procs[i].source);
  }

  /** A run with at most one won election, from a state where the joins agree. */
  lemma {:induction false} SoleRun(c: Cluster, events: seq<Event>)
    requires |c.procs| >= 2 && FloorInv(c) && JoinsAgree(c) && FreshStarts(c) && Run(c, events, false).Some?
    requires |Run(c, events, false).value.wins| <= 1
    ensures AgreeingRun(c, events)
    ensures var d := Run(c, events, false).value; FloorInv(d) && JoinsAgree(d) && FreshStarts(d) && |d.procs| == |c.procs|
    decreases |events|
  {
    hide FloorInv, FreshStarts, JoinsAgree, Apply, KeepsAgreeing;
    RunWins(c, events);
    if events != [] {
      var e := events[0];
      var d := Apply(c, e);
      RunWins(d, events[1..]);
      WinsFew(d.wins, Run(c, events, false).value.wins);
      StepLocal(c, e);
      WinsFew(c.wins, d.wins);
      FloorsGive(c);
      SoleAgrees(c, e);
      TestExact(c, e);
      StepKeepsFloors(c, e);
      FreshStep(c, e);
      SoleRun(d, events[1..]);
    }
  }

  lemma {:induction false} RunWins(c: Cluster, events: seq<Event>)
    requires Run(c, events, false).Some?
    ensures c.wins <= Run(c, events, false).value.wins
    decreases |events|
  {
    hide Apply;
    if events != [] {
      StepLocal(c, events[0]);
      RunWins(Apply(c, events[0]), events[1..]);
    }
  }

  lemma SoleEraRun(n: nat, events: seq<Event>)
    requires n >= 2 && Run(Init(n), events, false).Some? && |Run(Init(n), events, false).value.wins| <= 1
    ensures AgreeingRun(Init(n), events)
    ensures var c := Run(Init(n), events, false).value; FloorInv(c) && JoinsAgree(c) && FreshStarts(c) && |c.procs| == n
  {
    hide FloorInv, JoinsAgree, FreshStarts, Run, AgreeingRun;
    InitFloors(n);
    FreshInit(n);
    SoleRun(Init(n), events);
  }

  lemma FreshInit(n: nat)
    ensures FreshStarts(Init(n)) && JoinsAgree(Init(n))
  {
  }

  /** Until a second election is won, every run passes the second test. */
  lemma SoleEraAgrees(c: Cluster, n: nat)
    requires ReachableKeeping(c, n) && |c.wins| <= 1
    ensures ReachableAgreeing(c, n)
  {
    hide FloorInv, JoinsAgree, FreshStarts, Run, AgreeingRun, KeepingRun;
    var events :| Run(Init(n), events, false) == Some(c) && KeepingRun(Init(n), events);
    SoleEraRun(n, events);
  }

  /** While at most one election has been won, every log is a prefix of that one leader's log, whatever is lost,
      repeated or overtaken, and wherever crashes fall. */
  lemma SoleEraLogs(c: Cluster, n: nat, ordered: bool, i: nat)
    requires Reachable(c, n, ordered) && |c.wins| <= 1 && i < n
    ensures |c.procs| == n
    ensures c.procs[i].node.log == [SENTINEL] ||
      (Leads(c, c.procs[i].source, c.procs[i].epoch)
       && WireAll(c.procs[i].node.log) <= c.procs[c.procs[i].source].led[c.procs[i].epoch].log)
  {
    hide FloorInv, JoinsAgree, FreshStarts, Run, AgreeingRun, WireAll;
    var events := ReachedUnordered(c, n, ordered);
    SoleEraRun(n, events);
    if c.procs[i].epoch > 0 {
      InEra(c, i);
    } else {
      FloorsGive(c);
      Empty(c, i);
    }
  }

  lemma Empty(c: Cluster, i: nat)
    requires ReplicationInv(c) && i < |c.procs| && c.procs[i].epoch == 0
    ensures c.procs[i].node.log == [SENTINEL]
  {
    assert RecordsOk(c, i);
  }

  /** While at most one election has been won, of the sequences two servers applied, at whatever two moments, one is
      a prefix of the other. */
  lemma SoleEraApplied(c: Cluster, n: nat, events: seq<Event>, i: nat, j: nat)
    requires ReachableKeeping(c, n) && KeepingRun(c, events) && i < n && j < n
    requires Run(c, events, false).Some? && |Run(c, events, false).value.wins| <= 1
    ensures |c.procs| == n == |Run(c, events, false).value.procs|
    ensures Comparable(WireAll(c.procs[i].node.queue), WireAll(Run(c, events, false).value.procs[j].node.queue))
  {
    hide FloorInv, JoinsAgree, FreshStarts, Run, AgreeingRun, KeepingRun, WireAll, Comparable;
    var start :| Run(Init(n), start, false) == Some(c) && KeepingRun(Init(n), start);
    RunWins(c, events);
    WinsFew(c.wins, Run(c, events, false).value.wins);
    SoleEraRun(n, start);
    SoleRun(c, events);
    AppliedAgree(c, n, events, i, j);
  }

  // ----- two servers

  /** No server that won an election, whichever, is in a term before it, if there are two servers. */
  lemma AllVoted(c: Cluster, v: nat, w: Win)
    requires ElectionInv(c) && |c.procs| == 2 && v < 2 && w in c.wins
    ensures c.procs[v].node.term >= w.term
  {
    assert WinOk(c, w) && ProcOk(c, v);
    BothVoted(w.voters, v);
    assert Voted(c, v, VoteRequest(w.term, w.leader, |c.procs[w.leader].led[w.term].start| - 1, 0));
  }

  lemma BothVoted(s: set<nat>, v: nat)
    requires Majority(s, 2) && v < 2
    ensures v in s
  {
    if v !in s {
      SubsetSize(s, {1 - v});
    }
  }

  ghost predicate LastWin(c: Cluster, w: Win) {
    w in c.wins && forall x | x in c.wins :: x.term <= w.term
  }

  /** The last winner's log is that of its era, and extends the other server's. */
  ghost predicate LastLeads(c: Cluster, w: Win) {
    && Leads(c, w.leader, w.term)
    && WireAll(c.procs[w.leader].node.log) == c.procs[w.leader].led[w.term].log
    && forall v | 0 <= v < |c.procs| :: WireAll(c.procs[v].node.log) <= WireAll(c.procs[w.leader].node.log)
  }

  /** A vote in a term that is not won yet went to a candidate whose log is at least as long. */
  ghost predicate VoteCovers(c: Cluster, v: nat, t: nat)
    requires v < |c.procs| && t in c.procs[v].votes
  {
    (exists w | w in c.wins :: w.term >= t) || |c.procs[v].node.log| <= c.procs[v].votes[t].lastLogIndex + 1
  }

  ghost predicate TwoInv(c: Cluster) {
    && |c.procs| == 2 && FloorInv(c) && JoinsAgree(c)
    && (forall w | LastWin(c, w) :: LastLeads(c, w))
    && (forall v, t | 0 <= v < |c.procs| && t in c.procs[v].votes :: VoteCovers(c, v, t))
  }

  /** Only the last winner's appends are accepted, and they agree. */
  lemma TwoAgree(c: Cluster, e: Event)
    requires TwoInv(c) && Enabled(c, e, false)
    ensures KeepsAgreeing(c, e)
  {
    hide FloorInv, JoinsAgree, WireAll, LastWin, Accepts, Apply;
    FloorsGive(c);
    if Writes(c, e) {
      WriteShape(c, e);
      var w := Sender(c, e.m);
      AcceptsLast(c, e.i, e.m, w);
      assert LastLeads(c, w);
    }
  }

  lemma AcceptsLast(c: Cluster, v: nat, m: AppendMsg, w: Win)
    requires ElectionInv(c) && |c.procs| == 2 && v < 2 && m.req.term >= c.procs[v].node.term
    requires w in c.wins && w.term == m.req.term
    ensures LastWin(c, w)
  {
    forall x | x in c.wins ensures x.term <= w.term {
      AllVoted(c, v, x);
    }
  }

  /** The leader of two servers is the last winner. */
  lemma WriterIsLast(c: Cluster, i: nat, w: Win)
    requires ElectionInv(c) && |c.procs| == 2 && i < 2 && c.procs[i].node.leader.Some? && LastWin(c, w)
    ensures w.leader == i && w.term == c.procs[i].node.term
  {
    assert ProcOk(c, i);
    AllVoted(c, i, w);
    var x :| x in c.wins && x.term == c.procs[i].node.term && x.leader == i;
  }

  lemma LastStays(c: Cluster, e: Event, w: Win)
    requires TwoInv(c) && Enabled(c, e, false) && JoinsAgree(Apply(c, e)) && FloorInv(Apply(c, e))
    requires w in c.wins && LastWin(Apply(c, e), w)
    ensures LastLeads(Apply(c, e), w)
  {
    hide FloorInv, JoinsAgree, WireAll, Apply, LastLeads, Writes, LogSame, Elected;
    var d := Apply(c, e);
    FloorsGive(c);
    StepLocal(c, e);
    StepGrows(c, e);
    assert LastWin(c, w) && LastLeads(c, w);
    if Writes(c, e) {
      LastReceives(c, e, w);
    } else if e.ClientRequest? {
      ClientShape(c, e);
      WriterIsLast(c, e.i, w);
      LastWrites(c, e, w);
    } else {
      if Elected(c, e) {
        WonLed(c, e);
      } else {
        QuietShape(c, e);
        SameEra(c.procs[e.i], d.procs[e.i]);
      }
      LastQuiet(c, d, e.i, w);
    }
  }

  lemma WonLed(c: Cluster, e: Event)
    requires ReplicationInv(c) && Elected(c, e)
    ensures var p, q := c.procs[e.i], Apply(c, e).procs[e.i];
      q.node.log == p.node.log && forall t | t in p.led :: t in q.led && q.led[t] == p.led[t]
  {
    hide Apply, RecordsOk;
    WonShape(c, e);
    assert ProcOk(c, e.i);
  }

  lemma LastQuiet(c: Cluster, d: Cluster, k: nat, w: Win)
    requires LastLeads(c, w) && Grows(c, d) && k < |c.procs|
    requires forall i | 0 <= i < |c.procs| && i != k :: d.procs[i] == c.procs[i]
    requires WireAll(d.procs[k].node.log) == WireAll(c.procs[k].node.log)
    requires forall t | t in c.procs[k].led :: t in d.procs[k].led && d.procs[k].led[t] == c.procs[k].led[t]
    ensures LastLeads(d, w)
  {
    hide WireAll, ProcGrows;
    forall v | 0 <= v < |d.procs| ensures WireAll(d.procs[v].node.log) == WireAll(c.procs[v].node.log) {
    }
  }

  lemma LastWrites(c: Cluster, e: Event, w: Win)
    requires LastLeads(c, w) && FloorInv(c) && Enabled(c, e, false) && e.ClientRequest?
    requires w.leader == e.i && w.term == c.procs[e.i].node.term
    ensures LastLeads(Apply(c, e), w)
  {
    hide FloorInv, Apply, WireAll;
    FloorsGive(c);
    ClientShape(c, e);
    LogKept(c, e);
    StepLocal(c, e);
    var d := Apply(c, e);
    forall v | 0 <= v < |d.procs| ensures WireAll(d.procs[v].node.log) <= WireAll(d.procs[e.i].node.log) {
      if v != e.i {
        assert d.procs[v] == c.procs[v];
      }
    }
  }

  lemma LastReceives(c: Cluster, e: Event, w: Win)
    requires |c.procs| == 2 && FloorInv(c) && Enabled(c, e, false) && Writes(c, e) && LastWin(c, w) && LastLeads(c, w)
    requires var d := Apply(c, e); FloorInv(d) && JoinsAgree(d) && Grows(c, d)
    ensures LastLeads(Apply(c, e), w)
  {
    hide FloorInv, JoinsAgree, WireAll, Apply, LastWin, Accepts, LastLeads;
    var d := Apply(c, e);
    FloorsGive(c);
    WriteShape(c, e);
    StepLocal(c, e);
    WrittenEra(c, e);
    MessageSlice(c, e.m);
    var x := Sender(c, e.m);
    AcceptsLast(c, e.i, e.m, x);
    SameLast(c, w, x);
    InEra(d, e.i);
    LastJoined(c, d, e.i, w);
  }

  lemma SameLast(c: Cluster, v: Win, w: Win)
    requires ElectionInv(c) && LastWin(c, v) && LastWin(c, w)
    ensures v == w
  {
  }

  lemma LastJoined(c: Cluster, d: Cluster, i: nat, w: Win)
    requires LastLeads(c, w) && |c.procs| == |d.procs| == 2 && i < 2 && i != w.leader
    requires d.procs[w.leader] == c.procs[w.leader]
    requires WireAll(d.procs[i].node.log) <= d.procs[w.leader].led[w.term].log
    ensures LastLeads(d, w)
  {
    hide WireAll;
  }

  lemma {:induction false} MaxWin(s: set<Win>) returns (w: Win)
    requires s != {}
    ensures w in s && forall x | x in s :: x.term <= w.term
    decreases |s|
  {
    var v :| v in s;
    if s == {v} {
      w := v;
    } else {
      var x := MaxWin(s - {v});
      w := if x.term >= v.term then x else v;
    }
  }

  /** A new winner has the longest log, and so extends the other server's. */
  lemma NewLast(c: Cluster, e: Event, w: Win)
    requires TwoInv(c) && Enabled(c, e, false) && w !in c.wins && w in Apply(c, e).wins
    ensures LastLeads(Apply(c, e), w)
  {
    hide FloorInv, JoinsAgree, LastLeads, ReplicationInv, WireAll, LastWin, VoteCovers, Apply;
    FloorsGive(c);
    WinIs(c, e, w);
    WonShape(c, e);
    GrantedVoted(c, e.i, e.vote);
    assert e == CountVote(e.i, e.vote);
    forall v | 0 <= v < 2 ensures WireAll(c.procs[v].node.log) <= WireAll(c.procs[e.i].node.log) {
      Longest(c, e.i, w, v);
    }
    StepLocal(c, e);
    WinnerLeads(c, Apply(c, e), e.i, w);
  }

  lemma WinIs(c: Cluster, e: Event, w: Win)
    requires Enabled(c, e, false) && w !in c.wins && w in Apply(c, e).wins
    ensures Elected(c, e)
    ensures w == Win(c.procs[e.i].node.term, e.i, Granted(c.procs[e.i], e.vote)) && |w.voters| > |c.procs| / 2
  {
    hide AfterAppend, AfterCrashInAppend, HandleAppend, HandleVote;
  }

  lemma WinnerLeads(c: Cluster, d: Cluster, i: nat, w: Win)
    requires |c.procs| == |d.procs| && i < |c.procs| && w.leader == i && w.term == c.procs[i].node.term
    requires |c.procs[i].node.log| > 0 && d.procs[i] == AfterWin(c.procs[i], i, |c.procs|)
    requires forall k | 0 <= k < |c.procs| && k != i :: d.procs[k] == c.procs[k]
    requires forall v | 0 <= v < |c.procs| :: WireAll(c.procs[v].node.log) <= WireAll(c.procs[i].node.log)
    ensures LastLeads(d, w)
  {
    hide WireAll;
  }

  lemma Longest(c: Cluster, i: nat, w: Win, v: nat)
    requires TwoInv(c) && i < 2 && v < 2 && |c.procs[i].node.log| > 0 && c.procs[i].mode.Campaigning?
    requires w.term == c.procs[i].node.term && |w.voters| > |c.procs| / 2
    requires forall x | x in w.voters :: Voted(c, x, RequestOf(c.procs[i].node, i))
    ensures WireAll(c.procs[v].node.log) <= WireAll(c.procs[i].node.log)
  {
    hide FloorInv, JoinsAgree, LastLeads, ReplicationInv, WireAll, VoteCovers, LastWin;
    FloorsGive(c);
    if c.wins == {} {
      NoEpoch(c, i);
      NoEpoch(c, v);
      Empty(c, i);
      Empty(c, v);
    } else {
      var x := MaxWin(c.wins);
      MaxIsLast(c, x);
      LeadsOf(c, x);
      if x.leader != i && v != i {
        Covered(c, i, w, v, x);
        SameLength(WireAll(c.procs[v].node.log), WireAll(c.procs[i].node.log));
      } else {
        LastExtends(c, x, v);
      }
    }
  }

  lemma MaxIsLast(c: Cluster, x: Win)
    requires x in c.wins && forall y | y in c.wins :: y.term <= x.term
    ensures LastWin(c, x)
  {
  }

  lemma LeadsOf(c: Cluster, x: Win)
    requires TwoInv(c) && LastWin(c, x)
    ensures LastLeads(c, x) && x.leader < 2
    ensures forall v | 0 <= v < 2 :: WireAll(c.procs[v].node.log) <= WireAll(c.procs[x.leader].node.log)
  {
  }

  lemma LastExtends(c: Cluster, x: Win, v: nat)
    requires LastLeads(c, x) && v < |c.procs|
    ensures WireAll(c.procs[v].node.log) <= WireAll(c.procs[x.leader].node.log)
  {
  }

  lemma SameLength(a: seq<Entry>, b: seq<Entry>)
    requires b <= a && |a| <= |b|
    ensures a == b
  {
  }

  /** The other server voted for this campaign with a log that was no longer, and wrote nothing since. */
  lemma Covered(c: Cluster, i: nat, w: Win, v: nat, x: Win)
    requires TwoInv(c) && i < 2 && v < 2 && |c.procs[i].node.log| > 0 && c.procs[i].mode.Campaigning?
    requires w.term == c.procs[i].node.term && |w.voters| > |c.procs| / 2
    requires forall y | y in w.voters :: Voted(c, y, RequestOf(c.procs[i].node, i))
    requires LastWin(c, x)
    ensures |c.procs[v].node.log| <= |c.procs[i].node.log|
  {
    hide FloorInv, JoinsAgree, LastLeads, ReplicationInv, WireAll;
    FloorsGive(c);
    forall y | y in w.voters ensures y < 2 {
      assert Voted(c, y, RequestOf(c.procs[i].node, i));
    }
    BothVoted(w.voters, v);
    assert Voted(c, v, RequestOf(c.procs[i].node, i));
    assert VoteCovers(c, v, w.term);
    forall y | y in c.wins ensures y.term < w.term {
      NewTerm(c, i, w.voters, y);
      AllVoted(c, i, y);
    }
  }

  lemma CoversStep(c: Cluster, e: Event, v: nat, t: nat)
    requires TwoInv(c) && Enabled(c, e, false) && v < |Apply(c, e).procs| && t in Apply(c, e).procs[v].votes
    ensures VoteCovers(Apply(c, e), v, t)
  {
    hide FloorInv, JoinsAgree, LastLeads, ReplicationInv, WireAll, Apply, LastWin, VoteCovers;
    FloorsGive(c);
    StepLocal(c, e);
    if v != e.i {
      OldCover(c, v, t);
      CoverKept(c, Apply(c, e), v, t);
    } else if t in c.procs[v].votes {
      OldCover(c, v, t);
      OwnCover(c, e, t);
    } else {
      NewCover(c, e, t);
    }
  }

  lemma OldCover(c: Cluster, v: nat, t: nat)
    requires TwoInv(c) && v < |c.procs| && t in c.procs[v].votes
    ensures VoteCovers(c, v, t)
  {
  }

  lemma CoverKept(c: Cluster, d: Cluster, v: nat, t: nat)
    requires v < |c.procs| == |d.procs| && t in c.procs[v].votes && VoteCovers(c, v, t) && c.wins <= d.wins
    requires t in d.procs[v].votes && d.procs[v].votes[t] == c.procs[v].votes[t]
    requires |d.procs[v].node.log| == |c.procs[v].node.log| || exists w | w in d.wins :: w.term >= t
    ensures VoteCovers(d, v, t)
  {
    if w :| w in c.wins && w.term >= t {
      assert w in d.wins;
    }
  }

  lemma OwnCover(c: Cluster, e: Event, t: nat)
    requires ReplicationInv(c) && Enabled(c, e, false) && t in c.procs[e.i].votes && VoteCovers(c, e.i, t)
    ensures e.i < |Apply(c, e).procs| && t in Apply(c, e).procs[e.i].votes && VoteCovers(Apply(c, e), e.i, t)
  {
    hide VoteCovers, WireAll, Apply, RecordsOk, Writes;
    var d := Apply(c, e);
    StepLocal(c, e);
    StepGrows(c, e);
    assert ProcOk(c, e.i) && ProcGrows(c.procs[e.i], d.procs[e.i]);
    LengthOrWin(c, e, t);
    CoverKept(c, d, e.i, t);
  }

  /** A log changes its length only in a term that is won. */
  lemma LengthOrWin(c: Cluster, e: Event, t: nat)
    requires ReplicationInv(c) && Enabled(c, e, false) && t <= c.procs[e.i].node.term
    ensures |Apply(c, e).procs[e.i].node.log| == |c.procs[e.i].node.log| || exists w | w in Apply(c, e).wins :: w.term >= t
  {
    hide WireAll, Apply, ReplicationInv, Accepts, LogSame, Elected;
    StepLocal(c, e);
    if Writes(c, e) {
      WriteShape(c, e);
      var w := Sender(c, e.m);
      assert w in Apply(c, e).wins;
    } else if e.ClientRequest? {
      ClientShape(c, e);
      var w :| w in c.wins && w.term == c.procs[e.i].node.term && w.leader == e.i;
      assert w in Apply(c, e).wins;
    } else if Elected(c, e) {
      WonShape(c, e);
    } else {
      QuietShape(c, e);
      SameEra(c.procs[e.i], Apply(c, e).procs[e.i]);
    }
  }

  lemma NewCover(c: Cluster, e: Event, t: nat)
    requires ReplicationInv(c) && Enabled(c, e, false) && t !in c.procs[e.i].votes
    requires e.i < |Apply(c, e).procs| && t in Apply(c, e).procs[e.i].votes
    ensures VoteCovers(Apply(c, e), e.i, t)
  {
    hide WireAll, Apply, ReplicationInv, Accepts, LogSame, Elected;
    HistoryShape(c, e);
    if Writes(c, e) {
      WriteShape(c, e);
    } else if e.ClientRequest? {
      ClientShape(c, e);
    } else if Elected(c, e) {
      WonShape(c, e);
    } else {
      QuietShape(c, e);
      SameEra(c.procs[e.i], Apply(c, e).procs[e.i]);
    }
  }

  lemma StepKeepsTwo(c: Cluster, e: Event)
    requires TwoInv(c) && Enabled(c, e, false)
    ensures TwoInv(Apply(c, e)) && KeepsAgreeing(c, e)
  {
    hide FloorInv, JoinsAgree, LastLeads, WireAll, Apply, KeepsAgreeing, VoteCovers, LastWin;
    var d := Apply(c, e);
    TwoAgree(c, e);
    TestExact(c, e);
    StepKeepsFloors(c, e);
    StepLocal(c, e);
    forall w | LastWin(d, w) ensures LastLeads(d, w) {
      LastIn(d, w);
      if w in c.wins {
        LastStays(c, e, w);
      } else {
        NewLast(c, e, w);
      }
    }
    forall v, t | 0 <= v < |d.procs| && t in d.procs[v].votes ensures VoteCovers(d, v, t) {
      CoversStep(c, e, v, t);
    }
  }

  lemma LastIn(c: Cluster, w: Win)
    requires LastWin(c, w)
    ensures w in c.wins
  {
  }

  lemma {:induction false} TwoRun(c: Cluster, events: seq<Event>)
    requires TwoInv(c) && Run(c, events, false).Some?
    ensures AgreeingRun(c, events) && TwoInv(Run(c, events, false).value)
    decreases |events|
  {
    hide TwoInv, Apply, KeepsAgreeing;
    if events != [] {
      StepKeepsTwo(c, events[0]);
      TwoRun(Apply(c, events[0]), events[1..]);
    }
  }

  lemma TwoInit()
    ensures TwoInv(Init(2))
  {
    InitFloors(2);
    FreshInit(2);
  }

  /** With two servers every run passes the second test, over any network. */
  lemma TwoServersAgree(events: seq<Event>)
    requires Run(Init(2), events, false).Some?
    ensures AgreeingRun(Init(2), events) && JoinsAgree(Run(Init(2), events, false).value)
  {
    hide Apply, Run, AgreeingRun, FloorInv, JoinsAgree;
    TwoInit();
    TwoRun(Init(2), events);
  }

  /** So with two servers the sequences applied agree, at whatever two moments, in every run that keeps what was
      acknowledged. */
  lemma TwoServersApplied(c: Cluster, events: seq<Event>, i: nat, j: nat)
    requires ReachableKeeping(c, 2) && KeepingRun(c, events) && i < 2 && j < 2
    ensures |c.procs| == 2 && Run(c, events, false).Some? && |Run(c, events, false).value.procs| == 2
    ensures Comparable(WireAll(c.procs[i].node.queue), WireAll(Run(c, events, false).value.procs[j].node.queue))
  {
    hide TwoInv, AgreeingRun, KeepingRun, Run, LengthInv, AllSafe, WireAll, Comparable;
    var start :| Run(Init(2), start, false) == Some(c) && KeepingRun(Init(2), start);
    TwoInit();
    TwoRun(Init(2), start);
    ReachedSafe(c, 2);
    RunSafe(c, events);
    TwoRun(c, events);
    AppliedAgree(c, 2, events, i, j);
  }
}
