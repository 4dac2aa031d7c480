/** Without the second test, state machine safety fails wherever three or more servers run: client entries carry
    term 0, so neither the vote check nor the append check can tell two leaders' entries apart. From every
    state reached with appends in order, some such continuation makes two servers apply different sequences. With
    two servers that cannot happen. */
module Divergence {
  import opened Prelude
  import opened Quorums
  import opened RaftNode
  import opened CommitIndex
  import opened Cluster
  import opened Elections
  import opened Replication
  import opened EraExact
  import opened Completeness
  import opened Ordered
  import opened Applied
  import opened Safety
  import opened Eras
  import opened Continuations

  // ----- a whole heartbeat round, in order

  lemma Ranges(c: Cluster, n: nat, i: nat)
    requires Ready(c, n, true) && i < n
    ensures var x := c.procs[i].node;
      && WellFormed(x, n) && ZeroTerms(x.log) && Pumps(x)
      && WireAll(x.queue) == WireAll(x.log)[1..|x.queue| + 1]
  {
    hide WireAll;
    Formed(c, n, true, i);
    OrderedKeeps(c, n);
    CommitsInRange(c, n, i);
    AppliedIsLog(c, n, i);
  }

  /** What a leader records about a follower, and the request it would send it. */
  lemma RequestShape(c: Cluster, n: nat, l: nat, v: nat)
    requires Leading(c, n, true, l) && v < n && v != l
    ensures 1 <= c.procs[l].node.leader.value.nextIndex[v] <= |c.procs[l].node.log|
    ensures |c.procs[l].node.leader.value.matchIndex| == n
    ensures var m := RequestFor(c, l, v); var r := m.req;
      && m.to == v && m.stamp == c.clock
      && r.term == c.procs[l].node.term && r.leader == l && r.prevLogTerm == 0 && ZeroTerms(r.entries)
      && r.prevLogIndex + 1 == c.procs[l].node.leader.value.nextIndex[v] && Total(r) == |c.procs[l].node.log|
      && r.leaderCommit == c.procs[l].node.commitIndex < Total(r)
  {
    hide Reachable, WireAll;
    Ranges(c, n, l);
    ReachedReplication(c, n, true);
    assert ProcOk(c, l) && RecordsOk(c, l) && PeerOk(c, l, v);
    SentSlice(c, l, v);
  }

  /** What the follower makes of it. */
  lemma FollowerRound(n: Node, r: AppendRequest)
    requires r.term >= n.term && |n.log| > 0 && n.log[0] == SENTINEL && ZeroTerms(n.log) && ZeroTerms(r.entries)
    requires r.prevLogTerm == 0 && Pumps(n) && r.leaderCommit < Total(r) && Pumps(HandleAppend(n, r).0)
    ensures var (x, reply) := HandleAppend(n, r);
      && x.term == reply.term == r.term && x.leader.None?
      && (reply.success <==> r.prevLogIndex < |n.log|)
      && (reply.success ==> |x.log| == Total(r) && |x.queue| >= r.leaderCommit)
      && (reply.success && r.prevLogIndex + 1 == |n.log| ==> n.log <= x.log)
      && (!reply.success ==> x.log == n.log)
  {
    hide HandleAppend, LeavesLog;
    AppendNode(n, r);
    AcceptsIff(n, r);
    AppendPumps(n, r);
  }

  lemma Lengthened(a: seq<Entry>, b: seq<Entry>)
    requires a <= b
    ensures WireAll(a) <= WireAll(b)
  {
  }

  /** What a round with follower `v` leads to. */
  ghost predicate RoundDone(c: Cluster, d: Cluster, n: nat, l: nat, v: nat)
    requires |c.procs| == |d.procs| == n && l < n && v < n
    requires c.procs[l].node.leader.Some? && d.procs[l].node.leader.Some?
  {
    var ls, ms, size := c.procs[l].node.leader.value, d.procs[l].node.leader.value, |c.procs[l].node.log|;
    && v < |ls.nextIndex| && v < |ls.matchIndex| && size > 0 && 1 <= ls.nextIndex[v] <= size
    && d.procs[l].node.log == c.procs[l].node.log && d.procs[l].node.term == c.procs[l].node.term
    && (exists x :: IsCommitIndex(ms.matchIndex, x) && d.procs[l].node.commitIndex >= x)
    && if ls.nextIndex[v] <= |c.procs[v].node.log| then
         && |d.procs[v].node.log| == size && |d.procs[v].node.queue| >= c.procs[l].node.commitIndex
         && (ls.nextIndex[v] == |c.procs[v].node.log| ==> WireAll(c.procs[v].node.log) <= WireAll(d.procs[v].node.log))
         && ms == LeaderState(ls.nextIndex[v := size], ls.matchIndex[v := size - 1])
       else
         && d.procs[v].node.log == c.procs[v].node.log
         && ms == ls.(nextIndex := ls.nextIndex[v := ls.nextIndex[v] - 1])
  }

  /** Nobody else is touched, no election is won, and no era is joined by who is in the leader's. */
  ghost predicate OnlyPair(c: Cluster, d: Cluster, n: nat, l: nat, v: nat)
    requires |c.procs| == |d.procs| == n && l < n && v < n
  {
    && d.wins == c.wins && EraSame(c.procs[l], d.procs[l])
    && (c.procs[v].epoch == c.procs[l].node.term ==> EraSame(c.procs[v], d.procs[v]))
    && forall k | 0 <= k < n && k != l && k != v :: d.procs[k] == c.procs[k]
  }

  lemma RoundResult(c: Cluster, d: Cluster, n: nat, l: nat, v: nat, reply: AppendReply, x: nat)
    requires |c.procs| == |d.procs| == n && l < n && v < n && l != v && c.procs[l].node.leader.Some?
    requires WellFormed(c.procs[l].node, n) && |c.procs[v].node.log| > 0
    requires 1 <= c.procs[l].node.leader.value.nextIndex[v] <= |c.procs[l].node.log|
    requires reply.term == c.procs[l].node.term
    requires var r := HandleAppendReply(c.procs[l].node, v, reply);
      && d.procs[l].node == AdvanceCommit(r, x) && r.leader.Some? && IsCommitIndex(r.leader.value.matchIndex, x)
    requires !AdvanceCommit(HandleAppendReply(c.procs[l].node, v, reply), x).outOfRange
    requires reply.success <==> c.procs[l].node.leader.value.nextIndex[v] <= |c.procs[v].node.log|
    requires reply.success ==>
      && |d.procs[v].node.log| == |c.procs[l].node.log| && |d.procs[v].node.queue| >= c.procs[l].node.commitIndex
      && (c.procs[l].node.leader.value.nextIndex[v] == |c.procs[v].node.log| ==>
            WireAll(c.procs[v].node.log) <= WireAll(d.procs[v].node.log))
    requires !reply.success ==> d.procs[v].node.log == c.procs[v].node.log
    ensures d.procs[l].node.leader.Some? && d.procs[l].node.isLeader == c.procs[l].node.isLeader
    ensures d.procs[l].node.term == c.procs[l].node.term && RoundDone(c, d, n, l, v)
  {
    hide WireAll, IsCommitIndex;
    AdvancedLeader(HandleAppendReply(c.procs[l].node, v, reply), x);
  }

  lemma AdvancedLeader(n: Node, x: nat)
    requires !AdvanceCommit(n, x).outOfRange
    ensures var m := AdvanceCommit(n, x);
      && m.log == n.log && m.term == n.term && m.leader == n.leader && m.isLeader == n.isLeader && m.commitIndex >= x
  {
  }

  lemma Exchange(c: Cluster, n: nat, l: nat, v: nat) returns (d: Cluster)
    requires Leading(c, n, true, l) && v < n && Hearing(c, l, v)
    ensures Leading(d, n, true, l) && Hearing(d, l, v) && Reaches(c, d, true)
    ensures RoundDone(c, d, n, l, v) && OnlyPair(c, d, n, l, v)
  {
    hide HandleAppend, AfterAppend, Reachable, Grows, AdvanceCommit, WireAll, PrepareAppend, IsCommitIndex;
    hide ZeroTerms, RoundDone, HandleAppendReply, Pumps;
    RequestShape(c, n, l, v);
    var m := RequestFor(c, l, v);
    var c1 := Send(c, n, true, l, v);
    InTime(c1, n, true, v);
    InTime(c, n, true, v);
    var c2, a := Answer(c1, n, true, v, m);
    Ranges(c1, n, v);
    Ranges(c2, n, v);
    AnsweredProc(c1.procs[v], m);
    FollowerRound(c.procs[v].node, m.req);
    if a.reply.success && m.req.prevLogIndex + 1 == |c.procs[v].node.log| {
      Lengthened(c.procs[v].node.log, c2.procs[v].node.log);
    }
    var c3 := Count(c2, n, true, l, a);
    RepliedLeader(c.procs[l].node, v, a.reply);
    var x;
    d, x := Close(c3, n, true, l);
    Ranges(d, n, l);
    Ranged(d.procs[l].node);
    RoundResult(c, d, n, l, v, a.reply, x);
    Chain(c, c1, c2, true);
    Chain(c, c2, c3, true);
    Chain(c, c3, d, true);
  }

  lemma Ranged(n: Node)
    requires Pumps(n)
    ensures !n.outOfRange
  {
  }

  lemma RepliedLeader(n: Node, v: nat, reply: AppendReply)
    requires n.leader.Some? && |n.log| > 0 && reply.term == n.term
    requires v < |n.leader.value.nextIndex| && v < |n.leader.value.matchIndex|
    ensures HandleAppendReply(n, v, reply).leader.Some?
  {
  }

  /** The follower's log is as long as the leader's, and the leader knows. */
  ghost predicate Matched(c: Cluster, n: nat, l: nat, v: nat) {
    && l < |c.procs| && v < |c.procs| && WellFormed(c.procs[l].node, n) && c.procs[l].node.leader.Some? && v < n
    && var size := |c.procs[l].node.log|;
       && size > 0 && |c.procs[v].node.log| == size
       && c.procs[l].node.leader.value.nextIndex[v] == size && c.procs[l].node.leader.value.matchIndex[v] == size - 1
  }

  /** The follower's log is not longer than where the leader would start. */
  ghost predicate Behind(c: Cluster, n: nat, l: nat, v: nat) {
    && l < |c.procs| && v < |c.procs| && WellFormed(c.procs[l].node, n) && c.procs[l].node.leader.Some? && v < n
    && |c.procs[v].node.log| <= c.procs[l].node.leader.value.nextIndex[v]
  }

  /** Rounds until the follower's log is as long as the leader's. What it had up to where the leader started, it
      keeps. */
  lemma {:induction false} Serve(c: Cluster, n: nat, l: nat, v: nat) returns (d: Cluster)
    requires Leading(c, n, true, l) && v < n && Hearing(c, l, v)
    ensures Leading(d, n, true, l) && Hearing(d, l, v) && Reaches(c, d, true) && Matched(d, n, l, v)
    ensures OnlyPair(c, d, n, l, v) && d.procs[l].node.log == c.procs[l].node.log
    ensures d.procs[l].node.term == c.procs[l].node.term
    ensures Behind(c, n, l, v) ==> WireAll(c.procs[v].node.log) <= WireAll(d.procs[v].node.log)
    ensures var ls, ms, size := c.procs[l].node.leader.value, d.procs[l].node.leader.value, |c.procs[l].node.log|;
      && |ls.nextIndex| == |ls.matchIndex| == n && size > 0
      && ms == LeaderState(ls.nextIndex[v := size], ls.matchIndex[v := size - 1])
    decreases c.procs[l].node.leader.value.nextIndex[v]
  {
    hide Reachable, WireAll, IsCommitIndex, EraSame, Matched, OnlyPair, Behind, RoundDone;
    RequestShape(c, n, l, v);
    d := Exchange(c, n, l, v);
    AfterRound(c, d, n, l, v);
    var ls := c.procs[l].node.leader.value;
    if ls.nextIndex[v] > |c.procs[v].node.log| {
      var c1 := d;
      d := Serve(c1, n, l, v);
      Chain(c, c1, d, true);
      UntouchedTwice(c, c1, d, n, l, v);
      UpdateTwice(ls.nextIndex, v, ls.nextIndex[v] - 1, |c.procs[l].node.log|);
    }
  }

  /** Either the follower has caught up, or the leader will start one entry earlier. */
  lemma AfterRound(c: Cluster, d: Cluster, n: nat, l: nat, v: nat)
    requires Leading(c, n, true, l) && Leading(d, n, true, l) && v < n && RoundDone(c, d, n, l, v)
    ensures d.procs[l].node.log == c.procs[l].node.log && d.procs[l].node.term == c.procs[l].node.term
    ensures var ls, ms, size := c.procs[l].node.leader.value, d.procs[l].node.leader.value, |c.procs[l].node.log|;
      && |ls.nextIndex| == |ls.matchIndex| == n && size > 0 && ls.nextIndex[v] >= 1
      && if ls.nextIndex[v] <= |c.procs[v].node.log| then
           && Matched(d, n, l, v) && ms == LeaderState(ls.nextIndex[v := size], ls.matchIndex[v := size - 1])
           && (Behind(c, n, l, v) ==> WireAll(c.procs[v].node.log) <= WireAll(d.procs[v].node.log))
         else
           && d.procs[v].node.log == c.procs[v].node.log && Behind(d, n, l, v)
           && ms == ls.(nextIndex := ls.nextIndex[v := ls.nextIndex[v] - 1])
  {
    hide Reachable, WireAll, IsCommitIndex;
  }

  lemma UntouchedTwice(c: Cluster, d: Cluster, e: Cluster, n: nat, l: nat, v: nat)
    requires |c.procs| == |d.procs| == |e.procs| == n && l < n && v < n
    requires OnlyPair(c, d, n, l, v) && OnlyPair(d, e, n, l, v) && d.procs[l].node.term == c.procs[l].node.term
    ensures OnlyPair(c, e, n, l, v)
  {
  }

  lemma UpdateTwice(s: seq<nat>, v: nat, a: nat, b: nat)
    requires v < |s|
    ensures s[v := a][v := b] == s[v := b]
  {
  }

  // ----- a leader with a team of followers

  ghost predicate NoRepeats(team: seq<nat>) {
    forall x, y | 0 <= x < y < |team| :: team[x] != team[y]
  }

  ghost predicate Team(c: Cluster, n: nat, l: nat, team: seq<nat>) {
    && Leading(c, n, true, l) && NoRepeats(team)
    && forall x | 0 <= x < |team| :: team[x] < n && Hearing(c, l, team[x])
  }

  /** Outside the leader's era and team nothing happens, and no election is won. */
  ghost predicate EraKept(c: Cluster, d: Cluster, n: nat, l: nat, team: seq<nat>)
    requires |c.procs| == |d.procs| == n && l < n
  {
    && d.wins == c.wins && EraSame(c.procs[l], d.procs[l]) && d.procs[l].node.term == c.procs[l].node.term
    && (forall k | 0 <= k < n && c.procs[k].epoch == c.procs[l].node.term :: EraSame(c.procs[k], d.procs[k]))
    && forall k | 0 <= k < n && k != l && k !in team :: d.procs[k] == c.procs[k]
  }

  lemma KeptOnce(c: Cluster, d: Cluster, n: nat, l: nat, team: seq<nat>, v: nat)
    requires |c.procs| == |d.procs| == n && l < n && v < n && v in team && OnlyPair(c, d, n, l, v)
    requires d.procs[l].node.term == c.procs[l].node.term
    ensures EraKept(c, d, n, l, team)
  {
  }

  lemma KeptTwice(c: Cluster, d: Cluster, e: Cluster, n: nat, l: nat, team: seq<nat>)
    requires |c.procs| == |d.procs| == |e.procs| == n && l < n
    requires EraKept(c, d, n, l, team) && EraKept(d, e, n, l, team)
    ensures EraKept(c, e, n, l, team)
  {
    forall k | 0 <= k < n && c.procs[k].epoch == c.procs[l].node.term ensures EraSame(c.procs[k], e.procs[k]) {
      assert EraSame(c.procs[k], d.procs[k]) && EraSame(d.procs[k], e.procs[k]);
    }
  }

  lemma KeptStill(c: Cluster, n: nat, l: nat, team: seq<nat>)
    requires |c.procs| == n && l < n
    ensures EraKept(c, c, n, l, team)
  {
  }

  lemma {:induction false} ServeAll(c: Cluster, n: nat, l: nat, team: seq<nat>, k: nat) returns (d: Cluster)
    requires Team(c, n, l, team) && k <= |team| && forall x | 0 <= x < k :: Matched(c, n, l, team[x])
    ensures Team(d, n, l, team) && Reaches(c, d, true) && EraKept(c, d, n, l, team)
    ensures forall x | 0 <= x < |team| :: Matched(d, n, l, team[x])
    ensures d.procs[l].node.log == c.procs[l].node.log
    ensures forall x | k <= x < |team| && Behind(c, n, l, team[x]) ::
      WireAll(c.procs[team[x]].node.log) <= WireAll(d.procs[team[x]].node.log)
    ensures forall x | 0 <= x < k :: d.procs[team[x]] == c.procs[team[x]]
    decreases |team| - k
  {
    hide Reachable, WireAll, Resting, EraKept, EraSame;
    if k == |team| {
      Stay(c, true);
      KeptStill(c, n, l, team);
      d := c;
    } else {
      var c1 := Serve(c, n, l, team[k]);
      KeptOnce(c, c1, n, l, team, team[k]);
      ServedTeam(c, c1, n, l, team, k);
      d := ServeAll(c1, n, l, team, k + 1);
      Chain(c, c1, d, true);
      KeptTwice(c, c1, d, n, l, team);
    }
  }

  lemma ServedTeam(c: Cluster, d: Cluster, n: nat, l: nat, team: seq<nat>, k: nat)
    requires Team(c, n, l, team) && k < |team| && forall x | 0 <= x < k :: Matched(c, n, l, team[x])
    requires Leading(d, n, true, l) && Hearing(d, l, team[k]) && Matched(d, n, l, team[k])
    requires OnlyPair(c, d, n, l, team[k]) && d.procs[l].node.log == c.procs[l].node.log
    requires d.procs[l].node.term == c.procs[l].node.term
    requires var ls, ms, size := c.procs[l].node.leader.value, d.procs[l].node.leader.value, |c.procs[l].node.log|;
      && |ls.nextIndex| == |ls.matchIndex| == n && size > 0
      && ms == LeaderState(ls.nextIndex[team[k] := size], ls.matchIndex[team[k] := size - 1])
    ensures Team(d, n, l, team) && forall x | 0 <= x <= k :: Matched(d, n, l, team[x])
    ensures forall x | k < x < |team| ::
      && d.procs[team[x]] == c.procs[team[x]] && (Behind(d, n, l, team[x]) <==> Behind(c, n, l, team[x]))
    ensures forall x | 0 <= x < k :: d.procs[team[x]] == c.procs[team[x]]
  {
    hide Reachable, EraSame;
    forall x | 0 <= x < |team| && x != k ensures d.procs[team[x]] == c.procs[team[x]] {
      assert Hearing(c, l, team[x]);
      assert team[x] != team[k];
    }
    forall x | 0 <= x < |team| ensures Hearing(d, l, team[x]) {
      assert Hearing(c, l, team[x]);
    }
  }

  /** With its leader the team is a majority; the leader's own marker must not be below its log. */
  ghost predicate Enough(c: Cluster, n: nat, l: nat, team: seq<nat>)
    requires l < |c.procs|
  {
    |team| > n / 2 || (|team| >= n / 2 && |c.procs[l].node.log| <= MAX_INDEX)
  }

  /** When such a team has matched, the commit rule yields the last index. */
  lemma AllMatched(m: seq<nat>, l: nat, team: seq<nat>, size: nat, x: nat)
    requires l < |m| && size > 0 && IsCommitIndex(m, x) && NoRepeats(team) && team != []
    requires |team| > |m| / 2 || (|team| >= |m| / 2 && m[l] >= size - 1)
    requires forall y | 0 <= y < |team| :: team[y] < |m| && team[y] != l && m[team[y]] == size - 1
    ensures x >= size - 1
  {
    var members := Members(team);
    var reaching := if m[l] >= size - 1 then members + {l} else members;
    assert l !in members;
    assert |members + {l}| == |members| + 1;
    SubsetSize(reaching, Reaching(m, size - 1));
    EnoughReach(m, size - 1);
    assert m[team[0]] in m;
  }

  lemma {:induction false} Members(team: seq<nat>) returns (s: set<nat>)
    requires NoRepeats(team)
    ensures |s| == |team| && forall v :: v in s <==> v in team
  {
    if team == [] {
      s := {};
    } else {
      var k := |team| - 1;
      s := Members(team[..k]);
      assert team == team[..k] + [team[k]];
      s := s + {team[k]};
    }
  }

  lemma EnoughReach(m: seq<nat>, x: nat)
    requires |Reaching(m, x)| > |m| / 2
    ensures Majority(Reaching(m, x), |m|)
  {
  }

  lemma LeadersMark(c: Cluster, n: nat, l: nat)
    requires Leading(c, n, true, l)
    ensures c.procs[l].node.leader.value.matchIndex[l] == MAX_INDEX
  {
    ReachedReplication(c, n, true);
    assert ProcOk(c, l) && RecordsOk(c, l);
  }

  /** A round after all have matched leaves the leader with everything committed. */
  lemma CommittedAll(c: Cluster, d: Cluster, n: nat, l: nat, team: seq<nat>, v: nat)
    requires Team(c, n, l, team) && Enough(c, n, l, team) && v in team
    requires forall x | 0 <= x < |team| :: Matched(c, n, l, team[x])
    requires Leading(d, n, true, l) && Hearing(d, l, v) && RoundDone(c, d, n, l, v) && OnlyPair(c, d, n, l, v)
    ensures Team(d, n, l, team) && forall x | 0 <= x < |team| :: Matched(d, n, l, team[x])
    ensures d.procs[l].node.log == c.procs[l].node.log && d.procs[l].node.commitIndex + 1 >= |d.procs[l].node.log|
    ensures WireAll(c.procs[v].node.log) == WireAll(d.procs[v].node.log)
    ensures |d.procs[v].node.queue| >= c.procs[l].node.commitIndex
  {
    hide Reachable, WireAll, IsCommitIndex, EraSame;
    var ms, size := d.procs[l].node.leader.value, |c.procs[l].node.log|;
    forall x | 0 <= x < |team| ensures Hearing(d, l, team[x]) && Matched(d, n, l, team[x]) {
      assert Hearing(c, l, team[x]) && Matched(c, n, l, team[x]);
    }
    SamePrefix(WireAll(c.procs[v].node.log), WireAll(d.procs[v].node.log));
    LeadersMark(d, n, l);
    var x :| IsCommitIndex(ms.matchIndex, x) && d.procs[l].node.commitIndex >= x;
    AllMatched(ms.matchIndex, l, team, size, x);
  }

  lemma SamePrefix(a: seq<Entry>, b: seq<Entry>)
    requires a <= b && |a| == |b|
    ensures a == b
  {
  }

  /** The leader and a follower both apply their whole logs. */
  lemma ApplyBoth(c: Cluster, n: nat, l: nat, team: seq<nat>, v: nat) returns (d: Cluster)
    requires Team(c, n, l, team) && Enough(c, n, l, team) && v in team
    requires forall x | 0 <= x < |team| :: Matched(c, n, l, team[x])
    ensures Ready(d, n, true) && Reaches(c, d, true) && EraKept(c, d, n, l, team)
    ensures d.procs[l].node.log == c.procs[l].node.log && WireAll(d.procs[v].node.log) == WireAll(c.procs[v].node.log)
    ensures |c.procs[v].node.log| == |c.procs[l].node.log| > 0
    ensures WireAll(d.procs[l].node.queue) == WireAll(c.procs[l].node.log)[1..]
    ensures WireAll(d.procs[v].node.queue) == WireAll(c.procs[v].node.log)[1..]
  {
    hide Reachable, WireAll, IsCommitIndex, RoundDone, EraKept, OnlyPair, EraSame, Resting;
    Listens(c, n, l, team, v);
    var c1 := Exchange(c, n, l, v);
    CommittedAll(c, c1, n, l, team, v);
    RoundKept(c, c1, n, l, team, v);
    d := Exchange(c1, n, l, v);
    CommittedAll(c1, d, n, l, team, v);
    RoundKept(c1, d, n, l, team, v);
    Chain(c, c1, d, true);
    KeptTwice(c, c1, d, n, l, team);
    Ranges(d, n, v);
    Ranges(d, n, l);
    Listens(d, n, l, team, v);
    WholeQueue(d.procs[l].node);
    WholeQueue(d.procs[v].node);
  }

  lemma Listens(c: Cluster, n: nat, l: nat, team: seq<nat>, v: nat)
    requires Team(c, n, l, team) && v in team && forall x | 0 <= x < |team| :: Matched(c, n, l, team[x])
    ensures v < n && Hearing(c, l, v) && |c.procs[v].node.log| == |c.procs[l].node.log| > 0
  {
    var x :| 0 <= x < |team| && team[x] == v;
    assert Hearing(c, l, team[x]) && Matched(c, n, l, team[x]);
  }

  lemma RoundKept(c: Cluster, d: Cluster, n: nat, l: nat, team: seq<nat>, v: nat)
    requires |c.procs| == |d.procs| == n && l < n && v < n && v in team && OnlyPair(c, d, n, l, v)
    requires c.procs[l].node.leader.Some? && d.procs[l].node.leader.Some? && RoundDone(c, d, n, l, v)
    ensures EraKept(c, d, n, l, team)
  {
    KeptOnce(c, d, n, l, team, v);
  }

  lemma WholeQueue(n: Node)
    requires Pumps(n) && WireAll(n.queue) == WireAll(n.log)[1..|n.queue| + 1] && |n.queue| + 1 >= |n.log|
    ensures WireAll(n.queue) == WireAll(n.log)[1..]
  {
    hide WireAll;
  }

  // ----- three or more servers

  const FIRST_VALUE := "a"
  const SECOND_VALUE := "b"

  /** The ids other than `a` and `b`. */
  lemma {:induction false} Others(n: nat, k: nat, a: nat, b: nat) returns (s: seq<nat>)
    requires a < n && b < n && a != b && k <= n
    ensures forall x, y | 0 <= x < y < |s| :: s[x] != s[y]
    ensures forall x | 0 <= x < |s| :: s[x] < k && s[x] != a && s[x] != b
    ensures |s| == k - (if a < k then 1 else 0) - if b < k then 1 else 0
    decreases k
  {
    if k == 0 {
      s := [];
    } else {
      s := Others(n, k - 1, a, b);
      if k - 1 != a && k - 1 != b {
        s := s + [k - 1];
      }
    }
  }

  /** The longest of the first `k` logs, `skip` left aside. */
  lemma {:induction false} LongestOf(c: Cluster, k: nat, skip: nat) returns (a: nat)
    requires k <= |c.procs| && k >= 2
    ensures a < k && a != skip
    ensures forall j | 0 <= j < k && j != skip :: |c.procs[j].node.log| <= |c.procs[a].node.log|
    decreases k
  {
    if k == 2 {
      a := if skip == 0 then 1 else if skip == 1 then 0 else if |c.procs[0].node.log| < |c.procs[1].node.log| then 1 else 0;
    } else {
      a := LongestOf(c, k - 1, skip);
      if k - 1 != skip && |c.procs[a].node.log| < |c.procs[k - 1].node.log| {
        a := k - 1;
      }
    }
  }

  /** `a` and `b` have logs of one length that differ in the last entry, and `b` leads with it unreplicated. */
  ghost predicate Split(c: Cluster, n: nat, a: nat, b: nat, team: seq<nat>) {
    && Team(c, n, b, team) && |team| > n / 2 && a in team && a < n && a != b && Behind(c, n, b, a)
    && |c.procs[a].node.log| == |c.procs[b].node.log| > 1
    && var k := |c.procs[a].node.log| - 1;
       WireAll(c.procs[a].node.log)[k] != WireAll(c.procs[b].node.log)[k]
  }

  lemma WireValue(a: seq<Entry>, b: seq<Entry>, k: nat)
    requires WireAll(a) == WireAll(b) && k < |a|
    ensures |a| == |b| && a[k].value == b[k].value && WireAll(a)[k].value == a[k].value
  {
    assert |WireAll(a)| == |WireAll(b)| && WireAll(a)[k] == WireAll(b)[k];
    assert WireAll(a)[k] == Wire(a[k]) && WireAll(b)[k] == Wire(b[k]);
  }

  /** The longest-logged server `a` leads and appends an entry that it does not replicate. */
  lemma FirstLeader(c: Cluster, n: nat, a: nat, voters: seq<nat>) returns (d: Cluster)
    requires Calm(c, n, true) && a < n && |voters| >= n / 2 && NoRepeats(voters)
    requires forall x | 0 <= x < |voters| ::
      voters[x] < n && voters[x] != a && |c.procs[voters[x]].node.log| <= |c.procs[a].node.log|
    ensures Calm(d, n, true) && Reaches(c, d, true)
    ensures forall k | 0 <= k < n && k != a :: WireAll(d.procs[k].node.log) == WireAll(c.procs[k].node.log)
    ensures |d.procs[a].node.log| == |c.procs[a].node.log| + 1
    ensures d.procs[a].node.log[|c.procs[a].node.log|].value == FIRST_VALUE
  {
    hide Reachable, WireAll, Resting, Grows, EraSame;
    var c1 := Elect(c, n, true, a, voters);
    var c2 := Client(c1, n, true, a, FIRST_VALUE);
    d := CrashOne(c2, n, true, a);
    Chain(c, c1, c2, true);
    Chain(c, c2, d, true);
    WireValue(c2.procs[a].node.log, d.procs[a].node.log, |c.procs[a].node.log|);
    HearingRests(c2, n, a);
  }

  lemma HearingRests(c: Cluster, n: nat, l: nat)
    requires Led(c, n, true, l)
    ensures forall k | 0 <= k < n && k != l :: Resting(c.procs[k])
  {
    hide Reachable;
    forall k | 0 <= k < n && k != l ensures Resting(c.procs[k]) {
      assert Hearing(c, l, k);
    }
  }

  /** Another server `b` leads, and appends up to the length of `a`'s log. */
  lemma SecondLeader(c: Cluster, n: nat, a: nat, b: nat, voters: seq<nat>, size: nat) returns (d: Cluster)
    requires Calm(c, n, true) && a < n && b < n && a != b && |voters| >= n / 2 && NoRepeats(voters)
    requires forall x | 0 <= x < |voters| :: voters[x] < n && voters[x] != a && voters[x] != b
    requires forall k | 0 <= k < n && k != a :: |c.procs[k].node.log| <= |c.procs[b].node.log| < size
    ensures Calm(d, n, true) && Reaches(c, d, true)
    ensures |d.procs[b].node.log| == size && d.procs[b].node.log[size - 1].value == SECOND_VALUE
    ensures forall k | 0 <= k < n && k != b :: WireAll(d.procs[k].node.log) == WireAll(c.procs[k].node.log)
  {
    hide Reachable, WireAll, Resting, Grows, EraSame;
    var c1 := Elect(c, n, true, b, voters);
    var c2 := Fill(c1, n, true, b, SECOND_VALUE, size);
    d := CrashOne(c2, n, true, b);
    WireValue(c2.procs[b].node.log, d.procs[b].node.log, size - 1);
    Chain(c, c1, c2, true);
    Chain(c, c2, d, true);
    HearingRests(c2, n, b);
  }

  /** Then `b` is elected again, now with a log as long as `a`'s. */
  lemma ThirdElection(c: Cluster, n: nat, a: nat, b: nat, voters: seq<nat>, size: nat) returns (d: Cluster, team: seq<nat>)
    requires n >= 3 && Calm(c, n, true) && a < n && b < n && a != b && |voters| >= n / 2 && size > 1 && NoRepeats(voters)
    requires forall x | 0 <= x < |voters| :: voters[x] < n && voters[x] != a && voters[x] != b
    requires forall k | 0 <= k < n :: |c.procs[k].node.log| <= size == |c.procs[a].node.log| == |c.procs[b].node.log|
    requires c.procs[a].node.log[size - 1].value == FIRST_VALUE && c.procs[b].node.log[size - 1].value == SECOND_VALUE
    ensures Reaches(c, d, true) && Split(d, n, a, b, team)
  {
    hide Reachable, WireAll, Resting, Grows;
    d := Elect(c, n, true, b, voters);
    LengthsKept(c, d);
    WireValue(c.procs[b].node.log, d.procs[b].node.log, size - 1);
    WireValue(c.procs[a].node.log, d.procs[a].node.log, size - 1);
    SameWire(c.procs[a].node.log, d.procs[a].node.log, size - 1);
    SameWire(c.procs[b].node.log, d.procs[b].node.log, size - 1);
    Formed(d, n, true, b);
    team := Others(n, n, a, b);
    team := team + [a];
  }

  lemma SameWire(a: seq<Entry>, b: seq<Entry>, k: nat)
    requires WireAll(a) == WireAll(b) && k < |a|
    ensures k < |b| && WireAll(b)[k].value == a[k].value
  {
    WireValue(a, b, k);
  }

  lemma LengthsKept(c: Cluster, d: Cluster)
    requires SameLogs(c, d)
    ensures |c.procs| == |d.procs| && forall k | 0 <= k < |c.procs| :: |d.procs[k].node.log| == |c.procs[k].node.log|
  {
    forall k | 0 <= k < |c.procs| ensures |d.procs[k].node.log| == |c.procs[k].node.log| {
      assert |WireAll(d.procs[k].node.log)| == |WireAll(c.procs[k].node.log)|;
    }
  }

  /** `b` brings every log to the length of its own, and with `a` applies everything. */
  lemma SplitDiverges(c: Cluster, n: nat, a: nat, b: nat, team: seq<nat>) returns (d: Cluster)
    requires Split(c, n, a, b, team)
    ensures Ready(d, n, true) && Reaches(c, d, true) && a < n && b < n
    ensures !Comparable(WireAll(d.procs[a].node.queue), WireAll(d.procs[b].node.queue))
  {
    hide Reachable, WireAll, Resting, Grows, EraKept, Matched;
    var c1 := ServeAll(c, n, b, team, 0);
    d := ApplyBoth(c1, n, b, team, a);
    Chain(c, c1, d, true);
    var x :| 0 <= x < |team| && team[x] == a;
    assert Behind(c, n, b, team[x]);
    SamePrefix(WireAll(c.procs[a].node.log), WireAll(c1.procs[a].node.log));
    LastDiffers(WireAll(c.procs[a].node.log), WireAll(c.procs[b].node.log));
  }

  lemma LastDiffers(a: seq<Entry>, b: seq<Entry>)
    requires |a| == |b| > 1 && a[|a| - 1] != b[|a| - 1]
    ensures !Comparable(a[1..], b[1..])
  {
    var k := |a| - 1;
    assert a[1..][k - 1] == a[k] && b[1..][k - 1] == b[k];
  }

  /** From every state of three or more servers that is reached in order, some continuation in order makes two
      servers apply sequences of which neither is a prefix of the other. */
  lemma StateMachinesDiverge(c: Cluster, n: nat) returns (events: seq<Event>, a: nat, b: nat)
    requires Reachable(c, n, true) && n >= 3
    ensures Run(c, events, true).Some? && a < n && b < n
    ensures var d := Run(c, events, true).value;
      |d.procs| == n && !Comparable(WireAll(d.procs[a].node.queue), WireAll(d.procs[b].node.queue))
  {
    hide Reachable, WireAll, Resting, Grows, Run, Comparable;
    ReachedReplication(c, n, true);
    var c1 := CrashAll(c, n, true, 0);
    a := LongestOf(c1, n, n);
    b := LongestOf(c1, n, a);
    var voters := Others(n, n, a, b);
    var c2 := FirstLeader(c1, n, a, voters + [b]);
    LengthsButOne(c1, c2, n, a);
    var size := |c2.procs[a].node.log|;
    Formed(c1, n, true, a);
    var c3 := SecondLeader(c2, n, a, b, voters, size);
    LengthsButOne(c2, c3, n, b);
    WireValue(c2.procs[a].node.log, c3.procs[a].node.log, size - 1);
    var c4, team := ThirdElection(c3, n, a, b, voters, size);
    var d := SplitDiverges(c4, n, a, b, team);
    Chain(c, c1, c2, true);
    Chain(c, c2, c3, true);
    Chain(c, c3, c4, true);
    Chain(c, c4, d, true);
    events :| Run(c, events, true) == Some(d);
  }

  lemma LengthsButOne(c: Cluster, d: Cluster, n: nat, a: nat)
    requires |c.procs| == |d.procs| == n
    requires forall k | 0 <= k < n && k != a :: WireAll(d.procs[k].node.log) == WireAll(c.procs[k].node.log)
    ensures forall k | 0 <= k < n && k != a :: |d.procs[k].node.log| == |c.procs[k].node.log|
  {
    forall k | 0 <= k < n && k != a ensures |d.procs[k].node.log| == |c.procs[k].node.log| {
      assert |WireAll(d.procs[k].node.log)| == |WireAll(c.procs[k].node.log)|;
    }
  }

  // ----- after a join that does not agree

  /** A leader in the middle of a round ends it. */
  lemma EndRound(c: Cluster, n: nat, l: nat) returns (d: Cluster)
    requires Ready(c, n, true) && l < n && c.procs[l].node.leader.Some? && c.procs[l].node.isLeader
    ensures Leading(d, n, true, l) && Reaches(c, d, true) && d.wins == c.wins && EraSame(c.procs[l], d.procs[l])
    ensures d.procs[l].node.log == c.procs[l].node.log && d.procs[l].node.term == c.procs[l].node.term
    ensures forall k | 0 <= k < n && k != l :: d.procs[k] == c.procs[k]
  {
    hide Reachable, Grows, AdvanceCommit, IsCommitIndex, ElectionInv;
    ReachedElections(c, n, true);
    NotCampaigning(c, l);
    Formed(c, n, true, l);
    if c.procs[l].mode.Idle? {
      Stay(c, true);
      d := c;
    } else if c.procs[l].mode.counted {
      d := Take(c, n, true, EndBroadcast(l));
    } else {
      var x;
      d, x := Close(c, n, true, l);
      Ranges(d, n, l);
      AdvancedLeader(c.procs[l].node, x);
    }
    Formed(d, n, true, l);
  }

  lemma NotCampaigning(c: Cluster, l: nat)
    requires ElectionInv(c) && l < |c.procs| && c.procs[l].node.leader.Some?
    ensures !c.procs[l].mode.Campaigning?
  {
    assert ProcOk(c, l);
  }

  lemma {:induction false} CrashTeam(c: Cluster, n: nat, l: nat, team: seq<nat>, k: nat) returns (d: Cluster)
    requires Leading(c, n, true, l) && NoRepeats(team) && k <= |team|
    requires forall x | 0 <= x < |team| :: team[x] < n && team[x] != l && c.procs[team[x]].node.term <= c.procs[l].node.term
    requires forall x | 0 <= x < k :: Resting(c.procs[team[x]])
    ensures Team(d, n, l, team) && Reaches(c, d, true) && EraKept(c, d, n, l, team) && d.procs[l] == c.procs[l]
    decreases |team| - k
  {
    hide Reachable, Resting, Grows, WireAll, EraKept, EraSame;
    if k == |team| {
      Stay(c, true);
      KeptStill(c, n, l, team);
      d := c;
    } else {
      var c1 := CrashOne(c, n, true, team[k]);
      CrashKept(c, c1, n, l, team, team[k]);
      d := CrashTeam(c1, n, l, team, k + 1);
      Chain(c, c1, d, true);
      KeptTwice(c, c1, d, n, l, team);
    }
  }

  lemma CrashKept(c: Cluster, d: Cluster, n: nat, l: nat, team: seq<nat>, v: nat)
    requires |c.procs| == |d.procs| == n && l < n && v < n && v in team && v != l && d.wins == c.wins
    requires EraSame(c.procs[v], d.procs[v]) && forall k | 0 <= k < n && k != v :: d.procs[k] == c.procs[k]
    ensures EraKept(c, d, n, l, team)
  {
  }

  /** While a leader still leads a majority, all of them in its era, and one of them joined with a log that does not
      agree: some continuation without any election and without any further join makes that leader and that
      follower apply sequences of which neither is a prefix of the other. With three servers, the follower alone
      completes the majority. */
  lemma BadJoinDiverges(c: Cluster, n: nat, l: nat, team: seq<nat>, i: nat) returns (events: seq<Event>)
    requires Reachable(c, n, true) && |c.procs| == n && l < n && c.procs[l].node.leader.Some? && c.procs[l].node.isLeader
    requires NoRepeats(team) && i in team && Enough(c, n, l, team)
    requires forall x | 0 <= x < |team| :: team[x] < n && team[x] != l && c.procs[team[x]].node.term == c.procs[l].node.term
    requires forall x | 0 <= x < |team| :: c.procs[team[x]].epoch == c.procs[l].node.term
    requires !JoinAgrees(c, i)
    ensures Run(c, events, true).Some?
    ensures var d := Run(c, events, true).value;
      && d.wins == c.wins && |d.procs| == n && (forall k | 0 <= k < n :: EraSame(c.procs[k], d.procs[k]))
      && !Comparable(WireAll(d.procs[l].node.queue), WireAll(d.procs[i].node.queue))
  {
    hide Reachable, Resting, Grows, WireAll, EraSame, Run, Comparable, Matched, JoinAgrees, EraKept;
    var c1 := EndRound(c, n, l);
    EndKept(c, c1, n, l, team);
    var c2 := CrashTeam(c1, n, l, team, 0);
    var c3 := ServeAll(c2, n, l, team, 0);
    var d := ApplyBoth(c3, n, l, team, i);
    Chain(c, c1, c2, true);
    Chain(c, c2, c3, true);
    Chain(c, c3, d, true);
    KeptTwice(c, c1, c2, n, l, team);
    KeptTwice(c, c2, c3, n, l, team);
    KeptTwice(c, c3, d, n, l, team);
    EraNow(c, d, n, l, team, i);
    StillBad(c, d, n, l, i);
    WholeDiffers(c3.procs[l].node.log, c3.procs[i].node.log, d.procs[l].node.log, d.procs[i].node.log);
    events :| Run(c, events, true) == Some(d);
  }

  lemma EndKept(c: Cluster, d: Cluster, n: nat, l: nat, team: seq<nat>)
    requires |c.procs| == |d.procs| == n && l < n && d.wins == c.wins && EraSame(c.procs[l], d.procs[l])
    requires d.procs[l].node.term == c.procs[l].node.term
    requires forall k | 0 <= k < n && k != l :: d.procs[k] == c.procs[k]
    ensures EraKept(c, d, n, l, team)
  {
  }

  lemma EraNow(c: Cluster, d: Cluster, n: nat, l: nat, team: seq<nat>, i: nat)
    requires |c.procs| == |d.procs| == n && l < n && EraKept(c, d, n, l, team) && i in team
    requires forall x | 0 <= x < |team| :: team[x] < n && c.procs[team[x]].epoch == c.procs[l].node.term
    ensures d.wins == c.wins && (forall k | 0 <= k < n :: EraSame(c.procs[k], d.procs[k]))
    ensures i < n && c.procs[i].epoch == c.procs[l].node.term == d.procs[l].node.term
  {
    forall k | 0 <= k < n ensures EraSame(c.procs[k], d.procs[k]) {
      if k != l && k !in team {
        assert d.procs[k] == c.procs[k];
      }
    }
  }

  /** The follower's log is then no prefix of the leader's. */
  lemma StillBad(c: Cluster, d: Cluster, n: nat, l: nat, i: nat)
    requires Reachable(c, n, true) && Ready(d, n, true) && |c.procs| == n && l < n && i < n && !JoinAgrees(c, i)
    requires forall k | 0 <= k < n :: EraSame(c.procs[k], d.procs[k])
    requires c.procs[l].node.leader.Some? && c.procs[i].epoch == c.procs[l].node.term == d.procs[l].node.term
    ensures |d.procs[l].node.log| > 0 && |d.procs[i].node.log| > 0
    ensures d.procs[l].node.log[0] == SENTINEL == d.procs[i].node.log[0]
    ensures !(WireAll(d.procs[i].node.log) <= WireAll(d.procs[l].node.log))
  {
    hide Reachable, WireAll, Comparable, FloorInv;
    ReachedFloors(c, n, true);
    ReachedFloors(d, n, true);
    FloorsGive(c);
    FloorsGive(d);
    Formed(d, n, true, l);
    Formed(d, n, true, i);
    BadEra(c, l, i);
    assert EraSame(c.procs[i], d.procs[i]) && EraSame(c.procs[l], d.procs[l]);
    OwnLog(d, l, c.procs[l].node.term);
    PrefixIff(d, i);
  }

  lemma BadEra(c: Cluster, l: nat, i: nat)
    requires ReplicationInv(c) && l < |c.procs| && i < |c.procs| && c.procs[l].node.leader.Some?
    requires c.procs[i].epoch == c.procs[l].node.term && !JoinAgrees(c, i)
    ensures Leads(c, l, c.procs[i].epoch) && c.procs[i].source == l && c.procs[i].epoch > 0
    ensures !Comparable(c.procs[i].base, c.procs[l].led[c.procs[i].epoch].start)
  {
    assert ProcOk(c, l) && RecordsOk(c, i) && RecordsOk(c, l);
    SoleLeader(c, l, c.procs[i].source, c.procs[i].epoch);
  }

  lemma OwnLog(c: Cluster, l: nat, t: nat)
    requires ElectionInv(c) && l < |c.procs| && t == c.procs[l].node.term && t in c.procs[l].led
    ensures c.procs[l].led[t].log == WireAll(c.procs[l].node.log)
  {
    assert ProcOk(c, l);
  }

  lemma WholeDiffers(a: seq<Entry>, b: seq<Entry>, x: seq<Entry>, y: seq<Entry>)
    requires a == x && WireAll(b) == WireAll(y) && |a| == |b| > 0 && |x| > 0 && |y| > 0 && x[0] == y[0]
    requires !(WireAll(y) <= WireAll(x))
    ensures !Comparable(WireAll(a)[1..], WireAll(b)[1..])
  {
    var p, q := WireAll(x), WireAll(y);
    assert |q| == |p|;
    assert p[0] == q[0];
    assert p == [p[0]] + p[1..] && q == [q[0]] + q[1..];
  }

  // ----- what exactly holds

  /** What servers have applied in `c` and what they have applied in `d` agrees. */
  ghost predicate ApplyAlike(c: Cluster, d: Cluster) {
    forall i, j | 0 <= i < |c.procs| && 0 <= j < |d.procs| ::
      Comparable(WireAll(c.procs[i].node.queue), WireAll(d.procs[j].node.queue))
  }

  /** State machine safety over all runs of `n` servers in order. */
  ghost predicate SafeInOrder(n: nat) {
    forall c, events | Reachable(c, n, true) && Run(c, events, true).Some? :: ApplyAlike(c, Run(c, events, true).value)
  }

  /** The same over all runs that keep what was acknowledged. */
  ghost predicate SafeKeeping(n: nat) {
    forall c, events | ReachableKeeping(c, n) && KeepingRun(c, events) ::
      Run(c, events, false).Some? && ApplyAlike(c, Run(c, events, false).value)
  }

  /** Either holds if and only if there are two servers. */
  lemma SafeIffTwoServers(n: nat)
    requires n >= 2
    ensures SafeInOrder(n) <==> n == 2
    ensures SafeKeeping(n) <==> n == 2
  {
    hide SafeInOrder, SafeKeeping;
    if n == 2 {
      TwoSafe();
      KeepingCovers(n);
    } else {
      var c := SomeDivergence(n);
      NotSafe(c, n);
    }
  }

  lemma TwoSafe()
    ensures SafeKeeping(2)
  {
    hide WireAll, Comparable, Run, KeepingRun, ReachableKeeping;
    forall c, events | ReachableKeeping(c, 2) && KeepingRun(c, events)
      ensures Run(c, events, false).Some? && ApplyAlike(c, Run(c, events, false).value)
    {
      TwoAlike(c, events);
    }
  }

  lemma TwoAlike(c: Cluster, events: seq<Event>)
    requires ReachableKeeping(c, 2) && KeepingRun(c, events)
    ensures Run(c, events, false).Some? && ApplyAlike(c, Run(c, events, false).value)
  {
    hide WireAll, Comparable, Run, KeepingRun, ReachableKeeping;
    TwoServersApplied(c, events, 0, 0);
    forall i, j | 0 <= i < |c.procs| && 0 <= j < |Run(c, events, false).value.procs|
      ensures Comparable(WireAll(c.procs[i].node.queue), WireAll(Run(c, events, false).value.procs[j].node.queue))
    {
      TwoServersApplied(c, events, i, j);
    }
  }

  /** Runs in order are among those that keep what was acknowledged. */
  lemma KeepingCovers(n: nat)
    requires SafeKeeping(n)
    ensures SafeInOrder(n)
  {
    hide Run, KeepingRun, Reachable, ReachableKeeping, ApplyAlike, OrderInv;
    forall c, events | Reachable(c, n, true) && Run(c, events, true).Some?
      ensures ApplyAlike(c, Run(c, events, true).value)
    {
      OrderedKeeps(c, n);
      ReachedOrder(c, n);
      ReachedSafe(c, n);
      OrderedRun(c, events);
    }
  }

  lemma NotSafe(c: Cluster, n: nat)
    requires Reachable(c, n, true) && !ApplyAlike(c, c)
    ensures !SafeInOrder(n) && !SafeKeeping(n)
  {
    hide Reachable, ReachableKeeping, ApplyAlike;
    OrderedKeeps(c, n);
    assert Run(c, [], true) == Some(c) && KeepingRun(c, []) && Run(c, [], false) == Some(c);
  }

  lemma SomeDivergence(n: nat) returns (c: Cluster)
    requires n >= 3
    ensures Reachable(c, n, true) && !ApplyAlike(c, c)
  {
    hide WireAll, Comparable, Run, Reachable;
    StartReachable(n, true);
    var events, a, b := StateMachinesDiverge(Init(n), n);
    c := Run(Init(n), events, true).value;
    assert Reaches(Init(n), c, true);
    StaysReachable(Init(n), c, n, true);
  }

  /** A run in order that is not an agreeing one passes through a join that does not agree. */
  lemma {:induction false} FirstBadJoin(c: Cluster, events: seq<Event>) returns (d: Cluster)
    requires |c.procs| >= 2 && FloorInv(c) && JoinsAgree(c) && Run(c, events, true).Some? && !AgreeingRun(c, events)
    ensures Reaches(c, d, true) && !JoinsAgree(d)
    decreases |events|
  {
    hide FloorInv, JoinsAgree, Apply, KeepsAgreeing;
    var e := events[0];
    d := Apply(c, e);
    OneStep(c, e, true);
    TestExact(c, e);
    if KeepsAgreeing(c, e) {
      StepKeepsFloors(c, e);
      StepLocal(c, e);
      var x := FirstBadJoin(d, events[1..]);
      Chain(c, d, x, true);
      d := x;
    }
  }

  /** Log matching fails: with three or more servers some server comes, in order, to a log that is no prefix
      of the log of the leader it follows. */
  lemma LogsDiverge(n: nat) returns (c: Cluster, i: nat)
    requires n >= 3
    ensures Reachable(c, n, true) && |c.procs| == n && i < n && c.procs[i].epoch > 0
    ensures Leads(c, c.procs[i].source, c.procs[i].epoch)
    ensures var era := c.procs[c.procs[i].source].led[c.procs[i].epoch];
      !(WireAll(c.procs[i].node.log) <= era.log) && !Comparable(c.procs[i].base, era.start)
  {
    hide Reachable, WireAll, Comparable, Run, AgreeingRun, Apply, FloorInv, JoinsAgree, ReachableAgreeing, ApplyAlike;
    var bad := SomeDivergence(n);
    if ReachableAgreeing(bad, n) {
      AgreeingAlike(bad, n);
    }
    var events := HowReached(bad, n);
    InitFloors(n);
    FreshInit(n);
    c := FirstBadJoin(Init(n), events);
    StartReachable(n, true);
    StaysReachable(Init(n), c, n, true);
    i := BadServer(c, n);
  }

  lemma AtLeastTwo(c: Cluster, n: nat)
    requires ReachableAgreeing(c, n)
    ensures n >= 2
  {
  }

  lemma AgreeingAlike(c: Cluster, n: nat)
    requires ReachableAgreeing(c, n)
    ensures ApplyAlike(c, c)
  {
    hide WireAll, Comparable, ReachableAgreeing;
    assert KeepingRun(c, []) && AgreeingRun(c, []) && Run(c, [], false) == Some(c);
    AtLeastTwo(c, n);
    AppliedAgree(c, n, [], 0, 0);
    forall i, j | 0 <= i < |c.procs| && 0 <= j < |c.procs|
      ensures Comparable(WireAll(c.procs[i].node.queue), WireAll(c.procs[j].node.queue))
    {
      AppliedAgree(c, n, [], i, j);
    }
  }

  lemma HowReached(c: Cluster, n: nat) returns (events: seq<Event>)
    requires Reachable(c, n, true) && !ReachableAgreeing(c, n)
    ensures Run(Init(n), events, true) == Some(c) && !AgreeingRun(Init(n), events)
  {
    hide Run, AgreeingRun, KeepingRun;
    events :| Run(Init(n), events, true) == Some(c);
    if AgreeingRun(Init(n), events) {
      OrderedAgrees(c, n, events);
    }
  }

  lemma BadServer(c: Cluster, n: nat) returns (i: nat)
    requires Reachable(c, n, true) && !JoinsAgree(c)
    ensures |c.procs| == n && i < n && c.procs[i].epoch > 0
    ensures Leads(c, c.procs[i].source, c.procs[i].epoch)
    ensures var era := c.procs[c.procs[i].source].led[c.procs[i].epoch];
      !(WireAll(c.procs[i].node.log) <= era.log) && !Comparable(c.procs[i].base, era.start)
  {
    hide Reachable, WireAll, Comparable;
    i :| 0 <= i < |c.procs| && c.procs[i].epoch > 0 && !JoinAgrees(c, i);
    ReachedReplication(c, n, true);
    EraPrefixIff(c, n, true, i);
  }
}
