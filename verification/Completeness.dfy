/** Leader completeness, in the form the code supports: whoever wins a later election has a log longer than every
    committed index. An append cuts everything after the entry it starts at, so this needs one test that the code
    does not make: a request must not leave the log shorter than what was acknowledged in the request's term. */
module Completeness {
  import opened Prelude
  import opened Quorums
  import opened RaftNode
  import opened Cluster
  import opened Elections
  import opened Replication
  import opened EraExact

  // ----- the missing test

  /** An acknowledged length is the length of some request that was sent. */
  ghost predicate AckSent(c: Cluster, v: nat, t: nat)
    requires v < |c.procs| && t in c.procs[v].acked
  {
    exists m | m in c.appends :: m.to == v && m.req.term == t && Total(m.req) == c.procs[v].acked[t]
  }

  /** In its current term a server still has what it acknowledged. */
  ghost predicate AckOk(c: Cluster, v: nat)
    requires v < |c.procs|
  {
    var p := c.procs[v];
    && (p.node.term in p.acked ==> |p.node.log| >= p.acked[p.node.term])
    && forall t | t in p.acked :: AckSent(c, v, t)
  }

  ghost predicate LengthInv(c: Cluster) {
    && FloorInv(c)
    && forall v | 0 <= v < |c.procs| :: AckOk(c, v)
  }

  /** The length the log has after the event wrote to it. */
  function NewLength(e: Event): nat
    requires e.AnswerAppend? || (e.CrashInAppend? && e.written.Some?)
  {
    e.m.req.prevLogIndex + 1 + Part(e)
  }

  /** The test: if the server acknowledged something in the term of what is written, the log stays at least that
      long. */
  ghost predicate KeepsAcked(c: Cluster, e: Event) {
    Writes(c, e) && e.m.req.term in c.procs[e.i].acked ==> NewLength(e) >= c.procs[e.i].acked[e.m.req.term]
  }

  lemma AckStays(c: Cluster, d: Cluster, v: nat)
    requires v < |c.procs| && Grows(c, d) && AckOk(c, v) && EpochOk(c, v)
    requires d.procs[v].acked == c.procs[v].acked && |d.procs[v].node.log| >= |c.procs[v].node.log|
    ensures AckOk(d, v)
  {
    assert ProcGrows(c.procs[v], d.procs[v]);
    forall t | t in d.procs[v].acked ensures AckSent(d, v, t) {
      assert AckSent(c, v, t);
    }
  }

  lemma WrittenAck(c: Cluster, e: Event)
    requires LengthInv(c) && Enabled(c, e, false) && Writes(c, e)
    ensures e.i < |Apply(c, e).procs| && (AckOk(Apply(c, e), e.i) <==> KeepsAcked(c, e))
  {
    hide FloorInv, WireAll, Apply, Accepts, ProcGrows;
    var p, q, d := c.procs[e.i], Apply(c, e).procs[e.i], Apply(c, e);
    FloorsGive(c);
    StepGrows(c, e);
    WriteShape(c, e);
    WrittenLength(p, q, e.m.req, Part(e));
    assert AckOk(c, e.i);
    forall t | t in q.acked ensures AckSent(d, e.i, t) {
      if t in p.acked && q.acked[t] == p.acked[t] {
        assert AckSent(c, e.i, t);
      } else {
        assert e.m in d.appends;
      }
    }
  }

  lemma WrittenLength(p: Proc, q: Proc, r: AppendRequest, part: nat)
    requires Written(p, q, r, part)
    ensures |q.node.log| == r.prevLogIndex + 1 + part
  {
    SameWires(q.node.log, p.node.log[..r.prevLogIndex + 1] + r.entries[..part]);
  }

  /** Events that write nothing a leader sent keep a log's length, or extend it. */
  lemma UnwrittenLength(c: Cluster, e: Event)
    requires ReplicationInv(c) && Enabled(c, e, false) && !Writes(c, e)
    ensures var p, q := c.procs[e.i], Apply(c, e).procs[e.i];
      |q.node.log| >= |p.node.log| && q.acked == p.acked
  {
    hide ReplicationInv, WireAll, Apply, LogSame, Writes;
    if e.ClientRequest? {
      ClientShape(c, e);
    } else if Elected(c, e) {
      WonShape(c, e);
    } else {
      QuietShape(c, e);
      SameEra(c.procs[e.i], Apply(c, e).procs[e.i]);
    }
  }

  /** Exactly the steps that pass the test keep what the servers acknowledged, over any network. */
  lemma GuardExact(c: Cluster, e: Event)
    requires |c.procs| >= 2 && LengthInv(c) && Enabled(c, e, false)
    ensures LengthInv(Apply(c, e)) <==> KeepsAcked(c, e)
  {
    hide FloorInv, Apply, AckOk, Writes, ProcGrows;
    var d := Apply(c, e);
    StepKeepsFloors(c, e);
    FloorsGive(c);
    StepGrows(c, e);
    StepLocal(c, e);
    forall v | 0 <= v < |d.procs| && (v != e.i || !Writes(c, e)) ensures AckOk(d, v) {
      assert AckOk(c, v) && RecordsOk(c, v);
      if v == e.i {
        UnwrittenLength(c, e);
      }
      AckStays(c, d, v);
    }
    if Writes(c, e) {
      WrittenAck(c, e);
    }
  }

  // ----- leader completeness: indices a quorum holds, or may still come to hold

  /** Every node of the majority `quorum` either held more than `index` entries in term `t`, or may still. */
  ghost predicate Choosable(c: Cluster, t: nat, index: nat, quorum: set<nat>) {
    && Majority(quorum, |c.procs|)
    && forall v | v in quorum :: Holds(c, v, t, index) || c.procs[v].node.term <= t
  }

  /** What then follows: holders keep more than `index` entries and join later eras with as many, they vote in
      later terms only for candidates with as many, and every later winner had as many when it won. */
  ghost predicate Safe(c: Cluster, t: nat, index: nat, quorum: set<nat>) {
    && (forall v | v in quorum && v < |c.procs| && Holds(c, v, t, index) :: HolderSafe(c.procs[v], t, index))
    && (forall v | v in quorum && v < |c.procs| :: VotesSafe(c.procs[v], t, index))
    && (forall w | w in c.wins && w.term > t :: WinSafe(c, w, index))
  }

  ghost predicate HolderSafe(p: Proc, t: nat, index: nat) {
    |p.node.log| > index && (p.epoch > t ==> |p.base| > index)
  }

  ghost predicate VotesSafe(p: Proc, t: nat, index: nat) {
    forall u | u in p.votes && u > t :: p.votes[u].lastLogIndex >= index
  }

  ghost predicate WinSafe(c: Cluster, w: Win, index: nat) {
    Leads(c, w.leader, w.term) && |c.procs[w.leader].led[w.term].start| > index
  }

  /** How one event can change the history of the server it happens to. */
  ghost predicate HistoryStep(p: Proc, q: Proc) {
    && (forall t | t in q.acked && (t !in p.acked || q.acked[t] != p.acked[t]) :: t == q.node.term >= p.node.term)
    && (forall t | t in q.led && (t !in p.led || q.led[t] != p.led[t]) :: t == q.node.term == p.node.term)
    && (forall t | t in q.votes && t !in p.votes ::
          && t == q.node.term && q.votes[t].lastLogIndex + 1 >= |p.node.log|
          && q.acked == p.acked && q.led == p.led)
    && (forall t | t in p.votes && t in q.votes :: q.votes[t] == p.votes[t])
  }

  lemma HistoryShape(c: Cluster, e: Event)
    requires ReplicationInv(c) && Enabled(c, e, false)
    ensures HistoryStep(c.procs[e.i], Apply(c, e).procs[e.i])
  {
    hide LeaderOk, SentOk, CampaignOk, SliceOk, HandleAppend, AfterVote, AfterAppend, AfterWin, PrepareAppend,
         WireAll, AfterCrashInAppend, HistoryStep;
    var p := c.procs[e.i];
    assert ProcOk(c, e.i) && RecordsOk(c, e.i);
    match e
    case AnswerVote(i, q) => VoteHistory(c, i, q);
    case CountVote(i, a) => CountHistory(c, i, a);
    case AnswerAppend(i, m) =>
      assert AppendOk(c, m);
      AppendHistory(c, i, m);
    case CrashInAppend(i, m, written) => CrashHistory(c.procs[i], m, written);
    case _ => QuietHistory(c, e);
  }

  lemma QuietHistory(c: Cluster, e: Event)
    requires Enabled(c, e, false) && ProcOk(c, e.i) && !e.AnswerVote? && !e.CountVote? && !e.AnswerAppend?
    requires !e.CrashInAppend?
    ensures HistoryStep(c.procs[e.i], Apply(c, e).procs[e.i])
  {
    hide CampaignOk, HandleAppend, HandleVote, AfterVote, AfterAppend, AfterCrashInAppend, AfterWin, PrepareAppend,
         WireAll, CommitChanges;
  }

  lemma CrashHistory(p: Proc, m: AppendMsg, written: Option<nat>)
    requires written.Some? ==> Accepts(p.node, m.req) && written.value <= |m.req.entries|
    ensures HistoryStep(p, AfterCrashInAppend(p, m, written))
  {
  }

  lemma AppendHistory(c: Cluster, i: nat, m: AppendMsg)
    requires i < |c.procs| && ProcOk(c, i) && AppendOk(c, m) && m.to == i
    ensures HistoryStep(c.procs[i], AfterAppend(c.procs[i], m))
  {
    hide CampaignOk, HandleAppend;
    StaleAppend(c.procs[i], m);
    if m.req.term >= c.procs[i].node.term {
      AppendNode(c.procs[i].node, m.req);
    }
  }

  lemma VoteHistory(c: Cluster, i: nat, q: VoteRequest)
    requires i < |c.procs| && ProcOk(c, i) && VoteRequestOk(c, q)
    ensures HistoryStep(c.procs[i], AfterVote(c.procs[i], q))
  {
    var p := c.procs[i];
    assert HandleVote(p.node, q).1.granted ==> q.term !in p.votes && q.lastLogIndex >= |p.node.log| - 1;
  }

  lemma CountHistory(c: Cluster, i: nat, a: VoteAnswer)
    requires ReplicationInv(c) && Enabled(c, CountVote(i, a), false)
    ensures HistoryStep(c.procs[i], Apply(c, CountVote(i, a)).procs[i])
  {
    hide Apply, CampaignOk, WireAll;
    assert ProcOk(c, i);
    CountCases(c, i, a);
  }

  /** What could still be held after a step could be held before it. */
  lemma ChoosableBack(c: Cluster, d: Cluster, k: nat, t: nat, index: nat, quorum: set<nat>)
    requires |c.procs| == |d.procs| && k < |c.procs| && HistoryStep(c.procs[k], d.procs[k])
    requires forall i | 0 <= i < |c.procs| && i != k :: d.procs[i] == c.procs[i]
    requires c.procs[k].node.term <= d.procs[k].node.term
    requires Choosable(d, t, index, quorum)
    ensures Choosable(c, t, index, quorum)
  {
    forall v | v in quorum ensures Holds(c, v, t, index) || c.procs[v].node.term <= t {
      assert Holds(d, v, t, index) || d.procs[v].node.term <= t;
    }
  }

  /** A server still in the term of its acknowledgement or leadership has the log. */
  lemma HoldsNow(c: Cluster, v: nat, t: nat, index: nat)
    requires v < |c.procs| && ProcOk(c, v) && AckOk(c, v) && Holds(c, v, t, index) && c.procs[v].node.term == t
    ensures |c.procs[v].node.log| > index
  {
  }

  /** What a later leader writes to a holder's log starts behind the index. */
  lemma KeptBeyond(c: Cluster, e: Event, t: nat, index: nat, quorum: set<nat>)
    requires FloorInv(c) && Enabled(c, e, false) && Writes(c, e) && e.m.req.term > t && Safe(c, t, index, quorum)
    requires e.i in quorum && Holds(c, e.i, t, index)
    ensures e.m.req.prevLogIndex >= index
  {
    hide FloorInv, Holds, VotesSafe, Accepts;
    FloorsGive(c);
    KeptPart(c, e);
    LaterStart(c, e.m.req.leader, e.m.req.term, t, index, quorum);
  }

  /** A later era was won with a log of more than `index` entries. */
  lemma LaterStart(c: Cluster, l: nat, u: nat, t: nat, index: nat, quorum: set<nat>)
    requires ElectionInv(c) && Leads(c, l, u) && u > t && Safe(c, t, index, quorum)
    ensures |c.procs[l].led[u].start| > index
  {
    assert ProcOk(c, l);
    var w :| w in c.wins && w.term == u && w.leader == l;
    assert WinSafe(c, w, index);
  }

  /** A holder of term `t` that writes in a later term already held before. */
  lemma HeldBefore(c: Cluster, d: Cluster, v: nat, t: nat, index: nat)
    requires v < |c.procs| == |d.procs| && HistoryStep(c.procs[v], d.procs[v]) && d.procs[v].node.term != t
    requires Holds(d, v, t, index)
    ensures Holds(c, v, t, index)
  {
  }

  lemma HeldTerm(c: Cluster, v: nat, t: nat, index: nat)
    requires v < |c.procs| && ProcOk(c, v) && EpochOk(c, v) && Holds(c, v, t, index)
    ensures t <= c.procs[v].node.term && c.procs[v].epoch <= c.procs[v].node.term
  {
  }

  lemma HolderStaysSafe(c: Cluster, e: Event, t: nat, index: nat, quorum: set<nat>)
    requires LengthInv(c) && Enabled(c, e, false) && LengthInv(Apply(c, e)) && Safe(c, t, index, quorum)
    requires e.i in quorum && e.i < |Apply(c, e).procs| && Holds(Apply(c, e), e.i, t, index)
    ensures HolderSafe(Apply(c, e).procs[e.i], t, index)
  {
    hide FloorInv, Holds, Apply, Writes, HistoryStep, VotesSafe, WinSafe;
    var d := Apply(c, e);
    FloorsGive(c);
    FloorsGive(d);
    HistoryShape(c, e);
    assert ProcOk(d, e.i) && RecordsOk(d, e.i) && AckOk(d, e.i);
    HeldTerm(d, e.i, t, index);
    if d.procs[e.i].node.term == t {
      HoldsNow(d, e.i, t, index);
    } else {
      HeldBefore(c, d, e.i, t, index);
      LaterHolder(c, e, t, index, quorum);
    }
  }

  lemma LaterHolder(c: Cluster, e: Event, t: nat, index: nat, quorum: set<nat>)
    requires FloorInv(c) && Enabled(c, e, false) && Safe(c, t, index, quorum)
    requires e.i in quorum && Holds(c, e.i, t, index) && Apply(c, e).procs[e.i].node.term > t
    ensures HolderSafe(Apply(c, e).procs[e.i], t, index)
  {
    hide FloorInv, Holds, Apply, VotesSafe, WinSafe, Accepts, WireAll, LogSame;
    var p, q := c.procs[e.i], Apply(c, e).procs[e.i];
    FloorsGive(c);
    assert HolderSafe(p, t, index);
    if Writes(c, e) {
      WriteShape(c, e);
      WrittenLength(p, q, e.m.req, Part(e));
      KeptBeyond(c, e, t, index, quorum);
      assert |WireAll(p.node.log)| == |p.node.log|;
    } else if e.ClientRequest? {
      ClientShape(c, e);
    } else if Elected(c, e) {
      WonShape(c, e);
      assert |WireAll(p.node.log)| == |p.node.log|;
    } else {
      QuietShape(c, e);
      SameEra(p, q);
    }
  }

  lemma VotesStaySafe(c: Cluster, e: Event, t: nat, index: nat, quorum: set<nat>)
    requires ReplicationInv(c) && Enabled(c, e, false) && Safe(c, t, index, quorum) && Choosable(Apply(c, e), t, index, quorum)
    ensures forall v | v in quorum && v < |c.procs| :: VotesSafe(Apply(c, e).procs[v], t, index)
  {
    var d := Apply(c, e);
    StepLocal(c, e);
    HistoryShape(c, e);
    forall v | v in quorum && v < |c.procs| ensures VotesSafe(d.procs[v], t, index) {
      assert VotesSafe(c.procs[v], t, index);
      if v != e.i {
        assert d.procs[v] == c.procs[v];
      } else {
        VoterSafe(c, d, v, t, index);
      }
    }
  }

  /** A holder that votes in a later term votes for a candidate with more than `index` entries. */
  lemma VoterSafe(c: Cluster, d: Cluster, v: nat, t: nat, index: nat)
    requires v < |c.procs| == |d.procs| && HistoryStep(c.procs[v], d.procs[v]) && VotesSafe(c.procs[v], t, index)
    requires Holds(c, v, t, index) ==> HolderSafe(c.procs[v], t, index)
    requires Holds(d, v, t, index) || d.procs[v].node.term <= t
    ensures VotesSafe(d.procs[v], t, index)
  {
    forall u | u in d.procs[v].votes && u > t ensures d.procs[v].votes[u].lastLogIndex >= index {
      if u !in c.procs[v].votes {
        assert Holds(d, v, t, index) && Holds(c, v, t, index);
      }
    }
  }

  lemma WinnerSafe(c: Cluster, i: nat, a: VoteAnswer, t: nat, index: nat, quorum: set<nat>)
    requires ReplicationInv(c) && Enabled(c, CountVote(i, a), false) && VerdictOf(c.procs[i], a, |c.procs|).Won?
    requires Safe(c, t, index, quorum) && Majority(quorum, |c.procs|) && c.procs[i].node.term > t
    ensures |c.procs[i].node.log| > index
  {
    var q := RequestOf(c.procs[i].node, i);
    GrantedVoted(c, i, a);
    forall v | v in Granted(c.procs[i], a) ensures v < |c.procs| {
      assert Voted(c, v, q);
    }
    var v := MajoritiesMeet(quorum, Granted(c.procs[i], a), |c.procs|);
    assert Voted(c, v, q) && VotesSafe(c.procs[v], t, index);
  }

  lemma WinsStaySafe(c: Cluster, e: Event, t: nat, index: nat, quorum: set<nat>)
    requires ReplicationInv(c) && Enabled(c, e, false) && Safe(c, t, index, quorum) && Majority(quorum, |c.procs|)
    ensures forall w | w in Apply(c, e).wins && w.term > t :: WinSafe(Apply(c, e), w, index)
  {
    var d := Apply(c, e);
    StepGrows(c, e);
    forall w | w in d.wins && w.term > t ensures WinSafe(d, w, index) {
      if w in c.wins {
        assert WinSafe(c, w, index);
        assert ProcGrows(c.procs[w.leader], d.procs[w.leader]);
      } else {
        WinnerSafe(c, e.i, e.vote, t, index, quorum);
      }
    }
  }

  lemma StepSafe(c: Cluster, e: Event, t: nat, index: nat, quorum: set<nat>)
    requires |c.procs| >= 2 && LengthInv(c) && Enabled(c, e, false) && KeepsAcked(c, e)
    requires Choosable(c, t, index, quorum) ==> Safe(c, t, index, quorum)
    requires Choosable(Apply(c, e), t, index, quorum)
    ensures Safe(Apply(c, e), t, index, quorum)
  {
    hide Choosable, Holds, HistoryStep, FloorInv, AckOk, WinSafe, VotesSafe, HolderSafe, Apply, KeepsAcked;
    GuardExact(c, e);
    FloorsGive(c);
    StepGrows(c, e);
    StepLocal(c, e);
    HistoryShape(c, e);
    assert ProcGrows(c.procs[e.i], Apply(c, e).procs[e.i]);
    ChoosableBack(c, Apply(c, e), e.i, t, index, quorum);
    HoldersStaySafe(c, e, t, index, quorum);
    VotesStaySafe(c, e, t, index, quorum);
    ChoosableMajority(c, t, index, quorum);
    WinsStaySafe(c, e, t, index, quorum);
  }

  lemma ChoosableMajority(c: Cluster, t: nat, index: nat, quorum: set<nat>)
    requires Choosable(c, t, index, quorum)
    ensures Majority(quorum, |c.procs|)
  {
  }

  lemma HoldersStaySafe(c: Cluster, e: Event, t: nat, index: nat, quorum: set<nat>)
    requires LengthInv(c) && Enabled(c, e, false) && LengthInv(Apply(c, e)) && Safe(c, t, index, quorum)
    ensures forall v | v in quorum && v < |Apply(c, e).procs| && Holds(Apply(c, e), v, t, index) ::
      HolderSafe(Apply(c, e).procs[v], t, index)
  {
    hide LengthInv, Apply, HolderSafe, VotesSafe, WinSafe;
    var d := Apply(c, e);
    StepLocal(c, e);
    forall v | v in quorum && v < |d.procs| && Holds(d, v, t, index) ensures HolderSafe(d.procs[v], t, index) {
      if v == e.i {
        HolderStaysSafe(c, e, t, index, quorum);
      } else {
        assert Holds(c, v, t, index);
      }
    }
  }

  ghost predicate AllSafe(c: Cluster) {
    forall t, index, quorum :: Choosable(c, t, index, quorum) ==> Safe(c, t, index, quorum)
  }

  lemma StepAllSafe(c: Cluster, e: Event)
    requires |c.procs| >= 2 && LengthInv(c) && AllSafe(c) && Enabled(c, e, false) && KeepsAcked(c, e)
    ensures AllSafe(Apply(c, e))
  {
    hide LengthInv, KeepsAcked, Apply, Choosable, Safe;
    var d := Apply(c, e);
    forall t, index, quorum | Choosable(d, t, index, quorum) ensures Safe(d, t, index, quorum) {
      StepSafe(c, e, t, index, quorum);
    }
  }

  /** A committed index is below the length of the log every later winner started with. */
  lemma LaterWin(c: Cluster, k: Commit, w: Win)
    requires ReplicationInv(c) && AllSafe(c) && k in c.commits && w in c.wins && w.term > k.term
    ensures Leads(c, w.leader, w.term) && |c.procs[w.leader].led[w.term].start| > k.index
  {
    assert CommitOk(c, k);
    assert Choosable(c, k.term, k.index, k.holders);
    assert WinSafe(c, w, k.index);
  }

  // ----- what a holder has, it keeps

  /** Writing for a leader keeps the first `n` entries of a log if both logs have as many, unless a new leader
      writes before them. */
  lemma WriteKeeps(c: Cluster, e: Event, n: nat)
    requires FloorInv(c) && Enabled(c, e, false) && FloorInv(Apply(c, e)) && Writes(c, e)
    requires n <= |c.procs[e.i].node.log| && n <= |Apply(c, e).procs[e.i].node.log|
    requires n <= e.m.req.prevLogIndex + 1 || c.procs[e.i].epoch == e.m.req.term
    ensures WireAll(c.procs[e.i].node.log)[..n] == WireAll(Apply(c, e).procs[e.i].node.log)[..n]
  {
    hide FloorInv, Apply, Accepts, WireAll, Graft;
    FloorsGive(c);
    WriteShape(c, e);
    StepLocal(c, e);
    var p, q := c.procs[e.i], Apply(c, e).procs[e.i];
    if n <= e.m.req.prevLogIndex + 1 {
      KeptStart(p, q, e.m.req, Part(e), n);
    } else {
      KeptPart(c, e);
      EraOf(c, e.i);
      EraOf(Apply(c, e), e.i);
      MessageSlice(c, e.m);
      SameGraft(q.base, c.procs[p.source].led[p.epoch], p.node.log, q.node.log, n);
    }
  }

  lemma KeptStart(p: Proc, q: Proc, r: AppendRequest, part: nat, n: nat)
    requires Written(p, q, r, part) && n <= r.prevLogIndex + 1
    ensures n <= |q.node.log| && WireAll(p.node.log)[..n] == WireAll(q.node.log)[..n]
  {
    WrittenLength(p, q, r, part);
    var w := WireAll(p.node.log[..r.prevLogIndex + 1] + r.entries[..part]);
    assert WireAll(p.node.log)[..n] == w[..n];
  }

  lemma SameGraft(base: seq<Entry>, era: Era, a: seq<Entry>, b: seq<Entry>, n: nat)
    requires Graft(base, era, a) && Graft(base, era, b) && n <= |a| && n <= |b|
    ensures WireAll(a)[..n] == WireAll(b)[..n]
  {
    var k := Shared(base, era.start);
    assert era.log[k..|a|] <= era.log[k..] && era.log[k..|b|] <= era.log[k..];
  }

  /** The first entries of a holder's log stay the same in every step. */
  lemma HeldStays(c: Cluster, e: Event, t: nat, index: nat, quorum: set<nat>, v: nat)
    requires FloorInv(c) && Enabled(c, e, false) && FloorInv(Apply(c, e)) && Safe(c, t, index, quorum)
    requires v in quorum && v < |Apply(c, e).procs| && Holds(c, v, t, index)
    requires index < |Apply(c, e).procs[v].node.log|
    ensures index < |c.procs[v].node.log|
    ensures WireAll(c.procs[v].node.log)[..index + 1] == WireAll(Apply(c, e).procs[v].node.log)[..index + 1]
  {
    hide FloorInv, Apply, WireAll, VotesSafe, WinSafe, Holds, Accepts;
    StepLocal(c, e);
    assert HolderSafe(c.procs[v], t, index);
    if v == e.i {
      if Writes(c, e) {
        HolderWrites(c, e, t, index, quorum);
        WriteKeeps(c, e, index + 1);
      } else {
        LogKept(c, e);
      }
    }
  }

  lemma HolderWrites(c: Cluster, e: Event, t: nat, index: nat, quorum: set<nat>)
    requires FloorInv(c) && Enabled(c, e, false) && Safe(c, t, index, quorum) && Writes(c, e)
    requires e.i in quorum && Holds(c, e.i, t, index)
    ensures e.m.req.prevLogIndex >= index || c.procs[e.i].epoch == e.m.req.term
  {
    hide FloorInv, Safe, Accepts;
    FloorsGive(c);
    if e.m.req.term > t {
      KeptBeyond(c, e, t, index, quorum);
    } else {
      WriteTerm(c, e);
      assert ProcOk(c, e.i) && RecordsOk(c, e.i);
      NotOwnEra(c, e.i, e.m);
    }
  }

  lemma WriteTerm(c: Cluster, e: Event)
    requires Enabled(c, e, false) && Writes(c, e)
    ensures e.m in c.appends && e.m.to == e.i && e.m.req.term >= c.procs[e.i].node.term
  {
  }

  /** Events that write nothing a leader sent keep a server's log, or extend it. */
  lemma LogKept(c: Cluster, e: Event)
    requires FloorInv(c) && Enabled(c, e, false) && !Writes(c, e)
    ensures WireAll(c.procs[e.i].node.log) <= WireAll(Apply(c, e).procs[e.i].node.log)
  {
    hide FloorInv, Apply, LogSame;
    FloorsGive(c);
    if e.ClientRequest? {
      ClientShape(c, e);
    } else if Elected(c, e) {
      WonShape(c, e);
    } else {
      QuietShape(c, e);
      SameEra(c.procs[e.i], Apply(c, e).procs[e.i]);
    }
  }

  // ----- runs

  /** A run, over any network, in which every write passes the test. */
  ghost predicate KeepingRun(c: Cluster, events: seq<Event>)
    decreases |events|
  {
    events == [] ||
    (Enabled(c, events[0], false) && KeepsAcked(c, events[0]) && KeepingRun(Apply(c, events[0]), events[1..]))
  }

  ghost predicate ReachableKeeping(c: Cluster, n: nat) {
    n >= 2 && exists events :: Run(Init(n), events, false) == Some(c) && KeepingRun(Init(n), events)
  }

  lemma {:induction false} RunSafe(c: Cluster, events: seq<Event>)
    requires |c.procs| >= 2 && LengthInv(c) && AllSafe(c) && KeepingRun(c, events)
    ensures Run(c, events, false).Some?
    ensures var d := Run(c, events, false).value; LengthInv(d) && AllSafe(d) && Grows(c, d)
    decreases |events|
  {
    hide LengthInv, AllSafe, KeepsAcked, Apply, Grows;
    LengthGives(c);
    if events == [] {
      GrowsSelf(c);
    } else {
      var d := Apply(c, events[0]);
      GuardExact(c, events[0]);
      StepLocal(c, events[0]);
      StepAllSafe(c, events[0]);
      StepGrows(c, events[0]);
      RunSafe(d, events[1..]);
      GrowsTwice(c, d, Run(c, events, false).value);
    }
  }

  lemma LengthGives(c: Cluster)
    requires LengthInv(c)
    ensures FloorInv(c) && ReplicationInv(c) && ElectionInv(c)
  {
  }

  lemma GrowsSelf(c: Cluster)
    ensures Grows(c, c)
  {
  }

  lemma GrowsTwice(c: Cluster, d: Cluster, e: Cluster)
    requires Grows(c, d) && Grows(d, e)
    ensures Grows(c, e)
  {
    forall i | 0 <= i < |c.procs| ensures ProcGrows(c.procs[i], e.procs[i]) {
      assert ProcGrows(c.procs[i], d.procs[i]) && ProcGrows(d.procs[i], e.procs[i]);
    }
  }

  lemma InitSafe(n: nat)
    ensures LengthInv(Init(n)) && AllSafe(Init(n))
  {
    InitFloors(n);
    forall t, index, quorum | Choosable(Init(n), t, index, quorum) ensures Safe(Init(n), t, index, quorum) {
    }
  }

  lemma ReachedSafe(c: Cluster, n: nat)
    requires ReachableKeeping(c, n)
    ensures LengthInv(c) && |c.procs| == n >= 2 && AllSafe(c)
  {
    hide LengthInv, AllSafe, KeepsAcked, Apply, Run;
    var events :| Run(Init(n), events, false) == Some(c) && KeepingRun(Init(n), events);
    InitSafe(n);
    RunSafe(Init(n), events);
  }

  /** Leader completeness: once a leader of term `k.term` has raised its commit index to `k.index`, every
      server that wins a later term does so with a log of more than `k.index` entries. */
  lemma LeaderCompleteness(c: Cluster, n: nat, k: Commit, w: Win)
    requires ReachableKeeping(c, n) && k in c.commits && w in c.wins && w.term > k.term
    ensures Leads(c, w.leader, w.term) && |c.procs[w.leader].led[w.term].start| > k.index
  {
    ReachedSafe(c, n);
    LaterWin(c, k, w);
  }

  /** Durability: no server of the quorum behind a commit ever again has a log of `k.index` entries or fewer. */
  lemma CommittedLengthStays(c: Cluster, n: nat, k: Commit, v: nat)
    requires ReachableKeeping(c, n) && k in c.commits && v in k.holders
    ensures v < n && |c.procs| == n && |c.procs[v].node.log| > k.index
  {
    ReachedSafe(c, n);
    HolderKeeps(c, k, v);
  }

  lemma HolderKeeps(c: Cluster, k: Commit, v: nat)
    requires ReplicationInv(c) && AllSafe(c) && k in c.commits && v in k.holders
    ensures v < |c.procs| && |c.procs[v].node.log| > k.index
    ensures Holds(c, v, k.term, k.index) && Safe(c, k.term, k.index, k.holders)
  {
    assert CommitOk(c, k) && Holds(c, v, k.term, k.index);
    assert Choosable(c, k.term, k.index, k.holders);
    assert HolderSafe(c.procs[v], k.term, k.index);
  }

  /** In a step the entries up to a committed index stay the same on every server behind the commit. */
  lemma CommittedStep(c: Cluster, e: Event, k: Commit, v: nat)
    requires |c.procs| >= 2 && LengthInv(c) && AllSafe(c) && Enabled(c, e, false) && KeepsAcked(c, e)
    requires k in c.commits && v in k.holders
    ensures k in Apply(c, e).commits && v < |c.procs| == |Apply(c, e).procs|
    ensures var a, b := c.procs[v].node.log, Apply(c, e).procs[v].node.log;
      k.index < |a| && k.index < |b| && WireAll(a)[..k.index + 1] == WireAll(b)[..k.index + 1]
  {
    hide LengthInv, AllSafe, KeepsAcked, Apply, WireAll, Holds, Safe;
    var d := Apply(c, e);
    LengthGives(c);
    HolderKeeps(c, k, v);
    GuardExact(c, e);
    StepLocal(c, e);
    StepAllSafe(c, e);
    LengthGives(d);
    HolderKeeps(d, k, v);
    HeldStays(c, e, k.term, k.index, k.holders, v);
  }

  lemma {:induction false} CommittedRun(c: Cluster, events: seq<Event>, k: Commit, v: nat)
    requires |c.procs| >= 2 && LengthInv(c) && AllSafe(c) && KeepingRun(c, events) && k in c.commits && v in k.holders
    ensures Run(c, events, false).Some? && v < |c.procs| == |Run(c, events, false).value.procs|
    ensures var a, b := c.procs[v].node.log, Run(c, events, false).value.procs[v].node.log;
      k.index < |a| && k.index < |b| && WireAll(a)[..k.index + 1] == WireAll(b)[..k.index + 1]
    decreases |events|
  {
    hide LengthInv, AllSafe, KeepsAcked, Apply, WireAll;
    if events == [] {
      LengthGives(c);
      HolderKeeps(c, k, v);
    } else {
      GuardExact(c, events[0]);
      StepAllSafe(c, events[0]);
      CommittedStep(c, events[0], k, v);
      CommittedRun(Apply(c, events[0]), events[1..], k, v);
    }
  }

  /** And the entries up to `k.index` that such a server has at the commit are the ones it always has. */
  lemma CommittedEntriesStay(c: Cluster, n: nat, events: seq<Event>, k: Commit, v: nat)
    requires ReachableKeeping(c, n) && KeepingRun(c, events) && k in c.commits && v in k.holders
    ensures Run(c, events, false).Some? && v < n == |c.procs| == |Run(c, events, false).value.procs|
    ensures var a, b := c.procs[v].node.log, Run(c, events, false).value.procs[v].node.log;
      k.index < |a| && k.index < |b| && WireAll(a)[..k.index + 1] == WireAll(b)[..k.index + 1]
  {
    ReachedSafe(c, n);
    CommittedRun(c, events, k, v);
  }
}
