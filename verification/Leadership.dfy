/** When a server starts and stops calling itself leader, and when it starts and stops keeping leader bookkeeping,
    over every run and every network. */
module Leadership {
  import opened Prelude
  import opened RaftNode
  import opened Cluster
  import opened Elections

  /** The step records a new election won by server `i`. */
  ghost predicate Wins(c: Cluster, d: Cluster, i: nat) {
    exists w :: w in d.wins && w !in c.wins && w.leader == i
  }

  /** The server counts an answer of a term beyond its own. */
  ghost predicate Surpassed(e: Event, term: nat) {
    e.CountAppend? && e.answer.reply.term > term
  }

  /** The flag comes with a won election and lasts while the bookkeeping does and no answer of a higher term is
      counted. The bookkeeping lasts as long as the term and the process. */
  ghost predicate Exact(c: Cluster, e: Event, d: Cluster)
    requires e.i < |c.procs| == |d.procs|
  {
    var n, m := c.procs[e.i].node, d.procs[e.i].node;
    && (m.isLeader <==> Wins(c, d, e.i) || (n.isLeader && m.leader.Some? && !Surpassed(e, n.term)))
    && (m.leader.Some? <==> Wins(c, d, e.i) || (n.leader.Some? && m.term == n.term && !Crashes(e)))
  }

  lemma LeadershipExact(c: Cluster, n: nat, ordered: bool, e: Event)
    requires Reachable(c, n, ordered) && Enabled(c, e, ordered)
    ensures Enabled(c, e, false) && Exact(c, e, Apply(c, e))
  {
    hide Run, Apply, Exact;
    ReachedElections(c, n, ordered);
    StepExact(c, e);
  }

  lemma StepExact(c: Cluster, e: Event)
    requires ElectionInv(c) && Enabled(c, e, false)
    ensures Exact(c, e, Apply(c, e))
  {
    hide Exact;
    match e
    case AnswerVote(i, q) => VoteExact(c, i, q);
    case CountVote(i, a) => CountExact(c, i, a);
    case AnswerAppend(i, m) => AppendExact(c, i, m);
    case CountAppend(i, a) => HeardExact(c, i, a);
    case _ => QuietExact(c, e);
  }

  lemma VoteExact(c: Cluster, i: nat, q: VoteRequest)
    requires ElectionInv(c) && Enabled(c, AnswerVote(i, q), false)
    ensures Exact(c, AnswerVote(i, q), Apply(c, AnswerVote(i, q)))
  {
    hide CampaignOk, VoteRequestOk, VoteAnswerOk, WinOk, AppendOk;
    assert ProcOk(c, i);
  }

  lemma HeardExact(c: Cluster, i: nat, a: AppendAnswer)
    requires ElectionInv(c) && Enabled(c, CountAppend(i, a), false)
    ensures Exact(c, CountAppend(i, a), Apply(c, CountAppend(i, a)))
  {
    hide CampaignOk, VoteRequestOk, VoteAnswerOk, WinOk, AppendOk;
    assert ProcOk(c, i);
  }

  lemma AppendExact(c: Cluster, i: nat, m: AppendMsg)
    requires ElectionInv(c) && Enabled(c, AnswerAppend(i, m), false)
    ensures Exact(c, AnswerAppend(i, m), Apply(c, AnswerAppend(i, m)))
  {
    hide CampaignOk, VoteRequestOk, VoteAnswerOk, WinOk, HandleAppend, AfterAppend;
    assert ProcOk(c, i) && AppendOk(c, m);
    NotOwnEra(c, i, m);
    var p := c.procs[i];
    StaleAppend(p, m);
    if m.req.term >= p.node.term {
      AppendNode(p.node, m.req);
      AppendedNode(p, m);
    }
  }

  lemma AppendedNode(p: Proc, m: AppendMsg)
    ensures AfterAppend(p, m).node == HandleAppend(p.node, m.req).0
  {
    hide HandleAppend;
  }

  lemma CountExact(c: Cluster, i: nat, a: VoteAnswer)
    requires ElectionInv(c) && Enabled(c, CountVote(i, a), false)
    ensures Exact(c, CountVote(i, a), Apply(c, CountVote(i, a)))
  {
    hide VoteRequestOk, VoteAnswerOk, WinOk, AppendOk;
    assert ProcOk(c, i);
    CountCases(c, i, a);
    if VerdictOf(c.procs[i], a, |c.procs|).Won? {
      var w := Win(c.procs[i].node.term, i, Granted(c.procs[i], a));
      GrantedVoted(c, i, a);
      if w in c.wins {
        NewTerm(c, i, w.voters, w);
      }
      assert w in Apply(c, CountVote(i, a)).wins;
    }
  }

  lemma QuietExact(c: Cluster, e: Event)
    requires ElectionInv(c) && Enabled(c, e, false)
    requires !e.AnswerVote? && !e.CountVote? && !e.AnswerAppend? && !e.CountAppend?
    ensures Exact(c, e, Apply(c, e))
  {
    hide VoteRequestOk, VoteAnswerOk, WinOk, AppendOk, HandleAppend, AfterAppend, PrepareAppend, WireAll,
         Accepts, PartlyAppended, Joining;
    assert ProcOk(c, e.i);
  }

  // ----- over runs

  lemma NoWinBetween(c: Cluster, d: Cluster, e: Event, i: nat)
    requires c.wins <= d.wins && !Wins(c, d, i)
    requires Enabled(c, e, false) && Apply(c, e).wins <= d.wins
    ensures !Wins(c, Apply(c, e), i) && !Wins(Apply(c, e), d, i)
  {
    hide Apply;
    StepLocal(c, e);
  }

  lemma {:induction false} WinsStay(c: Cluster, events: seq<Event>, ordered: bool)
    requires Run(c, events, ordered).Some?
    ensures |Run(c, events, ordered).value.procs| == |c.procs| && c.wins <= Run(c, events, ordered).value.wins
    decreases |events|
  {
    hide Apply;
    if events != [] {
      StepLocal(c, events[0]);
      WinsStay(Apply(c, events[0]), events[1..], ordered);
    }
  }

  /** Without the flag, the flag only comes back with an election won. */
  lemma {:induction false} FlagStaysDown(c: Cluster, events: seq<Event>, ordered: bool, i: nat)
    requires ElectionInv(c) && i < |c.procs| && !c.procs[i].node.isLeader && Run(c, events, ordered).Some?
    ensures var d := Run(c, events, ordered).value;
      |d.procs| == |c.procs| && (!Wins(c, d, i) ==> !d.procs[i].node.isLeader)
    decreases |events|
  {
    hide Apply, ElectionInv, Wins;
    WinsStay(c, events, ordered);
    if events != [] {
      var e, d := events[0], Run(c, events, ordered).value;
      StepLocal(c, e);
      StepKeepsElections(c, e);
      StepExact(c, e);
      WinsStay(Apply(c, e), events[1..], ordered);
      if !Wins(c, d, i) {
        NoWinBetween(c, d, e, i);
        FlagStaysDown(Apply(c, e), events[1..], ordered, i);
      }
    }
  }

  /** A leader that counts an answer of a higher term begins no broadcast any more until it wins an election. */
  lemma DeposedUntilWin(c: Cluster, n: nat, ordered: bool, i: nat, a: AppendAnswer, events: seq<Event>, d: Cluster)
    requires Reachable(c, n, ordered) && Enabled(c, CountAppend(i, a), ordered)
    requires a.reply.term > c.procs[i].node.term
    requires Enabled(c, CountAppend(i, a), false) && Run(Apply(c, CountAppend(i, a)), events, ordered) == Some(d)
    requires forall w | w in d.wins && w.leader == i :: w in c.wins
    ensures i < |d.procs| && !d.procs[i].node.isLeader && !Enabled(d, BeginBroadcast(i), ordered)
  {
    hide Run, Apply, Wins, ElectionInv;
    var e := CountAppend(i, a);
    ReachedElections(c, n, ordered);
    StepExact(c, e);
    StepLocal(c, e);
    StepKeepsElections(c, e);
    WinsStay(Apply(c, e), events, ordered);
    NoWinBetween(c, d, e, i) by {
      assert !Wins(c, d, i) by { NoNewWin(c, d, i); }
    }
    assert e.i == i;
    FlagStaysDown(Apply(c, e), events, ordered, i);
  }

  lemma NoNewWin(c: Cluster, d: Cluster, i: nat)
    requires forall w | w in d.wins && w.leader == i :: w in c.wins
    ensures !Wins(c, d, i)
  {
  }

  /** No answer that the server counts in these events has a term beyond `term`. */
  ghost predicate Unsurpassed(events: seq<Event>, i: nat, term: nat) {
    forall k | 0 <= k < |events| && events[k].i == i :: !Surpassed(events[k], term)
  }

  lemma TermUp(c: Cluster, e: Event, i: nat)
    requires ElectionInv(c) && Enabled(c, e, false) && i < |c.procs|
    ensures |Apply(c, e).procs| == |c.procs| && c.procs[i].node.term <= Apply(c, e).procs[i].node.term
  {
    hide Apply, ElectionInv;
    StepGrows(c, e);
    assert ProcGrows(c.procs[i], Apply(c, e).procs[i]);
  }

  lemma {:induction false} TermsGrow(c: Cluster, events: seq<Event>, ordered: bool, i: nat)
    requires ElectionInv(c) && i < |c.procs| && Run(c, events, ordered).Some?
    ensures var d := Run(c, events, ordered).value; |d.procs| == |c.procs| && c.procs[i].node.term <= d.procs[i].node.term
    decreases |events|
  {
    hide Apply, ElectionInv;
    if events != [] {
      StepKeepsElections(c, events[0]);
      TermUp(c, events[0], i);
      TermsGrow(Apply(c, events[0]), events[1..], ordered, i);
    }
  }

  /** While it runs on in the term it leads, a server keeps its bookkeeping, and it keeps its flag exactly if it had
      it and counts no answer of a higher term. */
  lemma {:induction false} FlagInTerm(c: Cluster, events: seq<Event>, ordered: bool, i: nat)
    requires ElectionInv(c) && i < |c.procs| && c.procs[i].node.leader.Some? && Run(c, events, ordered).Some?
    requires KeepsRunning(events, i)
    ensures var d := Run(c, events, ordered).value;
      && |d.procs| == |c.procs|
      && (d.procs[i].node.term == c.procs[i].node.term ==>
            && d.procs[i].node.leader.Some?
            && (d.procs[i].node.isLeader <==> c.procs[i].node.isLeader && Unsurpassed(events, i, c.procs[i].node.term)))
    decreases |events|
  {
    hide Apply, ElectionInv, Surpassed, Unsurpassed, KeepsRunning;
    WinsStay(c, events, ordered);
    if events == [] {
      assert Unsurpassed(events, i, c.procs[i].node.term) by { NothingHeard(i, c.procs[i].node.term); }
    } else {
      var e, term := events[0], c.procs[i].node.term;
      StepLocal(c, e);
      StepKeepsElections(c, e);
      TermsGrow(Apply(c, e), events[1..], ordered, i);
      TermUp(c, e, i);
      if Run(c, events, ordered).value.procs[i].node.term == term {
        RunsOn(events, i);
        StepInTerm(c, e, i);
        FlagInTerm(Apply(c, e), events[1..], ordered, i);
        UnsurpassedStep(events, i, term);
      }
    }
  }

  lemma NothingHeard(i: nat, term: nat)
    ensures Unsurpassed([], i, term)
  {
  }

  lemma UnsurpassedStep(events: seq<Event>, i: nat, term: nat)
    requires events != []
    ensures Unsurpassed(events, i, term) <==>
      (events[0].i == i ==> !Surpassed(events[0], term)) && Unsurpassed(events[1..], i, term)
  {
    if Unsurpassed(events[1..], i, term) {
      assert forall k | 0 < k < |events| :: events[1..][k - 1] == events[k];
    }
  }

  /** A server with bookkeeping wins nothing in the same term. */
  lemma StepInTerm(c: Cluster, e: Event, i: nat)
    requires ElectionInv(c) && Enabled(c, e, false) && i < |c.procs| && c.procs[i].node.leader.Some?
    requires e.i == i ==> !Crashes(e)
    requires i < |Apply(c, e).procs| && Apply(c, e).procs[i].node.term == c.procs[i].node.term
    ensures var m := Apply(c, e).procs[i].node;
      && m.leader.Some?
      && (m.isLeader <==> c.procs[i].node.isLeader && (e.i == i ==> !Surpassed(e, c.procs[i].node.term)))
  {
    hide Apply;
    StepLocal(c, e);
    if e.i == i {
      StepExact(c, e);
      assert ProcOk(c, i);
      if Wins(c, Apply(c, e), i) {
        OnlyCampaignsWin(c, e);
      }
    }
  }

  lemma OnlyCampaignsWin(c: Cluster, e: Event)
    requires Enabled(c, e, false) && !e.CountVote?
    ensures Apply(c, e).wins == c.wins
  {
  }

  /** A leader that runs on in its term keeps its bookkeeping, and its flag if and only if no answer it counts has a
      higher term. */
  lemma LeadsWhileUnsurpassed(c: Cluster, n: nat, ordered: bool, i: nat, events: seq<Event>, d: Cluster)
    requires Reachable(c, n, ordered) && i < |c.procs| && c.procs[i].node.isLeader
    requires Run(c, events, ordered) == Some(d) && KeepsRunning(events, i)
    requires i < |d.procs| && d.procs[i].node.term == c.procs[i].node.term
    ensures d.procs[i].node.leader.Some?
    ensures d.procs[i].node.isLeader <==> Unsurpassed(events, i, c.procs[i].node.term)
  {
    hide Run, Apply;
    ReachedElections(c, n, ordered);
    assert ProcOk(c, i);
    FlagInTerm(c, events, ordered, i);
  }
}
