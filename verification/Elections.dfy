/** Votes, campaigns and leadership over every run, with no assumption on the network. */
module Elections {
  import opened Prelude
  import opened Quorums
  import opened RaftNode
  import opened CommitIndex
  import opened Cluster

  ghost predicate ZeroTerms(s: seq<Entry>) {
    forall k | 0 <= k < |s| :: s[k].term == 0
  }

  /** `v` voted for exactly the request `q` in its term. */
  ghost predicate Voted(c: Cluster, v: nat, q: VoteRequest) {
    v < |c.procs| && q.term in c.procs[v].votes && c.procs[v].votes[q.term] == q
  }

  ghost predicate Leads(c: Cluster, i: nat, t: nat) {
    i < |c.procs| && t in c.procs[i].led
  }

  ghost predicate CampaignOk(c: Cluster, i: nat)
    requires i < |c.procs| && |c.procs[i].node.log| > 0
  {
    var p := c.procs[i];
    p.mode.Campaigning? ==>
      && p.node.leader.None?
      && p.node.term !in p.led
      && i in p.mode.granted
      && forall v | v in p.mode.granted :: Voted(c, v, RequestOf(p.node, i))
  }

  ghost predicate ProcOk(c: Cluster, i: nat)
    requires i < |c.procs|
  {
    var p := c.procs[i];
    var n := p.node;
    && WellFormed(n, |c.procs|)
    && ZeroTerms(n.log)
    && (forall t | t in p.votes :: t <= n.term && (t == n.term ==> n.votedFor.Some?))
    && (forall t | t in p.led :: t <= n.term && (exists w | w in c.wins :: w.term == t && w.leader == i))
    && (n.isLeader ==> n.leader.Some?)
    && (n.leader.Some? ==> n.term in p.led)
    && (n.term in p.led ==> p.led[n.term].log == WireAll(n.log))
    && (p.mode.Broadcasting? ==> n.leader.Some?)
    && CampaignOk(c, i)
  }

  ghost predicate VoteAnswerOk(c: Cluster, a: VoteAnswer) {
    a.req in c.voteRequests && (a.reply.granted ==> Voted(c, a.voter, a.req))
  }

  ghost predicate VoteRequestOk(c: Cluster, q: VoteRequest) {
    Voted(c, q.candidate, q) && q.lastLogTerm == 0
  }

  ghost predicate WinOk(c: Cluster, w: Win) {
    && Leads(c, w.leader, w.term)
    && Majority(w.voters, |c.procs|)
    && |c.procs[w.leader].led[w.term].start| > 0
    && forall v | v in w.voters ::
         Voted(c, v, VoteRequest(w.term, w.leader, |c.procs[w.leader].led[w.term].start| - 1, 0))
  }

  ghost predicate AppendOk(c: Cluster, m: AppendMsg) {
    && Leads(c, m.req.leader, m.req.term)
    && m.to != m.req.leader && m.to < |c.procs|
    && m.req.prevLogTerm == 0
    && ZeroTerms(m.req.entries)
  }

  ghost predicate ElectionInv(c: Cluster) {
    && (forall i | 0 <= i < |c.procs| :: ProcOk(c, i))
    && (forall q | q in c.voteRequests :: VoteRequestOk(c, q))
    && (forall a | a in c.voteAnswers :: VoteAnswerOk(c, a))
    && (forall w | w in c.wins :: WinOk(c, w))
    && (forall m | m in c.appends :: AppendOk(c, m))
    && (forall v, w | v in c.wins && w in c.wins && v.term == w.term :: v == w)
  }

  // ----- the history only grows

  lemma VoteGrows(c: Cluster, i: nat, q: VoteRequest)
    requires i < |c.procs| && ProcOk(c, i)
    ensures ProcGrows(c.procs[i], AfterVote(c.procs[i], q))
  {
    var p := c.procs[i];
    var (n, reply) := HandleVote(p.node, q);
    assert reply.granted ==> q.term !in p.votes;
  }

  lemma ClientGrows(p: Proc, op: Op, key: string, value: string, prevValue: string)
    requires p.node.term in p.led ==> p.led[p.node.term].log <= WireAll(p.node.log)
    ensures ProcGrows(p, AfterClient(p, op, key, value, prevValue))
  {
    var q := AfterClient(p, op, key, value, prevValue);
    assert WireAll(p.node.log) <= WireAll(q.node.log);
    forall t | t in p.led
      ensures t in q.led && q.led[t].start == p.led[t].start && p.led[t].log <= q.led[t].log
    {
    }
  }

  lemma AppendGrows(p: Proc, m: AppendMsg)
    ensures ProcGrows(p, AfterAppend(p, m))
  {
    hide HandleAppend;
    HandledTerm(p.node, m.req);
  }

  lemma HandledTerm(n: Node, r: AppendRequest)
    ensures HandleAppend(n, r).0.term == if r.term < n.term then n.term else r.term
  {
  }

  lemma WinGrows(p: Proc, i: nat, size: nat)
    requires |p.node.log| > 0 && i < size && p.node.term !in p.led
    ensures ProcGrows(p, AfterWin(p, i, size))
  {
  }

  /** The three ways a counted vote can change the candidate. */
  lemma CountCases(c: Cluster, i: nat, a: VoteAnswer)
    requires Enabled(c, CountVote(i, a), false)
    ensures var p, q, v := c.procs[i], Apply(c, CountVote(i, a)).procs[i], VerdictOf(c.procs[i], a, |c.procs|);
      || (v.Won? && q == AfterWin(p, i, |c.procs|))
      || (v.Undecided? && q == p.(mode := Campaigning(Granted(p, a), Refused(p, a))))
      || (&& !v.Won? && !v.Undecided? && (v.Superseded? ==> a.reply.term > p.node.term)
          && q == p.(node := CloseCampaign(p.node, v, a.reply.term), mode := Idle))
  {
  }

  lemma CountVoteGrows(c: Cluster, i: nat, a: VoteAnswer)
    requires ElectionInv(c) && Enabled(c, CountVote(i, a), false)
    ensures ProcGrows(c.procs[i], Apply(c, CountVote(i, a)).procs[i])
  {
    var p := c.procs[i];
    assert ProcOk(c, i);
    var verdict := VerdictOf(p, a, |c.procs|);
    if verdict.Won? {
      WinGrows(p, i, |c.procs|);
    } else if !verdict.Undecided? {
      assert CloseCampaign(p.node, verdict, a.reply.term).term >= p.node.term;
    }
  }

  lemma StepGrowsProc(c: Cluster, e: Event)
    requires ElectionInv(c) && Enabled(c, e, false)
    ensures ProcGrows(c.procs[e.i], Apply(c, e).procs[e.i])
  {
    hide CampaignOk, AfterVote, AfterAppend, AfterClient, AfterWin, HandleVote, HandleAppend, PrepareAppend,
         CommitChanges, ProcGrows;
    var i := e.i;
    var p := c.procs[i];
    assert ProcOk(c, i);
    match e
    case AnswerVote(_, q) => VoteGrows(c, i, q);
    case CountVote(_, a) => CountVoteGrows(c, i, a);
    case ClientRequest(_, op, key, value, prevValue) => ClientGrows(p, op, key, value, prevValue);
    case AnswerAppend(_, m) => AppendGrows(p, m);
    case _ => QuietGrows(c, e);
  }

  lemma QuietGrows(c: Cluster, e: Event)
    requires Enabled(c, e, false) && ProcOk(c, e.i)
    requires !e.AnswerVote? && !e.CountVote? && !e.ClientRequest? && !e.AnswerAppend?
    ensures ProcGrows(c.procs[e.i], Apply(c, e).procs[e.i])
  {
    hide CampaignOk, AfterVote, AfterAppend, AfterClient, AfterWin, HandleVote, HandleAppend, PrepareAppend, WireAll,
         Accepts;
  }

  /** An event changes one server, and messages, wins and commits are only added. */
  lemma StepLocal(c: Cluster, e: Event)
    requires Enabled(c, e, false)
    ensures var d := Apply(c, e);
      && |d.procs| == |c.procs|
      && (forall j | 0 <= j < |c.procs| && j != e.i :: d.procs[j] == c.procs[j])
      && c.voteRequests <= d.voteRequests && c.voteAnswers <= d.voteAnswers
      && c.appends <= d.appends && c.appendAnswers <= d.appendAnswers
      && c.wins <= d.wins && c.commits <= d.commits && c.clock <= d.clock
  {
  }

  lemma StepGrows(c: Cluster, e: Event)
    requires ElectionInv(c) && Enabled(c, e, false)
    ensures Grows(c, Apply(c, e))
  {
    var d := Apply(c, e);
    StepGrowsProc(c, e);
    StepLocal(c, e);
    forall j | 0 <= j < |c.procs| ensures ProcGrows(c.procs[j], d.procs[j]) {
      if j != e.i {
        assert d.procs[j] == c.procs[j];
      }
    }
  }

  lemma ProcStays(c: Cluster, d: Cluster, i: nat)
    requires i < |c.procs| && Grows(c, d) && ProcOk(c, i)
    requires d.procs[i] == c.procs[i]
    ensures ProcOk(d, i)
  {
    var p := c.procs[i];
    if p.mode.Campaigning? {
      forall v | v in p.mode.granted ensures Voted(d, v, RequestOf(p.node, i)) {
        assert Voted(c, v, RequestOf(p.node, i));
        assert ProcGrows(c.procs[v], d.procs[v]);
      }
    }
  }

  lemma WinStays(c: Cluster, d: Cluster, w: Win)
    requires Grows(c, d) && WinOk(c, w)
    ensures WinOk(d, w)
  {
    assert ProcGrows(c.procs[w.leader], d.procs[w.leader]);
    forall v | v in w.voters
      ensures Voted(d, v, VoteRequest(w.term, w.leader, |d.procs[w.leader].led[w.term].start| - 1, 0))
    {
      assert Voted(c, v, VoteRequest(w.term, w.leader, |c.procs[w.leader].led[w.term].start| - 1, 0));
      assert ProcGrows(c.procs[v], d.procs[v]);
    }
  }

  /** A step that changes one server and sends only good messages keeps everything else. */
  lemma Frame(c: Cluster, d: Cluster, k: nat)
    requires ElectionInv(c) && Grows(c, d) && k < |c.procs|
    requires forall i | 0 <= i < |c.procs| && i != k :: d.procs[i] == c.procs[i]
    requires ProcOk(d, k)
    requires forall q | q in d.voteRequests - c.voteRequests :: VoteRequestOk(d, q)
    requires forall a | a in d.voteAnswers - c.voteAnswers :: VoteAnswerOk(d, a)
    requires forall m | m in d.appends - c.appends :: AppendOk(d, m)
    requires d.wins == c.wins
    ensures ElectionInv(d)
  {
    FrameProcs(c, d, k);
    FrameMessages(c, d);
    forall w | w in d.wins ensures WinOk(d, w) {
      WinStays(c, d, w);
    }
  }

  lemma FrameProcs(c: Cluster, d: Cluster, k: nat)
    requires ElectionInv(c) && Grows(c, d) && k < |c.procs|
    requires forall i | 0 <= i < |c.procs| && i != k :: d.procs[i] == c.procs[i]
    requires ProcOk(d, k)
    ensures forall i | 0 <= i < |d.procs| :: ProcOk(d, i)
  {
    forall i | 0 <= i < |d.procs| ensures ProcOk(d, i) {
      if i != k {
        ProcStays(c, d, i);
      }
    }
  }

  lemma FrameMessages(c: Cluster, d: Cluster)
    requires ElectionInv(c) && Grows(c, d)
    requires forall q | q in d.voteRequests - c.voteRequests :: VoteRequestOk(d, q)
    requires forall a | a in d.voteAnswers - c.voteAnswers :: VoteAnswerOk(d, a)
    requires forall m | m in d.appends - c.appends :: AppendOk(d, m)
    ensures forall q | q in d.voteRequests :: VoteRequestOk(d, q)
    ensures forall a | a in d.voteAnswers :: VoteAnswerOk(d, a)
    ensures forall m | m in d.appends :: AppendOk(d, m)
  {
    forall q | q in d.voteRequests ensures VoteRequestOk(d, q) {
      if q in c.voteRequests {
        assert VoteRequestOk(c, q);
        assert ProcGrows(c.procs[q.candidate], d.procs[q.candidate]);
      }
    }
    forall a | a in d.voteAnswers ensures VoteAnswerOk(d, a) {
      if a in c.voteAnswers && a.reply.granted {
        assert VoteAnswerOk(c, a);
        assert ProcGrows(c.procs[a.voter], d.procs[a.voter]);
      }
    }
    forall m | m in d.appends ensures AppendOk(d, m) {
      if m in c.appends {
        assert AppendOk(c, m);
        assert ProcGrows(c.procs[m.req.leader], d.procs[m.req.leader]);
      }
    }
  }

  // ----- every event keeps the invariant

  lemma CrashKeeps(c: Cluster, i: nat)
    requires ElectionInv(c) && Enabled(c, Crash(i), false)
    ensures ElectionInv(Apply(c, Crash(i)))
  {
    var d := Apply(c, Crash(i));
    StepGrows(c, Crash(i));
    assert ProcOk(c, i);
    assert WireAll(WireAll(c.procs[i].node.log)) == WireAll(c.procs[i].node.log);
    assert ProcOk(d, i);
    Frame(c, d, i);
  }

  lemma BeginCampaignKeeps(c: Cluster, i: nat)
    requires ElectionInv(c) && Enabled(c, BeginCampaign(i), false)
    ensures ElectionInv(Apply(c, BeginCampaign(i)))
  {
    var d := Apply(c, BeginCampaign(i));
    StepGrows(c, BeginCampaign(i));
    assert ProcOk(c, i);
    var q := RequestOf(d.procs[i].node, i);
    assert Voted(d, i, q);
    assert ProcOk(d, i);
    Frame(c, d, i);
  }

  lemma AnswerVoteKeeps(c: Cluster, i: nat, q: VoteRequest)
    requires ElectionInv(c) && Enabled(c, AnswerVote(i, q), false)
    ensures ElectionInv(Apply(c, AnswerVote(i, q)))
  {
    StepGrows(c, AnswerVote(i, q));
    AnswerVoteKeepsFrom(c, Apply(c, AnswerVote(i, q)), i, q);
  }

  lemma AnswerVoteKeepsFrom(c: Cluster, d: Cluster, i: nat, q: VoteRequest)
    requires ElectionInv(c) && Grows(c, d) && i < |c.procs| && |c.procs[i].node.log| > 0 && c.procs[i].mode.Idle?
    requires q in c.voteRequests
    requires d == c.(procs := c.procs[i := AfterVote(c.procs[i], q)],
                     voteAnswers := c.voteAnswers + {VoteAnswer(i, q, HandleVote(c.procs[i].node, q).1)})
    ensures ElectionInv(d)
  {
    hide Voted, WinOk, AppendOk, ProcGrows, WireAll;
    assert ProcOk(c, i) && VoteRequestOk(c, q);
    VoterOk(c, d, i, q);
    Frame(c, d, i);
  }

  lemma VoterOk(c: Cluster, d: Cluster, i: nat, q: VoteRequest)
    requires i < |c.procs| == |d.procs| && ProcOk(c, i) && c.procs[i].mode.Idle? && d.wins == c.wins
    requires d.procs[i] == AfterVote(c.procs[i], q)
    ensures ProcOk(d, i)
    ensures VoteRequestOk(c, q) && q in d.voteRequests ==>
      VoteAnswerOk(d, VoteAnswer(i, q, HandleVote(c.procs[i].node, q).1))
  {
  }

  /** Events that leave the durable state, the history and the network alone. */
  lemma QuietNode(c: Cluster, e: Event)
    requires ElectionInv(c) && Enabled(c, e, false)
    requires e.GiveUp? || e.BeginBroadcast? || e.EndBroadcast? || e.CountAppend? || e.CommitRound?
    ensures var p, q := c.procs[e.i], Apply(c, e).procs[e.i];
      && q.votes == p.votes && q.led == p.led && q.node.log == p.node.log
      && q.node.term == p.node.term && q.node.votedFor == p.node.votedFor
      && !q.mode.Campaigning?
      && (q.node.leader.Some? <==> p.node.leader.Some?) && (q.node.isLeader ==> p.node.isLeader)
      && WellFormed(q.node, |c.procs|) && (q.mode.Broadcasting? ==> p.node.leader.Some?)
    ensures var d := Apply(c, e);
      && d.voteRequests == c.voteRequests && d.voteAnswers == c.voteAnswers && d.appends == c.appends
      && d.wins == c.wins && |d.procs| == |c.procs|
      && forall j | 0 <= j < |c.procs| && j != e.i :: d.procs[j] == c.procs[j]
  {
    hide WinOk, AppendOk, VoteAnswerOk, AfterAppend, HandleAppend, AfterVote, HandleVote, PrepareAppend,
         IsCommitIndex;
    assert ProcOk(c, e.i);
  }

  lemma QuietKeeps(c: Cluster, e: Event)
    requires ElectionInv(c) && Enabled(c, e, false)
    requires e.GiveUp? || e.BeginBroadcast? || e.EndBroadcast? || e.CountAppend? || e.CommitRound?
    ensures ElectionInv(Apply(c, e))
  {
    var d := Apply(c, e);
    StepGrows(c, e);
    assert ProcOk(c, e.i);
    QuietNode(c, e);
    assert ProcOk(d, e.i);
    Frame(c, d, e.i);
  }

  lemma ClientKeeps(c: Cluster, e: Event)
    requires ElectionInv(c) && Enabled(c, e, false) && e.ClientRequest?
    ensures ElectionInv(Apply(c, e))
  {
    var d := Apply(c, e);
    StepGrows(c, e);
    assert ProcOk(c, e.i);
    assert ProcOk(d, e.i);
    Frame(c, d, e.i);
  }

  lemma SendAppendKeeps(c: Cluster, i: nat, j: nat)
    requires ElectionInv(c) && Enabled(c, SendAppend(i, j), false)
    ensures ElectionInv(Apply(c, SendAppend(i, j)))
  {
    hide WinOk, VoteRequestOk, VoteAnswerOk, Voted, AfterAppend, HandleAppend;
    var d := Apply(c, SendAppend(i, j));
    StepGrows(c, SendAppend(i, j));
    assert ProcOk(c, i);
    var m := AppendMsg(j, c.clock, PrepareAppend(c.procs[i].node, i, j));
    assert ProcOk(d, i);
    assert AppendOk(d, m);
    Frame(c, d, i);
  }

  /** Two wins of one term have the same winner: their voters share a node, and it voted once. */
  lemma SameWinner(c: Cluster, i: nat, voters: set<nat>, q: VoteRequest, w: Win)
    requires Majority(voters, |c.procs|) && q.candidate == i
    requires forall v | v in voters :: Voted(c, v, q)
    requires WinOk(c, w) && w.term == q.term
    ensures w.leader == i
  {
    var v := MajoritiesMeet(voters, w.voters, |c.procs|);
    assert Voted(c, v, q);
  }

  lemma GrantedVoted(c: Cluster, i: nat, a: VoteAnswer)
    requires ElectionInv(c) && Enabled(c, CountVote(i, a), false)
    ensures forall v | v in Granted(c.procs[i], a) :: Voted(c, v, RequestOf(c.procs[i].node, i))
  {
    assert ProcOk(c, i) && VoteAnswerOk(c, a);
  }

  lemma WinKeeps(c: Cluster, i: nat, a: VoteAnswer)
    requires ElectionInv(c) && Enabled(c, CountVote(i, a), false)
    requires VerdictOf(c.procs[i], a, |c.procs|).Won?
    ensures ElectionInv(Apply(c, CountVote(i, a)))
  {
    var p := c.procs[i];
    StepGrows(c, CountVote(i, a));
    GrantedVoted(c, i, a);
    WinKeepsFrom(c, Apply(c, CountVote(i, a)), i, Win(p.node.term, i, Granted(p, a)));
  }

  lemma WinKeepsFrom(c: Cluster, d: Cluster, i: nat, w: Win)
    requires ElectionInv(c) && Grows(c, d) && i < |c.procs| && |c.procs[i].node.log| > 0 && c.procs[i].mode.Campaigning?
    requires d == c.(procs := c.procs[i := AfterWin(c.procs[i], i, |c.procs|)], wins := c.wins + {w})
    requires w.term == c.procs[i].node.term && w.leader == i && |w.voters| > |c.procs| / 2
    requires forall v | v in w.voters :: Voted(c, v, RequestOf(c.procs[i].node, i))
    ensures ElectionInv(d)
  {
    assert ProcOk(c, i);
    WinsAfter(c, d, i, w);
    WinnerOk(c, d, i, w);
    FrameProcs(c, d, i);
    FrameMessages(c, d);
  }

  lemma WinsAfter(c: Cluster, d: Cluster, i: nat, w: Win)
    requires ElectionInv(c) && Grows(c, d) && i < |c.procs| && |c.procs[i].node.log| > 0 && c.procs[i].mode.Campaigning?
    requires d.procs[i] == AfterWin(c.procs[i], i, |c.procs|) && d.wins == c.wins + {w}
    requires w.term == c.procs[i].node.term && w.leader == i && |w.voters| > |c.procs| / 2
    requires forall v | v in w.voters :: Voted(c, v, RequestOf(c.procs[i].node, i))
    ensures forall v | v in d.wins :: WinOk(d, v)
    ensures forall u, v | u in d.wins && v in d.wins && u.term == v.term :: u == v
  {
    hide ProcOk, VoteRequestOk, VoteAnswerOk, AppendOk, ProcGrows, AfterWin, Voted;
    NewWinOk(c, d, i, w);
    forall v | v in c.wins ensures WinOk(d, v) && v.term != w.term {
      WinStays(c, d, v);
      NewTerm(c, i, w.voters, v);
    }
  }

  /** No earlier win has the term of a campaign that gathers a majority. */
  lemma NewTerm(c: Cluster, i: nat, voters: set<nat>, v: Win)
    requires ElectionInv(c) && i < |c.procs| && |c.procs[i].node.log| > 0 && v in c.wins
    requires c.procs[i].mode.Campaigning? && |voters| > |c.procs| / 2
    requires forall x | x in voters :: Voted(c, x, RequestOf(c.procs[i].node, i))
    ensures v.term != c.procs[i].node.term
  {
    assert ProcOk(c, i) && WinOk(c, v);
    if v.term == c.procs[i].node.term {
      SameWinner(c, i, voters, RequestOf(c.procs[i].node, i), v);
    }
  }

  lemma WinnerOk(c: Cluster, d: Cluster, i: nat, w: Win)
    requires ElectionInv(c) && i < |c.procs| && |c.procs| == |d.procs|
    requires |c.procs[i].node.log| > 0 && c.procs[i].node.leader.None?
    requires d.procs[i] == AfterWin(c.procs[i], i, |c.procs|)
    requires w.term == c.procs[i].node.term && w.leader == i && d.wins == c.wins + {w}
    ensures ProcOk(d, i)
  {
    assert ProcOk(c, i);
    forall t | t in d.procs[i].led
      ensures t <= d.procs[i].node.term && exists v | v in d.wins :: v.term == t && v.leader == i
    {
      if t == w.term {
        assert w in d.wins;
      } else {
        var v :| v in c.wins && v.term == t && v.leader == i;
        assert v in d.wins;
      }
    }
  }

  lemma NewWinOk(c: Cluster, d: Cluster, i: nat, w: Win)
    requires ElectionInv(c) && Grows(c, d) && i < |c.procs| && |c.procs[i].node.log| > 0
    requires d.procs[i] == AfterWin(c.procs[i], i, |c.procs|)
    requires w.term == c.procs[i].node.term && w.leader == i && |w.voters| > |c.procs| / 2
    requires forall v | v in w.voters :: Voted(c, v, RequestOf(c.procs[i].node, i))
    ensures WinOk(d, w)
  {
    assert ProcOk(c, i);
    var q := RequestOf(c.procs[i].node, i);
    forall v | v in w.voters ensures Voted(d, v, q) {
      assert Voted(c, v, q);
      assert ProcGrows(c.procs[v], d.procs[v]);
    }
  }

  lemma NoWinKeeps(c: Cluster, i: nat, a: VoteAnswer)
    requires ElectionInv(c) && Enabled(c, CountVote(i, a), false)
    requires !VerdictOf(c.procs[i], a, |c.procs|).Won?
    ensures ElectionInv(Apply(c, CountVote(i, a)))
  {
    StepGrows(c, CountVote(i, a));
    GrantedVoted(c, i, a);
    NoWinKeepsFrom(c, Apply(c, CountVote(i, a)), i, a);
  }

  lemma NoWinKeepsFrom(c: Cluster, d: Cluster, i: nat, a: VoteAnswer)
    requires ElectionInv(c) && Grows(c, d) && i < |c.procs| && |c.procs[i].node.log| > 0 && c.procs[i].mode.Campaigning?
    requires forall v | v in Granted(c.procs[i], a) :: Voted(c, v, RequestOf(c.procs[i].node, i))
    requires
      var p, verdict := c.procs[i], VerdictOf(c.procs[i], a, |c.procs|);
      || (verdict.Undecided? && d == c.(procs := c.procs[i := p.(mode := Campaigning(Granted(p, a), Refused(p, a)))]))
      || (!verdict.Undecided? && d == c.(procs := c.procs[i := p.(
            node := CloseCampaign(p.node, verdict, a.reply.term), mode := Idle)])
          && CloseCampaign(p.node, verdict, a.reply.term).term >= p.node.term)
    ensures ElectionInv(d)
  {
    hide WinOk, AppendOk, VoteRequestOk, VoteAnswerOk, Voted;
    assert ProcOk(c, i);
    forall v | v in Granted(c.procs[i], a) ensures Voted(d, v, RequestOf(c.procs[i].node, i)) {
      VotedStays(c, d, v, RequestOf(c.procs[i].node, i));
    }
    assert ProcOk(d, i);
    Frame(c, d, i);
  }

  lemma VotedStays(c: Cluster, d: Cluster, v: nat, q: VoteRequest)
    requires Grows(c, d) && Voted(c, v, q)
    ensures Voted(d, v, q)
  {
    assert ProcGrows(c.procs[v], d.procs[v]);
  }

  lemma AnswerAppendKeeps(c: Cluster, i: nat, m: AppendMsg)
    requires ElectionInv(c) && Enabled(c, AnswerAppend(i, m), false)
    ensures ElectionInv(Apply(c, AnswerAppend(i, m)))
  {
    hide AfterAppend, HandleAppend, ProcOk;
    StepGrows(c, AnswerAppend(i, m));
    AnswerAppendKeepsFrom(c, Apply(c, AnswerAppend(i, m)), i, m);
  }

  lemma AnswerAppendKeepsFrom(c: Cluster, d: Cluster, i: nat, m: AppendMsg)
    requires ElectionInv(c) && Grows(c, d) && i < |c.procs| && m in c.appends && m.to == i && c.procs[i].mode.Idle?
    requires d == c.(procs := c.procs[i := AfterAppend(c.procs[i], m)],
                     appendAnswers := c.appendAnswers + {AppendAnswer(m, HandleAppend(c.procs[i].node, m.req).1)})
    ensures ElectionInv(d)
  {
    hide WinOk, VoteRequestOk, VoteAnswerOk, Voted, ProcOk, ProcGrows, AfterAppend, HandleAppend;
    assert ProcOk(c, i) && AppendOk(c, m);
    NotOwnEra(c, i, m);
    AnsweredOk(c, d, i, m);
    Frame(c, d, i);
  }

  lemma AnsweredOk(c: Cluster, d: Cluster, i: nat, m: AppendMsg)
    requires i < |c.procs| == |d.procs| && ProcOk(c, i) && AppendOk(c, m) && m.req.term !in c.procs[i].led
    requires c.procs[i].mode.Idle? && d.wins == c.wins && d.procs[i] == AfterAppend(c.procs[i], m)
    ensures ProcOk(d, i)
  {
    hide WireAll, Voted, HandleAppend;
    StaleAppend(c.procs[i], m);
    if m.req.term >= c.procs[i].node.term {
      AppendNode(c.procs[i].node, m.req);
    }
  }

  lemma CrashInAppendKeeps(c: Cluster, e: Event)
    requires ElectionInv(c) && Enabled(c, e, false) && e.CrashInAppend?
    ensures ElectionInv(Apply(c, e))
  {
    hide AfterCrashInAppend, Accepts, PartlyAppended;
    StepGrows(c, e);
    CrashInAppendKeepsFrom(c, Apply(c, e), e.i, e.m, e.written);
  }

  lemma CrashInAppendKeepsFrom(c: Cluster, d: Cluster, i: nat, m: AppendMsg, written: Option<nat>)
    requires ElectionInv(c) && Grows(c, d) && i < |c.procs| && m in c.appends && m.to == i
    requires m.req.term >= c.procs[i].node.term
    requires written.Some? ==> Accepts(c.procs[i].node, m.req) && written.value <= |m.req.entries|
    requires d == c.(procs := c.procs[i := AfterCrashInAppend(c.procs[i], m, written)])
    ensures ElectionInv(d)
  {
    hide WinOk, VoteRequestOk, VoteAnswerOk, Voted, ProcOk, ProcGrows, AfterCrashInAppend, Accepts;
    assert ProcOk(c, i) && AppendOk(c, m);
    NotOwnEra(c, i, m);
    CrashedOk(c, d, i, m, written);
    Frame(c, d, i);
  }

  lemma CrashedOk(c: Cluster, d: Cluster, i: nat, m: AppendMsg, written: Option<nat>)
    requires i < |c.procs| == |d.procs| && ProcOk(c, i) && AppendOk(c, m) && m.req.term !in c.procs[i].led
    requires m.req.term >= c.procs[i].node.term && d.wins == c.wins
    requires written.Some? ==> Accepts(c.procs[i].node, m.req) && written.value <= |m.req.entries|
    requires d.procs[i] == AfterCrashInAppend(c.procs[i], m, written)
    ensures ProcOk(d, i)
  {
    hide WireAll, Voted;
    PartLog(c.procs[i].node, m.req, written);
  }

  lemma PartLog(n: Node, r: AppendRequest, written: Option<nat>)
    requires |n.log| > 0 && n.log[0] == SENTINEL && ZeroTerms(n.log) && ZeroTerms(r.entries)
    requires written.Some? ==> Accepts(n, r) && written.value <= |r.entries|
    ensures var log := WireAll(PartlyAppended(n, r, written).log); |log| > 0 && log[0] == SENTINEL && ZeroTerms(log)
  {
  }

  /** A server never receives an append of a term it won itself. */
  lemma NotOwnEra(c: Cluster, i: nat, m: AppendMsg)
    requires ElectionInv(c) && m in c.appends && m.to == i && i < |c.procs|
    ensures m.req.term !in c.procs[i].led
  {
    assert AppendOk(c, m) && ProcOk(c, i) && ProcOk(c, m.req.leader);
  }

  lemma StaleAppend(p: Proc, m: AppendMsg)
    ensures m.req.term < p.node.term ==> AfterAppend(p, m) == p
  {
  }

  lemma AppendNode(n: Node, r: AppendRequest)
    requires r.term >= n.term && |n.log| > 0 && n.log[0] == SENTINEL && ZeroTerms(n.log)
    requires ZeroTerms(r.entries) && r.prevLogTerm == 0
    ensures var (m, reply) := HandleAppend(n, r);
      && m.term == r.term && m.votedFor == Some(r.leader) && m.leader.None? && !m.isLeader
      && |m.log| > 0 && m.log[0] == SENTINEL && ZeroTerms(m.log)
      && (reply.success <==> r.prevLogIndex < |n.log|)
      && m.log == (if reply.success then n.log[..r.prevLogIndex + 1] + r.entries else n.log)
      && reply.term == r.term
  {
  }

  lemma AcceptsIff(n: Node, r: AppendRequest)
    requires ZeroTerms(n.log) && r.prevLogTerm == 0
    ensures Accepts(n, r) <==> r.term >= n.term && r.prevLogIndex < |n.log|
  {
  }

  lemma StepKeepsElections(c: Cluster, e: Event)
    requires ElectionInv(c) && Enabled(c, e, false)
    ensures ElectionInv(Apply(c, e))
  {
    match e
    case Crash(i) => CrashKeeps(c, i);
    case BeginCampaign(i) => BeginCampaignKeeps(c, i);
    case AnswerVote(i, q) => AnswerVoteKeeps(c, i, q);
    case CountVote(i, a) =>
      if VerdictOf(c.procs[i], a, |c.procs|).Won? {
        WinKeeps(c, i, a);
      } else {
        NoWinKeeps(c, i, a);
      }
    case GiveUp(_) => QuietKeeps(c, e);
    case ClientRequest(_, _, _, _, _) => ClientKeeps(c, e);
    case BeginBroadcast(_) => QuietKeeps(c, e);
    case SendAppend(i, j) => SendAppendKeeps(c, i, j);
    case CountAppend(_, _) => QuietKeeps(c, e);
    case CommitRound(_, _) => QuietKeeps(c, e);
    case EndBroadcast(_) => QuietKeeps(c, e);
    case AnswerAppend(i, m) => AnswerAppendKeeps(c, i, m);
    case CrashInAppend(_, _, _) => CrashInAppendKeeps(c, e);
  }

  lemma {:induction false} RunKeepsElections(c: Cluster, events: seq<Event>, ordered: bool)
    requires ElectionInv(c) && Run(c, events, ordered).Some?
    ensures ElectionInv(Run(c, events, ordered).value)
    decreases |events|
  {
    if events != [] {
      StepKeepsElections(c, events[0]);
      RunKeepsElections(Apply(c, events[0]), events[1..], ordered);
    }
  }

  /** The assumption of order only rules runs out. */
  lemma {:induction false} Unordered(c: Cluster, events: seq<Event>)
    requires Run(c, events, true).Some?
    ensures Run(c, events, false) == Run(c, events, true)
    decreases |events|
  {
    hide Apply;
    if events != [] {
      Unordered(Apply(c, events[0]), events[1..]);
    }
  }

  lemma ReachedUnordered(c: Cluster, n: nat, ordered: bool) returns (events: seq<Event>)
    requires Reachable(c, n, ordered)
    ensures n >= 2 && Run(Init(n), events, false) == Some(c)
  {
    hide Run;
    events :| Run(Init(n), events, ordered) == Some(c);
    if ordered {
      Unordered(Init(n), events);
    }
  }

  lemma RunsOn(events: seq<Event>, i: nat)
    requires events != [] && KeepsRunning(events, i)
    ensures KeepsRunning(events[1..], i) && (events[0].i == i ==> !Crashes(events[0]))
  {
    assert forall k | 0 <= k < |events| - 1 :: events[1..][k] == events[k + 1];
  }

  lemma ReachedElections(c: Cluster, n: nat, ordered: bool)
    requires Reachable(c, n, ordered)
    ensures ElectionInv(c)
  {
    var events :| Run(Init(n), events, ordered) == Some(c);
    RunKeepsElections(Init(n), events, ordered);
  }

  // ----- what this gives, over every run

  /** Election safety: no term is won twice. */
  lemma ElectionSafety(c: Cluster, n: nat, ordered: bool, v: Win, w: Win)
    requires Reachable(c, n, ordered) && v in c.wins && w in c.wins && v.term == w.term
    ensures v == w && Majority(v.voters, |c.procs|)
  {
    ReachedElections(c, n, ordered);
    assert WinOk(c, v);
  }

  /** No server answers two different vote requests of one term with yes. */
  lemma OneVotePerTerm(c: Cluster, n: nat, ordered: bool, a: VoteAnswer, b: VoteAnswer)
    requires Reachable(c, n, ordered) && a in c.voteAnswers && b in c.voteAnswers
    requires a.voter == b.voter && a.req.term == b.req.term && a.reply.granted && b.reply.granted
    ensures a.req == b.req
  {
    ReachedElections(c, n, ordered);
    assert VoteAnswerOk(c, a) && VoteAnswerOk(c, b);
  }

  /** A server grants a vote exactly if the request's term is not behind its own, it has not voted in that term, and
      the candidate's log is at least as long as its own. A request of a later term takes the server there, whether
      granted or not, and ends its leadership. */
  lemma GrantExact(c: Cluster, n: nat, ordered: bool, i: nat, q: VoteRequest)
    requires Reachable(c, n, ordered) && Enabled(c, AnswerVote(i, q), ordered) && Enabled(c, AnswerVote(i, q), false)
    ensures var p, d := c.procs[i].node, Apply(c, AnswerVote(i, q)); var m := d.procs[i].node;
      var granted := q.term >= p.term && (q.term > p.term || p.votedFor.None?) && q.lastLogIndex + 1 >= |p.log|;
      && VoteAnswer(i, q, VoteReply(Max(p.term, q.term), granted)) in d.voteAnswers
      && m.term == Max(p.term, q.term)
      && m.votedFor == (if granted then Some(q.candidate) else if q.term > p.term then None else p.votedFor)
      && (if q.term > p.term then m.leader.None? && !m.isLeader else m.leader == p.leader && m.isLeader == p.isLeader)
      && m == p.(term := m.term, votedFor := m.votedFor, leader := m.leader, isLeader := m.isLeader)
  {
    hide Run, CampaignOk, VoteAnswerOk, WinOk, AppendOk, Voted;
    ReachedElections(c, n, ordered);
    assert ProcOk(c, i) && VoteRequestOk(c, q);
  }

  /** How a counted answer ends, or does not end, a campaign: an answer of a later term first, then a majority for
      the candidate, then one against it. */
  lemma CountExact(c: Cluster, n: nat, ordered: bool, i: nat, a: VoteAnswer)
    requires Reachable(c, n, ordered) && Enabled(c, CountVote(i, a), ordered) && Enabled(c, CountVote(i, a), false)
    ensures var p, d := c.procs[i], Apply(c, CountVote(i, a)); var q := d.procs[i];
      var yes := if a.reply.granted then p.mode.granted + {a.voter} else p.mode.granted;
      var no := if a.reply.granted then p.mode.refused else p.mode.refused + {a.voter};
      if a.reply.term > p.node.term then
        && q.mode.Idle? && d.wins == c.wins
        && q.node == p.node.(term := a.reply.term, votedFor := None, isLeader := false)
      else if |yes| > n / 2 then
        && q.mode.Idle? && d.wins == c.wins + {Win(p.node.term, i, yes)}
        && q.node.isLeader && q.node.leader.Some? && q.node == p.node.(isLeader := true, leader := q.node.leader)
      else if |no| > n / 2 then q.mode.Idle? && d.wins == c.wins && q.node == p.node.(isLeader := false)
      else q.mode == Campaigning(yes, no) && d.wins == c.wins && q.node == p.node
  {
    hide Run, ElectionInv;
    ReachedElections(c, n, ordered);
    ReachedSize(c, n, ordered);
  }

  lemma ReachedSize(c: Cluster, n: nat, ordered: bool)
    requires Reachable(c, n, ordered)
    ensures |c.procs| == n
  {
    hide Apply;
    var events :| Run(Init(n), events, ordered) == Some(c);
    SizeStays(Init(n), events, ordered);
  }

  lemma {:induction false} SizeStays(c: Cluster, events: seq<Event>, ordered: bool)
    requires Run(c, events, ordered).Some?
    ensures |Run(c, events, ordered).value.procs| == |c.procs|
    decreases |events|
  {
    hide Apply;
    if events != [] {
      SizeStays(Apply(c, events[0]), events[1..], ordered);
    }
  }

  /** Leadership coherence: a server that calls itself leader has leader bookkeeping and won its current
      term; a server with leader bookkeeping is not campaigning. */
  lemma LeadershipCoherent(c: Cluster, n: nat, ordered: bool, i: nat)
    requires Reachable(c, n, ordered) && i < |c.procs|
    ensures c.procs[i].node.isLeader ==> c.procs[i].node.leader.Some?
    ensures c.procs[i].node.leader.Some? ==>
      !c.procs[i].mode.Campaigning? && exists w | w in c.wins :: w.term == c.procs[i].node.term && w.leader == i
  {
    ReachedElections(c, n, ordered);
    assert ProcOk(c, i);
  }

  /** A server with leader bookkeeping never receives an append of its own current term. */
  lemma LeaderHearsNoRival(c: Cluster, n: nat, ordered: bool, i: nat, m: AppendMsg)
    requires Reachable(c, n, ordered) && i < |c.procs| && m in c.appends && m.to == i
    requires c.procs[i].node.leader.Some?
    ensures m.req.term != c.procs[i].node.term
  {
    ReachedElections(c, n, ordered);
    assert ProcOk(c, i);
    NotOwnEra(c, i, m);
  }
}
