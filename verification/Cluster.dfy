/** A cluster of servers as a state machine. Every lock section of the source is one event, or, where
    the lock is held while messages are exchanged, a begin event, the exchanges, and an end event. A crash may
    also fall inside the handling of an append request, between two of its writes to the files.
    The network is a set of messages that only grows: any message may be lost, duplicated or reordered. */
module Cluster {
  import opened Prelude
  import opened RaftNode
  import opened CommitIndex

  /** `stamp` numbers the appends in the order they were sent. */
  datatype AppendMsg = AppendMsg(to: nat, stamp: nat, req: AppendRequest)
  datatype VoteAnswer = VoteAnswer(voter: nat, req: VoteRequest, reply: VoteReply)
  datatype AppendAnswer = AppendAnswer(msg: AppendMsg, reply: AppendReply)

  /** What the holder of a server's lock is doing between two events. */
  datatype Mode =
    | Idle
    | Campaigning(granted: set<nat>, refused: set<nat>)
    | Broadcasting(sent: map<nat, AppendMsg>, heard: set<nat>, counted: bool)

  /** The log of a term's leader: at its election, and now. Both without status channels. */
  datatype Era = Era(start: seq<Entry>, log: seq<Entry>)

  /** A server with its history: the requests it voted for, by term; the longest log it acknowledged,
      by term; the eras it led; the last append stamp it handled, by term. `epoch` is the last term whose
      leader wrote its log, `source` that leader, and `base` its log just before that. */
  datatype Proc = Proc(
    node: Node, mode: Mode,
    votes: map<nat, VoteRequest>, acked: map<nat, nat>, led: map<nat, Era>, seen: map<nat, nat>,
    epoch: nat, source: nat, base: seq<Entry>)

  datatype Win = Win(term: nat, leader: nat, voters: set<nat>)
  datatype Commit = Commit(term: nat, index: nat, leader: nat, holders: set<nat>)

  datatype Cluster = Cluster(
    procs: seq<Proc>,
    voteRequests: set<VoteRequest>, voteAnswers: set<VoteAnswer>,
    appends: set<AppendMsg>, appendAnswers: set<AppendAnswer>,
    wins: set<Win>, commits: set<Commit>, clock: nat)

  datatype Event =
    | Crash(i: nat)
    | BeginCampaign(i: nat)
    | AnswerVote(i: nat, q: VoteRequest)
    | CountVote(i: nat, vote: VoteAnswer)
    | GiveUp(i: nat)
    | ClientRequest(i: nat, op: Op, key: string, value: string, prevValue: string)
    | BeginBroadcast(i: nat)
    | SendAppend(i: nat, j: nat)
    | CountAppend(i: nat, answer: AppendAnswer)
    | CommitRound(i: nat, index: nat)
    | EndBroadcast(i: nat)
    | AnswerAppend(i: nat, m: AppendMsg)
    | CrashInAppend(i: nat, m: AppendMsg, written: Option<nat>)

  /** The process ends and starts again. */
  predicate Crashes(e: Event) {
    e.Crash? || e.CrashInAppend?
  }

  /** Server `i` does not crash in these events. */
  ghost predicate KeepsRunning(events: seq<Event>, i: nat) {
    forall k | 0 <= k < |events| && events[k].i == i :: !Crashes(events[k])
  }

  const FRESH_PROC := Proc(FRESH_NODE, Idle, map[], map[], map[], map[], 0, 0, [])

  function Init(n: nat): Cluster {
    Cluster(seq(n, _ => FRESH_PROC), {}, {}, {}, {}, {}, {}, 0)
  }

  /** The length of the leader's log when it sent the request. */
  function Total(r: AppendRequest): nat {
    r.prevLogIndex + 1 + |r.entries|
  }

  function Seen(p: Proc, t: nat): nat {
    if t in p.seen then p.seen[t] else 0
  }

  function Max(a: nat, b: nat): nat {
    if a < b then b else a
  }

  ghost predicate Live(c: Cluster, i: nat) {
    i < |c.procs| && WellFormed(c.procs[i].node, |c.procs|)
  }

  /** Which events can happen. With `ordered`, appends of one term reach a server in the order they were
      sent to it, and no crash falls inside the handling of one; they may still be lost, and the last one may
      arrive again. */
  ghost predicate Enabled(c: Cluster, e: Event, ordered: bool) {
    && Live(c, e.i)
    && var p := c.procs[e.i];
    var n := p.node;
    match e
    case Crash(i) => true
    case BeginCampaign(i) => p.mode.Idle? && n.leader.None?
    case AnswerVote(i, q) => p.mode.Idle? && q in c.voteRequests && q.candidate != i
    case CountVote(i, a) =>
      && p.mode.Campaigning? && a in c.voteAnswers && a.req.candidate == i && a.req.term == n.term
      && a.voter !in p.mode.granted + p.mode.refused
    case GiveUp(i) => p.mode.Campaigning?
    case ClientRequest(i, _, _, _, _) => p.mode.Idle? && n.leader.Some?
    case BeginBroadcast(i) => p.mode.Idle? && n.isLeader && n.leader.Some?
    case SendAppend(i, j) =>
      p.mode.Broadcasting? && n.leader.Some? && j < |c.procs| && j != i && j !in p.mode.sent
    case CountAppend(i, a) =>
      && p.mode.Broadcasting? && n.leader.Some? && a in c.appendAnswers && a.msg.to < |c.procs|
      && a.msg.to in p.mode.sent && p.mode.sent[a.msg.to] == a.msg && a.msg.to !in p.mode.heard
    case CommitRound(i, index) =>
      p.mode.Broadcasting? && n.leader.Some? && !p.mode.counted && IsCommitIndex(n.leader.value.matchIndex, index)
    case EndBroadcast(i) => p.mode.Broadcasting? && p.mode.counted
    case AnswerAppend(i, m) =>
      p.mode.Idle? && m in c.appends && m.to == i && (ordered ==> m.stamp >= Seen(p, m.req.term))
    case CrashInAppend(i, m, written) =>
      && !ordered && p.mode.Idle? && m in c.appends && m.to == i && m.req.term >= n.term
      && (written.Some? ==> Accepts(n, m.req) && written.value <= |m.req.entries|)
  }

  function AfterVote(p: Proc, q: VoteRequest): Proc
    requires |p.node.log| > 0
  {
    var (n, reply) := HandleVote(p.node, q);
    p.(node := n, votes := if reply.granted then p.votes[q.term := q] else p.votes)
  }

  function AfterCampaignStart(p: Proc, i: nat): Proc
    requires |p.node.log| > 0
  {
    var n := StartCampaign(p.node, i);
    p.(node := n, mode := Campaigning({i}, {}), votes := p.votes[n.term := RequestOf(n, i)])
  }

  function Granted(p: Proc, a: VoteAnswer): set<nat>
    requires p.mode.Campaigning?
  {
    if a.reply.granted then p.mode.granted + {a.voter} else p.mode.granted
  }

  function Refused(p: Proc, a: VoteAnswer): set<nat>
    requires p.mode.Campaigning?
  {
    if a.reply.granted then p.mode.refused else p.mode.refused + {a.voter}
  }

  function VerdictOf(p: Proc, a: VoteAnswer, size: nat): Verdict
    requires p.mode.Campaigning?
  {
    Judge(|Granted(p, a)|, |Refused(p, a)|, a.reply.term, p.node.term, size)
  }

  /** A won election: the winner's log starts a new era. */
  function AfterWin(p: Proc, i: nat, size: nat): Proc
    requires |p.node.log| > 0 && i < size
  {
    var log := WireAll(p.node.log);
    p.(node := BecomeLeader(p.node, i, size), mode := Idle,
       led := p.led[p.node.term := Era(log, log)], epoch := p.node.term, source := i, base := log)
  }

  function AfterClient(p: Proc, op: Op, key: string, value: string, prevValue: string): Proc {
    var n := ClientAppend(p.node, op, key, value, prevValue);
    p.(node := n,
       led := if n.term in p.led then p.led[n.term := p.led[n.term].(log := WireAll(n.log))] else p.led)
  }

  /** A leader writes to the server's log: for the first time in its term, the server joins its era. */
  function Joining(p: Proc, r: AppendRequest): Proc {
    if r.term == p.epoch then p else p.(epoch := r.term, source := r.leader, base := WireAll(p.node.log))
  }

  function AfterAppend(p: Proc, m: AppendMsg): Proc {
    var (n, reply) := HandleAppend(p.node, m.req);
    var t := m.req.term;
    if t < p.node.term then p.(node := n)
    else if !reply.success then p.(node := n, seen := p.seen[t := m.stamp])
    else Joining(p, m.req).(
      node := n, seen := p.seen[t := m.stamp],
      acked := p.acked[t := if t in p.acked then Max(p.acked[t], |n.log|) else |n.log|])
  }

  /** A crash while the request was handled: no answer, and whatever the files hold is what the restart finds. */
  function AfterCrashInAppend(p: Proc, m: AppendMsg, written: Option<nat>): Proc
    requires written.Some? ==> Accepts(p.node, m.req) && written.value <= |m.req.entries|
  {
    (if written.None? then p else Joining(p, m.req)).(
      node := Restart(PartlyAppended(p.node, m.req, written)), mode := Idle, seen := p.seen[m.req.term := m.stamp])
  }

  ghost function Apply(c: Cluster, e: Event): (d: Cluster)
    requires Enabled(c, e, false)
    ensures |d.procs| == |c.procs|
  {
    var size := |c.procs|;
    var i := e.i;
    var p := c.procs[i];
    match e
    case Crash(_) => c.(procs := c.procs[i := p.(node := Restart(p.node), mode := Idle)])
    case BeginCampaign(_) =>
      var p' := AfterCampaignStart(p, i);
      c.(procs := c.procs[i := p'], voteRequests := c.voteRequests + {RequestOf(p'.node, i)})
    case AnswerVote(_, q) =>
      c.(procs := c.procs[i := AfterVote(p, q)],
         voteAnswers := c.voteAnswers + {VoteAnswer(i, q, HandleVote(p.node, q).1)})
    case CountVote(_, a) =>
      var verdict := VerdictOf(p, a, size);
      if verdict.Won? then
        c.(procs := c.procs[i := AfterWin(p, i, size)], wins := c.wins + {Win(p.node.term, i, Granted(p, a))})
      else if verdict.Undecided? then
        c.(procs := c.procs[i := p.(mode := Campaigning(Granted(p, a), Refused(p, a)))])
      else
        c.(procs := c.procs[i := p.(node := CloseCampaign(p.node, verdict, a.reply.term), mode := Idle)])
    case GiveUp(_) => c.(procs := c.procs[i := p.(node := CloseCampaign(p.node, Undecided, 0), mode := Idle)])
    case ClientRequest(_, op, key, value, prevValue) =>
      c.(procs := c.procs[i := AfterClient(p, op, key, value, prevValue)])
    case BeginBroadcast(_) => c.(procs := c.procs[i := p.(mode := Broadcasting(map[], {}, false))])
    case SendAppend(_, j) =>
      var m := AppendMsg(j, c.clock, PrepareAppend(p.node, i, j));
      c.(procs := c.procs[i := p.(mode := p.mode.(sent := p.mode.sent[j := m]))],
         appends := c.appends + {m}, clock := c.clock + 1)
    case CountAppend(_, a) =>
      c.(procs := c.procs[i := p.(node := HandleAppendReply(p.node, a.msg.to, a.reply),
                                  mode := p.mode.(heard := p.mode.heard + {a.msg.to}))])
    case CommitRound(_, index) =>
      c.(procs := c.procs[i := p.(node := AdvanceCommit(p.node, index), mode := p.mode.(counted := true))],
         commits := if p.node.commitIndex < index
           then c.commits + {Commit(p.node.term, index, i, Reaching(p.node.leader.value.matchIndex, index) + {i})}
           else c.commits)
    case EndBroadcast(_) => c.(procs := c.procs[i := p.(mode := Idle)])
    case AnswerAppend(_, m) =>
      c.(procs := c.procs[i := AfterAppend(p, m)],
         appendAnswers := c.appendAnswers + {AppendAnswer(m, HandleAppend(p.node, m.req).1)})
    case CrashInAppend(_, m, written) => c.(procs := c.procs[i := AfterCrashInAppend(p, m, written)])
  }

  /** The cluster after a sequence of events, if every one of them could happen. */
  ghost function Run(c: Cluster, events: seq<Event>, ordered: bool): Option<Cluster>
    decreases |events|
  {
    if events == [] then Some(c)
    else if Enabled(c, events[0], ordered) then Run(Apply(c, events[0]), events[1..], ordered)
    else None
  }

  /** `c` is reached from a fresh cluster of `n` servers. */
  ghost predicate Reachable(c: Cluster, n: nat, ordered: bool) {
    n >= 2 && exists events :: Run(Init(n), events, ordered) == Some(c)
  }

  // ----- monotone history

  ghost predicate ProcGrows(p: Proc, q: Proc) {
    && p.node.term <= q.node.term
    && (forall t | t in p.votes :: t in q.votes && q.votes[t] == p.votes[t])
    && (forall t | t in p.acked :: t in q.acked && q.acked[t] >= p.acked[t])
    && (forall t | t in p.led :: t in q.led && q.led[t].start == p.led[t].start && p.led[t].log <= q.led[t].log)
  }

  ghost predicate Grows(c: Cluster, d: Cluster) {
    && |c.procs| == |d.procs|
    && (forall i | 0 <= i < |c.procs| :: ProcGrows(c.procs[i], d.procs[i]))
    && c.voteRequests <= d.voteRequests && c.voteAnswers <= d.voteAnswers
    && c.appends <= d.appends && c.appendAnswers <= d.appendAnswers
    && c.wins <= d.wins && c.commits <= d.commits && c.clock <= d.clock
  }
}
