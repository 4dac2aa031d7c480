/** The state of one key-value server and what each lock section of it does, as pure functions. */
module RaftNode {
  import opened Prelude

  datatype Op = Create | Update | Delete | Cas

  /** A log entry; `chan` names the status channel of a waiting client and is never serialised. */
  datatype Entry = Entry(term: nat, op: Op, key: string, prevValue: string, value: string, chan: Option<nat>)

  const SENTINEL := Entry(0, Delete, "", "", "", None)

  /** The leader's own match index, ^uint64(0). */
  const MAX_INDEX: nat := 0xFFFF_FFFF_FFFF_FFFF

  /** What survives serialisation of an entry. */
  function Wire(e: Entry): Entry {
    e.(chan := None)
  }

  function WireAll(s: seq<Entry>): (w: seq<Entry>)
    ensures |w| == |s|
    ensures forall i :: 0 <= i < |s| ==> w[i] == Wire(s[i])
  {
    seq(|s|, i requires 0 <= i < |s| => Wire(s[i]))
  }

  datatype LeaderState = LeaderState(nextIndex: seq<nat>, matchIndex: seq<nat>)

  /** `queue` is everything sent on commitQueue since the process started. `outOfRange` records that
      a slice taken by CommitChanges left the log. */
  datatype Node = Node(
    term: nat, votedFor: Option<nat>, log: seq<Entry>,
    commitIndex: nat, lastApplied: nat,
    leader: Option<LeaderState>, isLeader: bool,
    queue: seq<Entry>, nextChan: nat, outOfRange: bool)

  datatype VoteRequest = VoteRequest(term: nat, candidate: nat, lastLogIndex: nat, lastLogTerm: nat)
  datatype VoteReply = VoteReply(term: nat, granted: bool)
  datatype AppendRequest = AppendRequest(
    term: nat, leader: nat, prevLogIndex: nat, prevLogTerm: nat, entries: seq<Entry>, leaderCommit: nat)
  datatype AppendReply = AppendReply(term: nat, success: bool)

  predicate WellFormed(n: Node, size: nat) {
    && |n.log| > 0
    && n.log[0] == SENTINEL
    && (n.leader.Some? ==> |n.leader.value.nextIndex| == size && |n.leader.value.matchIndex| == size)
  }

  function Back(log: seq<Entry>): Entry
    requires |log| > 0
  {
    log[|log| - 1]
  }

  // ----- process start and restart

  const FRESH_NODE := Node(0, None, [SENTINEL], 0, 0, None, false, [], 0, false)

  /** A process restarted from its two files keeps term, vote and log, and loses the rest. */
  function Restart(n: Node): Node {
    FRESH_NODE.(term := n.term, votedFor := n.votedFor, log := WireAll(n.log))
  }

  // ----- elections

  predicate UpToDate(q: VoteRequest, log: seq<Entry>)
    requires |log| > 0
  {
    || q.lastLogTerm > Back(log).term
    || (q.lastLogTerm == Back(log).term && q.lastLogIndex >= |log| - 1)
  }

  function HandleVote(n: Node, q: VoteRequest): (Node, VoteReply)
    requires |n.log| > 0
  {
    if q.term < n.term then (n, VoteReply(n.term, false))
    else
      var m := if q.term > n.term
        then n.(term := q.term, votedFor := None, leader := None, isLeader := false)
        else n;
      if m.votedFor.Some? then (m, VoteReply(m.term, false))
      else if UpToDate(q, m.log) then (m.(votedFor := Some(q.candidate)), VoteReply(m.term, true))
      else (m, VoteReply(m.term, false))
  }

  function StartCampaign(n: Node, self: nat): Node {
    n.(term := n.term + 1, votedFor := Some(self))
  }

  function RequestOf(n: Node, self: nat): VoteRequest
    requires |n.log| > 0
  {
    VoteRequest(n.term, self, |n.log| - 1, Back(n.log).term)
  }

  datatype Verdict = Undecided | Won | Lost | Superseded

  /** The tests after one vote response, in the order the loop makes them. */
  function Judge(yes: nat, no: nat, replyTerm: nat, term: nat, size: nat): Verdict {
    if replyTerm > term then Superseded
    else if yes > size / 2 then Won
    else if no > size / 2 then Lost
    else Undecided
  }

  function NewLeaderState(self: nat, size: nat, lastLogIndex: nat): LeaderState
    requires self < size
  {
    LeaderState(seq(size, _ => lastLogIndex + 1), seq(size, _ => 0)[self := MAX_INDEX])
  }

  function BecomeLeader(n: Node, self: nat, size: nat): Node
    requires |n.log| > 0 && self < size
  {
    n.(leader := Some(NewLeaderState(self, size, |n.log| - 1)), isLeader := true)
  }

  /** The end of a campaign that did not win. `seen` is the term of the last response counted. */
  function CloseCampaign(n: Node, verdict: Verdict, seen: nat): Node {
    if verdict == Superseded then n.(term := seen, votedFor := None, isLeader := false)
    else n.(isLeader := false)
  }

  /** Counting responses in order until a verdict; running out of them is the time-out. The second result
      is the term of the last response counted. */
  function Poll(yes: nat, no: nat, term: nat, size: nat, replies: seq<VoteReply>): (Verdict, nat)
    decreases |replies|
  {
    if replies == [] then (Undecided, 0)
    else
      var y := if replies[0].granted then yes + 1 else yes;
      var x := if replies[0].granted then no else no + 1;
      var verdict := Judge(y, x, replies[0].term, term, size);
      if verdict.Undecided? then Poll(y, x, term, size, replies[1..]) else (verdict, replies[0].term)
  }

  /** How many of the answers are yes. */
  function Yeses(replies: seq<VoteReply>): nat {
    if replies == [] then 0 else Yeses(replies[..|replies| - 1]) + if replies[|replies| - 1].granted then 1 else 0
  }

  /** The k-th answer ends the count: it is of a later term, or with it more than half of `size` are yes, or no. */
  ghost predicate Ends(replies: seq<VoteReply>, k: nat, term: nat, size: nat)
    requires k < |replies|
  {
    || replies[k].term > term
    || Yeses(replies[..k + 1]) > size / 2
    || k + 1 - Yeses(replies[..k + 1]) > size / 2
  }

  /** It is the first to do so. */
  ghost predicate EndsFirst(replies: seq<VoteReply>, k: nat, term: nat, size: nat)
    requires k < |replies|
  {
    Ends(replies, k, term, size) && forall x: nat | x < k :: !Ends(replies, x, term, size)
  }

  lemma YesesMore(replies: seq<VoteReply>, k: nat)
    requires k < |replies|
    ensures Yeses(replies[..k + 1]) == Yeses(replies[..k]) + if replies[k].granted then 1 else 0
  {
    assert replies[..k + 1][..k] == replies[..k];
  }

  lemma {:induction false} YesesBound(replies: seq<VoteReply>)
    ensures Yeses(replies) <= |replies|
  {
    if replies != [] {
      YesesBound(replies[..|replies| - 1]);
    }
  }

  /** The count is decided by the first answer that ends it: an answer of a later term supersedes the campaign, a
      majority of yes wins it, a majority of no loses it, tested in this order. Without such an answer it stays
      undecided. */
  lemma PollFirst(replies: seq<VoteReply>, term: nat, size: nat)
    ensures var (verdict, seen) := Poll(0, 0, term, size, replies);
      && (verdict.Undecided? <==> forall k: nat | k < |replies| :: !Ends(replies, k, term, size))
      && forall k: nat | k < |replies| && EndsFirst(replies, k, term, size) ::
           && seen == replies[k].term
           && verdict == if replies[k].term > term then Superseded
                         else if Yeses(replies[..k + 1]) > size / 2 then Won else Lost
  {
    assert replies[0..] == replies && replies[..0] == [];
    PollFrom(replies, 0, term, size);
  }

  lemma {:induction false} PollFrom(replies: seq<VoteReply>, done: nat, term: nat, size: nat)
    requires done <= |replies| && Yeses(replies[..done]) <= done
    requires forall x: nat | x < done :: !Ends(replies, x, term, size)
    ensures var y := Yeses(replies[..done]); var (verdict, seen) := Poll(y, done - y, term, size, replies[done..]);
      && (verdict.Undecided? <==> forall k: nat | k < |replies| :: !Ends(replies, k, term, size))
      && forall k: nat | k < |replies| && EndsFirst(replies, k, term, size) ::
           && seen == replies[k].term
           && verdict == if replies[k].term > term then Superseded
                         else if Yeses(replies[..k + 1]) > size / 2 then Won else Lost
    decreases |replies| - done
  {
    hide Ends, Yeses, Judge, Poll;
    if done == |replies| {
      NothingLeft(Yeses(replies[..done]), done - Yeses(replies[..done]), term, size, replies[done..]);
    } else {
      NextPolled(replies, done, term, size);
      if !Ends(replies, done, term, size) {
        PollFrom(replies, done + 1, term, size);
      } else {
        forall k: nat | k < |replies| && EndsFirst(replies, k, term, size) ensures k == done {
          assert !(k < done) && !(done < k);
        }
      }
    }
  }

  lemma NothingLeft(yes: nat, no: nat, term: nat, size: nat, replies: seq<VoteReply>)
    requires replies == []
    ensures Poll(yes, no, term, size, replies).0.Undecided?
  {
  }

  lemma NextPolled(replies: seq<VoteReply>, done: nat, term: nat, size: nat)
    requires done < |replies| && Yeses(replies[..done]) <= done
    ensures Yeses(replies[..done + 1]) <= done + 1
    ensures var y, z := Yeses(replies[..done]), Yeses(replies[..done + 1]);
      Poll(y, done - y, term, size, replies[done..]) ==
      if !Ends(replies, done, term, size) then Poll(z, done + 1 - z, term, size, replies[done + 1..])
      else (if replies[done].term > term then Superseded else if z > size / 2 then Won else Lost, replies[done].term)
  {
    hide Yeses;
    YesesMore(replies, done);
    YesesBound(replies[..done + 1]);
    assert replies[done..][0] == replies[done] && replies[done..][1..] == replies[done + 1..];
  }

  /** A whole campaign: the candidate's own vote is counted first. */
  function TryBecomeLeader(n: Node, self: nat, size: nat, replies: seq<VoteReply>): Node
    requires |n.log| > 0 && self < size
  {
    var m := StartCampaign(n, self);
    var (verdict, seen) := Poll(0, 0, m.term, size, [VoteReply(0, true)] + replies);
    if verdict.Won? then BecomeLeader(m, self, size) else CloseCampaign(m, verdict, seen)
  }

  // ----- replication

  /** Unsigned 64-bit decrement. */
  function Dec(x: nat): nat {
    if x == 0 then MAX_INDEX else x - 1
  }

  function PrepareAppend(n: Node, self: nat, j: nat): AppendRequest
    requires |n.log| > 0 && n.leader.Some? && j < |n.leader.value.nextIndex|
  {
    var prev := Dec(n.leader.value.nextIndex[j]);
    var prev := if prev >= |n.log| then |n.log| - 1 else prev;
    AppendRequest(n.term, self, prev, n.log[prev].term, WireAll(n.log[prev + 1..]), n.commitIndex)
  }

  function CheckAndCorrect(log: seq<Entry>, prev: nat, prevTerm: nat): (bool, seq<Entry>) {
    if prev >= |log| then (false, log)
    else if log[prev].term != prevTerm then (false, log[..prev])
    else (true, log[..prev + 1])
  }

  /** The last index CommitChanges hands to the state machine. */
  function CommitBound(n: Node, leaderCommit: nat): int {
    var target := if n.commitIndex < leaderCommit then leaderCommit else n.commitIndex;
    if |n.log| < target then |n.log| - 1 else target
  }

  predicate CommitInRange(n: Node, leaderCommit: nat) {
    n.lastApplied + 1 <= CommitBound(n, leaderCommit) + 1 <= |n.log|
  }

  function CommitChanges(n: Node, leaderCommit: nat): Node {
    if !CommitInRange(n, leaderCommit) then n.(outOfRange := true)
    else
      var bound := CommitBound(n, leaderCommit);
      n.(lastApplied := bound,
         commitIndex := if n.commitIndex < leaderCommit then leaderCommit else n.commitIndex,
         queue := n.queue + n.log[n.lastApplied + 1..bound + 1])
  }

  function HandleAppend(n: Node, r: AppendRequest): (Node, AppendReply) {
    if r.term < n.term then (n, AppendReply(n.term, false))
    else
      var m := n.(isLeader := false, leader := None, term := r.term, votedFor := Some(r.leader));
      var (ok, log) := CheckAndCorrect(m.log, r.prevLogIndex, r.prevLogTerm);
      if !ok then (m.(log := log), AppendReply(r.term, false))
      else (CommitChanges(m.(log := log + r.entries), r.leaderCommit), AppendReply(r.term, true))
  }

  /** The request reaches the append, with the part of the log before it kept. */
  predicate Accepts(n: Node, r: AppendRequest) {
    r.term >= n.term && CheckAndCorrect(n.log, r.prevLogIndex, r.prevLogTerm).0
  }

  /** What the two files hold if the handling of a request stops after `written` of its entries, or, with None,
      before the log is touched. The file of term and vote is written first. */
  function PartlyAppended(n: Node, r: AppendRequest, written: Option<nat>): Node
    requires written.Some? ==> Accepts(n, r) && written.value <= |r.entries|
  {
    n.(term := r.term, votedFor := Some(r.leader),
       log := if written.None? then n.log else n.log[..r.prevLogIndex + 1] + r.entries[..written.value])
  }

  /** The request claims a term for the sentinel that it does not have. */
  predicate LosesSentinel(n: Node, r: AppendRequest) {
    r.term >= n.term && r.prevLogIndex == 0 && r.prevLogTerm != SENTINEL.term
  }

  /** The commit part of the request takes a slice that is not in the log. */
  predicate LeavesLog(n: Node, r: AppendRequest) {
    && Accepts(n, r)
    && !CommitInRange(n.(log := CheckAndCorrect(n.log, r.prevLogIndex, r.prevLogTerm).1 + r.entries), r.leaderCommit)
  }

  function HandleAppendReply(n: Node, j: nat, a: AppendReply): Node
    requires n.leader.Some?
    requires j < |n.leader.value.nextIndex| && j < |n.leader.value.matchIndex|
    requires |n.log| > 0
  {
    var ls := n.leader.value;
    if a.term > n.term then n.(isLeader := false)
    else if a.success then
      n.(leader := Some(LeaderState(ls.nextIndex[j := |n.log|], ls.matchIndex[j := |n.log| - 1])))
    else n.(leader := Some(ls.(nextIndex := ls.nextIndex[j := Dec(ls.nextIndex[j])])))
  }

  /** The commit part of a heartbeat round, given the index the commit rule computed. */
  function AdvanceCommit(n: Node, index: nat): Node {
    if n.commitIndex < index then CommitChanges(n.(commitIndex := index), index) else n
  }

  /** A client command enters the leader's log with term 0 and a fresh status channel. */
  function ClientAppend(n: Node, op: Op, key: string, value: string, prevValue: string): Node {
    n.(log := n.log + [Entry(0, op, key, prevValue, value, Some(n.nextChan))], nextChan := n.nextChan + 1)
  }
}
