/** What the larger operations of one server leave behind, as relations between the state before, the request, and
    the state and answer after. */
module Outcomes {
  import opened Prelude
  import opened RaftNode

  /** The slice to queue is not in the log exactly when the new commit index is just the log's length, which the bound
      lets pass, or the end of what can be queued is behind what was applied. */
  ghost predicate Committed(n: Node, leaderCommit: nat, m: Node) {
    var target := if n.commitIndex < leaderCommit then leaderCommit else n.commitIndex;
    var last := if target < |n.log| then target else |n.log| - 1;
    m == if target == |n.log| || last < n.lastApplied then n.(outOfRange := true)
         else n.(commitIndex := target, lastApplied := last, queue := n.queue + n.log[n.lastApplied + 1..last + 1])
  }

  lemma CommitOutcome(n: Node, leaderCommit: nat)
    requires |n.log| > 0
    ensures Committed(n, leaderCommit, CommitChanges(n, leaderCommit))
  {
  }

  /** The last entry of the candidate's log is of a later term than the voter's, or of the same and at no lower an
      index. */
  ghost predicate NoOlder(q: VoteRequest, log: seq<Entry>)
    requires |log| > 0
  {
    var last := log[|log| - 1];
    last.term < q.lastLogTerm || (last.term == q.lastLogTerm && |log| <= q.lastLogIndex + 1)
  }

  /** A vote is given exactly to a request that is not of an earlier term, if none was given in its term, and its
      candidate's log is no older. A later term is taken over in any case, and ends leadership. */
  ghost predicate VoteCast(n: Node, q: VoteRequest, m: Node, reply: VoteReply)
    requires |n.log| > 0
  {
    && (reply.granted <==> n.term <= q.term && (q.term == n.term ==> n.votedFor.None?) && NoOlder(q, n.log))
    && reply.term == m.term && n.term <= m.term && q.term <= m.term && (m.term == n.term || m.term == q.term)
    && (m.term == n.term ==> m.leader == n.leader && m.isLeader == n.isLeader)
    && (m.term > n.term ==> m.leader.None? && !m.isLeader)
    && (reply.granted ==> m.votedFor == Some(q.candidate))
    && (!reply.granted ==> m.votedFor == if m.term > n.term then None else n.votedFor)
    && m == n.(term := m.term, votedFor := m.votedFor, leader := m.leader, isLeader := m.isLeader)
  }

  lemma VoteOutcome(n: Node, q: VoteRequest)
    requires |n.log| > 0
    ensures VoteCast(n, q, HandleVote(n, q).0, HandleVote(n, q).1)
  {
  }

  /** Of two servers that have not voted in a term, at least one would give the other its vote. */
  lemma OneWouldVote(a: Node, b: Node, i: nat, j: nat)
    requires |a.log| > 0 && |b.log| > 0 && a.term == b.term && a.votedFor.None? && b.votedFor.None?
    ensures HandleVote(a, RequestOf(b, j)).1.granted || HandleVote(b, RequestOf(a, i)).1.granted
  {
  }

  /** The candidate did not win: it has no bookkeeping that it had not before, and is no leader. */
  ghost predicate NotElected(n: Node, term: nat, vote: Option<nat>, m: Node) {
    m == n.(term := term, votedFor := vote, isLeader := false)
  }

  /** It won: it sends from the end of its log, and has every match index at 0 but its own. */
  ghost predicate Elected(n: Node, term: nat, self: nat, size: nat, m: Node) {
    && m.leader.Some? && m.isLeader
    && m == n.(term := term, votedFor := Some(self), isLeader := true, leader := m.leader)
    && |m.leader.value.nextIndex| == |m.leader.value.matchIndex| == size
    && forall k | 0 <= k < size ::
         && m.leader.value.nextIndex[k] == |n.log|
         && m.leader.value.matchIndex[k] == if k == self then MAX_INDEX else 0
  }

  /** The campaign is for the next term, and its own vote is counted first. The first answer that ends the count
      decides it. */
  ghost predicate Campaigned(n: Node, self: nat, size: nat, replies: seq<VoteReply>, m: Node) {
    var term, votes := n.term + 1, [VoteReply(0, true)] + replies;
    && ((forall k: nat | k < |votes| :: !Ends(votes, k, term, size)) ==> NotElected(n, term, Some(self), m))
    && forall k: nat | k < |votes| && EndsFirst(votes, k, term, size) ::
         if votes[k].term > term then NotElected(n, votes[k].term, None, m)
         else if Yeses(votes[..k + 1]) > size / 2 then Elected(n, term, self, size, m)
         else NotElected(n, term, Some(self), m)
  }

  lemma CampaignOutcome(n: Node, self: nat, size: nat, replies: seq<VoteReply>)
    requires |n.log| > 0 && self < size
    ensures Campaigned(n, self, size, replies, TryBecomeLeader(n, self, size, replies))
  {
    hide Ends, EndsFirst, Poll, Yeses;
    PollFirst([VoteReply(0, true)] + replies, n.term + 1, size);
  }

  /** A heartbeat's request has the log after the follower's next index, or nothing when that is out of reach. */
  ghost predicate Prepared(n: Node, self: nat, j: nat, r: AppendRequest)
    requires n.leader.Some? && j < |n.leader.value.nextIndex|
  {
    var next := n.leader.value.nextIndex[j];
    && r.term == n.term && r.leader == self && r.leaderCommit == n.commitIndex
    && (0 < next <= |n.log| ==> r.prevLogIndex == next - 1)
    && (next > |n.log| || (next == 0 && |n.log| <= MAX_INDEX) ==> r.prevLogIndex == |n.log| - 1)
    && (next == 0 && |n.log| > MAX_INDEX ==> r.prevLogIndex == MAX_INDEX)
    && r.prevLogIndex < |n.log| && r.prevLogTerm == n.log[r.prevLogIndex].term
    && |r.entries| == |n.log| - r.prevLogIndex - 1
    && forall k | 0 <= k < |r.entries| :: r.entries[k] == n.log[r.prevLogIndex + 1 + k].(chan := None)
  }

  lemma PrepareOutcome(n: Node, self: nat, j: nat)
    requires 0 < |n.log| && n.leader.Some? && j < |n.leader.value.nextIndex|
    ensures Prepared(n, self, j, PrepareAppend(n, self, j))
  {
  }

  /** The log has an entry of the given term at the given index. */
  ghost predicate HasEntry(log: seq<Entry>, index: nat, term: nat) {
    index < |log| && log[index].term == term
  }

  /** A request is accepted exactly if it is not of an earlier term and the log has the entry it builds on. */
  ghost predicate Taken(n: Node, r: AppendRequest) {
    n.term <= r.term && HasEntry(n.log, r.prevLogIndex, r.prevLogTerm)
  }

  /** A request of an earlier term changes nothing. Any other makes the server a follower of its sender in its term. If
      it is accepted, the log is what was there up to the entry it builds on and then the request's entries, and the
      commit part follows; if not, an entry of another term at that index is dropped with all after it. */
  ghost predicate Appended(n: Node, r: AppendRequest, m: Node) {
    if r.term < n.term then m == n
    else
      && m.term == r.term && m.votedFor == Some(r.leader) && m.leader.None? && !m.isLeader
      && (Taken(n, r) ==>
            && m.log == n.log[..r.prevLogIndex + 1] + r.entries
            && Committed(m.(commitIndex := n.commitIndex, lastApplied := n.lastApplied, queue := n.queue,
                            outOfRange := n.outOfRange), r.leaderCommit, m))
      && (!Taken(n, r) ==>
            && m.log == (if r.prevLogIndex < |n.log| then n.log[..r.prevLogIndex] else n.log)
            && m == n.(term := m.term, votedFor := m.votedFor, leader := None, isLeader := false, log := m.log))
  }

  lemma AppendOutcome(n: Node, r: AppendRequest)
    ensures Appended(n, r, HandleAppend(n, r).0)
    ensures HandleAppend(n, r).1 == AppendReply(HandleAppend(n, r).0.term, Taken(n, r))
  {
    hide CommitChanges, Committed;
    if Accepts(n, r) {
      var m := n.(isLeader := false, leader := None, term := r.term, votedFor := Some(r.leader),
                  log := n.log[..r.prevLogIndex + 1] + r.entries);
      CommitOutcome(m, r.leaderCommit);
      CommitKeeps(m, r.leaderCommit);
      var k := CommitChanges(m, r.leaderCommit);
      assert k.(commitIndex := n.commitIndex, lastApplied := n.lastApplied, queue := n.queue,
                outOfRange := n.outOfRange) == m;
    }
  }

  lemma CommitKeeps(n: Node, leaderCommit: nat)
    ensures var m := CommitChanges(n, leaderCommit);
      m == n.(commitIndex := m.commitIndex, lastApplied := m.lastApplied, queue := m.queue, outOfRange := m.outOfRange)
  {
  }
}
