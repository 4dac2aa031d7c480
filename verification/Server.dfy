/** One server as an object: its durable term and vote, its log, and the lock sections of the source, each
    proved to do what the pure functions of RaftNode say. */
module Server {
  import opened Prelude
  import opened RaftNode
  import opened LogFile
  import opened CommitIndex
  import opened Outcomes

  /** The durable term and vote; `disk` is what its file holds. */
  class PState {
    var currentTerm: nat
    var votedFor: Option<nat>
    var disk: (nat, Option<nat>)

    ghost predicate Saved()
      reads this
    {
      disk == (currentTerm, votedFor)
    }

    /** A missing file is created with term 0 and no vote. */
    constructor (stored: Option<(nat, Option<nat>)>)
      ensures Saved()
      ensures (currentTerm, votedFor) == if stored.Some? then stored.value else (0, None)
    {
      currentTerm := if stored.Some? then stored.value.0 else 0;
      votedFor := if stored.Some? then stored.value.1 else None;
      disk := if stored.Some? then stored.value else (0, None);
    }

    method DumpPState()
      modifies this`disk
      ensures Saved()
    {
      disk := (currentTerm, votedFor);
    }

    method SetVote(vote: nat)
      modifies this
      ensures Saved() && currentTerm == old(currentTerm) && votedFor == Some(vote)
    {
      votedFor := Some(vote);
      DumpPState();
    }
  }

  class Progress {
    const nextIndex: array<nat>
    const matchIndex: array<nat>

    constructor NewLeaderState(nodeId: nat, numNodes: nat, lastLogIndex: nat)
      requires nodeId < numNodes
      ensures fresh(nextIndex) && fresh(matchIndex) && nextIndex != matchIndex
      ensures nextIndex.Length == matchIndex.Length == numNodes
      ensures LeaderState(nextIndex[..], matchIndex[..]) == RaftNode.NewLeaderState(nodeId, numNodes, lastLogIndex)
      ensures forall k | 0 <= k < numNodes ::
        nextIndex[k] == lastLogIndex + 1 && matchIndex[k] == if k == nodeId then MAX_INDEX else 0
    {
      nextIndex := new nat[numNodes];
      matchIndex := new nat[numNodes](_ => 0);
      new;
      for i := 0 to numNodes
        invariant forall k | 0 <= k < i :: nextIndex[k] == lastLogIndex + 1
        invariant forall k | 0 <= k < numNodes :: matchIndex[k] == 0
      {
        nextIndex[i] := lastLogIndex + 1;
      }
      matchIndex[nodeId] := MAX_INDEX;
    }
  }

  class TEnv {
    const nodeId: nat
    const numNodes: nat
    const p: PState
    const l: WLog
    var commitIndex: nat
    var lastApplied: nat
    var leaderState: Progress?
    var isLeader: bool
    var commitQueue: seq<Entry>
    var nextChan: nat
    /** A slice of the log was out of range, and the code panicked. */
    var outOfRange: bool

    ghost function Arrays(): set<object>
      reads this
    {
      if leaderState == null then {} else {leaderState.nextIndex, leaderState.matchIndex}
    }

    /** Between lock sections the two files hold what the memory holds. */
    ghost predicate Valid()
      reads this, p, l, Arrays()
    {
      && nodeId < numNodes
      && p.Saved() && l.Valid()
      && (leaderState != null ==>
            && leaderState.nextIndex != leaderState.matchIndex
            && leaderState.nextIndex.Length == leaderState.matchIndex.Length == numNodes)
    }

    ghost function View(): Node
      reads this, p, l, Arrays()
    {
      Node(p.currentTerm, p.votedFor, l.entries, commitIndex, lastApplied,
           if leaderState == null then None
           else Some(LeaderState(leaderState.nextIndex[..], leaderState.matchIndex[..])),
           isLeader, commitQueue, nextChan, outOfRange)
    }

    constructor (p: PState, l: WLog, nodeId: nat, numNodes: nat)
      requires nodeId < numNodes && p.Saved() && l.Valid()
      ensures Valid() && this.p == p && this.l == l && this.nodeId == nodeId && this.numNodes == numNodes
      ensures leaderState == null
      ensures View() == FRESH_NODE.(term := p.currentTerm, votedFor := p.votedFor, log := l.entries)
    {
      this.p, this.l, this.nodeId, this.numNodes := p, l, nodeId, numNodes;
      commitIndex, lastApplied := 0, 0;
      leaderState, isLeader := null, false;
      commitQueue, nextChan, outOfRange := [], 0, false;
    }

    /** `ok` is false when the slice to queue is not in the log. */
    method CommitChanges(leaderCommit: nat) returns (ok: bool)
      requires Valid()
      modifies this`commitIndex, this`lastApplied, this`commitQueue, this`outOfRange
      ensures Valid() && View() == RaftNode.CommitChanges(old(View()), leaderCommit)
      ensures ok <==> CommitInRange(old(View()), leaderCommit)
      ensures Committed(old(View()), leaderCommit, View())
    {
      hide Lawful, AllFit, Frames, Committed;
      CommitOutcome(View(), leaderCommit);
      var maxIdx: int := commitIndex;
      if commitIndex < leaderCommit {
        maxIdx := leaderCommit;
      }
      if |l.entries| < maxIdx {
        maxIdx := |l.entries| - 1;
      }
      if !(lastApplied + 1 <= maxIdx + 1 <= |l.entries|) {
        outOfRange := true;
        return false;
      }
      var entriesToCommit := l.entries[lastApplied + 1..maxIdx + 1];
      lastApplied := maxIdx;
      if commitIndex < leaderCommit {
        commitIndex := leaderCommit;
      }
      Enqueue(entriesToCommit);
      return true;
    }

    /** The sending loop at the end of CommitChanges. */
    method Enqueue(entriesToCommit: seq<Entry>)
      modifies this`commitQueue
      ensures commitQueue == old(commitQueue) + entriesToCommit
    {
      for i := 0 to |entriesToCommit|
        invariant commitQueue == old(commitQueue) + entriesToCommit[..i]
      {
        commitQueue := commitQueue + [entriesToCommit[i]];
      }
      assert entriesToCommit[..|entriesToCommit|] == entriesToCommit;
    }

    /** A client command: it is appended with a fresh status channel, whose reply the client then awaits. */
    method ApplyRequestSync(op: Op, key: string, value: string, prevValue: string) returns (statusChan: nat)
      requires Valid() && Fits(l.codec, Entry(0, op, key, prevValue, value, Some(nextChan)))
      modifies this`nextChan, l
      ensures Valid() && View() == ClientAppend(old(View()), op, key, value, prevValue)
      ensures l.entries == old(l.entries) + [Entry(0, op, key, prevValue, value, Some(statusChan))]
      ensures statusChan == old(nextChan) && nextChan == statusChan + 1
    {
      statusChan := nextChan;
      nextChan := nextChan + 1;
      l.Append(Entry(0, op, key, prevValue, value, Some(statusChan)));
    }

    method HandleRequestVote(q: VoteRequest) returns (reply: VoteReply)
      requires Valid()
      modifies this`isLeader, this`leaderState, p
      ensures Valid() && (View(), reply) == HandleVote(old(View()), q)
      ensures VoteCast(old(View()), q, View(), reply)
    {
      hide VoteCast, Lawful, AllFit, Frames;
      VoteOutcome(View(), q);
      if q.term < p.currentTerm {
        return VoteReply(p.currentTerm, false);
      }
      if q.term > p.currentTerm {
        isLeader := false;
        p.currentTerm := q.term;
        leaderState := null;
        p.votedFor := None;
        p.DumpPState();
      }
      if p.votedFor.Some? {
        return VoteReply(p.currentTerm, false);
      }
      var back := l.entries[|l.entries| - 1];
      if q.lastLogTerm > back.term {
        p.SetVote(q.candidate);
        return VoteReply(p.currentTerm, true);
      } else if q.lastLogTerm == back.term {
        if q.lastLogIndex >= |l.entries| - 1 {
          p.SetVote(q.candidate);
          return VoteReply(p.currentTerm, true);
        }
      }
      return VoteReply(p.currentTerm, false);
    }

    /** A campaign whose voters answer with `replies`, in order of arrival, before the time-out. */
    method TryBecomeLeader(replies: seq<VoteReply>)
      requires Valid() && leaderState == null
      modifies this`isLeader, this`leaderState, p
      ensures Valid() && View() == RaftNode.TryBecomeLeader(old(View()), nodeId, numNodes, replies)
      ensures Campaigned(old(View()), nodeId, numNodes, replies, View())
    {
      hide Campaigned, Lawful, AllFit, Frames;
      CampaignOutcome(View(), nodeId, numNodes, replies);
      p.currentTerm := p.currentTerm + 1;
      p.votedFor := Some(nodeId);
      p.DumpPState();
      var votedChan := [VoteReply(0, true)] + replies;
      var trueCount, falseCount := 0, 0;
      var becameLeader, closed := false, false;
      ghost var term := p.currentTerm;
      ghost var outcome := Poll(0, 0, term, numNodes, votedChan);
      var i := 0;
      while i < |votedChan| && !closed
        invariant i <= |votedChan| && p.Saved() && leaderState == null && l.Valid()
        invariant !closed ==> !becameLeader && p.currentTerm == term && p.votedFor == Some(nodeId)
        invariant !closed ==> outcome == Poll(trueCount, falseCount, term, numNodes, votedChan[i..])
        invariant closed ==> !outcome.0.Undecided? && (becameLeader <==> outcome.0.Won?)
        invariant closed ==>
          (p.currentTerm, p.votedFor) == if outcome.0.Superseded? then (outcome.1, None) else (term, Some(nodeId))
        decreases |votedChan| - i, !closed
      {
        var resp := votedChan[i];
        assert votedChan[i..][1..] == votedChan[i + 1..];
        i := i + 1;
        if resp.granted {
          trueCount := trueCount + 1;
        } else {
          falseCount := falseCount + 1;
        }
        if resp.term > p.currentTerm {
          p.currentTerm := resp.term;
          p.votedFor := None;
          p.DumpPState();
          closed := true;
        } else if trueCount > numNodes / 2 {
          becameLeader, closed := true, true;
        } else if falseCount > numNodes / 2 {
          closed := true;
        }
      }
      if becameLeader {
        leaderState := new Progress.NewLeaderState(nodeId, numNodes, |l.entries| - 1);
        isLeader := true;
      } else {
        isLeader := false;
      }
    }

    /** The request of a heartbeat to node `j`. */
    method PrepareHB(j: nat) returns (r: AppendRequest)
      requires Valid() && leaderState != null && j < numNodes
      ensures r == PrepareAppend(View(), nodeId, j)
      ensures Prepared(View(), nodeId, j, r)
    {
      hide Prepared;
      PrepareOutcome(View(), nodeId, j);
      var prevIdx := Dec(leaderState.nextIndex[j]);
      if prevIdx >= |l.entries| {
        prevIdx := |l.entries| - 1;
      }
      r := AppendRequest(p.currentTerm, nodeId, prevIdx, l.entries[prevIdx].term,
                         WireAll(l.entries[prevIdx + 1..]), commitIndex);
    }

    /** The answer of a heartbeat to node `j`. */
    method FinishHB(j: nat, answer: AppendReply)
      requires Valid() && leaderState != null && j < numNodes
      modifies this`isLeader, leaderState.nextIndex, leaderState.matchIndex
      ensures Valid() && View() == HandleAppendReply(old(View()), j, answer)
      ensures answer.term > p.currentTerm ==>
        !isLeader && unchanged(leaderState.nextIndex) && unchanged(leaderState.matchIndex)
      ensures answer.term <= p.currentTerm && answer.success ==>
        && isLeader == old(isLeader)
        && leaderState.nextIndex[..] == old(leaderState.nextIndex[..])[j := |l.entries|]
        && leaderState.matchIndex[..] == old(leaderState.matchIndex[..])[j := |l.entries| - 1]
      ensures answer.term <= p.currentTerm && !answer.success ==>
        var next := old(leaderState.nextIndex[j]);
        && isLeader == old(isLeader) && unchanged(leaderState.matchIndex)
        && leaderState.nextIndex[..] == old(leaderState.nextIndex[..])[j := if next == 0 then MAX_INDEX else next - 1]
    {
      if answer.term > p.currentTerm {
        isLeader := false;
        return;
      }
      if answer.success {
        leaderState.nextIndex[j] := |l.entries|;
        leaderState.matchIndex[j] := |l.entries| - 1;
      } else {
        leaderState.nextIndex[j] := Dec(leaderState.nextIndex[j]);
      }
    }

    /** The commit part of a heartbeat round. */
    method CommitRound() returns (newCommitIndex: nat)
      requires Valid() && leaderState != null
      modifies this`commitIndex, this`lastApplied, this`commitQueue, this`outOfRange
      ensures IsCommitIndex(leaderState.matchIndex[..], newCommitIndex)
      ensures Valid() && View() == AdvanceCommit(old(View()), newCommitIndex)
      ensures newCommitIndex <= old(commitIndex) ==>
        unchanged(this`commitIndex, this`lastApplied, this`commitQueue, this`outOfRange)
      ensures newCommitIndex > old(commitIndex) ==>
        Committed(old(View()).(commitIndex := newCommitIndex), newCommitIndex, View())
    {
      hide Committed, Lawful, AllFit, Frames;
      newCommitIndex := CalcCommitIndex(leaderState.matchIndex[..]);
      if commitIndex < newCommitIndex {
        commitIndex := newCommitIndex;
        var ok := CommitChanges(newCommitIndex);
      }
    }

    /** An append request; no answer when the code panics. The log is lost from memory if the request claims
        another term for the sentinel. */
    method HandleAppendEntries(r: AppendRequest) returns (answer: Option<AppendReply>)
      requires Valid() && AllFit(l.codec, r.entries)
      modifies this, p, l
      ensures View() == HandleAppend(old(View()), r).0
      ensures LosesSentinel(old(View()), r) || Valid()
      ensures answer.None? <==> LosesSentinel(old(View()), r) || LeavesLog(old(View()), r)
      ensures answer.Some? ==> answer.value == HandleAppend(old(View()), r).1
      ensures Appended(old(View()), r, View())
      ensures answer.Some? ==> answer.value == AppendReply(p.currentTerm, Taken(old(View()), r))
    {
      hide Lawful, AllFit, Frames, RaftNode.CommitChanges, Committed, Appended, Taken;
      AppendOutcome(View(), r);
      if r.term < p.currentTerm {
        return Some(AppendReply(p.currentTerm, false));
      }
      isLeader := false;
      leaderState := null;
      p.currentTerm := r.term;
      p.votedFor := Some(r.leader);
      p.DumpPState();
      var ok, panicked := l.CheckAndCorrect(r.prevLogIndex, r.prevLogTerm);
      if panicked {
        return None;
      }
      if !ok {
        return Some(AppendReply(p.currentTerm, false));
      }
      l.AppendEntries(r.entries);
      ok := CommitChanges(r.leaderCommit);
      if !ok {
        return None;
      }
      return Some(AppendReply(p.currentTerm, true));
    }

    /** The same handler, stopped by a crash before it touches the log, or when `written` entries are in the file.
        What a restart then finds is what the cluster's step of that kind leaves. */
    method HandleAppendPartly(r: AppendRequest, written: Option<nat>)
      requires Valid() && AllFit(l.codec, r.entries) && r.term >= p.currentTerm
      requires written.Some? ==> Accepts(View(), r) && written.value <= |r.entries|
      modifies this, p, l
      ensures Valid() && Restart(View()) == Restart(PartlyAppended(old(View()), r, written))
      ensures p.disk == (r.term, Some(r.leader))
      ensures l.entries == if written.None? then old(l.entries)
        else old(l.entries)[..r.prevLogIndex + 1] + r.entries[..written.value]
    {
      hide Lawful, Frames, RaftNode.CommitChanges, WireAll;
      isLeader := false;
      leaderState := null;
      p.currentTerm := r.term;
      p.votedFor := Some(r.leader);
      p.DumpPState();
      if written.Some? {
        var ok, panicked := l.CheckAndCorrect(r.prevLogIndex, r.prevLogTerm);
        l.AppendEntries(r.entries[..written.value]);
      }
    }
  }

  /** A crash and a restart from the two files: exactly the Restart step of the cluster. */
  method CrashRestart(env: TEnv) returns (again: TEnv)
    requires env.Valid()
    ensures fresh(again) && again.Valid() && again.View() == Restart(env.View())
    ensures again.nodeId == env.nodeId && again.numNodes == env.numNodes
    ensures (again.p.currentTerm, again.p.votedFor) == (env.p.currentTerm, env.p.votedFor)
    ensures |again.l.entries| == |env.l.entries|
    ensures forall k | 0 <= k < |env.l.entries| :: again.l.entries[k] == env.l.entries[k].(chan := None)
    ensures again.leaderState == null && !again.isLeader && again.commitIndex == again.lastApplied == 0
    ensures again.commitQueue == []
  {
    var p := new PState(Some(env.p.disk));
    var l := Reopen(env.l);
    again := new TEnv(p, l, env.nodeId, env.numNodes);
  }
}
