/** The retrying request multiplexer: endpoints taken in turn, one connection per unfinished request, and a map
    from descriptors to requests that the poll rounds consult. */
module RequestSender {
  import opened Prelude
  import opened SocketSet

  class TEndpoint {
    const addr: nat
    var alive: bool

    constructor (addr: nat)
      ensures this.addr == addr && alive
    {
      this.addr := addr;
      alive := true;
    }
  }

  datatype ReqState = FINISHED | FD_ASSIGNED | FD_NOT_ASSIGNED

  datatype Request = Request(endpoint: TEndpoint, request: seq<Byte>, response: seq<Byte>, state: ReqState)

  /** What the system reports in one turn of the main loop: whether poll itself fails, and the events. */
  datatype Turn = Turn(failed: bool, events: seq<Activity>)

  /** What an exception says: no endpoint of the list lives, a socket cannot be opened, or poll failed. */
  datatype Cause = NoneLiving | NoSocket | PollFailed

  /** Threw: an exception left the call. Unfinished: the turns considered were not enough. */
  datatype Outcome = Done(results: seq<seq<Byte>>) | Threw(cause: Cause) | Unfinished

  /** The first living endpoint in cyclic order is `d` places after `start`. */
  ghost predicate NextLiving(endpoints: seq<TEndpoint>, start: nat, d: nat)
    reads endpoints
  {
    && d < |endpoints|
    && endpoints[(start + d) % |endpoints|].alive
    && forall e | start <= e < start + d :: !endpoints[e % |endpoints|].alive
  }

  /** A full cycle from anywhere visits every place. */
  lemma CycleCovers(n: nat, start: nat, k: nat) returns (e: nat)
    requires k < n
    ensures start <= e < start + n && e % n == k
  {
    var q, s := start / n, start % n;
    assert start == n * q + s;
    if k >= s {
      e := start + (k - s);
      ModOfSum(n, q, k);
    } else {
      e := start + n - s + k;
      assert n * (q + 1) == n * q + n;
      ModOfSum(n, q + 1, k);
    }
  }

  lemma ModOfSum(n: nat, q: nat, k: nat)
    requires k < n
    ensures (n * q + k) % n == k
  {
    var x := n * q + k;
    assert x == n * (x / n) + x % n;
    assert n * (x / n - q) == n * (x / n) - n * q;
    Multiples(n, x / n - q);
  }

  /** A multiple of n that is not 0 is at least n away from 0. */
  lemma Multiples(n: nat, m: int)
    ensures m > 0 ==> n * m >= n
    ensures m < 0 ==> n * m + n <= 0
  {
    if m > 0 {
      Product(n, m - 1);
    } else if m < 0 {
      Product(n, -m - 1);
    }
  }

  lemma Product(n: nat, d: nat)
    ensures n * (d + 1) >= n
    ensures n * (0 - d - 1) + n <= 0
  {
    var p := n * d;
    assert p >= 0;
    assert n * (d + 1) == p + n;
    assert n * (0 - d - 1) == 0 - p - n;
  }

  class TRequestSender {
    /** The addresses that the k-th look at the shared list finds. */
    const addrsRef: nat -> seq<nat>
    const maxUnupdated: nat
    var looks: nat
    var currIdx: nat
    var numUpdates: nat
    var endpoints: seq<TEndpoint>
    /** Every endpoint this sender ever made. */
    ghost var made: set<TEndpoint>

    ghost predicate Valid()
      reads this
    {
      forall k | 0 <= k < |endpoints| :: endpoints[k] in made
    }

    constructor (addrsRef: nat -> seq<nat>, maxUnupdated: nat)
      ensures Valid() && fresh(made) && currIdx == 0 && numUpdates == 0 && looks == 1
      ensures this.addrsRef == addrsRef && this.maxUnupdated == maxUnupdated
      ensures FreshList(endpoints, addrsRef(0))
    {
      this.addrsRef := addrsRef;
      this.maxUnupdated := maxUnupdated;
      looks, currIdx, numUpdates, endpoints, made := 0, 0, 0, [], {};
      new;
      UpdateEndpoints();
    }

    method UpdateEndpoints()
      modifies this
      ensures Valid() && fresh(made - old(made)) && old(made) <= made
      ensures currIdx == 0 && numUpdates == 0 && looks == old(looks) + 1
      ensures FreshList(endpoints, addrsRef(old(looks)))
      ensures forall e | e in endpoints :: e !in old(made)
    {
      currIdx := 0;
      numUpdates := 0;
      var addrs := addrsRef(looks);
      looks := looks + 1;
      endpoints := [];
      for i := 0 to |addrs|
        invariant |endpoints| == i && Valid() && fresh(made - old(made)) && old(made) <= made
        invariant currIdx == 0 && numUpdates == 0 && looks == old(looks) + 1
        invariant forall k | 0 <= k < i :: endpoints[k].addr == addrs[k] && endpoints[k].alive && fresh(endpoints[k])
      {
        var e := new TEndpoint(addrs[i]);
        endpoints := endpoints + [e];
        made := made + {e};
      }
    }

    /** The next living endpoint after the one handed out last; the list is read anew, all endpoints living, when
        it was used `maxUnupdated` times; None, an exception, exactly when no endpoint of the list lives. */
    method NextEndpoint() returns (result: Option<TEndpoint>)
      requires Valid()
      modifies this
      ensures Valid() && fresh(made - old(made)) && old(made) <= made
      ensures old(numUpdates) < maxUnupdated ==>
        endpoints == old(endpoints) && numUpdates == old(numUpdates) + 1 && looks == old(looks)
      ensures old(numUpdates) >= maxUnupdated ==>
        && FreshList(endpoints, addrsRef(old(looks))) && numUpdates == 0 && looks == old(looks) + 1
        && forall e | e in endpoints :: e !in old(made)
      ensures result.None? <==> forall k | 0 <= k < |endpoints| :: !endpoints[k].alive
      ensures result.Some? ==>
        var start := if old(numUpdates) >= maxUnupdated then 0 else old(currIdx);
        && currIdx > start && NextLiving(endpoints, start, currIdx - 1 - start)
        && result.value == endpoints[(currIdx - 1) % |endpoints|] && result.value in made && result.value.alive
    {
      numUpdates := numUpdates + 1;
      if numUpdates - 1 >= maxUnupdated {
        UpdateEndpoints();
      }
      var i := currIdx;
      while i < currIdx + |endpoints|
        invariant currIdx <= i <= currIdx + |endpoints|
        invariant forall e | currIdx <= e < i :: !endpoints[e % |endpoints|].alive
      {
        if endpoints[i % |endpoints|].alive {
          currIdx := i + 1;
          return Some(endpoints[i % |endpoints|]);
        }
        i := i + 1;
      }
      forall k | 0 <= k < |endpoints| ensures !endpoints[k].alive {
        var e := CycleCovers(|endpoints|, currIdx, k);
      }
      return None;
    }

    /** Sends every request, again on a new connection whenever one fails, until all are answered; `turns` are the
        turns of the main loop. `owner` says for which request each connection was opened, `target` to which endpoint,
        and `won[i]` is the connection that answered request i.
        An endpoint of the list lives exactly if it did before, or is new, and no connection to it broke. No request
        was given an endpoint to which a connection had broken by then. The exception that no endpoint lives comes
        exactly when that is so. */
    method SendRequests(requests: seq<seq<Byte>>, turns: seq<Turn>)
      returns (outcome: Outcome, ghost owner: seq<nat>, ghost target: seq<TEndpoint>, ghost won: seq<nat>,
               ghost wire: seq<Io>)
      requires Valid()
      modifies this, made
      ensures Valid()
      ensures outcome.Done? ==> Answered(requests, outcome.results, owner, won, wire)
      ensures GivenUnbroken(owner, target, wire)
      ensures LivesKnown(endpoints, old(DeadOnes(made)), target, wire, [])
      ensures outcome == Threw(NoneLiving) <==> requests != [] && !SomeAlive(endpoints)
      ensures outcome == Threw(PollFailed) ==> exists t :: 0 <= t < |turns| && turns[t].failed
    {
      hide Orderly, Sound, CountFinished, Listed, GivenUnbroken, LivesKnown, SomeAlive, Answered, AllMade;
      owner, target, wire := [], [], [];
      won := seq(|requests|, _ => 0);
      ghost var dead := DeadOnes(made);
      AtStart(endpoints, dead);
      var ready, reqs := Prepare(requests, dead);
      if !ready {
        return Threw(NoneLiving), owner, target, won, wire;
      }
      var socketSet := new TSocketSet();
      var fdIdxs: map<int, nat> := map[];
      var numFinished := 0;
      var turn := 0;
      Begins(reqs, requests, won);
      while numFinished < |reqs| && turn < |turns|
        invariant Valid() && fresh(made - old(made)) && old(made) <= made && AllMade(reqs, made)
        invariant socketSet.Valid() && fresh(socketSet) && turn <= |turns|
        invariant wire == socketSet.wire && |reqs| == |requests| && numFinished == CountFinished(reqs)
        invariant Orderly(reqs, requests, fdIdxs, socketSet.sockets, owner, target, won, wire, socketSet.asked)
        invariant dead <= made && TargetsMade(target, made)
        invariant GivenUnbroken(owner, target, wire)
        invariant LivesKnown(endpoints, dead, target, wire, []) && (requests != [] ==> SomeAlive(endpoints))
        decreases |turns| - turn
      {
        ready, reqs, fdIdxs, owner, target :=
          OpenAll(socketSet, reqs, fdIdxs, requests, owner, target, won, dead);
        if !ready || turns[turn].failed {
          return Threw(if ready then PollFailed else NoSocket), owner, target, won, wire;
        }
        ready, reqs, fdIdxs, numFinished, won :=
          PollOnce(socketSet, turns[turn].events, reqs, fdIdxs, numFinished, requests, owner, target, won, dead);
        wire := socketSet.wire;
        if !ready {
          return Threw(NoneLiving), owner, target, won, wire;
        }
        turn := turn + 1;
      }
      if numFinished < |reqs| {
        return Unfinished, owner, target, won, wire;
      }
      Concludes(reqs, requests, fdIdxs, socketSet.sockets, owner, target, won, wire, socketSet.asked);
      outcome := Done(Responses(reqs));
    }

    /** Every request gets an endpoint. */
    method Prepare(requests: seq<seq<Byte>>, ghost dead: set<TEndpoint>) returns (ready: bool, reqs: seq<Request>)
      requires Valid() && dead <= made && LivesKnown(endpoints, dead, [], [], [])
      modifies this
      ensures Valid() && fresh(made - old(made)) && old(made) <= made && AllMade(reqs, made)
      ensures LivesKnown(endpoints, dead, [], [], [])
      ensures ready ==> |reqs| == |requests| && (requests != [] ==> SomeAlive(endpoints))
      ensures !ready ==> requests != [] && !SomeAlive(endpoints)
      ensures forall k | 0 <= k < |reqs| ::
        k < |requests| && reqs[k].request == requests[k] && reqs[k].state == FD_NOT_ASSIGNED
    {
      hide Failed;
      reqs := [];
      for i := 0 to |requests|
        invariant Valid() && fresh(made - old(made)) && old(made) <= made && AllMade(reqs, made)
        invariant |reqs| == i && LivesKnown(endpoints, dead, [], [], []) && (i > 0 ==> SomeAlive(endpoints))
        invariant forall k | 0 <= k < i :: reqs[k].request == requests[k] && reqs[k].state == FD_NOT_ASSIGNED
      {
        ghost var before, refreshed := made, numUpdates >= maxUnupdated;
        var e := NextEndpoint();
        if refreshed {
          NewLive(endpoints, before, dead, [], [], []);
        }
        if e.None? {
          return false, reqs;
        }
        reqs := reqs + [Request(e.value, requests[i], [], FD_NOT_ASSIGNED)];
      }
      return true, reqs;
    }

    /** Opens a connection for every request that has none; false if the system refuses one. */
    method OpenAll(socketSet: TSocketSet, reqs0: seq<Request>, fdIdxs0: map<int, nat>,
                   ghost requests: seq<seq<Byte>>, ghost owner0: seq<nat>, ghost target0: seq<TEndpoint>,
                   ghost won: seq<nat>, ghost dead: set<TEndpoint>)
      returns (ready: bool, reqs: seq<Request>, fdIdxs: map<int, nat>, ghost owner: seq<nat>,
               ghost target: seq<TEndpoint>)
      requires socketSet.Valid()
      requires Orderly(reqs0, requests, fdIdxs0, socketSet.sockets, owner0, target0, won, socketSet.wire, socketSet.asked)
      requires AllMade(reqs0, made) && TargetsMade(target0, made)
      requires LivesKnown(endpoints, dead, target0, socketSet.wire, [])
      modifies socketSet
      ensures socketSet.Valid()
      ensures Orderly(reqs, requests, fdIdxs, socketSet.sockets, owner, target, won, socketSet.wire, socketSet.asked)
      ensures AllMade(reqs, made) && TargetsMade(target, made) && GivenUnbroken(owner, target, socketSet.wire)
      ensures LivesKnown(endpoints, dead, target, socketSet.wire, [])
      ensures socketSet.wire == old(socketSet.wire) && |reqs| == |reqs0| && CountFinished(reqs) == CountFinished(reqs0)
      ensures ready ==> forall k | 0 <= k < |reqs| :: reqs[k].state != FD_NOT_ASSIGNED
    {
      hide Linked, Sound, CountFinished, Tried, Failed, Listed, GivenUnbroken;
      reqs, fdIdxs, owner, target := reqs0, fdIdxs0, owner0, target0;
      OwnersAsked(reqs, requests, socketSet.sockets, owner, target, won, socketSet.wire, socketSet.asked);
      for i := 0 to |reqs|
        invariant |reqs| == |reqs0| && socketSet.Valid() && AllMade(reqs, made) && TargetsMade(target, made)
        invariant Linked(reqs, fdIdxs, socketSet.sockets, owner)
        invariant Sound(reqs, requests, owner, won, socketSet.wire, socketSet.asked, [])
        invariant Tried(reqs, socketSet.sockets, owner, target, socketSet.wire) && |won| == |reqs|
        invariant GivenUnbroken(owner, target, socketSet.wire)
        invariant LivesKnown(endpoints, dead, target, socketSet.wire, [])
        invariant socketSet.wire == old(socketSet.wire) && CountFinished(reqs) == CountFinished(reqs0)
        invariant forall k | 0 <= k < i :: reqs[k].state != FD_NOT_ASSIGNED
      {
        if reqs[i].state == FD_NOT_ASSIGNED {
          var created: bool, connected: bool := *, *;
          if !created {
            return false, reqs, fdIdxs, owner, target;
          }
          ghost var sockets, asked := socketSet.sockets, socketSet.asked;
          WireBounded(sockets, socketSet.wire, asked);
          OwnersAsked(reqs, requests, sockets, owner, target, won, socketSet.wire, asked);
          var fd := socketSet.RegisterSocket(reqs[i].endpoint.addr, reqs[i].request, connected);
          OpenKeeps(reqs, fdIdxs, sockets, owner, requests, won, socketSet.wire, asked, i,
                    socketSet.sockets[|sockets|]);
          OpenTried(reqs, fdIdxs, sockets, owner, target, socketSet.wire, i, socketSet.sockets[|sockets|]);
          OpenLives(endpoints, dead, target, socketSet.wire, reqs[i].endpoint);
          reqs := reqs[i := reqs[i].(state := FD_ASSIGNED)];
          fdIdxs := fdIdxs[fd := i];
          owner := owner + [i];
          target := target + [reqs[i].endpoint];
        }
      }
      return true, reqs, fdIdxs, owner, target;
    }

    /** One poll and the settling of what it hands out. */
    method PollOnce(socketSet: TSocketSet, events: seq<Activity>, reqs0: seq<Request>, fdIdxs0: map<int, nat>,
                    numFinished0: nat, ghost requests: seq<seq<Byte>>, ghost owner: seq<nat>,
                    ghost target: seq<TEndpoint>, ghost won0: seq<nat>, ghost dead: set<TEndpoint>)
      returns (ready: bool, reqs: seq<Request>, fdIdxs: map<int, nat>, numFinished: nat, ghost won: seq<nat>)
      requires Valid() && socketSet.Valid() && AllMade(reqs0, made) && TargetsMade(target, made) && dead <= made
      requires Orderly(reqs0, requests, fdIdxs0, socketSet.sockets, owner, target, won0, socketSet.wire, socketSet.asked)
      requires numFinished0 == CountFinished(reqs0) < |reqs0|
      requires forall k | 0 <= k < |reqs0| :: reqs0[k].state != FD_NOT_ASSIGNED
      requires LivesKnown(endpoints, dead, target, socketSet.wire, []) && SomeAlive(endpoints)
      modifies this, made, socketSet
      ensures Valid() && fresh(made - old(made)) && old(made) <= made && AllMade(reqs, made)
      ensures socketSet.Valid() && socketSet.asked == old(socketSet.asked)
      ensures socketSet.wire == old(socketSet.wire) + RoundLog(old(socketSet.sockets), events)
      ensures ready ==>
        && Orderly(reqs, requests, fdIdxs, socketSet.sockets, owner, target, won, socketSet.wire, socketSet.asked)
        && numFinished == CountFinished(reqs) && |reqs| == |reqs0|
      ensures GivenUnbroken(owner, target, socketSet.wire)
      ensures LivesKnown(endpoints, dead, target, socketSet.wire, []) && (ready <==> SomeAlive(endpoints))
    {
      hide Linked, Sound, Recorded, CountFinished, Listed, Tried, Failed, GivenUnbroken, InTurn, LivesKnown, SomeAlive;
      ghost var sockets, wire, asked := socketSet.sockets, socketSet.wire, socketSet.asked;
      SomeOpen(reqs0, fdIdxs0, sockets, owner);
      PollKeeps(reqs0, fdIdxs0, sockets, owner, requests, won0, wire, asked, events);
      PollTried(reqs0, sockets, owner, target, wire, asked, events);
      PollLives(endpoints, dead, sockets, target, wire, asked, events);
      var closed := socketSet.Poll(events);
      assert closed.Some?;
      ready, reqs, fdIdxs, numFinished, won :=
        Settle(closed.value, reqs0, fdIdxs0, numFinished0, socketSet.sockets, requests, owner, target, won0,
               socketSet.wire, asked, dead);
    }

    /** An endpoint to which a connection broke is marked dead, and the next one handed out. */
    method Replace(failed: TEndpoint, ghost target: seq<TEndpoint>, ghost wire: seq<Io>, ghost rest: seq<Socket>,
                   ghost dead: set<TEndpoint>)
      returns (result: Option<TEndpoint>)
      requires Valid() && failed in made && dead <= made && TargetsMade(target, made)
      requires rest != [] && LivesKnown(endpoints, dead, target, wire, rest)
      requires forall e :: Failed(e, target, wire, rest[1..]) <==> Failed(e, target, wire, rest) || e == failed
      modifies this, failed
      ensures Valid() && fresh(made - old(made)) && old(made) <= made
      ensures LivesKnown(endpoints, dead, target, wire, rest[1..])
      ensures result.Some? <==> SomeAlive(endpoints)
      ensures result.Some? ==> result.value in made && !Failed(result.value, target, wire, rest[1..])
    {
      hide Failed;
      failed.alive := false;
      assert LivesKnown(endpoints, dead, target, wire, rest[1..]);
      ghost var before, refreshed := made, numUpdates >= maxUnupdated;
      result := NextEndpoint();
      if refreshed {
        NewLive(endpoints, before, dead, target, wire, rest[1..]);
      }
    }

    /** The sockets a poll round handed out: a failed one sends its request to the next endpoint, and its own is
        marked dead; a closed one finishes its request. Afterwards an endpoint of the list lives exactly if it was not
        dead before and no connection to it broke; false if none lives. */
    method Settle(closed: seq<Socket>, reqs0: seq<Request>, fdIdxs0: map<int, nat>, numFinished0: nat,
                  ghost sockets: seq<Socket>, ghost requests: seq<seq<Byte>>, ghost owner: seq<nat>,
                  ghost target: seq<TEndpoint>, ghost won0: seq<nat>, ghost wire: seq<Io>, ghost asked: seq<seq<Byte>>,
                  ghost dead: set<TEndpoint>)
      returns (ready: bool, reqs: seq<Request>, fdIdxs: map<int, nat>, numFinished: nat, ghost won: seq<nat>)
      requires Valid() && AllMade(reqs0, made) && |won0| == |reqs0|
      requires Linked(reqs0, fdIdxs0, closed + sockets, owner)
      requires Sound(reqs0, requests, owner, won0, wire, asked, closed)
      requires forall x | x in closed :: Finished(x) && Recorded(x, wire, asked)
      requires numFinished0 == CountFinished(reqs0)
      requires dead <= made && TargetsMade(target, made)
      requires Tried(reqs0, closed + sockets, owner, target, wire) && InTurn(closed, wire)
      requires LivesKnown(endpoints, dead, target, wire, closed) && SomeAlive(endpoints)
      modifies this, made
      ensures Valid() && fresh(made - old(made)) && old(made) <= made && AllMade(reqs, made)
      ensures ready ==>
        && Linked(reqs, fdIdxs, sockets, owner) && Sound(reqs, requests, owner, won, wire, asked, [])
        && numFinished == CountFinished(reqs) && |won| == |reqs| == |reqs0|
        && Tried(reqs, sockets, owner, target, wire)
      ensures LivesKnown(endpoints, dead, target, wire, []) && (ready <==> SomeAlive(endpoints))
    {
      hide Linked, Sound, Recorded, CountFinished, Tried, Failed, InTurn, LivesKnown, SomeAlive, Distinct, LinkedOne;
      reqs, fdIdxs, numFinished, won := reqs0, fdIdxs0, numFinished0, won0;
      assert closed[0..] == closed;
      for j := 0 to |closed|
        invariant Valid() && fresh(made - old(made)) && old(made) <= made && AllMade(reqs, made)
        invariant Linked(reqs, fdIdxs, closed[j..] + sockets, owner)
        invariant Sound(reqs, requests, owner, won, wire, asked, closed[j..])
        invariant numFinished == CountFinished(reqs) && |won| == |reqs| == |reqs0|
        invariant Tried(reqs, closed[j..] + sockets, owner, target, wire) && InTurn(closed[j..], wire)
        invariant LivesKnown(endpoints, dead, target, wire, closed[j..]) && SomeAlive(endpoints)
      {
        var sock := closed[j];
        ghost var rest := closed[j..];
        assert rest[0] == sock && rest[1..] == closed[j + 1..] && sock in closed;
        FirstLinked(reqs, fdIdxs, rest, sockets, owner);
        var i := fdIdxs[sock.fd];
        if sock.state == ERROR {
          FailsOne(reqs, fdIdxs, rest, sockets, owner, target, wire, asked);
          var e := Replace(reqs[i].endpoint, target, wire, rest, dead);
          if e.None? {
            AllFailed(endpoints, dead, target, wire, rest[1..]);
            return false, reqs, fdIdxs, numFinished, won;
          }
          ghost var r := reqs[i].(endpoint := e.value, state := FD_NOT_ASSIGNED);
          RetryKeeps(reqs, fdIdxs, rest, sockets, owner, requests, won, wire, asked, r);
          RetryTried(reqs, fdIdxs, rest, sockets, owner, target, wire, r);
          reqs := reqs[i := reqs[i].(endpoint := e.value, state := FD_NOT_ASSIGNED)];
          fdIdxs := fdIdxs - {sock.fd};
        } else {
          assert sock.state == CLOSED;
          ghost var r := reqs[i].(state := FINISHED, response := sock.response);
          FinishKeeps(reqs, fdIdxs, rest, sockets, owner, requests, won, wire, asked, r);
          FinishTried(reqs, fdIdxs, rest, sockets, owner, target, wire, r);
          NoneFailed(endpoints, dead, target, wire, rest);
          numFinished := numFinished + 1;
          reqs := reqs[i := reqs[i].(state := FINISHED, response := sock.response)];
          won := won[i := sock.conn];
          fdIdxs := fdIdxs - {sock.fd};
        }
      }
      assert closed[|closed|..] == [] && [] + sockets == sockets;
      return true, reqs, fdIdxs, numFinished, won;
    }
  }

  /** What a normal return promises: each request has exactly one connection that the other side ended,
      opened for it; the result is what arrived on that one, whatever arrived on connections that failed, and
      what was sent on it is the request's own bytes from the start. */
  ghost predicate Answered(requests: seq<seq<Byte>>, results: seq<seq<Byte>>, owner: seq<nat>, won: seq<nat>, wire: seq<Io>) {
    && |results| == |requests| && |won| == |requests|
    && forall i | 0 <= i < |requests| ::
         && won[i] < |owner| && owner[won[i]] == i
         && results[i] == GotOn(wire, won[i]) && SentOn(wire, won[i]) <= requests[i]
         && forall c | 0 <= c < |owner| && owner[c] == i :: Ended(wire, c) <==> c == won[i]
  }

  function CountFinished(reqs: seq<Request>): nat {
    if reqs == [] then 0
    else CountFinished(reqs[..|reqs| - 1]) + if reqs[|reqs| - 1].state == FINISHED then 1 else 0
  }

  function Responses(reqs: seq<Request>): (r: seq<seq<Byte>>)
    ensures |r| == |reqs| && forall k | 0 <= k < |reqs| :: r[k] == reqs[k].response
  {
    seq(|reqs|, k requires 0 <= k < |reqs| => reqs[k].response)
  }

  ghost predicate AllMade(reqs: seq<Request>, made: set<TEndpoint>) {
    forall k | 0 <= k < |reqs| :: reqs[k].endpoint in made
  }

  /** The descriptor map is a bijection between the open sockets, `live`, and the requests in state FD_ASSIGNED;
      each socket goes to its request's endpoint, and was opened for that request. */
  ghost predicate Linked(reqs: seq<Request>, fdIdxs: map<int, nat>, live: seq<Socket>, owner: seq<nat>) {
    && Distinct(live) && AllLinked(reqs, fdIdxs, live, owner) && Apart(fdIdxs, live)
    && (forall fd | fd in fdIdxs :: HasFd(live, fd))
    && (forall i | 0 <= i < |reqs| && reqs[i].state == FD_ASSIGNED :: Serves(fdIdxs, live, i))
  }

  ghost predicate AllLinked(reqs: seq<Request>, fdIdxs: map<int, nat>, live: seq<Socket>, owner: seq<nat>) {
    forall k | 0 <= k < |live| :: LinkedOne(reqs, fdIdxs, live[k], owner)
  }

  /** No two sockets of the list are open for one request. */
  ghost predicate Apart(fdIdxs: map<int, nat>, live: seq<Socket>) {
    forall a, b | 0 <= a < b < |live| && live[a].fd in fdIdxs && live[b].fd in fdIdxs ::
      fdIdxs[live[a].fd] != fdIdxs[live[b].fd]
  }

  ghost predicate HasFd(live: seq<Socket>, fd: int) {
    exists k :: 0 <= k < |live| && live[k].fd == fd
  }

  ghost predicate Serves(fdIdxs: map<int, nat>, live: seq<Socket>, i: nat) {
    exists k :: 0 <= k < |live| && live[k].fd in fdIdxs && fdIdxs[live[k].fd] == i
  }

  ghost predicate LinkedOne(reqs: seq<Request>, fdIdxs: map<int, nat>, s: Socket, owner: seq<nat>) {
    && s.fd in fdIdxs && fdIdxs[s.fd] < |reqs|
    && reqs[fdIdxs[s.fd]].state == FD_ASSIGNED && reqs[fdIdxs[s.fd]].endpoint.addr == s.addr
    && s.conn < |owner| && owner[s.conn] == fdIdxs[s.fd]
  }

  /** The requests' states against the history; `closed` are handed out but not yet settled. */
  ghost predicate Sound(reqs: seq<Request>, requests: seq<seq<Byte>>, owner: seq<nat>, won: seq<nat>, wire: seq<Io>,
                        asked: seq<seq<Byte>>, closed: seq<Socket>) {
    && |reqs| == |requests| == |won| && |owner| == |asked|
    && (forall i | 0 <= i < |reqs| :: reqs[i].request == requests[i])
    && (forall c | 0 <= c < |owner| :: owner[c] < |reqs| && asked[c] == requests[owner[c]])
    && (forall i | 0 <= i < |reqs| && reqs[i].state == FINISHED :: Won(reqs[i], i, requests[i], owner, won[i], wire))
    && (forall c | 0 <= c < |owner| && Ended(wire, c) ::
          (reqs[owner[c]].state == FINISHED && won[owner[c]] == c) || Awaits(closed, c))
  }

  ghost predicate Won(r: Request, i: nat, request: seq<Byte>, owner: seq<nat>, w: nat, wire: seq<Io>) {
    && w < |owner| && owner[w] == i
    && r.response == GotOn(wire, w) && SentOn(wire, w) <= request && Ended(wire, w)
  }

  ghost predicate Awaits(closed: seq<Socket>, c: nat) {
    exists k :: 0 <= k < |closed| && closed[k].conn == c && closed[k].state == CLOSED
  }

  ghost predicate TargetsMade(target: seq<TEndpoint>, made: set<TEndpoint>) {
    forall c | 0 <= c < |target| :: target[c] in made
  }

  ghost function DeadOnes(made: set<TEndpoint>): set<TEndpoint>
    reads made
  {
    set e | e in made && !e.alive
  }

  /** Connection `c` was handed out with an error, and is not settled yet. */
  ghost predicate AwaitsRetry(closed: seq<Socket>, c: nat) {
    exists k :: 0 <= k < |closed| && closed[k].conn == c && closed[k].state == ERROR
  }

  /** A connection to the endpoint broke, and that has been settled. */
  ghost predicate Failed(e: TEndpoint, target: seq<TEndpoint>, wire: seq<Io>, closed: seq<Socket>) {
    exists c :: 0 <= c < |target| && target[c] == e && Broken(wire, c) && !AwaitsRetry(closed, c)
  }

  /** An endpoint of the list lives exactly if it is not among those dead at the start and has not failed. */
  ghost predicate LivesKnown(endpoints: seq<TEndpoint>, dead: set<TEndpoint>, target: seq<TEndpoint>, wire: seq<Io>,
                             closed: seq<Socket>)
    reads endpoints
  {
    forall k | 0 <= k < |endpoints| ::
      endpoints[k].alive <==> endpoints[k] !in dead && !Failed(endpoints[k], target, wire, closed)
  }

  ghost predicate SomeAlive(endpoints: seq<TEndpoint>)
    reads endpoints
  {
    exists k :: 0 <= k < |endpoints| && endpoints[k].alive
  }

  /** Connection p broke before q, if both did. */
  ghost predicate Before(wire: seq<Io>, p: nat, q: nat) {
    forall x, y | 0 <= x < |wire| && 0 <= y < |wire| && wire[x].broken && wire[y].broken
      && wire[x].conn == p && wire[y].conn == q :: x < y
  }

  /** A request sent again, on connection c after p, goes to an endpoint to which no connection had broken when p
      did: each that breaks at all does so later. */
  ghost predicate GivenUnbroken(owner: seq<nat>, target: seq<TEndpoint>, wire: seq<Io>) {
    && |target| == |owner|
    && forall p, c, q | 0 <= p < c < |owner| && owner[p] == owner[c] && 0 <= q < |target| && target[q] == target[c] ::
         Before(wire, p, q)
  }

  /** The same for the requests that have an endpoint but no connection yet. */
  ghost predicate Chosen(reqs: seq<Request>, owner: seq<nat>, target: seq<TEndpoint>, wire: seq<Io>) {
    forall i, p, q | 0 <= i < |reqs| && reqs[i].state == FD_NOT_ASSIGNED && 0 <= p < |owner| && owner[p] == i
      && 0 <= q < |target| && target[q] == reqs[i].endpoint :: Before(wire, p, q)
  }

  /** Connection c is the last one opened for its request, and goes to the endpoint the request has. */
  ghost predicate AimedOne(reqs: seq<Request>, c: nat, owner: seq<nat>, target: seq<TEndpoint>) {
    && c < |owner| == |target| && owner[c] < |reqs| && target[c] == reqs[owner[c]].endpoint
    && forall d | c < d < |owner| :: owner[d] != owner[c]
  }

  /** The connections against the endpoints they went to; `live` are those open or not yet settled. */
  ghost predicate Tried(reqs: seq<Request>, live: seq<Socket>, owner: seq<nat>, target: seq<TEndpoint>, wire: seq<Io>) {
    && GivenUnbroken(owner, target, wire) && Chosen(reqs, owner, target, wire)
    && forall k | 0 <= k < |live| :: AimedOne(reqs, live[k].conn, owner, target)
  }

  /** What is known of the requests, the map, the open sockets and the history between two turns. */
  ghost predicate Orderly(reqs: seq<Request>, requests: seq<seq<Byte>>, fdIdxs: map<int, nat>, sockets: seq<Socket>,
                          owner: seq<nat>, target: seq<TEndpoint>, won: seq<nat>, wire: seq<Io>, asked: seq<seq<Byte>>) {
    && Linked(reqs, fdIdxs, sockets, owner) && Sound(reqs, requests, owner, won, wire, asked, [])
    && Tried(reqs, sockets, owner, target, wire) && |won| == |reqs|
  }

  /** The sockets handed out come in the order in which they broke, after all that broke before. */
  ghost predicate InTurn(closed: seq<Socket>, wire: seq<Io>) {
    forall k, p: nat | 0 <= k < |closed| && (forall m | k <= m < |closed| :: closed[m].conn != p) ::
      Before(wire, p, closed[k].conn)
  }

  /** One living endpoint per address, in order. */
  ghost predicate FreshList(endpoints: seq<TEndpoint>, addrs: seq<nat>)
    reads endpoints
  {
    && |endpoints| == |addrs|
    && forall k | 0 <= k < |addrs| :: endpoints[k].addr == addrs[k] && endpoints[k].alive
  }

  // ----- counting

  lemma {:induction false} NoneFinished(reqs: seq<Request>)
    requires forall k | 0 <= k < |reqs| :: reqs[k].state != FINISHED
    ensures CountFinished(reqs) == 0
  {
    if reqs != [] {
      NoneFinished(reqs[..|reqs| - 1]);
    }
  }

  lemma {:induction false} CountBound(reqs: seq<Request>)
    ensures CountFinished(reqs) <= |reqs|
    ensures CountFinished(reqs) == |reqs| <==> forall k | 0 <= k < |reqs| :: reqs[k].state == FINISHED
  {
    if reqs != [] {
      CountBound(reqs[..|reqs| - 1]);
      assert forall k | 0 <= k < |reqs| - 1 :: reqs[..|reqs| - 1][k] == reqs[k];
    }
  }

  lemma {:induction false} CountUpdate(reqs: seq<Request>, i: nat, r: Request)
    requires i < |reqs| && reqs[i].state != FINISHED
    ensures CountFinished(reqs[i := r]) == CountFinished(reqs) + if r.state == FINISHED then 1 else 0
  {
    var n := |reqs| - 1;
    if i == n {
      assert reqs[i := r][..n] == reqs[..n];
    } else {
      assert reqs[i := r][..n] == reqs[..n][i := r];
      CountUpdate(reqs[..n], i, r);
    }
  }

  // ----- the map of descriptors

  /** While requests are unfinished and none waits for a connection, some socket is open, so poll has work. */
  lemma SomeOpen(reqs: seq<Request>, fdIdxs: map<int, nat>, live: seq<Socket>, owner: seq<nat>)
    requires Linked(reqs, fdIdxs, live, owner) && CountFinished(reqs) < |reqs|
    requires forall k | 0 <= k < |reqs| :: reqs[k].state != FD_NOT_ASSIGNED
    ensures live != []
  {
    CountBound(reqs);
    var i :| 0 <= i < |reqs| && reqs[i].state != FINISHED;
    assert reqs[i].state == FD_ASSIGNED;
  }

  lemma LinkAdds(reqs: seq<Request>, fdIdxs: map<int, nat>, live: seq<Socket>, owner: seq<nat>, i: nat, s: Socket)
    requires Linked(reqs, fdIdxs, live, owner) && i < |reqs| && reqs[i].state == FD_NOT_ASSIGNED
    requires Free(live, s.fd) && s.conn == |owner| && s.addr == reqs[i].endpoint.addr
    ensures Linked(reqs[i := reqs[i].(state := FD_ASSIGNED)], fdIdxs[s.fd := i], live + [s], owner + [i])
  {
    var rs, fs, now, os := reqs[i := reqs[i].(state := FD_ASSIGNED)], fdIdxs[s.fd := i], live + [s], owner + [i];
    forall k | 0 <= k < |now| ensures LinkedOne(rs, fs, now[k], os) {
      if k < |live| {
        assert LinkedOne(reqs, fdIdxs, live[k], owner);
      }
    }
    AddApart(reqs, fdIdxs, live, owner, i, s);
    forall fd | fd in fs ensures HasFd(now, fd) {
      if fd == s.fd {
        assert now[|live|].fd == fd;
      } else {
        var k :| 0 <= k < |live| && live[k].fd == fd;
        assert now[k].fd == fd;
      }
    }
    forall j | 0 <= j < |rs| && rs[j].state == FD_ASSIGNED ensures Serves(fs, now, j) {
      if j == i {
        assert fs[now[|live|].fd] == j;
      } else {
        var k :| 0 <= k < |live| && live[k].fd in fdIdxs && fdIdxs[live[k].fd] == j;
        assert now[k].fd in fs && fs[now[k].fd] == j;
      }
    }
  }

  lemma AddApart(reqs: seq<Request>, fdIdxs: map<int, nat>, live: seq<Socket>, owner: seq<nat>, i: nat, s: Socket)
    requires AllLinked(reqs, fdIdxs, live, owner) && Distinct(live) && Apart(fdIdxs, live)
    requires Free(live, s.fd) && s.conn == |owner| && i < |reqs| && reqs[i].state == FD_NOT_ASSIGNED
    ensures Distinct(live + [s]) && Apart(fdIdxs[s.fd := i], live + [s])
  {
    forall y | y in live ensures y.conn != s.conn && y.fd != s.fd && (y.fd in fdIdxs ==> fdIdxs[y.fd] != i) {
      var k :| 0 <= k < |live| && live[k] == y;
      assert LinkedOne(reqs, fdIdxs, live[k], owner);
    }
    DistinctSnoc(live, s);
    assert forall k | 0 <= k < |live| :: live[k] in live;
  }

  lemma LinkDrops(reqs: seq<Request>, fdIdxs: map<int, nat>, live: seq<Socket>, owner: seq<nat>, r: Request)
    requires live != [] && Linked(reqs, fdIdxs, live, owner) && r.state != FD_ASSIGNED
    requires LinkedOne(reqs, fdIdxs, live[0], owner)
    ensures Linked(reqs[fdIdxs[live[0].fd] := r], fdIdxs - {live[0].fd}, live[1..], owner)
  {
    DropForward(reqs, fdIdxs, live, owner, r);
    DropBack(reqs, fdIdxs, live, fdIdxs[live[0].fd], r);
  }

  lemma DropForward(reqs: seq<Request>, fdIdxs: map<int, nat>, live: seq<Socket>, owner: seq<nat>, r: Request)
    requires live != [] && Distinct(live) && AllLinked(reqs, fdIdxs, live, owner) && Apart(fdIdxs, live)
    requires LinkedOne(reqs, fdIdxs, live[0], owner)
    ensures var rs, fs, now := reqs[fdIdxs[live[0].fd] := r], fdIdxs - {live[0].fd}, live[1..];
      Distinct(now) && AllLinked(rs, fs, now, owner) && Apart(fs, now)
  {
    var rs, fs, now := reqs[fdIdxs[live[0].fd] := r], fdIdxs - {live[0].fd}, live[1..];
    forall k | 0 <= k < |now| ensures LinkedOne(rs, fs, now[k], owner) {
      assert now[k] == live[k + 1] && LinkedOne(reqs, fdIdxs, live[k + 1], owner);
    }
    forall a, b | 0 <= a < b < |now| && now[a].fd in fs && now[b].fd in fs ensures fs[now[a].fd] != fs[now[b].fd] {
      assert now[a] == live[a + 1] && now[b] == live[b + 1];
    }
  }

  lemma DropBack(reqs: seq<Request>, fdIdxs: map<int, nat>, live: seq<Socket>, i: nat, r: Request)
    requires live != [] && Distinct(live) && r.state != FD_ASSIGNED && i < |reqs|
    requires live[0].fd in fdIdxs && fdIdxs[live[0].fd] == i
    requires forall fd | fd in fdIdxs :: HasFd(live, fd)
    requires forall j | 0 <= j < |reqs| && reqs[j].state == FD_ASSIGNED :: Serves(fdIdxs, live, j)
    ensures forall fd | fd in fdIdxs - {live[0].fd} :: HasFd(live[1..], fd)
    ensures forall j | 0 <= j < |reqs| && reqs[i := r][j].state == FD_ASSIGNED ::
      Serves(fdIdxs - {live[0].fd}, live[1..], j)
  {
    var fs, now := fdIdxs - {live[0].fd}, live[1..];
    forall fd | fd in fs ensures HasFd(now, fd) {
      assert HasFd(live, fd);
      var k :| 0 <= k < |live| && live[k].fd == fd;
      assert now[k - 1].fd == fd;
    }
    forall j | 0 <= j < |reqs| && reqs[i := r][j].state == FD_ASSIGNED ensures Serves(fs, now, j) {
      assert Serves(fdIdxs, live, j);
      var k :| 0 <= k < |live| && live[k].fd in fdIdxs && fdIdxs[live[k].fd] == j;
      assert now[k - 1] == live[k];
    }
  }

  ghost predicate Same(s: Socket, t: Socket) {
    s.fd == t.fd && s.conn == t.conn && s.addr == t.addr
  }

  ghost predicate Within(a: seq<Socket>, b: seq<Socket>) {
    forall x | 0 <= x < |a| :: HasSame(b, a[x])
  }

  ghost predicate HasSame(b: seq<Socket>, s: Socket) {
    exists y :: 0 <= y < |b| && Same(b[y], s)
  }

  /** The links only look at the sockets' identities, and at none of their order. */
  lemma Relink(reqs: seq<Request>, fdIdxs: map<int, nat>, a: seq<Socket>, b: seq<Socket>, owner: seq<nat>)
    requires Linked(reqs, fdIdxs, a, owner) && Distinct(b) && Within(a, b) && Within(b, a)
    ensures Linked(reqs, fdIdxs, b, owner)
  {
    RelinkForward(reqs, fdIdxs, a, b, owner);
    RelinkBack(reqs, fdIdxs, a, b);
  }

  lemma RelinkForward(reqs: seq<Request>, fdIdxs: map<int, nat>, a: seq<Socket>, b: seq<Socket>, owner: seq<nat>)
    requires AllLinked(reqs, fdIdxs, a, owner) && Apart(fdIdxs, a) && Distinct(b) && Within(b, a)
    ensures AllLinked(reqs, fdIdxs, b, owner) && Apart(fdIdxs, b)
  {
    forall y | 0 <= y < |b| ensures LinkedOne(reqs, fdIdxs, b[y], owner) {
      assert HasSame(a, b[y]);
      var x :| 0 <= x < |a| && Same(a[x], b[y]);
      assert LinkedOne(reqs, fdIdxs, a[x], owner);
    }
    forall y, z | 0 <= y < z < |b| && b[y].fd in fdIdxs && b[z].fd in fdIdxs
      ensures fdIdxs[b[y].fd] != fdIdxs[b[z].fd]
    {
      assert HasSame(a, b[y]) && HasSame(a, b[z]);
      var x :| 0 <= x < |a| && Same(a[x], b[y]);
      var w :| 0 <= w < |a| && Same(a[w], b[z]);
      assert x < w || w < x;
    }
  }

  lemma RelinkBack(reqs: seq<Request>, fdIdxs: map<int, nat>, a: seq<Socket>, b: seq<Socket>)
    requires Within(a, b)
    requires forall fd | fd in fdIdxs :: HasFd(a, fd)
    requires forall i | 0 <= i < |reqs| && reqs[i].state == FD_ASSIGNED :: Serves(fdIdxs, a, i)
    ensures forall fd | fd in fdIdxs :: HasFd(b, fd)
    ensures forall i | 0 <= i < |reqs| && reqs[i].state == FD_ASSIGNED :: Serves(fdIdxs, b, i)
  {
    forall fd | fd in fdIdxs ensures HasFd(b, fd) {
      var x :| 0 <= x < |a| && a[x].fd == fd;
      assert HasSame(b, a[x]);
    }
    forall i | 0 <= i < |reqs| && reqs[i].state == FD_ASSIGNED ensures Serves(fdIdxs, b, i) {
      assert Serves(fdIdxs, a, i);
      var x :| 0 <= x < |a| && a[x].fd in fdIdxs && fdIdxs[a[x].fd] == i;
      assert HasSame(b, a[x]);
    }
  }

  lemma Parted(s: seq<Socket>, events: seq<Activity>)
    requires Distinct(s)
    ensures var b := Removed(Updated(s, events)) + Kept(Updated(s, events));
      Distinct(b) && Within(b, s) && Within(s, b)
  {
    var u := Updated(s, events);
    UpdatedDistinct(s, events);
    PartsApart(u);
    var b := Removed(u) + Kept(u);
    forall y | 0 <= y < |b| ensures HasSame(s, b[y]) {
      assert b[y] in b;
      PartFrom(s, events, b[y]);
    }
    forall x | 0 <= x < |s| ensures HasSame(b, s[x]) {
      PartOf(s, events, x);
    }
  }

  lemma PartFrom(s: seq<Socket>, events: seq<Activity>, t: Socket)
    requires t in Removed(Updated(s, events)) + Kept(Updated(s, events))
    ensures HasSame(s, t)
  {
    var u := Updated(s, events);
    SplitAll(u);
    assert t in u;
    var x :| 0 <= x < |u| && u[x] == t;
    StepIdentity(s[x], ActivityOf(events, x));
  }

  lemma PartOf(s: seq<Socket>, events: seq<Activity>, x: nat)
    requires x < |s|
    ensures HasSame(Removed(Updated(s, events)) + Kept(Updated(s, events)), s[x])
  {
    var u := Updated(s, events);
    var b := Removed(u) + Kept(u);
    SplitAll(u);
    StepIdentity(s[x], ActivityOf(events, x));
    assert u[x] in u && u[x] in b;
    var y :| 0 <= y < |b| && b[y] == u[x];
  }

  lemma StepIdentity(s: Socket, a: Activity)
    ensures Same(s, After(s, a))
  {
  }

  lemma PartsApart(u: seq<Socket>)
    requires Distinct(u)
    ensures Distinct(Removed(u) + Kept(u))
  {
    PartsDistinct(u);
    SplitAll(u);
    var r, k := Removed(u), Kept(u);
    forall i, j | 0 <= i < |r| && 0 <= j < |k| ensures r[i].conn != k[j].conn && r[i].fd != k[j].fd {
      assert r[i] in r && k[j] in k;
      var x :| 0 <= x < |u| && u[x] == r[i];
      var y :| 0 <= y < |u| && u[y] == k[j];
      assert x != y;
    }
  }

  // ----- the history

  /** A connection that won is not open any more. */
  lemma WinnersClosed(reqs: seq<Request>, fdIdxs: map<int, nat>, live: seq<Socket>, owner: seq<nat>, w: nat, k: nat)
    requires Linked(reqs, fdIdxs, live, owner) && k < |live| && w < |owner| && owner[w] < |reqs|
    requires reqs[owner[w]].state == FINISHED
    ensures live[k].conn != w
  {
    assert LinkedOne(reqs, fdIdxs, live[k], owner);
  }

  lemma SilentKeepsWon(r: Request, i: nat, request: seq<Byte>, owner: seq<nat>, w: nat, wire: seq<Io>,
                       s: seq<Socket>, events: seq<Activity>)
    requires Won(r, i, request, owner, w, wire) && forall k | 0 <= k < |s| :: s[k].conn != w
    ensures Won(r, i, request, owner, w, wire + RoundLog(s, events))
  {
    Silent(s, events, w);
    Concatenated(wire, RoundLog(s, events), w);
    EndedConcat(wire, RoundLog(s, events), w);
  }

  lemma EndsInRound(s: seq<Socket>, events: seq<Activity>, c: nat)
    requires Distinct(s) && Ended(RoundLog(s, events), c)
    ensures Awaits(Removed(Updated(s, events)), c)
  {
    var u, log := Updated(s, events), RoundLog(s, events);
    var io :| io in log && io.conn == c && io.eof;
    var k :| 0 <= k < |log| && log[k] == io;
    EofCloses(s[k], ActivityOf(events, k));
    assert u[k] in u;
    SplitAll(u);
    var r := Removed(u);
    var x :| 0 <= x < |r| && r[x] == u[k];
  }

  lemma EofCloses(s: Socket, a: Activity)
    requires IoOf(s, a).eof
    ensures After(s, a).state == CLOSED && After(s, a).conn == s.conn == IoOf(s, a).conn
  {
  }

  lemma PollSound(reqs: seq<Request>, fdIdxs: map<int, nat>, s: seq<Socket>, owner: seq<nat>,
                  requests: seq<seq<Byte>>, won: seq<nat>, wire: seq<Io>, asked: seq<seq<Byte>>, events: seq<Activity>)
    requires Linked(reqs, fdIdxs, s, owner) && Sound(reqs, requests, owner, won, wire, asked, [])
    ensures Sound(reqs, requests, owner, won, wire + RoundLog(s, events), asked, Removed(Updated(s, events)))
  {
    var w := wire + RoundLog(s, events);
    forall i | 0 <= i < |reqs| && reqs[i].state == FINISHED ensures Won(reqs[i], i, requests[i], owner, won[i], w) {
      assert Won(reqs[i], i, requests[i], owner, won[i], wire);
      forall k | 0 <= k < |s| ensures s[k].conn != won[i] {
        WinnersClosed(reqs, fdIdxs, s, owner, won[i], k);
      }
      SilentKeepsWon(reqs[i], i, requests[i], owner, won[i], wire, s, events);
    }
    forall c | 0 <= c < |owner| && Ended(w, c)
      ensures (reqs[owner[c]].state == FINISHED && won[owner[c]] == c) || Awaits(Removed(Updated(s, events)), c)
    {
      EndedConcat(wire, RoundLog(s, events), c);
      if !Ended(wire, c) {
        EndsInRound(s, events, c);
      }
    }
  }

  lemma PollKeeps(reqs: seq<Request>, fdIdxs: map<int, nat>, s: seq<Socket>, owner: seq<nat>,
                  requests: seq<seq<Byte>>, won: seq<nat>, wire: seq<Io>, asked: seq<seq<Byte>>, events: seq<Activity>)
    requires Linked(reqs, fdIdxs, s, owner) && Sound(reqs, requests, owner, won, wire, asked, [])
    ensures Linked(reqs, fdIdxs, Removed(Updated(s, events)) + Kept(Updated(s, events)), owner)
    ensures Sound(reqs, requests, owner, won, wire + RoundLog(s, events), asked, Removed(Updated(s, events)))
  {
    Parted(s, events);
    Relink(reqs, fdIdxs, s, Removed(Updated(s, events)) + Kept(Updated(s, events)), owner);
    PollSound(reqs, fdIdxs, s, owner, requests, won, wire, asked, events);
  }

  lemma OpenKeeps(reqs: seq<Request>, fdIdxs: map<int, nat>, s: seq<Socket>, owner: seq<nat>, requests: seq<seq<Byte>>,
                  won: seq<nat>, wire: seq<Io>, asked: seq<seq<Byte>>, i: nat, sock: Socket)
    requires Linked(reqs, fdIdxs, s, owner) && Sound(reqs, requests, owner, won, wire, asked, [])
    requires forall io | io in wire :: io.conn < |asked|
    requires i < |reqs| && reqs[i].state == FD_NOT_ASSIGNED
    requires Free(s, sock.fd) && sock.conn == |asked| && sock.addr == reqs[i].endpoint.addr
    ensures var rs := reqs[i := reqs[i].(state := FD_ASSIGNED)];
      && Linked(rs, fdIdxs[sock.fd := i], s + [sock], owner + [i])
      && Sound(rs, requests, owner + [i], won, wire, asked + [reqs[i].request], [])
      && CountFinished(rs) == CountFinished(reqs)
  {
    LinkAdds(reqs, fdIdxs, s, owner, i, sock);
    CountUpdate(reqs, i, reqs[i].(state := FD_ASSIGNED));
    OpenSound(reqs, owner, requests, won, wire, asked, i);
  }

  lemma OpenSound(reqs: seq<Request>, owner: seq<nat>, requests: seq<seq<Byte>>, won: seq<nat>, wire: seq<Io>,
                  asked: seq<seq<Byte>>, i: nat)
    requires Sound(reqs, requests, owner, won, wire, asked, [])
    requires forall io | io in wire :: io.conn < |asked|
    requires i < |reqs| && reqs[i].state == FD_NOT_ASSIGNED
    ensures Sound(reqs[i := reqs[i].(state := FD_ASSIGNED)], requests, owner + [i], won, wire,
                  asked + [reqs[i].request], [])
  {
    var rs, os := reqs[i := reqs[i].(state := FD_ASSIGNED)], owner + [i];
    forall j | 0 <= j < |rs| && rs[j].state == FINISHED ensures Won(rs[j], j, requests[j], os, won[j], wire) {
      assert Won(reqs[j], j, requests[j], owner, won[j], wire);
    }
    forall c | 0 <= c < |os| && Ended(wire, c) ensures rs[os[c]].state == FINISHED && won[os[c]] == c {
      var io :| io in wire && io.conn == c && io.eof;
      assert c < |owner|;
    }
  }

  /** Every lookup of the settling loop finds an assigned request, the one the connection was opened for. */
  lemma FirstLinked(reqs: seq<Request>, fdIdxs: map<int, nat>, rest: seq<Socket>, sockets: seq<Socket>, owner: seq<nat>)
    requires rest != [] && Linked(reqs, fdIdxs, rest + sockets, owner)
    ensures LinkedOne(reqs, fdIdxs, rest[0], owner)
  {
    assert (rest + sockets)[0] == rest[0];
    assert LinkedOne(reqs, fdIdxs, (rest + sockets)[0], owner);
  }

  lemma DropFirst(reqs: seq<Request>, fdIdxs: map<int, nat>, rest: seq<Socket>, sockets: seq<Socket>, owner: seq<nat>, r: Request)
    requires rest != [] && Linked(reqs, fdIdxs, rest + sockets, owner) && r.state != FD_ASSIGNED
    ensures LinkedOne(reqs, fdIdxs, rest[0], owner)
    ensures Linked(reqs[fdIdxs[rest[0].fd] := r], fdIdxs - {rest[0].fd}, rest[1..] + sockets, owner)
  {
    FirstLinked(reqs, fdIdxs, rest, sockets, owner);
    LinkDrops(reqs, fdIdxs, rest + sockets, owner, r);
    assert (rest + sockets)[1..] == rest[1..] + sockets;
  }

  lemma RetryKeeps(reqs: seq<Request>, fdIdxs: map<int, nat>, rest: seq<Socket>, sockets: seq<Socket>, owner: seq<nat>,
                   requests: seq<seq<Byte>>, won: seq<nat>, wire: seq<Io>, asked: seq<seq<Byte>>, r: Request)
    requires rest != [] && Linked(reqs, fdIdxs, rest + sockets, owner) && LinkedOne(reqs, fdIdxs, rest[0], owner)
    requires Sound(reqs, requests, owner, won, wire, asked, rest) && rest[0].state == ERROR
    requires r.state == FD_NOT_ASSIGNED && r.request == reqs[fdIdxs[rest[0].fd]].request
    ensures var i := fdIdxs[rest[0].fd]; var rs := reqs[i := r];
      && Linked(rs, fdIdxs - {rest[0].fd}, rest[1..] + sockets, owner)
      && Sound(rs, requests, owner, won, wire, asked, rest[1..])
      && CountFinished(rs) == CountFinished(reqs)
  {
    DropFirst(reqs, fdIdxs, rest, sockets, owner, r);
    CountUpdate(reqs, fdIdxs[rest[0].fd], r);
    RetrySound(reqs, rest, owner, requests, won, wire, asked, fdIdxs[rest[0].fd], r);
  }

  lemma AwaitsLater(rest: seq<Socket>, c: nat)
    requires rest != [] && Awaits(rest, c) && !(rest[0].conn == c && rest[0].state == CLOSED)
    ensures Awaits(rest[1..], c)
  {
    var k :| 0 <= k < |rest| && rest[k].conn == c && rest[k].state == CLOSED;
    assert rest[1..][k - 1] == rest[k];
  }

  lemma RetrySound(reqs: seq<Request>, rest: seq<Socket>, owner: seq<nat>, requests: seq<seq<Byte>>, won: seq<nat>,
                   wire: seq<Io>, asked: seq<seq<Byte>>, i: nat, r: Request)
    requires rest != [] && Sound(reqs, requests, owner, won, wire, asked, rest) && rest[0].state == ERROR
    requires i < |reqs| && reqs[i].state == FD_ASSIGNED && r.state == FD_NOT_ASSIGNED && r.request == reqs[i].request
    ensures Sound(reqs[i := r], requests, owner, won, wire, asked, rest[1..])
  {
    var rs := reqs[i := r];
    forall j | 0 <= j < |rs| && rs[j].state == FINISHED ensures Won(rs[j], j, requests[j], owner, won[j], wire) {
      assert Won(reqs[j], j, requests[j], owner, won[j], wire);
    }
    forall c | 0 <= c < |owner| && Ended(wire, c)
      ensures (rs[owner[c]].state == FINISHED && won[owner[c]] == c) || Awaits(rest[1..], c)
    {
      if Awaits(rest, c) {
        AwaitsLater(rest, c);
      }
    }
  }

  lemma FinishKeeps(reqs: seq<Request>, fdIdxs: map<int, nat>, rest: seq<Socket>, sockets: seq<Socket>, owner: seq<nat>,
                    requests: seq<seq<Byte>>, won: seq<nat>, wire: seq<Io>, asked: seq<seq<Byte>>, r: Request)
    requires rest != [] && Linked(reqs, fdIdxs, rest + sockets, owner) && LinkedOne(reqs, fdIdxs, rest[0], owner)
    requires Sound(reqs, requests, owner, won, wire, asked, rest)
    requires rest[0].state == CLOSED && Recorded(rest[0], wire, asked)
    requires r == reqs[fdIdxs[rest[0].fd]].(state := FINISHED, response := rest[0].response)
    ensures var i := fdIdxs[rest[0].fd]; var rs := reqs[i := r];
      && Linked(rs, fdIdxs - {rest[0].fd}, rest[1..] + sockets, owner)
      && Sound(rs, requests, owner, won[i := rest[0].conn], wire, asked, rest[1..])
      && CountFinished(rs) == CountFinished(reqs) + 1
  {
    DropFirst(reqs, fdIdxs, rest, sockets, owner, r);
    CountUpdate(reqs, fdIdxs[rest[0].fd], r);
    FinishSound(reqs, rest, owner, requests, won, wire, asked, fdIdxs[rest[0].fd], r);
  }

  lemma FinishSound(reqs: seq<Request>, rest: seq<Socket>, owner: seq<nat>, requests: seq<seq<Byte>>, won: seq<nat>,
                    wire: seq<Io>, asked: seq<seq<Byte>>, i: nat, r: Request)
    requires rest != [] && Sound(reqs, requests, owner, won, wire, asked, rest)
    requires rest[0].state == CLOSED && Recorded(rest[0], wire, asked)
    requires i < |reqs| && reqs[i].state == FD_ASSIGNED && owner[rest[0].conn] == i
    requires r == reqs[i].(state := FINISHED, response := rest[0].response)
    ensures Sound(reqs[i := r], requests, owner, won[i := rest[0].conn], wire, asked, rest[1..])
  {
    var rs, ws := reqs[i := r], won[i := rest[0].conn];
    forall j | 0 <= j < |rs| && rs[j].state == FINISHED ensures Won(rs[j], j, requests[j], owner, ws[j], wire) {
      if j != i {
        assert Won(reqs[j], j, requests[j], owner, won[j], wire);
      } else {
        Prefixes(SentOn(wire, rest[0].conn), rest[0].request, requests[i]);
      }
    }
    forall c | 0 <= c < |owner| && Ended(wire, c)
      ensures (rs[owner[c]].state == FINISHED && ws[owner[c]] == c) || Awaits(rest[1..], c)
    {
      if Awaits(rest, c) && c != rest[0].conn {
        AwaitsLater(rest, c);
      }
    }
  }

  lemma Prefixes(a: seq<Byte>, b: seq<Byte>, c: seq<Byte>)
    requires a + b == c
    ensures a <= c
  {
  }

  lemma Begins(reqs: seq<Request>, requests: seq<seq<Byte>>, won: seq<nat>)
    requires |reqs| == |requests| == |won|
    requires forall k | 0 <= k < |reqs| :: reqs[k].request == requests[k] && reqs[k].state == FD_NOT_ASSIGNED
    ensures Orderly(reqs, requests, map[], [], [], [], won, [], []) && CountFinished(reqs) == 0
  {
    NoneFinished(reqs);
  }

  lemma Concludes(reqs: seq<Request>, requests: seq<seq<Byte>>, fdIdxs: map<int, nat>, sockets: seq<Socket>,
                  owner: seq<nat>, target: seq<TEndpoint>, won: seq<nat>, wire: seq<Io>, asked: seq<seq<Byte>>)
    requires Orderly(reqs, requests, fdIdxs, sockets, owner, target, won, wire, asked) && CountFinished(reqs) >= |reqs|
    ensures Answered(requests, Responses(reqs), owner, won, wire)
  {
    CountBound(reqs);
    forall i | 0 <= i < |reqs| ensures Won(reqs[i], i, requests[i], owner, won[i], wire) {
      assert reqs[i].state == FINISHED;
    }
    forall i, c | 0 <= i < |reqs| && 0 <= c < |owner| && owner[c] == i ensures Ended(wire, c) <==> c == won[i] {
      assert reqs[owner[c]].state == FINISHED && !Awaits([], c);
      assert Won(reqs[i], i, requests[i], owner, won[i], wire);
    }
  }

  // ----- endpoints and what broke

  lemma AtStart(endpoints: seq<TEndpoint>, dead: set<TEndpoint>)
    requires forall k | 0 <= k < |endpoints| :: endpoints[k] in dead <==> !endpoints[k].alive
    ensures LivesKnown(endpoints, dead, [], [], []) && GivenUnbroken([], [], []) && forall made :: TargetsMade([], made)
  {
  }

  /** The endpoints of a list just read have no history. */
  lemma NewLive(endpoints: seq<TEndpoint>, before: set<TEndpoint>, dead: set<TEndpoint>, target: seq<TEndpoint>,
                wire: seq<Io>, closed: seq<Socket>)
    requires dead <= before && TargetsMade(target, before)
    requires forall k | 0 <= k < |endpoints| :: endpoints[k].alive && endpoints[k] !in before
    ensures LivesKnown(endpoints, dead, target, wire, closed)
  {
  }

  lemma NoneFailed(endpoints: seq<TEndpoint>, dead: set<TEndpoint>, target: seq<TEndpoint>, wire: seq<Io>,
                   rest: seq<Socket>)
    requires rest != [] && LivesKnown(endpoints, dead, target, wire, rest)
    requires forall e :: Failed(e, target, wire, rest[1..]) <==> Failed(e, target, wire, rest)
    ensures LivesKnown(endpoints, dead, target, wire, rest[1..])
  {
  }

  lemma AllFailed(endpoints: seq<TEndpoint>, dead: set<TEndpoint>, target: seq<TEndpoint>, wire: seq<Io>,
                  closed: seq<Socket>)
    requires LivesKnown(endpoints, dead, target, wire, closed) && !SomeAlive(endpoints)
    ensures LivesKnown(endpoints, dead, target, wire, [])
  {
    forall k | 0 <= k < |endpoints| && endpoints[k] !in dead ensures Failed(endpoints[k], target, wire, []) {
      assert !endpoints[k].alive;
      var c :| 0 <= c < |target| && target[c] == endpoints[k] && Broken(wire, c) && !AwaitsRetry(closed, c);
      assert !AwaitsRetry([], c);
    }
  }

  lemma WireBounded(s: seq<Socket>, wire: seq<Io>, asked: seq<seq<Byte>>)
    requires Listed(s, wire, asked)
    ensures forall io | io in wire :: io.conn < |asked|
  {
  }

  lemma OwnersAsked(reqs: seq<Request>, requests: seq<seq<Byte>>, live: seq<Socket>, owner: seq<nat>,
                    target: seq<TEndpoint>, won: seq<nat>, wire: seq<Io>, asked: seq<seq<Byte>>)
    requires Sound(reqs, requests, owner, won, wire, asked, []) && Tried(reqs, live, owner, target, wire)
    ensures |owner| == |asked| == |target| && GivenUnbroken(owner, target, wire)
  {
  }

  /** A new connection has not broken. */
  lemma OpenLives(endpoints: seq<TEndpoint>, dead: set<TEndpoint>, target: seq<TEndpoint>, wire: seq<Io>, e: TEndpoint)
    requires LivesKnown(endpoints, dead, target, wire, []) && forall io | io in wire :: io.conn < |target|
    ensures LivesKnown(endpoints, dead, target + [e], wire, [])
  {
    var t := target + [e];
    assert !Broken(wire, |target|);
    forall k | 0 <= k < |endpoints| ensures Failed(endpoints[k], t, wire, []) <==> Failed(endpoints[k], target, wire, []) {
      if Failed(endpoints[k], target, wire, []) {
        var c :| 0 <= c < |target| && target[c] == endpoints[k] && Broken(wire, c) && !AwaitsRetry([], c);
        assert t[c] == endpoints[k];
      }
    }
  }

  lemma OpenTried(reqs: seq<Request>, fdIdxs: map<int, nat>, s: seq<Socket>, owner: seq<nat>, target: seq<TEndpoint>,
                  wire: seq<Io>, i: nat, sock: Socket)
    requires Linked(reqs, fdIdxs, s, owner) && Tried(reqs, s, owner, target, wire)
    requires forall io | io in wire :: io.conn < |owner|
    requires i < |reqs| && reqs[i].state == FD_NOT_ASSIGNED && sock.conn == |owner|
    ensures Tried(reqs[i := reqs[i].(state := FD_ASSIGNED)], s + [sock], owner + [i], target + [reqs[i].endpoint], wire)
    ensures GivenUnbroken(owner + [i], target + [reqs[i].endpoint], wire)
  {
    var rs, os, ts := reqs[i := reqs[i].(state := FD_ASSIGNED)], owner + [i], target + [reqs[i].endpoint];
    OpenUnbroken(reqs, owner, target, wire, i);
    forall k | 0 <= k < |s + [sock]| ensures AimedOne(rs, (s + [sock])[k].conn, os, ts) {
      if k < |s| {
        assert AimedOne(reqs, s[k].conn, owner, target) && LinkedOne(reqs, fdIdxs, s[k], owner);
      }
    }
  }

  lemma OpenUnbroken(reqs: seq<Request>, owner: seq<nat>, target: seq<TEndpoint>, wire: seq<Io>, i: nat)
    requires GivenUnbroken(owner, target, wire) && Chosen(reqs, owner, target, wire)
    requires forall io | io in wire :: io.conn < |owner|
    requires i < |reqs| && reqs[i].state == FD_NOT_ASSIGNED
    ensures GivenUnbroken(owner + [i], target + [reqs[i].endpoint], wire)
    ensures Chosen(reqs[i := reqs[i].(state := FD_ASSIGNED)], owner + [i], target + [reqs[i].endpoint], wire)
  {
    var n, os, ts := |owner|, owner + [i], target + [reqs[i].endpoint];
    forall p: nat ensures Before(wire, p, n) && Before(wire, n, p) {
      assert forall x | 0 <= x < |wire| :: wire[x] in wire;
    }
    forall p, c, q | 0 <= p < c < |os| && os[p] == os[c] && 0 <= q < |ts| && ts[q] == ts[c] ensures Before(wire, p, q) {
      if q < n {
        if c < n {
          assert owner[p] == owner[c] && target[q] == target[c];
        } else {
          assert owner[p] == i && target[q] == reqs[i].endpoint;
        }
      }
    }
    var rs := reqs[i := reqs[i].(state := FD_ASSIGNED)];
    forall j, p, q | 0 <= j < |rs| && rs[j].state == FD_NOT_ASSIGNED && 0 <= p < |os| && os[p] == j
        && 0 <= q < |ts| && ts[q] == rs[j].endpoint
      ensures Before(wire, p, q)
    {
      if q < n {
        assert reqs[j] == rs[j] && owner[p] == j && target[q] == reqs[j].endpoint;
      }
    }
  }

  lemma PollTried(reqs: seq<Request>, s: seq<Socket>, owner: seq<nat>, target: seq<TEndpoint>, wire: seq<Io>,
                  asked: seq<seq<Byte>>, events: seq<Activity>)
    requires Tried(reqs, s, owner, target, wire) && Listed(s, wire, asked)
    requires forall k | 0 <= k < |reqs| :: reqs[k].state != FD_NOT_ASSIGNED
    ensures var u, w := Updated(s, events), wire + RoundLog(s, events);
      && Tried(reqs, Removed(u) + Kept(u), owner, target, w) && GivenUnbroken(owner, target, w)
      && InTurn(Removed(u), w)
  {
    var u, log := Updated(s, events), RoundLog(s, events);
    forall p, c, q | 0 <= p < c < |owner| && owner[p] == owner[c] && 0 <= q < |target| && target[q] == target[c]
      ensures Before(wire + log, p, q)
    {
      assert Before(wire, p, q);
      forall k | 0 <= k < |s| ensures s[k].conn != p {
        assert AimedOne(reqs, s[k].conn, owner, target);
      }
      Silent(s, events, p);
      BeforeLater(wire, log, p, q);
    }
    forall x | x in Removed(u) + Kept(u) ensures AimedOne(reqs, x.conn, owner, target) {
      PartFrom(s, events, x);
      var y :| 0 <= y < |s| && Same(s[y], x);
    }
    assert forall k | 0 <= k < |Removed(u) + Kept(u)| :: (Removed(u) + Kept(u))[k] in Removed(u) + Kept(u);
    RemovedInTurn(s, events, wire);
  }

  /** What breaks later is later. */
  lemma BeforeLater(wire: seq<Io>, log: seq<Io>, p: nat, q: nat)
    requires Before(wire, p, q) && !Broken(log, p)
    ensures Before(wire + log, p, q)
  {
    var w := wire + log;
    forall x | |wire| <= x < |w| ensures !(w[x].broken && w[x].conn == p) {
      assert w[x] == log[x - |wire|] && log[x - |wire|] in log;
    }
  }

  /** The sockets a round hands out keep the order in which it went through them. */
  lemma {:induction false} RemovedInTurn(s: seq<Socket>, events: seq<Activity>, wire: seq<Io>)
    requires Distinct(s) && forall k | 0 <= k < |s| :: !Finished(s[k]) && !Broken(wire, s[k].conn)
    ensures InTurn(Removed(Updated(s, events)), wire + RoundLog(s, events))
  {
    hide Removed;
    if s == [] {
      NoneRemoved(events);
    } else {
      var n := |s| - 1;
      RemovedInTurn(s[..n], events, wire);
      var io := IoOf(s[n], ActivityOf(events, n));
      RoundSnoc(s, events);
      TurnSnoc(s, events, wire + RoundLog(s[..n], events), io) by {
        Silent(s[..n], events, s[n].conn);
        EndedConcat(wire, RoundLog(s[..n], events), s[n].conn);
      }
      assert wire + RoundLog(s, events) == wire + RoundLog(s[..n], events) + [io];
    }
  }

  lemma NoneRemoved(events: seq<Activity>)
    ensures Removed(Updated([], events)) == []
  {
  }

  lemma RoundSnoc(s: seq<Socket>, events: seq<Activity>)
    requires s != []
    ensures var n := |s| - 1; var t := After(s[n], ActivityOf(events, n));
      && RoundLog(s, events) == RoundLog(s[..n], events) + [IoOf(s[n], ActivityOf(events, n))]
      && Removed(Updated(s, events)) == Removed(Updated(s[..n], events)) + if Finished(t) then [t] else []
  {
    assert Updated(s, events)[..|s| - 1] == Updated(s[..|s| - 1], events);
  }

  lemma TurnSnoc(s: seq<Socket>, events: seq<Activity>, w: seq<Io>, io: Io)
    requires s != [] && Distinct(s) && !Finished(s[|s| - 1])
    requires io == IoOf(s[|s| - 1], ActivityOf(events, |s| - 1)) && !Broken(w, s[|s| - 1].conn)
    requires InTurn(Removed(Updated(s[..|s| - 1], events)), w)
    requires var t := After(s[|s| - 1], ActivityOf(events, |s| - 1));
      Removed(Updated(s, events)) == Removed(Updated(s[..|s| - 1], events)) + if Finished(t) then [t] else []
    ensures InTurn(Removed(Updated(s, events)), w + [io])
  {
    hide Removed, IoOf, After, Finished;
    var n := |s| - 1;
    var front, all := Removed(Updated(s[..n], events)), Removed(Updated(s, events));
    var t := After(s[n], ActivityOf(events, n));
    LastStepped(s[n], ActivityOf(events, n));
    forall k, p: nat | 0 <= k < |all| && (forall m | k <= m < |all| :: all[m].conn != p)
      ensures Before(w + [io], p, all[k].conn)
    {
      if k < |front| {
        assert front[k] in front;
        FrontApart(s, events, front[k]);
        assert forall m | k <= m < |front| :: front[m] == all[m];
        assert Before(w, p, front[k].conn);
        if io.broken {
          assert all[|front|] == t;
        }
        LastNotBefore(w, io, p, front[k].conn);
      } else {
        assert all[k] == t && t.conn != p;
        OnlyNow(w, io, p);
      }
    }
  }

  lemma LastStepped(s: Socket, a: Activity)
    requires !Finished(s)
    ensures var t, io := After(s, a), IoOf(s, a); t.conn == s.conn == io.conn && (io.broken ==> Finished(t))
  {
  }

  lemma FrontApart(s: seq<Socket>, events: seq<Activity>, x: Socket)
    requires s != [] && Distinct(s) && x in Removed(Updated(s[..|s| - 1], events))
    ensures x.conn != s[|s| - 1].conn
  {
    PartFrom(s[..|s| - 1], events, x);
  }

  /** One more record, of another connection than q, and of p only if it did not break. */
  lemma LastNotBefore(w: seq<Io>, io: Io, p: nat, q: nat)
    requires Before(w, p, q) && io.conn != q && !(io.conn == p && io.broken)
    ensures Before(w + [io], p, q)
  {
  }

  lemma OnlyNow(w: seq<Io>, io: Io, p: nat)
    requires !Broken(w, io.conn) && p != io.conn
    ensures Before(w + [io], p, io.conn)
  {
    assert forall x | 0 <= x < |w| :: w[x] in w;
  }

  /** What breaks in a round is handed out, so it does not count yet. */
  lemma PollLives(endpoints: seq<TEndpoint>, dead: set<TEndpoint>, s: seq<Socket>, target: seq<TEndpoint>, wire: seq<Io>,
                  asked: seq<seq<Byte>>, events: seq<Activity>)
    requires LivesKnown(endpoints, dead, target, wire, []) && Listed(s, wire, asked)
    ensures LivesKnown(endpoints, dead, target, wire + RoundLog(s, events), Removed(Updated(s, events)))
  {
    hide Failed;
    forall k | 0 <= k < |endpoints|
      ensures Failed(endpoints[k], target, wire + RoundLog(s, events), Removed(Updated(s, events))) <==>
        Failed(endpoints[k], target, wire, [])
    {
      FailedPolled(endpoints[k], s, target, wire, asked, events);
    }
  }

  lemma FailedPolled(e: TEndpoint, s: seq<Socket>, target: seq<TEndpoint>, wire: seq<Io>, asked: seq<seq<Byte>>,
                     events: seq<Activity>)
    requires Listed(s, wire, asked)
    ensures Failed(e, target, wire + RoundLog(s, events), Removed(Updated(s, events))) <==> Failed(e, target, wire, [])
  {
    hide Recorded, Removed, Updated, RoundLog;
    var u, log := Updated(s, events), RoundLog(s, events);
    forall c | 0 <= c < |target|
      ensures Broken(wire + log, c) && !AwaitsRetry(Removed(u), c) <==> Broken(wire, c) && !AwaitsRetry([], c)
    {
      EndedConcat(wire, log, c);
      if Broken(wire, c) {
        OldBreakSettled(s, wire, asked, events, c);
      } else if Broken(log, c) {
        BreakAwaits(s, events, c);
      }
    }
  }

  lemma OldBreakSettled(s: seq<Socket>, wire: seq<Io>, asked: seq<seq<Byte>>, events: seq<Activity>, c: nat)
    requires Listed(s, wire, asked) && Broken(wire, c)
    ensures !AwaitsRetry(Removed(Updated(s, events)), c)
  {
    var r := Removed(Updated(s, events));
    forall k | 0 <= k < |r| ensures r[k].conn != c {
      assert r[k] in r;
      PartFrom(s, events, r[k]);
      var y :| 0 <= y < |s| && Same(s[y], r[k]);
      assert Recorded(s[y], wire, asked);
    }
  }

  lemma BreakAwaits(s: seq<Socket>, events: seq<Activity>, c: nat)
    requires Broken(RoundLog(s, events), c)
    ensures AwaitsRetry(Removed(Updated(s, events)), c)
  {
    var u, log := Updated(s, events), RoundLog(s, events);
    var io :| io in log && io.conn == c && io.broken;
    var k :| 0 <= k < |log| && log[k] == io;
    BreakFails(s[k], ActivityOf(events, k));
    assert u[k] in u;
    SplitAll(u);
    var r := Removed(u);
    var x :| 0 <= x < |r| && r[x] == u[k];
  }

  lemma BreakFails(s: Socket, a: Activity)
    requires IoOf(s, a).broken
    ensures After(s, a).state == ERROR && After(s, a).conn == s.conn == IoOf(s, a).conn
  {
  }

  /** Settling the first socket, a failed one, makes its endpoint, and no other, one that failed. */
  lemma FailsOne(reqs: seq<Request>, fdIdxs: map<int, nat>, rest: seq<Socket>, sockets: seq<Socket>, owner: seq<nat>,
                 target: seq<TEndpoint>, wire: seq<Io>, asked: seq<seq<Byte>>)
    requires rest != [] && Linked(reqs, fdIdxs, rest + sockets, owner) && LinkedOne(reqs, fdIdxs, rest[0], owner)
    requires Tried(reqs, rest + sockets, owner, target, wire)
    requires rest[0].state == ERROR && Recorded(rest[0], wire, asked)
    ensures forall e :: Failed(e, target, wire, rest[1..]) <==>
      Failed(e, target, wire, rest) || e == reqs[fdIdxs[rest[0].fd]].endpoint
  {
    var c0 := rest[0].conn;
    assert (rest + sockets)[0] == rest[0];
    assert AimedOne(reqs, (rest + sockets)[0].conn, owner, target);
    assert Distinct(rest + sockets);
    RetryLater(rest, sockets);
    assert Broken(wire, c0) && target[c0] == reqs[fdIdxs[rest[0].fd]].endpoint;
    forall e ensures Failed(e, target, wire, rest[1..]) <==> Failed(e, target, wire, rest) || e == target[c0] {
      if Failed(e, target, wire, rest[1..]) && e != target[c0] {
        var c :| 0 <= c < |target| && target[c] == e && Broken(wire, c) && !AwaitsRetry(rest[1..], c);
        assert !AwaitsRetry(rest, c);
      }
      if Failed(e, target, wire, rest) {
        var c :| 0 <= c < |target| && target[c] == e && Broken(wire, c) && !AwaitsRetry(rest, c);
        assert !AwaitsRetry(rest[1..], c);
      }
    }
  }

  /** The first failed socket waits no longer, and every other as before. */
  lemma RetryLater(rest: seq<Socket>, sockets: seq<Socket>)
    requires rest != [] && Distinct(rest + sockets) && rest[0].state == ERROR
    ensures forall c: nat :: AwaitsRetry(rest[1..], c) <==> AwaitsRetry(rest, c) && c != rest[0].conn
  {
    forall c: nat ensures AwaitsRetry(rest[1..], c) <==> AwaitsRetry(rest, c) && c != rest[0].conn {
      if AwaitsRetry(rest[1..], c) {
        var k :| 0 <= k < |rest| - 1 && rest[1..][k].conn == c && rest[1..][k].state == ERROR;
        assert rest[k + 1] == rest[1..][k];
        assert (rest + sockets)[k + 1] == rest[k + 1] && (rest + sockets)[0] == rest[0];
      }
      if AwaitsRetry(rest, c) && c != rest[0].conn {
        var k :| 0 <= k < |rest| && rest[k].conn == c && rest[k].state == ERROR;
        assert rest[1..][k - 1] == rest[k];
      }
    }
  }

  lemma TurnLater(rest: seq<Socket>, wire: seq<Io>)
    requires rest != [] && InTurn(rest, wire)
    ensures InTurn(rest[1..], wire)
  {
    var later := rest[1..];
    forall k, p: nat | 0 <= k < |later| && (forall m | k <= m < |later| :: later[m].conn != p)
      ensures Before(wire, p, later[k].conn)
    {
      forall m | k + 1 <= m < |rest| ensures rest[m].conn != p {
        assert later[m - 1] == rest[m];
      }
      assert later[k] == rest[k + 1];
    }
  }

  lemma AimedLater(reqs: seq<Request>, rest: seq<Socket>, sockets: seq<Socket>, owner: seq<nat>,
                   target: seq<TEndpoint>, wire: seq<Io>, r: Request)
    requires rest != [] && Distinct(rest + sockets) && Tried(reqs, rest + sockets, owner, target, wire)
    requires rest[0].conn < |owner| && owner[rest[0].conn] < |reqs|
    ensures var rs := reqs[owner[rest[0].conn] := r];
      forall k | 0 <= k < |rest[1..] + sockets| :: AimedOne(rs, (rest[1..] + sockets)[k].conn, owner, target)
  {
    var live, later := rest + sockets, rest[1..] + sockets;
    assert live[0] == rest[0];
    forall k | 0 <= k < |later|
      ensures AimedOne(reqs[owner[rest[0].conn] := r], later[k].conn, owner, target)
    {
      assert later[k] == live[k + 1];
      assert AimedOne(reqs, live[k + 1].conn, owner, target) && AimedOne(reqs, live[0].conn, owner, target);
      assert live[k + 1].conn != live[0].conn;
    }
  }

  lemma FinishTried(reqs: seq<Request>, fdIdxs: map<int, nat>, rest: seq<Socket>, sockets: seq<Socket>, owner: seq<nat>,
                    target: seq<TEndpoint>, wire: seq<Io>, r: Request)
    requires rest != [] && Linked(reqs, fdIdxs, rest + sockets, owner) && LinkedOne(reqs, fdIdxs, rest[0], owner)
    requires Tried(reqs, rest + sockets, owner, target, wire) && InTurn(rest, wire)
    requires rest[0].state == CLOSED && r.state == FINISHED
    ensures Tried(reqs[fdIdxs[rest[0].fd] := r], rest[1..] + sockets, owner, target, wire) && InTurn(rest[1..], wire)
    ensures forall e :: Failed(e, target, wire, rest[1..]) <==> Failed(e, target, wire, rest)
  {
    AimedLater(reqs, rest, sockets, owner, target, wire, r);
    TurnLater(rest, wire);
    ClosedSettles(rest);
    var rs := reqs[fdIdxs[rest[0].fd] := r];
    forall i, p, q | 0 <= i < |rs| && rs[i].state == FD_NOT_ASSIGNED && 0 <= p < |owner| && owner[p] == i
        && 0 <= q < |target| && target[q] == rs[i].endpoint
      ensures Before(wire, p, q)
    {
      assert reqs[i] == rs[i];
    }
  }

  lemma ClosedSettles(rest: seq<Socket>)
    requires rest != [] && rest[0].state == CLOSED
    ensures forall c: nat :: AwaitsRetry(rest[1..], c) <==> AwaitsRetry(rest, c)
  {
    forall c: nat ensures AwaitsRetry(rest[1..], c) <==> AwaitsRetry(rest, c) {
      if AwaitsRetry(rest, c) {
        var k :| 0 <= k < |rest| && rest[k].conn == c && rest[k].state == ERROR;
        assert rest[1..][k - 1] == rest[k];
      }
    }
  }

  /** The new endpoint lives, so each connection to it that broke is still to be settled, and broke later. */
  lemma RetryTried(reqs: seq<Request>, fdIdxs: map<int, nat>, rest: seq<Socket>, sockets: seq<Socket>, owner: seq<nat>,
                   target: seq<TEndpoint>, wire: seq<Io>, r: Request)
    requires rest != [] && Linked(reqs, fdIdxs, rest + sockets, owner) && LinkedOne(reqs, fdIdxs, rest[0], owner)
    requires Tried(reqs, rest + sockets, owner, target, wire) && InTurn(rest, wire)
    requires rest[0].state == ERROR && r.state == FD_NOT_ASSIGNED && !Failed(r.endpoint, target, wire, rest[1..])
    ensures Tried(reqs[fdIdxs[rest[0].fd] := r], rest[1..] + sockets, owner, target, wire) && InTurn(rest[1..], wire)
  {
    AimedLater(reqs, rest, sockets, owner, target, wire, r);
    TurnLater(rest, wire);
    var i0 := fdIdxs[rest[0].fd];
    var rs := reqs[i0 := r];
    forall i, p, q | 0 <= i < |rs| && rs[i].state == FD_NOT_ASSIGNED && 0 <= p < |owner| && owner[p] == i
        && 0 <= q < |target| && target[q] == rs[i].endpoint
      ensures Before(wire, p, q)
    {
      if i != i0 {
        assert reqs[i] == rs[i];
      } else if Broken(wire, q) {
        assert AwaitsRetry(rest[1..], q);
        BreaksInTurn(reqs, rest, sockets, owner, target, wire, p, q);
      } else {
        UnbrokenLast(wire, p, q);
      }
    }
  }

  lemma UnbrokenLast(wire: seq<Io>, p: nat, q: nat)
    requires !Broken(wire, q)
    ensures Before(wire, p, q)
  {
    assert forall y | 0 <= y < |wire| :: wire[y] in wire;
  }

  lemma BreaksInTurn(reqs: seq<Request>, rest: seq<Socket>, sockets: seq<Socket>, owner: seq<nat>,
                     target: seq<TEndpoint>, wire: seq<Io>, p: nat, q: nat)
    requires rest != [] && Distinct(rest + sockets) && Tried(reqs, rest + sockets, owner, target, wire)
    requires InTurn(rest, wire) && AwaitsRetry(rest[1..], q) && p < |owner|
    requires rest[0].conn < |owner| && owner[p] == owner[rest[0].conn]
    ensures Before(wire, p, q)
  {
    var m :| 0 <= m < |rest| - 1 && rest[1..][m].conn == q && rest[1..][m].state == ERROR;
    var live := rest + sockets;
    forall x | m + 1 <= x < |rest| ensures rest[x].conn != p {
      assert live[x] == rest[x] && live[0] == rest[0];
      assert AimedOne(reqs, live[x].conn, owner, target) && AimedOne(reqs, live[0].conn, owner, target);
      assert live[x].conn != live[0].conn;
    }
    assert rest[m + 1].conn == q;
  }
}
