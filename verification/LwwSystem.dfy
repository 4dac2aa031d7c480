/** All replicas of the last-writer-wins map with the broadcasts between them, in any delivery order. A broadcast
    is retried until it is acknowledged, so it may be applied more than once; a request may repeat a key; and a
    replica that meets an equal timestamp exits for good. Replicas are not restarted. */
module LwwSystem {
  import opened Prelude
  import opened LwwReplica

  /** `delivered` is the history of operations applied. */
  datatype Replica = Replica(storage: Storage, time: nat, delivered: set<Op>, dead: bool)

  /** One broadcast of one operation to one replica: the `pos`-th of the request with number `batch`. */
  datatype Parcel = Parcel(batch: nat, pos: nat, dest: nat, op: Op)

  /** `repeated` and `redelivered` are history: a request repeated a key; a broadcast stayed pending when applied. */
  datatype System = System(
    replicas: seq<Replica>, pending: set<Parcel>, issued: set<Op>, batches: nat, repeated: bool, redelivered: bool)

  datatype Event =
    | Patch(i: nat, entries: seq<(string, string)>)
    | Remove(i: nat, keys: seq<string>)
    | Deliver(p: Parcel, again: bool)

  function Init(n: nat): System {
    System(seq(n, _ => Replica(map[], 0, {}, false)), {}, {}, 0, false, false)
  }

  ghost predicate Distinct(ops: seq<Op>) {
    forall a, b | 0 <= a < b < |ops| :: ops[a].key != ops[b].key
  }

  function Ops(e: Event, ts: Timestamp): seq<Op>
    requires !e.Deliver?
  {
    if e.Patch? then Writes(e.entries, ts) else Deletes(e.keys, ts)
  }

  function OpsOf(s: System, e: Event): seq<Op>
    requires !e.Deliver? && e.i < |s.replicas|
  {
    Ops(e, Timestamp(s.replicas[e.i].time + 1, e.i))
  }

  ghost function Parcels(ops: seq<Op>, n: nat, batch: nat): set<Parcel> {
    set x: nat, d: nat | x < |ops| && d < n :: Parcel(batch, x, d, ops[x])
  }

  ghost predicate Enabled(s: System, e: Event) {
    if e.Deliver? then e.p in s.pending && e.p.dest < |s.replicas| && !s.replicas[e.p.dest].dead
    else e.i < |s.replicas| && !s.replicas[e.i].dead
  }

  ghost function Apply(s: System, e: Event): System
    requires Enabled(s, e)
  {
    if e.Deliver? then
      var r := s.replicas[e.p.dest];
      match Merge(r.storage, e.p.op)
      case None => s.(replicas := s.replicas[e.p.dest := r.(dead := true)])
      case Some(storage) =>
        s.(replicas := s.replicas[e.p.dest := r.(storage := storage, delivered := r.delivered + {e.p.op})],
           pending := if e.again then s.pending else s.pending - {e.p},
           redelivered := s.redelivered || e.again)
    else
      var r := s.replicas[e.i];
      var ops := OpsOf(s, e);
      s.(replicas := s.replicas[e.i := r.(time := r.time + 1)],
         pending := s.pending + Parcels(ops, |s.replicas|, s.batches), batches := s.batches + 1,
         issued := s.issued + (set op | op in ops), repeated := s.repeated || !Distinct(ops))
  }

  ghost function Run(s: System, events: seq<Event>): Option<System>
    decreases |events|
  {
    if events == [] then Some(s)
    else if Enabled(s, events[0]) then Run(Apply(s, events[0]), events[1..])
    else None
  }

  ghost predicate Reachable(s: System, n: nat) {
    exists events :: Run(Init(n), events) == Some(s)
  }

  // ----- every replica that lives

  /** For every key, the store holds the operation with the greatest timestamp among those applied. */
  ghost predicate Latest(storage: Storage, ops: set<Op>) {
    && (forall op | op in ops :: op.key in storage)
    && (forall k | k in storage ::
          && Op(k, storage[k]) in ops
          && forall op | op in ops && op.key == k && op.val != storage[k] :: Compare(op.val.ts, storage[k].ts) < 0)
  }

  /** An issued operation was applied by replica `d` or is still on its way to it. */
  ghost predicate Accounted(s: System, d: nat, op: Op)
    requires d < |s.replicas|
  {
    op in s.replicas[d].delivered || exists p | p in s.pending :: p.dest == d && p.op == op
  }

  ghost predicate ReplicaOk(s: System, d: nat)
    requires d < |s.replicas|
  {
    && Latest(s.replicas[d].storage, s.replicas[d].delivered)
    && s.replicas[d].delivered <= s.issued
    && forall op | op in s.issued :: Accounted(s, d, op)
  }

  ghost predicate Inv(s: System) {
    && (forall d | 0 <= d < |s.replicas| :: ReplicaOk(s, d))
    && (forall p | p in s.pending :: p.op in s.issued)
  }

  lemma MergeLatest(storage: Storage, ops: set<Op>, op: Op)
    requires Latest(storage, ops) && Merge(storage, op).Some?
    ensures Latest(Merge(storage, op).value, ops + {op})
  {
    if op.key in storage {
      assert Op(op.key, storage[op.key]) in ops;
      CompareOrders(storage[op.key].ts, op.val.ts, op.val.ts);
      forall o | o in ops && o.key == op.key {
        CompareOrders(o.val.ts, storage[op.key].ts, op.val.ts);
      }
    }
  }

  lemma IssueKeeps(s: System, e: Event)
    requires Inv(s) && Enabled(s, e) && !e.Deliver?
    ensures Inv(Apply(s, e))
  {
    var t := Apply(s, e);
    var ops := OpsOf(s, e);
    forall d | 0 <= d < |t.replicas| ensures ReplicaOk(t, d) {
      assert ReplicaOk(s, d);
      forall op | op in t.issued ensures Accounted(t, d, op) {
        if op in s.issued {
          assert Accounted(s, d, op);
        } else {
          var x :| 0 <= x < |ops| && ops[x] == op;
          assert Parcel(s.batches, x, d, ops[x]) in t.pending;
        }
      }
    }
  }

  lemma DeliverKeeps(s: System, e: Event)
    requires Inv(s) && Enabled(s, e) && e.Deliver?
    ensures Inv(Apply(s, e))
  {
    var t := Apply(s, e);
    var d := e.p.dest;
    assert ReplicaOk(s, d);
    if Merge(s.replicas[d].storage, e.p.op).Some? {
      MergeLatest(s.replicas[d].storage, s.replicas[d].delivered, e.p.op);
    }
    forall x | 0 <= x < |t.replicas| ensures ReplicaOk(t, x) {
      assert ReplicaOk(s, x);
      forall op | op in t.issued ensures Accounted(t, x, op) {
        assert Accounted(s, x, op);
      }
    }
  }

  lemma {:induction false} RunKeeps(s: System, events: seq<Event>)
    requires Inv(s) && Run(s, events).Some?
    ensures Inv(Run(s, events).value)
    decreases |events|
  {
    if events != [] {
      if events[0].Deliver? {
        DeliverKeeps(s, events[0]);
      } else {
        IssueKeeps(s, events[0]);
      }
      RunKeeps(Apply(s, events[0]), events[1..]);
    }
  }

  lemma Reached(s: System, n: nat)
    requires Reachable(s, n)
    ensures Inv(s)
  {
    var events :| Run(Init(n), events) == Some(s);
    RunKeeps(Init(n), events);
  }

  lemma LatestUnique(a: Storage, b: Storage, ops: set<Op>)
    requires Latest(a, ops) && Latest(b, ops)
    ensures a == b
  {
    forall k | k in a ensures k in b && a[k] == b[k] {
      assert Op(k, a[k]) in ops;
      assert Op(k, b[k]) in ops;
      CompareOrders(a[k].ts, b[k].ts, a[k].ts);
    }
    forall k | k in b ensures k in a {
      assert Op(k, b[k]) in ops;
    }
  }

  /** Nothing issued is still on its way to replica `d`. */
  ghost predicate Quiet(s: System, d: nat) {
    d < |s.replicas| && !s.replicas[d].dead && forall p | p in s.pending :: p.dest != d
  }

  /** Convergence: two living replicas with nothing on its way to them hold the same map, however often and in
      whatever order broadcasts were applied, and whatever the requests. */
  lemma Convergence(s: System, n: nat, a: nat, b: nat)
    requires Reachable(s, n) && Quiet(s, a) && Quiet(s, b)
    ensures s.replicas[a].storage == s.replicas[b].storage
  {
    Reached(s, n);
    assert ReplicaOk(s, a) && ReplicaOk(s, b);
    forall op | op in s.issued ensures op in s.replicas[a].delivered && op in s.replicas[b].delivered {
      assert Accounted(s, a, op) && Accounted(s, b, op);
    }
    assert s.replicas[a].delivered == s.issued == s.replicas[b].delivered;
    LatestUnique(s.replicas[a].storage, s.replicas[b].storage, s.issued);
  }

  /** At any moment a replica stores, for each key, exactly the applied operation with the greatest
      timestamp, deletions included; in particular two replicas that applied the same operations agree. */
  lemma StoresGreatest(s: System, n: nat, d: nat, op: Op)
    requires Reachable(s, n) && d < |s.replicas|
    ensures op.key in s.replicas[d].storage && s.replicas[d].storage[op.key] == op.val <==>
      && op in s.replicas[d].delivered
      && forall o | o in s.replicas[d].delivered && o.key == op.key && o != op :: Compare(o.val.ts, op.val.ts) < 0
  {
    Reached(s, n);
    assert ReplicaOk(s, d);
    var r := s.replicas[d];
    if op in r.delivered && r.storage[op.key] != op.val {
      var top := Op(op.key, r.storage[op.key]);
      assert top in r.delivered;
      CompareOrders(top.val.ts, op.val.ts, op.val.ts);
    }
  }

  /** A node's later write beats its earlier one at every replica that applied it, in whatever order. */
  lemma LaterWriteWins(s: System, n: nat, d: nat, early: Op, late: Op)
    requires Reachable(s, n) && d < |s.replicas| && late in s.replicas[d].delivered && early.key == late.key
    requires early.val.ts.id == late.val.ts.id && early.val.ts.time < late.val.ts.time
    ensures late.key in s.replicas[d].storage && s.replicas[d].storage[late.key] != early.val
    ensures Compare(s.replicas[d].storage[late.key].ts, late.val.ts) >= 0
  {
    Reached(s, n);
    assert ReplicaOk(s, d);
    CompareOrders(early.val.ts, late.val.ts, early.val.ts);
    CompareOrders(s.replicas[d].storage[late.key].ts, late.val.ts, early.val.ts);
  }

  /** Delivery is fatal exactly when an operation with the very timestamp was applied and nothing newer. */
  lemma FatalIff(s: System, n: nat, d: nat, op: Op)
    requires Reachable(s, n) && d < |s.replicas|
    ensures Merge(s.replicas[d].storage, op).None? <==>
      && (exists o | o in s.replicas[d].delivered :: o.key == op.key && o.val.ts == op.val.ts)
      && (forall o | o in s.replicas[d].delivered && o.key == op.key :: Compare(o.val.ts, op.val.ts) <= 0)
  {
    Reached(s, n);
    assert ReplicaOk(s, d);
    var storage := s.replicas[d].storage;
    if op.key in storage {
      var top := Op(op.key, storage[op.key]);
      assert top in s.replicas[d].delivered;
      CompareOrders(top.val.ts, op.val.ts, op.val.ts);
    }
  }

  // ----- no replica dies without a repeated key or a second delivery

  ghost predicate Unique(ops: set<Op>) {
    forall a, b | a in ops && b in ops && a.key == b.key && a.val.ts == b.val.ts :: a == b
  }

  ghost predicate Stamped(s: System, op: Op) {
    0 <= op.val.ts.id < |s.replicas| && op.val.ts.time <= s.replicas[op.val.ts.id].time
  }

  /** Each operation is on its way to a replica at most once, and not any more when it was applied. */
  ghost predicate Once(s: System) {
    && (forall p | p in s.pending && p.dest < |s.replicas| :: p.op !in s.replicas[p.dest].delivered)
    && (forall p, q | p in s.pending && q in s.pending && p.dest == q.dest && p.op == q.op :: p == q)
  }

  ghost predicate Clean(s: System) {
    !s.repeated && !s.redelivered ==>
      && (forall d | 0 <= d < |s.replicas| :: !s.replicas[d].dead)
      && Unique(s.issued) && Once(s)
  }

  ghost predicate CleanInv(s: System) {
    && Inv(s) && Clean(s)
    && (forall op | op in s.issued :: Stamped(s, op))
    && (forall p | p in s.pending :: p.batch < s.batches)
  }

  lemma OpsAre(e: Event, ts: Timestamp)
    requires !e.Deliver?
    ensures forall op | op in Ops(e, ts) :: op.val.ts == ts
  {
    if e.Patch? {
      WritesAsked(e.entries, ts);
    } else {
      DeletesAsked(e.keys, ts);
    }
  }

  /** A newly issued operation has a stamp that none has. */
  lemma FreshStamps(s: System, e: Event)
    requires CleanInv(s) && Enabled(s, e) && !e.Deliver?
    ensures forall op, o | op in OpsOf(s, e) && o in s.issued :: o.val.ts != op.val.ts
    ensures forall op | op in OpsOf(s, e) :: op.val.ts == Timestamp(s.replicas[e.i].time + 1, e.i)
  {
    OpsAre(e, Timestamp(s.replicas[e.i].time + 1, e.i));
    forall op, o | op in OpsOf(s, e) && o in s.issued ensures o.val.ts != op.val.ts {
      assert Stamped(s, o);
    }
  }

  lemma IssueClean(s: System, e: Event)
    requires CleanInv(s) && Enabled(s, e) && !e.Deliver?
    ensures CleanInv(Apply(s, e))
  {
    var t := Apply(s, e);
    IssueKeeps(s, e);
    FreshStamps(s, e);
    forall op | op in t.issued ensures Stamped(t, op) {
      if op in s.issued {
        assert Stamped(s, op);
      }
    }
    if !t.repeated && !t.redelivered {
      IssueUnique(s, e);
      IssueOnce(s, e);
    }
  }

  lemma IssueUnique(s: System, e: Event)
    requires CleanInv(s) && Enabled(s, e) && !e.Deliver? && Unique(s.issued) && Distinct(OpsOf(s, e))
    ensures Unique(Apply(s, e).issued)
  {
    var t, ops := Apply(s, e), OpsOf(s, e);
    FreshStamps(s, e);
    forall a, b | a in t.issued && b in t.issued && a.key == b.key && a.val.ts == b.val.ts ensures a == b {
      if a !in s.issued && b !in s.issued {
        var x :| 0 <= x < |ops| && ops[x] == a;
        var y :| 0 <= y < |ops| && ops[y] == b;
      }
    }
  }

  lemma IssueOnce(s: System, e: Event)
    requires CleanInv(s) && Enabled(s, e) && !e.Deliver? && Once(s) && Distinct(OpsOf(s, e))
    ensures Once(Apply(s, e))
  {
    var t, ops := Apply(s, e), OpsOf(s, e);
    FreshStamps(s, e);
    forall p | p in t.pending && p.dest < |t.replicas| ensures p.op !in t.replicas[p.dest].delivered {
      assert ReplicaOk(s, p.dest);
    }
    forall p, q | p in t.pending && q in t.pending && p.dest == q.dest && p.op == q.op ensures p == q {
      if p !in s.pending && q !in s.pending {
        assert ops[p.pos] == ops[q.pos];
      }
    }
  }

  lemma DeliverClean(s: System, e: Event)
    requires CleanInv(s) && Enabled(s, e) && e.Deliver?
    ensures CleanInv(Apply(s, e))
  {
    var t := Apply(s, e);
    DeliverKeeps(s, e);
    forall op | op in t.issued ensures Stamped(t, op) {
      assert Stamped(s, op);
    }
    if !t.repeated && !t.redelivered {
      SafeDelivery(s, e.p);
    }
  }

  /** In a clean state no pending delivery is fatal. */
  lemma SafeDelivery(s: System, p: Parcel)
    requires CleanInv(s) && !s.repeated && !s.redelivered && p in s.pending && p.dest < |s.replicas|
    ensures Merge(s.replicas[p.dest].storage, p.op).Some?
  {
    var r := s.replicas[p.dest];
    assert ReplicaOk(s, p.dest);
    if p.op.key in r.storage {
      assert Op(p.op.key, r.storage[p.op.key]) in r.delivered;
      CompareOrders(r.storage[p.op.key].ts, p.op.val.ts, p.op.val.ts);
    }
  }

  lemma {:induction false} RunClean(s: System, events: seq<Event>)
    requires CleanInv(s) && Run(s, events).Some?
    ensures CleanInv(Run(s, events).value)
    decreases |events|
  {
    if events != [] {
      if events[0].Deliver? {
        DeliverClean(s, events[0]);
      } else {
        IssueClean(s, events[0]);
      }
      RunClean(Apply(s, events[0]), events[1..]);
    }
  }

  /** Timestamp safety: while no request repeats a key and no broadcast is applied twice, no two operations on a
      key carry the same timestamp, no replica died, and no delivery would be fatal. */
  lemma TimestampSafety(s: System, n: nat)
    requires Reachable(s, n) && !s.repeated && !s.redelivered
    ensures Unique(s.issued) && forall d | 0 <= d < |s.replicas| :: !s.replicas[d].dead
    ensures forall p | p in s.pending && p.dest < |s.replicas| :: Merge(s.replicas[p.dest].storage, p.op).Some?
  {
    var events :| Run(Init(n), events) == Some(s);
    RunClean(Init(n), events);
    forall p | p in s.pending && p.dest < |s.replicas| ensures Merge(s.replicas[p.dest].storage, p.op).Some? {
      SafeDelivery(s, p);
    }
  }

  // ----- when a list of requests can be fatal

  function KeysOf(e: Event): seq<string>
    requires !e.Deliver?
  {
    if e.Remove? then e.keys else seq(|e.entries|, k requires 0 <= k < |e.entries| => e.entries[k].0)
  }

  ghost predicate RepeatsKey(e: Event) {
    !e.Deliver? && exists a, b :: 0 <= a < b < |KeysOf(e)| && KeysOf(e)[a] == KeysOf(e)[b]
  }

  lemma OpKeys(e: Event, ts: Timestamp)
    requires !e.Deliver?
    ensures |Ops(e, ts)| == |KeysOf(e)| && forall k | 0 <= k < |KeysOf(e)| :: Ops(e, ts)[k].key == KeysOf(e)[k]
    ensures Distinct(Ops(e, ts)) <==> !RepeatsKey(e)
  {
    if e.Patch? {
      WritesAsked(e.entries, ts);
    } else {
      DeletesAsked(e.keys, ts);
    }
  }

  /** The requests of a run, in order. */
  function Requests(events: seq<Event>): seq<Event> {
    if events == [] then []
    else (if events[0].Deliver? then [] else [events[0]]) + Requests(events[1..])
  }

  /** No broadcast stays pending when it is applied. */
  ghost predicate OnceEach(events: seq<Event>) {
    forall k | 0 <= k < |events| && events[k].Deliver? :: !events[k].again
  }

  ghost predicate SomeRepeat(requests: seq<Event>) {
    exists k :: 0 <= k < |requests| && RepeatsKey(requests[k])
  }

  ghost predicate SomeDead(s: System) {
    exists d :: 0 <= d < |s.replicas| && s.replicas[d].dead
  }

  lemma {:induction false} Flags(s: System, events: seq<Event>)
    requires Run(s, events).Some? && OnceEach(events)
    ensures var t := Run(s, events).value;
      && (t.repeated ==> s.repeated || SomeRepeat(Requests(events)))
      && (t.redelivered ==> s.redelivered)
    decreases |events|
  {
    if events != [] {
      var e := events[0];
      Flags(Apply(s, e), events[1..]);
      if !e.Deliver? {
        OpKeys(e, Timestamp(s.replicas[e.i].time + 1, e.i));
        assert Requests(events)[0] == e;
      }
      if SomeRepeat(Requests(events[1..])) {
        LaterRepeat(events);
      }
    }
  }

  lemma LaterRepeat(events: seq<Event>)
    requires events != [] && SomeRepeat(Requests(events[1..]))
    ensures SomeRepeat(Requests(events))
  {
    var k :| 0 <= k < |Requests(events[1..])| && RepeatsKey(Requests(events[1..])[k]);
    var x := k + |Requests(events)| - |Requests(events[1..])|;
    assert Requests(events)[x] == Requests(events[1..])[k];
  }

  ghost predicate AreRequests(requests: seq<Event>, n: nat) {
    forall k | 0 <= k < |requests| :: !requests[k].Deliver? && requests[k].i < n
  }

  ghost predicate Untouched(s: System) {
    forall d | 0 <= d < |s.replicas| :: s.replicas[d].storage == map[] && !s.replicas[d].dead
  }

  /** Requests need no deliveries; the broadcasts of the k-th are then all pending. */
  lemma {:induction false} AllIssued(s: System, requests: seq<Event>, k: nat) returns (batch: nat, ts: Timestamp)
    requires AreRequests(requests, |s.replicas|) && Untouched(s) && k < |requests|
    ensures Run(s, requests).Some? && Untouched(Run(s, requests).value)
    ensures |Run(s, requests).value.replicas| == |s.replicas|
    ensures Parcels(Ops(requests[k], ts), |s.replicas|, batch) <= Run(s, requests).value.pending
    decreases |requests|
  {
    var e := requests[0];
    var t := Apply(s, e);
    assert Untouched(t);
    if k == 0 {
      batch, ts := s.batches, Timestamp(s.replicas[e.i].time + 1, e.i);
      OnlyIssued(t, requests[1..]);
    } else {
      batch, ts := AllIssued(t, requests[1..], k - 1);
    }
  }

  lemma {:induction false} OnlyIssued(s: System, requests: seq<Event>)
    requires AreRequests(requests, |s.replicas|) && Untouched(s)
    ensures Run(s, requests).Some? && Untouched(Run(s, requests).value)
    ensures |Run(s, requests).value.replicas| == |s.replicas| && s.pending <= Run(s, requests).value.pending
    decreases |requests|
  {
    if requests != [] {
      assert Untouched(Apply(s, requests[0]));
      OnlyIssued(Apply(s, requests[0]), requests[1..]);
    }
  }

  lemma {:induction false} RunThen(s: System, a: seq<Event>, b: seq<Event>)
    requires Run(s, a).Some?
    ensures Run(s, a + b) == Run(Run(s, a).value, b)
    decreases |a|
  {
    if a == [] {
      assert a + b == b;
    } else {
      assert (a + b)[0] == a[0] && (a + b)[1..] == a[1..] + b;
      RunThen(Apply(s, a[0]), a[1..], b);
    }
  }

  lemma {:induction false} RequestsOf(requests: seq<Event>, p: Parcel, q: Parcel)
    requires forall k | 0 <= k < |requests| :: !requests[k].Deliver?
    ensures Requests(requests + [Deliver(p, false), Deliver(q, false)]) == requests
    ensures OnceEach(requests + [Deliver(p, false), Deliver(q, false)])
    decreases |requests|
  {
    var all := requests + [Deliver(p, false), Deliver(q, false)];
    if requests == [] {
      assert all[1..] == [Deliver(q, false)] && all[1..][1..] == [];
      assert Requests(all[1..][1..]) == [];
      assert Requests(all[1..]) == [];
    } else {
      assert all[1..] == requests[1..] + [Deliver(p, false), Deliver(q, false)];
      RequestsOf(requests[1..], p, q);
    }
  }

  /** Two broadcasts of one request for one key, delivered first, are fatal. */
  lemma TwoKill(s: System, p: Parcel, q: Parcel)
    requires Untouched(s) && p in s.pending && q in s.pending && p != q && p.dest == q.dest < |s.replicas|
    requires p.op.key == q.op.key && p.op.val.ts == q.op.val.ts
    ensures Run(s, [Deliver(p, false), Deliver(q, false)]).Some?
    ensures SomeDead(Run(s, [Deliver(p, false), Deliver(q, false)]).value)
  {
    var d := p.dest;
    var t := Apply(s, Deliver(p, false));
    CompareOrders(p.op.val.ts, q.op.val.ts, p.op.val.ts);
    assert t.replicas[d].storage[q.op.key] == p.op.val;
    var u := Apply(t, Deliver(q, false));
    assert u.replicas[d].dead;
    assert [Deliver(p, false), Deliver(q, false)][1..] == [Deliver(q, false)] && [Deliver(q, false)][1..] == [];
    assert Run(t, [Deliver(q, false)]) == Run(u, []) == Some(u);
  }

  lemma RepeatKills(n: nat, requests: seq<Event>) returns (events: seq<Event>)
    requires n >= 1 && AreRequests(requests, n) && SomeRepeat(requests)
    ensures Requests(events) == requests && OnceEach(events)
    ensures Run(Init(n), events).Some? && SomeDead(Run(Init(n), events).value)
  {
    hide Run, Untouched, OnceEach, Requests, Writes, Deletes;
    var k :| 0 <= k < |requests| && RepeatsKey(requests[k]);
    var a, b :| 0 <= a < b < |KeysOf(requests[k])| && KeysOf(requests[k])[a] == KeysOf(requests[k])[b];
    var batch, ts := AllIssued(Init(n), requests, k);
    OpKeys(requests[k], ts);
    OpsAre(requests[k], ts);
    var ops := Ops(requests[k], ts);
    var p, q := Parcel(batch, a, 0, ops[a]), Parcel(batch, b, 0, ops[b]);
    assert p in Parcels(ops, n, batch) && q in Parcels(ops, n, batch);
    TwoKill(Run(Init(n), requests).value, p, q);
    events := requests + [Deliver(p, false), Deliver(q, false)];
    RunThen(Init(n), requests, [Deliver(p, false), Deliver(q, false)]);
    RequestsOf(requests, p, q);
  }

  /** A list of requests has an order of deliveries, each broadcast applied once, in which a replica dies, if and
      only if one of the requests repeats a key. */
  lemma DeathIffRepeat(n: nat, requests: seq<Event>)
    requires n >= 1 && AreRequests(requests, n)
    ensures SomeRepeat(requests) <==>
      exists events :: Requests(events) == requests && OnceEach(events)
        && Run(Init(n), events).Some? && SomeDead(Run(Init(n), events).value)
  {
    if SomeRepeat(requests) {
      var events := RepeatKills(n, requests);
    }
    forall events | Requests(events) == requests && OnceEach(events) && Run(Init(n), events).Some?
        && SomeDead(Run(Init(n), events).value)
      ensures SomeRepeat(requests)
    {
      Flags(Init(n), events);
      DeadRepeats(n, events);
    }
  }

  lemma DeadRepeats(n: nat, events: seq<Event>)
    requires Run(Init(n), events).Some? && SomeDead(Run(Init(n), events).value)
    ensures Run(Init(n), events).value.repeated || Run(Init(n), events).value.redelivered
  {
    RunClean(Init(n), events);
  }

  // ----- from the requests to the stores

  /** How many requests node `i` got. */
  function TurnsOf(events: seq<Event>, i: nat): nat {
    if events == [] then 0
    else
      var last := events[|events| - 1];
      TurnsOf(events[..|events| - 1], i) + if !last.Deliver? && last.i == i then 1 else 0
  }

  /** The k-th event's stamp, if it is a request: which request of its node it is, and the node. */
  function StampOf(events: seq<Event>, k: nat): Timestamp
    requires k < |events| && !events[k].Deliver?
  {
    Timestamp(TurnsOf(events[..k + 1], events[k].i), events[k].i)
  }

  /** What a request wants stored for its x-th key. */
  function Wanted(e: Event, x: nat, ts: Timestamp): TVal
    requires !e.Deliver? && x < |KeysOf(e)|
  {
    if e.Patch? then TVal(e.entries[x].1, ts, false) else TVal("", ts, true)
  }

  /** The x-th key of the k-th event, a request, is `key`. */
  ghost predicate Names(events: seq<Event>, k: nat, x: nat, key: string) {
    k < |events| && !events[k].Deliver? && x < |KeysOf(events[k])| && KeysOf(events[k])[x] == key
  }

  /** Of all requests that name the key, the k-th event has the greatest stamp. */
  ghost predicate Newest(events: seq<Event>, k: nat, key: string) {
    && k < |events| && !events[k].Deliver?
    && forall j: nat, y: nat | Names(events, j, y, key) && j != k :: LaterThan(StampOf(events, k), StampOf(events, j))
  }

  ghost predicate Asks(events: seq<Event>, k: nat, x: nat, op: Op) {
    Names(events, k, x, op.key) && op.val == Wanted(events[k], x, StampOf(events, k))
  }

  lemma {:induction false} RunFront(s: System, events: seq<Event>)
    requires events != [] && Run(s, events).Some?
    ensures var front, last := events[..|events| - 1], events[|events| - 1];
      && Run(s, front).Some? && Enabled(Run(s, front).value, last)
      && Run(s, events) == Some(Apply(Run(s, front).value, last))
    decreases |events|
  {
    hide Apply, Enabled;
    var n := |events| - 1;
    if n == 0 {
      assert events[1..] == [];
    } else {
      RunFront(Apply(s, events[0]), events[1..]);
      assert events[1..][..n - 1] == events[..n][1..];
    }
  }

  /** A request's operations are those it wants. */
  lemma OpsWanted(e: Event, ts: Timestamp)
    requires !e.Deliver?
    ensures |Ops(e, ts)| == |KeysOf(e)|
    ensures forall x | 0 <= x < |KeysOf(e)| :: Ops(e, ts)[x] == Op(KeysOf(e)[x], Wanted(e, x, ts))
  {
    if e.Patch? {
      WritesAsked(e.entries, ts);
    } else {
      DeletesAsked(e.keys, ts);
    }
  }

  lemma AsksFront(events: seq<Event>, k: nat, x: nat, op: Op)
    requires k < |events| - 1
    ensures Asks(events, k, x, op) <==> Asks(events[..|events| - 1], k, x, op)
  {
    assert events[..|events| - 1][..k + 1] == events[..k + 1];
  }

  ghost predicate SomeAsks(events: seq<Event>, op: Op) {
    exists k: nat, x: nat :: Asks(events, k, x, op)
  }

  /** What was issued is exactly what the requests want, each under its own stamp. */
  lemma {:induction false} IssuedIsAsked(n: nat, events: seq<Event>)
    requires Run(Init(n), events).Some?
    ensures var s := Run(Init(n), events).value;
      && |s.replicas| == n && (forall i | 0 <= i < n :: s.replicas[i].time == TurnsOf(events, i))
      && forall op :: op in s.issued <==> SomeAsks(events, op)
    decreases |events|
  {
    hide Run, Asks;
    if events == [] {
      NothingAsked(n);
    } else {
      var k := |events| - 1;
      RunFront(Init(n), events);
      IssuedIsAsked(n, events[..k]);
      var s := Run(Init(n), events[..k]).value;
      TimesStep(s, n, events);
      forall op: Op ensures op in Apply(s, events[k]).issued <==> SomeAsks(events, op) {
        AskedStep(s, n, events, op);
      }
    }
  }

  lemma NothingAsked(n: nat)
    ensures Run(Init(n), []) == Some(Init(n)) && forall op :: !SomeAsks([], op)
  {
  }

  lemma TimesStep(s: System, n: nat, events: seq<Event>)
    requires events != [] && |s.replicas| == n && Enabled(s, events[|events| - 1])
    requires forall i | 0 <= i < n :: s.replicas[i].time == TurnsOf(events[..|events| - 1], i)
    ensures var t := Apply(s, events[|events| - 1]);
      |t.replicas| == n && forall i | 0 <= i < n :: t.replicas[i].time == TurnsOf(events, i)
  {
  }

  lemma AskedStep(s: System, n: nat, events: seq<Event>, op: Op)
    requires events != [] && |s.replicas| == n && Enabled(s, events[|events| - 1])
    requires forall i | 0 <= i < n :: s.replicas[i].time == TurnsOf(events[..|events| - 1], i)
    requires op in s.issued <==> SomeAsks(events[..|events| - 1], op)
    ensures op in Apply(s, events[|events| - 1]).issued <==> SomeAsks(events, op)
  {
    hide Asks;
    var k := |events| - 1;
    var e, front := events[k], events[..k];
    if j: nat, x: nat :| Asks(front, j, x, op) {
      AsksInside(front, j, x, op);
      AsksFront(events, j, x, op);
    }
    if j: nat, x: nat :| Asks(events, j, x, op) {
      AsksInside(events, j, x, op);
      if j < k {
        AsksFront(events, j, x, op);
      }
    }
    if !e.Deliver? {
      LastAsks(s, n, events, k, op);
    } else {
      forall x: nat ensures !Asks(events, k, x, op) {
        AsksInside(events, k, x, op);
      }
    }
  }

  lemma AsksInside(events: seq<Event>, k: nat, x: nat, op: Op)
    ensures Asks(events, k, x, op) ==> k < |events| && !events[k].Deliver?
  {
  }

  lemma LastAsks(s: System, n: nat, events: seq<Event>, k: nat, op: Op)
    requires |events| == k + 1 && |s.replicas| == n && Enabled(s, events[k]) && !events[k].Deliver?
    requires forall i | 0 <= i < n :: s.replicas[i].time == TurnsOf(events[..k], i)
    ensures op in OpsOf(s, events[k]) <==> exists x: nat :: Asks(events, k, x, op)
  {
    var e := events[k];
    assert events[..k + 1] == events;
    var ts := Timestamp(s.replicas[e.i].time + 1, e.i);
    assert StampOf(events, k) == ts;
    OpsWanted(e, ts);
    if op in OpsOf(s, e) {
      var x: nat :| x < |Ops(e, ts)| && Ops(e, ts)[x] == op;
      assert Asks(events, k, x, op);
    }
    if x: nat :| Asks(events, k, x, op) {
      assert Ops(e, ts)[x] == op;
    }
  }

  lemma {:induction false} TurnsGrow(events: seq<Event>, j: nat, k: nat, i: nat)
    requires j < k < |events| && !events[k].Deliver? && events[k].i == i
    ensures TurnsOf(events[..j + 1], i) < TurnsOf(events[..k + 1], i)
    decreases k
  {
    var t := events[..k + 1];
    assert t[..k] == events[..k];
    TurnsUp(events, j + 1, k, i);
  }

  lemma {:induction false} TurnsUp(events: seq<Event>, j: nat, k: nat, i: nat)
    requires j <= k <= |events|
    ensures TurnsOf(events[..j], i) <= TurnsOf(events[..k], i)
    decreases k
  {
    if j < k {
      assert events[..k][..k - 1] == events[..k - 1];
      TurnsUp(events, j, k - 1, i);
    }
  }

  /** No two requests have one stamp. */
  lemma StampsApart(events: seq<Event>, j: nat, k: nat)
    requires j < |events| && k < |events| && j != k && !events[j].Deliver? && !events[k].Deliver?
    ensures StampOf(events, j) != StampOf(events, k)
  {
    if events[j].i == events[k].i {
      if j < k {
        TurnsGrow(events, j, k, events[k].i);
      } else {
        TurnsGrow(events, k, j, events[j].i);
      }
    }
  }

  lemma OrderIsLater(a: Timestamp, b: Timestamp)
    ensures Compare(a, b) < 0 <==> LaterThan(b, a)
  {
  }

  /** A living replica with nothing on its way to it has, for each key that some request names, what the request
      with the greatest stamp wants for it, and no other key. */
  lemma NewestRequestWins(n: nat, events: seq<Event>, d: nat, key: string)
    requires Run(Init(n), events).Some? && Quiet(Run(Init(n), events).value, d)
    ensures var storage := Run(Init(n), events).value.replicas[d].storage;
      && (key in storage <==> exists k: nat, x: nat :: Names(events, k, x, key))
      && (key in storage ==> exists k: nat, x: nat :: Names(events, k, x, key) && Newest(events, k, key))
      && forall k: nat, x: nat | Names(events, k, x, key) && Newest(events, k, key) ::
           key in storage && storage[key] == Wanted(events[k], x, StampOf(events, k))
  {
    hide Run, TurnsOf, Newest;
    var s := Run(Init(n), events).value;
    Reached(s, n);
    IssuedIsAsked(n, events);
    AllDelivered(s, d);
    var storage := s.replicas[d].storage;
    if key in storage {
      var op := Op(key, storage[key]);
      assert SomeAsks(events, op);
      var k: nat, x: nat :| Asks(events, k, x, op);
      assert Names(events, k, x, key);
      StoredIsNewest(s, events, d, k, x, key);
    }
    forall k: nat, x: nat | Names(events, k, x, key)
      ensures key in storage
      ensures Newest(events, k, key) ==> storage[key] == Wanted(events[k], x, StampOf(events, k))
    {
      var op := Op(key, Wanted(events[k], x, StampOf(events, k)));
      assert Asks(events, k, x, op);
      assert op in s.issued;
      if Newest(events, k, key) {
        NewestIsStored(s, events, d, k, x, key);
      }
    }
  }

  /** The facts of a run that the next two lemmas use. */
  ghost predicate Settled(s: System, events: seq<Event>, d: nat) {
    && d < |s.replicas| && Latest(s.replicas[d].storage, s.issued)
    && forall op :: op in s.issued <==> SomeAsks(events, op)
  }

  lemma AllDelivered(s: System, d: nat)
    requires Inv(s) && Quiet(s, d)
    ensures Latest(s.replicas[d].storage, s.issued)
  {
    assert ReplicaOk(s, d);
    forall op | op in s.issued ensures op in s.replicas[d].delivered {
      assert Accounted(s, d, op);
    }
    assert s.replicas[d].delivered == s.issued;
  }

  lemma StoredIsNewest(s: System, events: seq<Event>, d: nat, k: nat, x: nat, key: string)
    requires Settled(s, events, d) && key in s.replicas[d].storage
    requires Asks(events, k, x, Op(key, s.replicas[d].storage[key]))
    ensures Newest(events, k, key)
  {
    var top := s.replicas[d].storage[key];
    forall j: nat, y: nat | Names(events, j, y, key) && j != k
      ensures LaterThan(StampOf(events, k), StampOf(events, j))
    {
      var o := Op(key, Wanted(events[j], y, StampOf(events, j)));
      assert Asks(events, j, y, o);
      assert SomeAsks(events, o);
      StampsApart(events, j, k);
      OrderIsLater(o.val.ts, top.ts);
    }
  }

  lemma NewestIsStored(s: System, events: seq<Event>, d: nat, k: nat, x: nat, key: string)
    requires Settled(s, events, d) && Names(events, k, x, key) && Newest(events, k, key)
    ensures key in s.replicas[d].storage
    ensures s.replicas[d].storage[key] == Wanted(events[k], x, StampOf(events, k))
  {
    var op := Op(key, Wanted(events[k], x, StampOf(events, k)));
    assert Asks(events, k, x, op);
    assert SomeAsks(events, op);
    var top := s.replicas[d].storage[key];
    assert SomeAsks(events, Op(key, top));
    var j: nat, y: nat :| Asks(events, j, y, Op(key, top));
    assert Names(events, j, y, key);
    if top != op.val {
      OrderIsLater(op.val.ts, top.ts);
    }
  }
}
