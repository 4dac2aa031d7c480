/** One replica of the last-writer-wins map: timestamps, the merging store, and the request handlers. */
module LwwReplica {
  import opened Prelude

  datatype Timestamp = Timestamp(time: nat, id: int)

  function Compare(a: Timestamp, b: Timestamp): int {
    if a.time != b.time then
      if a.time < b.time then -1 else 1
    else if a.id < b.id then -1
    else if a.id == b.id then 0
    else 1
  }

  /** The order on timestamps is total and strict. */
  lemma CompareOrders(a: Timestamp, b: Timestamp, c: Timestamp)
    ensures Compare(a, b) == 0 <==> a == b
    ensures Compare(a, b) < 0 <==> Compare(b, a) > 0
    ensures Compare(a, b) < 0 && Compare(b, c) < 0 ==> Compare(a, c) < 0
    ensures Compare(a, b) < 0 <==> a.time < b.time || (a.time == b.time && a.id < b.id)
  {
  }

  /** `a` is the later of two timestamps. */
  predicate LaterThan(a: Timestamp, b: Timestamp) {
    a.time > b.time || (a.time == b.time && a.id > b.id)
  }

  /** A stored value; a deletion is stored too. */
  datatype TVal = TVal(val: string, ts: Timestamp, deleted: bool)

  type Storage = map<string, TVal>

  /** A write or a deletion of one key, as broadcast. */
  datatype Op = Op(key: string, val: TVal)

  /** What a delivered operation does to a store; None is the fatal exit on equal timestamps. */
  function Merge(s: Storage, op: Op): Option<Storage> {
    if op.key !in s then Some(s[op.key := op.val])
    else
      var cmp := Compare(s[op.key].ts, op.val.ts);
      if cmp == 0 then None
      else if cmp < 0 then Some(s[op.key := op.val])
      else Some(s)
  }

  /** An operation as it is stored: a deletion has no text. */
  function Plain(op: Op): Op {
    if op.val.deleted then op.(val := op.val.(val := "")) else op
  }

  class TDb {
    var storage: Storage

    constructor ()
      ensures storage == map[]
    {
      storage := map[];
    }

    /** `ok` is false when the process exits because of equal timestamps. */
    method Put(key: string, value: string, ts: Timestamp) returns (ok: bool)
      modifies this
      ensures ok <==> !(key in old(storage) && old(storage)[key].ts == ts)
      ensures storage == if ok then Merge(old(storage), Op(key, TVal(value, ts, false))).value else old(storage)
      ensures storage ==
        if key in old(storage) && !LaterThan(ts, old(storage)[key].ts) then old(storage)
        else old(storage)[key := TVal(value, ts, false)]
    {
      if key in storage {
        var cmp := Compare(storage[key].ts, ts);
        if cmp == 0 {
          return false;
        } else if cmp < 0 {
          storage := storage[key := TVal(value, ts, false)];
        }
      } else {
        storage := storage[key := TVal(value, ts, false)];
      }
      return true;
    }

    method Delete(key: string, ts: Timestamp) returns (ok: bool)
      modifies this
      ensures ok <==> !(key in old(storage) && old(storage)[key].ts == ts)
      ensures storage == if ok then Merge(old(storage), Op(key, TVal("", ts, true))).value else old(storage)
      ensures storage ==
        if key in old(storage) && !LaterThan(ts, old(storage)[key].ts) then old(storage)
        else old(storage)[key := TVal("", ts, true)]
    {
      if key in storage {
        var cmp := Compare(storage[key].ts, ts);
        if cmp == 0 {
          return false;
        } else if cmp < 0 {
          storage := storage[key := TVal("", ts, true)];
        }
      } else {
        storage := storage[key := TVal("", ts, true)];
      }
      return true;
    }

    method Get(key: string) returns (value: string, found: bool)
      ensures found <==> key in storage && !storage[key].deleted
      ensures value == if key in storage then storage[key].val else ""
    {
      if key in storage {
        return storage[key].val, !storage[key].deleted;
      }
      return "", false;
    }
  }

  datatype Message = Message(dest: nat, op: Op)

  function Writes(entries: seq<(string, string)>, ts: Timestamp): seq<Op> {
    if entries == [] then []
    else
      var k := |entries| - 1;
      Writes(entries[..k], ts) + [Op(entries[k].0, TVal(entries[k].1, ts, false))]
  }

  function Deletes(keys: seq<string>, ts: Timestamp): seq<Op> {
    if keys == [] then []
    else
      var k := |keys| - 1;
      Deletes(keys[..k], ts) + [Op(keys[k], TVal("", ts, true))]
  }

  /** The messages the handlers add: every operation to every replica, the issuer included. */
  ghost function Fanout(ops: seq<Op>, n: nat): set<Message> {
    set d: nat, op | d < n && op in ops :: Message(d, op)
  }

  /** A request's message: the k-th entry's own key and value, to one of the n replicas. */
  ghost predicate Sends(m: Message, entries: seq<(string, string)>, ts: Timestamp, n: nat) {
    m.dest < n && exists k :: 0 <= k < |entries| && m.op == Op(entries[k].0, TVal(entries[k].1, ts, false))
  }

  ghost predicate SendsDelete(m: Message, keys: seq<string>, ts: Timestamp, n: nat) {
    m.dest < n && exists k :: 0 <= k < |keys| && m.op == Op(keys[k], TVal("", ts, true))
  }

  lemma {:induction false} WritesAsked(entries: seq<(string, string)>, ts: Timestamp)
    ensures |Writes(entries, ts)| == |entries|
    ensures forall k | 0 <= k < |entries| :: Writes(entries, ts)[k] == Op(entries[k].0, TVal(entries[k].1, ts, false))
  {
    if entries != [] {
      WritesAsked(entries[..|entries| - 1], ts);
    }
  }

  lemma {:induction false} DeletesAsked(keys: seq<string>, ts: Timestamp)
    ensures |Deletes(keys, ts)| == |keys|
    ensures forall k | 0 <= k < |keys| :: Deletes(keys, ts)[k] == Op(keys[k], TVal("", ts, true))
  {
    if keys != [] {
      DeletesAsked(keys[..|keys| - 1], ts);
    }
  }

  lemma FanoutWrites(entries: seq<(string, string)>, ts: Timestamp, n: nat)
    ensures forall m :: m in Fanout(Writes(entries, ts), n) <==> Sends(m, entries, ts, n)
  {
    WritesAsked(entries, ts);
    forall m: Message | Sends(m, entries, ts, n) ensures m in Fanout(Writes(entries, ts), n) {
      var k :| 0 <= k < |entries| && m.op == Op(entries[k].0, TVal(entries[k].1, ts, false));
      assert m.op == Writes(entries, ts)[k];
    }
  }

  lemma FanoutDeletes(keys: seq<string>, ts: Timestamp, n: nat)
    ensures forall m :: m in Fanout(Deletes(keys, ts), n) <==> SendsDelete(m, keys, ts, n)
  {
    DeletesAsked(keys, ts);
    forall m: Message | SendsDelete(m, keys, ts, n) ensures m in Fanout(Deletes(keys, ts), n) {
      var k :| 0 <= k < |keys| && m.op == Op(keys[k], TVal("", ts, true));
      assert m.op == Deletes(keys, ts)[k];
    }
  }

  lemma FanoutSnoc(ops: seq<Op>, op: Op, n: nat)
    ensures Fanout(ops + [op], n) == Fanout(ops, n) + Fanout([op], n)
  {
  }

  class TState {
    const id: nat
    const n: nat
    const db: TDb
    var time: nat
    /** Broadcasts handed to the sending goroutines. */
    var outbox: set<Message>

    constructor (id: nat, n: nat)
      requires id < n
      ensures this.id == id && this.n == n && time == 0 && outbox == {} && fresh(db) && db.storage == map[]
    {
      this.id, this.n, time, outbox := id, n, 0, {};
      db := new TDb();
    }

    method BroadcastToAll(op: Op)
      modifies this`outbox
      ensures outbox == old(outbox) + Fanout([op], n)
      ensures forall m :: m in outbox <==> m in old(outbox) || (m.dest < n && m.op == op)
    {
      for d: nat := 0 to n
        invariant outbox == old(outbox) + Fanout([op], d)
      {
        assert Fanout([op], d + 1) == Fanout([op], d) + {Message(d, op)};
        outbox := outbox + {Message(d, op)};
      }
    }

    method HandlePatch(entries: seq<(string, string)>)
      modifies this
      ensures time == old(time) + 1
      ensures outbox == old(outbox) + Fanout(Writes(entries, Timestamp(time, id)), n)
      ensures forall m :: m in outbox <==> m in old(outbox) || Sends(m, entries, Timestamp(old(time) + 1, id), n)
    {
      time := time + 1;
      var newTs := Timestamp(time, id);
      for i := 0 to |entries|
        invariant time == newTs.time
        invariant outbox == old(outbox) + Fanout(Writes(entries[..i], newTs), n)
      {
        var op := Op(entries[i].0, TVal(entries[i].1, newTs, false));
        assert entries[..i + 1][..i] == entries[..i];
        assert Writes(entries[..i + 1], newTs) == Writes(entries[..i], newTs) + [op];
        FanoutSnoc(Writes(entries[..i], newTs), op, n);
        BroadcastToAll(op);
      }
      assert entries[..|entries|] == entries;
      FanoutWrites(entries, newTs, n);
    }

    method HandleDelete(keys: seq<string>)
      modifies this
      ensures time == old(time) + 1
      ensures outbox == old(outbox) + Fanout(Deletes(keys, Timestamp(time, id)), n)
      ensures forall m :: m in outbox <==> m in old(outbox) || SendsDelete(m, keys, Timestamp(old(time) + 1, id), n)
    {
      time := time + 1;
      var newTs := Timestamp(time, id);
      for i := 0 to |keys|
        invariant time == newTs.time
        invariant outbox == old(outbox) + Fanout(Deletes(keys[..i], newTs), n)
      {
        var op := Op(keys[i], TVal("", newTs, true));
        assert keys[..i + 1][..i] == keys[..i];
        assert Deletes(keys[..i + 1], newTs) == Deletes(keys[..i], newTs) + [op];
        FanoutSnoc(Deletes(keys[..i], newTs), op, n);
        BroadcastToAll(op);
      }
      assert keys[..|keys|] == keys;
      FanoutDeletes(keys, newTs, n);
    }

    /** A delivered broadcast. The text a deletion carries, if any, is dropped. */
    method HandleBroadcast(op: Op) returns (ok: bool)
      modifies db
      ensures ok <==> Merge(old(db.storage), Plain(op)).Some?
      ensures db.storage == if ok then Merge(old(db.storage), Plain(op)).value else old(db.storage)
      ensures ok <==> !(op.key in old(db.storage) && old(db.storage)[op.key].ts == op.val.ts)
      ensures db.storage ==
        if op.key in old(db.storage) && !LaterThan(op.val.ts, old(db.storage)[op.key].ts) then old(db.storage)
        else old(db.storage)[op.key := TVal(if op.val.deleted then "" else op.val.val, op.val.ts, op.val.deleted)]
    {
      if op.val.deleted {
        ok := db.Delete(op.key, op.val.ts);
      } else {
        ok := db.Put(op.key, op.val.val, op.val.ts);
      }
    }
  }
}
