/** The replicated key-value store: committed entries applied in order to a string map. */
module Db {
  import opened Prelude
  import opened RaftNode

  type Data = map<string, string>

  /** The effect and the reported status of one committed entry. */
  function Effect(data: Data, e: Entry): (Data, bool) {
    match e.op
    case Create => if e.key in data then (data, false) else (data[e.key := e.value], true)
    case Update => if e.key in data then (data[e.key := e.value], true) else (data, false)
    case Delete => if e.key in data then (data - {e.key}, true) else (data, false)
    case Cas =>
      if e.key in data && data[e.key] == e.prevValue then (data[e.key := e.value], true) else (data, false)
  }

  /** The data after applying a sequence of entries to an empty store. */
  function Fold(s: seq<Entry>): Data {
    if s == [] then map[] else Effect(Fold(s[..|s| - 1]), s[|s| - 1]).0
  }

  /** The status reported for the k-th entry of a sequence. */
  function Status(s: seq<Entry>, k: nat): bool
    requires k < |s|
  {
    Effect(Fold(s[..k]), s[k]).1
  }

  // ----- what the folded data says about the entries

  /** The k-th entry is answered with success exactly when its key is free, or taken, as its operation asks. */
  lemma StatusIff(s: seq<Entry>, k: nat)
    requires k < |s|
    ensures s[k].op.Create? ==> (Status(s, k) <==> s[k].key !in Fold(s[..k]))
    ensures s[k].op.Update? || s[k].op.Delete? ==> (Status(s, k) <==> s[k].key in Fold(s[..k]))
    ensures s[k].op.Cas? ==>
      (Status(s, k) <==> s[k].key in Fold(s[..k]) && Fold(s[..k])[s[k].key] == s[k].prevValue)
  {
  }

  /** The k-th entry is about `key`, and was carried out. */
  ghost predicate Touches(s: seq<Entry>, k: nat, key: string)
    requires k < |s|
  {
    s[k].key == key && Status(s, k)
  }

  /** It was carried out, and no entry about the key was after it. */
  ghost predicate LastTouch(s: seq<Entry>, k: nat, key: string)
    requires k < |s|
  {
    Touches(s, k, key) && forall x | k < x < |s| :: !Touches(s, x, key)
  }

  /** A Create of the key was carried out and no Delete of it after that. */
  ghost predicate Stands(s: seq<Entry>, k: nat, key: string)
    requires k < |s|
  {
    Touches(s, k, key) && s[k].op.Create? && forall x | k < x < |s| && s[x].op.Delete? :: !Touches(s, x, key)
  }

  /** A key is there exactly if some Create of it stands, and its value then is that of the entry last carried out
      on it, which is a Create, an Update or a Cas. */
  lemma {:induction false} HoldsIff(s: seq<Entry>, key: string, value: string)
    ensures key in Fold(s) <==> exists k: nat :: k < |s| && Stands(s, k, key)
    ensures key in Fold(s) && Fold(s)[key] == value <==>
      exists k: nat :: k < |s| && LastTouch(s, k, key) && !s[k].op.Delete? && s[k].value == value
  {
    if s != [] {
      var n := |s| - 1;
      HoldsIff(s[..n], key, value);
      LastStep(s, key);
      StandStep(s, key);
      HoldsStep(s, key, value);
    }
  }

  lemma TouchesFront(s: seq<Entry>, key: string)
    requires s != []
    ensures forall k: nat | k < |s| - 1 :: Touches(s[..|s| - 1], k, key) <==> Touches(s, k, key)
  {
    forall k: nat | k < |s| - 1 ensures Touches(s[..|s| - 1], k, key) <==> Touches(s, k, key) {
      assert s[..|s| - 1][..k] == s[..k];
    }
  }

  lemma LastStep(s: seq<Entry>, key: string)
    requires s != []
    ensures LastTouch(s, |s| - 1, key) <==> Touches(s, |s| - 1, key)
    ensures forall k: nat | k < |s| - 1 ::
      LastTouch(s, k, key) <==> LastTouch(s[..|s| - 1], k, key) && !Touches(s, |s| - 1, key)
  {
    forall k: nat | k < |s| - 1
      ensures LastTouch(s, k, key) <==> LastTouch(s[..|s| - 1], k, key) && !Touches(s, |s| - 1, key)
    {
      LastFront(s, k, key);
    }
  }

  lemma LastFront(s: seq<Entry>, k: nat, key: string)
    requires k < |s| - 1
    ensures LastTouch(s, k, key) <==> LastTouch(s[..|s| - 1], k, key) && !Touches(s, |s| - 1, key)
  {
    hide Touches;
    TouchesFront(s, key);
    var n, t := |s| - 1, s[..|s| - 1];
    if LastTouch(t, k, key) && !Touches(s, n, key) {
      forall x | k < x < |s| ensures !Touches(s, x, key) {
        if x < n {
          assert !Touches(t, x, key);
        }
      }
    }
    if LastTouch(s, k, key) {
      forall x | k < x < n ensures !Touches(t, x, key) {
        assert !Touches(s, x, key);
      }
    }
  }

  lemma StandStep(s: seq<Entry>, key: string)
    requires s != []
    ensures Stands(s, |s| - 1, key) <==> Touches(s, |s| - 1, key) && s[|s| - 1].op.Create?
    ensures forall k: nat | k < |s| - 1 :: Stands(s, k, key) <==>
      Stands(s[..|s| - 1], k, key) && !(Touches(s, |s| - 1, key) && s[|s| - 1].op.Delete?)
  {
    forall k: nat | k < |s| - 1
      ensures Stands(s, k, key) <==>
        Stands(s[..|s| - 1], k, key) && !(Touches(s, |s| - 1, key) && s[|s| - 1].op.Delete?)
    {
      StandsFront(s, k, key);
    }
  }

  lemma StandsFront(s: seq<Entry>, k: nat, key: string)
    requires k < |s| - 1
    ensures Stands(s, k, key) <==>
      Stands(s[..|s| - 1], k, key) && !(Touches(s, |s| - 1, key) && s[|s| - 1].op.Delete?)
  {
    hide Touches;
    TouchesFront(s, key);
    var n, t := |s| - 1, s[..|s| - 1];
    if Stands(t, k, key) && !(Touches(s, n, key) && s[n].op.Delete?) {
      forall x | k < x < |s| && s[x].op.Delete? ensures !Touches(s, x, key) {
        if x < n {
          assert t[x].op.Delete? && !Touches(t, x, key);
        }
      }
    }
    if Stands(s, k, key) {
      forall x | k < x < n && t[x].op.Delete? ensures !Touches(t, x, key) {
        assert s[x].op.Delete? && !Touches(s, x, key);
      }
    }
  }

  /** The last entry's part in both equivalences. */
  lemma HoldsStep(s: seq<Entry>, key: string, value: string)
    requires s != []
    requires LastTouch(s, |s| - 1, key) <==> Touches(s, |s| - 1, key)
    requires Stands(s, |s| - 1, key) <==> Touches(s, |s| - 1, key) && s[|s| - 1].op.Create?
    requires forall k: nat | k < |s| - 1 ::
      LastTouch(s, k, key) <==> LastTouch(s[..|s| - 1], k, key) && !Touches(s, |s| - 1, key)
    requires forall k: nat | k < |s| - 1 :: Stands(s, k, key) <==>
      Stands(s[..|s| - 1], k, key) && !(Touches(s, |s| - 1, key) && s[|s| - 1].op.Delete?)
    requires var t := s[..|s| - 1];
      && (key in Fold(t) <==> exists k: nat :: k < |t| && Stands(t, k, key))
      && (key in Fold(t) && Fold(t)[key] == value <==>
            exists k: nat :: k < |t| && LastTouch(t, k, key) && !t[k].op.Delete? && t[k].value == value)
    ensures key in Fold(s) <==> exists k: nat :: k < |s| && Stands(s, k, key)
    ensures key in Fold(s) && Fold(s)[key] == value <==>
      exists k: nat :: k < |s| && LastTouch(s, k, key) && !s[k].op.Delete? && s[k].value == value
  {
    hide LastTouch, Stands, Touches, Status;
    var n := |s| - 1;
    LastCarried(s, key);
    var t := s[..n];
    assert forall k: nat | k < n :: t[k] == s[k];
    if key in Fold(s) {
      if key in Fold(t) {
        var k: nat :| k < |t| && Stands(t, k, key);
        assert Stands(s, k, key);
      } else {
        assert Stands(s, n, key);
      }
    }
    if k: nat :| k < |s| && Stands(s, k, key) {
      if k < n {
        assert Stands(t, k, key);
      }
    }
  }

  /** One more entry changes its own key only, and only when it is carried out. */
  lemma LastCarried(s: seq<Entry>, key: string)
    requires s != []
    ensures var n := |s| - 1; var was, now := Fold(s[..n]), Fold(s);
      if !Touches(s, n, key) then (key in now <==> key in was) && (key in was ==> now[key] == was[key])
      else if s[n].op.Delete? then key !in now
      else key in now && now[key] == s[n].value && (key in was <==> !s[n].op.Create?)
  {
  }

  /** Status channels do not influence the data or the statuses. */
  lemma {:induction false} FoldWire(s: seq<Entry>)
    ensures Fold(WireAll(s)) == Fold(s)
  {
    if s != [] {
      var k := |s| - 1;
      FoldWire(s[..k]);
      assert WireAll(s)[..k] == WireAll(s[..k]);
    }
  }

  class Store {
    var data: Data
    /** What was sent on each status channel, in order. */
    var replies: map<nat, seq<bool>>
    /** Everything consumed from the commit queue. */
    ghost var applied: seq<Entry>

    ghost predicate Valid()
      reads this
    {
      && data == Fold(applied)
      && (forall c | c in replies :: replies[c] == RepliesTo(applied, c))
      && (forall c | c !in replies :: RepliesTo(applied, c) == [])
    }

    constructor ()
      ensures Valid() && applied == [] && data == map[]
    {
      data := map[];
      replies := map[];
      applied := [];
    }

    method Create(key: string, value: string) returns (ok: bool)
      modifies this`data
      ensures ok <==> key !in old(data)
      ensures data == if ok then old(data)[key := value] else old(data)
    {
      if key in data {
        return false;
      }
      data := data[key := value];
      return true;
    }

    method Update(key: string, value: string) returns (ok: bool)
      modifies this`data
      ensures ok <==> key in old(data)
      ensures data == if ok then old(data)[key := value] else old(data)
    {
      if key in data {
        data := data[key := value];
        return true;
      }
      return false;
    }

    method Delete(key: string) returns (ok: bool)
      modifies this`data
      ensures ok <==> key in old(data)
      ensures data == if ok then old(data) - {key} else old(data)
    {
      if key in data {
        data := data - {key};
        return true;
      }
      return false;
    }

    method Cas(key: string, prevValue: string, newValue: string) returns (ok: bool)
      modifies this`data
      ensures ok <==> key in old(data) && old(data)[key] == prevValue
      ensures data == if ok then old(data)[key := newValue] else old(data)
    {
      if key in data {
        if data[key] == prevValue {
          data := data[key := newValue];
          return true;
        }
      }
      return false;
    }

    method Get(key: string) returns (value: string, found: bool)
      ensures found <==> key in data
      ensures value == if found then data[key] else ""
    {
      if key in data {
        return data[key], true;
      }
      return "", false;
    }

    method CommitEntry(e: Entry) returns (status: bool)
      modifies this`data
      ensures (data, status) == Effect(old(data), e)
      ensures e.op.Create? ==>
        (status <==> e.key !in old(data)) && data == if status then old(data)[e.key := e.value] else old(data)
      ensures e.op.Update? ==>
        (status <==> e.key in old(data)) && data == if status then old(data)[e.key := e.value] else old(data)
      ensures e.op.Delete? ==>
        (status <==> e.key in old(data)) && data == old(data) - {e.key}
      ensures e.op.Cas? ==>
        && (status <==> e.key in old(data) && old(data)[e.key] == e.prevValue)
        && data == if status then old(data)[e.key := e.value] else old(data)
    {
      match e.op
      case Create => status := Create(e.key, e.value);
      case Update => status := Update(e.key, e.value);
      case Delete => status := Delete(e.key);
      case Cas => status := Cas(e.key, e.prevValue, e.value);
    }

    /** One turn of the consuming loop: the entry is applied and its waiting client, if any, is told. */
    method Consume(entry: Entry)
      requires Valid()
      modifies this
      ensures Valid() && applied == old(applied) + [entry]
    {
      hide Effect, Fold, RepliesTo;
      var status := CommitEntry(entry);
      AppliedMore(applied, entry);
      applied := applied + [entry];
      if entry.chan.Some? {
        var c := entry.chan.value;
        replies := replies[c := (if c in replies then replies[c] else []) + [status]];
      }
    }

    /** The consuming loop, run until the given batch of queued entries is drained. */
    method Drain(batch: seq<Entry>)
      requires Valid()
      modifies this
      ensures Valid() && applied == old(applied) + batch
    {
      hide Effect, Fold, RepliesTo, Valid;
      for i := 0 to |batch|
        invariant Valid() && applied == old(applied) + batch[..i]
      {
        Consume(batch[i]);
        assert batch[..i + 1] == batch[..i] + [batch[i]];
      }
      assert batch[..|batch|] == batch;
    }
  }

  /** The statuses a sequence of applied entries sends on channel `c`. */
  function RepliesTo(s: seq<Entry>, c: nat): seq<bool> {
    if s == [] then []
    else
      var k: nat := |s| - 1;
      RepliesTo(s[..k], c) + if s[k].chan == Some(c) then [Status(s, k)] else []
  }

  lemma AppliedMore(s: seq<Entry>, e: Entry)
    ensures Fold(s + [e]) == Effect(Fold(s), e).0
    ensures forall c: nat :: RepliesTo(s + [e], c) == RepliesTo(s, c) + if e.chan == Some(c) then [Effect(Fold(s), e).1] else []
  {
    hide Effect;
    assert (s + [e])[..|s|] == s;
  }

  /** No status channel is carried by two entries. */
  ghost predicate DistinctChans(s: seq<Entry>) {
    forall i, j | 0 <= i < j < |s| && s[i].chan.Some? :: s[i].chan != s[j].chan
  }

  lemma {:induction false} NoReply(s: seq<Entry>, c: nat)
    requires forall i | 0 <= i < |s| :: s[i].chan != Some(c)
    ensures RepliesTo(s, c) == []
  {
    if s != [] {
      NoReply(s[..|s| - 1], c);
    }
  }

  /** With distinct channels, the client waiting on the k-th applied entry gets exactly one reply, the
      outcome of its entry at that position; so the one-slot channel never blocks the sender. */
  lemma {:induction false} OneReply(s: seq<Entry>, k: nat, c: nat)
    requires DistinctChans(s) && k < |s| && s[k].chan == Some(c)
    ensures RepliesTo(s, c) == [Status(s, k)]
    decreases |s|
  {
    var last: nat := |s| - 1;
    if k == last {
      NoReply(s[..last], c);
    } else {
      OneReply(s[..last], k, c);
      assert s[..last][..k] == s[..k];
    }
  }
}
