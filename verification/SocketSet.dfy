/** The poll loop's bookkeeping: socket states, partial sends, response accumulation, and the in-place
    removal of finished sockets with a running index shift. */
module SocketSet {
  import opened Prelude

  datatype SockState = ERROR | CONNECTING | ACTIVE | CLOSED

  /** `conn` numbers the connections ever opened; a descriptor is used again once it is closed. */
  datatype Socket = Socket(addr: nat, fd: int, conn: nat, request: seq<Byte>, response: seq<Byte>, state: SockState)

  datatype PollFd = PollFd(fd: int)

  /** What poll, send and recv report for one socket: an error flag; if writable, the number of bytes
      send takes, negative for an error; if readable, what recv returns, None for an error. */
  datatype Activity = Activity(failed: bool, writable: Option<int>, readable: Option<Option<seq<Byte>>>)

  const NOTHING := Activity(false, None, None)

  function ActivityOf(events: seq<Activity>, i: nat): Activity {
    if i < |events| then events[i] else NOTHING
  }

  /** send takes at most what is left. */
  function SentCount(s: Socket, n: int): nat {
    if n < 0 then 0 else if n > |s.request| then |s.request| else n
  }

  /** One socket after the events of a poll round. */
  function After(s: Socket, a: Activity): Socket {
    if a.failed then s.(state := ERROR)
    else if a.writable.Some? && a.writable.value < 0 then s.(state := ERROR)
    else
      var t := if a.writable.Some? then s.(request := s.request[SentCount(s, a.writable.value)..]) else s;
      match a.readable
      case None => t
      case Some(None) => t.(state := ERROR)
      case Some(Some(data)) =>
        var u := t.(response := t.response + data);
        if data == [] then u.(state := CLOSED) else u
  }

  /** What one poll round did on one connection: the bytes send took, the bytes recv returned, whether recv reported
      the end of the stream, and whether poll, send or recv reported an error. */
  datatype Io = Io(conn: nat, sent: seq<Byte>, got: seq<Byte>, eof: bool, broken: bool)

  function IoOf(s: Socket, a: Activity): Io {
    if a.failed || (a.writable.Some? && a.writable.value < 0) then Io(s.conn, [], [], false, true)
    else
      var sent := if a.writable.Some? then s.request[..SentCount(s, a.writable.value)] else [];
      match a.readable
      case None => Io(s.conn, sent, [], false, false)
      case Some(None) => Io(s.conn, sent, [], false, true)
      case Some(Some(data)) => Io(s.conn, sent, data, data == [], false)
  }

  /** Some call for the socket reported an error. */
  predicate Fails(a: Activity) {
    a.failed || (a.writable.Some? && a.writable.value < 0) || (a.readable.Some? && a.readable.value.None?)
  }

  /** What a round makes of an open socket: ERROR exactly on a reported error, CLOSED exactly on a clean end of the
      stream; without an error, what came is added and what was taken is gone. */
  ghost predicate Stepped(s: Socket, a: Activity, t: Socket) {
    && t.addr == s.addr && t.fd == s.fd && t.conn == s.conn
    && (t.state == ERROR <==> Fails(a))
    && (t.state == CLOSED <==> !Fails(a) && a.readable == Some(Some([])))
    && (t.state == s.state || Finished(t))
    && (!Fails(a) ==> t.response == s.response + if a.readable.Some? then a.readable.value.value else [])
    && (!Fails(a) && a.writable.None? ==> t.request == s.request)
    && (!Fails(a) && a.writable.Some? ==>
          t.request == if a.writable.value < |s.request| then s.request[a.writable.value..] else [])
  }

  lemma StepExact(s: Socket, a: Activity)
    requires !Finished(s)
    ensures Stepped(s, a, After(s, a))
  {
    assert s.response + [] == s.response;
  }

  function RoundLog(s: seq<Socket>, events: seq<Activity>): (r: seq<Io>)
    ensures |r| == |s|
    ensures forall k | 0 <= k < |s| :: r[k] == IoOf(s[k], ActivityOf(events, k))
  {
    seq(|s|, k requires 0 <= k < |s| => IoOf(s[k], ActivityOf(events, k)))
  }

  /** All bytes that arrived on connection `c`. */
  function GotOn(wire: seq<Io>, c: nat): seq<Byte> {
    if wire == [] then []
    else
      var last := wire[|wire| - 1];
      GotOn(wire[..|wire| - 1], c) + if last.conn == c then last.got else []
  }

  /** All bytes that left on connection `c`. */
  function SentOn(wire: seq<Io>, c: nat): seq<Byte> {
    if wire == [] then []
    else
      var last := wire[|wire| - 1];
      SentOn(wire[..|wire| - 1], c) + if last.conn == c then last.sent else []
  }

  /** The other side ended connection `c`. */
  ghost predicate Ended(wire: seq<Io>, c: nat) {
    exists io | io in wire :: io.conn == c && io.eof
  }

  /** An error was reported on connection `c`. */
  ghost predicate Broken(wire: seq<Io>, c: nat) {
    exists io | io in wire :: io.conn == c && io.broken
  }

  /** A socket's fields against everything that happened: its response is what arrived on its own connection,
      what it still has to send completes what was sent to what it was asked, it is CLOSED exactly when the other
      side ended it, and ERROR exactly when an error was reported on it. */
  ghost predicate Recorded(s: Socket, wire: seq<Io>, asked: seq<seq<Byte>>) {
    && s.conn < |asked| && s.response == GotOn(wire, s.conn)
    && SentOn(wire, s.conn) + s.request == asked[s.conn]
    && (s.state == CLOSED <==> Ended(wire, s.conn)) && (s.state == ERROR <==> Broken(wire, s.conn))
  }

  predicate Finished(s: Socket) {
    s.state == ERROR || s.state == CLOSED
  }

  function Updated(s: seq<Socket>, events: seq<Activity>): (r: seq<Socket>)
    ensures |r| == |s|
    ensures forall k | 0 <= k < |s| :: r[k] == After(s[k], ActivityOf(events, k))
  {
    seq(|s|, k requires 0 <= k < |s| => After(s[k], ActivityOf(events, k)))
  }

  lemma AllStep(s: seq<Socket>, events: seq<Activity>)
    requires forall k | 0 <= k < |s| :: !Finished(s[k])
    ensures forall k | 0 <= k < |s| :: Stepped(s[k], ActivityOf(events, k), Updated(s, events)[k])
  {
    hide Stepped;
    forall k | 0 <= k < |s| ensures Stepped(s[k], ActivityOf(events, k), Updated(s, events)[k]) {
      StepExact(s[k], ActivityOf(events, k));
    }
  }

  /** The sockets that stay, in order. */
  function Kept(s: seq<Socket>): seq<Socket> {
    if s == [] then []
    else Kept(s[..|s| - 1]) + if Finished(s[|s| - 1]) then [] else [s[|s| - 1]]
  }

  /** The sockets that are handed out, in order. */
  function Removed(s: seq<Socket>): seq<Socket> {
    if s == [] then []
    else Removed(s[..|s| - 1]) + if Finished(s[|s| - 1]) then [s[|s| - 1]] else []
  }

  function FdsOf(s: seq<Socket>): (r: seq<PollFd>)
    ensures |r| == |s|
    ensures forall k | 0 <= k < |s| :: r[k] == PollFd(s[k].fd)
  {
    seq(|s|, k requires 0 <= k < |s| => PollFd(s[k].fd))
  }

  lemma {:induction false} KeptRun(a: seq<Socket>, b: seq<Socket>)
    requires forall k | 0 <= k < |b| :: !Finished(b[k])
    ensures Kept(a + b) == Kept(a) + b && Removed(a + b) == Removed(a)
  {
    if b == [] {
      assert a + b == a;
    } else {
      assert (a + b)[..|a + b| - 1] == a + b[..|b| - 1];
      KeptRun(a, b[..|b| - 1]);
    }
  }

  /** Removing and keeping split a round's sockets: nothing is lost or made up, and each part is in order. */
  lemma {:induction false} SplitAll(s: seq<Socket>)
    ensures |Kept(s)| + |Removed(s)| == |s|
    ensures multiset(Kept(s)) + multiset(Removed(s)) == multiset(s)
    ensures forall x | x in Kept(s) :: x in s && !Finished(x)
    ensures forall x | x in Removed(s) :: x in s && Finished(x)
    ensures forall x | x in s :: if Finished(x) then x in Removed(s) else x in Kept(s)
  {
    if s != [] {
      assert s == s[..|s| - 1] + [s[|s| - 1]];
      SplitAll(s[..|s| - 1]);
    }
  }

  /** No socket of the list is on descriptor `fd`. */
  predicate Free(s: seq<Socket>, fd: int) {
    forall k | 0 <= k < |s| :: s[k].fd != fd
  }

  ghost predicate Distinct(s: seq<Socket>) {
    forall i, j | 0 <= i < j < |s| :: s[i].conn != s[j].conn && s[i].fd != s[j].fd
  }

  /** The part of the invariant that is about the list of sockets. */
  ghost predicate Listed(s: seq<Socket>, wire: seq<Io>, asked: seq<seq<Byte>>) {
    && (forall io | io in wire :: io.conn < |asked|)
    && (forall k | 0 <= k < |s| :: !Finished(s[k]) && Recorded(s[k], wire, asked))
    && Distinct(s)
  }

  class TSocketSet {
    var sockets: seq<Socket>
    var pfds: seq<PollFd>
    var conns: nat
    ghost var wire: seq<Io>
    ghost var asked: seq<seq<Byte>>

    /** The two vectors are aligned, no listed socket is finished, and each agrees with the history. */
    ghost predicate Valid()
      reads this
    {
      pfds == FdsOf(sockets) && |asked| == conns && Listed(sockets, wire, asked)
    }

    constructor ()
      ensures Valid() && sockets == [] && wire == [] && asked == []
    {
      sockets, pfds, conns, wire, asked := [], [], 0, [], [];
    }

    /** Opens a non-blocking connection on a descriptor that the system picks among those not in use. */
    method RegisterSocket(addr: nat, request: seq<Byte>, connected: bool) returns (fd: int)
      requires Valid()
      modifies this
      ensures Valid() && wire == old(wire) && asked == old(asked) + [request]
      ensures Free(old(sockets), fd)
      ensures sockets == old(sockets) +
        [Socket(addr, fd, |old(asked)|, request, [], if connected then ACTIVE else CONNECTING)]
    {
      SomeFree(sockets);
      fd :| Free(sockets, fd);
      var sock := Socket(addr, fd, conns, request, [], if connected then ACTIVE else CONNECTING);
      Joins(sockets, wire, asked, sock);
      conns := conns + 1;
      asked := asked + [request];
      sockets := sockets + [sock];
      pfds := pfds + [PollFd(sock.fd)];
    }

    /** One poll round with the given reports; None if there is nothing to poll. */
    method Poll(events: seq<Activity>) returns (result: Option<seq<Socket>>)
      requires Valid()
      modifies this
      ensures Valid() && asked == old(asked)
      ensures result.None? <==> old(sockets) == []
      ensures result.None? ==> sockets == old(sockets) && wire == old(wire)
      ensures result.Some? ==>
        && wire == old(wire) + RoundLog(old(sockets), events)
        && result.value == Removed(Updated(old(sockets), events))
        && sockets == Kept(Updated(old(sockets), events))
        && forall x | x in result.value :: Finished(x) && Recorded(x, wire, asked)
    {
      hide Updated, Kept, Removed, MarksOf, RoundLog, Recorded, Listed;
      assert |sockets| == |pfds|;
      if sockets == [] {
        return None;
      }
      var idxs := Advance(events);
      wire := wire + RoundLog(old(sockets), events);
      var closed := Compact(idxs);
      StaysListed(old(sockets), events, old(wire), asked);
      return Some(closed);
    }

    /** The first loop: every socket's events are processed; the indices of finished sockets are collected. */
    method Advance(events: seq<Activity>) returns (idxsToDelete: seq<nat>)
      requires Valid()
      modifies this`sockets
      ensures sockets == Updated(old(sockets), events)
      ensures forall k | 0 <= k < |sockets| :: Stepped(old(sockets)[k], ActivityOf(events, k), sockets[k])
      ensures idxsToDelete == MarksOf(sockets)
    {
      hide Stepped, Recorded, Fails;
      AllStep(sockets, events);
      idxsToDelete := [];
      for i := 0 to |sockets|
        invariant |sockets| == |old(sockets)|
        invariant forall k | 0 <= k < i :: sockets[k] == After(old(sockets)[k], ActivityOf(events, k))
        invariant forall k | i <= k < |sockets| :: sockets[k] == old(sockets)[k]
        invariant idxsToDelete == MarksOf(sockets[..i])
      {
        ghost var was := sockets;
        var sock := sockets[i];
        var a := ActivityOf(events, i);
        assert pfds[i].fd == sock.fd && !Finished(sock);
        var gone := false;
        if a.failed {
          sock := sock.(state := ERROR);
          gone := true;
        }
        if !gone && a.writable.Some? {
          if a.writable.value < 0 {
            sock := sock.(state := ERROR);
            gone := true;
          } else {
            sock := sock.(request := sock.request[SentCount(sock, a.writable.value)..]);
          }
        }
        if !gone && a.readable.Some? {
          if a.readable.value.None? {
            sock := sock.(state := ERROR);
            gone := true;
          } else {
            sock := sock.(response := sock.response + a.readable.value.value);
            if a.readable.value.value == [] {
              sock := sock.(state := CLOSED);
              gone := true;
            }
          }
        }
        if gone {
          idxsToDelete := idxsToDelete + [i];
        }
        sockets := sockets[i := sock];
        assert sockets[..i + 1][..i] == was[..i];
      }
      assert sockets[..|sockets|] == sockets;
    }

    /** The second loop: the marked sockets are erased from both vectors, each index shifted by the number
        of erasures before it. */
    method Compact(idxsToDelete: seq<nat>) returns (result: seq<Socket>)
      requires idxsToDelete == MarksOf(sockets) && pfds == FdsOf(sockets)
      modifies this`sockets, this`pfds
      ensures sockets == Kept(old(sockets)) && result == Removed(old(sockets)) && pfds == FdsOf(sockets)
    {
      result := [];
      ghost var all := sockets;
      var shift: nat := 0;
      CompactStart(all, idxsToDelete);
      while shift < |idxsToDelete|
        invariant Halfway(all, idxsToDelete, shift, sockets, result)
        invariant pfds == FdsOf(sockets)
        decreases |idxsToDelete| - shift
      {
        CompactStep(all, idxsToDelete, shift, sockets, result);
        var sock := Erase(idxsToDelete[shift] - shift);
        result := result + [sock];
        shift := shift + 1;
      }
      CompactEnd(all, idxsToDelete, shift, sockets, result);
    }

    /** One erasure from both vectors. */
    method Erase(idx: nat) returns (sock: Socket)
      requires pfds == FdsOf(sockets) && idx < |sockets|
      modifies this`sockets, this`pfds
      ensures sockets == Without(old(sockets), idx) && sock == old(sockets[idx]) && pfds == FdsOf(sockets)
    {
      sock := sockets[idx];
      sockets := Without(sockets, idx);
      pfds := Without(pfds, idx);
    }
  }

  /** vector::erase. */
  function Without<T>(s: seq<T>, idx: nat): seq<T>
    requires idx < |s|
  {
    s[..idx] + s[idx + 1..]
  }

  /** The indices of the finished sockets, ascending. */
  ghost function MarksOf(s: seq<Socket>): seq<nat> {
    if s == [] then []
    else
      var k: nat := |s| - 1;
      MarksOf(s[..k]) + if Finished(s[k]) then [k] else []
  }

  lemma {:induction false} MarksOfMarks(s: seq<Socket>)
    ensures Marks(s, MarksOf(s))
  {
    if s != [] {
      var k: nat := |s| - 1;
      MarksOfMarks(s[..k]);
      forall x: nat | x < |s| && Finished(s[x]) ensures x in MarksOf(s) {
        if x < k {
          assert s[..k][x] == s[x];
        }
      }
    }
  }

  /** Exactly the indices of the finished sockets, ascending. */
  ghost predicate Marks(s: seq<Socket>, idxs: seq<nat>) {
    && (forall k | 0 <= k < |idxs| :: idxs[k] < |s| && Finished(s[idxs[k]]))
    && (forall a, b | 0 <= a < b < |idxs| :: idxs[a] < idxs[b])
    && (forall k: nat | k < |s| && Finished(s[k]) :: k in idxs)
  }

  /** Between two marks nothing is finished. */
  lemma Unmarked(s: seq<Socket>, idxs: seq<nat>, shift: nat, p: nat, k: nat)
    requires Marks(s, idxs) && shift <= |idxs| && p == (if shift == 0 then 0 else idxs[shift - 1] + 1)
    requires p <= k < |s| && (shift < |idxs| ==> k < idxs[shift])
    ensures !Finished(s[k])
  {
    forall x | 0 <= x < |idxs| ensures idxs[x] != k {
      if shift <= x {
        assert idxs[shift] <= idxs[x];
      } else {
        assert idxs[x] <= idxs[shift - 1];
      }
    }
  }

  /** Where the element at `i` of the original sits when `front` replaces everything before `p`. */
  lemma Shifted(front: seq<Socket>, all: seq<Socket>, p: nat, i: nat)
    requires p <= i < |all|
    ensures var now := front + all[p..]; var at := |front| + i - p;
      && at < |now| && now[at] == all[i]
      && now[..at] == front + all[p..i] && now[at + 1..] == all[i + 1..]
  {
  }

  /** The end of the compacted part after `shift` erasures: right behind the last mark erased. */
  ghost function End(idxs: seq<nat>, shift: nat): nat
    requires shift <= |idxs|
  {
    if shift == 0 then 0 else idxs[shift - 1] + 1
  }

  /** After `shift` erasures everything before the end of the compacted part is split and the rest untouched. */
  ghost predicate Halfway(all: seq<Socket>, idxs: seq<nat>, shift: nat, now: seq<Socket>, taken: seq<Socket>) {
    && shift <= |idxs| && End(idxs, shift) <= |all| && |now| == |all| - shift
    && now == Kept(all[..End(idxs, shift)]) + all[End(idxs, shift)..]
    && taken == Removed(all[..End(idxs, shift)])
  }

  lemma CompactStart(all: seq<Socket>, idxs: seq<nat>)
    ensures Halfway(all, idxs, 0, all, [])
  {
    assert all[..0] == [];
    assert Kept(all[..0]) + all[0..] == all;
  }

  lemma CompactStep(all: seq<Socket>, idxs: seq<nat>, shift: nat, now: seq<Socket>, taken: seq<Socket>)
    requires idxs == MarksOf(all) && shift < |idxs| && Halfway(all, idxs, shift, now, taken)
    ensures var at := idxs[shift] - shift;
      && 0 <= at < |now|
      && Halfway(all, idxs, shift + 1, Without(now, at), taken + [now[at]])
  {
    MarksOfMarks(all);
    NextMark(all, idxs, shift, End(idxs, shift));
  }

  lemma CompactEnd(all: seq<Socket>, idxs: seq<nat>, shift: nat, now: seq<Socket>, taken: seq<Socket>)
    requires idxs == MarksOf(all) && shift == |idxs| && Halfway(all, idxs, shift, now, taken)
    ensures now == Kept(all) && taken == Removed(all)
  {
    LastMarks(all, idxs, End(idxs, shift));
  }

  lemma NextMark(all: seq<Socket>, idxs: seq<nat>, shift: nat, p: nat)
    requires Marks(all, idxs) && shift < |idxs| && p == (if shift == 0 then 0 else idxs[shift - 1] + 1)
    requires p <= |all| && |Kept(all[..p])| == p - shift
    ensures var i := idxs[shift]; var now := Kept(all[..p]) + all[p..];
      && p <= i < |all| && 0 <= i - shift < |now| && now[i - shift] == all[i]
      && now[..i - shift] + now[i - shift + 1..] == Kept(all[..i + 1]) + all[i + 1..]
      && Removed(all[..i + 1]) == Removed(all[..p]) + [all[i]]
      && |Kept(all[..i + 1])| == i + 1 - (shift + 1)
  {
    var i := idxs[shift];
    assert shift > 0 ==> idxs[shift - 1] < idxs[shift];
    Shifted(Kept(all[..p]), all, p, i);
    RunToMark(all, idxs, shift, p);
  }

  lemma RunToMark(all: seq<Socket>, idxs: seq<nat>, shift: nat, p: nat)
    requires Marks(all, idxs) && shift < |idxs| && p == (if shift == 0 then 0 else idxs[shift - 1] + 1)
    requires p <= idxs[shift] < |all|
    ensures Kept(all[..idxs[shift] + 1]) == Kept(all[..p]) + all[p..idxs[shift]]
    ensures Removed(all[..idxs[shift] + 1]) == Removed(all[..p]) + [all[idxs[shift]]]
  {
    hide Kept, Removed, Finished;
    var i := idxs[shift];
    UnmarkedRun(all, idxs, shift, p, i);
    KeptStretch(all, p, i);
    KeptMarked(all, i);
    assert Finished(all[i]);
  }

  lemma UnmarkedRun(all: seq<Socket>, idxs: seq<nat>, shift: nat, p: nat, end: nat)
    requires Marks(all, idxs) && shift <= |idxs| && p == (if shift == 0 then 0 else idxs[shift - 1] + 1)
    requires p <= end <= |all| && (if shift < |idxs| then end == idxs[shift] else end == |all|)
    ensures forall k | p <= k < end :: !Finished(all[k])
  {
    hide Marks;
    forall k | p <= k < end ensures !Finished(all[k]) {
      Unmarked(all, idxs, shift, p, k);
    }
  }

  lemma KeptStretch(all: seq<Socket>, p: nat, end: nat)
    requires p <= end <= |all| && forall k | p <= k < end :: !Finished(all[k])
    ensures Kept(all[..end]) == Kept(all[..p]) + all[p..end] && Removed(all[..end]) == Removed(all[..p])
  {
    hide Kept, Removed;
    KeptRun(all[..p], all[p..end]);
    assert all[..p] + all[p..end] == all[..end];
  }

  lemma KeptMarked(all: seq<Socket>, i: nat)
    requires i < |all|
    ensures Finished(all[i]) ==> Kept(all[..i + 1]) == Kept(all[..i]) && Removed(all[..i + 1]) == Removed(all[..i]) + [all[i]]
  {
    assert all[..i + 1][..i] == all[..i] && all[..i + 1][i] == all[i];
  }

  lemma LastMarks(all: seq<Socket>, idxs: seq<nat>, p: nat)
    requires idxs == MarksOf(all) && p == (if |idxs| == 0 then 0 else idxs[|idxs| - 1] + 1) && p <= |all|
    ensures Kept(all[..p]) + all[p..] == Kept(all) && Removed(all[..p]) == Removed(all)
  {
    hide MarksOf, Kept, Removed, Marks;
    MarksOfMarks(all);
    UnmarkedRun(all, idxs, |idxs|, p, |all|);
    KeptStretch(all, p, |all|);
    assert all[..|all|] == all;
  }

  // ----- what one round adds to the history

  lemma {:induction false} Concatenated(a: seq<Io>, b: seq<Io>, c: nat)
    ensures GotOn(a + b, c) == GotOn(a, c) + GotOn(b, c)
    ensures SentOn(a + b, c) == SentOn(a, c) + SentOn(b, c)
  {
    if b == [] {
      assert a + b == a;
    } else {
      assert (a + b)[..|a + b| - 1] == a + b[..|b| - 1];
      Concatenated(a, b[..|b| - 1], c);
    }
  }

  /** A connection that is not polled gets and sends nothing in the round. */
  lemma {:induction false} Silent(s: seq<Socket>, events: seq<Activity>, c: nat)
    requires forall k | 0 <= k < |s| :: s[k].conn != c
    ensures GotOn(RoundLog(s, events), c) == [] && SentOn(RoundLog(s, events), c) == []
    ensures !Ended(RoundLog(s, events), c) && !Broken(RoundLog(s, events), c)
  {
    if s != [] {
      Silent(s[..|s| - 1], events, c);
      assert RoundLog(s, events)[..|s| - 1] == RoundLog(s[..|s| - 1], events);
    }
  }

  /** With distinct connection numbers, a round's share of one connection is its own record. */
  lemma {:induction false} OwnShare(s: seq<Socket>, events: seq<Activity>, k: nat)
    requires k < |s| && forall i, j | 0 <= i < j < |s| :: s[i].conn != s[j].conn
    ensures var io := IoOf(s[k], ActivityOf(events, k));
      && GotOn(RoundLog(s, events), s[k].conn) == io.got
      && SentOn(RoundLog(s, events), s[k].conn) == io.sent
      && (Ended(RoundLog(s, events), s[k].conn) <==> io.eof)
      && (Broken(RoundLog(s, events), s[k].conn) <==> io.broken)
  {
    var n := |s| - 1;
    assert RoundLog(s, events)[..n] == RoundLog(s[..n], events);
    if k == n {
      Silent(s[..n], events, s[k].conn);
      assert RoundLog(s, events)[n] in RoundLog(s, events);
    } else {
      OwnShare(s[..n], events, k);
      OwnEnd(s, events, k);
    }
  }

  lemma OwnEnd(s: seq<Socket>, events: seq<Activity>, k: nat)
    requires k < |s| && forall i, j | 0 <= i < j < |s| :: s[i].conn != s[j].conn
    ensures Ended(RoundLog(s, events), s[k].conn) <==> IoOf(s[k], ActivityOf(events, k)).eof
    ensures Broken(RoundLog(s, events), s[k].conn) <==> IoOf(s[k], ActivityOf(events, k)).broken
  {
    assert RoundLog(s, events)[k] in RoundLog(s, events);
  }

  lemma EndedConcat(a: seq<Io>, b: seq<Io>, c: nat)
    ensures Ended(a + b, c) <==> Ended(a, c) || Ended(b, c)
    ensures Broken(a + b, c) <==> Broken(a, c) || Broken(b, c)
  {
    forall io | io in a ensures io in a + b {
    }
    forall io | io in b ensures io in a + b {
    }
  }

  /** One socket's step and one record agree. */
  lemma StepRecorded(s: Socket, a: Activity)
    requires !Finished(s)
    ensures var t, io := After(s, a), IoOf(s, a);
      && t.response == s.response + io.got && io.sent + t.request == s.request
      && (t.state == CLOSED <==> io.eof) && (t.state == ERROR <==> io.broken)
      && t.conn == s.conn && t.fd == s.fd && t.addr == s.addr
  {
    var n := if a.writable.Some? && a.writable.value >= 0 then SentCount(s, a.writable.value) else 0;
    assert s.request[..n] + s.request[n..] == s.request;
    assert s.response + [] == s.response && [] + s.request == s.request;
  }

  lemma Advances(s: Socket, t: Socket, io: Io, wire: seq<Io>, log: seq<Io>, asked: seq<seq<Byte>>)
    requires Recorded(s, wire, asked) && !Finished(s) && t.conn == s.conn
    requires t.response == s.response + io.got && io.sent + t.request == s.request
    requires GotOn(log, s.conn) == io.got && SentOn(log, s.conn) == io.sent
    requires (Ended(log, s.conn) <==> io.eof) && (t.state == CLOSED <==> io.eof)
    requires (Broken(log, s.conn) <==> io.broken) && (t.state == ERROR <==> io.broken)
    ensures Recorded(t, wire + log, asked)
  {
    Concatenated(wire, log, s.conn);
    EndedConcat(wire, log, s.conn);
    var sent := SentOn(wire, s.conn);
    assert (sent + io.sent) + t.request == sent + (io.sent + t.request);
  }

  lemma UpdatedRecorded(s: seq<Socket>, events: seq<Activity>, wire: seq<Io>, asked: seq<seq<Byte>>, k: nat)
    requires Distinct(s) && k < |s| && !Finished(s[k]) && Recorded(s[k], wire, asked)
    ensures Recorded(After(s[k], ActivityOf(events, k)), wire + RoundLog(s, events), asked)
  {
    var a := ActivityOf(events, k);
    StepRecorded(s[k], a);
    OwnShare(s, events, k);
    Advances(s[k], After(s[k], a), IoOf(s[k], a), wire, RoundLog(s, events), asked);
  }

  lemma SomeFree(s: seq<Socket>)
    ensures exists fd: int :: Free(s, fd)
  {
    var top := Above(s);
    assert Free(s, top);
  }

  lemma {:induction false} Above(s: seq<Socket>) returns (top: int)
    ensures forall k | 0 <= k < |s| :: s[k].fd < top
  {
    if s == [] {
      top := 0;
    } else {
      var t := Above(s[1..]);
      top := if t > s[0].fd then t else s[0].fd + 1;
      forall k | 0 <= k < |s| ensures s[k].fd < top {
        if k > 0 {
          assert s[1..][k - 1] == s[k];
        }
      }
    }
  }

  lemma {:induction false} Unheard(wire: seq<Io>, c: nat)
    requires forall io | io in wire :: io.conn < c
    ensures GotOn(wire, c) == [] && SentOn(wire, c) == [] && !Ended(wire, c) && !Broken(wire, c)
  {
    if wire != [] {
      Unheard(wire[..|wire| - 1], c);
      assert wire[|wire| - 1] in wire;
    }
  }

  lemma Joins(s: seq<Socket>, wire: seq<Io>, asked: seq<seq<Byte>>, sock: Socket)
    requires Listed(s, wire, asked) && !Finished(sock) && sock.conn == |asked| && sock.response == []
    requires Free(s, sock.fd)
    ensures Listed(s + [sock], wire, asked + [sock.request])
  {
    Unheard(wire, |asked|);
  }

  lemma DistinctSnoc(s: seq<Socket>, x: Socket)
    requires Distinct(s) && forall y | y in s :: y.conn != x.conn && y.fd != x.fd
    ensures Distinct(s + [x])
  {
  }

  lemma PartsSnoc(s: seq<Socket>, x: Socket)
    requires Distinct(Kept(s)) && Distinct(Removed(s))
    requires forall y | y in s :: y.conn != x.conn && y.fd != x.fd
    ensures Distinct(Kept(s + [x])) && Distinct(Removed(s + [x]))
  {
    assert (s + [x])[..|s|] == s;
    if Finished(x) {
      forall y | y in Removed(s) ensures y in s {
        SplitAll(s);
      }
      DistinctSnoc(Removed(s), x);
    } else {
      forall y | y in Kept(s) ensures y in s {
        SplitAll(s);
      }
      DistinctSnoc(Kept(s), x);
    }
  }

  lemma LastApart(s: seq<Socket>, y: Socket)
    requires Distinct(s) && s != [] && y in s[..|s| - 1]
    ensures y.conn != s[|s| - 1].conn && y.fd != s[|s| - 1].fd
  {
    var i :| 0 <= i < |s| - 1 && s[..|s| - 1][i] == y;
    assert s[i] == y;
  }

  /** What stays and what is handed out are distinct among themselves. */
  lemma {:induction false} PartsDistinct(s: seq<Socket>)
    requires Distinct(s)
    ensures Distinct(Kept(s)) && Distinct(Removed(s))
  {
    if s != [] {
      var k := |s| - 1;
      assert s[..k] + [s[k]] == s;
      PartsDistinct(s[..k]);
      forall y | y in s[..k] ensures y.conn != s[k].conn && y.fd != s[k].fd {
        LastApart(s, y);
      }
      PartsSnoc(s[..k], s[k]);
    }
  }

  lemma UpdatedDistinct(s: seq<Socket>, events: seq<Activity>)
    requires Distinct(s)
    ensures Distinct(Updated(s, events))
  {
    var u := Updated(s, events);
    forall i, j | 0 <= i < j < |u| ensures u[i].conn != u[j].conn && u[i].fd != u[j].fd {
      assert u[i].conn == s[i].conn && u[j].conn == s[j].conn && u[i].fd == s[i].fd && u[j].fd == s[j].fd;
    }
  }

  lemma AllRecorded(s: seq<Socket>, events: seq<Activity>, wire: seq<Io>, asked: seq<seq<Byte>>, x: Socket)
    requires Listed(s, wire, asked) && x in Updated(s, events)
    ensures Recorded(x, wire + RoundLog(s, events), asked)
  {
    var k :| 0 <= k < |s| && Updated(s, events)[k] == x;
    UpdatedRecorded(s, events, wire, asked, k);
  }

  lemma LogConns(s: seq<Socket>, events: seq<Activity>, wire: seq<Io>, asked: seq<seq<Byte>>, io: Io)
    requires Listed(s, wire, asked) && io in wire + RoundLog(s, events)
    ensures io.conn < |asked|
  {
    if io !in wire {
      var k :| 0 <= k < |s| && RoundLog(s, events)[k] == io;
      assert Recorded(s[k], wire, asked);
    }
  }

  lemma ListedFrom(s: seq<Socket>, wire: seq<Io>, asked: seq<seq<Byte>>)
    requires forall io | io in wire :: io.conn < |asked|
    requires forall x | x in s :: !Finished(x) && Recorded(x, wire, asked)
    requires Distinct(s)
    ensures Listed(s, wire, asked)
  {
    assert forall k | 0 <= k < |s| :: s[k] in s;
  }

  lemma StaysListed(s: seq<Socket>, events: seq<Activity>, wire: seq<Io>, asked: seq<seq<Byte>>)
    requires Listed(s, wire, asked)
    ensures Listed(Kept(Updated(s, events)), wire + RoundLog(s, events), asked)
    ensures forall x | x in Removed(Updated(s, events)) ::
      Finished(x) && Recorded(x, wire + RoundLog(s, events), asked)
  {
    var u, w := Updated(s, events), wire + RoundLog(s, events);
    UpdatedDistinct(s, events);
    PartsDistinct(u);
    SplitAll(u);
    forall x | x in u ensures Recorded(x, w, asked) {
      AllRecorded(s, events, wire, asked, x);
    }
    forall io | io in w ensures io.conn < |asked| {
      LogConns(s, events, wire, asked, io);
    }
    ListedFrom(Kept(u), w, asked);
  }
}
