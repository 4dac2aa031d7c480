/** The log and its file: length-prefixed frames, the in-memory log that mirrors them, and recovery. */
module LogFile {
  import opened Prelude
  import opened RaftNode

  const FRAME_LIMIT := 0x1_0000_0000

  /** The entry serialiser, left abstract. */
  datatype Codec = Codec(enc: Entry -> seq<Byte>, dec: seq<Byte> -> Option<Entry>)

  /** It never produces nothing, leaves the status channel out, and can be undone. */
  ghost predicate Lawful(c: Codec) {
    forall e :: c.enc(e) != [] && c.enc(Wire(e)) == c.enc(e) && c.dec(c.enc(e)) == Some(Wire(e))
  }

  /** The entry's length fits the 4-byte header. */
  predicate Fits(c: Codec, e: Entry) {
    |c.enc(e)| < FRAME_LIMIT
  }

  predicate AllFit(c: Codec, s: seq<Entry>) {
    forall k | 0 <= k < |s| :: Fits(c, s[k])
  }

  // ----- framing

  function Header(n: nat): (h: seq<Byte>)
    ensures |h| == 4
  {
    [n % 256, n / 256 % 256, n / 65536 % 256, n / 16777216 % 256]
  }

  function HeaderValue(h: seq<Byte>): nat
    requires |h| == 4
  {
    var (a: int, b: int, c: int, d: int) := (h[0], h[1], h[2], h[3]);
    a + 256 * b + 65536 * c + 16777216 * d
  }

  lemma HeaderRoundTrip(n: nat)
    requires n < FRAME_LIMIT
    ensures HeaderValue(Header(n)) == n
  {
    var a := n / 256;
    var b := a / 256;
    assert n / 65536 == b && n / 16777216 == b / 256;
    assert b / 256 < 256;
  }

  function Frame(c: Codec, e: Entry): (f: seq<Byte>)
    ensures |f| == 4 + |c.enc(e)|
  {
    Header(|c.enc(e)|) + c.enc(e)
  }

  /** The number whose four bytes, the least significant first, stand at `pos`. */
  ghost function LengthAt(file: seq<Byte>, pos: nat): nat
    requires pos + 4 <= |file|
  {
    var (a: int, b: int, c: int, d: int) := (file[pos], file[pos + 1], file[pos + 2], file[pos + 3]);
    a + 256 * (b + 256 * (c + 256 * d))
  }

  /** The length comes first, its least significant byte first, and then the entry. */
  lemma FrameLayout(c: Codec, e: Entry)
    requires Fits(c, e)
    ensures var f := Frame(c, e);
      f[4..] == c.enc(e) && LengthAt(f, 0) == |c.enc(e)|
  {
    HeaderRoundTrip(|c.enc(e)|);
  }

  function Frames(c: Codec, s: seq<Entry>): seq<Byte> {
    if s == [] then [] else Frame(c, s[0]) + Frames(c, s[1..])
  }

  lemma {:induction false} FramesConcat(c: Codec, s: seq<Entry>, t: seq<Entry>)
    ensures Frames(c, s + t) == Frames(c, s) + Frames(c, t)
  {
    if s == [] {
      assert s + t == t;
    } else {
      assert (s + t)[0] == s[0] && (s + t)[1..] == s[1..] + t;
      FramesConcat(c, s[1..], t);
    }
  }

  lemma {:induction false} FramesWire(c: Codec, s: seq<Entry>)
    requires Lawful(c)
    ensures Frames(c, WireAll(s)) == Frames(c, s)
  {
    if s != [] {
      assert WireAll(s)[1..] == WireAll(s[1..]);
      FramesWire(c, s[1..]);
    }
  }

  // ----- reading

  /** What reading one entry off the front of the remaining bytes gives: an entry and its size, the end of
      the file, a cut frame, or any other error. A read gives as many bytes as are left, and the end of
      the file only when there are none. */
  datatype Reading = Got(entry: Entry, size: nat) | AtEnd | Corrupted | Failed

  function ReadEntry(c: Codec, bytes: seq<Byte>): Reading {
    if bytes == [] then AtEnd
    else if |bytes| < 4 then Corrupted
    else
      var size := HeaderValue(bytes[..4]);
      if |bytes| == 4 && size > 0 then Failed
      else if |bytes| < 4 + size then Corrupted
      else match c.dec(bytes[4..4 + size])
        case None => Failed
        case Some(e) => Got(e, 4 + size)
  }

  /** All entries read until the end or a cut frame; None if reading fails otherwise. */
  function Recovered(c: Codec, bytes: seq<Byte>): Option<seq<Entry>>
    decreases |bytes|
  {
    match ReadEntry(c, bytes)
    case AtEnd => Some([])
    case Corrupted => Some([])
    case Failed => None
    case Got(e, size) =>
      match Recovered(c, bytes[size..])
      case None => None
      case Some(rest) => Some([e] + rest)
  }

  /** How many bytes reading gets through before it stops. */
  function Consumed(c: Codec, bytes: seq<Byte>): (k: nat)
    ensures k <= |bytes|
    decreases |bytes|
  {
    match ReadEntry(c, bytes)
    case Got(e, size) => size + Consumed(c, bytes[size..])
    case _ => 0
  }

  lemma ReadFrame(c: Codec, e: Entry, rest: seq<Byte>)
    requires Lawful(c) && Fits(c, e)
    ensures ReadEntry(c, Frame(c, e) + rest) == Got(Wire(e), |Frame(c, e)|)
    ensures (Frame(c, e) + rest)[|Frame(c, e)|..] == rest
  {
    var bytes := Frame(c, e) + rest;
    assert bytes[..4] == Header(|c.enc(e)|);
    HeaderRoundTrip(|c.enc(e)|);
    assert bytes[4..4 + |c.enc(e)|] == c.enc(e);
  }

  /** A proper, non-empty prefix of a frame is recognised as cut, except right after its header. */
  lemma ReadCut(c: Codec, e: Entry, k: nat)
    requires Lawful(c) && Fits(c, e) && 0 < k < |Frame(c, e)|
    ensures ReadEntry(c, Frame(c, e)[..k]) == if k == 4 then Failed else Corrupted
  {
    if k >= 4 {
      assert Frame(c, e)[..k][..4] == Header(|c.enc(e)|);
      HeaderRoundTrip(|c.enc(e)|);
    }
  }

  /** Framing round trip: the entries read back from a complete file are those written, without channels. */
  lemma {:induction false} RecoverAll(c: Codec, s: seq<Entry>)
    requires Lawful(c) && AllFit(c, s)
    ensures Recovered(c, Frames(c, s)) == Some(WireAll(s))
  {
    if s == [] {
      assert WireAll(s) == [];
    } else {
      ReadFrame(c, s[0], Frames(c, s[1..]));
      RecoverAll(c, s[1..]);
      assert WireAll(s) == [Wire(s[0])] + WireAll(s[1..]);
    }
  }

  /** Torn file: for every byte prefix of a valid file, with `j` complete frames in it, recovery yields
      exactly those `j` entries, unless the cut falls right after a header; then it is an error. */
  lemma {:induction false} TornRecovery(c: Codec, s: seq<Entry>, k: nat, j: nat)
    requires Lawful(c) && AllFit(c, s) && j <= |s|
    requires |Frames(c, s[..j])| <= k <= |Frames(c, s)|
    requires j < |s| ==> k < |Frames(c, s[..j + 1])|
    ensures Recovered(c, Frames(c, s)[..k])
      == if j < |s| && k == |Frames(c, s[..j])| + 4 then None else Some(WireAll(s[..j]))
  {
    hide ReadEntry, Recovered, Frames, WireAll;
    if s == [] {
      TornEmpty(c, s, k, j);
    } else if j == 0 {
      TornFirst(c, s, k);
    } else {
      TornTail(c, s, k, j);
      TornRecovery(c, s[1..], k - |Frame(c, s[0])|, j - 1);
    }
  }

  lemma TornEmpty(c: Codec, s: seq<Entry>, k: nat, j: nat)
    requires s == [] && k <= |Frames(c, s)| && j == 0
    ensures Recovered(c, Frames(c, s)[..k]) == Some(WireAll(s[..j]))
  {
    assert WireAll(s[..j]) == [];
  }

  /** After the first complete frame a cut file is the cut file of the rest. */
  lemma TornTail(c: Codec, s: seq<Entry>, k: nat, j: nat)
    requires Lawful(c) && AllFit(c, s) && 0 < j <= |s|
    requires |Frames(c, s[..j])| <= k <= |Frames(c, s)|
    ensures var size := |Frame(c, s[0])|;
      && size <= k && |Frames(c, s[1..][..j - 1])| == |Frames(c, s[..j])| - size
      && |Frames(c, s[1..])| == |Frames(c, s)| - size
      && (j < |s| ==> |Frames(c, s[1..][..j])| == |Frames(c, s[..j + 1])| - size)
      && WireAll(s[..j]) == [Wire(s[0])] + WireAll(s[1..][..j - 1])
      && Recovered(c, Frames(c, s)[..k]) ==
           match Recovered(c, Frames(c, s[1..])[..k - size])
           case None => None
           case Some(rest) => Some([Wire(s[0])] + rest)
  {
    hide ReadEntry;
    TornLengths(c, s, j);
    if j < |s| {
      TornLengths(c, s, j + 1);
    }
    var f := Frame(c, s[0]);
    var rest := Frames(c, s[1..])[..k - |f|];
    assert Frames(c, s)[..k] == f + rest;
    ReadFrame(c, s[0], rest);
  }

  lemma TornLengths(c: Codec, s: seq<Entry>, j: nat)
    requires 0 < j <= |s|
    ensures |Frames(c, s[..j])| == |Frame(c, s[0])| + |Frames(c, s[1..][..j - 1])|
    ensures WireAll(s[..j]) == [Wire(s[0])] + WireAll(s[1..][..j - 1])
  {
    assert s[..j][0] == s[0] && s[..j][1..] == s[1..][..j - 1];
  }

  lemma TornFirst(c: Codec, s: seq<Entry>, k: nat)
    requires Lawful(c) && AllFit(c, s) && s != [] && k <= |Frames(c, s)| && k < |Frames(c, s[..1])|
    ensures Recovered(c, Frames(c, s)[..k]) == if k == |Frames(c, s[..0])| + 4 then None else Some(WireAll(s[..0]))
  {
    assert s[..1][0] == s[0] && s[..1][1..] == [];
    assert Frames(c, s[..1]) == Frame(c, s[0]) + [];
    assert Frames(c, s)[..k] == Frame(c, s[0])[..k];
    assert WireAll(s[..0]) == [];
    if k > 0 {
      ReadCut(c, s[0], k);
    }
  }

  /** Every cut has its number of complete frames, so TornRecovery covers all of them. */
  lemma {:induction false} CompleteFrames(c: Codec, s: seq<Entry>, k: nat) returns (j: nat)
    requires k <= |Frames(c, s)|
    ensures j <= |s| && |Frames(c, s[..j])| <= k && (j < |s| ==> k < |Frames(c, s[..j + 1])|)
  {
    j := 0;
    assert s[..0] == [];
    while j < |s| && |Frames(c, s[..j + 1])| <= k
      invariant j <= |s| && |Frames(c, s[..j])| <= k
    {
      j := j + 1;
    }
  }

  // ----- the log object

  method DeserializeEntry(c: Codec, file: seq<Byte>, pos: nat) returns (r: Reading)
    requires pos <= |file|
    ensures r == ReadEntry(c, file[pos..])
    ensures r.AtEnd? <==> pos == |file|
    ensures |file| - pos < 4 && pos < |file| ==> r.Corrupted?
    ensures |file| - pos >= 4 ==>
      var size, left := LengthAt(file, pos), |file| - pos - 4;
      if left < size then r == if left == 0 then Failed else Corrupted
      else match c.dec(file[pos + 4..pos + 4 + size])
        case None => r == Failed
        case Some(e) => r == Got(e, 4 + size)
  {
    var rest := file[pos..];
    var n := if |rest| < 4 then |rest| else 4;
    if n == 0 {
      return AtEnd;
    }
    if n != 4 {
      return Corrupted;
    }
    var entryLen := HeaderValue(rest[..4]);
    var m := if |rest| - 4 < entryLen then |rest| - 4 else entryLen;
    if m == 0 && entryLen > 0 {
      return Failed;
    }
    if m != entryLen {
      return Corrupted;
    }
    assert rest[4..4 + m] == file[pos + 4..pos + 4 + m];
    match c.dec(rest[4..4 + m])
    case None => return Failed;
    case Some(e) => return Got(e, 4 + m);
  }

  class WLog {
    const codec: Codec
    var entries: seq<Entry>
    var file: seq<Byte>

    /** The disk mirror: the file holds exactly the frames of the entries after the sentinel. */
    ghost predicate Valid()
      reads this
    {
      && Lawful(codec)
      && |entries| > 0 && entries[0] == SENTINEL
      && AllFit(codec, entries[1..])
      && file == Frames(codec, entries[1..])
    }

    /** A log that does not exist yet. */
    constructor Create(codec: Codec)
      requires Lawful(codec)
      ensures Valid() && this.codec == codec && entries == [SENTINEL]
    {
      this.codec := codec;
      entries := [SENTINEL];
      file := [];
    }

    /** A log with the given entries read back from a file. */
    constructor Loaded(codec: Codec, entries: seq<Entry>, file: seq<Byte>)
      ensures this.codec == codec && this.entries == entries && this.file == file
    {
      this.codec := codec;
      this.entries := entries;
      this.file := file;
    }

    method DumpLog()
      requires |entries| > 0
      modifies this`file
      ensures file == Frames(codec, entries[1..])
    {
      var out: seq<Byte> := [];
      for i := 1 to |entries|
        invariant out == Frames(codec, entries[1..i])
      {
        FramesConcat(codec, entries[1..i], [entries[i]]);
        assert entries[1..i + 1] == entries[1..i] + [entries[i]];
        out := out + Frame(codec, entries[i]);
      }
      assert entries[1..|entries|] == entries[1..];
      file := out;
    }

    method Append(e: Entry)
      requires Valid() && Fits(codec, e)
      modifies this
      ensures Valid() && entries == old(entries) + [e]
    {
      FramesConcat(codec, entries[1..], [e]);
      assert (entries + [e])[1..] == entries[1..] + [e];
      file := file + Frame(codec, e);
      entries := entries + [e];
    }

    /** A mismatch at index 0 drops the sentinel, and then writing the file panics: it cannot skip an entry
        that is not there. */
    method CheckAndCorrect(prevLogIndex: nat, prevLogTerm: nat) returns (ok: bool, panicked: bool)
      requires Valid()
      modifies this
      ensures (ok, entries) == RaftNode.CheckAndCorrect(old(entries), prevLogIndex, prevLogTerm)
      ensures ok <==> prevLogIndex < |old(entries)| && old(entries)[prevLogIndex].term == prevLogTerm
      ensures entries ==
        if ok then old(entries)[..prevLogIndex + 1]
        else if prevLogIndex < |old(entries)| then old(entries)[..prevLogIndex] else old(entries)
      ensures panicked <==> prevLogIndex == 0 && prevLogTerm != SENTINEL.term
      ensures if panicked then entries == [] && file == old(file) else Valid()
    {
      panicked := false;
      if prevLogIndex >= |entries| {
        return false, false;
      }
      var changed := false;
      if prevLogIndex < |entries| - 1 {
        changed := true;
        entries := entries[..prevLogIndex + 1];
      }
      ok := true;
      if entries[prevLogIndex].term != prevLogTerm {
        changed := true;
        entries := entries[..prevLogIndex];
        ok := false;
      }
      if entries == [] {
        return false, true;
      }
      if changed {
        DumpLog();
      }
      assert ok ==> entries == old(entries)[..prevLogIndex + 1];
      assert !ok ==> entries == old(entries)[..prevLogIndex];
    }

    method AppendEntries(more: seq<Entry>)
      requires Valid() && AllFit(codec, more)
      modifies this
      ensures Valid() && entries == old(entries) + more
    {
      for i := 0 to |more|
        invariant Valid() && entries == old(entries) + more[..i]
      {
        Append(more[i]);
        assert more[..i + 1] == more[..i] + [more[i]];
      }
      assert more[..|more|] == more;
    }
  }

  /** Entries already read, before those still to come. */
  ghost function Prepend(read: seq<Entry>, rest: Option<seq<Entry>>): Option<seq<Entry>> {
    if rest.None? then None else Some(read + rest.value)
  }

  lemma NothingRead(all: Option<seq<Entry>>)
    ensures all == Prepend([], all)
  {
    if all.Some? {
      assert [] + all.value == all.value;
    }
  }

  lemma OneMore(c: Codec, file: seq<Byte>, offset: nat, read: seq<Entry>, e: Entry, size: nat)
    requires offset <= |file| && ReadEntry(c, file[offset..]) == Got(e, size)
    ensures 0 < size && offset + size <= |file|
    ensures Prepend(read, Recovered(c, file[offset..])) == Prepend(read + [e], Recovered(c, file[offset + size..]))
    ensures Consumed(c, file[offset..]) == size + Consumed(c, file[offset + size..])
  {
    assert file[offset..][size..] == file[offset + size..];
    var rest := Recovered(c, file[offset + size..]);
    if rest.Some? {
      assert read + ([e] + rest.value) == (read + [e]) + rest.value;
    }
  }

  lemma ReadingStops(c: Codec, bytes: seq<Byte>)
    ensures ReadEntry(c, bytes).AtEnd? || ReadEntry(c, bytes).Corrupted? ==> Recovered(c, bytes) == Some([])
    ensures ReadEntry(c, bytes).Failed? ==> Recovered(c, bytes).None?
    ensures !ReadEntry(c, bytes).Got? ==> Consumed(c, bytes) == 0
  {
    hide ReadEntry;
  }

  /** Opening a log. A file with a cut tail is shortened to what was read, if the system lets that happen through
      a handle opened for reading; the code ignores whether it did. */
  method NewLog(codec: Codec, stored: Option<seq<Byte>>, truncates: bool) returns (log: Option<WLog>)
    requires Lawful(codec)
    ensures stored.None? ==> log.Some? && fresh(log.value) && log.value.Valid() && log.value.entries == [SENTINEL]
    ensures stored.Some? ==> (log.None? <==> Recovered(codec, stored.value).None?)
    ensures stored.Some? && log.Some? ==>
      && fresh(log.value) && log.value.codec == codec
      && log.value.file == (if truncates then stored.value[..Consumed(codec, stored.value)] else stored.value)
      && log.value.entries == [SENTINEL] + Recovered(codec, stored.value).value
  {
    hide Recovered, ReadEntry, Frames, Consumed;
    if stored.None? {
      var created := new WLog.Create(codec);
      return Some(created);
    }
    var file := stored.value;
    var entries := [SENTINEL];
    var offset := 0;
    ghost var read: seq<Entry> := [];
    assert file[0..] == file;
    NothingRead(Recovered(codec, file));
    while true
      invariant offset <= |file| && entries == [SENTINEL] + read
      invariant Recovered(codec, file) == Prepend(read, Recovered(codec, file[offset..]))
      invariant Consumed(codec, file) == offset + Consumed(codec, file[offset..])
      decreases |file| - offset
    {
      var r := DeserializeEntry(codec, file, offset);
      ReadingStops(codec, file[offset..]);
      match r
      case AtEnd =>
        ReadAll(codec, file, offset);
        break;
      case Corrupted =>
        if truncates {
          file := file[..offset];
        }
        break;
      case Failed => return None;
      case Got(e, size) =>
        OneMore(codec, file, offset, read, e, size);
        offset := offset + size;
        entries := entries + [e];
        read := read + [e];
    }
    var loaded := new WLog.Loaded(codec, entries, file);
    return Some(loaded);
  }

  lemma ReadAll(c: Codec, file: seq<Byte>, offset: nat)
    requires offset <= |file| && ReadEntry(c, file[offset..]).AtEnd?
    ensures offset == |file| && file[..offset] == file
  {
  }

  /** Opening a log whose last write was cut, short of the one error: the mirror of memory and file is back if and
      only if the tail is gone. Otherwise later entries are written behind it. */
  method ReopenTorn(codec: Codec, s: seq<Entry>, k: nat, j: nat, truncates: bool) returns (log: WLog)
    requires Lawful(codec) && AllFit(codec, s) && j <= |s|
    requires |Frames(codec, s[..j])| <= k <= |Frames(codec, s)|
    requires j < |s| ==> k < |Frames(codec, s[..j + 1])| && k != |Frames(codec, s[..j])| + 4
    ensures fresh(log) && log.entries == [SENTINEL] + WireAll(s[..j])
    ensures log.Valid() <==> truncates || k == |Frames(codec, s[..j])|
  {
    hide Recovered, ReadEntry, Frames, Consumed;
    TornRecovery(codec, s, k, j);
    TornConsumed(codec, s, k, j);
    var r := NewLog(codec, Some(Frames(codec, s)[..k]), truncates);
    log := r.value;
    assert log.entries[1..] == WireAll(s[..j]);
    FramesWire(codec, s[..j]);
    SplitFrames(codec, s, j);
    WiresFit(codec, s[..j]);
  }

  lemma WiresFit(c: Codec, s: seq<Entry>)
    requires Lawful(c) && AllFit(c, s)
    ensures AllFit(c, WireAll(s))
  {
  }

  lemma SplitFrames(c: Codec, s: seq<Entry>, j: nat)
    requires j <= |s|
    ensures Frames(c, s[..j]) <= Frames(c, s)
  {
    assert s == s[..j] + s[j..];
    FramesConcat(c, s[..j], s[j..]);
  }

  /** Reading a cut file gets through its complete frames. */
  lemma {:induction false} TornConsumed(c: Codec, s: seq<Entry>, k: nat, j: nat)
    requires Lawful(c) && AllFit(c, s) && j <= |s|
    requires |Frames(c, s[..j])| <= k <= |Frames(c, s)|
    requires j < |s| ==> k < |Frames(c, s[..j + 1])|
    ensures Consumed(c, Frames(c, s)[..k]) == |Frames(c, s[..j])|
  {
    hide ReadEntry, Recovered, Frames, WireAll, Consumed;
    if j == 0 {
      NothingConsumed(c, s, k);
    } else {
      TornTail(c, s, k, j);
      ConsumedTail(c, s, k);
      TornConsumed(c, s[1..], k - |Frame(c, s[0])|, j - 1);
    }
  }

  lemma NothingConsumed(c: Codec, s: seq<Entry>, k: nat)
    requires Lawful(c) && AllFit(c, s) && k <= |Frames(c, s)| && (s != [] ==> k < |Frames(c, s[..1])|)
    ensures Consumed(c, Frames(c, s)[..k]) == |Frames(c, s[..0])|
  {
    hide ReadEntry;
    if s != [] {
      assert s[..1][0] == s[0] && s[..1][1..] == [];
      assert Frames(c, s[..1]) == Frame(c, s[0]) + [];
      assert Frames(c, s)[..k] == Frame(c, s[0])[..k];
      if k > 0 {
        ReadCut(c, s[0], k);
      }
    }
    if k == 0 {
      EmptyReading(c, Frames(c, s)[..k]);
    }
  }

  lemma EmptyReading(c: Codec, bytes: seq<Byte>)
    requires bytes == []
    ensures ReadEntry(c, bytes) == AtEnd
  {
  }

  lemma ConsumedTail(c: Codec, s: seq<Entry>, k: nat)
    requires Lawful(c) && AllFit(c, s) && s != [] && |Frame(c, s[0])| <= k <= |Frames(c, s)|
    ensures Consumed(c, Frames(c, s)[..k]) == |Frame(c, s[0])| + Consumed(c, Frames(c, s[1..])[..k - |Frame(c, s[0])|])
  {
    hide ReadEntry;
    var f := Frame(c, s[0]);
    var rest := Frames(c, s[1..])[..k - |f|];
    assert Frames(c, s)[..k] == f + rest;
    ReadFrame(c, s[0], rest);
  }

  /** Closing and reopening a log gives back its entries without their status channels. */
  method Reopen(log: WLog) returns (again: WLog)
    requires log.Valid()
    ensures fresh(again) && again.Valid() && again.entries == WireAll(log.entries)
  {
    var r := NewLog(log.codec, Some(log.file), false);
    RecoverAll(log.codec, log.entries[1..]);
    again := r.value;
    assert WireAll(log.entries) == [SENTINEL] + WireAll(log.entries[1..]);
    assert again.entries[1..] == WireAll(log.entries[1..]);
    FramesWire(log.codec, log.entries[1..]);
  }
}
