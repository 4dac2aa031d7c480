/** The scatter/gather integrator: the client cuts the points into chunks and encodes them, workers read
    them in fragments, parse them and sum, and the client adds the results. Sums are over the reals. */
module Integrator {
  import opened Prelude

  datatype Point = Point(x: real, y: real)

  const DOUBLE_SIZE := 8
  const POINT_SIZE := 16
  const BUFFER_SIZE := 1024

  /** The bytes of a double, left abstract. */
  datatype Codec = Codec(enc: real -> seq<Byte>, dec: seq<Byte> -> real)

  /** A number the format represents: eight bytes that decode to it again. */
  predicate Exact(c: Codec, v: real) {
    |c.enc(v)| == DOUBLE_SIZE && c.dec(c.enc(v)) == v
  }

  predicate ExactPoint(c: Codec, p: Point) {
    Exact(c, p.x) && Exact(c, p.y)
  }

  ghost predicate AllExact(c: Codec, s: seq<Point>) {
    forall k | 0 <= k < |s| :: ExactPoint(c, s[k])
  }

  // ----- the left Riemann sum

  function Cell(a: Point, b: Point): real {
    (b.x - a.x) * a.y
  }

  /** The worker's sum over adjacent pairs, from left to right. */
  function CalculateSquare(s: seq<Point>): real {
    if |s| < 2 then 0.0 else CalculateSquare(s[..|s| - 1]) + Cell(s[|s| - 2], s[|s| - 1])
  }

  lemma {:induction false} SquareConcat(a: seq<Point>, b: seq<Point>)
    requires a != [] && b != []
    ensures CalculateSquare(a + b) == CalculateSquare(a) + Cell(a[|a| - 1], b[0]) + CalculateSquare(b)
    decreases |b|
  {
    var s := a + b;
    if |b| == 1 {
      assert s[..|s| - 1] == a;
    } else {
      assert s[..|s| - 1] == a + b[..|b| - 1];
      SquareConcat(a, b[..|b| - 1]);
    }
  }

  /** The left rule for two points: the step is as high as the point it starts at. */
  lemma TwoPoints(a: Point, b: Point)
    ensures CalculateSquare([a, b]) == a.y * (b.x - a.x)
  {
    assert [a, b][..1] == [a];
  }

  /** The sum can be split at any point, which then ends one part and starts the other. */
  lemma {:induction false} SquareSplit(s: seq<Point>, k: nat)
    requires k < |s|
    ensures CalculateSquare(s) == CalculateSquare(s[..k + 1]) + CalculateSquare(s[k..])
  {
    var n := |s| - 1;
    if k == n {
      assert s[..k + 1] == s;
    } else {
      SquareSplit(s[..n], k);
      assert s[..n][..k + 1] == s[..k + 1] && s[..n][k..] == s[k..][..|s[k..]| - 1];
    }
  }

  /** The height of the last point is never used. */
  lemma LastHeightUnused(s: seq<Point>, y: real)
    requires s != []
    ensures CalculateSquare(s[|s| - 1 := Point(s[|s| - 1].x, y)]) == CalculateSquare(s)
  {
    var t := s[|s| - 1 := Point(s[|s| - 1].x, y)];
    assert t[..|s| - 1] == s[..|s| - 1];
  }

  /** A function that is constant on all points but the last is integrated exactly. */
  lemma {:induction false} ConstantHeight(s: seq<Point>, h: real)
    requires s != [] && forall k | 0 <= k < |s| - 1 :: s[k].y == h
    ensures CalculateSquare(s) == h * (s[|s| - 1].x - s[0].x)
  {
    if |s| > 1 {
      ConstantHeight(s[..|s| - 1], h);
    }
  }

  /** For points from left to right the sum lies between the rectangles of the least and the greatest height, the
      last point's height not counted. */
  lemma {:induction false} SumBetween(s: seq<Point>, low: real, high: real)
    requires s != [] && forall k | 0 <= k < |s| - 1 :: s[k].x <= s[k + 1].x && low <= s[k].y <= high
    ensures var width := s[|s| - 1].x - s[0].x; low * width <= CalculateSquare(s) <= high * width
  {
    hide Cell, CalculateSquare;
    if |s| <= 1 {
      NoCell(s);
    } else {
      var n := |s| - 1;
      SumBetween(s[..n], low, high);
      LastCell(s);
      CellBetween(s[0].x, s[n - 1].x, s[n].x, low, s[n - 1].y, high, CalculateSquare(s[..n]));
    }
  }

  lemma NoCell(s: seq<Point>)
    requires |s| <= 1
    ensures CalculateSquare(s) == 0.0
  {
  }

  lemma LastCell(s: seq<Point>)
    requires |s| > 1
    ensures var n := |s| - 1;
      CalculateSquare(s) == CalculateSquare(s[..n]) + (s[n].x - s[n - 1].x) * s[n - 1].y
  {
  }

  /** One more step, from `b` to `c` at height `y`, keeps a sum from `a` on between its bounds. */
  lemma CellBetween(a: real, b: real, c: real, low: real, y: real, high: real, sum: real)
    requires b <= c && low <= y <= high && low * (b - a) <= sum <= high * (b - a)
    ensures low * (c - a) <= sum + (c - b) * y <= high * (c - a)
  {
    assert (y - low) * (c - b) >= 0.0;
    assert (high - y) * (c - b) >= 0.0;
  }

  // ----- chunking

  /** The least number of points, but at least two, that lets all nodes together have them all. */
  function ReqSize(n: nat, numNodes: nat): (r: nat)
    requires numNodes > 0
    ensures r >= 2 && numNodes * r >= n
    ensures r > 2 ==> numNodes * (r - 1) < n
  {
    var ceil := (n + numNodes - 1) / numNodes;
    CeilIsLeast(n, numNodes);
    if ceil < 2 then 2 else ceil
  }

  lemma CeilIsLeast(n: nat, numNodes: nat)
    requires numNodes > 0
    ensures var q := (n + numNodes - 1) / numNodes; numNodes * (q - 1) < n <= numNodes * q || n == 0
    ensures var q := (n + numNodes - 1) / numNodes; q < 2 ==> numNodes * 2 >= n
  {
    var q := (n + numNodes - 1) / numNodes;
    assert numNodes * q <= n + numNodes - 1 < numNodes * q + numNodes;
    assert numNodes * (q - 1) == numNodes * q - numNodes;
    if q < 2 {
      MulMonotone(2, q, numNodes);
    }
  }

  function ChunkSize(reqSize: nat, remaining: nat): nat {
    if reqSize + 1 < remaining then reqSize else remaining
  }

  function Chunks(s: seq<Point>, reqSize: nat): seq<seq<Point>>
    requires reqSize >= 2
    decreases |s|
  {
    if s == [] then []
    else
      var k := ChunkSize(reqSize, |s|);
      [s[..k]] + Chunks(s[k..], reqSize)
  }

  function Concat(chunks: seq<seq<Point>>): seq<Point> {
    if chunks == [] then [] else chunks[0] + Concat(chunks[1..])
  }

  lemma {:induction false} ChunksConcat(s: seq<Point>, reqSize: nat)
    requires reqSize >= 2
    ensures Concat(Chunks(s, reqSize)) == s
    decreases |s|
  {
    if s != [] {
      ChunksConcat(s[ChunkSize(reqSize, |s|)..], reqSize);
    }
  }

  /** Every chunk has at least two points, and no more than reqSize + 1. */
  lemma {:induction false} ChunksBounded(s: seq<Point>, reqSize: nat)
    requires reqSize >= 2 && |s| != 1
    ensures forall k | 0 <= k < |Chunks(s, reqSize)| :: 2 <= |Chunks(s, reqSize)[k]| <= reqSize + 1
    decreases |s|
  {
    if s != [] {
      ChunksBounded(s[ChunkSize(reqSize, |s|)..], reqSize);
    }
  }

  /** Every chunk but the last is full. */
  lemma {:induction false} ChunksFull(s: seq<Point>, reqSize: nat)
    requires reqSize >= 2
    ensures forall k | 0 <= k < |Chunks(s, reqSize)| - 1 :: |Chunks(s, reqSize)[k]| == reqSize
    decreases |s|
  {
    if s != [] {
      var k := ChunkSize(reqSize, |s|);
      ChunksFull(s[k..], reqSize);
      if k == |s| {
        assert s[k..] == [];
      }
    }
  }

  lemma {:induction false} ChunksFew(s: seq<Point>, reqSize: nat)
    requires reqSize >= 2 && s != []
    ensures |Chunks(s, reqSize)| >= 1
    ensures (|Chunks(s, reqSize)| - 1) * reqSize < |s|
    decreases |s|
  {
    var k := ChunkSize(reqSize, |s|);
    if k < |s| {
      ChunksFew(s[k..], reqSize);
      var m := |Chunks(s[k..], reqSize)|;
      assert m * reqSize == (m - 1) * reqSize + reqSize;
    }
  }

  lemma MulMonotone(a: int, b: int, c: nat)
    requires a >= b
    ensures a * c >= b * c
  {
    assert (a - b) * c >= 0;
  }

  lemma MulLess(a: int, b: int, c: nat)
    requires a * c < b * c
    ensures a < b
  {
    if a >= b {
      MulMonotone(a, b, c);
    }
  }

  /** There are never more requests than nodes. */
  lemma AtMostNodes(s: seq<Point>, numNodes: nat)
    requires numNodes > 0 && s != []
    ensures |Chunks(s, ReqSize(|s|, numNodes))| <= numNodes
  {
    var r := ReqSize(|s|, numNodes);
    ChunksFew(s, r);
    MulLess(|Chunks(s, r)| - 1, numNodes, r);
  }

  // ----- the partial sums against the whole

  function Total(chunks: seq<seq<Point>>): real {
    if chunks == [] then 0.0 else Total(chunks[..|chunks| - 1]) + CalculateSquare(chunks[|chunks| - 1])
  }

  /** The cells between the last point of one chunk and the first of the next. */
  function Crossing(chunks: seq<seq<Point>>): real
    requires forall k | 0 <= k < |chunks| :: chunks[k] != []
  {
    if |chunks| < 2 then 0.0
    else
      var k := |chunks| - 1;
      Crossing(chunks[..k]) + Cell(chunks[k - 1][|chunks[k - 1]| - 1], chunks[k][0])
  }

  lemma {:induction false} ConcatSnoc(chunks: seq<seq<Point>>, last: seq<Point>)
    ensures Concat(chunks + [last]) == Concat(chunks) + last
  {
    if chunks == [] {
      assert chunks + [last] == [last];
    } else {
      assert (chunks + [last])[1..] == chunks[1..] + [last];
      ConcatSnoc(chunks[1..], last);
    }
  }

  ghost predicate NoneEmpty(chunks: seq<seq<Point>>) {
    forall k | 0 <= k < |chunks| :: chunks[k] != []
  }

  /** The end of the concatenation is the end of the last chunk. */
  lemma ConcatEnd(chunks: seq<seq<Point>>)
    requires NoneEmpty(chunks) && chunks != []
    ensures var s, last := Concat(chunks), chunks[|chunks| - 1];
      s != [] && s[|s| - 1] == last[|last| - 1]
    ensures Concat(chunks) == Concat(chunks[..|chunks| - 1]) + chunks[|chunks| - 1]
  {
    var k := |chunks| - 1;
    assert chunks == chunks[..k] + [chunks[k]];
    ConcatSnoc(chunks[..k], chunks[k]);
  }

  /** The partial sums miss exactly the cells that cross chunk boundaries. */
  lemma {:induction false} PartialSums(chunks: seq<seq<Point>>)
    requires forall k | 0 <= k < |chunks| :: chunks[k] != []
    ensures Total(chunks) + Crossing(chunks) == CalculateSquare(Concat(chunks))
  {
    hide Cell;
    if chunks != [] {
      var k := |chunks| - 1;
      var front, last := chunks[..k], chunks[k];
      PartialSums(front);
      ConcatEnd(chunks);
      if front == [] {
        assert Concat(chunks) == last;
      } else {
        ConcatEnd(front);
        SquareConcat(Concat(front), last);
      }
    }
  }

  // ----- encoding

  /** The big-endian 8-byte point count. */
  function Count64(n: nat, width: nat): (h: seq<Byte>)
    ensures |h| == width
  {
    if width == 0 then [] else Count64(n / 256, width - 1) + [n % 256]
  }

  function Count64Value(h: seq<Byte>): nat {
    if h == [] then 0 else
      var low: int := h[|h| - 1];
      256 * Count64Value(h[..|h| - 1]) + low
  }

  function Pow256(width: nat): (p: nat)
    ensures p > 0
  {
    if width == 0 then 1 else 256 * Pow256(width - 1)
  }

  lemma {:induction false} CountRoundTrip(n: nat, width: nat)
    requires n < Pow256(width)
    ensures Count64Value(Count64(n, width)) == n
  {
    if width > 0 {
      CountRoundTrip(n / 256, width - 1);
      assert Count64(n, width)[..width - 1] == Count64(n / 256, width - 1);
    }
  }

  /** The most significant byte comes first. */
  lemma {:induction false} CountBytes(n: nat, width: nat, k: nat)
    requires k < width
    ensures Count64(n, width)[k] == n / Pow256(width - 1 - k) % 256
  {
    if k == width - 1 {
      assert n / 1 == n;
    } else {
      CountBytes(n / 256, width - 1, k);
      DivDiv(n, Pow256(width - 2 - k));
    }
  }

  lemma DivDiv(n: nat, m: nat)
    requires m > 0
    ensures n / 256 / m == n / (256 * m)
  {
    var a := n / 256;
    var q := a / m;
    assert a == m * q + a % m && n == 256 * a + n % 256;
    var r := 256 * (a % m) + n % 256;
    assert n == 256 * (m * q) + r;
    assert 256 * (m * q) == (256 * m) * q;
    assert 0 <= r < 256 * m;
    Quotient(n, 256 * m, q, r);
  }

  lemma Quotient(n: nat, d: nat, q: nat, r: nat)
    requires n == d * q + r && r < d
    ensures n / d == q
  {
    var p := n / d;
    assert n == d * p + n % d;
    assert (p + 1) * d == d * p + d && (q + 1) * d == d * q + d;
    if p < q {
      MulMonotone(q, p + 1, d);
    } else if p > q {
      MulMonotone(p, q + 1, d);
    }
  }

  function EncodePoints(c: Codec, s: seq<Point>): seq<Byte> {
    if s == [] then []
    else EncodePoints(c, s[..|s| - 1]) + c.enc(s[|s| - 1].x) + c.enc(s[|s| - 1].y)
  }

  /** Point by point, first x and then y, eight bytes each. */
  lemma {:induction false} PointBytes(c: Codec, s: seq<Point>, k: nat)
    requires AllExact(c, s) && k < |s|
    ensures |EncodePoints(c, s)| == POINT_SIZE * |s|
    ensures var at := POINT_SIZE * k;
      && EncodePoints(c, s)[at..at + DOUBLE_SIZE] == c.enc(s[k].x)
      && EncodePoints(c, s)[at + DOUBLE_SIZE..at + POINT_SIZE] == c.enc(s[k].y)
  {
    var n := |s| - 1;
    assert ExactPoint(c, s[n]);
    var front, at := EncodePoints(c, s[..n]), POINT_SIZE * k;
    var e := EncodePoints(c, s);
    assert e == front + c.enc(s[n].x) + c.enc(s[n].y);
    if k < n {
      PointBytes(c, s[..n], k);
      assert e[..|front|] == front;
      assert e[at..at + DOUBLE_SIZE] == front[at..at + DOUBLE_SIZE];
      assert e[at + DOUBLE_SIZE..at + POINT_SIZE] == front[at + DOUBLE_SIZE..at + POINT_SIZE];
    } else if n > 0 {
      PointBytes(c, s[..n], n - 1);
    }
  }

  function Encode(c: Codec, s: seq<Point>): seq<Byte> {
    Count64(|s|, 8) + EncodePoints(c, s)
  }

  function Requests(c: Codec, chunks: seq<seq<Point>>): (r: seq<seq<Byte>>)
    ensures |r| == |chunks|
    ensures forall k | 0 <= k < |chunks| :: r[k] == Encode(c, chunks[k])
  {
    seq(|chunks|, k requires 0 <= k < |chunks| => Encode(c, chunks[k]))
  }

  method EncodeRequest(c: Codec, chunk: seq<Point>) returns (request: seq<Byte>)
    ensures request == Encode(c, chunk)
  {
    request := Count64(|chunk|, 8);
    for i := 0 to |chunk|
      invariant request == Count64(|chunk|, 8) + EncodePoints(c, chunk[..i])
    {
      assert chunk[..i + 1][..i] == chunk[..i];
      request := request + c.enc(chunk[i].x) + c.enc(chunk[i].y);
    }
    assert chunk[..|chunk|] == chunk;
  }

  lemma RequestsSnoc(c: Codec, done: seq<seq<Point>>, chunk: seq<Point>)
    ensures Requests(c, done + [chunk]) == Requests(c, done) + [Encode(c, chunk)]
  {
    hide Encode;
    var a, b := Requests(c, done + [chunk]), Requests(c, done) + [Encode(c, chunk)];
    forall k | 0 <= k < |a| ensures a[k] == b[k] {
    }
  }

  lemma NextChunk(done: seq<seq<Point>>, rest: seq<Point>, reqSize: nat)
    requires reqSize >= 2 && rest != []
    ensures var k := ChunkSize(reqSize, |rest|);
      done + Chunks(rest, reqSize) == done + [rest[..k]] + Chunks(rest[k..], reqSize)
  {
    var k := ChunkSize(reqSize, |rest|);
    assert done + ([rest[..k]] + Chunks(rest[k..], reqSize)) == done + [rest[..k]] + Chunks(rest[k..], reqSize);
  }

  method PrepareRequests(c: Codec, points: seq<Point>, numNodes: nat) returns (result: seq<seq<Byte>>)
    requires numNodes > 0 && |points| >= 2
    ensures result == Requests(c, Chunks(points, ReqSize(|points|, numNodes)))
  {
    var reqSize := ReqSize(|points|, numNodes);
    var rest := points;
    result := [];
    ghost var done: seq<seq<Point>> := [];
    while rest != []
      invariant Chunks(points, reqSize) == done + Chunks(rest, reqSize)
      invariant result == Requests(c, done)
      decreases |rest|
    {
      var numPoints := if reqSize + 1 < |rest| then reqSize else |rest|;
      var chunk := rest[..numPoints];
      var request := EncodeRequest(c, chunk);
      NextChunk(done, rest, reqSize);
      RequestsSnoc(c, done, chunk);
      done := done + [chunk];
      rest := rest[numPoints..];
      result := result + [request];
    }
  }

  // ----- the worker

  /** Bytes to doubles to points; the input must be whole points. */
  function Parse(c: Codec, input: seq<Byte>): seq<Point>
    requires |input| % POINT_SIZE == 0
    decreases |input|
  {
    if input == [] then []
    else
      var k := |input| - POINT_SIZE;
      Parse(c, input[..k]) + [Point(c.dec(input[k..k + DOUBLE_SIZE]), c.dec(input[k + DOUBLE_SIZE..]))]
  }

  lemma {:induction false} ParseRoundTrip(c: Codec, s: seq<Point>)
    requires AllExact(c, s)
    ensures |EncodePoints(c, s)| == POINT_SIZE * |s|
    ensures Parse(c, EncodePoints(c, s)) == s
  {
    if s != [] {
      var n := |s| - 1;
      ParseRoundTrip(c, s[..n]);
      assert ExactPoint(c, s[n]);
      var e := EncodePoints(c, s);
      var k := |e| - POINT_SIZE;
      assert e[..k] == EncodePoints(c, s[..n]);
      assert e[k..k + DOUBLE_SIZE] == c.enc(s[n].x) && e[k + DOUBLE_SIZE..] == c.enc(s[n].y);
    }
  }

  function Flatten(parts: seq<seq<Byte>>): seq<Byte> {
    if parts == [] then [] else Flatten(parts[..|parts| - 1]) + parts[|parts| - 1]
  }

  lemma {:induction false} FlattenPrefix(parts: seq<seq<Byte>>, k: nat)
    requires k <= |parts|
    ensures Flatten(parts[..k]) <= Flatten(parts)
  {
    if k == |parts| {
      assert parts[..k] == parts;
    } else {
      var n := |parts| - 1;
      assert parts[..n][..k] == parts[..k];
      FlattenPrefix(parts[..n], k);
    }
  }

  /** The read loop stops after `k` reads: at the announced size, at an empty read, or when nothing more arrives, and
      at none of these before. */
  ghost predicate StopsAfter(parts: seq<seq<Byte>>, size: nat, k: nat) {
    && k <= |parts| && (forall x | 0 <= x < k :: parts[x] != [])
    && (forall x | 0 < x < k :: |Flatten(parts[..x])| != POINT_SIZE * size)
    && (k == |parts| || parts[k] == [] || (k > 0 && |Flatten(parts[..k])| == POINT_SIZE * size))
  }

  lemma FlattenSnoc(parts: seq<seq<Byte>>, k: nat)
    requires k < |parts|
    ensures Flatten(parts[..k + 1]) == Flatten(parts[..k]) + parts[k]
  {
    assert parts[..k + 1][..k] == parts[..k];
  }

  /** The read loop: `parts` are the results of successive reads, an empty one being end of file or an error. */
  method ReadBody(size: nat, parts: seq<seq<Byte>>) returns (input: seq<Byte>)
    requires forall k | 0 <= k < |parts| :: |parts[k]| <= BUFFER_SIZE
    ensures exists k: nat :: StopsAfter(parts, size, k) && input == Flatten(parts[..k])
    ensures (forall k | 0 <= k < |parts| :: parts[k] != []) && |Flatten(parts)| == POINT_SIZE * size ==>
      input == Flatten(parts)
  {
    hide Flatten;
    input := [];
    var i := 0;
    assert Flatten(parts[..0]) == [] by { NothingFlat(parts[..0]); }
    while i < |parts| && parts[i] != []
      invariant i <= |parts| && input == Flatten(parts[..i])
      invariant forall x | 0 <= x < i :: parts[x] != []
      invariant forall x | 0 < x <= i :: |Flatten(parts[..x])| != POINT_SIZE * size
      decreases |parts| - i
    {
      FlattenSnoc(parts, i);
      input := input + parts[i];
      i := i + 1;
      FlattenPrefix(parts, i);
      if |input| == POINT_SIZE * size {
        assert StopsAfter(parts, size, i);
        return;
      }
    }
    assert parts[..|parts|] == parts;
    assert StopsAfter(parts, size, i);
  }

  lemma NothingFlat(parts: seq<seq<Byte>>)
    requires parts == []
    ensures Flatten(parts) == []
  {
  }

  /** The write loop; `counts` says how many bytes successive writes take, 0 being an error. */
  method WriteOut(out: seq<Byte>, counts: seq<nat>) returns (sent: seq<Byte>)
    ensures sent <= out
    ensures (forall k | 0 <= k < |counts| :: counts[k] > 0) && |counts| >= |out| ==> sent == out
  {
    var rest := out;
    sent := [];
    var i := 0;
    while rest != [] && i < |counts|
      invariant i <= |counts| && sent + rest == out
      invariant (forall k | 0 <= k < |counts| :: counts[k] > 0) ==> |sent| >= i || rest == []
      decreases |counts| - i
    {
      var n := if counts[i] < |rest| then counts[i] else |rest|;
      if n == 0 {
        return;
      }
      sent := sent + rest[..n];
      rest := rest[n..];
      i := i + 1;
    }
  }

  /** One connection: the announced count in one 8-byte read, then the body in fragments, then the reply. None
      if the header read is short. What the parser does with a body that is cut inside a point is undefined,
      so the reply then is any. */
  method HandleClient(c: Codec, header: seq<Byte>, parts: seq<seq<Byte>>) returns (reply: Option<seq<Byte>>)
    requires forall k | 0 <= k < |parts| :: |parts[k]| <= BUFFER_SIZE
    ensures Handled(c, header, parts, reply)
  {
    hide CalculateSquare, Parse, EncodePoints, Count64Value, Flatten;
    if |header| != 8 {
      return None;
    }
    var size := Count64Value(header);
    var input := ReadBody(size, parts);
    forall s: seq<Point> | Delivers(c, s, header, parts)
      ensures input == EncodePoints(c, s) && |input| % POINT_SIZE == 0 && Parse(c, input) == s
    {
      Delivered(c, s, header, parts);
    }
    if |input| % POINT_SIZE != 0 {
      reply := *;
      return;
    }
    var points := Parse(c, input);
    return Some(c.enc(CalculateSquare(points)));
  }

  /** What a worker promises: a complete request is answered with its sum, a short header with nothing. */
  ghost predicate Handled(c: Codec, header: seq<Byte>, parts: seq<seq<Byte>>, reply: Option<seq<Byte>>) {
    && (|header| != 8 ==> reply.None?)
    && forall s: seq<Point> :: Delivers(c, s, header, parts) ==> reply == Some(c.enc(CalculateSquare(s)))
  }

  /** The bytes of the request for `s` arrive: its header in one read, its body in non-empty fragments. */
  ghost predicate Delivers(c: Codec, s: seq<Point>, header: seq<Byte>, parts: seq<seq<Byte>>) {
    && AllExact(c, s) && |s| < 0x1_0000_0000_0000_0000
    && header == Encode(c, s)[..8]
    && (forall k | 0 <= k < |parts| :: parts[k] != [])
    && Flatten(parts) == Encode(c, s)[8..]
  }

  /** The header announces what the fragments bring, and that parses to the points. */
  lemma Delivered(c: Codec, s: seq<Point>, header: seq<Byte>, parts: seq<seq<Byte>>)
    requires Delivers(c, s, header, parts)
    ensures |header| == 8 && |Flatten(parts)| == POINT_SIZE * Count64Value(header)
    ensures forall k | 0 <= k < |parts| :: parts[k] != []
    ensures Flatten(parts) == EncodePoints(c, s) && |Flatten(parts)| % POINT_SIZE == 0 && Parse(c, Flatten(parts)) == s
  {
    hide Flatten, Parse, EncodePoints, Count64Value, Count64, Pow256;
    CountLimit();
    CountRoundTrip(|s|, 8);
    ParseRoundTrip(c, s);
    var e := Encode(c, s);
    assert e[..8] == Count64(|s|, 8) && e[8..] == EncodePoints(c, s);
  }

  lemma CountLimit()
    ensures Pow256(8) == 0x1_0000_0000_0000_0000
  {
    assert Pow256(4) == 0x1_0000_0000;
  }

  // ----- gathering

  /** The client's addition of the replies, in request order. */
  function SumReplies(c: Codec, replies: seq<seq<Byte>>): real {
    if replies == [] then 0.0 else SumReplies(c, replies[..|replies| - 1]) + c.dec(replies[|replies| - 1])
  }

  lemma {:induction false} RepliesAddUp(c: Codec, chunks: seq<seq<Point>>, replies: seq<seq<Byte>>)
    requires |replies| == |chunks|
    requires forall k | 0 <= k < |chunks| ::
      Exact(c, CalculateSquare(chunks[k])) && replies[k] == c.enc(CalculateSquare(chunks[k]))
    ensures SumReplies(c, replies) == Total(chunks)
  {
    if chunks != [] {
      var k := |chunks| - 1;
      RepliesAddUp(c, chunks[..k], replies[..k]);
      assert Exact(c, CalculateSquare(chunks[k]));
    }
  }

  lemma {:induction false} ChunkExact(c: Codec, s: seq<Point>, reqSize: nat, k: nat)
    requires reqSize >= 2 && AllExact(c, s) && k < |Chunks(s, reqSize)|
    ensures AllExact(c, Chunks(s, reqSize)[k]) && |Chunks(s, reqSize)[k]| <= |s|
    decreases |s|
  {
    if k > 0 {
      ChunkExact(c, s[ChunkSize(reqSize, |s|)..], reqSize, k - 1);
    }
  }

  /** The result is the full sum exactly when the cells between chunks add up to zero, in particular
      when there is only one chunk; and that is so exactly when there are at most reqSize + 1 points. */
  lemma OneChunkIff(s: seq<Point>, reqSize: nat)
    requires reqSize >= 2 && |s| >= 2
    ensures |Chunks(s, reqSize)| == 1 <==> |s| <= reqSize + 1
    ensures |Chunks(s, reqSize)| == 1 ==> Chunks(s, reqSize) == [s]
  {
    var k := ChunkSize(reqSize, |s|);
    if k < |s| {
      ChunksFew(s[k..], reqSize);
    } else {
      assert s[k..] == [] && s[..k] == s;
    }
  }
}
