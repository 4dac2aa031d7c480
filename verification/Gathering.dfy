/** The client's calculation through the retrying request sender: what happened on failed connections does not
    matter. */
module Gathering {
  import opened Prelude
  import opened Integrator
  import opened SocketSet
  import opened RequestSender

  const MAX_UNUPDATED := 5

  /** A worker's run at the other end of a connection: of what was sent it read the header and, in fragments, as many
      bytes as the header announces, and its whole answer arrived. */
  ghost predicate WorkerRun(c: Codec, header: seq<Byte>, parts: seq<seq<Byte>>, reply: Option<seq<Byte>>,
                            sent: seq<Byte>, got: seq<Byte>)
  {
    && |header| == 8 && (forall x | 0 <= x < |parts| :: 0 < |parts[x]| <= BUFFER_SIZE)
    && header + Flatten(parts) <= sent && |Flatten(parts)| == POINT_SIZE * Count64Value(header)
    && Handled(c, header, parts, reply) && reply == Some(got)
  }

  /** Every connection that the other side ended was served by a worker. */
  ghost predicate Served(c: Codec, owner: seq<nat>, wire: seq<Io>) {
    forall k | 0 <= k < |owner| && Ended(wire, k) ::
      exists header, parts, reply :: WorkerRun(c, header, parts, reply, SentOn(wire, k), GotOn(wire, k))
  }

  /** What a worker makes of a beginning of a request is the answer to that request: the request was complete. */
  lemma WorkerAnswers(c: Codec, s: seq<Point>, header: seq<Byte>, parts: seq<seq<Byte>>, reply: Option<seq<Byte>>,
                      sent: seq<Byte>, got: seq<Byte>)
    requires AllExact(c, s) && |s| < 0x1_0000_0000_0000_0000 && sent <= Encode(c, s)
    requires WorkerRun(c, header, parts, reply, sent, got)
    ensures got == c.enc(CalculateSquare(s))
  {
    hide CalculateSquare, EncodePoints, Count64Value, Flatten, Handled, Count64, AllExact;
    CountLimit();
    CountRoundTrip(|s|, 8);
    ParseRoundTrip(c, s);
    var e, body := Encode(c, s), Flatten(parts);
    assert header == e[..8] == Count64(|s|, 8);
    assert |body| == |e[8..]|;
    assert body == e[8..8 + |body|] == e[8..];
    assert Delivers(c, s, header, parts);
    HandledWhole(c, s, header, parts, reply);
  }

  lemma HandledWhole(c: Codec, s: seq<Point>, header: seq<Byte>, parts: seq<seq<Byte>>, reply: Option<seq<Byte>>)
    requires Handled(c, header, parts, reply) && Delivers(c, s, header, parts)
    ensures reply == Some(c.enc(CalculateSquare(s)))
  {
  }

  lemma ResultsServed(c: Codec, chunks: seq<seq<Point>>, results: seq<seq<Byte>>, owner: seq<nat>, won: seq<nat>,
                      wire: seq<Io>)
    requires Answered(Requests(c, chunks), results, owner, won, wire) && Served(c, owner, wire)
    requires forall k | 0 <= k < |chunks| :: AllExact(c, chunks[k]) && |chunks[k]| < 0x1_0000_0000_0000_0000
    ensures |results| == |chunks|
    ensures forall k | 0 <= k < |chunks| :: results[k] == c.enc(CalculateSquare(chunks[k]))
  {
    hide CalculateSquare, GotOn, SentOn, Encode, WorkerRun, AllExact;
    forall k | 0 <= k < |chunks| ensures results[k] == c.enc(CalculateSquare(chunks[k])) {
      assert Ended(wire, won[k]);
      var header, parts, reply :| WorkerRun(c, header, parts, reply, SentOn(wire, won[k]), GotOn(wire, won[k]));
      WorkerAnswers(c, chunks[k], header, parts, reply, SentOn(wire, won[k]), GotOn(wire, won[k]));
    }
  }

  /** Adding up the answers; None, an assertion that fires, if one is not a double. */
  method AddUp(c: Codec, results: seq<seq<Byte>>) returns (sum: Option<real>)
    ensures sum.Some? <==> forall k | 0 <= k < |results| :: |results[k]| == DOUBLE_SIZE
    ensures sum.Some? ==> sum.value == SumReplies(c, results)
  {
    var total := 0.0;
    for i := 0 to |results|
      invariant total == SumReplies(c, results[..i])
      invariant forall k | 0 <= k < i :: |results[k]| == DOUBLE_SIZE
    {
      if |results[i]| != DOUBLE_SIZE {
        return None;
      }
      assert results[..i + 1][..i] == results[..i];
      total := total + c.dec(results[i]);
    }
    assert results[..|results|] == results;
    return Some(total);
  }

  /** End to end with retries: when the requests are done, the result is the full left Riemann sum minus exactly
      the cells that cross chunk boundaries, if workers served the connections that ended, whatever arrived on those
      that failed.
      `addrsRef` is the shared address list, whose length at the start is the number of chunks aimed at. */
  method Calc(c: Codec, points: seq<Point>, addrsRef: nat -> seq<nat>, turns: seq<Turn>)
    returns (sum: Option<real>, outcome: Outcome, ghost owner: seq<nat>, ghost wire: seq<Io>)
    requires addrsRef(0) != [] && |points| >= 2
    ensures var chunks := Chunks(points, ReqSize(|points|, |addrsRef(0)|));
      && (forall k | 0 <= k < |chunks| :: |chunks[k]| >= 2)
      && (outcome.Done? && Served(c, owner, wire) && AllExact(c, points) && |points| < 0x1_0000_0000_0000_0000
          && (forall k | 0 <= k < |chunks| :: Exact(c, CalculateSquare(chunks[k]))) ==>
            sum == Some(CalculateSquare(points) - Crossing(chunks)))
    ensures sum.Some? ==> outcome.Done?
  {
    hide CalculateSquare, Encode, Chunks, SumReplies, Total, Crossing, GotOn, SentOn, Answered, Served, AllExact;
    var numNodes := |addrsRef(0)|;
    ghost var chunks := Chunks(points, ReqSize(|points|, numNodes));
    ChunksBounded(points, ReqSize(|points|, numNodes));
    ChunksConcat(points, ReqSize(|points|, numNodes));
    var requests := PrepareRequests(c, points, numNodes);
    var sender := new TRequestSender(looks => addrsRef(looks + 1), MAX_UNUPDATED);
    ghost var won;
    ghost var target;
    outcome, owner, target, won, wire := sender.SendRequests(requests, turns);
    if !outcome.Done? {
      return None, outcome, owner, wire;
    }
    sum := AddUp(c, outcome.results);
    if Served(c, owner, wire) && AllExact(c, points) && |points| < 0x1_0000_0000_0000_0000
       && forall k | 0 <= k < |chunks| :: Exact(c, CalculateSquare(chunks[k]))
    {
      forall k | 0 <= k < |chunks| ensures AllExact(c, chunks[k]) && |chunks[k]| <= |points| {
        ChunkExact(c, points, ReqSize(|points|, numNodes), k);
      }
      ResultsServed(c, chunks, outcome.results, owner, won, wire);
      RepliesAddUp(c, chunks, outcome.results);
      PartialSums(chunks);
    }
  }
}
