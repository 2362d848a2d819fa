/**
The response tee of the proxy (internal/proxy/handler.go) and the capturing writer
in front of the client (internal/proxy/intercept/writer.go): every chunk read from
upstream goes to the client, then to the body store, then to the stream parser.
*/
module ResponseTee {
  import opened Sse

  /** What one Read of the upstream body yields. */
  type Chunk = c: Bytes | c != [] witness [LF]

  /** How a writer answers one call: it takes everything, or fails having taken `n` bytes. */
  datatype Outcome = Takes | Fails(n: nat)

  function OutcomeAt(script: seq<Outcome>, call: nat): Outcome {
    if call < |script| then script[call] else Takes
  }

  function Accepted(o: Outcome, p: Bytes): (r: Bytes)
    ensures r <= p && (o.Takes? ==> r == p)
  {
    if o.Fails? && o.n < |p| then p[..o.n] else p
  }

  /** A peer that answers its calls by a script: the client, the uploader, the parser's pipe. */
  class Sink {
    const script: seq<Outcome>
    var calls: nat
    var taken: Bytes

    constructor (script: seq<Outcome>)
      ensures this.script == script && calls == 0 && taken == []
    {
      this.script, calls, taken := script, 0, [];
    }

    method Write(p: Bytes) returns (n: nat, failed: bool)
      modifies this
      ensures calls == old(calls) + 1
      ensures n <= |p| && p[..n] == Accepted(OutcomeAt(script, old(calls)), p)
      ensures taken == old(taken) + p[..n] && failed == OutcomeAt(script, old(calls)).Fails?
    {
      var o := OutcomeAt(script, calls);
      var accepted := Accepted(o, p);
      calls, taken := calls + 1, taken + accepted;
      n, failed := |accepted|, o.Fails?;
    }
  }

  function First(limit: int, s: Bytes): Bytes
    requires limit >= 0
  {
    if |s| <= limit then s else s[..limit]
  }

  /** What the buffer and the flag are for a client that has taken `taken`. */
  ghost predicate Captured(limit: int, taken: Bytes, buf: Bytes, truncated: bool) {
    if limit > 0 then buf == First(limit, taken) && (truncated <==> |taken| > limit)
    else buf == [] && !truncated
  }

  class CapturingWriter {
    const client: Sink
    const limit: int
    var buf: Bytes
    var bytesTotal: nat
    var truncated: bool
    var statusCode: int

    ghost predicate Valid()
      reads this, client
    {
      bytesTotal == |client.taken| && Captured(limit, client.taken, buf, truncated)
    }

    constructor (client: Sink, limit: int)
      requires client.taken == []
      ensures this.client == client && this.limit == limit && Valid() && statusCode == 0
    {
      this.client, this.limit := client, limit;
      buf, bytesTotal, truncated, statusCode := [], 0, false, 0;
    }

    method Write(p: Bytes) returns (n: nat, failed: bool)
      requires Valid()
      modifies this, client
      ensures Valid() && statusCode == old(statusCode)
      ensures client.calls == old(client.calls) + 1
      ensures n <= |p| && p[..n] == Accepted(OutcomeAt(client.script, old(client.calls)), p)
      ensures client.taken == old(client.taken) + p[..n]
      ensures failed == OutcomeAt(client.script, old(client.calls)).Fails?
    {
      n, failed := client.Write(p);
      if n > 0 {
        bytesTotal := bytesTotal + n;
        if limit > 0 && |buf| < limit {
          var room := limit - |buf|;
          if n <= room {
            buf := buf + p[..n];
          } else {
            buf := buf + p[..room];
            truncated := true;
          }
        } else if limit > 0 {
          truncated := true;
        }
      }
    }

    method Snapshot() returns (body: Bytes, total: nat, cut: bool, status: int)
      requires Valid()
      ensures total == |client.taken| && status == statusCode && Captured(limit, client.taken, body, cut)
    {
      return buf, bytesTotal, truncated, statusCode;
    }
  }

  class SwallowingWriter {
    const store: Sink
    var dropped: bool

    constructor (store: Sink)
      ensures this.store == store && !dropped
    {
      this.store, dropped := store, false;
    }

    /** Never fails; after the first failure of the store it is not called again. */
    method Write(p: Bytes)
      modifies this, store
      ensures old(dropped) ==> dropped && store.taken == old(store.taken) && store.calls == old(store.calls)
      ensures !old(dropped) ==>
                var o := OutcomeAt(store.script, old(store.calls));
                dropped == o.Fails? && store.calls == old(store.calls) + 1
                && store.taken == old(store.taken) + Accepted(o, p)
    {
      if dropped {
        return;
      }
      var n, failed := store.Write(p);
      if failed {
        dropped := true;
      }
    }
  }

  // ---------- what a scripted peer ends up with ----------

  function Flat(chunks: seq<Chunk>): Bytes {
    if chunks == [] then [] else Flat(chunks[..|chunks| - 1]) + chunks[|chunks| - 1]
  }

  predicate Intact(script: seq<Outcome>, calls: nat) {
    forall i: nat | i < calls :: OutcomeAt(script, i).Takes?
  }

  /** Everything up to and into the first call that fails, and nothing after it. */
  function Delivered(script: seq<Outcome>, chunks: seq<Chunk>): Bytes {
    if chunks == [] then []
    else
      var n := |chunks| - 1;
      Delivered(script, chunks[..n]) + (if Intact(script, n) then Accepted(OutcomeAt(script, n), chunks[n]) else [])
  }

  lemma {:induction false} IntactGetsEverything(script: seq<Outcome>, chunks: seq<Chunk>)
    requires Intact(script, |chunks|)
    ensures Delivered(script, chunks) == Flat(chunks)
  {
    if chunks != [] {
      IntactGetsEverything(script, chunks[..|chunks| - 1]);
    }
  }

  lemma {:induction false} DeliveredIsPrefix(script: seq<Outcome>, chunks: seq<Chunk>)
    ensures Delivered(script, chunks) <= Flat(chunks)
  {
    if chunks != [] {
      var n := |chunks| - 1;
      if Intact(script, n) {
        IntactGetsEverything(script, chunks[..n]);
      } else {
        DeliveredIsPrefix(script, chunks[..n]);
        assert Delivered(script, chunks) == Delivered(script, chunks[..n]);
      }
    }
  }

  // ---------- the copy ----------

  /** How many chunks pass the client before one of its writes fails. */
  function Passed(client: seq<Outcome>, chunks: nat): (k: nat)
    ensures k <= chunks && Intact(client, k) && (k < chunks ==> OutcomeAt(client, k).Fails?)
  {
    if chunks == 0 then 0
    else
      var k := Passed(client, chunks - 1);
      if k < chunks - 1 || OutcomeAt(client, k).Fails? then k else chunks
  }

  /**
  io.Copy into the multi-writer. Without a client write error the client and the
  parser get exactly the upstream bytes and the store a prefix of them; whatever the
  store does, the client and the parser do not notice.
  */
  method Tee(upstream: seq<Chunk>, broken: bool, cw: CapturingWriter, sw: SwallowingWriter?, pipe: Sink?)
    returns (copyErr: bool)
    requires cw.Valid() && cw.client.taken == [] && cw.client.calls == 0
    requires sw != null ==> sw.store.taken == [] && sw.store.calls == 0 && !sw.dropped && sw.store != cw.client
    requires pipe != null ==> pipe.taken == [] && pipe.script == [] && pipe != cw.client
    requires sw != null && pipe != null ==> sw.store != pipe
    modifies cw, cw.client, sw, if sw != null then {sw.store} else {}, pipe
    ensures cw.Valid() && cw.statusCode == old(cw.statusCode)
    ensures var passed := Passed(cw.client.script, |upstream|);
            && cw.client.taken == Delivered(cw.client.script, upstream)
            && (sw != null ==> sw.store.taken == Delivered(sw.store.script, upstream[..passed]))
            && (pipe != null ==> pipe.taken == Flat(upstream[..passed]))
            && (copyErr <==> broken || passed < |upstream|)
  {
    hide Delivered, Flat, Intact, Captured;
    ghost var client := cw.client.script;
    ghost var passed := Passed(client, |upstream|);
    NothingYet(client);
    if sw != null {
      NothingYet(sw.store.script);
    }
    for i := 0 to |upstream|
      invariant i <= passed
      invariant cw.Valid() && cw.statusCode == old(cw.statusCode) && cw.client.calls == i
      invariant cw.client.taken == Delivered(client, upstream[..i])
      invariant sw != null ==> sw.store.taken == Delivered(sw.store.script, upstream[..i])
      invariant sw != null ==> (sw.dropped <==> !Intact(sw.store.script, i)) && (!sw.dropped ==> sw.store.calls == i)
      invariant pipe != null ==> pipe.taken == Flat(upstream[..i])
    {
      var p := upstream[i];
      IntactBefore(client, passed, i);
      OneMore(client, upstream, i);
      var n, failed := cw.Write(p);
      if failed {
        PassedStops(client, |upstream|, i);
        DeliveredStops(client, upstream, i);
        return true;
      }
      FailureBounds(client, |upstream|, i);
      if sw != null {
        OneMore(sw.store.script, upstream, i);
        sw.Write(p);
      }
      if pipe != null {
        var taken, refused := pipe.Write(p);
      }
    }
    assert upstream[..|upstream|] == upstream;
    copyErr := broken;
  }

  lemma NothingYet(script: seq<Outcome>)
    ensures Intact(script, 0) && Delivered(script, []) == [] && Flat([]) == []
  {
  }

  lemma OneMore(script: seq<Outcome>, chunks: seq<Chunk>, i: nat)
    requires i < |chunks|
    ensures Intact(script, i + 1) <==> Intact(script, i) && OutcomeAt(script, i).Takes?
    ensures Flat(chunks[..i + 1]) == Flat(chunks[..i]) + chunks[i]
    ensures Delivered(script, chunks[..i + 1]) ==
            Delivered(script, chunks[..i]) + (if Intact(script, i) then Accepted(OutcomeAt(script, i), chunks[i]) else [])
  {
    assert chunks[..i + 1][..i] == chunks[..i];
  }

  lemma IntactBefore(script: seq<Outcome>, passed: nat, i: nat)
    requires Intact(script, passed) && i <= passed
    ensures Intact(script, i)
  {
  }

  /** The first chunk that fails is where passing stops. */
  lemma PassedStops(client: seq<Outcome>, chunks: nat, i: nat)
    requires i < chunks && i <= Passed(client, chunks) && OutcomeAt(client, i).Fails?
    ensures Passed(client, chunks) == i
  {
  }

  lemma FailureBounds(client: seq<Outcome>, chunks: nat, i: nat)
    requires i < chunks && i <= Passed(client, chunks) && OutcomeAt(client, i).Takes?
    ensures i < Passed(client, chunks)
  {
  }

  lemma {:induction false} DeliveredStops(script: seq<Outcome>, chunks: seq<Chunk>, i: nat)
    requires i < |chunks| && OutcomeAt(script, i).Fails?
    ensures Delivered(script, chunks) == Delivered(script, chunks[..i + 1])
    decreases |chunks|
  {
    if i + 1 == |chunks| {
      assert chunks[..i + 1] == chunks;
    } else {
      var n := |chunks| - 1;
      assert !Intact(script, n);
      assert chunks[..n][..i + 1] == chunks[..i + 1];
      DeliveredStops(script, chunks[..n], i);
    }
  }

  /** The meaning of Tee's result: fidelity without a client error, and in every case the
      parser and the store never see more than the client did. */
  lemma Fidelity(client: seq<Outcome>, store: seq<Outcome>, upstream: seq<Chunk>)
    ensures var passed := Passed(client, |upstream|);
            var (seen, stored, parsed) :=
              (Delivered(client, upstream), Delivered(store, upstream[..passed]), Flat(upstream[..passed]));
            && seen <= Flat(upstream) && stored <= parsed <= seen
            && (Intact(client, |upstream|) ==> seen == parsed == Flat(upstream))
            && (Intact(client, |upstream|) && Intact(store, |upstream|) ==> stored == Flat(upstream))
  {
    var passed := Passed(client, |upstream|);
    DeliveredIsPrefix(client, upstream);
    DeliveredIsPrefix(store, upstream[..passed]);
    assert Intact(client, |upstream|) ==> passed == |upstream|;
    assert upstream[..|upstream|] == upstream;
    IntactGetsEverything(client, upstream[..passed]);
    DeliveredGrows(client, upstream, passed);
    if Intact(client, |upstream|) {
      IntactGetsEverything(client, upstream);
      if Intact(store, |upstream|) {
        IntactGetsEverything(store, upstream);
      }
    }
  }

  lemma {:induction false} DeliveredGrows(script: seq<Outcome>, chunks: seq<Chunk>, n: nat)
    requires n <= |chunks|
    ensures Delivered(script, chunks[..n]) <= Delivered(script, chunks)
    decreases |chunks|
  {
    if n == |chunks| {
      assert chunks[..n] == chunks;
    } else {
      assert chunks[..|chunks| - 1][..n] == chunks[..n];
      DeliveredGrows(script, chunks[..|chunks| - 1], n);
    }
  }

  // ---------- serving one response ----------

  datatype Status = Success | Error | Aborted(reason: Reason)
  datatype Reason = Interrupted | NothingGenerated | NoTerminalEvent

  /** The status decision at the end of serve. */
  method Verdict(streaming: bool, statusCode: int, copyErr: bool, finishReason: string, lastToken: nat)
    returns (status: Status)
    ensures status == Error <==> statusCode >= 400
    ensures status.Aborted? <==> streaming && statusCode < 400 && (copyErr || finishReason == "")
    ensures status == Aborted(Interrupted) <==> streaming && statusCode < 400 && copyErr
    ensures status == Aborted(NothingGenerated) <==>
            streaming && statusCode < 400 && !copyErr && finishReason == "" && lastToken == 0
    ensures status == Aborted(NoTerminalEvent) <==>
            streaming && statusCode < 400 && !copyErr && finishReason == "" && lastToken != 0
  {
    if statusCode >= 400 {
      status := Error;
    } else {
      status := Success;
    }
    if streaming && statusCode < 400 && copyErr {
      status := Aborted(Interrupted);
    } else if streaming && statusCode < 400 && finishReason == "" && lastToken == 0 {
      status := Aborted(NothingGenerated);
    } else if streaming && statusCode < 400 && finishReason == "" {
      status := Aborted(NoTerminalEvent);
    }
  }

  /** The middle of serve: the tees, the copy and the snapshot. A missing uploader is one
      that could not be opened. Streaming responses are not buffered. */
  method Serve(upstream: seq<Chunk>, broken: bool, streaming: bool, rawLimit: int, upstreamStatus: int,
               client: Sink, uploader: Sink?, pipe: Sink)
    returns (body: Bytes, total: nat, truncated: bool, status: int, copyErr: bool)
    requires client.taken == [] && client.calls == 0 && pipe.taken == [] && pipe.script == [] && pipe != client
    requires uploader != null ==> uploader.taken == [] && uploader.calls == 0 && uploader != client && uploader != pipe
    modifies client, uploader, pipe
    ensures client.taken <= Flat(upstream) && total == |client.taken| && status == upstreamStatus
    ensures Captured(if streaming then 0 else rawLimit, client.taken, body, truncated)
    ensures if streaming || rawLimit <= 0 then body == [] && !truncated
            else body <= client.taken && |body| == (if total > rawLimit then rawLimit else total) && (truncated <==> total > rawLimit)
    ensures copyErr <==> broken || !Intact(client.script, |upstream|)
    ensures uploader != null ==> uploader.taken == Delivered(uploader.script, upstream[..Passed(client.script, |upstream|)])
    ensures streaming ==> pipe.taken == Flat(upstream[..Passed(client.script, |upstream|)])
    ensures uploader != null ==> uploader.taken <= client.taken
    ensures streaming ==> pipe.taken <= client.taken
    ensures Intact(client.script, |upstream|) ==>
              && client.taken == Flat(upstream) && (streaming ==> pipe.taken == Flat(upstream))
              && (uploader != null && Intact(uploader.script, |upstream|) ==> uploader.taken == Flat(upstream))
              && copyErr == broken
    ensures client.taken == Delivered(client.script, upstream)
  {
    var limit := rawLimit;
    if streaming {
      limit := 0;
    }
    var cw := new CapturingWriter(client, limit);
    var sw: SwallowingWriter? := null;
    if uploader != null {
      sw := new SwallowingWriter(uploader);
    }
    copyErr := Tee(upstream, broken, cw, sw, if streaming then pipe else null);
    assert Passed(client.script, |upstream|) < |upstream| <==> !Intact(client.script, |upstream|);
    Fidelity(client.script, if uploader != null then uploader.script else [], upstream);
    body, total, truncated, status := cw.Snapshot();
    if status == 0 {
      status := upstreamStatus;
    }
  }
  /** serve from the upstream body to the status of the event. `finishReason` and `lastToken`
      are what the parser makes of its bytes. */
  method ServeToStatus(upstream: seq<Chunk>, broken: bool, streaming: bool, rawLimit: int, upstreamStatus: int,
                       client: Sink, uploader: Sink?, pipe: Sink, finishReason: string, lastToken: nat)
    returns (verdict: Status)
    requires client.taken == [] && client.calls == 0 && pipe.taken == [] && pipe.script == [] && pipe != client
    requires uploader != null ==> uploader.taken == [] && uploader.calls == 0 && uploader != client && uploader != pipe
    modifies client, uploader, pipe
    ensures verdict == Error <==> upstreamStatus >= 400
    ensures verdict == Aborted(Interrupted) <==>
            streaming && upstreamStatus < 400 && (broken || !Intact(client.script, |upstream|))
    ensures verdict == Aborted(NothingGenerated) <==>
            && streaming && upstreamStatus < 400 && !broken && Intact(client.script, |upstream|)
            && finishReason == "" && lastToken == 0
    ensures verdict == Aborted(NoTerminalEvent) <==>
            && streaming && upstreamStatus < 400 && !broken && Intact(client.script, |upstream|)
            && finishReason == "" && lastToken != 0
    ensures streaming && verdict == Success ==> client.taken == Flat(upstream) && pipe.taken == Flat(upstream)
  {
    var body, total, truncated, status, copyErr :=
      Serve(upstream, broken, streaming, rawLimit, upstreamStatus, client, uploader, pipe);
    verdict := Verdict(streaming, status, copyErr, finishReason, lastToken);
  }
}
