/** The parts of a trace event and its timeline that the provider parsers write
    (internal/proxy/stream/types.go). */
module TraceEvent {

  /** A clock reading; 0 is Go's zero time. */
  type Instant = nat

  datatype Fields = Fields(
    model: string,
    finishReason: string,
    responseText: string,
    chunkCount: nat,
    input: int,
    output: int,
    total: int,
    reasoning: int,
    cached: int,
    cacheCreation: int,
    estimated: bool)

  /** A fresh event: what the proxy fills in before parsing is the requested model. */
  function Fresh(model: string): Fields {
    Fields(model, "", "", 0, 0, 0, 0, 0, 0, 0, false)
  }

  /** A parser that was told no usage leaves all of it alone. */
  predicate UsageUntouched(before: Fields, after: Fields) {
    && after.input == before.input && after.output == before.output && after.total == before.total
    && after.reasoning == before.reasoning && after.cached == before.cached
    && after.cacheCreation == before.cacheCreation && after.estimated == before.estimated
  }

  class Event {
    var fields: Fields

    constructor (fields: Fields)
      ensures this.fields == fields
    {
      this.fields := fields;
    }
  }

  class Timeline {
    var firstToken: Instant
    var lastToken: Instant

    constructor ()
      ensures firstToken == 0 && lastToken == 0
    {
      firstToken, lastToken := 0, 0;
    }

    /** markGenerated: the first generated token and every later one. */
    method MarkGenerated(now: Instant)
      modifies this
      ensures (firstToken, lastToken) == Marked((old(firstToken), old(lastToken)), now, true)
    {
      if firstToken == 0 {
        firstToken := now;
      }
      lastToken := now;
    }
  }

  function Marked(marks: (Instant, Instant), now: Instant, generated: bool): (Instant, Instant) {
    if !generated then marks else (if marks.0 == 0 then now else marks.0, now)
  }

  lemma NotMarked(marks: (Instant, Instant), now: Instant)
    ensures Marked(marks, now, false) == marks
  {
  }

  /** Timeline marks after a stream of chunks, each with its arrival time and whether it
      carried generated content. */
  function MarksAfter(chunks: seq<(Instant, bool)>): (Instant, Instant) {
    if chunks == [] then (0, 0)
    else Marked(MarksAfter(chunks[..|chunks| - 1]), chunks[|chunks| - 1].0, chunks[|chunks| - 1].1)
  }

  predicate Silent(chunks: seq<(Instant, bool)>) {
    forall i | 0 <= i < |chunks| :: !chunks[i].1
  }

  /** The first chunk that generated anything arrived at `t`. */
  predicate FirstAt(chunks: seq<(Instant, bool)>, t: Instant) {
    exists i | 0 <= i < |chunks| :: chunks[i] == (t, true) && Silent(chunks[..i])
  }

  predicate LastAt(chunks: seq<(Instant, bool)>, t: Instant) {
    exists i | 0 <= i < |chunks| :: chunks[i] == (t, true) && Silent(chunks[i + 1..])
  }

  /** FirstToken and LastToken are the arrival times of the first and the last chunk that
      generated anything, and zero exactly when none did. */
  lemma {:induction false} MarksAreFirstAndLast(chunks: seq<(Instant, bool)>)
    requires forall i | 0 <= i < |chunks| :: chunks[i].0 > 0
    ensures var (first, last) := MarksAfter(chunks);
            if Silent(chunks) then first == 0 && last == 0
            else first > 0 && last > 0 && FirstAt(chunks, first) && LastAt(chunks, last)
  {
    if chunks != [] {
      var n := |chunks| - 1;
      MarksAreFirstAndLast(chunks[..n]);
      FirstExtends(chunks);
      LastExtends(chunks);
    }
  }

  lemma FirstExtends(chunks: seq<(Instant, bool)>)
    requires chunks != []
    ensures var init, last := chunks[..|chunks| - 1], chunks[|chunks| - 1];
            && (Silent(chunks) <==> Silent(init) && !last.1)
            && (Silent(init) && last.1 ==> FirstAt(chunks, last.0))
            && (forall t: Instant | FirstAt(init, t) :: FirstAt(chunks, t))
  {
    var n := |chunks| - 1;
    var init := chunks[..n];
    assert Silent(chunks) ==> Silent(init) by {
      assert forall i | 0 <= i < n :: init[i] == chunks[i];
    }
    assert Silent(init) && !chunks[n].1 ==> Silent(chunks) by {
      assert forall i | 0 <= i < n :: init[i] == chunks[i];
    }
    if Silent(init) && chunks[n].1 {
      assert chunks[n] == (chunks[n].0, true);
    }
    forall t: Instant | FirstAt(init, t) ensures FirstAt(chunks, t) {
      var i :| 0 <= i < |init| && init[i] == (t, true) && Silent(init[..i]);
      assert init[..i] == chunks[..i] && chunks[i] == init[i];
    }
  }

  lemma LastExtends(chunks: seq<(Instant, bool)>)
    requires chunks != []
    ensures var init, last := chunks[..|chunks| - 1], chunks[|chunks| - 1];
            && (last.1 ==> LastAt(chunks, last.0))
            && (!last.1 ==> forall t: Instant | LastAt(init, t) :: LastAt(chunks, t))
  {
    var n := |chunks| - 1;
    var init := chunks[..n];
    if chunks[n].1 {
      assert chunks[n] == (chunks[n].0, true) && chunks[n + 1..] == [];
    } else {
      forall t: Instant | LastAt(init, t) ensures LastAt(chunks, t) {
        var i :| 0 <= i < |init| && init[i] == (t, true) && Silent(init[i + 1..]);
        assert chunks[i + 1..] == init[i + 1..] + [chunks[n]] && chunks[i] == init[i];
      }
    }
  }
}
