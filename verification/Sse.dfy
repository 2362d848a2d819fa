/**
The SSE scanner of pkg/sse/sse.go: a stateful reader of event blocks in the
format of sections 9.2.5 and 9.2.6 of the WHATWG HTML Living Standard, with the
source's own deviations (a lone CR does not end a line, a blank line always
yields an event, a block still open at the end is returned).
*/
module Sse {
  import opened Wrappers

  newtype byte = x: int | 0 <= x < 256

  type Bytes = seq<byte>

  const LF: byte := 10
  const CR: byte := 13
  const SPACE: byte := 32
  const COLON: byte := 58
  const ID: Bytes := [105, 100]
  const EVENT: Bytes := [101, 118, 101, 110, 116]
  const DATA: Bytes := [100, 97, 116, 97]

  datatype ReadError = EOF | Broken

  datatype Event = Event(id: Bytes, event: Bytes, data: Bytes, raw: Bytes)

  /** The local variables of Next: a block being read. */
  datatype Block = Block(id: Bytes, event: Bytes, data: Bytes, hasData: bool, raw: Bytes)

  const EMPTY: Block := Block([], [], [], false, [])

  /** Length of what bufio.Reader.ReadBytes('\n') returns: through the first LF, or everything. */
  function LineLength(s: Bytes): (n: nat)
    ensures n <= |s| && (s != [] ==> n > 0)
    ensures forall j | 0 <= j < n - 1 :: s[j] != LF
    ensures n < |s| ==> s[n - 1] == LF
  {
    if s == [] then 0 else if s[0] == LF then 1 else 1 + LineLength(s[1..])
  }

  predicate Ended(s: Bytes) {
    LF !in s
  }

  /** bytes.TrimRight(line, "\r\n") */
  function Trim(line: Bytes): (t: Bytes)
    ensures t <= line
  {
    if line != [] && (line[|line| - 1] == LF || line[|line| - 1] == CR) then Trim(line[..|line| - 1]) else line
  }

  function ColonAt(line: Bytes): (i: nat)
    ensures i <= |line| && COLON !in line[..i] && (i < |line| ==> line[i] == COLON)
  {
    if line == [] || line[0] == COLON then 0 else 1 + ColonAt(line[1..])
  }

  /** Field and value: split at the first colon, one leading space of the value dropped. */
  function SplitField(line: Bytes): (Bytes, Bytes) {
    var i := ColonAt(line);
    if i == |line| then (line, [])
    else
      var value := line[i + 1..];
      (line[..i], if value != [] && value[0] == SPACE then value[1..] else value)
  }

  predicate IsComment(trimmed: Bytes) {
    trimmed != [] && trimmed[0] == COLON
  }

  function WithField(b: Block, field: Bytes, value: Bytes): Block {
    if field == ID then b.(id := value)
    else if field == EVENT then b.(event := value)
    else if field == DATA then b.(data := b.data + value + [LF], hasData := true)
    else b
  }

  /** What one non-blank line does to the block, apart from raw. */
  function Absorb(b: Block, trimmed: Bytes): Block {
    if IsComment(trimmed) then b
    else
      var (field, value) := SplitField(trimmed);
      WithField(b, field, value)
  }

  /** The block as returned at a blank line: data without its final LF, and raw. */
  function Finish(b: Block): Event {
    Event(b.id, b.event,
          if b.hasData && b.data != [] && b.data[|b.data| - 1] == LF then b.data[..|b.data| - 1]
          else if b.hasData then b.data else [], b.raw)
  }

  /** What one call of Next returns, and the scanner it leaves. */
  datatype Outcome = Outcome(ev: Option<Event>, err: Option<ReadError>, rest: Bytes, stop: Option<ReadError>)

  function ScanFrom(rest: Bytes, final: ReadError, b: Block, stop: Option<ReadError>): Outcome
    decreases |rest|
  {
    var n := LineLength(rest);
    var line, rest' := rest[..n], rest[n..];
    var raw := b.raw + line;
    if Ended(line) && raw == [] then Outcome(None, Some(final), [], Some(final))
    else
      var stop' := if Ended(line) then Some(final) else stop;
      var trimmed := Trim(line);
      if trimmed == [] then Outcome(Some(Finish(b.(raw := raw))), None, rest', stop')
      else
        var b' := Absorb(b, trimmed).(raw := raw);
        if !IsComment(trimmed) && stop'.Some? then
          Outcome(Some(Event(b'.id, b'.event, [], [])), stop', rest', stop')
        else ScanFrom(rest', final, b', stop')
  }

  function ScanNext(rest: Bytes, final: ReadError, stop: Option<ReadError>): Outcome {
    if stop.Some? then Outcome(None, stop, rest, stop) else ScanFrom(rest, final, EMPTY, None)
  }

  /** The source's object; `rest` is what its reader has yet to deliver before failing
      with `final`. */
  class Scanner {
    var rest: Bytes
    var err: Option<ReadError>
    const final: ReadError

    constructor (input: Bytes, final: ReadError)
      ensures rest == input && err == None && this.final == final
    {
      rest, err, this.final := input, None, final;
    }

    method ReadBytes() returns (line: Bytes, failed: bool)
      modifies `rest
      ensures line == old(rest)[..LineLength(old(rest))] && rest == old(rest)[LineLength(old(rest))..]
      ensures failed == Ended(line) && (failed ==> rest == [])
    {
      var i := 0;
      while i < |rest| && (i == 0 || rest[i - 1] != LF)
        invariant 0 <= i <= |rest|
        invariant LineLength(rest) == if i > 0 && rest[i - 1] == LF then i else i + LineLength(rest[i..])
        invariant forall j | 0 <= j < i - 1 :: rest[j] != LF
      {
        assert rest[i..][1..] == rest[i + 1..];
        i := i + 1;
      }
      assert i == LineLength(rest);
      failed := i == 0 || rest[i - 1] != LF;
      line, rest := rest[..i], rest[i..];
      assert !failed ==> line[i - 1] == LF;
    }

    method Next() returns (ev: Option<Event>, e: Option<ReadError>)
      modifies `rest, `err
      ensures Outcome(ev, e, rest, err) == ScanNext(old(rest), final, old(err))
    {
      hide LineLength, Trim, SplitField, Ended;
      if err.Some? {
        return None, err;
      }
      var id: Bytes, event: Bytes, data: Bytes, raw: Bytes := [], [], [], [];
      var hasData := false;
      while true
        invariant ScanFrom(rest, final, Block(id, event, data, hasData, raw), err) ==
                  ScanFrom(old(rest), final, EMPTY, None)
        invariant err.Some? ==> rest == [] && raw != []
        decreases |rest|
      {
        var line, failed := ReadBytes();
        raw := raw + line;
        if failed {
          err := Some(final);
          if |raw| == 0 {
            assert rest == [];
            return None, err;
          }
        }
        var trimmed := Trim(line);
        if |trimmed| == 0 {
          var d := data;
          if hasData {
            if |d| > 0 && d[|d| - 1] == LF {
              d := d[..|d| - 1];
            }
          } else {
            d := [];
          }
          return Some(Event(id, event, d, raw)), None;
        }
        if trimmed[0] == COLON {
          continue;
        }
        var (field, value) := SplitField(trimmed);
        if field == ID {
          id := value;
        } else if field == EVENT {
          event := value;
        } else if field == DATA {
          data := data + value;
          data := data + [LF];
          hasData := true;
        }
        if err.Some? {
          return Some(Event(id, event, [], [])), err;
        }
      }
    }
  }

  // ---------- the whole stream ----------

  lemma LineEnds(s: Bytes)
    ensures var n := LineLength(s);
            && (Ended(s[..n]) ==> n == |s|)
            && (!Ended(s[..n]) ==> n > 0 && s[n - 1] == LF && Ended(s[..n - 1]))
  {
    var n := LineLength(s);
    if n > 0 && s[n - 1] == LF {
      assert s[..n][n - 1] == LF;
    }
  }

  /** Bytes after the last LF. */
  function Tail(s: Bytes): Bytes {
    var n := LineLength(s);
    if n == |s| then if Ended(s) then s else [] else Tail(s[n..])
  }

  /** The input stops inside a field line: the one block that comes back without Data or Raw. */
  predicate BareTail(s: Bytes) {
    Trim(Tail(s)) != [] && !IsComment(Trim(Tail(s)))
  }

  /** One call: what Raw accounts for, and how the tail decides the exit. */
  lemma {:induction false} ScanAccounts(rest: Bytes, final: ReadError, b: Block, stop: Option<ReadError>)
    requires stop.Some? ==> rest == [] && b.raw != []
    ensures var o := ScanFrom(rest, final, b, stop);
            && (o.ev.None? ==> b.raw + rest == [] && o.err == Some(final) && o.stop == Some(final) && !BareTail(rest))
            && (o.ev.Some? && o.err.None? ==>
                  && o.ev.value.raw + o.rest == b.raw + rest
                  && (o.stop.Some? ==> o.rest == [])
                  && (rest != [] ==> |o.rest| < |rest|) && o.ev.value.raw != []
                  && (BareTail(rest) <==> BareTail(o.rest)))
            && (o.ev.Some? && o.err.Some? ==> BareTail(rest) && o.ev.value.raw == [] && o.rest == [] && o.stop.Some?)
    decreases |rest|
  {
    hide Absorb;
    var n := LineLength(rest);
    var line, rest' := rest[..n], rest[n..];
    var raw := b.raw + line;
    LineEnds(rest);
    assert rest == line + rest';
    assert n == |rest| ==> line == rest;
    var stop' := if Ended(line) then Some(final) else stop;
    var trimmed := Trim(line);
    assert Tail([]) == [] && Trim([]) == [];
    if !Ended(line) {
      assert n < |rest| ==> Tail(rest) == Tail(rest');
      assert BareTail(rest) <==> BareTail(rest');
    } else {
      assert Tail(rest) == rest && rest' == [];
    }
    if Ended(line) && raw == [] {
    } else if trimmed == [] {
      assert raw + rest' == b.raw + rest;
    } else {
      var b' := Absorb(b, trimmed).(raw := raw);
      if !IsComment(trimmed) && stop'.Some? {
      } else {
        ScanAccounts(rest', final, b', stop');
        assert raw + rest' == b.raw + rest;
      }
    }
  }

  /** Every event a reader gets by calling Next until it reports an error. */
  function AllEvents(rest: Bytes, final: ReadError, stop: Option<ReadError>): seq<Event>
    requires stop.Some? ==> rest == []
    decreases |rest|, stop.None?
  {
    var o := ScanNext(rest, final, stop);
    ScanAccounts(rest, final, EMPTY, None);
    (if o.ev.Some? then [o.ev.value] else []) +
    (if o.err.Some? then [] else AllEvents(o.rest, final, o.stop))
  }

  lemma AllEventsStep(rest: Bytes, final: ReadError, stop: Option<ReadError>)
    requires stop.Some? ==> rest == []
    ensures var o := ScanNext(rest, final, stop);
            && (o.err.None? ==> o.stop.Some? ==> o.rest == [])
            && (o.err.None? ==> |o.rest| < |rest| || (|o.rest| == |rest| && stop.None? && o.stop.Some?))
            && AllEvents(rest, final, stop) ==
                 (if o.ev.Some? then [o.ev.value] else []) +
                 (if o.err.Some? then [] else AllEvents(o.rest, final, o.stop))
  {
    hide ScanFrom;
    ScanAccounts(rest, final, EMPTY, None);
  }

  /** The loop of every parser's Feed: it ends, having seen exactly those events. */
  method Drain(sc: Scanner) returns (events: seq<Event>)
    requires sc.err.Some? ==> sc.rest == []
    modifies sc
    ensures events == AllEvents(old(sc.rest), sc.final, old(sc.err))
  {
    hide ScanNext, AllEvents;
    events := [];
    while true
      invariant sc.err.Some? ==> sc.rest == []
      invariant events + AllEvents(sc.rest, sc.final, sc.err) == AllEvents(old(sc.rest), sc.final, old(sc.err))
      decreases |sc.rest|, sc.err.None?
    {
      AllEventsStep(sc.rest, sc.final, sc.err);
      var ev, e := sc.Next();
      if ev.Some? {
        events := events + [ev.value];
      }
      if e.Some? {
        return;
      }
    }
  }

  function Raws(events: seq<Event>): Bytes {
    if events == [] then [] else events[0].raw + Raws(events[1..])
  }

  lemma RawsSplit(e: Event, rest: seq<Event>)
    ensures Raws([e] + rest) == e.raw + Raws(rest)
  {
    assert ([e] + rest)[1..] == rest;
  }

  lemma {:induction false} RawsPrefix(rest: Bytes, final: ReadError, stop: Option<ReadError>)
    requires stop.Some? ==> rest == []
    ensures Raws(AllEvents(rest, final, stop)) <= rest
    ensures Raws(AllEvents(rest, final, stop)) == rest <==> !BareTail(rest)
    decreases |rest|, stop.None?
  {
    var o := ScanNext(rest, final, stop);
    ScanAccounts(rest, final, EMPTY, None);
    AllEventsStep(rest, final, stop);
    NothingLeft();
    hide ScanFrom, BareTail, AllEvents;
    if stop.Some? {
    } else if o.ev.None? {
    } else if o.err.Some? {
      RawsSplit(o.ev.value, []);
    } else {
      RawsPrefix(o.rest, final, o.stop);
      RawsSplit(o.ev.value, AllEvents(o.rest, final, o.stop));
      assert rest == o.ev.value.raw + o.rest;
    }
  }

  lemma NothingLeft()
    ensures !BareTail([])
  {
    assert Tail([]) == [] && Trim([]) == [];
  }

  /** Conservation: the Raw slices, in order, are exactly the input, unless the input
      stops inside a field line; in particular for every input that ends in LF. */
  lemma Conservation(input: Bytes, final: ReadError)
    ensures Raws(AllEvents(input, final, None)) == input <==> !BareTail(input)
    ensures input == [] || input[|input| - 1] == LF ==> Raws(AllEvents(input, final, None)) == input
  {
    RawsPrefix(input, final, None);
    if input != [] && input[|input| - 1] == LF {
      NoTail(input);
    }
    assert Tail([]) == [] && Trim([]) == [];
  }

  lemma {:induction false} NoTail(s: Bytes)
    requires s != [] && s[|s| - 1] == LF
    ensures Tail(s) == []
  {
    var n := LineLength(s);
    LineEnds(s);
    if n < |s| {
      NoTail(s[n..]);
    }
  }
}
