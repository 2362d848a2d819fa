/**
The scanner of module Sse against a line-by-line reading of the format: events
are determined by the trimmed lines alone, so line endings and comments do not
matter, and printing events and scanning the text gives them back.
*/
module SseFormat {
  import opened Wrappers
  import opened Sse

  /** A complete line: its bytes before the ending, and which ending it has. */
  datatype Line = Line(content: Bytes, crlf: bool)

  predicate WellFormed(lines: seq<Line>) {
    forall i | 0 <= i < |lines| :: LF !in lines[i].content
  }

  function Ending(crlf: bool): Bytes {
    if crlf then [CR, LF] else [LF]
  }

  function Render(lines: seq<Line>): Bytes {
    if lines == [] then [] else lines[0].content + Ending(lines[0].crlf) + Render(lines[1..])
  }

  function Contents(lines: seq<Line>): seq<Bytes> {
    if lines == [] then [] else [lines[0].content] + Contents(lines[1..])
  }

  /** Events of a last line without an ending, in block `b`; `open` when that block has any
      line at all. A field in it is read, but comes back without the data of its block. */
  function TailEvents(b: Block, open: bool, tail: Bytes): seq<Event> {
    if tail == [] && !open then []
    else if Trim(tail) == [] || IsComment(Trim(tail)) then [Finish(b)]
    else var b' := Absorb(b, Trim(tail)); [Event(b'.id, b'.event, [], [])]
  }

  /** Events of a text given as lines and a last line without an ending, starting inside
      block `b`. */
  function EventsOf(contents: seq<Bytes>, b: Block, open: bool, tail: Bytes): seq<Event> {
    if contents == [] then TailEvents(b, open, tail)
    else
      var trimmed := Trim(contents[0]);
      if trimmed == [] then [Finish(b)] + EventsOf(contents[1..], EMPTY, false, tail)
      else EventsOf(contents[1..], Absorb(b, trimmed), true, tail)
  }

  function WithoutRaw(events: seq<Event>): (r: seq<Event>)
    ensures |r| == |events|
  {
    seq(|events|, i requires 0 <= i < |events| => events[i].(raw := []))
  }

  // ---------- the scanner reads lines ----------

  lemma {:induction false} FirstLineLength(content: Bytes, crlf: bool, rest: Bytes)
    requires LF !in content
    ensures LineLength(content + Ending(crlf) + rest) == |content| + |Ending(crlf)|
  {
    var s := content + Ending(crlf) + rest;
    if content == [] {
      assert s == Ending(crlf) + rest;
      if crlf {
        assert s[1..] == [LF] + rest;
      }
    } else {
      FirstLineLength(content[1..], crlf, rest);
      assert s[0] == content[0] && s[0] in content;
      assert s[1..] == content[1..] + Ending(crlf) + rest;
    }
  }

  lemma FirstLine(content: Bytes, crlf: bool, rest: Bytes)
    requires LF !in content
    ensures LineLength(content + Ending(crlf) + rest) == |content| + |Ending(crlf)|
    ensures (content + Ending(crlf) + rest)[..|content| + |Ending(crlf)|] == content + Ending(crlf)
    ensures (content + Ending(crlf) + rest)[|content| + |Ending(crlf)|..] == rest
  {
    FirstLineLength(content, crlf, rest);
    hide LineLength, Ending;
  }

  lemma TrimEnding(content: Bytes, crlf: bool)
    ensures Trim(content + Ending(crlf)) == Trim(content)
  {
    if crlf {
      assert (content + [CR, LF])[..|content| + 1] == content + [CR];
      assert (content + [CR])[..|content|] == content;
      assert (content + [CR, LF])[|content| + 1] == LF;
      assert Trim(content + [CR]) == Trim(content);
    } else {
      assert (content + [LF])[..|content|] == content;
    }
  }

  lemma AbsorbIgnoresRaw(b: Block, raw: Bytes, trimmed: Bytes)
    ensures Absorb(b.(raw := raw), trimmed) == Absorb(b, trimmed).(raw := raw)
  {
  }

  lemma FinishIgnoresRaw(b: Block, raw: Bytes)
    ensures Finish(b.(raw := raw)).(raw := []) == Finish(b).(raw := []) && Finish(b.(raw := raw)).raw == raw
  {
  }

  /** The rest of the events, from inside block `b`. */
  function AllFrom(rest: Bytes, final: ReadError, b: Block): seq<Event> {
    var o := ScanFrom(rest, final, b, None);
    ScanAccounts(rest, final, b, None);
    (if o.ev.Some? then [o.ev.value] else []) +
    (if o.err.Some? then [] else AllEvents(o.rest, final, o.stop))
  }

  lemma OneLine(content: Bytes, crlf: bool, rest: Bytes, final: ReadError, b: Block)
    requires LF !in content
    ensures var line := content + Ending(crlf);
            var trimmed := Trim(content);
            AllFrom(line + rest, final, b) ==
              if trimmed == [] then [Finish(b.(raw := b.raw + line))] + AllFrom(rest, final, EMPTY)
              else AllFrom(rest, final, Absorb(b, trimmed).(raw := b.raw + line))
  {
    OneLineScan(content, crlf, rest, final, b);
    if Trim(content) == [] {
      assert AllEvents(rest, final, None) == AllFrom(rest, final, EMPTY);
    }
    hide LineLength, Trim, Absorb, Finish, Ended, Ending, ScanFrom, BareTail;
  }

  lemma OneLineScan(content: Bytes, crlf: bool, rest: Bytes, final: ReadError, b: Block)
    requires LF !in content
    ensures var line := content + Ending(crlf);
            var trimmed := Trim(content);
            ScanFrom(line + rest, final, b, None) ==
              if trimmed == [] then Outcome(Some(Finish(b.(raw := b.raw + line))), None, rest, None)
              else ScanFrom(rest, final, Absorb(b, trimmed).(raw := b.raw + line), None)
  {
    FirstLine(content, crlf, rest);
    TrimEnding(content, crlf);
    AbsorbIgnoresRaw(b, b.raw, Trim(content));
    var line := content + Ending(crlf);
    assert line[|line| - 1] == LF;
    assert !Ended(line);
    hide LineLength, Trim, Absorb, Finish, Ended, Ending;
  }

  lemma AtTail(tail: Bytes, final: ReadError, b: Block)
    requires LF !in tail
    ensures WithoutRaw(AllFrom(tail, final, b)) == TailEvents(b.(raw := []), b.raw != [], tail)
  {
    TailScan(tail, final, b);
    AbsorbIgnoresRaw(b, [], Trim(tail));
    AfterTail(final);
    FinishIgnoresRaw(b, b.raw + tail);
    FinishIgnoresRaw(b, []);
    hide ScanFrom, Trim, Absorb, LineLength, AllEvents, BareTail, IsComment, Finish;
  }

  lemma AfterTail(final: ReadError)
    ensures AllEvents([], final, Some(final)) == []
  {
  }

  lemma TailScan(tail: Bytes, final: ReadError, b: Block)
    requires LF !in tail
    ensures var raw := b.raw + tail;
            ScanFrom(tail, final, b, None) ==
              if raw == [] then Outcome(None, Some(final), [], Some(final))
              else if Trim(tail) == [] || IsComment(Trim(tail)) then
                Outcome(Some(Finish(b.(raw := raw))), None, [], Some(final))
              else
                var b' := Absorb(b, Trim(tail));
                Outcome(Some(Event(b'.id, b'.event, [], [])), Some(final), [], Some(final))
  {
    WholeTail(tail);
    AbsorbIgnoresRaw(b, b.raw, Trim(tail));
    assert tail[..|tail|] == tail && tail[|tail|..] == [] && Trim([]) == [] && Ended([]);
    assert (b.raw + tail) + [] == b.raw + tail;
    hide Trim, Finish, SplitField;
  }

  lemma {:induction false} WholeTail(tail: Bytes)
    requires LF !in tail
    ensures LineLength(tail) == |tail|
  {
    if tail != [] {
      assert tail[0] in tail;
      WholeTail(tail[1..]);
    }
  }

  lemma WithoutRawJoin(e: Event, events: seq<Event>)
    ensures WithoutRaw([e] + events) == [e.(raw := [])] + WithoutRaw(events)
  {
  }

  lemma {:induction false} ScanLines(lines: seq<Line>, tail: Bytes, final: ReadError, b: Block)
    requires WellFormed(lines) && LF !in tail
    ensures WithoutRaw(AllFrom(Render(lines) + tail, final, b)) ==
            EventsOf(Contents(lines), b.(raw := []), b.raw != [], tail)
    decreases |lines|
  {
    hide Trim, Absorb, SplitField, AllFrom, TailEvents;
    if lines == [] {
      assert Render(lines) + tail == tail;
      AtTail(tail, final, b);
    } else {
      var line := lines[0].content + Ending(lines[0].crlf);
      var trimmed, rest := Trim(lines[0].content), Render(lines[1..]) + tail;
      assert Render(lines) + tail == line + rest;
      OneLine(lines[0].content, lines[0].crlf, rest, final, b);
      assert Contents(lines)[1..] == Contents(lines[1..]);
      hide Render;
      if trimmed == [] {
        ScanLines(lines[1..], tail, final, EMPTY);
        WithoutRawJoin(Finish(b.(raw := b.raw + line)), AllFrom(rest, final, EMPTY));
      } else {
        AbsorbIgnoresRaw(b, [], trimmed);
        ScanLines(lines[1..], tail, final, Absorb(b, trimmed).(raw := b.raw + line));
      }
    }
  }

  /** Scanning any input, given as lines and what is left after the last of them, gives
      exactly the events it describes. */
  lemma ScanIsLineReading(lines: seq<Line>, tail: Bytes, final: ReadError)
    requires WellFormed(lines) && LF !in tail
    ensures WithoutRaw(AllEvents(Render(lines) + tail, final, None)) == EventsOf(Contents(lines), EMPTY, false, tail)
  {
    ScanLines(lines, tail, final, EMPTY);
    assert AllEvents(Render(lines) + tail, final, None) == AllFrom(Render(lines) + tail, final, EMPTY);
  }

  /** Every input can be given like that. */
  lemma {:induction false} EveryInputIsLines(input: Bytes) returns (lines: seq<Line>, tail: Bytes)
    ensures WellFormed(lines) && LF !in tail && Render(lines) + tail == input
    decreases |input|
  {
    var n := LineLength(input);
    LineEnds(input);
    hide LineLength, Render;
    if Ended(input[..n]) {
      lines, tail := [], input;
      RenderNone();
    } else {
      var rest, line := [], Line(input[..n - 1], false);
      rest, tail := EveryInputIsLines(input[n..]);
      lines := [line] + rest;
      RenderCons(line, rest);
      assert input[..n - 1] + [LF] == input[..n];
      assert input == input[..n] + input[n..];
    }
  }

  lemma RenderNone()
    ensures Render([]) == []
  {
  }

  lemma RenderCons(line: Line, rest: seq<Line>)
    ensures Render([line] + rest) == line.content + Ending(line.crlf) + Render(rest)
  {
    assert ([line] + rest)[1..] == rest;
  }

  /** Turning any LF endings into CRLF, or back, changes nothing but Raw. */
  lemma LineEndingsDoNotMatter(lines: seq<Line>, others: seq<Line>, tail: Bytes, final: ReadError)
    requires WellFormed(lines) && WellFormed(others) && Contents(lines) == Contents(others) && LF !in tail
    ensures WithoutRaw(AllEvents(Render(lines) + tail, final, None)) ==
            WithoutRaw(AllEvents(Render(others) + tail, final, None))
  {
    ScanIsLineReading(lines, tail, final);
    ScanIsLineReading(others, tail, final);
  }

  // ---------- comments ----------

  /** Some line of the text so far belongs to a block that no blank line has closed. */
  predicate OpenAfter(contents: seq<Bytes>, open: bool) {
    if contents == [] then open else Trim(contents[|contents| - 1]) != []
  }

  lemma {:induction false} CommentInside(before: seq<Bytes>, comment: Bytes, after: seq<Bytes>, tail: Bytes,
                                         b: Block, open: bool)
    requires IsComment(Trim(comment)) && (!open ==> b == EMPTY)
    ensures EventsOf(before + [comment] + after, b, open, tail) ==
            if after != [] || tail != [] || OpenAfter(before, open) then EventsOf(before + after, b, open, tail)
            else EventsOf(before, b, open, tail) + [Event([], [], [], [])]
    decreases |before|
  {
    var all := before + [comment] + after;
    if before == [] {
      assert all == [comment] + after && all[1..] == after;
      assert before + after == after;
    } else {
      assert all[1..] == before[1..] + [comment] + after;
      assert (before + after)[1..] == before[1..] + after;
      var trimmed := Trim(before[0]);
      if trimmed == [] {
        CommentInside(before[1..], comment, after, tail, EMPTY, false);
      } else {
        CommentInside(before[1..], comment, after, tail, Absorb(b, trimmed), true);
      }
    }
  }

  /** A comment line changes no event anywhere, except that one put after the last blank
      line, with nothing behind it, opens a new block, which comes back as one more, empty,
      event. */
  lemma CommentsDoNotMatter(before: seq<Line>, comment: Line, after: seq<Line>, tail: Bytes, final: ReadError)
    requires WellFormed(before) && WellFormed([comment]) && WellFormed(after) && LF !in tail
    requires comment.content != [] && comment.content[0] == COLON
    ensures var with := WithoutRaw(AllEvents(Render(before + [comment] + after) + tail, final, None));
            var without := WithoutRaw(AllEvents(Render(before + after) + tail, final, None));
            with == if after != [] || tail != [] || OpenAfter(Contents(before), false) then without
                    else without + [Event([], [], [], [])]
  {
    assert LF !in [comment][0].content;
    ScanIsLineReading(before + [comment] + after, tail, final);
    ScanIsLineReading(before + after, tail, final);
    ContentsJoin(before + [comment], after);
    ContentsJoin(before, [comment]);
    ContentsJoin(before, after);
    assert Contents([comment]) == [comment.content] by { assert [comment][1..] == []; }
    CommentStaysComment(comment.content);
    CommentInside(Contents(before), comment.content, Contents(after), tail, EMPTY, false);
    assert before + after == if after == [] then before else before + after;
  }

  lemma {:induction false} CommentStaysComment(content: Bytes)
    requires content != [] && content[0] == COLON
    ensures IsComment(Trim(content))
    decreases |content|
  {
    if content[|content| - 1] == LF || content[|content| - 1] == CR {
      CommentStaysComment(content[..|content| - 1]);
    }
  }

  lemma ContentsCons(line: Line, rest: seq<Line>)
    ensures Contents([line] + rest) == [line.content] + Contents(rest)
  {
    assert ([line] + rest)[1..] == rest;
  }

  lemma {:induction false} ContentsJoin(a: seq<Line>, b: seq<Line>)
    ensures Contents(a + b) == Contents(a) + Contents(b)
    ensures (Contents(b) == []) == (b == [])
  {
    if a == [] {
      assert a + b == b;
    } else {
      assert a == [a[0]] + a[1..] && a + b == [a[0]] + (a[1..] + b);
      ContentsCons(a[0], a[1..]);
      ContentsCons(a[0], a[1..] + b);
      hide Contents;
      ContentsJoin(a[1..], b);
    }
  }

  // ---------- what lines mean ----------

  /** The ways to write a line that is not blank: a field with a space before its value, with
      a value that does not start with one, or without a colon, and a comment. */
  datatype Written =
    | Spaced(name: Bytes, value: Bytes)
    | Tight(name: Bytes, value: Bytes)
    | Bare(name: Bytes)
    | Comment(text: Bytes)

  function Text(w: Written): (line: Bytes)
    ensures w.Spaced? || w.Comment? || w.Tight? ==> line != []
  {
    match w
    case Spaced(name, value) => name + [COLON, SPACE] + value
    case Tight(name, value) => name + [COLON] + value
    case Bare(name) => name
    case Comment(text) => [COLON] + text
  }

  /** A line as it is without its ending. */
  predicate Plain(line: Bytes) {
    LF !in line && (line == [] || line[|line| - 1] != CR)
  }

  predicate Legible(w: Written) {
    && Plain(Text(w))
    && (!w.Comment? ==> w.name != [] && COLON !in w.name)
    && (w.Tight? ==> w.value == [] || w.value[0] != SPACE)
  }

  predicate AllLegible(ws: seq<Written>) {
    forall i | 0 <= i < |ws| :: Legible(ws[i])
  }

  function Texts(ws: seq<Written>): seq<Bytes> {
    if ws == [] then [] else [Text(ws[0])] + Texts(ws[1..])
  }

  /** The value a line gives to a field, if any. */
  function Given(w: Written, name: Bytes): (values: seq<Bytes>)
    ensures |values| <= 1
  {
    if w.Comment? || w.name != name then [] else if w.Bare? then [[]] else [w.value]
  }

  /** The values that lines give to a field, in order. */
  function ValuesOf(ws: seq<Written>, name: Bytes): seq<Bytes> {
    if ws == [] then [] else Given(ws[0], name) + ValuesOf(ws[1..], name)
  }

  function Joined(data: seq<Bytes>): Bytes {
    if data == [] then [] else if |data| == 1 then data[0] else data[0] + [LF] + Joined(data[1..])
  }

  function LastOr(values: seq<Bytes>, before: Bytes): Bytes {
    if values == [] then before else values[|values| - 1]
  }

  /** What a block says: the last id and event given, and all data lines joined. */
  function EventOf(ws: seq<Written>): Event {
    Event(LastOr(ValuesOf(ws, ID), []), LastOr(ValuesOf(ws, EVENT), []), Joined(ValuesOf(ws, DATA)), [])
  }

  /** Every line without an ending that is not blank is written in one of these ways. */
  lemma EveryLineIsWritten(line: Bytes) returns (w: Written)
    requires Plain(line) && line != []
    ensures Legible(w) && Text(w) == line
  {
    var i := ColonAt(line);
    if i == 0 {
      w := Comment(line[1..]);
    } else if i == |line| {
      w := Bare(line);
    } else if i + 1 < |line| && line[i + 1] == SPACE {
      w := Spaced(line[..i], line[i + 2..]);
    } else {
      w := Tight(line[..i], line[i + 1..]);
    }
    assert Text(w) == line;
  }

  lemma {:induction false} ColonFirst(name: Bytes, tail: Bytes)
    requires COLON !in name
    ensures ColonAt(name + [COLON] + tail) == |name|
  {
    var s := name + [COLON] + tail;
    if name != [] {
      ColonFirst(name[1..], tail);
      assert s[1..] == name[1..] + [COLON] + tail;
    }
  }

  lemma {:induction false} NoColon(name: Bytes)
    requires COLON !in name
    ensures ColonAt(name) == |name|
  {
    if name != [] {
      NoColon(name[1..]);
    }
  }

  lemma NamedSplits(name: Bytes, tail: Bytes)
    requires COLON !in name && name != []
    ensures var line := name + [COLON] + tail;
            !IsComment(line) && SplitField(line) == (name, if tail != [] && tail[0] == SPACE then tail[1..] else tail)
  {
    ColonFirst(name, tail);
    var line := name + [COLON] + tail;
    assert line[0] == name[0];
    assert line[..|name|] == name && line[|name| + 1..] == tail;
  }

  lemma BareSplits(name: Bytes)
    requires COLON !in name && name != []
    ensures !IsComment(name) && SplitField(name) == (name, [])
  {
    NoColon(name);
    hide ColonAt;
  }

  lemma WrittenSplits(w: Written)
    requires Legible(w)
    ensures IsComment(Text(w)) <==> w.Comment?
    ensures !w.Comment? ==> SplitField(Text(w)) == (w.name, if w.Bare? then [] else w.value)
  {
    hide SplitField, Plain;
    match w
    case Comment(_) =>
    case Bare(name) =>
      BareSplits(name);
    case Tight(name, value) =>
      NamedSplits(name, value);
    case Spaced(name, value) =>
      var tail := [SPACE] + value;
      assert Text(w) == name + [COLON] + tail && tail[1..] == value;
      NamedSplits(name, tail);
  }

  /** Data lines as Absorb accumulates them: each with a final LF. */
  function Terminated(data: seq<Bytes>): Bytes {
    if data == [] then [] else data[0] + [LF] + Terminated(data[1..])
  }

  lemma {:induction false} TerminatedIsJoined(data: seq<Bytes>)
    requires data != []
    ensures Terminated(data) == Joined(data) + [LF]
  {
    if |data| == 1 {
      assert data[1..] == [];
    } else {
      TerminatedIsJoined(data[1..]);
    }
  }

  /** The block after some more lines. */
  function After(b: Block, ws: seq<Written>): Block {
    Taken(b, ValuesOf(ws, ID), ValuesOf(ws, EVENT), ValuesOf(ws, DATA))
  }

  lemma OneMore(w: Written, ws: seq<Written>, name: Bytes)
    ensures ValuesOf([w], name) == Given(w, name)
    ensures ValuesOf([w] + ws, name) == Given(w, name) + ValuesOf(ws, name)
  {
    assert [w][1..] == [] && ([w] + ws)[1..] == ws;
    assert Given(w, name) + [] == Given(w, name);
  }

  lemma TerminatedOne(value: Bytes)
    ensures Terminated([value]) == value + [LF]
  {
    assert [value][1..] == [];
  }

  lemma LegibleTrims(w: Written)
    requires Legible(w)
    ensures Trim(Text(w)) == Text(w) != []
  {
    var line := Text(w);
    assert line != [];
    assert line[|line| - 1] in line;
  }

  lemma NamesDiffer()
    ensures ID != EVENT && ID != DATA && EVENT != DATA
  {
    assert |ID| == 2 && |EVENT| == 5 && |DATA| == 4;
  }

  /** The block after values given to its fields. */
  function Taken(b: Block, ids: seq<Bytes>, events: seq<Bytes>, data: seq<Bytes>): Block {
    Block(LastOr(ids, b.id), LastOr(events, b.event), b.data + Terminated(data), b.hasData || data != [], b.raw)
  }

  function Just(c: bool, value: Bytes): seq<Bytes> {
    if c then [value] else []
  }

  lemma FieldTakes(b: Block, field: Bytes, value: Bytes)
    ensures WithField(b, field, value) ==
            Taken(b, Just(field == ID, value), Just(field == EVENT, value), Just(field == DATA, value))
  {
    NamesDiffer();
    TerminatedNone();
    TerminatedOne(value);
    hide Terminated;
    assert b.data + [] == b.data;
    assert b.data + (value + [LF]) == b.data + value + [LF];
  }

  lemma AbsorbTakes(w: Written, b: Block)
    requires Legible(w)
    ensures Absorb(b, Text(w)) == Taken(b, Given(w, ID), Given(w, EVENT), Given(w, DATA))
  {
    WrittenSplits(w);
    hide SplitField, Text, Terminated, Legible, IsComment, WithField;
    if w.Comment? {
      TerminatedNone();
      assert b.data + [] == b.data;
    } else {
      hide Taken;
      FieldTakes(b, w.name, if w.Bare? then [] else w.value);
    }
  }

  lemma OneWritten(w: Written, b: Block)
    requires Legible(w)
    ensures Absorb(b, Text(w)) == After(b, [w])
  {
    hide Absorb, Text, Given, ValuesOf, Terminated, Legible;
    AbsorbTakes(w, b);
    OneMore(w, [], ID);
    OneMore(w, [], EVENT);
    OneMore(w, [], DATA);
  }

  lemma TerminatedNone()
    ensures Terminated([]) == []
  {
  }

  lemma AfterAfter(b: Block, w: Written, ws: seq<Written>)
    ensures After(After(b, [w]), ws) == After(b, [w] + ws)
  {
    OneMore(w, ws, ID);
    OneMore(w, ws, EVENT);
    OneMore(w, ws, DATA);
    var x, y := ValuesOf([w], DATA), ValuesOf(ws, DATA);
    TerminatedJoin(x, y);
    hide ValuesOf, Terminated, Given;
    assert b.data + (Terminated(x) + Terminated(y)) == (b.data + Terminated(x)) + Terminated(y);
  }

  lemma TerminatedCons(value: Bytes, data: seq<Bytes>)
    ensures Terminated([value] + data) == value + [LF] + Terminated(data)
  {
    assert ([value] + data)[1..] == data;
  }

  lemma {:induction false} TerminatedJoin(x: seq<Bytes>, y: seq<Bytes>)
    ensures Terminated(x + y) == Terminated(x) + Terminated(y)
  {
    if x == [] {
      assert x + y == y;
    } else {
      assert x == [x[0]] + x[1..] && x + y == [x[0]] + (x[1..] + y);
      TerminatedCons(x[0], x[1..]);
      TerminatedCons(x[0], x[1..] + y);
      hide Terminated;
      TerminatedJoin(x[1..], y);
    }
  }

  lemma ReadLine(w: Written, rest: seq<Bytes>, b: Block, open: bool, tail: Bytes)
    requires Legible(w)
    ensures EventsOf([Text(w)] + rest, b, open, tail) == EventsOf(rest, After(b, [w]), true, tail)
  {
    LegibleTrims(w);
    OneWritten(w, b);
    var lines := [Text(w)] + rest;
    assert lines[0] == Text(w) && lines[1..] == rest;
    hide Trim, Absorb, After, Text, Legible, TailEvents;
  }

  lemma {:induction false} ReadLines(ws: seq<Written>, rest: seq<Bytes>, b: Block, open: bool, tail: Bytes)
    requires AllLegible(ws)
    ensures EventsOf(Texts(ws) + rest, b, open, tail) == EventsOf(rest, After(b, ws), open || ws != [], tail)
    decreases |ws|
  {
    hide EventsOf, Text, Legible, Given, Terminated;
    if ws == [] {
      TerminatedNone();
      assert Texts(ws) + rest == rest && b.data + [] == b.data;
    } else {
      assert ws == [ws[0]] + ws[1..];
      assert Texts(ws) + rest == [Text(ws[0])] + (Texts(ws[1..]) + rest);
      AfterAfter(b, ws[0], ws[1..]);
      hide After, Texts;
      ReadLine(ws[0], Texts(ws[1..]) + rest, b, open, tail);
      ReadLines(ws[1..], rest, After(b, [ws[0]]), true, tail);
    }
  }

  lemma FinishIsEventOf(ws: seq<Written>)
    ensures Finish(After(EMPTY, ws)) == EventOf(ws)
  {
    var data := ValuesOf(ws, DATA);
    assert EMPTY.data + Terminated(data) == Terminated(data);
    if data != [] {
      TerminatedIsJoined(data);
      assert Terminated(data)[..|Terminated(data)| - 1] == Joined(data);
    }
  }

  /** A text as blocks, each closed by a blank line. */
  function Blocks(blocks: seq<seq<Written>>): seq<Bytes> {
    if blocks == [] then [] else Texts(blocks[0]) + [[]] + Blocks(blocks[1..])
  }

  function EventsOfBlocks(blocks: seq<seq<Written>>): (r: seq<Event>)
    ensures |r| == |blocks|
  {
    seq(|blocks|, i requires 0 <= i < |blocks| => EventOf(blocks[i]))
  }

  lemma ReadBlock(ws: seq<Written>, rest: seq<Bytes>, tail: Bytes)
    requires AllLegible(ws)
    ensures EventsOf(Texts(ws) + ([[]] + rest), EMPTY, false, tail) == [EventOf(ws)] + EventsOf(rest, EMPTY, false, tail)
  {
    var lines := [[]] + rest;
    ReadLines(ws, lines, EMPTY, false, tail);
    FinishIsEventOf(ws);
    assert lines[1..] == rest && Trim(lines[0]) == [];
    hide Texts, Finish, After, EventOf, Absorb, Legible, TailEvents;
  }

  /** A last line that has no ending. */
  function TailText(tail: Option<Written>): Bytes {
    if tail.None? then [] else Text(tail.value)
  }

  /** What comes of a block that no blank line closes: its event, but without data if the
      input stops inside a field. */
  function OpenEvents(open: seq<Written>, tail: Option<Written>): seq<Event> {
    match tail
    case None => if open == [] then [] else [EventOf(open)]
    case Some(w) =>
      var e := EventOf(open + [w]);
      [if w.Comment? then e else Event(e.id, e.event, [], [])]
  }

  lemma ReadOpen(open: seq<Written>, tail: Option<Written>)
    requires AllLegible(open) && (tail.Some? ==> Legible(tail.value))
    ensures EventsOf(Texts(open), EMPTY, false, TailText(tail)) == OpenEvents(open, tail)
  {
    ReadLines(open, [], EMPTY, false, TailText(tail));
    assert Texts(open) + [] == Texts(open);
    FinishIsEventOf(open);
    assert Trim([]) == [];
    if tail.Some? {
      var w := tail.value;
      LegibleTrims(w);
      WrittenSplits(w);
      OneWritten(w, After(EMPTY, open));
      AfterLast(EMPTY, open, w);
      FinishIsEventOf(open + [w]);
    }
    hide Texts, After, EventOf, Absorb, Legible, Trim, Text, IsComment;
  }

  lemma AfterLast(b: Block, ws: seq<Written>, w: Written)
    ensures After(After(b, ws), [w]) == After(b, ws + [w])
    ensures w.Comment? ==> After(b, ws + [w]) == After(b, ws)
  {
    LastGives(ws, w, ID);
    LastGives(ws, w, EVENT);
    LastGives(ws, w, DATA);
    var x, y := ValuesOf(ws, DATA), ValuesOf([w], DATA);
    TerminatedJoin(x, y);
    TerminatedNone();
    hide ValuesOf, Terminated;
    assert b.data + (Terminated(x) + Terminated(y)) == (b.data + Terminated(x)) + Terminated(y);
    assert forall v: seq<Bytes> :: v + [] == v;
  }

  lemma LastGives(ws: seq<Written>, w: Written, name: Bytes)
    ensures ValuesOf(ws + [w], name) == ValuesOf(ws, name) + ValuesOf([w], name)
    ensures w.Comment? ==> ValuesOf([w], name) == []
  {
    ValuesJoin(ws, [w], name);
    OneMore(w, [], name);
  }

  lemma {:induction false} ReadBlocks(blocks: seq<seq<Written>>, open: seq<Written>, tail: Option<Written>)
    requires AllLegible(open) && (forall i | 0 <= i < |blocks| :: AllLegible(blocks[i])) && (tail.Some? ==> Legible(tail.value))
    ensures EventsOf(Blocks(blocks) + Texts(open), EMPTY, false, TailText(tail)) ==
            EventsOfBlocks(blocks) + OpenEvents(open, tail)
    decreases |blocks|
  {
    hide EventsOf, EventOf, Texts, AllLegible, OpenEvents, TailText;
    if blocks == [] {
      ReadOpen(open, tail);
      assert Blocks(blocks) + Texts(open) == Texts(open);
    } else {
      var rest := Blocks(blocks[1..]) + Texts(open);
      assert Blocks(blocks) + Texts(open) == Texts(blocks[0]) + ([[]] + rest);
      ReadBlock(blocks[0], rest, TailText(tail));
      ReadBlocks(blocks[1..], open, tail);
      assert EventsOfBlocks(blocks) == [EventOf(blocks[0])] + EventsOfBlocks(blocks[1..]);
    }
  }

  function AsLines(contents: seq<Bytes>): (lines: seq<Line>)
    ensures |lines| == |contents|
    ensures forall i | 0 <= i < |lines| :: lines[i] == Line(contents[i], false)
  {
    seq(|contents|, i requires 0 <= i < |contents| => Line(contents[i], false))
  }

  lemma {:induction false} ContentsOfAsLines(contents: seq<Bytes>)
    ensures Contents(AsLines(contents)) == contents
  {
    if contents != [] {
      ContentsOfAsLines(contents[1..]);
      assert AsLines(contents)[1..] == AsLines(contents[1..]);
    }
  }

  lemma {:induction false} TextsPlain(ws: seq<Written>)
    requires AllLegible(ws)
    ensures forall i | 0 <= i < |Texts(ws)| :: LF !in Texts(ws)[i]
  {
    if ws != [] {
      TextsPlain(ws[1..]);
    }
  }

  lemma {:induction false} BlocksPlain(blocks: seq<seq<Written>>)
    requires forall i | 0 <= i < |blocks| :: AllLegible(blocks[i])
    ensures forall i | 0 <= i < |Blocks(blocks)| :: LF !in Blocks(blocks)[i]
  {
    if blocks != [] {
      TextsPlain(blocks[0]);
      BlocksPlain(blocks[1..]);
    }
  }

  /** Scanning any text of blocks, with or without a last one that is not closed: each block
      gives the last id and the last event named in it and its data lines joined by LF,
      whichever way its lines are written; other fields and comments do not count. Where the
      text stops inside a field line, the last event has no data. */
  lemma BlocksAreRead(blocks: seq<seq<Written>>, open: seq<Written>, tail: Option<Written>, final: ReadError)
    requires AllLegible(open) && (forall i | 0 <= i < |blocks| :: AllLegible(blocks[i])) && (tail.Some? ==> Legible(tail.value))
    ensures WithoutRaw(AllEvents(Render(AsLines(Blocks(blocks) + Texts(open))) + TailText(tail), final, None)) ==
            EventsOfBlocks(blocks) + OpenEvents(open, tail)
  {
    var contents := Blocks(blocks) + Texts(open);
    BlocksPlain(blocks);
    TextsPlain(open);
    ContentsOfAsLines(contents);
    ReadBlocks(blocks, open, tail);
    assert LF !in TailText(tail);
    hide Blocks, Texts, AllEvents, EventsOf, EventsOfBlocks, OpenEvents, TailText, Legible;
    ScanIsLineReading(AsLines(contents), TailText(tail), final);
  }

  // ---------- printing ----------

  datatype Fields = Fields(id: Bytes, event: Bytes, data: seq<Bytes>)

  predicate Printable(f: Fields) {
    Plain(f.id) && Plain(f.event) && forall i | 0 <= i < |f.data| :: Plain(f.data[i])
  }

  function DataLines(data: seq<Bytes>): seq<Written> {
    if data == [] then [] else [Spaced(DATA, data[0])] + DataLines(data[1..])
  }

  /** The lines of one event: id and event when set, and its data. */
  function PrintOne(f: Fields): seq<Written> {
    (if f.id == [] then [] else [Spaced(ID, f.id)]) +
    (if f.event == [] then [] else [Spaced(EVENT, f.event)]) +
    DataLines(f.data)
  }

  function Print(events: seq<Fields>): (blocks: seq<seq<Written>>)
    ensures |blocks| == |events|
    ensures forall i | 0 <= i < |events| :: blocks[i] == PrintOne(events[i])
  {
    seq(|events|, i requires 0 <= i < |events| => PrintOne(events[i]))
  }

  function Expected(events: seq<Fields>): (r: seq<Event>)
    ensures |r| == |events|
  {
    seq(|events|, i requires 0 <= i < |events| => Event(events[i].id, events[i].event, Joined(events[i].data), []))
  }

  lemma {:induction false} ValuesJoin(x: seq<Written>, y: seq<Written>, name: Bytes)
    ensures ValuesOf(x + y, name) == ValuesOf(x, name) + ValuesOf(y, name)
  {
    hide Given;
    if x == [] {
      assert x + y == y;
    } else {
      assert x == [x[0]] + x[1..] && x + y == [x[0]] + (x[1..] + y);
      OneMore(x[0], x[1..], name);
      OneMore(x[0], x[1..] + y, name);
      hide ValuesOf;
      ValuesJoin(x[1..], y, name);
      var a, b, c := Given(x[0], name), ValuesOf(x[1..], name), ValuesOf(y, name);
      assert a + (b + c) == (a + b) + c;
    }
  }

  lemma {:induction false} DataLinesGive(data: seq<Bytes>, name: Bytes)
    ensures ValuesOf(DataLines(data), name) == if name == DATA then data else []
  {
    if data != [] {
      DataLinesGive(data[1..], name);
      assert data == [data[0]] + data[1..];
    }
  }

  lemma {:induction false} DataLinesLegible(data: seq<Bytes>)
    requires forall i | 0 <= i < |data| :: Plain(data[i])
    ensures AllLegible(DataLines(data))
  {
    if data != [] {
      DataLinesLegible(data[1..]);
      SpacedIsLegible(DATA, data[0]);
      hide Legible, Plain;
    }
  }

  lemma SpacedIsLegible(name: Bytes, value: Bytes)
    requires Plain(value) && name != [] && COLON !in name && LF !in name
    ensures Legible(Spaced(name, value))
  {
  }

  lemma PrintedLegible(f: Fields)
    requires Printable(f)
    ensures AllLegible(PrintOne(f))
  {
    DataLinesLegible(f.data);
    SpacedIsLegible(ID, f.id);
    SpacedIsLegible(EVENT, f.event);
    hide Legible, DataLines, Plain;
  }

  lemma PrintedGives(f: Fields, name: Bytes)
    ensures ValuesOf(PrintOne(f), name) ==
            (if f.id == [] || name != ID then [] else [f.id]) +
            (if f.event == [] || name != EVENT then [] else [f.event]) + (if name == DATA then f.data else [])
  {
    var x := if f.id == [] then [] else [Spaced(ID, f.id)];
    var y := if f.event == [] then [] else [Spaced(EVENT, f.event)];
    DataLinesGive(f.data, name);
    ValuesJoin(x + y, DataLines(f.data), name);
    ValuesJoin(x, y, name);
    OneIfSet(ID, f.id, name);
    OneIfSet(EVENT, f.event, name);
    hide DataLines, ValuesOf;
  }

  lemma PrintedSays(f: Fields)
    ensures EventOf(PrintOne(f)) == Event(f.id, f.event, Joined(f.data), [])
  {
    PrintedGives(f, ID);
    PrintedGives(f, EVENT);
    PrintedGives(f, DATA);
    assert [] + f.data == f.data;
    hide Joined, PrintOne, ValuesOf;
  }

  lemma OneIfSet(name: Bytes, value: Bytes, other: Bytes)
    ensures ValuesOf(if value == [] then [] else [Spaced(name, value)], other) ==
            if value == [] || name != other then [] else [value]
  {
    OneMore(Spaced(name, value), [], other);
  }

  /** Printing any list of events and scanning the bytes gives that list back. */
  lemma PrintScanRoundTrip(events: seq<Fields>, final: ReadError)
    requires forall i | 0 <= i < |events| :: Printable(events[i])
    ensures WithoutRaw(AllEvents(Render(AsLines(Blocks(Print(events)))), final, None)) == Expected(events)
  {
    forall i | 0 <= i < |events|
      ensures AllLegible(Print(events)[i])
      ensures EventOf(Print(events)[i]) == Event(events[i].id, events[i].event, Joined(events[i].data), [])
    {
      PrintedLegible(events[i]);
      PrintedSays(events[i]);
    }
    assert Blocks(Print(events)) + Texts([]) == Blocks(Print(events));
    hide AllEvents, PrintOne, Joined, Blocks, Legible, EventOf;
    var text := Render(AsLines(Blocks(Print(events))));
    assert text + TailText(None) == text;
    BlocksAreRead(Print(events), [], None, final);
    assert EventsOfBlocks(Print(events)) == Expected(events);
  }
}
