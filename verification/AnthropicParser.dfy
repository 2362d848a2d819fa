/**
The Anthropic parser (internal/proxy/stream/anthropic_parser.go), from frames whose
JSON has been decoded. Folding its stream agrees with parsing the whole message.
*/
module AnthropicParser {
  import opened TraceEvent
  import opened Reports

  datatype Usage = Usage(input: int, output: int, cacheRead: int, cacheCreation: int)

  datatype Frame =
    | MessageStart(model: string, usage: Usage)
    | BlockStart(kind: string)
    | BlockDelta(kind: string, text: string, thinking: string, partialJson: string)
    | MessageDelta(stopReason: string, usage: Usage)
    | Other  // any other event, or one whose data does not decode

  datatype State = State(
    chunkCount: nat, text: string,
    input: int, output: int, cacheRead: int, cacheCreation: int,
    finishReason: string, model: string, usageSeen: bool)

  const START: State := State(0, "", 0, 0, 0, 0, "", "", false)

  predicate IsGeneratedBlock(kind: string) {
    kind in {"text", "thinking", "tool_use", "server_tool_use", "web_search_tool_result"}
  }

  /** Whether the frame counts as generated output on the timeline. */
  predicate Generates(f: Frame) {
    match f
    case BlockStart(kind) => IsGeneratedBlock(kind)
    case BlockDelta(kind, text, thinking, partialJson) =>
      || (kind == "text_delta" && text != "")
      || (kind == "thinking_delta" && thinking != "")
      || (kind == "input_json_delta" && partialJson != "")
    case _ => false
  }

  function TextOf(f: Frame): string {
    if f.BlockDelta? && f.kind == "text_delta" then f.text else ""
  }

  function Positive(x: int, old_: int): int {
    if x > 0 then x else old_
  }

  function Next(s: State, f: Frame): State {
    var s := s.(chunkCount := s.chunkCount + 1, text := s.text + TextOf(f));
    match f
    case MessageStart(model, u) =>
      s.(model := if model != "" then model else s.model,
         input := Positive(u.input, s.input),
         cacheRead := Positive(u.cacheRead, s.cacheRead),
         cacheCreation := Positive(u.cacheCreation, s.cacheCreation),
         usageSeen := s.usageSeen || u.input > 0 || u.cacheRead > 0 || u.cacheCreation > 0)
    case MessageDelta(stop, u) =>
      s.(finishReason := if stop != "" then stop else s.finishReason,
         input := Positive(u.input, s.input),
         output := Positive(u.output, s.output),
         cacheRead := Positive(u.cacheRead, s.cacheRead),
         cacheCreation := Positive(u.cacheCreation, s.cacheCreation),
         usageSeen := s.usageSeen || u.input > 0 || u.output > 0)
    case _ => s
  }

  function Folded(frames: seq<Frame>): State {
    if frames == [] then START else Next(Folded(frames[..|frames| - 1]), frames[|frames| - 1])
  }

  function Finalized(s: State, ev: Fields): Fields {
    var ev := ev.(responseText := s.text, chunkCount := s.chunkCount, finishReason := s.finishReason,
                  model := if s.model != "" && ev.model == "" then s.model else ev.model);
    if !s.usageSeen then ev
    else ev.(input := s.input, output := s.output, cached := s.cacheRead, cacheCreation := s.cacheCreation,
             total := s.input + s.cacheRead + s.cacheCreation + s.output, estimated := false)
  }

  /** The whole message, as the non-streaming endpoint returns it. */
  datatype Content = Content(kind: string, text: string)
  datatype Message = Message(model: string, stopReason: string, content: seq<Content>, usage: Usage)

  function MessageText(content: seq<Content>): string {
    if content == [] then ""
    else MessageText(content[..|content| - 1]) +
         (if content[|content| - 1].kind == "text" then content[|content| - 1].text else "")
  }

  predicate AnyUsage(u: Usage) {
    u.input > 0 || u.output > 0 || u.cacheRead > 0 || u.cacheCreation > 0
  }

  function Parsed(m: Message, ev: Fields): Fields {
    var ev := ev.(model := if m.model != "" && ev.model == "" then m.model else ev.model,
                  responseText := MessageText(m.content),
                  finishReason := if m.stopReason != "" then m.stopReason else ev.finishReason);
    if !AnyUsage(m.usage) then ev
    else ev.(input := m.usage.input, output := m.usage.output, cached := m.usage.cacheRead,
             cacheCreation := m.usage.cacheCreation,
             total := m.usage.input + m.usage.cacheRead + m.usage.cacheCreation + m.usage.output,
             estimated := false)
  }

  class Parser {
    var chunkCount: nat
    var text: string
    var inputTokens: int
    var outputTokens: int
    var cacheReadToks: int
    var cacheCreateToks: int
    var finishReason: string
    var model: string
    var usageSeen: bool

    function View(): State
      reads this
    {
      State(chunkCount, text, inputTokens, outputTokens, cacheReadToks, cacheCreateToks, finishReason, model, usageSeen)
    }

    constructor ()
      ensures View() == START
    {
      chunkCount, text := 0, "";
      inputTokens, outputTokens, cacheReadToks, cacheCreateToks := 0, 0, 0, 0;
      finishReason, model, usageSeen := "", "", false;
    }

    /** Usage in message_start: the prompt side, any part of which counts as usage seen. */
    method PromptUsage(u: Usage)
      modifies this`inputTokens, this`cacheReadToks, this`cacheCreateToks, this`usageSeen
      ensures inputTokens == Positive(u.input, old(inputTokens))
      ensures cacheReadToks == Positive(u.cacheRead, old(cacheReadToks))
      ensures cacheCreateToks == Positive(u.cacheCreation, old(cacheCreateToks))
      ensures usageSeen == (old(usageSeen) || u.input > 0 || u.cacheRead > 0 || u.cacheCreation > 0)
    {
      if u.input > 0 { inputTokens := u.input; usageSeen := true; }
      if u.cacheRead > 0 { cacheReadToks := u.cacheRead; usageSeen := true; }
      if u.cacheCreation > 0 { cacheCreateToks := u.cacheCreation; usageSeen := true; }
    }

    /** Usage in message_delta: cache counts alone do not count as usage seen. */
    method FinalUsage(u: Usage)
      modifies this`inputTokens, this`outputTokens, this`cacheReadToks, this`cacheCreateToks, this`usageSeen
      ensures inputTokens == Positive(u.input, old(inputTokens))
      ensures outputTokens == Positive(u.output, old(outputTokens))
      ensures cacheReadToks == Positive(u.cacheRead, old(cacheReadToks))
      ensures cacheCreateToks == Positive(u.cacheCreation, old(cacheCreateToks))
      ensures usageSeen == (old(usageSeen) || u.input > 0 || u.output > 0)
    {
      if u.input > 0 { inputTokens := u.input; usageSeen := true; }
      if u.output > 0 { outputTokens := u.output; usageSeen := true; }
      if u.cacheRead > 0 { cacheReadToks := u.cacheRead; }
      if u.cacheCreation > 0 { cacheCreateToks := u.cacheCreation; }
    }

    method HandleEvent(f: Frame, now: Instant, tl: Timeline)
      modifies this, tl
      ensures View() == Next(old(View()), f)
      ensures (tl.firstToken, tl.lastToken) == Marked((old(tl.firstToken), old(tl.lastToken)), now, Generates(f))
    {
      NotMarked((tl.firstToken, tl.lastToken), now);
      hide IsGeneratedBlock, Marked, Positive;
      chunkCount := chunkCount + 1;
      assert text + "" == text;
      match f {
        case MessageStart(m, u) =>
          if m != "" { model := m; }
          PromptUsage(u);
        case BlockStart(kind) =>
          if IsGeneratedBlock(kind) { tl.MarkGenerated(now); }
        case BlockDelta(kind, t, thinking, partialJson) =>
          if kind == "text_delta" {
            if t == "" { return; }
            tl.MarkGenerated(now);
            text := text + t;
          } else if kind == "thinking_delta" {
            if thinking != "" { tl.MarkGenerated(now); }
          } else if kind == "input_json_delta" {
            if partialJson != "" { tl.MarkGenerated(now); }
          }
        case MessageDelta(stop, u) =>
          if stop != "" { finishReason := stop; }
          FinalUsage(u);
        case Other =>
      }
    }

    method Feed(frames: seq<Frame>, times: seq<Instant>, tl: Timeline)
      requires |times| == |frames| && View() == START && tl.firstToken == tl.lastToken == 0
      modifies this, tl
      ensures View() == Folded(frames)
      ensures (tl.firstToken, tl.lastToken) == MarksAfter(Chunks(frames, times))
    {
      for i := 0 to |frames|
        invariant View() == Folded(frames[..i])
        invariant (tl.firstToken, tl.lastToken) == MarksAfter(Chunks(frames, times)[..i])
      {
        assert frames[..i + 1][..i] == frames[..i];
        assert Chunks(frames, times)[..i + 1][..i] == Chunks(frames, times)[..i];
        HandleEvent(frames[i], times[i], tl);
      }
      assert frames[..|frames|] == frames && Chunks(frames, times)[..|frames|] == Chunks(frames, times);
    }

    method Finalize(ev: Event)
      modifies ev
      ensures ev.fields == Finalized(View(), old(ev.fields))
    {
      ev.fields := ev.fields.(responseText := text, chunkCount := chunkCount, finishReason := finishReason);
      if usageSeen {
        ev.fields := ev.fields.(input := inputTokens, output := outputTokens, cached := cacheReadToks,
                                cacheCreation := cacheCreateToks);
        ev.fields := ev.fields.(total := inputTokens + cacheReadToks + cacheCreateToks + outputTokens, estimated := false);
      }
      if model != "" && ev.fields.model == "" {
        ev.fields := ev.fields.(model := model);
      }
    }

    method ParseNonStream(m: Message, ev: Event)
      modifies ev
      ensures ev.fields == Parsed(m, old(ev.fields))
    {
      if m.model != "" && ev.fields.model == "" {
        ev.fields := ev.fields.(model := m.model);
      }
      var sb := "";
      for i := 0 to |m.content|
        invariant sb == MessageText(m.content[..i])
      {
        assert m.content[..i + 1][..i] == m.content[..i];
        if m.content[i].kind == "text" {
          sb := sb + m.content[i].text;
        }
      }
      assert m.content[..|m.content|] == m.content;
      ev.fields := ev.fields.(responseText := sb);
      if m.stopReason != "" {
        ev.fields := ev.fields.(finishReason := m.stopReason);
      }
      if m.usage.input > 0 || m.usage.output > 0 || m.usage.cacheRead > 0 || m.usage.cacheCreation > 0 {
        ev.fields := ev.fields.(input := m.usage.input, output := m.usage.output, cached := m.usage.cacheRead,
                                cacheCreation := m.usage.cacheCreation);
        ev.fields := ev.fields.(total := ev.fields.input + ev.fields.cached + ev.fields.cacheCreation + ev.fields.output,
                                estimated := false);
      }
    }
  }

  function Chunks(frames: seq<Frame>, times: seq<Instant>): (r: seq<(Instant, bool)>)
    requires |times| == |frames|
    ensures |r| == |frames|
  {
    seq(|frames|, i requires 0 <= i < |frames| => (times[i], Generates(frames[i])))
  }

  // ---------- the stream agrees with the message ----------

  /** Anything but the two frames that carry usage: content, pings, undecodable data. */
  predicate Plain(frames: seq<Frame>) {
    forall i | 0 <= i < |frames| :: !frames[i].MessageStart? && !frames[i].MessageDelta?
  }

  function StreamText(frames: seq<Frame>): string {
    if frames == [] then "" else StreamText(frames[..|frames| - 1]) + TextOf(frames[|frames| - 1])
  }

  /** `frames` streams `m`: one message_start, one later message_delta, and the text blocks
      cut into text_delta frames in any way, among any other frames. The two may report
      any usage. */
  ghost predicate Streams(frames: seq<Frame>, m: Message, before: seq<Frame>, start: Usage,
                          during: seq<Frame>, end: Usage, after: seq<Frame>) {
    && frames == before + [MessageStart(m.model, start)] + during + [MessageDelta(m.stopReason, end)] + after
    && Plain(before) && Plain(during) && Plain(after)
    && StreamText(before + during + after) == MessageText(m.content)
  }

  function FoldFrom(s: State, frames: seq<Frame>): State {
    if frames == [] then s else Next(FoldFrom(s, frames[..|frames| - 1]), frames[|frames| - 1])
  }

  lemma {:induction false} FoldJoins(s: State, a: seq<Frame>, b: seq<Frame>)
    ensures FoldFrom(s, a + b) == FoldFrom(FoldFrom(s, a), b)
    decreases |b|
  {
    if b == [] {
      assert a + b == a;
    } else {
      assert (a + b)[..|a + b| - 1] == a + b[..|b| - 1];
      FoldJoins(s, a, b[..|b| - 1]);
    }
  }

  lemma {:induction false} FoldedIsFoldFrom(frames: seq<Frame>)
    ensures Folded(frames) == FoldFrom(START, frames)
  {
    if frames != [] {
      FoldedIsFoldFrom(frames[..|frames| - 1]);
    }
  }

  lemma {:induction false} TextJoins(a: seq<Frame>, b: seq<Frame>)
    ensures StreamText(a + b) == StreamText(a) + StreamText(b)
    decreases |b|
  {
    if b == [] {
      assert a + b == a;
    } else {
      assert (a + b)[..|a + b| - 1] == a + b[..|b| - 1];
      TextJoins(a, b[..|b| - 1]);
      var x, y, z := StreamText(a), StreamText(b[..|b| - 1]), TextOf(b[|b| - 1]);
      hide TextOf;
      assert (x + y) + z == x + (y + z);
    }
  }

  lemma {:induction false} PlainOnlyAddsText(s: State, frames: seq<Frame>)
    requires Plain(frames)
    ensures FoldFrom(s, frames) == s.(chunkCount := s.chunkCount + |frames|, text := s.text + StreamText(frames))
  {
    if frames == [] {
      assert s.text + "" == s.text;
    } else {
      var init, last := frames[..|frames| - 1], frames[|frames| - 1];
      PlainOnlyAddsText(s, init);
      assert s.text + StreamText(init) + TextOf(last) == s.text + (StreamText(init) + TextOf(last));
    }
  }

  lemma FoldOne(s: State, f: Frame)
    ensures FoldFrom(s, [f]) == Next(s, f)
  {
    assert [f][..0] == [];
  }

  /** Where the fold of a streamed message ends up. */
  lemma StreamedState(frames: seq<Frame>, m: Message, before: seq<Frame>, start: Usage,
                      during: seq<Frame>, end: Usage, after: seq<Frame>)
    requires Streams(frames, m, before, start, during, end, after)
    ensures Folded(frames) ==
            Next(Next(START, MessageStart(m.model, start)), MessageDelta(m.stopReason, end))
              .(chunkCount := |frames|, text := MessageText(m.content))
  {
    hide *;
    var f1, f2 := MessageStart(m.model, start), MessageDelta(m.stopReason, end);
    Decompose(frames, m, before, start, during, end, after);
    StreamedFold(before, f1, during, f2, after);
    FoldedIsFoldFrom(frames);
  }

  lemma Decompose(frames: seq<Frame>, m: Message, before: seq<Frame>, start: Usage,
                  during: seq<Frame>, end: Usage, after: seq<Frame>)
    requires Streams(frames, m, before, start, during, end, after)
    ensures frames == before + [MessageStart(m.model, start)] + during + [MessageDelta(m.stopReason, end)] + after
    ensures Plain(before) && Plain(during) && Plain(after)
    ensures StreamText(before) + StreamText(during) + StreamText(after) == MessageText(m.content)
    ensures |frames| == |before| + |during| + |after| + 2
  {
    TextJoins(before, during);
    TextJoins(before + during, after);
  }

  /** The frames that carry usage leave the text alone, whatever it is by then. */
  lemma UsageKeepsText(s: State, chunkCount: nat, text: string, f: Frame)
    requires f.MessageStart? || f.MessageDelta?
    ensures Next(s.(chunkCount := chunkCount, text := text), f) ==
            Next(s, f).(chunkCount := chunkCount + 1, text := text)
  {
    assert TextOf(f) == "" && text + "" == text;
  }

  lemma PlainThenUsage(s: State, chunkCount: nat, text: string, frames: seq<Frame>, f: Frame)
    requires Plain(frames) && (f.MessageStart? || f.MessageDelta?)
    ensures FoldFrom(s.(chunkCount := chunkCount, text := text), frames + [f]) ==
            Next(s, f).(chunkCount := chunkCount + |frames| + 1, text := text + StreamText(frames))
  {
    hide Next, StreamText, FoldFrom, Plain;
    var t := s.(chunkCount := chunkCount, text := text);
    FoldJoins(t, frames, [f]);
    PlainOnlyAddsText(t, frames);
    FoldOne(FoldFrom(t, frames), f);
    UsageKeepsText(s, chunkCount + |frames|, text + StreamText(frames), f);
  }

  lemma StreamedFold(before: seq<Frame>, f1: Frame, during: seq<Frame>, f2: Frame, after: seq<Frame>)
    requires Plain(before) && Plain(during) && Plain(after) && f1.MessageStart? && f2.MessageDelta?
    ensures FoldFrom(START, before + [f1] + during + [f2] + after) ==
            Next(Next(START, f1), f2).(chunkCount := |before| + |during| + |after| + 2,
                                       text := StreamText(before) + StreamText(during) + StreamText(after))
  {
    hide Next, StreamText, FoldFrom, Plain;
    var head, body := before + [f1], during + [f2];
    assert before + [f1] + during + [f2] + after == head + body + after;
    FoldJoins(START, head + body, after);
    FoldJoins(START, head, body);
    assert START.(chunkCount := 0, text := "") == START;
    PlainThenUsage(START, 0, "", before, f1);
    assert "" + StreamText(before) == StreamText(before);
    var s1 := Next(START, f1);
    PlainThenUsage(s1, |before| + 1, StreamText(before), during, f2);
    PlainOnlyAddsText(FoldFrom(START, head + body), after);
  }

  // ---------- which usage of the two frames is kept ----------

  /** The later positive report of a count, or zero. */
  function Kept(start: int, end: int): int {
    if end > 0 then end else if start > 0 then start else 0
  }

  /** Cache counts in message_delta do not count as usage seen. */
  predicate UsageSeen(start: Usage, end: Usage) {
    start.input > 0 || start.cacheRead > 0 || start.cacheCreation > 0 || end.input > 0 || end.output > 0
  }

  const NO_USAGE: Usage := Usage(0, 0, 0, 0)

  /** The usage that a stream with these two reports amounts to. Output is taken from
      message_delta alone. */
  function KeptUsage(start: Usage, end: Usage): Usage {
    if UsageSeen(start, end) then
      Usage(Kept(start.input, end.input), Kept(0, end.output),
            Kept(start.cacheRead, end.cacheRead), Kept(start.cacheCreation, end.cacheCreation))
    else NO_USAGE
  }

  predicate CountsAreCounts(u: Usage) {
    u.input >= 0 && u.output >= 0 && u.cacheRead >= 0 && u.cacheCreation >= 0
  }

  /** Finalizing writes what parsing a message with the kept usage writes. */
  lemma UsageKept(m: Message, start: Usage, end: Usage, chunkCount: nat, model: string)
    ensures var s := Next(Next(START, MessageStart(m.model, start)), MessageDelta(m.stopReason, end));
            Finalized(s.(chunkCount := chunkCount, text := MessageText(m.content)), Fresh(model)) ==
            Parsed(m.(usage := KeptUsage(start, end)), Fresh(model)).(chunkCount := chunkCount)
  {
    hide MessageText;
  }

  /** Of two messages that differ in usage only, the same event means the same usage. */
  lemma UsageIsTold(m: Message, usage: Usage, chunkCount: nat, model: string)
    requires CountsAreCounts(m.usage) && CountsAreCounts(usage)
    ensures Parsed(m.(usage := usage), Fresh(model)).(chunkCount := chunkCount)
            == Parsed(m, Fresh(model)).(chunkCount := chunkCount)
            <==> usage == m.usage
  {
    hide MessageText;
  }

  /** Streaming a message and finalizing gives the text, model, finish reason and the five
      token fields that parsing the whole message gives, exactly when the usage kept of the
      two frames that report any is the message's. */
  lemma StreamAgreesIffUsageKept(frames: seq<Frame>, m: Message, before: seq<Frame>, start: Usage,
                                 during: seq<Frame>, end: Usage, after: seq<Frame>, model: string)
    requires Streams(frames, m, before, start, during, end, after) && CountsAreCounts(m.usage)
    ensures Finalized(Folded(frames), Fresh(model)) ==
            Parsed(m.(usage := KeptUsage(start, end)), Fresh(model)).(chunkCount := |frames|)
    ensures Finalized(Folded(frames), Fresh(model)) == Parsed(m, Fresh(model)).(chunkCount := |frames|)
            <==> KeptUsage(start, end) == m.usage
  {
    StreamedState(frames, m, before, start, during, end, after);
    UsageKept(m, start, end, |frames|, model);
    assert CountsAreCounts(KeptUsage(start, end));
    hide *;
    UsageIsTold(m, KeptUsage(start, end), |frames|, model);
  }

  /** A count that is reported as it is, or not at all. */
  predicate Repeats(x: int, whole: int) {
    x <= 0 || x == whole
  }

  /** So it does when the prompt's counts come in message_start and the output in
      message_delta, which may repeat the rest. */
  lemma StreamAgreesWithNonStream(frames: seq<Frame>, m: Message, before: seq<Frame>, start: Usage,
                                  during: seq<Frame>, end: Usage, after: seq<Frame>, model: string)
    requires Streams(frames, m, before, start, during, end, after) && CountsAreCounts(m.usage)
    requires start.input == m.usage.input && start.cacheRead == m.usage.cacheRead
    requires start.cacheCreation == m.usage.cacheCreation && end.output == m.usage.output
    requires Repeats(end.input, m.usage.input) && Repeats(end.cacheRead, m.usage.cacheRead)
    requires Repeats(end.cacheCreation, m.usage.cacheCreation)
    ensures Finalized(Folded(frames), Fresh(model)) == Parsed(m, Fresh(model)).(chunkCount := |frames|)
  {
    StreamAgreesIffUsageKept(frames, m, before, start, during, end, after, model);
    hide Folded, Finalized, Parsed, Streams;
  }

  /** Why cache counts have to come in message_start, or with some other count: a stream
      that reports them in message_delta and nothing else anywhere drops them, and so
      agrees with the whole message only if there are none. */
  lemma CacheUsageOnlyInDeltaIsLost(frames: seq<Frame>, m: Message, before: seq<Frame>, start: Usage,
                                    during: seq<Frame>, end: Usage, after: seq<Frame>, model: string)
    requires Streams(frames, m, before, start, during, end, after) && CountsAreCounts(m.usage)
    requires start.input <= 0 && start.cacheRead <= 0 && start.cacheCreation <= 0
    requires end.input <= 0 && end.output <= 0
    ensures Finalized(Folded(frames), Fresh(model)).total == 0
    ensures Finalized(Folded(frames), Fresh(model)) == Parsed(m, Fresh(model)).(chunkCount := |frames|)
            <==> m.usage == NO_USAGE
  {
    StreamAgreesIffUsageKept(frames, m, before, start, during, end, after, model);
    hide Folded, Finalized, Streams, MessageText;
  }
  // ---------- what is written ----------

  /** What a whole message writes: its five token counts as they are, of which the total is
      the sum; nothing of these without any usage. */
  lemma MessageIsWritten(m: Message, ev: Fields)
    ensures var w, u := Parsed(m, ev), m.usage;
            && w.chunkCount == ev.chunkCount && w.reasoning == ev.reasoning
            && w.model == (if ev.model == "" then m.model else ev.model)
            && w.finishReason == (if m.stopReason == "" then ev.finishReason else m.stopReason)
            && (if u.input <= 0 && u.output <= 0 && u.cacheRead <= 0 && u.cacheCreation <= 0 then UsageUntouched(ev, w)
                else
                  && w.input == u.input && w.output == u.output && w.cached == u.cacheRead
                  && w.cacheCreation == u.cacheCreation && !w.estimated
                  && w.total == u.input + u.output + u.cacheRead + u.cacheCreation)
  {
    hide MessageText;
  }

  /** Blocks of text given as the text of one message. */
  function TextBlocks(texts: seq<string>): (r: seq<Content>)
    ensures |r| == |texts|
  {
    seq(|texts|, i requires 0 <= i < |texts| => Content("text", texts[i]))
  }

  /** And as the deltas of one stream. */
  function TextDeltas(texts: seq<string>): (r: seq<Frame>)
    ensures |r| == |texts|
  {
    seq(|texts|, i requires 0 <= i < |texts| => BlockDelta("text_delta", texts[i], "", ""))
  }

  function Concatenated(texts: seq<string>): string {
    if texts == [] then "" else Concatenated(texts[..|texts| - 1]) + texts[|texts| - 1]
  }

  /** The text of both is that of the texts in order. */
  lemma {:induction false} TextInOrder(texts: seq<string>)
    ensures MessageText(TextBlocks(texts)) == StreamText(TextDeltas(texts)) == Concatenated(texts)
  {
    if texts != [] {
      var init := texts[..|texts| - 1];
      TextInOrder(init);
      assert TextBlocks(texts)[..|init|] == TextBlocks(init) && TextDeltas(texts)[..|init|] == TextDeltas(init);
    }
  }

  /** Only text deltas add text to a stream, and only text blocks to a message. */
  lemma OtherFramesHaveNoText(frames: seq<Frame>, f: Frame, content: seq<Content>, block: Content)
    ensures !(f.BlockDelta? && f.kind == "text_delta") ==> StreamText(frames + [f]) == StreamText(frames)
    ensures block.kind != "text" ==> MessageText(content + [block]) == MessageText(content)
  {
    assert (frames + [f])[..|frames|] == frames && (content + [block])[..|content|] == content;
  }

  /** What moves the timeline: a block of output that begins, or a delta that brings text,
      thinking or a piece of a tool's input. */
  lemma GeneratesIf(f: Frame)
    ensures f.MessageStart? || f.MessageDelta? || f.Other? ==> !Generates(f)
    ensures f.BlockStart? ==>
              (Generates(f) <==> f.kind == "text" || f.kind == "thinking" || f.kind == "tool_use"
                                 || f.kind == "server_tool_use" || f.kind == "web_search_tool_result")
    ensures f.BlockDelta? && f.kind == "text_delta" ==> (Generates(f) <==> f.text != "")
    ensures f.BlockDelta? && f.kind == "thinking_delta" ==> (Generates(f) <==> f.thinking != "")
    ensures f.BlockDelta? && f.kind == "input_json_delta" ==> (Generates(f) <==> f.partialJson != "")
    ensures f.BlockDelta? && f.kind !in {"text_delta", "thinking_delta", "input_json_delta"} ==> !Generates(f)
  {
  }
  // ---------- which of many reports is kept ----------

  const NOTHING: Usage := Usage(0, 0, 0, 0)

  function ModelOf(f: Frame): string {
    if f.MessageStart? then f.model else ""
  }

  function ReasonOf(f: Frame): string {
    if f.MessageDelta? then f.stopReason else ""
  }

  /** The positive counts that a frame reports; output in message_delta only. */
  function UsageOf(f: Frame): Usage {
    match f
    case MessageStart(_, u) => Usage(Count(u.input), 0, Count(u.cacheRead), Count(u.cacheCreation))
    case MessageDelta(_, u) => Usage(Count(u.input), Count(u.output), Count(u.cacheRead), Count(u.cacheCreation))
    case _ => NOTHING
  }

  function Count(n: int): int {
    if n > 0 then n else 0
  }

  function Models(frames: seq<Frame>): (r: seq<string>)
    ensures |r| == |frames|
  {
    seq(|frames|, i requires 0 <= i < |frames| => ModelOf(frames[i]))
  }

  function StopReasons(frames: seq<Frame>): (r: seq<string>)
    ensures |r| == |frames|
  {
    seq(|frames|, i requires 0 <= i < |frames| => ReasonOf(frames[i]))
  }

  function Counts(frames: seq<Frame>, of: Usage -> int): (r: seq<int>)
    ensures |r| == |frames|
  {
    seq(|frames|, i requires 0 <= i < |frames| => of(UsageOf(frames[i])))
  }

  /** A prompt count in any frame, or an output count. */
  predicate TellsUsage(f: Frame) {
    match f
    case MessageStart(_, u) => u.input > 0 || u.cacheRead > 0 || u.cacheCreation > 0
    case MessageDelta(_, u) => u.input > 0 || u.output > 0
    case _ => false
  }

  ghost predicate CountsKept(frames: seq<Frame>, s: State) {
    && Last(Counts(frames, (u: Usage) => u.input), 0, s.input)
    && Last(Counts(frames, (u: Usage) => u.output), 0, s.output)
    && Last(Counts(frames, (u: Usage) => u.cacheRead), 0, s.cacheRead)
    && Last(Counts(frames, (u: Usage) => u.cacheCreation), 0, s.cacheCreation)
  }

  lemma NextKeeps(s: State, f: Frame)
    ensures var t, u := Next(s, f), UsageOf(f);
            && t.model == (if ModelOf(f) == "" then s.model else ModelOf(f))
            && t.finishReason == (if ReasonOf(f) == "" then s.finishReason else ReasonOf(f))
            && t.input == (if u.input == 0 then s.input else u.input)
            && t.output == (if u.output == 0 then s.output else u.output)
            && t.cacheRead == (if u.cacheRead == 0 then s.cacheRead else u.cacheRead)
            && t.cacheCreation == (if u.cacheCreation == 0 then s.cacheCreation else u.cacheCreation)
            && t.usageSeen == (s.usageSeen || TellsUsage(f)) && t.chunkCount == s.chunkCount + 1
  {
    hide TextOf;
  }

  lemma CountsExtend(frames: seq<Frame>, f: Frame, s: State, t: State)
    requires CountsKept(frames, s)
    requires var u := UsageOf(f);
             && t.input == (if u.input == 0 then s.input else u.input)
             && t.output == (if u.output == 0 then s.output else u.output)
             && t.cacheRead == (if u.cacheRead == 0 then s.cacheRead else u.cacheRead)
             && t.cacheCreation == (if u.cacheCreation == 0 then s.cacheCreation else u.cacheCreation)
    ensures CountsKept(frames + [f], t)
  {
    hide UsageOf, Last;
    CountExtends(frames, f, (u: Usage) => u.input, s.input);
    CountExtends(frames, f, (u: Usage) => u.output, s.output);
    CountExtends(frames, f, (u: Usage) => u.cacheRead, s.cacheRead);
    CountExtends(frames, f, (u: Usage) => u.cacheCreation, s.cacheCreation);
  }

  lemma CountExtends(frames: seq<Frame>, f: Frame, of: Usage -> int, kept: int)
    requires Last(Counts(frames, of), 0, kept)
    ensures Last(Counts(frames + [f], of), 0, if of(UsageOf(f)) == 0 then kept else of(UsageOf(f)))
  {
    hide UsageOf, Last;
    KeepsLast(Counts(frames, of), 0, kept, of(UsageOf(f)));
    assert Counts(frames + [f], of) == Counts(frames, of) + [of(UsageOf(f))];
  }

  lemma FoldStep(frames: seq<Frame>)
    requires frames != []
    ensures Folded(frames) == Next(Folded(frames[..|frames| - 1]), frames[|frames| - 1])
  {
    hide Next;
  }

  lemma LastApart(frames: seq<Frame>)
    requires frames != []
    ensures frames == frames[..|frames| - 1] + [frames[|frames| - 1]]
  {
  }

  /** In any stream, whatever its frames: the last model and stop reason named. */
  lemma {:induction false} ReportsKept(frames: seq<Frame>)
    ensures Last(Models(frames), "", Folded(frames).model)
    ensures Last(StopReasons(frames), "", Folded(frames).finishReason)
  {
    if frames != [] {
      var n := |frames| - 1;
      var init, f := frames[..n], frames[n];
      ReportsKept(init);
      hide Folded, Next, ModelOf, ReasonOf, Last;
      FoldStep(frames);
      NextKeeps(Folded(init), f);
      assert Models(frames) == Models(init) + [ModelOf(f)] && StopReasons(frames) == StopReasons(init) + [ReasonOf(f)];
      hide *;
      KeepsLast(Models(init), "", Folded(init).model, ModelOf(f));
      KeepsLast(StopReasons(init), "", Folded(init).finishReason, ReasonOf(f));
    }
  }

  /** Of each count the last positive report, and one chunk counted for every frame. */
  lemma {:induction false} CountsAreKept(frames: seq<Frame>)
    ensures CountsKept(frames, Folded(frames)) && Folded(frames).chunkCount == |frames|
  {
    if frames == [] {
      assert CountsKept([], START);
    } else {
      var n := |frames| - 1;
      CountsAreKept(frames[..n]);
      hide *;
      FoldStep(frames);
      LastApart(frames);
      NextKeeps(Folded(frames[..n]), frames[n]);
      CountsExtend(frames[..n], frames[n], Folded(frames[..n]), Folded(frames));
    }
  }

  /** And usage has been seen exactly if some frame tells any that counts. */
  lemma {:induction false} SeenIffTold(frames: seq<Frame>)
    ensures Folded(frames).usageSeen <==> exists i | 0 <= i < |frames| :: TellsUsage(frames[i])
  {
    if frames != [] {
      var n := |frames| - 1;
      SeenIffTold(frames[..n]);
      hide *;
      FoldStep(frames);
      NextKeeps(Folded(frames[..n]), frames[n]);
      assert forall i | 0 <= i < n :: frames[..n][i] == frames[i];
    }
  }
}
