/**
The chat-completions part of the OpenAI parser
(internal/proxy/stream/openai_parser.go), from decoded chunks.
*/
module OpenAIParser {
  import opened Wrappers
  import opened TraceEvent
  import opened PromptTokens
  import opened Reports
  import Interleaving
  import Pricing

  datatype Usage = Usage(
    prompt: int, completion: int, total: int,
    cacheHit: int,                 // DeepSeek: prompt_cache_hit_tokens
    promptCached: Option<int>,     // prompt_tokens_details.cached_tokens
    reasoning: Option<int>)        // completion_tokens_details.reasoning_tokens

  function CachedTokens(u: Usage): int {
    if u.promptCached.Some? && u.promptCached.value > 0 then u.promptCached.value else u.cacheHit
  }

  function ReasoningTokens(u: Usage): int {
    if u.reasoning.Some? then u.reasoning.value else 0
  }

  datatype Choice = Choice(content: string, reasoning: string, toolCalls: nat, finish: Option<string>)

  datatype Chunk =
    | Chat(model: string, choices: seq<Choice>, usage: Option<Usage>)
    | Undecodable
    | Done

  datatype State = State(
    chunkCount: nat, text: string, usage: Option<Usage>, finishReason: string, model: string)

  const START: State := State(0, "", None, "", "")

  function ChoicesText(choices: seq<Choice>): string {
    if choices == [] then ""
    else ChoicesText(choices[..|choices| - 1]) + choices[|choices| - 1].content + choices[|choices| - 1].reasoning
  }

  function LastFinish(choices: seq<Choice>, before: string): string {
    if choices == [] then before
    else
      var c := choices[|choices| - 1];
      if c.finish.Some? && c.finish.value != "" then c.finish.value else LastFinish(choices[..|choices| - 1], before)
  }

  predicate ToolDelta(choices: seq<Choice>) {
    exists i | 0 <= i < |choices| :: choices[i].toolCalls > 0
  }

  predicate Generates(c: Chunk) {
    c.Chat? && (ChoicesText(c.choices) != "" || ToolDelta(c.choices))
  }

  function Next(s: State, c: Chunk): State {
    var s := s.(chunkCount := s.chunkCount + 1);
    if !c.Chat? then s
    else s.(text := s.text + ChoicesText(c.choices),
            finishReason := LastFinish(c.choices, s.finishReason),
            model := if s.model == "" then c.model else s.model,
            usage := if c.usage.Some? then c.usage else s.usage)
  }

  function Folded(chunks: seq<Chunk>): State {
    if chunks == [] then START else Next(Folded(chunks[..|chunks| - 1]), chunks[|chunks| - 1])
  }

  function WithUsage(ev: Fields, u: Usage): Fields {
    ev.(input := Uncached(u.prompt, CachedTokens(u)), output := u.completion, total := u.total,
        reasoning := ReasoningTokens(u), cached := CachedTokens(u), estimated := false)
  }

  function Finalized(s: State, ev: Fields): Fields {
    var ev := ev.(responseText := s.text, chunkCount := s.chunkCount, finishReason := s.finishReason,
                  model := if s.model != "" && ev.model == "" then s.model else ev.model);
    if s.usage.Some? then WithUsage(ev, s.usage.value) else ev
  }

  /** A whole chat completion, as the non-streaming endpoint returns it. */
  datatype Answer = Answer(content: string, reasoning: string, finish: string)
  datatype Completion = Completion(model: string, answers: seq<Answer>, usage: Option<Usage>)

  /** A later answer with content replaces the text so far; reasoning is appended. */
  function AnswersText(answers: seq<Answer>, before: string): string {
    if answers == [] then before
    else
      var a, text := answers[|answers| - 1], AnswersText(answers[..|answers| - 1], before);
      (if a.content != "" then a.content else text) + a.reasoning
  }

  function AnswersFinish(answers: seq<Answer>, before: string): string {
    if answers == [] then before
    else if answers[|answers| - 1].finish != "" then answers[|answers| - 1].finish
    else AnswersFinish(answers[..|answers| - 1], before)
  }

  function Parsed(c: Completion, ev: Fields): Fields {
    var ev := ev.(model := if c.model != "" && ev.model == "" then c.model else ev.model,
                  responseText := AnswersText(c.answers, ev.responseText),
                  finishReason := AnswersFinish(c.answers, ev.finishReason));
    if c.usage.Some? then WithUsage(ev, c.usage.value) else ev
  }

  class Parser {
    var chunkCount: nat
    var text: string
    var totalIn: int
    var totalOut: int
    var totalAll: int
    var reasoningToks: int
    var cachedInToks: int
    var finishReason: string
    var model: string
    var tokensFromUsage: bool
    ghost var lastUsage: Option<Usage>

    ghost predicate Valid()
      reads this
    {
      && tokensFromUsage == lastUsage.Some?
      && (lastUsage.Some? ==>
            && totalIn == lastUsage.value.prompt && totalOut == lastUsage.value.completion
            && totalAll == lastUsage.value.total && cachedInToks == CachedTokens(lastUsage.value)
            && reasoningToks == ReasoningTokens(lastUsage.value))
    }

    ghost function View(): State
      reads this
    {
      State(chunkCount, text, lastUsage, finishReason, model)
    }

    constructor ()
      ensures Valid() && View() == START
    {
      chunkCount, text, finishReason, model, tokensFromUsage := 0, "", "", "", false;
      totalIn, totalOut, totalAll, reasoningToks, cachedInToks := 0, 0, 0, 0, 0;
      lastUsage := None;
    }

    method SetUsage(u: Usage)
      modifies this
      ensures Valid() && View() == old(View()).(usage := Some(u))
    {
      totalIn, totalOut, totalAll := u.prompt, u.completion, u.total;
      cachedInToks := CachedTokens(u);
      reasoningToks := ReasoningTokens(u);
      tokensFromUsage := true;
      lastUsage := Some(u);
    }

    /** The deltas of one chunk, and the last finish reason. */
    method ReadChoices(choices: seq<Choice>) returns (delta: string, sawToolDelta: bool)
      modifies this`finishReason
      ensures delta == ChoicesText(choices) && (sawToolDelta <==> ToolDelta(choices))
      ensures finishReason == LastFinish(choices, old(finishReason))
    {
      delta, sawToolDelta := "", false;
      for i := 0 to |choices|
        invariant delta == ChoicesText(choices[..i])
        invariant sawToolDelta <==> ToolDelta(choices[..i])
        invariant finishReason == LastFinish(choices[..i], old(finishReason))
      {
        var ch := choices[i];
        assert choices[..i + 1][..i] == choices[..i];
        ToolDeltaStep(choices, i);
        assert delta + "" + "" == delta && delta + ch.content + "" == delta + ch.content;
        if ch.content != "" {
          delta := delta + ch.content;
        }
        if ch.reasoning != "" {
          delta := delta + ch.reasoning;
        }
        if ch.toolCalls > 0 {
          sawToolDelta := true;
        }
        if ch.finish.Some? && ch.finish.value != "" {
          finishReason := ch.finish.value;
        }
      }
      assert choices[..|choices|] == choices;
    }

    /** One iteration of Feed; the chat-completions part of handleChunk. */
    method HandleChunk(c: Chunk, now: Instant, tl: Timeline)
      requires Valid()
      modifies this, tl
      ensures Valid() && View() == Next(old(View()), c)
      ensures (tl.firstToken, tl.lastToken) == Marked((old(tl.firstToken), old(tl.lastToken)), now, Generates(c))
    {
      hide ChoicesText, LastFinish, ToolDelta, Marked;
      assert text + "" == text;
      chunkCount := chunkCount + 1;
      assert Marked((tl.firstToken, tl.lastToken), now, false) == (tl.firstToken, tl.lastToken) by {
        NotMarked((tl.firstToken, tl.lastToken), now);
      }
      if !c.Chat? {
        return;
      }
      if c.model != "" && model == "" {
        model := c.model;
      }
      var delta, sawToolDelta := ReadChoices(c.choices);
      if delta != "" {
        text := text + delta;
      }
      if delta != "" || sawToolDelta {
        tl.MarkGenerated(now);
      }
      if c.usage.Some? {
        SetUsage(c.usage.value);
      }
    }

    method Feed(chunks: seq<Chunk>, times: seq<Instant>, tl: Timeline)
      requires |times| == |chunks| && Valid() && View() == START && tl.firstToken == tl.lastToken == 0
      modifies this, tl
      ensures Valid() && View() == Folded(chunks)
      ensures (tl.firstToken, tl.lastToken) == MarksAfter(Arrivals(chunks, times))
    {
      hide Next, Generates, Marked;
      for i := 0 to |chunks|
        invariant Valid() && View() == Folded(chunks[..i])
        invariant (tl.firstToken, tl.lastToken) == MarksAfter(Arrivals(chunks, times)[..i])
      {
        assert chunks[..i + 1][..i] == chunks[..i];
        assert Arrivals(chunks, times)[..i + 1][..i] == Arrivals(chunks, times)[..i];
        HandleChunk(chunks[i], times[i], tl);
      }
      assert chunks[..|chunks|] == chunks && Arrivals(chunks, times)[..|chunks|] == Arrivals(chunks, times);
    }

    method Finalize(ev: Event)
      requires Valid()
      modifies ev
      ensures ev.fields == Finalized(View(), old(ev.fields))
    {
      ev.fields := ev.fields.(responseText := text, chunkCount := chunkCount, finishReason := finishReason);
      if tokensFromUsage {
        ev.fields := ev.fields.(input := Max(totalIn - cachedInToks, 0), output := totalOut, total := totalAll,
                                reasoning := reasoningToks, cached := cachedInToks, estimated := false);
      }
      if model != "" && ev.fields.model == "" {
        ev.fields := ev.fields.(model := model);
      }
    }

    method ParseNonStream(c: Completion, ev: Event)
      modifies ev
      ensures ev.fields == Parsed(c, old(ev.fields))
    {
      if c.model != "" && ev.fields.model == "" {
        ev.fields := ev.fields.(model := c.model);
      }
      ghost var start := ev.fields;
      for i := 0 to |c.answers|
        invariant ev.fields == start.(responseText := AnswersText(c.answers[..i], start.responseText),
                                      finishReason := AnswersFinish(c.answers[..i], start.finishReason))
      {
        var a := c.answers[i];
        assert c.answers[..i + 1][..i] == c.answers[..i];
        ghost var text := ev.fields.responseText;
        assert text + "" == text && a.content + "" == a.content;
        if a.content != "" {
          ev.fields := ev.fields.(responseText := a.content);
        }
        if a.reasoning != "" {
          ev.fields := ev.fields.(responseText := ev.fields.responseText + a.reasoning);
        }
        if a.finish != "" {
          ev.fields := ev.fields.(finishReason := a.finish);
        }
      }
      assert c.answers[..|c.answers|] == c.answers;
      if c.usage.Some? {
        var u := c.usage.value;
        var cached := CachedTokens(u);
        ev.fields := ev.fields.(input := Max(u.prompt - cached, 0), output := u.completion, total := u.total,
                                cached := cached, reasoning := ReasoningTokens(u), estimated := false);
      }
    }
  }

  lemma ToolDeltaStep(choices: seq<Choice>, i: nat)
    requires i < |choices|
    ensures ToolDelta(choices[..i + 1]) <==> ToolDelta(choices[..i]) || choices[i].toolCalls > 0
  {
    if ToolDelta(choices[..i]) {
      var k :| 0 <= k < i && choices[..i][k].toolCalls > 0;
      assert choices[..i + 1][k].toolCalls > 0;
    }
    if choices[i].toolCalls > 0 {
      assert choices[..i + 1][i].toolCalls > 0;
    }
    if ToolDelta(choices[..i + 1]) && choices[i].toolCalls == 0 {
      var k :| 0 <= k < i + 1 && choices[..i + 1][k].toolCalls > 0;
      assert choices[..i][k].toolCalls > 0;
    }
  }

  function Arrivals(chunks: seq<Chunk>, times: seq<Instant>): (r: seq<(Instant, bool)>)
    requires |times| == |chunks|
    ensures |r| == |chunks|
  {
    seq(|chunks|, i requires 0 <= i < |chunks| => (times[i], Generates(chunks[i])))
  }

  // ---------- what a whole stream amounts to ----------

  function ChunkText(c: Chunk): string {
    if c.Chat? then ChoicesText(c.choices) else ""
  }

  function ChunksText(chunks: seq<Chunk>): string {
    if chunks == [] then "" else ChunksText(chunks[..|chunks| - 1]) + ChunkText(chunks[|chunks| - 1])
  }

  /** All deltas in arrival order, and one chunk counted for every data event, [DONE] and
      undecodable ones included. */
  lemma {:induction false} TextIsEveryDelta(chunks: seq<Chunk>)
    ensures Folded(chunks).text == ChunksText(chunks) && Folded(chunks).chunkCount == |chunks|
  {
    if chunks != [] {
      var init := chunks[..|chunks| - 1];
      TextIsEveryDelta(init);
      hide ChoicesText, LastFinish;
      assert Folded(init).text + "" == Folded(init).text;
    }
  }

  // What one chunk reports, and the reports of a stream.

  function ModelOf(c: Chunk): string {
    if c.Chat? then c.model else ""
  }

  function UsageOf(c: Chunk): Option<Usage> {
    if c.Chat? then c.usage else None
  }

  function FinishOf(c: Chunk): string {
    if c.Chat? then LastFinish(c.choices, "") else ""
  }

  function Models(chunks: seq<Chunk>): seq<string> {
    if chunks == [] then [] else Models(chunks[..|chunks| - 1]) + [ModelOf(chunks[|chunks| - 1])]
  }

  function Usages(chunks: seq<Chunk>): seq<Option<Usage>> {
    if chunks == [] then [] else Usages(chunks[..|chunks| - 1]) + [UsageOf(chunks[|chunks| - 1])]
  }

  function Finishes(chunks: seq<Chunk>): seq<string> {
    if chunks == [] then [] else Finishes(chunks[..|chunks| - 1]) + [FinishOf(chunks[|chunks| - 1])]
  }

  lemma FoldStep(chunks: seq<Chunk>)
    requires chunks != []
    ensures var s, t, c := Folded(chunks[..|chunks| - 1]), Folded(chunks), chunks[|chunks| - 1];
            && t.model == (if s.model == "" then ModelOf(c) else s.model)
            && t.usage == (if UsageOf(c) == None then s.usage else UsageOf(c))
            && t.finishReason == (if FinishOf(c) == "" then s.finishReason else FinishOf(c))
  {
    var s, c := Folded(chunks[..|chunks| - 1]), chunks[|chunks| - 1];
    if c.Chat? {
      FinishReplaces(c.choices, s.finishReason);
    }
    hide ChoicesText, LastFinish;
  }

  lemma {:induction false} FinishReplaces(choices: seq<Choice>, before: string)
    ensures LastFinish(choices, before) == if LastFinish(choices, "") != "" then LastFinish(choices, "") else before
  {
    if choices != [] {
      FinishReplaces(choices[..|choices| - 1], before);
    }
  }

  /** The first model that any chunk names, or none. */
  lemma {:induction false} FirstModelWins(chunks: seq<Chunk>)
    ensures First(Models(chunks), "", Folded(chunks).model)
  {
    if chunks != [] {
      var n := |chunks| - 1;
      FirstModelWins(chunks[..n]);
      FoldStep(chunks);
      hide Folded, ModelOf, First;
      KeepsFirst(Models(chunks[..n]), "", Folded(chunks[..n]).model, ModelOf(chunks[n]));
    }
  }

  /** The last usage that any chunk reports, or none. */
  lemma {:induction false} LastUsageWins(chunks: seq<Chunk>)
    ensures Last(Usages(chunks), None, Folded(chunks).usage)
  {
    if chunks != [] {
      var n := |chunks| - 1;
      LastUsageWins(chunks[..n]);
      FoldStep(chunks);
      hide Folded, UsageOf, Last;
      KeepsLast(Usages(chunks[..n]), None, Folded(chunks[..n]).usage, UsageOf(chunks[n]));
    }
  }

  /** The last finish reason that any chunk gives, or none. */
  lemma {:induction false} LastFinishWins(chunks: seq<Chunk>)
    ensures Last(Finishes(chunks), "", Folded(chunks).finishReason)
  {
    if chunks != [] {
      var n := |chunks| - 1;
      LastFinishWins(chunks[..n]);
      FoldStep(chunks);
      hide Folded, FinishOf, Last;
      KeepsLast(Finishes(chunks[..n]), "", Folded(chunks[..n]).finishReason, FinishOf(chunks[n]));
    }
  }

  // ---------- the stream against the whole completion ----------

  /** A stream of one answer: at most one choice a chunk. */
  predicate OneChoice(chunks: seq<Chunk>) {
    forall i | 0 <= i < |chunks| && chunks[i].Chat? :: |chunks[i].choices| <= 1
  }

  // The content and the reasoning of one chunk of a one-answer stream, and of all of it.

  function Content(c: Chunk): string {
    if c.Chat? && c.choices != [] then c.choices[0].content else ""
  }

  function Reasoning(c: Chunk): string {
    if c.Chat? && c.choices != [] then c.choices[0].reasoning else ""
  }

  function ContentOf(chunks: seq<Chunk>): string {
    if chunks == [] then "" else ContentOf(chunks[..|chunks| - 1]) + Content(chunks[|chunks| - 1])
  }

  function ReasoningOf(chunks: seq<Chunk>): string {
    if chunks == [] then "" else ReasoningOf(chunks[..|chunks| - 1]) + Reasoning(chunks[|chunks| - 1])
  }

  lemma OneChoiceText(c: Chunk)
    requires c.Chat? ==> |c.choices| <= 1
    ensures ChunkText(c) == Content(c) + Reasoning(c)
  {
    if c.Chat? && |c.choices| == 1 {
      var choice := c.choices[0];
      assert c.choices[..0] == [] && ChoicesText([]) == "";
      assert "" + choice.content == choice.content;
      assert ChoicesText(c.choices) == "" + choice.content + choice.reasoning;
    }
  }

  /** No content arrives once reasoning has begun. */
  ghost predicate ContentFirst(chunks: seq<Chunk>) {
    forall i, j | 0 <= i < j < |chunks| && Reasoning(chunks[i]) != "" :: Content(chunks[j]) == ""
  }

  predicate Disjoint(a: string, b: string) {
    forall i, j | 0 <= i < |a| && 0 <= j < |b| :: a[i] != b[j]
  }

  lemma OfLast(chunks: seq<Chunk>)
    requires chunks != []
    ensures var init, last := chunks[..|chunks| - 1], chunks[|chunks| - 1];
            && ContentOf(chunks) == ContentOf(init) + Content(last)
            && ReasoningOf(chunks) == ReasoningOf(init) + Reasoning(last)
            && ChunksText(chunks) == ChunksText(init) + ChunkText(last)
  {
    hide Content, Reasoning, ChunkText;
  }

  predicate NoReasoning(chunks: seq<Chunk>) {
    forall i | 0 <= i < |chunks| :: Reasoning(chunks[i]) == ""
  }

  lemma NoReasoningStep(chunks: seq<Chunk>)
    requires chunks != []
    ensures NoReasoning(chunks) <==> NoReasoning(chunks[..|chunks| - 1]) && Reasoning(chunks[|chunks| - 1]) == ""
  {
    hide Reasoning;
    var init := chunks[..|chunks| - 1];
    assert forall i | 0 <= i < |init| :: init[i] == chunks[i];
  }

  lemma {:induction false} NoReasoningYet(chunks: seq<Chunk>)
    ensures ReasoningOf(chunks) == "" <==> NoReasoning(chunks)
  {
    if chunks != [] {
      var init, last := chunks[..|chunks| - 1], chunks[|chunks| - 1];
      NoReasoningYet(init);
      NoReasoningStep(chunks);
      OfLast(chunks);
      hide *;
      assert |ReasoningOf(chunks)| == |ReasoningOf(init)| + |Reasoning(last)|;
    }
  }

  lemma FirstOfInit(chunks: seq<Chunk>)
    requires chunks != []
    ensures var init, last := chunks[..|chunks| - 1], chunks[|chunks| - 1];
            ContentFirst(chunks) <==> ContentFirst(init) && (Content(last) == "" || ReasoningOf(init) == "")
  {
    var n := |chunks| - 1;
    NoReasoningYet(chunks[..n]);
    hide Content, Reasoning, ReasoningOf;
    assert forall i | 0 <= i < n :: chunks[..n][i] == chunks[i];
  }

  lemma CutEnd(t: string, c: string, r: string, content: string, reasoning: string)
    ensures t + (c + r) == (content + c) + (reasoning + r) <==> t + c == (content + c) + reasoning
  {
    var x, y := t + c, (content + c) + reasoning;
    assert t + (c + r) == x + r && (content + c) + (reasoning + r) == y + r;
    if x + r == y + r {
      assert |x| == |y|;
      assert x == (x + r)[..|x|] && y == (y + r)[..|y|];
    }
  }

  /** One more piece of content after some reasoning gets into the middle of the text. */
  lemma EndsDiffer(t: string, c: string, content: string, reasoning: string)
    requires Disjoint(content + c, reasoning) && c != "" && reasoning != ""
    ensures t + c != (content + c) + reasoning
  {
    var x, y := t + c, (content + c) + reasoning;
    assert x[|x| - 1] == c[|c| - 1] == (content + c)[|content + c| - 1];
    assert y[|y| - 1] == reasoning[|reasoning| - 1];
  }

  lemma DisjointParts(a: string, b: string, c: string, d: string)
    requires Disjoint(a + b, c + d)
    ensures Disjoint(a, c) && Disjoint(a + b, c)
  {
    assert forall i | 0 <= i < |a| :: (a + b)[i] == a[i];
    assert forall i | 0 <= i < |c| :: (c + d)[i] == c[i];
  }

  /** The streamed text is the content followed by the reasoning, as in the whole answer, if
      no content arrives after reasoning; and only then, unless the two share characters
      and could be taken for one another. */
  lemma {:induction false} TextAgreesIffContentFirst(chunks: seq<Chunk>)
    requires OneChoice(chunks)
    ensures ContentFirst(chunks) ==> ChunksText(chunks) == ContentOf(chunks) + ReasoningOf(chunks)
    ensures Disjoint(ContentOf(chunks), ReasoningOf(chunks)) ==>
              (ChunksText(chunks) == ContentOf(chunks) + ReasoningOf(chunks) <==> ContentFirst(chunks))
  {
    if chunks != [] {
      var n := |chunks| - 1;
      var init, last := chunks[..n], chunks[n];
      TextAgreesIffContentFirst(init);
      OfLast(chunks);
      OneChoiceText(last);
      FirstOfInit(chunks);
      var t, content, reasoning, c, r := ChunksText(init), ContentOf(init), ReasoningOf(init), Content(last), Reasoning(last);
      hide *;
      OneMoreChunk(t, content, reasoning, c, r);
      CutEnd(t, c, r, content, reasoning);
      if Disjoint(content + c, reasoning + r) {
        DisjointParts(content, c, reasoning, r);
        if c != "" && reasoning != "" {
          EndsDiffer(t, c, content, reasoning);
        }
      }
    }
  }

  lemma OneMoreChunk(t: string, content: string, reasoning: string, c: string, r: string)
    ensures c == "" || reasoning == "" ==> (t + c == (content + c) + reasoning <==> t == content + reasoning)
  {
    if c == "" {
      assert t + c == t && content + c == content;
    } else if reasoning == "" {
      assert (content + c) + reasoning == content + c && content + reasoning == content;
      if t + c == content + c {
        assert |t| == |content| && (t + c)[..|t|] == t && (content + c)[..|t|] == content;
      }
    }
  }

  // ---------- whatever the characters are ----------

  /** Two one-answer streams that are cut alike and may differ in what they say. */
  ghost predicate SameShape(a: seq<Chunk>, b: seq<Chunk>) {
    && OneChoice(a) && OneChoice(b) && |a| == |b|
    && forall i | 0 <= i < |a| ::
         |Content(a[i])| == |Content(b[i])| && |Reasoning(a[i])| == |Reasoning(b[i])|
  }

  function Repeated(x: char, n: nat): string {
    seq(n, _ => x)
  }

  function Lettered(c: Chunk): Chunk {
    Chat("", [Choice(Repeated('c', |Content(c)|), Repeated('r', |Reasoning(c)|), 0, None)], None)
  }

  /** The same cut with content all c and reasoning all r. */
  function AllLettered(chunks: seq<Chunk>): seq<Chunk> {
    seq(|chunks|, i requires 0 <= i < |chunks| => Lettered(chunks[i]))
  }

  predicate Only(s: string, x: char) {
    forall i | 0 <= i < |s| :: s[i] == x
  }

  lemma {:induction false} LettersOnly(chunks: seq<Chunk>)
    ensures Only(ContentOf(AllLettered(chunks)), 'c') && Only(ReasoningOf(AllLettered(chunks)), 'r')
  {
    if chunks != [] {
      var init := chunks[..|chunks| - 1];
      LettersOnly(init);
      assert AllLettered(chunks)[..|chunks| - 1] == AllLettered(init);
    }
  }

  /** The text of a stream that is cut like this one agrees whatever it says, if and only
      if no content arrives after reasoning. */
  lemma AlwaysAgreesIffContentFirst(chunks: seq<Chunk>)
    requires OneChoice(chunks)
    ensures (forall other | SameShape(chunks, other) :: ChunksText(other) == ContentOf(other) + ReasoningOf(other))
            <==> ContentFirst(chunks)
  {
    forall other | SameShape(chunks, other)
      ensures ContentFirst(chunks) <==> ContentFirst(other)
      ensures ContentFirst(chunks) ==> ChunksText(other) == ContentOf(other) + ReasoningOf(other)
    {
      SameOrder(chunks, other);
      TextAgreesIffContentFirst(other);
    }
    var other := AllLettered(chunks);
    assert SameShape(chunks, other);
    LettersOnly(chunks);
    assert Disjoint(ContentOf(other), ReasoningOf(other));
    TextAgreesIffContentFirst(other);
  }

  lemma SameOrder(a: seq<Chunk>, b: seq<Chunk>)
    requires SameShape(a, b)
    ensures ContentFirst(a) <==> ContentFirst(b)
  {
    hide Content, Reasoning, OneChoice;
    forall i | 0 <= i < |a| ensures (Content(a[i]) == "" <==> Content(b[i]) == "") && (Reasoning(a[i]) == "" <==> Reasoning(b[i]) == "") {
      assert |Content(a[i])| == |Content(b[i])|;
    }
  }

  lemma OneAnswer(answer: Answer, text: string, finish: string)
    requires text == "" && finish == ""
    ensures AnswersText([answer], text) == answer.content + answer.reasoning
    ensures AnswersFinish([answer], finish) == answer.finish
  {
    assert [answer][..0] == [];
  }

  /** What an end state and a whole completion make of a fresh event, field by field. */
  lemma Assembled(s: State, c: Completion, model: string)
    requires s.model == c.model && s.usage == c.usage && s.finishReason == AnswersFinish(c.answers, "")
    ensures Finalized(s, Fresh(model)) ==
            Parsed(c, Fresh(model)).(chunkCount := s.chunkCount, responseText := s.text)
    ensures Parsed(c, Fresh(model)).responseText == AnswersText(c.answers, "")
  {
    hide AnswersText, AnswersFinish, CachedTokens, ReasoningTokens, Uncached;
  }

  lemma EndState(chunks: seq<Chunk>, model: string, usage: Option<Usage>, finish: string)
    requires First(Models(chunks), "", model) && Last(Usages(chunks), None, usage)
    requires Last(Finishes(chunks), "", finish)
    ensures Folded(chunks) == State(|chunks|, ChunksText(chunks), usage, finish, model)
  {
    hide *;
    TextIsEveryDelta(chunks);
    FirstModelWins(chunks);
    OneFirst(Models(chunks), "", Folded(chunks).model, model);
    LastUsageWins(chunks);
    OneLast(Usages(chunks), None, Folded(chunks).usage, usage);
    LastFinishWins(chunks);
    OneLast(Finishes(chunks), "", Folded(chunks).finishReason, finish);
  }

  /** Streaming one answer and finalizing gives what parsing the whole completion gives in
      every field but the text, which is in arrival order; so it gives all of it if no
      content arrives after reasoning, and only then when the two share no character. */
  lemma StreamAgreesWithNonStream(chunks: seq<Chunk>, c: Completion, answer: Answer, model: string)
    requires OneChoice(chunks) && c.answers == [answer]
    requires answer.content == ContentOf(chunks) && answer.reasoning == ReasoningOf(chunks)
    requires First(Models(chunks), "", c.model) && Last(Usages(chunks), None, c.usage)
    requires Last(Finishes(chunks), "", answer.finish)
    ensures var streamed, parsed := Finalized(Folded(chunks), Fresh(model)), Parsed(c, Fresh(model)).(chunkCount := |chunks|);
            && streamed == parsed.(responseText := ChunksText(chunks))
            && (ContentFirst(chunks) ==> streamed == parsed)
            && (Disjoint(answer.content, answer.reasoning) ==> (streamed == parsed <==> ContentFirst(chunks)))
  {
    EndState(chunks, c.model, c.usage, answer.finish);
    TextAgreesIffContentFirst(chunks);
    OneAnswer(answer, "", "");
    Assembled(Folded(chunks), c, model);
    hide *;
  }

  // ---------- several answers ----------

  /** No answer with content replaces anything. */
  predicate NoneReplaced(answers: seq<Answer>) {
    forall i, k | 0 <= i < k < |answers| && answers[k].content != "" ::
      answers[i].content == "" && answers[i].reasoning == ""
  }

  function AllOf(answers: seq<Answer>): string {
    if answers == [] then ""
    else AllOf(answers[..|answers| - 1]) + answers[|answers| - 1].content + answers[|answers| - 1].reasoning
  }

  lemma {:induction false} AllOfNothing(answers: seq<Answer>)
    ensures AllOf(answers) == "" <==> forall i | 0 <= i < |answers| :: answers[i].content == "" && answers[i].reasoning == ""
  {
    if answers != [] {
      var init, last := answers[..|answers| - 1], answers[|answers| - 1];
      AllOfNothing(init);
      assert |AllOf(answers)| == |AllOf(init)| + |last.content| + |last.reasoning|;
      hide AllOf;
      assert forall i | 0 <= i < |init| :: init[i] == answers[i];
    }
  }

  lemma NoneReplacedStep(answers: seq<Answer>)
    requires answers != []
    ensures var init, last := answers[..|answers| - 1], answers[|answers| - 1];
            NoneReplaced(answers) <==> NoneReplaced(init) && (last.content == "" || AllOf(init) == "")
  {
    var init := answers[..|answers| - 1];
    AllOfNothing(init);
    hide AllOf;
    assert forall i | 0 <= i < |init| :: init[i] == answers[i];
  }

  /** The text of a whole completion is that of all its answers exactly when none is
      replaced, and shorter otherwise. */
  lemma {:induction false} ReplacedIsLost(answers: seq<Answer>)
    ensures NoneReplaced(answers) ==> AnswersText(answers, "") == AllOf(answers)
    ensures !NoneReplaced(answers) ==> |AnswersText(answers, "")| < |AllOf(answers)|
  {
    if answers != [] {
      var init, last := answers[..|answers| - 1], answers[|answers| - 1];
      ReplacedIsLost(init);
      NoneReplacedStep(answers);
      hide NoneReplaced;
      assert AllOf(answers) == AllOf(init) + last.content + last.reasoning;
      assert AnswersText(answers, "") ==
             (if last.content != "" then last.content else AnswersText(init, "")) + last.reasoning;
      hide AllOf, AnswersText;
      assert AllOf(init) == "" ==> AllOf(init) + last.content == last.content;
      assert last.content == "" ==> AllOf(init) + last.content == AllOf(init);
    }
  }

  /** The stream's deltas as pieces of the answers' texts: content and reasoning of answer 0,
      of answer 1, and so on. */
  ghost predicate Deals(chunks: seq<Chunk>, ps: seq<Interleaving.Piece>, answers: seq<Answer>) {
    && Interleaving.Arrived(ps) == ChunksText(chunks) && Interleaving.RanksBelow(ps, 2 * |answers|)
    && forall k | 0 <= k < |answers| :: Dealt(ps, k, answers[k])
  }

  /** Content is text 2k, reasoning text 2k + 1. */
  ghost predicate Dealt(ps: seq<Interleaving.Piece>, k: nat, answer: Answer) {
    Interleaving.Ranked(ps, 2 * k) == answer.content && Interleaving.Ranked(ps, 2 * k + 1) == answer.reasoning
  }

  lemma AllOfStep(answers: seq<Answer>, n: nat)
    requires 0 < n <= |answers|
    ensures AllOf(answers[..n]) == AllOf(answers[..n - 1]) + answers[n - 1].content + answers[n - 1].reasoning
  {
    assert answers[..n][..n - 1] == answers[..n - 1] && answers[..n][n - 1] == answers[n - 1];
  }

  lemma TwoMore(ps: seq<Interleaving.Piece>, k: nat, answer: Answer)
    requires Dealt(ps, k, answer)
    ensures Interleaving.ByRank(ps, 2 * k + 2) == Interleaving.ByRank(ps, 2 * k) + answer.content + answer.reasoning
  {
    var m := 2 * k;
    hide Interleaving.Ranked;
    Interleaving.ByRankStep(ps, m + 2);
    Interleaving.ByRankStep(ps, m + 1);
    hide Interleaving.ByRank;
  }

  lemma NothingDealt(ps: seq<Interleaving.Piece>, answers: seq<Answer>)
    ensures Interleaving.ByRank(ps, 0) == AllOf(answers[..0])
  {
  }

  lemma {:induction false} DealtInTurn(ps: seq<Interleaving.Piece>, answers: seq<Answer>, n: nat)
    requires n <= |answers|
    requires forall k | 0 <= k < |answers| :: Dealt(ps, k, answers[k])
    ensures Interleaving.ByRank(ps, 2 * n) == AllOf(answers[..n])
  {
    hide *;
    if n == 0 {
      NothingDealt(ps, answers);
    } else {
      DealtInTurn(ps, answers, n - 1);
      AllOfStep(answers, n);
      TwoMore(ps, n - 1, answers[n - 1]);
      assert 2 * (n - 1) + 2 == 2 * n;
    }
  }

  /** Several answers in one stream: both readings agree on every field but the text. If an
      answer with content replaces something, the text never agrees; otherwise it agrees
      when the answers arrive one after the other, content first, and only then for all
      streams that are cut alike. */
  lemma SeveralAnswersAgree(chunks: seq<Chunk>, ps: seq<Interleaving.Piece>, c: Completion, model: string)
    requires Deals(chunks, ps, c.answers)
    requires First(Models(chunks), "", c.model) && Last(Usages(chunks), None, c.usage)
    requires Last(Finishes(chunks), "", AnswersFinish(c.answers, ""))
    ensures var streamed, parsed := Finalized(Folded(chunks), Fresh(model)), Parsed(c, Fresh(model)).(chunkCount := |chunks|);
            && streamed == parsed.(responseText := ChunksText(chunks))
            && (!NoneReplaced(c.answers) ==> streamed != parsed)
            && (NoneReplaced(c.answers) && Interleaving.OneAfterAnother(ps) ==> streamed == parsed)
    ensures (forall qs | Interleaving.SameShape(ps, qs) ::
               Interleaving.Arrived(qs) == Interleaving.ByRank(qs, 2 * |c.answers|))
            <==> Interleaving.OneAfterAnother(ps)
  {
    var n := |c.answers|;
    assert c.answers[..n] == c.answers;
    DealtInTurn(ps, c.answers, n);
    Interleaving.AgreesIffOneAfterAnother(ps, 2 * n);
    Interleaving.SameLength(ps, 2 * n);
    if Interleaving.OneAfterAnother(ps) {
      Interleaving.InOrderAgrees(ps, 2 * n);
    }
    hide *;
    ReplacedIsLost(c.answers);
    EndState(chunks, c.model, c.usage, AnswersFinish(c.answers, ""));
    Assembled(Folded(chunks), c, model);
  }

  // ---------- what is written of the usage ----------

  /** The reported numbers, with `cached` taken out of the prompt. */
  ghost predicate Written(ev: Fields, u: Usage, cached: int) {
    && ev.cached == cached && ev.input == (if u.prompt > cached then u.prompt - cached else 0)
    && ev.output == u.completion && ev.total == u.total && !ev.estimated
    && ev.reasoning == (match u.reasoning case Some(r) => r case None => 0)
  }

  /** Cached tokens in prompt_tokens_details count, whatever the other dialect says; for
      streams and for completions. */
  lemma DetailsAreWritten(s: State, c: Completion, ev: Fields, u: Usage, d: int)
    requires u.promptCached == Some(d) && d > 0
    ensures Written(Finalized(s.(usage := Some(u)), ev), u, d) && Written(Parsed(c.(usage := Some(u)), ev), u, d)
  {
    hide AnswersText, AnswersFinish;
  }

  /** Without them prompt_cache_hit_tokens do. */
  lemma HitsAreWritten(s: State, c: Completion, ev: Fields, u: Usage)
    requires u.promptCached.Some? ==> u.promptCached.value <= 0
    ensures Written(Finalized(s.(usage := Some(u)), ev), u, u.cacheHit)
    ensures Written(Parsed(c.(usage := Some(u)), ev), u, u.cacheHit)
  {
    hide AnswersText, AnswersFinish;
  }

  /** One count in either dialect gives the same event. */
  lemma DialectsAgree(s: State, c: Completion, ev: Fields, u: Usage, d: int, hit: int)
    requires d > 0
    ensures var openai, deepseek := Some(u.(promptCached := Some(d), cacheHit := hit)), Some(u.(promptCached := None, cacheHit := d));
            && Finalized(s.(usage := openai), ev) == Finalized(s.(usage := deepseek), ev)
            && Parsed(c.(usage := openai), ev) == Parsed(c.(usage := deepseek), ev)
  {
    hide AnswersText, AnswersFinish;
  }

  /** What is written apart from the usage; and without a report nothing of it is. */
  lemma OtherFieldsAreWritten(s: State, c: Completion, ev: Fields)
    ensures var streamed, parsed := Finalized(s, ev), Parsed(c, ev);
            && (streamed.responseText, streamed.chunkCount, streamed.finishReason) == (s.text, s.chunkCount, s.finishReason)
            && streamed.model == (if ev.model == "" then s.model else ev.model)
            && parsed.chunkCount == ev.chunkCount && parsed.model == (if ev.model == "" then c.model else ev.model)
            && (s.usage.None? ==> UsageUntouched(ev, streamed)) && (c.usage.None? ==> UsageUntouched(ev, parsed))
  {
    hide AnswersText, AnswersFinish, CachedTokens, ReasoningTokens;
  }

  /** The tier for a chat completion is chosen on its whole prompt, cached part included,
      exactly when the provider's cached count, in the dialect that counts, does not exceed
      it. */
  lemma TierSeesWholePrompt(chunks: seq<Chunk>, model: string)
    requires Folded(chunks).usage.Some?
    ensures var ev, u := Finalized(Folded(chunks), Fresh(model)), Folded(chunks).usage.value;
            var details := u.promptCached.Some? && u.promptCached.value > 0;
            && (details ==> (Pricing.ContextSize(BilledUsage(ev)) == u.prompt <==> u.promptCached.value <= u.prompt))
            && (!details ==> (Pricing.ContextSize(BilledUsage(ev)) == u.prompt <==> u.cacheHit <= u.prompt))
  {
    var u := Folded(chunks).usage.value;
    PromptTokens.TierSeesWholePrompt(Finalized(Folded(chunks), Fresh(model)), u.prompt, CachedTokens(u));
  }

  // ---------- what counts as generated ----------

  /** The timeline moves for a chunk exactly if some choice brings text, reasoning or a piece
      of a tool call. */
  lemma GeneratesIf(c: Chunk)
    ensures Generates(c) <==> c.Chat? && exists i | 0 <= i < |c.choices| ::
              c.choices[i].content != "" || c.choices[i].reasoning != "" || c.choices[i].toolCalls > 0
  {
    if c.Chat? {
      SomeText(c.choices);
    }
    hide ChoicesText;
  }

  lemma {:induction false} SomeText(choices: seq<Choice>)
    ensures ChoicesText(choices) != "" <==> exists i | 0 <= i < |choices| :: choices[i].content != "" || choices[i].reasoning != ""
  {
    if choices != [] {
      var n := |choices| - 1;
      SomeText(choices[..n]);
      assert |ChoicesText(choices)| == |ChoicesText(choices[..n])| + |choices[n].content| + |choices[n].reasoning|;
      hide ChoicesText;
      assert forall i | 0 <= i < n :: choices[..n][i] == choices[i];
    }
  }
  // ---------- several choices in one chunk ----------

  /** The choices' deltas are read in order, each with its content first. */
  lemma {:induction false} ChoicesJoin(a: seq<Choice>, b: seq<Choice>)
    ensures ChoicesText(a + b) == ChoicesText(a) + ChoicesText(b)
    ensures |a| == 1 ==> ChoicesText(a) == a[0].content + a[0].reasoning
    decreases |b|
  {
    if |a| == 1 {
      OneChoiceText(Chat("", a, None));
    }
    if b == [] {
      assert a + b == a;
    } else {
      var n := |b| - 1;
      assert (a + b)[..|a + b| - 1] == a + b[..n];
      ChoicesJoin(a, b[..n]);
      var x, y, c, r := ChoicesText(a), ChoicesText(b[..n]), b[n].content, b[n].reasoning;
      assert ChoicesText(a + b) == ((x + y) + c) + r && ChoicesText(b) == (y + c) + r;
      hide ChoicesText;
      assert ((x + y) + c) + r == x + ((y + c) + r);
    }
  }

  function ReasonOf(c: Choice): string {
    if c.finish.Some? then c.finish.value else ""
  }

  function Reasons(choices: seq<Choice>): seq<string> {
    if choices == [] then [] else Reasons(choices[..|choices| - 1]) + [ReasonOf(choices[|choices| - 1])]
  }

  function AnswerReasons(answers: seq<Answer>): seq<string> {
    if answers == [] then [] else AnswerReasons(answers[..|answers| - 1]) + [answers[|answers| - 1].finish]
  }

  /** Of several finish reasons in one chunk, or in one completion, the last one counts. */
  lemma {:induction false} LastReasonCounts(choices: seq<Choice>)
    ensures Last(Reasons(choices), "", LastFinish(choices, ""))
  {
    if choices != [] {
      var n := |choices| - 1;
      LastReasonCounts(choices[..n]);
      KeepsLast(Reasons(choices[..n]), "", LastFinish(choices[..n], ""), ReasonOf(choices[n]));
      hide Last;
    }
  }

  lemma {:induction false} LastAnswerReasonCounts(answers: seq<Answer>)
    ensures Last(AnswerReasons(answers), "", AnswersFinish(answers, ""))
  {
    if answers != [] {
      var n := |answers| - 1;
      LastAnswerReasonCounts(answers[..n]);
      KeepsLast(AnswerReasons(answers[..n]), "", AnswersFinish(answers[..n], ""), answers[n].finish);
      hide Last;
    }
  }
}
