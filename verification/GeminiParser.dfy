/**
The Gemini parser (internal/proxy/stream/gemini_parser.go), from decoded chunks.
*/
module GeminiParser {
  import opened Wrappers
  import opened TraceEvent
  import opened PromptTokens
  import opened Reports
  import Interleaving
  import Pricing

  datatype Usage = Usage(prompt: int, candidates: int, total: int, cached: int, thoughts: int)

  datatype Candidate = Candidate(parts: seq<string>, finish: string)

  datatype Chunk =
    | Generate(model: string, candidates: seq<Candidate>, usage: Option<Usage>)
    | Garbled

  datatype State = State(
    chunkCount: nat, text: string, usage: Option<Usage>, finishReason: string, model: string)

  const START: State := State(0, "", None, "", "")

  function PartsText(parts: seq<string>): string {
    if parts == [] then "" else PartsText(parts[..|parts| - 1]) + parts[|parts| - 1]
  }

  function CandidatesText(cs: seq<Candidate>): string {
    if cs == [] then "" else CandidatesText(cs[..|cs| - 1]) + PartsText(cs[|cs| - 1].parts)
  }

  function CandidatesFinish(cs: seq<Candidate>, before: string): string {
    if cs == [] then before
    else if cs[|cs| - 1].finish != "" then cs[|cs| - 1].finish
    else CandidatesFinish(cs[..|cs| - 1], before)
  }

  predicate Generates(c: Chunk) {
    c.Generate? && CandidatesText(c.candidates) != ""
  }

  function Next(s: State, c: Chunk): State {
    var s := s.(chunkCount := s.chunkCount + 1);
    if !c.Generate? then s
    else s.(text := s.text + CandidatesText(c.candidates),
            finishReason := CandidatesFinish(c.candidates, s.finishReason),
            model := if s.model == "" then c.model else s.model,
            usage := if c.usage.Some? then c.usage else s.usage)
  }

  function Folded(chunks: seq<Chunk>): State {
    if chunks == [] then START else Next(Folded(chunks[..|chunks| - 1]), chunks[|chunks| - 1])
  }

  /** Finalize fills in a missing total; ParseNonStream takes it as reported. */
  function WithUsage(ev: Fields, u: Usage, fillTotal: bool): Fields {
    var input := Uncached(u.prompt, u.cached);
    ev.(input := input, output := u.candidates,
        total := if fillTotal && u.total == 0 then input + u.cached + u.candidates else u.total,
        reasoning := u.thoughts, cached := u.cached, estimated := false)
  }

  function Finalized(s: State, ev: Fields): Fields {
    var ev := ev.(responseText := s.text, chunkCount := s.chunkCount, finishReason := s.finishReason,
                  model := if s.model != "" && ev.model == "" then s.model else ev.model);
    if s.usage.Some? then WithUsage(ev, s.usage.value, true) else ev
  }

  function Parsed(c: Chunk, ev: Fields): Fields {
    if !c.Generate? then ev
    else
      var ev := ev.(model := if c.model != "" && ev.model == "" then c.model else ev.model,
                    responseText := CandidatesText(c.candidates),
                    finishReason := CandidatesFinish(c.candidates, ev.finishReason));
      if c.usage.Some? then WithUsage(ev, c.usage.value, false) else ev
  }

  class Parser {
    var chunkCount: nat
    var text: string
    var inputTokens: int
    var outputTokens: int
    var totalTokens: int
    var reasoningToks: int
    var cachedInToks: int
    var finishReason: string
    var model: string
    var usageSeen: bool
    ghost var lastUsage: Option<Usage>

    ghost predicate Valid()
      reads this
    {
      && usageSeen == lastUsage.Some?
      && (lastUsage.Some? ==>
            && inputTokens == lastUsage.value.prompt && outputTokens == lastUsage.value.candidates
            && totalTokens == lastUsage.value.total && cachedInToks == lastUsage.value.cached
            && reasoningToks == lastUsage.value.thoughts)
    }

    ghost function View(): State
      reads this
    {
      State(chunkCount, text, lastUsage, finishReason, model)
    }

    constructor ()
      ensures Valid() && View() == START
    {
      chunkCount, text, finishReason, model, usageSeen := 0, "", "", "", false;
      inputTokens, outputTokens, totalTokens, reasoningToks, cachedInToks := 0, 0, 0, 0, 0;
      lastUsage := None;
    }

    /** The deltas of one chunk: all parts of all candidates, and the last finish reason. */
    method ReadCandidates(cs: seq<Candidate>) returns (delta: string)
      requires Valid()
      modifies this
      ensures Valid() && delta == CandidatesText(cs)
      ensures View() == old(View()).(finishReason := CandidatesFinish(cs, old(finishReason)))
    {
      delta := "";
      for i := 0 to |cs|
        invariant delta == CandidatesText(cs[..i])
        invariant Valid() && View() == old(View()).(finishReason := CandidatesFinish(cs[..i], old(finishReason)))
      {
        assert cs[..i + 1][..i] == cs[..i];
        var parts := cs[i].parts;
        ghost var before := delta;
        for j := 0 to |parts|
          invariant delta == before + PartsText(parts[..j])
        {
          assert parts[..j + 1][..j] == parts[..j];
          assert delta + "" == delta;
          if parts[j] != "" {
            delta := delta + parts[j];
          }
        }
        assert parts[..|parts|] == parts;
        if cs[i].finish != "" {
          finishReason := cs[i].finish;
        }
      }
      assert cs[..|cs|] == cs;
    }

    method SetUsage(u: Usage)
      modifies this
      ensures Valid() && View() == old(View()).(usage := Some(u))
    {
      inputTokens, outputTokens, totalTokens := u.prompt, u.candidates, u.total;
      cachedInToks, reasoningToks, usageSeen := u.cached, u.thoughts, true;
      lastUsage := Some(u);
    }

    /** The first token is recognised by the text so far being empty, not by the timeline. */
    method HandleChunk(c: Chunk, now: Instant, tl: Timeline)
      requires Valid() && now > 0 && (tl.firstToken == 0 <==> text == "")
      modifies this, tl
      ensures Valid() && View() == Next(old(View()), c)
      ensures (tl.firstToken, tl.lastToken) == Marked((old(tl.firstToken), old(tl.lastToken)), now, Generates(c))
      ensures tl.firstToken == 0 <==> text == ""
    {
      hide CandidatesText, CandidatesFinish;
      assert text + "" == text;
      chunkCount := chunkCount + 1;
      if !c.Generate? {
        return;
      }
      if c.model != "" && model == "" {
        model := c.model;
      }
      var delta := ReadCandidates(c.candidates);
      if delta != "" {
        if |text| == 0 {
          tl.firstToken := now;
        }
        text := text + delta;
        tl.lastToken := now;
      }
      if c.usage.Some? {
        SetUsage(c.usage.value);
      }
    }

    method Feed(chunks: seq<Chunk>, times: seq<Instant>, tl: Timeline)
      requires |times| == |chunks| && forall i | 0 <= i < |times| :: times[i] > 0
      requires Valid() && View() == START && tl.firstToken == tl.lastToken == 0
      modifies this, tl
      ensures Valid() && View() == Folded(chunks)
      ensures (tl.firstToken, tl.lastToken) == MarksAfter(Arrivals(chunks, times))
    {
      hide Next, Generates, Marked;
      for i := 0 to |chunks|
        invariant Valid() && View() == Folded(chunks[..i])
        invariant (tl.firstToken, tl.lastToken) == MarksAfter(Arrivals(chunks, times)[..i])
        invariant tl.firstToken == 0 <==> text == ""
      {
        assert chunks[..i + 1][..i] == chunks[..i];
        assert Arrivals(chunks, times)[..i + 1][..i] == Arrivals(chunks, times)[..i];
        HandleChunk(chunks[i], times[i], tl);
      }
      assert chunks[..|chunks|] == chunks && Arrivals(chunks, times)[..|chunks|] == Arrivals(chunks, times);
    }

    method Finalize(ev: Event)
      requires Valid()
      modifies ev
      ensures ev.fields == Finalized(View(), old(ev.fields))
    {
      ev.fields := ev.fields.(responseText := text, chunkCount := chunkCount, finishReason := finishReason);
      if usageSeen {
        ev.fields := ev.fields.(input := Max(inputTokens - cachedInToks, 0), output := outputTokens,
                                total := totalTokens, reasoning := reasoningToks, cached := cachedInToks);
        if ev.fields.total == 0 {
          ev.fields := ev.fields.(total := ev.fields.input + ev.fields.cached + ev.fields.output);
        }
        ev.fields := ev.fields.(estimated := false);
      }
      if model != "" && ev.fields.model == "" {
        ev.fields := ev.fields.(model := model);
      }
    }

    /** The candidates of a whole answer: their text, and the last finish reason. */
    method ReadWhole(cs: seq<Candidate>, ev: Event) returns (sb: string)
      modifies ev
      ensures sb == CandidatesText(cs)
      ensures ev.fields == old(ev.fields).(finishReason := CandidatesFinish(cs, old(ev.fields.finishReason)))
    {
      sb := "";
      for i := 0 to |cs|
        invariant sb == CandidatesText(cs[..i])
        invariant ev.fields == old(ev.fields).(finishReason := CandidatesFinish(cs[..i], old(ev.fields.finishReason)))
      {
        assert cs[..i + 1][..i] == cs[..i];
        var parts := cs[i].parts;
        ghost var before := sb;
        for j := 0 to |parts|
          invariant sb == before + PartsText(parts[..j])
        {
          assert parts[..j + 1][..j] == parts[..j];
          sb := sb + parts[j];
        }
        assert parts[..|parts|] == parts;
        if cs[i].finish != "" {
          ev.fields := ev.fields.(finishReason := cs[i].finish);
        }
      }
      assert cs[..|cs|] == cs;
    }

    method ParseNonStream(c: Chunk, ev: Event)
      modifies ev
      ensures ev.fields == Parsed(c, old(ev.fields))
    {
      if !c.Generate? {
        return;
      }
      if c.model != "" && ev.fields.model == "" {
        ev.fields := ev.fields.(model := c.model);
      }
      var sb := ReadWhole(c.candidates, ev);
      ev.fields := ev.fields.(responseText := sb);
      if c.usage.Some? {
        var u := c.usage.value;
        ev.fields := ev.fields.(input := Max(u.prompt - u.cached, 0), output := u.candidates, total := u.total,
                                reasoning := u.thoughts, cached := u.cached, estimated := false);
      }
    }
  }

  function Arrivals(chunks: seq<Chunk>, times: seq<Instant>): (r: seq<(Instant, bool)>)
    requires |times| == |chunks|
    ensures |r| == |chunks|
  {
    seq(|chunks|, i requires 0 <= i < |chunks| => (times[i], Generates(chunks[i])))
  }

  /** Consecutive chunks of one candidate carry its parts, cut anywhere between chunks. */
  function PartsOf(chunks: seq<Chunk>): seq<string> {
    if chunks == [] then []
    else PartsOf(chunks[..|chunks| - 1]) +
         (var c := chunks[|chunks| - 1]; if c.Generate? && |c.candidates| == 1 then c.candidates[0].parts else [])
  }

  ghost predicate OneCandidate(chunks: seq<Chunk>) {
    forall i | 0 <= i < |chunks| && chunks[i].Generate? :: |chunks[i].candidates| <= 1
  }

  lemma {:induction false} PartsJoin(a: seq<string>, b: seq<string>)
    ensures PartsText(a + b) == PartsText(a) + PartsText(b)
    decreases |b|
  {
    if b == [] {
      assert a + b == a;
    } else {
      assert (a + b)[..|a + b| - 1] == a + b[..|b| - 1];
      PartsJoin(a, b[..|b| - 1]);
      var x, y, z := PartsText(a), PartsText(b[..|b| - 1]), b[|b| - 1];
      assert (x + y) + z == x + (y + z);
    }
  }

  lemma OneText(cs: seq<Candidate>)
    requires |cs| <= 1
    ensures CandidatesText(cs) == if cs == [] then "" else PartsText(cs[0].parts)
  {
    hide PartsText;
    if |cs| == 1 {
      assert cs[..0] == [];
      assert "" + PartsText(cs[0].parts) == PartsText(cs[0].parts);
    }
  }

  /** The streamed text of one candidate is the text of its parts in one message. */
  lemma {:induction false} StreamText(chunks: seq<Chunk>)
    requires OneCandidate(chunks)
    ensures Folded(chunks).text == PartsText(PartsOf(chunks)) && Folded(chunks).chunkCount == |chunks|
  {
    if chunks != [] {
      var init, c := chunks[..|chunks| - 1], chunks[|chunks| - 1];
      StreamText(init);
      if c.Generate? {
        OneText(c.candidates);
      }
      PartsJoin(PartsOf(init), if c.Generate? && |c.candidates| == 1 then c.candidates[0].parts else []);
      assert Folded(init).text + "" == Folded(init).text;
    }
  }

  // ---------- which of many reports is kept ----------

  function ModelOf(c: Chunk): string {
    if c.Generate? then c.model else ""
  }

  function UsageOf(c: Chunk): Option<Usage> {
    if c.Generate? then c.usage else None
  }

  function FinishOf(c: Chunk): string {
    if c.Generate? then CandidatesFinish(c.candidates, "") else ""
  }

  function Models(chunks: seq<Chunk>): seq<string> {
    if chunks == [] then [] else Models(chunks[..|chunks| - 1]) + [ModelOf(chunks[|chunks| - 1])]
  }

  function Usages(chunks: seq<Chunk>): seq<Option<Usage>> {
    if chunks == [] then [] else Usages(chunks[..|chunks| - 1]) + [UsageOf(chunks[|chunks| - 1])]
  }

  function Finishes(chunks: seq<Chunk>): seq<string> {
    if chunks == [] then [] else Finishes(chunks[..|chunks| - 1]) + [FinishOf(chunks[|chunks| - 1])]
  }

  lemma {:induction false} FinishReplaces(cs: seq<Candidate>, before: string)
    ensures CandidatesFinish(cs, before) ==
            if CandidatesFinish(cs, "") != "" then CandidatesFinish(cs, "") else before
  {
    if cs != [] {
      FinishReplaces(cs[..|cs| - 1], before);
    }
  }

  lemma FoldStep(chunks: seq<Chunk>)
    requires chunks != []
    ensures var s, t, c := Folded(chunks[..|chunks| - 1]), Folded(chunks), chunks[|chunks| - 1];
            && t.model == (if s.model == "" then ModelOf(c) else s.model)
            && t.usage == (if UsageOf(c) == None then s.usage else UsageOf(c))
            && t.finishReason == (if FinishOf(c) == "" then s.finishReason else FinishOf(c))
  {
    var s, c := Folded(chunks[..|chunks| - 1]), chunks[|chunks| - 1];
    if c.Generate? {
      FinishReplaces(c.candidates, s.finishReason);
    }
    hide CandidatesText, CandidatesFinish;
  }

  /** The end state keeps the first model, the last usage and the last finish reason of
      those that the chunks report. */
  lemma {:induction false} ReportsKept(chunks: seq<Chunk>)
    ensures First(Models(chunks), "", Folded(chunks).model)
    ensures Last(Usages(chunks), None, Folded(chunks).usage)
    ensures Last(Finishes(chunks), "", Folded(chunks).finishReason)
  {
    if chunks != [] {
      var n := |chunks| - 1;
      var s, c := Folded(chunks[..n]), chunks[n];
      ReportsKept(chunks[..n]);
      FoldStep(chunks);
      hide Folded, ModelOf, UsageOf, FinishOf, First, Last;
      KeepsFirst(Models(chunks[..n]), "", s.model, ModelOf(c));
      KeepsLast(Usages(chunks[..n]), None, s.usage, UsageOf(c));
      KeepsLast(Finishes(chunks[..n]), "", s.finishReason, FinishOf(c));
    }
  }

  // ---------- the stream against the whole answer ----------

  lemma {:induction false} EveryChunkCounts(chunks: seq<Chunk>)
    ensures Folded(chunks).chunkCount == |chunks|
  {
    hide CandidatesText, CandidatesFinish;
    if chunks != [] {
      EveryChunkCounts(chunks[..|chunks| - 1]);
    }
  }

  lemma EndState(chunks: seq<Chunk>, model: string, usage: Option<Usage>, finish: string)
    requires First(Models(chunks), "", model) && Last(Usages(chunks), None, usage)
    requires Last(Finishes(chunks), "", finish)
    ensures Folded(chunks) == State(|chunks|, Folded(chunks).text, usage, finish, model)
  {
    hide *;
    EveryChunkCounts(chunks);
    ReportsKept(chunks);
    OneFirst(Models(chunks), "", Folded(chunks).model, model);
    OneLast(Usages(chunks), None, Folded(chunks).usage, usage);
    OneLast(Finishes(chunks), "", Folded(chunks).finishReason, finish);
  }

  /** Whether adding up a missing total makes the streamed total differ from the reported. */
  predicate TotalFilledIn(usage: Option<Usage>) {
    usage.Some? && usage.value.total == 0 && Max(usage.value.prompt, usage.value.cached) + usage.value.candidates != 0
  }

  lemma Assembled(s: State, whole: Chunk, model: string)
    requires whole.Generate? && s.model == whole.model && s.usage == whole.usage
    requires s.finishReason == CandidatesFinish(whole.candidates, "")
    ensures var streamed, parsed := Finalized(s, Fresh(model)), Parsed(whole, Fresh(model));
            && streamed == parsed.(chunkCount := s.chunkCount, total := streamed.total, responseText := s.text)
            && parsed.responseText == CandidatesText(whole.candidates)
            && (streamed.total == parsed.total <==> !TotalFilledIn(whole.usage))
  {
    hide CandidatesText, CandidatesFinish;
  }

  /** Streamed and whole answers agree on text, model, finish reason and every token field
      but the total, and on that exactly when it was reported or there is nothing to add
      up; however the one candidate's parts are cut into chunks. */
  lemma StreamAgreesWithNonStream(chunks: seq<Chunk>, whole: Chunk, model: string)
    requires whole.Generate? && OneCandidate(chunks) && |whole.candidates| == 1
    requires PartsText(PartsOf(chunks)) == PartsText(whole.candidates[0].parts)
    requires First(Models(chunks), "", whole.model) && Last(Usages(chunks), None, whole.usage)
    requires Last(Finishes(chunks), "", whole.candidates[0].finish)
    ensures var streamed, parsed := Finalized(Folded(chunks), Fresh(model)), Parsed(whole, Fresh(model));
            && streamed == parsed.(chunkCount := |chunks|, total := streamed.total)
            && (streamed.total == parsed.total <==> !TotalFilledIn(whole.usage))
  {
    EndState(chunks, whole.model, whole.usage, whole.candidates[0].finish);
    StreamText(chunks);
    OneText(whole.candidates);
    OneFinish(whole.candidates);
    hide *;
    Assembled(Folded(chunks), whole, model);
  }

  // ---------- several candidates ----------

  /** The stream's deltas as pieces of the candidates' texts. */
  ghost predicate Deals(chunks: seq<Chunk>, ps: seq<Interleaving.Piece>, cs: seq<Candidate>) {
    && Interleaving.Arrived(ps) == Folded(chunks).text && Interleaving.RanksBelow(ps, |cs|)
    && forall k | 0 <= k < |cs| :: Interleaving.Ranked(ps, k) == PartsText(cs[k].parts)
  }

  lemma {:induction false} DealtInTurn(ps: seq<Interleaving.Piece>, cs: seq<Candidate>, n: nat)
    requires n <= |cs| && forall k | 0 <= k < |cs| :: Interleaving.Ranked(ps, k) == PartsText(cs[k].parts)
    ensures Interleaving.ByRank(ps, n) == CandidatesText(cs[..n])
  {
    if n > 0 {
      DealtInTurn(ps, cs, n - 1);
      assert cs[..n][..n - 1] == cs[..n - 1];
    }
  }

  /** Several candidates in one stream: both readings agree on every field as before but
      for the text, which agrees when the candidates arrive one after the other, and only
      then for all streams that are cut alike. */
  lemma SeveralCandidatesAgree(chunks: seq<Chunk>, ps: seq<Interleaving.Piece>, whole: Chunk, model: string)
    requires whole.Generate? && Deals(chunks, ps, whole.candidates)
    requires First(Models(chunks), "", whole.model) && Last(Usages(chunks), None, whole.usage)
    requires Last(Finishes(chunks), "", CandidatesFinish(whole.candidates, ""))
    ensures var streamed, parsed := Finalized(Folded(chunks), Fresh(model)), Parsed(whole, Fresh(model));
            && streamed == parsed.(chunkCount := |chunks|, total := streamed.total, responseText := streamed.responseText)
            && (streamed.total == parsed.total <==> !TotalFilledIn(whole.usage))
            && (Interleaving.OneAfterAnother(ps) ==> streamed.responseText == parsed.responseText)
    ensures (forall qs | Interleaving.SameShape(ps, qs) ::
               Interleaving.Arrived(qs) == Interleaving.ByRank(qs, |whole.candidates|))
            <==> Interleaving.OneAfterAnother(ps)
  {
    var cs := whole.candidates;
    assert cs[..|cs|] == cs;
    DealtInTurn(ps, cs, |cs|);
    Interleaving.AgreesIffOneAfterAnother(ps, |cs|);
    if Interleaving.OneAfterAnother(ps) {
      Interleaving.InOrderAgrees(ps, |cs|);
    }
    hide *;
    EndState(chunks, whole.model, whole.usage, CandidatesFinish(cs, ""));
    Assembled(Folded(chunks), whole, model);
  }

  // ---------- what is written ----------

  /** The reported numbers, with the cached part taken out of the prompt. */
  ghost predicate Written(ev: Fields, u: Usage) {
    && ev.input == (if u.prompt > u.cached then u.prompt - u.cached else 0) && ev.cached == u.cached
    && ev.output == u.candidates && ev.reasoning == u.thoughts && !ev.estimated
  }

  /** The numbers of a report; the stream adds up a missing total of the whole prompt and the
      candidates, the whole answer's is as reported. */
  lemma UsageIsWritten(s: State, whole: Chunk, ev: Fields, u: Usage)
    requires whole.Generate?
    ensures var streamed, parsed := Finalized(s.(usage := Some(u)), ev), Parsed(whole.(usage := Some(u)), ev);
            && Written(streamed, u) && Written(parsed, u) && parsed.total == u.total
            && streamed.total == if u.total != 0 then u.total else Max(u.prompt, u.cached) + u.candidates
  {
    hide CandidatesText, CandidatesFinish;
  }

  /** What is written apart from the usage; and without a report nothing of it is. */
  lemma OtherFieldsAreWritten(s: State, whole: Chunk, ev: Fields)
    requires whole.Generate?
    ensures var streamed, parsed := Finalized(s, ev), Parsed(whole, ev);
            && (streamed.responseText, streamed.chunkCount, streamed.finishReason) == (s.text, s.chunkCount, s.finishReason)
            && streamed.model == (if ev.model == "" then s.model else ev.model)
            && parsed.chunkCount == ev.chunkCount && parsed.model == (if ev.model == "" then whole.model else ev.model)
            && (s.usage.None? ==> UsageUntouched(ev, streamed)) && (whole.usage.None? ==> UsageUntouched(ev, parsed))
    ensures Parsed(Garbled, ev) == ev
  {
    hide CandidatesText, CandidatesFinish;
  }

  /** The timeline moves for a chunk exactly if some part of some candidate has text. */
  lemma GeneratesIf(c: Chunk)
    ensures Generates(c) <==> c.Generate? && exists i | 0 <= i < |c.candidates| :: PartsText(c.candidates[i].parts) != ""
  {
    if c.Generate? {
      SomeText(c.candidates);
    }
    hide CandidatesText, PartsText;
  }

  lemma {:induction false} SomeText(cs: seq<Candidate>)
    ensures CandidatesText(cs) != "" <==> exists i | 0 <= i < |cs| :: PartsText(cs[i].parts) != ""
  {
    if cs != [] {
      var n := |cs| - 1;
      SomeText(cs[..n]);
      assert |CandidatesText(cs)| == |CandidatesText(cs[..n])| + |PartsText(cs[n].parts)|;
      hide CandidatesText, PartsText;
      assert forall i | 0 <= i < n :: cs[..n][i] == cs[i];
    }
  }

  /** The tier for a streamed answer is chosen on its whole prompt, cached part included,
      exactly when the provider's cached count does not exceed it. */
  lemma TierSeesWholePrompt(chunks: seq<Chunk>, model: string)
    requires Folded(chunks).usage.Some?
    ensures var ev, u := Finalized(Folded(chunks), Fresh(model)), Folded(chunks).usage.value;
            Pricing.ContextSize(BilledUsage(ev)) == u.prompt <==> u.cached <= u.prompt
  {
    var u := Folded(chunks).usage.value;
    PromptTokens.TierSeesWholePrompt(Finalized(Folded(chunks), Fresh(model)), u.prompt, u.cached);
  }

  lemma OneFinish(cs: seq<Candidate>)
    requires |cs| == 1
    ensures CandidatesFinish(cs, "") == cs[0].finish
  {
    assert cs[..0] == [];
  }
  // ---------- several candidates in one chunk ----------

  /** The candidates are read in order, and the parts of each. */
  lemma {:induction false} CandidatesJoin(a: seq<Candidate>, b: seq<Candidate>)
    ensures CandidatesText(a + b) == CandidatesText(a) + CandidatesText(b)
    ensures |a| == 1 ==> CandidatesText(a) == PartsText(a[0].parts)
    decreases |b|
  {
    if |a| == 1 {
      OneText(a);
    }
    if b == [] {
      assert a + b == a;
    } else {
      var n := |b| - 1;
      assert (a + b)[..|a + b| - 1] == a + b[..n];
      CandidatesJoin(a, b[..n]);
      var x, y, z := CandidatesText(a), CandidatesText(b[..n]), PartsText(b[n].parts);
      assert CandidatesText(a + b) == (x + y) + z && CandidatesText(b) == y + z;
      hide CandidatesText, PartsText;
      assert (x + y) + z == x + (y + z);
    }
  }

  lemma OnePart(part: string)
    ensures PartsText([part]) == part
  {
    assert [part][..0] == [];
  }

  function Reasons(cs: seq<Candidate>): seq<string> {
    if cs == [] then [] else Reasons(cs[..|cs| - 1]) + [cs[|cs| - 1].finish]
  }

  /** Of several finish reasons in one chunk the last one counts. */
  lemma {:induction false} LastReasonCounts(cs: seq<Candidate>)
    ensures Last(Reasons(cs), "", CandidatesFinish(cs, ""))
  {
    if cs != [] {
      var n := |cs| - 1;
      LastReasonCounts(cs[..n]);
      KeepsLast(Reasons(cs[..n]), "", CandidatesFinish(cs[..n], ""), cs[n].finish);
      hide Last;
    }
  }
}
