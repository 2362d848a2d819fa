/**
The viewer's reassembly of OpenAI chat streams (frontend/src/components/ChatViewer.tsx,
assembleOpenAIStream), from decoded chunks: one message per choice index.
*/
module ChatViewer {
  import opened Wrappers

  /** A missing or empty string is "", as the source only tests for truthiness. */
  datatype ToolDelta = ToolDelta(index: int, id: string, kind: string, name: string, args: string)

  datatype Delta = Delta(role: string, content: Option<string>, reasoning: Option<string>, tools: seq<ToolDelta>)

  datatype Choice = Choice(index: int, finish: string, delta: Option<Delta>)

  /** A data line that is not JSON, or has no choices, is skipped. */
  datatype Chunk = Chunk(choices: seq<Choice>) | Skipped

  datatype Tool = Tool(id: string, kind: string, name: string, args: string)

  datatype Builder = Builder(
    role: string, content: string, contentSeen: bool, reasoning: string, finish: string,
    tools: map<int, Tool>, toolOrder: seq<int>)

  const EMPTY: Builder := Builder("assistant", "", false, "", "", map[], [])

  datatype Message = Message(role: string, content: Option<string>, reasoning: Option<string>, tools: seq<Tool>)

  // ---------- one choice ----------

  function Or(s: string, old_: string): string {
    if s != "" then s else old_
  }

  function FedTool(b: Builder, d: ToolDelta): Builder {
    var tool := if d.index in b.tools then b.tools[d.index] else Tool("", "", "", "");
    b.(tools := b.tools[d.index := Tool(Or(d.id, tool.id), Or(d.kind, tool.kind), Or(d.name, tool.name), tool.args + d.args)],
       toolOrder := if d.index in b.tools then b.toolOrder else b.toolOrder + [d.index])
  }

  function FedTools(b: Builder, tools: seq<ToolDelta>): Builder {
    if tools == [] then b else FedTool(FedTools(b, tools[..|tools| - 1]), tools[|tools| - 1])
  }

  function FedDelta(b: Builder, d: Delta): Builder {
    FedTools(b.(role := Or(d.role, b.role),
                content := if d.content.Some? then b.content + d.content.value else b.content,
                contentSeen := b.contentSeen || d.content.Some?,
                reasoning := if d.reasoning.Some? then b.reasoning + d.reasoning.value else b.reasoning),
             d.tools)
  }

  function Fed(b: Builder, c: Choice): Builder {
    var b := b.(finish := Or(c.finish, b.finish));
    if c.delta.None? then b else FedDelta(b, c.delta.value)
  }

  predicate Silent(b: Builder) {
    b.content == "" && !b.contentSeen && b.reasoning == "" && b.toolOrder == [] && b.finish == ""
  }

  /** A call as it is shown: its kind defaults to "function". */
  function ShownTool(t: Tool): Tool {
    t.(kind := Or(t.kind, "function"))
  }

  function ToolCalls(b: Builder, order: seq<int>): seq<Tool> {
    if order == [] then []
    else
      var init, i := order[..|order| - 1], order[|order| - 1];
      ToolCalls(b, init) + (if i in b.tools then [ShownTool(b.tools[i])] else [])
  }

  function Rendered(b: Builder): Message {
    Message(b.role,
            if b.content != "" || b.contentSeen || b.finish != "" then Some(b.content) else None,
            if b.reasoning != "" then Some(b.reasoning) else None,
            ToolCalls(b, b.toolOrder))
  }

  // ---------- all choices ----------

  datatype State = State(choices: map<int, Builder>, order: seq<int>)

  const START: State := State(map[], [])

  function BuilderOf(s: State, index: int): Builder {
    if index in s.choices then s.choices[index] else EMPTY
  }

  function Next(s: State, c: Choice): State {
    State(s.choices[c.index := Fed(BuilderOf(s, c.index), c)],
          if c.index in s.choices then s.order else s.order + [c.index])
  }

  function FoldFrom(s: State, choices: seq<Choice>): State {
    if choices == [] then s else Next(FoldFrom(s, choices[..|choices| - 1]), choices[|choices| - 1])
  }

  /** The choices of all chunks, in arrival order. */
  function Choices(chunks: seq<Chunk>): seq<Choice> {
    if chunks == [] then []
    else
      var last := chunks[|chunks| - 1];
      Choices(chunks[..|chunks| - 1]) + (if last.Chunk? then last.choices else [])
  }

  function Inserted(s: seq<int>, x: int): seq<int> {
    if s == [] || x <= s[0] then [x] + s else [s[0]] + Inserted(s[1..], x)
  }

  /** choiceOrder.sort((a, b) => a - b) */
  function Sorted(s: seq<int>): seq<int> {
    if s == [] then [] else Inserted(Sorted(s[..|s| - 1]), s[|s| - 1])
  }

  function Shown(b: Builder): seq<Message> {
    if Silent(b) then [] else [Rendered(b)]
  }

  function Output(s: State, order: seq<int>): seq<Message> {
    if order == [] then [] else Output(s, order[..|order| - 1]) + Shown(BuilderOf(s, order[|order| - 1]))
  }

  function Assembled(choices: seq<Choice>): seq<Message> {
    var s := FoldFrom(START, choices);
    Output(s, Sorted(s.order))
  }

  // ---------- the methods ----------

  method Feed(b: Builder, c: Choice) returns (b': Builder)
    ensures b' == Fed(b, c)
  {
    b' := b;
    if c.finish != "" {
      b' := b'.(finish := c.finish);
    }
    if c.delta.None? {
      return;
    }
    var d := c.delta.value;
    if d.role != "" {
      b' := b'.(role := d.role);
    }
    if d.content.Some? {
      b' := b'.(content := b'.content + d.content.value, contentSeen := true);
    }
    if d.reasoning.Some? {
      b' := b'.(reasoning := b'.reasoning + d.reasoning.value);
    }
    ghost var fed := b';
    for i := 0 to |d.tools|
      invariant b' == FedTools(fed, d.tools[..i])
    {
      assert d.tools[..i + 1][..i] == d.tools[..i];
      b' := FeedTool(b', d.tools[i]);
    }
    assert d.tools[..|d.tools|] == d.tools;
  }

  method FeedTool(b: Builder, d: ToolDelta) returns (b': Builder)
    ensures b' == FedTool(b, d)
  {
    b' := b;
    var tool := Tool("", "", "", "");
    if d.index in b.tools {
      tool := b.tools[d.index];
    } else {
      b' := b'.(toolOrder := b.toolOrder + [d.index]);
    }
    if d.id != "" {
      tool := tool.(id := d.id);
    }
    if d.kind != "" {
      tool := tool.(kind := d.kind);
    }
    if d.name != "" {
      tool := tool.(name := d.name);
    }
    assert tool.args + "" == tool.args;
    if d.args != "" {
      tool := tool.(args := tool.args + d.args);
    }
    b' := b'.(tools := b.tools[d.index := tool]);
  }

  /** The folding loops: one builder for each choice index, in order of first appearance. */
  method Collect(chunks: seq<Chunk>) returns (choices: map<int, Builder>, choiceOrder: seq<int>)
    ensures State(choices, choiceOrder) == FoldFrom(START, Choices(chunks))
  {
    hide Fed, FoldFrom;
    choices, choiceOrder := map[], [];
    FoldNothing();
    for k := 0 to |chunks|
      invariant State(choices, choiceOrder) == FoldFrom(START, Choices(chunks[..k]))
    {
      ghost var seen := Choices(chunks[..k]);
      assert chunks[..k + 1][..k] == chunks[..k] && seen + [] == seen;
      var chunk := chunks[k];
      if chunk.Skipped? {
        continue;
      }
      assert seen + chunk.choices[..0] == seen;
      for i := 0 to |chunk.choices|
        invariant State(choices, choiceOrder) == FoldFrom(START, seen + chunk.choices[..i])
      {
        var choice := chunk.choices[i];
        FoldStep(seen, chunk.choices, i);
        var b := EMPTY;
        if choice.index in choices {
          b := choices[choice.index];
        } else {
          choiceOrder := choiceOrder + [choice.index];
        }
        b := Feed(b, choice);
        choices := choices[choice.index := b];
      }
      assert chunk.choices[..|chunk.choices|] == chunk.choices;
    }
    assert chunks[..|chunks|] == chunks;
  }

  method Assemble(chunks: seq<Chunk>) returns (out: seq<Message>)
    ensures out == Assembled(Choices(chunks))
  {
    hide FoldFrom, Sorted, Rendered, Output;
    var choices, choiceOrder := Collect(chunks);
    ghost var s := State(choices, choiceOrder);
    var order := Sorted(choiceOrder);
    SortedSame(choiceOrder);
    KnownIndices(Choices(chunks));
    out := [];
    OutputNothing(s);
    for i := 0 to |order|
      invariant out == Output(s, order[..i])
    {
      OutputStep(s, order, i);
      assert out + [] == out;
      assert order[i] in order;
      var b := choices[order[i]];
      if b.content == "" && !b.contentSeen && b.reasoning == "" && |b.toolOrder| == 0 && b.finish == "" {
        continue;
      }
      var msg := Render(b);
      out := out + [msg];
    }
    assert order[..|order|] == order;
  }

  method Render(b: Builder) returns (msg: Message)
    ensures msg == Rendered(b)
  {
    msg := Message(b.role, None, None, []);
    if b.content != "" || b.contentSeen || b.finish != "" {
      msg := msg.(content := Some(b.content));
    }
    if b.reasoning != "" {
      msg := msg.(reasoning := Some(b.reasoning));
    }
    var calls := [];
    for i := 0 to |b.toolOrder|
      invariant calls == ToolCalls(b, b.toolOrder[..i])
    {
      assert b.toolOrder[..i + 1][..i] == b.toolOrder[..i];
      if b.toolOrder[i] in b.tools {
        var tool := b.tools[b.toolOrder[i]];
        calls := calls + [tool.(kind := if tool.kind != "" then tool.kind else "function")];
      }
    }
    assert b.toolOrder[..|b.toolOrder|] == b.toolOrder;
    msg := msg.(tools := calls);
  }

  ghost predicate ToolsKnown(b: Builder) {
    && Distinct(b.toolOrder)
    && (forall i | 0 <= i < |b.toolOrder| :: b.toolOrder[i] in b.tools)
    && (forall x <- b.tools :: x in b.toolOrder)
  }

  lemma {:induction false} FedToolsKnown(b: Builder, tools: seq<ToolDelta>)
    requires ToolsKnown(b)
    ensures ToolsKnown(FedTools(b, tools))
  {
    if tools != [] {
      FedToolsKnown(b, tools[..|tools| - 1]);
    }
  }

  /** Every message shows each tool call of its choice, once, and nothing else: the calls
      shown are those of the distinct indices in order of appearance. */
  lemma EveryToolIsShown(choices: seq<Choice>, index: int)
    ensures var b := BuilderOf(FoldFrom(START, choices), index);
            var shown, order := Rendered(b).tools, b.toolOrder;
            && Distinct(order) && (forall x: int :: x in order <==> x in b.tools)
            && |shown| == |order| == |b.tools|
            && forall i | 0 <= i < |order| :: shown[i] == ShownTool(b.tools[order[i]])
  {
    BuilderKnown(choices, index);
    var b := BuilderOf(FoldFrom(START, choices), index);
    CallsFor(b, b.toolOrder);
    DistinctSize(b.toolOrder, b.tools.Keys);
  }

  lemma {:induction false} BuilderKnown(choices: seq<Choice>, index: int)
    ensures ToolsKnown(BuilderOf(FoldFrom(START, choices), index))
  {
    if choices != [] {
      var init, c := choices[..|choices| - 1], choices[|choices| - 1];
      BuilderKnown(init, index);
      var b := BuilderOf(FoldFrom(START, init), index);
      if c.index == index && c.delta.Some? {
        var d := c.delta.value;
        var started := b.(finish := Or(c.finish, b.finish), role := Or(d.role, b.role),
                          content := if d.content.Some? then b.content + d.content.value else b.content,
                          contentSeen := b.contentSeen || d.content.Some?,
                          reasoning := if d.reasoning.Some? then b.reasoning + d.reasoning.value else b.reasoning);
        FedToolsKnown(started, d.tools);
      }
    }
  }

  lemma {:induction false} CallsFor(b: Builder, order: seq<int>)
    requires forall i | 0 <= i < |order| :: order[i] in b.tools
    ensures |ToolCalls(b, order)| == |order|
    ensures forall i | 0 <= i < |order| :: ToolCalls(b, order)[i] == ShownTool(b.tools[order[i]])
  {
    if order != [] {
      CallsFor(b, order[..|order| - 1]);
    }
  }

  lemma {:induction false} DistinctSize(s: seq<int>, keys: set<int>)
    requires Distinct(s) && forall x: int :: x in s <==> x in keys
    ensures |s| == |keys|
  {
    if s == [] {
      assert forall x <- keys :: x in s;
    } else {
      var n := |s| - 1;
      assert s == s[..n] + [s[n]] && s[n] !in s[..n];
      DistinctSize(s[..n], keys - {s[n]});
    }
  }

  lemma OutputNothing(s: State)
    ensures Output(s, []) == []
  {
  }

  lemma OutputStep(s: State, order: seq<int>, i: nat)
    requires i < |order|
    ensures Output(s, order[..i + 1]) == Output(s, order[..i]) + Shown(BuilderOf(s, order[i]))
  {
    hide Shown;
    assert order[..i + 1][..i] == order[..i];
  }

  lemma FoldNothing()
    ensures FoldFrom(START, []) == START
  {
  }

  lemma FoldStep(seen: seq<Choice>, choices: seq<Choice>, i: nat)
    requires i < |choices|
    ensures FoldFrom(START, seen + choices[..i + 1]) == Next(FoldFrom(START, seen + choices[..i]), choices[i])
  {
    hide Next;
    var longer := seen + choices[..i + 1];
    assert longer[..|longer| - 1] == seen + choices[..i];
  }

  // ---------- indices ----------

  predicate Ascending(s: seq<int>) {
    forall i, j | 0 <= i < j < |s| :: s[i] < s[j]
  }

  predicate Distinct(s: seq<int>) {
    forall i, j | 0 <= i < j < |s| :: s[i] != s[j]
  }

  lemma {:induction false} InsertedKeeps(s: seq<int>, x: int)
    ensures forall y: int :: y in Inserted(s, x) <==> y in s || y == x
    ensures Ascending(s) && x !in s ==> Ascending(Inserted(s, x))
  {
    if s != [] && x > s[0] {
      InsertedKeeps(s[1..], x);
      assert s == [s[0]] + s[1..];
      if Ascending(s) && x !in s {
        var t := Inserted(s[1..], x);
        assert forall j | 0 <= j < |s[1..]| :: s[1..][j] == s[j + 1];
        forall i | 0 <= i < |t| ensures t[i] > s[0] {
          assert t[i] in t;
        }
      }
    }
  }

  lemma {:induction false} SortedSame(s: seq<int>)
    ensures forall y: int :: y in Sorted(s) <==> y in s
    ensures Distinct(s) ==> Ascending(Sorted(s))
  {
    if s != [] {
      var n := |s| - 1;
      SortedSame(s[..n]);
      InsertedKeeps(Sorted(s[..n]), s[n]);
      assert s == s[..n] + [s[n]];
      if Distinct(s) {
        assert s[n] !in s[..n];
      }
    }
  }

  predicate Occurs(choices: seq<Choice>, index: int) {
    exists i | 0 <= i < |choices| :: choices[i].index == index
  }

  /** The order lists each index that occurs, once. */
  lemma {:induction false} KnownIndices(choices: seq<Choice>)
    ensures var s := FoldFrom(START, choices);
            && Distinct(s.order)
            && (forall x: int :: x in s.order <==> x in s.choices)
            && (forall x: int :: x in s.order <==> Occurs(choices, x))
  {
    if choices != [] {
      var n := |choices| - 1;
      KnownIndices(choices[..n]);
      hide Fed;
      assert forall i | 0 <= i < n :: choices[..n][i] == choices[i];
    }
  }

  // ---------- demultiplexing ----------

  /** The sub-stream of one choice. */
  function Only(choices: seq<Choice>, index: int): seq<Choice> {
    if choices == [] then []
    else
      var last := choices[|choices| - 1];
      Only(choices[..|choices| - 1], index) + (if last.index == index then [last] else [])
  }

  lemma {:induction false} OnlyIsOnly(choices: seq<Choice>, index: int)
    ensures forall i | 0 <= i < |Only(choices, index)| :: Only(choices, index)[i].index == index
    ensures Occurs(choices, index) ==> Only(choices, index) != []
  {
    if choices != [] {
      var init := choices[..|choices| - 1];
      OnlyIsOnly(init, index);
      assert forall i | 0 <= i < |init| :: init[i] == choices[i];
    }
  }

  lemma FoldLast(s: State, choices: seq<Choice>, last: Choice)
    ensures FoldFrom(s, choices + [last]) == Next(FoldFrom(s, choices), last)
  {
    hide Next;
    assert (choices + [last])[..|choices|] == choices;
  }

  /** Other choices leave a builder alone. */
  lemma {:induction false} OtherChoicesDoNotMatter(choices: seq<Choice>, index: int)
    ensures BuilderOf(FoldFrom(START, choices), index) == BuilderOf(FoldFrom(START, Only(choices, index)), index)
  {
    if choices != [] {
      var init, last := choices[..|choices| - 1], choices[|choices| - 1];
      OtherChoicesDoNotMatter(init, index);
      hide Fed, FoldFrom;
      assert choices == init + [last];
      FoldLast(START, init, last);
      if last.index == index {
        FoldLast(START, Only(init, index), last);
      } else {
        assert Only(init, index) + [] == Only(init, index);
      }
    }
  }

  /** A stream of one choice assembles to that choice's message. */
  lemma {:induction false} SingleChoice(choices: seq<Choice>, index: int)
    requires choices != [] && forall i | 0 <= i < |choices| :: choices[i].index == index
    ensures FoldFrom(START, choices).order == [index]
    ensures Assembled(choices) == Shown(BuilderOf(FoldFrom(START, choices), index))
  {
    var s := FoldFrom(START, choices);
    SingleOrder(choices, index);
    hide Shown, FoldFrom;
    assert [index][..0] == [] && Inserted([], index) == [index];
    assert Sorted([index]) == [index];
    assert Output(s, [index]) == [] + Shown(BuilderOf(s, index)) == Shown(BuilderOf(s, index));
  }

  lemma {:induction false} SingleOrder(choices: seq<Choice>, index: int)
    requires choices != [] && forall i | 0 <= i < |choices| :: choices[i].index == index
    ensures FoldFrom(START, choices).order == [index] && index in FoldFrom(START, choices).choices
  {
    var init := choices[..|choices| - 1];
    if init != [] {
      SingleOrder(init, index);
    }
    hide Fed;
  }

  /** What assembling each of these choices' own sub-streams gives, one after the other. */
  function Apart(choices: seq<Choice>, indices: seq<int>): seq<Message> {
    if indices == [] then []
    else Apart(choices, indices[..|indices| - 1]) + Assembled(Only(choices, indices[|indices| - 1]))
  }

  lemma {:induction false} OutputIsApart(choices: seq<Choice>, indices: seq<int>)
    requires forall i | 0 <= i < |indices| :: Occurs(choices, indices[i])
    ensures Output(FoldFrom(START, choices), indices) == Apart(choices, indices)
  {
    if indices != [] {
      var last := indices[|indices| - 1];
      OutputIsApart(choices, indices[..|indices| - 1]);
      OtherChoicesDoNotMatter(choices, last);
      OnlyIsOnly(choices, last);
      SingleChoice(Only(choices, last), last);
    }
  }

  /** Demultiplexing: an interleaved stream assembles to the messages of its choices, each
      assembled from its own sub-stream alone, in increasing index order. */
  lemma Demultiplexing(choices: seq<Choice>) returns (indices: seq<int>)
    ensures Ascending(indices) && forall x: int :: x in indices <==> Occurs(choices, x)
    ensures Assembled(choices) == Apart(choices, indices)
  {
    var s := FoldFrom(START, choices);
    KnownIndices(choices);
    SortedSame(s.order);
    indices := Sorted(s.order);
    assert forall i | 0 <= i < |indices| :: indices[i] in indices;
    OutputIsApart(choices, indices);
  }

  // ---------- fragments ----------

  /** Two consecutive deltas do what one does. */
  ghost predicate Splits(c: Choice, c1: Choice, c2: Choice) {
    c1.index == c2.index == c.index && forall b: Builder :: Fed(Fed(b, c1), c2) == Fed(b, c)
  }

  lemma {:induction false} FedToolsJoins(b: Builder, x: seq<ToolDelta>, y: seq<ToolDelta>)
    ensures FedTools(b, x + y) == FedTools(FedTools(b, x), y)
    decreases |y|
  {
    if y == [] {
      assert x + y == x;
    } else {
      assert (x + y)[..|x + y| - 1] == x + y[..|y| - 1];
      FedToolsJoins(b, x, y[..|y| - 1]);
    }
  }

  /** The parts of a builder that tool deltas do not touch, and what they do to the rest. */
  lemma {:induction false} ToolsApart(b: Builder, content: string, seen: bool, tools: seq<ToolDelta>)
    ensures FedTools(b.(content := content, contentSeen := seen), tools) ==
            FedTools(b, tools).(content := content, contentSeen := seen)
    ensures FedTools(b, tools).content == b.content && FedTools(b, tools).role == b.role
    ensures FedTools(b, tools).reasoning == b.reasoning && FedTools(b, tools).finish == b.finish
    ensures FedTools(b, tools).contentSeen == b.contentSeen
  {
    if tools != [] {
      ToolsApart(b, content, seen, tools[..|tools| - 1]);
    }
  }

  /** A content fragment may be cut anywhere. */
  lemma ContentSplits(c: Choice, x: string, y: string)
    requires c.delta.Some? && c.delta.value.content == Some(x + y)
    ensures Splits(c, c.(delta := Some(c.delta.value.(content := Some(x)))),
                   Choice(c.index, "", Some(Delta("", Some(y), None, []))))
  {
    var c1, c2 := c.(delta := Some(c.delta.value.(content := Some(x)))), Choice(c.index, "", Some(Delta("", Some(y), None, [])));
    forall b: Builder ensures Fed(Fed(b, c1), c2) == Fed(b, c) {
      ContentCut(b, c, c1, c2, x, y);
    }
  }

  lemma ContentCut(b: Builder, c: Choice, c1: Choice, c2: Choice, x: string, y: string)
    requires c.delta.Some? && c.delta.value.content == Some(x + y)
    requires c1 == c.(delta := Some(c.delta.value.(content := Some(x))))
    requires c2 == Choice(c.index, "", Some(Delta("", Some(y), None, [])))
    ensures Fed(Fed(b, c1), c2) == Fed(b, c)
  {
    var d := c.delta.value;
    var head := b.(finish := Or(c.finish, b.finish), role := Or(d.role, b.role),
                   reasoning := if d.reasoning.Some? then b.reasoning + d.reasoning.value else b.reasoning);
    ToolsApart(head, b.content + x, true, d.tools);
    ToolsApart(head, b.content + (x + y), true, d.tools);
    assert (b.content + x) + y == b.content + (x + y);
    hide FedTools;
    assert Fed(b, c1) == FedTools(head, d.tools).(content := b.content + x, contentSeen := true);
    assert Fed(b, c) == FedTools(head, d.tools).(content := b.content + (x + y), contentSeen := true);
    ToolsApart(head, b.content, b.contentSeen, d.tools);
    NoTools(Fed(b, c1).(content := b.content + x + y));
  }

  lemma NoTools(b: Builder)
    ensures FedTools(b, []) == b
  {
  }

  /** So may the arguments of a tool call; deltas after it in the chunk stay after it. */
  lemma ArgsSplit(c: Choice, before: seq<ToolDelta>, t: ToolDelta, x: string, y: string, after: seq<ToolDelta>)
    requires c.delta.Some? && c.delta.value.tools == before + [t] + after && t.args == x + y
    ensures Splits(c, c.(delta := Some(c.delta.value.(tools := before + [t.(args := x)]))),
                   Choice(c.index, "", Some(Delta("", None, None, [ToolDelta(t.index, "", "", "", y)] + after))))
  {
    var c1 := c.(delta := Some(c.delta.value.(tools := before + [t.(args := x)])));
    var c2 := Choice(c.index, "", Some(Delta("", None, None, [ToolDelta(t.index, "", "", "", y)] + after)));
    forall b: Builder ensures Fed(Fed(b, c1), c2) == Fed(b, c) {
      var d := c.delta.value;
      var head := FedDelta(b.(finish := Or(c.finish, b.finish)), d.(tools := []));
      NoTools(head);
      ToolsCut(head, before, t, x, y, after);
      hide FedTools;
      assert Fed(b, c) == FedTools(head, before + [t] + after);
      assert Fed(b, c1) == FedTools(head, before + [t.(args := x)]);
      assert Fed(Fed(b, c1), c2) == FedTools(Fed(b, c1), [ToolDelta(t.index, "", "", "", y)] + after);
    }
  }

  lemma OneTool(b: Builder, t: ToolDelta)
    ensures FedTools(b, [t]) == FedTool(b, t)
  {
    assert [t][..0] == [];
  }

  lemma ToolsCut(b: Builder, before: seq<ToolDelta>, t: ToolDelta, x: string, y: string, after: seq<ToolDelta>)
    requires t.args == x + y
    ensures FedTools(FedTools(b, before + [t.(args := x)]), [ToolDelta(t.index, "", "", "", y)] + after) ==
            FedTools(b, before + [t] + after)
  {
    var rest := ToolDelta(t.index, "", "", "", y);
    hide FedTools, FedTool;
    FedToolsJoins(b, before, [t.(args := x)]);
    FedToolsJoins(FedTools(b, before + [t.(args := x)]), [rest], after);
    FedToolsJoins(b, before + [t], after);
    FedToolsJoins(b, before, [t]);
    var f := FedTools(b, before);
    OneTool(f, t);
    OneTool(f, t.(args := x));
    OneTool(FedTool(f, t.(args := x)), rest);
    ToolCut(f, t, x, y);
  }

  lemma ToolCut(b: Builder, t: ToolDelta, x: string, y: string)
    requires t.args == x + y
    ensures FedTool(FedTool(b, t.(args := x)), ToolDelta(t.index, "", "", "", y)) == FedTool(b, t)
  {
    var tool := if t.index in b.tools then b.tools[t.index] else Tool("", "", "", "");
    assert (tool.args + x) + y == tool.args + (x + y);
  }

  lemma {:induction false} FoldJoins(s: State, a: seq<Choice>, b: seq<Choice>)
    ensures FoldFrom(s, a + b) == FoldFrom(FoldFrom(s, a), b)
    decreases |b|
  {
    if b == [] {
      assert a + b == a;
    } else {
      assert (a + b)[..|a + b| - 1] == a + b[..|b| - 1];
      FoldJoins(s, a, b[..|b| - 1]);
    }
  }

  lemma SplitSteps(s: State, c: Choice, c1: Choice, c2: Choice)
    requires Splits(c, c1, c2)
    ensures FoldFrom(s, [c1, c2]) == FoldFrom(s, [c])
  {
    hide Fed;
    var b := BuilderOf(s, c.index);
    assert Fed(Fed(b, c1), c2) == Fed(b, c);
    assert [c1, c2][..1] == [c1] && [c1][..0] == [] && [c][..0] == [];
    assert Next(Next(s, c1), c2) == Next(s, c);
  }

  /** Cutting a fragment into consecutive deltas changes no message, wherever in the stream
      it is; ContentSplits and ArgsSplit say what may be cut. */
  lemma SplittingChangesNothing(a: seq<Choice>, c: Choice, c1: Choice, c2: Choice, b: seq<Choice>)
    requires Splits(c, c1, c2)
    ensures Assembled(a + [c1, c2] + b) == Assembled(a + [c] + b)
  {
    hide FoldFrom, Splits;
    FoldJoins(START, a + [c1, c2], b);
    FoldJoins(START, a + [c], b);
    FoldJoins(START, a, [c1, c2]);
    FoldJoins(START, a, [c]);
    SplitSteps(FoldFrom(START, a), c, c1, c2);
  }
}
