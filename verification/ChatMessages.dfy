/**
What the viewer's assembly (frontend/src/components/ChatViewer.tsx, assembleOpenAIStream)
makes of one choice, in terms of the deltas of that choice alone.
*/
module ChatMessages {
  import opened Wrappers
  import opened ChatViewer
  import opened Reports

  // ---------- what the deltas of a choice say ----------

  /** All content deltas, in order. */
  function Contents(cs: seq<Choice>): string {
    if cs == [] then ""
    else
      var c := cs[|cs| - 1];
      Contents(cs[..|cs| - 1]) +
      (if c.delta.Some? && c.delta.value.content.Some? then c.delta.value.content.value else "")
  }

  function Reasonings(cs: seq<Choice>): string {
    if cs == [] then ""
    else
      var c := cs[|cs| - 1];
      Reasonings(cs[..|cs| - 1]) +
      (if c.delta.Some? && c.delta.value.reasoning.Some? then c.delta.value.reasoning.value else "")
  }

  /** A content delta counts even if it is empty. */
  predicate HasContent(cs: seq<Choice>) {
    exists i | 0 <= i < |cs| :: cs[i].delta.Some? && cs[i].delta.value.content.Some?
  }

  predicate HasFinish(cs: seq<Choice>) {
    exists i | 0 <= i < |cs| :: cs[i].finish != ""
  }

  function Roles(cs: seq<Choice>): seq<string> {
    if cs == [] then []
    else
      var c := cs[|cs| - 1];
      Roles(cs[..|cs| - 1]) + [if c.delta.Some? then c.delta.value.role else ""]
  }

  /** All tool deltas, in order. */
  function ToolDeltas(cs: seq<Choice>): seq<ToolDelta> {
    if cs == [] then []
    else
      var c := cs[|cs| - 1];
      ToolDeltas(cs[..|cs| - 1]) + (if c.delta.Some? then c.delta.value.tools else [])
  }

  /** The deltas of one tool call. */
  function OfTool(ts: seq<ToolDelta>, index: int): seq<ToolDelta> {
    if ts == [] then []
    else
      var t := ts[|ts| - 1];
      OfTool(ts[..|ts| - 1], index) + (if t.index == index then [t] else [])
  }

  function ArgsOf(ts: seq<ToolDelta>): string {
    if ts == [] then "" else ArgsOf(ts[..|ts| - 1]) + ts[|ts| - 1].args
  }

  function IdsOf(ts: seq<ToolDelta>): (r: seq<string>)
    ensures |r| == |ts| && forall i | 0 <= i < |ts| :: r[i] == ts[i].id
  {
    seq(|ts|, i requires 0 <= i < |ts| => ts[i].id)
  }

  function KindsOf(ts: seq<ToolDelta>): (r: seq<string>)
    ensures |r| == |ts| && forall i | 0 <= i < |ts| :: r[i] == ts[i].kind
  {
    seq(|ts|, i requires 0 <= i < |ts| => ts[i].kind)
  }

  function NamesOf(ts: seq<ToolDelta>): (r: seq<string>)
    ensures |r| == |ts| && forall i | 0 <= i < |ts| :: r[i] == ts[i].name
  {
    seq(|ts|, i requires 0 <= i < |ts| => ts[i].name)
  }

  /** The tool calls in order of their first deltas. */
  function Appearing(ts: seq<ToolDelta>): seq<int> {
    if ts == [] then []
    else
      var before, t := Appearing(ts[..|ts| - 1]), ts[|ts| - 1];
      if t.index in before then before else before + [t.index]
  }

  /** What is put together of the deltas of one tool call. */
  ghost predicate PutTogether(ts: seq<ToolDelta>, tool: Tool) {
    && tool.args == ArgsOf(ts)
    && Last(IdsOf(ts), "", tool.id) && Last(KindsOf(ts), "", tool.kind) && Last(NamesOf(ts), "", tool.name)
  }

  // ---------- the fold keeps exactly that ----------

  ghost predicate ToolsSay(b: Builder, ts: seq<ToolDelta>) {
    && b.toolOrder == Appearing(ts)
    && (forall x: int :: x in b.tools <==> x in Appearing(ts))
    && (forall x: int | x in b.tools :: PutTogether(OfTool(ts, x), b.tools[x]))
  }

  lemma {:induction false} AppearingAre(ts: seq<ToolDelta>, x: int)
    ensures x in Appearing(ts) <==> OfTool(ts, x) != []
  {
    if ts != [] {
      AppearingAre(ts[..|ts| - 1], x);
    }
  }

  /** A tool call nobody has spoken of. */
  lemma NothingYet()
    ensures PutTogether([], Tool("", "", "", ""))
  {
  }

  lemma OneMoreDelta(ts: seq<ToolDelta>, tool: Tool, d: ToolDelta)
    requires PutTogether(ts, tool)
    ensures PutTogether(ts + [d], Tool(Or(d.id, tool.id), Or(d.kind, tool.kind), Or(d.name, tool.name), tool.args + d.args))
  {
    var all := ts + [d];
    assert all[..|ts|] == ts;
    assert IdsOf(all) == IdsOf(ts) + [d.id] && KindsOf(all) == KindsOf(ts) + [d.kind] && NamesOf(all) == NamesOf(ts) + [d.name];
    KeepsLast(IdsOf(ts), "", tool.id, d.id);
    KeepsLast(KindsOf(ts), "", tool.kind, d.kind);
    KeepsLast(NamesOf(ts), "", tool.name, d.name);
    hide Last;
  }

  lemma OneTool(b: Builder, ts: seq<ToolDelta>, d: ToolDelta)
    requires ToolsSay(b, ts)
    ensures ToolsSay(FedTool(b, d), ts + [d])
  {
    var all, b' := ts + [d], FedTool(b, d);
    assert all[..|ts|] == ts;
    var tool := if d.index in b.tools then b.tools[d.index] else Tool("", "", "", "");
    AppearingAre(ts, d.index);
    NothingYet();
    assert PutTogether(OfTool(ts, d.index), tool);
    OneMoreDelta(OfTool(ts, d.index), tool, d);
    hide PutTogether;
    forall x: int | x in b'.tools ensures PutTogether(OfTool(all, x), b'.tools[x]) {
      assert OfTool(all, x) == OfTool(ts, x) + (if d.index == x then [d] else []);
      assert OfTool(ts, x) + [] == OfTool(ts, x);
    }
  }

  lemma {:induction false} MoreTools(b: Builder, ts: seq<ToolDelta>, more: seq<ToolDelta>)
    requires ToolsSay(b, ts)
    ensures ToolsSay(FedTools(b, more), ts + more)
    decreases |more|
  {
    hide ToolsSay, FedTool;
    if more == [] {
      assert ts + more == ts;
    } else {
      var n := |more| - 1;
      MoreTools(b, ts, more[..n]);
      assert ts + more == (ts + more[..n]) + [more[n]];
      OneTool(FedTools(b, more[..n]), ts + more[..n], more[n]);
    }
  }

  /** A builder that has been fed just these choices. */
  ghost predicate Says(b: Builder, cs: seq<Choice>) {
    && b.content == Contents(cs) && (b.contentSeen <==> HasContent(cs))
    && b.reasoning == Reasonings(cs)
    && (b.finish != "" <==> HasFinish(cs))
    && (exists r :: Last(Roles(cs), "", r) && b.role == Or(r, "assistant"))
    && ToolsSay(b, ToolDeltas(cs))
  }

  lemma EmptySays()
    ensures Says(EMPTY, [])
  {
    assert Last(Roles([]), "", "");
  }

  lemma HasStep(cs: seq<Choice>, c: Choice)
    ensures HasContent(cs + [c]) <==> HasContent(cs) || (c.delta.Some? && c.delta.value.content.Some?)
    ensures HasFinish(cs + [c]) <==> HasFinish(cs) || c.finish != ""
  {
    var all := cs + [c];
    assert all[|cs|] == c && forall i | 0 <= i < |cs| :: all[i] == cs[i];
    if HasContent(cs) {
      var i :| 0 <= i < |cs| && cs[i].delta.Some? && cs[i].delta.value.content.Some?;
      assert all[i].delta.Some? && all[i].delta.value.content.Some?;
    }
    if HasFinish(cs) {
      var i :| 0 <= i < |cs| && cs[i].finish != "";
      assert all[i].finish != "";
    }
  }

  lemma RoleStep(b: Builder, cs: seq<Choice>, c: Choice, role: string)
    requires exists r :: Last(Roles(cs), "", r) && b.role == Or(r, "assistant")
    requires role == if c.delta.Some? then Or(c.delta.value.role, b.role) else b.role
    ensures exists r :: Last(Roles(cs + [c]), "", r) && role == Or(r, "assistant")
  {
    var r :| Last(Roles(cs), "", r) && b.role == Or(r, "assistant");
    var next := if c.delta.Some? then c.delta.value.role else "";
    assert (cs + [c])[..|cs|] == cs;
    KeepsLast(Roles(cs), "", r, next);
    hide Last;
    assert Last(Roles(cs + [c]), "", if next == "" then r else next);
  }

  /** What feeding one choice does to everything but the tools. */
  lemma FedApartFromTools(b: Builder, c: Choice)
    ensures var b' := Fed(b, c);
            && b'.finish == Or(c.finish, b.finish)
            && b'.role == (if c.delta.Some? then Or(c.delta.value.role, b.role) else b.role)
            && b'.content == b.content + (if c.delta.Some? && c.delta.value.content.Some? then c.delta.value.content.value else "")
            && b'.contentSeen == (b.contentSeen || (c.delta.Some? && c.delta.value.content.Some?))
            && b'.reasoning == b.reasoning + (if c.delta.Some? && c.delta.value.reasoning.Some? then c.delta.value.reasoning.value else "")
  {
    assert b.content + "" == b.content && b.reasoning + "" == b.reasoning;
    if c.delta.Some? {
      var d := c.delta.value;
      var started := b.(finish := Or(c.finish, b.finish), role := Or(d.role, b.role),
                        content := if d.content.Some? then b.content + d.content.value else b.content,
                        contentSeen := b.contentSeen || d.content.Some?,
                        reasoning := if d.reasoning.Some? then b.reasoning + d.reasoning.value else b.reasoning);
      ToolsApart(started, "", false, d.tools);
      hide FedTools;
      assert Fed(b, c) == FedTools(started, d.tools);
    }
  }

  lemma FedTheTools(b: Builder, c: Choice, ts: seq<ToolDelta>)
    requires ToolsSay(b, ts)
    ensures ToolsSay(Fed(b, c), ts + (if c.delta.Some? then c.delta.value.tools else []))
  {
    if c.delta.Some? {
      var d := c.delta.value;
      var started := b.(finish := Or(c.finish, b.finish), role := Or(d.role, b.role),
                        content := if d.content.Some? then b.content + d.content.value else b.content,
                        contentSeen := b.contentSeen || d.content.Some?,
                        reasoning := if d.reasoning.Some? then b.reasoning + d.reasoning.value else b.reasoning);
      SameTools(b, started, ts);
      MoreTools(started, ts, d.tools);
      hide FedTools, ToolsSay;
      assert Fed(b, c) == FedTools(started, d.tools);
    } else {
      assert ts + [] == ts;
      SameTools(b, Fed(b, c), ts);
    }
  }

  lemma SameTools(b: Builder, b': Builder, ts: seq<ToolDelta>)
    requires ToolsSay(b, ts) && b'.tools == b.tools && b'.toolOrder == b.toolOrder
    ensures ToolsSay(b', ts)
  {
    hide PutTogether;
  }

  lemma OneMoreChoice(b: Builder, cs: seq<Choice>, c: Choice)
    requires Says(b, cs)
    ensures Says(Fed(b, c), cs + [c])
  {
    assert (cs + [c])[..|cs|] == cs;
    FedApartFromTools(b, c);
    FedTheTools(b, c, ToolDeltas(cs));
    HasStep(cs, c);
    RoleStep(b, cs, c, Fed(b, c).role);
    assert ToolDeltas(cs + [c]) == ToolDeltas(cs) + (if c.delta.Some? then c.delta.value.tools else []);
    assert Contents(cs + [c]) == Contents(cs) +
           (if c.delta.Some? && c.delta.value.content.Some? then c.delta.value.content.value else "");
    assert Reasonings(cs + [c]) == Reasonings(cs) +
           (if c.delta.Some? && c.delta.value.reasoning.Some? then c.delta.value.reasoning.value else "");
    hide Fed, ToolsSay, Contents, Reasonings, Roles, ToolDeltas, HasContent, HasFinish, Last;
  }

  lemma {:induction false} BuilderSays(cs: seq<Choice>, index: int)
    requires forall i | 0 <= i < |cs| :: cs[i].index == index
    ensures Says(BuilderOf(FoldFrom(START, cs), index), cs)
  {
    hide Says, Fed;
    if cs == [] {
      EmptySays();
    } else {
      var n := |cs| - 1;
      BuilderSays(cs[..n], index);
      OneMoreChoice(BuilderOf(FoldFrom(START, cs[..n]), index), cs[..n], cs[n]);
      assert cs == cs[..n] + [cs[n]];
    }
  }

  // ---------- the message ----------

  /** There is something to show. */
  predicate Speaks(cs: seq<Choice>) {
    HasContent(cs) || Reasonings(cs) != "" || ToolDeltas(cs) != [] || HasFinish(cs)
  }

  /** The shown calls: those of the deltas, in order of appearance. */
  ghost predicate ShowsTools(shown: seq<Tool>, ts: seq<ToolDelta>) {
    var order := Appearing(ts);
    && |shown| == |order|
    && forall k | 0 <= k < |order| ::
         var mine := OfTool(ts, order[k]);
         && shown[k].args == ArgsOf(mine)
         && Last(IdsOf(mine), "", shown[k].id) && Last(NamesOf(mine), "", shown[k].name)
         && exists kind :: Last(KindsOf(mine), "", kind) && shown[k].kind == if kind == "" then "function" else kind
  }

  lemma {:induction false} NoContentIsEmpty(cs: seq<Choice>)
    ensures !HasContent(cs) ==> Contents(cs) == ""
  {
    if cs != [] {
      var n := |cs| - 1;
      NoContentIsEmpty(cs[..n]);
      assert cs == cs[..n] + [cs[n]];
      HasStep(cs[..n], cs[n]);
    }
  }

  lemma AppearingNothing(ts: seq<ToolDelta>)
    ensures Appearing(ts) == [] <==> ts == []
  {
  }

  lemma CallsShown(b: Builder, ts: seq<ToolDelta>)
    requires ToolsSay(b, ts)
    ensures ShowsTools(ToolCalls(b, b.toolOrder), ts)
  {
    var order := b.toolOrder;
    assert order == Appearing(ts);
    forall i | 0 <= i < |order| ensures order[i] in b.tools {
      var x: int := order[i];
      assert x in Appearing(ts);
      assert x in b.tools <==> x in Appearing(ts);
    }
    CallsFor(b, order);
    hide ToolCalls, Last;
    var shown := ToolCalls(b, order);
    forall k | 0 <= k < |order|
      ensures var mine := OfTool(ts, order[k]);
              && shown[k].args == ArgsOf(mine)
              && Last(IdsOf(mine), "", shown[k].id) && Last(NamesOf(mine), "", shown[k].name)
              && exists kind :: Last(KindsOf(mine), "", kind) && shown[k].kind == if kind == "" then "function" else kind
    {
      var mine, tool := OfTool(ts, order[k]), b.tools[order[k]];
      assert PutTogether(mine, tool);
      assert Last(KindsOf(mine), "", tool.kind);
    }
  }

  /**
  What is shown of a choice, from its own deltas: nothing if there are none but role
  deltas; else one message with all content, present if there was a content delta or a
  finish reason, all reasoning if there was any, the last role, and every tool call.
  */
  lemma MessageOfChoice(choices: seq<Choice>, index: int)
    requires Occurs(choices, index)
    ensures var cs, shown := Only(choices, index), Assembled(Only(choices, index));
            && (!Speaks(cs) ==> shown == [])
            && (Speaks(cs) ==>
                  && |shown| == 1
                  && shown[0].content == (if HasContent(cs) || HasFinish(cs) then Some(Contents(cs)) else None)
                  && shown[0].reasoning == (if Reasonings(cs) != "" then Some(Reasonings(cs)) else None)
                  && (exists role :: Last(Roles(cs), "", role) && shown[0].role == if role == "" then "assistant" else role)
                  && ShowsTools(shown[0].tools, ToolDeltas(cs)))
  {
    var cs := Only(choices, index);
    OnlyIsOnly(choices, index);
    SingleChoice(cs, index);
    BuilderSays(cs, index);
    var b := BuilderOf(FoldFrom(START, cs), index);
    NoContentIsEmpty(cs);
    AppearingNothing(ToolDeltas(cs));
    CallsShown(b, ToolDeltas(cs));
    assert b.toolOrder == [] <==> ToolDeltas(cs) == [];
    hide FoldFrom, Assembled, Only, ToolsSay, ShowsTools, ToolCalls, Contents, Reasonings, ToolDeltas, Roles, Last,
         HasContent, HasFinish, Appearing;
  }
}
