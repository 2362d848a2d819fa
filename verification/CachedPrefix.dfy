/**
The viewer's estimate of which request segments the provider served from its cache
(frontend/src/components/ChatViewer.tsx, annotateCachedPrefix): tools first, then
messages, until the cached tokens are used up.
*/
module CachedPrefix {
  import opened Wrappers

  datatype CacheState = Cached | Partial | NotCached

  datatype Estimate = Estimate(state: CacheState, cachedTokens: int, estimatedTokens: nat)

  datatype Segments = Segments(toolTokens: seq<nat>, messageTokens: seq<nat>)

  datatype Annotated<T> = Annotated(item: T, estimate: Option<Estimate>)

  function Min(a: int, b: int): int { if a <= b then a else b }

  function Sum(sizes: seq<nat>): nat {
    if sizes == [] then 0 else Sum(sizes[..|sizes| - 1]) + sizes[|sizes| - 1]
  }

  /** A segment without an estimate counts as empty. */
  function SizeAt(tokens: seq<nat>, i: nat): nat {
    if i < |tokens| then tokens[i] else 0
  }

  function Sizes(tokens: seq<nat>, count: nat): (r: seq<nat>)
    ensures |r| == count
  {
    seq(count, i requires 0 <= i < count => SizeAt(tokens, i))
  }

  /** The mark of a segment that starts `before` tokens into the request. */
  function EstimateOf(cached: int, before: nat, size: nat): Estimate {
    var tokens := if before >= cached then 0 else Min(before + size, cached) - before;
    Estimate(if tokens <= 0 then NotCached else if tokens >= size then Cached else Partial, tokens, size)
  }

  function Marks(cached: int, start: nat, sizes: seq<nat>): (r: seq<Estimate>)
    ensures |r| == |sizes|
  {
    seq(|sizes|, i requires 0 <= i < |sizes| => EstimateOf(cached, start + Sum(sizes[..i]), sizes[i]))
  }

  function CachedSum(marks: seq<Estimate>): int {
    if marks == [] then 0 else CachedSum(marks[..|marks| - 1]) + marks[|marks| - 1].cachedTokens
  }

  class Marker {
    const cached: int
    var consumed: nat

    constructor (cached: int)
      ensures this.cached == cached && consumed == 0
    {
      this.cached, consumed := cached, 0;
    }

    method Mark(estimated: nat) returns (e: Estimate)
      modifies this
      ensures consumed == old(consumed) + estimated && e == EstimateOf(cached, old(consumed), estimated)
      ensures e.estimatedTokens == estimated
    {
      var before := consumed;
      consumed := consumed + estimated;
      var tokens := if before >= cached then 0 else Min(consumed, cached) - before;
      e := Estimate(if tokens <= 0 then NotCached else if tokens >= estimated then Cached else Partial, tokens, estimated);
    }

    /** One `map` over tools or messages. */
    method MarkAll<T>(items: seq<T>, tokens: seq<nat>) returns (out: seq<Annotated<T>>)
      modifies this
      ensures consumed == old(consumed) + Sum(Sizes(tokens, |items|))
      ensures Sized(items, out, tokens) && Estimates(out) == Marks(cached, old(consumed), Sizes(tokens, |items|))
    {
      hide EstimateOf, Marks, Sum;
      ghost var sizes := Sizes(tokens, |items|);
      ghost var marks: seq<Estimate> := [];
      out := [];
      NoMarks(cached, consumed);
      for i := 0 to |items|
        invariant |out| == i == |marks| && consumed == old(consumed) + Sum(sizes[..i])
        invariant marks == Marks(cached, old(consumed), sizes[..i])
        invariant forall j | 0 <= j < i :: out[j] == Annotated(items[j], Some(marks[j]))
      {
        MarksStep(cached, old(consumed), sizes, i);
        var e := Mark(SizeAt(tokens, i));
        marks := marks + [e];
        out := out + [Annotated(items[i], Some(e))];
      }
      assert sizes[..|items|] == sizes;
      EstimatesHaveSizes(cached, old(consumed), sizes);
      assert Estimates(out) == marks;
    }
  }

  lemma NoMarks(cached: int, start: nat)
    ensures Marks(cached, start, []) == [] && Sum([]) == 0
  {
  }

  lemma MarkAt(cached: int, start: nat, sizes: seq<nat>, n: nat, j: nat)
    requires j < n <= |sizes|
    ensures Marks(cached, start, sizes[..n])[j] == EstimateOf(cached, start + Sum(sizes[..j]), sizes[j])
  {
    hide EstimateOf, Sum;
    assert sizes[..n][..j] == sizes[..j];
  }

  lemma MarksStep(cached: int, start: nat, sizes: seq<nat>, i: nat)
    requires i < |sizes|
    ensures Sum(sizes[..i + 1]) == Sum(sizes[..i]) + sizes[i]
    ensures Marks(cached, start, sizes[..i + 1]) ==
            Marks(cached, start, sizes[..i]) + [EstimateOf(cached, start + Sum(sizes[..i]), sizes[i])]
  {
    assert sizes[..i + 1][..i] == sizes[..i];
    hide EstimateOf, Sum, Marks;
    MarkAt(cached, start, sizes, i + 1, i);
    forall j | 0 <= j < i
      ensures Marks(cached, start, sizes[..i + 1])[j] == Marks(cached, start, sizes[..i])[j]
    {
      MarkAt(cached, start, sizes, i + 1, j);
      MarkAt(cached, start, sizes, i, j);
    }
  }

  function Plain<T>(items: seq<T>): (r: seq<Annotated<T>>)
    ensures |r| == |items|
  {
    seq(|items|, i requires 0 <= i < |items| => Annotated(items[i], None))
  }

  function Estimates<T>(items: seq<Annotated<T>>): (r: seq<Estimate>)
    requires forall i | 0 <= i < |items| :: items[i].estimate.Some?
    ensures |r| == |items|
  {
    seq(|items|, i requires 0 <= i < |items| => items[i].estimate.value)
  }

  /** A segment is cached when all of it is, and none of it is when it has no cached token. */
  ghost predicate Consistent(m: Estimate) {
    && 0 <= m.cachedTokens <= m.estimatedTokens
    && (m.state.Cached? <==> m.estimatedTokens > 0 && m.cachedTokens == m.estimatedTokens)
    && (m.state.NotCached? <==> m.cachedTokens == 0)
  }

  /** Cached segments come first, then at most one partial one, then the rest; segments
      without tokens are NotCached wherever they are. */
  ghost predicate InOrder(marks: seq<Estimate>) {
    forall i, j | 0 <= i < j < |marks| && !marks[j].state.NotCached? ::
      !marks[i].state.Partial? && (marks[i].estimatedTokens > 0 ==> marks[i].state.Cached?)
  }

  /** What the marks of a whole request say: the cached tokens are all accounted for, and
      they are a prefix of it. */
  ghost predicate PrefixAccounting(cached: int, marks: seq<Estimate>, total: nat) {
    && CachedSum(marks) == Min(cached, total)
    && (forall i | 0 <= i < |marks| :: Consistent(marks[i]))
    && InOrder(marks)
  }

  /** The annotated items are the given ones, each with the size that was estimated for it. */
  ghost predicate Sized<T>(items: seq<T>, out: seq<Annotated<T>>, tokens: seq<nat>) {
    && |out| == |items|
    && forall i | 0 <= i < |items| :: out[i].item == items[i] && out[i].estimate.Some?
         && out[i].estimate.value.estimatedTokens == if i < |tokens| then tokens[i] else 0
  }

  ghost predicate Unmarked<T>(items: seq<T>, out: seq<Annotated<T>>) {
    |out| == |items| && forall i | 0 <= i < |items| :: out[i].item == items[i] && out[i].estimate.None?
  }

  method AnnotateCachedPrefix<T, M>(tools: seq<T>, messages: seq<M>, cached: int, segments: Option<Segments>)
    returns (tools': seq<Annotated<T>>, messages': seq<Annotated<M>>)
    ensures cached <= 0 || segments.None? ==> Unmarked(tools, tools') && Unmarked(messages, messages')
    ensures cached > 0 && segments.Some? ==>
              && Sized(tools, tools', segments.value.toolTokens)
              && Sized(messages, messages', segments.value.messageTokens)
              && PrefixAccounting(cached, Estimates(tools') + Estimates(messages'),
                   Sum(Sizes(segments.value.toolTokens, |tools|)) + Sum(Sizes(segments.value.messageTokens, |messages|)))
  {
    hide Sum, Marks, PrefixAccounting, Sized, Sizes;
    if cached <= 0 || segments.None? {
      return Plain(tools), Plain(messages);
    }
    var marker := new Marker(cached);
    tools' := marker.MarkAll(tools, segments.value.toolTokens);
    messages' := marker.MarkAll(messages, segments.value.messageTokens);
    ghost var a, b := Sizes(segments.value.toolTokens, |tools|), Sizes(segments.value.messageTokens, |messages|);
    SumJoins(a, b);
    MarksJoin(cached, a, b);
    MarksAccount(cached, a + b);
  }

  lemma {:induction false} SumJoins(a: seq<nat>, b: seq<nat>)
    ensures Sum(a + b) == Sum(a) + Sum(b)
    decreases |b|
  {
    if b == [] {
      assert a + b == a;
    } else {
      assert (a + b)[..|a + b| - 1] == a + b[..|b| - 1];
      SumJoins(a, b[..|b| - 1]);
    }
  }

  lemma MarksJoin(cached: int, a: seq<nat>, b: seq<nat>)
    ensures Marks(cached, 0, a + b) == Marks(cached, 0, a) + Marks(cached, Sum(a), b)
  {
    hide EstimateOf, Sum;
    forall i | 0 <= i < |a + b|
      ensures Marks(cached, 0, a + b)[i] == (Marks(cached, 0, a) + Marks(cached, Sum(a), b))[i]
    {
      if i < |a| {
        assert (a + b)[..i] == a[..i];
      } else {
        assert (a + b)[..i] == a + b[..i - |a|];
        SumJoins(a, b[..i - |a|]);
      }
    }
  }

  lemma {:induction false} SumMonotone(sizes: seq<nat>, i: nat, j: nat)
    requires i < j <= |sizes|
    ensures Sum(sizes[..i]) + sizes[i] <= Sum(sizes[..j])
  {
    assert sizes[..j][..j - 1] == sizes[..j - 1];
    if i < j - 1 {
      SumMonotone(sizes, i, j - 1);
    }
  }

  lemma {:induction false} CachedSumIsMin(cached: int, sizes: seq<nat>)
    requires cached > 0
    ensures CachedSum(Marks(cached, 0, sizes)) == Min(cached, Sum(sizes))
  {
    if sizes != [] {
      var n := |sizes| - 1;
      CachedSumIsMin(cached, sizes[..n]);
      MarksInit(cached, sizes);
    }
  }

  lemma MarksInit(cached: int, sizes: seq<nat>)
    requires sizes != []
    ensures Marks(cached, 0, sizes)[..|sizes| - 1] == Marks(cached, 0, sizes[..|sizes| - 1])
  {
    hide EstimateOf;
    assert forall i | 0 <= i < |sizes| - 1 :: sizes[..|sizes| - 1][..i] == sizes[..i];
  }

  lemma EstimatesHaveSizes(cached: int, start: nat, sizes: seq<nat>)
    ensures forall i | 0 <= i < |sizes| :: Marks(cached, start, sizes)[i].estimatedTokens == sizes[i]
  {
  }

  /** An earlier segment that has tokens is fully cached if a later one is cached at all. */
  lemma EarlierIsCached(cached: int, sizes: seq<nat>, i: nat, j: nat)
    requires i < j < |sizes| && !Marks(cached, 0, sizes)[j].state.NotCached?
    ensures var m := Marks(cached, 0, sizes)[i];
            !m.state.Partial? && (m.estimatedTokens > 0 ==> m.state.Cached?)
  {
    SumMonotone(sizes, i, j);
    hide Sum;
  }

  lemma EachMark(cached: int, sizes: seq<nat>, i: nat)
    requires cached > 0 && i < |sizes|
    ensures Consistent(Marks(cached, 0, sizes)[i])
  {
    hide Sum;
  }

  lemma MarksAccount(cached: int, sizes: seq<nat>)
    requires cached > 0
    ensures PrefixAccounting(cached, Marks(cached, 0, sizes), Sum(sizes))
  {
    var marks := Marks(cached, 0, sizes);
    CachedSumIsMin(cached, sizes);
    hide CachedSum, Sum, Marks, Min, Consistent;
    forall i | 0 <= i < |marks| ensures Consistent(marks[i]) {
      EachMark(cached, sizes, i);
    }
    forall i, j | 0 <= i < j < |marks| && !marks[j].state.NotCached?
      ensures !marks[i].state.Partial? && (marks[i].estimatedTokens > 0 ==> marks[i].state.Cached?)
    {
      EarlierIsCached(cached, sizes, i, j);
    }
  }
}
