/**
The price catalog of internal/pricing/pricing.go. Rates are reals: dollars per
million tokens, without the rounding of float64.
*/
module Pricing {
  import opened Wrappers
  import opened Text

  datatype Tier = Tier(input: real, output: real, cacheRead: real, cacheWrite: real, kind: string, size: int)

  datatype Price = Price(input: real, output: real, cacheRead: real, cacheWrite: real, tiers: seq<Tier>)

  datatype Usage = Usage(input: int, output: int, cachedInput: int, cacheCreation: int, contextTokens: int)

  type Table = map<string, Price>

  // ---------- lookup ----------

  /** Keys that a request for the model may be billed under, other than the model itself. */
  predicate Shortens(key: string, model: string) { HasPrefix(model, key) && key != "" }

  predicate Extends(key: string, model: string) { HasPrefix(key, model) && model != "" && key != "" }

  /** A longest key of the table with the property. */
  ghost predicate LongestShortening(table: Table, model: string, key: string) {
    && key in table && Shortens(key, model)
    && forall k <- table :: Shortens(k, model) ==> |k| <= |key|
  }

  ghost predicate LongestExtension(table: Table, model: string, key: string) {
    && key in table && Extends(key, model)
    && forall k <- table :: Extends(k, model) ==> |k| <= |key|
  }

  ghost predicate Shortened(table: Table, model: string) {
    exists k :: k in table && Shortens(k, model)
  }

  ghost predicate Extended(table: Table, model: string) {
    exists k :: k in table && Extends(k, model)
  }

  /** The order in which a `range` over the map happens to visit its keys. */
  ghost predicate IsOrder(order: seq<string>, table: Table) {
    && (forall i | 0 <= i < |order| :: order[i] in table)
    && (forall k <- table :: k in order)
    && (forall i, j | 0 <= i < j < |order| :: order[i] != order[j])
  }

  /** First key of maximal length with property `longer`, as either loop leaves it. */
  function Scan(order: seq<string>, model: string, forward: bool): string {
    if order == [] then ""
    else
      var best, k := Scan(order[..|order| - 1], model, forward), order[|order| - 1];
      if (if forward then HasPrefix(model, k) else HasPrefix(k, model) && |model| > 0) && |k| > |best| then k else best
  }

  /** The key whose price lookup returns; `first` and `second` are the orders of its two loops. */
  function LookupKey(table: Table, first: seq<string>, second: seq<string>, model: string): Option<string> {
    if model in table then Some(model)
    else if Scan(first, model, true) != "" then Some(Scan(first, model, true))
    else if Scan(second, model, false) != "" then Some(Scan(second, model, false))
    else None
  }

  /** What the lookup returns. */
  function LookupPrice(table: Table, first: seq<string>, second: seq<string>, model: string): Option<Price> {
    var key := LookupKey(table, first, second, model);
    if key.Some? && key.value in table then Some(table[key.value]) else None
  }

  /** The two results in terms of the two loops. */
  lemma LookupIs(table: Table, first: seq<string>, second: seq<string>, model: string)
    ensures var key, price := LookupKey(table, first, second, model), LookupPrice(table, first, second, model);
            var near, far := Scan(first, model, true), Scan(second, model, false);
            && (key.Some? <==> model in table || near != "" || far != "")
            && (model in table ==> price == Some(table[model]))
            && (model !in table && near != "" && near in table ==> price == Some(table[near]))
            && (model !in table && near == "" && far != "" && far in table ==> price == Some(table[far]))
            && (key.None? ==> price.None?)
  {
    hide Scan;
  }

  class Catalog {
    var table: Table

    constructor (table: Table)
      ensures this.table == table
    {
      this.table := table;
    }

    method Replace(table: Table)
      modifies this
      ensures this.table == table
    {
      this.table := table;
    }

    /** The first loop: the longest key that prefixes the model. */
    method Shortening(model: string, order: seq<string>) returns (best: Option<Price>, bestKey: string)
      requires IsOrder(order, table)
      ensures bestKey == Scan(order, model, true)
      ensures bestKey != "" ==> bestKey in table && best == Some(table[bestKey])
    {
      assert forall i | 0 <= i < |order| :: order[i] in table;
      hide IsOrder, HasPrefix, Scan;
      ScanNone(order[..0], model);
      best, bestKey := None, "";
      for i := 0 to |order|
        invariant bestKey == Scan(order[..i], model, true)
        invariant bestKey != "" ==> bestKey in table && best == Some(table[bestKey])
      {
        ScanStep(order, i, model, true);
        var k := order[i];
        if HasPrefix(model, k) && |k| > |bestKey| {
          best, bestKey := Some(table[k]), k;
        }
      }
      assert order[..|order|] == order;
    }

    /** The second: the longest key that the model prefixes. */
    method Extension(model: string, order: seq<string>) returns (best: Option<Price>, bestKey: string)
      requires IsOrder(order, table)
      ensures bestKey == Scan(order, model, false)
      ensures bestKey != "" ==> bestKey in table && best == Some(table[bestKey])
    {
      assert forall i | 0 <= i < |order| :: order[i] in table;
      hide IsOrder, HasPrefix, Scan;
      ScanNone(order[..0], model);
      best, bestKey := None, "";
      for i := 0 to |order|
        invariant bestKey == Scan(order[..i], model, false)
        invariant bestKey != "" ==> bestKey in table && best == Some(table[bestKey])
      {
        ScanStep(order, i, model, false);
        var k := order[i];
        if HasPrefix(k, model) && |model| > 0 {
          if |k| > |bestKey| {
            best, bestKey := Some(table[k]), k;
          }
        }
      }
      assert order[..|order|] == order;
    }

    method Lookup(model: string, first: seq<string>, second: seq<string>) returns (price: Option<Price>)
      requires IsOrder(first, table) && IsOrder(second, table)
      ensures price == LookupPrice(table, first, second, model)
      ensures LookupKey(table, first, second, model).Some? ==> price.Some?
    {
      LookupIs(table, first, second, model);
      hide *;
      if model in table {
        return Some(table[model]);
      }
      var best, bestKey := Shortening(model, first);
      if bestKey != "" {
        return best;
      }
      best, bestKey := Extension(model, second);
      if bestKey == "" {
        return None;
      }
      return best;
    }

    method Cost(model: string, u: Usage, first: seq<string>, second: seq<string>) returns (cost: real)
      requires IsOrder(first, table) && IsOrder(second, table)
      ensures var key := LookupKey(table, first, second, model);
              cost == if model == "" || key.None? || key.value !in table then 0.0 else Billed(table[key.value], u)
    {
      hide LookupKey, ContextSize, EffectiveRates;
      if model == "" {
        return 0.0;
      }
      var raw := Lookup(model, first, second);
      if raw.None? {
        return 0.0;
      }
      var p := Effective(raw.value, ContextSize(u));
      var cacheRead := if p.cacheRead == 0.0 then p.input else p.cacheRead;
      var cacheWrite := if p.cacheWrite == 0.0 then p.input else p.cacheWrite;
      cost := u.input as real / 1000000.0 * p.input
            + u.cachedInput as real / 1000000.0 * cacheRead
            + u.cacheCreation as real / 1000000.0 * cacheWrite
            + u.output as real / 1000000.0 * p.output;
      assert Rates(p.input, p.output, cacheRead, cacheWrite) == BilledRates(raw.value, ContextSize(u));
    }
  }

  lemma ScanNone(order: seq<string>, model: string)
    requires order == []
    ensures Scan(order, model, true) == Scan(order, model, false) == ""
  {
  }

  lemma ScanStep(order: seq<string>, i: nat, model: string, forward: bool)
    requires i < |order|
    ensures var best, k := Scan(order[..i], model, forward), order[i];
            Scan(order[..i + 1], model, forward) ==
              if (if forward then HasPrefix(model, k) else HasPrefix(k, model) && |model| > 0) && |k| > |best| then k else best
  {
    hide HasPrefix;
    assert order[..i + 1][..i] == order[..i];
  }

  lemma {:induction false} ScanFinds(order: seq<string>, model: string, forward: bool)
    ensures var best := Scan(order, model, forward);
            && (best != "" ==> best in order && (if forward then Shortens(best, model) else Extends(best, model)))
            && forall k <- order :: (if forward then Shortens(k, model) else Extends(k, model)) ==> |k| <= |best|
  {
    if order != [] {
      var init, last := order[..|order| - 1], order[|order| - 1];
      ScanFinds(init, model, forward);
      assert order == init + [last];
    }
  }

  /** What the lookup finds, for any two iteration orders: the exact entry, else the
      longest key that prefixes the model, else some longest key it prefixes. */
  lemma LookupFinds(table: Table, first: seq<string>, second: seq<string>, model: string)
    requires IsOrder(first, table) && IsOrder(second, table)
    ensures match LookupKey(table, first, second, model)
            case Some(key) =>
              && key in table
              && (model in table ==> key == model)
              && (model !in table && Shortened(table, model) ==> LongestShortening(table, model, key))
              && (model !in table && !Shortened(table, model) ==> LongestExtension(table, model, key))
            case None => model !in table && !Shortened(table, model) && !Extended(table, model)
  {
    ScanFinds(first, model, true);
    ScanFinds(second, model, false);
    forall k | k in table ensures k in first && k in second {
    }
  }

  /** Two prefixes of one model with the same length are the same key, so the forward
      pass cannot depend on the iteration order. */
  lemma ShorteningUnique(table: Table, model: string, a: string, b: string)
    requires LongestShortening(table, model, a) && LongestShortening(table, model, b)
    ensures a == b
  {
  }

  ghost predicate OrderFree(table: Table, model: string) {
    forall f, s, f', s' | IsOrder(f, table) && IsOrder(s, table) && IsOrder(f', table) && IsOrder(s', table) ::
      LookupPrice(table, f, s, model) == LookupPrice(table, f', s', model)
  }

  ghost predicate Ambiguous(table: Table, model: string) {
    && model !in table && !Shortened(table, model)
    && exists a, b :: LongestExtension(table, model, a) && LongestExtension(table, model, b) && table[a] != table[b]
  }

  /** With a longest extension visited first, the reverse pass returns it. */
  lemma {:induction false} FirstWins(order: seq<string>, model: string, key: string)
    requires order != [] && order[0] == key && Extends(key, model)
    requires forall i | 0 <= i < |order| :: Extends(order[i], model) ==> |order[i]| <= |key|
    ensures Scan(order, model, false) == key
  {
    if |order| == 1 {
      assert order[..0] == [];
    } else {
      FirstWins(order[..|order| - 1], model, key);
    }
  }

  lemma {:induction false} OrderFrom(table: Table) returns (order: seq<string>)
    ensures IsOrder(order, table)
    decreases |table|
  {
    if table == map[] {
      order := [];
    } else {
      var k :| k in table;
      var rest := table - {k};
      assert k in table.Keys && rest.Keys == table.Keys - {k};
      var tail := OrderFrom(rest);
      order := [k] + tail;
      assert forall x <- table :: x == k || x in rest;
    }
  }

  lemma OrderStartingWith(table: Table, key: string) returns (order: seq<string>)
    requires key in table
    ensures IsOrder(order, table) && order != [] && order[0] == key
  {
    var tail := OrderFrom(table - {key});
    order := [key] + tail;
    assert forall x <- table :: x == key || x in table - {key};
  }

  /** The price is independent of map iteration order exactly when the lookup does not
      fall through to the reverse pass with two longest candidates of different prices. */
  lemma OrderFreeIffUnambiguous(table: Table, model: string)
    ensures OrderFree(table, model) <==> !Ambiguous(table, model)
  {
    if Ambiguous(table, model) {
      var a, b :| LongestExtension(table, model, a) && LongestExtension(table, model, b) && table[a] != table[b];
      var fa := OrderStartingWith(table, a);
      var fb := OrderStartingWith(table, b);
      FirstWins(fa, model, a);
      FirstWins(fb, model, b);
      LookupFinds(table, fa, fa, model);
      ScanFinds(fa, model, true);
      ScanFinds(fb, model, true);
      assert LookupKey(table, fa, fa, model) == Some(a) && LookupKey(table, fb, fb, model) == Some(b);
      assert LookupPrice(table, fa, fa, model) != LookupPrice(table, fb, fb, model);
    } else {
      forall f, s, f', s' | IsOrder(f, table) && IsOrder(s, table) && IsOrder(f', table) && IsOrder(s', table)
        ensures LookupPrice(table, f, s, model) == LookupPrice(table, f', s', model)
      {
        LookupFinds(table, f, s, model);
        LookupFinds(table, f', s', model);
      }
    }
  }

  // ---------- tiers ----------

  predicate IsContext(t: Tier) { t.kind == "" || t.kind == "context" }

  predicate Applies(t: Tier, context: int) {
    IsContext(t) && context > t.size
  }

  /** Index of the tier Effective picks, or -1: the first with the largest threshold crossed. */
  function Picked(tiers: seq<Tier>, context: int): (i: int)
    ensures -1 <= i < |tiers|
    ensures i == -1 <==> forall j | 0 <= j < |tiers| :: IsContext(tiers[j]) ==> context <= tiers[j].size
    ensures i >= 0 ==> IsContext(tiers[i]) && tiers[i].size < context
    ensures i >= 0 ==> forall j | 0 <= j < |tiers| && IsContext(tiers[j]) && tiers[j].size < context ::
              tiers[j].size < tiers[i].size || (tiers[j].size == tiers[i].size && i <= j)
  {
    if tiers == [] then -1
    else
      var last := |tiers| - 1;
      var i := Picked(tiers[..last], context);
      if Applies(tiers[last], context) && (i == -1 || tiers[last].size > tiers[i].size) then last else i
  }

  datatype Rates = Rates(input: real, output: real, cacheRead: real, cacheWrite: real)

  /** Each rate the picked tier sets replaces the base's. */
  function Over(tier: real, base: real): real {
    if tier > 0.0 then tier else base
  }

  function EffectiveRates(p: Price, context: int): Rates {
    var i := Picked(p.tiers, context);
    if i == -1 then Rates(p.input, p.output, p.cacheRead, p.cacheWrite)
    else
      var t := p.tiers[i];
      Rates(Over(t.input, p.input), Over(t.output, p.output), Over(t.cacheRead, p.cacheRead), Over(t.cacheWrite, p.cacheWrite))
  }

  /** The loop of PricePerMTok.Effective. */
  method Pick(p: Price, context: int) returns (picked: Option<Tier>)
    ensures picked == (var k := Picked(p.tiers, context); if k == -1 then None else Some(p.tiers[k]))
  {
    picked := None;
    for i := 0 to |p.tiers|
      invariant picked == (var k := Picked(p.tiers[..i], context); if k == -1 then None else Some(p.tiers[k]))
    {
      assert p.tiers[..i + 1][..i] == p.tiers[..i];
      var t := p.tiers[i];
      if t.kind != "" && t.kind != "context" {
        continue;
      }
      if context > t.size {
        if picked.None? || t.size > picked.value.size {
          picked := Some(t);
        }
      }
    }
    assert p.tiers[..|p.tiers|] == p.tiers;
  }

  /** The base price with what the picked tier sets in its place. */
  method Effective(p: Price, context: int) returns (base: Price)
    ensures base == EffectivePrice(p, context)
  {
    base := p.(tiers := []);
    var picked := Pick(p, context);
    if picked.None? {
      return;
    }
    if picked.value.input > 0.0 { base := base.(input := picked.value.input); }
    if picked.value.output > 0.0 { base := base.(output := picked.value.output); }
    if picked.value.cacheRead > 0.0 { base := base.(cacheRead := picked.value.cacheRead); }
    if picked.value.cacheWrite > 0.0 { base := base.(cacheWrite := picked.value.cacheWrite); }
  }

  function EffectivePrice(p: Price, context: int): Price {
    var r := EffectiveRates(p, context);
    Price(r.input, r.output, r.cacheRead, r.cacheWrite, [])
  }

  function ContextSize(u: Usage): int {
    if u.contextTokens > 0 then u.contextTokens else u.input + u.cachedInput + u.cacheCreation
  }

  // ---------- cost ----------

  /** What each token category is billed at: unpriced cache rates fall back to input. */
  function BilledRates(p: Price, context: int): Rates {
    var r := EffectiveRates(p, context);
    r.(cacheRead := if r.cacheRead == 0.0 then r.input else r.cacheRead,
       cacheWrite := if r.cacheWrite == 0.0 then r.input else r.cacheWrite)
  }

  function Times(r: Rates, u: Usage): real {
    u.input as real / 1000000.0 * r.input
    + u.cachedInput as real / 1000000.0 * r.cacheRead
    + u.cacheCreation as real / 1000000.0 * r.cacheWrite
    + u.output as real / 1000000.0 * r.output
  }

  function Billed(p: Price, u: Usage): real {
    Times(BilledRates(p, ContextSize(u)), u)
  }

  predicate NonNegative(u: Usage) {
    u.input >= 0 && u.output >= 0 && u.cachedInput >= 0 && u.cacheCreation >= 0
  }

  predicate AtMost(u: Usage, v: Usage) {
    && u.input <= v.input && u.output <= v.output && u.cachedInput <= v.cachedInput
    && u.cacheCreation <= v.cacheCreation && u.contextTokens == v.contextTokens
  }

  predicate RatesAtMost(r: Rates, s: Rates) {
    r.input <= s.input && r.output <= s.output && r.cacheRead <= s.cacheRead && r.cacheWrite <= s.cacheWrite
  }

  predicate RatesNonNegative(r: Rates) {
    r.input >= 0.0 && r.output >= 0.0 && r.cacheRead >= 0.0 && r.cacheWrite >= 0.0
  }

  function TierRates(t: Tier): Rates { Rates(t.input, t.output, t.cacheRead, t.cacheWrite) }

  function BaseRates(p: Price): Rates { Rates(p.input, p.output, p.cacheRead, p.cacheWrite) }

  predicate AllSet(r: Rates) {
    r.input > 0.0 && r.output > 0.0 && r.cacheRead > 0.0 && r.cacheWrite > 0.0
  }

  /** Base and tiers set all four rates, and none falls as the threshold grows. */
  ghost predicate WellPriced(p: Price) {
    && AllSet(BaseRates(p))
    && (forall i | 0 <= i < |p.tiers| && IsContext(p.tiers[i]) ::
          AllSet(TierRates(p.tiers[i])) && RatesAtMost(BaseRates(p), TierRates(p.tiers[i])))
    && (forall i, j | 0 <= i < |p.tiers| && 0 <= j < |p.tiers| && IsContext(p.tiers[i]) && IsContext(p.tiers[j])
          && p.tiers[i].size <= p.tiers[j].size :: RatesAtMost(TierRates(p.tiers[i]), TierRates(p.tiers[j])))
  }

  lemma RatesGrow(p: Price, c: int, d: int)
    requires WellPriced(p) && c <= d
    ensures RatesAtMost(BilledRates(p, c), BilledRates(p, d)) && RatesNonNegative(BilledRates(p, c))
  {
    var i, j := Picked(p.tiers, c), Picked(p.tiers, d);
    if i >= 0 {
      assert Applies(p.tiers[i], d);
    }
  }

  lemma ProductGrows(a: int, b: int, r: real, s: real)
    requires 0 <= a <= b && 0.0 <= r <= s
    ensures a as real / 1000000.0 * r <= b as real / 1000000.0 * s
  {
    var x, y := a as real / 1000000.0, b as real / 1000000.0;
    assert x <= y;
    assert x * r <= y * r by { assert (y - x) * r >= 0.0; }
    assert y * r <= y * s by { assert y * (s - r) >= 0.0; }
  }

  lemma TimesGrows(r: Rates, s: Rates, u: Usage, v: Usage)
    requires NonNegative(u) && AtMost(u, v) && RatesNonNegative(r) && RatesAtMost(r, s)
    ensures Times(r, u) <= Times(s, v)
  {
    ProductGrows(u.input, v.input, r.input, s.input);
    ProductGrows(u.cachedInput, v.cachedInput, r.cacheRead, s.cacheRead);
    ProductGrows(u.cacheCreation, v.cacheCreation, r.cacheWrite, s.cacheWrite);
    ProductGrows(u.output, v.output, r.output, s.output);
  }

  /** Raising any token category never lowers the cost, also across tier thresholds. */
  lemma CostMonotone(p: Price, u: Usage, v: Usage)
    requires WellPriced(p) && NonNegative(u) && AtMost(u, v)
    ensures Billed(p, u) <= Billed(p, v)
  {
    RatesGrow(p, ContextSize(u), ContextSize(v));
    TimesGrows(BilledRates(p, ContextSize(u)), BilledRates(p, ContextSize(v)), u, v);
  }

  /** The condition on the rates is needed: wherever the output rate falls as the prompt
      grows, some longer request costs less than the shorter one it contains. */
  lemma FallingOutputRateBreaksMonotonicity(p: Price, c: nat, d: nat)
    requires c < d && BilledRates(p, d).output < BilledRates(p, c).output
    ensures exists u, v :: NonNegative(u) && AtMost(u, v) && Billed(p, v) < Billed(p, u)
  {
    hide BilledRates;
    var r, s := BilledRates(p, c), BilledRates(p, d);
    var drop, rise := r.output - s.output, d as real * s.input - c as real * r.input;
    var n := Exceeding(rise, drop);
    var u, v := Usage(c, n, 0, 0, 0), Usage(d, n, 0, 0, 0);
    assert ContextSize(u) == c && ContextSize(v) == d;
    var m := 1000000.0;
    TwoTerms(c, n, r);
    TwoTerms(d, n, s);
    hide Times;
    Scaled(c as real, n as real, d as real, r, s, m);
    assert Billed(p, v) < Billed(p, u);
  }

  lemma TwoTerms(input: nat, output: nat, r: Rates)
    ensures Times(r, Usage(input, output, 0, 0, 0)) ==
              input as real / 1000000.0 * r.input + output as real / 1000000.0 * r.output
  {
  }

  lemma Exceeding(rise: real, drop: real) returns (n: nat)
    requires drop > 0.0
    ensures n as real * drop > rise
  {
    var x := rise / drop;
    n := if x < 0.0 then 0 else x.Floor + 1;
    assert n as real > x || (n == 0 && x < 0.0);
    assert x * drop == rise;
    assert (n as real - x) * drop > 0.0;
  }

  lemma Scaled(c: real, n: real, d: real, r: Rates, s: Rates, m: real)
    requires m > 0.0 && n * (r.output - s.output) > d * s.input - c * r.input
    ensures d / m * s.input + n / m * s.output < c / m * r.input + n / m * r.output
  {
    var before, after := c * r.input + n * r.output, d * s.input + n * s.output;
    assert after < before;
    assert d / m * s.input + n / m * s.output == after / m;
    assert c / m * r.input + n / m * r.output == before / m;
  }
  // ---------- exactly when ----------

  /** The categories that make up the prompt. */
  datatype Category = Uncached | CacheRead | CacheWrite

  function Rate(r: Rates, x: Category): real {
    match x
    case Uncached => r.input
    case CacheRead => r.cacheRead
    case CacheWrite => r.cacheWrite
  }

  /** Tokens at a rate for a million, in millionths. */
  function By(tokens: int, rate: real): real {
    tokens as real * rate
  }

  /** A prompt of `c` tokens of category `x` that grows to `d` tokens by some of category `y`
      costs no less than before. */
  predicate GrowthPays(p: Price, c: nat, d: nat, x: Category, y: Category) {
    var r, s := BilledRates(p, c), BilledRates(p, d);
    By(c, Rate(r, x)) <= By(c, Rate(s, x)) + By(d - c, Rate(s, y))
  }

  /** No rate is negative, the output rate never falls, and the prompt's rates fall so little
      where a tier starts that the tokens it takes to get there make up for it. */
  ghost predicate RatesAllow(p: Price) {
    && (forall c: nat :: BilledRates(p, c).output >= 0.0)
    && (forall c: nat, x: Category | c > 0 :: Rate(BilledRates(p, c), x) >= 0.0)
    && (forall c: nat, d: nat | c < d :: BilledRates(p, c).output <= BilledRates(p, d).output)
    && (forall c: nat, d: nat, x: Category, y: Category | c < d :: GrowthPays(p, c, d, x, y))
  }

  ghost predicate NeverCheaper(p: Price) {
    forall u, v | NonNegative(u) && AtMost(u, v) :: Billed(p, u) <= Billed(p, v)
  }

  // Products, one at a time.

  lemma ByRates(n: int, low: real, high: real)
    requires n >= 0 && low <= high
    ensures By(n, low) <= By(n, high)
  {
    assert n as real * (high - low) >= 0.0;
  }

  lemma ByCounts(a: int, b: int, rate: real)
    requires a <= b && rate >= 0.0
    ensures By(a, rate) <= By(b, rate)
  {
    assert (b - a) as real * rate >= 0.0;
  }

  lemma BySum(a: int, b: int, rate: real)
    ensures By(a + b, rate) == By(a, rate) + By(b, rate)
  {
  }

  lemma ByFew(rate: real)
    ensures By(0, rate) == 0.0 && By(1, rate) == rate
  {
  }

  /** The share of `a` tokens among `c`. */
  function Share(a: nat, c: nat, x: real): real
    requires c > 0
  {
    a as real / c as real * x
  }

  lemma ShareOf(a: nat, c: nat, x: real, y: real)
    requires c > 0 && x <= y
    ensures Share(a, c, x) <= Share(a, c, y)
  {
    PartIsNonNegative(a as real, c as real);
    Scales(a as real / c as real, x, y);
  }

  lemma PartIsNonNegative(a: real, n: real)
    requires a >= 0.0 && n > 0.0
    ensures a / n >= 0.0
  {
  }

  lemma Scales(part: real, x: real, y: real)
    requires part >= 0.0 && x <= y
    ensures part * x <= part * y
  {
    assert part * (y - x) >= 0.0;
  }

  lemma ShareOfSum(a: nat, c: nat, x: real, y: real)
    requires c > 0
    ensures Share(a, c, x + y) == Share(a, c, x) + Share(a, c, y)
  {
  }

  lemma ShareOfTokens(a: nat, c: nat, rate: real)
    requires c > 0
    ensures Share(a, c, By(c, rate)) == By(a, rate)
  {
    PartOfWhole(a as real, c as real);
    Regrouped(a as real / c as real, c as real, rate);
  }

  lemma PartOfWhole(a: real, n: real)
    requires n > 0.0
    ensures a / n * n == a
  {
  }

  lemma Regrouped(a: real, b: real, x: real)
    ensures a * (b * x) == (a * b) * x
  {
  }

  lemma SharesAddUp(a: nat, b: nat, e: nat, c: nat, x: real)
    requires c > 0 && a + b + e == c
    ensures Share(a, c, x) + Share(b, c, x) + Share(e, c, x) == x
  {
    var n := c as real;
    Quotients(a as real, b as real, e as real, n);
    assert (a as real / n + b as real / n + e as real / n) * x == x;
  }

  lemma Quotients(a: real, b: real, e: real, n: real)
    requires a + b + e == n && n > 0.0
    ensures a / n + b / n + e / n == 1.0
  {
    assert a / n + b / n == (a + b) / n;
    assert (a + b) / n + e / n == (a + b + e) / n;
  }

  /** One category's share of the growth. */
  lemma ShareGrows(a: nat, c: nat, before: real, after: real, added: real)
    requires c > 0 && By(c, before) <= By(c, after) + added
    ensures By(a, before) <= By(a, after) + Share(a, c, added)
  {
    hide By, Share;
    ShareOf(a, c, By(c, before), By(c, after) + added);
    ShareOfSum(a, c, By(c, after), added);
    ShareOfTokens(a, c, before);
    ShareOfTokens(a, c, after);
  }

  // The prompt, and the whole bill.

  function Worth(r: Rates, u: Usage): real {
    By(u.input, r.input) + By(u.cachedInput, r.cacheRead) + By(u.cacheCreation, r.cacheWrite)
  }

  function InMillions(x: real): real {
    x / 1000000.0
  }

  lemma InMillionsKeeps(x: real, y: real)
    ensures InMillions(x) <= InMillions(y) <==> x <= y
  {
  }

  lemma BillIs(r: Rates, u: Usage)
    ensures Times(r, u) == InMillions(Worth(r, u) + By(u.output, r.output))
  {
    Divided(u.input, r.input);
    Divided(u.cachedInput, r.cacheRead);
    Divided(u.cacheCreation, r.cacheWrite);
    Divided(u.output, r.output);
    hide By;
  }

  lemma Divided(tokens: int, rate: real)
    ensures tokens as real / 1000000.0 * rate == InMillions(By(tokens, rate))
  {
  }

  lemma WorthGrows(r: Rates, s: Rates, u: Usage, c: nat, added: real)
    requires NonNegative(u) && c == u.input + u.cachedInput + u.cacheCreation && added >= 0.0
    requires forall x :: By(c, Rate(r, x)) <= By(c, Rate(s, x)) + added
    ensures Worth(r, u) <= Worth(s, u) + added
  {
    assert By(c, Rate(r, Uncached)) <= By(c, Rate(s, Uncached)) + added;
    assert By(c, Rate(r, CacheRead)) <= By(c, Rate(s, CacheRead)) + added;
    assert By(c, Rate(r, CacheWrite)) <= By(c, Rate(s, CacheWrite)) + added;
    hide By, Share;
    if c > 0 {
      ShareGrows(u.input, c, r.input, s.input, added);
      ShareGrows(u.cachedInput, c, r.cacheRead, s.cacheRead, added);
      ShareGrows(u.cacheCreation, c, r.cacheWrite, s.cacheWrite, added);
      SharesAddUp(u.input, u.cachedInput, u.cacheCreation, c, added);
    } else {
      NothingWorth(r, u);
      NothingWorth(s, u);
    }
  }

  lemma NothingWorth(r: Rates, u: Usage)
    requires u.input == u.cachedInput == u.cacheCreation == 0
    ensures Worth(r, u) == 0.0
  {
    ByFew(r.input);
    ByFew(r.cacheRead);
    ByFew(r.cacheWrite);
    hide By;
  }

  /** The old tokens at the new rates, and the new tokens at any of them, are worth no less
      than the old tokens were. */
  lemma OldTokensPay(p: Price, u: Usage, c: nat, d: nat, y: Category)
    requires RatesAllow(p) && NonNegative(u) && c == u.input + u.cachedInput + u.cacheCreation && c < d
    ensures Worth(BilledRates(p, c), u) <= Worth(BilledRates(p, d), u) + By(d - c, Rate(BilledRates(p, d), y))
  {
    var r, s := BilledRates(p, c), BilledRates(p, d);
    assert Rate(s, y) >= 0.0;
    hide BilledRates, By, Rate, Worth;
    forall x ensures By(c, Rate(r, x)) <= By(c, Rate(s, x)) + By(d - c, Rate(s, y)) {
      assert GrowthPays(p, c, d, x, y);
    }
    ByRates(d - c, 0.0, Rate(s, y));
    NoRate(d - c);
    WorthGrows(r, s, u, c, By(d - c, Rate(s, y)));
  }

  lemma NoRate(n: int)
    ensures By(n, 0.0) == 0.0
  {
  }

  /** What is added to one category is worth at least as much at a lower rate. */
  lemma AddedPays(a: int, b: int, low: real, rate: real)
    requires a <= b && low <= rate
    ensures By(a, rate) + By(b - a, low) <= By(b, rate)
  {
    hide By;
    ByRates(b - a, low, rate);
    BySum(a, b - a, rate);
  }

  lemma NewTokensPay(u: Usage, v: Usage, s: Rates, c: nat, d: nat, y: Category)
    requires AtMost(u, v) && forall x :: Rate(s, y) <= Rate(s, x)
    requires c == u.input + u.cachedInput + u.cacheCreation && d == v.input + v.cachedInput + v.cacheCreation
    ensures Worth(s, u) + By(d - c, Rate(s, y)) <= Worth(s, v)
  {
    var low := Rate(s, y);
    assert low <= Rate(s, Uncached) && low <= Rate(s, CacheRead) && low <= Rate(s, CacheWrite);
    hide By;
    AddedPays(u.input, v.input, low, s.input);
    AddedPays(u.cachedInput, v.cachedInput, low, s.cacheRead);
    AddedPays(u.cacheCreation, v.cacheCreation, low, s.cacheWrite);
    BySum(v.input - u.input, v.cachedInput - u.cachedInput, low);
    BySum(v.input - u.input + (v.cachedInput - u.cachedInput), v.cacheCreation - u.cacheCreation, low);
    assert d - c == v.input - u.input + (v.cachedInput - u.cachedInput) + (v.cacheCreation - u.cacheCreation);
  }

  lemma BillGrows(r: Rates, s: Rates, u: Usage, v: Usage)
    requires Worth(r, u) <= Worth(s, v) && 0 <= u.output <= v.output && 0.0 <= r.output <= s.output
    ensures Times(r, u) <= Times(s, v)
  {
    hide *;
    ByRates(u.output, r.output, s.output);
    ByCounts(u.output, v.output, s.output);
    BillIs(r, u);
    BillIs(s, v);
    InMillionsKeeps(Worth(r, u) + By(u.output, r.output), Worth(s, v) + By(v.output, s.output));
  }

  lemma CheapestOf(r: Rates) returns (y: Category)
    ensures forall x :: Rate(r, y) <= Rate(r, x)
  {
    y := if r.input <= r.cacheRead && r.input <= r.cacheWrite then Uncached
         else if r.cacheRead <= r.cacheWrite then CacheRead else CacheWrite;
  }

  lemma GrowingPromptPays(p: Price, u: Usage, v: Usage)
    requires RatesAllow(p) && NonNegative(u) && AtMost(u, v) && ContextSize(u) < ContextSize(v)
    ensures Billed(p, u) <= Billed(p, v)
  {
    var c, d := ContextSize(u), ContextSize(v);
    var r, s := BilledRates(p, c), BilledRates(p, d);
    assert r.output <= s.output && r.output >= 0.0;
    assert 0 <= u.output <= v.output;
    hide BilledRates, By, Rate, Worth, RatesAllow, Times;
    var y := CheapestOf(s);
    OldTokensPay(p, u, c, d, y);
    NewTokensPay(u, v, s, c, d, y);
    BillGrows(r, s, u, v);
  }

  lemma SameContextPays(p: Price, u: Usage, v: Usage)
    requires RatesAllow(p) && NonNegative(u) && AtMost(u, v) && ContextSize(u) == ContextSize(v)
    ensures Billed(p, u) <= Billed(p, v)
  {
    var c := ContextSize(u);
    var r := BilledRates(p, c);
    assert r.output >= 0.0;
    assert c > 0 ==> Rate(r, Uncached) >= 0.0 && Rate(r, CacheRead) >= 0.0 && Rate(r, CacheWrite) >= 0.0;
    hide BilledRates, By, RatesAllow, Times;
    if c > 0 {
      ByCounts(u.input, v.input, r.input);
      ByCounts(u.cachedInput, v.cachedInput, r.cacheRead);
      ByCounts(u.cacheCreation, v.cacheCreation, r.cacheWrite);
    }
    BillGrows(r, r, u, v);
  }

  // The other way, one condition after another.

  /** `a` tokens of one category and `b` of another, or of the same. */
  function Prompt(x: Category, a: nat, y: Category, b: nat, contextTokens: int): Usage {
    Usage((if x.Uncached? then a else 0) + (if y.Uncached? then b else 0), 0,
          (if x.CacheRead? then a else 0) + (if y.CacheRead? then b else 0),
          (if x.CacheWrite? then a else 0) + (if y.CacheWrite? then b else 0), contextTokens)
  }

  lemma PromptIs(r: Rates, x: Category, a: nat, y: Category, b: nat, contextTokens: int)
    ensures Times(r, Prompt(x, a, y, b, contextTokens)) == InMillions(By(a, Rate(r, x)) + By(b, Rate(r, y)))
  {
    var u := Prompt(x, a, y, b, contextTokens);
    BillIs(r, u);
    BySum(a, b, Rate(r, x));
    ByFew(r.input);
    ByFew(r.cacheRead);
    ByFew(r.cacheWrite);
    ByFew(r.output);
    hide By, Times, InMillions;
  }

  lemma PromptGrows(x: Category, a: nat, e: nat, y: Category, b: nat, contextTokens: int)
    requires a <= e
    ensures var u, v := Prompt(x, a, y, 0, contextTokens), Prompt(x, e, y, b, contextTokens);
            && NonNegative(u) && AtMost(u, v)
            && (contextTokens <= 0 ==> ContextSize(u) == a && ContextSize(v) == e + b)
            && (contextTokens > 0 ==> ContextSize(u) == ContextSize(v) == contextTokens)
  {
  }

  lemma Compared(p: Price, u: Usage, v: Usage)
    requires NeverCheaper(p) && NonNegative(u) && AtMost(u, v)
    ensures Times(BilledRates(p, ContextSize(u)), u) <= Times(BilledRates(p, ContextSize(v)), v)
  {
    hide BilledRates, Times, ContextSize, NonNegative, AtMost;
    assert Billed(p, u) <= Billed(p, v);
  }

  lemma GrowthMustPay(p: Price, c: nat, d: nat, x: Category, y: Category)
    requires NeverCheaper(p) && c < d
    ensures GrowthPays(p, c, d, x, y)
  {
    var r, s := BilledRates(p, c), BilledRates(p, d);
    hide BilledRates, Times, Rate, By, NeverCheaper, Prompt, ContextSize, NonNegative, AtMost, InMillions;
    PromptGrows(x, c, c, y, d - c, 0);
    Compared(p, Prompt(x, c, y, 0, 0), Prompt(x, c, y, d - c, 0));
    PromptIs(r, x, c, y, 0, 0);
    PromptIs(s, x, c, y, d - c, 0);
    ByFew(Rate(r, y));
    InMillionsKeeps(By(c, Rate(r, x)) + By(0, Rate(r, y)), By(c, Rate(s, x)) + By(d - c, Rate(s, y)));
  }

  lemma RateMustPay(p: Price, c: nat, x: Category)
    requires NeverCheaper(p) && c > 0
    ensures Rate(BilledRates(p, c), x) >= 0.0
  {
    var r := BilledRates(p, c);
    hide *;
    PromptGrows(x, 0, 1, x, 0, c);
    Compared(p, Prompt(x, 0, x, 0, c), Prompt(x, 1, x, 0, c));
    PromptIs(r, x, 0, x, 0, c);
    PromptIs(r, x, 1, x, 0, c);
    ByFew(Rate(r, x));
    InMillionsKeeps(By(0, Rate(r, x)) + By(0, Rate(r, x)), By(1, Rate(r, x)) + By(0, Rate(r, x)));
  }

  lemma OutputMustPay(p: Price, c: nat)
    requires NeverCheaper(p)
    ensures BilledRates(p, c).output >= 0.0
  {
    var r, u, v := BilledRates(p, c), Usage(c, 0, 0, 0, 0), Usage(c, 1, 0, 0, 0);
    assert NonNegative(u) && AtMost(u, v) && ContextSize(u) == ContextSize(v) == c;
    assert Worth(r, u) == Worth(r, v);
    hide *;
    Compared(p, u, v);
    BillIs(r, u);
    BillIs(r, v);
    ByFew(r.output);
    InMillionsKeeps(Worth(r, u) + By(u.output, r.output), Worth(r, v) + By(v.output, r.output));
  }

  /** Exactly which prices never make a larger request cheaper. */
  lemma NeverCheaperIffRatesAllow(p: Price)
    ensures NeverCheaper(p) <==> RatesAllow(p)
  {
    hide Billed, BilledRates, GrowthPays, Rate;
    if NeverCheaper(p) {
      forall c: nat ensures BilledRates(p, c).output >= 0.0 {
        OutputMustPay(p, c);
      }
      forall c: nat, x: Category | c > 0 ensures Rate(BilledRates(p, c), x) >= 0.0 {
        RateMustPay(p, c, x);
      }
      forall c: nat, d: nat | c < d ensures BilledRates(p, c).output <= BilledRates(p, d).output {
        if BilledRates(p, d).output < BilledRates(p, c).output {
          FallingOutputRateBreaksMonotonicity(p, c, d);
        }
      }
      forall c: nat, d: nat, x: Category, y: Category | c < d ensures GrowthPays(p, c, d, x, y) {
        GrowthMustPay(p, c, d, x, y);
      }
    }
    if RatesAllow(p) {
      forall u, v | NonNegative(u) && AtMost(u, v) ensures Billed(p, u) <= Billed(p, v) {
        ContextGrows(u, v);
        if ContextSize(u) == ContextSize(v) {
          SameContextPays(p, u, v);
        } else {
          GrowingPromptPays(p, u, v);
        }
      }
    }
  }

  lemma ContextGrows(u: Usage, v: Usage)
    requires AtMost(u, v)
    ensures ContextSize(u) <= ContextSize(v)
  {
  }
  // ---------- what a token costs ----------

  datatype Kind = InputToken | OutputToken | CacheReadToken | CacheWriteToken

  function Plus(u: Usage, kind: Kind, n: int): Usage {
    match kind
    case InputToken => u.(input := u.input + n)
    case OutputToken => u.(output := u.output + n)
    case CacheReadToken => u.(cachedInput := u.cachedInput + n)
    case CacheWriteToken => u.(cacheCreation := u.cacheCreation + n)
  }

  /** What a million tokens cost, from the fields of the price: the rate that the tier which
      counts sets, else the base rate; and a cache rate that is set nowhere is the input's. */
  function MillionCosts(p: Price, context: int, kind: Kind): real
    decreases kind.CacheReadToken? || kind.CacheWriteToken?
  {
    var i := Picked(p.tiers, context);
    match kind
    case InputToken => if i >= 0 && p.tiers[i].input > 0.0 then p.tiers[i].input else p.input
    case OutputToken => if i >= 0 && p.tiers[i].output > 0.0 then p.tiers[i].output else p.output
    case CacheReadToken =>
      if i >= 0 && p.tiers[i].cacheRead > 0.0 then p.tiers[i].cacheRead
      else if p.cacheRead != 0.0 then p.cacheRead
      else MillionCosts(p, context, InputToken)
    case CacheWriteToken =>
      if i >= 0 && p.tiers[i].cacheWrite > 0.0 then p.tiers[i].cacheWrite
      else if p.cacheWrite != 0.0 then p.cacheWrite
      else MillionCosts(p, context, InputToken)
  }

  lemma RatesAre(p: Price, context: int)
    ensures BilledRates(p, context) ==
            Rates(MillionCosts(p, context, InputToken), MillionCosts(p, context, OutputToken),
                  MillionCosts(p, context, CacheReadToken), MillionCosts(p, context, CacheWriteToken))
  {
  }

  lemma PlusTimes(r: Rates, u: Usage, kind: Kind, n: int)
    ensures Times(r, Plus(u, kind, n)) ==
            Times(r, u) + InMillions(By(n, match kind case InputToken => r.input case OutputToken => r.output
                                                      case CacheReadToken => r.cacheRead case CacheWriteToken => r.cacheWrite))
  {
    var v := Plus(u, kind, n);
    BillIs(r, u);
    BillIs(r, v);
    match kind
    case InputToken => BySum(u.input, n, r.input);
    case OutputToken => BySum(u.output, n, r.output);
    case CacheReadToken => BySum(u.cachedInput, n, r.cacheRead);
    case CacheWriteToken => BySum(u.cacheCreation, n, r.cacheWrite);
    hide By, Times;
  }

  /** At one prompt size, `n` more tokens of a kind cost what the price says of that kind. */
  lemma MoreTokensCost(p: Price, u: Usage, kind: Kind, n: int)
    requires ContextSize(Plus(u, kind, n)) == ContextSize(u)
    ensures Billed(p, Plus(u, kind, n)) ==
            Billed(p, u) + n as real * MillionCosts(p, ContextSize(u), kind) / 1000000.0
  {
    var c := ContextSize(u);
    RatesAre(p, c);
    PlusTimes(BilledRates(p, c), u, kind, n);
    hide BilledRates, MillionCosts, Times, Plus;
  }

  lemma NoTokensCostNothing(p: Price, contextTokens: int)
    ensures Billed(p, Usage(0, 0, 0, 0, contextTokens)) == 0.0
  {
    var u := Usage(0, 0, 0, 0, contextTokens);
    var r := BilledRates(p, ContextSize(u));
    BillIs(r, u);
    NothingWorth(r, u);
    ByFew(r.output);
    hide BilledRates, By, Worth, Times;
  }

  /** Where a cache rate is set nowhere, it makes no difference which prompt tokens came from,
      or went to, the cache. */
  lemma UnpricedCacheIsInput(p: Price, u: Usage, kind: Kind, n: int)
    requires kind.CacheReadToken? ==> p.cacheRead == 0.0 && forall i | 0 <= i < |p.tiers| :: p.tiers[i].cacheRead <= 0.0
    requires kind.CacheWriteToken? ==> p.cacheWrite == 0.0 && forall i | 0 <= i < |p.tiers| :: p.tiers[i].cacheWrite <= 0.0
    requires !kind.OutputToken?
    ensures Billed(p, Plus(Plus(u, kind, n), InputToken, -n)) == Billed(p, u)
  {
    var v := Plus(u, kind, n);
    var w := Plus(v, InputToken, -n);
    var c := ContextSize(u);
    assert ContextSize(w) == c;
    RatesAre(p, c);
    var r := BilledRates(p, c);
    PlusTimes(r, u, kind, n);
    PlusTimes(r, v, InputToken, -n);
    BySum(n, -n, r.input);
    ByFew(r.input);
    assert By(n, r.input) + By(-n, r.input) == 0.0;
    assert kind.CacheReadToken? ==> r.cacheRead == r.input;
    assert kind.CacheWriteToken? ==> r.cacheWrite == r.input;
    assert Billed(p, w) == Times(r, w) && Billed(p, u) == Times(r, u);
    hide BilledRates, MillionCosts, Times, By, Plus, Billed;
  }
}
