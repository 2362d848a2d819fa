/** The token normalisation that the OpenAI and Gemini parsers share. */
module PromptTokens {
  import opened TraceEvent
  import Pricing

  function Max(a: int, b: int): int { if a >= b then a else b }

  /** Both providers report a prompt count that includes the cached part. */
  function Uncached(prompt: int, cached: int): int { Max(prompt - cached, 0) }

  /** What the collector hands to pricing.Cost for an event. */
  function BilledUsage(ev: Fields): Pricing.Usage {
    Pricing.Usage(ev.input, ev.output, ev.cached, ev.cacheCreation, 0)
  }

  /** The categories add up to the full prompt again, so that the price tier is chosen on
      the whole prompt, exactly when the cached part does not exceed it. */
  lemma TierSeesWholePrompt(ev: Fields, prompt: int, cached: int)
    requires ev.input == Uncached(prompt, cached) && ev.cached == cached && ev.cacheCreation == 0
    ensures Pricing.ContextSize(BilledUsage(ev)) == prompt <==> cached <= prompt
    ensures Pricing.ContextSize(BilledUsage(ev)) == Max(prompt, cached)
  {
  }

  /** What an event costs: each of its four counts at what the price says of that kind of
      token for a prompt of all but the output. */
  lemma EventCosts(p: Pricing.Price, ev: Fields)
    ensures var c := ev.input + ev.cached + ev.cacheCreation;
            Pricing.Billed(p, BilledUsage(ev)) ==
              (ev.input as real * Pricing.MillionCosts(p, c, Pricing.InputToken) +
               ev.cached as real * Pricing.MillionCosts(p, c, Pricing.CacheReadToken) +
               ev.cacheCreation as real * Pricing.MillionCosts(p, c, Pricing.CacheWriteToken) +
               ev.output as real * Pricing.MillionCosts(p, c, Pricing.OutputToken)) / 1000000.0
  {
    var u := BilledUsage(ev);
    var r := Pricing.BilledRates(p, Pricing.ContextSize(u));
    Pricing.RatesAre(p, Pricing.ContextSize(u));
    Pricing.BillIs(r, u);
    hide Pricing.BilledRates, Pricing.MillionCosts, Pricing.Times;
  }
}
