/** The calculated cost widget: the current session's token metrics,
    priced with three terms (every cached token at the cache-read price)
    and shown with the shared cost format. */
module CalculatedCost {
  import opened Wrappers
  import opened Pricing
  import opened CostFormat
  import DailyCost

  /** The token counts the render context carries for the session. */
  datatype TokenMetrics = TokenMetrics(inputTokens: nat, outputTokens: nat, cachedTokens: nat)

  /** The session's cost in units: input, output and cached tokens, the
      cached ones all at the cache-read price. */
  function CalculatedCostUnits(m: TokenMetrics): (r: nat)
    ensures Dollars(r) == m.inputTokens as real * (15.00 / 1_000_000.0)
                        + m.outputTokens as real * (75.00 / 1_000_000.0)
                        + m.cachedTokens as real * (1.50 / 1_000_000.0)
  {
    m.inputTokens * InputPrice + m.outputTokens * OutputPrice + m.cachedTokens * CacheReadPrice
  }

  /** Pricing cached tokens as reads is the daily widget's four-term cost
      with every cached token a cache read and none a cache creation. */
  lemma CachedPricedAsReads(m: TokenMetrics)
    ensures CalculatedCostUnits(m)
         == DailyCost.DailyCostUnits(DailyCost.Usage(m.inputTokens, m.outputTokens, m.cachedTokens, 0))
  {
  }

  /** However the cached tokens really split into reads and creations, the
      three-term cost never exceeds the four-term one, and equals it exactly
      when none were creations. */
  lemma CachedSplitBound(m: TokenMetrics, cacheReads: nat, creations: nat)
    requires cacheReads + creations == m.cachedTokens
    ensures CalculatedCostUnits(m)
         <= DailyCost.DailyCostUnits(DailyCost.Usage(m.inputTokens, m.outputTokens, cacheReads, creations))
    ensures CalculatedCostUnits(m)
         == DailyCost.DailyCostUnits(DailyCost.Usage(m.inputTokens, m.outputTokens, cacheReads, creations))
         <==> creations == 0
  {
  }

  /** More tokens of any kind never lower the cost. */
  lemma CalculatedCostMonotone(a: TokenMetrics, b: TokenMetrics)
    requires a.inputTokens <= b.inputTokens && a.outputTokens <= b.outputTokens && a.cachedTokens <= b.cachedTokens
    ensures CalculatedCostUnits(a) <= CalculatedCostUnits(b)
  {
  }

  /** The widget's text: a fixed placeholder in preview mode; no text at
      all when the context has no token metrics; otherwise the session's
      cost formatted, bare or after "Cost: $". */
  function Render(isPreview: bool, rawValue: bool, tokenMetrics: Option<TokenMetrics>): (r: Option<string>)
    ensures isPreview ==> r == Some(if rawValue then "3" else "Cost: $3")
    ensures !isPreview ==> (r.None? <==> tokenMetrics.None?)
    ensures !isPreview && tokenMetrics.Some? ==>
      var formatted := FormatCost(CalculatedCostUnits(tokenMetrics.value));
      r == Some(if rawValue then formatted else "Cost: $" + formatted)
  {
    assert "Cost: $" + "3" == "Cost: $3";
    if isPreview then Some(Present(rawValue, "Cost: $", "3"))
    else match tokenMetrics
      case None => None
      case Some(m) => Some(Present(rawValue, "Cost: $", FormatCost(CalculatedCostUnits(m))))
  }

  /** Preview output does not look at the metrics. */
  lemma PreviewIgnoresMetrics(rawValue: bool, m1: Option<TokenMetrics>, m2: Option<TokenMetrics>)
    ensures Render(true, rawValue, m1) == Render(true, rawValue, m2)
  {
  }

  /** Missing metrics are told apart from a session that used no tokens. */
  lemma MissingMetricsIsNotZero(rawValue: bool)
    ensures Render(false, rawValue, None) == None
    ensures Render(false, rawValue, Some(TokenMetrics(0, 0, 0))) == Some(if rawValue then "<0.01" else "Cost: $<0.01")
  {
    assert "Cost: $" + "<0.01" == "Cost: $<0.01";
  }

  /** The prices pin these examples: a million input tokens cost exactly
      15 dollars, as do 200,000 output tokens, and both show as "15". */
  lemma FifteenDollarExamples()
    ensures Dollars(CalculatedCostUnits(TokenMetrics(1_000_000, 0, 0))) == 15.0
    ensures Dollars(CalculatedCostUnits(TokenMetrics(0, 200_000, 0))) == 15.0
    ensures Render(false, true, Some(TokenMetrics(1_000_000, 0, 0))) == Some("15")
    ensures Render(false, false, Some(TokenMetrics(0, 200_000, 0))) == Some("Cost: $15")
  {
    FormatFifteenDollars();
    assert "Cost: $" + "15" == "Cost: $15";
  }
}
