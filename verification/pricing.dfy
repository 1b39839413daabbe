/** The fixed price table both cost widgets carry, in exact integer money.
    A money amount is a count of units of 10^-8 dollars, so every price
    (15, 75, 1.50 and 18.75 dollars per million tokens) is a whole number
    of units per token and every total is exact. */
module Pricing {

  /** Units of money in one dollar. */
  const UnitsPerDollar: nat := 100_000_000

  /** Per-token prices, in units. */
  const InputPrice: nat := 1500
  const OutputPrice: nat := 7500
  const CacheReadPrice: nat := 150
  const CacheCreatePrice: nat := 1875

  /** The dollar amount a count of units stands for. */
  function Dollars(units: nat): real {
    units as real / UnitsPerDollar as real
  }

  /** Each unit price is the dollars-per-million-tokens price of the table,
      divided by one million. */
  lemma PricesAreDollarsPerMillion()
    ensures Dollars(InputPrice) == 15.00 / 1_000_000.0
    ensures Dollars(OutputPrice) == 75.00 / 1_000_000.0
    ensures Dollars(CacheReadPrice) == 1.50 / 1_000_000.0
    ensures Dollars(CacheCreatePrice) == 18.75 / 1_000_000.0
  {
  }
}
