/** The magnitude-dependent rule that turns a cost into display text, and
    the raw-or-labelled choice both widgets make with that text. */
module CostFormat {
  import opened Decimal
  import opened Pricing

  /** The text shown for a cost of `units`:
      below one cent "<0.01"; below one dollar two fractional digits;
      below ten dollars one fractional digit; otherwise whole dollars.
      The band is chosen from the unrounded amount. */
  function FormatCost(units: nat): (r: string)
    ensures r == "<0.01" <==> Dollars(units) < 0.01
    ensures 0.01 <= Dollars(units) < 1.0 ==>
      var cents := RoundHalfUp(units, 1_000_000); DenotesFixed(r, cents / 100, cents % 100, 2)
    ensures 1.0 <= Dollars(units) < 10.0 ==>
      var dimes := RoundHalfUp(units, 10_000_000); DenotesFixed(r, dimes / 10, dimes % 10, 1)
    ensures 10.0 <= Dollars(units) ==> IsNumeral(r) && DigitsValue(r) == RoundHalfUp(units, UnitsPerDollar)
  {
    if units < 1_000_000 then "<0.01"
    else if units < 100_000_000 then
      var cents := RoundHalfUp(units, 1_000_000);
      assert Pow10(2) == 100 by { assert Pow10(1) == 10; }
      Fixed(cents / 100, cents % 100, 2)
    else if units < 1_000_000_000 then
      var dimes := RoundHalfUp(units, 10_000_000);
      assert Pow10(1) == 10;
      Fixed(dimes / 10, dimes % 10, 1)
    else NatToDecimal(RoundHalfUp(units, UnitsPerDollar))
  }

  /** The widget's output: the bare value in raw mode, else caption and value. */
  function Present(rawValue: bool, caption: string, formatted: string): (r: string)
    ensures rawValue ==> r == formatted
    ensures !rawValue ==> |r| == |caption| + |formatted| && r[..|caption|] == caption && r[|caption|..] == formatted
  {
    if rawValue then formatted else caption + formatted
  }

  /** Below a cent, including zero, the text is "<0.01"; a cent exactly is "0.01". */
  lemma FormatCentEdge()
    ensures FormatCost(0) == "<0.01"
    ensures FormatCost(999_999) == "<0.01"
    ensures FormatCost(1_000_000) == "0.01"
  {
    assert Pow10(2) == 100 by { assert Pow10(1) == 10; }
    assert RoundHalfUp(1_000_000, 1_000_000) == 1;
    assert Fixed(0, 1, 2) == "0.01" by {
      assert Pad(1, 2) == "01" by { assert Pad(0, 1) == "0"; }
      assert NatToDecimal(0) == "0";
    }
  }

  /** Two fractional digits below a dollar: half a dollar is "0.50". */
  lemma FormatHalfDollar()
    ensures FormatCost(50_000_000) == "0.50"
  {
    assert Pow10(2) == 100 by { assert Pow10(1) == 10; }
    assert RoundHalfUp(50_000_000, 1_000_000) == 50;
    assert Pad(50, 2) == "50" by { assert Pad(5, 1) == "5"; }
    assert NatToDecimal(0) == "0";
  }

  /** 99.5 cents rounds up to "1.00" while staying in the two-digit band. */
  lemma FormatCentsRoundUp()
    ensures FormatCost(99_500_000) == "1.00"
  {
    assert Pow10(2) == 100 by { assert Pow10(1) == 10; }
    assert RoundHalfUp(99_500_000, 1_000_000) == 100;
    assert Pad(0, 2) == "00" by { assert Pad(0, 1) == "0"; }
    assert NatToDecimal(1) == "1";
  }

  /** One fractional digit below ten dollars: 3.50 is "3.5", and 9.95
      rounds up to "10.0" while staying in the one-digit band. */
  lemma FormatDimesBand()
    ensures FormatCost(350_000_000) == "3.5"
    ensures FormatCost(995_000_000) == "10.0"
  {
    assert Pow10(1) == 10;
    assert NatToDecimal(10) == "10" by { assert NatToDecimal(1) == "1"; }
  }

  /** Whole dollars from ten up, halves rounding up: 10.00 is "10", 10.50 is "11". */
  lemma FormatDollarsBand()
    ensures FormatCost(1_000_000_000) == "10"
    ensures FormatCost(1_050_000_000) == "11"
  {
    assert NatToDecimal(10) == "10" by { assert NatToDecimal(1) == "1"; }
    assert NatToDecimal(11) == "11" by { assert NatToDecimal(1) == "1"; }
  }

  /** Fifteen dollars exactly shows as "15". */
  lemma FormatFifteenDollars()
    ensures FormatCost(1_500_000_000) == "15"
  {
    assert NatToDecimal(15) == "15" by {
      assert NatToDecimal(1) == "1";
    }
  }
}
