# Cost widgets of ccstatusline, modelled in Dafny

ccstatusline draws a terminal status line for coding-assistant sessions out of widgets.
This project models the two widgets that estimate spending in dollars:

- **Daily Cost** (`src/widgets/DailyCost.ts`). It scans every transcript
  file under the projects directory. It adds up the token usage of every
  record stamped since local midnight. It prices that usage with a fixed
  four-term table and shows the result as `Daily: $<amount>`.
- **Calculated Cost** (`src/widgets/CalculatedCost.ts`). It prices the
  current session's token metrics with three terms, treating every cached
  token as a cache read. It shows the result as `Cost: $<amount>`. When the
  context has no metrics it shows nothing.

Both widgets format the amount with the same four-band rule: `<0.01` below
one cent, two decimals below one dollar, one decimal below ten dollars, and
whole dollars from ten up. In raw-value mode both show the bare amount
without the caption. In preview mode both show a fixed placeholder.

Every price is a whole number of 10^-8 dollars per token: 15, 75, 1.50 and
18.75 dollars per million tokens are 1500, 7500, 150 and 1875 units. The
model therefore keeps money as an exact natural number of units (`Pricing`).
The band thresholds become 10^6, 10^8 and 10^9 units. `toFixed` and
`Math.round` become exact round-half-up on those units (`Decimal`).

Modules:

- `Wrappers`: the `Option` type.
- `Decimal`: numerals, zero-padding, fixed-point strings and round-half-up.
- `Pricing`: the price table and the unit of money.
- `CostFormat`: the four-band format and the raw-or-captioned output that both widgets share.
- `DailyCost`: transcript records, the day's totals as a fold, and the scanning loop of `getDailyTokens`, proved equal to that fold. It also holds pricing, `render`, and the fallback defect described under Findings.
- `CalculatedCost`: token metrics, the three-term price, and `render`.

The scanning loop of `getDailyTokens` is imperative: four counters grow
line by line inside nested loops over files and lines. It is modelled by
`DailyCost.GetDailyTokens`, a method with those loops and counters. The
rest of both widgets is straight-line code and is modelled as functions.

The day's totals are specified by a reference fold in `DailyCost`, which
carries no contract of its own; the lemmas in the table below state its
properties:

- `BeforeCutoff` is the cutoff test (`src/widgets/DailyCost.ts:74-79`).
- `UsageOf` is the field defaults, absent counting as zero (`src/widgets/DailyCost.ts:83-86`).
- `LineUsage` is the per-record rule (`src/widgets/DailyCost.ts:73-87`).
- `LinesTotal` sums the lines (`src/widgets/DailyCost.ts:69-91`).
- `ReadableLines` is the file loop that skips unreadable files (`src/widgets/DailyCost.ts:64-95`).
- `DailyTokens` is the whole scan (`src/widgets/DailyCost.ts:58-97`), with an unavailable directory giving zero usage.

`IgnoredLine`, `CountedLine`, `LinesTotalPermutation`, `FileOrderIrrelevant`
and `UnreadableFileIgnored` state what these definitions promise, and
`GetDailyTokens` is proved equal to `DailyTokens`.

The two widgets share one formatter, `CostFormat.FormatCost`. The sources
repeat the same band chain with the same thresholds in both files, so one
definition models both copies.

## Model

| member | source | states |
|---|---|---|
| `Pricing.PricesAreDollarsPerMillion` | src/widgets/DailyCost.ts:14-19 | each unit price is exactly the table's dollars-per-million price (15.00, 75.00, 1.50, 18.75) divided by one million |
| `Decimal.NatToDecimal` | src/widgets/DailyCost.ts:127 | the whole-number text `toString` prints is a canonical numeral (digits only, no leading zero) whose value is the number |
| `Decimal.Pad` | src/widgets/DailyCost.ts:123 | the fractional digits `toFixed` prints: exactly k digits denoting the value, zero-padded |
| `Decimal.Fixed` | src/widgets/DailyCost.ts:123-125 | a `toFixed(k)` result: a canonical whole part, a '.', then exactly k digits, with the given whole and fractional values |
| `Decimal.RoundHalfUp` | src/widgets/DailyCost.ts:123-127 | the rounded quotient lies within half a unit of the exact one, with halves going up: (2q-1)·unit ≤ 2n < (2q+1)·unit |
| `CostFormat.FormatCost` | src/widgets/DailyCost.ts:119-128 | the band is chosen from the unrounded cost. The text is "<0.01" exactly when the cost is below 0.01 dollars. In [0.01, 1) it is a fixed-point numeral of the cost rounded to cents, with two fractional digits. In [1, 10) it is the cost rounded to dimes, with one fractional digit. From 10 up it is the numeral of the cost rounded to whole dollars, halves up |
| `CostFormat.Present` | src/widgets/DailyCost.ts:130 | raw mode gives the formatted value alone; otherwise the caption is followed by the formatted value |
| `CostFormat.FormatCentEdge` | src/widgets/DailyCost.ts:120-123 | the one-cent boundary: 0 and 999,999 units show "<0.01"; 1,000,000 units show "0.01" |
| `CostFormat.FormatHalfDollar` | src/widgets/DailyCost.ts:122-123 | half a dollar shows "0.50", keeping the trailing zero |
| `CostFormat.FormatCentsRoundUp` | src/widgets/DailyCost.ts:122-123 | 0.995 dollars stays in the cents band and rounds up to "1.00" |
| `CostFormat.FormatDimesBand` | src/widgets/DailyCost.ts:124-125 | 3.50 dollars shows "3.5"; 9.95 dollars stays in the one-decimal band and shows "10.0" |
| `CostFormat.FormatDollarsBand` | src/widgets/DailyCost.ts:126-127 | 10 dollars shows "10"; 10.50 dollars rounds half up to "11" |
| `CostFormat.FormatFifteenDollars` | src/widgets/DailyCost.ts:126-127 | 15 dollars shows "15" |
| `DailyCost.LinesTotalSnoc` | src/widgets/DailyCost.ts:69-87 | one more line adds exactly that line's usage to the totals |
| `DailyCost.ReadableLinesSnoc` | src/widgets/DailyCost.ts:64-67 | one more file adds its lines if it is readable and nothing if it is not |
| `DailyCost.LinesTotalAppend` | src/widgets/DailyCost.ts:69-87 | the totals of two runs of lines joined are the sums of their totals |
| `DailyCost.ReadableLinesAppend` | src/widgets/DailyCost.ts:64-95 | the readable lines of two file lists joined are the two lists' readable lines joined |
| `DailyCost.GetDailyTokens` | src/widgets/DailyCost.ts:58-97 | the four counters after the nested file and line loops equal the fold `DailyTokens` over the same input. Corrected on the unavailable path, which gives four zero counters rather than the source's three-field fallback; see Findings |
| `DailyCost.IgnoredLine` | src/widgets/DailyCost.ts:70-90 | a line that failed to parse, a record stamped before the cutoff, and a record without `message.usage` each leave the totals unchanged |
| `DailyCost.CountedLine` | src/widgets/DailyCost.ts:74-87 | a record with usage whose timestamp is absent, unparsable or not before the cutoff adds each present field to its counter; an absent field adds 0 |
| `DailyCost.LinesTotalExtract` | src/widgets/DailyCost.ts:69-87 | the totals of a run of lines are the totals with one line removed plus that line's usage |
| `DailyCost.LinesTotalPermutation` | src/widgets/DailyCost.ts:69-87 | any reordering of the lines gives the same totals |
| `DailyCost.ReadableLinesPermutation` | src/widgets/DailyCost.ts:64-95 | reordering the files reorders their readable lines: the multisets agree |
| `DailyCost.FileOrderIrrelevant` | src/widgets/DailyCost.ts:51-97 | the day's totals do not depend on the order in which the glob lists the files |
| `DailyCost.UnreadableFileIgnored` | src/widgets/DailyCost.ts:65-94 | an unreadable file anywhere in the list leaves the day's totals as if it were absent |
| `DailyCost.DailyCostUnits` | src/widgets/DailyCost.ts:112-116 | the total in dollars is input×15/1e6 + output×75/1e6 + cacheRead×1.50/1e6 + cacheCreate×18.75/1e6, all four terms always present |
| `DailyCost.DailyCostMonotone` | src/widgets/DailyCost.ts:112-116 | more tokens of any kind never lower the daily cost |
| `DailyCost.DailyCostAdditive` | src/widgets/DailyCost.ts:112-116 | the cost of two batches of usage together is the sum of their costs |
| `DailyCost.ZeroUsageBelowCent` | src/widgets/DailyCost.ts:112-121 | no usage costs nothing and shows as "<0.01" |
| `DailyCost.Render` | src/widgets/DailyCost.ts:103-131 | preview mode gives "15" or "Daily: $15". Otherwise the text is the formatted price of the day's totals, bare in raw mode or after "Daily: $". Corrected on the unavailable path, which shows an empty day rather than "NaN"; see Findings |
| `DailyCost.PreviewIgnoresLogs` | src/widgets/DailyCost.ts:104-106 | preview output is the same whatever the logs and the cutoff |
| `DailyCost.MillionInputTokensCostFifteen` | src/widgets/DailyCost.ts:15 | a million input tokens and nothing else cost exactly 15 dollars and show as "15" |
| `DailyCost.DailyTokensAsWritten` | src/widgets/DailyCost.ts:41-101 | as written, the four-counter object is returned exactly when the directory is found, and its counts are then the day's totals `DailyTokens`; otherwise the three-field fallback is returned |
| `DailyCost.TotalCostAsWritten` | src/widgets/DailyCost.ts:109-116 | as written, the total is NaN exactly when the three-field fallback came back, since its cache fields are undefined; otherwise it is the four-term cost `DailyCostUnits` of the counts |
| `DailyCost.FormatTotalAsWritten` | src/widgets/DailyCost.ts:119-128 | a numeric total is formatted by the four-band rule. NaN fails every `<` test and prints as "NaN" |
| `DailyCost.RenderAsWritten` | src/widgets/DailyCost.ts:103-131 | as written, preview output is the same as the corrected `Render` |
| `DailyCost.UnavailableShowsNaNAsWritten` | src/widgets/DailyCost.ts:45-47 | as written, a missing log directory renders as "NaN" in raw mode and as "Daily: $NaN" otherwise |
| `DailyCost.AsWrittenAgreesWhenFound` | src/widgets/DailyCost.ts:58-97 | whenever the directory is found, the as-written and corrected widgets show the same text |
| `DailyCost.UnavailableShowsEmptyDay` | src/widgets/DailyCost.ts:45-47 | corrected, a missing log directory renders exactly like a found directory with no files: "<0.01" or "Daily: $<0.01" |
| `CalculatedCost.CalculatedCostUnits` | src/widgets/CalculatedCost.ts:39-42 | the total in dollars is input×15/1e6 + output×75/1e6 + cached×1.50/1e6 |
| `CalculatedCost.CachedPricedAsReads` | src/widgets/CalculatedCost.ts:41 | the three-term cost is the four-term daily cost with every cached token counted as a cache read and none as a creation |
| `CalculatedCost.CachedSplitBound` | src/widgets/CalculatedCost.ts:38-41 | however the cached tokens really split into reads and creations, the estimate never exceeds the four-term cost. It equals it exactly when there were no creations |
| `CalculatedCost.CalculatedCostMonotone` | src/widgets/CalculatedCost.ts:39-42 | more tokens of any kind never lower the session cost |
| `CalculatedCost.Render` | src/widgets/CalculatedCost.ts:25-61 | preview mode gives "3" or "Cost: $3". Otherwise there is no output exactly when the metrics are missing. With metrics present, the output is the formatted price, bare in raw mode or after "Cost: $" |
| `CalculatedCost.PreviewIgnoresMetrics` | src/widgets/CalculatedCost.ts:26-28 | preview output is the same whatever the metrics |
| `CalculatedCost.MissingMetricsIsNotZero` | src/widgets/CalculatedCost.ts:31-33 | missing metrics give no output, while all-zero metrics give "<0.01" or "Cost: $<0.01" |
| `CalculatedCost.FifteenDollarExamples` | src/widgets/CalculatedCost.ts:11-12 | a million input tokens cost exactly 15 dollars, and so do 200,000 output tokens; they show as "15" and "Cost: $15" |

## Left out

- Locating the projects directory is outside the model. This covers the home directory and `.claude` lookup, the existence test and the glob (`src/widgets/DailyCost.ts:44-51`). The input is a `LogDir` that is either unavailable or lists the files found, in any order.
- File reading, `trim`/`split` into lines and `JSON.parse` are outside the model (`src/widgets/DailyCost.ts:66-71`). A file is either unreadable or its non-empty lines. Each line is either the parsed record or `None` for a line that did not parse. A line whose record cannot be inspected is modelled as `None` too; for example, JSON `null` makes the field access throw, and the record is skipped.
- The clock and local-midnight computation are outside the model (`src/widgets/DailyCost.ts:54-56`). The start of the day is the parameter `cutoff`, in milliseconds.
- `new Date(timestamp)` string parsing is outside the model (`src/widgets/DailyCost.ts:75`). A present, non-empty timestamp is either `At(ms)` or `Invalid`. `Invalid` is a string that parses to NaN; NaN compares false, so such a record is counted.
- Floating point is left out. Costs are exact rationals held as units of 10^-8 dollars, and rounding is exact round-half-up. The double arithmetic of the source can differ near a boundary. For example, a cost that should be exactly 0.01 may land just below it, and `toFixed` can round a tie such as 9.95 down because the double lies below the decimal value. Totals beyond 2^53 units of precision, and the exponent notation `toString` uses from 10^21 up, are not modelled either.
- Usage fields are modelled as absent or a non-negative whole number. Non-numeric, negative or NaN values are outside the model, and so is the difference between `|| 0` and `?? 0` on them (`src/widgets/DailyCost.ts:83-86`).
- The widget metadata getters are constant interface boilerplate and are left out. These are the colour, description, display name, editor display, `supportsRawValue` and `supportsColors` (`src/widgets/DailyCost.ts:34-39, 133-134`; `src/widgets/CalculatedCost.ts:18-23, 63-64`).
- `TokenMetrics` carries further fields that the widget does not read; only input, output and cached tokens are modelled. The `RenderContext`, `WidgetItem` and `Settings` types are not part of this model beyond the `isPreview`, `rawValue` and `tokenMetrics` values passed in.
- There is no per-model price lookup. The code prices every session with the one fixed table in each file, and the model follows the code.

## Findings

| source | as written | input that shows it | evidently intended | confidence | as-written member | corrected member |
|---|---|---|---|---|---|---|
| src/widgets/DailyCost.ts:46, 99, 109-130 | the fallback returns `{inputTokens: 0, outputTokens: 0, cachedTokens: 0}`. `render` destructures `cacheReadTokens` and `cacheCreateTokens` from it as undefined, so the total is NaN. NaN fails all three band tests and `Math.round(NaN).toString()` is "NaN" | no `.claude` directory under the home directory, or an exception during discovery: the widget shows "Daily: $NaN" (raw: "NaN") | the fallback means "no usage today": four zero counters, shown as "Daily: $<0.01" | high; not executed | `DailyCost.UnavailableShowsNaNAsWritten` | `DailyCost.UnavailableShowsEmptyDay` |
