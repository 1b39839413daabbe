/** The daily cost widget: the token totals of every transcript record
    stamped today, priced with the four-term table and shown with the
    shared cost format. Reading the log directory, splitting files into
    lines, JSON parsing and the clock are outside the model: the input is
    the already-parsed content of every discovered file, and the start of
    the day is a parameter. */
module DailyCost {
  import opened Wrappers
  import opened Pricing
  import opened CostFormat

  /** Token totals: the four counters the widget sums and prices. */
  datatype Usage = Usage(inputTokens: nat, outputTokens: nat, cacheReadTokens: nat, cacheCreateTokens: nat)

  /** No tokens at all. */
  function Zero(): Usage {
    Usage(0, 0, 0, 0)
  }

  function Add(a: Usage, b: Usage): Usage {
    Usage(a.inputTokens + b.inputTokens, a.outputTokens + b.outputTokens,
          a.cacheReadTokens + b.cacheReadTokens, a.cacheCreateTokens + b.cacheCreateTokens)
  }

  /** The `usage` object of a transcript record; each field may be absent. */
  datatype UsageFields = UsageFields(
    input_tokens: Option<nat>,
    output_tokens: Option<nat>,
    cache_read_input_tokens: Option<nat>,
    cache_creation_input_tokens: Option<nat>)

  datatype Message = Message(usage: Option<UsageFields>)

  /** A timestamp string that is present and non-empty: either it parses to
      a time in milliseconds, or it does not and the parsed time is NaN. */
  datatype Stamp = Invalid | At(ms: int)

  /** One parsed transcript line. A missing or empty timestamp is `None`. */
  datatype TranscriptLine = TranscriptLine(timestamp: Option<Stamp>, message: Option<Message>)

  /** A discovered log file: unreadable, or its non-empty lines, each the
      parsed record or `None` when the line is not valid JSON. */
  datatype LogFile = Unreadable | Lines(lines: seq<Option<TranscriptLine>>)

  /** The log directory: unavailable (missing, or discovery failed) or the
      files found in it. */
  datatype LogDir = Unavailable | Found(files: seq<LogFile>)

  /** A record is skipped when its timestamp parses to a time before the cutoff.
      NaN compares false, so a timestamp that does not parse is kept. */
  predicate BeforeCutoff(line: TranscriptLine, cutoff: int) {
    line.timestamp.Some? && line.timestamp.value.At? && line.timestamp.value.ms < cutoff
  }

  /** What one line adds to the totals. */
  function LineUsage(entry: Option<TranscriptLine>, cutoff: int): Usage {
    if entry.None? || BeforeCutoff(entry.value, cutoff) then Zero()
    else if entry.value.message.None? || entry.value.message.value.usage.None? then Zero()
    else UsageOf(entry.value.message.value.usage.value)
  }

  /** The usage object's four counts, an absent field counting as zero. */
  function UsageOf(u: UsageFields): Usage {
    Usage(u.input_tokens.GetOr(0), u.output_tokens.GetOr(0),
          u.cache_read_input_tokens.GetOr(0), u.cache_creation_input_tokens.GetOr(0))
  }

  /** The totals over a run of lines, taken front to back. */
  function LinesTotal(lines: seq<Option<TranscriptLine>>, cutoff: int): Usage {
    if lines == [] then Zero()
    else Add(LinesTotal(lines[..|lines| - 1], cutoff), LineUsage(lines[|lines| - 1], cutoff))
  }

  /** The lines of every readable file, in file order. */
  function ReadableLines(files: seq<LogFile>): seq<Option<TranscriptLine>> {
    if files == [] then []
    else
      var last := files[|files| - 1];
      ReadableLines(files[..|files| - 1]) + (if last.Lines? then last.lines else [])
  }

  /** The day's totals, with an unavailable directory giving all zeros. */
  function DailyTokens(dir: LogDir, cutoff: int): Usage {
    match dir
    case Unavailable => Zero()
    case Found(files) => LinesTotal(ReadableLines(files), cutoff)
  }

  lemma LinesTotalSnoc(lines: seq<Option<TranscriptLine>>, entry: Option<TranscriptLine>, cutoff: int)
    ensures LinesTotal(lines + [entry], cutoff) == Add(LinesTotal(lines, cutoff), LineUsage(entry, cutoff))
  {
    assert (lines + [entry])[..|lines|] == lines;
  }

  lemma ReadableLinesSnoc(files: seq<LogFile>, file: LogFile)
    ensures ReadableLines(files + [file]) == ReadableLines(files) + (if file.Lines? then file.lines else [])
  {
    assert (files + [file])[..|files|] == files;
  }

  /** Totals split over any cut of the line sequence. */
  lemma {:induction false} LinesTotalAppend(a: seq<Option<TranscriptLine>>, b: seq<Option<TranscriptLine>>, cutoff: int)
    ensures LinesTotal(a + b, cutoff) == Add(LinesTotal(a, cutoff), LinesTotal(b, cutoff))
    decreases |b|
  {
    if b == [] {
      assert a + b == a;
    } else {
      var init, last := b[..|b| - 1], b[|b| - 1];
      assert a + b == (a + init) + [last];
      LinesTotalSnoc(a + init, last, cutoff);
      LinesTotalAppend(a, init, cutoff);
      assert LinesTotal(b, cutoff) == Add(LinesTotal(init, cutoff), LineUsage(last, cutoff));
    }
  }

  /** The scan of `getDailyTokens`: four accumulators updated line by line
      across every readable file. Corrected on the unavailable path, where
      it returns four zero counters (see `DailyTokensAsWritten` for the
      source's three-field fallback). */
  method GetDailyTokens(dir: LogDir, cutoff: int) returns (u: Usage)
    ensures u == DailyTokens(dir, cutoff)
  {
    if dir.Unavailable? {
      return Zero();
    }
    var files := dir.files;
    var inputTokens: nat, outputTokens: nat, cacheReadTokens: nat, cacheCreateTokens: nat := 0, 0, 0, 0;
    for i := 0 to |files|
      invariant Usage(inputTokens, outputTokens, cacheReadTokens, cacheCreateTokens)
                == LinesTotal(ReadableLines(files[..i]), cutoff)
    {
      assert files[..i + 1] == files[..i] + [files[i]];
      ReadableLinesSnoc(files[..i], files[i]);
      if files[i].Unreadable? {
        assert ReadableLines(files[..i]) + [] == ReadableLines(files[..i]);
        continue;
      }
      var lines := files[i].lines;
      ghost var earlier := LinesTotal(ReadableLines(files[..i]), cutoff);
      for j := 0 to |lines|
        invariant Usage(inputTokens, outputTokens, cacheReadTokens, cacheCreateTokens)
                  == Add(earlier, LinesTotal(lines[..j], cutoff))
      {
        assert lines[..j + 1] == lines[..j] + [lines[j]];
        LinesTotalSnoc(lines[..j], lines[j], cutoff);
        if lines[j].None? {
          continue;
        }
        var data := lines[j].value;
        if data.timestamp.Some? {
          var stamp := data.timestamp.value;
          if stamp.At? && stamp.ms < cutoff {
            continue;
          }
        }
        if data.message.Some? && data.message.value.usage.Some? {
          var usage := data.message.value.usage.value;
          inputTokens := inputTokens + usage.input_tokens.GetOr(0);
          outputTokens := outputTokens + usage.output_tokens.GetOr(0);
          cacheReadTokens := cacheReadTokens + usage.cache_read_input_tokens.GetOr(0);
          cacheCreateTokens := cacheCreateTokens + usage.cache_creation_input_tokens.GetOr(0);
        }
      }
      assert lines[..|lines|] == lines;
      LinesTotalAppend(ReadableLines(files[..i]), lines, cutoff);
    }
    assert files[..|files|] == files;
    u := Usage(inputTokens, outputTokens, cacheReadTokens, cacheCreateTokens);
  }

  lemma {:induction false} ReadableLinesAppend(a: seq<LogFile>, b: seq<LogFile>)
    ensures ReadableLines(a + b) == ReadableLines(a) + ReadableLines(b)
    decreases |b|
  {
    if b == [] {
      assert a + b == a;
    } else {
      var init, last := b[..|b| - 1], b[|b| - 1];
      assert a + b == (a + init) + [last];
      ReadableLinesSnoc(a + init, last);
      ReadableLinesAppend(a, init);
    }
  }

  /** A line that does not parse, a record stamped before the cutoff and a
      record without `message.usage` leave the totals unchanged, wherever
      they stand among the other lines. */
  lemma IgnoredLine(a: seq<Option<TranscriptLine>>, entry: Option<TranscriptLine>, b: seq<Option<TranscriptLine>>, cutoff: int)
    requires entry.None? || BeforeCutoff(entry.value, cutoff)
             || entry.value.message.None? || entry.value.message.value.usage.None?
    ensures LinesTotal(a + [entry] + b, cutoff) == LinesTotal(a + b, cutoff)
  {
    LinesTotalAppend(a + [entry], b, cutoff);
    LinesTotalSnoc(a, entry, cutoff);
    LinesTotalAppend(a, b, cutoff);
  }

  /** A record with usage whose timestamp is missing or empty, does not
      parse, or is not before the cutoff is counted: each total grows by
      that field of its usage, and by nothing when the field is absent. */
  lemma CountedLine(a: seq<Option<TranscriptLine>>, line: TranscriptLine, b: seq<Option<TranscriptLine>>, cutoff: int)
    requires line.timestamp.None? || line.timestamp.value.Invalid? || line.timestamp.value.ms >= cutoff
    requires line.message.Some? && line.message.value.usage.Some?
    ensures var before, after, u := LinesTotal(a + b, cutoff), LinesTotal(a + [Some(line)] + b, cutoff), line.message.value.usage.value;
      && (u.input_tokens.Some? ==> after.inputTokens == before.inputTokens + u.input_tokens.value)
      && (u.output_tokens.Some? ==> after.outputTokens == before.outputTokens + u.output_tokens.value)
      && (u.cache_read_input_tokens.Some? ==> after.cacheReadTokens == before.cacheReadTokens + u.cache_read_input_tokens.value)
      && (u.cache_creation_input_tokens.Some? ==> after.cacheCreateTokens == before.cacheCreateTokens + u.cache_creation_input_tokens.value)
      && (u.input_tokens.None? ==> after.inputTokens == before.inputTokens)
      && (u.output_tokens.None? ==> after.outputTokens == before.outputTokens)
      && (u.cache_read_input_tokens.None? ==> after.cacheReadTokens == before.cacheReadTokens)
      && (u.cache_creation_input_tokens.None? ==> after.cacheCreateTokens == before.cacheCreateTokens)
  {
    var u := line.message.value.usage.value;
    assert LineUsage(Some(line), cutoff) == UsageOf(u);
    var before := LinesTotal(a + b, cutoff);
    LinesTotalAppend(a + [Some(line)], b, cutoff);
    LinesTotalSnoc(a, Some(line), cutoff);
    LinesTotalAppend(a, b, cutoff);
    assert LinesTotal(a + [Some(line)] + b, cutoff) == Add(before, UsageOf(u));
  }

  /** In two sequences with the same elements, the last element of the
      first stands somewhere in the second, and the rest match up. */
  lemma MatchLast<T>(a: seq<T>, b: seq<T>) returns (i: nat)
    requires |a| > 0 && multiset(a) == multiset(b)
    ensures i < |b| && b[i] == a[|a| - 1]
    ensures multiset(a[..|a| - 1]) == multiset(b[..i] + b[i + 1..])
  {
    var init, last := a[..|a| - 1], a[|a| - 1];
    assert a == init + [last];
    assert last in multiset(b);
    i :| 0 <= i < |b| && b[i] == last;
    assert b == b[..i] + [last] + b[i + 1..];
    var rest := b[..i] + b[i + 1..];
    assert multiset(a) == multiset(init) + multiset{last};
    assert multiset(b) == multiset(b[..i]) + multiset{last} + multiset(b[i + 1..]);
    assert multiset(rest) == multiset(b[..i]) + multiset(b[i + 1..]);
    assert multiset(init) + multiset{last} == multiset(rest) + multiset{last};
    assert multiset(init) == multiset(init) + multiset{last} - multiset{last};
    assert multiset(rest) == multiset(rest) + multiset{last} - multiset{last};
  }

  /** Taking one line out of the middle takes its share out of the totals. */
  lemma LinesTotalExtract(b: seq<Option<TranscriptLine>>, i: nat, cutoff: int)
    requires i < |b|
    ensures LinesTotal(b, cutoff) == Add(LinesTotal(b[..i] + b[i + 1..], cutoff), LineUsage(b[i], cutoff))
  {
    assert b == b[..i] + [b[i]] + b[i + 1..];
    LinesTotalAppend(b[..i] + [b[i]], b[i + 1..], cutoff);
    LinesTotalSnoc(b[..i], b[i], cutoff);
    LinesTotalAppend(b[..i], b[i + 1..], cutoff);
  }

  /** The totals depend only on which lines there are, not on their order. */
  lemma {:induction false} LinesTotalPermutation(a: seq<Option<TranscriptLine>>, b: seq<Option<TranscriptLine>>, cutoff: int)
    requires multiset(a) == multiset(b)
    ensures LinesTotal(a, cutoff) == LinesTotal(b, cutoff)
    decreases |a|
  {
    if a == [] {
      assert |b| == |multiset(b)| == 0;
    } else {
      var i := MatchLast(a, b);
      LinesTotalPermutation(a[..|a| - 1], b[..i] + b[i + 1..], cutoff);
      LinesTotalExtract(b, i, cutoff);
    }
  }

  /** Reordering the files reorders their lines and nothing more. */
  lemma {:induction false} ReadableLinesPermutation(a: seq<LogFile>, b: seq<LogFile>)
    requires multiset(a) == multiset(b)
    ensures multiset(ReadableLines(a)) == multiset(ReadableLines(b))
    decreases |a|
  {
    if a == [] {
      assert |b| == |multiset(b)| == 0;
    } else {
      var i := MatchLast(a, b);
      var init, rest := a[..|a| - 1], b[..i] + b[i + 1..];
      ReadableLinesPermutation(init, rest);
      assert a == init + [b[i]];
      assert b == b[..i] + [b[i]] + b[i + 1..];
      ReadableLinesAppend(init, [b[i]]);
      ReadableLinesAppend(b[..i] + [b[i]], b[i + 1..]);
      ReadableLinesAppend(b[..i], [b[i]]);
      ReadableLinesAppend(b[..i], b[i + 1..]);
    }
  }

  /** The day's totals do not depend on the order the files are found in. */
  lemma FileOrderIrrelevant(a: seq<LogFile>, b: seq<LogFile>, cutoff: int)
    requires multiset(a) == multiset(b)
    ensures DailyTokens(Found(a), cutoff) == DailyTokens(Found(b), cutoff)
  {
    ReadableLinesPermutation(a, b);
    LinesTotalPermutation(ReadableLines(a), ReadableLines(b), cutoff);
  }

  /** A file that cannot be read is skipped; the scan goes on with the rest. */
  lemma UnreadableFileIgnored(a: seq<LogFile>, b: seq<LogFile>, cutoff: int)
    ensures DailyTokens(Found(a + [Unreadable] + b), cutoff) == DailyTokens(Found(a + b), cutoff)
  {
    ReadableLinesAppend(a + [Unreadable], b);
    ReadableLinesAppend(a, [Unreadable]);
    ReadableLinesAppend(a, b);
    assert ReadableLines([Unreadable]) == [] by {
      assert [Unreadable][..0] == [];
    }
    assert ReadableLines(a) + [] == ReadableLines(a);
  }

  /** The day's cost in units: the four counts at the four prices. */
  function DailyCostUnits(u: Usage): (r: nat)
    ensures Dollars(r) == u.inputTokens as real * (15.00 / 1_000_000.0)
                        + u.outputTokens as real * (75.00 / 1_000_000.0)
                        + u.cacheReadTokens as real * (1.50 / 1_000_000.0)
                        + u.cacheCreateTokens as real * (18.75 / 1_000_000.0)
  {
    u.inputTokens * InputPrice + u.outputTokens * OutputPrice
    + u.cacheReadTokens * CacheReadPrice + u.cacheCreateTokens * CacheCreatePrice
  }

  /** More tokens of any kind never lower the cost. */
  lemma DailyCostMonotone(a: Usage, b: Usage)
    requires a.inputTokens <= b.inputTokens && a.outputTokens <= b.outputTokens
    requires a.cacheReadTokens <= b.cacheReadTokens && a.cacheCreateTokens <= b.cacheCreateTokens
    ensures DailyCostUnits(a) <= DailyCostUnits(b)
  {
  }

  /** The cost of two batches of usage is the sum of their costs. */
  lemma DailyCostAdditive(a: Usage, b: Usage)
    ensures DailyCostUnits(Add(a, b)) == DailyCostUnits(a) + DailyCostUnits(b)
  {
  }

  /** No usage costs nothing and shows as "<0.01". */
  lemma ZeroUsageBelowCent()
    ensures DailyCostUnits(Zero()) == 0
    ensures FormatCost(DailyCostUnits(Zero())) == "<0.01"
  {
  }

  /** The widget's text: a fixed placeholder in preview mode, otherwise
      the day's cost formatted, bare or after "Daily: $". Corrected on the
      unavailable path, which shows an empty day rather than "NaN" (see
      `RenderAsWritten`). */
  function Render(isPreview: bool, rawValue: bool, dir: LogDir, cutoff: int): (r: string)
    ensures isPreview ==> r == if rawValue then "15" else "Daily: $15"
    ensures !isPreview ==>
      var formatted := FormatCost(DailyCostUnits(DailyTokens(dir, cutoff)));
      r == if rawValue then formatted else "Daily: $" + formatted
  {
    assert "Daily: $" + "15" == "Daily: $15";
    if isPreview then Present(rawValue, "Daily: $", "15")
    else Present(rawValue, "Daily: $", FormatCost(DailyCostUnits(DailyTokens(dir, cutoff))))
  }

  /** Preview output does not look at the logs or the cutoff. */
  lemma PreviewIgnoresLogs(rawValue: bool, dir1: LogDir, cutoff1: int, dir2: LogDir, cutoff2: int)
    ensures Render(true, rawValue, dir1, cutoff1) == Render(true, rawValue, dir2, cutoff2)
  {
  }

  /** The prices pin this example: a million input tokens cost exactly 15
      dollars and show as "15". */
  lemma MillionInputTokensCostFifteen(u: Usage)
    requires u.inputTokens == 1_000_000 && u.outputTokens == 0 && u.cacheReadTokens == 0 && u.cacheCreateTokens == 0
    ensures Dollars(DailyCostUnits(u)) == 15.0
    ensures FormatCost(DailyCostUnits(u)) == "15"
  {
    FormatFifteenDollars();
  }

  // The value `getDailyTokens` returns as written: on its fallback paths
  // it returns an object with `inputTokens`, `outputTokens` and
  // `cachedTokens`, without the two cache fields `render` reads.
  datatype ReturnedTokens = FourCounts(usage: Usage) | ThreeCountFallback

  /** A total cost as the source computes it, where NaN is possible. */
  datatype Total = NaN | Units(units: nat)

  function DailyTokensAsWritten(dir: LogDir, cutoff: int): (t: ReturnedTokens)
    ensures t.FourCounts? <==> dir.Found?
    ensures t.FourCounts? ==> t.usage == DailyTokens(dir, cutoff)
  {
    match dir
    case Unavailable => ThreeCountFallback
    case Found(files) => FourCounts(LinesTotal(ReadableLines(files), cutoff))
  }

  /** `render`'s total as written: reading the missing cache fields gives
      `undefined`, and `undefined` times a price makes the sum NaN. */
  function TotalCostAsWritten(t: ReturnedTokens): (c: Total)
    ensures c.NaN? <==> t.ThreeCountFallback?
    ensures c.Units? ==> c.units == DailyCostUnits(t.usage)
  {
    match t
    case FourCounts(u) => Units(DailyCostUnits(u))
    case ThreeCountFallback => NaN
  }

  /** NaN fails all three `<` tests, so it reaches `Math.round`, which
      prints it as "NaN". */
  function FormatTotalAsWritten(c: Total): (r: string)
    ensures c.Units? ==> r == FormatCost(c.units)
    ensures c.NaN? ==> r == "NaN"
  {
    match c
    case NaN => "NaN"
    case Units(n) => FormatCost(n)
  }

  function RenderAsWritten(isPreview: bool, rawValue: bool, dir: LogDir, cutoff: int): (r: string)
    ensures isPreview ==> r == Render(isPreview, rawValue, dir, cutoff)
  {
    if isPreview then Present(rawValue, "Daily: $", "15")
    else Present(rawValue, "Daily: $", FormatTotalAsWritten(TotalCostAsWritten(DailyTokensAsWritten(dir, cutoff))))
  }

  /** As written, a missing log directory shows "NaN" as the day's cost. */
  lemma UnavailableShowsNaNAsWritten(cutoff: int)
    ensures RenderAsWritten(false, true, Unavailable, cutoff) == "NaN"
    ensures RenderAsWritten(false, false, Unavailable, cutoff) == "Daily: $NaN"
  {
    assert "Daily: $" + "NaN" == "Daily: $NaN";
  }

  /** As written and corrected agree whenever the directory is found. */
  lemma AsWrittenAgreesWhenFound(isPreview: bool, rawValue: bool, files: seq<LogFile>, cutoff: int)
    ensures RenderAsWritten(isPreview, rawValue, Found(files), cutoff) == Render(isPreview, rawValue, Found(files), cutoff)
  {
  }

  /** Corrected, a missing log directory reads as a day with no usage. */
  lemma UnavailableShowsEmptyDay(rawValue: bool, cutoff: int)
    ensures Render(false, rawValue, Unavailable, cutoff) == Render(false, rawValue, Found([]), cutoff)
    ensures Render(false, rawValue, Unavailable, cutoff) == if rawValue then "<0.01" else "Daily: $<0.01"
  {
    assert "Daily: $" + "<0.01" == "Daily: $<0.01";
  }
}
