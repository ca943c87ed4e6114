/** The repository's unit-test fixtures, stated as facts about the model: the metric
    builder's 50-day history, the date helper cases, the parser's sample documents and
    the fake source's history length. Statistical facts the fixtures need (sums of runs,
    the spread of a variance) are proved here too. */
module Fixtures {
  import opened Results
  import opened Model
  import opened DateUtils
  import opened TimeSeries
  import opened Sequences
  import opened MetricBuilder
  import opened StockRecordsParser
  import opened FakeApi

  // Sums and variances.

  /** The sum of a run a, a + 1, ..., a + n - 1. */
  lemma {:induction false} SumOfRun(s: seq<real>, a: real)
    requires forall k :: 0 <= k < |s| ==> s[k] == a + k as real
    ensures Sum(s) == (|s| as real) * a + (|s| as real) * (|s| as real - 1.0) / 2.0
  {
    if s != [] {
      var n := |s| as real;
      SumOfRun(s[..|s| - 1], a);
      assert Sum(s) == (n - 1.0) * a + (n - 1.0) * (n - 2.0) / 2.0 + (a + (n - 1.0));
    }
  }

  /** A sum of n values in [lo, hi] lies in [n lo, n hi]. */
  lemma {:induction false} SumBounds(s: seq<real>, lo: real, hi: real)
    requires forall k :: 0 <= k < |s| ==> lo <= s[k] <= hi
    ensures (|s| as real) * lo <= Sum(s) <= (|s| as real) * hi
  {
    if s != [] {
      SumBounds(s[..|s| - 1], lo, hi);
      assert (|s| as real) * lo == (|s| as real - 1.0) * lo + lo;
      assert (|s| as real) * hi == (|s| as real - 1.0) * hi + hi;
    }
  }

  lemma SquareBound(d: real, w: real)
    requires -w <= d <= w
    ensures 0.0 <= d * d <= w * w
  {
    if d >= 0.0 {
      assert d * d <= d * w <= w * w;
    } else {
      assert d * d == (-d) * (-d);
      assert (-d) * (-d) <= (-d) * w <= w * w;
    }
  }

  /** The mean of values within [lo, hi] lies in [lo, hi]. */
  lemma MeanBounds(s: seq<real>, lo: real, hi: real)
    requires |s| > 0 && forall k :: 0 <= k < |s| ==> lo <= s[k] <= hi
    ensures lo <= Mean(s) <= hi
  {
    var n := |s| as real;
    SumBounds(s, lo, hi);
    assert n * lo <= Sum(s) <= n * hi;
    assert Mean(s) == Sum(s) / n;
    DivideBounds(Sum(s), n, lo, hi);
  }

  lemma DivideBounds(x: real, n: real, lo: real, hi: real)
    requires n > 0.0 && n * lo <= x <= n * hi
    ensures lo <= x / n <= hi
  {
    assert x / n * n == x;
  }

  /** The population variance of values within [lo, hi] is at most the square of the spread. */
  lemma VarianceWithinSpread(s: seq<real>, lo: real, hi: real)
    requires |s| > 0 && forall k :: 0 <= k < |s| ==> lo <= s[k] <= hi
    ensures 0.0 <= PopulationVariance(s) <= (hi - lo) * (hi - lo)
  {
    var mean := Mean(s);
    MeanBounds(s, lo, hi);
    var w := (hi - lo) * (hi - lo);
    var squares := seq(|s|, k requires 0 <= k < |s| => (s[k] - mean) * (s[k] - mean));
    forall k | 0 <= k < |s| ensures 0.0 <= squares[k] <= w {
      SquareBound(s[k] - mean, hi - lo);
    }
    SumBounds(squares, 0.0, w);
    assert PopulationVariance(s) == Sum(squares) / (|s| as real);
    assert (|s| as real) * 0.0 == 0.0;
    DivideBounds(Sum(squares), |s| as real, 0.0, w);
  }

  /** A value below half a hundredth rounds to zero. */
  lemma Round2OfTiny(x: real)
    requires 0.0 <= x < 0.005
    ensures Round2(x) == 0.0
  {
    assert 0.5 <= x * 100.0 + 0.5 < 1.0;
    assert (x * 100.0 + 0.5).Floor == 0;
  }

  /** A square root whose square is tiny is small. */
  lemma SqrtOfTiny(sqrt: real -> real, v: real)
    requires IsSqrt(sqrt) && 0.0 <= v < 0.000025
    ensures 0.0 <= sqrt(v) < 0.005
  {
    var y := sqrt(v);
    assert y >= 0.0 && y * y == v;
  }

  // MetricBuilderServiceTest: 50 days from 2025-01-01, closing at 100 + k.

  /** In January and February, a day of 2025 is counted from 2024-03-01, day 19783. */
  lemma DayOfEarly2025(month: int, day: int)
    requires 1 <= month <= 2 && 1 <= day <= 31
    ensures EpochDay(2025, month, day) == 19783 + (153 * (month + 9) + 2) / 5 + day - 1
  {
    assert (2024 / 400) == 5;
    assert (month + 9) % 12 == month + 9;
  }

  lemma WinterDays()
    ensures EpochDay(2025, 1, 1) == 20089 && EpochDay(2025, 2, 19) == 20138 && EpochDay(2025, 2, 20) == 20139
  {
    DayOfEarly2025(1, 1);
    DayOfEarly2025(2, 19);
    DayOfEarly2025(2, 20);
  }

  const Periods3: Periods := Periods(30, 7, 14)

  function TestHistory(): (h: seq<Record>)
    ensures |h| == 50
    ensures forall k :: 0 <= k < 50 ==> h[k] == Record("TEST", EpochDay(2025, 1, 1) + k, 0.0, 0.0, 0.0, 100.0 + k as real)
  {
    seq(50, k requires 0 <= k < 50 => Record("TEST", EpochDay(2025, 1, 1) + k, 0.0, 0.0, 0.0, 100.0 + k as real))
  }

  lemma TestHistoryAscending()
    ensures forall j, k :: 0 <= j < k < |TestHistory()| ==> TestHistory()[j].date < TestHistory()[k].date
  {
  }

  /** The 30 closes ending on the last day average 134.5. */
  lemma LastTestDayAverage()
    ensures Round2(Mean(Closes(TestHistory())[20..50])) == 134.5
  {
    var window := Closes(TestHistory())[20..50];
    SumOfRun(window, 120.0);
    assert Mean(window) == 134.5;
    Round2OfCents(134.5);
  }

  /** The 7 returns ending on the last day are 1/142 .. 1/148. */
  lemma LastTestDayReturns()
    ensures var rets := DailyReturns(Closes(TestHistory())[42..50]);
      |rets| == 7 && forall k :: 0 <= k < 7 ==> 0.0067 <= rets[k] <= 0.0071
  {
    var closes := Closes(TestHistory())[42..50];
    assert forall k :: 0 <= k < 8 ==> closes[k] == 142.0 + k as real;
    var rets := DailyReturns(closes);
    forall k | 0 <= k < 7 ensures 0.0067 <= rets[k] <= 0.0071 {
      var c := 142.0 + k as real;
      assert rets[k] == Ratio((c + 1.0) - c, c);
      ReciprocalBounds(c);
    }
  }

  lemma ReciprocalBounds(c: real)
    requires 142.0 <= c <= 148.0
    ensures Ratio((c + 1.0) - c, c) == 1.0 / c
    ensures 0.0067 <= 1.0 / c <= 0.0071
  {
    var r := 1.0 / c;
    assert r * c == 1.0;
  }

  /** Those returns are too close together for the rounded standard deviation to differ
      from zero. */
  lemma LastTestDayVolatility(sqrt: real -> real)
    requires IsSqrt(sqrt)
    ensures Round2(sqrt(PopulationVariance(DailyReturns(Closes(TestHistory())[42..50])))) == 0.0
  {
    var rets := DailyReturns(Closes(TestHistory())[42..50]);
    LastTestDayReturns();
    VarianceWithinSpread(rets, 0.0067, 0.0071);
    SqrtOfTiny(sqrt, PopulationVariance(rets));
    Round2OfTiny(sqrt(PopulationVariance(rets)));
  }

  /** The 14-day momentum on the last day, 14 / 135, rounds to 0.10. */
  lemma LastTestDayMomentum()
    ensures Round2(Ratio(149.0 - 135.0, 135.0)) == 0.1
  {
    assert Ratio(149.0 - 135.0, 135.0) == 14.0 / 135.0;
    assert 10.0 <= 14.0 / 135.0 * 100.0 + 0.5 < 11.0;
    assert (14.0 / 135.0 * 100.0 + 0.5).Floor == 10;
  }

  /** 2025-02-19, the last day: close 149, change 1.0, average 134.5, volatility 0.0 and
      momentum 0.10 (the code does not scale volatility and momentum to percentages). */
  lemma LastTestDayMetrics(sqrt: real -> real)
    requires IsSqrt(sqrt)
    ensures Metrics(Periods3, sqrt, EpochDay(2025, 2, 19), TestHistory())
      == Ok(Metric("TEST", EpochDay(2025, 2, 19), 149.0, Some(1.0), Some(134.5), Some(0.0), Some(0.1)))
  {
    var h := TestHistory();
    var date := EpochDay(2025, 2, 19);
    WinterDays();
    TestHistoryAscending();
    IndexOfAscending(h, 49);
    var r := Metrics(Periods3, sqrt, date, h);
    MetricsCloseField(Periods3, sqrt, date, h);
    Round2OfCents(149.0);
    PreviousCloseChangeField(Periods3, sqrt, date, h);
    Round2OfCents(1.0);
    MovingAverageField(Periods3, sqrt, date, h);
    LastTestDayAverage();
    VolatilityField(Periods3, sqrt, date, h);
    LastTestDayVolatility(sqrt);
    MomentumField(Periods3, sqrt, date, h);
    LastTestDayMomentum();
    assert r.value.close == 149.0 && r.value.previousCloseChange == Some(1.0);
    assert r.value.movingAverage == Some(134.5) && r.value.volatility == Some(0.0);
    assert r.value.momentum == Some(0.1);
  }

  /** 2025-01-01, the first day: close 100 and no derived field. */
  lemma FirstTestDayMetrics(sqrt: real -> real)
    ensures Metrics(Periods3, sqrt, EpochDay(2025, 1, 1), TestHistory())
      == Ok(Metric("TEST", EpochDay(2025, 1, 1), 100.0, None, None, None, None))
  {
    var h := TestHistory();
    var date := EpochDay(2025, 1, 1);
    assert IndexOfDate(h, date) == Some(0);
    Round2OfCents(100.0);
  }

  /** 2025-02-20 is not in the history. */
  lemma MissingTestDay(sqrt: real -> real)
    ensures Metrics(Periods3, sqrt, EpochDay(2025, 2, 20), TestHistory())
      == Err(MetricBuilderFailure(EpochDay(2025, 2, 20)))
  {
    WinterDays();
  }

  // DateUtilsTest: bounds 2025-08-01 .. 2025-09-01.

  /** The day numbers of the calendar days the fixtures use. */
  lemma SummerDays()
    ensures EpochDay(2025, 7, 2) == 20271 && EpochDay(2025, 8, 1) == 20301
    ensures EpochDay(2025, 8, 2) == 20302 && EpochDay(2025, 8, 4) == 20304
    ensures EpochDay(2025, 8, 5) == 20305 && EpochDay(2025, 9, 1) == 20332
    ensures EpochDay(2025, 9, 5) == 20336
  {
    DayOf2025(7, 2);
    DayOf2025(8, 1);
    DayOf2025(8, 2);
    DayOf2025(8, 4);
    DayOf2025(8, 5);
    DayOf2025(9, 1);
    DayOf2025(9, 5);
  }

  /** From March on, a day of 2025 is counted from 2025-03-01, day 20148. */
  lemma DayOf2025(month: int, day: int)
    requires 3 <= month <= 12 && 1 <= day <= 31
    ensures EpochDay(2025, month, day) == 20148 + (153 * (month - 3) + 2) / 5 + day - 1
  {
    assert (2025 / 400) == 5;
    assert (month + 9) % 12 == month - 3;
  }

  lemma DateRangeAccepted()
    ensures VerifyDateRange(Some(EpochDay(2025, 8, 2)), Some(EpochDay(2025, 8, 5)), EpochDay(2025, 8, 1), EpochDay(2025, 9, 1))
      == Ok(DateRange(EpochDay(2025, 8, 2), EpochDay(2025, 8, 5)))
    ensures VerifyDateRange(None, None, EpochDay(2025, 8, 1), EpochDay(2025, 9, 1))
      == Ok(DateRange(EpochDay(2025, 8, 1), EpochDay(2025, 9, 1)))
  {
    SummerDays();
  }

  lemma DateRangeRefused()
    ensures VerifyDateRange(Some(EpochDay(2025, 7, 2)), Some(EpochDay(2025, 8, 5)), EpochDay(2025, 8, 1), EpochDay(2025, 9, 1))
      == Err(IllegalArgument(StartTooEarly(EpochDay(2025, 8, 1))))
    ensures VerifyDateRange(Some(EpochDay(2025, 8, 2)), Some(EpochDay(2025, 9, 5)), EpochDay(2025, 8, 1), EpochDay(2025, 9, 1))
      == Err(IllegalArgument(EndTooLate(EpochDay(2025, 9, 1))))
    ensures VerifyDateRange(Some(EpochDay(2025, 8, 2)), Some(EpochDay(2025, 8, 1)), EpochDay(2025, 8, 1), EpochDay(2025, 9, 1))
      == Err(IllegalArgument(StartAfterEnd(EpochDay(2025, 8, 2), EpochDay(2025, 8, 1))))
  {
    SummerDays();
  }

  lemma DaysInAugust()
    ensures CalculateNumDaysBetweenDates(EpochDay(2025, 8, 1), EpochDay(2025, 9, 1)) == 31
  {
    SummerDays();
  }

  lemma DateConversions()
    ensures ConvertToDate(Some(Iso(EpochDay(2025, 8, 4)))) == Ok(Some(EpochDay(2025, 8, 4)))
    ensures ConvertToDate(None) == Ok(None)
    ensures ConvertToDate(Some(Unparsable("2025-045-3"))) == Err(IllegalArgument(BadDateFormat))
  {
  }

  // StockRecordParserTest: sample documents.

  function Prices(open: real, high: real, low: real, close: real): map<string, real> {
    map[OpenField := open, HighField := high, LowField := low, CloseField := close, AdjustedCloseField := close]
  }

  const IbmMeta: MetaData := MetaData(Some(FakeApi.Information), Some("IBM"), Some(Iso(EpochDay(2025, 8, 27))))

  /** A two-day document, newest first, parses to two records with the newest last. */
  lemma TwoRecordDocument()
    ensures var doc := Document(IbmMeta, [
        Entry(Iso(EpochDay(2025, 8, 27)), Fields(Prices(100.5, 105.0, 99.8, 102.3))),
        Entry(Iso(EpochDay(2025, 8, 26)), Fields(Prices(98.0, 101.0, 97.5, 99.5)))]);
      Parsed(doc) == Ok([Record("IBM", EpochDay(2025, 8, 26), 98.0, 101.0, 97.5, 99.5),
                         Record("IBM", EpochDay(2025, 8, 27), 100.5, 105.0, 99.8, 102.3)])
  {
    var doc := Document(IbmMeta, [
        Entry(Iso(EpochDay(2025, 8, 27)), Fields(Prices(100.5, 105.0, 99.8, 102.3))),
        Entry(Iso(EpochDay(2025, 8, 26)), Fields(Prices(98.0, 101.0, 97.5, 99.5)))]);
    var inOrder := ParseEntries("IBM", doc.timeSeries);
    assert inOrder.Ok?;
    assert Reversed(inOrder.value) == [inOrder.value[1], inOrder.value[0]];
  }

  /** An entry without "3. low" and "5. adjusted close" is a ParserException. */
  lemma IncompleteEntry()
    ensures Parsed(Document(IbmMeta, [Entry(Iso(EpochDay(2025, 8, 27)),
              Fields(map[OpenField := 100.5, HighField := 105.0, CloseField := 102.3]))]))
      == Err(ParserFailure(MissingField))
  {
    var e := Entry(Iso(EpochDay(2025, 8, 27)), Fields(map[OpenField := 100.5, HighField := 105.0, CloseField := 102.3]));
    assert LowField !in e.node.fields;
    assert ParseEntry("IBM", e).Err?;
  }

  /** A document that is not JSON is a ParserException. */
  lemma UnreadableDocument()
    ensures Parsed(Malformed) == Err(ParserFailure(Unreadable))
  {
  }

  // FakeApiServiceTest: limits (50, 100).

  /** A first request for 50 records of a 100-day history answers with 50 entries, the
      newest dated yesterday. */
  lemma FirstRequestHistoryLength(today: int, draw: nat -> Quote)
    ensures var r := Answer(map[], 100, Some("MSFT"), 50, today, draw);
      r.Ok? && |r.value.timeSeries| == 50 && r.value.metaData.lastRefreshed == Some(Iso(today - 1))
  {
    var history := InitialHistory("MSFT", 100, today, draw);
    InitialHistoryDates("MSFT", 100, today, draw);
    assert ToUpper("MSFT") == "MSFT";
    assert !IsBlank("MSFT") by { assert !IsWhitespace("MSFT"[0]); }
    var slice := Slice(history, 50);
    assert slice == history[50..];
    assert StrictlyAscending(slice) by {
      forall j, k | 0 <= j < k < |slice| ensures slice[j].date < slice[k].date {
        assert slice[j] == history[50 + j] && slice[k] == history[50 + k];
      }
    }
    TimeSeriesDescending(slice);
  }

  /** A blank symbol is refused. */
  lemma BlankSymbolCase(today: int, draw: nat -> Quote)
    ensures Answer(map[], 100, Some(""), 50, today, draw) == Err(IllegalArgument(BlankSymbol))
  {
  }
}
