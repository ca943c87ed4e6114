/** The rolling-window metric calculator (MetricBuilderService). For the record of a
    target date it derives the rounded close, the change from the previous close, a
    P-day moving average, the V-day population volatility of daily returns and the
    M-day momentum; a derived field is None exactly when its trailing window does not
    fit before the record. */
module MetricBuilder {
  import opened Results
  import opened Model

  /** The three configured window lengths (AppCalculationsProperties). */
  datatype Periods = Periods(movingAveragePeriod: int, volatilityPeriod: int, momentumPeriod: int) {
    predicate Valid() {
      movingAveragePeriod >= 1 && volatilityPeriod >= 1 && momentumPeriod >= 1
    }
  }

  /** What Math.sqrt is taken to be: a non-negative square root on non-negative reals. */
  ghost predicate IsSqrt(sqrt: real -> real) {
    forall x :: x >= 0.0 ==> sqrt(x) >= 0.0 && sqrt(x) * sqrt(x) == x
  }

  /** round2dp on a present value: Math.round(x * 100) / 100, that is, the nearest whole
      number of hundredths with halves rounded up. */
  function Round2(x: real): (r: real)
    ensures x >= 0.0 ==> r >= 0.0
  {
    ((x * 100.0 + 0.5).Floor as real) / 100.0
  }

  /** The rounded value is a whole number of hundredths within half a hundredth of x. */
  lemma Round2Bounds(x: real)
    ensures Round2(x) - 0.005 <= x < Round2(x) + 0.005
    ensures (Round2(x) * 100.0).Floor as real == Round2(x) * 100.0
  {
    var n := (x * 100.0 + 0.5).Floor;
    assert Round2(x) * 100.0 == n as real;
    assert (n as real).Floor == n;
  }

  /** round2dp: null stays null. */
  function Round2Dp(x: Option<real>): (r: Option<real>)
    ensures r.None? <==> x.None?
  {
    if x.Some? then Some(Round2(x.value)) else None
  }

  /** A value that is already a whole number of hundredths is left as it is; so
      rounding twice is rounding once. */
  lemma Round2OfCents(x: real)
    requires (x * 100.0).Floor as real == x * 100.0
    ensures Round2(x) == x
  {
    var n := (x * 100.0).Floor;
    assert x * 100.0 + 0.5 == n as real + 0.5;
    assert (x * 100.0 + 0.5).Floor == n;
  }

  lemma Round2Idempotent(x: real)
    ensures Round2(Round2(x)) == Round2(x)
  {
    Round2Bounds(x);
    Round2OfCents(Round2(x));
  }

  /** Division as the model takes it: a zero divisor yields 0 (Java's double division
      yields an infinity or NaN there, which is left out). */
  function Ratio(a: real, b: real): real {
    if b == 0.0 then 0.0 else a / b
  }

  /** The closing prices of a history, in order. */
  function Closes(history: seq<Record>): (c: seq<real>)
    ensures |c| == |history|
    ensures forall k :: 0 <= k < |history| ==> c[k] == history[k].close
  {
    seq(|history|, k requires 0 <= k < |history| => history[k].close)
  }

  /** The sum of a sequence, added from the left as the loops do. */
  function Sum(s: seq<real>): real {
    if s == [] then 0.0 else Sum(s[..|s| - 1]) + s[|s| - 1]
  }

  function Mean(s: seq<real>): real
    requires |s| > 0
  {
    Sum(s) / (|s| as real)
  }

  /** The daily returns (c[j] - c[j-1]) / c[j-1] of consecutive closes. */
  function DailyReturns(c: seq<real>): (r: seq<real>)
    requires |c| > 0
    ensures |r| == |c| - 1
  {
    seq(|c| - 1, k requires 0 <= k < |c| - 1 => Ratio(c[k + 1] - c[k], c[k]))
  }

  /** The population variance: the mean squared deviation, divided by the count. */
  function PopulationVariance(s: seq<real>): real
    requires |s| > 0
  {
    var mean := Mean(s);
    Sum(seq(|s|, k requires 0 <= k < |s| => (s[k] - mean) * (s[k] - mean))) / (|s| as real)
  }

  /** The index of the first record carrying `date`, as `stream().filter().findFirst()`
      followed by `indexOf` finds it. */
  function IndexOfDate(history: seq<Record>, date: int): (r: Option<nat>)
    ensures r.Some? ==> r.value < |history| && history[r.value].date == date
    ensures r.Some? ==> forall k :: 0 <= k < r.value ==> history[k].date != date
    ensures r.None? <==> forall k :: 0 <= k < |history| ==> history[k].date != date
  {
    if history == [] then None
    else if history[0].date == date then Some(0)
    else
      var rest := IndexOfDate(history[1..], date);
      if rest.Some? then Some(rest.value + 1) else None
  }

  /** In a history whose dates strictly increase, the record at position i is the one found. */
  lemma {:induction false} IndexOfAscending(history: seq<Record>, i: nat)
    requires forall j, k :: 0 <= j < k < |history| ==> history[j].date < history[k].date
    requires i < |history|
    ensures IndexOfDate(history, history[i].date) == Some(i)
  {
    if i > 0 {
      assert history[0].date < history[i].date;
      assert history[1..][i - 1] == history[i];
      IndexOfAscending(history[1..], i - 1);
    }
  }

  // The unrounded windowed quantities of the record at index i.

  /** calculateChangeFromPreviousClose. */
  function ChangeFromPreviousClose(history: seq<Record>, i: nat): (r: Option<real>)
    requires i < |history|
    ensures r.None? <==> i == 0
    ensures r.Some? ==> history[i - 1].close + r.value == history[i].close
  {
    if i >= 1 then Some(history[i].close - history[i - 1].close) else None
  }

  ghost function MovingAverage(p: Periods, history: seq<Record>, i: nat): (r: Option<real>)
    requires p.Valid() && i < |history|
    ensures r.None? <==> i < p.movingAveragePeriod - 1
    ensures r.Some? ==> r.value * (p.movingAveragePeriod as real)
                        == Sum(Closes(history)[i - p.movingAveragePeriod + 1 .. i + 1])
  {
    if i >= p.movingAveragePeriod - 1
    then Some(Mean(Closes(history)[i - p.movingAveragePeriod + 1 .. i + 1]))
    else None
  }

  /** The V returns ending at i need the V + 1 closes at i - V .. i. */
  ghost function Volatility(p: Periods, sqrt: real -> real, history: seq<Record>, i: nat): (r: Option<real>)
    requires p.Valid() && i < |history|
    ensures r.None? <==> i < p.volatilityPeriod
  {
    if i > p.volatilityPeriod - 1
    then Some(sqrt(PopulationVariance(DailyReturns(Closes(history)[i - p.volatilityPeriod .. i + 1]))))
    else None
  }

  /** calculateMomentum. */
  function Momentum(p: Periods, history: seq<Record>, i: nat): (r: Option<real>)
    requires p.Valid() && i < |history|
    ensures r.None? <==> i < p.momentumPeriod
    ensures r.Some? && history[i - p.momentumPeriod].close != 0.0 ==>
      history[i - p.momentumPeriod].close * (1.0 + r.value) == history[i].close
  {
    if i > p.momentumPeriod - 1
    then
      var historical := history[i - p.momentumPeriod].close;
      Some(Ratio(history[i].close - historical, historical))
    else None
  }

  /** The metric record that caclculateMetrics builds for `date` from `history`. */
  ghost function Metrics(p: Periods, sqrt: real -> real, date: int, history: seq<Record>): (r: Result<Metric, Failure>)
    requires p.Valid()
    ensures r.Err? <==> forall k :: 0 <= k < |history| ==> history[k].date != date
    ensures r.Err? ==> r.error == MetricBuilderFailure(date)
    ensures r.Ok? ==> r.value.date == date
  {
    match IndexOfDate(history, date)
    case None => Err(MetricBuilderFailure(date))
    case Some(i) =>
      Ok(Metric(history[i].symbol, date, Round2(history[i].close),
                Round2Dp(ChangeFromPreviousClose(history, i)),
                Round2Dp(MovingAverage(p, history, i)),
                Round2Dp(Volatility(p, sqrt, history, i)),
                Round2Dp(Momentum(p, history, i))))
  }

  // The fields of a built metric record, in terms of the index i of the first record
  // carrying the target date.

  /** The symbol and date are those of the record found, and the close is its rounded close. */
  lemma MetricsCloseField(p: Periods, sqrt: real -> real, date: int, history: seq<Record>)
    requires p.Valid()
    ensures var r := Metrics(p, sqrt, date, history);
      r.Ok? ==>
        var i := IndexOfDate(history, date).value;
        r.value.symbol == history[i].symbol && r.value.date == date && r.value.close == Round2(history[i].close)
  {
  }

  /** The change is None exactly at index 0, and otherwise the rounded difference of the
      close and the close before it. */
  lemma PreviousCloseChangeField(p: Periods, sqrt: real -> real, date: int, history: seq<Record>)
    requires p.Valid()
    ensures var r := Metrics(p, sqrt, date, history);
      r.Ok? ==>
        var i := IndexOfDate(history, date).value;
        var change := r.value.previousCloseChange;
        && (change.None? <==> i == 0)
        && change == Round2Dp(ChangeFromPreviousClose(history, i))
  {
  }

  /** The moving average is None exactly when fewer than P closes end at i, and otherwise
      the rounded mean of the P closes at i - P + 1 .. i. */
  lemma MovingAverageField(p: Periods, sqrt: real -> real, date: int, history: seq<Record>)
    requires p.Valid()
    ensures var r := Metrics(p, sqrt, date, history);
      r.Ok? ==>
        var i := IndexOfDate(history, date).value;
        var average := r.value.movingAverage;
        && (average.None? <==> i < p.movingAveragePeriod - 1)
        && average == Round2Dp(MovingAverage(p, history, i))
  {
  }

  /** The volatility is None exactly when i <= V - 1, and otherwise the rounded square root
      of the population variance of the V returns ending at i, which read the V + 1
      closes at i - V .. i. */
  lemma VolatilityField(p: Periods, sqrt: real -> real, date: int, history: seq<Record>)
    requires p.Valid()
    ensures var r := Metrics(p, sqrt, date, history);
      r.Ok? ==>
        var i := IndexOfDate(history, date).value;
        var volatility := r.value.volatility;
        && (volatility.None? <==> i <= p.volatilityPeriod - 1)
        && volatility == Round2Dp(Volatility(p, sqrt, history, i))
  {
  }

  /** The momentum is None exactly when i < M, and otherwise the rounded relative change
      from the close M records earlier. */
  lemma MomentumField(p: Periods, sqrt: real -> real, date: int, history: seq<Record>)
    requires p.Valid()
    ensures var r := Metrics(p, sqrt, date, history);
      r.Ok? ==>
        var i := IndexOfDate(history, date).value;
        var momentum := r.value.momentum;
        && (momentum.None? <==> i < p.momentumPeriod)
        && momentum == Round2Dp(Momentum(p, history, i))
  {
  }

  /** calculateMovingAverage: sums the P closes ending at i in a loop. */
  method CalculateMovingAverage(p: Periods, history: seq<Record>, i: nat) returns (r: Option<real>)
    requires p.Valid() && i < |history|
    ensures r == MovingAverage(p, history, i)
    ensures r.None? <==> i < p.movingAveragePeriod - 1
  {
    if i < p.movingAveragePeriod - 1 {
      return None;
    }
    ghost var c := Closes(history);
    var lo := i - p.movingAveragePeriod + 1;
    var sum := 0.0;
    var j := lo;
    while j <= i
      invariant lo <= j <= i + 1
      invariant sum == Sum(c[lo..j])
    {
      assert c[lo..j + 1][..j - lo] == c[lo..j];
      sum := sum + history[j].close;
      j := j + 1;
    }
    assert |c[lo..i + 1]| == p.movingAveragePeriod;
    r := Some(sum / (p.movingAveragePeriod as real));
  }

  /** calculateVolatility: collects the V daily returns ending at i in a loop, then takes
      the square root of their population variance. */
  method CalculateVolatility(p: Periods, sqrt: real -> real, history: seq<Record>, i: nat) returns (r: Option<real>)
    requires p.Valid() && i < |history|
    ensures r == Volatility(p, sqrt, history, i)
    ensures r.None? <==> i <= p.volatilityPeriod - 1
  {
    if i <= p.volatilityPeriod - 1 {
      return None;
    }
    ghost var c := Closes(history)[i - p.volatilityPeriod .. i + 1];
    var lo := i - p.volatilityPeriod + 1;
    var dailyReturns: seq<real> := [];
    var j := lo;
    while j <= i
      invariant lo <= j <= i + 1
      invariant |dailyReturns| == j - lo
      invariant forall k :: 0 <= k < j - lo ==> dailyReturns[k] == Ratio(c[k + 1] - c[k], c[k])
    {
      var prevClose := history[j - 1].close;
      dailyReturns := dailyReturns + [Ratio(history[j].close - prevClose, prevClose)];
      j := j + 1;
    }
    DailyReturnsFrom(dailyReturns, c);
    r := Some(sqrt(PopulationVariance(dailyReturns)));
  }

  /** A list holding each daily return of `c` in turn is DailyReturns(c). */
  lemma DailyReturnsFrom(rets: seq<real>, c: seq<real>)
    requires |c| > 0 && |rets| == |c| - 1
    requires forall k :: 0 <= k < |rets| ==> rets[k] == Ratio(c[k + 1] - c[k], c[k])
    ensures rets == DailyReturns(c)
  {
  }

  /** caclculateMetrics: finds the first record with the target date and derives its
      metric record; a date absent from the history is a MetricBuilderException. */
  method CalculateMetrics(p: Periods, sqrt: real -> real, date: int, history: seq<Record>)
    returns (r: Result<Metric, Failure>)
    requires p.Valid()
    ensures r == Metrics(p, sqrt, date, history)
    ensures r.Err? <==> forall k :: 0 <= k < |history| ==> history[k].date != date
  {
    var found := IndexOfDate(history, date);
    if found.None? {
      return Err(MetricBuilderFailure(date));
    }
    var i := found.value;
    var record := history[i];
    var change := ChangeFromPreviousClose(history, i);
    var movingAverage := CalculateMovingAverage(p, history, i);
    var volatility := CalculateVolatility(p, sqrt, history, i);
    var momentum := Momentum(p, history, i);
    r := Ok(Metric(record.symbol, date, Round2(record.close), Round2Dp(change),
                   Round2Dp(movingAverage), Round2Dp(volatility), Round2Dp(momentum)));
    assert Metrics(p, sqrt, date, history)
      == Ok(Metric(history[i].symbol, date, Round2(history[i].close),
                   Round2Dp(ChangeFromPreviousClose(history, i)),
                   Round2Dp(MovingAverage(p, history, i)),
                   Round2Dp(Volatility(p, sqrt, history, i)),
                   Round2Dp(Momentum(p, history, i))));
  }
}
