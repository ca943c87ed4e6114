/** The cache-reconciling analysis service (StockAnalysisService). A request validates its
    date range, reads the cached metrics of the last N days and, when they do not reach
    yesterday, fetches records from the fake source, computes one metric per fetched
    record against the whole fetched list, stores each as it is computed and answers from
    the newly computed metrics; otherwise it answers from the cache. The answer keeps the
    metrics dated within the range, newest first, at most N of them. Serialisation to JSON
    is not modelled: the answer is the list that would be serialised. */
module StockAnalysis {
  import opened Results
  import opened Model
  import opened DateUtils
  import opened Sequences
  import opened TimeSeries
  import opened MetricBuilder
  import opened StockRecordsParser
  import opened FakeApi
  import opened ApiRoundTrip
  import opened MetricStore

  /** The date range of a request: the start text is read first, then the end text,
      then the range is checked against [today - n, yesterday]. */
  function AnalysisRange(startDate: Option<DateText>, endDate: Option<DateText>, n: int, today: int)
    : (r: Result<DateRange, Failure>)
    ensures r.Err? ==> r.error.IllegalArgument?
    ensures startDate.Some? && startDate.value.Unparsable? ==> r == Err(IllegalArgument(BadDateFormat))
    ensures r.Ok? ==> today - n <= r.value.startDate <= r.value.endDate <= today - 1 && n >= 1
    ensures r.Ok? && startDate.None? ==> r.value.startDate == today - n
    ensures r.Ok? && endDate.None? ==> r.value.endDate == today - 1
  {
    var s := ConvertToDate(startDate);
    if s.Err? then Err(s.error)
    else
      var e := ConvertToDate(endDate);
      if e.Err? then Err(e.error)
      else VerifyDateRange(s.value, e.value, GetPastDate(today, n), GetPastDate(today, 1))
  }

  /** The cache covers yesterday: its newest row is not before yesterday. */
  predicate IsFresh(cached: seq<Metric>, today: int) {
    |cached| > 0 && cached[|cached| - 1].date >= GetPastDate(today, 1)
  }

  /** The number of records to fetch on a stale cache: the days from the newest cached row
      (or, with nothing cached, from `maxDays` days ago) to yesterday, plus one, in int
      arithmetic. */
  function FetchCount(cached: seq<Metric>, maxDays: Int32, today: int): Int32 {
    var lastUpdate := if |cached| == 0 then GetPastDate(today, maxDays) else cached[|cached| - 1].date;
    ToInt32(CalculateNumDaysBetweenDates(lastUpdate, GetPastDate(today, 1)) + 1)
  }

  /** With nothing cached the whole configured history is fetched. */
  lemma FetchCountEmptyCache(maxDays: Int32, today: int)
    ensures FetchCount([], maxDays, today) == maxDays
  {
    var d := CalculateNumDaysBetweenDates(today - maxDays, today - 1);
    assert (d - (maxDays - 1)) % 0x1_0000_0000 == 0;
    var c := ToInt32(d + 1);
    assert (c - (d + 1)) % 0x1_0000_0000 == 0;
    assert (c - maxDays) % 0x1_0000_0000 == 0;
  }

  /** Otherwise the fetch covers the newest cached day through yesterday, both included. */
  lemma FetchCountAfterGap(cached: seq<Metric>, maxDays: Int32, today: int)
    requires |cached| > 0 && 0 <= today - 1 - cached[|cached| - 1].date < 0x7FFF_FFFF
    ensures FetchCount(cached, maxDays, today) == today - cached[|cached| - 1].date
  {
  }

  /** The exceptions named in produceAnalysis's catch (storage, parser, metric builder)
      are wrapped in a StockAnalysisException; the other runtime exceptions pass through
      unwrapped. All of them are unchecked in the source. */
  function Wrapped(e: Failure): (r: Failure)
    ensures e.ParserFailure? || e.StorageFailure? || e.MetricBuilderFailure? ==> r == StockAnalysisFailure(e)
    ensures e.IllegalArgument? || e.IndexOutOfBounds? || e.DateTimeParse? || e.NoSuchElement? ==> r == e
  {
    if e.ParserFailure? || e.StorageFailure? || e.MetricBuilderFailure? then StockAnalysisFailure(e) else e
  }

  /** fetchAndConvertStockRecords against the fake source's stored histories. */
  function Fetched(data: map<string, seq<Record>>, period: int, symbol: string, count: int,
                   today: int, draw: nat -> Quote): (r: Result<seq<Record>, Failure>)
    ensures IsBlank(symbol) ==> r == Err(IllegalArgument(BlankSymbol))
    ensures !IsBlank(symbol) && |StoredAfter(data, period, Some(symbol), today, draw)[ToUpper(symbol)]| == 0 ==>
      r == Err(IndexOutOfBounds)
  {
    var doc := Answer(data, period, Some(symbol), count, today, draw);
    if doc.Err? then Err(doc.error) else Parsed(doc.value)
  }

  /** On an empty cache and a symbol the source has not seen, the fetch returns the whole
      generated history, oldest first, ending yesterday. */
  lemma EmptyCacheFetchesGeneratedHistory(data: map<string, seq<Record>>, period: Int32, symbol: string,
                                          today: int, draw: nat -> Quote)
    requires !IsBlank(symbol) && ToUpper(symbol) !in data && period > 0
    ensures var key := ToUpper(symbol);
      Fetched(data, period, symbol, FetchCount([], period, today), today, draw)
        == Ok(seq(period, k requires 0 <= k < period => Transmitted(key, NewRecord(key, today - period + k, draw(k)))))
  {
    var key := ToUpper(symbol);
    FetchCountEmptyCache(period, today);
    var count := FetchCount([], period, today);
    var history := InitialHistory(key, period, today, draw);
    InitialHistoryDates(key, period, today, draw);
    assert StoredAfter(data, period, Some(symbol), today, draw)[key] == history;
    var doc := Respond(key, history, period);
    assert Answer(data, period, Some(symbol), count, today, draw) == doc;
    assert Slice(history, period) == history;
    ResponseParsesToSlice(key, history, period);
    assert Fetched(data, period, symbol, count, today, draw) == Parsed(doc.value);
    TransmittedInitialHistory(key, period, today, draw);
  }

  lemma TransmittedInitialHistory(key: string, period: Int32, today: int, draw: nat -> Quote)
    requires period > 0
    ensures var history := InitialHistory(key, period, today, draw);
      seq(|history|, k requires 0 <= k < |history| => Transmitted(key, history[k]))
        == seq(period, k requires 0 <= k < period => Transmitted(key, NewRecord(key, today - period + k, draw(k))))
  {
    var history := InitialHistory(key, period, today, draw);
    var got := seq(|history|, k requires 0 <= k < |history| => Transmitted(key, history[k]));
    var want := seq(period, k requires 0 <= k < period => Transmitted(key, NewRecord(key, today - period + k, draw(k))));
    forall k | 0 <= k < period ensures got[k] == want[k] {
      assert history[k] == NewRecord(key, today - period + k, draw(k));
    }
  }

  /** The metrics computed for fetched records: one per record, each against the whole list. */
  ghost function BuildAll(p: Periods, sqrt: real -> real, records: seq<Record>): (r: seq<Metric>)
    requires p.Valid()
    ensures |r| == |records|
    ensures forall k :: 0 <= k < |records| ==> Metrics(p, sqrt, records[k].date, records) == Ok(r[k])
  {
    seq(|records|, k requires 0 <= k < |records| => Metrics(p, sqrt, records[k].date, records).value)
  }

  /** With ascending fetched records the k-th metric is that of the k-th record. */
  lemma BuildAllFollowsRecords(p: Periods, sqrt: real -> real, records: seq<Record>)
    requires p.Valid()
    requires forall j, k :: 0 <= j < k < |records| ==> records[j].date < records[k].date
    ensures forall k :: 0 <= k < |records| ==>
      var m := BuildAll(p, sqrt, records)[k];
      m.symbol == records[k].symbol && m.date == records[k].date && m.close == Round2(records[k].close)
      && (m.previousCloseChange.Some? <==> k > 0)
      && (m.movingAverage.Some? <==> k >= p.movingAveragePeriod - 1)
      && (m.volatility.Some? <==> k > p.volatilityPeriod - 1)
      && (m.momentum.Some? <==> k > p.momentumPeriod - 1)
  {
    forall k | 0 <= k < |records|
      ensures var m := BuildAll(p, sqrt, records)[k];
        m.symbol == records[k].symbol && m.date == records[k].date && m.close == Round2(records[k].close)
        && (m.previousCloseChange.Some? <==> k > 0)
        && (m.movingAverage.Some? <==> k >= p.movingAveragePeriod - 1)
        && (m.volatility.Some? <==> k > p.volatilityPeriod - 1)
        && (m.momentum.Some? <==> k > p.momentumPeriod - 1)
    {
      IndexOfAscending(records, k);
      var date := records[k].date;
      MetricsCloseField(p, sqrt, date, records);
      PreviousCloseChangeField(p, sqrt, date, records);
      MovingAverageField(p, sqrt, date, records);
      VolatilityField(p, sqrt, date, records);
      MomentumField(p, sqrt, date, records);
    }
  }

  /** A window longer than the fetched list never fits: a short refresh (a cache one day
      behind fetches two records) recomputes its rows without the windowed metrics. */
  lemma ShortFetchHasNoWindows(p: Periods, sqrt: real -> real, records: seq<Record>)
    requires p.Valid()
    ensures forall k :: 0 <= k < |records| ==>
      var m := BuildAll(p, sqrt, records)[k];
      (|records| < p.movingAveragePeriod ==> m.movingAverage.None?)
      && (|records| <= p.volatilityPeriod ==> m.volatility.None?)
      && (|records| <= p.momentumPeriod ==> m.momentum.None?)
  {
    forall k | 0 <= k < |records|
      ensures var m := BuildAll(p, sqrt, records)[k];
        (|records| < p.movingAveragePeriod ==> m.movingAverage.None?)
        && (|records| <= p.volatilityPeriod ==> m.volatility.None?)
        && (|records| <= p.momentumPeriod ==> m.momentum.None?)
    {
      var date := records[k].date;
      MovingAverageField(p, sqrt, date, records);
      VolatilityField(p, sqrt, date, records);
      MomentumField(p, sqrt, date, records);
    }
  }

  // The response: filter to the range, newest first, at most n.

  predicate NewestFirst(s: seq<Metric>) {
    forall j, k :: 0 <= j < k < |s| ==> s[j].date >= s[k].date
  }

  /** The metrics of `ms` dated within [start, end], in their original order. */
  function InRange(ms: seq<Metric>, start: int, end: int): (r: seq<Metric>)
    ensures |r| <= |ms|
  {
    if ms == [] then []
    else (if start <= ms[0].date <= end then [ms[0]] else []) + InRange(ms[1..], start, end)
  }

  /** The filter keeps every metric in the range as often as it occurs, and no other. */
  lemma {:induction false} InRangeCounts(ms: seq<Metric>, start: int, end: int)
    ensures forall m :: multiset(InRange(ms, start, end))[m] == if start <= m.date <= end then multiset(ms)[m] else 0
  {
    if ms != [] {
      InRangeCounts(ms[1..], start, end);
      assert ms == [ms[0]] + ms[1..];
      var head := if start <= ms[0].date <= end then [ms[0]] else [];
      assert InRange(ms, start, end) == head + InRange(ms[1..], start, end);
      assert multiset(ms) == multiset{ms[0]} + multiset(ms[1..]);
    }
  }

  lemma NewestFirstTail(s: seq<Metric>)
    requires NewestFirst(s) && s != []
    ensures NewestFirst(s[1..])
  {
    forall j, k | 0 <= j < k < |s| - 1 ensures s[1..][j].date >= s[1..][k].date {
      assert s[1..][j] == s[j + 1] && s[1..][k] == s[k + 1];
    }
  }

  /** Inserts `m` after every metric at least as new, which keeps the sort stable. */
  function InsertByDate(m: Metric, s: seq<Metric>): (r: seq<Metric>)
    requires NewestFirst(s)
    ensures |r| == |s| + 1
    ensures NewestFirst(r)
    ensures r[0] == if s == [] || s[0].date < m.date then m else s[0]
  {
    if s == [] then [m]
    else if s[0].date < m.date then [m] + s
    else
      NewestFirstTail(s);
      var rest := InsertByDate(m, s[1..]);
      assert forall k :: 0 <= k < |rest| ==> rest[0].date >= rest[k].date;
      [s[0]] + rest
  }

  /** Insertion adds `m` and loses nothing. */
  lemma {:induction false} InsertByDatePermutes(m: Metric, s: seq<Metric>)
    requires NewestFirst(s)
    ensures multiset(InsertByDate(m, s)) == multiset(s) + multiset{m}
  {
    if s != [] && s[0].date >= m.date {
      assert s == [s[0]] + s[1..];
      NewestFirstTail(s);
      InsertByDatePermutes(m, s[1..]);
    }
  }

  /** sorted(comparing(getDate).reversed()): a stable sort, newest first. */
  function SortNewestFirst(s: seq<Metric>): (r: seq<Metric>)
    ensures NewestFirst(r)
    ensures multiset(r) == multiset(s)
  {
    if s == [] then []
    else
      var last := s[|s| - 1];
      var front := SortNewestFirst(s[..|s| - 1]);
      InsertByDatePermutes(last, front);
      assert s == s[..|s| - 1] + [last];
      assert multiset(s) == multiset(front) + multiset{last};
      InsertByDate(last, front)
  }

  /** filterAndSerializeMetrics: the list handed to the serialiser. Stream.limit refuses
      a negative size, and the serialiser reads the first element of the list. */
  function FilterAndSerializeMetrics(ms: seq<Metric>, start: int, end: int, n: int): (r: Result<seq<Metric>, Failure>)
    ensures n < 0 ==> r == Err(IllegalArgument(NegativeLimit))
    ensures n >= 0 && r.Err? ==> r.error == NoSuchElement
    ensures n >= 0 ==> (r.Err? <==> n == 0 || forall k :: 0 <= k < |ms| ==> !(start <= ms[k].date <= end))
  {
    if n < 0 then Err(IllegalArgument(NegativeLimit))
    else
      CandidatesEmpty(ms, start, end);
      var chosen := Take(SortNewestFirst(InRange(ms, start, end)), n);
      if chosen == [] then Err(NoSuchElement) else Ok(chosen)
  }

  /** There is nothing to sort exactly when no metric lies in the range. */
  lemma CandidatesEmpty(ms: seq<Metric>, start: int, end: int)
    ensures SortNewestFirst(InRange(ms, start, end)) == [] <==> forall k :: 0 <= k < |ms| ==> !(start <= ms[k].date <= end)
  {
    InRangeEmpty(ms, start, end);
  }

  lemma {:induction false} InRangeEmpty(ms: seq<Metric>, start: int, end: int)
    ensures InRange(ms, start, end) == [] <==> forall k :: 0 <= k < |ms| ==> !(start <= ms[k].date <= end)
  {
    if ms != [] {
      var rest := InRange(ms[1..], start, end);
      if start <= ms[0].date <= end {
        assert |InRange(ms, start, end)| == 1 + |rest|;
      } else {
        assert InRange(ms, start, end) == [] + rest == rest;
        InRangeEmpty(ms[1..], start, end);
        assert forall k :: 1 <= k < |ms| ==> ms[k] == ms[1..][k - 1];
      }
    }
  }

  /** What a prefix of a newest-first list keeps: it runs newest first, takes its
      metrics from the list, and what it leaves behind is no newer than its last. */
  lemma PrefixOfNewestFirst(sorted: seq<Metric>, r: seq<Metric>)
    requires NewestFirst(sorted) && 0 < |r| <= |sorted| && r == sorted[..|r|]
    ensures NewestFirst(r)
    ensures multiset(r) <= multiset(sorted)
    ensures forall m :: m in sorted && m !in r ==> m.date <= r[|r| - 1].date
  {
    assert sorted == r + sorted[|r|..];
    forall m | m in sorted && m !in r ensures m.date <= r[|r| - 1].date {
      var i :| 0 <= i < |sorted| && sorted[i] == m;
      assert sorted[|r| - 1] == r[|r| - 1];
    }
  }

  /** The answer has at most n metrics, all dated within the range, newest first. */
  lemma ResponseWithinRange(ms: seq<Metric>, start: int, end: int, n: int)
    requires FilterAndSerializeMetrics(ms, start, end, n).Ok?
    ensures var r := FilterAndSerializeMetrics(ms, start, end, n).value;
      && 0 < |r| <= n
      && (forall k :: 0 <= k < |r| ==> start <= r[k].date <= end)
      && NewestFirst(r)
  {
    var candidates := InRange(ms, start, end);
    var sorted := SortNewestFirst(candidates);
    var r := FilterAndSerializeMetrics(ms, start, end, n).value;
    PrefixOfNewestFirst(sorted, r);
    InRangeCounts(ms, start, end);
    forall k | 0 <= k < |r| ensures start <= r[k].date <= end {
      assert multiset(candidates)[r[k]] > 0;
    }
  }

  /** Every metric of the answer is one of the candidates, counted with multiplicity. */
  lemma ResponseFromCandidates(ms: seq<Metric>, start: int, end: int, n: int)
    requires FilterAndSerializeMetrics(ms, start, end, n).Ok?
    ensures multiset(FilterAndSerializeMetrics(ms, start, end, n).value) <= multiset(ms)
  {
    ResponseIsTake(ms, start, end, n);
    TakeFromCandidates(ms, start, end, n);
  }

  lemma TakeFromCandidates(ms: seq<Metric>, start: int, end: int, n: int)
    ensures multiset(Take(SortNewestFirst(InRange(ms, start, end)), n)) <= multiset(ms)
  {
    var candidates := InRange(ms, start, end);
    var sorted := SortNewestFirst(candidates);
    var r := Take(sorted, n);
    PrefixMultiset(sorted, |r|);
    InRangeWithin(ms, start, end);
    assert multiset(r) <= multiset(sorted) == multiset(candidates) <= multiset(ms);
  }

  lemma InRangeWithin(ms: seq<Metric>, start: int, end: int)
    ensures multiset(InRange(ms, start, end)) <= multiset(ms)
  {
    InRangeCounts(ms, start, end);
  }

  /** A candidate within the range survives the filter. */
  lemma InRangeKeeps(ms: seq<Metric>, start: int, end: int, m: Metric)
    requires m in ms && start <= m.date <= end
    ensures m in InRange(ms, start, end)
  {
    InRangeCounts(ms, start, end);
    assert multiset(ms)[m] > 0;
    assert multiset(InRange(ms, start, end))[m] > 0;
  }

  /** No candidate in range that the answer leaves out is newer than its oldest metric. */
  lemma ResponseKeepsNewest(ms: seq<Metric>, start: int, end: int, n: int)
    requires FilterAndSerializeMetrics(ms, start, end, n).Ok?
    ensures var r := FilterAndSerializeMetrics(ms, start, end, n).value;
      forall m :: m in ms && start <= m.date <= end && m !in r ==> m.date <= r[|r| - 1].date
  {
    ResponseIsTake(ms, start, end, n);
    TakeKeepsNewest(ms, start, end, n);
  }

  lemma ResponseIsTake(ms: seq<Metric>, start: int, end: int, n: int)
    requires FilterAndSerializeMetrics(ms, start, end, n).Ok?
    ensures FilterAndSerializeMetrics(ms, start, end, n).value == Take(SortNewestFirst(InRange(ms, start, end)), n)
  {
  }

  lemma TakeKeepsNewest(ms: seq<Metric>, start: int, end: int, n: int)
    requires Take(SortNewestFirst(InRange(ms, start, end)), n) != []
    ensures var r := Take(SortNewestFirst(InRange(ms, start, end)), n);
      forall m :: m in ms && start <= m.date <= end && m !in r ==> m.date <= r[|r| - 1].date
  {
    var candidates := InRange(ms, start, end);
    var sorted := SortNewestFirst(candidates);
    var r := Take(sorted, n);
    PrefixOfNewestFirst(sorted, r);
    forall m | m in ms && start <= m.date <= end && m !in r ensures m.date <= r[|r| - 1].date {
      InRangeKeeps(ms, start, end, m);
      SortKeeps(candidates, m);
    }
  }

  /** Sorting loses no metric. */
  lemma SortKeeps(s: seq<Metric>, m: Metric)
    requires m in s
    ensures m in SortNewestFirst(s)
  {
    assert m in multiset(s);
  }

  class StockAnalysisService {
    const defaultDaysToAnalyse: Int32
    const maxDaysToAnalyse: Int32
    const store: MetricTable
    const api: FakeApiService
    const periods: Periods
    const sqrt: real -> real

    /** Both services read the same limits, so the source's history length is the
        longest analysis. */
    ghost predicate Valid()
      reads this, store, api
    {
      store.Valid() && api.Valid() && periods.Valid() && api.defaultHistoryPeriod == maxDaysToAnalyse
    }

    constructor (metricRecords: Int32, apiRecords: Int32, store: MetricTable, api: FakeApiService,
                 periods: Periods, sqrt: real -> real)
      requires store.Valid() && api.Valid() && periods.Valid() && api.defaultHistoryPeriod == apiRecords
      ensures defaultDaysToAnalyse == metricRecords && maxDaysToAnalyse == apiRecords
      ensures this.store == store && this.api == api && this.periods == periods && this.sqrt == sqrt
      ensures Valid()
    {
      defaultDaysToAnalyse := metricRecords;
      maxDaysToAnalyse := apiRecords;
      this.store := store;
      this.api := api;
      this.periods := periods;
      this.sqrt := sqrt;
    }

    /** The number of metrics a request asks for. */
    function NumRecordsToReturn(fullOutputSize: bool): (n: Int32)
      ensures fullOutputSize ==> n == maxDaysToAnalyse
      ensures !fullOutputSize ==> n == defaultDaysToAnalyse
    {
      if fullOutputSize then maxDaysToAnalyse else defaultDaysToAnalyse
    }

    /** fetchAndConvertStockRecords: asks the source for `count` records and parses them. */
    method FetchAndConvertStockRecords(symbol: string, count: Int32, today: int, draw: nat -> Quote)
      returns (r: Result<seq<Record>, Failure>)
      requires Valid()
      modifies api
      ensures Valid()
      ensures api.stockData == StoredAfter(old(api.stockData), api.defaultHistoryPeriod, Some(symbol), today, draw)
      ensures r == Fetched(old(api.stockData), api.defaultHistoryPeriod, symbol, count, today, draw)
    {
      var doc := api.GetStockData(Some(symbol), count, today, draw);
      if doc.Err? {
        return Err(doc.error);
      }
      r := Parse(doc.value);
    }

    /** calculateAndUploadStockMetrics: computes the metric of each record in order and
        puts it at once; the first failed put ends the loop, the earlier puts stay. */
    method CalculateAndUploadStockMetrics(records: seq<Record>) returns (r: Result<seq<Metric>, Failure>, ghost uploaded: nat)
      requires Valid()
      modifies store
      ensures Valid()
      ensures uploaded <= |records|
      ensures store.rows == PutAll(old(store.rows), BuildAll(periods, sqrt, records)[..uploaded])
      ensures r.Ok? <==> uploaded == |records|
      ensures r.Ok? ==> r.value == BuildAll(periods, sqrt, records)
      ensures r.Err? ==> r.error == StorageFailure
    {
      ghost var all := BuildAll(periods, sqrt, records);
      var metricsToUpload: seq<Metric> := [];
      var k := 0;
      while k < |records|
        invariant 0 <= k <= |records|
        invariant metricsToUpload == all[..k]
        invariant store.rows == PutAll(old(store.rows), metricsToUpload)
        invariant Valid()
      {
        var built := CalculateMetrics(periods, sqrt, records[k].date, records);
        assert built == Ok(all[k]);
        ghost var before := store.rows;
        var ok := store.PutItem(built.value);
        if !ok {
          return Err(StorageFailure), k;
        }
        PutAllSnoc(old(store.rows), metricsToUpload, built.value);
        PrefixSnoc(all, k);
        metricsToUpload := metricsToUpload + [built.value];
        k := k + 1;
      }
      assert all[..k] == all;
      return Ok(metricsToUpload), k;
    }

    /** The stale path: fetch from the newest cached day (or the longest history) to
        yesterday, then compute and store one metric per fetched record. */
    method Refresh(symbol: string, cached: seq<Metric>, today: int, draw: nat -> Quote)
      returns (r: Result<seq<Metric>, Failure>, ghost uploaded: nat)
      requires Valid()
      modifies store, api
      ensures Valid()
      ensures api.stockData == StoredAfter(old(api.stockData), api.defaultHistoryPeriod, Some(symbol), today, draw)
      ensures var fetched := Fetched(old(api.stockData), api.defaultHistoryPeriod, symbol,
                                     FetchCount(cached, maxDaysToAnalyse, today), today, draw);
        && (fetched.Err? ==> r == Err(Wrapped(fetched.error)) && store.rows == old(store.rows))
        && (fetched.Ok? ==>
              var ms := BuildAll(periods, sqrt, fetched.value);
              && uploaded <= |ms|
              && store.rows == PutAll(old(store.rows), ms[..uploaded])
              && (uploaded < |ms| ==> r == Err(StockAnalysisFailure(StorageFailure)))
              && (uploaded == |ms| ==> r == Ok(ms)))
    {
      var count := FetchCount(cached, maxDaysToAnalyse, today);
      var fetched := FetchAndConvertStockRecords(symbol, count, today, draw);
      if fetched.Err? {
        return Err(Wrapped(fetched.error)), 0;
      }
      var built;
      built, uploaded := CalculateAndUploadStockMetrics(fetched.value);
      if built.Err? {
        return Err(StockAnalysisFailure(built.error)), uploaded;
      }
      r := built;
    }

    /** produceAnalysis. `cached` is what the store's query returned (None when it
        failed) and `uploaded` how many backfilled metrics were stored. */
    method ProduceAnalysis(symbol: string, startDate: Option<DateText>, endDate: Option<DateText>,
                           fullOutputSize: bool, today: int, draw: nat -> Quote)
      returns (r: Result<seq<Metric>, Failure>, ghost cached: Option<seq<Metric>>, ghost uploaded: nat)
      requires Valid()
      modifies store, api
      ensures Valid()
      ensures var n := NumRecordsToReturn(fullOutputSize);
        var range := AnalysisRange(startDate, endDate, n, today);
        && (range.Err? ==> r == Err(range.error) && store.rows == old(store.rows) && api.stockData == old(api.stockData))
        && (range.Ok? && cached.None? ==>
              r == Err(StockAnalysisFailure(StorageFailure)) && store.rows == old(store.rows) && api.stockData == old(api.stockData))
        && (range.Ok? && cached.Some? ==>
              cached.value == Take(RowsBetween(old(store.rows), symbol, GetPastDate(today, n), GetPastDate(today, 1)), n))
        && (range.Ok? && cached.Some? && IsFresh(cached.value, today) ==>
              store.rows == old(store.rows) && api.stockData == old(api.stockData)
              && r == FilterAndSerializeMetrics(cached.value, range.value.startDate, range.value.endDate, n))
        && (range.Ok? && cached.Some? && !IsFresh(cached.value, today) ==>
              var fetched := Fetched(old(api.stockData), api.defaultHistoryPeriod, symbol,
                                     FetchCount(cached.value, maxDaysToAnalyse, today), today, draw);
              && api.stockData == StoredAfter(old(api.stockData), api.defaultHistoryPeriod, Some(symbol), today, draw)
              && (fetched.Err? ==> r == Err(Wrapped(fetched.error)) && store.rows == old(store.rows))
              && (fetched.Ok? ==>
                    var ms := BuildAll(periods, sqrt, fetched.value);
                    && uploaded <= |ms|
                    && store.rows == PutAll(old(store.rows), ms[..uploaded])
                    && (uploaded < |ms| ==> r == Err(StockAnalysisFailure(StorageFailure)))
                    && (uploaded == |ms| ==>
                          r == FilterAndSerializeMetrics(ms, range.value.startDate, range.value.endDate, n))))
    {
      var n := NumRecordsToReturn(fullOutputSize);
      var range := AnalysisRange(startDate, endDate, n, today);
      cached, uploaded := None, 0;
      if range.Err? {
        return Err(range.error), cached, uploaded;
      }
      var response := store.QueryBetween(symbol, GetPastDate(today, n), GetPastDate(today, 1), n);
      if response.Err? {
        return Err(StockAnalysisFailure(response.error)), cached, uploaded;
      }
      cached := Some(response.value);
      var stockAnalysis := response.value;
      if !IsFresh(response.value, today) {
        var computed;
        computed, uploaded := Refresh(symbol, response.value, today, draw);
        if computed.Err? {
          return computed, cached, uploaded;
        }
        stockAnalysis := computed.value;
      }
      r := FilterAndSerializeMetrics(stockAnalysis, range.value.startDate, range.value.endDate, n);
    }
  }
}
