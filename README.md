# StockInfoApi core, modelled in Dafny

StockInfoApi is a Spring service that answers "give me the daily metrics of stock X
between two dates". This project models its core:

- **DateUtils** validates a requested date range against a window. A missing date takes
  the window's bound. It also counts the days between two dates (narrowed to a Java
  `int`) and names the date "n days ago".
- **MetricBuilderService** turns the record of one day into a metric record. The record
  is found by date in a history ordered oldest first. The metrics are the rounded close;
  the change from the previous close; a P-day moving average; the V-day population
  volatility of the daily returns; and the M-day momentum. A metric is null exactly when
  its trailing window does not fit before the record.
- **FakeApiService** is the in-memory stand-in for the upstream price source. It keeps
  one history per upper-cased symbol, generated on first request, and answers with the
  last `numRecords` records as a time-series document, newest first. A daily job appends
  one record, dated yesterday, to every history.
- **StockRecordsParser** reads such a document back into records. It keeps document
  order, then reverses it so that the newest record is last.
- **StockAnalysisService** ties these together. It validates the range and reads the
  cached metrics of the last N days. If the cache does not reach yesterday, it fetches the
  days from its newest cached row through yesterday from the source, computes and stores
  one metric per fetched record (overwriting the newest cached row), and answers from those. The answer keeps the metrics within the range, newest first, at
  most N of them.

Modelling choices:

- Dates are day numbers, counted from 1970-01-01 as `LocalDate.toEpochDay` counts them.
- The clock (`LocalDate.now()`) is the parameter `today`.
- Prices are real numbers.
- `Math.sqrt` is a function parameter. The statements about concrete values assume it is
  a square root (`IsSqrt`).
- The random draws of the fake source are caller-supplied `Quote`s.
- The metric cache (the `StockMetrics` table behind `DynamoClient`) is a class holding a
  map from (symbol, date) to metric. Each of its calls may fail.
- Each Java exception is a constructor of `Failure`. `StockAnalysisService` wraps the
  exceptions named in its `catch` at line 117: storage, parser and metric builder (the
  JSON-writer ones are not modelled). The other runtime exceptions (IllegalArgumentException,
  IndexOutOfBoundsException, DateTimeParseException, NoSuchElementException) pass through.

Files, one module each, in dependency order:

- `results.dfy`: `Results`, `Sequences`.
- `model.dfy`: `Model`.
- `date_utils.dfy`: `DateUtils`.
- `metric_builder.dfy`: `MetricBuilder`.
- `time_series.dfy`: `TimeSeries`.
- `records_parser.dfy`: `StockRecordsParser`.
- `fake_api.dfy`: `FakeApi`.
- `round_trip.dfy`: `ApiRoundTrip`. What the analysis service gets back from the source.
- `metric_store.dfy`: `MetricStore`.
- `stock_analysis.dfy`: `StockAnalysis`.
- `fixtures.dfy`: `Fixtures`. The repository's unit-test cases, as lemmas about the model.

Where the code and its tests or design disagree, the model follows the code:

- `MetricBuilderServiceTest.java` lines 42-43 expect a volatility of 0.01 and a momentum
  of 10.37 for its fixture. That is, they expect percentages. The code does not scale, so
  for the fixture it yields 0.0 and 0.1. `Fixtures.LastTestDayMetrics` states the values
  the code yields.
- On a stale cache the service fetches only the days from its newest cached row to
  yesterday, plus one. It does not fetch the extra records that a full metric window
  would need. It answers from the newly computed metrics alone; the cached rows are not
  merged in. `StockAnalysis.ShortFetchHasNoWindows` states the consequence: a refresh of a
  cache one day behind recomputes its rows with null windowed metrics.

## Model

Paths are relative to the repository root.

| member | source | states |
|---|---|---|
| Model.ToInt32 | src/main/java/com/github/jaycleverly/stock_info/util/DateUtils.java:56 | the `(int)` narrowing leaves a value in int range unchanged and always agrees with its argument modulo 2^32 |
| DateUtils.VerifyDateRange | src/main/java/com/github/jaycleverly/stock_info/util/DateUtils.java:23-46 | after defaulting a null start to the minimum and a null end to the maximum, the range is accepted exactly when min <= start <= end <= max; the accepted range is the defaulted pair; start-too-early, end-too-late and start-after-end are each reported exactly in their case, checked in that order |
| DateUtils.EpochDayAnchors | src/test/java/com/github/jaycleverly/stock_info/utils/DateUtilsTest.java:16-17 | the day numbering that names the fixtures' dates starts at 1970-01-01 and gives 365 and 366 days to the years around year 0, as the proleptic Gregorian calendar does |
| DateUtils.VerifyDateRangeIdempotent | src/main/java/com/github/jaycleverly/stock_info/util/DateUtils.java:23-46 | validating an accepted range again against the same bounds accepts it unchanged |
| DateUtils.DefaultRangeIsBounds | src/main/java/com/github/jaycleverly/stock_info/util/DateUtils.java:27-29 | with neither date given the answer is the whole allowed window if it is ordered, else a start-after-end error |
| DateUtils.CalculateNumDaysBetweenDates | src/main/java/com/github/jaycleverly/stock_info/util/DateUtils.java:55-57 | within int range, start plus the result is the end; beyond it the result is the true difference modulo 2^32 |
| DateUtils.DaysBetweenAdditive | src/main/java/com/github/jaycleverly/stock_info/util/DateUtils.java:55-57 | for spans that fit in an int, day differences add along a chain a, b, c and change sign when swapped |
| DateUtils.GetPastDate | src/main/java/com/github/jaycleverly/stock_info/util/DateUtils.java:65-67 | the day count from the returned date to today is the requested number of days |
| DateUtils.ConvertToDate | src/main/java/com/github/jaycleverly/stock_info/util/DateUtils.java:76-82 | null gives null; the call fails exactly on unparsable text, always with the date-format IllegalArgumentException; ISO text gives its day |
| Sequences.Reversed | src/main/java/com/github/jaycleverly/stock_info/parser/StockRecordsParser.java:38 | same length, and element k is element n-1-k of the input |
| Sequences.Take | src/main/java/com/github/jaycleverly/stock_info/service/StockAnalysisService.java:182 | a prefix of the list whose length is min(n, size), or 0 for n <= 0 |
| MetricBuilder.Round2 | src/main/java/com/github/jaycleverly/stock_info/service/MetricBuilderService.java:114 | `Math.round(x * 100) / 100`, the nearest whole number of hundredths with halves up; a non-negative value stays non-negative (its bounds are `Round2Bounds`) |
| MetricBuilder.Round2Bounds | src/main/java/com/github/jaycleverly/stock_info/service/MetricBuilderService.java:111-115 | the rounded value is a whole number of hundredths, at most half a hundredth above x and less than half a hundredth below it (halves round up) |
| MetricBuilder.Round2Dp | src/main/java/com/github/jaycleverly/stock_info/service/MetricBuilderService.java:111-115 | null in, null out, and only then |
| MetricBuilder.Round2OfCents | src/main/java/com/github/jaycleverly/stock_info/service/MetricBuilderService.java:114 | a whole number of hundredths is left unchanged |
| MetricBuilder.Round2Idempotent | src/main/java/com/github/jaycleverly/stock_info/service/MetricBuilderService.java:114 | rounding twice is rounding once |
| MetricBuilder.IndexOfDate | src/main/java/com/github/jaycleverly/stock_info/service/MetricBuilderService.java:44-47 | the index found carries the date and no earlier record does; nothing is found exactly when no record carries the date |
| MetricBuilder.IndexOfAscending | src/main/java/com/github/jaycleverly/stock_info/service/MetricBuilderService.java:64 | in a history with strictly increasing dates, looking up the date of record i finds index i |
| MetricBuilder.Metrics | src/main/java/com/github/jaycleverly/stock_info/service/MetricBuilderService.java:42-61 | fails exactly when no record carries the date, with a MetricBuilderException for that date; otherwise the metric is dated with the target date |
| MetricBuilder.MetricsCloseField | src/main/java/com/github/jaycleverly/stock_info/service/MetricBuilderService.java:49-50 | the symbol is the found record's and the close is its close rounded to hundredths |
| MetricBuilder.ChangeFromPreviousClose | src/main/java/com/github/jaycleverly/stock_info/service/MetricBuilderService.java:63-70 | null exactly at index 0; otherwise the previous close plus the change is the close |
| MetricBuilder.MovingAverage | src/main/java/com/github/jaycleverly/stock_info/service/MetricBuilderService.java:72-83 | null exactly when the index is below P - 1; otherwise P times the average is the sum of the P closes ending at the index |
| MetricBuilder.Volatility | src/main/java/com/github/jaycleverly/stock_info/service/MetricBuilderService.java:85-99 | null exactly when the index is below V, the test `index > V - 1` of line 88; otherwise sqrt of the population variance of the V returns ending at the index (`CalculateVolatility` ties the loop to it) |
| MetricBuilder.Momentum | src/main/java/com/github/jaycleverly/stock_info/service/MetricBuilderService.java:101-109 | null exactly when the index is below M; otherwise, for a non-zero historical close h, h * (1 + momentum) is the close |
| MetricBuilder.PreviousCloseChangeField | src/main/java/com/github/jaycleverly/stock_info/service/MetricBuilderService.java:63-70 | the change is null exactly for the first record, and otherwise the rounded difference from the record before |
| MetricBuilder.MovingAverageField | src/main/java/com/github/jaycleverly/stock_info/service/MetricBuilderService.java:72-83 | the average is null exactly when index < P - 1, and otherwise the rounded mean of the P closes ending at the record |
| MetricBuilder.VolatilityField | src/main/java/com/github/jaycleverly/stock_info/service/MetricBuilderService.java:85-99 | the volatility is null exactly when index <= V - 1, and otherwise the rounded square root of the population variance of the V daily returns ending at the record |
| MetricBuilder.MomentumField | src/main/java/com/github/jaycleverly/stock_info/service/MetricBuilderService.java:101-109 | the momentum is null exactly when index < M, and otherwise the rounded relative change from the close M records earlier |
| MetricBuilder.CalculateMovingAverage | src/main/java/com/github/jaycleverly/stock_info/service/MetricBuilderService.java:72-83 | the summing loop yields the mean of the P-close window, and null exactly when the window does not fit |
| MetricBuilder.CalculateVolatility | src/main/java/com/github/jaycleverly/stock_info/service/MetricBuilderService.java:85-99 | the loop collects exactly the V daily returns of the V + 1 closes ending at the record; the result is null exactly when index <= V - 1 |
| MetricBuilder.CalculateMetrics | src/main/java/com/github/jaycleverly/stock_info/service/MetricBuilderService.java:42-61 | the method builds the metric record specified by `Metrics`, and fails exactly when the date is absent |
| TimeSeries.PutEntry | src/main/java/com/github/jaycleverly/stock_info/service/FakeApiService.java:137 | as in a LinkedHashMap, an entry under a new key is appended after all others; the put entry is always present, and the map grows by at most one entry |
| TimeSeries.PutEntryExisting | src/main/java/com/github/jaycleverly/stock_info/service/FakeApiService.java:137 | as in a LinkedHashMap, putting an existing key keeps its position, replaces its value and leaves every other entry where it was |
| StockRecordsParser.SymbolText | src/main/java/com/github/jaycleverly/stock_info/parser/StockRecordsParser.java:29 | the symbol text, or the empty string when the node is missing |
| StockRecordsParser.ToRecord | src/main/java/com/github/jaycleverly/stock_info/parser/StockRecordsParser.java:45-54 | succeeds exactly when open, high, low and close are all present, copying them with the given symbol and date; otherwise a ParserException for a missing field |
| StockRecordsParser.ParseEntry | src/main/java/com/github/jaycleverly/stock_info/parser/StockRecordsParser.java:34 | an unparsable date key raises DateTimeParseException, which the parser does not wrap; otherwise the entry's record |
| StockRecordsParser.ParseEntries | src/main/java/com/github/jaycleverly/stock_info/parser/StockRecordsParser.java:32-35 | succeeds exactly when every entry does, with one record per entry in document order |
| StockRecordsParser.ParseEntriesFirstFailure | src/main/java/com/github/jaycleverly/stock_info/parser/StockRecordsParser.java:33-35 | the first failing entry decides the failure; later entries are not looked at |
| StockRecordsParser.Parsed | src/main/java/com/github/jaycleverly/stock_info/parser/StockRecordsParser.java:40-42 | a document Jackson cannot read is a ParserException |
| StockRecordsParser.Parse | src/main/java/com/github/jaycleverly/stock_info/parser/StockRecordsParser.java:26-43 | the collecting loop followed by the reversal returns exactly `Parsed` of the document, including its failures |
| StockRecordsParser.ParsedReversesEntries | src/main/java/com/github/jaycleverly/stock_info/parser/StockRecordsParser.java:37-38 | a parsed document has one record per entry, and record k comes from entry n-1-k |
| StockRecordsParser.ParsedKeepsSymbolAndDates | src/main/java/com/github/jaycleverly/stock_info/parser/StockRecordsParser.java:29-34 | every record carries the document's symbol and the date of its entry |
| StockRecordsParser.ParsedFailsIffBadEntry | src/main/java/com/github/jaycleverly/stock_info/parser/StockRecordsParser.java:26-43 | parsing fails exactly when the document is unreadable or some entry has an unparsable date or lacks a price |
| FakeApi.IsWhitespace | src/main/java/com/github/jaycleverly/stock_info/service/FakeApiService.java:54 | `Character.isWhitespace`: the space, HT to CR, FS to US, and the Unicode space, line and paragraph separators other than the no-break spaces |
| FakeApi.IsBlank | src/main/java/com/github/jaycleverly/stock_info/service/FakeApiService.java:54 | `String.isBlank`: every character is whitespace, so the empty symbol is blank |
| FakeApi.UpperChar | src/main/java/com/github/jaycleverly/stock_info/service/FakeApiService.java:57 | a lower-case ASCII letter becomes its capital, 32 code points lower; every other character is kept |
| FakeApi.ToUpper | src/main/java/com/github/jaycleverly/stock_info/service/FakeApiService.java:57 | the same length, each character upper-cased as `UpperChar` says |
| FakeApi.ToUpperIdempotent | src/main/java/com/github/jaycleverly/stock_info/service/FakeApiService.java:57 | upper-casing an upper-cased symbol changes nothing |
| FakeApi.ToUpperKeepsNonBlank | src/main/java/com/github/jaycleverly/stock_info/service/FakeApiService.java:54-57 | a symbol that passed the blank check is still non-blank and non-empty after upper-casing |
| FakeApi.FormatCents | src/main/java/com/github/jaycleverly/stock_info/service/FakeApiService.java:154-156 | the printed price is a whole number of hundredths within half a hundredth of the price; for non-negative prices it agrees with the metric rounding |
| FakeApi.FormatCentsOfCents | src/main/java/com/github/jaycleverly/stock_info/service/FakeApiService.java:154-156 | a price already in whole hundredths is printed as it is |
| FakeApi.NewRecord | src/main/java/com/github/jaycleverly/stock_info/service/FakeApiService.java:114-122 | the generated record carries the given symbol and date, with the drawn prices |
| FakeApi.InitialHistory | src/main/java/com/github/jaycleverly/stock_info/service/FakeApiService.java:97-107 | `days` records (none when days <= 0); record k is dated today - days + k and carries the k-th draw |
| FakeApi.InitialHistoryDates | src/main/java/com/github/jaycleverly/stock_info/service/FakeApiService.java:101-105 | generated dates strictly increase one day at a time, run from today - days to yesterday, and carry the symbol |
| FakeApi.Slice | src/main/java/com/github/jaycleverly/stock_info/service/FakeApiService.java:65-68 | the last numRecords records when 0 < numRecords < size, and otherwise the whole history |
| FakeApi.BuildMetadataHeader | src/main/java/com/github/jaycleverly/stock_info/service/FakeApiService.java:124-131 | fails with an index error exactly on an empty slice; otherwise it names the information text, the symbol and the last record's date |
| FakeApi.EntryOf | src/main/java/com/github/jaycleverly/stock_info/service/FakeApiService.java:142-152 | an entry keyed by the record's date with exactly the five price fields, each printed to hundredths, and the adjusted close equal to the close |
| FakeApi.PutRecords | src/main/java/com/github/jaycleverly/stock_info/service/FakeApiService.java:133-140 | the LinkedHashMap after putting the records one by one; it never holds more entries than records were put (`PutRecordsDistinct` gives the exact list) |
| FakeApi.TimeSeriesOf | src/main/java/com/github/jaycleverly/stock_info/service/FakeApiService.java:133-140 | the history put newest first, at most one entry per record (`TimeSeriesDescending` gives the exact list) |
| FakeApi.PutRecordsDistinct | src/main/java/com/github/jaycleverly/stock_info/service/FakeApiService.java:133-139 | putting records with distinct dates yields one entry per record, in the order put |
| FakeApi.TimeSeriesDescending | src/main/java/com/github/jaycleverly/stock_info/service/FakeApiService.java:135-138 | for an ascending history the time series has one entry per record, newest first |
| FakeApi.BuildTimeSeries | src/main/java/com/github/jaycleverly/stock_info/service/FakeApiService.java:133-140 | the put loop over the reversed history yields the reference time series |
| FakeApi.Respond | src/main/java/com/github/jaycleverly/stock_info/service/FakeApiService.java:65-79 | fails exactly on an empty history; otherwise the header and time series of the slice |
| FakeApi.StoredAfter | src/main/java/com/github/jaycleverly/stock_info/service/FakeApiService.java:59-63 | every history already stored is kept as it was; a valid symbol adds exactly its upper-cased key; a null or blank symbol leaves the map unchanged |
| FakeApi.Answer | src/main/java/com/github/jaycleverly/stock_info/service/FakeApiService.java:53-80 | the blank-symbol IllegalArgumentException exactly for a null or blank symbol; any other failure is the index error of an empty stored history |
| FakeApi.BlankSymbolRefused | src/main/java/com/github/jaycleverly/stock_info/service/FakeApiService.java:54-56 | a null or blank symbol is an IllegalArgumentException and stores nothing |
| FakeApi.FirstRequestStoresHistory | src/main/java/com/github/jaycleverly/stock_info/service/FakeApiService.java:59-63 | a first request adds exactly one key, with `period` records, and leaves the other histories as they were |
| FakeApi.RequestsAreRepeatable | src/main/java/com/github/jaycleverly/stock_info/service/FakeApiService.java:59-63 | after a request, repeating it on any day with any draws changes no history and gives the same answer |
| FakeApi.CaseVariantsShareHistory | src/main/java/com/github/jaycleverly/stock_info/service/FakeApiService.java:57-63 | symbols equal up to letter case store and answer identically |
| FakeApi.FakeApiService.constructor | src/main/java/com/github/jaycleverly/stock_info/service/FakeApiService.java:40-43 | the history length is apiRecords and no history is stored |
| FakeApi.FakeApiService.GenerateInitialHistory | src/main/java/com/github/jaycleverly/stock_info/service/FakeApiService.java:97-107 | the count-down loop builds exactly `InitialHistory` |
| FakeApi.FakeApiService.GetStockData | src/main/java/com/github/jaycleverly/stock_info/service/FakeApiService.java:53-80 | the new histories are `StoredAfter` of the old ones and the answer is `Answer` on the old ones; every history keeps its symbol, and either all histories are empty or none is |
| FakeApi.FakeApiService.StoredHistory | src/main/java/com/github/jaycleverly/stock_info/service/FakeApiService.java:59-63 | returns the stored history; an unknown symbol first gets its generated history, and nothing else changes |
| FakeApi.FakeApiService.BuildResponse | src/main/java/com/github/jaycleverly/stock_info/service/FakeApiService.java:70-75 | yields `Respond` of the history |
| FakeApi.FakeApiService.AddNewDailyRecord | src/main/java/com/github/jaycleverly/stock_info/service/FakeApiService.java:85-95 | fails exactly when histories are stored but the configured length is not positive (so every history is empty), and then changes nothing; otherwise every history gains one record dated yesterday, and the set of symbols stays the same |
| FakeApi.AppendKeepsAscending | src/main/java/com/github/jaycleverly/stock_info/service/FakeApiService.java:85-93 | the daily record keeps an ascending history ascending exactly when yesterday is later than the history's last date |
| FakeApi.RepeatedCallsAgree | src/test/java/com/github/jaycleverly/stock_info/service/FakeApiServiceTest.java:35-43 | two requests for one symbol answer identically, even on different days with different draws |
| ApiRoundTrip.EntryParsesBack | src/main/java/com/github/jaycleverly/stock_info/parser/StockRecordsParser.java:45-54 | an emitted entry parses back to its record with every price printed to hundredths |
| ApiRoundTrip.SliceAscending | src/main/java/com/github/jaycleverly/stock_info/service/FakeApiService.java:65-68 | a slice of an ascending history is ascending |
| ApiRoundTrip.EntriesParseNewestFirst | src/main/java/com/github/jaycleverly/stock_info/parser/StockRecordsParser.java:33-35 | the entries of an ascending slice parse, in document order, to its records newest first |
| ApiRoundTrip.SliceParsesBack | src/main/java/com/github/jaycleverly/stock_info/parser/StockRecordsParser.java:26-43 | reversing the parsed time series of an ascending slice gives the slice back, oldest first |
| ApiRoundTrip.ResponseParsesToSlice | src/main/java/com/github/jaycleverly/stock_info/service/StockAnalysisService.java:146-154 | parsing the source's answer for a non-empty ascending history yields the requested slice, oldest first, under the symbol sent, with prices printed to hundredths |
| ApiRoundTrip.TransmittedOfCents | src/main/java/com/github/jaycleverly/stock_info/service/FakeApiService.java:144-147 | a record already in whole hundredths and under its own symbol arrives unchanged |
| ApiRoundTrip.ResponseParsesToSliceExactly | src/main/java/com/github/jaycleverly/stock_info/service/StockAnalysisService.java:149 | for prices already in hundredths and the history's own symbol, the parsed records are exactly the slice |
| MetricStore.RowsBetween | src/main/java/com/github/jaycleverly/stock_info/service/StockAnalysisService.java:125-144 | the rows returned are the symbol's rows dated lo..hi, strictly ascending, each as stored, every such stored row included, and no more of them than days spanned |
| MetricStore.PutAll | src/main/java/com/github/jaycleverly/stock_info/client/DynamoClient.java:36-45 | the table after a run of `putItem` calls: its keys are the old keys plus each put metric's key, and a table whose rows sit under their own keys stays so |
| MetricStore.PutAllElsewhere | src/main/java/com/github/jaycleverly/stock_info/client/DynamoClient.java:36-45 | puts leave every key they do not name as it was |
| MetricStore.PutAllOverwrites | src/main/java/com/github/jaycleverly/stock_info/client/DynamoClient.java:36-45 | tables that agree away from the keys put are equal after the puts |
| MetricStore.PutAllIdempotent | src/main/java/com/github/jaycleverly/stock_info/service/StockAnalysisService.java:156-172 | storing the same metrics a second time changes nothing |
| MetricStore.PutAllSnoc | src/main/java/com/github/jaycleverly/stock_info/service/StockAnalysisService.java:159-162 | one more put extends a run of puts by one upsert |
| MetricStore.QueryLimitInert | src/main/java/com/github/jaycleverly/stock_info/service/StockAnalysisService.java:86-91 | a row limit equal to the days spanned never cuts a range query short |
| MetricStore.MetricTable.constructor | src/main/java/com/github/jaycleverly/stock_info/client/DynamoClient.java:25-27 | a table with no rows |
| MetricStore.MetricTable.PutItem | src/main/java/com/github/jaycleverly/stock_info/client/DynamoClient.java:36-45 | on success the metric replaces whatever was under its key; on failure nothing changes; rows stay under their own keys |
| MetricStore.MetricTable.QueryBetween | src/main/java/com/github/jaycleverly/stock_info/client/DynamoClient.java:74-88 | on success at most `limit` of the symbol's rows in the range, oldest first; otherwise a storage failure |
| StockAnalysis.AnalysisRange | src/main/java/com/github/jaycleverly/stock_info/service/StockAnalysisService.java:77-81 | every failure is an IllegalArgumentException, and bad start text is reported first; an accepted range lies within [today - n, yesterday], so n >= 1; the start defaults to today - n and the end to yesterday |
| StockAnalysis.IsFresh | src/main/java/com/github/jaycleverly/stock_info/service/StockAnalysisService.java:97 | true exactly when the cache is non-empty and its newest row is dated yesterday or later, the negation of the test at line 97 (definition only) |
| StockAnalysis.FetchCount | src/main/java/com/github/jaycleverly/stock_info/service/StockAnalysisService.java:101-104 | the day count from the newest cached row, or from `maxDays` days ago, to yesterday, plus one, in int arithmetic; `FetchCountEmptyCache` and `FetchCountAfterGap` state its value |
| StockAnalysis.FetchCountEmptyCache | src/main/java/com/github/jaycleverly/stock_info/service/StockAnalysisService.java:100-104 | with nothing cached the fetch asks for the whole configured history |
| StockAnalysis.FetchCountAfterGap | src/main/java/com/github/jaycleverly/stock_info/service/StockAnalysisService.java:104 | otherwise the fetch covers the newest cached day through yesterday, both included |
| StockAnalysis.Wrapped | src/main/java/com/github/jaycleverly/stock_info/service/StockAnalysisService.java:117-122 | the storage, parser and metric-builder failures named in the `catch` are wrapped in a StockAnalysisException; IllegalArgumentException, IndexOutOfBoundsException, DateTimeParseException and NoSuchElementException pass through unwrapped |
| StockAnalysis.Fetched | src/main/java/com/github/jaycleverly/stock_info/service/StockAnalysisService.java:146-154 | a blank symbol is the IllegalArgumentException, and a valid symbol with an empty stored history is the index error; otherwise the parsed answer (`ResponseParsesToSlice`) |
| StockAnalysis.EmptyCacheFetchesGeneratedHistory | src/main/java/com/github/jaycleverly/stock_info/service/StockAnalysisService.java:100-106 | on an empty cache and an unseen symbol, the fetch returns the whole generated history oldest first, its last day yesterday |
| StockAnalysis.BuildAll | src/main/java/com/github/jaycleverly/stock_info/service/StockAnalysisService.java:159-161 | one metric per fetched record, each the metric the builder gives for that record's date against the whole list |
| StockAnalysis.BuildAllFollowsRecords | src/main/java/com/github/jaycleverly/stock_info/service/StockAnalysisService.java:159-161 | for ascending records, metric k has record k's symbol, date and rounded close, and each windowed field is present exactly when its window fits before k |
| StockAnalysis.ShortFetchHasNoWindows | src/main/java/com/github/jaycleverly/stock_info/service/StockAnalysisService.java:104-107 | when fewer records are fetched than a window needs, that metric is null on every computed row |
| StockAnalysis.InRange | src/main/java/com/github/jaycleverly/stock_info/service/StockAnalysisService.java:180 | never longer than its input; `InRangeCounts` states that it keeps exactly the metrics within the range, each as often as it occurs |
| StockAnalysis.InRangeCounts | src/main/java/com/github/jaycleverly/stock_info/service/StockAnalysisService.java:180 | the filter keeps each in-range metric as often as it occurs, and nothing else |
| StockAnalysis.InsertByDate | src/main/java/com/github/jaycleverly/stock_info/service/StockAnalysisService.java:181 | inserting into a newest-first list keeps it newest first and one longer |
| StockAnalysis.InsertByDatePermutes | src/main/java/com/github/jaycleverly/stock_info/service/StockAnalysisService.java:181 | insertion adds the metric and loses nothing |
| StockAnalysis.SortNewestFirst | src/main/java/com/github/jaycleverly/stock_info/service/StockAnalysisService.java:181 | the sort is newest first and a permutation of its input |
| StockAnalysis.FilterAndSerializeMetrics | src/main/java/com/github/jaycleverly/stock_info/service/StockAnalysisService.java:174-191 | a negative limit is refused; otherwise it fails (the serialiser's `getFirst`) exactly when the limit is 0 or no metric lies in the range |
| StockAnalysis.InRangeEmpty | src/main/java/com/github/jaycleverly/stock_info/service/StockAnalysisService.java:180 | the filter yields nothing exactly when no metric lies in the range |
| StockAnalysis.CandidatesEmpty | src/main/java/com/github/jaycleverly/stock_info/service/StockAnalysisService.java:179-181 | there is nothing to sort exactly when no metric lies in the range |
| StockAnalysis.ResponseWithinRange | src/main/java/com/github/jaycleverly/stock_info/service/StockAnalysisService.java:179-183 | the answer holds between 1 and n metrics, all within the range, newest first |
| StockAnalysis.ResponseFromCandidates | src/main/java/com/github/jaycleverly/stock_info/service/StockAnalysisService.java:179-183 | every answered metric comes from the input, counted with multiplicity |
| StockAnalysis.InRangeKeeps | src/main/java/com/github/jaycleverly/stock_info/service/StockAnalysisService.java:180 | a metric within the range survives the filter |
| StockAnalysis.ResponseKeepsNewest | src/main/java/com/github/jaycleverly/stock_info/service/StockAnalysisService.java:181-182 | no in-range metric that the limit cut off is newer than the oldest answered metric |
| StockAnalysis.StockAnalysisService.constructor | src/main/java/com/github/jaycleverly/stock_info/service/StockAnalysisService.java:52-61 | the default and maximum days are metricRecords and apiRecords, with the given store, source and periods |
| StockAnalysis.StockAnalysisService.NumRecordsToReturn | src/main/java/com/github/jaycleverly/stock_info/service/StockAnalysisService.java:77 | the full output size asks for the maximum days, the compact one for the default |
| StockAnalysis.StockAnalysisService.FetchAndConvertStockRecords | src/main/java/com/github/jaycleverly/stock_info/service/StockAnalysisService.java:146-154 | the result is the source's answer, parsed; the source's histories change as `StoredAfter` says |
| StockAnalysis.StockAnalysisService.CalculateAndUploadStockMetrics | src/main/java/com/github/jaycleverly/stock_info/service/StockAnalysisService.java:156-172 | the table ends as the old one with a prefix of the metrics put in order; it succeeds exactly when every put did, returning all the metrics, and otherwise fails with a storage failure |
| StockAnalysis.StockAnalysisService.Refresh | src/main/java/com/github/jaycleverly/stock_info/service/StockAnalysisService.java:97-110 | a failed fetch is reported wrapped and stores nothing; otherwise a prefix of the computed metrics is stored, and the result is all of them or, after a failed put, a wrapped storage failure |
| StockAnalysis.StockAnalysisService.ProduceAnalysis | src/main/java/com/github/jaycleverly/stock_info/service/StockAnalysisService.java:73-123 | a bad range is reported unwrapped and touches nothing; a fresh cache is answered from the cached rows without fetching or storing; a stale one is refreshed as `Refresh` says and answered from the new metrics; the answer is the filtered, newest-first, limited list |
| Fixtures.LastTestDayMetrics | src/test/java/com/github/jaycleverly/stock_info/service/MetricBuilderServiceTest.java:33-44 | for the 50-day fixture on 2025-02-19: close 149, change 1.0, average 134.5, volatility 0.0 and momentum 0.1 (the code's values; the test expects 0.01 and 10.37) |
| Fixtures.FirstTestDayMetrics | src/test/java/com/github/jaycleverly/stock_info/service/MetricBuilderServiceTest.java:46-57 | on the first day: close 100 and every derived field null |
| Fixtures.MissingTestDay | src/test/java/com/github/jaycleverly/stock_info/service/MetricBuilderServiceTest.java:59-67 | a date outside the history is a MetricBuilderException |
| Fixtures.DateRangeAccepted | src/test/java/com/github/jaycleverly/stock_info/utils/DateUtilsTest.java:19-34 | a range inside the window is returned as given, and null dates take the window's bounds |
| Fixtures.DateRangeRefused | src/test/java/com/github/jaycleverly/stock_info/utils/DateUtilsTest.java:36-61 | the three refused ranges give the three errors, with their dates |
| Fixtures.DaysInAugust | src/test/java/com/github/jaycleverly/stock_info/utils/DateUtilsTest.java:63-66 | 2025-08-01 to 2025-09-01 is 31 days |
| Fixtures.DateConversions | src/test/java/com/github/jaycleverly/stock_info/utils/DateUtilsTest.java:73-87 | an ISO date converts to its day, null to null, and malformed text to the format error |
| Fixtures.TwoRecordDocument | src/test/java/com/github/jaycleverly/stock_info/parser/StockRecordParserTest.java:49-85 | the two-day document parses to two records, the newest (2025-08-27) last |
| Fixtures.IncompleteEntry | src/test/java/com/github/jaycleverly/stock_info/parser/StockRecordParserTest.java:116-139 | an entry lacking the low price is a ParserException |
| Fixtures.UnreadableDocument | src/test/java/com/github/jaycleverly/stock_info/parser/StockRecordParserTest.java:87-114 | a document that is not valid JSON is a ParserException |
| Fixtures.FirstRequestHistoryLength | src/test/java/com/github/jaycleverly/stock_info/service/FakeApiServiceTest.java:45-66 | a first request for 50 records of a 100-day history answers with 50 entries, last refreshed yesterday |
| Fixtures.BlankSymbolCase | src/test/java/com/github/jaycleverly/stock_info/service/FakeApiServiceTest.java:68-75 | the empty symbol is refused |

## Left out

- Floating point: prices and metrics are exact reals, not IEEE doubles. Rounding error in sums and divisions is not modelled.
- `Math.sqrt` is a parameter. `Math.pow(x, 2)` is taken as x * x.
- Division by a zero close yields 0 in the model (`Ratio`). Java yields an infinity or NaN there.
- Window periods are required to be at least 1; non-positive periods are outside the model. With P <= 0 the Java loop for the moving average runs zero times, so the average is 0.0 / P. That is NaN or -0.0, and `Math.round` turns either into 0.0. With V <= 0 the list of returns is empty, so the variance is 0.0 / 0 = NaN and the rounded volatility is 0.0. With M = 0 the momentum compares a close with itself and is 0.0. A negative M reads a later record, or throws past the end of the list; the catch turns that into a MetricBuilderException.
- The random prices and volumes of the fake source are caller-supplied draws. The volume field is not modelled: neither the parser nor the metrics read it.
- `toUpperCase(Locale.ENGLISH)` is modelled for the ASCII letters only.
- `String.format("%.2f")` is taken as rounding half away from zero, with a '.' decimal separator. `asDouble` on the printed text is taken to read that number back exactly.
- JSON text is left out. Documents are abstract values (`TimeSeries.Document`): the Jackson reader, the writer and its `JsonProcessingException` (`FakeApiException`) are not modelled. The response serialiser is modelled only by its failure on an empty list. The answer is the list it would serialise. `FakeApiException` and `SerializerException`, which the catch at StockAnalysisService.java line 117 also wraps, therefore never arise in the model.
- A `TimeSeries.Document` may repeat a date key; a tree that Jackson's `readTree` builds never does, since an object's field names are unique. The parser lemmas (`ParsedReversesEntries`, `ParsedFailsIffBadEntry`) hold for all documents, including these.
- The date grammar of `LocalDate.parse` is not modelled. A date text is either an ISO day or unparsable.
- The DynamoDB wire protocol is left out. The table is a map with nondeterministic failure. The service passes a row limit to a `query` whose declared signature takes none, and the model takes the limited form.
- The store's sort keys are strings. The model compares them as day numbers, which matches ISO text for years 0000-9999.
- The controller's upper-casing of the symbol (`StockMetricsController.java`) is outside the core. The service therefore queries the store under the symbol as given.
- FakeApi.FakeApiService.AddNewDailyRecord: the job fires at midnight UTC but reads "yesterday" in the JVM's own zone. The model takes `today` as given. When that date is already stored, the history stops being strictly ascending (`AppendKeepsAscending`). The time series then keeps one entry for the date, holding the newer record (`PutEntryExisting`), so the round-trip lemmas no longer apply.
- Logging, the Spring scheduler that runs `addNewDailyRecord`, threading and the HTTP layer are not modelled. `LocalDate.now()` is the parameter `today`.
- `StockApiResponseParser`, `TimeSeriesApiClient`, `MetricFormatterService` and the dto classes are not part of this model.
- MetricBuilder.Round2Dp: its own contract says only when the result is null. The rounding itself is stated by `Round2Bounds`.
- StockAnalysis.FetchCountAfterGap: stated only for gaps shorter than 2^31 - 1 days. Longer gaps wrap as `ToInt32` says.
