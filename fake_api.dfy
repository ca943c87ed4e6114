/** The in-memory stand-in for the upstream price source (FakeApiService). It keeps one
    ascending price history per upper-cased symbol, generated on first request, and
    answers a request with the last `numRecords` records of that history as a
    time-series document whose entries run newest first. A daily job appends one record,
    dated yesterday, to every stored history. Random prices are arbitrary `Quote`s
    supplied by the caller, and "today" is a parameter. */
module FakeApi {
  import opened Results
  import opened Model
  import opened DateUtils
  import opened TimeSeries
  import opened Sequences
  import opened MetricBuilder

  const Information := "Daily Time Series with Splits and Dividend Events"

  /** The four prices of one generated day; their random derivation is not modelled. */
  datatype Quote = Quote(open: real, high: real, low: real, close: real)

  /** Character.isWhitespace: the Unicode space, line and paragraph separators other
      than the no-break spaces, and the ASCII controls HT, LF, VT, FF, CR and FS..US. */
  predicate IsWhitespace(c: char) {
    c == ' ' || ('\t' <= c <= '\r') || ('\U{1C}' <= c <= '\U{1F}')
    || c == '\U{1680}' || ('\U{2000}' <= c <= '\U{2006}') || ('\U{2008}' <= c <= '\U{200A}')
    || c == '\U{2028}' || c == '\U{2029}' || c == '\U{205F}' || c == '\U{3000}'
  }

  /** String.isBlank: empty or whitespace only. */
  predicate IsBlank(s: string) {
    forall k :: 0 <= k < |s| ==> IsWhitespace(s[k])
  }

  /** toUpperCase(Locale.ENGLISH) on one character, for the ASCII letters. */
  function UpperChar(c: char): (r: char)
    ensures 'a' <= c <= 'z' ==> 'A' <= r <= 'Z' && r as int == c as int - 32
    ensures !('a' <= c <= 'z') ==> r == c
  {
    if 'a' <= c <= 'z' then (c as int - 32) as char else c
  }

  function ToUpper(s: string): (r: string)
    ensures |r| == |s|
    ensures forall k :: 0 <= k < |s| ==> r[k] == UpperChar(s[k])
  {
    seq(|s|, k requires 0 <= k < |s| => UpperChar(s[k]))
  }

  /** Upper-casing an upper-cased symbol changes nothing, so every case variant of a
      symbol names the same stored history. */
  lemma ToUpperIdempotent(s: string)
    ensures ToUpper(ToUpper(s)) == ToUpper(s)
  {
    assert forall k :: 0 <= k < |s| ==> UpperChar(UpperChar(s[k])) == UpperChar(s[k]);
  }

  /** A symbol that is not blank stays not blank once upper-cased. */
  lemma ToUpperKeepsNonBlank(s: string)
    requires !IsBlank(s)
    ensures !IsBlank(ToUpper(s)) && |ToUpper(s)| > 0
  {
    var k :| 0 <= k < |s| && !IsWhitespace(s[k]);
    assert !IsWhitespace(ToUpper(s)[k]);
  }

  /** String.format("%.2f", x): the nearest whole number of hundredths, halves rounded
      away from zero. */
  function FormatCents(x: real): (r: real)
    ensures -0.005 <= r - x <= 0.005
    ensures (r * 100.0).Floor as real == r * 100.0
    ensures x >= 0.0 ==> r == Round2(x)
  {
    if x >= 0.0 then Round2(x)
    else
      var y := Round2(-x);
      var cents := -(y * 100.0).Floor;
      assert (-y) * 100.0 == cents as real;
      assert (cents as real).Floor == cents;
      -y
  }

  /** A price already in whole hundredths is printed as it is. */
  lemma FormatCentsOfCents(x: real)
    requires (x * 100.0).Floor as real == x * 100.0
    ensures FormatCents(x) == x
  {
    if x >= 0.0 {
      Round2OfCents(x);
    } else {
      var m := -(x * 100.0).Floor;
      assert (-x) * 100.0 == m as real;
      assert (m as real).Floor == m;
      Round2OfCents(-x);
      assert FormatCents(x) == -Round2(-x);
    }
  }

  function NewRecord(symbol: string, date: int, q: Quote): (r: Record)
    ensures r.symbol == symbol && r.date == date
  {
    Record(symbol, date, q.open, q.high, q.low, q.close)
  }

  /** The history generateInitialHistory builds: `days` records on consecutive days,
      the last one yesterday; the k-th takes the k-th draw. */
  function InitialHistory(symbol: string, days: int, today: int, draw: nat -> Quote): (h: seq<Record>)
    ensures |h| == if days > 0 then days else 0
    ensures forall k :: 0 <= k < |h| ==> h[k] == NewRecord(symbol, today - days + k, draw(k))
  {
    seq(if days > 0 then days else 0, k requires 0 <= k => NewRecord(symbol, today - days + k, draw(k)))
  }

  ghost predicate StrictlyAscending(h: seq<Record>) {
    forall j, k :: 0 <= j < k < |h| ==> h[j].date < h[k].date
  }

  /** The generated dates run one day apart, ascending, and end yesterday. */
  lemma InitialHistoryDates(symbol: string, days: int, today: int, draw: nat -> Quote)
    ensures var h := InitialHistory(symbol, days, today, draw);
      StrictlyAscending(h)
      && (forall k :: 0 < k < |h| ==> h[k].date == h[k - 1].date + 1)
      && (forall k :: 0 <= k < |h| ==> h[k].symbol == symbol)
      && (days > 0 ==> h[|h| - 1].date == today - 1 && h[0].date == today - days)
  {
  }

  /** The history handed out: the last `numRecords` records when 0 < numRecords < size,
      otherwise all of them. */
  function Slice(history: seq<Record>, numRecords: int): (r: seq<Record>)
    ensures |r| == if 0 < numRecords < |history| then numRecords else |history|
    ensures r == history[|history| - |r|..]
  {
    if 0 < numRecords < |history| then history[|history| - numRecords..] else history
  }

  /** buildMetadataHeader; reading the last record of an empty slice throws. */
  function BuildMetadataHeader(symbol: string, history: seq<Record>): (r: Result<MetaData, Failure>)
    ensures r.Err? <==> |history| == 0
    ensures r.Err? ==> r.error == IndexOutOfBounds
    ensures r.Ok? ==> r.value.symbol == Some(symbol) && r.value.information == Some(Information)
    ensures r.Ok? ==> r.value.lastRefreshed == Some(Iso(history[|history| - 1].date))
  {
    if |history| == 0 then Err(IndexOutOfBounds)
    else Ok(MetaData(Some(Information), Some(symbol), Some(Iso(history[|history| - 1].date))))
  }

  /** buildNewRecord: every price printed to two decimals, the adjusted close equal to
      the close. */
  function EntryOf(p: Record): (e: Entry)
    ensures e.key == Iso(p.date) && e.node.Fields?
    ensures e.node.fields.Keys == {OpenField, HighField, LowField, CloseField, AdjustedCloseField}
    ensures e.node.fields[OpenField] == FormatCents(p.open) && e.node.fields[HighField] == FormatCents(p.high)
    ensures e.node.fields[LowField] == FormatCents(p.low) && e.node.fields[CloseField] == FormatCents(p.close)
    ensures e.node.fields[AdjustedCloseField] == FormatCents(p.close)
  {
    Entry(Iso(p.date), Fields(map[OpenField := FormatCents(p.open), HighField := FormatCents(p.high),
                                  LowField := FormatCents(p.low), CloseField := FormatCents(p.close),
                                  AdjustedCloseField := FormatCents(p.close)]))
  }

  /** The time-series object after putting the records of `rs`, in that order. */
  function PutRecords(rs: seq<Record>): (r: seq<Entry>)
    ensures |r| <= |rs|
  {
    if rs == [] then [] else PutEntry(PutRecords(rs[..|rs| - 1]), EntryOf(rs[|rs| - 1]))
  }

  /** What buildTimeSeries builds: the history's records put newest first. */
  function TimeSeriesOf(history: seq<Record>): (r: seq<Entry>)
    ensures |r| <= |history|
  {
    PutRecords(Reversed(history))
  }

  /** Records with distinct dates are put one entry each, in the order given. */
  lemma {:induction false} PutRecordsDistinct(rs: seq<Record>)
    requires forall j, k :: 0 <= j < k < |rs| ==> rs[j].date != rs[k].date
    ensures PutRecords(rs) == seq(|rs|, k requires 0 <= k < |rs| => EntryOf(rs[k]))
  {
    if rs != [] {
      var front := rs[..|rs| - 1];
      PutRecordsDistinct(front);
      var es := PutRecords(front);
      var e := EntryOf(rs[|rs| - 1]);
      forall k | 0 <= k < |es| ensures es[k].key != e.key {
        assert es[k] == EntryOf(rs[k]);
      }
      assert PutRecords(rs) == es + [e];
      var all := seq(|rs|, k requires 0 <= k < |rs| => EntryOf(rs[k]));
      assert es == all[..|rs| - 1] && e == all[|rs| - 1];
      assert all == all[..|rs| - 1] + [all[|rs| - 1]];
    }
  }

  /** The emitted entries run in descending date order, one per record of the history. */
  lemma TimeSeriesDescending(history: seq<Record>)
    requires StrictlyAscending(history)
    ensures |TimeSeriesOf(history)| == |history|
    ensures forall k :: 0 <= k < |history| ==> TimeSeriesOf(history)[k] == EntryOf(history[|history| - 1 - k])
  {
    PutRecordsDistinct(Reversed(history));
  }

  /** buildTimeSeries: puts the records of the reversed history one by one. */
  method BuildTimeSeries(history: seq<Record>) returns (entries: seq<Entry>)
    ensures entries == TimeSeriesOf(history)
  {
    var newestFirst := Reversed(history);
    entries := [];
    var k := 0;
    while k < |newestFirst|
      invariant 0 <= k <= |newestFirst|
      invariant entries == PutRecords(newestFirst[..k])
    {
      assert newestFirst[..k + 1][..k] == newestFirst[..k];
      entries := PutEntry(entries, EntryOf(newestFirst[k]));
      k := k + 1;
    }
    assert newestFirst[..k] == newestFirst;
  }

  /** The document getStockData answers with for a stored history, or the exception its
      header raises. */
  function Respond(symbol: string, history: seq<Record>, numRecords: int): (r: Result<Document, Failure>)
    ensures r.Err? <==> |history| == 0
    ensures r.Err? ==> r.error == IndexOutOfBounds
    ensures r.Ok? ==> r.value.Document? && r.value.timeSeries == TimeSeriesOf(Slice(history, numRecords))
    ensures r.Ok? ==> r.value.metaData == BuildMetadataHeader(symbol, Slice(history, numRecords)).value
  {
    var slice := Slice(history, numRecords);
    var header := BuildMetadataHeader(symbol, slice);
    if header.Err? then Err(header.error) else Ok(Document(header.value, TimeSeriesOf(slice)))
  }

  /** The stored histories after a request for `symbol`: a new upper-cased symbol gets
      its generated history, anything else leaves the map as it was. */
  function StoredAfter(data: map<string, seq<Record>>, period: int, symbol: Option<string>,
                       today: int, draw: nat -> Quote): (r: map<string, seq<Record>>)
    ensures forall s :: s in data ==> s in r && r[s] == data[s]
    ensures symbol.Some? && !IsBlank(symbol.value) ==> r.Keys == data.Keys + {ToUpper(symbol.value)}
    ensures symbol.None? || IsBlank(symbol.value) ==> r == data
  {
    if symbol.None? || IsBlank(symbol.value) then data
    else
      var key := ToUpper(symbol.value);
      if key in data then data else data[key := InitialHistory(key, period, today, draw)]
  }

  /** The answer to a request for `symbol` against the stored histories `data`. */
  function Answer(data: map<string, seq<Record>>, period: int, symbol: Option<string>, numRecords: int,
                  today: int, draw: nat -> Quote): (r: Result<Document, Failure>)
    ensures r == Err(IllegalArgument(BlankSymbol)) <==> symbol.None? || IsBlank(symbol.value)
    ensures r.Err? && !(symbol.None? || IsBlank(symbol.value)) ==>
      r.error == IndexOutOfBounds && |StoredAfter(data, period, symbol, today, draw)[ToUpper(symbol.value)]| == 0
  {
    if symbol.None? || IsBlank(symbol.value) then Err(IllegalArgument(BlankSymbol))
    else
      var key := ToUpper(symbol.value);
      Respond(key, StoredAfter(data, period, symbol, today, draw)[key], numRecords)
  }

  /** A missing or blank symbol is refused and the histories stay as they were. */
  lemma BlankSymbolRefused(data: map<string, seq<Record>>, period: int, symbol: Option<string>, numRecords: int,
                           today: int, draw: nat -> Quote)
    requires symbol.None? || IsBlank(symbol.value)
    ensures Answer(data, period, symbol, numRecords, today, draw) == Err(IllegalArgument(BlankSymbol))
    ensures StoredAfter(data, period, symbol, today, draw) == data
  {
  }

  /** The first request for a symbol stores exactly `period` records for it (none when
      the period is not positive) and touches no other symbol. */
  lemma FirstRequestStoresHistory(data: map<string, seq<Record>>, period: int, symbol: string, today: int, draw: nat -> Quote)
    requires !IsBlank(symbol) && ToUpper(symbol) !in data
    ensures var after := StoredAfter(data, period, Some(symbol), today, draw);
      after.Keys == data.Keys + {ToUpper(symbol)}
      && |after[ToUpper(symbol)]| == (if period > 0 then period else 0)
      && (forall s :: s in data ==> after[s] == data[s])
  {
  }

  /** A later request, on any day and with any draws, reuses the stored history: the
      histories do not change and the answer is the same. */
  lemma RequestsAreRepeatable(data: map<string, seq<Record>>, period: int, symbol: Option<string>, numRecords: int,
                              today1: int, draw1: nat -> Quote, today2: int, draw2: nat -> Quote)
    ensures var after := StoredAfter(data, period, symbol, today1, draw1);
      StoredAfter(after, period, symbol, today2, draw2) == after
      && Answer(after, period, symbol, numRecords, today2, draw2) == Answer(data, period, symbol, numRecords, today1, draw1)
  {
  }

  /** Symbols that differ only in the case of their letters share one history and one
      answer. */
  lemma CaseVariantsShareHistory(data: map<string, seq<Record>>, period: int, a: string, b: string, numRecords: int,
                                 today: int, draw: nat -> Quote)
    requires !IsBlank(a) && ToUpper(a) == ToUpper(b)
    ensures StoredAfter(data, period, Some(a), today, draw) == StoredAfter(data, period, Some(b), today, draw)
    ensures Answer(data, period, Some(a), numRecords, today, draw) == Answer(data, period, Some(b), numRecords, today, draw)
  {
    var k :| 0 <= k < |a| && !IsWhitespace(a[k]);
    assert UpperChar(a[k]) == UpperChar(b[k]);
  }

  /** The daily job's record keeps a history ascending, and so within reach of the round
      trip, when its date (yesterday) is later than the history's last date. The job runs
      at midnight UTC but reads "yesterday" in the JVM's zone, so the date can repeat one
      already stored; then the history is no longer strictly ascending. */
  lemma AppendKeepsAscending(history: seq<Record>, symbol: string, today: int, q: Quote)
    requires StrictlyAscending(history)
    ensures var extended := history + [NewRecord(symbol, today - 1, q)];
      StrictlyAscending(extended) <==> |history| == 0 || history[|history| - 1].date < today - 1
  {
    var extended := history + [NewRecord(symbol, today - 1, q)];
    if |history| > 0 && history[|history| - 1].date < today - 1 {
      forall j, k | 0 <= j < k < |extended| ensures extended[j].date < extended[k].date {
        if k == |history| {
          assert extended[j] == history[j];
          assert j == |history| - 1 || history[j].date < history[|history| - 1].date;
        } else {
          assert extended[j] == history[j] && extended[k] == history[k];
        }
      }
    } else if |history| > 0 {
      assert extended[|history| - 1] == history[|history| - 1];
      assert extended[|history| - 1].date >= extended[|history|].date;
    }
  }

  class FakeApiService {
    const defaultHistoryPeriod: Int32
    var stockData: map<string, seq<Record>>

    /** Every history is generated with the same length and only ever grows, so either
        all are empty (a non-positive period) or none is; the records of a history carry
        its symbol. */
    ghost predicate Valid()
      reads this
    {
      forall s :: s in stockData ==>
        (|stockData[s]| > 0 <==> defaultHistoryPeriod > 0)
        && forall k :: 0 <= k < |stockData[s]| ==> stockData[s][k].symbol == s
    }

    constructor (apiRecords: Int32)
      ensures defaultHistoryPeriod == apiRecords && stockData == map[]
      ensures Valid()
    {
      defaultHistoryPeriod := apiRecords;
      stockData := map[];
    }

    /** generateInitialHistory: counts i down from days - 1 to 0, dating each record
        i + 1 days before today. */
    static method GenerateInitialHistory(symbol: string, days: int, today: int, draw: nat -> Quote)
      returns (history: seq<Record>)
      ensures history == InitialHistory(symbol, days, today, draw)
    {
      history := [];
      var i := days - 1;
      while i >= 0
        invariant days <= 0 ==> i == days - 1 && history == []
        invariant days > 0 ==> -1 <= i <= days - 1 && |history| == days - 1 - i
        invariant forall k :: 0 <= k < |history| ==> history[k] == NewRecord(symbol, today - days + k, draw(k))
      {
        history := history + [NewRecord(symbol, today - (i + 1), draw(days - 1 - i))];
        i := i - 1;
      }
    }

    /** getStockData: rejects a missing or blank symbol, upper-cases it, generates and
        stores its history on first use, and answers with the last `numRecords` records
        newest first. */
    method GetStockData(symbol: Option<string>, numRecords: Int32, today: int, draw: nat -> Quote)
      returns (r: Result<Document, Failure>)
      requires Valid()
      modifies this
      ensures Valid()
      ensures stockData == StoredAfter(old(stockData), defaultHistoryPeriod, symbol, today, draw)
      ensures r == Answer(old(stockData), defaultHistoryPeriod, symbol, numRecords, today, draw)
    {
      if symbol.None? || IsBlank(symbol.value) {
        return Err(IllegalArgument(BlankSymbol));
      }
      var key := ToUpper(symbol.value);
      var history := StoredHistory(key, today, draw);
      r := BuildResponse(key, history, numRecords);
    }

    /** The stored history of an upper-cased symbol, generated and stored on first use. */
    method StoredHistory(key: string, today: int, draw: nat -> Quote) returns (history: seq<Record>)
      requires Valid()
      modifies this
      ensures Valid()
      ensures key in old(stockData) ==> stockData == old(stockData)
      ensures key !in old(stockData) ==>
        stockData == old(stockData)[key := InitialHistory(key, defaultHistoryPeriod, today, draw)]
      ensures key in stockData && history == stockData[key]
    {
      if key in stockData {
        history := stockData[key];
      } else {
        history := GenerateInitialHistory(key, defaultHistoryPeriod, today, draw);
        stockData := stockData[key := history];
      }
    }

    /** The response for a stored history: the slice's header, then its time series. */
    static method BuildResponse(key: string, history: seq<Record>, numRecords: Int32) returns (r: Result<Document, Failure>)
      ensures r == Respond(key, history, numRecords)
    {
      var slice := Slice(history, numRecords);
      var header := BuildMetadataHeader(key, slice);
      if header.Err? {
        return Err(header.error);
      }
      var series := BuildTimeSeries(slice);
      r := Ok(Document(header.value, series));
    }

    /** addNewDailyRecord: appends one record dated yesterday to every stored history;
        reading the last close of an empty history throws before anything changes. */
    method AddNewDailyRecord(today: int, next: string -> Quote) returns (r: Result<(), Failure>)
      requires Valid()
      modifies this
      ensures Valid()
      ensures r.Err? <==> old(stockData) != map[] && defaultHistoryPeriod <= 0
      ensures r.Err? ==> r.error == IndexOutOfBounds && stockData == old(stockData)
      ensures r.Ok? ==> stockData.Keys == old(stockData).Keys
      ensures r.Ok? ==> forall s :: s in stockData ==>
        stockData[s] == old(stockData)[s] + [NewRecord(s, today - 1, next(s))]
    {
      var pending := stockData.Keys;
      ghost var done: set<string> := {};
      while pending != {}
        invariant pending + done == old(stockData).Keys && pending !! done
        invariant stockData.Keys == old(stockData).Keys
        invariant forall s :: s in pending ==> stockData[s] == old(stockData)[s]
        invariant forall s :: s in done ==> stockData[s] == old(stockData)[s] + [NewRecord(s, today - 1, next(s))]
        invariant done != {} ==> defaultHistoryPeriod > 0
        invariant Valid()
        decreases pending
      {
        var s :| s in pending;
        var history := stockData[s];
        if |history| == 0 {
          assert done == {};
          assert pending == old(stockData).Keys;
          assert stockData == old(stockData);
          return Err(IndexOutOfBounds);
        }
        assert defaultHistoryPeriod > 0;
        var extended := history + [NewRecord(s, today - 1, next(s))];
        assert forall k :: 0 <= k < |extended| ==> extended[k].symbol == s;
        stockData := stockData[s := extended];
        pending := pending - {s};
        done := done + {s};
      }
      if old(stockData) != map[] {
        var s :| s in old(stockData);
        assert |stockData[s]| > 0;
      }
      return Ok(());
    }
  }

  /** Two requests for the same symbol, even on different days and with different
      draws, answer with the same document. */
  method RepeatedCallsAgree(api: FakeApiService, symbol: string, numRecords: Int32,
                            today1: int, draw1: nat -> Quote, today2: int, draw2: nat -> Quote)
    returns (first: Result<Document, Failure>, second: Result<Document, Failure>)
    requires api.Valid()
    modifies api
    ensures first == second
  {
    first := api.GetStockData(Some(symbol), numRecords, today1, draw1);
    second := api.GetStockData(Some(symbol), numRecords, today2, draw2);
  }
}
