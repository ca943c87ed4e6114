/** What the analysis service receives when it parses the fake source's answer: the
    slice itself, oldest first, with every price as printed to two decimals. */
module ApiRoundTrip {
  import opened Results
  import opened Model
  import opened DateUtils
  import opened TimeSeries
  import opened Sequences
  import opened StockRecordsParser
  import opened FakeApi

  /** One record as it reads back after the trip through "%.2f" and asDouble. */
  function Transmitted(symbol: string, p: Record): (r: Record)
    ensures r.symbol == symbol && r.date == p.date
  {
    Record(symbol, p.date, FormatCents(p.open), FormatCents(p.high), FormatCents(p.low), FormatCents(p.close))
  }

  /** One emitted entry reads back as the record with its prices printed. */
  lemma EntryParsesBack(symbol: string, p: Record)
    ensures ParseEntry(symbol, EntryOf(p)) == Ok(Transmitted(symbol, p))
  {
    var e := EntryOf(p);
    assert HasPrices(e.node);
  }

  /** A slice of an ascending history is ascending. */
  lemma SliceAscending(history: seq<Record>, numRecords: int)
    requires StrictlyAscending(history)
    ensures StrictlyAscending(Slice(history, numRecords))
  {
    var slice := Slice(history, numRecords);
    var a := |history| - |slice|;
    assert slice == history[a..];
    forall j, k | 0 <= j < k < |slice| ensures slice[j].date < slice[k].date {
      assert history[a + j].date < history[a + k].date;
    }
  }

  /** The entries of an ascending slice, read in document order, are its records
      newest first. */
  lemma EntriesParseNewestFirst(symbol: string, slice: seq<Record>)
    requires StrictlyAscending(slice)
    ensures ParseEntries(symbol, TimeSeriesOf(slice)).Ok?
    ensures |ParseEntries(symbol, TimeSeriesOf(slice)).value| == |slice|
    ensures forall k :: 0 <= k < |slice| ==>
      ParseEntries(symbol, TimeSeriesOf(slice)).value[k] == Transmitted(symbol, slice[|slice| - 1 - k])
  {
    TimeSeriesDescending(slice);
    var ts := TimeSeriesOf(slice);
    forall k | 0 <= k < |ts| ensures ParseEntry(symbol, ts[k]) == Ok(Transmitted(symbol, slice[|slice| - 1 - k])) {
      EntryParsesBack(symbol, slice[|slice| - 1 - k]);
    }
  }

  /** Emitting a slice newest first and parsing it back yields the slice in its own
      ascending order, one record per day. */
  lemma ResponseParsesToSlice(symbol: string, history: seq<Record>, numRecords: int)
    requires StrictlyAscending(history) && |history| > 0
    ensures Respond(symbol, history, numRecords).Ok?
    ensures var slice := Slice(history, numRecords);
      Parsed(Respond(symbol, history, numRecords).value)
        == Ok(seq(|slice|, k requires 0 <= k < |slice| => Transmitted(symbol, slice[k])))
  {
    var slice := Slice(history, numRecords);
    SliceAscending(history, numRecords);
    var doc := Respond(symbol, history, numRecords).value;
    assert SymbolText(doc.metaData.symbol) == symbol;
    assert doc.timeSeries == TimeSeriesOf(slice);
    SliceParsesBack(symbol, slice);
  }

  /** The time series of an ascending slice parses, and reversed gives the slice back. */
  lemma SliceParsesBack(symbol: string, slice: seq<Record>)
    requires StrictlyAscending(slice)
    ensures var inOrder := ParseEntries(symbol, TimeSeriesOf(slice));
      inOrder.Ok? && Reversed(inOrder.value) == seq(|slice|, k requires 0 <= k < |slice| => Transmitted(symbol, slice[k]))
  {
    EntriesParseNewestFirst(symbol, slice);
    var inOrder := ParseEntries(symbol, TimeSeriesOf(slice)).value;
    var expected := seq(|slice|, k requires 0 <= k < |slice| => Transmitted(symbol, slice[k]));
    forall k | 0 <= k < |slice| ensures Reversed(inOrder)[k] == expected[k] {
      assert inOrder[|slice| - 1 - k] == Transmitted(symbol, slice[k]);
    }
  }

  /** A record already in whole hundredths and under its own symbol arrives unchanged. */
  lemma TransmittedOfCents(symbol: string, p: Record)
    requires p.symbol == symbol && InCents(p)
    ensures Transmitted(symbol, p) == p
  {
    FormatCentsOfCents(p.open);
    FormatCentsOfCents(p.high);
    FormatCentsOfCents(p.low);
    FormatCentsOfCents(p.close);
  }

  /** With prices already in whole hundredths and the symbol the history's own, the
      parsed records are exactly the slice. */
  lemma ResponseParsesToSliceExactly(symbol: string, history: seq<Record>, numRecords: int)
    requires StrictlyAscending(history) && |history| > 0
    requires forall k :: 0 <= k < |history| ==> history[k].symbol == symbol && InCents(history[k])
    ensures Respond(symbol, history, numRecords).Ok?
    ensures Parsed(Respond(symbol, history, numRecords).value) == Ok(Slice(history, numRecords))
  {
    ResponseParsesToSlice(symbol, history, numRecords);
    var slice := Slice(history, numRecords);
    forall k | 0 <= k < |slice| ensures Transmitted(symbol, slice[k]) == slice[k] {
      var p := history[|history| - |slice| + k];
      assert slice[k] == p;
      TransmittedOfCents(symbol, p);
    }
    assert seq(|slice|, k requires 0 <= k < |slice| => Transmitted(symbol, slice[k])) == slice;
  }

  /** All four prices of a record are whole numbers of hundredths. */
  predicate InCents(p: Record) {
    (p.open * 100.0).Floor as real == p.open * 100.0 && (p.high * 100.0).Floor as real == p.high * 100.0
    && (p.low * 100.0).Floor as real == p.low * 100.0 && (p.close * 100.0).Floor as real == p.close * 100.0
  }
}
