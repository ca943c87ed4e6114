/** The conversion of a time-series document into daily records (StockRecordsParser).
    Every field of the time-series object becomes one record, in document order, and the
    list is then reversed so that the most recent record (the first field of a
    newest-first document) ends up last. */
module StockRecordsParser {
  import opened Results
  import opened Model
  import opened DateUtils
  import opened TimeSeries
  import opened Sequences

  /** `asText` on the "2. Symbol" node: the text, or "" where the node is missing. */
  function SymbolText(symbol: Option<string>): (r: string)
    ensures symbol.Some? ==> r == symbol.value
    ensures symbol.None? ==> r == ""
  {
    symbol.GetOr("")
  }

  /** The four price fields that every entry must carry. */
  predicate HasPrices(node: Node) {
    node.Fields? && OpenField in node.fields && HighField in node.fields
    && LowField in node.fields && CloseField in node.fields
  }

  /** toRecord: the four prices of an entry; a missing one (or a value that is not an
      object) is the NullPointerException of `get(name).asDouble()`. */
  function ToRecord(symbol: string, date: int, node: Node): (r: Result<Record, Failure>)
    ensures r.Ok? <==> HasPrices(node)
    ensures r.Err? ==> r.error == ParserFailure(MissingField)
    ensures r.Ok? ==> r.value.symbol == symbol && r.value.date == date
    ensures r.Ok? ==> r.value.open == node.fields[OpenField] && r.value.high == node.fields[HighField]
    ensures r.Ok? ==> r.value.low == node.fields[LowField] && r.value.close == node.fields[CloseField]
  {
    if HasPrices(node) then
      Ok(Record(symbol, date, node.fields[OpenField], node.fields[HighField],
                node.fields[LowField], node.fields[CloseField]))
    else
      Err(ParserFailure(MissingField))
  }

  /** One entry: the date is parsed first (its DateTimeParseException is not caught by
      the parser), then the prices. */
  function ParseEntry(symbol: string, e: Entry): (r: Result<Record, Failure>)
    ensures e.key.Unparsable? ==> r == Err(DateTimeParse)
    ensures e.key.Iso? ==> r == ToRecord(symbol, e.key.day, e.node)
  {
    match e.key
    case Unparsable(_) => Err(DateTimeParse)
    case Iso(day) => ToRecord(symbol, day, e.node)
  }

  /** The records of the entries in document order; the first entry that fails decides
      the failure. */
  function ParseEntries(symbol: string, entries: seq<Entry>): (r: Result<seq<Record>, Failure>)
    ensures r.Ok? <==> forall k :: 0 <= k < |entries| ==> ParseEntry(symbol, entries[k]).Ok?
    ensures r.Ok? ==> |r.value| == |entries|
    ensures r.Ok? ==> forall k :: 0 <= k < |entries| ==> r.value[k] == ParseEntry(symbol, entries[k]).value
  {
    if entries == [] then Ok([])
    else
      var front := ParseEntries(symbol, entries[..|entries| - 1]);
      if front.Err? then Err(front.error)
      else
        var last := ParseEntry(symbol, entries[|entries| - 1]);
        if last.Err? then Err(last.error) else Ok(front.value + [last.value])
  }

  /** The first entry that fails decides the error: the ones before it parse, and what
      comes after it is not looked at. */
  lemma {:induction false} ParseEntriesFirstFailure(symbol: string, entries: seq<Entry>, k: nat)
    requires k < |entries|
    requires ParseEntries(symbol, entries[..k]).Ok? && ParseEntry(symbol, entries[k]).Err?
    ensures ParseEntries(symbol, entries) == Err(ParseEntry(symbol, entries[k]).error)
  {
    var front := entries[..|entries| - 1];
    if k == |entries| - 1 {
      assert front == entries[..k];
    } else {
      assert front[..k] == entries[..k] && front[k] == entries[k];
      ParseEntriesFirstFailure(symbol, front, k);
    }
  }

  /** What `parse` returns for a document. */
  function Parsed(doc: Document): (r: Result<seq<Record>, Failure>)
    ensures doc.Malformed? ==> r == Err(ParserFailure(Unreadable))
  {
    if doc.Malformed? then Err(ParserFailure(Unreadable))
    else
      var inOrder := ParseEntries(SymbolText(doc.metaData.symbol), doc.timeSeries);
      if inOrder.Err? then Err(inOrder.error) else Ok(Reversed(inOrder.value))
  }

  /** parse: collects the records while walking the time-series fields, then reverses them. */
  method Parse(doc: Document) returns (r: Result<seq<Record>, Failure>)
    ensures r == Parsed(doc)
  {
    if doc.Malformed? {
      return Err(ParserFailure(Unreadable));
    }
    var symbol := SymbolText(doc.metaData.symbol);
    var entries := doc.timeSeries;
    var records: seq<Record> := [];
    var k := 0;
    while k < |entries|
      invariant 0 <= k <= |entries|
      invariant ParseEntries(symbol, entries[..k]) == Ok(records)
    {
      assert entries[..k + 1][..k] == entries[..k];
      var rec := ParseEntry(symbol, entries[k]);
      if rec.Err? {
        ParseEntriesFirstFailure(symbol, entries, k);
        return Err(rec.error);
      }
      records := records + [rec.value];
      k := k + 1;
    }
    assert entries[..k] == entries;
    return Ok(Reversed(records));
  }

  /** One record per time-series entry, the most recent (first) entry last. */
  lemma ParsedReversesEntries(doc: Document)
    requires Parsed(doc).Ok?
    ensures doc.Document?
    ensures |Parsed(doc).value| == |doc.timeSeries|
    ensures forall k :: 0 <= k < |doc.timeSeries| ==>
      Parsed(doc).value[k] == ParseEntry(SymbolText(doc.metaData.symbol), doc.timeSeries[|doc.timeSeries| - 1 - k]).value
  {
  }

  /** Every parsed record carries the document's symbol and the date of its entry. */
  lemma ParsedKeepsSymbolAndDates(doc: Document)
    requires Parsed(doc).Ok?
    ensures doc.Document?
    ensures forall k :: 0 <= k < |doc.timeSeries| ==>
      var e := doc.timeSeries[|doc.timeSeries| - 1 - k];
      e.key.Iso? && Parsed(doc).value[k].date == e.key.day
      && Parsed(doc).value[k].symbol == SymbolText(doc.metaData.symbol)
  {
  }

  /** The parser fails exactly when the document is unreadable or some entry has an
      unreadable date or a missing price; fields other than the four prices are ignored. */
  lemma ParsedFailsIffBadEntry(doc: Document)
    ensures Parsed(doc).Err? <==>
      doc.Malformed? ||
      exists k :: 0 <= k < |doc.timeSeries| && (doc.timeSeries[k].key.Unparsable? || !HasPrices(doc.timeSeries[k].node))
  {
    if doc.Document? {
      var symbol := SymbolText(doc.metaData.symbol);
      if exists k :: 0 <= k < |doc.timeSeries| && (doc.timeSeries[k].key.Unparsable? || !HasPrices(doc.timeSeries[k].node)) {
        var k :| 0 <= k < |doc.timeSeries| && (doc.timeSeries[k].key.Unparsable? || !HasPrices(doc.timeSeries[k].node));
        assert ParseEntry(symbol, doc.timeSeries[k]).Err?;
      }
    }
  }
}
