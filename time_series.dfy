/** The JSON document that the upstream source sends and the parser reads, abstracted to
    the parts the core looks at. A document that Jackson cannot read at all is
    `Malformed`; otherwise it has a "Meta Data" object and a "Time Series (Daily)"
    object whose fields, in document order, are dated entries. A field value is the
    number that JsonNode.asDouble reads from it. */
module TimeSeries {
  import opened Results
  import opened Model
  import opened DateUtils

  const InformationField := "1. Information"
  const OpenField := "1. open"
  const HighField := "2. high"
  const LowField := "3. low"
  const CloseField := "4. close"
  const AdjustedCloseField := "5. adjusted close"

  /** The value of one time-series field: an object of named numbers, or some other JSON
      value (a string, a number, an array), on which JsonNode.get(name) yields null. */
  datatype Node = Fields(fields: map<string, real>) | Scalar

  /** One field of the time-series object: its name, read as a date, and its value. */
  datatype Entry = Entry(key: DateText, node: Node)

  /** The "Meta Data" object: "1. Information", "2. Symbol" and "3. Last Refreshed",
      each None when absent. */
  datatype MetaData = MetaData(information: Option<string>, symbol: Option<string>, lastRefreshed: Option<DateText>)

  datatype Document = Document(metaData: MetaData, timeSeries: seq<Entry>) | Malformed

  /** LinkedHashMap.put on the time-series object: a new key goes last, an existing key
      keeps its place and takes the new value. */
  function PutEntry(entries: seq<Entry>, e: Entry): (r: seq<Entry>)
    ensures (forall k :: 0 <= k < |entries| ==> entries[k].key != e.key) ==> r == entries + [e]
    ensures e in r && |entries| <= |r| <= |entries| + 1
  {
    if entries == [] then [e]
    else if entries[0].key == e.key then [e] + entries[1..]
    else [entries[0]] + PutEntry(entries[1..], e)
  }

  /** An existing key keeps its place and takes the new value; the entries around it stay. */
  lemma {:induction false} PutEntryExisting(entries: seq<Entry>, e: Entry, k: nat)
    requires k < |entries| && entries[k].key == e.key
    requires forall j :: 0 <= j < k ==> entries[j].key != e.key
    ensures PutEntry(entries, e) == entries[..k] + [e] + entries[k + 1..]
  {
    if k > 0 {
      assert entries[0].key != e.key;
      var rest := entries[1..];
      forall j | 0 <= j < k - 1 ensures rest[j].key != e.key {
        assert rest[j] == entries[j + 1];
      }
      PutEntryExisting(rest, e, k - 1);
      assert entries[..k] == [entries[0]] + rest[..k - 1];
      assert entries[k + 1..] == rest[k..];
    }
  }
}
