/** The metric cache (the StockMetrics table behind DynamoClient), modelled as a map from
    the partition and sort keys (symbol, date) to the stored metric. A put is an upsert; a
    query returns the rows of one symbol between two dates, ascending by date, at most
    `limit` of them. Either call may fail, as a call to the remote table can. */
module MetricStore {
  import opened Results
  import opened Model
  import opened Sequences

  /** Every row is stored under its own key. */
  ghost predicate Keyed(rows: map<(string, int), Metric>) {
    forall key :: key in rows ==> KeyOf(rows[key]) == key
  }

  /** The rows of `symbol` dated lo..hi, oldest first. */
  function RowsBetween(rows: map<(string, int), Metric>, symbol: string, lo: int, hi: int): (r: seq<Metric>)
    requires Keyed(rows)
    ensures |r| <= if hi < lo then 0 else hi - lo + 1
    ensures forall k :: 0 <= k < |r| ==> r[k].symbol == symbol && lo <= r[k].date <= hi && KeyOf(r[k]) in rows && rows[KeyOf(r[k])] == r[k]
    ensures forall j, k :: 0 <= j < k < |r| ==> r[j].date < r[k].date
    ensures forall d :: lo <= d <= hi && (symbol, d) in rows ==> rows[(symbol, d)] in r
    decreases hi - lo
  {
    if hi < lo then []
    else
      var front := RowsBetween(rows, symbol, lo, hi - 1);
      if (symbol, hi) in rows then front + [rows[(symbol, hi)]] else front
  }

  /** The rows after putting `ms` one by one, in order. */
  function PutAll(rows: map<(string, int), Metric>, ms: seq<Metric>): (r: map<(string, int), Metric>)
    ensures Keyed(rows) ==> Keyed(r)
    ensures r.Keys == rows.Keys + (set k | 0 <= k < |ms| :: KeyOf(ms[k]))
    decreases |ms|
  {
    if ms == [] then rows else PutAll(rows[KeyOf(ms[0]) := ms[0]], ms[1..])
  }

  /** The keys that a sequence of puts writes. */
  function KeysOf(ms: seq<Metric>): set<(string, int)> {
    set k | 0 <= k < |ms| :: KeyOf(ms[k])
  }

  lemma KeysOfCons(ms: seq<Metric>)
    requires ms != []
    ensures KeysOf(ms) == {KeyOf(ms[0])} + KeysOf(ms[1..])
  {
    forall x | x in KeysOf(ms) ensures x in {KeyOf(ms[0])} + KeysOf(ms[1..]) {
      var k :| 0 <= k < |ms| && KeyOf(ms[k]) == x;
      if k > 0 {
        assert KeyOf(ms[1..][k - 1]) == x;
      }
    }
    forall x | x in KeysOf(ms[1..]) ensures x in KeysOf(ms) {
      var k :| 0 <= k < |ms[1..]| && KeyOf(ms[1..][k]) == x;
      assert KeyOf(ms[k + 1]) == x;
    }
  }

  /** Puts touch only their own keys. */
  lemma {:induction false} PutAllElsewhere(rows: map<(string, int), Metric>, ms: seq<Metric>, key: (string, int))
    requires key !in KeysOf(ms)
    ensures key in PutAll(rows, ms) <==> key in rows
    ensures key in rows ==> PutAll(rows, ms)[key] == rows[key]
    decreases |ms|
  {
    if ms != [] {
      KeysOfCons(ms);
      PutAllElsewhere(rows[KeyOf(ms[0]) := ms[0]], ms[1..], key);
    }
  }

  /** Two tables that agree away from the keys of `ms` are equal once `ms` is put. */
  lemma {:induction false} PutAllOverwrites(a: map<(string, int), Metric>, b: map<(string, int), Metric>, ms: seq<Metric>)
    requires forall key :: key !in KeysOf(ms) ==> (key in a <==> key in b)
    requires forall key :: key !in KeysOf(ms) && key in a ==> a[key] == b[key]
    ensures PutAll(a, ms) == PutAll(b, ms)
    decreases |ms|
  {
    if ms == [] {
      assert a == b;
    } else {
      KeysOfCons(ms);
      PutAllOverwrites(a[KeyOf(ms[0]) := ms[0]], b[KeyOf(ms[0]) := ms[0]], ms[1..]);
    }
  }

  /** Re-running a backfill changes nothing: putting the same metrics twice is putting
      them once. */
  lemma PutAllIdempotent(rows: map<(string, int), Metric>, ms: seq<Metric>)
    ensures PutAll(PutAll(rows, ms), ms) == PutAll(rows, ms)
  {
    forall key | key !in KeysOf(ms)
      ensures key in PutAll(rows, ms) <==> key in rows
      ensures key in rows ==> PutAll(rows, ms)[key] == rows[key]
    {
      PutAllElsewhere(rows, ms, key);
    }
    PutAllOverwrites(PutAll(rows, ms), rows, ms);
  }

  /** Extending a run of puts by one more put. */
  lemma {:induction false} PutAllSnoc(rows: map<(string, int), Metric>, ms: seq<Metric>, m: Metric)
    ensures PutAll(rows, ms + [m]) == PutAll(rows, ms)[KeyOf(m) := m]
    decreases |ms|
  {
    if ms == [] {
      assert [] + [m] == [m];
      assert [m][1..] == [];
    } else {
      assert (ms + [m])[1..] == ms[1..] + [m];
      PutAllSnoc(rows[KeyOf(ms[0]) := ms[0]], ms[1..], m);
    }
  }

  /** A query never yields more rows than the days it spans, so a limit equal to the
      number of days never cuts a query short. */
  lemma QueryLimitInert(rows: map<(string, int), Metric>, symbol: string, lo: int, hi: int)
    requires Keyed(rows) && lo <= hi
    ensures Take(RowsBetween(rows, symbol, lo, hi), hi - lo + 1) == RowsBetween(rows, symbol, lo, hi)
  {
  }

  class MetricTable {
    var rows: map<(string, int), Metric>

    ghost predicate Valid()
      reads this
    {
      Keyed(rows)
    }

    constructor ()
      ensures rows == map[] && Valid()
    {
      rows := map[];
    }

    /** putItem: stores `m` under its key, replacing any row there, or fails and changes
        nothing. */
    method PutItem(m: Metric) returns (ok: bool)
      requires Valid()
      modifies this
      ensures Valid()
      ensures ok ==> rows == old(rows)[KeyOf(m) := m]
      ensures !ok ==> rows == old(rows)
    {
      ok := *;
      if ok {
        rows := rows[KeyOf(m) := m];
      }
    }

    /** query with a sortBetween condition and a row limit. */
    method QueryBetween(symbol: string, lo: int, hi: int, limit: int) returns (r: Result<seq<Metric>, Failure>)
      requires Valid()
      ensures r.Ok? ==> r.value == Take(RowsBetween(rows, symbol, lo, hi), limit)
      ensures r.Err? ==> r.error == StorageFailure
    {
      var ok: bool := *;
      if ok {
        r := Ok(Take(RowsBetween(rows, symbol, lo, hi), limit));
      } else {
        r := Err(StorageFailure);
      }
    }
  }
}
