/**
 * The hourly aggregator: group the minute candles by (ticker, hour), aggregate each group
 * into an OHLCV row, order the rows by timestamp and upsert them into `hour_candles`.
 * With no minute candles the INSERT has no rows, which the database refuses.
 */
module HourCandleBackfill {
  import opened Wrappers
  import opened Candles
  import opened Aggregation

  /** `date_trunc('hour', timestamp)`. */
  function HourStart(t: int): (h: int)
    ensures h <= t < h + HOUR
  {
    Trunc(t, HOUR)
  }

  /** The rows of the aggregation query, `ORDER BY timestamp`. */
  function HourRows(candles: seq<Candle>): (rows: seq<Candle>)
    ensures SortedByTime(rows)
    ensures multiset(rows) == multiset(GroupBy(candles, HourStart))
  {
    SortByTime(GroupBy(candles, HourStart))
  }

  /** The error of `VALUES %L` with no rows, a syntax error the database refuses. */
  const EMPTY_INSERT: string := "INSERT INTO hour_candles with no rows"

  /**
   * `hour_candles` after the script has run over the `candles` table, or the refused INSERT
   * when there is no row to insert.
   */
  function GetAndStore(candles: seq<Candle>, table: map<(string, int), Candle>): Result<map<(string, int), Candle>>
  {
    var rows := HourRows(candles);
    if rows == [] then Err(EMPTY_INSERT) else Ok(Upsert(table, rows))
  }

  /** The run fails exactly when the `candles` table is empty. */
  lemma GetAndStoreFails(candles: seq<Candle>, table: map<(string, int), Candle>)
    ensures GetAndStore(candles, table).Err? <==> candles == []
    ensures GetAndStore(candles, table).Err? ==> GetAndStore(candles, table).error == EMPTY_INSERT
  {
    if candles != [] {
      GetAndStoreCovers(candles, table, candles[0]);
    } else {
      GroupByOneRowPerGroup(candles, HourStart);
      assert multiset(HourRows(candles)) == multiset{};
    }
  }

  /** Each ticker has at most one row per hour. */
  lemma HourRowsDistinct(candles: seq<Candle>)
    ensures DistinctKeys(HourRows(candles))
  {
    GroupByOneRowPerGroup(candles, HourStart);
    SortKeepsDistinctKeys(GroupBy(candles, HourStart));
  }

  /** After the run, every aggregated row is stored under its (ticker, hour) key. */
  lemma GetAndStoreHolds(candles: seq<Candle>, table: map<(string, int), Candle>, r: Candle)
    requires r in GroupBy(candles, HourStart)
    ensures GetAndStore(candles, table).Ok?
    ensures Key(r) in GetAndStore(candles, table).value && GetAndStore(candles, table).value[Key(r)] == r
  {
    var rows := HourRows(candles);
    HourRowsDistinct(candles);
    PermutationMember(GroupBy(candles, HourStart), rows, r);
    UpsertMember(table, rows, r);
    assert rows != [];
  }

  lemma UpsertMember(table: map<(string, int), Candle>, rows: seq<Candle>, r: Candle)
    requires DistinctKeys(rows) && r in rows
    ensures Key(r) in Upsert(table, rows) && Upsert(table, rows)[Key(r)] == r
  {
    var i :| 0 <= i < |rows| && rows[i] == r;
    UpsertHolds(table, rows, i);
  }

  lemma PermutationMember<T>(a: seq<T>, b: seq<T>, x: T)
    requires x in a && multiset(a) == multiset(b)
    ensures x in b
  {
    assert x in multiset(a);
  }

  /** Every (ticker, hour) that holds a minute candle gets its hour row. */
  lemma GetAndStoreCovers(candles: seq<Candle>, table: map<(string, int), Candle>, c: Candle)
    requires c in candles
    ensures GetAndStore(candles, table).Ok? && (c.ticker, HourStart(c.timestamp)) in GetAndStore(candles, table).value
  {
    GroupByOneRowPerGroup(candles, HourStart);
    var out := GroupBy(candles, HourStart);
    var i :| 0 <= i < |out| && Key(out[i]) == GroupOf(c, HourStart);
    GetAndStoreHolds(candles, table, out[i]);
  }

  /**
   * Every hour row aggregates exactly the minute candles of its ticker and hour: its
   * timestamp is an hour start, high/low are the largest high and smallest low of those
   * candles and volume their sum.
   */
  lemma HourRowAggregates(candles: seq<Candle>, i: nat)
    requires i < |GroupBy(candles, HourStart)|
    ensures var r := GroupBy(candles, HourStart)[i];
      var g := Members(candles, Key(r), HourStart);
      && |g| > 0
      && (forall c :: c in candles ==> (c in g <==> c.ticker == r.ticker && HourStart(c.timestamp) == r.timestamp))
      && (forall c :: c in g ==> r.timestamp <= c.timestamp < r.timestamp + HOUR)
      && (forall c :: c in g ==> r.low <= c.low && c.high <= r.high)
      && r.volume == SumVolume(g)
  {
    GroupByRow(candles, HourStart, i);
  }

  /** Re-running the script over the same minute candles changes nothing. */
  lemma GetAndStoreIdempotent(candles: seq<Candle>, table: map<(string, int), Candle>)
    requires GetAndStore(candles, table).Ok?
    ensures GetAndStore(candles, GetAndStore(candles, table).value) == GetAndStore(candles, table)
  {
    UpsertIdempotent(table, HourRows(candles));
  }
}
