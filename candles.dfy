/**
 * The candle record shared by the minute builder, the hour aggregator and the UDF
 * history endpoint, and UTC time truncation on integer seconds since the epoch.
 */
module Candles {
  import opened Store

  const MINUTE: int := 60
  const HOUR: int := 3600
  const DAY: int := 86400
  const WEEK: int := 604800

  /**
   * The start of the `unit`-second interval that contains `t` (luxon `startOf`,
   * SQL `date_trunc`, in UTC).  Dafny's `%` is Euclidean, so this is the floor.
   */
  function Trunc(t: int, unit: int): (r: int)
    requires unit > 0
    ensures r <= t < r + unit
  {
    t - t % unit
  }

  /**
   * A candle row. The fields are in the column order of the inserts,
   * (ticker, timestamp, low, high, open, close, volume).
   */
  datatype Candle = Candle(ticker: string, timestamp: int, low: real, high: real, open: real, close: real, volume: real)

  /** The primary key of `candle_master` and `hour_candles`. */
  function Key(c: Candle): (string, int)
  {
    (c.ticker, c.timestamp)
  }

  /** low <= open, close <= high. */
  predicate WellFormed(c: Candle)
  {
    c.low <= c.open <= c.high && c.low <= c.close <= c.high
  }

  /** A candle table after `INSERT ... ON CONFLICT (ticker, timestamp) DO UPDATE` of `rows`. */
  function Upsert(table: map<(string, int), Candle>, rows: seq<Candle>): map<(string, int), Candle>
  {
    Assoc(table, Keyed(rows, Key))
  }

  /** After the upsert, a row with no later row of the same key is what the table holds. */
  lemma UpsertHolds(table: map<(string, int), Candle>, rows: seq<Candle>, i: nat)
    requires i < |rows| && forall j :: i < j < |rows| ==> Key(rows[j]) != Key(rows[i])
    ensures Key(rows[i]) in Upsert(table, rows) && Upsert(table, rows)[Key(rows[i])] == rows[i]
  {
    AssocLastWins(table, Keyed(rows, Key), i);
  }

  /** A key no row carries keeps its old entry, or its absence. */
  lemma UpsertKeeps(table: map<(string, int), Candle>, rows: seq<Candle>, k: (string, int))
    requires forall j :: 0 <= j < |rows| ==> Key(rows[j]) != k
    ensures (k in Upsert(table, rows)) == (k in table)
    ensures k in table ==> Upsert(table, rows)[k] == table[k]
  {
    AssocUntouched(table, Keyed(rows, Key), k);
  }

  /** Running the same upsert twice leaves the table as one run does. */
  lemma UpsertIdempotent(table: map<(string, int), Candle>, rows: seq<Candle>)
    ensures Upsert(Upsert(table, rows), rows) == Upsert(table, rows)
  {
    AssocIdempotent(table, Keyed(rows, Key));
  }
}
