/**
 * The OHLCV `GROUP BY` used by the hour aggregator and by the UDF history queries:
 * rows are grouped by (ticker, bucket(timestamp)); per group, open is the open of the
 * earliest row (`(array_agg(open ORDER BY timestamp))[1]`), close the close of the
 * latest row, high the MAX of highs, low the MIN of lows and volume the SUM.
 */
module Aggregation {
  import opened Candles
  import opened Sorting

  /** The group a row falls in under the bucket function. */
  function GroupOf(c: Candle, bucket: int -> int): (string, int)
  {
    (c.ticker, bucket(c.timestamp))
  }

  /** The rows of group `k`, in table order: exactly the rows whose group is `k`. */
  function Members(rows: seq<Candle>, k: (string, int), bucket: int -> int): (g: seq<Candle>)
    ensures forall c :: c in g ==> c in rows && GroupOf(c, bucket) == k
    ensures forall c :: c in rows && GroupOf(c, bucket) == k ==> c in g
  {
    if rows == [] then []
    else
      var last := rows[|rows| - 1];
      assert rows == rows[..|rows| - 1] + [last];
      Members(rows[..|rows| - 1], k, bucket) + (if GroupOf(last, bucket) == k then [last] else [])
  }

  /** The distinct groups of `rows`, in order of first appearance; each is the group of some row. */
  function Groups(rows: seq<Candle>, bucket: int -> int): (ks: seq<(string, int)>)
    ensures forall i, j :: 0 <= i < j < |ks| ==> ks[i] != ks[j]
    ensures forall i :: 0 <= i < |rows| ==> GroupOf(rows[i], bucket) in ks
    ensures forall k :: k in ks ==> exists c :: c in rows && GroupOf(c, bucket) == k
  {
    if rows == [] then []
    else
      var init := rows[..|rows| - 1];
      var ks := Groups(init, bucket);
      var k := GroupOf(rows[|rows| - 1], bucket);
      assert forall i :: 0 <= i < |init| ==> rows[i] == init[i];
      assert forall c :: c in init ==> c in rows;
      assert rows[|rows| - 1] in rows;
      if k in ks then ks else ks + [k]
  }

  /** No group is empty. */
  lemma GroupsNonEmpty(rows: seq<Candle>, bucket: int -> int)
    ensures forall k :: k in Groups(rows, bucket) ==> |Members(rows, k, bucket)| > 0
  {
    forall k | k in Groups(rows, bucket) ensures |Members(rows, k, bucket)| > 0 {
      var c :| c in rows && GroupOf(c, bucket) == k;
      assert c in Members(rows, k, bucket);
    }
  }

  /** The row with the earliest timestamp (the first such row on ties). */
  function Earliest(g: seq<Candle>): (r: Candle)
    requires |g| > 0
    ensures r in g
    ensures forall c :: c in g ==> r.timestamp <= c.timestamp
  {
    if |g| == 1 then g[0]
    else
      var e := Earliest(g[1..]);
      if g[0].timestamp <= e.timestamp then g[0] else e
  }

  /** The row with the latest timestamp (the first such row on ties). */
  function Latest(g: seq<Candle>): (r: Candle)
    requires |g| > 0
    ensures r in g
    ensures forall c :: c in g ==> c.timestamp <= r.timestamp
  {
    if |g| == 1 then g[0]
    else
      var e := Latest(g[1..]);
      if g[0].timestamp >= e.timestamp then g[0] else e
  }

  /** MAX(high). */
  function MaxHigh(g: seq<Candle>): (r: real)
    requires |g| > 0
    ensures exists i :: 0 <= i < |g| && g[i].high == r
    ensures forall c :: c in g ==> c.high <= r
  {
    if |g| == 1 then g[0].high
    else
      var m := MaxHigh(g[1..]);
      assert forall i :: 0 <= i < |g| - 1 ==> g[1..][i] == g[i + 1];
      if g[0].high >= m then g[0].high else m
  }

  /** MIN(low). */
  function MinLow(g: seq<Candle>): (r: real)
    requires |g| > 0
    ensures exists i :: 0 <= i < |g| && g[i].low == r
    ensures forall c :: c in g ==> r <= c.low
  {
    if |g| == 1 then g[0].low
    else
      var m := MinLow(g[1..]);
      assert forall i :: 0 <= i < |g| - 1 ==> g[1..][i] == g[i + 1];
      if g[0].low <= m then g[0].low else m
  }

  /** SUM(volume). */
  function SumVolume(g: seq<Candle>): real
  {
    if g == [] then 0.0 else g[0].volume + SumVolume(g[1..])
  }

  /** The aggregated row of one group. */
  function AggregateGroup(g: seq<Candle>, k: (string, int)): Candle
    requires |g| > 0
  {
    Candle(k.0, k.1, MinLow(g), MaxHigh(g), Earliest(g).open, Latest(g).close, SumVolume(g))
  }

  /** The result of the `GROUP BY ticker, bucket(timestamp)` query, one row per group. */
  function GroupBy(rows: seq<Candle>, bucket: int -> int): seq<Candle>
  {
    var ks := Groups(rows, bucket);
    GroupsNonEmpty(rows, bucket);
    seq(|ks|, i requires 0 <= i < |ks| => AggregateGroup(Members(rows, ks[i], bucket), ks[i]))
  }

  /** Exactly one output row per group: the output keys are distinct and cover every input row's group. */
  lemma GroupByOneRowPerGroup(rows: seq<Candle>, bucket: int -> int)
    ensures forall i, j :: 0 <= i < j < |GroupBy(rows, bucket)| ==> Key(GroupBy(rows, bucket)[i]) != Key(GroupBy(rows, bucket)[j])
    ensures forall c :: c in rows ==> exists i :: 0 <= i < |GroupBy(rows, bucket)| && Key(GroupBy(rows, bucket)[i]) == GroupOf(c, bucket)
  {
    var ks := Groups(rows, bucket);
    var out := GroupBy(rows, bucket);
    assert forall i :: 0 <= i < |out| ==> Key(out[i]) == ks[i];
    forall c | c in rows
      ensures exists i :: 0 <= i < |out| && Key(out[i]) == GroupOf(c, bucket)
    {
      var j :| 0 <= j < |rows| && rows[j] == c;
      var i :| 0 <= i < |ks| && ks[i] == GroupOf(rows[j], bucket);
      assert Key(out[i]) == GroupOf(c, bucket);
    }
  }

  /** Every output row is the group of some input row: its key is that row's ticker and bucket. */
  lemma GroupByFromRows(rows: seq<Candle>, bucket: int -> int)
    ensures forall r :: r in GroupBy(rows, bucket) ==> exists c :: c in rows && GroupOf(c, bucket) == Key(r)
  {
    var ks := Groups(rows, bucket);
    var out := GroupBy(rows, bucket);
    forall r | r in out ensures exists c :: c in rows && GroupOf(c, bucket) == Key(r) {
      var i :| 0 <= i < |out| && out[i] == r;
      assert Key(out[i]) == ks[i];
      assert ks[i] in ks;
    }
  }

  /**
   * Each output row aggregates its group: ticker and bucket are the group's, open is the open of
   * an earliest member, close the close of a latest member, high the largest high, low the
   * smallest low and volume the sum of the members' volumes.
   */
  lemma GroupByRow(rows: seq<Candle>, bucket: int -> int, i: nat)
    requires i < |GroupBy(rows, bucket)|
    ensures var r, g := GroupBy(rows, bucket)[i], Members(rows, Key(GroupBy(rows, bucket)[i]), bucket);
      && |g| > 0
      && (exists m :: m in g && m.open == r.open && forall c :: c in g ==> m.timestamp <= c.timestamp)
      && (exists m :: m in g && m.close == r.close && forall c :: c in g ==> c.timestamp <= m.timestamp)
      && (exists m :: m in g && m.high == r.high) && (forall c :: c in g ==> c.high <= r.high)
      && (exists m :: m in g && m.low == r.low) && (forall c :: c in g ==> r.low <= c.low)
      && r.volume == SumVolume(g)
  {
    var ks := Groups(rows, bucket);
    var g := Members(rows, ks[i], bucket);
    assert Key(GroupBy(rows, bucket)[i]) == ks[i];
    var e, l := Earliest(g), Latest(g);
    var hi :| 0 <= hi < |g| && g[hi].high == MaxHigh(g);
    var lo :| 0 <= lo < |g| && g[lo].low == MinLow(g);
    assert g[hi] in g && g[lo] in g;
  }

  /** If every input row has low <= open, close <= high, so does every aggregated row. */
  lemma GroupByWellFormed(rows: seq<Candle>, bucket: int -> int)
    requires forall c :: c in rows ==> WellFormed(c)
    ensures forall r :: r in GroupBy(rows, bucket) ==> WellFormed(r)
  {
    var ks := Groups(rows, bucket);
    var out := GroupBy(rows, bucket);
    forall r | r in out ensures WellFormed(r) {
      var i :| 0 <= i < |out| && out[i] == r;
      var g := Members(rows, ks[i], bucket);
      var e, l := Earliest(g), Latest(g);
      assert WellFormed(e) && WellFormed(l);
    }
  }

  // ---- ORDER BY timestamp ----

  /** The sort key of `ORDER BY timestamp`. */
  function Timestamp(c: Candle): real
  {
    c.timestamp as real
  }

  predicate SortedByTime(s: seq<Candle>)
  {
    SortedBy(s, Timestamp)
  }

  /** No two rows share a primary key. */
  predicate DistinctKeys(s: seq<Candle>)
  {
    forall i, j :: 0 <= i < j < |s| ==> Key(s[i]) != Key(s[j])
  }

  /** The rows ordered by timestamp: a sorted permutation of the input. */
  function SortByTime(s: seq<Candle>): (r: seq<Candle>)
    ensures multiset(r) == multiset(s)
    ensures SortedByTime(r)
  {
    SortBy(s, Timestamp)
  }

  /** Sorting does not make two rows share a key. */
  lemma SortKeepsDistinctKeys(s: seq<Candle>)
    requires DistinctKeys(s)
    ensures DistinctKeys(SortByTime(s))
  {
    SortKeepsDistinct(s, Timestamp, Key);
  }
}
