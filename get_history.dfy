/**
 * The UDF `/history` endpoint of the charting library: resolve the symbol, work out the
 * time range, pick the query for the resolution and turn the bars into column arrays.
 *
 * Times are whole seconds since the epoch, in UTC.
 */
module UdfHistory {
  import opened Wrappers
  import opened Candles
  import opened Aggregation
  import opened Helper

  /** The luxon units of the `INTERVALS` table. */
  datatype Unit = Minute | Hour | Day

  function Seconds(u: Unit): (s: int)
    ensures s > 0
  {
    match u
    case Minute => MINUTE
    case Hour => HOUR
    case Day => DAY
  }

  /** `INTERVALS[resolution] || "day"`. */
  function IntervalOf(resolution: string): (u: Unit)
    ensures u == Minute <==> resolution == "1"
    ensures u == Hour <==> resolution == "60"
  {
    if resolution == "1" then Minute else if resolution == "60" then Hour else Day
  }

  /** `CUSTOM_INTERVALS[resolution] || 1`: minutes per bar for the custom resolutions. */
  function CustomInterval(resolution: string): (n: nat)
    ensures n == 15 <==> resolution == "15"
    ensures n == 30 <==> resolution == "30"
    ensures n == 1 <==> resolution != "15" && resolution != "30"
  {
    if resolution == "15" then 15 else if resolution == "30" then 30 else 1
  }

  datatype TimeRange = TimeRange(from: int, to: int)

  /** How many whole intervals lie between `from` and `to`, both rounded down to the interval. */
  function IntervalCount(from: int, to: int, u: int): int
    requires u > 0
  {
    (Trunc(to, u) - Trunc(from, u)) / u
  }

  /**
   * `calculateTimeRange` as written: the countback test reads `diff[interval]`, a singular
   * key (`minute`, `hour`, `day`) that a luxon Duration does not have (its getters are
   * `minutes`, `hours`, `days`). The test is `countback > undefined`, which is false, so the
   * range is always `from` rounded down to the interval, up to `to`.
   */
  function CalculateTimeRange(from: int, to: int, resolution: string, countback: Option<int>): TimeRange
  {
    var u := Seconds(IntervalOf(resolution));
    TimeRange(Trunc(from, u), to)
  }

  /**
   * The range ends at `to` and starts at the interval holding `from`, whatever `countback`
   * asks for.
   */
  lemma TimeRangeCovers(from: int, to: int, resolution: string, countback: Option<int>)
    ensures var r, u := CalculateTimeRange(from, to, resolution, countback), Seconds(IntervalOf(resolution));
      && r.to == to
      && r.from <= from < r.from + u
      && r.from % u == 0
      && r == CalculateTimeRange(from, to, resolution, None)
  {
    var u := Seconds(IntervalOf(resolution));
    assert Trunc(from, u) % u == 0 by {
      ModOfMultiple(from / u, u);
      assert Trunc(from, u) == (from / u) * u;
    }
  }

  lemma ModOfMultiple(k: int, u: int)
    requires u > 0
    ensures (k * u) % u == 0
  {
    MultipleDiv(k, u);
  }

  /**
   * `calculateTimeRange` as evidently intended, reading `diff.minutes` (or `hours`, `days`):
   * when the caller asks for more bars (`countback`) than fit between the rounded `from` and
   * the rounded `to`, the range instead reaches back `countback` intervals from `to`.
   */
  function CalculateTimeRangeIntended(from: int, to: int, resolution: string, countback: Option<int>): TimeRange
  {
    var u := Seconds(IntervalOf(resolution));
    var fromDate := Trunc(from, u);
    if countback.Some? && countback.value > IntervalCount(from, to, u) then TimeRange(to - countback.value * u, to)
    else TimeRange(fromDate, to)
  }

  /**
   * The intended range always ends at `to`; it starts no later than the requested `from`
   * rounded down to the interval, strictly earlier exactly when `countback` asks for more
   * intervals than fit, and it is long enough for `countback` intervals.
   */
  lemma TimeRangeIntendedCovers(from: int, to: int, resolution: string, countback: Option<int>)
    ensures var r, u := CalculateTimeRangeIntended(from, to, resolution, countback), Seconds(IntervalOf(resolution));
      && r.to == to
      && r.from <= Trunc(from, u)
      && (r.from < Trunc(from, u) <==> countback.Some? && countback.value > IntervalCount(from, to, u))
      && (countback.Some? ==> to - r.from >= countback.value * u)
  {
    var u := Seconds(IntervalOf(resolution));
    var fromDate, toDate := Trunc(from, u), Trunc(to, u);
    var k := to / u - from / u;
    assert toDate - fromDate == k * u;
    MultipleDiv(k, u);
    if countback.Some? && countback.value > k {
      assert countback.value * u >= k * u + u;
    } else if countback.Some? {
      assert countback.value * u <= k * u;
    }
  }

  /**
   * The two ranges agree exactly when there is no countback or it asks for no more intervals
   * than fit; a minute chart from 10 minutes before `to` with a countback of 300 gets
   * 10 minutes as written, and 300 minutes as intended.
   */
  lemma CountbackIgnored(from: int, to: int, resolution: string, countback: Option<int>)
    ensures var u := Seconds(IntervalOf(resolution));
      var agree := CalculateTimeRangeIntended(from, to, resolution, countback) == CalculateTimeRange(from, to, resolution, countback);
      agree <==> countback.None? || countback.value <= IntervalCount(from, to, u)
    ensures CalculateTimeRange(5400, 6000, "1", Some(300)) == TimeRange(5400, 6000)
    ensures CalculateTimeRangeIntended(5400, 6000, "1", Some(300)) == TimeRange(6000 - 300 * MINUTE, 6000)
  {
    TimeRangeIntendedCovers(from, to, resolution, countback);
    TimeRangeIntendedCovers(5400, 6000, "1", Some(300));
    assert IntervalCount(5400, 6000, MINUTE) == 10;
  }

  /** Whole multiples of a positive unit divide back exactly. */
  lemma MultipleDiv(k: int, u: int)
    requires u > 0
    ensures (k * u) / u == k
  {
    var q, r := (k * u) / u, (k * u) % u;
    assert (k - q) * u == r;
    assert k - q >= 1 ==> (k - q) * u >= u;
    assert k - q <= -1 ==> (k - q) * u <= -u;
  }

  // ---- Which query answers the request ----

  /** The three queries: hour table rows, a `date_trunc` grouping, or a custom-minute grouping. */
  datatype Query = HourBars | StandardBars(unit: Unit) | CustomBars(minutes: nat)

  /** The dispatch on the resolution string. */
  function QueryFor(resolution: string): (q: Query)
    ensures q == HourBars <==> resolution == "60"
    ensures q.CustomBars? <==> resolution == "15" || resolution == "30"
    ensures q.CustomBars? ==> q.minutes == CustomInterval(resolution)
    ensures q.StandardBars? ==> q.unit == (if resolution == "1" then Minute else Day)
  {
    var n := CustomInterval(resolution);
    if resolution == "60" then HourBars
    else if n == 1 then StandardBars(IntervalOf(resolution))
    else CustomBars(n)
  }

  /**
   * The custom bucket of `n` minutes: the hour start plus the minute of the hour rounded
   * down to a multiple of `n`, in seconds.
   */
  function CustomBucket(n: nat, t: int): int
    requires n > 0
  {
    var h := Trunc(t, HOUR);
    var minute := (t - h) / MINUTE;
    h + (minute / n) * n * MINUTE
  }

  /** A custom bucket starts within the hour of `t`, at most `n` minutes before `t`. */
  lemma CustomBucketBounds(n: nat, t: int)
    requires n > 0
    ensures Trunc(t, HOUR) <= CustomBucket(n, t) <= t < CustomBucket(n, t) + n * MINUTE
  {
    var h := Trunc(t, HOUR);
    var minute := (t - h) / MINUTE;
    assert 0 <= minute < 60;
    assert MINUTE * minute <= t - h < MINUTE * minute + MINUTE;
    var d := minute / n;
    assert n * d <= minute < n * d + n;
    assert CustomBucket(n, t) == h + MINUTE * (n * d);
    assert MINUTE * (n * d) <= MINUTE * minute;
    assert MINUTE * minute + MINUTE <= MINUTE * (n * d) + MINUTE * n;
  }

  /** The rows of `ticker` with `from <= timestamp < to` (the WHERE clause), in table order. */
  function InRange(rows: seq<Candle>, ticker: string, range: TimeRange): (r: seq<Candle>)
    ensures forall c :: c in r <==> c in rows && c.ticker == ticker && range.from <= c.timestamp < range.to
  {
    if rows == [] then []
    else
      var c := rows[|rows| - 1];
      assert rows == rows[..|rows| - 1] + [c];
      InRange(rows[..|rows| - 1], ticker, range) + (if c.ticker == ticker && range.from <= c.timestamp < range.to then [c] else [])
  }

  /**
   * The custom query as written: it has no ORDER BY, so rows come back in whatever order
   * the grouping produces; here the order of first appearance in the table.
   */
  function CustomBarsAsWritten(n: nat, ticker: string, range: TimeRange, candles: seq<Candle>): seq<Candle>
    requires n > 0
  {
    GroupBy(InRange(candles, ticker, range), CustomBucketFn(n))
  }

  function CustomBucketFn(n: nat): int -> int
    requires n > 0
  {
    t => CustomBucket(n, t)
  }

  /** The custom query with the `ORDER BY timestamp` the other two queries have. */
  function CustomBarsSorted(n: nat, ticker: string, range: TimeRange, candles: seq<Candle>): (bars: seq<Candle>)
    requires n > 0
    ensures SortedByTime(bars)
    ensures multiset(bars) == multiset(CustomBarsAsWritten(n, ticker, range, candles))
  {
    SortByTime(CustomBarsAsWritten(n, ticker, range, candles))
  }

  /** Two minute candles stored out of time order give unsorted 15-minute bars without ORDER BY. */
  lemma CustomBarsUnsorted()
    ensures var late, early := Candle("T", 1800, 1.0, 1.0, 1.0, 1.0, 1.0), Candle("T", 0, 1.0, 1.0, 1.0, 1.0, 1.0);
      !SortedByTime(CustomBarsAsWritten(15, "T", TimeRange(0, 3600), [late, early]))
  {
    var late, early := Candle("T", 1800, 1.0, 1.0, 1.0, 1.0, 1.0), Candle("T", 0, 1.0, 1.0, 1.0, 1.0, 1.0);
    UnsortedRowsInRange(late, early);
    UnsortedGroups(late, early);
    var bars := GroupBy([late, early], CustomBucketFn(15));
    assert bars[0].timestamp == 1800 && bars[1].timestamp == 0;
  }

  lemma UnsortedRowsInRange(late: Candle, early: Candle)
    requires late == Candle("T", 1800, 1.0, 1.0, 1.0, 1.0, 1.0) && early == Candle("T", 0, 1.0, 1.0, 1.0, 1.0, 1.0)
    ensures InRange([late, early], "T", TimeRange(0, 3600)) == [late, early]
  {
    var range := TimeRange(0, 3600);
    InRangeSnoc([], late, "T", range);
    InRangeSnoc([late], early, "T", range);
  }

  /** One more row is kept exactly when it matches the WHERE clause. */
  lemma InRangeSnoc(rows: seq<Candle>, c: Candle, ticker: string, range: TimeRange)
    ensures InRange(rows + [c], ticker, range)
      == InRange(rows, ticker, range) + (if c.ticker == ticker && range.from <= c.timestamp < range.to then [c] else [])
  {
    assert (rows + [c])[..|rows|] == rows;
  }

  lemma UnsortedBuckets()
    ensures CustomBucketFn(15)(1800) == 1800 && CustomBucketFn(15)(0) == 0
  {
    assert Trunc(1800, HOUR) == 0 && Trunc(0, HOUR) == 0;
  }

  lemma UnsortedGroups(late: Candle, early: Candle)
    requires late == Candle("T", 1800, 1.0, 1.0, 1.0, 1.0, 1.0) && early == Candle("T", 0, 1.0, 1.0, 1.0, 1.0, 1.0)
    ensures Groups([late, early], CustomBucketFn(15)) == [("T", 1800), ("T", 0)]
  {
    UnsortedBuckets();
    UnsortedFirstGroup(late);
    assert [late, early][..1] == [late];
  }

  lemma UnsortedFirstGroup(late: Candle)
    requires late == Candle("T", 1800, 1.0, 1.0, 1.0, 1.0, 1.0)
    ensures Groups([late], CustomBucketFn(15)) == [("T", 1800)]
  {
    UnsortedBuckets();
    assert [late][..0] == [];
  }

  /** The bars a query returns, given the `candles` and `hour_candles` tables. */
  function Bars(q: Query, ticker: string, range: TimeRange, candles: seq<Candle>, hourCandles: seq<Candle>): seq<Candle>
  {
    match q
    case HourBars => SortByTime(InRange(hourCandles, ticker, range))
    case StandardBars(u) => SortByTime(GroupBy(InRange(candles, ticker, range), StandardBucketFn(u)))
    case CustomBars(n) => if n == 0 then [] else CustomBarsAsWritten(n, ticker, range, candles)
  }

  function StandardBucketFn(u: Unit): int -> int
  {
    t => Trunc(t, Seconds(u))
  }

  /** The bars once the 15- and 30-minute query has the ORDER BY the other two have. */
  function BarsIntended(q: Query, ticker: string, range: TimeRange, candles: seq<Candle>, hourCandles: seq<Candle>): seq<Candle>
  {
    match q
    case CustomBars(n) => if n == 0 then [] else CustomBarsSorted(n, ticker, range, candles)
    case _ => Bars(q, ticker, range, candles, hourCandles)
  }

  /** How much time one bar of a query covers. */
  function Width(q: Query): int
  {
    match q
    case HourBars => HOUR
    case StandardBars(u) => Seconds(u)
    case CustomBars(n) => n * MINUTE
  }

  /**
   * The hour and standard queries return bars in time order (the 15- and 30-minute query need
   * not: CustomBarsUnsorted). Every bar is for the requested ticker. An hour bar is a stored
   * hour candle inside the range; a grouped bar is the bucket of some candle of the ticker
   * inside the range, starting at most one bar width before it.
   */
  lemma BarsOrderedAndInRange(q: Query, ticker: string, range: TimeRange, candles: seq<Candle>, hourCandles: seq<Candle>)
    ensures !q.CustomBars? ==> SortedByTime(Bars(q, ticker, range, candles, hourCandles))
    ensures q.HourBars? ==> forall b :: b in Bars(q, ticker, range, candles, hourCandles) ==>
      b in hourCandles && b.ticker == ticker && range.from <= b.timestamp < range.to
    ensures !q.HourBars? ==> forall b :: b in Bars(q, ticker, range, candles, hourCandles) ==>
      b.ticker == ticker
      && exists c :: c in candles && c.ticker == ticker && range.from <= c.timestamp < range.to
                     && b.timestamp <= c.timestamp < b.timestamp + Width(q)
  {
    match q
    case HourBars =>
      var rows := InRange(hourCandles, ticker, range);
      forall b | b in Bars(q, ticker, range, candles, hourCandles)
        ensures b in hourCandles && b.ticker == ticker && range.from <= b.timestamp < range.to
      {
        assert b in multiset(SortByTime(rows));
        assert b in rows;
      }
    case StandardBars(u) =>
      var grouped := GroupBy(InRange(candles, ticker, range), StandardBucketFn(u));
      GroupedInRange(candles, ticker, range, StandardBucketFn(u), Seconds(u));
      forall b | b in Bars(q, ticker, range, candles, hourCandles) ensures b in grouped {
        assert b in multiset(SortByTime(grouped));
      }
    case CustomBars(n) =>
      if n > 0 {
        forall t ensures CustomBucketFn(n)(t) <= t < CustomBucketFn(n)(t) + n * MINUTE {
          CustomBucketBounds(n, t);
        }
        GroupedInRange(candles, ticker, range, CustomBucketFn(n), n * MINUTE);
      }
  }

  /** A grouped bar is the bucket of some candle of the ticker inside the range. */
  lemma GroupedInRange(candles: seq<Candle>, ticker: string, range: TimeRange, bucket: int -> int, width: int)
    requires forall t :: bucket(t) <= t < bucket(t) + width
    ensures forall b :: b in GroupBy(InRange(candles, ticker, range), bucket) ==>
      b.ticker == ticker
      && exists c :: c in candles && c.ticker == ticker && range.from <= c.timestamp < range.to
                     && b.timestamp <= c.timestamp < b.timestamp + width
  {
    var rows := InRange(candles, ticker, range);
    GroupByFromRows(rows, bucket);
    forall b | b in GroupBy(rows, bucket)
      ensures b.ticker == ticker
      ensures exists c :: c in candles && c.ticker == ticker && range.from <= c.timestamp < range.to
                          && b.timestamp <= c.timestamp < b.timestamp + width
    {
      var c :| c in rows && GroupOf(c, bucket) == Key(b);
      assert bucket(c.timestamp) <= c.timestamp < bucket(c.timestamp) + width;
      BarOfCandle(b, c, candles, ticker, range, bucket, width);
    }
  }

  lemma BarOfCandle(b: Candle, c: Candle, candles: seq<Candle>, ticker: string, range: TimeRange, bucket: int -> int, width: int)
    requires c in InRange(candles, ticker, range) && GroupOf(c, bucket) == Key(b)
    requires bucket(c.timestamp) <= c.timestamp < bucket(c.timestamp) + width
    ensures b.ticker == ticker && c in candles && c.ticker == ticker && range.from <= c.timestamp < range.to
    ensures b.timestamp <= c.timestamp < b.timestamp + width
  {
  }

  /**
   * The intended bars are the same bars as the query's, always in time order, and differ
   * from them only for the 15- and 30-minute query.
   */
  lemma BarsIntendedOrdered(q: Query, ticker: string, range: TimeRange, candles: seq<Candle>, hourCandles: seq<Candle>)
    ensures SortedByTime(BarsIntended(q, ticker, range, candles, hourCandles))
    ensures multiset(BarsIntended(q, ticker, range, candles, hourCandles)) == multiset(Bars(q, ticker, range, candles, hourCandles))
    ensures !q.CustomBars? ==> BarsIntended(q, ticker, range, candles, hourCandles) == Bars(q, ticker, range, candles, hourCandles)
  {
    BarsOrderedAndInRange(q, ticker, range, candles, hourCandles);
  }

  // ---- The response ----

  /** The UDF history response: status and one array per bar field. */
  datatype Response = Response(s: string, t: seq<int>, c: seq<real>, o: seq<real>, l: seq<real>, h: seq<real>, v: seq<real>)

  /** `formatBarsResponse`: "no_data" and empty arrays for no bars, else "ok" and the bars' columns. */
  function BarsResponse(bars: seq<Candle>): (r: Response)
    ensures r.s == if bars == [] then "no_data" else "ok"
    ensures |r.t| == |r.c| == |r.o| == |r.l| == |r.h| == |r.v| == |bars|
    ensures forall i :: 0 <= i < |bars| ==>
      && r.t[i] == bars[i].timestamp && r.c[i] == bars[i].close && r.o[i] == bars[i].open
      && r.l[i] == bars[i].low && r.h[i] == bars[i].high && r.v[i] == bars[i].volume
  {
    if bars == [] then Response("no_data", [], [], [], [], [], [])
    else
      var init := BarsResponse(bars[..|bars| - 1]);
      var b := bars[|bars| - 1];
      Response("ok", init.t + [b.timestamp], init.c + [b.close], init.o + [b.open],
               init.l + [b.low], init.h + [b.high], init.v + [b.volume])
  }

  /** The reduce that pushes every bar's fields onto the column arrays. */
  method FormatBarsResponse(bars: seq<Candle>) returns (r: Response)
    ensures r == BarsResponse(bars)
  {
    if |bars| == 0 {
      return Response("no_data", [], [], [], [], [], []);
    }
    var t, c, o, l, h, v := [], [], [], [], [], [];
    for i := 0 to |bars|
      invariant |t| == |c| == |o| == |l| == |h| == |v| == i
      invariant forall j :: 0 <= j < i ==>
        && t[j] == bars[j].timestamp && c[j] == bars[j].close && o[j] == bars[j].open
        && l[j] == bars[j].low && h[j] == bars[j].high && v[j] == bars[j].volume
    {
      t, c, o := t + [bars[i].timestamp], c + [bars[i].close], o + [bars[i].open];
      l, h, v := l + [bars[i].low], h + [bars[i].high], v + [bars[i].volume];
    }
    r := Response("ok", t, c, o, l, h, v);
    ResponseDetermined(r, BarsResponse(bars), bars);
  }

  /** Two responses with the same status and the same per-bar columns are equal. */
  lemma ResponseDetermined(r1: Response, r2: Response, bars: seq<Candle>)
    requires r1.s == r2.s
    requires |r1.t| == |r1.c| == |r1.o| == |r1.l| == |r1.h| == |r1.v| == |bars|
    requires |r2.t| == |r2.c| == |r2.o| == |r2.l| == |r2.h| == |r2.v| == |bars|
    requires forall i :: 0 <= i < |bars| ==>
      && r1.t[i] == r2.t[i] && r1.c[i] == r2.c[i] && r1.o[i] == r2.o[i]
      && r1.l[i] == r2.l[i] && r1.h[i] == r2.h[i] && r1.v[i] == r2.v[i]
    ensures r1 == r2
  {
    assert r1.t == r2.t && r1.c == r2.c && r1.o == r2.o;
    assert r1.l == r2.l && r1.h == r2.h && r1.v == r2.v;
  }

  /** The bar rows the columns describe, read back from a response. */
  function Rows(r: Response): seq<(int, real, real, real, real, real)>
    requires |r.t| == |r.c| == |r.o| == |r.l| == |r.h| == |r.v|
  {
    seq(|r.t|, i requires 0 <= i < |r.t| => (r.t[i], r.o[i], r.h[i], r.l[i], r.c[i], r.v[i]))
  }

  /** Reading the columns back gives each bar's time, open, high, low, close and volume, in order. */
  lemma ResponseRoundTrip(bars: seq<Candle>)
    ensures var r := BarsResponse(bars);
      && |Rows(r)| == |bars|
      && forall i :: 0 <= i < |bars| ==>
           Rows(r)[i] == (bars[i].timestamp, bars[i].open, bars[i].high, bars[i].low, bars[i].close, bars[i].volume)
  {
  }

  /**
   * `getHistory`: an unknown symbol throws; otherwise the bars of the query the resolution
   * selects, over the computed range, formatted as columns.
   */
  function GetHistory(symbol: string, resolution: string, from: int, to: int, countback: Option<int>,
                      candles: seq<Candle>, hourCandles: seq<Candle>): (r: Result<Response>)
    ensures r.Err? <==> GetSymbol(symbol).Err?
  {
    match GetSymbol(symbol)
    case Err(e) => Err(e)
    case Ok(sym) =>
      var range := CalculateTimeRange(from, to, resolution, countback);
      Ok(BarsResponse(Bars(QueryFor(resolution), sym.ticker, range, candles, hourCandles)))
  }

  /**
   * A well-formed symbol yields "ok" exactly when its query finds bars; apart from the 15- and
   * 30-minute resolutions, they come in time order.
   */
  lemma GetHistoryOk(symbol: string, resolution: string, from: int, to: int, countback: Option<int>,
                     candles: seq<Candle>, hourCandles: seq<Candle>)
    requires GetSymbol(symbol).Ok?
    ensures var r := GetHistory(symbol, resolution, from, to, countback, candles, hourCandles);
      var bars := Bars(QueryFor(resolution), GetSymbol(symbol).value.ticker,
                       CalculateTimeRange(from, to, resolution, countback), candles, hourCandles);
      && r.Ok? && (r.value.s == "ok" <==> |bars| > 0)
      && (resolution != "15" && resolution != "30" ==> forall i, j :: 0 <= i < j < |r.value.t| ==> r.value.t[i] <= r.value.t[j])
  {
    BarsOrderedAndInRange(QueryFor(resolution), GetSymbol(symbol).value.ticker,
                          CalculateTimeRange(from, to, resolution, countback), candles, hourCandles);
  }

  /** `getHistory` with the ORDER BY added to the 15- and 30-minute query and the countback read as intended. */
  function GetHistoryIntended(symbol: string, resolution: string, from: int, to: int, countback: Option<int>,
                              candles: seq<Candle>, hourCandles: seq<Candle>): (r: Result<Response>)
    ensures r.Err? <==> GetSymbol(symbol).Err?
  {
    match GetSymbol(symbol)
    case Err(e) => Err(e)
    case Ok(sym) =>
      var range := CalculateTimeRangeIntended(from, to, resolution, countback);
      Ok(BarsResponse(BarsIntended(QueryFor(resolution), sym.ticker, range, candles, hourCandles)))
  }

  /**
   * With the ORDER BY, every resolution's times come in order; the answer is the code's as
   * written outside the 15- and 30-minute resolutions whenever the countback fits the range.
   */
  lemma GetHistoryIntendedOk(symbol: string, resolution: string, from: int, to: int, countback: Option<int>,
                             candles: seq<Candle>, hourCandles: seq<Candle>)
    requires GetSymbol(symbol).Ok?
    ensures var r := GetHistoryIntended(symbol, resolution, from, to, countback, candles, hourCandles);
      && r.Ok? && (forall i, j :: 0 <= i < j < |r.value.t| ==> r.value.t[i] <= r.value.t[j])
      && (resolution != "15" && resolution != "30" &&
          (countback.None? || countback.value <= IntervalCount(from, to, Seconds(IntervalOf(resolution)))) ==>
            r == GetHistory(symbol, resolution, from, to, countback, candles, hourCandles))
  {
    var q, ticker := QueryFor(resolution), GetSymbol(symbol).value.ticker;
    var range := CalculateTimeRangeIntended(from, to, resolution, countback);
    BarsIntendedOrdered(q, ticker, range, candles, hourCandles);
    if resolution != "15" && resolution != "30" &&
       (countback.None? || countback.value <= IntervalCount(from, to, Seconds(IntervalOf(resolution)))) {
      CountbackIgnored(from, to, resolution, countback);
      assert range == CalculateTimeRange(from, to, resolution, countback);
      assert !q.CustomBars?;
      assert BarsIntended(q, ticker, range, candles, hourCandles) == Bars(q, ticker, range, candles, hourCandles);
    }
  }
}
