/**
 * The performance summary: for a time window of one day, week, month or year, one row per
 * traded token (from the hourly candles) followed by the KDA row (from the KDA price
 * history), each with its relative change over the window and the number of transactions
 * that touched the token in it.
 */
module PerformanceSummary {
  import opened Wrappers
  import opened Strings
  import opened Js

  const INTERVAL_ERROR := "Invalid interval parameter. Use 1D, 1W, 1M or 1Y."
  /** What `Object.keys(null)` throws. */
  const NULL_TO_OBJECT := "Cannot convert undefined or null to object"

  /** The window the three queries look back over from now. */
  datatype Interval = Day | Week | Month | Year

  function IntervalName(i: Interval): string
  {
    match i
    case Day => "1D"
    case Week => "1W"
    case Month => "1M"
    case Year => "1Y"
  }

  /** `queryParams.interval || "1D"`. */
  function IntervalParam(p: Option<string>): (s: string)
    ensures Given(p) ==> s == p.value
    ensures !Given(p) ==> s == "1D"
  {
    if Given(p) then p.value else "1D"
  }

  /** The `switch` on the upper-cased interval: the four names select their window, anything else throws. */
  function ParseInterval(p: Option<string>): (r: Result<Interval>)
    ensures !Given(p) ==> r == Ok(Day)
    ensures r.Ok? <==> ToUpper(IntervalParam(p)) in {"1D", "1W", "1M", "1Y"}
    ensures r.Ok? ==> IntervalName(r.value) == ToUpper(IntervalParam(p))
    ensures r.Err? ==> r.error == INTERVAL_ERROR
  {
    var s := ToUpper(IntervalParam(p));
    assert !Given(p) ==> s == "1D" by {
      if !Given(p) { assert ToUpper("1D") == "1D"; }
    }
    if s == "1D" then Ok(Day)
    else if s == "1W" then Ok(Week)
    else if s == "1M" then Ok(Month)
    else if s == "1Y" then Ok(Year)
    else Err(INTERVAL_ERROR)
  }

  /** Every window is selected by its own name, whatever the case of its letter. */
  lemma ParseIntervalName(i: Interval, s: string)
    requires ToUpper(s) == IntervalName(i)
    ensures ParseInterval(Some(s)) == Ok(i)
  {
    assert s != "" by { assert |s| == |ToUpper(s)|; }
  }

  /** The interval parameter matters only through its upper-case form. */
  lemma ParseIntervalCaseInsensitive(a: string, b: string)
    requires ToUpper(a) == ToUpper(b)
    ensures ParseInterval(Some(a)) == ParseInterval(Some(b))
  {
    assert |a| == |b|;
  }

  /**
   * One aggregated row: the first and last timestamps in the window, the first open, the
   * last close, the extremes and (for the candle rows only) the summed volume. The KDA
   * query aggregates without GROUP BY, so on an empty window it returns one row of nulls.
   */
  datatype Bar = Bar(
    ticker: string, openTime: Option<int>, closeTime: Option<int>,
    open: Option<real>, close: Option<real>, low: Option<real>, high: Option<real>,
    volume: Option<real>)

  /** One row of the transaction count query: a token module and how many transactions touched it. */
  datatype CountRow = CountRow(ticker: string, count: int)

  /** A row of the output: the aggregated row spread out, with `diff` and `transactionCount` added. */
  datatype SummaryRow = SummaryRow(bar: Bar, diff: Option<real>, transactionCount: int)

  /**
   * `((close - open) / open) * 100` with null read as 0; None where the quotient is not a
   * finite number (the window opened at 0 or has no prices).
   */
  function Diff(open: Option<real>, close: Option<real>): (r: Option<real>)
    ensures r.Some? <==> open.GetOr(0.0) != 0.0
    ensures r.Some? ==> open.value + open.value * r.value / 100.0 == close.GetOr(0.0)
  {
    var o, c := open.GetOr(0.0), close.GetOr(0.0);
    if o == 0.0 then None
    else
      var d := (c - o) / o * 100.0;
      assert o * d / 100.0 == c - o by {
        assert o * ((c - o) / o) == c - o;
      }
      Some(d)
  }

  /**
   * The module name of the first cached token whose symbol is `symbol`, the tokens given as
   * (module name, symbol) in key order.
   */
  function ModuleOfSymbol(tokens: seq<(string, string)>, symbol: string): (r: Option<string>)
    ensures r.None? <==> forall i :: 0 <= i < |tokens| ==> tokens[i].1 != symbol
    ensures r.Some? ==> exists i :: (0 <= i < |tokens| && tokens[i] == (r.value, symbol)
                                     && forall j :: 0 <= j < i ==> tokens[j].1 != symbol)
  {
    if tokens == [] then None
    else if tokens[0].1 == symbol then Some(tokens[0].0)
    else
      var r := ModuleOfSymbol(tokens[1..], symbol);
      assert forall i :: 1 <= i < |tokens| ==> tokens[i] == tokens[1..][i - 1];
      r
  }

  /** The count of the first count row for `ticker`, 0 when there is none or no ticker at all. */
  function CountOf(counts: seq<CountRow>, ticker: Option<string>): (n: int)
    ensures (ticker.None? || forall i :: 0 <= i < |counts| ==> counts[i].ticker != ticker.value) ==> n == 0
    ensures ticker.Some? ==> forall i :: (0 <= i < |counts| && counts[i].ticker == ticker.value
                                          && (forall j :: 0 <= j < i ==> counts[j].ticker != ticker.value))
                                         ==> n == counts[i].count
  {
    if ticker.None? || counts == [] then 0
    else if counts[0].ticker == ticker.value then counts[0].count
    else
      var n := CountOf(counts[1..], ticker);
      assert forall i :: 1 <= i < |counts| ==> counts[i] == counts[1..][i - 1];
      n
  }

  function TokenRow(bar: Bar, tokens: seq<(string, string)>, counts: seq<CountRow>): SummaryRow
  {
    SummaryRow(bar, Diff(bar.open, bar.close), CountOf(counts, ModuleOfSymbol(tokens, bar.ticker)))
  }

  function KdaRow(bar: Bar, counts: seq<CountRow>): SummaryRow
  {
    SummaryRow(bar, Diff(bar.open, bar.close), CountOf(counts, Some("coin")))
  }

  /**
   * `getPerformanceSummary`, the three queries given as their rows for a window and the
   * cached tokens (None when no token document exists). Listing the token rows reads the
   * keys of the cached tokens, which throws when there are none.
   */
  function Summary(interval: Option<string>, nonKda: Interval -> seq<Bar>, kda: Interval -> seq<Bar>,
                   counts: Interval -> seq<CountRow>, tokens: Option<seq<(string, string)>>): (r: Result<seq<SummaryRow>>)
    ensures ParseInterval(interval).Err? ==> r == Err(INTERVAL_ERROR)
    ensures ParseInterval(interval).Ok? && tokens.None? && nonKda(ParseInterval(interval).value) != []
      ==> r == Err(NULL_TO_OBJECT)
    ensures r.Ok? <==> ParseInterval(interval).Ok? && (tokens.Some? || nonKda(ParseInterval(interval).value) == [])
    ensures r.Ok? ==> (
      var w := ParseInterval(interval).value;
      var ts, ks, cs := nonKda(w), kda(w), counts(w);
      && |r.value| == |ts| + |ks|
      && (forall j :: 0 <= j < |ts| ==> (
            && r.value[j].bar == ts[j]
            && r.value[j].diff == Diff(ts[j].open, ts[j].close)
            && r.value[j].transactionCount == CountOf(cs, ModuleOfSymbol(tokens.value, ts[j].ticker))))
      && (forall j :: 0 <= j < |ks| ==> (
            && r.value[|ts| + j].bar == ks[j]
            && r.value[|ts| + j].diff == Diff(ks[j].open, ks[j].close)
            && r.value[|ts| + j].transactionCount == CountOf(cs, Some("coin")))))
  {
    match ParseInterval(interval)
    case Err(e) => Err(e)
    case Ok(w) =>
      var ts, ks, cs := nonKda(w), kda(w), counts(w);
      if tokens.None? && ts != [] then Err(NULL_TO_OBJECT)
      else
        var cached := tokens.GetOr([]);
        SummaryRows(ts, ks, cached, cs);
        Ok(TokenRows(ts, cached, cs) + KdaRows(ks, cs))
  }

  /** The token rows come first, one per non-KDA bar, then one row per KDA bar. */
  lemma SummaryRows(ts: seq<Bar>, ks: seq<Bar>, tokens: seq<(string, string)>, cs: seq<CountRow>)
    ensures var rows := TokenRows(ts, tokens, cs) + KdaRows(ks, cs);
      && |rows| == |ts| + |ks|
      && (forall j :: 0 <= j < |ts| ==> (
            && rows[j].bar == ts[j]
            && rows[j].diff == Diff(ts[j].open, ts[j].close)
            && rows[j].transactionCount == CountOf(cs, ModuleOfSymbol(tokens, ts[j].ticker))))
      && (forall j :: 0 <= j < |ks| ==> (
            && rows[|ts| + j].bar == ks[j]
            && rows[|ts| + j].diff == Diff(ks[j].open, ks[j].close)
            && rows[|ts| + j].transactionCount == CountOf(cs, Some("coin"))))
  {
    var a, b := TokenRows(ts, tokens, cs), KdaRows(ks, cs);
    forall j | 0 <= j < |ts| ensures (a + b)[j] == TokenRow(ts[j], tokens, cs) {}
    forall j | 0 <= j < |ks| ensures (a + b)[|ts| + j] == KdaRow(ks[j], cs) {}
  }

  function TokenRows(ts: seq<Bar>, tokens: seq<(string, string)>, counts: seq<CountRow>): (rows: seq<SummaryRow>)
    ensures |rows| == |ts| && forall j :: 0 <= j < |ts| ==> rows[j] == TokenRow(ts[j], tokens, counts)
  {
    seq(|ts|, j requires 0 <= j < |ts| => TokenRow(ts[j], tokens, counts))
  }

  function KdaRows(ks: seq<Bar>, counts: seq<CountRow>): (rows: seq<SummaryRow>)
    ensures |rows| == |ks| && forall j :: 0 <= j < |ks| ==> rows[j] == KdaRow(ks[j], counts)
  {
    seq(|ks|, j requires 0 <= j < |ks| => KdaRow(ks[j], counts))
  }
}
