/**
 * The KDA/USDT price backfill: walk from a fixed start up to one minute before the current
 * minute in windows of 90000 seconds, fetch the exchange's one-minute candles of each window
 * and upsert (date, price) rows into `kda_price`. The first INSERT the database refuses (a
 * window with no candles, or with two candles of one date) is not caught and ends the run.
 */
module KdaPriceBackfill {
  import opened Wrappers
  import opened Candles
  import opened Store

  const START: int := 1652659200
  const INTERVAL: int := 90000

  /** A candle row of the exchange: its time in seconds and the fields after it, in order. */
  datatype Kline = Kline(time: int, fields: seq<real>)

  /** The run's end: the start of the current minute minus one minute, in seconds. */
  function EndOf(now: int): int
  {
    Trunc(now, MINUTE) - MINUTE
  }

  /** `realEnd`: a window ends INTERVAL after its start, or at `end` if that comes first. */
  function WindowEnd(start: int, end: int): (e: int)
    ensures e <= start + INTERVAL && e <= end
    ensures e == start + INTERVAL || e == end
  {
    if start + INTERVAL > end then end else start + INTERVAL
  }

  /** The (begin, end) pairs requested, in order. */
  function Windows(start: int, end: int): seq<(int, int)>
    decreases end - start
  {
    if start >= end then [] else [(start, WindowEnd(start, end))] + Windows(start + INTERVAL, end)
  }

  /**
   * The windows tile [start, end): the i-th begins INTERVAL * i after `start`, each ends where
   * the next begins, and the last one ends exactly at `end`.
   */
  lemma {:induction false} WindowsTile(start: int, end: int)
    ensures var w := Windows(start, end);
      && (start < end <==> |w| > 0)
      && (forall i :: 0 <= i < |w| ==> w[i].0 == start + INTERVAL * i && w[i].0 < w[i].1)
      && (forall i :: 0 <= i < |w| - 1 ==> w[i].1 == w[i + 1].0)
      && (|w| > 0 ==> w[|w| - 1].1 == end)
    decreases end - start
  {
    if start < end {
      WindowsTile(start + INTERVAL, end);
      var w, rest := Windows(start, end), Windows(start + INTERVAL, end);
      assert w == [(start, WindowEnd(start, end))] + rest;
      forall i | 1 <= i < |w| ensures w[i].0 == start + INTERVAL * i && w[i].0 < w[i].1 {
        assert w[i] == rest[i - 1];
      }
      forall i | 0 <= i < |w| - 1 ensures w[i].1 == w[i + 1].0 {
        assert w[i + 1] == rest[i];
        if i > 0 { assert w[i] == rest[i - 1]; }
      }
    }
  }

  /**
   * The row stored for an exchange candle: the date in milliseconds and the price from the
   * row's fifth element (`fields[3]`); `None` stands for the NaN `parseFloat` gives when the
   * element is missing.
   */
  function PriceRow(k: Kline): (row: (int, Option<real>))
    ensures row.0 == k.time * 1000
    ensures row.1.Some? <==> |k.fields| >= 4
    ensures row.1.Some? ==> row.1.value == k.fields[3]
  {
    (k.time * 1000, if |k.fields| >= 4 then Some(k.fields[3]) else None)
  }

  function PriceRows(klines: seq<Kline>): (rows: seq<(int, Option<real>)>)
    ensures |rows| == |klines| && forall i :: 0 <= i < |klines| ==> rows[i] == PriceRow(klines[i])
  {
    seq(|klines|, i requires 0 <= i < |klines| => PriceRow(klines[i]))
  }

  /** The rows the script builds for a window's answer. */
  function WindowRows(w: (int, int), fetch: (int, int) -> seq<Kline>): seq<(int, Option<real>)>
  {
    PriceRows(fetch(w.0, w.1))
  }

  /**
   * Postgres accepts the window's INSERT: `VALUES %L` of no rows is a syntax error, and
   * `ON CONFLICT DO UPDATE` refuses to update one date twice in a statement.
   */
  predicate Insertable(rows: seq<(int, Option<real>)>)
  {
    |rows| > 0 && forall i, j :: 0 <= i < j < |rows| ==> rows[i].0 != rows[j].0
  }

  /** Whether the window's INSERT is accepted, for the given exchange answers. */
  function Storable(fetch: (int, int) -> seq<Kline>): ((int, int)) -> bool
  {
    w => Insertable(WindowRows(w, fetch))
  }

  /**
   * How many windows, from the first, are stored before one is refused: every window before
   * that index is accepted, and the window at it (if any) is not.
   */
  function Accepted<W>(windows: seq<W>, ok: W -> bool): (n: nat)
    ensures n <= |windows|
    ensures forall k :: 0 <= k < n ==> ok(windows[k])
    ensures n < |windows| ==> !ok(windows[n])
  {
    if windows == [] || !ok(windows[0]) then 0
    else 1 + Accepted(windows[1..], ok)
  }

  /** Accepted is the only index with those two properties. */
  lemma {:induction false} AcceptedAt<W>(windows: seq<W>, ok: W -> bool, n: nat)
    requires n <= |windows|
    requires forall k :: 0 <= k < n ==> ok(windows[k])
    requires n < |windows| ==> !ok(windows[n])
    ensures Accepted(windows, ok) == n
  {
    if n > 0 {
      var rest := windows[1..];
      assert ok(windows[0]);
      forall k | 0 <= k < n - 1
        ensures ok(rest[k])
      {
        assert rest[k] == windows[k + 1];
      }
      if n - 1 < |rest| {
        assert rest[n - 1] == windows[n];
      }
      AcceptedAt(rest, ok, n - 1);
    }
  }

  /** The first refused window: the run stops after requesting it. */
  lemma RefusedAt<W>(all: seq<W>, requested: seq<W>, w: W, ok: W -> bool)
    requires |requested| < |all| && all[..|requested|] == requested && all[|requested|] == w
    requires forall k :: 0 <= k < |requested| ==> ok(requested[k])
    requires !ok(w)
    ensures Accepted(all, ok) == |requested| < |all|
    ensures all[..Accepted(all, ok) + 1] == requested + [w]
  {
    forall k | 0 <= k < |requested|
      ensures ok(all[k])
    {
      assert all[k] == all[..|requested|][k] == requested[k];
    }
    AcceptedAt(all, ok, |requested|);
    assert all[..|requested| + 1] == requested + [w];
  }

  /** Every window accepted: the run requests and stores them all. */
  lemma AllAccepted<W>(all: seq<W>, ok: W -> bool)
    requires forall k :: 0 <= k < |all| ==> ok(all[k])
    ensures Accepted(all, ok) == |all| && all[..|all|] == all
  {
    AcceptedAt(all, ok, |all|);
  }

  /** Appending an accepted window keeps every requested window accepted. */
  lemma AcceptedSnoc<W>(requested: seq<W>, w: W, ok: W -> bool)
    requires forall k :: 0 <= k < |requested| ==> ok(requested[k])
    requires ok(w)
    ensures forall k :: 0 <= k < |requested + [w]| ==> ok((requested + [w])[k])
  {
    forall k | 0 <= k < |requested + [w]|
      ensures ok((requested + [w])[k])
    {
      if k < |requested| {
        assert (requested + [w])[k] == requested[k];
      }
    }
  }

  /** `kda_price` after the given windows' rows are upserted in turn by date. */
  function Backfilled(table: map<int, Option<real>>, windows: seq<(int, int)>, fetch: (int, int) -> seq<Kline>): map<int, Option<real>>
  {
    if windows == [] then table
    else
      var w := windows[|windows| - 1];
      Assoc(Backfilled(table, windows[..|windows| - 1], fetch), PriceRows(fetch(w.0, w.1)))
  }

  /** One turn of the loop requests the next window of the tiling. */
  lemma WindowsStep(requested: seq<(int, int)>, start: int, end: int)
    requires start < end
    ensures requested + Windows(start, end) == (requested + [(start, WindowEnd(start, end))]) + Windows(start + INTERVAL, end)
  {
    var w, rest := (start, WindowEnd(start, end)), Windows(start + INTERVAL, end);
    assert Windows(start, end) == [w] + rest;
    assert requested + ([w] + rest) == (requested + [w]) + rest;
  }

  /** One turn of the loop upserts the rows of the window it requests. */
  lemma BackfilledStep(table: map<int, Option<real>>, requested: seq<(int, int)>, w: (int, int), fetch: (int, int) -> seq<Kline>)
    ensures Backfilled(table, requested + [w], fetch) == Assoc(Backfilled(table, requested, fetch), PriceRows(fetch(w.0, w.1)))
  {
    assert (requested + [w])[..|requested|] == requested;
  }

  /** The error the run stops with when a window's INSERT is refused. */
  const REFUSED: string := "INSERT INTO kda_price refused"

  /**
   * The script's loop: one fetch and one upsert per window. Nothing catches a refused
   * INSERT, so the run stops at the first window whose rows are not insertable: that window
   * is requested, nothing of it is written, and no later window is requested.
   */
  method Backfill(now: int, fetch: (int, int) -> seq<Kline>, table: map<int, Option<real>>)
    returns (requested: seq<(int, int)>, result: map<int, Option<real>>, error: Option<string>)
    ensures var all := Windows(START, EndOf(now));
      var n := Accepted(all, Storable(fetch));
      && (error.Some? <==> n < |all|)
      && (error.Some? ==> error.value == REFUSED)
      && requested == all[..if n < |all| then n + 1 else n]
      && result == Backfilled(table, all[..n], fetch)
  {
    ghost var all := Windows(START, EndOf(now));
    var end := EndOf(now);
    var start := START;
    requested := [];
    result := table;
    while start < end
      invariant requested + Windows(start, end) == all
      invariant Accepted(requested, Storable(fetch)) == |requested|
      invariant result == Backfilled(table, requested, fetch)
      decreases end - start
    {
      var realEnd := if start + INTERVAL > end then end else start + INTERVAL;
      var w := (start, realEnd);
      var rows := PriceRows(fetch(start, realEnd));
      WindowsStep(requested, start, end);
      if !Insertable(rows) {
        StopsAt(all, requested, w, Windows(start + INTERVAL, end), Storable(fetch));
        requested, error := requested + [w], Some(REFUSED);
        return;
      }
      StoreStep(table, requested, w, fetch);
      result := Assoc(result, rows);
      requested := requested + [w];
      start := start + INTERVAL;
    }
    RunsOut(all, requested, Windows(start, end), Storable(fetch));
    error := None;
  }

  /** One accepted window: it joins the stored windows, and its rows the table. */
  lemma StoreStep(table: map<int, Option<real>>, requested: seq<(int, int)>, w: (int, int), fetch: (int, int) -> seq<Kline>)
    requires Accepted(requested, Storable(fetch)) == |requested|
    requires Insertable(WindowRows(w, fetch))
    ensures Accepted(requested + [w], Storable(fetch)) == |requested + [w]|
    ensures Backfilled(table, requested + [w], fetch) == Assoc(Backfilled(table, requested, fetch), WindowRows(w, fetch))
  {
    BackfilledStep(table, requested, w, fetch);
    AcceptedSnoc(requested, w, Storable(fetch));
    AcceptedAt(requested + [w], Storable(fetch), |requested + [w]|);
  }

  /** The run reaches the end with every window accepted: it has requested them all. */
  lemma RunsOut<W>(all: seq<W>, done: seq<W>, rest: seq<W>, ok: W -> bool)
    requires done + rest == all && rest == []
    requires forall k :: 0 <= k < |done| ==> ok(done[k])
    ensures Accepted(all, ok) == |all| && all[..|all|] == done
  {
    assert done == all;
    AllAccepted(all, ok);
  }

  /** The run stops at a refused window `w`: it has requested the windows up to `w`. */
  lemma StopsAt<W>(all: seq<W>, done: seq<W>, w: W, rest: seq<W>, ok: W -> bool)
    requires (done + [w]) + rest == all
    requires forall k :: 0 <= k < |done| ==> ok(done[k])
    requires !ok(w)
    ensures Accepted(all, ok) == |done| < |all|
    ensures all[..Accepted(all, ok) + 1] == done + [w]
    ensures all[..Accepted(all, ok)] == done
  {
    PrefixAt(done, w, rest, all);
    RefusedAt(all, done, w, ok);
  }

  /** A window in the middle of the tiling: those before it are its prefix. */
  lemma PrefixAt<T>(done: seq<T>, w: T, rest: seq<T>, all: seq<T>)
    requires (done + [w]) + rest == all
    ensures |done| < |all| && all[..|done|] == done && all[|done|] == w
  {
    assert all[..|done|] == done;
  }

  /**
   * Every row of the last stored window, whose dates are distinct since it was accepted,
   * ends the run with its price, whatever earlier windows held for its date.
   */
  lemma LastWindowWins(table: map<int, Option<real>>, windows: seq<(int, int)>, fetch: (int, int) -> seq<Kline>, i: nat)
    requires |windows| > 0
    requires var rows := WindowRows(windows[|windows| - 1], fetch); Insertable(rows) && i < |rows|
    ensures var rows := WindowRows(windows[|windows| - 1], fetch);
      rows[i].0 in Backfilled(table, windows, fetch) && Backfilled(table, windows, fetch)[rows[i].0] == rows[i].1
  {
    var w := windows[|windows| - 1];
    AssocLastWins(Backfilled(table, windows[..|windows| - 1], fetch), PriceRows(fetch(w.0, w.1)), i);
  }
}
