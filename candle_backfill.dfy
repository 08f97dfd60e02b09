/**
 * The minute-candle builder and its weekly backfill loop.
 *
 * For one token: the anchor is the first stored (or built) candle; processing starts one
 * minute after the anchor's minute and runs up to END_DATE = (current minute - 1 minute)
 * in chunks of at most one week. For each chunk the fetched trades are reduced into
 * per-minute buckets (dust trades skipped), then every minute of the chunk gets one candle:
 * a forward-filled flat candle when the minute has no bucket, otherwise a candle whose open
 * is the previous close and whose low/high are widened to include it. The chunk's rows are
 * the carried start candle followed by those minute candles; the last one is carried into
 * the next chunk.
 *
 * Time is in whole seconds since the epoch. KDA/USD prices come from an oracle that
 * answers the "nearest KDA price" for a minute; trades come from a fetch oracle. Prices
 * are JavaScript numbers: a trade with a zero token amount divides by zero, and the
 * Infinity or NaN it yields flows through `Math.min`/`Math.max` into the candles.
 */
module CandleBackfill {
  import opened Candles
  import opened Store

  /** Trades with a volume below this are dust and ignored. */
  const DUST: real := 0.00000001

  // ---- JavaScript numbers ----

  /**
   * A JavaScript number as the price arithmetic meets it: a finite value, Infinity,
   * -Infinity or NaN. Negative zero is not told apart from zero.
   */
  datatype Num = Fin(r: real) | PosInf | NegInf | NaN

  /** JavaScript `a / b` on finite operands: a zero divisor gives an infinity of the dividend's sign, or NaN for 0 / 0. */
  function Div(a: real, b: real): (q: Num)
    ensures q.Fin? <==> b != 0.0
    ensures q.Fin? ==> q.r * b == a
    ensures b == 0.0 ==> (q.PosInf? <==> a > 0.0) && (q.NegInf? <==> a < 0.0) && (q.NaN? <==> a == 0.0)
  {
    if b != 0.0 then Fin(a / b) else if a > 0.0 then PosInf else if a < 0.0 then NegInf else NaN
  }

  /** JavaScript `x * k` for a finite factor `k`: an infinity times zero is NaN, NaN stays NaN. */
  function Times(x: Num, k: real): (y: Num)
    ensures x.Fin? ==> y.Fin? && y.r == x.r * k
    ensures y.NaN? <==> x.NaN? || (!x.Fin? && k == 0.0)
    ensures !x.Fin? && k > 0.0 ==> y == x
    ensures x.PosInf? && k < 0.0 ==> y.NegInf?
    ensures x.NegInf? && k < 0.0 ==> y.PosInf?
  {
    match x
    case Fin(r) => Fin(r * k)
    case PosInf => if k > 0.0 then PosInf else if k < 0.0 then NegInf else NaN
    case NegInf => if k > 0.0 then NegInf else if k < 0.0 then PosInf else NaN
    case NaN => NaN
  }

  /**
   * `a <= b` on numbers other than NaN, with -Infinity below and Infinity above every
   * finite number; false when either is NaN.
   */
  predicate Le(a: Num, b: Num)
  {
    match (a, b)
    case (NaN, _) => false
    case (_, NaN) => false
    case (NegInf, _) => true
    case (_, PosInf) => true
    case (Fin(x), Fin(y)) => x <= y
    case (_, _) => false
  }

  /** `Le` is a total order on the numbers other than NaN. */
  lemma LeOrder(a: Num, b: Num, c: Num)
    ensures !a.NaN? ==> Le(a, a)
    ensures !a.NaN? && !b.NaN? ==> Le(a, b) || Le(b, a)
    ensures Le(a, b) && Le(b, a) ==> a == b
    ensures Le(a, b) && Le(b, c) ==> Le(a, c)
  {
  }

  /** `Math.min(a, b)`: NaN when either is NaN, otherwise the smaller of the two. */
  function MathMin(a: Num, b: Num): (r: Num)
    ensures r.NaN? <==> a.NaN? || b.NaN?
    ensures !r.NaN? ==> Le(r, a) && Le(r, b) && (r == a || r == b)
  {
    LeOrder(a, b, b);
    if a.NaN? || b.NaN? then NaN else if Le(a, b) then a else b
  }

  /** `Math.max(a, b)`: NaN when either is NaN, otherwise the larger of the two. */
  function MathMax(a: Num, b: Num): (r: Num)
    ensures r.NaN? <==> a.NaN? || b.NaN?
    ensures !r.NaN? ==> Le(a, r) && Le(b, r) && (r == a || r == b)
  {
    LeOrder(a, b, b);
    if a.NaN? || b.NaN? then NaN else if Le(b, a) then a else b
  }

  /** `x <= y <= z` as numbers, or `x` and `z` are both NaN. */
  predicate Spread(x: Num, y: Num, z: Num)
  {
    (x.NaN? <==> z.NaN?) && (!x.NaN? ==> Le(x, y) && Le(y, z))
  }

  // ---- Trades and their prices ----

  /** A fetched row of the `transactions` table. */
  datatype Trade = Trade(timestamp: int, fromToken: string, fromAmount: real, toAmount: real, volume: real)

  predicate IsDust(t: Trade)
  {
    t.volume < DUST
  }

  /** The KDA side of a trade: the amount sold when `from_token` is `coin`, else the amount bought. */
  function KdaAmount(t: Trade): real
  {
    if t.fromToken == "coin" then t.fromAmount else t.toAmount
  }

  /** The token side of a trade. */
  function TokenAmount(t: Trade): real
  {
    if t.fromToken == "coin" then t.toAmount else t.fromAmount
  }

  /** The token's price in KDA: KDA amount over token amount, in JavaScript division. */
  function PriceInKda(t: Trade): (r: Num)
    ensures r.Fin? <==> TokenAmount(t) != 0.0
    ensures r.Fin? ==> r.r * TokenAmount(t) == KdaAmount(t)
    ensures TokenAmount(t) == 0.0 ==>
      (r.PosInf? <==> KdaAmount(t) > 0.0) && (r.NegInf? <==> KdaAmount(t) < 0.0) && (r.NaN? <==> KdaAmount(t) == 0.0)
  {
    if t.fromToken == "coin" then Div(t.fromAmount, t.toAmount) else Div(t.toAmount, t.fromAmount)
  }

  function MinuteStart(ts: int): int
  {
    Trunc(ts, MINUTE)
  }

  /** The USD price of a trade: its KDA price times the KDA price looked up for its minute start. */
  function PriceInUsd(t: Trade, kdaPrice: int -> real): Num
  {
    Times(PriceInKda(t), kdaPrice(MinuteStart(t.timestamp)))
  }

  /** The KDA price is looked up at the minute start, so moving a trade within its minute keeps its price. */
  lemma PriceUsesMinuteStart(t: Trade, kdaPrice: int -> real, ts: int)
    requires MinuteStart(ts) == MinuteStart(t.timestamp)
    ensures PriceInUsd(t.(timestamp := ts), kdaPrice) == PriceInUsd(t, kdaPrice)
  {
  }

  /**
   * A trade with a non-zero token amount has a finite USD price, its KDA price scaled by the
   * minute's KDA/USD price. A zero token amount at a positive KDA/USD price gives Infinity
   * (-Infinity) when the KDA amount is positive (negative), and NaN when it is zero.
   */
  lemma PriceCases(t: Trade, kdaPrice: int -> real)
    ensures var k, usd := kdaPrice(MinuteStart(t.timestamp)), PriceInUsd(t, kdaPrice);
      TokenAmount(t) != 0.0 ==> usd.Fin? && usd.r * TokenAmount(t) == KdaAmount(t) * k
    ensures var k, usd := kdaPrice(MinuteStart(t.timestamp)), PriceInUsd(t, kdaPrice);
      TokenAmount(t) == 0.0 && k > 0.0 ==>
        && (usd.PosInf? <==> KdaAmount(t) > 0.0)
        && (usd.NegInf? <==> KdaAmount(t) < 0.0)
        && (usd.NaN? <==> KdaAmount(t) == 0.0)
  {
    var q := PriceInKda(t);
    if TokenAmount(t) != 0.0 {
      Scale(q.r, TokenAmount(t), KdaAmount(t), kdaPrice(MinuteStart(t.timestamp)));
    }
  }

  lemma Scale(q: real, d: real, a: real, k: real)
    requires q * d == a
    ensures (q * k) * d == a * k
  {
    calc {
      (q * k) * d;
      (q * d) * k;
      a * k;
    }
  }

  /** Selling 5 KDA for no tokens prices the token at Infinity; trading nothing for nothing, at NaN. */
  lemma ZeroAmountPrices(kdaPrice: int -> real)
    requires kdaPrice(0) == 2.0
    ensures PriceInUsd(Trade(30, "coin", 5.0, 0.0, 1.0), kdaPrice) == PosInf
    ensures PriceInUsd(Trade(30, "coin", 0.0, 0.0, 1.0), kdaPrice) == NaN
  {
    assert MinuteStart(30) == 0;
  }

  // ---- The transactions reduce ----

  /** The per-minute accumulator: volume, timestamp of the first trade, close, low, high. */
  datatype Bucket = Bucket(volume: real, timestamp: int, close: Num, low: Num, high: Num)

  /** One step of the reduce over the fetched rows. */
  function AddTrade(p: map<int, Bucket>, t: Trade, kdaPrice: int -> real): map<int, Bucket>
  {
    if IsDust(t) then p
    else
      var m, price := MinuteStart(t.timestamp), PriceInUsd(t, kdaPrice);
      if m !in p then p[m := Bucket(t.volume, t.timestamp, price, price, price)]
      else
        var b := p[m];
        p[m := Bucket(b.volume + t.volume, b.timestamp, price, MathMin(b.low, price), MathMax(b.high, price))]
  }

  /** The map the reduce builds from `trades`, keyed by minute start. */
  function Buckets(trades: seq<Trade>, kdaPrice: int -> real): map<int, Bucket>
  {
    if trades == [] then map[]
    else AddTrade(Buckets(trades[..|trades| - 1], kdaPrice), trades[|trades| - 1], kdaPrice)
  }

  /** The transactions reduce: fold every fetched row into the minute map. */
  method BuildBuckets(trades: seq<Trade>, kdaPrice: int -> real) returns (p: map<int, Bucket>)
    ensures p == Buckets(trades, kdaPrice)
  {
    p := map[];
    for i := 0 to |trades|
      invariant p == Buckets(trades[..i], kdaPrice)
    {
      assert trades[..i + 1][..i] == trades[..i];
      p := AddTrade(p, trades[i], kdaPrice);
    }
    assert trades[..|trades|] == trades;
  }

  // ---- An independent description of the buckets ----

  /** The non-dust trades of minute `m`, in fetch order. */
  function TradesIn(trades: seq<Trade>, m: int): (g: seq<Trade>)
    ensures forall t :: t in g ==> t in trades && !IsDust(t)
  {
    if trades == [] then []
    else
      var t := trades[|trades| - 1];
      TradesIn(trades[..|trades| - 1], m) + (if !IsDust(t) && MinuteStart(t.timestamp) == m then [t] else [])
  }

  function TotalVolume(g: seq<Trade>): real
  {
    if g == [] then 0.0 else TotalVolume(g[..|g| - 1]) + g[|g| - 1].volume
  }

  /** Some trade of the group has a NaN price. */
  predicate SomeNaN(g: seq<Trade>, kdaPrice: int -> real)
  {
    exists i :: 0 <= i < |g| && PriceInUsd(g[i], kdaPrice).NaN?
  }

  /**
   * The running `Math.min` over the prices of a group: NaN when some price is NaN,
   * otherwise one of the prices and at most every one.
   */
  function LowPrice(g: seq<Trade>, kdaPrice: int -> real): (r: Num)
    requires |g| > 0
    ensures r.NaN? <==> SomeNaN(g, kdaPrice)
    ensures !r.NaN? ==> forall i :: 0 <= i < |g| ==> Le(r, PriceInUsd(g[i], kdaPrice))
    ensures !r.NaN? ==> exists i :: 0 <= i < |g| && r == PriceInUsd(g[i], kdaPrice)
  {
    if |g| == 1 then
      LeOrder(PriceInUsd(g[0], kdaPrice), PriceInUsd(g[0], kdaPrice), PriceInUsd(g[0], kdaPrice));
      PriceInUsd(g[0], kdaPrice)
    else
      var lo := LowPrice(g[..|g| - 1], kdaPrice);
      var r := MathMin(lo, PriceInUsd(g[|g| - 1], kdaPrice));
      LowStep(g, kdaPrice, lo, r);
      r
  }

  /** LowPrice's contract carries over from a group to the group with one more trade. */
  lemma LowStep(g: seq<Trade>, kdaPrice: int -> real, lo: Num, r: Num)
    requires |g| > 1
    requires var init := g[..|g| - 1];
      && (lo.NaN? <==> SomeNaN(init, kdaPrice))
      && (!lo.NaN? ==> forall i :: 0 <= i < |init| ==> Le(lo, PriceInUsd(init[i], kdaPrice)))
      && (!lo.NaN? ==> exists i :: 0 <= i < |init| && lo == PriceInUsd(init[i], kdaPrice))
    requires r == MathMin(lo, PriceInUsd(g[|g| - 1], kdaPrice))
    ensures r.NaN? <==> SomeNaN(g, kdaPrice)
    ensures !r.NaN? ==> forall i :: 0 <= i < |g| ==> Le(r, PriceInUsd(g[i], kdaPrice))
    ensures !r.NaN? ==> exists i :: 0 <= i < |g| && r == PriceInUsd(g[i], kdaPrice)
  {
    var init, n := g[..|g| - 1], |g| - 1;
    var last := PriceInUsd(g[n], kdaPrice);
    assert forall i :: 0 <= i < n ==> init[i] == g[i];
    if !r.NaN? {
      forall i | 0 <= i < |g|
        ensures Le(r, PriceInUsd(g[i], kdaPrice))
      {
        if i < n {
          LeOrder(r, lo, PriceInUsd(g[i], kdaPrice));
        }
      }
      if r != last {
        var j :| 0 <= j < n && lo == PriceInUsd(init[j], kdaPrice);
        assert r == PriceInUsd(g[j], kdaPrice);
      }
      assert !SomeNaN(g, kdaPrice) by {
        forall i | 0 <= i < |g| ensures !PriceInUsd(g[i], kdaPrice).NaN? {
        }
      }
    } else if !lo.NaN? {
      assert PriceInUsd(g[n], kdaPrice).NaN?;
    } else {
      var j :| 0 <= j < n && PriceInUsd(init[j], kdaPrice).NaN?;
      assert PriceInUsd(g[j], kdaPrice).NaN?;
    }
  }

  /**
   * The running `Math.max` over the prices of a group: NaN when some price is NaN,
   * otherwise one of the prices and at least every one.
   */
  function HighPrice(g: seq<Trade>, kdaPrice: int -> real): (r: Num)
    requires |g| > 0
    ensures r.NaN? <==> SomeNaN(g, kdaPrice)
    ensures !r.NaN? ==> forall i :: 0 <= i < |g| ==> Le(PriceInUsd(g[i], kdaPrice), r)
    ensures !r.NaN? ==> exists i :: 0 <= i < |g| && r == PriceInUsd(g[i], kdaPrice)
  {
    if |g| == 1 then
      LeOrder(PriceInUsd(g[0], kdaPrice), PriceInUsd(g[0], kdaPrice), PriceInUsd(g[0], kdaPrice));
      PriceInUsd(g[0], kdaPrice)
    else
      var hi := HighPrice(g[..|g| - 1], kdaPrice);
      var r := MathMax(hi, PriceInUsd(g[|g| - 1], kdaPrice));
      HighStep(g, kdaPrice, hi, r);
      r
  }

  /** HighPrice's contract carries over from a group to the group with one more trade. */
  lemma HighStep(g: seq<Trade>, kdaPrice: int -> real, hi: Num, r: Num)
    requires |g| > 1
    requires var init := g[..|g| - 1];
      && (hi.NaN? <==> SomeNaN(init, kdaPrice))
      && (!hi.NaN? ==> forall i :: 0 <= i < |init| ==> Le(PriceInUsd(init[i], kdaPrice), hi))
      && (!hi.NaN? ==> exists i :: 0 <= i < |init| && hi == PriceInUsd(init[i], kdaPrice))
    requires r == MathMax(hi, PriceInUsd(g[|g| - 1], kdaPrice))
    ensures r.NaN? <==> SomeNaN(g, kdaPrice)
    ensures !r.NaN? ==> forall i :: 0 <= i < |g| ==> Le(PriceInUsd(g[i], kdaPrice), r)
    ensures !r.NaN? ==> exists i :: 0 <= i < |g| && r == PriceInUsd(g[i], kdaPrice)
  {
    var init, n := g[..|g| - 1], |g| - 1;
    var last := PriceInUsd(g[n], kdaPrice);
    assert forall i :: 0 <= i < n ==> init[i] == g[i];
    if !r.NaN? {
      forall i | 0 <= i < |g|
        ensures Le(PriceInUsd(g[i], kdaPrice), r)
      {
        if i < n {
          LeOrder(PriceInUsd(g[i], kdaPrice), hi, r);
        }
      }
      if r != last {
        var j :| 0 <= j < n && hi == PriceInUsd(init[j], kdaPrice);
        assert r == PriceInUsd(g[j], kdaPrice);
      }
      assert !SomeNaN(g, kdaPrice) by {
        forall i | 0 <= i < |g| ensures !PriceInUsd(g[i], kdaPrice).NaN? {
        }
      }
    } else if !hi.NaN? {
      assert PriceInUsd(g[n], kdaPrice).NaN?;
    } else {
      var j :| 0 <= j < n && PriceInUsd(init[j], kdaPrice).NaN?;
      assert PriceInUsd(g[j], kdaPrice).NaN?;
    }
  }

  /**
   * What a minute's bucket should hold, given the minute's trades: their total volume, the
   * first one's timestamp, the last one's price as close, and the smallest and largest price.
   */
  function GroupBucket(g: seq<Trade>, kdaPrice: int -> real): Bucket
    requires |g| > 0
  {
    Bucket(TotalVolume(g), g[0].timestamp, PriceInUsd(g[|g| - 1], kdaPrice), LowPrice(g, kdaPrice), HighPrice(g, kdaPrice))
  }

  /**
   * The bucket of minute `m` exists exactly when some non-dust trade falls in that minute,
   * and then it is the GroupBucket of those trades.
   */
  lemma {:induction false} BucketsMatchTrades(trades: seq<Trade>, kdaPrice: int -> real, m: int)
    ensures (m in Buckets(trades, kdaPrice)) <==> |TradesIn(trades, m)| > 0
    ensures m in Buckets(trades, kdaPrice) ==>
      Buckets(trades, kdaPrice)[m] == GroupBucket(TradesIn(trades, m), kdaPrice)
  {
    if trades != [] {
      var init, t := trades[..|trades| - 1], trades[|trades| - 1];
      BucketsMatchTrades(init, kdaPrice, m);
      var before := Buckets(init, kdaPrice);
      assert Buckets(trades, kdaPrice) == AddTrade(before, t, kdaPrice);
      AddTradeAt(before, t, kdaPrice, m);
      var g0 := TradesIn(init, m);
      if !IsDust(t) && MinuteStart(t.timestamp) == m {
        GroupBucketSnoc(g0, t, kdaPrice);
        assert TradesIn(trades, m) == g0 + [t];
      } else {
        assert TradesIn(trades, m) == g0;
      }
    }
  }

  /** What one step of the reduce does to the bucket of minute `m`. */
  lemma AddTradeAt(p: map<int, Bucket>, t: Trade, kdaPrice: int -> real, m: int)
    ensures var q := AddTrade(p, t, kdaPrice);
      if !IsDust(t) && MinuteStart(t.timestamp) == m then
        var price := PriceInUsd(t, kdaPrice);
        && m in q
        && q[m] == if m !in p then Bucket(t.volume, t.timestamp, price, price, price)
                   else Bucket(p[m].volume + t.volume, p[m].timestamp, price, MathMin(p[m].low, price), MathMax(p[m].high, price))
      else (m in q <==> m in p) && (m in p ==> q[m] == p[m])
  {
  }

  /** Appending a trade of the group updates its GroupBucket as one step of the reduce does. */
  lemma GroupBucketSnoc(g0: seq<Trade>, t: Trade, kdaPrice: int -> real)
    requires !IsDust(t)
    ensures var price := PriceInUsd(t, kdaPrice);
      GroupBucket(g0 + [t], kdaPrice) ==
        if |g0| == 0 then Bucket(t.volume, t.timestamp, price, price, price)
        else var b := GroupBucket(g0, kdaPrice);
          Bucket(b.volume + t.volume, b.timestamp, price, MathMin(b.low, price), MathMax(b.high, price))
  {
    var g := g0 + [t];
    assert g[..|g| - 1] == g0 && g[|g| - 1] == t;
    if |g0| > 0 {
      assert g[0] == g0[0];
    } else {
      assert g == [t];
      assert TotalVolume(g) == TotalVolume([]) + t.volume;
    }
  }

  /**
   * Every bucket has at least the dust threshold as volume, and low <= close <= high as
   * numbers unless low and high are both NaN.
   */
  lemma BucketsWellFormed(trades: seq<Trade>, kdaPrice: int -> real, m: int)
    requires m in Buckets(trades, kdaPrice)
    ensures var b := Buckets(trades, kdaPrice)[m]; Spread(b.low, b.close, b.high) && b.volume >= DUST
  {
    BucketsMatchTrades(trades, kdaPrice, m);
    var g := TradesIn(trades, m);
    TotalVolumeAtLeast(g);
    var low, high := LowPrice(g, kdaPrice), HighPrice(g, kdaPrice);
    if !low.NaN? {
      assert Le(low, PriceInUsd(g[|g| - 1], kdaPrice));
      assert Le(PriceInUsd(g[|g| - 1], kdaPrice), high);
    }
  }

  /**
   * When every non-dust trade has a non-zero token amount, every bucket's close, low and
   * high are finite: no Infinity or NaN reaches the candles.
   */
  lemma BucketsFinite(trades: seq<Trade>, kdaPrice: int -> real, m: int)
    requires forall t :: t in trades && !IsDust(t) ==> TokenAmount(t) != 0.0
    requires m in Buckets(trades, kdaPrice)
    ensures var b := Buckets(trades, kdaPrice)[m]; b.close.Fin? && b.low.Fin? && b.high.Fin?
  {
    BucketsMatchTrades(trades, kdaPrice, m);
    var g := TradesIn(trades, m);
    forall i | 0 <= i < |g|
      ensures PriceInUsd(g[i], kdaPrice).Fin?
    {
      assert g[i] in g;
      PriceCases(g[i], kdaPrice);
    }
  }

  lemma {:induction false} TotalVolumeAtLeast(g: seq<Trade>)
    requires forall t :: t in g ==> !IsDust(t)
    ensures TotalVolume(g) >= if g == [] then 0.0 else DUST
  {
    if g != [] {
      var init := g[..|g| - 1];
      assert forall t :: t in init ==> t in g;
      assert g[|g| - 1] in g;
      TotalVolumeAtLeast(init);
    }
  }

  function WithoutDust(trades: seq<Trade>): (r: seq<Trade>)
    ensures forall t :: t in r ==> t in trades && !IsDust(t)
  {
    if trades == [] then []
    else
      var t := trades[|trades| - 1];
      WithoutDust(trades[..|trades| - 1]) + (if IsDust(t) then [] else [t])
  }

  /** The trades of a minute are exactly the non-dust trades of that minute, in fetch order. */
  lemma {:induction false} TradesInMembers(trades: seq<Trade>, m: int)
    ensures forall t :: t in TradesIn(trades, m) <==> t in trades && !IsDust(t) && MinuteStart(t.timestamp) == m
  {
    if trades != [] {
      TradesInMembers(trades[..|trades| - 1], m);
      assert trades == trades[..|trades| - 1] + [trades[|trades| - 1]];
    }
  }

  /** Dropping dust keeps exactly the non-dust trades. */
  lemma {:induction false} WithoutDustMembers(trades: seq<Trade>)
    ensures forall t :: t in WithoutDust(trades) <==> t in trades && !IsDust(t)
  {
    if trades != [] {
      WithoutDustMembers(trades[..|trades| - 1]);
      assert trades == trades[..|trades| - 1] + [trades[|trades| - 1]];
    }
  }

  lemma {:induction false} TradesInWithoutDust(trades: seq<Trade>, m: int)
    ensures TradesIn(WithoutDust(trades), m) == TradesIn(trades, m)
  {
    if trades != [] {
      var init, t := trades[..|trades| - 1], trades[|trades| - 1];
      TradesInWithoutDust(init, m);
      var w0 := WithoutDust(init);
      if !IsDust(t) {
        var w := w0 + [t];
        assert WithoutDust(trades) == w;
        assert w[..|w| - 1] == w0 && w[|w| - 1] == t;
        assert TradesIn(w, m) == TradesIn(w0, m) + (if MinuteStart(t.timestamp) == m then [t] else []);
      } else {
        assert WithoutDust(trades) == w0 + [] == w0;
        assert TradesIn(trades, m) == TradesIn(init, m) + [] == TradesIn(init, m);
      }
    }
  }

  /** Dust trades contribute to no bucket: dropping them leaves the map unchanged. */
  lemma DustIgnored(trades: seq<Trade>, kdaPrice: int -> real)
    ensures Buckets(trades, kdaPrice) == Buckets(WithoutDust(trades), kdaPrice)
  {
    var w := WithoutDust(trades);
    forall m
      ensures (m in Buckets(trades, kdaPrice)) == (m in Buckets(w, kdaPrice))
      ensures m in Buckets(trades, kdaPrice) ==> Buckets(trades, kdaPrice)[m] == Buckets(w, kdaPrice)[m]
    {
      BucketsMatchTrades(trades, kdaPrice, m);
      BucketsMatchTrades(w, kdaPrice, m);
      TradesInWithoutDust(trades, m);
    }
  }

  // ---- The per-minute walk ----

  /**
   * A `candle_master` row as the builder pushes it, in the column order of the insert,
   * with the prices as JavaScript numbers.
   */
  datatype Row = Row(ticker: string, timestamp: int, low: Num, high: Num, open: Num, close: Num, volume: real)

  /** The primary key of `candle_master`. */
  function RowKey(c: Row): (string, int)
  {
    (c.ticker, c.timestamp)
  }

  /** low <= open, close <= high as numbers, unless low and high are both NaN. */
  predicate RowWellFormed(c: Row)
  {
    Spread(c.low, c.open, c.high) && Spread(c.low, c.close, c.high)
  }

  /** The table after `INSERT ... ON CONFLICT ON CONSTRAINT candle_master_pkey DO UPDATE` of `rows`. */
  function UpsertRows(table: map<(string, int), Row>, rows: seq<Row>): map<(string, int), Row>
  {
    Assoc(table, Keyed(rows, RowKey))
  }

  /**
   * The candle of minute `t`: with a bucket, open is the previous close and low/high are
   * `Math.min`/`Math.max` of the bucket's and the previous close; without one, a flat candle
   * at the previous close with volume 0.
   */
  function MinuteCandle(ticker: string, t: int, prevClose: Num, p: map<int, Bucket>): (c: Row)
    ensures c.ticker == ticker && c.timestamp == t && c.open == prevClose
    ensures t !in p ==> c.low == c.high == c.close == prevClose && c.volume == 0.0
    ensures t in p ==> c.close == p[t].close && c.volume == p[t].volume
    ensures t in p ==> (c.low.NaN? <==> p[t].low.NaN? || prevClose.NaN?) && (c.high.NaN? <==> p[t].high.NaN? || prevClose.NaN?)
    ensures t in p && !c.low.NaN? ==> Le(c.low, prevClose) && Le(c.low, p[t].low) && (c.low == prevClose || c.low == p[t].low)
    ensures t in p && !c.high.NaN? ==> Le(prevClose, c.high) && Le(p[t].high, c.high) && (c.high == prevClose || c.high == p[t].high)
  {
    if t in p then
      var b := p[t];
      Row(ticker, t, MathMin(b.low, prevClose), MathMax(b.high, prevClose), prevClose, b.close, b.volume)
    else
      Row(ticker, t, prevClose, prevClose, prevClose, prevClose, 0.0)
  }

  /** A bucket with low <= close <= high (or NaN bounds) gives a well-formed candle, whatever the previous close. */
  lemma MinuteCandleWellFormed(ticker: string, t: int, prevClose: Num, p: map<int, Bucket>)
    requires t in p ==> Spread(p[t].low, p[t].close, p[t].high)
    ensures RowWellFormed(MinuteCandle(ticker, t, prevClose, p))
  {
    var c := MinuteCandle(ticker, t, prevClose, p);
    LeOrder(prevClose, prevClose, prevClose);
    if t in p && !c.low.NaN? {
      var b := p[t];
      LeOrder(c.low, b.low, b.close);
      LeOrder(b.close, b.high, c.high);
      LeOrder(c.low, prevClose, c.high);
    }
  }

  /** The minute candles for start, start + 1 minute, ... while before `end`. */
  function Walk(ticker: string, prevClose: Num, start: int, end: int, p: map<int, Bucket>): seq<Row>
    decreases end - start
  {
    if start >= end then []
    else
      var c := MinuteCandle(ticker, start, prevClose, p);
      [c] + Walk(ticker, c.close, start + MINUTE, end, p)
  }

  /** How many minutes the walk from `start` visits before reaching `end`. */
  function Steps(start: int, end: int): nat
    decreases end - start
  {
    if start >= end then 0 else 1 + Steps(start + MINUTE, end)
  }

  /** Where `start` stands when the walk stops. */
  function NextStart(start: int, end: int): int
  {
    start + MINUTE * Steps(start, end)
  }

  /** The walk stops at the first minute step at or after `end`. */
  lemma {:induction false} StepsBounds(start: int, end: int)
    ensures start < end ==> end <= NextStart(start, end) < end + MINUTE
    ensures start >= end ==> NextStart(start, end) == start
    decreases end - start
  {
    if start < end {
      StepsBounds(start + MINUTE, end);
    }
  }

  /** Walking to `e` and then on to `e2` visits as many minutes as walking to `e2` directly. */
  lemma {:induction false} StepsSplit(s: int, e: int, e2: int)
    requires e <= e2
    ensures Steps(s, e2) == Steps(s, e) + Steps(NextStart(s, e), e2)
    decreases e - s
  {
    if s < e {
      StepsSplit(s + MINUTE, e, e2);
    }
  }

  /**
   * The walk emits one candle per visited minute, the i-th for minute start + i minutes,
   * each built on the close of the candle before it (on `prevClose` for the first).
   */
  lemma {:induction false} WalkMinutes(ticker: string, prevClose: Num, start: int, end: int, p: map<int, Bucket>)
    ensures var w := Walk(ticker, prevClose, start, end, p);
      && |w| == Steps(start, end)
      && forall i :: 0 <= i < |w| ==>
           w[i] == MinuteCandle(ticker, start + MINUTE * i, if i == 0 then prevClose else w[i - 1].close, p)
    decreases end - start
  {
    if start < end {
      var c := MinuteCandle(ticker, start, prevClose, p);
      WalkMinutes(ticker, c.close, start + MINUTE, end, p);
      var w := Walk(ticker, prevClose, start, end, p);
      var rest := Walk(ticker, c.close, start + MINUTE, end, p);
      assert w == [c] + rest;
      forall i | 1 <= i < |w|
        ensures w[i] == MinuteCandle(ticker, start + MINUTE * i, w[i - 1].close, p)
      {
        assert w[i] == rest[i - 1];
        assert start + MINUTE * i == start + MINUTE + MINUTE * (i - 1);
        if i > 1 {
          assert w[i - 1] == rest[i - 2];
        }
      }
    }
  }

  /** Buckets with low <= close <= high (or NaN bounds) make every walked candle well formed. */
  lemma {:induction false} WalkWellFormed(ticker: string, prevClose: Num, start: int, end: int, p: map<int, Bucket>)
    requires forall m :: m in p ==> Spread(p[m].low, p[m].close, p[m].high)
    ensures forall c :: c in Walk(ticker, prevClose, start, end, p) ==> RowWellFormed(c)
    decreases end - start
  {
    if start < end {
      var c := MinuteCandle(ticker, start, prevClose, p);
      MinuteCandleWellFormed(ticker, start, prevClose, p);
      WalkWellFormed(ticker, c.close, start + MINUTE, end, p);
    }
  }

  /** The inner `while (start < end)` loop: push one candle per minute onto `tempCandles`. */
  method BuildChunk(ticker: string, startCandle: Row, start: int, end: int, p: map<int, Bucket>)
    returns (tempCandles: seq<Row>, next: int)
    ensures tempCandles == [startCandle] + Walk(ticker, startCandle.close, start, end, p)
    ensures next == NextStart(start, end)
  {
    tempCandles := [startCandle];
    next := start;
    while next < end
      invariant |tempCandles| > 0
      invariant tempCandles + Walk(ticker, tempCandles[|tempCandles| - 1].close, next, end, p)
             == [startCandle] + Walk(ticker, startCandle.close, start, end, p)
      invariant NextStart(next, end) == NextStart(start, end)
      decreases end - next
    {
      var prevClose := tempCandles[|tempCandles| - 1].close;
      var c := MinuteCandle(ticker, next, prevClose, p);
      tempCandles := tempCandles + [c];
      next := next + MINUTE;
    }
  }

  // ---- The weekly chunk loop ----

  /** The current minute minus one minute. */
  function EndDate(now: int): int
  {
    MinuteStart(now) - MINUTE
  }

  /** Processing starts one minute after the anchor's minute. */
  function FirstStart(anchor: Row): int
  {
    MinuteStart(anchor.timestamp) + MINUTE
  }

  /** A chunk ends one week after its start, or at END_DATE if that comes first. */
  function ChunkEnd(start: int, endDate: int): (e: int)
    ensures e == if start + WEEK > endDate then endDate else start + WEEK
    ensures start < endDate ==> start < e <= endDate && e - start <= WEEK
  {
    if start + WEEK > endDate then endDate else start + WEEK
  }

  /** The rows one chunk flushes: the carried candle, then one candle per minute of [start, end). */
  function ChunkRows(ticker: string, startCandle: Row, start: int, end: int,
                     fetch: (int, int) -> seq<Trade>, kdaPrice: int -> real): (rows: seq<Row>)
    ensures |rows| > 0 && rows[0] == startCandle
  {
    var trades := fetch(start, end);
    [startCandle] + Walk(ticker, startCandle.close, start, end, Buckets(trades, kdaPrice))
  }

  /** The rows flushed by every remaining chunk, the carried candle first in each. */
  function Chunks(ticker: string, startCandle: Row, start: int, endDate: int,
                  fetch: (int, int) -> seq<Trade>, kdaPrice: int -> real): seq<seq<Row>>
    decreases endDate - start
  {
    if start >= endDate then []
    else
      var end := ChunkEnd(start, endDate);
      var temp := ChunkRows(ticker, startCandle, start, end, fetch, kdaPrice);
      StepsBounds(start, end);
      [temp] + Chunks(ticker, temp[|temp| - 1], NextStart(start, end), endDate, fetch, kdaPrice)
  }

  /**
   * Only the buckets of minutes inside [start, end) matter to the walk. The fetch query
   * reads `from_token = $1 OR (to_token = $2 AND timestamp in range)` because AND binds
   * tighter than OR, so it also returns out-of-range trades; by this lemma they do not
   * change the candles.
   */
  lemma {:induction false} WalkLocal(ticker: string, prevClose: Num, start: int, end: int, p: map<int, Bucket>, q: map<int, Bucket>)
    requires forall t :: start <= t < end ==> (t in p <==> t in q) && (t in p ==> p[t] == q[t])
    ensures Walk(ticker, prevClose, start, end, p) == Walk(ticker, prevClose, start, end, q)
    decreases end - start
  {
    if start < end {
      var c := MinuteCandle(ticker, start, prevClose, p);
      WalkLocal(ticker, c.close, start + MINUTE, end, p, q);
    }
  }

  /**
   * `b` holds one well-formed candle of `ticker` per minute from `start` on, each opening at
   * the close before it (the first at `prevClose`).
   */
  ghost predicate Minutes(b: seq<Row>, ticker: string, start: int, prevClose: Num)
  {
    && (forall j :: 0 <= j < |b| ==> b[j].ticker == ticker && b[j].timestamp == start + MINUTE * j && RowWellFormed(b[j]))
    && (|b| > 0 ==> b[0].open == prevClose)
    && (forall j :: 0 < j < |b| ==> b[j].open == b[j - 1].close)
  }

  lemma WalkIsMinutes(ticker: string, prevClose: Num, start: int, end: int, p: map<int, Bucket>)
    requires forall m :: m in p ==> Spread(p[m].low, p[m].close, p[m].high)
    ensures |Walk(ticker, prevClose, start, end, p)| == Steps(start, end)
    ensures Minutes(Walk(ticker, prevClose, start, end, p), ticker, start, prevClose)
  {
    var w := Walk(ticker, prevClose, start, end, p);
    WalkMinutes(ticker, prevClose, start, end, p);
    WalkWellFormed(ticker, prevClose, start, end, p);
    forall j | 0 <= j < |w|
      ensures w[j].ticker == ticker && w[j].timestamp == start + MINUTE * j
      ensures w[j].open == (if j == 0 then prevClose else w[j - 1].close)
      ensures RowWellFormed(w[j])
    {
      assert w[j] == MinuteCandle(ticker, start + MINUTE * j, if j == 0 then prevClose else w[j - 1].close, p);
      assert w[j] in w;
    }
  }

  lemma MinutesAt(b: seq<Row>, ticker: string, start: int, prevClose: Num, j: int)
    requires Minutes(b, ticker, start, prevClose) && 0 <= j < |b|
    ensures b[j].ticker == ticker && b[j].timestamp == start + MINUTE * j && RowWellFormed(b[j])
    ensures b[j].open == (if j == 0 then prevClose else b[j - 1].close)
  {
  }

  /** Minutes laid end to end, the second run starting where the first stops, are minutes. */
  lemma MinutesAppend(w: seq<Row>, rest: seq<Row>, ticker: string, start: int, prevClose: Num)
    requires |w| > 0 && Minutes(w, ticker, start, prevClose)
    requires Minutes(rest, ticker, start + MINUTE * |w|, w[|w| - 1].close)
    ensures Minutes(w + rest, ticker, start, prevClose)
  {
    var b, k := w + rest, |w|;
    forall j | 0 <= j < |b|
      ensures b[j].ticker == ticker && b[j].timestamp == start + MINUTE * j
      ensures b[j].open == (if j == 0 then prevClose else b[j - 1].close)
      ensures RowWellFormed(b[j])
    {
      if j < k {
        assert b[j] == w[j];
        if j > 0 { assert b[j - 1] == w[j - 1]; }
      } else {
        var i := j - k;
        MinutesAt(rest, ticker, start + MINUTE * k, w[k - 1].close, i);
        assert b[j] == rest[i];
        assert b[j - 1] == (if i == 0 then w[k - 1] else rest[i - 1]);
      }
    }
  }

  /** The rows of each flush, without the carried first candle, laid end to end. */
  function Built(chunks: seq<seq<Row>>): seq<Row>
  {
    if chunks == [] then []
    else (if |chunks[0]| > 0 then chunks[0][1..] else []) + Built(chunks[1..])
  }

  /**
   * Each flush starts with the candle carried over: the anchor for the first one, the last
   * row of the previous flush for the others.
   */
  lemma {:induction false} ChunksCarry(ticker: string, startCandle: Row, start: int, endDate: int,
                                       fetch: (int, int) -> seq<Trade>, kdaPrice: int -> real)
    ensures var cs := Chunks(ticker, startCandle, start, endDate, fetch, kdaPrice);
      && (forall i :: 0 <= i < |cs| ==> |cs[i]| > 0)
      && (|cs| > 0 ==> cs[0][0] == startCandle)
      && (forall i :: 0 < i < |cs| ==> cs[i][0] == cs[i - 1][|cs[i - 1]| - 1])
    decreases endDate - start
  {
    if start < endDate {
      var end := ChunkEnd(start, endDate);
      var temp := ChunkRows(ticker, startCandle, start, end, fetch, kdaPrice);
      StepsBounds(start, end);
      var rest := Chunks(ticker, temp[|temp| - 1], NextStart(start, end), endDate, fetch, kdaPrice);
      ChunksCarry(ticker, temp[|temp| - 1], NextStart(start, end), endDate, fetch, kdaPrice);
      var cs := Chunks(ticker, startCandle, start, endDate, fetch, kdaPrice);
      assert cs == [temp] + rest;
      forall i | 0 < i < |cs|
        ensures cs[i][0] == cs[i - 1][|cs[i - 1]| - 1]
      {
        assert cs[i] == rest[i - 1];
        if i > 1 {
          assert cs[i - 1] == rest[i - 2];
        }
      }
    }
  }

  /**
   * The built candles cover every minute from `start` up to END_DATE exactly once and in
   * order, with no gap at chunk boundaries; each opens at the close of the candle before it
   * (the first at the carried candle's close), and each has low <= open, close <= high.
   */
  lemma {:induction false} BuiltMinutes(ticker: string, startCandle: Row, start: int, endDate: int,
                                        fetch: (int, int) -> seq<Trade>, kdaPrice: int -> real)
    ensures var b := Built(Chunks(ticker, startCandle, start, endDate, fetch, kdaPrice));
      && |b| == Steps(start, endDate)
      && forall j :: 0 <= j < |b| ==>
           && b[j].ticker == ticker && b[j].timestamp == start + MINUTE * j
           && b[j].open == (if j == 0 then startCandle.close else b[j - 1].close)
           && RowWellFormed(b[j])
    decreases endDate - start
  {
    if start < endDate {
      var end := ChunkEnd(start, endDate);
      var rows := fetch(start, end);
      var p := Buckets(rows, kdaPrice);
      var w := Walk(ticker, startCandle.close, start, end, p);
      var temp := ChunkRows(ticker, startCandle, start, end, fetch, kdaPrice);
      assert temp == [startCandle] + w;
      StepsBounds(start, end);
      var next := NextStart(start, end);
      BuiltMinutes(ticker, temp[|temp| - 1], next, endDate, fetch, kdaPrice);
      forall m | m in p ensures Spread(p[m].low, p[m].close, p[m].high) {
        BucketsWellFormed(rows, kdaPrice, m);
      }
      WalkIsMinutes(ticker, startCandle.close, start, end, p);
      StepsSplit(start, end, endDate);
      var rest := Built(Chunks(ticker, temp[|temp| - 1], next, endDate, fetch, kdaPrice));
      var b := Built(Chunks(ticker, startCandle, start, endDate, fetch, kdaPrice));
      TailOfCons(startCandle, w);
      assert b == temp[1..] + rest;
      assert Minutes(rest, ticker, next, temp[|temp| - 1].close);
      assert |w| > 0 && next == start + MINUTE * |w| && temp[|temp| - 1] == w[|w| - 1];
      MinutesAppend(w, rest, ticker, start, startCandle.close);
    }
  }

  /** The table after upserting each flush in turn. */
  function UpsertAll(table: map<(string, int), Row>, chunks: seq<seq<Row>>): map<(string, int), Row>
  {
    if chunks == [] then table
    else UpsertRows(UpsertAll(table, chunks[..|chunks| - 1]), chunks[|chunks| - 1])
  }

  lemma UpsertAllSnoc(table: map<(string, int), Row>, chunks: seq<seq<Row>>, rows: seq<Row>)
    ensures UpsertAll(table, chunks + [rows]) == UpsertRows(UpsertAll(table, chunks), rows)
  {
    assert (chunks + [rows])[..|chunks|] == chunks;
  }

  /**
   * One token's backfill: from one minute after the anchor's minute up to END_DATE, fetch a
   * week of trades at a time, build its minute candles and upsert them with the carried
   * candle first. Returns the flushed row sets and the resulting `candle_master` table.
   */
  method BackfillToken(ticker: string, first: Row, now: int, fetch: (int, int) -> seq<Trade>,
                       kdaPrice: int -> real, table: map<(string, int), Row>)
    returns (flushed: seq<seq<Row>>, result: map<(string, int), Row>)
    ensures flushed == Chunks(ticker, first.(ticker := ticker), FirstStart(first), EndDate(now), fetch, kdaPrice)
    ensures result == UpsertAll(table, flushed)
  {
    var endDate := EndDate(now);
    var start := FirstStart(first);
    var startCandle := first.(ticker := ticker);
    flushed := [];
    result := table;
    while start < endDate
      invariant flushed + Chunks(ticker, startCandle, start, endDate, fetch, kdaPrice)
             == Chunks(ticker, first.(ticker := ticker), FirstStart(first), endDate, fetch, kdaPrice)
      invariant result == UpsertAll(table, flushed)
      decreases endDate - start
    {
      var temp, next := BackfillChunk(ticker, startCandle, start, endDate, fetch, kdaPrice);
      ConsumeFirst(flushed, temp, Chunks(ticker, temp[|temp| - 1], next, endDate, fetch, kdaPrice),
                   Chunks(ticker, startCandle, start, endDate, fetch, kdaPrice),
                   Chunks(ticker, first.(ticker := ticker), FirstStart(first), endDate, fetch, kdaPrice));
      UpsertAllSnoc(table, flushed, temp);
      result := UpsertRows(result, temp);
      flushed := flushed + [temp];
      startCandle := temp[|temp| - 1];
      start := next;
    }
  }

  lemma TailOfCons<T>(x: T, s: seq<T>)
    ensures ([x] + s)[1..] == s
  {
  }

  /** Moving the first of the chunks still to come onto those done keeps the whole. */
  lemma ConsumeFirst<T>(done: seq<T>, x: T, rest: seq<T>, todo: seq<T>, whole: seq<T>)
    requires done + todo == whole && todo == [x] + rest
    ensures (done + [x]) + rest == whole
  {
    assert done + ([x] + rest) == (done + [x]) + rest;
  }

  /** One pass of the outer loop: fetch the chunk's trades, reduce them, walk its minutes. */
  method BackfillChunk(ticker: string, startCandle: Row, start: int, endDate: int,
                       fetch: (int, int) -> seq<Trade>, kdaPrice: int -> real)
    returns (temp: seq<Row>, next: int)
    requires start < endDate
    ensures |temp| > 0 && start < next
    ensures Chunks(ticker, startCandle, start, endDate, fetch, kdaPrice)
         == [temp] + Chunks(ticker, temp[|temp| - 1], next, endDate, fetch, kdaPrice)
  {
    var end := ChunkEnd(start, endDate);
    var rows := fetch(start, end);
    var p := BuildBuckets(rows, kdaPrice);
    temp, next := BuildChunk(ticker, startCandle, start, end, p);
    assert temp == ChunkRows(ticker, startCandle, start, end, fetch, kdaPrice);
    StepsBounds(start, end);
  }

  /**
   * The whole script: every token of the token map in turn, each anchored at the candle
   * `firstCandle` provides for it and named by its ticker. The anchor's prices are the
   * `parseFloat` of the stored candle's columns, so a column that does not parse is NaN.
   */
  method BackfillAll(tokens: seq<(string, string)>, firstCandle: string -> Row, now: int,
                     fetch: string -> (int, int) -> seq<Trade>, kdaPrice: int -> real,
                     table: map<(string, int), Row>)
    returns (result: map<(string, int), Row>)
    ensures result == BackfillTable(tokens, firstCandle, now, fetch, kdaPrice, table)
  {
    result := table;
    for i := 0 to |tokens|
      invariant result == BackfillTable(tokens[..i], firstCandle, now, fetch, kdaPrice, table)
    {
      var (token, ticker) := tokens[i];
      var flushed;
      flushed, result := BackfillToken(ticker, firstCandle(token), now, fetch(token), kdaPrice, result);
      assert tokens[..i + 1][..i] == tokens[..i];
    }
    assert tokens[..|tokens|] == tokens;
  }

  /** The table after backfilling every token of `tokens` in order. */
  ghost function BackfillTable(tokens: seq<(string, string)>, firstCandle: string -> Row, now: int,
                               fetch: string -> (int, int) -> seq<Trade>, kdaPrice: int -> real,
                               table: map<(string, int), Row>): map<(string, int), Row>
  {
    if tokens == [] then table
    else
      var (token, ticker) := tokens[|tokens| - 1];
      var before := BackfillTable(tokens[..|tokens| - 1], firstCandle, now, fetch, kdaPrice, table);
      var first := firstCandle(token);
      UpsertAll(before, Chunks(ticker, first.(ticker := ticker), FirstStart(first), EndDate(now), fetch(token), kdaPrice))
  }
}
