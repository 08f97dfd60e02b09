/**
 * The pairs cache builder: per ticker it combines the most recent close, the 24-hour
 * volume, the closes one hour, one day and seven days ago, and the token's extra
 * information (supplies, socials, address, image, all-time high and low) into one pair
 * record keyed by the ticker.
 */
module PairsUpdater {
  import opened Wrappers
  import opened Store
  import opened Strings
  import opened Helper
  import opened Js

  const KDA_IMG := "https://swap.kaddex.com/images/crypto/kda-crypto.svg"
  const KADDEX_IMG := "https://swap.kaddex.com/images/crypto/kaddex-crypto.svg"

  datatype TokenRef = TokenRef(name: string, address: string, img: string)
  datatype ExchangeRef = ExchangeRef(name: string, img: string)

  /** A row of the 24-hour volume query. */
  datatype VolumeRow = VolumeRow(ticker: string, volume: real)
  /** A row of the interval-closes query: the close of `ticker` at the start of `interval` ago. */
  datatype IntervalRow = IntervalRow(ticker: string, close: real, interval: string)
  /** A row of `at_price`. */
  datatype AtPriceRow = AtPriceRow(ticker: string, high: real, low: real)
  /** A cached token; its supplies are whatever the token document holds (a number, or null). */
  datatype Token = Token(code: string, logoUrl: string, symbol: string, totalSupply: Value,
                         circulatingSupply: Value, socials: Option<seq<string>>)
  /** A row of the recent-candles query: the latest close of a ticker. */
  datatype RecentRow = RecentRow(ticker: string, close: real)

  /**
   * The extra information of a token; its supplies are what `parseFloat` makes of the cached
   * ones (a number or NaN), and the all-time extremes are absent without an `at_price` row.
   */
  datatype ExtraInfo = ExtraInfo(totalSupply: Value, circulatingSupply: Value, socials: seq<string>,
                                 address: string, image: string, allTimeHigh: Option<real>, allTimeLow: Option<real>)

  datatype Pair = Pair(
    id: string, symbol: string, token0: TokenRef, token1: TokenRef, exchange: ExchangeRef, pair: string,
    price: real, pricePercChange1h: Option<real>, pricePercChange24h: Option<real>, pricePercChange7d: Option<real>,
    volume24h: Option<real>, totalSupply: Value, circulatingSupply: Value, socials: seq<string>,
    allTimeHigh: Option<real>, allTimeLow: Option<real>)

  /** `m[k]`, undefined (None) when absent. */
  function Get<V>(m: map<string, V>, k: string): (r: Option<V>)
    ensures r.Some? <==> k in m
    ensures r.Some? ==> r.value == m[k]
  {
    if k in m then Some(m[k]) else None
  }

  // ---- getVolume ----

  function VolumePairs(rows: seq<VolumeRow>): (ps: seq<(string, real)>)
    ensures |ps| == |rows|
    ensures forall i :: 0 <= i < |rows| ==> ps[i] == (rows[i].ticker, rows[i].volume)
  {
    seq(|rows|, i requires 0 <= i < |rows| => (rows[i].ticker, rows[i].volume))
  }

  /** The `reduce` of `getVolume`: ticker to volume. */
  method GetVolume(rows: seq<VolumeRow>) returns (p: map<string, real>)
    ensures p == Assoc(map[], VolumePairs(rows))
  {
    p := BuildMap(VolumePairs(rows));
  }

  /**
   * A ticker has a volume exactly when some row names it, and its volume is that of the
   * last such row.
   */
  lemma VolumesByTicker(rows: seq<VolumeRow>, i: nat)
    requires i < |rows| && forall j :: i < j < |rows| ==> rows[j].ticker != rows[i].ticker
    ensures Assoc(map[], VolumePairs(rows)).Keys == set j | 0 <= j < |rows| :: rows[j].ticker
    ensures Assoc(map[], VolumePairs(rows))[rows[i].ticker] == rows[i].volume
  {
    var ps := VolumePairs(rows);
    AssocKeys(map[], ps);
    AssocLastWins(map[], ps, i);
    assert KeysOf(ps) == set j | 0 <= j < |rows| :: rows[j].ticker by {
      forall k | k in KeysOf(ps) ensures k in set j | 0 <= j < |rows| :: rows[j].ticker {
        var j :| 0 <= j < |ps| && ps[j].0 == k;
        assert rows[j].ticker == k;
      }
      forall k | k in set j | 0 <= j < |rows| :: rows[j].ticker ensures k in KeysOf(ps) {
        var j :| 0 <= j < |rows| && rows[j].ticker == k;
        assert ps[j].0 == k;
      }
    }
  }

  // ---- getTokenIntervals ----

  /** The `reduce` of `getTokenIntervals`: interval to (ticker to close), an inner map created on first use. */
  function Intervals(rows: seq<IntervalRow>): map<string, map<string, real>>
  {
    if rows == [] then map[]
    else
      var p := Intervals(rows[..|rows| - 1]);
      var c := rows[|rows| - 1];
      var inner := if c.interval in p then p[c.interval] else map[];
      p[c.interval := inner[c.ticker := c.close]]
  }

  method GetTokenIntervals(rows: seq<IntervalRow>) returns (p: map<string, map<string, real>>)
    ensures p == Intervals(rows)
  {
    p := map[];
    for i := 0 to |rows|
      invariant p == Intervals(rows[..i])
    {
      assert rows[..i + 1][..i] == rows[..i];
      var c := rows[i];
      if c.interval !in p {
        p := p[c.interval := map[]];
      }
      p := p[c.interval := p[c.interval][c.ticker := c.close]];
    }
    assert rows[..|rows|] == rows;
  }

  /** The same rows written into one flat map keyed by (interval, ticker). */
  function FlatIntervals(rows: seq<IntervalRow>): map<(string, string), real>
  {
    Assoc(map[], seq(|rows|, i requires 0 <= i < |rows| => ((rows[i].interval, rows[i].ticker), rows[i].close)))
  }

  /**
   * The nested map agrees with the flat one: an interval is present exactly when some row
   * names it, and (interval, ticker) holds the close of the last row naming both.
   */
  lemma {:induction false} IntervalsMatchFlat(rows: seq<IntervalRow>, k: string, t: string)
    ensures k in Intervals(rows) <==> exists j :: 0 <= j < |rows| && rows[j].interval == k
    ensures (k in Intervals(rows) && t in Intervals(rows)[k]) <==> (k, t) in FlatIntervals(rows)
    ensures k in Intervals(rows) && t in Intervals(rows)[k] ==> Intervals(rows)[k][t] == FlatIntervals(rows)[(k, t)]
  {
    if rows != [] {
      var init := rows[..|rows| - 1];
      IntervalsMatchFlat(init, k, t);
      var ps := seq(|rows|, i requires 0 <= i < |rows| => ((rows[i].interval, rows[i].ticker), rows[i].close));
      var qs := seq(|init|, i requires 0 <= i < |init| => ((init[i].interval, init[i].ticker), init[i].close));
      assert ps[..|ps| - 1] == qs;
      assert FlatIntervals(rows) == FlatIntervals(init)[ps[|ps| - 1].0 := ps[|ps| - 1].1];
      if exists j :: 0 <= j < |init| && init[j].interval == k {
        var j :| 0 <= j < |init| && init[j].interval == k;
        assert rows[j] == init[j];
      }
      if exists j :: 0 <= j < |rows| && rows[j].interval == k {
        var j :| 0 <= j < |rows| && rows[j].interval == k;
        if j < |init| { assert init[j] == rows[j]; }
      }
    }
  }

  // ---- getAllTokenExtraInfo ----

  function HighLowPairs(rows: seq<AtPriceRow>): seq<(string, (real, real))>
  {
    seq(|rows|, i requires 0 <= i < |rows| => (rows[i].ticker, (rows[i].high, rows[i].low)))
  }

  /** The extra information of one token, with the all-time extremes recorded for its symbol, if any. */
  function ExtraInfoOf(t: Token, highLow: map<string, (real, real)>, parse: string -> Option<real>): (e: ExtraInfo)
    ensures e.allTimeHigh.Some? <==> t.symbol in highLow
    ensures e.allTimeLow.Some? <==> t.symbol in highLow
    ensures t.symbol in highLow ==> e.allTimeHigh == Some(highLow[t.symbol].0) && e.allTimeLow == Some(highLow[t.symbol].1)
    ensures e.socials == t.socials.GetOr([]) && e.address == t.code && e.image == t.logoUrl
    ensures e.totalSupply == ParseFloat(t.totalSupply, parse) && e.circulatingSupply == ParseFloat(t.circulatingSupply, parse)
    ensures t.circulatingSupply == Null ==> e.circulatingSupply == NaN
  {
    var hl := Get(highLow, t.symbol);
    ExtraInfo(ParseFloat(t.totalSupply, parse), ParseFloat(t.circulatingSupply, parse), t.socials.GetOr([]), t.code, t.logoUrl,
              if hl.Some? then Some(hl.value.0) else None,
              if hl.Some? then Some(hl.value.1) else None)
  }

  function ExtraInfoPairs(tokens: seq<Token>, highLow: map<string, (real, real)>, parse: string -> Option<real>): (ps: seq<(string, ExtraInfo)>)
    ensures |ps| == |tokens|
    ensures forall i :: 0 <= i < |tokens| ==> ps[i] == (tokens[i].symbol, ExtraInfoOf(tokens[i], highLow, parse))
  {
    seq(|tokens|, i requires 0 <= i < |tokens| => (tokens[i].symbol, ExtraInfoOf(tokens[i], highLow, parse)))
  }

  /** The two reduces of `getAllTokenExtraInfo`: extremes by ticker, then extra information by symbol. */
  method GetAllTokenExtraInfo(atPrice: seq<AtPriceRow>, tokens: seq<Token>, parse: string -> Option<real>) returns (p: map<string, ExtraInfo>)
    ensures p == Assoc(map[], ExtraInfoPairs(tokens, Assoc(map[], HighLowPairs(atPrice)), parse))
  {
    var tokenHL := BuildMap(HighLowPairs(atPrice));
    p := BuildMap(ExtraInfoPairs(tokens, tokenHL, parse));
  }

  /**
   * The information stored for a symbol is that of the last token with the symbol, and it
   * has all-time extremes exactly when some `at_price` row has that symbol as its ticker.
   */
  lemma ExtraInfoBySymbol(atPrice: seq<AtPriceRow>, tokens: seq<Token>, parse: string -> Option<real>, i: nat)
    requires i < |tokens| && forall j :: i < j < |tokens| ==> tokens[j].symbol != tokens[i].symbol
    ensures var info := Assoc(map[], ExtraInfoPairs(tokens, Assoc(map[], HighLowPairs(atPrice)), parse));
      && tokens[i].symbol in info
      && info[tokens[i].symbol].address == tokens[i].code
      && (info[tokens[i].symbol].allTimeHigh.Some? <==> exists j :: 0 <= j < |atPrice| && atPrice[j].ticker == tokens[i].symbol)
  {
    var hl := Assoc(map[], HighLowPairs(atPrice));
    AssocLastWins(map[], ExtraInfoPairs(tokens, hl, parse), i);
    AssocKeys(map[], HighLowPairs(atPrice));
    var hps := HighLowPairs(atPrice);
    if exists j :: 0 <= j < |atPrice| && atPrice[j].ticker == tokens[i].symbol {
      var j :| 0 <= j < |atPrice| && atPrice[j].ticker == tokens[i].symbol;
      assert hps[j].0 == tokens[i].symbol;
    }
    if tokens[i].symbol in hl {
      var j :| 0 <= j < |hps| && hps[j].0 == tokens[i].symbol;
      assert atPrice[j].ticker == tokens[i].symbol;
    }
  }

  // ---- getPriceChange, getPair ----

  /** The relative change from `from` to `to`; null when `from` is missing or zero. */
  function GetPriceChange(from: Option<real>, to: real): (r: Option<real>)
    ensures r.None? <==> from.None? || from.value == 0.0
    ensures r.Some? ==> from.value + from.value * r.value == to
  {
    if from.None? || from.value == 0.0 then None
    else Some((to - from.value) / from.value)
  }

  /**
   * The pair record of a ticker. Reading the address of a missing extra-information entry
   * or a ticker of a missing interval map throws a TypeError.
   */
  function GetPair(ticker: string, close: real, volume: Option<real>, intervals: map<string, map<string, real>>,
                   extraInfo: Option<ExtraInfo>): (r: Result<Pair>)
    ensures r.Ok? <==> extraInfo.Some? && "1 hour" in intervals && "1 day" in intervals && "7 days" in intervals
    ensures r.Err? && extraInfo.None? ==> r.error == "Cannot read properties of undefined (reading 'address')"
    ensures r.Ok? ==> (r.value.price == close && r.value.volume24h == volume && r.value.token0.name == ticker
                       && r.value.pricePercChange1h == GetPriceChange(Get(intervals["1 hour"], ticker), close)
                       && r.value.pricePercChange24h == GetPriceChange(Get(intervals["1 day"], ticker), close)
                       && r.value.pricePercChange7d == GetPriceChange(Get(intervals["7 days"], ticker), close)
                       && r.value.allTimeHigh == extraInfo.value.allTimeHigh && r.value.allTimeLow == extraInfo.value.allTimeLow)
  {
    if extraInfo.None? then Err("Cannot read properties of undefined (reading 'address')")
    else if "1 hour" !in intervals || "1 day" !in intervals || "7 days" !in intervals then
      Err("Cannot read properties of undefined (reading '" + ticker + "')")
    else
      var e := extraInfo.value;
      Ok(Pair("KDA:" + ticker, ticker + ":USD:KADDEX",
              TokenRef(ticker, e.address, e.image), TokenRef("KDA", "coin", KDA_IMG), ExchangeRef("KADDEX", KADDEX_IMG),
              "KDA/" + ticker, close,
              GetPriceChange(Get(intervals["1 hour"], ticker), close),
              GetPriceChange(Get(intervals["1 day"], ticker), close),
              GetPriceChange(Get(intervals["7 days"], ticker), close),
              volume, e.totalSupply, e.circulatingSupply, e.socials, e.allTimeHigh, e.allTimeLow))
  }

  /**
   * The identifiers of a pair parse back to its ticker: the id through GetTickerFromId
   * and, for a colon-free ticker, the symbol through GetSymbol.
   */
  lemma PairIdentifiers(ticker: string, close: real, volume: Option<real>, intervals: map<string, map<string, real>>,
                        extraInfo: Option<ExtraInfo>)
    requires GetPair(ticker, close, volume, intervals, extraInfo).Ok?
    ensures var p := GetPair(ticker, close, volume, intervals, extraInfo).value;
      && GetTickerFromId(p.id) == ticker
      && p.pair == "KDA/" + ticker
      && (':' !in ticker ==> GetSymbol(p.symbol) == Ok(Symbol(ticker, "USD", "KADDEX")))
  {
    var p := GetPair(ticker, close, volume, intervals, extraInfo).value;
    assert p.id == "KDA:" + ticker && p.symbol == ticker + ":USD:KADDEX";
    PairIdParses(ticker);
    if ':' !in ticker {
      PairSymbolParses(ticker);
    }
  }

  lemma PairIdParses(ticker: string)
    ensures GetTickerFromId("KDA:" + ticker) == ticker
  {
    assert "KDA:" + ticker == "KDA" + ":" + ticker;
    assert ':' !in "KDA";
    TickerFromPrefixedId("KDA", ticker);
  }

  lemma PairSymbolParses(ticker: string)
    requires ':' !in ticker
    ensures GetSymbol(ticker + ":USD:KADDEX") == Ok(Symbol(ticker, "USD", "KADDEX"))
  {
    assert ':' !in "USD" && ':' !in "KADDEX";
    GetSymbolOfParts(ticker, "USD", "KADDEX");
    assert ticker + ":USD:KADDEX" == ticker + ":" + "USD" + ":" + "KADDEX";
  }

  // ---- buildPairs ----

  /** The pair of one recent row. */
  function PairOf(row: RecentRow, volume: map<string, real>, intervals: map<string, map<string, real>>,
                  extraInfos: map<string, ExtraInfo>): Result<Pair>
  {
    GetPair(row.ticker, row.close, Get(volume, row.ticker), intervals, Get(extraInfos, row.ticker))
  }

  /** The `reduce` of `buildPairs`: the first row whose pair cannot be built throws. */
  function BuildPairs(rows: seq<RecentRow>, volume: map<string, real>, intervals: map<string, map<string, real>>,
                      extraInfos: map<string, ExtraInfo>): Result<map<string, Pair>>
  {
    if rows == [] then Ok(map[])
    else
      match BuildPairs(rows[..|rows| - 1], volume, intervals, extraInfos)
      case Err(e) => Err(e)
      case Ok(p) =>
        var last := rows[|rows| - 1];
        match PairOf(last, volume, intervals, extraInfos)
        case Err(e) => Err(e)
        case Ok(pair) => Ok(p[last.ticker := pair])
  }

  method BuildPairsLoop(rows: seq<RecentRow>, volume: map<string, real>, intervals: map<string, map<string, real>>,
                        extraInfos: map<string, ExtraInfo>) returns (r: Result<map<string, Pair>>)
    ensures r == BuildPairs(rows, volume, intervals, extraInfos)
  {
    var p: map<string, Pair> := map[];
    for i := 0 to |rows|
      invariant BuildPairs(rows[..i], volume, intervals, extraInfos) == Ok(p)
    {
      assert rows[..i + 1][..i] == rows[..i];
      var pair := PairOf(rows[i], volume, intervals, extraInfos);
      if pair.Err? {
        BuildPairsFails(rows, volume, intervals, extraInfos, i + 1);
        return Err(pair.error);
      }
      p := p[rows[i].ticker := pair.value];
    }
    assert rows[..|rows|] == rows;
    r := Ok(p);
  }

  /** Once a prefix fails, the whole reduce fails with the same error. */
  lemma {:induction false} BuildPairsFails(rows: seq<RecentRow>, volume: map<string, real>, intervals: map<string, map<string, real>>,
                                           extraInfos: map<string, ExtraInfo>, n: nat)
    requires n <= |rows| && BuildPairs(rows[..n], volume, intervals, extraInfos).Err?
    ensures BuildPairs(rows, volume, intervals, extraInfos) == BuildPairs(rows[..n], volume, intervals, extraInfos)
    decreases |rows| - n
  {
    if n < |rows| {
      assert rows[..n + 1][..n] == rows[..n];
      BuildPairsFails(rows, volume, intervals, extraInfos, n + 1);
    } else {
      assert rows[..n] == rows;
    }
  }

  /** The reduce succeeds exactly when every row's pair can be built. */
  lemma {:induction false} BuildPairsOk(rows: seq<RecentRow>, volume: map<string, real>,
                                        intervals: map<string, map<string, real>>, extraInfos: map<string, ExtraInfo>)
    ensures BuildPairs(rows, volume, intervals, extraInfos).Ok?
      <==> forall i :: 0 <= i < |rows| ==> PairOf(rows[i], volume, intervals, extraInfos).Ok?
  {
    if rows != [] {
      var init := rows[..|rows| - 1];
      BuildPairsOk(init, volume, intervals, extraInfos);
      assert forall i :: 0 <= i < |init| ==> init[i] == rows[i];
    }
  }

  /** A successful reduce holds one pair per ticker of the rows. */
  lemma {:induction false} BuildPairsKeys(rows: seq<RecentRow>, volume: map<string, real>,
                                          intervals: map<string, map<string, real>>, extraInfos: map<string, ExtraInfo>)
    requires BuildPairs(rows, volume, intervals, extraInfos).Ok?
    ensures BuildPairs(rows, volume, intervals, extraInfos).value.Keys == set i | 0 <= i < |rows| :: rows[i].ticker
  {
    if rows != [] {
      var init := rows[..|rows| - 1];
      var last := rows[|rows| - 1];
      BuildPairsKeys(init, volume, intervals, extraInfos);
      var keys := set i | 0 <= i < |rows| :: rows[i].ticker;
      var initKeys := set i | 0 <= i < |init| :: init[i].ticker;
      assert keys == initKeys + {last.ticker} by {
        forall k | k in keys ensures k in initKeys + {last.ticker} {
          var i :| 0 <= i < |rows| && rows[i].ticker == k;
          if i < |init| { assert init[i].ticker == k; }
        }
        forall k | k in initKeys ensures k in keys {
          var i :| 0 <= i < |init| && init[i].ticker == k;
          assert rows[i].ticker == k;
        }
      }
    }
  }

  /** The pair stored for a ticker is the pair of the last row with that ticker. */
  lemma {:induction false} BuildPairsLastWins(rows: seq<RecentRow>, volume: map<string, real>,
                                              intervals: map<string, map<string, real>>, extraInfos: map<string, ExtraInfo>, i: nat)
    requires BuildPairs(rows, volume, intervals, extraInfos).Ok?
    requires i < |rows| && forall j :: i < j < |rows| ==> rows[j].ticker != rows[i].ticker
    ensures rows[i].ticker in BuildPairs(rows, volume, intervals, extraInfos).value
    ensures PairOf(rows[i], volume, intervals, extraInfos) == Ok(BuildPairs(rows, volume, intervals, extraInfos).value[rows[i].ticker])
  {
    var init := rows[..|rows| - 1];
    if i < |init| {
      assert init[i] == rows[i];
      BuildPairsLastWins(init, volume, intervals, extraInfos, i);
    }
  }
}
