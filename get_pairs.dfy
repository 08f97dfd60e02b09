/**
 * The pairs endpoint: with neither `id` nor `exchange` it lists every cached pair in
 * descending order of the chosen sort field; with both it returns the pair of the ticker
 * named by the id on the (case-insensitively matched) kaddex exchange; with only one of
 * them it answers 400.
 */
module GetPairs {
  import opened Wrappers
  import opened Strings
  import opened Sorting
  import opened Helper
  import opened Js
  import opened PairsUpdater

  datatype SortField = Change1h | Change24h | Change7d | Price | MarketCap | Volume24h

  /** The field a `sort` parameter selects; anything but the five names selects the 24-hour volume. */
  function GetSortKey(sort: Option<string>): (f: SortField)
    ensures f == Change1h <==> sort == Some("hour")
    ensures f == Change24h <==> sort == Some("day")
    ensures f == Change7d <==> sort == Some("week")
    ensures f == Price <==> sort == Some("price")
    ensures f == MarketCap <==> sort == Some("marketcap")
    ensures f == Volume24h <==> sort !in {Some("hour"), Some("day"), Some("week"), Some("price"), Some("marketcap")}
  {
    if sort == Some("hour") then Change1h
    else if sort == Some("day") then Change24h
    else if sort == Some("week") then Change7d
    else if sort == Some("price") then Price
    else if sort == Some("marketcap") then MarketCap
    else Volume24h
  }

  /**
   * The number the comparator subtracts, None where it is NaN: a null price change counts
   * as 0, a pair without a 24-hour volume has none, and no pair has a `marketCap` field.
   */
  function KeyOf(p: Pair, f: SortField): Option<real>
  {
    match f
    case Change1h => Some(p.pricePercChange1h.GetOr(0.0))
    case Change24h => Some(p.pricePercChange24h.GetOr(0.0))
    case Change7d => Some(p.pricePercChange7d.GetOr(0.0))
    case Price => Some(p.price)
    case MarketCap => None
    case Volume24h => p.volume24h
  }

  /** Ascending in this key is descending in the field. */
  function Descending(f: SortField): Pair -> real
  {
    p => -KeyOf(p, f).GetOr(0.0)
  }

  /**
   * `sort((a, b) => b[key] - a[key])`. When every pair has the field this is the stable
   * descending sort; when none has it every comparison is NaN, read as "equal", and the
   * order is kept. When only some have it the comparator is inconsistent and the order is
   * the engine's: None.
   */
  function SortPairs(pairs: seq<Pair>, f: SortField): (r: Option<seq<Pair>>)
    ensures r.Some? ==> multiset(r.value) == multiset(pairs)
  {
    if forall i :: 0 <= i < |pairs| ==> KeyOf(pairs[i], f).Some? then Some(SortBy(pairs, Descending(f)))
    else if forall i :: 0 <= i < |pairs| ==> KeyOf(pairs[i], f).None? then Some(pairs)
    else None
  }

  /** With the field present on every pair, the list is a permutation in non-increasing field order. */
  lemma SortPairsDescending(pairs: seq<Pair>, f: SortField)
    requires forall i :: 0 <= i < |pairs| ==> KeyOf(pairs[i], f).Some?
    ensures var r := SortPairs(pairs, f);
      && r.Some? && multiset(r.value) == multiset(pairs)
      && forall i, j :: 0 <= i < j < |r.value| ==> KeyOf(r.value[i], f).GetOr(0.0) >= KeyOf(r.value[j], f).GetOr(0.0)
  {
    var r := SortBy(pairs, Descending(f));
    forall i, j | 0 <= i < j < |r| ensures KeyOf(r[i], f).GetOr(0.0) >= KeyOf(r[j], f).GetOr(0.0) {
      assert Descending(f)(r[i]) <= Descending(f)(r[j]);
    }
  }

  /** Sorting on the market cap keeps the cached order. */
  lemma MarketCapKeepsOrder(pairs: seq<Pair>)
    ensures SortPairs(pairs, MarketCap) == Some(pairs)
  {
  }

  datatype Response =
    | Listed(pairs: Option<seq<Pair>>)
    | Found(pair: Pair)
    | NotFound(error: string)
    | BadRequest(statusCode: int, error: string)

  const BOTH_OR_NONE := "Please define both id & exchange or none"

  /** The pair cached under a key; a JavaScript object has at most one entry per key. */
  function Lookup(entries: seq<(string, Pair)>, k: string): (r: Option<Pair>)
    ensures r.Some? <==> exists i :: 0 <= i < |entries| && entries[i].0 == k
    ensures r.Some? ==> exists i :: 0 <= i < |entries| && entries[i] == (k, r.value)
  {
    if entries == [] then None
    else if entries[0].0 == k then Some(entries[0].1)
    else
      var r := Lookup(entries[1..], k);
      assert forall i :: 0 <= i < |entries| - 1 ==> entries[1..][i] == entries[i + 1];
      r
  }

  /** `Object.values(allPairs)`. */
  function Values(entries: seq<(string, Pair)>): (vs: seq<Pair>)
    ensures |vs| == |entries|
    ensures forall i :: 0 <= i < |entries| ==> vs[i] == entries[i].1
  {
    seq(|entries|, i requires 0 <= i < |entries| => entries[i].1)
  }

  /** `getPairs` over the cached pairs, given as their entries in object order. */
  function GetPairs(id: Option<string>, exchange: Option<string>, sort: Option<string>,
                    allPairs: seq<(string, Pair)>): (r: Response)
    ensures !Given(id) && !Given(exchange) ==> r == Listed(SortPairs(Values(allPairs), GetSortKey(sort)))
    ensures Given(id) != Given(exchange) ==> r == BadRequest(400, BOTH_OR_NONE)
    ensures Given(id) && Given(exchange) && ToLower(exchange.value) != "kaddex"
      ==> r == BadRequest(400, "exchange: " + ToLower(exchange.value) + " not known (kaddex only)")
    ensures Given(id) && Given(exchange) && ToLower(exchange.value) == "kaddex"
      ==> r == match Lookup(allPairs, GetTickerFromId(id.value))
              case Some(p) => Found(p)
              case None => NotFound("dex: kaddex ticker: " + GetTickerFromId(id.value) + " does not exist")
  {
    if !Given(id) && !Given(exchange) then
      Listed(SortPairs(Values(allPairs), GetSortKey(sort)))
    else if Given(id) && Given(exchange) then
      var dex := ToLower(exchange.value);
      if dex != "kaddex" then BadRequest(400, "exchange: " + dex + " not known (kaddex only)")
      else
        // `dex` is "kaddex" here, so the message names it literally.
        var ticker := GetTickerFromId(id.value);
        match Lookup(allPairs, ticker)
        case Some(p) => Found(p)
        case None => NotFound("dex: kaddex ticker: " + ticker + " does not exist")
    else BadRequest(400, BOTH_OR_NONE)
  }

  /** The answer depends on the exchange only through its lower-case form. */
  lemma ExchangeCaseInsensitive(id: Option<string>, e1: string, e2: string, sort: Option<string>,
                                allPairs: seq<(string, Pair)>)
    requires ToLower(e1) == ToLower(e2)
    ensures GetPairs(id, Some(e1), sort, allPairs) == GetPairs(id, Some(e2), sort, allPairs)
  {
    assert |e1| == |e2|;
    assert Given(Some(e1)) == Given(Some(e2));
    if Given(id) && Given(Some(e1)) {
      var dex := ToLower(e1);
      if dex == "kaddex" {
        assert GetPairs(id, Some(e1), sort, allPairs) == GetPairs(id, Some(e2), sort, allPairs);
      } else {
        assert GetPairs(id, Some(e1), sort, allPairs) == BadRequest(400, "exchange: " + dex + " not known (kaddex only)");
      }
    }
  }

  /**
   * A pair built for `ticker` and cached under it is found again by its own id on any
   * spelling of "kaddex".
   */
  lemma FindsBuiltPair(ticker: string, close: real, volume: Option<real>, intervals: map<string, map<string, real>>,
                       extraInfo: Option<ExtraInfo>, exchange: string, sort: Option<string>, allPairs: seq<(string, Pair)>)
    requires GetPair(ticker, close, volume, intervals, extraInfo).Ok?
    requires ToLower(exchange) == "kaddex"
    requires Lookup(allPairs, ticker) == Some(GetPair(ticker, close, volume, intervals, extraInfo).value)
    ensures GetPairs(Some(GetPair(ticker, close, volume, intervals, extraInfo).value.id), Some(exchange), sort, allPairs)
      == Found(GetPair(ticker, close, volume, intervals, extraInfo).value)
  {
    PairIdentifiers(ticker, close, volume, intervals, extraInfo);
    assert exchange != "" by { assert |exchange| == |ToLower(exchange)|; }
  }
}
