/**
 * Identifier helpers of the API: the ticker part of a token id and the
 * `TICKER:BASE:GROUP` symbols of the charting endpoints.
 */
module Helper {
  import opened Wrappers
  import opened Strings

  /** `id.substring(id.indexOf(":") + 1)`: everything after the first colon, or all of `id`. */
  function GetTickerFromId(id: string): (r: string)
    ensures ':' !in id ==> r == id
    ensures ':' in id ==> exists k :: 0 <= k < |id| && id[k] == ':' && ':' !in id[..k] && r == id[k + 1..]
  {
    var i := IndexOf(id, ':');
    id[i + 1..]
  }

  /** Prefixing a colon-free namespace and a colon is undone by GetTickerFromId. */
  lemma TickerFromPrefixedId(ns: string, ticker: string)
    requires ':' !in ns
    ensures GetTickerFromId(ns + ":" + ticker) == ticker
  {
    var id := ns + ":" + ticker;
    assert id[|ns|] == ':' && id[..|ns|] == ns;
    assert id[|ns| + 1..] == ticker;
  }

  datatype Symbol = Symbol(ticker: string, base: string, group: string)

  /** `getSymbol`: split on ":" and demand exactly three parts, otherwise throw. */
  function GetSymbol(symbol: string): (r: Result<Symbol>)
    ensures r.Ok? <==> Count(symbol, ':') == 2
    ensures r.Err? ==> r.error == "Unknown symbol " + symbol
    ensures r.Ok? ==> symbol == r.value.ticker + ":" + r.value.base + ":" + r.value.group
  {
    var parts := Split(symbol, ':');
    SplitLength(symbol, ':');
    if |parts| != 3 then Err("Unknown symbol " + symbol)
    else
      JoinSplit(symbol, ':');
      JoinThree(parts);
      Ok(Symbol(parts[0], parts[1], parts[2]))
  }

  lemma JoinThree(parts: seq<string>)
    requires |parts| == 3
    ensures Join(parts, ':') == parts[0] + ":" + (parts[1] + ":" + parts[2])
  {
    assert parts[1..][1..] == parts[2..];
    assert Join(parts[2..], ':') == parts[2];
    assert Join(parts[1..], ':') == parts[1] + ":" + parts[2];
  }

  /** Any three colon-free parts joined with ":" form a symbol that parses back to them. */
  lemma GetSymbolOfParts(ticker: string, base: string, group: string)
    requires ':' !in ticker && ':' !in base && ':' !in group
    ensures GetSymbol(ticker + ":" + base + ":" + group) == Ok(Symbol(ticker, base, group))
  {
    var parts := [ticker, base, group];
    SplitJoin(parts, ':');
    JoinThree(parts);
    assert ticker + ":" + base + ":" + group == ticker + ":" + (base + ":" + group);
  }
}
