/**
 * Enriching the token map with the static token information: the total supply less the
 * supply known to be burnt, and the circulating supply fetched from the token's own
 * sources, every fetch allowed to fail on its own.
 */
module TokenInfo {
  import opened Wrappers
  import opened Js
  import opened Store

  /** The outcome of one promise under `Promise.allSettled`. */
  datatype Settled<T> = Fulfilled(value: T) | Rejected

  /** `s.status === 'fulfilled' ? s.value : null`. */
  function SettledValue(s: Settled<Value>): (v: Value)
    ensures s.Rejected? ==> v == Null
    ensures s.Fulfilled? ==> v == s.value
  {
    if s.Fulfilled? then s.value else Null
  }

  /** The KISHK burn total is a constant. */
  const KISHK_BURNS: real := 310511793553995.0

  /** What a Pact call answers with: a JSON object, or a bare JSON value. */
  datatype PactValue = Obj(fields: Fields) | Scalar(v: Value)

  /**
   * `getReserve`: the number in a Pact `{decimal: …}` wrapper, or the value itself.
   * Reading `.decimal` of null or undefined throws; an object without a truthy `decimal`
   * parses to NaN.
   */
  function GetReserve(data: PactValue, parse: string -> Option<real>): (r: Result<Value>)
    ensures r.Err? <==> data == Scalar(Null) || data == Scalar(Undefined)
    ensures data.Obj? && Truthy(Prop(data.fields, "decimal")) ==> r == Ok(ParseFloat(Prop(data.fields, "decimal"), parse))
    ensures data.Obj? && !Truthy(Prop(data.fields, "decimal")) ==> r == Ok(NaN)
    ensures data.Scalar? && r.Ok? ==> r == Ok(ParseFloat(data.v, parse))
  {
    match data
    case Obj(f) => if Truthy(Prop(f, "decimal")) then Ok(ParseFloat(Prop(f, "decimal"), parse)) else Ok(NaN)
    case Scalar(v) =>
      if v == Null then Err("Cannot read properties of null (reading 'decimal')")
      else if v == Undefined then Err("Cannot read properties of undefined (reading 'decimal')")
      else Ok(ParseFloat(v, parse))
  }

  /** A non-empty decimal string reads the same wrapped or bare. */
  lemma GetReserveWrapped(s: string, parse: string -> Option<real>)
    requires s != ""
    ensures GetReserve(Obj(map["decimal" := Str(s)]), parse) == GetReserve(Scalar(Str(s)), parse)
    ensures GetReserve(Scalar(Str(s)), parse).Ok?
  {
    assert Prop(map["decimal" := Str(s)], "decimal") == Str(s);
  }

  /** The `result` of a Pact local call. */
  datatype PactResult = PactResult(status: string, data: PactValue)

  /** `getWIZACS`: the reserve read from a successful result; otherwise the promise rejects. */
  function WizaSupply(result: Option<PactResult>, parse: string -> Option<real>): (s: Settled<Value>)
    ensures s.Fulfilled? <==> result.Some? && result.value.status == "success" && GetReserve(result.value.data, parse).Ok?
    ensures s.Fulfilled? ==> s.value == GetReserve(result.value.data, parse).value
  {
    if result.Some? && result.value.status == "success" then
      match GetReserve(result.value.data, parse)
      case Ok(v) => Fulfilled(v)
      case Err(_) => Rejected
    else Rejected
  }

  // ---- the supply tables ----

  /**
   * `getCirculatingSupply`: every fetched supply, null where its fetch failed, and -1 for
   * KISHK, which stands for "the whole total supply".
   */
  function CirculatingSupply(kdl: Settled<Value>, kds: Settled<Value>, kdx: Settled<Value>,
                             flux: Settled<Value>, wiza: Settled<Value>): (cs: map<string, Value>)
    ensures cs.Keys == {"KDL", "KDS", "KDX", "FLUX", "WIZA", "KISHK"}
    ensures cs["KISHK"] == Num(-1.0)
    ensures forall k :: k in cs && k != "KISHK" ==> cs[k] == SettledValue(SettledFor(k, kdl, kds, kdx, flux, wiza))
    ensures forall k :: k in cs && k != "KISHK" ==> (cs[k] == Null <==> SettledFor(k, kdl, kds, kdx, flux, wiza).Rejected? || SettledFor(k, kdl, kds, kdx, flux, wiza) == Fulfilled(Null))
  {
    map["KDL" := SettledValue(kdl), "KDS" := SettledValue(kds), "KDX" := SettledValue(kdx),
        "FLUX" := SettledValue(flux), "WIZA" := SettledValue(wiza), "KISHK" := Num(-1.0)]
  }

  /** The fetch that supplies the circulating supply of `k`. */
  function SettledFor(k: string, kdl: Settled<Value>, kds: Settled<Value>, kdx: Settled<Value>,
                      flux: Settled<Value>, wiza: Settled<Value>): Settled<Value>
  {
    if k == "KDL" then kdl else if k == "KDS" then kds else if k == "KDX" then kdx
    else if k == "FLUX" then flux else wiza
  }

  /** `getTotalReductions`: the summed KDX burns (null when that fetch failed) and the constant KISHK burns. */
  function TotalReductions(kdx: Settled<Value>): (red: map<string, Value>)
    ensures red.Keys == {"KDX", "KISHK"}
    ensures red["KISHK"] == Num(KISHK_BURNS)
    ensures red["KDX"] == SettledValue(kdx)
  {
    map["KDX" := SettledValue(kdx), "KISHK" := Num(KISHK_BURNS)]
  }

  /** The sum of the burn values, in key order. */
  function Sum(burns: seq<real>): real
  {
    if burns == [] then 0.0 else Sum(burns[..|burns| - 1]) + burns[|burns| - 1]
  }

  /** The burn total of two sets of keys is the sum of their totals. */
  lemma {:induction false} SumAppend(a: seq<real>, b: seq<real>)
    ensures Sum(a + b) == Sum(a) + Sum(b)
  {
    if b != [] {
      assert (a + b)[..|a + b| - 1] == a + b[..|b| - 1];
      assert (a + b)[|a + b| - 1] == b[|b| - 1];
      SumAppend(a, b[..|b| - 1]);
    } else {
      assert a + b == a;
    }
  }

  /** Taking element `i` out of `b` takes its value out of the sum. */
  lemma SumRemove(b: seq<real>, i: nat)
    requires i < |b|
    ensures Sum(b) == Sum(b[..i] + b[i + 1..]) + b[i]
  {
    var pre, x, post := b[..i], b[i], b[i + 1..];
    assert b == (pre + [x]) + post;
    SumAppend(pre + [x], post);
    SumAppend(pre, [x]);
    SumAppend(pre, post);
    SumOne(x);
  }

  lemma SumOne(x: real)
    ensures Sum([x]) == x
  {
    assert [x][..0] == [];
  }

  /** Removing the same value from two permutations of each other leaves permutations. */
  lemma MultisetRemove<T>(a: seq<T>, b: seq<T>, i: nat)
    requires a != [] && i < |b| && b[i] == a[|a| - 1]
    requires multiset(a) == multiset(b)
    ensures multiset(a[..|a| - 1]) == multiset(b[..i] + b[i + 1..])
  {
    var x, init, pre, post := b[i], a[..|a| - 1], b[..i], b[i + 1..];
    assert a == init + [x];
    assert b == pre + [x] + post;
    calc {
      multiset(init);
      multiset(a) - multiset{x};
      multiset(b) - multiset{x};
      multiset(pre) + multiset(post);
      multiset(pre + post);
    }
  }

  /** The total does not depend on the order of the keys. */
  lemma {:induction false} SumPermutation(a: seq<real>, b: seq<real>)
    requires multiset(a) == multiset(b)
    ensures Sum(a) == Sum(b)
    decreases |a|
  {
    if a != [] {
      var x := a[|a| - 1];
      assert x in multiset(b);
      var i :| 0 <= i < |b| && b[i] == x;
      MultisetRemove(a, b, i);
      SumPermutation(a[..|a| - 1], b[..i] + b[i + 1..]);
      SumRemove(b, i);
    } else {
      assert |b| == |multiset(b)| == 0;
    }
  }

  /** The reduce of `getKDXBurns` over the burn values. */
  method KdxBurns(burns: seq<real>) returns (total: real)
    ensures total == Sum(burns)
  {
    total := 0.0;
    for i := 0 to |burns|
      invariant total == Sum(burns[..i])
    {
      assert burns[..i + 1][..i] == burns[..i];
      total := total + burns[i];
    }
    assert burns[..|burns|] == burns;
  }

  // ---- merging ----

  /** An entry of the static token information; its total supply is a number. */
  datatype Info = Info(totalSupply: real, fields: Fields)

  /**
   * The total supply less the reduction when the reduction is truthy; `-` reads a string
   * reduction as a number, `true` as 1, and an object as NaN.
   */
  function ReducedSupply(totalSupply: real, reduction: Value): (r: Value)
    ensures !Truthy(reduction) ==> r == Num(totalSupply)
    ensures reduction.Num? && reduction.n != 0.0 ==> r == Num(totalSupply - reduction.n)
    ensures reduction.Str? && IsDecimal(reduction.s) ==> r == Num(totalSupply - NumberOf(reduction.s) as real)
    ensures reduction == Bool(true) ==> r == Num(totalSupply - 1.0)
    ensures r.Num? || r.NaN?
  {
    if !Truthy(reduction) then Num(totalSupply)
    else match reduction
      case Num(x) => Num(totalSupply - x)
      case Bool(_) => Num(totalSupply - 1.0)
      case Str(s) => (match StringToNumber(s) case Num(x) => Num(totalSupply - x) case _ => NaN)
      case _ => NaN
  }

  /** -1 stands for the total supply, a truthy entry for itself, anything else (0 too) for null. */
  function CirculatingOf(entry: Value, totalSupply: Value): (r: Value)
    ensures entry == Num(-1.0) ==> r == totalSupply
    ensures entry != Num(-1.0) && Truthy(entry) ==> r == entry
    ensures !Truthy(entry) ==> r == Null
  {
    if entry == Num(-1.0) then totalSupply else if Truthy(entry) then entry else Null
  }

  /** The information of token `c` with the corrected total and circulating supply. */
  function WithInfo(c: string, info: Info, cs: map<string, Value>, red: map<string, Value>): (f: Fields)
    ensures f.Keys == info.fields.Keys + {"totalSupply", "circulatingSupply"}
    ensures forall k :: k in info.fields && k != "totalSupply" && k != "circulatingSupply" ==> f[k] == info.fields[k]
  {
    var ts := ReducedSupply(info.totalSupply, Prop(red, c));
    info.fields["totalSupply" := ts]["circulatingSupply" := CirculatingOf(Prop(cs, c), ts)]
  }

  function InfoPairs(tokenInfos: seq<(string, Info)>, cs: map<string, Value>, red: map<string, Value>): (ps: seq<(string, Fields)>)
    ensures |ps| == |tokenInfos|
    ensures forall i :: 0 <= i < |ps| ==> ps[i] == (tokenInfos[i].0, WithInfo(tokenInfos[i].0, tokenInfos[i].1, cs, red))
  {
    seq(|tokenInfos|, i requires 0 <= i < |tokenInfos| => (tokenInfos[i].0, WithInfo(tokenInfos[i].0, tokenInfos[i].1, cs, red)))
  }

  lemma InfoPairsSnoc(tokenInfos: seq<(string, Info)>, i: nat, cs: map<string, Value>, red: map<string, Value>)
    requires i < |tokenInfos|
    ensures InfoPairs(tokenInfos[..i + 1], cs, red)
      == InfoPairs(tokenInfos[..i], cs, red) + [(tokenInfos[i].0, WithInfo(tokenInfos[i].0, tokenInfos[i].1, cs, red))]
  {
    var a, b := InfoPairs(tokenInfos[..i + 1], cs, red), InfoPairs(tokenInfos[..i], cs, red);
    assert forall j :: 0 <= j < i ==> a[j] == b[j];
  }

  /** The first reduce of `addTokenInfo`: every token of the static information, corrected. */
  method TokensWithInfos(tokenInfos: seq<(string, Info)>, cs: map<string, Value>, red: map<string, Value>)
    returns (p: map<string, Fields>)
    ensures p == Assoc(map[], InfoPairs(tokenInfos, cs, red))
  {
    p := map[];
    for i := 0 to |tokenInfos|
      invariant p == Assoc(map[], InfoPairs(tokenInfos[..i], cs, red))
    {
      var c := tokenInfos[i].0;
      var tokenInfo := tokenInfos[i].1;
      var totalSupply := ReducedSupply(tokenInfo.totalSupply, Prop(red, c));
      var circulatingSupply := CirculatingOf(Prop(cs, c), totalSupply);
      var temp := tokenInfo.fields["totalSupply" := totalSupply]["circulatingSupply" := circulatingSupply];
      assert temp == WithInfo(c, tokenInfo, cs, red);
      InfoStep(tokenInfos, i, cs, red);
      p := p[c := temp];
    }
    InfoDone(tokenInfos, cs, red);
  }

  /** A turn of the first reduce assigns the next token its corrected information. */
  lemma InfoStep(tokenInfos: seq<(string, Info)>, i: nat, cs: map<string, Value>, red: map<string, Value>)
    requires i < |tokenInfos|
    ensures Assoc(map[], InfoPairs(tokenInfos[..i + 1], cs, red))
      == Assoc(map[], InfoPairs(tokenInfos[..i], cs, red))[tokenInfos[i].0 := WithInfo(tokenInfos[i].0, tokenInfos[i].1, cs, red)]
  {
    InfoPairsSnoc(tokenInfos, i, cs, red);
    AssocSnoc(map[], InfoPairs(tokenInfos[..i], cs, red), (tokenInfos[i].0, WithInfo(tokenInfos[i].0, tokenInfos[i].1, cs, red)));
  }

  lemma InfoDone(tokenInfos: seq<(string, Info)>, cs: map<string, Value>, red: map<string, Value>)
    ensures InfoPairs(tokenInfos[..|tokenInfos|], cs, red) == InfoPairs(tokenInfos, cs, red)
  {
    assert tokenInfos[..|tokenInfos|] == tokenInfos;
  }

  /** A token whose symbol has information gets it laid over its own fields; any other is kept. */
  function Merged(token: Fields, infos: map<string, Fields>): (r: Fields)
    ensures (match Prop(token, "symbol") case Str(s) => s !in infos case _ => true) ==> r == token
    ensures Prop(token, "symbol").Str? && Prop(token, "symbol").s in infos ==> (
      var info := infos[Prop(token, "symbol").s];
      && r.Keys == token.Keys + info.Keys
      && (forall k :: k in info ==> r[k] == info[k])
      && (forall k :: k in token && k !in info ==> r[k] == token[k]))
  {
    match Prop(token, "symbol")
    case Str(s) => if s in infos then token + infos[s] else token
    case _ => token
  }

  function MergedPairs(tokenMap: seq<(string, Fields)>, infos: map<string, Fields>): (ps: seq<(string, Fields)>)
    ensures |ps| == |tokenMap|
    ensures forall i :: 0 <= i < |ps| ==> ps[i] == (tokenMap[i].0, Merged(tokenMap[i].1, infos))
  {
    seq(|tokenMap|, i requires 0 <= i < |tokenMap| => (tokenMap[i].0, Merged(tokenMap[i].1, infos)))
  }

  lemma MergedPairsSnoc(tokenMap: seq<(string, Fields)>, i: nat, infos: map<string, Fields>)
    requires i < |tokenMap|
    ensures MergedPairs(tokenMap[..i + 1], infos) == MergedPairs(tokenMap[..i], infos) + [(tokenMap[i].0, Merged(tokenMap[i].1, infos))]
  {
    var a, b := MergedPairs(tokenMap[..i + 1], infos), MergedPairs(tokenMap[..i], infos);
    assert forall j :: 0 <= j < i ==> a[j] == b[j];
  }

  /** The second reduce of `addTokenInfo`, over the entries of the token map. */
  method MergeTokens(tokenMap: seq<(string, Fields)>, infos: map<string, Fields>) returns (p: map<string, Fields>)
    ensures p == Assoc(map[], MergedPairs(tokenMap, infos))
  {
    p := map[];
    for i := 0 to |tokenMap|
      invariant p == Assoc(map[], MergedPairs(tokenMap[..i], infos))
    {
      var c := tokenMap[i].0;
      var token := tokenMap[i].1;
      MergeStep(tokenMap, i, infos);
      var symbol := Prop(token, "symbol");
      if !(symbol.Str? && symbol.s in infos) {
        p := p[c := token];
      } else {
        p := p[c := token + infos[symbol.s]];
      }
    }
    MergeDone(tokenMap, infos);
  }

  /** A turn of the second reduce assigns the next token its merged fields. */
  lemma MergeStep(tokenMap: seq<(string, Fields)>, i: nat, infos: map<string, Fields>)
    requires i < |tokenMap|
    ensures Assoc(map[], MergedPairs(tokenMap[..i + 1], infos))
      == Assoc(map[], MergedPairs(tokenMap[..i], infos))[tokenMap[i].0 := Merged(tokenMap[i].1, infos)]
  {
    MergedPairsSnoc(tokenMap, i, infos);
    AssocSnoc(map[], MergedPairs(tokenMap[..i], infos), (tokenMap[i].0, Merged(tokenMap[i].1, infos)));
  }

  lemma MergeDone(tokenMap: seq<(string, Fields)>, infos: map<string, Fields>)
    ensures MergedPairs(tokenMap[..|tokenMap|], infos) == MergedPairs(tokenMap, infos)
  {
    assert tokenMap[..|tokenMap|] == tokenMap;
  }

  /** `addTokenInfo`, the outcomes of the supply fetches given. */
  function AddTokenInfoSpec(tokenMap: seq<(string, Fields)>, tokenInfos: seq<(string, Info)>,
                            cs: map<string, Value>, red: map<string, Value>): map<string, Fields>
  {
    Assoc(map[], MergedPairs(tokenMap, Assoc(map[], InfoPairs(tokenInfos, cs, red))))
  }

  method AddTokenInfo(tokenMap: seq<(string, Fields)>, tokenInfos: seq<(string, Info)>,
                      kdl: Settled<Value>, kds: Settled<Value>, kdx: Settled<Value>, flux: Settled<Value>,
                      wiza: Settled<Value>, kdxBurns: Settled<Value>) returns (tokens: map<string, Fields>)
    ensures tokens == AddTokenInfoSpec(tokenMap, tokenInfos, CirculatingSupply(kdl, kds, kdx, flux, wiza), TotalReductions(kdxBurns))
  {
    var cs := CirculatingSupply(kdl, kds, kdx, flux, wiza);
    var red := TotalReductions(kdxBurns);
    var tokenWithInfos := TokensWithInfos(tokenInfos, cs, red);
    tokens := MergeTokens(tokenMap, tokenWithInfos);
  }

  /** The keys of an object's entries are distinct. */
  predicate DistinctKeys<V>(entries: seq<(string, V)>)
  {
    forall i, j :: 0 <= i < j < |entries| ==> entries[i].0 != entries[j].0
  }

  /** The enriched map has exactly the keys of the token map. */
  lemma AddTokenInfoKeys(tokenMap: seq<(string, Fields)>, tokenInfos: seq<(string, Info)>,
                         cs: map<string, Value>, red: map<string, Value>)
    ensures AddTokenInfoSpec(tokenMap, tokenInfos, cs, red).Keys == set i | 0 <= i < |tokenMap| :: tokenMap[i].0
  {
    var ps := MergedPairs(tokenMap, Assoc(map[], InfoPairs(tokenInfos, cs, red)));
    AssocKeys(map[], ps);
    assert KeysOf(ps) == set i | 0 <= i < |tokenMap| :: tokenMap[i].0 by {
      forall k | k in KeysOf(ps) ensures k in set i | 0 <= i < |tokenMap| :: tokenMap[i].0 {
        var i :| 0 <= i < |ps| && ps[i].0 == k;
      }
      forall k | k in set i | 0 <= i < |tokenMap| :: tokenMap[i].0 ensures k in KeysOf(ps) {
        var i :| 0 <= i < |tokenMap| && tokenMap[i].0 == k;
        assert ps[i].0 == k;
      }
    }
  }

  /**
   * Token `i` of the map comes out merged with the corrected information of its symbol:
   * unchanged when there is none, its fields overridden by it otherwise.
   */
  lemma AddTokenInfoEntry(tokenMap: seq<(string, Fields)>, tokenInfos: seq<(string, Info)>,
                          cs: map<string, Value>, red: map<string, Value>, i: nat)
    requires DistinctKeys(tokenMap)
    requires i < |tokenMap|
    ensures var r := AddTokenInfoSpec(tokenMap, tokenInfos, cs, red);
      var token := tokenMap[i].1;
      var infos := Assoc(map[], InfoPairs(tokenInfos, cs, red));
      tokenMap[i].0 in r && r[tokenMap[i].0] == Merged(token, infos)
  {
    var infos := Assoc(map[], InfoPairs(tokenInfos, cs, red));
    AssocLastWins(map[], MergedPairs(tokenMap, infos), i);
  }

  /**
   * The information kept for a token symbol `c` (its last entry) has the reduced total
   * supply and the circulating supply of the supply table, and every other field as given.
   */
  lemma TokenWithInfo(tokenInfos: seq<(string, Info)>, cs: map<string, Value>, red: map<string, Value>, i: nat)
    requires i < |tokenInfos|
    requires forall j :: i < j < |tokenInfos| ==> tokenInfos[j].0 != tokenInfos[i].0
    ensures var infos := Assoc(map[], InfoPairs(tokenInfos, cs, red));
      var c := tokenInfos[i].0;
      var ts := ReducedSupply(tokenInfos[i].1.totalSupply, Prop(red, c));
      && c in infos && "totalSupply" in infos[c] && "circulatingSupply" in infos[c]
      && infos[c]["totalSupply"] == ts
      && infos[c]["circulatingSupply"] == CirculatingOf(Prop(cs, c), ts)
      && forall k :: k in tokenInfos[i].1.fields && k != "totalSupply" && k != "circulatingSupply"
                     ==> k in infos[c] && infos[c][k] == tokenInfos[i].1.fields[k]
  {
    AssocLastWins(map[], InfoPairs(tokenInfos, cs, red), i);
  }

  /** The KISHK total supply is reduced by the constant burns and it is its own circulating supply. */
  lemma KishkSupply(info: Info, kdl: Settled<Value>, kds: Settled<Value>, kdx: Settled<Value>,
                    flux: Settled<Value>, wiza: Settled<Value>, kdxBurns: Settled<Value>)
    ensures var f := WithInfo("KISHK", info, CirculatingSupply(kdl, kds, kdx, flux, wiza), TotalReductions(kdxBurns));
      f["totalSupply"] == Num(info.totalSupply - KISHK_BURNS) && f["circulatingSupply"] == f["totalSupply"]
  {
    assert Prop(TotalReductions(kdxBurns), "KISHK") == Num(KISHK_BURNS);
    assert Prop(CirculatingSupply(kdl, kds, kdx, flux, wiza), "KISHK") == Num(-1.0);
  }
}
