/**
 * The daily account balance snapshot: the tracked accounts are read three at a time, the
 * balance of every known fungible token of every batch account is read on every chain,
 * valued at the token's latest price, and one record per account and day is upserted.
 */
module AccountsBalance {
  import opened Wrappers
  import opened Strings
  import opened TokenInfo

  const ACCOUNTS_CHUNK_SIZE: nat := 3

  // ---- prices ----

  /** The latest KDA price row. */
  datatype KdaPrice = KdaPrice(timestamp: int, price: real)

  /** A ticker with the timestamp and close of its latest candle (null for a missing KDA price). */
  datatype PriceRow = PriceRow(ticker: string, timestamp: Option<int>, close: Option<real>)

  /**
   * `getAllTickerLastPrices`: a KDA row first, from the newest KDA price if there is one,
   * then the latest candle of every ticker (none when that query gives no rows).
   */
  function LastPrices(kdaRows: seq<KdaPrice>, tokenRows: Option<seq<PriceRow>>): (ps: seq<PriceRow>)
    ensures |ps| >= 1 && ps[0].ticker == "KDA"
    ensures ps[0].close == (if kdaRows == [] then None else Some(kdaRows[0].price))
    ensures ps[1..] == tokenRows.GetOr([])
  {
    var kda := if kdaRows == [] then PriceRow("KDA", None, None)
               else PriceRow("KDA", Some(kdaRows[0].timestamp), Some(kdaRows[0].price));
    [kda] + tokenRows.GetOr([])
  }

  /**
   * `getTokenSymbolByModuleName`: KDA for `coin`, otherwise the symbol cached for the
   * module, otherwise null. The cache maps a module to its symbol, None where the cached
   * token has no symbol.
   */
  function SymbolOf(moduleName: string, cache: map<string, Option<string>>): (r: Option<string>)
    ensures moduleName == "coin" ==> r == Some("KDA")
    ensures moduleName != "coin" ==> r == (if moduleName in cache then cache[moduleName] else None)
  {
    if moduleName == "coin" then Some("KDA") else if moduleName in cache then cache[moduleName] else None
  }

  /** The close of the first row for `ticker` (0 when it has none), or 0 when no row has that ticker. */
  function FirstClose(prices: seq<PriceRow>, ticker: string): (r: real)
    ensures (forall i :: 0 <= i < |prices| ==> prices[i].ticker != ticker) ==> r == 0.0
    ensures forall i :: (0 <= i < |prices| && prices[i].ticker == ticker
                         && (forall j :: 0 <= j < i ==> prices[j].ticker != ticker))
                        ==> r == prices[i].close.GetOr(0.0)
  {
    var k := FindTicker(prices, ticker);
    if k < |prices| then prices[k].close.GetOr(0.0) else 0.0
  }

  /** `Array.prototype.find` by ticker, as an index: the first row for `ticker`, or |prices| when none is. */
  function FindTicker(prices: seq<PriceRow>, ticker: string): (k: nat)
    ensures k <= |prices|
    ensures forall j :: 0 <= j < k ==> prices[j].ticker != ticker
    ensures k < |prices| ==> prices[k].ticker == ticker
  {
    if prices == [] then 0
    else if prices[0].ticker == ticker then 0
    else
      var k := 1 + FindTicker(prices[1..], ticker);
      assert forall j :: 1 <= j < k ==> prices[j] == prices[1..][j - 1];
      k
  }

  /** `getTokenPriceByModuleName`: no row has a null ticker, so a module without a symbol is priced 0. */
  function PriceOf(moduleName: string, prices: seq<PriceRow>, cache: map<string, Option<string>>): real
  {
    match SymbolOf(moduleName, cache)
    case Some(s) => FirstClose(prices, s)
    case None => 0.0
  }

  /** `coin` is priced at the newest KDA price, or 0 when there is none. */
  lemma CoinPrice(kdaRows: seq<KdaPrice>, tokenRows: Option<seq<PriceRow>>, cache: map<string, Option<string>>)
    ensures PriceOf("coin", LastPrices(kdaRows, tokenRows), cache) == (if kdaRows == [] then 0.0 else kdaRows[0].price)
  {
    var ps := LastPrices(kdaRows, tokenRows);
    assert ps[0].ticker == "KDA";
  }

  /** A module whose symbol has no price row is priced 0. */
  lemma UnpricedModule(moduleName: string, prices: seq<PriceRow>, cache: map<string, Option<string>>)
    requires SymbolOf(moduleName, cache).Some?
    requires forall i :: 0 <= i < |prices| ==> prices[i].ticker != SymbolOf(moduleName, cache).value
    ensures PriceOf(moduleName, prices, cache) == 0.0
  {
  }

  // ---- token names ----

  /** A character of `[a-zA-Z0-9._-]`. */
  predicate PactChar(c: char)
  {
    'a' <= c <= 'z' || 'A' <= c <= 'Z' || '0' <= c <= '9' || c == '.' || c == '_' || c == '-'
  }

  /** `isValidPactString`: `/^[a-zA-Z0-9._-]+$/.test(s)`. */
  predicate IsValidPactString(s: string)
  {
    s != [] && forall i :: 0 <= i < |s| ==> PactChar(s[i])
  }

  /**
   * The stored tokens that may be spliced into Pact code, in stored order (ValidTokensAppend
   * and ValidTokensOne pin the order down).
   */
  function ValidTokens(tokens: seq<string>): (r: seq<string>)
    ensures forall t :: t in r <==> t in tokens && IsValidPactString(t)
    ensures |r| <= |tokens|
  {
    if tokens == [] then []
    else
      var rest := ValidTokens(tokens[..|tokens| - 1]);
      assert tokens == tokens[..|tokens| - 1] + [tokens[|tokens| - 1]];
      if IsValidPactString(tokens[|tokens| - 1]) then rest + [tokens[|tokens| - 1]] else rest
  }

  /** A single token is kept exactly when it is a valid Pact string. */
  lemma ValidTokensOne(t: string)
    ensures ValidTokens([t]) == if IsValidPactString(t) then [t] else []
  {
    assert [t][..0] == [];
  }

  /** The filter works piece by piece: the valid tokens of `a + b` are those of `a`, then those of `b`. */
  lemma {:induction false} ValidTokensAppend(a: seq<string>, b: seq<string>)
    ensures ValidTokens(a + b) == ValidTokens(a) + ValidTokens(b)
  {
    if b == [] {
      assert a + b == a;
    } else {
      var init := b[..|b| - 1];
      assert (a + b)[..|a + b| - 1] == a + init;
      assert (a + b)[|a + b| - 1] == b[|b| - 1];
      ValidTokensAppend(a, init);
    }
  }

  /**
   * `getTokenAlias`: the token with every '.' removed; every other character is kept as
   * often as it occurs, and a token without dots is its own alias.
   */
  function Alias(token: string): (r: string)
    ensures '.' !in r
    ensures '.' !in token ==> r == token
  {
    RemoveChar(token, '.')
  }

  lemma AliasMultiset(token: string)
    ensures multiset(Alias(token)) == multiset(token)['.' := 0]
  {
    RemoveCharMultiset(token, '.');
  }

  /** Aliases are taken piece by piece, so the kept characters stay in their order. */
  lemma AliasAppend(a: string, b: string)
    ensures Alias(a + b) == Alias(a) + Alias(b)
  {
    RemoveCharAppend(a, b, '.');
  }

  /** The decimal digit of a batch position, which is below the batch size. */
  function Digit(j: nat): char
    requires j < ACCOUNTS_CHUNK_SIZE
  {
    ('0' as int + j) as char
  }

  /** The name of the Pact binding that holds the balance of `token` for the `j`-th batch account. */
  function BindingName(token: string, j: nat): string
    requires j < ACCOUNTS_CHUNK_SIZE
  {
    Alias(token) + "_" + [Digit(j)]
  }

  /**
   * Two valid, different tokens get the same binding for the same account, so the
   * balance bound last is reported for both.
   */
  lemma BindingNamesCollide()
    ensures IsValidPactString("a.b") && IsValidPactString("ab")
    ensures BindingName("a.b", 0) == BindingName("ab", 0)
  {
    assert RemoveChar("b", '.') == "b";
    assert RemoveChar(".b", '.') == "b" by { assert ".b"[1..] == "b"; }
    assert RemoveChar("a.b", '.') == "ab" by { assert "a.b"[1..] == ".b"; }
  }

  /** An escape that keeps the binding names apart: '_' becomes "__" and '.' becomes "_d". */
  function EscapeChar(c: char): string
  {
    if c == '_' then "__" else if c == '.' then "_d" else [c]
  }

  function Escape(s: string): (r: string)
  {
    if s == [] then [] else EscapeChar(s[0]) + Escape(s[1..])
  }

  /** The escape is one-to-one: different tokens have different escapes. */
  lemma {:induction false} EscapeInjective(a: string, b: string)
    requires Escape(a) == Escape(b)
    ensures a == b
    decreases |a|
  {
    if a != [] && b != [] {
      var ea, eb := EscapeChar(a[0]), EscapeChar(b[0]);
      assert Escape(a) == ea + Escape(a[1..]);
      assert Escape(b) == eb + Escape(b[1..]);
      if a[0] != b[0] {
        EscapeHeads(a, b);
        assert false;
      }
      assert ea == eb;
      assert Escape(a[1..]) == Escape(b[1..]) by {
        assert Escape(a[1..]) == Escape(a)[|ea|..];
        assert Escape(b[1..]) == Escape(b)[|eb|..];
      }
      EscapeInjective(a[1..], b[1..]);
    }
  }

  /** Escapes of strings that start with different characters differ in their first two characters. */
  lemma EscapeHeads(a: string, b: string)
    requires a != [] && b != [] && a[0] != b[0]
    ensures Escape(a) != Escape(b)
  {
    var ea, eb := EscapeChar(a[0]), EscapeChar(b[0]);
    var ra, rb := Escape(a[1..]), Escape(b[1..]);
    assert Escape(a) == ea + ra && Escape(b) == eb + rb;
    if ea[0] != eb[0] {
      assert Escape(a)[0] == ea[0] && Escape(b)[0] == eb[0];
    } else {
      assert |ea| == 2 && |eb| == 2;
      assert Escape(a)[1] == ea[1] && Escape(b)[1] == eb[1];
    }
  }

  /** The binding name built from the escaped token. */
  function EscapedBindingName(token: string, j: nat): string
    requires j < ACCOUNTS_CHUNK_SIZE
  {
    Escape(token) + "_" + [Digit(j)]
  }

  /** With the escape, every (token, batch position) pair has a binding of its own. */
  lemma EscapedBindingNamesDistinct(t1: string, j1: nat, t2: string, j2: nat)
    requires j1 < ACCOUNTS_CHUNK_SIZE && j2 < ACCOUNTS_CHUNK_SIZE
    requires EscapedBindingName(t1, j1) == EscapedBindingName(t2, j2)
    ensures t1 == t2 && j1 == j2
  {
    var n1, n2 := EscapedBindingName(t1, j1), EscapedBindingName(t2, j2);
    assert n1[|n1| - 1] == Digit(j1) && n2[|n2| - 1] == Digit(j2);
    assert Escape(t1) == n1[..|n1| - 2] && Escape(t2) == n2[..|n2| - 2];
    EscapeInjective(t1, t2);
  }

  // ---- batches ----

  function Min(a: int, b: int): int
  {
    if a <= b then a else b
  }

  /** The cursor read in batches of `ACCOUNTS_CHUNK_SIZE`. */
  function Chunks(accounts: seq<string>): (cs: seq<seq<string>>)
    decreases |accounts|
  {
    if accounts == [] then []
    else
      var k := Min(ACCOUNTS_CHUNK_SIZE, |accounts|);
      [accounts[..k]] + Chunks(accounts[k..])
  }

  function Flatten(cs: seq<seq<string>>): seq<string>
  {
    if cs == [] then [] else cs[0] + Flatten(cs[1..])
  }

  /** Every account is visited exactly once, in cursor order. */
  lemma {:induction false} ChunksFlatten(accounts: seq<string>)
    ensures Flatten(Chunks(accounts)) == accounts
    decreases |accounts|
  {
    if accounts != [] {
      var k := Min(ACCOUNTS_CHUNK_SIZE, |accounts|);
      var cs := Chunks(accounts);
      assert cs[0] == accounts[..k] && cs[1..] == Chunks(accounts[k..]);
      ChunksFlatten(accounts[k..]);
      assert accounts[..k] + accounts[k..] == accounts;
    }
  }

  /** Every batch holds one to three accounts, and only the last may hold fewer than three. */
  lemma {:induction false} ChunksSizes(accounts: seq<string>)
    ensures forall i :: 0 <= i < |Chunks(accounts)| ==> 1 <= |Chunks(accounts)[i]| <= ACCOUNTS_CHUNK_SIZE
    ensures forall i :: 0 <= i < |Chunks(accounts)| - 1 ==> |Chunks(accounts)[i]| == ACCOUNTS_CHUNK_SIZE
    decreases |accounts|
  {
    if accounts != [] {
      var k := Min(ACCOUNTS_CHUNK_SIZE, |accounts|);
      ChunksSizes(accounts[k..]);
      var cs := Chunks(accounts);
      assert cs[1..] == Chunks(accounts[k..]);
      if k < ACCOUNTS_CHUNK_SIZE {
        assert accounts[k..] == [];
      }
      assert forall i :: 1 <= i < |cs| ==> cs[i] == Chunks(accounts[k..])[i - 1];
    }
  }

  /** The inner `for` loop: up to three accounts from the cursor position `pos`. */
  method NextBatch(accounts: seq<string>, pos: nat) returns (batch: seq<string>, next: nat)
    requires pos <= |accounts|
    ensures next == pos + Min(ACCOUNTS_CHUNK_SIZE, |accounts| - pos)
    ensures batch == accounts[pos..next]
  {
    batch := [];
    next := pos;
    var i := 0;
    while i < ACCOUNTS_CHUNK_SIZE && next < |accounts|
      invariant 0 <= i <= ACCOUNTS_CHUNK_SIZE && next == pos + i <= |accounts|
      invariant batch == accounts[pos..next]
      decreases ACCOUNTS_CHUNK_SIZE - i
    {
      batch := batch + [accounts[next]];
      next := next + 1;
      i := i + 1;
    }
  }

  // ---- balances ----

  /** `parseFloat(x.toFixed(2))`: rounded to cents, a tie away from zero. */
  function Cents(x: real): real
  {
    if x >= 0.0 then (x * 100.0 + 0.5).Floor as real / 100.0 else -((-x * 100.0 + 0.5).Floor as real / 100.0)
  }

  /** The rounding moves a value by at most half a cent. */
  lemma CentsClose(x: real)
    ensures -0.005 <= Cents(x) - x <= 0.005
  {
    if x >= 0.0 {
      var f := (x * 100.0 + 0.5).Floor;
      assert f as real <= x * 100.0 + 0.5 < f as real + 1.0;
    } else {
      var f := (-x * 100.0 + 0.5).Floor;
      assert f as real <= -x * 100.0 + 0.5 < f as real + 1.0;
    }
  }

  datatype TokenBalance = TokenBalance(token: string, balance: real, price: real, usdBalance: real)

  /** One chain's record for an account: every token balance and their summed value. */
  datatype ChainBalance = ChainBalance(chainId: nat, balances: seq<TokenBalance>, usdValue: real)

  /** A token's balance valued at its latest price, rounded to cents. */
  function TokenBalanceOf(token: string, balance: real, prices: seq<PriceRow>, cache: map<string, Option<string>>): (b: TokenBalance)
    ensures b.token == token && b.balance == balance
    ensures b.price == PriceOf(token, prices, cache)
    ensures b == Valued(token, balance, b.price)
  {
    Valued(token, balance, PriceOf(token, prices, cache))
  }

  /** A balance at a given price, its USD value rounded to cents. */
  function Valued(token: string, balance: real, price: real): (b: TokenBalance)
    ensures b.token == token && b.balance == balance && b.price == price
    ensures -0.005 <= b.usdBalance - balance * price <= 0.005
  {
    CentsClose(balance * price);
    TokenBalance(token, balance, price, Cents(balance * price))
  }

  function UsdBalances(bs: seq<TokenBalance>): (r: seq<real>)
    ensures |r| == |bs| && forall i :: 0 <= i < |bs| ==> r[i] == bs[i].usdBalance
  {
    seq(|bs|, i requires 0 <= i < |bs| => bs[i].usdBalance)
  }

  function UsdValues(cs: seq<ChainBalance>): (r: seq<real>)
    ensures |r| == |cs| && forall i :: 0 <= i < |cs| ==> r[i] == cs[i].usdValue
  {
    seq(|cs|, i requires 0 <= i < |cs| => cs[i].usdValue)
  }

  /**
   * The record of one chain for one account, from the balances the chain returned for it
   * (token and balance, in key order, each read by `getReserve`).
   */
  function ChainBalanceOf(chainId: nat, tokens: seq<(string, real)>, prices: seq<PriceRow>,
                          cache: map<string, Option<string>>): (c: ChainBalance)
    ensures c.chainId == chainId && |c.balances| == |tokens|
    ensures forall i :: 0 <= i < |tokens| ==> c.balances[i] == TokenBalanceOf(tokens[i].0, tokens[i].1, prices, cache)
    ensures c.usdValue == Sum(UsdBalances(c.balances))
  {
    var bs := seq(|tokens|, i requires 0 <= i < |tokens| => TokenBalanceOf(tokens[i].0, tokens[i].1, prices, cache));
    ChainBalance(chainId, bs, Sum(UsdBalances(bs)))
  }

  /** What a chain's Pact call gave: a failure, or per account the token balances, in key order. */
  datatype ChainResult = Failed | Succeeded(data: seq<(string, seq<(string, real)>)>)

  /** Every batch account, with no records yet. */
  function Init(batch: seq<string>): (m: map<string, seq<ChainBalance>>)
    ensures m.Keys == set a | a in batch
    ensures forall a :: a in m ==> m[a] == []
  {
    map a | a in batch :: []
  }

  /** The records of one account of a chain result appended, when the account is in the batch. */
  function AddAccount(m: map<string, seq<ChainBalance>>, chainId: nat, entry: (string, seq<(string, real)>),
                      prices: seq<PriceRow>, cache: map<string, Option<string>>): map<string, seq<ChainBalance>>
  {
    if entry.0 in m then m[entry.0 := m[entry.0] + [ChainBalanceOf(chainId, entry.1, prices, cache)]] else m
  }

  function AddAccounts(m: map<string, seq<ChainBalance>>, chainId: nat, data: seq<(string, seq<(string, real)>)>,
                       prices: seq<PriceRow>, cache: map<string, Option<string>>): map<string, seq<ChainBalance>>
  {
    if data == [] then m
    else AddAccount(AddAccounts(m, chainId, data[..|data| - 1], prices, cache), chainId, data[|data| - 1], prices, cache)
  }

  function AddChain(m: map<string, seq<ChainBalance>>, chainId: nat, res: ChainResult,
                    prices: seq<PriceRow>, cache: map<string, Option<string>>): map<string, seq<ChainBalance>>
  {
    match res
    case Failed => m
    case Succeeded(data) => AddAccounts(m, chainId, data, prices, cache)
  }

  /** The chain results of a batch, taken in chain order. */
  function AddChains(m: map<string, seq<ChainBalance>>, results: seq<ChainResult>,
                     prices: seq<PriceRow>, cache: map<string, Option<string>>): map<string, seq<ChainBalance>>
  {
    if results == [] then m
    else AddChain(AddChains(m, results[..|results| - 1], prices, cache), |results| - 1, results[|results| - 1], prices, cache)
  }

  /** Results for accounts outside the batch add no key. */
  lemma {:induction false} AddAccountsKeys(m: map<string, seq<ChainBalance>>, chainId: nat, data: seq<(string, seq<(string, real)>)>,
                                           prices: seq<PriceRow>, cache: map<string, Option<string>>)
    ensures AddAccounts(m, chainId, data, prices, cache).Keys == m.Keys
  {
    if data != [] {
      AddAccountsKeys(m, chainId, data[..|data| - 1], prices, cache);
    }
  }

  lemma {:induction false} AddChainsKeys(m: map<string, seq<ChainBalance>>, results: seq<ChainResult>,
                                         prices: seq<PriceRow>, cache: map<string, Option<string>>)
    ensures AddChains(m, results, prices, cache).Keys == m.Keys
  {
    if results != [] {
      var before := AddChains(m, results[..|results| - 1], prices, cache);
      AddChainsKeys(m, results[..|results| - 1], prices, cache);
      if results[|results| - 1].Succeeded? {
        AddAccountsKeys(before, |results| - 1, results[|results| - 1].data, prices, cache);
      }
    }
  }

  /** Chain `c` reported balances `tokens` for account `a`. */
  predicate Reported(results: seq<ChainResult>, c: nat, a: string, tokens: seq<(string, real)>)
  {
    c < |results| && results[c].Succeeded? && (a, tokens) in results[c].data
  }

  /** `record` is what some chain reported for account `a`. */
  ghost predicate FromReport(results: seq<ChainResult>, a: string, record: ChainBalance,
                       prices: seq<PriceRow>, cache: map<string, Option<string>>)
  {
    exists c: nat, tokens :: Reported(results, c, a, tokens) && record == ChainBalanceOf(c, tokens, prices, cache)
  }

  /** `record` is what chain `chainId` reported for account `a` in `data`. */
  ghost predicate InData(data: seq<(string, seq<(string, real)>)>, chainId: nat, a: string, record: ChainBalance,
                         prices: seq<PriceRow>, cache: map<string, Option<string>>)
  {
    exists tokens :: (a, tokens) in data && record == ChainBalanceOf(chainId, tokens, prices, cache)
  }

  lemma SnocSlices<T>(s: seq<T>, k: nat, x: T)
    requires k <= |s|
    ensures (s + [x])[..k] == s[..k] && (s + [x])[k..] == s[k..] + [x]
  {
  }

  lemma InDataGrow(init: seq<(string, seq<(string, real)>)>, data: seq<(string, seq<(string, real)>)>, chainId: nat,
                   a: string, record: ChainBalance, prices: seq<PriceRow>, cache: map<string, Option<string>>)
    requires forall e :: e in init ==> e in data
    requires InData(init, chainId, a, record, prices, cache)
    ensures InData(data, chainId, a, record, prices, cache)
  {
    var tokens :| (a, tokens) in init && record == ChainBalanceOf(chainId, tokens, prices, cache);
    assert (a, tokens) in data;
  }

  /** Every record kept for a batch account comes from a chain that reported it. */
  lemma {:induction false} AddAccountsSound(m: map<string, seq<ChainBalance>>, chainId: nat, data: seq<(string, seq<(string, real)>)>,
                                            prices: seq<PriceRow>, cache: map<string, Option<string>>, a: string)
    requires a in m
    ensures a in AddAccounts(m, chainId, data, prices, cache)
    ensures |m[a]| <= |AddAccounts(m, chainId, data, prices, cache)[a]|
    ensures AddAccounts(m, chainId, data, prices, cache)[a][..|m[a]|] == m[a]
    ensures forall x :: x in AddAccounts(m, chainId, data, prices, cache)[a][|m[a]|..] ==> InData(data, chainId, a, x, prices, cache)
  {
    if data != [] {
      var init := data[..|data| - 1];
      AddAccountsSound(m, chainId, init, prices, cache, a);
      AddAccountsKeys(m, chainId, init, prices, cache);
      var before := AddAccounts(m, chainId, init, prices, cache);
      var r := AddAccount(before, chainId, data[|data| - 1], prices, cache);
      var last := data[|data| - 1];
      assert forall e :: e in init ==> e in data;
      var k := |m[a]|;
      if last.0 == a {
        var x := ChainBalanceOf(chainId, last.1, prices, cache);
        assert r[a] == before[a] + [x];
        SnocSlices(before[a], k, x);
        assert last in data;
        forall y | y in r[a][k..] ensures InData(data, chainId, a, y, prices, cache) {
          if y != x {
            assert y in before[a][k..];
            InDataGrow(init, data, chainId, a, y, prices, cache);
          }
        }
      } else {
        assert r[a] == before[a];
        forall y | y in r[a][k..] ensures InData(data, chainId, a, y, prices, cache) {
          InDataGrow(init, data, chainId, a, y, prices, cache);
        }
      }
    } else {
      assert AddAccounts(m, chainId, data, prices, cache) == m;
    }
  }

  /** After all chains, every record of a batch account is one that some chain reported for it. */
  lemma {:induction false} AddChainsSound(batch: seq<string>, results: seq<ChainResult>,
                                          prices: seq<PriceRow>, cache: map<string, Option<string>>, a: string)
    requires a in batch
    ensures a in AddChains(Init(batch), results, prices, cache)
    ensures forall x :: x in AddChains(Init(batch), results, prices, cache)[a] ==> FromReport(results, a, x, prices, cache)
  {
    AddChainsKeys(Init(batch), results, prices, cache);
    if results != [] {
      var init := results[..|results| - 1];
      var c := |results| - 1;
      AddChainsSound(batch, init, prices, cache, a);
      AddChainsKeys(Init(batch), init, prices, cache);
      var before := AddChains(Init(batch), init, prices, cache);
      var r := AddChains(Init(batch), results, prices, cache);
      assert init == results[..c];
      assert r == AddChain(before, c, results[c], prices, cache);
      if results[c].Succeeded? {
        assert r == AddAccounts(before, c, results[c].data, prices, cache);
        AddAccountsSound(before, c, results[c].data, prices, cache, a);
      } else {
        assert r == before;
      }
      forall x | x in r[a] ensures FromReport(results, a, x, prices, cache) {
        var i :| 0 <= i < |r[a]| && r[a][i] == x;
        if i < |before[a]| {
          assert r[a][i] == r[a][..|before[a]|][i];
          assert r[a][i] == before[a][i];
          assert before[a][i] in before[a];
          var c': nat, tokens: seq<(string, real)> :| Reported(init, c', a, tokens) && before[a][i] == ChainBalanceOf(c', tokens, prices, cache);
          assert results[c'] == init[c'];
          assert Reported(results, c', a, tokens);
        } else {
          assert results[c].Succeeded?;
          assert x in r[a][|before[a]|..] by { assert r[a][|before[a]|..][i - |before[a]|] == x; }
          var tokens :| (a, tokens) in results[c].data && x == ChainBalanceOf(c, tokens, prices, cache);
          assert Reported(results, c, a, tokens);
        }
      }
    } else {
      assert AddChains(Init(batch), results, prices, cache) == Init(batch);
    }
  }

  /**
   * The records chain `chainId` makes for account `a` from its answer: one per entry of
   * the answer for `a`, from that entry's balances, in the answer's key order.
   */
  function AccountRecords(chainId: nat, data: seq<(string, seq<(string, real)>)>, a: string,
                          prices: seq<PriceRow>, cache: map<string, Option<string>>): seq<ChainBalance>
  {
    if data == [] then []
    else
      var last := data[|data| - 1];
      AccountRecords(chainId, data[..|data| - 1], a, prices, cache)
        + (if last.0 == a then [ChainBalanceOf(chainId, last.1, prices, cache)] else [])
  }

  /** The records of account `a` over all chains: chain by chain, nothing from a failed chain. */
  function RecordsFor(results: seq<ChainResult>, a: string, prices: seq<PriceRow>,
                      cache: map<string, Option<string>>): seq<ChainBalance>
  {
    if results == [] then []
    else
      var c := |results| - 1;
      RecordsFor(results[..c], a, prices, cache)
        + (if results[c].Succeeded? then AccountRecords(c, results[c].data, a, prices, cache) else [])
  }

  /** One chain's answer appends exactly its records for a batch account. */
  lemma {:induction false} AddAccountsRecords(m: map<string, seq<ChainBalance>>, chainId: nat,
                                              data: seq<(string, seq<(string, real)>)>,
                                              prices: seq<PriceRow>, cache: map<string, Option<string>>, a: string)
    requires a in m
    ensures a in AddAccounts(m, chainId, data, prices, cache)
    ensures AddAccounts(m, chainId, data, prices, cache)[a] == m[a] + AccountRecords(chainId, data, a, prices, cache)
  {
    if data != [] {
      var init := data[..|data| - 1];
      AddAccountsRecords(m, chainId, init, prices, cache, a);
      var before := AddAccounts(m, chainId, init, prices, cache);
      var last := data[|data| - 1];
      var tail := if last.0 == a then [ChainBalanceOf(chainId, last.1, prices, cache)] else [];
      assert AddAccount(before, chainId, last, prices, cache)[a] == before[a] + tail;
      assert m[a] + AccountRecords(chainId, init, a, prices, cache) + tail
          == m[a] + (AccountRecords(chainId, init, a, prices, cache) + tail);
    } else {
      assert m[a] + [] == m[a];
    }
  }

  /**
   * After all chains, a batch account holds exactly its records chain by chain: for each
   * successful chain in chain order, one record per entry of that chain's answer for it.
   */
  lemma {:induction false} AddChainsComplete(batch: seq<string>, results: seq<ChainResult>,
                                             prices: seq<PriceRow>, cache: map<string, Option<string>>, a: string)
    requires a in batch
    ensures a in AddChains(Init(batch), results, prices, cache)
    ensures AddChains(Init(batch), results, prices, cache)[a] == RecordsFor(results, a, prices, cache)
  {
    AddChainsKeys(Init(batch), results, prices, cache);
    if results != [] {
      var c := |results| - 1;
      var init := results[..c];
      AddChainsComplete(batch, init, prices, cache, a);
      AddChainsKeys(Init(batch), init, prices, cache);
      var before := AddChains(Init(batch), init, prices, cache);
      if results[c].Succeeded? {
        AddAccountsRecords(before, c, results[c].data, prices, cache, a);
      }
    }
  }

  /** The total value of an account: the sum of its per-chain values. */
  function TotalUsdValue(records: seq<ChainBalance>): real
  {
    Sum(UsdValues(records))
  }

  /**
   * The chains answer concurrently and an account's records are pushed in the order the
   * answers arrive; the total is the same for every order.
   */
  lemma {:induction false} TotalIndependentOfOrder(a: seq<ChainBalance>, b: seq<ChainBalance>)
    requires multiset(a) == multiset(b)
    ensures TotalUsdValue(a) == TotalUsdValue(b)
    decreases |a|
  {
    if a != [] {
      var x := a[|a| - 1];
      assert x in multiset(b);
      var i :| 0 <= i < |b| && b[i] == x;
      var rest := b[..i] + b[i + 1..];
      MultisetRemove(a, b, i);
      TotalIndependentOfOrder(a[..|a| - 1], rest);
      SumRemove(UsdValues(b), i);
      assert UsdValues(b)[..i] + UsdValues(b)[i + 1..] == UsdValues(rest);
      assert UsdValues(a)[..|a| - 1] == UsdValues(a[..|a| - 1]);
    } else {
      assert |b| == |multiset(b)| == 0;
    }
  }

  // ---- the upserts ----

  /** The distinct accounts of a batch in first-occurrence order: the keys of `dataToPersist`. */
  function Distinct(batch: seq<string>): (r: seq<string>)
    ensures forall a :: a in r <==> a in batch
    ensures forall i, j :: 0 <= i < j < |r| ==> r[i] != r[j]
  {
    if batch == [] then []
    else
      var rest := Distinct(batch[..|batch| - 1]);
      var last := batch[|batch| - 1];
      assert batch == batch[..|batch| - 1] + [last];
      if last in rest then rest else rest + [last]
  }

  /** One balance record, keyed by account and day. */
  datatype Upsert = Upsert(account: string, date: string, totalUsdValue: real, balances: seq<ChainBalance>)

  /** The bulk write of one batch: one upsert per account of the batch. */
  function BatchUpserts(batch: seq<string>, persisted: map<string, seq<ChainBalance>>, date: string): (ups: seq<Upsert>)
    requires forall a :: a in batch ==> a in persisted
    ensures |ups| == |Distinct(batch)|
    ensures forall i :: 0 <= i < |ups| ==> (
      && ups[i].account == Distinct(batch)[i] && ups[i].date == date
      && ups[i].balances == persisted[ups[i].account]
      && ups[i].totalUsdValue == TotalUsdValue(persisted[ups[i].account]))
  {
    var keys := Distinct(batch);
    seq(|keys|, i requires 0 <= i < |keys| => Upsert(keys[i], date, TotalUsdValue(persisted[keys[i]]), persisted[keys[i]]))
  }

  /** Exactly one upsert per batch account, no two with the same (account, day) key. */
  lemma OneUpsertPerAccount(batch: seq<string>, persisted: map<string, seq<ChainBalance>>, date: string)
    requires forall a :: a in batch ==> a in persisted
    ensures var ups := BatchUpserts(batch, persisted, date);
      && (forall a :: a in batch <==> exists i :: 0 <= i < |ups| && ups[i].account == a)
      && (forall i, j :: 0 <= i < j < |ups| ==> (ups[i].account, ups[i].date) != (ups[j].account, ups[j].date))
  {
    var ups := BatchUpserts(batch, persisted, date);
    forall a | a in batch ensures exists i :: 0 <= i < |ups| && ups[i].account == a {
      var i :| 0 <= i < |Distinct(batch)| && Distinct(batch)[i] == a;
      assert ups[i].account == a;
    }
  }

  /** What a batch writes, the chain results given by the Pact call on each chain. */
  function BatchWrites(batch: seq<string>, chainsCount: nat, stored: nat -> seq<string>,
                       call: (nat, seq<string>, seq<string>) -> ChainResult,
                       prices: seq<PriceRow>, cache: map<string, Option<string>>, date: string): seq<Upsert>
  {
    var results := seq(chainsCount, c requires 0 <= c < chainsCount => call(c, batch, ValidTokens(stored(c))));
    AddChainsKeys(Init(batch), results, prices, cache);
    BatchUpserts(batch, AddChains(Init(batch), results, prices, cache), date)
  }

  /** A batch with an account writes something. */
  lemma BatchWritesNonEmpty(batch: seq<string>, chainsCount: nat, stored: nat -> seq<string>,
                            call: (nat, seq<string>, seq<string>) -> ChainResult,
                            prices: seq<PriceRow>, cache: map<string, Option<string>>, date: string)
    requires batch != []
    ensures |BatchWrites(batch, chainsCount, stored, call, prices, cache, date)| > 0
  {
    assert batch[0] in Distinct(batch);
  }

  /** The bulk writes of the whole run, one per batch. */
  function Writes(batches: seq<seq<string>>, chainsCount: nat, stored: nat -> seq<string>,
                  call: (nat, seq<string>, seq<string>) -> ChainResult,
                  prices: seq<PriceRow>, cache: map<string, Option<string>>, date: string): seq<seq<Upsert>>
  {
    if batches == [] then []
    else [BatchWrites(batches[0], chainsCount, stored, call, prices, cache, date)]
         + Writes(batches[1..], chainsCount, stored, call, prices, cache, date)
  }

  /** The chain loop of one batch, filling `dataToPersist`. */
  method CollectBatch(batch: seq<string>, chainsCount: nat, stored: nat -> seq<string>,
                      call: (nat, seq<string>, seq<string>) -> ChainResult,
                      prices: seq<PriceRow>, cache: map<string, Option<string>>)
    returns (dataToPersist: map<string, seq<ChainBalance>>)
    ensures dataToPersist == AddChains(Init(batch), seq(chainsCount, c requires 0 <= c < chainsCount => call(c, batch, ValidTokens(stored(c)))), prices, cache)
  {
    var results := seq(chainsCount, c requires 0 <= c < chainsCount => call(c, batch, ValidTokens(stored(c))));
    dataToPersist := InitBatch(batch);
    for chainId := 0 to chainsCount
      invariant dataToPersist == AddChains(Init(batch), results[..chainId], prices, cache)
    {
      var tokens := ValidTokens(stored(chainId));
      var res := call(chainId, batch, tokens);
      assert res == results[chainId];
      AddChainsStep(Init(batch), results, chainId, prices, cache);
      dataToPersist := AddChainResult(dataToPersist, chainId, res, prices, cache);
    }
    AddChainsDone(Init(batch), results, prices, cache);
  }

  /** The loop that gives every account of the batch an empty list. */
  method InitBatch(batch: seq<string>) returns (dataToPersist: map<string, seq<ChainBalance>>)
    ensures dataToPersist == Init(batch)
  {
    dataToPersist := map[];
    for k := 0 to |batch|
      invariant dataToPersist == map a | a in batch[..k] :: []
    {
      assert forall a :: a in batch[..k + 1] <==> a in batch[..k] || a == batch[k] by {
        assert batch[..k + 1] == batch[..k] + [batch[k]];
      }
      dataToPersist := dataToPersist[batch[k] := []];
    }
    assert batch[..|batch|] == batch;
  }

  lemma AddChainsStep(m: map<string, seq<ChainBalance>>, results: seq<ChainResult>, chainId: nat,
                      prices: seq<PriceRow>, cache: map<string, Option<string>>)
    requires chainId < |results|
    ensures AddChains(m, results[..chainId + 1], prices, cache)
         == AddChain(AddChains(m, results[..chainId], prices, cache), chainId, results[chainId], prices, cache)
  {
    assert results[..chainId + 1][..chainId] == results[..chainId];
  }

  lemma AddChainsDone(m: map<string, seq<ChainBalance>>, results: seq<ChainResult>,
                      prices: seq<PriceRow>, cache: map<string, Option<string>>)
    ensures AddChains(m, results[..|results|], prices, cache) == AddChains(m, results, prices, cache)
  {
    assert results[..|results|] == results;
  }

  /** The `forEach` over the accounts of one successful chain answer. */
  method AddChainResult(m: map<string, seq<ChainBalance>>, chainId: nat, res: ChainResult,
                        prices: seq<PriceRow>, cache: map<string, Option<string>>)
    returns (r: map<string, seq<ChainBalance>>)
    ensures r == AddChain(m, chainId, res, prices, cache)
  {
    r := m;
    if res.Succeeded? {
      var data := res.data;
      for k := 0 to |data|
        invariant r == AddAccounts(m, chainId, data[..k], prices, cache)
      {
        assert data[..k + 1][..k] == data[..k] && data[..k + 1][k] == data[k];
        var accountString, tokens := data[k].0, data[k].1;
        if accountString in r {
          var balances := seq(|tokens|, i requires 0 <= i < |tokens| => TokenBalanceOf(tokens[i].0, tokens[i].1, prices, cache));
          assert ChainBalance(chainId, balances, Sum(UsdBalances(balances))) == ChainBalanceOf(chainId, tokens, prices, cache);
          r := r[accountString := r[accountString] + [ChainBalance(chainId, balances, Sum(UsdBalances(balances)))]];
        }
      }
      assert data[..|data|] == data;
    }
  }

  /** One batch: its chain loop and the upserts built from it. */
  method ProcessBatch(batch: seq<string>, chainsCount: nat, stored: nat -> seq<string>,
                      call: (nat, seq<string>, seq<string>) -> ChainResult,
                      prices: seq<PriceRow>, cache: map<string, Option<string>>, date: string)
    returns (bulkOps: seq<Upsert>)
    ensures bulkOps == BatchWrites(batch, chainsCount, stored, call, prices, cache, date)
  {
    var dataToPersist := CollectBatch(batch, chainsCount, stored, call, prices, cache);
    AddChainsKeys(Init(batch), seq(chainsCount, c requires 0 <= c < chainsCount => call(c, batch, ValidTokens(stored(c)))), prices, cache);
    bulkOps := BatchUpserts(batch, dataToPersist, date);
  }

  /** The writes of the accounts from `pos` on: those of the next batch, then the rest. */
  lemma WritesFrom(accounts: seq<string>, pos: nat, chainsCount: nat, stored: nat -> seq<string>,
                   call: (nat, seq<string>, seq<string>) -> ChainResult,
                   prices: seq<PriceRow>, cache: map<string, Option<string>>, date: string)
    requires pos < |accounts|
    ensures var next := pos + Min(ACCOUNTS_CHUNK_SIZE, |accounts| - pos);
      Writes(Chunks(accounts[pos..]), chainsCount, stored, call, prices, cache, date)
      == [BatchWrites(accounts[pos..next], chainsCount, stored, call, prices, cache, date)]
         + Writes(Chunks(accounts[next..]), chainsCount, stored, call, prices, cache, date)
  {
    var next := pos + Min(ACCOUNTS_CHUNK_SIZE, |accounts| - pos);
    assert accounts[pos..][..next - pos] == accounts[pos..next];
    assert accounts[pos..][next - pos..] == accounts[next..];
    assert Chunks(accounts[pos..]) == [accounts[pos..next]] + Chunks(accounts[next..]);
  }

  /**
   * One turn of the cursor loop: read the next batch and, when it is not empty, append its
   * bulk write to those done so far.
   */
  method BatchStep(accounts: seq<string>, pos: nat, chainsCount: nat, stored: nat -> seq<string>,
                   call: (nat, seq<string>, seq<string>) -> ChainResult,
                   prices: seq<PriceRow>, cache: map<string, Option<string>>, date: string,
                   done: seq<seq<Upsert>>)
    returns (bulkWrites: seq<seq<Upsert>>, next: nat)
    requires pos < |accounts|
    ensures pos < next <= |accounts|
    ensures done + Writes(Chunks(accounts[pos..]), chainsCount, stored, call, prices, cache, date)
            == bulkWrites + Writes(Chunks(accounts[next..]), chainsCount, stored, call, prices, cache, date)
  {
    var batch;
    batch, next := NextBatch(accounts, pos);
    WritesFrom(accounts, pos, chainsCount, stored, call, prices, cache, date);
    var written: seq<seq<Upsert>> := [];
    if |batch| > 0 {
      var bulkOps := ProcessBatch(batch, chainsCount, stored, call, prices, cache, date);
      BatchWritesNonEmpty(batch, chainsCount, stored, call, prices, cache, date);
      if |bulkOps| > 0 {
        written := [bulkOps];
      }
    }
    ghost var rest := Writes(Chunks(accounts[next..]), chainsCount, stored, call, prices, cache, date);
    assert done + (written + rest) == (done + written) + rest;
    bulkWrites := done + written;
  }

  /** `updateAccountsBalance`: the cursor loop, one bulk write per batch. */
  method UpdateAccountsBalance(accounts: seq<string>, chainsCount: nat, stored: nat -> seq<string>,
                               call: (nat, seq<string>, seq<string>) -> ChainResult,
                               prices: seq<PriceRow>, cache: map<string, Option<string>>, date: string)
    returns (bulkWrites: seq<seq<Upsert>>)
    ensures bulkWrites == Writes(Chunks(accounts), chainsCount, stored, call, prices, cache, date)
  {
    bulkWrites := [];
    var pos := 0;
    assert accounts[pos..] == accounts;
    while pos < |accounts|
      invariant pos <= |accounts|
      invariant Writes(Chunks(accounts), chainsCount, stored, call, prices, cache, date)
                == bulkWrites + Writes(Chunks(accounts[pos..]), chainsCount, stored, call, prices, cache, date)
      decreases |accounts| - pos
    {
      bulkWrites, pos := BatchStep(accounts, pos, chainsCount, stored, call, prices, cache, date, bulkWrites);
    }
    assert accounts[pos..] == [];
  }
}
