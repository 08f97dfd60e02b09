/**
 * The rules shared by the two account transaction-history endpoints (the GraphQL one and
 * the Postgres one): request validation, the ticker of a token module, the
 * classification of a transaction by its Pact code, the direction of a transfer relative
 * to the account, the status, the cross-chain target and the shape of an output row.
 */
module TransactionRules {
  import opened Wrappers
  import opened Strings
  import opened Js

  const ACCOUNT_ERROR := "Please define account param"
  const STATUS_ERROR := "status can only be SUCCESS or FAIL"
  const DIRECTION_ERROR := "direction can only be IN or OUT"

  datatype Status = Success | Fail
  datatype Direction = In | Out
  datatype TxType = Transfer | Swap | Unknown

  function StatusName(s: Status): string
  {
    match s
    case Success => "SUCCESS"
    case Fail => "FAIL"
  }

  function DirectionName(d: Direction): string
  {
    match d
    case In => "IN"
    case Out => "OUT"
  }

  function TxTypeName(t: TxType): string
  {
    match t
    case Transfer => "TRANSFER"
    case Swap => "SWAP"
    case Unknown => "???"
  }

  /**
   * The query parameters as received, all strings; `None` is a parameter that is absent.
   * `limit` and `skip` default to 100 and 0; the other parameters count only when truthy.
   */
  datatype Request = Request(
    account: Option<string>, limit: Option<DecimalText>, skip: Option<DecimalText>, modulename: Option<string>,
    status: Option<string>, requestkey: Option<string>, direction: Option<string>)

  /**
   * A validated request: the filters that are in force. `limit` and `skip` keep their text,
   * the defaults reading as "100" and "0"; LimitOf and SkipOf are their numbers.
   */
  datatype Query = Query(
    account: string, limit: DecimalText, skip: DecimalText, modulename: Option<string>,
    requestkey: Option<string>, status: Option<Status>, direction: Option<Direction>)

  /** The number a comparison or a `slice` reads from the `limit` parameter. */
  function LimitOf(q: Query): int
  {
    NumberOf(q.limit)
  }

  /** The number a comparison or a `slice` reads from the `skip` parameter. */
  function SkipOf(q: Query): int
  {
    NumberOf(q.skip)
  }

  /** A truthy optional string parameter as an Option. */
  function Filter(p: Option<string>): (r: Option<string>)
    ensures r.Some? <==> Given(p)
    ensures r.Some? ==> r == p
  {
    if Given(p) then p else None
  }

  function ParseStatus(s: string): Option<Status>
  {
    if s == "SUCCESS" then Some(Success) else if s == "FAIL" then Some(Fail) else None
  }

  function ParseDirection(s: string): Option<Direction>
  {
    if s == "IN" then Some(In) else if s == "OUT" then Some(Out) else None
  }

  /**
   * The three checks, in order: a falsy account, a truthy status other than SUCCESS/FAIL,
   * a truthy direction other than IN/OUT each throw their own message.
   */
  function Validate(req: Request): (r: Result<Query>)
    ensures !Given(req.account) ==> r == Err(ACCOUNT_ERROR)
    ensures Given(req.account) && Given(req.status) && req.status.value != "SUCCESS" && req.status.value != "FAIL"
      ==> r == Err(STATUS_ERROR)
    ensures Given(req.account) && (!Given(req.status) || req.status.value in ["SUCCESS", "FAIL"])
      && Given(req.direction) && req.direction.value != "IN" && req.direction.value != "OUT"
      ==> r == Err(DIRECTION_ERROR)
    ensures r.Ok? <==> (Given(req.account)
                        && (!Given(req.status) || req.status.value in ["SUCCESS", "FAIL"])
                        && (!Given(req.direction) || req.direction.value in ["IN", "OUT"]))
    ensures r.Ok? ==> (r.value.account == req.account.value
                       && r.value.limit == req.limit.GetOr("100") && r.value.skip == req.skip.GetOr("0")
                       && r.value.modulename == Filter(req.modulename) && r.value.requestkey == Filter(req.requestkey)
                       && (r.value.status.Some? <==> Given(req.status))
                       && (r.value.status.Some? ==> StatusName(r.value.status.value) == req.status.value)
                       && (r.value.direction.Some? <==> Given(req.direction))
                       && (r.value.direction.Some? ==> DirectionName(r.value.direction.value) == req.direction.value))
  {
    if !Given(req.account) then Err(ACCOUNT_ERROR)
    else if Given(req.status) && ParseStatus(req.status.value).None? then Err(STATUS_ERROR)
    else if Given(req.direction) && ParseDirection(req.direction.value).None? then Err(DIRECTION_ERROR)
    else
      Ok(Query(req.account.value, req.limit.GetOr("100"), req.skip.GetOr("0"),
               Filter(req.modulename), Filter(req.requestkey),
               if Given(req.status) then ParseStatus(req.status.value) else None,
               if Given(req.direction) then ParseDirection(req.direction.value) else None))
  }

  /** The request a client sends for a query: every filter in force as its parameter. */
  function RequestOf(q: Query): Request
  {
    Request(Some(q.account), Some(q.limit), Some(q.skip), q.modulename,
            if q.status.Some? then Some(StatusName(q.status.value)) else None,
            q.requestkey,
            if q.direction.Some? then Some(DirectionName(q.direction.value)) else None)
  }

  /** Validation accepts the request of any query with non-empty strings and gives that query back. */
  lemma ValidateRequestOf(q: Query)
    requires q.account != ""
    requires q.modulename.Some? ==> q.modulename.value != ""
    requires q.requestkey.Some? ==> q.requestkey.value != ""
    ensures Validate(RequestOf(q)) == Ok(q)
  {
    var r := Validate(RequestOf(q));
    assert r.Ok?;
    assert r.value.status == q.status by {
      if q.status.Some? { assert ParseStatus(StatusName(q.status.value)) == q.status; }
    }
    assert r.value.direction == q.direction by {
      if q.direction.Some? { assert ParseDirection(DirectionName(q.direction.value)) == q.direction; }
    }
  }

  // ---- ticker ----

  /**
   * The ticker of a token module: "KDA" for `coin`, otherwise the symbol cached for the
   * module (`tokens` is None when no token document is cached), otherwise the upper-cased
   * part after the dot of a `namespace.name` module, otherwise null.
   */
  function Ticker(modulename: string, tokens: Option<map<string, string>>): (r: Option<string>)
    ensures modulename == "coin" ==> r == Some("KDA")
    ensures modulename != "coin" && tokens.Some? && modulename in tokens.value ==> r == Some(tokens.value[modulename])
    ensures r.None? <==> modulename != "coin" && (tokens.None? || modulename !in tokens.value) && Count(modulename, '.') != 1
  {
    SplitLength(modulename, '.');
    if modulename == "coin" then Some("KDA")
    else if tokens.Some? && modulename in tokens.value then Some(tokens.value[modulename])
    else
      var parts := Split(modulename, '.');
      if |parts| == 2 then Some(ToUpper(parts[1])) else None
  }

  /** An uncached `namespace.name` module gets the upper-cased name as its ticker. */
  lemma TickerOfNamespacedModule(ns: string, name: string, tokens: Option<map<string, string>>)
    requires '.' !in ns && '.' !in name
    requires tokens.Some? ==> ns + "." + name !in tokens.value
    ensures Ticker(ns + "." + name, tokens) == Some(ToUpper(name))
  {
    var m := ns + "." + name;
    assert m[|ns|] == '.';
    assert '.' in m && '.' !in "coin";
    assert [ns] + [name] == [ns, name];
    SplitJoin([ns, name], '.');
    assert Join([ns, name], '.') == m by {
      assert Join([ns, name][1..], '.') == name;
    }
  }

  // ---- transaction type ----

  /**
   * TRANSFER when the code mentions "coin.transfer", ".transfer" or "transfer-create";
   * failing that SWAP when it mentions "swap-exact-in"; otherwise "???".
   */
  function TransactionType(code: string): TxType
  {
    if Contains(code, "coin.transfer") || Contains(code, ".transfer") || Contains(code, "transfer-create") then Transfer
    else if Contains(code, "swap-exact-in") then Swap
    else Unknown
  }

  /**
   * The "coin.transfer" test is subsumed by ".transfer": a code is a transfer exactly
   * when it mentions ".transfer" or "transfer-create", a swap exactly when it mentions
   * "swap-exact-in" and neither of those.
   */
  lemma TransactionTypeCases(code: string)
    ensures TransactionType(code) == Transfer <==> Contains(code, ".transfer") || Contains(code, "transfer-create")
    ensures TransactionType(code) == Swap
      <==> !Contains(code, ".transfer") && !Contains(code, "transfer-create") && Contains(code, "swap-exact-in")
    ensures TransactionType(code) == Unknown
      <==> !Contains(code, ".transfer") && !Contains(code, "transfer-create") && !Contains(code, "swap-exact-in")
  {
    if Contains(code, "coin.transfer") {
      assert "coin.transfer" == "coin" + ".transfer";
      ContainsSuffix(code, "coin", ".transfer");
    }
  }

  // ---- direction and status ----

  /** IN when the account receives (even if it also sends), else OUT when it sends, else null. */
  function DirectionOf(account: string, sender: string, receiver: string): (r: Option<Direction>)
    ensures r == Some(In) <==> receiver == account
    ensures r == Some(Out) <==> receiver != account && sender == account
    ensures r.None? <==> receiver != account && sender != account
  {
    if receiver == account then Some(In) else if sender == account then Some(Out) else None
  }

  /** FAIL exactly when the result carries an error. */
  function StatusOf(hasError: bool): (r: Status)
    ensures r == Fail <==> hasError
  {
    if hasError then Fail else Success
  }

  // ---- continuation ----

  /**
   * The parts of a parsed Pact continuation that are read: `step` and
   * `yield.provenance.targetChainId` (undefined when any link of that path is missing).
   */
  datatype Continuation = Continuation(step: Value, targetChainId: Value)

  /** The target chain of a cross-chain transfer: only a continuation at step 0 has one. */
  function TargetChainId(c: Option<Continuation>): (r: Value)
    ensures c.Some? && c.value.step == Num(0.0) ==> r == c.value.targetChainId
    ensures !(c.Some? && c.value.step == Num(0.0)) ==> r == Null
  {
    if c.Some? && c.value.step == Num(0.0) then c.value.targetChainId else Null
  }

  // ---- output ----

  /** One row of the history as returned to the client. */
  datatype Row = Row(
    ticker: Option<string>, requestkey: string, amount: Value, chainid: Value,
    fromAcct: string, toAcct: string, modulename: string, code: Value, error: Value,
    creationtime: Value, gas: Value, gaslimit: Value, gasprice: Value,
    status: Status, direction: Option<Direction>, transactionType: TxType, targetChainId: Value)
}
