/**
 * The account transaction history served from the GraphQL indexer.
 *
 * After validation the endpoint pages through the account's transfers (at most 100 per
 * request, a cursor linking the pages) until it holds `fetchLimit` of them or the indexer
 * has no more. It then keeps the transfers that pass every filter in force, shapes each
 * into an output row (ticker, transaction type, direction, status, cross-chain target),
 * drops the first `skip` rows and cuts the rest to `limit`.
 */
module TransactionHistoryGraphQL {
  import opened Wrappers
  import opened Js
  import opened TransactionRules

  /**
   * A transfer node as far as it is read. `code` is the command's Pact code ("" when
   * absent) and `parsedCode` its JSON reading; `hasError` says whether the result carries
   * an error; `continuation` is the parsed continuation, if any.
   */
  datatype Transfer = Transfer(
    requestKey: string, amount: Value, chainId: Value, senderAccount: string, receiverAccount: string,
    moduleName: string, code: string, parsedCode: Value, hasError: bool, continuation: Option<Continuation>,
    creationTime: Value, gas: Value, gasLimit: Value, gasPrice: Value)

  /** One answer to the transfers query: malformed (no data, transfers or edges) or a page. */
  datatype Page = Malformed | Page(edges: seq<Transfer>, hasNextPage: bool, endCursor: Option<string>)

  /** A request of the loop: the cursor it passes as `after` and the page size it passes as `first`. */
  type Call = (Option<string>, int)

  function Min(a: int, b: int): int
  {
    if a <= b then a else b
  }

  function Max(a: int, b: int): int
  {
    if a >= b then a else b
  }

  /**
   * How many transfers to collect: `skip > 0 ? Math.max(limit + skip, 100) : Math.min(limit, 100)`.
   * The parameters are strings, so `limit + skip` writes the two texts one after the other:
   * with a positive skip the number fetched is the limit shifted left by the digits of the
   * skip, plus the skip (or 100 after a negative limit), never below 100.
   */
  function FetchLimit(limit: DecimalText, skip: DecimalText): (n: int)
    ensures NumberOf(skip) > 0 && limit[0] != '-' ==>
      n == Max(NumberOf(limit) * Pow10(|skip|) + NumberOf(skip), 100) && n >= NumberOf(limit) + NumberOf(skip)
    ensures NumberOf(skip) > 0 && limit[0] == '-' ==> n == 100
    ensures NumberOf(skip) <= 0 ==> n <= 100 && n <= NumberOf(limit) && (n == 100 || n == NumberOf(limit))
  {
    if NumberOf(skip) > 0 then
      ConcatDecimal(limit, skip);
      ShiftBounds(NumberOf(limit), Pow10(|skip|), NumberOf(skip));
      Max(NumberOf(limit + skip), 100)
    else Min(NumberOf(limit), 100)
  }

  lemma ShiftBounds(l: int, p: int, s: int)
    requires p >= 1 && s > 0
    ensures l >= 0 ==> l * p + s >= l + s
    ensures l <= 0 ==> l * p - s < 0
  {
  }

  /** Skipping 5 rows fetches 1005 transfers with the default limit, and 105 with a limit of 10. */
  lemma FetchLimitJoinsTexts()
    ensures FetchLimit("100", "5") == 1005
    ensures FetchLimit("10", "5") == 105
  {
    assert DigitsValue("1") == 1 by { assert "1"[..0] == ""; }
    assert DigitsValue("10") == 10 by { assert "10"[..1] == "1"; }
    assert DigitsValue("100") == 100 by { assert "100"[..2] == "10"; }
    assert DigitsValue("5") == 5 by { assert "5"[..0] == ""; }
    assert "100" + "5" == "1005" && "10" + "5" == "105";
    assert DigitsValue("1005") == 1005 by { assert "1005"[..3] == "100"; }
    assert DigitsValue("105") == 105 by { assert "105"[..2] == "10"; }
  }

  /**
   * The pagination loop from the state (cursor, calls made, transfers collected): it
   * returns every call made and every transfer collected. While fewer than `fetchLimit`
   * are held it asks for min(100, fetchLimit - held); it stops after a malformed answer,
   * a page without a next page, or an empty page.
   */
  function Pagination(request: (string, Option<string>, int) -> Page, account: string, cursor: Option<string>,
                      calls: seq<Call>, fetched: seq<Transfer>, fetchLimit: int): (seq<Call>, seq<Transfer>)
    decreases fetchLimit - |fetched|
  {
    if |fetched| >= fetchLimit then (calls, fetched)
    else
      var first := Min(100, fetchLimit - |fetched|);
      var page := request(account, cursor, first);
      var calls' := calls + [(cursor, first)];
      if page.Malformed? then (calls', fetched)
      else if !page.hasNextPage || |page.edges| == 0 then (calls', fetched + page.edges)
      else Pagination(request, account, page.endCursor, calls', fetched + page.edges, fetchLimit)
  }

  /** The loop of the endpoint, which starts without a cursor and with nothing fetched. */
  method Paginate(request: (string, Option<string>, int) -> Page, account: string, fetchLimit: int)
    returns (calls: seq<Call>, all: seq<Transfer>)
    ensures (calls, all) == Pagination(request, account, None, [], [], fetchLimit)
  {
    var cursor: Option<string> := None;
    calls, all := [], [];
    var hasNextPage := true;
    while hasNextPage && |all| < fetchLimit
      invariant hasNextPage
      invariant Pagination(request, account, cursor, calls, all, fetchLimit) == Pagination(request, account, None, [], [], fetchLimit)
      decreases fetchLimit - |all|
    {
      var first := Min(100, fetchLimit - |all|);
      var data := request(account, cursor, first);
      calls := calls + [(cursor, first)];
      if data.Malformed? {
        break;
      }
      var edges := data.edges;
      all := all + edges;
      hasNextPage := data.hasNextPage;
      cursor := data.endCursor;
      if !hasNextPage || |edges| == 0 {
        break;
      }
    }
  }

  /** Every request asks for between 1 and 100 transfers, and the calls and transfers only grow. */
  lemma {:induction false} PaginationPageSizes(request: (string, Option<string>, int) -> Page, account: string,
                                               cursor: Option<string>, calls: seq<Call>, fetched: seq<Transfer>, fetchLimit: int)
    requires forall i :: 0 <= i < |calls| ==> 1 <= calls[i].1 <= 100
    ensures var r := Pagination(request, account, cursor, calls, fetched, fetchLimit);
      && calls <= r.0 && fetched <= r.1
      && forall i :: 0 <= i < |r.0| ==> 1 <= r.0[i].1 <= 100
    decreases fetchLimit - |fetched|
  {
    if |fetched| < fetchLimit {
      var first := Min(100, fetchLimit - |fetched|);
      var page := request(account, cursor, first);
      var calls' := calls + [(cursor, first)];
      assert forall i :: 0 <= i < |calls'| ==> 1 <= calls'[i].1 <= 100;
      if page.Page? && page.hasNextPage && |page.edges| > 0 {
        PaginationPageSizes(request, account, page.endCursor, calls', fetched + page.edges, fetchLimit);
      }
    }
  }

  /** When the indexer never returns more than it is asked for, at most `fetchLimit` transfers are collected. */
  lemma {:induction false} PaginationBounded(request: (string, Option<string>, int) -> Page, account: string,
                                             cursor: Option<string>, calls: seq<Call>, fetched: seq<Transfer>, fetchLimit: int)
    requires forall a, c, f :: request(a, c, f).Page? ==> |request(a, c, f).edges| <= f
    requires |fetched| <= fetchLimit
    ensures |Pagination(request, account, cursor, calls, fetched, fetchLimit).1| <= fetchLimit
    decreases fetchLimit - |fetched|
  {
    if |fetched| < fetchLimit {
      var first := Min(100, fetchLimit - |fetched|);
      var page := request(account, cursor, first);
      if page.Page? && page.hasNextPage && |page.edges| > 0 {
        PaginationBounded(request, account, page.endCursor, calls + [(cursor, first)], fetched + page.edges, fetchLimit);
      }
    }
  }

  // ---- filter and shape ----

  /** A transfer passes every filter in force. */
  predicate Keep(q: Query, tx: Transfer)
  {
    && (q.modulename.None? || tx.moduleName == q.modulename.value)
    && (q.requestkey.None? || tx.requestKey == q.requestkey.value)
    && (q.direction != Some(In) || tx.receiverAccount == q.account)
    && (q.direction != Some(Out) || tx.senderAccount == q.account)
    && (q.status != Some(Success) || !tx.hasError)
    && (q.status != Some(Fail) || tx.hasError)
  }

  /** The transfers that pass, in fetched order. */
  function Kept(q: Query, txs: seq<Transfer>): seq<Transfer>
  {
    if txs == [] then []
    else
      var last := txs[|txs| - 1];
      Kept(q, txs[..|txs| - 1]) + (if Keep(q, last) then [last] else [])
  }

  /** A transfer is kept exactly when it was fetched and passes every filter. */
  lemma {:induction false} KeptMembers(q: Query, txs: seq<Transfer>)
    ensures forall tx :: tx in Kept(q, txs) ==> tx in txs && Keep(q, tx)
    ensures forall tx :: tx in txs && Keep(q, tx) ==> tx in Kept(q, txs)
  {
    if txs != [] {
      var init, last := txs[..|txs| - 1], txs[|txs| - 1];
      KeptMembers(q, init);
      assert txs == init + [last];
    }
  }

  /** The output row of a kept transfer. */
  function Shape(q: Query, tokens: Option<map<string, string>>, tx: Transfer): Row
  {
    Row(Ticker(tx.moduleName, tokens), tx.requestKey, tx.amount, tx.chainId,
        tx.senderAccount, tx.receiverAccount, tx.moduleName,
        if tx.code != "" then tx.parsedCode else Null, Null,
        tx.creationTime, tx.gas, tx.gasLimit, tx.gasPrice,
        StatusOf(tx.hasError), DirectionOf(q.account, tx.senderAccount, tx.receiverAccount),
        TransactionType(tx.code), TargetChainId(tx.continuation))
  }

  /** The rows of the kept transfers, one per transfer (ShapedAt says which). */
  function Shaped(q: Query, tokens: Option<map<string, string>>, txs: seq<Transfer>): (rows: seq<Row>)
    ensures |rows| == |txs|
  {
    seq(|txs|, i requires 0 <= i < |txs| => Shape(q, tokens, txs[i]))
  }

  /** The i-th shaped row is the shape of the i-th transfer. */
  lemma ShapedAt(q: Query, tokens: Option<map<string, string>>, txs: seq<Transfer>, i: nat)
    requires i < |txs|
    ensures Shaped(q, tokens, txs)[i] == Shape(q, tokens, txs[i])
  {
  }

  /** Where the returned window starts in the shaped rows. */
  function Offset(skip: int, n: nat): (k: nat)
    ensures k <= n
  {
    if skip > 0 then Min(skip, n) else 0
  }

  /** Filter, shape, drop `skip` rows when skip > 0, then cut to `limit`. */
  function Respond(q: Query, all: seq<Transfer>, tokens: Option<map<string, string>>): seq<Row>
  {
    if |all| == 0 then []
    else
      Cut(Shaped(q, tokens, Kept(q, all)), SkipOf(q), LimitOf(q))
  }

  /** `rows.slice(skip)` when skip > 0, then `.slice(0, limit)`. */
  function Cut<T>(rows: seq<T>, skip: int, limit: int): seq<T>
  {
    Slice(if skip > 0 then Slice(rows, skip, |rows|) else rows, 0, limit)
  }

  /**
   * The response has as many rows as `slice(0, limit)` leaves of the `n` shaped rows after
   * the first `skip` (when skip > 0): min(limit, what is left) for a non-negative limit, all
   * but the last -limit for a negative one. Which rows those are is what Window states.
   * `skip` and `limit` are the query's two numbers and `n` the number of kept transfers.
   */
  lemma RespondWindow(q: Query, all: seq<Transfer>, tokens: Option<map<string, string>>, skip: int, limit: int, n: nat)
    requires skip == SkipOf(q) && limit == LimitOf(q) && n == |Kept(q, all)|
    ensures |Respond(q, all, tokens)| == RelIndex(limit, n - Offset(skip, n))
    ensures limit >= 0 ==> |Respond(q, all, tokens)| <= limit
  {
    if |all| > 0 {
      CutOfLength(Respond(q, all, tokens), Shaped(q, tokens, Kept(q, all)), n, skip, limit);
    } else {
      assert all == [];
    }
  }

  /** WindowLength for a response known to be the cut of `n` rows. */
  lemma CutOfLength<T>(r: seq<T>, rows: seq<T>, n: nat, skip: int, limit: int)
    requires |rows| == n
    requires r == Cut(rows, skip, limit)
    ensures |r| == RelIndex(limit, n - Offset(skip, n))
    ensures limit >= 0 ==> |r| <= limit
  {
    WindowLength(rows, skip, limit);
  }

  lemma WindowLength<T>(rows: seq<T>, skip: int, limit: int)
    ensures |Cut(rows, skip, limit)| == RelIndex(limit, |rows| - Offset(skip, |rows|))
    ensures limit >= 0 ==> |Cut(rows, skip, limit)| <= limit
  {
    Window(rows, skip, limit);
  }

  /**
   * The skip-then-limit window of any sequence of rows: the rows from Offset(skip) on, as
   * many as `slice(0, limit)` keeps of what is left.
   */
  lemma Window<T>(rows: seq<T>, skip: int, limit: int)
    ensures var k := Offset(skip, |rows|);
      var r := Cut(rows, skip, limit);
      && |r| == RelIndex(limit, |rows| - k)
      && r == rows[k..k + |r|]
  {
    var k := Offset(skip, |rows|);
    var rest := if skip > 0 then Slice(rows, skip, |rows|) else rows;
    assert rest == rows[k..];
    var e := RelIndex(limit, |rest|);
    assert Slice(rest, 0, limit) == rest[..e];
    assert rest[..e] == rows[k..k + e];
  }

  /**
   * Every returned row is the shape of a fetched transfer that passes the filters, so it
   * agrees with each filter in force: its module, its request key, its status; with
   * direction IN it is labelled IN, with direction OUT it has a direction (possibly IN,
   * for a transfer from the account to itself).
   */
  lemma RespondRowsMatch(q: Query, all: seq<Transfer>, tokens: Option<map<string, string>>, row: Row)
    requires row in Respond(q, all, tokens)
    ensures exists tx :: tx in all && Keep(q, tx) && row == Shape(q, tokens, tx)
    ensures q.modulename.Some? ==> row.modulename == q.modulename.value
    ensures q.requestkey.Some? ==> row.requestkey == q.requestkey.value
    ensures q.status.Some? ==> row.status == q.status.value
    ensures q.direction == Some(In) ==> row.direction == Some(In)
    ensures q.direction == Some(Out) ==> row.direction.Some? && row.fromAcct == q.account
  {
    RespondFromKept(q, all, tokens, row);
    KeptMembers(q, all);
    var tx :| tx in Kept(q, all) && row == Shape(q, tokens, tx);
    ShapeMatches(q, tokens, tx);
  }

  /** What the window holds comes from the rows it is cut from. */
  lemma WindowMember<T>(rows: seq<T>, skip: int, limit: int, x: T)
    requires x in Cut(rows, skip, limit)
    ensures exists i :: 0 <= i < |rows| && rows[i] == x
  {
    Window(rows, skip, limit);
    var k := Offset(skip, |rows|);
    var r := Cut(rows, skip, limit);
    var j :| 0 <= j < |r| && r[j] == x;
    assert rows[k + j] == x;
  }

  /** A returned row is the shape of a kept transfer. */
  lemma RespondFromKept(q: Query, all: seq<Transfer>, tokens: Option<map<string, string>>, row: Row)
    requires row in Respond(q, all, tokens)
    ensures exists tx :: tx in Kept(q, all) && row == Shape(q, tokens, tx)
  {
    if |all| > 0 {
      var kept := Kept(q, all);
      var rows := Shaped(q, tokens, kept);
      WindowMember(rows, SkipOf(q), LimitOf(q), row);
      var i :| 0 <= i < |rows| && rows[i] == row;
      ShapedAt(q, tokens, kept, i);
      assert kept[i] in kept;
    }
  }

  /** The shape of a transfer that passes the filters agrees with each filter in force. */
  lemma ShapeMatches(q: Query, tokens: Option<map<string, string>>, tx: Transfer)
    requires Keep(q, tx)
    ensures var row := Shape(q, tokens, tx);
      && (q.modulename.Some? ==> row.modulename == q.modulename.value)
      && (q.requestkey.Some? ==> row.requestkey == q.requestkey.value)
      && (q.status.Some? ==> row.status == q.status.value)
      && (q.direction == Some(In) ==> row.direction == Some(In))
      && (q.direction == Some(Out) ==> row.direction.Some? && row.fromAcct == q.account)
  {
  }

  /** A transfer from the account to itself passes the OUT filter and is labelled IN. */
  lemma SelfTransferUnderOutFilter(q: Query, tokens: Option<map<string, string>>, tx: Transfer)
    requires q.direction == Some(Out) && q.modulename.None? && q.requestkey.None? && q.status.None?
    requires tx.senderAccount == q.account && tx.receiverAccount == q.account
    ensures Keep(q, tx) && Shape(q, tokens, tx).direction == Some(In)
  {
  }

  /** The endpoint as a function of the request, the indexer and the cached token list. */
  function History(req: Request, request: (string, Option<string>, int) -> Page,
                   tokens: Option<map<string, string>>): Result<seq<Row>>
  {
    match Validate(req)
    case Err(e) => Err(e)
    case Ok(q) =>
      var all := Pagination(request, q.account, None, [], [], FetchLimit(q.limit, q.skip)).1;
      Ok(Respond(q, all, tokens))
  }

  /** `getAccountTransactionHistoryGraphQL`. */
  method GetAccountTransactionHistory(req: Request, request: (string, Option<string>, int) -> Page,
                                      tokens: Option<map<string, string>>) returns (r: Result<seq<Row>>)
    ensures r == History(req, request, tokens)
    ensures r.Err? <==> Validate(req).Err?
    ensures r.Ok? && LimitOf(Validate(req).value) >= 0 ==> |r.value| <= LimitOf(Validate(req).value)
  {
    var v := Validate(req);
    if v.Err? {
      return Err(v.error);
    }
    var q := v.value;
    var calls, all := Paginate(request, q.account, FetchLimit(q.limit, q.skip));
    r := Ok(Respond(q, all, tokens));
    RespondWindow(q, all, tokens, SkipOf(q), LimitOf(q), |Kept(q, all)|);
  }
}
