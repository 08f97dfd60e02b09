/**
 * The account transaction history served from the chainweb Postgres database.
 *
 * After validation the endpoint builds a parameterised statement step by step: the
 * account is always the first parameter; each modulename or requestkey filter pushes its
 * value and references it as `$n` by its new position; the direction clauses reuse `$1`;
 * the status adds an IS NULL / IS NOT NULL test; LIMIT and OFFSET bind the last two
 * parameters, min(limit, 100) and skip. Each returned row is then extended with the
 * ticker, the transaction type and the cross-chain target, and its error replaced by the
 * error's message.
 */
module TransactionHistoryPg {
  import opened Wrappers
  import opened Js
  import opened TransactionRules

  /** A bound parameter. */
  datatype Param = Text(s: string) | Int(n: int)

  /**
   * A condition appended to `WHERE t.pactid IS NULL`; `ref` is the 1-based position of the
   * parameter it compares with (`$ref`).
   */
  datatype Clause =
    | Involves(ref: nat)      // ts.from_acct = $ref OR ts.to_acct = $ref
    | ModuleIs(ref: nat)      // ts.modulename = $ref
    | RequestKeyIs(ref: nat)  // ts.requestkey = $ref
    | ReceiverIs(ref: nat)    // ts.to_acct = $ref
    | SenderIs(ref: nat)      // ts.from_acct = $ref
    | NoError                 // t.badresult IS NULL
    | HasError                // t.badresult IS NOT NULL

  /** The statement: its extra conditions, its parameters and the positions LIMIT and OFFSET bind. */
  datatype Statement = Statement(clauses: seq<Clause>, params: seq<Param>, limitRef: nat, offsetRef: nat)

  /** A joined transfers/transactions row as selected; `badresult` is the error JSON, if any. */
  datatype PgRow = PgRow(
    requestkey: string, amount: Value, chainid: Value, fromAcct: string, toAcct: string,
    modulename: string, code: Option<string>, badresult: Option<Fields>,
    creationtime: Value, gas: Value, gaslimit: Value, gasprice: Value,
    continuation: Option<Continuation>, pactid: Option<string>)

  function Min(a: int, b: int): int
  {
    if a <= b then a else b
  }

  /** `$ref` names a bound parameter whose value is the text `s`. */
  predicate Bound(params: seq<Param>, ref: nat, s: string)
  {
    1 <= ref <= |params| && params[ref - 1] == Text(s)
  }

  /** Whether a row meets one condition under the bound parameters. */
  predicate Holds(params: seq<Param>, c: Clause, row: PgRow)
  {
    match c
    case Involves(i) => Bound(params, i, row.fromAcct) || Bound(params, i, row.toAcct)
    case ModuleIs(i) => Bound(params, i, row.modulename)
    case RequestKeyIs(i) => Bound(params, i, row.requestkey)
    case ReceiverIs(i) => Bound(params, i, row.toAcct)
    case SenderIs(i) => Bound(params, i, row.fromAcct)
    case NoError => row.badresult.None?
    case HasError => row.badresult.Some?
  }

  /** Whether a row meets every condition of a list. */
  predicate AllHold(params: seq<Param>, cs: seq<Clause>, row: PgRow)
  {
    forall i :: 0 <= i < |cs| ==> Holds(params, cs[i], row)
  }

  /** Whether the statement's WHERE clause selects a row. */
  predicate Selects(st: Statement, row: PgRow)
  {
    row.pactid.None? && AllHold(st.params, st.clauses, row)
  }

  lemma AllHoldAppend(params: seq<Param>, a: seq<Clause>, b: seq<Clause>, row: PgRow)
    ensures AllHold(params, a + b, row) <==> AllHold(params, a, row) && AllHold(params, b, row)
  {
    if AllHold(params, a, row) && AllHold(params, b, row) {
      forall i | 0 <= i < |a + b| ensures Holds(params, (a + b)[i], row) {
        if i >= |a| { assert (a + b)[i] == b[i - |a|]; }
      }
    }
    if AllHold(params, a + b, row) {
      forall i | 0 <= i < |a| ensures Holds(params, a[i], row) {
        assert (a + b)[i] == a[i];
      }
      forall i | 0 <= i < |b| ensures Holds(params, b[i], row) {
        assert (a + b)[|a| + i] == b[i];
      }
    }
  }

  /** The rows the query means: the account's first-step transfers that pass every filter in force. */
  predicate Wanted(q: Query, row: PgRow)
  {
    && row.pactid.None?
    && (row.fromAcct == q.account || row.toAcct == q.account)
    && (q.modulename.None? || row.modulename == q.modulename.value)
    && (q.requestkey.None? || row.requestkey == q.requestkey.value)
    && (q.direction != Some(In) || row.toAcct == q.account)
    && (q.direction != Some(Out) || row.fromAcct == q.account)
    && (q.status != Some(Success) || row.badresult.None?)
    && (q.status != Some(Fail) || row.badresult.Some?)
  }

  /**
   * The `query +=` / `pgParams.push` sequence. The account is parameter 1 and the
   * direction clauses refer to it; each further filter value sits at the position its
   * clause names; LIMIT and OFFSET bind the last two positions, which hold min(limit, 100)
   * and skip; and the statement selects exactly the rows the query means.
   */
  method BuildQuery(q: Query) returns (st: Statement)
    ensures |st.params| == 3 + (if q.modulename.Some? then 1 else 0) + (if q.requestkey.Some? then 1 else 0)
    ensures st.params[0] == Text(q.account)
    ensures forall i :: 0 <= i < |st.clauses| && (st.clauses[i].ReceiverIs? || st.clauses[i].SenderIs?) ==> st.clauses[i].ref == 1
    ensures forall i :: (0 <= i < |st.clauses| && !st.clauses[i].NoError? && !st.clauses[i].HasError?
                         ==> 1 <= st.clauses[i].ref <= |st.params| - 2)
    ensures st.limitRef == |st.params| - 1 && st.offsetRef == |st.params|
    ensures st.params[st.limitRef - 1] == Int(Min(LimitOf(q), 100)) && st.params[st.offsetRef - 1] == Int(SkipOf(q))
    ensures forall row :: Selects(st, row) <==> Wanted(q, row)
  {
    var params: seq<Param> := [];
    var clauses: seq<Clause> := [];
    params := params + [Text(q.account)];
    clauses := clauses + [Involves(|params|)];
    params, clauses := AddModuleName(q, params, clauses);
    params, clauses := AddRequestKey(q, params, clauses);
    clauses := AddDirection(q, clauses);
    clauses := AddStatus(q, clauses);
    var finalLimit := Min(LimitOf(q), 100);
    var filters := params;
    params := params + [Int(finalLimit), Int(SkipOf(q))];
    st := Statement(clauses, params, |params| - 1, |params|);
    BuiltSteps(q, filters, clauses);
    BuildQuerySelects(q, filters, clauses, params);
    BuiltRefs(q, filters, clauses);
  }

  /** The four steps after the account leave the filter values and clauses that Built describes. */
  lemma BuiltSteps(q: Query, filters: seq<Param>, clauses: seq<Clause>)
    requires filters == [Text(q.account)] + (if q.modulename.Some? then [Text(q.modulename.value)] else [])
                        + (if q.requestkey.Some? then [Text(q.requestkey.value)] else [])
    requires clauses == [] + [Involves(1)] + ModulePart(q) + RequestKeyPart(q) + DirectionPart(q) + StatusPart(q)
    ensures Built(q, filters, clauses)
  {
    assert [] + [Involves(1)] == [Involves(1)];
  }

  /** `if (modulename) { pgParams.push(modulename); query += ... $n }`. */
  method AddModuleName(q: Query, params: seq<Param>, clauses: seq<Clause>) returns (params': seq<Param>, clauses': seq<Clause>)
    requires |params| == 1
    ensures params' == params + (if q.modulename.Some? then [Text(q.modulename.value)] else [])
    ensures clauses' == clauses + ModulePart(q)
  {
    params', clauses' := params, clauses;
    if q.modulename.Some? {
      params' := params' + [Text(q.modulename.value)];
      clauses' := clauses' + [ModuleIs(|params'|)];
    }
  }

  /** `if (requestkey) { pgParams.push(requestkey); query += ... $n }`. */
  method AddRequestKey(q: Query, params: seq<Param>, clauses: seq<Clause>) returns (params': seq<Param>, clauses': seq<Clause>)
    requires |params| == 1 + |ModulePart(q)|
    ensures params' == params + (if q.requestkey.Some? then [Text(q.requestkey.value)] else [])
    ensures clauses' == clauses + RequestKeyPart(q)
  {
    params', clauses' := params, clauses;
    if q.requestkey.Some? {
      params' := params' + [Text(q.requestkey.value)];
      clauses' := clauses' + [RequestKeyIs(|params'|)];
    }
  }

  /** The direction clauses, which compare with `$1`. */
  method AddDirection(q: Query, clauses: seq<Clause>) returns (clauses': seq<Clause>)
    ensures clauses' == clauses + DirectionPart(q)
  {
    clauses' := clauses;
    if q.direction == Some(In) {
      clauses' := clauses' + [ReceiverIs(1)];
    }
    if q.direction == Some(Out) {
      clauses' := clauses' + [SenderIs(1)];
    }
  }

  /** The status clause: SUCCESS tests for no error, FAIL for one, no status adds nothing. */
  method AddStatus(q: Query, clauses: seq<Clause>) returns (clauses': seq<Clause>)
    ensures clauses' == clauses + StatusPart(q)
  {
    clauses' := clauses;
    if q.status == Some(Success) {
      clauses' := clauses' + [NoError];
    } else if q.status == Some(Fail) {
      clauses' := clauses' + [HasError];
    }
  }

  function ModulePart(q: Query): seq<Clause>
  {
    if q.modulename.Some? then [ModuleIs(2)] else []
  }

  function RequestKeyPart(q: Query): seq<Clause>
  {
    if q.requestkey.Some? then [RequestKeyIs(2 + |ModulePart(q)|)] else []
  }

  function DirectionPart(q: Query): seq<Clause>
  {
    (if q.direction == Some(In) then [ReceiverIs(1)] else []) + (if q.direction == Some(Out) then [SenderIs(1)] else [])
  }

  function StatusPart(q: Query): seq<Clause>
  {
    if q.status == Some(Success) then [NoError] else if q.status == Some(Fail) then [HasError] else []
  }

  /** The parameters and clauses BuildQuery produces before LIMIT and OFFSET. */
  predicate Built(q: Query, filters: seq<Param>, clauses: seq<Clause>)
  {
    && |filters| == 1 + |ModulePart(q)| + |RequestKeyPart(q)|
    && filters[0] == Text(q.account)
    && (q.modulename.Some? ==> filters[1] == Text(q.modulename.value))
    && (q.requestkey.Some? ==> filters[1 + |ModulePart(q)|] == Text(q.requestkey.value))
    && clauses == [Involves(1)] + ModulePart(q) + RequestKeyPart(q) + DirectionPart(q) + StatusPart(q)
  }

  /** The direction clauses name `$1`; every other reference names one of the filter values. */
  lemma BuiltRefs(q: Query, filters: seq<Param>, clauses: seq<Clause>)
    requires Built(q, filters, clauses)
    ensures forall i :: 0 <= i < |clauses| && (clauses[i].ReceiverIs? || clauses[i].SenderIs?) ==> clauses[i].ref == 1
    ensures forall i :: (0 <= i < |clauses| && !clauses[i].NoError? && !clauses[i].HasError?
                         ==> 1 <= clauses[i].ref <= |filters|)
  {
    var p1, p2, p3, p4, p5 := [Involves(1)], ModulePart(q), RequestKeyPart(q), DirectionPart(q), StatusPart(q);
    assert forall c :: c in p4 ==> c == ReceiverIs(1) || c == SenderIs(1);
    assert forall c :: c in p5 ==> c == NoError || c == HasError;
    forall i | 0 <= i < |clauses| ensures clauses[i] in p1 || clauses[i] in p2 || clauses[i] in p3 || clauses[i] in p4 || clauses[i] in p5 {
      assert clauses[i] in p1 + p2 + p3 + p4 + p5;
    }
  }

  /** The built conditions, under any parameter list extending the filter values, mean Wanted. */
  lemma BuildQuerySelects(q: Query, filters: seq<Param>, clauses: seq<Clause>, params: seq<Param>)
    requires Built(q, filters, clauses)
    requires filters <= params
    ensures forall row :: Selects(Statement(clauses, params, |params| - 1, |params|), row) <==> Wanted(q, row)
  {
    forall row ensures Selects(Statement(clauses, params, |params| - 1, |params|), row) <==> Wanted(q, row) {
      SelectsRow(q, filters, clauses, params, row);
    }
  }

  /** One row: the five parts of the clause list test the five parts of Wanted. */
  lemma SelectsRow(q: Query, filters: seq<Param>, clauses: seq<Clause>, params: seq<Param>, row: PgRow)
    requires Built(q, filters, clauses)
    requires filters <= params
    ensures Selects(Statement(clauses, params, |params| - 1, |params|), row) <==> Wanted(q, row)
  {
    var p1, p2, p3, p4, p5 := [Involves(1)], ModulePart(q), RequestKeyPart(q), DirectionPart(q), StatusPart(q);
    AllHoldAppend(params, p1, p2, row);
    AllHoldAppend(params, p1 + p2, p3, row);
    AllHoldAppend(params, p1 + p2 + p3, p4, row);
    AllHoldAppend(params, p1 + p2 + p3 + p4, p5, row);
    assert params[0] == filters[0];
    AllHoldOne(params, Involves(1), row);
    ModulePartHolds(q, filters, params, row);
    RequestKeyPartHolds(q, filters, params, row);
    DirectionPartHolds(q, params, row);
    StatusPartHolds(q, params, row);
  }

  lemma ModulePartHolds(q: Query, filters: seq<Param>, params: seq<Param>, row: PgRow)
    requires |filters| == 1 + |ModulePart(q)| + |RequestKeyPart(q)| && filters <= params
    requires q.modulename.Some? ==> filters[1] == Text(q.modulename.value)
    ensures AllHold(params, ModulePart(q), row) <==> q.modulename.None? || row.modulename == q.modulename.value
  {
    if q.modulename.Some? {
      AllHoldOne(params, ModuleIs(2), row);
      assert params[1] == filters[1];
    }
  }

  lemma RequestKeyPartHolds(q: Query, filters: seq<Param>, params: seq<Param>, row: PgRow)
    requires |filters| == 1 + |ModulePart(q)| + |RequestKeyPart(q)| && filters <= params
    requires q.requestkey.Some? ==> filters[1 + |ModulePart(q)|] == Text(q.requestkey.value)
    ensures AllHold(params, RequestKeyPart(q), row) <==> q.requestkey.None? || row.requestkey == q.requestkey.value
  {
    if q.requestkey.Some? {
      AllHoldOne(params, RequestKeyIs(2 + |ModulePart(q)|), row);
      assert params[1 + |ModulePart(q)|] == filters[1 + |ModulePart(q)|];
    }
  }

  lemma DirectionPartHolds(q: Query, params: seq<Param>, row: PgRow)
    requires |params| >= 1 && params[0] == Text(q.account)
    ensures AllHold(params, DirectionPart(q), row) <==>
      ((q.direction != Some(In) || row.toAcct == q.account) && (q.direction != Some(Out) || row.fromAcct == q.account))
  {
    if q.direction == Some(In) {
      assert DirectionPart(q) == [ReceiverIs(1)];
      AllHoldOne(params, ReceiverIs(1), row);
    } else if q.direction == Some(Out) {
      assert DirectionPart(q) == [SenderIs(1)];
      AllHoldOne(params, SenderIs(1), row);
    } else {
      assert DirectionPart(q) == [];
    }
  }

  lemma StatusPartHolds(q: Query, params: seq<Param>, row: PgRow)
    ensures AllHold(params, StatusPart(q), row) <==>
      ((q.status != Some(Success) || row.badresult.None?) && (q.status != Some(Fail) || row.badresult.Some?))
  {
    if q.status == Some(Success) {
      AllHoldOne(params, NoError, row);
    } else if q.status == Some(Fail) {
      AllHoldOne(params, HasError, row);
    }
  }

  lemma AllHoldOne(params: seq<Param>, c: Clause, row: PgRow)
    ensures AllHold(params, [c], row) <==> Holds(params, c, row)
  {
    assert [c][0] == c;
  }

  // ---- row mapping ----

  /** `tx.error?.message ?? null`. */
  function ErrorMessage(badresult: Option<Fields>): (r: Value)
    ensures badresult.None? ==> r == Null
    ensures badresult.Some? && Prop(badresult.value, "message") !in {Undefined, Null} ==> r == badresult.value["message"]
    ensures r != Undefined
  {
    if badresult.None? then Null
    else
      var m := Prop(badresult.value, "message");
      if m == Undefined || m == Null then Null else m
  }

  /** The output row of a selected row; the continuation itself is dropped. */
  function MapRow(q: Query, tokens: Option<map<string, string>>, row: PgRow): Row
  {
    Row(Ticker(row.modulename, tokens), row.requestkey, row.amount, row.chainid,
        row.fromAcct, row.toAcct, row.modulename,
        if row.code.Some? then Str(row.code.value) else Null,
        ErrorMessage(row.badresult),
        row.creationtime, row.gas, row.gaslimit, row.gasprice,
        StatusOf(row.badresult.Some?), DirectionOf(q.account, row.fromAcct, row.toAcct),
        TransactionType(row.code.GetOr("")), TargetChainId(row.continuation))
  }

  /**
   * A row the statement selects maps to an output row that agrees with each filter in
   * force: module, request key, status, direction (IN is labelled IN; OUT has a direction,
   * IN for a transfer to itself), and that involves the account.
   */
  lemma SelectedRowMatches(q: Query, st: Statement, tokens: Option<map<string, string>>, row: PgRow)
    requires forall r :: Selects(st, r) <==> Wanted(q, r)
    requires Selects(st, row)
    ensures var out := MapRow(q, tokens, row);
      && out.direction.Some?
      && (q.modulename.Some? ==> out.modulename == q.modulename.value)
      && (q.requestkey.Some? ==> out.requestkey == q.requestkey.value)
      && (q.status.Some? ==> out.status == q.status.value)
      && (q.direction == Some(In) ==> out.direction == Some(In))
      && (q.direction == Some(Out) ==> out.fromAcct == q.account)
  {
    assert Wanted(q, row);
  }

  /**
   * Postgres refuses the statement when the bound LIMIT, min(limit, 100), or the OFFSET is
   * negative; the driver's rejection reaches the catch, which throws it again.
   */
  predicate Refused(q: Query)
  {
    Min(LimitOf(q), 100) < 0 || SkipOf(q) < 0
  }

  /** The message of the database's rejection of a negative LIMIT or OFFSET. */
  const NEGATIVE_BOUND: string := "LIMIT and OFFSET must not be negative"

  /**
   * `getAccountTransactionHistory`: validation, then the statement, then one output row
   * per returned row, in the database's order. `query` stands for the database.
   */
  method GetAccountTransactionHistory(req: Request, query: Statement -> seq<PgRow>, tokens: Option<map<string, string>>)
    returns (st: Option<Statement>, r: Result<seq<Row>>)
    ensures Validate(req).Err? ==> r == Err(Validate(req).error) && st.None?
    ensures Validate(req).Ok? ==> st.Some? && forall row :: Selects(st.value, row) <==> Wanted(Validate(req).value, row)
    ensures Validate(req).Ok? ==> (r.Err? <==> LimitOf(Validate(req).value) < 0 || SkipOf(Validate(req).value) < 0)
    ensures Validate(req).Ok? && r.Err? ==> r.error == NEGATIVE_BOUND
    ensures r.Ok? ==> (|r.value| == |query(st.value)|
                       && forall i :: 0 <= i < |r.value| ==> r.value[i] == MapRow(Validate(req).value, tokens, query(st.value)[i]))
  {
    var v := Validate(req);
    if v.Err? {
      return None, Err(v.error);
    }
    var q := v.value;
    var statement := BuildQuery(q);
    st := Some(statement);
    if Refused(q) {
      return st, Err(NEGATIVE_BOUND);
    }
    var rows := query(statement);
    r := Ok(seq(|rows|, i requires 0 <= i < |rows| => MapRow(q, tokens, rows[i])));
  }
}
