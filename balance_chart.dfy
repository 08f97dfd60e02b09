/**
 * The account balance chart endpoint: check the parameters, read the account's daily
 * balance snapshots between two dates in date order, carry the last known USD total over
 * snapshots that lack one, and insert a copy of the previous snapshot for every missing day.
 *
 * Dates are day numbers (days since the epoch); `D` is the unpacked per-token balance data.
 */
module BalanceChart {
  import opened Wrappers
  import opened Sorting
  import opened Js

  /** A stored daily snapshot of `kadenaAccountsBalance`; `balances` is the packed per-token data. */
  datatype Snapshot = Snapshot(account: string, date: int, totalUsdValue: Option<real>, balances: string)

  /** A snapshot as mapped for the response; `value` is None for null, undefined or NaN. */
  datatype Mapped<D> = Mapped(date: int, value: Option<real>, data: Option<D>)

  /** A response row. */
  datatype Item<D> = Item(date: int, totalUsdValue: real, data: Option<D>)

  // ---- Carrying the last valid total forward ----

  /** The last present value among `vs`, or 0 when there is none. */
  function LastValid(vs: seq<Option<real>>): real
  {
    if vs == [] then 0.0
    else if vs[|vs| - 1].Some? then vs[|vs| - 1].value
    else LastValid(vs[..|vs| - 1])
  }

  function Values<D>(items: seq<Mapped<D>>): (vs: seq<Option<real>>)
    ensures |vs| == |items| && forall i :: 0 <= i < |items| ==> vs[i] == items[i].value
  {
    seq(|items|, i requires 0 <= i < |items| => items[i].value)
  }

  /** The first `items.map`: a missing total becomes the last valid total seen before it. */
  function ForwardFill<D>(items: seq<Mapped<D>>): (r: seq<Item<D>>)
    ensures |r| == |items|
    ensures forall i :: 0 <= i < |items| ==> r[i].date == items[i].date && r[i].data == items[i].data
    ensures forall i :: 0 <= i < |items| && items[i].value.Some? ==> r[i].totalUsdValue == items[i].value.value
  {
    seq(|items|, i requires 0 <= i < |items| =>
      var it := items[i];
      Item(it.date, if it.value.Some? then it.value.value else LastValid(Values(items[..i])), it.data))
  }

  /**
   * LastValid is the value of the latest present entry, and 0 exactly when none is present.
   */
  lemma {:induction false} LastValidIsLatest(vs: seq<Option<real>>)
    ensures (forall j :: 0 <= j < |vs| ==> vs[j].None?) ==> LastValid(vs) == 0.0
    ensures forall j :: 0 <= j < |vs| && vs[j].Some? && (forall k :: j < k < |vs| ==> vs[k].None?) ==>
      LastValid(vs) == vs[j].value
  {
    if vs != [] {
      var init := vs[..|vs| - 1];
      LastValidIsLatest(init);
      forall j | 0 <= j < |vs| - 1 && vs[j].Some? && (forall k :: j < k < |vs| ==> vs[k].None?)
        ensures LastValid(vs) == vs[j].value
      {
        assert init[j] == vs[j];
        assert forall k :: j < k < |init| ==> init[k] == vs[k];
      }
      if forall j :: 0 <= j < |vs| ==> vs[j].None? {
        assert forall j :: 0 <= j < |init| ==> init[j] == vs[j];
      }
    }
  }

  /**
   * A snapshot without a total shows the total of the latest earlier snapshot that has
   * one, or 0 when no earlier snapshot has one.
   */
  lemma ForwardFillCarries<D>(items: seq<Mapped<D>>, i: nat, j: nat)
    requires i < |items| && items[i].value.None?
    ensures (forall k :: 0 <= k < i ==> items[k].value.None?) ==> ForwardFill(items)[i].totalUsdValue == 0.0
    ensures j < i && items[j].value.Some? && (forall k :: j < k < i ==> items[k].value.None?) ==>
      ForwardFill(items)[i].totalUsdValue == items[j].value.value
  {
    var vs := Values(items[..i]);
    LastValidIsLatest(vs);
    assert forall k :: 0 <= k < i ==> vs[k] == items[k].value;
  }

  /** The `items.map` loop with its `lastValidValue` variable. */
  method ForwardFillLoop<D>(items: seq<Mapped<D>>) returns (r: seq<Item<D>>)
    ensures r == ForwardFill(items)
  {
    var lastValidValue := 0.0;
    r := [];
    for i := 0 to |items|
      invariant lastValidValue == LastValid(Values(items[..i]))
      invariant |r| == i && forall j :: 0 <= j < i ==> r[j] == ForwardFill(items)[j]
    {
      var it := items[i];
      assert Values(items[..i + 1]) == Values(items[..i]) + [it.value];
      var value := lastValidValue;
      if it.value.Some? {
        value := it.value.value;
        lastValidValue := it.value.value;
      }
      r := r + [Item(it.date, value, it.data)];
    }
  }

  // ---- Filling missing days ----

  /** The rows inserted between `prev` and a row dated `date`: one per day strictly between. */
  function Gap<D>(prev: Item<D>, date: int, getFullData: bool): (g: seq<Item<D>>)
    ensures |g| == if date - prev.date - 1 > 0 then date - prev.date - 1 else 0
    ensures forall k :: 0 <= k < |g| ==>
      g[k] == Item(prev.date + 1 + k, prev.totalUsdValue, if getFullData then prev.data else None)
  {
    var n := if date - prev.date - 1 > 0 then date - prev.date - 1 else 0;
    seq(n, k requires 0 <= k < n => Item(prev.date + 1 + k, prev.totalUsdValue, if getFullData then prev.data else None))
  }

  /** `fillMissingDates`' forEach: every row, preceded by the gap after the row before it. */
  function Fill<D>(items: seq<Item<D>>, getFullData: bool): seq<Item<D>>
  {
    if |items| <= 1 then items
    else
      var init := items[..|items| - 1];
      var last := items[|items| - 1];
      Fill(init, getFullData) + Gap(init[|init| - 1], last.date, getFullData) + [last]
  }

  /** The forEach over the rows: the gap after the row before, then the row. */
  method FillLoop<D>(items: seq<Item<D>>, getFullData: bool) returns (filled: seq<Item<D>>)
    ensures filled == Fill(items, getFullData)
  {
    filled := [];
    for i := 0 to |items|
      invariant filled == Fill(items[..i], getFullData)
    {
      var item := items[i];
      if i > 0 {
        filled := FillGap(filled, items[i - 1], item.date, getFullData);
        FillStep(items, i, getFullData);
      } else {
        assert items[..1] == [item];
      }
      filled := filled + [item];
    }
    assert items[..|items|] == items;
  }

  /** The inner `while (previousDate < currentDate)` loop, one row per missing day. */
  method FillGap<D>(filled: seq<Item<D>>, prev: Item<D>, date: int, getFullData: bool) returns (filled': seq<Item<D>>)
    ensures filled' == filled + Gap(prev, date, getFullData)
  {
    filled' := filled;
    var previousDate := prev.date + 1;
    while previousDate < date
      invariant prev.date + 1 <= previousDate
      invariant previousDate <= date || previousDate == prev.date + 1
      invariant filled' == filled + Gap(prev, date, getFullData)[..previousDate - prev.date - 1]
      decreases date - previousDate
    {
      filled' := filled' + [Item(previousDate, prev.totalUsdValue, if getFullData then prev.data else None)];
      previousDate := previousDate + 1;
    }
    assert Gap(prev, date, getFullData)[..previousDate - prev.date - 1] == Gap(prev, date, getFullData);
  }

  lemma FillStep<D>(items: seq<Item<D>>, i: nat, getFullData: bool)
    requires 0 < i < |items|
    ensures Fill(items[..i + 1], getFullData) == Fill(items[..i], getFullData) + Gap(items[i - 1], items[i].date, getFullData) + [items[i]]
  {
    assert items[..i + 1][..i] == items[..i];
  }

  predicate StrictlyIncreasing<D>(items: seq<Item<D>>)
  {
    forall i :: 0 <= i < |items| - 1 ==> items[i].date < items[i + 1].date
  }

  /**
   * For rows in strictly increasing date order the filled series has one row per day from
   * the first row's date to the last one's, and keeps the first and last rows.
   */
  lemma {:induction false} FillConsecutive<D>(items: seq<Item<D>>, getFullData: bool)
    requires StrictlyIncreasing(items)
    ensures var f := Fill(items, getFullData);
      && (|items| > 0 ==> |f| == items[|items| - 1].date - items[0].date + 1)
      && (|items| > 0 ==> f[0] == items[0] && f[|f| - 1] == items[|items| - 1])
      && forall j :: 0 <= j < |f| - 1 ==> f[j + 1].date == f[j].date + 1
  {
    if |items| > 1 {
      var init := items[..|items| - 1];
      var last := items[|items| - 1];
      var prev := init[|init| - 1];
      assert StrictlyIncreasing(init) by {
        forall i | 0 <= i < |init| - 1 ensures init[i].date < init[i + 1].date {
          assert init[i] == items[i] && init[i + 1] == items[i + 1];
        }
      }
      FillConsecutive(init, getFullData);
      var fi := Fill(init, getFullData);
      var g := Gap(prev, last.date, getFullData);
      var f := Fill(items, getFullData);
      assert f == fi + g + [last];
      assert prev == items[|items| - 2];
      forall j | 0 <= j < |f| - 1 ensures f[j + 1].date == f[j].date + 1 {
        if j < |fi| - 1 {
          assert f[j] == fi[j] && f[j + 1] == fi[j + 1];
        } else if j == |fi| - 1 {
          assert f[j] == prev;
          if |g| > 0 { assert f[j + 1] == g[0]; } else { assert f[j + 1] == last; }
        } else if j < |fi| + |g| - 1 {
          assert f[j] == g[j - |fi|] && f[j + 1] == g[j + 1 - |fi|];
        } else {
          assert f[j] == g[|g| - 1] && f[j + 1] == last;
        }
      }
    }
  }

  /**
   * `it` lies strictly between two consecutive original rows and copies the total (and,
   * with getFullData, the data) of the earlier one.
   */
  ghost predicate CopiesEarlier<D>(items: seq<Item<D>>, it: Item<D>, getFullData: bool)
  {
    exists i :: 0 <= i < |items| - 1 && items[i].date < it.date < items[i + 1].date
      && it.totalUsdValue == items[i].totalUsdValue
      && it.data == (if getFullData then items[i].data else None)
  }

  /**
   * The filled series keeps every original row; each inserted row copies the total (and,
   * with getFullData, the data) of the closest original row before it.
   */
  lemma FillKeepsRows<D>(items: seq<Item<D>>, getFullData: bool)
    ensures forall it :: it in items ==> it in Fill(items, getFullData)
    ensures forall it :: it in Fill(items, getFullData) && it !in items ==> CopiesEarlier(items, it, getFullData)
  {
    FillKeepsOriginals(items, getFullData);
    FillInserted(items, getFullData);
  }

  lemma {:induction false} FillKeepsOriginals<D>(items: seq<Item<D>>, getFullData: bool)
    ensures forall it :: it in items ==> it in Fill(items, getFullData)
  {
    if |items| > 1 {
      var init := items[..|items| - 1];
      var last := items[|items| - 1];
      FillKeepsOriginals(init, getFullData);
      var g := Gap(init[|init| - 1], last.date, getFullData);
      assert Fill(items, getFullData) == Fill(init, getFullData) + g + [last];
      assert items == init + [last];
    }
  }

  lemma {:induction false} FillInserted<D>(items: seq<Item<D>>, getFullData: bool)
    ensures forall it :: it in Fill(items, getFullData) && it !in items ==> CopiesEarlier(items, it, getFullData)
  {
    if |items| > 1 {
      var init := items[..|items| - 1];
      var last := items[|items| - 1];
      FillInserted(init, getFullData);
      var g := Gap(init[|init| - 1], last.date, getFullData);
      var f := Fill(items, getFullData);
      assert f == Fill(init, getFullData) + g + [last];
      assert items == init + [last];
      forall it | it in f && it !in items ensures CopiesEarlier(items, it, getFullData) {
        if it in Fill(init, getFullData) {
          CopiesEarlierExtend(init, last, it, getFullData);
        } else {
          var k :| 0 <= k < |g| && g[k] == it;
          assert items[|items| - 2] == init[|init| - 1];
        }
      }
    }
  }

  lemma CopiesEarlierExtend<D>(init: seq<Item<D>>, last: Item<D>, it: Item<D>, getFullData: bool)
    requires CopiesEarlier(init, it, getFullData)
    ensures CopiesEarlier(init + [last], it, getFullData)
  {
    var items := init + [last];
    var i :| 0 <= i < |init| - 1 && init[i].date < it.date < init[i + 1].date
      && it.totalUsdValue == init[i].totalUsdValue
      && it.data == (if getFullData then init[i].data else None);
    assert items[i] == init[i] && items[i + 1] == init[i + 1];
  }

  // ---- The endpoint ----

  /**
   * The query parameters. `getFullData` is the raw parameter, tested for truthiness: any
   * non-empty string, "false" included, asks for the full data.
   */
  datatype Params = Params(account: Option<string>, from: Option<int>, to: Option<int>, getFullData: Value)

  function DateOf(s: Snapshot): int
  {
    s.date
  }

  /** The sort key of `sort({ date: 1 })`. */
  function DayKey(s: Snapshot): real
  {
    s.date as real
  }

  /** The Mongo query: the account's snapshots with from <= date <= to, in table order. */
  function Matching(rows: seq<Snapshot>, account: string, from: int, to: int): (r: seq<Snapshot>)
    ensures forall s :: s in r <==> s in rows && s.account == account && from <= s.date <= to
  {
    if rows == [] then []
    else
      var s := rows[|rows| - 1];
      assert rows == rows[..|rows| - 1] + [s];
      Matching(rows[..|rows| - 1], account, from, to) + (if s.account == account && from <= s.date <= to then [s] else [])
  }

  function MapItems<D>(snaps: seq<Snapshot>, getFullData: bool, parse: string -> D): (r: seq<Mapped<D>>)
    ensures |r| == |snaps|
    ensures forall i :: 0 <= i < |snaps| ==>
      r[i] == Mapped(snaps[i].date, snaps[i].totalUsdValue, if getFullData then Some(parse(snaps[i].balances)) else None)
  {
    seq(|snaps|, i requires 0 <= i < |snaps| =>
      Mapped(snaps[i].date, snaps[i].totalUsdValue, if getFullData then Some(parse(snaps[i].balances)) else None))
  }

  /**
   * `getAccountBalanceChart`: missing parameters and a failed signature check throw; otherwise
   * the matching snapshots sorted by date, mapped, forward-filled and gap-filled.
   * `signatureOk` is the outcome of the account check.
   */
  function GetAccountBalanceChart<D>(params: Params, signatureOk: bool, rows: seq<Snapshot>, parse: string -> D)
    : (r: Result<seq<Item<D>>>)
    ensures r.Err? <==> params.account.None? || params.account.value == "" || params.from.None? || params.to.None? || !signatureOk
    ensures r.Err? && (params.account.None? || params.account.value == "" || params.from.None? || params.to.None?) ==>
      r.error == "Please define params: account, from, to"
  {
    if params.account.None? || params.account.value == "" || params.from.None? || params.to.None? then
      Err("Please define params: account, from, to")
    else if !signatureOk then Err("Invalid signature")
    else
      var snaps := SortBy(Matching(rows, params.account.value, params.from.value, params.to.value), DayKey);
      Ok(Fill(ForwardFill(MapItems(snaps, Truthy(params.getFullData), parse)), Truthy(params.getFullData)))
  }

  /**
   * With at most one snapshot per day, a successful chart has one row per day from the first
   * matching snapshot's date to the last one's, each inside [from, to].
   */
  lemma ChartConsecutive<D>(params: Params, rows: seq<Snapshot>, parse: string -> D)
    requires params.account.Some? && params.account.value != "" && params.from.Some? && params.to.Some?
    requires DistinctBy(Matching(rows, params.account.value, params.from.value, params.to.value), DateOf)
    ensures var r := GetAccountBalanceChart(params, true, rows, parse);
      && r.Ok?
      && (forall j :: 0 <= j < |r.value| - 1 ==> r.value[j + 1].date == r.value[j].date + 1)
      && (forall j :: 0 <= j < |r.value| ==> params.from.value <= r.value[j].date <= params.to.value)
  {
    var from, to := params.from.value, params.to.value;
    var m := Matching(rows, params.account.value, from, to);
    var snaps := SortBy(m, DayKey);
    var mapped := MapItems(snaps, Truthy(params.getFullData), parse);
    var items := ForwardFill(mapped);
    SortedSnapshotsIncrease(m, Truthy(params.getFullData), parse);
    SortedSnapshotsInRange(rows, params.account.value, from, to);
    if |items| > 0 {
      assert from <= items[0].date && items[|items| - 1].date <= to;
    }
    FillInRange(items, Truthy(params.getFullData), from, to);
    ChartIsFill(params, rows, parse);
  }

  lemma ChartIsFill<D>(params: Params, rows: seq<Snapshot>, parse: string -> D)
    requires params.account.Some? && params.account.value != "" && params.from.Some? && params.to.Some?
    ensures GetAccountBalanceChart(params, true, rows, parse)
      == Ok(Fill(ForwardFill(MapItems(SortBy(Matching(rows, params.account.value, params.from.value, params.to.value), DayKey),
                                      Truthy(params.getFullData), parse)), Truthy(params.getFullData)))
  {
  }

  /** Rows in increasing date order, the first and last inside [from, to], fill to consecutive days inside [from, to]. */
  lemma FillInRange<D>(items: seq<Item<D>>, getFullData: bool, from: int, to: int)
    requires StrictlyIncreasing(items)
    requires |items| > 0 ==> from <= items[0].date && items[|items| - 1].date <= to
    ensures var f := Fill(items, getFullData);
      && (forall j :: 0 <= j < |f| - 1 ==> f[j + 1].date == f[j].date + 1)
      && (forall j :: 0 <= j < |f| ==> from <= f[j].date <= to)
  {
    FillConsecutive(items, getFullData);
    var f := Fill(items, getFullData);
    if |items| > 0 {
      ConsecutiveDate(f, |f| - 1);
      forall j | 0 <= j < |f| ensures from <= f[j].date <= to {
        ConsecutiveDate(f, j);
      }
    }
  }

  lemma SortedSnapshotsIncrease<D>(m: seq<Snapshot>, getFullData: bool, parse: string -> D)
    requires DistinctBy(m, DateOf)
    ensures StrictlyIncreasing(ForwardFill(MapItems(SortBy(m, DayKey), getFullData, parse)))
  {
    var snaps := SortBy(m, DayKey);
    SortKeepsDistinct(m, DayKey, DateOf);
    forall i | 0 <= i < |snaps| - 1 ensures snaps[i].date < snaps[i + 1].date {
      assert DayKey(snaps[i]) <= DayKey(snaps[i + 1]);
      assert DateOf(snaps[i]) != DateOf(snaps[i + 1]);
    }
    var mapped := MapItems(snaps, getFullData, parse);
    var items := ForwardFill(mapped);
    forall i | 0 <= i < |items| - 1 ensures items[i].date < items[i + 1].date {
      assert items[i].date == mapped[i].date == snaps[i].date;
      assert items[i + 1].date == mapped[i + 1].date == snaps[i + 1].date;
    }
  }

  lemma SortedSnapshotsInRange(rows: seq<Snapshot>, account: string, from: int, to: int)
    ensures forall i :: 0 <= i < |SortBy(Matching(rows, account, from, to), DayKey)| ==>
      from <= SortBy(Matching(rows, account, from, to), DayKey)[i].date <= to
  {
    var m := Matching(rows, account, from, to);
    var snaps := SortBy(m, DayKey);
    forall i | 0 <= i < |snaps| ensures from <= snaps[i].date <= to {
      assert snaps[i] in multiset(m);
    }
  }

  lemma {:induction false} ConsecutiveDate<D>(f: seq<Item<D>>, j: nat)
    requires j < |f| && forall k :: 0 <= k < |f| - 1 ==> f[k + 1].date == f[k].date + 1
    ensures f[j].date == f[0].date + j
  {
    if j > 0 { ConsecutiveDate(f, j - 1); }
  }
}
