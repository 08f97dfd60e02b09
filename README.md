# dextools core in Dafny

This project models the core of dextools, the Kadena DEX data service behind the Ecko/Kaddex charts, in Dafny. It has two parts.

The cron side builds the data:
- minute candles from swap transactions (`candle_backfill`);
- hourly candles from the minute candles (`hour_candle_backfill`);
- the KDA/USDT price history (`kda_price_backfill`);
- the cached token list (`allTokenUpdate`), with supplies and burns added (`helpers/token`);
- the per-chain list of fungible tokens (`allKadenaTokenUpdate`);
- the daily USD balance of every tracked account (`accountsBalanceUpdate`).

The API side serves it:
- the UDF chart history (`udf/getHistory`);
- the pair cache and the pairs endpoint (`pairsUpdater`, `getPairs`), with the id/symbol helpers (`helper/index`);
- the performance summary (`getPerformanceSummary`);
- an account's balance chart (`getAccountBalanceChart`);
- an account's transfer history, read either from the indexer's GraphQL pages or from the Postgres chainweb tables (`getAccountTransactionHistoryGraphQL`, `getAccountTransactionHistory`).

How the JavaScript is rendered:
- **Databases, network calls and clocks:** every query result, Pact call, HTTP answer and "now" is a parameter. It is either a sequence of rows or a function from the request to its answer.
- **Tables:** Mongo collections and Postgres tables written by upsert are `map`s keyed by their primary key.
- **Pure code and loops:** code built from expressions becomes functions. Every `for`/`while` loop and every `reduce` that accumulates becomes a method with loop invariants, proved equal to a reference function. The properties are lemmas about those functions.
- **Values:** numbers are `real`; times are whole seconds (days for the balance chart); JavaScript `null`/`undefined` are `Option`s; a thrown `Error` is the `Err` of a `Result`.

The modules:
- `Wrappers`, `Strings`, `Js`, `Store`, `Sorting`, `Candles` and `Aggregation` hold what several source files share. That covers Option/Result, `split`/`indexOf`/`includes`/ASCII case mapping, JavaScript values and truthiness, `Array.prototype.slice`, upsert and last-wins `reduce` into an object, a stable sort, the candle record with UTC truncation, and SQL `GROUP BY` OHLCV aggregation.
- The others are one module per source file: `CandleBackfill`, `HourCandleBackfill`, `KdaPriceBackfill`, `AllTokenUpdate`, `TokenInfo`, `KadenaTokens`, `AccountsBalance`, `UdfHistory`, `PairsUpdater`, `GetPairs`, `Helper`, `PerformanceSummary`, `BalanceChart`, `TransactionRules` (the validation and row rules both history endpoints share), `TransactionHistoryGraphQL` and `TransactionHistoryPg`.

## Model

| member | source | states |
|---|---|---|
| Strings.IndexOf | dextools-api/src/helper/index.js:5 | `indexOf` of a character: -1 exactly when the character is absent, otherwise the first position holding it |
| Strings.Split | dextools-api/src/helper/index.js:21 | `split` on one character: at least one part and no part contains the separator |
| Strings.SplitLength | dextools-api/src/helper/index.js:21-22 | a string splits into one part more than it has separators |
| Strings.JoinSplit | dextools-api/src/helper/index.js:21 | joining the parts with the separator gives the string back |
| Strings.SplitJoin | dextools-api/src/helper/index.js:21 | splitting undoes joining separator-free parts |
| Strings.ContainsFrom | dextools-api/src/api/getAccountTransactionHistoryGraphQL.js:106-112 | `includes` is true when the substring occurs at any position |
| Strings.ContainsSuffix | dextools-api/src/api/getAccountTransactionHistoryGraphQL.js:106-110 | a string that includes `pre + sub` includes `sub`, which makes the "coin.transfer" test redundant |
| Strings.ToUpper | dextools-api/src/api/getPerformanceSummary.js:9 | `toUpperCase` restricted to ASCII letters: it maps each character to its upper case, so it keeps the length (full Unicode mapping, where 'ß' becomes "SS", is left out) |
| Strings.ToLower | dextools-api/src/api/getPairs.js:40 | `toLowerCase` restricted to ASCII letters: it maps each character to its lower case, so it keeps the length (full Unicode mapping is left out) |
| Strings.RemoveChar | dextools-cron/src/accountsBalanceUpdate.js:82 | `replace(/\./g, '')`: the result lacks the character, is shorter by exactly its occurrences, and is the string itself when the character does not occur |
| Strings.RemoveCharMultiset | dextools-cron/src/accountsBalanceUpdate.js:82 | every other character is kept exactly as often as it occurs |
| Strings.RemoveCharOne | dextools-cron/src/accountsBalanceUpdate.js:82 | one character is kept unless it is the removed one |
| Strings.RemoveCharAppend | dextools-cron/src/accountsBalanceUpdate.js:82 | removal from a concatenation is the concatenation of the removals, so the kept characters stay in order |
| Js.RelIndex | dextools-api/src/api/getAccountTransactionHistoryGraphQL.js:161-164 | `slice`'s index rule: a negative index counts from the end, and the result is clamped to 0..length |
| Js.DigitsConcat | dextools-api/src/api/getAccountTransactionHistoryGraphQL.js:32 | the digits of `a` followed by those of `b` are worth `a` shifted left by the length of `b`, plus `b` |
| Js.ConcatDecimal | dextools-api/src/api/getAccountTransactionHistoryGraphQL.js:32 | `a + b` on a decimal text and a positive one is a decimal text worth `a` times 10^|b| plus `b` (minus `b` after a sign) |
| Js.StringToNumber | dextools-cron/helpers/token.js:99 | `-` reads a decimal text as its integer value |
| Store.Keyed | dextools-cron/scripts/candle_backfill.js:125-133 | the rows of a bulk upsert paired with their primary keys, in order |
| Store.AssocLastWins | dextools-api/src/updater/pairsUpdater.js:46-49 | a reduce `p[key(c)] = c` keeps, for each key, the last row carrying it |
| Store.AssocKeys | dextools-api/src/updater/pairsUpdater.js:46-49 | the keys after the reduce are the old keys plus those of the rows |
| Store.AssocUntouched | dextools-cron/scripts/candle_backfill.js:127-130 | a key no row carries keeps its old entry, or stays absent |
| Store.AssocIdempotent | dextools-cron/scripts/candle_backfill.js:127-130 | applying the same upsert twice equals applying it once |
| Store.BuildMap | dextools-api/src/updater/pairsUpdater.js:46-49 | the reduce loop builds the same map as the reference fold |
| Sorting.SortBy | dextools-api/src/api/getPairs.js:33-35 | the sort result is a permutation of the input, ordered by the key |
| Sorting.InsertSorted | dextools-api/src/api/getPairs.js:33-35 | inserting into a sorted list keeps it sorted |
| Sorting.SortStable | dextools-api/src/api/getPairs.js:33-35 | the sort is stable, as `Array.prototype.sort` and the database's sorts are taken to be: for every key, the elements carrying it keep their input order |
| Sorting.SortKeepsDistinct | dextools-cron/scripts/hour_candle_backfill.js:44 | sorting keeps distinct elements distinct |
| Candles.Trunc | dextools-cron/scripts/candle_backfill.js:77 | `startOf`/`date_trunc` in UTC: t lies in [Trunc(t), Trunc(t) + unit) |
| Candles.UpsertHolds | dextools-cron/scripts/candle_backfill.js:125-133 | after `INSERT … ON CONFLICT DO UPDATE`, a row with no later row of its key is what the table holds |
| Candles.UpsertKeeps | dextools-cron/scripts/candle_backfill.js:125-133 | a key no inserted row carries keeps its old candle, or stays absent |
| Candles.UpsertIdempotent | dextools-cron/scripts/hour_candle_backfill.js:49-55 | the same upsert run twice leaves the table as one run leaves it |
| Aggregation.Members | dextools-cron/scripts/hour_candle_backfill.js:43 | a group's members are exactly the rows whose (ticker, bucket) is the group key |
| Aggregation.Groups | dextools-cron/scripts/hour_candle_backfill.js:43 | the groups are pairwise distinct, every row's group is among them, and each is the group of some row |
| Aggregation.GroupsNonEmpty | dextools-cron/scripts/hour_candle_backfill.js:43 | no group is empty, so every aggregate is taken over at least one row |
| Aggregation.Earliest | dextools-cron/scripts/hour_candle_backfill.js:37 | `(array_agg(open ORDER BY timestamp))[1]` takes the open of a row with the smallest timestamp |
| Aggregation.Latest | dextools-cron/scripts/hour_candle_backfill.js:40 | `(array_agg(close ORDER BY timestamp DESC))[1]` takes the close of a row with the largest timestamp |
| Aggregation.MaxHigh | dextools-cron/scripts/hour_candle_backfill.js:38 | `MAX(high)` is some member's high and is at least every member's high |
| Aggregation.MinLow | dextools-cron/scripts/hour_candle_backfill.js:39 | `MIN(low)` is some member's low and is at most every member's low |
| Aggregation.GroupByOneRowPerGroup | dextools-cron/scripts/hour_candle_backfill.js:34-43 | `GROUP BY ticker, bucket` gives one row per group: the keys are distinct and cover every input row |
| Aggregation.GroupByRow | dextools-cron/scripts/hour_candle_backfill.js:34-43 | each output row aggregates exactly its group: its bucket start, the extreme high and low, and the summed volume |
| Aggregation.GroupByFromRows | dextools-cron/scripts/hour_candle_backfill.js:34-43 | every output row is the group of some input row |
| Aggregation.GroupByWellFormed | dextools-cron/scripts/hour_candle_backfill.js:34-43 | when every input has low ≤ open, close ≤ high, so does every aggregated row |
| Aggregation.SortByTime | dextools-cron/scripts/hour_candle_backfill.js:44 | `ORDER BY timestamp` gives a time-sorted permutation of the rows |
| Aggregation.SortKeepsDistinctKeys | dextools-cron/scripts/hour_candle_backfill.js:44 | ordering the rows does not make two rows share a key |
| CandleBackfill.Div | dextools-cron/scripts/candle_backfill.js:78 | JavaScript `/`: a non-zero divisor gives the finite quotient; a zero divisor gives Infinity or -Infinity by the dividend's sign, and NaN for 0 / 0 |
| CandleBackfill.Times | dextools-cron/scripts/candle_backfill.js:81 | JavaScript `*` by a finite factor: finite stays finite and scales; an infinity keeps or flips its sign with the factor's sign and becomes NaN at 0; NaN stays NaN |
| CandleBackfill.LeOrder | dextools-cron/scripts/candle_backfill.js:96-97 | the order `Math.min`/`Math.max` use is a total order on the numbers other than NaN, with -Infinity and Infinity at its ends |
| CandleBackfill.MathMin | dextools-cron/scripts/candle_backfill.js:96 | `Math.min`: NaN when either argument is NaN, otherwise the smaller argument |
| CandleBackfill.MathMax | dextools-cron/scripts/candle_backfill.js:97 | `Math.max`: NaN when either argument is NaN, otherwise the larger argument |
| CandleBackfill.PriceInKda | dextools-cron/scripts/candle_backfill.js:78 | the KDA price is finite exactly when the token amount is non-zero, and then times the token amount it gives the KDA amount; a zero token amount gives Infinity, -Infinity or NaN by the KDA amount's sign |
| CandleBackfill.PriceCases | dextools-cron/scripts/candle_backfill.js:78-81 | a non-zero token amount gives a finite USD price equal to the KDA price times the minute's KDA/USD price; a zero one at a positive KDA/USD price gives Infinity, -Infinity or NaN |
| CandleBackfill.ZeroAmountPrices | dextools-cron/scripts/candle_backfill.js:78-81 | selling 5 KDA for 0 tokens prices the trade at Infinity, and 0 for 0 at NaN |
| CandleBackfill.PriceUsesMinuteStart | dextools-cron/scripts/candle_backfill.js:76-82 | the KDA price is looked up at the minute start, so a trade moved within its minute keeps its USD price |
| CandleBackfill.BuildBuckets | dextools-cron/scripts/candle_backfill.js:68-102 | the transactions reduce builds the reference per-minute map |
| CandleBackfill.TradesIn | dextools-cron/scripts/candle_backfill.js:70-77 | a minute's trades are exactly the non-dust trades whose minute start it is, in fetch order |
| CandleBackfill.LowPrice | dextools-cron/scripts/candle_backfill.js:96 | the running `Math.min` is NaN exactly when some trade's price is NaN; otherwise it is the price of one of the trades and at most every price |
| CandleBackfill.HighPrice | dextools-cron/scripts/candle_backfill.js:97 | the running `Math.max` is NaN exactly when some trade's price is NaN; otherwise it is the price of one of the trades and at least every price |
| CandleBackfill.BucketsMatchTrades | dextools-cron/scripts/candle_backfill.js:68-102 | a minute has a bucket iff some non-dust trade falls in it; the bucket then holds the total volume, the first trade's timestamp, the last price as close, and the min and max prices |
| CandleBackfill.BucketsWellFormed | dextools-cron/scripts/candle_backfill.js:84-99 | every bucket has at least the dust threshold as volume, and either low and high are both NaN or low ≤ close ≤ high, infinities included |
| CandleBackfill.BucketsFinite | dextools-cron/scripts/candle_backfill.js:78-99 | when no non-dust trade has a zero token amount, every bucket's close, low and high are finite |
| CandleBackfill.AddTradeAt | dextools-cron/scripts/candle_backfill.js:84-99 | one step of the reduce: a non-dust trade opens or updates the bucket of its minute (volume summed, first timestamp kept, close set to its price, low and high through `Math.min`/`Math.max`); every other minute is unchanged |
| CandleBackfill.WithoutDust | dextools-cron/scripts/candle_backfill.js:70-72 | dropping dust keeps exactly the trades with volume ≥ 0.00000001, in order |
| CandleBackfill.DustIgnored | dextools-cron/scripts/candle_backfill.js:70-72 | dust trades change no bucket: the map is the same without them |
| CandleBackfill.MinuteCandle | dextools-cron/scripts/candle_backfill.js:106-120 | with a bucket the candle opens at the previous close, closes at the bucket's close, and its low/high are NaN when the bucket's or the previous close is, else the smaller/larger of the two; without one it is flat at the previous close with volume 0 |
| CandleBackfill.MinuteCandleWellFormed | dextools-cron/scripts/candle_backfill.js:106-120 | a well-formed bucket gives a candle whose low and high are both NaN or bound its open and close, whatever the previous close |
| CandleBackfill.WalkMinutes | dextools-cron/scripts/candle_backfill.js:105-123 | the inner loop emits one candle per minute from start while before end, the i-th for start + i minutes, each built on the previous close |
| CandleBackfill.WalkWellFormed | dextools-cron/scripts/candle_backfill.js:109-119 | well-formed buckets make every walked candle satisfy low ≤ open, close ≤ high, or have NaN low and high |
| CandleBackfill.BuildChunk | dextools-cron/scripts/candle_backfill.js:104-123 | the `while (start < end)` loop pushes the carried candle and then exactly the walked candles, and stops at the first minute at or after end |
| CandleBackfill.ChunkEnd | dextools-cron/scripts/candle_backfill.js:62-63 | a chunk ends one week after its start, or at END_DATE when that comes first |
| CandleBackfill.ChunkRows | dextools-cron/scripts/candle_backfill.js:104-123 | a flush is the carried candle followed by one candle per minute of the chunk |
| CandleBackfill.WalkLocal | dextools-cron/scripts/candle_backfill.js:27 | only buckets inside [start, end) affect the walk, so the out-of-range rows the OR/AND precedence lets through change no candle |
| CandleBackfill.ChunksCarry | dextools-cron/scripts/candle_backfill.js:60-136 | each flush starts with the anchor (the first flush) or the last row of the previous flush |
| CandleBackfill.BuiltMinutes | dextools-cron/scripts/candle_backfill.js:61-137 | the built candles cover every minute from the start to END_DATE once and in order, each opening at the previous close, each with low ≤ open, close ≤ high or NaN low and high |
| CandleBackfill.BackfillToken | dextools-cron/scripts/candle_backfill.js:41-137 | one token's outer loop flushes exactly the reference chunks and leaves the table as their upserts in turn |
| CandleBackfill.BackfillChunk | dextools-cron/scripts/candle_backfill.js:62-123 | one pass fetches the chunk's trades, reduces them and returns the chunk's rows |
| CandleBackfill.BackfillAll | dextools-cron/scripts/candle_backfill.js:39-138 | the script backfills every token of the token map, in order, anchored at its first candle |
| HourCandleBackfill.HourStart | dextools-cron/scripts/hour_candle_backfill.js:36 | `date_trunc('hour')`: the hour start lies at or before t and within one hour of it |
| HourCandleBackfill.HourRows | dextools-cron/scripts/hour_candle_backfill.js:33-45 | the query's rows are the hour groups, as a time-sorted permutation |
| HourCandleBackfill.HourRowsDistinct | dextools-cron/scripts/hour_candle_backfill.js:43 | no two hour rows share (ticker, hour), so the upsert never meets its own key twice |
| HourCandleBackfill.GetAndStoreFails | dextools-cron/scripts/hour_candle_backfill.js:48-55 | the INSERT is refused, as `VALUES` with no rows, exactly when there are no minute candles |
| HourCandleBackfill.GetAndStoreHolds | dextools-cron/scripts/hour_candle_backfill.js:48-55 | the run succeeds and every aggregated row ends up stored under its (ticker, hour) key |
| HourCandleBackfill.GetAndStoreCovers | dextools-cron/scripts/hour_candle_backfill.js:31-57 | with some minute candle the run succeeds, and every (ticker, hour) holding one gets an hour row |
| HourCandleBackfill.HourRowAggregates | dextools-cron/scripts/hour_candle_backfill.js:34-43 | an hour row aggregates exactly the minute candles of its ticker and hour: high/low bound them, volume is their sum |
| HourCandleBackfill.GetAndStoreIdempotent | dextools-cron/scripts/hour_candle_backfill.js:49-55 | after a successful run, re-running the script over the same minute candles changes nothing |
| KdaPriceBackfill.WindowEnd | dextools-cron/scripts/kda_price_backfill.js:44 | `realEnd` is start + 90000, or `end` when that comes first |
| KdaPriceBackfill.WindowsTile | dextools-cron/scripts/kda_price_backfill.js:43-59 | the windows tile [start, end): the i-th starts 90000·i after the first, each ends where the next begins, the last ends at `end` |
| KdaPriceBackfill.PriceRow | dextools-cron/scripts/kda_price_backfill.js:49-55 | a candle becomes (time × 1000, close from the fifth element) |
| KdaPriceBackfill.PriceRows | dextools-cron/scripts/kda_price_backfill.js:49-55 | `candles.map` gives one row per candle, in order |
| KdaPriceBackfill.Accepted | dextools-cron/scripts/kda_price_backfill.js:57 | the number of leading windows that pass the acceptance test: every earlier window passes, the window at that index (if any) fails; `Backfill` applies it with `Storable(fetch)`, under which a window passes when its rows are non-empty with distinct dates |
| KdaPriceBackfill.AcceptedAt | dextools-cron/scripts/kda_price_backfill.js:43-62 | the first refused window is the only index with every earlier window accepted and itself refused |
| KdaPriceBackfill.Backfill | dextools-cron/scripts/kda_price_backfill.js:38-62 | the loop requests the windows in order up to the first refused one, which ends the run with an error, and leaves the table as the upserts of the windows before it; with none refused it requests every window and reports no error |
| KdaPriceBackfill.LastWindowWins | dextools-cron/scripts/kda_price_backfill.js:26-57 | `ON CONFLICT (timestamp) DO UPDATE`: every row of the last stored window ends the run with that window's price for its date |
| AllTokenUpdate.Flat | dextools-cron/src/allTokenUpdate.js:10-11 | the tokens are visited token1 then token2, pair by pair: positions 2i and 2i+1 |
| AllTokenUpdate.GetAllTokens | dextools-cron/src/allTokenUpdate.js:9-22 | the reduce and the `delete allTokens.coin` give the reference table without `coin` |
| AllTokenUpdate.CollectKeys | dextools-cron/src/allTokenUpdate.js:10-19 | the table holds exactly the codes met |
| AllTokenUpdate.CollectFirstWins | dextools-cron/src/allTokenUpdate.js:12-17 | the token kept under a code is the first one met with it |
| AllTokenUpdate.CollectCodes | dextools-cron/src/allTokenUpdate.js:12-17 | every token is kept under its own code |
| AllTokenUpdate.FlatCodes | dextools-cron/src/allTokenUpdate.js:10-11 | the codes visited are those of every pair's token1 and token2 |
| AllTokenUpdate.AllTokens | dextools-cron/src/allTokenUpdate.js:9-22 | the result's keys are the pairs' codes minus `coin`, each under its own code, first occurrence winning |
| TokenInfo.SettledValue | dextools-cron/helpers/token.js:73-77 | `status === 'fulfilled' ? value : null` |
| Js.ParseFloat | dextools-cron/helpers/token.js:52 | `parseFloat` of a value: a number stays itself, a string is `Num` of the value its parse finds, and NaN when the parse finds none; null, undefined, a boolean or an object is NaN |
| TokenInfo.GetReserve | dextools-cron/helpers/token.js:51-53 | `getReserve`: `decimal` when truthy, else the value itself; reading `decimal` of null or undefined throws a TypeError |
| TokenInfo.GetReserveWrapped | dextools-cron/helpers/token.js:51-53 | a Pact `{decimal: "…"}` wrapper and its bare number give the same reserve |
| TokenInfo.WizaSupply | dextools-cron/helpers/token.js:55-61 | WIZA's supply is the reserve of a successful answer, else the call throws "failed wiza" |
| TokenInfo.CirculatingSupply | dextools-cron/helpers/token.js:63-82 | exactly the six keys; each entry but KISHK is the value of its own fetch when fulfilled and null when rejected, so it is null exactly when the fetch failed or gave null; KISHK is always -1 |
| TokenInfo.TotalReductions | dextools-cron/helpers/token.js:84-90 | KDX is the burn total when settled (else null); KISHK is the constant burn |
| TokenInfo.SumPermutation | dextools-cron/helpers/token.js:34-37 | the burn total does not depend on the key order of the burns object |
| TokenInfo.KdxBurns | dextools-cron/helpers/token.js:30-38 | the reduce over the burn keys returns their sum |
| TokenInfo.ReducedSupply | dextools-cron/helpers/token.js:99 | a falsy reduction keeps totalSupply; a number, a decimal text or `true` is subtracted as its numeric value; the result is always a number or NaN |
| TokenInfo.CirculatingOf | dextools-cron/helpers/token.js:100 | -1 means the reduced total supply, a truthy value stays, anything else is null |
| TokenInfo.WithInfo | dextools-cron/helpers/token.js:101-105 | the copied info keeps every field and overrides only totalSupply and circulatingSupply |
| TokenInfo.TokensWithInfos | dextools-cron/helpers/token.js:97-108 | the first reduce builds the reference info table |
| TokenInfo.Merged | dextools-cron/helpers/token.js:111-119 | a token without info for its symbol is kept as is; otherwise the info's fields override the token's and the rest stay |
| TokenInfo.MergeTokens | dextools-cron/helpers/token.js:110-121 | the second reduce builds the reference merged map |
| TokenInfo.AddTokenInfo | dextools-cron/helpers/token.js:92-127 | `addTokenInfo` returns the reference result for the settled supplies and reductions |
| TokenInfo.AddTokenInfoKeys | dextools-cron/helpers/token.js:110-121 | the result has exactly the keys of the token map |
| TokenInfo.AddTokenInfoEntry | dextools-cron/helpers/token.js:110-121 | each entry is its token merged with the info of its symbol |
| TokenInfo.TokenWithInfo | dextools-cron/helpers/token.js:97-119 | a token with info gets the reduced totalSupply and the derived circulatingSupply |
| TokenInfo.KishkSupply | dextools-cron/helpers/token.js:78-100 | KISHK's circulating supply equals its total supply less the constant burn |
| KadenaTokens.Filter | dextools-cron/src/allKadenaTokenUpdate.js:44 | `filter` keeps exactly the elements that pass, never more than given |
| KadenaTokens.FilterAppend | dextools-cron/src/allKadenaTokenUpdate.js:44 | filtering keeps order: filtering a concatenation filters each part |
| KadenaTokens.FilterCount | dextools-cron/src/allKadenaTokenUpdate.js:44 | a kept element keeps all its occurrences; a dropped one has none |
| KadenaTokens.NewTokens | dextools-cron/src/allKadenaTokenUpdate.js:44 | the new tokens are the found ones not stored, each as often as found, in found order |
| KadenaTokens.ProbePartition | dextools-cron/src/allKadenaTokenUpdate.js:51-63 | every new token lands in exactly one of valid, invalid, or neither (the probe threw) |
| KadenaTokens.ValidateTokens | dextools-cron/src/allKadenaTokenUpdate.js:48-66 | the loop returns the stored list followed by the working new tokens in order, and the failing ones as `invalidChainTokens` |
| KadenaTokens.UpdateKadenaTokens | dextools-cron/src/allKadenaTokenUpdate.js:39-82 | the chain run writes the reference list, or nothing when no modules are listed or none is new |
| KadenaTokens.NothingNewNoWrite | dextools-cron/src/allKadenaTokenUpdate.js:46 | when every listed module is stored already, nothing is written |
| KadenaTokens.ChainWriteContents | dextools-cron/src/allKadenaTokenUpdate.js:48-56 | the written list starts with the stored list and adds exactly the new listed modules that pass |
| KadenaTokens.ChainWriteIdempotent | dextools-cron/src/allKadenaTokenUpdate.js:44-80 | re-running on what was written, with the same answers, writes the same list or nothing |
| KadenaTokens.ChainWriteSettles | dextools-cron/src/allKadenaTokenUpdate.js:44-46 | once every new module passes, a second run writes nothing |
| KadenaTokens.FirstChainWrite | dextools-cron/src/allKadenaTokenUpdate.js:44-56 | a chain with nothing stored writes exactly its passing listed modules |
| KadenaTokens.StoredTokens | dextools-cron/src/allKadenaTokenUpdate.js:92-103 | no document, no or empty `tokens`, or a failed read all give [] |
| KadenaTokens.StoredTokensRoundTrip | dextools-cron/src/allKadenaTokenUpdate.js:75-98 | a list written with a serialisation that `parse` undoes is read back as written |
| KadenaTokens.RunChainsPerChain | dextools-cron/src/allKadenaTokenUpdate.js:105-109 | after chains 0..n-1, each holds what its own run wrote (from the list stored before), and later chains are untouched |
| KadenaTokens.AllKadenaTokenUpdate | dextools-cron/src/allKadenaTokenUpdate.js:105-117 | the chain loop runs chains 0 to count-1 in order and leaves the reference collection |
| AccountsBalance.LastPrices | dextools-cron/src/accountsBalanceUpdate.js:27-44 | a KDA row first (the newest KDA price, or null), then the latest candle rows, none when that query gave none |
| AccountsBalance.SymbolOf | dextools-cron/src/accountsBalanceUpdate.js:58 | `coin` is KDA; any other module is its cached symbol, or null |
| AccountsBalance.FirstClose | dextools-cron/src/accountsBalanceUpdate.js:60 | `find(...)?.close ?? 0`: the close of the first row for the ticker, 0 when there is none |
| AccountsBalance.FindTicker | dextools-cron/src/accountsBalanceUpdate.js:60 | `find` by ticker: the index of the first row for the ticker, every row before it for another ticker, or the length when no row has it |
| AccountsBalance.CoinPrice | dextools-cron/src/accountsBalanceUpdate.js:43-60 | `coin` is priced at the newest KDA price, or 0 without one |
| AccountsBalance.UnpricedModule | dextools-cron/src/accountsBalanceUpdate.js:60 | a module whose symbol has no price row is priced 0 |
| AccountsBalance.ValidTokens | dextools-cron/src/accountsBalanceUpdate.js:80-81 | the stored tokens kept are exactly those matching `/^[a-zA-Z0-9._-]+$/` |
| AccountsBalance.ValidTokensOne | dextools-cron/src/accountsBalanceUpdate.js:80-81 | one token is kept exactly when it matches the pattern |
| AccountsBalance.ValidTokensAppend | dextools-cron/src/accountsBalanceUpdate.js:80-81 | filtering a concatenation concatenates the filtered parts, so the kept tokens stay in stored order |
| AccountsBalance.Alias | dextools-cron/src/accountsBalanceUpdate.js:82 | the alias has no '.', and a token without '.' is its own alias |
| AccountsBalance.AliasMultiset | dextools-cron/src/accountsBalanceUpdate.js:82 | every character but '.' is kept exactly as often as it occurs |
| AccountsBalance.AliasAppend | dextools-cron/src/accountsBalanceUpdate.js:82 | the alias of a concatenation is the concatenation of the aliases |
| AccountsBalance.BindingNamesCollide | dextools-cron/src/accountsBalanceUpdate.js:80-90 | "a.b" and "ab" are both valid token names and get the same Pact binding for the same account |
| AccountsBalance.EscapeInjective | dextools-cron/src/accountsBalanceUpdate.js:82 | the corrected alias is one-to-one |
| AccountsBalance.EscapedBindingNamesDistinct | dextools-cron/src/accountsBalanceUpdate.js:87-90 | with the corrected alias every (token, batch position) has a binding of its own |
| AccountsBalance.ChunksFlatten | dextools-cron/src/accountsBalanceUpdate.js:63-71 | the batches, laid end to end, are the cursor's accounts |
| AccountsBalance.ChunksSizes | dextools-cron/src/accountsBalanceUpdate.js:63-71 | every batch holds 1 to 3 accounts; only the last may hold fewer than 3 |
| AccountsBalance.NextBatch | dextools-cron/src/accountsBalanceUpdate.js:66-70 | the inner loop takes the next min(3, remaining) accounts |
| AccountsBalance.CentsClose | dextools-cron/src/accountsBalanceUpdate.js:117 | `toFixed(2)` moves a value by at most half a cent |
| AccountsBalance.TokenBalanceOf | dextools-cron/src/accountsBalanceUpdate.js:111-124 | a balance record keeps the token and balance and is valued at the module's price |
| AccountsBalance.Valued | dextools-cron/src/accountsBalanceUpdate.js:117-123 | the USD value stored next to a balance and price is within half a cent of balance × price |
| AccountsBalance.ChainBalanceOf | dextools-cron/src/accountsBalanceUpdate.js:111-129 | a chain record has one balance per reported token, in key order, and usdValue is their sum |
| AccountsBalance.Init | dextools-cron/src/accountsBalanceUpdate.js:73-76 | `dataToPersist` starts with every batch account and no records |
| AccountsBalance.AddAccountsKeys | dextools-cron/src/accountsBalanceUpdate.js:110 | results for accounts outside the batch add no key |
| AccountsBalance.AddChainsKeys | dextools-cron/src/accountsBalanceUpdate.js:78-141 | after all chains the keys are still exactly the batch accounts |
| AccountsBalance.AddAccountsSound | dextools-cron/src/accountsBalanceUpdate.js:109-131 | one chain only appends to an account's records, and each appended record is what the chain reported for it |
| AccountsBalance.AddChainsSound | dextools-cron/src/accountsBalanceUpdate.js:78-143 | every record kept for a batch account is one some chain reported for that account |
| AccountsBalance.AddAccountsRecords | dextools-cron/src/accountsBalanceUpdate.js:109-131 | one chain appends to a batch account exactly the records it reports for that account, in the chain's order |
| AccountsBalance.AddChainsComplete | dextools-cron/src/accountsBalanceUpdate.js:78-143 | after all chains a batch account holds exactly the records every successful chain reported for it, chain by chain |
| AccountsBalance.TotalIndependentOfOrder | dextools-cron/src/accountsBalanceUpdate.js:143-154 | the total is the same in whatever order the concurrent chains push their records |
| AccountsBalance.Distinct | dextools-cron/src/accountsBalanceUpdate.js:73-76 | the keys of `dataToPersist` are the batch's accounts, without repeats |
| AccountsBalance.BatchUpserts | dextools-cron/src/accountsBalanceUpdate.js:146-160 | one upsert per account with the day's date, its records and their summed value |
| AccountsBalance.OneUpsertPerAccount | dextools-cron/src/accountsBalanceUpdate.js:146-160 | every batch account gets exactly one upsert, and no two upserts share (account, date) |
| AccountsBalance.BatchWritesNonEmpty | dextools-cron/src/accountsBalanceUpdate.js:146-163 | a non-empty batch always writes |
| AccountsBalance.CollectBatch | dextools-cron/src/accountsBalanceUpdate.js:73-141 | the chain loop fills `dataToPersist` as the reference fold over the chain results |
| AccountsBalance.InitBatch | dextools-cron/src/accountsBalanceUpdate.js:73-76 | the reduce over the batch builds exactly the map `Init` describes |
| AccountsBalance.AddChainResult | dextools-cron/src/accountsBalanceUpdate.js:107-131 | the forEach over one chain's answer appends the reference records |
| AccountsBalance.ProcessBatch | dextools-cron/src/accountsBalanceUpdate.js:73-160 | one batch yields the reference bulk write |
| AccountsBalance.WritesFrom | dextools-cron/src/accountsBalanceUpdate.js:63-72 | the writes from a cursor position are the next batch's, then the rest |
| AccountsBalance.BatchStep | dextools-cron/src/accountsBalanceUpdate.js:64-165 | one cursor step moves forward and appends exactly the next batch's bulk write, when it has one, to those done so far |
| AccountsBalance.UpdateAccountsBalance | dextools-cron/src/accountsBalanceUpdate.js:46-165 | the run performs one bulk write per batch of the accounts, in cursor order, as the reference |
| UdfHistory.IntervalOf | dextools-api/src/udf/getHistory.js:5-9 | resolution "1" is minutes, "60" hours, anything else days |
| UdfHistory.CustomInterval | dextools-api/src/udf/getHistory.js:11-14 | "15" and "30" are custom minute counts; anything else is 1 |
| UdfHistory.TimeRangeCovers | dextools-api/src/udf/getHistory.js:63-80 | as written the range ends at `to` and starts at the start of the interval holding `from`, whatever the countback, since `diff[interval]` is undefined |
| UdfHistory.TimeRangeIntendedCovers | dextools-api/src/udf/getHistory.js:63-80 | read as intended, the range ends at `to`, starts no later than `from` rounded down, strictly earlier exactly when countback exceeds the intervals that fit, and spans at least countback intervals |
| UdfHistory.CountbackIgnored | dextools-api/src/udf/getHistory.js:67-74 | the written and the intended range agree exactly when there is no countback or it fits; a minute chart of 10 minutes with countback 300 gets 10 minutes as written and 300 as intended |
| UdfHistory.QueryFor | dextools-api/src/udf/getHistory.js:116-138 | "60" reads hour_candles, "15"/"30" the custom grouping, anything else the date_trunc grouping by minute ("1") or day |
| UdfHistory.CustomBucketBounds | dextools-api/src/udf/getHistory.js:48 | a custom bucket starts within t's hour, at most n minutes before t |
| UdfHistory.InRange | dextools-api/src/udf/getHistory.js:37-40 | the WHERE clause keeps exactly the ticker's rows with from ≤ timestamp < to |
| UdfHistory.CustomBarsUnsorted | dextools-api/src/udf/getHistory.js:45-60 | the custom query as written can return bars out of time order |
| UdfHistory.CustomBarsSorted | dextools-api/src/udf/getHistory.js:45-60 | with ORDER BY, the custom bars are a time-sorted permutation of the grouping |
| UdfHistory.BarsOrderedAndInRange | dextools-api/src/udf/getHistory.js:16-60 | the hour and standard queries return bars in time order; every bar is the ticker's; an hour bar is a table row inside the range; a grouped bar starts at most one bar width before some candle of the ticker inside the range |
| UdfHistory.GroupedInRange | dextools-api/src/udf/getHistory.js:26-60 | a bucket of the grouped rows belongs to the ticker and covers a candle of the ticker inside the range |
| UdfHistory.BarsIntendedOrdered | dextools-api/src/udf/getHistory.js:45-60 | with ORDER BY added to the custom query every query's bars are in time order, the same bars as before, and only the custom query's answer changes |
| UdfHistory.BarsResponse | dextools-api/src/udf/getHistory.js:82-109 | "no_data" for no bars, else "ok"; six columns as long as the bars, the i-th entries from the i-th bar |
| UdfHistory.FormatBarsResponse | dextools-api/src/udf/getHistory.js:95-108 | the reduce pushing each bar's fields builds the reference response |
| UdfHistory.ResponseRoundTrip | dextools-api/src/udf/getHistory.js:95-108 | reading the columns back gives each bar's time, open, high, low, close and volume, in order |
| UdfHistory.GetHistory | dextools-api/src/udf/getHistory.js:111-141 | an unknown symbol throws; any other symbol answers |
| UdfHistory.GetHistoryOk | dextools-api/src/udf/getHistory.js:111-141 | a valid symbol gives "ok" exactly when the query finds bars; outside the resolutions "15" and "30" the times do not decrease |
| UdfHistory.GetHistoryIntended | dextools-api/src/udf/getHistory.js:111-141 | with ORDER BY on the custom query and the countback read as intended: an unknown symbol throws; any other symbol answers |
| UdfHistory.GetHistoryIntendedOk | dextools-api/src/udf/getHistory.js:111-141 | with both corrections the times never decrease, and outside "15" and "30" the answer is the code's as written whenever the countback fits the range |
| Helper.GetTickerFromId | dextools-api/src/helper/index.js:5 | the part after the first colon, or the whole id when it has none |
| Helper.TickerFromPrefixedId | dextools-api/src/helper/index.js:5 | a colon-free namespace, a colon and a ticker give the ticker back |
| Helper.GetSymbol | dextools-api/src/helper/index.js:20-30 | succeeds exactly with two colons, the three parts joining back to the symbol; otherwise throws "Unknown symbol …" |
| Helper.GetSymbolOfParts | dextools-api/src/helper/index.js:20-30 | three colon-free parts joined with ':' parse back to themselves |
| PairsUpdater.Get | dextools-api/src/updater/pairsUpdater.js:150-151 | a property read: the value when the key is present, undefined otherwise |
| PairsUpdater.VolumePairs | dextools-api/src/updater/pairsUpdater.js:46-49 | one (ticker, volume) pair per row, in order |
| PairsUpdater.GetVolume | dextools-api/src/updater/pairsUpdater.js:44-50 | the reduce builds the reference ticker-to-volume map |
| PairsUpdater.VolumesByTicker | dextools-api/src/updater/pairsUpdater.js:46-49 | a ticker has a volume iff some row names it, and it is the volume of the last such row |
| PairsUpdater.GetTokenIntervals | dextools-api/src/updater/pairsUpdater.js:52-61 | the nested reduce builds the reference interval map |
| PairsUpdater.IntervalsMatchFlat | dextools-api/src/updater/pairsUpdater.js:54-60 | an interval is present iff some row names it; (interval, ticker) holds the close of the last row naming both |
| PairsUpdater.ExtraInfoOf | dextools-api/src/updater/pairsUpdater.js:90-99 | a token's extra info is `parseFloat` of its cached supplies (a null supply is NaN), its socials or [], address and logo, plus the all-time extremes when recorded |
| PairsUpdater.ExtraInfoPairs | dextools-api/src/updater/pairsUpdater.js:89-101 | one (symbol, info) pair per token, in order |
| PairsUpdater.GetAllTokenExtraInfo | dextools-api/src/updater/pairsUpdater.js:75-102 | the two reduces build the reference symbol-to-info map |
| PairsUpdater.ExtraInfoBySymbol | dextools-api/src/updater/pairsUpdater.js:81-101 | a symbol's info is that of its last token, and has extremes iff an at_price row has that ticker |
| PairsUpdater.GetPriceChange | dextools-api/src/updater/pairsUpdater.js:104-108 | null for a missing or zero start, else the relative change: from·(1 + r) = to |
| PairsUpdater.GetPair | dextools-api/src/updater/pairsUpdater.js:110-138 | the pair record; throws when the ticker has no extra info or an interval map is missing |
| PairsUpdater.PairIdentifiers | dextools-api/src/updater/pairsUpdater.js:111-112 | the pair's id and symbol parse back to its ticker |
| PairsUpdater.BuildPairsLoop | dextools-api/src/updater/pairsUpdater.js:148-154 | the reduce over the recent rows gives the reference result |
| PairsUpdater.BuildPairsFails | dextools-api/src/updater/pairsUpdater.js:148-154 | once a prefix fails, the whole reduce fails with the same error |
| PairsUpdater.BuildPairsOk | dextools-api/src/updater/pairsUpdater.js:148-154 | the reduce succeeds exactly when every row's pair can be built |
| PairsUpdater.BuildPairsKeys | dextools-api/src/updater/pairsUpdater.js:148-154 | a successful reduce holds one pair per ticker of the rows |
| PairsUpdater.BuildPairsLastWins | dextools-api/src/updater/pairsUpdater.js:152 | the pair stored for a ticker is the pair of the last row with that ticker |
| GetPairs.GetSortKey | dextools-api/src/api/getPairs.js:3-18 | the five sort names select their field; anything else selects volume24h |
| GetPairs.SortPairs | dextools-api/src/api/getPairs.js:31-35 | a defined sort result is a permutation of the cached pairs |
| GetPairs.SortPairsDescending | dextools-api/src/api/getPairs.js:33-35 | when every pair has the field, the list is a permutation in non-increasing field order |
| GetPairs.MarketCapKeepsOrder | dextools-api/src/api/getPairs.js:13-34 | sorting on the absent marketCap field keeps the cached order |
| GetPairs.Lookup | dextools-api/src/api/getPairs.js:49 | a pair is found iff an entry has the key, and it is that entry's pair |
| GetPairs.Values | dextools-api/src/api/getPairs.js:31 | `Object.values` keeps the entries' order |
| GetPairs.GetPairs | dextools-api/src/api/getPairs.js:20-55 | neither parameter lists, exactly one answers 400, an exchange other than kaddex answers 400 naming it, and otherwise the ticker's pair or a "does not exist" error |
| GetPairs.ExchangeCaseInsensitive | dextools-api/src/api/getPairs.js:40 | the answer depends on the exchange only through its lower case |
| GetPairs.FindsBuiltPair | dextools-api/src/api/getPairs.js:39-52 | a cached pair is found again by its own id, on any spelling of "kaddex" |
| PerformanceSummary.IntervalParam | dextools-api/src/api/getPerformanceSummary.js:6 | `interval \|\| "1D"` |
| PerformanceSummary.ParseInterval | dextools-api/src/api/getPerformanceSummary.js:6-24 | no interval is 1D; the upper-cased names 1D/1W/1M/1Y select their window, and anything else throws the interval error |
| PerformanceSummary.ParseIntervalName | dextools-api/src/api/getPerformanceSummary.js:9-21 | every window is selected by its name in any letter case |
| PerformanceSummary.ParseIntervalCaseInsensitive | dextools-api/src/api/getPerformanceSummary.js:9 | the parameter matters only through its upper case |
| PerformanceSummary.Diff | dextools-api/src/api/getPerformanceSummary.js:105-115 | the change is defined iff open ≠ 0 (null counting as 0), and then open + open·diff/100 = close |
| PerformanceSummary.ModuleOfSymbol | dextools-api/src/api/getPerformanceSummary.js:100-102 | `find` over the cached tokens: the module of the first token with the symbol, none iff no token has it |
| PerformanceSummary.CountOf | dextools-api/src/api/getPerformanceSummary.js:106-110 | the count of the first row for the ticker, 0 without a ticker or a row |
| PerformanceSummary.Summary | dextools-api/src/api/getPerformanceSummary.js:5-122 | a bad interval throws; token rows without a token document throw; otherwise one row per token bar and then per KDA bar, each with its diff and count (KDA's under `coin`) |
| PerformanceSummary.SummaryRows | dextools-api/src/api/getPerformanceSummary.js:99-120 | token rows come first, one per token bar with its diff and its module's count, then one row per KDA bar with the `coin` count |
| BalanceChart.Values | dextools-api/src/api/getAccountBalanceChart.js:52-56 | the total of each item, None when null, undefined or NaN |
| BalanceChart.ForwardFill | dextools-api/src/api/getAccountBalanceChart.js:50-62 | the map keeps every item's date and data, and every present total |
| BalanceChart.LastValidIsLatest | dextools-api/src/api/getAccountBalanceChart.js:50-62 | `lastValidValue` is the latest present total, 0 when none is present |
| BalanceChart.ForwardFillCarries | dextools-api/src/api/getAccountBalanceChart.js:52-60 | a missing total shows the latest earlier present total, 0 when there is none |
| BalanceChart.ForwardFillLoop | dextools-api/src/api/getAccountBalanceChart.js:50-62 | the map with its `lastValidValue` variable gives the reference sequence |
| BalanceChart.Gap | dextools-api/src/api/getAccountBalanceChart.js:74-86 | one inserted row per day strictly between two dates, copying the previous row's total (and its data with getFullData) |
| BalanceChart.FillLoop | dextools-api/src/api/getAccountBalanceChart.js:69-91 | the forEach gives the reference filled series |
| BalanceChart.FillGap | dextools-api/src/api/getAccountBalanceChart.js:75-85 | the inner `while (previousDate < currentDate)` loop appends exactly the gap rows, one per missing day |
| BalanceChart.FillConsecutive | dextools-api/src/api/getAccountBalanceChart.js:69-91 | for strictly increasing dates the filled series has one row per day from the first date to the last |
| BalanceChart.FillKeepsRows | dextools-api/src/api/getAccountBalanceChart.js:69-91 | every original row is kept; each inserted row lies between two originals and copies the earlier one |
| BalanceChart.Matching | dextools-api/src/api/getAccountBalanceChart.js:118-126 | the query keeps exactly the account's snapshots with from ≤ date ≤ to |
| BalanceChart.MapItems | dextools-api/src/api/getAccountBalanceChart.js:130-134 | each snapshot becomes its date, total and, with getFullData, its parsed balances |
| BalanceChart.GetAccountBalanceChart | dextools-api/src/api/getAccountBalanceChart.js:94-145 | a missing account/from/to or a failed account check throws its message; otherwise the filled chart |
| BalanceChart.ChartConsecutive | dextools-api/src/api/getAccountBalanceChart.js:118-138 | with at most one snapshot per day the chart has one row per day, each inside [from, to] |
| BalanceChart.SortedSnapshotsIncrease | dextools-api/src/api/getAccountBalanceChart.js:127 | sorted snapshots with distinct days have strictly increasing dates |
| BalanceChart.SortedSnapshotsInRange | dextools-api/src/api/getAccountBalanceChart.js:120-127 | every sorted snapshot lies inside [from, to] |
| TransactionRules.Filter | dextools-api/src/api/getAccountTransactionHistoryGraphQL.js:70-74 | an optional filter is in force exactly when truthy |
| TransactionRules.Validate | dextools-api/src/api/getAccountTransactionHistoryGraphQL.js:7-25 | a falsy account, a bad status and a bad direction throw their messages in that order; otherwise the query with its defaults |
| TransactionRules.ValidateRequestOf | dextools-api/src/api/getAccountTransactionHistory.js:7-25 | the request of any query with non-empty strings validates to that query |
| TransactionRules.Ticker | dextools-api/src/api/getAccountTransactionHistoryGraphQL.js:95-102 | KDA for coin, else the cached symbol, else the upper-cased part after the dot, else null |
| TransactionRules.TickerOfNamespacedModule | dextools-api/src/api/getAccountTransactionHistory.js:86-87 | an uncached `ns.name` module gets NAME upper-cased |
| TransactionRules.TransactionTypeCases | dextools-api/src/api/getAccountTransactionHistoryGraphQL.js:104-114 | TRANSFER iff the code includes ".transfer" or "transfer-create"; SWAP iff it includes "swap-exact-in" and neither of those; otherwise "???" |
| TransactionRules.DirectionOf | dextools-api/src/api/getAccountTransactionHistoryGraphQL.js:116-121 | IN iff the account receives, OUT iff it sends without receiving, null otherwise |
| TransactionRules.StatusOf | dextools-api/src/api/getAccountTransactionHistoryGraphQL.js:123 | FAIL exactly when the result carries an error |
| TransactionRules.TargetChainId | dextools-api/src/api/getAccountTransactionHistoryGraphQL.js:131-134 | only a continuation at step 0 yields its target chain; otherwise null |
| TransactionHistoryGraphQL.FetchLimit | dextools-api/src/api/getAccountTransactionHistoryGraphQL.js:31-32 | with a positive skip, `limit + skip` joins the two parameter strings: the fetch size is the limit shifted left by the skip's digits plus the skip, 100 at least (exactly 100 after a negative limit); without one it is min(limit, 100) |
| TransactionHistoryGraphQL.FetchLimitJoinsTexts | dextools-api/src/api/getAccountTransactionHistoryGraphQL.js:31-32 | skip "5" fetches 1005 transfers with the default limit and 105 with limit "10" |
| TransactionHistoryGraphQL.Paginate | dextools-api/src/api/getAccountTransactionHistoryGraphQL.js:27-53 | the loop makes the reference calls and collects the reference transfers |
| TransactionHistoryGraphQL.PaginationPageSizes | dextools-api/src/api/getAccountTransactionHistoryGraphQL.js:33-36 | every call asks for 1 to 100 transfers |
| TransactionHistoryGraphQL.PaginationBounded | dextools-api/src/api/getAccountTransactionHistoryGraphQL.js:33-53 | with pages no larger than asked, at most fetchLimit transfers are collected |
| TransactionHistoryGraphQL.KeptMembers | dextools-api/src/api/getAccountTransactionHistoryGraphQL.js:67-93 | the filter keeps exactly the transfers passing every filter in force, in order |
| TransactionHistoryGraphQL.Shaped | dextools-api/src/api/getAccountTransactionHistoryGraphQL.js:94-158 | one output row per kept transfer, in order |
| TransactionHistoryGraphQL.Offset | dextools-api/src/api/getAccountTransactionHistoryGraphQL.js:160-162 | where the window starts: `slice(skip)` only for a positive skip |
| TransactionHistoryGraphQL.RespondWindow | dextools-api/src/api/getAccountTransactionHistoryGraphQL.js:160-164 | for the query's skip and limit numbers and the number n of kept transfers, the answer has as many rows as `slice(0, limit)` leaves of n rows after the skipped ones, negative limits included, and never more than a non-negative limit |
| TransactionHistoryGraphQL.Window | dextools-api/src/api/getAccountTransactionHistoryGraphQL.js:160-164 | `slice(skip)` for a positive skip and then `slice(0, limit)` return the consecutive rows starting at the offset, as many as the limit rule allows |
| TransactionHistoryGraphQL.RespondRowsMatch | dextools-api/src/api/getAccountTransactionHistoryGraphQL.js:67-164 | each returned row is the shape of a fetched transfer and agrees with every filter in force |
| TransactionHistoryGraphQL.ShapeMatches | dextools-api/src/api/getAccountTransactionHistoryGraphQL.js:69-123 | the row of a kept transfer shows the filtered module, request key, status and direction |
| TransactionHistoryGraphQL.SelfTransferUnderOutFilter | dextools-api/src/api/getAccountTransactionHistoryGraphQL.js:78-121 | a transfer to oneself passes the OUT filter yet is labelled IN |
| TransactionHistoryGraphQL.GetAccountTransactionHistory | dextools-api/src/api/getAccountTransactionHistoryGraphQL.js:5-172 | the endpoint returns the reference answer: validation errors, [] without transfers, else the window |
| TransactionHistoryPg.BuildQuery | dextools-api/src/api/getAccountTransactionHistory.js:43-72 | the account is $1; each filter value sits where its clause points; LIMIT/OFFSET bind min(limit, 100) and skip; the statement selects exactly the wanted rows |
| TransactionHistoryPg.AddModuleName | dextools-api/src/api/getAccountTransactionHistory.js:48-51 | a truthy module name is pushed and its clause names its position |
| TransactionHistoryPg.AddRequestKey | dextools-api/src/api/getAccountTransactionHistory.js:52-55 | a truthy request key is pushed and its clause names its position |
| TransactionHistoryPg.AddDirection | dextools-api/src/api/getAccountTransactionHistory.js:56-61 | IN and OUT add a clause on $1; no direction adds nothing |
| TransactionHistoryPg.AddStatus | dextools-api/src/api/getAccountTransactionHistory.js:62-66 | SUCCESS tests for no error, FAIL for one, no status adds nothing |
| TransactionHistoryPg.BuiltRefs | dextools-api/src/api/getAccountTransactionHistory.js:43-61 | direction clauses name $1; every other clause names one of the filter values |
| TransactionHistoryPg.BuildQuerySelects | dextools-api/src/api/getAccountTransactionHistory.js:27-66 | the built conditions select exactly the account's first-step transfers passing every filter |
| TransactionHistoryPg.ErrorMessage | dextools-api/src/api/getAccountTransactionHistory.js:113 | `error?.message ?? null` |
| TransactionHistoryPg.SelectedRowMatches | dextools-api/src/api/getAccountTransactionHistory.js:31-66 | a selected row's output involves the account and agrees with each filter in force |
| TransactionHistoryPg.GetAccountTransactionHistory | dextools-api/src/api/getAccountTransactionHistory.js:5-120 | validation errors are thrown before any statement; a valid request builds the statement selecting exactly the wanted rows; it throws exactly when min(limit, 100) or skip is negative, which Postgres refuses and the catch rethrows; otherwise one output row per returned row, in the database's order |

Definitions without a row of their own are the reference functions and proof steps of the rows named beside them:

- `UdfHistory`: `CalculateTimeRange` (TimeRangeCovers, CountbackIgnored); `CalculateTimeRangeIntended`, `IntervalCount` (TimeRangeIntendedCovers, CountbackIgnored); `Bars`, `Width`, `StandardBucketFn`, `CustomBucketFn` (BarsOrderedAndInRange, GroupedInRange); `CustomBarsAsWritten` (CustomBarsUnsorted, CustomBarsSorted); `BarsIntended` (BarsIntendedOrdered, GetHistoryIntendedOk); `BarOfCandle` (GroupedInRange).
- `CandleBackfill`: `EndDate`, `FirstStart` (BackfillToken); `KdaAmount`, `TokenAmount` (PriceInKda, PriceCases); `PriceInUsd` (PriceCases, PriceUsesMinuteStart, LowPrice, HighPrice); `Le`, `Spread` (LeOrder, MathMin, MathMax, BucketsWellFormed); `RowWellFormed` (MinuteCandleWellFormed, WalkWellFormed, BuiltMinutes); `AddTrade` (AddTradeAt, BucketsMatchTrades); `Walk` (WalkMinutes, WalkWellFormed, WalkLocal); `Chunks` (ChunksCarry, BuiltMinutes); `UpsertRows` (BackfillToken).
- `TransactionHistoryGraphQL`: `Pagination` (Paginate, PaginationPageSizes, PaginationBounded); `Kept` (KeptMembers); `Shape` (ShapeMatches, RespondRowsMatch); `Cut` (Window, RespondWindow); `History` (GetAccountTransactionHistory); `ShiftBounds` (FetchLimit).
- `TransactionHistoryPg`: `MapRow` (SelectedRowMatches); `Refused` (GetAccountTransactionHistory).
- `TransactionRules`: `TransactionType` (TransactionTypeCases); `ParseStatus`, `ParseDirection` (Validate, ValidateRequestOf); `LimitOf`, `SkipOf` (Validate).
- `AccountsBalance`: `BindingName` (BindingNamesCollide); `EscapedBindingName` (EscapedBindingNamesDistinct); `Cents` (CentsClose); `AddAccounts` (AddAccountsKeys, AddAccountsSound, AddAccountsRecords); `AddChains` (AddChainsKeys, AddChainsSound, AddChainsComplete); `AccountRecords`, `RecordsFor` (AddAccountsRecords, AddChainsComplete); `TotalUsdValue` (TotalIndependentOfOrder); `Writes` (BatchStep, UpdateAccountsBalance).
- `KadenaTokens`: `ChainWrite` (ChainWriteContents, ChainWriteIdempotent, NothingNewNoWrite); `Difference` (NewTokens); `Passes` (ProbePartition).
- `PairsUpdater`: `BuildPairs` (BuildPairsLoop, BuildPairsOk, BuildPairsFails, BuildPairsKeys); `PairOf` (BuildPairsLastWins); `Intervals` (GetTokenIntervals, IntervalsMatchFlat).
- `PerformanceSummary`: `TokenRow`, `KdaRow` (SummaryRows).
- `Aggregation`: `GroupBy` (GroupByOneRowPerGroup, GroupByRow, GroupByWellFormed, GroupByFromRows).
- `Candles`: `Upsert` (UpsertHolds, UpsertKeeps, UpsertIdempotent).
- `HourCandleBackfill`: `GetAndStore` (GetAndStoreHolds, GetAndStoreCovers, GetAndStoreIdempotent).
- `KdaPriceBackfill`: `Windows` (WindowsTile); `Backfilled` (Backfill, LastWindowWins); `WindowRows`, `Insertable`, `Storable` (Accepted, Backfill, LastWindowWins).
- `BalanceChart`: `Fill` (FillLoop, FillConsecutive, FillKeepsRows); `LastValid` (LastValidIsLatest).
- `AllTokenUpdate`: `Collect` (GetAllTokens, CollectKeys, CollectFirstWins, CollectCodes).
- `TokenInfo`: `AddTokenInfoSpec` (AddTokenInfo, AddTokenInfoKeys, AddTokenInfoEntry).
- `Sorting`: `WithKey` (SortStable).
- `Js`: `IsDigit`, `AllDigits`, `IsDecimal`, `DigitsValue`, `Pow10`, `NumberOf` (DigitsConcat, ConcatDecimal); `PosConcat`, `NegConcat`, `NegShift`, `ShiftStep` (DigitsConcat, ConcatDecimal).

The remaining members without a row are either small vocabulary the contracts above are written in (predicates, sums, key and name functions, `Min`/`Max`) or proof steps: the step and done lemmas of loops, snoc and append lemmas, and similar lemmas called inside the proofs of the rows above.

## Left out

- Network, Mongo and Postgres I/O, `sleep`, logging and `process.exit` are not modelled. Query results, Pact and HTTP answers and the current time are parameters.
- AccountsBalance.UpdateAccountsBalance: one `date` serves the whole run. The source evaluates `new Date().toISOString().split('T')[0]` for each upsert (dextools-cron/src/accountsBalanceUpdate.js:149-152), so a run that crosses UTC midnight writes its later batches under the next day. `AccountsBalance.BatchUpserts` takes the same single date.
- Concurrency (`Promise.all`, `Promise.allSettled`) is not modelled. Settled results are inputs, and the chain answers of one accounts batch are taken in chain order. `AccountsBalance.TotalIndependentOfOrder` shows the stored total does not depend on that order; the order of the records inside `balances` does.
- Numbers are exact reals, not IEEE doubles; rounding is not modelled. NaN and the infinities appear only where the code depends on them: `Js.Value.NaN`; `Option` for `parseFloat`, the price change and the performance diff; `GetPairs.KeyOf`; `CandleBackfill.Num` for the candle prices.
- CandleBackfill.PriceInKda: negative zero is not told apart from zero, so a `-0` token amount (which JavaScript turns into an infinity of the opposite sign) gives the same infinity as `0`. Trade amounts and volumes are finite; a `from_amount` or `to_amount` that `parseFloat` cannot read is not modelled.
- CandleBackfill.PriceInUsd: `getNearestKDAPrice` is in helpers/index.js (cron), which is not part of this model; its answer is taken to be a finite real for every minute.
- CandleBackfill.BackfillToken: the rows are stored with their JavaScript value, Infinity and NaN included; whether `candle_master`'s columns accept the text `pg-format` writes for them is the database's business and not modelled.
- `toFixed(2)`: `AccountsBalance.CentsClose` is stated on reals, so it ignores how binary doubles round at exact half cents.
- Luxon and time zones are not modelled. Times are UTC seconds; the balance chart's dates are day numbers, and the ISO date text is left out.
- UdfHistory.TimeRangeIntendedCovers: does not model luxon's fractional `diff` or calendar months; the unit is a fixed number of seconds.
- JSON, zipson `stringify`/`parse` and `JSON.parse` of Pact continuations and code are left out. Parsed values are inputs; `parse` is a function parameter.
- Kadena signature verification (`verifyAndAddAccount`) is out: its outcome is the `signatureOk` input of `BalanceChart.GetAccountBalanceChart`. The unused `dateMap` of `fillMissingDates` is also left out.
- Strings.ToUpper, Strings.ToLower: only ASCII letters change case; every other character is kept. JavaScript also maps other letters, and some of them change the length: 'ß'.toUpperCase() is "SS". The model takes token names and tickers to be ASCII, where the length is kept.
- Query parameters `limit` and `skip` are decimal texts (`Js.DecimalText`: digits, optionally after a minus sign). Other strings, such as fractions, exponents or surrounding spaces, which JavaScript also coerces, are not modelled. The number defaults 100 and 0 are written as the texts "100" and "0": they behave the same in every comparison, `slice`, `Math.min` and concatenation the code performs.
- TransactionHistoryPg.BuildQuery: `skip` is bound as its number; the driver sends the string and Postgres reads it as the same integer.
- TransactionHistoryPg.GetAccountTransactionHistory: the text of the database's error for a negative LIMIT or OFFSET is Postgres's own; the model's message only names the cause.
- TransactionHistoryPg.GetAccountTransactionHistory: the statement is taken to reach the database. As the text stands, dextools-api/src/api/getAccountTransactionHistory.js:2 imports `chainwebQuery` from clients/pg.js, which exports only `connectPg`, `closePg` and `query` (dextools-api/clients/pg.js:36-40). Every validated request would then fail at line 74 with "chainwebQuery is not a function", and the catch rethrows it. The model stands for the endpoint with a working query function.
- TransactionHistoryGraphQL.GetAccountTransactionHistory: the `hasError` field of a fetched transfer ranges over both values, but the GraphQL selection of dextools-api/clients/graphql.js:34-43 asks for `badResult`, `goodResult` and `continuation` and not `error`. As the text stands, `tx.transaction?.result?.error` at getAccountTransactionHistoryGraphQL.js:85-90 and 123 is always undefined. Every row is then SUCCESS, and `status=FAIL` keeps no transfer. The model covers the responses a selection with `error` would give, which include that case.
- Js.StringToNumber: reads decimal texts only. Fractions, exponents, hexadecimal and surrounding whitespace, which `Number` also reads, give NaN here.
- TokenInfo.KdxBurns: the burn values are taken to be numbers. If the analytics API sent strings, the `+=` of dextools-cron/helpers/token.js:34-37 would concatenate them.
- Js.ParseFloat: the parse of a string is the `parse` parameter; parseFloat's reading of a numeric prefix is not modelled.
- SQL text is not modelled, only the rows a statement selects. The `OR`/`AND` precedence of the candle backfill's fetch is handled by `CandleBackfill.WalkLocal`.
- The database's row order is an input: ties in `array_agg(... ORDER BY timestamp)` pick the first row in table order, and `ORDER BY` is a stable sort.
- GetPairs.SortPairs: when only some pairs have the sort field, the comparator is inconsistent and the engine's order is unspecified, so the result is None.
- Dafny maps have no key order. JavaScript's integer-like keys first are not modelled; where the order is observable (`Object.keys(...).find`, `Object.values`) the object is a sequence of entries.
- A token `moduleName` of null in the history rows is not modelled.
- `getReserve` of `helpers/pact`, used on the balances of a chain's answer, is not part of this model. The reported balances are given as numbers.
- `KADENA_CHAINS_COUNT` and the other constants of helpers/index.js (cron) are parameters; that file is not part of this model.
- The Pact code text of the balance call and of the token listing is not modelled. Only its binding names are (`AccountsBalance.BindingName`); the answer is an input.
- Pact `let*` shadowing is assumed: the last binding of a name wins.
- Object-prototype keys such as `constructor` are not modelled. In `dataToPersist`, or the `in` tests of the reduces, they would be truthy or present before any assignment.
- The numeric `totalSupply` of tokenInfo.json is assumed. A token symbol that is not a string is treated as having no info.
- The upsert of allTokenUpdate.js and each `updateOne` write are only their resulting state: the collection map, or the `Option` of the list written.
- KadenaTokens.AllKadenaTokenUpdate: reads of the collection inside a run always succeed. The `[]` fallback of a failed read is modelled by `KadenaTokens.StoredTokens` alone.
- The `tokenCount` counter of updateKadenaTokens is never read and is left out.

## Findings

| source | as written | input that shows it | evidently intended | confidence | as-written member | corrected member |
|---|---|---|---|---|---|---|
| dextools-api/src/udf/getHistory.js:45-60 | the 15- and 30-minute query has no `ORDER BY`, unlike the hour and standard queries | minute candles stored at 00:30 and then 00:00 for one ticker give the bar at 00:30 before the bar at 00:00 | bars in time order, as the charting library expects and the other two queries give | not executed | UdfHistory.CustomBarsAsWritten, used by UdfHistory.Bars and UdfHistory.GetHistory, exhibited by UdfHistory.CustomBarsUnsorted | UdfHistory.CustomBarsSorted, used by UdfHistory.BarsIntended and UdfHistory.GetHistoryIntended |
| dextools-api/src/udf/getHistory.js:67-69 | the countback test reads `diff[interval]` with a singular unit name (`minute`, `hour`, `day`); a luxon Duration only has the plural getters, so the test is `countback > undefined` and never holds | resolution "1", `from` 10 minutes before a whole-minute `to`, countback 300: the range is 10 minutes, not 300 | the range reaching back countback intervals from `to` when fewer fit | not executed | UdfHistory.CalculateTimeRange, used by UdfHistory.GetHistory, exhibited by UdfHistory.CountbackIgnored | UdfHistory.CalculateTimeRangeIntended, proved by UdfHistory.TimeRangeIntendedCovers, used by UdfHistory.GetHistoryIntended |
| dextools-cron/src/accountsBalanceUpdate.js:82-99 | the Pact binding for a token is the token with its dots removed plus `_j`, so two valid token names can share a binding | the tokens "a.b" and "ab" on one chain both bind `ab_0` for the first account, so both report the balance bound last | one binding per (token, account) | not executed | AccountsBalance.BindingName, exhibited by AccountsBalance.BindingNamesCollide | AccountsBalance.EscapedBindingName, proved distinct by AccountsBalance.EscapedBindingNamesDistinct |

The rest of the model takes the balances that a chain's answer reports per token as given. The escaped binding is therefore the naming the model assumes, not something it computes with.
