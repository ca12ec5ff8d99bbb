# FundDashboard core, modelled in Dafny

FundDashboard tracks one user's investment-fund portfolio. Two cloud
functions do the real work, and this project models both of them:

- **fund-calculator** (`cloudfunctions/fund-calculator/index.js`) values
  every holding against a market quote. It falls back to the average cost
  when a fund has no quote. It adds the values up into portfolio totals and
  groups them by fund category for the allocation pie chart. An empty
  portfolio gets its own special answer. A holding with no share count or
  no average cost makes the whole call fail.
- **migrate-data** (`cloudfunctions/migrate-data/index.js`) turns the raw
  staging rows into three collections:
  - `fund_basic`: one metadata record per fund code, the first row winning,
    stored under the code as its `_id`;
  - `user_portfolio`: one holding per row, with total cost = shares × cost;
  - `fund_transactions`: one transaction per row; the token `'买入'` means a
    buy, any other value a sale, and a missing price or amount becomes 0.

  It writes each collection with `batchWrite`. This helper writes the items
  in batches of 50 and waits for each batch before starting the next. An
  item with a truthy `_id` goes to `doc(_id).set`, which creates or
  replaces. Any other item goes to `add`, which inserts a new document.

Files:

| file | module | contents |
|---|---|---|
| `common.dfy` | `Common` | `Option`, `Result`, the JavaScript `x \|\| default` on strings, `Min` |
| `money.dfy` | `Money` | `toFixed(2)` as exact rounding half away from zero (`Round2`), and its error bound |
| `fund_calculator.dfy` | `FundCalculator` | the valuation of one holding, the specification of the whole pass by recursion on the last holding, its properties, and the imperative pass `ComputeDashboard` proved equal to it |
| `doc_store.dfy` | `DocStore` | documents, the `Collection` class (keyed documents and inserted documents), the write semantics, batching, and the `batchWrite` loop |
| `migrate_data.dfy` | `MigrateData` | the staging rows, the deduplication loop, the holding and transaction transforms, the whole migration, and what a second run does |
| `scenarios.dfy` | `Scenarios` | worked examples on concrete inputs |

Modelling choices:

- decimal.js values are exact `real`s. `toFixed(2)` becomes `Money.Round2`:
  it rounds to cents, with halves going away from zero. The model rounds
  only where the code calls `toFixed`: when it formats output and when it
  builds the allocation. The code also rounds in places that the model leaves
  exact: decimal.js rounds the result of every operation (`times`, `plus`,
  `minus`, `div`) to 20 significant digits, and the migration multiplies
  JavaScript doubles (see "Left out").
- A staging or database field that may be missing is an `Option`. For a
  string default, `value || default` replaces both a missing value and the
  empty string (`Common.OrDefault`). The `_id` test `if (id)` is false for
  a missing id and for `""` (`DocStore.Keyed`).
- Market quotes are a parameter, a map from fund code to `Quote`. The same
  goes for the holdings that the database join returns.
- A collection keeps two things. The documents written with `set` sit in a
  map from id to document. The documents written with `add` sit in a
  multiset, because the writes of one batch run concurrently and their
  generated ids give them no order.
- In a few places the code does something other than one might expect,
  and the model follows the code:
  - For an empty portfolio the code answers only
    `{totalAssets: '0.00', dashboardData: [], charts: {}}`, which has no
    summary (`Response.EmptyPortfolio`). It does not answer a summary with
    zero totals.
  - The code's defaults are `'未知基金'` and `'其他'` for the calculator, and
    `'未命名基金'` and `'混合型'` for the migration.
  - The call fails when `total_shares` or `avg_cost` is missing, because
    `.toFixed` is called on the raw field (lines 101-102). That happens even
    though `safeNum` would have read such a field as 0.
  - A failed write makes the migration answer `{success: false, error}`
    with no counts at all.

## Model

| member | source | states |
|---|---|---|
| `Common.OrDefault` | cloudfunctions/fund-calculator/index.js:68-69 | a present non-empty string is kept; a missing or empty one gives the default |
| `Money.Round2` | cloudfunctions/fund-calculator/index.js:90 | `toFixed(2)` read back as a number; rounding never flips the sign of a value |
| `Money.Round2Error` | cloudfunctions/fund-calculator/index.js:90 | rounding to cents moves a value by at most half a cent |
| `Money.Round2IsCents` | cloudfunctions/fund-calculator/index.js:90 | the rounded value is a whole number of cents |
| `Money.Round2OfCents` | cloudfunctions/fund-calculator/index.js:118 | rounding a whole number of cents changes nothing |
| `Money.Round2Neg` | cloudfunctions/fund-calculator/index.js:90 | rounding is symmetric about zero |
| `Money.Round2HalfUp` | cloudfunctions/fund-calculator/index.js:90 | for every k ≥ 0, k + ½ cents rounds to k + 1 cents and its negation to −(k + 1) cents: halves go away from zero |
| `Money.CentsAdd` | cloudfunctions/fund-calculator/index.js:92 | a sum of whole cents is whole cents |
| `FundCalculator.ReturnRate` | cloudfunctions/fund-calculator/index.js:82 | `profit / cost * 100`: 0 on a zero cost; on a positive cost it is non-negative iff the profit is |
| `FundCalculator.ReturnRateScales` | cloudfunctions/fund-calculator/index.js:82 | on a non-zero cost, rate × cost = profit × 100 |
| `FundCalculator.InfoOf` | cloudfunctions/fund-calculator/index.js:67 | `basic_info[0] \|\| {}`: the first joined metadata row, or a row with no name and no type when the join found none |
| `FundCalculator.Value` | cloudfunctions/fund-calculator/index.js:65-110 | a holding fails exactly when its share count or average cost is missing (the failure is tagged with the holding's code, see "Left out"); otherwise the entry carries its code, shares and cost |
| `FundCalculator.ValueProfit` | cloudfunctions/fund-calculator/index.js:79-81 | market value = shares × price, and profit = market value − cost value, exactly |
| `FundCalculator.ValueReturnRate` | cloudfunctions/fund-calculator/index.js:82 | the return rate is 0 when the cost value is 0; otherwise rate × cost value = profit × 100 |
| `FundCalculator.ValueWithoutQuote` | cloudfunctions/fund-calculator/index.js:73-75 | with no quote the price is the average cost, so profit and rate are 0, the entry is a gain, its change is 0 and it has no date |
| `FundCalculator.ValueWithQuote` | cloudfunctions/fund-calculator/index.js:73-74 | with a quote, the entry's price, change and date are the quote's |
| `FundCalculator.ValueGain` | cloudfunctions/fund-calculator/index.js:108 | `isGain` holds iff profit ≥ 0; on a positive cost value it agrees with the sign of the return rate |
| `FundCalculator.ValueNames` | cloudfunctions/fund-calculator/index.js:67-69 | name and type come from the first joined metadata row; a missing row, name or type gives '未知基金' / '其他' |
| `FundCalculator.Valuations` | cloudfunctions/fund-calculator/index.js:65-111 | the `funds.map` pass; a list that values has one entry per holding |
| `FundCalculator.Allocation` | cloudfunctions/fund-calculator/index.js:89-95 | `typeAllocation`: per category, the sum of its holdings' rounded market values (its properties are the `Allocation…` lemmas below) |
| `FundCalculator.TypesSeen` | cloudfunctions/fund-calculator/index.js:116 | the key order of `typeAllocation`: no longer than the list, and the first holding's category comes first |
| `FundCalculator.SummaryOf` | cloudfunctions/fund-calculator/index.js:133-142 | the summary carries total assets and total profit; on a positive total cost its gain flag holds iff its return rate is non-negative |
| `FundCalculator.Pie` | cloudfunctions/fund-calculator/index.js:116-119 | one slice per category, in first-seen order, named after its category |
| `FundCalculator.Dashboard` | cloudfunctions/fund-calculator/index.js:49-51 | no holdings give the empty-portfolio answer; a non-empty portfolio that values gives a full report |
| `FundCalculator.DashboardOk` | cloudfunctions/fund-calculator/index.js:65-111 | a non-empty portfolio gets an answer iff every holding can be valued |
| `FundCalculator.AllocationDomain` | cloudfunctions/fund-calculator/index.js:89-95 | the allocation has a key for exactly the categories listed for the pie |
| `FundCalculator.TypesSeenDistinct` | cloudfunctions/fund-calculator/index.js:116 | every category appears once in the pie's order |
| `FundCalculator.TypesSeenCover` | cloudfunctions/fund-calculator/index.js:116 | a category is listed iff some holding has it |
| `FundCalculator.AllocationIsCategoryTotal` | cloudfunctions/fund-calculator/index.js:89-95 | each allocation entry equals an independent per-category sum of the rounded market values; a category that is not a key sums to 0 |
| `FundCalculator.AllocationInCents` | cloudfunctions/fund-calculator/index.js:90-95 | every allocation entry is a whole number of cents |
| `FundCalculator.AllocationTotal` | cloudfunctions/fund-calculator/index.js:89-95 | the allocation entries add up to the sum of all rounded market values |
| `FundCalculator.AllocationTotalKnown` | cloudfunctions/fund-calculator/index.js:91-92 | a holding of a category already listed adds its rounded value to that entry and keeps the total exact |
| `FundCalculator.AllocationKnownStep` | cloudfunctions/fund-calculator/index.js:91-92 | a holding of a category already listed leaves the order alone and adds its rounded value to that entry and to the rounded total |
| `FundCalculator.AllocationTotalNew` | cloudfunctions/fund-calculator/index.js:93-94 | a holding of a new category appends it with its rounded value and keeps the total exact |
| `FundCalculator.PieValues` | cloudfunctions/fund-calculator/index.js:116-119 | rounding again for the pie changes nothing: each slice's value is its category's sum of rounded market values |
| `FundCalculator.RoundedTotalError` | cloudfunctions/fund-calculator/index.js:90 | the pie total is within half a cent per holding of total assets |
| `FundCalculator.TotalsBalance` | cloudfunctions/fund-calculator/index.js:84-87 | total profit = total assets − total cost |
| `FundCalculator.ValuationsInOrder` | cloudfunctions/fund-calculator/index.js:65-111 | the list values iff every holding values; it then has one entry per holding, in input order, entry i being holding i's valuation |
| `FundCalculator.ValuationsFirstError` | cloudfunctions/fund-calculator/index.js:65-111 | a failing list fails at the first holding that cannot be valued (the model tags the failure with its code), and every earlier holding values |
| `FundCalculator.ValuationsErrExtends` | cloudfunctions/fund-calculator/index.js:65-111 | an error in a prefix is the error of the whole list |
| `FundCalculator.DashboardSummary` | cloudfunctions/fund-calculator/index.js:133-141 | the report lists one entry per holding; its summary has total assets as the sum of market values and profit = assets − cost; `isGain` holds iff assets ≥ cost; the total rate is 0 on zero cost and otherwise rate × cost = profit × 100 |
| `FundCalculator.SummaryBalance` | cloudfunctions/fund-calculator/index.js:133-141 | the summary of balanced totals: gain iff assets ≥ cost, and the total rate scales back to the profit |
| `FundCalculator.AccumulateStep` | cloudfunctions/fund-calculator/index.js:84-95 | one more holding adds its market value, profit and cost value to the totals, and its rounded value to its category (appended if new) |
| `FundCalculator.AddToTotals` | cloudfunctions/fund-calculator/index.js:84-87 | the running totals after one more holding are the totals of the longer list |
| `FundCalculator.AddToCategory` | cloudfunctions/fund-calculator/index.js:89-95 | the truthiness test on the running value (a 0 entry is set, not added to) still gives the allocation and key order of the longer list |
| `FundCalculator.ComputeDashboard` | cloudfunctions/fund-calculator/index.js:49-147 | the imperative pass returns exactly `Dashboard`: the empty answer, the first holding's error, or the report with totals, summary and pie |
| `DocStore.Keyed` | cloudfunctions/migrate-data/index.js:23 | `if (id)`: an item is written with `set` only when its `_id` is present and non-empty |
| `DocStore.WriteItem` | cloudfunctions/migrate-data/index.js:19-28 | one write, `set` for a keyed item and `add` otherwise (its effect is stated by the two lemmas below) |
| `DocStore.WriteItemEffect` | cloudfunctions/migrate-data/index.js:19-28 | a keyed item replaces the document under its id, stored without `_id`, and touches nothing else; an unkeyed item adds one document |
| `DocStore.WriteItemTwice` | cloudfunctions/migrate-data/index.js:23-28 | writing a keyed item again changes nothing; writing an unkeyed one again adds a second copy |
| `DocStore.WriteAll` | cloudfunctions/migrate-data/index.js:16-33 | the writes of a list, one after another (its effect is `DocStore.WriteAllEffect`) |
| `DocStore.WriteAllEffect` | cloudfunctions/migrate-data/index.js:16-33 | after a list of writes the keyed documents are the old ones overridden by the last write of each id, and every unkeyed body has been added |
| `DocStore.KeyedWritesIdempotent` | cloudfunctions/migrate-data/index.js:23-25 | writing the same list twice leaves the keyed documents as one write did |
| `DocStore.UnkeyedWritesDuplicate` | cloudfunctions/migrate-data/index.js:26-28 | writing the same list twice inserts every unkeyed body twice (the inserted documents are the old ones plus two copies of each, and their count grows by twice the unkeyed count), so the store differs from one write |
| `DocStore.AllKeyedIdempotent` | cloudfunctions/migrate-data/index.js:23-25 | when every item has a non-empty id, a second write leaves the whole store unchanged |
| `DocStore.WriteAllAppend` | cloudfunctions/migrate-data/index.js:16-33 | writing a concatenation writes one part after the other |
| `DocStore.Batches` | cloudfunctions/migrate-data/index.js:16-17 | no batches for no items; otherwise the first batch is the first min(50, n) items |
| `DocStore.BatchesPartition` | cloudfunctions/migrate-data/index.js:16-17 | the batches, concatenated, are the items; there are ceil(n / 50) of them, none empty, none over 50, all but the last full |
| `DocStore.BatchesAt` | cloudfunctions/migrate-data/index.js:16-17 | batch k is `items.slice(50k, 50k + 50)` |
| `DocStore.WriteBatchesIsWriteAll` | cloudfunctions/migrate-data/index.js:16-33 | writing batch after batch has the effect of writing all the items in order |
| `DocStore.Collection.Set` | cloudfunctions/migrate-data/index.js:25 | `doc(id).set` creates or replaces the document under the id, and nothing else |
| `DocStore.Collection.Add` | cloudfunctions/migrate-data/index.js:27 | `add` inserts one document, and nothing else |
| `DocStore.WriteBatch` | cloudfunctions/migrate-data/index.js:18-30 | the store after one batch is the store after writing its items |
| `DocStore.WriteSlice` | cloudfunctions/migrate-data/index.js:17-31 | one loop turn writes `items.slice(i, i + 50)` and reports its length |
| `DocStore.BatchWrite` | cloudfunctions/migrate-data/index.js:11-34 | the final store is the old one with all items written in order (no writes for no items); one progress count per batch, the k-th being min(50(k + 1), n) |
| `MigrateData.FundRecordOf` | cloudfunctions/migrate-data/index.js:54-60 | a record's `_id` and code are the row's code; a missing or empty name or type gives '未命名基金' / '混合型' |
| `MigrateData.FundBasics` | cloudfunctions/migrate-data/index.js:50-62 | the values of `fundBasicMap` in insertion order: at most one record per row, and the first row always gives the first record |
| `MigrateData.FundBasicsCodes` | cloudfunctions/migrate-data/index.js:50-62 | the records carry exactly the distinct raw codes, each once |
| `MigrateData.FundBasicsCount` | cloudfunctions/migrate-data/index.js:103 | `stats.funds` is the number of distinct raw codes |
| `MigrateData.IndexOfFirst` | cloudfunctions/migrate-data/index.js:51-53 | the index found is that of the first row with the code, and one is found iff some row has it |
| `MigrateData.FundBasicsFirstWins` | cloudfunctions/migrate-data/index.js:53-61 | each record is built from the first row carrying its code |
| `MigrateData.FundRecordIds` | cloudfunctions/migrate-data/index.js:55-56 | every record's `_id` equals its code |
| `MigrateData.LaterRowIgnored` | cloudfunctions/migrate-data/index.js:53 | a later row whose code was already seen changes nothing |
| `MigrateData.AddFirstSeen` | cloudfunctions/migrate-data/index.js:51-61 | one `forEach` turn keeps the map's keys and values equal to the records of the longer prefix |
| `MigrateData.ValuesInOrder` | cloudfunctions/migrate-data/index.js:93 | `Array.from(map.values())` lists the values in key insertion order |
| `MigrateData.DedupFunds` | cloudfunctions/migrate-data/index.js:50-62 | the loop with its map yields exactly the first-occurrence records, in first-seen order |
| `MigrateData.FundItems` | cloudfunctions/migrate-data/index.js:93 | one item per record, keyed by the record's `_id`, with the record's code, name and type as its body |
| `MigrateData.FundItemIdsDistinct` | cloudfunctions/migrate-data/index.js:50-62 | the `fund_basic` items have pairwise distinct ids |
| `MigrateData.PortfolioDocOf` | cloudfunctions/migrate-data/index.js:65-75 | a holding keeps the row's code, shares and cost, and total cost = shares × cost |
| `MigrateData.Portfolios` | cloudfunctions/migrate-data/index.js:65-75 | one unkeyed holding per raw row, in order, no deduplication |
| `MigrateData.KindOf` | cloudfunctions/migrate-data/index.js:81 | a transaction is a buy iff its token is '买入'; anything else, a missing token included, is a sale |
| `MigrateData.OrZero` | cloudfunctions/migrate-data/index.js:84-85 | a missing price or amount is 0; a present one is kept |
| `MigrateData.TransactionDocOf` | cloudfunctions/migrate-data/index.js:78-89 | a transaction keeps the row's code, date, shares and note; buy iff '买入'; price and amount default to 0 |
| `MigrateData.Transactions` | cloudfunctions/migrate-data/index.js:78-89 | one unkeyed transaction per raw row, in order |
| `MigrateData.Load` | cloudfunctions/migrate-data/index.js:91-97 | the three writes of one run; `user_portfolio` and `fund_transactions` each gain exactly one inserted document per staging row |
| `MigrateData.Migrate` | cloudfunctions/migrate-data/index.js:36-107 | the three collections end up written with the fund, holding and transaction items; the counts are the distinct codes, the holding rows and the transaction rows |
| `MigrateData.MigrateTwice` | cloudfunctions/migrate-data/index.js:91-97 | a second run leaves `fund_basic`'s keyed records as they were (and all of `fund_basic` when no code is empty), and inserts two copies of every holding and transaction document, the counts growing by twice the row counts |
| `Scenarios.QuotedHolding` | cloudfunctions/fund-calculator/index.js:79-82 | 100 shares at cost 1 and price 1.1: market value 110, cost 100, profit 10, rate 10, a gain |
| `Scenarios.UnquotedHolding` | cloudfunctions/fund-calculator/index.js:73-82 | 50 shares at 2 without a quote: price 2, profit 0, rate 0 |
| `Scenarios.MissingShares` | cloudfunctions/fund-calculator/index.js:101 | a holding without a share count fails the whole call, even after a holding that values |
| `Scenarios.OneSlicePerCategory` | cloudfunctions/fund-calculator/index.js:89-119 | two category-"A" holdings worth 30 and 70 make one pie slice "A" worth 100 |
| `Scenarios.DuplicateCode` | cloudfunctions/migrate-data/index.js:50-75 | two rows with code "F1" make one metadata record, taken from the first row, and two holdings |
| `Scenarios.ThreeBatches` | cloudfunctions/migrate-data/index.js:16-17 | 120 items go out in batches of 50, 50 and 20 |

## Left out

- `fetchMarketData` (fund-calculator lines 12-27) is not modelled. It is a random mock feed, so the quotes are a parameter.
- The 7-day line chart (lines 122-131) is not modelled. It is an illustrative projection built from the clock.
- The database reads are not modelled: the `user_portfolio`/`fund_basic` join with its `limit(100)`, and the staging reads with `limit(1000)`. Their results are the inputs.
- `db.serverDate()` timestamps, console output (except `batchWrite`'s progress count, which `DocStore.BatchWrite` returns) and the `{success, msg}`/`{error}` envelopes are not modelled. A failure is `Err` or left out. Because every `fund_basic` record carries `update_time: db.serverDate()` (migrate-data line 59), a real second run rewrites each record with a new timestamp: where `MigrateData.MigrateTwice` and `DocStore.AllKeyedIdempotent` say a record is unchanged, that holds for the modelled fields only.
- Output strings are not modelled: `toFixed(2)`/`toFixed(4)` formatting and the `'%'` suffix. The model keeps the exact numbers.
- FundCalculator.AddToCategory: the running category values are JavaScript floats (`parseFloat` then `+=`), and the pie rounds them with `Number.prototype.toFixed`. The model adds exact reals, so it does not capture floating-point drift or binary rounding of ties.
- FundCalculator.AddToCategory: `typeAllocation` is a plain `{}`, so a category named after an `Object.prototype` property behaves differently in the code. For `"constructor"` (or `"toString"` and the like) the test at line 91 sees the inherited function, line 92 turns the entry into a string, and `.toFixed` at line 118 then throws, so the call answers `{error}`. A `"__proto__"` category is dropped from the pie. The model treats every category name as an ordinary key and answers a report.
- FundCalculator.ValueProfit: decimal.js rounds the result of every `times`, `plus` and `minus` to 20 significant digits; the model's arithmetic is exact. For 1234.56 shares at a price of 1.4873829174629183, line 79 gives a market value of 1836.2634545830204164, while the model's product is 1836.263454583020416448. The running sums at lines 85-87 round the same way once they pass 20 digits. So market value = shares × price and profit = market value − cost value (`ValueProfit`), total profit = total assets − total cost (`FundCalculator.TotalsBalance`), rate × cost = profit × 100 (`FundCalculator.ReturnRateScales`) and the summary's balance (`FundCalculator.DashboardSummary`) hold exactly only in the model.
- FundCalculator.ValueReturnRate: decimal.js rounds `profit.div(costValue)` (line 82) to 20 significant digits before multiplying by 100. The model divides exactly, so rate × cost = profit × 100 holds in the model but not always in the code (profit 1 on cost 3 gives 33.333333333333333333).
- FundCalculator.DashboardSummary: the same 20-digit rounding applies to `totalProfit.div(totalCost)` (line 133); the model's total rate is the exact quotient.
- FundCalculator.Value: when `total_shares` or `avg_cost` is missing, the code's answer is `{error: err.message}` (line 151), the message of the `TypeError` thrown by `.toFixed`, which names no holding. The model's `InvalidHolding(code)` tags the failure with the offending holding's code. That tag is the model's addition and does not appear in the code's answer.
- FundCalculator.TypesSeen: the pie follows `Object.keys` order. The model uses first-seen order, which `Object.keys` gives only for category names that are not integer-like. An integer-like name such as `"1"` would be listed first.
- FundCalculator.Value: JavaScript coercions are not modelled, such as a numeric field stored as a string or `NaN`. A field is either a number or missing.
- DocStore.WriteBatch: the writes of one batch run concurrently (`Promise.all`), and the model applies them in list order. Two `set`s of the same id inside one batch could finish in either order. The migration never builds such a batch (`MigrateData.FundItemIdsDistinct`), and the order of `add`s is invisible in the multiset.
- DocStore.BatchWrite: write failures, rejected promises and partial batches are not modelled. Every write succeeds.
- MigrateData.PortfolioDocOf: `total_cost` is the product of two JavaScript doubles (line 72) and so is rounded to binary floating point (shares 0.1 at cost 3 stores 0.30000000000000004). The model's product is exact.
- MigrateData.Migrate: the raw `fund_code` is taken to be a string already, so `String(...)` is the identity. `Number(...)` on shares, cost, price and amount is taken to yield the stored number.

