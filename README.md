# Portfolio dashboard core, modelled in Dafny

This project models the data core of a personal portfolio dashboard. The
dashboard is a Django application that mirrors a brokerage account (DEGIRO)
into a small database and derives daily series from it. The model covers:

- the batch ETL in `portfolio/lib/etl.py`:
  - `Transformation` cleans transactions, product information and cash flows;
  - it replays transactions into daily portfolios and forward-fills and melts prices;
  - `Loading` writes the results into the tables while respecting the
    schema's uniqueness and foreign-key rules;
- the schema of `portfolio/models.py` and the manager queries of
  `portfolio/managers.py`;
- the series helpers:
  - `portfolio/lib/aggregation.py`: cumulative cash flow, value series,
    performance series, allocation;
  - `yf_api.ffill_price_data` and `utils.date_range_gen`;
- the broker-client reshaping in `portfolio/lib/degiro_api.py` (product
  chunks, cash funds, portfolio grouping, account movements, transactions)
  and the helpers in `portfolio/lib/degiro_helpers.py`;
- the older view-driven refresh path:
  - `portfolio/views.py` and its twin `degiro/portfolio/views.py`:
    `refresh_depot_data`'s steps, `refresh_price_data`,
    `update_price_database`, `refresh_cashflows`;
  - `portfolio/lib/helpers.py`: `create_performance_time_series`,
    `refresh_cashflows`;
  - `measure_loop` in `degiro/portfolio/lib/helpers.py`.

Conventions of the model:

- Calendar dates are proleptic Gregorian day ordinals, as
  `datetime.date.toordinal` gives them (`Calendar.Ordinal`). "Today" is a
  parameter.
- Python dictionaries are association lists that keep insertion order
  (`Assoc`). `Counter.__add__` is modelled exactly: the left operand's keys
  come first and only positive counts survive (`Holdings.CounterAdd`).
- Database tables are sequences of rows. The ETL's target database is the
  class `Store.Database`; the legacy views' tables are the class
  `LegacyTables.Tables`.
- A pandas missing value (NaN) is `None`. A division by zero, which pandas
  turns into `inf`/`NaN`, is also `None`.
- Every exception the code can raise on the modelled paths is an error value
  of `Wrappers.Result`:
  - `KeyError`, `IndexError`, `ValueError`, `AttributeError`, `TypeError`;
  - `DoesNotExist`, `MultipleObjects`, `IntegrityError`, `AssertionError`.
- Calls to the broker API, to Yahoo Finance and to the clock are function
  parameters.

The same-day rule of `_build_portfolio` is modelled as written. The
ETL's `Transformation` uses the as-written rule. The netting rule the code
evidently intends is modelled next to it, and both appear under Findings.
The views' cash-flow refresh is modelled with its two evident corrections
(the per-day grouping and the running total); the behaviour as written is
modelled beside them, and both defects appear under Findings.

## Model

| member | source | states |
|---|---|---|
| EtlTransform.CheckKeys | portfolio/lib/etl.py:133-141 | construction succeeds exactly when every required key is present, else AssertionError |
| EtlTransform.FirstIsoDate | portfolio/lib/etl.py:175-180 | the date of the first `\d{4}-\d{2}-\d{2}` match; IndexError exactly when there is no match, ValueError when the first match is not a real date |
| EtlTransform.FirstIsoDateOfPrefix | portfolio/lib/etl.py:175-180 | a timestamp that starts with an ISO date yields that date |
| EtlTransform.CleanTransaction | portfolio/lib/etl.py:173-185 | a transaction is cleaned exactly when its date parses; the date becomes that day and every other field is carried over unchanged |
| EtlTransform.CashFlowMovements | portfolio/lib/etl.py:221-223 | a movement is kept exactly when it is a `CASH_TRANSACTION` described as a deposit or a withdrawal |
| EtlTransform.FlowOf | portfolio/lib/etl.py:221 | a movement becomes (its day, its change) exactly when the change is a number; a missing change is KeyError |
| EtlTransform.GroupByDateLookup | portfolio/lib/etl.py:226-231 | the grouped dictionary maps each day that has flows to the sum of that day's flows, and has no other day |
| EtlTransform.GroupCashFlows | portfolio/lib/etl.py:226-231 | the grouping loop computes the grouped dictionary |
| EtlTransform.StoredOnMembers | portfolio/lib/etl.py:234 | the existing rows are exactly the stored rows whose date is one of the grouped days |
| EtlTransform.MergedCashFlowsLookup | portfolio/lib/etl.py:226-249 | the merged cash flows have distinct days, and each day's amount is the new sum plus the stored amount of that day |
| EtlTransform.MergedCashFlowsDated | portfolio/lib/etl.py:226-249 | a day with new flows holds their sum plus the amount already stored on it |
| EtlTransform.MergedCashFlowsUndated | portfolio/lib/etl.py:226-249 | a day without new flows is absent, whatever is stored on it |
| EtlTransform.AddRowsLookup | portfolio/lib/etl.py:244-245 | adding the existing rows adds each row's amount to its day and changes no other day |
| EtlTransform.AddExisting | portfolio/lib/etl.py:244-245 | the update loop computes the dictionary with the existing amounts added |
| EtlTransform.DailyQuantities | portfolio/lib/etl.py:289-302 | the quantity loop computes the same-day quantities under the as-written rule |
| EtlTransform.DayQuantitiesPrefixErr | portfolio/lib/etl.py:291 | once an unknown product is met, the whole day fails with KeyError |
| EtlTransform.NextDay | portfolio/lib/etl.py:278-308 | one iteration computes the next day's holdings |
| EtlTransform.DailyPortfolios | portfolio/lib/etl.py:261-310 | the replay loop computes the daily portfolios |
| EtlTransform.WalkDay | portfolio/lib/etl.py:276-310 | one day of the replay: it extends the replayed days by that day's holdings, or its failure is the failure of the whole build |
| EtlTransform.UnnestPortfolios | portfolio/lib/etl.py:313-325 | the unnesting loop yields one row per (day, symbol) and the set of symbol-date combinations of those rows |
| EtlTransform.StoredCombsOn | portfolio/lib/etl.py:339-342 | the combinations found in the dimension table are among those stored |
| EtlTransform.NewCombs | portfolio/lib/etl.py:338-346 | the kept combinations are exactly those not yet in the dimension table |
| EtlTransform.Transformation.constructor | portfolio/lib/etl.py:127-149 | the extracted data is kept and every output starts empty |
| EtlTransform.Transformation.TransformTransactions | portfolio/lib/etl.py:164-187 | the transactions are the cleaned extracted ones, or the first cleaning error is raised and nothing changes |
| EtlTransform.Transformation.TransformProductInfo | portfolio/lib/etl.py:192-211 | each product keeps its key and is cut to the six fields |
| EtlTransform.Transformation.TransformCashFlows | portfolio/lib/etl.py:216-251 | the cash flows are the grouped flows merged with the stored ones, or the cleaning error is raised and nothing changes |
| EtlTransform.Transformation.BuildPortfolio | portfolio/lib/etl.py:254-330 | the portfolios are the unnested replay from the stored portfolio of the start day, and the combinations gain those rows' keys; an unknown product is KeyError with nothing changed |
| EtlTransform.Transformation.TransformPriceData | portfolio/lib/etl.py:351-372 | the prices are the melted forward-filled frame and the combinations gain its keys; an empty frame is IndexError |
| EtlTransform.Transformation.TransformSymbolDateCombs | portfolio/lib/etl.py:333-346 | the combinations already in the dimension table are dropped |
| EtlTransform.Transformation.Run | portfolio/lib/etl.py:376-385 | the run ends with the error of the first failing step in step order (a transaction cleaning error, a cash-flow cleaning error, KeyError for an unknown product, IndexError for an empty price frame) and succeeds exactly when none fails; a successful run leaves every output as the steps specify |
| EtlTransform.Transformation.RunFromCashFlows | portfolio/lib/etl.py:381-385 | once transactions and product info are cleaned: the cash-flow error, else KeyError, else IndexError, else success, and then every output as the steps specify |
| EtlTransform.Transformation.RunFromPortfolios | portfolio/lib/etl.py:382-385 | once the cash flows are merged too: KeyError for an unknown product, else IndexError for an empty price frame, else success with the portfolios, prices and new combinations as the steps specify |
| EtlTransform.Transformation.RunFromPrices | portfolio/lib/etl.py:383-385 | IndexError exactly for an empty price frame; otherwise the melted prices, and the combinations gain the price keys and lose the stored ones |
| Ledger.DayTransactions | portfolio/lib/etl.py:279-280 | exactly the buys and sells of the given day |
| Ledger.DayQuantities | portfolio/lib/etl.py:288-302 | the day's quantities exist exactly when every product is known (else KeyError) and have one entry per symbol |
| Ledger.NettedDayTotal | portfolio/lib/etl.py:288-302 | under the netting rule each symbol's quantity is the sum of that day's quantities of the symbol |
| Ledger.NettedDaySymbols | portfolio/lib/etl.py:288-302 | under the netting rule a symbol has an entry exactly when the day trades it |
| Ledger.SkipRuleKeepsSoldPosition | portfolio/lib/etl.py:297-305 | a buy of x and a sell of x on one day leave x held under the as-written rule and nothing under netting |
| Ledger.SoldPositionKept | portfolio/lib/etl.py:297-305 | under the as-written rule a buy of x and a sell of x on one day total x, so the position stays held |
| Ledger.SoldPositionDropped | portfolio/lib/etl.py:297-305 | under netting a buy of x and a sell of x on one day total 0, and Counter addition drops the position |
| Ledger.ThreeTrades | portfolio/lib/etl.py:297-299 | three same-day trades of one symbol total the running sum, each trade skipped exactly when the rule skips it |
| Ledger.SkipThenBuy | portfolio/lib/etl.py:297-299 | buy x, sell x, buy y gives x + y under the as-written rule |
| Ledger.BuyThenSkip | portfolio/lib/etl.py:297-299 | buy x, buy y, sell x gives y under the as-written rule |
| Ledger.SkipRuleOrderDependent | portfolio/lib/etl.py:297-299 | the as-written rule depends on the order of the same trades |
| Ledger.SkipRuleAgreesWithoutCancellation | portfolio/lib/etl.py:295-302 | when no trade cancels the running quantity, the as-written and netting rules agree |
| Ledger.NextHoldings | portfolio/lib/etl.py:278-308 | a day step can only fail with KeyError |
| Ledger.ReplayUntil | portfolio/lib/etl.py:276-310 | the replay records one portfolio per day, dated consecutively, and ends with the last day's holdings |
| Ledger.BuildPortfolios | portfolio/lib/etl.py:261-310 | from the start day to today inclusive, one portfolio per day; none when the start is today |
| Ledger.CarryForward | portfolio/lib/etl.py:283-286 | a day without trades repeats the previous day's holdings |
| Ledger.TradeDay | portfolio/lib/etl.py:288-308 | a trading day's holdings are the previous ones Counter-added to the day's quantities |
| Ledger.ReplayDistinct | portfolio/lib/etl.py:305 | every daily portfolio has one entry per symbol |
| Ledger.ReplayFails | portfolio/lib/etl.py:291 | the replay fails exactly when a trade in the range refers to an unknown product |
| Ledger.BuildFails | portfolio/lib/etl.py:291 | a failing replay fails the whole build with KeyError |
| Ledger.UnnestDay | portfolio/lib/etl.py:316-325 | one row per symbol of the day, with the day, the symbol and its pieces |
| Ledger.UnnestRows | portfolio/lib/etl.py:313-325 | a row is produced exactly when some day holds that symbol with those pieces |
| Holdings.CounterAdd | portfolio/lib/etl.py:305 | only positive counts remain |
| Holdings.CounterAddLookup | portfolio/lib/etl.py:305 | a symbol's count is the sum of both counts when positive, and the symbol is absent otherwise |
| Holdings.CounterAddDistinct | portfolio/lib/etl.py:305 | the sum has one entry per symbol |
| Holdings.CounterAddUntouched | portfolio/views.py:382 | a symbol absent from the day's quantities keeps its count when positive |
| Series.FfillPriceData | portfolio/lib/yf_api.py:50-60 | the filled frame covers every day from the first to the last index day, and each cell is the last known value of its column up to that day; an empty frame is IndexError |
| Series.FillColumn | portfolio/lib/yf_api.py:57-60 | one value per day of the range, each the column's last known value |
| Series.LastKnownAtRow | portfolio/lib/yf_api.py:54-60 | a day with a value keeps it |
| Series.LastKnownGap | portfolio/lib/yf_api.py:54-60 | a day without a value takes the latest earlier value |
| Series.LastKnownBeforeFirst | portfolio/lib/yf_api.py:54-60 | nothing is known before the first index day |
| Series.MeltRows | portfolio/lib/etl.py:362-364 | a long row is produced exactly when some column has that price on that day |
| DateFormats.IsoDateString | portfolio/lib/yf_api.py:12-24 | a date becomes its ISO text; a text is accepted exactly when it parses as an ISO date and is then kept; anything else is ValueError |
| DateFormats.ParseIsoFormatIso | portfolio/lib/yf_api.py:12-24 | parsing the ISO text of a date gives the date back |
| DateFormats.IsoDateStringIdempotent | portfolio/lib/yf_api.py:12-24 | converting an already converted value changes nothing |
| DateFormats.DmyDateString | portfolio/lib/degiro_api.py:314-322 | the same for the day/month/year text |
| DateFormats.ParseDmyFormatDmy | portfolio/lib/degiro_api.py:314-322 | parsing the day/month/year text of a date gives the date back |
| DateFormats.DmyDateStringIdempotent | portfolio/lib/degiro_api.py:314-322 | converting an already converted value changes nothing |
| DateFormats.FirstIsoMatch | portfolio/lib/etl.py:175 | the first position where the date pattern matches, and no earlier one |
| DateFormats.ParseTimestamp | portfolio/lib/degiro_api.py:239 | a parsed timestamp's date is an ISO date prefix of the text |
| DateFormats.OffsetField | portfolio/lib/degiro_api.py:239 | `%z` as Python 3.7 and later read it: `Z`, or a signed offset below a day, in seconds with a fraction below a second of the same sign; colons used both times or neither |
| DateFormats.CompactOffset | portfolio/lib/degiro_api.py:239 | a colon-free `%z` reads as a signed offset below a day and a fraction below a second, both of one sign |
| DateFormats.OffsetColonsAgree | portfolio/lib/degiro_api.py:237-239 | an offset written with its colons reads the same as without them |
| Calendar.DateRange | portfolio/lib/utils.py:4-11 | the consecutive days from the start to the end inclusive |
| Calendar.DateRangeMembers | degiro/portfolio/lib/helpers.py:16-18 | a day is in the range exactly when it lies between the bounds |
| Managers.LatestDate | portfolio/managers.py:16-22 | None exactly for an empty table, else the latest date of the table |
| Managers.PortfolioAt | portfolio/lib/etl.py:267-271 | exactly the depot rows of the given day |
| Managers.LatestPortfolio | portfolio/managers.py:7-14 | exactly the depot rows of the latest date; none for an empty depot |
| Managers.LatestPortfolioNewest | portfolio/managers.py:11-14 | no depot row is newer than the latest portfolio |
| Managers.LatestPortfolioNonEmpty | portfolio/managers.py:11-14 | a non-empty depot has a non-empty latest portfolio |
| Orm.GetOk | portfolio/views.py:413-416 | `get` returns a row exactly when it is the only row matching the filter |
| Orm.GetMissing | portfolio/views.py:413-416 | `get` raises DoesNotExist exactly when no row matches |
| Orm.GetMultiple | portfolio/views.py:413-416 | `get` raises MultipleObjectsReturned exactly when two rows match |
| Store.DimKeys | portfolio/models.py:15-18 | the (symbol, date) keys are exactly those of the dimension rows |
| Store.FindDimNone | portfolio/models.py:15-18 | a key has no dimension row exactly when it is not among the keys |
| Store.FindDimUnique | portfolio/models.py:15-18 | under the unique constraint the lookup finds the one row of that key |
| Store.AppendDims | portfolio/models.py:15-18 | appending fresh combinations keeps keys and ids unique and adds exactly those keys |
| Store.DimsFKKept | portfolio/models.py:23 | appending dimension rows keeps every depot and price reference valid |
| Store.Database.constructor | portfolio/models.py:9-54 | all tables start empty and the schema invariant holds |
| Store.Database.BulkCreateDims | portfolio/lib/etl.py:453-458 | inserting combinations succeeds exactly when none is already stored; it then adds exactly those keys with fresh ids, and otherwise IntegrityError with nothing changed |
| Store.Database.BulkCreateDepot | portfolio/lib/etl.py:502-510 | depot rows are appended exactly when each carries an id of a dimension row; a row without an id (NaN) is ValueError, otherwise an unknown id is IntegrityError, and nothing changes on either error |
| Store.Database.BulkCreatePrices | portfolio/lib/etl.py:489-497 | price rows are appended exactly when each carries an id of a dimension row; a row without an id (NaN) is ValueError, otherwise an unknown id is IntegrityError, and nothing changes on either error |
| Store.Database.BulkCreateTransactions | portfolio/lib/etl.py:411-416 | transactions are appended exactly when their ids are new and distinct (primary key), else IntegrityError with nothing changed |
| Store.Database.BulkCreateAssets | portfolio/lib/etl.py:421-426 | the assets are appended |
| Store.Database.BulkCreateCashflows | portfolio/lib/etl.py:444-445 | cash flows are appended exactly when their dates are new and distinct, else IntegrityError with nothing changed |
| Store.Database.UpdateOrCreateCashflow | portfolio/lib/etl.py:448-449 | the row of that date takes the amount, or a new row is appended |
| Store.Database.DeleteDim | portfolio/models.py:21-39 | deleting a dimension row cascades to exactly the depot and price rows that refer to it, and the schema invariant holds |
| Store.WithoutMembers | portfolio/models.py:9-18 | the remaining dimension rows are exactly the old ones with another id |
| Store.DepotWithoutMembers | portfolio/models.py:23 | the cascade keeps exactly the depot rows that do not reference the deleted row |
| Store.PricesWithoutMembers | portfolio/models.py:39 | the cascade keeps exactly the price rows that do not reference the deleted row |
| Store.DeleteKeepsRefs | portfolio/models.py:23-39 | after the cascade, every remaining reference is still valid and keys stay unique |
| Store.UpsertHit | portfolio/lib/etl.py:448-449 | after an upsert the date holds the new amount |
| Store.UpsertMiss | portfolio/lib/etl.py:448-449 | an upsert changes no other date |
| Store.UpsertAllLookup | portfolio/lib/etl.py:448-449 | after the update loop each date holds the last amount given for it, or keeps its stored one |
| Store.AppendedLookup | portfolio/lib/etl.py:444-445 | after the bulk insert each date holds the last amount given for it, or keeps its stored one |
| EtlLoad.LoadingKeysChecked | portfolio/lib/etl.py:396-406 | the loader accepts its input exactly when all six keys are present, else AssertionError |
| EtlLoad.SplitPartitions | portfolio/lib/etl.py:437-441 | the cash flows split into new dates and stored dates, with nothing lost or duplicated |
| EtlLoad.LoadedCashflowsLookup | portfolio/lib/etl.py:437-449 | after loading, each date holds the latest new amount for it, or keeps its stored one |
| EtlLoad.LoadedCashflowsDict | portfolio/lib/etl.py:437-449 | for cash flows with distinct dates, each given date holds its new amount |
| EtlLoad.NewFlowsFresh | portfolio/lib/etl.py:440-445 | the new partition can be bulk-inserted without breaking date uniqueness |
| EtlLoad.ExistingDims | portfolio/lib/etl.py:474-478 | the dimension rows fetched are exactly those matching a symbol and a date of the records |
| EtlLoad.PrepAt | portfolio/lib/etl.py:463-486 | each record keeps its value and refers to the dimension row of its (symbol, date), when there is one |
| EtlLoad.PrepResolved | portfolio/lib/etl.py:463-486 | when every key has a dimension row, every prepared record refers to one |
| EtlLoad.PrepKeyed | portfolio/lib/etl.py:480-486 | the left merge gives every record an id exactly when every record's (symbol, date) is stored, and those ids are of stored rows |
| EtlLoad.Loading.constructor | portfolio/lib/etl.py:396-406 | the loader keeps its data and its database |
| EtlLoad.Loading.LoadTransactions | portfolio/lib/etl.py:411-416 | the transactions are appended, or IntegrityError with nothing changed |
| EtlLoad.Loading.LoadProductInfo | portfolio/lib/etl.py:421-426 | every product becomes an asset row |
| EtlLoad.Loading.LoadCashFlows | portfolio/lib/etl.py:430-449 | the cash-flow table becomes the loaded cash flows, or IntegrityError with nothing changed |
| EtlLoad.Loading.UpdateCashFlows | portfolio/lib/etl.py:447-449 | the update loop upserts each stored-date flow |
| EtlLoad.Loading.LoadSymbolDateCombs | portfolio/lib/etl.py:453-458 | the dimension keys gain exactly the new combinations, or IntegrityError with nothing changed |
| EtlLoad.Loading.LoadPriceData | portfolio/lib/etl.py:489-497 | succeeds exactly when every price record's (symbol, date) is stored; then one price row per record, appended, with its price and its pair's dimension row; otherwise ValueError with nothing changed |
| EtlLoad.Loading.LoadPortfolios | portfolio/lib/etl.py:502-510 | succeeds exactly when every portfolio record's (symbol, date) is stored; then one depot row per record, appended, with its pieces and its pair's dimension row; otherwise ValueError with nothing changed |
| EtlLoad.Loading.Run | portfolio/lib/etl.py:514-523 | IntegrityError from the first of transactions, new cash-flow dates and new pairs that repeats a key, then ValueError when a price or depot record's pair is neither stored nor new, else success; a successful run appends the transactions and assets, loads the cash flows, adds exactly the new pairs and appends one price and one depot row per record |
| Aggregation.CumulativeCashflowAt | portfolio/lib/aggregation.py:18-35 | each day from the first cash flow on holds the sum of all flows up to that day |
| Aggregation.CumulativeCashflow | portfolio/lib/aggregation.py:21-26 | one value per day from the first to the last flow; none without flows |
| Aggregation.ValueSeriesAt | portfolio/lib/aggregation.py:48-61 | each day holds the value of the latest row not after it |
| Aggregation.ValueSeriesPresent | portfolio/lib/aggregation.py:55-61 | every day of the range has a value |
| Aggregation.PerformanceSeries | portfolio/lib/aggregation.py:80-81 | without cash flows the series is empty, else it has one entry per value day |
| Aggregation.PerformanceAt | portfolio/lib/aggregation.py:84-87 | inside the cash-flow range a day's performance is its value over the cumulative cash flow up to that day |
| Aggregation.PerformanceBeforeCash | portfolio/lib/aggregation.py:84-87 | a day before the first cash flow has no performance |
| Aggregation.PerformanceAfterCash | portfolio/lib/aggregation.py:84 | when the value series starts after the cash-flow range, no day has a performance |
| Aggregation.Ratio | portfolio/lib/aggregation.py:87 | the ratio exists exactly when both sides exist and the divisor is not zero |
| Aggregation.PreviousBusinessDay | portfolio/lib/aggregation.py:96 | the latest weekday strictly before today |
| Aggregation.Allocation | portfolio/lib/aggregation.py:111-113 | each position keeps its symbol and subtotal, and has an allocation exactly when the total is not zero |
| Aggregation.AllocationsSumToOne | portfolio/lib/aggregation.py:111-113 | for a non-zero total the allocations sum to one |
| DegiroApi.Chunks | portfolio/lib/degiro_api.py:304 | ceil(n / 10) chunks, each non-empty and at most 10 ids |
| DegiroApi.ChunksConcat | portfolio/lib/degiro_api.py:304 | the chunks concatenate back to the ids |
| DegiroApi.ChunksFull | portfolio/lib/degiro_api.py:304 | every chunk but the last holds exactly 10 ids |
| DegiroApi.GetProductsById | portfolio/lib/degiro_api.py:297-311 | the loop merges the answers of all chunks in order |
| DegiroApi.MergeAllHasKey | portfolio/lib/degiro_api.py:308-309 | a product is in the result exactly when some answer has it |
| DegiroApi.MergeAllLast | portfolio/lib/degiro_api.py:308-309 | a product takes the value of the last answer that has it |
| DegiroApi.FundFields | portfolio/lib/degiro_api.py:141-149 | a fund entry has distinct keys and no currency code; a field without a value is KeyError |
| DegiroApi.FundFieldsErr | portfolio/lib/degiro_api.py:141-149 | a fund fails exactly when one of its fields has no value |
| DegiroApi.FundFieldsKey | portfolio/lib/degiro_api.py:144-147 | the fund's key is the value of its last currency-code field |
| DegiroApi.GetCashFunds | portfolio/lib/degiro_api.py:131-151 | the loop computes the cash funds, or the first error |
| DegiroApi.CashFundsErrPersists | portfolio/lib/degiro_api.py:141-149 | a failing fund fails the whole call |
| DegiroApi.OpenPositionsErr | portfolio/lib/degiro_api.py:162-172 | the positions fail with KeyError exactly when one has no size |
| DegiroApi.OpenPositionsKept | portfolio/lib/degiro_api.py:162-172 | exactly the open positions are kept |
| DegiroApi.Stripped | portfolio/lib/degiro_api.py:175-182 | a filed position loses its type and id and keeps every other field |
| DegiroApi.GroupPositionsErr | portfolio/lib/degiro_api.py:175-182 | grouping fails exactly when a position has no type or no id |
| DegiroApi.GroupPositionsLast | portfolio/lib/degiro_api.py:175-182 | each (type, id) is filed with the last position of that type and id |
| DegiroApi.WithProductGroup | portfolio/lib/degiro_api.py:175-182 | the result always has a PRODUCT group, and the other groups are unchanged |
| DegiroApi.GetPortfolio | portfolio/lib/degiro_api.py:153-182 | the method computes the grouped open positions |
| DegiroApi.DropLastColonAppend | portfolio/lib/degiro_api.py:238 | `rsplit(':', 1)` joined back removes exactly the last colon |
| DegiroApi.TimestampRoundTrip | portfolio/lib/degiro_api.py:238-239 | a broker timestamp, with its offset colon removed, parses back to itself |
| DegiroApi.IsoformatParses | portfolio/lib/degiro_api.py:239 | the broker timestamp parses back to itself even with its offset colon left in |
| DegiroApi.CleanMovement | portfolio/lib/degiro_api.py:236-249 | a movement is cleaned exactly when it has a parseable date, a currency, a description and a type; a bad date is ValueError, a missing field KeyError; the optional fields are carried over |
| DegiroApi.CleanMovementKeeps | portfolio/lib/degiro_api.py:238-249 | a well-formed broker timestamp is read back as the same instant |
| DegiroApi.GetAccountMovements | portfolio/lib/degiro_api.py:204-251 | bad dates are ValueError; a failed request or an answer without `cashMovements` gives no movements; a successful answer without `data` is KeyError; otherwise every movement is cleaned, or the first error |
| DegiroApi.CleanMovements | portfolio/lib/degiro_api.py:234-250 | the loop cleans every movement in order, or returns the first error |
| DegiroApi.GetTransactions | portfolio/lib/degiro_api.py:253-274 | bad dates are ValueError; a failed request gives no transactions; a successful one without data is KeyError |
| DegiroHelpers.GetInfoByProductId | portfolio/lib/degiro_helpers.py:34-47 | the loop collects the answers of all 10-id chunks in order |
| DegiroHelpers.GetCashflows | portfolio/lib/degiro_helpers.py:50-65 | with the per-day grouping evidently intended (see Findings): fails exactly when there are no movements or no movement has a change |
| DegiroHelpers.GetCashflowsAscending | portfolio/lib/degiro_helpers.py:58-60 | with the per-day grouping: the cash flows are ordered by day |
| DegiroHelpers.GetCashflowsOn | portfolio/lib/degiro_helpers.py:58-62 | with the per-day grouping: a day holds minus the sum of that day's transaction changes; days without one are absent |
| DegiroHelpers.GetCashflowsEmpty | portfolio/lib/degiro_helpers.py:58-60 | there are no cash flows exactly when no movement is a transaction |
| DegiroHelpers.Trunc | portfolio/lib/degiro_helpers.py:22 | `int()` truncates toward zero |
| DegiroHelpers.PortfolioData | portfolio/lib/degiro_helpers.py:13-31 | one row per product |
| DegiroHelpers.PortfolioDataAllocations | portfolio/lib/degiro_helpers.py:18-25 | the allocations sum to the positions' total over the equity |
| CashflowRefresh.LastCumsum | portfolio/views.py:469-474 | an empty table starts from the default day with a zero sum; the only possible error is MultipleObjectsReturned |
| CashflowRefresh.LastCumsumLatest | portfolio/views.py:469-474 | with unique dates, the row of the latest date and its cumulative sum |
| CashflowRefresh.LastCumsumDuplicate | portfolio/views.py:469-474 | fails exactly when the latest date is stored twice |
| CashflowRefresh.CumulatedAt | portfolio/views.py:483 | each row's cumulative sum is the stored total plus every flow up to that row |
| CashflowRefresh.FirstRowOffsetDrops | portfolio/views.py:484 | as written, every row after the first loses the stored total |
| CashflowRefresh.UploadRowsAt | portfolio/views.py:486-488 | each day of the range gets the latest flow's amount and the corrected cumulative sum up to it (stored total plus every new flow so far) |
| CashflowRefresh.CashflowUpload | portfolio/views.py:465-490 | the corrected refresh can only fail with MultipleObjectsReturned, AttributeError or TypeError |
| CashflowRefresh.CashflowUploadAsWritten | portfolio/views.py:465-490 | as written, a refresh never appends rows |
| CashflowRefresh.AsWrittenRefreshFails | portfolio/lib/degiro_helpers.py:59 | as written, the refresh fails with TypeError exactly where the corrected one appends rows, and otherwise ends as it does |
| CashflowRefresh.UploadAfterAsWrittenFails | portfolio/views.py:477-486 | the same once the stored date and total are known |
| CashflowRefresh.CashflowUploadNoMovements | portfolio/views.py:477-480 | no new movements is AttributeError |
| CashflowRefresh.CashflowUploadFresh | portfolio/views.py:465-490 | the upload keeps the dates of the table unique |
| DepotPrices.StoredPriceFound | portfolio/views.py:413-416 | a single stored price for the key is returned |
| DepotPrices.StoredPriceMissing | portfolio/views.py:413-416 | a missing price is 0 |
| DepotPrices.StoredPriceDuplicate | portfolio/views.py:413-416 | two stored prices for the key are MultipleObjectsReturned |
| DepotPrices.RepriceKeepsKeys | portfolio/views.py:407-421 | repricing keeps every row's key and can only fail with MultipleObjectsReturned |
| DepotPrices.RefreshPrices | portfolio/views.py:407-421 | every unpriced row takes its stored price and every other row is unchanged |
| DepotPrices.Without | portfolio/views.py:439-442 | exactly the symbols not yet priced, without duplicates |
| DepotPrices.PricePlanNone | portfolio/views.py:426-449 | nothing is downloaded exactly when both tables are empty |
| DepotPrices.PricePlanSymbols | portfolio/views.py:426-442 | the symbols to download are the depot symbols without any price |
| DepotPrices.PricePlanStart | portfolio/views.py:426-445 | unpriced symbols are downloaded from the depot start; otherwise from the day after the latest price |
| DepotPrices.NewPrices | portfolio/views.py:444-460 | no plan, no new prices |
| DepotRefresh.LastPortfolio | portfolio/views.py:267-273 | the latest depot date and exactly its rows; the default start day for an empty depot |
| DepotRefresh.ExcludeExisting | degiro/portfolio/views.py:37-43 | exactly the transactions whose id is not stored yet |
| DepotRefresh.DayDeals | portfolio/views.py:334-336 | exactly the day's deals on the given side |
| DepotRefresh.Distinct | portfolio/views.py:345 | the product ids without duplicates |
| DepotRefresh.ReduceLast | portfolio/views.py:355-361 | a symbol takes the quantity of its last deal of the day |
| DepotRefresh.ReduceAbsent | portfolio/views.py:355-361 | a symbol without a deal is absent |
| DepotRefresh.BuysSkipped | portfolio/views.py:344-348 | an error answer for the buys skips them |
| DepotRefresh.DayQuiet | portfolio/views.py:344-348 | a day whose buys are skipped adds no rows and changes no holdings |
| DepotRefresh.QuietDays | portfolio/views.py:338-339 | days without deals change nothing |
| DepotRefresh.DayStepCounts | portfolio/views.py:382 | a symbol's new count is its clipped old count plus the buys, plus the sells, when positive |
| DepotRefresh.DayStepHoldings | portfolio/views.py:382 | the new holdings have distinct positive counts |
| DepotRefresh.UploadHeld | portfolio/views.py:320 | one row per held symbol, dated that day, with its pieces |
| DepotRefresh.AssembleRows | degiro/portfolio/views.py:73-146 | the appended rows lie in the processed range, hold positive pieces and no price yet |
| DepotRefresh.AssembleStops | portfolio/views.py:331-384 | after an error no further day changes anything |
| DepotRefresh.FilledKeepsDated | portfolio/views.py:289-309 | a day with rows keeps them |
| DepotRefresh.FilledOutside | portfolio/views.py:289-309 | days outside the depot's range are unchanged |
| DepotRefresh.FilledGap | degiro/portfolio/views.py:51-71 | a missing day copies the previous day's rows |
| DepotRefresh.FilledCovers | portfolio/views.py:289-309 | every day of the range has rows afterwards |
| PerformanceHistory.KeptMembers | portfolio/lib/helpers.py:21-26 | exactly the non-cash rows dated before the first unpriced row |
| PerformanceHistory.GapRowsMembers | portfolio/lib/helpers.py:32-43 | a gap day's rows are the saved rows, each priced at that day's price of its symbol |
| PerformanceHistory.ExtendedMembers | portfolio/lib/helpers.py:38-43 | the extended depot is the kept rows plus every gap day's rows |
| PerformanceHistory.ReturnsAt | portfolio/lib/helpers.py:49-51 | a day's return is its total over the latest cumulative cash flow |
| PerformanceHistory.ReturnsBeforeCash | portfolio/lib/helpers.py:49-51 | a day before any cash flow has no return |
| PerformanceHistory.CumsumOnRow | portfolio/lib/helpers.py:47-50 | a cash-flow date carries that row's cumulative sum |
| PerformanceHistory.ExtendedDepot | portfolio/lib/helpers.py:17-43 | the extended depot is non-empty; it fails only with AttributeError, IndexError or KeyError |
| PerformanceHistory.ExtendedKept | portfolio/lib/helpers.py:28-43 | the extended depot is non-empty; it fails only with IndexError or KeyError |
| PerformanceHistory.ExtendedOver | portfolio/lib/helpers.py:34-43 | the kept rows are never lost; a missing price is KeyError |
| PerformanceHistory.DailyTotals | portfolio/lib/helpers.py:45 | a non-empty depot has daily totals |
| PerformanceHistory.PerformanceTimeSeries | portfolio/lib/helpers.py:13-58 | a non-empty series whose reported latest day is its last day; errors are AttributeError, IndexError or KeyError |
| PerformanceHistory.UpToDateDepotFails | portfolio/lib/helpers.py:29-36 | when the kept depot already reaches yesterday, the empty price frame makes the call fail with KeyError |
| LegacyTables.RunningTotal | portfolio/views.py:483 | the loop computes the running cumulative sums |
| LegacyTables.Tables.constructor | portfolio/models.py:21-54 | all tables start empty |
| LegacyTables.Tables.UpdateTransactions | portfolio/views.py:283-287 | the new transactions are appended exactly when their ids are new and distinct (primary key), else IntegrityError with nothing changed; no other table changes |
| LegacyTables.Tables.AssemblePortfolio | degiro/portfolio/views.py:73-146 | without transactions nothing happens; otherwise the depot gains the assembled rows, and the first day's error is returned |
| LegacyTables.Tables.Replay | portfolio/views.py:331-384 | the loop appends each processed day's rows and stops at the first error |
| LegacyTables.Tables.ReplayDay | portfolio/views.py:333-384 | one loop iteration extends the replay by one day |
| LegacyTables.Tables.FillNonTransactionDates | portfolio/views.py:289-309 | an empty depot is DoesNotExist; otherwise the depot becomes its gap-filled version |
| LegacyTables.Tables.RefreshPriceData | portfolio/views.py:403-421 | the depot becomes its repriced version, or the first error is returned |
| LegacyTables.Tables.RepriceKey | portfolio/views.py:411-421 | one row key is repriced, or its error is returned with nothing changed |
| LegacyTables.Tables.UpdatePriceDatabase | portfolio/views.py:424-462 | the price table gains exactly the new prices of the plan |
| LegacyTables.Tables.RefreshCashflows | portfolio/views.py:465-490 | the cash-flow table gains the rows of the corrected refresh, or the error is returned with nothing changed |
| LegacyTables.Tables.RefreshFrom | portfolio/views.py:476-490 | once the stored total is looked up, the table gains the rows of the corrected refresh, or the lookup's or the refresh's error is returned with nothing changed |
| LegacyTables.Tables.UploadNew | portfolio/views.py:477-490 | the fetched flows are uploaded after the last stored row with the corrected running total, or the error is returned |
| LegacyTables.Tables.AppendUpload | portfolio/views.py:483-490 | the dense rows with the corrected running total are appended |
| LegacyTables.Tables.ExtendKept | portfolio/lib/helpers.py:28-43 | the method computes the extended kept depot |
| LegacyTables.Tables.ExtendOver | portfolio/lib/helpers.py:34-43 | the gap-filling loop computes the extended depot |
| LegacyTables.Tables.PerformanceTimeSeries | portfolio/lib/helpers.py:13-58 | the method computes the performance time series of the stored tables |
| LegacyHelpers.MeasureLoop | degiro/portfolio/lib/helpers.py:62-77 | the loop merges the measures in order |
| Assoc.MergeLookup | degiro/portfolio/lib/helpers.py:75 | after `{**a, **b}` a key takes b's value when b has it, else a's |

## Left out

- Extraction and network I/O are not modelled. The broker login, HTTP
  requests, Yahoo Finance downloads and the clock become parameters or
  values: `fetch`, `download`, `ffill`, `status`, `today`. The broker
  client's session handling and `get_portfolio_summary` are not modelled.
- `get_portfolio`'s per-product HTTP enrichment (portfolio/lib/degiro_api.py:184-200)
  is a network call and is not modelled. The model stops at the grouped positions.
- `performance_measures.py` (returns, volatility, Sharpe ratio, value at
  risk, drawdown) is floating-point statistics. `measure_loop` takes its
  results as values.
- Web views, forms, tables, the report, mail and the logger are
  presentation or I/O and are not modelled.
- Python `print` calls and log messages are not modelled.
- The body of `refresh_depot_data` is not modelled as one method
  (portfolio/views.py:388-399, degiro/portfolio/views.py:150-159). It only
  chains the steps, and each step is a member of `LegacyTables.Tables`.
- Floating point is not modelled: amounts and prices are `real`.
- DegiroHelpers.PortfolioData: `np.round` to 2 and 4 decimals is left out,
  because rounding decimal reals is presentation only. For the same reason
  the allocations are proved to sum exactly.
- Aggregation.Allocation: the final `.round(2)` and the merge with the
  product information (portfolio/lib/aggregation.py:116-119) are left out.
- PerformanceHistory.PerformanceTimeSeries: portfolio/lib/helpers.py uses
  names it never imports (`Prices`, `Cashflows`, `ObjectDoesNotExist`, and `D`
  in its `refresh_cashflows`). The model gives those names the meaning they
  have in portfolio/views.py.
- The legacy views read and write `Depot` rows with symbol, date, pieces
  and price columns, which neither models file declares in that form. The
  model uses the columns the views use.
- CashflowRefresh.UploadRows: writes the corrected running total
  `Cumulated(flows, last)` of the second Findings row, not the first-row
  offset of portfolio/views.py:483-484 (and portfolio/lib/helpers.py:79-80);
  `FirstRowOffset` and `FirstRowOffsetDrops` model the offset as written.
- CashflowRefresh.UploadRowsAt: states the corrected running total, for the same reason.
- CashflowRefresh.CashflowUpload: the corrected refresh, with the corrected
  running total and the per-day grouping of the third Findings row; as
  written the refresh never appends (`CashflowRefresh.CashflowUploadAsWritten`).
- CashflowRefresh.UploadFrom: the corrected refresh, as above.
- CashflowRefresh.UploadAfter: the corrected refresh, as above.
- LegacyTables.Tables.AppendUpload: appends the rows of the corrected refresh.
- LegacyTables.Tables.UploadNew: uploads the rows of the corrected refresh.
- LegacyTables.Tables.RefreshCashflows: appends the rows of the corrected refresh.
- LegacyTables.Tables.RefreshFrom: appends the rows of the corrected refresh.
- DegiroHelpers.GetCashflows: groups by calendar day, the corrected half of
  the third Findings row.
- DegiroHelpers.TransactionFlows: keys each transaction by its calendar day, as above.
- DegiroHelpers.GetCashflowsAscending: about the per-day grouping, as above.
- DegiroHelpers.GetCashflowsOn: about the per-day grouping, as above.
- EtlTransform.CleanTransaction: the extracted transaction is a typed
  record (`EtlTransform.RawTransaction`), so the KeyError of a missing field
  and the ValueError or TypeError of `float()` on a non-numeric field
  (portfolio/lib/etl.py:176-183) are not modelled; only the date can fail.
- EtlTransform.Transformation.TransformProductInfo: a product record
  (`EtlTransform.RawProduct`) always has its six fields, so the KeyError for a missing
  one (portfolio/lib/etl.py:202-207) is not modelled.
- EtlTransform.FlowOf: a `change` that is not a number is reported as
  TypeError at once. The source copies it (portfolio/lib/etl.py:221) and fails
  only when `+=` adds it to another flow of the day, or when it is stored;
  Python's dynamic types are not modelled.
- DateFormats: texts are ASCII. Python's `\d` and `int()` also accept other
  Unicode decimal digits, which the parsers reject.
- DateFormats.IsoDateString: accepts ASCII digits only, as above.
- DateFormats.DmyDateString: accepts ASCII digits only, as above.
- EtlTransform.FirstIsoDate: matches ASCII digits only, as above.
- DateFormats.DateArg: `_get_date_string` returns None for an argument that
  is neither a date nor a string (portfolio/lib/yf_api.py:12-24); the model's
  argument is always one of the two.
- Store.Database.Valid: `Cashflows.cumsum` is declared NOT NULL
  (portfolio/models.py:55), but the ETL writes `(date, cashflow)` rows through
  a `Cashflow` model that portfolio/models.py does not declare. The model
  follows the writes and leaves that constraint out.
- Series.FfillPriceData: the price index (`EtlTransform.ExtractionData.WellFormed`)
  is taken to be strictly increasing, as the market-data client returns it;
  the download itself is outside the model.
- PerformanceHistory.PerformanceTimeSeries: `.values[3]` of the last sorted
  depot row (portfolio/lib/helpers.py:28) is taken to be that row's date.
- Managers.PortfolioAt: portfolio/managers.py defines only
  `get_latest_portfolio` and `get_latest_date` (portfolio/managers.py:7-22), so
  the `get_portfolio_at_date` calls at portfolio/lib/etl.py:102,
  portfolio/lib/etl.py:267 and portfolio/lib/aggregation.py:97 raise
  AttributeError as written, and the `DimensionSymbolDateManager` that
  portfolio/models.py:3 imports is missing too. The model supplies the day
  filter those callers expect; `EtlTransform.Transformation.BuildPortfolio` and
  `Aggregation.Allocation` rest on it.
- DegiroHelpers.GetCashflows: a `change` that is not a number (a string, a
  boolean) is read as 0 (`DegiroHelpers.ChangeOf`). The pandas sum of
  portfolio/lib/degiro_helpers.py:60 skips only NaN: it concatenates or
  raises on strings and counts True as 1. Python's dynamic types are not
  modelled.
- DegiroHelpers.ChangeOf: reads a change that is not a number as 0, as above.
- DateFormats.OffsetField: `Z` is the only letter offset read. Where
  `_strptime`'s case-insensitive pattern lets a lower-case `z` through, Python
  fails on it with an IndexError rather than the ValueError the model gives.
- Set-to-list conversions, whose order Python leaves unspecified, are
  modelled as sets (symbol-date combinations) or as first-occurrence
  de-duplication (product ids).

## Findings

| source | as written | input that shows it | evidently intended | confidence | as-written member | corrected member |
|---|---|---|---|---|---|---|
| portfolio/lib/etl.py:297-299 | a same-day trade whose quantity is minus the running quantity of its symbol is skipped, not added | buy 5 then sell 5 of one symbol on one day: the day records +5 and the position stays held | net all of the day's quantities per symbol, so the position closes | not executed | Ledger.SkipRuleKeepsSoldPosition | Ledger.NettedDayTotal |
| portfolio/views.py:483-484 | the stored cumulative sum is added to the first new row only, so every later row lacks it | a stored cumulative sum of 100 and new flows 10, 20: the rows read 110 and 30 instead of 110 and 130 | every row carries the stored total plus the flows up to it | not executed | CashflowRefresh.FirstRowOffsetDrops | CashflowRefresh.CumulatedAt |
| portfolio/lib/degiro_helpers.py:59 with portfolio/views.py:486 | `df.date.apply(lambda x: x.date)` stores each timestamp's uncalled `date` method, so the frame is keyed by method objects and `daterange` cannot subtract them | any new TRANSACTION movement since the last stored day: the refresh raises TypeError and appends nothing | `x.date()`, grouping the movements by calendar day | not executed | CashflowRefresh.AsWrittenRefreshFails | DegiroHelpers.GetCashflowsOn |
