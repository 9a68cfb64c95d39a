# hyperliquid-stats: the daily cache pipeline, in Dafny

hyperliquid-stats publishes statistics about the Hyperliquid exchange. Every
day its pipeline script downloads the previous days' partitions of each data
source from an object store. It appends the raw rows of each partition to the
source's base table. It then reduces each partition to a per-day summary
("cache") table: trades per user, coin, side and time-in-force; net deposits
per user; liquidations; funding; account values; asset contexts; accrued fees;
the HLP vault's exposure per coin; and, from hourly order-book shards, median
liquidity, median slippage and mean mid price per coin. When a source is done,
the script compares the latest date of its cache table with that of its base
table and raises an alert if they differ. The web service serves these tables
to the dashboard. This project models the pipeline and three pieces of the
service: the running total of pnl, the query filters, and the percentage of
total users.

The modules follow the pipeline:

- `Calendar` and `Keys` hold dates as day numbers and the object keys built from them (`%Y%m%d`, `%Y-%m-%d`, hours, assets).
- `Records` holds the decoded partitions and the rows written to tables.
- `GroupBy` and `Stats` model pandas' group-by: group keys come out in ascending order; sums, means, medians, first, last and count are provided.
- `OrderBook` holds the per-snapshot liquidity, mid price and slippage walk.
- `Aggregate`, `Hlp` and `Market` are the per-source reductions.
- `Text` and `Routing` model the substring tests that send a file to its reduction and its cache table.
- `Tables` holds the SQL tables as a `Database` object, with `update_db_table`, `get_latest_date`, `DROP TABLE` and `market_data_exists`.
- `Pipeline` and `PipelineFacts` describe `process_file`, the per-date step, the date loop, one table's run and `main` as functions of the database state, with their properties.
- `Runner` executes the same loops as methods that update the `Database` in place. Each method is proved to reach exactly the state, and send exactly the alerts, that the `Pipeline` functions describe.
- `Dashboard` holds `calculate_cumulative_pnl` (an in-place sort of an array followed by a loop), `apply_filters` and the percentage of total users.

The model follows the code in these places:

- A date whose file fails sends a failure alert, and the loop goes on with the next date.
- Processed dates exclude the seed date, because of `dates[1:]`. With an empty cache this skips the first day of the 85-day window: 85 dates are processed, the oldest being today − 84.
- The closing max-date check has no exemption for market data. The `market_data` base table is never written, so the check alerts whenever the market-data cache has rows (`PipelineFacts.MarketAlwaysMismatch`).
- Market-data medians and means are taken per hourly shard of one asset, not per day. The market-data cache never clears a date (its name contains "market_data"), so each shard appends its own rows.
- The asset contexts of a day are fetched whenever the table name contains "hlp_positions". A missing context file is an error for that date.
- `group_count` in the trades cache is assigned by index alignment. Output row `j` gets the count of the five-column group of input row `j`, not of its own group (`Aggregate.TradesGroupCount`).

## Model

| member | source | states |
|---|---|---|
| Calendar.FromDay | scripts/main.py:122-128 | The calendar date of a day number is valid and converts back to the same day number |
| Calendar.CivilRoundTrip | scripts/main.py:122-128 | A valid calendar date survives conversion to a day number and back |
| Calendar.ToDayInjective | scripts/main.py:122-128 | Distinct valid dates have distinct day numbers, so `timedelta` arithmetic on day numbers is date arithmetic |
| Calendar.InRangeYear | scripts/main.py:425-430 | A day is representable by Python's `date` exactly when its year is at most 9999, so `%Y` prints four digits |
| Keys.Pad2 | scripts/main.py:455 | `%02d` gives two digits whose value is the number |
| Keys.Pad4 | scripts/main.py:455 | `%04d` gives four digits whose value is the number |
| Keys.Compact | scripts/main.py:455 | `strftime('%Y%m%d')` is eight digits |
| Keys.CompactRoundTrip | scripts/main.py:455 | Reading back the eight digits of a date gives the date |
| Keys.CompactInjective | scripts/main.py:455 | Distinct dates give distinct `%Y%m%d` texts |
| Keys.Iso | scripts/main.py:81 | `strftime('%Y-%m-%d')` is ten characters with dashes at 4 and 7, and it is the compact form with the dashes added |
| Keys.IsoInjective | scripts/main.py:81 | Distinct dates give distinct ISO texts |
| Keys.FileKey | scripts/main.py:455 | A daily key is the folder name plus 17 characters |
| Keys.FileKeyInjective | scripts/main.py:455 | A daily key determines both its folder and its date |
| Keys.HlpAssetCtxsKeyDistinct | scripts/main.py:386-388 | The asset-contexts key fetched for hlp_positions is never the hlp_positions file's own key |
| Keys.HourText | scripts/main.py:445 | `str(hour)` has no padding: one digit below 10, two otherwise, with the hour's value |
| Keys.ShardKeyParts | scripts/main.py:445 | Where the date, the hour and the asset sit inside a shard key |
| Keys.ShardKeyInjective | scripts/main.py:445 | A shard key determines the date, the hour and the asset |
| Stats.Min | scripts/main.py:212-221 | The minimum is an element of the column and at most every element |
| Stats.Max | scripts/main.py:212-221 | The maximum is an element of the column and at least every element |
| Stats.Mean | scripts/main.py:220 | The mean of a non-empty column lies between its minimum and its maximum |
| Stats.Sort | scripts/main.py:212-219 | The sorted order is sorted and is a permutation of the column |
| Stats.Median | scripts/main.py:212-219 | The median of a non-empty column lies between its minimum and its maximum |
| Stats.SortedUnique | scripts/main.py:212-219 | Two sorted sequences with the same elements are equal |
| Stats.MedianOrderFree | scripts/main.py:212-219 | The median depends only on the multiset of values, not on row order |
| GroupBy.Distinct | scripts/main.py:267-268 | The distinct values are duplicate-free, and hold exactly the values of the input |
| GroupBy.Column | scripts/main.py:268 | A column has one entry per row, the field of that row |
| GroupBy.KeysOf | scripts/main.py:267 | Every row's key is present once, and every present key comes from some row |
| GroupBy.Where | scripts/main.py:267 | A group's rows all have its key, come from the input, and include every input row with that key |
| GroupBy.WhereCount | scripts/main.py:267 | A group holds each row of its key exactly as often as the table does, and no row of another key |
| GroupBy.WhereAll | scripts/main.py:267 | When every row has key `k`, group `k` is the whole table |
| GroupBy.GroupNotEmpty | scripts/main.py:267 | A key that occurs has a non-empty group |
| GroupBy.GroupSumsConserve | scripts/main.py:268 | The group sums over the keys present add up to the column total |
| GroupBy.SumConserved | scripts/main.py:268 | An output column holding per-group sums adds up to the input column's total |
| GroupBy.GroupMean | scripts/main.py:268 | A group's mean lies between the group's minimum and maximum |
| GroupBy.GroupMedian | scripts/main.py:213-219 | A group's median lies between the group's minimum and maximum |
| GroupBy.FirstIndex | scripts/main.py:347 | `first` picks the earliest row of the group |
| GroupBy.LastIndex | scripts/main.py:324 | `last` picks the latest row of the group |
| GroupBy.Count | scripts/main.py:282-284 | `transform("count")` is the group's size |
| GroupBy.StrLessTransitive | scripts/main.py:267 | Python's string order is transitive (it is also irreflexive and total) |
| GroupBy.KeyLessTotal | scripts/main.py:267 | The lexicographic order on key tuples is total on distinct keys |
| GroupBy.InsertKey | scripts/main.py:267 | Inserting a new key keeps the keys ascending, with exactly the old keys and the new one |
| GroupBy.SortKeys | scripts/main.py:267 | The sorted keys are ascending and hold exactly the input keys |
| GroupBy.GroupKeys | scripts/main.py:267-268 | Group keys come out ascending and once each; every row's key is listed and every listed key occurs |
| GroupBy.OneGroup | scripts/main.py:267 | A table whose rows all share a key has exactly that one group |
| OrderBook.Notional | scripts/main.py:142 | A level's notional (price times size) is positive |
| OrderBook.Depth | scripts/main.py:185-189 | A ladder's total notional is non-negative |
| OrderBook.LevelsRead | scripts/main.py:141-165 | The walk reads at most the whole ladder and, on a non-empty ladder, at least one level |
| OrderBook.TakeWholeLevel | scripts/main.py:159-165 | A level that does not complete the fill is consumed whole and contributes its notional share of its price |
| OrderBook.TakeLastLevel | scripts/main.py:144-157 | The level that completes the fill contributes only the remaining share of its price, and the walk stops |
| OrderBook.CalculateSlippage | scripts/main.py:131-172 | The loop computes the walk's slippage: `abs(avg/mid - 1)` when filled, the sentinel 1 otherwise; never negative |
| OrderBook.FillsIffDeepEnough | scripts/main.py:144 | The walk fills exactly when the ladder's total notional reaches the target (`>=`) |
| OrderBook.ShallowLadderIsUnfilled | scripts/main.py:167-170 | A target deeper than the ladder gives slippage 1; a ladder exactly as deep fills |
| OrderBook.FillBetween | scripts/main.py:141-165 | When every price read lies in [lo, hi], the walk's weighted price lies between the shares of lo and hi |
| OrderBook.AverageWithinConsumedPrices | scripts/main.py:141-168 | The average fill price lies between the lowest and highest consumed ask prices |
| OrderBook.LaterLevelsUnread | scripts/main.py:157 | The `break` means levels after the completing one never affect the result |
| OrderBook.BestLevelCovers | scripts/main.py:144-157 | When the best ask covers the target, the average price is that ask's price and one level is read |
| OrderBook.Liquidity | scripts/main.py:185-189 | Liquidity is at least the notional of each side of the book |
| OrderBook.Mid | scripts/main.py:199-203 | The mid is positive, and lies between best bid and best ask when they are not crossed |
| OrderBook.SlippageCurve | scripts/main.py:205-210 | One slippage per configured notional tier, each the walk's slippage for that tier |
| Records.RecordsOf | scripts/main.py:66-73 | Record `i` of a partition is row `i` of its file, for every kind of file; a market-data shard has none |
| Aggregate.TradesGroup | scripts/main.py:262-288 | One trades group's summary has that group's key, the date, and its mean price, total size and volumes |
| Aggregate.AggregateTrades | scripts/main.py:262-288 | One output row per group, in ascending key order, each dated the processing date |
| Aggregate.TradesRow | scripts/main.py:262-288 | Output row `j` is group `j` of the ascending keys, dated the processing date |
| Aggregate.TradesValues | scripts/main.py:267-287 | Each output row holds the mean price, total size, `usd_volume = mean_px * sum_sz` and the liquidation volume of its group |
| Aggregate.TradesGroupCount | scripts/main.py:282-284 | `group_count` of output row `j` is the size of the five-column group of input row `j` (index alignment) |
| Aggregate.TradesGroupsCovered | scripts/main.py:267-268 | Every trade's group has exactly one output row |
| Aggregate.TradesSizeConserved | scripts/main.py:268 | The `sum_sz` column adds up to the total traded size |
| Aggregate.TifDefaults | scripts/main.py:263-265 | Every `tif` is some trade's defaulted time-in-force; without the column everything is "Gtc" |
| Aggregate.PairSums | scripts/main.py:268 | The sum of a column over a two-row group is the sum of its two values, computed directly or through the column |
| Aggregate.TradesExample | scripts/main.py:262-288 | Two trades at 10 and 20 of size 2: mean price 15, size 4, volume 60, count 2 |
| Aggregate.LedgerGroup | scripts/main.py:290-294 | A user's summary is the sum of that user's deltas |
| Aggregate.AggregateLedger | scripts/main.py:290-294 | One row per user, in ascending order, each holding that user's delta sum |
| Aggregate.LedgerConserved | scripts/main.py:290-294 | The per-user sums add up to the day's total delta |
| Aggregate.LiquidationsGroup | scripts/main.py:296-309 | A (user, leverage type) summary holds the group's sums of both columns |
| Aggregate.AggregateLiquidations | scripts/main.py:296-309 | One row per (user, leverage type), in ascending order, each holding its group's sums |
| Aggregate.LiquidationsConserved | scripts/main.py:296-309 | Both liquidation columns are conserved across the grouping |
| Aggregate.FundingGroup | scripts/main.py:311-319 | A coin's summary holds its funding and premium sums |
| Aggregate.AggregateFunding | scripts/main.py:311-319 | One row per coin, in ascending order, with its sums |
| Aggregate.FundingConserved | scripts/main.py:311-319 | Funding and premium totals are conserved |
| Aggregate.AggregateAccountValues | scripts/main.py:321-335 | One row per (user, is_vault), in ascending order, holding the values of the group's last row |
| Aggregate.CtxGroup | scripts/main.py:337-372 | A coin's context summary: the funding sum; each of the eight averaged columns is the mean of that column over the coin's rows (the oracle price mean lies between their least and greatest); the last row's volume and oracle price; the first row's oracle price |
| Aggregate.AggregateAssetCtxs | scripts/main.py:337-372 | One row per coin, in ascending order; row `j` is the context summary of the `j`-th coin |
| Aggregate.AssetCtxsFundingConserved | scripts/main.py:341-342 | The funding column is conserved |
| Aggregate.PassFees | scripts/main.py:374-376 | The fee rows pass through in order, unchanged except that their time becomes the date |
| Hlp.Exposures | scripts/main.py:240-244 | Valuation succeeds exactly when every matched coin is a column of the position row; each value is size times oracle price; `ntl_abs` is `abs(ntl)` |
| Hlp.MatchesOf | scripts/main.py:235-238 | The context rows joined to a position row are those with its timestamp: empty exactly when none has it |
| Hlp.JoinRows | scripts/main.py:235-244 | The right join followed by the valuation, row by row, keeps `ntl_abs == abs(ntl)` on every row |
| Hlp.JoinRowsSucceedsIff | scripts/main.py:238-243 | The row-by-row valuation succeeds exactly when every position row is joinable |
| Hlp.Join | scripts/main.py:235-244 | An empty positions file fails (the zero-row `apply` cannot be stored in `ntl`); otherwise as the row-by-row valuation, with `ntl_abs == abs(ntl)` on every row |
| Hlp.JoinableIff | scripts/main.py:238-241 | A position row is joinable exactly when it has context rows and the valuation of them succeeds |
| Hlp.JoinSucceedsIff | scripts/main.py:238-244 | The join succeeds exactly when the positions file has a row and every position row is joinable |
| Hlp.HlpGroup | scripts/main.py:247 | A coin's summary holds the means of `ntl` and `ntl_abs` over its rows |
| Hlp.AggregateHlp | scripts/main.py:226-250 | The HLP reduction succeeds exactly when the join does, so it fails on an empty positions file; one row per coin, ascending, dated the processing date; row `j` is the summary of the `j`-th coin's joined rows |
| Hlp.NetWithinGross | scripts/main.py:242-243 | Over consistent rows, the net sum is bounded in size by the gross sum |
| Hlp.MeanNetWithinGross | scripts/main.py:247 | A coin's mean net notional never exceeds its mean absolute notional in size |
| Hlp.HlpNetWithinGross | scripts/main.py:226-250 | Every row of the HLP cache has `abs(ntl) <= ntl_abs` |
| Market.MarketGroup | scripts/main.py:212-221 | A coin's summary: median liquidity, mean mid price, and one median slippage per tier |
| Market.AggregateMarket | scripts/main.py:175-223 | A shard aggregates exactly when it is non-empty and every snapshot has both sides; one row per coin, ascending |
| Market.MarketRows | scripts/main.py:212-222 | One row per coin, in ascending key order, dated the processing date; row `j` is the market summary of the `j`-th coin |
| Market.MarketRow | scripts/main.py:212-222 | Output row `j` is the market summary of group `j`'s key, dated the processing date |
| Market.MedianAtLeast | scripts/main.py:213-219 | A group whose values are all at least `lo` has median at least `lo` |
| Market.MeanAbove | scripts/main.py:220 | A group whose values are all above `lo` has mean above `lo` |
| Market.MarketGroupBounds | scripts/main.py:212-221 | Median liquidity and median slippages are non-negative; the mean mid price is positive |
| Market.MidMeanPositive | scripts/main.py:199-203 | A coin whose snapshots are all two-sided has a positive mean mid price |
| Market.SlippageMedianNonNegative | scripts/main.py:213-219 | A coin's median slippage at any tier is non-negative |
| Market.MarketBounds | scripts/main.py:175-223 | Every row of a shard's cache output is in range |
| Market.UnfillableTier | scripts/main.py:167-170 | A tier that no snapshot of the coin can fill has median slippage exactly 1 |
| Text.ContainsIff | scripts/main.py:80 | Python's `w in s` holds exactly when `w` matches at some position of `s` |
| Text.AbsentChar | scripts/main.py:253-380 | A word with a character absent from the string does not occur in it |
| Text.BeforeSlash | scripts/main.py:253-380 | A slash-free word occurs in `stem/rest` exactly when it occurs in `stem`, given a character `rest` lacks |
| Words.LedgerLacksTrades | scripts/main.py:262 | "trades" does not occur in "ledger_updates" |
| Words.FeesLackTrades | scripts/main.py:262 | "trades" does not occur in "total_accrued_fees" |
| Routing.RouteFromFirst | scripts/main.py:253-380 | The `if`/`elif` chain picks the first branch whose word occurs, and picks none only when no word occurs |
| Routing.RouteFromPicks | scripts/main.py:253-380 | Conversely, the chain picks a branch whose word occurs when no earlier branch's word does |
| Routing.RouteFirst | scripts/main.py:253-380 | First match wins over the whole chain |
| Routing.CacheName | scripts/main.py:288-380 | Every cache table an aggregation writes has "cache" in its name |
| Routing.Mark | scripts/main.py:455 | Every branch word has a letter that no date suffix `{YYYYMMDD}.csv.lz4` holds |
| Routing.RouteIgnoresDate | scripts/main.py:253-380 | A daily key routes exactly as its folder name does |
| Routing.TradesFolder | scripts/main.py:17-27 | non_mm_trades' folder routes to the trades branch, whose cache is non_mm_trades_cache |
| Routing.LedgerFolder | scripts/main.py:17-27 | non_mm_ledger_updates' folder routes to the ledger branch and its own cache |
| Routing.LiquidationsFolder | scripts/main.py:17-27 | liquidations' folder routes to the liquidations branch and its own cache |
| Routing.FundingFolder | scripts/main.py:17-27 | funding's folder routes to the funding branch and its own cache |
| Routing.AccountValuesFolder | scripts/main.py:17-27 | account_values' folder routes to its branch and its own cache |
| Routing.AssetCtxsFolder | scripts/main.py:17-27 | asset_ctxs' folder routes to its branch and its own cache |
| Routing.MarketFolder | scripts/main.py:17-27 | market_data's folder routes to the market-data aggregation and its own cache |
| Routing.FeesFolder | scripts/main.py:17-27 | total_accrued_fees' folder routes to the fees branch and its own cache |
| Routing.HlpFolder | scripts/main.py:17-27 | hlp_positions' folder routes to the HLP branch and its own cache |
| Routing.TradesNamed | scripts/main.py:262 | A name containing "trades" and lacking 'k' routes to the trades branch |
| Routing.LedgerNamed | scripts/main.py:290 | A name containing "ledger_updates" and lacking 'k' and "trades" routes to the ledger branch |
| Routing.LiquidationsNamed | scripts/main.py:296 | A name containing "liquidations" and lacking 'k', 'r' and 'g' routes to the liquidations branch |
| Routing.FundingNamed | scripts/main.py:311 | A name containing "funding" and lacking the letters of earlier words routes to the funding branch |
| Routing.AccountValuesNamed | scripts/main.py:321 | A name containing "account_values" and lacking the earlier words' letters routes to its branch |
| Routing.AssetCtxsNamed | scripts/main.py:337 | A name containing "asset_ctxs" and lacking the earlier words' letters routes to its branch |
| Routing.FeesNamed | scripts/main.py:374 | A name containing "total_accrued_fees" that avoids the earlier words routes to the fees branch |
| Routing.HlpNamed | scripts/main.py:378 | A name containing "hlp_positions" that avoids the earlier words routes to the HLP branch |
| Routing.MarketNamed | scripts/main.py:438-453 | A name containing "market_data" routes to the market-data aggregation |
| Routing.TableRoute | scripts/main.py:424-456 | Every configured table's daily file is aggregated into that table's own cache, whatever the date |
| Routing.ShardRoute | scripts/main.py:445 | Every order-book shard key contains "market_data" and routes to the market-data aggregation |
| Routing.PlainTableName | scripts/main.py:17-27 | No configured table name contains "cache", so base tables are never date-cleared |
| Routing.NoK | scripts/main.py:17-27 | Every configured table except market_data lacks the letter 'k', so its cache clears the date |
| Tables.AtDate | scripts/main.py:83 | A date's slice holds only rows of that date |
| Tables.OffDate | scripts/main.py:83 | `DELETE ... where time = d` leaves only rows of other dates, and never more rows |
| Tables.SliceAfterDelete | scripts/main.py:83 | Deleting a date empties that date's slice and leaves every other date's slice unchanged |
| Tables.WrittenSlices | scripts/main.py:76-95 | A write gives the written date the new rows (after the old ones only where the table keeps them); other dates keep their rows plus any new ones of that date |
| Tables.ReloadIdempotent | scripts/main.py:76-95 | Writing the same day twice into a date-clearing table is the same as writing it once |
| Tables.OffDateTwice | scripts/main.py:83 | Deleting a date twice is deleting it once |
| Tables.AppendOnly | scripts/main.py:88-95 | A table that keeps dates only grows: old rows stay in front, and a repeated write appends again |
| Tables.CacheTableClears | scripts/main.py:80 | `{table}_cache` clears the date whenever the table's name lacks 'k' |
| Tables.MarketCacheKept | scripts/main.py:80 | The market-data cache never clears a date |
| Tables.MaxTime | scripts/main.py:98-105 | `max(time)` is None exactly for an empty or missing table; otherwise it is some row's date, and no row is later |
| Tables.EmptySlice | scripts/main.py:402-409 | A date's slice is empty exactly when no row has that date |
| Tables.NothingAfterMax | scripts/main.py:98-105 | No row is dated after the latest date |
| Tables.Database.UpdateDbTable | scripts/main.py:76-95 | Only the named table changes, becoming the old rows minus the date (if cleared) plus the new rows |
| Tables.Database.DropTable | scripts/main.py:412-414 | Only the named table is removed |
| Tables.Database.LatestDate | scripts/main.py:98-105 | None exactly for an empty or missing table; otherwise some row's date, with no row later |
| Tables.Database.MarketDataExists | scripts/main.py:402-409 | True exactly when some row of the market-data cache has the date |
| Pipeline.BaseRows | scripts/main.py:66-73 | The base rows are the file's records in file order |
| Pipeline.Wrap | scripts/main.py:288-380 | Each aggregated row becomes a cache row, in order |
| Pipeline.TradesCache | scripts/main.py:262-288 | The trades branch succeeds exactly on a trades file, and its rows carry the date |
| Pipeline.LedgerCache | scripts/main.py:290-294 | The ledger branch succeeds exactly on a ledger file, and its rows carry the date |
| Pipeline.LiquidationsCache | scripts/main.py:296-309 | The liquidations branch succeeds exactly on a liquidations file, and its rows carry the date |
| Pipeline.FundingCache | scripts/main.py:311-319 | The funding branch succeeds exactly on a file with coin, funding and premium columns (a funding or an asset_ctxs file), and its rows carry the date |
| Pipeline.FundingReadsCtxs | scripts/main.py:311-319 | On an asset_ctxs file the funding branch gives what it gives on the funding rows with the same coin, funding and premium |
| Pipeline.AccountValuesCache | scripts/main.py:321-335 | The account_values branch succeeds exactly on its file, and its rows carry the date |
| Pipeline.AssetCtxsCache | scripts/main.py:337-372 | The asset_ctxs branch succeeds exactly on its file, and its rows carry the date |
| Pipeline.FeesCache | scripts/main.py:374-376 | The fees branch succeeds exactly on a fees file, with one dated row per input row |
| Pipeline.HlpCache | scripts/main.py:378-380 | The HLP branch succeeds only with a positions file and the day's asset contexts; its rows carry the date |
| Pipeline.MarketCache | scripts/main.py:175-223 | A shard aggregates only if it is an order-book file; its rows carry the date |
| Pipeline.CacheRows | scripts/main.py:253-380 | Whatever the routed reduction produces is dated the processing date |
| Pipeline.CacheRowsStamps | scripts/main.py:253-380 | The pipeline's aggregation stamps every row with the file's date |
| Pipeline.HourShards | scripts/main.py:444-445 | One hour's keys: one per asset, in the asset map's order |
| Pipeline.DayShards | scripts/main.py:443-445 | A day has 24 × assets shard keys |
| Pipeline.Step | scripts/main.py:437-464 | Each date sends exactly one alert, about that date |
| Pipeline.RunDatesAlerts | scripts/main.py:436-464 | The date loop sends one alert per date, in date order |
| Pipeline.GenerateDates | scripts/main.py:122-128 | From the start to today inclusive, consecutive; none when the start is after today |
| Pipeline.DateText | scripts/main.py:467 | `str(None)[:10]` is "None" |
| Pipeline.AllKnownIff | scripts/main.py:423-424 | Every table of the list is in the file-name map |
| Pipeline.RunAll | scripts/main.py:417-471 | The run finishes without an exception exactly when every configured table is in the file-name map |
| PipelineFacts.ProcessedDates | scripts/main.py:425-436 | The processed dates are the days after the latest cached date up to today; with an empty cache, the 85 days after the seed |
| PipelineFacts.ProcessedWithin | scripts/main.py:425-436 | Every processed date is after the seed and no later than today |
| PipelineFacts.FailedIffRaised | scripts/main.py:454-464 | A date's alert is a failure exactly when processing its file raised |
| PipelineFacts.DateTextInjective | scripts/main.py:467 | Two max dates print the same ten characters exactly when they are equal |
| PipelineFacts.CheckIff | scripts/main.py:466-471 | The closing check alerts exactly when the cache has a max date and the base table's differs |
| PipelineFacts.NothingToProcessIff | scripts/main.py:432-435 | "Nothing to process" comes first exactly when the seed is after today |
| PipelineFacts.DailyFileSlices | scripts/main.py:383-399 | A successful daily file leaves exactly its aggregation as that date's cache slice; other dates are untouched; a failure leaves the cache unchanged |
| PipelineFacts.BaseGrowsOnFile | scripts/main.py:383-399 | Processing any file keeps a configured base table's old rows in front, in order |
| PipelineFacts.BaseGrowsOnShards | scripts/main.py:443-453 | A run of shards keeps a base table's old rows in front |
| PipelineFacts.BaseGrowsOnDates | scripts/main.py:436-464 | Within the date loop a base table only grows |
| PipelineFacts.BaseKeptWhenResuming | scripts/main.py:425-464 | A table whose cache has rows keeps its base table, which only grows |
| PipelineFacts.DayShardsMarket | scripts/main.py:445 | Every shard key of a day contains "market_data" |
| PipelineFacts.ShardWrites | scripts/main.py:383-399 | A shard leaves the market_data base table untouched and only appends to the market-data cache |
| PipelineFacts.ShardsWrite | scripts/main.py:443-453 | A run of shards leaves the base table untouched and only appends to the cache |
| PipelineFacts.MarketStepWrites | scripts/main.py:438-453 | A market-data date leaves the base table untouched and only appends to the cache |
| PipelineFacts.SliceOfPrefix | scripts/main.py:402-409 | A date's rows stay present when rows are appended |
| PipelineFacts.MarketDates | scripts/main.py:436-453 | The market-data loop appends only; every date already cached when the loop began is skipped with "already exists" |
| PipelineFacts.LastIsCheck | scripts/main.py:466-471 | The last alert is a mismatch exactly when the closing check alerts |
| PipelineFacts.MarketBaseStaysEmpty | scripts/main.py:66-68 | The market_data base table stays empty through its own run |
| PipelineFacts.RunTableEnds | scripts/main.py:417-471 | A table's run ends with a mismatch alert exactly when its closing check alerts |
| PipelineFacts.MarketAlwaysMismatch | scripts/main.py:466-471 | With an empty market_data base table, the run ends with a mismatch exactly when the market-data cache has rows |
| Runner.RunShardsAppend | scripts/main.py:443-453 | Running two shard lists in turn is running their concatenation |
| Runner.ProcessFileOn | scripts/main.py:383-399 | Executing `process_file` on the database gives exactly `ProcessFile`'s state and error |
| Runner.MarketHourOn | scripts/main.py:444-453 | The asset loop leaves exactly the state of running that hour's shards |
| Runner.MarketDayOn | scripts/main.py:443-453 | The hour loop leaves exactly the state of running the day's shards |
| Runner.StepOn | scripts/main.py:437-464 | One date's execution matches `Step` in state and alerts |
| Runner.RunDatesOn | scripts/main.py:436-464 | The date loop matches `RunDates` in state and alerts |
| Runner.RunTableOn | scripts/main.py:423-471 | One table's handling matches `RunTable` in state and alerts |
| Runner.RunAllNext | scripts/main.py:423-471 | After the first `i` tables succeed, table `i` extends the run by its own handling |
| Runner.RunAllUnknown | scripts/main.py:424 | An unknown table ends the run with its `KeyError`, keeping what came before |
| Runner.RunAllStops | scripts/main.py:424 | Once a table raises, later tables change nothing |
| Runner.RunAllOn | scripts/main.py:417-471 | `main` over the tables matches `RunAll` in state, alerts and exception |
| Runner.DailyRun | scripts/main.py:417-471 | The daily run with the pipeline's own reductions matches `RunAll` |
| Dashboard.InsertSorted | app.py:495 | Insertion keeps the data sorted by time and adds only the inserted entry |
| Dashboard.InsertAtTime | app.py:495 | An inserted entry goes after the entries of equal time (stability) |
| Dashboard.SortByTimeIsStable | app.py:495 | The sort orders by time, is a permutation, and keeps equal-time entries in input order |
| Dashboard.SortKeepsTotal | app.py:495 | Sorting does not change the total pnl |
| Dashboard.CalculateCumulativePnl | app.py:494-501 | The array is sorted in place by time; entry `i` holds its time and the running pnl sum up to `i` |
| Dashboard.RunningSumStep | app.py:497-499 | Each running sum adds exactly its own entry's pnl to the previous one |
| Dashboard.LastIsTotal | app.py:494-501 | The last running sum equals the total pnl of the data as given |
| Dashboard.ApplyFiltersIsKeep | app.py:59-66 | Chaining the `WHERE` clauses keeps exactly the rows satisfying their conjunction, in order |
| Dashboard.KeepRowsMembers | app.py:59-66 | A row is kept exactly when it satisfies every supplied condition |
| Dashboard.ApplyFiltersKeeps | app.py:59-66 | A row survives `apply_filters` exactly when it is an input row that satisfies every supplied condition |
| Dashboard.NoFiltersKeepAll | app.py:59-66 | With no arguments, every row is kept |
| Dashboard.KeepRowsMonotone | app.py:59-66 | Stronger conditions keep a subset of the rows kept by weaker ones |
| Dashboard.MoreFiltersFewerRows | app.py:59-66 | Supplying an absent argument can only remove rows |
| Dashboard.PercentageOfTotalUsers | app.py:759-761 | A day missing from the totals counts as 1; a zero total is a division error; a positive total gives `daily * 100 / total`, so value times total is daily times 100, and the value is in [0, 100] when daily ≤ total |
| Dashboard.Percent | app.py:761 | `p * total == daily * 100`, and `p` is in [0, 100] when daily ≤ total |

## Left out

- Downloads from the object store, lz4 decompression and CSV/JSON-lines decoding are left out. A partition is given already decoded, and a missing key stands for a failed download.
- The metadata HTTP call that lists the assets is left out. The asset list is a parameter.
- The configuration file, Slack alerts and console output are left out. Alerts are returned as values.
- Today's date is a parameter. The model requires it to be at least day 85, since Python cannot subtract 85 days before year 1, and within Python's date range.
- Temporary files are left out, including the `process_file` exception raised when the local file is missing after processing. A successful download always leaves the file, so that exception is never raised in the model.
- Pandas index columns (`index`, `level_0`) and the schema-drift fallback in `update_db_table` are not modelled as separate paths. The fallback rewrites the table as its old rows followed by the new ones, which is the same row sequence as the append.
- Floating point is not modelled. Prices and sums are exact reals, and inputs are assumed to hold no NaN or infinity. Order book level prices and sizes are strictly positive reals, so levels of zero price or zero size are outside the model, as is a book whose best bid and ask are zero (its mid would be zero and the slippage at scripts/main.py:168 would divide by it).
- SQL tables are modelled as row sequences in insertion order. Where SQL gives no order, the model fixes one. The `time` column of a cache row is its processing date, and that of a base row is the day of its timestamp.
- Python's stable `list.sort` is modelled by insertion sort. Only its stability, order and permutation are proved, not its algorithm.
- Pipeline.DateText: only its "None" case is stated on its own. For a date beyond 9999-12-31 it returns "", a case that cannot arise from the dates the run handles. `PipelineFacts.DateTextInjective` carries its real property.
- Pipeline.ProcessFile, Step, RunDates, RunTable and RunAll take the per-file reduction as a parameter. `Runner.DailyRun` instantiates it with `CacheRows`. The per-file properties hold for any reduction that stamps its rows with the file's date.
- The web service's other SQL endpoints are left out. They are straight queries that compute nothing beyond the three pieces modelled here.
- Concurrency is left out. The script is sequential.
- Pipeline.FeesCache: succeeds only on a fees file. The source writes whatever the file under a total_accrued_fees key holds, reading no column of it; the model's rows are typed per source, so it takes each key to hold a file of its own source's kind, and another kind under that key fails instead of being written through.
