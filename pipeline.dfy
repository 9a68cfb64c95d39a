/**
 * The daily run of `scripts/main.py` as functions of the database state:
 * `process_file` for one partition, one step per date (with the market-data
 * shards and the skip of dates already cached), the date range a table
 * resumes from, and the final comparison of cache and base max dates. The
 * object store is a map from key to decoded partition; a missing key is a
 * failed download.
 */
module Pipeline {
  import opened Wrappers
  import opened Calendar
  import opened Keys
  import opened Text
  import opened Records
  import opened Aggregate
  import opened Hlp
  import opened Market
  import opened Tables
  import opened Routing

  type Bucket = map<string, Partition>

  /** The rows `load_data_to_db` appends to the base table: the file's records in file order. */
  function BaseRows(p: Partition): (rows: seq<Row>)
    ensures |rows| == |RecordsOf(p)|
    ensures forall i :: 0 <= i < |rows| ==> rows[i] == Base(RecordsOf(p)[i])
  {
    seq(|RecordsOf(p)|, i requires 0 <= i < |RecordsOf(p)| => Base(RecordsOf(p)[i]))
  }

  /** Aggregated rows as cache-table rows. */
  function Wrap<S>(xs: seq<S>, f: S -> Summary): (rows: seq<Row>)
    ensures |rows| == |xs|
    ensures forall i :: 0 <= i < |xs| ==> rows[i] == Cached(f(xs[i]))
  {
    seq(|xs|, i requires 0 <= i < |xs| => Cached(f(xs[i])))
  }

  /** The constructors of `Summary` and the `time` fields as function values. */
  function TradesRowOf(x: TradesSummary): (s: Summary)
    ensures SummaryTime(s) == x.time
  {
    TradesRow(x)
  }
  function TradesTimeOf(x: TradesSummary): Day { x.time }
  function LedgerRowOf(x: LedgerSummary): (s: Summary)
    ensures SummaryTime(s) == x.time
  {
    LedgerRow(x)
  }
  function LedgerTimeOf(x: LedgerSummary): Day { x.time }
  function LiquidationsRowOf(x: LiquidationsSummary): (s: Summary)
    ensures SummaryTime(s) == x.time
  {
    LiquidationsRow(x)
  }
  function LiquidationsTimeOf(x: LiquidationsSummary): Day { x.time }
  function FundingRowOf(x: FundingSummary): (s: Summary)
    ensures SummaryTime(s) == x.time
  {
    FundingRow(x)
  }
  function FundingTimeOf(x: FundingSummary): Day { x.time }
  function AccountValuesRowOf(x: AccountValuesSummary): (s: Summary)
    ensures SummaryTime(s) == x.time
  {
    AccountValuesRow(x)
  }
  function AccountValuesTimeOf(x: AccountValuesSummary): Day { x.time }
  function AssetCtxsRowOf(x: AssetCtxsSummary): (s: Summary)
    ensures SummaryTime(s) == x.time
  {
    AssetCtxsRow(x)
  }
  function AssetCtxsTimeOf(x: AssetCtxsSummary): Day { x.time }
  function FeesRowOf(x: FeesSummary): (s: Summary)
    ensures SummaryTime(s) == x.time
  {
    FeesRow(x)
  }
  function FeesTimeOf(x: FeesSummary): Day { x.time }
  function HlpRowOf(x: HlpSummary): (s: Summary)
    ensures SummaryTime(s) == x.time
  {
    HlpRow(x)
  }
  function HlpTimeOf(x: HlpSummary): Day { x.time }
  function MarketRowOf(x: MarketSummary): (s: Summary)
    ensures SummaryTime(s) == x.time
  {
    MarketRow(x)
  }
  function MarketTimeOf(x: MarketSummary): Day { x.time }

  /** Aggregated rows dated `date` make cache rows dated `date`. */
  lemma WrapAt<S>(xs: seq<S>, f: S -> Summary, time: S -> Day, date: Day)
    requires forall x :: SummaryTime(f(x)) == time(x)
    requires forall i :: 0 <= i < |xs| ==> time(xs[i]) == date
    ensures AllAt(Wrap(xs, f), date)
  {
  }

  /** The trades branch of `update_cache_tables`. */
  function TradesCache(p: Partition, date: Day): (r: Result<seq<Row>>)
    ensures r.Success? <==> p.TradesFile?
    ensures r.Success? ==> AllAt(r.value, date)
  {
    if !p.TradesFile? then Failure("KeyError: 'px'")
    else
      var out := AggregateTrades(p.hasTif, p.trades, date);
      WrapAt(out, TradesRowOf, TradesTimeOf, date);
      Success(Wrap(out, TradesRowOf))
  }

  /** The ledger_updates branch. */
  function LedgerCache(p: Partition, date: Day): (r: Result<seq<Row>>)
    ensures r.Success? <==> p.LedgerFile?
    ensures r.Success? ==> AllAt(r.value, date)
  {
    if !p.LedgerFile? then Failure("KeyError: 'delta_usd'")
    else
      var out := AggregateLedger(p.updates, date);
      WrapAt(out, LedgerRowOf, LedgerTimeOf, date);
      Success(Wrap(out, LedgerRowOf))
  }

  /** The liquidations branch. */
  function LiquidationsCache(p: Partition, date: Day): (r: Result<seq<Row>>)
    ensures r.Success? <==> p.LiquidationsFile?
    ensures r.Success? ==> AllAt(r.value, date)
  {
    if !p.LiquidationsFile? then Failure("KeyError: 'liquidated_ntl_pos'")
    else
      var out := AggregateLiquidations(p.liquidations, date);
      WrapAt(out, LiquidationsRowOf, LiquidationsTimeOf, date);
      Success(Wrap(out, LiquidationsRowOf))
  }

  /**
   * The funding branch. It reads only `coin`, `funding` and `premium`, so an
   * asset_ctxs file, which has those columns too, goes through as well.
   */
  function FundingCache(p: Partition, date: Day): (r: Result<seq<Row>>)
    ensures r.Success? <==> p.FundingFile? || p.AssetCtxsFile?
    ensures r.Success? ==> AllAt(r.value, date)
  {
    if !p.FundingFile? && !p.AssetCtxsFile? then Failure("KeyError: 'funding'")
    else
      var rates := if p.FundingFile? then p.rates else CtxFundingRates(p.ctxs);
      var out := AggregateFunding(rates, date);
      WrapAt(out, FundingRowOf, FundingTimeOf, date);
      Success(Wrap(out, FundingRowOf))
  }

  /** On an asset_ctxs file the funding branch sums the same columns a funding file would carry. */
  lemma FundingReadsCtxs(cs: seq<AssetCtx>, date: Day)
    ensures FundingCache(AssetCtxsFile(cs), date) == FundingCache(FundingFile(CtxFundingRates(cs)), date)
  {
  }

  /** The account_values branch. */
  function AccountValuesCache(p: Partition, date: Day): (r: Result<seq<Row>>)
    ensures r.Success? <==> p.AccountValuesFile?
    ensures r.Success? ==> AllAt(r.value, date)
  {
    if !p.AccountValuesFile? then Failure("KeyError: 'account_value'")
    else
      var out := AggregateAccountValues(p.values, date);
      WrapAt(out, AccountValuesRowOf, AccountValuesTimeOf, date);
      Success(Wrap(out, AccountValuesRowOf))
  }

  /** The asset_ctxs branch. */
  function AssetCtxsCache(p: Partition, date: Day): (r: Result<seq<Row>>)
    ensures r.Success? <==> p.AssetCtxsFile?
    ensures r.Success? ==> AllAt(r.value, date)
  {
    if !p.AssetCtxsFile? then Failure("KeyError: 'oracle_px'")
    else
      var out := AggregateAssetCtxs(p.ctxs, date);
      WrapAt(out, AssetCtxsRowOf, AssetCtxsTimeOf, date);
      Success(Wrap(out, AssetCtxsRowOf))
  }

  /** The total_accrued_fees branch: the rows themselves, re-dated. */
  function FeesCache(p: Partition, date: Day): (r: Result<seq<Row>>)
    ensures r.Success? <==> p.FeesFile?
    ensures r.Success? ==> AllAt(r.value, date) && |r.value| == |p.fees|
  {
    if !p.FeesFile? then Failure("KeyError: 'total_accrued_fees'")
    else
      var out := PassFees(p.fees, date);
      WrapAt(out, FeesRowOf, FeesTimeOf, date);
      Success(Wrap(out, FeesRowOf))
  }

  /** The hlp_positions branch, which joins the day's asset contexts. */
  function HlpCache(p: Partition, ctxs: Option<Partition>, date: Day): (r: Result<seq<Row>>)
    ensures r.Success? ==> p.HlpFile? && ctxs.Some? && ctxs.value.AssetCtxsFile?
    ensures r.Success? ==> AllAt(r.value, date)
  {
    if ctxs.None? then Failure("FileNotFoundError: asset_ctxs")
    else if !p.HlpFile? || !ctxs.value.AssetCtxsFile? then Failure("KeyError: 'oracle_px'")
    else
      match AggregateHlp(ctxs.value.ctxs, p.positions, date)
      case Failure(e) => Failure(e)
      case Success(out) =>
        WrapAt(out, HlpRowOf, HlpTimeOf, date);
        Success(Wrap(out, HlpRowOf))
  }

  /** `update_market_data_cache` for one shard. */
  function MarketCache(p: Partition, date: Day): (r: Result<seq<Row>>)
    ensures r.Success? ==> p.BookFile? && AllAt(r.value, date)
  {
    if !p.BookFile? then Failure("KeyError: 'levels'")
    else
      match AggregateMarket(p.snapshots, date)
      case Failure(e) => Failure(e)
      case Success(out) =>
        WrapAt(out, MarketRowOf, MarketTimeOf, date);
        Success(Wrap(out, MarketRowOf))
  }

  /**
   * What `update_cache_tables` computes for one file: the rows of the
   * aggregation the file name routes to, or the error it raises. A partition
   * without the columns its reduction reads fails; the funding reduction
   * also accepts an asset_ctxs partition, and the fees reduction is
   * modelled on fee rows only.
   */
  function CacheRows(src: Source, p: Partition, ctxs: Option<Partition>, date: Day): (r: Result<seq<Row>>)
    ensures r.Success? ==> AllAt(r.value, date)
  {
    match src
    case MarketSource => MarketCache(p, date)
    case TradesSource => TradesCache(p, date)
    case LedgerSource => LedgerCache(p, date)
    case LiquidationsSource => LiquidationsCache(p, date)
    case FundingSource => FundingCache(p, date)
    case AccountValuesSource => AccountValuesCache(p, date)
    case AssetCtxsSource => AssetCtxsCache(p, date)
    case FeesSource => FeesCache(p, date)
    case HlpSource => HlpCache(p, ctxs, date)
  }

  /**
   * The per-file aggregation the run applies; `CacheRows` in the pipeline.
   * The run's properties hold for any aggregation that stamps its rows with
   * the file's date.
   */
  type Aggregator = (Source, Partition, Option<Partition>, Day) -> Result<seq<Row>>

  ghost predicate Stamps(agg: Aggregator) {
    forall src, p, ctxs, date :: agg(src, p, ctxs, date).Success? ==> AllAt(agg(src, p, ctxs, date).value, date)
  }

  /** The pipeline's aggregation stamps every row with the file's date. */
  lemma CacheRowsStamps()
    ensures Stamps(CacheRows)
  {
    forall src, p, ctxs, date ensures CacheRows(src, p, ctxs, date).Success? ==> AllAt(CacheRows(src, p, ctxs, date).value, date) {
    }
  }

  /** The state after `process_file`, and the exception it raised, if any; what it wrote before raising stays written. */
  datatype Outcome = Outcome(tables: Store, error: Option<string>)

  /** The day's asset contexts when `process_file` fetched them (only for the hlp_positions table). */
  function CtxsFor(bucket: Bucket, table: string, date: Day): Option<Partition>
    requires InRange(date)
  {
    if Contains(table, "hlp_positions") && HlpAssetCtxsKey(date) in bucket then Some(bucket[HlpAssetCtxsKey(date)])
    else None
  }

  /**
   * `process_file`: fetch the asset contexts (hlp_positions only) and the
   * file, append its records to the base table unless it is a market-data
   * shard, then write the routed aggregation to its cache table.
   */
  function ProcessFile(agg: Aggregator, ts: Store, bucket: Bucket, fileName: string, table: string, date: Day): Outcome
    requires InRange(date)
  {
    if Contains(table, "hlp_positions") && HlpAssetCtxsKey(date) !in bucket then
      Outcome(ts, Some("NoSuchKey: " + HlpAssetCtxsKey(date)))
    else if fileName !in bucket then
      Outcome(ts, Some("NoSuchKey: " + fileName))
    else
      var p := bucket[fileName];
      var loaded := if Contains(fileName, "market_data") then ts
                    else ts[table := Written(Get(ts, table), table, BaseRows(p), date)];
      match Route(fileName)
      case None => Outcome(loaded, None)
      case Some(src) =>
        match agg(src, p, CtxsFor(bucket, table, date), date)
        case Failure(e) => Outcome(loaded, Some(e))
        case Success(rows) =>
          var name := CacheName(src);
          Outcome(loaded[name := Written(Get(loaded, name), name, rows, date)], None)
  }

  // ---------------------------------------------------------------- market-data shards

  /** The shard keys of one hour, one per asset, in the asset map's order. */
  function HourShards(date: Day, hour: nat, assets: seq<string>): (ks: seq<string>)
    requires InRange(date) && hour < 24
    ensures |ks| == |assets|
    ensures forall i :: 0 <= i < |ks| ==> ks[i] == ShardKey("market_data", date, hour, assets[i])
  {
    seq(|assets|, i requires 0 <= i < |assets| => ShardKey("market_data", date, hour, assets[i]))
  }

  /** The shard keys of the first `hours` hours of a day, hour by hour. */
  function DayShards(date: Day, hours: nat, assets: seq<string>): (ks: seq<string>)
    requires InRange(date) && hours <= 24
    ensures |ks| == hours * |assets|
  {
    if hours == 0 then [] else DayShards(date, hours - 1, assets) + HourShards(date, hours - 1, assets)
  }

  /** Processing shards one after another, each failure swallowed. */
  function RunShards(agg: Aggregator, ts: Store, bucket: Bucket, shards: seq<string>, table: string, date: Day): Store
    requires InRange(date)
    decreases |shards|
  {
    if shards == [] then ts
    else ProcessFile(agg, RunShards(agg, ts, bucket, shards[..|shards| - 1], table, date), bucket, shards[|shards| - 1], table, date).tables
  }

  // ---------------------------------------------------------------- one date, one table

  /** The alerts `main` sends. */
  datatype Alert =
    | NothingToProcess(table: string, latest: Day)
    | AlreadyExists(day: Day)
    | Completed(day: Day, table: string)
    | Failed(table: string, day: Day, error: string)
    | Mismatch(table: string, cacheMax: Day, baseMax: Option<Day>)

  /** The date a per-date alert is about; none for the per-table alerts. */
  function AlertDay(a: Alert): Option<Day> {
    match a
    case AlreadyExists(d) => Some(d)
    case Completed(d, _) => Some(d)
    case Failed(_, d, _) => Some(d)
    case _ => None
  }

  /** `market_data_exists`: the market-data cache has a row of the date. */
  predicate MarketCached(ts: Store, date: Day) {
    AtDate(Get(ts, "market_data_cache"), date) != []
  }

  /**
   * One iteration of the date loop: a market-data day already cached is
   * skipped; otherwise every (hour, asset) shard is processed, failures
   * swallowed, and the day completes; any other table processes its one
   * daily file, and an exception becomes a failure alert.
   */
  function Step(agg: Aggregator, ts: Store, bucket: Bucket, table: string, stem: string, date: Day, assets: seq<string>): (r: (Store, seq<Alert>))
    requires InRange(date)
    ensures |r.1| == 1 && AlertDay(r.1[0]) == Some(date)
  {
    if stem == "market_data" then
      if MarketCached(ts, date) then (ts, [AlreadyExists(date)])
      else (RunShards(agg, ts, bucket, DayShards(date, 24, assets), table, date), [Completed(date, table)])
    else
      var o := ProcessFile(agg, ts, bucket, FileKey(stem, date), table, date);
      match o.error
      case None => (o.tables, [Completed(date, table)])
      case Some(e) => (o.tables, [Failed(table, date, e)])
  }

  predicate AllInRange(dates: seq<Day>) {
    forall i :: 0 <= i < |dates| ==> InRange(dates[i])
  }

  /** Alerts that follow the dates before the last one, then the last date's alert, follow all the dates. */
  lemma AlertsAligned(alerts: seq<Alert>, more: seq<Alert>, dates: seq<Day>)
    requires |dates| > 0 && |alerts| == |dates| - 1
    requires forall i :: 0 <= i < |alerts| ==> AlertDay(alerts[i]) == Some(dates[..|dates| - 1][i])
    requires |more| == 1 && AlertDay(more[0]) == Some(dates[|dates| - 1])
    ensures |alerts + more| == |dates|
    ensures forall i :: 0 <= i < |dates| ==> AlertDay((alerts + more)[i]) == Some(dates[i])
  {
    forall i | 0 <= i < |dates|
      ensures AlertDay((alerts + more)[i]) == Some(dates[i])
    {
      if i < |alerts| {
        assert (alerts + more)[i] == alerts[i] && dates[..|dates| - 1][i] == dates[i];
      }
    }
  }

  /** The date loop: each date's step runs on the state the previous ones left. */
  function RunDates(agg: Aggregator, ts: Store, bucket: Bucket, table: string, stem: string, dates: seq<Day>, assets: seq<string>): (r: (Store, seq<Alert>))
    requires AllInRange(dates)
    decreases |dates|
  {
    if dates == [] then (ts, [])
    else
      var init := dates[..|dates| - 1];
      var before := RunDates(agg, ts, bucket, table, stem, init, assets);
      var step := Step(agg, before.0, bucket, table, stem, dates[|dates| - 1], assets);
      (step.0, before.1 + step.1)
  }

  /** The date loop sends one alert per date, in date order, each naming its date. */
  lemma {:induction false} RunDatesAlerts(agg: Aggregator, ts: Store, bucket: Bucket, table: string, stem: string, dates: seq<Day>, assets: seq<string>)
    requires AllInRange(dates)
    ensures var r := RunDates(agg, ts, bucket, table, stem, dates, assets);
      && |r.1| == |dates|
      && forall i :: 0 <= i < |dates| ==> AlertDay(r.1[i]) == Some(dates[i])
    decreases |dates|
  {
    if dates != [] {
      var init := dates[..|dates| - 1];
      RunDatesAlerts(agg, ts, bucket, table, stem, init, assets);
      var before := RunDates(agg, ts, bucket, table, stem, init, assets);
      var step := Step(agg, before.0, bucket, table, stem, dates[|dates| - 1], assets);
      AlertsAligned(before.1, step.1, dates);
    }
  }

  /** `generate_dates`: the days from `start` to `today`, both included; none when `start` is after `today`. */
  function GenerateDates(start: Day, today: Day): (ds: seq<Day>)
    ensures |ds| == if start <= today then today - start + 1 else 0
    ensures ds != [] ==> ds[0] == start && ds[|ds| - 1] == today
    ensures forall i :: 0 < i < |ds| ==> ds[i] == ds[i - 1] + 1
  {
    if start <= today then seq(today - start + 1, i requires 0 <= i <= today - start => start + i) else []
  }

  /** `dates[1:]`. */
  function Tail(ds: seq<Day>): seq<Day> {
    if ds == [] then [] else ds[1..]
  }

  /** Python's `date.today() - timedelta(days=85)` needs a representable result; today is therefore at least day 85. */
  const Lookback: nat := 85

  /** Where a table resumes: its cache's latest date, or 85 days back when the cache is empty. */
  function Seed(latest: Option<Day>, today: Day): Day
    requires today >= Lookback
  {
    if latest.Some? then latest.value else today - Lookback
  }

  /** `str(d)[:10]` of a max date: its ISO form, or "None". */
  function DateText(m: Option<Day>): (s: string)
    ensures m.None? ==> s == "None"
  {
    if m.Some? && InRange(m.value) then Iso(m.value)
    else if m.Some? then ""
    else "None"
  }

  /** The closing check: an alert when the cache has a max date whose text differs from the base table's. */
  function Check(table: string, cacheMax: Option<Day>, baseMax: Option<Day>): seq<Alert> {
    if cacheMax.Some? && DateText(cacheMax) != DateText(baseMax) then [Mismatch(table, cacheMax.value, baseMax)]
    else []
  }

  /** The whole handling of one configured table. */
  function RunTable(agg: Aggregator, ts: Store, bucket: Bucket, table: string, today: Day, assets: seq<string>): (Store, seq<Alert>)
    requires table in TableFileName && today >= Lookback && InRange(today)
  {
    var latest := MaxTime(Get(ts, table + "_cache"));
    var seeded := if latest.None? then ts - {table} else ts;
    var start := Seed(latest, today);
    var dates := GenerateDates(start, today);
    var nothing := if dates == [] then [NothingToProcess(table, start)] else [];
    InRangeTail(dates, today);
    var run := RunDates(agg, seeded, bucket, table, TableFileName[table], Tail(dates), assets);
    (run.0, nothing + run.1 + Check(table, MaxTime(Get(run.0, table + "_cache")), MaxTime(Get(run.0, table))))
  }

  /** Every table of the list is in the file-name map. */
  predicate AllKnown(tables: seq<string>)
    decreases |tables|
  {
    tables == [] || (AllKnown(tables[..|tables| - 1]) && tables[|tables| - 1] in TableFileName)
  }

  /** `AllKnown` is the table-by-table membership test. */
  lemma {:induction false} AllKnownIff(tables: seq<string>)
    ensures AllKnown(tables) <==> forall i :: 0 <= i < |tables| ==> tables[i] in TableFileName
    decreases |tables|
  {
    if tables != [] {
      var init := tables[..|tables| - 1];
      AllKnownIff(init);
      assert forall i :: 0 <= i < |init| ==> init[i] == tables[i];
    }
  }

  /**
   * `main`: the configured tables one after another. A table missing from
   * the file-name map raises a `KeyError` outside every handler, which ends
   * the run with the tables before it processed.
   */
  function RunAll(agg: Aggregator, ts: Store, bucket: Bucket, tables: seq<string>, today: Day, assets: seq<string>): (r: (Store, seq<Alert>, Option<string>))
    requires today >= Lookback && InRange(today)
    ensures r.2.None? <==> AllKnown(tables)
    decreases |tables|
  {
    if tables == [] then (ts, [], None)
    else
      var init := tables[..|tables| - 1];
      var last := tables[|tables| - 1];
      var before := RunAll(agg, ts, bucket, init, today, assets);
      if before.2.Some? then before
      else if last !in TableFileName then (before.0, before.1, Some("KeyError: '" + last + "'"))
      else
        var one := RunTable(agg, before.0, bucket, last, today, assets);
        (one.0, before.1 + one.1, None)
  }

  /** The dates processed are representable when today is. */
  lemma InRangeTail(dates: seq<Day>, today: Day)
    requires InRange(today)
    requires forall i :: 0 <= i < |dates| ==> dates[i] <= today
    ensures AllInRange(Tail(dates))
  {
  }
}
