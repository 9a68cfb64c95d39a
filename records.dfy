/**
 * The raw records of one daily partition, as the CSV or JSON-lines file of
 * each source decodes them, and the rows the pipeline writes to its tables.
 * A raw record keeps its own timestamp; an aggregated (cache) row carries the
 * processing date. Decoding itself (lz4, CSV, JSON) is not modelled: a
 * partition is given already decoded.
 */
module Records {
  import opened Wrappers
  import opened Calendar
  import opened OrderBook

  /** A record's timestamp: its calendar day and the milliseconds into that day. */
  datatype Stamp = Stamp(day: Day, ms: nat)

  /** A row of `non_mm_trades`; `tif` is None where the cell is empty. */
  datatype Trade = Trade(
    time: Stamp, user: string, coin: string, side: string, crossed: bool,
    specialTradeType: string, tif: Option<string>, px: real, sz: real)

  /** A row of `ledger_updates`. */
  datatype LedgerUpdate = LedgerUpdate(time: Stamp, user: string, deltaUsd: real)

  /** A row of `liquidations`. */
  datatype Liquidation = Liquidation(
    time: Stamp, user: string, leverageType: string,
    liquidatedNtlPos: real, liquidatedAccountValue: real)

  /** A row of `funding`. */
  datatype FundingRate = FundingRate(time: Stamp, coin: string, funding: real, premium: real)

  /** A row of `account_values`. */
  datatype AccountValue = AccountValue(
    time: Stamp, user: string, isVault: bool, accountValue: real, cumVlm: real, cumLedger: real)

  /** A row of `asset_ctxs`. */
  datatype AssetCtx = AssetCtx(
    time: Stamp, coin: string, funding: real, openInterest: real, prevDayPx: real,
    dayNtlVlm: real, premium: real, oraclePx: real, markPx: real, midPx: real,
    impactBidPx: real, impactAskPx: real)

  /** A row of `total_accrued_fees`. */
  datatype AccruedFees = AccruedFees(time: Stamp, totalAccruedFees: real)

  /** A row of `hlp_positions`: the position size held in each coin, one column per coin. */
  datatype HlpPosition = HlpPosition(time: Stamp, sizes: map<string, real>)

  /**
   * A decoded partition. A trades file written before the time-in-force
   * column existed has `hasTif` false. A market-data shard is the order-book
   * snapshots of one hour of one asset.
   */
  datatype Partition =
    | TradesFile(hasTif: bool, trades: seq<Trade>)
    | LedgerFile(updates: seq<LedgerUpdate>)
    | LiquidationsFile(liquidations: seq<Liquidation>)
    | FundingFile(rates: seq<FundingRate>)
    | AccountValuesFile(values: seq<AccountValue>)
    | AssetCtxsFile(ctxs: seq<AssetCtx>)
    | FeesFile(fees: seq<AccruedFees>)
    | HlpFile(positions: seq<HlpPosition>)
    | BookFile(snapshots: seq<Snapshot>)

  /** One raw record, as appended verbatim to a base table. */
  datatype Record =
    | TradeRecord(trade: Trade)
    | LedgerRecord(update: LedgerUpdate)
    | LiquidationRecord(liquidation: Liquidation)
    | FundingRecord(rate: FundingRate)
    | AccountValueRecord(value: AccountValue)
    | AssetCtxRecord(ctx: AssetCtx)
    | FeesRecord(fees: AccruedFees)
    | HlpRecord(position: HlpPosition)

  function StampOf(r: Record): Stamp {
    match r
    case TradeRecord(x) => x.time
    case LedgerRecord(x) => x.time
    case LiquidationRecord(x) => x.time
    case FundingRecord(x) => x.time
    case AccountValueRecord(x) => x.time
    case AssetCtxRecord(x) => x.time
    case FeesRecord(x) => x.time
    case HlpRecord(x) => x.time
  }

  /** The records of a partition, in file order, as `read_csv` yields them (a market-data shard has none: it is never loaded). */
  function RecordsOf(p: Partition): (rs: seq<Record>)
    ensures p.BookFile? ==> rs == []
    ensures p.TradesFile? ==> |rs| == |p.trades| && forall i :: 0 <= i < |rs| ==> rs[i] == TradeRecord(p.trades[i])
    ensures p.LedgerFile? ==> |rs| == |p.updates| && forall i :: 0 <= i < |rs| ==> rs[i] == LedgerRecord(p.updates[i])
    ensures p.LiquidationsFile? ==>
      |rs| == |p.liquidations| && forall i :: 0 <= i < |rs| ==> rs[i] == LiquidationRecord(p.liquidations[i])
    ensures p.FundingFile? ==> |rs| == |p.rates| && forall i :: 0 <= i < |rs| ==> rs[i] == FundingRecord(p.rates[i])
    ensures p.AccountValuesFile? ==>
      |rs| == |p.values| && forall i :: 0 <= i < |rs| ==> rs[i] == AccountValueRecord(p.values[i])
    ensures p.AssetCtxsFile? ==> |rs| == |p.ctxs| && forall i :: 0 <= i < |rs| ==> rs[i] == AssetCtxRecord(p.ctxs[i])
    ensures p.FeesFile? ==> |rs| == |p.fees| && forall i :: 0 <= i < |rs| ==> rs[i] == FeesRecord(p.fees[i])
    ensures p.HlpFile? ==> |rs| == |p.positions| && forall i :: 0 <= i < |rs| ==> rs[i] == HlpRecord(p.positions[i])
  {
    match p
    case TradesFile(_, xs) => seq(|xs|, i requires 0 <= i < |xs| => TradeRecord(xs[i]))
    case LedgerFile(xs) => seq(|xs|, i requires 0 <= i < |xs| => LedgerRecord(xs[i]))
    case LiquidationsFile(xs) => seq(|xs|, i requires 0 <= i < |xs| => LiquidationRecord(xs[i]))
    case FundingFile(xs) => seq(|xs|, i requires 0 <= i < |xs| => FundingRecord(xs[i]))
    case AccountValuesFile(xs) => seq(|xs|, i requires 0 <= i < |xs| => AccountValueRecord(xs[i]))
    case AssetCtxsFile(xs) => seq(|xs|, i requires 0 <= i < |xs| => AssetCtxRecord(xs[i]))
    case FeesFile(xs) => seq(|xs|, i requires 0 <= i < |xs| => FeesRecord(xs[i]))
    case HlpFile(xs) => seq(|xs|, i requires 0 <= i < |xs| => HlpRecord(xs[i]))
    case BookFile(_) => []
  }
}
