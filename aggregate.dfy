/**
 * The per-source aggregations of `update_cache_tables`: one date's raw rows
 * are grouped by the source's key columns and reduced, and every output row
 * is stamped with the date. Output rows come in ascending key order, one per
 * group.
 */
module Aggregate {
  import opened Wrappers
  import opened Calendar
  import opened Stats
  import opened GroupBy
  import opened Records

  /** `str` of a boolean key cell. */
  function BoolText(b: bool): string {
    if b then "True" else "False"
  }

  // ---------------------------------------------------------------- trades

  /** The `tif` cell after defaulting: "Gtc" for a file without the column, "Na" for an empty cell. */
  function TifOf(hasTif: bool, t: Trade): string {
    if !hasTif then "Gtc"
    else match t.tif
      case None => "Na"
      case Some(s) => s
  }

  /** The six grouping columns of the trades aggregation. */
  function TradeKey(hasTif: bool): Trade -> seq<string> {
    (t: Trade) => [t.user, t.coin, t.side, BoolText(t.crossed), t.specialTradeType, TifOf(hasTif, t)]
  }

  /** The five columns of the `group_count` transform: the trades key without `tif`. */
  function TradeKey5(t: Trade): seq<string> {
    [t.user, t.coin, t.side, BoolText(t.crossed), t.specialTradeType]
  }

  function TradePx(t: Trade): real { t.px }
  function TradeSz(t: Trade): real { t.sz }

  /** A row of `non_mm_trades_cache`. */
  datatype TradesSummary = TradesSummary(
    time: Day, user: string, coin: string, side: string, crossed: bool,
    specialTradeType: string, tif: string, meanPx: real, sumSz: real,
    groupCount: nat, usdVolume: real, liquidatedVolume: real)

  function TradesSummaryKey(s: TradesSummary): seq<string> {
    [s.user, s.coin, s.side, BoolText(s.crossed), s.specialTradeType, s.tif]
  }

  function SummarySz(s: TradesSummary): real { s.sumSz }

  /** USD volume of a group: its mean price times its total size. */
  function Volume(meanPx: real, sumSz: real): real { meanPx * sumSz }

  /** The time-in-force of liquidation fills, whose volume counts as liquidated. */
  const LiquidationTif: string := "LiquidationMarket"

  /**
   * `s` holds the values of trades group `k`: its mean price lies within the group's prices, its size is the
   * group's total size, its volume is mean price times size, and that volume
   * counts as liquidated exactly when the time-in-force is a liquidation.
   */
  predicate SummarizesTrades(hasTif: bool, trades: seq<Trade>, k: seq<string>, s: TradesSummary) {
    var g := Where(trades, TradeKey(hasTif), k);
    && |g| > 0
    && s.meanPx == Mean(Column(g, TradePx))
    && s.sumSz == SumOf(g, TradeSz)
    && s.usdVolume == Volume(s.meanPx, s.sumSz)
    && s.liquidatedVolume == if s.tif == LiquidationTif then s.usdVolume else 0.0
  }

  /** The reduction of one trades group `k`. */
  function TradesGroup(hasTif: bool, trades: seq<Trade>, k: seq<string>, groupCount: nat, date: Day): (s: TradesSummary)
    requires exists i :: 0 <= i < |trades| && TradeKey(hasTif)(trades[i]) == k
    ensures TradesSummaryKey(s) == k && s.time == date && s.groupCount == groupCount
    ensures SummarizesTrades(hasTif, trades, k, s)
  {
    var key := TradeKey(hasTif);
    GroupNotEmpty(trades, key, k);
    var g := Where(trades, key, k);
    var t := trades[FirstIndex(trades, key, k)];
    var meanPx := Mean(Column(g, TradePx));
    var sumSz := SumOf(g, TradeSz);
    var usdVolume := Volume(meanPx, sumSz);
    var tif := TifOf(hasTif, t);
    TradesSummary(date, t.user, t.coin, t.side, t.crossed, t.specialTradeType, tif,
                  meanPx, sumSz, groupCount, usdVolume,
                  if tif == LiquidationTif then usdVolume else 0.0)
  }

  /** The trades aggregation: one summary per group, in key order. */
  function AggregateTrades(hasTif: bool, trades: seq<Trade>, date: Day): (out: seq<TradesSummary>)
    ensures var ks := GroupKeys(trades, TradeKey(hasTif));
      && |out| == |ks|
      && forall j :: 0 <= j < |out| ==> TradesSummaryKey(out[j]) == ks[j] && out[j].time == date
  {
    var ks := GroupKeys(trades, TradeKey(hasTif));
    seq(|ks|, j requires 0 <= j < |ks| => TradesRow(hasTif, trades, j, date))
  }

  /** Output row `j` of the trades aggregation: group `j` in key order, with input row `j`'s five-column count. */
  function TradesRow(hasTif: bool, trades: seq<Trade>, j: nat, date: Day): (s: TradesSummary)
    requires j < |GroupKeys(trades, TradeKey(hasTif))|
    ensures TradesSummaryKey(s) == GroupKeys(trades, TradeKey(hasTif))[j] && s.time == date
  {
    var ks := GroupKeys(trades, TradeKey(hasTif));
    assert ks[j] in ks;
    TradesGroup(hasTif, trades, ks[j], Count(trades, TradeKey5, TradeKey5(trades[j])), date)
  }

  /** Each output row holds the mean price, size and volumes of its own group. */
  lemma TradesValues(hasTif: bool, trades: seq<Trade>, date: Day)
    ensures var out := AggregateTrades(hasTif, trades, date);
      forall j :: 0 <= j < |out| ==>
        SummarizesTrades(hasTif, trades, GroupKeys(trades, TradeKey(hasTif))[j], out[j])
  {
  }

  /**
   * `group_count` is assigned by index alignment: output row j receives the
   * size of the five-column group of INPUT row j, not of its own group.
   */
  lemma TradesGroupCount(hasTif: bool, trades: seq<Trade>, date: Day)
    ensures var out := AggregateTrades(hasTif, trades, date);
      forall j :: 0 <= j < |out| ==>
        j < |trades| && out[j].groupCount == |Where(trades, TradeKey5, TradeKey5(trades[j]))|
  {
  }

  /** Every trade's group has exactly one output row. */
  lemma TradesGroupsCovered(hasTif: bool, trades: seq<Trade>, date: Day, i: nat)
    requires i < |trades|
    ensures var out := AggregateTrades(hasTif, trades, date);
      exists j :: 0 <= j < |out| && TradesSummaryKey(out[j]) == TradeKey(hasTif)(trades[i])
    ensures var out := AggregateTrades(hasTif, trades, date);
      forall j, j' :: 0 <= j < j' < |out| ==> TradesSummaryKey(out[j]) != TradesSummaryKey(out[j'])
  {
    var out := AggregateTrades(hasTif, trades, date);
    var ks := GroupKeys(trades, TradeKey(hasTif));
    var k := TradeKey(hasTif)(trades[i]);
    assert k in ks;
    var j :| 0 <= j < |ks| && ks[j] == k;
    assert TradesSummaryKey(out[j]) == k;
  }

  /** The traded size is conserved: the `sum_sz` column adds up to the total size traded. */
  lemma TradesSizeConserved(hasTif: bool, trades: seq<Trade>, date: Day)
    ensures SumOf(AggregateTrades(hasTif, trades, date), SummarySz) == SumOf(trades, TradeSz)
  {
    var out := AggregateTrades(hasTif, trades, date);
    var ks := GroupKeys(trades, TradeKey(hasTif));
    TradesValues(hasTif, trades, date);
    forall j | 0 <= j < |out|
      ensures SummarySz(out[j]) == SumOf(Where(trades, TradeKey(hasTif), ks[j]), TradeSz)
    {
      assert SummarizesTrades(hasTif, trades, ks[j], out[j]);
    }
    SumConserved(out, SummarySz, trades, TradeKey(hasTif), TradeSz);
  }

  /**
   * Every output `tif` is the defaulted time-in-force of some trade of the
   * day; a file without the column aggregates everything under "Gtc".
   */
  lemma TifDefaults(hasTif: bool, trades: seq<Trade>, date: Day)
    ensures var out := AggregateTrades(hasTif, trades, date);
      forall j :: 0 <= j < |out| ==>
        (exists i :: 0 <= i < |trades| && out[j].tif == TifOf(hasTif, trades[i]))
        && (!hasTif ==> out[j].tif == "Gtc")
  {
    var out := AggregateTrades(hasTif, trades, date);
    var ks := GroupKeys(trades, TradeKey(hasTif));
    forall j | 0 <= j < |out|
      ensures exists i :: 0 <= i < |trades| && out[j].tif == TifOf(hasTif, trades[i])
    {
      assert ks[j] in ks;
      var i :| 0 <= i < |trades| && TradeKey(hasTif)(trades[i]) == ks[j];
      assert TradesSummaryKey(out[j])[5] == out[j].tif;
      assert TradeKey(hasTif)(trades[i])[5] == TifOf(hasTif, trades[i]);
    }
  }

  /** A two-row group sums to the sum of its two rows, whether summed directly or through its column. */
  lemma PairSums<T>(a: T, b: T, f: T -> real)
    ensures SumOf([a, b], f) == f(a) + f(b)
    ensures Sum(Column([a, b], f)) == f(a) + f(b)
  {
    assert [a, b][..1] == [a] && [a][..0] == [];
    assert SumOf([a], f) == f(a);
    SumOfColumn([a, b], f);
  }

  /** Two trades of one group at prices 10 and 20, size 2 each: mean price 15, size 4, volume 60, count 2. */
  lemma TradesExample(t1: Trade, t2: Trade, date: Day)
    requires t1.px == 10.0 && t2.px == 20.0 && t1.sz == 2.0 && t2.sz == 2.0
    requires TradeKey(true)(t1) == TradeKey(true)(t2)
    ensures var out := AggregateTrades(true, [t1, t2], date);
      |out| == 1 && out[0].meanPx == 15.0 && out[0].sumSz == 4.0
      && out[0].usdVolume == 60.0 && out[0].groupCount == 2
  {
    var trades := [t1, t2];
    var key := TradeKey(true);
    var k := key(t1);
    OneGroup(trades, key, k);
    WhereAll(trades, key, k);
    assert TradeKey5(t1) == key(t1)[..5] == key(t2)[..5] == TradeKey5(t2);
    WhereAll(trades, TradeKey5, TradeKey5(t1));
    PairSums(t1, t2, TradePx);
    PairSums(t1, t2, TradeSz);
    var out := AggregateTrades(true, trades, date);
    TradesValues(true, trades, date);
    assert SummarizesTrades(true, trades, k, out[0]);
    assert out[0].meanPx == 30.0 / 2.0;
    TradesGroupCount(true, trades, date);
  }


  // ---------------------------------------------------------------- ledger updates

  function LedgerKey(u: LedgerUpdate): seq<string> { [u.user] }
  function LedgerDelta(u: LedgerUpdate): real { u.deltaUsd }

  /** A row of `non_mm_ledger_updates_cache`. */
  datatype LedgerSummary = LedgerSummary(time: Day, user: string, sumDeltaUsd: real)

  function LedgerSummaryDelta(s: LedgerSummary): real { s.sumDeltaUsd }

  /** The net deposit of the one user of group `k`. */
  function LedgerGroup(updates: seq<LedgerUpdate>, k: seq<string>, date: Day): (s: LedgerSummary)
    requires exists i :: 0 <= i < |updates| && LedgerKey(updates[i]) == k
    ensures [s.user] == k && s.time == date
    ensures s.sumDeltaUsd == SumOf(Where(updates, LedgerKey, k), LedgerDelta)
  {
    var u := updates[FirstIndex(updates, LedgerKey, k)];
    LedgerSummary(date, u.user, SumOf(Where(updates, LedgerKey, k), LedgerDelta))
  }

  /** Net deposits per user. */
  function AggregateLedger(updates: seq<LedgerUpdate>, date: Day): (out: seq<LedgerSummary>)
    ensures var ks := GroupKeys(updates, LedgerKey);
      && |out| == |ks|
      && forall j :: 0 <= j < |out| ==>
           [out[j].user] == ks[j] && out[j].time == date
           && out[j].sumDeltaUsd == SumOf(Where(updates, LedgerKey, ks[j]), LedgerDelta)
  {
    var ks := GroupKeys(updates, LedgerKey);
    seq(|ks|, j requires 0 <= j < |ks| => assert ks[j] in ks; LedgerGroup(updates, ks[j], date))
  }

  /** Sum conservation: the per-user sums add up to the day's total delta. */
  lemma LedgerConserved(updates: seq<LedgerUpdate>, date: Day)
    ensures SumOf(AggregateLedger(updates, date), LedgerSummaryDelta) == SumOf(updates, LedgerDelta)
  {
    SumConserved(AggregateLedger(updates, date), LedgerSummaryDelta, updates, LedgerKey, LedgerDelta);
  }

  // ---------------------------------------------------------------- liquidations

  function LiquidationKey(l: Liquidation): seq<string> { [l.user, l.leverageType] }
  function LiquidatedNtl(l: Liquidation): real { l.liquidatedNtlPos }
  function LiquidatedValue(l: Liquidation): real { l.liquidatedAccountValue }

  /** A row of `liquidations_cache`. */
  datatype LiquidationsSummary = LiquidationsSummary(
    time: Day, user: string, leverageType: string,
    sumLiquidatedNtlPos: real, sumLiquidatedAccountValue: real)

  function SummaryNtl(s: LiquidationsSummary): real { s.sumLiquidatedNtlPos }
  function SummaryValue(s: LiquidationsSummary): real { s.sumLiquidatedAccountValue }

  /** The liquidation totals of one (user, leverage type) group `k`. */
  function LiquidationsGroup(ls: seq<Liquidation>, k: seq<string>, date: Day): (s: LiquidationsSummary)
    requires exists i :: 0 <= i < |ls| && LiquidationKey(ls[i]) == k
    ensures [s.user, s.leverageType] == k && s.time == date
    ensures s.sumLiquidatedNtlPos == SumOf(Where(ls, LiquidationKey, k), LiquidatedNtl)
    ensures s.sumLiquidatedAccountValue == SumOf(Where(ls, LiquidationKey, k), LiquidatedValue)
  {
    var l := ls[FirstIndex(ls, LiquidationKey, k)];
    LiquidationsSummary(date, l.user, l.leverageType,
      SumOf(Where(ls, LiquidationKey, k), LiquidatedNtl),
      SumOf(Where(ls, LiquidationKey, k), LiquidatedValue))
  }

  /** Liquidated notional and account value per (user, leverage type). */
  function AggregateLiquidations(ls: seq<Liquidation>, date: Day): (out: seq<LiquidationsSummary>)
    ensures var ks := GroupKeys(ls, LiquidationKey);
      && |out| == |ks|
      && forall j :: 0 <= j < |out| ==>
           [out[j].user, out[j].leverageType] == ks[j] && out[j].time == date
           && out[j].sumLiquidatedNtlPos == SumOf(Where(ls, LiquidationKey, ks[j]), LiquidatedNtl)
           && out[j].sumLiquidatedAccountValue == SumOf(Where(ls, LiquidationKey, ks[j]), LiquidatedValue)
  {
    var ks := GroupKeys(ls, LiquidationKey);
    seq(|ks|, j requires 0 <= j < |ks| => assert ks[j] in ks; LiquidationsGroup(ls, ks[j], date))
  }

  /** Sum conservation for both liquidation columns. */
  lemma LiquidationsConserved(ls: seq<Liquidation>, date: Day)
    ensures SumOf(AggregateLiquidations(ls, date), SummaryNtl) == SumOf(ls, LiquidatedNtl)
    ensures SumOf(AggregateLiquidations(ls, date), SummaryValue) == SumOf(ls, LiquidatedValue)
  {
    var out := AggregateLiquidations(ls, date);
    SumConserved(out, SummaryNtl, ls, LiquidationKey, LiquidatedNtl);
    SumConserved(out, SummaryValue, ls, LiquidationKey, LiquidatedValue);
  }

  // ---------------------------------------------------------------- funding

  function FundingKey(f: FundingRate): seq<string> { [f.coin] }
  function FundingOf(f: FundingRate): real { f.funding }
  function PremiumOf(f: FundingRate): real { f.premium }

  /** A row of `funding_cache`. */
  datatype FundingSummary = FundingSummary(time: Day, coin: string, sumFunding: real, sumPremium: real)

  function SummaryFunding(s: FundingSummary): real { s.sumFunding }
  function SummaryPremium(s: FundingSummary): real { s.sumPremium }

  /** The funding and premium totals of one coin. */
  function FundingGroup(rates: seq<FundingRate>, k: seq<string>, date: Day): (s: FundingSummary)
    requires exists i :: 0 <= i < |rates| && FundingKey(rates[i]) == k
    ensures [s.coin] == k && s.time == date
    ensures s.sumFunding == SumOf(Where(rates, FundingKey, k), FundingOf)
    ensures s.sumPremium == SumOf(Where(rates, FundingKey, k), PremiumOf)
  {
    var f := rates[FirstIndex(rates, FundingKey, k)];
    FundingSummary(date, f.coin,
      SumOf(Where(rates, FundingKey, k), FundingOf),
      SumOf(Where(rates, FundingKey, k), PremiumOf))
  }

  /**
   * The funding branch's view of an asset_ctxs file: the branch reads only
   * `coin`, `funding` and `premium`, which asset_ctxs rows also carry.
   */
  function CtxFundingRates(cs: seq<AssetCtx>): (rs: seq<FundingRate>)
    ensures |rs| == |cs|
    ensures forall i :: 0 <= i < |cs| ==>
              rs[i].coin == cs[i].coin && rs[i].funding == cs[i].funding && rs[i].premium == cs[i].premium
  {
    seq(|cs|, i requires 0 <= i < |cs| => FundingRate(cs[i].time, cs[i].coin, cs[i].funding, cs[i].premium))
  }

  /** Funding and premium per coin. */
  function AggregateFunding(rates: seq<FundingRate>, date: Day): (out: seq<FundingSummary>)
    ensures var ks := GroupKeys(rates, FundingKey);
      && |out| == |ks|
      && forall j :: 0 <= j < |out| ==>
           [out[j].coin] == ks[j] && out[j].time == date
           && out[j].sumFunding == SumOf(Where(rates, FundingKey, ks[j]), FundingOf)
           && out[j].sumPremium == SumOf(Where(rates, FundingKey, ks[j]), PremiumOf)
  {
    var ks := GroupKeys(rates, FundingKey);
    seq(|ks|, j requires 0 <= j < |ks| => assert ks[j] in ks; FundingGroup(rates, ks[j], date))
  }

  /** Sum conservation for funding and premium. */
  lemma FundingConserved(rates: seq<FundingRate>, date: Day)
    ensures SumOf(AggregateFunding(rates, date), SummaryFunding) == SumOf(rates, FundingOf)
    ensures SumOf(AggregateFunding(rates, date), SummaryPremium) == SumOf(rates, PremiumOf)
  {
    var out := AggregateFunding(rates, date);
    SumConserved(out, SummaryFunding, rates, FundingKey, FundingOf);
    SumConserved(out, SummaryPremium, rates, FundingKey, PremiumOf);
  }

  // ---------------------------------------------------------------- account values

  function AccountKey(v: AccountValue): seq<string> { [v.user, BoolText(v.isVault)] }

  /** A row of `account_values_cache`. */
  datatype AccountValuesSummary = AccountValuesSummary(
    time: Day, user: string, isVault: bool,
    lastAccountValue: real, lastCumVlm: real, lastCumLedger: real)

  /** `i` is the last row of its group. */
  predicate LastOfGroup<T>(rows: seq<T>, key: T -> seq<string>, i: nat) {
    i < |rows| && forall j :: i < j < |rows| ==> key(rows[j]) != key(rows[i])
  }

  /** Each (user, is_vault) keeps the values of its last row of the day. */
  function AggregateAccountValues(vs: seq<AccountValue>, date: Day): (out: seq<AccountValuesSummary>)
    ensures var ks := GroupKeys(vs, AccountKey);
      && |out| == |ks|
      && forall j :: 0 <= j < |out| ==>
           [out[j].user, BoolText(out[j].isVault)] == ks[j] && out[j].time == date
           && exists i :: 0 <= i < |vs| && AccountKey(vs[i]) == ks[j] && LastOfGroup(vs, AccountKey, i)
                && out[j].lastAccountValue == vs[i].accountValue
                && out[j].lastCumVlm == vs[i].cumVlm && out[j].lastCumLedger == vs[i].cumLedger
  {
    var ks := GroupKeys(vs, AccountKey);
    seq(|ks|, j requires 0 <= j < |ks| =>
      assert ks[j] in ks;
      var v := vs[LastIndex(vs, AccountKey, ks[j])];
      AccountValuesSummary(date, v.user, v.isVault, v.accountValue, v.cumVlm, v.cumLedger))
  }

  // ---------------------------------------------------------------- asset contexts

  function CtxKey(c: AssetCtx): seq<string> { [c.coin] }
  function CtxFunding(c: AssetCtx): real { c.funding }
  function CtxOpenInterest(c: AssetCtx): real { c.openInterest }
  function CtxPrevDayPx(c: AssetCtx): real { c.prevDayPx }
  function CtxPremium(c: AssetCtx): real { c.premium }
  function CtxOraclePx(c: AssetCtx): real { c.oraclePx }
  function CtxMarkPx(c: AssetCtx): real { c.markPx }
  function CtxMidPx(c: AssetCtx): real { c.midPx }
  function CtxImpactBidPx(c: AssetCtx): real { c.impactBidPx }
  function CtxImpactAskPx(c: AssetCtx): real { c.impactAskPx }

  /**
   * A row of `asset_ctxs_cache`. `avgDayNtlVlm` holds the LAST `day_ntl_vlm`
   * of the day (the column is named avg but reduced with `last`).
   */
  datatype AssetCtxsSummary = AssetCtxsSummary(
    time: Day, coin: string, sumFunding: real, avgOpenInterest: real, avgPrevDayPx: real,
    avgDayNtlVlm: real, avgPremium: real, avgOraclePx: real, firstOraclePx: real,
    lastOraclePx: real, avgMarkPx: real, avgMidPx: real, avgImpactBidPx: real,
    avgImpactAskPx: real)

  function SummaryCtxFunding(s: AssetCtxsSummary): real { s.sumFunding }

  /** The reduction of one coin's contexts. */
  function CtxGroup(cs: seq<AssetCtx>, k: seq<string>, date: Day): (s: AssetCtxsSummary)
    requires exists i :: 0 <= i < |cs| && CtxKey(cs[i]) == k
    ensures [s.coin] == k && s.time == date
    ensures s.sumFunding == SumOf(Where(cs, CtxKey, k), CtxFunding)
    ensures exists i :: 0 <= i < |cs| && CtxKey(cs[i]) == k && LastOfGroup(cs, CtxKey, i)
              && s.avgDayNtlVlm == cs[i].dayNtlVlm && s.lastOraclePx == cs[i].oraclePx
    ensures exists i :: 0 <= i < |cs| && CtxKey(cs[i]) == k
              && (forall j :: 0 <= j < i ==> CtxKey(cs[j]) != k) && s.firstOraclePx == cs[i].oraclePx
    ensures var g := Column(Where(cs, CtxKey, k), CtxOraclePx); |g| > 0 && Min(g) <= s.avgOraclePx <= Max(g)
    ensures s.avgOpenInterest == GroupMean(cs, CtxKey, k, CtxOpenInterest)
    ensures s.avgPrevDayPx == GroupMean(cs, CtxKey, k, CtxPrevDayPx)
    ensures s.avgPremium == GroupMean(cs, CtxKey, k, CtxPremium)
    ensures s.avgOraclePx == GroupMean(cs, CtxKey, k, CtxOraclePx)
    ensures s.avgMarkPx == GroupMean(cs, CtxKey, k, CtxMarkPx)
    ensures s.avgMidPx == GroupMean(cs, CtxKey, k, CtxMidPx)
    ensures s.avgImpactBidPx == GroupMean(cs, CtxKey, k, CtxImpactBidPx)
    ensures s.avgImpactAskPx == GroupMean(cs, CtxKey, k, CtxImpactAskPx)
  {
    var first := cs[FirstIndex(cs, CtxKey, k)];
    var last := cs[LastIndex(cs, CtxKey, k)];
    AssetCtxsSummary(
      date, first.coin,
      SumOf(Where(cs, CtxKey, k), CtxFunding),
      GroupMean(cs, CtxKey, k, CtxOpenInterest),
      GroupMean(cs, CtxKey, k, CtxPrevDayPx),
      last.dayNtlVlm,
      GroupMean(cs, CtxKey, k, CtxPremium),
      GroupMean(cs, CtxKey, k, CtxOraclePx),
      first.oraclePx,
      last.oraclePx,
      GroupMean(cs, CtxKey, k, CtxMarkPx),
      GroupMean(cs, CtxKey, k, CtxMidPx),
      GroupMean(cs, CtxKey, k, CtxImpactBidPx),
      GroupMean(cs, CtxKey, k, CtxImpactAskPx))
  }

  /** One row per coin with the day's sum, means, first and last values. */
  function AggregateAssetCtxs(cs: seq<AssetCtx>, date: Day): (out: seq<AssetCtxsSummary>)
    ensures var ks := GroupKeys(cs, CtxKey);
      && |out| == |ks|
      && forall j :: 0 <= j < |out| ==>
           [out[j].coin] == ks[j] && out[j].time == date
           && out[j].sumFunding == SumOf(Where(cs, CtxKey, ks[j]), CtxFunding)
           && ks[j] in ks && out[j] == CtxGroup(cs, ks[j], date)
  {
    var ks := GroupKeys(cs, CtxKey);
    seq(|ks|, j requires 0 <= j < |ks| => assert ks[j] in ks; CtxGroup(cs, ks[j], date))
  }

  /** Sum conservation for the funding column of the asset contexts. */
  lemma AssetCtxsFundingConserved(cs: seq<AssetCtx>, date: Day)
    ensures SumOf(AggregateAssetCtxs(cs, date), SummaryCtxFunding) == SumOf(cs, CtxFunding)
  {
    SumConserved(AggregateAssetCtxs(cs, date), SummaryCtxFunding, cs, CtxKey, CtxFunding);
  }

  // ---------------------------------------------------------------- accrued fees

  /** A row of `total_accrued_fees_cache`. */
  datatype FeesSummary = FeesSummary(time: Day, totalAccruedFees: real)

  /** The fee snapshots pass through unchanged except that their time becomes the date. */
  function PassFees(fees: seq<AccruedFees>, date: Day): (out: seq<FeesSummary>)
    ensures |out| == |fees|
    ensures forall i :: 0 <= i < |out| ==> out[i].time == date && out[i].totalAccruedFees == fees[i].totalAccruedFees
  {
    seq(|fees|, i requires 0 <= i < |fees| => FeesSummary(date, fees[i].totalAccruedFees))
  }
}
