/**
 * `update_market_data_cache` for one hourly order-book shard: every snapshot
 * gets its two-sided liquidity, its mid price and its slippage at each
 * notional tier, and the snapshots are reduced per coin to the median
 * liquidity, the median slippage per tier and the mean mid price.
 */
module Market {
  import opened Wrappers
  import opened Calendar
  import opened Stats
  import opened GroupBy
  import opened OrderBook

  /** A snapshot with at least one bid level and one ask level: the best of each side exists. */
  predicate TwoSided(s: Snapshot) {
    |s.bids| > 0 && |s.asks| > 0
  }

  function SnapshotKey(s: Snapshot): seq<string> { [s.coin] }

  /** The `mid` column (only ever read for two-sided snapshots). */
  function MidOf(s: Snapshot): real {
    if TwoSided(s) then Mid(s) else 0.0
  }

  /** The `slippage_<tier>` column for tier number `t` (only ever read for two-sided snapshots). */
  function SlippageAt(t: nat): Snapshot -> real {
    s => if TwoSided(s) && t < |NotionalTiers| then SlippageOf(s.asks, NotionalTiers[t], Mid(s)) else Unfilled
  }

  /** A row of `market_data_cache`: one coin of one shard. */
  datatype MarketSummary = MarketSummary(
    time: Day, coin: string, medianLiquidity: real, medianSlippage: seq<real>, midPrice: real)

  /** The reduction of one coin's snapshots. */
  function MarketGroup(snaps: seq<Snapshot>, k: seq<string>, date: Day): (s: MarketSummary)
    requires exists i :: 0 <= i < |snaps| && SnapshotKey(snaps[i]) == k
    ensures [s.coin] == k && s.time == date
    ensures s.medianLiquidity == GroupMedian(snaps, SnapshotKey, k, Liquidity)
    ensures s.midPrice == GroupMean(snaps, SnapshotKey, k, MidOf)
    ensures |s.medianSlippage| == |NotionalTiers|
    ensures forall t :: 0 <= t < |NotionalTiers| ==> s.medianSlippage[t] == GroupMedian(snaps, SnapshotKey, k, SlippageAt(t))
  {
    var first := snaps[FirstIndex(snaps, SnapshotKey, k)];
    MarketSummary(
      date, first.coin,
      GroupMedian(snaps, SnapshotKey, k, Liquidity),
      seq(|NotionalTiers|, t requires 0 <= t < |NotionalTiers| => GroupMedian(snaps, SnapshotKey, k, SlippageAt(t))),
      GroupMean(snaps, SnapshotKey, k, MidOf))
  }

  /**
   * The aggregation of one shard. An empty shard has no `levels` column and
   * a snapshot with an empty side has no best price; both raise, and the
   * shard is skipped.
   */
  function AggregateMarket(snaps: seq<Snapshot>, date: Day): (r: Result<seq<MarketSummary>>)
    ensures r.Success? <==> snaps != [] && forall i :: 0 <= i < |snaps| ==> TwoSided(snaps[i])
    ensures r.Success? ==> var ks := GroupKeys(snaps, SnapshotKey);
      && |r.value| == |ks|
      && forall j :: 0 <= j < |r.value| ==> [r.value[j].coin] == ks[j] && r.value[j].time == date
  {
    if snaps == [] then Failure("KeyError: 'levels'")
    else if exists i :: 0 <= i < |snaps| && !TwoSided(snaps[i]) then Failure("IndexError: list index out of range")
    else
      Success(MarketRows(snaps, date))
  }

  /** The summaries of every group, in key order. */
  function MarketRows(snaps: seq<Snapshot>, date: Day): (rows: seq<MarketSummary>)
    ensures var ks := GroupKeys(snaps, SnapshotKey);
      && |rows| == |ks|
      && forall j :: 0 <= j < |rows| ==>
           [rows[j].coin] == ks[j] && rows[j].time == date
           && ks[j] in ks && rows[j] == MarketGroup(snaps, ks[j], date)
  {
    var ks := GroupKeys(snaps, SnapshotKey);
    seq(|ks|, j requires 0 <= j < |ks| => MarketRow(snaps, j, date))
  }

  /** Output row `j` of the market-data aggregation: the summary of group `j` in key order. */
  function MarketRow(snaps: seq<Snapshot>, j: nat, date: Day): (s: MarketSummary)
    requires j < |GroupKeys(snaps, SnapshotKey)|
    ensures [s.coin] == GroupKeys(snaps, SnapshotKey)[j] && s.time == date
    ensures GroupKeys(snaps, SnapshotKey)[j] in GroupKeys(snaps, SnapshotKey)
    ensures s == MarketGroup(snaps, GroupKeys(snaps, SnapshotKey)[j], date)
  {
    var ks := GroupKeys(snaps, SnapshotKey);
    assert ks[j] in ks;
    MarketGroup(snaps, ks[j], date)
  }

  /** A group whose every value is at least `lo` has its median at least `lo`. */
  lemma MedianAtLeast<T>(rows: seq<T>, key: T -> seq<string>, k: seq<string>, f: T -> real, lo: real)
    requires exists i :: 0 <= i < |rows| && key(rows[i]) == k
    requires forall i :: 0 <= i < |rows| && key(rows[i]) == k ==> f(rows[i]) >= lo
    ensures GroupMedian(rows, key, k, f) >= lo
  {
    var g := Where(rows, key, k);
    var c := Column(g, f);
    var i :| 0 <= i < |c| && c[i] == Min(c);
    assert g[i] in rows;
  }

  /** A group whose every value is above `lo` has its mean above `lo`. */
  lemma MeanAbove<T>(rows: seq<T>, key: T -> seq<string>, k: seq<string>, f: T -> real, lo: real)
    requires exists i :: 0 <= i < |rows| && key(rows[i]) == k
    requires forall i :: 0 <= i < |rows| && key(rows[i]) == k ==> f(rows[i]) > lo
    ensures GroupMean(rows, key, k, f) > lo
  {
    var g := Where(rows, key, k);
    var c := Column(g, f);
    var i :| 0 <= i < |c| && c[i] == Min(c);
    assert g[i] in rows;
  }

  /** Every reduced value of one coin is in range: liquidity and slippage are non-negative, the mid price positive. */
  lemma MarketGroupBounds(snaps: seq<Snapshot>, k: seq<string>)
    requires exists i :: 0 <= i < |snaps| && SnapshotKey(snaps[i]) == k
    requires forall i :: 0 <= i < |snaps| ==> TwoSided(snaps[i])
    ensures GroupMedian(snaps, SnapshotKey, k, Liquidity) >= 0.0
    ensures GroupMean(snaps, SnapshotKey, k, MidOf) > 0.0
    ensures forall t :: 0 <= t < |NotionalTiers| ==> GroupMedian(snaps, SnapshotKey, k, SlippageAt(t)) >= 0.0
  {
    MedianAtLeast(snaps, SnapshotKey, k, Liquidity, 0.0);
    MidMeanPositive(snaps, k);
    forall t | 0 <= t < |NotionalTiers| ensures GroupMedian(snaps, SnapshotKey, k, SlippageAt(t)) >= 0.0 {
      SlippageMedianNonNegative(snaps, k, t);
    }
  }

  /** The mean mid price of a coin whose snapshots are all two-sided is positive. */
  lemma MidMeanPositive(snaps: seq<Snapshot>, k: seq<string>)
    requires exists i :: 0 <= i < |snaps| && SnapshotKey(snaps[i]) == k
    requires forall i :: 0 <= i < |snaps| ==> TwoSided(snaps[i])
    ensures GroupMean(snaps, SnapshotKey, k, MidOf) > 0.0
  {
    MeanAbove(snaps, SnapshotKey, k, MidOf, 0.0);
  }

  /** The median slippage of a coin at one tier is non-negative. */
  lemma SlippageMedianNonNegative(snaps: seq<Snapshot>, k: seq<string>, t: nat)
    requires exists i :: 0 <= i < |snaps| && SnapshotKey(snaps[i]) == k
    requires forall i :: 0 <= i < |snaps| ==> TwoSided(snaps[i])
    requires t < |NotionalTiers|
    ensures GroupMedian(snaps, SnapshotKey, k, SlippageAt(t)) >= 0.0
  {
    MedianAtLeast(snaps, SnapshotKey, k, SlippageAt(t), 0.0);
  }

  /** Every row of a shard's aggregation is in range. */
  lemma MarketBounds(snaps: seq<Snapshot>, date: Day)
    requires AggregateMarket(snaps, date).Success?
    ensures var out := AggregateMarket(snaps, date).value;
      forall j :: 0 <= j < |out| ==>
        && out[j].medianLiquidity >= 0.0 && out[j].midPrice > 0.0
        && |out[j].medianSlippage| == |NotionalTiers|
        && forall t :: 0 <= t < |NotionalTiers| ==> out[j].medianSlippage[t] >= 0.0
  {
    var ks := GroupKeys(snaps, SnapshotKey);
    var out := AggregateMarket(snaps, date).value;
    forall j | 0 <= j < |out|
      ensures out[j].medianLiquidity >= 0.0 && out[j].midPrice > 0.0
      ensures |out[j].medianSlippage| == |NotionalTiers|
      ensures forall t :: 0 <= t < |NotionalTiers| ==> out[j].medianSlippage[t] >= 0.0
    {
      assert ks[j] in ks;
      assert out[j] == MarketRow(snaps, j, date) == MarketGroup(snaps, ks[j], date);
      MarketGroupBounds(snaps, ks[j]);
    }
  }

  /** A tier that no snapshot of the coin can fill has median slippage exactly 1. */
  lemma UnfillableTier(snaps: seq<Snapshot>, k: seq<string>, date: Day, t: nat)
    requires exists i :: 0 <= i < |snaps| && SnapshotKey(snaps[i]) == k
    requires forall i :: 0 <= i < |snaps| ==> TwoSided(snaps[i])
    requires t < |NotionalTiers|
    requires forall i :: 0 <= i < |snaps| && snaps[i].coin == k[0] ==> Depth(snaps[i].asks) < NotionalTiers[t]
    ensures MarketGroup(snaps, k, date).medianSlippage[t] == Unfilled
  {
    var g := Where(snaps, SnapshotKey, k);
    GroupNotEmpty(snaps, SnapshotKey, k);
    var c := Column(g, SlippageAt(t));
    forall i | 0 <= i < |g| ensures c[i] == Unfilled {
      assert g[i] in snaps;
      assert g[i].coin == k[0];
      ShallowLadderIsUnfilled(g[i].asks, NotionalTiers[t], Mid(g[i]));
    }
    var lo :| 0 <= lo < |c| && c[lo] == Min(c);
    var hi :| 0 <= hi < |c| && c[hi] == Max(c);
  }
}
