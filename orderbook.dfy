/**
 * The slippage engine for order-book snapshots. A snapshot has a bid
 * ladder and an ask ladder of (price, size) levels, best level first.
 * For a target notional N the ask ladder is walked, taking whole levels
 * until the next level would reach N and then only the part of it that is
 * still needed; the notional-weighted average fill price is compared with
 * the mid price. A ladder too shallow for N gives the sentinel 1.
 * Prices and sizes are exact positive reals.
 */
module OrderBook {
  import opened Wrappers

  /** Prices and sizes on the book are positive. */
  type Positive = r: real | r > 0.0 witness 1.0

  datatype Level = Level(px: Positive, sz: Positive)

  /** The quote-currency value resting at a level. */
  function Notional(l: Level): (r: real)
    ensures r > 0.0
  {
    l.px * l.sz
  }

  /** Total notional of a ladder. */
  function Depth(ls: seq<Level>): (d: real)
    ensures d >= 0.0
  {
    if ls == [] then 0.0 else Notional(ls[0]) + Depth(ls[1..])
  }

  /** The sentinel recorded when the ladder cannot fill the target notional. */
  const Unfilled: real := 1.0

  function Abs(x: real): real {
    if x < 0.0 then -x else x
  }

  /**
   * What buying `q` of the target notional `n` at price `px` adds to the
   * average fill price: the fraction q / n of the target that was filled
   * (`liquidity_percentage_filled`), times the price.
   */
  function Share(q: real, n: real, px: real): real
    requires n > 0.0
  {
    q / n * px
  }

  /**
   * The ladder walk: `need` of the target notional `n` is still to be
   * filled from `asks`. Yields the contribution of these levels to the
   * average fill price, or None when the ladder runs out first.
   */
  function Fill(asks: seq<Level>, need: real, n: real): Option<real>
    requires n > 0.0
  {
    if asks == [] then None
    else if Notional(asks[0]) >= need then Some(Share(need, n, asks[0].px))
    else Shift(Fill(asks[1..], need - Notional(asks[0]), n), Share(Notional(asks[0]), n, asks[0].px))
  }

  /** Adds `a` to a contribution, if there is one. */
  function Shift(o: Option<real>, a: real): Option<real> {
    match o
    case None => None
    case Some(x) => Some(a + x)
  }

  lemma ShiftShift(o: Option<real>, a: real, b: real)
    ensures Shift(Shift(o, a), b) == Shift(o, b + a)
  {
  }

  /** The number of levels the walk reads: up to and including the level that completes the fill. */
  function LevelsRead(asks: seq<Level>, need: real): (k: nat)
    ensures k <= |asks|
    ensures asks != [] ==> k >= 1
  {
    if asks == [] then 0
    else if Notional(asks[0]) >= need then 1
    else 1 + LevelsRead(asks[1..], need - Notional(asks[0]))
  }

  /** Slippage of buying notional `n` against the ask ladder: |avg / mid - 1|, or the sentinel. */
  function SlippageOf(asks: seq<Level>, n: real, mid: real): real
    requires n > 0.0 && mid > 0.0
  {
    match Fill(asks, n, n)
    case None => Unfilled
    case Some(avg) => Abs(avg / mid - 1.0)
  }

  /** The walk from level `i` on, when level `i` does not cover what is still needed: all of it is taken. */
  lemma TakeWholeLevel(asks: seq<Level>, i: nat, need: real, n: real, avg: real)
    requires n > 0.0 && i < |asks| && Notional(asks[i]) < need
    ensures Shift(Fill(asks[i..], need, n), avg)
         == Shift(Fill(asks[i + 1..], need - Notional(asks[i]), n), avg + Share(Notional(asks[i]), n, asks[i].px))
  {
    var t := asks[i..];
    assert t[0] == asks[i] && t[1..] == asks[i + 1..];
    ShiftShift(Fill(asks[i + 1..], need - Notional(asks[i]), n), Share(Notional(asks[i]), n, asks[i].px), avg);
  }

  /** The walk from level `i` on, when level `i` covers what is still needed: only that part is taken. */
  lemma TakeLastLevel(asks: seq<Level>, i: nat, need: real, n: real, avg: real)
    requires n > 0.0 && i < |asks| && Notional(asks[i]) >= need
    ensures Shift(Fill(asks[i..], need, n), avg) == Some(avg + Share(need, n, asks[i].px))
  {
    var t := asks[i..];
    assert t[0] == asks[i];
  }

  /**
   * calculate_slippage: walks the ask ladder accumulating the filled
   * notional and the weighted price, stopping at the level that completes
   * the target.
   */
  method CalculateSlippage(asks: seq<Level>, mid: real, ntlValue: real) returns (slippage: real)
    requires ntlValue > 0.0 && mid > 0.0
    ensures slippage == SlippageOf(asks, ntlValue, mid)
    ensures slippage >= 0.0
  {
    var totalLiquidityNeeded := ntlValue;
    var averageExecutedPrice := 0.0;
    var filledLiquidity := 0.0;
    var i := 0;
    while i < |asks|
      invariant 0 <= i <= |asks|
      invariant filledLiquidity < totalLiquidityNeeded
      invariant Fill(asks, ntlValue, ntlValue)
             == Shift(Fill(asks[i..], totalLiquidityNeeded - filledLiquidity, ntlValue), averageExecutedPrice)
    {
      var level := asks[i];
      var liquidity := Notional(level);
      var price := level.px;
      if filledLiquidity + liquidity >= totalLiquidityNeeded {
        var remainingLiquidity := totalLiquidityNeeded - filledLiquidity;
        TakeLastLevel(asks, i, remainingLiquidity, ntlValue, averageExecutedPrice);
        averageExecutedPrice := averageExecutedPrice + Share(remainingLiquidity, totalLiquidityNeeded, price);
        filledLiquidity := totalLiquidityNeeded;
        break;
      } else {
        TakeWholeLevel(asks, i, totalLiquidityNeeded - filledLiquidity, ntlValue, averageExecutedPrice);
        filledLiquidity := filledLiquidity + liquidity;
        averageExecutedPrice := averageExecutedPrice + Share(liquidity, totalLiquidityNeeded, price);
      }
      i := i + 1;
    }
    assert i == |asks| ==> asks[i..] == [];
    if filledLiquidity >= totalLiquidityNeeded {
      slippage := Abs(averageExecutedPrice / mid - 1.0);
    } else {
      slippage := 1.0;
    }
  }

  /** The walk fills exactly when the ladder's total notional reaches what is needed (`>=`). */
  lemma {:induction false} FillsIffDeepEnough(asks: seq<Level>, need: real, n: real)
    requires n > 0.0 && need > 0.0
    ensures Fill(asks, need, n).Some? <==> Depth(asks) >= need
  {
    if asks != [] && Notional(asks[0]) < need {
      FillsIffDeepEnough(asks[1..], need - Notional(asks[0]), n);
    }
  }

  /** The sentinel 1 is returned for a target deeper than the ladder; a ladder exactly as deep fills. */
  lemma ShallowLadderIsUnfilled(asks: seq<Level>, n: real, mid: real)
    requires n > 0.0 && mid > 0.0
    ensures Depth(asks) < n ==> SlippageOf(asks, n, mid) == Unfilled
    ensures Depth(asks) >= n ==> Fill(asks, n, n).Some?
  {
    FillsIffDeepEnough(asks, n, n);
  }

  /** A share of a price within [lo, hi] lies within the same shares of lo and hi. */
  lemma ShareBetween(q: real, n: real, lo: real, px: real, hi: real)
    requires n > 0.0 && q >= 0.0 && lo <= px <= hi
    ensures Share(q, n, lo) <= Share(q, n, px) <= Share(q, n, hi)
  {
    var w := q / n;
    assert w >= 0.0;
    assert w * lo <= w * px <= w * hi;
  }

  /** Shares of one price add up as the quantities do. */
  lemma ShareSplit(a: real, b: real, n: real, px: real)
    requires n > 0.0
    ensures Share(a + b, n, px) == Share(a, n, px) + Share(b, n, px)
  {
    assert (a + b) / n == a / n + b / n;
  }

  /**
   * Convexity: when every level read has its price in [lo, hi], the
   * contribution of the walk lies between the shares of lo and of hi for
   * the quantity still needed.
   */
  lemma {:induction false} FillBetween(asks: seq<Level>, need: real, n: real, lo: real, hi: real)
    requires n > 0.0 && need > 0.0
    requires Fill(asks, need, n).Some?
    requires forall i :: 0 <= i < LevelsRead(asks, need) ==> lo <= asks[i].px <= hi
    ensures Share(need, n, lo) <= Fill(asks, need, n).value <= Share(need, n, hi)
  {
    var l := asks[0];
    assert lo <= l.px <= hi;
    if Notional(l) >= need {
      ShareBetween(need, n, lo, l.px, hi);
    } else {
      var rest := need - Notional(l);
      forall i | 0 <= i < LevelsRead(asks[1..], rest) ensures lo <= asks[1..][i].px <= hi {
        assert asks[1..][i] == asks[i + 1];
      }
      FillBetween(asks[1..], rest, n, lo, hi);
      ShareBetween(Notional(l), n, lo, l.px, hi);
      ShareSplit(Notional(l), rest, n, lo);
      ShareSplit(Notional(l), rest, n, hi);
      assert Notional(l) + rest == need;
    }
  }

  /** The whole target's share of a price is the price itself. */
  lemma WholeShare(n: real, px: real)
    requires n > 0.0
    ensures Share(n, n, px) == px
  {
    assert n / n == 1.0;
  }

  /** The average fill price lies between the lowest and the highest ask price consumed. */
  lemma AverageWithinConsumedPrices(asks: seq<Level>, n: real, lo: real, hi: real)
    requires n > 0.0 && Fill(asks, n, n).Some?
    requires forall i :: 0 <= i < LevelsRead(asks, n) ==> lo <= asks[i].px <= hi
    ensures lo <= Fill(asks, n, n).value <= hi
  {
    FillBetween(asks, n, n, lo, hi);
    WholeShare(n, lo);
    WholeShare(n, hi);
  }

  /** Levels after the one that completes the fill are never read: changing them changes nothing. */
  lemma {:induction false} LaterLevelsUnread(asks: seq<Level>, other: seq<Level>, need: real, n: real)
    requires n > 0.0 && Fill(asks, need, n).Some?
    requires LevelsRead(asks, need) <= |other|
    requires forall i :: 0 <= i < LevelsRead(asks, need) ==> other[i] == asks[i]
    ensures Fill(other, need, n) == Fill(asks, need, n)
    ensures LevelsRead(other, need) == LevelsRead(asks, need)
  {
    assert other[0] == asks[0];
    if Notional(asks[0]) < need {
      var rest := need - Notional(asks[0]);
      forall i | 0 <= i < LevelsRead(asks[1..], rest) ensures other[1..][i] == asks[1..][i] {
        assert other[i + 1] == asks[i + 1];
      }
      LaterLevelsUnread(asks[1..], other[1..], rest, n);
    }
  }

  /** When the best ask alone covers the target, the average fill price is that ask's price. */
  lemma BestLevelCovers(asks: seq<Level>, n: real)
    requires n > 0.0 && |asks| > 0 && Notional(asks[0]) >= n
    ensures Fill(asks, n, n) == Some(asks[0].px as real)
    ensures LevelsRead(asks, n) == 1
  {
    WholeShare(n, asks[0].px);
  }

  /** A snapshot of the order book of one coin. */
  datatype Snapshot = Snapshot(time: nat, coin: string, bids: seq<Level>, asks: seq<Level>)

  /** Total resting notional over both sides of the book. */
  function Liquidity(s: Snapshot): (l: real)
    ensures l >= Depth(s.asks) && l >= Depth(s.bids)
  {
    Depth(s.bids) + Depth(s.asks)
  }

  /** The mid price between the first bid level and the first ask level. */
  function Mid(s: Snapshot): (m: real)
    requires |s.bids| > 0 && |s.asks| > 0
    ensures m > 0.0
    ensures s.bids[0].px <= s.asks[0].px ==> s.bids[0].px <= m <= s.asks[0].px
  {
    (s.bids[0].px + s.asks[0].px) / 2.0
  }

  /** The target notionals of the slippage columns. */
  const NotionalTiers: seq<real> := [0.01, 1000.0, 3000.0, 10000.0, 30000.0, 100000.0]

  /** The slippage of a snapshot for every tier. */
  function SlippageCurve(s: Snapshot): (c: seq<real>)
    requires |s.bids| > 0 && |s.asks| > 0
    ensures |c| == |NotionalTiers|
    ensures forall t :: 0 <= t < |c| ==> c[t] == SlippageOf(s.asks, NotionalTiers[t], Mid(s))
  {
    seq(|NotionalTiers|, t requires 0 <= t < |NotionalTiers| => SlippageOf(s.asks, NotionalTiers[t], Mid(s)))
  }
}
