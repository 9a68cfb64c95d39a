/**
 * `generate_hlp_positions`: the HLP vault's position sizes are joined with
 * the day's asset contexts on the timestamp (a right join: every position
 * row is kept, paired with every context row of the same timestamp), each
 * joined row is valued at `size[coin] * oracle_px`, and the notionals are
 * averaged per coin, signed and absolute.
 */
module Hlp {
  import opened Wrappers
  import opened Calendar
  import opened Stats
  import opened GroupBy
  import opened Records
  import opened OrderBook

  /** A joined row reduced to the columns the aggregation keeps. */
  datatype Exposure = Exposure(coin: string, ntl: real, ntlAbs: real)

  /** The value of a position: size times oracle price. */
  function Exposed(size: real, oraclePx: real): real { size * oraclePx }

  function CtxTime(c: AssetCtx): Stamp { c.time }
  function ExposureKey(e: Exposure): seq<string> { [e.coin] }
  function NetOf(e: Exposure): real { e.ntl }
  function GrossOf(e: Exposure): real { e.ntlAbs }

  /** The `ntl_abs` column is the absolute value of the `ntl` column. */
  predicate Consistent(es: seq<Exposure>) {
    forall i :: 0 <= i < |es| ==> es[i].ntlAbs == Abs(es[i].ntl)
  }

  /**
   * Values one position row against the context rows of its timestamp. A
   * context coin that is not a column of the position file is a lookup
   * error.
   */
  function Exposures(matches: seq<AssetCtx>, sizes: map<string, real>): (r: Result<seq<Exposure>>)
    ensures r.Success? <==> forall i :: 0 <= i < |matches| ==> matches[i].coin in sizes
    ensures r.Success? ==> |r.value| == |matches| && Consistent(r.value)
    ensures r.Success? ==> forall i :: 0 <= i < |matches| ==>
      r.value[i].coin == matches[i].coin && r.value[i].ntl == Exposed(sizes[matches[i].coin], matches[i].oraclePx)
  {
    if matches == [] then Success([])
    else
      var c := matches[0];
      if c.coin !in sizes then Failure("KeyError: " + c.coin)
      else
        match Exposures(matches[1..], sizes)
        case Failure(e) => Failure(e)
        case Success(rest) =>
          var ntl := Exposed(sizes[c.coin], c.oraclePx);
          Success([Exposure(c.coin, ntl, Abs(ntl))] + rest)
  }

  /** A position row whose timestamp has context rows, all of whose coins it holds a size for. */
  predicate Joinable(ctxs: seq<AssetCtx>, p: HlpPosition) {
    && (exists j :: 0 <= j < |ctxs| && ctxs[j].time == p.time)
    && forall j :: 0 <= j < |ctxs| && ctxs[j].time == p.time ==> ctxs[j].coin in p.sizes
  }

  /** The matches of a timestamp are empty exactly when no context row has it, and cover every context row that has it. */
  lemma MatchesOf(ctxs: seq<AssetCtx>, p: HlpPosition)
    ensures var m := Where(ctxs, CtxTime, p.time);
      (m == [] <==> forall j :: 0 <= j < |ctxs| ==> ctxs[j].time != p.time)
      && ((forall i :: 0 <= i < |m| ==> m[i].coin in p.sizes)
          <==> forall j :: 0 <= j < |ctxs| && ctxs[j].time == p.time ==> ctxs[j].coin in p.sizes)
  {
    var m := Where(ctxs, CtxTime, p.time);
    if m != [] {
      assert m[0] in ctxs;
    }
    forall j | 0 <= j < |ctxs| && ctxs[j].time == p.time
      ensures ctxs[j] in m
    {
    }
  }

  /**
   * The right join followed by the valuation, one position row after
   * another. A position timestamp with no context row leaves the joined coin
   * missing, and looking the position up by it fails.
   */
  function JoinRows(ctxs: seq<AssetCtx>, positions: seq<HlpPosition>): (r: Result<seq<Exposure>>)
    ensures r.Success? ==> Consistent(r.value)
  {
    if positions == [] then Success([])
    else
      var p := positions[0];
      var m := Where(ctxs, CtxTime, p.time);
      if m == [] then Failure("KeyError: nan")
      else
        match Exposures(m, p.sizes)
        case Failure(e) => Failure(e)
        case Success(es) =>
          match JoinRows(ctxs, positions[1..])
          case Failure(e) => Failure(e)
          case Success(rest) => Success(es + rest)
  }

  /**
   * The join and valuation of a whole positions file. A file without rows
   * gives a joined frame without rows; `apply` on it returns a frame rather
   * than a column, and assigning that frame to `ntl` raises.
   */
  function Join(ctxs: seq<AssetCtx>, positions: seq<HlpPosition>): (r: Result<seq<Exposure>>)
    ensures r.Success? ==> positions != [] && Consistent(r.value)
  {
    if positions == [] then Failure("ValueError: Cannot set a DataFrame with multiple columns to the single column ntl")
    else JoinRows(ctxs, positions)
  }

  /** A position row is joinable exactly when the join's step for it succeeds. */
  lemma JoinableIff(ctxs: seq<AssetCtx>, p: HlpPosition)
    ensures var m := Where(ctxs, CtxTime, p.time);
      Joinable(ctxs, p) <==> m != [] && Exposures(m, p.sizes).Success?
  {
    MatchesOf(ctxs, p);
  }

  /** The row-by-row join succeeds exactly when every position row is joinable. */
  lemma {:induction false} JoinRowsSucceedsIff(ctxs: seq<AssetCtx>, positions: seq<HlpPosition>)
    ensures JoinRows(ctxs, positions).Success? <==> forall i :: 0 <= i < |positions| ==> Joinable(ctxs, positions[i])
  {
    if positions != [] {
      var p := positions[0];
      JoinableIff(ctxs, p);
      JoinRowsSucceedsIff(ctxs, positions[1..]);
      assert (forall i :: 0 <= i < |positions| ==> Joinable(ctxs, positions[i]))
        <==> Joinable(ctxs, p) && forall i :: 0 <= i < |positions[1..]| ==> Joinable(ctxs, positions[1..][i]) by {
        assert forall i :: 1 <= i < |positions| ==> positions[i] == positions[1..][i - 1];
      }
    }
  }

  /** The join succeeds exactly when the file has rows and every one of them is joinable. */
  lemma JoinSucceedsIff(ctxs: seq<AssetCtx>, positions: seq<HlpPosition>)
    ensures Join(ctxs, positions).Success?
            <==> positions != [] && forall i :: 0 <= i < |positions| ==> Joinable(ctxs, positions[i])
  {
    JoinRowsSucceedsIff(ctxs, positions);
  }

  /** A row of `hlp_positions_cache`. */
  datatype HlpSummary = HlpSummary(time: Day, coin: string, ntl: real, ntlAbs: real)

  /** The mean signed and absolute notional of one coin. */
  function HlpGroup(es: seq<Exposure>, k: seq<string>, date: Day): (s: HlpSummary)
    requires exists i :: 0 <= i < |es| && ExposureKey(es[i]) == k
    ensures [s.coin] == k && s.time == date
    ensures s.ntl == GroupMean(es, ExposureKey, k, NetOf)
    ensures s.ntlAbs == GroupMean(es, ExposureKey, k, GrossOf)
  {
    var e := es[FirstIndex(es, ExposureKey, k)];
    HlpSummary(date, e.coin, GroupMean(es, ExposureKey, k, NetOf), GroupMean(es, ExposureKey, k, GrossOf))
  }

  /** The HLP aggregation of one day: the per-coin means of the joined rows, or the join's error. */
  function AggregateHlp(ctxs: seq<AssetCtx>, positions: seq<HlpPosition>, date: Day): (r: Result<seq<HlpSummary>>)
    ensures r.Success? <==> Join(ctxs, positions).Success?
    ensures r.Success? ==> var ks := GroupKeys(Join(ctxs, positions).value, ExposureKey);
      && |r.value| == |ks|
      && forall j :: 0 <= j < |r.value| ==>
           [r.value[j].coin] == ks[j] && r.value[j].time == date
           && ks[j] in ks && r.value[j] == HlpGroup(Join(ctxs, positions).value, ks[j], date)
  {
    match Join(ctxs, positions)
    case Failure(e) => Failure(e)
    case Success(es) =>
      var ks := GroupKeys(es, ExposureKey);
      Success(seq(|ks|, j requires 0 <= j < |ks| => assert ks[j] in ks; HlpGroup(es, ks[j], date)))
  }

  /** Over consistent rows, the net sum is bounded in size by the gross sum. */
  lemma {:induction false} NetWithinGross(es: seq<Exposure>)
    requires Consistent(es)
    ensures -SumOf(es, GrossOf) <= SumOf(es, NetOf) <= SumOf(es, GrossOf)
  {
    if es != [] {
      NetWithinGross(es[..|es| - 1]);
    }
  }

  /** Dividing `-b <= a <= b` by a positive count. */
  lemma DivideAbs(a: real, b: real, n: real)
    requires n > 0.0 && -b <= a <= b
    ensures Abs(a / n) <= b / n
  {
    assert a / n * n == a && b / n * n == b;
  }

  /** The mean net notional of a group never exceeds its mean absolute notional in size. */
  lemma MeanNetWithinGross(es: seq<Exposure>, k: seq<string>)
    requires Consistent(es) && exists i :: 0 <= i < |es| && ExposureKey(es[i]) == k
    ensures Abs(GroupMean(es, ExposureKey, k, NetOf)) <= GroupMean(es, ExposureKey, k, GrossOf)
  {
    var g := Where(es, ExposureKey, k);
    forall i | 0 <= i < |g| ensures g[i].ntlAbs == Abs(g[i].ntl) {
      assert g[i] in es;
    }
    NetWithinGross(g);
    SumOfColumn(g, NetOf);
    SumOfColumn(g, GrossOf);
    GroupNotEmpty(es, ExposureKey, k);
    DivideAbs(SumOf(g, NetOf), SumOf(g, GrossOf), |g| as real);
  }

  /** Every row of the HLP cache has `|ntl| <= ntl_abs`. */
  lemma HlpNetWithinGross(ctxs: seq<AssetCtx>, positions: seq<HlpPosition>, date: Day)
    requires AggregateHlp(ctxs, positions, date).Success?
    ensures var out := AggregateHlp(ctxs, positions, date).value;
      forall j :: 0 <= j < |out| ==> Abs(out[j].ntl) <= out[j].ntlAbs
  {
    var es := Join(ctxs, positions).value;
    var ks := GroupKeys(es, ExposureKey);
    var out := AggregateHlp(ctxs, positions, date).value;
    forall j | 0 <= j < |out| ensures Abs(out[j].ntl) <= out[j].ntlAbs {
      assert ks[j] in ks;
      MeanNetWithinGross(es, ks[j]);
      assert out[j] == HlpGroup(es, ks[j], date);
    }
  }
}
