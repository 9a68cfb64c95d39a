/**
 * The in-process pieces of the dashboard API in `app.py`: the cumulative
 * PnL series (a stable sort by time of the chart data, in place, then a
 * running sum), the row-level meaning of `apply_filters`, and the share of
 * a day's users with its default denominator.
 */
module Dashboard {
  import opened Wrappers

  // ---------------------------------------------------------------- cumulative PnL

  /** One `{"time", "pnl"}` entry of the chart data; times compare as numbers. */
  datatype PnlEntry = PnlEntry(time: int, pnl: real)

  /** One `{"time", "cumulative_pnl"}` entry of the result. */
  datatype CumulativeEntry = CumulativeEntry(time: int, cumulativePnl: real)

  predicate SortedByTime(s: seq<PnlEntry>) {
    forall i, j :: 0 <= i < j < |s| ==> s[i].time <= s[j].time
  }

  /** The entries of `s` at time `t`, in their order in `s`. */
  function AtTime(s: seq<PnlEntry>, t: int): seq<PnlEntry>
    decreases |s|
  {
    if s == [] then []
    else AtTime(s[..|s| - 1], t) + (if s[|s| - 1].time == t then [s[|s| - 1]] else [])
  }

  /** The sum of the pnl values, left to right. */
  function SumPnl(s: seq<PnlEntry>): real
    decreases |s|
  {
    if s == [] then 0.0 else SumPnl(s[..|s| - 1]) + s[|s| - 1].pnl
  }

  /** Place `x` after every entry of `s` whose time is not later than its own. */
  function InsertByTime(x: PnlEntry, s: seq<PnlEntry>): (r: seq<PnlEntry>)
    ensures |r| == |s| + 1
    decreases |s|
  {
    if s == [] || s[|s| - 1].time <= x.time then s + [x]
    else InsertByTime(x, s[..|s| - 1]) + [s[|s| - 1]]
  }

  /** `list.sort(key=time)`: a stable sort, here by insertion from the left. */
  function SortByTime(s: seq<PnlEntry>): (r: seq<PnlEntry>)
    ensures |r| == |s|
    decreases |s|
  {
    if s == [] then [] else InsertByTime(s[|s| - 1], SortByTime(s[..|s| - 1]))
  }

  /** Inserting into a sorted sequence keeps it sorted, and adds no entry but the inserted one. */
  lemma {:induction false} InsertSorted(x: PnlEntry, s: seq<PnlEntry>)
    requires SortedByTime(s)
    ensures SortedByTime(InsertByTime(x, s))
    ensures forall i :: 0 <= i < |InsertByTime(x, s)| ==> InsertByTime(x, s)[i] in s || InsertByTime(x, s)[i] == x
    decreases |s|
  {
    if s != [] && s[|s| - 1].time > x.time {
      var init := s[..|s| - 1];
      var last := s[|s| - 1];
      assert SortedByTime(init);
      InsertSorted(x, init);
      var r := InsertByTime(x, init);
      forall i | 0 <= i < |r| ensures r[i].time <= last.time {
        if r[i] != x {
          var k :| 0 <= k < |init| && init[k] == r[i];
        }
      }
      forall i | 0 <= i < |r| ensures (r + [last])[i] in s || (r + [last])[i] == x {
        if r[i] != x {
          var k :| 0 <= k < |init| && init[k] == r[i];
          assert s[k] == r[i];
        }
      }
    }
  }

  lemma {:induction false} InsertMultiset(x: PnlEntry, s: seq<PnlEntry>)
    ensures multiset(InsertByTime(x, s)) == multiset(s) + multiset{x}
    decreases |s|
  {
    if s != [] && s[|s| - 1].time > x.time {
      InsertMultiset(x, s[..|s| - 1]);
      assert s == s[..|s| - 1] + [s[|s| - 1]];
    }
  }

  lemma {:induction false} AtTimeAppend(a: seq<PnlEntry>, b: seq<PnlEntry>, t: int)
    ensures AtTime(a + b, t) == AtTime(a, t) + AtTime(b, t)
    decreases |b|
  {
    if b == [] {
      assert a + b == a;
    } else {
      var ab := a + b;
      var last := b[|b| - 1];
      assert ab[..|ab| - 1] == a + b[..|b| - 1];
      assert ab[|ab| - 1] == last;
      AtTimeAppend(a, b[..|b| - 1], t);
      var tail := if last.time == t then [last] else [];
      assert AtTime(ab, t) == AtTime(a, t) + AtTime(b[..|b| - 1], t) + tail;
    }
  }

  /** Inserting adds the entry at the end of its own time's entries. */
  lemma {:induction false} InsertAtTime(x: PnlEntry, s: seq<PnlEntry>, t: int)
    ensures AtTime(InsertByTime(x, s), t) == AtTime(s, t) + (if x.time == t then [x] else [])
    decreases |s|
  {
    if s == [] || s[|s| - 1].time <= x.time {
      AtTimeAppend(s, [x], t);
    } else {
      var init := s[..|s| - 1];
      var last := s[|s| - 1];
      var r := InsertByTime(x, init);
      InsertAtTime(x, init, t);
      assert InsertByTime(x, s) == r + [last];
      AtTimeAppend(r, [last], t);
      var here := AtTime([last], t);
      assert here == (if last.time == t then [last] else []);
      assert AtTime(s, t) == AtTime(init, t) + here;
      var extra := if x.time == t then [x] else [];
      // `last` is later than `x`, so at most one of them is at time `t`.
      assert here == [] || extra == [];
      calc {
        AtTime(InsertByTime(x, s), t);
        AtTime(r, t) + here;
        (AtTime(init, t) + extra) + here;
        (AtTime(init, t) + here) + extra;
      }
    }
  }

  lemma {:induction false} InsertSum(x: PnlEntry, s: seq<PnlEntry>)
    ensures SumPnl(InsertByTime(x, s)) == SumPnl(s) + x.pnl
    decreases |s|
  {
    if s != [] && s[|s| - 1].time > x.time {
      var init := s[..|s| - 1];
      InsertSum(x, init);
      var r := InsertByTime(x, init) + [s[|s| - 1]];
      assert r[..|r| - 1] == InsertByTime(x, init);
    } else {
      assert (s + [x])[..|s|] == s;
    }
  }

  /**
   * The sort is a stable sort by time: the result is ordered by time, is a
   * permutation of the input, and keeps the entries of each time in their
   * input order.
   */
  lemma {:induction false} SortByTimeIsStable(s: seq<PnlEntry>)
    ensures SortedByTime(SortByTime(s))
    ensures multiset(SortByTime(s)) == multiset(s)
    ensures forall t :: AtTime(SortByTime(s), t) == AtTime(s, t)
    decreases |s|
  {
    if s != [] {
      var init := s[..|s| - 1];
      var last := s[|s| - 1];
      SortByTimeIsStable(init);
      InsertSorted(last, SortByTime(init));
      InsertMultiset(last, SortByTime(init));
      assert s == init + [last];
      forall t ensures AtTime(SortByTime(s), t) == AtTime(s, t) {
        InsertAtTime(last, SortByTime(init), t);
      }
    }
  }

  /** Sorting does not change the total pnl. */
  lemma {:induction false} SortKeepsTotal(s: seq<PnlEntry>)
    ensures SumPnl(SortByTime(s)) == SumPnl(s)
    decreases |s|
  {
    if s != [] {
      SortKeepsTotal(s[..|s| - 1]);
      InsertSum(s[|s| - 1], SortByTime(s[..|s| - 1]));
    }
  }

  /**
   * `calculate_cumulative_pnl`: sort the chart data by time in place, then
   * emit, for each entry in that order, its time and the running sum of pnl
   * up to and including it.
   */
  method CalculateCumulativePnl(chartData: array<PnlEntry>) returns (cumulative: seq<CumulativeEntry>)
    modifies chartData
    ensures chartData[..] == SortByTime(old(chartData[..]))
    ensures |cumulative| == chartData.Length
    ensures forall i :: 0 <= i < |cumulative| ==>
              cumulative[i] == CumulativeEntry(chartData[i].time, SumPnl(chartData[..i + 1]))
  {
    var sorted := SortByTime(chartData[..]);
    forall i | 0 <= i < chartData.Length {
      chartData[i] := sorted[i];
    }
    assert chartData[..] == sorted;
    var total := 0.0;
    cumulative := [];
    var i := 0;
    while i < chartData.Length
      invariant 0 <= i <= chartData.Length
      invariant total == SumPnl(chartData[..i])
      invariant |cumulative| == i
      invariant forall k :: 0 <= k < i ==> cumulative[k] == CumulativeEntry(chartData[k].time, SumPnl(chartData[..k + 1]))
    {
      assert chartData[..i + 1][..i] == chartData[..i];
      total := total + chartData[i].pnl;
      cumulative := cumulative + [CumulativeEntry(chartData[i].time, total)];
      i := i + 1;
    }
  }

  /** Each running sum adds exactly its own entry's pnl to the one before. */
  lemma RunningSumStep(s: seq<PnlEntry>, i: nat)
    requires i < |s|
    ensures SumPnl(s[..i + 1]) == SumPnl(s[..i]) + s[i].pnl
  {
    assert s[..i + 1][..i] == s[..i];
  }

  /** The last running sum of the sorted data is the total pnl of the data as given. */
  lemma LastIsTotal(s: seq<PnlEntry>)
    requires s != []
    ensures SumPnl(SortByTime(s)[..|s|]) == SumPnl(s)
  {
    assert SortByTime(s)[..|s|] == SortByTime(s);
    SortKeepsTotal(s);
  }

  // ---------------------------------------------------------------- apply_filters

  /** The columns `apply_filters` reads: `time` and `coin`. */
  datatype FilterRow = FilterRow(time: int, coin: string)

  /**
   * The filter arguments: a falsy start or end date is `None`; `coins` is
   * `None` when absent.
   */
  datatype Filters = Filters(start: Option<int>, end: Option<int>, coins: Option<seq<string>>)

  /** The conjunction `apply_filters` stands for: each supplied bound holds and the coin is listed. */
  predicate Keep(r: FilterRow, f: Filters) {
    && (f.start.None? || r.time >= f.start.value)
    && (f.end.None? || r.time <= f.end.value)
    && (f.coins.None? || f.coins.value == [] || r.coin in f.coins.value)
  }

  /** The rows satisfying the conjunction, in order. */
  function KeepRows(rows: seq<FilterRow>, f: Filters): seq<FilterRow>
    decreases |rows|
  {
    if rows == [] then []
    else KeepRows(rows[..|rows| - 1], f) + (if Keep(rows[|rows| - 1], f) then [rows[|rows| - 1]] else [])
  }

  function FromStart(rows: seq<FilterRow>, start: int): seq<FilterRow>
    decreases |rows|
  {
    if rows == [] then []
    else FromStart(rows[..|rows| - 1], start) + (if rows[|rows| - 1].time >= start then [rows[|rows| - 1]] else [])
  }

  function UpToEnd(rows: seq<FilterRow>, end: int): seq<FilterRow>
    decreases |rows|
  {
    if rows == [] then []
    else UpToEnd(rows[..|rows| - 1], end) + (if rows[|rows| - 1].time <= end then [rows[|rows| - 1]] else [])
  }

  function InCoins(rows: seq<FilterRow>, coins: seq<string>): seq<FilterRow>
    decreases |rows|
  {
    if rows == [] then []
    else InCoins(rows[..|rows| - 1], coins) + (if rows[|rows| - 1].coin in coins then [rows[|rows| - 1]] else [])
  }

  /** `apply_filters`: a `WHERE` per truthy argument, one after another. */
  function ApplyFilters(rows: seq<FilterRow>, f: Filters): seq<FilterRow> {
    var q1 := if f.start.Some? then FromStart(rows, f.start.value) else rows;
    var q2 := if f.end.Some? then UpToEnd(q1, f.end.value) else q1;
    if f.coins.Some? && f.coins.value != [] then InCoins(q2, f.coins.value) else q2
  }

  /** Keeping the rows of one conjunct, then those of another, keeps the rows of their conjunction. */
  lemma {:induction false} ApplyFiltersIsKeep(rows: seq<FilterRow>, f: Filters)
    ensures ApplyFilters(rows, f) == KeepRows(rows, f)
    decreases |rows|
  {
    if rows != [] {
      var init := rows[..|rows| - 1];
      ApplyFiltersIsKeep(init, f);
      var last := rows[|rows| - 1];
      var q1 := if f.start.Some? then FromStart(rows, f.start.value) else rows;
      var p1 := if f.start.Some? then FromStart(init, f.start.value) else init;
      var keep1 := f.start.None? || last.time >= f.start.value;
      assert q1 == p1 + (if keep1 then [last] else []);
      var q2 := if f.end.Some? then UpToEnd(q1, f.end.value) else q1;
      var p2 := if f.end.Some? then UpToEnd(p1, f.end.value) else p1;
      var keep2 := keep1 && (f.end.None? || last.time <= f.end.value);
      assert q2 == p2 + (if keep2 then [last] else []) by {
        if f.end.Some? {
          if keep1 {
            assert (p1 + [last])[..|p1 + [last]| - 1] == p1;
          } else {
            assert q1 == p1;
          }
        }
      }
      if f.coins.Some? && f.coins.value != [] {
        if keep2 {
          assert (p2 + [last])[..|p2 + [last]| - 1] == p2;
        } else {
          assert q2 == p2;
        }
      }
    }
  }

  /** `KeepRows` keeps exactly the rows satisfying `Keep`, in order. */
  lemma {:induction false} KeepRowsMembers(rows: seq<FilterRow>, f: Filters, r: FilterRow)
    ensures r in KeepRows(rows, f) <==> r in rows && Keep(r, f)
    decreases |rows|
  {
    if rows != [] {
      KeepRowsMembers(rows[..|rows| - 1], f, r);
      assert rows == rows[..|rows| - 1] + [rows[|rows| - 1]];
    }
  }

  /** A row survives `apply_filters` exactly when it satisfies every supplied condition. */
  lemma ApplyFiltersKeeps(rows: seq<FilterRow>, f: Filters, r: FilterRow)
    ensures r in ApplyFilters(rows, f) <==> r in rows && Keep(r, f)
  {
    ApplyFiltersIsKeep(rows, f);
    KeepRowsMembers(rows, f, r);
  }

  /** With no argument supplied, every row is kept. */
  lemma {:induction false} NoFiltersKeepAll(rows: seq<FilterRow>)
    ensures ApplyFilters(rows, Filters(None, None, None)) == rows
  {
  }

  /** Rows kept under stronger conditions are kept under weaker ones, in the same order. */
  lemma {:induction false} KeepRowsMonotone(rows: seq<FilterRow>, strong: Filters, weak: Filters)
    requires forall r :: Keep(r, strong) ==> Keep(r, weak)
    ensures |KeepRows(rows, strong)| <= |KeepRows(rows, weak)|
    ensures forall r :: r in KeepRows(rows, strong) ==> r in KeepRows(rows, weak)
    decreases |rows|
  {
    if rows != [] {
      KeepRowsMonotone(rows[..|rows| - 1], strong, weak);
    }
  }

  /** Supplying an argument that was absent can only remove rows. */
  lemma MoreFiltersFewerRows(rows: seq<FilterRow>, f: Filters, start: int, end: int, coins: seq<string>)
    ensures var g := Filters(Some(start), f.end, f.coins);
      f.start.None? ==> |ApplyFilters(rows, g)| <= |ApplyFilters(rows, f)| && forall r :: r in ApplyFilters(rows, g) ==> r in ApplyFilters(rows, f)
    ensures var g := Filters(f.start, Some(end), f.coins);
      f.end.None? ==> |ApplyFilters(rows, g)| <= |ApplyFilters(rows, f)| && forall r :: r in ApplyFilters(rows, g) ==> r in ApplyFilters(rows, f)
    ensures var g := Filters(f.start, f.end, Some(coins));
      f.coins.None? ==> |ApplyFilters(rows, g)| <= |ApplyFilters(rows, f)| && forall r :: r in ApplyFilters(rows, g) ==> r in ApplyFilters(rows, f)
  {
    var gs := Filters(Some(start), f.end, f.coins);
    var ge := Filters(f.start, Some(end), f.coins);
    var gc := Filters(f.start, f.end, Some(coins));
    ApplyFiltersIsKeep(rows, f);
    ApplyFiltersIsKeep(rows, gs);
    ApplyFiltersIsKeep(rows, ge);
    ApplyFiltersIsKeep(rows, gc);
    if f.start.None? {
      KeepRowsMonotone(rows, gs, f);
    }
    if f.end.None? {
      KeepRowsMonotone(rows, ge, f);
    }
    if f.coins.None? {
      KeepRowsMonotone(rows, gc, f);
    }
  }

  // ---------------------------------------------------------------- share of users

  /**
   * `percentage_of_total_users`: the day's unique users of a coin over the
   * day's total unique users, times 100; a day missing from the totals
   * counts as 1 user, and a zero total raises `ZeroDivisionError`.
   */
  function PercentageOfTotalUsers(daily: nat, totals: map<int, nat>, time: int): (r: Result<real>)
    ensures time !in totals ==> r == Success(daily as real * 100.0)
    ensures r.Failure? <==> time in totals && totals[time] == 0
    ensures time in totals && totals[time] > 0 ==> r == Success(Percent(daily, totals[time]))
    ensures r.Success? ==> r.value * (if time in totals then totals[time] else 1) as real == daily as real * 100.0
    ensures r.Success? && time in totals && daily <= totals[time] ==> 0.0 <= r.value <= 100.0
  {
    var total := if time in totals then totals[time] else 1;
    if total == 0 then Failure("ZeroDivisionError: division by zero")
    else Success(Percent(daily, total))
  }

  /** `daily / total * 100`. */
  function Percent(daily: nat, total: nat): (p: real)
    requires total > 0
    ensures p * total as real == daily as real * 100.0
    ensures daily <= total ==> 0.0 <= p <= 100.0
  {
    daily as real / total as real * 100.0
  }
}
