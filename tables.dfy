/**
 * The SQL tables the pipeline writes. A base table receives the raw records
 * of each file; a cache table receives one day's aggregation. Writing to a
 * cache table (other than the market-data cache) first deletes that table's
 * rows of the date, so a day can be reloaded; every other table only grows.
 */
module Tables {
  import opened Wrappers
  import opened Calendar
  import opened Records
  import opened Aggregate
  import opened Hlp
  import opened Market
  import opened Text

  /** One aggregated row, of whichever cache table. */
  datatype Summary =
    | TradesRow(trades: TradesSummary)
    | LedgerRow(ledger: LedgerSummary)
    | LiquidationsRow(liquidations: LiquidationsSummary)
    | FundingRow(funding: FundingSummary)
    | AccountValuesRow(accountValues: AccountValuesSummary)
    | AssetCtxsRow(assetCtxs: AssetCtxsSummary)
    | FeesRow(fees: FeesSummary)
    | HlpRow(hlp: HlpSummary)
    | MarketRow(market: MarketSummary)

  function SummaryTime(s: Summary): Day {
    match s
    case TradesRow(x) => x.time
    case LedgerRow(x) => x.time
    case LiquidationsRow(x) => x.time
    case FundingRow(x) => x.time
    case AccountValuesRow(x) => x.time
    case AssetCtxsRow(x) => x.time
    case FeesRow(x) => x.time
    case HlpRow(x) => x.time
    case MarketRow(x) => x.time
  }

  /** A table row: a raw record in a base table, or an aggregated row in a cache table. */
  datatype Row = Base(rec: Record) | Cached(summary: Summary)

  /** The day of a row's `time` column. */
  function TimeOf(r: Row): Day {
    match r
    case Base(rec) => StampOf(rec).day
    case Cached(s) => SummaryTime(s)
  }

  /** The database: rows per table name; a table that does not exist has no rows. */
  type Store = map<string, seq<Row>>

  function Get(ts: Store, name: string): seq<Row> {
    if name in ts then ts[name] else []
  }

  /** The rows dated `d`, in table order. */
  function AtDate(rows: seq<Row>, d: Day): (r: seq<Row>)
    ensures forall i :: 0 <= i < |r| ==> TimeOf(r[i]) == d
  {
    if rows == [] then []
    else
      var last := rows[|rows| - 1];
      AtDate(rows[..|rows| - 1], d) + (if TimeOf(last) == d then [last] else [])
  }

  /** The rows not dated `d`, in table order (what `DELETE ... where time = d` leaves). */
  function OffDate(rows: seq<Row>, d: Day): (r: seq<Row>)
    ensures |r| <= |rows|
    ensures forall i :: 0 <= i < |r| ==> TimeOf(r[i]) != d
  {
    if rows == [] then []
    else
      var last := rows[|rows| - 1];
      OffDate(rows[..|rows| - 1], d) + (if TimeOf(last) != d then [last] else [])
  }

  /** Every row is dated `d`. */
  predicate AllAt(rows: seq<Row>, d: Day) {
    forall i :: 0 <= i < |rows| ==> TimeOf(rows[i]) == d
  }

  lemma {:induction false} AtDateAppend(a: seq<Row>, b: seq<Row>, d: Day)
    ensures AtDate(a + b, d) == AtDate(a, d) + AtDate(b, d)
    decreases |b|
  {
    if b != [] {
      var n := |b| - 1;
      assert (a + b)[..|a + b| - 1] == a + b[..n];
      AtDateAppend(a, b[..n], d);
    } else {
      assert a + b == a;
    }
  }

  lemma {:induction false} OffDateAppend(a: seq<Row>, b: seq<Row>, d: Day)
    ensures OffDate(a + b, d) == OffDate(a, d) + OffDate(b, d)
    decreases |b|
  {
    if b != [] {
      var n := |b| - 1;
      assert (a + b)[..|a + b| - 1] == a + b[..n];
      OffDateAppend(a, b[..n], d);
    } else {
      assert a + b == a;
    }
  }

  /** Deleting date `d` empties the slice of `d` and leaves every other date's slice as it was. */
  lemma {:induction false} SliceAfterDelete(rows: seq<Row>, d: Day, e: Day)
    ensures AtDate(OffDate(rows, d), e) == if e == d then [] else AtDate(rows, e)
  {
    if rows != [] {
      var last := rows[|rows| - 1];
      var init := rows[..|rows| - 1];
      SliceAfterDelete(init, d, e);
      AtDateAppend(OffDate(init, d), if TimeOf(last) != d then [last] else [], e);
    }
  }

  /** Rows all dated `d` survive no deletion of `d` and every deletion of another date. */
  lemma {:induction false} OffDateOfDay(rows: seq<Row>, d: Day)
    requires AllAt(rows, d)
    ensures OffDate(rows, d) == []
  {
    if rows != [] {
      OffDateOfDay(rows[..|rows| - 1], d);
    }
  }

  /** The slice of `d` of rows all dated `d` is the rows themselves. */
  lemma {:induction false} AtDateOfDay(rows: seq<Row>, d: Day, e: Day)
    requires AllAt(rows, d)
    ensures AtDate(rows, e) == if e == d then rows else []
  {
    if rows != [] {
      AtDateOfDay(rows[..|rows| - 1], d, e);
      assert rows == rows[..|rows| - 1] + [rows[|rows| - 1]];
    }
  }

  /** `update_db_table` clears the date first in every cache table except the market-data cache. */
  predicate ClearsDate(name: string) {
    Contains(name, "cache") && !Contains(name, "market_data")
  }

  /** The rows of a table after `update_db_table(name, df, date)`. */
  function Written(rows: seq<Row>, name: string, df: seq<Row>, date: Day): seq<Row> {
    (if ClearsDate(name) then OffDate(rows, date) else rows) + df
  }

  /**
   * How a write changes each date's slice: the date written gets the new
   * rows, after the old ones only where the table keeps them; every other
   * date keeps its rows (plus any the new rows carry for it).
   */
  lemma WrittenSlices(rows: seq<Row>, name: string, df: seq<Row>, date: Day, e: Day)
    ensures AtDate(Written(rows, name, df, date), e)
         == (if e == date && ClearsDate(name) then [] else AtDate(rows, e)) + AtDate(df, e)
  {
    var kept := if ClearsDate(name) then OffDate(rows, date) else rows;
    AtDateAppend(kept, df, e);
    if ClearsDate(name) {
      SliceAfterDelete(rows, date, e);
    }
  }

  /** Reloading a day into a date-clearing table is idempotent: a second identical write changes nothing. */
  lemma ReloadIdempotent(rows: seq<Row>, name: string, df: seq<Row>, date: Day)
    requires ClearsDate(name) && AllAt(df, date)
    ensures Written(Written(rows, name, df, date), name, df, date) == Written(rows, name, df, date)
  {
    var once := OffDate(rows, date);
    OffDateAppend(once, df, date);
    OffDateOfDay(df, date);
    OffDateTwice(rows, date);
  }

  /** Deleting a date twice is deleting it once. */
  lemma {:induction false} OffDateTwice(rows: seq<Row>, d: Day)
    ensures OffDate(OffDate(rows, d), d) == OffDate(rows, d)
  {
    if rows != [] {
      var last := rows[|rows| - 1];
      var init := rows[..|rows| - 1];
      OffDateTwice(init, d);
      OffDateAppend(OffDate(init, d), if TimeOf(last) != d then [last] else [], d);
      if TimeOf(last) != d {
        assert OffDate([last], d) == OffDate([], d) + [last] by {
          assert [last][..0] == [];
        }
      }
    }
  }

  /** A table that does not clear dates only grows: a second identical write appends the rows again. */
  lemma AppendOnly(rows: seq<Row>, name: string, df: seq<Row>, date: Day)
    requires !ClearsDate(name)
    ensures Written(rows, name, df, date)[..|rows|] == rows
    ensures |Written(Written(rows, name, df, date), name, df, date)| == |rows| + 2 * |df|
  {
    assert (rows + df)[..|rows|] == rows;
  }

  /** `{table}_cache` clears the date on write whenever the table name lacks the letter 'k' of "market_data". */
  lemma CacheTableClears(table: string)
    requires 'k' !in table
    ensures ClearsDate(table + "_cache")
  {
    var s := table + "_cache";
    assert s[|table| + 1..|table| + 6] == "cache";
    Found(s, "cache", |table| + 1);
    AbsentChar(s, "market_data", 'k');
  }

  /** The market-data cache is append-only. */
  lemma MarketCacheKept()
    ensures !ClearsDate("market_data_cache")
  {
    assert "market_data_cache"[0..11] == "market_data";
    Found("market_data_cache", "market_data", 0);
  }

  /** `SELECT max(time)`: None for an empty or missing table, otherwise the latest row date. */
  function MaxTime(rows: seq<Row>): (r: Option<Day>)
    ensures r.None? <==> rows == []
    ensures r.Some? ==> (exists i :: 0 <= i < |rows| && TimeOf(rows[i]) == r.value)
    ensures r.Some? ==> forall i :: 0 <= i < |rows| ==> TimeOf(rows[i]) <= r.value
  {
    if rows == [] then None
    else
      var t := TimeOf(rows[|rows| - 1]);
      match MaxTime(rows[..|rows| - 1])
      case None => Some(t)
      case Some(m) => Some(if t > m then t else m)
  }

  /** A date's slice is empty exactly when no row has that date. */
  lemma {:induction false} EmptySlice(rows: seq<Row>, d: Day)
    ensures AtDate(rows, d) == [] <==> forall i :: 0 <= i < |rows| ==> TimeOf(rows[i]) != d
  {
    if rows != [] {
      var init := rows[..|rows| - 1];
      EmptySlice(init, d);
      assert forall i :: 0 <= i < |init| ==> init[i] == rows[i];
    }
  }

  /** No row is dated after the latest date. */
  lemma NothingAfterMax(rows: seq<Row>, d: Day)
    requires MaxTime(rows).Some? && d > MaxTime(rows).value
    ensures AtDate(rows, d) == []
  {
    EmptySlice(rows, d);
  }

  /** The SQL database the pipeline connects to. */
  class Database {
    var tables: Store

    constructor()
      ensures tables == map[]
    {
      tables := map[];
    }

    function Rows(name: string): seq<Row>
      reads this
    {
      Get(tables, name)
    }

    /**
     * `update_db_table`: delete the date's rows of a date-clearing table (a
     * missing table makes the delete fail, and the failure is ignored), then
     * append the new rows. When the append is rejected the source rewrites
     * the table as the old rows followed by the new ones, which is the same
     * row sequence.
     */
    method UpdateDbTable(name: string, df: seq<Row>, date: Day)
      modifies this
      ensures tables == old(tables)[name := Written(old(Rows(name)), name, df, date)]
    {
      if ClearsDate(name) && name in tables {
        tables := tables[name := OffDate(tables[name], date)];
      }
      tables := tables[name := Rows(name) + df];
    }

    /** `DROP TABLE IF EXISTS`. */
    method DropTable(name: string)
      modifies this
      ensures tables == old(tables) - {name}
    {
      tables := tables - {name};
    }

    /** `get_latest_date`. */
    function LatestDate(name: string): (r: Option<Day>)
      reads this
      ensures r.None? <==> Rows(name) == []
      ensures r.Some? ==> (exists i :: 0 <= i < |Rows(name)| && TimeOf(Rows(name)[i]) == r.value)
      ensures r.Some? ==> forall i :: 0 <= i < |Rows(name)| ==> TimeOf(Rows(name)[i]) <= r.value
      ensures r == MaxTime(Rows(name))
    {
      MaxTime(Rows(name))
    }

    /** `market_data_exists`: the market-data cache has a row of the date. */
    function MarketDataExists(date: Day): (b: bool)
      reads this
      ensures b <==> exists i :: 0 <= i < |Rows("market_data_cache")| && TimeOf(Rows("market_data_cache")[i]) == date
    {
      EmptySlice(Rows("market_data_cache"), date);
      AtDate(Rows("market_data_cache"), date) != []
    }
  }
}
