/**
 * Which aggregation a downloaded file goes to. `main` maps each configured
 * table to the object-store folder of its files; `update_cache_tables`
 * then picks the aggregation by testing the file name for a fixed list of
 * words, first match wins, and writes the result to `{table}_cache`.
 */
module Routing {
  import opened Wrappers
  import opened Calendar
  import opened Keys
  import opened Text
  import opened Words

  /** `table_to_file_name_map`: configured table to the folder of its files. */
  const TableFileName: map<string, string> := map[
    "non_mm_trades" := "non_mm_trades",
    "non_mm_ledger_updates" := "ledger_updates",
    "liquidations" := "liquidations",
    "funding" := "funding",
    "account_values" := "account_values",
    "asset_ctxs" := "asset_ctxs",
    "market_data" := "market_data",
    "total_accrued_fees" := "total_accrued_fees",
    "hlp_positions" := "hlp_positions"
  ]

  /** The aggregations of `update_cache_tables`. */
  datatype Source =
    | MarketSource | TradesSource | LedgerSource | LiquidationsSource | FundingSource
    | AccountValuesSource | AssetCtxsSource | FeesSource | HlpSource

  /** The word `update_cache_tables` looks for in a file name to pick each aggregation. */
  function Word(src: Source): string {
    match src
    case MarketSource => "market_data"
    case TradesSource => "trades"
    case LedgerSource => "ledger_updates"
    case LiquidationsSource => "liquidations"
    case FundingSource => "funding"
    case AccountValuesSource => "account_values"
    case AssetCtxsSource => "asset_ctxs"
    case FeesSource => "total_accrued_fees"
    case HlpSource => "hlp_positions"
  }

  /** The branches of the if/elif chain in `update_cache_tables`, in the order the chain tries them. */
  const Branches: seq<Source> := [
    MarketSource, TradesSource, LedgerSource, LiquidationsSource, FundingSource,
    AccountValuesSource, AssetCtxsSource, FeesSource, HlpSource
  ]

  /** The chain from branch `k` on: the first branch whose word occurs in the file name, None when none does. */
  function RouteFrom(fileName: string, k: nat): Option<Source>
    requires k <= |Branches|
    decreases |Branches| - k
  {
    if k == |Branches| then None
    else if Contains(fileName, Word(Branches[k])) then Some(Branches[k])
    else RouteFrom(fileName, k + 1)
  }

  /** The aggregation a file goes to; None when no branch matches and nothing is cached. */
  function Route(fileName: string): Option<Source> {
    RouteFrom(fileName, 0)
  }

  /** No branch from `k` up to, not including, `j` has its word in the file name. */
  predicate NoneMatch(fileName: string, k: nat, j: nat)
    requires k <= j <= |Branches|
  {
    forall i :: k <= i < j ==> !Contains(fileName, Word(Branches[i]))
  }

  /**
   * First match wins: the chain from branch `k` picks a branch whose word
   * occurs and whose predecessors' words do not, and picks nothing only
   * when no remaining word occurs.
   */
  lemma {:induction false} RouteFromFirst(fileName: string, k: nat)
    requires k <= |Branches|
    ensures RouteFrom(fileName, k).None? <==> NoneMatch(fileName, k, |Branches|)
    ensures RouteFrom(fileName, k).Some? ==>
      exists j :: k <= j < |Branches| && Branches[j] == RouteFrom(fileName, k).value
        && Contains(fileName, Word(Branches[j])) && NoneMatch(fileName, k, j)
    decreases |Branches| - k
  {
    if k < |Branches| {
      RouteFromFirst(fileName, k + 1);
      if Contains(fileName, Word(Branches[k])) {
        assert NoneMatch(fileName, k, k);
        assert !NoneMatch(fileName, k, |Branches|);
      } else {
        assert NoneMatch(fileName, k, |Branches|) <==> NoneMatch(fileName, k + 1, |Branches|);
        if RouteFrom(fileName, k).Some? {
          var j :| k + 1 <= j < |Branches| && Branches[j] == RouteFrom(fileName, k).value
            && Contains(fileName, Word(Branches[j])) && NoneMatch(fileName, k + 1, j);
          assert NoneMatch(fileName, k, j);
        }
      }
    }
  }

  /** Conversely, the chain picks a branch whose word occurs when the words of the branches before it do not. */
  lemma {:induction false} RouteFromPicks(fileName: string, k: nat, j: nat)
    requires k <= j < |Branches|
    requires NoneMatch(fileName, k, j)
    requires Contains(fileName, Word(Branches[j]))
    ensures RouteFrom(fileName, k) == Some(Branches[j])
    decreases j - k
  {
    if k < j {
      RouteFromPicks(fileName, k + 1, j);
    }
  }

  /** The routing of a file name. */
  lemma RouteFirst(fileName: string)
    ensures Route(fileName).None? <==> NoneMatch(fileName, 0, |Branches|)
    ensures Route(fileName).Some? ==>
      exists j :: 0 <= j < |Branches| && Branches[j] == Route(fileName).value
        && Contains(fileName, Word(Branches[j])) && NoneMatch(fileName, 0, j)
  {
    RouteFromFirst(fileName, 0);
  }

  /** The table whose cache an aggregation writes: its rows go to `{BaseOf(src)}_cache`. */
  function BaseOf(src: Source): string {
    match src
    case MarketSource => "market_data"
    case TradesSource => "non_mm_trades"
    case LedgerSource => "non_mm_ledger_updates"
    case LiquidationsSource => "liquidations"
    case FundingSource => "funding"
    case AccountValuesSource => "account_values"
    case AssetCtxsSource => "asset_ctxs"
    case FeesSource => "total_accrued_fees"
    case HlpSource => "hlp_positions"
  }

  /** The cache table an aggregation writes. */
  function CacheName(src: Source): (name: string)
    ensures Contains(name, "cache")
  {
    var name := BaseOf(src) + "_cache";
    assert name[|BaseOf(src)| + 1..|name|] == "cache";
    Found(name, "cache", |BaseOf(src)| + 1);
    name
  }

  /** No character of a file-name suffix `{YYYYMMDD}.csv.lz4` is `c` when `c` is neither a digit nor in ".csv.lz4". */
  lemma SuffixLacks(d: Day, c: char)
    requires InRange(d) && !IsDigit(c) && c !in ".csv.lz4"
    ensures c !in Compact(d) + ".csv.lz4"
  {
    var r := Compact(d) + ".csv.lz4";
    forall i | 0 <= i < |r| ensures r[i] != c {
      if i < 8 {
        assert r[i] == Compact(d)[i];
      } else {
        assert r[i] == ".csv.lz4"[i - 8];
      }
    }
  }

  /** A letter of each branch's word that no date suffix `{YYYYMMDD}.csv.lz4` holds. */
  function Mark(src: Source): (c: char)
    ensures c in Word(src) && !IsDigit(c) && c !in ".csv.lz4"
  {
    match src
    case MarketSource => 'm'
    case TradesSource => 't'
    case LedgerSource => 'e'
    case LiquidationsSource => 'q'
    case FundingSource => 'f'
    case AccountValuesSource => 'a'
    case AssetCtxsSource => 'a'
    case FeesSource => 't'
    case HlpSource => 'h'
  }

  /** No branch word holds a '/', so none can straddle the folder and the file name. */
  lemma NoSlash(src: Source)
    ensures '/' !in Word(src)
  {
  }

  /**
   * A daily file key is routed as its folder name is: every branch word has
   * a letter the date suffix lacks and none holds a '/'.
   */
  lemma {:induction false} RouteIgnoresDate(stem: string, d: Day, k: nat)
    requires InRange(d) && k <= |Branches|
    ensures RouteFrom(FileKey(stem, d), k) == RouteFrom(stem, k)
    decreases |Branches| - k
  {
    if k < |Branches| {
      var src := Branches[k];
      SuffixLacks(d, Mark(src));
      NoSlash(src);
      BeforeSlash(stem, Compact(d) + ".csv.lz4", Word(src), Mark(src));
      RouteIgnoresDate(stem, d, k + 1);
    }
  }

  /*
   * The folder of each configured table, routed. A `...Named` lemma states
   * which folder names reach an aggregation: every word tried earlier has
   * a letter the name lacks (or, for "trades", cannot line up in it), and
   * the aggregation's own word occurs. The `...Folder` lemma applies it to
   * the configured folder and names the cache the aggregation writes.
   */

  lemma MarketNamed(stem: string)
    requires Contains(stem, "market_data")
    ensures Route(stem) == Some(MarketSource)
  {
    RouteFromPicks(stem, 0, 0);
  }

  lemma MarketFolder(table: string)
    requires table == "market_data"
    ensures Route(TableFileName[table]) == Some(MarketSource)
    ensures CacheName(MarketSource) == table + "_cache"
  {
    var stem := "market_data";
    assert TableFileName[table] == stem;
    AtFront(stem, "");
    assert stem + "" == stem;
    MarketNamed(stem);
  }

  lemma TradesNamed(stem: string)
    requires Avoids(stem, "k") && Contains(stem, "trades")
    ensures Route(stem) == Some(TradesSource)
  {
    forall i | 0 <= i < 1 ensures !Contains(stem, Word(Branches[i])) {
      AbsentChar(stem, "market_data", 'k');
    }
    RouteFromPicks(stem, 0, 1);
  }

  lemma TradesFolder(table: string)
    requires table == "non_mm_trades"
    ensures Route(TableFileName[table]) == Some(TradesSource)
    ensures CacheName(TradesSource) == table + "_cache"
  {
    var stem := "non_mm_trades";
    assert TableFileName[table] == stem;
    assert Avoids(stem, "k");
    assert stem[7..13] == "trades";
    Found(stem, "trades", 7);
    TradesNamed(stem);
  }

  lemma LedgerNamed(stem: string)
    requires Avoids(stem, "k") && !Contains(stem, "trades") && Contains(stem, "ledger_updates")
    ensures Route(stem) == Some(LedgerSource)
  {
    forall i | 0 <= i < 2 ensures !Contains(stem, Word(Branches[i])) {
      if i == 0 {
        AbsentChar(stem, "market_data", 'k');
      } else {
        assert Word(Branches[i]) == "trades";
      }
    }
    RouteFromPicks(stem, 0, 2);
  }

  lemma LedgerFolder(table: string)
    requires table == "non_mm_ledger_updates"
    ensures Route(TableFileName[table]) == Some(LedgerSource)
    ensures CacheName(LedgerSource) == table + "_cache"
  {
    var stem := "ledger_updates";
    assert TableFileName[table] == stem;
    assert Avoids(stem, "k");
    LedgerLacksTrades();
    AtFront(stem, "");
    assert stem + "" == stem;
    LedgerNamed(stem);
  }

  lemma LiquidationsNamed(stem: string)
    requires Avoids(stem, "krg") && Contains(stem, "liquidations")
    ensures Route(stem) == Some(LiquidationsSource)
  {
    forall i | 0 <= i < 3 ensures !Contains(stem, Word(Branches[i])) {
      if i == 0 {
        AbsentChar(stem, "market_data", 'k');
      } else if i == 1 {
        AbsentChar(stem, "trades", 'r');
      } else {
        AbsentChar(stem, "ledger_updates", 'g');
      }
    }
    RouteFromPicks(stem, 0, 3);
  }

  lemma LiquidationsFolder(table: string)
    requires table == "liquidations"
    ensures Route(TableFileName[table]) == Some(LiquidationsSource)
    ensures CacheName(LiquidationsSource) == table + "_cache"
  {
    var stem := "liquidations";
    assert TableFileName[table] == stem;
    assert Avoids(stem, "krg");
    AtFront(stem, "");
    assert stem + "" == stem;
    LiquidationsNamed(stem);
  }

  lemma FundingNamed(stem: string)
    requires Avoids(stem, "kteq") && Contains(stem, "funding")
    ensures Route(stem) == Some(FundingSource)
  {
    forall i | 0 <= i < 4 ensures !Contains(stem, Word(Branches[i])) {
      if i == 0 {
        AbsentChar(stem, "market_data", 'k');
      } else if i == 1 {
        AbsentChar(stem, "trades", 't');
      } else if i == 2 {
        AbsentChar(stem, "ledger_updates", 'e');
      } else {
        AbsentChar(stem, "liquidations", 'q');
      }
    }
    RouteFromPicks(stem, 0, 4);
  }

  lemma FundingFolder(table: string)
    requires table == "funding"
    ensures Route(TableFileName[table]) == Some(FundingSource)
    ensures CacheName(FundingSource) == table + "_cache"
  {
    var stem := "funding";
    assert TableFileName[table] == stem;
    assert Avoids(stem, "kteq");
    AtFront(stem, "");
    assert stem + "" == stem;
    FundingNamed(stem);
  }

  lemma AccountValuesNamed(stem: string)
    requires Avoids(stem, "krgqf") && Contains(stem, "account_values")
    ensures Route(stem) == Some(AccountValuesSource)
  {
    forall i | 0 <= i < 5 ensures !Contains(stem, Word(Branches[i])) {
      if i == 0 {
        AbsentChar(stem, "market_data", 'k');
      } else if i == 1 {
        AbsentChar(stem, "trades", 'r');
      } else if i == 2 {
        AbsentChar(stem, "ledger_updates", 'g');
      } else if i == 3 {
        AbsentChar(stem, "liquidations", 'q');
      } else {
        AbsentChar(stem, "funding", 'f');
      }
    }
    RouteFromPicks(stem, 0, 5);
  }

  lemma AccountValuesFolder(table: string)
    requires table == "account_values"
    ensures Route(TableFileName[table]) == Some(AccountValuesSource)
    ensures CacheName(AccountValuesSource) == table + "_cache"
  {
    var stem := "account_values";
    assert TableFileName[table] == stem;
    assert Avoids(stem, "krgqf");
    AtFront(stem, "");
    assert stem + "" == stem;
    AccountValuesNamed(stem);
  }

  lemma AssetCtxsNamed(stem: string)
    requires Avoids(stem, "krgqfu") && Contains(stem, "asset_ctxs")
    ensures Route(stem) == Some(AssetCtxsSource)
  {
    forall i | 0 <= i < 6 ensures !Contains(stem, Word(Branches[i])) {
      if i == 0 {
        AbsentChar(stem, "market_data", 'k');
      } else if i == 1 {
        AbsentChar(stem, "trades", 'r');
      } else if i == 2 {
        AbsentChar(stem, "ledger_updates", 'g');
      } else if i == 3 {
        AbsentChar(stem, "liquidations", 'q');
      } else if i == 4 {
        AbsentChar(stem, "funding", 'f');
      } else {
        AbsentChar(stem, "account_values", 'u');
      }
    }
    RouteFromPicks(stem, 0, 6);
  }

  lemma AssetCtxsFolder(table: string)
    requires table == "asset_ctxs"
    ensures Route(TableFileName[table]) == Some(AssetCtxsSource)
    ensures CacheName(AssetCtxsSource) == table + "_cache"
  {
    var stem := "asset_ctxs";
    assert TableFileName[table] == stem;
    assert Avoids(stem, "krgqfu");
    AtFront(stem, "");
    assert stem + "" == stem;
    AssetCtxsNamed(stem);
  }

  lemma FeesNamed(stem: string)
    requires Avoids(stem, "kgqnx") && !Contains(stem, "trades") && Contains(stem, "total_accrued_fees")
    ensures Route(stem) == Some(FeesSource)
  {
    forall i | 0 <= i < 7 ensures !Contains(stem, Word(Branches[i])) {
      if i == 0 {
        AbsentChar(stem, "market_data", 'k');
      } else if i == 1 {
        assert Word(Branches[i]) == "trades";
      } else if i == 2 {
        AbsentChar(stem, "ledger_updates", 'g');
      } else if i == 3 {
        AbsentChar(stem, "liquidations", 'q');
      } else if i == 4 {
        AbsentChar(stem, "funding", 'n');
      } else if i == 5 {
        AbsentChar(stem, "account_values", 'n');
      } else {
        AbsentChar(stem, "asset_ctxs", 'x');
      }
    }
    RouteFromPicks(stem, 0, 7);
  }

  lemma FeesFolder(table: string)
    requires table == "total_accrued_fees"
    ensures Route(TableFileName[table]) == Some(FeesSource)
    ensures CacheName(FeesSource) == table + "_cache"
  {
    var stem := "total_accrued_fees";
    assert TableFileName[table] == stem;
    assert Avoids(stem, "kgqnx");
    FeesLackTrades();
    AtFront(stem, "");
    assert stem + "" == stem;
    FeesNamed(stem);
  }

  lemma HlpNamed(stem: string)
    requires Avoids(stem, "krgqfux") && Contains(stem, "hlp_positions")
    ensures Route(stem) == Some(HlpSource)
  {
    forall i | 0 <= i < 8 ensures !Contains(stem, Word(Branches[i])) {
      if i == 0 {
        AbsentChar(stem, "market_data", 'k');
      } else if i == 1 {
        AbsentChar(stem, "trades", 'r');
      } else if i == 2 {
        AbsentChar(stem, "ledger_updates", 'g');
      } else if i == 3 {
        AbsentChar(stem, "liquidations", 'q');
      } else if i == 4 {
        AbsentChar(stem, "funding", 'f');
      } else if i == 5 {
        AbsentChar(stem, "account_values", 'u');
      } else if i == 6 {
        AbsentChar(stem, "asset_ctxs", 'x');
      } else {
        AbsentChar(stem, "total_accrued_fees", 'r');
      }
    }
    RouteFromPicks(stem, 0, 8);
  }

  lemma HlpFolder(table: string)
    requires table == "hlp_positions"
    ensures Route(TableFileName[table]) == Some(HlpSource)
    ensures CacheName(HlpSource) == table + "_cache"
  {
    var stem := "hlp_positions";
    assert TableFileName[table] == stem;
    assert Avoids(stem, "krgqfux");
    AtFront(stem, "");
    assert stem + "" == stem;
    HlpNamed(stem);
  }

  /** The daily file of a configured table is aggregated into that table's own cache, whatever the date. */
  lemma TableRoute(table: string, d: Day)
    requires table in TableFileName && InRange(d)
    ensures Route(FileKey(TableFileName[table], d)).Some?
    ensures CacheName(Route(FileKey(TableFileName[table], d)).value) == table + "_cache"
  {
    RouteIgnoresDate(TableFileName[table], d, 0);
    if table == "market_data" {
      MarketFolder(table);
    } else if table == "non_mm_trades" {
      TradesFolder(table);
    } else if table == "non_mm_ledger_updates" {
      LedgerFolder(table);
    } else if table == "liquidations" {
      LiquidationsFolder(table);
    } else if table == "funding" {
      FundingFolder(table);
    } else if table == "account_values" {
      AccountValuesFolder(table);
    } else if table == "asset_ctxs" {
      AssetCtxsFolder(table);
    } else if table == "total_accrued_fees" {
      FeesFolder(table);
    } else {
      HlpFolder(table);
    }
  }

  /** Every order-book shard is routed to the market-data aggregation. */
  lemma ShardRoute(d: Day, hour: nat, asset: string)
    requires InRange(d) && hour < 24
    ensures Contains(ShardKey("market_data", d, hour, asset), "market_data")
    ensures Route(ShardKey("market_data", d, hour, asset)) == Some(MarketSource)
  {
    var k := ShardKey("market_data", d, hour, asset);
    assert k[0..11] == "market_data";
    Found(k, "market_data", 0);
  }

  /** No configured table name contains "cache": base tables and cache tables never share a name. */
  lemma PlainTableName(table: string)
    requires table in TableFileName
    ensures !Contains(table, "cache")
  {
    assert 'h' !in table || 'c' !in table;
    if 'h' !in table {
      AbsentChar(table, "cache", 'h');
    } else {
      AbsentChar(table, "cache", 'c');
    }
  }

  /** Every configured table but market_data lacks the letter 'k', so its cache clears the date on write. */
  lemma NoK(table: string)
    requires table in TableFileName && table != "market_data"
    ensures 'k' !in table
  {
  }
}
