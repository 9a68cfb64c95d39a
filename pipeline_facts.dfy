/**
 * What the daily run guarantees: which dates a table resumes from, one
 * alert per processed date whatever fails, a daily file replacing exactly
 * its own date in its cache table, base tables that only grow, cached
 * market-data days left alone, and the closing comparison of max dates.
 */
module PipelineFacts {
  import opened Wrappers
  import opened Calendar
  import opened Keys
  import opened Text
  import opened Records
  import opened Tables
  import opened Routing
  import opened Pipeline
  import opened Seqs

  // ---------------------------------------------------------------- dates

  /** Consecutive days from `s` are `s, s + 1, ...`. */
  lemma {:induction false} ConsecutiveFrom(ds: seq<Day>, s: Day, i: nat)
    requires ds != [] && ds[0] == s
    requires forall k :: 0 < k < |ds| ==> ds[k] == ds[k - 1] + 1
    requires i < |ds|
    ensures ds[i] == s + i
  {
    if i > 0 {
      ConsecutiveFrom(ds, s, i - 1);
    }
  }

  /**
   * The dates a table processes: the days after its latest cached date up
   * to today (none when the cache is up to date or ahead), or, for an empty
   * cache, the 85 days ending today; the day 85 days back itself is never
   * processed.
   */
  lemma ProcessedDates(latest: Option<Day>, today: Day)
    requires today >= Lookback
    ensures var ds := Tail(GenerateDates(Seed(latest, today), today));
      && (latest.Some? ==> |ds| == (if latest.value < today then today - latest.value else 0))
      && (latest.None? ==> |ds| == Lookback)
      && forall i :: 0 <= i < |ds| ==> ds[i] == Seed(latest, today) + 1 + i
  {
    var all := GenerateDates(Seed(latest, today), today);
    var ds := Tail(all);
    forall i | 0 <= i < |ds| ensures ds[i] == Seed(latest, today) + 1 + i {
      ConsecutiveFrom(all, Seed(latest, today), i + 1);
    }
  }

  /** Every processed date lies after the seed and no later than today. */
  lemma ProcessedWithin(latest: Option<Day>, today: Day)
    requires today >= Lookback
    ensures var ds := Tail(GenerateDates(Seed(latest, today), today));
      forall i :: 0 <= i < |ds| ==> Seed(latest, today) < ds[i] <= today
  {
    ProcessedDates(latest, today);
  }

  // ---------------------------------------------------------------- alerts

  /** The date step fails exactly when processing the day's file raised. */
  lemma FailedIffRaised(agg: Aggregator, ts: Store, bucket: Bucket, table: string, stem: string, date: Day, assets: seq<string>)
    requires InRange(date) && stem != "market_data"
    ensures Step(agg, ts, bucket, table, stem, date, assets).1[0].Failed?
        <==> ProcessFile(agg, ts, bucket, FileKey(stem, date), table, date).error.Some?
  {
  }

  /** Distinct dates print differently, and no date prints as "None". */
  lemma DateTextInjective(a: Option<Day>, b: Option<Day>)
    requires a.Some? ==> InRange(a.value)
    requires b.Some? ==> InRange(b.value)
    ensures DateText(a) == DateText(b) <==> a == b
  {
    if a.Some? && b.Some? && DateText(a) == DateText(b) {
      IsoInjective(a.value, b.value);
    }
  }

  /** The closing check alerts exactly when the cache has a max date and the base table's differs from it. */
  lemma CheckIff(table: string, cacheMax: Option<Day>, baseMax: Option<Day>)
    requires cacheMax.Some? ==> InRange(cacheMax.value)
    requires baseMax.Some? ==> InRange(baseMax.value)
    ensures Check(table, cacheMax, baseMax) != [] <==> cacheMax.Some? && baseMax != cacheMax
  {
    DateTextInjective(cacheMax, baseMax);
  }

  /** "Nothing to process" is sent, as the first alert, exactly when the seed date is after today. */
  lemma NothingToProcessIff(agg: Aggregator, ts: Store, bucket: Bucket, table: string, today: Day, assets: seq<string>)
    requires table in TableFileName && today >= Lookback && InRange(today)
    ensures var alerts := RunTable(agg, ts, bucket, table, today, assets).1;
      (|alerts| > 0 && alerts[0].NothingToProcess?)
        <==> Seed(MaxTime(Get(ts, table + "_cache")), today) > today
  {
    var latest := MaxTime(Get(ts, table + "_cache"));
    var seeded := if latest.None? then ts - {table} else ts;
    var start := Seed(latest, today);
    var dates := GenerateDates(start, today);
    InRangeTail(dates, today);
    var run := RunDates(agg, seeded, bucket, table, TableFileName[table], Tail(dates), assets);
    RunDatesAlerts(agg, seeded, bucket, table, TableFileName[table], Tail(dates), assets);
    if start <= today && run.1 != [] {
      assert AlertDay(run.1[0]) == Some(Tail(dates)[0]);
    }
  }

  // ---------------------------------------------------------------- one daily file

  /**
   * A configured table's daily file (market data aside) leaves in the
   * table's cache, for that date, exactly the rows of its aggregation, and
   * every other date's rows as they were; a failed file leaves the cache as
   * it was.
   */
  lemma DailyFileSlices(agg: Aggregator, ts: Store, bucket: Bucket, table: string, date: Day, e: Day)
    requires Stamps(agg) && table in TableFileName && table != "market_data" && InRange(date)
    ensures var file := FileKey(TableFileName[table], date);
      var o := ProcessFile(agg, ts, bucket, file, table, date);
      var cache := table + "_cache";
      && (o.error.None? ==>
            && file in bucket && Route(file).Some?
            && agg(Route(file).value, bucket[file], CtxsFor(bucket, table, date), date).Success?
            && AtDate(Get(o.tables, cache), date)
               == agg(Route(file).value, bucket[file], CtxsFor(bucket, table, date), date).value)
      && (e != date ==> AtDate(Get(o.tables, cache), e) == AtDate(Get(ts, cache), e))
      && (o.error.Some? ==> Get(o.tables, cache) == Get(ts, cache))
  {
    var file := FileKey(TableFileName[table], date);
    var cache := table + "_cache";
    TableRoute(table, date);
    NoK(table);
    CacheTableClears(table);
    assert table != cache by {
      assert |cache| == |table| + 6;
    }
    if file in bucket && !(Contains(table, "hlp_positions") && HlpAssetCtxsKey(date) !in bucket) {
      var src := Route(file).value;
      var p := bucket[file];
      var loaded := if Contains(file, "market_data") then ts
                    else ts[table := Written(Get(ts, table), table, BaseRows(p), date)];
      assert Get(loaded, cache) == Get(ts, cache);
      var r := agg(src, p, CtxsFor(bucket, table, date), date);
      if r.Success? {
        WrittenSlices(Get(ts, cache), cache, r.value, date, e);
        WrittenSlices(Get(ts, cache), cache, r.value, date, date);
        AtDateOfDay(r.value, date, e);
        AtDateOfDay(r.value, date, date);
      }
    }
  }

  // ---------------------------------------------------------------- base tables only grow

  /** `a` is a prefix of `b`. */
  predicate Prefix(a: seq<Row>, b: seq<Row>) {
    |a| <= |b| && b[..|a|] == a
  }

  /** Processing any file leaves a configured base table's old rows in place, in order, at its front. */
  lemma BaseGrowsOnFile(agg: Aggregator, ts: Store, bucket: Bucket, fileName: string, table: string, date: Day)
    requires table in TableFileName && InRange(date)
    ensures Prefix(Get(ts, table), Get(ProcessFile(agg, ts, bucket, fileName, table, date).tables, table))
  {
    PlainTableName(table);
    assert !ClearsDate(table);
    var rows := Get(ts, table);
    if fileName in bucket {
      var p := bucket[fileName];
      PrefixOfAppend(rows, BaseRows(p));
      var loaded := if Contains(fileName, "market_data") then ts
                    else ts[table := Written(rows, table, BaseRows(p), date)];
      assert Prefix(rows, Get(loaded, table));
      match Route(fileName)
      case None =>
      case Some(src) =>
        assert CacheName(src) != table;
    }
  }

  lemma PrefixTransitive(a: seq<Row>, b: seq<Row>, c: seq<Row>)
    requires Prefix(a, b) && Prefix(b, c)
    ensures Prefix(a, c)
  {
    PrefixOfPrefix(c, |a|, |b|);
  }

  /** A run of market-data shards leaves a configured base table's old rows at its front. */
  lemma {:induction false} BaseGrowsOnShards(agg: Aggregator, ts: Store, bucket: Bucket, shards: seq<string>, table: string, date: Day)
    requires table in TableFileName && InRange(date)
    ensures Prefix(Get(ts, table), Get(RunShards(agg, ts, bucket, shards, table, date), table))
    decreases |shards|
  {
    if shards != [] {
      var mid := RunShards(agg, ts, bucket, shards[..|shards| - 1], table, date);
      BaseGrowsOnShards(agg, ts, bucket, shards[..|shards| - 1], table, date);
      BaseGrowsOnFile(agg, mid, bucket, shards[|shards| - 1], table, date);
      PrefixTransitive(Get(ts, table), Get(mid, table), Get(RunShards(agg, ts, bucket, shards, table, date), table));
    }
  }

  /** Within the date loop a configured base table only grows: rows are appended, never removed or reordered. */
  lemma {:induction false} BaseGrowsOnDates(agg: Aggregator, ts: Store, bucket: Bucket, table: string, stem: string, dates: seq<Day>, assets: seq<string>)
    requires table in TableFileName && AllInRange(dates)
    ensures Prefix(Get(ts, table), Get(RunDates(agg, ts, bucket, table, stem, dates, assets).0, table))
    decreases |dates|
  {
    if dates != [] {
      var init := dates[..|dates| - 1];
      var d := dates[|dates| - 1];
      assert AllInRange(init) by {
        assert forall i :: 0 <= i < |init| ==> init[i] == dates[i];
      }
      var mid := RunDates(agg, ts, bucket, table, stem, init, assets).0;
      BaseGrowsOnDates(agg, ts, bucket, table, stem, init, assets);
      var after := Step(agg, mid, bucket, table, stem, d, assets).0;
      if stem == "market_data" {
        BaseGrowsOnShards(agg, mid, bucket, DayShards(d, 24, assets), table, d);
      } else {
        BaseGrowsOnFile(agg, mid, bucket, FileKey(stem, d), table, d);
      }
      PrefixTransitive(Get(ts, table), Get(mid, table), Get(after, table));
    }
  }

  /** A table whose cache has rows resumes without dropping its base table, whose rows then only grow. */
  lemma BaseKeptWhenResuming(agg: Aggregator, ts: Store, bucket: Bucket, table: string, today: Day, assets: seq<string>)
    requires table in TableFileName && today >= Lookback && InRange(today)
    requires Get(ts, table + "_cache") != []
    ensures Prefix(Get(ts, table), Get(RunTable(agg, ts, bucket, table, today, assets).0, table))
  {
    RunTableIs(agg, ts, bucket, table, today, assets);
    var dates := GenerateDates(Seed(MaxTime(Get(ts, table + "_cache")), today), today);
    BaseGrowsOnDates(agg, ts, bucket, table, TableFileName[table], Tail(dates), assets);
  }

  // ---------------------------------------------------------------- market data

  /** Every shard key of a day names the market-data source. */
  lemma {:induction false} DayShardsMarket(date: Day, hours: nat, assets: seq<string>)
    requires InRange(date) && hours <= 24
    ensures forall i :: 0 <= i < |DayShards(date, hours, assets)| ==> Contains(DayShards(date, hours, assets)[i], "market_data")
  {
    if hours > 0 {
      DayShardsMarket(date, hours - 1, assets);
      var before := DayShards(date, hours - 1, assets);
      var last := HourShards(date, hours - 1, assets);
      forall i | 0 <= i < |before + last| ensures Contains((before + last)[i], "market_data") {
        if i >= |before| {
          assert (before + last)[i] == ShardKey("market_data", date, hours - 1, assets[i - |before|]);
          ShardRoute(date, hours - 1, assets[i - |before|]);
        } else {
          assert (before + last)[i] == before[i];
        }
      }
    }
  }

  /** A market-data shard writes only to the market-data cache, and only appends to it. */
  lemma ShardWrites(agg: Aggregator, ts: Store, bucket: Bucket, shard: string, date: Day)
    requires InRange(date) && Contains(shard, "market_data")
    ensures var after := ProcessFile(agg, ts, bucket, shard, "market_data", date).tables;
      && Get(after, "market_data") == Get(ts, "market_data")
      && Prefix(Get(ts, "market_data_cache"), Get(after, "market_data_cache"))
  {
    PlainTableName("market_data");
    MarketCacheKept();
    var rows := Get(ts, "market_data_cache");
    if shard in bucket {
      var r := agg(MarketSource, bucket[shard], CtxsFor(bucket, "market_data", date), date);
      if r.Success? {
        PrefixOfAppend(rows, r.value);
      }
    }
  }

  /** A run of shards leaves the market_data base table untouched and only appends to the market-data cache. */
  lemma {:induction false} ShardsWrite(agg: Aggregator, ts: Store, bucket: Bucket, shards: seq<string>, date: Day)
    requires InRange(date)
    requires forall i :: 0 <= i < |shards| ==> Contains(shards[i], "market_data")
    ensures var after := RunShards(agg, ts, bucket, shards, "market_data", date);
      && Get(after, "market_data") == Get(ts, "market_data")
      && Prefix(Get(ts, "market_data_cache"), Get(after, "market_data_cache"))
    decreases |shards|
  {
    if shards != [] {
      var init := shards[..|shards| - 1];
      assert forall i :: 0 <= i < |init| ==> init[i] == shards[i];
      var mid := RunShards(agg, ts, bucket, init, "market_data", date);
      ShardsWrite(agg, ts, bucket, init, date);
      ShardWrites(agg, mid, bucket, shards[|shards| - 1], date);
      PrefixTransitive(Get(ts, "market_data_cache"), Get(mid, "market_data_cache"),
        Get(RunShards(agg, ts, bucket, shards, "market_data", date), "market_data_cache"));
    }
  }

  /** One market-data day leaves the base table untouched and only appends to the cache. */
  lemma MarketStepWrites(agg: Aggregator, ts: Store, bucket: Bucket, date: Day, assets: seq<string>)
    requires InRange(date)
    ensures var after := Step(agg, ts, bucket, "market_data", "market_data", date, assets).0;
      && Get(after, "market_data") == Get(ts, "market_data")
      && Prefix(Get(ts, "market_data_cache"), Get(after, "market_data_cache"))
  {
    if !MarketCached(ts, date) {
      DayShardsMarket(date, 24, assets);
      ShardsWrite(agg, ts, bucket, DayShards(date, 24, assets), date);
    }
  }

  /** A cache slice can only grow when rows are appended. */
  lemma {:induction false} SliceOfPrefix(a: seq<Row>, b: seq<Row>, d: Day)
    requires Prefix(a, b)
    ensures AtDate(a, d) != [] ==> AtDate(b, d) != []
  {
    assert b == a + b[|a|..];
    AtDateAppend(a, b[|a|..], d);
  }

  /**
   * The market-data date loop leaves the base table untouched, only appends
   * to the cache, and skips every date whose rows were already cached when
   * the loop began.
   */
  lemma {:induction false} MarketDates(agg: Aggregator, ts: Store, bucket: Bucket, dates: seq<Day>, assets: seq<string>)
    requires AllInRange(dates)
    ensures var run := RunDates(agg, ts, bucket, "market_data", "market_data", dates, assets);
      && Get(run.0, "market_data") == Get(ts, "market_data")
      && Prefix(Get(ts, "market_data_cache"), Get(run.0, "market_data_cache"))
      && |run.1| == |dates|
      && forall i :: 0 <= i < |dates| && MarketCached(ts, dates[i]) ==> run.1[i] == AlreadyExists(dates[i])
    decreases |dates|
  {
    if dates != [] {
      var init := dates[..|dates| - 1];
      var d := dates[|dates| - 1];
      assert AllInRange(init) by {
        assert forall i :: 0 <= i < |init| ==> init[i] == dates[i];
      }
      MarketDates(agg, ts, bucket, init, assets);
      RunDatesAlerts(agg, ts, bucket, "market_data", "market_data", dates, assets);
      var mid := RunDates(agg, ts, bucket, "market_data", "market_data", init, assets);
      MarketStepWrites(agg, mid.0, bucket, d, assets);
      var after := Step(agg, mid.0, bucket, "market_data", "market_data", d, assets).0;
      PrefixTransitive(Get(ts, "market_data_cache"), Get(mid.0, "market_data_cache"), Get(after, "market_data_cache"));
      SliceOfPrefix(Get(ts, "market_data_cache"), Get(mid.0, "market_data_cache"), d);
    }
  }

  /** `RunTable` spelled out for a table given by a variable. */
  lemma RunTableIs(agg: Aggregator, ts: Store, bucket: Bucket, table: string, today: Day, assets: seq<string>)
    requires table in TableFileName && today >= Lookback && InRange(today)
    ensures var latest := MaxTime(Get(ts, table + "_cache"));
      var seeded := if latest.None? then ts - {table} else ts;
      var dates := GenerateDates(Seed(latest, today), today);
      && AllInRange(Tail(dates))
      && RunTable(agg, ts, bucket, table, today, assets)
         == (RunDates(agg, seeded, bucket, table, TableFileName[table], Tail(dates), assets).0,
             (if dates == [] then [NothingToProcess(table, Seed(latest, today))] else [])
             + RunDates(agg, seeded, bucket, table, TableFileName[table], Tail(dates), assets).1
             + Check(table,
                 MaxTime(Get(RunDates(agg, seeded, bucket, table, TableFileName[table], Tail(dates), assets).0, table + "_cache")),
                 MaxTime(Get(RunDates(agg, seeded, bucket, table, TableFileName[table], Tail(dates), assets).0, table))))
  {
    InRangeTail(GenerateDates(Seed(MaxTime(Get(ts, table + "_cache")), today), today), today);
  }

  /** The closing alert is the last one when there is one; per-date alerts are never mismatches. */
  lemma LastIsCheck(nothing: seq<Alert>, run: seq<Alert>, check: seq<Alert>)
    requires forall i :: 0 <= i < |nothing| ==> nothing[i].NothingToProcess?
    requires forall i :: 0 <= i < |run| ==> AlertDay(run[i]).Some?
    requires forall i :: 0 <= i < |check| ==> check[i].Mismatch?
    ensures var alerts := nothing + run + check;
      (|alerts| > 0 && alerts[|alerts| - 1].Mismatch?) <==> check != []
  {
    var alerts := nothing + run + check;
    if check != [] {
      assert alerts[|alerts| - 1] == check[|check| - 1];
    } else if run != [] {
      assert alerts[|alerts| - 1] == run[|run| - 1];
    } else if nothing != [] {
      assert alerts[|alerts| - 1] == nothing[|nothing| - 1];
    }
  }

  /** The market_data table stays empty through its own run. */
  lemma MarketBaseStaysEmpty(agg: Aggregator, ts: Store, bucket: Bucket, today: Day, assets: seq<string>)
    requires today >= Lookback && InRange(today)
    requires Get(ts, "market_data") == []
    ensures Get(RunTable(agg, ts, bucket, "market_data", today, assets).0, "market_data") == []
  {
    var table := "market_data";
    assert TableFileName[table] == table;
    RunTableIs(agg, ts, bucket, table, today, assets);
    var latest := MaxTime(Get(ts, table + "_cache"));
    var seeded := if latest.None? then ts - {table} else ts;
    var dates := GenerateDates(Seed(latest, today), today);
    MarketDates(agg, seeded, bucket, Tail(dates), assets);
  }

  /** A table's run ends with a mismatch alert exactly when its closing check alerts. */
  lemma RunTableEnds(agg: Aggregator, ts: Store, bucket: Bucket, table: string, today: Day, assets: seq<string>)
    requires table in TableFileName && today >= Lookback && InRange(today)
    ensures var r := RunTable(agg, ts, bucket, table, today, assets);
      (|r.1| > 0 && r.1[|r.1| - 1].Mismatch?)
        <==> Check(table, MaxTime(Get(r.0, table + "_cache")), MaxTime(Get(r.0, table))) != []
  {
    RunTableIs(agg, ts, bucket, table, today, assets);
    var latest := MaxTime(Get(ts, table + "_cache"));
    var seeded := if latest.None? then ts - {table} else ts;
    var dates := GenerateDates(Seed(latest, today), today);
    var run := RunDates(agg, seeded, bucket, table, TableFileName[table], Tail(dates), assets);
    RunDatesAlerts(agg, seeded, bucket, table, TableFileName[table], Tail(dates), assets);
    LastIsCheck(if dates == [] then [NothingToProcess(table, Seed(latest, today))] else [], run.1,
      Check(table, MaxTime(Get(run.0, table + "_cache")), MaxTime(Get(run.0, table))));
  }

  /**
   * The market_data table is never written (its shards are not loaded), so
   * when it starts empty the closing check compares the cache's max date
   * with "None": it alerts exactly when the market-data cache has rows.
   */
  lemma MarketAlwaysMismatch(agg: Aggregator, ts: Store, bucket: Bucket, today: Day, assets: seq<string>)
    requires today >= Lookback && InRange(today)
    requires Get(ts, "market_data") == []
    ensures var r := RunTable(agg, ts, bucket, "market_data", today, assets);
      (|r.1| > 0 && r.1[|r.1| - 1].Mismatch?) <==> Get(r.0, "market_data_cache") != []
  {
    assert "market_data" + "_cache" == "market_data_cache";
    RunTableEnds(agg, ts, bucket, "market_data", today, assets);
    MarketBaseStaysEmpty(agg, ts, bucket, today, assets);
    var r := RunTable(agg, ts, bucket, "market_data", today, assets);
    var cacheMax := MaxTime(Get(r.0, "market_data_cache"));
    assert |DateText(cacheMax)| != 4 || cacheMax.None?;
  }
}
