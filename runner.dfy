/**
 * The daily run of `scripts/main.py` as it executes: `process_file`, the
 * hour-by-asset loop over market-data shards, the date loop of one table
 * and the loop over the configured tables, each updating the database in
 * place and proved to leave exactly the state, and send exactly the
 * alerts, that the `Pipeline` functions describe.
 */
module Runner {
  import opened Wrappers
  import opened Calendar
  import opened Keys
  import opened Text
  import opened Records
  import opened Tables
  import opened Routing
  import opened Pipeline
  import opened PipelineFacts
  import opened Seqs

  /** Processing one more shard extends the run of shards by one step. */
  lemma RunShardsSnoc(agg: Aggregator, ts: Store, bucket: Bucket, ks: seq<string>, k: string, table: string, date: Day)
    requires InRange(date)
    ensures RunShards(agg, ts, bucket, ks + [k], table, date)
            == ProcessFile(agg, RunShards(agg, ts, bucket, ks, table, date), bucket, k, table, date).tables
  {
    PrefixOfAppend(ks, [k]);
  }

  /** `process_file` against the database; the exception it raises, if any, is returned. */
  method ProcessFileOn(agg: Aggregator, db: Database, bucket: Bucket, fileName: string, table: string, date: Day)
    returns (error: Option<string>)
    requires InRange(date)
    modifies db
    ensures Outcome(db.tables, error) == ProcessFile(agg, old(db.tables), bucket, fileName, table, date)
  {
    if Contains(table, "hlp_positions") && HlpAssetCtxsKey(date) !in bucket {
      return Some("NoSuchKey: " + HlpAssetCtxsKey(date));
    }
    if fileName !in bucket {
      return Some("NoSuchKey: " + fileName);
    }
    var p := bucket[fileName];
    if !Contains(fileName, "market_data") {
      db.UpdateDbTable(table, BaseRows(p), date);
    }
    var route := Route(fileName);
    if route.None? {
      return None;
    }
    var rows := agg(route.value, p, CtxsFor(bucket, table, date), date);
    if rows.Failure? {
      return Some(rows.error);
    }
    db.UpdateDbTable(CacheName(route.value), rows.value, date);
    return None;
  }

  /** Running two lists of shards one after the other is running their concatenation. */
  lemma {:induction false} RunShardsAppend(agg: Aggregator, ts: Store, bucket: Bucket, a: seq<string>, b: seq<string>, table: string, date: Day)
    requires InRange(date)
    ensures RunShards(agg, ts, bucket, a + b, table, date)
            == RunShards(agg, RunShards(agg, ts, bucket, a, table, date), bucket, b, table, date)
    decreases |b|
  {
    if b == [] {
      assert a + b == a;
    } else {
      var init := b[..|b| - 1];
      var k := b[|b| - 1];
      RunShardsAppend(agg, ts, bucket, a, init, table, date);
      assert a + b == (a + init) + [k];
      assert b == init + [k];
      RunShardsSnoc(agg, ts, bucket, a + init, k, table, date);
      RunShardsSnoc(agg, RunShards(agg, ts, bucket, a, table, date), bucket, init, k, table, date);
    }
  }

  /** The shards of one hour, one per asset, each failure swallowed. */
  method MarketHourOn(agg: Aggregator, db: Database, bucket: Bucket, table: string, date: Day, hour: nat, assets: seq<string>)
    requires InRange(date) && hour < 24
    modifies db
    ensures db.tables == RunShards(agg, old(db.tables), bucket, HourShards(date, hour, assets), table, date)
  {
    ghost var start := db.tables;
    ghost var now := HourShards(date, hour, assets);
    var j := 0;
    while j < |assets|
      invariant 0 <= j <= |assets|
      invariant db.tables == RunShards(agg, start, bucket, now[..j], table, date)
    {
      var shard := ShardKey("market_data", date, hour, assets[j]);
      PrefixStep(now, j);
      RunShardsSnoc(agg, start, bucket, now[..j], shard, table, date);
      var _ := ProcessFileOn(agg, db, bucket, shard, table, date);
      j := j + 1;
    }
    WholePrefix(now);
  }

  /** Every (hour, asset) shard of a market-data day, hour by hour. */
  method MarketDayOn(agg: Aggregator, db: Database, bucket: Bucket, table: string, date: Day, assets: seq<string>)
    requires InRange(date)
    modifies db
    ensures db.tables == RunShards(agg, old(db.tables), bucket, DayShards(date, 24, assets), table, date)
  {
    ghost var start := db.tables;
    var hour := 0;
    while hour < 24
      invariant 0 <= hour <= 24
      invariant db.tables == RunShards(agg, start, bucket, DayShards(date, hour, assets), table, date)
    {
      RunShardsAppend(agg, start, bucket, DayShards(date, hour, assets), HourShards(date, hour, assets), table, date);
      MarketHourOn(agg, db, bucket, table, date, hour, assets);
      hour := hour + 1;
    }
  }

  /** One date of a table's loop. */
  method StepOn(agg: Aggregator, db: Database, bucket: Bucket, table: string, stem: string, date: Day, assets: seq<string>)
    returns (alerts: seq<Alert>)
    requires InRange(date)
    modifies db
    ensures (db.tables, alerts) == Step(agg, old(db.tables), bucket, table, stem, date, assets)
  {
    if stem == "market_data" {
      if db.MarketDataExists(date) {
        return [AlreadyExists(date)];
      }
      MarketDayOn(agg, db, bucket, table, date, assets);
      return [Completed(date, table)];
    }
    var error := ProcessFileOn(agg, db, bucket, FileKey(stem, date), table, date);
    match error
    case None => alerts := [Completed(date, table)];
    case Some(e) => alerts := [Failed(table, date, e)];
  }

  /** A prefix of representable dates is representable. */
  lemma PrefixInRange(dates: seq<Day>, i: nat)
    requires AllInRange(dates) && i <= |dates|
    ensures AllInRange(dates[..i])
  {
    assert forall k :: 0 <= k < i ==> dates[..i][k] == dates[k];
  }

  /** The date loop: each date's step on the state the previous ones left, alerts in date order. */
  method RunDatesOn(agg: Aggregator, db: Database, bucket: Bucket, table: string, stem: string, dates: seq<Day>, assets: seq<string>)
    returns (alerts: seq<Alert>)
    requires AllInRange(dates)
    modifies db
    ensures (db.tables, alerts) == RunDates(agg, old(db.tables), bucket, table, stem, dates, assets)
  {
    ghost var start := db.tables;
    alerts := [];
    var i := 0;
    PrefixInRange(dates, 0);
    while i < |dates|
      invariant 0 <= i <= |dates| && AllInRange(dates[..i])
      invariant (db.tables, alerts) == RunDates(agg, start, bucket, table, stem, dates[..i], assets)
    {
      PrefixInRange(dates, i + 1);
      PrefixOfPrefix(dates, i, i + 1);
      var more := StepOn(agg, db, bucket, table, stem, dates[i], assets);
      alerts := alerts + more;
      i := i + 1;
    }
    WholePrefix(dates);
  }

  /** One configured table: resume after the cache's latest date (or start over), the date loop, then the comparison of max dates. */
  method RunTableOn(agg: Aggregator, db: Database, bucket: Bucket, table: string, today: Day, assets: seq<string>)
    returns (alerts: seq<Alert>)
    requires table in TableFileName && today >= Lookback && InRange(today)
    modifies db
    ensures (db.tables, alerts) == RunTable(agg, old(db.tables), bucket, table, today, assets)
  {
    RunTableIs(agg, db.tables, bucket, table, today, assets);
    var latest := db.LatestDate(table + "_cache");
    if latest.None? {
      db.DropTable(table);
    }
    var start := Seed(latest, today);
    var dates := GenerateDates(start, today);
    var nothing := if dates == [] then [NothingToProcess(table, start)] else [];
    var run := RunDatesOn(agg, db, bucket, table, TableFileName[table], Tail(dates), assets);
    alerts := nothing + run + Check(table, db.LatestDate(table + "_cache"), db.LatestDate(table));
  }

  /** The run over the first `i + 1` tables when the first `i` succeeded and table `i` is configured. */
  lemma RunAllNext(agg: Aggregator, ts: Store, bucket: Bucket, tables: seq<string>, i: nat, today: Day, assets: seq<string>)
    requires today >= Lookback && InRange(today) && i < |tables|
    requires RunAll(agg, ts, bucket, tables[..i], today, assets).2.None? && tables[i] in TableFileName
    ensures var before := RunAll(agg, ts, bucket, tables[..i], today, assets);
      var one := RunTable(agg, before.0, bucket, tables[i], today, assets);
      RunAll(agg, ts, bucket, tables[..i + 1], today, assets) == (one.0, before.1 + one.1, None)
  {
    var upto := tables[..i + 1];
    PrefixOfPrefix(tables, i, i + 1);
    assert |upto| - 1 == i && upto[..i] == tables[..i] && upto[i] == tables[i];
  }

  /** An unknown table ends the whole run with its `KeyError`. */
  lemma RunAllUnknown(agg: Aggregator, ts: Store, bucket: Bucket, tables: seq<string>, i: nat, today: Day, assets: seq<string>)
    requires today >= Lookback && InRange(today) && i < |tables|
    requires RunAll(agg, ts, bucket, tables[..i], today, assets).2.None? && tables[i] !in TableFileName
    ensures var before := RunAll(agg, ts, bucket, tables[..i], today, assets);
      RunAll(agg, ts, bucket, tables, today, assets) == (before.0, before.1, Some("KeyError: '" + tables[i] + "'"))
  {
    PrefixOfPrefix(tables, i, i + 1);
    RunAllStops(agg, ts, bucket, tables, i + 1, today, assets);
  }

  /**
   * `main` over the configured tables; an unknown table ends the run with
   * the `KeyError` it raises.
   */
  method RunAllOn(agg: Aggregator, db: Database, bucket: Bucket, tables: seq<string>, today: Day, assets: seq<string>)
    returns (alerts: seq<Alert>, error: Option<string>)
    requires today >= Lookback && InRange(today)
    modifies db
    ensures (db.tables, alerts, error) == RunAll(agg, old(db.tables), bucket, tables, today, assets)
  {
    ghost var start := db.tables;
    alerts := [];
    var i := 0;
    while i < |tables|
      invariant 0 <= i <= |tables|
      invariant (db.tables, alerts, None) == RunAll(agg, start, bucket, tables[..i], today, assets)
    {
      if tables[i] !in TableFileName {
        RunAllUnknown(agg, start, bucket, tables, i, today, assets);
        return alerts, Some("KeyError: '" + tables[i] + "'");
      }
      RunAllNext(agg, start, bucket, tables, i, today, assets);
      var more := RunTableOn(agg, db, bucket, tables[i], today, assets);
      alerts := alerts + more;
      i := i + 1;
    }
    WholePrefix(tables);
    error := None;
  }

  /** The daily run with the pipeline's own aggregation. */
  method DailyRun(db: Database, bucket: Bucket, tables: seq<string>, today: Day, assets: seq<string>)
    returns (alerts: seq<Alert>, error: Option<string>)
    requires today >= Lookback && InRange(today)
    modifies db
    ensures (db.tables, alerts, error) == RunAll(CacheRows, old(db.tables), bucket, tables, today, assets)
  {
    alerts, error := RunAllOn(CacheRows, db, bucket, tables, today, assets);
  }

  /** Once a table raises, the tables after it change nothing. */
  lemma {:induction false} RunAllStops(agg: Aggregator, ts: Store, bucket: Bucket, tables: seq<string>, n: nat, today: Day, assets: seq<string>)
    requires today >= Lookback && InRange(today) && n <= |tables|
    requires RunAll(agg, ts, bucket, tables[..n], today, assets).2.Some?
    ensures RunAll(agg, ts, bucket, tables, today, assets) == RunAll(agg, ts, bucket, tables[..n], today, assets)
    decreases |tables| - n
  {
    if n < |tables| {
      PrefixOfPrefix(tables, n, n + 1);
      RunAllStops(agg, ts, bucket, tables, n + 1, today, assets);
    } else {
      WholePrefix(tables);
    }
  }
}
