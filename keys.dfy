/**
 * Object-store keys of the daily partitions. A scalar source's partition
 * for a date is `{name}/{YYYYMMDD}.csv.lz4`; a market-data shard is
 * `{name}/{YYYYMMDD}/{hour}/l2Book/{asset}.lz4`. Dates print with
 * `strftime('%Y%m%d')` (zero-padded, eight digits) and the hour with
 * `str` (no padding). Every key is shown to determine what it was built
 * from, so distinct partitions never share a key.
 */
module Keys {
  import opened Wrappers
  import opened Calendar

  predicate IsDigit(c: char) {
    '0' <= c <= '9'
  }

  predicate AllDigits(s: string) {
    forall i :: 0 <= i < |s| ==> IsDigit(s[i])
  }

  function Digit(n: nat): (c: char)
    requires n < 10
    ensures IsDigit(c)
  {
    ('0' as int + n) as char
  }

  function DigitValue(c: char): nat
    requires IsDigit(c)
  {
    c as int - '0' as int
  }

  /** The number a string of decimal digits spells. */
  function Number(s: string): nat
    requires AllDigits(s)
  {
    if s == [] then 0 else Number(s[..|s| - 1]) * 10 + DigitValue(s[|s| - 1])
  }

  /** `%02d`: two digits, zero-padded. */
  function Pad2(n: nat): (s: string)
    requires n < 100
    ensures |s| == 2 && AllDigits(s) && Number(s) == n
  {
    var s := [Digit(n / 10), Digit(n % 10)];
    assert s[..1] == [Digit(n / 10)] && s[..1][..0] == [];
    assert Number(s[..1]) == n / 10;
    s
  }

  /** Digit strings concatenate as numbers do: the right part fills the low digits. */
  lemma {:induction false} NumberAppend(s: string, t: string)
    requires AllDigits(s) && AllDigits(t) && |t| == 2
    ensures AllDigits(s + t) && Number(s + t) == Number(s) * 100 + Number(t)
  {
    var u := s + t;
    assert u[..|u| - 1] == s + [t[0]];
    assert (s + [t[0]])[..|s|] == s;
    assert t[..1] == [t[0]] && t[..1][..0] == [];
    assert Number(t[..1]) == DigitValue(t[0]);
    assert Number(t) == DigitValue(t[0]) * 10 + DigitValue(t[1]);
    assert Number(s + [t[0]]) == Number(s) * 10 + DigitValue(t[0]);
  }

  /** `%04d`: four digits, zero-padded. */
  function Pad4(n: nat): (s: string)
    requires n < 10000
    ensures |s| == 4 && AllDigits(s) && Number(s) == n
  {
    NumberAppend(Pad2(n / 100), Pad2(n % 100));
    Pad2(n / 100) + Pad2(n % 100)
  }

  /** `date.strftime('%Y%m%d')`. */
  function Compact(d: Day): (s: string)
    requires InRange(d)
    ensures |s| == 8 && AllDigits(s)
  {
    var c := FromDay(d);
    InRangeYear(d);
    Pad4(c.year) + Pad2(c.month) + Pad2(c.day)
  }

  /** Reads a `%Y%m%d` string back; None when it is not a calendar date. */
  function ParseCompact(s: string): (r: Option<Day>)
  {
    if |s| == 8 && AllDigits(s) then
      var c := Civil(Number(s[..4]), Number(s[4..6]), Number(s[6..]));
      if Valid(c) then Some(ToDay(c)) else None
    else None
  }

  /** Printing a date and reading it back gives the date. */
  lemma CompactRoundTrip(d: Day)
    requires InRange(d)
    ensures ParseCompact(Compact(d)) == Some(d)
  {
    var c := FromDay(d);
    InRangeYear(d);
    var s := Compact(d);
    assert s[..4] == Pad4(c.year);
    assert s[4..6] == Pad2(c.month);
    assert s[6..] == Pad2(c.day);
  }

  /** Distinct dates print differently. */
  lemma CompactInjective(d: Day, e: Day)
    requires InRange(d) && InRange(e)
    requires Compact(d) == Compact(e)
    ensures d == e
  {
    CompactRoundTrip(d);
    CompactRoundTrip(e);
  }

  /** `date.strftime('%Y-%m-%d')`, which is also the first ten characters of `str` of a date or datetime. */
  function Iso(d: Day): (s: string)
    requires InRange(d)
    ensures |s| == 10 && s[4] == '-' && s[7] == '-'
    ensures s[..4] + s[5..7] + s[8..] == Compact(d)
  {
    var c := FromDay(d);
    InRangeYear(d);
    var s := Pad4(c.year) + "-" + Pad2(c.month) + "-" + Pad2(c.day);
    assert s[..4] == Pad4(c.year) && s[5..7] == Pad2(c.month) && s[8..] == Pad2(c.day);
    s
  }

  /** Distinct dates have distinct ISO forms. */
  lemma IsoInjective(d: Day, e: Day)
    requires InRange(d) && InRange(e)
    requires Iso(d) == Iso(e)
    ensures d == e
  {
    CompactInjective(d, e);
  }

  /** The key of a scalar source's partition: `{name}/{YYYYMMDD}.csv.lz4`. */
  function FileKey(name: string, d: Day): (k: string)
    requires InRange(d)
    ensures |k| == |name| + 17
  {
    name + "/" + (Compact(d) + ".csv.lz4")
  }

  /** A partition key determines the source name and the date. */
  lemma FileKeyInjective(name: string, d: Day, name': string, d': Day)
    requires InRange(d) && InRange(d')
    requires FileKey(name, d) == FileKey(name', d')
    ensures name == name' && d == d'
  {
    var k := FileKey(name, d);
    var k' := FileKey(name', d');
    assert k[..|name|] == name && k'[..|name'|] == name';
    assert k[|name| + 1..|name| + 9] == Compact(d);
    assert k'[|name'| + 1..|name'| + 9] == Compact(d');
    CompactInjective(d, d');
  }

  /** The asset_ctxs partition that the hlp_positions aggregation reads beside its own. */
  function HlpAssetCtxsKey(d: Day): string
    requires InRange(d)
  {
    FileKey("asset_ctxs", d)
  }

  /** The asset contexts are never the hlp_positions partition itself. */
  lemma HlpAssetCtxsKeyDistinct(d: Day)
    requires InRange(d)
    ensures HlpAssetCtxsKey(d) != FileKey("hlp_positions", d)
  {
    var k, k' := HlpAssetCtxsKey(d), FileKey("hlp_positions", d);
    assert |k| != |k'|;
  }

  /** `str(hour)` for an hour of the day: no zero padding. */
  function HourText(h: nat): (s: string)
    requires h < 24
    ensures 1 <= |s| <= 2 && AllDigits(s) && Number(s) == h
    ensures |s| == 1 <==> h < 10
  {
    if h < 10 then [Digit(h)] else Pad2(h)
  }

  /** The key of one hourly order-book shard: `{name}/{YYYYMMDD}/{hour}/l2Book/{asset}.lz4`. */
  function ShardKey(name: string, d: Day, hour: nat, asset: string): (k: string)
    requires InRange(d) && hour < 24
  {
    name + "/" + Compact(d) + "/" + HourText(hour) + "/l2Book/" + asset + ".lz4"
  }

  /** Where the parts of a shard key sit in it, for any date text of eight characters. */
  lemma ShardKeyParts(name: string, c: string, t: string, a: string)
    requires |c| == 8
    ensures var k := name + "/" + c + "/" + t + "/l2Book/" + a + ".lz4";
      var n := |name| + 1;
      |k| == n + 21 + |t| + |a| && k[n..n + 8] == c && k[n + 9..n + 9 + |t|] == t
      && k[n + 9 + |t|] == '/' && k[n + 17 + |t|..|k| - 4] == a
  {
  }

  /** Within one source, a shard key determines the date, the hour and the asset. */
  lemma ShardKeyInjective(name: string, d: Day, h: nat, a: string, d': Day, h': nat, a': string)
    requires InRange(d) && InRange(d') && h < 24 && h' < 24
    requires ShardKey(name, d, h, a) == ShardKey(name, d', h', a')
    ensures d == d' && h == h' && a == a'
  {
    var n := |name| + 1;
    var t, t' := HourText(h), HourText(h');
    ShardKeyParts(name, Compact(d), t, a);
    ShardKeyParts(name, Compact(d'), t', a');
    CompactInjective(d, d');
    if |t| < |t'| {
      assert false;
    } else if |t'| < |t| {
      assert false;
    }
  }
}
