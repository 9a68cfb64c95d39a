/**
 * The `DataFrame.groupby(keys).agg(...)` pattern over a sequence of
 * records: the distinct keys, the rows of one key, per-key sums, and the
 * first and last row of a key. Group keys are assumed present (pandas
 * drops rows whose key is NaN). A key is the tuple of its column values
 * printed as strings (a boolean column as `True`/`False`, which sort as
 * the booleans do), and groups come out in ascending key order, as
 * `groupby` sorts them by default.
 */
module GroupBy {
  import opened Stats

  predicate NoDuplicates<K(==)>(ks: seq<K>) {
    forall i, j :: 0 <= i < j < |ks| ==> ks[i] != ks[j]
  }

  /** The distinct values of `ks`, each where it first appears. */
  function Distinct<K(==)>(ks: seq<K>): (r: seq<K>)
    ensures |r| <= |ks| && NoDuplicates(r)
    ensures forall i :: 0 <= i < |ks| ==> ks[i] in r
    ensures forall j :: 0 <= j < |r| ==> r[j] in ks
  {
    if ks == [] then []
    else
      var d := Distinct(ks[..|ks| - 1]);
      assert ks == ks[..|ks| - 1] + [ks[|ks| - 1]];
      if ks[|ks| - 1] in d then d else d + [ks[|ks| - 1]]
  }

  /** The column `f` of the rows. */
  function Column<T, U>(rows: seq<T>, f: T -> U): (r: seq<U>)
    ensures |r| == |rows| && forall i :: 0 <= i < |rows| ==> r[i] == f(rows[i])
  {
    seq(|rows|, i requires 0 <= i < |rows| => f(rows[i]))
  }

  /** The group keys present in `rows`, once each. */
  function KeysOf<T, K(==)>(rows: seq<T>, key: T -> K): (r: seq<K>)
    ensures |r| <= |rows| && NoDuplicates(r)
    ensures forall i :: 0 <= i < |rows| ==> key(rows[i]) in r
    ensures forall k :: k in r ==> exists i :: 0 <= i < |rows| && key(rows[i]) == k
  {
    var c := Column(rows, key);
    assert forall k :: k in c ==> exists i :: 0 <= i < |rows| && key(rows[i]) == k;
    Distinct(c)
  }

  /** The rows of group `k`, in their original order. */
  function Where<T(==), K(==)>(rows: seq<T>, key: T -> K, k: K): (r: seq<T>)
    ensures |r| <= |rows|
    ensures forall j :: 0 <= j < |r| ==> r[j] in rows && key(r[j]) == k
    ensures forall i :: 0 <= i < |rows| && key(rows[i]) == k ==> rows[i] in r
  {
    if rows == [] then []
    else
      var last := rows[|rows| - 1];
      assert rows == rows[..|rows| - 1] + [last];
      Where(rows[..|rows| - 1], key, k) + (if key(last) == k then [last] else [])
  }

  /**
   * A group keeps each row of its key as often as the table holds it and
   * no row of another key: it is the table filtered, with multiplicity.
   */
  lemma {:induction false} WhereCount<T, K>(rows: seq<T>, key: T -> K, k: K, x: T)
    ensures multiset(Where(rows, key, k))[x] == if key(x) == k then multiset(rows)[x] else 0
  {
    if rows != [] {
      var init, last := rows[..|rows| - 1], rows[|rows| - 1];
      assert rows == init + [last];
      WhereCount(init, key, k, x);
      assert Where(rows, key, k) == Where(init, key, k) + (if key(last) == k then [last] else []);
      assert multiset(rows) == multiset(init) + multiset{last};
    }
  }

  /** When every row has key `k`, the group of `k` is the whole table. */
  lemma {:induction false} WhereAll<T, K>(rows: seq<T>, key: T -> K, k: K)
    requires forall i :: 0 <= i < |rows| ==> key(rows[i]) == k
    ensures Where(rows, key, k) == rows
  {
    if rows != [] {
      var init, last := rows[..|rows| - 1], rows[|rows| - 1];
      assert rows == init + [last];
      assert forall i :: 0 <= i < |init| ==> key(init[i]) == k by {
        forall i | 0 <= i < |init| ensures key(init[i]) == k {
          assert init[i] == rows[i];
        }
      }
      WhereAll(init, key, k);
      assert key(last) == k;
      assert Where(rows, key, k) == Where(init, key, k) + [last];
    }
  }

  /** A key that occurs has a non-empty group. */
  lemma GroupNotEmpty<T, K>(rows: seq<T>, key: T -> K, k: K)
    requires exists i :: 0 <= i < |rows| && key(rows[i]) == k
    ensures |Where(rows, key, k)| > 0
  {
    var i :| 0 <= i < |rows| && key(rows[i]) == k;
    assert rows[i] in Where(rows, key, k);
  }

  /** The sum of column `f`. */
  function SumOf<T>(rows: seq<T>, f: T -> real): real {
    if rows == [] then 0.0 else SumOf(rows[..|rows| - 1], f) + f(rows[|rows| - 1])
  }

  /** The sum of column `f` is the sum of the column as a sequence of values. */
  lemma {:induction false} SumOfColumn<T>(rows: seq<T>, f: T -> real)
    ensures SumOf(rows, f) == Sum(Column(rows, f))
  {
    if rows != [] {
      SumOfColumn(rows[..|rows| - 1], f);
      assert Column(rows, f)[..|rows| - 1] == Column(rows[..|rows| - 1], f);
    }
  }

  /** The per-group sums of column `f`, added up over the keys `ks`. */
  function GroupSums<T(==), K(==)>(ks: seq<K>, rows: seq<T>, key: T -> K, f: T -> real): real {
    if ks == [] then 0.0
    else GroupSums(ks[..|ks| - 1], rows, key, f) + SumOf(Where(rows, key, ks[|ks| - 1]), f)
  }

  lemma {:induction false} GroupSumsOfNothing<T, K>(ks: seq<K>, key: T -> K, f: T -> real)
    ensures GroupSums(ks, [], key, f) == 0.0
  {
    if ks != [] {
      GroupSumsOfNothing(ks[..|ks| - 1], key, f);
    }
  }

  /** One more row adds its value to the sum of its own group only. */
  lemma GroupSumSnoc<T, K>(rows: seq<T>, x: T, key: T -> K, k: K, f: T -> real)
    ensures SumOf(Where(rows + [x], key, k), f)
         == SumOf(Where(rows, key, k), f) + (if key(x) == k then f(x) else 0.0)
  {
    assert (rows + [x])[..|rows|] == rows;
    var w := Where(rows, key, k);
    if key(x) == k {
      assert Where(rows + [x], key, k) == w + [x];
      assert (w + [x])[..|w|] == w;
    } else {
      assert Where(rows + [x], key, k) == w;
    }
  }

  /** One more row adds its value to exactly the group of its key. */
  lemma {:induction false} GroupSumsStep<T, K>(ks: seq<K>, rows: seq<T>, x: T, key: T -> K, f: T -> real)
    requires NoDuplicates(ks)
    ensures GroupSums(ks, rows + [x], key, f)
         == GroupSums(ks, rows, key, f) + (if key(x) in ks then f(x) else 0.0)
  {
    if ks != [] {
      var init := ks[..|ks| - 1];
      var k := ks[|ks| - 1];
      assert ks == init + [k];
      GroupSumsStep(init, rows, x, key, f);
      GroupSumSnoc(rows, x, key, k, f);
      assert key(x) in ks <==> key(x) in init || key(x) == k;
      assert !(key(x) in init && key(x) == k);
    }
  }

  /** Sum conservation: the group sums over all keys add up to the column total. */
  lemma {:induction false} GroupSumsConserve<T, K>(ks: seq<K>, rows: seq<T>, key: T -> K, f: T -> real)
    requires NoDuplicates(ks)
    requires forall i :: 0 <= i < |rows| ==> key(rows[i]) in ks
    ensures GroupSums(ks, rows, key, f) == SumOf(rows, f)
  {
    if rows == [] {
      GroupSumsOfNothing(ks, key, f);
    } else {
      var init := rows[..|rows| - 1];
      var x := rows[|rows| - 1];
      assert rows == init + [x];
      GroupSumsConserve(ks, init, key, f);
      GroupSumsStep(ks, init, x, key, f);
    }
  }

  /** An output column whose j-th entry is the sum of group `ks[j]` adds up to the group sums. */
  lemma {:induction false} OutputColumnSum<T, K, R>(out: seq<R>, g: R -> real, ks: seq<K>, rows: seq<T>, key: T -> K, f: T -> real)
    requires |out| == |ks|
    requires forall j :: 0 <= j < |ks| ==> g(out[j]) == SumOf(Where(rows, key, ks[j]), f)
    ensures SumOf(out, g) == GroupSums(ks, rows, key, f)
  {
    if out != [] {
      OutputColumnSum(out[..|out| - 1], g, ks[..|ks| - 1], rows, key, f);
    }
  }

  /** Sum conservation for a group-by: per-key sums, added up, give the column total. */
  lemma SumConserved<T, R>(out: seq<R>, g: R -> real, rows: seq<T>, key: T -> seq<string>, f: T -> real)
    requires |out| == |GroupKeys(rows, key)|
    requires forall j :: 0 <= j < |out| ==> g(out[j]) == SumOf(Where(rows, key, GroupKeys(rows, key)[j]), f)
    ensures SumOf(out, g) == SumOf(rows, f)
  {
    OutputColumnSum(out, g, GroupKeys(rows, key), rows, key, f);
    GroupSumsConserve(GroupKeys(rows, key), rows, key, f);
  }

  /** The mean of column `f` over group `k` (pandas `mean`). */
  function GroupMean<T(==)>(rows: seq<T>, key: T -> seq<string>, k: seq<string>, f: T -> real): (m: real)
    requires exists i :: 0 <= i < |rows| && key(rows[i]) == k
    ensures var g := Column(Where(rows, key, k), f); |g| > 0 && Min(g) <= m <= Max(g)
  {
    GroupNotEmpty(rows, key, k);
    Mean(Column(Where(rows, key, k), f))
  }

  /** The median of column `f` over group `k` (pandas `median`). */
  function GroupMedian<T(==)>(rows: seq<T>, key: T -> seq<string>, k: seq<string>, f: T -> real): (m: real)
    requires exists i :: 0 <= i < |rows| && key(rows[i]) == k
    ensures var g := Column(Where(rows, key, k), f); |g| > 0 && Min(g) <= m <= Max(g)
  {
    GroupNotEmpty(rows, key, k);
    Median(Column(Where(rows, key, k), f))
  }

  /** Index of the first row of group `k` (pandas `first`). */
  function FirstIndex<T, K(==)>(rows: seq<T>, key: T -> K, k: K): (i: nat)
    requires exists j :: 0 <= j < |rows| && key(rows[j]) == k
    ensures i < |rows| && key(rows[i]) == k
    ensures forall j :: 0 <= j < i ==> key(rows[j]) != k
  {
    if key(rows[0]) == k then 0
    else
      assert exists j :: 0 <= j < |rows[1..]| && key(rows[1..][j]) == k by {
        var j :| 0 <= j < |rows| && key(rows[j]) == k;
        assert key(rows[1..][j - 1]) == k;
      }
      1 + FirstIndex(rows[1..], key, k)
  }

  /** Index of the last row of group `k` (pandas `last`). */
  function LastIndex<T, K(==)>(rows: seq<T>, key: T -> K, k: K): (i: nat)
    requires exists j :: 0 <= j < |rows| && key(rows[j]) == k
    ensures i < |rows| && key(rows[i]) == k
    ensures forall j :: i < j < |rows| ==> key(rows[j]) != k
  {
    var n := |rows| - 1;
    if key(rows[n]) == k then n
    else LastIndex(rows[..n], key, k)
  }

  /** The number of rows of group `k` (pandas `transform("count")`). */
  function Count<T(==), K(==)>(rows: seq<T>, key: T -> K, k: K): (n: nat)
    ensures n == |Where(rows, key, k)|
  {
    if rows == [] then 0
    else Count(rows[..|rows| - 1], key, k) + (if key(rows[|rows| - 1]) == k then 1 else 0)
  }

  /** Python's `<` on strings: code-point order, a proper prefix first. */
  predicate StrLess(a: string, b: string) {
    if a == [] then b != []
    else if b == [] then false
    else if a[0] != b[0] then a[0] < b[0]
    else StrLess(a[1..], b[1..])
  }

  lemma {:induction false} StrLessIrreflexive(a: string)
    ensures !StrLess(a, a)
  {
    if a != [] {
      StrLessIrreflexive(a[1..]);
    }
  }

  lemma {:induction false} StrLessTransitive(a: string, b: string, c: string)
    requires StrLess(a, b) && StrLess(b, c)
    ensures StrLess(a, c)
  {
    if a != [] && a[0] == b[0] && b[0] == c[0] {
      StrLessTransitive(a[1..], b[1..], c[1..]);
    }
  }

  lemma {:induction false} StrLessTotal(a: string, b: string)
    requires a != b
    ensures StrLess(a, b) || StrLess(b, a)
  {
    if a != [] && b != [] && a[0] == b[0] {
      assert a == [a[0]] + a[1..] && b == [b[0]] + b[1..];
      StrLessTotal(a[1..], b[1..]);
    }
  }

  /** Python's `<` on tuples of strings: lexicographic, comparing entries with `StrLess`. */
  predicate KeyLess(a: seq<string>, b: seq<string>) {
    if a == [] then b != []
    else if b == [] then false
    else if a[0] != b[0] then StrLess(a[0], b[0])
    else KeyLess(a[1..], b[1..])
  }

  lemma {:induction false} KeyLessIrreflexive(a: seq<string>)
    ensures !KeyLess(a, a)
  {
    if a != [] {
      KeyLessIrreflexive(a[1..]);
    }
  }

  lemma {:induction false} KeyLessTransitive(a: seq<string>, b: seq<string>, c: seq<string>)
    requires KeyLess(a, b) && KeyLess(b, c)
    ensures KeyLess(a, c)
  {
    if a != [] && b != [] && c != [] {
      if a[0] == b[0] && b[0] == c[0] {
        KeyLessTransitive(a[1..], b[1..], c[1..]);
      } else if a[0] != b[0] && b[0] != c[0] {
        StrLessTransitive(a[0], b[0], c[0]);
        StrLessIrreflexive(a[0]);
      }
    }
  }

  lemma {:induction false} KeyLessTotal(a: seq<string>, b: seq<string>)
    requires a != b
    ensures KeyLess(a, b) || KeyLess(b, a)
  {
    if a != [] && b != [] {
      if a[0] == b[0] {
        assert a == [a[0]] + a[1..] && b == [b[0]] + b[1..];
        KeyLessTotal(a[1..], b[1..]);
      } else {
        StrLessTotal(a[0], b[0]);
      }
    }
  }

  /** Strictly ascending keys. */
  predicate Ascending(ks: seq<seq<string>>) {
    forall i, j :: 0 <= i < j < |ks| ==> KeyLess(ks[i], ks[j])
  }

  lemma AscendingDistinct(ks: seq<seq<string>>)
    requires Ascending(ks)
    ensures NoDuplicates(ks)
  {
    forall i, j | 0 <= i < j < |ks| ensures ks[i] != ks[j] {
      KeyLessIrreflexive(ks[i]);
    }
  }

  /** Inserts a new key into ascending keys. */
  function InsertKey(ks: seq<seq<string>>, k: seq<string>): (r: seq<seq<string>>)
    requires Ascending(ks) && k !in ks
    ensures Ascending(r) && |r| == |ks| + 1
    ensures forall x :: x in r <==> x in ks || x == k
  {
    if ks == [] then [k]
    else if KeyLess(k, ks[0]) then
      forall j | 0 < j < |ks| ensures KeyLess(k, ks[j]) {
        KeyLessTransitive(k, ks[0], ks[j]);
      }
      [k] + ks
    else
      KeyLessTotal(k, ks[0]);
      var t := InsertKey(ks[1..], k);
      assert forall x :: x in ks <==> x == ks[0] || x in ks[1..] by {
        assert ks == [ks[0]] + ks[1..];
      }
      forall j | 0 <= j < |t| ensures KeyLess(ks[0], t[j]) {
        if t[j] != k {
          assert t[j] in ks[1..];
          var i :| 0 <= i < |ks[1..]| && ks[1..][i] == t[j];
          assert ks[i + 1] == t[j];
        }
      }
      [ks[0]] + t
  }

  /** The keys in ascending order. */
  function SortKeys(ks: seq<seq<string>>): (r: seq<seq<string>>)
    requires NoDuplicates(ks)
    ensures Ascending(r) && |r| == |ks|
    ensures forall x :: x in r <==> x in ks
  {
    if ks == [] then []
    else
      var init := ks[..|ks| - 1];
      assert ks == init + [ks[|ks| - 1]];
      InsertKey(SortKeys(init), ks[|ks| - 1])
  }

  /** The groups of `rows`, in the order `groupby` lists them: every key present once, ascending. */
  function GroupKeys<T>(rows: seq<T>, key: T -> seq<string>): (r: seq<seq<string>>)
    ensures |r| <= |rows| && Ascending(r) && NoDuplicates(r)
    ensures forall i :: 0 <= i < |rows| ==> key(rows[i]) in r
    ensures forall k :: k in r ==> exists i :: 0 <= i < |rows| && key(rows[i]) == k
  {
    var r := SortKeys(KeysOf(rows, key));
    AscendingDistinct(r);
    r
  }

  /** A table whose rows all share key `k` has the single group `k`. */
  lemma OneGroup<T>(rows: seq<T>, key: T -> seq<string>, k: seq<string>)
    requires |rows| > 0 && forall i :: 0 <= i < |rows| ==> key(rows[i]) == k
    ensures GroupKeys(rows, key) == [k]
  {
    var ks := GroupKeys(rows, key);
    assert |ks| < 2 || ks[0] != ks[1];
    assert key(rows[0]) in ks;
    forall i | 0 <= i < |ks| ensures ks[i] == k {
      assert ks[i] in ks;
    }
  }
}
