/**
 * pandas' `groupby(key)[value].agg(['count', 'sum'])` over a table of invoices,
 * the descending ranking of its buckets (`sort_values(ascending=False)`,
 * `idxmax`) and `nlargest(n)`.
 *
 * pandas lists the buckets of a groupby in sorted key order, `idxmax` returns
 * the first maximal label and `nlargest` keeps the first of equal values; so
 * among equal sums the smaller key comes first. `Groups` lists its buckets in
 * the order their keys first occur instead; every result that depends on the
 * order goes through `Rank`, which orders buckets by sum, descending, and
 * breaks ties by the key order it is given, so the listing order never shows.
 */
module Grouping {
  import opened Records
  import opened Orders

  /** One row of a grouped table: the key, how many rows share it, and their summed value. */
  datatype Bucket<K> = Bucket(key: K, count: nat, sum: real)

  /** `column.sum()`. */
  function Sum(rows: seq<Invoice>, valueOf: Invoice -> real): real {
    if rows == [] then 0.0 else Sum(rows[..|rows| - 1], valueOf) + valueOf(rows[|rows| - 1])
  }

  /** The summed value of the rows whose key is `k`. */
  function SumWhere<K(==)>(rows: seq<Invoice>, keyOf: Invoice -> K, k: K, valueOf: Invoice -> real): real {
    if rows == [] then 0.0
    else
      var last := rows[|rows| - 1];
      SumWhere(rows[..|rows| - 1], keyOf, k, valueOf) + (if keyOf(last) == k then valueOf(last) else 0.0)
  }

  /** The number of rows whose key is `k`. */
  function CountWhere<K(==)>(rows: seq<Invoice>, keyOf: Invoice -> K, k: K): nat {
    if rows == [] then 0
    else CountWhere(rows[..|rows| - 1], keyOf, k) + (if keyOf(rows[|rows| - 1]) == k then 1 else 0)
  }

  /** A key counted at least once occurs in some row. */
  lemma {:induction false} CountWhereWitness<K>(rows: seq<Invoice>, keyOf: Invoice -> K, k: K)
    requires CountWhere(rows, keyOf, k) > 0
    ensures exists r :: r in rows && keyOf(r) == k
  {
    var last := rows[|rows| - 1];
    if keyOf(last) != k {
      CountWhereWitness(rows[..|rows| - 1], keyOf, k);
      var r :| r in rows[..|rows| - 1] && keyOf(r) == k;
      assert r in rows;
    }
  }

  ghost predicate Distinct<K>(ks: seq<K>) {
    forall i, j :: 0 <= i < j < |ks| ==> ks[i] != ks[j]
  }

  /** No key labels two buckets. */
  ghost predicate KeysDistinct<K>(bs: seq<Bucket<K>>) {
    forall i, j :: 0 <= i < j < |bs| ==> bs[i].key != bs[j].key
  }

  /** The distinct keys of `rows`, each once. */
  function GroupKeys<K(==)>(rows: seq<Invoice>, keyOf: Invoice -> K): (ks: seq<K>)
    ensures Distinct(ks)
    ensures forall r :: r in rows ==> keyOf(r) in ks
    ensures forall k :: k in ks ==> CountWhere(rows, keyOf, k) > 0
  {
    if rows == [] then []
    else
      var init, last := rows[..|rows| - 1], rows[|rows| - 1];
      assert rows == init + [last];
      var ks := GroupKeys(init, keyOf);
      if keyOf(last) in ks then ks else ks + [keyOf(last)]
  }

  /** One bucket per key of `ks`, in that order. */
  function BucketsFor<K(==)>(ks: seq<K>, rows: seq<Invoice>, keyOf: Invoice -> K, valueOf: Invoice -> real)
    : (bs: seq<Bucket<K>>)
    ensures |bs| == |ks|
    ensures forall i :: 0 <= i < |ks| ==>
      bs[i] == Bucket(ks[i], CountWhere(rows, keyOf, ks[i]), SumWhere(rows, keyOf, ks[i], valueOf))
  {
    if ks == [] then []
    else [Bucket(ks[0], CountWhere(rows, keyOf, ks[0]), SumWhere(rows, keyOf, ks[0], valueOf))]
         + BucketsFor(ks[1..], rows, keyOf, valueOf)
  }

  /**
   * The grouped table: exactly one bucket per key occurring in `rows`, each
   * holding the count and the sum of that key's rows.
   */
  function Groups<K(==)>(rows: seq<Invoice>, keyOf: Invoice -> K, valueOf: Invoice -> real): (bs: seq<Bucket<K>>)
    ensures KeysDistinct(bs)
    ensures forall r :: r in rows ==> exists b :: b in bs && b.key == keyOf(r)
    ensures forall b :: b in bs ==>
      && b.count == CountWhere(rows, keyOf, b.key)
      && b.sum == SumWhere(rows, keyOf, b.key, valueOf)
      && b.count > 0
  {
    var ks := GroupKeys(rows, keyOf);
    var bs := BucketsFor(ks, rows, keyOf, valueOf);
    BucketsForShape(ks, rows, keyOf, valueOf);
    bs
  }

  lemma BucketsForShape<K>(ks: seq<K>, rows: seq<Invoice>, keyOf: Invoice -> K, valueOf: Invoice -> real)
    requires Distinct(ks)
    ensures var bs := BucketsFor(ks, rows, keyOf, valueOf);
      && KeysDistinct(bs)
      && (forall k :: k in ks ==> exists b :: b in bs && b.key == k)
      && (forall b :: b in bs ==> b.key in ks)
  {
    var bs := BucketsFor(ks, rows, keyOf, valueOf);
    forall k | k in ks ensures exists b :: b in bs && b.key == k {
      var i :| 0 <= i < |ks| && ks[i] == k;
      assert bs[i] in bs;
    }
  }

  /** The sum of a grouped table's `sum` column. */
  function TotalOf<K>(bs: seq<Bucket<K>>): real {
    if bs == [] then 0.0 else bs[0].sum + TotalOf(bs[1..])
  }

  /** The sum of a grouped table's `count` column. */
  function CountOf<K>(bs: seq<Bucket<K>>): nat {
    if bs == [] then 0 else bs[0].count + CountOf(bs[1..])
  }

  lemma {:induction false} BucketsOfNothing<K>(ks: seq<K>, keyOf: Invoice -> K, valueOf: Invoice -> real)
    ensures TotalOf(BucketsFor(ks, [], keyOf, valueOf)) == 0.0
    ensures CountOf(BucketsFor(ks, [], keyOf, valueOf)) == 0
  {
    if ks != [] {
      BucketsOfNothing(ks[1..], keyOf, valueOf);
    }
  }

  /** One more row adds its value and one to the bucket of its key, if that key is listed. */
  lemma {:induction false} BucketsAddRow<K>(ks: seq<K>, rows: seq<Invoice>, r: Invoice,
                                               keyOf: Invoice -> K, valueOf: Invoice -> real)
    requires Distinct(ks)
    ensures TotalOf(BucketsFor(ks, rows + [r], keyOf, valueOf))
            == TotalOf(BucketsFor(ks, rows, keyOf, valueOf)) + (if keyOf(r) in ks then valueOf(r) else 0.0)
    ensures CountOf(BucketsFor(ks, rows + [r], keyOf, valueOf))
            == CountOf(BucketsFor(ks, rows, keyOf, valueOf)) + (if keyOf(r) in ks then 1 else 0)
  {
    if ks != [] {
      assert (rows + [r])[..|rows|] == rows;
      BucketsAddRow(ks[1..], rows, r, keyOf, valueOf);
      assert keyOf(r) in ks <==> keyOf(r) == ks[0] || keyOf(r) in ks[1..];
      assert ks[0] !in ks[1..];
    }
  }

  lemma {:induction false} BucketsConserve<K>(ks: seq<K>, rows: seq<Invoice>,
                                                 keyOf: Invoice -> K, valueOf: Invoice -> real)
    requires Distinct(ks)
    requires forall r :: r in rows ==> keyOf(r) in ks
    ensures TotalOf(BucketsFor(ks, rows, keyOf, valueOf)) == Sum(rows, valueOf)
    ensures CountOf(BucketsFor(ks, rows, keyOf, valueOf)) == |rows|
  {
    if rows == [] {
      BucketsOfNothing(ks, keyOf, valueOf);
    } else {
      var init, last := rows[..|rows| - 1], rows[|rows| - 1];
      assert rows == init + [last];
      assert last in rows;
      forall r | r in init ensures keyOf(r) in ks {
        assert r in rows;
      }
      BucketsConserve(ks, init, keyOf, valueOf);
      BucketsAddRow(ks, init, last, keyOf, valueOf);
    }
  }

  /** Grouping loses and invents nothing: the sums add up to the column total, the counts to the row count. */
  lemma GroupsConserve<K>(rows: seq<Invoice>, keyOf: Invoice -> K, valueOf: Invoice -> real)
    ensures TotalOf(Groups(rows, keyOf, valueOf)) == Sum(rows, valueOf)
    ensures CountOf(Groups(rows, keyOf, valueOf)) == |rows|
  {
    BucketsConserve(GroupKeys(rows, keyOf), rows, keyOf, valueOf);
  }

  /** There are groups exactly when there are rows: every row opens a bucket, and no bucket is empty. */
  lemma GroupsEmpty<K>(rows: seq<Invoice>, keyOf: Invoice -> K, valueOf: Invoice -> real)
    ensures Groups(rows, keyOf, valueOf) == [] <==> rows == []
  {
    if rows != [] {
      assert rows[0] in rows;
    }
  }

  /** `a` comes strictly before `b` in a descending ranking: a larger sum, or an equal sum and a smaller key. */
  predicate Before<K>(a: Bucket<K>, b: Bucket<K>, less: (K, K) -> bool) {
    a.sum > b.sum || (a.sum == b.sum && less(a.key, b.key))
  }

  /** No bucket comes before one listed earlier: sums never increase down the table. */
  ghost predicate Ranked<K>(bs: seq<Bucket<K>>, less: (K, K) -> bool) {
    forall i, j :: 0 <= i < j < |bs| ==> !Before(bs[j], bs[i], less)
  }

  function Insert<K>(b: Bucket<K>, bs: seq<Bucket<K>>, less: (K, K) -> bool): (r: seq<Bucket<K>>)
    ensures multiset(r) == multiset(bs) + multiset{b}
  {
    if bs == [] || !Before(bs[0], b, less) then [b] + bs
    else
      assert bs == [bs[0]] + bs[1..];
      [bs[0]] + Insert(b, bs[1..], less)
  }

  /** The buckets sorted by descending sum, ties by `less` on the key: a permutation of `bs`. */
  function Rank<K>(bs: seq<Bucket<K>>, less: (K, K) -> bool): (r: seq<Bucket<K>>)
    ensures multiset(r) == multiset(bs)
    ensures |r| == |bs|
  {
    if bs == [] then []
    else
      assert bs == [bs[0]] + bs[1..];
      Insert(bs[0], Rank(bs[1..], less), less)
  }

  lemma BeforeAsymmetric<K(!new)>(a: Bucket<K>, b: Bucket<K>, less: (K, K) -> bool)
    requires StrictTotalOrder(less) && Before(a, b, less)
    ensures !Before(b, a, less)
  {
  }

  lemma NotBeforeTransitive<K(!new)>(x: Bucket<K>, y: Bucket<K>, z: Bucket<K>, less: (K, K) -> bool)
    requires StrictTotalOrder(less)
    requires !Before(x, y, less) && !Before(y, z, less)
    ensures !Before(x, z, less)
  {
    if x.sum == y.sum == z.sum && x.key != z.key {
      assert less(z.key, x.key) || less(x.key, z.key);
    }
  }

  lemma {:induction false} InsertRanked<K(!new)>(b: Bucket<K>, bs: seq<Bucket<K>>, less: (K, K) -> bool)
    requires StrictTotalOrder(less) && Ranked(bs, less)
    ensures Ranked(Insert(b, bs, less), less)
  {
    var r := Insert(b, bs, less);
    if bs == [] || !Before(bs[0], b, less) {
      forall i, j | 0 <= i < j < |r| ensures !Before(r[j], r[i], less) {
        if i == 0 && j > 1 {
          NotBeforeTransitive(bs[j - 1], bs[0], b, less);
        }
      }
    } else {
      var t := Insert(b, bs[1..], less);
      InsertRanked(b, bs[1..], less);
      forall y | y in t ensures !Before(y, bs[0], less) {
        assert y in multiset(t);
        if y == b {
          BeforeAsymmetric(bs[0], b, less);
        } else {
          assert y in bs[1..];
        }
      }
      assert forall j :: 0 < j < |r| ==> r[j] == t[j - 1] && r[j] in t;
    }
  }

  /** The ranking is sorted: sums never increase, and equal sums appear in key order. */
  lemma {:induction false} RankRanked<K(!new)>(bs: seq<Bucket<K>>, less: (K, K) -> bool)
    requires StrictTotalOrder(less)
    ensures Ranked(Rank(bs, less), less)
  {
    if bs != [] {
      RankRanked(bs[1..], less);
      InsertRanked(bs[0], Rank(bs[1..], less), less);
    }
  }

  lemma {:induction false} InsertTotals<K>(b: Bucket<K>, bs: seq<Bucket<K>>, less: (K, K) -> bool)
    ensures TotalOf(Insert(b, bs, less)) == b.sum + TotalOf(bs)
    ensures CountOf(Insert(b, bs, less)) == b.count + CountOf(bs)
  {
    if bs != [] && Before(bs[0], b, less) {
      InsertTotals(b, bs[1..], less);
    } else {
      assert ([b] + bs)[1..] == bs;
    }
  }

  lemma {:induction false} InsertKeysDistinct<K>(b: Bucket<K>, bs: seq<Bucket<K>>, less: (K, K) -> bool)
    requires KeysDistinct(bs) && forall x :: x in bs ==> x.key != b.key
    ensures KeysDistinct(Insert(b, bs, less))
  {
    if bs != [] && Before(bs[0], b, less) {
      var t := Insert(b, bs[1..], less);
      InsertKeysDistinct(b, bs[1..], less);
      forall y | y in t ensures y.key != bs[0].key {
        assert y in multiset(t);
      }
      assert forall j :: 0 < j < |t| + 1 ==> ([bs[0]] + t)[j] in t;
    }
  }

  /** Ranking keeps one bucket per key. */
  lemma {:induction false} RankKeysDistinct<K>(bs: seq<Bucket<K>>, less: (K, K) -> bool)
    requires KeysDistinct(bs)
    ensures KeysDistinct(Rank(bs, less))
  {
    if bs != [] {
      var t := Rank(bs[1..], less);
      RankKeysDistinct(bs[1..], less);
      forall x | x in t ensures x.key != bs[0].key {
        assert x in multiset(t);
        assert x in bs[1..];
      }
      InsertKeysDistinct(bs[0], t, less);
    }
  }

  /** Ranking reorders the grouped table without changing its totals. */
  lemma {:induction false} RankTotals<K>(bs: seq<Bucket<K>>, less: (K, K) -> bool)
    ensures TotalOf(Rank(bs, less)) == TotalOf(bs)
    ensures CountOf(Rank(bs, less)) == CountOf(bs)
  {
    if bs != [] {
      RankTotals(bs[1..], less);
      InsertTotals(bs[0], Rank(bs[1..], less), less);
    }
  }

  /** `nlargest(n)`: the first `n` buckets of the ranking (all of them when there are fewer). */
  function TopN<K>(bs: seq<Bucket<K>>, n: nat, less: (K, K) -> bool): (top: seq<Bucket<K>>)
    ensures |top| == if n < |bs| then n else |bs|
  {
    var ranked := Rank(bs, less);
    ranked[..if n < |ranked| then n else |ranked|]
  }

  /**
   * `nlargest` keeps the largest: its result is ranked, drawn from `bs`, and no
   * bucket left out comes before one kept.
   */
  lemma TopNKeepsLargest<K(!new)>(bs: seq<Bucket<K>>, n: nat, less: (K, K) -> bool)
    requires StrictTotalOrder(less)
    ensures var top := TopN(bs, n, less);
      && Ranked(top, less)
      && multiset(top) <= multiset(bs)
      && forall x, y :: x in bs && x !in top && y in top ==> !Before(x, y, less)
  {
    var ranked := Rank(bs, less);
    RankRanked(bs, less);
    var c := if n < |ranked| then n else |ranked|;
    var top := ranked[..c];
    assert ranked == top + ranked[c..];
    forall x, y | x in bs && x !in top && y in top ensures !Before(x, y, less) {
      assert x in multiset(ranked);
      var j :| 0 <= j < |ranked| && ranked[j] == x;
      var i :| 0 <= i < |top| && top[i] == y;
      assert j >= c;
    }
  }

  /** A bucket whose key `nlargest` left out is no larger than any bucket it kept. */
  lemma TopNOmitsSmaller<K(!new)>(bs: seq<Bucket<K>>, n: nat, less: (K, K) -> bool, b: Bucket<K>)
    requires StrictTotalOrder(less)
    requires b in bs && forall t :: t in TopN(bs, n, less) ==> t.key != b.key
    ensures forall t :: t in TopN(bs, n, less) ==> b.sum <= t.sum
  {
    TopNKeepsLargest(bs, n, less);
    var top := TopN(bs, n, less);
    assert b !in top;
  }

  /** In a ranked table the sums never increase. */
  lemma RankedSumsDescend<K>(bs: seq<Bucket<K>>, less: (K, K) -> bool)
    requires Ranked(bs, less)
    ensures forall i, j :: 0 <= i < j < |bs| ==> bs[j].sum <= bs[i].sum
  {
    forall i, j | 0 <= i < j < |bs| ensures bs[j].sum <= bs[i].sum {
      assert !Before(bs[j], bs[i], less);
    }
  }
}
