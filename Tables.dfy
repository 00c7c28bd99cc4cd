/** Grouped result tables: what `groupBy(key).agg(sum(...))` yields, one
    row per distinct key with its sum, plus the `orderBy(desc)` and the
    rounded percentage-of-total columns added to some of them. */
module Tables {
  import opened Options

  /** Sum of the value column. */
  function Total<K>(t: seq<(K, real)>): real {
    if t == [] then 0.0 else t[0].1 + Total(t[1..])
  }

  /** The keys that have a row. */
  function Keys<K>(t: seq<(K, real)>): set<K> {
    if t == [] then {} else {t[0].0} + Keys(t[1..])
  }

  /** One row per key. */
  predicate DistinctKeys<K(==)>(t: seq<(K, real)>) {
    t == [] || (t[0].0 !in Keys(t[1..]) && DistinctKeys(t[1..]))
  }

  /** The value in `k`'s row, 0 when `k` has none. */
  function ValueOf<K(==)>(t: seq<(K, real)>, k: K): real {
    if t == [] then 0.0 else if t[0].0 == k then t[0].1 else ValueOf(t[1..], k)
  }

  /** Adds `v` to the row of `k`, opening a row at the end when `k` has
      none: one step of a grouped sum. */
  function Accumulate<K(==, !new)>(t: seq<(K, real)>, k: K, v: real): (u: seq<(K, real)>)
    requires DistinctKeys(t)
    ensures DistinctKeys(u)
    ensures Keys(u) == Keys(t) + {k}
    ensures Total(u) == Total(t) + v
    ensures forall j :: ValueOf(u, j) == ValueOf(t, j) + (if j == k then v else 0.0)
  {
    if t == [] then [(k, v)]
    else if t[0].0 == k then
      var u := [(k, t[0].1 + v)] + t[1..];
      assert u[1..] == t[1..];
      u
    else
      var u := [t[0]] + Accumulate(t[1..], k, v);
      assert u[1..] == Accumulate(t[1..], k, v);
      u
  }

  /** Largest value first. */
  predicate SortedDesc<K>(t: seq<(K, real)>) {
    forall i, j :: 0 <= i < j < |t| ==> t[i].1 >= t[j].1
  }

  /** Places `x` before the first row with a smaller or equal value. */
  function Insert<K>(x: (K, real), t: seq<(K, real)>): (u: seq<(K, real)>)
    requires SortedDesc(t)
    ensures SortedDesc(u)
    ensures multiset(u) == multiset(t) + multiset{x}
    ensures Total(u) == Total(t) + x.1
    ensures u[0] == x || (t != [] && u[0] == t[0])
  {
    if t == [] || x.1 >= t[0].1 then
      SortedCons(x, t);
      [x] + t
    else
      var rest := Insert(x, t[1..]);
      SortedCons(t[0], rest);
      var u := [t[0]] + rest;
      assert u[1..] == rest;
      assert t == [t[0]] + t[1..];
      u
  }

  /** A row no smaller than the first of a sorted table can go in front. */
  lemma SortedCons<K>(h: (K, real), u: seq<(K, real)>)
    requires SortedDesc(u)
    requires u == [] || h.1 >= u[0].1
    ensures SortedDesc([h] + u)
  {
    var v := [h] + u;
    forall i, j | 0 <= i < j < |v|
      ensures v[i].1 >= v[j].1
    {
      if i > 0 {
        assert v[i] == u[i - 1] && v[j] == u[j - 1];
      } else {
        assert v[j] == u[j - 1];
      }
    }
  }

  /** `orderBy(col(value).desc())`: the same rows, largest value first. */
  function SortDesc<K>(t: seq<(K, real)>): (u: seq<(K, real)>)
    ensures SortedDesc(u)
    ensures multiset(u) == multiset(t)
    ensures Total(u) == Total(t)
  {
    if t == [] then []
    else
      assert t == [t[0]] + t[1..];
      Insert(t[0], SortDesc(t[1..]))
  }

  /** A whole number of hundredths. */
  predicate IsCents(r: real) {
    (r * 100.0).Floor as real == r * 100.0
  }

  /** Half-up rounding of a non-negative number to two decimals. */
  function RoundUp2(x: real): (r: real)
    requires x >= 0.0
    ensures -0.005 < r - x <= 0.005
    ensures IsCents(r)
    ensures r >= 0.0
  {
    var y := x * 100.0 + 0.5;
    var f := y.Floor;
    assert f as real <= y < f as real + 1.0;
    var r := f as real / 100.0;
    assert r * 100.0 == f as real;
    r
  }

  lemma NegatedCents(m: real)
    requires IsCents(m)
    ensures IsCents(-m)
  {
    var n := (m * 100.0).Floor;
    assert -m * 100.0 == (-n) as real;
  }

  /** `round(x, 2)` with half-up rounding: the nearest multiple of 0.01,
      ties away from zero (up for a positive `x`, down for a negative one).
      The half-open bound and whole hundredths fix the result uniquely. */
  function Round2(x: real): (r: real)
    ensures x >= 0.0 ==> -0.005 < r - x <= 0.005
    ensures x < 0.0 ==> -0.005 <= r - x < 0.005
    ensures IsCents(r)
    ensures x >= 0.0 ==> r >= 0.0
  {
    if x >= 0.0 then RoundUp2(x)
    else
      var m := RoundUp2(-x);
      NegatedCents(m);
      -m
  }

  /** `round(value / lit(total) * 100, 2)`: null when the total is null or
      zero (SQL division by zero gives null); otherwise within 0.005 of the
      exact share. */
  function Percent(v: real, total: Option<real>): (p: Option<real>)
    ensures p.Some? <==> total.Some? && total.value != 0.0
    ensures p.Some? ==> -0.005 <= p.value - v / total.value * 100.0 <= 0.005
  {
    match total
    case None => None
    case Some(s) => if s == 0.0 then None else Some(Round2(v / s * 100.0))
  }

  /** A grouped row with a percentage-of-total column appended. */
  datatype ShareRow<K> = ShareRow(key: K, revenue: real, percent: Option<real>)

  /** `withColumn(pct, round(value / lit(total) * 100, 2))`: the same rows
      in the same order, each with its share. */
  function WithShare<K>(t: seq<(K, real)>, total: Option<real>): (u: seq<ShareRow<K>>)
    ensures |u| == |t|
    ensures forall i :: 0 <= i < |t| ==> u[i].key == t[i].0 && u[i].revenue == t[i].1
    ensures forall i :: 0 <= i < |t| ==> u[i].percent == Percent(t[i].1, total)
  {
    seq(|t|, i requires 0 <= i < |t| => ShareRow(t[i].0, t[i].1, Percent(t[i].1, total)))
  }

  /** Sum of the percentage column, nulls counting as nothing. */
  function PercentTotal<K>(u: seq<ShareRow<K>>): real {
    if u == [] then 0.0
    else (if u[0].percent.Some? then u[0].percent.value else 0.0) + PercentTotal(u[1..])
  }

  /** The rounded percentages of a table add up to its exact share of
      the total, give or take 0.005 per row. */
  lemma {:induction false} PercentTotalNear<K>(t: seq<(K, real)>, total: real)
    requires total > 0.0
    ensures var exact := Total(t) / total * 100.0;
      -0.005 * |t| as real <= PercentTotal(WithShare(t, Some(total))) - exact <= 0.005 * |t| as real
  {
    if t != [] {
      var rest := t[1..];
      PercentTotalNear(rest, total);
      var u := WithShare(t, Some(total));
      assert u[1..] == WithShare(rest, Some(total));
      var first := u[0].percent.value;
      assert -0.005 <= first - t[0].1 / total * 100.0 <= 0.005;
      assert PercentTotal(u) == first + PercentTotal(u[1..]);
      ShareOfSum(t[0].1, Total(rest), total);
    }
  }

  /** Shares distribute over a sum. */
  lemma ShareOfSum(a: real, b: real, total: real)
    requires total > 0.0
    ensures (a + b) / total * 100.0 == a / total * 100.0 + b / total * 100.0
  {
  }

  /** The rounded percentages of a table whose values add up to the total
      add up to 100, give or take 0.005 per row. */
  lemma SharesAddUpTo100<K>(t: seq<(K, real)>, total: real)
    requires total > 0.0 && Total(t) == total
    ensures -0.005 * |t| as real <= PercentTotal(WithShare(t, Some(total))) - 100.0 <= 0.005 * |t| as real
  {
    assert total / total == 1.0;
    PercentTotalNear(t, total);
  }
}
