/** The cleaning step of `spark_etl.py` (lines 67-72): `df_clean` keeps
    the rows of `df_all` whose `amount > 0`, whose `quantity > 0`, and
    whose `order_id`, `order_date` and `amount` are not null. The two
    comparisons follow SQL's three-valued logic: a comparison with null is
    unknown, and a filter keeps only rows whose condition is true. */
module Cleaner {
  import opened Options
  import opened Records
  import opened Seqs

  /** A truth value of SQL's three-valued logic. */
  datatype Tri = Known(b: bool) | Unknown

  /** `x > 0` on a nullable number. */
  function AmountGtZero(x: Option<real>): (t: Tri)
    ensures t.Unknown? <==> x.None?
  {
    match x
    case None => Unknown
    case Some(v) => Known(v > 0.0)
  }

  /** `x > 0` on a nullable integer. */
  function QuantityGtZero(x: Option<int>): (t: Tri)
    ensures t.Unknown? <==> x.None?
  {
    match x
    case None => Unknown
    case Some(v) => Known(v > 0)
  }

  /** A filter keeps a row only when its condition is true; false and
      unknown both drop it. */
  predicate Holds(t: Tri) {
    t == Known(true)
  }

  /** `.filter(col("amount") > 0)`: keeps exactly the rows with a
      positive amount; a null amount is dropped. */
  function KeepAmount(r: SalesRecord): (keep: bool)
    ensures keep <==> r.amount.Some? && r.amount.value > 0.0
  {
    Holds(AmountGtZero(r.amount))
  }

  /** `.filter(col("quantity") > 0)`: keeps exactly the rows with a
      positive quantity; a null quantity is dropped. */
  function KeepQuantity(r: SalesRecord): (keep: bool)
    ensures keep <==> r.quantity.Some? && r.quantity.value > 0
  {
    Holds(QuantityGtZero(r.quantity))
  }

  /** `.dropna(subset=["order_id", "order_date", "amount"])`: a row is
      dropped when any one of the three columns is null. */
  function KeepNonNull(r: SalesRecord): (keep: bool)
    ensures !keep <==> r.orderId.None? || r.orderDate.None? || r.amount.None?
  {
    r.orderId.Some? && r.orderDate.Some? && r.amount.Some?
  }

  /** The cleaning predicate written out in two-valued logic. */
  predicate IsClean(r: SalesRecord) {
    && r.amount.Some? && r.amount.value > 0.0
    && r.quantity.Some? && r.quantity.value > 0
    && r.orderId.Some? && r.orderDate.Some?
  }

  /** `df_clean`: the three filters in the order the script applies them.
      A row is kept exactly when it is in `df_all` and is clean, and the
      kept rows keep their order. */
  function Clean(all: seq<SalesRecord>): (clean: seq<SalesRecord>)
    ensures |clean| <= |all|
    ensures forall r :: r in clean <==> r in all && IsClean(r)
    ensures forall r :: multiset(clean)[r] == if IsClean(r) then multiset(all)[r] else 0
  {
    Filter(Filter(Filter(all, KeepAmount), KeepQuantity), KeepNonNull)
  }

  /** A row with a null quantity is dropped although no filter names
      quantity's nulls: `null > 0` is unknown. The same holds for amount. */
  lemma NullComparisonsDrop(r: SalesRecord)
    ensures r.quantity.None? ==> !KeepQuantity(r)
    ensures r.amount.None? ==> !KeepAmount(r)
    ensures KeepAmount(r) && KeepQuantity(r) && KeepNonNull(r) <==> IsClean(r)
  {
  }

  /** The three filters are one filter on the cleaning predicate, so
      `df_clean` is an order-preserving subsequence of `df_all`. */
  lemma CleanIsOneFilter(all: seq<SalesRecord>)
    ensures Clean(all) == Filter(all, IsClean)
    ensures IsSubsequence(Clean(all), all)
  {
    var amountAndQuantity := r => KeepAmount(r) && KeepQuantity(r);
    FilterFilter(all, KeepAmount, KeepQuantity, amountAndQuantity);
    FilterFilter(all, amountAndQuantity, KeepNonNull, IsClean);
    FilterIsSubsequence(all, IsClean);
  }
}
