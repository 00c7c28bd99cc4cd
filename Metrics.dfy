/** The metrics of `spark_etl.py` (lines 77-169): totals, grouped
    revenue tables and ratio scalars over `df_clean`, except the
    cancellation count, which is taken over `df_all`. */
module Metrics {
  import opened Options
  import opened Records
  import opened Dates
  import opened Seqs
  import opened Cleaner
  import opened Tables
  import Normalizer

  const CANCELLED: string := "Cancelled"
  const PROMOTION_USED: string := "Promotion Used"

  /** A row's contribution to `sum("amount")`: SQL's sum skips nulls. */
  function AmountOf(r: SalesRecord): real {
    if r.amount.Some? then r.amount.value else 0.0
  }

  /** Sum of the non-null amounts. */
  function SumAmount(rows: seq<SalesRecord>): real
    decreases |rows|
  {
    if rows == [] then 0.0 else SumAmount(rows[..|rows| - 1]) + AmountOf(rows[|rows| - 1])
  }

  /** Sum of the non-null quantities. */
  function SumQuantity(rows: seq<SalesRecord>): int
    decreases |rows|
  {
    if rows == [] then 0
    else
      var last := rows[|rows| - 1];
      SumQuantity(rows[..|rows| - 1]) + (if last.quantity.Some? then last.quantity.value else 0)
  }

  /** `total_revenue` (line 77): SQL's `sum` is null when no row has a
      non-null amount, and the sum of those amounts otherwise. */
  function TotalRevenue(rows: seq<SalesRecord>): (r: Option<real>)
    ensures r.Some? <==> exists i :: 0 <= i < |rows| && rows[i].amount.Some?
    ensures r.Some? ==> r.value == SumAmount(rows)
  {
    if exists i :: 0 <= i < |rows| && rows[i].amount.Some? then Some(SumAmount(rows)) else None
  }

  /** `total_quantity` (line 127), with the same null rule. */
  function TotalQuantity(rows: seq<SalesRecord>): (r: Option<int>)
    ensures r.Some? <==> exists i :: 0 <= i < |rows| && rows[i].quantity.Some?
    ensures r.Some? ==> r.value == SumQuantity(rows)
  {
    if exists i :: 0 <= i < |rows| && rows[i].quantity.Some? then Some(SumQuantity(rows)) else None
  }

  /** The distinct values of `order_id`; null is one of them if it occurs,
      as `distinct()` treats it. */
  function OrderIds(rows: seq<SalesRecord>): set<Option<string>> {
    set r | r in rows :: r.orderId
  }

  /** `total_orders` (line 78): `select("order_id").distinct().count()`. */
  function TotalOrders(rows: seq<SalesRecord>): (n: nat)
    ensures n <= |rows|
    ensures rows != [] ==> n >= 1
  {
    DistinctBound(rows);
    |OrderIds(rows)|
  }

  /** `status == "Cancelled"` in three-valued logic. */
  function StatusIsCancelled(r: SalesRecord): (t: Tri)
    ensures t.Unknown? <==> r.status.None?
  {
    match r.status
    case None => Unknown
    case Some(s) => Known(s == CANCELLED)
  }

  predicate KeepCancelled(r: SalesRecord) {
    Holds(StatusIsCancelled(r))
  }

  /** `cancelled_orders` (lines 104-110): distinct order ids among the
      cancelled rows of `df_all`, the rows the cleaner drops included. */
  function CancelledOrders(all: seq<SalesRecord>): (n: nat)
    ensures n <= |all|
    ensures n == |set r | r in all && r.status == Some(CANCELLED) :: r.orderId|
  {
    var cancelled := Filter(all, KeepCancelled);
    DistinctBound(cancelled);
    assert OrderIds(cancelled) == set r | r in all && r.status == Some(CANCELLED) :: r.orderId;
    |OrderIds(cancelled)|
  }

  /** A set of order ids drawn from some rows has no more members than
      there are rows, and at least one when there is a row. */
  lemma {:induction false} DistinctBound(rows: seq<SalesRecord>)
    ensures |OrderIds(rows)| <= |rows|
    ensures rows != [] ==> |OrderIds(rows)| >= 1
    decreases |rows|
  {
    if rows != [] {
      var init := rows[..|rows| - 1];
      DistinctBound(init);
      assert OrderIds(rows) == OrderIds(init) + {rows[|rows| - 1].orderId};
    }
  }

  // Grouping keys

  /** `year(order_date), month(order_date)`: both null for a null date. */
  function MonthKey(r: SalesRecord): (Option<int>, Option<int>) {
    match r.orderDate
    case None => (None, None)
    case Some(d) => (Some(d.year), Some(d.month))
  }

  function StateKey(r: SalesRecord): Option<string> {
    r.state
  }

  function CategoryKey(r: SalesRecord): Option<string> {
    r.category
  }

  function B2bKey(r: SalesRecord): Option<string> {
    r.isB2b
  }

  function SizeKey(r: SalesRecord): Option<string> {
    r.size
  }

  /** `when(promotion_ids != "No Promotion", "Promotion Used")
      .otherwise("No Promotion")` (lines 117-121); a null id makes the
      comparison unknown and takes the `otherwise` branch. */
  function PromotionFlag(r: SalesRecord): (flag: string)
    ensures flag == PROMOTION_USED || flag == Normalizer.NO_PROMOTION
  {
    var differs: Tri := match r.promotionIds
      case None => Unknown
      case Some(p) => Known(p != Normalizer.NO_PROMOTION);
    if Holds(differs) then PROMOTION_USED else Normalizer.NO_PROMOTION
  }

  /** The revenue of one group, computed on its own: the sum of the
      amounts of the rows whose key is `k`. */
  function KeyRevenue<K(==)>(rows: seq<SalesRecord>, key: SalesRecord -> K, k: K): real
    decreases |rows|
  {
    if rows == [] then 0.0
    else
      var last := rows[|rows| - 1];
      KeyRevenue(rows[..|rows| - 1], key, k) + (if key(last) == k then AmountOf(last) else 0.0)
  }

  /** `groupBy(key).agg(sum("amount"))`: one row per key that occurs, each
      holding that key's revenue, all together holding the total. */
  function GroupRevenue<K(==, !new)>(rows: seq<SalesRecord>, key: SalesRecord -> K): (t: seq<(K, real)>)
    ensures DistinctKeys(t)
    ensures Keys(t) == set r | r in rows :: key(r)
    ensures forall k :: ValueOf(t, k) == KeyRevenue(rows, key, k)
    ensures Total(t) == SumAmount(rows)
    decreases |rows|
  {
    if rows == [] then []
    else
      var init, last := rows[..|rows| - 1], rows[|rows| - 1];
      assert (set r | r in rows :: key(r)) == (set r | r in init :: key(r)) + {key(last)};
      Accumulate(GroupRevenue(init, key), key(last), AmountOf(last))
  }

  /** Keeps the key and revenue columns of a table with a percentage column. */
  function Unshare<K>(u: seq<ShareRow<K>>): (t: seq<(K, real)>)
    ensures |t| == |u|
    ensures forall i :: 0 <= i < |u| ==> t[i] == (u[i].key, u[i].revenue)
  {
    seq(|u|, i requires 0 <= i < |u| => (u[i].key, u[i].revenue))
  }

  // The result tables

  /** `monthly_revenue` (lines 85-90): one row per (year, month) present,
      each holding that month's revenue, the rows adding up to the revenue. */
  function MonthlyRevenue(clean: seq<SalesRecord>): (t: seq<((Option<int>, Option<int>), real)>)
    ensures DistinctKeys(t)
    ensures Keys(t) == set r | r in clean :: MonthKey(r)
    ensures forall k :: ValueOf(t, k) == KeyRevenue(clean, MonthKey, k)
    ensures Total(t) == SumAmount(clean)
  {
    GroupRevenue(clean, MonthKey)
  }

  /** `region_sales` (lines 94-98): one row per state present, each
      holding that state's revenue, the rows adding up to the revenue. */
  function RegionSales(clean: seq<SalesRecord>): (t: seq<(Option<string>, real)>)
    ensures DistinctKeys(t)
    ensures Keys(t) == set r | r in clean :: r.state
    ensures forall k :: ValueOf(t, k) == KeyRevenue(clean, StateKey, k)
    ensures Total(t) == SumAmount(clean)
  {
    GroupRevenue(clean, StateKey)
  }

  /** `promotion_impact` (lines 115-124): one row per flag that occurs,
      each holding that flag's revenue, the rows adding up to the revenue. */
  function PromotionImpact(clean: seq<SalesRecord>): (t: seq<(string, real)>)
    ensures DistinctKeys(t)
    ensures Keys(t) == set r | r in clean :: PromotionFlag(r)
    ensures forall k :: k in Keys(t) ==> k == PROMOTION_USED || k == Normalizer.NO_PROMOTION
    ensures forall k :: ValueOf(t, k) == KeyRevenue(clean, PromotionFlag, k)
    ensures Total(t) == SumAmount(clean)
  {
    GroupRevenue(clean, PromotionFlag)
  }

  /** `category_contribution` (lines 132-141): revenue by category with its
      rounded share of `total_revenue`, largest revenue first. */
  function CategoryContribution(clean: seq<SalesRecord>, total: Option<real>): (u: seq<ShareRow<Option<string>>>)
    ensures SortedDesc(Unshare(u))
    ensures multiset(Unshare(u)) == multiset(GroupRevenue(clean, CategoryKey))
    ensures Total(Unshare(u)) == SumAmount(clean)
    ensures forall i :: 0 <= i < |u| ==> u[i].percent == Percent(u[i].revenue, total)
  {
    var sorted := SortDesc(GroupRevenue(clean, CategoryKey));
    UnshareWithShare(sorted, total);
    WithShare(sorted, total)
  }

  /** `b2b_performance` (lines 144-152): revenue by B2B flag with its
      rounded share of `total_revenue`. */
  function B2bPerformance(clean: seq<SalesRecord>, total: Option<real>): (u: seq<ShareRow<Option<string>>>)
    ensures DistinctKeys(Unshare(u))
    ensures Keys(Unshare(u)) == set r | r in clean :: r.isB2b
    ensures forall k :: ValueOf(Unshare(u), k) == KeyRevenue(clean, B2bKey, k)
    ensures Total(Unshare(u)) == SumAmount(clean)
    ensures forall i :: 0 <= i < |u| ==> u[i].percent == Percent(u[i].revenue, total)
  {
    var grouped := GroupRevenue(clean, B2bKey);
    UnshareWithShare(grouped, total);
    WithShare(grouped, total)
  }

  /** `size_revenue` (lines 155-160): revenue by size, largest first. */
  function SizeRevenue(clean: seq<SalesRecord>): (t: seq<(Option<string>, real)>)
    ensures SortedDesc(t)
    ensures multiset(t) == multiset(GroupRevenue(clean, SizeKey))
    ensures Total(t) == SumAmount(clean)
  {
    SortDesc(GroupRevenue(clean, SizeKey))
  }

  /** `size_market_share` (lines 163-169): `size_revenue`, row for row and
      in the same order, with a share column. */
  function SizeMarketShare(sizeRevenue: seq<(Option<string>, real)>, total: Option<real>): (u: seq<ShareRow<Option<string>>>)
    ensures Unshare(u) == sizeRevenue
    ensures forall i :: 0 <= i < |u| ==> u[i].percent == Percent(sizeRevenue[i].1, total)
  {
    UnshareWithShare(sizeRevenue, total);
    WithShare(sizeRevenue, total)
  }

  // The ratio scalars

  /** The Python exceptions a ratio can raise. */
  datatype PyError = TypeError | ZeroDivisionError

  /** Python's `num / den` for a number that may be `None` (a null sum read
      back with `first()[0]`) and an integer count: `None / n` raises
      TypeError before the divisor is looked at, `x / 0` raises
      ZeroDivisionError. */
  function Divide(num: Option<real>, den: nat): (r: Result<real, PyError>)
    ensures num.None? ==> r == Failure(TypeError)
    ensures num.Some? && den == 0 ==> r == Failure(ZeroDivisionError)
    ensures r.Success? ==> IsQuotient(r.value, num.value, den)
  {
    match num
    case None => Failure(TypeError)
    case Some(x) => if den == 0 then Failure(ZeroDivisionError) else Success(x / den as real)
  }

  /** `q` is `num / den`, stated without division. */
  predicate IsQuotient(q: real, num: real, den: nat) {
    den > 0 && q * den as real == num
  }

  /** `aov` (line 101). */
  function AverageOrderValue(totalRevenue: Option<real>, totalOrders: nat): (r: Result<real, PyError>)
    ensures totalRevenue.None? ==> r == Failure(TypeError)
    ensures totalRevenue.Some? && totalOrders == 0 ==> r == Failure(ZeroDivisionError)
    ensures r.Success? ==> IsQuotient(r.value, totalRevenue.value, totalOrders)
  {
    Divide(totalRevenue, totalOrders)
  }

  /** `cancellation_rate` (line 112): the numerator counts `df_all`, the
      denominator `df_clean`. */
  function CancellationRate(cancelledOrders: nat, totalOrders: nat): (r: Result<real, PyError>)
    ensures r.Success? <==> totalOrders > 0
    ensures totalOrders == 0 ==> r == Failure(ZeroDivisionError)
    ensures r.Success? ==> IsQuotient(r.value, cancelledOrders as real * 100.0, totalOrders)
  {
    var q :- Divide(Some(cancelledOrders as real), totalOrders);
    Success(q * 100.0)
  }

  /** `avg_basket_size` (line 128). */
  function AverageBasketSize(totalQuantity: Option<int>, totalOrders: nat): (r: Result<real, PyError>)
    ensures totalQuantity.None? ==> r == Failure(TypeError)
    ensures totalQuantity.Some? && totalOrders == 0 ==> r == Failure(ZeroDivisionError)
    ensures r.Success? ==> IsQuotient(r.value, totalQuantity.value as real, totalOrders)
  {
    Divide(if totalQuantity.Some? then Some(totalQuantity.value as real) else None, totalOrders)
  }

  /** Everything the script computes, once every ratio has a value. */
  datatype Report = Report(
    totalRevenue: real,
    totalOrders: nat,
    monthlyRevenue: seq<((Option<int>, Option<int>), real)>,
    regionSales: seq<(Option<string>, real)>,
    averageOrderValue: real,
    cancelledOrders: nat,
    cancellationRate: real,
    promotionImpact: seq<(string, real)>,
    totalQuantity: int,
    averageBasketSize: real,
    categoryContribution: seq<ShareRow<Option<string>>>,
    b2bPerformance: seq<ShareRow<Option<string>>>,
    sizeRevenue: seq<(Option<string>, real)>,
    sizeMarketShare: seq<ShareRow<Option<string>>>)

  /** Lines 67-169 over `df_all`, in the script's order: the first ratio
      that raises ends the run with that exception. A run raises exactly
      when no row survives cleaning, and then it raises the TypeError of
      `None / 0` at line 101, before any division by zero is reached. */
  function Compute(all: seq<SalesRecord>): (r: Result<Report, PyError>)
    ensures r.Success? <==> Clean(all) != []
    ensures Clean(all) == [] ==> r == Failure(TypeError)
  {
    var clean := Clean(all);
    CleanRevenue(clean);
    CleanQuantity(clean);
    var revenue := TotalRevenue(clean);
    var orders := TotalOrders(clean);
    var aov :- AverageOrderValue(revenue, orders);
    var cancelled := CancelledOrders(all);
    match CancellationRate(cancelled, orders)
    case Failure(e) => Failure(e)
    case Success(rate) =>
      var quantity := TotalQuantity(clean);
      match AverageBasketSize(quantity, orders)
      case Failure(e) => Failure(e)
      case Success(basket) =>
        Success(Report(
          revenue.value, orders, MonthlyRevenue(clean), RegionSales(clean), aov,
          cancelled, rate, PromotionImpact(clean), quantity.value, basket,
          CategoryContribution(clean, revenue), B2bPerformance(clean, revenue),
          SizeRevenue(clean), SizeMarketShare(SizeRevenue(clean), revenue)))
  }

  /** The whole pipeline from the rows read to the report: it raises
      exactly when no row survives cleaning, in particular on no input. */
  function Run(raws: seq<RawRecord>): (r: Result<Report, PyError>)
    ensures r.Success? <==> Clean(Normalizer.NormalizeAll(raws)) != []
    ensures raws == [] ==> r == Failure(TypeError)
  {
    Compute(Normalizer.NormalizeAll(raws))
  }

  // Properties

  /** Every clean row has a positive amount: the revenue of clean rows is
      null exactly when there are none, and positive otherwise. */
  lemma {:induction false} CleanRevenue(rows: seq<SalesRecord>)
    requires forall r :: r in rows ==> IsClean(r)
    ensures TotalRevenue(rows).Some? <==> rows != []
    ensures rows != [] ==> SumAmount(rows) > 0.0
    decreases |rows|
  {
    if rows != [] {
      var init := rows[..|rows| - 1];
      assert forall r :: r in init ==> r in rows;
      CleanRevenue(init);
      assert rows[|rows| - 1] in rows;
    }
  }

  /** Every clean row has a quantity of at least one, so clean rows hold
      at least as many items as there are rows. */
  lemma {:induction false} CleanQuantity(rows: seq<SalesRecord>)
    requires forall r :: r in rows ==> IsClean(r)
    ensures TotalQuantity(rows).Some? <==> rows != []
    ensures SumQuantity(rows) >= |rows|
    decreases |rows|
  {
    if rows != [] {
      var init := rows[..|rows| - 1];
      assert forall r :: r in init ==> r in rows;
      CleanQuantity(init);
      assert rows[|rows| - 1] in rows;
    }
  }

  /** The scalars of a run that has at least one clean row. */
  lemma ReportScalars(all: seq<SalesRecord>)
    requires Clean(all) != []
    ensures var clean := Clean(all);
      var revenue, orders, quantity := SumAmount(clean), TotalOrders(clean), SumQuantity(clean);
      && revenue > 0.0 && orders > 0 && quantity >= |clean| >= orders
      && Compute(all).Success?
      && Compute(all).value.totalRevenue == revenue
      && Compute(all).value.totalOrders == orders
      && Compute(all).value.totalQuantity == quantity
      && Compute(all).value.cancelledOrders == CancelledOrders(all)
      && AverageOrderValue(Some(revenue), orders) == Success(Compute(all).value.averageOrderValue)
      && CancellationRate(CancelledOrders(all), orders) == Success(Compute(all).value.cancellationRate)
      && AverageBasketSize(Some(quantity), orders) == Success(Compute(all).value.averageBasketSize)
  {
    var clean := Clean(all);
    CleanRevenue(clean);
    CleanQuantity(clean);
  }

  /** The tables of a run that has at least one clean row. */
  lemma ReportTables(all: seq<SalesRecord>)
    requires Clean(all) != []
    ensures var clean := Clean(all);
      var revenue := Some(SumAmount(clean));
      && Compute(all).Success?
      && Compute(all).value.totalRevenue == revenue.value
      && Compute(all).value.monthlyRevenue == MonthlyRevenue(clean)
      && Compute(all).value.regionSales == RegionSales(clean)
      && Compute(all).value.promotionImpact == PromotionImpact(clean)
      && Compute(all).value.categoryContribution == CategoryContribution(clean, revenue)
      && Compute(all).value.b2bPerformance == B2bPerformance(clean, revenue)
      && Compute(all).value.sizeRevenue == SizeRevenue(clean)
      && Compute(all).value.sizeMarketShare == SizeMarketShare(SizeRevenue(clean), revenue)
  {
    var clean := Clean(all);
    CleanRevenue(clean);
    CleanQuantity(clean);
  }

  lemma UnshareWithShare<K>(t: seq<(K, real)>, total: Option<real>)
    ensures Unshare(WithShare(t, total)) == t
  {
  }

  /** The per-group sums of every grouped table add up to `total_revenue`. */
  lemma GroupSumsAddUpToTotal(all: seq<SalesRecord>)
    requires Clean(all) != []
    ensures Compute(all).Success?
    ensures var rep := Compute(all).value;
      && Total(rep.monthlyRevenue) == rep.totalRevenue
      && Total(rep.regionSales) == rep.totalRevenue
      && Total(rep.promotionImpact) == rep.totalRevenue
      && Total(Unshare(rep.categoryContribution)) == rep.totalRevenue
      && Total(Unshare(rep.b2bPerformance)) == rep.totalRevenue
      && Total(rep.sizeRevenue) == rep.totalRevenue
      && Total(Unshare(rep.sizeMarketShare)) == rep.totalRevenue
  {
    ReportTables(all);
  }

  /** `category_contribution` and `size_revenue` hold their groups largest
      revenue first, and `size_market_share` is `size_revenue`, row for row
      and in the same order, with the rounded share appended. */
  lemma OrderedTables(all: seq<SalesRecord>)
    requires Clean(all) != []
    ensures Compute(all).Success?
    ensures var rep := Compute(all).value;
      && SortedDesc(Unshare(rep.categoryContribution))
      && multiset(Unshare(rep.categoryContribution)) == multiset(GroupRevenue(Clean(all), CategoryKey))
      && SortedDesc(rep.sizeRevenue)
      && multiset(rep.sizeRevenue) == multiset(GroupRevenue(Clean(all), SizeKey))
      && Unshare(rep.sizeMarketShare) == rep.sizeRevenue
      && forall i :: 0 <= i < |rep.sizeRevenue| ==>
           rep.sizeMarketShare[i].percent == Percent(rep.sizeRevenue[i].1, Some(rep.totalRevenue))
  {
    ReportTables(all);
  }

  /** The rounded percentage columns add up to 100, give or take 0.005 per
      group. */
  lemma PercentagesAddUpTo100(all: seq<SalesRecord>)
    requires Clean(all) != []
    ensures Compute(all).Success?
    ensures var rep := Compute(all).value;
      && -0.005 * |rep.categoryContribution| as real <= PercentTotal(rep.categoryContribution) - 100.0
      && PercentTotal(rep.categoryContribution) - 100.0 <= 0.005 * |rep.categoryContribution| as real
      && -0.005 * |rep.b2bPerformance| as real <= PercentTotal(rep.b2bPerformance) - 100.0
      && PercentTotal(rep.b2bPerformance) - 100.0 <= 0.005 * |rep.b2bPerformance| as real
      && -0.005 * |rep.sizeMarketShare| as real <= PercentTotal(rep.sizeMarketShare) - 100.0
      && PercentTotal(rep.sizeMarketShare) - 100.0 <= 0.005 * |rep.sizeMarketShare| as real
  {
    ReportTables(all);
    var clean := Clean(all);
    CleanRevenue(clean);
    var total := SumAmount(clean);
    SharesAddUpTo100(SortDesc(GroupRevenue(clean, CategoryKey)), total);
    SharesAddUpTo100(GroupRevenue(clean, B2bKey), total);
    SharesAddUpTo100(SizeRevenue(clean), total);
  }

  /** The three ratios of a successful run: the average order value is
      positive and times the order count gives the revenue; the basket
      size is at least one item; the cancellation rate times the order
      count is a hundred times the cancelled count. */
  lemma Ratios(all: seq<SalesRecord>)
    requires Clean(all) != []
    ensures Compute(all).Success?
    ensures var rep := Compute(all).value;
      && rep.totalOrders > 0
      && rep.averageOrderValue > 0.0
      && IsQuotient(rep.averageOrderValue, rep.totalRevenue, rep.totalOrders)
      && rep.averageBasketSize >= 1.0
      && rep.cancellationRate >= 0.0
      && IsQuotient(rep.cancellationRate, rep.cancelledOrders as real * 100.0, rep.totalOrders)
  {
    ReportScalars(all);
    var clean := Clean(all);
    var revenue, orders, quantity, cancelled := SumAmount(clean), TotalOrders(clean), SumQuantity(clean), CancelledOrders(all);
    RatioBounds(revenue, orders, quantity, cancelled);
  }

  /** The ratios of a positive revenue, a positive order count, at least
      one item per order and any cancelled count. */
  lemma RatioBounds(revenue: real, orders: nat, quantity: int, cancelled: nat)
    requires revenue > 0.0 && orders > 0 && quantity >= orders
    ensures AverageOrderValue(Some(revenue), orders).Success?
    ensures AverageOrderValue(Some(revenue), orders).value > 0.0
    ensures IsQuotient(AverageOrderValue(Some(revenue), orders).value, revenue, orders)
    ensures AverageBasketSize(Some(quantity), orders).Success?
    ensures AverageBasketSize(Some(quantity), orders).value >= 1.0
    ensures CancellationRate(cancelled, orders).Success?
    ensures CancellationRate(cancelled, orders).value >= 0.0
    ensures IsQuotient(CancellationRate(cancelled, orders).value, cancelled as real * 100.0, orders)
  {
    DivideBounds(revenue, orders);
    DivideBounds(quantity as real, orders);
    DivideBounds(cancelled as real, orders);
  }

  /** Signs and bounds of a quotient by a positive count. */
  lemma DivideBounds(x: real, n: nat)
    requires n > 0
    ensures Divide(Some(x), n).Success?
    ensures x > 0.0 ==> Divide(Some(x), n).value > 0.0
    ensures x >= 0.0 ==> Divide(Some(x), n).value >= 0.0
    ensures x >= n as real ==> Divide(Some(x), n).value >= 1.0
  {
    var q := Divide(Some(x), n).value;
    assert q * n as real == x;
    if x > 0.0 && q <= 0.0 {
      assert false;
    }
    if x >= 0.0 && q < 0.0 {
      assert false;
    }
    if x >= n as real && q < 1.0 {
      assert false;
    }
  }

  /** The promotion flag says "Promotion Used" exactly when the filled-in
      `promotion_ids` is present and differs from "No Promotion". */
  lemma PromotionFlagMeaning(r: SalesRecord)
    ensures PromotionFlag(r) == PROMOTION_USED <==>
      r.promotionIds.Some? && r.promotionIds.value != Normalizer.NO_PROMOTION
  {
  }
}
