/** The normalisation of `spark_etl.py` (lines 36-66): select and rename
    the ten columns, parse the date, trim and upper-case text, cast the
    numbers, then fill three columns' nulls with fixed defaults. Nothing
    is ever dropped; a value that does not convert becomes null. */
module Normalizer {
  import opened Options
  import opened Records
  import Text
  import Casts
  import Dates

  const NO_PROMOTION: string := "No Promotion"
  const UNKNOWN: string := "Unknown"

  /** `trim(col)`: null stays null. */
  function TrimColumn(x: Option<string>): (r: Option<string>)
    ensures r.Some? <==> x.Some?
    ensures r.Some? ==> Text.IsTrimmed(r.value)
    ensures x.Some? ==> r == Some(Text.Trim(x.value))
  {
    match x
    case None => None
    case Some(s) => Some(Text.Trim(s))
  }

  /** `upper(trim(col))`: null stays null. */
  function StateColumn(x: Option<string>): (r: Option<string>)
    ensures r.Some? <==> x.Some?
    ensures r.Some? ==> Text.IsTrimmed(r.value) && Text.IsUpper(r.value)
    ensures x.Some? ==> r == Some(Text.Upper(Text.Trim(x.value)))
  {
    match x
    case None => None
    case Some(s) =>
      Text.UpperKeepsShape(Text.Trim(s));
      Some(Text.Upper(Text.Trim(s)))
  }

  /** `to_date(col, "MM-dd-yy")`: null for null or for text that is not a date. */
  function DateColumn(x: Option<string>): (r: Option<Dates.Date>)
    ensures x.None? ==> r.None?
    ensures r.Some? ==> Dates.InPatternRange(r.value)
    ensures x.Some? ==> r == Dates.ParseDate(x.value)
  {
    match x
    case None => None
    case Some(s) => Dates.ParseDate(s)
  }

  /** `col.cast(IntegerType())`: null for null or for text that is not an integer. */
  function QuantityColumn(x: Option<string>): (r: Option<int>)
    ensures x.None? ==> r.None?
    ensures r.Some? ==> Casts.INT_MIN <= r.value <= Casts.INT_MAX
    ensures x.Some? ==> r == Casts.ParseQuantity(x.value)
  {
    match x
    case None => None
    case Some(s) => Casts.ParseQuantity(s)
  }

  /** `col.cast(DoubleType())`: null for null or for text that is not a number. */
  function AmountColumn(x: Option<string>): (r: Option<real>)
    ensures x.None? ==> r.None?
    ensures x.Some? ==> r == Casts.ParseAmount(x.value)
  {
    match x
    case None => None
    case Some(s) => Casts.ParseAmount(s)
  }

  /** Renaming and the `withColumn` conversions (lines 36-60): the four
      columns that are only renamed keep their values, and each converted
      column is its column conversion of the raw column it renames. */
  function Convert(raw: RawRecord): (r: SalesRecord)
    ensures r.orderId == raw.orderId && r.status == raw.status
    ensures r.isB2b == raw.b2b && r.promotionIds == raw.promotionIds
    ensures r.orderDate == DateColumn(raw.date)
    ensures r.quantity == QuantityColumn(raw.qty)
    ensures r.amount == AmountColumn(raw.amount)
    ensures r.state == StateColumn(raw.shipState)
    ensures r.category == TrimColumn(raw.category)
    ensures r.size == TrimColumn(raw.size)
  {
    SalesRecord(
      orderId := raw.orderId,
      orderDate := DateColumn(raw.date),
      status := raw.status,
      quantity := QuantityColumn(raw.qty),
      amount := AmountColumn(raw.amount),
      state := StateColumn(raw.shipState),
      category := TrimColumn(raw.category),
      size := TrimColumn(raw.size),
      isB2b := raw.b2b,
      promotionIds := raw.promotionIds)
  }

  /** `fillna` for one column: a null becomes the default; a present value,
      the empty string included, is kept. */
  function FillNull(v: Option<string>, default: string): (r: Option<string>)
    ensures r.Some?
    ensures v.Some? ==> r == v
    ensures v.None? ==> r.value == default
  {
    if v.None? then Some(default) else v
  }

  /** The `fillna` step (lines 61-65): the three filled columns are never
      null afterwards, and every other column is left as it was. */
  function FillDefaults(r: SalesRecord): (f: SalesRecord)
    ensures f.promotionIds.Some? && f.isB2b.Some? && f.size.Some?
    ensures f.(promotionIds := r.promotionIds, isB2b := r.isB2b, size := r.size) == r
  {
    r.(promotionIds := FillNull(r.promotionIds, NO_PROMOTION),
       isB2b := FillNull(r.isB2b, UNKNOWN),
       size := FillNull(r.size, UNKNOWN))
  }

  /** One row of `df_all`: the converted columns hold the conversions of
      the raw values, the three filled columns their defaults where the raw
      value is null, and the row has the shape `IsNormalized` describes. */
  function Normalize(raw: RawRecord): (r: SalesRecord)
    ensures IsNormalized(r)
    ensures r.orderId == raw.orderId && r.status == raw.status
    ensures r.orderDate == DateColumn(raw.date)
    ensures r.quantity == QuantityColumn(raw.qty)
    ensures r.amount == AmountColumn(raw.amount)
    ensures r.state == StateColumn(raw.shipState)
    ensures r.category == TrimColumn(raw.category)
    ensures r.size == FillNull(TrimColumn(raw.size), UNKNOWN)
    ensures r.isB2b == FillNull(raw.b2b, UNKNOWN)
    ensures r.promotionIds == FillNull(raw.promotionIds, NO_PROMOTION)
  {
    assert Text.IsTrimmed(UNKNOWN);
    FillDefaults(Convert(raw))
  }

  /** `df_all`: one normalised row per raw row, in order. */
  function NormalizeAll(raws: seq<RawRecord>): (rows: seq<SalesRecord>)
    ensures |rows| == |raws|
    ensures forall i :: 0 <= i < |raws| ==> rows[i] == Normalize(raws[i])
  {
    seq(|raws|, i requires 0 <= i < |raws| => Normalize(raws[i]))
  }

  /** What every normalised row looks like. */
  predicate IsNormalized(r: SalesRecord) {
    && (r.state.Some? ==> Text.IsTrimmed(r.state.value) && Text.IsUpper(r.state.value))
    && (r.category.Some? ==> Text.IsTrimmed(r.category.value))
    && r.size.Some? && Text.IsTrimmed(r.size.value)
    && r.isB2b.Some? && r.promotionIds.Some?
    && (r.orderDate.Some? ==> Dates.InPatternRange(r.orderDate.value))
    && (r.quantity.Some? ==> Casts.INT_MIN <= r.quantity.value <= Casts.INT_MAX)
  }

  /** Every row of `df_all` has a trimmed upper-case state (or none), a
      trimmed category (or none), a trimmed size and non-null flags. */
  lemma NormalizeAllShape(raws: seq<RawRecord>)
    ensures forall r :: r in NormalizeAll(raws) ==> IsNormalized(r)
  {
  }

  /** The three defaults replace nulls and only nulls: a present value is
      kept as it was (for `size`, as trimmed), even when it is empty. */
  lemma DefaultsOnlyForNulls(raw: RawRecord)
    ensures raw.promotionIds.None? ==> Normalize(raw).promotionIds == Some(NO_PROMOTION)
    ensures raw.promotionIds.Some? ==> Normalize(raw).promotionIds == raw.promotionIds
    ensures raw.b2b.None? ==> Normalize(raw).isB2b == Some(UNKNOWN)
    ensures raw.b2b.Some? ==> Normalize(raw).isB2b == raw.b2b
    ensures raw.size.None? ==> Normalize(raw).size == Some(UNKNOWN)
    ensures raw.size.Some? ==> Normalize(raw).size == Some(Text.Trim(raw.size.value))
  {
  }

  /** Columns without a default keep their nulls: a null in the source is
      a null after normalisation. */
  lemma NullsPropagate(raw: RawRecord)
    ensures raw.orderId.None? <==> Normalize(raw).orderId.None?
    ensures raw.status.None? <==> Normalize(raw).status.None?
    ensures raw.date.None? ==> Normalize(raw).orderDate.None?
    ensures raw.qty.None? ==> Normalize(raw).quantity.None?
    ensures raw.amount.None? ==> Normalize(raw).amount.None?
    ensures raw.shipState.None? <==> Normalize(raw).state.None?
    ensures raw.category.None? <==> Normalize(raw).category.None?
  {
  }

  /** A text value that is all spaces becomes the empty string, not the
      default: `trim` runs before `fillna` and yields "" rather than null. */
  lemma BlankSizeIsNotDefaulted(raw: RawRecord)
    requires raw.size.Some? && forall i :: 0 <= i < |raw.size.value| ==> raw.size.value[i] == Text.SPACE
    ensures Normalize(raw).size == Some("")
  {
  }
}
