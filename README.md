# Sales ETL pipeline — a verified model

This project models the core of `spark_etl.py`, a batch sales ETL written as one
PySpark script. It covers the three stages between the database read and the
Parquet writes:

1. **Normalization** (lines 36-66). Ten columns are renamed. `order_date` is
   parsed with `to_date(…, "MM-dd-yy")`. `state` is trimmed and upper-cased,
   and `category` and `size` are trimmed. `amount` is cast to a number and
   `quantity` to a 32-bit integer. Then `fillna` puts defaults into null
   `promotion_ids` ("No Promotion"), `is_b2b` ("Unknown") and `size`
   ("Unknown"). No row is dropped. The result is `df_all`.
2. **Cleaning** (lines 67-72). `df_clean` keeps the rows of `df_all` with
   `amount > 0` and `quantity > 0` and with non-null `order_id`,
   `order_date` and `amount`. The comparisons use SQL's three-valued logic:
   a comparison with null is unknown, and a filter keeps only true rows.
3. **Metrics** (lines 77-169). These are:
   - the scalars `total_revenue`, `total_orders`, `cancelled_orders` (counted
     over `df_all`), `total_quantity`, `aov`, `cancellation_rate` and
     `avg_basket_size`;
   - the grouped revenue tables by month, state, promotion flag, category,
     B2B flag and size;
   - the rounded percentage-of-total columns;
   - the revenue-descending order of two of the tables.

Every stage is a pure function over a sequence of records:

- `Normalizer.NormalizeAll` is the normalization.
- `Cleaner.Clean` is the cleaning.
- `Metrics.Compute` does the metrics.
- `Metrics.Run` chains all three.

SQL nulls are `Option` values. A Spark `sum` over rows with no non-null value
is null. A Python ratio whose numerator is `None` raises `TypeError`, and one
whose denominator is 0 raises `ZeroDivisionError`. `Compute` returns these
errors as a `Failure`, in the order the script would raise them.

Modules:

- `Options`: `Option` and `Result`.
- `Text`: Spark's `trim` (U+0020 only) and `upper` (ASCII letters).
- `Casts`: the string-to-int and string-to-number casts, on decimal notation.
- `Dates`: the Gregorian calendar, `MM-dd-yy` parsing and formatting.
- `Records`: the raw row and the typed row.
- `Seqs`: the order-preserving `Filter`.
- `Normalizer`, `Cleaner` and `Metrics`: the three stages.
- `Tables`: grouped tables as association lists, with:
  - grouped sums;
  - the descending sort;
  - half-up rounding to two decimals;
  - the share column.
- `Scenario`: two worked runs on concrete rows.

When no row survives cleaning, `total_revenue` is `None` (Spark's `sum` of
nothing) and `total_orders` is 0. Line 101 then evaluates `None / 0`, and
Python raises `TypeError` there, before any division by zero is attempted.
The contract of `Metrics.Compute` states that a run fails exactly when nothing
survives cleaning, and that it then fails with `TypeError`.

## Model

| member | source | states |
|---|---|---|
| Text.Trim | spark_etl.py:56-58 | the result starts at the first non-space, every character outside it is a space, and it neither starts nor ends with a space |
| Text.UpperChar | spark_etl.py:56 | a lower-case ASCII letter becomes its own capital (same offset from 'A' as from 'a'); every other character is unchanged; a space stays a space |
| Text.Upper | spark_etl.py:56 | same length, no lower-case ASCII letter remains, and character i is `UpperChar` of input character i |
| Text.TrimIdempotent | spark_etl.py:56-58 | trimming a trimmed value changes nothing |
| Text.TrimUpperCommute | spark_etl.py:56 | `upper(trim(x)) == trim(upper(x))` for every string |
| Text.DropTrailingOfUpper | spark_etl.py:56 | dropping trailing spaces commutes with upper-casing |
| Text.LeadingSpacesOfUpper | spark_etl.py:56 | upper-casing keeps the number of leading spaces |
| Casts.ParseQuantity | spark_etl.py:60 | a non-null integer cast is within the 32-bit range and comes from a numeral with an integer part |
| Casts.ParseAmount | spark_etl.py:59 | the number cast is non-null exactly when the text is a numeral with at least one digit |
| Casts.QuantityRoundTrip | spark_etl.py:60 | the integer cast reads back the decimal text of every 32-bit integer, and gives null for every integer outside that range |
| Casts.AmountOfInteger | spark_etl.py:59 | the number cast reads back the decimal text of every integer exactly |
| Casts.QuantityTruncatesAmount | spark_etl.py:59-60 | where the integer cast succeeds, the number cast succeeds too, and the integer is that number truncated toward zero |
| Casts.FractionValue | spark_etl.py:59 | the digits after the point are worth at least 0 and less than 1 |
| Casts.TruncateTowardZero | spark_etl.py:60 | the integer part lies within 1 of the number, on the side of zero |
| Dates.ParseDate | spark_etl.py:55 | a parsed date is a real Gregorian day in 2000-2099, read from exactly eight characters |
| Dates.ParseFormat | spark_etl.py:55 | every date the pattern can denote is parsed back from its own `MM-dd-yy` text |
| Dates.FormatParse | spark_etl.py:55 | text that parses is the text of the date it parses to, so each date has one spelling |
| Dates.DaysInMonth | spark_etl.py:55 | 28 to 31 days; February has 29 exactly in leap years |
| Normalizer.NormalizeAll | spark_etl.py:36-66 | one output row per input row, in order; row i is input row i normalized, so no row is dropped |
| Normalizer.StateColumn | spark_etl.py:56 | null exactly when the input is null; otherwise the upper-cased trim of the text, which is trimmed and upper-case |
| Normalizer.TrimColumn | spark_etl.py:57-58 | null exactly when the input is null; otherwise the trim of the text |
| Normalizer.DateColumn | spark_etl.py:55 | null input gives null; otherwise `ParseDate` of the text, so a date is always within the pattern's range |
| Normalizer.QuantityColumn | spark_etl.py:60 | null input gives null; otherwise the integer cast of the text, so a value is always a 32-bit integer |
| Normalizer.Convert | spark_etl.py:36-60 | the four columns that are only renamed keep their values; the date is `DateColumn`, the quantity `QuantityColumn`, the amount `AmountColumn`, the state `StateColumn`, and category and size `TrimColumn` of the raw column each renames |
| Normalizer.FillDefaults | spark_etl.py:61-65 | afterwards `promotion_ids`, `is_b2b` and `size` are never null, and every other column is unchanged |
| Normalizer.Normalize | spark_etl.py:53-66 | a row of `df_all` holds the conversion of each raw value; `size`, `is_b2b` and `promotion_ids` are filled with their defaults where null; and the row has a trimmed upper-case state or none, a trimmed category or none, a trimmed non-null size, non-null flags, an in-range date or none, and a 32-bit quantity or none |
| Normalizer.AmountColumn | spark_etl.py:59 | null input gives null; otherwise the number cast of the text |
| Normalizer.FillNull | spark_etl.py:61-65 | the result is never null; a present value is kept, a null becomes the default |
| Normalizer.NormalizeAllShape | spark_etl.py:53-66 | every row of `df_all` has that shape |
| Normalizer.DefaultsOnlyForNulls | spark_etl.py:61-65 | "No Promotion", "Unknown" and "Unknown" replace null `promotion_ids`, `is_b2b` and `size`, and only nulls; present values pass through, `size` as trimmed |
| Normalizer.NullsPropagate | spark_etl.py:36-60 | `order_id`, `status`, `state` and `category` are null exactly when the raw column is; a null date, quantity or amount stays null |
| Normalizer.BlankSizeIsNotDefaulted | spark_etl.py:58-65 | an all-space `size` becomes "" rather than "Unknown", because `trim` runs before `fillna` |
| Cleaner.AmountGtZero | spark_etl.py:69 | `amount > 0` is unknown exactly when `amount` is null |
| Cleaner.QuantityGtZero | spark_etl.py:70 | `quantity > 0` is unknown exactly when `quantity` is null |
| Cleaner.KeepAmount | spark_etl.py:69 | the amount filter keeps a row exactly when its amount is present and positive |
| Cleaner.KeepQuantity | spark_etl.py:70 | the quantity filter keeps a row exactly when its quantity is present and positive |
| Cleaner.KeepNonNull | spark_etl.py:71 | `dropna` drops a row exactly when any one of `order_id`, `order_date` and `amount` is null |
| Cleaner.Clean | spark_etl.py:67-72 | `df_clean` is no longer than `df_all`; a row is in it exactly when it is in `df_all` with non-null `amount > 0`, non-null `quantity > 0`, `order_id` and `order_date`; and a clean row occurs in it as many times as in `df_all` |
| Cleaner.NullComparisonsDrop | spark_etl.py:69-71 | a null quantity or amount fails its filter; the three filters together hold exactly for clean rows |
| Cleaner.CleanIsOneFilter | spark_etl.py:67-72 | the three filters are one filter on the cleaning predicate, and `df_clean` is an order-preserving subsequence of `df_all` |
| Seqs.Filter | spark_etl.py:69-71 | a filter keeps exactly the rows that satisfy its condition, each as many times as it occurs, and drops every other row |
| Seqs.FilterIsSubsequence | spark_etl.py:69-71 | a filter keeps its rows in their original order |
| Seqs.FilterFilter | spark_etl.py:69-71 | two filters in a row equal one filter on the conjunction |
| Metrics.TotalRevenue | spark_etl.py:77 | null exactly when no row has an amount; otherwise the sum of the amounts |
| Metrics.TotalQuantity | spark_etl.py:127 | null exactly when no row has a quantity; otherwise the sum of the quantities |
| Metrics.DistinctBound | spark_etl.py:78 | there are no more distinct order ids than rows, and at least one when there is a row |
| Metrics.TotalOrders | spark_etl.py:78 | the distinct count is at most the row count, and positive on a non-empty table |
| Metrics.StatusIsCancelled | spark_etl.py:106 | `status == "Cancelled"` is unknown exactly when `status` is null |
| Metrics.CancelledOrders | spark_etl.py:104-110 | the count is the number of distinct order ids among the rows of `df_all` whose status is "Cancelled", cleaned-away rows included |
| Metrics.PromotionFlag | spark_etl.py:117-121 | the flag is "Promotion Used" or "No Promotion" |
| Metrics.PromotionFlagMeaning | spark_etl.py:119-120 | the flag is "Promotion Used" exactly when `promotion_ids` is present and is not "No Promotion" |
| Tables.Accumulate | spark_etl.py:89 | one step of a grouped sum keeps keys distinct, adds the key, adds the value to the total, and adds it to that key's row only |
| Metrics.GroupRevenue | spark_etl.py:85-98 | one row per distinct key value present; each row holds the sum of amounts of the rows with its key; the rows add up to the sum of all amounts |
| Metrics.MonthlyRevenue | spark_etl.py:85-90 | one row per (year, month) of a clean row, no month twice, each holding the sum of the amounts of that month's rows; the rows add up to the revenue |
| Metrics.RegionSales | spark_etl.py:94-98 | one row per state of a clean row, no state twice, each holding the sum of the amounts of that state's rows; the rows add up to the revenue |
| Metrics.PromotionImpact | spark_etl.py:115-124 | one row per promotion flag that occurs, no flag twice, only "Promotion Used" and "No Promotion", each holding the sum of the amounts of its rows; the rows add up to the revenue |
| Metrics.CategoryContribution | spark_etl.py:132-141 | the category groups, largest revenue first, a permutation of the grouping, adding up to the revenue, each row with its rounded share of the total |
| Metrics.B2bPerformance | spark_etl.py:144-152 | one row per B2B flag of a clean row, no flag twice, each holding the sum of the amounts of that flag's rows and its rounded share of the total; the rows add up to the revenue |
| Metrics.SizeRevenue | spark_etl.py:155-160 | the size groups, largest revenue first, a permutation of the grouping, adding up to the revenue |
| Metrics.SizeMarketShare | spark_etl.py:163-169 | `size_revenue` row for row and in the same order, each row with its rounded share of the total |
| Tables.Insert | spark_etl.py:140 | inserting into a descending table keeps it descending and adds exactly that row |
| Tables.SortedCons | spark_etl.py:140 | a row no smaller than the head of a descending table can go in front |
| Tables.SortDesc | spark_etl.py:140 | `orderBy(desc)` gives a descending table with the same rows (a permutation) and the same total |
| Tables.RoundUp2 | spark_etl.py:138 | half-up rounding of a non-negative number gives a whole number of hundredths, within 0.005 |
| Tables.Round2 | spark_etl.py:138 | `round(x, 2)` gives the whole number of hundredths nearest `x`, a tie going away from zero (the bound is half-open on the side that fixes the tie); non-negative for non-negative `x` |
| Tables.Percent | spark_etl.py:138 | the share is null exactly when the total is null or 0; otherwise within 0.005 of value/total×100 |
| Tables.WithShare | spark_etl.py:136-139 | `withColumn` keeps the rows and their order and adds each row's share |
| Tables.PercentTotalNear | spark_etl.py:138 | the rounded shares of a table add up to its exact share of the total, within 0.005 per row |
| Tables.SharesAddUpTo100 | spark_etl.py:138 | when a table adds up to the total, its rounded shares add up to 100 within 0.005 per row |
| Metrics.Divide | spark_etl.py:101 | `None / n` raises TypeError, `x / 0` raises ZeroDivisionError, and otherwise the quotient times `n` is `x` |
| Metrics.AverageOrderValue | spark_etl.py:101 | a null revenue raises TypeError, zero orders raise ZeroDivisionError, and otherwise `aov` times the order count is the revenue |
| Metrics.AverageBasketSize | spark_etl.py:128 | a null quantity raises TypeError, zero orders raise ZeroDivisionError, and otherwise the basket size times the order count is the quantity |
| Metrics.CancellationRate | spark_etl.py:112 | the rate exists exactly when `total_orders > 0`; zero orders raise ZeroDivisionError; otherwise the rate times `total_orders` is 100 times `cancelled_orders` |
| Metrics.CleanRevenue | spark_etl.py:77 | over clean rows, the revenue is null exactly when there are none, and positive otherwise |
| Metrics.CleanQuantity | spark_etl.py:127 | over clean rows, the quantity is null exactly when there are none, and at least the row count |
| Metrics.Compute | spark_etl.py:67-169 | a run raises exactly when no row survives cleaning, and it then raises the TypeError of line 101 |
| Metrics.Run | spark_etl.py:36-169 | the whole pipeline raises exactly when no normalized row survives cleaning, and raises TypeError on no input |
| Metrics.ReportScalars | spark_etl.py:77-128 | a run with a clean row has positive revenue and order count, at least one item per order, and reports the revenue, orders, quantity, cancelled count and the three ratios computed from them |
| Metrics.ReportTables | spark_etl.py:85-169 | a run with a clean row reports each table as the grouping of the clean rows |
| Metrics.GroupSumsAddUpToTotal | spark_etl.py:85-169 | a run with a clean row succeeds, and every grouped table adds up to `total_revenue` |
| Metrics.OrderedTables | spark_etl.py:132-169 | a run with a clean row succeeds; `category_contribution` and `size_revenue` are descending permutations of their groupings, and `size_market_share` is `size_revenue` row for row with each share |
| Metrics.PercentagesAddUpTo100 | spark_etl.py:132-169 | a run with a clean row succeeds, and its three percentage columns each add up to 100 within 0.005 per row |
| Metrics.Ratios | spark_etl.py:101-128 | a run with a clean row succeeds; `aov` is positive and is revenue divided by orders, `avg_basket_size` is at least 1, and `cancellation_rate` is non-negative and is 100 × cancelled divided by orders |
| Metrics.RatioBounds | spark_etl.py:101-128 | the same bounds for any positive revenue, positive order count and at least one item per order |
| Metrics.DivideBounds | spark_etl.py:101 | dividing by a positive count keeps the sign, and a numerator of at least the count gives at least 1 |
| Metrics.UnshareWithShare | spark_etl.py:136-139 | dropping the share column gives back the table it was added to |
| Scenario.NormalizeA | spark_etl.py:53-66 | the raw row with state " ny " and no promotions normalizes to state "NY" and "No Promotion" |
| Scenario.NormalizeB | spark_etl.py:61-65 | the raw row with no size and no B2B flag gets "Unknown" for both |
| Scenario.NormalizeRows | spark_etl.py:36-66 | three raw rows normalize to rows A, B and C |
| Scenario.CleanRows | spark_etl.py:67-72 | A and B are kept; C, with quantity -1, is dropped |
| Scenario.ScenarioScalars | spark_etl.py:77-128 | on A, B and C: 2 orders, revenue 150, `aov` 75, 1 cancelled order, rate 50, 3 items, basket 1.5 |
| Scenario.ScenarioCategories | spark_etl.py:132-141 | on A, B and C: category A (100, 66.67 percent) comes before category B (50, 33.33 percent) |
| Scenario.RunScenario | spark_etl.py:36-128 | the whole pipeline on the three raw rows succeeds and equals the metrics on A, B and C |
| Scenario.CancellationRateCanExceed100 | spark_etl.py:104-112 | one clean order plus two cancelled orders without an amount give a cancellation rate of 200 |

## Left out

- The SparkSession, the JDBC read from Postgres and its credentials (lines 12-32). These are I/O and an external engine. The model starts from the rows read, as `RawRecord` values.
- The Parquet writes, the read-back, `.show()`, the prints, `time.sleep` and `spark.stop()` (lines 173-200). These are I/O and process lifecycle.
- Distributed execution and partitioning. Every stage is one sequential function.
- Double arithmetic. Amounts, sums, ratios and shares are exact `real`s, and rounding is exact half-up on them. Binary floating-point error is not modelled.
- Casts: cast text is decimal notation after trimming spaces, with an optional sign, digits, and an optional point with fraction digits. Several things that Spark's casts accept are not modelled:
  - exponents, "NaN", "Infinity" and type suffixes;
  - whitespace other than U+0020;
  - integer-cast inputs without an integer part, such as "." or ".5".
- Text.Upper: upper-cases ASCII letters only. Spark's `upper` follows the Unicode case mappings.
- `to_date`: the model checks the strict eight-character `MM-dd-yy` shape and the Gregorian calendar. The parser's other leniencies are Spark internals and are not modelled.
- Group order. Spark gives no order for `groupBy` output. The model lists groups in first-appearance order, and the sum is proved per key and independent of that order.
- Tie order. Spark's `orderBy(desc)` leaves the order of equal revenues unspecified. The model's insertion sort is one such order, and the proofs state only sortedness and permutation.
- Metrics.CategoryContribution: it sorts before it adds the share column, where the script adds the column first. The column is per row, so the result is the same.
- Metrics.TotalQuantity: the sum is an unbounded integer, so the overflow of Spark's 64-bit `sum` is not modelled.
- Metrics.TotalOrders: its own contract gives only bounds. The count itself is the size of the set of distinct order ids. Null counts as one value, as `distinct()` counts it.
- The columns the script does not select.

