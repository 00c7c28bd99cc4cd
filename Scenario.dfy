/** A worked run of the metrics over three normalized rows: A and B pass
    the cleaner, C has a negative quantity and is dropped. */
module Scenario {
  import opened Options
  import opened Records
  import opened Dates
  import opened Seqs
  import opened Cleaner
  import opened Tables
  import opened Metrics
  import Normalizer
  import Text
  import Casts

  function RowA(): SalesRecord {
    SalesRecord(Some("1"), Some(Date(2024, 1, 5)), Some("Delivered"), Some(2), Some(100.0),
                Some("NY"), Some("A"), Some("M"), Some("No"), Some(Normalizer.NO_PROMOTION))
  }

  function RowB(): SalesRecord {
    SalesRecord(Some("2"), Some(Date(2024, 1, 6)), Some(CANCELLED), Some(1), Some(50.0),
                Some("NY"), Some("B"), Some(Normalizer.UNKNOWN), Some(Normalizer.UNKNOWN), Some("PROMO1"))
  }

  function RowC(): SalesRecord {
    SalesRecord(Some("3"), Some(Date(2024, 2, 1)), Some("Delivered"), Some(-1), Some(30.0),
                Some("NY"), Some("A"), Some("L"), Some("No"), Some(Normalizer.NO_PROMOTION))
  }

  function Rows(): seq<SalesRecord> {
    [RowA(), RowB(), RowC()]
  }

  /** The cleaner keeps A and B, in that order. */
  lemma CleanRows()
    ensures Clean(Rows()) == [RowA(), RowB()]
  {
    var a, b, c := RowA(), RowB(), RowC();
    assert IsClean(a) && IsClean(b) && !IsClean(c);
    assert [a][..0] == [];
    assert Filter([a], IsClean) == [a];
    assert [a, b][..1] == [a];
    assert Filter([a, b], IsClean) == [a, b];
    assert Rows()[..2] == [a, b];
    assert Filter(Rows(), IsClean) == [a, b];
    CleanIsOneFilter(Rows());
  }

  /** Revenue 150 over two orders holding three items; one cancelled order. */
  lemma Counts()
    ensures SumAmount([RowA(), RowB()]) == 150.0
    ensures SumQuantity([RowA(), RowB()]) == 3
    ensures TotalOrders([RowA(), RowB()]) == 2
    ensures CancelledOrders(Rows()) == 1
  {
    var a, b := RowA(), RowB();
    assert [a, b][..1] == [a];
    assert OrderIds([a, b]) == {Some("1"), Some("2")};
    assert (set r | r in Rows() && r.status == Some(CANCELLED) :: r.orderId) == {Some("2")};
  }

  /** Category A holds 100, category B holds 50, A first. */
  lemma CategoryTable()
    ensures SortDesc(GroupRevenue([RowA(), RowB()], CategoryKey)) == [(Some("A"), 100.0), (Some("B"), 50.0)]
  {
    var a, b := RowA(), RowB();
    assert [a, b][..1] == [a];
    assert GroupRevenue([a], CategoryKey) == [(Some("A"), 100.0)];
    var t := GroupRevenue([a, b], CategoryKey);
    assert t == [(Some("A"), 100.0), (Some("B"), 50.0)];
    assert SortDesc(t[1..]) == [(Some("B"), 50.0)];
  }

  /** The shares of 100 and 50 in 150, rounded half up. */
  lemma CategoryShares()
    ensures Percent(100.0, Some(150.0)) == Some(66.67)
    ensures Percent(50.0, Some(150.0)) == Some(33.33)
  {
    assert (100.0 / 150.0 * 100.0 * 100.0 + 0.5).Floor == 6667;
    assert (50.0 / 150.0 * 100.0 * 100.0 + 0.5).Floor == 3333;
  }

  /** The category table of the clean rows with its share column. */
  lemma CategoryContributionOfClean()
    ensures CategoryContribution([RowA(), RowB()], Some(150.0))
      == [ShareRow(Some("A"), 100.0, Some(66.67)), ShareRow(Some("B"), 50.0, Some(33.33))]
  {
    CategoryTable();
    CategoryShares();
  }

  /** The scalars of the run: two orders, revenue 150, average order
      value 75, one cancelled order and a rate of 50, three items and 1.5
      per basket. */
  lemma ScenarioScalars()
    ensures Compute(Rows()).Success?
    ensures var rep := Compute(Rows()).value;
      && rep.totalOrders == 2
      && rep.totalRevenue == 150.0
      && rep.averageOrderValue == 75.0
      && rep.cancelledOrders == 1
      && rep.cancellationRate == 50.0
      && rep.totalQuantity == 3
      && rep.averageBasketSize == 1.5
  {
    CleanRows();
    Counts();
    ReportScalars(Rows());
    assert AverageOrderValue(Some(150.0), 2) == Success(75.0);
    assert CancellationRate(1, 2) == Success(50.0);
    assert AverageBasketSize(Some(3), 2) == Success(1.5);
  }

  /** The category table of the run: A's 100 (66.67 percent) ahead of B's
      50 (33.33 percent). */
  lemma ScenarioCategories()
    ensures Compute(Rows()).Success?
    ensures Compute(Rows()).value.categoryContribution
      == [ShareRow(Some("A"), 100.0, Some(66.67)), ShareRow(Some("B"), 50.0, Some(33.33))]
  {
    CleanRows();
    Counts();
    CategoryContributionOfClean();
    ReportTables(Rows());
  }

  // The same rows as read, before normalization.

  function RawA(): RawRecord {
    RawRecord(Some("1"), Some("01-05-24"), Some("Delivered"), Some("2"), Some("100"),
              Some(" ny "), Some("A"), Some("M"), Some("No"), None)
  }

  function RawB(): RawRecord {
    RawRecord(Some("2"), Some("01-06-24"), Some(CANCELLED), Some("1"), Some("50"),
              Some("ny"), Some("B"), None, None, Some("PROMO1"))
  }

  function RawC(): RawRecord {
    RawRecord(Some("3"), Some("02-01-24"), Some("Delivered"), Some("-1"), Some("30"),
              Some("ny"), Some("A"), Some("L"), Some("No"), None)
  }

  /** `" ny "` and `"ny"` both become `"NY"` in the state column. */
  lemma StateOfNy()
    ensures Normalizer.StateColumn(Some(" ny ")) == Some("NY")
    ensures Normalizer.StateColumn(Some("ny")) == Some("NY")
  {
    assert Text.LeadingSpaces(" ny ") == 1;
    assert " ny "[1..] == "ny " && "ny "[..2] == "ny";
    assert Text.Trim(" ny ") == "ny";
    Text.TrimOfTrimmed("ny");
    assert Text.Upper("ny") == "NY";
  }

  /** The quantities, amounts and dates of the three raw rows. */
  lemma Casts3()
    ensures Normalizer.QuantityColumn(Some("2")) == Some(2)
    ensures Normalizer.QuantityColumn(Some("1")) == Some(1)
    ensures Normalizer.QuantityColumn(Some("-1")) == Some(-1)
    ensures Normalizer.AmountColumn(Some("100")) == Some(100.0)
    ensures Normalizer.AmountColumn(Some("50")) == Some(50.0)
    ensures Normalizer.AmountColumn(Some("30")) == Some(30.0)
  {
    assert Casts.IntToString(2) == "2" && Casts.IntToString(1) == "1" && Casts.IntToString(-1) == "-1";
    assert Casts.IntToString(100) == "100" && Casts.IntToString(50) == "50" && Casts.IntToString(30) == "30";
    Casts.QuantityRoundTrip(2);
    Casts.QuantityRoundTrip(1);
    Casts.QuantityRoundTrip(-1);
    Casts.AmountOfInteger(100);
    Casts.AmountOfInteger(50);
    Casts.AmountOfInteger(30);
  }

  lemma Dates3()
    ensures Normalizer.DateColumn(Some("01-05-24")) == Some(Date(2024, 1, 5))
    ensures Normalizer.DateColumn(Some("01-06-24")) == Some(Date(2024, 1, 6))
    ensures Normalizer.DateColumn(Some("02-01-24")) == Some(Date(2024, 2, 1))
  {
    assert FormatDate(Date(2024, 1, 5)) == "01-05-24";
    assert FormatDate(Date(2024, 1, 6)) == "01-06-24";
    assert FormatDate(Date(2024, 2, 1)) == "02-01-24";
    ParseFormat(Date(2024, 1, 5));
    ParseFormat(Date(2024, 1, 6));
    ParseFormat(Date(2024, 2, 1));
  }

  /** Raw row A normalizes to A: `" ny "` becomes `"NY"` and the missing
      promotions become "No Promotion". */
  lemma NormalizeA()
    ensures Normalizer.Normalize(RawA()) == RowA()
  {
    StateOfNy();
    Casts3();
    Dates3();
    Text.TrimOfTrimmed("A");
    Text.TrimOfTrimmed("M");
  }

  /** Raw row B normalizes to B: the missing size and B2B flag become
      "Unknown". */
  lemma NormalizeB()
    ensures Normalizer.Normalize(RawB()) == RowB()
  {
    StateOfNy();
    Casts3();
    Dates3();
    Text.TrimOfTrimmed("B");
  }

  /** Raw row C normalizes to C, negative quantity included. */
  lemma NormalizeC()
    ensures Normalizer.Normalize(RawC()) == RowC()
  {
    StateOfNy();
    Casts3();
    Dates3();
    Text.TrimOfTrimmed("A");
    Text.TrimOfTrimmed("L");
  }

  /** Normalization turns the raw rows into A, B and C, in order. */
  lemma NormalizeRows()
    ensures Normalizer.NormalizeAll([RawA(), RawB(), RawC()]) == Rows()
  {
    NormalizeThree(RawA(), RawB(), RawC());
    NormalizeA();
    NormalizeB();
    NormalizeC();
  }

  /** `NormalizeAll` on three rows, row by row. */
  lemma NormalizeThree(x: RawRecord, y: RawRecord, z: RawRecord)
    ensures Normalizer.NormalizeAll([x, y, z]) == [Normalizer.Normalize(x), Normalizer.Normalize(y), Normalizer.Normalize(z)]
  {
    var raws := [x, y, z];
    var n := Normalizer.NormalizeAll(raws);
    assert raws[0] == x && raws[1] == y && raws[2] == z;
    ThreeElements(n, Normalizer.Normalize(x), Normalizer.Normalize(y), Normalizer.Normalize(z));
  }

  /** A sequence of three elements is the display of those elements. */
  lemma ThreeElements<T>(n: seq<T>, a: T, b: T, c: T)
    requires |n| == 3 && n[0] == a && n[1] == b && n[2] == c
    ensures n == [a, b, c]
  {
  }

  /** The whole pipeline from the raw rows gives the figures above. */
  lemma RunScenario()
    ensures Run([RawA(), RawB(), RawC()]) == Compute(Rows())
    ensures Run([RawA(), RawB(), RawC()]).Success?
  {
    NormalizeRows();
    ScenarioScalars();
  }

  // Cancellations are counted before cleaning.

  /** A cancelled order with no amount. */
  function CancelledRow(id: string): SalesRecord {
    SalesRecord(Some(id), Some(Date(2024, 1, 5)), Some(CANCELLED), Some(1), None,
                Some("NY"), Some("A"), Some("M"), Some("No"), Some(Normalizer.NO_PROMOTION))
  }

  /** One clean order and two cancelled orders with no amount. */
  function CancellationRows(): seq<SalesRecord> {
    [RowA(), CancelledRow("2"), CancelledRow("3")]
  }

  /** The cleaner keeps only the first row. */
  lemma CancellationRowsClean()
    ensures Clean(CancellationRows()) == [RowA()]
  {
    var all := CancellationRows();
    var a := RowA();
    assert IsClean(a) && !IsClean(all[1]) && !IsClean(all[2]);
    assert [a][..0] == [];
    assert Filter([a], IsClean) == [a];
    assert all[..1] == [a];
    assert Filter(all[..2], IsClean) == [a];
    assert Filter(all, IsClean) == [a];
    CleanIsOneFilter(all);
  }

  /** One clean order. */
  lemma CancellationRowsOrders()
    ensures TotalOrders(Clean(CancellationRows())) == 1
  {
    CancellationRowsClean();
    OneOrder();
  }

  lemma OneOrder()
    ensures TotalOrders([RowA()]) == 1
  {
    assert OrderIds([RowA()]) == {Some("1")};
  }

  /** Two cancelled orders. */
  lemma CancellationRowsCancelled()
    ensures CancelledOrders(CancellationRows()) == 2
  {
    var all := CancellationRows();
    var a, c2, c3 := RowA(), CancelledRow("2"), CancelledRow("3");
    assert forall r :: r in all <==> r == a || r == c2 || r == c3;
    assert a.status != Some(CANCELLED);
    var ids := set r | r in all && r.status == Some(CANCELLED) :: r.orderId;
    assert c2.orderId in ids && c3.orderId in ids;
    assert ids == {Some("2"), Some("3")};
  }

  /** The universes differ: rows the cleaner drops still count as
      cancellations, so the rate can pass 100 percent. Here it is 200. */
  lemma CancellationRateCanExceed100()
    ensures Compute(CancellationRows()).Success?
    ensures Compute(CancellationRows()).value.cancellationRate == 200.0
  {
    CancellationRowsOrders();
    CancellationRowsCancelled();
    assert CancellationRate(2, 1) == Success(200.0);
    ReportScalars(CancellationRows());
  }
}
