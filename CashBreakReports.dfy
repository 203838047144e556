/**
 * The cash-break report: the breaks between two dates (compared as `YYYY-MM-DD` text) for a
 * store, an employee and a tender, and the shortage, surplus and discount totals over them.
 */
module CashBreakReports {
  import opened Text
  import opened Entities
  import opened Tally

  /**
   * The report filters; an empty date bound is no bound, and "all" matches anything. A break
   * without a date is read as the empty date, which lies before every set bound.
   */
  datatype Filters = Filters(startDate: string, endDate: string, storeId: string, employeeId: string, paymentType: string)

  predicate InDateRange(b: CashBreak, f: Filters) {
    (f.startDate == "" || StrLessEq(f.startDate, b.date)) && (f.endDate == "" || StrLessEq(b.date, f.endDate))
  }

  predicate Kept(b: CashBreak, f: Filters) {
    && InDateRange(b, f)
    && (f.storeId == "all" || b.storeId == f.storeId)
    && (f.employeeId == "all" || b.employeeId == f.employeeId)
    && (f.paymentType == "all" || b.paymentType == f.paymentType)
  }

  /** `filteredData`: exactly the breaks that pass every filter. */
  function FilteredData(breaks: seq<CashBreak>, f: Filters): (r: seq<CashBreak>)
    ensures forall i :: 0 <= i < |r| ==> r[i] in breaks && Kept(r[i], f)
    ensures forall i :: 0 <= i < |breaks| && Kept(breaks[i], f) ==> breaks[i] in r
  {
    Filter(breaks, (b: CashBreak) => Kept(b, f))
  }

  datatype Totals = Totals(totalShortage: real, totalSurplus: real, totalDiscount: real)

  predicate IsShortage(b: CashBreak) { b.kind == "shortage" }
  function Amount(b: CashBreak): real { b.amount }
  function Discount(b: CashBreak): real { b.totalDiscount }

  function ShortageAmount(b: CashBreak): real { if b.kind == "shortage" then b.amount else 0.0 }
  function SurplusAmount(b: CashBreak): real { if b.kind == "shortage" then 0.0 else b.amount }
  function ShortageDiscount(b: CashBreak): real { if b.kind == "shortage" then b.totalDiscount else 0.0 }

  /**
   * The `totals` reduce: a shortage adds its amount to the shortage total and its discount to
   * the discount total; any other break adds its amount to the surplus total only.
   */
  method ComputeTotals(rows: seq<CashBreak>) returns (t: Totals)
    ensures t.totalShortage == Sum(rows, ShortageAmount)
    ensures t.totalSurplus == Sum(rows, SurplusAmount)
    ensures t.totalDiscount == Sum(rows, ShortageDiscount)
  {
    t := Totals(0.0, 0.0, 0.0);
    for i := 0 to |rows|
      invariant t.totalShortage == Sum(rows[..i], ShortageAmount)
      invariant t.totalSurplus == Sum(rows[..i], SurplusAmount)
      invariant t.totalDiscount == Sum(rows[..i], ShortageDiscount)
    {
      var b := rows[i];
      assert rows[..i + 1][..i] == rows[..i];
      if b.kind == "shortage" {
        t := t.(totalShortage := t.totalShortage + b.amount, totalDiscount := t.totalDiscount + b.totalDiscount);
      } else {
        t := t.(totalSurplus := t.totalSurplus + b.amount);
      }
    }
    assert rows[..|rows|] == rows;
  }

  /** Every break's amount lands in exactly one of the shortage and surplus totals. */
  lemma ShortageAndSurplusPartition(rows: seq<CashBreak>)
    ensures Sum(rows, ShortageAmount) + Sum(rows, SurplusAmount) == Sum(rows, Amount)
  {
    SumSplit(rows, Amount, ShortageAmount, SurplusAmount);
  }

  /** The discount total is the sum of the discounts of the shortages alone. */
  lemma DiscountOfShortagesOnly(rows: seq<CashBreak>)
    ensures Sum(rows, ShortageDiscount) == Sum(Filter(rows, IsShortage), Discount)
  {
    SumFilter(rows, IsShortage, Discount, ShortageDiscount);
  }
}
