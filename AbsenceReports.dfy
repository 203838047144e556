/**
 * The absence report: the month's absences (optionally of one type), how many of each type
 * and how many days, the type chart, and one row per employee name with the employee's
 * counts and days, most days first.
 */
module AbsenceReports {
  import opened Entities
  import opened Tally
  import Payroll
  import Sorting

  /** The page's two filters: a `YYYY-MM` month ("" for any) and a type ("all" for any). */
  datatype Filters = Filters(month: string, kind: string)

  /** `filteredAbsences`' test: the exact month reference, and the type unless "all". */
  predicate Kept(a: Absence, f: Filters) {
    (f.month == "" || a.monthReference == f.month) && (f.kind == "all" || a.kind == f.kind)
  }

  /** `filteredAbsences`: the absences that pass both filters, in the order listed. */
  function FilteredAbsences(absences: seq<Absence>, f: Filters): (r: seq<Absence>)
    ensures forall i :: 0 <= i < |r| ==> r[i] in absences && Kept(r[i], f)
    ensures forall i :: 0 <= i < |absences| && Kept(absences[i], f) ==> absences[i] in r
  {
    Filter(absences, a => Kept(a, f))
  }

  predicate IsAbsence(a: Absence) { a.kind == "absence" }

  predicate IsCertificate(a: Absence) { a.kind == "medical_certificate" }

  predicate IsJustified(a: Absence) { a.kind == "justified" }

  /** `totalDays`: each absence counts `days_off || 1` days. */
  function TotalDays(rows: seq<Absence>): real {
    Sum(rows, Payroll.DaysOr1)
  }

  /** The three type counts together never exceed the number of absences listed. */
  lemma {:induction false} TypeCountsBound(rows: seq<Absence>)
    ensures Count(rows, IsAbsence) + Count(rows, IsCertificate) + Count(rows, IsJustified) <= |rows|
  {
    if rows != [] {
      TypeCountsBound(rows[..|rows| - 1]);
    }
  }

  /** With a type chosen, the other two types count nothing. */
  lemma {:induction false} OnlyChosenTypeCounts(absences: seq<Absence>, month: string)
    ensures var r := FilteredAbsences(absences, Filters(month, "absence"));
            Count(r, IsCertificate) == 0 && Count(r, IsJustified) == 0
    ensures var r := FilteredAbsences(absences, Filters(month, "medical_certificate"));
            Count(r, IsAbsence) == 0 && Count(r, IsJustified) == 0
    ensures var r := FilteredAbsences(absences, Filters(month, "justified"));
            Count(r, IsAbsence) == 0 && Count(r, IsCertificate) == 0
  {
    NoneCounted(FilteredAbsences(absences, Filters(month, "absence")), IsCertificate);
    NoneCounted(FilteredAbsences(absences, Filters(month, "absence")), IsJustified);
    NoneCounted(FilteredAbsences(absences, Filters(month, "medical_certificate")), IsAbsence);
    NoneCounted(FilteredAbsences(absences, Filters(month, "medical_certificate")), IsJustified);
    NoneCounted(FilteredAbsences(absences, Filters(month, "justified")), IsAbsence);
    NoneCounted(FilteredAbsences(absences, Filters(month, "justified")), IsCertificate);
  }

  /** A property no element has counts 0. */
  lemma {:induction false} NoneCounted(xs: seq<Absence>, p: Absence -> bool)
    requires forall i :: 0 <= i < |xs| ==> !p(xs[i])
    ensures Count(xs, p) == 0
  {
    if xs != [] {
      NoneCounted(xs[..|xs| - 1], p);
    }
  }

  // ----- Type chart -----

  /** A slice of the type chart. */
  datatype Slice = Slice(name: string, value: nat)

  predicate Shown(s: Slice) { s.value > 0 }

  /** `typeData`: the three types in a fixed order, leaving out those with no absence. */
  function TypeData(absences: nat, certificates: nat, justified: nat): (r: seq<Slice>)
    ensures forall s :: s in r ==> s.value > 0
    ensures Slice("Faltas", absences) in r <==> absences > 0
    ensures Slice("Atestados", certificates) in r <==> certificates > 0
    ensures Slice("Justificadas", justified) in r <==> justified > 0
    ensures forall s :: s in r ==> s in [Slice("Faltas", absences), Slice("Atestados", certificates),
                                         Slice("Justificadas", justified)]
    ensures r == (if absences > 0 then [Slice("Faltas", absences)] else [])
                 + (if certificates > 0 then [Slice("Atestados", certificates)] else [])
                 + (if justified > 0 then [Slice("Justificadas", justified)] else [])
  {
    var a, b, c := Slice("Faltas", absences), Slice("Atestados", certificates), Slice("Justificadas", justified);
    var all := [a, b, c];
    assert all[0].value > 0 ==> all[0] in Filter(all, Shown);
    assert all[1].value > 0 ==> all[1] in Filter(all, Shown);
    assert all[2].value > 0 ==> all[2] in Filter(all, Shown);
    assert [a][..0] == [] && [a, b][..1] == [a] && all[..2] == [a, b];
    assert Filter([a], Shown) == (if Shown(a) then [a] else []);
    assert Filter([a, b], Shown) == Filter([a], Shown) + (if Shown(b) then [b] else []);
    assert Filter(all, Shown) == Filter([a, b], Shown) + (if Shown(c) then [c] else []);
    Filter(all, Shown)
  }

  // ----- Per employee -----

  /** An employee's row: absences, certificates and justified absences counted, and days summed. */
  datatype EmployeeRow = EmployeeRow(name: string, absences: real, certificates: real, justified: real, days: real)

  function Name(a: Absence): string { a.employeeName }

  function AbsenceOne(a: Absence): real { if IsAbsence(a) then 1.0 else 0.0 }

  function CertificateOne(a: Absence): real { if IsCertificate(a) then 1.0 else 0.0 }

  function JustifiedOne(a: Absence): real { if IsJustified(a) then 1.0 else 0.0 }

  /** The row a name's group of absences adds up to. */
  function RowOf(xs: seq<Absence>, k: string): EmployeeRow {
    EmployeeRow(k, GroupSum(xs, Name, AbsenceOne, k), GroupSum(xs, Name, CertificateOne, k),
                GroupSum(xs, Name, JustifiedOne, k), GroupSum(xs, Name, Payroll.DaysOr1, k))
  }

  /** What `employeeSummary` holds after the loop has seen `xs`: one row per name, names in the order first seen. */
  ghost predicate Summarises(xs: seq<Absence>, summary: map<string, EmployeeRow>, order: seq<string>) {
    && order == Keys(xs, Name)
    && (forall k :: k in summary <==> k in order)
    && (forall k :: k in summary ==> summary[k] == RowOf(xs, k))
  }

  /** One pass of the loop body: the row is created empty if new, then its counters and days grow. */
  function AddAbsence(summary: map<string, EmployeeRow>, order: seq<string>, a: Absence)
    : (r: (map<string, EmployeeRow>, seq<string>))
    ensures r.0.Keys == summary.Keys + {a.employeeName}
  {
    var k := a.employeeName;
    var row := if k in summary then summary[k] else EmployeeRow(k, 0.0, 0.0, 0.0, 0.0);
    (summary[k := row.(absences := row.absences + AbsenceOne(a), certificates := row.certificates + CertificateOne(a),
                       justified := row.justified + JustifiedOne(a), days := row.days + Payroll.DaysOr1(a))],
     if k in summary then order else order + [k])
  }

  /** The loop over a whole list, one `AddAbsence` per absence. */
  function Summarised(xs: seq<Absence>): (map<string, EmployeeRow>, seq<string>) {
    if xs == [] then (map[], [])
    else
      var r := Summarised(xs[..|xs| - 1]);
      AddAbsence(r.0, r.1, xs[|xs| - 1])
  }

  /** The loop body keeps each row equal to its name's group totals. */
  lemma RowsStep(xs: seq<Absence>, a: Absence, summary: map<string, EmployeeRow>)
    requires forall k :: k in summary ==> summary[k] == RowOf(xs, k)
    requires forall i :: 0 <= i < |xs| ==> Name(xs[i]) in summary
    ensures var after := AddAbsence(summary, [], a).0;
            forall k :: k in after ==> after[k] == RowOf(xs + [a], k)
  {
    var after := AddAbsence(summary, [], a).0;
    forall k | k in after
      ensures after[k] == RowOf(xs + [a], k)
    {
      GroupSumStep(xs, a, Name, AbsenceOne, k);
      GroupSumStep(xs, a, Name, CertificateOne, k);
      GroupSumStep(xs, a, Name, JustifiedOne, k);
      GroupSumStep(xs, a, Name, Payroll.DaysOr1, k);
      if k == a.employeeName && k !in summary {
        GroupSumAbsent(xs, Name, AbsenceOne, k);
        GroupSumAbsent(xs, Name, CertificateOne, k);
        GroupSumAbsent(xs, Name, JustifiedOne, k);
        GroupSumAbsent(xs, Name, Payroll.DaysOr1, k);
      }
    }
  }

  /** The loop body keeps `Summarises`. */
  lemma SummarisesStep(xs: seq<Absence>, a: Absence, summary: map<string, EmployeeRow>, order: seq<string>)
    requires Summarises(xs, summary, order)
    ensures Summarises(xs + [a], AddAbsence(summary, order, a).0, AddAbsence(summary, order, a).1)
  {
    KeysStep(xs, a, Name);
    assert AddAbsence(summary, order, a).0 == AddAbsence(summary, [], a).0;
    RowsStep(xs, a, summary);
  }

  /** Whatever the absences, the loop builds one row per name holding that name's totals. */
  lemma {:induction false} SummarisedSummarises(xs: seq<Absence>)
    ensures Summarises(xs, Summarised(xs).0, Summarised(xs).1)
  {
    if xs != [] {
      var init, a := xs[..|xs| - 1], xs[|xs| - 1];
      assert init + [a] == xs;
      SummarisedSummarises(init);
      SummarisesStep(init, a, Summarised(init).0, Summarised(init).1);
    }
  }

  /** `employeeSummary`: the `forEach` over the filtered absences. */
  method EmployeeSummary(rows: seq<Absence>) returns (summary: map<string, EmployeeRow>, order: seq<string>)
    ensures Summarises(rows, summary, order)
  {
    summary, order := map[], [];
    for i := 0 to |rows|
      invariant (summary, order) == Summarised(rows[..i])
    {
      var a := rows[i];
      var k := a.employeeName;
      assert rows[..i + 1][..i] == rows[..i];
      ghost var base := summary;
      if k !in summary {
        summary := summary[k := EmployeeRow(k, 0.0, 0.0, 0.0, 0.0)];
        order := order + [k];
      }
      var row := summary[k];
      if a.kind == "absence" {
        row := row.(absences := row.absences + 1.0);
      }
      if a.kind == "medical_certificate" {
        row := row.(certificates := row.certificates + 1.0);
      }
      if a.kind == "justified" {
        row := row.(justified := row.justified + 1.0);
      }
      row := row.(days := row.days + Payroll.DaysOr1(a));
      summary := summary[k := row];
      assert summary == base[k := row];
    }
    assert rows[..|rows|] == rows;
    SummarisedSummarises(rows);
  }

  function Days(r: EmployeeRow): real { r.days }

  function Absences(r: EmployeeRow): real { r.absences }

  /** `Object.values(employeeSummary)`: the rows in key order. */
  function SummaryRows(summary: map<string, EmployeeRow>, order: seq<string>): (r: seq<EmployeeRow>)
    requires forall k :: k in order ==> k in summary
    ensures |r| == |order|
    ensures forall i :: 0 <= i < |r| ==> r[i] == summary[order[i]]
  {
    seq(|order|, i requires 0 <= i < |order| => summary[order[i]])
  }

  /** The rows' days and absence counts add up to those of their names' groups. */
  lemma {:induction false} SummaryRowsSum(xs: seq<Absence>, summary: map<string, EmployeeRow>, order: seq<string>)
    requires forall k :: k in order ==> k in summary
    requires forall k :: k in summary ==> summary[k] == RowOf(xs, k)
    ensures Sum(SummaryRows(summary, order), Days) == SumOverKeys(xs, Name, Payroll.DaysOr1, order)
    ensures Sum(SummaryRows(summary, order), Absences) == SumOverKeys(xs, Name, AbsenceOne, order)
  {
    if order != [] {
      var init := order[..|order| - 1];
      SummaryRowsSum(xs, summary, init);
      assert SummaryRows(summary, order)[..|order| - 1] == SummaryRows(summary, init);
    }
  }

  /** The summary's rows add up to the report's totals: `totalDays` and `totalAbsences`. */
  lemma SummaryAddsUp(rows: seq<Absence>, summary: map<string, EmployeeRow>, order: seq<string>)
    requires Summarises(rows, summary, order)
    ensures Sum(SummaryRows(summary, order), Days) == TotalDays(rows)
    ensures Sum(SummaryRows(summary, order), Absences) == Count(rows, IsAbsence) as real
  {
    SummaryRowsSum(rows, summary, order);
    GroupsAddUp(rows, Name, Payroll.DaysOr1);
    GroupsAddUp(rows, Name, AbsenceOne);
    SumOfIndicator(rows, IsAbsence, AbsenceOne);
  }

  /** The summary's rows are exactly the names' rows. */
  lemma SummaryRowsCover(rows: seq<Absence>, summary: map<string, EmployeeRow>, order: seq<string>)
    requires Summarises(rows, summary, order)
    ensures forall row :: row in SummaryRows(summary, order) ==> row.name in Keys(rows, Name) && row == RowOf(rows, row.name)
    ensures forall k :: k in Keys(rows, Name) ==> RowOf(rows, k) in SummaryRows(summary, order)
  {
    var values := SummaryRows(summary, order);
    forall k | k in Keys(rows, Name)
      ensures RowOf(rows, k) in values
    {
      var i :| 0 <= i < |order| && order[i] == k;
      assert values[i] == RowOf(rows, k);
    }
  }

  /**
   * `employeeData`: one row per employee name, most days first; each row holds its name's
   * counts and days, the days add up to `totalDays` and the absence counts to `totalAbsences`.
   */
  method EmployeeData(rows: seq<Absence>) returns (r: seq<EmployeeRow>)
    ensures Sorting.SortedDesc(r, Days)
    ensures |r| == |Keys(rows, Name)|
    ensures forall row :: row in r ==> row.name in Keys(rows, Name) && row == RowOf(rows, row.name)
    ensures forall k :: k in Keys(rows, Name) ==> RowOf(rows, k) in r
    ensures Sum(r, Days) == TotalDays(rows)
    ensures Sum(r, Absences) == Count(rows, IsAbsence) as real
  {
    var summary, order := EmployeeSummary(rows);
    var values := SummaryRows(summary, order);
    SummaryAddsUp(rows, summary, order);
    SummaryRowsCover(rows, summary, order);
    r := Sorting.SortDesc(values, Days);
    Sorting.SortKeepsAll(values, Days);
    SumPermutation(r, values, Days);
    SumPermutation(r, values, Absences);
  }

  /** An employee's counters only grow for the three known types: together they never exceed the employee's absences. */
  lemma {:induction false} RowCountsBound(rows: seq<Absence>, k: string)
    ensures GroupSum(rows, Name, AbsenceOne, k) + GroupSum(rows, Name, CertificateOne, k) + GroupSum(rows, Name, JustifiedOne, k)
            <= Count(rows, (a: Absence) => a.employeeName == k) as real
  {
    if rows != [] {
      var init, a := rows[..|rows| - 1], rows[|rows| - 1];
      assert init + [a] == rows;
      RowCountsBound(init, k);
      GroupSumStep(init, a, Name, AbsenceOne, k);
      GroupSumStep(init, a, Name, CertificateOne, k);
      GroupSumStep(init, a, Name, JustifiedOne, k);
    }
  }
}
