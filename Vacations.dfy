/**
 * Vacation scheduling (the current page): the acquisition and concession periods derived
 * from the hire date, the vacation pay with the one-third constitutional bonus and the sold
 * days (abono pecuniário), the end and return dates derived from the start date, and the
 * searched, paginated list. "Now" is a parameter.
 */
module Vacations {
  import opened Wrappers
  import opened Text
  import opened Calendar
  import opened Entities
  import opened Tally

  /** A vacation as the form holds it and as it is saved. */
  datatype Vacation = Vacation(
    employeeId: string,
    employeeName: string,
    acquisitionPeriodStart: string,
    acquisitionPeriodEnd: string,
    concessionPeriodEnd: string,
    daysEntitled: int,
    daysTaken: int,
    daysSold: int,
    startDate: string,
    endDate: string,
    returnDate: string,
    vacationPay: real,
    vacationBonus: real,
    soldDaysPay: real,
    totalPay: real,
    status: string,
    observations: string)

  /** The blank form; its status is "scheduled" on this page. */
  function BlankForm(status: string): Vacation {
    Vacation("", "", "", "", "", 30, 0, 0, "", "", "", 0.0, 0.0, 0.0, 0.0, status, "")
  }

  datatype VacationConfig = VacationConfig(daysPerYear: int, bonusEnabled: bool)

  const DefaultVacationConfig := VacationConfig(30, true)

  // ----- Pay -----

  datatype Pay = Pay(vacationPay: real, vacationBonus: real, soldDaysPay: real, totalPay: real)

  /**
   * Pay for the days taken at a thirtieth of the salary a day, a third more on top when the
   * bonus is enabled, and the sold days at the same daily rate (with their third too).
   * Selling days moves money from the vacation to the sold days without changing the total.
   */
  function PayFor(salary: real, daysEntitled: int, daysSold: int, bonusEnabled: bool): (p: Pay)
    ensures p.vacationPay == salary / 30.0 * ((daysEntitled - daysSold) as real)
    ensures p.soldDaysPay == salary / 30.0 * (daysSold as real) * (if bonusEnabled then 4.0 / 3.0 else 1.0)
    ensures p.totalPay == salary / 30.0 * (daysEntitled as real) * (if bonusEnabled then 4.0 / 3.0 else 1.0)
    ensures bonusEnabled ==> p.vacationBonus * 3.0 == p.vacationPay
    ensures !bonusEnabled ==> p.vacationBonus == 0.0
  {
    var dailyRate := salary / 30.0;
    var daysToTake := daysEntitled - daysSold;
    var vacationPay := dailyRate * daysToTake as real;
    var vacationBonus := if bonusEnabled then vacationPay / 3.0 else 0.0;
    var soldDaysPay := dailyRate * daysSold as real * (if bonusEnabled then 4.0 / 3.0 else 1.0);
    assert vacationPay + soldDaysPay / (if bonusEnabled then 4.0 / 3.0 else 1.0) == dailyRate * daysEntitled as real;
    Pay(vacationPay, vacationBonus, soldDaysPay, vacationPay + vacationBonus + soldDaysPay)
  }

  /** `{ ...form, ...pay }`. */
  function WithPay(f: Vacation, p: Pay): Vacation {
    f.(vacationPay := p.vacationPay, vacationBonus := p.vacationBonus,
       soldDaysPay := p.soldDaysPay, totalPay := p.totalPay)
  }

  /** `calculateVacationPay`: `null` when the form's employee is not in the list. */
  function CalculateVacationPay(f: Vacation, employees: seq<Employee>, config: VacationConfig): (r: Option<Pay>)
    ensures r.None? <==> forall e :: e in employees ==> e.id != f.employeeId
    ensures r.Some? ==> exists e :: e in employees && e.id == f.employeeId
                          && r.value == PayFor(e.salary, f.daysEntitled, f.daysSold, config.bonusEnabled)
  {
    match EmployeeById(employees, f.employeeId)
    case None => None
    case Some(e) => Some(PayFor(e.salary, f.daysEntitled, f.daysSold, config.bonusEnabled))
  }

  /**
   * `handleSave`: the saved record carries the computed pay when the employee is known, and
   * the form is then reset to the blank form.
   */
  function Save(f: Vacation, employees: seq<Employee>, config: VacationConfig): (r: (Vacation, Vacation))
    ensures r.1 == BlankForm("scheduled")
    ensures r.0.(vacationPay := f.vacationPay, vacationBonus := f.vacationBonus,
                 soldDaysPay := f.soldDaysPay, totalPay := f.totalPay) == f
    ensures (forall e :: e in employees ==> e.id != f.employeeId) ==> r.0 == f
    ensures (exists e :: e in employees && e.id == f.employeeId) ==>
              exists e :: e in employees && e.id == f.employeeId
                          && r.0 == WithPay(f, PayFor(e.salary, f.daysEntitled, f.daysSold, config.bonusEnabled))
  {
    var pay := CalculateVacationPay(f, employees, config);
    (if pay.Some? then WithPay(f, pay.value) else f, BlankForm("scheduled"))
  }

  /**
   * `getVacationPaySummary`: the stored amounts when a positive total was saved; otherwise
   * the pay computed from the employee's salary, or all zeros for an unknown employee.
   */
  function PaySummary(v: Vacation, employees: seq<Employee>, config: VacationConfig): (p: Pay)
    ensures v.totalPay > 0.0 ==> p == Pay(v.vacationPay, v.vacationBonus, v.soldDaysPay, v.totalPay)
    ensures v.totalPay <= 0.0 && (forall e :: e in employees ==> e.id != v.employeeId) ==> p == Pay(0.0, 0.0, 0.0, 0.0)
    ensures v.totalPay <= 0.0 && (exists e :: e in employees && e.id == v.employeeId) ==>
              exists e :: e in employees && e.id == v.employeeId
                          && p == PayFor(e.salary, v.daysEntitled, v.daysSold, config.bonusEnabled)
  {
    if v.totalPay > 0.0 then Pay(v.vacationPay, v.vacationBonus, v.soldDaysPay, v.totalPay)
    else
      match EmployeeById(employees, v.employeeId)
      case None => Pay(0.0, 0.0, 0.0, 0.0)
      case Some(e) => PayFor(e.salary, v.daysEntitled, v.daysSold, config.bonusEnabled)
  }

  // ----- Periods -----

  /** `moment(value).add(n, "days").format("YYYY-MM-DD")`, and "Invalid date" for text that is not a date. */
  function ShiftDate(value: string, n: int): (r: string)
    ensures ParseIso(value).Some? ==> r == FormatIso(AddDays(ParseIso(value).value, n))
    ensures ParseIso(value).None? ==> r == InvalidDateText
  {
    match ParseIso(value)
    case Some(d) => FormatIso(AddDays(d, n))
    case None => InvalidDateText
  }

  datatype Periods = Periods(acquisitionStart: string, acquisitionEnd: string, concessionEnd: string)

  /** The acquisition year from `start` and the concession year after it, each ending the day before an anniversary. */
  function PeriodsFrom(start: Date): Periods
    requires Valid(start)
  {
    Periods(FormatIso(start), FormatIso(AddDays(AddYears(start, 1), -1)), FormatIso(AddDays(AddYears(start, 2), -1)))
  }

  /** Each period ends the day before the next anniversary of its start, and the concession year follows the acquisition year. */
  lemma PeriodsEndBeforeAnniversary(start: Date)
    requires Valid(start)
    ensures NextDay(AddDays(AddYears(start, 1), -1)) == AddYears(start, 1)
    ensures NextDay(AddDays(AddYears(start, 2), -1)) == AddYears(start, 2)
    ensures NotAfter(start, AddDays(AddYears(start, 1), -1))
    ensures Before(AddDays(AddYears(start, 1), -1), AddDays(AddYears(start, 2), -1))
  {
    var y1, y2 := AddYears(start, 1), AddYears(start, 2);
    NextPrev(y1);
    NextPrev(y2);
    AddDaysStep(y1, -1);
    AddDaysStep(y2, -1);
    assert AddDays(y1, -1) == PrevDay(y1);
    assert AddDays(y2, -1) == PrevDay(y2);
  }

  /** The hire anniversary in today's year, moved back a year when it is still to come. */
  function AcquisitionStart(hire: Date, today: Date): (s: Date)
    requires Valid(hire) && Valid(today)
    ensures Valid(s) && NotAfter(s, today)
  {
    var base := WithYear(hire, today.year);
    if Before(today, base) then AddYears(base, -1) else base
  }

  /**
   * Today lies in the acquisition year that starts on the anniversary of the hire date, for
   * every hire date except 29 February (whose anniversary moves to 28 February in common years).
   */
  lemma AcquisitionYearContainsToday(hire: Date, today: Date)
    requires Valid(hire) && Valid(today) && !(hire.month == 2 && hire.day == 29)
    ensures var s := AcquisitionStart(hire, today);
            s.month == hire.month && s.day == hire.day
            && NotAfter(s, today) && Before(today, AddYears(s, 1))
  {
  }

  /**
   * `handleEmployeeChange`: a known employee fills the identity, the periods from the hire date
   * and the configured days; an unknown id leaves the form as it was.
   */
  function HandleEmployeeChange(f: Vacation, employees: seq<Employee>, config: VacationConfig,
                                employeeId: string, today: Date): (g: Vacation)
    requires Valid(today)
    ensures (forall e :: e in employees ==> e.id != employeeId) ==> g == f
    ensures (exists e :: e in employees && e.id == employeeId) ==>
              g.employeeId == employeeId && g.daysEntitled == config.daysPerYear
              && (exists e :: e in employees && e.id == employeeId && g.employeeName == e.fullName
                   && (ParseIso(e.hireDate).Some? ==>
                         Periods(g.acquisitionPeriodStart, g.acquisitionPeriodEnd, g.concessionPeriodEnd)
                         == PeriodsFrom(AcquisitionStart(ParseIso(e.hireDate).value, today)))
                   && (ParseIso(e.hireDate).None? ==>
                         g.acquisitionPeriodStart == InvalidDateText && g.acquisitionPeriodEnd == InvalidDateText
                         && g.concessionPeriodEnd == InvalidDateText))
              && g == f.(employeeId := g.employeeId, employeeName := g.employeeName,
                         acquisitionPeriodStart := g.acquisitionPeriodStart,
                         acquisitionPeriodEnd := g.acquisitionPeriodEnd,
                         concessionPeriodEnd := g.concessionPeriodEnd, daysEntitled := g.daysEntitled)
  {
    match EmployeeById(employees, employeeId)
    case None => f
    case Some(e) =>
      var p := match ParseIso(e.hireDate)
               case Some(hire) => PeriodsFrom(AcquisitionStart(hire, today))
               case None => Periods(InvalidDateText, InvalidDateText, InvalidDateText);
      f.(employeeId := employeeId, employeeName := e.fullName,
         acquisitionPeriodStart := p.acquisitionStart, acquisitionPeriodEnd := p.acquisitionEnd,
         concessionPeriodEnd := p.concessionEnd, daysEntitled := config.daysPerYear)
  }

  // ----- Dates -----

  /** With a start date and a non-zero entitlement, the days taken and the end and return dates follow from them. */
  function Reschedule(u: Vacation): (r: Vacation)
    ensures u.startDate == "" || u.daysEntitled == 0 ==> r == u
    ensures u.startDate != "" && u.daysEntitled != 0 ==>
              r.daysTaken == u.daysEntitled - u.daysSold
              && r.(daysTaken := u.daysTaken, endDate := u.endDate, returnDate := u.returnDate) == u
  {
    if u.startDate != "" && u.daysEntitled != 0 then
      var daysToTake := u.daysEntitled - u.daysSold;
      u.(endDate := ShiftDate(u.startDate, daysToTake - 1),
         returnDate := ShiftDate(u.startDate, daysToTake),
         daysTaken := daysToTake)
    else u
  }

  /** The return date is the day after the end date, and the end date is the last of the days taken. */
  lemma ReturnIsDayAfterEnd(u: Vacation, start: Date)
    requires u.startDate != "" && u.daysEntitled != 0 && ParseIso(u.startDate) == Some(start)
    ensures var r := Reschedule(u);
            Valid(start) && DatesOfStay(start, r.daysTaken, r.endDate, r.returnDate)
  {
    RescheduledFields(u);
    var r := Reschedule(u);
    ShiftedDates(u.startDate, start, r.daysTaken, r.endDate, r.returnDate);
  }

  /**
   * A stay of `t` days from `start`: it ends on the last of those days, the return is the day
   * after, and a stay of a day or more does not end before it starts.
   */
  predicate DatesOfStay(start: Date, t: int, endDate: string, returnDate: string)
    requires Valid(start)
  {
    var last := AddDays(start, t - 1);
    endDate == FormatIso(last) && returnDate == FormatIso(NextDay(last)) && (t >= 1 ==> NotAfter(start, last))
  }

  /** The rescheduled end and return are the start shifted by the days taken, less one and exactly. */
  lemma RescheduledFields(u: Vacation)
    requires u.startDate != "" && u.daysEntitled != 0
    ensures Reschedule(u).daysTaken == u.daysEntitled - u.daysSold
    ensures Reschedule(u).endDate == ShiftDate(u.startDate, u.daysEntitled - u.daysSold - 1)
    ensures Reschedule(u).returnDate == ShiftDate(u.startDate, u.daysEntitled - u.daysSold)
  {
    RescheduledEnd(u);
    RescheduledReturn(u);
  }

  lemma RescheduledEnd(u: Vacation)
    requires u.startDate != "" && u.daysEntitled != 0
    ensures Reschedule(u).endDate == ShiftDate(u.startDate, u.daysEntitled - u.daysSold - 1)
  {
  }

  lemma RescheduledReturn(u: Vacation)
    requires u.startDate != "" && u.daysEntitled != 0
    ensures Reschedule(u).returnDate == ShiftDate(u.startDate, u.daysEntitled - u.daysSold)
  {
  }

  /** Shifting a date by `t - 1` days and by `t` days gives the dates of a stay of `t` days. */
  lemma ShiftedDates(value: string, start: Date, t: int, endDate: string, returnDate: string)
    requires ParseIso(value) == Some(start)
    requires endDate == ShiftDate(value, t - 1) && returnDate == ShiftDate(value, t)
    ensures Valid(start) && DatesOfStay(start, t, endDate, returnDate)
  {
    ShiftDateStep(value, start, t - 1);
    assert t - 1 + 1 == t;
    if t >= 1 {
      AddDaysMonotone(start, t - 1);
    }
  }

  lemma ShiftDateStep(value: string, start: Date, n: int)
    requires ParseIso(value) == Some(start)
    ensures Valid(start)
    ensures ShiftDate(value, n) == FormatIso(AddDays(start, n))
    ensures ShiftDate(value, n + 1) == FormatIso(NextDay(AddDays(start, n)))
  {
    AddDaysStep(start, n);
  }

  /** The date fields of the form that `handleDatesChange` is given. */
  datatype DateField = StartDate | EndDate | ReturnDate

  /** `handleDatesChange(field, value)`: set the field; a start date also reschedules the end and return. */
  function HandleDatesChange(f: Vacation, field: DateField, value: string): (g: Vacation)
    ensures field == StartDate ==>
              g.startDate == value
              && g == f.(startDate := value, daysTaken := g.daysTaken, endDate := g.endDate, returnDate := g.returnDate)
    ensures field == StartDate && value != "" && f.daysEntitled != 0 ==> g.daysTaken == f.daysEntitled - f.daysSold
    ensures field == EndDate ==> g == f.(endDate := value)
    ensures field == ReturnDate ==> g == f.(returnDate := value)
  {
    match field
    case StartDate => Reschedule(f.(startDate := value))
    case EndDate => f.(endDate := value)
    case ReturnDate => f.(returnDate := value)
  }

  /** The days-sold field: `parseInt(text) || 0`, then the same rescheduling as a new start date. */
  function HandleDaysSoldChange(f: Vacation, text: string): (g: Vacation)
    ensures g.daysSold == IntOrDefault(ParseInt(text), 0)
    ensures g == f.(daysSold := g.daysSold, daysTaken := g.daysTaken, endDate := g.endDate, returnDate := g.returnDate)
    ensures f.startDate != "" && f.daysEntitled != 0 ==> g.daysTaken == f.daysEntitled - g.daysSold
  {
    Reschedule(f.(daysSold := IntOrDefault(ParseInt(text), 0)))
  }

  // ----- Search and pages -----

  datatype Filters = Filters(search: string, status: string, dateFrom: string, dateTo: string)

  /** `new Date(a) >= new Date(b)` for two `YYYY-MM-DD` texts; false when either is not a date. */
  predicate DateNotBefore(a: string, b: string) {
    ParseIso(a).Some? && ParseIso(b).Some? && NotAfter(ParseIso(b).value, ParseIso(a).value)
  }

  predicate Matches(v: Vacation, filters: Filters) {
    (filters.search == "" || ContainsIgnoringCase(v.employeeName, filters.search))
    && (filters.status == "all" || v.status == filters.status)
    && (filters.dateFrom == "" || (v.startDate != "" && DateNotBefore(v.startDate, filters.dateFrom)))
    && (filters.dateTo == "" || (v.startDate != "" && DateNotBefore(filters.dateTo, v.startDate)))
  }

  /** Nothing is listed before the first search; afterwards, the vacations that match, in order. */
  function FilteredVacations(vacations: seq<Vacation>, hasSearched: bool, filters: Filters): (r: seq<Vacation>)
    ensures !hasSearched ==> r == []
    ensures hasSearched ==> forall i :: 0 <= i < |vacations| && Matches(vacations[i], filters) ==> vacations[i] in r
    ensures forall i :: 0 <= i < |r| ==> r[i] in vacations && Matches(r[i], filters)
  {
    if hasSearched then Filter(vacations, v => Matches(v, filters)) else []
  }

  const PageSize: nat := 31

  /** `Math.max(1, Math.ceil(n / 31))`. */
  function TotalPages(n: nat): (t: nat)
    ensures t >= 1 && n <= t * PageSize
    ensures t == 1 || (t - 1) * PageSize < n
  {
    if n == 0 then 1 else (n + PageSize - 1) / PageSize
  }

  /** `Math.min(page, totalPages)`. */
  function CurrentPage(page: nat, totalPages: nat): nat {
    if page < totalPages then page else totalPages
  }

  /** `slice((page - 1) * 31, page * 31)`, both ends clamped to the length as `slice` does. */
  function PageRows<T>(xs: seq<T>, page: nat): (r: seq<T>)
    requires page >= 1
    ensures |r| <= PageSize
  {
    var lo := if (page - 1) * PageSize < |xs| then (page - 1) * PageSize else |xs|;
    var hi := if page * PageSize < |xs| then page * PageSize else |xs|;
    xs[lo..hi]
  }

  /** Pages 1 to k, one after the other. */
  function PagesUpTo<T>(xs: seq<T>, k: nat): seq<T> {
    if k == 0 then [] else PagesUpTo(xs, k - 1) + PageRows(xs, k)
  }

  /** Consecutive pages cover the list in order without gaps or overlaps. */
  lemma {:induction false} PagesPartition<T>(xs: seq<T>, k: nat)
    ensures PagesUpTo(xs, k) == xs[..if k * PageSize < |xs| then k * PageSize else |xs|]
  {
    if k > 0 {
      PagesPartition(xs, k - 1);
      var lo := if (k - 1) * PageSize < |xs| then (k - 1) * PageSize else |xs|;
      var hi := if k * PageSize < |xs| then k * PageSize else |xs|;
      assert xs[..lo] + xs[lo..hi] == xs[..hi];
    }
  }

  /** All the pages together are exactly the filtered list. */
  lemma AllPages<T>(xs: seq<T>)
    ensures PagesUpTo(xs, TotalPages(|xs|)) == xs
  {
    PagesPartition(xs, TotalPages(|xs|));
    assert xs[..|xs|] == xs;
  }

  /** "Anterior" and "Próxima". */
  function PrevPage(page: nat): (p: nat)
    ensures p >= 1 && (page >= 1 ==> p <= page)
  {
    if page - 1 > 1 then page - 1 else 1
  }

  function NextPage(page: nat, totalPages: nat): (p: nat)
    requires totalPages >= 1
    ensures 1 <= p <= totalPages || (page == 0 && p == 1)
    ensures page >= 1 ==> p >= 1 && p <= totalPages
  {
    if totalPages < page + 1 then totalPages else page + 1
  }

  /** Stepping through the pages keeps the current page between 1 and the number of pages. */
  lemma PageStaysInRange(page: nat, totalPages: nat)
    requires 1 <= page <= totalPages
    ensures 1 <= PrevPage(page) <= totalPages && 1 <= NextPage(page, totalPages) <= totalPages
    ensures 1 <= CurrentPage(page, totalPages) <= totalPages
  {
  }

  /** The status counters (pending, scheduled, in progress): exact matches, never more than the list. */
  function StatusCount(vacations: seq<Vacation>, status: string): (n: nat)
    ensures n <= |vacations|
  {
    Count(vacations, (v: Vacation) => v.status == status)
  }

  lemma {:induction false} StatusCountsDisjoint(vacations: seq<Vacation>, a: string, b: string, c: string)
    requires a != b && b != c && a != c
    ensures StatusCount(vacations, a) + StatusCount(vacations, b) + StatusCount(vacations, c) <= |vacations|
  {
    if vacations != [] {
      StatusCountsDisjoint(vacations[..|vacations| - 1], a, b, c);
    }
  }
}
