/**
 * The older vacation page. It shares the form, the pay formula and the start-date
 * rescheduling with the current page (`handleDatesChange` there is the same function as
 * `Vacations.HandleDatesChange`), but takes the periods straight from the hire date,
 * writes the pay into the form state, resets the form to "pending", and filters by name only.
 */
module VacationsLegacy {
  import opened Wrappers
  import opened Text
  import opened Calendar
  import opened Entities
  import opened Vacations

  /**
   * `handleEmployeeChange`: the acquisition year starts on the hire date itself; an unknown
   * id leaves the form as it was.
   */
  function HandleEmployeeChange(f: Vacation, employees: seq<Employee>, config: VacationConfig,
                                employeeId: string): (g: Vacation)
    ensures (forall e :: e in employees ==> e.id != employeeId) ==> g == f
    ensures (exists e :: e in employees && e.id == employeeId) ==>
              g.employeeId == employeeId && g.daysEntitled == config.daysPerYear
              && (exists e :: e in employees && e.id == employeeId && g.employeeName == e.fullName
                              && (ParseIso(e.hireDate).Some? ==>
                                    Periods(g.acquisitionPeriodStart, g.acquisitionPeriodEnd, g.concessionPeriodEnd)
                                    == PeriodsFrom(ParseIso(e.hireDate).value))
                              && (ParseIso(e.hireDate).None? ==>
                                    g.acquisitionPeriodStart == InvalidDateText && g.acquisitionPeriodEnd == InvalidDateText
                                    && g.concessionPeriodEnd == InvalidDateText))
              && g == f.(employeeId := g.employeeId, employeeName := g.employeeName,
                         acquisitionPeriodStart := g.acquisitionPeriodStart,
                         acquisitionPeriodEnd := g.acquisitionPeriodEnd,
                         concessionPeriodEnd := g.concessionPeriodEnd, daysEntitled := g.daysEntitled)
  {
    match EmployeeById(employees, employeeId)
    case None => f
    case Some(e) =>
      var p := match ParseIso(e.hireDate)
               case Some(hire) => PeriodsFrom(hire)
               case None => Periods(InvalidDateText, InvalidDateText, InvalidDateText);
      f.(employeeId := employeeId, employeeName := e.fullName,
         acquisitionPeriodStart := p.acquisitionStart, acquisitionPeriodEnd := p.acquisitionEnd,
         concessionPeriodEnd := p.concessionEnd, daysEntitled := config.daysPerYear)
  }

  /** `calculateVacationPay`: writes the pay into the form, or leaves it as it was for an unknown employee. */
  function CalculateVacationPay(f: Vacation, employees: seq<Employee>, config: VacationConfig): (g: Vacation)
    ensures (forall e :: e in employees ==> e.id != f.employeeId) ==> g == f
    ensures g == f.(vacationPay := g.vacationPay, vacationBonus := g.vacationBonus,
                    soldDaysPay := g.soldDaysPay, totalPay := g.totalPay)
    ensures (exists e :: e in employees && e.id == f.employeeId) ==>
              exists e :: e in employees && e.id == f.employeeId
                          && g == WithPay(f, PayFor(e.salary, f.daysEntitled, f.daysSold, config.bonusEnabled))
  {
    match Vacations.CalculateVacationPay(f, employees, config)
    case None => f
    case Some(p) => WithPay(f, p)
  }

  /**
   * `handleSave` as written: the pay is computed into the form state, but the record saved is
   * the `form` value read before that update, and the state is then reset to the blank form.
   */
  function SaveAsWritten(f: Vacation, employees: seq<Employee>, config: VacationConfig): (r: (Vacation, Vacation))
    ensures r.0 == f
    ensures r.1 == BlankForm("pending")
  {
    (f, BlankForm("pending"))
  }

  /** A form filled in on this page saves a zero total, although the employee's pay is 4000. */
  lemma SaveAsWrittenLosesPay()
    ensures var employees := [Employee("7", "Ana", "active", 3000.0, "2020-03-01", "1", "Centro")];
            var f := HandleEmployeeChange(BlankForm("pending"), employees, DefaultVacationConfig, "7");
            SaveAsWritten(f, employees, DefaultVacationConfig).0.totalPay == 0.0
            && CalculateVacationPay(f, employees, DefaultVacationConfig).totalPay == 4000.0
  {
    var employees := [Employee("7", "Ana", "active", 3000.0, "2020-03-01", "1", "Centro")];
    assert EmployeeById(employees, "7") == Some(employees[0]);
    var f := HandleEmployeeChange(BlankForm("pending"), employees, DefaultVacationConfig, "7");
    assert f.employeeId == "7" && f.daysEntitled == 30 && f.daysSold == 0 && f.totalPay == 0.0;
  }

  /** `handleSave` as intended: the record saved carries the pay just computed. */
  function Save(f: Vacation, employees: seq<Employee>, config: VacationConfig): (r: (Vacation, Vacation))
    ensures r.1 == BlankForm("pending")
    ensures r.0 == CalculateVacationPay(f, employees, config)
    ensures (exists e :: e in employees && e.id == f.employeeId) ==>
              exists e :: e in employees && e.id == f.employeeId
                          && r.0 == WithPay(f, PayFor(e.salary, f.daysEntitled, f.daysSold, config.bonusEnabled))
  {
    (CalculateVacationPay(f, employees, config), BlankForm("pending"))
  }

  /** The list: employee names containing the search, letters compared without regard to case. */
  function FilteredVacations(vacations: seq<Vacation>, search: string): (r: seq<Vacation>)
    ensures forall i :: 0 <= i < |r| ==> r[i] in vacations && ContainsIgnoringCase(r[i].employeeName, search)
    ensures forall i :: 0 <= i < |vacations| && ContainsIgnoringCase(vacations[i].employeeName, search) ==>
              vacations[i] in r
  {
    Tally.Filter(vacations, (v: Vacation) => ContainsIgnoringCase(v.employeeName, search))
  }
}
