/**
 * Monthly payroll generation: the progressive INSS and IRRF tables the page labels "2024",
 * the per-employee tally of absences and overtime, and the payslip built from them.
 * Money is an exact `real`; the page's floating-point rounding is not modelled.
 */
module Payroll {
  import opened Entities
  import opened Tally

  // ----- Tax tables -----

  /** The INSS contribution for a gross salary: 7.5%, 9%, 12% and 14% brackets, then a fixed ceiling amount. */
  function Inss(salary: real): (r: real)
    ensures salary >= 0.0 ==> 0.0 <= r <= 0.14 * salary
    ensures salary >= 0.0 ==> 0.075 * salary <= r || salary > 7786.02
    ensures r <= 908.8618
  {
    if salary <= 1412.00 then salary * 0.075
    else if salary <= 2666.68 then 1412.0 * 0.075 + (salary - 1412.0) * 0.09
    else if salary <= 4000.03 then 1412.0 * 0.075 + (2666.68 - 1412.0) * 0.09 + (salary - 2666.68) * 0.12
    else if salary <= 7786.02 then
      1412.0 * 0.075 + (2666.68 - 1412.0) * 0.09 + (4000.03 - 2666.68) * 0.12 + (salary - 4000.03) * 0.14
    else 908.85
  }

  /**
   * Each bracket charges its own rate on the part of the salary above the previous ceiling,
   * starting from exactly what the previous bracket charged at that ceiling.
   */
  lemma InssBrackets(salary: real)
    ensures 1412.0 < salary <= 2666.68 ==> Inss(salary) == Inss(1412.0) + 0.09 * (salary - 1412.0)
    ensures 2666.68 < salary <= 4000.03 ==> Inss(salary) == Inss(2666.68) + 0.12 * (salary - 2666.68)
    ensures 4000.03 < salary <= 7786.02 ==> Inss(salary) == Inss(4000.03) + 0.14 * (salary - 4000.03)
  {
  }

  /** Up to the last ceiling a higher salary never pays less INSS. */
  lemma InssMonotoneBelowCeiling(a: real, b: real)
    requires a <= b <= 7786.02
    ensures Inss(a) <= Inss(b)
  {
  }

  /** Above the ceiling the fixed 908.85 is slightly less than the last bracket charges at the ceiling. */
  lemma InssCeilingDrop()
    ensures Inss(7786.02) == 908.8618
    ensures Inss(7786.03) == 908.85
  {
  }

  /** The IRRF withheld on the salary minus INSS: exempt up to 2259.20, then 7.5%, 15%, 22.5% and 27.5% less the deductions. */
  function Irrf(salary: real, inss: real): (r: real)
    ensures r >= 0.0
    ensures r == 0.0 <==> salary - inss <= 2259.20
  {
    var base := salary - inss;
    if base <= 2259.20 then 0.0
    else if base <= 2826.65 then base * 0.075 - 169.44
    else if base <= 3751.05 then base * 0.15 - 381.44
    else if base <= 4664.68 then base * 0.225 - 662.77
    else base * 0.275 - 896.00
  }

  // ----- Inputs -----

  /** The payroll settings; the page falls back to `DefaultConfig` when none is stored. */
  datatype Config = Config(
    workHoursPerDay: real,
    workDaysPerMonth: real,
    overtime50Percent: real,
    overtime100Percent: real,
    absenceDiscountEnabled: bool,
    medicalCertificateDiscount: bool,
    inssEnabled: bool,
    irrfEnabled: bool,
    vtDiscountPercent: real,
    vtEnabled: bool)

  const DefaultConfig := Config(8.0, 22.0, 50.0, 100.0, true, false, true, true, 6.0, true)

  function ConfigOrDefault(configs: seq<Config>): Config {
    if configs == [] then DefaultConfig else configs[0]
  }

  /** Rates are divided by the days of the month and the hours of the day. */
  predicate Usable(config: Config) {
    config.workDaysPerMonth != 0.0 && config.workHoursPerDay != 0.0
  }

  datatype Payslip = Payslip(
    employeeId: string,
    employeeName: string,
    monthReference: string,
    baseSalary: real,
    workDays: real,
    absencesDays: real,
    absencesDiscount: real,
    medicalCertificatesDays: real,
    overtime50Hours: real,
    overtime50Value: real,
    overtime100Hours: real,
    overtime100Value: real,
    totalOvertime: real,
    inssValue: real,
    irrfValue: real,
    vtDiscount: real,
    grossSalary: real,
    totalDiscounts: real,
    netSalary: real,
    status: string)

  // ----- Per-employee tallies -----

  /** `days_off || 1`. */
  function DaysOr1(a: Absence): real {
    if a.daysOff == 0 then 1.0 else a.daysOff as real
  }

  /** What one absence adds to the discounted absence days. */
  function AbsenceDayCount(a: Absence): real {
    if a.kind == "absence" && a.discountSalary then DaysOr1(a) else 0.0
  }

  /** What one absence adds to the medical-certificate days. */
  function CertificateDayCount(a: Absence): real {
    if a.kind == "medical_certificate" then DaysOr1(a) else 0.0
  }

  /** What one absence adds to neither bucket. */
  function IgnoredDayCount(a: Absence): real {
    if (a.kind == "absence" && a.discountSalary) || a.kind == "medical_certificate" then 0.0 else DaysOr1(a)
  }

  function Hours(o: Overtime): real {
    o.hours
  }

  function Hours50(o: Overtime): real {
    if o.kind == "50" then o.hours else 0.0
  }

  function Hours100(o: Overtime): real {
    if o.kind == "50" then 0.0 else o.hours
  }

  /** The `forEach` over an employee's absences of the month. */
  method TallyAbsences(absences: seq<Absence>) returns (absencesDays: real, certificateDays: real)
    ensures absencesDays == Sum(absences, AbsenceDayCount)
    ensures certificateDays == Sum(absences, CertificateDayCount)
  {
    absencesDays, certificateDays := 0.0, 0.0;
    for i := 0 to |absences|
      invariant absencesDays == Sum(absences[..i], AbsenceDayCount)
      invariant certificateDays == Sum(absences[..i], CertificateDayCount)
    {
      var a := absences[i];
      assert absences[..i + 1][..i] == absences[..i];
      if a.kind == "absence" && a.discountSalary {
        absencesDays := absencesDays + DaysOr1(a);
      } else if a.kind == "medical_certificate" {
        certificateDays := certificateDays + DaysOr1(a);
      }
    }
    assert absences[..|absences|] == absences;
  }

  /** The `forEach` over an employee's approved overtime of the month. */
  method TallyOvertime(overtimes: seq<Overtime>) returns (hours50: real, hours100: real)
    ensures hours50 == Sum(overtimes, Hours50)
    ensures hours100 == Sum(overtimes, Hours100)
  {
    hours50, hours100 := 0.0, 0.0;
    for i := 0 to |overtimes|
      invariant hours50 == Sum(overtimes[..i], Hours50)
      invariant hours100 == Sum(overtimes[..i], Hours100)
    {
      var o := overtimes[i];
      assert overtimes[..i + 1][..i] == overtimes[..i];
      if o.kind == "50" {
        hours50 := hours50 + o.hours;
      } else {
        hours100 := hours100 + o.hours;
      }
    }
    assert overtimes[..|overtimes|] == overtimes;
  }

  /** Every absence's days land in exactly one of: discounted absence, certificate, ignored. */
  lemma AbsenceBucketsPartition(absences: seq<Absence>)
    ensures Sum(absences, AbsenceDayCount) + Sum(absences, CertificateDayCount) + Sum(absences, IgnoredDayCount)
            == Sum(absences, DaysOr1)
  {
    var counted := (a: Absence) => AbsenceDayCount(a) + CertificateDayCount(a);
    SumSplit(absences, DaysOr1, counted, IgnoredDayCount);
    SumSplit(absences, counted, AbsenceDayCount, CertificateDayCount);
  }

  /** Every overtime hour lands in exactly one of the 50% and 100% buckets. */
  lemma OvertimeBucketsPartition(overtimes: seq<Overtime>)
    ensures Sum(overtimes, Hours50) + Sum(overtimes, Hours100) == Sum(overtimes, Hours)
  {
    SumSplit(overtimes, Hours, Hours50, Hours100);
  }

  // ----- The payslip -----

  /** The payslip amounts from an employee's tallies. */
  function MakePayslip(config: Config, e: Employee, month: string,
                       absencesDays: real, certificateDays: real, hours50: real, hours100: real): (p: Payslip)
    requires Usable(config)
    ensures p.employeeId == e.id && p.monthReference == month && p.status == "draft"
    ensures p.baseSalary == e.salary
    ensures p.netSalary == p.baseSalary + p.totalOvertime - p.totalDiscounts
    ensures p.workDays == config.workDaysPerMonth - p.absencesDays
    ensures p.grossSalary == p.baseSalary + p.totalOvertime - p.absencesDiscount
    ensures p.totalOvertime == p.overtime50Value + p.overtime100Value
    ensures p.irrfValue >= 0.0
    ensures !config.inssEnabled ==> p.inssValue == 0.0
    ensures !config.irrfEnabled ==> p.irrfValue == 0.0
    ensures !config.vtEnabled ==> p.vtDiscount == 0.0
    ensures !config.absenceDiscountEnabled && !config.medicalCertificateDiscount ==> p.absencesDiscount == 0.0
    ensures p.employeeName == e.fullName
    ensures p.absencesDays == absencesDays && p.medicalCertificatesDays == certificateDays
    ensures p.overtime50Hours == hours50 && p.overtime100Hours == hours100
    ensures config.inssEnabled ==> p.inssValue == Inss(p.grossSalary)
    ensures config.irrfEnabled ==> p.irrfValue == Irrf(p.grossSalary, p.inssValue)
    ensures config.vtEnabled ==> p.vtDiscount == e.salary * (config.vtDiscountPercent / 100.0)
    ensures p.totalDiscounts == p.absencesDiscount + p.inssValue + p.irrfValue + p.vtDiscount
  {
    var dailyRate := DailyRate(config, e.salary);
    var absencesDiscount :=
      (if config.absenceDiscountEnabled then absencesDays * dailyRate else 0.0)
      + (if config.medicalCertificateDiscount then certificateDays * dailyRate else 0.0);
    var hr := HourlyRate(config, e.salary);
    var overtime50Value := OvertimeValue(hours50, hr, config.overtime50Percent);
    var overtime100Value := OvertimeValue(hours100, hr, config.overtime100Percent);
    var totalOvertime := overtime50Value + overtime100Value;
    var gross := e.salary + totalOvertime - absencesDiscount;
    var inss := if config.inssEnabled then Inss(gross) else 0.0;
    var irrf := if config.irrfEnabled then (var t := Irrf(gross, inss); if t > 0.0 then t else 0.0) else 0.0;
    var vt := if config.vtEnabled then e.salary * (config.vtDiscountPercent / 100.0) else 0.0;
    Payslip(e.id, e.fullName, month, e.salary, config.workDaysPerMonth - absencesDays, absencesDays,
            absencesDiscount, certificateDays, hours50, overtime50Value, hours100, overtime100Value,
            totalOvertime, inss, irrf, vt, gross, absencesDiscount + inss + irrf + vt,
            gross - inss - irrf - vt, "draft")
  }

  /**
   * The payslip's earnings and discounts: the enabled absence and certificate days at the daily
   * rate, and each overtime bucket at the hourly rate with its percentage on top.
   */
  lemma PayslipAmounts(config: Config, e: Employee, month: string,
                       absencesDays: real, certificateDays: real, hours50: real, hours100: real)
    requires Usable(config)
    ensures var p := MakePayslip(config, e, month, absencesDays, certificateDays, hours50, hours100);
            && p.absencesDiscount
               == (if config.absenceDiscountEnabled then absencesDays * DailyRate(config, e.salary) else 0.0)
                  + (if config.medicalCertificateDiscount then certificateDays * DailyRate(config, e.salary) else 0.0)
            && p.overtime50Value == OvertimeValue(hours50, HourlyRate(config, e.salary), config.overtime50Percent)
            && p.overtime100Value == OvertimeValue(hours100, HourlyRate(config, e.salary), config.overtime100Percent)
  {
  }

  /**
   * A month with no absences and no overtime under the default settings: the gross pay is the
   * salary, and the net pay is the salary less INSS on it, IRRF on what remains, and 6% transport.
   */
  lemma PlainMonth(e: Employee, month: string)
    ensures var p := MakePayslip(DefaultConfig, e, month, 0.0, 0.0, 0.0, 0.0);
            p.grossSalary == e.salary && p.workDays == 22.0 && p.totalOvertime == 0.0
            && p.netSalary == e.salary - Inss(e.salary) - Irrf(e.salary, Inss(e.salary)) - 0.06 * e.salary
  {
    var p := MakePayslip(DefaultConfig, e, month, 0.0, 0.0, 0.0, 0.0);
    assert p.absencesDiscount == 0.0 && p.overtime50Value == 0.0 && p.overtime100Value == 0.0;
  }

  /** Overtime hours at the hourly rate with the configured percentage on top. */
  function OvertimeValue(hours: real, rate: real, percent: real): real {
    hours * rate * (1.0 + percent / 100.0)
  }

  /** `hourlyRate`: the salary over the working hours of a month. */
  function HourlyRate(config: Config, salary: real): real
    requires Usable(config)
  {
    salary / (config.workDaysPerMonth * config.workHoursPerDay)
  }

  /** The hourly rate is the daily rate spread over the hours of a day, and a month of hours pays the salary. */
  lemma HourlyRateOfDay(config: Config, salary: real)
    requires Usable(config)
    ensures HourlyRate(config, salary) == salary / config.workDaysPerMonth / config.workHoursPerDay
    ensures HourlyRate(config, salary) * config.workHoursPerDay * config.workDaysPerMonth == salary
  {
    var days, hours := config.workDaysPerMonth, config.workHoursPerDay;
    var r := salary / days / hours;
    assert r * hours == salary / days;
    assert r * (days * hours) == (r * hours) * days;
  }

  /** `dailyRate`: the salary over the working days of a month. */
  function DailyRate(config: Config, salary: real): real
    requires Usable(config)
  {
    salary / config.workDaysPerMonth
  }

  function OfEmployeeAbsences(absences: seq<Absence>, id: string): seq<Absence> {
    Filter(absences, (a: Absence) => a.employeeId == id)
  }

  function OfEmployeeOvertimes(overtimes: seq<Overtime>, id: string): seq<Overtime> {
    Filter(overtimes, (o: Overtime) => o.employeeId == id)
  }

  /** The payslip of one employee from the month's absences and approved overtime. */
  function PayslipFor(config: Config, e: Employee, month: string,
                      monthAbsences: seq<Absence>, monthOvertimes: seq<Overtime>): Payslip
    requires Usable(config)
  {
    var absences := OfEmployeeAbsences(monthAbsences, e.id);
    var overtimes := OfEmployeeOvertimes(monthOvertimes, e.id);
    MakePayslip(config, e, month,
                Sum(absences, AbsenceDayCount), Sum(absences, CertificateDayCount),
                Sum(overtimes, Hours50), Sum(overtimes, Hours100))
  }

  /** The body of the generation loop for one employee: tally, then compute the amounts. */
  method BuildPayslip(config: Config, e: Employee, month: string,
                      monthAbsences: seq<Absence>, monthOvertimes: seq<Overtime>) returns (p: Payslip)
    requires Usable(config)
    ensures p == PayslipFor(config, e, month, monthAbsences, monthOvertimes)
    ensures p.netSalary == p.baseSalary + p.totalOvertime - p.totalDiscounts
  {
    var absencesDays, certificateDays := TallyAbsences(OfEmployeeAbsences(monthAbsences, e.id));
    var hours50, hours100 := TallyOvertime(OfEmployeeOvertimes(monthOvertimes, e.id));
    p := MakePayslip(config, e, month, absencesDays, certificateDays, hours50, hours100);
  }

  // ----- Generation -----

  predicate Active(e: Employee) {
    e.status == "active" && e.salary > 0.0
  }

  function ActiveEmployees(employees: seq<Employee>): seq<Employee> {
    Filter(employees, Active)
  }

  function MonthAbsences(absences: seq<Absence>, month: string): seq<Absence> {
    Filter(absences, (a: Absence) => a.monthReference == month)
  }

  function MonthOvertimes(overtimes: seq<Overtime>, month: string): seq<Overtime> {
    Filter(overtimes, (o: Overtime) => o.monthReference == month && o.status == "approved")
  }

  /** `payrolls.find(p => p.employee_id === id && p.month_reference === month)` found one. */
  predicate HasPayroll(payrolls: seq<Payslip>, id: string, month: string) {
    Find(payrolls, (p: Payslip) => p.employeeId == id && p.monthReference == month).Some?
  }

  /** The payslips created for `employees`, in order, skipping those who already have one for the month. */
  function Generated(config: Config, employees: seq<Employee>, monthAbsences: seq<Absence>,
                     monthOvertimes: seq<Overtime>, payrolls: seq<Payslip>, month: string): seq<Payslip>
    requires Usable(config)
  {
    if employees == [] then []
    else
      var e := employees[|employees| - 1];
      Generated(config, employees[..|employees| - 1], monthAbsences, monthOvertimes, payrolls, month)
      + (if HasPayroll(payrolls, e.id, month) then []
         else [PayslipFor(config, e, month, monthAbsences, monthOvertimes)])
  }

  /** `generatePayroll`: the `for ... of` loop over the active employees, with `continue` for those already paid. */
  method GeneratePayroll(config: Config, employees: seq<Employee>, absences: seq<Absence>,
                         overtimes: seq<Overtime>, payrolls: seq<Payslip>, month: string)
    returns (created: seq<Payslip>)
    requires Usable(config)
    ensures created == Generated(config, ActiveEmployees(employees), MonthAbsences(absences, month),
                                 MonthOvertimes(overtimes, month), payrolls, month)
  {
    var active := ActiveEmployees(employees);
    var monthAbsences := MonthAbsences(absences, month);
    var monthOvertimes := MonthOvertimes(overtimes, month);
    created := [];
    for i := 0 to |active|
      invariant created == Generated(config, active[..i], monthAbsences, monthOvertimes, payrolls, month)
    {
      var e := active[i];
      GeneratedNext(config, active, i, monthAbsences, monthOvertimes, payrolls, month);
      if HasPayroll(payrolls, e.id, month) {
        continue;
      }
      var p := BuildPayslip(config, e, month, monthAbsences, monthOvertimes);
      created := created + [p];
    }
    assert active[..|active|] == active;
  }

  /** Generation over one more employee of the list adds that employee's payslip, unless it already has one. */
  lemma GeneratedNext(config: Config, active: seq<Employee>, i: int, monthAbsences: seq<Absence>,
                      monthOvertimes: seq<Overtime>, payrolls: seq<Payslip>, month: string)
    requires Usable(config) && 0 <= i < |active|
    ensures Generated(config, active[..i + 1], monthAbsences, monthOvertimes, payrolls, month)
            == Generated(config, active[..i], monthAbsences, monthOvertimes, payrolls, month)
               + (if HasPayroll(payrolls, active[i].id, month) then []
                  else [PayslipFor(config, active[i], month, monthAbsences, monthOvertimes)])
  {
    assert active[..i + 1][..i] == active[..i];
  }

  /** A created payslip: a draft for the month, of a listed employee with no payslip for it yet, whose amounts balance. */
  predicate CreatedFor(p: Payslip, employees: seq<Employee>, payrolls: seq<Payslip>, month: string) {
    p.monthReference == month && p.status == "draft"
    && !HasPayroll(payrolls, p.employeeId, month)
    && (exists i :: 0 <= i < |employees| && employees[i].id == p.employeeId)
    && p.netSalary == p.baseSalary + p.totalOvertime - p.totalDiscounts
  }

  /** Every payslip generation creates is for a listed employee who had none for the month: no duplicates. */
  lemma {:induction false} GeneratedSound(config: Config, employees: seq<Employee>, monthAbsences: seq<Absence>,
                                          monthOvertimes: seq<Overtime>, payrolls: seq<Payslip>, month: string)
    requires Usable(config)
    ensures var created := Generated(config, employees, monthAbsences, monthOvertimes, payrolls, month);
            |created| <= |employees|
            && forall j :: 0 <= j < |created| ==> CreatedFor(created[j], employees, payrolls, month)
  {
    if employees != [] {
      var init, e := employees[..|employees| - 1], employees[|employees| - 1];
      GeneratedSound(config, init, monthAbsences, monthOvertimes, payrolls, month);
      var before := Generated(config, init, monthAbsences, monthOvertimes, payrolls, month);
      var created := Generated(config, employees, monthAbsences, monthOvertimes, payrolls, month);
      forall j | 0 <= j < |before|
        ensures CreatedFor(created[j], employees, payrolls, month)
      {
        assert created[j] == before[j];
        var i :| 0 <= i < |init| && init[i].id == before[j].employeeId;
        assert employees[i] == init[i];
      }
      if !HasPayroll(payrolls, e.id, month) {
        var p := PayslipFor(config, e, month, monthAbsences, monthOvertimes);
        assert created == before + [p];
        assert employees[|employees| - 1].id == p.employeeId;
        assert CreatedFor(p, employees, payrolls, month);
      }
    }
  }

  /** Every listed employee without a payslip for the month gets one. */
  lemma {:induction false} GeneratedComplete(config: Config, employees: seq<Employee>, monthAbsences: seq<Absence>,
                                             monthOvertimes: seq<Overtime>, payrolls: seq<Payslip>, month: string)
    requires Usable(config)
    ensures var created := Generated(config, employees, monthAbsences, monthOvertimes, payrolls, month);
            forall i :: 0 <= i < |employees| && !HasPayroll(payrolls, employees[i].id, month) ==>
              exists j :: 0 <= j < |created| && created[j].employeeId == employees[i].id
  {
    if employees != [] {
      var init, e := employees[..|employees| - 1], employees[|employees| - 1];
      GeneratedComplete(config, init, monthAbsences, monthOvertimes, payrolls, month);
      var before := Generated(config, init, monthAbsences, monthOvertimes, payrolls, month);
      var created := Generated(config, employees, monthAbsences, monthOvertimes, payrolls, month);
      GeneratedStep(config, employees, monthAbsences, monthOvertimes, payrolls, month);
      forall i | 0 <= i < |employees| && !HasPayroll(payrolls, employees[i].id, month)
        ensures exists j :: 0 <= j < |created| && created[j].employeeId == employees[i].id
      {
        if i < |init| {
          assert employees[i] == init[i];
          var j :| 0 <= j < |before| && before[j].employeeId == init[i].id;
          assert created[j] == before[j];
        } else {
          assert created[|before|].employeeId == employees[i].id;
        }
      }
    }
  }

  /** One more employee adds at most their own payslip at the end. */
  lemma GeneratedStep(config: Config, employees: seq<Employee>, monthAbsences: seq<Absence>,
                      monthOvertimes: seq<Overtime>, payrolls: seq<Payslip>, month: string)
    requires Usable(config) && employees != []
    ensures var e := employees[|employees| - 1];
            var before := Generated(config, employees[..|employees| - 1], monthAbsences, monthOvertimes, payrolls, month);
            var created := Generated(config, employees, monthAbsences, monthOvertimes, payrolls, month);
            created[..|before|] == before
            && (HasPayroll(payrolls, e.id, month) ==> created == before)
            && (!HasPayroll(payrolls, e.id, month) ==> |created| == |before| + 1 && created[|before|].employeeId == e.id)
  {
  }

  /** Only active employees with a positive salary are paid, and only that month's absences count. */
  lemma ActiveOnly(employees: seq<Employee>, absences: seq<Absence>, month: string)
    ensures forall e :: e in ActiveEmployees(employees) ==> e.status == "active" && e.salary > 0.0
    ensures forall a :: a in MonthAbsences(absences, month) ==> a.monthReference == month
  {
  }
}
