# Back-office business rules of `gestao`, in Dafny

`gestao` is a React back-office for a retail business. It covers employees, absences, vacations,
payroll, cash-register breaks and produce purchases at the CEASA wholesale market. Most of it is
screens and API calls. Its pages also carry small business rules, and this project models those
rules and proves what they promise:

- **Date-entry mask** (`DateMask`). The `DD/MM/YYYY` text shown while typing, the `YYYY-MM-DD`
  value emitted, the Backspace re-grouping, and the year and day grids of the picker.
- **Absences.**
  - `AbsenceHours`: the table's hours/minutes text.
  - `AbsenceForm`: the shift line kept in the observations, the form's updates, and its
    validation and saved record.
  - `AbsenceReports`: the absence report.
- **Payroll** (`Payroll`).
  - The INSS and IRRF tables.
  - The per-employee payslip.
  - The generation loop that skips employees who already have a payslip.
- **Vacations.**
  - `Vacations`: the current page. The acquisition and concession windows, pay with the one-third
    bonus and sold days, end and return dates, the search and the 31-row pages.
  - `VacationsLegacy`: the older page.
- **Cash breaks.**
  - `CashBreakManagement` and `CashBreaks`: the two penalty rules.
  - `CashBreakForm`: the form component.
  - `CashBreakReports`: the report totals.
- **CEASA purchases.**
  - `CeasaPurchases`: the current page. Line totals per price type, the item list whose total is
    the sum of its lines, the filter, and the grouping by date and supplier.
  - `CeasaPurchasesLegacy`: the older page.
  - `CeasaReports`: the purchase report.
- **The Express server's employee table** (`EmployeeServer`), and `createPageUrl` / `cn` (`Utils`).

Some modules are shared helpers:

- `Text`: the JavaScript string operations the pages use.
- `Calendar`: dates as year, month and day, with moment's add-days and add-years.
- `Tally`: filters, sums and grouping by key, with keys in first-seen order as in a JavaScript
  object.
- `Sorting`: the descending sort of `Array.prototype.sort` with a numeric comparator.
- `Entities`: the stored records.

Conventions:

- Money is `real`.
- A numeric field a page reads as `x || 0` is 0 when missing.
- `parseFloat` gives `None` where JavaScript gives `NaN`.
- "Now", fresh ids and fetched lists are parameters.
- Loops that update accumulators are methods. Each is proved equal to a specification function,
  and the source's promises are proved about that function.
- The server's table and the purchase forms are classes whose methods update their fields.

## Model

| member | source | states |
|---|---|---|
| Utils.CreatePageUrl | utils.js:3-23 | each listed page name maps to its path, any other name to `/`; every route starts with `/` |
| Utils.RootOnlyForDashboard | utils.js:5-22 | `/` is produced exactly for `Dashboard` and for unlisted names |
| Utils.Kept | utils.js:26 | `filter(Boolean)` keeps no empty name, never lengthens the list, keeps only given names and keeps every non-empty one |
| Utils.KeptInOrder | utils.js:26 | each non-empty name sits in the result at the position of the non-empty names before it: order is kept |
| Utils.CnIgnoresFalsy | utils.js:25-27 | a falsy argument anywhere leaves `cn`'s result unchanged |
| Utils.CnAppend | utils.js:25-27 | a further class name is joined after a single space, or stands alone after only falsy arguments |
| EmployeeServer.WithId | server.js:107 | `{id, ...body}` has the body's fields, plus `id` when the body has none |
| EmployeeServer.Without | server.js:125 | the filtered table holds no record with the deleted id and is no longer than before |
| EmployeeServer.WithoutIdempotent | server.js:123-127 | deleting twice equals deleting once |
| EmployeeServer.WithoutAbsent | server.js:123-127 | deleting an id nobody has leaves the table unchanged |
| EmployeeServer.WithoutKeepsOthers | server.js:125 | the result is shorter by the number of records with the id, and every other record sits at its old position less the removed records before it: survivors in order |
| EmployeeServer.EmployeeTable.constructor | server.js:101-103 | the table starts empty |
| EmployeeServer.EmployeeTable.List | server.js:101-103 | GET returns the current table |
| EmployeeServer.EmployeeTable.FindIndex | server.js:114 | `findIndex`: the first position holding the id, or none when no record has it |
| EmployeeServer.EmployeeTable.Create | server.js:105-110 | POST appends exactly `{id: now, ...body}` at the end and answers 201 with it |
| EmployeeServer.EmployeeTable.Update | server.js:112-121 | PUT replaces only the first record with the id by `{id, ...body}`; an unknown id answers 404 and leaves the table unchanged |
| EmployeeServer.EmployeeTable.Delete | server.js:123-127 | DELETE keeps, in order, exactly the records with another id |
| DateMask.DayPart | src/components/vacations/DatePickerInput.jsx:50-64 | the day field: one digit when a lone first digit is at most 3, else two; two digits never exceed 31; `00` stays 0 |
| DateMask.MonthPart | src/components/vacations/DatePickerInput.jsx:67-88 | the month field: a lone digit at most 1 stays alone; two digits always lie in 1..12 |
| DateMask.YearPart | src/components/vacations/DatePickerInput.jsx:92-95 | the year field is one to four digits |
| DateMask.DayStep | src/components/vacations/DatePickerInput.jsx:48-65 | the day stage computes the day field and rewrites the leading digits, keeping those after the second |
| DateMask.MonthStep | src/components/vacations/DatePickerInput.jsx:67-90 | the month stage computes the month field and keeps the digits after the fourth |
| DateMask.HandleInputChange | src/components/vacations/DatePickerInput.jsx:39-110 | the shown text is the mask of the typed digits, shaped as digits with `/` at 2 and 5, and the emitted value follows the completeness rule |
| DateMask.MaskIsShaped | src/components/vacations/DatePickerInput.jsx:43-96 | the mask holds digits only, plus `/` at positions 2 and 5, and has at most ten characters; it has ten exactly when eight digits were typed, and is empty exactly when none were |
| DateMask.FirstDigitPadding | src/components/vacations/DatePickerInput.jsx:51-57 | a lone first digit above 3 is shown zero-padded, and any other lone digit as typed |
| DateMask.MaskClamps | src/components/vacations/DatePickerInput.jsx:58-88 | the shown day is at most 31 (a day above 31 becomes `31`); the shown month is 1..12 (above 12 becomes `12`, `00` becomes `01`); a lone month digit above 1 is zero-padded |
| DateMask.MaskDropsExtraDigits | src/components/vacations/DatePickerInput.jsx:94 | digits after the eighth change nothing |
| DateMask.MaskDigits | src/components/vacations/DatePickerInput.jsx:43-96 | the digits of the mask are the day, month and year fields in order |
| DateMask.MaskIdempotent | src/components/vacations/DatePickerInput.jsx:39-98 | typing the shown text again shows the same text |
| DateMask.EmitsOnlyComplete | src/components/vacations/DatePickerInput.jsx:101-109 | `""` is emitted exactly for empty text; a value is emitted for non-empty text exactly when eight digits are there and the day is not `00`, and it is `YYYY-MM-DD` of the shown fields |
| DateMask.DisplayRoundTrip | src/components/vacations/DatePickerInput.jsx:15-18 | a stored date is shown as `DD/MM/YYYY`, and typing that display back emits the same stored date |
| DateMask.GroupKeepsDigits | src/components/vacations/DatePickerInput.jsx:127-138 | Backspace re-grouping keeps the digits, up to the eighth, in order |
| DateMask.HandleBackspace | src/components/vacations/DatePickerInput.jsx:121-145 | only a Backspace right after `/` is handled; it re-groups the remaining digits as 2/2/4 and emits `""` exactly when nothing is left |
| DateMask.BackspaceKeepsDigits | src/components/vacations/DatePickerInput.jsx:124-138 | dropping the slash loses no digit: the re-grouped text carries the same digits |
| DateMask.YearOptions | src/components/vacations/DatePickerInput.jsx:189-193 | exactly 21 consecutive years, from current−10 to current+10 |
| DateMask.DayGrid | src/components/vacations/DatePickerInput.jsx:206-216 | `firstDay` blanks followed by 1..`daysInMonth` in order |
| DateMask.MonthGrid | src/components/vacations/DatePickerInput.jsx:195-216 | the grid of a month: blanks up to the weekday of the 1st, then every day of the month |
| DateMask.DateClickConsistent | src/components/vacations/DatePickerInput.jsx:148-156 | a clicked day is stored as its `YYYY-MM-DD` text, shown as the display of that value, and typing the display back emits it again |
| AbsenceHours.NumberOfText | src/components/absences/AbsenceTable.jsx:10 | `Number(text)` yields a number in canonical form, or NaN |
| AbsenceHours.NumberOfLiteral | src/components/absences/AbsenceTable.jsx:10 | text of white space, an optional sign, digits and an optional point and fraction digits reads as that signed number |
| AbsenceHours.IntegerLiteral | src/components/absences/AbsenceTable.jsx:10 | a signed run of digits is the whole number it spells |
| AbsenceHours.FractionLiteral | src/components/absences/AbsenceTable.jsx:10 | a signed decimal literal is its whole digits and its fraction digits without trailing zeros |
| AbsenceHours.FractionMinutes | src/components/absences/AbsenceTable.jsx:15-16 | minutes from the fraction digits never exceed 59 |
| AbsenceHours.FormatHoursMinutes | src/components/absences/AbsenceTable.jsx:2-22 | the reassigning, pushing formatter returns exactly the specified text |
| AbsenceHours.FormattedCases | src/components/absences/AbsenceTable.jsx:3-21 | `-` exactly for a falsy value; `0 minutos` when neither part is positive; both parts joined with ` e `, hours first; only the hours part, or only the minutes part, when the other is not positive |
| AbsenceHours.UnitWording | src/components/absences/AbsenceTable.jsx:19-20 | the singular `hora`/`minuto` is used exactly for 1 |
| AbsenceHours.NumberReading | src/components/absences/AbsenceTable.jsx:10-16 | a number gives its integer part as hours; one fraction digit counts tens of minutes, capped at 59; longer fractions are capped at 59 |
| AbsenceHours.OneAndAHalf | src/components/absences/AbsenceTable.jsx:11-16 | 1.5 reads as `1 hora e 50 minutos` |
| AbsenceHours.NumberOfDigits | src/components/absences/AbsenceTable.jsx:10 | a plain run of digits reads as the number it denotes |
| AbsenceHours.ColonMinutesUncapped | src/components/absences/AbsenceTable.jsx:5-21 | any `h:m` text of two positive digit runs is written as `h` hours ` e ` `m` minutes, with `m` uncapped (`1:75` gives 75 minutos) |
| AbsenceHours.ColonReading | src/components/absences/AbsenceTable.jsx:5-9 | any `h:m` text of two digit runs reads as `h` hours and `m` minutes, whatever `m` is: the colon branch never caps the minutes |
| AbsenceForm.ExtractShift | src/components/absences/AbsenceForm.jsx:26-36 | no shift exactly when the `Turno:` pattern matches nowhere |
| AbsenceForm.FindMatch | src/components/absences/AbsenceForm.jsx:26 | the leftmost match of the pattern, or none when it matches at no position |
| AbsenceForm.ExtractShiftAtStart | src/components/absences/AbsenceForm.jsx:26-34 | a `Turno:` line at the start, in any case, yields the shift it names (Manhã→morning, Tarde→afternoon, Noite→night) |
| AbsenceForm.DistinctWords | src/components/absences/AbsenceForm.jsx:32-34 | the three shift words differ whatever their case |
| AbsenceForm.CleanedReplacesFirstOnly | src/components/absences/AbsenceForm.jsx:39 | only the first match is replaced; the text before it is kept, and no match starts earlier |
| AbsenceForm.NormalizeCases | src/components/absences/AbsenceForm.jsx:38-43 | with no shift, the cleaned text is returned; with a shift, the text starts with `Faltou pela <label>`, followed by a newline and the cleaned text when that is not empty |
| AbsenceForm.LoadForm | src/components/absences/AbsenceForm.jsx:80-113 | a saved absence loads with its employee, date, type, month reference, observations and details copied, its shift extracted, its hours blank when missing or 0 (`hours \|\| ""`), its days off read as `days_off \|\| 1`, and its discount flag kept except that a medical certificate never discounts; no absence loads the empty form |
| AbsenceForm.SetKind | src/components/absences/AbsenceForm.jsx:114-119 | choosing a type keeps the certificate rule: a medical certificate changes the type and clears the discount, any other type changes only the type |
| AbsenceForm.SetDiscount | src/components/absences/AbsenceForm.jsx:114-119 | the discount checkbox has no effect on a medical certificate |
| AbsenceForm.HandleEmployeeChange | src/components/absences/AbsenceForm.jsx:121-130 | sets the id and the listed employee's name, or `""`; nothing else changes |
| AbsenceForm.HandleDateChange | src/components/absences/AbsenceForm.jsx:132-139 | sets the date, and the month reference to its first 7 characters (`""` for no date); nothing else changes |
| AbsenceForm.CertificateRuleKept | src/components/absences/AbsenceForm.jsx:114-139 | every form update keeps medical certificates free of salary discount |
| AbsenceForm.SavedDaysOff | src/components/absences/AbsenceForm.jsx:163 | the saved `days_off` is never 0 |
| AbsenceForm.SavedDaysOffDefault | src/components/absences/AbsenceForm.jsx:163 | 0 or unreadable text saves 1; any other parsed count is kept |
| AbsenceForm.Submit | src/components/absences/AbsenceForm.jsx:141-164 | a missing employee is rejected first, then a missing date; a record is saved exactly when both are present, with the employee's id and name, the observations normalised, the hours as SavedHours and the days off as SavedDaysOff (`parseInt || 1`) |
| Payroll.Inss | pages/Payroll.jsx:17-23 | INSS is between 0 and 14% of a non-negative salary, at least 7.5% below the ceiling, and never above 908.8618 |
| Payroll.InssBrackets | pages/Payroll.jsx:18-21 | each higher bracket adds 9%, 12% or 14% of the excess to the amount at the previous ceiling |
| Payroll.InssMonotoneBelowCeiling | pages/Payroll.jsx:18-21 | up to 7786.02, a higher salary never pays less INSS |
| Payroll.InssCeilingDrop | pages/Payroll.jsx:21-22 | at 7786.02 INSS is 908.8618, and just above it is the constant 908.85 |
| Payroll.Irrf | pages/Payroll.jsx:26-33 | the withheld IRRF is never negative, and is 0 exactly when salary − INSS ≤ 2259.20 (the clamp is at pages/Payroll.jsx:148) |
| Payroll.TallyAbsences | pages/Payroll.jsx:109-117 | the `forEach` sums `days_off`, 1 when missing, of discounted absences and of medical certificates |
| Payroll.TallyOvertime | pages/Payroll.jsx:129-134 | the `forEach` sums the hours of type `"50"` and of every other type |
| Payroll.AbsenceBucketsPartition | pages/Payroll.jsx:111-117 | every absence day lands in exactly one of: discounted absence, certificate, ignored |
| Payroll.OvertimeBucketsPartition | pages/Payroll.jsx:131-134 | every overtime hour lands in exactly one of the two buckets |
| Payroll.MakePayslip | pages/Payroll.jsx:119-175 | INSS = Inss(gross) and IRRF = Irrf(gross, INSS) when enabled; VT = salary × percent/100 when enabled; the name, days and hours are copied; total discounts = absence discount + INSS + IRRF + VT; net = base + overtime − discounts; work days = days per month − absence days; gross = base + overtime − absence discount; IRRF ≥ 0; each disabled option contributes 0 |
| Payroll.PayslipAmounts | pages/Payroll.jsx:119-139 | absence discount = the enabled absence and certificate days × the daily rate; each overtime value = hours × hourly rate × (1 + percent/100) |
| Payroll.PlainMonth | pages/Payroll.jsx:69-80 | with the default configuration and nothing recorded, gross is the salary, 22 work days, and net is salary less INSS, IRRF and 6% VT |
| Payroll.HourlyRateOfDay | pages/Payroll.jsx:98 | the hourly rate is the daily rate over the hours per day, and a full month of hours pays the salary |
| Payroll.BuildPayslip | pages/Payroll.jsx:105-175 | one loop body builds the employee's payslip, and it balances |
| Payroll.GeneratePayroll | pages/Payroll.jsx:91-180 | the loop creates exactly the specified payslips for the month's active employees |
| Payroll.GeneratedSound | pages/Payroll.jsx:100-103 | every created payslip is a balanced draft for a listed employee with no payslip for the month: no duplicates |
| Payroll.GeneratedComplete | pages/Payroll.jsx:100-103 | every listed employee without a payslip for the month gets one |
| Payroll.GeneratedStep | pages/Payroll.jsx:100-103 | one more employee adds at most that employee's payslip, at the end |
| Payroll.ActiveOnly | pages/Payroll.jsx:94-95 | only active employees with a positive salary are paid, and only the month's absences count |
| Vacations.PayFor | src/pages/Vacations.jsx:160-165 | vacation pay = salary/30 × (entitled − sold); sold days pay = salary/30 × sold × (4/3 with the bonus, else 1); the total is salary/30 × days entitled × the same factor; the bonus is a third of the pay when enabled and 0 otherwise |
| Vacations.CalculateVacationPay | src/pages/Vacations.jsx:156-173 | `null` exactly for an employee who is not listed; otherwise PayFor of that listed employee's salary and the form's days |
| Vacations.Save | src/pages/Vacations.jsx:190-206 | the saved record is the form with PayFor of the listed employee's salary and the form's days, or the form unchanged for an unknown employee; the form is reset to the blank "scheduled" form |
| Vacations.PaySummary | src/pages/Vacations.jsx:240-263 | stored amounts when `total_pay > 0`; all zeros for an unknown employee; otherwise PayFor of the listed employee's salary and the record's days |
| Vacations.ShiftDate | src/pages/Vacations.jsx:180-181 | `moment(value).add(n, "days")` is the date n days later, or "Invalid date" for text that is not a date |
| Vacations.PeriodsEndBeforeAnniversary | src/pages/Vacations.jsx:135-136 | each window ends the day before the 1st or 2nd anniversary of its start; the acquisition end is not before its start, and the concession end comes after it |
| Vacations.AcquisitionStart | src/pages/Vacations.jsx:133-134 | the hire anniversary in this year, moved back a year when still to come, is never after today |
| Vacations.AcquisitionYearContainsToday | src/pages/Vacations.jsx:131-136 | except for a 29 February hire, today lies in the acquisition year, which starts on the hire anniversary |
| Vacations.HandleEmployeeChange | src/pages/Vacations.jsx:128-154 | a listed employee sets the id, the name and the configured days, and the three window dates are those of the current acquisition period from the hire date ("Invalid date" when it does not parse), and nothing else; an unknown id leaves the form unchanged |
| Vacations.Reschedule | src/pages/Vacations.jsx:178-185 | with a start date and a non-zero entitlement, days taken = entitled − sold and only the end and return dates change; otherwise nothing changes |
| Vacations.ReturnIsDayAfterEnd | src/pages/Vacations.jsx:179-184 | the end date is the last of the days taken, and the return date is the day after it |
| Vacations.HandleDatesChange | src/pages/Vacations.jsx:175-188 | the named field is set; only a start date also changes days taken, end and return |
| Vacations.HandleDaysSoldChange | src/pages/Vacations.jsx:644-655 | the sold days are `parseInt`, 0 when unreadable; the same rescheduling as a new start date follows, and nothing else changes |
| Vacations.FilteredVacations | src/pages/Vacations.jsx:213-221 | nothing is listed before the first search; afterwards exactly the vacations matching name, status and the inclusive date range are listed |
| Vacations.TotalPages | src/pages/Vacations.jsx:223 | at least one page, enough pages of 31 for every row, and no empty page beyond the first |
| Vacations.PageRows | src/pages/Vacations.jsx:225-228 | a page holds at most 31 rows |
| Vacations.PagesPartition | src/pages/Vacations.jsx:225-228 | pages 1..k, one after the other, are exactly the first 31·k rows: no gap and no overlap |
| Vacations.AllPages | src/pages/Vacations.jsx:223-228 | all the pages together are exactly the filtered list |
| Vacations.PrevPage | src/pages/Vacations.jsx:513 | "Anterior" never goes below page 1 and never moves forward |
| Vacations.NextPage | src/pages/Vacations.jsx:522 | "Próxima" stays within 1..totalPages |
| Vacations.PageStaysInRange | src/pages/Vacations.jsx:513-522 | from a page in range, prev, next and the clamped current page stay within 1..totalPages |
| Vacations.StatusCount | pages/Vacations.jsx:154-156 | a status counter never exceeds the number of vacations |
| Vacations.StatusCountsDisjoint | pages/Vacations.jsx:154-156 | three counters of distinct statuses together never exceed the number of vacations |
| VacationsLegacy.HandleEmployeeChange | pages/Vacations.jsx:78-96 | a listed employee's three window dates are those of the period starting at the hire date ("Invalid date" when it does not parse), with the configured days; only the employee and period fields change; an unknown id leaves the form unchanged |
| VacationsLegacy.CalculateVacationPay | pages/Vacations.jsx:98-116 | a listed employee's form gets exactly the four amounts of PayFor of the salary and the form's days; an unknown employee leaves the form unchanged |
| VacationsLegacy.SaveAsWritten | pages/Vacations.jsx:133-145 | as written, the record saved is the form read before the pay update, and the form is reset to the blank "pending" form |
| VacationsLegacy.SaveAsWrittenLosesPay | pages/Vacations.jsx:133-136 | a form filled in on this page saves total pay 0 although the employee's pay is 4000 |
| VacationsLegacy.Save | pages/Vacations.jsx:133-145 | corrected: the record saved is the form with PayFor of the listed employee's salary and the form's days, and the form is reset |
| VacationsLegacy.FilteredVacations | pages/Vacations.jsx:147-149 | exactly the vacations whose employee name contains the search, ignoring case |
| CashBreakManagement.CalculatePenalty | pages/CashBreakManagement.jsx:103-147 | the branch-by-branch computation meets the decision table and writes only the penalty and the discount: a surplus costs nothing; a cash shortage discounts the parsed amount (0 if unreadable); a card shortage with lost receipts is fined per receipt, plus the receipt value for an unpaid POS; a card shortage without lost receipts is fined the base fine |
| CashBreakManagement.PenaltyOnlyOnCardShortage | pages/CashBreakManagement.jsx:105-140 | only a card or POS shortage is ever fined, and non-negative configured fines give a non-negative fine |
| CashBreakManagement.DiscountCoversPenalty | pages/CashBreakManagement.jsx:123-129 | for any non-cash tender, the discount includes the whole fine when the receipt value is not negative |
| CashBreakManagement.FineGrowsWithCount | pages/CashBreakManagement.jsx:118-121 | the fine is base + (count − 1) × additional for a count of at least 1, and more receipts never cost less; a missing or zero configured fine counts as 5 |
| CashBreakManagement.SaveRecord | pages/CashBreakManagement.jsx:169-175 | the saved amount and receipt value are the parsed numbers, 0 when empty or unreadable; the other fields are kept |
| CashBreakManagement.EditDate | pages/CashBreakManagement.jsx:203 | editing keeps the stored date up to its `T`; a missing date becomes today |
| CashBreakManagement.EditDateKeepsPlainDate | pages/CashBreakManagement.jsx:203 | a stored date with no time part is kept as it is |
| CashBreakManagement.FilteredBreaks | pages/CashBreakManagement.jsx:211-215 | exactly the breaks whose employee name contains the search (ignoring case) and whose store matches unless "all" |
| CashBreaks.CashIsNotCard | pages/CashBreaks.jsx:28 | cash and customer credit are not card tenders, and every card tender here is one the management page also fines |
| CashBreaks.UpdatePenalty | pages/CashBreaks.jsx:103-126 | the effect meets its rule and writes only the two amounts: with no lost card receipt there is no fine and the discount is the amount, for a surplus too; with lost receipts the fine grows with the count, and an unpaid POS receipt of positive value is added |
| CashBreaks.ChangePaymentType | pages/CashBreaks.jsx:355 | a new tender resets the lost flag, the count to 1, the value to 0 and the paid flag, and changes nothing else |
| CashBreaks.ChangePaymentTypeClearsFine | pages/CashBreaks.jsx:104-125 | right after a change of tender no fine is left, and the discount is the amount |
| Text.NumberOrZero | pages/CashBreaks.jsx:378 | the amount input is the parsed number, 0 when unreadable |
| CashBreaks.CountInput | pages/CashBreaks.jsx:400 | the lost-receipt count is never 0: unreadable text or 0 gives 1, any other count is kept |
| CashBreaks.HandleEmployeeChange | pages/CashBreaks.jsx:128-139 | a listed employee sets the id, name, store and store name; an unknown id leaves the form unchanged |
| CashBreaks.HandleStoreChange | pages/CashBreaks.jsx:141-146 | a listed store sets its id and name; an unknown id leaves the form unchanged |
| CashBreaks.PagesAgreeOnLostReceipts | pages/CashBreaks.jsx:108-122 | both pages fine a card shortage with lost receipts alike; their discounts differ only for an unpaid POS receipt |
| CashBreaks.PagesDifferOnSurplus | pages/CashBreaks.jsx:105-107 | on a surplus the management page discounts nothing, while this page discounts the amount |
| CashBreakForm.HandleChange | Components/cashbreaks/CashBreakForm.jsx:81-112 | only the target field and its derived fields change. A store change looks up the store name (or `""`), clears the cashier and disables submit. A cashier change looks up the cashier name (or `""`). Cash clears the voucher status; any other method sets `not_delivered` |
| CashBreakForm.SelectableCashiers | Components/cashbreaks/CashBreakForm.jsx:72-79 | exactly the active cashiers of the selected store, and none before a store is chosen |
| CashBreakForm.Submit | Components/cashbreaks/CashBreakForm.jsx:114-128 | a non-cash amount is forced to 5; a cash amount is parsed, 0 when empty; both names are looked up again and the other fields are kept |
| CashBreakReports.FilteredData | pages/CashBreakReports.jsx:51-58 | exactly the breaks inside the date bounds (by text order, an empty bound ignored) whose store, employee and tender match unless "all" |
| CashBreakReports.ComputeTotals | pages/CashBreakReports.jsx:60-68 | from zero, shortages add their amount to the shortage total and their discount to the discount total; every other break adds its amount to the surplus total |
| CashBreakReports.ShortageAndSurplusPartition | pages/CashBreakReports.jsx:61-66 | every amount lands in exactly one of the shortage and surplus totals |
| CashBreakReports.DiscountOfShortagesOnly | pages/CashBreakReports.jsx:61-66 | the discount total is the sum of the shortages' discounts alone |
| CeasaPurchases.ReadDraft | src/pages/CeasaPurchases.jsx:127-148 | each of the draft's four numbers is read by the one `parseFloat` model, unreadable text giving no number |
| CeasaPurchases.LineTotal | src/pages/CeasaPurchases.jsx:126-149 | a product sold by the box (fixed weight or not) costs boxes times box price; any other costs quantity times unit price; an unreadable number counts as 0 |
| CeasaPurchases.ItemTotal | src/pages/CeasaPurchases.jsx:121-123 | an unknown product gives a total of 0 |
| CeasaPurchases.AddedItemIsConsistent | src/pages/CeasaPurchases.jsx:161-228 | every line the form adds records a total equal to its recorded quantity times its recorded unit price |
| CeasaPurchases.KilosTimesCostPerKilo | src/pages/CeasaPurchases.jsx:180-181 | total kilos times cost per kilo equals boxes times box price for any non-zero box weight |
| CeasaPurchases.FixedBoxIsConsistent | src/pages/CeasaPurchases.jsx:175-196 | a fixed-weight box line costs its kilos times its cost per kilo, and its kilos are boxes times the box weight |
| CeasaPurchases.TotalOf | src/pages/CeasaPurchases.jsx:231 | the loop's result is the sum of the lines' totals |
| CeasaPurchases.RemoveAt | src/pages/CeasaPurchases.jsx:238 | a valid index removes exactly that line and keeps the others in order; any other index changes nothing |
| CeasaPurchases.PurchaseForm.constructor | src/pages/CeasaPurchases.jsx:61-74 | a fresh form is dated today, has no supplier, store or line, a total of 0 and a blank draft |
| CeasaPurchases.PurchaseForm.AddItem | src/pages/CeasaPurchases.jsx:152-235 | with no product, an unknown product or an empty field its price type needs, nothing changes; otherwise the draft's line is appended, the total is the sum of the lines and the draft is cleared; the header is untouched |
| CeasaPurchases.PurchaseForm.RemoveItem | src/pages/CeasaPurchases.jsx:237-241 | the lines lose exactly the one at the index and the total is again their sum; nothing else changes |
| CeasaPurchases.PurchaseForm.ChangeSupplier | src/pages/CeasaPurchases.jsx:84-88 | sets the supplier id and its looked-up name (`""` when unknown), empties the lines, clears the draft and keeps the date and store |
| CeasaPurchases.PurchaseForm.Save | src/pages/CeasaPurchases.jsx:243-270 | without a line or without a store nothing is saved and date, supplier, store, lines and total stay; otherwise the saved purchase is the form, its total is the sum of its lines, and date, supplier id and name, store id and name, lines and total start afresh; the line draft is untouched |
| CeasaPurchases.FilteredPurchases | src/pages/CeasaPurchases.jsx:272-278 | exactly the purchases passing the supplier-name search (ignoring case), the month prefix, the supplier and the store filters |
| CeasaPurchases.Bucket | src/pages/CeasaPurchases.jsx:296-308 | the purchases of one date and supplier: all of them and nothing else |
| CeasaPurchases.BucketsPartition | src/pages/CeasaPurchases.jsx:287-308 | a purchase lies in the bucket of its own date and supplier and in no other |
| CeasaPurchases.AddPurchase | src/pages/CeasaPurchases.jsx:286-309 | one reduce step adds the purchase's date to the groups and keeps every other date |
| CeasaPurchases.GroupedIsBuilt | src/pages/CeasaPurchases.jsx:285-310 | the reduce over any list gives one group per date, in first-seen order, with its total and supplier buckets holding their purchases, total and first supplier name ("Sem fornecedor" when empty) |
| CeasaPurchases.GroupByDate | src/pages/CeasaPurchases.jsx:285-310 | the loop builds those groups: dates in first-seen order, each date's total, each supplier bucket's purchases and total, and every purchase covered |
| CeasaPurchases.TotalOfGroupsIsSumOverKeys | src/pages/CeasaPurchases.jsx:306 | adding the date groups' totals is adding each date's purchases |
| CeasaPurchases.DateTotalsAddUp | src/pages/CeasaPurchases.jsx:282-306 | the date groups' totals add up to `totalPurchases`, since each purchase counts in exactly one date |
| CeasaPurchases.GroupsInOrder | src/pages/CeasaPurchases.jsx:285 | `Object.values` gives one group per date, in date order |
| CeasaPurchases.GroupsInOrderTotals | src/pages/CeasaPurchases.jsx:285-310 | in any listing of the groups, every group is of a date of the list and carries that date's total |
| CeasaPurchases.GroupsInOrderBuckets | src/pages/CeasaPurchases.jsx:285-310 | in any listing of the groups, every supplier bucket holds exactly that date's and supplier's purchases, their total and the first one's supplier |
| CeasaPurchases.GroupsInOrderCover | src/pages/CeasaPurchases.jsx:285-310 | every purchase has the group of its date, with a bucket for its supplier, in any listing of the groups |
| CeasaPurchases.GroupedByDate | src/pages/CeasaPurchases.jsx:285-311 | the groups come latest date first, one per date, each with its date's total and supplier buckets holding exactly their purchases, and every purchase has the bucket of its date and supplier |
| CeasaPurchasesLegacy.LineTotal | pages/CeasaPurchases.jsx:83-87 | quantity times unit price when both read; 0 when either does not |
| CeasaPurchasesLegacy.NewItem | pages/CeasaPurchases.jsx:93 | the added line keeps the draft's product, name and unit, records the numbers as read, and costs quantity times unit price |
| CeasaPurchasesLegacy.ChooseProduct | pages/CeasaPurchases.jsx:70-81 | a known product sets the id and copies its name, unit and default price as text (`""` without one), keeping the typed quantity; an unknown product changes nothing |
| CeasaPurchasesLegacy.PurchaseForm.constructor | pages/CeasaPurchases.jsx:43-54 | a fresh form is dated today, with no supplier and no line, a total of 0 and a blank draft |
| CeasaPurchasesLegacy.PurchaseForm.ChangeSupplier | pages/CeasaPurchases.jsx:64-68 | sets the supplier and its looked-up name (`""` when unknown), empties the lines and clears the draft |
| CeasaPurchasesLegacy.PurchaseForm.ChangeProduct | pages/CeasaPurchases.jsx:70-81 | the draft becomes the product choice above; the form's header is untouched |
| CeasaPurchasesLegacy.PurchaseForm.AddItem | pages/CeasaPurchases.jsx:89-100 | without a product, a quantity or a price nothing changes; otherwise the line is appended, the total is the sum of the lines and the draft is cleared |
| CeasaPurchasesLegacy.PurchaseForm.RemoveItem | pages/CeasaPurchases.jsx:102-106 | the lines lose exactly the one at the index, the total is again their sum, nothing else changes |
| CeasaPurchasesLegacy.PurchaseForm.Save | pages/CeasaPurchases.jsx:108-125 | with no line nothing is saved and the date, supplier, lines and total stay; otherwise the saved purchase is the form, its total the sum of its lines, and the date, supplier id and name, lines and total start afresh |
| CeasaPurchasesLegacy.FilteredPurchases | pages/CeasaPurchases.jsx:127-132 | exactly the purchases passing the supplier-name search (ignoring case), the month prefix and the supplier filter |
| CeasaPurchasesLegacy.TotalPurchasesNonNegative | pages/CeasaPurchases.jsx:136 | the listed total is never negative when no amount is |
| CeasaReports.FilteredPurchases | src/pages/CeasaReports.jsx:30-34 | exactly the purchases whose date starts with the month (unless empty) and whose supplier matches (unless "all") |
| CeasaReports.Average | src/pages/CeasaReports.jsx:37-39 | 0 with no purchase; otherwise the average times the count is the total amount |
| CeasaReports.AllItems | src/pages/CeasaReports.jsx:43-44 | every line of every listed purchase is visited |
| CeasaReports.AddLines | src/pages/CeasaReports.jsx:44-50 | the inner loop extends the product tally with one purchase's lines |
| CeasaReports.ProductsSummary | src/pages/CeasaReports.jsx:42-51 | one entry per product name, names in first-seen order, each holding that product's summed quantity and summed total (a missing number counts as 0) |
| CeasaReports.ProductRowsSum | src/pages/CeasaReports.jsx:48-52 | the rows' totals add up to the per-name sums over the names listed |
| CeasaReports.ProductRowsFrom | src/pages/CeasaReports.jsx:52 | each row of `Object.values` is a product name of the lines with its summed quantity and total |
| CeasaReports.ProductRowsCover | src/pages/CeasaReports.jsx:52 | every product name of the lines has its row |
| CeasaReports.ProductsData | src/pages/CeasaReports.jsx:42-52 | one row per product name, largest total first, each with its summed quantity and total; the rows' totals add up to the lines' totals |
| CeasaReports.SupplierSummary | src/pages/CeasaReports.jsx:55-62 | one entry per supplier name, in first-seen order, holding that supplier's summed amount and its number of purchases |
| CeasaReports.SupplierRowsSum | src/pages/CeasaReports.jsx:60-63 | the rows' totals and counts add up to the per-name sums over the names listed |
| CeasaReports.SupplierRowsFrom | src/pages/CeasaReports.jsx:63 | each row is a supplier name of the list with its total and count |
| CeasaReports.SupplierData | src/pages/CeasaReports.jsx:55-63 | one row per supplier name, largest total first; the totals add up to the purchases' total and the counts to the number of purchases |
| CeasaReports.DayKey | src/pages/CeasaReports.jsx:68 | an ISO date gives its day and month as `DD/MM`; anything else gives "Invalid date" |
| CeasaReports.DailyData | src/pages/CeasaReports.jsx:66-71 | one entry per day key, in first-seen order, holding the total of that day's purchases |
| CeasaReports.LastN | src/pages/CeasaReports.jsx:72 | `slice(-n)`: the last n elements, or all when fewer |
| CeasaReports.ChartData | src/pages/CeasaReports.jsx:72 | at most 15 entries and exactly 15 when there are that many days: the last days in first-seen order with their totals |
| CeasaReports.ChartDataFrom | src/pages/CeasaReports.jsx:66-72 | each bar of the chart is a day of the list with that day's total |
| AbsenceReports.FilteredAbsences | src/pages/AbsenceReports.jsx:32-36 | exactly the absences of the month (unless empty) and of the type (unless "all") |
| AbsenceReports.TypeCountsBound | src/pages/AbsenceReports.jsx:39-41 | the three type counts together never exceed the number of listed records |
| AbsenceReports.OnlyChosenTypeCounts | src/pages/AbsenceReports.jsx:34-41 | with one type chosen in the filter, the other two counts are 0 |
| AbsenceReports.TypeData | src/pages/AbsenceReports.jsx:45-49 | a slice is shown exactly when its count is positive, with its own name and count, and no other slice appears; the slices come in the fixed order Faltas, Atestados, Justificadas, each once |
| AbsenceReports.SummarisedSummarises | src/pages/AbsenceReports.jsx:52-61 | folding the records gives one row per employee name, in first-seen order, with that employee's three type counts and days (`days_off`, 1 when missing) |
| AbsenceReports.EmployeeSummary | src/pages/AbsenceReports.jsx:52-61 | the loop builds exactly those rows |
| AbsenceReports.SummaryRowsSum | src/pages/AbsenceReports.jsx:60-62 | the rows' days and absence counts add up to the per-name sums over the names listed |
| AbsenceReports.SummaryAddsUp | src/pages/AbsenceReports.jsx:39-62 | the rows' days add up to `totalDays` and their absence counts to `totalAbsences` |
| AbsenceReports.SummaryRowsCover | src/pages/AbsenceReports.jsx:52-62 | every row is an employee's own row, and every employee of the list has one |
| AbsenceReports.EmployeeData | src/pages/AbsenceReports.jsx:52-62 | one row per employee name, most days first, each the employee's own counts and days; the days add up to `totalDays` and the absences to `totalAbsences` |
| AbsenceReports.RowCountsBound | src/pages/AbsenceReports.jsx:57-59 | an employee's three type counts together never exceed that employee's number of records |

## Left out

- Rendering, dialogs, charts, print windows and currency or date formatting for display: these are screen output. The model keeps the values shown, not how they are drawn.
- API calls, React Query caching and the awaits around them: network I/O. Fetched lists and configuration are parameters. A save returns the record that would be sent, and the API's answer is not modelled.
- The effects' timing (`useEffect`, batched `setState`): each effect or updater is a plain function of the state it reads, applied in sequence.
- Floating point: money and hours are exact `real`s, so rounding by IEEE doubles (e.g. `0.1 + 0.2`) is not modelled.
- `parseFloat` and `parseInt` read leading white space, a sign, digits and one decimal point. Exponents, `Infinity`, hexadecimal and digits beyond `0`-`9` are not modelled.
- `toLowerCase` covers ASCII and Latin-1 letters only. Other scripts, and letters whose lower case is longer, are not modelled.
- `moment` and `Date` parsing: only `YYYY-MM-DD` text is read as a date. Other formats `moment` accepts by fallback, time-of-day and time zones are not modelled. `moment()` ("now") is a `today` parameter.
- Vacations.CalculateVacationPay / Vacations.Save: every id is text here, so the pay lookup finds the employee whose id equals the form's. The source compares `e.id === form.employee_id` strictly while the form holds `String(emp.id)`, so an employee whose stored id is a number is not found. Then no pay is computed and the form is saved with total pay 0. The model computes the pay.
- EmployeeServer.EmployeeTable.FindIndex / EmployeeServer.Without: ids are compared as text. The server's loose `==` and `!=` also equate text and a number with the same value, such as "05" and 5, and the model does not.
- VacationsLegacy.HandleEmployeeChange: a missing hire date is the empty text, which gives "Invalid date" here. In the source `moment(undefined)` is the current day, so the periods start from today.
- VacationsLegacy.FilteredVacations: a record with no employee name is read as the empty name and so is listed when the search is empty. In the source `employee_name?.toLowerCase()` is `undefined` and such a record is never listed.
- CeasaPurchasesLegacy.PurchaseForm / CeasaPurchases.PurchaseForm: on both purchase pages the form's payment method (default "cash"), paid flag (default true) and observations are not modelled. Their inputs set them, the save copies them into the purchase and the reset restores the defaults; no computation reads them.
- Vacations.HandleEmployeeChange: a missing hire date is the empty text, which gives "Invalid date" here. In the source `moment(undefined)` is the current day, so the window starts from today.
- CashBreakManagement.FilteredBreaks: a record with no employee name is read as the empty name and so is listed when the search is empty. In the source `employee_name?.toLowerCase()` is `undefined` and such a record is never listed.
- AbsenceHours.FormatHoursMinutes / AbsenceHours.NumberReading: numbers are written out in full. In the source `Number(valor).toString()` switches to exponent form below 1e-6 and from 1e21 on, and `split('.')` then reads that text. So 0.0000001 shows `1e-7 horas` there and `1 minuto` here, 0.00000015 shows `1 hora e 5e-7 minutos` there and `15 minutos` here, and 10^21 shows `1e+21 horas` there and its full digits here.
- CashBreakReports.FilteredData: a break with no date is read as the empty date. With only an end date set, `"" <= endDate` holds and the break is kept here; in the source `undefined <= endDate` is false and the break is dropped. With a start date set, both drop it.
- AbsenceHours.NumberOfText: `Number` also reads exponents, `0x`/`0o`/`0b` prefixes, `Infinity`; the model reads only optionally signed decimal digits, trimmed of ECMAScript white space (`Text.IsSpace`), and gives NaN for the rest.
- CeasaReports.DayKey: a purchase with no date gives "Invalid date" here. In the source, `moment(undefined)` is the current day.
- CeasaPurchases.GroupedByDate: a group whose date does not parse sorts as day 0. In the source its comparator yields `NaN`, whose placement depends on the engine's sort.
- Missing text fields are `""`. A missing employee or supplier name is the key "undefined" in the source; here it is the empty key.
- JavaScript objects list integer-like keys first, in numeric order. The model keeps every key in first-seen order, which differs only for keys that are decimal numbers.
- Counts in the report rows are `real`s, because the same tally sums both money and ones.
- `String(number)` for prices copied into a text field is the `toText` parameter of CeasaPurchasesLegacy.ChooseProduct.
- CeasaPurchases.ItemTotal: its own contract states only the unknown-product case. The total of a known product is CeasaPurchases.LineTotal's contract.
- Payroll: payslips require a configuration with non-zero work days and hours per day (`Usable`). With a zero there, the source divides by zero and stores `Infinity` or `NaN`.
- The server's stateless routes (echoes and fixed answers), its middleware, static files and `listen`: these are I/O with no state. `Date.now()` ids are a fresh-id parameter.
- The cash-break management page's employee and store pickers: field copies like the ones modelled on the cash-break page.
- The absence form saves the shift as a "Faltou pela …" line, while loading looks for a "Turno: …" line. The model states both as written (AbsenceForm.NormalizeCases, AbsenceForm.ExtractShift) and makes no claim about the round trip.

## Findings

| source | as written | input that shows it | evidently intended | confidence | as-written member | corrected member |
|---|---|---|---|---|---|---|
| pages/Vacations.jsx:133-145 | `handleSave` calls `calculateVacationPay`, which only schedules a state update, then saves the `form` read before it, so the computed pay never reaches the saved record | employee Ana, salary 3000, hired 2020-03-01, chosen on a blank form and saved: the record carries total pay 0 where the computation gives 4000 | the saved record carries the pay just computed | high, not executed | VacationsLegacy.SaveAsWritten, VacationsLegacy.SaveAsWrittenLosesPay | VacationsLegacy.Save |
