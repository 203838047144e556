/**
 * The absence form: the shift line kept in the observations (`Turno: Manhã|Tarde|Noite`),
 * how the observations are rewritten on save, and the form's state changes and validation.
 * React's `setFormData(prev => ...)` updates are the transition functions on `Form` values.
 */
module AbsenceForm {
  import opened Wrappers
  import opened Text
  import opened Entities

  // ----- The shift line -----

  datatype Shift = NoShift | Morning | Afternoon | Night

  /** `shiftLabels`. */
  function Label(shift: Shift): string {
    match shift
    case NoShift => ""
    case Morning => "Manhã"
    case Afternoon => "Tarde"
    case Night => "Noite"
  }

  /** `w` occurs at position `j` of `s`, letters compared without regard to case (the `i` flag). */
  predicate MatchesIgnoringCase(s: string, j: nat, w: string) {
    j + |w| <= |s| && forall t :: 0 <= t < |w| ==> LowerChar(s[j + t]) == LowerChar(w[t])
  }

  /** `\s*`: the first position from `j` on that is not white space. */
  function SkipSpaces(s: string, j: nat): (k: nat)
    requires j <= |s|
    ensures j <= k <= |s| && (k < |s| ==> !IsSpace(s[k]))
    ensures forall i :: j <= i < k ==> IsSpace(s[i])
    decreases |s| - j
  {
    if j < |s| && IsSpace(s[j]) then SkipSpaces(s, j + 1) else j
  }

  /** The shift word at `k`, if one of the three is there. */
  function ShiftWordAt(s: string, k: nat): Shift {
    if MatchesIgnoringCase(s, k, "Manhã") then Morning
    else if MatchesIgnoringCase(s, k, "Tarde") then Afternoon
    else if MatchesIgnoringCase(s, k, "Noite") then Night
    else NoShift
  }

  /** `Turno:\s*(Manhã|Tarde|Noite)\s*` from position `j`: the shift and where the match ends. */
  function MatchFrom(s: string, j: nat): (r: Option<(Shift, nat)>)
    requires j <= |s|
    ensures r.Some? ==> r.value.0 != NoShift && j + 11 <= r.value.1 <= |s|
  {
    if MatchesIgnoringCase(s, j, "Turno:") then
      var k := SkipSpaces(s, j + 6);
      var shift := ShiftWordAt(s, k);
      if shift == NoShift then None else Some((shift, SkipSpaces(s, k + 5)))
    else None
  }

  /** The whole pattern `(^|\n)Turno:...` tried at position `i`: the start of the text, or a line break there. */
  function MatchAt(s: string, i: nat): (r: Option<(Shift, nat)>)
    requires i <= |s|
    ensures r.Some? ==> r.value.0 != NoShift && i < r.value.1 <= |s|
  {
    if i == 0 && MatchFrom(s, 0).Some? then MatchFrom(s, 0)
    else if i < |s| && s[i] == '\n' then MatchFrom(s, i + 1)
    else None
  }

  /** A match: where it starts (at the line break, if any), where it ends, and the shift it names. */
  datatype Match = Match(start: nat, end: nat, shift: Shift)

  /** The pattern matches at no position from `lo` up to, but not including, `hi`. */
  predicate NoMatchIn(s: string, lo: nat, hi: nat)
    requires hi <= |s| + 1
  {
    forall j :: lo <= j < hi ==> MatchAt(s, j).None?
  }

  lemma NoMatchExtend(s: string, i: nat, hi: nat)
    requires i < hi <= |s| + 1 && MatchAt(s, i).None? && NoMatchIn(s, i + 1, hi)
    ensures NoMatchIn(s, i, hi)
  {
  }

  /** `s.match(shiftRegex)`: the leftmost match at or after position `i`. */
  function FindMatch(s: string, i: nat): (r: Option<Match>)
    requires i <= |s|
    ensures r.Some? ==> i <= r.value.start < r.value.end <= |s| && r.value.shift != NoShift
                        && MatchAt(s, r.value.start) == Some((r.value.shift, r.value.end))
                        && NoMatchIn(s, i, r.value.start)
    ensures r.None? ==> NoMatchIn(s, i, |s| + 1)
    decreases |s| - i
  {
    match MatchAt(s, i)
    case Some((shift, end)) => Some(Match(i, end, shift))
    case None =>
      if i < |s| then
        var r := FindMatch(s, i + 1);
        NoMatchExtend(s, i, if r.Some? then r.value.start else |s| + 1);
        r
      else None
  }

  /** `extractShift(observations)`: the shift named by the first `Turno:` line, or none. */
  function ExtractShift(observations: string): (shift: Shift)
    ensures shift == NoShift <==> FindMatch(observations, 0).None?
  {
    match FindMatch(observations, 0)
    case Some(m) => m.shift
    case None => NoShift
  }

  /** `observations.replace(shiftRegex, "\n").trim()`: the first match replaced by a line break, then trimmed. */
  function Cleaned(observations: string): string {
    match FindMatch(observations, 0)
    case Some(m) => Trim(observations[..m.start] + "\n" + observations[m.end..])
    case None => Trim(observations)
  }

  /** `normalizeObservations(observations, shift)`: with a shift, `Faltou pela <label>` heads the cleaned text. */
  function NormalizeObservations(observations: string, shift: Shift): string {
    var cleaned := Cleaned(observations);
    if shift == NoShift then cleaned
    else
      var prefix := "Faltou pela " + Label(shift);
      if cleaned != "" then prefix + "\n" + cleaned else prefix
  }

  // ----- Properties of the shift line -----

  /** A `Turno:` line at the very start, written in any case, names the shift that is extracted. */
  lemma ExtractShiftAtStart(turno: string, word: string, shift: Shift, rest: string)
    requires shift != NoShift
    requires Lower(turno) == Lower("Turno:") && Lower(word) == Lower(Label(shift))
    ensures ExtractShift(turno + word + rest) == shift
  {
    var s := turno + word + rest;
    assert s[0..6] == turno;
    assert MatchesIgnoringCase(s, 0, "Turno:");
    WordStartsWithLetter(word, shift);
    assert s[6] == word[0];
    assert SkipSpaces(s, 6) == 6;
    assert s[6..11] == word;
    WordAt(s, shift);
    assert MatchFrom(s, 0) == Some((shift, SkipSpaces(s, 11)));
  }

  lemma WordStartsWithLetter(word: string, shift: Shift)
    requires shift != NoShift && Lower(word) == Lower(Label(shift))
    ensures |word| == 5 && !IsSpace(word[0])
  {
    var l := Label(shift);
    LabelStartsWithLetter(shift);
    assert |word| == |Lower(word)| == |Lower(l)| == |l|;
    assert LowerChar(word[0]) == Lower(word)[0];
    assert Lower(l)[0] == LowerChar(l[0]);
    SpaceKeepsCase(word[0]);
  }

  lemma LabelStartsWithLetter(shift: Shift)
    requires shift != NoShift
    ensures |Label(shift)| == 5
    ensures LowerChar(Label(shift)[0]) in {'m', 't', 'n'}
  {
  }

  lemma SpaceKeepsCase(c: char)
    ensures IsSpace(c) ==> LowerChar(c) == c && c != 'm' && c != 't' && c != 'n'
  {
  }

  lemma WordAt(s: string, shift: Shift)
    requires shift != NoShift && |s| >= 11 && Lower(s[6..11]) == Lower(Label(shift))
    ensures ShiftWordAt(s, 6) == shift
  {
    var w, l := s[6..11], Label(shift);
    LabelStartsWithLetter(shift);
    forall t | 0 <= t < 5
      ensures LowerChar(s[6 + t]) == LowerChar(l[t])
    {
      assert s[6 + t] == w[t];
      assert Lower(w)[t] == LowerChar(w[t]) && Lower(l)[t] == LowerChar(l[t]);
    }
    assert MatchesIgnoringCase(s, 6, l);
    var c := LowerChar(s[6]);
    assert LowerChar("Manhã"[0]) == 'm' && LowerChar("Tarde"[0]) == 't' && LowerChar("Noite"[0]) == 'n';
    match shift {
      case Morning =>
      case Afternoon =>
        assert c == 't';
      case Night =>
        assert c == 'n';
    }
  }

  /** The three shift words differ from each other whatever their case. */
  lemma DistinctWords()
    ensures Lower("Manhã") != Lower("Tarde") && Lower("Manhã") != Lower("Noite") && Lower("Tarde") != Lower("Noite")
  {
    assert Lower("Manhã")[0] == 'm' && Lower("Tarde")[0] == 't' && Lower("Noite")[0] == 'n';
  }

  /** Only the first match is replaced: the text before it is kept, and no match starts earlier. */
  lemma CleanedReplacesFirstOnly(observations: string)
    requires FindMatch(observations, 0).Some?
    ensures var m := FindMatch(observations, 0).value;
            Cleaned(observations) == Trim(observations[..m.start] + "\n" + observations[m.end..])
            && forall j :: 0 <= j < m.start ==> MatchAt(observations, j).None?
  {
  }

  /**
   * Without a shift the cleaned text is returned as it is; with one the result starts with
   * `Faltou pela <label>`, and is exactly that when nothing else remains.
   */
  lemma NormalizeCases(observations: string, shift: Shift)
    ensures shift == NoShift ==> NormalizeObservations(observations, shift) == Cleaned(observations)
    ensures shift != NoShift ==> StartsWith(NormalizeObservations(observations, shift), "Faltou pela " + Label(shift))
    ensures shift != NoShift ==>
              (NormalizeObservations(observations, shift) == "Faltou pela " + Label(shift) <==> Cleaned(observations) == "")
  {
    if shift != NoShift {
      var prefix := "Faltou pela " + Label(shift);
      var r := NormalizeObservations(observations, shift);
      assert r[..|prefix|] == prefix;
    }
  }

  // ----- The form -----

  /** `formData.hours`: empty, a number loaded from a saved absence, or text typed into the field. */
  datatype HoursEntry = NoHours | HoursNumber(value: real) | HoursText(text: string)

  /** `formData.days_off`: a number (the default or a loaded one) or text typed into the field. */
  datatype DaysEntry = DaysCount(count: int) | DaysText(text: string)

  datatype Form = Form(
    employeeId: string,
    employeeName: string,
    date: string,
    kind: string,
    hours: HoursEntry,
    shift: Shift,
    daysOff: DaysEntry,
    discountSalary: bool,
    monthReference: string,
    observations: string,
    details: map<string, string>)          // reason, cid, doctor_name, crm, status and the like, copied as they are


  const MedicalCertificate := "medical_certificate"

  const DefaultDetails: map<string, string> := map[
    "full_day" := "true", "reason" := "", "document_url" := "", "cid" := "",
    "doctor_name" := "", "crm" := "", "status" := "pending"]

  const EmptyForm := Form("", "", "", "absence", NoHours, NoShift, DaysCount(1), true, "", "", DefaultDetails)

  /** A medical certificate never discounts the salary. */
  predicate CertificateRule(f: Form) {
    f.kind == MedicalCertificate ==> !f.discountSalary
  }

  /** The effect on `[absence, open]`: a saved absence opened for editing, or the empty form for a new one. */
  function LoadForm(absence: Option<Absence>): (f: Form)
    ensures CertificateRule(f)
    ensures absence.None? ==> f == EmptyForm
    ensures absence.Some? ==> f.shift == ExtractShift(absence.value.observations)
                               && f.daysOff == DaysCount(if absence.value.daysOff != 0 then absence.value.daysOff else 1)
    // the record's own fields are copied as they are
    ensures absence.Some? ==> f.employeeId == absence.value.employeeId && f.employeeName == absence.value.employeeName
                               && f.date == absence.value.date && f.kind == absence.value.kind
                               && f.monthReference == absence.value.monthReference
                               && f.observations == absence.value.observations && f.details == absence.value.details
    // `hours || ""`: missing or zero hours load as a blank field
    ensures absence.Some? ==> f.hours == (if absence.value.hours.Some? && absence.value.hours.value != 0.0
                                          then HoursNumber(absence.value.hours.value) else NoHours)
    ensures absence.Some? && absence.value.kind != MedicalCertificate ==> f.discountSalary == absence.value.discountSalary
  {
    match absence
    case None => EmptyForm
    case Some(a) =>
      Form(a.employeeId, a.employeeName, a.date, a.kind,
           if a.hours.Some? && a.hours.value != 0.0 then HoursNumber(a.hours.value) else NoHours,
           ExtractShift(a.observations),
           DaysCount(if a.daysOff != 0 then a.daysOff else 1),
           if a.kind == MedicalCertificate then false else a.discountSalary,
           a.monthReference, a.observations, a.details)
  }

  /** Choosing a type; the effect on `formData.type` then turns the discount off for a medical certificate. */
  function SetKind(f: Form, kind: string): (g: Form)
    ensures CertificateRule(g) && g.kind == kind
    ensures kind != MedicalCertificate ==> g == f.(kind := kind)
    ensures kind == MedicalCertificate ==> g == f.(kind := kind, discountSalary := false)
  {
    var g := f.(kind := kind);
    if g.kind == MedicalCertificate && g.discountSalary then g.(discountSalary := false) else g
  }

  /** The discount checkbox; it is not shown for a medical certificate, so it changes nothing there. */
  function SetDiscount(f: Form, checked: bool): (g: Form)
    ensures f.kind != MedicalCertificate ==> g == f.(discountSalary := checked)
    ensures f.kind == MedicalCertificate ==> g == f
  {
    if f.kind != MedicalCertificate then f.(discountSalary := checked) else f
  }

  /** `handleEmployeeChange`: the id as chosen, and the employee's name, or `""` when the id is not listed. */
  function HandleEmployeeChange(f: Form, employees: seq<Employee>, employeeId: string): (g: Form)
    ensures g == f.(employeeId := employeeId, employeeName := g.employeeName)
    ensures EmployeeById(employees, employeeId).Some? ==> g.employeeName == EmployeeById(employees, employeeId).value.fullName
    ensures EmployeeById(employees, employeeId).None? ==> g.employeeName == ""
  {
    var name := match EmployeeById(employees, employeeId)
                case Some(e) => e.fullName
                case None => "";
    f.(employeeId := employeeId, employeeName := name)
  }

  /** `handleDateChange`: the date, and its first seven characters (`YYYY-MM`) as the month of reference. */
  function HandleDateChange(f: Form, date: string): (g: Form)
    ensures g == f.(date := date, monthReference := g.monthReference)
    ensures date == "" ==> g.monthReference == ""
    ensures date != "" ==> g.monthReference == date[..if |date| < 7 then |date| else 7]
  {
    f.(date := date, monthReference := if date != "" then Substring(date, 0, 7) else "")
  }

  /** Every way the form changes keeps a medical certificate free of salary discount. */
  lemma CertificateRuleKept(f: Form, employees: seq<Employee>, id: string, date: string, checked: bool)
    requires CertificateRule(f)
    ensures CertificateRule(HandleEmployeeChange(f, employees, id))
    ensures CertificateRule(HandleDateChange(f, date))
    ensures CertificateRule(SetDiscount(f, checked))
  {
  }

  // ----- Submitting -----

  const EmployeeRequired := "Funcionário é obrigatório"
  const DateRequired := "Data é obrigatória"

  /** `formData.hours ? parseFloat(formData.hours) : null`. */
  function SavedHours(h: HoursEntry): Option<real> {
    match h
    case NoHours => None
    case HoursNumber(v) => if v != 0.0 then Some(v) else None
    case HoursText(t) => if t != "" then ParseFloat(t) else None
  }

  /** `parseInt(formData.days_off) || 1`. */
  function SavedDaysOff(d: DaysEntry): (n: int)
    ensures n != 0
  {
    match d
    case DaysCount(c) => IntOrDefault(Some(c), 1)
    case DaysText(t) => IntOrDefault(ParseInt(t), 1)
  }

  /**
   * `handleSubmit`: the employee is required, then the date; a valid form is saved without its
   * shift, with the observations normalized, the hours as a number or `null`, and the days off
   * read as `parseInt(days_off) || 1`.
   */
  function Submit(f: Form): (r: Result<Absence, string>)
    ensures f.employeeId == "" ==> r == Err(EmployeeRequired)
    ensures f.employeeId != "" && f.date == "" ==> r == Err(DateRequired)
    ensures r.Ok? <==> f.employeeId != "" && f.date != ""
    ensures r.Ok? ==> r.value.observations == NormalizeObservations(f.observations, f.shift)
                      && r.value.daysOff == SavedDaysOff(f.daysOff) && r.value.hours == SavedHours(f.hours)
                      && r.value.employeeId == f.employeeId && r.value.employeeName == f.employeeName
                      && r.value.date == f.date
                      && r.value.kind == f.kind && r.value.discountSalary == f.discountSalary
                      && r.value.monthReference == f.monthReference && r.value.details == f.details
  {
    if f.employeeId == "" then Err(EmployeeRequired)
    else if f.date == "" then Err(DateRequired)
    else Ok(Absence(f.employeeId, f.employeeName, f.date, f.kind, SavedHours(f.hours),
                    SavedDaysOff(f.daysOff), f.discountSalary, f.monthReference,
                    NormalizeObservations(f.observations, f.shift), f.details))
  }

  /** Saved days off: a parsed count other than zero is kept, and zero or unreadable text becomes 1. */
  lemma SavedDaysOffDefault(t: string)
    ensures ParseInt(t) == None || ParseInt(t) == Some(0) ==> SavedDaysOff(DaysText(t)) == 1
    ensures ParseInt(t).Some? && ParseInt(t).value != 0 ==> SavedDaysOff(DaysText(t)) == ParseInt(t).value
  {
  }
}
