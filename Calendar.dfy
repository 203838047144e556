/**
 * Proleptic Gregorian calendar dates, as `moment` handles them for the vacation rules:
 * adding days, adding years with the 29 February to 28 February clamp, and the
 * `YYYY-MM-DD` text the forms store.
 */
module Calendar {
  import opened Wrappers
  import opened Text

  datatype Date = Date(year: int, month: int, day: int)

  predicate IsLeap(y: int) {
    (y % 4 == 0 && y % 100 != 0) || y % 400 == 0
  }

  function DaysInMonth(y: int, m: int): (n: int)
    ensures 28 <= n <= 31
  {
    if m == 2 then (if IsLeap(y) then 29 else 28)
    else if m == 4 || m == 6 || m == 9 || m == 11 then 30
    else 31
  }

  predicate Valid(d: Date) {
    1 <= d.month <= 12 && 1 <= d.day <= DaysInMonth(d.year, d.month)
  }

  /** Chronological order: `a` is strictly earlier than `b`. */
  predicate Before(a: Date, b: Date) {
    a.year < b.year
    || (a.year == b.year && a.month < b.month)
    || (a.year == b.year && a.month == b.month && a.day < b.day)
  }

  predicate NotAfter(a: Date, b: Date) {
    a == b || Before(a, b)
  }

  function NextDay(d: Date): (r: Date)
    requires Valid(d)
    ensures Valid(r) && Before(d, r)
  {
    if d.day < DaysInMonth(d.year, d.month) then Date(d.year, d.month, d.day + 1)
    else if d.month < 12 then Date(d.year, d.month + 1, 1)
    else Date(d.year + 1, 1, 1)
  }

  function PrevDay(d: Date): (r: Date)
    requires Valid(d)
    ensures Valid(r) && Before(r, d)
  {
    if d.day > 1 then Date(d.year, d.month, d.day - 1)
    else if d.month > 1 then Date(d.year, d.month - 1, DaysInMonth(d.year, d.month - 1))
    else Date(d.year - 1, 12, 31)
  }

  /** No valid date lies strictly between a date and the next one. */
  lemma NextDayIsImmediate(d: Date, x: Date)
    requires Valid(d) && Valid(x)
    ensures Before(d, x) <==> NotAfter(NextDay(d), x)
  {
  }

  lemma NextPrev(d: Date)
    requires Valid(d)
    ensures NextDay(PrevDay(d)) == d && PrevDay(NextDay(d)) == d
  {
  }

  /** `moment(d).add(n, "days")`, stepping one calendar day at a time. */
  function AddDays(d: Date, n: int): (r: Date)
    requires Valid(d)
    ensures Valid(r)
    decreases if n < 0 then -n else n
  {
    if n == 0 then d
    else if n > 0 then NextDay(AddDays(d, n - 1))
    else PrevDay(AddDays(d, n + 1))
  }

  /** One more day added is the next calendar day, whatever the sign of `n`. */
  lemma AddDaysStep(d: Date, n: int)
    requires Valid(d)
    ensures AddDays(d, n + 1) == NextDay(AddDays(d, n))
  {
    if n < 0 {
      NextPrev(AddDays(d, n + 1));
    }
  }

  /** Adding a non-negative number of days never moves a date backwards, and a positive one moves it forwards. */
  lemma {:induction false} AddDaysMonotone(d: Date, n: int)
    requires Valid(d) && n >= 0
    ensures NotAfter(d, AddDays(d, n))
    ensures n > 0 ==> Before(d, AddDays(d, n))
  {
    if n > 0 {
      AddDaysMonotone(d, n - 1);
      BeforeTransitive(d, AddDays(d, n - 1), AddDays(d, n));
    }
  }

  lemma BeforeTransitive(a: Date, b: Date, c: Date)
    requires NotAfter(a, b) && Before(b, c)
    ensures Before(a, c)
  {
  }

  /** `clone().year(y)` in `moment`: same month and day, the day clamped to the month's length. */
  function WithYear(d: Date, y: int): (r: Date)
    requires Valid(d)
    ensures Valid(r) && r.year == y && r.month == d.month
    ensures r.day == if d.day <= DaysInMonth(y, d.month) then d.day else DaysInMonth(y, d.month)
  {
    Date(y, d.month, if d.day <= DaysInMonth(y, d.month) then d.day else DaysInMonth(y, d.month))
  }

  /** `moment(d).add(k, "years")`: the clamp turns 29 February into 28 February in a common year. */
  function AddYears(d: Date, k: int): (r: Date)
    requires Valid(d)
    ensures Valid(r)
  {
    WithYear(d, d.year + k)
  }

  /** Only 29 February is moved by a change of year; every other date keeps its month and day. */
  lemma AddYearsKeepsMonthDay(d: Date, k: int)
    requires Valid(d)
    ensures AddYears(d, k).month == d.month
    ensures !(d.month == 2 && d.day == 29) ==> AddYears(d, k).day == d.day
    ensures d.month == 2 && d.day == 29 ==>
              AddYears(d, k).day == (if IsLeap(d.year + k) then 29 else 28)
  {
  }

  /** The `YYYY-MM-DD` text of a date, as `format("YYYY-MM-DD")` writes it. */
  function FormatIso(d: Date): (s: string)
    requires Valid(d)
  {
    (if 0 <= d.year < 10000 then Pad4(d.year) else IntToString(d.year))
    + "-" + Pad2(d.month) + "-" + Pad2(d.day)
  }

  /** The text `moment` writes for a date it could not parse. */
  const InvalidDateText: string := "Invalid date"

  predicate IsoShaped(s: string) {
    |s| == 10 && s[4] == '-' && s[7] == '-'
    && AllDigits(s[..4]) && AllDigits(s[5..7]) && AllDigits(s[8..])
  }

  /** Reads a `YYYY-MM-DD` text; `None` for any other text and for dates that do not exist. */
  function ParseIso(s: string): (r: Option<Date>)
    ensures r.Some? ==> Valid(r.value) && 0 <= r.value.year < 10000
  {
    if IsoShaped(s) then
      var d := Date(DigitsValue(s[..4]), DigitsValue(s[5..7]), DigitsValue(s[8..]));
      if Valid(d) && d.year < 10000 then Some(d) else None
    else None
  }

  /** Writing a date of years 0 to 9999 and reading it back gives the same date. */
  lemma ParseFormatIso(d: Date)
    requires Valid(d) && 0 <= d.year < 10000
    ensures ParseIso(FormatIso(d)) == Some(d)
  {
    var s := FormatIso(d);
    assert s[..4] == Pad4(d.year);
    assert s[5..7] == Pad2(d.month);
    assert s[8..] == Pad2(d.day);
  }

  /** The `YYYY-MM-DD` text of a parsed date is the text it was read from. */
  lemma FormatParseIso(s: string)
    requires ParseIso(s).Some?
    ensures FormatIso(ParseIso(s).value) == s
  {
    var d := ParseIso(s).value;
    DigitsFixed(s[..4]);
    DigitsFixed(s[5..7]);
    DigitsFixed(s[8..]);
    assert s == s[..4] + "-" + s[5..7] + "-" + s[8..];
  }

  /** A fixed-width digit text is the zero-padded text of its own value. */
  lemma DigitsFixed(t: string)
    requires AllDigits(t) && (|t| == 2 || |t| == 4)
    ensures |t| == 2 ==> DigitsValue(t) < 100 && Pad2(DigitsValue(t)) == t
    ensures |t| == 4 ==> DigitsValue(t) < 10000 && Pad4(DigitsValue(t)) == t
  {
    if |t| == 2 {
      Digits2(t);
    } else {
      var hi, lo := t[..2], t[2..];
      assert t == hi + lo;
      DigitsValueAppend(hi, lo);
      Digits2(hi);
      Digits2(lo);
      var v := DigitsValue(t);
      assert v / 100 == DigitsValue(hi) && v % 100 == DigitsValue(lo);
    }
  }

  lemma Digits2(t: string)
    requires AllDigits(t) && |t| == 2
    ensures DigitsValue(t) < 100 && Pad2(DigitsValue(t)) == t
  {
    assert t[..1][..0] == [];
    assert DigitsValue(t[..1]) == DigitValue(t[0]);
    var v := DigitsValue(t);
    assert v == DigitValue(t[0]) * 10 + DigitValue(t[1]);
    assert v / 10 == DigitValue(t[0]) && v % 10 == DigitValue(t[1]);
    assert DigitChar(DigitValue(t[0])) == t[0];
    assert DigitChar(DigitValue(t[1])) == t[1];
  }

  /** Days since 1970-01-01 (negative before it), used to order dates and to find the weekday. */
  function DayNumber(d: Date): int {
    var y := if d.month <= 2 then d.year - 1 else d.year;
    var era := y / 400;                 // Euclidean, so yoe lies in 0..399 for every year
    var yoe := y - era * 400;
    var mp := (d.month + 9) % 12;
    var doy := (153 * mp + 2) / 5 + d.day - 1;
    var doe := yoe * 365 + yoe / 4 - yoe / 100 + doy;
    era * 146097 + doe - 719468
  }

  /** `getDay()`: 0 for Sunday up to 6 for Saturday (1970-01-01 was a Thursday). */
  function Weekday(d: Date): (w: nat)
    ensures w < 7
  {
    (DayNumber(d) + 4) % 7
  }
}
