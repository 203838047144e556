/**
 * `formatHorasMinutos` of the absence table: the hours of a partial absence written as
 * "N hora(s) e M minuto(s)". The value arrives as text ("1:30") or as a number whose
 * decimal digits are read as minutes (1.5 is one hour and fifty minutes).
 */
module AbsenceHours {
  import opened Wrappers
  import opened Text

  /**
   * A JavaScript number by its decimal digits: a sign, the whole part, and the fraction digits
   * without trailing zeros. Every value is written out in full; the exponent form `toString` uses
   * below 1e-6 and from 1e21 on is not modelled.
   */
  datatype Decimal = Decimal(neg: bool, whole: nat, frac: string)

  predicate Canonical(d: Decimal) {
    AllDigits(d.frac) && (d.frac == [] || d.frac[|d.frac| - 1] != '0')
  }

  const Zero := Decimal(false, 0, "")

  function Whole(n: nat): Decimal { Decimal(false, n, "") }

  predicate IsZero(d: Decimal) { d.whole == 0 && d.frac == [] }

  /** `x > 0`; NaN (`None`) is not positive. */
  predicate Positive(x: Option<Decimal>) {
    x.Some? && !x.value.neg && !IsZero(x.value)
  }

  /** `x === 1`. */
  predicate IsOne(x: Option<Decimal>) {
    x.Some? && !x.value.neg && x.value.whole == 1 && x.value.frac == []
  }

  /** `String(x)` for a number. */
  function DecimalText(d: Decimal): string {
    (if d.neg && !IsZero(d) then "-" else "")
    + NatToString(d.whole)
    + (if d.frac == [] then "" else "." + d.frac)
  }

  /**
   * `Number(s)` on text: surrounding white space is ignored, empty text is 0, and otherwise the
   * text must be a decimal literal (sign, digits, optional point and digits); anything else is NaN.
   */
  function NumberOfText(s: string): (r: Option<Decimal>)
    ensures r.Some? ==> Canonical(r.value)
  {
    var t := Trim(s);
    if t == [] then Some(Zero) else DecimalLiteral(t)
  }

  function DecimalLiteral(t: string): (r: Option<Decimal>)
    ensures r.Some? ==> Canonical(r.value)
  {
    var neg := t != [] && t[0] == '-';
    UnsignedLiteral(neg, if t != [] && (t[0] == '-' || t[0] == '+') then t[1..] else t)
  }

  /** The literal after its sign: digits, optionally a point and more digits, at least one digit in all. */
  function UnsignedLiteral(neg: bool, u: string): (r: Option<Decimal>)
    ensures r.Some? ==> Canonical(r.value)
  {
    var n := DigitRun(u);
    if n == |u| then
      (if n == 0 then None else Some(Decimal(neg, DigitsValue(u), "")))
    else if u[n] == '.' then
      var rest := u[n + 1..];
      var k := DigitRun(rest);
      if k == |rest| && (n > 0 || k > 0) then
        assert AllDigits(rest[..k]) && rest[..k] == rest;
        Some(Decimal(neg, DigitsValue(u[..n]), StripTrailingZeros(rest)))
      else None
    else None
  }

  /** The value handed to the formatter. */
  datatype HoursValue =
    | Missing                                // null, undefined, false or NaN
    | Text(s: string)                        // a string, such as "1:30" or "2.5"
    | Number(n: Decimal)                     // a number

  predicate WellFormed(v: HoursValue) {
    v.Number? ==> Canonical(v.n)
  }

  /** `!valor`: missing values, the empty string and zero. */
  predicate Falsy(v: HoursValue) {
    v.Missing? || (v.Text? && v.s == []) || (v.Number? && IsZero(v.n))
  }

  /** `Number(valor)` before the decimal branch; `None` is NaN. */
  function NumberOf(v: HoursValue): (r: Option<Decimal>)
    requires WellFormed(v)
    ensures r.Some? ==> Canonical(r.value)
  {
    match v
    case Missing => None
    case Text(s) => NumberOfText(s)
    case Number(n) => Some(n)
  }

  /** Minutes from the fraction digits: right-padded to two digits, then at most 59. */
  function FractionMinutes(frac: string): (m: nat)
    requires AllDigits(frac)
    ensures m <= 59
  {
    if frac == [] then 0
    else
      var padded := PadEnd2(frac);
      if DigitsValue(padded) > 59 then 59 else DigitsValue(padded)
  }

  /** The hours and minutes read from a value that is not falsy, before the parts are written. */
  function Amounts(v: HoursValue): (Option<Decimal>, Option<Decimal>)
    requires WellFormed(v)
  {
    if v.Text? && ':' in v.s then
      SplitHasSeparator(v.s, ':');
      var fields := Split(v.s, ':');
      (NumberOfText(fields[0]), NumberOfText(fields[1]))
    else if NumberOf(v).Some? then
      var num := NumberOf(v).value;
      (Some(Decimal(num.neg, num.whole, "")), Some(Whole(FractionMinutes(num.frac))))
    else (Some(Zero), Some(Zero))
  }

  function HoursPart(h: Decimal): string {
    DecimalText(h) + (if IsOne(Some(h)) then " hora" else " horas")
  }

  function MinutesPart(m: Decimal): string {
    DecimalText(m) + (if IsOne(Some(m)) then " minuto" else " minutos")
  }

  /** The positive amounts, each written with its unit, hours first. */
  function Parts(h: Option<Decimal>, m: Option<Decimal>): seq<string> {
    (if Positive(h) then [HoursPart(h.value)] else [])
    + (if Positive(m) then [MinutesPart(m.value)] else [])
  }

  /** The text the table shows for a value. */
  function Formatted(v: HoursValue): string
    requires WellFormed(v)
  {
    if Falsy(v) then "-"
    else
      var (h, m) := Amounts(v);
      var parts := Parts(h, m);
      if parts == [] then "0 minutos" else Join(parts, " e ")
  }

  /** `formatHorasMinutos(valor)`, reassigning `horas` and `minutos` and pushing onto `partes`. */
  method FormatHoursMinutes(v: HoursValue) returns (text: string)
    requires WellFormed(v)
    ensures text == Formatted(v)
  {
    if Falsy(v) {
      return "-";
    }
    var horas: Option<Decimal> := Some(Zero);
    var minutos: Option<Decimal> := Some(Zero);
    if v.Text? && ':' in v.s {
      SplitHasSeparator(v.s, ':');
      var fields := Split(v.s, ':');
      horas := NumberOfText(fields[0]);
      minutos := NumberOfText(fields[1]);
    } else if NumberOf(v).Some? {
      var num := NumberOf(v).value;
      horas := Some(Decimal(num.neg, num.whole, ""));
      minutos := if num.frac != [] then Some(Whole(DigitsValue(PadEnd2(num.frac)))) else Some(Zero);
      if minutos.value.whole > 59 {
        minutos := Some(Whole(59));
      }
    }
    var partes: seq<string> := [];
    if Positive(horas) {
      partes := partes + [DecimalText(horas.value) + (if IsOne(horas) then " hora" else " horas")];
    }
    if Positive(minutos) {
      partes := partes + [DecimalText(minutos.value) + (if IsOne(minutos) then " minuto" else " minutos")];
    }
    text := if |partes| > 0 then Join(partes, " e ") else "0 minutos";
  }

  // ----- What the formatter promises -----

  lemma PartsAreLong(h: Option<Decimal>, m: Option<Decimal>)
    ensures forall i :: 0 <= i < |Parts(h, m)| ==> |Parts(h, m)[i]| >= 6
  {
  }

  /**
   * The text is `-` exactly for falsy values; otherwise it is `0 minutos` when neither amount is
   * positive, and the hours part, then ` e `, then the minutes part when both are.
   */
  lemma FormattedCases(v: HoursValue)
    requires WellFormed(v)
    ensures Formatted(v) == "-" <==> Falsy(v)
    ensures !Falsy(v) && !Positive(Amounts(v).0) && !Positive(Amounts(v).1) ==> Formatted(v) == "0 minutos"
    ensures !Falsy(v) && Positive(Amounts(v).0) && Positive(Amounts(v).1) ==>
              Formatted(v) == HoursPart(Amounts(v).0.value) + " e " + MinutesPart(Amounts(v).1.value)
    ensures !Falsy(v) && Positive(Amounts(v).0) && !Positive(Amounts(v).1) ==>
              Formatted(v) == HoursPart(Amounts(v).0.value)
    ensures !Falsy(v) && !Positive(Amounts(v).0) && Positive(Amounts(v).1) ==>
              Formatted(v) == MinutesPart(Amounts(v).1.value)
  {
    if !Falsy(v) {
      var (h, m) := Amounts(v);
      var parts := Parts(h, m);
      PartsAreLong(h, m);
      if parts != [] {
        assert |Join(parts, " e ")| >= |parts[0]|;
      }
      if Positive(h) && Positive(m) {
        assert parts[1..] == [MinutesPart(m.value)];
      }
    }
  }

  /** The unit is singular exactly for the amount 1. */
  lemma UnitWording(d: Decimal)
    ensures HoursPart(d) == DecimalText(d) + " hora" <==> IsOne(Some(d))
    ensures MinutesPart(d) == DecimalText(d) + " minuto" <==> IsOne(Some(d))
  {
  }

  /**
   * A number is read as whole hours and, from its fraction digits padded on the right to two,
   * minutes capped at 59: one fraction digit is tens of minutes.
   */
  lemma NumberReading(d: Decimal)
    requires Canonical(d) && !IsZero(d)
    ensures Amounts(Number(d)) == (Some(Decimal(d.neg, d.whole, "")), Some(Whole(FractionMinutes(d.frac))))
    ensures |d.frac| == 1 ==> FractionMinutes(d.frac) == if DigitValue(d.frac[0]) >= 6 then 59 else 10 * DigitValue(d.frac[0])
    ensures |d.frac| >= 2 ==> FractionMinutes(d.frac) == if DigitsValue(d.frac) > 59 then 59 else DigitsValue(d.frac)
  {
    if |d.frac| == 1 {
      var p := PadEnd2(d.frac);
      assert p == [d.frac[0], '0'];
      TwoDigitsValue(d.frac[0], '0');
    }
  }

  /** 1.5 is one hour and fifty minutes, as the comment beside the formatter describes. */
  lemma OneAndAHalf()
    ensures Formatted(Number(Decimal(false, 1, "5"))) == "1 hora e 50 minutos"
  {
    OneAndAHalfAmounts();
    BothParts(Whole(1), Whole(50));
    OneHour();
    assert NatToString(50) == "50";
  }

  /** 1.5 splits into one hour and fifty minutes. */
  lemma OneAndAHalfAmounts()
    ensures Amounts(Number(Decimal(false, 1, "5"))) == (Some(Whole(1)), Some(Whole(50)))
  {
    var d := Decimal(false, 1, "5");
    NumberReading(d);
    assert DigitValue('5') == 5;
    assert FractionMinutes("5") == 50;
  }

  /** With both amounts positive, the text is the hours part, ` e `, and the minutes part. */
  lemma BothParts(h: Decimal, m: Decimal)
    requires Positive(Some(h)) && Positive(Some(m))
    ensures Join(Parts(Some(h), Some(m)), " e ") == HoursPart(h) + " e " + MinutesPart(m)
  {
    assert Parts(Some(h), Some(m)) == [HoursPart(h), MinutesPart(m)];
    assert [HoursPart(h), MinutesPart(m)][1..] == [MinutesPart(m)];
  }

  lemma OneHour()
    ensures HoursPart(Whole(1)) == "1 hora"
  {
    assert NatToString(1) == "1";
  }

  /** `Number` of a plain run of digits is the number they denote. */
  lemma NumberOfDigits(s: string)
    requires AllDigits(s) && s != []
    ensures NumberOfText(s) == Some(Whole(DigitsValue(s)))
  {
    assert !IsSpace(s[0]) && !IsSpace(s[|s| - 1]);
    assert TrimStart(s) == s && TrimEnd(s) == s;
    assert s[0] != '-' && s[0] != '+';
    var n := DigitRun(s);
    assert n == |s|;
  }

  /** With its sign removed, a literal is its digits. */
  lemma Unsigned(sign: string, body: string)
    requires sign == "" || sign == "+" || sign == "-"
    requires body != [] && body[0] != '-' && body[0] != '+'
    ensures var t := sign + body;
            (if t != [] && (t[0] == '-' || t[0] == '+') then t[1..] else t) == body
            && (t != [] && t[0] == '-' <==> sign == "-")
  {
    var t := sign + body;
    if sign == "" {
      assert t == body;
    } else {
      assert t[0] == sign[0] && t[1..] == body;
    }
  }

  /** An optionally signed run of digits is the whole number it spells, with that sign. */
  lemma IntegerLiteral(sign: string, ds: string)
    requires sign == "" || sign == "+" || sign == "-"
    requires AllDigits(ds) && ds != []
    ensures DecimalLiteral(sign + ds) == Some(Decimal(sign == "-", DigitsValue(ds), ""))
  {
    Unsigned(sign, ds);
    DigitRunStops(ds, []);
    assert ds + [] == ds;
  }

  /** An optionally signed decimal literal: its whole digits, and its fraction digits without trailing zeros. */
  lemma FractionLiteral(sign: string, ds: string, fs: string)
    requires sign == "" || sign == "+" || sign == "-"
    requires AllDigits(ds) && AllDigits(fs) && (ds != [] || fs != [])
    ensures DecimalLiteral(sign + ds + "." + fs) == Some(Decimal(sign == "-", DigitsValue(ds), StripTrailingZeros(fs)))
  {
    var u := ds + ("." + fs);
    assert sign + ds + "." + fs == sign + u;
    assert u[0] == (if ds != [] then ds[0] else '.');
    Unsigned(sign, u);
    UnsignedFraction(sign == "-", ds, fs);
  }

  lemma UnsignedFraction(neg: bool, ds: string, fs: string)
    requires AllDigits(ds) && AllDigits(fs) && (ds != [] || fs != [])
    ensures UnsignedLiteral(neg, ds + ("." + fs)) == Some(Decimal(neg, DigitsValue(ds), StripTrailingZeros(fs)))
  {
    var u := ds + ("." + fs);
    DigitRunStops(ds, "." + fs);
    assert u[|ds|] == '.' && u[..|ds|] == ds;
    var rest := u[|ds| + 1..];
    assert rest == fs;
    DigitRunStops(fs, []);
    assert fs + [] == fs;
  }

  /**
   * `Number(text)` of a literal with white space around it: the sign, the whole digits and the
   * fraction digits (trailing zeros dropped) it spells.
   */
  lemma NumberOfLiteral(pre: string, sign: string, ds: string, fs: string, post: string)
    requires AllSpaces(pre) && AllSpaces(post)
    requires sign == "" || sign == "+" || sign == "-"
    requires AllDigits(ds) && AllDigits(fs)
    ensures ds != [] ==> NumberOfText(pre + (sign + ds) + post) == Some(Decimal(sign == "-", DigitsValue(ds), ""))
    ensures ds != [] || fs != [] ==>
              NumberOfText(pre + (sign + ds + "." + fs) + post)
              == Some(Decimal(sign == "-", DigitsValue(ds), StripTrailingZeros(fs)))
  {
    if ds != [] {
      var t := sign + ds;
      assert t[|t| - 1] == ds[|ds| - 1] && !IsSpace(t[0]);
      TrimAround(pre, t, post);
      IntegerLiteral(sign, ds);
    }
    if ds != [] || fs != [] {
      var t := sign + ds + "." + fs;
      assert !IsSpace(t[0]);
      assert !IsSpace(t[|t| - 1]) by {
        if fs != [] {
          assert t[|t| - 1] == fs[|fs| - 1];
        }
      }
      TrimAround(pre, t, post);
      FractionLiteral(sign, ds, fs);
    }
  }

  /**
   * Minutes written after a colon are taken as they are, without the cap at 59: with both parts
   * positive, `h:m` is written as `h` hours and `m` minutes, whatever `m` is.
   */
  lemma ColonMinutesUncapped(hs: string, ms: string)
    requires AllDigits(hs) && hs != [] && AllDigits(ms) && ms != []
    requires DigitsValue(hs) > 0 && DigitsValue(ms) > 0
    ensures Formatted(Text(hs + ":" + ms)) == HoursPart(Whole(DigitsValue(hs))) + " e " + MinutesPart(Whole(DigitsValue(ms)))
  {
    var v := Text(hs + ":" + ms);
    assert !Falsy(v) by { assert |hs + ":" + ms| > 0; }
    ColonReading(hs, ms);
    FormattedCases(v);
  }

  /**
   * Any `h:m` text of two digit runs reads as `h` hours and `m` minutes, the minutes taken as
   * they are: the colon branch has no cap at 59.
   */
  lemma ColonReading(hs: string, ms: string)
    requires AllDigits(hs) && hs != [] && AllDigits(ms) && ms != []
    ensures Amounts(Text(hs + ":" + ms)) == (Some(Whole(DigitsValue(hs))), Some(Whole(DigitsValue(ms))))
  {
    var s := hs + ":" + ms;
    assert s == hs + [':'] + ms;
    assert Split(s, ':') == [hs, ms] by {
      SplitAt(hs, ':', ms);
      SplitAt(ms, ':', []);
    }
    assert ':' in s by { assert s[|hs|] == ':'; }
    NumberOfDigits(hs);
    NumberOfDigits(ms);
  }
}
