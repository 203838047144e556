/**
 * The date field of the vacation and absence forms (`DatePickerInput`): typed text is turned
 * into a `DD/MM/YYYY` mask, a complete in-range mask is handed on as `YYYY-MM-DD`, Backspace
 * after a slash re-groups the digits, and the pop-up calendar lists years and days.
 */
module DateMask {
  import opened Wrappers
  import opened Text
  import opened Calendar

  // ----- The mask as a function of the typed digits -----

  /** The day field: a lone first digit above 3 gets a leading zero; two digits above 31 become `31`. */
  function DayPart(ds: string): (day: string)
    requires AllDigits(ds) && |ds| >= 1
    ensures AllDigits(day)
    ensures |day| == (if |ds| == 1 && DigitValue(ds[0]) <= 3 then 1 else 2)
    ensures |day| == 2 ==> DigitsValue(day) <= 31
    ensures |ds| >= 2 ==> (DigitsValue(day) == 0 <==> DigitsValue(ds[..2]) == 0)
  {
    if |ds| == 1 then
      TwoDigitsValue('0', ds[0]);
      (if DigitValue(ds[0]) > 3 then ['0', ds[0]] else ds)
    else if DigitsValue(ds[..2]) > 31 then "31"
    else ds[..2]
  }

  /** The month field: a lone first digit above 1 gets a leading zero; two digits above 12 become `12`, and `00` becomes `01`. */
  function MonthPart(ds: string): (month: string)
    requires AllDigits(ds) && |ds| >= 3
    ensures AllDigits(month)
    ensures |month| == (if |ds| == 3 && DigitValue(ds[2]) <= 1 then 1 else 2)
    ensures |month| == 2 ==> 1 <= DigitsValue(month) <= 12
  {
    if |ds| == 3 then
      TwoDigitsValue('0', ds[2]);
      (if DigitValue(ds[2]) > 1 then ['0', ds[2]] else ds[2..3])
    else if DigitsValue(ds[2..4]) > 12 then "12"
    else if DigitsValue(ds[2..4]) == 0 then "01"
    else ds[2..4]
  }

  /** The year field: the fifth to eighth digits; any further digit is dropped. */
  function YearPart(ds: string): (year: string)
    requires AllDigits(ds) && |ds| >= 5
    ensures AllDigits(year) && 1 <= |year| <= 4
  {
    Substring(ds, 4, 8)
  }

  /** The text shown after typing: day, then `/` and month from the third digit, then `/` and year from the fifth. */
  function Mask(ds: string): string
    requires AllDigits(ds)
  {
    if ds == [] then ""
    else DayPart(ds)
         + (if |ds| >= 3 then "/" + MonthPart(ds) else "")
         + (if |ds| >= 5 then "/" + YearPart(ds) else "")
  }

  /** Digits everywhere except slashes at positions 2 and 5, at most ten characters. */
  predicate MaskShaped(f: string) {
    |f| <= 10 && forall i :: 0 <= i < |f| ==> (if i == 2 || i == 5 then f[i] == '/' else IsDigit(f[i]))
  }

  /**
   * What the field hands on after a change: `YYYY-MM-DD` for a complete mask whose day is 1 to 31
   * and month 1 to 12, `""` for an empty field, and nothing (`None`) otherwise.
   */
  function Emit(f: string): (out: Option<string>)
    requires MaskShaped(f)
  {
    if |f| == 10 then
      assert AllDigits(f[..2]) && AllDigits(f[3..5]);
      var day := DigitsValue(f[..2]);
      var month := DigitsValue(f[3..5]);
      if day <= 31 && month <= 12 && day > 0 && month > 0 then Some(f[6..] + "-" + f[3..5] + "-" + f[..2])
      else None
    else if |f| == 0 then Some("")
    else None
  }

  // ----- The change handler, step by step -----

  /** The day stage of `handleInputChange`: pads a lone digit above 3, clamps two digits above 31, and rewrites the digits to match. */
  method DayStep(numbers: string) returns (day: string, next: string)
    requires AllDigits(numbers) && |numbers| > 0
    ensures day == DayPart(numbers) && AllDigits(next)
    ensures |numbers| >= 2 ==> |next| == |numbers| && next[2..] == numbers[2..]
    ensures |numbers| == 1 ==> |next| <= 2
  {
    next := numbers;
    day := Substring(next, 0, 2);
    if |next| == 1 {
      if DigitValue(next[0]) > 3 {
        day := "0" + [next[0]];
        assert day == ['0', numbers[0]];
        TwoDigitsValue('0', numbers[0]);
        next := day + Substring(next, 1, |next|);
      }
    }
    assert |numbers| >= 2 ==> day == numbers[..2] && next == numbers;
    if |next| >= 2 {
      assert |day| == 2 && AllDigits(day);
      if DigitsValue(day) > 31 {
        day := "31";
        next := day + Substring(next, 2, |next|);
      }
    }
  }

  /** The month stage: pads a lone digit above 1, turns two digits above 12 into `12` and `00` into `01`, and rewrites the digits to match. */
  method MonthStep(numbers: string) returns (month: string, next: string)
    requires AllDigits(numbers) && |numbers| >= 3
    ensures month == MonthPart(numbers) && AllDigits(next)
    ensures |numbers| >= 4 ==> |next| == |numbers| && next[4..] == numbers[4..]
    ensures |numbers| == 3 ==> |next| <= 4
  {
    next := numbers;
    month := Substring(next, 2, 4);
    if |next| == 3 {
      if DigitValue(next[2]) > 1 {
        month := "0" + [next[2]];
        assert month == ['0', numbers[2]];
        TwoDigitsValue('0', numbers[2]);
        next := Substring(next, 0, 2) + month + Substring(next, 3, |next|);
      }
    }
    assert |numbers| >= 4 ==> month == numbers[2..4] && next == numbers;
    if |next| >= 4 {
      assert |month| == 2 && AllDigits(month);
      if DigitsValue(month) > 12 {
        month := "12";
        next := Substring(next, 0, 2) + month + Substring(next, 4, |next|);
      }
      if DigitsValue(month) == 0 {
        month := "01";
        next := Substring(next, 0, 2) + month + Substring(next, 4, |next|);
      }
    }
  }

  /**
   * `handleInputChange`: keeps the digits of the typed text, pads and clamps day and month as it
   * goes, builds the mask and decides what to hand on.
   */
  method HandleInputChange(val: string) returns (formatted: string, emitted: Option<string>)
    ensures MaskShaped(formatted)
    ensures formatted == Mask(OnlyDigits(val))
    ensures emitted == Emit(formatted)
  {
    var numbers := OnlyDigits(val);
    ghost var ds := numbers;
    formatted := "";
    if |numbers| > 0 {
      var day;
      day, numbers := DayStep(numbers);
      formatted := day;
      assert |numbers| >= 3 <==> |ds| >= 3;
      if |numbers| >= 3 {
        assert |numbers| == |ds| && numbers[2..] == ds[2..];
        assert numbers[2] == ds[2] && numbers[2..3] == ds[2..3];
        assert |ds| >= 4 ==> numbers[2..4] == ds[2..4];
        var month;
        month, numbers := MonthStep(numbers);
        assert month == MonthPart(ds);
        assert |ds| >= 4 ==> numbers[4..] == ds[4..];
        formatted := formatted + "/" + month;
      }
      assert |numbers| >= 5 <==> |ds| >= 5;
      if |numbers| >= 5 {
        assert |numbers| == |ds| && numbers[4..] == ds[4..];
        assert Substring(numbers, 4, 8) == YearPart(ds) by {
          if |ds| >= 8 { assert numbers[4..8] == numbers[4..][..4] == ds[4..][..4] == ds[4..8]; }
        }
        formatted := formatted + "/" + Substring(numbers, 4, 8);
      }
      assert formatted == Mask(ds);
    }
    MaskIsShaped(ds);
    emitted := None;
    if |formatted| == 10 && formatted[2] == '/' && formatted[5] == '/' {
      var dayText, monthText, yearText := formatted[..2], formatted[3..5], formatted[6..];
      assert AllDigits(dayText) && AllDigits(monthText);
      var day, month := DigitsValue(dayText), DigitsValue(monthText);
      if day <= 31 && month <= 12 && day > 0 && month > 0 {
        emitted := Some(yearText + "-" + monthText + "-" + dayText);
      }
    } else if |formatted| == 0 {
      emitted := Some("");
    }
  }

  // ----- Properties of the mask -----

  /** The mask is at most ten characters: digits, with `/` exactly at positions 2 and 5 when it is that long. */
  lemma MaskIsShaped(ds: string)
    requires AllDigits(ds)
    ensures MaskShaped(Mask(ds))
    ensures |Mask(ds)| == 10 <==> |ds| >= 8
    ensures ds != [] <==> Mask(ds) != ""
  {
    if ds != [] {
      var f := Mask(ds);
      var day := DayPart(ds);
      if |ds| >= 3 {
        var month := MonthPart(ds);
        if |ds| >= 5 {
          var year := YearPart(ds);
          assert f == day + "/" + month + "/" + year;
          assert forall i :: 0 <= i < |f| ==> (if i == 2 || i == 5 then f[i] == '/' else IsDigit(f[i])) by {
            forall i | 0 <= i < |f| ensures if i == 2 || i == 5 then f[i] == '/' else IsDigit(f[i]) {
              if i < 2 { assert f[i] == day[i]; }
              else if 2 < i < 5 { assert f[i] == month[i - 3]; }
              else if i > 5 { assert f[i] == year[i - 6]; }
            }
          }
        } else {
          assert f == day + "/" + month;
          assert forall i :: 0 <= i < |f| ==> (if i == 2 || i == 5 then f[i] == '/' else IsDigit(f[i])) by {
            forall i | 0 <= i < |f| ensures if i == 2 || i == 5 then f[i] == '/' else IsDigit(f[i]) {
              if i < 2 { assert f[i] == day[i]; }
              else if 2 < i { assert f[i] == month[i - 3]; }
            }
          }
        }
      } else {
        assert f == day;
      }
    }
  }

  /** A lone first digit above 3 is shown as a zero-padded day, and any other lone digit as typed. */
  lemma FirstDigitPadding(c: char)
    requires IsDigit(c)
    ensures DigitValue(c) > 3 ==> Mask([c]) == ['0', c]
    ensures DigitValue(c) <= 3 ==> Mask([c]) == [c]
  {
  }

  /**
   * Day and month clamps: with two day digits the shown day is at most 31, and with two month digits
   * the shown month is between 1 and 12; a day typed above 31 shows as `31`, a month above 12 as `12`,
   * and month `00` as `01`.
   */
  lemma MaskClamps(ds: string)
    requires AllDigits(ds) && |ds| >= 2
    ensures DigitsValue(Mask(ds)[..2]) <= 31
    ensures DigitsValue(ds[..2]) > 31 ==> Mask(ds)[..2] == "31"
    ensures DigitsValue(ds[..2]) <= 31 ==> Mask(ds)[..2] == ds[..2]
    ensures |ds| >= 4 ==> 1 <= DigitsValue(Mask(ds)[3..5]) <= 12
    ensures |ds| >= 4 && DigitsValue(ds[2..4]) > 12 ==> Mask(ds)[3..5] == "12"
    ensures |ds| >= 4 && DigitsValue(ds[2..4]) == 0 ==> Mask(ds)[3..5] == "01"
    ensures |ds| == 3 && DigitValue(ds[2]) > 1 ==> Mask(ds)[3..] == ['0', ds[2]]
  {
    MaskIsShaped(ds);
    var f := Mask(ds);
    var day := DayPart(ds);
    assert f[..2] == day;
    if |ds| >= 3 {
      assert f[3..3 + |MonthPart(ds)|] == MonthPart(ds);
    }
  }

  /** Digits beyond the eighth change nothing. */
  lemma MaskDropsExtraDigits(ds: string)
    requires AllDigits(ds) && |ds| > 8
    ensures Mask(ds) == Mask(ds[..8])
  {
    var short := ds[..8];
    assert short[..2] == ds[..2] && short[2..4] == ds[2..4];
    assert YearPart(short) == YearPart(ds);
  }

  /** The mask read back as digits: day, month and year fields without the slashes. */
  lemma MaskDigits(ds: string)
    requires AllDigits(ds) && ds != []
    ensures |ds| < 3 ==> OnlyDigits(Mask(ds)) == DayPart(ds)
    ensures 3 <= |ds| < 5 ==> OnlyDigits(Mask(ds)) == DayPart(ds) + MonthPart(ds)
    ensures |ds| >= 5 ==> OnlyDigits(Mask(ds)) == DayPart(ds) + MonthPart(ds) + YearPart(ds)
  {
    var day := DayPart(ds);
    if |ds| >= 5 {
      var month, year := MonthPart(ds), YearPart(ds);
      assert Mask(ds) == day + "/" + month + "/" + year;
      ShownDigits(day, month, year);
    } else if |ds| >= 3 {
      var month := MonthPart(ds);
      assert Mask(ds) == day + "/" + month;
      OnlyDigitsSlash(day, month);
      OnlyDigitsOfDigits(day);
      OnlyDigitsOfDigits(month);
    } else {
      assert Mask(ds) == day;
      OnlyDigitsOfDigits(day);
    }
  }

  /** Typing the shown text again shows the same text: the mask is a fixed point of itself. */
  lemma MaskIdempotent(ds: string)
    requires AllDigits(ds)
    ensures Mask(OnlyDigits(Mask(ds))) == Mask(ds)
  {
    if ds != [] {
      MaskDigits(ds);
      if |ds| < 3 {
        RemaskDay(ds, OnlyDigits(Mask(ds)));
      } else if |ds| < 5 {
        RemaskMonth(ds, OnlyDigits(Mask(ds)));
      } else {
        RemaskYear(ds, OnlyDigits(Mask(ds)));
      }
    }
  }

  lemma RemaskDay(ds: string, e: string)
    requires AllDigits(ds) && 1 <= |ds| < 3 && e == DayPart(ds)
    ensures Mask(e) == Mask(ds)
  {
    if |e| == 2 {
      assert e[..2] == e;
    }
  }

  lemma RemaskMonth(ds: string, e: string)
    requires AllDigits(ds) && 3 <= |ds| < 5 && e == DayPart(ds) + MonthPart(ds)
    ensures Mask(e) == Mask(ds)
  {
    var day, month := DayPart(ds), MonthPart(ds);
    assert e[..2] == day;
    assert DayPart(e) == day;
    if |month| == 1 {
      assert e[2] == month[0] && e[2..3] == month;
    } else {
      assert e[2..4] == month;
    }
    assert MonthPart(e) == month;
  }

  lemma RemaskYear(ds: string, e: string)
    requires AllDigits(ds) && |ds| >= 5 && e == DayPart(ds) + MonthPart(ds) + YearPart(ds)
    ensures Mask(e) == Mask(ds)
  {
    var day, month, year := DayPart(ds), MonthPart(ds), YearPart(ds);
    assert e[..2] == day && e[2..4] == month && e[4..] == year;
    assert DayPart(e) == day;
    assert MonthPart(e) == month;
    assert YearPart(e) == year;
  }

  /**
   * The field hands on `""` exactly for an empty mask and a `YYYY-MM-DD` value exactly when eight
   * digits were typed and the day is not `00`; a handed-on value has day 1 to 31 and month 1 to 12.
   */
  lemma EmitsOnlyComplete(ds: string)
    requires AllDigits(ds)
    ensures MaskShaped(Mask(ds))
    ensures Emit(Mask(ds)) == Some("") <==> ds == []
    ensures ds != [] ==> (Emit(Mask(ds)).Some? <==> |ds| >= 8 && DigitsValue(ds[..2]) > 0)
    ensures Emit(Mask(ds)).Some? && ds != [] ==>
              Emit(Mask(ds)) == Some(YearPart(ds) + "-" + MonthPart(ds) + "-" + DayPart(ds))
              && 1 <= DigitsValue(DayPart(ds)) <= 31 && 1 <= DigitsValue(MonthPart(ds)) <= 12
  {
    MaskIsShaped(ds);
    if |ds| >= 8 {
      var f := Mask(ds);
      var day, month, year := DayPart(ds), MonthPart(ds), YearPart(ds);
      assert f == day + "/" + month + "/" + year;
      assert f[..2] == day && f[3..5] == month && f[6..] == year;
    }
  }

  // ----- Stored value to display, and back -----

  /** The effect on `value`: `YYYY-MM-DD` split at `-` and shown as `DD/MM/YYYY`; a missing piece shows as `undefined`. */
  function Display(value: string): string {
    if value == "" then ""
    else
      var parts := Split(value, '-');
      Piece(parts, 2) + "/" + Piece(parts, 1) + "/" + Piece(parts, 0)
  }

  function Piece(parts: seq<string>, i: nat): string {
    if i < |parts| then parts[i] else "undefined"
  }

  /** Displaying a stored date and typing the display back hands on the same stored date, for years 0 to 9999. */
  lemma DisplayRoundTrip(d: Date)
    requires Valid(d) && 0 <= d.year < 10000
    ensures Display(FormatIso(d)) == Pad2(d.day) + "/" + Pad2(d.month) + "/" + Pad4(d.year)
    ensures Mask(OnlyDigits(Display(FormatIso(d)))) == Display(FormatIso(d))
    ensures Emit(Mask(OnlyDigits(Display(FormatIso(d))))) == Some(FormatIso(d))
  {
    var y, m, dd := Pad4(d.year), Pad2(d.month), Pad2(d.day);
    var shown := dd + "/" + m + "/" + y;
    DisplayOfIso(d);
    ShownDigits(dd, m, y);
    var ds := dd + m + y;
    PartsOfValid(d);
    assert Mask(ds) == shown;
    EmitsOnlyComplete(ds);
  }

  /** The digits of a valid date, day first, split back into its day, month and year. */
  lemma PartsOfValid(d: Date)
    requires Valid(d) && 0 <= d.year < 10000
    ensures var ds := Pad2(d.day) + Pad2(d.month) + Pad4(d.year);
            AllDigits(ds) && |ds| == 8
            && DayPart(ds) == Pad2(d.day) && MonthPart(ds) == Pad2(d.month) && YearPart(ds) == Pad4(d.year)
  {
    var y, m, dd := Pad4(d.year), Pad2(d.month), Pad2(d.day);
    var ds := dd + m + y;
    assert ds[..2] == dd && ds[2..4] == m && ds[4..] == y;
  }

  /** The stored date `yyyy-mm-dd` is shown as `dd/mm/yyyy`. */
  lemma DisplayOfIso(d: Date)
    requires Valid(d) && 0 <= d.year < 10000
    ensures Display(FormatIso(d)) == Pad2(d.day) + "/" + Pad2(d.month) + "/" + Pad4(d.year)
  {
    var y, m, dd := Pad4(d.year), Pad2(d.month), Pad2(d.day);
    var iso := FormatIso(d);
    assert iso == y + "-" + (m + "-" + dd);
    SplitAt(y, '-', m + "-" + dd);
    SplitAt(m, '-', dd);
    SplitAt(dd, '-', []);
    assert Split(iso, '-') == [y, m, dd];
  }

  /** A slash contributes no digit. */
  lemma OnlyDigitsSlash(a: string, b: string)
    ensures OnlyDigits(a + "/" + b) == OnlyDigits(a) + OnlyDigits(b)
  {
    var slash := OnlyDigits("/");
    assert "/"[1..] == [];
    assert slash == [];
    OnlyDigitsAppend(a, "/");
    OnlyDigitsAppend(a + "/", b);
  }

  lemma ShownDigits(dd: string, m: string, y: string)
    requires AllDigits(dd) && AllDigits(m) && AllDigits(y)
    ensures OnlyDigits(dd + "/" + m + "/" + y) == dd + m + y
  {
    OnlyDigitsSlash(dd + "/" + m, y);
    OnlyDigitsSlash(dd, m);
    OnlyDigitsOfDigits(dd);
    OnlyDigitsOfDigits(m);
    OnlyDigitsOfDigits(y);
  }

  // ----- Backspace after a slash -----

  /** The Backspace re-grouping: the digits as 2, 2 and 4, without padding or clamping. */
  function Group(ds: string): (f: string)
    requires AllDigits(ds)
  {
    if ds == [] then ""
    else Substring(ds, 0, 2)
         + (if |ds| >= 3 then "/" + Substring(ds, 2, 4) else "")
         + (if |ds| >= 5 then "/" + Substring(ds, 4, 8) else "")
  }

  /** Re-grouping keeps exactly the digits it was given (up to the eighth), in order. */
  lemma GroupKeepsDigits(ds: string)
    requires AllDigits(ds)
    ensures OnlyDigits(Group(ds)) == if |ds| <= 8 then ds else ds[..8]
  {
    if ds == [] {
    } else if |ds| < 3 {
      assert Group(ds) == ds;
      OnlyDigitsOfDigits(ds);
    } else if |ds| < 5 {
      var a, b := ds[..2], ds[2..];
      assert Group(ds) == a + "/" + b;
      OnlyDigitsSlash(a, b);
      OnlyDigitsOfDigits(a);
      OnlyDigitsOfDigits(b);
      assert ds == a + b;
    } else {
      GroupThreeKeepsDigits(ds);
    }
  }

  /** The case of five digits or more: day, month and year pieces. */
  lemma GroupThreeKeepsDigits(ds: string)
    requires AllDigits(ds) && |ds| >= 5
    ensures OnlyDigits(Group(ds)) == if |ds| <= 8 then ds else ds[..8]
  {
    var n := if |ds| <= 8 then |ds| else 8;
    var a, b, c := ds[..2], ds[2..4], ds[4..n];
    assert Substring(ds, 0, 2) == a && Substring(ds, 2, 4) == b;
    assert Substring(ds, 4, 8) == c;
    assert Group(ds) == a + "/" + b + "/" + c;
    assert AllDigits(a) && AllDigits(b) && AllDigits(c);
    ShownDigits(a, b, c);
    assert ds[..n] == a + b + c;
  }

  /**
   * `handleKeyDown` for Backspace: when the character before the cursor is `/`, that slash is removed,
   * the remaining digits are re-grouped, and an empty result hands on `""`; otherwise nothing happens
   * and the text stays as it was.
   */
  method HandleBackspace(inputValue: string, cursorPos: nat) returns (handled: bool, formatted: string, emitted: Option<string>)
    ensures handled <==> 0 < cursorPos <= |inputValue| && inputValue[cursorPos - 1] == '/'
    ensures !handled ==> formatted == inputValue && emitted == None
    ensures handled ==> formatted == Group(OnlyDigits(inputValue[..cursorPos - 1] + inputValue[cursorPos..]))
    ensures handled ==> (emitted == Some("") <==> formatted == "") && (emitted.Some? ==> emitted == Some(""))
  {
    handled, formatted, emitted := false, inputValue, None;
    if 0 < cursorPos <= |inputValue| && inputValue[cursorPos - 1] == '/' {
      handled := true;
      var newValue := inputValue[..cursorPos - 1] + inputValue[cursorPos..];
      var numbers := OnlyDigits(newValue);
      formatted := "";
      if |numbers| > 0 {
        formatted := Substring(numbers, 0, 2);
        if |numbers| >= 3 {
          formatted := formatted + "/" + Substring(numbers, 2, 4);
        }
        if |numbers| >= 5 {
          formatted := formatted + "/" + Substring(numbers, 4, 8);
        }
      }
      if |formatted| == 0 {
        emitted := Some("");
      }
    }
  }

  /** Removing the slash before the cursor loses no digit: the re-grouped text has the same digits, up to the eighth. */
  lemma BackspaceKeepsDigits(inputValue: string, cursorPos: nat)
    requires 0 < cursorPos <= |inputValue| && inputValue[cursorPos - 1] == '/'
    ensures OnlyDigits(inputValue[..cursorPos - 1] + inputValue[cursorPos..]) == OnlyDigits(inputValue)
    ensures var ds := OnlyDigits(inputValue);
            OnlyDigits(Group(ds)) == if |ds| <= 8 then ds else ds[..8]
  {
    var a, b := inputValue[..cursorPos - 1], inputValue[cursorPos..];
    assert inputValue == a + "/" + b;
    OnlyDigitsSlash(a, b);
    OnlyDigitsAppend(a, b);
    GroupKeepsDigits(OnlyDigits(inputValue));
  }

  // ----- The pop-up calendar -----

  /** The year picker: from ten years before the shown year to ten after, one per entry. */
  method YearOptions(currentYear: int) returns (years: seq<int>)
    ensures |years| == 21
    ensures forall i :: 0 <= i < |years| ==> years[i] == currentYear - 10 + i
  {
    years := [];
    var y := currentYear - 10;
    while y <= currentYear + 10
      invariant currentYear - 10 <= y <= currentYear + 11
      invariant |years| == y - (currentYear - 10)
      invariant forall i :: 0 <= i < |years| ==> years[i] == currentYear - 10 + i
    {
      years := years + [y];
      y := y + 1;
    }
  }

  /** The day grid: one blank per weekday before the first of the month, then the days 1 to `daysInMonth` in order. */
  method DayGrid(firstDay: nat, daysInMonth: nat) returns (days: seq<Option<nat>>)
    ensures |days| == firstDay + daysInMonth
    ensures forall i :: 0 <= i < firstDay ==> days[i] == None
    ensures forall i :: firstDay <= i < |days| ==> days[i] == Some(i - firstDay + 1)
  {
    days := [];
    var i := 0;
    while i < firstDay
      invariant 0 <= i <= firstDay && |days| == i
      invariant forall j :: 0 <= j < i ==> days[j] == None
    {
      days := days + [None];
      i := i + 1;
    }
    var d := 1;
    while d <= daysInMonth
      invariant 1 <= d <= daysInMonth + 1 && |days| == firstDay + d - 1
      invariant forall j :: 0 <= j < firstDay ==> days[j] == None
      invariant forall i :: firstDay <= i < |days| ==> days[i] == Some(i - firstDay + 1)
    {
      days := days + [Some(d)];
      d := d + 1;
    }
  }

  /** The grid of a month: blanks up to the weekday of its first day, then each of its days. */
  method MonthGrid(year: int, month: int) returns (days: seq<Option<nat>>)
    requires 1 <= month <= 12
    ensures |days| == Weekday(Date(year, month, 1)) + DaysInMonth(year, month)
    ensures forall i :: 0 <= i < |days| ==>
              days[i] == if i < Weekday(Date(year, month, 1)) then None else Some(i - Weekday(Date(year, month, 1)) + 1)
  {
    var first := Weekday(Date(year, month, 1));
    days := DayGrid(first, DaysInMonth(year, month));
  }

  /** `handleDateClick`: the stored value and the display text for a day clicked in the shown month. */
  function DateClick(year: int, month: int, day: int): (r: (string, string))
    requires 1 <= month <= 12 && 1 <= day <= DaysInMonth(year, month)
  {
    (IntToString(year) + "-" + Pad2(month) + "-" + Pad2(day),
     Pad2(day) + "/" + Pad2(month) + "/" + IntToString(year))
  }

  /** For a four-digit year, a clicked day is stored as its `YYYY-MM-DD` text and its display types back to the same value. */
  lemma DateClickConsistent(year: int, month: int, day: int)
    requires 1000 <= year < 10000 && 1 <= month <= 12 && 1 <= day <= DaysInMonth(year, month)
    ensures DateClick(year, month, day).0 == FormatIso(Date(year, month, day))
    ensures DateClick(year, month, day).1 == Display(DateClick(year, month, day).0)
    ensures Emit(Mask(OnlyDigits(DateClick(year, month, day).1))) == Some(DateClick(year, month, day).0)
  {
    NatToString4(year);
    DisplayRoundTrip(Date(year, month, day));
  }
}
