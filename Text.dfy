/**
 * The pieces of JavaScript's string and number handling that the business rules rely on:
 * the `\D` digit filter, `parseInt`/`parseFloat` on decimal text, `toLowerCase`,
 * `includes`, `startsWith`, the `<`/`<=` order on strings, `trim` and `join`.
 */
module Text {
  import opened Wrappers

  predicate IsDigit(c: char) { '0' <= c <= '9' }

  function DigitValue(c: char): nat
    requires IsDigit(c)
  {
    c as int - '0' as int
  }

  function DigitChar(d: nat): (c: char)
    requires d < 10
    ensures IsDigit(c) && DigitValue(c) == d
  {
    (('0' as int) + d) as char
  }

  predicate AllDigits(s: string) {
    forall i :: 0 <= i < |s| ==> IsDigit(s[i])
  }

  /** `s.replace(/\D/g, "")`: the digits of `s`, in order. */
  function OnlyDigits(s: string): (r: string)
    ensures AllDigits(r) && |r| <= |s|
  {
    if s == [] then [] else (if IsDigit(s[0]) then [s[0]] else []) + OnlyDigits(s[1..])
  }

  lemma {:induction false} OnlyDigitsAppend(a: string, b: string)
    ensures OnlyDigits(a + b) == OnlyDigits(a) + OnlyDigits(b)
  {
    if a == [] {
      assert a + b == b;
    } else {
      var c := a[0];
      var head := if IsDigit(c) then [c] else [];
      assert (a + b)[0] == c && (a + b)[1..] == a[1..] + b;
      OnlyDigitsAppend(a[1..], b);
      calc {
        OnlyDigits(a + b);
        head + OnlyDigits(a[1..] + b);
        head + (OnlyDigits(a[1..]) + OnlyDigits(b));
        (head + OnlyDigits(a[1..])) + OnlyDigits(b);
      }
    }
  }

  lemma {:induction false} OnlyDigitsOfDigits(s: string)
    requires AllDigits(s)
    ensures OnlyDigits(s) == s
  {
    if s != [] {
      OnlyDigitsOfDigits(s[1..]);
    }
  }

  /** The number a string of decimal digits denotes (`parseInt` of such a string). */
  function DigitsValue(s: string): nat
    requires AllDigits(s)
  {
    if s == [] then 0 else DigitsValue(s[..|s| - 1]) * 10 + DigitValue(s[|s| - 1])
  }

  /** Two-digit, zero-padded decimal text of `n` (`padStart(2, "0")`). */
  function Pad2(n: nat): (r: string)
    requires n < 100
    ensures |r| == 2 && AllDigits(r) && DigitsValue(r) == n
  {
    var r := [DigitChar(n / 10), DigitChar(n % 10)];
    assert r[..1] == [r[0]] && r[..1][..0] == [];
    assert DigitsValue(r[..1]) == n / 10;
    r
  }

  /** Four-digit, zero-padded decimal text of `n`. */
  function Pad4(n: nat): (r: string)
    requires n < 10000
    ensures |r| == 4 && AllDigits(r) && DigitsValue(r) == n
  {
    var r := Pad2(n / 100) + Pad2(n % 100);
    DigitsValueAppend(Pad2(n / 100), Pad2(n % 100));
    r
  }

  lemma {:induction false} DigitsValueAppend(a: string, b: string)
    requires AllDigits(a) && AllDigits(b) && |b| == 2
    ensures AllDigits(a + b) && DigitsValue(a + b) == DigitsValue(a) * 100 + DigitsValue(b)
  {
    var ab := a + b;
    var a1 := a + b[..1];
    assert ab[..|ab| - 1] == a1 && ab[|ab| - 1] == b[1];
    assert a1[..|a1| - 1] == a && a1[|a1| - 1] == b[0];
    assert b[..1][..0] == [];
    assert DigitsValue(a1) == DigitsValue(a) * 10 + DigitValue(b[0]);
    assert DigitsValue(b[..1]) == DigitValue(b[0]);
  }

  /** Decimal text of a natural number, without leading zeros (`String(n)`). */
  function NatToString(n: nat): (r: string)
    ensures |r| > 0 && AllDigits(r)
  {
    if n < 10 then [DigitChar(n)] else NatToString(n / 10) + [DigitChar(n % 10)]
  }

  /** `String(n)` for an integer. */
  function IntToString(n: int): (r: string)
    ensures |r| > 0
  {
    if n < 0 then "-" + NatToString(-n) else NatToString(n)
  }

  /**
   * `toLowerCase` on the characters this application meets: ASCII letters and the
   * upper-case Latin-1 letters (`À`..`Þ` except `×`); every other character is kept.
   */
  function LowerChar(c: char): char {
    if 'A' <= c <= 'Z' || ('À' <= c <= 'Þ' && c != '×') then (c as int + 32) as char else c
  }

  function Lower(s: string): (r: string)
    ensures |r| == |s| && forall i :: 0 <= i < |s| ==> r[i] == LowerChar(s[i])
  {
    if s == [] then [] else [LowerChar(s[0])] + Lower(s[1..])
  }

  predicate IsPrefix(p: string, s: string) {
    |p| <= |s| && s[..|p|] == p
  }

  /** `s.startsWith(p)`. */
  predicate StartsWith(s: string, p: string) {
    IsPrefix(p, s)
  }

  /** `hay.includes(needle)`: `needle` occurs at some position of `hay`. */
  predicate Contains(hay: string, needle: string)
    decreases |hay|
  {
    IsPrefix(needle, hay) || (hay != [] && Contains(hay[1..], needle))
  }

  lemma {:induction false} ContainsEmpty(hay: string)
    ensures Contains(hay, "")
  {
  }

  /** Case-insensitive `includes`: `a.toLowerCase().includes(b.toLowerCase())`. */
  predicate ContainsIgnoringCase(hay: string, needle: string) {
    Contains(Lower(hay), Lower(needle))
  }

  /** JavaScript's `a < b` on strings: lexicographic by character code. */
  predicate StrLess(a: string, b: string)
    decreases |a|
  {
    if a == [] then b != []
    else if b == [] then false
    else if a[0] != b[0] then a[0] < b[0]
    else StrLess(a[1..], b[1..])
  }

  /** JavaScript's `a <= b` on strings. */
  predicate StrLessEq(a: string, b: string) {
    a == b || StrLess(a, b)
  }

  /** The characters `\s` matches and `trim` removes: ECMAScript's white space and line terminators. */
  predicate IsSpace(c: char) {
    c == ' ' || c == '\t' || c == '\n' || c == '\r' || c == '\U{000B}' || c == '\U{000C}'
    || c == '\U{00A0}' || c == '\U{1680}' || ('\U{2000}' <= c <= '\U{200A}')
    || c == '\U{2028}' || c == '\U{2029}' || c == '\U{202F}' || c == '\U{205F}'
    || c == '\U{3000}' || c == '\U{FEFF}'
  }

  function TrimStart(s: string): (r: string)
    ensures |r| <= |s| && (r == [] || !IsSpace(r[0]))
  {
    if s != [] && IsSpace(s[0]) then TrimStart(s[1..]) else s
  }

  function TrimEnd(s: string): (r: string)
    ensures |r| <= |s| && (r == [] || !IsSpace(r[|r| - 1]))
  {
    if s != [] && IsSpace(s[|s| - 1]) then TrimEnd(s[..|s| - 1]) else s
  }

  /** `s.trim()`. */
  function Trim(s: string): string {
    TrimEnd(TrimStart(s))
  }

  predicate AllSpaces(s: string) {
    forall i :: 0 <= i < |s| ==> IsSpace(s[i])
  }

  lemma {:induction false} TrimStartSpaces(pre: string, t: string)
    requires AllSpaces(pre) && (t == [] || !IsSpace(t[0]))
    ensures TrimStart(pre + t) == t
  {
    if pre == [] {
      assert pre + t == t;
    } else {
      assert (pre + t)[0] == pre[0] && (pre + t)[1..] == pre[1..] + t;
      TrimStartSpaces(pre[1..], t);
    }
  }

  lemma {:induction false} TrimEndSpaces(t: string, post: string)
    requires AllSpaces(post) && (t == [] || !IsSpace(t[|t| - 1]))
    ensures TrimEnd(t + post) == t
  {
    if post == [] {
      assert t + post == t;
    } else {
      var u := t + post;
      assert u[|u| - 1] == post[|post| - 1] && u[..|u| - 1] == t + post[..|post| - 1];
      TrimEndSpaces(t, post[..|post| - 1]);
    }
  }

  /** White space around text that neither starts nor ends with white space is trimmed off, and nothing else. */
  lemma TrimAround(pre: string, t: string, post: string)
    requires AllSpaces(pre) && AllSpaces(post)
    requires t != [] && !IsSpace(t[0]) && !IsSpace(t[|t| - 1])
    ensures Trim(pre + t + post) == t
  {
    assert pre + t + post == pre + (t + post);
    assert (t + post)[0] == t[0];
    TrimStartSpaces(pre, t + post);
    TrimEndSpaces(t, post);
  }

  /** `parts.join(sep)`. */
  function Join(parts: seq<string>, sep: string): string {
    if parts == [] then ""
    else if |parts| == 1 then parts[0]
    else parts[0] + sep + Join(parts[1..], sep)
  }

  /** Length of the longest prefix of `s` made of digits. */
  function DigitRun(s: string): (n: nat)
    ensures n <= |s| && AllDigits(s[..n]) && (n < |s| ==> !IsDigit(s[n]))
  {
    if s != [] && IsDigit(s[0]) then
      var k := DigitRun(s[1..]);
      assert s[..k + 1] == [s[0]] + s[1..][..k];
      k + 1
    else 0
  }

  /** The value of the digits written after a decimal point: `0.d1 d2 …`. */
  function FractionValue(ds: string): (v: real)
    requires AllDigits(ds)
    ensures 0.0 <= v <= 1.0
  {
    if ds == [] then 0.0 else (DigitValue(ds[0]) as real + FractionValue(ds[1..])) / 10.0
  }

  /** `s` without leading white space and with an optional sign split off. */
  function SignAndRest(s: string): (bool, string) {
    var t := TrimStart(s);
    if t != [] && (t[0] == '-' || t[0] == '+') then (t[0] == '-', t[1..]) else (false, t)
  }

  /**
   * `parseInt(s)` (radix 10): optional leading white space and sign, then the longest run of
   * digits; `None` (NaN) when there is no digit.
   */
  function ParseInt(s: string): Option<int> {
    var (neg, t) := SignAndRest(s);
    var n := DigitRun(t);
    if n == 0 then None
    else Some(if neg then -(DigitsValue(t[..n]) as int) else DigitsValue(t[..n]))
  }

  /** On a non-empty string of digits, `parseInt` is the number the digits denote. */
  lemma ParseIntOfDigits(s: string)
    requires AllDigits(s) && s != []
    ensures ParseInt(s) == Some(DigitsValue(s))
  {
    assert !IsSpace(s[0]) && s[0] != '-' && s[0] != '+';
    assert SignAndRest(s) == (false, s);
    var n := DigitRun(s);
    assert n == |s|;
    assert s[..n] == s;
  }

  /**
   * `parseFloat(s)` on decimal text: optional leading white space and sign, digits, and an optional
   * `.` followed by digits; `None` (NaN) when neither part has a digit.
   */
  function ParseFloat(s: string): Option<real> {
    var (neg, t) := SignAndRest(s);
    var n := DigitRun(t);
    var whole := DigitsValue(t[..n]);
    var frac := if n < |t| && t[n] == '.' then t[n + 1..][..DigitRun(t[n + 1..])] else "";
    if n == 0 && frac == "" then None
    else
      var v := whole as real + FractionValue(frac);
      Some(if neg then -v else v)
  }

  /** JavaScript's `x || d` for a number that may be NaN: `d` when `x` is NaN or zero. */
  function OrDefault(x: Option<real>, d: real): real {
    match x
    case Some(v) => if v != 0.0 then v else d
    case None => d
  }

  /** `parseFloat(s) || 0`: the number typed, or 0 when there is none. */
  function NumberOrZero(s: string): (r: real)
    ensures ParseFloat(s).None? ==> r == 0.0
    ensures ParseFloat(s).Some? ==> r == ParseFloat(s).value
  {
    OrDefault(ParseFloat(s), 0.0)
  }

  function IntOrDefault(x: Option<int>, d: int): int {
    match x
    case Some(v) => if v != 0 then v else d
    case None => d
  }

  /** `s.substring(start, end)`: both bounds clamped to the length, swapped when out of order. */
  function Substring(s: string, start: nat, end: nat): (r: string)
    ensures start <= end <= |s| ==> r == s[start..end]
    ensures start <= end && start <= |s| < end ==> r == s[start..]
  {
    var a := if start < |s| then start else |s|;
    var b := if end < |s| then end else |s|;
    if a <= b then s[a..b] else s[b..a]
  }

  /** `s.split(c)` for a one-character separator: the pieces between separators, in order. */
  function Split(s: string, c: char): (parts: seq<string>)
    ensures |parts| >= 1
  {
    if s == [] then [""]
    else
      var rest := Split(s[1..], c);
      if s[0] == c then [""] + rest else [[s[0]] + rest[0]] + rest[1..]
  }

  /** Text free of the separator comes out of `split` whole, and one separator cuts there. */
  lemma {:induction false} SplitAt(a: string, c: char, b: string)
    requires forall i :: 0 <= i < |a| ==> a[i] != c
    ensures Split(a, c) == [a]
    ensures Split(a + [c] + b, c) == [a] + Split(b, c)
  {
    if a != [] {
      SplitAt(a[1..], c, b);
      assert (a + [c] + b)[1..] == a[1..] + [c] + b;
      assert [a[0]] + a[1..] == a;
    } else {
      assert (a + [c] + b)[1..] == b;
    }
  }

  /** A number of four digits is written by `String` as its four-digit text. */
  lemma NatToString4(n: nat)
    requires 1000 <= n < 10000
    ensures NatToString(n) == Pad4(n)
  {
    assert (n / 10) / 10 == n / 100;
    assert (n / 100) / 10 == n / 1000;
    assert (n / 10) % 10 == (n % 100) / 10;
    assert n / 1000 == (n / 100) / 10;
    assert NatToString(n / 1000) == [DigitChar(n / 1000)];
    assert NatToString(n / 100) == [DigitChar(n / 1000), DigitChar((n / 100) % 10)];
    assert NatToString(n / 10) == [DigitChar(n / 1000), DigitChar((n / 100) % 10), DigitChar((n / 10) % 10)];
  }

  /** The value of a two-digit text. */
  lemma TwoDigitsValue(a: char, b: char)
    requires IsDigit(a) && IsDigit(b)
    ensures AllDigits([a, b]) && DigitsValue([a, b]) == DigitValue(a) * 10 + DigitValue(b)
  {
    var s := [a, b];
    assert s[..|s| - 1] == [a] && s[|s| - 1] == b;
    assert [a][..0] == [];
    assert DigitsValue([a]) == DigitValue(a);
  }

  /** A separator that occurs in the text splits it into at least two pieces. */
  lemma {:induction false} SplitHasSeparator(s: string, c: char)
    requires c in s
    ensures |Split(s, c)| >= 2
  {
    if s[0] != c {
      assert c in s[1..] by {
        var i :| 0 <= i < |s| && s[i] == c;
        assert s[1..][i - 1] == c;
      }
      SplitHasSeparator(s[1..], c);
    }
  }

  /** The first piece of `s.split(c)` is the text up to the first separator, or all of it. */
  lemma {:induction false} SplitFirstPiece(s: string, c: char)
    ensures IsPrefix(Split(s, c)[0], s)
    ensures c !in Split(s, c)[0]
    ensures |Split(s, c)[0]| < |s| ==> s[|Split(s, c)[0]|] == c
  {
    if s != [] && s[0] != c {
      var t := s[1..];
      SplitFirstPiece(t, c);
      var p := Split(t, c)[0];
      var q := [s[0]] + p;
      assert Split(s, c)[0] == q;
      assert s[..|q|] == [s[0]] + t[..|p|];
      assert c !in q;
      if |q| < |s| {
        assert s[|q|] == t[|p|];
      }
    }
  }

  /** `f.padEnd(2, "0")`. */
  function PadEnd2(f: string): (r: string)
    ensures |r| == if |f| >= 2 then |f| else 2
    ensures AllDigits(f) ==> AllDigits(r)
    ensures r[..|f|] == f
    decreases 2 - |f|
  {
    if |f| >= 2 then f else PadEnd2(f + "0")
  }

  /** A run of digits ends where the first character that is not a digit stands. */
  lemma {:induction false} DigitRunStops(ds: string, rest: string)
    requires AllDigits(ds) && (rest == [] || !IsDigit(rest[0]))
    ensures DigitRun(ds + rest) == |ds|
  {
    if ds != [] {
      var s := ds + rest;
      assert s[0] == ds[0] && s[1..] == ds[1..] + rest;
      DigitRunStops(ds[1..], rest);
    }
  }

  /** The digits without their trailing zeros. */
  function StripTrailingZeros(f: string): (r: string)
    ensures |r| <= |f| && r == f[..|r|]
    ensures r == [] || r[|r| - 1] != '0'
  {
    if f != [] && f[|f| - 1] == '0' then StripTrailingZeros(f[..|f| - 1]) else f
  }
}
