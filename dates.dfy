/** Calendar dates as the components read them: the `YYYY-MM-DD` strings the
    date inputs produce and the backend returns (optionally followed by
    `T` and a time), turned into (year, month, day) triples. */
module Dates {
  import opened Text
  import opened Options

  /** A calendar date; `month` counts from 1 (the source converts to and from
      JavaScript's 0-based months with `month - 1`). */
  datatype Date = Date(year: int, month: int, day: int)

  predicate IsLeapYear(year: int) {
    (year % 4 == 0 && year % 100 != 0) || year % 400 == 0
  }

  function DaysInMonth(year: int, month: int): (n: int)
    requires 1 <= month <= 12
    ensures 28 <= n <= 31
  {
    if month == 2 then (if IsLeapYear(year) then 29 else 28)
    else if month == 4 || month == 6 || month == 9 || month == 11 then 30
    else 31
  }

  /** A date that exists in the proleptic Gregorian calendar. */
  predicate ValidDate(d: Date) {
    1 <= d.month <= 12 && 1 <= d.day <= DaysInMonth(d.year, d.month)
  }

  /** Strictly earlier, comparing (year, month, day) lexicographically. */
  predicate Before(a: Date, b: Date) {
    || a.year < b.year
    || (a.year == b.year && a.month < b.month)
    || (a.year == b.year && a.month == b.month && a.day < b.day)
  }

  /** The test `/^\d{4}-\d{2}-\d{2}/` of ClientDetails: the string starts with
      an ISO calendar date, perhaps followed by more text. */
  predicate IsoDatePrefix(s: string) {
    && |s| >= 10
    && AllDigits(s[..4]) && s[4] == '-'
    && AllDigits(s[5..7]) && s[7] == '-'
    && AllDigits(s[8..10])
  }

  predicate NoT(s: string) {
    forall i :: 0 <= i < |s| ==> s[i] != 'T'
  }

  /** `s.split("T")[0]`: everything before the first `T`. */
  function BeforeT(s: string): (r: string)
    ensures |r| <= |s| && r == s[..|r|]
    ensures NoT(r)
    ensures |r| == |s| || s[|r|] == 'T'
  {
    if s == [] || s[0] == 'T' then
      []
    else
      var q := BeforeT(s[1..]);
      assert s[..|q| + 1] == [s[0]] + s[1..][..|q|];
      [s[0]] + q
  }

  /** The three facts BeforeT ensures determine its result. */
  lemma BeforeTUnique(s: string, r: string)
    requires |r| <= |s| && r == s[..|r|] && NoT(r) && (|r| == |s| || s[|r|] == 'T')
    ensures BeforeT(s) == r
  {
    var q := BeforeT(s);
    forall i | 0 <= i < |r|
      ensures s[i] != 'T'
    {
      assert r[i] == s[i];
    }
    forall i | 0 <= i < |q|
      ensures s[i] != 'T'
    {
      assert q[i] == s[i];
    }
  }

  /** `s.split("-")[0]`: everything before the first `-`. */
  function BeforeDash(s: string): (r: string)
    ensures |r| <= |s| && r == s[..|r|]
    ensures forall i :: 0 <= i < |r| ==> r[i] != '-'
    ensures |r| == |s| || s[|r|] == '-'
  {
    if s == [] || s[0] == '-' then
      []
    else
      var q := BeforeDash(s[1..]);
      assert s[..|q| + 1] == [s[0]] + s[1..][..|q|];
      [s[0]] + q
  }

  /** The year `new Date(year, month - 1, day)` gives: JavaScript reads the
      years 0 to 99 as 1900 to 1999. */
  function ConstructorYear(year: nat): (y: nat)
    ensures year <= 99 ==> y == 1900 + year
    ensures year > 99 ==> y == year
  {
    if year <= 99 then 1900 + year else year
  }

  /** The day field of an ISO string: the text of `split("T")[0]` between
      the second `-` and the next `-` (or the end). It starts with the two
      digits of the date. */
  function DayField(s: string): (r: string)
    requires IsoDatePrefix(s)
    ensures |r| >= 2 && IsDigit(r[0]) && IsDigit(r[1])
    ensures r[..2] == s[8..10]
  {
    var part := BeforeT(s);
    IsoDatePrefixHasNoT(s);
    BeforeTPrefix(s, 10);
    assert part[8..][..2] == s[8..10];
    BeforeDash(part[8..])
  }

  /** The exponent `e12`, `E+3` or `e-2` of a decimal literal, or nothing;
      `None` when the text is not of that form. */
  function ExponentValue(x: string): (r: Option<int>)
    ensures x == [] ==> r == Some(0)
    ensures r.Some? && x != [] ==> x[0] == 'e' || x[0] == 'E'
  {
    if x == [] then
      Some(0)
    else if x[0] != 'e' && x[0] != 'E' then
      None
    else
      var y := x[1..];
      if y != [] && (y[0] == '+' || y[0] == '-') then
        if |y| >= 2 && AllDigits(y[1..]) then
          var v: int := DigitsValue(y[1..]);
          Some(if y[0] == '-' then -v else v)
        else
          None
      else if y != [] && AllDigits(y) then
        Some(DigitsValue(y))
      else
        None
  }

  /** The digit string `digits` read as a number and scaled by `10^shift`,
      truncated toward zero, as `new Date` truncates a day: a negative shift
      drops that many digits at the end. */
  function Shifted(digits: string, shift: int): (r: nat)
    requires AllDigits(digits)
    ensures shift == 0 ==> r == DigitsValue(digits)
  {
    if shift >= 0 then
      DigitsValue(digits) * Pow10(shift)
    else if -shift >= |digits| then
      0
    else
      DigitsValue(digits[..|digits| + shift])
  }

  /** The exponent part of a decimal literal after its digits, with `fraction`
      digits to undo. */
  function ExponentPart(digits: string, fraction: nat, tail: string): (r: Option<nat>)
    requires AllDigits(digits)
    ensures tail == [] ==> r == Some(Shifted(digits, -(fraction as int)))
  {
    match ExponentValue(tail)
    case None => None
    case Some(e) => Some(Shifted(digits, e - fraction))
  }

  /** The optional `.digits` of a decimal literal after its whole part. */
  function FractionPart(whole: string, rest: string): (r: Option<nat>)
    requires AllDigits(whole)
    ensures rest == [] ==> r == Some(DigitsValue(whole))
  {
    if rest != [] && rest[0] == '.' then
      var k := DigitPrefixLength(rest[1..]);
      DigitsValueAppend(whole, rest[1..][..k]);
      ExponentPart(whole + rest[1..][..k], k, rest[1..][k..])
    else
      ExponentPart(whole, 0, rest)
  }

  /** `Math.trunc(Number(u))` for a text without surrounding white space that
      starts with a digit: the whole digits, then the fraction and the
      exponent; `None` (NaN) when text is left over. */
  function DecimalTrunc(u: string): (r: Option<nat>)
    requires u != [] && IsDigit(u[0])
    ensures AllDigits(u) ==> r == Some(DigitsValue(u))
  {
    var n := DigitPrefixLength(u);
    assert AllDigits(u) ==> n == |u| && u[..n] == u;
    FractionPart(u[..n], u[n..])
  }

  /** The day `new Date(year, month - 1, day)` takes from the field `t`:
      `Number(t)` truncated to an integer, `None` when `Number` gives NaN.
      `Number` removes white space at both ends and reads a decimal literal,
      digits with an optional fraction and an optional exponent. The field
      starts with two digits, so the `0x`, `0o` and `0b` prefixes, signs,
      `Infinity` and the empty text cannot occur. */
  function DayNumber(t: string): (r: Option<nat>)
    requires |t| >= 2 && IsDigit(t[0]) && IsDigit(t[1])
    ensures AllDigits(t) ==> r == Some(DigitsValue(t))
  {
    assert AllDigits(t) ==> Trim(t) == t;
    DecimalTrunc(Trim(t))
  }

  /** The ISO branch of `formatDate` and `getAge`: take the part before the
      first `T`, split it at `-`, read the three numbers with `Number` and
      build the local date `new Date(year, month - 1, day)`. The year and
      month fields are the digits of the date; the day field may carry more
      text, which `Number` reads as DayNumber says. */
  function IsoDate(s: string): (r: Option<Date>)
    requires IsoDatePrefix(s)
    ensures r.Some? ==> ValidDate(r.value)
    ensures r.Some? ==> r.value.year == ConstructorYear(DigitsValue(s[..4]))
    ensures r.Some? ==> r.value.month == DigitsValue(s[5..7])
    ensures r.Some? ==> DayNumber(DayField(s)) == Some(r.value.day)
    ensures r.None? <==>
      || DayNumber(DayField(s)).None?
      || !ValidDate(Date(ConstructorYear(DigitsValue(s[..4])), DigitsValue(s[5..7]), DayNumber(DayField(s)).value))
  {
    var part := BeforeT(s);
    IsoDatePrefixHasNoT(s);
    BeforeTPrefix(s, 10);
    assert part[..4] == s[..4] && part[5..7] == s[5..7];
    match DayNumber(DayField(s))
    case None => None
    case Some(day) =>
      var d := Date(ConstructorYear(DigitsValue(part[..4])), DigitsValue(part[5..7]), day);
      if ValidDate(d) then Some(d) else None
  }

  /** A `T`-free prefix of `s` survives `split("T")[0]`. */
  lemma BeforeTPrefix(s: string, n: nat)
    requires n <= |s| && NoT(s[..n])
    ensures |BeforeT(s)| >= n && BeforeT(s)[..n] == s[..n]
  {
    forall i | 0 <= i < n
      ensures s[i] != 'T'
    {
      assert s[..n][i] == s[i];
    }
  }

  /** The ISO date at the start of a string holds no `T`. */
  lemma IsoDatePrefixHasNoT(s: string)
    requires IsoDatePrefix(s)
    ensures NoT(s[..10])
  {
    forall i | 0 <= i < 10
      ensures s[..10][i] != 'T'
    {
      if i < 4 {
        assert s[..4][i] == s[i];
      } else if 5 <= i < 7 {
        assert s[5..7][i - 5] == s[i];
      } else if 8 <= i {
        assert s[8..10][i - 8] == s[i];
      }
    }
  }

  /** Only the date part counts: a string and its part before the first `T`
      parse to the same date. */
  lemma {:induction false} IsoDateOnlyDatePart(s: string)
    requires IsoDatePrefix(s)
    ensures IsoDatePrefix(BeforeT(s))
    ensures IsoDate(BeforeT(s)) == IsoDate(s)
  {
    var part := BeforeT(s);
    IsoDatePrefixHasNoT(s);
    BeforeTPrefix(s, 10);
    assert part[..10] == s[..10];
    assert part[..4] == s[..4] && part[5..7] == s[5..7] && part[8..10] == s[8..10];
    BeforeTUnique(part, part);
  }

  /** Hence `"YYYY-MM-DD"` and `"YYYY-MM-DDT…"` give the same date. */
  lemma IsoDateIgnoresTime(date: string, time: string)
    requires |date| == 10 && IsoDatePrefix(date)
    ensures IsoDatePrefix(date + "T" + time)
    ensures IsoDate(date + "T" + time) == IsoDate(date)
  {
    var s := date + "T" + time;
    assert s[..10] == date;
    assert s[..4] == date[..4] && s[5..7] == date[5..7] && s[8..10] == date[8..10];
    IsoDatePrefixHasNoT(date);
    assert date[..10] == date;
    BeforeTUnique(s, date);
    BeforeTUnique(date, date);
    IsoDateOnlyDatePart(s);
  }

  /** `new Date(s)` for the `YYYY-MM-DD` text of an `<input type="date">`; any
      other text goes to `fallback`, which stands for JavaScript's own date
      parser. */
  function ParseDateInput(s: string, fallback: string -> Option<Date>): (r: Option<Date>)
    ensures |s| == 10 && IsoDatePrefix(s) && r.Some? ==> ValidDate(r.value)
    ensures |s| == 10 && IsoDatePrefix(s) && r.Some? ==>
      r.value == Date(DigitsValue(s[..4]), DigitsValue(s[5..7]), DigitsValue(s[8..10]))
    ensures |s| == 10 && IsoDatePrefix(s) && r.None? ==>
      !ValidDate(Date(DigitsValue(s[..4]), DigitsValue(s[5..7]), DigitsValue(s[8..10])))
    ensures !(|s| == 10 && IsoDatePrefix(s)) ==> r == fallback(s)
  {
    if |s| == 10 && IsoDatePrefix(s) then
      var d := Date(DigitsValue(s[..4]), DigitsValue(s[5..7]), DigitsValue(s[8..10]));
      if ValidDate(d) then Some(d) else None
    else
      fallback(s)
  }

  /** The `YYYY-MM-DD` text of a date, as `toISOString().split("T")[0]`
      gives it and as a date input holds it. */
  function IsoText(d: Date): (r: string)
    requires 0 <= d.year <= 9999 && ValidDate(d)
    ensures |r| == 10 && IsoDatePrefix(r)
    ensures DigitsValue(r[..4]) == d.year && DigitsValue(r[5..7]) == d.month && DigitsValue(r[8..10]) == d.day
  {
    var r := FourDigits(d.year) + "-" + TwoDigits(d.month) + "-" + TwoDigits(d.day);
    assert r[..4] == FourDigits(d.year) && r[5..7] == TwoDigits(d.month) && r[8..10] == TwoDigits(d.day);
    r
  }

  /** A date input reads its own text back as the date. */
  lemma InputTextRoundTrip(d: Date, fallback: string -> Option<Date>)
    requires 0 <= d.year <= 9999 && ValidDate(d)
    ensures ParseDateInput(IsoText(d), fallback) == Some(d)
  {
  }

  /** A text without `-` is its own `split("-")[0]`. */
  lemma BeforeDashWhole(s: string)
    requires forall i :: 0 <= i < |s| ==> s[i] != '-'
    ensures BeforeDash(s) == s
  {
  }

  /** The ISO text of a date from the year 100 on reads back as the date in
      `formatDate` and `getAge`. Earlier years are read as 1900 to 1999. */
  lemma IsoTextRoundTrip(d: Date)
    requires 100 <= d.year <= 9999 && ValidDate(d)
    ensures IsoDate(IsoText(d)) == Some(d)
  {
    var s := IsoText(d);
    IsoDatePrefixHasNoT(s);
    assert s[..10] == s;
    BeforeTUnique(s, s);
    BeforeDashWhole(s[8..]);
    assert s[8..] == s[8..10];
    assert DayField(s) == s[8..10];
  }

  /** White space after the day is removed by `Number`. */
  lemma DayNumberTrailingBlank(t: string, w: string)
    requires |t| >= 2 && IsDigit(t[0]) && IsDigit(t[1]) && IsBlank(w)
    ensures DayNumber(t + w) == DayNumber(t)
  {
    TrimTrailingBlank(t, w);
  }

  /** The whole digits of `a + x` are `a` when `x` does not start with a digit. */
  lemma DigitPrefixOf(a: string, x: string)
    requires AllDigits(a) && (x == [] || !IsDigit(x[0]))
    ensures DigitPrefixLength(a + x) == |a|
    ensures (a + x)[..|a|] == a && (a + x)[|a|..] == x
  {
    var t := a + x;
    assert t[..|a|] == a;
    assert x != [] ==> t[|a|] == x[0];
    DigitPrefixLengthExact(t, |a|);
  }

  /** The digit run is determined by where the digits stop. */
  lemma {:induction false} DigitPrefixLengthExact(s: string, k: nat)
    requires k <= |s| && AllDigits(s[..k]) && (k == |s| || !IsDigit(s[k]))
    ensures DigitPrefixLength(s) == k
  {
    if k > 0 {
      assert IsDigit(s[..k][0]);
      assert s[1..][..k - 1] == s[..k][1..];
      DigitPrefixLengthExact(s[1..], k - 1);
    }
  }

  /** A text with no white space at its ends is kept by `trim`. */
  lemma TrimUnchanged(t: string)
    requires t != [] && !IsWhitespace(t[0]) && !IsWhitespace(t[|t| - 1])
    ensures Trim(t) == t
  {
  }

  /** A fraction after the day is dropped, as `new Date` truncates it. */
  lemma DayNumberFraction(a: string, f: string)
    requires |a| >= 2 && AllDigits(a) && AllDigits(f)
    ensures DayNumber(a + "." + f) == Some(DigitsValue(a))
  {
    var t := a + ("." + f);
    assert a + "." + f == t;
    TrimUnchanged(t);
    DigitPrefixOf(a, "." + f);
    assert DayNumber(t) == FractionPart(a, "." + f);
    FractionDropped(a, f);
  }

  /** The fraction digits are the ones a negative shift drops. */
  lemma FractionDropped(a: string, f: string)
    requires AllDigits(a) && AllDigits(f)
    ensures FractionPart(a, "." + f) == Some(DigitsValue(a))
  {
    FractionDigits(a, f);
    DigitsValueAppend(a, f);
    ShiftDropsSuffix(a, f);
  }

  /** After `.`, all of `f` is fraction and nothing is left for an exponent. */
  lemma FractionDigits(a: string, f: string)
    requires AllDigits(a) && AllDigits(f)
    ensures AllDigits(a + f)
    ensures FractionPart(a, "." + f) == ExponentPart(a + f, |f|, [])
  {
    var rest := "." + f;
    assert rest[1..] == f;
    assert f[..|f|] == f;
    DigitPrefixLengthExact(f, |f|);
    assert rest[1..][..|f|] == f && rest[1..][|f|..] == [];
    DigitsValueAppend(a, f);
  }

  /** Shifting `a + f` down by `|f|` digits leaves `a`. */
  lemma ShiftDropsSuffix(a: string, f: string)
    requires AllDigits(a) && AllDigits(f) && AllDigits(a + f)
    ensures Shifted(a + f, -|f|) == DigitsValue(a)
  {
    if |f| > 0 && |f| < |a + f| {
      assert (a + f)[..|a + f| - |f|] == a;
    } else if |f| > 0 {
      assert a == [];
    } else {
      assert a + f == a;
    }
  }

  /** An exponent after the day scales it. */
  lemma DayNumberExponent(a: string, e: string)
    requires |a| >= 2 && AllDigits(a) && e != [] && AllDigits(e)
    ensures DayNumber(a + "e" + e) == Some(DigitsValue(a) * Pow10(DigitsValue(e)))
  {
    var t := a + ("e" + e);
    assert a + "e" + e == t;
    TrimUnchanged(t);
    DigitPrefixOf(a, "e" + e);
    assert ("e" + e)[1..] == e;
    assert ExponentValue("e" + e) == Some(DigitsValue(e));
  }

  /** Any other text after the day makes `Number` give NaN. */
  lemma DayNumberRejects(a: string, x: string)
    requires |a| >= 2 && AllDigits(a) && x != [] && !IsWhitespace(x[|x| - 1])
    requires !IsDigit(x[0]) && x[0] != '.' && x[0] != 'e' && x[0] != 'E'
    ensures DayNumber(a + x) == None
  {
    var t := a + x;
    assert t[|t| - 1] == x[|x| - 1];
    TrimUnchanged(t);
    DigitPrefixOf(a, x);
  }

  /** `Number` reads the day field `"15 "` as 15. */
  lemma DayNumberSpaceExample()
    ensures DayNumber("15 ") == Some(15)
  {
    assert "15" + " " == "15 ";
    DayNumberTrailingBlank("15", " ");
    assert "15"[..1] == "1" && "1"[..0] == [];
    assert DigitsValue("15") == 15;
  }

  /** `Number` reads the day field `"01e1"` as 10. */
  lemma DayNumberExponentExample()
    ensures DayNumber("01e1") == Some(10)
  {
    assert "01" + "e" + "1" == "01e1";
    assert "01"[..1] == "0" && "0"[..0] == [] && "1"[..0] == [];
    assert DigitsValue("01") == 1 && DigitsValue("1") == 1 && Pow10(1) == 10;
    DayNumberExponent("01", "1");
  }

  /** The day field `"15.5"` gives the day 15. */
  lemma DayNumberFractionExample()
    ensures DayNumber("15.5") == Some(15)
  {
    assert "15" + "." + "5" == "15.5";
    DayNumberFraction("15", "5");
  }

  /** The day field `"15abc"` is NaN. */
  lemma DayNumberRejectsExample()
    ensures DayNumber("15abc") == None
  {
    assert "15" + "abc" == "15abc";
    DayNumberRejects("15", "abc");
  }

  /** Text after an ISO date that holds no `T` and no `-` ends up in the day
      field. */
  lemma IsoDateDayText(date: string, x: string)
    requires |date| == 10 && IsoDatePrefix(date)
    requires NoT(x) && forall i :: 0 <= i < |x| ==> x[i] != '-'
    ensures IsoDatePrefix(date + x)
    ensures (date + x)[..4] == date[..4] && (date + x)[5..7] == date[5..7]
    ensures DayField(date + x) == date[8..10] + x
  {
    var s := date + x;
    assert s[..10] == date;
    assert s[..4] == date[..4] && s[5..7] == date[5..7] && s[8..10] == date[8..10];
    IsoDatePrefixHasNoT(date);
    assert date[..10] == date;
    assert NoT(s) by {
      assert forall i :: 0 <= i < |date| ==> s[i] == date[..10][i];
      assert forall i :: |date| <= i < |s| ==> s[i] == x[i - |date|];
    }
    BeforeTUnique(s, s);
    assert s[8..] == date[8..10] + x;
    assert forall i :: 0 <= i < 2 ==> date[8..10][i] == date[8 + i];
    BeforeDashWhole(date[8..10] + x);
  }

  /** The ISO text of 15 January 2024. */
  lemma IsoTextExample()
    ensures IsoText(Date(2024, 1, 15)) == "2024-01-15"
  {
    assert TwoDigits(20) == "20" && TwoDigits(24) == "24";
    assert TwoDigits(1) == "01" && TwoDigits(15) == "15";
  }

  /** The date the ISO text of `d` followed by day text `x` gives. */
  lemma IsoTextWithDayText(d: Date, x: string, day: nat)
    requires 100 <= d.year <= 9999 && ValidDate(d)
    requires NoT(x) && forall i :: 0 <= i < |x| ==> x[i] != '-'
    requires DayNumber(TwoDigits(d.day) + x) == Some(day) && ValidDate(Date(d.year, d.month, day))
    ensures IsoDatePrefix(IsoText(d) + x)
    ensures IsoDate(IsoText(d) + x) == Some(Date(d.year, d.month, day))
  {
    var date := IsoText(d);
    IsoDateDayText(date, x);
    assert date[8..10] == TwoDigits(d.day);
  }

  /** `formatDate("2024-01-15 ")` shows 15/01/2024: the space is ignored. */
  lemma IsoDateSpaceExample()
    ensures IsoDate(IsoText(Date(2024, 1, 15)) + " ") == Some(Date(2024, 1, 15))
  {
    DayNumberTrailingBlank(TwoDigits(15), " ");
    IsoTextWithDayText(Date(2024, 1, 15), " ", 15);
  }

  /** `formatDate("2024-01-01e1")` shows 10/01/2024: `01e1` is ten. */
  lemma IsoDateExponentExample()
    ensures IsoDate(IsoText(Date(2024, 1, 1)) + "e1") == Some(Date(2024, 1, 10))
  {
    assert "e" + "1" == "e1" && DigitsValue("1") == 1;
    DayNumberExponent(TwoDigits(1), "1");
    assert TwoDigits(1) + "e" + "1" == TwoDigits(1) + "e1";
    IsoTextWithDayText(Date(2024, 1, 1), "e1", 10);
  }

  /** `formatDate("2024-01-15.5")` shows 15/01/2024: the fraction is dropped. */
  lemma IsoDateFractionExample()
    ensures IsoDate(IsoText(Date(2024, 1, 15)) + ".5") == Some(Date(2024, 1, 15))
  {
    DayNumberFraction(TwoDigits(15), "5");
    assert TwoDigits(15) + "." + "5" == TwoDigits(15) + ".5";
    IsoTextWithDayText(Date(2024, 1, 15), ".5", 15);
  }
}
