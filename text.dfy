/** String helpers shared by the forms and the display components: the
    JavaScript notions of white space, `trim`, `replace(/\D/g, "")`,
    `toLowerCase`, `includes`, and the decimal rendering and parsing of
    natural numbers (template-literal interpolation and `Number`). */
module Text {

  /** The characters ECMAScript's `\s` class and `String.prototype.trim`
      treat as white space (WhiteSpace and LineTerminator). */
  predicate IsWhitespace(c: char) {
    || c == ' ' || c == '\t' || c == '\n' || c == '\U{B}' || c == '\U{C}' || c == '\r'
    || c == '\U{A0}' || c == '\U{1680}' || ('\U{2000}' <= c <= '\U{200A}')
    || c == '\U{2028}' || c == '\U{2029}' || c == '\U{202F}' || c == '\U{205F}'
    || c == '\U{3000}' || c == '\U{FEFF}'
  }

  /** A string is blank when nothing but white space is left after `trim`. */
  predicate IsBlank(s: string) {
    forall i :: 0 <= i < |s| ==> IsWhitespace(s[i])
  }

  /** `String.prototype.trim`: white space removed at both ends, one
      character at a time. It yields the empty string exactly for blank
      strings, which is what the validators' `!x.trim()` tests;
      TrimStripped fixes its value. */
  function Trim(s: string): (r: string)
    ensures |r| <= |s|
    ensures r == "" <==> IsBlank(s)
    ensures r != "" ==> !IsWhitespace(r[0]) && !IsWhitespace(r[|r| - 1])
    ensures s != "" && !IsWhitespace(s[0]) ==> r != "" && r[0] == s[0]
    decreases |s|
  {
    if s == [] then
      s
    else if IsWhitespace(s[0]) then
      assert IsBlank(s) <==> IsBlank(s[1..]) by {
        assert forall i :: 0 < i < |s| ==> s[i] == s[1..][i - 1];
      }
      Trim(s[1..])
    else if IsWhitespace(s[|s| - 1]) then
      assert !IsBlank(s[..|s| - 1]) by {
        assert s[..|s| - 1][0] == s[0];
      }
      Trim(s[..|s| - 1])
    else
      s
  }

  /** `r` is the window of `s` starting at `i`, with only white space
      before and after it. */
  predicate StrippedAt(s: string, r: string, i: int) {
    0 <= i <= |s| - |r| && r == s[i..i + |r|] && IsBlank(s[..i]) && IsBlank(s[i + |r|..])
  }

  /** The trimmed text is the input with only white space cut from its two
      ends; since it neither starts nor ends with white space (Trim's own
      contract), this fixes it. */
  lemma {:induction false} TrimStripped(s: string)
    ensures exists i :: StrippedAt(s, Trim(s), i)
    decreases |s|
  {
    var r := Trim(s);
    if s == [] {
      assert StrippedAt(s, r, 0);
    } else if IsWhitespace(s[0]) {
      TrimStripped(s[1..]);
      var j :| StrippedAt(s[1..], r, j);
      StrippedAtCons(s, r, j);
    } else if IsWhitespace(s[|s| - 1]) {
      TrimStripped(s[..|s| - 1]);
      var j :| StrippedAt(s[..|s| - 1], r, j);
      StrippedAtSnoc(s, r, j);
    } else {
      assert s[0..|s|] == s;
      assert StrippedAt(s, r, 0);
    }
  }

  /** A window of the tail is a window of the whole behind one more
      white-space character. */
  lemma StrippedAtCons(s: string, r: string, j: int)
    requires s != [] && IsWhitespace(s[0]) && StrippedAt(s[1..], r, j)
    ensures StrippedAt(s, r, j + 1)
  {
    assert s[j + 1..j + 1 + |r|] == s[1..][j..j + |r|];
    assert s[j + 1 + |r|..] == s[1..][j + |r|..];
    var p := s[..j + 1];
    forall k | 0 <= k < |p|
      ensures IsWhitespace(p[k])
    {
      if k > 0 {
        assert p[k] == s[1..][..j][k - 1];
      }
    }
  }

  /** A window of all but the last character is a window of the whole
      ahead of one more white-space character. */
  lemma StrippedAtSnoc(s: string, r: string, j: int)
    requires s != [] && IsWhitespace(s[|s| - 1]) && StrippedAt(s[..|s| - 1], r, j)
    ensures StrippedAt(s, r, j)
  {
    var q := s[..|s| - 1];
    assert s[j..j + |r|] == q[j..j + |r|];
    assert s[..j] == q[..j];
    assert s[j + |r|..] == q[j + |r|..] + [s[|s| - 1]];
  }

  predicate IsDigit(c: char) {
    '0' <= c <= '9'
  }

  predicate AllDigits(s: string) {
    forall i :: 0 <= i < |s| ==> IsDigit(s[i])
  }

  /** `s.replace(/\D/g, "")`: every character that is not an ASCII digit
      removed, the digits kept in order. */
  function Digits(s: string): (r: string)
    ensures |r| <= |s|
    ensures AllDigits(r)
    ensures AllDigits(s) ==> r == s
  {
    if s == [] then [] else (if IsDigit(s[0]) then [s[0]] else []) + Digits(s[1..])
  }

  /** Stripping non-digits distributes over concatenation. */
  lemma {:induction false} DigitsAppend(a: string, b: string)
    ensures Digits(a + b) == Digits(a) + Digits(b)
  {
    if a == [] {
      assert a + b == b;
    } else {
      assert (a + b)[0] == a[0];
      assert (a + b)[1..] == a[1..] + b;
      DigitsAppend(a[1..], b);
    }
  }

  /** A string without digits has nothing left once its non-digits go. */
  lemma {:induction false} NoDigits(s: string)
    requires forall i :: 0 <= i < |s| ==> !IsDigit(s[i])
    ensures Digits(s) == ""
  {
    if s != [] {
      NoDigits(s[1..]);
    }
  }

  /** The capitals `toLowerCase` changes here: ASCII A-Z and the upper-case
      letters of the Latin-1 block (À..Þ without ×), the letters of
      Portuguese names. */
  predicate IsUpper(c: char) {
    'A' <= c <= 'Z' || ('\U{C0}' <= c <= '\U{DE}' && c != '\U{D7}')
  }

  /** `toUpperCase` on the small letters of the same blocks (a-z, à..þ
      without ÷); any other character is kept. */
  function UpperChar(c: char): char {
    if 'a' <= c <= 'z' || ('\U{E0}' <= c <= '\U{FE}' && c != '\U{F7}') then (c as int - 32) as char else c
  }

  /** Lower-casing of one character: no capital is left, a capital becomes
      the small letter whose capital it is, and every other character,
      white space included, is kept. */
  function LowerChar(c: char): (r: char)
    ensures !IsUpper(r)
    ensures !IsUpper(c) ==> r == c
    ensures IsUpper(c) ==> r != c && UpperChar(r) == c
    ensures IsWhitespace(c) <==> IsWhitespace(r)
  {
    if IsUpper(c) then (c as int + 32) as char else c
  }

  /** `String.prototype.toLowerCase`, character by character: the result
      holds no capital, and only the capitals of `s` changed. */
  function ToLower(s: string): (r: string)
    ensures |r| == |s|
    ensures forall i :: 0 <= i < |s| ==> r[i] == LowerChar(s[i])
    ensures forall i :: 0 <= i < |r| ==> !IsUpper(r[i])
    ensures forall i :: 0 <= i < |s| && !IsUpper(s[i]) ==> r[i] == s[i]
  {
    seq(|s|, i requires 0 <= i < |s| => LowerChar(s[i]))
  }

  lemma ToLowerAppend(a: string, b: string)
    ensures ToLower(a + b) == ToLower(a) + ToLower(b)
  {
  }

  /** A string without capitals is already lower-case. */
  lemma ToLowerKeepsLower(s: string)
    requires forall i :: 0 <= i < |s| ==> !IsUpper(s[i])
    ensures ToLower(s) == s
  {
  }

  /** Lower-casing twice is lower-casing once. */
  lemma ToLowerIdempotent(s: string)
    ensures ToLower(ToLower(s)) == ToLower(s)
  {
    ToLowerKeepsLower(ToLower(s));
  }

  /** The window of `haystack` starting at `i` spells `needle`. */
  predicate OccursAt(haystack: string, needle: string, i: int) {
    0 <= i && i + |needle| <= |haystack| && haystack[i..i + |needle|] == needle
  }

  /** `haystack.includes(needle)`: some window of the haystack equals the needle. */
  predicate Contains(haystack: string, needle: string) {
    exists i | 0 <= i <= |haystack| - |needle| :: OccursAt(haystack, needle, i)
  }

  /** Every string contains the empty string, so an empty search term matches. */
  lemma ContainsEmpty(haystack: string)
    ensures Contains(haystack, "")
  {
    assert OccursAt(haystack, "", 0);
  }

  /** A string containing `u + v` contains `u`: a longer needle is harder to find. */
  lemma ContainsPrefixOfNeedle(haystack: string, u: string, v: string)
    ensures Contains(haystack, u + v) ==> Contains(haystack, u)
  {
    if Contains(haystack, u + v) {
      var i :| 0 <= i <= |haystack| - |u + v| && OccursAt(haystack, u + v, i);
      assert haystack[i..i + |u|] == (u + v)[..|u|] == u;
      assert OccursAt(haystack, u, i);
    }
  }

  function DigitChar(d: nat): (c: char)
    requires d < 10
    ensures IsDigit(c)
  {
    ('0' as int + d) as char
  }

  /** The decimal rendering of a natural number, as a template literal or the
      JSX text `{n}` shows it. */
  function NatToString(n: nat): (r: string)
    ensures |r| >= 1 && AllDigits(r)
    ensures n == 0 ==> r == "0"
    ensures n > 0 ==> r[0] != '0'
  {
    if n < 10 then [DigitChar(n)] else NatToString(n / 10) + [DigitChar(n % 10)]
  }

  /** `Number(s)` on a string of ASCII digits, read most significant first. */
  function DigitsValue(s: string): nat
    requires AllDigits(s)
  {
    if s == [] then 0 else DigitsValue(s[..|s| - 1]) * 10 + (s[|s| - 1] as int - '0' as int)
  }

  /** Reading back a rendered number gives the number. */
  lemma {:induction false} NatToStringRoundTrip(n: nat)
    ensures DigitsValue(NatToString(n)) == n
  {
    var s := NatToString(n);
    if n >= 10 {
      NatToStringRoundTrip(n / 10);
      assert s[..|s| - 1] == NatToString(n / 10);
    }
  }

  /** Distinct numbers render differently. */
  lemma NatToStringInjective(a: nat, b: nat)
    ensures NatToString(a) == NatToString(b) ==> a == b
  {
    NatToStringRoundTrip(a);
    NatToStringRoundTrip(b);
  }

  function Pow10(k: nat): (r: nat)
    ensures r >= 1
  {
    if k == 0 then 1 else 10 * Pow10(k - 1)
  }

  /** Reading `a + b` is reading `a`, shifted by the length of `b`, plus `b`. */
  lemma {:induction false} DigitsValueAppend(a: string, b: string)
    requires AllDigits(a) && AllDigits(b)
    ensures AllDigits(a + b)
    ensures DigitsValue(a + b) == DigitsValue(a) * Pow10(|b|) + DigitsValue(b)
  {
    if b != [] {
      var b' := b[..|b| - 1];
      var d := b[|b| - 1] as int - '0' as int;
      assert (a + b)[..|a + b| - 1] == a + b';
      assert (a + b)[|a + b| - 1] == b[|b| - 1];
      DigitsValueAppend(a, b');
      assert DigitsValue(a + b) == DigitsValue(a + b') * 10 + d;
      assert DigitsValue(b) == DigitsValue(b') * 10 + d;
      assert Pow10(|b|) == 10 * Pow10(|b'|);
      ShiftOneDigit(DigitsValue(a), Pow10(|b'|), DigitsValue(b'), d);
    } else {
      assert a + b == a;
    }
  }

  lemma ShiftOneDigit(x: int, p: int, y: int, d: int)
    ensures (x * p + y) * 10 + d == x * (10 * p) + (y * 10 + d)
  {
  }

  /** `k` digits read as a number below `10^k`. */
  lemma {:induction false} DigitsValueBound(s: string)
    requires AllDigits(s)
    ensures DigitsValue(s) < Pow10(|s|)
  {
    if s != [] {
      var s' := s[..|s| - 1];
      DigitsValueBound(s');
      assert DigitsValue(s) <= (Pow10(|s'|) - 1) * 10 + 9;
    }
  }

  /** Two decimal digits, with a leading zero: the `"2-digit"` style of
      `Intl.DateTimeFormat` and the month and day of an ISO date. */
  function TwoDigits(n: nat): (r: string)
    requires n < 100
    ensures |r| == 2 && AllDigits(r) && DigitsValue(r) == n
  {
    var r := [DigitChar(n / 10), DigitChar(n % 10)];
    assert r[..1] == [DigitChar(n / 10)] && r[..1][..0] == [];
    assert DigitsValue(r[..1]) == n / 10;
    r
  }

  /** Four decimal digits, with leading zeros: the year of an ISO date. */
  function FourDigits(n: nat): (r: string)
    requires n < 10000
    ensures |r| == 4 && AllDigits(r) && DigitsValue(r) == n
  {
    var r := TwoDigits(n / 100) + TwoDigits(n % 100);
    DigitsValueAppend(TwoDigits(n / 100), TwoDigits(n % 100));
    assert Pow10(2) == 100;
    r
  }

  /** The length of the run of ASCII digits `s` starts with. */
  function DigitPrefixLength(s: string): (n: nat)
    ensures n <= |s| && AllDigits(s[..n])
    ensures n == |s| || !IsDigit(s[n])
  {
    if s != [] && IsDigit(s[0]) then
      var n := 1 + DigitPrefixLength(s[1..]);
      assert s[..n] == [s[0]] + s[1..][..n - 1];
      n
    else
      0
  }

  /** White space appended to a string that starts with something else is
      removed again by `trim`. */
  lemma {:induction false} TrimTrailingBlank(a: string, w: string)
    requires a != [] && !IsWhitespace(a[0]) && IsBlank(w)
    ensures Trim(a + w) == Trim(a)
    decreases |w|
  {
    if w != [] {
      var x := a + w;
      assert x[0] == a[0] && x[|x| - 1] == w[|w| - 1];
      assert x[..|x| - 1] == a + w[..|w| - 1];
      TrimTrailingBlank(a, w[..|w| - 1]);
    } else {
      assert a + w == a;
    }
  }
}
