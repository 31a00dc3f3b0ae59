/** The two e-mail patterns the forms use. They are not the same language:
    the wizard and the add-dependent form search for `\S+@\S+\.\S+` anywhere
    in the string, the edit forms match `^[^\s@]+@[^\s@]+\.[^\s@]+$` against
    the whole string. */
module EmailPatterns {
  import opened Text

  /** The regular expression `\S+@\S+\.\S+` matches with its `@` at `at` and its
      `.` at `dot`. Each `\S+` may be a single character, so it is enough that
      the characters next to the `@` and after the `.` are not white space and
      that nothing between the `@` and the `.` is. */
  predicate LooseMatchAt(s: string, at: int, dot: int)
    requires 0 < at && at + 1 < dot && dot + 1 < |s|
  {
    && !IsWhitespace(s[at - 1])
    && s[at] == '@'
    && (forall k | at < k < dot :: !IsWhitespace(s[k]))
    && s[dot] == '.'
    && !IsWhitespace(s[dot + 1])
  }

  /** `/\S+@\S+\.\S+/.test(s)`: the pattern is unanchored, so it accepts any
      string with a matching part. */
  predicate LooseEmail(s: string) {
    exists at, dot | 0 < at < |s| && at + 1 < dot < |s| - 1 :: LooseMatchAt(s, at, dot)
  }

  /** A character of the class `[^\s@]`. */
  predicate PlainChar(c: char) {
    !IsWhitespace(c) && c != '@'
  }

  /** `^[^\s@]+@[^\s@]+\.[^\s@]+$` matches with its `@` at `at` and its `.` at
      `dot`: every other character is plain, so `at` is the only `@`. */
  predicate StrictMatchAt(s: string, at: int, dot: int)
    requires 0 < at && at + 1 < dot && dot + 1 < |s|
  {
    && s[at] == '@'
    && s[dot] == '.'
    && (forall k | 0 <= k < |s| && k != at :: PlainChar(s[k]))
  }

  /** `/^[^\s@]+@[^\s@]+\.[^\s@]+$/.test(s)`. */
  predicate StrictEmail(s: string) {
    exists at, dot | 0 < at < |s| && at + 1 < dot < |s| - 1 :: StrictMatchAt(s, at, dot)
  }

  /** Every address the anchored pattern accepts, the unanchored one accepts too. */
  lemma StrictImpliesLoose(s: string)
    ensures StrictEmail(s) ==> LooseEmail(s)
  {
    if StrictEmail(s) {
      var at, dot :| 0 < at < |s| && at + 1 < dot < |s| - 1 && StrictMatchAt(s, at, dot);
      assert PlainChar(s[at - 1]) && PlainChar(s[dot + 1]);
      assert forall k | at < k < dot :: PlainChar(s[k]);
      assert LooseMatchAt(s, at, dot);
    }
  }

  /** The converse fails: text around an address, a second `@` or inner white
      space pass the unanchored pattern but not the anchored one. */
  lemma LooseDoesNotImplyStrict()
    ensures LooseEmail("ana@x.com ") && !StrictEmail("ana@x.com ")
    ensures LooseEmail("a@b@c.d") && !StrictEmail("a@b@c.d")
  {
    var s := "ana@x.com ";
    assert LooseMatchAt(s, 3, 5);
    forall at, dot | 0 < at < |s| && at + 1 < dot < |s| - 1
      ensures !StrictMatchAt(s, at, dot)
    {
      assert !PlainChar(s[9]);
    }
    var t := "a@b@c.d";
    assert LooseMatchAt(t, 3, 5);
    forall at, dot | 0 < at < |t| && at + 1 < dot < |t| - 1
      ensures !StrictMatchAt(t, at, dot)
    {
      assert !PlainChar(t[1]) && !PlainChar(t[3]);
    }
  }

  /** Neither pattern accepts a string without an `@`. */
  lemma EmailNeedsAt(s: string)
    requires forall k :: 0 <= k < |s| ==> s[k] != '@'
    ensures !LooseEmail(s) && !StrictEmail(s)
  {
  }
}
