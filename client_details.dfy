/** The display helpers of the client details panel: the Brazilian phone
    format, the age in completed years, and the date shown for a birthdate.
    The current date and JavaScript's parser for non-ISO date strings are
    parameters. */
module ClientDetails {
  import opened Text
  import opened Options
  import opened Dates

  /** What the panel shows for an absent or empty value. */
  const NotInformedText := "Não informado"

  /** What it shows for a date JavaScript cannot read. */
  const InvalidDateText := "Data inválida"

  /** `!x` on an optional string: absent, or present but empty. */
  predicate Missing(x: Option<string>) {
    x.None? || x.value == ""
  }

  // ---------------------------------------------------------------------
  // formatPhoneNumber
  // ---------------------------------------------------------------------

  /** `(dd) ddddd-dddd` for eleven digits. */
  function MobileFormat(c: string): (r: string)
    requires |c| == 11
  {
    "(" + c[..2] + ") " + c[2..7] + "-" + c[7..]
  }

  /** `(dd) dddd-dddd` for ten digits. */
  function LandlineFormat(c: string): (r: string)
    requires |c| == 10
  {
    "(" + c[..2] + ") " + c[2..6] + "-" + c[6..]
  }

  /** `formatPhoneNumber`: drop every non-digit; eleven or ten digits are
      laid out as a mobile or a landline number, any other count leaves the
      text as typed. */
  function FormatPhoneNumber(phone: Option<string>): (r: string)
    ensures Missing(phone) ==> r == NotInformedText
    ensures !Missing(phone) && |Digits(phone.value)| == 11 ==> r == MobileFormat(Digits(phone.value)) && |r| == 15
    ensures !Missing(phone) && |Digits(phone.value)| == 10 ==> r == LandlineFormat(Digits(phone.value)) && |r| == 14
    ensures !Missing(phone) && |Digits(phone.value)| != 10 && |Digits(phone.value)| != 11 ==> r == phone.value
  {
    if Missing(phone) then
      NotInformedText
    else
      var cleaned := Digits(phone.value);
      if |cleaned| == 11 then
        MobileFormat(cleaned)
      else if |cleaned| == 10 then
        LandlineFormat(cleaned)
      else
        phone.value
  }

  /** Digit runs separated by digit-free text: stripping the non-digits
      leaves the runs, joined. */
  lemma InterleavedDigits(p: string, a: string, q: string, b: string, r: string, c: string)
    requires Digits(p) == "" && Digits(q) == "" && Digits(r) == ""
    requires AllDigits(a) && AllDigits(b) && AllDigits(c)
    ensures Digits(p + a + q + b + r + c) == a + b + c
  {
    DigitsAppend(p, a);
    AppendRun(p + a, q, b);
    AppendRun(p + a + q + b, r, c);
  }

  /** One more digit-free separator and digit run. */
  lemma AppendRun(x: string, p: string, a: string)
    requires Digits(p) == "" && AllDigits(a)
    ensures Digits(x + p + a) == Digits(x) + a
  {
    DigitsAppend(x, p);
    DigitsAppend(x + p, a);
  }

  /** The punctuation of both layouts holds no digit, so stripping the
      non-digits of a laid-out number gives back the three digit groups. */
  lemma LayoutDigits(a: string, b: string, c: string)
    requires AllDigits(a) && AllDigits(b) && AllDigits(c)
    ensures Digits("(" + a + ") " + b + "-" + c) == a + b + c
  {
    NoDigits("(");
    NoDigits(") ");
    NoDigits("-");
    InterleavedDigits("(", a, ") ", b, "-", c);
  }

  /** Formatting keeps the number: the digits of what is shown are the
      digits of what was stored. */
  lemma FormatKeepsDigits(phone: string)
    requires phone != ""
    ensures Digits(FormatPhoneNumber(Some(phone))) == Digits(phone)
  {
    var c := Digits(phone);
    if |c| == 11 {
      LayoutDigits(c[..2], c[2..7], c[7..]);
      assert c[..2] + c[2..7] + c[7..] == c;
    } else if |c| == 10 {
      LayoutDigits(c[..2], c[2..6], c[6..]);
      assert c[..2] + c[2..6] + c[6..] == c;
    }
  }

  /** Formatting a shown number again shows it unchanged, for every input,
      including the "Não informado" placeholder, which holds no digit. */
  lemma FormatIdempotent(phone: Option<string>)
    ensures FormatPhoneNumber(Some(FormatPhoneNumber(phone))) == FormatPhoneNumber(phone)
  {
    var r := FormatPhoneNumber(phone);
    if Missing(phone) {
      NoDigits(NotInformedText);
    } else {
      FormatKeepsDigits(phone.value);
      assert r != "" && Digits(r) == Digits(phone.value);
    }
  }

  // ---------------------------------------------------------------------
  // getAge
  // ---------------------------------------------------------------------

  /** Completed years from `birth` to `today`: the difference of the years,
      one less while this year's birthday is still to come. */
  function AgeYears(birth: Date, today: Date): int {
    var age := today.year - birth.year;
    var monthDiff := today.month - birth.month;
    if monthDiff < 0 || (monthDiff == 0 && today.day < birth.day) then age - 1 else age
  }

  /** The `n`-th anniversary of `birth`, as a (year, month, day) triple. */
  function Anniversary(birth: Date, n: int): (r: Date)
    ensures r.month == birth.month && r.day == birth.day
  {
    Date(birth.year + n, birth.month, birth.day)
  }

  /** The age is the number of anniversaries passed: the `n`-th anniversary
      has come and the next one has not, for exactly one `n`. */
  lemma AgeCountsAnniversaries(birth: Date, today: Date, n: int)
    ensures !Before(today, Anniversary(birth, n)) && Before(today, Anniversary(birth, n + 1))
      <==> n == AgeYears(birth, today)
  {
  }

  /** Nobody born on or before today has a negative age. */
  lemma AgeNonNegative(birth: Date, today: Date)
    ensures !Before(today, birth) ==> AgeYears(birth, today) >= 0
  {
  }

  /** On the day someone is born the age is 0, and it is 0 until the first
      anniversary. */
  lemma AgeZeroFirstYear(birth: Date, today: Date)
    requires !Before(today, birth) && Before(today, Anniversary(birth, 1))
    ensures AgeYears(birth, today) == 0
  {
    AgeCountsAnniversaries(birth, today, 0);
    assert Anniversary(birth, 0) == birth;
  }

  /** The age never goes down as time passes. */
  lemma AgeMonotone(birth: Date, earlier: Date, later: Date)
    requires !Before(later, earlier)
    ensures AgeYears(birth, earlier) <= AgeYears(birth, later)
  {
  }

  // ---------------------------------------------------------------------
  // Reading a stored date
  // ---------------------------------------------------------------------

  /** A date JavaScript can show: it exists and it lies in the common era,
      whose years `Intl.DateTimeFormat` writes as plain numbers. */
  type CalendarDate = d: Date | ValidDate(d) && d.year >= 1 witness Date(2000, 1, 1)

  /** The date `formatDate` and `getAge` build from a stored string: a string
      that starts with `YYYY-MM-DD` is read as that local calendar date, any
      other goes to `parse`, which stands for `new Date(s)`. */
  function ReadDate(s: string, parse: string -> Option<CalendarDate>): (r: Option<Date>)
    ensures IsoDatePrefix(s) ==> r == IsoDate(s)
    ensures !IsoDatePrefix(s) ==> r == parse(s)
    ensures r.Some? ==> ValidDate(r.value) && r.value.year >= 1
  {
    if IsoDatePrefix(s) then IsoDate(s) else parse(s)
  }

  /** What `getAge` returns: the placeholder, the error text, or a number. */
  datatype Age = NotInformed | InvalidDate | Years(years: int)

  /** `getAge` with `today` standing for `new Date()`. */
  function GetAge(birthdate: Option<string>, today: Date, parse: string -> Option<CalendarDate>): (r: Age)
    ensures r.NotInformed? <==> Missing(birthdate)
    ensures r.InvalidDate? <==> !Missing(birthdate) && ReadDate(birthdate.value, parse).None?
    ensures r.Years? ==> r.years == AgeYears(ReadDate(birthdate.value, parse).value, today)
  {
    if Missing(birthdate) then
      NotInformed
    else
      match ReadDate(birthdate.value, parse)
      case None => InvalidDate
      case Some(birth) => Years(AgeYears(birth, today))
  }

  /** A stored birthdate that is not after today gives a non-negative age. */
  lemma GetAgeNonNegative(birthdate: string, today: Date, parse: string -> Option<CalendarDate>)
    requires birthdate != "" && ReadDate(birthdate, parse).Some?
    requires !Before(today, ReadDate(birthdate, parse).value)
    ensures GetAge(Some(birthdate), today, parse).Years?
    ensures GetAge(Some(birthdate), today, parse).years >= 0
  {
    AgeNonNegative(ReadDate(birthdate, parse).value, today);
  }

  // ---------------------------------------------------------------------
  // formatDate
  // ---------------------------------------------------------------------

  /** `Intl.DateTimeFormat("pt-BR", {day: "2-digit", month: "2-digit",
      year: "numeric"})`: `DD/MM/` followed by the year. */
  function DateText(d: CalendarDate): (r: string)
    ensures |r| >= 7 && r[2] == '/' && r[5] == '/'
  {
    TwoDigits(d.day) + "/" + TwoDigits(d.month) + "/" + NatToString(d.year)
  }

  /** Reading a `DD/MM/YYYY` text back into a date. */
  function ReadDateText(t: string): (r: Option<Date>)
    ensures r.Some? ==> |t| >= 7 && t[2] == '/' && t[5] == '/'
  {
    if |t| >= 7 && t[2] == '/' && t[5] == '/' && AllDigits(t[..2]) && AllDigits(t[3..5]) && AllDigits(t[6..]) then
      Some(Date(DigitsValue(t[6..]), DigitsValue(t[3..5]), DigitsValue(t[..2])))
    else
      None
  }

  /** The shown text determines the date: reading it back gives the date. */
  lemma DateTextRoundTrip(d: CalendarDate)
    ensures ReadDateText(DateText(d)) == Some(d)
  {
    var t := DateText(d);
    assert t[..2] == TwoDigits(d.day);
    assert t[3..5] == TwoDigits(d.month);
    assert t[6..] == NatToString(d.year);
    NatToStringRoundTrip(d.year);
  }

  /** `formatDate`. */
  function FormatDate(date: Option<string>, parse: string -> Option<CalendarDate>): (r: string)
    ensures Missing(date) ==> r == NotInformedText
    ensures !Missing(date) && ReadDate(date.value, parse).None? ==> r == InvalidDateText
    ensures !Missing(date) && ReadDate(date.value, parse).Some? ==>
      ReadDateText(r) == ReadDate(date.value, parse)
  {
    if Missing(date) then
      NotInformedText
    else
      match ReadDate(date.value, parse)
      case None => InvalidDateText
      case Some(d) => DateTextRoundTrip(d); DateText(d)
  }

  /** A date with a time of day is shown, and aged, as the date alone. */
  lemma DetailsIgnoreTime(date: string, time: string, today: Date, parse: string -> Option<CalendarDate>)
    requires |date| == 10 && IsoDatePrefix(date)
    ensures FormatDate(Some(date + "T" + time), parse) == FormatDate(Some(date), parse)
    ensures GetAge(Some(date + "T" + time), today, parse) == GetAge(Some(date), today, parse)
  {
    IsoDateIgnoresTime(date, time);
  }
}
