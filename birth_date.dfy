/** The birth-date step: the pattern `^(\d{1,2})\.(\d{1,2})\.(\d{4})$`, the
    conversion of its groups with `int()`, and the calendar check made by
    `datetime(year, month, day)`. Digits are ASCII and `$` is the end of text. */
module BirthDate {
  import opened Wrappers
  import opened Calendar

  predicate IsDigit(c: char) {
    '0' <= c <= '9'
  }

  predicate AllDigits(s: string) {
    forall i :: 0 <= i < |s| ==> IsDigit(s[i])
  }

  function Pow10(k: nat): (p: nat)
    ensures p >= 1
  {
    if k == 0 then 1 else 10 * Pow10(k - 1)
  }

  /** `int()` of a string of decimal digits; leading zeros are allowed. */
  function DigitsValue(s: string): (n: nat)
    requires AllDigits(s)
    ensures n < Pow10(|s|)
  {
    if |s| == 0 then 0
    else DigitsValue(s[..|s| - 1]) * 10 + (s[|s| - 1] as int - '0' as int)
  }

  /** How many digits the greedy `\d{1,2}`-style repetition takes from the
      front of `s`, at most `max`. */
  function LeadingDigits(s: string, max: nat): (n: nat)
    ensures n <= max && n <= |s|
    ensures AllDigits(s[..n])
    ensures n < max && n < |s| ==> !IsDigit(s[n])
    decreases max
  {
    if max == 0 || |s| == 0 || !IsDigit(s[0]) then 0
    else
      var k := LeadingDigits(s[1..], max - 1);
      assert s[..k + 1] == [s[0]] + s[1..][..k];
      1 + k
  }

  /** The three captured groups of a successful match. */
  datatype DateFields = DateFields(day: string, month: string, year: string)

  /** The shape the pattern accepts: one or two digits, a dot, one or two
      digits, a dot, exactly four digits. */
  predicate WellFormed(f: DateFields) {
    && AllDigits(f.day) && 1 <= |f.day| <= 2
    && AllDigits(f.month) && 1 <= |f.month| <= 2
    && AllDigits(f.year) && |f.year| == 4
  }

  function Joined(f: DateFields): string {
    f.day + "." + f.month + "." + f.year
  }

  /** The rest of the pattern after the first dot: `(\d{1,2})\.(\d{4})$`. */
  function MatchMonthYear(rest: string): (r: Option<(string, string)>)
    ensures r.Some? ==> var (month, year) := r.value;
      && AllDigits(month) && 1 <= |month| <= 2 && AllDigits(year) && |year| == 4
      && rest == month + "." + year
  {
    var m := LeadingDigits(rest, 2);
    if m == 0 || m == |rest| || rest[m] != '.' then None
    else
      var year := rest[m + 1..];
      if |year| == 4 && AllDigits(year) then
        assert rest == rest[..m] + "." + year;
        Some((rest[..m], year))
      else None
  }

  /** `re.match` of the birth-date pattern, anchored at both ends. A dot is
      not a digit, so the greedy repetitions never need to give digits back. */
  function MatchDate(t: string): (r: Option<DateFields>)
    ensures r.Some? ==> WellFormed(r.value) && Joined(r.value) == t
  {
    var d := LeadingDigits(t, 2);
    if d == 0 || d == |t| || t[d] != '.' then None
    else
      match MatchMonthYear(t[d + 1..])
      case None => None
      case Some((month, year)) =>
        var f := DateFields(t[..d], month, year);
        assert Joined(f) == t;
        JoinedAfterDay(f);
        assert t == f.day + "." + t[d + 1..];
        Some(f)
  }

  lemma JoinedAfterDay(f: DateFields)
    ensures Joined(f) == f.day + "." + (f.month + "." + f.year)
  {
  }

  /** Greedy digit-taking stops exactly at the end of a group of at most
      `max` digits that is followed by a non-digit. */
  lemma LeadingDigitsOfGroup(a: string, c: char, rest: string, max: nat)
    requires AllDigits(a) && |a| <= max && !IsDigit(c)
    ensures LeadingDigits(a + [c] + rest, max) == |a|
  {
    var s := a + [c] + rest;
    assert s[|a|] == c;
    assert forall i :: 0 <= i < |a| ==> s[i] == a[i];
  }

  lemma MatchMonthYearComplete(month: string, year: string)
    requires AllDigits(month) && 1 <= |month| <= 2 && AllDigits(year) && |year| == 4
    ensures MatchMonthYear(month + "." + year) == Some((month, year))
  {
    var rest := month + "." + year;
    assert rest == month + ['.'] + year;
    LeadingDigitsOfGroup(month, '.', year, 2);
    assert rest[|month|] == '.';
    assert rest[|month| + 1..] == year;
    assert rest[..|month|] == month;
  }

  /** Every text of the accepted shape matches, with its own groups: together
      with the contract of `MatchDate`, a text matches exactly when it has
      that shape. */
  lemma MatchDateComplete(f: DateFields)
    requires WellFormed(f)
    ensures MatchDate(Joined(f)) == Some(f)
  {
    var t := Joined(f);
    var rest := f.month + "." + f.year;
    assert t == f.day + ['.'] + rest;
    LeadingDigitsOfGroup(f.day, '.', rest, 2);
    assert t[|f.day|] == '.';
    assert t[|f.day| + 1..] == rest;
    assert t[..|f.day|] == f.day;
    MatchMonthYearComplete(f.month, f.year);
  }

  datatype DateError = InvalidFormat | InvalidCalendarDate

  /** The birth-date step up to the sign lookup: a format error when the
      pattern does not match, a calendar error when `datetime` would raise
      ValueError, otherwise the date. */
  function ParseBirthDate(t: string): (r: Result<Date, DateError>)
    ensures r.Success? ==> IsValidDate(r.value.year, r.value.month, r.value.day)
    ensures r == Failure(InvalidFormat) <==> MatchDate(t).None?
  {
    match MatchDate(t)
    case None => Failure(InvalidFormat)
    case Some(f) =>
      var day, month, year := DigitsValue(f.day), DigitsValue(f.month), DigitsValue(f.year);
      if IsValidDate(year, month, day) then Success(Date(year, month, day))
      else Failure(InvalidCalendarDate)
  }

  /** A well-formed text is accepted exactly when its numbers form a real
      date; the four-digit year can never exceed the calendar's last year, so
      only the first year, the month and the day can fail. */
  lemma ParseWellFormed(f: DateFields)
    requires WellFormed(f)
    ensures var day, month, year := DigitsValue(f.day), DigitsValue(f.month), DigitsValue(f.year);
      && year <= MaxYear
      && ParseBirthDate(Joined(f)) == if IsValidDate(year, month, day)
                                      then Success(Date(year, month, day))
                                      else Failure(InvalidCalendarDate)
  {
    MatchDateComplete(f);
    assert Pow10(4) == 10000;
  }

  function DigitOf(c: char): int {
    c as int - '0' as int
  }

  /** Appending a digit multiplies the value by ten and adds the digit. */
  lemma DigitsValueAppend(s: string, c: char)
    requires AllDigits(s) && IsDigit(c)
    ensures AllDigits(s + [c]) && DigitsValue(s + [c]) == 10 * DigitsValue(s) + DigitOf(c)
  {
    assert (s + [c])[..|s|] == s;
  }

  /** The value of a four-digit group, digit by digit. */
  lemma DigitsValueOfFour(s: string)
    requires AllDigits(s) && |s| == 4
    ensures DigitsValue(s) == 1000 * DigitOf(s[0]) + 100 * DigitOf(s[1]) + 10 * DigitOf(s[2]) + DigitOf(s[3])
  {
    DigitsValueOfTwo(s[..2]);
    DigitsValueAppend(s[..2], s[2]);
    assert s[..2] + [s[2]] == s[..3];
    DigitsValueAppend(s[..3], s[3]);
    assert s[..3] + [s[3]] == s;
  }

  /** The value of a two-digit group. */
  lemma DigitsValueOfTwo(s: string)
    requires AllDigits(s) && |s| == 2
    ensures DigitsValue(s) == 10 * DigitOf(s[0]) + DigitOf(s[1])
  {
    DigitsValueAppend([], s[0]);
    DigitsValueAppend([s[0]], s[1]);
    assert [s[0]] + [s[1]] == s;
  }

  lemma ParseExampleValid(t: string)
    requires t == "01.01.2000"
    ensures ParseBirthDate(t) == Success(Date(2000, 1, 1))
  {
    var f := DateFields("01", "01", "2000");
    assert Joined(f) == t;
    assert WellFormed(f);
    DigitsValueOfTwo(f.day);
    DigitsValueOfTwo(f.month);
    DigitsValueOfFour(f.year);
    assert DigitsValue(f.day) == 1 && DigitsValue(f.month) == 1 && DigitsValue(f.year) == 2000;
    assert IsValidDate(2000, 1, 1);
    ParseWellFormed(f);
  }

  lemma ParseExampleLeapDay(t: string)
    requires t == "29.02.2000"
    ensures ParseBirthDate(t) == Success(Date(2000, 2, 29))
  {
    var f := DateFields("29", "02", "2000");
    assert Joined(f) == t;
    assert WellFormed(f);
    DigitsValueOfTwo(f.day);
    DigitsValueOfTwo(f.month);
    DigitsValueOfFour(f.year);
    assert DigitsValue(f.day) == 29 && DigitsValue(f.month) == 2 && DigitsValue(f.year) == 2000;
    assert IsValidDate(2000, 2, 29);
    ParseWellFormed(f);
  }

  lemma ParseExampleNoSuchDay(t: string)
    requires t == "30.02.2000"
    ensures ParseBirthDate(t) == Failure(InvalidCalendarDate)
  {
    var f := DateFields("30", "02", "2000");
    assert Joined(f) == t;
    assert WellFormed(f);
    DigitsValueOfTwo(f.day);
    DigitsValueOfTwo(f.month);
    DigitsValueOfFour(f.year);
    assert DigitsValue(f.day) == 30 && DigitsValue(f.month) == 2 && DigitsValue(f.year) == 2000;
    assert !IsValidDate(2000, 2, 30);
    ParseWellFormed(f);
  }

  lemma ParseExampleCenturyYear(t: string)
    requires t == "29.02.1900"
    ensures ParseBirthDate(t) == Failure(InvalidCalendarDate)
  {
    var f := DateFields("29", "02", "1900");
    assert Joined(f) == t;
    assert WellFormed(f);
    DigitsValueOfTwo(f.day);
    DigitsValueOfTwo(f.month);
    DigitsValueOfFour(f.year);
    assert DigitsValue(f.day) == 29 && DigitsValue(f.month) == 2 && DigitsValue(f.year) == 1900;
    assert !IsValidDate(1900, 2, 29);
    ParseWellFormed(f);
  }

  lemma ParseExampleYearZero(t: string)
    requires t == "01.01.0000"
    ensures ParseBirthDate(t) == Failure(InvalidCalendarDate)
  {
    var f := DateFields("01", "01", "0000");
    assert Joined(f) == t;
    assert WellFormed(f);
    DigitsValueOfTwo(f.day);
    DigitsValueOfTwo(f.month);
    DigitsValueOfFour(f.year);
    assert DigitsValue(f.day) == 1 && DigitsValue(f.month) == 1 && DigitsValue(f.year) == 0;
    assert !IsValidDate(0, 1, 1);
    ParseWellFormed(f);
  }

  lemma ParseExampleSlashes(t: string)
    requires t == "1/1/2000"
    ensures ParseBirthDate(t) == Failure(InvalidFormat)
  {
    LeadingDigitsOfGroup("1", '/', t[2..], 2);
    assert t == "1" + ['/'] + t[2..];
  }
}
