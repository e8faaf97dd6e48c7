/** Calendar dates as Python's `datetime.date` treats them: the proleptic
    Gregorian calendar, years 1 through 9999, compared as (year, month, day). */
module Calendar {

  const MinYear := 1
  const MaxYear := 9999

  datatype Date = Date(year: int, month: int, day: int)

  predicate IsLeapYear(year: int) {
    year % 4 == 0 && (year % 100 != 0 || year % 400 == 0)
  }

  function DaysInMonth(year: int, month: int): (n: int)
    requires 1 <= month <= 12
    ensures 28 <= n <= 31
    ensures month == 2 <==> n < 30
  {
    if month == 2 then (if IsLeapYear(year) then 29 else 28)
    else if month == 4 || month == 6 || month == 9 || month == 11 then 30
    else 31
  }

  /** The checks `datetime(year, month, day)` makes before it accepts its
      arguments; any failure raises ValueError. */
  predicate IsValidDate(year: int, month: int, day: int)
    ensures IsValidDate(year, month, day) ==>
      MinYear <= year <= MaxYear && 1 <= month <= 12 && 1 <= day <= 31
    ensures MinYear <= year <= MaxYear && 1 <= month <= 12 && 1 <= day <= 28 ==>
      IsValidDate(year, month, day)
  {
    MinYear <= year <= MaxYear && 1 <= month <= 12 && 1 <= day <= DaysInMonth(year, month)
  }

  /** Python's `date.__lt__`: lexicographic on (year, month, day). */
  predicate Before(a: Date, b: Date) {
    a.year < b.year
    || (a.year == b.year && a.month < b.month)
    || (a.year == b.year && a.month == b.month && a.day < b.day)
  }

  /** Days in the months 1..month of `year`. */
  function DaysThrough(year: int, month: int): (n: int)
    requires 0 <= month <= 12
    decreases month
  {
    if month == 0 then 0 else DaysThrough(year, month - 1) + DaysInMonth(year, month)
  }

  /** The twelve month lengths add up to the length of a Gregorian year. */
  lemma YearLength(year: int)
    ensures DaysThrough(year, 12) == if IsLeapYear(year) then 366 else 365
  {
    var leap := if IsLeapYear(year) then 1 else 0;
    assert DaysThrough(year, 1) == 31;
    assert DaysThrough(year, 2) == 59 + leap;
    assert DaysThrough(year, 6) == 181 + leap;
    assert DaysThrough(year, 12) == 365 + leap;
  }

  /** 29 February exists exactly in leap years. */
  lemma LeapDay(year: int)
    requires MinYear <= year <= MaxYear
    ensures IsValidDate(year, 2, 29) <==> IsLeapYear(year)
  {
  }

  /** `Before` is a strict total order on dates. */
  lemma BeforeIsStrictTotalOrder(a: Date, b: Date, c: Date)
    ensures !Before(a, a)
    ensures Before(a, b) ==> !Before(b, a)
    ensures Before(a, b) && Before(b, c) ==> Before(a, c)
    ensures a == b || Before(a, b) || Before(b, a)
  {
  }
}
