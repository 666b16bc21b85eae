/** Gregorian calendar arithmetic that the source obtains from JavaScript's `Date`. */
module Calendar {

  /** A calendar date; `month` is 1-based (January is 1). */
  datatype Date = Date(year: int, month: int, day: int)

  predicate IsLeapYear(year: int) {
    year % 4 == 0 && (year % 100 != 0 || year % 400 == 0)
  }

  /** Number of days in `month` of `year`: what `new Date(year, month, 0).getDate()` yields. */
  function DaysInMonth(year: int, month: int): (n: int)
    requires 1 <= month <= 12
    ensures 28 <= n <= 31
    ensures n == 29 <==> month == 2 && IsLeapYear(year)
    ensures n == 28 <==> month == 2 && !IsLeapYear(year)
    ensures n == 30 <==> month in {4, 6, 9, 11}
  {
    if month == 2 then (if IsLeapYear(year) then 29 else 28)
    else if month in {4, 6, 9, 11} then 30
    else 31
  }

  predicate ValidDate(d: Date) {
    1 <= d.month <= 12 && 1 <= d.day <= DaysInMonth(d.year, d.month)
  }

  /** Months since January of year 0; consecutive months have consecutive indices. */
  function MonthIndex(d: Date): int {
    d.year * 12 + (d.month - 1)
  }

  /** Whether the `m`-th monthly anniversary of `birth` (same day of month, `m` months later)
      has been reached on `today`. */
  predicate AnniversaryReached(birth: Date, today: Date, m: int) {
    MonthIndex(birth) + m < MonthIndex(today)
    || (MonthIndex(birth) + m == MonthIndex(today) && birth.day <= today.day)
  }

  /** Reaching an anniversary means every earlier one was reached as well. */
  lemma {:induction false} AnniversaryReachedEarlier(birth: Date, today: Date, m: int, k: int)
    requires k <= m && AnniversaryReached(birth, today, m)
    ensures AnniversaryReached(birth, today, k)
  {
  }

  lemma {:induction false} DaysInMonthExamples()
    ensures DaysInMonth(2024, 2) == 29 && DaysInMonth(2023, 2) == 28
    ensures DaysInMonth(1900, 2) == 28 && DaysInMonth(2000, 2) == 29
    ensures DaysInMonth(2025, 4) == 30 && DaysInMonth(2025, 12) == 31
  {
  }
}
