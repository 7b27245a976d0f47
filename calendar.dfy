/** The Gregorian calendar as spending-trends-chart.tsx reads it from
    JavaScript's Date: leap years and the length of each month. */
module Calendar {
  predicate IsLeapYear(year: int)
  {
    year % 4 == 0 && (year % 100 != 0 || year % 400 == 0)
  }

  /** `new Date(year, month + 1, 0).getDate()`: the last day of the month. */
  function DaysInMonth(year: int, month: int): (r: int)
    requires 0 <= month <= 11
    ensures 28 <= r <= 31
    ensures month == 1 ==> (r == 29 <==> IsLeapYear(year))
  {
    if month == 1 then (if IsLeapYear(year) then 29 else 28)
    else if month == 3 || month == 5 || month == 8 || month == 10 then 30
    else 31
  }

  /** The twelve months make up a Gregorian year of 365 or 366 days. */
  lemma DaysInYear(year: int)
    ensures DaysInMonth(year, 0) + DaysInMonth(year, 1) + DaysInMonth(year, 2) + DaysInMonth(year, 3) +
      DaysInMonth(year, 4) + DaysInMonth(year, 5) + DaysInMonth(year, 6) + DaysInMonth(year, 7) +
      DaysInMonth(year, 8) + DaysInMonth(year, 9) + DaysInMonth(year, 10) + DaysInMonth(year, 11) ==
      if IsLeapYear(year) then 366 else 365
  {
  }
}
