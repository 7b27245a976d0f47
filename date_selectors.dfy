/** The month pickers of components/dashboard/global-date-selector.tsx and
    components/dashboard/date-selector.tsx: previous and next month (both
    use Finance.PrevMonth and Finance.NextMonth), the quick selections, the
    year options and the quarters. The selection is a YearMonth; the two
    callbacks `onMonthChange` and `onYearChange` together set it, and "now"
    is a parameter. */
module DateSelectors {
  import opened Finance

  /** Next is the one valid month right after the selection, previous the
      one right before it. */
  lemma NavigationUnique(sel: YearMonth, m: YearMonth)
    requires ValidMonth(sel) && ValidMonth(m)
    ensures MonthIndex(m) == MonthIndex(sel) + 1 <==> m == NextMonth(sel)
    ensures MonthIndex(m) == MonthIndex(sel) - 1 <==> m == PrevMonth(sel)
  {
    MonthIndexInjective(m, NextMonth(sel));
    MonthIndexInjective(m, PrevMonth(sel));
  }

  /** `handleQuickSelect`: 'current' selects now, 'last' the month before
      now, 'ytd' January of now's year; any other period keeps the
      selection. */
  function QuickSelect(period: string, now: YearMonth, sel: YearMonth): (r: YearMonth)
    ensures period == "current" ==> r == now
    ensures period == "last" ==> r == PrevMonth(now)
    ensures period == "ytd" ==> r == YearMonth(now.year, 0)
    ensures period !in {"current", "last", "ytd"} ==> r == sel
  {
    if period == "current" then now
    else if period == "last" then
      YearMonth(if now.month == 0 then now.year - 1 else now.year, if now.month == 0 then 11 else now.month - 1)
    else if period == "ytd" then YearMonth(now.year, 0)
    else sel
  }

  /** Every quick selection is a valid month no later than now; the year to
      date starts in January of now's year. */
  lemma QuickSelectBounds(period: string, now: YearMonth, sel: YearMonth)
    requires ValidMonth(now) && ValidMonth(sel)
    ensures ValidMonth(QuickSelect(period, now, sel))
    ensures period in {"current", "last", "ytd"} ==> MonthIndex(QuickSelect(period, now, sel)) <= MonthIndex(now)
    ensures period == "ytd" ==> MonthIndex(now) - MonthIndex(QuickSelect(period, now, sel)) == now.month
    ensures period !in {"current", "last", "ytd"} ==> QuickSelect(period, now, sel) == sel
  {
  }

  /** `Array.from({ length: count }, (_, i) => currentYear - back + i)`. */
  function YearRange(currentYear: int, back: int, count: nat): (r: seq<int>)
    ensures |r| == count
    ensures forall i :: 0 < i < |r| ==> r[i] == r[i - 1] + 1
  {
    seq(count, i => currentYear - back + i)
  }

  /** The range holds exactly the years from currentYear - back on, count
      of them. */
  lemma YearRangeMembers(currentYear: int, back: int, count: nat)
    ensures forall y :: y in YearRange(currentYear, back, count) <==>
      currentYear - back <= y < currentYear - back + count
  {
    var r := YearRange(currentYear, back, count);
    forall y | currentYear - back <= y < currentYear - back + count ensures y in r {
      assert r[y - (currentYear - back)] == y;
    }
  }

  /** The global selector's ten years. */
  function GlobalYears(currentYear: int): seq<int>
  {
    YearRange(currentYear, 5, 10)
  }

  /** The simple selector's five years. */
  function SelectorYears(currentYear: int): seq<int>
  {
    YearRange(currentYear, 2, 5)
  }

  /** Ten consecutive years, five before the current one to four after. */
  lemma GlobalYearsSpec(currentYear: int)
    ensures |GlobalYears(currentYear)| == 10
    ensures GlobalYears(currentYear)[0] == currentYear - 5 && GlobalYears(currentYear)[9] == currentYear + 4
    ensures forall y :: y in GlobalYears(currentYear) <==> currentYear - 5 <= y <= currentYear + 4
  {
    YearRangeMembers(currentYear, 5, 10);
  }

  /** Five consecutive years, two either side of the current one. */
  lemma SelectorYearsSpec(currentYear: int)
    ensures |SelectorYears(currentYear)| == 5
    ensures SelectorYears(currentYear)[0] == currentYear - 2 && SelectorYears(currentYear)[4] == currentYear + 2
    ensures forall y :: y in SelectorYears(currentYear) <==> currentYear - 2 <= y <= currentYear + 2
  {
    YearRangeMembers(currentYear, 2, 5);
  }

  /** One entry of `quarters`. */
  datatype Quarter = Quarter(name: string, months: seq<int>)

  const Quarters: seq<Quarter> := [
    Quarter("Q1", [0, 1, 2]),
    Quarter("Q2", [3, 4, 5]),
    Quarter("Q3", [6, 7, 8]),
    Quarter("Q4", [9, 10, 11])]

  /** The quarters are four runs of three consecutive months, and each month
      0..11 lies in exactly one of them, the (month / 3)-th. */
  lemma QuartersPartition()
    ensures |Quarters| == 4
    ensures forall q :: 0 <= q < 4 ==> Quarters[q].months == [3 * q, 3 * q + 1, 3 * q + 2]
    ensures forall m, q :: 0 <= m <= 11 && 0 <= q < 4 ==> (m in Quarters[q].months <==> q == m / 3)
  {
    forall m, q | 0 <= m <= 11 && 0 <= q < 4 ensures m in Quarters[q].months <==> q == m / 3 {
      assert Quarters[q].months == [3 * q, 3 * q + 1, 3 * q + 2];
    }
  }
}
