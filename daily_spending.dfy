/** `getDailySpendingData` of components/dashboard/spending-trends-chart.tsx:
    raw expense amounts bucketed by day in a dictionary, then a walk over
    the days of the month carrying a running total. */
module DailySpending {
  import opened Folds
  import opened Finance
  import opened Calendar
  import opened DayTotals

  /** One point of the daily spending series. */
  datatype SpendingPoint = SpendingPoint(day: int, amount: real, cumulative: real)

  /** `dailyTotals[dayKey] || 0`. */
  function Lookup(totals: map<int, real>, d: int): real
  {
    if d in totals then totals[d] else 0.0
  }

  /** The month window `firstDay <= date <= lastDay`, on day d. */
  function InWindowOn(ym: YearMonth, last: int, d: int): Transaction -> bool
  {
    (t: Transaction) => MonthOf(t) == ym && 1 <= t.date.day <= last && t.date.day == d
  }

  /** Reference definition of the point of day d. */
  function PointOf(ts: seq<Transaction>, ym: YearMonth, d: nat): SpendingPoint
  {
    SpendingPoint(d, DayKindTotal(ts, ym, d, Expense, RawAmount), DaysTotal(ts, ym, Expense, RawAmount, d))
  }

  /** `getDailySpendingData`: the expenses dated within the month are added up
      by day with their raw amounts; then for every day 1..lastDay a point
      carries that day's total (0 without expenses) and the running total. */
  method GetDailySpendingData(ts: seq<Transaction>, ym: YearMonth) returns (data: seq<SpendingPoint>)
    requires ValidMonth(ym)
    ensures |data| == DaysInMonth(ym.year, ym.month)
    ensures forall i :: 0 <= i < |data| ==> data[i] == PointOf(ts, ym, i + 1)
  {
    var last := DaysInMonth(ym.year, ym.month);
    var totals := DailyTotals(ts, ym, last);
    var cumulativeSpending := 0.0;
    data := [];
    for day := 1 to last + 1
      invariant |data| == day - 1
      invariant cumulativeSpending == DaysTotal(ts, ym, Expense, RawAmount, day - 1)
      invariant forall j :: 0 <= j < |data| ==> data[j] == PointOf(ts, ym, j + 1)
    {
      var dailyAmount := Lookup(totals, day);
      assert dailyAmount == DayKindTotal(ts, ym, day, Expense, RawAmount);
      cumulativeSpending := cumulativeSpending + dailyAmount;
      assert cumulativeSpending == DaysTotal(ts, ym, Expense, RawAmount, day);
      var point := SpendingPoint(day, dailyAmount, cumulativeSpending);
      assert point == PointOf(ts, ym, day);
      data := data + [point];
    }
  }

  /** The raw total of the expenses among s that fall on day d of the window. */
  function WindowTotal(s: seq<Transaction>, ym: YearMonth, last: int, d: int): real
  {
    Sum(Filter(s, InWindowOn(ym, last, d)), RawAmount)
  }

  /** The `dailyTotals` dictionary: for each day 1..last, the raw total of
      the expenses dated on it. */
  method DailyTotals(ts: seq<Transaction>, ym: YearMonth, last: int) returns (totals: map<int, real>)
    ensures forall d :: 1 <= d <= last ==> Lookup(totals, d) == DayKindTotal(ts, ym, d, Expense, RawAmount)
  {
    var expenses := Filter(ts, IsExpense);
    totals := map[];
    for i := 0 to |expenses|
      invariant forall d :: Lookup(totals, d) == WindowTotal(expenses[..i], ym, last, d)
    {
      var t := expenses[i];
      ghost var before := totals;
      if MonthOf(t) == ym && 1 <= t.date.day <= last {
        totals := totals[t.date.day := Lookup(totals, t.date.day) + t.amount];
      }
      assert expenses[..i + 1] == expenses[..i] + [t];
      forall d ensures Lookup(totals, d) == WindowTotal(expenses[..i + 1], ym, last, d) {
        TotalsStep(before, totals, expenses[..i], t, ym, last, d);
      }
    }
    assert expenses[..|expenses|] == expenses;
    WindowIsDay(ts, ym, last);
  }

  /** Inside the window, the expenses of day d are that day's expenses. */
  lemma WindowIsDay(ts: seq<Transaction>, ym: YearMonth, last: int)
    ensures forall d :: 1 <= d <= last ==> WindowTotal(Filter(ts, IsExpense), ym, last, d) == DayKindTotal(ts, ym, d, Expense, RawAmount)
  {
    forall d | 1 <= d <= last
      ensures WindowTotal(Filter(ts, IsExpense), ym, last, d) == DayKindTotal(ts, ym, d, Expense, RawAmount)
    {
      FilterFilter(ts, IsExpense, InWindowOn(ym, last, d), KindOnDay(ym, d, Expense));
    }
  }

  /** One `forEach` step, seen from day d: an expense inside the window adds
      its amount to its own day's entry; every other entry, and every entry
      for an expense outside the window, stays. */
  lemma TotalsStep(before: map<int, real>, after: map<int, real>, seen: seq<Transaction>, t: Transaction, ym: YearMonth, last: int, d: int)
    requires Lookup(before, d) == WindowTotal(seen, ym, last, d)
    requires after == if MonthOf(t) == ym && 1 <= t.date.day <= last then before[t.date.day := Lookup(before, t.date.day) + t.amount] else before
    ensures Lookup(after, d) == WindowTotal(seen + [t], ym, last, d)
  {
    SumFilterSnoc(seen, t, InWindowOn(ym, last, d), RawAmount);
    if MonthOf(t) == ym && 1 <= t.date.day <= last && d == t.date.day {
      assert InWindowOn(ym, last, d)(t);
    } else {
      assert !InWindowOn(ym, last, d)(t);
      assert Lookup(after, d) == Lookup(before, d);
    }
  }

  /** The spending series ends at the month's raw expense total when every
      transaction of the month is dated on one of its days, and never
      decreases when amounts are non-negative. */
  lemma SpendingSeriesSpec(ts: seq<Transaction>, ym: YearMonth, i: nat, j: nat)
    requires ValidMonth(ym)
    ensures (forall t :: t in ts ==> t.amount >= 0.0) && i <= j ==>
      DaysTotal(ts, ym, Expense, RawAmount, i) <= DaysTotal(ts, ym, Expense, RawAmount, j)
    ensures (forall t :: t in ts && MonthOf(t) == ym ==> 1 <= t.date.day <= DaysInMonth(ym.year, ym.month)) ==>
      DaysTotal(ts, ym, Expense, RawAmount, DaysInMonth(ym.year, ym.month)) == Sum(Filter(ts, KindIn(ym, Expense)), RawAmount)
  {
    if (forall t :: t in ts ==> t.amount >= 0.0) && i <= j {
      DaysTotalMonotone(ts, ym, Expense, RawAmount, i, j);
    }
    if forall t :: t in ts && MonthOf(t) == ym ==> 1 <= t.date.day <= DaysInMonth(ym.year, ym.month) {
      WholeMonth(ts, ym, Expense, RawAmount);
    }
  }
}
