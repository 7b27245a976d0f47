/** components/dashboard/spending-trends-chart.tsx: one row per day of the
    selected month with the day's converted income and expenses, and the
    running total of expenses over those rows. */
module SpendingTrends {
  import opened Folds
  import opened Currency
  import opened Finance
  import opened Calendar
  import opened DayTotals

  // ------------------------------------------------------------------
  // dailyDataOriginal and cumulativeData
  // ------------------------------------------------------------------

  datatype DayRow = DayRow(day: int, expenses: real, income: real, net: real)

  function DayExpenses(row: DayRow): real
  {
    row.expenses
  }

  /** The row of day d: that day's transactions, then those of each type,
      with converted amounts. */
  function DayRowOf(ts: seq<Transaction>, pref: Currency, ym: YearMonth, d: int): DayRow
  {
    var dayTs := Filter(ts, OnDay(ym, d));
    var expenses := Sum(Filter(dayTs, IsExpense), Converted(pref));
    var income := Sum(Filter(dayTs, IsIncome), Converted(pref));
    DayRow(d, expenses, income, income - expenses)
  }

  /** `dailyDataOriginal`: one row for each day 1..daysInMonth, in order, each
      with `net = income - expenses`. */
  function DailyRows(ts: seq<Transaction>, pref: Currency, ym: YearMonth): (r: seq<DayRow>)
    requires ValidMonth(ym)
    ensures |r| == DaysInMonth(ym.year, ym.month)
    ensures forall i :: 0 <= i < |r| ==> r[i].day == i + 1 && r[i].net == r[i].income - r[i].expenses
  {
    seq(DaysInMonth(ym.year, ym.month), i => DayRowOf(ts, pref, ym, i + 1))
  }

  /** A day row counts exactly the transactions of its year, month and day. */
  lemma DayRowSpec(ts: seq<Transaction>, pref: Currency, ym: YearMonth, d: int)
    ensures DayRowOf(ts, pref, ym, d).expenses == DayKindTotal(ts, ym, d, Expense, Converted(pref))
    ensures DayRowOf(ts, pref, ym, d).income == DayKindTotal(ts, ym, d, Income, Converted(pref))
  {
    FilterFilter(ts, OnDay(ym, d), IsExpense, KindOnDay(ym, d, Expense));
    FilterFilter(ts, OnDay(ym, d), IsIncome, KindOnDay(ym, d, Income));
  }

  /** The expenses of the first i + 1 rows. */
  function RunningTotal(rows: seq<DayRow>, i: int): real
    requires 0 <= i < |rows|
  {
    Sum(rows[..i + 1], DayExpenses)
  }

  /** A day row with the running expense total up to and including it. */
  datatype CumulativeRow = CumulativeRow(row: DayRow, cumulative: real)

  /** `cumulativeData`: the rows in order, each carrying the sum of the
      expenses of itself and every row before it. */
  method CumulativeData(rows: seq<DayRow>) returns (out: seq<CumulativeRow>)
    ensures |out| == |rows|
    ensures forall i :: 0 <= i < |rows| ==> out[i] == CumulativeRow(rows[i], RunningTotal(rows, i))
  {
    var cumulativeExpenses := 0.0;
    out := [];
    for i := 0 to |rows|
      invariant |out| == i
      invariant cumulativeExpenses == Sum(rows[..i], DayExpenses)
      invariant forall j :: 0 <= j < i ==> out[j] == CumulativeRow(rows[j], RunningTotal(rows, j))
    {
      SumPrefixStep(rows, i + 1, DayExpenses);
      cumulativeExpenses := cumulativeExpenses + rows[i].expenses;
      out := out + [CumulativeRow(rows[i], cumulativeExpenses)];
    }
  }

  /** Over the daily rows, the expenses of the first k rows are the converted
      expense total of days 1..k. */
  lemma {:induction false} DailyRowsPrefix(ts: seq<Transaction>, pref: Currency, ym: YearMonth, k: nat)
    requires ValidMonth(ym) && k <= DaysInMonth(ym.year, ym.month)
    ensures Sum(DailyRows(ts, pref, ym)[..k], DayExpenses) == DaysTotal(ts, ym, Expense, Converted(pref), k)
  {
    if k > 0 {
      var previous := DaysTotal(ts, ym, Expense, Converted(pref), k - 1);
      var today := DayKindTotal(ts, ym, k, Expense, Converted(pref));
      assert DaysTotal(ts, ym, Expense, Converted(pref), k) == previous + today;
      DailyRowsPrefix(ts, pref, ym, k - 1);
      DailyRowsStep(ts, pref, ym, k);
    }
  }

  lemma DailyRowsStep(ts: seq<Transaction>, pref: Currency, ym: YearMonth, k: nat)
    requires ValidMonth(ym) && 0 < k <= DaysInMonth(ym.year, ym.month)
    ensures Sum(DailyRows(ts, pref, ym)[..k], DayExpenses) ==
      Sum(DailyRows(ts, pref, ym)[..k - 1], DayExpenses) + DayKindTotal(ts, ym, k, Expense, Converted(pref))
  {
    var rows := DailyRows(ts, pref, ym);
    SumPrefixStep(rows, k, DayExpenses);
    assert rows[k - 1] == DayRowOf(ts, pref, ym, k);
    DayRowSpec(ts, pref, ym, k);
  }

  /** The cumulative column over the daily rows: on day i + 1 it is the
      converted expense total of days 1..i + 1. */
  lemma CumulativeSpec(ts: seq<Transaction>, pref: Currency, ym: YearMonth)
    requires ValidMonth(ym)
    ensures forall i :: 0 <= i < |DailyRows(ts, pref, ym)| ==>
      RunningTotal(DailyRows(ts, pref, ym), i) == Sum(Filter(ts, KindUpToDay(ym, i + 1, Expense)), Converted(pref))
  {
    var rows := DailyRows(ts, pref, ym);
    forall i | 0 <= i < |rows|
      ensures RunningTotal(rows, i) == Sum(Filter(ts, KindUpToDay(ym, i + 1, Expense)), Converted(pref))
    {
      DailyRowsPrefix(ts, pref, ym, i + 1);
      DaysTotalSpec(ts, ym, Expense, Converted(pref), i + 1);
    }
  }

  /** With non-negative amounts the cumulative column never decreases. */
  lemma CumulativeMonotone(ts: seq<Transaction>, pref: Currency, ym: YearMonth)
    requires ValidMonth(ym)
    requires forall t :: t in ts ==> t.amount >= 0.0
    ensures forall i, j :: 0 <= i <= j < |DailyRows(ts, pref, ym)| ==>
      RunningTotal(DailyRows(ts, pref, ym), i) <= RunningTotal(DailyRows(ts, pref, ym), j)
  {
    var rows := DailyRows(ts, pref, ym);
    forall row | row in rows ensures DayExpenses(row) >= 0.0 {
      var k :| 0 <= k < |rows| && rows[k] == row;
      DayExpensesNonNegative(ts, pref, ym, k + 1);
    }
    forall i, j | 0 <= i <= j < |rows|
      ensures RunningTotal(rows, i) <= RunningTotal(rows, j)
    {
      SumPrefixMonotone(rows, i + 1, j + 1, DayExpenses);
    }
  }

  /** With non-negative amounts a day's converted expenses are non-negative. */
  lemma DayExpensesNonNegative(ts: seq<Transaction>, pref: Currency, ym: YearMonth, d: int)
    requires forall t :: t in ts ==> t.amount >= 0.0
    ensures DayRowOf(ts, pref, ym, d).expenses >= 0.0
  {
    var dayTs := Filter(ts, OnDay(ym, d));
    FilterMembers(ts, OnDay(ym, d));
    FilterMembers(dayTs, IsExpense);
    ConvertedNonNegative(Filter(dayTs, IsExpense), pref);
    SumNonNegative(Filter(dayTs, IsExpense), Converted(pref));
  }

  /** When every transaction of the month is dated on one of its days, the
      expenses of all the rows are the month's converted expense total. */
  lemma CumulativeLast(ts: seq<Transaction>, pref: Currency, ym: YearMonth)
    requires ValidMonth(ym)
    requires forall t :: t in ts && MonthOf(t) == ym ==> 1 <= t.date.day <= DaysInMonth(ym.year, ym.month)
    ensures Sum(DailyRows(ts, pref, ym), DayExpenses) == Sum(Filter(ts, KindIn(ym, Expense)), Converted(pref))
  {
    var rows := DailyRows(ts, pref, ym);
    DailyRowsPrefix(ts, pref, ym, |rows|);
    assert rows[..|rows|] == rows;
    WholeMonth(ts, ym, Expense, Converted(pref));
  }
}
