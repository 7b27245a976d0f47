/** `getMonthlyData` of components/dashboard/income-expense-chart.tsx: the
    selected month and the five before it, a dictionary of zeroed buckets
    keyed by month, one pass over the transactions adding raw amounts to the
    bucket of their month, and one bar per month of the window. */
module IncomeExpenseChart {
  import opened Folds
  import opened Calendar
  import opened Finance

  /** The income and expense totals of one month bucket. */
  datatype Bucket = Bucket(income: real, expenses: real)

  /** One bar group: the month with its income, expenses and net. */
  datatype MonthBar = MonthBar(month: YearMonth, income: real, expenses: real, net: real)

  /** The six months ending at the selected one, oldest first. */
  function Window(selected: YearMonth): (r: seq<YearMonth>)
    ensures |r| == 6
  {
    seq(6, k requires 0 <= k < 6 => MonthsBack(selected, 5 - k))
  }

  /** Reference definition of a bucket: the raw amounts of the month's
      incomes, and of its transactions of any other type. */
  function BucketOf(ts: seq<Transaction>, ym: YearMonth): Bucket
  {
    Bucket(Sum(Filter(ts, IncomeIn(ym)), RawAmount), Sum(Filter(ts, ExpenseIn(ym)), RawAmount))
  }

  /** The bar of a month drawn from its bucket. */
  function BarOf(ym: YearMonth, data: Bucket): MonthBar
  {
    MonthBar(ym, data.income, data.expenses, data.income - data.expenses)
  }

  /** `monthlyTotals[monthKey].income += amount` for an income, `.expenses +=`
      for any other type. */
  function Added(data: Bucket, t: Transaction): Bucket
  {
    if t.kind == Income then Bucket(data.income + t.amount, data.expenses)
    else Bucket(data.income, data.expenses + t.amount)
  }

  /** getMonthlyData. Month keys are the (year, month) pairs themselves. */
  method GetMonthlyData(ts: seq<Transaction>, selected: YearMonth) returns (bars: seq<MonthBar>)
    requires ValidMonth(selected)
    ensures |bars| == 6
    ensures forall k :: 0 <= k < 6 ==> bars[k] == BarOf(Window(selected)[k], BucketOf(ts, Window(selected)[k]))
  {
    var months := MonthsOfWindow(selected);
    var zeroed := ZeroBuckets(months);
    var totals := AddTransactions(ts, zeroed);
    assert forall k :: 0 <= k < 6 ==> months[k] in totals;
    bars := seq(6, k requires 0 <= k < 6 => BarOf(months[k], totals[months[k]]));
  }

  /** The `for` loop that pushes the selected month and the five before it,
      oldest first. */
  method MonthsOfWindow(selected: YearMonth) returns (months: seq<YearMonth>)
    ensures months == Window(selected)
  {
    months := [];
    var i := 5;
    while i >= 0
      invariant -1 <= i <= 5
      invariant months == Window(selected)[..5 - i]
    {
      assert Window(selected)[..5 - i + 1] == Window(selected)[..5 - i] + [MonthsBack(selected, i)];
      months := months + [MonthsBack(selected, i)];
      i := i - 1;
    }
  }

  /** The `forEach` that gives every month of the window a zero bucket. */
  method ZeroBuckets(months: seq<YearMonth>) returns (totals: map<YearMonth, Bucket>)
    ensures forall m :: m in totals <==> m in months
    ensures forall m :: m in totals ==> totals[m] == Bucket(0.0, 0.0)
  {
    totals := map[];
    for j := 0 to |months|
      invariant forall m :: m in totals <==> m in months[..j]
      invariant forall m :: m in totals ==> totals[m] == Bucket(0.0, 0.0)
    {
      assert months[..j + 1] == months[..j] + [months[j]];
      totals := totals[months[j] := Bucket(0.0, 0.0)];
    }
    assert months[..|months|] == months;
  }

  /** The `forEach` over the transactions: each one whose month has a bucket
      is added to it; the others are ignored. */
  method AddTransactions(ts: seq<Transaction>, zeroed: map<YearMonth, Bucket>) returns (totals: map<YearMonth, Bucket>)
    requires forall m :: m in zeroed ==> zeroed[m] == Bucket(0.0, 0.0)
    ensures forall m :: m in totals <==> m in zeroed
    ensures forall m :: m in totals ==> totals[m] == BucketOf(ts, m)
  {
    totals := zeroed;
    forall m | m in totals ensures totals[m] == BucketOf(ts[..0], m) {
      assert ts[..0] == [];
    }
    for j := 0 to |ts|
      invariant forall m :: m in totals <==> m in zeroed
      invariant forall m :: m in totals ==> totals[m] == BucketOf(ts[..j], m)
    {
      var t := ts[j];
      var monthKey := MonthOf(t);
      ghost var before := totals;
      if monthKey in totals {
        totals := totals[monthKey := Added(totals[monthKey], t)];
      }
      forall m | m in totals ensures totals[m] == BucketOf(ts[..j + 1], m) {
        BucketStep(before, totals, ts, j, m);
      }
    }
    assert ts[..|ts|] == ts;
  }

  /** One `forEach` step, seen from month m: a transaction of month m is
      added to its bucket, and every other bucket stays. */
  lemma BucketStep(before: map<YearMonth, Bucket>, after: map<YearMonth, Bucket>, ts: seq<Transaction>, j: nat, m: YearMonth)
    requires j < |ts|
    requires m in before && before[m] == BucketOf(ts[..j], m)
    requires after == if MonthOf(ts[j]) in before then before[MonthOf(ts[j]) := Added(before[MonthOf(ts[j])], ts[j])] else before
    ensures after[m] == BucketOf(ts[..j + 1], m)
  {
    var seen, t := ts[..j], ts[j];
    assert ts[..j + 1] == seen + [t];
    SumFilterSnoc(seen, t, IncomeIn(m), RawAmount);
    SumFilterSnoc(seen, t, ExpenseIn(m), RawAmount);
    if MonthOf(t) != m {
      assert after[m] == before[m];
    }
  }

  /** The window runs in chronological order, one month apart, from five
      months back to the selected month, within 0..11. */
  lemma WindowChronological(selected: YearMonth)
    requires ValidMonth(selected)
    ensures Window(selected)[5] == selected
    ensures forall k :: 0 <= k < 6 ==>
      ValidMonth(Window(selected)[k]) && MonthIndex(Window(selected)[k]) == MonthIndex(selected) - (5 - k)
    ensures forall k :: 0 <= k < 5 ==> MonthIndex(Window(selected)[k + 1]) == MonthIndex(Window(selected)[k]) + 1
  {
    forall k | 0 <= k < 6
      ensures ValidMonth(Window(selected)[k]) && MonthIndex(Window(selected)[k]) == MonthIndex(selected) - (5 - k)
    {
      assert Window(selected)[k] == MonthsBack(selected, 5 - k);
    }
  }

  /** Every transaction of a month is counted once: as income or, whatever
      its other type, as an expense. */
  lemma BucketCoversMonth(ts: seq<Transaction>, ym: YearMonth)
    ensures BucketOf(ts, ym).income + BucketOf(ts, ym).expenses == Sum(Filter(ts, InMonth(ym)), RawAmount)
  {
    SumFilterSplit(ts, InMonth(ym), IncomeIn(ym), ExpenseIn(ym), RawAmount);
  }

  /** A transaction dated outside the window changes no bar. */
  lemma OutsideWindowIgnored(ts: seq<Transaction>, t: Transaction, selected: YearMonth)
    requires MonthOf(t) !in Window(selected)
    ensures forall k :: 0 <= k < 6 ==>
      BucketOf(ts + [t], Window(selected)[k]) == BucketOf(ts, Window(selected)[k])
  {
    forall k | 0 <= k < 6 ensures BucketOf(ts + [t], Window(selected)[k]) == BucketOf(ts, Window(selected)[k]) {
      var m := Window(selected)[k];
      SumFilterSnoc(ts, t, IncomeIn(m), RawAmount);
      SumFilterSnoc(ts, t, ExpenseIn(m), RawAmount);
    }
  }

  /** The chart is handed only the selected month's transactions, so the
      five earlier bars are all zero. */
  lemma OnlyLastBar(ts: seq<Transaction>, selected: YearMonth)
    requires ValidMonth(selected)
    requires forall t :: t in ts ==> MonthOf(t) == selected
    ensures forall k :: 0 <= k < 5 ==> BucketOf(ts, Window(selected)[k]) == Bucket(0.0, 0.0)
  {
    WindowChronological(selected);
    forall k | 0 <= k < 5 ensures BucketOf(ts, Window(selected)[k]) == Bucket(0.0, 0.0) {
      var m := Window(selected)[k];
      assert m != selected;
      FilterKeepsNone(ts, IncomeIn(m));
      FilterKeepsNone(ts, ExpenseIn(m));
    }
  }

  /** The date the source pushes for offset i: `new Date(selectedDate)` and
      then `setMonth(getMonth() - i)`. The day of month is kept, and a day
      past the end of the target month rolls over into the month after it. */
  function SetMonthBack(sel: Date, i: nat): (r: Date)
    requires 0 <= sel.month <= 11 && 1 <= sel.day <= 31
    ensures 0 <= r.month <= 11 && 1 <= r.day <= 31
  {
    var t := MonthsBack(YearMonth(sel.year, sel.month), i);
    var last := DaysInMonth(t.year, t.month);
    if sel.day <= last then Date(t.year, t.month, sel.day)
    else
      var n := NextMonth(t);
      Date(n.year, n.month, sel.day - last)
  }

  /** The months the source's window keys, oldest first, for a selected full
      date. */
  function SourceWindow(sel: Date): (r: seq<YearMonth>)
    requires 0 <= sel.month <= 11 && 1 <= sel.day <= 31
    ensures |r| == 6
  {
    seq(6, k requires 0 <= k < 6 => YearMonth(SetMonthBack(sel, 5 - k).year, SetMonthBack(sel, 5 - k).month))
  }

  /** Up to the 28th no month rolls over, so the source's window is the
      window of the selected month. */
  lemma SourceWindowAgrees(sel: Date)
    requires 0 <= sel.month <= 11 && 1 <= sel.day <= 28
    ensures SourceWindow(sel) == Window(YearMonth(sel.year, sel.month))
  {
    var ym := YearMonth(sel.year, sel.month);
    forall k | 0 <= k < 6 ensures SourceWindow(sel)[k] == Window(ym)[k] {
      var t := MonthsBack(ym, 5 - k);
      assert ValidMonth(t);
      assert sel.day <= DaysInMonth(t.year, t.month);
    }
  }

  /** On the 31st of March 2025 the source keys October, December, December,
      January, March and March: November and February roll over, and the
      fifth bar is March again, so with the input cut to March it is not
      zero. */
  lemma SourceWindowOverflow()
    ensures SourceWindow(Date(2025, 2, 31)) ==
      [YearMonth(2024, 9), YearMonth(2024, 11), YearMonth(2024, 11), YearMonth(2025, 0), YearMonth(2025, 2), YearMonth(2025, 2)]
    ensures SourceWindow(Date(2025, 2, 31)) != Window(YearMonth(2025, 2))
  {
    var sel := Date(2025, 2, 31);
    assert SetMonthBack(sel, 4) == Date(2024, 11, 1);
    assert SetMonthBack(sel, 1) == Date(2025, 2, 3);
    assert Window(YearMonth(2025, 2))[1] == YearMonth(2024, 10);
  }
}
