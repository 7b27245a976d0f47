/** components/dashboard/smart-insights-panel.tsx: the three panel entries
    for the selected month (spending trend against the previous month,
    savings rate, top spending category). */
module SmartInsights {
  import opened Options
  import opened Folds
  import opened Currency
  import opened Finance
  import opened PageSummary

  datatype PanelType = Warning | Success | Info

  /** One panel entry: its id, its type, the amount it displays, and for the
      top-category entry the category it names. */
  datatype PanelInsight = PanelInsight(id: nat, kind: PanelType, value: real, category: Option<string>)

  /** The month's expenses, the previous month's and the month's income, each
      converted per transaction. */
  function MonthTotal(ts: seq<Transaction>, pref: Currency, ym: YearMonth, p: Transaction -> bool): real
  {
    Sum(Filter(Filter(ts, InMonth(ym)), p), Converted(pref))
  }

  /** `expenseChange`: the change against the previous month in percent, or 0
      when the previous month had no (positive) spending. */
  function ExpenseChange(current: real, previous: real): real
  {
    if previous > 0.0 then (current - previous) / previous * 100.0 else 0.0
  }

  /** The spending-trend type: a rise of more than 10% warns, a fall of more
      than 10% is a success, anything else is informational. */
  function TrendType(change: real): PanelType
  {
    if change > 10.0 then PanelType.Warning else if change < -10.0 then Success else Info
  }

  /** The savings-rate type: above 20% success, above 10% info, else warning. */
  function SavingsType(rate: real): PanelType
  {
    if rate > 20.0 then Success else if rate > 10.0 then Info else PanelType.Warning
  }

  /** The trend entry against the month totals: with previous spending a
      warning iff this month exceeds it by more than 10% and a success iff
      this month is under 90% of it; without previous spending always info. */
  lemma TrendTypeSpec(current: real, previous: real)
    ensures previous > 0.0 ==> (TrendType(ExpenseChange(current, previous)) == PanelType.Warning <==> current > 1.1 * previous)
    ensures previous > 0.0 ==> (TrendType(ExpenseChange(current, previous)) == Success <==> current < 0.9 * previous)
    ensures previous <= 0.0 ==> TrendType(ExpenseChange(current, previous)) == Info
  {
    if previous > 0.0 {
      var q := (current - previous) / previous;
      assert q * previous == current - previous;
      QuotientCompare(q, previous, current - previous, 0.1);
      QuotientCompare(q, previous, current - previous, -0.1);
    }
  }

  /** The savings entry against the month totals: with income, success iff
      less than 80% of it was spent and info iff 80% up to under 90% was;
      without income the rate is 0 and the entry warns. */
  lemma SavingsTypeSpec(income: real, expenses: real)
    ensures income > 0.0 ==> (SavingsType(SavingsRateOf(income, income - expenses)) == Success <==> expenses < 0.8 * income)
    ensures income > 0.0 ==> (SavingsType(SavingsRateOf(income, income - expenses)) == Info <==>
      0.8 * income <= expenses < 0.9 * income)
    ensures income <= 0.0 ==> SavingsType(SavingsRateOf(income, income - expenses)) == PanelType.Warning
  {
    if income > 0.0 {
      var q := (income - expenses) / income;
      assert q * income == income - expenses;
      assert SavingsRateOf(income, income - expenses) == q * 100.0;
      QuotientCompare(q, income, income - expenses, 0.2);
      QuotientCompare(q, income, income - expenses, 0.1);
    }
  }

  /** `topCategory`: the first entry of the month's expense totals by category
      sorted by amount, absent when the month has no expenses. */
  function TopCategory(ts: seq<Transaction>, pref: Currency, ym: YearMonth): Option<Entry<string>>
  {
    var ranked := SortBy(GroupEntries(Filter(Filter(ts, InMonth(ym)), IsExpense), CategoryOf, Converted(pref)), Amount);
    if |ranked| > 0 then Some(ranked[0]) else None
  }

  /** The top category is absent exactly when the month has no expenses;
      otherwise it is a category of the month's expenses, carries that
      category's converted total, and no category has a larger total. */
  lemma TopCategorySpec(ts: seq<Transaction>, pref: Currency, ym: YearMonth)
    ensures TopCategory(ts, pref, ym).None? <==> |Filter(Filter(ts, InMonth(ym)), IsExpense)| == 0
    ensures TopCategory(ts, pref, ym).Some? ==>
      var s := Filter(Filter(ts, InMonth(ym)), IsExpense);
      var top := TopCategory(ts, pref, ym).value;
      (exists t :: t in s && t.category == top.key) &&
      top.amount == GroupTotal(s, CategoryOf, top.key, Converted(pref)) &&
      forall t :: t in s ==> GroupTotal(s, CategoryOf, t.category, Converted(pref)) <= top.amount
  {
    var s := Filter(Filter(ts, InMonth(ym)), IsExpense);
    GroupEntriesEmpty(s, CategoryOf, Converted(pref));
    if |s| > 0 {
      var top := TopGroup(s, CategoryOf, Converted(pref));
    }
  }

  /** Entry 3: the top category and its total, or no category and 0. */
  function TopCategoryEntry(top: Option<Entry<string>>): (r: PanelInsight)
    ensures r.id == 3 && r.kind == Info
    ensures r.category.Some? <==> top.Some?
  {
    match top
    case Some(e) => PanelInsight(3, Info, e.amount, Some(e.key))
    case None => PanelInsight(3, Info, 0.0, None)
  }

  /** The month's savings rate: the share of its income not spent, 0 without
      income. */
  function MonthSavingsRate(ts: seq<Transaction>, pref: Currency, ym: YearMonth): real
  {
    var income := MonthTotal(ts, pref, ym, IsIncome);
    SavingsRateOf(income, income - MonthTotal(ts, pref, ym, IsExpense))
  }

  /** Unfolds the month's savings rate into its two month totals. */
  lemma MonthSavingsRateOf(ts: seq<Transaction>, pref: Currency, ym: YearMonth)
    ensures MonthSavingsRate(ts, pref, ym) ==
      SavingsRateOf(MonthTotal(ts, pref, ym, IsIncome), MonthTotal(ts, pref, ym, IsIncome) - MonthTotal(ts, pref, ym, IsExpense))
  {
  }

  /** The three entries the panel shows, in order, built from the month's
      expense total, the previous month's expense total, the savings rate and
      the top category. */
  function Panel(current: real, previous: real, rate: real, top: Option<Entry<string>>): (r: seq<PanelInsight>)
    ensures |r| == 3
    ensures r[0] == PanelInsight(1, TrendType(ExpenseChange(current, previous)), current, None)
    ensures r[1] == PanelInsight(2, SavingsType(rate), rate, None)
    ensures r[2] == TopCategoryEntry(top)
  {
    [
      PanelInsight(1, TrendType(ExpenseChange(current, previous)), current, None),
      PanelInsight(2, SavingsType(rate), rate, None),
      TopCategoryEntry(top)
    ]
  }

  /** The three entries the panel shows, in order: the trend of this month's
      expenses against the previous calendar month's, the savings rate, and
      the top category. */
  function PanelInsights(ts: seq<Transaction>, pref: Currency, month: int, year: int): (r: seq<PanelInsight>)
    ensures |r| == 3
    ensures r[0].id == 1 && r[1].id == 2 && r[2].id == 3
    ensures r[2].kind == Info
    ensures r[0].value == MonthTotal(ts, pref, YearMonth(year, month), IsExpense)
    ensures r[0].kind == TrendType(ExpenseChange(r[0].value, MonthTotal(ts, pref, PrevMonth(YearMonth(year, month)), IsExpense)))
    ensures r[1].value == MonthSavingsRate(ts, pref, YearMonth(year, month))
    ensures r[1].kind == SavingsType(r[1].value)
  {
    var ym := YearMonth(year, month);
    Panel(MonthTotal(ts, pref, ym, IsExpense), MonthTotal(ts, pref, PrevMonth(ym), IsExpense),
          MonthSavingsRate(ts, pref, ym), TopCategory(ts, pref, ym))
  }

  /** The panel's trend entry follows the thresholds on the month totals: it
      warns iff this month's expenses exceed the previous month's by more than
      10%, is a success iff they are under 90% of it, and is info without
      previous spending. */
  lemma PanelTrendSpec(ts: seq<Transaction>, pref: Currency, month: int, year: int)
    ensures var ym := YearMonth(year, month);
      var current := MonthTotal(ts, pref, ym, IsExpense);
      var previous := MonthTotal(ts, pref, PrevMonth(ym), IsExpense);
      var k := PanelInsights(ts, pref, month, year)[0].kind;
      (previous > 0.0 ==> (k == PanelType.Warning <==> current > 1.1 * previous)) &&
      (previous > 0.0 ==> (k == Success <==> current < 0.9 * previous)) &&
      (previous <= 0.0 ==> k == Info)
  {
    var ym := YearMonth(year, month);
    var current := MonthTotal(ts, pref, ym, IsExpense);
    var previous := MonthTotal(ts, pref, PrevMonth(ym), IsExpense);
    assert PanelInsights(ts, pref, month, year)[0].kind == TrendType(ExpenseChange(current, previous));
    TrendTypeSpec(current, previous);
  }

  /** The savings entry's type against income and expenses: a success iff
      expenses are under 80% of income, info between 80% and 90%, and a
      warning without income. */
  predicate SavingsThresholds(k: PanelType, income: real, expenses: real)
  {
    (income > 0.0 ==> (k == Success <==> expenses < 0.8 * income)) &&
    (income > 0.0 ==> (k == Info <==> 0.8 * income <= expenses < 0.9 * income)) &&
    (income <= 0.0 ==> k == PanelType.Warning)
  }

  /** The month's savings-rate type against the month's totals. */
  lemma MonthSavingsKind(ts: seq<Transaction>, pref: Currency, ym: YearMonth)
    ensures SavingsThresholds(SavingsType(MonthSavingsRate(ts, pref, ym)),
      MonthTotal(ts, pref, ym, IsIncome), MonthTotal(ts, pref, ym, IsExpense))
  {
    var income := MonthTotal(ts, pref, ym, IsIncome);
    var expenses := MonthTotal(ts, pref, ym, IsExpense);
    MonthSavingsRateOf(ts, pref, ym);
    SavingsTypeSpec(income, expenses);
  }

  /** The panel's savings entry follows the thresholds on the month totals:
      it is a success iff expenses are under 80% of income, info between 80%
      and 90%, and a warning without income. */
  lemma PanelSavingsSpec(ts: seq<Transaction>, pref: Currency, month: int, year: int)
    ensures SavingsThresholds(PanelInsights(ts, pref, month, year)[1].kind,
      MonthTotal(ts, pref, YearMonth(year, month), IsIncome), MonthTotal(ts, pref, YearMonth(year, month), IsExpense))
  {
    MonthSavingsKind(ts, pref, YearMonth(year, month));
  }
}
