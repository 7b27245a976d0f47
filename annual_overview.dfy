/** components/dashboard/annual-overview.tsx: twelve month rows for the
    current year, year-to-date totals up to the current month, the
    projection of those totals to a full year, and the six largest expense
    categories of the year. The current year and month are parameters. */
module AnnualOverview {
  import opened Folds
  import opened Currency
  import opened Finance

  /** One chart row: converted income and expenses of a month, and their net. */
  datatype MonthRow = MonthRow(income: real, expenses: real, net: real)

  /** Transactions of the given type in the first k months of the year. */
  function KindUpTo(year: int, k: int, kind: TxType): Transaction -> bool
  {
    (t: Transaction) => t.kind == kind && t.date.year == year && 0 <= t.date.month < k
  }

  /** The converted total of one type in one month, computed as the row
      does: the month's transactions first, then those of the type. */
  function MonthKindTotal(ts: seq<Transaction>, pref: Currency, ym: YearMonth, kind: TxType): real
  {
    Sum(Filter(Filter(ts, InMonth(ym)), OfKind(kind)), Converted(pref))
  }

  function MonthRowOf(ts: seq<Transaction>, pref: Currency, year: int, month: int): MonthRow
  {
    var ym := YearMonth(year, month);
    var income := MonthKindTotal(ts, pref, ym, Income);
    var expenses := MonthKindTotal(ts, pref, ym, Expense);
    MonthRow(income, expenses, income - expenses)
  }

  /** `monthlyData`: one row per month 0..11 of the year, each with
      `net = income - expenses`. */
  function MonthlyRows(ts: seq<Transaction>, pref: Currency, year: int): (r: seq<MonthRow>)
    ensures |r| == 12
    ensures forall m :: 0 <= m < 12 ==> r[m].net == r[m].income - r[m].expenses
  {
    seq(12, m => MonthRowOf(ts, pref, year, m))
  }

  function RowAmount(kind: TxType): MonthRow -> real
  {
    (row: MonthRow) => if kind == Income then row.income else row.expenses
  }

  /** A month's total is the converted sum over exactly the transactions of
      that year, month and type. */
  lemma MonthKindTotalSpec(ts: seq<Transaction>, pref: Currency, ym: YearMonth, kind: TxType)
    ensures MonthKindTotal(ts, pref, ym, kind) == Sum(Filter(ts, KindIn(ym, kind)), Converted(pref))
  {
    FilterFilter(ts, InMonth(ym), OfKind(kind), KindIn(ym, kind));
  }

  /** The rows of months 0..k-1 add up to the converted total of the year's
      transactions of that type dated in those months. */
  lemma {:induction false} RowsPrefixSum(ts: seq<Transaction>, pref: Currency, year: int, k: nat, kind: TxType)
    requires k <= 12
    ensures Sum(MonthlyRows(ts, pref, year)[..k], RowAmount(kind)) == Sum(Filter(ts, KindUpTo(year, k, kind)), Converted(pref))
  {
    if k == 0 {
      FilterKeepsNone(ts, KindUpTo(year, 0, kind));
    } else {
      RowsPrefixSum(ts, pref, year, k - 1, kind);
      RowsPrefixStep(ts, pref, year, k, kind);
      MonthKindTotalSpec(ts, pref, YearMonth(year, k - 1), kind);
      SumFilterSplit(ts, KindUpTo(year, k, kind), KindUpTo(year, k - 1, kind), KindIn(YearMonth(year, k - 1), kind), Converted(pref));
    }
  }

  /** Extending the prefix by one month adds that month's total. */
  lemma RowsPrefixStep(ts: seq<Transaction>, pref: Currency, year: int, k: nat, kind: TxType)
    requires 0 < k <= 12
    ensures Sum(MonthlyRows(ts, pref, year)[..k], RowAmount(kind)) ==
      Sum(MonthlyRows(ts, pref, year)[..k - 1], RowAmount(kind)) + MonthKindTotal(ts, pref, YearMonth(year, k - 1), kind)
  {
    var rows := MonthlyRows(ts, pref, year);
    SumPrefixStep(rows, k, RowAmount(kind));
    assert rows[k - 1] == MonthRowOf(ts, pref, year, k - 1);
  }

  datatype YearToDate = YearToDate(income: real, expenses: real, net: real)

  /** `ytdData`: the rows of months 0..currentMonth, summed. */
  function YearToDateOf(rows: seq<MonthRow>, currentMonth: int): (r: YearToDate)
    requires |rows| == 12 && 0 <= currentMonth <= 11
    ensures r.net == r.income - r.expenses
  {
    var ytd := rows[..currentMonth + 1];
    var income := Sum(ytd, RowAmount(Income));
    var expenses := Sum(ytd, RowAmount(Expense));
    YearToDate(income, expenses, income - expenses)
  }

  /** The year-to-date totals are the converted sums over the year's
      transactions dated in months 0..currentMonth. */
  lemma YearToDateSpec(ts: seq<Transaction>, pref: Currency, year: int, currentMonth: int)
    requires 0 <= currentMonth <= 11
    ensures YearToDateOf(MonthlyRows(ts, pref, year), currentMonth).income ==
      Sum(Filter(ts, KindUpTo(year, currentMonth + 1, Income)), Converted(pref))
    ensures YearToDateOf(MonthlyRows(ts, pref, year), currentMonth).expenses ==
      Sum(Filter(ts, KindUpTo(year, currentMonth + 1, Expense)), Converted(pref))
  {
    RowsPrefixSum(ts, pref, year, currentMonth + 1, Income);
    RowsPrefixSum(ts, pref, year, currentMonth + 1, Expense);
  }

  /** `ytd / (currentMonth + 1) * 12`: the monthly average of the months so
      far, extrapolated to twelve months. */
  function Projection(ytd: real, currentMonth: int): (r: real)
    requires 0 <= currentMonth <= 11
    ensures r * (currentMonth + 1) as real == 12.0 * ytd
    ensures currentMonth == 11 ==> r == ytd
  {
    var elapsed := (currentMonth + 1) as real;
    var average := ytd / elapsed;
    assert average * elapsed == ytd;
    average * 12.0
  }

  /** The year's expenses, with the year as the source reads it from the date. */
  function ExpenseInYear(year: int): Transaction -> bool
  {
    (t: Transaction) => t.kind == Expense && t.date.year == year
  }

  /** `topCategories`: the year's expenses grouped by category with converted
      amounts, sorted by amount and cut to six. */
  function TopCategories(ts: seq<Transaction>, pref: Currency, year: int): seq<Entry<string>>
  {
    TopEntries(Filter(ts, ExpenseInYear(year)), CategoryOf, Converted(pref), 6)
  }

  /** At most six categories, non-increasing by amount, each once. */
  lemma TopCategoriesOrdered(ts: seq<Transaction>, pref: Currency, year: int)
    ensures |TopCategories(ts, pref, year)| <= 6
    ensures SortedDesc(TopCategories(ts, pref, year), Amount)
    ensures DistinctBy(TopCategories(ts, pref, year), EntryKey)
  {
    TopEntriesSpec(Filter(ts, ExpenseInYear(year)), CategoryOf, Converted(pref), 6);
  }

  /** Each category shown is the category of an expense of the year and
      carries that category's converted total over the year's expenses; a
      category left out has no larger total than any shown; with six
      categories or fewer all show. */
  lemma TopCategoriesSpec(ts: seq<Transaction>, pref: Currency, year: int)
    ensures forall e :: e in TopCategories(ts, pref, year) ==>
      (exists t :: t in ts && t.kind == Expense && t.date.year == year && t.category == e.key) &&
      e.amount == GroupTotal(Filter(ts, ExpenseInYear(year)), CategoryOf, e.key, Converted(pref))
    ensures forall t, e ::
      t in ts && t.kind == Expense && t.date.year == year &&
      e in TopCategories(ts, pref, year) && !HasKey(TopCategories(ts, pref, year), t.category) ==>
      GroupTotal(Filter(ts, ExpenseInYear(year)), CategoryOf, t.category, Converted(pref)) <= e.amount
    ensures |KeysInOrder(Filter(ts, ExpenseInYear(year)), CategoryOf)| <= 6 ==>
      forall t :: t in ts && t.kind == Expense && t.date.year == year ==> HasKey(TopCategories(ts, pref, year), t.category)
  {
    var s := Filter(ts, ExpenseInYear(year));
    var r := TopCategories(ts, pref, year);
    FilterMembers(ts, ExpenseInYear(year));
    TopEntriesMembers(s, CategoryOf, Converted(pref), 6);
    forall e | e in r
      ensures exists t :: t in ts && t.kind == Expense && t.date.year == year && t.category == e.key
    {
      var x :| x in s && CategoryOf(x) == e.key;
    }
    TopEntriesLeftOut(s, CategoryOf, Converted(pref), 6);
    if |KeysInOrder(s, CategoryOf)| <= 6 {
      TopEntriesAllShown(s, CategoryOf, Converted(pref), 6);
    }
  }
}
