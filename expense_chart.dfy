/** components/dashboard/expense-chart.tsx: the selected month's expenses
    grouped by category with their raw amounts, one pie slice per category
    in order of first appearance, coloured from a seven-entry palette. */
module ExpenseChart {
  import opened Folds
  import opened Finance

  /** COLORS. */
  const SliceColors: seq<string> := ["#EF4444", "#F97316", "#EAB308", "#22C55E", "#3B82F6", "#8B5CF6", "#EC4899"]

  /** The expenses of month ym in the given category. */
  function CategoryExpenseIn(ym: YearMonth, category: string): Transaction -> bool
  {
    (t: Transaction) => t.kind == Expense && MonthOf(t) == ym && t.category == category
  }

  /** The month's transactions, then its expenses (the two filters). */
  function MonthExpenses(ts: seq<Transaction>, ym: YearMonth): seq<Transaction>
  {
    Filter(Filter(ts, InMonth(ym)), IsExpense)
  }

  /** `chartData`: the entries of `expensesByCategory` in first-appearance
      order, each a category (`name`) with its raw total (`value`). */
  function ChartData(ts: seq<Transaction>, ym: YearMonth): seq<Entry<string>>
  {
    GroupEntries(MonthExpenses(ts, ym), CategoryOf, RawAmount)
  }

  /** The fill of the slice at the given index. */
  function SliceColor(index: nat): (r: string)
    ensures r in SliceColors
  {
    Cycle(SliceColors, index)
  }

  /** Filtering by month and then by type keeps the month's expenses. */
  lemma MonthExpensesSpec(ts: seq<Transaction>, ym: YearMonth)
    ensures MonthExpenses(ts, ym) == Filter(ts, ExpenseIn(ym))
  {
    FilterFilter(ts, InMonth(ym), IsExpense, ExpenseIn(ym));
  }

  /** One slice per category, and the slices add up to the month's raw
      expense total. */
  lemma ChartDataSpec(ts: seq<Transaction>, ym: YearMonth)
    ensures DistinctBy(ChartData(ts, ym), EntryKey)
    ensures Sum(ChartData(ts, ym), Amount) == Sum(Filter(ts, ExpenseIn(ym)), RawAmount)
  {
    GroupEntriesDistinct(MonthExpenses(ts, ym), CategoryOf, RawAmount);
    GroupEntriesSum(MonthExpenses(ts, ym), CategoryOf, RawAmount);
    MonthExpensesSpec(ts, ym);
  }

  /** Every slice is an expense category of the month with its raw total. */
  lemma ChartDataSound(ts: seq<Transaction>, ym: YearMonth)
    ensures forall e :: e in ChartData(ts, ym) ==>
      (exists t :: t in ts && t.kind == Expense && MonthOf(t) == ym && t.category == e.key) &&
      e.amount == Sum(Filter(ts, CategoryExpenseIn(ym, e.key)), RawAmount)
  {
    var s := MonthExpenses(ts, ym);
    var r := ChartData(ts, ym);
    MonthExpensesSpec(ts, ym);
    FilterMembers(ts, ExpenseIn(ym));
    GroupEntriesMembers(s, CategoryOf, RawAmount);
    forall e | e in r
      ensures (exists t :: t in ts && t.kind == Expense && MonthOf(t) == ym && t.category == e.key) &&
        e.amount == Sum(Filter(ts, CategoryExpenseIn(ym, e.key)), RawAmount)
    {
      var x :| x in s && CategoryOf(x) == e.key;
      SliceAmount(ts, ym, e.key);
    }
  }

  /** Every expense of the month has a slice for its category, with the
      category's raw total. */
  lemma ChartDataComplete(ts: seq<Transaction>, ym: YearMonth)
    ensures forall t :: t in ts && t.kind == Expense && MonthOf(t) == ym ==>
      Entry(t.category, Sum(Filter(ts, CategoryExpenseIn(ym, t.category)), RawAmount)) in ChartData(ts, ym)
  {
    var s := MonthExpenses(ts, ym);
    var r := ChartData(ts, ym);
    MonthExpensesSpec(ts, ym);
    FilterMembers(ts, ExpenseIn(ym));
    GroupEntriesMembers(s, CategoryOf, RawAmount);
    forall t | t in ts && t.kind == Expense && MonthOf(t) == ym
      ensures Entry(t.category, Sum(Filter(ts, CategoryExpenseIn(ym, t.category)), RawAmount)) in r
    {
      assert t in s;
      SliceAmount(ts, ym, t.category);
    }
  }

  /** The value of a slice is the raw sum of the month's expenses in its
      category. */
  lemma SliceAmount(ts: seq<Transaction>, ym: YearMonth, category: string)
    ensures GroupTotal(MonthExpenses(ts, ym), CategoryOf, category, RawAmount) ==
      Sum(Filter(ts, CategoryExpenseIn(ym, category)), RawAmount)
  {
    var p := HasCategory(category);
    MonthExpensesSpec(ts, ym);
    FilterMembers(ts, ExpenseIn(ym));
    GroupTotalIsFilteredSum(MonthExpenses(ts, ym), CategoryOf, category, RawAmount, p);
    FilterFilter(ts, ExpenseIn(ym), p, CategoryExpenseIn(ym, category));
  }

  /** Slices follow first appearance: when the q-th expense of the month is
      the first of its category, the category of any earlier expense has an
      earlier slice. */
  lemma SliceOrder(ts: seq<Transaction>, ym: YearMonth, p: nat, q: nat)
    requires p < q < |MonthExpenses(ts, ym)|
    requires forall r :: 0 <= r < q ==> MonthExpenses(ts, ym)[r].category != MonthExpenses(ts, ym)[q].category
    ensures exists i, j ::
      0 <= i < j < |ChartData(ts, ym)| &&
      ChartData(ts, ym)[i].key == MonthExpenses(ts, ym)[p].category &&
      ChartData(ts, ym)[j].key == MonthExpenses(ts, ym)[q].category
  {
    var s := MonthExpenses(ts, ym);
    var ks := KeysInOrder(s, CategoryOf);
    KeysInOrderFirstAppearance(s, CategoryOf, p, q);
    var i, j :| 0 <= i < j < |ks| && ks[i] == CategoryOf(s[p]) && ks[j] == CategoryOf(s[q]);
    assert ChartData(ts, ym)[i].key == ks[i] && ChartData(ts, ym)[j].key == ks[j];
  }

  /** The seven palette colours are pairwise different. */
  lemma ColorsDistinct()
    ensures |SliceColors| == 7
    ensures forall i, j :: 0 <= i < j < 7 ==> SliceColors[i] != SliceColors[j]
  {
  }

  /** The first seven slices take the palette in order, and every later
      slice repeats the colour of the slice seven places before. */
  lemma SliceColorCycles(index: nat)
    ensures index < 7 ==> SliceColor(index) == SliceColors[index]
    ensures SliceColor(index + 7) == SliceColor(index)
  {
    CycleRepeats(SliceColors, index);
  }
}
