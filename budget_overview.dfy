/** components/dashboard/budget-overview.tsx: one row per transaction
    category, carrying the selected month's converted spending, either on the
    category's configured budget or on a virtual budget with no limit; rows
    are ranked by spending and classified as over budget or near the limit. */
module BudgetOverview {
  import opened Options
  import opened Folds
  import opened Currency
  import opened Finance

  /** A row of `comprehensiveBudgets`: a configured budget with its `spent`
      overridden, or a category without a budget (the `isVirtual` rows). */
  datatype BudgetRow =
    | Configured(budget: Budget)
    | Unconfigured(category: string, spent: real)

  function RowCategory(r: BudgetRow): string
  {
    match r
    case Configured(b) => b.category
    case Unconfigured(c, _) => c
  }

  function RowSpent(r: BudgetRow): real
  {
    match r
    case Configured(b) => b.spent
    case Unconfigured(_, s) => s
  }

  /** The budget object a row stands for: a virtual row is the budget
      `virtual-<category>` with limit 0 and a monthly period. */
  function RowBudget(r: BudgetRow): (b: Budget)
    ensures b.category == RowCategory(r) && b.spent == RowSpent(r)
    ensures r.Configured? ==> b == r.budget
    ensures r.Unconfigured? ==> b.id == "virtual-" + r.category && b.limit == 0.0 && b.period == Monthly
  {
    match r
    case Configured(b) => b
    case Unconfigured(c, s) => Budget("virtual-" + c, c, 0.0, s, Monthly)
  }

  /** `categorySpending`: the selected month's expenses grouped by category,
      with converted amounts. */
  function CategorySpending(ts: seq<Transaction>, pref: Currency, month: int, year: int): map<string, real>
  {
    GroupReduce(Filter(ts, ExpenseIn(YearMonth(year, month))), CategoryOf, Converted(pref))
  }

  /** `categorySpending[category] || 0`. */
  function SpentOf(spending: map<string, real>, category: string): real
  {
    if category in spending then spending[category] else 0.0
  }

  /** A category's spent amount is the converted total of the month's
      expenses in that category, and 0 when there are none. */
  lemma SpentOfSpec(ts: seq<Transaction>, pref: Currency, month: int, year: int, category: string)
    ensures SpentOf(CategorySpending(ts, pref, month, year), category)
      == GroupTotal(Filter(ts, ExpenseIn(YearMonth(year, month))), CategoryOf, category, Converted(pref))
  {
    var s := Filter(ts, ExpenseIn(YearMonth(year, month)));
    if category !in CategorySpending(ts, pref, month, year) {
      GroupTotalAbsent(s, CategoryOf, category, Converted(pref));
    }
  }

  /** The row of one category: the first budget of the category with its
      `spent` replaced, or a virtual row. */
  function RowFor(bs: seq<Budget>, spending: map<string, real>, category: string): (r: BudgetRow)
    ensures RowCategory(r) == category
    ensures RowSpent(r) == SpentOf(spending, category)
  {
    var spent := SpentOf(spending, category);
    match FirstIndex(bs, HasBudgetCategory(category))
    case Some(i) => Configured(bs[i].(spent := spent))
    case None => Unconfigured(category, spent)
  }

  /** A category with a budget shows the first such budget, with only
      `spent` changed: its id, limit and period are kept. */
  lemma RowForConfigured(bs: seq<Budget>, spending: map<string, real>, category: string, i: nat)
    requires i < |bs| && bs[i].category == category
    requires forall j :: 0 <= j < i ==> bs[j].category != category
    ensures RowFor(bs, spending, category) == Configured(bs[i].(spent := SpentOf(spending, category)))
  {
    var found := FirstIndex(bs, HasBudgetCategory(category));
    assert HasBudgetCategory(category)(bs[i]);
    assert found.Some?;
    assert !(found.value < i);
    assert !(i < found.value);
  }

  /** A category without a budget gets a virtual row. */
  lemma RowForVirtual(bs: seq<Budget>, spending: map<string, real>, category: string)
    requires forall j :: 0 <= j < |bs| ==> bs[j].category != category
    ensures RowFor(bs, spending, category) == Unconfigured(category, SpentOf(spending, category))
  {
    assert forall j :: 0 <= j < |bs| ==> !HasBudgetCategory(category)(bs[j]);
  }

  /** `allCategories.map(...)`, before sorting. */
  function RowsFor(categories: seq<string>, bs: seq<Budget>, spending: map<string, real>): (rows: seq<BudgetRow>)
    ensures |rows| == |categories|
    ensures forall i :: 0 <= i < |rows| ==> rows[i] == RowFor(bs, spending, categories[i])
  {
    if |categories| == 0 then []
    else RowsFor(categories[..|categories| - 1], bs, spending) + [RowFor(bs, spending, categories[|categories| - 1])]
  }

  /** `comprehensiveBudgets`: one row per category of any transaction, in
      first-appearance order, then sorted by spent, largest first. */
  function ComprehensiveBudgets(ts: seq<Transaction>, bs: seq<Budget>, pref: Currency, month: int, year: int): (r: seq<BudgetRow>)
    ensures SortedDesc(r, RowSpent)
  {
    SortBy(RowsFor(KeysInOrder(ts, CategoryOf), bs, CategorySpending(ts, pref, month, year)), RowSpent)
  }

  /** The rows are exactly one per distinct transaction category, incomes
      included; each is that category's row. A budget whose category no
      transaction has gets no row. */
  lemma ComprehensiveBudgetsRows(ts: seq<Transaction>, bs: seq<Budget>, pref: Currency, month: int, year: int)
    ensures DistinctBy(ComprehensiveBudgets(ts, bs, pref, month, year), RowCategory)
    ensures |ComprehensiveBudgets(ts, bs, pref, month, year)| == |KeySet(ts, CategoryOf)|
    ensures forall row :: row in ComprehensiveBudgets(ts, bs, pref, month, year) ==>
      row == RowFor(bs, CategorySpending(ts, pref, month, year), RowCategory(row)) &&
      exists t :: t in ts && t.category == RowCategory(row)
    ensures forall t :: t in ts ==>
      RowFor(bs, CategorySpending(ts, pref, month, year), t.category) in ComprehensiveBudgets(ts, bs, pref, month, year)
  {
    var spending := CategorySpending(ts, pref, month, year);
    var ks := KeysInOrder(ts, CategoryOf);
    var rows := RowsFor(ks, bs, spending);
    KeysInOrderCount(ts, CategoryOf);
    KeysInOrderSound(ts, CategoryOf);
    RowsForFacts(ks, bs, spending);
    SortByDistinct(rows, RowSpent, RowCategory);
    SortByMembers(rows, RowSpent);
  }

  /** The unsorted rows of distinct categories: one per category, each that
      category's row. */
  lemma RowsForFacts(ks: seq<string>, bs: seq<Budget>, spending: map<string, real>)
    requires Distinct(ks)
    ensures DistinctBy(RowsFor(ks, bs, spending), RowCategory)
    ensures forall row :: row in RowsFor(ks, bs, spending) ==>
      row == RowFor(bs, spending, RowCategory(row)) && RowCategory(row) in ks
    ensures forall k :: k in ks ==> RowFor(bs, spending, k) in RowsFor(ks, bs, spending)
  {
    var rows := RowsFor(ks, bs, spending);
    forall i, j | 0 <= i < j < |rows| ensures RowCategory(rows[i]) != RowCategory(rows[j]) {
      assert RowCategory(rows[i]) == ks[i] && RowCategory(rows[j]) == ks[j];
    }
    forall row | row in rows ensures row == RowFor(bs, spending, RowCategory(row)) && RowCategory(row) in ks {
      var i :| 0 <= i < |rows| && rows[i] == row;
      assert ks[i] in ks;
    }
    forall k | k in ks ensures RowFor(bs, spending, k) in rows {
      var i :| 0 <= i < |ks| && ks[i] == k;
      assert rows[i] in rows;
    }
  }

  /** `percentage > 100`. */
  predicate IsOverBudget(b: Budget)
  {
    GreaterThan(Percentage(b.spent, b.limit), 100.0)
  }

  /** `percentage > 80 && percentage <= 100`. */
  predicate IsNearLimit(b: Budget)
  {
    GreaterThan(Percentage(b.spent, b.limit), 80.0) && AtMost(Percentage(b.spent, b.limit), 100.0)
  }

  /** Over budget and near the limit exclude each other. With a positive
      limit, over budget means spent above the limit and near the limit
      means spent above 80% of it and at most the limit. */
  lemma BudgetStatusSpec(b: Budget)
    ensures !(IsOverBudget(b) && IsNearLimit(b))
    ensures b.limit > 0.0 ==> (IsOverBudget(b) <==> b.spent > b.limit)
    ensures b.limit > 0.0 ==> (IsNearLimit(b) <==> 0.8 * b.limit < b.spent <= b.limit)
  {
    ComparisonsExclusive(Percentage(b.spent, b.limit), 100.0);
    if b.limit > 0.0 {
      PercentageAbove(b.spent, b.limit, 1.0);
      PercentageAbove(b.spent, b.limit, 0.8);
    }
  }

  /** The displayed remaining amount, `Math.max(0, limit - spent)`. */
  function Remaining(b: Budget): (r: real)
    ensures r >= 0.0
    ensures b.spent <= b.limit ==> r == b.limit - b.spent
    ensures b.spent >= b.limit ==> r == 0.0
  {
    if 0.0 >= b.limit - b.spent then 0.0 else b.limit - b.spent
  }
}
