/** types/finance.ts mirrored as datatypes, plus the calendar and arithmetic
    vocabulary that every dashboard computation shares: year-month keys,
    transaction predicates, converted amounts and JavaScript's division. */
module Finance {
  import opened Options
  import opened Currency

  datatype TxType = Income | Expense

  /** A calendar date as the dashboard reads it: full year, month 0..11 and
      day of month, the values of getFullYear, getMonth and getDate. */
  datatype Date = Date(year: int, month: int, day: int)

  datatype Transaction = Transaction(
    id: string,
    kind: TxType,
    amount: real,
    category: string,
    description: string,
    date: Date,
    currency: Currency,
    billImage: Option<string>,
    billFileName: Option<string>)

  datatype Period = Monthly | Weekly | Yearly

  datatype Budget = Budget(id: string, category: string, limit: real, spent: real, period: Period)

  datatype UserPreferences = UserPreferences(preferredCurrency: Currency, budgetAlerts: bool, savingsGoal: real)

  datatype FinancialSummary = FinancialSummary(
    totalIncome: real,
    totalExpenses: real,
    netIncome: real,
    savingsRate: real,
    monthlyAverage: real,
    yearlyProjection: real)

  datatype InsightType = Warning | Tip | Achievement | Recommendation

  datatype Impact = High | Medium | Low

  /** The rule that produced an insight. The source's ids are these tags
      followed by a timestamp, except the budget alert, whose id ends with
      the budget's id. */
  datatype InsightId =
    | HighSpending
    | BudgetAlert(budgetId: string)
    | SpendingIncrease
    | SpendingDecrease
    | SubscriptionReview
    | SavingsGoal
    | SmallPurchases

  datatype AIInsight = AIInsight(
    id: InsightId,
    kind: InsightType,
    impact: Impact,
    category: Option<string>,
    potentialSavings: Option<real>)

  // ------------------------------------------------------------------
  // Months
  // ------------------------------------------------------------------

  /** A (year, month 0..11) pair: the unit every selector and filter works in. */
  datatype YearMonth = YearMonth(year: int, month: int)

  predicate ValidMonth(ym: YearMonth)
  {
    0 <= ym.month <= 11
  }

  /** Months counted from year 0, so consecutive months differ by one. */
  function MonthIndex(ym: YearMonth): int
  {
    ym.year * 12 + ym.month
  }

  lemma MonthIndexInjective(a: YearMonth, b: YearMonth)
    requires ValidMonth(a) && ValidMonth(b)
    ensures MonthIndex(a) == MonthIndex(b) <==> a == b
  {
  }

  /** The month before: January wraps to December of the previous year. */
  function PrevMonth(ym: YearMonth): (r: YearMonth)
    ensures ValidMonth(ym) ==> ValidMonth(r) && MonthIndex(r) == MonthIndex(ym) - 1
  {
    if ym.month == 0 then YearMonth(ym.year - 1, 11) else YearMonth(ym.year, ym.month - 1)
  }

  /** The month after: December wraps to January of the next year. */
  function NextMonth(ym: YearMonth): (r: YearMonth)
    ensures ValidMonth(ym) ==> ValidMonth(r) && MonthIndex(r) == MonthIndex(ym) + 1
  {
    if ym.month == 11 then YearMonth(ym.year + 1, 0) else YearMonth(ym.year, ym.month + 1)
  }

  /** Stepping back and forward are inverse on valid months. */
  lemma PrevNextInverse(ym: YearMonth)
    requires ValidMonth(ym)
    ensures NextMonth(PrevMonth(ym)) == ym
    ensures PrevMonth(NextMonth(ym)) == ym
  {
    MonthIndexInjective(NextMonth(PrevMonth(ym)), ym);
    MonthIndexInjective(PrevMonth(NextMonth(ym)), ym);
  }

  /** k months back from ym (income-expense-chart's `setMonth(getMonth() - i)`
      on the first of the month). */
  function MonthsBack(ym: YearMonth, k: nat): (r: YearMonth)
    ensures ValidMonth(ym) ==> ValidMonth(r) && MonthIndex(r) == MonthIndex(ym) - k
  {
    if k == 0 then ym else PrevMonth(MonthsBack(ym, k - 1))
  }

  // ------------------------------------------------------------------
  // Transactions
  // ------------------------------------------------------------------

  function MonthOf(t: Transaction): YearMonth
  {
    YearMonth(t.date.year, t.date.month)
  }

  predicate IsIncome(t: Transaction)
  {
    t.kind == Income
  }

  predicate IsExpense(t: Transaction)
  {
    t.kind == Expense
  }

  function CategoryOf(t: Transaction): string
  {
    t.category
  }

  /** The amount as stored, in the transaction's own currency. */
  function RawAmount(t: Transaction): real
  {
    t.amount
  }

  /** `convertCurrency(t.amount, t.currency, preferredCurrency)`. */
  function Converted(pref: Currency): Transaction -> real
  {
    (t: Transaction) => Convert(t.amount, t.currency, pref)
  }

  /** One transaction with its amount converted; every other field, its
      currency included, is kept (`{ ...t, amount: convertCurrency(...) }`). */
  function ConvertOne(t: Transaction, pref: Currency): Transaction
  {
    t.(amount := Convert(t.amount, t.currency, pref))
  }

  /** The transactions with converted amounts, in their order. */
  function ConvertAll(ts: seq<Transaction>, pref: Currency): (r: seq<Transaction>)
    ensures |r| == |ts|
    ensures forall i :: 0 <= i < |ts| ==> r[i] == ConvertOne(ts[i], pref)
  {
    if |ts| == 0 then [] else ConvertAll(ts[..|ts| - 1], pref) + [ConvertOne(ts[|ts| - 1], pref)]
  }

  /** Non-negative amounts stay non-negative after conversion. */
  lemma ConvertedNonNegative(ts: seq<Transaction>, pref: Currency)
    requires forall t :: t in ts ==> t.amount >= 0.0
    ensures forall t :: t in ts ==> Converted(pref)(t) >= 0.0
  {
    forall t | t in ts ensures Converted(pref)(t) >= 0.0 {
      ConvertKeepsSign(t.amount, t.currency, pref);
    }
  }

  /** The transaction falls in the given month of the given year. */
  function InMonth(ym: YearMonth): Transaction -> bool
  {
    (t: Transaction) => MonthOf(t) == ym
  }

  function IncomeIn(ym: YearMonth): Transaction -> bool
  {
    (t: Transaction) => t.kind == Income && MonthOf(t) == ym
  }

  function ExpenseIn(ym: YearMonth): Transaction -> bool
  {
    (t: Transaction) => t.kind == Expense && MonthOf(t) == ym
  }

  function OfKind(kind: TxType): Transaction -> bool
  {
    (t: Transaction) => t.kind == kind
  }

  /** Transactions of the given type in the given month. */
  function KindIn(ym: YearMonth, kind: TxType): Transaction -> bool
  {
    (t: Transaction) => t.kind == kind && MonthOf(t) == ym
  }

  function InYear(year: int): Transaction -> bool
  {
    (t: Transaction) => t.date.year == year
  }

  function HasCategory(category: string): Transaction -> bool
  {
    (t: Transaction) => t.category == category
  }

  /** Budget lookups by category and by id, and the spent measure. */
  function HasBudgetCategory(category: string): Budget -> bool
  {
    (b: Budget) => b.category == category
  }

  function HasBudgetId(id: string): Budget -> bool
  {
    (b: Budget) => b.id == id
  }

  function Spent(b: Budget): real
  {
    b.spent
  }

  // ------------------------------------------------------------------
  // JavaScript division, where the source compares its result
  // ------------------------------------------------------------------

  /** A JavaScript number seen through the reals: a finite value, an infinity
      or NaN. */
  datatype Extended = Finite(v: real) | PosInfinity | NegInfinity | NaN

  /** `num / den`: a positive or negative numerator over zero is an infinity,
      zero over zero is NaN. */
  function Divide(num: real, den: real): (r: Extended)
    ensures den != 0.0 ==> r == Finite(num / den)
    ensures den == 0.0 ==> (r == PosInfinity <==> num > 0.0)
    ensures den == 0.0 ==> (r == NegInfinity <==> num < 0.0)
    ensures den == 0.0 ==> (r == NaN <==> num == 0.0)
    ensures r.Finite? <==> den != 0.0
  {
    if den != 0.0 then Finite(num / den)
    else if num > 0.0 then PosInfinity
    else if num < 0.0 then NegInfinity
    else NaN
  }

  /** Multiplication by a positive constant, which keeps infinities and NaN. */
  function Scale(e: Extended, c: real): Extended
    requires c > 0.0
  {
    match e
    case Finite(v) => Finite(v * c)
    case _ => e
  }

  /** `(num / den) * 100`. */
  function Percentage(num: real, den: real): (r: Extended)
    ensures den != 0.0 ==> r == Finite(num / den * 100.0)
  {
    Scale(Divide(num, den), 100.0)
  }

  /** `e > c` under JavaScript comparison: NaN compares false. */
  predicate GreaterThan(e: Extended, c: real)
  {
    match e
    case Finite(v) => v > c
    case PosInfinity => true
    case NegInfinity => false
    case NaN => false
  }

  /** `e <= c` under JavaScript comparison: NaN compares false. */
  predicate AtMost(e: Extended, c: real)
  {
    match e
    case Finite(v) => v <= c
    case PosInfinity => false
    case NegInfinity => true
    case NaN => false
  }

  /** For a positive denominator, `x / d * 100 > c` iff `x > (c / 100) * d`. */
  lemma RatioAboveBound(x: real, d: real, fraction: real, c: real)
    requires d > 0.0 && c == fraction * 100.0
    ensures x / d * 100.0 > c <==> x > fraction * d
  {
    var q := x / d;
    assert x == q * d;
    if q > fraction {
      assert q * d > fraction * d;
    } else {
      assert q * d <= fraction * d;
    }
  }

  /** For c > 0, `q > k` iff `q * c > k * c`, and likewise for `<`. */
  lemma ScaleAgainst(q: real, c: real, k: real)
    requires c > 0.0
    ensures q > k <==> q * c > k * c
    ensures q < k <==> q * c < k * c
  {
    if q > k {
      assert (q - k) * c > 0.0;
    } else if q < k {
      assert (k - q) * c > 0.0;
    }
  }

  /** For c > 0 and q * c == a, `q > k` iff `a > k * c`, and likewise for `<`. */
  lemma QuotientCompare(q: real, c: real, a: real, k: real)
    requires c > 0.0 && q * c == a
    ensures q > k <==> a > k * c
    ensures q < k <==> a < k * c
  {
    ScaleAgainst(q, c, k);
  }

  /** With a positive denominator the percentage is finite, and it exceeds
      `fraction * 100` exactly when the numerator exceeds that fraction of
      the denominator. */
  lemma PercentageAbove(num: real, den: real, fraction: real)
    requires den > 0.0
    ensures GreaterThan(Percentage(num, den), fraction * 100.0) <==> num > fraction * den
    ensures AtMost(Percentage(num, den), fraction * 100.0) <==> num <= fraction * den
  {
    RatioAboveBound(num, den, fraction, fraction * 100.0);
  }

  /** `e > c` and `e <= c` never both hold; NaN satisfies neither. */
  lemma ComparisonsExclusive(e: Extended, c: real)
    ensures !(GreaterThan(e, c) && AtMost(e, c))
    ensures GreaterThan(e, c) || AtMost(e, c) <==> !e.NaN?
  {
  }

}
