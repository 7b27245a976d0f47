/** components/dashboard/financial-health-score.tsx: four sub-scores of the
    selected month, their weighted and rounded combination, and the colour
    and badge chosen from the score. */
module HealthScore {
  import opened Folds
  import opened Currency
  import opened Finance
  import opened PageSummary

  /** The selected month's income and expenses, converted per transaction
      inside the reduce. */
  function MonthIncome(ts: seq<Transaction>, pref: Currency, month: int, year: int): real
  {
    Sum(Filter(Filter(ts, InMonth(YearMonth(year, month))), IsIncome), Converted(pref))
  }

  function MonthExpenses(ts: seq<Transaction>, pref: Currency, month: int, year: int): real
  {
    Sum(Filter(Filter(ts, InMonth(YearMonth(year, month))), IsExpense), Converted(pref))
  }

  function Min(a: real, b: real): real { if a <= b then a else b }

  function Max(a: real, b: real): real { if a >= b then a else b }

  /** One budget's adherence: the unspent share of its limit in percent,
      capped at 100. */
  function AdherenceTerm(b: Budget): real
  {
    if b.limit != 0.0 then Min((b.limit - b.spent) / b.limit * 100.0, 100.0) else 0.0
  }

  predicate LimitsNonZero(bs: seq<Budget>)
  {
    forall i :: 0 <= i < |bs| ==> bs[i].limit != 0.0
  }

  /** The mean adherence over the budgets, or 100 when there are none. */
  function BudgetAdherence(bs: seq<Budget>): (r: real)
    requires LimitsNonZero(bs)
    ensures |bs| == 0 ==> r == 100.0
    ensures r <= 100.0
  {
    if |bs| > 0 then
      SumAtMost(bs, AdherenceTerm, 100.0);
      MeanAtMost(Sum(bs, AdherenceTerm), |bs|, 100.0);
      Sum(bs, AdherenceTerm) / |bs| as real
    else 100.0
  }

  /** A sum of n terms that are each at most c is at most n·c. */
  lemma {:induction false} SumAtMost<T>(s: seq<T>, f: T -> real, c: real)
    requires forall x :: x in s ==> f(x) <= c
    ensures Sum(s, f) <= |s| as real * c
  {
    if |s| > 0 {
      var init := s[..|s| - 1];
      assert forall x :: x in init ==> x in s;
      assert s[|s| - 1] in s;
      SumAtMost(init, f, c);
    }
  }

  lemma MeanAtMost(total: real, n: nat, c: real)
    requires n > 0 && total <= n as real * c
    ensures total / n as real <= c
  {
    var q := total / n as real;
    assert q * n as real == total;
    if q > c {
      assert (q - c) * n as real > 0.0;
    }
  }

  /** Adherence is exactly 100 when no budget has spent anything (and more
      than 100 is impossible). */
  lemma AdherenceFullWhenUnspent(bs: seq<Budget>)
    requires forall i :: 0 <= i < |bs| ==> bs[i].limit > 0.0 && bs[i].spent <= 0.0
    ensures BudgetAdherence(bs) == 100.0
  {
    if |bs| > 0 {
      forall x | x in bs ensures AdherenceTerm(x) == 100.0 {
        var q := (x.limit - x.spent) / x.limit;
        assert q * x.limit == x.limit - x.spent;
        assert q >= 1.0;
      }
      SumConst(bs, AdherenceTerm, 100.0);
    }
  }

  lemma {:induction false} SumConst<T>(s: seq<T>, f: T -> real, c: real)
    requires forall x :: x in s ==> f(x) == c
    ensures Sum(s, f) == |s| as real * c
  {
    if |s| > 0 {
      var init := s[..|s| - 1];
      assert forall x :: x in init ==> x in s;
      assert s[|s| - 1] in s;
      SumConst(init, f, c);
    }
  }

  /** Expenses as a percentage of income, or 100 without income. */
  function ExpenseRatio(income: real, expenses: real): real
  {
    if income > 0.0 then expenses / income * 100.0 else 100.0
  }

  /** The expense-control term `max(0, 100 - ratio)`: never negative, at most
      100 for non-negative expenses, and 0 without income. */
  function ExpenseControl(income: real, expenses: real): (r: real)
    ensures r >= 0.0
    ensures expenses >= 0.0 ==> r <= 100.0
    ensures income <= 0.0 ==> r == 0.0
  {
    RatioNonNegative(expenses, income);
    Max(0.0, 100.0 - ExpenseRatio(income, expenses))
  }

  lemma RatioNonNegative(a: real, c: real)
    ensures c > 0.0 && a >= 0.0 ==> a / c >= 0.0
  {
    if c > 0.0 && a >= 0.0 {
      var q := a / c;
      assert q * c == a;
    }
  }

  /** `new Set(filtered.map(t => t.category)).size * 10`. */
  function Diversification(ts: seq<Transaction>, month: int, year: int): int
  {
    |KeysInOrder(Filter(ts, InMonth(YearMonth(year, month))), CategoryOf)| * 10
  }

  /** Diversification is ten times the number of distinct categories of the
      month, incomes included. */
  lemma DiversificationCounts(ts: seq<Transaction>, month: int, year: int)
    ensures Diversification(ts, month, year) == 10 * |CategorySet(Filter(ts, InMonth(YearMonth(year, month))))|
  {
    var p := Filter(ts, InMonth(YearMonth(year, month)));
    KeysInOrderCount(p, CategoryOf);
    assert CategorySet(p) == KeySet(p, CategoryOf);
  }

  /** The categories that occur in ts. */
  function CategorySet(ts: seq<Transaction>): set<string>
  {
    set t | t in ts :: t.category
  }

  /** `Math.round`: half-way values round up. */
  function Round(x: real): (r: int)
    ensures x - 0.5 < r as real <= x + 0.5
  {
    (x + 0.5).Floor
  }

  lemma RoundMonotone(x: real, y: real)
    requires x <= y
    ensures Round(x) <= Round(y)
  {
  }

  /** The weighted score. */
  function Score(savings: real, adherence: real, control: real, diversification: int): int
  {
    Round(savings * 0.3 + adherence * 0.25 + control * 0.25 + Min(diversification as real, 100.0) * 0.2)
  }

  /** `healthScore` for the selected month. */
  function HealthScoreOf(ts: seq<Transaction>, bs: seq<Budget>, pref: Currency, month: int, year: int): int
    requires LimitsNonZero(bs)
  {
    var income := MonthIncome(ts, pref, month, year);
    var expenses := MonthExpenses(ts, pref, month, year);
    Score(SavingsRateOf(income, income - expenses), BudgetAdherence(bs), ExpenseControl(income, expenses),
      Diversification(ts, month, year))
  }

  /** With non-negative amounts the score never exceeds 100: each weighted
      term is at most its weight times 100. */
  lemma HealthScoreAtMost100(ts: seq<Transaction>, bs: seq<Budget>, pref: Currency, month: int, year: int)
    requires LimitsNonZero(bs)
    requires forall t :: t in ts ==> t.amount >= 0.0
    ensures HealthScoreOf(ts, bs, pref, month, year) <= 100
  {
    var income := MonthIncome(ts, pref, month, year);
    var expenses := MonthExpenses(ts, pref, month, year);
    var p := Filter(ts, InMonth(YearMonth(year, month)));
    assert expenses >= 0.0 by {
      FilterMembers(ts, InMonth(YearMonth(year, month)));
      FilterMembers(p, IsExpense);
      forall t | t in Filter(p, IsExpense) ensures Converted(pref)(t) >= 0.0 {
        ConvertKeepsSign(t.amount, t.currency, pref);
      }
      SumNonNegative(Filter(p, IsExpense), Converted(pref));
    }
    SavingsRateSpec(income, expenses);
    ScoreAtMost100(SavingsRateOf(income, income - expenses), BudgetAdherence(bs), ExpenseControl(income, expenses),
      Diversification(ts, month, year));
  }

  /** Sub-scores of at most 100 give a score of at most 100. */
  lemma ScoreAtMost100(savings: real, adherence: real, control: real, diversification: int)
    requires savings <= 100.0 && adherence <= 100.0 && control <= 100.0
    ensures Score(savings, adherence, control, diversification) <= 100
  {
    RoundMonotone(savings * 0.3 + adherence * 0.25 + control * 0.25 + Min(diversification as real, 100.0) * 0.2, 100.0);
  }

  /** The score improves when any sub-score improves. */
  lemma ScoreMonotone(s1: real, a1: real, c1: real, d1: int, s2: real, a2: real, c2: real, d2: int)
    requires s1 <= s2 && a1 <= a2 && c1 <= c2 && d1 <= d2
    ensures Score(s1, a1, c1, d1) <= Score(s2, a2, c2, d2)
  {
    RoundMonotone(s1 * 0.3 + a1 * 0.25 + c1 * 0.25 + Min(d1 as real, 100.0) * 0.2,
      s2 * 0.3 + a2 * 0.25 + c2 * 0.25 + Min(d2 as real, 100.0) * 0.2);
  }

  datatype ScoreColor = Emerald | Yellow | Red

  /** `getScoreColor`. */
  function ScoreColorOf(score: int): ScoreColor
  {
    if score >= 80 then Emerald else if score >= 60 then Yellow else Red
  }

  datatype ScoreBadge = Excellent | Good | Fair | NeedsImprovement

  /** `getScoreBadge`. */
  function ScoreBadgeOf(score: int): ScoreBadge
  {
    if score >= 80 then Excellent else if score >= 60 then Good else if score >= 40 then Fair else NeedsImprovement
  }

  function BadgeLabel(b: ScoreBadge): string
  {
    match b
    case Excellent => "Excellent"
    case Good => "Good"
    case Fair => "Fair"
    case NeedsImprovement => "Needs Improvement"
  }

  function BadgeRank(b: ScoreBadge): int
  {
    match b
    case NeedsImprovement => 0
    case Fair => 1
    case Good => 2
    case Excellent => 3
  }

  function ColorRank(c: ScoreColor): int
  {
    match c
    case Red => 0
    case Yellow => 1
    case Emerald => 2
  }

  /** Badge and colour never get worse as the score rises. */
  lemma BadgeAndColorMonotone(s1: int, s2: int)
    requires s1 <= s2
    ensures BadgeRank(ScoreBadgeOf(s1)) <= BadgeRank(ScoreBadgeOf(s2))
    ensures ColorRank(ScoreColorOf(s1)) <= ColorRank(ScoreColorOf(s2))
  {
  }

  /** The colour agrees with the badge: emerald for Excellent, yellow for
      Good, red for Fair and Needs Improvement. */
  lemma ColorMatchesBadge(score: int)
    ensures ScoreColorOf(score) == Emerald <==> ScoreBadgeOf(score) == Excellent
    ensures ScoreColorOf(score) == Yellow <==> ScoreBadgeOf(score) == Good
    ensures ScoreColorOf(score) == Red <==> ScoreBadgeOf(score) in {Fair, NeedsImprovement}
  {
  }
}
