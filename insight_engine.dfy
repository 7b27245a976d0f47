/** lib/ai-insights.ts: six threshold rules over the transactions and budgets,
    evaluated in a fixed order, of which the first six insights are kept.
    Every rule reads raw (unconverted) amounts. */
module InsightEngine {
  import opened Options
  import opened Folds
  import opened Text
  import opened Finance

  // ------------------------------------------------------------------
  // The inputs the rules share
  // ------------------------------------------------------------------

  /** Expenses dated in the current month of the current year. */
  function ThisMonthExpenses(ts: seq<Transaction>, now: YearMonth): seq<Transaction>
  {
    Filter(ts, ExpenseIn(now))
  }

  /** Expenses dated in the month before the current one. */
  function LastMonthExpenses(ts: seq<Transaction>, now: YearMonth): seq<Transaction>
  {
    Filter(ts, ExpenseIn(PrevMonth(now)))
  }

  /** `Object.entries(categorySpending)`: this month's expense total per category. */
  function CategorySpending(ts: seq<Transaction>, now: YearMonth): seq<Entry<string>>
  {
    GroupEntries(ThisMonthExpenses(ts, now), CategoryOf, RawAmount)
  }

  // ------------------------------------------------------------------
  // The rules, each giving zero or one insight (the budget rule one per budget)
  // ------------------------------------------------------------------

  function HighSpendingInsight(top: Entry<string>): AIInsight
  {
    AIInsight(HighSpending, Warning, High, Some(top.key), Some(top.amount * 0.2))
  }

  /** The category with the largest sum among the expenses s, when that sum
      exceeds 500. */
  function TopCategoryRule(s: seq<Transaction>): seq<AIInsight>
  {
    var ranked := SortBy(GroupEntries(s, CategoryOf, RawAmount), Amount);
    if |ranked| > 0 && ranked[0].amount > 500.0 then [HighSpendingInsight(ranked[0])] else []
  }

  /** The high-spend rule on this month's expenses. */
  function HighSpendingRule(ts: seq<Transaction>, now: YearMonth): seq<AIInsight>
  {
    TopCategoryRule(ThisMonthExpenses(ts, now))
  }

  /** `(spent / limit) * 100 > 90`, with JavaScript's division by zero. */
  predicate OverNinety(b: Budget)
  {
    GreaterThan(Percentage(b.spent, b.limit), 90.0)
  }

  function BudgetAlertInsight(b: Budget): AIInsight
  {
    AIInsight(BudgetAlert(b.id), Warning, High, Some(b.category), None)
  }

  /** The alerts of `budgets.forEach`, in budget order. */
  function BudgetAlerts(bs: seq<Budget>): seq<AIInsight>
  {
    if |bs| == 0 then []
    else
      BudgetAlerts(bs[..|bs| - 1])
        + (if OverNinety(bs[|bs| - 1]) then [BudgetAlertInsight(bs[|bs| - 1])] else [])
  }

  /** Walking one more budget appends its alert, if any. */
  lemma BudgetAlertsStep(bs: seq<Budget>, i: nat)
    requires i < |bs|
    ensures BudgetAlerts(bs[..i + 1]) ==
      BudgetAlerts(bs[..i]) + (if OverNinety(bs[i]) then [BudgetAlertInsight(bs[i])] else [])
  {
    assert bs[..i + 1][..i] == bs[..i];
  }

  /** Spending more than 20% above last month warns; otherwise spending more
      than 20% below it is an achievement. */
  function TrendRule(thisTotal: real, lastTotal: real): seq<AIInsight>
  {
    if thisTotal > lastTotal * 1.2 then
      [AIInsight(SpendingIncrease, Warning, Medium, None, Some(thisTotal - lastTotal))]
    else if thisTotal < lastTotal * 0.8 then
      [AIInsight(SpendingDecrease, Achievement, High, None, None)]
    else []
  }

  /** An expense whose lower-cased description mentions a subscription or a
      monthly charge, or which is in the Entertainment category. */
  predicate IsSubscriptionLike(t: Transaction)
  {
    t.kind == Expense
    && (Contains(ToLower(t.description), "subscription")
        || Contains(ToLower(t.description), "monthly")
        || t.category == "Entertainment")
  }

  /** More than three subscription-like expenses, over all time. */
  function SubscriptionRule(ts: seq<Transaction>): seq<AIInsight>
  {
    var subscriptions := Filter(ts, IsSubscriptionLike);
    if |subscriptions| > 3 then
      [AIInsight(SubscriptionReview, Tip, Medium, None, Some(Sum(subscriptions, RawAmount) * 0.3))]
    else []
  }

  /** All-time income minus this month's expenses, as a percentage of
      all-time income; 0 without income. */
  function SavingsRate(totalIncome: real, thisTotal: real): real
  {
    if totalIncome > 0.0 then (totalIncome - thisTotal) / totalIncome * 100.0 else 0.0
  }

  function SavingsRule(totalIncome: real, thisTotal: real): seq<AIInsight>
  {
    if SavingsRate(totalIncome, thisTotal) < 20.0 then
      [AIInsight(SavingsGoal, Recommendation, High, None, Some(totalIncome * 0.2 - (totalIncome - thisTotal)))]
    else []
  }

  predicate IsSmall(t: Transaction)
  {
    t.amount < 20.0
  }

  /** More than fifteen expenses under 20 this month. */
  function SmallPurchasesRule(ts: seq<Transaction>, now: YearMonth): seq<AIInsight>
  {
    var small := Filter(ThisMonthExpenses(ts, now), IsSmall);
    if |small| > 15 then
      [AIInsight(SmallPurchases, Tip, Medium, None, Some(Sum(small, RawAmount) * 0.4))]
    else []
  }

  function TotalIncome(ts: seq<Transaction>): real
  {
    Sum(Filter(ts, IsIncome), RawAmount)
  }

  /** Every insight the rules produce, in evaluation order, before slicing. */
  function AllInsights(ts: seq<Transaction>, budgets: seq<Budget>, now: YearMonth): seq<AIInsight>
  {
    var thisTotal := Sum(ThisMonthExpenses(ts, now), RawAmount);
    var lastTotal := Sum(LastMonthExpenses(ts, now), RawAmount);
    HighSpendingRule(ts, now)
      + BudgetAlerts(budgets)
      + TrendRule(thisTotal, lastTotal)
      + SubscriptionRule(ts)
      + SavingsRule(TotalIncome(ts), thisTotal)
      + SmallPurchasesRule(ts, now)
  }

  /** The `budgets.forEach` of generateAIInsights: walks the budgets in order
      and pushes an alert for each one spent beyond 90% of its limit. */
  method PushBudgetAlerts(start: seq<AIInsight>, budgets: seq<Budget>) returns (insights: seq<AIInsight>)
    ensures insights == start + BudgetAlerts(budgets)
  {
    insights := start;
    var i := 0;
    while i < |budgets|
      invariant 0 <= i <= |budgets|
      invariant insights == start + BudgetAlerts(budgets[..i])
    {
      var budget := budgets[i];
      if OverNinety(budget) {
        insights := insights + [BudgetAlertInsight(budget)];
      }
      BudgetAlertsStep(budgets, i);
      i := i + 1;
    }
    assert budgets[..i] == budgets;
  }

  /** generateAIInsights: pushes each rule's insights in turn and returns the
      first six. */
  method GenerateAIInsights(ts: seq<Transaction>, budgets: seq<Budget>, now: YearMonth)
    returns (result: seq<AIInsight>)
    ensures result == Take(AllInsights(ts, budgets, now), 6)
    ensures |result| <= 6
  {
    var insights := HighSpendingRule(ts, now);
    insights := PushBudgetAlerts(insights, budgets);
    var thisTotal := Sum(ThisMonthExpenses(ts, now), RawAmount);
    var lastTotal := Sum(LastMonthExpenses(ts, now), RawAmount);
    insights := insights + TrendRule(thisTotal, lastTotal);
    insights := insights + SubscriptionRule(ts);
    insights := insights + SavingsRule(TotalIncome(ts), thisTotal);
    insights := insights + SmallPurchasesRule(ts, now);
    assert insights == AllInsights(ts, budgets, now);
    result := Take(insights, 6);
  }

  // ------------------------------------------------------------------
  // What each rule promises
  // ------------------------------------------------------------------

  /** The high-spend warning fires iff some category's total among the
      expenses exceeds 500. */
  lemma HighSpendingFires(s: seq<Transaction>)
    ensures |TopCategoryRule(s)| <= 1
    ensures TopCategoryRule(s) != [] <==> exists t :: t in s && GroupTotal(s, CategoryOf, t.category, RawAmount) > 500.0
  {
    if |s| == 0 {
      GroupEntriesEmpty(s, CategoryOf, RawAmount);
    } else {
      var top := TopGroup(s, CategoryOf, RawAmount);
      if TopCategoryRule(s) != [] {
        var t0 :| t0 in s && CategoryOf(t0) == top.key;
        assert GroupTotal(s, CategoryOf, t0.category, RawAmount) > 500.0;
      } else {
        forall t | t in s ensures GroupTotal(s, CategoryOf, t.category, RawAmount) <= 500.0 {
          assert CategoryOf(t) == t.category;
        }
      }
    }
  }

  /** A high-spend warning names a category c of the expenses whose total is
      at least every other category's, and offers 20% of c's total. */
  lemma HighSpendingNames(s: seq<Transaction>) returns (c: string)
    requires TopCategoryRule(s) != []
    ensures |TopCategoryRule(s)| == 1
    ensures var r := TopCategoryRule(s)[0];
      r.id == HighSpending && r.kind == Warning && r.impact == High && r.category == Some(c)
    ensures TopCategoryRule(s)[0].potentialSavings.Some?
    ensures TopCategoryRule(s)[0].potentialSavings.value == GroupTotal(s, CategoryOf, c, RawAmount) * 0.2
    ensures exists t :: t in s && t.category == c
    ensures forall t :: t in s ==>
      GroupTotal(s, CategoryOf, t.category, RawAmount) <= GroupTotal(s, CategoryOf, c, RawAmount)
  {
    assert |s| > 0 by {
      GroupEntriesEmpty(s, CategoryOf, RawAmount);
    }
    var top := TopGroup(s, CategoryOf, RawAmount);
    c := top.key;
    assert TopCategoryRule(s)[0] == HighSpendingInsight(top);
    var t0 :| t0 in s && CategoryOf(t0) == c;
    assert t0.category == c;
    forall t | t in s
      ensures GroupTotal(s, CategoryOf, t.category, RawAmount) <= top.amount
    {
      assert CategoryOf(t) == t.category;
    }
  }

  /** One alert per budget over 90%, in budget order. */
  lemma {:induction false} BudgetAlertsSpec(bs: seq<Budget>)
    ensures |BudgetAlerts(bs)| == |Filter(bs, OverNinety)|
    ensures forall i :: 0 <= i < |BudgetAlerts(bs)| ==>
      BudgetAlerts(bs)[i] == BudgetAlertInsight(Filter(bs, OverNinety)[i])
  {
    if |bs| > 0 {
      var init, last := bs[..|bs| - 1], bs[|bs| - 1];
      assert bs == init + [last];
      BudgetAlertsSpec(init);
      FilterAppend(init, [last], OverNinety);
    }
  }

  /** With a positive limit the alert fires iff more than 90% of the limit
      is spent; exactly 90% does not fire. With a zero limit any positive
      spend fires (an infinite percentage) and no spend does not (NaN). */
  lemma OverNinetySpec(b: Budget)
    ensures b.limit > 0.0 ==> (OverNinety(b) <==> b.spent > 0.9 * b.limit)
    ensures b.limit != 0.0 && b.spent == 0.9 * b.limit ==> !OverNinety(b)
    ensures b.limit == 0.0 ==> (OverNinety(b) <==> b.spent > 0.0)
  {
    if b.limit != 0.0 {
      var p := b.spent / b.limit * 100.0;
      assert Percentage(b.spent, b.limit) == Finite(p);
      if b.limit > 0.0 {
        RatioAboveBound(b.spent, b.limit, 0.9, 90.0);
      }
      if b.spent == 0.9 * b.limit {
        assert b.spent / b.limit == 0.9;
      }
    }
  }

  /** The trend rule: a warning iff spending rose by more than 20%, otherwise
      an achievement iff it fell by more than 20%. The two never both fire,
      for non-negative totals the conditions cannot even both hold, and two
      zero totals give neither. */
  lemma TrendSpec(thisTotal: real, lastTotal: real)
    ensures |TrendRule(thisTotal, lastTotal)| <= 1
    ensures (TrendRule(thisTotal, lastTotal) != [] && TrendRule(thisTotal, lastTotal)[0].id == SpendingIncrease)
      <==> thisTotal > lastTotal * 1.2
    ensures (TrendRule(thisTotal, lastTotal) != [] && TrendRule(thisTotal, lastTotal)[0].id == SpendingDecrease)
      <==> !(thisTotal > lastTotal * 1.2) && thisTotal < lastTotal * 0.8
    ensures thisTotal > lastTotal * 1.2 ==>
      TrendRule(thisTotal, lastTotal)[0].potentialSavings == Some(thisTotal - lastTotal)
    ensures lastTotal >= 0.0 ==> !(thisTotal > lastTotal * 1.2 && thisTotal < lastTotal * 0.8)
    ensures TrendRule(0.0, 0.0) == []
  {
  }

  /** The subscription tip fires iff more than three expenses are
      subscription-like, and offers 30% of their total. */
  lemma SubscriptionSpec(ts: seq<Transaction>)
    ensures var subs := Filter(ts, IsSubscriptionLike);
      (SubscriptionRule(ts) != [] <==> |subs| > 3)
      && (|subs| > 3 ==> SubscriptionRule(ts)[0].potentialSavings == Some(Sum(subs, RawAmount) * 0.3))
    ensures forall t :: t in Filter(ts, IsSubscriptionLike) ==> t in ts && t.kind == Expense
    ensures forall t :: t in ts && t.kind == Expense && t.category == "Entertainment" ==>
      t in Filter(ts, IsSubscriptionLike)
  {
  }

  /** The savings recommendation fires iff the savings rate is under 20%;
      with no income the rate is 0 and it always fires. With income it fires
      iff this month's expenses exceed 80% of all-time income. */
  lemma SavingsSpec(totalIncome: real, thisTotal: real)
    ensures SavingsRule(totalIncome, thisTotal) != [] <==> SavingsRate(totalIncome, thisTotal) < 20.0
    ensures totalIncome <= 0.0 ==> SavingsRate(totalIncome, thisTotal) == 0.0 && SavingsRule(totalIncome, thisTotal) != []
    ensures totalIncome > 0.0 ==> (SavingsRule(totalIncome, thisTotal) != [] <==> thisTotal > 0.8 * totalIncome)
    ensures SavingsRule(totalIncome, thisTotal) != [] ==>
      SavingsRule(totalIncome, thisTotal)[0].potentialSavings == Some(totalIncome * 0.2 - (totalIncome - thisTotal))
  {
    if totalIncome > 0.0 {
      var q := (totalIncome - thisTotal) / totalIncome;
      assert q * totalIncome == totalIncome - thisTotal;
      assert SavingsRate(totalIncome, thisTotal) == q * 100.0;
      QuotientCompare(q, totalIncome, totalIncome - thisTotal, 0.2);
    }
  }

  /** The small-purchase tip fires iff more than fifteen of this month's
      expenses are strictly under 20, and offers 40% of their total. */
  lemma SmallPurchasesSpec(ts: seq<Transaction>, now: YearMonth)
    ensures var small := Filter(ThisMonthExpenses(ts, now), IsSmall);
      (SmallPurchasesRule(ts, now) != [] <==> |small| > 15)
      && (|small| > 15 ==> SmallPurchasesRule(ts, now)[0].potentialSavings == Some(Sum(small, RawAmount) * 0.4))
    ensures forall t :: t in Filter(ThisMonthExpenses(ts, now), IsSmall) <==>
      t in ts && t.kind == Expense && MonthOf(t) == now && t.amount < 20.0
  {
    FilterMembers(ts, ExpenseIn(now));
    FilterMembers(ThisMonthExpenses(ts, now), IsSmall);
  }

  /** In January, "last month" is December of the previous year. */
  lemma LastMonthOfJanuary(ts: seq<Transaction>, year: int)
    ensures LastMonthExpenses(ts, YearMonth(year, 0)) == Filter(ts, ExpenseIn(YearMonth(year - 1, 11)))
  {
  }

  /** Before slicing there are at most five rule insights plus one per budget,
      and every budget alert follows the high-spend warning. */
  lemma {:induction false} AllInsightsCount(ts: seq<Transaction>, budgets: seq<Budget>, now: YearMonth)
    ensures |AllInsights(ts, budgets, now)| <= 5 + |budgets|
  {
    BudgetAlertsSpec(budgets);
    HighSpendingFires(ThisMonthExpenses(ts, now));
    TrendSpec(Sum(ThisMonthExpenses(ts, now), RawAmount), Sum(LastMonthExpenses(ts, now), RawAmount));
  }
}
