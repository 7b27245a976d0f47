/** app/page.tsx, lines 57-131: the all-time summary and the summary of the
    selected month that the overview cards show. Amounts are converted to the
    preferred currency before they are added up. */
module PageSummary {
  import opened Folds
  import opened Currency
  import opened Finance

  /** The transactions of the selected month and year, in their order. */
  function FilterPeriod(ts: seq<Transaction>, month: int, year: int): (r: seq<Transaction>)
    ensures forall t :: t in r <==> t in ts && t.date.year == year && t.date.month == month
  {
    FilterMembers(ts, InMonth(YearMonth(year, month)));
    Filter(ts, InMonth(YearMonth(year, month)))
  }

  /** The sum of the incomes' amounts. */
  function IncomeTotal(ts: seq<Transaction>): real
  {
    Sum(Filter(ts, IsIncome), RawAmount)
  }

  /** The sum of the expenses' amounts. */
  function ExpenseTotal(ts: seq<Transaction>): real
  {
    Sum(Filter(ts, IsExpense), RawAmount)
  }

  /** Totals of the converted list are the sums of the converted amounts:
      filtering by type and converting commute. */
  lemma {:induction false} ConvertedTotal(ts: seq<Transaction>, pref: Currency, p: Transaction -> bool)
    requires forall t :: t in ts ==> p(ConvertOne(t, pref)) == p(t)
    ensures Sum(Filter(ConvertAll(ts, pref), p), RawAmount) == Sum(Filter(ts, p), Converted(pref))
  {
    if |ts| > 0 {
      var init, last := ts[..|ts| - 1], ts[|ts| - 1];
      var cs := ConvertAll(ts, pref);
      assert cs[..|cs| - 1] == ConvertAll(init, pref);
      assert forall t :: t in init ==> t in ts;
      ConvertedTotal(init, pref, p);
      SumAppend(Filter(ConvertAll(init, pref), p), if p(last) then [ConvertOne(last, pref)] else [], RawAmount);
      SumAppend(Filter(init, p), if p(last) then [last] else [], Converted(pref));
      SumSingleton(last, Converted(pref));
      SumSingleton(ConvertOne(last, pref), RawAmount);
    }
  }

  /** `income > 0 ? (net / income) * 100 : 0`. */
  function SavingsRateOf(income: real, net: real): real
  {
    if income > 0.0 then net / income * 100.0 else 0.0
  }

  /** With positive income and non-negative expenses the savings rate is at
      most 100, equal to 100 exactly when nothing was spent, and negative
      exactly when more was spent than earned. Without income it is 0. */
  lemma SavingsRateSpec(income: real, expenses: real)
    ensures income <= 0.0 ==> SavingsRateOf(income, income - expenses) == 0.0
    ensures income > 0.0 && expenses >= 0.0 ==> SavingsRateOf(income, income - expenses) <= 100.0
    ensures income > 0.0 ==> (SavingsRateOf(income, income - expenses) == 100.0 <==> expenses == 0.0)
    ensures income > 0.0 ==> (SavingsRateOf(income, income - expenses) < 0.0 <==> expenses > income)
  {
    if income > 0.0 {
      RatioFacts(income - expenses, income);
    }
  }

  /** For a positive denominator the ratio is above one, one, or negative
      exactly when the numerator is above, at, or below those bounds. */
  lemma RatioFacts(a: real, c: real)
    requires c > 0.0
    ensures a / c > 1.0 <==> a > c
    ensures a / c == 1.0 <==> a == c
    ensures a / c < 0.0 <==> a < 0.0
  {
    var q := a / c;
    assert q * c == a;
    ScaleCompare(q, c);
  }

  lemma ScaleCompare(q: real, c: real)
    requires c > 0.0
    ensures q > 1.0 <==> q * c > c
    ensures q == 1.0 <==> q * c == c
    ensures q < 0.0 <==> q * c < 0.0
  {
    if q > 1.0 {
      assert (q - 1.0) * c > 0.0;
    } else if q < 1.0 {
      assert (1.0 - q) * c > 0.0;
    }
  }

  /** One `monthlyData` bucket. */
  datatype MonthTotals = MonthTotals(income: real, expenses: real)

  /** What a transaction adds to its bucket's income: its converted amount if
      it is an income, else nothing. */
  function IncomePart(t: Transaction): real
  {
    if t.kind == Income then t.amount else 0.0
  }

  /** What a transaction adds to its bucket's expenses: every transaction that
      is not an income counts as an expense (the reduce's `else` branch). */
  function ExpensePart(t: Transaction): real
  {
    if t.kind == Income then 0.0 else t.amount
  }

  /** The `monthlyData` reduce over the converted transactions: one bucket
      per distinct year-month, created with zero totals the first time the
      month is seen and then updated in place. `months` is the key order of
      the record. */
  method MonthlyData(cts: seq<Transaction>) returns (buckets: map<YearMonth, MonthTotals>, months: seq<YearMonth>)
    ensures months == KeysInOrder(cts, MonthOf)
    ensures forall ym :: ym in buckets <==> ym in months
    ensures forall ym :: ym in buckets ==>
      buckets[ym] == MonthTotals(GroupTotal(cts, MonthOf, ym, IncomePart), GroupTotal(cts, MonthOf, ym, ExpensePart))
  {
    buckets := map[];
    months := [];
    ghost var seen: seq<Transaction> := [];
    var i := 0;
    while i < |cts|
      invariant 0 <= i <= |cts| && seen == cts[..i]
      invariant months == KeysInOrder(seen, MonthOf)
      invariant forall ym :: ym in buckets <==> ym in months
      invariant forall ym :: ym in buckets ==>
        buckets[ym] == MonthTotals(GroupTotal(seen, MonthOf, ym, IncomePart), GroupTotal(seen, MonthOf, ym, ExpensePart))
    {
      var t := cts[i];
      var ym := MonthOf(t);
      ghost var before, monthsBefore := buckets, months;
      if ym !in buckets {
        buckets := buckets[ym := MonthTotals(0.0, 0.0)];
        months := months + [ym];
      }
      var cur := buckets[ym];
      if t.kind == Income {
        buckets := buckets[ym := cur.(income := cur.income + t.amount)];
      } else {
        buckets := buckets[ym := cur.(expenses := cur.expenses + t.amount)];
      }
      assert months == KeysInOrder(seen + [t], MonthOf) by {
        KeysInOrderSnoc(seen, t, MonthOf);
      }
      forall y | y in buckets
        ensures buckets[y] == MonthTotals(GroupTotal(seen + [t], MonthOf, y, IncomePart), GroupTotal(seen + [t], MonthOf, y, ExpensePart))
      {
        GroupTotalSnoc(seen, t, MonthOf, y, IncomePart);
        GroupTotalSnoc(seen, t, MonthOf, y, ExpensePart);
        if y != ym {
          assert y in before && buckets[y] == before[y];
        } else if y !in before {
          GroupTotalAbsent(seen, MonthOf, y, IncomePart);
          GroupTotalAbsent(seen, MonthOf, y, ExpensePart);
        }
      }
      assert cts[..i + 1] == cts[..i] + [cts[i]];
      seen := seen + [t];
      i := i + 1;
    }
    assert cts[..|cts|] == cts;
  }

  /** The all-time summary over the converted transactions. The average is
      the expense total over the number of distinct months with any
      transaction, income-only months included, and 0 when there are none. */
  function SummaryOf(ts: seq<Transaction>, pref: Currency): (r: FinancialSummary)
    ensures r.netIncome == r.totalIncome - r.totalExpenses
    ensures r.savingsRate == SavingsRateOf(r.totalIncome, r.netIncome)
    ensures |ts| > 0 ==> |KeysInOrder(ConvertAll(ts, pref), MonthOf)| > 0
    ensures |ts| > 0 ==> r.monthlyAverage == r.totalExpenses / |KeysInOrder(ConvertAll(ts, pref), MonthOf)| as real
    ensures |ts| == 0 ==> r.monthlyAverage == 0.0
    ensures r.yearlyProjection == r.monthlyAverage * 12.0
  {
    var cts := ConvertAll(ts, pref);
    var income := IncomeTotal(cts);
    var expenses := ExpenseTotal(cts);
    var net := income - expenses;
    var n := |KeysInOrder(cts, MonthOf)|;
    assert |ts| > 0 ==> n > 0 by {
      if |ts| > 0 {
        assert MonthOf(cts[0]) in KeysInOrder(cts, MonthOf);
      }
    }
    var average := if n > 0 then expenses / n as real else 0.0;
    FinancialSummary(income, expenses, net, SavingsRateOf(income, net), average, average * 12.0)
  }

  /** The summary of the selected month: the period is filtered first and
      then converted; its average is its own expense total and its
      projection twelve times that. */
  function FilteredSummaryOf(ts: seq<Transaction>, pref: Currency, month: int, year: int): (r: FinancialSummary)
    ensures r.netIncome == r.totalIncome - r.totalExpenses
    ensures r.savingsRate == SavingsRateOf(r.totalIncome, r.netIncome)
    ensures r.monthlyAverage == r.totalExpenses
    ensures r.yearlyProjection == r.totalExpenses * 12.0
  {
    var p := FilterPeriod(ts, month, year);
    var cps := ConvertAll(p, pref);
    var income := IncomeTotal(cps);
    var expenses := ExpenseTotal(cps);
    var net := income - expenses;
    FinancialSummary(income, expenses, net, SavingsRateOf(income, net), expenses, expenses * 12.0)
  }

  function BucketExpenses(buckets: map<YearMonth, MonthTotals>): YearMonth -> real
  {
    (ym: YearMonth) => if ym in buckets then buckets[ym].expenses else 0.0
  }

  /** The all-time half of the useMemo computation, through the month
      buckets: the average divides the sum of the buckets' expenses by the
      number of buckets. (The selected month's half is FilteredSummaryOf.) */
  method AllTimeSummary(ts: seq<Transaction>, pref: Currency) returns (summary: FinancialSummary)
    ensures summary == SummaryOf(ts, pref)
  {
    var cts := ConvertAll(ts, pref);
    var buckets, months := MonthlyData(cts);
    var income := IncomeTotal(cts);
    var expenses := ExpenseTotal(cts);
    var net := income - expenses;
    var bucketSum := Sum(months, BucketExpenses(buckets));
    assert bucketSum == expenses by {
      SumOverKeys(months, BucketExpenses(buckets), cts, MonthOf, ExpensePart);
      SumGroupsCover(months, cts, MonthOf, ExpensePart);
      SumMasked(cts, IsExpense, RawAmount, ExpensePart);
    }
    var average := if |months| > 0 then bucketSum / |months| as real else 0.0;
    summary := FinancialSummary(income, expenses, net, SavingsRateOf(income, net), average, average * 12.0);
  }

  /** Both summaries' totals are the sums of the converted amounts of the
      incomes and of the expenses, all-time and of the selected month. */
  lemma SummaryTotals(ts: seq<Transaction>, pref: Currency, month: int, year: int)
    ensures SummaryOf(ts, pref).totalIncome == Sum(Filter(ts, IsIncome), Converted(pref))
    ensures SummaryOf(ts, pref).totalExpenses == Sum(Filter(ts, IsExpense), Converted(pref))
    ensures FilteredSummaryOf(ts, pref, month, year).totalIncome == Sum(Filter(FilterPeriod(ts, month, year), IsIncome), Converted(pref))
    ensures FilteredSummaryOf(ts, pref, month, year).totalExpenses == Sum(Filter(FilterPeriod(ts, month, year), IsExpense), Converted(pref))
  {
    var p := FilterPeriod(ts, month, year);
    ConvertedTotal(ts, pref, IsIncome);
    ConvertedTotal(ts, pref, IsExpense);
    ConvertedTotal(p, pref, IsIncome);
    ConvertedTotal(p, pref, IsExpense);
  }

  /** With non-negative amounts the selected month's income and expenses
      never exceed the all-time totals. */
  lemma FilteredAtMostAll(ts: seq<Transaction>, pref: Currency, month: int, year: int)
    requires forall t :: t in ts ==> t.amount >= 0.0
    ensures FilteredSummaryOf(ts, pref, month, year).totalIncome <= SummaryOf(ts, pref).totalIncome
    ensures FilteredSummaryOf(ts, pref, month, year).totalExpenses <= SummaryOf(ts, pref).totalExpenses
  {
    var inPeriod := InMonth(YearMonth(year, month));
    SummaryTotals(ts, pref, month, year);
    forall t | t in ts ensures Converted(pref)(t) >= 0.0 {
      ConvertKeepsSign(t.amount, t.currency, pref);
    }
    var incomeIn := (t: Transaction) => inPeriod(t) && IsIncome(t);
    var expenseIn := (t: Transaction) => inPeriod(t) && IsExpense(t);
    FilterFilter(ts, inPeriod, IsIncome, incomeIn);
    FilterFilter(ts, inPeriod, IsExpense, expenseIn);
    SumFilterMono(ts, incomeIn, IsIncome, Converted(pref));
    SumFilterMono(ts, expenseIn, IsExpense, Converted(pref));
  }
}
