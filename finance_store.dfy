/** store/slices/financeSlice.ts: the application state and its reducers.
    Each reducer changes the state in place, so the state is a class whose
    methods update its fields; the budget updates they make are stated by the
    pure functions ApplyExpense and ReplaceBudget. */
module FinanceStore {
  import opened Options
  import opened Folds
  import opened Currency
  import opened Finance

  /** The budget change of addTransaction: an expense adds its amount to the
      `spent` of the first budget of its category (ApplyExpenseFirstMatch);
      nothing else changes (ApplyExpenseNoMatch). */
  function ApplyExpense(bs: seq<Budget>, t: Transaction): (r: seq<Budget>)
    ensures |r| == |bs|
  {
    if t.kind != Expense then bs
    else
      match FirstIndex(bs, HasBudgetCategory(t.category))
      case None => bs
      case Some(i) => bs[i := bs[i].(spent := bs[i].spent + t.amount)]
  }

  /** For an expense, the first budget of its category, and only that one,
      has its `spent` increased by exactly the amount. */
  lemma ApplyExpenseFirstMatch(bs: seq<Budget>, t: Transaction, i: nat)
    requires t.kind == Expense
    requires i < |bs| && bs[i].category == t.category
    requires forall j :: 0 <= j < i ==> bs[j].category != t.category
    ensures ApplyExpense(bs, t) == bs[i := bs[i].(spent := bs[i].spent + t.amount)]
  {
    var p := HasBudgetCategory(t.category);
    var found := FirstIndex(bs, p);
    assert p(bs[i]);
    assert found.Some?;
    assert !(found.value < i);
    assert !(i < found.value);
  }

  /** An income, or an expense of a category no budget has, leaves every
      budget as it was. */
  lemma ApplyExpenseNoMatch(bs: seq<Budget>, t: Transaction)
    requires t.kind == Income || forall j :: 0 <= j < |bs| ==> bs[j].category != t.category
    ensures ApplyExpense(bs, t) == bs
  {
    if t.kind == Expense {
      assert forall j :: 0 <= j < |bs| ==> !HasBudgetCategory(t.category)(bs[j]);
    }
  }

  /** The change of updateBudget: the first budget with the same id is
      replaced (ReplaceBudgetFirstMatch); with no such budget nothing changes
      (ReplaceBudgetNoMatch). */
  function ReplaceBudget(bs: seq<Budget>, b: Budget): (r: seq<Budget>)
    ensures |r| == |bs|
  {
    match FirstIndex(bs, HasBudgetId(b.id))
    case None => bs
    case Some(i) => bs[i := b]
  }

  lemma ReplaceBudgetFirstMatch(bs: seq<Budget>, b: Budget, i: nat)
    requires i < |bs| && bs[i].id == b.id
    requires forall j :: 0 <= j < i ==> bs[j].id != b.id
    ensures ReplaceBudget(bs, b) == bs[i := b]
  {
    var p := HasBudgetId(b.id);
    var found := FirstIndex(bs, p);
    assert p(bs[i]);
    assert found.Some?;
    assert !(found.value < i);
    assert !(i < found.value);
  }

  lemma ReplaceBudgetNoMatch(bs: seq<Budget>, b: Budget)
    requires forall j :: 0 <= j < |bs| ==> bs[j].id != b.id
    ensures ReplaceBudget(bs, b) == bs
  {
    assert forall j :: 0 <= j < |bs| ==> !HasBudgetId(b.id)(bs[j]);
  }

  /** Some budget is kept for the category. */
  predicate HasBudgetFor(bs: seq<Budget>, category: string)
  {
    exists j :: 0 <= j < |bs| && bs[j].category == category
  }

  /** An expense raises the total spent over all budgets by its amount when
      some budget has its category, and leaves it unchanged otherwise. */
  lemma ApplyExpenseTotal(bs: seq<Budget>, t: Transaction)
    ensures Sum(ApplyExpense(bs, t), Spent)
      == Sum(bs, Spent) + (if t.kind == Expense && HasBudgetFor(bs, t.category) then t.amount else 0.0)
  {
    var found := FirstIndex(bs, HasBudgetCategory(t.category));
    if t.kind == Expense && found.Some? {
      var i := found.value;
      var u := bs[i].(spent := bs[i].spent + t.amount);
      assert HasBudgetFor(bs, t.category) by {
        assert HasBudgetCategory(t.category)(bs[i]);
      }
      SumUpdate(bs, i, u, Spent);
    } else if t.kind == Expense {
      assert !HasBudgetFor(bs, t.category) by {
        assert forall j :: 0 <= j < |bs| ==> !HasBudgetCategory(t.category)(bs[j]);
      }
    }
  }

  /** updateBudget keeps every id in place, so it never changes which budget
      a later update or alert refers to. */
  lemma ReplaceBudgetKeepsIds(bs: seq<Budget>, b: Budget)
    ensures forall j :: 0 <= j < |bs| ==> ReplaceBudget(bs, b)[j].id == bs[j].id
  {
    var found := FirstIndex(bs, HasBudgetId(b.id));
    if found.Some? {
      assert HasBudgetId(b.id)(bs[found.value]);
    }
  }

  /** initialState's preferences. */
  const DefaultPreferences: UserPreferences := UserPreferences(USD, true, 1000.0)

  class FinanceState {
    var transactions: seq<Transaction>
    var budgets: seq<Budget>
    var preferences: UserPreferences
    var selectedMonth: int
    var selectedYear: int
    var showAddTransaction: bool

    /** initialState: the sample data, USD with alerts and a savings goal of
        1000, the selection on the current month, the dialog closed. */
    constructor (sampleTransactions: seq<Transaction>, sampleBudgets: seq<Budget>, now: YearMonth)
      ensures transactions == sampleTransactions && budgets == sampleBudgets
      ensures preferences == DefaultPreferences
      ensures preferences.preferredCurrency == USD && preferences.budgetAlerts && preferences.savingsGoal == 1000.0
      ensures selectedMonth == now.month && selectedYear == now.year
      ensures !showAddTransaction
    {
      transactions := sampleTransactions;
      budgets := sampleBudgets;
      preferences := DefaultPreferences;
      selectedMonth := now.month;
      selectedYear := now.year;
      showAddTransaction := false;
    }

    /** addTransaction: the new transaction goes first and the old ones follow
        in order; an expense bumps the first budget of its category. */
    method AddTransaction(t: Transaction)
      modifies this
      ensures transactions == [t] + old(transactions)
      ensures transactions[0] == t && transactions[1..] == old(transactions)
      ensures budgets == ApplyExpense(old(budgets), t)
      ensures preferences == old(preferences)
      ensures selectedMonth == old(selectedMonth) && selectedYear == old(selectedYear)
      ensures showAddTransaction == old(showAddTransaction)
    {
      transactions := [t] + transactions;
      if t.kind == Expense {
        var found := FirstIndex(budgets, HasBudgetCategory(t.category));
        if found.Some? {
          var i := found.value;
          budgets := budgets[i := budgets[i].(spent := budgets[i].spent + t.amount)];
        }
      }
    }

    /** updateBudget: replaces the first budget with the payload's id. */
    method UpdateBudget(b: Budget)
      modifies this
      ensures budgets == ReplaceBudget(old(budgets), b)
      ensures transactions == old(transactions) && preferences == old(preferences)
      ensures selectedMonth == old(selectedMonth) && selectedYear == old(selectedYear)
      ensures showAddTransaction == old(showAddTransaction)
    {
      var found := FirstIndex(budgets, HasBudgetId(b.id));
      if found.Some? {
        budgets := budgets[found.value := b];
      }
    }

    method UpdatePreferences(p: UserPreferences)
      modifies this
      ensures preferences == p
      ensures transactions == old(transactions) && budgets == old(budgets)
      ensures selectedMonth == old(selectedMonth) && selectedYear == old(selectedYear)
      ensures showAddTransaction == old(showAddTransaction)
    {
      preferences := p;
    }

    method SetSelectedMonth(month: int)
      modifies this
      ensures selectedMonth == month
      ensures transactions == old(transactions) && budgets == old(budgets) && preferences == old(preferences)
      ensures selectedYear == old(selectedYear) && showAddTransaction == old(showAddTransaction)
    {
      selectedMonth := month;
    }

    method SetSelectedYear(year: int)
      modifies this
      ensures selectedYear == year
      ensures transactions == old(transactions) && budgets == old(budgets) && preferences == old(preferences)
      ensures selectedMonth == old(selectedMonth) && showAddTransaction == old(showAddTransaction)
    {
      selectedYear := year;
    }

    method SetShowAddTransaction(show: bool)
      modifies this
      ensures showAddTransaction == show
      ensures transactions == old(transactions) && budgets == old(budgets) && preferences == old(preferences)
      ensures selectedMonth == old(selectedMonth) && selectedYear == old(selectedYear)
    {
      showAddTransaction := show;
    }
  }
}
