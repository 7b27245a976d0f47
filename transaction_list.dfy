/** `filteredTransactions` of components/dashboard/transaction-list.tsx: the
    transactions whose description or category contains the search term,
    ignoring case, and whose type passes the type filter, newest first. */
module TransactionList {
  import opened Folds
  import opened Finance
  import opened Text

  /** The `filterType` state: 'all', 'income' or 'expense'. */
  datatype TypeFilter = All | OnlyIncome | OnlyExpense

  /** `matchesType`: 'all' passes every type, the others their own. */
  predicate MatchesType(filter: TypeFilter, t: Transaction)
  {
    match filter
    case All => true
    case OnlyIncome => t.kind == Income
    case OnlyExpense => t.kind == Expense
  }

  /** `matchesSearch`: the lowercased description or category contains the
      lowercased term. */
  predicate MatchesSearch(term: string, t: Transaction)
  {
    Contains(ToLower(t.description), ToLower(term)) || Contains(ToLower(t.category), ToLower(term))
  }

  function Shown(term: string, filter: TypeFilter): Transaction -> bool
  {
    (t: Transaction) => MatchesSearch(term, t) && MatchesType(filter, t)
  }

  /** A date as one number that orders dates as `getTime` does: months have
      at most 31 days, so 32 day slots per month and 384 per year. */
  function DateKey(t: Transaction): real
  {
    (t.date.year * 384 + t.date.month * 32 + t.date.day) as real
  }

  /** A calendar date: month 0..11 and day 1..31. */
  predicate ValidDate(d: Date)
  {
    0 <= d.month <= 11 && 1 <= d.day <= 31
  }

  /** d1 is strictly before d2 in the calendar. */
  predicate Earlier(d1: Date, d2: Date)
  {
    d1.year < d2.year ||
    (d1.year == d2.year && (d1.month < d2.month || (d1.month == d2.month && d1.day < d2.day)))
  }

  /** `filteredTransactions`: the filter, then the stable sort by date,
      newest first. */
  function FilteredTransactions(ts: seq<Transaction>, term: string, filter: TypeFilter): seq<Transaction>
  {
    SortBy(Filter(ts, Shown(term, filter)), DateKey)
  }

  /** On valid dates the key orders dates as the calendar does. */
  lemma DateKeyOrder(a: Transaction, b: Transaction)
    requires ValidDate(a.date) && ValidDate(b.date)
    ensures DateKey(a) < DateKey(b) <==> Earlier(a.date, b.date)
    ensures DateKey(a) == DateKey(b) <==> a.date == b.date
  {
  }

  /** A transaction is listed iff it matches the search and the type
      filter; the list is a reordering of exactly the matching transactions,
      every copy kept, so nothing is added or altered. */
  lemma FilteredSpec(ts: seq<Transaction>, term: string, filter: TypeFilter)
    ensures forall t :: t in FilteredTransactions(ts, term, filter) <==>
      t in ts && MatchesSearch(term, t) && MatchesType(filter, t)
    ensures multiset(FilteredTransactions(ts, term, filter)) == multiset(Filter(ts, Shown(term, filter)))
    ensures multiset(FilteredTransactions(ts, term, filter)) <= multiset(ts)
    ensures |FilteredTransactions(ts, term, filter)| <= |ts|
  {
    var s := Filter(ts, Shown(term, filter));
    FilterMembers(ts, Shown(term, filter));
    SortByMembers(s, DateKey);
    FilterSubMultiset(ts, Shown(term, filter));
  }

  /** The list is newest first: for valid dates no transaction is listed
      after one that is earlier than it. */
  lemma NewestFirst(ts: seq<Transaction>, term: string, filter: TypeFilter)
    requires forall t :: t in ts ==> ValidDate(t.date)
    ensures forall i, j :: 0 <= i < j < |FilteredTransactions(ts, term, filter)| ==>
      !Earlier(FilteredTransactions(ts, term, filter)[i].date, FilteredTransactions(ts, term, filter)[j].date)
  {
    var r := FilteredTransactions(ts, term, filter);
    FilteredSpec(ts, term, filter);
    forall i, j | 0 <= i < j < |r| ensures !Earlier(r[i].date, r[j].date) {
      assert r[i] in r && r[j] in r;
      DateKeyOrder(r[i], r[j]);
    }
  }

  /** The empty term with the 'all' filter lists every transaction. */
  lemma EmptySearchShowsAll(ts: seq<Transaction>)
    ensures multiset(FilteredTransactions(ts, "", All)) == multiset(ts)
  {
    forall t | t in ts ensures Shown("", All)(t) {
      ContainsEmpty(ToLower(t.description));
    }
    FilterKeepsAll(ts, Shown("", All));
  }

  /** The type filters split the matches: 'all' lists exactly what 'income'
      and 'expense' list together. */
  lemma TypeFiltersSplit(ts: seq<Transaction>, term: string)
    ensures forall t :: t in FilteredTransactions(ts, term, All) <==>
      t in FilteredTransactions(ts, term, OnlyIncome) || t in FilteredTransactions(ts, term, OnlyExpense)
  {
    FilteredSpec(ts, term, All);
    FilteredSpec(ts, term, OnlyIncome);
    FilteredSpec(ts, term, OnlyExpense);
    forall t ensures t in FilteredTransactions(ts, term, All) <==>
      t in FilteredTransactions(ts, term, OnlyIncome) || t in FilteredTransactions(ts, term, OnlyExpense)
    {
      assert MatchesType(All, t) <==> MatchesType(OnlyIncome, t) || MatchesType(OnlyExpense, t);
    }
  }
}
