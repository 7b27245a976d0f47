/** components/dashboard/category-comparison-chart.tsx: the selected month's
    transactions, of either type, grouped by category with converted
    amounts, one bar per category, largest first, coloured from a
    ten-entry palette. */
module CategoryComparison {
  import opened Folds
  import opened Currency
  import opened Finance

  /** CATEGORY_COLORS. */
  const CategoryColors: seq<string> := [
    "#EF4444", "#F97316", "#EAB308", "#22C55E", "#3B82F6",
    "#8B5CF6", "#EC4899", "#14B8A6", "#F59E0B", "#10B981"]

  /** The transactions of month ym in the given category, whatever their type. */
  function CategoryInMonth(ym: YearMonth, category: string): Transaction -> bool
  {
    (t: Transaction) => MonthOf(t) == ym && t.category == category
  }

  /** `chartData`: `categoryData` (the reduce over the month's transactions),
      its entries in first-appearance order, sorted by amount. */
  function ChartData(ts: seq<Transaction>, pref: Currency, ym: YearMonth): seq<Entry<string>>
  {
    SortBy(GroupEntries(Filter(ts, InMonth(ym)), CategoryOf, Converted(pref)), Amount)
  }

  /** The fill of the bar at the given index. */
  function BarColor(index: nat): (r: string)
    ensures r in CategoryColors
  {
    Cycle(CategoryColors, index)
  }

  /** The bars are sorted non-increasingly by amount, each category has one
      bar, and the bars add up to the month's converted total. */
  lemma ChartDataSpec(ts: seq<Transaction>, pref: Currency, ym: YearMonth)
    ensures SortedDesc(ChartData(ts, pref, ym), Amount)
    ensures DistinctBy(ChartData(ts, pref, ym), EntryKey)
    ensures Sum(ChartData(ts, pref, ym), Amount) == Sum(Filter(ts, InMonth(ym)), Converted(pref))
  {
    var s := Filter(ts, InMonth(ym));
    var g := GroupEntries(s, CategoryOf, Converted(pref));
    GroupEntriesDistinct(s, CategoryOf, Converted(pref));
    SortByDistinct(g, Amount, EntryKey);
    GroupEntriesSum(s, CategoryOf, Converted(pref));
    SortBySum(g, Amount, Amount);
  }

  /** The amount of a category is the converted sum of the month's
      transactions in it, income included. */
  lemma GroupAmount(ts: seq<Transaction>, pref: Currency, ym: YearMonth, category: string)
    ensures GroupTotal(Filter(ts, InMonth(ym)), CategoryOf, category, Converted(pref)) ==
      Sum(Filter(ts, CategoryInMonth(ym, category)), Converted(pref))
  {
    var s := Filter(ts, InMonth(ym));
    var p := HasCategory(category);
    FilterMembers(ts, InMonth(ym));
    GroupTotalIsFilteredSum(s, CategoryOf, category, Converted(pref), p);
    FilterFilter(ts, InMonth(ym), p, CategoryInMonth(ym, category));
  }

  /** Every bar is a category of the month with its converted total. */
  lemma ChartDataSound(ts: seq<Transaction>, pref: Currency, ym: YearMonth)
    ensures forall e :: e in ChartData(ts, pref, ym) ==>
      (exists t :: t in ts && MonthOf(t) == ym && t.category == e.key) &&
      e.amount == Sum(Filter(ts, CategoryInMonth(ym, e.key)), Converted(pref))
  {
    var s := Filter(ts, InMonth(ym));
    FilterMembers(ts, InMonth(ym));
    forall e | e in ChartData(ts, pref, ym)
      ensures (exists t :: t in ts && MonthOf(t) == ym && t.category == e.key) &&
        e.amount == Sum(Filter(ts, CategoryInMonth(ym, e.key)), Converted(pref))
    {
      SortedEntryOf(s, CategoryOf, Converted(pref), e);
      var x :| x in s && CategoryOf(x) == e.key;
      GroupAmount(ts, pref, ym, e.key);
    }
  }

  /** Every transaction of the month has its category drawn, with the
      category's converted total. */
  lemma ChartDataComplete(ts: seq<Transaction>, pref: Currency, ym: YearMonth)
    ensures forall t :: t in ts && MonthOf(t) == ym ==>
      Entry(t.category, Sum(Filter(ts, CategoryInMonth(ym, t.category)), Converted(pref))) in ChartData(ts, pref, ym)
  {
    var s := Filter(ts, InMonth(ym));
    var g := GroupEntries(s, CategoryOf, Converted(pref));
    var r := ChartData(ts, pref, ym);
    FilterMembers(ts, InMonth(ym));
    GroupEntriesMembers(s, CategoryOf, Converted(pref));
    SortByMembers(g, Amount);
    forall t | t in ts && MonthOf(t) == ym
      ensures Entry(t.category, Sum(Filter(ts, CategoryInMonth(ym, t.category)), Converted(pref))) in r
    {
      assert t in s;
      GroupAmount(ts, pref, ym, t.category);
    }
  }

  /** The ten palette colours are pairwise different. */
  lemma ColorsDistinct()
    ensures |CategoryColors| == 10
    ensures forall i, j :: 0 <= i < j < 10 ==> CategoryColors[i] != CategoryColors[j]
  {
  }

  /** The first ten bars take the palette in order, so they all differ, and
      every later bar repeats the colour of the bar ten places before. */
  lemma BarColorCycles(index: nat)
    ensures index < 10 ==> BarColor(index) == CategoryColors[index]
    ensures BarColor(index + 10) == BarColor(index)
  {
    CycleRepeats(CategoryColors, index);
  }
}
