/** The per-day vocabulary of spending-trends-chart.tsx: the transactions of
    one type on one day of a month, their total, and the totals of days
    1..k added up, which both the cumulative column and the daily spending
    series compute. */
module DayTotals {
  import opened Folds
  import opened Finance
  import opened Calendar


  /** The transaction is dated on day d of the month. */
  function OnDay(ym: YearMonth, d: int): Transaction -> bool
  {
    (t: Transaction) => MonthOf(t) == ym && t.date.day == d
  }

  function KindOnDay(ym: YearMonth, d: int, kind: TxType): Transaction -> bool
  {
    (t: Transaction) => t.kind == kind && MonthOf(t) == ym && t.date.day == d
  }

  /** Transactions of the type on days 1..k of the month. */
  function KindUpToDay(ym: YearMonth, k: int, kind: TxType): Transaction -> bool
  {
    (t: Transaction) => t.kind == kind && MonthOf(t) == ym && 1 <= t.date.day <= k
  }

  /** Reference definition: the total of g over the transactions of the type
      dated on day d. */
  function DayKindTotal(ts: seq<Transaction>, ym: YearMonth, d: int, kind: TxType, g: Transaction -> real): real
  {
    Sum(Filter(ts, KindOnDay(ym, d, kind)), g)
  }

  /** Reference definition: the day totals of days 1..k added up. */
  function DaysTotal(ts: seq<Transaction>, ym: YearMonth, kind: TxType, g: Transaction -> real, k: nat): real
  {
    if k == 0 then 0.0 else DaysTotal(ts, ym, kind, g, k - 1) + DayKindTotal(ts, ym, k, kind, g)
  }

  /** Adding up days 1..k is summing over the transactions dated on those days. */
  lemma {:induction false} DaysTotalSpec(ts: seq<Transaction>, ym: YearMonth, kind: TxType, g: Transaction -> real, k: nat)
    ensures DaysTotal(ts, ym, kind, g, k) == Sum(Filter(ts, KindUpToDay(ym, k, kind)), g)
  {
    if k == 0 {
      NoDayZero(ts, ym, kind, g);
    } else {
      DaysTotalSpec(ts, ym, kind, g, k - 1);
      DaySplit(ts, ym, kind, g, k);
    }
  }

  lemma NoDayZero(ts: seq<Transaction>, ym: YearMonth, kind: TxType, g: Transaction -> real)
    ensures Sum(Filter(ts, KindUpToDay(ym, 0, kind)), g) == 0.0
  {
    FilterKeepsNone(ts, KindUpToDay(ym, 0, kind));
  }

  /** Days 1..k are days 1..k-1 and day k. */
  lemma DaySplit(ts: seq<Transaction>, ym: YearMonth, kind: TxType, g: Transaction -> real, k: nat)
    requires k > 0
    ensures Sum(Filter(ts, KindUpToDay(ym, k, kind)), g) ==
      Sum(Filter(ts, KindUpToDay(ym, k - 1, kind)), g) + DayKindTotal(ts, ym, k, kind, g)
  {
    SumFilterSplit(ts, KindUpToDay(ym, k, kind), KindUpToDay(ym, k - 1, kind), KindOnDay(ym, k, kind), g);
  }

  /** With non-negative amounts the running total never decreases. */
  lemma DaysTotalMonotone(ts: seq<Transaction>, ym: YearMonth, kind: TxType, g: Transaction -> real, j: nat, k: nat)
    requires forall t :: t in ts ==> g(t) >= 0.0
    requires j <= k
    ensures DaysTotal(ts, ym, kind, g, j) <= DaysTotal(ts, ym, kind, g, k)
  {
    DaysTotalSpec(ts, ym, kind, g, j);
    DaysTotalSpec(ts, ym, kind, g, k);
    SumFilterMono(ts, KindUpToDay(ym, j, kind), KindUpToDay(ym, k, kind), g);
  }

  /** When every transaction of the month is dated on one of its days, the
      total up to the last day is the month's total. */
  lemma WholeMonth(ts: seq<Transaction>, ym: YearMonth, kind: TxType, g: Transaction -> real)
    requires ValidMonth(ym)
    requires forall t :: t in ts && MonthOf(t) == ym ==> 1 <= t.date.day <= DaysInMonth(ym.year, ym.month)
    ensures DaysTotal(ts, ym, kind, g, DaysInMonth(ym.year, ym.month)) == Sum(Filter(ts, KindIn(ym, kind)), g)
  {
    var last := DaysInMonth(ym.year, ym.month);
    DaysTotalSpec(ts, ym, kind, g, last);
    FilterExt(ts, KindUpToDay(ym, last, kind), KindIn(ym, kind));
  }
}
