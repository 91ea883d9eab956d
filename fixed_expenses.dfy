/**
 * The fixed-expense view (components/FixedExpenses.tsx): expenses are
 * grouped by trimmed merchant, a merchant seen in at least two months and
 * on average at most three times a month counts as recurring, and the
 * period's expenses at recurring merchants are listed with the merchant's
 * amount statistics.
 */
module FixedExpenses {
  import opened Wrappers
  import opened Seqs
  import opened Ledger
  import opened Tally

  /** More occurrences per month than this mark a merchant as frequent, not fixed. */
  const FREQUENCY_THRESHOLD := 3

  /** The trailing window, in months, over which `recentCount` is taken. */
  const RECENT_MONTHS_CHECK := 6

  /** What the grouping pass collects for one merchant. */
  datatype MerchantRecord = MerchantRecord(
    monthlyCounts: seq<Entry<YearMonth>>,
    allAmounts: seq<int>,
    dates: seq<Date>)

  /** The amount statistics shown with a fixed expense. */
  datatype AmountStat = AmountStat(min: int, max: int, avg: real, recentCount: nat)

  /** One listed expense: the transaction, whether its merchant's amount varies, and the statistics. */
  datatype FixedRow = FixedRow(tx: Transaction, isVariable: bool, stat: AmountStat)

  const EMPTY_RECORD := MerchantRecord([], [], [])

  /** Lines 76-78: one more occurrence in the transaction's month, its |amount| and its date. */
  function Push(rec: MerchantRecord, t: Transaction): MerchantRecord {
    MerchantRecord(Add(rec.monthlyCounts, t.date.yearMonth, 1),
                   rec.allAmounts + [Spend(t)], rec.dates + [t.date])
  }

  /** The grouping of lines 60-79 after the transactions `txs`. */
  function GroupOf(txs: seq<Transaction>): (g: map<string, MerchantRecord>)
    ensures forall k :: k in g ==> |g[k].allAmounts| > 0
    decreases |txs|
  {
    if |txs| == 0 then map[]
    else
      var g, t := GroupOf(txs[..|txs| - 1]), txs[|txs| - 1];
      if t.amount >= 0 then g
      else
        var key := Trim(t.merchant);
        g[key := Push(if key in g then g[key] else EMPTY_RECORD, t)]
  }

  /** The `forEach` of lines 60-79 over a map updated in place. */
  method GroupByMerchant(txs: seq<Transaction>) returns (stats: map<string, MerchantRecord>)
    ensures stats == GroupOf(txs)
  {
    stats := map[];
    for i := 0 to |txs|
      invariant stats == GroupOf(txs[..i])
    {
      var tx := txs[i];
      assert txs[..i + 1][..i] == txs[..i];
      if tx.amount >= 0 {
        continue;
      }
      var key := Trim(tx.merchant);
      if key !in stats {
        stats := stats[key := EMPTY_RECORD];
      }
      var rec := stats[key];
      stats := stats[key := MerchantRecord(Add(rec.monthlyCounts, tx.date.yearMonth, 1),
                                           rec.allAmounts + [Spend(tx)], rec.dates + [tx.date])];
    }
    assert txs[..|txs|] == txs;
  }

  /** How many of the transactions fall in month `ym`. */
  function MonthCount(s: seq<Transaction>, ym: YearMonth): nat {
    |Filter(s, (t: Transaction) => t.date.yearMonth == ym)|
  }

  /** The record built by pushing the transactions `occ` in order onto an empty one. */
  function Collect(occ: seq<Transaction>): MerchantRecord
    decreases |occ|
  {
    if |occ| == 0 then EMPTY_RECORD else Push(Collect(occ[..|occ| - 1]), occ[|occ| - 1])
  }

  /** The grouping holds a record for `k` exactly when `k` has an expense, built from those expenses alone. */
  lemma {:induction false} GroupOfCollects(txs: seq<Transaction>, k: string)
    ensures var g, occ := GroupOf(txs), Occurrences(txs, k);
      && (k in g <==> |occ| > 0)
      && (k in g ==> g[k] == Collect(occ))
    decreases |txs|
  {
    if |txs| > 0 {
      var init, t := txs[..|txs| - 1], txs[|txs| - 1];
      GroupOfCollects(init, k);
      var occ0 := Occurrences(init, k);
      var occ := Occurrences(txs, k);
      if IsExpense(t) && Trim(t.merchant) == k {
        assert occ == occ0 + [t];
        assert occ[..|occ| - 1] == occ0;
      } else {
        assert occ == occ0;
      }
    }
  }

  /** The amounts and dates of a collected record are those of its transactions, in order. */
  lemma {:induction false} CollectLists(occ: seq<Transaction>)
    ensures Collect(occ).allAmounts == MapSeq(occ, Spend)
    ensures Collect(occ).dates == MapSeq(occ, DateOf)
    decreases |occ|
  {
    if |occ| > 0 {
      CollectLists(occ[..|occ| - 1]);
    }
  }

  /**
   * The month table of a collected record has one entry per distinct month
   * of its transactions, and its counts add up to the number of transactions.
   */
  lemma {:induction false} CollectMonths(occ: seq<Transaction>)
    ensures var m := Collect(occ).monthlyCounts;
      UniqueBy(m, KeyOf) && Keys(m) == MonthsOf(occ) && Total(m) == |occ|
    decreases |occ|
  {
    if |occ| > 0 {
      var init, t := occ[..|occ| - 1], occ[|occ| - 1];
      CollectMonths(init);
      var m0 := Collect(init).monthlyCounts;
      var m := Add(m0, t.date.yearMonth, 1);
      AddUnique(m0, t.date.yearMonth, 1);
      AddTotal(m0, t.date.yearMonth, 1);
      forall y ensures y in Keys(m) <==> y in MonthsOf(occ) {
        KeysHas(m, y);
        AddHas(m0, t.date.yearMonth, 1, y);
        KeysHas(m0, y);
        MonthsOfSnoc(occ, y);
      }
    }
  }

  lemma MonthsOfSnoc(occ: seq<Transaction>, y: YearMonth)
    requires |occ| > 0
    ensures y in MonthsOf(occ) <==> y in MonthsOf(occ[..|occ| - 1]) || y == occ[|occ| - 1].date.yearMonth
  {
    var init := occ[..|occ| - 1];
    if y in MonthsOf(occ) {
      var i :| 0 <= i < |occ| && occ[i].date.yearMonth == y;
      if i < |init| { assert init[i] == occ[i]; }
    }
    if y in MonthsOf(init) {
      var i :| 0 <= i < |init| && init[i].date.yearMonth == y;
      assert occ[i] == init[i];
    }
  }

  /** Each month's count in a collected record is the number of its transactions in that month. */
  lemma {:induction false} CollectMonthCount(occ: seq<Transaction>, ym: YearMonth)
    ensures Get(Collect(occ).monthlyCounts, ym) == MonthCount(occ, ym)
    decreases |occ|
  {
    if |occ| > 0 {
      var init, t := occ[..|occ| - 1], occ[|occ| - 1];
      CollectMonthCount(init, ym);
      AddGet(Collect(init).monthlyCounts, t.date.yearMonth, 1, ym);
    }
  }

  /**
   * What the grouping holds for merchant `k`: a record exactly when `k` has
   * an expense; its amounts and dates are those of `k`'s expenses in order,
   * its month table has one entry per distinct month with that month's
   * count, so the counts sum to the number of amounts and of dates.
   */
  lemma GroupOfAt(txs: seq<Transaction>, k: string, ym: YearMonth)
    ensures var g, occ := GroupOf(txs), Occurrences(txs, k);
      && (k in g <==> |occ| > 0)
      && (k in g ==>
            && g[k].allAmounts == MapSeq(occ, Spend)
            && g[k].dates == MapSeq(occ, DateOf)
            && UniqueBy(g[k].monthlyCounts, KeyOf)
            && Keys(g[k].monthlyCounts) == MonthsOf(occ)
            && Get(g[k].monthlyCounts, ym) == MonthCount(occ, ym)
            && Total(g[k].monthlyCounts) == |occ|)
  {
    var occ := Occurrences(txs, k);
    GroupOfCollects(txs, k);
    CollectLists(occ);
    CollectMonths(occ);
    CollectMonthCount(occ, ym);
  }

  /** Lines 87-94: at least two distinct months and on average at most three occurrences a month. */
  predicate IsRecurring(rec: MerchantRecord) {
    var months := |rec.monthlyCounts|;
    months >= 2 && Total(rec.monthlyCounts) <= FREQUENCY_THRESHOLD * months
  }

  /** A merchant is recurring exactly when its expenses span two months and average at most three a month. */
  lemma RecurringMeaning(txs: seq<Transaction>, k: string)
    requires k in GroupOf(txs)
    ensures var occ := Occurrences(txs, k);
      IsRecurring(GroupOf(txs)[k]) <==> |MonthsOf(occ)| >= 2 && |occ| <= FREQUENCY_THRESHOLD * |MonthsOf(occ)|
  {
    var occ := Occurrences(txs, k);
    GroupOfCollects(txs, k);
    CollectMonths(occ);
    KeysCount(Collect(occ).monthlyCounts);
  }

  /** `new Set(allAmounts).size > 1`. */
  predicate HasDistinct(s: seq<int>) {
    exists i, j :: 0 <= i < |s| && 0 <= j < |s| && s[i] != s[j]
  }

  /** `isAfter(d, checkStartDate)`, strictly later. */
  predicate IsRecent(checkStart: Date, d: Date) { d.instant > checkStart.instant }

  /** Lines 97-111: min, max and mean of the amounts, or the single amount when they are all equal. */
  function StatOf(rec: MerchantRecord, checkStart: Date): AmountStat
    requires |rec.allAmounts| > 0
  {
    var a := rec.allAmounts;
    var recent := |Filter(rec.dates, (d: Date) => IsRecent(checkStart, d))|;
    if HasDistinct(a) then AmountStat(MinOf(a), MaxOf(a), Mean(a), recent)
    else AmountStat(a[0], a[0], a[0] as real, recent)
  }

  /**
   * Either branch of lines 103-111 gives the least amount, the greatest and
   * the mean, so min <= avg <= max; min and max differ exactly when the
   * amounts do; the recent count never exceeds the number of dates.
   */
  lemma StatMeaning(rec: MerchantRecord, checkStart: Date)
    requires |rec.allAmounts| > 0
    ensures var s, a := StatOf(rec, checkStart), rec.allAmounts;
      && s.min == MinOf(a) && s.max == MaxOf(a) && s.avg == Mean(a)
      && s.min as real <= s.avg <= s.max as real
      && (s.min != s.max <==> HasDistinct(a))
      && s.recentCount <= |rec.dates|
  {
    var a := rec.allAmounts;
    MeanBounds(a);
    if !HasDistinct(a) {
      assert forall i :: 0 <= i < |a| ==> a[i] == a[0];
      SumOfBounds(a, Id, a[0], a[0]);
      assert MinOf(a) == a[0] && MaxOf(a) == a[0];
    } else {
      var i, j :| 0 <= i < |a| && 0 <= j < |a| && a[i] != a[j];
      assert MinOf(a) <= a[i] <= MaxOf(a) && MinOf(a) <= a[j] <= MaxOf(a);
    }
  }

  function RecurringOf(stats: map<string, MerchantRecord>): set<string> {
    set k | k in stats && IsRecurring(stats[k])
  }

  function VariableStatsOf(stats: map<string, MerchantRecord>, checkStart: Date): map<string, AmountStat>
    requires forall k :: k in stats ==> |stats[k].allAmounts| > 0
  {
    map k | k in RecurringOf(stats) :: StatOf(stats[k], checkStart)
  }

  /** The `forEach` of lines 86-113, filling `recurringMerchants` and `variableStats`. */
  method SelectRecurring(stats: map<string, MerchantRecord>, checkStart: Date)
    returns (recurring: set<string>, variableStats: map<string, AmountStat>)
    requires forall k :: k in stats ==> |stats[k].allAmounts| > 0
    ensures recurring == RecurringOf(stats)
    ensures variableStats == VariableStatsOf(stats, checkStart)
  {
    recurring, variableStats := {}, map[];
    var todo := stats.Keys;
    while todo != {}
      invariant todo <= stats.Keys
      invariant recurring == set k | k in stats && k !in todo && IsRecurring(stats[k])
      invariant variableStats == map k | k in recurring :: StatOf(stats[k], checkStart)
      decreases todo
    {
      var k :| k in todo;
      if IsRecurring(stats[k]) {
        recurring := recurring + {k};
        variableStats := variableStats[k := StatOf(stats[k], checkStart)];
      }
      todo := todo - {k};
    }
  }

  /** Lines 124-135: each selected transaction with its merchant's statistics. */
  function Rows(s: seq<Transaction>, vs: map<string, AmountStat>): (r: seq<FixedRow>)
    requires forall i :: 0 <= i < |s| ==> Trim(s[i].merchant) in vs
    ensures |r| == |s|
    ensures forall i :: 0 <= i < |s| ==> r[i].tx == s[i]
    ensures forall i :: 0 <= i < |s| ==> r[i].stat == vs[Trim(s[i].merchant)]
    ensures forall i :: 0 <= i < |s| ==> (r[i].isVariable <==> r[i].stat.min != r[i].stat.max)
    decreases |s|
  {
    if |s| == 0 then []
    else
      var t := s[|s| - 1];
      assert forall i :: 0 <= i < |s| - 1 ==> s[..|s| - 1][i] == s[i];
      var stat := vs[Trim(t.merchant)];
      Rows(s[..|s| - 1], vs) + [FixedRow(t, stat.min != stat.max, stat)]
  }

  function RowTime(r: FixedRow): real { r.tx.date.instant as real }

  function RowSpend(r: FixedRow): int { Spend(r.tx) }

  /** Lines 116-136: the period's expenses at recurring merchants, earliest first. */
  function FixedInPeriod(txs: seq<Transaction>, p: Period, recurring: set<string>,
                         vs: map<string, AmountStat>): seq<FixedRow>
    requires recurring <= vs.Keys
  {
    var sel := Filter(PeriodExpenses(txs, p), (t: Transaction) => Trim(t.merchant) in recurring);
    SortBy(Rows(sel, vs), RowTime)
  }

  /** The listed expenses come in order of date. */
  lemma FixedInPeriodSorted(txs: seq<Transaction>, p: Period, recurring: set<string>,
                            vs: map<string, AmountStat>)
    requires recurring <= vs.Keys
    ensures SortedBy(FixedInPeriod(txs, p, recurring, vs), RowTime)
  {
    var sel := Filter(PeriodExpenses(txs, p), (t: Transaction) => Trim(t.merchant) in recurring);
    SortBySorted(Rows(sel, vs), RowTime);
  }

  /** Every listed row is a period expense at a recurring merchant, shown with that merchant's statistics. */
  lemma FixedInPeriodSound(txs: seq<Transaction>, p: Period, recurring: set<string>,
                           vs: map<string, AmountStat>)
    requires recurring <= vs.Keys
    ensures forall r :: r in FixedInPeriod(txs, p, recurring, vs) ==>
      && IsPeriodExpense(r.tx, p) && Trim(r.tx.merchant) in recurring
      && r.stat == vs[Trim(r.tx.merchant)]
  {
    var pe := PeriodExpenses(txs, p);
    var sel := Filter(pe, (t: Transaction) => Trim(t.merchant) in recurring);
    PeriodExpensesMembers(txs, p);
    FilterMembers(pe, (t: Transaction) => Trim(t.merchant) in recurring);
    forall i | 0 <= i < |sel| ensures IsPeriodExpense(sel[i], p) && Trim(sel[i].merchant) in recurring {
      assert sel[i] in sel;
    }
    var rows := Rows(sel, vs);
    SortByMembers(rows, RowTime);
    forall r | r in rows ensures IsPeriodExpense(r.tx, p) && Trim(r.tx.merchant) in recurring {
      var i :| 0 <= i < |rows| && rows[i] == r;
    }
  }

  /** Every period expense at a recurring merchant is listed. */
  lemma FixedInPeriodComplete(txs: seq<Transaction>, p: Period, recurring: set<string>,
                              vs: map<string, AmountStat>, t: Transaction)
    requires recurring <= vs.Keys
    requires t in txs && IsPeriodExpense(t, p) && Trim(t.merchant) in recurring
    ensures exists r :: r in FixedInPeriod(txs, p, recurring, vs) && r.tx == t
  {
    var pe := PeriodExpenses(txs, p);
    var sel := Filter(pe, (t: Transaction) => Trim(t.merchant) in recurring);
    var rows := Rows(sel, vs);
    SortByMembers(rows, RowTime);
    PeriodExpensesMembers(txs, p);
    FilterMembers(pe, (t: Transaction) => Trim(t.merchant) in recurring);
    assert t in pe;
    var j :| 0 <= j < |pe| && pe[j] == t;
    assert t in sel;
    var k :| 0 <= k < |sel| && sel[k] == t;
    assert rows[k] in rows && rows[k].tx == t;
  }

  /** The fixed total is part of the period total: 0 <= fixedTotal <= totalPeriodSpending. */
  lemma FixedTotalBounds(txs: seq<Transaction>, p: Period, recurring: set<string>,
                         vs: map<string, AmountStat>)
    requires recurring <= vs.Keys
    ensures 0 <= SumOf(FixedInPeriod(txs, p, recurring, vs), RowSpend) <= ExpenseTotal(txs, p)
  {
    var pe := PeriodExpenses(txs, p);
    var keep := (t: Transaction) => Trim(t.merchant) in recurring;
    var sel := Filter(pe, keep);
    var rows := Rows(sel, vs);
    SumOfSortBy(rows, RowTime, RowSpend);
    RowsSpend(sel, vs);
    SumOfFilterLe(pe, keep, Spend);
    SumOfNonneg(sel, Spend);
  }

  lemma {:induction false} RowsSpend(s: seq<Transaction>, vs: map<string, AmountStat>)
    requires forall i :: 0 <= i < |s| ==> Trim(s[i].merchant) in vs
    ensures SumOf(Rows(s, vs), RowSpend) == SumOf(s, Spend)
    decreases |s|
  {
    if |s| > 0 {
      var init := s[..|s| - 1];
      RowsSpend(init, vs);
      var r := Rows(s, vs);
      assert r[..|r| - 1] == Rows(init, vs);
    }
  }

  /** Line 146: the fixed share of the period's spending, 0 when nothing was spent. */
  function FixedRatio(fixedTotal: int, total: int): (r: real)
    requires 0 <= fixedTotal <= total
    ensures total == 0 ==> r == 0.0
    ensures 0.0 <= r <= 100.0
    ensures total > 0 ==> r * (total as real) == (fixedTotal as real) * 100.0
  {
    if total > 0 then Ratio(fixedTotal, total) else 0.0
  }

  /** The memo of lines 48-142: rows, period total and fixed total; nothing before the data loads. */
  method FixedExpensesView(cal: Calendar, now: Date, txs: Option<seq<Transaction>>, p: Period)
    returns (fixedInPeriod: seq<FixedRow>, totalPeriodSpending: int, fixedTotal: int)
    ensures txs.None? ==> fixedInPeriod == [] && totalPeriodSpending == 0 && fixedTotal == 0
    ensures txs.Some? ==>
      var g := GroupOf(txs.value);
      var checkStart := cal.subMonths(now, RECENT_MONTHS_CHECK);
      && fixedInPeriod == FixedInPeriod(txs.value, p, RecurringOf(g), VariableStatsOf(g, checkStart))
      && totalPeriodSpending == ExpenseTotal(txs.value, p)
      && fixedTotal == SumOf(fixedInPeriod, RowSpend)
      && 0 <= fixedTotal <= totalPeriodSpending
  {
    if txs.None? {
      return [], 0, 0;
    }
    var all := txs.value;
    var checkStart := cal.subMonths(now, RECENT_MONTHS_CHECK);
    var stats := GroupByMerchant(all);
    var recurring, variableStats := SelectRecurring(stats, checkStart);
    fixedInPeriod := FixedInPeriod(all, p, recurring, variableStats);
    totalPeriodSpending := ExpenseTotal(all, p);
    fixedTotal := SumOf(fixedInPeriod, RowSpend);
    FixedTotalBounds(all, p, recurring, variableStats);
  }
}
