/**
 * Spending by day of the week (components/WeeklyDayPattern.tsx): seven
 * buckets, Sunday first, each holding the |amount| of the period's
 * expenses made on that weekday; the largest bucket is highlighted.
 */
module WeeklyPattern {
  import opened Wrappers
  import opened Seqs
  import opened Ledger

  /** Line 18: the weekday labels, index 0 being Sunday as in `getDay()`. */
  const DAYS: seq<string> := ["일", "월", "화", "수", "목", "금", "토"]

  datatype DayStat = DayStat(day: string, amount: int, index: int)

  function StatAmount(d: DayStat): int { d.amount }

  /** Reference sum: the |amount| of the expenses in `s` made on weekday `d`. */
  function DaySpend(s: seq<Transaction>, d: int): int
    decreases |s|
  {
    if |s| == 0 then 0
    else
      var t := s[|s| - 1];
      DaySpend(s[..|s| - 1], d) + (if t.date.weekday == d then Spend(t) else 0)
  }

  /** The seven buckets for the expenses `s`. */
  function Buckets(s: seq<Transaction>): seq<DayStat> {
    seq(7, i requires 0 <= i < 7 => DayStat(DAYS[i], DaySpend(s, i), i))
  }

  /** Lines 34-58: `chartData`, built in a seven-element array updated in place. */
  method ChartData(txs: Option<seq<Transaction>>, p: Period) returns (chartData: seq<DayStat>)
    ensures txs.None? ==> chartData == []
    ensures txs.Some? ==> chartData == Buckets(PeriodExpenses(txs.value, p))
  {
    if txs.None? {
      return [];
    }
    var dayStats := new DayStat[7](i requires 0 <= i < 7 => DayStat(DAYS[i], 0, i));
    var filteredTx := PeriodExpenses(txs.value, p);
    for k := 0 to |filteredTx|
      invariant forall i :: 0 <= i < 7 ==> dayStats[i] == DayStat(DAYS[i], DaySpend(filteredTx[..k], i), i)
    {
      var tx := filteredTx[k];
      var dayIndex := tx.date.weekday;
      forall i | 0 <= i < 7
        ensures DaySpend(filteredTx[..k + 1], i) == DaySpend(filteredTx[..k], i) + (if i == dayIndex then Spend(tx) else 0)
      {
        DaySpendStep(filteredTx, k, i);
      }
      dayStats[dayIndex] := dayStats[dayIndex].(amount := dayStats[dayIndex].amount + Abs(tx.amount));
    }
    assert filteredTx[..|filteredTx|] == filteredTx;
    chartData := dayStats[..];
  }

  /** One more expense adds its |amount| to its own weekday only. */
  lemma DaySpendStep(s: seq<Transaction>, k: nat, d: int)
    requires k < |s|
    ensures DaySpend(s[..k + 1], d) == DaySpend(s[..k], d) + (if s[k].date.weekday == d then Spend(s[k]) else 0)
  {
    assert s[..k + 1][..k] == s[..k];
  }

  /**
   * The buckets are labelled Sunday to Saturday, none is negative, and
   * together they hold the period's whole expense total.
   */
  lemma BucketsSpec(s: seq<Transaction>)
    ensures var b := Buckets(s);
      && |b| == 7
      && (forall i :: 0 <= i < 7 ==> b[i].day == DAYS[i] && b[i].index == i && b[i].amount >= 0)
      && SumOf(b, StatAmount) == SumOf(s, Spend)
  {
    var b := Buckets(s);
    WeekTotalIsSum(s);
    forall i | 0 <= i < 7 ensures b[i].amount >= 0 {
      DaySpendNonneg(s, i);
    }
    assert b[..0] == [];
    assert SumOf(b[..1], StatAmount) == b[0].amount;
    assert SumOf(b[..2], StatAmount) == SumOf(b[..1], StatAmount) + b[1].amount by { assert b[..2][..1] == b[..1]; }
    assert SumOf(b[..3], StatAmount) == SumOf(b[..2], StatAmount) + b[2].amount by { assert b[..3][..2] == b[..2]; }
    assert SumOf(b[..4], StatAmount) == SumOf(b[..3], StatAmount) + b[3].amount by { assert b[..4][..3] == b[..3]; }
    assert SumOf(b[..5], StatAmount) == SumOf(b[..4], StatAmount) + b[4].amount by { assert b[..5][..4] == b[..4]; }
    assert SumOf(b[..6], StatAmount) == SumOf(b[..5], StatAmount) + b[5].amount by { assert b[..6][..5] == b[..5]; }
    assert SumOf(b, StatAmount) == SumOf(b[..6], StatAmount) + b[6].amount;
  }

  /** Each expense lands in exactly one of the seven buckets. */
  lemma {:induction false} WeekTotalIsSum(s: seq<Transaction>)
    ensures DaySpend(s, 0) + DaySpend(s, 1) + DaySpend(s, 2) + DaySpend(s, 3)
          + DaySpend(s, 4) + DaySpend(s, 5) + DaySpend(s, 6) == SumOf(s, Spend)
    decreases |s|
  {
    if |s| > 0 {
      WeekTotalIsSum(s[..|s| - 1]);
    }
  }

  lemma {:induction false} DaySpendNonneg(s: seq<Transaction>, d: int)
    ensures DaySpend(s, d) >= 0
    decreases |s|
  {
    if |s| > 0 {
      DaySpendNonneg(s[..|s| - 1], d);
    }
  }

  /** A transaction that is not an expense of the period leaves every bucket as it was. */
  lemma IgnoredTransaction(txs: seq<Transaction>, t: Transaction, p: Period)
    requires !IsPeriodExpense(t, p)
    ensures Buckets(PeriodExpenses(txs + [t], p)) == Buckets(PeriodExpenses(txs, p))
  {
    PeriodExpensesSnoc(txs, t, p);
    assert PeriodExpenses(txs, p) + [] == PeriodExpenses(txs, p);
  }

  /** An expense of the period adds its |amount| to its weekday's bucket only. */
  lemma CountedTransaction(txs: seq<Transaction>, t: Transaction, p: Period)
    requires IsPeriodExpense(t, p)
    ensures var before, after := Buckets(PeriodExpenses(txs, p)), Buckets(PeriodExpenses(txs + [t], p));
      forall i :: 0 <= i < 7 ==>
        after[i].amount == before[i].amount + (if i == t.date.weekday then -t.amount else 0)
  {
    PeriodExpensesSnoc(txs, t, p);
    var pe := PeriodExpenses(txs + [t], p);
    assert pe[..|pe| - 1] == PeriodExpenses(txs, p);
    assert pe[|pe| - 1] == t;
  }

  /** Line 61: `Math.max(...amounts, 0)`. */
  function MaxAmount(c: seq<DayStat>): (r: int)
    ensures r >= 0
    ensures forall i :: 0 <= i < |c| ==> c[i].amount <= r
    ensures r == 0 || exists i :: 0 <= i < |c| && c[i].amount == r
    decreases |c|
  {
    if |c| == 0 then 0 else Max(MaxAmount(c[..|c| - 1]), c[|c| - 1].amount)
  }

  function IsMaxDay(maxAmount: int): DayStat -> bool {
    (d: DayStat) => d.amount == maxAmount
  }

  /** Line 118: `chartData.find(d => d.amount === maxAmount)?.day`. */
  function DominantDay(c: seq<DayStat>): Option<string> {
    match Find(c, IsMaxDay(MaxAmount(c)))
    case None => None
    case Some(k) => Some(c[k].day)
  }

  /**
   * The highlighted day is the first weekday with the largest spend, and
   * Sunday when nothing was spent.
   */
  lemma DominantDaySpec(s: seq<Transaction>)
    ensures var b := Buckets(s);
      exists k :: 0 <= k < 7
        && DominantDay(b) == Some(DAYS[k])
        && (forall i :: 0 <= i < 7 ==> b[i].amount <= b[k].amount)
        && (forall i :: 0 <= i < k ==> b[i].amount < b[k].amount)
        && (b[k].amount == 0 ==> k == 0)
  {
    var b := Buckets(s);
    BucketsSpec(s);
    var m := MaxAmount(b);
    if m == 0 {
      assert IsMaxDay(m)(b[0]);
    } else {
      var i :| 0 <= i < |b| && b[i].amount == m;
      assert IsMaxDay(m)(b[i]);
    }
    var k :| Find(b, IsMaxDay(m)) == Some(k);
    assert DominantDay(b) == Some(DAYS[k]);
  }
}
