/**
 * Goal pacing (the `calculations` memo of components/GoalProgress.tsx):
 * what has been spent in the billing period against the spending goal,
 * how far into the period "now" is, and the budget figures derived from
 * both.
 */
module GoalProgress {
  import opened Wrappers
  import opened Seqs
  import opened Ledger

  /** Milliseconds in a day, `1000 * 60 * 60 * 24`. */
  const DAY_MS := 86_400_000

  datatype GoalMetrics = GoalMetrics(
    goal: int,
    totalDays: int,
    daysPassed: int,
    currentProgressPercent: real,
    expectedSpent: real,
    expectedProgressPercent: real,
    diff: real,
    isOverSpent: bool,
    isTotalOverSpent: bool,
    dailyBudget: real,
    remainingDailyBudget: real,
    actualDailyAverage: real,
    remainingBudget: int,
    projectedTotalSpending: real,
    projectedTotalPercent: real,
    spentThisPeriod: int)

  function Negated(t: Transaction): int { -t.amount }

  /** Lines 49-55: the sum of `-amount` over the period's expenses. */
  function SpentThisPeriod(txs: seq<Transaction>, p: Period): int {
    SumOf(PeriodExpenses(txs, p), Negated)
  }

  /** What was spent is the period's expense total, so it is never negative. */
  lemma {:induction false} SpentIsExpenseTotal(txs: seq<Transaction>, p: Period)
    ensures SpentThisPeriod(txs, p) == ExpenseTotal(txs, p) >= 0
    decreases |txs|
  {
    var pe := PeriodExpenses(txs, p);
    SameSum(pe);
    SumOfNonneg(pe, Spend);
  }

  lemma {:induction false} SameSum(s: seq<Transaction>)
    requires forall i :: 0 <= i < |s| ==> s[i].amount < 0
    ensures SumOf(s, Negated) == SumOf(s, Spend)
    decreases |s|
  {
    if |s| > 0 {
      SameSum(s[..|s| - 1]);
    }
  }

  /** `Math.round(ms / DAY_MS)`, that is floor(ms / DAY_MS + 1/2). */
  function RoundDays(ms: int): int {
    (2 * ms + DAY_MS) / (2 * DAY_MS)
  }

  /** Lines 58-59: the period's length in days, rounded. */
  function TotalDays(p: Period): int {
    RoundDays(p.endDate.instant - p.startDate.instant)
  }

  /** Lines 60-72: the whole length once the period is over, 0 before it starts, else the current day's number. */
  function DaysPassed(p: Period, now: Date): int {
    if now.instant >= p.endDate.instant then TotalDays(p)
    else if now.instant < p.startDate.instant then 0
    else (now.instant - p.startDate.instant) / DAY_MS + 1
  }

  /** An amount spread evenly over a number of days. */
  function PerDay(amount: real, days: int): (r: real)
    requires days != 0
    ensures r * (days as real) == amount
  {
    var q := amount / days as real;
    DivTimes(amount, days as real);
    q
  }

  /** `x / goal * 100`, or 0 when the goal is 0 (the source's guard against dividing by a zero goal). */
  function PercentOf(x: real, goal: int): (r: real)
    ensures goal == 0 ==> r == 0.0
    ensures goal != 0 ==> r * (goal as real) == x * 100.0
  {
    if goal == 0 then 0.0
    else
      var q := x / goal as real;
      DivTimesScaled(x, goal as real, 100.0);
      q * 100.0
  }

  /**
   * Lines 75-93, given the goal, what was spent and the two day counts.
   * `totalDays` is a divisor in the source, unguarded.
   */
  function Figures(goal: int, spent: int, totalDays: int, daysPassed: int): (m: GoalMetrics)
    requires totalDays != 0
    ensures m.goal == goal && m.spentThisPeriod == spent
    ensures m.totalDays == totalDays && m.daysPassed == daysPassed
    ensures m.expectedSpent * (totalDays as real) == (goal as real) * (daysPassed as real)
    ensures m.isOverSpent <==> spent as real > m.expectedSpent
    ensures m.isTotalOverSpent <==> spent > goal
  {
    SpreadScaled(goal as real, totalDays, daysPassed);
    var expected := PerDay(goal as real, totalDays) * daysPassed as real;
    var remainingDays := Max(1, totalDays - daysPassed);
    var actual := if daysPassed > 0 then PerDay(spent as real, daysPassed) else 0.0;
    var projected := actual * totalDays as real;
    GoalMetrics(
      goal, totalDays, daysPassed,
      PercentOf(spent as real, goal),
      expected,
      PercentOf(daysPassed as real, totalDays),
      spent as real - expected,
      spent as real - expected > 0.0,
      spent > goal,
      PerDay(goal as real, totalDays),
      PerDay((goal - spent) as real, remainingDays),
      actual,
      goal - spent,
      projected,
      PercentOf(projected, goal),
      spent)
  }

  /** Lines 58-93: the figures of the period's day counts at `now`. */
  function Metrics(goal: int, spent: int, p: Period, now: Date): GoalMetrics
    requires TotalDays(p) != 0
  {
    Figures(goal, spent, TotalDays(p), DaysPassed(p, now))
  }

  /** An amount spread over `days` and taken `k` times is, over those days, the amount `k` times. */
  lemma SpreadScaled(amount: real, days: int, k: int)
    requires days != 0
    ensures (PerDay(amount, days) * k as real) * days as real == amount * k as real
  {
    var q := PerDay(amount, days);
    assert (q * k as real) * days as real == (q * days as real) * k as real;
  }

  /** The memo: nothing until both the setting and the transactions have loaded. */
  function Calculations(setting: Option<Setting>, txs: Option<seq<Transaction>>, p: Period, now: Date): Option<GoalMetrics>
    requires setting.Some? && txs.Some? ==> TotalDays(p) != 0
  {
    if setting.None? || txs.None? then None
    else Some(Metrics(setting.value.goalSpending, SpentThisPeriod(txs.value, p), p, now))
  }

  /**
   * The memo is empty until both inputs have loaded; then it describes the
   * goal of the setting and the period's expense total.
   */
  lemma CalculationsSpec(setting: Option<Setting>, txs: Option<seq<Transaction>>, p: Period, now: Date)
    requires setting.Some? && txs.Some? ==> TotalDays(p) != 0
    ensures setting.None? || txs.None? <==> Calculations(setting, txs, p, now).None?
    ensures setting.Some? && txs.Some? ==>
      Calculations(setting, txs, p, now) == Some(Metrics(setting.value.goalSpending, ExpenseTotal(txs.value, p), p, now))
    ensures setting.Some? && txs.Some? ==>
      Calculations(setting, txs, p, now).value.spentThisPeriod >= 0
  {
    if setting.Some? && txs.Some? {
      SpentIsExpenseTotal(txs.value, p);
    }
  }

  /**
   * The guarded figures: both goal percentages are 0 for a zero goal, the
   * daily average is 0 while no day has passed, the two overspending
   * flags compare what was spent with the expected spend and with the goal,
   * and the remaining budget is spread over at least one remaining day.
   */
  lemma MetricsGuards(goal: int, spent: int, td: int, dp: int)
    requires td != 0
    ensures var m := Figures(goal, spent, td, dp);
      && (goal == 0 ==> m.currentProgressPercent == 0.0 && m.projectedTotalPercent == 0.0)
      && (dp <= 0 ==> m.actualDailyAverage == 0.0 && m.projectedTotalSpending == 0.0)
      && (m.isOverSpent <==> spent as real > m.expectedSpent)
      && (m.isTotalOverSpent <==> spent > goal)
      && m.remainingBudget == goal - spent
      && m.dailyBudget * (td as real) == goal as real
      && m.remainingDailyBudget * (Max(1, td - dp) as real) == m.remainingBudget as real
  {
    DailyBudgetSpread(goal, spent, td, dp);
    RemainingBudgetSpread(goal, spent, td, dp);
    MetricsFields(goal, spent, td, dp);
  }

  /** The daily budget spreads the goal evenly over the period. */
  lemma DailyBudgetSpread(goal: int, spent: int, td: int, dp: int)
    requires td != 0
    ensures Figures(goal, spent, td, dp).dailyBudget * (td as real) == goal as real
  {
    MetricsFields(goal, spent, td, dp);
  }

  /** The remaining daily budget spreads what is left over the remaining days, at least one. */
  lemma RemainingBudgetSpread(goal: int, spent: int, td: int, dp: int)
    requires td != 0
    ensures Figures(goal, spent, td, dp).remainingDailyBudget * (Max(1, td - dp) as real) == (goal - spent) as real
  {
    MetricsFields(goal, spent, td, dp);
  }

  /** Where the figures come from, without the arithmetic. */
  lemma MetricsFields(goal: int, spent: int, td: int, dp: int)
    requires td != 0
    ensures var m := Figures(goal, spent, td, dp);
      && m.remainingBudget == goal - spent
      && m.dailyBudget == PerDay(goal as real, td)
      && m.remainingDailyBudget == PerDay((goal - spent) as real, Max(1, td - dp))
      && m.expectedProgressPercent == PercentOf(dp as real, td)
      && m.expectedSpent == PerDay(goal as real, td) * dp as real
      && m.projectedTotalSpending == m.actualDailyAverage * td as real
      && m.actualDailyAverage == (if dp > 0 then PerDay(spent as real, dp) else 0.0)
  {
  }

  /** On the last day the pace reaches the goal and the projection is what was spent. */
  lemma MetricsAtEnd(goal: int, spent: int, p: Period, now: Date)
    requires TotalDays(p) > 0 && DaysPassed(p, now) == TotalDays(p)
    ensures Metrics(goal, spent, p, now).expectedSpent == goal as real
    ensures Metrics(goal, spent, p, now).projectedTotalSpending == spent as real
    ensures Metrics(goal, spent, p, now).expectedProgressPercent == 100.0
  {
    var td := TotalDays(p);
    MetricsFields(goal, spent, TotalDays(p), DaysPassed(p, now));
    PercentOfSelf(td);
    assert PerDay(goal as real, td) * (td as real) == goal as real;
    assert PerDay(spent as real, td) * (td as real) == spent as real;
  }

  lemma PercentOfSelf(n: int)
    requires n != 0
    ensures PercentOf(n as real, n) == 100.0
  {
    MulCancelReal(PercentOf(n as real, n), 100.0, n as real);
  }

  lemma MulCancelReal(a: real, b: real, c: real)
    requires c != 0.0 && a * c == b * c
    ensures a == b
  {
    assert (a - b) * c == 0.0;
  }

  lemma DivTimes(a: real, b: real)
    requires b != 0.0
    ensures (a / b) * b == a
  {
  }

  lemma DivTimesScaled(a: real, b: real, c: real)
    requires b != 0.0
    ensures ((a / b) * c) * b == a * c
  {
    DivTimes(a, b);
    assert ((a / b) * c) * b == ((a / b) * b) * c;
  }

  /**
   * For a period of whole days, the day count runs from 1 on the first day
   * to the period's length on the last, is that length once the period has
   * ended, never decreases as time moves on, so the expected share of the goal lies in [0, 100].
   */
  lemma DaysPassedWholeDays(p: Period, now: Date, later: Date, k: int)
    requires k >= 1 && p.endDate.instant - p.startDate.instant == k * DAY_MS
    requires now.instant <= later.instant
    ensures TotalDays(p) == k
    ensures 0 <= DaysPassed(p, now) <= k
    ensures InPeriod(now, p) ==> DaysPassed(p, now) >= 1
    ensures now.instant >= p.endDate.instant ==> DaysPassed(p, now) == k
    ensures DaysPassed(p, now) <= DaysPassed(p, later)
    ensures 0.0 <= Metrics(0, 0, p, now).expectedProgressPercent <= 100.0
  {
    WholeDays(k);
    if InPeriod(now, p) {
      var e := now.instant - p.startDate.instant;
      DivBelow(e, k);
    }
    if InPeriod(now, p) && InPeriod(later, p) {
      DivMonotone(now.instant - p.startDate.instant, later.instant - p.startDate.instant);
    }
    if InPeriod(later, p) {
      DivBelow(later.instant - p.startDate.instant, k);
    }
    var r := Ratio(DaysPassed(p, now), k);
    assert Metrics(0, 0, p, now).expectedProgressPercent == r;
  }

  lemma WholeDays(k: int)
    requires k >= 1
    ensures RoundDays(k * DAY_MS) == k
  {
    assert 2 * (k * DAY_MS) + DAY_MS == k * (2 * DAY_MS) + DAY_MS;
  }

  lemma DivBelow(e: int, k: int)
    requires k >= 1 && 0 <= e < k * DAY_MS
    ensures 0 <= e / DAY_MS < k
  {
  }

  lemma DivMonotone(a: int, b: int)
    requires 0 <= a <= b
    ensures a / DAY_MS <= b / DAY_MS
  {
  }
}
