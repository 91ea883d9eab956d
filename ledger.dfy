/**
 * The records every analytic component reads: transactions and billing
 * periods, with the expense and period tests they all share.
 */
module Ledger {
  import opened Wrappers
  import opened Seqs

  type Weekday = d: int | 0 <= d < 7
  type Hour = h: int | 0 <= h < 24
  type DayOfMonth = d: int | 1 <= d <= 31 witness 1

  /** A calendar month, the `format(date, "yyyy-MM")` key. */
  datatype YearMonth = YearMonth(year: int, month: int)

  /**
   * A point in time together with its local-calendar reading. `instant` is
   * `getTime()` (milliseconds); the other fields are what `format(…, "yyyy-MM")`,
   * `getDate()`, `getDay()` (0 = Sunday) and `getHours()` return for it.
   */
  datatype Date = Date(instant: int, yearMonth: YearMonth, day: DayOfMonth, weekday: Weekday, hour: Hour)

  /** A card transaction; a negative amount is an expense, a positive one income. */
  datatype Transaction = Transaction(
    id: string,
    date: Date,
    merchant: string,
    amount: int,
    cardId: string,
    description: Option<string>)

  /** A performance tier of a card: spend `amount` in a period to earn `benefit`. */
  datatype Tier = Tier(amount: int, benefit: string)

  /** A card with its spending limit, billing day and performance tiers. */
  datatype Card = Card(id: string, name: string, limit: int, dueDay: int, performance: seq<Tier>)

  /** The user's settings: the billing period's start day, the spending goal and the income. */
  datatype Setting = Setting(startDayOfMonth: int, goalSpending: int, income: int)

  /** A billing period, the half-open interval [startDate, endDate). */
  datatype Period = Period(startDate: Date, endDate: Date)

  predicate IsExpense(t: Transaction) { t.amount < 0 }

  predicate InPeriod(d: Date, p: Period) {
    p.startDate.instant <= d.instant < p.endDate.instant
  }

  /** The filter every period view applies: `amount < 0 && start <= date < end`. */
  predicate IsPeriodExpense(t: Transaction, p: Period) {
    IsExpense(t) && InPeriod(t.date, p)
  }

  function Abs(x: int): nat { if x < 0 then -x else x }

  /** `Math.abs(tx.amount)`. */
  function Spend(t: Transaction): int { Abs(t.amount) }

  function PeriodExpenses(txs: seq<Transaction>, p: Period): seq<Transaction> {
    Filter(txs, t => IsPeriodExpense(t, p))
  }

  /** The sum of |amount| over the expenses of the period. */
  function ExpenseTotal(txs: seq<Transaction>, p: Period): int {
    SumOf(PeriodExpenses(txs, p), Spend)
  }

  /** The period's expenses are exactly the transactions that are expenses of the period. */
  lemma PeriodExpensesMembers(txs: seq<Transaction>, p: Period)
    ensures forall t :: t in PeriodExpenses(txs, p) <==> t in txs && IsPeriodExpense(t, p)
  {
    FilterMembers(txs, t => IsPeriodExpense(t, p));
  }

  /** One more transaction joins the period's expenses exactly when it is one. */
  lemma PeriodExpensesSnoc(txs: seq<Transaction>, t: Transaction, p: Period)
    ensures PeriodExpenses(txs + [t], p) == PeriodExpenses(txs, p) + (if IsPeriodExpense(t, p) then [t] else [])
  {
    var s := txs + [t];
    assert s[..|s| - 1] == txs;
  }

  /** One more transaction adds its |amount| to the total exactly when it is a period expense. */
  lemma ExpenseTotalSnoc(txs: seq<Transaction>, t: Transaction, p: Period)
    ensures ExpenseTotal(txs + [t], p)
         == ExpenseTotal(txs, p) + (if IsPeriodExpense(t, p) then Spend(t) else 0)
  {
    var s := txs + [t];
    assert s[..|s| - 1] == txs;
    var pe := PeriodExpenses(txs, p);
    if IsPeriodExpense(t, p) {
      assert PeriodExpenses(s, p) == pe + [t];
      var q := pe + [t];
      assert q[..|q| - 1] == pe && q[|q| - 1] == t;
      assert SumOf(q, Spend) == SumOf(pe, Spend) + Spend(t);
    } else {
      assert PeriodExpenses(s, p) == pe;
    }
  }

  /** The characters `String.prototype.trim` removes (ECMAScript WhiteSpace and LineTerminator). */
  predicate IsTrimmable(c: char) {
    c == '\t' || c == '\n' || c == '\U{000B}' || c == '\U{000C}' || c == '\r' || c == ' '
    || c == '\U{00A0}' || c == '\U{1680}' || ('\U{2000}' <= c <= '\U{200A}')
    || c == '\U{2028}' || c == '\U{2029}' || c == '\U{202F}' || c == '\U{205F}'
    || c == '\U{3000}' || c == '\U{FEFF}'
  }

  function TrimStart(s: string): string {
    if s != [] && IsTrimmable(s[0]) then TrimStart(s[1..]) else s
  }

  function TrimEnd(s: string): string {
    if s != [] && IsTrimmable(s[|s| - 1]) then TrimEnd(s[..|s| - 1]) else s
  }

  /** `trimStart` removes a leading run of whitespace and nothing else. */
  lemma {:induction false} TrimStartSpec(s: string)
    ensures var r := TrimStart(s);
      && |r| <= |s| && r == s[|s| - |r|..]
      && (forall i :: 0 <= i < |s| - |r| ==> IsTrimmable(s[i]))
      && (r == [] || !IsTrimmable(r[0]))
  {
    if s != [] && IsTrimmable(s[0]) {
      var t := s[1..];
      TrimStartSpec(t);
      var r := TrimStart(t);
      assert t[|t| - |r|..] == s[|s| - |r|..];
      forall i | 1 <= i < |s| - |r| ensures IsTrimmable(s[i]) {
        assert s[i] == t[i - 1];
      }
    }
  }

  /** `trimEnd` removes a trailing run of whitespace and nothing else. */
  lemma {:induction false} TrimEndSpec(s: string)
    ensures var r := TrimEnd(s);
      && |r| <= |s| && r == s[..|r|]
      && (forall i :: |r| <= i < |s| ==> IsTrimmable(s[i]))
      && (r == [] || !IsTrimmable(r[|r| - 1]))
  {
    if s != [] && IsTrimmable(s[|s| - 1]) {
      TrimEndSpec(s[..|s| - 1]);
    }
  }

  /** `merchant.trim()`: the grouping key of the recurring-expense views. */
  function Trim(s: string): string {
    TrimEnd(TrimStart(s))
  }

  /** Reference: the expenses whose trimmed merchant is `k`, in order. */
  function Occurrences(txs: seq<Transaction>, k: string): seq<Transaction> {
    Filter(txs, (t: Transaction) => IsExpense(t) && Trim(t.merchant) == k)
  }

  function DateOf(t: Transaction): Date { t.date }

  /** The distinct `yyyy-MM` months among some transactions. */
  function MonthsOf(s: seq<Transaction>): set<YearMonth> {
    set i | 0 <= i < |s| :: s[i].date.yearMonth
  }

  /**
   * The date-fns calls the components make, as parameters: `setDate`
   * (a day past the month's end rolls into the next month), `addMonths`,
   * `subMonths`, `startOfDay` (local midnight of the same day),
   * `differenceInDays` and `differenceInMonths` (whole days and months,
   * truncated toward zero).
   */
  datatype Calendar = Calendar(
    setDate: (Date, int) -> Date,
    addMonths: (Date, int) -> Date,
    subMonths: (Date, int) -> Date,
    startOfDay: Date -> Date,
    differenceInDays: (Date, Date) -> int,
    differenceInMonths: (Date, Date) -> int)
}
