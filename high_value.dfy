/**
 * The large-expense list (components/HighValueTransactions.tsx): the
 * period's expenses of at least 50,000 won, largest first, at most five,
 * with a "High" badge from 300,000 won.
 */
module HighValue {
  import opened Wrappers
  import opened Seqs
  import opened Ledger

  /** An expense counts as large from this many won. */
  const HIGH_VALUE_MIN := 50_000

  /** The badge threshold. */
  const HIGH_BADGE_MIN := 300_000

  /** Lines 22-25: `amount <= -50000` and dated inside the period. */
  predicate Qualifies(t: Transaction, p: Period) {
    t.amount <= -HIGH_VALUE_MIN && InPeriod(t.date, p)
  }

  /** `a.amount - b.amount`: the most negative amount first. */
  function AmountOrder(t: Transaction): real { t.amount as real }

  function Qualifying(txs: seq<Transaction>, p: Period): seq<Transaction> {
    Filter(txs, (t: Transaction) => Qualifies(t, p))
  }

  /** Lines 21-28: `undefined` until the transactions have loaded. */
  function HighValueList(txs: Option<seq<Transaction>>, p: Period): (r: Option<seq<Transaction>>)
    ensures r.None? <==> txs.None?
    ensures txs.Some? ==> |r.value| == Min(5, |Qualifying(txs.value, p)|)
    ensures txs.Some? ==> forall t :: t in r.value ==> t in txs.value && Qualifies(t, p)
  {
    match txs
    case None => None
    case Some(s) =>
      var all := Qualifying(s, p);
      TopBy(all, AmountOrder, 5);
      FilterMembers(s, (t: Transaction) => Qualifies(t, p));
      Some(Take(SortBy(all, AmountOrder), 5))
  }

  /** Line 42: the badge. */
  predicate ShowsHighBadge(t: Transaction) {
    Spend(t) >= HIGH_BADGE_MIN
  }

  /**
   * The list: only expenses of the period of at least 50,000 won, at most
   * five of them, largest first, and none of those left out is larger than
   * one that is shown.
   */
  lemma HighValueSpec(txs: seq<Transaction>, p: Period)
    ensures var all := Qualifying(txs, p);
      var list := HighValueList(Some(txs), p).value;
      && |list| == Min(5, |all|)
      && (forall t :: t in list ==> t in txs && Qualifies(t, p) && IsPeriodExpense(t, p))
      && (forall i, j :: 0 <= i < j < |list| ==> list[i].amount <= list[j].amount)
      && (forall t, x :: t in list && x in multiset(all) - multiset(list) ==> t.amount <= x.amount)
  {
    HighValueMembers(txs, p);
    HighValueOrder(txs, p);
    HighValueDominates(txs, p);
  }

  lemma HighValueMembers(txs: seq<Transaction>, p: Period)
    ensures var list := HighValueList(Some(txs), p).value;
      forall t :: t in list ==> t in txs && Qualifies(t, p) && IsPeriodExpense(t, p)
  {
    var all := Qualifying(txs, p);
    var list := HighValueList(Some(txs), p).value;
    TopBy(all, AmountOrder, 5);
    FilterMembers(txs, (t: Transaction) => Qualifies(t, p));
    forall t | t in list ensures t in txs && Qualifies(t, p) {
      assert t in all;
    }
  }

  lemma HighValueOrder(txs: seq<Transaction>, p: Period)
    ensures var list := HighValueList(Some(txs), p).value;
      forall i, j :: 0 <= i < j < |list| ==> list[i].amount <= list[j].amount
  {
    var list := HighValueList(Some(txs), p).value;
    TopBy(Qualifying(txs, p), AmountOrder, 5);
    forall i, j | 0 <= i < j < |list| ensures list[i].amount <= list[j].amount {
      assert AmountOrder(list[i]) <= AmountOrder(list[j]);
    }
  }

  lemma HighValueDominates(txs: seq<Transaction>, p: Period)
    ensures var all := Qualifying(txs, p);
      var list := HighValueList(Some(txs), p).value;
      forall t, x :: t in list && x in multiset(all) - multiset(list) ==> t.amount <= x.amount
  {
    var all := Qualifying(txs, p);
    var list := HighValueList(Some(txs), p).value;
    TopBy(all, AmountOrder, 5);
    forall t, x | t in list && x in multiset(all) - multiset(list) ensures t.amount <= x.amount {
      assert AmountOrder(t) <= AmountOrder(x);
    }
  }

  /** Every qualifying expense is listed when there are at most five. */
  lemma HighValueComplete(txs: seq<Transaction>, p: Period, t: Transaction)
    requires t in txs && Qualifies(t, p) && |Qualifying(txs, p)| <= 5
    ensures t in HighValueList(Some(txs), p).value
  {
    var all := Qualifying(txs, p);
    FilterMembers(txs, (t: Transaction) => Qualifies(t, p));
    assert t in all;
    SortByMembers(all, AmountOrder);
  }

  /** A listed expense gets the badge exactly when it is of 300,000 won or more. */
  lemma HighBadge(txs: seq<Transaction>, p: Period, t: Transaction)
    requires t in HighValueList(Some(txs), p).value
    ensures ShowsHighBadge(t) <==> t.amount <= -HIGH_BADGE_MIN
  {
    HighValueSpec(txs, p);
  }
}
