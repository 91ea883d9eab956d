/**
 * The top-merchants ranking (`rankingData` in components/TopMerchants.tsx):
 * the period's expenses are summed per merchant name, each sum is given
 * its share of the period total, and the five largest are shown.
 */
module TopMerchants {
  import opened Wrappers
  import opened Seqs
  import opened Ledger
  import opened Tally

  /** The name an expense without a merchant is counted under. */
  const UNKNOWN_MERCHANT := "알 수 없음"

  /** `tx.merchant || "알 수 없음"`; the raw merchant, not trimmed. */
  function NameOf(t: Transaction): string {
    if t.merchant == "" then UNKNOWN_MERCHANT else t.merchant
  }

  /** The `merchantMap` after its `forEach` has seen `s`, in the order names were first met. */
  function MerchantTotals(s: seq<Transaction>): seq<Entry<string>>
    decreases |s|
  {
    if |s| == 0 then []
    else
      var t := s[|s| - 1];
      Add(MerchantTotals(s[..|s| - 1]), NameOf(t), Spend(t))
  }

  /** Lines 43-47: the `forEach` that fills `merchantMap`. */
  method CollectTotals(filtered: seq<Transaction>) returns (merchantMap: seq<Entry<string>>)
    ensures merchantMap == MerchantTotals(filtered)
  {
    merchantMap := [];
    for i := 0 to |filtered|
      invariant merchantMap == MerchantTotals(filtered[..i])
    {
      var tx := filtered[i];
      assert filtered[..i + 1][..i] == filtered[..i];
      merchantMap := Add(merchantMap, NameOf(tx), Abs(tx.amount));
    }
    assert filtered[..|filtered|] == filtered;
  }

  /** Reference sum: the |amount| of the expenses in `s` counted under `name`. */
  function SpendUnder(s: seq<Transaction>, name: string): int
    decreases |s|
  {
    if |s| == 0 then 0
    else
      var t := s[|s| - 1];
      SpendUnder(s[..|s| - 1], name) + (if NameOf(t) == name then Spend(t) else 0)
  }

  /**
   * What the map holds: one entry per name met, each the sum of its
   * expenses' |amount|, positive when every transaction is an expense, and
   * all entries together summing to the total.
   */
  lemma {:induction false} MerchantTotalsMeaning(s: seq<Transaction>)
    ensures var m := MerchantTotals(s);
      && UniqueBy(m, KeyOf)
      && Total(m) == SumOf(s, Spend)
      && (forall k :: Get(m, k) == SpendUnder(s, k))
      && (forall k :: Has(m, k) <==> exists i :: 0 <= i < |s| && NameOf(s[i]) == k)
      && ((forall i :: 0 <= i < |s| ==> IsExpense(s[i])) ==> PositiveTotals(m))
    decreases |s|
  {
    if |s| > 0 {
      var init, t := s[..|s| - 1], s[|s| - 1];
      MerchantTotalsMeaning(init);
      var m := MerchantTotals(init);
      AddTotal(m, NameOf(t), Spend(t));
      AddUnique(m, NameOf(t), Spend(t));
      forall k ensures Get(Add(m, NameOf(t), Spend(t)), k) == SpendUnder(s, k) {
        AddGet(m, NameOf(t), Spend(t), k);
      }
      forall k ensures Has(Add(m, NameOf(t), Spend(t)), k) <==> exists i :: 0 <= i < |s| && NameOf(s[i]) == k {
        AddHas(m, NameOf(t), Spend(t), k);
        if exists i :: 0 <= i < |s| && NameOf(s[i]) == k {
          var i :| 0 <= i < |s| && NameOf(s[i]) == k;
          if i < |init| {
            assert NameOf(init[i]) == k;
          }
        }
        if exists i :: 0 <= i < |init| && NameOf(init[i]) == k {
          var i :| 0 <= i < |init| && NameOf(init[i]) == k;
          assert NameOf(s[i]) == k;
        }
      }
      if forall i :: 0 <= i < |s| ==> IsExpense(s[i]) {
        assert forall i :: 0 <= i < |init| ==> IsExpense(init[i]) by {
          forall i | 0 <= i < |init| ensures IsExpense(init[i]) {
            assert init[i] == s[i];
          }
        }
        assert IsExpense(t);
        AddPositive(m, NameOf(t), Spend(t));
      }
    }
  }

  datatype Ranked = Ranked(name: string, amount: int, percent: real)

  function RankedName(r: Ranked): string { r.name }
  function RankedAmount(r: Ranked): int { r.amount }
  function RankedPercent(r: Ranked): real { r.percent }

  /** `b.amount - a.amount`: larger sums first. */
  function AmountKey(r: Ranked): real { -(r.amount as real) }

  /** Line 54: the entry's share of the period total, 0 when nothing was spent. */
  function ShareOf(amount: int, total: int): (r: real)
    ensures total <= 0 ==> r == 0.0
    ensures total > 0 ==> r * (total as real) == (amount as real) * 100.0
  {
    if total > 0 then Ratio(amount, total) else 0.0
  }

  function ToRanked(e: Entry<string>, total: int): Ranked {
    Ranked(e.key, e.total, ShareOf(e.total, total))
  }

  /** The `map` step: each entry becomes a ranked row with its share of `total`. */
  function RankedOf(m: seq<Entry<string>>, total: int): seq<Ranked> {
    MapSeq(m, (e: Entry<string>) => ToRanked(e, total))
  }

  /** Every merchant of the period with its share, in `Object.entries` order. */
  function AllRanked(txs: seq<Transaction>, p: Period): seq<Ranked> {
    var filtered := PeriodExpenses(txs, p);
    RankedOf(MerchantTotals(filtered), SumOf(filtered, Spend))
  }

  /** Lines 30-60: empty while loading, else the five largest merchants. */
  function RankingData(txs: Option<seq<Transaction>>, p: Period): (r: seq<Ranked>)
    ensures txs.None? ==> r == []
    ensures txs.Some? ==> |r| == Min(5, |AllRanked(txs.value, p)|)
    ensures txs.Some? ==> forall x :: x in r ==> x in AllRanked(txs.value, p)
  {
    if txs.None? then []
    else
      var all := AllRanked(txs.value, p);
      TopBy(all, AmountKey, 5);
      Take(SortBy(all, AmountKey), 5)
  }

  lemma {:induction false} RankedOfShape(m: seq<Entry<string>>, total: int)
    ensures var r := RankedOf(m, total);
      && |r| == |m|
      && SumOf(r, RankedAmount) == Total(m)
      && (UniqueBy(m, KeyOf) ==> UniqueBy(r, RankedName))
      && forall i :: 0 <= i < |m| ==> r[i] == ToRanked(m[i], total)
  {
    var r := RankedOf(m, total);
    assert forall i :: 0 <= i < |m| ==> RankedName(r[i]) == KeyOf(m[i]);
    TotalIsSum(m, r, total);
  }

  /** Each ranked merchant carries its period spend and its share of the period total. */
  lemma AllRankedShape(txs: seq<Transaction>, p: Period)
    ensures var all := AllRanked(txs, p);
      var filtered := PeriodExpenses(txs, p);
      && UniqueBy(all, RankedName)
      && SumOf(all, RankedAmount) == ExpenseTotal(txs, p)
      && forall i :: 0 <= i < |all| ==>
        && all[i].amount == SpendUnder(filtered, all[i].name) > 0
  {
    var filtered := PeriodExpenses(txs, p);
    var total := SumOf(filtered, Spend);
    var m := MerchantTotals(filtered);
    assert forall i :: 0 <= i < |filtered| ==> IsExpense(filtered[i]);
    EntriesAreSpend(filtered);
    RankedOfShape(m, total);
  }

  /** For expenses only: names are unique, totals add up, and each entry is its name's positive spend. */
  lemma EntriesAreSpend(filtered: seq<Transaction>)
    requires forall i :: 0 <= i < |filtered| ==> IsExpense(filtered[i])
    ensures var m := MerchantTotals(filtered);
      && UniqueBy(m, KeyOf)
      && Total(m) == SumOf(filtered, Spend)
      && forall i :: 0 <= i < |m| ==> m[i].total == SpendUnder(filtered, m[i].key) > 0
  {
    var m := MerchantTotals(filtered);
    MerchantTotalsMeaning(filtered);
    forall i | 0 <= i < |m| ensures m[i].total == SpendUnder(filtered, m[i].key) > 0 {
      GetEntry(m, i);
    }
  }

  /** What the shares are computed from: positive amounts that sum to the period total. */
  lemma AllRankedFacts(txs: seq<Transaction>, p: Period)
    ensures var all, total := AllRanked(txs, p), ExpenseTotal(txs, p);
      && SumOf(all, RankedAmount) == total
      && (|all| > 0 ==> total > 0)
      && (forall i :: 0 <= i < |all| ==> all[i].amount > 0)
      && (forall i :: 0 <= i < |all| ==> all[i].percent == ShareOf(all[i].amount, total))
  {
    var filtered := PeriodExpenses(txs, p);
    var total := SumOf(filtered, Spend);
    var m := MerchantTotals(filtered);
    MerchantTotalsSum(filtered);
    RankedOfShape(m, total);
    TotalPositive(m);
  }

  /** The part of `MerchantTotalsMeaning` the shares need, for the period's expenses. */
  lemma MerchantTotalsSum(filtered: seq<Transaction>)
    requires forall i :: 0 <= i < |filtered| ==> IsExpense(filtered[i])
    ensures Total(MerchantTotals(filtered)) == SumOf(filtered, Spend)
    ensures PositiveTotals(MerchantTotals(filtered))
  {
    MerchantTotalsMeaning(filtered);
  }

  lemma {:induction false} TotalIsSum(m: seq<Entry<string>>, all: seq<Ranked>, total: int)
    requires |all| == |m| && forall i :: 0 <= i < |m| ==> all[i] == ToRanked(m[i], total)
    ensures SumOf(all, RankedAmount) == Total(m)
    decreases |m|
  {
    if |m| > 0 {
      var tail := all[1..];
      TotalIsSum(m[1..], tail, total);
      SumOfCons(all[0], tail, RankedAmount);
      assert all == [all[0]] + tail;
    }
  }

  lemma {:induction false} TotalPositive<K>(m: seq<Entry<K>>)
    requires PositiveTotals(m)
    ensures Total(m) >= 0
    ensures |m| > 0 ==> Total(m) > 0
  {
    if m != [] {
      TotalPositive(m[1..]);
    }
  }

  /**
   * The ranking: at most five merchants, each named once, by non-increasing
   * spend; each comes from the full list, and no merchant left out spent
   * more than one that is shown.
   */
  lemma RankingSpec(txs: seq<Transaction>, p: Period)
    ensures var all := AllRanked(txs, p);
      var rows := RankingData(Some(txs), p);
      && |rows| == Min(5, |all|)
      && UniqueBy(rows, RankedName)
      && (forall i, j :: 0 <= i < j < |rows| ==> rows[i].amount >= rows[j].amount)
      && (forall r :: r in rows ==> r in all)
      && (forall r, x :: r in rows && x in multiset(all) - multiset(rows) ==> x.amount <= r.amount)
  {
    AllRankedUnique(txs, p);
    TopFive(AllRanked(txs, p));
    TopFiveMembers(AllRanked(txs, p));
  }

  lemma AllRankedUnique(txs: seq<Transaction>, p: Period)
    ensures UniqueBy(AllRanked(txs, p), RankedName)
  {
    var filtered := PeriodExpenses(txs, p);
    MerchantTotalsMeaning(filtered);
    RankedOfShape(MerchantTotals(filtered), SumOf(filtered, Spend));
  }

  lemma TopFive(all: seq<Ranked>)
    requires UniqueBy(all, RankedName)
    ensures var rows := Take(SortBy(all, AmountKey), 5);
      && |rows| == Min(5, |all|)
      && UniqueBy(rows, RankedName)
      && (forall i, j :: 0 <= i < j < |rows| ==> rows[i].amount >= rows[j].amount)
      && (forall r, x :: r in rows && x in multiset(all) - multiset(rows) ==> x.amount <= r.amount)
  {
    TopFiveUnique(all);
    TopFiveOrder(all);
    TopFiveDominates(all);
  }

  lemma TopFiveUnique(all: seq<Ranked>)
    requires UniqueBy(all, RankedName)
    ensures UniqueBy(Take(SortBy(all, AmountKey), 5), RankedName)
  {
    var sorted := SortBy(all, AmountKey);
    SortByUnique(all, AmountKey, RankedName);
    assert Take(sorted, 5) == sorted[..|Take(sorted, 5)|];
  }

  lemma TopFiveOrder(all: seq<Ranked>)
    ensures var rows := Take(SortBy(all, AmountKey), 5);
      forall i, j :: 0 <= i < j < |rows| ==> rows[i].amount >= rows[j].amount
  {
    var sorted := SortBy(all, AmountKey);
    var rows := Take(sorted, 5);
    SortBySorted(all, AmountKey);
    assert rows == sorted[..|rows|];
    forall i, j | 0 <= i < j < |rows| ensures rows[i].amount >= rows[j].amount {
      assert AmountKey(sorted[i]) <= AmountKey(sorted[j]);
    }
  }

  lemma TopFiveDominates(all: seq<Ranked>)
    ensures var rows := Take(SortBy(all, AmountKey), 5);
      forall r, x :: r in rows && x in multiset(all) - multiset(rows) ==> x.amount <= r.amount
  {
    var sorted := SortBy(all, AmountKey);
    var rows := Take(sorted, 5);
    SortBySorted(all, AmountKey);
    TakeSortedDominates(sorted, AmountKey, 5);
    forall r: Ranked, x: Ranked | r in rows && x in multiset(all) - multiset(rows) ensures x.amount <= r.amount {
      assert AmountKey(r) <= AmountKey(x);
    }
  }

  lemma TopFiveMembers(all: seq<Ranked>)
    ensures forall r :: r in Take(SortBy(all, AmountKey), 5) ==> r in all
  {
    var sorted := SortBy(all, AmountKey);
    SortByMembers(all, AmountKey);
    assert Take(sorted, 5) == sorted[..|Take(sorted, 5)|];
  }

  /** `reduce((acc, cur) => acc + cur.percent, 0)`. */
  function PercentTotal(s: seq<Ranked>): real
    decreases |s|
  {
    if |s| == 0 then 0.0 else PercentTotal(s[..|s| - 1]) + s[|s| - 1].percent
  }

  /** Line 115: the shares of the merchants shown add up to at most 100%. */
  lemma RankingPercentTotal(txs: seq<Transaction>, p: Period)
    ensures PercentTotal(RankingData(Some(txs), p)) <= 100.0
  {
    AllRankedFacts(txs, p);
    ShareBound(AllRanked(txs, p), ExpenseTotal(txs, p));
  }

  lemma ShareBound(all: seq<Ranked>, total: int)
    requires SumOf(all, RankedAmount) == total
    requires forall i :: 0 <= i < |all| ==> all[i].amount > 0
    requires forall i :: 0 <= i < |all| ==> all[i].percent == ShareOf(all[i].amount, total)
    ensures PercentTotal(Take(SortBy(all, AmountKey), 5)) <= 100.0
  {
    var rows := Take(SortBy(all, AmountKey), 5);
    TopFiveSum(all);
    TopFiveMembers(all);
    forall i | 0 <= i < |rows| ensures rows[i].percent == ShareOf(rows[i].amount, total) {
      assert rows[i] in all;
    }
    PercentTotalShare(rows, total);
  }

  /** Shares of one total add up like the amounts they stand for. */
  lemma {:induction false} PercentTotalShare(s: seq<Ranked>, total: int)
    requires forall i :: 0 <= i < |s| ==> s[i].percent == ShareOf(s[i].amount, total)
    ensures PercentTotal(s) == ShareOf(SumOf(s, RankedAmount), total)
    decreases |s|
  {
    if |s| == 0 {
      ShareZero(total);
    } else {
      var init := s[..|s| - 1];
      PercentTotalShare(init, total);
      ShareAdd(SumOf(init, RankedAmount), s[|s| - 1].amount, total);
    }
  }

  lemma ShareZero(total: int)
    ensures ShareOf(0, total) == 0.0
  {
    if total > 0 {
      MulCancelReal(ShareOf(0, total), 0.0, total as real);
    }
  }

  lemma ShareAdd(a: int, b: int, total: int)
    ensures ShareOf(a, total) + ShareOf(b, total) == ShareOf(a + b, total)
  {
    if total > 0 {
      SumCancel(ShareOf(a, total), ShareOf(b, total), ShareOf(a + b, total), total as real,
                (a as real) * 100.0, (b as real) * 100.0);
    }
  }

  /** Two quotients by the same non-zero number add up to the quotient of their sum. */
  lemma SumCancel(x: real, y: real, z: real, t: real, p: real, q: real)
    requires t != 0.0 && x * t == p && y * t == q && z * t == p + q
    ensures x + y == z
  {
    assert (x + y) * t == x * t + y * t;
    MulCancelReal(x + y, z, t);
  }

  lemma MulCancelReal(x: real, y: real, c: real)
    requires c != 0.0 && x * c == y * c
    ensures x == y
  {
    assert (x - y) * c == 0.0;
  }

  /** The five shown spend no more than all merchants together, and something when any is shown. */
  lemma TopFiveSum(all: seq<Ranked>)
    requires forall i :: 0 <= i < |all| ==> all[i].amount > 0
    ensures var rows := Take(SortBy(all, AmountKey), 5);
      && SumOf(rows, RankedAmount) <= SumOf(all, RankedAmount)
      && (|rows| > 0 ==> SumOf(rows, RankedAmount) > 0)
  {
    var sorted := SortBy(all, AmountKey);
    SortByMembers(all, AmountKey);
    forall i | 0 <= i < |sorted| ensures RankedAmount(sorted[i]) > 0 {
      assert sorted[i] in all;
    }
    TakeSum(sorted, 5, RankedAmount);
    SumOfSortBy(all, AmountKey, RankedAmount);
  }
}
