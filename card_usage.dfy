/**
 * Per-card usage in a billing period: how much of the limit is used and
 * which performance tiers the spending has reached (`cardStats` in
 * components/CardUsageStatus.tsx).
 */
module CardUsage {
  import opened Wrappers
  import opened Seqs
  import opened Ledger

  /** One row of the card usage list. */
  datatype CardStat = CardStat(
    card: Card,
    usedAmount: int,
    limitPercent: real,
    remainingLimit: int,
    sortedTiers: seq<Tier>,
    achievedTiers: seq<Tier>,
    nextTier: Option<Tier>,
    maxPerformanceTarget: int,
    performancePercent: real)

  function TierKey(t: Tier): real { t.amount as real }

  /** The period's expenses charged to card `c`, each counted by |amount|. */
  function UsedAmount(txs: seq<Transaction>, p: Period, c: Card): (r: int)
    ensures r >= 0
  {
    var mine := Filter(PeriodExpenses(txs, p), (tx: Transaction) => tx.cardId == c.id);
    SumOfNonneg(mine, Spend);
    SumOf(mine, Spend)
  }

  /** A further transaction raises a card's usage by its |amount| exactly when it is a period expense on that card. */
  lemma UsedAmountSnoc(txs: seq<Transaction>, t: Transaction, p: Period, c: Card)
    ensures UsedAmount(txs + [t], p, c)
         == UsedAmount(txs, p, c) + (if IsPeriodExpense(t, p) && t.cardId == c.id then Spend(t) else 0)
  {
    var keep := (tx: Transaction) => IsPeriodExpense(tx, p);
    var mineOf := (tx: Transaction) => tx.cardId == c.id;
    FilterConcat(txs, [t], keep);
    assert Filter([t], keep) == if keep(t) then [t] else [] by {
      assert [t][..0] == [];
    }
    FilterConcat(PeriodExpenses(txs, p), Filter([t], keep), mineOf);
    var extra := Filter(Filter([t], keep), mineOf);
    assert extra == if keep(t) && mineOf(t) then [t] else [] by {
      if keep(t) { assert [t][..0] == []; }
    }
    SumOfConcat(Filter(PeriodExpenses(txs, p), mineOf), extra, Spend);
    if keep(t) && mineOf(t) {
      assert SumOf(extra, Spend) == Spend(t) by { assert extra[..0] == []; }
    }
  }

  /** `limitPercent`: the share of the limit used, 0 for a card without a limit. */
  function LimitPercent(used: int, limit: int): (r: real)
    ensures limit <= 0 ==> r == 0.0
    ensures limit > 0 ==> r * (limit as real) == (used as real) * 100.0
    ensures limit > 0 && used >= 0 ==> r >= 0.0
  {
    if limit > 0 then (used as real / limit as real) * 100.0 else 0.0
  }

  /** `performancePercent`: progress towards the top tier, capped at 100. */
  function PerformancePercent(used: int, target: int): (r: real)
    requires used >= 0
    ensures 0.0 <= r <= 100.0
    ensures target <= 0 ==> r == 0.0
    ensures target > 0 && used >= target ==> r == 100.0
    ensures target > 0 && used < target ==> r * (target as real) == (used as real) * 100.0
  {
    if target > 0 then
      var raw := Ratio(used, target);
      if raw <= 100.0 then raw else 100.0
    else 0.0
  }

  function SortedTiers(tiers: seq<Tier>): seq<Tier> { SortBy(tiers, TierKey) }

  /** `achievedTiers`: the sorted tiers whose amount the usage has reached. */
  function AchievedTiers(sorted: seq<Tier>, used: int): seq<Tier> {
    Filter(sorted, (t: Tier) => used >= t.amount)
  }

  /** `nextTier`: the first sorted tier the usage has not reached yet. */
  function NextTier(sorted: seq<Tier>, used: int): Option<Tier> {
    match Find(sorted, (t: Tier) => used < t.amount)
    case None => None
    case Some(k) => Some(sorted[k])
  }

  /** `maxPerformanceTarget`: the amount of the last sorted tier, 0 without tiers. */
  function TopTarget(sorted: seq<Tier>): int {
    if |sorted| > 0 then sorted[|sorted| - 1].amount else 0
  }

  /** The statistics of one card, lines 53-86. */
  function Stat(txs: seq<Transaction>, p: Period, c: Card): CardStat {
    var used := UsedAmount(txs, p, c);
    var sorted := SortedTiers(c.performance);
    var target := TopTarget(sorted);
    CardStat(c, used, LimitPercent(used, c.limit), c.limit - used, sorted,
             AchievedTiers(sorted, used), NextTier(sorted, used), target,
             PerformancePercent(used, target))
  }

  /** The next tier is the first one past the tiers the usage has reached. */
  lemma NextTierAt(sorted: seq<Tier>, used: int, n: nat)
    requires n <= |sorted|
    requires forall i :: 0 <= i < n ==> used >= sorted[i].amount
    requires forall i :: n <= i < |sorted| ==> used < sorted[i].amount
    ensures var next := NextTier(sorted, used);
      && (next.None? <==> n == |sorted|)
      && (next.Some? ==> next.value == sorted[n])
  {
    var above := (t: Tier) => used < t.amount;
    var f := Find(sorted, above);
    if n < |sorted| {
      assert above(sorted[n]);
    }
    if f.Some? {
      assert f.value == n;
    }
  }

  /**
   * The tiers at a given usage: the achieved ones are exactly those with
   * amount at most the usage and form a prefix of the ascending sorted list,
   * and the next tier is the one right after that prefix, absent exactly
   * when every tier is achieved and otherwise still above the usage.
   */
  lemma TierSplit(tiers: seq<Tier>, used: int)
    ensures var sorted := SortedTiers(tiers);
      var achieved := AchievedTiers(sorted, used);
      var next := NextTier(sorted, used);
      && SortedBy(sorted, TierKey)
      && achieved == sorted[..|achieved|]
      && (forall t :: t in achieved <==> t in tiers && t.amount <= used)
      && (next.None? <==> |achieved| == |sorted|)
      && (next.Some? ==> next.value == sorted[|achieved|] && next.value.amount - used > 0)
  {
    var sorted := SortedTiers(tiers);
    var keep := (t: Tier) => used >= t.amount;
    SortBySorted(tiers, TierKey);
    SortByMembers(tiers, TierKey);
    forall i, j | 0 <= i < j < |sorted| && keep(sorted[j]) ensures keep(sorted[i]) {
      assert TierKey(sorted[i]) <= TierKey(sorted[j]);
    }
    FilterPrefix(sorted, keep);
    var n := |AchievedTiers(sorted, used)|;
    NextTierAt(sorted, used, n);
  }

  /** With no tiers, or none above 0, the performance bar is empty. */
  lemma StatNoTarget(txs: seq<Transaction>, p: Period, c: Card)
    requires forall t :: t in c.performance ==> t.amount <= 0
    ensures Stat(txs, p, c).performancePercent == 0.0
  {
    var sorted := SortedTiers(c.performance);
    SortByMembers(c.performance, TierKey);
    if |sorted| > 0 {
      assert sorted[|sorted| - 1] in c.performance;
    }
  }

  /** `cards.map(...)`: the statistics of each card, in card order. */
  function Stats(txs: seq<Transaction>, p: Period, cards: seq<Card>): seq<CardStat> {
    MapSeq(cards, (c: Card) => Stat(txs, p, c))
  }

  function StatKey(s: CardStat): real { -s.limitPercent }

  /** `cardStats`: one row per card, highest share of limit first; nothing while data is loading. */
  function CardStats(cards: Option<seq<Card>>, txs: Option<seq<Transaction>>, p: Period): (r: seq<CardStat>)
    ensures cards.None? || txs.None? ==> r == []
    ensures cards.Some? && txs.Some? ==> |r| == |cards.value|
  {
    if cards.None? || txs.None? then [] else SortBy(Stats(txs.value, p, cards.value), StatKey)
  }

  /**
   * Every card has exactly one row, each row is the statistics of a card,
   * and rows come in non-increasing order of limit percentage.
   */
  lemma CardStatsSpec(cards: seq<Card>, txs: seq<Transaction>, p: Period)
    ensures var r := CardStats(Some(cards), Some(txs), p);
      && multiset(r) == multiset(Stats(txs, p, cards))
      && (forall i, j :: 0 <= i < j < |r| ==> r[i].limitPercent >= r[j].limitPercent)
  {
    var stats := Stats(txs, p, cards);
    var r := CardStats(Some(cards), Some(txs), p);
    assert r == SortBy(stats, StatKey);
    SortBySorted(stats, StatKey);
    forall i, j | 0 <= i < j < |r| ensures r[i].limitPercent >= r[j].limitPercent {
      assert StatKey(r[i]) <= StatKey(r[j]);
    }
  }

  /** A row belongs to the list exactly when it is the statistics of one of the cards. */
  lemma CardStatsMembers(cards: seq<Card>, txs: seq<Transaction>, p: Period)
    ensures var r := CardStats(Some(cards), Some(txs), p);
      forall s :: s in r <==> exists i :: 0 <= i < |cards| && s == Stat(txs, p, cards[i])
  {
    var stats := Stats(txs, p, cards);
    StatsAt(txs, p, cards);
    assert CardStats(Some(cards), Some(txs), p) == SortBy(stats, StatKey);
    SortByMembers(stats, StatKey);
  }

  /** `Stats` is the card-by-card statistics. */
  lemma StatsAt(txs: seq<Transaction>, p: Period, cards: seq<Card>)
    ensures |Stats(txs, p, cards)| == |cards|
    ensures forall i :: 0 <= i < |cards| ==> Stats(txs, p, cards)[i] == Stat(txs, p, cards[i])
  {
  }
}
