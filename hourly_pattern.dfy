/**
 * Spending by time of day (components/HourlySpendingPattern.tsx): six
 * named time slots, each holding the |amount| of the period's expenses
 * whose hour falls in it, and the slot with the largest spend.
 */
module HourlyPattern {
  import opened Wrappers
  import opened Seqs
  import opened Ledger

  /** A time slot: its `label`, its `[start, end)` hours and its bar colour. */
  datatype TimeSlot = TimeSlot(name: string, start: int, end: int, color: string)

  const LATE_NIGHT := "심야"

  /** Lines 15-22. The late-night slot's table bounds 22-26 are not what decides it; see `SlotMatches`. */
  const TIME_SLOTS: seq<TimeSlot> := [
    TimeSlot("아침", 6, 11, "#fcd34d"),
    TimeSlot("점심", 11, 14, "#fbbf24"),
    TimeSlot("오후", 14, 18, "#f59e0b"),
    TimeSlot("저녁", 18, 22, "#f97316"),
    TimeSlot(LATE_NIGHT, 22, 26, "#6366f1"),
    TimeSlot("새벽", 2, 6, "#a855f7")]

  /** Lines 42-47: late night is 22 o'clock or later, or before 2; any other slot is [start, end). */
  predicate SlotMatches(slot: TimeSlot, hour: int) {
    if slot.name == LATE_NIGHT then hour >= 22 || hour < 2
    else slot.start <= hour < slot.end
  }

  function Matching(hour: int): TimeSlot -> bool {
    (slot: TimeSlot) => SlotMatches(slot, hour)
  }

  /** `slotMap.find(...)`, as an index into the slots. */
  function SlotOf(hour: int): Option<nat> {
    Find(TIME_SLOTS, Matching(hour))
  }

  /** Reference reading of the table: the slot of each hour, by its bounds. */
  function HourSlot(hour: Hour): (k: nat)
    ensures k < |TIME_SLOTS|
  {
    if hour >= 22 || hour < 2 then 4
    else if hour < 6 then 5
    else if hour < 11 then 0
    else if hour < 14 then 1
    else if hour < 18 then 2
    else 3
  }

  /**
   * The six slots partition the day: the search finds every hour's slot,
   * and no hour falls in two slots.
   */
  lemma SlotsPartition(hour: Hour)
    ensures SlotOf(hour) == Some(HourSlot(hour))
    ensures forall i, j :: 0 <= i < j < |TIME_SLOTS| ==> !(SlotMatches(TIME_SLOTS[i], hour) && SlotMatches(TIME_SLOTS[j], hour))
  {
    SlotFound(hour);
    forall i | 0 <= i < |TIME_SLOTS| && SlotMatches(TIME_SLOTS[i], hour) ensures i == HourSlot(hour) {
    }
  }

  /** The search stops at the slot the bounds give. */
  lemma SlotFound(hour: Hour)
    ensures SlotOf(hour) == Some(HourSlot(hour))
  {
    assert Matching(hour)(TIME_SLOTS[HourSlot(hour)]);
  }

  /** The late-night slot is the hours 22, 23, 0 and 1. */
  lemma LateNightHours(hour: Hour)
    ensures SlotOf(hour) == Some(4) <==> hour >= 22 || hour < 2
  {
    SlotsPartition(hour);
  }

  datatype SlotStat = SlotStat(slot: TimeSlot, amount: int)

  function StatAmount(s: SlotStat): int { s.amount }

  /** What one transaction adds to slot `k`. */
  function SlotShare(t: Transaction, p: Period, k: int): int {
    if IsPeriodExpense(t, p) && HourSlot(t.date.hour) == k then Spend(t) else 0
  }

  /** Reference sum: the |amount| of the expenses of `p` in `txs` whose hour falls in slot `k`. */
  function SlotSpend(txs: seq<Transaction>, p: Period, k: int): int
    decreases |txs|
  {
    if |txs| == 0 then 0
    else
      var t := txs[|txs| - 1];
      SlotSpend(txs[..|txs| - 1], p, k) + SlotShare(t, p, k)
  }

  function Slots(txs: seq<Transaction>, p: Period): seq<SlotStat> {
    seq(|TIME_SLOTS|, k requires 0 <= k < |TIME_SLOTS| => SlotStat(TIME_SLOTS[k], SlotSpend(txs, p, k)))
  }

  /** The `find` test on a slot record. */
  function RecordMatching(hour: int): SlotStat -> bool {
    (s: SlotStat) => SlotMatches(s.slot, hour)
  }

  /** Lines 29-54: `data`, with the slot amounts updated in place. */
  method SlotData(txs: Option<seq<Transaction>>, p: Period) returns (data: seq<SlotStat>)
    ensures txs.None? ==> data == []
    ensures txs.Some? ==> data == Slots(txs.value, p)
  {
    if txs.None? {
      return [];
    }
    var transactions := txs.value;
    var slotMap := new SlotStat[|TIME_SLOTS|](k requires 0 <= k < |TIME_SLOTS| => SlotStat(TIME_SLOTS[k], 0));
    for i := 0 to |transactions|
      invariant forall k :: 0 <= k < slotMap.Length ==>
        slotMap[k] == SlotStat(TIME_SLOTS[k], SlotSpend(transactions[..i], p, k))
    {
      var tx := transactions[i];
      SlotSpendSnoc(transactions[..i], tx, p);
      assert transactions[..i + 1] == transactions[..i] + [tx];
      if tx.amount >= 0 || tx.date.instant < p.startDate.instant || tx.date.instant >= p.endDate.instant {
        continue;
      }
      var hour := tx.date.hour;
      var targetSlot := Find(slotMap[..], RecordMatching(hour));
      FindSame(slotMap[..], hour);
      SlotFound(hour);
      assert forall k :: SlotShare(tx, p, k) == if k == HourSlot(hour) then Spend(tx) else 0;
      if targetSlot.Some? {
        var k := targetSlot.value;
        slotMap[k] := slotMap[k].(amount := slotMap[k].amount + Abs(tx.amount));
      }
    }
    assert transactions[..|transactions|] == transactions;
    data := slotMap[..];
  }

  lemma SlotSpendSnoc(txs: seq<Transaction>, t: Transaction, p: Period)
    ensures forall k :: SlotSpend(txs + [t], p, k) == SlotSpend(txs, p, k) + SlotShare(t, p, k)
  {
    assert (txs + [t])[..|txs|] == txs;
  }

  /** Finding over the slot records is finding over their slots. */
  lemma FindSame(m: seq<SlotStat>, hour: int)
    requires |m| == |TIME_SLOTS| && forall k :: 0 <= k < |m| ==> m[k].slot == TIME_SLOTS[k]
    ensures Find(m, RecordMatching(hour)) == SlotOf(hour)
  {
    FindAlike(m, RecordMatching(hour), TIME_SLOTS, Matching(hour));
  }

  /** Every expense of the period lands in exactly one slot, so the slots hold the period's expense total. */
  lemma SlotsTotal(txs: seq<Transaction>, p: Period)
    ensures SumOf(Slots(txs, p), StatAmount) == ExpenseTotal(txs, p)
  {
    var b := Slots(txs, p);
    SixTotal(txs, p);
    assert b[..0] == [];
    assert SumOf(b[..1], StatAmount) == b[0].amount;
    assert SumOf(b[..2], StatAmount) == SumOf(b[..1], StatAmount) + b[1].amount by { assert b[..2][..1] == b[..1]; }
    assert SumOf(b[..3], StatAmount) == SumOf(b[..2], StatAmount) + b[2].amount by { assert b[..3][..2] == b[..2]; }
    assert SumOf(b[..4], StatAmount) == SumOf(b[..3], StatAmount) + b[3].amount by { assert b[..4][..3] == b[..3]; }
    assert SumOf(b[..5], StatAmount) == SumOf(b[..4], StatAmount) + b[4].amount by { assert b[..5][..4] == b[..4]; }
    assert SumOf(b, StatAmount) == SumOf(b[..5], StatAmount) + b[5].amount;
  }

  lemma {:induction false} SixTotal(txs: seq<Transaction>, p: Period)
    ensures SlotSpend(txs, p, 0) + SlotSpend(txs, p, 1) + SlotSpend(txs, p, 2)
          + SlotSpend(txs, p, 3) + SlotSpend(txs, p, 4) + SlotSpend(txs, p, 5) == ExpenseTotal(txs, p)
    decreases |txs|
  {
    if |txs| > 0 {
      var init, t := txs[..|txs| - 1], txs[|txs| - 1];
      assert txs == init + [t];
      SixTotal(init, p);
      ExpenseTotalSnoc(init, t, p);
    }
  }

  /** A transaction that is not an expense of the period leaves every slot as it was. */
  lemma IgnoredTransaction(txs: seq<Transaction>, t: Transaction, p: Period)
    requires !IsPeriodExpense(t, p)
    ensures Slots(txs + [t], p) == Slots(txs, p)
  {
    SlotSpendSnoc(txs, t, p);
  }

  /** Line 60: the reduce keeps the earlier slot only when it spent strictly more. */
  function MaxSlot(s: seq<SlotStat>): SlotStat
    requires |s| > 0
    decreases |s|
  {
    if |s| == 1 then s[0]
    else
      var prev, current := MaxSlot(s[..|s| - 1]), s[|s| - 1];
      if prev.amount > current.amount then prev else current
  }

  /** Slot `k` spent the most, and every later slot strictly less. */
  predicate LastMaxAt(s: seq<SlotStat>, k: int) {
    && 0 <= k < |s|
    && (forall i :: 0 <= i < |s| ==> s[i].amount <= s[k].amount)
    && (forall i :: k < i < |s| ==> s[i].amount < s[k].amount)
  }

  /** Where the reduce's result sits in the list. */
  function MaxSlotIndex(s: seq<SlotStat>): (k: nat)
    requires |s| > 0
    ensures k < |s|
    decreases |s|
  {
    if |s| == 1 then 0
    else
      var k := MaxSlotIndex(s[..|s| - 1]);
      if s[k].amount > s[|s| - 1].amount then k else |s| - 1
  }

  /**
   * The busiest slot spent at least as much as every other, and among
   * slots tied for the most it is the last.
   */
  lemma {:induction false} MaxSlotSpec(s: seq<SlotStat>)
    requires |s| > 0
    ensures MaxSlot(s) == s[MaxSlotIndex(s)]
    ensures LastMaxAt(s, MaxSlotIndex(s))
    decreases |s|
  {
    if |s| > 1 {
      var init, last := s[..|s| - 1], s[|s| - 1];
      MaxSlotSpec(init);
      var k := MaxSlotIndex(init);
      assert init[k] == s[k];
      forall i | 0 <= i < |init| ensures s[i].amount <= s[k].amount {
        assert s[i] == init[i];
      }
      forall i | k < i < |init| ensures s[i].amount < s[k].amount {
        assert s[i] == init[i];
      }
    }
  }
}
