/**
 * The upcoming-bill view (components/UpcomingBills.tsx): merchants whose
 * expenses span at least two months get an expected payment date in the
 * billing period from their average day of month, and are listed until an
 * expense at that merchant shows up in the period.
 */
module UpcomingBills {
  import opened Wrappers
  import opened Seqs
  import opened Ledger

  /** A merchant must appear in at least this many distinct months. */
  const RECURRING_THRESHOLD := 2

  /** What the grouping pass collects for one merchant. */
  datatype BillRecord = BillRecord(dates: seq<Date>, amounts: seq<int>, lastDate: Date)

  /** The `Map` of lines 40-57: its keys in insertion order and the record of each. */
  datatype Grouping = Grouping(order: seq<string>, records: map<string, BillRecord>)

  /** One predicted bill. */
  datatype Bill = Bill(merchant: string, expectedDate: Date, expectedAmount: real, dDay: int, isOverdue: bool)

  /** Lines 54-56: one more date and |amount|, and the later of the two dates kept as the last. */
  function Push(rec: BillRecord, t: Transaction): BillRecord {
    BillRecord(rec.dates + [t.date], rec.amounts + [Spend(t)],
               if t.date.instant > rec.lastDate.instant then t.date else rec.lastDate)
  }

  /** The grouping of lines 46-57 after the transactions `txs`. */
  function GroupOf(txs: seq<Transaction>): (g: Grouping)
    ensures Grouped(g.order, g.records)
    ensures forall k :: k in g.records ==> |g.records[k].dates| > 0 && |g.records[k].amounts| > 0
    decreases |txs|
  {
    if |txs| == 0 then Grouping([], map[])
    else
      var g, t := GroupOf(txs[..|txs| - 1]), txs[|txs| - 1];
      if t.amount >= 0 then g
      else
        var key := Trim(t.merchant);
        if key in g.records then Grouping(g.order, g.records[key := Push(g.records[key], t)])
        else Grouping(g.order + [key], g.records[key := Push(BillRecord([], [], t.date), t)])
  }

  /** The `forEach` of lines 46-57 over a map updated in place. */
  method GroupByMerchant(txs: seq<Transaction>) returns (order: seq<string>, stats: map<string, BillRecord>)
    ensures Grouping(order, stats) == GroupOf(txs)
  {
    order, stats := [], map[];
    for i := 0 to |txs|
      invariant Grouping(order, stats) == GroupOf(txs[..i])
    {
      var tx := txs[i];
      assert txs[..i + 1][..i] == txs[..i];
      if tx.amount >= 0 {
        continue;
      }
      var key := Trim(tx.merchant);
      if key !in stats {
        stats := stats[key := BillRecord([], [], tx.date)];
        order := order + [key];
      }
      var rec := stats[key];
      var last := if tx.date.instant > rec.lastDate.instant then tx.date else rec.lastDate;
      stats := stats[key := BillRecord(rec.dates + [tx.date], rec.amounts + [Spend(tx)], last)];
    }
    assert txs[..|txs|] == txs;
  }

  /** The record built by pushing the non-empty `occ` in order, starting from its first date. */
  function Collect(occ: seq<Transaction>): BillRecord
    requires |occ| > 0
    decreases |occ|
  {
    if |occ| == 1 then Push(BillRecord([], [], occ[0].date), occ[0])
    else Push(Collect(occ[..|occ| - 1]), occ[|occ| - 1])
  }

  function Self(k: string): string { k }

  /**
   * The grouping: every key once, in order of first expense; a record
   * exactly for the merchants with an expense, collected from those
   * expenses alone.
   */
  lemma {:induction false} GroupOfCollects(txs: seq<Transaction>, k: string)
    ensures var g, occ := GroupOf(txs), Occurrences(txs, k);
      && UniqueBy(g.order, Self)
      && (forall i :: 0 <= i < |g.order| ==> g.order[i] in g.records)
      && (k in g.records ==> k in g.order)
      && (k in g.records <==> |occ| > 0)
      && (k in g.records ==> g.records[k] == Collect(occ))
    decreases |txs|
  {
    GroupOfKeys(txs);
    GroupOfRecord(txs, k);
  }

  lemma {:induction false} GroupOfKeys(txs: seq<Transaction>)
    ensures var g := GroupOf(txs);
      && UniqueBy(g.order, Self)
      && (forall i :: 0 <= i < |g.order| ==> g.order[i] in g.records)
      && (forall k :: k in g.records ==> k in g.order)
    decreases |txs|
  {
    if |txs| > 0 {
      var init, t := txs[..|txs| - 1], txs[|txs| - 1];
      GroupOfKeys(init);
      var g0 := GroupOf(init);
      var key := Trim(t.merchant);
      if t.amount < 0 && key !in g0.records {
        var o := g0.order + [key];
        assert GroupOf(txs).order == o;
        forall i, j | 0 <= i < j < |o| ensures Self(o[i]) != Self(o[j]) {
          if j == |o| - 1 {
            assert o[i] == g0.order[i] && o[i] in g0.records;
          } else {
            assert o[i] == g0.order[i] && o[j] == g0.order[j];
          }
        }
      }
    }
  }

  lemma {:induction false} GroupOfRecord(txs: seq<Transaction>, k: string)
    ensures var g, occ := GroupOf(txs), Occurrences(txs, k);
      && (k in g.records <==> |occ| > 0)
      && (k in g.records ==> g.records[k] == Collect(occ))
    decreases |txs|
  {
    if |txs| > 0 {
      var init, t := txs[..|txs| - 1], txs[|txs| - 1];
      GroupOfRecord(init, k);
      var occ0 := Occurrences(init, k);
      var occ := Occurrences(txs, k);
      if IsExpense(t) && Trim(t.merchant) == k {
        assert occ == occ0 + [t];
        assert occ[..|occ| - 1] == occ0;
      } else {
        assert occ == occ0;
      }
    }
  }

  /** A collected record keeps every date and |amount| in order, and its last date is the latest. */
  lemma {:induction false} CollectFacts(occ: seq<Transaction>)
    requires |occ| > 0
    ensures var rec := Collect(occ);
      && rec.dates == MapSeq(occ, DateOf)
      && rec.amounts == MapSeq(occ, Spend)
      && rec.lastDate in rec.dates
      && (forall i :: 0 <= i < |rec.dates| ==> rec.dates[i].instant <= rec.lastDate.instant)
    decreases |occ|
  {
    if |occ| > 1 {
      CollectFacts(occ[..|occ| - 1]);
    }
  }

  /** `new Set(dates.map(d => format(d, "yyyy-MM")))`. */
  function DistinctMonths(ds: seq<Date>): set<YearMonth> {
    set i | 0 <= i < |ds| :: ds[i].yearMonth
  }

  function DayOf(d: Date): int { d.day }

  /** Line 70: `Math.round(sumDays / n)`, that is floor(sumDays / n + 1/2). */
  function AvgDay(dates: seq<Date>): int
    requires |dates| > 0
  {
    (2 * SumOf(dates, DayOf) + |dates|) / (2 * |dates|)
  }

  /** The rounded average of days of the month is itself a day of the month. */
  lemma AvgDayRange(dates: seq<Date>)
    requires |dates| > 0
    ensures 1 <= AvgDay(dates) <= 31
  {
    var n := |dates|;
    SumOfBounds(dates, DayOf, 1, 31);
    var num := 2 * SumOf(dates, DayOf) + n;
    assert 2 * n <= num < 2 * n * 32;
    DivBetween(num, 2 * n, 1, 32);
  }

  lemma DivBetween(a: int, d: int, lo: int, hi: int)
    requires d > 0 && lo * d <= a < hi * d
    ensures lo <= a / d < hi
  {
    var q, r := a / d, a % d;
    assert a == q * d + r && 0 <= r < d;
    MulLess(lo, q + 1, d);
    MulLess(q, hi, d);
  }

  lemma MulLess(x: int, y: int, d: int)
    requires d > 0 && x * d < y * d
    ensures x < y
  {
    assert (y - x) * d > 0;
  }

  /** Lines 75-82: the average day in the start month, else in the next month, if it falls in the period. */
  function TargetDate(cal: Calendar, p: Period, avgDay: int): (r: Option<Date>)
    ensures r.Some? ==> InPeriod(r.value, p)
  {
    var c1 := cal.setDate(p.startDate, avgDay);
    var c2 := cal.setDate(cal.addMonths(p.startDate, 1), avgDay);
    if InPeriod(c1, p) then Some(c1) else if InPeriod(c2, p) then Some(c2) else None
  }

  /** Lines 85-90: the merchant already has an expense in the period. */
  predicate IsPaid(txs: seq<Transaction>, merchant: string, p: Period) {
    exists i :: 0 <= i < |txs| && IsPeriodExpense(txs[i], p) && Trim(txs[i].merchant) == merchant
  }

  /** One pass of the loop body of lines 62-107. */
  function BillFor(txs: seq<Transaction>, p: Period, cal: Calendar, now: Date,
                   merchant: string, rec: BillRecord): Option<Bill>
    requires |rec.dates| > 0 && |rec.amounts| > 0
  {
    if |DistinctMonths(rec.dates)| < RECURRING_THRESHOLD then None
    else
      match TargetDate(cal, p, AvgDay(rec.dates))
      case None => None
      case Some(target) =>
        if IsPaid(txs, merchant, p) then None
        else
          var d := cal.differenceInDays(target, now);
          Some(Bill(merchant, target, Mean(rec.amounts), d, d < 0))
  }

  predicate Grouped(order: seq<string>, records: map<string, BillRecord>) {
    forall i :: 0 <= i < |order| ==>
      order[i] in records && |records[order[i]].dates| > 0 && |records[order[i]].amounts| > 0
  }

  /** The bills pushed for the merchants `order`, in that order. */
  function BillsOf(txs: seq<Transaction>, p: Period, cal: Calendar, now: Date,
                   order: seq<string>, records: map<string, BillRecord>): seq<Bill>
    requires Grouped(order, records)
    decreases |order|
  {
    if |order| == 0 then []
    else
      var k := order[|order| - 1];
      BillsOf(txs, p, cal, now, order[..|order| - 1], records)
        + match BillFor(txs, p, cal, now, k, records[k]) case None => [] case Some(b) => [b]
  }

  /** The `for…of` loop of lines 62-107. */
  method CollectBills(txs: seq<Transaction>, p: Period, cal: Calendar, now: Date,
                      order: seq<string>, records: map<string, BillRecord>) returns (bills: seq<Bill>)
    requires Grouped(order, records)
    ensures bills == BillsOf(txs, p, cal, now, order, records)
  {
    bills := [];
    for i := 0 to |order|
      invariant bills == BillsOf(txs, p, cal, now, order[..i], records)
    {
      assert order[..i + 1][..i] == order[..i];
      var merchant := order[i];
      var stats := records[merchant];
      if |DistinctMonths(stats.dates)| < RECURRING_THRESHOLD {
        continue;
      }
      var target := TargetDate(cal, p, AvgDay(stats.dates));
      if target.None? {
        continue;
      }
      if !IsPaid(txs, merchant, p) {
        var diffDays := cal.differenceInDays(target.value, now);
        bills := bills + [Bill(merchant, target.value, Mean(stats.amounts), diffDays, diffDays < 0)];
      }
    }
    assert order[..|order|] == order;
  }

  function BillTime(b: Bill): real { b.expectedDate.instant as real }

  function BillMerchant(b: Bill): string { b.merchant }

  /** The bills of a grouping, sorted by expected date. */
  function Upcoming(txs: seq<Transaction>, p: Period, cal: Calendar, now: Date): seq<Bill> {
    var g := GroupOf(txs);
    SortBy(BillsOf(txs, p, cal, now, g.order, g.records), BillTime)
  }

  /**
   * `upcomingData`: nothing before the data loads; the days to each bill
   * are counted from the start of the current day, not from the clock.
   */
  method UpcomingData(txs: Option<seq<Transaction>>, p: Period, cal: Calendar, clock: Date)
    returns (bills: seq<Bill>)
    ensures txs.None? ==> bills == []
    ensures txs.Some? ==> bills == Upcoming(txs.value, p, cal, cal.startOfDay(clock))
  {
    if txs.None? {
      return [];
    }
    var now := cal.startOfDay(clock);
    var order, stats := GroupByMerchant(txs.value);
    var unsorted := CollectBills(txs.value, p, cal, now, order, stats);
    bills := SortBy(unsorted, BillTime);
  }

  /** A bill is pushed for a merchant of `order` exactly when its loop pass yields one. */
  lemma {:induction false} BillsOfMembers(txs: seq<Transaction>, p: Period, cal: Calendar, now: Date,
                                          order: seq<string>, records: map<string, BillRecord>, b: Bill)
    requires Grouped(order, records)
    ensures b in BillsOf(txs, p, cal, now, order, records)
        <==> exists i :: 0 <= i < |order| && BillFor(txs, p, cal, now, order[i], records[order[i]]) == Some(b)
    decreases |order|
  {
    if |order| > 0 {
      var init := order[..|order| - 1];
      assert forall i :: 0 <= i < |init| ==> init[i] == order[i];
      BillsOfMembers(txs, p, cal, now, init, records, b);
    }
  }

  lemma DistinctMonthsOfDates(occ: seq<Transaction>)
    ensures DistinctMonths(MapSeq(occ, DateOf)) == MonthsOf(occ)
  {
    var ds := MapSeq(occ, DateOf);
    forall y ensures y in DistinctMonths(ds) <==> y in MonthsOf(occ) {
      if y in DistinctMonths(ds) {
        var i :| 0 <= i < |ds| && ds[i].yearMonth == y;
        assert occ[i].date.yearMonth == y;
      }
      if y in MonthsOf(occ) {
        var i :| 0 <= i < |occ| && occ[i].date.yearMonth == y;
        assert ds[i].yearMonth == y;
      }
    }
  }

  /** The loop pass of a grouped merchant, stated on its expenses. */
  lemma BillForMeaning(txs: seq<Transaction>, p: Period, cal: Calendar, now: Date, k: string)
    requires k in GroupOf(txs).records
    ensures var occ := Occurrences(txs, k);
      var dates := MapSeq(occ, DateOf);
      var b := BillFor(txs, p, cal, now, k, GroupOf(txs).records[k]);
      && |occ| > 0
      && (b.Some? <==> && |MonthsOf(occ)| >= RECURRING_THRESHOLD
                       && TargetDate(cal, p, AvgDay(dates)).Some?
                       && !IsPaid(txs, k, p))
      && (b.Some? ==>
            && b.value.merchant == k
            && b.value.expectedDate == TargetDate(cal, p, AvgDay(dates)).value
            && b.value.expectedAmount == Mean(MapSeq(occ, Spend))
            && b.value.dDay == cal.differenceInDays(b.value.expectedDate, now)
            && (b.value.isOverdue <==> b.value.dDay < 0))
  {
    var occ := Occurrences(txs, k);
    GroupOfCollects(txs, k);
    CollectFacts(occ);
    DistinctMonthsOfDates(occ);
  }

  /** Every listed bill comes from the loop pass of a grouped merchant. */
  lemma UpcomingFrom(txs: seq<Transaction>, p: Period, cal: Calendar, now: Date, b: Bill)
    requires b in Upcoming(txs, p, cal, now)
    ensures exists k :: k in GroupOf(txs).records && BillFor(txs, p, cal, now, k, GroupOf(txs).records[k]) == Some(b)
  {
    var g := GroupOf(txs);
    var unsorted := BillsOf(txs, p, cal, now, g.order, g.records);
    SortByMembers(unsorted, BillTime);
    BillsOfMembers(txs, p, cal, now, g.order, g.records, b);
  }

  lemma NotPaid(txs: seq<Transaction>, k: string, p: Period)
    requires !IsPaid(txs, k, p)
    ensures forall t :: t in txs && IsPeriodExpense(t, p) ==> Trim(t.merchant) != k
  {
    forall t | t in txs && IsPeriodExpense(t, p) ensures Trim(t.merchant) != k {
      var j :| 0 <= j < |txs| && txs[j] == t;
    }
  }

  /**
   * Every listed bill is for a merchant whose expenses span at least two
   * months, has not been paid in the period, falls due inside the period
   * on the predicted day, and carries the mean of the merchant's amounts.
   */
  lemma UpcomingSound(txs: seq<Transaction>, p: Period, cal: Calendar, now: Date, b: Bill)
    requires b in Upcoming(txs, p, cal, now)
    ensures var occ := Occurrences(txs, b.merchant);
      && |occ| > 0
      && |MonthsOf(occ)| >= RECURRING_THRESHOLD
      && InPeriod(b.expectedDate, p)
      && TargetDate(cal, p, AvgDay(MapSeq(occ, DateOf))) == Some(b.expectedDate)
      && (forall t :: t in txs && IsPeriodExpense(t, p) ==> Trim(t.merchant) != b.merchant)
      && b.expectedAmount == Mean(MapSeq(occ, Spend))
      && (b.isOverdue <==> b.dDay < 0)
  {
    UpcomingFrom(txs, p, cal, now, b);
    var g := GroupOf(txs);
    var k :| k in g.records && BillFor(txs, p, cal, now, k, g.records[k]) == Some(b);
    BillForMeaning(txs, p, cal, now, k);
    NotPaid(txs, k, p);
  }

  /**
   * Conversely, a merchant whose expenses span two months, whose predicted
   * day falls in the period and who has not paid yet is listed.
   */
  lemma UpcomingComplete(txs: seq<Transaction>, p: Period, cal: Calendar, now: Date, k: string)
    requires var occ := Occurrences(txs, k);
      && |occ| > 0 && |MonthsOf(occ)| >= RECURRING_THRESHOLD
      && TargetDate(cal, p, AvgDay(MapSeq(occ, DateOf))).Some?
      && !IsPaid(txs, k, p)
    ensures exists b :: b in Upcoming(txs, p, cal, now) && b.merchant == k
  {
    var g := GroupOf(txs);
    GroupOfCollects(txs, k);
    BillForMeaning(txs, p, cal, now, k);
    var b := BillFor(txs, p, cal, now, k, g.records[k]).value;
    var i :| 0 <= i < |g.order| && g.order[i] == k;
    var unsorted := BillsOf(txs, p, cal, now, g.order, g.records);
    BillsOfMembers(txs, p, cal, now, g.order, g.records, b);
    assert b in unsorted;
    SortByMembers(unsorted, BillTime);
    assert b in Upcoming(txs, p, cal, now);
  }

  /** The bills pushed carry distinct merchants when the merchants of `order` are distinct. */
  lemma {:induction false} BillsOfUnique(txs: seq<Transaction>, p: Period, cal: Calendar, now: Date,
                                         order: seq<string>, records: map<string, BillRecord>)
    requires Grouped(order, records) && UniqueBy(order, Self)
    ensures UniqueBy(BillsOf(txs, p, cal, now, order, records), BillMerchant)
    decreases |order|
  {
    if |order| > 0 {
      var init, k := order[..|order| - 1], order[|order| - 1];
      assert UniqueBy(init, Self);
      BillsOfUnique(txs, p, cal, now, init, records);
      var bs := BillsOf(txs, p, cal, now, init, records);
      var nb := BillFor(txs, p, cal, now, k, records[k]);
      if nb.Some? {
        forall i | 0 <= i < |bs| ensures bs[i].merchant != k {
          BillsOfMembers(txs, p, cal, now, init, records, bs[i]);
          var j :| 0 <= j < |init| && BillFor(txs, p, cal, now, init[j], records[init[j]]) == Some(bs[i]);
          assert Self(order[j]) != Self(order[|order| - 1]);
        }
      }
    }
  }

  /** At most one bill per merchant, in order of expected date. */
  lemma UpcomingOrdered(txs: seq<Transaction>, p: Period, cal: Calendar, now: Date)
    ensures var bills := Upcoming(txs, p, cal, now);
      && UniqueBy(bills, BillMerchant)
      && (forall i, j :: 0 <= i < j < |bills| ==> bills[i].expectedDate.instant <= bills[j].expectedDate.instant)
  {
    var g := GroupOf(txs);
    GroupOfCollects(txs, "");
    var unsorted := BillsOf(txs, p, cal, now, g.order, g.records);
    BillsOfUnique(txs, p, cal, now, g.order, g.records);
    SortByUnique(unsorted, BillTime, BillMerchant);
    SortBySorted(unsorted, BillTime);
    var bills := Upcoming(txs, p, cal, now);
    forall i, j | 0 <= i < j < |bills| ensures bills[i].expectedDate.instant <= bills[j].expectedDate.instant {
      assert BillTime(bills[i]) <= BillTime(bills[j]);
    }
  }
}
