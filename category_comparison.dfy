/**
 * Month-over-month category comparison (components/CategoryComparison.tsx):
 * expenses are classified by the rule list, summed per category for the
 * current and the previous period, and the five categories whose spending
 * grew most are reported.
 */
module CategoryComparison {
  import opened Wrappers
  import opened Seqs
  import opened Ledger
  import opened Tally
  import opened CategoryRules

  /** `new RegExp(pattern, 'i')` threw a `SyntaxError`; nothing catches it here. */
  datatype Error = RegexSyntaxError(pattern: string)

  const UNCATEGORIZED := "uncategorized"

  /**
   * `getCategoryId`: the category of the first rule whose pattern tests true,
   * "uncategorized" when none does; a pattern that does not compile, reached
   * before any match, throws.
   */
  function CategoryIdOf(e: RegexEngine, rules: seq<Rule>, merchant: string): (r: Result<string, Error>)
    ensures r.Failure? ==> exists k :: 0 <= k < |rules| && !e.compiles(rules[k].pattern)
    ensures r.Success? && r.value != UNCATEGORIZED ==> exists k :: 0 <= k < |rules| && rules[k].categoryId == r.value
  {
    if rules == [] then Success(UNCATEGORIZED)
    else if !e.compiles(rules[0].pattern) then Failure(RegexSyntaxError(rules[0].pattern))
    else if e.matches(rules[0].pattern, merchant) then Success(rules[0].categoryId)
    else
      var r := CategoryIdOf(e, rules[1..], merchant);
      assert r.Failure? ==> exists k :: 1 <= k < |rules| && !e.compiles(rules[k].pattern);
      assert r.Success? && r.value != UNCATEGORIZED ==> exists k :: 1 <= k < |rules| && rules[k].categoryId == r.value;
      r
  }

  /** `getCategoryId` as written: a `for…of` loop with early return. */
  method GetCategoryId(e: RegexEngine, rules: seq<Rule>, merchant: string) returns (r: Result<string, Error>)
    ensures r == CategoryIdOf(e, rules, merchant)
  {
    for i := 0 to |rules|
      invariant CategoryIdOf(e, rules[i..], merchant) == CategoryIdOf(e, rules, merchant)
    {
      assert rules[i..][1..] == rules[i + 1..];
      if !e.compiles(rules[i].pattern) {
        return Failure(RegexSyntaxError(rules[i].pattern));
      }
      if e.matches(rules[i].pattern, merchant) {
        return Success(rules[i].categoryId);
      }
    }
    return Success(UNCATEGORIZED);
  }

  /** When every pattern compiles, this classifier agrees with the rule manager's simulator. */
  lemma {:induction false} CategoryIdAgreesWithSimulator(e: RegexEngine, rules: seq<Rule>, merchant: string)
    requires forall k :: 0 <= k < |rules| ==> e.compiles(rules[k].pattern)
    ensures CategoryIdOf(e, rules, merchant)
         == Success(match FirstMatch(e, rules, merchant)
                    case Some(i) => rules[i].categoryId
                    case None => UNCATEGORIZED)
  {
    if rules != [] {
      CategoryIdAgreesWithSimulator(e, rules[1..], merchant);
    }
  }

  /** The two accumulators `currentMap` and `prevMap`. */
  datatype Maps = Maps(current: seq<Entry<string>>, prev: seq<Entry<string>>)

  /** One `forEach` step: income is skipped; an expense is classified, then counted once. */
  function Step(e: RegexEngine, rules: seq<Rule>, m: Maps, t: Transaction, cur: Period, prev: Period): Result<Maps, Error> {
    if t.amount >= 0 then Success(m)
    else
      match CategoryIdOf(e, rules, t.merchant)
      case Failure(err) => Failure(err)
      case Success(c) =>
        if InPeriod(t.date, cur) then Success(m.(current := Add(m.current, c, Abs(t.amount))))
        else if InPeriod(t.date, prev) then Success(m.(prev := Add(m.prev, c, Abs(t.amount))))
        else Success(m)
  }

  /** The maps after the `forEach` over `txs`, or the error it throws. */
  function Tallies(e: RegexEngine, rules: seq<Rule>, txs: seq<Transaction>, cur: Period, prev: Period): Result<Maps, Error>
    decreases |txs|
  {
    if txs == [] then Success(Maps([], []))
    else
      match Tallies(e, rules, txs[..|txs| - 1], cur, prev)
      case Failure(err) => Failure(err)
      case Success(m) => Step(e, rules, m, txs[|txs| - 1], cur, prev)
  }

  lemma {:induction false} TalliesFailureSticks(e: RegexEngine, rules: seq<Rule>, txs: seq<Transaction>, i: nat, cur: Period, prev: Period)
    requires i <= |txs| && Tallies(e, rules, txs[..i], cur, prev).Failure?
    ensures Tallies(e, rules, txs, cur, prev) == Tallies(e, rules, txs[..i], cur, prev)
    decreases |txs| - i
  {
    if i < |txs| {
      assert txs[..i + 1][..i] == txs[..i];
      TalliesFailureSticks(e, rules, txs, i + 1, cur, prev);
    } else {
      assert txs[..i] == txs;
    }
  }

  /** The `forEach` that fills `currentMap` and `prevMap`. */
  method Accumulate(e: RegexEngine, rules: seq<Rule>, txs: seq<Transaction>, cur: Period, prev: Period)
    returns (r: Result<Maps, Error>)
    ensures r == Tallies(e, rules, txs, cur, prev)
  {
    var currentMap: seq<Entry<string>> := [];
    var prevMap: seq<Entry<string>> := [];
    for i := 0 to |txs|
      invariant Tallies(e, rules, txs[..i], cur, prev) == Success(Maps(currentMap, prevMap))
    {
      var tx := txs[i];
      assert txs[..i + 1][..i] == txs[..i];
      if tx.amount >= 0 {
        continue;
      }
      var catId := GetCategoryId(e, rules, tx.merchant);
      if catId.Failure? {
        TalliesFailureSticks(e, rules, txs, i + 1, cur, prev);
        return Failure(catId.error);
      }
      var absAmount := Abs(tx.amount);
      if InPeriod(tx.date, cur) {
        currentMap := Add(currentMap, catId.value, absAmount);
      } else if InPeriod(tx.date, prev) {
        prevMap := Add(prevMap, catId.value, absAmount);
      }
    }
    assert txs[..|txs|] == txs;
    return Success(Maps(currentMap, prevMap));
  }

  /** The category an expense is counted under, once classification is known to succeed. */
  function CategoryOf(e: RegexEngine, rules: seq<Rule>, t: Transaction): string {
    match CategoryIdOf(e, rules, t.merchant)
    case Success(c) => c
    case Failure(_) => ""
  }

  /** Reference sum: |amount| of the current-period expenses classified as `c`. */
  function CurrentSpend(e: RegexEngine, rules: seq<Rule>, txs: seq<Transaction>, cur: Period, c: string): int
    decreases |txs|
  {
    if txs == [] then 0
    else
      var t := txs[|txs| - 1];
      CurrentSpend(e, rules, txs[..|txs| - 1], cur, c)
        + (if IsPeriodExpense(t, cur) && CategoryOf(e, rules, t) == c then Abs(t.amount) else 0)
  }

  /** Reference sum: |amount| of the previous-period expenses, not also in the current period, classified as `c`. */
  function PrevSpend(e: RegexEngine, rules: seq<Rule>, txs: seq<Transaction>, cur: Period, prev: Period, c: string): int
    decreases |txs|
  {
    if txs == [] then 0
    else
      var t := txs[|txs| - 1];
      PrevSpend(e, rules, txs[..|txs| - 1], cur, prev, c)
        + (if IsPeriodExpense(t, prev) && !InPeriod(t.date, cur) && CategoryOf(e, rules, t) == c then Abs(t.amount) else 0)
  }

  /**
   * What the maps hold: each current-period expense adds its |amount| to
   * `currentMap` under its category; each previous-period expense that is not
   * also in the current period adds it to `prevMap`. Keys are unique, values
   * positive, and `currentMap` sums to the period's expense total.
   */
  lemma TalliesMeaning(e: RegexEngine, rules: seq<Rule>, txs: seq<Transaction>, cur: Period, prev: Period)
    requires Tallies(e, rules, txs, cur, prev).Success?
    ensures var m := Tallies(e, rules, txs, cur, prev).value;
      && UniqueBy(m.current, KeyOf) && UniqueBy(m.prev, KeyOf)
      && PositiveTotals(m.current) && PositiveTotals(m.prev)
      && Total(m.current) == ExpenseTotal(txs, cur)
      && (forall c :: Get(m.current, c) == CurrentSpend(e, rules, txs, cur, c))
      && (forall c :: Get(m.prev, c) == PrevSpend(e, rules, txs, cur, prev, c))
  {
    TalliesCurrent(e, rules, txs, cur, prev);
    TalliesTotal(e, rules, txs, cur, prev);
    TalliesPrev(e, rules, txs, cur, prev);
  }

  /** One successful step of the scan, in terms of the category an expense is counted under. */
  lemma TalliesSnoc(e: RegexEngine, rules: seq<Rule>, txs: seq<Transaction>, cur: Period, prev: Period)
    requires txs != [] && Tallies(e, rules, txs, cur, prev).Success?
    ensures var t := txs[|txs| - 1];
      var before := Tallies(e, rules, txs[..|txs| - 1], cur, prev);
      var after := Tallies(e, rules, txs, cur, prev).value;
      && before.Success?
      && after.current == (if IsPeriodExpense(t, cur)
                           then Add(before.value.current, CategoryOf(e, rules, t), Abs(t.amount))
                           else before.value.current)
      && after.prev == (if IsPeriodExpense(t, prev) && !InPeriod(t.date, cur)
                        then Add(before.value.prev, CategoryOf(e, rules, t), Abs(t.amount))
                        else before.value.prev)
  {
  }

  lemma {:induction false} TalliesCurrent(e: RegexEngine, rules: seq<Rule>, txs: seq<Transaction>, cur: Period, prev: Period)
    requires Tallies(e, rules, txs, cur, prev).Success?
    ensures var m := Tallies(e, rules, txs, cur, prev).value.current;
      && UniqueBy(m, KeyOf) && PositiveTotals(m)
      && (forall c :: Get(m, c) == CurrentSpend(e, rules, txs, cur, c))
    decreases |txs|
  {
    if txs != [] {
      var init, t := txs[..|txs| - 1], txs[|txs| - 1];
      TalliesSnoc(e, rules, txs, cur, prev);
      TalliesCurrent(e, rules, init, cur, prev);
      var m := Tallies(e, rules, init, cur, prev).value.current;
      if IsPeriodExpense(t, cur) {
        var c, v := CategoryOf(e, rules, t), Abs(t.amount);
        AddUnique(m, c, v);
        AddPositive(m, c, v);
        forall j ensures Get(Add(m, c, v), j) == CurrentSpend(e, rules, txs, cur, j) {
          AddGet(m, c, v, j);
        }
      }
    }
  }

  lemma {:induction false} TalliesTotal(e: RegexEngine, rules: seq<Rule>, txs: seq<Transaction>, cur: Period, prev: Period)
    requires Tallies(e, rules, txs, cur, prev).Success?
    ensures Total(Tallies(e, rules, txs, cur, prev).value.current) == ExpenseTotal(txs, cur)
    decreases |txs|
  {
    if txs != [] {
      var init, t := txs[..|txs| - 1], txs[|txs| - 1];
      assert txs == init + [t];
      TalliesSnoc(e, rules, txs, cur, prev);
      TalliesTotal(e, rules, init, cur, prev);
      ExpenseTotalSnoc(init, t, cur);
      if IsPeriodExpense(t, cur) {
        AddTotal(Tallies(e, rules, init, cur, prev).value.current, CategoryOf(e, rules, t), Abs(t.amount));
      }
    }
  }

  lemma {:induction false} TalliesPrev(e: RegexEngine, rules: seq<Rule>, txs: seq<Transaction>, cur: Period, prev: Period)
    requires Tallies(e, rules, txs, cur, prev).Success?
    ensures var m := Tallies(e, rules, txs, cur, prev).value.prev;
      && UniqueBy(m, KeyOf) && PositiveTotals(m)
      && (forall c :: Get(m, c) == PrevSpend(e, rules, txs, cur, prev, c))
    decreases |txs|
  {
    if txs != [] {
      var init, t := txs[..|txs| - 1], txs[|txs| - 1];
      TalliesSnoc(e, rules, txs, cur, prev);
      TalliesPrev(e, rules, init, cur, prev);
      var m := Tallies(e, rules, init, cur, prev).value.prev;
      if IsPeriodExpense(t, prev) && !InPeriod(t.date, cur) {
        var c, v := CategoryOf(e, rules, t), Abs(t.amount);
        AddUnique(m, c, v);
        AddPositive(m, c, v);
        forall j ensures Get(Add(m, c, v), j) == PrevSpend(e, rules, txs, cur, prev, j) {
          AddGet(m, c, v, j);
        }
      }
    }
  }

  /** The scan succeeds whenever every pattern compiles. */
  lemma {:induction false} TalliesSucceed(e: RegexEngine, rules: seq<Rule>, txs: seq<Transaction>, cur: Period, prev: Period)
    requires forall k :: 0 <= k < |rules| ==> e.compiles(rules[k].pattern)
    ensures Tallies(e, rules, txs, cur, prev).Success?
    decreases |txs|
  {
    if txs != [] {
      TalliesSucceed(e, rules, txs[..|txs| - 1], cur, prev);
    }
  }

  /** `CATEGORY_NAMES`. */
  const CATEGORY_NAMES: map<string, string> := map[
    "cat_food" := "식비", "cat_transport" := "교통/차량", "cat_shopping" := "쇼핑",
    "cat_fixed" := "고정지출", "cat_hobby" := "취미/여가", "cat_culture" := "문화",
    "cat_health" := "의료/건강", "cat_living" := "주거/통신", "uncategorized" := "기타"]

  /** `CATEGORY_NAMES[catId] || catId`. */
  function CategoryName(catId: string): string {
    if catId in CATEGORY_NAMES && CATEGORY_NAMES[catId] != "" then CATEGORY_NAMES[catId] else catId
  }

  datatype Row = Row(id: string, name: string, current: int, prev: int, diff: int, percent: real)

  function RowId(r: Row): string { r.id }
  function DiffKey(r: Row): real { -(r.diff as real) }

  /** Growth relative to the previous period, in percent: 100 for a new category, 0 for none. */
  function Percent(current: int, prev: int): real {
    if prev == 0 then (if current > 0 then 100.0 else 0.0)
    else ((current - prev) as real / prev as real) * 100.0
  }

  function KeySeq(m: seq<Entry<string>>): (r: seq<string>)
    ensures |r| == |m| && forall i :: 0 <= i < |m| ==> r[i] == m[i].key
  {
    if m == [] then [] else [m[0].key] + KeySeq(m[1..])
  }

  /** `Array.from(new Set(s))`: the distinct elements, in order of first occurrence. */
  function Distinct(s: seq<string>): (r: seq<string>)
    ensures forall x :: x in r <==> x in s
    ensures forall i, j :: 0 <= i < j < |r| ==> r[i] != r[j]
    decreases |s|
  {
    if s == [] then []
    else
      var d := Distinct(s[..|s| - 1]);
      assert s == s[..|s| - 1] + [s[|s| - 1]];
      if s[|s| - 1] in d then d else d + [s[|s| - 1]]
  }

  function MakeRow(m: Maps, catId: string): Row {
    var current := Get(m.current, catId);
    var prev := Get(m.prev, catId);
    Row(catId, CategoryName(catId), current, prev, current - prev, Percent(current, prev))
  }

  predicate NonZero(r: Row) { r.current > 0 || r.prev > 0 }

  /** Every category with some spending in either period, one row each, before ranking. */
  function AllRows(m: Maps): seq<Row> {
    var cats := Distinct(KeySeq(m.current) + KeySeq(m.prev));
    var rows := seq(|cats|, i requires 0 <= i < |cats| => MakeRow(m, cats[i]));
    Filter(rows, NonZero)
  }

  /** The map/filter/sort/slice chain: the five categories with the largest increase. */
  function BuildRows(m: Maps): seq<Row> {
    Take(SortBy(AllRows(m), DiffKey), 5)
  }

  /** Lines 40-41: the previous period is the current one moved back a month. */
  function PrevPeriod(cal: Calendar, cur: Period): Period {
    Period(cal.subMonths(cur.startDate, 1), cal.subMonths(cur.endDate, 1))
  }

  /**
   * `comparisonData`: empty while the data is loading, else the ranked rows
   * or the error a bad pattern throws; such an error needs a pattern that
   * does not compile.
   */
  function ComparisonData(e: RegexEngine, cal: Calendar, rules: Option<seq<Rule>>, txs: Option<seq<Transaction>>, cur: Period)
    : (r: Result<seq<Row>, Error>)
    ensures txs.None? || rules.None? ==> r == Success([])
    ensures r.Failure? ==> rules.Some? && exists k :: 0 <= k < |rules.value| && !e.compiles(rules.value[k].pattern)
    ensures rules.Some? && (forall k :: 0 <= k < |rules.value| ==> e.compiles(rules.value[k].pattern)) ==> r.Success?
    ensures r.Success? ==> |r.value| <= 5
  {
    if txs.None? || rules.None? then Success([])
    else
      var prev := PrevPeriod(cal, cur);
      TalliesFailureCause(e, rules.value, txs.value, cur, prev);
      match Tallies(e, rules.value, txs.value, cur, prev)
      case Failure(err) => Failure(err)
      case Success(m) => Success(BuildRows(m))
  }

  /** The scan fails only on a pattern that does not compile. */
  lemma TalliesFailureCause(e: RegexEngine, rules: seq<Rule>, txs: seq<Transaction>, cur: Period, prev: Period)
    ensures Tallies(e, rules, txs, cur, prev).Failure? ==> exists k :: 0 <= k < |rules| && !e.compiles(rules[k].pattern)
  {
    if forall k :: 0 <= k < |rules| ==> e.compiles(rules[k].pattern) {
      TalliesSucceed(e, rules, txs, cur, prev);
    }
  }

  /**
   * The rows of a successful comparison: one per category, at most five, by
   * non-increasing difference; each carries the category's spend in the
   * current period and in the month before, their difference and the growth
   * percentage, and is not zero in both.
   */
  lemma ComparisonDataRows(e: RegexEngine, cal: Calendar, rules: seq<Rule>, txs: seq<Transaction>, cur: Period)
    requires ComparisonData(e, cal, Some(rules), Some(txs), cur).Success?
    ensures var rows, prev := ComparisonData(e, cal, Some(rules), Some(txs), cur).value, PrevPeriod(cal, cur);
      && |rows| <= 5
      && UniqueBy(rows, RowId)
      && (forall i, j :: 0 <= i < j < |rows| ==> rows[i].diff >= rows[j].diff)
      && (forall r :: r in rows ==>
        && NonZero(r)
        && r.current == CurrentSpend(e, rules, txs, cur, r.id)
        && r.prev == PrevSpend(e, rules, txs, cur, prev, r.id)
        && r.diff == r.current - r.prev && r.percent == Percent(r.current, r.prev))
  {
    var prev := PrevPeriod(cal, cur);
    var m := Tallies(e, rules, txs, cur, prev).value;
    TalliesMeaning(e, rules, txs, cur, prev);
    BuildRowsRanking(m);
    BuildRowsContents(m);
  }

  /**
   * No category is missed: fewer than five rows means every category with
   * spending in either period is shown, and a category with spending that
   * is not shown grew no more than any category that is.
   */
  lemma ComparisonDataComplete(e: RegexEngine, cal: Calendar, rules: seq<Rule>, txs: seq<Transaction>, cur: Period)
    requires ComparisonData(e, cal, Some(rules), Some(txs), cur).Success?
    ensures var rows, prev := ComparisonData(e, cal, Some(rules), Some(txs), cur).value, PrevPeriod(cal, cur);
      forall c :: CurrentSpend(e, rules, txs, cur, c) > 0 || PrevSpend(e, rules, txs, cur, prev, c) > 0 ==>
        && (|rows| < 5 ==> exists r :: r in rows && r.id == c)
        && ((forall x :: x in rows ==> x.id != c) ==>
              forall r :: r in rows ==> CurrentSpend(e, rules, txs, cur, c) - PrevSpend(e, rules, txs, cur, prev, c) <= r.diff)
  {
    var prev := PrevPeriod(cal, cur);
    var m := Tallies(e, rules, txs, cur, prev).value;
    var rows := BuildRows(m);
    TalliesMeaning(e, rules, txs, cur, prev);
    BuildRowsComplete(m);
    forall c | CurrentSpend(e, rules, txs, cur, c) > 0 || PrevSpend(e, rules, txs, cur, prev, c) > 0
      ensures NonZero(MakeRow(m, c)) && MakeRow(m, c).id == c
      ensures MakeRow(m, c).diff == CurrentSpend(e, rules, txs, cur, c) - PrevSpend(e, rules, txs, cur, prev, c)
    {
    }
  }

  lemma AllRowsShape(m: Maps)
    ensures UniqueBy(AllRows(m), RowId)
    ensures forall r :: r in AllRows(m) ==> r == MakeRow(m, r.id) && NonZero(r)
  {
    var cats := Distinct(KeySeq(m.current) + KeySeq(m.prev));
    var rows := seq(|cats|, i requires 0 <= i < |cats| => MakeRow(m, cats[i]));
    assert forall i :: 0 <= i < |rows| ==> RowId(rows[i]) == cats[i];
    FilterUnique(rows, NonZero, RowId);
    FilterMembers(rows, NonZero);
  }

  /** Every category with spending in either period has its row among the unranked rows. */
  lemma AllRowsComplete(m: Maps, c: string)
    requires NonZero(MakeRow(m, c))
    ensures MakeRow(m, c) in AllRows(m)
  {
    var keys := KeySeq(m.current) + KeySeq(m.prev);
    var cats := Distinct(keys);
    var rows := seq(|cats|, i requires 0 <= i < |cats| => MakeRow(m, cats[i]));
    if Get(m.current, c) > 0 {
      if !Has(m.current, c) {
        GetAbsent(m.current, c);
      }
      var i :| 0 <= i < |m.current| && m.current[i].key == c;
      assert keys[i] == c;
    } else {
      if !Has(m.prev, c) {
        GetAbsent(m.prev, c);
      }
      var i :| 0 <= i < |m.prev| && m.prev[i].key == c;
      assert keys[|m.current| + i] == c;
    }
    assert c in cats;
    var j :| 0 <= j < |cats| && cats[j] == c;
    assert rows[j] == MakeRow(m, c);
    FilterMembers(rows, NonZero);
  }

  /**
   * Fewer than five rows are shown only when every category with spending
   * is shown; a category with spending that is not shown grew no more than
   * any category that is.
   */
  lemma BuildRowsComplete(m: Maps)
    ensures var rows := BuildRows(m);
      && (|rows| < 5 ==> forall c :: NonZero(MakeRow(m, c)) ==> MakeRow(m, c) in rows)
      && (forall c, r :: NonZero(MakeRow(m, c)) && MakeRow(m, c) !in rows && r in rows ==> MakeRow(m, c).diff <= r.diff)
  {
    var all := AllRows(m);
    var rows := BuildRows(m);
    SortByMembers(all, DiffKey);
    BuildRowsDominates(m);
    forall c | NonZero(MakeRow(m, c))
      ensures |rows| < 5 ==> MakeRow(m, c) in rows
      ensures MakeRow(m, c) !in rows ==> MakeRow(m, c) in multiset(all) - multiset(rows)
    {
      AllRowsComplete(m, c);
      if |rows| < 5 {
        assert rows == SortBy(all, DiffKey);
      }
    }
  }

  /** Every row shown is a category's row from the unranked list. */
  lemma BuildRowsMembers(m: Maps)
    ensures forall r :: r in BuildRows(m) ==> r in AllRows(m)
  {
    var all := AllRows(m);
    var sorted := SortBy(all, DiffKey);
    SortByMembers(all, DiffKey);
    assert BuildRows(m) == sorted[..|BuildRows(m)|];
  }

  /**
   * The rows shown: the first five of the unranked rows (all of them when
   * there are fewer), one per category, ordered by non-increasing
   * difference; no row left out grew more than one that is shown.
   */
  lemma BuildRowsRanking(m: Maps)
    ensures var rows := BuildRows(m);
      && |rows| == Min(5, |AllRows(m)|)
      && UniqueBy(rows, RowId)
      && (forall i, j :: 0 <= i < j < |rows| ==> rows[i].diff >= rows[j].diff)
      && (forall r, x :: r in rows && x in multiset(AllRows(m)) - multiset(rows) ==> x.diff <= r.diff)
  {
    BuildRowsUnique(m);
    BuildRowsOrder(m);
    BuildRowsDominates(m);
  }

  lemma BuildRowsUnique(m: Maps)
    ensures UniqueBy(BuildRows(m), RowId)
  {
    var all := AllRows(m);
    var sorted := SortBy(all, DiffKey);
    AllRowsShape(m);
    SortByUnique(all, DiffKey, RowId);
    assert BuildRows(m) == sorted[..|BuildRows(m)|];
  }

  lemma BuildRowsOrder(m: Maps)
    ensures var rows := BuildRows(m);
      forall i, j :: 0 <= i < j < |rows| ==> rows[i].diff >= rows[j].diff
  {
    var sorted := SortBy(AllRows(m), DiffKey);
    var rows := BuildRows(m);
    SortBySorted(AllRows(m), DiffKey);
    assert rows == sorted[..|rows|];
    forall i, j | 0 <= i < j < |rows| ensures rows[i].diff >= rows[j].diff {
      assert DiffKey(sorted[i]) <= DiffKey(sorted[j]);
    }
  }

  lemma BuildRowsDominates(m: Maps)
    ensures var rows := BuildRows(m);
      forall r, x :: r in rows && x in multiset(AllRows(m)) - multiset(rows) ==> x.diff <= r.diff
  {
    var all := AllRows(m);
    var sorted := SortBy(all, DiffKey);
    var rows := BuildRows(m);
    SortBySorted(all, DiffKey);
    TakeSortedDominates(sorted, DiffKey, 5);
    forall r: Row, x: Row | r in rows && x in multiset(all) - multiset(rows) ensures x.diff <= r.diff {
      assert DiffKey(r) <= DiffKey(x);
    }
  }

  /**
   * Each row shown carries its category's two sums, their difference and the
   * growth percentage, and no row has nothing in both periods.
   */
  lemma BuildRowsContents(m: Maps)
    ensures forall r :: r in BuildRows(m) ==>
      && NonZero(r)
      && r.current == Get(m.current, r.id) && r.prev == Get(m.prev, r.id)
      && r.diff == r.current - r.prev && r.percent == Percent(r.current, r.prev)
  {
    AllRowsShape(m);
    BuildRowsMembers(m);
  }
}
