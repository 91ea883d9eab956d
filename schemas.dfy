/**
 * The record schemas (schema/schemas.ts): what a stored or submitted
 * tier, card, transaction, setting or category rule must satisfy, the
 * coercions applied to its fields and the defaults filled in for absent
 * ones. Each schema is a parse function from an untyped input value to
 * either the typed record or the list of fields that failed.
 */
module Schemas {
  import opened Wrappers
  import opened Ledger
  import opened CategoryRules

  /** An untyped input value: JSON, a form's values, or a `Date` object. */
  datatype Value =
    | Absent                          // `undefined`, and a key the object lacks
    | Null
    | Num(x: real)
    | Str(s: string)
    | Bool(b: bool)
    | When(d: Date)
    | List(items: seq<Value>)
    | Record(fields: map<string, Value>)

  /**
   * What the model takes from the host: `Number(text)` (None for NaN),
   * `new Date(x)` of a value that is not already a date (None for an
   * invalid date), and the schema library's UUID pattern.
   */
  datatype Host = Host(number: string -> Option<real>, date: Value -> Option<Date>, isUuid: string -> bool)

  /** `Number.MAX_SAFE_INTEGER`: `.int()` accepts only safe integers. */
  const MAX_SAFE_INTEGER: int := 9_007_199_254_740_991

  const NAME_MAX := 100
  const MERCHANT_MAX := 100
  const DESCRIPTION_MAX := 255

  /** Lines 31-35: the defaults of a setting. */
  const DEFAULT_START_DAY := 25
  const DEFAULT_GOAL := 100_000
  const DEFAULT_INCOME := 200_000

  predicate IsSafe(n: int) { -MAX_SAFE_INTEGER <= n <= MAX_SAFE_INTEGER }

  function FieldOf(v: Value, key: string): Value {
    if v.Record? && key in v.fields then v.fields[key] else Absent
  }

  /** The issue list entry for a field whose check failed. */
  function IssueIf<X>(key: string, o: Option<X>): seq<string> {
    if o.None? then [key] else []
  }

  // ---------------------------------------------------------------------
  // Field checks
  // ---------------------------------------------------------------------

  /** `z.number()` without coercion: only numbers pass. */
  function Exact(v: Value): Option<real> {
    if v.Num? then Some(v.x) else None
  }

  /**
   * `z.coerce.number()`: `Number(v)` first. `Number(undefined)` is NaN,
   * `Number(null)` is 0, a boolean is 0 or 1 and a date its milliseconds.
   */
  function Coerce(h: Host, v: Value): Option<real> {
    match v
    case Absent => None
    case Null => Some(0.0)
    case Num(x) => Some(x)
    case Str(s) => h.number(s)
    case Bool(b) => Some(if b then 1.0 else 0.0)
    case When(d) => Some(d.instant as real)
    case List(_) => None
    case Record(_) => None
  }

  /** `.int()`: a whole number within the safe range. */
  function SafeInt(x: Option<real>): (r: Option<int>)
    ensures r.Some? <==> x.Some? && x.value == x.value.Floor as real && IsSafe(x.value.Floor)
    ensures r.Some? ==> r.value as real == x.value
  {
    if x.Some? && x.value == x.value.Floor as real && IsSafe(x.value.Floor) then Some(x.value.Floor) else None
  }

  /** `.min(lo).max(hi)` on an integer that passed `.int()`. */
  function Between(n: Option<int>, lo: int, hi: int): (r: Option<int>)
    ensures r.Some? <==> n.Some? && lo <= n.value <= hi
    ensures r.Some? ==> r == n
  {
    if n.Some? && lo <= n.value <= hi then n else None
  }

  /** `z.string().max(n)`. */
  function ShortText(v: Value, n: nat): (r: Option<string>)
    ensures r.Some? <==> v.Str? && |v.s| <= n
    ensures r.Some? ==> r.value == v.s
  {
    if v.Str? && |v.s| <= n then Some(v.s) else None
  }

  function AnyText(v: Value): Option<string> {
    if v.Str? then Some(v.s) else None
  }

  /** `z.uuid()`. */
  function Uuid(h: Host, v: Value): Option<string> {
    if v.Str? && h.isUuid(v.s) then Some(v.s) else None
  }

  /** `z.coerce.date()`: a date is kept, anything else goes through `new Date(…)`. */
  function CoerceDate(h: Host, v: Value): Option<Date> {
    if v.When? then Some(v.d) else h.date(v)
  }

  /** `.default(d)` in front of `z.coerce.number().int()`: an absent field takes the default. */
  function IntOrDefault(h: Host, v: Value, d: int): Option<int> {
    if v.Absent? then Some(d) else SafeInt(Coerce(h, v))
  }

  // ---------------------------------------------------------------------
  // What a valid record is
  // ---------------------------------------------------------------------

  /** Line 5: a tier's amount is a non-negative safe integer. */
  predicate ValidTier(t: Tier) { 0 <= t.amount <= MAX_SAFE_INTEGER }

  /** Lines 10-17. */
  predicate ValidCard(h: Host, c: Card) {
    && h.isUuid(c.id)
    && |c.name| <= NAME_MAX
    && 0 <= c.limit <= MAX_SAFE_INTEGER
    && 1 <= c.dueDay <= 31
    && forall i :: 0 <= i < |c.performance| ==> ValidTier(c.performance[i])
  }

  /** Lines 21-28: the amount may have either sign. */
  predicate ValidTransaction(h: Host, t: Transaction) {
    && h.isUuid(t.id)
    && |t.merchant| <= MERCHANT_MAX
    && IsSafe(t.amount)
    && h.isUuid(t.cardId)
    && (t.description.Some? ==> |t.description.value| <= DESCRIPTION_MAX)
  }

  /** Lines 31-35. */
  predicate ValidSetting(s: Setting) {
    && 1 <= s.startDayOfMonth <= 28
    && 0 <= s.goalSpending <= MAX_SAFE_INTEGER
    && 0 <= s.income <= MAX_SAFE_INTEGER
  }

  // ---------------------------------------------------------------------
  // The schemas
  // ---------------------------------------------------------------------

  /** Lines 4-7: `PerformanceTier`. */
  function ParseTier(h: Host, v: Value): (r: Result<Tier, seq<string>>)
    ensures r.Success? ==> ValidTier(r.value)
    ensures r.Failure? ==> |r.error| > 0
  {
    if !v.Record? then Failure([""])
    else
      var amount := Between(SafeInt(Coerce(h, FieldOf(v, "amount"))), 0, MAX_SAFE_INTEGER);
      var benefit := AnyText(FieldOf(v, "benefit"));
      var issues := IssueIf("amount", amount) + IssueIf("benefit", benefit);
      if issues == [] then Success(Tier(amount.value, benefit.value)) else Failure(issues)
  }

  /** `z.array(PerformanceTier)`: every element must parse; a failure lists the elements that did not. */
  function ParseTiers(h: Host, items: seq<Value>): (r: Result<seq<Tier>, seq<nat>>)
    ensures r.Success? ==> |r.value| == |items| && forall i :: 0 <= i < |items| ==> ParseTier(h, items[i]) == Success(r.value[i])
    ensures r.Failure? ==> |r.error| > 0
    ensures r.Failure? ==> forall k :: 0 <= k < |r.error| ==> r.error[k] < |items| && ParseTier(h, items[r.error[k]]).Failure?
    decreases |items|
  {
    if |items| == 0 then Success([])
    else
      var last := |items| - 1;
      match (ParseTiers(h, items[..last]), ParseTier(h, items[last]))
      case (Success(ts), Success(t)) => Success(ts + [t])
      case (Success(_), Failure(_)) => Failure([last])
      case (Failure(e), Success(_)) => Failure(e)
      case (Failure(e), Failure(_)) => Failure(e + [last])
  }

  /** Lines 10-17: `Card`, with `performance` defaulting to no tiers. */
  function ParseCard(h: Host, v: Value): (r: Result<Card, seq<string>>)
    ensures r.Success? ==> ValidCard(h, r.value)
    ensures r.Failure? ==> |r.error| > 0
  {
    if !v.Record? then Failure([""])
    else
      var id := Uuid(h, FieldOf(v, "id"));
      var name := ShortText(FieldOf(v, "name"), NAME_MAX);
      var limit := Between(SafeInt(Exact(FieldOf(v, "limit"))), 0, MAX_SAFE_INTEGER);
      var dueDay := Between(SafeInt(Exact(FieldOf(v, "dueDay"))), 1, 31);
      var tiers := PerformanceOf(h, FieldOf(v, "performance"));
      var issues := IssueIf("id", id) + IssueIf("name", name) + IssueIf("limit", limit)
        + IssueIf("dueDay", dueDay) + IssueIf("performance", tiers);
      if issues == [] then Success(Card(id.value, name.value, limit.value, dueDay.value, tiers.value))
      else Failure(issues)
  }

  /** Line 16: `z.array(PerformanceTier).default([])`. */
  function PerformanceOf(h: Host, v: Value): (r: Option<seq<Tier>>)
    ensures r.Some? ==> forall i :: 0 <= i < |r.value| ==> ValidTier(r.value[i])
    ensures v.Absent? ==> r == Some([])
  {
    match v
    case Absent => Some([])
    case List(items) =>
      (match ParseTiers(h, items)
       case Success(ts) => Some(ts)
       case Failure(_) => None)
    case _ => None
  }

  /** Lines 21-28: `Transaction`; `description` may be left out. */
  function ParseTransaction(h: Host, v: Value): (r: Result<Transaction, seq<string>>)
    ensures r.Success? ==> ValidTransaction(h, r.value)
    ensures r.Failure? ==> |r.error| > 0
  {
    if !v.Record? then Failure([""])
    else
      var id := Uuid(h, FieldOf(v, "id"));
      var date := CoerceDate(h, FieldOf(v, "date"));
      var merchant := ShortText(FieldOf(v, "merchant"), MERCHANT_MAX);
      var amount := SafeInt(Coerce(h, FieldOf(v, "amount")));
      var cardId := Uuid(h, FieldOf(v, "card_id"));
      var description := DescriptionOf(FieldOf(v, "description"));
      var issues := IssueIf("id", id) + IssueIf("date", date) + IssueIf("merchant", merchant)
        + IssueIf("amount", amount) + IssueIf("card_id", cardId) + IssueIf("description", description);
      if issues == [] then Success(Transaction(id.value, date.value, merchant.value, amount.value, cardId.value, description.value))
      else Failure(issues)
  }

  /** Line 27: `z.string().max(255).optional()`; `undefined` passes, `null` does not. */
  function DescriptionOf(v: Value): (r: Option<Option<string>>)
    ensures r.Some? && r.value.Some? ==> |r.value.value| <= DESCRIPTION_MAX
    ensures r == Some(None) <==> v.Absent?
  {
    if v.Absent? then Some(None)
    else match ShortText(v, DESCRIPTION_MAX)
      case Some(s) => Some(Some(s))
      case None => None
  }

  /** Lines 31-35: `Setting`, every field with a default. */
  function ParseSetting(h: Host, v: Value): (r: Result<Setting, seq<string>>)
    ensures r.Success? ==> ValidSetting(r.value)
    ensures r.Failure? ==> |r.error| > 0
  {
    if !v.Record? then Failure([""])
    else
      var start := Between(IntOrDefault(h, FieldOf(v, "startDayOfMonth"), DEFAULT_START_DAY), 1, 28);
      var goal := Between(IntOrDefault(h, FieldOf(v, "goalSpending"), DEFAULT_GOAL), 0, MAX_SAFE_INTEGER);
      var income := Between(IntOrDefault(h, FieldOf(v, "income"), DEFAULT_INCOME), 0, MAX_SAFE_INTEGER);
      var issues := IssueIf("startDayOfMonth", start) + IssueIf("goalSpending", goal) + IssueIf("income", income);
      if issues == [] then Success(Setting(start.value, goal.value, income.value)) else Failure(issues)
  }

  /** Lines 38-44: `CategoryRule`; the sub-category is a string or `null`. */
  function ParseRule(v: Value): (r: Result<Rule, seq<string>>)
    ensures r.Failure? ==> |r.error| > 0
    ensures r.Success? ==> (r.value.subCategoryId.None? <==> FieldOf(v, "subCategoryId").Null?)
  {
    if !v.Record? then Failure([""])
    else
      var id := AnyText(FieldOf(v, "id"));
      var pattern := AnyText(FieldOf(v, "pattern"));
      var categoryId := AnyText(FieldOf(v, "categoryId"));
      var sub := SubCategoryOf(FieldOf(v, "subCategoryId"));
      var active := FieldOf(v, "active");
      var activeOk := if active.Bool? then Some(active.b) else None;
      var issues := IssueIf("id", id) + IssueIf("pattern", pattern) + IssueIf("categoryId", categoryId)
        + IssueIf("subCategoryId", sub) + IssueIf("active", activeOk);
      if issues == [] then Success(Rule(id.value, pattern.value, categoryId.value, sub.value, activeOk.value))
      else Failure(issues)
  }

  /** `z.string().nullable()`: `null` passes, `undefined` does not. */
  function SubCategoryOf(v: Value): (r: Option<Option<string>>)
    ensures r == Some(None) <==> v.Null?
    ensures r.Some? && r.value.Some? <==> v.Str?
  {
    match v
    case Null => Some(None)
    case Str(s) => Some(Some(s))
    case _ => None
  }

  // ---------------------------------------------------------------------
  // Storing a record, and reading it back
  // ---------------------------------------------------------------------

  function TierValue(t: Tier): Value {
    Record(map["amount" := Num(t.amount as real), "benefit" := Str(t.benefit)])
  }

  function TiersValue(ts: seq<Tier>): seq<Value>
    decreases |ts|
  {
    if |ts| == 0 then [] else TiersValue(ts[..|ts| - 1]) + [TierValue(ts[|ts| - 1])]
  }

  function CardValue(c: Card): Value {
    Record(map[
      "id" := Str(c.id), "name" := Str(c.name), "limit" := Num(c.limit as real),
      "dueDay" := Num(c.dueDay as real), "performance" := List(TiersValue(c.performance))])
  }

  /** A transaction as stored; an absent description leaves the key out. */
  function TransactionValue(t: Transaction): Value {
    var fields := map[
      "id" := Str(t.id), "date" := When(t.date), "merchant" := Str(t.merchant),
      "amount" := Num(t.amount as real), "card_id" := Str(t.cardId)];
    Record(if t.description.Some? then fields["description" := Str(t.description.value)] else fields)
  }

  function SettingValue(s: Setting): Value {
    Record(map[
      "startDayOfMonth" := Num(s.startDayOfMonth as real),
      "goalSpending" := Num(s.goalSpending as real),
      "income" := Num(s.income as real)])
  }

  function RuleValue(r: Rule): Value {
    Record(map[
      "id" := Str(r.id), "pattern" := Str(r.pattern), "categoryId" := Str(r.categoryId),
      "subCategoryId" := (if r.subCategoryId.Some? then Str(r.subCategoryId.value) else Null),
      "active" := Bool(r.active)])
  }

  lemma SafeIntOfInt(n: int)
    ensures SafeInt(Some(n as real)) == if IsSafe(n) then Some(n) else None
  {
    assert (n as real).Floor == n;
  }

  /** A tier reads back as itself exactly when it is valid. */
  lemma TierRoundTrip(h: Host, t: Tier)
    ensures ParseTier(h, TierValue(t)) == Success(t) <==> ValidTier(t)
    ensures !ValidTier(t) ==> ParseTier(h, TierValue(t)) == Failure(["amount"])
  {
    var v := TierValue(t);
    assert FieldOf(v, "amount") == Num(t.amount as real);
    assert FieldOf(v, "benefit") == Str(t.benefit);
    SafeIntOfInt(t.amount);
    if !ValidTier(t) {
      assert ["amount"] + [] == ["amount"];
    }
  }

  lemma TiersRoundTrip(h: Host, ts: seq<Tier>)
    ensures ParseTiers(h, TiersValue(ts)) == Success(ts) <==> forall i :: 0 <= i < |ts| ==> ValidTier(ts[i])
  {
    if forall i :: 0 <= i < |ts| ==> ValidTier(ts[i]) {
      ValidTiersRead(h, ts);
    }
    if ParseTiers(h, TiersValue(ts)) == Success(ts) {
      TiersLength(ts);
      forall i | 0 <= i < |ts| ensures ValidTier(ts[i]) {
        assert ParseTier(h, TiersValue(ts)[i]) == Success(ts[i]);
      }
    }
  }

  lemma {:induction false} ValidTiersRead(h: Host, ts: seq<Tier>)
    requires forall i :: 0 <= i < |ts| ==> ValidTier(ts[i])
    ensures ParseTiers(h, TiersValue(ts)) == Success(ts)
    decreases |ts|
  {
    if |ts| > 0 {
      var last := |ts| - 1;
      var vs := TiersValue(ts);
      TiersLength(ts);
      assert vs[..last] == TiersValue(ts[..last]);
      assert vs[last] == TierValue(ts[last]);
      ValidTiersRead(h, ts[..last]);
      TierRoundTrip(h, ts[last]);
      assert ts[..last] + [ts[last]] == ts;
    }
  }

  lemma {:induction false} TiersLength(ts: seq<Tier>)
    ensures |TiersValue(ts)| == |ts|
    decreases |ts|
  {
    if |ts| > 0 {
      TiersLength(ts[..|ts| - 1]);
    }
  }

  /** A card reads back as itself exactly when it is valid. */
  lemma CardRoundTrip(h: Host, c: Card)
    ensures ParseCard(h, CardValue(c)) == Success(c) <==> ValidCard(h, c)
  {
    var v := CardValue(c);
    assert FieldOf(v, "id") == Str(c.id);
    assert FieldOf(v, "name") == Str(c.name);
    assert FieldOf(v, "limit") == Num(c.limit as real);
    assert FieldOf(v, "dueDay") == Num(c.dueDay as real);
    assert FieldOf(v, "performance") == List(TiersValue(c.performance));
    SafeIntOfInt(c.limit);
    SafeIntOfInt(c.dueDay);
    TiersRoundTrip(h, c.performance);
  }

  /** A transaction reads back as itself exactly when it is valid. */
  lemma TransactionRoundTrip(h: Host, t: Transaction)
    ensures ParseTransaction(h, TransactionValue(t)) == Success(t) <==> ValidTransaction(h, t)
  {
    var v := TransactionValue(t);
    assert FieldOf(v, "id") == Str(t.id);
    assert FieldOf(v, "date") == When(t.date);
    assert FieldOf(v, "merchant") == Str(t.merchant);
    assert FieldOf(v, "amount") == Num(t.amount as real);
    assert FieldOf(v, "card_id") == Str(t.cardId);
    assert FieldOf(v, "description") == if t.description.Some? then Str(t.description.value) else Absent;
    SafeIntOfInt(t.amount);
  }

  /** A setting reads back as itself exactly when it is valid. */
  lemma SettingRoundTrip(h: Host, s: Setting)
    ensures ParseSetting(h, SettingValue(s)) == Success(s) <==> ValidSetting(s)
  {
    var v := SettingValue(s);
    assert FieldOf(v, "startDayOfMonth") == Num(s.startDayOfMonth as real);
    assert FieldOf(v, "goalSpending") == Num(s.goalSpending as real);
    assert FieldOf(v, "income") == Num(s.income as real);
    SafeIntOfInt(s.startDayOfMonth);
    SafeIntOfInt(s.goalSpending);
    SafeIntOfInt(s.income);
  }

  /** Every rule reads back as itself: the rule schema has no constraint beyond its field types. */
  lemma RuleRoundTrip(r: Rule)
    ensures ParseRule(RuleValue(r)) == Success(r)
  {
    var v := RuleValue(r);
    assert FieldOf(v, "id") == Str(r.id);
    assert FieldOf(v, "pattern") == Str(r.pattern);
    assert FieldOf(v, "categoryId") == Str(r.categoryId);
    assert FieldOf(v, "subCategoryId") == if r.subCategoryId.Some? then Str(r.subCategoryId.value) else Null;
    assert FieldOf(v, "active") == Bool(r.active);
  }

  /**
   * Lines 31-35: an empty object parses to the defaults, and the defaults
   * satisfy the constraints; any field left out takes its default.
   */
  lemma SettingDefaults(h: Host, v: Value)
    requires v.Record?
    ensures ParseSetting(h, Record(map[])) == Success(Setting(DEFAULT_START_DAY, DEFAULT_GOAL, DEFAULT_INCOME))
    ensures ValidSetting(Setting(DEFAULT_START_DAY, DEFAULT_GOAL, DEFAULT_INCOME))
    ensures ParseSetting(h, v).Success? && "startDayOfMonth" !in v.fields ==> ParseSetting(h, v).value.startDayOfMonth == DEFAULT_START_DAY
    ensures ParseSetting(h, v).Success? && "goalSpending" !in v.fields ==> ParseSetting(h, v).value.goalSpending == DEFAULT_GOAL
    ensures ParseSetting(h, v).Success? && "income" !in v.fields ==> ParseSetting(h, v).value.income == DEFAULT_INCOME
  {
    assert FieldOf(Record(map[]), "startDayOfMonth") == Absent;
  }

  /**
   * Coercion edge cases of `z.coerce.number()`: a `null` start day is 0 and
   * fails the minimum, while a `null` goal is 0 and passes.
   */
  lemma NullCoercesToZero(h: Host)
    ensures ParseSetting(h, Record(map["startDayOfMonth" := Null])) == Failure(["startDayOfMonth"])
    ensures ParseSetting(h, Record(map["goalSpending" := Null])) == Success(Setting(DEFAULT_START_DAY, 0, DEFAULT_INCOME))
  {
    SafeIntOfInt(0);
    assert ["startDayOfMonth"] + [] + [] == ["startDayOfMonth"];
    assert FieldOf(Record(map["startDayOfMonth" := Null]), "startDayOfMonth") == Null;
    assert FieldOf(Record(map["startDayOfMonth" := Null]), "goalSpending") == Absent;
    assert FieldOf(Record(map["startDayOfMonth" := Null]), "income") == Absent;
    assert FieldOf(Record(map["goalSpending" := Null]), "goalSpending") == Null;
    assert FieldOf(Record(map["goalSpending" := Null]), "startDayOfMonth") == Absent;
    assert FieldOf(Record(map["goalSpending" := Null]), "income") == Absent;
  }

  /**
   * Line 13: a card's limit is not coerced; the text of a number is
   * refused where a tier amount (line 5) would accept it.
   */
  lemma LimitNotCoerced(h: Host, v: Value, text: string)
    requires v.Record? && FieldOf(v, "limit") == Str(text)
    ensures ParseCard(h, v).Failure? && "limit" in ParseCard(h, v).error
  {
  }
}
