/**
 * The category-rule manager: an ordered list of regular-expression rules,
 * classified first-match-wins, with rules added at the front and deleted
 * by id (app/category-manager/page.tsx).
 */
module CategoryRules {
  import opened Wrappers
  import opened Seqs

  /**
   * The JavaScript regular-expression engine, reduced to the two questions
   * the code asks of it: does `new RegExp(pattern)` succeed, and does the
   * case-insensitive `new RegExp(pattern, 'i').test(subject)` hold.
   */
  datatype RegexEngine = RegexEngine(compiles: string -> bool, matches: (string, string) -> bool)

  /** A stored rule; `subCategoryId == None` is the JSON `null`. */
  datatype Rule = Rule(
    id: string,
    pattern: string,
    categoryId: string,
    subCategoryId: Option<string>,
    active: bool)

  /** `simulationResult`: `null`, `{matched: false}` or `{matched: true, rule}`. */
  datatype Simulation = NoMerchant | Unmatched | Matched(rule: Rule)

  /** The body of the scan: the pattern compiles (else `continue`) and tests true. */
  predicate RuleMatches(e: RegexEngine, r: Rule, merchant: string) {
    e.compiles(r.pattern) && e.matches(r.pattern, merchant)
  }

  /** `validateRegex`: whether `new RegExp(pattern)` does not throw. */
  predicate ValidateRegex(e: RegexEngine, pattern: string) {
    e.compiles(pattern)
  }

  /**
   * The position of the first rule, in list order, whose pattern compiles and
   * matches; no rule before it matches, and `None` means no rule matches.
   */
  function FirstMatch(e: RegexEngine, rules: seq<Rule>, merchant: string): (r: Option<nat>)
    ensures r.Some? ==> r.value < |rules| && RuleMatches(e, rules[r.value], merchant)
    ensures forall j :: 0 <= j < |rules| && (r.None? || j < r.value) ==> !RuleMatches(e, rules[j], merchant)
  {
    if rules == [] then None
    else if RuleMatches(e, rules[0], merchant) then Some(0)
    else
      match FirstMatch(e, rules[1..], merchant)
      case None => None
      case Some(i) => Some(i + 1)
  }

  /** What the rule simulator shows for `merchant`. */
  function Classify(e: RegexEngine, rules: seq<Rule>, merchant: string): Simulation {
    if merchant == "" then NoMerchant
    else
      match FirstMatch(e, rules, merchant)
      case None => Unmatched
      case Some(i) => Matched(rules[i])
  }

  /** `simulationResult`: the `for…of` scan with early return and `continue` on a bad pattern. */
  method Simulate(e: RegexEngine, rules: seq<Rule>, testMerchant: string) returns (r: Simulation)
    ensures r == Classify(e, rules, testMerchant)
    ensures r.Matched? ==> r.rule in rules && RuleMatches(e, r.rule, testMerchant)
    ensures r == Unmatched <==> testMerchant != "" && forall j :: 0 <= j < |rules| ==> !RuleMatches(e, rules[j], testMerchant)
  {
    if testMerchant == "" {
      return NoMerchant;
    }
    for i := 0 to |rules|
      invariant forall j :: 0 <= j < i ==> !RuleMatches(e, rules[j], testMerchant)
    {
      var rule := rules[i];
      if !e.compiles(rule.pattern) {
        continue;
      }
      if e.matches(rule.pattern, testMerchant) {
        return Matched(rule);
      }
    }
    return Unmatched;
  }

  /** Only the patterns and their order matter: ids, categories and `active` are never consulted. */
  lemma {:induction false} FirstMatchReadsOnlyPatterns(e: RegexEngine, a: seq<Rule>, b: seq<Rule>, merchant: string)
    requires |a| == |b|
    requires forall i :: 0 <= i < |a| ==> a[i].pattern == b[i].pattern
    ensures FirstMatch(e, a, merchant) == FirstMatch(e, b, merchant)
  {
    if a != [] {
      FirstMatchReadsOnlyPatterns(e, a[1..], b[1..], merchant);
    }
  }

  /** A rule whose pattern does not compile is skipped: removing it changes nothing. */
  lemma InvalidRuleIsSkipped(e: RegexEngine, rules: seq<Rule>, k: nat, merchant: string)
    requires k < |rules| && !e.compiles(rules[k].pattern)
    ensures Classify(e, rules[..k] + rules[k + 1..], merchant) == Classify(e, rules, merchant)
  {
    InvalidRuleSkippedMatch(e, rules, k, merchant);
  }

  /** Without the rule at `k`, the first match is the same rule, or there is none in both. */
  lemma {:induction false} InvalidRuleSkippedMatch(e: RegexEngine, rules: seq<Rule>, k: nat, merchant: string)
    requires k < |rules| && !e.compiles(rules[k].pattern)
    ensures var rest := rules[..k] + rules[k + 1..];
      var a, b := FirstMatch(e, rest, merchant), FirstMatch(e, rules, merchant);
      && a.None? == b.None?
      && (a.Some? ==> rest[a.value] == rules[b.value])
  {
    var rest := rules[..k] + rules[k + 1..];
    if k == 0 {
      assert rest == rules[1..];
      SkipFirst(e, rules, merchant);
    } else if RuleMatches(e, rules[0], merchant) {
      assert rest[0] == rules[0];
    } else {
      var tail := rules[1..];
      InvalidRuleSkippedMatch(e, tail, k - 1, merchant);
      assert rest[0] == rules[0];
      assert rest[1..] == tail[..k - 1] + tail[k..];
      SkipFirst(e, rules, merchant);
      SkipFirst(e, rest, merchant);
    }
  }

  /** Past a first rule that does not match, the first match is found one position later in the tail. */
  lemma SkipFirst(e: RegexEngine, rules: seq<Rule>, merchant: string)
    requires rules != [] && !RuleMatches(e, rules[0], merchant)
    ensures var a, b := FirstMatch(e, rules, merchant), FirstMatch(e, rules[1..], merchant);
      && a.None? == b.None?
      && (a.Some? ==> a.value == b.value + 1 && rules[a.value] == rules[1..][b.value])
  {
  }

  /** A rule added at the front takes priority over every older rule. */
  lemma PrependedRuleWins(e: RegexEngine, r: Rule, rules: seq<Rule>, merchant: string)
    requires merchant != "" && RuleMatches(e, r, merchant)
    ensures Classify(e, [r] + rules, merchant) == Matched(r)
  {
  }

  /** A rule added at the front that does not match leaves every classification as it was. */
  lemma {:induction false} PrependedRuleMisses(e: RegexEngine, r: Rule, rules: seq<Rule>, merchant: string)
    requires !RuleMatches(e, r, merchant)
    ensures Classify(e, [r] + rules, merchant) == Classify(e, rules, merchant)
  {
    assert ([r] + rules)[1..] == rules;
  }

  /** `rules.filter(r => r.id !== id)`. */
  function RemoveId(rules: seq<Rule>, id: string): seq<Rule> {
    Filter(rules, (r: Rule) => r.id != id)
  }

  /** Deleting removes exactly the rules with that id; every other rule keeps its multiplicity. */
  lemma RemoveIdExact(rules: seq<Rule>, id: string)
    ensures forall r: Rule :: r in RemoveId(rules, id) ==> r.id != id
    ensures forall r: Rule :: r.id != id ==> multiset(RemoveId(rules, id))[r] == multiset(rules)[r]
  {
    FilterMultiset(rules, (r: Rule) => r.id != id);
    forall r | r in RemoveId(rules, id) ensures r.id != id {
      assert r in multiset(RemoveId(rules, id));
    }
  }

  /**
   * Deleting keeps the relative order of the rest: it works piece by piece
   * over a split list, and a single rule survives exactly when its id differs.
   */
  lemma RemoveIdKeepsOrder(a: seq<Rule>, b: seq<Rule>, id: string)
    ensures RemoveId(a + b, id) == RemoveId(a, id) + RemoveId(b, id)
    ensures forall r: Rule :: RemoveId([r], id) == if r.id == id then [] else [r]
  {
    FilterConcat(a, b, (r: Rule) => r.id != id);
    forall r: Rule ensures RemoveId([r], id) == if r.id == id then [] else [r] {
      assert [r][..0] == [];
    }
  }

  /** After a delete, no rule with the deleted id can classify a merchant. */
  lemma DeletedRuleNeverMatches(e: RegexEngine, rules: seq<Rule>, id: string, merchant: string)
    ensures Classify(e, RemoveId(rules, id), merchant).Matched? ==>
              Classify(e, RemoveId(rules, id), merchant).rule.id != id
  {
    RemoveIdExact(rules, id);
  }

  datatype SubCategory = SubCategory(id: string, name: string)
  datatype Category = Category(id: string, name: string, sub: seq<SubCategory>)

  /** The fixed category table the manager offers. */
  const CATEGORIES: seq<Category> := [
    Category("cat_food", "식비", [SubCategory("sub_groceries", "장보기"), SubCategory("sub_dining", "외식")]),
    Category("cat_transport", "교통/차량", [SubCategory("sub_public", "대중교통"), SubCategory("sub_taxi", "택시")]),
    Category("cat_shopping", "쇼핑", [
      SubCategory("sub_necessary", "생필품"), SubCategory("sub_habit", "취미"),
      SubCategory("sub_unnecessary", "사치품"), SubCategory("sub_present", "선물")]),
    Category("cat_fixed", "고정지출", [
      SubCategory("sub_youtube", "유튜브 구독"), SubCategory("sub_coupang", "쿠팡멤버쉽"),
      SubCategory("sub_baemin", "배민"), SubCategory("sub_chatgpt", "ChatGPT"),
      SubCategory("sub_googledrive", "구글드라이브"), SubCategory("sub_etc", "기타 구독")])
  ]

  /** `CATEGORIES.find(c => c.id === id)`. */
  function FindCategory(cats: seq<Category>, id: string): (r: Option<Category>)
    ensures r.Some? ==> r.value in cats && r.value.id == id
    ensures r.None? ==> forall c :: c in cats ==> c.id != id
  {
    if cats == [] then None
    else if cats[0].id == id then Some(cats[0])
    else FindCategory(cats[1..], id)
  }

  /** `cat.sub.find(s => s.id === subId)`. */
  function FindSub(subs: seq<SubCategory>, id: string): (r: Option<SubCategory>)
    ensures r.Some? ==> r.value in subs && r.value.id == id
    ensures r.None? ==> forall s :: s in subs ==> s.id != id
  {
    if subs == [] then None
    else if subs[0].id == id then Some(subs[0])
    else FindSub(subs[1..], id)
  }

  /** The display name of a category: its table name, or the raw id when unknown (or nameless). */
  function GetCategoryName(id: string): (r: string)
    ensures FindCategory(CATEGORIES, id).None? ==> r == id
    ensures FindCategory(CATEGORIES, id).Some? && FindCategory(CATEGORIES, id).value.name != "" ==>
              r == FindCategory(CATEGORIES, id).value.name
  {
    match FindCategory(CATEGORIES, id)
    case Some(c) => if c.name != "" then c.name else id
    case None => id
  }

  /** The display name of a subcategory; a null or empty id shows as the empty string. */
  function GetSubCategoryName(catId: string, subId: Option<string>): (r: string)
    ensures subId.None? || subId.value == "" ==> r == ""
    ensures subId.Some? && subId.value != "" ==>
              forall c, s :: c in CATEGORIES && c.id == catId && s in c.sub && s.id == subId.value ==>
                r == if s.name != "" then s.name else subId.value
    ensures subId.Some? && subId.value != "" &&
            (forall c :: c in CATEGORIES && c.id == catId ==> forall s :: s in c.sub ==> s.id != subId.value) ==>
              r == subId.value
  {
    if subId.None? || subId.value == "" then ""
    else
      var cat := FindCategory(CATEGORIES, catId);
      var found := if cat.Some? then FindSub(cat.value.sub, subId.value) else None;
      TableIdsUnique();
      FindSubName(CATEGORIES, catId, subId.value);
      if found.Some? && found.value.name != "" then found.value.name else subId.value
  }

  /** No two categories share an id. */
  predicate UniqueCategoryIds(cats: seq<Category>) {
    forall i, j :: 0 <= i < j < |cats| ==> cats[i].id != cats[j].id
  }

  /** No two subcategories share an id. */
  predicate UniqueSubIds(subs: seq<SubCategory>) {
    forall i, j :: 0 <= i < j < |subs| ==> subs[i].id != subs[j].id
  }

  /** The category table has unique ids, and so has each category's subcategory list. */
  lemma TableIdsUnique()
    ensures UniqueCategoryIds(CATEGORIES)
    ensures forall c :: c in CATEGORIES ==> UniqueSubIds(c.sub)
  {
    CategoryIdsUnique();
    forall c | c in CATEGORIES ensures UniqueSubIds(c.sub) {
      var k :| 0 <= k < |CATEGORIES| && CATEGORIES[k] == c;
      SubIdsUnique(k);
    }
  }

  lemma CategoryIdsUnique()
    ensures UniqueCategoryIds(CATEGORIES)
  {
  }

  lemma SubIdsUnique(k: int)
    requires 0 <= k < |CATEGORIES|
    ensures UniqueSubIds(CATEGORIES[k].sub)
  {
    if k == 0 {
      assert UniqueSubIds(CATEGORIES[0].sub);
    } else if k == 1 {
      assert UniqueSubIds(CATEGORIES[1].sub);
    } else if k == 2 {
      assert UniqueSubIds(CATEGORIES[2].sub);
    } else {
      assert UniqueSubIds(CATEGORIES[3].sub);
    }
  }

  /** With unique ids, `find` by id returns the one category that has it. */
  lemma {:induction false} FindCategoryUnique(cats: seq<Category>, id: string, c: Category)
    requires UniqueCategoryIds(cats) && c in cats && c.id == id
    ensures FindCategory(cats, id) == Some(c)
  {
    var k :| 0 <= k < |cats| && cats[k] == c;
    if k != 0 {
      assert cats[0].id != cats[k].id;
      assert cats[1..][k - 1] == c;
      FindCategoryUnique(cats[1..], id, c);
    }
  }

  /** With unique ids, `find` by id returns the one subcategory that has it. */
  lemma {:induction false} FindSubUnique(subs: seq<SubCategory>, id: string, s: SubCategory)
    requires UniqueSubIds(subs) && s in subs && s.id == id
    ensures FindSub(subs, id) == Some(s)
  {
    var k :| 0 <= k < |subs| && subs[k] == s;
    if k != 0 {
      assert subs[0].id != subs[k].id;
      assert subs[1..][k - 1] == s;
      FindSubUnique(subs[1..], id, s);
    }
  }

  /** With unique ids at both levels, the lookup finds the subcategory that has both ids. */
  lemma FindSubName(cats: seq<Category>, catId: string, subId: string)
    requires UniqueCategoryIds(cats) && forall c :: c in cats ==> UniqueSubIds(c.sub)
    ensures forall c, s :: c in cats && c.id == catId && s in c.sub && s.id == subId ==>
              FindCategory(cats, catId) == Some(c) && FindSub(c.sub, subId) == Some(s)
  {
    forall c, s | c in cats && c.id == catId && s in c.sub && s.id == subId
      ensures FindCategory(cats, catId) == Some(c) && FindSub(c.sub, subId) == Some(s)
    {
      FindCategoryUnique(cats, catId, c);
      FindSubUnique(c.sub, subId, s);
    }
  }

  /** The subcategories offered for the selected category (`availableSubCats`). */
  function AvailableSubCats(selectedCat: string): (r: seq<SubCategory>)
    ensures FindCategory(CATEGORIES, selectedCat).None? ==> r == []
    ensures FindCategory(CATEGORIES, selectedCat).Some? ==> r == FindCategory(CATEGORIES, selectedCat).value.sub
    ensures forall c :: c in CATEGORIES && c.id == selectedCat ==> r == c.sub
  {
    match FindCategory(CATEGORIES, selectedCat)
    case Some(c) => c.sub
    case None => []
  }

  /** The new rule `handleAddRule` builds: active, and a null subcategory when none is chosen. */
  function NewRule(id: string, pattern: string, cat: string, subCat: string): (r: Rule)
    ensures r.active && r.pattern == pattern && r.categoryId == cat && r.id == id
    ensures r.subCategoryId == (if subCat == "" then None else Some(subCat))
  {
    Rule(id, pattern, cat, if subCat == "" then None else Some(subCat), true)
  }

  /**
   * The rule list after `saveRulesToApi(newRules)`: the new list is shown at
   * once; when the save fails, `fetchRules` rolls back to the server's list
   * (`reloaded`), and when that fetch fails too the new list stays.
   */
  function AfterSave(newRules: seq<Rule>, saved: bool, reloaded: Option<seq<Rule>>): seq<Rule> {
    if !saved && reloaded.Some? then reloaded.value else newRules
  }

  /**
   * The manager's component state: the rule list (replaced, never patched),
   * the add-rule form and the simulator's test merchant.
   */
  class RuleManager {
    var rules: seq<Rule>
    var patternInput: string
    var selectedCat: string
    var selectedSubCat: string
    var isRegexValid: bool
    var testMerchant: string

    constructor ()
      ensures rules == [] && patternInput == "" && selectedCat == "" && selectedSubCat == ""
      ensures isRegexValid && testMerchant == "Gangnam Starbucks 001"
    {
      rules := [];
      patternInput, selectedCat, selectedSubCat := "", "", "";
      isRegexValid := true;
      testMerchant := "Gangnam Starbucks 001";
    }

    /** `handlePatternChange`: stores the text and whether it compiles. */
    method ChangePattern(e: RegexEngine, val: string)
      modifies this
      ensures patternInput == val && isRegexValid == ValidateRegex(e, val)
      ensures rules == old(rules) && selectedCat == old(selectedCat) && selectedSubCat == old(selectedSubCat)
      ensures testMerchant == old(testMerchant)
    {
      patternInput := val;
      isRegexValid := ValidateRegex(e, val);
    }

    /** Choosing a category clears the chosen subcategory. */
    method SelectCategory(cat: string)
      modifies this
      ensures selectedCat == cat && selectedSubCat == ""
      ensures rules == old(rules) && patternInput == old(patternInput) && isRegexValid == old(isRegexValid)
      ensures testMerchant == old(testMerchant)
    {
      selectedCat := cat;
      selectedSubCat := "";
    }

    /**
     * `handleAddRule`: when the form is complete and the pattern valid, puts the
     * new rule (with the fresh `newId`) at the front, saves the list and
     * clears the form; otherwise changes nothing. `saved` is whether the
     * save succeeded and `reloaded` what the rollback fetch returned.
     */
    method AddRule(newId: string, saved: bool, reloaded: Option<seq<Rule>>) returns (added: bool)
      modifies this
      ensures added == (old(patternInput) != "" && old(selectedCat) != "" && old(isRegexValid))
      ensures added ==> rules == AfterSave([NewRule(newId, old(patternInput), old(selectedCat), old(selectedSubCat))] + old(rules),
                                           saved, reloaded)
      ensures added ==> patternInput == "" && selectedCat == "" && selectedSubCat == ""
      ensures !added ==> (rules == old(rules) && patternInput == old(patternInput) &&
                          selectedCat == old(selectedCat) && selectedSubCat == old(selectedSubCat))
      ensures added && saved ==> |rules| == |old(rules)| + 1 && rules[0].id == newId && rules[1..] == old(rules)
      ensures isRegexValid == old(isRegexValid) && testMerchant == old(testMerchant)
    {
      if patternInput == "" || selectedCat == "" || !isRegexValid {
        return false;
      }
      var rule := NewRule(newId, patternInput, selectedCat, selectedSubCat);
      rules := AfterSave([rule] + rules, saved, reloaded);
      patternInput, selectedCat, selectedSubCat := "", "", "";
      added := true;
    }

    /**
     * `handleDeleteRule`: after the confirmation, keeps the rules whose id
     * differs and saves that list; a failed save rolls back as in `AfterSave`.
     */
    method DeleteRule(id: string, confirmed: bool, saved: bool, reloaded: Option<seq<Rule>>)
      modifies this
      ensures rules == if confirmed then AfterSave(RemoveId(old(rules), id), saved, reloaded) else old(rules)
      ensures patternInput == old(patternInput) && selectedCat == old(selectedCat)
      ensures selectedSubCat == old(selectedSubCat) && isRegexValid == old(isRegexValid)
      ensures testMerchant == old(testMerchant)
    {
      if !confirmed {
        return;
      }
      rules := AfterSave(RemoveId(rules, id), saved, reloaded);
    }

    /** The simulator's verdict on the current test merchant. */
    method SimulationResult(e: RegexEngine) returns (r: Simulation)
      ensures r == Classify(e, rules, testMerchant)
    {
      r := Simulate(e, rules, testMerchant);
    }
  }

  /** Right after a rule whose pattern matches `m` is added and saved, classifying `m` yields that rule. */
  method AddThenClassify(e: RegexEngine, mgr: RuleManager, newId: string, m: string) returns (r: Simulation)
    requires m != "" && mgr.isRegexValid && mgr.patternInput != "" && mgr.selectedCat != ""
    requires e.compiles(mgr.patternInput) && e.matches(mgr.patternInput, m)
    modifies mgr
    ensures |mgr.rules| > 0 && r.Matched? && r.rule.id == newId && r.rule == mgr.rules[0]
  {
    var added := mgr.AddRule(newId, true, None);
    PrependedRuleWins(e, mgr.rules[0], mgr.rules[1..], m);
    assert mgr.rules == [mgr.rules[0]] + mgr.rules[1..];
    r := Simulate(e, mgr.rules, m);
  }
}
