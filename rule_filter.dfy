/**
  * The filter chain both rule getters run over their rule tables: an optional category
  * (default and sentinel "all"), then an optional language, then an optional code type.
  * A language or code-type criterion keeps the rules that leave the field unset.
  */
module RuleFilter {
  import opened Wrappers
  import opened Types
  import opened Seqs

  /** `if (arg)` on an optional text argument: present and not empty. */
  predicate Given(arg: Option<string>) {
    arg.Some? && arg.value != ""
  }

  /** The category argument after its default: an omitted category means "all". */
  function CategoryOrAll(category: Option<string>): string {
    category.GetOr("all")
  }

  /** The category stage lets a rule through. */
  predicate CategoryPasses(r: Rule, category: Option<string>) {
    CategoryOrAll(category) == "all" || r.category.Name() == CategoryOrAll(category)
  }

  /** The language stage lets a rule through. */
  predicate LanguagePasses(r: Rule, language: Option<string>) {
    !Given(language) || r.language.None? || r.language.value.Name() == language.value
  }

  /** The code-type stage lets a rule through. */
  predicate CodeTypePasses(r: Rule, codeType: Option<string>) {
    !Given(codeType) || r.codeType.None? || r.codeType.value.Name() == codeType.value
  }

  /** A rule meets every active criterion. */
  predicate Matches(r: Rule, category: Option<string>, language: Option<string>, codeType: Option<string>) {
    CategoryPasses(r, category) && LanguagePasses(r, language) && CodeTypePasses(r, codeType)
  }

  function CategoryTest(category: Option<string>): Rule -> bool {
    r => CategoryPasses(r, category)
  }

  function LanguageTest(language: Option<string>): Rule -> bool {
    r => LanguagePasses(r, language)
  }

  function CodeTypeTest(codeType: Option<string>): Rule -> bool {
    r => CodeTypePasses(r, codeType)
  }

  function MatchTest(category: Option<string>, language: Option<string>, codeType: Option<string>): Rule -> bool {
    r => Matches(r, category, language, codeType)
  }

  /** `if (category !== "all") rules = rules.filter(rule => rule.category === category)`. */
  function ByCategory(rules: seq<Rule>, category: Option<string>): (r: seq<Rule>)
    ensures r == Select(rules, CategoryTest(category))
  {
    var c := CategoryOrAll(category);
    if c != "all" then
      var test := (rule: Rule) => rule.category.Name() == c;
      SelectSameTest(rules, test, CategoryTest(category));
      Select(rules, test)
    else
      SelectKeepsAll(rules, CategoryTest(category));
      rules
  }

  /** `if (language) rules = rules.filter(rule => !rule.language || rule.language === language)`. */
  function ByLanguage(rules: seq<Rule>, language: Option<string>): (r: seq<Rule>)
    ensures r == Select(rules, LanguageTest(language))
  {
    if Given(language) then
      var test := (rule: Rule) => rule.language.None? || rule.language.value.Name() == language.value;
      SelectSameTest(rules, test, LanguageTest(language));
      Select(rules, test)
    else
      SelectKeepsAll(rules, LanguageTest(language));
      rules
  }

  /** `if (codeType) rules = rules.filter(rule => !rule.codeType || rule.codeType === codeType)`. */
  function ByCodeType(rules: seq<Rule>, codeType: Option<string>): (r: seq<Rule>)
    ensures r == Select(rules, CodeTypeTest(codeType))
  {
    if Given(codeType) then
      var test := (rule: Rule) => rule.codeType.None? || rule.codeType.value.Name() == codeType.value;
      SelectSameTest(rules, test, CodeTypeTest(codeType));
      Select(rules, test)
    else
      SelectKeepsAll(rules, CodeTypeTest(codeType));
      rules
  }

  /**
    * The chain category, language, code type. It is one conjunctive filter: the result
    * is exactly the rules that meet every active criterion, in table order.
    */
  function FilterRules(rules: seq<Rule>, category: Option<string>, language: Option<string>, codeType: Option<string>): (r: seq<Rule>)
    ensures r == Select(rules, MatchTest(category, language, codeType))
  {
    var afterCategory := ByCategory(rules, category);
    var afterLanguage := ByLanguage(afterCategory, language);
    var cl := (x: Rule) => CategoryPasses(x, category) && LanguagePasses(x, language);
    SelectFuse(rules, CategoryTest(category), LanguageTest(language), cl);
    SelectFuse(rules, cl, CodeTypeTest(codeType), MatchTest(category, language, codeType));
    ByCodeType(afterLanguage, codeType)
  }

  /**
    * A rule of the table is in the result if and only if it meets every active criterion;
    * the result holds nothing else and keeps the table's order.
    */
  lemma FilterMembership(rules: seq<Rule>, category: Option<string>, language: Option<string>, codeType: Option<string>, x: Rule)
    ensures x in FilterRules(rules, category, language, codeType) <==> x in rules && Matches(x, category, language, codeType)
    ensures SubsequenceOf(FilterRules(rules, category, language, codeType), rules)
  {
    var r := FilterRules(rules, category, language, codeType);
    if x in r {
      var k :| 0 <= k < |r| && r[k] == x;
      assert MatchTest(category, language, codeType)(r[k]);
      SubsequenceMembers(r, rules, k);
    }
    if x in rules && Matches(x, category, language, codeType) {
      var k :| 0 <= k < |rules| && rules[k] == x;
      assert MatchTest(category, language, codeType)(rules[k]);
    }
  }

  /** An omitted category and the sentinel "all" both leave the category unfiltered. */
  lemma CategoryAllIsNoFilter(rules: seq<Rule>, language: Option<string>, codeType: Option<string>)
    ensures FilterRules(rules, None, language, codeType) == FilterRules(rules, Some("all"), language, codeType)
    ensures FilterRules(rules, None, language, codeType) == ByCodeType(ByLanguage(rules, language), codeType)
  {
    SelectKeepsAll(rules, CategoryTest(None));
  }

  /** Any other category keeps exactly the rules whose category has that name. */
  lemma CategoryKeepsEqual(rules: seq<Rule>, category: string)
    requires category != "all"
    ensures FilterRules(rules, Some(category), None, None) == Select(rules, CategoryTest(Some(category)))
    ensures forall x :: x in FilterRules(rules, Some(category), None, None) <==> x in rules && x.category.Name() == category
  {
    SelectKeepsAll(ByCategory(rules, Some(category)), LanguageTest(None));
    SelectKeepsAll(ByCategory(rules, Some(category)), CodeTypeTest(None));
    forall x
      ensures x in FilterRules(rules, Some(category), None, None) <==> x in rules && x.category.Name() == category
    {
      FilterMembership(rules, Some(category), None, None, x);
    }
  }

  /** An empty language or code-type argument applies no filter, as an omitted one. */
  lemma EmptyArgumentIsNoFilter(rules: seq<Rule>, category: Option<string>, language: Option<string>, codeType: Option<string>)
    ensures FilterRules(rules, category, Some(""), codeType) == FilterRules(rules, category, None, codeType)
    ensures FilterRules(rules, category, language, Some("")) == FilterRules(rules, category, language, None)
  {
  }

  /**
    * A rule that leaves its language unset (or its code type unset) is kept by every
    * language (or code-type) criterion, as long as it meets the others.
    */
  lemma UnsetFieldMatchesAny(rules: seq<Rule>, x: Rule, category: Option<string>, language: Option<string>, codeType: Option<string>)
    requires x in rules && CategoryPasses(x, category) && CodeTypePasses(x, codeType)
    requires x.language.None?
    ensures x in FilterRules(rules, category, language, codeType)
  {
    FilterMembership(rules, category, language, codeType, x);
  }

  /** Filtering a result again with the same criteria returns it unchanged. */
  lemma FilterIdempotent(rules: seq<Rule>, category: Option<string>, language: Option<string>, codeType: Option<string>)
    ensures FilterRules(FilterRules(rules, category, language, codeType), category, language, codeType)
         == FilterRules(rules, category, language, codeType)
  {
    SelectIdempotent(rules, MatchTest(category, language, codeType));
  }

  /** The three stages may run in any order: every order gives the same result. */
  lemma FilterAnyOrder(rules: seq<Rule>, category: Option<string>, language: Option<string>, codeType: Option<string>)
    ensures ByCodeType(ByCategory(ByLanguage(rules, language), category), codeType) == FilterRules(rules, category, language, codeType)
    ensures ByLanguage(ByCodeType(ByCategory(rules, category), codeType), language) == FilterRules(rules, category, language, codeType)
    ensures ByCategory(ByCodeType(ByLanguage(rules, language), codeType), category) == FilterRules(rules, category, language, codeType)
    ensures ByLanguage(ByCategory(ByCodeType(rules, codeType), category), language) == FilterRules(rules, category, language, codeType)
    ensures ByCategory(ByLanguage(ByCodeType(rules, codeType), language), category) == FilterRules(rules, category, language, codeType)
  {
    var c, l, t := CategoryTest(category), LanguageTest(language), CodeTypeTest(codeType);
    SelectCommute(rules, c, l);
    SelectCommute(rules, t, l);
    SelectCommute(rules, c, t);
    SelectCommute(Select(rules, c), t, l);
    SelectCommute(Select(rules, l), c, t);
    SelectCommute(Select(rules, t), c, l);
  }

  /** With no criteria, or with category "all" and nothing else, every rule is kept in order. */
  lemma NoCriteriaKeepsAll(rules: seq<Rule>)
    ensures FilterRules(rules, None, None, None) == rules
    ensures FilterRules(rules, Some("all"), None, None) == rules
  {
    SelectKeepsAll(rules, MatchTest(None, None, None));
    SelectKeepsAll(rules, MatchTest(Some("all"), None, None));
  }

  /** Over rules that all leave the language unset, a language criterion removes nothing. */
  lemma LanguageFreeRules(rules: seq<Rule>, category: Option<string>, language: Option<string>, codeType: Option<string>)
    requires forall k :: 0 <= k < |rules| ==> rules[k].language.None?
    ensures FilterRules(rules, category, language, codeType) == FilterRules(rules, category, None, codeType)
  {
    SelectSameTest(rules, MatchTest(category, language, codeType), MatchTest(category, None, codeType));
  }
}
