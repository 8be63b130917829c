/**
  * The built-in microfrontend rules and their getter. The Markdown bodies of the rules
  * are opaque here: each stands as its heading line.
  */
module MicrofrontendRules {
  import opened Wrappers
  import opened Types
  import opened Seqs
  import opened RuleFilter

  const ModuleFederation := Rule(
    "mfe-arch-001", "Module Federation Setup",
    "Use Module Federation for runtime integration of microfrontends",
    Architecture, Microfrontend, Some(TypeScript), Some(Source),
    "# Module Federation Setup", None, Some(["webpack", "module-federation", "architecture"]))

  const LazyLoading := Rule(
    "mfe-perf-001", "Lazy Loading Microfrontends",
    "Implement lazy loading to improve initial load time",
    Performance, Microfrontend, Some(TypeScript), Some(Source),
    "# Lazy Loading Microfrontends", None, Some(["performance", "lazy-loading"]))

  const IntegrationTesting := Rule(
    "mfe-test-001", "Integration Testing Microfrontends",
    "Test microfrontends integration points",
    Testing, Microfrontend, None, Some(Test),
    "# Integration Testing for Microfrontends", None, Some(["testing", "integration"]))

  /** The rule table, in declaration order. */
  const Table: seq<Rule> := [ModuleFederation, LazyLoading, IntegrationTesting]

  /**
    * `getMicrofrontendRules(category = "all", language?, codeType?)`: the table rules that
    * meet every active criterion, in table order, labelled with the microfrontend system
    * and the language argument as given.
    */
  function GetMicrofrontendRules(category: Option<string> := None, language: Option<string> := None, codeType: Option<string> := None): (c: RuleCollection)
    ensures c.system == Microfrontend && c.language == language
    ensures SubsequenceOf(c.rules, Table)
    ensures forall x :: x in c.rules <==> x in Table && Matches(x, category, language, codeType)
    ensures forall x :: x in c.rules ==> x.system == Microfrontend
  {
    assert forall k :: 0 <= k < |Table| ==> Table[k].system == Microfrontend;
    forall x ensures x in FilterRules(Table, category, language, codeType) <==> x in Table && Matches(x, category, language, codeType) {
      FilterMembership(Table, category, language, codeType, x);
    }
    RuleCollection(Microfrontend, language, FilterRules(Table, category, language, codeType))
  }

  /** With no criteria the whole table comes back, in order. */
  lemma NoCriteriaReturnsTable()
    ensures GetMicrofrontendRules().rules == Table
    ensures GetMicrofrontendRules(Some("all")).rules == Table
  {
    NoCriteriaKeepsAll(Table);
  }

  /** Category "architecture" with language "typescript" yields only mfe-arch-001. */
  lemma ArchitectureTypeScript()
    ensures GetMicrofrontendRules(Some("architecture"), Some("typescript")).rules == [ModuleFederation]
  {
    var t := MatchTest(Some("architecture"), Some("typescript"), None);
    assert t(ModuleFederation) && !t(LazyLoading) && !t(IntegrationTesting);
    assert Table[1..] == [LazyLoading, IntegrationTesting] && Table[2..] == [IntegrationTesting];
    assert Select(Table[3..], t) == [];
    assert Select(Table[2..], t) == [];
    assert Select(Table[1..], t) == [];
    assert Select(Table, t) == [ModuleFederation];
  }

  /** Language "python" yields only mfe-test-001, the one rule that leaves its language unset. */
  lemma PythonKeepsOnlyLanguageFree()
    ensures GetMicrofrontendRules(None, Some("python")).rules == [IntegrationTesting]
  {
    var t := MatchTest(None, Some("python"), None);
    assert !t(ModuleFederation) && !t(LazyLoading) && t(IntegrationTesting);
    assert Table[1..] == [LazyLoading, IntegrationTesting] && Table[2..] == [IntegrationTesting];
    assert Select(Table[3..], t) == [];
    assert Select(Table[2..], t) == [IntegrationTesting];
    assert Select(Table[1..], t) == [IntegrationTesting];
    assert Select(Table, t) == [IntegrationTesting];
  }

  /** Code type "test" drops the two source rules and keeps mfe-test-001. */
  lemma TestCodeType()
    ensures GetMicrofrontendRules(None, None, Some("test")).rules == [IntegrationTesting]
  {
    var t := MatchTest(None, None, Some("test"));
    assert !t(ModuleFederation) && !t(LazyLoading) && t(IntegrationTesting);
    assert Table[1..] == [LazyLoading, IntegrationTesting] && Table[2..] == [IntegrationTesting];
    assert Select(Table[3..], t) == [];
    assert Select(Table[2..], t) == [IntegrationTesting];
    assert Select(Table[1..], t) == [IntegrationTesting];
    assert Select(Table, t) == [IntegrationTesting];
  }
}
