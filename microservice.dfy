/**
  * The built-in microservice rules and their getter. The Markdown bodies of the rules
  * are opaque here: each stands as its heading line.
  */
module MicroserviceRules {
  import opened Wrappers
  import opened Types
  import opened Seqs
  import opened RuleFilter

  const ApiGateway := Rule(
    "ms-arch-001", "API Gateway Pattern",
    "Use API Gateway as a single entry point for microservices",
    Architecture, Microservice, None, None,
    "# API Gateway Pattern", None, Some(["architecture", "api-gateway", "pattern"]))

  const Communication := Rule(
    "ms-perf-001", "Service Communication Optimization",
    "Optimize inter-service communication patterns",
    Performance, Microservice, None, None,
    "# Service Communication Optimization", None, Some(["performance", "communication", "circuit-breaker"]))

  const Authentication := Rule(
    "ms-sec-001", "Service-to-Service Authentication",
    "Implement secure authentication between microservices",
    Security, Microservice, None, None,
    "# Service-to-Service Authentication", None, Some(["security", "authentication", "jwt"]))

  const ContractTesting := Rule(
    "ms-test-001", "Contract Testing",
    "Implement contract testing between services",
    Testing, Microservice, None, Some(Test),
    "# Contract Testing for Microservices", None, Some(["testing", "contract-testing", "pact"]))

  /** The rule table, in declaration order. */
  const Table: seq<Rule> := [ApiGateway, Communication, Authentication, ContractTesting]

  /**
    * `getMicroserviceRules(category = "all", language?, codeType?)`: the table rules that
    * meet every active criterion, in table order, labelled with the microservice system
    * and the language argument as given.
    */
  function GetMicroserviceRules(category: Option<string> := None, language: Option<string> := None, codeType: Option<string> := None): (c: RuleCollection)
    ensures c.system == Microservice && c.language == language
    ensures SubsequenceOf(c.rules, Table)
    ensures forall x :: x in c.rules <==> x in Table && Matches(x, category, language, codeType)
    ensures forall x :: x in c.rules ==> x.system == Microservice
  {
    assert forall k :: 0 <= k < |Table| ==> Table[k].system == Microservice;
    forall x ensures x in FilterRules(Table, category, language, codeType) <==> x in Table && Matches(x, category, language, codeType) {
      FilterMembership(Table, category, language, codeType, x);
    }
    RuleCollection(Microservice, language, FilterRules(Table, category, language, codeType))
  }

  /** With no criteria, or category "all", all four rules come back in order. */
  lemma NoCriteriaReturnsTable()
    ensures GetMicroserviceRules().rules == Table
    ensures GetMicroserviceRules(Some("all")).rules == Table
  {
    NoCriteriaKeepsAll(Table);
  }

  /** Each category names exactly one microservice rule, and that rule has the category. */
  lemma OneRulePerCategory(c: RuleCategory)
    ensures |GetMicroserviceRules(Some(c.Name())).rules| == 1
    ensures GetMicroserviceRules(Some(c.Name())).rules[0].category == c
  {
    match c
    case Architecture => ArchitectureQuery();
    case Performance => PerformanceQuery();
    case Security => SecurityQuery();
    case Testing => TestingQuery();
  }

  /** Category "architecture" yields exactly ms-arch-001. */
  lemma ArchitectureQuery()
    ensures GetMicroserviceRules(Some("architecture")).rules == [ApiGateway]
  {
    var t := MatchTest(Some("architecture"), None, None);
    assert t(ApiGateway) && !t(Communication) && !t(Authentication) && !t(ContractTesting);
    assert Table[1..] == [Communication, Authentication, ContractTesting];
    assert Table[2..] == [Authentication, ContractTesting];
    assert Table[3..] == [ContractTesting];
    assert Select(Table[4..], t) == [];
    assert Select(Table[3..], t) == [];
    assert Select(Table[2..], t) == [];
    assert Select(Table[1..], t) == [];
    assert Select(Table, t) == [ApiGateway];
  }

  /** Category "performance" yields exactly ms-perf-001. */
  lemma PerformanceQuery()
    ensures GetMicroserviceRules(Some("performance")).rules == [Communication]
  {
    var t := MatchTest(Some("performance"), None, None);
    assert !t(ApiGateway) && t(Communication) && !t(Authentication) && !t(ContractTesting);
    assert Table[1..] == [Communication, Authentication, ContractTesting];
    assert Table[2..] == [Authentication, ContractTesting];
    assert Table[3..] == [ContractTesting];
    assert Select(Table[4..], t) == [];
    assert Select(Table[3..], t) == [];
    assert Select(Table[2..], t) == [];
    assert Select(Table[1..], t) == [Communication];
    assert Select(Table, t) == [Communication];
  }

  /** Category "security" yields exactly ms-sec-001. */
  lemma SecurityQuery()
    ensures GetMicroserviceRules(Some("security")).rules == [Authentication]
  {
    var t := MatchTest(Some("security"), None, None);
    assert !t(ApiGateway) && !t(Communication) && t(Authentication) && !t(ContractTesting);
    assert Table[1..] == [Communication, Authentication, ContractTesting];
    assert Table[2..] == [Authentication, ContractTesting];
    assert Table[3..] == [ContractTesting];
    assert Select(Table[4..], t) == [];
    assert Select(Table[3..], t) == [];
    assert Select(Table[2..], t) == [Authentication];
    assert Select(Table[1..], t) == [Authentication];
    assert Select(Table, t) == [Authentication];
  }

  /** Category "testing" yields exactly ms-test-001. */
  lemma TestingQuery()
    ensures GetMicroserviceRules(Some("testing")).rules == [ContractTesting]
  {
    var t := MatchTest(Some("testing"), None, None);
    assert !t(ApiGateway) && !t(Communication) && !t(Authentication) && t(ContractTesting);
    assert Table[1..] == [Communication, Authentication, ContractTesting];
    assert Table[2..] == [Authentication, ContractTesting];
    assert Table[3..] == [ContractTesting];
    assert Select(Table[4..], t) == [];
    assert Select(Table[3..], t) == [ContractTesting];
    assert Select(Table[2..], t) == [ContractTesting];
    assert Select(Table[1..], t) == [ContractTesting];
    assert Select(Table, t) == [ContractTesting];
  }

  /** No microservice rule sets a language, so a language criterion never removes one. */
  lemma LanguageRemovesNothing(category: Option<string>, language: Option<string>, codeType: Option<string>)
    ensures GetMicroserviceRules(category, language, codeType).rules == GetMicroserviceRules(category, None, codeType).rules
  {
    assert Table[0].language.None? && Table[1].language.None? && Table[2].language.None? && Table[3].language.None?;
    LanguageFreeRules(Table, category, language, codeType);
  }

  /** Code type "test" keeps all four rules: the three without a code type and ms-test-001. */
  lemma TestKeepsAll()
    ensures GetMicroserviceRules(None, None, Some("test")).rules == Table
  {
    var t := MatchTest(None, None, Some("test"));
    assert t(Table[0]) && t(Table[1]) && t(Table[2]) && t(Table[3]);
    SelectKeepsAll(Table, t);
  }

  /** Code type "source" drops only ms-test-001. */
  lemma SourceDropsTestRule()
    ensures GetMicroserviceRules(None, None, Some("source")).rules == [ApiGateway, Communication, Authentication]
  {
    var t := MatchTest(None, None, Some("source"));
    assert t(ApiGateway) && t(Communication) && t(Authentication) && !t(ContractTesting);
    assert Table[1..] == [Communication, Authentication, ContractTesting];
    assert Table[2..] == [Authentication, ContractTesting];
    assert Table[3..] == [ContractTesting];
    assert Select(Table[4..], t) == [];
    assert Select(Table[3..], t) == [];
    assert Select(Table[2..], t) == [Authentication];
    assert Select(Table[1..], t) == [Communication, Authentication];
    assert Select(Table, t) == [ApiGateway, Communication, Authentication];
  }
}
