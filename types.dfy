/**
  * The records and closed string unions of the registry: rule categories, project
  * systems, languages and code types, and the Rule, RuleCollection, Resource,
  * PromptTemplate and GetRulesInput records.
  */
module Types {
  import opened Wrappers
  import opened Documents

  /** The category a rule belongs to. */
  datatype RuleCategory = Architecture | Performance | Security | Testing {
    function Name(): string {
      match this
      case Architecture => "architecture"
      case Performance => "performance"
      case Security => "security"
      case Testing => "testing"
    }
  }

  /** A category criterion: one category, or the sentinel "all". */
  datatype RuleCategoryFilter = Only(category: RuleCategory) | All {
    function Name(): string {
      match this
      case Only(c) => c.Name()
      case All => "all"
    }
  }

  /** The project archetype a rule applies to. */
  datatype ProjectSystem = Microfrontend | Microservice {
    function Name(): string {
      match this
      case Microfrontend => "microfrontend"
      case Microservice => "microservice"
    }
  }

  datatype Language = TypeScript | JavaScript | Python | Java | Go | Rust {
    function Name(): string {
      match this
      case TypeScript => "typescript"
      case JavaScript => "javascript"
      case Python => "python"
      case Java => "java"
      case Go => "go"
      case Rust => "rust"
    }
  }

  datatype CodeType = Source | Test {
    function Name(): string {
      match this
      case Source => "source"
      case Test => "test"
    }
  }

  /** The text of a `RuleCategory`, or nothing when the text is outside the union. */
  function ParseRuleCategory(s: string): (r: Option<RuleCategory>)
    ensures r.Some? ==> r.value.Name() == s
    ensures r.None? ==> forall c: RuleCategory :: c.Name() != s
  {
    if s == "architecture" then Some(Architecture)
    else if s == "performance" then Some(Performance)
    else if s == "security" then Some(Security)
    else if s == "testing" then Some(Testing)
    else None
  }

  function ParseRuleCategoryFilter(s: string): (r: Option<RuleCategoryFilter>)
    ensures r.Some? ==> r.value.Name() == s
    ensures r.None? ==> forall c: RuleCategoryFilter :: c.Name() != s
  {
    if s == "all" then Some(All)
    else match ParseRuleCategory(s)
      case Some(c) => Some(Only(c))
      case None => None
  }

  function ParseProjectSystem(s: string): (r: Option<ProjectSystem>)
    ensures r.Some? ==> r.value.Name() == s
    ensures r.None? ==> forall p: ProjectSystem :: p.Name() != s
  {
    if s == "microfrontend" then Some(Microfrontend)
    else if s == "microservice" then Some(Microservice)
    else None
  }

  function ParseLanguage(s: string): (r: Option<Language>)
    ensures r.Some? ==> r.value.Name() == s
    ensures r.None? ==> forall l: Language :: l.Name() != s
  {
    if s == "typescript" then Some(TypeScript)
    else if s == "javascript" then Some(JavaScript)
    else if s == "python" then Some(Python)
    else if s == "java" then Some(Java)
    else if s == "go" then Some(Go)
    else if s == "rust" then Some(Rust)
    else None
  }

  function ParseCodeType(s: string): (r: Option<CodeType>)
    ensures r.Some? ==> r.value.Name() == s
    ensures r.None? ==> forall t: CodeType :: t.Name() != s
  {
    if s == "source" then Some(Source)
    else if s == "test" then Some(Test)
    else None
  }

  /** `RuleCategory` is exactly the four names architecture, performance, security, testing. */
  lemma RuleCategoryNames(s: string)
    ensures ParseRuleCategory(s).Some? <==> s in {"architecture", "performance", "security", "testing"}
  {
  }

  /** `RuleCategoryFilter` is `RuleCategory` plus the sentinel "all", and nothing else. */
  lemma RuleCategoryFilterNames(s: string)
    ensures ParseRuleCategoryFilter(s).Some? <==> (s == "all" || ParseRuleCategory(s).Some?)
    ensures ParseRuleCategoryFilter(s) == Some(All) <==> s == "all"
  {
  }

  lemma ProjectSystemNames(s: string)
    ensures ParseProjectSystem(s).Some? <==> s in {"microfrontend", "microservice"}
  {
  }

  lemma LanguageNames(s: string)
    ensures ParseLanguage(s).Some? <==> s in {"typescript", "javascript", "python", "java", "go", "rust"}
  {
  }

  lemma CodeTypeNames(s: string)
    ensures ParseCodeType(s).Some? <==> s in {"source", "test"}
  {
  }

  /** Every member of each union reads back from its own name, so the names are distinct. */
  lemma NamesRoundTrip(c: RuleCategory, f: RuleCategoryFilter, p: ProjectSystem, l: Language, t: CodeType)
    ensures ParseRuleCategory(c.Name()) == Some(c)
    ensures ParseRuleCategoryFilter(f.Name()) == Some(f)
    ensures ParseProjectSystem(p.Name()) == Some(p)
    ensures ParseLanguage(l.Name()) == Some(l)
    ensures ParseCodeType(t.Name()) == Some(t)
    ensures c.Name() != "" && p.Name() != "" && l.Name() != "" && t.Name() != ""
  {
  }

  /**
    * A rule. `id`, `title`, `description`, `category`, `system` and `content` are always
    * present; `language`, `codeType`, `examples` and `tags` may be absent.
    */
  datatype Rule = Rule(
    id: string,
    title: string,
    description: string,
    category: RuleCategory,
    system: ProjectSystem,
    language: Option<Language>,
    codeType: Option<CodeType>,
    content: string,
    examples: Option<seq<string>>,
    tags: Option<seq<string>>)

  /**
    * The result of a rule query. `language` holds the query's language argument as given:
    * the getters store it without checking it against `Language`.
    */
  datatype RuleCollection = RuleCollection(system: ProjectSystem, language: Option<string>, rules: seq<Rule>)

  /** The typed arguments of a rule query; every criterion may be absent. */
  datatype GetRulesInput = GetRulesInput(
    category: Option<RuleCategoryFilter>,
    language: Option<Language>,
    codeType: Option<CodeType>)
  {
    /** The criteria as the text arguments the rule getters take. */
    function CategoryArg(): (r: Option<string>)
      ensures r.None? <==> category.None?
      ensures r.Some? ==> ParseRuleCategoryFilter(r.value) == category
    {
      match category
      case Some(c) => Some(c.Name())
      case None => None
    }

    function LanguageArg(): (r: Option<string>)
      ensures r.None? <==> language.None?
      ensures r.Some? ==> ParseLanguage(r.value) == language
    {
      match language
      case Some(l) => Some(l.Name())
      case None => None
    }

    function CodeTypeArg(): (r: Option<string>)
      ensures r.None? <==> codeType.None?
      ensures r.Some? ==> ParseCodeType(r.value) == codeType
    {
      match codeType
      case Some(t) => Some(t.Name())
      case None => None
    }
  }

  /**
    * A documentation resource. The registry copies the four metadata fields from the
    * front matter without checking their type, so they are kept as front-matter values.
    */
  datatype Resource = Resource(uri: Value, name: Value, description: Value, mimeType: Value, content: string)

  /** One declared argument of a prompt. */
  datatype PromptArgument = PromptArgument(name: string, description: string, required: bool)

  /** A prompt: its declared arguments and the closure that renders it from an argument map. */
  datatype PromptTemplate = PromptTemplate(
    name: string,
    description: string,
    arguments: seq<PromptArgument>,
    template: map<string, string> -> string)
}
