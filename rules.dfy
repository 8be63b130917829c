/**
  * The rules registry: dispatch of a rule query to the getter of its system, and the
  * Markdown-style text a rule collection is rendered to.
  */
module RulesRegistry {
  import opened Wrappers
  import opened Text
  import opened Types
  import opened Seqs
  import opened RuleFilter
  import MicrofrontendRules
  import MicroserviceRules

  /**
    * `getRules(system, category?, language?, codeType?)`: the collection of the named
    * system, or the error "Unknown system: <system>" for any other name.
    */
  function GetRules(system: string, category: Option<string>, language: Option<string>, codeType: Option<string>): (r: Result<RuleCollection>)
    ensures r.Ok? <==> ParseProjectSystem(system).Some?
    ensures r.Err? ==> r.error == "Unknown system: " + system
    ensures r.Ok? ==> r.value.system.Name() == system && r.value.language == language
    ensures r.Ok? ==> forall x :: x in r.value.rules ==> x.system == r.value.system && Matches(x, category, language, codeType)
    ensures system == "microfrontend" ==> r == Ok(MicrofrontendRules.GetMicrofrontendRules(category, language, codeType))
    ensures system == "microservice" ==> r == Ok(MicroserviceRules.GetMicroserviceRules(category, language, codeType))
  {
    if system == "microfrontend" then
      Ok(MicrofrontendRules.GetMicrofrontendRules(category, language, codeType))
    else if system == "microservice" then
      Ok(MicroserviceRules.GetMicroserviceRules(category, language, codeType))
    else
      Err("Unknown system: " + system)
  }

  /** The first line: the system name with its first letter capitalised. */
  function Heading(system: ProjectSystem): string {
    "# " + UpperFirst(system.Name()) + " Rules\n\n"
  }

  /** The language line of a collection, present only for a non-empty language. */
  function CollectionLanguageLine(language: Option<string>): string {
    if Given(language) then "Language: " + language.value + "\n\n" else ""
  }

  const NoRulesLine := "No rules found matching the criteria.\n"

  function CountLine(n: nat): string {
    "Found " + DecimalString(n) + " rule(s):\n\n"
  }

  /** The fixed lines that open a rule's section: its number and title, id and category. */
  function SectionTop(number: nat, rule: Rule): string {
    ("## " + DecimalString(number) + ". " + rule.title + "\n\n")
    + ("**ID:** " + rule.id + "\n")
    + ("**Category:** " + rule.category.Name() + "\n")
  }

  function RuleLanguageLine(language: Option<Language>): string {
    if language.Some? then "**Language:** " + language.value.Name() + "\n" else ""
  }

  function CodeTypeLine(codeType: Option<CodeType>): string {
    if codeType.Some? then "**Code Type:** " + codeType.value.Name() + "\n" else ""
  }

  function TagsLine(tags: Option<seq<string>>): string {
    if tags.Some? && |tags.value| > 0 then "**Tags:** " + Join(tags.value, ", ") + "\n" else ""
  }

  /** The lines that close a rule's section: description, content and the separator. */
  function SectionEnd(rule: Rule): string {
    ("\n" + rule.description + "\n\n") + (rule.content + "\n\n") + "---\n\n"
  }

  /** A section from its fixed opening and closing lines and the optional fields between them. */
  function SectionOf(top: string, language: Option<Language>, codeType: Option<CodeType>, tags: Option<seq<string>>, end: string): string {
    top + RuleLanguageLine(language) + CodeTypeLine(codeType) + TagsLine(tags) + end
  }

  /** The section of the rule listed at 1-based position `number`. */
  function Section(number: nat, rule: Rule): string {
    SectionOf(SectionTop(number, rule), rule.language, rule.codeType, rule.tags, SectionEnd(rule))
  }

  /** The sections of `rules`, numbered from 1 in list order. */
  function Sections(rules: seq<Rule>): string {
    if rules == [] then ""
    else Sections(rules[..|rules| - 1]) + Section(|rules|, rules[|rules| - 1])
  }

  /** What follows the heading and language line: the no-rules line, or the count and the sections. */
  function RulesBody(rules: seq<Rule>): string {
    if |rules| == 0 then NoRulesLine else CountLine(|rules|) + Sections(rules)
  }

  /** The text `formatRulesAsText` produces for a collection. */
  function RenderRules(collection: RuleCollection): string {
    Heading(collection.system) + CollectionLanguageLine(collection.language) + RulesBody(collection.rules)
  }

  /** The body of the per-rule callback: the lines of one rule's section, appended one by one. */
  method FormatSection(number: nat, rule: Rule) returns (section: string)
    ensures section == Section(number, rule)
  {
    section := "## " + DecimalString(number) + ". " + rule.title + "\n\n";
    section := section + ("**ID:** " + rule.id + "\n");
    section := section + ("**Category:** " + rule.category.Name() + "\n");
    assert section == SectionTop(number, rule);
    if rule.language.Some? {
      section := section + ("**Language:** " + rule.language.value.Name() + "\n");
    }
    assert section == SectionTop(number, rule) + RuleLanguageLine(rule.language);
    if rule.codeType.Some? {
      section := section + ("**Code Type:** " + rule.codeType.value.Name() + "\n");
    }
    assert section == SectionTop(number, rule) + RuleLanguageLine(rule.language) + CodeTypeLine(rule.codeType);
    if rule.tags.Some? && |rule.tags.value| > 0 {
      section := section + ("**Tags:** " + Join(rule.tags.value, ", ") + "\n");
    }
    ghost var fields := section;
    assert fields == SectionTop(number, rule) + RuleLanguageLine(rule.language) + CodeTypeLine(rule.codeType) + TagsLine(rule.tags);
    section := section + ("\n" + rule.description + "\n\n");
    section := section + (rule.content + "\n\n");
    section := section + "---\n\n";
    AppendAssoc(fields, "\n" + rule.description + "\n\n", rule.content + "\n\n");
    AppendAssoc(fields, ("\n" + rule.description + "\n\n") + (rule.content + "\n\n"), "---\n\n");
  }

  /** `formatRulesAsText(collection)`: appends the heading, then the count and one section per rule. */
  method FormatRulesAsText(collection: RuleCollection) returns (output: string)
    ensures output == RenderRules(collection)
  {
    var rules := collection.rules;
    output := "# " + UpperFirst(collection.system.Name()) + " Rules\n\n";
    if Given(collection.language) {
      output := output + ("Language: " + collection.language.value + "\n\n");
    }
    ghost var head := output;
    assert head == Heading(collection.system) + CollectionLanguageLine(collection.language);
    if |rules| == 0 {
      output := output + "No rules found matching the criteria.\n";
      return;
    }
    output := output + ("Found " + DecimalString(|rules|) + " rule(s):\n\n");
    var index := 0;
    while index < |rules|
      invariant 0 <= index <= |rules|
      invariant output == head + CountLine(|rules|) + Sections(rules[..index])
    {
      var section := FormatSection(index + 1, rules[index]);
      SectionsStep(rules, index);
      AppendAssoc(head + CountLine(|rules|), Sections(rules[..index]), section);
      output := output + section;
      index := index + 1;
    }
    RenderListed(collection, head);
  }

  /** One more rule appends its section, numbered by its position from 1. */
  lemma SectionsStep(rules: seq<Rule>, index: nat)
    requires index < |rules|
    ensures Sections(rules[..index + 1]) == Sections(rules[..index]) + Section(index + 1, rules[index])
  {
    assert rules[..index + 1][..index] == rules[..index];
  }

  /** With rules present, the text is the opening, the count line and every section. */
  lemma RenderListed(collection: RuleCollection, head: string)
    requires |collection.rules| > 0
    requires head == Heading(collection.system) + CollectionLanguageLine(collection.language)
    ensures RenderRules(collection) == head + CountLine(|collection.rules|) + Sections(collection.rules[..|collection.rules|])
  {
    var rules := collection.rules;
    assert rules[..|rules|] == rules;
    AppendAssoc(head, CountLine(|rules|), Sections(rules));
  }

  /** The microfrontend heading capitalises the system name. */
  lemma MicrofrontendHeading()
    ensures Heading(Microfrontend) == "# " + "Microfrontend" + " Rules\n\n"
  {
    CapitalisedName(Microfrontend, "microfrontend", "Microfrontend");
  }

  /** The microservice heading capitalises the system name. */
  lemma MicroserviceHeading()
    ensures Heading(Microservice) == "# " + "Microservice" + " Rules\n\n"
  {
    CapitalisedName(Microservice, "microservice", "Microservice");
  }

  lemma CapitalisedName(system: ProjectSystem, name: string, capitalised: string)
    requires system.Name() == name && name != [] && name[0] == 'm'
    requires capitalised == ['M'] + name[1..]
    ensures Heading(system) == "# " + capitalised + " Rules\n\n"
  {
    assert UpperChar('m') == 'M';
  }

  /** The text opens with the capitalised system name: "Microfrontend" or "Microservice". */
  lemma RenderHeading(collection: RuleCollection)
    ensures collection.system == Microfrontend ==> "# " + "Microfrontend" + " Rules\n\n" <= RenderRules(collection)
    ensures collection.system == Microservice ==> "# " + "Microservice" + " Rules\n\n" <= RenderRules(collection)
  {
    var h := Heading(collection.system);
    MicrofrontendHeading();
    MicroserviceHeading();
    PrefixOfAppend(h, h, CollectionLanguageLine(collection.language));
    PrefixOfAppend(h, h + CollectionLanguageLine(collection.language), RulesBody(collection.rules));
  }

  /**
    * A non-empty language adds exactly the line "Language: <language>" after the heading;
    * an empty one adds nothing, as an absent one.
    */
  lemma RenderLanguageLine(collection: RuleCollection, language: string)
    ensures var bare := RenderRules(collection.(language := None));
            var h := |Heading(collection.system)|;
            language != "" ==>
              RenderRules(collection.(language := Some(language)))
              == bare[..h] + ("Language: " + language + "\n\n") + bare[h..]
    ensures RenderRules(collection.(language := Some(""))) == RenderRules(collection.(language := None))
  {
    var a, b := Heading(collection.system), RulesBody(collection.rules);
    var bare := collection.(language := None);
    var empty := collection.(language := Some(""));
    assert bare.system == empty.system == collection.system && bare.rules == empty.rules == collection.rules;
    assert CollectionLanguageLine(bare.language) == CollectionLanguageLine(empty.language) == "";
    AppendEmpty(a, b);
    assert RenderRules(bare) == a + b;
    if language != "" {
      var given := collection.(language := Some(language));
      assert given.system == collection.system && given.rules == collection.rules;
      assert CollectionLanguageLine(given.language) == "Language: " + language + "\n\n";
      InsertAt(a, "Language: " + language + "\n\n", b);
    }
  }

  /** The text ends with the no-rules line exactly when the collection holds no rules. */
  lemma RenderEmptyIff(collection: RuleCollection)
    ensures |collection.rules| == 0 <==> EndsWith(RenderRules(collection), NoRulesLine)
  {
    var head := Heading(collection.system) + CollectionLanguageLine(collection.language);
    var rules := collection.rules;
    if |rules| == 0 {
      EndsWithAppend(head, NoRulesLine);
    } else {
      var front := rules[..|rules| - 1];
      var last := Section(|rules|, rules[|rules| - 1]);
      var r := rules[|rules| - 1];
      var top := SectionTop(|rules|, r) + RuleLanguageLine(r.language) + CodeTypeLine(r.codeType) + TagsLine(r.tags);
      var tail := SectionEnd(rules[|rules| - 1]);
      LastButOne(("\n" + rules[|rules| - 1].description + "\n\n") + (rules[|rules| - 1].content + "\n\n"), "---\n\n");
      LastButOne(top, tail);
      LastButOne(Sections(front), last);
      LastButOne(CountLine(|rules|), Sections(rules));
      LastButOne(head, RulesBody(rules));
      var out := RenderRules(collection);
      assert out[|out| - 2] == '\n';
      assert NoRulesLine[|NoRulesLine| - 2] == '.';
    }
  }

  /**
    * Sections are numbered 1, 2, ... in list order: the sections of the first `i` rules
    * followed by the section numbered `i + 1` for rule `i` open the rendering of the list.
    */
  lemma {:induction false} SectionsInOrder(rules: seq<Rule>, i: nat)
    requires i < |rules|
    ensures Sections(rules[..i]) + Section(i + 1, rules[i]) <= Sections(rules)
  {
    var n := |rules|;
    var front := rules[..n - 1];
    var last := Section(n, rules[n - 1]);
    assert Sections(rules) == Sections(front) + last;
    if i == n - 1 {
      PrefixOfAppend(Sections(rules), Sections(rules), "");
    } else {
      SectionsInOrder(front, i);
      TakeTake(rules, n - 1, i);
      PrefixOfAppend(Sections(rules[..i]) + Section(i + 1, rules[i]), Sections(front), last);
    }
  }

  /** After the heading and language line comes the count line, whose digits read back as the number of rules. */
  lemma RenderCount(collection: RuleCollection)
    requires |collection.rules| > 0
    ensures var head := Heading(collection.system) + CollectionLanguageLine(collection.language);
            var digits := DecimalString(|collection.rules|);
            head + ("Found " + digits + " rule(s):\n\n") <= RenderRules(collection)
            && DecimalValue(digits) == |collection.rules|
  {
    var head := Heading(collection.system) + CollectionLanguageLine(collection.language);
    var count := CountLine(|collection.rules|);
    AppendAssoc(head, count, Sections(collection.rules));
    PrefixOfAppend(head + count, head + count, Sections(collection.rules));
    DecimalRoundTrip(|collection.rules|);
  }

  /** A language adds the line "**Language:** <language>" right after the category line. */
  lemma LanguageLineInserted(top: string, language: Language, codeType: Option<CodeType>, tags: Option<seq<string>>, end: string)
    ensures var bare := SectionOf(top, None, codeType, tags, end);
            SectionOf(top, Some(language), codeType, tags, end)
            == bare[..|top|] + ("**Language:** " + language.Name() + "\n") + bare[|top|..]
  {
    var x := RuleLanguageLine(Some(language));
    assert SectionOf(top, Some(language), codeType, tags, end) == top + x + CodeTypeLine(codeType) + TagsLine(tags) + end;
    assert SectionOf(top, None, codeType, tags, end) == top + "" + CodeTypeLine(codeType) + TagsLine(tags) + end;
    InsertBefore3(top, x, CodeTypeLine(codeType), TagsLine(tags), end);
  }

  /** A code type adds the line "**Code Type:** <type>" right after the language line, if any. */
  lemma CodeTypeLineInserted(top: string, language: Option<Language>, codeType: CodeType, tags: Option<seq<string>>, end: string)
    ensures var bare := SectionOf(top, language, None, tags, end);
            var h := |top| + |RuleLanguageLine(language)|;
            SectionOf(top, language, Some(codeType), tags, end)
            == bare[..h] + ("**Code Type:** " + codeType.Name() + "\n") + bare[h..]
  {
    var a, x := top + RuleLanguageLine(language), CodeTypeLine(Some(codeType));
    assert SectionOf(top, language, Some(codeType), tags, end) == a + x + TagsLine(tags) + end;
    assert SectionOf(top, language, None, tags, end) == a + "" + TagsLine(tags) + end;
    InsertBefore2(a, x, TagsLine(tags), end);
  }

  /**
    * Non-empty tags add the line "**Tags:** " with the tags joined by ", " right before
    * the closing lines; an empty tag list adds nothing, as an absent one.
    */
  lemma TagsLineInserted(top: string, language: Option<Language>, codeType: Option<CodeType>, tags: seq<string>, end: string)
    ensures var bare := SectionOf(top, language, codeType, None, end);
            var h := |top| + |RuleLanguageLine(language)| + |CodeTypeLine(codeType)|;
            |tags| > 0 ==>
              SectionOf(top, language, codeType, Some(tags), end)
              == bare[..h] + ("**Tags:** " + Join(tags, ", ") + "\n") + bare[h..]
    ensures SectionOf(top, language, codeType, Some([]), end) == SectionOf(top, language, codeType, None, end)
  {
    if |tags| > 0 {
      TagsLineAt(top + RuleLanguageLine(language) + CodeTypeLine(codeType), language, codeType, tags, top, end);
    }
    EmptyTagsLine(top, language, codeType, end);
  }

  /** The tags line sits between the optional lines above it and the closing lines. */
  lemma TagsLineAt(a: string, language: Option<Language>, codeType: Option<CodeType>, tags: seq<string>, top: string, end: string)
    requires a == top + RuleLanguageLine(language) + CodeTypeLine(codeType) && |tags| > 0
    ensures SectionOf(top, language, codeType, Some(tags), end)
         == SectionOf(top, language, codeType, None, end)[..|a|] + TagsLine(Some(tags)) + SectionOf(top, language, codeType, None, end)[|a|..]
  {
    var x := TagsLine(Some(tags));
    assert SectionOf(top, language, codeType, Some(tags), end) == a + x + end;
    assert SectionOf(top, language, codeType, None, end) == a + "" + end;
    InsertBefore1(a, x, end);
  }

  /** An empty tag list renders no line. */
  lemma EmptyTagsLine(top: string, language: Option<Language>, codeType: Option<CodeType>, end: string)
    ensures SectionOf(top, language, codeType, Some([]), end) == SectionOf(top, language, codeType, None, end)
  {
    assert TagsLine(Some([])) == TagsLine(None);
  }
}
