/**
  * Loading rules from Markdown files: one file's front matter and body become a rule,
  * or nothing when the metadata is incomplete or the file cannot be read; a directory
  * yields the rules of its `.md` files, or nothing when it cannot be listed.
  */
module MarkdownLoader {
  import opened Wrappers
  import opened Text
  import opened Seqs
  import opened Documents
  import opened Types

  /** A front-matter value read as text. */
  function TextOf(v: Value): (r: Option<string>)
    ensures r.Some? <==> v.Text?
    ensures r.Some? ==> v == Text(r.value)
  {
    if v.Text? then Some(v.text) else None
  }

  /** A front-matter list read as a list of texts: every item must be text. */
  function TextsOf(items: seq<Value>): (r: Option<seq<string>>)
    ensures r.Some? <==> forall k :: 0 <= k < |items| ==> items[k].Text?
    ensures r.Some? ==> |r.value| == |items| && forall k :: 0 <= k < |items| ==> items[k] == Text(r.value[k])
  {
    if items == [] then Some([])
    else if !items[0].Text? then None
    else match TextsOf(items[1..])
      case None => None
      case Some(rest) => Some([items[0].text] + rest)
  }

  /** The state of an optional rule field in the front matter. */
  datatype Field<T> = Unset | Set(value: T) | Unusable

  /** `if (data.key)`: a falsy or missing value leaves the field unset. */
  function EnumField<T>(data: Frontmatter, key: string, parse: string -> Option<T>): Field<T> {
    if !FieldTruthy(data, key) then Unset
    else if data[key].Text? && parse(data[key].text).Some? then Set(parse(data[key].text).value)
    else Unusable
  }

  /** `if (data.key && Array.isArray(data.key))`: anything but a list leaves the field unset. */
  function ListField(data: Frontmatter, key: string): Field<seq<string>> {
    if key !in data || !data[key].List? then Unset
    else match TextsOf(data[key].items)
      case Some(texts) => Set(texts)
      case None => Unusable
  }

  function FieldValue<T>(f: Field<T>): Option<T>
    requires !f.Unusable?
  {
    if f.Set? then Some(f.value) else None
  }

  /** `!data.id || !data.title || !data.category || !data.system` is false. */
  predicate HasRequiredFields(data: Frontmatter) {
    FieldTruthy(data, "id") && FieldTruthy(data, "title") && FieldTruthy(data, "category") && FieldTruthy(data, "system")
  }

  /**
    * The values of a front matter that has the required fields fit the rule record:
    * text for the text fields, a member's name for each union field, lists of texts.
    */
  predicate WellTyped(data: Frontmatter)
    requires HasRequiredFields(data)
  {
    data["id"].Text? && data["title"].Text?
    && data["category"].Text? && ParseRuleCategory(data["category"].text).Some?
    && data["system"].Text? && ParseProjectSystem(data["system"].text).Some?
    && (FieldTruthy(data, "description") ==> data["description"].Text?)
    && !EnumField(data, "language", ParseLanguage).Unusable?
    && !EnumField(data, "codeType", ParseCodeType).Unusable?
    && !ListField(data, "tags").Unusable?
    && !ListField(data, "examples").Unusable?
  }

  /** The rule a well-formed front matter describes, with the given content. */
  function DecodeRule(data: Frontmatter, content: string): Rule
    requires HasRequiredFields(data) && WellTyped(data)
  {
    Rule(
      data["id"].text,
      data["title"].text,
      if FieldTruthy(data, "description") then data["description"].text else "",
      ParseRuleCategory(data["category"].text).value,
      ParseProjectSystem(data["system"].text).value,
      FieldValue(EnumField(data, "language", ParseLanguage)),
      FieldValue(EnumField(data, "codeType", ParseCodeType)),
      content,
      FieldValue(ListField(data, "examples")),
      FieldValue(ListField(data, "tags")))
  }

  /**
    * `loadRuleFromFile(filePath)`: the rule a file describes, or nothing when the file
    * cannot be read or parsed or one of id, title, category and system is missing or falsy.
    */
  function LoadRuleFromFile(read: FileRead): (r: Option<Rule>)
    ensures r.Some? <==> read.Parsed? && HasRequiredFields(read.data) && WellTyped(read.data)
    ensures r.Some? ==> r.value.content == Trim(read.body) && IsTrimmed(r.value.content)
  {
    match read
    case ReadFailed(_) => None
    case Parsed(data, body) =>
      if !HasRequiredFields(data) || !WellTyped(data) then None
      else Some(DecodeRule(data, Trim(body)))
  }

  /**
    * A loaded rule carries the front matter's values: id, title, category and system as
    * given, the description or "" when it is falsy, and each optional field exactly when
    * the front matter sets it (a truthy language or code type, a list of tags or examples).
    */
  lemma LoadRuleFields(read: FileRead)
    requires LoadRuleFromFile(read).Some?
    ensures var rule, data := LoadRuleFromFile(read).value, read.data;
      && data["id"] == Text(rule.id) && data["title"] == Text(rule.title)
      && data["category"] == Text(rule.category.Name())
      && data["system"] == Text(rule.system.Name())
      && rule.description == (if FieldTruthy(data, "description") then data["description"].text else "")
      && (rule.language.Some? <==> FieldTruthy(data, "language"))
      && (rule.language.Some? ==> data["language"] == Text(rule.language.value.Name()))
      && (rule.codeType.Some? <==> FieldTruthy(data, "codeType"))
      && (rule.codeType.Some? ==> data["codeType"] == Text(rule.codeType.value.Name()))
      && (rule.tags.Some? <==> "tags" in data && data["tags"].List?)
      && (rule.tags.Some? ==> data["tags"] == TextList(rule.tags.value))
      && (rule.examples.Some? <==> "examples" in data && data["examples"].List?)
      && (rule.examples.Some? ==> data["examples"] == TextList(rule.examples.value))
  {
    var rule, data := LoadRuleFromFile(read).value, read.data;
    if rule.tags.Some? {
      assert data["tags"].items == TextList(rule.tags.value).items;
    }
    if rule.examples.Some? {
      assert data["examples"].items == TextList(rule.examples.value).items;
    }
  }

  /** The texts as a front-matter list. */
  function TextList(texts: seq<string>): (r: Value)
    ensures r.List? && |r.items| == |texts|
    ensures forall k :: 0 <= k < |texts| ==> r.items[k] == Text(texts[k])
  {
    List(seq(|texts|, k requires 0 <= k < |texts| => Text(texts[k])))
  }

  /** The front matter that describes a rule: every field it holds, under its own key. */
  function RuleFrontmatter(rule: Rule): Frontmatter {
    var base := map["id" := Text(rule.id), "title" := Text(rule.title), "description" := Text(rule.description),
                    "category" := Text(rule.category.Name()), "system" := Text(rule.system.Name())];
    var withLanguage := if rule.language.Some? then base["language" := Text(rule.language.value.Name())] else base;
    var withCodeType := if rule.codeType.Some? then withLanguage["codeType" := Text(rule.codeType.value.Name())] else withLanguage;
    var withTags := if rule.tags.Some? then withCodeType["tags" := TextList(rule.tags.value)] else withCodeType;
    if rule.examples.Some? then withTags["examples" := TextList(rule.examples.value)] else withTags
  }

  lemma {:induction false} TextsOfTextList(texts: seq<string>)
    ensures TextsOf(TextList(texts).items) == Some(texts)
  {
    var r := TextsOf(TextList(texts).items);
    assert r.Some?;
    assert r.value == texts;
  }

  /** The front matter of a rule holds each field under its key, and the optional ones only when set. */
  lemma RuleFrontmatterLookups(rule: Rule)
    ensures var data := RuleFrontmatter(rule);
      && "id" in data && data["id"] == Text(rule.id)
      && "title" in data && data["title"] == Text(rule.title)
      && "description" in data && data["description"] == Text(rule.description)
      && "category" in data && data["category"] == Text(rule.category.Name())
      && "system" in data && data["system"] == Text(rule.system.Name())
      && ("language" in data <==> rule.language.Some?)
      && (rule.language.Some? ==> data["language"] == Text(rule.language.value.Name()))
      && ("codeType" in data <==> rule.codeType.Some?)
      && (rule.codeType.Some? ==> data["codeType"] == Text(rule.codeType.value.Name()))
      && ("tags" in data <==> rule.tags.Some?)
      && (rule.tags.Some? ==> data["tags"] == TextList(rule.tags.value))
      && ("examples" in data <==> rule.examples.Some?)
      && (rule.examples.Some? ==> data["examples"] == TextList(rule.examples.value))
  {
  }

  /**
    * A rule written out as front matter loads back as itself, with the body as its
    * trimmed content, whenever its id and title are not empty.
    */
  lemma {:induction false} LoadRuleRoundTrip(rule: Rule, body: string)
    requires rule.id != "" && rule.title != ""
    ensures LoadRuleFromFile(Parsed(RuleFrontmatter(rule), body)) == Some(rule.(content := Trim(body)))
  {
    var data := RuleFrontmatter(rule);
    RuleFrontmatterLookups(rule);
    NamesRoundTrip(rule.category, All, rule.system, TypeScript, Source);
    if rule.language.Some? {
      NamesRoundTrip(rule.category, All, rule.system, rule.language.value, Source);
    }
    if rule.codeType.Some? {
      NamesRoundTrip(rule.category, All, rule.system, TypeScript, rule.codeType.value);
    }
    EnumFieldOf(data, "language", ParseLanguage, rule.language);
    EnumFieldOf(data, "codeType", ParseCodeType, rule.codeType);
    ListFieldOf(data, "tags", rule.tags);
    ListFieldOf(data, "examples", rule.examples);
    assert HasRequiredFields(data);
    assert WellTyped(data);
  }

  /** A union field written as its member's name reads back as that member; an absent one as unset. */
  lemma EnumFieldOf<T>(data: Frontmatter, key: string, parse: string -> Option<T>, v: Option<T>)
    requires v.None? ==> key !in data
    requires v.Some? ==> key in data && data[key].Text? && data[key].text != "" && parse(data[key].text) == Some(v.value)
    ensures EnumField(data, key, parse) == if v.Some? then Set(v.value) else Unset
  {
  }

  /** A list field written as a list of texts reads back as those texts; an absent one as unset. */
  lemma ListFieldOf(data: Frontmatter, key: string, v: Option<seq<string>>)
    requires v.None? ==> key !in data
    requires v.Some? ==> key in data && data[key] == TextList(v.value)
    ensures ListField(data, key) == if v.Some? then Set(v.value) else Unset
  {
    if v.Some? {
      TextsOfTextList(v.value);
    }
  }

  /** `file.endsWith('.md')`. */
  predicate IsMarkdownName(name: string) {
    EndsWith(name, ".md")
  }

  function MarkdownTest(): Entry -> bool {
    (e: Entry) => IsMarkdownName(e.name)
  }

  /** A Markdown entry of the listing that yields no rule. */
  function InvalidMarkdownTest(): Entry -> bool {
    (e: Entry) => IsMarkdownName(e.name) && LoadRuleFromFile(e.ReadAsFile()).None?
  }

  function LoadTest(): Entry -> Option<Rule> {
    (e: Entry) => LoadRuleFromFile(e.ReadAsFile())
  }

  /** The load result of every entry, in listing order. */
  function LoadEach(files: seq<Entry>): (r: seq<Option<Rule>>)
    ensures |r| == |files|
    ensures forall k :: 0 <= k < |files| ==> r[k] == LoadRuleFromFile(files[k].ReadAsFile())
  {
    MapSeq(files, LoadTest())
  }

  /**
    * `loadRulesFromDirectory(dirPath)`: the rules of the `.md` entries in listing order,
    * skipping those that yield no rule; nothing at all when the directory cannot be listed.
    */
  function LoadRulesFromDirectory(listing: Listing): (r: seq<Rule>)
    ensures listing.ListFailed? ==> r == []
  {
    match listing
    case ListFailed(_) => []
    case Listed(entries) => Somes(LoadEach(Select(entries, MarkdownTest())))
  }

  /** Listing order is kept: the rules of two runs of entries are the rules of each, in turn. */
  lemma LoadRulesAppend(first: seq<Entry>, second: seq<Entry>)
    ensures LoadRulesFromDirectory(Listed(first + second))
         == LoadRulesFromDirectory(Listed(first)) + LoadRulesFromDirectory(Listed(second))
  {
    var a, b := Select(first, MarkdownTest()), Select(second, MarkdownTest());
    SelectAppend(first, second, MarkdownTest());
    MapAppend(a, b, LoadTest());
    SomesAppend(LoadEach(a), LoadEach(b));
  }

  /** One entry yields its rule exactly when its name ends in ".md" and it loads as a rule. */
  lemma LoadRulesSingle(entry: Entry)
    ensures var r := LoadRuleFromFile(entry.ReadAsFile());
            LoadRulesFromDirectory(Listed([entry]))
            == if IsMarkdownName(entry.name) && r.Some? then [r.value] else []
  {
    assert [entry][1..] == [];
  }

  /** Every `.md` entry yields a rule or is counted as invalid; other entries are ignored. */
  lemma {:induction false} LoadRulesCount(entries: seq<Entry>)
    ensures |LoadRulesFromDirectory(Listed(entries))| + |Select(entries, InvalidMarkdownTest())|
         == |Select(entries, MarkdownTest())|
  {
    if entries != [] {
      var head, rest := entries[..1], entries[1..];
      assert entries == head + rest;
      LoadRulesAppend(head, rest);
      SelectAppend(head, rest, InvalidMarkdownTest());
      SelectAppend(head, rest, MarkdownTest());
      SingleCount(entries[0]);
      assert head == [entries[0]];
      LoadRulesCount(rest);
    }
  }

  lemma SingleCount(entry: Entry)
    ensures |LoadRulesFromDirectory(Listed([entry]))| + |Select([entry], InvalidMarkdownTest())|
         == |Select([entry], MarkdownTest())|
  {
    LoadRulesSingle(entry);
    assert [entry][1..] == [];
  }

  /**
    * `path.resolve(__dirname, '../../content/rules')`: the `content/rules` directory two
    * levels above the module's own, spelled with its `..` steps.
    */
  function RulesPath(moduleDir: string): (p: string)
    ensures p == moduleDir + "/../../content/rules"
  {
    Resolve(moduleDir, "../../content/rules")
  }

  /** `path.join(getRulesPath(), system)`. */
  function SystemRulesPath(moduleDir: string, system: string): (p: string)
    ensures RulesPath(moduleDir) + "/" <= p && p[|RulesPath(moduleDir)| + 1..] == system
  {
    PathJoin(RulesPath(moduleDir), system)
  }

  /** Each system has its own rules directory. */
  lemma SystemRulesPathsDistinct(moduleDir: string, a: string, b: string)
    requires IsSegment(a) && IsSegment(b) && a != b
    ensures SystemRulesPath(moduleDir, a) != SystemRulesPath(moduleDir, b)
  {
    if SystemRulesPath(moduleDir, a) == SystemRulesPath(moduleDir, b) {
      PathJoinInjective(RulesPath(moduleDir), a, b);
    }
  }
}
