# Rules MCP server: a Dafny model of its registries

This project models the core of a Model Context Protocol server that serves
development guidance to AI assistants. The server has these parts:

- **Built-in rule tables.** There is one for microfrontend projects and one for microservice projects. Each is queried through a filter chain: an optional category (the default is the sentinel "all"), then an optional language, then an optional code type. A language or code-type criterion keeps the rules that leave that field unset.
- **A rules registry.** It dispatches a query to the table of the named system and renders a rule collection as Markdown-style text.
- **A Markdown rule loader.** It reads rules from `.md` files with YAML front matter.
- **A generic content loader.** It reads one Markdown file, or every Markdown file of a directory, optionally recursively. It also validates that front-matter keys are present.
- **A resource registry and a tool registry.** Each loads its Markdown files through the content loader, keeps the items whose front matter has the required keys, and caches the list until the cache is cleared.
- **Three prompt templates.** These are `design-microfrontend`, `design-microservice` and `review-architecture`. Each renders its text from an argument map and falls back to a default for an absent or empty argument.
- **The server configuration.** It holds a content directory, which is initialised lazily from the `MCP_CONTENT_PATH` environment variable or a default next to the module. An explicit override replaces it, a reset clears it, and the prompts, rules and per-system rules directories are derived from it.

## How the model is organised

Each core source file becomes a module. Pure code is written as functions and lemmas. Code that changes module state is written as classes:

- `ResourceRegistry` and `ToolRegistry` keep their caches in a field.
- `ConfigStore` holds a nullable `ServerConfig` object.

Loops are methods with invariants, each proved against a specification function:

- `FormatRulesAsText` and `FormatSection`
- `LoadMarkdownDirectory`, whose loop body for one entry is the method `LoadEntry`
- `LoadResources` and `LoadTools`

The file system and the YAML parser do not appear in the model. A directory is passed in as a `Listing`, which holds its entries or the error that listing it raised. A file's content is a `FileRead`, which holds the parsed front matter and body, or the error that reading it raised.

Helper modules:

- `Wrappers`: the `Option`, `Result` and `Outcome` types.
- `Text`: the JavaScript string operations the source uses, namely `trim`, `endsWith`, `join`, `includes`, number rendering, capitalisation and the path helpers.
- `Seqs`: `filter` (written `Select`), `map` and `find`, with their algebra.
- `Documents`: front-matter values with JavaScript truthiness, and directory entries.

## Model

| member | source | states |
|---|---|---|
| Types.ParseRuleCategory | src/types/index.ts:13 | A text reads as a category only if it is that category's name; otherwise no category has that name |
| Types.ParseRuleCategoryFilter | src/types/index.ts:8 | A text reads as a category criterion only if it is the criterion's name |
| Types.ParseProjectSystem | src/types/index.ts:18 | A text reads as a system only if it is that system's name |
| Types.ParseLanguage | src/types/index.ts:23 | A text reads as a language only if it is that language's name |
| Types.ParseCodeType | src/types/index.ts:28 | A text reads as a code type only if it is that code type's name |
| Types.RuleCategoryNames | src/types/index.ts:13 | The categories are exactly architecture, performance, security and testing |
| Types.RuleCategoryFilterNames | src/types/index.ts:8 | The criteria are the categories plus "all", and only "all" reads as the sentinel |
| Types.ProjectSystemNames | src/types/index.ts:18 | The systems are exactly microfrontend and microservice |
| Types.LanguageNames | src/types/index.ts:23 | The languages are exactly the six listed names |
| Types.CodeTypeNames | src/types/index.ts:28 | The code types are exactly source and test |
| Types.NamesRoundTrip | src/types/index.ts:8-28 | Every member of every union reads back from its name, and the names are non-empty |
| Types.GetRulesInput.CategoryArg | src/types/index.ts:83-87 | A typed category criterion becomes a text argument that reads back as the same criterion |
| Types.GetRulesInput.LanguageArg | src/types/index.ts:83-87 | A typed language becomes a text argument that reads back as the same language |
| Types.GetRulesInput.CodeTypeArg | src/types/index.ts:83-87 | A typed code type becomes a text argument that reads back as the same code type |
| Documents.Lookup | src/resources/index.ts:56-60 | A present key gives its value and an absent key gives undefined |
| Seqs.Select | src/rules/microservice/index.ts:20-34 | `filter` keeps exactly the passing elements, in their order, and nothing else |
| Seqs.SubsequenceMembers | src/rules/microservice/index.ts:20-34 | Every element of a filtered list comes from the original list |
| Seqs.SelectAppend | src/utils/markdownLoader.ts:22 | Filtering distributes over concatenation |
| Seqs.SelectSameTest | src/rules/microservice/index.ts:20-34 | Two tests that agree on every element filter alike |
| Seqs.SelectKeepsAll | src/rules/microservice/index.ts:20 | A filter that every element passes returns the list unchanged |
| Seqs.SelectDropsAll | src/rules/microservice/index.ts:20-34 | A filter that no element passes returns the empty list |
| Seqs.SelectIdempotent | src/rules/microservice/index.ts:20-34 | Filtering twice by the same test is filtering once |
| Seqs.SelectFuse | src/rules/microservice/index.ts:20-34 | Two filters in a row are one filter by the conjunction of their tests |
| Seqs.SelectCommute | src/rules/microservice/index.ts:20-34 | Consecutive filters commute |
| Seqs.SelectPartition | src/utils/markdownLoader.ts:22 | Elements kept plus elements dropped is every element |
| Seqs.Somes | src/utils/markdownLoader.ts:31 | Dropping the nulls keeps exactly the present values: every kept value was present and every present value is kept, and the result is no longer than the input |
| Seqs.SomesCons | src/utils/markdownLoader.ts:31 | A present first value leads the result and an absent one is dropped, so the present values keep their order |
| Seqs.SomesAppend | src/utils/markdownLoader.ts:31 | Dropping the nulls distributes over concatenation |
| Seqs.MapSeq | src/tools/index.ts:99-103 | `map` keeps the length and applies the function at every index |
| Seqs.MapAppend | src/tools/index.ts:99-103 | Mapping distributes over concatenation |
| Seqs.Find | src/prompts/index.ts:223 | `find` returns nothing only if no element passes, and otherwise returns the first element that passes |
| Seqs.FindAt | src/resources/index.ts:84 | An element that passes, with no earlier element passing, is what `find` returns |
| RuleFilter.ByCategory | src/rules/microservice/index.ts:20-22 | The category stage filters by category name, unless the category is "all" or absent |
| RuleFilter.ByLanguage | src/rules/microservice/index.ts:24-28 | The language stage keeps rules whose language is unset or equal to the argument, when the argument is non-empty |
| RuleFilter.ByCodeType | src/rules/microservice/index.ts:30-34 | The code-type stage keeps rules whose code type is unset or equal to the argument, when the argument is non-empty |
| RuleFilter.FilterRules | src/rules/microservice/index.ts:18-34 | The three-stage chain equals a single filter by the conjunction of all active criteria |
| RuleFilter.FilterMembership | src/rules/microservice/index.ts:18-34 | A rule is in the result exactly when it is in the table and meets every criterion; the result keeps table order |
| RuleFilter.CategoryAllIsNoFilter | src/rules/microservice/index.ts:13-22 | An omitted category and "all" give the same result, which only the other two criteria filter |
| RuleFilter.CategoryKeepsEqual | src/rules/microservice/index.ts:20-22 | Any other category keeps exactly the rules whose category has that name |
| RuleFilter.EmptyArgumentIsNoFilter | src/rules/microservice/index.ts:24-34 | An empty language or code type filters nothing, just like an absent one |
| RuleFilter.UnsetFieldMatchesAny | src/rules/microservice/index.ts:26 | A rule without a language passes every language criterion |
| RuleFilter.FilterIdempotent | src/rules/microservice/index.ts:18-34 | Filtering a result again with the same criteria changes nothing |
| RuleFilter.FilterAnyOrder | src/rules/microservice/index.ts:18-34 | The three stages give the same result in every order |
| RuleFilter.NoCriteriaKeepsAll | src/rules/microservice/index.ts:13-18 | With no criteria, or with only "all", every rule comes back in order |
| RuleFilter.LanguageFreeRules | src/rules/microservice/index.ts:24-28 | Over rules that all leave the language unset, a language criterion removes nothing |
| MicrofrontendRules.GetMicrofrontendRules | src/rules/microfrontend/index.ts:12-41 | The result is labelled microfrontend, carries the language argument as given, and holds exactly the matching table rules in table order |
| MicrofrontendRules.NoCriteriaReturnsTable | src/rules/microfrontend/index.ts:12-41 | With no criteria, or with "all", the whole table comes back |
| MicrofrontendRules.ArchitectureTypeScript | src/rules/microfrontend/index.ts:47-151 | architecture with typescript yields only mfe-arch-001 |
| MicrofrontendRules.PythonKeepsOnlyLanguageFree | src/rules/microfrontend/index.ts:47-151 | python yields only mfe-test-001, the one rule without a language |
| MicrofrontendRules.TestCodeType | src/rules/microfrontend/index.ts:47-151 | Code type test yields only mfe-test-001 |
| MicroserviceRules.GetMicroserviceRules | src/rules/microservice/index.ts:12-41 | The result is labelled microservice, carries the language argument as given, and holds exactly the matching table rules in table order |
| MicroserviceRules.NoCriteriaReturnsTable | src/rules/microservice/index.ts:12-41 | With no criteria, or with "all", all four rules come back in order |
| MicroserviceRules.OneRulePerCategory | src/rules/microservice/index.ts:47-204 | Each category selects exactly one rule, and that rule has that category |
| MicroserviceRules.ArchitectureQuery | src/rules/microservice/index.ts:47-204 | architecture yields exactly ms-arch-001 |
| MicroserviceRules.PerformanceQuery | src/rules/microservice/index.ts:47-204 | performance yields exactly ms-perf-001 |
| MicroserviceRules.SecurityQuery | src/rules/microservice/index.ts:47-204 | security yields exactly ms-sec-001 |
| MicroserviceRules.TestingQuery | src/rules/microservice/index.ts:47-204 | testing yields exactly ms-test-001 |
| MicroserviceRules.LanguageRemovesNothing | src/rules/microservice/index.ts:24-28 | No microservice rule has a language, so a language criterion never changes the result |
| MicroserviceRules.TestKeepsAll | src/rules/microservice/index.ts:30-34 | Code type test keeps all four rules |
| MicroserviceRules.SourceDropsTestRule | src/rules/microservice/index.ts:30-34 | Code type source drops only ms-test-001 |
| RulesRegistry.GetRules | src/rules/index.ts:15-29 | A known system name dispatches to that system's getter; any other name gives the error "Unknown system: <name>"; every returned rule belongs to the system and meets the criteria |
| RulesRegistry.FormatSection | src/rules/index.ts:51-65 | Appending a rule's lines one by one builds exactly that rule's section |
| RulesRegistry.FormatRulesAsText | src/rules/index.ts:34-69 | Appending the heading, language line, count and sections builds exactly the specified rendering |
| RulesRegistry.MicrofrontendHeading | src/rules/index.ts:37 | The microfrontend heading is "# Microfrontend Rules" |
| RulesRegistry.MicroserviceHeading | src/rules/index.ts:37 | The microservice heading is "# Microservice Rules" |
| RulesRegistry.RenderHeading | src/rules/index.ts:37 | The text opens with the capitalised system name |
| RulesRegistry.RenderLanguageLine | src/rules/index.ts:39-41 | A non-empty language inserts exactly "Language: <language>" after the heading; an empty one inserts nothing |
| RulesRegistry.RenderEmptyIff | src/rules/index.ts:43-46 | The text ends with the no-rules line exactly when there are no rules |
| RulesRegistry.SectionsInOrder | src/rules/index.ts:50-51 | Sections are numbered from 1 in list order |
| RulesRegistry.RenderCount | src/rules/index.ts:48 | The count line's digits read back as the number of rules |
| RulesRegistry.LanguageLineInserted | src/rules/index.ts:54-56 | A rule language inserts exactly its line after the category line |
| RulesRegistry.CodeTypeLineInserted | src/rules/index.ts:57-59 | A code type inserts exactly its line after the language line |
| RulesRegistry.TagsLineInserted | src/rules/index.ts:60-62 | Non-empty tags insert the comma-joined tags line; an empty list inserts nothing |
| MarkdownLoader.TextOf | src/utils/markdownLoader.ts:54-58 | A front-matter value reads as text exactly when it is text |
| MarkdownLoader.TextsOf | src/utils/markdownLoader.ts:71-77 | A list reads as texts exactly when every item is text, keeping each item |
| MarkdownLoader.LoadRuleFromFile | src/utils/markdownLoader.ts:41-84 | A file yields a rule exactly when it parses and has truthy id, title, category and system of the right types; the content is the trimmed body |
| MarkdownLoader.LoadRuleFields | src/utils/markdownLoader.ts:53-77 | Each field of a loaded rule comes from its front-matter key; a missing description becomes ""; falsy optional fields stay unset |
| MarkdownLoader.TextList | src/utils/markdownLoader.ts:71-77 | A list of texts is written as a front-matter list of the same length and items |
| MarkdownLoader.RuleFrontmatterLookups | src/utils/markdownLoader.ts:47-77 | A rule's front matter holds each field under its key, and holds the optional fields only when they are set |
| MarkdownLoader.LoadRuleRoundTrip | src/utils/markdownLoader.ts:41-84 | Writing a rule as front matter and loading it gives back the rule, with the trimmed body as content |
| MarkdownLoader.LoadEach | src/utils/markdownLoader.ts:24-29 | Every Markdown entry is loaded, in listing order |
| MarkdownLoader.LoadRulesFromDirectory | src/utils/markdownLoader.ts:19-36 | A directory that cannot be listed yields no rules |
| MarkdownLoader.LoadRulesAppend | src/utils/markdownLoader.ts:19-36 | The rules of two runs of entries are the rules of each, in turn |
| MarkdownLoader.LoadRulesSingle | src/utils/markdownLoader.ts:22-31 | One entry yields its rule exactly when its name ends in ".md" and it loads |
| MarkdownLoader.LoadRulesCount | src/utils/markdownLoader.ts:22-31 | Loaded rules plus invalid Markdown entries equals the number of Markdown entries |
| MarkdownLoader.RulesPath | src/utils/markdownLoader.ts:89-92 | The rules directory is the module directory followed by /../../content/rules, with the `..` steps as written |
| MarkdownLoader.SystemRulesPath | src/utils/markdownLoader.ts:97-99 | A system's rules directory is the rules directory, a separator, then exactly the system name |
| MarkdownLoader.SystemRulesPathsDistinct | src/utils/markdownLoader.ts:97-99 | Distinct system names, each one path segment, have distinct rules directories |
| ContentLoader.LoadMarkdownFile | src/utils/contentLoader.ts:30-45 | A file loads exactly when it can be read and parsed; the item keeps the front matter and the path and holds the trimmed body; otherwise the error names the file and the cause |
| ContentLoader.MissingFields | src/utils/contentLoader.ts:99 | The missing fields are exactly the required fields that are neither keys of the front matter nor names inherited from Object.prototype, in their order |
| ContentLoader.ValidateFrontmatter | src/utils/contentLoader.ts:94-106 | Validation passes exactly when every required name is a key of the front matter or an inherited name; otherwise the message names the file and the comma-joined missing fields |
| ContentLoader.InheritedNamesPass | src/utils/contentLoader.ts:99 | Against an empty front matter, a single required name passes exactly when it is inherited from Object.prototype, such as toString |
| ContentLoader.ValidateKeysOnly | src/utils/contentLoader.ts:99 | Validation looks only at which keys are present, not at their values |
| ContentLoader.ValidateNamesMissing | src/utils/contentLoader.ts:101-105 | Any required field that is neither a key nor an inherited name fails validation and appears in the message |
| ContentLoader.EntryItems | src/utils/contentLoader.ts:65-77 | Only a subdirectory read recursively can raise an error; other entries yield items or nothing |
| ContentLoader.AppendItems | src/utils/contentLoader.ts:68-73 | Appending succeeds exactly when both parts do, and the first error wins |
| ContentLoader.AppendItemsAssoc | src/utils/contentLoader.ts:62-78 | Appending results is associative |
| ContentLoader.DirectoryItems | src/utils/contentLoader.ts:54-84 | A directory that cannot be listed gives the error "Failed to load markdown directory <dir>: <cause>" |
| ContentLoader.EntriesAppend | src/utils/contentLoader.ts:62-78 | The items of two runs of entries are the items of each, in turn, and the first error wins |
| ContentLoader.LoadMarkdownDirectory | src/utils/contentLoader.ts:54-84 | The loop over the entries computes exactly the specified directory result |
| ContentLoader.LoadEntry | src/utils/contentLoader.ts:63-76 | One pass of the loop contributes exactly that entry's specified items |
| ContentLoader.FlatLoad | src/utils/contentLoader.ts:62-78 | A non-recursive load never fails on an entry; it yields one item per readable Markdown file, in listing order, with path, front matter and trimmed body |
| ContentLoader.SkipsEmptyEntry | src/utils/contentLoader.ts:62-78 | An entry that yields nothing leaves the result as if it were absent |
| ContentLoader.SkipsFailingFile | src/utils/contentLoader.ts:71-76 | A Markdown file that cannot be read is skipped |
| ContentLoader.SkipsOtherFile | src/utils/contentLoader.ts:69 | A file whose name does not end in ".md" is ignored |
| ContentLoader.SubdirectoryIgnoredFlat | src/utils/contentLoader.ts:65 | Without recursion, subdirectories are ignored |
| ContentLoader.SubdirectoryFailurePropagates | src/utils/contentLoader.ts:65-83 | With recursion, an unreadable subdirectory fails the whole load, with the inner error wrapped in the outer one |
| Resources.ValidResources | src/resources/index.ts:46-65 | The kept resources are no more than the items |
| Resources.ValidResourcesSelect | src/resources/index.ts:46-65 | The loop keeps exactly the items that have the four keys, in order, whatever the values, and turns each into its resource |
| Resources.ResourceItemKeys | src/resources/index.ts:49-53 | Validation passes exactly when uri, name, description and mimeType are keys of the front matter, none of them being an inherited name |
| Resources.FreshLoadListed | src/resources/index.ts:43-69 | A listable resources directory always loads successfully |
| Resources.FindByUri | src/resources/index.ts:84 | The found resource has the uri and is in the list; nothing is found only if no resource has the uri |
| Resources.FindByUriFirst | src/resources/index.ts:84 | The first resource with the uri is the one found |
| Resources.ResourceRegistry.constructor | src/resources/index.ts:17-30 | The cache starts empty |
| Resources.ResourceRegistry.LoadResources | src/resources/index.ts:37-70 | A cached list, even an empty one, is returned without reading the directory; otherwise the fresh load is returned and cached if it succeeds |
| Resources.ResourceRegistry.GetAllResources | src/resources/index.ts:75-77 | Returns exactly what loading returns, with the same effect on the cache |
| Resources.ResourceRegistry.GetResourceByUri | src/resources/index.ts:82-85 | Returns the first loaded resource with the uri, or propagates the load error; a filled cache is kept, an empty one is filled by a successful load and stays empty after a failed one |
| Resources.ResourceRegistry.ClearResourcesCache | src/resources/index.ts:90-92 | The cache is emptied |
| Resources.CacheLifecycle | src/resources/index.ts:37-92 | A successful first load is returned again after the directory changes, until the cache is cleared |
| Tools.ValidTools | src/tools/index.ts:62-81 | The kept tools are no more than the items |
| Tools.ToolItemKeys | src/tools/index.ts:65-69 | Validation passes exactly when name, description and inputSchema are keys of the front matter, none of them being an inherited name |
| Tools.ValidToolsSelect | src/tools/index.ts:62-81 | The loop keeps exactly the items with the three keys, in order, and turns each into its tool, with the system only when present |
| Tools.Summaries | src/tools/index.ts:99-103 | Every tool is summarised by its name, description and input schema, in order |
| Tools.FindByName | src/tools/index.ts:114 | The found tool has the name and is in the list; nothing is found only if no tool has the name |
| Tools.FindByNameFirst | src/tools/index.ts:114 | The first tool with the name is the one found |
| Tools.ToolRegistry.constructor | src/tools/index.ts:17-46 | The cache starts empty |
| Tools.ToolRegistry.LoadTools | src/tools/index.ts:53-86 | A cached list is returned without reading the directory; otherwise the fresh load is returned and cached if it succeeds |
| Tools.ToolRegistry.GetAllTools | src/tools/index.ts:93-104 | Returns the summaries of the loaded tools, or the load error; a filled cache is kept, an empty one is filled by a successful load and stays empty after a failed one |
| Tools.ToolRegistry.GetToolByName | src/tools/index.ts:112-115 | Returns the first loaded tool with the name, or the load error; a filled cache is kept, an empty one is filled by a successful load and stays empty after a failed one |
| Tools.ToolRegistry.ClearToolsCache | src/tools/index.ts:120-122 | The cache is emptied |
| Tools.CacheLifecycle | src/tools/index.ts:53-122 | A successful first load is returned again after the directory changes, until the cache is cleared |
| Prompts.ArgOr | src/prompts/index.ts:29-30 | A present non-empty argument is used; an absent or empty one takes the fallback |
| Prompts.EmptyArgIsAbsent | src/prompts/index.ts:29-30 | An empty argument reads exactly like an absent one |
| Prompts.DefaultArguments | src/prompts/index.ts:28-143 | With no arguments, the defaults my-app/React, my-service/Node.js and microfrontend with no description are used |
| Prompts.MicrofrontendMentions | src/prompts/index.ts:32-62 | The microfrontend text contains the application name and the framework, including on the "For <framework>:" line |
| Prompts.MicroserviceMentions | src/prompts/index.ts:84-123 | The microservice text contains the service name, "## Technical Stack: <technology>" and "Based on <technology>, suggest:" |
| Prompts.ReviewMentions | src/prompts/index.ts:141-207 | The review text opens with the architecture type; a non-empty description appears under "Current Architecture"; with none, the criteria follow the opening directly |
| Prompts.GetAllPrompts | src/prompts/index.ts:12-217 | The three prompts in order, each with a required first argument and an optional second one, each rendering its own text |
| Prompts.GetPromptByName | src/prompts/index.ts:222-224 | A found prompt has the name; nothing is found exactly for names other than the three |
| Prompts.PromptByName | src/prompts/index.ts:222-224 | Each registered prompt is found under its own name |
| Prompts.DeclaredArgumentsOnly | src/prompts/index.ts:28-143 | A template reads only its declared arguments |
| Config.DefaultContentPath | src/config.ts:31 | The default content directory is the module directory followed by /../content, with the `..` step as written |
| Config.InitialContentPath | src/config.ts:33-35 | A non-empty environment variable takes precedence over the default; an empty or unset one does not |
| Config.DerivedPaths | src/config.ts:58-76 | The prompts and rules directories are spelled under the content directory and differ; each system's directory is spelled under the rules directory, and distinct single-segment system names have distinct directories |
| Config.ServerConfig.constructor | src/config.ts:17-20 | The record holds the given content directory |
| Config.ConfigStore.constructor | src/config.ts:22 | There is no configuration at first |
| Config.ConfigStore.GetConfig | src/config.ts:28-39 | The first call creates the record from the environment or the default; later calls return the same record, and the environment is not read again |
| Config.ConfigStore.SetContentPath | src/config.ts:46-53 | The record is created if needed, and its content directory becomes the resolved path, which is absolute for an absolute working directory (see Text.Resolve) |
| Config.ConfigStore.GetPromptsPath | src/config.ts:58-60 | The prompts directory under the current content directory |
| Config.ConfigStore.GetRulesPath | src/config.ts:65-67 | The rules directory under the current content directory |
| Config.ConfigStore.GetSystemRulesPath | src/config.ts:74-76 | The system's directory under the rules directory |
| Config.ConfigStore.ResetConfig | src/config.ts:81-83 | The configuration is forgotten |
| Config.ConfigLifecycle | src/config.ts:28-83 | The first environment value sticks; an override replaces it; after a reset the current environment is read again |
| Text.Trim | src/utils/contentLoader.ts:39 | `trim()` removes only white space from both ends and leaves a trimmed text |
| Text.TrimIdempotent | src/utils/markdownLoader.ts:59 | Trimming twice is trimming once |
| Text.TrimPadded | src/utils/markdownLoader.ts:59 | Trimming a trimmed text padded with white space gives the text back |
| Text.JoinContains | src/utils/contentLoader.ts:103 | Every joined item appears in the joined text |
| Text.DecimalRoundTrip | src/rules/index.ts:48-51 | A rendered number reads back as the number |
| Text.DecimalInjective | src/rules/index.ts:51 | Distinct numbers render differently |
| Text.UpperFirst | src/rules/index.ts:37 | The first character becomes its upper-case form and the rest is unchanged |
| Text.PathJoinInjective | src/utils/contentLoader.ts:63 | Distinct single-segment names under one directory give distinct paths |
| Text.Resolve | src/config.ts:44-52 | An absolute path resolves to itself; a relative path becomes the working directory, a separator, then exactly that path; an empty path gives the working directory; the result is absolute whenever the working directory is |

## Left out

- File system and YAML parsing: a directory is modelled as the `Listing` it produces at call time, and a file as the `FileRead` it produces. Asynchronous reads, `Promise.all`, symbolic links and special entries are not modelled.
- The MCP server, request handlers, transport and logging (`console.warn` / `console.error`) are not part of this model.
- Prompts: the fixed prose between the interpolated values of each prompt text is abbreviated to its headings, and everything else in it is treated as an opaque string. The placement of every interpolated value and of the context section is as in the source.
- Rule tables: each rule's Markdown body (`content`), code samples included, is abbreviated to its heading line.
- MarkdownLoader.LoadRuleFromFile: the source casts front-matter values to the rule's field types without checking them. The model yields no rule when a value has the wrong type (for example, a category outside the union or a non-text id), so rules with mistyped fields are not represented.
- Documents.Value: YAML numbers are integers only, and dates are not modelled.
- Documents.Lookup: JavaScript `undefined` (an absent key) is modelled as `Null`.
- ContentLoader.DirectoryItems: the `${error}` rendering of a nested failure is modelled as "Error: " followed by the message.
- Text.UpperFirst: capitalisation covers ASCII letters only.
- Text.PathJoin and Text.Resolve: the model's joins leave out the normalisation Node's `path.join` and `path.resolve` perform: `..` and `.` segments, repeated separators, trailing separators and empty segments are kept as spelled (`path.join(rules, "")` is `rules`, while the model gives `rules + "/"`). The "under the directory" claims of Config.DerivedPaths and MarkdownLoader.SystemRulesPath are about the path as spelled. The distinctness claims hold only for single-segment names, which normalisation keeps apart.
- Config.DefaultContentPath and MarkdownLoader.RulesPath: the result is the path as spelled with its `..` steps. The model does not state the directory it names once normalised. For the default content path that is the `content` directory beside the module's directory, and for the rules path it is `content/rules` two levels above.
- ContentLoader.HasProperty: the inherited names are those of `Object.prototype` for a plain object. Front matters with another prototype are not modelled.
- Config: the environment variable and the working directory are parameters. The ways a caller could mutate the returned configuration object directly are not modelled beyond `setContentPath`.
