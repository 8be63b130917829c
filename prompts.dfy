/**
  * The prompt templates: three named prompts, each with two declared arguments and a
  * template that fills its text from an argument map. An argument that is absent or
  * empty takes the template's default.
  */
module Prompts {
  import opened Wrappers
  import opened Text
  import opened Seqs
  import opened Types

  /** `args.key || fallback`: an absent or empty argument takes the fallback. */
  function ArgOr(args: map<string, string>, key: string, fallback: string): (v: string)
    ensures key in args && args[key] != "" ==> v == args[key]
    ensures key !in args || args[key] == "" ==> v == fallback
  {
    if key in args && args[key] != "" then args[key] else fallback
  }

  /** An empty argument is read as an absent one. */
  lemma EmptyArgIsAbsent(args: map<string, string>, key: string, fallback: string)
    ensures ArgOr(args[key := ""], key, fallback) == ArgOr(args - {key}, key, fallback) == fallback
  {
  }

  // The fixed prose between the interpolated values of each template.

  const MicrofrontendRequest := "\n\nPlease provide: ...\n\n## Context\n\n...\n\n## Technical Considerations\n\n"
  const MicrofrontendChecklist := "\n- ...\n\nPlease provide specific recommendations for: ..."
  const MicroserviceRequest := "\n\nPlease provide: ...\n\n## Context\n\n...\n\n"
  const MicroserviceChecklist := "\n\nPlease address: ...\n\n## Specific Recommendations\n\n"
  const MicroserviceSuggestions := "\n- ..."
  const ReviewCriteria := "\n## Review Criteria\n\n...\n\n## Provide Recommendations\n\n..."

  /** The `design-microfrontend` text for an application name and a framework. */
  function MicrofrontendText(appName: string, framework: string): string {
    ("Help me design a microfrontend application named \"" + appName + "\" using " + framework + ".")
    + MicrofrontendRequest
    + ("For " + framework + ":")
    + MicrofrontendChecklist
  }

  /** The `design-microfrontend` template: `app_name` defaults to "my-app", `framework` to "React". */
  function DesignMicrofrontend(args: map<string, string>): string {
    MicrofrontendText(ArgOr(args, "app_name", "my-app"), ArgOr(args, "framework", "React"))
  }

  /** The `design-microservice` text for a service name and a technology. */
  function MicroserviceText(serviceName: string, technology: string): string {
    ("Help me design a microservice named \"" + serviceName + "\" using " + technology + ".")
    + MicroserviceRequest
    + ("## Technical Stack: " + technology)
    + MicroserviceChecklist
    + ("Based on " + technology + ", suggest:")
    + MicroserviceSuggestions
  }

  /** The `design-microservice` template: `service_name` defaults to "my-service", `technology` to "Node.js". */
  function DesignMicroservice(args: map<string, string>): string {
    MicroserviceText(ArgOr(args, "service_name", "my-service"), ArgOr(args, "technology", "Node.js"))
  }

  /** The "Current Architecture" section, present only for a non-empty description. */
  function ContextSection(description: string): string {
    if description != "" then "\n## Current Architecture\n\n" + description + "\n" else ""
  }

  /** The `review-architecture` text for an architecture type and a description. */
  function ReviewText(architectureType: string, description: string): string {
    ("Review my " + architectureType + " architecture and provide feedback.\n")
    + ContextSection(description)
    + ReviewCriteria
  }

  /** The `review-architecture` template: `architecture_type` defaults to "microfrontend", `description` to "". */
  function ReviewArchitecture(args: map<string, string>): string {
    ReviewText(ArgOr(args, "architecture_type", "microfrontend"), ArgOr(args, "description", ""))
  }

  /** With no arguments the defaults are used. */
  lemma DefaultArguments()
    ensures DesignMicrofrontend(map[]) == MicrofrontendText("my-app", "React")
    ensures DesignMicroservice(map[]) == MicroserviceText("my-service", "Node.js")
    ensures ReviewArchitecture(map[]) == ReviewText("microfrontend", "")
  {
    var none: map<string, string> := map[];
    assert ArgOr(none, "app_name", "my-app") == "my-app";
    assert ArgOr(none, "framework", "React") == "React";
    assert ArgOr(none, "service_name", "my-service") == "my-service";
    assert ArgOr(none, "technology", "Node.js") == "Node.js";
    assert ArgOr(none, "architecture_type", "microfrontend") == "microfrontend";
    assert ArgOr(none, "description", "") == "";
  }

  /** Where two values are interpolated into a text, each of the pieces around them appears in it. */
  lemma TwoSlots(a: string, x: string, b: string, y: string, c: string, rest: string, d: string, e: string, tail: string)
    ensures Contains((a + x + b + y + c) + rest + (d + y + e) + tail, b + y + c)
    ensures Contains((a + x + b + y + c) + rest + (d + y + e) + tail, x)
    ensures Contains((a + x + b + y + c) + rest + (d + y + e) + tail, d + y + e)
  {
    var t := (a + x + b + y + c) + rest + (d + y + e) + tail;
    assert t == a + x + (b + y + c + rest + (d + y + e) + tail);
    ContainsMiddle(a, x, b + y + c + rest + (d + y + e) + tail);
    assert t == (a + x) + (b + y + c) + (rest + (d + y + e) + tail);
    ContainsMiddle(a + x, b + y + c, rest + (d + y + e) + tail);
    assert t == ((a + x + b + y + c) + rest) + (d + y + e) + tail;
    ContainsMiddle((a + x + b + y + c) + rest, d + y + e, tail);
  }

  /**
    * The application name and the framework, given or defaulted, appear in the
    * `design-microfrontend` text, the framework again on its "For <framework>:" line.
    */
  lemma MicrofrontendMentions(args: map<string, string>)
    ensures var appName, framework := ArgOr(args, "app_name", "my-app"), ArgOr(args, "framework", "React");
            var text := DesignMicrofrontend(args);
            && Contains(text, appName)
            && Contains(text, "\" using " + framework + ".")
            && Contains(text, "For " + framework + ":")
  {
    var appName, framework := ArgOr(args, "app_name", "my-app"), ArgOr(args, "framework", "React");
    TwoSlots("Help me design a microfrontend application named \"", appName, "\" using ", framework, ".",
             MicrofrontendRequest, "For ", ":", MicrofrontendChecklist);
  }

  /** Where three values are interpolated into a text, each labelled piece appears in it. */
  lemma ThreeSlots(a: string, x: string, b: string, y: string, c: string, rest: string,
                   d: string, mid: string, e: string, f: string, tail: string)
    ensures Contains((a + x + b + y + c) + rest + (d + y) + mid + (e + y + f) + tail, x)
    ensures Contains((a + x + b + y + c) + rest + (d + y) + mid + (e + y + f) + tail, d + y)
    ensures Contains((a + x + b + y + c) + rest + (d + y) + mid + (e + y + f) + tail, e + y + f)
  {
    var t := (a + x + b + y + c) + rest + (d + y) + mid + (e + y + f) + tail;
    assert t == a + x + (b + y + c + rest + (d + y) + mid + (e + y + f) + tail);
    ContainsMiddle(a, x, b + y + c + rest + (d + y) + mid + (e + y + f) + tail);
    assert t == ((a + x + b + y + c) + rest) + (d + y) + (mid + (e + y + f) + tail);
    ContainsMiddle((a + x + b + y + c) + rest, d + y, mid + (e + y + f) + tail);
    assert t == ((a + x + b + y + c) + rest + (d + y) + mid) + (e + y + f) + tail;
    ContainsMiddle((a + x + b + y + c) + rest + (d + y) + mid, e + y + f, tail);
  }

  /**
    * The service name and the technology, given or defaulted, appear in the
    * `design-microservice` text: the technology on its "Technical Stack" heading and in
    * the closing request for suggestions.
    */
  lemma MicroserviceMentions(args: map<string, string>)
    ensures var serviceName, technology := ArgOr(args, "service_name", "my-service"), ArgOr(args, "technology", "Node.js");
            var text := DesignMicroservice(args);
            && Contains(text, serviceName)
            && Contains(text, "## Technical Stack: " + technology)
            && Contains(text, "Based on " + technology + ", suggest:")
  {
    var serviceName, technology := ArgOr(args, "service_name", "my-service"), ArgOr(args, "technology", "Node.js");
    ThreeSlots("Help me design a microservice named \"", serviceName, "\" using ", technology, ".",
               MicroserviceRequest, "## Technical Stack: ", MicroserviceChecklist,
               "Based on ", ", suggest:", MicroserviceSuggestions);
  }

  /** A text made of an opening, a section and a closing starts with the opening and holds the section. */
  lemma ThreePieces(opening: string, section: string, closing: string)
    ensures opening <= opening + section + closing
    ensures Contains(opening + section + closing, section)
  {
    ContainsMiddle(opening, section, closing);
  }

  /**
    * The `review-architecture` text opens with the architecture type; a non-empty
    * description is inserted under a "Current Architecture" heading, and without one the
    * opening line is followed directly by the review criteria.
    */
  lemma ReviewMentions(args: map<string, string>)
    ensures var architectureType, description := ArgOr(args, "architecture_type", "microfrontend"), ArgOr(args, "description", "");
            var text, opening := ReviewArchitecture(args), "Review my " + architectureType + " architecture and provide feedback.\n";
            && opening <= text
            && (description != "" ==> Contains(text, "\n## Current Architecture\n\n" + description + "\n"))
            && (description == "" ==> text == opening + ReviewCriteria)
  {
    var architectureType, description := ArgOr(args, "architecture_type", "microfrontend"), ArgOr(args, "description", "");
    ThreePieces("Review my " + architectureType + " architecture and provide feedback.\n", ContextSection(description), ReviewCriteria);
  }

  // The prompt table.

  const DesignMicrofrontendPrompt := PromptTemplate(
    "design-microfrontend",
    "Help design a new microfrontend application",
    [PromptArgument("app_name", "Name of the microfrontend application", true),
     PromptArgument("framework", "Frontend framework (React, Vue, Angular, etc.)", false)],
    (args: map<string, string>) => DesignMicrofrontend(args))

  const DesignMicroservicePrompt := PromptTemplate(
    "design-microservice",
    "Help design a new microservice",
    [PromptArgument("service_name", "Name of the microservice", true),
     PromptArgument("technology", "Technology stack (Node.js, Java, Python, etc.)", false)],
    (args: map<string, string>) => DesignMicroservice(args))

  const ReviewArchitecturePrompt := PromptTemplate(
    "review-architecture",
    "Review and provide feedback on application architecture",
    [PromptArgument("architecture_type", "Type of architecture (microfrontend, microservice, monolith)", true),
     PromptArgument("description", "Description of the architecture to review", false)],
    (args: map<string, string>) => ReviewArchitecture(args))

  /** The registered prompts, in registration order. */
  const AllPrompts: seq<PromptTemplate> := [DesignMicrofrontendPrompt, DesignMicroservicePrompt, ReviewArchitecturePrompt]

  /**
    * `getAllPrompts()`: the three prompts in registration order, with distinct names;
    * each declares two arguments, the first required and the second optional, and
    * renders its text with its template.
    */
  function GetAllPrompts(): (r: seq<PromptTemplate>)
    ensures |r| == 3
    ensures r[0].name == "design-microfrontend" && r[1].name == "design-microservice" && r[2].name == "review-architecture"
    ensures forall k :: 0 <= k < |r| ==> |r[k].arguments| == 2 && r[k].arguments[0].required && !r[k].arguments[1].required
    ensures forall args :: r[0].template(args) == DesignMicrofrontend(args)
    ensures forall args :: r[1].template(args) == DesignMicroservice(args)
    ensures forall args :: r[2].template(args) == ReviewArchitecture(args)
  {
    AllPrompts
  }

  function NameTest(name: string): PromptTemplate -> bool {
    (p: PromptTemplate) => p.name == name
  }

  /**
    * `getPromptByName(name)`: the first registered prompt with that name, or nothing when
    * no prompt has it.
    */
  function GetPromptByName(name: string): (r: Option<PromptTemplate>)
    ensures r.Some? ==> r.value.name == name && r.value in AllPrompts
    ensures r.None? <==> name !in ["design-microfrontend", "design-microservice", "review-architecture"]
  {
    var all := GetAllPrompts();
    assert forall k :: 0 <= k < |all| ==> all[k].name in ["design-microfrontend", "design-microservice", "review-architecture"];
    Find(all, NameTest(name))
  }

  /** Each registered prompt is found under its own name: the names are distinct. */
  lemma PromptByName(k: nat)
    requires k < |GetAllPrompts()|
    ensures GetPromptByName(GetAllPrompts()[k].name) == Some(GetAllPrompts()[k])
  {
    var all := GetAllPrompts();
    FindAt(all, NameTest(all[k].name), k);
  }

  /** Two argument maps that agree on the declared arguments. */
  ghost predicate AgreeOn(declared: seq<PromptArgument>, a: map<string, string>, b: map<string, string>) {
    forall k :: 0 <= k < |declared| ==>
      (declared[k].name in a <==> declared[k].name in b) &&
      (declared[k].name in a ==> a[declared[k].name] == b[declared[k].name])
  }

  /** Two argument maps that agree on two keys give the same values for them. */
  lemma SameArguments(declared: seq<PromptArgument>, a: map<string, string>, b: map<string, string>,
                      firstDefault: string, secondDefault: string)
    requires |declared| == 2 && AgreeOn(declared, a, b)
    ensures ArgOr(a, declared[0].name, firstDefault) == ArgOr(b, declared[0].name, firstDefault)
    ensures ArgOr(a, declared[1].name, secondDefault) == ArgOr(b, declared[1].name, secondDefault)
  {
  }

  /** A template reads only the arguments its prompt declares: any other argument is ignored. */
  lemma DeclaredArgumentsOnly(k: nat, a: map<string, string>, b: map<string, string>)
    requires k < |GetAllPrompts()| && AgreeOn(GetAllPrompts()[k].arguments, a, b)
    ensures GetAllPrompts()[k].template(a) == GetAllPrompts()[k].template(b)
  {
    var declared := GetAllPrompts()[k].arguments;
    if k == 0 {
      SameArguments(declared, a, b, "my-app", "React");
    } else if k == 1 {
      SameArguments(declared, a, b, "my-service", "Node.js");
    } else {
      SameArguments(declared, a, b, "microfrontend", "");
    }
  }
}
