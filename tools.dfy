/**
  * The tools registry: the `.md` files of the tools directory become tool definitions,
  * those whose front matter lacks a required key are skipped, the result is kept in a
  * load-once cache, and tools can be listed without their bodies or looked up by name.
  */
module Tools {
  import opened Wrappers
  import opened Text
  import opened Seqs
  import opened Documents
  import opened ContentLoader

  /** A tool definition: front-matter values as parsed, the optional system, and the body. */
  datatype Tool = Tool(name: Value, description: Value, system: Option<Value>, inputSchema: Value, content: string)

  /** The three fields `getAllTools` exposes for each tool. */
  datatype ToolSummary = ToolSummary(name: Value, description: Value, inputSchema: Value)

  /** The front-matter keys every tool file must have; `system` is optional. */
  const ToolFields: seq<string> := ["name", "description", "inputSchema"]

  /** `path.join(__dirname, "../../content/tools")`. */
  function ToolsDir(moduleDir: string): string {
    PathJoin(moduleDir, "../../content/tools")
  }

  /** The tool an item describes; an absent `system` stays absent. */
  function ToolOf(item: ContentItem): Tool {
    Tool(Lookup(item.data, "name"), Lookup(item.data, "description"),
         if "system" in item.data then Some(item.data["system"]) else None,
         Lookup(item.data, "inputSchema"), item.content)
  }

  /** `validateFrontmatter` does not throw for the item. */
  predicate IsToolItem(item: ContentItem) {
    ValidateFrontmatter(item.data, ToolFields, item.filePath).Pass?
  }

  /** The outcome of the validate-and-collect loop over the items it has seen so far. */
  function ValidTools(items: seq<ContentItem>): (r: seq<Tool>)
    ensures |r| <= |items|
  {
    if items == [] then []
    else
      var last := items[|items| - 1];
      ValidTools(items[..|items| - 1]) + if IsToolItem(last) then [ToolOf(last)] else []
  }

  /** One more item: the loop's outcome grows by that item's entry if it validates. */
  lemma ValidToolsStep(items: seq<ContentItem>, i: nat)
    requires i < |items|
    ensures ValidTools(items[..i + 1]) == ValidTools(items[..i]) + if IsToolItem(items[i]) then [ToolOf(items[i])] else []
  {
    assert items[..i + 1][..i] == items[..i];
  }

  function HasKeysTest(): ContentItem -> bool {
    (item: ContentItem) => "name" in item.data && "description" in item.data && "inputSchema" in item.data
  }

  function ToolOfItem(): ContentItem -> Tool {
    (item: ContentItem) => ToolOf(item)
  }

  /** Validation passes exactly when the three keys are present; `system` plays no part. */
  lemma ToolItemKeys(item: ContentItem)
    ensures IsToolItem(item) == HasKeysTest()(item)
  {
    assert ToolFields[0] == "name" && ToolFields[1] == "description" && ToolFields[2] == "inputSchema";
    OwnKeys(item.data, ToolFields);
  }

  /**
    * The loop keeps exactly the items whose front matter has the three keys, whatever the
    * values, in item order, and turns each into its tool.
    */
  lemma {:induction false} ValidToolsSelect(items: seq<ContentItem>)
    ensures ValidTools(items) == MapSeq(Select(items, HasKeysTest()), ToolOfItem())
  {
    if items != [] {
      var front, last := items[..|items| - 1], items[|items| - 1];
      assert items == front + [last];
      ValidToolsSelect(front);
      MapSelectSnoc(front, last, HasKeysTest(), ToolOfItem());
      MapSelectSingle(last, HasKeysTest(), ToolOfItem());
      ToolItemKeys(last);
    }
  }

  /** The tools of one fresh load: the directory's items through the loop, or its error. */
  function FreshLoad(toolsDir: string, listing: Listing): Result<seq<Tool>> {
    match DirectoryItems(toolsDir, listing, false)
    case Ok(items) => Ok(ValidTools(items))
    case Err(e) => Err(e)
  }

  function SummaryOf(): Tool -> ToolSummary {
    (tool: Tool) => ToolSummary(tool.name, tool.description, tool.inputSchema)
  }

  /** `tools.map(tool => ({ name, description, inputSchema }))`. */
  function Summaries(tools: seq<Tool>): (r: seq<ToolSummary>)
    ensures |r| == |tools|
    ensures forall k :: 0 <= k < |tools| ==>
              r[k].name == tools[k].name && r[k].description == tools[k].description
              && r[k].inputSchema == tools[k].inputSchema
  {
    MapSeq(tools, SummaryOf())
  }

  /** `tools.find(tool => tool.name === name)`. */
  function NameTest(name: string): Tool -> bool {
    (tool: Tool) => tool.name == Text(name)
  }

  /** The first tool whose name is the given text, or nothing. */
  function FindByName(tools: seq<Tool>, name: string): (r: Option<Tool>)
    ensures r.Some? ==> r.value.name == Text(name) && r.value in tools
    ensures r.None? <==> forall k :: 0 <= k < |tools| ==> tools[k].name != Text(name)
  {
    Find(tools, NameTest(name))
  }

  /** With several tools under one name, the lookup returns the first of them. */
  lemma FindByNameFirst(tools: seq<Tool>, name: string, i: nat)
    requires i < |tools| && tools[i].name == Text(name)
    requires forall j :: 0 <= j < i ==> tools[j].name != Text(name)
    ensures FindByName(tools, name) == Some(tools[i])
  {
    FindAt(tools, NameTest(name), i);
  }

  /** The module state: the tools directory and the `toolsCache` variable. */
  class ToolRegistry {
    const toolsDir: string
    var cache: Option<seq<Tool>>

    /** The module as first imported: nothing cached. */
    constructor (moduleDir: string)
      ensures toolsDir == ToolsDir(moduleDir) && cache == None
    {
      toolsDir := ToolsDir(moduleDir);
      cache := None;
    }

    /**
      * `loadTools()`: the cached list when there is one, even an empty one, without
      * looking at the directory; otherwise a fresh load, cached when it succeeds. A
      * directory error propagates and leaves the cache empty.
      */
    method LoadTools(listing: Listing) returns (r: Result<seq<Tool>>)
      modifies this
      ensures old(cache).Some? ==> r == Ok(old(cache).value) && cache == old(cache)
      ensures old(cache).None? ==> r == FreshLoad(toolsDir, listing)
                                   && cache == (if r.Ok? then Some(r.value) else None)
    {
      if cache.Some? {
        return Ok(cache.value);
      }
      var contentItems := LoadMarkdownDirectory(toolsDir, listing);
      if contentItems.Err? {
        return Err(contentItems.error);
      }
      var items := contentItems.value;
      var tools: seq<Tool> := [];
      for i := 0 to |items|
        invariant tools == ValidTools(items[..i])
      {
        var item := items[i];
        ValidToolsStep(items, i);
        var outcome := ValidateFrontmatter(item.data, ToolFields, item.filePath);
        if outcome.Pass? {
          tools := tools + [ToolOf(item)];
        }
      }
      assert items[..|items|] == items;
      cache := Some(tools);
      r := Ok(tools);
    }

    /** `getAllTools()`: every loaded tool, in order, reduced to name, description and input schema. */
    method GetAllTools(listing: Listing) returns (r: Result<seq<ToolSummary>>)
      modifies this
      ensures var loaded := if old(cache).Some? then Ok(old(cache).value) else FreshLoad(toolsDir, listing);
              r == (if loaded.Ok? then Ok(Summaries(loaded.value)) else Err(loaded.error))
      ensures old(cache).Some? ==> cache == old(cache)
      ensures old(cache).None? ==> var loaded := FreshLoad(toolsDir, listing);
                                   cache == (if loaded.Ok? then Some(loaded.value) else None)
    {
      var tools := LoadTools(listing);
      if tools.Err? {
        return Err(tools.error);
      }
      r := Ok(Summaries(tools.value));
    }

    /** `getToolByName(name)`: the first loaded tool with that name, or nothing. */
    method GetToolByName(listing: Listing, name: string) returns (r: Result<Option<Tool>>)
      modifies this
      ensures var loaded := if old(cache).Some? then Ok(old(cache).value) else FreshLoad(toolsDir, listing);
              r == (if loaded.Ok? then Ok(FindByName(loaded.value, name)) else Err(loaded.error))
      ensures old(cache).Some? ==> cache == old(cache)
      ensures old(cache).None? ==> var loaded := FreshLoad(toolsDir, listing);
                                   cache == (if loaded.Ok? then Some(loaded.value) else None)
    {
      var tools := LoadTools(listing);
      if tools.Err? {
        return Err(tools.error);
      }
      r := Ok(FindByName(tools.value, name));
    }

    /** `clearToolsCache()`: the next load reads the directory again. */
    method ClearToolsCache()
      modifies this
      ensures cache == None
    {
      cache := None;
    }
  }

  /**
    * The cache lifecycle: a failed first load caches nothing and the next call reads the
    * directory again; a successful one is returned from then on until the cache is cleared.
    */
  method CacheLifecycle(moduleDir: string, before: Listing, after: Listing)
    returns (first: Result<seq<Tool>>, second: Result<seq<Tool>>, third: Result<seq<Tool>>)
    ensures first == FreshLoad(ToolsDir(moduleDir), before)
    ensures first.Ok? ==> second == first
    ensures first.Err? ==> second == FreshLoad(ToolsDir(moduleDir), after)
    ensures third == FreshLoad(ToolsDir(moduleDir), after)
  {
    var registry := new ToolRegistry(moduleDir);
    first := registry.LoadTools(before);
    second := registry.LoadTools(after);
    registry.ClearToolsCache();
    third := registry.LoadTools(after);
  }
}
