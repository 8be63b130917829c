/**
  * The documentation resources registry: the `.md` files of the resources directory
  * become resources, those whose front matter lacks a required key are skipped, and the
  * result is kept in a load-once cache until the cache is cleared.
  */
module Resources {
  import opened Wrappers
  import opened Text
  import opened Seqs
  import opened Documents
  import opened Types
  import opened ContentLoader

  /** The front-matter keys every resource file must have. */
  const ResourceFields: seq<string> := ["uri", "name", "description", "mimeType"]

  /** `path.join(__dirname, "../../content/resources")`. */
  function ResourcesDir(moduleDir: string): string {
    PathJoin(moduleDir, "../../content/resources")
  }

  /** The resource an item describes: four front-matter values and the item's trimmed body. */
  function ResourceOf(item: ContentItem): Resource {
    Resource(Lookup(item.data, "uri"), Lookup(item.data, "name"), Lookup(item.data, "description"),
             Lookup(item.data, "mimeType"), item.content)
  }

  /** `validateFrontmatter` does not throw for the item. */
  predicate IsResourceItem(item: ContentItem) {
    ValidateFrontmatter(item.data, ResourceFields, item.filePath).Pass?
  }

  /** The outcome of the validate-and-collect loop over the items it has seen so far. */
  function ValidResources(items: seq<ContentItem>): (r: seq<Resource>)
    ensures |r| <= |items|
  {
    if items == [] then []
    else
      var last := items[|items| - 1];
      ValidResources(items[..|items| - 1]) + if IsResourceItem(last) then [ResourceOf(last)] else []
  }

  /** One more item: the loop's outcome grows by that item's entry if it validates. */
  lemma ValidResourcesStep(items: seq<ContentItem>, i: nat)
    requires i < |items|
    ensures ValidResources(items[..i + 1]) == ValidResources(items[..i]) + if IsResourceItem(items[i]) then [ResourceOf(items[i])] else []
  {
    assert items[..i + 1][..i] == items[..i];
  }

  function HasKeysTest(): ContentItem -> bool {
    (item: ContentItem) => "uri" in item.data && "name" in item.data && "description" in item.data && "mimeType" in item.data
  }

  function ResourceOfItem(): ContentItem -> Resource {
    (item: ContentItem) => ResourceOf(item)
  }

  /**
    * The loop keeps exactly the items whose front matter has all four keys, whatever the
    * values, in item order, and turns each into its resource.
    */
  lemma {:induction false} ValidResourcesSelect(items: seq<ContentItem>)
    ensures ValidResources(items) == MapSeq(Select(items, HasKeysTest()), ResourceOfItem())
  {
    if items != [] {
      var front, last := items[..|items| - 1], items[|items| - 1];
      assert items == front + [last];
      ValidResourcesSelect(front);
      MapSelectSnoc(front, last, HasKeysTest(), ResourceOfItem());
      MapSelectSingle(last, HasKeysTest(), ResourceOfItem());
      ResourceItemKeys(last);
    }
  }

  /** Validation passes exactly when the four keys are present: none of them is an inherited name. */
  lemma ResourceItemKeys(item: ContentItem)
    ensures IsResourceItem(item) == HasKeysTest()(item)
  {
    assert ResourceFields[0] == "uri" && ResourceFields[1] == "name";
    assert ResourceFields[2] == "description" && ResourceFields[3] == "mimeType";
    OwnKeys(item.data, ResourceFields);
  }

  /** The resources of one fresh load: the directory's items through the loop, or its error. */
  function FreshLoad(resourcesDir: string, listing: Listing): Result<seq<Resource>> {
    match DirectoryItems(resourcesDir, listing, false)
    case Ok(items) => Ok(ValidResources(items))
    case Err(e) => Err(e)
  }

  /** Only an unlistable resources directory makes a fresh load fail. */
  lemma FreshLoadListed(resourcesDir: string, entries: seq<Entry>)
    ensures FreshLoad(resourcesDir, Listed(entries)).Ok?
  {
    FlatLoad(resourcesDir, entries);
  }

  /** `resources.find(r => r.uri === uri)`. */
  function UriTest(uri: string): Resource -> bool {
    (r: Resource) => r.uri == Text(uri)
  }

  /** The first resource whose uri is the given text, or nothing. */
  function FindByUri(resources: seq<Resource>, uri: string): (r: Option<Resource>)
    ensures r.Some? ==> r.value.uri == Text(uri) && r.value in resources
    ensures r.None? <==> forall k :: 0 <= k < |resources| ==> resources[k].uri != Text(uri)
  {
    Find(resources, UriTest(uri))
  }

  /** With several resources under one uri, the lookup returns the first of them. */
  lemma FindByUriFirst(resources: seq<Resource>, uri: string, i: nat)
    requires i < |resources| && resources[i].uri == Text(uri)
    requires forall j :: 0 <= j < i ==> resources[j].uri != Text(uri)
    ensures FindByUri(resources, uri) == Some(resources[i])
  {
    FindAt(resources, UriTest(uri), i);
  }

  /** The module state: the resources directory and the `resourcesCache` variable. */
  class ResourceRegistry {
    const resourcesDir: string
    var cache: Option<seq<Resource>>

    /** The module as first imported: nothing cached. */
    constructor (moduleDir: string)
      ensures resourcesDir == ResourcesDir(moduleDir) && cache == None
    {
      resourcesDir := ResourcesDir(moduleDir);
      cache := None;
    }

    /**
      * `loadResources()`: the cached list when there is one, even an empty one, without
      * looking at the directory; otherwise a fresh load, cached when it succeeds. A
      * directory error propagates and leaves the cache empty.
      */
    method LoadResources(listing: Listing) returns (r: Result<seq<Resource>>)
      modifies this
      ensures old(cache).Some? ==> r == Ok(old(cache).value) && cache == old(cache)
      ensures old(cache).None? ==> r == FreshLoad(resourcesDir, listing)
                                   && cache == (if r.Ok? then Some(r.value) else None)
    {
      if cache.Some? {
        return Ok(cache.value);
      }
      var contentItems := LoadMarkdownDirectory(resourcesDir, listing);
      if contentItems.Err? {
        return Err(contentItems.error);
      }
      var items := contentItems.value;
      var resources: seq<Resource> := [];
      for i := 0 to |items|
        invariant resources == ValidResources(items[..i])
      {
        var item := items[i];
        ValidResourcesStep(items, i);
        var outcome := ValidateFrontmatter(item.data, ResourceFields, item.filePath);
        if outcome.Pass? {
          resources := resources + [ResourceOf(item)];
        }
      }
      assert items[..|items|] == items;
      cache := Some(resources);
      r := Ok(resources);
    }

    /** `getAllResources()`: exactly what `loadResources()` returns. */
    method GetAllResources(listing: Listing) returns (r: Result<seq<Resource>>)
      modifies this
      ensures old(cache).Some? ==> r == Ok(old(cache).value) && cache == old(cache)
      ensures old(cache).None? ==> r == FreshLoad(resourcesDir, listing)
                                   && cache == (if r.Ok? then Some(r.value) else None)
    {
      r := LoadResources(listing);
    }

    /** `getResourceByUri(uri)`: the first loaded resource with that uri, or nothing. */
    method GetResourceByUri(listing: Listing, uri: string) returns (r: Result<Option<Resource>>)
      modifies this
      ensures var loaded := if old(cache).Some? then Ok(old(cache).value) else FreshLoad(resourcesDir, listing);
              r == (if loaded.Ok? then Ok(FindByUri(loaded.value, uri)) else Err(loaded.error))
      ensures old(cache).Some? ==> cache == old(cache)
      ensures old(cache).None? ==> var loaded := FreshLoad(resourcesDir, listing);
                                   cache == (if loaded.Ok? then Some(loaded.value) else None)
    {
      var resources := LoadResources(listing);
      if resources.Err? {
        return Err(resources.error);
      }
      r := Ok(FindByUri(resources.value, uri));
    }

    /** `clearResourcesCache()`: the next load reads the directory again. */
    method ClearResourcesCache()
      modifies this
      ensures cache == None
    {
      cache := None;
    }
  }

  /**
    * The cache lifecycle: a successful first load is returned again even after the
    * directory changed, and after clearing the cache the changed directory is read.
    */
  method CacheLifecycle(moduleDir: string, before: Listing, after: Listing)
    returns (first: Result<seq<Resource>>, second: Result<seq<Resource>>, third: Result<seq<Resource>>)
    ensures first == FreshLoad(ResourcesDir(moduleDir), before)
    ensures first.Ok? ==> second == first
    ensures first.Err? ==> second == FreshLoad(ResourcesDir(moduleDir), after)
    ensures third == FreshLoad(ResourcesDir(moduleDir), after)
  {
    var registry := new ResourceRegistry(moduleDir);
    first := registry.LoadResources(before);
    second := registry.LoadResources(after);
    registry.ClearResourcesCache();
    third := registry.LoadResources(after);
  }
}
