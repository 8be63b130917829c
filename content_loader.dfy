/**
  * The generic Markdown content loader used for tools, prompts and resources: one file
  * becomes an item holding its front matter, its trimmed body and its path; a directory
  * becomes the items of its `.md` files in listing order, descending into subdirectories
  * only on request; and a front matter can be checked for required keys.
  */
module ContentLoader {
  import opened Wrappers
  import opened Text
  import opened Seqs
  import opened Documents

  /** A loaded Markdown document: front matter, body without the front matter, and its path. */
  datatype ContentItem = ContentItem(data: Frontmatter, content: string, filePath: string)

  /** The message `loadMarkdownFile` throws with. */
  function FileError(filePath: string, reason: string): string {
    "Failed to load markdown file " + filePath + ": " + reason
  }

  /** The message `loadMarkdownDirectory` throws with. */
  function DirectoryError(dirPath: string, reason: string): string {
    "Failed to load markdown directory " + dirPath + ": " + reason
  }

  /**
    * `loadMarkdownFile(filePath)`: the parsed front matter, the body trimmed, and the path
    * as given; a failure to read or parse becomes an error naming the file.
    */
  function LoadMarkdownFile(filePath: string, read: FileRead): (r: Result<ContentItem>)
    ensures r.Ok? <==> read.Parsed?
    ensures r.Ok? ==> r.value.data == read.data && r.value.content == Trim(read.body)
                      && IsTrimmed(r.value.content) && r.value.filePath == filePath
    ensures r.Err? ==> r.error == FileError(filePath, read.reason)
  {
    match read
    case Parsed(data, body) => Ok(ContentItem(data, Trim(body), filePath))
    case ReadFailed(reason) => Err(FileError(filePath, reason))
  }

  /**
    * The property names a plain object inherits from `Object.prototype`. JavaScript's `in`
    * finds them on every parsed front matter, whether or not the file sets them.
    */
  const InheritedNames: set<string> := {
    "constructor", "hasOwnProperty", "isPrototypeOf", "propertyIsEnumerable", "toLocaleString",
    "toString", "valueOf", "__proto__", "__defineGetter__", "__defineSetter__",
    "__lookupGetter__", "__lookupSetter__"
  }

  /** `field in data`: an own key of the front matter, or a name every object inherits. */
  predicate HasProperty(data: Frontmatter, field: string) {
    field in data || field in InheritedNames
  }

  function AbsentTest(data: Frontmatter): string -> bool {
    (field: string) => !HasProperty(data, field)
  }

  /** `requiredFields.filter(field => !(field in data))`. */
  function MissingFields(data: Frontmatter, required: seq<string>): (r: seq<string>)
    ensures SubsequenceOf(r, required)
    ensures forall f :: f in r <==> f in required && !HasProperty(data, f)
  {
    var r := Select(required, AbsentTest(data));
    forall f | f in r
      ensures f in required && !HasProperty(data, f)
    {
      var k :| 0 <= k < |r| && r[k] == f;
      assert AbsentTest(data)(r[k]);
      SubsequenceMembers(r, required, k);
    }
    r
  }

  /**
    * `validateFrontmatter(data, requiredFields, filePath)`: passes exactly when every
    * required name is a property of the front matter, whatever its value; otherwise the error
    * lists the missing names in the order they were required, separated by ", ".
    */
  function ValidateFrontmatter(data: Frontmatter, required: seq<string>, filePath: string): (r: Outcome)
    ensures r.Pass? <==> forall k :: 0 <= k < |required| ==> HasProperty(data, required[k])
    ensures r.Fail? ==> r.error == "Missing required frontmatter fields in " + filePath + ": "
                                   + Join(MissingFields(data, required), ", ")
  {
    var missing := MissingFields(data, required);
    if |missing| > 0 then
      Fail("Missing required frontmatter fields in " + filePath + ": " + Join(missing, ", "))
    else
      assert forall k :: 0 <= k < |required| ==> required[k] !in missing;
      Pass
  }

  /** Validation looks at keys only: front matters with the same keys get the same outcome. */
  lemma ValidateKeysOnly(data: Frontmatter, other: Frontmatter, required: seq<string>, filePath: string)
    requires data.Keys == other.Keys
    ensures ValidateFrontmatter(data, required, filePath) == ValidateFrontmatter(other, required, filePath)
  {
    SelectSameTest(required, AbsentTest(data), AbsentTest(other));
  }

  /**
    * A required name that every object inherits is never reported missing, even from an
    * empty front matter; a name outside them is required as an own key.
    */
  lemma InheritedNamesPass(filePath: string, field: string)
    ensures ValidateFrontmatter(map[], [field], filePath).Pass? <==> field in InheritedNames
  {
    assert [field][0] == field;
  }

  /** For required names outside the inherited ones, `in` is a test of the front matter's own keys. */
  lemma OwnKeys(data: Frontmatter, required: seq<string>)
    requires forall k :: 0 <= k < |required| ==> required[k] !in InheritedNames
    ensures forall k :: 0 <= k < |required| ==> HasProperty(data, required[k]) == (required[k] in data)
  {
  }

  /** Every missing name is spelled out in the error message. */
  lemma ValidateNamesMissing(data: Frontmatter, required: seq<string>, filePath: string, field: string)
    requires field in required && field !in data && field !in InheritedNames
    ensures ValidateFrontmatter(data, required, filePath).Fail?
    ensures Contains(ValidateFrontmatter(data, required, filePath).error, field)
  {
    var missing := MissingFields(data, required);
    var k :| 0 <= k < |missing| && missing[k] == field;
    var prefix := "Missing required frontmatter fields in " + filePath + ": ";
    var joined := Join(missing, ", ");
    JoinContains(missing, ", ", k);
    var i :| 0 <= i <= |joined| && field <= joined[i..];
    assert (prefix + joined)[|prefix| + i..] == joined[i..];
  }

  /** An entry the non-recursive loader reads: a file whose name ends in ".md". */
  predicate IsMarkdownFile(e: Entry) {
    e.FileEntry? && EndsWith(e.name, ".md")
  }

  /**
    * The items one entry contributes: a subdirectory's items when descending, the file's
    * item when it is a `.md` file that loads, and nothing otherwise. Only a subdirectory
    * can fail, with the message its own load throws.
    */
  function EntryItems(dirPath: string, e: Entry, recursive: bool): (r: Result<seq<ContentItem>>)
    ensures r.Err? ==> e.DirEntry? && recursive
    decreases e, 0
  {
    var fullPath := PathJoin(dirPath, e.name);
    if e.DirEntry? && recursive then DirectoryItems(fullPath, e.listing, recursive)
    else if IsMarkdownFile(e) then
      match LoadMarkdownFile(fullPath, e.read)
      case Ok(item) => Ok([item])
      case Err(_) => Ok([])
    else Ok([])
  }

  /** Items of one part followed by those of the next; the first error wins. */
  function AppendItems(a: Result<seq<ContentItem>>, b: Result<seq<ContentItem>>): (r: Result<seq<ContentItem>>)
    ensures r.Ok? <==> a.Ok? && b.Ok?
    ensures r.Ok? ==> r.value == a.value + b.value
    ensures r.Err? ==> r == if a.Err? then a else b
  {
    if a.Err? then a
    else if b.Err? then b
    else Ok(a.value + b.value)
  }

  lemma AppendItemsAssoc(a: Result<seq<ContentItem>>, b: Result<seq<ContentItem>>, c: Result<seq<ContentItem>>)
    ensures AppendItems(AppendItems(a, b), c) == AppendItems(a, AppendItems(b, c))
  {
    if a.Ok? && b.Ok? && c.Ok? {
      assert a.value + b.value + c.value == a.value + (b.value + c.value);
    }
  }

  /** The items of a run of entries, in entry order; the first failing entry decides the error. */
  function EntriesItems(dirPath: string, entries: seq<Entry>, recursive: bool): (r: Result<seq<ContentItem>>)
    decreases entries, 1
  {
    if entries == [] then Ok([])
    else AppendItems(EntriesItems(dirPath, entries[..|entries| - 1], recursive), EntryItems(dirPath, entries[|entries| - 1], recursive))
  }

  /** One more entry appends that entry's items. */
  lemma EntriesSnoc(dirPath: string, entries: seq<Entry>, e: Entry, recursive: bool)
    ensures EntriesItems(dirPath, entries + [e], recursive)
         == AppendItems(EntriesItems(dirPath, entries, recursive), EntryItems(dirPath, e, recursive))
  {
    var longer := entries + [e];
    assert longer[..|longer| - 1] == entries;
  }

  /** The items of the first `i + 1` entries: those of the first `i`, then those of entry `i`. */
  lemma EntriesStep(dirPath: string, entries: seq<Entry>, i: nat, recursive: bool)
    requires i < |entries|
    ensures EntriesItems(dirPath, entries[..i + 1], recursive)
         == AppendItems(EntriesItems(dirPath, entries[..i], recursive), EntryItems(dirPath, entries[i], recursive))
  {
    assert entries[..i + 1] == entries[..i] + [entries[i]];
    EntriesSnoc(dirPath, entries[..i], entries[i], recursive);
  }

  /**
    * `loadMarkdownDirectory(dirPath, recursive)`: the items of the listing, or an error
    * naming the directory when it cannot be listed or a subdirectory load throws.
    */
  function DirectoryItems(dirPath: string, listing: Listing, recursive: bool): (r: Result<seq<ContentItem>>)
    ensures listing.ListFailed? ==> r == Err(DirectoryError(dirPath, listing.reason))
    decreases listing, 2
  {
    match listing
    case ListFailed(reason) => Err(DirectoryError(dirPath, reason))
    case Listed(entries) =>
      match EntriesItems(dirPath, entries, recursive)
      case Ok(items) => Ok(items)
      case Err(m) => Err(DirectoryError(dirPath, "Error: " + m))
  }

  /**
    * Entry order is kept, and a subdirectory's items are spliced in at its place: the
    * items of two runs of entries are the items of each, in turn, and the first error wins.
    */
  lemma {:induction false} EntriesAppend(dirPath: string, first: seq<Entry>, second: seq<Entry>, recursive: bool)
    ensures EntriesItems(dirPath, first + second, recursive)
         == AppendItems(EntriesItems(dirPath, first, recursive), EntriesItems(dirPath, second, recursive))
    decreases |second|
  {
    var a := EntriesItems(dirPath, first, recursive);
    if second == [] {
      assert first + second == first;
      if a.Ok? {
        assert a.value + [] == a.value;
      }
    } else {
      var front, last := second[..|second| - 1], second[|second| - 1];
      assert first + second == (first + front) + [last];
      assert second == front + [last];
      EntriesSnoc(dirPath, first + front, last, recursive);
      EntriesSnoc(dirPath, front, last, recursive);
      EntriesAppend(dirPath, first, front, recursive);
      AppendItemsAssoc(a, EntriesItems(dirPath, front, recursive), EntryItems(dirPath, last, recursive));
    }
  }

  /** An error among the first `n` entries is the error of all of them. */
  lemma ErrorPrefix(dirPath: string, entries: seq<Entry>, n: nat, recursive: bool)
    requires n <= |entries| && EntriesItems(dirPath, entries[..n], recursive).Err?
    ensures EntriesItems(dirPath, entries, recursive) == EntriesItems(dirPath, entries[..n], recursive)
  {
    assert entries == entries[..n] + entries[n..];
    EntriesAppend(dirPath, entries[..n], entries[n..], recursive);
  }

  /** An entry that contributes `items` after the first `i` entries gave `before`. */
  lemma StepAppends(dirPath: string, entries: seq<Entry>, i: nat, recursive: bool, before: seq<ContentItem>, items: seq<ContentItem>)
    requires i < |entries| && EntriesItems(dirPath, entries[..i], recursive) == Ok(before)
    requires EntryItems(dirPath, entries[i], recursive) == Ok(items)
    ensures EntriesItems(dirPath, entries[..i + 1], recursive) == Ok(before + items)
  {
    EntriesStep(dirPath, entries, i, recursive);
  }

  /** Once every entry has been taken, the directory's items are those of all its entries. */
  lemma AllEntries(dirPath: string, entries: seq<Entry>, recursive: bool, items: seq<ContentItem>)
    requires EntriesItems(dirPath, entries[..|entries|], recursive) == Ok(items)
    ensures DirectoryItems(dirPath, Listed(entries), recursive) == Ok(items)
  {
    assert entries[..|entries|] == entries;
  }

  /** An entry that fails after the first `i` entries loaded makes the whole directory fail with its message. */
  lemma StepFails(dirPath: string, entries: seq<Entry>, i: nat, recursive: bool)
    requires i < |entries| && EntriesItems(dirPath, entries[..i], recursive).Ok?
    requires EntryItems(dirPath, entries[i], recursive).Err?
    ensures DirectoryItems(dirPath, Listed(entries), recursive)
         == Err(DirectoryError(dirPath, "Error: " + EntryItems(dirPath, entries[i], recursive).error))
  {
    EntriesStep(dirPath, entries, i, recursive);
    ErrorPrefix(dirPath, entries, i + 1, recursive);
  }

  /**
    * The loader: a `for` loop over the listing that appends each entry's items, recursing
    * into subdirectories when asked and skipping `.md` files that fail to load. A failing
    * subdirectory ends the loop at once.
    */
  method LoadMarkdownDirectory(dirPath: string, listing: Listing, recursive: bool := false) returns (r: Result<seq<ContentItem>>)
    ensures r == DirectoryItems(dirPath, listing, recursive)
    decreases listing, 1
  {
    if listing.ListFailed? {
      return Err(DirectoryError(dirPath, listing.reason));
    }
    var entries := listing.entries;
    var contentItems: seq<ContentItem> := [];
    var i := 0;
    while i < |entries|
      invariant 0 <= i <= |entries|
      invariant EntriesItems(dirPath, entries[..i], recursive) == Ok(contentItems)
    {
      var items := LoadEntry(dirPath, entries[i], recursive);
      if items.Err? {
        StepFails(dirPath, entries, i, recursive);
        return Err(DirectoryError(dirPath, "Error: " + items.error));
      }
      StepAppends(dirPath, entries, i, recursive, contentItems, items.value);
      contentItems := contentItems + items.value;
      i := i + 1;
    }
    AllEntries(dirPath, entries, recursive, contentItems);
    r := Ok(contentItems);
  }

  /**
    * The body of the loader's loop for one entry: a subdirectory is loaded in turn when
    * descending, a `.md` file is loaded and skipped when it fails, anything else is passed over.
    */
  method LoadEntry(dirPath: string, entry: Entry, recursive: bool) returns (r: Result<seq<ContentItem>>)
    ensures r == EntryItems(dirPath, entry, recursive)
    decreases entry, 0
  {
    var fullPath := PathJoin(dirPath, entry.name);
    if entry.DirEntry? && recursive {
      r := LoadMarkdownDirectory(fullPath, entry.listing, recursive);
    } else if entry.FileEntry? && EndsWith(entry.name, ".md") {
      var item := LoadMarkdownFile(fullPath, entry.read);
      r := if item.Ok? then Ok([item.value]) else Ok([]);
    } else {
      r := Ok([]);
    }
  }

  function LoadedFileTest(): Entry -> bool {
    (e: Entry) => IsMarkdownFile(e) && e.read.Parsed?
  }

  function FileItem(dirPath: string): Entry -> ContentItem {
    (e: Entry) => ContentItem(if e.FileEntry? && e.read.Parsed? then e.read.data else map[],
                              if e.FileEntry? && e.read.Parsed? then Trim(e.read.body) else "",
                              PathJoin(dirPath, e.name))
  }

  /**
    * Without recursion a listed directory never fails, and its items are those of its
    * `.md` files that parse, in listing order: every other entry, subdirectories
    * included, is passed over.
    */
  lemma {:induction false} FlatLoad(dirPath: string, entries: seq<Entry>)
    ensures EntriesItems(dirPath, entries, false)
         == Ok(MapSeq(Select(entries, LoadedFileTest()), FileItem(dirPath)))
  {
    if entries != [] {
      var front, last := entries[..|entries| - 1], entries[|entries| - 1];
      assert entries == front + [last];
      EntriesSnoc(dirPath, front, last, false);
      FlatLoad(dirPath, front);
      FlatOne(dirPath, last);
      MapSelectSnoc(front, last, LoadedFileTest(), FileItem(dirPath));
    }
  }

  lemma FlatOne(dirPath: string, e: Entry)
    ensures EntryItems(dirPath, e, false) == Ok(MapSeq(Select([e], LoadedFileTest()), FileItem(dirPath)))
  {
    var test, item := LoadedFileTest(), FileItem(dirPath);
    assert [e][1..] == [];
    if test(e) {
      assert Select([e], test) == [e];
      assert MapSeq([e], item) == [item(e)];
    } else {
      assert Select([e], test) == [];
    }
  }

  /** The items of a single entry are the items it contributes on its own. */
  lemma SingleEntry(dirPath: string, e: Entry, recursive: bool)
    ensures EntriesItems(dirPath, [e], recursive) == EntryItems(dirPath, e, recursive)
  {
    assert [e][..0] == [];
    var r := EntryItems(dirPath, e, recursive);
    if r.Ok? {
      assert [] + r.value == r.value;
    }
  }

  /** An entry that contributes nothing leaves the items around it as they were. */
  lemma {:induction false} SkipsEmptyEntry(dirPath: string, before: seq<Entry>, e: Entry, after: seq<Entry>, recursive: bool)
    requires EntryItems(dirPath, e, recursive) == Ok([])
    ensures EntriesItems(dirPath, before + [e] + after, recursive) == EntriesItems(dirPath, before + after, recursive)
  {
    var a := EntriesItems(dirPath, before, recursive);
    SingleEntry(dirPath, e, recursive);
    EntriesAppend(dirPath, before, [e], recursive);
    EntriesAppend(dirPath, before + [e], after, recursive);
    EntriesAppend(dirPath, before, after, recursive);
    if a.Ok? {
      assert a.value + [] == a.value;
    }
  }

  /** A `.md` file that cannot be read is skipped: the entries around it load as without it. */
  lemma SkipsFailingFile(dirPath: string, before: seq<Entry>, name: string, reason: string, after: seq<Entry>, recursive: bool)
    ensures EntriesItems(dirPath, before + [FileEntry(name, ReadFailed(reason))] + after, recursive)
         == EntriesItems(dirPath, before + after, recursive)
  {
    SkipsEmptyEntry(dirPath, before, FileEntry(name, ReadFailed(reason)), after, recursive);
  }

  /** A file whose name does not end in ".md" is never read. */
  lemma SkipsOtherFile(dirPath: string, before: seq<Entry>, name: string, read: FileRead, after: seq<Entry>, recursive: bool)
    requires !EndsWith(name, ".md")
    ensures EntriesItems(dirPath, before + [FileEntry(name, read)] + after, recursive)
         == EntriesItems(dirPath, before + after, recursive)
  {
    SkipsEmptyEntry(dirPath, before, FileEntry(name, read), after, recursive);
  }

  /** Without descending, a subdirectory is passed over whatever it holds. */
  lemma SubdirectoryIgnoredFlat(dirPath: string, before: seq<Entry>, name: string, listing: Listing, after: seq<Entry>)
    ensures EntriesItems(dirPath, before + [DirEntry(name, listing)] + after, false)
         == EntriesItems(dirPath, before + after, false)
  {
    SkipsEmptyEntry(dirPath, before, DirEntry(name, listing), after, false);
  }

  /**
    * When descending, a subdirectory that cannot be listed makes the whole load throw,
    * unless an earlier entry already has; the message names the outer directory and
    * carries the inner one's error.
    */
  lemma SubdirectoryFailurePropagates(dirPath: string, before: seq<Entry>, name: string, reason: string, after: seq<Entry>)
    requires EntriesItems(dirPath, before, true).Ok?
    ensures DirectoryItems(dirPath, Listed(before + [DirEntry(name, ListFailed(reason))] + after), true)
         == Err(DirectoryError(dirPath, "Error: " + DirectoryError(PathJoin(dirPath, name), reason)))
  {
    var sub := DirEntry(name, ListFailed(reason));
    SingleEntry(dirPath, sub, true);
    EntriesAppend(dirPath, before, [sub], true);
    EntriesAppend(dirPath, before + [sub], after, true);
  }
}
