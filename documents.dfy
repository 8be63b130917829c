/**
  * What the file system and the front-matter parser hand to the loaders. A Markdown
  * document is parsed into a metadata map and a body; reading or parsing may fail.
  * A directory listing is a sequence of entries, each a file or a subdirectory, and
  * listing a directory may fail too.
  */
module Documents {

  /** A front-matter value as the YAML parser produces it. */
  datatype Value =
    | Text(text: string)
    | Number(number: int)
    | Boolean(flag: bool)
    | Null
    | List(items: seq<Value>)
    | Object(fields: map<string, Value>)

  /** JavaScript truthiness: empty text, zero, false and null are falsy; arrays and objects are truthy. */
  predicate Truthy(v: Value) {
    match v
    case Text(s) => s != ""
    case Number(n) => n != 0
    case Boolean(b) => b
    case Null => false
    case List(_) => true
    case Object(_) => true
  }

  /** The parsed metadata block: a map from key to value. An absent key reads as undefined. */
  type Frontmatter = map<string, Value>

  /** `data.key` is truthy: the key is present and its value is truthy. */
  predicate FieldTruthy(data: Frontmatter, key: string) {
    key in data && Truthy(data[key])
  }

  /** `data.key`: the value under the key, or undefined (here `Null`) when it is absent. */
  function Lookup(data: Frontmatter, key: string): (v: Value)
    ensures key in data ==> v == data[key]
    ensures key !in data ==> v == Null
  {
    if key in data then data[key] else Null
  }

  /** Reading and parsing one file: its front matter and body, or the error it raised. */
  datatype FileRead = Parsed(data: Frontmatter, body: string) | ReadFailed(reason: string)

  /** One directory entry. Reading a subdirectory as a file fails. */
  datatype Entry =
    | FileEntry(name: string, read: FileRead)
    | DirEntry(name: string, listing: Listing)
  {
    /** What reading this entry as a file yields. */
    function ReadAsFile(): FileRead {
      match this
      case FileEntry(_, read) => read
      case DirEntry(_, _) => ReadFailed("EISDIR: illegal operation on a directory")
    }
  }

  /** The result of listing a directory: its entries in listing order, or the error raised. */
  datatype Listing = Listed(entries: seq<Entry>) | ListFailed(reason: string)
}
