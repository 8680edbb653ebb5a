/** The site directory as the static-site builder of
    snapshotplot/site_generator.py sees it: a tree of named directories and
    text files enumerated in the order the operating system lists them,
    together with the libraries the builder calls (YAML, Markdown, strptime
    and the clock), which are parameters of the model. */
module SiteTree {

  import opened Values
  import opened Text

  /** A directory entry. Binary files are represented by their bytes read
      as text; the model only copies them. */
  datatype Node =
    | File(name: string, text: string)
    | Dir(name: string, children: seq<Node>)

  /** The names in a listing are distinct, as in any directory. */
  predicate UniqueNames(entries: seq<Node>) {
    forall i, j :: 0 <= i < j < |entries| ==> entries[i].name != entries[j].name
  }

  /** `dir / name`: the entry of `entries` called `name`, if any. */
  function Lookup(entries: seq<Node>, name: string): (r: Option<Node>)
    ensures r.None? <==> forall i :: 0 <= i < |entries| ==> entries[i].name != name
    ensures r.Some? ==> r.value.name == name && r.value in entries
  {
    if entries == [] then None
    else if entries[0].name == name then Some(entries[0])
    else Lookup(entries[1..], name)
  }

  /** In a listing with distinct names, looking up the name of an entry
      finds that entry. */
  lemma {:induction false} LookupFinds(entries: seq<Node>, i: nat)
    requires UniqueNames(entries) && i < |entries|
    ensures Lookup(entries, entries[i].name) == Some(entries[i])
  {
    if i > 0 {
      LookupFinds(entries[1..], i - 1);
    }
  }

  /** Position of the last occurrence of `c` in `s` (`str.rfind`). */
  function LastIndexOf(s: string, c: char): (r: Option<nat>)
    ensures r.None? <==> c !in s
    ensures r.Some? ==> r.value < |s| && s[r.value] == c && c !in s[r.value + 1..]
  {
    if s == [] then None
    else if s[|s| - 1] == c then Some(|s| - 1)
    else
      var r := LastIndexOf(s[..|s| - 1], c);
      assert r.Some? ==> s[r.value + 1..] == s[..|s| - 1][r.value + 1..] + [s[|s| - 1]];
      assert r.None? ==> s == s[..|s| - 1] + [s[|s| - 1]];
      r
  }

  /** The position of the dot that starts pathlib's suffix: the last dot,
      provided it is neither the first nor the last character. */
  function SuffixDot(name: string): (r: Option<nat>)
    ensures r.Some? ==> 0 < r.value < |name| - 1 && name[r.value] == '.' && '.' !in name[r.value + 1..]
  {
    match LastIndexOf(name, '.')
    case Some(i) => if 0 < i < |name| - 1 then Some(i) else None
    case None => None
  }

  /** `PurePath(name).suffix` */
  function PathSuffix(name: string): (r: string)
    ensures r == "" || (r[0] == '.' && |r| >= 2 && EndsWith(name, r) && '.' !in r[1..])
  {
    match SuffixDot(name)
    case Some(i) => name[i..]
    case None => ""
  }

  /** `PurePath(name).stem` */
  function PathStem(name: string): (r: string)
    ensures r + PathSuffix(name) == name
  {
    match SuffixDot(name)
    case Some(i) => name[..i]
    case None => name
  }

  /** The pieces `pathlib` keeps of a relative path string: the text
      between slashes, except empty and `.` pieces. */
  function Components(s: string): (r: seq<string>)
    ensures forall i :: 0 <= i < |r| ==> r[i] != "" && r[i] != "." && '/' !in r[i]
  {
    Kept(Split(s, '/'))
  }

  function Kept(parts: seq<string>): (r: seq<string>)
    ensures forall i :: 0 <= i < |r| ==> r[i] in parts && r[i] != "" && r[i] != "."
  {
    if parts == [] then []
    else if parts[0] == "" || parts[0] == "." then Kept(parts[1..])
    else [parts[0]] + Kept(parts[1..])
  }

  /** A name without a slash that is neither empty nor `.` is a single
      component. */
  lemma ComponentsOfName(s: string)
    requires '/' !in s && s != "" && s != "."
    ensures Components(s) == [s]
  {
    assert IndexOf(s, '/').None?;
    assert Split(s, '/') == [s];
    assert [s][1..] == [];
    assert Kept([s]) == [s] + Kept([]);
  }

  /** `dir/name` is the two components `dir` and `name`. */
  lemma ComponentsOfPair(dir: string, name: string)
    requires '/' !in dir && dir != "" && dir != "." && '/' !in name && name != "" && name != "."
    ensures Components(dir + "/" + name) == [dir, name]
  {
    var path := dir + "/" + name;
    assert IndexOf(path, '/') == Some(|dir|) by {
      assert path[|dir|] == '/' && path[..|dir|] == dir;
    }
    assert path[..|dir|] == dir && path[|dir| + 1..] == name;
    assert Split(name, '/') == [name] by {
      assert IndexOf(name, '/').None?;
    }
    assert Split(path, '/') == [dir, name];
    assert Kept([dir, name]) == [dir] + Kept([name]) by {
      assert [dir, name][1..] == [name];
    }
    ComponentsOfName(name);
  }

  /** What a relative path names below a directory. */
  datatype Target = Missing | AtDir | AtFile(text: string)

  /** `dir / path` for the path's components: the directory itself for no
      component; otherwise each component is looked up in turn, and a
      missing entry, or a file with components left after it, is missing,
      as `Path.exists()` reports it. */
  function Resolve(entries: seq<Node>, parts: seq<string>): (r: Target)
    ensures parts == [] ==> r == AtDir
    ensures |parts| == 1 ==> (match Lookup(entries, parts[0])
                              case None => r == Missing
                              case Some(File(_, text)) => r == AtFile(text)
                              case Some(Dir(_, _)) => r == AtDir)
    decreases |parts|
  {
    if parts == [] then AtDir
    else match Lookup(entries, parts[0])
      case None => Missing
      case Some(File(_, text)) => if |parts| == 1 then AtFile(text) else Missing
      case Some(Dir(_, children)) => Resolve(children, parts[1..])
  }

  /** The libraries the builder calls, as functions of their input. */
  datatype Env = Env(
    /** `yaml.safe_load` of a text: None when the text is not valid YAML. */
    yaml: string -> Option<Value>,
    /** `markdown.markdown` */
    markdown: string -> string,
    /** `datetime.strptime(s, "%Y%m%d_%H%M%S").isoformat()`: None when
        strptime raises ValueError. */
    strptime: string -> Option<string>,
    /** `datetime.now().isoformat()` during this build. */
    now: string)

  /** The exceptions the builder lets escape. */
  datatype Error =
    | YamlError        // the YAML library rejects a header or `_config.yml`
    | NotAMapping      // a front-matter header is not a mapping: `header['content'] = ...` raises
    | NotADirectory    // a path the builder lists or copies, or a directory it needs, is a file
    | IsADirectory     // a path the builder opens for reading or writing is a directory
    | NotFound         // a listed entry is missing when the builder reopens it, or a written file's directory is
    | Unorderable      // the `date` values cannot be compared with each other
    | BadCodeFile      // `code_file` is neither a string nor falsy: `plot_dir / code_file` raises
    | MissingKey       // a record lacks `collection` or `slug`: the subscript raises KeyError
    | NotAPath         // a `collection` or `slug` value is not a string: the path join raises
    | TemplateNotFound // neither `_layouts` nor `_includes` holds the template
    | FileExists       // a directory the builder creates is already a file
}
