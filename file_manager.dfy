/** Naming conventions of one capture (snapshotplot/file_manager.py): the
    per-source-file output directory, the three token-prefixed file names,
    and the filename sanitiser used for site entry directories. Paths are
    sequences of components; `Path(a) / b` appends a component. */
module FileManager {

  import opened Values
  import opened Text

  type Path = seq<string>

  /** The directories and regular files that exist on the local disk. */
  class Disk {
    var dirs: set<Path>
    var files: set<Path>

    constructor (dirs: set<Path>, files: set<Path>)
      ensures this.dirs == dirs && this.files == files
    {
      this.dirs := dirs;
      this.files := files;
    }

    /** `Path(p).mkdir(parents=True, exist_ok=True)`: the exception it
        raises, if any; when it raises nothing changes, otherwise `p` and
        all its ancestors are directories afterwards. */
    method MakeDirs(p: Path) returns (raised: Option<string>)
      modifies this
      ensures raised == MkdirError(old(files), p) && files == old(files)
      ensures raised.Some? ==> dirs == old(dirs)
      ensures raised.None? ==> dirs == old(dirs) + Ancestry(p)
      ensures raised.None? ==> forall q :: q in Ancestry(p) ==> q in dirs && q !in files
    {
      raised := MkdirError(files, p);
      if raised.None? {
        dirs := dirs + Ancestry(p);
      }
    }
  }

  /** A regular file occupies `p` or one of its ancestors. */
  predicate Blocked(files: set<Path>, p: Path) {
    exists i :: 1 <= i <= |p| && p[..i] in files
  }

  /** The exception `mkdir(parents=True, exist_ok=True)` raises: a
      regular file on an ancestor stops the path lookup with
      NotADirectoryError; a regular file at `p` itself is not an existing
      directory, so `exist_ok` does not excuse the FileExistsError. */
  function MkdirError(files: set<Path>, p: Path): (r: Option<string>)
    ensures r.None? <==> !Blocked(files, p)
    ensures r == Some("FileExistsError") <==> p != [] && p in files && forall i :: 1 <= i < |p| ==> p[..i] !in files
    ensures r.Some? ==> r == Some("FileExistsError") || r == Some("NotADirectoryError")
  {
    if exists i :: 1 <= i < |p| && p[..i] in files then Some("NotADirectoryError")
    else if p != [] && p in files then
      assert p[..|p|] == p;
      Some("FileExistsError")
    else
      assert forall i :: 1 <= i <= |p| ==> p[..i] !in files by {
        forall i | 1 <= i <= |p|
          ensures p[..i] !in files
        {
          if i == |p| {
            assert p[..i] == p;
          }
        }
      }
      None
  }

  /** The non-empty prefixes of `p`: the directories `mkdir(parents=True)`
      creates for it. */
  function Ancestry(p: Path): (r: set<Path>)
    ensures p != [] ==> p in r
    ensures forall q :: q in r ==> q != [] && |q| <= |p| && q == p[..|q|]
  {
    assert p != [] ==> p[..|p|] == p;
    set i | 1 <= i <= |p| :: p[..i]
  }

  /** The directory name for captures from source file `filename`
      (file_manager.py:24-28): `snapshot_` followed by the file name with one
      trailing `.py` removed. */
  function SnapshotDirName(filename: string): (r: string)
    ensures StartsWith(r, "snapshot_")
    ensures EndsWith(filename, ".py") ==> r + ".py" == "snapshot_" + filename
    ensures !EndsWith(filename, ".py") ==> r == "snapshot_" + filename
  {
    var stem := if EndsWith(filename, ".py") then filename[..|filename| - 3] else filename;
    assert EndsWith(filename, ".py") ==> filename == stem + ".py";
    "snapshot_" + stem
  }

  /** `create_output_directory`: creates `base/snapshot_<stem>` (with its
      parents) and returns it, unless the `mkdir` raises. */
  method CreateOutputDirectory(disk: Disk, base: Path, filename: string) returns (dir: Path, raised: Option<string>)
    modifies disk
    ensures dir == base + [SnapshotDirName(filename)]
    ensures raised == MkdirError(old(disk.files), dir) && disk.files == old(disk.files)
    ensures disk.dirs == if raised.None? then old(disk.dirs) + Ancestry(dir) else old(disk.dirs)
  {
    dir := base + [SnapshotDirName(filename)];
    raised := disk.MakeDirs(dir);
  }

  /** The test's example: `test_file.py` captures go to `snapshot_test_file`. */
  lemma SnapshotDirOfTestFile()
    ensures SnapshotDirName("test_file.py") == "snapshot_test_file"
  {
    assert EndsWith("test_file.py", ".py");
  }

  /** What `generate_filename` appends to the timestamp for an extension
      (file_manager.py:50-57): fixed names for code, plot and page, and
      `.<extension>` otherwise. */
  function Suffix(extension: string): (r: string)
    ensures r != [] && (r[0] == '_' <==> extension in {"py", "png", "html"})
  {
    if extension == "py" then "_code.py"
    else if extension == "png" then "_plot.png"
    else if extension == "html" then "_snapshot.html"
    else "." + extension
  }

  /** `generate_filename(extension, timestamp)` */
  function GenerateFilename(extension: string, timestamp: string): (r: string)
    ensures StartsWith(r, timestamp)
  {
    timestamp + Suffix(extension)
  }

  lemma SuffixInjective(e1: string, e2: string)
    requires Suffix(e1) == Suffix(e2)
    ensures e1 == e2
  {
    if e1 !in {"py", "png", "html"} && e2 !in {"py", "png", "html"} {
      assert e1 == Suffix(e1)[1..] && e2 == Suffix(e2)[1..];
    }
  }

  /** With one timestamp, different extensions never give the same name. */
  lemma ExtensionDeterminesFilename(e1: string, e2: string, t: string)
    requires GenerateFilename(e1, t) == GenerateFilename(e2, t)
    ensures e1 == e2
  {
    var n := GenerateFilename(e1, t);
    assert Suffix(e1) == n[|t|..] == Suffix(e2);
    SuffixInjective(e1, e2);
  }

  /** With one extension, different timestamps never give the same name. */
  lemma TimestampDeterminesFilename(e: string, t1: string, t2: string)
    requires GenerateFilename(e, t1) == GenerateFilename(e, t2)
    ensures t1 == t2
  {
    var n := GenerateFilename(e, t1);
    assert t1 == n[..|n| - |Suffix(e)|] == t2;
  }

  datatype FilePaths = FilePaths(code: Path, plot: Path, html: Path)

  /** `get_file_paths` (file_manager.py:72-77): three different files in one
      directory, all named with the same timestamp prefix. The source file
      name is accepted and not used. */
  function GetFilePaths(outputDir: Path, filename: string, timestamp: string): (r: FilePaths)
    ensures |r.code| == |r.plot| == |r.html| == |outputDir| + 1
    ensures r.code[..|outputDir|] == r.plot[..|outputDir|] == r.html[..|outputDir|] == outputDir
    ensures StartsWith(r.code[|outputDir|], timestamp) && EndsWith(r.code[|outputDir|], "_code.py")
    ensures StartsWith(r.plot[|outputDir|], timestamp) && EndsWith(r.plot[|outputDir|], "_plot.png")
    ensures StartsWith(r.html[|outputDir|], timestamp) && EndsWith(r.html[|outputDir|], "_snapshot.html")
    ensures r.code != r.plot && r.plot != r.html && r.code != r.html
  {
    var r := FilePaths(outputDir + [GenerateFilename("py", timestamp)],
                       outputDir + [GenerateFilename("png", timestamp)],
                       outputDir + [GenerateFilename("html", timestamp)]);
    assert r.code[|outputDir|] == GenerateFilename("py", timestamp);
    assert r.plot[|outputDir|] == GenerateFilename("png", timestamp);
    assert r.html[|outputDir|] == GenerateFilename("html", timestamp);
    var c, p, h := r.code[|outputDir|], r.plot[|outputDir|], r.html[|outputDir|];
    assert c[|c| - 1] == 'y' && p[|p| - 1] == 'g' && h[|h| - 1] == 'l';
    r
  }

  /** The characters `sanitize_filename` and `safe_filename` replace by `_`. */
  const InvalidChars: set<char> := {'<', '>', ':', '"', '/', '\\', '|', '?', '*'}

  /** The same characters in the order `sanitize_filename` replaces them. */
  const InvalidCharList: string := "<>:\"/\\|?*"

  lemma InvalidCharListIsInvalidChars()
    ensures forall c :: c in InvalidCharList <==> c in InvalidChars
  {
  }

  /** `s.replace(cs[0], d).replace(cs[1], d)...`: each character of `cs` in
      turn replaced by `d`. */
  function ReplaceEach(s: string, cs: string, d: char): (r: string)
    ensures |r| == |s|
    decreases |cs|
  {
    if cs == [] then s else ReplaceEach(ReplaceChar(s, cs[0], d), cs[1..], d)
  }

  /** Replacing a set of characters one after another replaces every
      occurrence of any of them and leaves every other character alone. */
  lemma {:induction false} ReplaceEachAt(s: string, cs: string, d: char)
    ensures forall k :: 0 <= k < |s| ==> ReplaceEach(s, cs, d)[k] == if s[k] in cs then d else s[k]
    decreases |cs|
  {
    if cs != [] {
      ReplaceEachAt(ReplaceChar(s, cs[0], d), cs[1..], d);
      assert forall c :: c in cs <==> c == cs[0] || c in cs[1..];
    }
  }

  /** What `sanitize_filename` does to one character before stripping:
      invalid characters become `_`, spaces `-`, the rest stay. */
  function SanitizeChar(c: char): (d: char)
    ensures d !in InvalidChars && d != ' '
    ensures c !in InvalidChars && c != ' ' ==> d == c
  {
    if c in InvalidChars then '_' else if c == ' ' then '-' else c
  }

  /** The name after the replacements and before the strip: every
      character mapped by `SanitizeChar`. */
  function SanitizeReplaced(filename: string): (r: string)
    ensures |r| == |filename|
    ensures forall k :: 0 <= k < |r| ==> r[k] == SanitizeChar(filename[k])
  {
    if filename == [] then [] else [SanitizeChar(filename[0])] + SanitizeReplaced(filename[1..])
  }

  /** The source's replacements, one invalid character after another and
      then the space, map every character by `SanitizeChar`. */
  lemma ReplacementsMapEachChar(filename: string)
    ensures ReplaceChar(ReplaceEach(filename, InvalidCharList, '_'), ' ', '-') == SanitizeReplaced(filename)
  {
    ReplaceEachAt(filename, InvalidCharList, '_');
    InvalidCharListIsInvalidChars();
  }

  /** `sanitize_filename` as a value (file_manager.py:108-133). */
  function Sanitized(filename: string): string {
    var stripped := Strip(SanitizeReplaced(filename), {' ', '.'});
    if stripped == "" then "unnamed" else stripped
  }

  /** `sanitize_filename`: the loop over the invalid characters, then the
      space replacement, the strip and the `unnamed` fallback. */
  method SanitizeFilename(filename: string) returns (r: string)
    ensures r == Sanitized(filename)
  {
    r := filename;
    for i := 0 to |InvalidCharList|
      invariant ReplaceEach(r, InvalidCharList[i..], '_') == ReplaceEach(filename, InvalidCharList, '_')
    {
      assert InvalidCharList[i..][1..] == InvalidCharList[i + 1..];
      r := ReplaceChar(r, InvalidCharList[i], '_');
    }
    assert InvalidCharList[|InvalidCharList|..] == [];
    r := ReplaceChar(r, ' ', '-');
    ReplacementsMapEachChar(filename);
    r := Strip(r, {' ', '.'});
    if r == "" {
      r := "unnamed";
    }
  }

  /** `r` is the slice of `s` starting at `i`, mapped by `SanitizeChar`. */
  predicate MappedRunAt(r: string, s: string, i: nat) {
    i + |r| <= |s| && forall k :: 0 <= k < |r| ==> r[k] == SanitizeChar(s[i + k])
  }

  /** A slice of a mapped name is the mapped slice, and holds no invalid
      character and no space. */
  lemma RunOfMapped(t: string, s: string, i: nat, j: nat)
    requires |t| == |s| && i <= j <= |t|
    requires forall k :: 0 <= k < |t| ==> t[k] == SanitizeChar(s[k])
    ensures MappedRunAt(t[i..j], s, i)
    ensures forall k :: 0 <= k < j - i ==> t[i..j][k] !in InvalidChars && t[i..j][k] != ' '
  {
  }

  /** A usable entry name: non-empty, none of `<>:"/\|?*` and no space,
      neither starting nor ending with a dot. */
  predicate SanitaryName(r: string) {
    && r != ""
    && (forall k :: 0 <= k < |r| ==> r[k] !in InvalidChars && r[k] != ' ')
    && r[0] != '.' && r[|r| - 1] != '.'
  }

  /** A non-empty strip of a mapped name is a usable entry name. */
  lemma StrippedSanitary(s: string, t: string)
    requires |t| == |s|
    requires forall k :: 0 <= k < |t| ==> t[k] == SanitizeChar(s[k])
    requires Strip(t, {' ', '.'}) != ""
    ensures SanitaryName(Strip(t, {' ', '.'}))
  {
    var u := Strip(t, {' ', '.'});
    var i := StripStart(t, {' ', '.'});
    var j := i + |u|;
    RunOfMapped(t, s, i, j);
  }

  lemma UnnamedSanitary()
    ensures SanitaryName("unnamed")
  {
  }

  /** Whatever the input, `sanitize_filename` returns a usable entry name. */
  lemma SanitizedChars(s: string)
    ensures SanitaryName(Sanitized(s))
  {
    var t := SanitizeReplaced(s);
    if Strip(t, {' ', '.'}) != "" {
      StrippedSanitary(s, t);
    } else {
      UnnamedSanitary();
    }
  }

  /** The result of `sanitize_filename` is `unnamed` or a contiguous run of
      the input with every character mapped by `SanitizeChar`: every other
      character passes through unchanged and in order. */
  lemma SanitizedRun(s: string)
    ensures Sanitized(s) == "unnamed" || exists i :: MappedRunAt(Sanitized(s), s, i)
  {
    var t := SanitizeReplaced(s);
    var u := Strip(t, {' ', '.'});
    if u != "" {
      var i := StripStart(t, {' ', '.'});
      var j := i + |u|;
      RunOfMapped(t, s, i, j);
    }
  }

  /** Sanitising a sanitised name changes nothing. */
  lemma SanitizedIdempotent(s: string)
    ensures Sanitized(Sanitized(s)) == Sanitized(s)
  {
    var r := Sanitized(s);
    SanitizedChars(s);
    assert SanitizeReplaced(r) == r;
    StripUnchanged(r, {' ', '.'});
  }
}
