/** How the site builder reads the records it renders
    (snapshotplot/site_generator.py): the site configuration, an entry's
    front matter or the record synthesised from its files, a collection's
    `_index.md`, the extra file contents of a detail page, and the `slugify`
    template filter. */
module SiteMetadata {

  import opened Values
  import opened Text
  import opened SiteTree

  // ----- slugify (site_generator.py:52-56) -----

  /** A character of the regex class `\w`, restricted to ASCII. */
  predicate IsWordChar(c: char) {
    IsUpper(c) || IsLower(c) || IsDigit(c) || c == '_'
  }

  /** A character a slug may contain. */
  predicate IsSlugChar(c: char) {
    IsLower(c) || IsDigit(c) || c == '_' || c == '-'
  }

  /** `re.sub(r'[^\w\s-]', '', text)`: the word characters, whitespace and
      hyphens of `text`, in order. */
  function KeepSlugChars(text: string): (r: string)
    ensures |r| <= |text|
    ensures forall k :: 0 <= k < |r| ==> IsWordChar(r[k]) || IsSpace(r[k]) || r[k] == '-'
  {
    if text == [] then []
    else
      var rest := KeepSlugChars(text[1..]);
      if IsWordChar(text[0]) || IsSpace(text[0]) || text[0] == '-' then [text[0]] + rest else rest
  }

  /** Every character is a slug character or whitespace. */
  predicate SlugOrSpace(s: string) {
    forall k :: 0 <= k < |s| ==> IsSlugChar(s[k]) || IsSpace(s[k])
  }

  /** `re.sub(r'[-\s]+', '-', s)`, scanning from a state that records
      whether the previous input character was a hyphen or whitespace: each
      maximal run of them becomes one hyphen. */
  function CollapseFrom(s: string, inRun: bool): (r: string)
    ensures forall k :: 0 <= k < |r| - 1 ==> !(r[k] == '-' && r[k + 1] == '-')
    ensures forall k :: 0 <= k < |r| ==> !IsSpace(r[k])
    ensures SlugOrSpace(s) ==> forall k :: 0 <= k < |r| ==> IsSlugChar(r[k])
    ensures inRun ==> r == [] || r[0] != '-'
  {
    if s == [] then []
    else
      var c := s[0];
      if IsSpace(c) || c == '-' then
        var rest := CollapseFrom(s[1..], true);
        if inRun then rest else ['-'] + rest
      else
        var rest := CollapseFrom(s[1..], false);
        assert ([c] + rest)[1..] == rest;
        [c] + rest
  }

  /** `_slugify(text)` */
  function Slugify(text: string): (r: string) {
    var kept := KeepSlugChars(text);
    var stripped := Strip(kept, Whitespace);
    CollapseFrom(LowerStr(stripped), false)
  }

  /** A slug: only lower-case letters, digits, `_` and `-`, and never two
      hyphens in a row. */
  predicate IsSlug(s: string) {
    && (forall k :: 0 <= k < |s| ==> IsSlugChar(s[k]))
    && (forall k :: 0 <= k < |s| - 1 ==> !(s[k] == '-' && s[k + 1] == '-'))
  }

  lemma LowerKept(c: char)
    requires IsWordChar(c) || IsSpace(c) || c == '-'
    ensures IsSlugChar(Lower(c)) || IsSpace(Lower(c))
  {
  }

  /** `_slugify` yields a slug, whatever the text. */
  lemma SlugifyIsSlug(text: string)
    ensures IsSlug(Slugify(text))
  {
    LoweredSlugOrSpace(KeepSlugChars(text));
  }

  /** After stripping and lower-casing, the kept characters are slug
      characters or whitespace. */
  lemma LoweredSlugOrSpace(kept: string)
    requires forall k :: 0 <= k < |kept| ==> IsWordChar(kept[k]) || IsSpace(kept[k]) || kept[k] == '-'
    ensures SlugOrSpace(LowerStr(Strip(kept, Whitespace)))
  {
    var stripped := Strip(kept, Whitespace);
    var lowered := LowerStr(stripped);
    var i := StripStart(kept, Whitespace);
    assert stripped == kept[i..i + |stripped|];
    forall k | 0 <= k < |lowered|
      ensures IsSlugChar(lowered[k]) || IsSpace(lowered[k])
    {
      var c := stripped[k];
      assert c == kept[i + k];
      LowerKept(c);
      assert lowered[k] == Lower(c);
    }
  }

  lemma {:induction false} KeepSlugCharsUnchanged(s: string)
    requires forall k :: 0 <= k < |s| ==> IsSlugChar(s[k])
    ensures KeepSlugChars(s) == s
  {
    if s != [] {
      KeepSlugCharsUnchanged(s[1..]);
    }
  }

  lemma {:induction false} CollapseUnchanged(s: string, inRun: bool)
    requires IsSlug(s)
    requires inRun ==> s == [] || s[0] != '-'
    ensures CollapseFrom(s, inRun) == s
  {
    if s != [] {
      CollapseUnchanged(s[1..], s[0] == '-');
    }
  }

  lemma SlugStripUnchanged(r: string)
    requires forall k :: 0 <= k < |r| ==> IsSlugChar(r[k])
    ensures Strip(r, Whitespace) == r
  {
    if r != [] {
      assert IsSlugChar(r[0]) && IsSlugChar(r[|r| - 1]);
    }
    StripUnchanged(r, Whitespace);
  }

  lemma SlugLowerUnchanged(r: string)
    requires forall k :: 0 <= k < |r| ==> IsSlugChar(r[k])
    ensures LowerStr(r) == r
  {
  }

  /** Each step of `_slugify` leaves a slug as it is. */
  lemma SlugUnchanged(r: string)
    requires IsSlug(r)
    ensures Slugify(r) == r
  {
    KeepSlugCharsUnchanged(r);
    SlugStripUnchanged(r);
    SlugLowerUnchanged(r);
    CollapseUnchanged(r, false);
  }

  /** Slugifying a slug changes nothing. */
  lemma SlugifyIdempotent(text: string)
    ensures Slugify(Slugify(text)) == Slugify(text)
  {
    SlugifyIsSlug(text);
    SlugUnchanged(Slugify(text));
  }

  // ----- front matter (site_generator.py:96-108 and 266-272) -----

  /** The record a front-matter header yields: the YAML mapping plus
      `content`, the Markdown conversion of the stripped body; a header
      that is not valid YAML or not a mapping raises. */
  function HeaderRecord(loaded: Option<Value>, body: string, env: Env): (r: Result<Option<Dict>, Error>)
    ensures loaded.None? <==> r == Err(YamlError)
    ensures r.Ok? <==> loaded.Some? && loaded.value.VMap?
    ensures r.Ok? ==>
      r.value.Some? && r.value.value == loaded.value.m["content" := VStr(env.markdown(Strip(body, Whitespace)))]
  {
    match loaded
    case None => Err(YamlError)
    case Some(VMap(m)) => Ok(Some(m["content" := VStr(env.markdown(Strip(body, Whitespace)))]))
    case Some(_) => Err(NotAMapping)
  }

  /** `content.split('---', 2)` on a text that starts with `---`, then the
      header record; a text without a leading `---` or without a second one
      has no front matter. */
  function ParseFrontMatter(content: string, env: Env): (r: Result<Option<Dict>, Error>)
    ensures !StartsWith(content, "---") ==> r == Ok(None)
    ensures StartsWith(content, "---") && Find(content[3..], "---").None? ==> r == Ok(None)
    ensures r.Ok? && r.value.Some? ==> "content" in r.value.value
  {
    if !StartsWith(content, "---") then Ok(None)
    else
      var rest := content[3..];
      match Find(rest, "---")
      case None => Ok(None)
      case Some(i) => HeaderRecord(env.yaml(rest[..i]), rest[i + 3..], env)
  }

  /** A header that a `---` can follow without the reader finding an
      earlier delimiter. */
  predicate DelimiterFree(header: string) {
    (forall j :: 0 <= j <= |header| ==> !OccursAt(header, "---", j))
    && (header == [] || header[|header| - 1] != '-')
  }

  /** No delimiter starts inside a delimiter-free header, whatever
      follows it. */
  lemma NoDelimiterBefore(header: string, tail: string, j: nat)
    requires DelimiterFree(header) && j < |header|
    ensures !OccursAt(header + tail, "---", j)
  {
    var rest := header + tail;
    if j + 3 <= |header| {
      assert rest[j..j + 3] == header[j..j + 3];
      assert !OccursAt(header, "---", j);
    } else {
      assert rest[|header| - 1] == header[|header| - 1];
    }
  }

  /** After a delimiter-free header, the first delimiter is the one that
      closes it. */
  lemma FindClosingDelimiter(header: string, body: string)
    requires DelimiterFree(header)
    ensures Find(header + ("---" + body), "---") == Some(|header|)
  {
    var rest := header + ("---" + body);
    assert rest[|header|..|header| + 3] == "---";
    forall j | 0 <= j < |header|
      ensures !OccursAt(rest, "---", j)
    {
      NoDelimiterBefore(header, "---" + body, j);
    }
    FindFirst(rest, "---", |header|);
  }

  /** Reading back the layout `---<header>---<body>` hands exactly the
      header to the YAML library and the body to Markdown. */
  lemma FrontMatterRoundTrip(header: string, body: string, env: Env)
    requires DelimiterFree(header)
    ensures ParseFrontMatter("---" + header + "---" + body, env) == HeaderRecord(env.yaml(header), body, env)
  {
    var rest := header + ("---" + body);
    var content := "---" + rest;
    assert content == "---" + header + "---" + body;
    assert content[..3] == "---" && content[3..] == rest;
    FindClosingDelimiter(header, body);
    assert rest[..|header|] == header && rest[|header| + 3..] == body;
  }

  // ----- the site configuration (site_generator.py:36-42) -----

  /** `_load_config`: a missing `_config.yml` gives `{}`, and so does a
      file whose YAML value is falsy. */
  function LoadConfig(site: seq<Node>, env: Env): (r: Result<Value, Error>)
    ensures Lookup(site, "_config.yml").None? ==> r == Ok(VMap(map[]))
    ensures r.Ok? ==> Truthy(r.value) || r.value == VMap(map[])
  {
    match Lookup(site, "_config.yml")
    case None => Ok(VMap(map[]))
    case Some(Dir(_, _)) => Err(IsADirectory)
    case Some(File(_, text)) =>
      match env.yaml(text)
      case None => Err(YamlError)
      case Some(v) => Ok(Or(v, VMap(map[])))
  }

  // ----- auto-generated metadata (site_generator.py:110-140) -----

  /** `[p.name for p in dir.glob('*' + suffix)]`: the names ending with
      `suffix`, in listing order; directories match as well. */
  function NamesEndingWith(entries: seq<Node>, suffix: string): (r: seq<string>)
    ensures forall k :: 0 <= k < |r| ==> EndsWith(r[k], suffix)
    ensures r == [] <==> forall i :: 0 <= i < |entries| ==> !EndsWith(entries[i].name, suffix)
    ensures r != [] ==> exists i :: (0 <= i < |entries| && entries[i].name == r[0]
      && forall j :: 0 <= j < i ==> !EndsWith(entries[j].name, suffix))
  {
    if entries == [] then []
    else
      var rest := NamesEndingWith(entries[1..], suffix);
      if EndsWith(entries[0].name, suffix) then
        assert entries[0].name == ([entries[0].name] + rest)[0];
        [entries[0].name] + rest
      else
        assert rest != [] ==> exists i :: (0 <= i < |entries| && entries[i].name == rest[0]
          && forall j :: 0 <= j < i ==> !EndsWith(entries[j].name, suffix)) by {
          if rest != [] {
            var i :| 0 <= i < |entries[1..]| && entries[1..][i].name == rest[0]
              && forall j :: 0 <= j < i ==> !EndsWith(entries[1..][j].name, suffix);
            assert entries[i + 1].name == rest[0];
          }
        }
        rest
  }

  /** The text handed to strptime for a directory name: its first two
      `_`-separated pieces joined by `_`, or nothing when there is no `_`. */
  function StampText(name: string): (r: Option<string>)
    ensures r.None? <==> '_' !in name
  {
    SplitPieces(name, '_');
    var parts := Split(name, '_');
    if |parts| >= 2 then Some(parts[0] + "_" + parts[1]) else None
  }

  /** The `date` of an auto-generated record: the parsed directory stamp,
      or the current time when the name has no `_` or strptime rejects the
      stamp. */
  function AutoDate(name: string, env: Env): (r: string)
    ensures StampText(name).Some? && env.strptime(StampText(name).value).Some?
      ==> r == env.strptime(StampText(name).value).value
    ensures StampText(name).None? || env.strptime(StampText(name).value).None? ==> r == env.now
  {
    match StampText(name)
    case None => env.now
    case Some(text) =>
      match env.strptime(text)
      case Some(iso) => iso
      case None => env.now
  }

  /** `list(dir.glob('*' + first)) + list(dir.glob('*' + second))`: every
      name ending with `first`, then every name ending with `second`. The
      first candidate ends with `first` whenever some name does; this is
      how a `.png` is preferred to a `.jpg` and a `.py` to an `.ipynb`. */
  function Candidates(entries: seq<Node>, first: string, second: string): (r: seq<string>)
    ensures forall k :: 0 <= k < |r| ==> EndsWith(r[k], first) || EndsWith(r[k], second)
    ensures r == [] <==>
      forall i :: 0 <= i < |entries| ==> !EndsWith(entries[i].name, first) && !EndsWith(entries[i].name, second)
    ensures (exists i :: 0 <= i < |entries| && EndsWith(entries[i].name, first)) ==> EndsWith(r[0], first)
  {
    NamesEndingWith(entries, first) + NamesEndingWith(entries, second)
  }

  /** `_auto_generate_metadata(plot_dir)`: None without a `.png` or `.jpg`;
      otherwise the title from the directory name with `_` turned into
      spaces and title-cased, the date, the first image, the first code
      file or None, and the `auto_generated` flag. */
  function AutoGenerateMetadata(name: string, entries: seq<Node>, env: Env): (r: Option<Dict>)
    ensures r.None? <==> Candidates(entries, ".png", ".jpg") == []
    ensures r.Some? ==> var m := r.value;
      && m.Keys == {"title", "date", "plot_image", "code_file", "auto_generated"}
      && m["title"] == VStr(AutoTitle(name))
      && m["date"] == VStr(AutoDate(name, env))
      && m["plot_image"] == VStr(Candidates(entries, ".png", ".jpg")[0])
      && (m["code_file"] == VNone <==> Candidates(entries, ".py", ".ipynb") == [])
      && (m["code_file"] != VNone ==> m["code_file"] == VStr(Candidates(entries, ".py", ".ipynb")[0]))
      && m["auto_generated"] == VBool(true)
  {
    var plotFiles := Candidates(entries, ".png", ".jpg");
    var codeFiles := Candidates(entries, ".py", ".ipynb");
    if plotFiles == [] then None
    else
      var code := if codeFiles == [] then VNone else VStr(codeFiles[0]);
      Some(AutoRecord(AutoTitle(name), AutoDate(name, env), plotFiles[0], code))
  }

  /** The dict `_auto_generate_metadata` returns, from its five parts. */
  function AutoRecord(title: string, date: string, image: string, code: Value): (m: Dict)
    ensures m.Keys == {"title", "date", "plot_image", "code_file", "auto_generated"}
    ensures m["title"] == VStr(title) && m["date"] == VStr(date)
    ensures m["plot_image"] == VStr(image) && m["code_file"] == code
    ensures m["auto_generated"] == VBool(true)
  {
    var m := map[
      "title" := VStr(title),
      "date" := VStr(date),
      "plot_image" := VStr(image),
      "code_file" := code,
      "auto_generated" := VBool(true)];
    assert m.Keys == {"title", "date", "plot_image", "code_file", "auto_generated"};
    m
  }

  /** `dir_name.replace('_', ' ').title()`: a title of the same length
      without any `_`. */
  function AutoTitle(name: string): (r: string)
    ensures |r| == |name| && '_' !in r
  {
    var title := Title(ReplaceChar(name, '_', ' '));
    assert forall k :: 0 <= k < |title| ==> title[k] != '_' by {
      forall k | 0 <= k < |title|
        ensures title[k] != '_'
      {
        TitleFromOmits(ReplaceChar(name, '_', ' '), false, '_', k);
      }
    }
    title
  }

  // ----- plot records (site_generator.py:86-108) -----

  /** `_load_plot_metadata(plot_dir)`: the front matter of `index.md`, or
      the auto-generated record when there is none. */
  function LoadPlotMetadata(name: string, entries: seq<Node>, env: Env): (r: Result<Option<Dict>, Error>)
    ensures Lookup(entries, "index.md").None? ==> r == Ok(AutoGenerateMetadata(name, entries, env))
    ensures Lookup(entries, "index.md").Some? && Lookup(entries, "index.md").value.File?
      ==> r == ParseFrontMatter(Lookup(entries, "index.md").value.text, env)
  {
    match Lookup(entries, "index.md")
    case None => Ok(AutoGenerateMetadata(name, entries, env))
    case Some(Dir(_, _)) => Err(IsADirectory)
    case Some(File(_, text)) => ParseFrontMatter(text, env)
  }

  // ----- collection records (site_generator.py:257-278) -----

  /** The record of a collection without a usable `_index.md`. */
  function DefaultCollectionMetadata(name: string): (r: Dict)
    ensures r.Keys == {"title", "description", "name"}
    ensures r["title"].VStr? && |r["title"].s| == |name| && '-' !in r["title"].s
    ensures r["description"] == VStr("Plot collection for " + name) && r["name"] == VStr(name)
  {
    var title := Title(ReplaceChar(name, '-', ' '));
    assert forall k :: 0 <= k < |title| ==> title[k] != '-' by {
      forall k | 0 <= k < |title|
        ensures title[k] != '-'
      {
        TitleFromOmits(ReplaceChar(name, '-', ' '), false, '-', k);
      }
    }
    map["title" := VStr(title), "description" := VStr("Plot collection for " + name), "name" := VStr(name)]
  }

  /** `_load_collection_metadata(name)`, given the listing of
      `collections/`: the front matter of `<name>/_index.md` when it has
      one, the default record otherwise. */
  function LoadCollectionMetadata(collections: seq<Node>, name: string, env: Env): (r: Result<Dict, Error>)
    ensures (match Lookup(collections, name)
             case Some(Dir(_, entries)) => Lookup(entries, "_index.md").None?
             case _ => true) ==> r == Ok(DefaultCollectionMetadata(name))
  {
    match Lookup(collections, name)
    case Some(Dir(_, entries)) =>
      (match Lookup(entries, "_index.md")
       case None => Ok(DefaultCollectionMetadata(name))
       case Some(Dir(_, _)) => Err(IsADirectory)
       case Some(File(_, text)) =>
         match ParseFrontMatter(text, env)
         case Err(e) => Err(e)
         case Ok(None) => Ok(DefaultCollectionMetadata(name))
         case Ok(Some(m)) => Ok(m))
    case _ => Ok(DefaultCollectionMetadata(name))
  }

  // ----- detail-page records (site_generator.py:308-325) -----

  /** The suffixes whose files a detail page carries in full. */
  const ContentSuffixes: set<string> := {".py", ".ipynb", ".md"}

  /** The file is one whose text `_load_full_plot_data` adds. */
  predicate CarriesContent(n: Node) {
    n.File? && PathSuffix(n.name) in ContentSuffixes
  }

  /** The key under which its text is added: `<stem>_content`. */
  function ContentKey(name: string): string {
    PathStem(name) + "_content"
  }

  /** The record after `code_content` has been added: `code_file`, when
      truthy, must be a string; `plot_dir / code_file` is followed through
      the entry's subdirectories; a missing file adds nothing, and a
      directory (`.` among them) raises when opened. */
  function WithCodeContent(entries: seq<Node>, base: Dict): (r: Result<Dict, Error>)
    ensures !Truthy(Get(base, "code_file", VNone)) ==> r == Ok(base)
    ensures r.Ok? ==>
      base.Keys <= r.value.Keys <= base.Keys + {"code_content"}
      && forall k :: k in base && k != "code_content" ==> r.value[k] == base[k]
    ensures Truthy(Get(base, "code_file", VNone)) && base["code_file"].VStr? ==>
      match Resolve(entries, Components(base["code_file"].s))
      case Missing => r == Ok(base)
      case AtDir => r == Err(IsADirectory)
      case AtFile(text) => r == Ok(base["code_content" := VStr(text)])
  {
    var codeFile := Get(base, "code_file", VNone);
    if !Truthy(codeFile) then Ok(base)
    else if !codeFile.VStr? then Err(BadCodeFile)
    else match Resolve(entries, Components(codeFile.s))
      case Missing => Ok(base)
      case AtFile(text) => Ok(base["code_content" := VStr(text)])
      case AtDir => Err(IsADirectory)
  }

  /** `code_file: "."` names the entry directory itself, which `open`
      refuses. */
  lemma CodeFileDotRaises(entries: seq<Node>, base: Dict)
    requires "code_file" in base && base["code_file"] == VStr(".")
    ensures WithCodeContent(entries, base) == Err(IsADirectory)
  {
    assert Split(".", '/') == ["."] by {
      assert IndexOf(".", '/').None?;
    }
    assert Kept(["."]) == Kept([]) by {
      assert ["."][1..] == [];
    }
  }

  /** A `code_file` with a subdirectory reads the file it names there. */
  lemma CodeFileInSubdirectory(entries: seq<Node>, base: Dict, dir: string, children: seq<Node>, name: string, text: string)
    requires "code_file" in base && base["code_file"] == VStr(dir + "/" + name)
    requires '/' !in dir && dir != "" && dir != "." && '/' !in name && name != "" && name != "."
    requires Lookup(entries, dir) == Some(Dir(dir, children)) && Lookup(children, name) == Some(File(name, text))
    ensures WithCodeContent(entries, base) == Ok(base["code_content" := VStr(text)])
  {
    ComponentsOfPair(dir, name);
    assert Resolve(entries, [dir, name]) == Resolve(children, [name]) by {
      assert [dir, name][1..] == [name];
    }
  }

  /** One step of the loop over the directory listing. */
  function AddContent(n: Node, data: Dict): Dict {
    if CarriesContent(n) then data[ContentKey(n.name) := VStr(n.text)] else data
  }

  /** The loop over the listing, from `data` on. */
  function AddContents(entries: seq<Node>, data: Dict): (r: Dict)
    ensures data.Keys <= r.Keys
    ensures forall i :: 0 <= i < |entries| && CarriesContent(entries[i]) ==> ContentKey(entries[i].name) in r
    decreases |entries|
  {
    if entries == [] then data
    else
      var rest := AddContents(entries[1..], AddContent(entries[0], data));
      assert forall i :: 1 <= i < |entries| ==> entries[1..][i - 1] == entries[i];
      rest
  }

  /** The loop adds no key other than those of the content-carrying
      files. */
  lemma {:induction false} AddContentsOnly(entries: seq<Node>, data: Dict, k: string)
    requires k in AddContents(entries, data) && k !in data
    ensures exists i :: 0 <= i < |entries| && CarriesContent(entries[i]) && ContentKey(entries[i].name) == k
    decreases |entries|
  {
    if entries != [] && !(CarriesContent(entries[0]) && ContentKey(entries[0].name) == k) {
      var t := entries[1..];
      assert k !in AddContent(entries[0], data);
      AddContentsOnly(t, AddContent(entries[0], data), k);
      var i :| 0 <= i < |t| && CarriesContent(t[i]) && ContentKey(t[i].name) == k;
      assert entries[i + 1] == t[i];
    }
  }

  /** The full record of a detail page, as `_load_full_plot_data` builds
      it. */
  function FullPlotData(entries: seq<Node>, base: Dict): (r: Result<Dict, Error>)
  {
    match WithCodeContent(entries, base)
    case Err(e) => Err(e)
    case Ok(data) => Ok(AddContents(entries, data))
  }

  /** `_load_full_plot_data(plot_dir, base_plot)`: copy the record, add
      `code_content`, then `<stem>_content` for each `.py`, `.ipynb` and
      `.md` file of the listing, later files overwriting earlier ones with
      the same stem. */
  method LoadFullPlotData(entries: seq<Node>, base: Dict) returns (r: Result<Dict, Error>)
    ensures r == FullPlotData(entries, base)
  {
    var data := base;
    var codeFile := Get(data, "code_file", VNone);
    if Truthy(codeFile) {
      if !codeFile.VStr? {
        return Err(BadCodeFile);
      }
      match Resolve(entries, Components(codeFile.s))
      case Missing =>
      case AtFile(text) =>
        data := data["code_content" := VStr(text)];
      case AtDir =>
        return Err(IsADirectory);
    }
    ghost var start := data;
    for i := 0 to |entries|
      invariant AddContents(entries[i..], data) == AddContents(entries, start)
    {
      assert entries[i..][1..] == entries[i + 1..];
      if CarriesContent(entries[i]) {
        data := data[ContentKey(entries[i].name) := VStr(entries[i].text)];
      }
    }
    assert entries[|entries|..] == [];
    r := Ok(data);
  }

  /** A key that is not added by the loop keeps its value. */
  lemma {:induction false} AddContentsKeeps(entries: seq<Node>, data: Dict, k: string)
    requires k in data
    requires forall i :: 0 <= i < |entries| && CarriesContent(entries[i]) ==> ContentKey(entries[i].name) != k
    ensures AddContents(entries, data)[k] == data[k]
    decreases |entries|
  {
    if entries != [] {
      AddContentsKeeps(entries[1..], AddContent(entries[0], data), k);
    }
  }

  /** The key of the last content-carrying file with a given stem holds
      that file's text. */
  lemma {:induction false} AddContentsLastWins(entries: seq<Node>, data: Dict, i: nat)
    requires i < |entries| && CarriesContent(entries[i])
    requires forall j :: i < j < |entries| && CarriesContent(entries[j]) ==> ContentKey(entries[j].name) != ContentKey(entries[i].name)
    ensures AddContents(entries, data)[ContentKey(entries[i].name)] == VStr(entries[i].text)
    decreases |entries|
  {
    var t := entries[1..];
    var d := AddContent(entries[0], data);
    var k := ContentKey(entries[i].name);
    if i == 0 {
      assert k in d && d[k] == VStr(entries[0].text);
      forall j | 0 <= j < |t| && CarriesContent(t[j])
        ensures ContentKey(t[j].name) != k
      {
        assert t[j] == entries[j + 1];
      }
      AddContentsKeeps(t, d, k);
    } else {
      assert t[i - 1] == entries[i];
      forall j | i - 1 < j < |t| && CarriesContent(t[j])
        ensures ContentKey(t[j].name) != k
      {
        assert t[j] == entries[j + 1];
      }
      AddContentsLastWins(t, d, i - 1);
    }
  }

  /** `_load_full_plot_data` adds `code_content` and one `<stem>_content`
      key per content-carrying file, each holding the text of the last file
      with that stem, and leaves every other key of the record unchanged. */
  lemma FullPlotDataProperties(entries: seq<Node>, base: Dict)
    requires FullPlotData(entries, base).Ok?
    ensures var r := FullPlotData(entries, base).value;
      && (forall i :: 0 <= i < |entries| && CarriesContent(entries[i]) ==> ContentKey(entries[i].name) in r)
      && (forall i :: (0 <= i < |entries| && CarriesContent(entries[i])
            && (forall j :: i < j < |entries| && CarriesContent(entries[j]) ==> ContentKey(entries[j].name) != ContentKey(entries[i].name)))
            ==> r[ContentKey(entries[i].name)] == VStr(entries[i].text))
      && (forall k :: (k in base && k != "code_content"
            && (forall i :: 0 <= i < |entries| && CarriesContent(entries[i]) ==> ContentKey(entries[i].name) != k))
            ==> r[k] == base[k])
  {
    var data := WithCodeContent(entries, base).value;
    forall i | 0 <= i < |entries| && CarriesContent(entries[i])
        && (forall j :: i < j < |entries| && CarriesContent(entries[j]) ==> ContentKey(entries[j].name) != ContentKey(entries[i].name))
      ensures AddContents(entries, data)[ContentKey(entries[i].name)] == VStr(entries[i].text)
    {
      AddContentsLastWins(entries, data, i);
    }
    forall k | k in base && k != "code_content"
        && (forall i :: 0 <= i < |entries| && CarriesContent(entries[i]) ==> ContentKey(entries[i].name) != k)
      ensures AddContents(entries, data)[k] == base[k]
    {
      AddContentsKeeps(entries, data, k);
    }
  }
}
