/** The site-editing commands of snapshotplot/cli.py: `init` lays out a
    new site (the directory skeleton, `_config.yml`, the theme files, the
    workflow and the stylesheet) and `collection create` writes a
    collection page and registers the collection in `_config.yml`. The
    working directory is a class whose directories and text files the
    commands change, keyed by path relative to it; YAML, the clock and the
    theme tables are parameters. */
module Cli {

  import opened Values
  import opened Text
  import opened FileManager
  import opened SiteTree
  import opened SiteMetadata

  /** The libraries the commands call. */
  datatype Tools = Tools(
    /** `yaml.dump(d, f, default_flow_style=False)` */
    dump: Dict -> string,
    /** `yaml.safe_load` of a text: None when it raises. */
    load: string -> Option<Value>,
    /** `datetime.now().isoformat()` */
    now: string,
    /** `get_template(theme).items()`, in insertion order. */
    templates: string -> seq<(string, string)>,
    /** The text of the GitHub Actions workflow that `init` writes. */
    workflow: string)

  /** An option given on the command line and not empty: `if value:`. */
  predicate Supplied(o: Option<string>) {
    o.Some? && o.value != ""
  }

  /** `value or default` for an optional string. */
  function OrText(o: Option<string>, default: string): (r: string)
    ensures Supplied(o) ==> r == o.value
    ensures !Supplied(o) ==> r == default
  {
    if Supplied(o) then o.value else default
  }

  // ----- paths -----

  /** `path.parent` of a relative path; the parent of a single component
      is the working directory. */
  function Parent(p: Path): (r: Path)
    ensures p != [] ==> p == r + [p[|p| - 1]]
  {
    if p == [] then [] else p[..|p| - 1]
  }

  /** `p` lies inside `dir` (or is `dir`). */
  predicate Under(dir: Path, p: Path) {
    |dir| <= |p| && p[..|dir|] == dir
  }

  // ----- the working directory -----

  /** The directories and text files below the working directory. */
  datatype Store = Store(dirs: set<Path>, files: map<Path, string>)

  /** `Path(p).exists()`: the working directory itself always exists. */
  predicate Exists(s: Store, p: Path) {
    p == [] || p in s.dirs || p in s.files
  }

  predicate IsDir(s: Store, p: Path) {
    p == [] || p in s.dirs
  }

  /** One change a command makes. */
  datatype Change =
    | MakeDir(path: Path)                   // `mkdir()`
    | MakeDirs(path: Path)                  // `mkdir(parents=True, exist_ok=True)`
    | WriteFile(path: Path, text: string)   // `open(path, 'w')` and its writes

  function Effect(s: Store, c: Change): Store {
    match c
    case MakeDir(p) => Store(s.dirs + {p}, s.files)
    case MakeDirs(p) => Store(s.dirs + Ancestry(p), s.files)
    case WriteFile(p, text) => Store(s.dirs, s.files[p := text])
  }

  /** The store after a sequence of changes, in order. */
  function ApplyAll(s: Store, cs: seq<Change>): Store
    decreases |cs|
  {
    if cs == [] then s else Effect(ApplyAll(s, cs[..|cs| - 1]), cs[|cs| - 1])
  }

  /** The text of the last write to `p`, if any. */
  function LastWrite(cs: seq<Change>, p: Path): Option<string>
    decreases |cs|
  {
    if cs == [] then None
    else if cs[|cs| - 1].WriteFile? && cs[|cs| - 1].path == p then Some(cs[|cs| - 1].text)
    else LastWrite(cs[..|cs| - 1], p)
  }

  /** The directories a sequence of changes creates. */
  function DirsMade(cs: seq<Change>): set<Path>
    decreases |cs|
  {
    if cs == [] then {}
    else
      DirsMade(cs[..|cs| - 1]) +
        (match cs[|cs| - 1]
         case MakeDir(p) => {p}
         case MakeDirs(p) => Ancestry(p)
         case WriteFile(_, _) => {})
  }

  lemma {:induction false} ApplyAllAppend(s: Store, a: seq<Change>, b: seq<Change>)
    ensures ApplyAll(s, a + b) == ApplyAll(ApplyAll(s, a), b)
    decreases |b|
  {
    if b == [] {
      assert a + b == a;
    } else {
      assert (a + b)[..|a + b| - 1] == a + b[..|b| - 1];
      ApplyAllAppend(s, a, b[..|b| - 1]);
    }
  }

  lemma ApplyAllSnoc(s: Store, cs: seq<Change>, c: Change)
    ensures ApplyAll(s, cs + [c]) == Effect(ApplyAll(s, cs), c)
  {
    assert (cs + [c])[..|cs|] == cs;
  }

  lemma PrefixStep(s: Store, cs: seq<Change>, k: nat)
    requires k < |cs|
    ensures ApplyAll(s, cs[..k + 1]) == Effect(ApplyAll(s, cs[..k]), cs[k])
  {
    assert cs[..k + 1][..k] == cs[..k];
  }

  lemma ApplyAllPair(s: Store, a: Change, b: Change)
    ensures ApplyAll(s, [a, b]) == Effect(Effect(s, a), b)
  {
    assert [a][..0] == [];
    assert ApplyAll(s, [a]) == Effect(s, a);
    assert [a, b][..1] == [a];
  }

  lemma {:induction false} LastWriteAppend(a: seq<Change>, b: seq<Change>, p: Path)
    ensures LastWrite(a + b, p) == if LastWrite(b, p).Some? then LastWrite(b, p) else LastWrite(a, p)
    decreases |b|
  {
    if b == [] {
      assert a + b == a;
    } else {
      assert (a + b)[..|a + b| - 1] == a + b[..|b| - 1];
      LastWriteAppend(a, b[..|b| - 1], p);
    }
  }

  /** A file of the resulting store is the last one written to its path,
      or was there before and never written; the directories are the old
      ones and the created ones. */
  lemma {:induction false} ApplyAllContents(s: Store, cs: seq<Change>, p: Path)
    ensures p in ApplyAll(s, cs).files <==> LastWrite(cs, p).Some? || p in s.files
    ensures LastWrite(cs, p).Some? ==> ApplyAll(s, cs).files[p] == LastWrite(cs, p).value
    ensures LastWrite(cs, p).None? && p in s.files ==> ApplyAll(s, cs).files[p] == s.files[p]
    ensures ApplyAll(s, cs).dirs == s.dirs + DirsMade(cs)
    decreases |cs|
  {
    if cs != [] {
      ApplyAllContents(s, cs[..|cs| - 1], p);
    }
  }

  /** Every file a sequence of changes writes lies inside `dir`. */
  predicate WritesUnder(cs: seq<Change>, dir: Path) {
    forall i :: 0 <= i < |cs| && cs[i].WriteFile? ==> Under(dir, cs[i].path)
  }

  lemma WritesUnderAppend(a: seq<Change>, b: seq<Change>, dir: Path)
    requires WritesUnder(a, dir) && WritesUnder(b, dir)
    ensures WritesUnder(a + b, dir)
  {
    forall i | 0 <= i < |a + b| && (a + b)[i].WriteFile?
      ensures Under(dir, (a + b)[i].path)
    {
      if i < |a| {
        assert (a + b)[i] == a[i];
      } else {
        assert (a + b)[i] == b[i - |a|];
      }
    }
  }

  /** Nothing is written outside `dir` by changes that write only inside
      it. */
  lemma {:induction false} NoWriteOutside(cs: seq<Change>, dir: Path, p: Path)
    requires WritesUnder(cs, dir) && !Under(dir, p)
    ensures LastWrite(cs, p).None?
    decreases |cs|
  {
    if cs != [] {
      assert WritesUnder(cs[..|cs| - 1], dir) by {
        assert forall i :: 0 <= i < |cs| - 1 ==> cs[..|cs| - 1][i] == cs[i];
      }
      NoWriteOutside(cs[..|cs| - 1], dir, p);
    }
  }

  class Workspace {
    var dirs: set<Path>
    var files: map<Path, string>

    constructor (s: Store)
      ensures State() == s
    {
      dirs, files := s.dirs, s.files;
    }

    function State(): Store
      reads this
    {
      Store(dirs, files)
    }

    /** Make one change. */
    method Apply(c: Change)
      modifies this
      ensures State() == Effect(old(State()), c)
    {
      match c
      case MakeDir(p) => dirs := dirs + {p};
      case MakeDirs(p) => dirs := dirs + Ancestry(p);
      case WriteFile(p, text) => files := files[p := text];
    }

    /** The guard of `collection create`, `serve`, `build`, `deploy` and
        `list` (cli.py:102-105, 148-150, 191-193, 209-211, 240-242): the
        command goes on exactly when `_config.yml` exists, and changes
        nothing when it stops. */
    method Preflight() returns (proceed: bool)
      ensures proceed <==> Exists(State(), ConfigPath)
    {
      proceed := Exists(State(), ConfigPath);
    }

    /** `init` (cli.py:34-86). */
    method Init(name: string, template: string, githubRepo: Option<string>, author: Option<string>,
                title: Option<string>, tools: Tools) returns (r: InitOutcome)
      modifies this
      ensures (State(), r) == InitRun(old(State()), name, template, githubRepo, author, title, tools)
    {
      var site := Components(name);
      if Exists(State(), site) {
        return AlreadyExists;
      }
      if !IsDir(State(), Parent(site)) {
        return NoParent;
      }
      MakeSkeleton(site);
      ghost var s1 := State();
      var templates := tools.templates(template);
      var c := WriteFile(site + ["_config.yml"], tools.dump(InitConfig(name, template, githubRepo, author, title)));
      Apply(c);
      ApplyAllSnoc(s1, [], c);
      CreateTemplates(site, templates);
      ApplyAllAppend(s1, [c], TemplateChanges(site, templates));
      var w := WriteFile(site + [".github", "workflows", "build-plots.yml"], tools.workflow);
      Apply(w);
      ApplyAllSnoc(s1, [c] + TemplateChanges(site, templates), w);
      assert State() == ApplyAll(s1, InitChanges(site, name, template, githubRepo, author, title, tools));
      var css := Stylesheet(tools);
      if css.None? {
        return MissingStylesheet;
      }
      Apply(WriteFile(site + ["assets", "style.css"], css.value));
      r := Created;
    }

    /** The directories of the new site (cli.py:45-52). */
    method MakeSkeleton(site: Path)
      modifies this
      ensures State() == Store(old(dirs) + SkeletonDirs(site), old(files))
    {
      dirs := dirs + SkeletonDirs(site);
    }

    /** `_create_templates` (cli.py:307-323): each theme file is written
        at its path below the site, after its parent directories. */
    method CreateTemplates(site: Path, templates: seq<(string, string)>)
      modifies this
      ensures State() == ApplyAll(old(State()), TemplateChanges(site, templates))
    {
      var i := 0;
      while i < |templates|
        invariant 0 <= i <= |templates|
        invariant State() == ApplyAll(old(State()), TemplateChanges(site, templates[..i]))
      {
        var (key, content) := templates[i];
        var filepath := TemplatePath(site, key);
        ghost var before := State();
        Apply(MakeDirs(Parent(filepath)));
        Apply(WriteFile(filepath, content));
        ApplyAllPair(before, MakeDirs(Parent(filepath)), WriteFile(filepath, content));
        TemplateChangesSnoc(site, templates, i);
        ApplyAllAppend(old(State()), TemplateChanges(site, templates[..i]), TemplateWrite(site, templates[i]));
        i := i + 1;
      }
      assert templates[..|templates|] == templates;
    }

    /** `collection create` (cli.py:95-140). */
    method CreateCollection(name: string, title: Option<string>, description: Option<string>,
                            tags: Option<string>, tools: Tools) returns (r: CollectionOutcome)
      modifies this
      ensures (State(), r) == CreateCollectionRun(old(State()), name, title, description, tags, tools)
    {
      var proceed := Preflight();
      if !proceed {
        return NoConfig;
      }
      var dir := ["collections"] + Components(name);
      ghost var s0 := State();
      Apply(MakeDirs(dir));
      var metadata := CollectionMetadata(name, title, description, tags, tools.now);
      Apply(WriteFile(dir + ["_index.md"], CollectionPage(metadata, tools)));
      ApplyAllPair(s0, MakeDirs(dir), WriteFile(dir + ["_index.md"], CollectionPage(metadata, tools)));
      if ConfigPath !in files {
        return ConfigFailed(ConfigIsDirectory);
      }
      var registered := Register(tools.load(files[ConfigPath]), name, CollectionEntry(metadata));
      if registered.Err? {
        return ConfigFailed(registered.error);
      }
      Apply(WriteFile(ConfigPath, tools.dump(registered.value)));
      r := CollectionCreated;
    }
  }

  // ----- init -----

  /** `_config.yml` of the working directory. */
  const ConfigPath: Path := ["_config.yml"]

  /** How `init` ends. */
  datatype InitOutcome =
    | AlreadyExists      // the directory exists: nothing is done
    | NoParent           // `site_path.mkdir()` raises: the parent is not a directory
    | MissingStylesheet  // the scientific theme has no `assets/style.css`: KeyError
    | Created

  /** `name.replace('-', ' ').title()` */
  function NameTitle(name: string): (r: string)
    ensures |r| == |name| && '-' !in r
  {
    var t := Title(ReplaceChar(name, '-', ' '));
    assert forall k :: 0 <= k < |t| ==> t[k] != '-' by {
      forall k | 0 <= k < |t|
        ensures t[k] != '-'
      {
        TitleFromOmits(ReplaceChar(name, '-', ' '), false, '-', k);
      }
    }
    t
  }

  /** The keys of the record `init` writes. */
  const InitKeys: set<string> :=
    {"title", "description", "author", "github_repo", "template", "build_dir", "collections", "defaults"}

  /** The record `init` dumps to `_config.yml` (cli.py:55-67). */
  function InitConfig(name: string, template: string, githubRepo: Option<string>, author: Option<string>,
                      title: Option<string>): (r: Dict)
    ensures r.Keys == InitKeys
    ensures r["collections"] == VMap(map[]) && r["build_dir"] == VStr("docs")
    ensures r["defaults"] == VMap(map["layout" := VStr("plot"), "author" := r["author"]])
  {
    var who := VStr(OrText(author, "Research Team"));
    map["title" := VStr(OrText(title, NameTitle(name) + " Plots")),
        "description" := VStr("Data science plots and analysis for " + name),
        "author" := who,
        "github_repo" := OptStr(githubRepo),
        "template" := VStr(template),
        "build_dir" := VStr("docs"),
        "collections" := VMap(map[]),
        "defaults" := VMap(map["layout" := VStr("plot"), "author" := who])]
  }

  /** The title, author and repository of a new site: a title that is not
      given is the title the site builder gives a collection of the same
      name, followed by ` Plots`; a missing author is `Research Team`, both
      at the top and in the page defaults; a missing repository is None. */
  lemma InitConfigValues(name: string, template: string, githubRepo: Option<string>, author: Option<string>,
                         title: Option<string>)
    ensures var r := InitConfig(name, template, githubRepo, author, title);
      && (Supplied(title) ==> r["title"] == VStr(title.value))
      && (!Supplied(title) ==> r["title"] == VStr(DefaultCollectionMetadata(name)["title"].s + " Plots"))
      && (!Supplied(author) ==> r["author"] == VStr("Research Team") && r["defaults"].m["author"] == VStr("Research Team"))
      && (githubRepo.None? <==> r["github_repo"] == VNone)
  {
    var d := DefaultCollectionMetadata(name);
    assert d["title"] == VStr(Title(ReplaceChar(name, '-', ' ')));
  }

  /** The directories `init` makes (cli.py:45-52): the site, six
      directories inside it and `.github/workflows`. */
  function SkeletonDirs(site: Path): set<Path> {
    {site} + {site + ["_layouts"]} + {site + ["_includes"]} + {site + ["_data"]}
      + {site + ["assets"]} + {site + ["collections"]} + {site + ["docs"]}
      + Ancestry(site + [".github", "workflows"])
  }

  /** Where `_create_templates` writes a theme file: each of the four
      prefix branches joins the key to the site path, so every file lands
      at `site/<key>`. */
  function TemplatePath(site: Path, key: string): (r: Path)
    ensures r == site + Components(key)
  {
    if StartsWith(key, "_layouts/") then site + Components(key)
    else if StartsWith(key, "_includes/") then site + Components(key)
    else if StartsWith(key, "assets/") then site + Components(key)
    else site + Components(key)
  }

  /** One theme file: its parent directories, then the file. */
  function TemplateWrite(site: Path, t: (string, string)): seq<Change> {
    var p := TemplatePath(site, t.0);
    [MakeDirs(Parent(p)), WriteFile(p, t.1)]
  }

  function TemplateChanges(site: Path, ts: seq<(string, string)>): seq<Change>
    decreases |ts|
  {
    if ts == [] then [] else TemplateChanges(site, ts[..|ts| - 1]) + TemplateWrite(site, ts[|ts| - 1])
  }

  lemma TemplateChangesSnoc(site: Path, ts: seq<(string, string)>, i: nat)
    requires i < |ts|
    ensures TemplateChanges(site, ts[..i + 1]) == TemplateChanges(site, ts[..i]) + TemplateWrite(site, ts[i])
  {
    assert ts[..i + 1][..i] == ts[..i];
  }

  /** The theme's stylesheet `_create_assets` copies: the scientific
      theme's `assets/style.css`, None when the table lacks it. */
  function Stylesheet(tools: Tools): Option<string> {
    TemplateText(tools.templates("scientific"), "assets/style.css")
  }

  /** `templates[key]` on the items of a dict. */
  function TemplateText(ts: seq<(string, string)>, key: string): (r: Option<string>)
    ensures r.Some? <==> exists i :: 0 <= i < |ts| && ts[i].0 == key
    decreases |ts|
  {
    if ts == [] then None
    else if ts[|ts| - 1].0 == key then Some(ts[|ts| - 1].1)
    else
      var r := TemplateText(ts[..|ts| - 1], key);
      assert forall i :: 0 <= i < |ts| - 1 ==> ts[..|ts| - 1][i] == ts[i];
      r
  }

  /** The files `init` writes after its directories, up to the
      stylesheet. */
  function InitChanges(site: Path, name: string, template: string, githubRepo: Option<string>,
                       author: Option<string>, title: Option<string>, tools: Tools): seq<Change>
  {
    [WriteFile(site + ["_config.yml"], tools.dump(InitConfig(name, template, githubRepo, author, title)))]
      + TemplateChanges(site, tools.templates(template))
      + [WriteFile(site + [".github", "workflows", "build-plots.yml"], tools.workflow)]
  }

  /** `init`: nothing when the directory exists or its parent is not a
      directory; otherwise the skeleton, `_config.yml`, the theme files,
      the workflow and, when the scientific theme has one, the
      stylesheet. */
  function InitRun(s: Store, name: string, template: string, githubRepo: Option<string>, author: Option<string>,
                   title: Option<string>, tools: Tools): (Store, InitOutcome)
  {
    var site := Components(name);
    InitAt(s, site, InitChanges(site, name, template, githubRepo, author, title, tools), Stylesheet(tools))
  }

  /** `init` at `site`, given the files it writes up to the stylesheet
      and the stylesheet text, if any. */
  function InitAt(s: Store, site: Path, cs: seq<Change>, css: Option<string>): (Store, InitOutcome) {
    if Exists(s, site) then (s, AlreadyExists)
    else if !IsDir(s, Parent(site)) then (s, NoParent)
    else
      var s1 := ApplyAll(Store(s.dirs + SkeletonDirs(site), s.files), cs);
      match css
      case None => (s1, MissingStylesheet)
      case Some(text) => (Effect(s1, WriteFile(site + ["assets", "style.css"], text)), Created)
  }

  /** The theme tables name files: no key is empty once normalised. */
  predicate TemplateFiles(ts: seq<(string, string)>) {
    forall i :: 0 <= i < |ts| ==> Components(ts[i].0) != []
  }

  /** `init` on an existing path, the working directory included, changes
      nothing; on a path whose parent is not a directory it changes nothing
      either. */
  lemma InitRefuses(s: Store, name: string, template: string, githubRepo: Option<string>, author: Option<string>,
                    title: Option<string>, tools: Tools)
    requires Exists(s, Components(name)) || !IsDir(s, Parent(Components(name)))
    ensures InitRun(s, name, template, githubRepo, author, title, tools).0 == s
    ensures InitRun(s, name, template, githubRepo, author, title, tools).1 != Created
  {
  }

  lemma {:induction false} TemplateChangesUnder(site: Path, ts: seq<(string, string)>)
    ensures WritesUnder(TemplateChanges(site, ts), site)
    decreases |ts|
  {
    if ts != [] {
      TemplateChangesUnder(site, ts[..|ts| - 1]);
      var a, b := TemplateChanges(site, ts[..|ts| - 1]), TemplateWrite(site, ts[|ts| - 1]);
      assert Under(site, TemplatePath(site, ts[|ts| - 1].0));
      assert forall i :: 0 <= i < |a + b| ==> (a + b)[i] == if i < |a| then a[i] else b[i - |a|];
    }
  }

  /** The files `init` writes all lie inside the new site. */
  lemma InitChangesUnder(site: Path, name: string, template: string, githubRepo: Option<string>,
                         author: Option<string>, title: Option<string>, tools: Tools)
    ensures WritesUnder(InitChanges(site, name, template, githubRepo, author, title, tools), site)
  {
    var cfg := [WriteFile(site + ["_config.yml"], tools.dump(InitConfig(name, template, githubRepo, author, title)))];
    var ts := TemplateChanges(site, tools.templates(template));
    var wf := [WriteFile(site + [".github", "workflows", "build-plots.yml"], tools.workflow)];
    assert Under(site, site + ["_config.yml"]);
    assert Under(site, site + [".github", "workflows", "build-plots.yml"]);
    TemplateChangesUnder(site, tools.templates(template));
    WritesUnderAppend(cfg, ts, site);
    WritesUnderAppend(cfg + ts, wf, site);
  }

  /** `init` changes no file outside the directory it creates. */
  lemma InitOnlyInsideSite(s: Store, name: string, template: string, githubRepo: Option<string>,
                           author: Option<string>, title: Option<string>, tools: Tools, p: Path)
    requires !Under(Components(name), p)
    ensures var r := InitRun(s, name, template, githubRepo, author, title, tools).0;
      (p in r.files <==> p in s.files) && (p in s.files ==> r.files[p] == s.files[p])
  {
    var site := Components(name);
    InitChangesUnder(site, name, template, githubRepo, author, title, tools);
    InitAtOutside(s, site, InitChanges(site, name, template, githubRepo, author, title, tools), Stylesheet(tools), p);
  }

  /** Changes that write inside `site` leave every file outside it alone. */
  lemma InitAtOutside(s: Store, site: Path, cs: seq<Change>, css: Option<string>, p: Path)
    requires WritesUnder(cs, site) && !Under(site, p)
    ensures var r := InitAt(s, site, cs, css).0;
      (p in r.files <==> p in s.files) && (p in s.files ==> r.files[p] == s.files[p])
  {
    if !Exists(s, site) && IsDir(s, Parent(site)) {
      NoWriteOutside(cs, site, p);
      ApplyAllContents(Store(s.dirs + SkeletonDirs(site), s.files), cs, p);
      var q := site + ["assets", "style.css"];
      assert q[..|site|] == site;
    }
  }

  /** When its guards pass, `init` makes every skeleton directory, keeps
      the old ones, and completes exactly when the scientific theme has a
      stylesheet. */
  lemma InitMakesSkeleton(s: Store, name: string, template: string, githubRepo: Option<string>,
                          author: Option<string>, title: Option<string>, tools: Tools)
    requires !Exists(s, Components(name)) && IsDir(s, Parent(Components(name)))
    ensures var (r, outcome) := InitRun(s, name, template, githubRepo, author, title, tools);
      s.dirs + SkeletonDirs(Components(name)) <= r.dirs
      && (outcome == Created <==> Stylesheet(tools).Some?)
      && (outcome == MissingStylesheet <==> Stylesheet(tools).None?)
  {
    var site := Components(name);
    InitAtDirs(s, site, InitChanges(site, name, template, githubRepo, author, title, tools), Stylesheet(tools));
  }

  lemma InitAtDirs(s: Store, site: Path, cs: seq<Change>, css: Option<string>)
    requires !Exists(s, site) && IsDir(s, Parent(site))
    ensures s.dirs + SkeletonDirs(site) <= InitAt(s, site, cs, css).0.dirs
  {
    ApplyAllContents(Store(s.dirs + SkeletonDirs(site), s.files), cs, site);
  }

  /** A completed `init` keeps the last of its writes to a path other than
      the stylesheet. */
  lemma InitAtWrites(s: Store, site: Path, cs: seq<Change>, css: Option<string>, p: Path, text: string)
    requires InitAt(s, site, cs, css).1 == Created
    requires LastWrite(cs, p) == Some(text) && p != site + ["assets", "style.css"]
    ensures var r := InitAt(s, site, cs, css).0;
      p in r.files && r.files[p] == text
  {
    ApplyAllContents(Store(s.dirs + SkeletonDirs(site), s.files), cs, p);
  }

  /** Among the changes of `init`, the last write to the site's
      `_config.yml` is the dumped site record when no theme file has that
      name. */
  lemma InitChangesConfig(site: Path, name: string, template: string, githubRepo: Option<string>,
                          author: Option<string>, title: Option<string>, tools: Tools)
    requires forall i :: 0 <= i < |tools.templates(template)| ==> Components(tools.templates(template)[i].0) != ["_config.yml"]
    ensures LastWrite(InitChanges(site, name, template, githubRepo, author, title, tools), site + ["_config.yml"])
      == Some(tools.dump(InitConfig(name, template, githubRepo, author, title)))
  {
    var p := site + ["_config.yml"];
    var cfg := [WriteFile(p, tools.dump(InitConfig(name, template, githubRepo, author, title)))];
    var ts := TemplateChanges(site, tools.templates(template));
    var wf := [WriteFile(site + [".github", "workflows", "build-plots.yml"], tools.workflow)];
    forall i | 0 <= i < |tools.templates(template)|
      ensures site + Components(tools.templates(template)[i].0) != p
    {
      PrefixCancel(site, Components(tools.templates(template)[i].0), ["_config.yml"]);
    }
    TemplatesMiss(site, tools.templates(template), p);
    assert cfg[..0] == [] && wf[..0] == [];
    assert |site + [".github", "workflows", "build-plots.yml"]| != |p|;
    LastWriteAppend(cfg, ts, p);
    LastWriteAppend(cfg + ts, wf, p);
  }

  /** After a completed `init`, `_config.yml` holds the dumped site record
      unless a theme file of the same name replaced it. */
  lemma InitWritesConfig(s: Store, name: string, template: string, githubRepo: Option<string>,
                         author: Option<string>, title: Option<string>, tools: Tools)
    requires forall i :: 0 <= i < |tools.templates(template)| ==> Components(tools.templates(template)[i].0) != ["_config.yml"]
    requires InitRun(s, name, template, githubRepo, author, title, tools).1 == Created
    ensures var site := Components(name);
      var r := InitRun(s, name, template, githubRepo, author, title, tools).0;
      site + ["_config.yml"] in r.files
      && r.files[site + ["_config.yml"]] == tools.dump(InitConfig(name, template, githubRepo, author, title))
  {
    var site := Components(name);
    var p := site + ["_config.yml"];
    InitChangesConfig(site, name, template, githubRepo, author, title, tools);
    assert |site + ["assets", "style.css"]| != |p|;
    InitAtWrites(s, site, InitChanges(site, name, template, githubRepo, author, title, tools), Stylesheet(tools),
      p, tools.dump(InitConfig(name, template, githubRepo, author, title)));
  }

  lemma PrefixCancel(site: Path, a: Path, b: Path)
    ensures site + a == site + b <==> a == b
  {
    if site + a == site + b {
      assert (site + a)[|site|..] == a && (site + b)[|site|..] == b;
    }
  }

  /** The last write among two changes. */
  lemma LastWritePair(a: Change, b: Change, p: Path)
    ensures LastWrite([a, b], p)
      == if b.WriteFile? && b.path == p then Some(b.text)
         else if a.WriteFile? && a.path == p then Some(a.text)
         else None
  {
    assert [a][..0] == [];
    assert LastWrite([a], p) == if a.WriteFile? && a.path == p then Some(a.text) else None;
    assert [a, b][..1] == [a];
  }

  /** A theme file's changes write only its own path. */
  lemma TemplateWriteAt(site: Path, t: (string, string), p: Path)
    ensures LastWrite(TemplateWrite(site, t), p) == if p == site + Components(t.0) then Some(t.1) else None
  {
    var q := TemplatePath(site, t.0);
    LastWritePair(MakeDirs(Parent(q)), WriteFile(q, t.1), p);
  }

  /** No theme file is written at `p` when no key names it. */
  lemma {:induction false} TemplatesMiss(site: Path, ts: seq<(string, string)>, p: Path)
    requires forall i :: 0 <= i < |ts| ==> site + Components(ts[i].0) != p
    ensures LastWrite(TemplateChanges(site, ts), p).None?
    decreases |ts|
  {
    if ts != [] {
      var front, last := ts[..|ts| - 1], ts[|ts| - 1];
      assert forall i :: 0 <= i < |front| ==> front[i] == ts[i];
      TemplatesMiss(site, front, p);
      assert site + Components(last.0) != p;
      TemplateWriteAt(site, last, p);
      LastWriteAppend(TemplateChanges(site, front), TemplateWrite(site, last), p);
    }
  }

  /** Each theme file that no later entry replaces is at `site/<key>`
      with its text after `_create_templates`. */
  lemma {:induction false} TemplateWritten(site: Path, ts: seq<(string, string)>, i: nat)
    requires i < |ts|
    requires forall j :: i < j < |ts| ==> Components(ts[j].0) != Components(ts[i].0)
    ensures LastWrite(TemplateChanges(site, ts), site + Components(ts[i].0)) == Some(ts[i].1)
    decreases |ts|
  {
    var p := site + Components(ts[i].0);
    var front, last := ts[..|ts| - 1], ts[|ts| - 1];
    TemplateWriteAt(site, last, p);
    LastWriteAppend(TemplateChanges(site, front), TemplateWrite(site, last), p);
    if i < |ts| - 1 {
      assert forall j :: 0 <= j < |front| ==> front[j] == ts[j];
      TemplateWritten(site, front, i);
      assert Components(last.0) != Components(ts[i].0);
      PrefixCancel(site, Components(last.0), Components(ts[i].0));
    }
  }

  // ----- collection create -----

  /** How `collection create` ends. */
  datatype CollectionOutcome =
    | NoConfig               // `_config.yml` is missing: nothing is done
    | ConfigFailed(e: CliError)
    | CollectionCreated

  /** The exceptions `collection create` lets escape after writing the
      collection page. */
  datatype CliError =
    | ConfigIsDirectory        // `open('_config.yml')` on a directory
    | ConfigUnreadable         // `yaml.safe_load` raises
    | NotSubscriptable         // the loaded value is not a mapping: TypeError
    | NoCollectionsKey         // `config['collections']` raises KeyError
    | CollectionsNotAMapping   // `config['collections'][name] = ...` raises TypeError

  /** `title or name.replace('-', ' ').title()` */
  function CollectionTitle(name: string, title: Option<string>): string {
    OrText(title, NameTitle(name))
  }

  /** `description or f'Plot collection for {name}'` */
  function CollectionDescription(name: string, description: Option<string>): string {
    OrText(description, "Plot collection for " + name)
  }

  /** `tags.split(',') if tags else []` */
  function CollectionTags(tags: Option<string>): (r: seq<string>)
    ensures Supplied(tags) ==> Join(r, ',') == tags.value
    ensures !Supplied(tags) ==> r == []
  {
    if Supplied(tags) then SplitJoin(tags.value, ','); Split(tags.value, ',') else []
  }

  /** The collection page's record (cli.py:111-117). */
  function CollectionMetadata(name: string, title: Option<string>, description: Option<string>,
                              tags: Option<string>, now: string): (m: Dict)
    ensures m.Keys == {"title", "description", "tags", "created", "layout"}
    ensures m["layout"] == VStr("gallery") && m["created"] == VStr(now)
  {
    map["title" := VStr(CollectionTitle(name, title)),
        "description" := VStr(CollectionDescription(name, description)),
        "tags" := VList(StrList(CollectionTags(tags))),
        "created" := VStr(now),
        "layout" := VStr("gallery")]
  }

  /** The text of `_index.md` (cli.py:119-124): the record between `---`
      lines, a heading with the title and the description. */
  function CollectionPage(m: Dict, tools: Tools): string
    requires "title" in m && "description" in m && m["title"].VStr? && m["description"].VStr?
  {
    "---\n" + tools.dump(m) + "---" + PageBody(m["title"].s, m["description"].s)
  }

  function PageBody(title: string, description: string): string {
    "\n\n# " + title + "\n\n" + description + "\n"
  }

  /** The entry registered under the collection's name (cli.py:131-135). */
  function CollectionEntry(m: Dict): Dict
    requires "title" in m && "description" in m
  {
    map["title" := m["title"], "description" := m["description"], "output" := VBool(true)]
  }

  /** `config['collections'][name] = entry` on the loaded configuration. */
  function Register(loaded: Option<Value>, name: string, entry: Dict): (r: Result<Dict, CliError>)
    ensures r.Ok? <==>
      loaded.Some? && loaded.value.VMap? && "collections" in loaded.value.m && loaded.value.m["collections"].VMap?
    ensures r.Ok? ==>
      var config, cs := loaded.value.m, loaded.value.m["collections"].m;
      && r.value.Keys == config.Keys
      && (forall k :: k in config && k != "collections" ==> r.value[k] == config[k])
      && r.value["collections"].VMap?
      && r.value["collections"].m.Keys == cs.Keys + {name}
      && r.value["collections"].m[name] == VMap(entry)
      && (forall c :: c in cs && c != name ==> r.value["collections"].m[c] == cs[c])
  {
    match loaded
    case None => Err(ConfigUnreadable)
    case Some(VMap(config)) =>
      if "collections" !in config then Err(NoCollectionsKey)
      else
        (match config["collections"]
         case VMap(cs) => Ok(config["collections" := VMap(cs[name := VMap(entry)])])
         case _ => Err(CollectionsNotAMapping))
    case Some(_) => Err(NotSubscriptable)
  }

  /** Registering a collection a second time with the same entry changes
      nothing. */
  lemma RegisterIdempotent(config: Dict, name: string, entry: Dict)
    requires Register(Some(VMap(config)), name, entry).Ok?
    ensures var once := Register(Some(VMap(config)), name, entry).value;
      Register(Some(VMap(once)), name, entry) == Ok(once)
  {
    var cs := config["collections"].m;
    var once := config["collections" := VMap(cs[name := VMap(entry)])];
    assert once["collections"].m[name := VMap(entry)] == cs[name := VMap(entry)];
    assert once["collections" := VMap(cs[name := VMap(entry)])] == once;
  }

  /** Registering two different collections in either order gives the
      same configuration. */
  lemma RegisterCommutes(config: Dict, a: string, ea: Dict, b: string, eb: Dict)
    requires a != b && Register(Some(VMap(config)), a, ea).Ok?
    ensures var ab := Register(Some(VMap(Register(Some(VMap(config)), a, ea).value)), b, eb);
      var ba := Register(Some(VMap(Register(Some(VMap(config)), b, eb).value)), a, ea);
      ab.Ok? && ba.Ok? && ab == ba
  {
    var cs := config["collections"].m;
    assert cs[a := VMap(ea)][b := VMap(eb)] == cs[b := VMap(eb)][a := VMap(ea)];
    var ca := config["collections" := VMap(cs[a := VMap(ea)])];
    var cb := config["collections" := VMap(cs[b := VMap(eb)])];
    assert ca["collections" := VMap(cs[a := VMap(ea)][b := VMap(eb)])]
      == cb["collections" := VMap(cs[b := VMap(eb)][a := VMap(ea)])];
  }

  /** A new site's configuration accepts a collection, which becomes its
      only one. */
  lemma InitThenRegister(name: string, template: string, githubRepo: Option<string>, author: Option<string>,
                         title: Option<string>, collection: string, entry: Dict)
    ensures var r := Register(Some(VMap(InitConfig(name, template, githubRepo, author, title))), collection, entry);
      r.Ok? && r.value["collections"] == VMap(map[collection := VMap(entry)])
  {
    var c := InitConfig(name, template, githubRepo, author, title);
    assert c["collections"].m == map[];
    assert map[][collection := VMap(entry)] == map[collection := VMap(entry)];
  }

  /** The page and its directory. */
  function PageChanges(dir: Path, m: Dict, tools: Tools): seq<Change>
    requires "title" in m && "description" in m && m["title"].VStr? && m["description"].VStr?
  {
    [MakeDirs(dir), WriteFile(dir + ["_index.md"], CollectionPage(m, tools))]
  }

  /** `collection create`: nothing without `_config.yml`; otherwise the
      collection directory and its page, then the registration, which
      fails without undoing the page. */
  function CreateCollectionRun(s: Store, name: string, title: Option<string>, description: Option<string>,
                               tags: Option<string>, tools: Tools): (Store, CollectionOutcome)
  {
    if !Exists(s, ConfigPath) then (s, NoConfig)
    else
      var dir := ["collections"] + Components(name);
      var m := CollectionMetadata(name, title, description, tags, tools.now);
      var s1 := ApplyAll(s, PageChanges(dir, m, tools));
      if ConfigPath !in s1.files then (s1, ConfigFailed(ConfigIsDirectory))
      else
        match Register(tools.load(s1.files[ConfigPath]), name, CollectionEntry(m))
        case Err(e) => (s1, ConfigFailed(e))
        case Ok(config) => (Effect(s1, WriteFile(ConfigPath, tools.dump(config))), CollectionCreated)
  }

  /** The collection page never lands on `_config.yml`. */
  lemma PageMissesConfig(dir: Path, m: Dict, tools: Tools)
    requires "title" in m && "description" in m && m["title"].VStr? && m["description"].VStr?
    requires dir != []
    ensures LastWrite(PageChanges(dir, m, tools), ConfigPath).None?
  {
    assert |dir + ["_index.md"]| != |ConfigPath|;
    LastWritePair(MakeDirs(dir), WriteFile(dir + ["_index.md"], CollectionPage(m, tools)), ConfigPath);
  }

  /** After a successful `collection create`, `_config.yml` holds the old
      configuration with the new collection registered, and the
      collection page is in place; after a failed registration the page is
      in place and `_config.yml` is untouched. */
  lemma CreateCollectionEffect(s: Store, name: string, title: Option<string>, description: Option<string>,
                               tags: Option<string>, tools: Tools)
    requires Exists(s, ConfigPath)
    ensures var (r, outcome) := CreateCollectionRun(s, name, title, description, tags, tools);
      var m := CollectionMetadata(name, title, description, tags, tools.now);
      var page := ["collections"] + Components(name) + ["_index.md"];
      && page in r.files && r.files[page] == CollectionPage(m, tools)
      && (outcome == CollectionCreated ==>
            && ConfigPath in s.files
            && Register(tools.load(s.files[ConfigPath]), name, CollectionEntry(m)).Ok?
            && r.files[ConfigPath] == tools.dump(Register(tools.load(s.files[ConfigPath]), name, CollectionEntry(m)).value))
      && (outcome.ConfigFailed? ==>
            && (ConfigPath in r.files <==> ConfigPath in s.files)
            && (ConfigPath in s.files ==> r.files[ConfigPath] == s.files[ConfigPath]))
  {
    var dir := ["collections"] + Components(name);
    var m := CollectionMetadata(name, title, description, tags, tools.now);
    var cs := PageChanges(dir, m, tools);
    var page := dir + ["_index.md"];
    LastWritePair(MakeDirs(dir), WriteFile(page, CollectionPage(m, tools)), page);
    ApplyAllContents(s, cs, page);
    PageMissesConfig(dir, m, tools);
    ApplyAllContents(s, cs, ConfigPath);
    assert page != ConfigPath by {
      assert |page| != |ConfigPath|;
    }
  }

  /** Without `--title` and `--description` the page carries the record
      the site builder falls back to for a collection without a page. */
  lemma CollectionDefaultsAgree(name: string, tags: Option<string>, now: string)
    ensures var m := CollectionMetadata(name, None, None, tags, now);
      var d := DefaultCollectionMetadata(name);
      m["title"] == d["title"] && m["description"] == d["description"]
  {
    var d := DefaultCollectionMetadata(name);
    assert d["title"] == VStr(Title(ReplaceChar(name, '-', ' ')));
  }

  /** The site builder reads the page back: the loaded record, with the
      rendered body as `content`, provided the YAML text contains no
      `---` and reads back as the record. */
  lemma CollectionPageReadBack(m: Dict, tools: Tools, env: Env)
    requires "title" in m && "description" in m && m["title"].VStr? && m["description"].VStr?
    requires DelimiterFree("\n" + tools.dump(m)) && env.yaml("\n" + tools.dump(m)) == Some(VMap(m))
    ensures ParseFrontMatter(CollectionPage(m, tools), env)
      == Ok(Some(m["content" := VStr(env.markdown(Strip(PageBody(m["title"].s, m["description"].s), Whitespace)))]))
  {
    var header := "\n" + tools.dump(m);
    var body := PageBody(m["title"].s, m["description"].s);
    assert CollectionPage(m, tools) == "---" + header + "---" + body;
    FrontMatterRoundTrip(header, body, env);
  }
}
