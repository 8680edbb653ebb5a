/** The build of snapshotplot/site_generator.py: `SiteGenerator.build`
    empties the output directory, copies the assets and the plot files,
    then renders the index page, one gallery per collection and one detail
    page per plot. Rendering is recorded as the template name and the
    context it is given; the output directory is a class whose directories
    and files the steps change. */
module SiteBuild {

  import opened Values
  import opened Text
  import opened SiteTree
  import opened SiteMetadata
  import opened SitePlots
  import FileManager

  /** A path below the output directory, component by component. */
  type OutPath = seq<string>

  /** The context a template is rendered with. */
  datatype Page =
    | IndexPage(site: Value, plots: seq<Plot>, collectionNames: seq<Value>, collections: map<Value, seq<Plot>>,
                pageTitle: Value, basePath: string)
    | GalleryPage(site: Value, collection: Dict, plots: seq<Plot>, pageTitle: Value, basePath: string)
    | PlotPage(site: Value, plot: Dict, pageTitle: Value, basePath: string)

  /** The content of an output file: a copy of a site file, or a rendered
      template. */
  datatype Artifact = Copy(text: string) | Render(template: string, page: Page)

  /** One change to the output tree. */
  datatype Write = MkDir(path: OutPath) | Put(path: OutPath, artifact: Artifact)

  /** The contents of the output directory. */
  datatype Tree = Tree(dirs: set<OutPath>, files: map<OutPath, Artifact>)

  /** One change that raises nothing: `mkdir(parents=True, exist_ok=True)`
      creates the directory and its ancestors; a write or copy replaces the
      file. */
  function Step(t: Tree, w: Write): (r: Tree)
    ensures w.MkDir? ==> r.files == t.files && r.dirs == t.dirs + FileManager.Ancestry(w.path)
    ensures w.Put? ==> r.dirs == t.dirs && r.files == t.files[w.path := w.artifact]
  {
    match w
    case MkDir(p) => Tree(t.dirs + FileManager.Ancestry(p), t.files)
    case Put(p, a) => Tree(t.dirs, t.files[p := a])
  }

  /** The tree after a sequence of changes, in order, none of which raises. */
  function Apply(t: Tree, ws: seq<Write>): Tree
    decreases |ws|
  {
    if ws == [] then t else Apply(Step(t, ws[0]), ws[1..])
  }

  lemma {:induction false} ApplyAppend(t: Tree, a: seq<Write>, b: seq<Write>)
    ensures Apply(t, a + b) == Apply(Apply(t, a), b)
    decreases |a|
  {
    if a != [] {
      assert (a + b)[1..] == a[1..] + b;
      ApplyAppend(Step(t, a[0]), a[1..], b);
    } else {
      assert a + b == b;
    }
  }

  lemma ApplyOne(t: Tree, w: Write)
    ensures Apply(t, [w]) == Step(t, w)
  {
    assert [w][1..] == [];
  }

  /** A file stands where `p` needs a directory: on one of its proper
      ancestors. */
  predicate FileAbove(t: Tree, p: OutPath) {
    exists i :: 1 <= i < |p| && p[..i] in t.files
  }

  /** The exception one change raises in `t`, if any: `mkdir` raises
      NotADirectoryError below a file and FileExistsError on one; `open(p,
      'w')` and `copy2` raise NotADirectoryError below a file,
      IsADirectoryError on a directory and FileNotFoundError when the
      parent directory is missing. */
  function Clash(t: Tree, w: Write): Option<Error> {
    if FileAbove(t, w.path) then Some(NotADirectory)
    else
      match w
      case MkDir(p) => if p in t.files then Some(FileExists) else None
      case Put(p, _) =>
        if p in t.dirs then Some(IsADirectory)
        else if |p| > 1 && p[..|p| - 1] !in t.dirs then Some(NotFound)
        else None
  }

  /** The changes performed in order until one raises: the tree then, and
      the exception. When none raises, the tree is the one `Apply`
      describes. */
  function Run(t: Tree, ws: seq<Write>): (r: (Tree, Option<Error>))
    ensures r.1.None? ==> r.0 == Apply(t, ws)
    ensures r.1.Some? ==> exists i :: 0 <= i < |ws| && r.1 == Clash(r.0, ws[i])
    decreases |ws|
  {
    if ws == [] then (t, None)
    else if Clash(t, ws[0]).Some? then (t, Clash(t, ws[0]))
    else Run(Step(t, ws[0]), ws[1..])
  }

  lemma {:induction false} RunAppend(t: Tree, a: seq<Write>, b: seq<Write>)
    ensures Run(t, a + b) == if Run(t, a).1.Some? then Run(t, a) else Run(Run(t, a).0, b)
    decreases |a|
  {
    if a == [] {
      assert a + b == b;
    } else {
      assert (a + b)[0] == a[0];
      assert (a + b)[1..] == a[1..] + b;
      if Clash(t, a[0]).None? {
        RunAppend(Step(t, a[0]), a[1..], b);
      }
    }
  }

  /** Once a change has raised, later changes are not performed. */
  lemma RunStops(t: Tree, a: seq<Write>, b: seq<Write>)
    requires a <= b && Run(t, a).1.Some?
    ensures Run(t, b) == Run(t, a)
  {
    assert b == a + b[|a|..];
    RunAppend(t, a, b[|a|..]);
  }

  lemma RunOne(t: Tree, w: Write)
    ensures Run(t, [w]) == if Clash(t, w).Some? then (t, Clash(t, w)) else (Step(t, w), None)
  {
    assert [w][1..] == [];
  }

  /** No path is both a directory and a file, and every proper ancestor of
      a directory or a file is a directory. */
  predicate Shaped(t: Tree) {
    && [] in t.dirs
    && (forall p :: p in t.files ==> p !in t.dirs)
    && (forall p, i :: p in t.dirs && 0 <= i < |p| ==> p[..i] in t.dirs)
    && (forall p, i :: p in t.files && 0 <= i < |p| ==> p[..i] in t.dirs)
  }

  lemma StepShaped(t: Tree, w: Write)
    requires Shaped(t) && Clash(t, w).None?
    ensures Shaped(Step(t, w))
  {
    var r := Step(t, w);
    var p := w.path;
    if w.MkDir? {
      forall q, i | q in r.dirs && 0 <= i < |q|
        ensures q[..i] in r.dirs
      {
        if q !in t.dirs {
          assert q in FileManager.Ancestry(p);
          assert q == p[..|q|];
          if i > 0 {
            assert q[..i] == p[..i];
            assert p[..i] in FileManager.Ancestry(p);
          }
        }
      }
    } else {
      forall i | 0 <= i < |p|
        ensures p[..i] in r.dirs
      {
        if |p| > 1 {
          var parent := p[..|p| - 1];
          assert parent in t.dirs;
          if i < |parent| {
            assert parent[..i] == p[..i];
          } else {
            assert parent == p[..i];
          }
        } else {
          assert p[..i] == [];
        }
      }
    }
  }

  lemma {:induction false} RunShaped(t: Tree, ws: seq<Write>)
    requires Shaped(t)
    ensures Shaped(Run(t, ws).0)
    decreases |ws|
  {
    if ws != [] && Clash(t, ws[0]).None? {
      StepShaped(t, ws[0]);
      RunShaped(Step(t, ws[0]), ws[1..]);
    }
  }

  /** The output directory: whether its path names a file, and the
      directories and files below it. */
  class OutputDir {
    var isFile: bool
    var dirs: set<OutPath>
    var files: map<OutPath, Artifact>

    constructor (isFile: bool, dirs: set<OutPath>, files: map<OutPath, Artifact>)
      ensures this.isFile == isFile && this.dirs == dirs && this.files == files
    {
      this.isFile := isFile;
      this.dirs := dirs;
      this.files := files;
    }

    function State(): Tree
      reads this
    {
      Tree(dirs, files)
    }

    /** `path.mkdir(parents=True, exist_ok=True)`: unless a file is in the
        way, the directory and its ancestors exist afterwards. */
    method MakeDir(p: OutPath) returns (err: Option<Error>)
      modifies this
      ensures err == Clash(old(State()), MkDir(p)) && isFile == old(isFile)
      ensures err.None? ==> files == old(files) && dirs == old(dirs) + FileManager.Ancestry(p)
      ensures err.Some? ==> State() == old(State())
    {
      err := Clash(State(), MkDir(p));
      if err.None? {
        dirs := dirs + FileManager.Ancestry(p);
      }
    }

    /** Writing or copying one file: unless a directory or a file is in the
        way, or the parent is missing, the file holds the artefact. */
    method WriteFile(p: OutPath, a: Artifact) returns (err: Option<Error>)
      modifies this
      ensures err == Clash(old(State()), Put(p, a)) && isFile == old(isFile)
      ensures err.None? ==> dirs == old(dirs) && files == old(files)[p := a]
      ensures err.Some? ==> State() == old(State())
    {
      err := Clash(State(), Put(p, a));
      if err.None? {
        files := files[p := a];
      }
    }

    /** Perform one change. */
    method Perform(w: Write) returns (err: Option<Error>)
      modifies this
      ensures (State(), err) == Run(old(State()), [w]) && isFile == old(isFile)
    {
      RunOne(State(), w);
      match w
      case MkDir(p) => err := MakeDir(p);
      case Put(p, a) => err := WriteFile(p, a);
    }
  }

  /** The changes of a step and the exception that ended it, if any. */
  datatype Outcome = Outcome(writes: seq<Write>, err: Option<Error>)

  /** Run `b` after `a` unless `a` failed. */
  function Then(a: Outcome, b: Outcome): (r: Outcome)
    ensures a.err.Some? ==> r == a
    ensures a.err.None? ==> r.writes == a.writes + b.writes && r.err == b.err
  {
    if a.err.Some? then a else Outcome(a.writes + b.writes, b.err)
  }

  /** A step performed: its changes in order until one raises, then its
      own exception. */
  function Exec(t: Tree, o: Outcome): (r: (Tree, Option<Error>))
    ensures r.1.None? <==> Run(t, o.writes).1.None? && o.err.None?
    ensures r.1.None? ==> r.0 == Apply(t, o.writes)
  {
    var run := Run(t, o.writes);
    if run.1.Some? then run else (run.0, o.err)
  }

  /** The second step runs from where the first ended, unless it raised. */
  lemma ExecThen(t: Tree, a: Outcome, b: Outcome)
    ensures Exec(t, Then(a, b)) == if Exec(t, a).1.Some? then Exec(t, a) else Exec(Exec(t, a).0, b)
  {
    if a.err.None? {
      RunAppend(t, a.writes, b.writes);
    }
  }

  // ----- the generator (site_generator.py:18-42) -----

  /** `SiteGenerator(site_dir)`: the site listing, its configuration and
      the libraries. */
  datatype Generator = Generator(site: seq<Node>, config: Value, env: Env)

  /** The constructor fails exactly when `_config.yml` cannot be loaded. */
  function NewGenerator(site: seq<Node>, env: Env): (r: Result<Generator, Error>)
    ensures r.Ok? <==> LoadConfig(site, env).Ok?
    ensures r.Ok? ==> r.value == Generator(site, LoadConfig(site, env).value, env)
  {
    match LoadConfig(site, env)
    case Err(e) => Err(e)
    case Ok(config) => Ok(Generator(site, config, env))
  }

  /** `env.get_template(name)` succeeds: `_layouts/name` or
      `_includes/name` is a file. */
  predicate HasTemplate(site: seq<Node>, name: string) {
    || (match Lookup(site, "_layouts")
        case Some(Dir(_, ls)) => (match Lookup(ls, name) case Some(File(_, _)) => true case _ => false)
        case _ => false)
    || (match Lookup(site, "_includes")
        case Some(Dir(_, ls)) => (match Lookup(ls, name) case Some(File(_, _)) => true case _ => false)
        case _ => false)
  }

  /** The listing of `collections/`, empty when it is missing. */
  function CollectionsListing(site: seq<Node>): seq<Node> {
    match Lookup(site, "collections")
    case Some(Dir(_, cs)) => cs
    case _ => []
  }

  // ----- copying (site_generator.py:169-195) -----

  /** `shutil.copytree`: every directory and file below `nodes`, recreated
      below `prefix`. */
  function TreeWrites(prefix: OutPath, nodes: seq<Node>): seq<Write>
    decreases nodes
  {
    if nodes == [] then [] else NodeWrites(prefix, nodes[0]) + TreeWrites(prefix, nodes[1..])
  }

  function NodeWrites(prefix: OutPath, n: Node): seq<Write>
    decreases n
  {
    match n
    case File(name, text) => [Put(prefix + [name], Copy(text))]
    case Dir(name, children) => [MkDir(prefix + [name])] + TreeWrites(prefix + [name], children)
  }

  /** `shutil.copy2(file, plot_output / file.name)` for a file that does
      not end in `.md`. */
  function FileCopy(c: string, p: string, f: Node): seq<Write> {
    if f.File? && !EndsWith(f.name, ".md") then [Put([c, p, f.name], Copy(f.text))] else []
  }

  function FileCopies(c: string, p: string, fs: seq<Node>): seq<Write>
    decreases |fs|
  {
    if fs == [] then [] else FileCopies(c, p, fs[..|fs| - 1]) + FileCopy(c, p, fs[|fs| - 1])
  }

  /** An entry directory is recreated and its files copied. */
  function PlotCopy(c: string, n: Node): seq<Write> {
    if IsPlotDir(n) then [MkDir([c, n.name])] + FileCopies(c, n.name, n.children) else []
  }

  function PlotCopies(c: string, ns: seq<Node>): seq<Write>
    decreases |ns|
  {
    if ns == [] then [] else PlotCopies(c, ns[..|ns| - 1]) + PlotCopy(c, ns[|ns| - 1])
  }

  /** A collection directory is recreated, then its entries. */
  function CollectionCopy(n: Node): seq<Write> {
    if n.Dir? then [MkDir([n.name])] + PlotCopies(n.name, n.children) else []
  }

  function CollectionCopies(cs: seq<Node>): seq<Write>
    decreases |cs|
  {
    if cs == [] then [] else CollectionCopies(cs[..|cs| - 1]) + CollectionCopy(cs[|cs| - 1])
  }

  /** `shutil.copytree(assets_dir, output_path / 'assets')`, when `assets`
      exists; a file there makes it raise. */
  function AssetsWrites(site: seq<Node>): (r: Result<seq<Write>, Error>)
    ensures Lookup(site, "assets").None? ==> r == Ok([])
    ensures r.Err? <==> Lookup(site, "assets").Some? && Lookup(site, "assets").value.File?
  {
    match Lookup(site, "assets")
    case None => Ok([])
    case Some(File(_, _)) => Err(NotADirectory)
    case Some(Dir(_, ch)) => Ok([MkDir(["assets"])] + TreeWrites(["assets"], ch))
  }

  /** The copy of the plot files, when `collections` exists. */
  function PlotFilesOutcome(site: seq<Node>): (r: Outcome)
    ensures Lookup(site, "collections").None? ==> r == Outcome([], None)
  {
    match Lookup(site, "collections")
    case None => Outcome([], None)
    case Some(File(_, _)) => Outcome([], Some(NotADirectory))
    case Some(Dir(_, cs)) => Outcome(CollectionCopies(cs), None)
  }

  /** `_copy_assets`: the `assets` tree, then the plot files. */
  function CopyOutcome(site: seq<Node>): (r: Outcome)
    ensures Lookup(site, "assets").None? && Lookup(site, "collections").None? ==> r == Outcome([], None)
  {
    match AssetsWrites(site)
    case Err(e) => Outcome([], Some(e))
    case Ok(ws) => Then(Outcome(ws, None), PlotFilesOutcome(site))
  }

  lemma FileCopiesSnoc(c: string, p: string, fs: seq<Node>, k: nat)
    requires k < |fs|
    ensures FileCopies(c, p, fs[..k + 1]) == FileCopies(c, p, fs[..k]) + FileCopy(c, p, fs[k])
  {
    assert fs[..k + 1][..k] == fs[..k];
  }

  lemma PlotCopiesSnoc(c: string, ns: seq<Node>, j: nat)
    requires j < |ns|
    ensures PlotCopies(c, ns[..j + 1]) == PlotCopies(c, ns[..j]) + PlotCopy(c, ns[j])
  {
    assert ns[..j + 1][..j] == ns[..j];
  }

  lemma CollectionCopiesSnoc(cs: seq<Node>, i: nat)
    requires i < |cs|
    ensures CollectionCopies(cs[..i + 1]) == CollectionCopies(cs[..i]) + CollectionCopy(cs[i])
  {
    assert cs[..i + 1][..i] == cs[..i];
  }

  lemma {:induction false} FileCopiesPrefix(c: string, p: string, fs: seq<Node>, k: nat)
    requires k <= |fs|
    ensures FileCopies(c, p, fs[..k]) <= FileCopies(c, p, fs)
    decreases |fs|
  {
    if k == |fs| {
      assert fs[..k] == fs;
    } else {
      var front := fs[..|fs| - 1];
      assert front[..k] == fs[..k];
      FileCopiesPrefix(c, p, front, k);
    }
  }

  lemma {:induction false} PlotCopiesPrefix(c: string, ns: seq<Node>, j: nat)
    requires j <= |ns|
    ensures PlotCopies(c, ns[..j]) <= PlotCopies(c, ns)
    decreases |ns|
  {
    if j == |ns| {
      assert ns[..j] == ns;
    } else {
      var front := ns[..|ns| - 1];
      assert front[..j] == ns[..j];
      PlotCopiesPrefix(c, front, j);
    }
  }

  lemma {:induction false} CollectionCopiesPrefix(cs: seq<Node>, i: nat)
    requires i <= |cs|
    ensures CollectionCopies(cs[..i]) <= CollectionCopies(cs)
    decreases |cs|
  {
    if i == |cs| {
      assert cs[..i] == cs;
    } else {
      var front := cs[..|cs| - 1];
      assert front[..i] == cs[..i];
      CollectionCopiesPrefix(front, i);
    }
  }

  /** The copy loop over the files of one entry directory. */
  method CopyEntryFiles(c: string, n: Node, out: OutputDir) returns (err: Option<Error>)
    requires n.Dir?
    modifies out
    ensures (out.State(), err) == Run(old(out.State()), FileCopies(c, n.name, n.children)) && out.isFile == old(out.isFile)
  {
    ghost var start := out.State();
    for k := 0 to |n.children|
      invariant Run(start, FileCopies(c, n.name, n.children[..k])) == (out.State(), None) && out.isFile == old(out.isFile)
    {
      FileCopiesSnoc(c, n.name, n.children, k);
      RunAppend(start, FileCopies(c, n.name, n.children[..k]), FileCopy(c, n.name, n.children[k]));
      var f := n.children[k];
      if f.File? && !EndsWith(f.name, ".md") {
        err := out.Perform(Put([c, n.name, f.name], Copy(f.text)));
        if err.Some? {
          FileCopiesPrefix(c, n.name, n.children, k + 1);
          RunStops(start, FileCopies(c, n.name, n.children[..k + 1]), FileCopies(c, n.name, n.children));
          return;
        }
      }
    }
    assert n.children[..|n.children|] == n.children;
    return None;
  }

  /** One entry directory: recreated, then its files copied. */
  method CopyPlot(c: string, p: Node, out: OutputDir) returns (err: Option<Error>)
    modifies out
    ensures (out.State(), err) == Run(old(out.State()), PlotCopy(c, p)) && out.isFile == old(out.isFile)
  {
    if !IsPlotDir(p) {
      return None;
    }
    ghost var start := out.State();
    RunAppend(start, [MkDir([c, p.name])], FileCopies(c, p.name, p.children));
    err := out.Perform(MkDir([c, p.name]));
    if err.None? {
      err := CopyEntryFiles(c, p, out);
    }
  }

  /** The copy loop over the entries of one collection directory. */
  method CopyCollection(n: Node, out: OutputDir) returns (err: Option<Error>)
    requires n.Dir?
    modifies out
    ensures (out.State(), err) == Run(old(out.State()), PlotCopies(n.name, n.children)) && out.isFile == old(out.isFile)
  {
    ghost var start := out.State();
    for j := 0 to |n.children|
      invariant Run(start, PlotCopies(n.name, n.children[..j])) == (out.State(), None) && out.isFile == old(out.isFile)
    {
      PlotCopiesSnoc(n.name, n.children, j);
      RunAppend(start, PlotCopies(n.name, n.children[..j]), PlotCopy(n.name, n.children[j]));
      err := CopyPlot(n.name, n.children[j], out);
      if err.Some? {
        PlotCopiesPrefix(n.name, n.children, j + 1);
        RunStops(start, PlotCopies(n.name, n.children[..j + 1]), PlotCopies(n.name, n.children));
        return;
      }
    }
    assert n.children[..|n.children|] == n.children;
    return None;
  }

  /** One collection directory: recreated, then its entries copied. */
  method CopyOneCollection(c: Node, out: OutputDir) returns (err: Option<Error>)
    modifies out
    ensures (out.State(), err) == Run(old(out.State()), CollectionCopy(c)) && out.isFile == old(out.isFile)
  {
    if !c.Dir? {
      return None;
    }
    ghost var start := out.State();
    RunAppend(start, [MkDir([c.name])], PlotCopies(c.name, c.children));
    err := out.Perform(MkDir([c.name]));
    if err.None? {
      err := CopyCollection(c, out);
    }
  }

  /** The loop over `collections/`. */
  method CopyPlotFiles(g: Generator, out: OutputDir) returns (err: Option<Error>)
    modifies out
    ensures (out.State(), err) == Exec(old(out.State()), PlotFilesOutcome(g.site)) && out.isFile == old(out.isFile)
  {
    var collections := Lookup(g.site, "collections");
    if collections.None? {
      return None;
    }
    if collections.value.File? {
      return Some(NotADirectory);
    }
    var cs := collections.value.children;
    ghost var start := out.State();
    for i := 0 to |cs|
      invariant Run(start, CollectionCopies(cs[..i])) == (out.State(), None) && out.isFile == old(out.isFile)
    {
      CollectionCopiesSnoc(cs, i);
      RunAppend(start, CollectionCopies(cs[..i]), CollectionCopy(cs[i]));
      err := CopyOneCollection(cs[i], out);
      if err.Some? {
        CollectionCopiesPrefix(cs, i + 1);
        RunStops(start, CollectionCopies(cs[..i + 1]), CollectionCopies(cs));
        return;
      }
    }
    assert cs[..|cs|] == cs;
    return None;
  }

  /** `_copy_assets(output_path)` */
  method CopyAssets(g: Generator, out: OutputDir) returns (err: Option<Error>)
    modifies out
    ensures (out.State(), err) == Exec(old(out.State()), CopyOutcome(g.site)) && out.isFile == old(out.isFile)
  {
    ghost var start := out.State();
    var assets := AssetsWrites(g.site);
    if assets.Err? {
      return Some(assets.error);
    }
    // `shutil.copytree` is one library call: its effect is applied whole
    var copied := Run(out.State(), assets.value);
    out.dirs, out.files := copied.0.dirs, copied.0.files;
    ExecThen(start, Outcome(assets.value, None), PlotFilesOutcome(g.site));
    if copied.1.Some? {
      return copied.1;
    }
    err := CopyPlotFiles(g, out);
  }

  // ----- the pages (site_generator.py:197-306) -----

  /** `_build_index`: the template, then `index.html` with the twelve newest
      plots and the groups, base path `""`. */
  function IndexOutcome(g: Generator, plots: seq<Plot>): (r: Outcome)
    ensures r.err.None? ==> |r.writes| == 1 && r.writes[0].Put? && r.writes[0].path == ["index.html"]
  {
    if !HasTemplate(g.site, "default.html") then Outcome([], Some(TemplateNotFound))
    else if !HasCollection(plots) then Outcome([], Some(MissingKey))
    else Outcome([Put(["index.html"], Render("default.html",
      IndexPage(g.config, IndexPlots(plots), GroupNames(plots), GroupMap(plots), VStr("Home"), "")))], None)
  }

  method BuildIndex(g: Generator, plots: seq<Plot>, out: OutputDir) returns (err: Option<Error>)
    modifies out
    ensures (out.State(), err) == Exec(old(out.State()), IndexOutcome(g, plots)) && out.isFile == old(out.isFile)
  {
    if !HasTemplate(g.site, "default.html") {
      return Some(TemplateNotFound);
    }
    if exists i :: 0 <= i < |plots| && "collection" !in plots[i] {
      return Some(MissingKey);
    }
    var names, groups := GroupByCollection(plots);
    var page := Render("default.html", IndexPage(g.config, IndexPlots(plots), names, groups, VStr("Home"), ""));
    err := out.Perform(Put(["index.html"], page));
  }

  /** An attempt of one page: its writes, or the exception it raises. */
  function Attempt(r: Result<seq<Write>, Error>): (o: Outcome)
    ensures r.Ok? ==> o == Outcome(r.value, None)
    ensures r.Err? ==> o == Outcome([], Some(r.error))
  {
    if r.Ok? then Outcome(r.value, None) else Outcome([], Some(r.error))
  }

  /** The gallery of one collection: its record, then `<c>/index.html` with
      base path `..`. */
  function GalleryFor(g: Generator, plots: seq<Plot>, c: Value): (r: Result<seq<Write>, Error>)
    ensures r.Ok? ==> (c.VStr? && |r.value| == 2 && r.value[0] == MkDir([c.s]) && r.value[1].Put?
      && r.value[1].path == [c.s, "index.html"]
      && r.value[1].artifact.Render? && r.value[1].artifact.template == "gallery.html"
      && r.value[1].artifact.page.GalleryPage? && r.value[1].artifact.page.plots == Members(plots, c)
      && r.value[1].artifact.page.basePath == "..")
  {
    if !c.VStr? then Err(NotAPath)
    else
      match LoadCollectionMetadata(CollectionsListing(g.site), c.s, g.env)
      case Err(e) => Err(e)
      case Ok(meta) =>
        Ok([MkDir([c.s]), Put([c.s, "index.html"],
          Render("gallery.html", GalleryPage(g.config, meta, Members(plots, c), Get(meta, "title", c), "..")))])
  }

  /** The galleries of the given collections, in order; the first failure
      ends the loop. */
  function GalleryLoop(g: Generator, plots: seq<Plot>, names: seq<Value>): (r: Outcome)
    decreases |names|
  {
    if names == [] then Outcome([], None)
    else Then(GalleryLoop(g, plots, names[..|names| - 1]), Attempt(GalleryFor(g, plots, names[|names| - 1])))
  }

  /** `_build_collections` */
  function GalleriesOutcome(g: Generator, plots: seq<Plot>): Outcome {
    if !HasTemplate(g.site, "gallery.html") then Outcome([], Some(TemplateNotFound))
    else if !HasCollection(plots) then Outcome([], Some(MissingKey))
    else GalleryLoop(g, plots, GroupNames(plots))
  }

  lemma GalleryLoopSnoc(g: Generator, plots: seq<Plot>, names: seq<Value>, i: nat)
    requires i < |names|
    ensures GalleryLoop(g, plots, names[..i + 1])
      == Then(GalleryLoop(g, plots, names[..i]), Attempt(GalleryFor(g, plots, names[i])))
  {
    assert names[..i + 1][..i] == names[..i];
  }

  /** Once a gallery has raised, the loop stops. */
  lemma {:induction false} GalleryLoopStops(t: Tree, g: Generator, plots: seq<Plot>, names: seq<Value>, k: nat)
    requires k <= |names| && Exec(t, GalleryLoop(g, plots, names[..k])).1.Some?
    ensures Exec(t, GalleryLoop(g, plots, names)) == Exec(t, GalleryLoop(g, plots, names[..k]))
    decreases |names|
  {
    if k < |names| {
      var front := names[..|names| - 1];
      assert front[..k] == names[..k];
      GalleryLoopStops(t, g, plots, front, k);
      ExecThen(t, GalleryLoop(g, plots, front), Attempt(GalleryFor(g, plots, names[|names| - 1])));
    } else {
      assert names[..k] == names;
    }
  }

  /** Perform every change of `ws`, in order, until one raises. */
  method PerformAll(out: OutputDir, ws: seq<Write>) returns (err: Option<Error>)
    modifies out
    ensures (out.State(), err) == Run(old(out.State()), ws) && out.isFile == old(out.isFile)
  {
    ghost var start := out.State();
    for k := 0 to |ws|
      invariant Run(start, ws[..k]) == (out.State(), None) && out.isFile == old(out.isFile)
    {
      RunAppend(start, ws[..k], [ws[k]]);
      assert ws[..k] + [ws[k]] == ws[..k + 1];
      err := out.Perform(ws[k]);
      if err.Some? {
        RunStops(start, ws[..k + 1], ws);
        return;
      }
    }
    assert ws[..|ws|] == ws;
    return None;
  }

  /** One pass of the gallery loop: load the collection's record, render
      its page and write `<c>/index.html`. */
  method BuildGallery(g: Generator, plots: seq<Plot>, c: Value, members: seq<Plot>, out: OutputDir)
    returns (err: Option<Error>)
    requires members == Members(plots, c)
    modifies out
    ensures (out.State(), err) == Exec(old(out.State()), Attempt(GalleryFor(g, plots, c))) && out.isFile == old(out.isFile)
  {
    if !c.VStr? {
      return Some(NotAPath);
    }
    var meta := LoadCollectionMetadata(CollectionsListing(g.site), c.s, g.env);
    if meta.Err? {
      return Some(meta.error);
    }
    var page := Render("gallery.html", GalleryPage(g.config, meta.value, members, Get(meta.value, "title", c), ".."));
    err := PerformAll(out, [MkDir([c.s]), Put([c.s, "index.html"], page)]);
  }

  method BuildCollections(g: Generator, plots: seq<Plot>, out: OutputDir) returns (err: Option<Error>)
    modifies out
    ensures (out.State(), err) == Exec(old(out.State()), GalleriesOutcome(g, plots)) && out.isFile == old(out.isFile)
  {
    if !HasTemplate(g.site, "gallery.html") {
      return Some(TemplateNotFound);
    }
    if exists i :: 0 <= i < |plots| && "collection" !in plots[i] {
      return Some(MissingKey);
    }
    var names, groups := GroupByCollection(plots);
    ghost var start := out.State();
    assert names[..0] == [];
    for i := 0 to |names|
      invariant Exec(start, GalleryLoop(g, plots, names[..i])) == (out.State(), None) && out.isFile == old(out.isFile)
    {
      GalleryLoopSnoc(g, plots, names, i);
      ExecThen(start, GalleryLoop(g, plots, names[..i]), Attempt(GalleryFor(g, plots, names[i])));
      err := BuildGallery(g, plots, names[i], groups[names[i]], out);
      if err.Some? {
        GalleryLoopStops(start, g, plots, names, i + 1);
        return;
      }
    }
    assert names[..|names|] == names;
    return None;
  }

  /** The entries of `collections/<c>/<s>/`, when it is a directory. */
  function PlotDirEntries(site: seq<Node>, c: string, s: string): Option<seq<Node>> {
    match Lookup(CollectionsListing(site), c)
    case Some(Dir(_, ps)) =>
      (match Lookup(ps, s)
       case Some(Dir(_, entries)) => Some(entries)
       case _ => None)
    case _ => None
  }

  /** The detail page of one plot: its full record, then
      `<c>/<slug>/index.html` with base path `../..`. */
  function PlotPageFor(g: Generator, plot: Plot): (r: Result<seq<Write>, Error>)
    ensures r.Ok? ==> ("collection" in plot && "slug" in plot && plot["collection"].VStr? && plot["slug"].VStr?
      && |r.value| == 2 && r.value[0] == MkDir([plot["collection"].s, plot["slug"].s]) && r.value[1].Put?
      && r.value[1].path == [plot["collection"].s, plot["slug"].s, "index.html"]
      && r.value[1].artifact.Render? && r.value[1].artifact.template == "plot.html"
      && r.value[1].artifact.page.PlotPage? && r.value[1].artifact.page.basePath == "../..")
  {
    if "collection" !in plot || "slug" !in plot then Err(MissingKey)
    else if !plot["collection"].VStr? || !plot["slug"].VStr? then Err(NotAPath)
    else
      var c, s := plot["collection"].s, plot["slug"].s;
      match PlotDirEntries(g.site, c, s)
      case None => Err(NotFound)
      case Some(entries) =>
        match FullPlotData(entries, plot)
        case Err(e) => Err(e)
        case Ok(data) =>
          Ok([MkDir([c, s]), Put([c, s, "index.html"],
            Render("plot.html", PlotPage(g.config, data, Get(data, "title", VStr(s)), "../..")))])
  }

  function PlotPageLoop(g: Generator, plots: seq<Plot>): Outcome
    decreases |plots|
  {
    if plots == [] then Outcome([], None)
    else Then(PlotPageLoop(g, plots[..|plots| - 1]), Attempt(PlotPageFor(g, plots[|plots| - 1])))
  }

  /** `_build_plot_pages` */
  function PlotPagesOutcome(g: Generator, plots: seq<Plot>): Outcome {
    if !HasTemplate(g.site, "plot.html") then Outcome([], Some(TemplateNotFound))
    else PlotPageLoop(g, plots)
  }

  lemma PlotPageLoopSnoc(g: Generator, plots: seq<Plot>, i: nat)
    requires i < |plots|
    ensures PlotPageLoop(g, plots[..i + 1]) == Then(PlotPageLoop(g, plots[..i]), Attempt(PlotPageFor(g, plots[i])))
  {
    assert plots[..i + 1][..i] == plots[..i];
  }

  /** Once a detail page has raised, the loop stops. */
  lemma {:induction false} PlotPageLoopStops(t: Tree, g: Generator, plots: seq<Plot>, k: nat)
    requires k <= |plots| && Exec(t, PlotPageLoop(g, plots[..k])).1.Some?
    ensures Exec(t, PlotPageLoop(g, plots)) == Exec(t, PlotPageLoop(g, plots[..k]))
    decreases |plots|
  {
    if k < |plots| {
      var front := plots[..|plots| - 1];
      assert front[..k] == plots[..k];
      PlotPageLoopStops(t, g, front, k);
      ExecThen(t, PlotPageLoop(g, front), Attempt(PlotPageFor(g, plots[|plots| - 1])));
    } else {
      assert plots[..k] == plots;
    }
  }

  /** One pass of the plot-page loop: load the full record and write
      `<c>/<slug>/index.html`. */
  method BuildPlotPage(g: Generator, plot: Plot, out: OutputDir) returns (err: Option<Error>)
    modifies out
    ensures (out.State(), err) == Exec(old(out.State()), Attempt(PlotPageFor(g, plot))) && out.isFile == old(out.isFile)
  {
    if "collection" !in plot || "slug" !in plot {
      return Some(MissingKey);
    }
    if !plot["collection"].VStr? || !plot["slug"].VStr? {
      return Some(NotAPath);
    }
    var c, s := plot["collection"].s, plot["slug"].s;
    var entries := PlotDirEntries(g.site, c, s);
    if entries.None? {
      return Some(NotFound);
    }
    var data := LoadFullPlotData(entries.value, plot);
    if data.Err? {
      return Some(data.error);
    }
    var page := Render("plot.html", PlotPage(g.config, data.value, Get(data.value, "title", VStr(s)), "../.."));
    err := PerformAll(out, [MkDir([c, s]), Put([c, s, "index.html"], page)]);
  }

  method BuildPlotPages(g: Generator, plots: seq<Plot>, out: OutputDir) returns (err: Option<Error>)
    modifies out
    ensures (out.State(), err) == Exec(old(out.State()), PlotPagesOutcome(g, plots)) && out.isFile == old(out.isFile)
  {
    if !HasTemplate(g.site, "plot.html") {
      return Some(TemplateNotFound);
    }
    ghost var start := out.State();
    assert plots[..0] == [];
    for i := 0 to |plots|
      invariant Exec(start, PlotPageLoop(g, plots[..i])) == (out.State(), None) && out.isFile == old(out.isFile)
    {
      PlotPageLoopSnoc(g, plots, i);
      ExecThen(start, PlotPageLoop(g, plots[..i]), Attempt(PlotPageFor(g, plots[i])));
      err := BuildPlotPage(g, plots[i], out);
      if err.Some? {
        PlotPageLoopStops(start, g, plots, i + 1);
        return;
      }
    }
    assert plots[..|plots|] == plots;
    return None;
  }

  // ----- the whole build (site_generator.py:142-167) -----

  lemma ThenAssoc(a: Outcome, b: Outcome, c: Outcome)
    ensures Then(a, Then(b, c)) == Then(Then(a, b), c)
  {
    if a.err.None? && b.err.None? {
      assert (a.writes + b.writes) + c.writes == a.writes + (b.writes + c.writes);
    }
  }

  /** Everything `build` writes after emptying the output directory, and
      the exception that ends it, if any. */
  function BuildWrites(g: Generator): Outcome {
    var copy := CopyOutcome(g.site);
    if copy.err.Some? then copy
    else
      match AllPlots(g.site, g.env)
      case Err(e) => Outcome(copy.writes, Some(e))
      case Ok(plots) =>
        Then(copy, PagesOutcome(g, plots))
  }

  /** The pages, written left to right. */
  lemma BuildWritesPages(g: Generator, plots: seq<Plot>)
    requires CopyOutcome(g.site).err.None? && AllPlots(g.site, g.env) == Ok(plots)
    ensures BuildWrites(g) == Then(Then(Then(CopyOutcome(g.site), IndexOutcome(g, plots)),
      GalleriesOutcome(g, plots)), PlotPagesOutcome(g, plots))
  {
    var copy, index, gal, pages := CopyOutcome(g.site), IndexOutcome(g, plots), GalleriesOutcome(g, plots),
      PlotPagesOutcome(g, plots);
    ThenAssoc(copy, index, Then(gal, pages));
    ThenAssoc(Then(copy, index), gal, pages);
  }

  /** A copy that raises ends the build. */
  lemma CopyStops(g: Generator, t: Tree)
    requires Exec(t, CopyOutcome(g.site)).1.Some?
    ensures Exec(t, BuildWrites(g)) == Exec(t, CopyOutcome(g.site))
  {
    var copy := CopyOutcome(g.site);
    if copy.err.None? {
      match AllPlots(g.site, g.env)
      case Err(e) =>
      case Ok(plots) => ExecThen(t, copy, PagesOutcome(g, plots));
    }
  }

  /** The tree `build` leaves and its exception: an output path naming a
      file makes `rmtree` raise before anything changes; otherwise the
      directory is emptied and the steps run until one raises. */
  function BuildResult(g: Generator, before: Tree, isFile: bool): (r: (Tree, Option<Error>))
    ensures isFile ==> r == (before, Some(NotADirectory))
    ensures !isFile && r.1.None? ==> BuildWrites(g).err.None? && r.0 == Apply(Tree({[]}, map[]), BuildWrites(g).writes)
  {
    if isFile then (before, Some(NotADirectory)) else Exec(Tree({[]}, map[]), BuildWrites(g))
  }

  /** Whatever the site holds and wherever the build stops, no path of the
      output is both a directory and a file, and every file and directory
      sits in a directory. */
  lemma BuildShaped(g: Generator, before: Tree)
    ensures Shaped(BuildResult(g, before, false).0)
  {
    RunShaped(Tree({[]}, map[]), BuildWrites(g).writes);
  }

  /** The index page, the galleries, then the detail pages. */
  function PagesOutcome(g: Generator, plots: seq<Plot>): Outcome {
    Then(IndexOutcome(g, plots), Then(GalleriesOutcome(g, plots), PlotPagesOutcome(g, plots)))
  }

  method BuildPages(g: Generator, plots: seq<Plot>, out: OutputDir) returns (err: Option<Error>)
    modifies out
    ensures (out.State(), err) == Exec(old(out.State()), PagesOutcome(g, plots)) && out.isFile == old(out.isFile)
  {
    ExecThen(out.State(), IndexOutcome(g, plots), Then(GalleriesOutcome(g, plots), PlotPagesOutcome(g, plots)));
    err := BuildIndex(g, plots, out);
    if err.Some? {
      return;
    }
    ExecThen(out.State(), GalleriesOutcome(g, plots), PlotPagesOutcome(g, plots));
    err := BuildCollections(g, plots, out);
    if err.Some? {
      return;
    }
    err := BuildPlotPages(g, plots, out);
  }

  /** `build(output_dir)` */
  method Build(g: Generator, out: OutputDir) returns (err: Option<Error>)
    modifies out
    ensures (out.State(), err) == BuildResult(g, old(out.State()), old(out.isFile))
  {
    if out.isFile {
      return Some(NotADirectory);
    }
    out.dirs, out.files := {[]}, map[];
    ghost var start, copy := out.State(), CopyOutcome(g.site);
    err := CopyAssets(g, out);
    if err.Some? {
      CopyStops(g, start);
      return;
    }
    assert Run(start, copy.writes) == (out.State(), None) && copy.err.None?;
    var plots := GetAllPlots(g.site, g.env);
    if plots.Err? {
      assert BuildWrites(g) == Outcome(copy.writes, Some(plots.error));
      return Some(plots.error);
    }
    assert BuildWrites(g) == Then(copy, PagesOutcome(g, plots.value));
    ExecThen(start, copy, PagesOutcome(g, plots.value));
    err := BuildPages(g, plots.value, out);
  }
}
