/** One capture (snapshotplot/snapshot.py): `SnapshotContext` prepares
    the token and the output paths on entry and, on exit, runs a fixed
    sequence of effects (code file, plot, HTML page, site entry, git, site
    build, deploy, cloud publish), each guarded by its own exception
    handler. Every effect is an `Action`; whether it raises is decided by
    a failure oracle over the file system and the action, so the
    properties below hold whatever fails. The journal records each
    attempt with its outcome; a failed attempt is a warning. */
module Snapshot {

  import opened Values
  import opened Text
  import opened Timestamp
  import opened FileManager
  import opened Utils
  import opened SnapshotConfig

  /** `get_calling_info()`: the capturing function's name, the base name of
      its source file and its source text. */
  datatype CallingInfo = CallingInfo(functionName: string, filename: string, sourceCode: string)

  /** An effect a capture attempts. */
  datatype Action =
    | WriteCode(path: Path, code: string)                        // snapshot.py:183-184
    | SavePlot(path: Path, dpi: Value, bboxInches: Value)         // snapshot.py:195-199
    | WriteHtml(path: Path, code: string, plotPath: Option<Path>, metadata: Dict,
                title: Value, author: Value, notes: Value)       // snapshot.py:219-227
    | MakeDir(path: Path)                                         // `mkdir(parents=True, exist_ok=True)`
    | CopyFile(source: Path, target: Path)                        // `shutil.copy2`
    | WriteText(path: Path, text: string)                         // the entry's `index.md`
    | Commit(cwd: Value, title: Value)                            // `git add .` and `git commit`
    | BuildSite(siteDir: Value, output: Path, built: Fs)         // `SiteGenerator(site_dir).build()`
    | Deploy(cwd: Value)                                          // `git add docs/`, commit, push
    | Publish(dir: Path, request: PublishConfig)                  // `publish_snapshot(dir, cfg)`

  /** One attempted action and whether it completed. */
  datatype Attempt = Attempt(action: Action, ok: bool)

  /** The directories and regular files that exist. */
  datatype Fs = Fs(dirs: set<Path>, files: set<Path>)

  /** What a capture can observe and change: the file system and the
      journal of attempts. */
  datatype World = World(fs: Fs, log: seq<Attempt>)

  /** The parts of the environment the capture consults. */
  datatype Effects = Effects(
    /** Whether an action raises when attempted in a given file system. */
    fails: (Fs, Action) -> bool,
    /** `has_active_figure()` when the plot is saved. */
    hasFigure: bool,
    /** `yaml.dump(record, default_flow_style=False)` */
    dump: Dict -> string,
    /** `str(value)` inside an f-string. */
    show: Value -> string,
    /** `datetime.now().isoformat()` when the site entry is written. */
    now: string,
    /** The path a directory string names, relative to the working
        directory. */
    resolve: string -> Path,
    /** The directories and files `SiteGenerator(site).build()` writes
        below its output directory, given the file system it reads and
        the site directory. */
    build: (Fs, Value) -> Fs)

  /** `Path(p).exists()` / `os.path.exists(p)` */
  predicate Exists(fs: Fs, p: Path) {
    p in fs.dirs || p in fs.files
  }

  /** `q` is `dir` or lies below it. */
  predicate Below(q: Path, dir: Path) {
    |dir| <= |q| && q[..|dir|] == dir
  }

  /** The change an action makes when it completes. A completed build
      replaces the tree at its output directory (`rmtree`, then
      `mkdir(parents=True)` and the pages) and leaves every other path as
      it was; git and the cloud publish leave the local file system as it
      is. */
  function Effect(fs: Fs, a: Action): (r: Fs)
    ensures a.MakeDir? ==> r == Fs(fs.dirs + Ancestry(a.path), fs.files)
    ensures a.WriteCode? || a.SavePlot? || a.WriteHtml? || a.WriteText? ==> r == Fs(fs.dirs, fs.files + {a.path})
    ensures a.CopyFile? ==> r == Fs(fs.dirs, fs.files + {a.target})
    ensures a.Commit? || a.Deploy? || a.Publish? ==> r == fs
    ensures a.BuildSite? ==> forall q :: !Below(q, a.output) ==>
      (q in r.files <==> q in fs.files) && (q in r.dirs <==> q in fs.dirs || q in Ancestry(a.output))
    ensures a.BuildSite? ==> forall q :: Below(q, a.output) ==>
      (q in r.files <==> q in a.built.files) && (q in r.dirs <==> q == a.output || q in a.built.dirs)
  {
    match a
    case MakeDir(p) => Fs(fs.dirs + Ancestry(p), fs.files)
    case WriteCode(p, _) => Fs(fs.dirs, fs.files + {p})
    case SavePlot(p, _, _) => Fs(fs.dirs, fs.files + {p})
    case WriteHtml(p, _, _, _, _, _, _) => Fs(fs.dirs, fs.files + {p})
    case CopyFile(_, q) => Fs(fs.dirs, fs.files + {q})
    case WriteText(p, _) => Fs(fs.dirs, fs.files + {p})
    case BuildSite(_, out, built) => AncestryBelow(out); Rebuilt(fs, out, built)
    case _ => fs
  }

  /** `fs` with the tree at `out` replaced by the part of `built` below
      it, `out` and its ancestors being directories. */
  function Rebuilt(fs: Fs, out: Path, built: Fs): Fs {
    Fs((set q | q in fs.dirs && !Below(q, out)) + Ancestry(out) + {out} + (set q | q in built.dirs && Below(q, out)),
       (set q | q in fs.files && !Below(q, out)) + (set q | q in built.files && Below(q, out)))
  }

  /** The only ancestor of `out` at or below it is `out` itself. */
  lemma AncestryBelow(out: Path)
    ensures forall q :: q in Ancestry(out) && Below(q, out) ==> q == out
  {
    forall q | q in Ancestry(out) && Below(q, out)
      ensures q == out
    {
      assert q == out[..|q|] && |q| == |out|;
    }
  }

  /** Attempt `a` inside a `try`: it is journalled with its outcome and
      changes the file system only when it completes. */
  function Try(w: World, a: Action, fx: Effects): (r: (World, bool))
    ensures r.0.log == w.log + [Attempt(a, r.1)]
    ensures r.1 <==> !fx.fails(w.fs, a)
    ensures r.0.fs == if r.1 then Effect(w.fs, a) else w.fs
  {
    var ok := !fx.fails(w.fs, a);
    (World(if ok then Effect(w.fs, a) else w.fs, w.log + [Attempt(a, ok)]), ok)
  }

  /** The fields of a `SnapshotContext`. */
  datatype Capture = Capture(
    config: Dict,
    timestamp: Option<string>,
    callingInfo: Option<CallingInfo>,
    filePaths: Option<FilePaths>,
    snapshotDir: Option<Path>)

  /** The keys the capture subscripts directly are present, and
      `output_dir` is a string. */
  predicate ConfigShape(c: Dict) {
    && "output_dir" in c && c["output_dir"].VStr?
    && "title" in c && "author" in c && "notes" in c
    && "dpi" in c && "bbox_inches" in c
  }

  /** `__enter__` sets the token, the calling information, the paths and
      the directory together. */
  predicate Consistent(s: Capture) {
    && ConfigShape(s.config)
    && (s.filePaths.Some? ==> s.timestamp.Some? && s.callingInfo.Some? && s.snapshotDir.Some?)
  }

  /** The guard of `_create_snapshot` (snapshot.py:151-152) passes. */
  predicate Ready(s: Capture) {
    Consistent(s) && s.callingInfo.Some? && s.filePaths.Some?
  }

  /** Every configuration a `SnapshotContext` is constructed with has the
      shape the capture relies on. */
  lemma ContextConfigShape(a: Args)
    ensures ConfigShape(ContextConfig(a))
  {
    ContextConfigDefaults(a);
  }

  /** `self.config['output_dir'] or get_default_output_dir()`, as a path. */
  function OutputBase(c: Dict, fx: Effects, cwd: Path): (r: Path)
    requires ConfigShape(c)
    ensures c["output_dir"] == VStr("") ==> r == cwd + ["snapshots"]
    ensures c["output_dir"] != VStr("") ==> r == fx.resolve(c["output_dir"].s)
  {
    if Truthy(c["output_dir"]) then fx.resolve(c["output_dir"].s) else cwd + ["snapshots"]
  }

  // ----- the steps of `_create_snapshot` -----

  /** `_save_source_code` (snapshot.py:181-188). */
  function CodeStep(info: CallingInfo, paths: FilePaths, w: World, fx: Effects): World {
    Try(w, WriteCode(paths.code, info.sourceCode), fx).0
  }

  /** `_save_plot` (snapshot.py:190-205): nothing without an active
      figure; otherwise the save is attempted and the result is True
      whether or not it completed, because `save_current_plot` catches
      every exception and only warns (utils.py:20-39), so the `except` of
      `_save_plot` is never reached. */
  function PlotStep(c: Dict, paths: FilePaths, w: World, fx: Effects): (r: (World, bool))
    requires ConfigShape(c)
    ensures r.1 <==> fx.hasFigure
    ensures !fx.hasFigure ==> r.0 == w
    ensures fx.hasFigure ==> r.0.log == w.log + [Attempt(SavePlot(paths.plot, c["dpi"], c["bbox_inches"]), !fx.fails(w.fs, SavePlot(paths.plot, c["dpi"], c["bbox_inches"])))]
  {
    if !fx.hasFigure then (w, false)
    else (Try(w, SavePlot(paths.plot, c["dpi"], c["bbox_inches"]), fx).0, true)
  }

  /** The metadata handed to the HTML writer (snapshot.py:211-215). */
  function HtmlMetadata(info: CallingInfo, token: string): (r: Dict)
    ensures r.Keys == {"function_name", "filename", "date"}
    ensures r["function_name"] == VStr(info.functionName) && r["filename"] == VStr(info.filename)
    ensures r["date"] == VStr(FormatTimestampForDisplay(token))
  {
    map["function_name" := VStr(info.functionName), "filename" := VStr(info.filename),
        "date" := VStr(FormatTimestampForDisplay(token))]
  }

  /** The HTML page action: the plot path when `_save_plot` returned
      True, otherwise the empty path. */
  function HtmlAction(c: Dict, info: CallingInfo, token: string, paths: FilePaths, plotSaved: bool): Action
    requires ConfigShape(c)
  {
    WriteHtml(paths.html, info.sourceCode, if plotSaved then Some(paths.plot) else None,
      HtmlMetadata(info, token), c["title"], c["author"], c["notes"])
  }

  /** `_create_html_documentation` (snapshot.py:207-230). */
  function HtmlStep(c: Dict, info: CallingInfo, token: string, paths: FilePaths, plotSaved: bool,
                    w: World, fx: Effects): World
    requires ConfigShape(c)
  {
    Try(w, HtmlAction(c, info, token, paths, plotSaved), fx).0
  }

  // ----- the site entry (snapshot.py:232-298) -----

  /** `self.config.get('site') or self.config.get('collection')` */
  predicate SiteWanted(c: Dict) {
    Truthy(Get(c, "site", VNone)) || Truthy(Get(c, "collection", VNone))
  }

  /** `site_path / 'collections' / collection` */
  function CollectionDir(sitePath: Path, collection: string): Path {
    sitePath + ["collections", collection]
  }

  /** The entry directory name `<token>_<sanitize_filename(title)>`. */
  function EntryName(token: string, title: string): string {
    token + "_" + Sanitized(title)
  }

  /** The record before the None filter (snapshot.py:273-283). */
  function EntryRecord(c: Dict, info: CallingInfo, now: string): Dict {
    map["title" := Or(Get(c, "title", VNone), VStr(info.functionName)),
        "date" := VStr(now),
        "author" := Get(c, "author", VNone),
        "description" := Get(c, "description", VNone),
        "tags" := Get(c, "tags", VList([])),
        "plot_image" := VStr("plot.png"),
        "code_file" := VStr("code.py"),
        "function_name" := VStr(info.functionName),
        "filename" := VStr(info.filename)]
  }

  /** `{k: v for k, v in d.items() if v is not None}` */
  function DropNone(d: Dict): (r: Dict)
    ensures forall k :: k in r <==> k in d && d[k] != VNone
    ensures forall k :: k in r ==> r[k] == d[k]
  {
    map k | k in d && d[k] != VNone :: d[k]
  }

  /** The entry's metadata record (snapshot.py:273-286). */
  function EntryMetadata(c: Dict, info: CallingInfo, now: string): Dict {
    DropNone(EntryRecord(c, info, now))
  }

  /** The description paragraph, present when the description is truthy. */
  function DescriptionParagraph(c: Dict, fx: Effects): string {
    if Truthy(Get(c, "description", VNone)) then fx.show(c["description"]) + "\n\n" else ""
  }

  /** The closing line naming the function and file. */
  function GeneratedLine(info: CallingInfo): string {
    "Generated from `" + info.functionName + "` in `" + info.filename + "`\n"
  }

  /** The text of the entry's `index.md` (snapshot.py:288-294): `---`, a
      newline, the YAML dump, `---`, a blank line, the optional
      description paragraph and the closing line. */
  function IndexMd(c: Dict, info: CallingInfo, fx: Effects): string {
    "---\n" + fx.dump(EntryMetadata(c, info, fx.now)) + "---\n\n"
      + DescriptionParagraph(c, fx) + GeneratedLine(info)
  }

  /** `if os.path.exists(source): shutil.copy2(source, target)`: nothing
      happens, successfully, when the source is missing. */
  function CopyIfExists(w: World, source: Path, target: Path, fx: Effects): (r: (World, bool))
    ensures !Exists(w.fs, source) ==> r == (w, true)
  {
    if Exists(w.fs, source) then Try(w, CopyFile(source, target), fx) else (w, true)
  }

  /** The files of an entry whose directory exists: the plot copy, the
      code copy and `index.md`; a failure ends the handler. */
  function EntryFiles(c: Dict, info: CallingInfo, paths: FilePaths, entry: Path, w: World, fx: Effects): World {
    var t1 := CopyIfExists(w, paths.plot, entry + ["plot.png"], fx);
    if !t1.1 then t1.0
    else
      var t2 := CopyIfExists(t1.0, paths.code, entry + ["code.py"], fx);
      if !t2.1 then t2.0
      else Try(t2.0, WriteText(entry + ["index.md"], IndexMd(c, info, fx)), fx).0
  }

  /** The body of `_handle_site_generation`: a directory string that is
      not a string raises in `Path(...)`, a missing `_config.yml` returns,
      a non-string collection raises when joined, and a title that is not
      a string raises inside `sanitize_filename`; each ends the handler. */
  function SiteEntry(c: Dict, info: CallingInfo, token: string, paths: FilePaths, w: World, fx: Effects): World {
    var site := Get(c, "site", VStr("."));
    var collection := Get(c, "collection", VStr("plots"));
    if !site.VStr? then w
    else if !Exists(w.fs, fx.resolve(site.s) + ["_config.yml"]) then w
    else if !collection.VStr? then w
    else
      var collectionDir := CollectionDir(fx.resolve(site.s), collection.s);
      var t1 := Try(w, MakeDir(collectionDir), fx);
      if !t1.1 then t1.0
      else
        var title := Get(c, "title", VStr("plot"));
        if !title.VStr? then t1.0
        else
          var entry := collectionDir + [EntryName(token, title.s)];
          var t2 := Try(t1.0, MakeDir(entry), fx);
          if !t2.1 then t2.0
          else EntryFiles(c, info, paths, entry, t2.0, fx)
  }

  /** Step 4 of `_create_snapshot`: the site entry, only when a site or a
      collection is configured. */
  function SiteStep(c: Dict, info: CallingInfo, token: string, paths: FilePaths, w: World, fx: Effects): World {
    if SiteWanted(c) then SiteEntry(c, info, token, paths, w, fx) else w
  }

  // ----- git, build, deploy and publish (snapshot.py:300-360) -----

  /** The working directory of the git and build steps. */
  function SiteDir(c: Dict): Value {
    Get(c, "site", VStr("."))
  }

  /** `_auto_commit`, when `auto_commit` is truthy. */
  function CommitStep(c: Dict, w: World, fx: Effects): World {
    if Truthy(Get(c, "auto_commit", VNone))
    then Try(w, Commit(SiteDir(c), Get(c, "title", VStr("Unnamed plot"))), fx).0
    else w
  }

  /** `SiteGenerator(site_dir).build()`: the generator reads the site
      directory, but `build` writes to its default `docs`, which is
      relative to the working directory and not to the site. */
  function BuildAction(c: Dict, fs: Fs, fx: Effects): (a: Action)
    ensures a.BuildSite? && a.siteDir == SiteDir(c) && a.output == fx.resolve("docs")
  {
    BuildSite(SiteDir(c), fx.resolve("docs"), fx.build(fs, SiteDir(c)))
  }

  /** `_auto_build`, when `auto_build` is truthy. */
  function BuildStep(c: Dict, w: World, fx: Effects): World {
    if Truthy(Get(c, "auto_build", VNone)) then Try(w, BuildAction(c, w.fs, fx), fx).0 else w
  }

  /** `_auto_deploy`, when `auto_deploy` is truthy. */
  function DeployStep(c: Dict, w: World, fx: Effects): World {
    if Truthy(Get(c, "auto_deploy", VNone)) then Try(w, Deploy(SiteDir(c)), fx).0 else w
  }

  /** The guard of `_maybe_publish_to_cloud` (snapshot.py:340-341). */
  predicate PublishWanted(c: Dict, dir: Option<Path>) {
    && Truthy(Get(c, "cloud_url", VNone))
    && Truthy(Get(c, "cloud_token", VNone))
    && Truthy(Get(c, "cloud_project_id", VNone))
    && dir.Some?
  }

  /** The `PublishConfig` handed to the publisher (snapshot.py:342-356). */
  datatype PublishConfig = PublishConfig(
    cloudUrl: Value, token: Value, projectId: Value, collection: Value,
    title: Value, author: Value, description: Value, tags: Value,
    repoOwner: Value, repoName: Value, commitSha: Value, branch: Value, prNumber: Value)

  /** The settings as the capture fills them in: the title falls back to
      the function name and the description to the notes. */
  function PublishRequest(c: Dict, info: CallingInfo): PublishConfig {
    PublishConfig(
      Get(c, "cloud_url", VNone), Get(c, "cloud_token", VNone), Get(c, "cloud_project_id", VNone),
      Get(c, "collection", VNone),
      Or(Get(c, "title", VNone), VStr(info.functionName)),
      Get(c, "author", VNone),
      Or(Get(c, "description", VNone), Get(c, "notes", VNone)),
      Get(c, "tags", VList([])),
      Get(c, "repo_owner", VNone), Get(c, "repo_name", VNone), Get(c, "commit_sha", VNone),
      Get(c, "branch", VNone), Get(c, "pr_number", VNone))
  }

  /** `_maybe_publish_to_cloud` (snapshot.py:334-360). */
  function PublishStep(c: Dict, info: CallingInfo, dir: Option<Path>, w: World, fx: Effects): World {
    if PublishWanted(c, dir) then Try(w, Publish(dir.value, PublishRequest(c, info)), fx).0 else w
  }

  /** The world after the file steps: code, plot, HTML page. */
  function FileSteps(s: Capture, w: World, fx: Effects): World
    requires Ready(s)
  {
    var info, paths, token := s.callingInfo.value, s.filePaths.value, s.timestamp.value;
    var w1 := CodeStep(info, paths, w, fx);
    var t := PlotStep(s.config, paths, w1, fx);
    HtmlStep(s.config, info, token, paths, t.1, t.0, fx)
  }

  /** The world after the last four steps, from the world the site step
      left. */
  function LaterSteps(s: Capture, w: World, fx: Effects): World
    requires Ready(s)
  {
    var c := s.config;
    PublishStep(c, s.callingInfo.value, s.snapshotDir, DeployStep(c, BuildStep(c, CommitStep(c, w, fx), fx), fx), fx)
  }

  /** `_create_snapshot` (snapshot.py:149-179): nothing before `__enter__`;
      otherwise every step, in order, each starting from the world the
      previous one left. */
  function CreateSnapshot(s: Capture, w: World, fx: Effects): World
    requires Consistent(s)
  {
    if !Ready(s) then w
    else
      var w3 := FileSteps(s, w, fx);
      var w4 := SiteStep(s.config, s.callingInfo.value, s.timestamp.value, s.filePaths.value, w3, fx);
      LaterSteps(s, w4, fx)
  }

  // ----- the mutable state -----

  /** The journal of attempts; the failed ones are the warnings issued. */
  class Journal {
    var log: seq<Attempt>

    constructor ()
      ensures log == []
    {
      log := [];
    }
  }

  /** The world as the disk and the journal hold it. */
  function WorldOf(disk: Disk, journal: Journal): World
    reads disk, journal
  {
    World(Fs(disk.dirs, disk.files), journal.log)
  }

  /** Attempt one action against the disk, journalling it. */
  method Perform(disk: Disk, journal: Journal, a: Action, fx: Effects) returns (ok: bool)
    modifies disk, journal
    ensures (WorldOf(disk, journal), ok) == Try(old(WorldOf(disk, journal)), a, fx)
  {
    var fs := Fs(disk.dirs, disk.files);
    ok := !fx.fails(fs, a);
    if ok {
      var after := Effect(fs, a);
      disk.dirs, disk.files := after.dirs, after.files;
    }
    journal.log := journal.log + [Attempt(a, ok)];
  }

  /** The output half of `__enter__`: the created directory for the
      source file and the three file paths inside it, or the exception
      the `mkdir` raised, before any path was computed. */
  method PrepareOutput(disk: Disk, base: Path, filename: string, token: string)
    returns (dir: Path, paths: Result<FilePaths, string>)
    modifies disk
    ensures dir == base + [SnapshotDirName(filename)] && disk.files == old(disk.files)
    ensures MkdirError(old(disk.files), dir).None? ==>
      paths == Ok(GetFilePaths(dir, filename, token)) && disk.dirs == old(disk.dirs) + Ancestry(dir)
    ensures MkdirError(old(disk.files), dir).Some? ==>
      paths == Err(MkdirError(old(disk.files), dir).value) && disk.dirs == old(disk.dirs)
  {
    var raised;
    dir, raised := CreateOutputDirectory(disk, base, filename);
    if raised.Some? {
      return dir, Err(raised.value);
    }
    paths := Ok(GetFilePaths(dir, filename, token));
  }

  /** The directory `__enter__` creates for captures from `filename`. */
  function CaptureDirOf(c: Dict, fx: Effects, cwd: Path, filename: string): Path
    requires ConfigShape(c)
  {
    OutputBase(c, fx, cwd) + [SnapshotDirName(filename)]
  }

  /** `SnapshotContext` */
  class SnapshotContext {
    var config: Dict
    var timestamp: Option<string>
    var callingInfo: Option<CallingInfo>
    var filePaths: Option<FilePaths>
    var snapshotDir: Option<Path>

    function State(): Capture
      reads this
    {
      Capture(config, timestamp, callingInfo, filePaths, snapshotDir)
    }

    /** `__init__` (snapshot.py:36-113): the validated arguments merged over
        the defaults, and nothing prepared yet. */
    constructor (a: Args)
      ensures State() == Capture(ContextConfig(a), None, None, None, None)
      ensures Consistent(State())
    {
      var validated := ValidateConfig(RawConfig(a));
      var merged := MergeConfigs(DefaultConfig(), validated);
      config := merged;
      timestamp, callingInfo, filePaths, snapshotDir := None, None, None, None;
      ContextConfigShape(a);
    }

    /** `__enter__` (snapshot.py:115-138): the process-wide token, the
        calling information, the created `snapshot_<stem>` directory and
        the three file paths inside it. The `mkdir` is not guarded: when
        it raises, the exception is returned, the token and the calling
        information are already set and the paths are not. */
    method Enter(clock: TimestampSource, now: Instant, info: CallingInfo, cwd: Path, disk: Disk, fx: Effects)
      returns (raised: Option<string>)
      requires clock.Valid() && Consistent(State())
      modifies this, clock, disk
      ensures config == old(config) && Consistent(State())
      ensures clock.Valid() && timestamp == clock.token && timestamp.Some?
      ensures old(clock.token).Some? ==> timestamp == old(clock.token)
      ensures old(clock.token).None? ==> timestamp == Some(Token(now))
      ensures callingInfo == Some(info) && disk.files == old(disk.files)
      ensures raised == MkdirError(old(disk.files), CaptureDirOf(config, fx, cwd, info.filename))
      ensures raised.None? ==> Ready(State()) && snapshotDir == Some(CaptureDirOf(config, fx, cwd, info.filename))
      ensures raised.None? ==> filePaths == Some(GetFilePaths(snapshotDir.value, info.filename, timestamp.value))
      ensures raised.None? ==> disk.dirs == old(disk.dirs) + Ancestry(snapshotDir.value)
      ensures raised.Some? ==> filePaths == old(filePaths) && snapshotDir == old(snapshotDir) && disk.dirs == old(disk.dirs)
    {
      var token := clock.GetCurrentTimestamp(now);
      raised := Open(token, info, cwd, disk, fx);
    }

    /** The rest of `__enter__` once the token is known. */
    method Open(token: string, info: CallingInfo, cwd: Path, disk: Disk, fx: Effects) returns (raised: Option<string>)
      requires Consistent(State())
      modifies this, disk
      ensures config == old(config) && Consistent(State())
      ensures timestamp == Some(token) && callingInfo == Some(info) && disk.files == old(disk.files)
      ensures raised == MkdirError(old(disk.files), CaptureDirOf(config, fx, cwd, info.filename))
      ensures raised.None? ==> Ready(State()) && snapshotDir == Some(CaptureDirOf(config, fx, cwd, info.filename))
      ensures raised.None? ==> filePaths == Some(GetFilePaths(snapshotDir.value, info.filename, token))
      ensures raised.None? ==> disk.dirs == old(disk.dirs) + Ancestry(snapshotDir.value)
      ensures raised.Some? ==> filePaths == old(filePaths) && snapshotDir == old(snapshotDir) && disk.dirs == old(disk.dirs)
    {
      timestamp, callingInfo := Some(token), Some(info);
      var dir, paths := PrepareOutput(disk, OutputBase(config, fx, cwd), info.filename, token);
      if paths.Err? {
        return Some(paths.error);
      }
      filePaths, snapshotDir := Some(paths.value), Some(dir);
      assert State() == Capture(config, Some(token), Some(info), Some(paths.value), Some(dir));
      return None;
    }

    /** `_save_source_code` */
    method SaveSourceCode(disk: Disk, journal: Journal, fx: Effects)
      requires Ready(State())
      modifies disk, journal
      ensures WorldOf(disk, journal) == CodeStep(callingInfo.value, filePaths.value, old(WorldOf(disk, journal)), fx)
    {
      var _ := Perform(disk, journal, WriteCode(filePaths.value.code, callingInfo.value.sourceCode), fx);
    }

    /** `_save_plot` */
    method SavePlotFile(disk: Disk, journal: Journal, fx: Effects) returns (saved: bool)
      requires Ready(State())
      modifies disk, journal
      ensures (WorldOf(disk, journal), saved) == PlotStep(config, filePaths.value, old(WorldOf(disk, journal)), fx)
    {
      if !fx.hasFigure {
        return false;
      }
      var _ := Perform(disk, journal, SavePlot(filePaths.value.plot, config["dpi"], config["bbox_inches"]), fx);
      saved := true;
    }

    /** `_create_html_documentation` */
    method CreateHtmlDocumentation(disk: Disk, journal: Journal, fx: Effects, plotSaved: bool)
      requires Ready(State())
      modifies disk, journal
      ensures WorldOf(disk, journal)
        == HtmlStep(config, callingInfo.value, timestamp.value, filePaths.value, plotSaved, old(WorldOf(disk, journal)), fx)
    {
      var _ := Perform(disk, journal, HtmlAction(config, callingInfo.value, timestamp.value, filePaths.value, plotSaved), fx);
    }

    /** The entry files of `_handle_site_generation`, once the entry
        directory exists. */
    method WriteEntryFiles(disk: Disk, journal: Journal, fx: Effects, entry: Path)
      requires Ready(State())
      modifies disk, journal
      ensures WorldOf(disk, journal) == EntryFiles(config, callingInfo.value, filePaths.value, entry, old(WorldOf(disk, journal)), fx)
    {
      var paths := filePaths.value;
      var ok := true;
      if Exists(Fs(disk.dirs, disk.files), paths.plot) {
        ok := Perform(disk, journal, CopyFile(paths.plot, entry + ["plot.png"]), fx);
      }
      if !ok {
        return;
      }
      if Exists(Fs(disk.dirs, disk.files), paths.code) {
        ok := Perform(disk, journal, CopyFile(paths.code, entry + ["code.py"]), fx);
      }
      if !ok {
        return;
      }
      var _ := Perform(disk, journal, WriteText(entry + ["index.md"], IndexMd(config, callingInfo.value, fx)), fx);
    }

    /** `_handle_site_generation` */
    method HandleSiteGeneration(disk: Disk, journal: Journal, fx: Effects)
      requires Ready(State())
      modifies disk, journal
      ensures WorldOf(disk, journal)
        == SiteEntry(config, callingInfo.value, timestamp.value, filePaths.value, old(WorldOf(disk, journal)), fx)
    {
      var site := Get(config, "site", VStr("."));
      var collection := Get(config, "collection", VStr("plots"));
      if !site.VStr? || !Exists(Fs(disk.dirs, disk.files), fx.resolve(site.s) + ["_config.yml"]) || !collection.VStr? {
        return;
      }
      var collectionDir := CollectionDir(fx.resolve(site.s), collection.s);
      var ok := Perform(disk, journal, MakeDir(collectionDir), fx);
      if !ok {
        return;
      }
      var title := Get(config, "title", VStr("plot"));
      if !title.VStr? {
        return;
      }
      var entry := collectionDir + [EntryName(timestamp.value, title.s)];
      ok := Perform(disk, journal, MakeDir(entry), fx);
      if !ok {
        return;
      }
      WriteEntryFiles(disk, journal, fx, entry);
    }

    /** `_auto_commit` */
    method AutoCommit(disk: Disk, journal: Journal, fx: Effects)
      modifies disk, journal
      ensures WorldOf(disk, journal) == CommitStep(config, old(WorldOf(disk, journal)), fx)
    {
      if Truthy(Get(config, "auto_commit", VNone)) {
        var _ := Perform(disk, journal, Commit(SiteDir(config), Get(config, "title", VStr("Unnamed plot"))), fx);
      }
    }

    /** `_auto_build` */
    method AutoBuild(disk: Disk, journal: Journal, fx: Effects)
      modifies disk, journal
      ensures WorldOf(disk, journal) == BuildStep(config, old(WorldOf(disk, journal)), fx)
    {
      if Truthy(Get(config, "auto_build", VNone)) {
        var _ := Perform(disk, journal, BuildAction(config, Fs(disk.dirs, disk.files), fx), fx);
      }
    }

    /** `_auto_deploy` */
    method AutoDeploy(disk: Disk, journal: Journal, fx: Effects)
      modifies disk, journal
      ensures WorldOf(disk, journal) == DeployStep(config, old(WorldOf(disk, journal)), fx)
    {
      if Truthy(Get(config, "auto_deploy", VNone)) {
        var _ := Perform(disk, journal, Deploy(SiteDir(config)), fx);
      }
    }

    /** `_maybe_publish_to_cloud` */
    method MaybePublishToCloud(disk: Disk, journal: Journal, fx: Effects)
      requires Ready(State())
      modifies disk, journal
      ensures WorldOf(disk, journal) == PublishStep(config, callingInfo.value, snapshotDir, old(WorldOf(disk, journal)), fx)
    {
      if PublishWanted(config, snapshotDir) {
        var _ := Perform(disk, journal, Publish(snapshotDir.value, PublishRequest(config, callingInfo.value)), fx);
      }
    }

    /** `_create_snapshot` */
    method CreateSnapshotNow(disk: Disk, journal: Journal, fx: Effects)
      requires Consistent(State())
      modifies disk, journal
      ensures WorldOf(disk, journal) == CreateSnapshot(State(), old(WorldOf(disk, journal)), fx)
    {
      if callingInfo.None? || filePaths.None? {
        return;
      }
      SaveSourceCode(disk, journal, fx);
      var plotSaved := SavePlotFile(disk, journal, fx);
      CreateHtmlDocumentation(disk, journal, fx, plotSaved);
      assert WorldOf(disk, journal) == FileSteps(State(), old(WorldOf(disk, journal)), fx);
      if SiteWanted(config) {
        HandleSiteGeneration(disk, journal, fx);
      }
      ghost var w4 := WorldOf(disk, journal);
      AutoCommit(disk, journal, fx);
      AutoBuild(disk, journal, fx);
      AutoDeploy(disk, journal, fx);
      MaybePublishToCloud(disk, journal, fx);
      assert WorldOf(disk, journal) == LaterSteps(State(), w4, fx);
    }

    /** `__exit__` (snapshot.py:140-147): the snapshot is created, every
        step's failure having been caught, and the exit never suppresses
        an exception raised inside the block. */
    method Exit(disk: Disk, journal: Journal, fx: Effects) returns (suppress: bool)
      requires Consistent(State())
      modifies disk, journal
      ensures !suppress
      ensures WorldOf(disk, journal) == CreateSnapshot(State(), old(WorldOf(disk, journal)), fx)
    {
      CreateSnapshotNow(disk, journal, fx);
      suppress := false;
    }
  }
}
