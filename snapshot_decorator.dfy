/** `SnapshotDecorator` (snapshotplot/snapshot.py:363-419): the thirteen
    options of the `@snapshot(...)` decorator, a wrapper that runs the
    decorated function inside a fresh `SnapshotContext`, and the same
    context used directly as a context manager. The decorated function
    itself is not modelled: its outcome, a value or an exception, is a
    parameter of the wrapper. */
module SnapshotDecorator {

  import opened Values
  import opened Timestamp
  import opened FileManager
  import opened SnapshotConfig
  import opened Snapshot
  import opened SnapshotProps

  /** How a call of the decorated function ends. */
  datatype Outcome<R> = Returned(value: R) | Raised(exception: string)

  /** `c` holds the decorator's three switches and no cloud URL. */
  predicate Switched(c: Dict, d: DecoratorArgs) {
    && Get(c, "auto_commit", VNone) == d.autoCommit
    && Get(c, "auto_build", VNone) == d.autoBuild
    && Get(c, "auto_deploy", VNone) == d.autoDeploy
    && Get(c, "cloud_url", VNone) == VNone
  }

  /** The decorator's switches reach the context's configuration
      unchanged, and no cloud URL is ever set. */
  lemma DecoratorSwitches(d: DecoratorArgs)
    ensures Switched(ContextConfig(ContextArgs(d)), d)
  {
    var a := ContextArgs(d);
    SwitchKeys();
    SwitchArgs(d);
    OptionalGet(a, "auto_commit");
    OptionalGet(a, "auto_build");
    OptionalGet(a, "auto_deploy");
    NoCloudUrl(a);
  }

  /** The three switches have no default. */
  lemma SwitchKeys()
    ensures "auto_commit" in OptionalKeys && "auto_build" in OptionalKeys && "auto_deploy" in OptionalKeys
  {
  }

  /** The context receives the decorator's three switches as arguments. */
  lemma SwitchArgs(d: DecoratorArgs)
    ensures Arg(ContextArgs(d), "auto_commit") == d.autoCommit
    ensures Arg(ContextArgs(d), "auto_build") == d.autoBuild
    ensures Arg(ContextArgs(d), "auto_deploy") == d.autoDeploy
  {
  }

  /** Reading a key without a default gives its argument, or None. */
  lemma OptionalGet(a: Args, k: string)
    requires k in OptionalKeys
    ensures Get(ContextConfig(a), k, VNone) == Arg(a, k)
  {
    OptionalAt(a, k);
  }

  /** Where a decorator's captures go: the `output_dir` option resolved
      when it is a non-empty string, `snapshots` under the working
      directory when it is empty, `snapshots` resolved when it is not a
      string (validation replaces it by the default). */
  function CaptureBase(d: DecoratorArgs, fx: Effects, cwd: Path): Path {
    if !d.outputDir.VStr? then fx.resolve("snapshots")
    else if d.outputDir.s == "" then cwd + ["snapshots"]
    else fx.resolve(d.outputDir.s)
  }

  /** `CaptureBase` is the output directory the context computes from its
      configuration. */
  lemma CaptureBaseAgrees(d: DecoratorArgs, fx: Effects, cwd: Path)
    ensures var c := ContextConfig(ContextArgs(d));
      ConfigShape(c) && OutputBase(c, fx, cwd) == CaptureBase(d, fx, cwd)
  {
    ContextConfigShape(ContextArgs(d));
    ConfigOutputDir(ContextArgs(d));
  }

  /** What the exit of a decorator-built context attempts: the code file
      first, the git, build and deploy steps exactly when the decorator's
      switches are truthy, and never a cloud publish. */
  lemma DecoratorCapture(d: DecoratorArgs, s: Capture, w: World, fx: Effects)
    requires Ready(s) && Switched(s.config, d)
    ensures var r := CreateSnapshot(s, w, fx);
      && Extends(w, r) && |Added(w, r)| > 0
      && Added(w, r)[0].action == WriteCode(s.filePaths.value.code, s.callingInfo.value.sourceCode)
      && !Attempted(Added(w, r), PublishKind)
      && (Attempted(Added(w, r), CommitKind) <==> Truthy(d.autoCommit))
      && (Attempted(Added(w, r), BuildKind) <==> Truthy(d.autoBuild))
      && (Attempted(Added(w, r), DeployKind) <==> Truthy(d.autoDeploy))
  {
    CaptureAttempts(s, w, fx);
  }

  class Decorator {
    /** `self.config` (snapshot.py:384-398), never reassigned */
    const config: DecoratorArgs
    /** `self.context`, set by `__enter__` */
    var context: SnapshotContext?

    /** `__init__`: the options, kept as given. The source applies
        `tags or []` here already (snapshot.py:393); the model applies it
        once, when the context is built, which gives the same value. */
    constructor (d: DecoratorArgs)
      ensures config == d && context == null
    {
      config := d;
      context := null;
    }

    /** The directory the captures of a call at `cwd` from `info` go to. */
    function CaptureDir(fx: Effects, cwd: Path, info: CallingInfo): Path {
      CaptureBase(config, fx, cwd) + [SnapshotDirName(info.filename)]
    }

    /** The paths of the capture a call at `cwd` from `info` makes, given
        the process-wide token. */
    function CapturePaths(fx: Effects, cwd: Path, info: CallingInfo, token: string): FilePaths {
      GetFilePaths(CaptureDir(fx, cwd, info), info.filename, token)
    }

    /** The wrapper `__call__` returns (snapshot.py:400-410): a fresh
        context is entered, the function runs, and the context's exit
        captures the snapshot. When the context's `mkdir` raises on entry,
        the wrapper raises that exception without calling the function
        and nothing is captured. Otherwise the exit never suppresses, so
        the wrapper returns what the function returned or raises what it
        raised; the capture writes the code file first, attempts the git,
        build and deploy steps exactly when their switches are truthy, and
        never publishes to the cloud. */
    method Call<R>(result: Outcome<R>, clock: TimestampSource, now: Instant, info: CallingInfo, cwd: Path,
                   disk: Disk, journal: Journal, fx: Effects) returns (r: Outcome<R>)
      requires clock.Valid()
      modifies clock, disk, journal
      ensures clock.Valid() && clock.token.Some?
      ensures old(clock.token).Some? ==> clock.token == old(clock.token)
      ensures old(clock.token).None? ==> clock.token == Some(Token(now))
      ensures Blocked(old(disk.files), CaptureDir(fx, cwd, info)) ==>
        && r == Raised(MkdirError(old(disk.files), CaptureDir(fx, cwd, info)).value)
        && journal.log == old(journal.log) && disk.dirs == old(disk.dirs) && disk.files == old(disk.files)
      ensures !Blocked(old(disk.files), CaptureDir(fx, cwd, info)) ==> r == result
      ensures !Blocked(old(disk.files), CaptureDir(fx, cwd, info)) ==>
        |old(journal.log)| < |journal.log| && journal.log[..|old(journal.log)|] == old(journal.log)
      ensures !Blocked(old(disk.files), CaptureDir(fx, cwd, info)) ==>
        journal.log[|old(journal.log)|].action
          == WriteCode(CapturePaths(fx, cwd, info, clock.token.value).code, info.sourceCode)
      ensures !Blocked(old(disk.files), CaptureDir(fx, cwd, info)) ==>
        var added := journal.log[|old(journal.log)|..];
        && !Attempted(added, PublishKind)
        && (Attempted(added, CommitKind) <==> Truthy(config.autoCommit))
        && (Attempted(added, BuildKind) <==> Truthy(config.autoBuild))
        && (Attempted(added, DeployKind) <==> Truthy(config.autoDeploy))
    {
      var ctx, raised := EnterNew(clock, now, info, cwd, disk, fx);
      if raised.Some? {
        return Raised(raised.value);
      }
      var suppress := ExitNew(ctx, disk, journal, fx);
      r := result;
    }

    /** The exit of a context `EnterNew` made: the capture's attempts are
        appended to the journal, as `DecoratorCapture` describes them. */
    method ExitNew(ctx: SnapshotContext, disk: Disk, journal: Journal, fx: Effects) returns (suppress: bool)
      requires Ready(ctx.State()) && Switched(ctx.config, config)
      modifies disk, journal
      ensures !suppress
      ensures |old(journal.log)| < |journal.log| && journal.log[..|old(journal.log)|] == old(journal.log)
      ensures journal.log[|old(journal.log)|].action == WriteCode(ctx.filePaths.value.code, ctx.callingInfo.value.sourceCode)
      ensures var added := journal.log[|old(journal.log)|..];
        && !Attempted(added, PublishKind)
        && (Attempted(added, CommitKind) <==> Truthy(config.autoCommit))
        && (Attempted(added, BuildKind) <==> Truthy(config.autoBuild))
        && (Attempted(added, DeployKind) <==> Truthy(config.autoDeploy))
    {
      ghost var w := WorldOf(disk, journal);
      suppress := ctx.Exit(disk, journal, fx);
      DecoratorCapture(config, ctx.State(), w, fx);
    }

    /** `SnapshotContext(**self.config)` entered: the process-wide token
        and the calling information are set; unless the `mkdir` raised,
        the capture's paths are set. */
    method EnterNew(clock: TimestampSource, now: Instant, info: CallingInfo, cwd: Path, disk: Disk, fx: Effects)
      returns (ctx: SnapshotContext, raised: Option<string>)
      requires clock.Valid()
      modifies clock, disk
      ensures fresh(ctx) && Switched(ctx.config, config) && Consistent(ctx.State())
      ensures clock.Valid() && ctx.timestamp == clock.token
      ensures old(clock.token).Some? ==> clock.token == old(clock.token)
      ensures old(clock.token).None? ==> clock.token == Some(Token(now))
      ensures ctx.callingInfo == Some(info) && disk.files == old(disk.files)
      ensures raised == MkdirError(old(disk.files), CaptureDir(fx, cwd, info))
      ensures raised.None? ==> Ready(ctx.State()) && ctx.filePaths == Some(CapturePaths(fx, cwd, info, clock.token.value))
      ensures raised.Some? ==> ctx.filePaths.None? && disk.dirs == old(disk.dirs)
    {
      ctx := new SnapshotContext(ContextArgs(config));
      raised := ctx.Enter(clock, now, info, cwd, disk, fx);
      DecoratorSwitches(config);
      CaptureBaseAgrees(config, fx, cwd);
    }

    /** `__enter__` (snapshot.py:412-415): a fresh context, kept and then
        entered; the context is what the `with` statement binds, unless its
        `mkdir` raised. */
    method Enter(clock: TimestampSource, now: Instant, info: CallingInfo, cwd: Path, disk: Disk, fx: Effects)
      returns (ctx: SnapshotContext, raised: Option<string>)
      requires clock.Valid()
      modifies this, clock, disk
      ensures fresh(ctx) && context == ctx
      ensures ctx.config == ContextConfig(ContextArgs(config)) && Consistent(ctx.State())
      ensures clock.Valid() && ctx.timestamp == clock.token
      ensures old(clock.token).Some? ==> clock.token == old(clock.token)
      ensures old(clock.token).None? ==> clock.token == Some(Token(now))
      ensures ctx.callingInfo == Some(info) && disk.files == old(disk.files)
      ensures raised == MkdirError(old(disk.files), CaptureDir(fx, cwd, info))
      ensures raised.None? ==> Ready(ctx.State()) && ctx.filePaths == Some(CapturePaths(fx, cwd, info, clock.token.value))
      ensures raised.None? ==> disk.dirs == old(disk.dirs) + Ancestry(CaptureDir(fx, cwd, info))
      ensures raised.Some? ==> ctx.filePaths.None? && disk.dirs == old(disk.dirs)
    {
      ctx := new SnapshotContext(ContextArgs(config));
      context := ctx;
      raised := ctx.Enter(clock, now, info, cwd, disk, fx);
      CaptureBaseAgrees(config, fx, cwd);
    }

    /** `__exit__` (snapshot.py:417-419): the context's exit, which
        captures the snapshot and does not suppress the exception. */
    method Exit(disk: Disk, journal: Journal, fx: Effects) returns (suppress: bool)
      requires context != null && Consistent(context.State())
      modifies disk, journal
      ensures !suppress
      ensures WorldOf(disk, journal) == CreateSnapshot(context.State(), old(WorldOf(disk, journal)), fx)
    {
      suppress := context.Exit(disk, journal, fx);
    }
  }
}
