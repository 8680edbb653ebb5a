/** What a capture promises (snapshotplot/snapshot.py:149-298): each step
    runs whatever the earlier steps did, the site entry lands where the
    site builder looks for it, and its `index.md` reads back as the
    record that was written. */
module SnapshotProps {

  import opened Values
  import opened Text
  import opened Timestamp
  import opened FileManager
  import opened Utils
  import opened SnapshotConfig
  import opened Snapshot
  import SiteTree
  import SiteMetadata
  import SitePlots

  /** The kinds of step an action belongs to. */
  datatype Kind = FileKind | CommitKind | BuildKind | DeployKind | PublishKind

  function KindOf(a: Action): Kind {
    match a
    case Commit(_, _) => CommitKind
    case BuildSite(_, _, _) => BuildKind
    case Deploy(_) => DeployKind
    case Publish(_, _) => PublishKind
    case _ => FileKind
  }

  /** Some action of kind `k` was attempted. */
  predicate Attempted(log: seq<Attempt>, k: Kind) {
    exists i :: 0 <= i < |log| && KindOf(log[i].action) == k
  }

  /** `r` is `w` with attempts appended. */
  predicate Extends(w: World, r: World) {
    |w.log| <= |r.log| && r.log[..|w.log|] == w.log
  }

  /** The attempts `r` added to `w`. */
  function Added(w: World, r: World): seq<Attempt>
    requires Extends(w, r)
  {
    r.log[|w.log|..]
  }

  lemma AttemptedAppend(a: seq<Attempt>, b: seq<Attempt>, k: Kind)
    ensures Attempted(a + b, k) <==> Attempted(a, k) || Attempted(b, k)
  {
    if Attempted(a + b, k) {
      var i :| 0 <= i < |a + b| && KindOf((a + b)[i].action) == k;
      if i >= |a| {
        assert b[i - |a|] == (a + b)[i];
      } else {
        assert a[i] == (a + b)[i];
      }
    }
    if Attempted(a, k) {
      var i :| 0 <= i < |a| && KindOf(a[i].action) == k;
      assert (a + b)[i] == a[i];
    }
    if Attempted(b, k) {
      var i :| 0 <= i < |b| && KindOf(b[i].action) == k;
      assert (a + b)[|a| + i] == b[i];
    }
  }

  /** Appending in two stages appends the concatenation. */
  lemma ExtendsTrans(a: World, b: World, c: World)
    requires Extends(a, b) && Extends(b, c)
    ensures Extends(a, c) && Added(a, c) == Added(a, b) + Added(b, c)
  {
    assert c.log[..|a.log|] == c.log[..|b.log|][..|a.log|];
    assert c.log == b.log + Added(b, c);
    assert b.log == a.log + Added(a, b);
  }

  /** A step that attempts `a` when `cond` holds and otherwise does
      nothing. */
  lemma GuardedStep(w: World, r: World, cond: bool, a: Action, fx: Effects)
    requires r == if cond then Try(w, a, fx).0 else w
    ensures Extends(w, r)
    ensures forall k :: Attempted(Added(w, r), k) <==> cond && KindOf(a) == k
    ensures cond ==> |r.log| > 0 && r.log[|r.log| - 1].action == a
  {
    if cond {
      assert Added(w, r) == [Attempt(a, !fx.fails(w.fs, a))];
      assert KindOf(Added(w, r)[0].action) == KindOf(a);
    } else {
      assert Added(w, r) == [];
    }
  }

  /** Every attempt is a file action. */
  predicate OnlyFiles(log: seq<Attempt>) {
    forall i :: 0 <= i < |log| ==> KindOf(log[i].action) == FileKind
  }

  lemma OnlyFilesNot(log: seq<Attempt>, k: Kind)
    requires OnlyFiles(log) && k != FileKind
    ensures !Attempted(log, k)
  {
  }

  /** The file steps attempt the code file first, then the plot when a
      figure is active, then the HTML page, which receives the plot path
      exactly when a figure is active, whether or not the code file or the
      plot was written. */
  lemma FileStepsAttempts(s: Capture, w: World, fx: Effects)
    requires Ready(s)
    ensures var r := FileSteps(s, w, fx);
      var c, info, paths := s.config, s.callingInfo.value, s.filePaths.value;
      var h := if fx.hasFigure then 2 else 1;
      && Extends(w, r) && |Added(w, r)| == h + 1
      && OnlyFiles(Added(w, r))
      && Added(w, r)[0].action == WriteCode(paths.code, info.sourceCode)
      && (fx.hasFigure ==> Added(w, r)[1].action == SavePlot(paths.plot, c["dpi"], c["bbox_inches"]))
      && Added(w, r)[h].action
        == HtmlAction(c, info, s.timestamp.value, paths, fx.hasFigure)
  {
    var c, info, paths := s.config, s.callingInfo.value, s.filePaths.value;
    var w1 := CodeStep(info, paths, w, fx);
    var t := PlotStep(c, paths, w1, fx);
    var r := FileSteps(s, w, fx);
    var code := Attempt(WriteCode(paths.code, info.sourceCode), !fx.fails(w.fs, WriteCode(paths.code, info.sourceCode)));
    var html := Attempt(HtmlAction(c, info, s.timestamp.value, paths, t.1), !fx.fails(t.0.fs, HtmlAction(c, info, s.timestamp.value, paths, t.1)));
    if fx.hasFigure {
      var plot := SavePlot(paths.plot, c["dpi"], c["bbox_inches"]);
      var p := Attempt(plot, !fx.fails(w1.fs, plot));
      assert r.log == w.log + [code, p, html];
      assert Added(w, r) == [code, p, html];
    } else {
      assert r.log == w.log + [code, html];
      assert Added(w, r) == [code, html];
    }
  }

  /** A file action is attempted once and appended alone. */
  lemma TryFile(w: World, a: Action, fx: Effects)
    requires KindOf(a) == FileKind
    ensures var r := Try(w, a, fx).0;
      Extends(w, r) && Added(w, r) == [Attempt(a, !fx.fails(w.fs, a))] && OnlyFiles(Added(w, r))
  {
    var r := Try(w, a, fx).0;
    assert Added(w, r) == [Attempt(a, !fx.fails(w.fs, a))];
  }

  /** Two stages of file attempts are file attempts. */
  lemma FilesTrans(a: World, b: World, c: World)
    requires Extends(a, b) && Extends(b, c) && OnlyFiles(Added(a, b)) && OnlyFiles(Added(b, c))
    ensures Extends(a, c) && OnlyFiles(Added(a, c))
  {
    ExtendsTrans(a, b, c);
    forall i | 0 <= i < |Added(a, c)|
      ensures KindOf(Added(a, c)[i].action) == FileKind
    {
      if i >= |Added(a, b)| {
        assert Added(a, c)[i] == Added(b, c)[i - |Added(a, b)|];
      } else {
        assert Added(a, c)[i] == Added(a, b)[i];
      }
    }
  }

  lemma CopyIfExistsFiles(w: World, source: Path, target: Path, fx: Effects)
    ensures var r := CopyIfExists(w, source, target, fx).0;
      Extends(w, r) && OnlyFiles(Added(w, r))
  {
    if Exists(w.fs, source) {
      TryFile(w, CopyFile(source, target), fx);
    } else {
      assert Added(w, w) == [];
    }
  }

  /** The attempts of the entry files are file actions. */
  lemma EntryFilesOnlyFiles(c: Dict, info: CallingInfo, paths: FilePaths, entry: Path, w: World, fx: Effects)
    ensures var r := EntryFiles(c, info, paths, entry, w, fx);
      Extends(w, r) && OnlyFiles(Added(w, r))
  {
    var t1 := CopyIfExists(w, paths.plot, entry + ["plot.png"], fx);
    CopyIfExistsFiles(w, paths.plot, entry + ["plot.png"], fx);
    if t1.1 {
      var t2 := CopyIfExists(t1.0, paths.code, entry + ["code.py"], fx);
      CopyIfExistsFiles(t1.0, paths.code, entry + ["code.py"], fx);
      FilesTrans(w, t1.0, t2.0);
      if t2.1 {
        var r := Try(t2.0, WriteText(entry + ["index.md"], IndexMd(c, info, fx)), fx).0;
        TryFile(t2.0, WriteText(entry + ["index.md"], IndexMd(c, info, fx)), fx);
        FilesTrans(w, t2.0, r);
      }
    }
  }

  /** The directories made from the collection directory on: the entry
      directory and its files. */
  lemma EntryDirsOnlyFiles(c: Dict, info: CallingInfo, paths: FilePaths, collectionDir: Path, entry: Path,
                           w: World, fx: Effects)
    ensures var t1 := Try(w, MakeDir(collectionDir), fx);
      var t2 := Try(t1.0, MakeDir(entry), fx);
      var r := EntryFiles(c, info, paths, entry, t2.0, fx);
      && Extends(w, t1.0) && OnlyFiles(Added(w, t1.0))
      && Extends(w, t2.0) && OnlyFiles(Added(w, t2.0))
      && Extends(w, r) && OnlyFiles(Added(w, r))
  {
    var t1 := Try(w, MakeDir(collectionDir), fx);
    var t2 := Try(t1.0, MakeDir(entry), fx);
    TryFile(w, MakeDir(collectionDir), fx);
    TryFile(t1.0, MakeDir(entry), fx);
    FilesTrans(w, t1.0, t2.0);
    EntryFilesOnlyFiles(c, info, paths, entry, t2.0, fx);
    FilesTrans(w, t2.0, EntryFiles(c, info, paths, entry, t2.0, fx));
  }

  /** The body of the site handler attempts only file actions. */
  lemma SiteEntryOnlyFiles(c: Dict, info: CallingInfo, token: string, paths: FilePaths, w: World, fx: Effects)
    ensures var r := SiteEntry(c, info, token, paths, w, fx);
      Extends(w, r) && OnlyFiles(Added(w, r))
  {
    var site := Get(c, "site", VStr("."));
    var collection := Get(c, "collection", VStr("plots"));
    var title := Get(c, "title", VStr("plot"));
    if site.VStr? && Exists(w.fs, fx.resolve(site.s) + ["_config.yml"]) && collection.VStr? {
      var collectionDir := CollectionDir(fx.resolve(site.s), collection.s);
      var entry := collectionDir + [EntryName(token, if title.VStr? then title.s else "")];
      EntryDirsOnlyFiles(c, info, paths, collectionDir, entry, w, fx);
    } else {
      assert Added(w, w) == [];
    }
  }

  /** The site step attempts only file actions, and attempts anything at
      all only when a site or collection is configured, the directory is
      a string and holds `_config.yml`. */
  lemma SiteStepAttempts(c: Dict, info: CallingInfo, token: string, paths: FilePaths, w: World, fx: Effects)
    ensures var r := SiteStep(c, info, token, paths, w, fx);
      var site := Get(c, "site", VStr("."));
      && Extends(w, r) && OnlyFiles(Added(w, r))
      && (Added(w, r) != [] ==>
            SiteWanted(c) && site.VStr? && Exists(w.fs, fx.resolve(site.s) + ["_config.yml"]))
  {
    var site := Get(c, "site", VStr("."));
    if SiteWanted(c) && site.VStr? && Exists(w.fs, fx.resolve(site.s) + ["_config.yml"]) {
      SiteEntryOnlyFiles(c, info, token, paths, w, fx);
    } else {
      assert SiteStep(c, info, token, paths, w, fx) == w;
      assert Added(w, w) == [];
    }
  }

  /** Two stages of attempts attempt a kind when either stage does. */
  lemma AttemptedTrans(a: World, b: World, c: World, k: Kind)
    requires Extends(a, b) && Extends(b, c)
    ensures Extends(a, c)
    ensures Attempted(Added(a, c), k) <==> Attempted(Added(a, b), k) || Attempted(Added(b, c), k)
  {
    ExtendsTrans(a, b, c);
    AttemptedAppend(Added(a, b), Added(b, c), k);
  }

  /** Four guarded steps in a row: an action of kind `k` is attempted
      exactly when the guard of an action of that kind holds, and the
      last guarded action, when attempted, is the last attempt. */
  lemma FourGuarded(w: World, w1: World, w2: World, w3: World, r: World,
                    g1: bool, a1: Action, g2: bool, a2: Action, g3: bool, a3: Action, g4: bool, a4: Action,
                    fx: Effects, k: Kind)
    requires w1 == if g1 then Try(w, a1, fx).0 else w
    requires w2 == if g2 then Try(w1, a2, fx).0 else w1
    requires w3 == if g3 then Try(w2, a3, fx).0 else w2
    requires r == if g4 then Try(w3, a4, fx).0 else w3
    ensures Extends(w, r)
    ensures Attempted(Added(w, r), k) <==>
      (g1 && KindOf(a1) == k) || (g2 && KindOf(a2) == k) || (g3 && KindOf(a3) == k) || (g4 && KindOf(a4) == k)
    ensures g4 ==> |r.log| > 0 && r.log[|r.log| - 1].action == a4
  {
    GuardedStep(w, w1, g1, a1, fx);
    GuardedStep(w1, w2, g2, a2, fx);
    GuardedStep(w2, w3, g3, a3, fx);
    GuardedStep(w3, r, g4, a4, fx);
    AttemptedTrans(w, w1, w2, k);
    AttemptedTrans(w, w2, w3, k);
    AttemptedTrans(w, w3, r, k);
  }

  /** The later steps attempt a kind exactly when the flag or condition
      of its step holds; the publish, when attempted, is last. */
  lemma LaterStepsKind(s: Capture, w: World, fx: Effects, k: Kind)
    requires Ready(s)
    ensures var r := LaterSteps(s, w, fx);
      var c := s.config;
      && Extends(w, r)
      && (Attempted(Added(w, r), k) <==>
            (Truthy(Get(c, "auto_commit", VNone)) && k == CommitKind)
            || (Truthy(Get(c, "auto_build", VNone)) && k == BuildKind)
            || (Truthy(Get(c, "auto_deploy", VNone)) && k == DeployKind)
            || (PublishWanted(c, s.snapshotDir) && k == PublishKind))
      && (PublishWanted(c, s.snapshotDir) ==>
            |r.log| > 0 && r.log[|r.log| - 1].action == Publish(s.snapshotDir.value, PublishRequest(c, s.callingInfo.value)))
  {
    var c := s.config;
    var w5 := CommitStep(c, w, fx);
    var w6 := BuildStep(c, w5, fx);
    var w7 := DeployStep(c, w6, fx);
    var g4 := PublishWanted(c, s.snapshotDir);
    var a4 := if g4 then Publish(s.snapshotDir.value, PublishRequest(c, s.callingInfo.value)) else Deploy(VNone);
    GitStepsShape(c, w, fx);
    assert LaterSteps(s, w, fx) == if g4 then Try(w7, a4, fx).0 else w7;
    assert g4 ==> KindOf(a4) == PublishKind;
    LaterKinds(w, w5, w6, w7, LaterSteps(s, w, fx),
      Truthy(Get(c, "auto_commit", VNone)), Commit(SiteDir(c), Get(c, "title", VStr("Unnamed plot"))),
      Truthy(Get(c, "auto_build", VNone)), BuildAction(c, w5.fs, fx),
      Truthy(Get(c, "auto_deploy", VNone)), Deploy(SiteDir(c)),
      g4, a4, fx, k);
  }

  /** The commit, build and deploy steps as guarded actions of their
      kinds. */
  lemma GitStepsShape(c: Dict, w: World, fx: Effects)
    ensures var w5 := CommitStep(c, w, fx);
      var w6 := BuildStep(c, w5, fx);
      var a1 := Commit(SiteDir(c), Get(c, "title", VStr("Unnamed plot")));
      && w5 == (if Truthy(Get(c, "auto_commit", VNone)) then Try(w, a1, fx).0 else w)
      && w6 == (if Truthy(Get(c, "auto_build", VNone)) then Try(w5, BuildAction(c, w5.fs, fx), fx).0 else w5)
      && DeployStep(c, w6, fx) == (if Truthy(Get(c, "auto_deploy", VNone)) then Try(w6, Deploy(SiteDir(c)), fx).0 else w6)
      && KindOf(a1) == CommitKind && KindOf(BuildAction(c, w5.fs, fx)) == BuildKind && KindOf(Deploy(SiteDir(c))) == DeployKind
  {
  }

  /** The four later steps, as guarded actions of the commit, build,
      deploy and publish kinds. */
  lemma LaterKinds(w: World, w1: World, w2: World, w3: World, r: World,
                   g1: bool, a1: Action, g2: bool, a2: Action, g3: bool, a3: Action, g4: bool, a4: Action,
                   fx: Effects, k: Kind)
    requires w1 == if g1 then Try(w, a1, fx).0 else w
    requires w2 == if g2 then Try(w1, a2, fx).0 else w1
    requires w3 == if g3 then Try(w2, a3, fx).0 else w2
    requires r == if g4 then Try(w3, a4, fx).0 else w3
    requires KindOf(a1) == CommitKind && KindOf(a2) == BuildKind && KindOf(a3) == DeployKind
    requires g4 ==> KindOf(a4) == PublishKind
    ensures Extends(w, r)
    ensures Attempted(Added(w, r), k) <==>
      (g1 && k == CommitKind) || (g2 && k == BuildKind) || (g3 && k == DeployKind) || (g4 && k == PublishKind)
    ensures g4 ==> |r.log| > 0 && r.log[|r.log| - 1].action == a4
  {
    FourGuarded(w, w1, w2, w3, r, g1, a1, g2, a2, g3, a3, g4, a4, fx, k);
  }

  /** The git, build, deploy and publish steps each attempt exactly their
      action when their flag or condition holds, whatever failed before;
      the publish, when it happens, is the last attempt. */
  lemma LaterStepsAttempts(s: Capture, w: World, fx: Effects)
    requires Ready(s)
    ensures var r := LaterSteps(s, w, fx);
      var c := s.config;
      && Extends(w, r)
      && !Attempted(Added(w, r), FileKind)
      && (Attempted(Added(w, r), CommitKind) <==> Truthy(Get(c, "auto_commit", VNone)))
      && (Attempted(Added(w, r), BuildKind) <==> Truthy(Get(c, "auto_build", VNone)))
      && (Attempted(Added(w, r), DeployKind) <==> Truthy(Get(c, "auto_deploy", VNone)))
      && (Attempted(Added(w, r), PublishKind) <==> PublishWanted(c, s.snapshotDir))
      && (PublishWanted(c, s.snapshotDir) ==>
            r.log[|r.log| - 1].action == Publish(s.snapshotDir.value, PublishRequest(c, s.callingInfo.value)))
  {
    LaterStepsKind(s, w, fx, FileKind);
    LaterStepsKind(s, w, fx, CommitKind);
    LaterStepsKind(s, w, fx, BuildKind);
    LaterStepsKind(s, w, fx, DeployKind);
    LaterStepsKind(s, w, fx, PublishKind);
  }

  /** Appending keeps the earlier attempts at their positions. */
  lemma PrefixKept(w: World, m: World, r: World)
    requires Extends(w, m) && Extends(m, r)
    ensures Extends(w, r) && |Added(w, m)| <= |Added(w, r)|
    ensures forall i :: 0 <= i < |Added(w, m)| ==> Added(w, r)[i] == Added(w, m)[i]
  {
    ExtendsTrans(w, m, r);
  }

  /** Attempts of a kind other than a file action come from the later
      steps alone. */
  lemma KindsFromLater(w: World, w3: World, w4: World, r: World, k: Kind)
    requires Extends(w, w3) && Extends(w3, w4) && Extends(w4, r)
    requires OnlyFiles(Added(w, w3)) && OnlyFiles(Added(w3, w4)) && k != FileKind
    ensures Extends(w, r)
    ensures Attempted(Added(w, r), k) <==> Attempted(Added(w4, r), k)
  {
    ExtendsTrans(w, w3, w4);
    ExtendsTrans(w, w4, r);
    AttemptedAppend(Added(w, w3), Added(w3, w4), k);
    AttemptedAppend(Added(w, w4), Added(w4, r), k);
    OnlyFilesNot(Added(w, w3), k);
    OnlyFilesNot(Added(w3, w4), k);
  }

  /** The first attempts of a capture are those of the file steps. */
  lemma CaptureStartsWithFiles(s: Capture, w: World, fx: Effects)
    requires Ready(s)
    ensures var r := CreateSnapshot(s, w, fx);
      var w3 := FileSteps(s, w, fx);
      && Extends(w, w3) && Extends(w, r) && |Added(w, w3)| <= |Added(w, r)|
      && (forall i :: 0 <= i < |Added(w, w3)| ==> Added(w, r)[i] == Added(w, w3)[i])
  {
    var w3 := FileSteps(s, w, fx);
    var w4 := SiteStep(s.config, s.callingInfo.value, s.timestamp.value, s.filePaths.value, w3, fx);
    FileStepsAttempts(s, w, fx);
    SiteStepAttempts(s.config, s.callingInfo.value, s.timestamp.value, s.filePaths.value, w3, fx);
    LaterStepsAttempts(s, w4, fx);
    ExtendsTrans(w3, w4, CreateSnapshot(s, w, fx));
    PrefixKept(w, w3, CreateSnapshot(s, w, fx));
  }

  /** The kinds other than file actions that a capture attempts are
      those the later steps attempt. */
  lemma CaptureLaterKinds(s: Capture, w: World, fx: Effects)
    requires Ready(s)
    ensures var r := CreateSnapshot(s, w, fx);
      var c := s.config;
      && Extends(w, r)
      && (Attempted(Added(w, r), CommitKind) <==> Truthy(Get(c, "auto_commit", VNone)))
      && (Attempted(Added(w, r), BuildKind) <==> Truthy(Get(c, "auto_build", VNone)))
      && (Attempted(Added(w, r), DeployKind) <==> Truthy(Get(c, "auto_deploy", VNone)))
      && (Attempted(Added(w, r), PublishKind) <==> PublishWanted(c, s.snapshotDir))
      && (PublishWanted(c, s.snapshotDir) ==>
            r.log[|r.log| - 1].action == Publish(s.snapshotDir.value, PublishRequest(c, s.callingInfo.value)))
  {
    var w3 := FileSteps(s, w, fx);
    var w4 := SiteStep(s.config, s.callingInfo.value, s.timestamp.value, s.filePaths.value, w3, fx);
    var r := CreateSnapshot(s, w, fx);
    FileStepsAttempts(s, w, fx);
    SiteStepAttempts(s.config, s.callingInfo.value, s.timestamp.value, s.filePaths.value, w3, fx);
    LaterStepsAttempts(s, w4, fx);
    KindsFromLater(w, w3, w4, r, CommitKind);
    KindsFromLater(w, w3, w4, r, BuildKind);
    KindsFromLater(w, w3, w4, r, DeployKind);
    KindsFromLater(w, w3, w4, r, PublishKind);
  }

  /** The failure-containment contract of `_create_snapshot`: whatever
      fails, the code file is attempted first, the plot next when a
      figure is active, then the HTML page (with the plot path exactly
      when a figure is active, even if the save failed); commit, build and deploy are attempted
      exactly when their flags are set, and the cloud publish exactly
      when its settings are present, as the last attempt. */
  lemma CaptureAttempts(s: Capture, w: World, fx: Effects)
    requires Ready(s)
    ensures var r := CreateSnapshot(s, w, fx);
      var c, info, paths := s.config, s.callingInfo.value, s.filePaths.value;
      var h := if fx.hasFigure then 2 else 1;
      && Extends(w, r) && |Added(w, r)| > h
      && Added(w, r)[0].action == WriteCode(paths.code, info.sourceCode)
      && (fx.hasFigure ==> Added(w, r)[1].action == SavePlot(paths.plot, c["dpi"], c["bbox_inches"]))
      && Added(w, r)[h].action
        == HtmlAction(c, info, s.timestamp.value, paths, fx.hasFigure)
      && (Attempted(Added(w, r), CommitKind) <==> Truthy(Get(c, "auto_commit", VNone)))
      && (Attempted(Added(w, r), BuildKind) <==> Truthy(Get(c, "auto_build", VNone)))
      && (Attempted(Added(w, r), DeployKind) <==> Truthy(Get(c, "auto_deploy", VNone)))
      && (Attempted(Added(w, r), PublishKind) <==> PublishWanted(c, s.snapshotDir))
      && (PublishWanted(c, s.snapshotDir) ==>
            r.log[|r.log| - 1].action == Publish(s.snapshotDir.value, PublishRequest(c, info)))
  {
    FileStepsAttempts(s, w, fx);
    CaptureStartsWithFiles(s, w, fx);
    CaptureLaterKinds(s, w, fx);
  }

  /** A completed site build replaces the `docs` directory of the working
      directory, whatever the configured site: every path below it that
      the build does not write is gone (a capture directory there
      included), and no file outside it changes. */
  lemma BuildReplacesDocs(c: Dict, w: World, fx: Effects, q: Path)
    requires Truthy(Get(c, "auto_build", VNone)) && !fx.fails(w.fs, BuildAction(c, w.fs, fx))
    requires Below(q, fx.resolve("docs")) && q != fx.resolve("docs")
    requires q !in fx.build(w.fs, SiteDir(c)).dirs && q !in fx.build(w.fs, SiteDir(c)).files
    ensures !Exists(BuildStep(c, w, fx).fs, q)
    ensures forall p :: !Below(p, fx.resolve("docs")) ==> (p in BuildStep(c, w, fx).fs.files <==> p in w.fs.files)
  {
  }

  /** Before `__enter__` (or if it never completed) the exit does nothing. */
  lemma NothingBeforeEnter(s: Capture, w: World, fx: Effects)
    requires Consistent(s) && (s.callingInfo.None? || s.filePaths.None?)
    ensures CreateSnapshot(s, w, fx) == w
  {
  }

  // ----- the site entry -----

  /** A title that is not a string (None when the argument was not a
      string) makes `sanitize_filename` raise after the collection
      directory was made: at most that directory is attempted and no
      entry is written. */
  lemma NoTitleNoEntry(c: Dict, info: CallingInfo, token: string, paths: FilePaths, w: World, fx: Effects)
    requires !Get(c, "title", VStr("plot")).VStr?
    ensures var r := SiteStep(c, info, token, paths, w, fx);
      && Extends(w, r) && |Added(w, r)| <= 1
      && (|Added(w, r)| == 1 ==> Added(w, r)[0].action.MakeDir?)
  {
    var r := SiteStep(c, info, token, paths, w, fx);
    assert Extends(w, r) && |Added(w, r)| <= 1 by {
      SiteStepAttempts(c, info, token, paths, w, fx);
    }
  }

  /** No action fails. */
  ghost predicate NeverFails(fx: Effects) {
    forall fs, a :: !fx.fails(fs, a)
  }

  /** The directory of the site entry a capture makes. */
  function EntryDir(c: Dict, token: string, fx: Effects): Path
    requires Get(c, "site", VStr(".")).VStr? && Get(c, "collection", VStr("plots")).VStr? && Get(c, "title", VStr("plot")).VStr?
  {
    CollectionDir(fx.resolve(Get(c, "site", VStr(".")).s), Get(c, "collection", VStr("plots")).s)
      + [EntryName(token, Get(c, "title", VStr("plot")).s)]
  }

  /** Every action but the site build only adds paths. */
  lemma TryGrows(w: World, a: Action, fx: Effects)
    requires !a.BuildSite?
    ensures var r := Try(w, a, fx).0;
      w.fs.dirs <= r.fs.dirs && w.fs.files <= r.fs.files
  {
  }

  /** When nothing fails, the entry files land in the entry directory:
      the plot and code copies whenever those files existed, and
      `index.md` with the front-matter text as the last attempt. */
  lemma EntryFilesWritten(c: Dict, info: CallingInfo, paths: FilePaths, entry: Path, w: World, fx: Effects)
    requires NeverFails(fx)
    ensures var r := EntryFiles(c, info, paths, entry, w, fx);
      && w.fs.dirs <= r.fs.dirs && w.fs.files <= r.fs.files
      && (Exists(w.fs, paths.plot) ==> entry + ["plot.png"] in r.fs.files)
      && (Exists(w.fs, paths.code) ==> entry + ["code.py"] in r.fs.files)
      && entry + ["index.md"] in r.fs.files
      && |r.log| > 0 && r.log[|r.log| - 1] == Attempt(WriteText(entry + ["index.md"], IndexMd(c, info, fx)), true)
  {
    var t1 := CopyIfExists(w, paths.plot, entry + ["plot.png"], fx);
    assert !fx.fails(w.fs, CopyFile(paths.plot, entry + ["plot.png"]));
    var t2 := CopyIfExists(t1.0, paths.code, entry + ["code.py"], fx);
    assert !fx.fails(t1.0.fs, CopyFile(paths.code, entry + ["code.py"]));
    var a := WriteText(entry + ["index.md"], IndexMd(c, info, fx));
    assert !fx.fails(t2.0.fs, a);
  }

  /** When a site or collection is configured, `_config.yml` exists, the
      configured names and the title are strings and nothing fails, the
      capture creates `collections/<collection>/<token>_<title>` under the
      site and writes its `index.md` last. */
  lemma SiteEntryWritten(c: Dict, info: CallingInfo, token: string, paths: FilePaths, w: World, fx: Effects)
    requires NeverFails(fx) && SiteWanted(c)
    requires Get(c, "site", VStr(".")).VStr? && Get(c, "collection", VStr("plots")).VStr? && Get(c, "title", VStr("plot")).VStr?
    requires Exists(w.fs, fx.resolve(Get(c, "site", VStr(".")).s) + ["_config.yml"])
    ensures var r := SiteStep(c, info, token, paths, w, fx);
      var entry := EntryDir(c, token, fx);
      && entry in r.fs.dirs
      && entry + ["index.md"] in r.fs.files
      && (Exists(w.fs, paths.plot) ==> entry + ["plot.png"] in r.fs.files)
      && (Exists(w.fs, paths.code) ==> entry + ["code.py"] in r.fs.files)
      && |r.log| > 0 && r.log[|r.log| - 1] == Attempt(WriteText(entry + ["index.md"], IndexMd(c, info, fx)), true)
  {
    var site := Get(c, "site", VStr("."));
    var collection := Get(c, "collection", VStr("plots"));
    var collectionDir := CollectionDir(fx.resolve(site.s), collection.s);
    assert !fx.fails(w.fs, MakeDir(collectionDir));
    var t1 := Try(w, MakeDir(collectionDir), fx);
    var entry := EntryDir(c, token, fx);
    assert !fx.fails(t1.0.fs, MakeDir(entry));
    var t2 := Try(t1.0, MakeDir(entry), fx);
    assert entry in t2.0.fs.dirs;
    EntryFilesWritten(c, info, paths, entry, t2.0, fx);
  }

  /** The metadata record holds no None value and only the record's keys. */
  lemma EntryMetadataNoNone(c: Dict, info: CallingInfo, now: string)
    ensures var m := EntryMetadata(c, info, now);
      && (forall k :: k in m ==> m[k] != VNone)
      && m.Keys <= {"title", "date", "author", "description", "tags", "plot_image", "code_file", "function_name", "filename"}
  {
  }

  /** The title falls back to the function name; the date is the
      current time. */
  lemma MetadataTitleDate(c: Dict, info: CallingInfo, now: string)
    ensures var m := EntryMetadata(c, info, now);
      && "title" in m && m["title"] == Or(Get(c, "title", VNone), VStr(info.functionName))
      && "date" in m && m["date"] == VStr(now)
  {
    var d := EntryRecord(c, info, now);
    assert d["title"] != VNone;
  }

  /** The copied files are named `plot.png` and `code.py`. */
  lemma MetadataFiles(c: Dict, info: CallingInfo, now: string)
    ensures var m := EntryMetadata(c, info, now);
      && "plot_image" in m && m["plot_image"] == VStr("plot.png")
      && "code_file" in m && m["code_file"] == VStr("code.py")
  {
  }

  /** The capturing function and its file are recorded. */
  lemma MetadataOrigin(c: Dict, info: CallingInfo, now: string)
    ensures var m := EntryMetadata(c, info, now);
      && "function_name" in m && m["function_name"] == VStr(info.functionName)
      && "filename" in m && m["filename"] == VStr(info.filename)
  {
  }

  lemma MetadataAuthor(c: Dict, info: CallingInfo, now: string)
    ensures "author" in EntryMetadata(c, info, now) <==> Get(c, "author", VNone) != VNone
  {
  }

  lemma MetadataDescription(c: Dict, info: CallingInfo, now: string)
    ensures "description" in EntryMetadata(c, info, now) <==> Get(c, "description", VNone) != VNone
  {
  }

  lemma MetadataTags(c: Dict, info: CallingInfo, now: string)
    ensures "tags" in EntryMetadata(c, info, now) <==> Get(c, "tags", VList([])) != VNone
  {
  }

  /** The record has no `content` key, the one the site builder adds. */
  lemma MetadataNoContent(c: Dict, info: CallingInfo, now: string)
    ensures "content" !in EntryMetadata(c, info, now)
  {
  }

  /** The metadata record has no None value; its title is the configured
      title when truthy and the function name otherwise; the fixed fields
      are as written; `author`, `description` and `tags` appear exactly
      when they are not None. */
  lemma EntryMetadataProperties(c: Dict, info: CallingInfo, now: string)
    ensures var m := EntryMetadata(c, info, now);
      && (forall k :: k in m ==> m[k] != VNone)
      && m.Keys <= {"title", "date", "author", "description", "tags", "plot_image", "code_file", "function_name", "filename"}
      && "title" in m && m["title"] == Or(Get(c, "title", VNone), VStr(info.functionName))
      && "date" in m && m["date"] == VStr(now)
      && "plot_image" in m && m["plot_image"] == VStr("plot.png")
      && "code_file" in m && m["code_file"] == VStr("code.py")
      && "function_name" in m && m["function_name"] == VStr(info.functionName)
      && "filename" in m && m["filename"] == VStr(info.filename)
      && ("author" in m <==> Get(c, "author", VNone) != VNone)
      && ("description" in m <==> Get(c, "description", VNone) != VNone)
      && ("tags" in m <==> Get(c, "tags", VList([])) != VNone)
      && "content" !in m
  {
    EntryMetadataNoNone(c, info, now);
    MetadataTitleDate(c, info, now);
    MetadataFiles(c, info, now);
    MetadataOrigin(c, info, now);
    MetadataAuthor(c, info, now);
    MetadataDescription(c, info, now);
    MetadataTags(c, info, now);
    MetadataNoContent(c, info, now);
  }

  /** The body that follows the closing delimiter of `index.md`. */
  function IndexMdBody(c: Dict, info: CallingInfo, fx: Effects): string {
    "\n\n" + DescriptionParagraph(c, fx) + GeneratedLine(info)
  }

  /** The header of `index.md` as the site builder cuts it out. */
  function IndexMdHeader(c: Dict, info: CallingInfo, fx: Effects): string {
    "\n" + fx.dump(EntryMetadata(c, info, fx.now))
  }

  lemma IndexMdLayout(c: Dict, info: CallingInfo, fx: Effects)
    ensures IndexMd(c, info, fx) == "---" + IndexMdHeader(c, info, fx) + "---" + IndexMdBody(c, info, fx)
  {
    FrontMatterRegroup(fx.dump(EntryMetadata(c, info, fx.now)), DescriptionParagraph(c, fx), GeneratedLine(info));
  }

  /** The written text regrouped around its two delimiters. */
  lemma FrontMatterRegroup(dump: string, paragraph: string, line: string)
    ensures "---\n" + dump + "---\n\n" + paragraph + line == "---" + ("\n" + dump) + "---" + ("\n\n" + paragraph + line)
  {
    assert "---\n" == "---" + "\n";
    assert "---\n\n" == "---" + "\n\n";
  }

  /** The front-matter layout of `index.md` reads back through the site
      builder's parser: as long as the dumped YAML holds no `---`, the
      YAML library receives exactly the dump and Markdown receives the
      description paragraph and the closing line. */
  lemma IndexMdReadBack(c: Dict, info: CallingInfo, fx: Effects, env: SiteTree.Env)
    requires SiteMetadata.DelimiterFree(IndexMdHeader(c, info, fx))
    ensures SiteMetadata.ParseFrontMatter(IndexMd(c, info, fx), env)
      == SiteMetadata.HeaderRecord(env.yaml(IndexMdHeader(c, info, fx)), IndexMdBody(c, info, fx), env)
  {
    IndexMdLayout(c, info, fx);
    SiteMetadata.FrontMatterRoundTrip(IndexMdHeader(c, info, fx), IndexMdBody(c, info, fx), env);
  }

  /** A delimiter-free header that loads as a mapping without `content`
      reads back as that mapping plus `content`. */
  lemma MappingReadBack(header: string, body: string, m: Dict, env: SiteTree.Env)
    requires SiteMetadata.DelimiterFree(header)
    requires env.yaml(header) == Some(VMap(m)) && "content" !in m
    ensures var r := SiteMetadata.ParseFrontMatter("---" + header + "---" + body, env);
      && r.Ok? && r.value.Some?
      && r.value.value.Keys == m.Keys + {"content"}
      && (forall k :: k in m ==> r.value.value[k] == m[k])
  {
    SiteMetadata.FrontMatterRoundTrip(header, body, env);
  }

  /** When the YAML library loads back the record it dumped, the site
      builder reads every field of the metadata record unchanged, plus
      the rendered `content`. */
  lemma IndexMdRecord(c: Dict, info: CallingInfo, fx: Effects, env: SiteTree.Env)
    requires SiteMetadata.DelimiterFree(IndexMdHeader(c, info, fx))
    requires env.yaml(IndexMdHeader(c, info, fx)) == Some(VMap(EntryMetadata(c, info, fx.now)))
    ensures var r := SiteMetadata.ParseFrontMatter(IndexMd(c, info, fx), env);
      var m := EntryMetadata(c, info, fx.now);
      && r.Ok? && r.value.Some?
      && r.value.value.Keys == m.Keys + {"content"}
      && (forall k :: k in m ==> r.value.value[k] == m[k])
  {
    IndexMdLayout(c, info, fx);
    MetadataNoContent(c, info, fx.now);
    MappingReadBack(IndexMdHeader(c, info, fx), IndexMdBody(c, info, fx), EntryMetadata(c, info, fx.now), env);
  }

  lemma NoEarlyDelimiter(header: string, tail: string, i: nat, j: nat)
    requires Find(header, "---") == Some(i) && j < 1 + i
    ensures !OccursAt("\n" + header + tail, "---", j)
  {
    var s := "\n" + header + tail;
    if j == 0 {
      assert s[0] == '\n';
      assert |s| >= 3 ==> s[0..3][0] == '\n';
    } else {
      assert OccursAt(header, "---", i);
      OccursShift(header, tail, j - 1);
    }
  }

  /** Inside the header, an occurrence after the leading newline is an
      occurrence in the header one position earlier. */
  lemma OccursShift(header: string, tail: string, j: nat)
    requires j + 3 <= |header|
    ensures OccursAt("\n" + header + tail, "---", j + 1) <==> OccursAt(header, "---", j)
  {
    var s := "\n" + header + tail;
    assert s[j + 1..j + 4] == header[j..j + 3];
  }

  /** After the opening delimiter, the first `---` is the one inside the
      dumped header. */
  lemma EarlyDelimiterFound(dump: string, tail: string, i: nat)
    requires Find(dump, "---") == Some(i)
    ensures Find("\n" + dump + tail, "---") == Some(1 + i)
  {
    var rest := "\n" + dump + tail;
    assert OccursAt(dump, "---", i);
    assert rest[1 + i..1 + i + 3] == dump[i..i + 3];
    forall j | 0 <= j < 1 + i
      ensures !OccursAt(rest, "---", j)
    {
      NoEarlyDelimiter(dump, tail, i, j);
    }
    FindFirst(rest, "---", 1 + i);
  }

  /** The reader cuts the text after the opening `---` at the first
      delimiter it finds. */
  lemma ParseAfterOpening(content: string, rest: string, header: string, after: string, env: SiteTree.Env, j: nat)
    requires Find(rest, "---") == Some(j)
    requires content == "---" + rest
    requires header == rest[..j] && after == rest[j + 3..]
    ensures SiteMetadata.ParseFrontMatter(content, env) == SiteMetadata.HeaderRecord(env.yaml(header), after, env)
  {
    assert content[..3] == "---" && content[3..] == rest;
  }

  /** Where the pieces of `---\n<dump>---<body>` fall when the dump is cut
      at position `i`. */
  lemma CutLayout(dump: string, body: string, i: nat)
    requires i + 3 <= |dump|
    ensures var rest := "\n" + dump + ("---" + body);
      && "---" + "\n" + dump + "---" + body == "---" + rest
      && rest[..1 + i] == "\n" + dump[..i]
      && rest[1 + i + 3..] == dump[i + 3..] + "---" + body
  {
    var tail := "---" + body;
    var rest := "\n" + dump + tail;
    assert "---" + "\n" + dump + "---" + body == "---" + rest;
    assert rest[..1 + i] == "\n" + dump[..i];
    assert rest[1 + i + 3..] == dump[i + 3..] + tail;
  }

  /** A `---` inside a dumped header closes it early. */
  lemma DelimiterCutsHeader(dump: string, body: string, env: SiteTree.Env, i: nat)
    requires Find(dump, "---") == Some(i)
    ensures SiteMetadata.ParseFrontMatter("---" + "\n" + dump + "---" + body, env)
      == SiteMetadata.HeaderRecord(env.yaml("\n" + dump[..i]), dump[i + 3..] + "---" + body, env)
  {
    EarlyDelimiterFound(dump, "---" + body, i);
    CutLayout(dump, body, i);
    ParseAfterOpening("---" + "\n" + dump + "---" + body, "\n" + dump + ("---" + body),
      "\n" + dump[..i], dump[i + 3..] + "---" + body, env, 1 + i);
  }

  /** A `---` inside the dumped YAML (a title such as `A --- B`) closes
      the header early: the YAML library receives only the text before it
      and the rest of the header becomes part of the Markdown body. */
  lemma DelimiterInHeaderCutsIt(c: Dict, info: CallingInfo, fx: Effects, env: SiteTree.Env, i: nat)
    requires Find(fx.dump(EntryMetadata(c, info, fx.now)), "---") == Some(i)
    ensures var dump := fx.dump(EntryMetadata(c, info, fx.now));
      SiteMetadata.ParseFrontMatter(IndexMd(c, info, fx), env)
        == SiteMetadata.HeaderRecord(env.yaml("\n" + dump[..i]), dump[i + 3..] + "---" + IndexMdBody(c, info, fx), env)
  {
    var dump := fx.dump(EntryMetadata(c, info, fx.now));
    IndexMdLayout(c, info, fx);
    assert IndexMd(c, info, fx) == "---" + "\n" + dump + "---" + IndexMdBody(c, info, fx);
    DelimiterCutsHeader(dump, IndexMdBody(c, info, fx), env, i);
  }

  /** The entry directory of a capture is one the site builder lists: its
      name does not start with `_`, and its first two `_`-separated pieces
      are the token's date and time, the text the builder hands to
      strptime when the entry has no `index.md`. */
  lemma EntryNameListed(t: Instant, title: string, children: seq<SiteTree.Node>)
    ensures var name := EntryName(Token(t), title);
      && SitePlots.IsPlotDir(SiteTree.Dir(name, children))
      && SiteMetadata.StampText(name) == Some(Token(t)[..15])
  {
    var tok := Token(t);
    var name := EntryName(tok, title);
    TokenLayout(t);
    assert name[..19] == tok;
    assert forall i :: 0 <= i < 19 ==> name[i] == tok[i];
    assert name[0] == tok[0] && IsDigit(tok[0]);
    assert !StartsWith(name, "_");
    StampOfName(name);
    assert name[..15] == tok[..15];
  }

  /** The first `_` of a text at index `i`. */
  lemma IndexOfAt(s: string, c: char, i: nat)
    requires i < |s| && s[i] == c && forall k :: 0 <= k < i ==> s[k] != c
    ensures IndexOf(s, c) == Some(i)
  {
    assert c in s;
  }

  /** A name whose first two `_` are at indices 8 and 15 hands its first
      fifteen characters to strptime. */
  lemma StampOfName(name: string)
    requires |name| >= 16 && name[8] == '_' && name[15] == '_'
    requires forall i :: 0 <= i < 15 && i != 8 ==> name[i] != '_'
    ensures SiteMetadata.StampText(name) == Some(name[..15])
  {
    IndexOfAt(name, '_', 8);
    var after := name[9..];
    IndexOfAt(after, '_', 6);
    SplitPieces(after, '_');
    assert Split(name, '_') == [name[..8]] + Split(after, '_');
    assert Split(name, '_')[1] == after[..6];
    assert name[..8] + "_" + after[..6] == name[..15];
  }

  /** The `'plot'` fallback for the entry title and the `'Unnamed plot'`
      fallback of the commit message are never used: every constructed
      configuration has a `title`. */
  lemma TitleFallbacksDead(a: Args)
    ensures Get(ContextConfig(a), "title", VStr("plot")) == Get(ContextConfig(a), "title", VStr("Unnamed plot"))
    ensures Get(ContextConfig(a), "title", VStr("plot")).VStr? <==> a.title.VStr?
  {
    ContextConfigDefaults(a);
  }

  /** A capture from the decorator never publishes: the decorator passes
      no cloud settings. */
  lemma DecoratorNeverPublishes(d: DecoratorArgs, dir: Option<Path>)
    ensures !PublishWanted(ContextConfig(ContextArgs(d)), dir)
  {
    NoCloudUrl(ContextArgs(d));
  }
}
