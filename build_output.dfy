/** What a successful `SiteGenerator.build` leaves in the output directory:
    the index page, one gallery per collection, one detail page per plot
    and the copied plot files, each at the path the templates' relative
    links (`base_path`) expect. */
module BuildOutput {

  import opened Values
  import opened Text
  import opened SiteTree
  import opened SiteMetadata
  import opened SitePlots
  import opened SiteBuild
  import FileManager

  /** The artifact of the last change that writes path `p`, if any. */
  function LastPut(ws: seq<Write>, p: OutPath): Option<Artifact>
    decreases |ws|
  {
    if ws == [] then None
    else if ws[|ws| - 1].Put? && ws[|ws| - 1].path == p then Some(ws[|ws| - 1].artifact)
    else LastPut(ws[..|ws| - 1], p)
  }

  /** A file of the final tree is the last one written to its path, or was
      there before and never written. */
  lemma {:induction false} ApplyFiles(t: Tree, ws: seq<Write>, p: OutPath)
    ensures p in Apply(t, ws).files <==> LastPut(ws, p).Some? || p in t.files
    ensures LastPut(ws, p).Some? ==> Apply(t, ws).files[p] == LastPut(ws, p).value
    ensures LastPut(ws, p).None? && p in t.files ==> Apply(t, ws).files[p] == t.files[p]
    decreases |ws|
  {
    if ws != [] {
      var front, w := ws[..|ws| - 1], ws[|ws| - 1];
      ApplyFiles(t, front, p);
      assert front + [w] == ws;
      ApplyAppend(t, front, [w]);
      ApplyOne(Apply(t, front), w);
    }
  }

  lemma {:induction false} LastPutAppend(a: seq<Write>, b: seq<Write>, p: OutPath)
    ensures LastPut(a + b, p) == if LastPut(b, p).Some? then LastPut(b, p) else LastPut(a, p)
    decreases |b|
  {
    if b == [] {
      assert a + b == a;
    } else {
      var front := b[..|b| - 1];
      assert (a + b)[..|a + b| - 1] == a + front;
      assert (a + b)[|a + b| - 1] == b[|b| - 1];
      LastPutAppend(a, front, p);
    }
  }

  /** The last write to `p` is one of the writes to `p`. */
  lemma {:induction false} LastPutIn(ws: seq<Write>, p: OutPath)
    requires LastPut(ws, p).Some?
    ensures exists k :: 0 <= k < |ws| && ws[k] == Put(p, LastPut(ws, p).value)
    decreases |ws|
  {
    if !(ws[|ws| - 1].Put? && ws[|ws| - 1].path == p) {
      var front := ws[..|ws| - 1];
      LastPutIn(front, p);
      var k :| 0 <= k < |front| && front[k] == Put(p, LastPut(front, p).value);
      assert ws[k] == front[k];
    }
  }

  /** A path that is written has a last write. */
  lemma {:induction false} LastPutSome(ws: seq<Write>, p: OutPath, k: nat)
    requires k < |ws| && ws[k].Put? && ws[k].path == p
    ensures LastPut(ws, p).Some?
    decreases |ws|
  {
    if k < |ws| - 1 && !(ws[|ws| - 1].Put? && ws[|ws| - 1].path == p) {
      LastPutSome(ws[..|ws| - 1], p, k);
    }
  }

  /** A path no change writes has no last write. */
  lemma {:induction false} LastPutNone(ws: seq<Write>, p: OutPath)
    requires forall k :: 0 <= k < |ws| && ws[k].Put? ==> ws[k].path != p
    ensures LastPut(ws, p).None?
    decreases |ws|
  {
    if ws != [] {
      LastPutNone(ws[..|ws| - 1], p);
    }
  }

  /** Every file written by `ws` sits at a path of length `n`. */
  predicate PutDepth(ws: seq<Write>, n: nat) {
    forall k :: 0 <= k < |ws| && ws[k].Put? ==> |ws[k].path| == n
  }

  // ----- the structure of a successful build -----

  /** A build that raises nothing found its plots and completed each step. */
  lemma BuildSteps(g: Generator)
    requires BuildWrites(g).err.None?
    ensures AllPlots(g.site, g.env).Ok?
    ensures var plots := AllPlots(g.site, g.env).value;
      && CopyOutcome(g.site).err.None? && IndexOutcome(g, plots).err.None?
      && GalleriesOutcome(g, plots).err.None? && PlotPagesOutcome(g, plots).err.None?
      && BuildWrites(g).writes == CopyOutcome(g.site).writes
           + (IndexOutcome(g, plots).writes + (GalleriesOutcome(g, plots).writes + PlotPagesOutcome(g, plots).writes))
  {
  }

  lemma {:induction false} GalleryLoopDepth(g: Generator, plots: seq<Plot>, names: seq<Value>)
    requires GalleryLoop(g, plots, names).err.None?
    ensures PutDepth(GalleryLoop(g, plots, names).writes, 2)
    decreases |names|
  {
    if names != [] {
      GalleryLoopDepth(g, plots, names[..|names| - 1]);
    }
  }

  /** The galleries write only `<collection>/index.html`. */
  lemma GalleriesDepth(g: Generator, plots: seq<Plot>)
    requires GalleriesOutcome(g, plots).err.None?
    ensures PutDepth(GalleriesOutcome(g, plots).writes, 2)
  {
    GalleryLoopDepth(g, plots, GroupNames(plots));
  }

  /** A `plot.html` page for a record whose collection and slug name the
      directory it is written to, with the links two levels up. */
  predicate PlotPageAt(config: Value, w: Write) {
    w.Put? ==>
      && |w.path| == 3 && w.path[2] == "index.html"
      && w.artifact.Render? && w.artifact.template == "plot.html"
      && w.artifact.page.PlotPage? && w.artifact.page.site == config && w.artifact.page.basePath == "../.."
      && "collection" in w.artifact.page.plot && w.artifact.page.plot["collection"] == VStr(w.path[0])
      && "slug" in w.artifact.page.plot && w.artifact.page.plot["slug"] == VStr(w.path[1])
  }

  /** `<stem>_content` is never `collection` nor `slug`. */
  lemma ContentKeyNotTag(name: string)
    ensures ContentKey(name) != "collection" && ContentKey(name) != "slug"
  {
    var k := ContentKey(name);
    var stem := PathStem(name);
    assert k == stem + "_content";
    if |k| == 10 {
      assert k[|stem|] == '_';
      assert |stem| == 2;
      assert "collection"[2] == 'l';
    }
  }

  /** `_load_full_plot_data` keeps the record's collection and slug. */
  lemma FullPlotDataKeepsTags(entries: seq<Node>, base: Dict)
    requires FullPlotData(entries, base).Ok? && "collection" in base && "slug" in base
    ensures FullPlotData(entries, base).value["collection"] == base["collection"]
    ensures FullPlotData(entries, base).value["slug"] == base["slug"]
  {
    forall i | 0 <= i < |entries| && CarriesContent(entries[i])
      ensures ContentKey(entries[i].name) != "collection" && ContentKey(entries[i].name) != "slug"
    {
      ContentKeyNotTag(entries[i].name);
    }
    FullPlotDataProperties(entries, base);
  }

  lemma PlotPageForAt(g: Generator, plot: Plot)
    requires PlotPageFor(g, plot).Ok?
    ensures forall k :: 0 <= k < 2 ==> PlotPageAt(g.config, PlotPageFor(g, plot).value[k])
  {
    var c, s := plot["collection"].s, plot["slug"].s;
    var entries := PlotDirEntries(g.site, c, s).value;
    FullPlotDataKeepsTags(entries, plot);
  }

  /** A completed page loop is the loop over all but the last record,
      then the last record's pages. */
  lemma PlotPageLoopSplit(g: Generator, plots: seq<Plot>)
    requires plots != [] && PlotPageLoop(g, plots).err.None?
    ensures PlotPageLoop(g, plots[..|plots| - 1]).err.None? && PlotPageFor(g, plots[|plots| - 1]).Ok?
    ensures PlotPageLoop(g, plots).writes
      == PlotPageLoop(g, plots[..|plots| - 1]).writes + PlotPageFor(g, plots[|plots| - 1]).value
  {
  }

  /** Every write of `ws` is a `plot.html` page where it belongs. */
  predicate AllPlotPagesAt(config: Value, ws: seq<Write>) {
    forall k :: 0 <= k < |ws| ==> PlotPageAt(config, ws[k])
  }

  lemma AllPlotPagesAtAppend(config: Value, a: seq<Write>, b: seq<Write>)
    requires AllPlotPagesAt(config, a) && AllPlotPagesAt(config, b)
    ensures AllPlotPagesAt(config, a + b)
  {
    forall k | 0 <= k < |a + b| ensures PlotPageAt(config, (a + b)[k]) {
      if k < |a| {
        assert (a + b)[k] == a[k];
      } else {
        assert (a + b)[k] == b[k - |a|];
      }
    }
  }

  lemma {:induction false} PlotPageLoopAt(g: Generator, plots: seq<Plot>)
    requires PlotPageLoop(g, plots).err.None?
    ensures forall k :: 0 <= k < |PlotPageLoop(g, plots).writes| ==> PlotPageAt(g.config, PlotPageLoop(g, plots).writes[k])
    decreases |plots|
  {
    if plots != [] {
      var front := plots[..|plots| - 1];
      PlotPageLoopSplit(g, plots);
      PlotPageLoopAt(g, front);
      PlotPageForAt(g, plots[|plots| - 1]);
      AllPlotPagesAtAppend(g.config, PlotPageLoop(g, front).writes, PlotPageFor(g, plots[|plots| - 1]).value);
    }
  }

  // ----- the pages of a successful build -----

  /** `index.html` holds the `default.html` page with the twelve newest
      plots, the collections in order of first appearance with their
      plots, the title "Home" and an empty base path. */
  lemma IndexPageWritten(g: Generator, before: Tree)
    requires BuildResult(g, before, false).1.None?
    ensures AllPlots(g.site, g.env).Ok?
    ensures var plots := AllPlots(g.site, g.env).value;
      var files := BuildResult(g, before, false).0.files;
      && ["index.html"] in files
      && files[["index.html"]] == Render("default.html",
           IndexPage(g.config, IndexPlots(plots), GroupNames(plots), GroupMap(plots), VStr("Home"), ""))
  {
    BuildSteps(g);
    var plots := AllPlots(g.site, g.env).value;
    var copy, index, gal, pages := CopyOutcome(g.site), IndexOutcome(g, plots), GalleriesOutcome(g, plots),
      PlotPagesOutcome(g, plots);
    var p: OutPath := ["index.html"];
    GalleriesDepth(g, plots);
    PlotPageLoopAt(g, plots);
    LastPutNone(gal.writes + pages.writes, p);
    LastPutAppend(index.writes, gal.writes + pages.writes, p);
    LastPutAppend(copy.writes, index.writes + (gal.writes + pages.writes), p);
    ApplyFiles(Tree({[]}, map[]), BuildWrites(g).writes, p);
  }

  lemma GalleryLoopSplit(g: Generator, plots: seq<Plot>, names: seq<Value>)
    requires names != [] && GalleryLoop(g, plots, names).err.None?
    ensures GalleryLoop(g, plots, names[..|names| - 1]).err.None? && GalleryFor(g, plots, names[|names| - 1]).Ok?
    ensures GalleryLoop(g, plots, names).writes
      == GalleryLoop(g, plots, names[..|names| - 1]).writes + GalleryFor(g, plots, names[|names| - 1]).value
  {
  }

  /** A directory and then one file: the file is the only write. */
  lemma LastPutPair(d: OutPath, q: OutPath, a: Artifact, p: OutPath)
    ensures LastPut([MkDir(d), Put(q, a)], p) == if q == p then Some(a) else None
  {
    var ws := [MkDir(d), Put(q, a)];
    assert ws[..1] == [MkDir(d)];
    assert [MkDir(d)][..0] == [];
    assert LastPut([MkDir(d)], p) == LastPut([], p) == None;
  }

  /** One gallery writes its own `index.html` and no other. */
  lemma GalleryForLast(g: Generator, plots: seq<Plot>, n: Value, c: Value)
    requires GalleryFor(g, plots, n).Ok? && GalleryFor(g, plots, c).Ok?
    ensures LastPut(GalleryFor(g, plots, n).value, [c.s, "index.html"])
      == if n == c then Some(GalleryFor(g, plots, c).value[1].artifact) else None
  {
    var ws := GalleryFor(g, plots, n).value;
    assert ws == [MkDir([n.s]), Put([n.s, "index.html"], ws[1].artifact)];
    LastPutPair([n.s], [n.s, "index.html"], ws[1].artifact, [c.s, "index.html"]);
  }

  /** The galleries write `<c>/index.html` once for each collection. */
  lemma {:induction false} GalleryLoopLast(g: Generator, plots: seq<Plot>, names: seq<Value>, c: Value)
    requires GalleryLoop(g, plots, names).err.None? && c in names
    requires forall i, j :: 0 <= i < j < |names| ==> names[i] != names[j]
    ensures GalleryFor(g, plots, c).Ok?
    ensures LastPut(GalleryLoop(g, plots, names).writes, [c.s, "index.html"]) == Some(GalleryFor(g, plots, c).value[1].artifact)
    decreases |names|
  {
    var front, n := names[..|names| - 1], names[|names| - 1];
    GalleryLoopSplit(g, plots, names);
    if n != c {
      assert c in front;
      GalleryLoopLast(g, plots, front, c);
    }
    GalleryForLast(g, plots, n, c);
    LastPutAppend(GalleryLoop(g, plots, front).writes, GalleryFor(g, plots, n).value, [c.s, "index.html"]);
  }

  /** Each collection's `index.html` holds its `gallery.html` page: its
      record, its plots in sorted order and `..` as base path. */
  lemma GalleryPagesWritten(g: Generator, before: Tree)
    requires BuildResult(g, before, false).1.None?
    ensures AllPlots(g.site, g.env).Ok?
    ensures var plots := AllPlots(g.site, g.env).value;
      var files := BuildResult(g, before, false).0.files;
      forall c :: c in GroupNames(plots) ==>
        && c.VStr? && [c.s, "index.html"] in files
        && LoadCollectionMetadata(CollectionsListing(g.site), c.s, g.env).Ok?
        && var meta := LoadCollectionMetadata(CollectionsListing(g.site), c.s, g.env).value;
           files[[c.s, "index.html"]] == Render("gallery.html",
             GalleryPage(g.config, meta, Members(plots, c), Get(meta, "title", c), ".."))
  {
    BuildSteps(g);
    var plots := AllPlots(g.site, g.env).value;
    forall c | c in GroupNames(plots)
      ensures c.VStr? && [c.s, "index.html"] in BuildResult(g, before, false).0.files
      ensures LoadCollectionMetadata(CollectionsListing(g.site), c.s, g.env).Ok?
      ensures var meta := LoadCollectionMetadata(CollectionsListing(g.site), c.s, g.env).value;
        BuildResult(g, before, false).0.files[[c.s, "index.html"]] == Render("gallery.html",
          GalleryPage(g.config, meta, Members(plots, c), Get(meta, "title", c), ".."))
    {
      GalleryPageOf(g, before, c);
    }
  }

  /** The gallery page of one collection. */
  lemma GalleryPageOf(g: Generator, before: Tree, c: Value)
    requires BuildResult(g, before, false).1.None?
    requires AllPlots(g.site, g.env).Ok? && c in GroupNames(AllPlots(g.site, g.env).value)
    ensures c.VStr? && [c.s, "index.html"] in BuildResult(g, before, false).0.files
    ensures LoadCollectionMetadata(CollectionsListing(g.site), c.s, g.env).Ok?
    ensures var meta := LoadCollectionMetadata(CollectionsListing(g.site), c.s, g.env).value;
      BuildResult(g, before, false).0.files[[c.s, "index.html"]] == Render("gallery.html",
        GalleryPage(g.config, meta, Members(AllPlots(g.site, g.env).value, c), Get(meta, "title", c), ".."))
  {
    BuildSteps(g);
    var plots := AllPlots(g.site, g.env).value;
    var copy, index, gal, pages := CopyOutcome(g.site), IndexOutcome(g, plots), GalleriesOutcome(g, plots),
      PlotPagesOutcome(g, plots);
    GroupNamesDistinct(plots);
    GalleryLoopLast(g, plots, GroupNames(plots), c);
    var p: OutPath := [c.s, "index.html"];
    PlotPagesAvoidShort(g, plots, p);
    LastPutThird(copy.writes, index.writes, gal.writes, pages.writes, p);
    ApplyFiles(Tree({[]}, map[]), BuildWrites(g).writes, p);
  }

  /** The plot pages write nothing at a path of two components. */
  lemma PlotPagesAvoidShort(g: Generator, plots: seq<Plot>, p: OutPath)
    requires PlotPagesOutcome(g, plots).err.None? && |p| == 2
    ensures LastPut(PlotPagesOutcome(g, plots).writes, p).None?
  {
    assert PlotPagesOutcome(g, plots) == PlotPageLoop(g, plots);
    PlotPageLoopAt(g, plots);
    LastPutNone(PlotPageLoop(g, plots).writes, p);
  }

  /** The last write at `p` of four stages comes from the third when the
      fourth does not write `p`. */
  lemma LastPutThird(a: seq<Write>, b: seq<Write>, c: seq<Write>, d: seq<Write>, p: OutPath)
    requires LastPut(c, p).Some? && LastPut(d, p).None?
    ensures LastPut(a + (b + (c + d)), p) == LastPut(c, p)
  {
    LastPutAppend(c, d, p);
    LastPutAppend(b, c + d, p);
    LastPutAppend(a, b + (c + d), p);
  }

  /** Every plot gets `<collection>/<slug>/index.html`, a `plot.html` page
      for a record with that collection and slug and `../..` as base
      path. */
  lemma PlotPagesWritten(g: Generator, before: Tree)
    requires BuildResult(g, before, false).1.None?
    ensures AllPlots(g.site, g.env).Ok?
    ensures var plots := AllPlots(g.site, g.env).value;
      var files := BuildResult(g, before, false).0.files;
      forall i :: 0 <= i < |plots| ==>
        && "collection" in plots[i] && plots[i]["collection"].VStr?
        && "slug" in plots[i] && plots[i]["slug"].VStr?
        && var p := [plots[i]["collection"].s, plots[i]["slug"].s, "index.html"];
           p in files && PlotPageAt(g.config, Put(p, files[p]))
  {
    BuildSteps(g);
    var plots := AllPlots(g.site, g.env).value;
    var copy, index, gal, pages := CopyOutcome(g.site), IndexOutcome(g, plots), GalleriesOutcome(g, plots),
      PlotPagesOutcome(g, plots);
    PlotPageLoopAt(g, plots);
    forall i | 0 <= i < |plots|
      ensures "collection" in plots[i] && plots[i]["collection"].VStr? && "slug" in plots[i] && plots[i]["slug"].VStr?
      ensures var p := [plots[i]["collection"].s, plots[i]["slug"].s, "index.html"];
        var files := BuildResult(g, before, false).0.files;
        p in files && PlotPageAt(g.config, Put(p, files[p]))
    {
      PlotPageOfPlot(g, plots, i);
      var p := [plots[i]["collection"].s, plots[i]["slug"].s, "index.html"];
      LastPutAppend(gal.writes, pages.writes, p);
      LastPutAppend(index.writes, gal.writes + pages.writes, p);
      LastPutAppend(copy.writes, index.writes + (gal.writes + pages.writes), p);
      ApplyFiles(Tree({[]}, map[]), BuildWrites(g).writes, p);
    }
  }

  /** When every write is a plot page, so is the last write to a path. */
  lemma LastPutPlotPage(config: Value, ws: seq<Write>, p: OutPath)
    requires AllPlotPagesAt(config, ws) && LastPut(ws, p).Some?
    ensures PlotPageAt(config, Put(p, LastPut(ws, p).value))
  {
    LastPutIn(ws, p);
    var k :| 0 <= k < |ws| && ws[k] == Put(p, LastPut(ws, p).value);
    assert PlotPageAt(config, ws[k]);
  }

  /** A plot's page path is written by the loop. */
  lemma PlotPagePathWritten(g: Generator, plots: seq<Plot>, i: nat)
    requires PlotPageLoop(g, plots).err.None? && i < |plots|
    ensures "collection" in plots[i] && plots[i]["collection"].VStr? && "slug" in plots[i] && plots[i]["slug"].VStr?
    ensures LastPut(PlotPageLoop(g, plots).writes, [plots[i]["collection"].s, plots[i]["slug"].s, "index.html"]).Some?
  {
    var ws := PlotPageLoop(g, plots).writes;
    PlotPageWrittenIn(g, plots, i);
    var w := PlotPageFor(g, plots[i]).value[1];
    var k :| 0 <= k < |ws| && ws[k] == w;
    LastPutSome(ws, w.path, k);
  }

  /** The last write to a plot's page path is a plot page. */
  lemma PlotPageOfPlot(g: Generator, plots: seq<Plot>, i: nat)
    requires PlotPageLoop(g, plots).err.None? && i < |plots|
    ensures "collection" in plots[i] && plots[i]["collection"].VStr? && "slug" in plots[i] && plots[i]["slug"].VStr?
    ensures var p := [plots[i]["collection"].s, plots[i]["slug"].s, "index.html"];
      && LastPut(PlotPageLoop(g, plots).writes, p).Some?
      && PlotPageAt(g.config, Put(p, LastPut(PlotPageLoop(g, plots).writes, p).value))
  {
    PlotPagePathWritten(g, plots, i);
    PlotPageLoopAt(g, plots);
    var p := [plots[i]["collection"].s, plots[i]["slug"].s, "index.html"];
    LastPutPlotPage(g.config, PlotPageLoop(g, plots).writes, p);
  }

  /** The plot-page loop writes each plot's page path. */
  lemma {:induction false} PlotPageWrittenIn(g: Generator, plots: seq<Plot>, i: nat)
    requires PlotPageLoop(g, plots).err.None? && i < |plots|
    ensures PlotPageFor(g, plots[i]).Ok?
    ensures exists k :: (0 <= k < |PlotPageLoop(g, plots).writes|
      && PlotPageLoop(g, plots).writes[k] == PlotPageFor(g, plots[i]).value[1])
    decreases |plots|
  {
    var front := plots[..|plots| - 1];
    var prev := PlotPageLoop(g, front).writes;
    var ws := PlotPageFor(g, plots[|plots| - 1]).value;
    assert PlotPageLoop(g, plots).writes == prev + ws;
    if i == |plots| - 1 {
      assert (prev + ws)[|prev| + 1] == ws[1];
    } else {
      assert plots[i] == front[i];
      PlotPageWrittenIn(g, front, i);
      var k :| 0 <= k < |prev| && prev[k] == PlotPageFor(g, front[i]).value[1];
      assert (prev + ws)[k] == prev[k];
    }
  }

  // ----- the copied plot files -----

  /** Every file `ws` writes lies in `<c>/<p>/`. */
  predicate FilesUnder(ws: seq<Write>, c: string, p: string) {
    forall k :: 0 <= k < |ws| && ws[k].Put? ==> |ws[k].path| == 3 && ws[k].path[0] == c && ws[k].path[1] == p
  }

  /** Every file `ws` writes lies two levels below `<c>/`. */
  predicate FilesIn(ws: seq<Write>, c: string) {
    forall k :: 0 <= k < |ws| && ws[k].Put? ==> |ws[k].path| == 3 && ws[k].path[0] == c
  }

  lemma {:induction false} FileCopiesUnder(c: string, p: string, fs: seq<Node>)
    ensures FilesUnder(FileCopies(c, p, fs), c, p)
    decreases |fs|
  {
    if fs != [] {
      FileCopiesUnder(c, p, fs[..|fs| - 1]);
    }
  }

  lemma PlotCopyUnder(c: string, n: Node)
    ensures FilesUnder(PlotCopy(c, n), c, n.name)
  {
    if IsPlotDir(n) {
      FileCopiesUnder(c, n.name, n.children);
    }
  }

  lemma {:induction false} PlotCopiesIn(c: string, ns: seq<Node>)
    ensures FilesIn(PlotCopies(c, ns), c)
    decreases |ns|
  {
    if ns != [] {
      PlotCopiesIn(c, ns[..|ns| - 1]);
      PlotCopyUnder(c, ns[|ns| - 1]);
    }
  }

  lemma CollectionCopyIn(n: Node)
    ensures FilesIn(CollectionCopy(n), n.name)
  {
    if n.Dir? {
      PlotCopiesIn(n.name, n.children);
    }
  }

  /** In an entry directory, a file not ending in `.md` is copied last by
      its own copy. */
  lemma {:induction false} FileCopiesLast(c: string, p: string, fs: seq<Node>, k: nat)
    requires k < |fs| && UniqueNames(fs) && fs[k].File? && !EndsWith(fs[k].name, ".md")
    ensures LastPut(FileCopies(c, p, fs), [c, p, fs[k].name]) == Some(Copy(fs[k].text))
    decreases |fs|
  {
    var front, m := fs[..|fs| - 1], fs[|fs| - 1];
    var target := [c, p, fs[k].name];
    LastPutAppend(FileCopies(c, p, front), FileCopy(c, p, m), target);
    if k == |fs| - 1 {
      assert FileCopy(c, p, m) == [Put(target, Copy(m.text))];
      assert [Put(target, Copy(m.text))][..0] == [];
    } else {
      assert front[k] == fs[k];
      FileCopiesLast(c, p, front, k);
      assert m.name != fs[k].name;
      LastPutNone(FileCopy(c, p, m), target);
    }
  }

  /** The copies of a collection's entries leave the last copy of an
      entry's file in place. */
  lemma {:induction false} PlotCopiesLast(c: string, ns: seq<Node>, j: nat, target: OutPath, x: Artifact)
    requires j < |ns| && UniqueNames(ns) && IsPlotDir(ns[j]) && |target| == 3 && target[0] == c && target[1] == ns[j].name
    requires LastPut(FileCopies(c, ns[j].name, ns[j].children), target) == Some(x)
    ensures LastPut(PlotCopies(c, ns), target) == Some(x)
    decreases |ns|
  {
    var front, m := ns[..|ns| - 1], ns[|ns| - 1];
    LastPutAppend(PlotCopies(c, front), PlotCopy(c, m), target);
    if j == |ns| - 1 {
      LastPutAppend([MkDir([c, m.name])], FileCopies(c, m.name, m.children), target);
    } else {
      assert front[j] == ns[j];
      PlotCopiesLast(c, front, j, target, x);
      assert m.name != ns[j].name;
      PlotCopyUnder(c, m);
      LastPutNone(PlotCopy(c, m), target);
    }
  }

  /** The copies of all collections leave the last copy of a collection's
      file in place. */
  lemma {:induction false} CollectionCopiesLast(cs: seq<Node>, i: nat, target: OutPath, x: Artifact)
    requires i < |cs| && UniqueNames(cs) && cs[i].Dir? && |target| == 3 && target[0] == cs[i].name
    requires LastPut(PlotCopies(cs[i].name, cs[i].children), target) == Some(x)
    ensures LastPut(CollectionCopies(cs), target) == Some(x)
    decreases |cs|
  {
    var front, m := cs[..|cs| - 1], cs[|cs| - 1];
    LastPutAppend(CollectionCopies(front), CollectionCopy(m), target);
    if i == |cs| - 1 {
      LastPutAppend([MkDir([m.name])], PlotCopies(m.name, m.children), target);
    } else {
      assert front[i] == cs[i];
      CollectionCopiesLast(front, i, target, x);
      assert m.name != cs[i].name;
      CollectionCopyIn(m);
      LastPutNone(CollectionCopy(m), target);
    }
  }

  /** The pages write nothing at a depth-3 path not named `index.html`. */
  lemma PagesAvoid(g: Generator, plots: seq<Plot>, target: OutPath)
    requires IndexOutcome(g, plots).err.None? && GalleriesOutcome(g, plots).err.None?
    requires PlotPagesOutcome(g, plots).err.None?
    requires |target| == 3 && target[2] != "index.html"
    ensures LastPut(IndexOutcome(g, plots).writes
      + (GalleriesOutcome(g, plots).writes + PlotPagesOutcome(g, plots).writes), target).None?
  {
    var a, b, c := IndexOutcome(g, plots).writes, GalleriesOutcome(g, plots).writes, PlotPagesOutcome(g, plots).writes;
    GalleriesDepth(g, plots);
    assert c == PlotPageLoop(g, plots).writes;
    PlotPageLoopAt(g, plots);
    LastPutNone(a, target);
    LastPutNone(b, target);
    LastPutNone(c, target);
    LastPutAppend(b, c, target);
    LastPutAppend(a, b + c, target);
  }

  /** After the copy step, the file is the copy of the site's file. */
  lemma CopyLast(site: seq<Node>, cs: seq<Node>, i: nat, j: nat, k: nat)
    requires CopyOutcome(site).err.None?
    requires Lookup(site, "collections").Some? && Lookup(site, "collections").value == Dir("collections", cs)
    requires UniqueNames(cs) && i < |cs| && cs[i].Dir?
    requires UniqueNames(cs[i].children) && j < |cs[i].children| && IsPlotDir(cs[i].children[j])
    requires UniqueNames(cs[i].children[j].children) && k < |cs[i].children[j].children|
    requires cs[i].children[j].children[k].File? && !EndsWith(cs[i].children[j].children[k].name, ".md")
    ensures LastPut(CopyOutcome(site).writes, [cs[i].name, cs[i].children[j].name, cs[i].children[j].children[k].name])
      == Some(Copy(cs[i].children[j].children[k].text))
  {
    var n, p, f := cs[i], cs[i].children[j], cs[i].children[j].children[k];
    var target := [n.name, p.name, f.name];
    FileCopiesLast(n.name, p.name, p.children, k);
    PlotCopiesLast(n.name, n.children, j, target, Copy(f.text));
    CollectionCopiesLast(cs, i, target, Copy(f.text));
    var assets := AssetsWrites(site).value;
    assert CopyOutcome(site).writes == assets + CollectionCopies(cs);
    LastPutAppend(assets, CollectionCopies(cs), target);
  }

  /** A file of an entry directory that does not end in `.md` is in the
      output, at the same place below the collection, as a copy; the one
      exception is a file named `index.html`, which the entry's detail
      page replaces. */
  lemma PlotFileCopied(g: Generator, before: Tree, cs: seq<Node>, i: nat, j: nat, k: nat)
    requires BuildResult(g, before, false).1.None?
    requires Lookup(g.site, "collections").Some? && Lookup(g.site, "collections").value == Dir("collections", cs)
    requires UniqueNames(cs) && i < |cs| && cs[i].Dir?
    requires UniqueNames(cs[i].children) && j < |cs[i].children| && IsPlotDir(cs[i].children[j])
    requires UniqueNames(cs[i].children[j].children) && k < |cs[i].children[j].children|
    requires cs[i].children[j].children[k].File? && !EndsWith(cs[i].children[j].children[k].name, ".md")
    requires cs[i].children[j].children[k].name != "index.html"
    ensures var target := [cs[i].name, cs[i].children[j].name, cs[i].children[j].children[k].name];
      var files := BuildResult(g, before, false).0.files;
      target in files && files[target] == Copy(cs[i].children[j].children[k].text)
  {
    BuildSteps(g);
    var plots := AllPlots(g.site, g.env).value;
    var target := [cs[i].name, cs[i].children[j].name, cs[i].children[j].children[k].name];
    var copy, rest := CopyOutcome(g.site).writes,
      IndexOutcome(g, plots).writes + (GalleriesOutcome(g, plots).writes + PlotPagesOutcome(g, plots).writes);
    CopyLast(g.site, cs, i, j, k);
    PagesAvoid(g, plots, target);
    LastPutAppend(copy, rest, target);
    ApplyFiles(Tree({[]}, map[]), copy + rest, target);
  }
  // ----- a build that raises -----

  /** Directories, once made, stay. */
  lemma {:induction false} ApplyKeepsDir(t: Tree, ws: seq<Write>, q: OutPath)
    requires q in t.dirs
    ensures q in Apply(t, ws).dirs
    decreases |ws|
  {
    if ws != [] {
      ApplyKeepsDir(Step(t, ws[0]), ws[1..], q);
    }
  }

  /** Every directory a change creates is in the final tree. */
  lemma {:induction false} ApplyMakesDir(t: Tree, ws: seq<Write>, k: nat)
    requires k < |ws| && ws[k].MkDir? && ws[k].path != []
    ensures ws[k].path in Apply(t, ws).dirs
    decreases |ws|
  {
    if k == 0 {
      assert ws[0].path in FileManager.Ancestry(ws[0].path);
      ApplyKeepsDir(Step(t, ws[0]), ws[1..], ws[0].path);
    } else {
      assert ws[1..][k - 1] == ws[k];
      ApplyMakesDir(Step(t, ws[0]), ws[1..], k - 1);
    }
  }

  /** A collection directory named `index.html` breaks the build: the copy
      of the plot files recreates it as a directory of the output, and
      writing the index page onto that directory raises. */
  lemma CollectionNamedIndexFails(g: Generator, before: Tree, cs: seq<Node>, i: nat)
    requires Lookup(g.site, "collections").Some? && Lookup(g.site, "collections").value == Dir("collections", cs)
    requires i < |cs| && cs[i].Dir? && cs[i].name == "index.html"
    ensures BuildResult(g, before, false).1.Some?
  {
    if BuildResult(g, before, false).1.None? {
      BuildSteps(g);
      var plots := AllPlots(g.site, g.env).value;
      var empty := Tree({[]}, map[]);
      var copy, index := CopyOutcome(g.site).writes, IndexOutcome(g, plots).writes;
      var rest := GalleriesOutcome(g, plots).writes + PlotPagesOutcome(g, plots).writes;
      assert Run(empty, copy + (index + rest)).1.None?;
      RunAppend(empty, copy, index + rest);
      var s1 := Run(empty, copy).0;
      var assets := AssetsWrites(g.site).value;
      assert copy == assets + CollectionCopies(cs);
      CollectionCopiesPrefix(cs, i + 1);
      CollectionCopiesSnoc(cs, i);
      var k := |assets| + |CollectionCopies(cs[..i])|;
      assert copy[k] == MkDir(["index.html"]);
      ApplyMakesDir(empty, copy, k);
      RunAppend(s1, index, rest);
      assert false;
    }
  }
}
