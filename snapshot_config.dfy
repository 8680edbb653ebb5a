/** The configuration of one capture (snapshotplot/snapshot.py:36-107):
    the keyword arguments of `SnapshotContext`, gathered into a dict,
    validated and merged over the defaults. */
module SnapshotConfig {

  import opened Values
  import opened Utils

  /** The keyword arguments of `SnapshotContext(...)`, as the Python values
      passed for them. */
  datatype Args = Args(
    outputDir: Value, title: Value, author: Value, notes: Value, dpi: Value, bboxInches: Value,
    site: Value, collection: Value, tags: Value, description: Value,
    autoCommit: Value, autoBuild: Value, autoDeploy: Value,
    cloudUrl: Value, cloudToken: Value, cloudProjectId: Value,
    repoOwner: Value, repoName: Value, commitSha: Value, branch: Value, prNumber: Value)

  /** The defaults of the signature. */
  function DefaultArgs(): Args {
    Args(VNone, VNone, VNone, VNone, VInt(300), VStr("tight"),
      VNone, VNone, VNone, VNone,
      VBool(false), VBool(false), VBool(false),
      VNone, VNone, VNone,
      VNone, VNone, VNone, VNone, VNone)
  }

  /** The keys of the dict `__init__` builds. */
  const ConfigKeys: set<string> := {
    "output_dir", "title", "author", "notes", "dpi", "bbox_inches",
    "site", "collection", "tags", "description",
    "auto_commit", "auto_build", "auto_deploy",
    "cloud_url", "cloud_token", "cloud_project_id",
    "repo_owner", "repo_name", "commit_sha", "branch", "pr_number"}

  /** The keys that `get_default_config` does not supply. */
  const OptionalKeys: set<string> := ConfigKeys - {"output_dir", "title", "author", "notes", "dpi", "bbox_inches"}

  /** The value stored under key `k`: the argument, except that `tags` is
      `tags or []`. */
  function Arg(a: Args, k: string): Value {
    if k == "output_dir" then a.outputDir
    else if k == "title" then a.title
    else if k == "author" then a.author
    else if k == "notes" then a.notes
    else if k == "dpi" then a.dpi
    else if k == "bbox_inches" then a.bboxInches
    else if k == "site" then a.site
    else if k == "collection" then a.collection
    else if k == "tags" then Or(a.tags, VList([]))
    else if k == "description" then a.description
    else if k == "auto_commit" then a.autoCommit
    else if k == "auto_build" then a.autoBuild
    else if k == "auto_deploy" then a.autoDeploy
    else if k == "cloud_url" then a.cloudUrl
    else if k == "cloud_token" then a.cloudToken
    else if k == "cloud_project_id" then a.cloudProjectId
    else if k == "repo_owner" then a.repoOwner
    else if k == "repo_name" then a.repoName
    else if k == "commit_sha" then a.commitSha
    else if k == "branch" then a.branch
    else a.prNumber
  }

  /** The dict of snapshot.py:81-103. */
  function RawConfig(a: Args): (r: Dict)
    ensures r.Keys == ConfigKeys
    ensures forall k :: k in r ==> r[k] == Arg(a, k)
  {
    map k | k in ConfigKeys :: Arg(a, k)
  }

  /** `merge_configs(get_default_config(), validate_config(raw))`
      (snapshot.py:106-107). */
  function ContextConfig(a: Args): Dict {
    Merged(DefaultConfig(), Validated(RawConfig(a)))
  }

  /** The value the merged configuration holds under one key: the
      validated argument when it is not None, otherwise the default. */
  lemma {:induction false} ConfigAt(a: Args, k: string)
    requires k in ConfigKeys
    ensures var c := ContextConfig(a);
      var v := ValidatedValue(k, Arg(a, k));
      && (k in c <==> k in DefaultConfig() || v != VNone)
      && (k in c ==> c[k] == if v != VNone then v else DefaultConfig()[k])
  {
    var raw := RawConfig(a);
    assert raw[k] == Arg(a, k);
    assert Validated(raw)[k] == ValidatedValue(k, Arg(a, k));
  }

  /** `output_dir` falls back to `snapshots` and the three text fields to
      None when they are not strings. */
  lemma ConfigTextKeys(a: Args)
    ensures var c := ContextConfig(a);
      && "output_dir" in c && c["output_dir"] == (if a.outputDir.VStr? then a.outputDir else VStr("snapshots"))
      && "title" in c && c["title"] == (if a.title.VStr? then a.title else VNone)
      && "author" in c && c["author"] == (if a.author.VStr? then a.author else VNone)
      && "notes" in c && c["notes"] == (if a.notes.VStr? then a.notes else VNone)
  {
    ConfigOutputDir(a);
    assert Arg(a, "title") == a.title;
    TextAt(a, "title");
    assert Arg(a, "author") == a.author;
    TextAt(a, "author");
    assert Arg(a, "notes") == a.notes;
    TextAt(a, "notes");
  }

  lemma ConfigOutputDir(a: Args)
    ensures "output_dir" in ContextConfig(a)
    ensures ContextConfig(a)["output_dir"] == (if a.outputDir.VStr? then a.outputDir else VStr("snapshots"))
  {
    assert Arg(a, "output_dir") == a.outputDir;
    ConfigAt(a, "output_dir");
  }

  /** A text field is always present, holding its argument when that is a
      string and None otherwise. */
  lemma TextAt(a: Args, k: string)
    requires k in {"title", "author", "notes"}
    ensures var c := ContextConfig(a);
      k in c && c[k] == (if Arg(a, k).VStr? then Arg(a, k) else VNone)
  {
    assert k in DefaultConfig() && DefaultConfig()[k] == VNone;
    assert ValidatedValue(k, Arg(a, k)) == (if Arg(a, k).VStr? then Arg(a, k) else VNone);
    ConfigAt(a, k);
  }

  /** `dpi` and `bbox_inches` fall back to their defaults only when None
      was passed; `tags` is always a value. */
  lemma ConfigRenderKeys(a: Args)
    ensures var c := ContextConfig(a);
      && "dpi" in c && c["dpi"] == (if a.dpi == VNone then VInt(300) else a.dpi)
      && "bbox_inches" in c && c["bbox_inches"] == (if a.bboxInches == VNone then VStr("tight") else a.bboxInches)
      && "tags" in c && c["tags"] == Or(a.tags, VList([]))
  {
    ConfigDpi(a);
    ConfigBbox(a);
    ConfigTags(a);
  }

  lemma ConfigDpi(a: Args)
    ensures "dpi" in ContextConfig(a) && ContextConfig(a)["dpi"] == (if a.dpi == VNone then VInt(300) else a.dpi)
  {
    assert Arg(a, "dpi") == a.dpi;
    assert ValidatedValue("dpi", a.dpi) == a.dpi;
    assert "dpi" in DefaultConfig() && DefaultConfig()["dpi"] == VInt(300);
    ConfigAt(a, "dpi");
  }

  lemma ConfigBbox(a: Args)
    ensures "bbox_inches" in ContextConfig(a)
    ensures ContextConfig(a)["bbox_inches"] == (if a.bboxInches == VNone then VStr("tight") else a.bboxInches)
  {
    assert Arg(a, "bbox_inches") == a.bboxInches;
    assert ValidatedValue("bbox_inches", a.bboxInches) == a.bboxInches;
    assert "bbox_inches" in DefaultConfig() && DefaultConfig()["bbox_inches"] == VStr("tight");
    ConfigAt(a, "bbox_inches");
  }

  lemma ConfigTags(a: Args)
    ensures "tags" in ContextConfig(a) && ContextConfig(a)["tags"] == Or(a.tags, VList([]))
  {
    var v := Or(a.tags, VList([]));
    assert Arg(a, "tags") == v;
    assert ValidatedValue("tags", v) == v;
    assert v != VNone;
    ConfigAt(a, "tags");
  }

  /** `output_dir` always holds a string: the argument when it is one,
      otherwise `snapshots`; `title`, `author` and `notes` are always
      present and hold the argument when it is a string, otherwise None;
      `dpi` and `bbox_inches` fall back to their defaults only when None was
      passed; `tags` is always a value. */
  lemma ContextConfigDefaults(a: Args)
    ensures var c := ContextConfig(a);
      && "output_dir" in c && c["output_dir"] == (if a.outputDir.VStr? then a.outputDir else VStr("snapshots"))
      && "title" in c && c["title"] == (if a.title.VStr? then a.title else VNone)
      && "author" in c && c["author"] == (if a.author.VStr? then a.author else VNone)
      && "notes" in c && c["notes"] == (if a.notes.VStr? then a.notes else VNone)
      && "dpi" in c && c["dpi"] == (if a.dpi == VNone then VInt(300) else a.dpi)
      && "bbox_inches" in c && c["bbox_inches"] == (if a.bboxInches == VNone then VStr("tight") else a.bboxInches)
      && "tags" in c && c["tags"] == Or(a.tags, VList([]))
  {
    ConfigTextKeys(a);
    ConfigRenderKeys(a);
  }

  /** Only the keys of the dict reach the configuration, and every key
      without a default is present exactly when its argument is not None,
      holding that argument. */
  lemma ContextConfigOptional(a: Args)
    ensures var c := ContextConfig(a);
      && c.Keys <= ConfigKeys
      && (forall k :: k in OptionalKeys ==> (k in c <==> Arg(a, k) != VNone))
      && (forall k :: k in OptionalKeys && k in c ==> c[k] == Arg(a, k))
  {
    forall k | k in OptionalKeys
      ensures var c := ContextConfig(a);
        (k in c <==> Arg(a, k) != VNone) && (k in c ==> c[k] == Arg(a, k))
    {
      OptionalAt(a, k);
    }
  }

  /** A key without a default holds its argument, validation leaving it
      untouched, and only when that argument is not None. */
  lemma OptionalAt(a: Args, k: string)
    requires k in OptionalKeys
    ensures var c := ContextConfig(a);
      (k in c <==> Arg(a, k) != VNone) && (k in c ==> c[k] == Arg(a, k))
  {
    assert k !in DefaultConfig();
    assert ValidatedValue(k, Arg(a, k)) == Arg(a, k);
    ConfigAt(a, k);
  }

  /** The `'plot'` fallback of snapshot.py:258 is never used: `title` is
      always a key of the configuration. */
  lemma TitleAlwaysPresent(a: Args)
    ensures "title" in ContextConfig(a)
    ensures ContextConfig(a)["title"] == VNone <==> !a.title.VStr?
  {
    ContextConfigDefaults(a);
  }

  /** `self.config['output_dir'] or get_default_output_dir()`
      (snapshot.py:125): the working directory's `snapshots` is used only
      when the empty string was passed; a non-string argument became the
      relative `snapshots` during validation. */
  lemma DefaultOutputDirReachable(a: Args)
    ensures !Truthy(ContextConfig(a)["output_dir"]) <==> a.outputDir == VStr("")
  {
    ContextConfigDefaults(a);
  }

  /** A None cloud URL never reaches the configuration. */
  lemma NoCloudUrl(a: Args)
    requires a.cloudUrl == VNone
    ensures "cloud_url" !in ContextConfig(a)
  {
    assert "cloud_url" in OptionalKeys;
    assert Arg(a, "cloud_url") == a.cloudUrl;
    OptionalAt(a, "cloud_url");
  }

  /** The keyword arguments of `SnapshotDecorator(...)` (snapshot.py:366-382). */
  datatype DecoratorArgs = DecoratorArgs(
    outputDir: Value, title: Value, author: Value, notes: Value, dpi: Value, bboxInches: Value,
    site: Value, collection: Value, tags: Value, description: Value,
    autoCommit: Value, autoBuild: Value, autoDeploy: Value)

  /** `SnapshotContext(**self.config)` with the decorator's thirteen keys
      (snapshot.py:384-398, 405): the cloud and repository arguments keep
      their defaults. */
  function ContextArgs(d: DecoratorArgs): (r: Args)
    ensures r.cloudUrl == VNone && r.cloudToken == VNone && r.cloudProjectId == VNone
    ensures r.title == d.title && r.site == d.site && r.collection == d.collection
  {
    Args(d.outputDir, d.title, d.author, d.notes, d.dpi, d.bboxInches,
      d.site, d.collection, Or(d.tags, VList([])), d.description,
      d.autoCommit, d.autoBuild, d.autoDeploy,
      VNone, VNone, VNone, VNone, VNone, VNone, VNone, VNone)
  }
}
