# snapshotplot in Dafny

snapshotplot captures a matplotlib plot together with the code that drew
it. Each capture writes three files into `snapshot_<stem>/`:
`<token>_code.py`, `<token>_plot.png` and `<token>_snapshot.html`. It can
also write an entry into a Jekyll-like "plot site" and then commit, build,
deploy or publish that site. A static-site builder turns the site's
`collections/<collection>/<entry>/` tree into an index page, one gallery
per collection and one detail page per plot. A command-line tool creates
sites and collections and lists plots.

This project models the core of that program and proves what it promises:

- **Timestamp** (`timestamp.dfy`): the process-wide token cache. It is a
  class with the two globals as fields and the clock reading as a
  parameter. Proved: the token layout, that token order is chronological,
  and cache/reset behaviour.
- **FileManager** (`file_manager.dfy`): the capture directory and file
  names, and `sanitize_filename`. The replacement loop is a method.
- **Utils** (`utils.dfy`): the display format of a token,
  `validate_config` and `merge_configs` (loop methods proved against
  functions), the defaults, and `safe_filename`.
- **SnapshotConfig** (`snapshot_config.dfy`): the configuration a
  `SnapshotContext` is built with. It settles which fallbacks in the
  capture code can be reached.
- **Snapshot** and **SnapshotProps** (`snapshot.dfy`, `snapshot_props.dfy`):
  - `SnapshotContext` is a class over a disk and a journal of attempted
    actions.
  - Every effect is an action that may fail. A failure oracle decides
    which actions fail.
  - Proved: the failure-containment contract of the capture, the site
    entry's name and metadata, and how the site builder reads back the
    entry's front matter.
- **SnapshotDecorator** (`snapshot_decorator.dfy`): `@snapshot(...)`. The
  wrapper runs the decorated function inside a fresh context. The
  function's outcome is a parameter.
- **SiteTree**, **SiteMetadata**, **SitePlots**, **SiteBuild**,
  **BuildOutput** (`site_*.dfy`, `build_output.dfy`): the site builder.
  - The site is a tree of named directories and files.
  - The YAML and Markdown libraries, `strptime` and the clock are fields
    of a collaborator record.
  - A rendered page is the template name plus the context it receives.
  - Each build step is a method over the output directory, proved against
    a function saying what it writes and which exception ends it.
- **Cli** and **CliList** (`cli.dfy`, `cli_list.dfy`):
  - `init`, `collection create` and the `_config.yml` guard, over a store
    of directories and files;
  - the `list` filters and the rows `list` prints.

`values.dfy` holds Python's dynamic values (`None`, bools, numbers,
strings, lists, dicts) and their truthiness. `text.dfy` holds the string
methods the program calls: `replace`, `strip`, `lower`, `title`, `split`,
`find`, and string comparison.

## Model

| member | source | states |
|---|---|---|
| Timestamp.Digits | snapshotplot/timestamp.py:25 | a `%Y`/`%m`/`%f`-style field is exactly `w` decimal digits |
| Timestamp.DigitsRoundTrip | snapshotplot/timestamp.py:25 | reading back a zero-padded field gives the number it was formatted from |
| Timestamp.DigitsInjective | snapshotplot/timestamp.py:25 | two numbers that fit the width give equal fields iff they are equal |
| Timestamp.DigitsOrder | snapshotplot/timestamp.py:25 | fixed-width fields compare as strings exactly as their numbers compare |
| Timestamp.DigitsDropLast | snapshotplot/timestamp.py:25 | dropping the last digit of a field is integer division by ten (how `[:-3]` turns microseconds into milliseconds) |
| Timestamp.Strftime | snapshotplot/timestamp.py:25 | `%Y%m%d_%H%M%S_%f` of a reading is 22 characters |
| Timestamp.TokenFields | snapshotplot/timestamp.py:25 | the token is year, month, day, `_`, hour, minute, second, `_`, milliseconds |
| Timestamp.TokenLayout | snapshotplot/timestamp.py:25 | a token is 19 characters: `_` at positions 8 and 15 and digits everywhere else |
| Timestamp.TokenOrder | snapshotplot/timestamp.py:25 | token A sorts before token B iff A's instant is an earlier millisecond; tokens are equal iff the instants share a millisecond |
| Timestamp.TimestampSource.constructor | snapshotplot/timestamp.py:13-14 | at import time, neither global is set |
| Timestamp.TimestampSource.Generate | snapshotplot/timestamp.py:17-28 | formats the clock reading and sets the token and the instant together |
| Timestamp.TimestampSource.GetCurrentTimestamp | snapshotplot/timestamp.py:31-40 | returns the cached token and changes nothing while one is set; otherwise generates from the clock; also covers the `get_timestamp` and `generate_new_timestamp` aliases (lines 62-63) |
| Timestamp.TimestampSource.GetCurrentDatetime | snapshotplot/timestamp.py:43-52 | returns the instant the current token was formatted from, generating both when unset |
| Timestamp.TimestampSource.Reset | snapshotplot/timestamp.py:55-59 | clears both globals |
| Timestamp.SameTokenUntilReset | snapshotplot/timestamp.py:31-40 | two reads without a reset give the same token, whatever the clock says the second time |
| Timestamp.TokenAfterReset | snapshotplot/timestamp.py:17-28 | after a reset, the next token differs from the previous one exactly when the clock has moved to another millisecond; tokens order as their instants |
| FileManager.Disk.MakeDirs | snapshotplot/file_manager.py:34 | `mkdir(parents=True, exist_ok=True)`: raises `MkdirError` when a file is in the way, changing nothing; otherwise the path and all its ancestors exist afterwards, and nothing else changes |
| FileManager.Ancestry | snapshotplot/file_manager.py:34 | the directories `mkdir(parents=True)` creates are the path and its non-empty prefixes |
| FileManager.MkdirError | snapshotplot/file_manager.py:34 | `mkdir(parents=True, exist_ok=True)` raises exactly when a file stands on the path or one of its ancestors: FileExistsError when it is the path itself, NotADirectoryError otherwise |
| FileManager.SnapshotDirName | snapshotplot/file_manager.py:24-28 | the name is `snapshot_` + the filename, with one trailing `.py` removed |
| FileManager.CreateOutputDirectory | snapshotplot/file_manager.py:12-36 | creates `base/snapshot_<stem>` with its parents and returns it, or returns the exception `mkdir` raises with the directories unchanged |
| FileManager.SnapshotDirOfTestFile | tests/test_snapshot.py:79-80 | `test_file.py` gives `snapshot_test_file` |
| FileManager.Suffix | snapshotplot/file_manager.py:50-57 | the suffix starts with `_` exactly for `py`, `png` and `html` (otherwise `.<ext>`) |
| FileManager.GenerateFilename | snapshotplot/file_manager.py:39-57 | the name starts with the timestamp |
| FileManager.ExtensionDeterminesFilename | snapshotplot/file_manager.py:50-57 | with one timestamp, different extensions never give the same name |
| FileManager.TimestampDeterminesFilename | snapshotplot/file_manager.py:50-57 | with one extension, different timestamps never give the same name |
| FileManager.GetFilePaths | snapshotplot/file_manager.py:72-77 | three pairwise-different paths in the output directory, each named with the timestamp prefix and ending `_code.py`, `_plot.png` and `_snapshot.html` |
| FileManager.ReplaceEachAt | snapshotplot/file_manager.py:119-121 | replacing the invalid characters one after another replaces every occurrence of any of them and leaves every other character alone |
| FileManager.SanitizeReplaced | snapshotplot/file_manager.py:119-124 | after the replacements, each character is mapped: invalid ones to `_`, the space to `-`, others unchanged |
| FileManager.ReplacementsMapEachChar | snapshotplot/file_manager.py:119-124 | the source's chain of replacements equals that character-wise map |
| FileManager.SanitizeFilename | snapshotplot/file_manager.py:108-133 | the loop method computes `Sanitized` |
| FileManager.SanitizedChars | snapshotplot/file_manager.py:108-133 | for every input the result is non-empty, contains none of `<>:"/\|?*` and no space, and neither starts nor ends with `.` |
| FileManager.SanitizedRun | snapshotplot/file_manager.py:108-133 | the result is `unnamed` or a contiguous slice of the input mapped character by character (every other character passes through, in order) |
| FileManager.SanitizedIdempotent | snapshotplot/file_manager.py:108-133 | sanitising a sanitised name changes nothing |
| Utils.Slice | snapshotplot/utils.py:76-89 | Python slicing clamps out-of-range bounds and never fails |
| Utils.FormatTimestampForDisplay | snapshotplot/utils.py:66-91 | the result ends in ` UTC`; for 15 or more characters it is `YYYY-MM-DD HH:MM:SS UTC` from the slices [0:4] … [13:15]; a short string gives truncated pieces, not itself |
| Utils.DisplayOfToken | snapshotplot/utils.py:76-89 | a token displays as its date and time fields, without milliseconds |
| Utils.Validated | snapshotplot/utils.py:94-126 | validation keeps exactly the keys of the input |
| Utils.ValidateConfig | snapshotplot/utils.py:94-126 | the key-by-key overwrite loop computes `Validated` |
| Utils.ValidatedProperties | snapshotplot/utils.py:104-126 | `output_dir` becomes a string; `title`/`author`/`notes` become a string or None; string values and all other keys are unchanged; validation is idempotent |
| Utils.DefaultConfig | snapshotplot/utils.py:129-143 | exactly the six keys `output_dir`, `title`, `author`, `notes`, `dpi`, `bbox_inches`, already valid |
| Utils.Merged | snapshotplot/utils.py:146-164 | the keys are the defaults plus the user keys whose value is not None |
| Utils.MergeConfigs | snapshotplot/utils.py:146-164 | the copy-then-update loop computes `Merged` |
| Utils.MergedProperties | snapshotplot/utils.py:157-164 | every default key survives; a non-None user value overrides or adds; otherwise the default stays; an empty user dict gives the defaults; merging the same user dict twice changes nothing |
| Utils.SafeChar | snapshotplot/utils.py:180-182 | a character becomes valid, and a valid one is kept |
| Utils.SafeReplaced | snapshotplot/utils.py:180-182 | the regex substitution maps each character by `SafeChar` |
| Utils.SafeFilenameIsSafe | snapshotplot/utils.py:167-189 | for every input the result is non-empty, has none of `<>:"/\|?*`, and neither starts nor ends with a space or a dot |
| Utils.SafeFilenameIdempotent | snapshotplot/utils.py:167-189 | applying `safe_filename` to its own result changes nothing |
| Utils.SafeFilenameKeepsSpaces | snapshotplot/utils.py:180-189 | `my plot` stays `my plot` under `safe_filename`, but `sanitize_filename` gives `my-plot` |
| Utils.SanitizedIsSafeAfterDashes | snapshotplot/utils.py:167-189 | `sanitize_filename` is `safe_filename` after turning spaces into `-` |
| SnapshotConfig.RawConfig | snapshotplot/snapshot.py:81-103 | the raw dict has exactly the 21 configuration keys, each holding its argument (`tags or []` for tags) |
| SnapshotConfig.ConfigAt | snapshotplot/snapshot.py:106-107 | a key is in the merged configuration iff it has a default or its validated argument is not None, and holds that argument when not None, else the default |
| SnapshotConfig.ConfigTextKeys | snapshotplot/snapshot.py:106-107 | `output_dir` falls back to `snapshots`, and `title`/`author`/`notes` to None, when the argument is not a string |
| SnapshotConfig.TextAt | snapshotplot/snapshot.py:106-107 | each text field is always present, holding a string argument or None |
| SnapshotConfig.ConfigRenderKeys | snapshotplot/snapshot.py:106-107 | `dpi` and `bbox_inches` fall back to 300 and `tight` only for None; `tags` is `tags or []` |
| SnapshotConfig.ContextConfigDefaults | snapshotplot/snapshot.py:81-107 | all seven keys with defaults are present with the values above |
| SnapshotConfig.ContextConfigOptional | snapshotplot/snapshot.py:81-107 | no extra keys; a key without a default (`site`, `collection`, `description`, the `cloud_*` and repository keys) is present iff its argument is not None, and then holds it unchanged |
| SnapshotConfig.OptionalAt | snapshotplot/snapshot.py:81-107 | the same fact for one key without a default |
| SnapshotConfig.TitleAlwaysPresent | snapshotplot/snapshot.py:258 | `title` is always a key, and it is None iff the argument was not a string |
| SnapshotConfig.DefaultOutputDirReachable | snapshotplot/snapshot.py:125 | `output_dir` is falsy iff the empty string was passed, the only way to reach `get_default_output_dir()` |
| SnapshotConfig.NoCloudUrl | snapshotplot/snapshot.py:81-107 | a None cloud URL never reaches the configuration |
| SnapshotConfig.ContextArgs | snapshotplot/snapshot.py:384-398 | the decorator passes no cloud settings and passes its title, site and collection through |
| Snapshot.Effect | snapshotplot/snapshot.py:183-320 | a completed write adds its file; a completed `mkdir` adds the directory and its ancestors; git and publish leave the local file system as it is; the site build (site_generator.py:142-149) replaces everything below the working directory's `docs` with what it builds and leaves every other file alone |
| Snapshot.Try | snapshotplot/snapshot.py:183-188 | an attempt inside `try` is journalled once with its outcome and changes the file system only when it completes |
| Snapshot.ContextConfigShape | snapshotplot/snapshot.py:81-107 | every constructed configuration has a string `output_dir`, text fields that are strings or None, and `dpi`, `bbox_inches` and `tags` present |
| Snapshot.OutputBase | snapshotplot/snapshot.py:125-126 | the configured directory when it is a non-empty string, `snapshots` under the working directory otherwise |
| Snapshot.PlotStep | snapshotplot/snapshot.py:190-205 | without an active figure nothing is attempted and the result is False; otherwise one save is attempted and the result is True whether or not it completed, because `save_current_plot` (utils.py:20-39) swallows the exception |
| Snapshot.HtmlMetadata | snapshotplot/snapshot.py:211-215 | the HTML metadata has the function name, the filename and the display date of the token |
| Snapshot.DropNone | snapshotplot/snapshot.py:286 | the keys whose value is not None, with their values |
| Snapshot.CopyIfExists | snapshotplot/snapshot.py:265-270 | a missing source attempts nothing; otherwise one copy is attempted |
| Snapshot.Perform | snapshotplot/snapshot.py:183-188 | one action against the disk, journalled as `Try` describes |
| Snapshot.PrepareOutput | snapshotplot/snapshot.py:124-136 | the capture directory `base/snapshot_<stem>`; when `mkdir` succeeds, the three file paths inside it, and otherwise the exception it raised, with the directories unchanged |
| Snapshot.SnapshotContext.constructor | snapshotplot/snapshot.py:36-113 | the configuration is the validated arguments merged over the defaults; nothing is prepared yet |
| Snapshot.SnapshotContext.Enter | snapshotplot/snapshot.py:115-138 | takes the process-wide token (generating it only when unset) and records the calling information; then either creates `snapshot_<stem>` under the output base and sets the three file paths there, or raises what `mkdir` raises (lines 124-128) and leaves the paths and directories unset and unchanged |
| Snapshot.SnapshotContext.SaveSourceCode | snapshotplot/snapshot.py:181-188 | attempts writing the source text to the code path |
| Snapshot.SnapshotContext.SavePlotFile | snapshotplot/snapshot.py:190-205 | as `PlotStep`: `plot_saved` is True exactly when a figure is active |
| Snapshot.SnapshotContext.CreateHtmlDocumentation | snapshotplot/snapshot.py:207-230 | attempts the HTML page, with the plot path exactly when `plot_saved` is True, and the title, author and notes from the configuration |
| Snapshot.SnapshotContext.HandleSiteGeneration | snapshotplot/snapshot.py:232-298 | as the site-entry step: skipped without `_config.yml`; otherwise makes the collection and entry directories, copies the files and writes `index.md` |
| Snapshot.SnapshotContext.AutoCommit | snapshotplot/snapshot.py:300-309 | attempts the commit with the title exactly when `auto_commit` is truthy |
| Snapshot.SnapshotContext.AutoBuild | snapshotplot/snapshot.py:311-320 | attempts the site build exactly when `auto_build` is truthy; the build writes to `docs` under the working directory, not under the site |
| SnapshotProps.BuildReplacesDocs | snapshotplot/snapshot.py:311-317 | a completed `auto_build` removes every path below the working directory's `docs` that the build does not recreate (site_generator.py:142-149), and leaves every file outside it as it was |
| Snapshot.SnapshotContext.AutoDeploy | snapshotplot/snapshot.py:322-332 | attempts the deploy exactly when `auto_deploy` is truthy |
| Snapshot.SnapshotContext.MaybePublishToCloud | snapshotplot/snapshot.py:334-360 | attempts the publish only when URL, token, project id and capture directory are all truthy |
| Snapshot.SnapshotContext.CreateSnapshotNow | snapshotplot/snapshot.py:149-179 | the step sequence of `_create_snapshot`, equal to the `CreateSnapshot` function |
| Snapshot.SnapshotContext.Exit | snapshotplot/snapshot.py:140-147 | the snapshot is created, and the exit never suppresses the block's exception |
| SnapshotProps.FileStepsAttempts | snapshotplot/snapshot.py:154-161 | the code file is attempted first; the plot next when a figure is active; then the HTML page, which gets the plot path exactly when a figure is active, whatever failed earlier |
| SnapshotProps.SiteStepAttempts | snapshotplot/snapshot.py:163-165 | the site step attempts only file actions, and only when a site or collection is set, the site is a string and holds `_config.yml` |
| SnapshotProps.LaterStepsAttempts | snapshotplot/snapshot.py:167-179 | commit, build, deploy and publish are each attempted exactly when their flag or condition holds, whatever failed before; the publish, if any, is the last attempt |
| SnapshotProps.CaptureAttempts | snapshotplot/snapshot.py:149-179 | the failure-containment contract: whatever fails, each step is still attempted as above, in order |
| SnapshotProps.NothingBeforeEnter | snapshotplot/snapshot.py:151-152 | without calling information or file paths the exit attempts nothing |
| SnapshotProps.NoTitleNoEntry | snapshotplot/snapshot.py:255-259 | a title that is not a string makes `sanitize_filename` raise after the collection directory: at most that directory is attempted, and no entry is written |
| SnapshotProps.EntryFilesWritten | snapshotplot/snapshot.py:261-294 | when nothing fails, the plot and code copies land in the entry directory when those files exist, and `index.md` with the front matter is the last attempt |
| SnapshotProps.SiteEntryWritten | snapshotplot/snapshot.py:241-294 | the entry is `collections/<collection or plots>/<token>_<sanitised title>` under the site, and its `index.md` is written last |
| SnapshotProps.EntryMetadataNoNone | snapshotplot/snapshot.py:273-286 | the metadata record holds no None value |
| SnapshotProps.MetadataTitleDate | snapshotplot/snapshot.py:274-275 | the title is the configured one when truthy, else the function name; the date is the current time |
| SnapshotProps.MetadataFiles | snapshotplot/snapshot.py:279-280 | `plot_image` is `plot.png` and `code_file` is `code.py` |
| SnapshotProps.MetadataOrigin | snapshotplot/snapshot.py:281-282 | the function name and filename are recorded |
| SnapshotProps.MetadataAuthor | snapshotplot/snapshot.py:276 | `author` is present iff configured (not None) |
| SnapshotProps.MetadataDescription | snapshotplot/snapshot.py:277 | `description` is present iff configured |
| SnapshotProps.MetadataTags | snapshotplot/snapshot.py:278 | `tags` is always present, with the configured value |
| SnapshotProps.MetadataNoContent | snapshotplot/snapshot.py:273-286 | the record has no `content` key (the one the site builder adds) |
| SnapshotProps.EntryMetadataProperties | snapshotplot/snapshot.py:273-286 | all of the metadata facts above together |
| SnapshotProps.IndexMdReadBack | snapshotplot/snapshot.py:288-294 | if the dumped YAML holds no `---`, the site builder's parser gives the YAML library exactly the dump, and Markdown the description paragraph and the closing line |
| SnapshotProps.MappingReadBack | snapshotplot/site_generator.py:98-106 | a delimiter-free header that loads as a mapping without `content` reads back as that mapping plus `content` |
| SnapshotProps.IndexMdRecord | snapshotplot/snapshot.py:288-294 | when YAML loads back what it dumped, the builder reads every metadata field unchanged, plus the rendered `content` |
| SnapshotProps.DelimiterInHeaderCutsIt | snapshotplot/snapshot.py:288-291 | a `---` inside the dumped YAML closes the header early: YAML gets only the text before it, and the rest becomes Markdown body |
| SnapshotProps.EntryNameListed | snapshotplot/snapshot.py:258 | the entry name does not start with `_`, so the builder lists it; its first two `_` pieces are the token's date and time |
| SnapshotProps.StampOfName | snapshotplot/site_generator.py:120-127 | a name with its first two `_` at positions 8 and 15 hands its first fifteen characters to `strptime` |
| SnapshotProps.TitleFallbacksDead | snapshotplot/snapshot.py:258 | the `plot` fallback for the entry title and the `Unnamed plot` commit-message fallback (line 305) are never used |
| SnapshotProps.DecoratorNeverPublishes | snapshotplot/snapshot.py:340-341 | a decorator-built context never publishes |
| SnapshotDecorator.DecoratorSwitches | snapshotplot/snapshot.py:384-398 | the decorator's commit, build and deploy switches reach the context's configuration unchanged; no cloud URL is set |
| SnapshotDecorator.CaptureBaseAgrees | snapshotplot/snapshot.py:384-398 | the decorator's capture directory is the one the context computes from its configuration |
| SnapshotDecorator.DecoratorCapture | snapshotplot/snapshot.py:403-408 | a decorator-built capture appends to the journal; the code file comes first; commit, build and deploy are attempted iff their switches are truthy; it never publishes |
| SnapshotDecorator.Decorator.constructor | snapshotplot/snapshot.py:366-398 | the options are kept as given; no context yet |
| SnapshotDecorator.Decorator.Call | snapshotplot/snapshot.py:400-410 | when `mkdir` of the capture directory raises, the wrapper raises that, with the journal and the disk unchanged; otherwise it returns what the function returned, or raises what it raised; the token is kept or generated once; the capture starts with the code file at the token-named path, follows the switches and never publishes |
| SnapshotDecorator.Decorator.EnterNew | snapshotplot/snapshot.py:405 | a fresh context built from the options and entered, or the exception its `mkdir` raised, with no file paths and the directories unchanged |
| SnapshotDecorator.Decorator.ExitNew | snapshotplot/snapshot.py:405-407 | the exit of that context appends the capture `DecoratorCapture` describes, and never suppresses |
| SnapshotDecorator.Decorator.Enter | snapshotplot/snapshot.py:412-415 | a fresh context, configured from the options and kept, then entered; entering raises what `mkdir` raises, leaving the context without file paths |
| SnapshotDecorator.Decorator.Exit | snapshotplot/snapshot.py:417-419 | the kept context's exit: the snapshot is created, and the exception is not suppressed |
| SiteTree.Lookup | snapshotplot/site_generator.py:60-66 | `dir / name` finds an entry with that name, or none |
| SiteTree.LookupFinds | snapshotplot/site_generator.py:60-66 | in a listing with distinct names, looking up an entry's name finds that entry |
| SiteTree.PathSuffix | snapshotplot/site_generator.py:321 | pathlib's suffix: from the last dot unless it is the first or last character |
| SiteTree.PathStem | snapshotplot/site_generator.py:323 | pathlib's stem: the name without its suffix |
| SiteTree.Resolve | snapshotplot/site_generator.py:313-314 | `plot_dir / code_file` walks the components: none names the entry directory itself, one names the entry found by `Lookup` (a file, a directory or nothing) |
| SiteMetadata.KeepSlugChars | snapshotplot/site_generator.py:55 | keeps exactly the word characters, whitespace and hyphens, in order |
| SiteMetadata.CollapseFrom | snapshotplot/site_generator.py:56 | each maximal run of hyphens and whitespace becomes one hyphen |
| SiteMetadata.SlugifyIsSlug | snapshotplot/site_generator.py:52-56 | the output has only lowercase word characters and `-`, and never two consecutive `-` |
| SiteMetadata.SlugifyIdempotent | snapshotplot/site_generator.py:52-56 | slugifying twice equals slugifying once |
| SiteMetadata.ParseFrontMatter | snapshotplot/site_generator.py:97-108 | no leading `---`, or fewer than three pieces: no front matter; otherwise the header record |
| SiteMetadata.HeaderRecord | snapshotplot/site_generator.py:101-106 | the YAML mapping plus `content`, the Markdown of the stripped body; a header that is not a mapping raises |
| SiteMetadata.FrontMatterRoundTrip | snapshotplot/site_generator.py:97-108 | the layout `---<header>---<body>` hands exactly the header to YAML and the body to Markdown |
| SiteMetadata.LoadConfig | snapshotplot/site_generator.py:36-42 | a missing `_config.yml` and a falsy YAML value both give `{}` |
| SiteMetadata.NamesEndingWith | snapshotplot/site_generator.py:113-114 | the glob results are the names with that suffix, in listing order |
| SiteMetadata.StampText | snapshotplot/site_generator.py:120-127 | the first two `_` pieces joined by `_`, or nothing without a `_` |
| SiteMetadata.AutoDate | snapshotplot/site_generator.py:120-132 | the parsed stamp, or the current time when the name has no `_` or parsing fails |
| SiteMetadata.Candidates | snapshotplot/site_generator.py:113-114 | the names with the first suffix, then those with the second; empty iff no name has either; the first candidate has the first suffix whenever some name does (`.png` before `.jpg`, `.py` before `.ipynb`) |
| SiteMetadata.AutoGenerateMetadata | snapshotplot/site_generator.py:110-140 | None without an image; otherwise the title, date, first image, first code file or None, and `auto_generated` |
| SiteMetadata.AutoTitle | snapshotplot/site_generator.py:135 | the title has the name's length and no `_` |
| SiteMetadata.LoadPlotMetadata | snapshotplot/site_generator.py:86-108 | the front matter of `index.md`, or the auto-generated record when there is no `index.md` |
| SiteMetadata.DefaultCollectionMetadata | snapshotplot/site_generator.py:273-278 | the title is the name with `-` turned into spaces and title-cased, and has no `-` |
| SiteMetadata.LoadCollectionMetadata | snapshotplot/site_generator.py:257-278 | the front matter of `_index.md` when it has some, else the default record |
| SiteMetadata.WithCodeContent | snapshotplot/site_generator.py:312-317 | `code_file` is resolved component by component below the entry: a file adds `code_content` with its text, a missing path adds nothing, and a directory (such as `.`) raises IsADirectoryError |
| SiteMetadata.CodeFileDotRaises | snapshotplot/site_generator.py:313-317 | `code_file: .` names the entry directory, and reading it raises IsADirectoryError |
| SiteMetadata.CodeFileInSubdirectory | snapshotplot/site_generator.py:313-317 | a `code_file` of the form `dir/name` reads `name` inside the entry's subdirectory `dir` |
| SiteMetadata.LoadFullPlotData | snapshotplot/site_generator.py:308-324 | copies the record, adds `code_content` for the file `code_file` resolves to (raising on a directory), then `<stem>_content` per `.py`/`.ipynb`/`.md` file |
| SiteMetadata.AddContentsOnly | snapshotplot/site_generator.py:319-323 | the loop adds no key other than the content keys of its files |
| SiteMetadata.AddContentsKeeps | snapshotplot/site_generator.py:319-323 | a key the loop does not add keeps its value |
| SiteMetadata.AddContentsLastWins | snapshotplot/site_generator.py:319-323 | a content key holds the text of the last file with that stem |
| SiteMetadata.FullPlotDataProperties | snapshotplot/site_generator.py:308-324 | all of the above: the content keys are added and every other key is unchanged |
| SitePlots.Tagged | snapshotplot/site_generator.py:76-78 | the kept record with `collection` and `slug` set from the directory names |
| SitePlots.CollectionPlots | snapshotplot/site_generator.py:68-80 | the records of one collection's entries, in listing order, or the first failure |
| SitePlots.PlotStep | snapshotplot/site_generator.py:69-80 | skips non-directories and `_` entries; appends a loaded record only when it is non-empty |
| SitePlots.Unsorted | snapshotplot/site_generator.py:58-80 | nothing without `collections/`; files among the collections are skipped |
| SitePlots.AllPlots | snapshotplot/site_generator.py:58-84 | the unsorted records, sorted |
| SitePlots.CollectionPlotsErr | snapshotplot/site_generator.py:68-80 | the first exception ends the listing |
| SitePlots.ScanCollection | snapshotplot/site_generator.py:68-80 | the inner loop computes `CollectionPlots` |
| SitePlots.GetAllPlots | snapshotplot/site_generator.py:58-84 | the nested loops and the sort compute `AllPlots` |
| SitePlots.CollectionPlotsTagged | snapshotplot/site_generator.py:76-78 | every kept record carries its collection's name and its own directory's name |
| SitePlots.PlotStepKeeps | snapshotplot/site_generator.py:69-80 | an entry contributes exactly when it is a non-`_` directory whose record loads non-empty; the tagged record is then last |
| SitePlots.SortDesc | snapshotplot/site_generator.py:83 | a stable insertion sort, newest first |
| SitePlots.SortByDate | snapshotplot/site_generator.py:83 | with two or more records, keys of different kinds raise |
| SitePlots.SortDescPermutes | snapshotplot/site_generator.py:83 | the sort keeps every record exactly once (a permutation) |
| SitePlots.SortDescSorted | snapshotplot/site_generator.py:83 | the result is newest first |
| SitePlots.SortDescStable | snapshotplot/site_generator.py:83 | records with equal dates keep their listing order |
| SitePlots.SortByDateProperties | snapshotplot/site_generator.py:83 | a successful sort is newest first, a permutation and stable |
| SitePlots.GroupNamesDistinct | snapshotplot/site_generator.py:201-207 | each collection is named once in the grouping |
| SitePlots.GroupNamesComplete | snapshotplot/site_generator.py:201-207 | a collection is named exactly when some plot belongs to it |
| SitePlots.Members | snapshotplot/site_generator.py:201-207 | a group is the plots of that collection, in list order |
| SitePlots.MembersIn | snapshotplot/site_generator.py:201-207 | a group holds only plots of the list |
| SitePlots.GroupMap | snapshotplot/site_generator.py:201-207 | the dict the grouping loop builds maps each collection to its plots |
| SitePlots.GroupByCollection | snapshotplot/site_generator.py:201-207 | the grouping loop computes `GroupMap` |
| SitePlots.GroupsNonEmpty | snapshotplot/site_generator.py:229-252 | every group is non-empty, so a gallery is written only for a collection with plots, and each plot is in its own collection's group |
| SitePlots.GroupSizesTotal | snapshotplot/site_generator.py:201-207 | the group sizes add up to the number of plots |
| SitePlots.MembersSorted | snapshotplot/site_generator.py:201-207 | a group of a newest-first list is newest first |
| SitePlots.IndexPlots | snapshotplot/site_generator.py:215 | the index gets min(12, N) plots, the newest ones |
| SiteBuild.OutputDir.MakeDir | snapshotplot/site_generator.py:181-190 | `mkdir(parents=True, exist_ok=True)`: raises NotADirectoryError below a file and FileExistsError on one, changing nothing; otherwise the directory and its ancestors exist afterwards |
| SiteBuild.OutputDir.WriteFile | snapshotplot/site_generator.py:195 | raises on a directory, below a file or without its parent directory, changing nothing; otherwise the file holds the written artefact |
| SiteBuild.Step | snapshotplot/site_generator.py:181-195 | a change that raises nothing: `mkdir` adds the directory and its ancestors, a write or copy replaces the file and nothing else |
| SiteBuild.Run | snapshotplot/site_generator.py:142-195 | changes are performed in order until one raises; when none raises the tree is the one `Apply` describes, and otherwise the exception is the clash of one of the changes |
| SiteBuild.RunStops | snapshotplot/site_generator.py:142-195 | once a change has raised, no later change is performed |
| SiteBuild.Exec | snapshotplot/site_generator.py:142-164 | a step completes exactly when none of its changes raises and it raises nothing itself, and then leaves the tree `Apply` describes |
| SiteBuild.ExecThen | snapshotplot/site_generator.py:142-164 | two steps in sequence: the second runs on the tree the first leaves, unless the first raised |
| SiteBuild.StepShaped | snapshotplot/site_generator.py:181-195 | a change that raises nothing keeps the output well formed: no path is both a directory and a file, and every file and directory sits in a directory |
| SiteBuild.RunShaped | snapshotplot/site_generator.py:142-195 | performing changes until one raises keeps the output well formed |
| SiteBuild.BuildShaped | snapshotplot/site_generator.py:142-164 | however the build ends, its output is well formed |
| SiteBuild.NewGenerator | snapshotplot/site_generator.py:18-34 | the constructor fails exactly when `_config.yml` cannot be loaded, and otherwise keeps the loaded configuration |
| SiteBuild.AssetsWrites | snapshotplot/site_generator.py:171-173 | `copytree` of `assets` recreates its whole tree under the output |
| SiteBuild.CopyOutcome | snapshotplot/site_generator.py:169-195 | with neither `assets` nor `collections`, nothing is copied |
| SiteBuild.CopyEntryFiles | snapshotplot/site_generator.py:193-195 | the copy loop over one entry's files: its copies are performed in order until one raises |
| SiteBuild.CopyPlot | snapshotplot/site_generator.py:186-195 | one entry directory is recreated, then its files are copied, until a change raises |
| SiteBuild.CopyCollection | snapshotplot/site_generator.py:186-195 | the copy loop over one collection's entries, until a change raises |
| SiteBuild.CopyOneCollection | snapshotplot/site_generator.py:180-195 | one collection directory is recreated, then its entries are copied, until a change raises |
| SiteBuild.CopyPlotFiles | snapshotplot/site_generator.py:176-195 | the loop over `collections/`: its changes are performed in order until one raises; a file named `collections` raises |
| SiteBuild.CopyAssets | snapshotplot/site_generator.py:169-195 | the output and the exception are `CopyOutcome` performed on the old output |
| SiteBuild.IndexOutcome | snapshotplot/site_generator.py:197-222 | when it completes, exactly one write, to `index.html` |
| SiteBuild.BuildIndex | snapshotplot/site_generator.py:197-222 | the output and the exception are `IndexOutcome` performed on the old output |
| SiteBuild.GalleryFor | snapshotplot/site_generator.py:236-252 | one gallery makes `<c>/` and writes `<c>/index.html` from `gallery.html` |
| SiteBuild.BuildGallery | snapshotplot/site_generator.py:236-252 | one pass of the gallery loop |
| SiteBuild.BuildCollections | snapshotplot/site_generator.py:224-255 | the output and the exception are the galleries performed in order on the old output, until one raises |
| SiteBuild.PlotPageFor | snapshotplot/site_generator.py:284-303 | one plot makes `<c>/<slug>/` and writes its `index.html` |
| SiteBuild.BuildPlotPage | snapshotplot/site_generator.py:284-303 | one pass of the plot-page loop |
| SiteBuild.BuildPlotPages | snapshotplot/site_generator.py:280-306 | the output and the exception are the plot pages performed in order on the old output, until one raises |
| SiteBuild.BuildWritesPages | snapshotplot/site_generator.py:142-164 | after the copy, the writes are the index, then the galleries, then the plot pages |
| SiteBuild.BuildPages | snapshotplot/site_generator.py:157-164 | the index page, the galleries and the plot pages performed in order on the old output, until one raises |
| SiteBuild.CopyStops | snapshotplot/site_generator.py:151-155 | a copy that raises ends the build |
| SiteBuild.BuildResult | snapshotplot/site_generator.py:142-164 | an output path naming a file raises NotADirectoryError and keeps the old tree; a build that raises nothing leaves exactly the tree its changes describe |
| SiteBuild.Build | snapshotplot/site_generator.py:142-164 | an output path naming a file raises before anything changes; otherwise the output directory is emptied and recreated, then the steps run in order until the first exception, a clash in the output included |
| BuildOutput.ApplyFiles | snapshotplot/site_generator.py:142-164 | each output file is the last thing written to its path, or was there before and never written |
| BuildOutput.BuildSteps | snapshotplot/site_generator.py:142-164 | a build that raises nothing found its plots and completed each step |
| BuildOutput.FullPlotDataKeepsTags | snapshotplot/site_generator.py:308-324 | the full record keeps the plot's `collection` and `slug` |
| BuildOutput.IndexPageWritten | snapshotplot/site_generator.py:197-222 | `index.html` is the `default.html` page with the twelve newest plots, the collections with their plots, title "Home" and base path `""` |
| BuildOutput.GalleryPagesWritten | snapshotplot/site_generator.py:224-255 | each collection's `index.html` is its `gallery.html` page, with its record, its plots in sorted order and base path `..` |
| BuildOutput.PlotPagesWritten | snapshotplot/site_generator.py:280-306 | each plot gets `<c>/<slug>/index.html`, a `plot.html` page for a record with that collection and slug and base path `../..` |
| BuildOutput.PlotFileCopied | snapshotplot/site_generator.py:169-195 | every non-`.md` file of an entry is in the output as a copy, also for entries whose metadata did not load, unless named `index.html` (the detail page replaces it) |
| BuildOutput.CollectionNamedIndexFails | snapshotplot/site_generator.py:180-219 | a collection directory named `index.html` always makes the build raise: the copy recreates it as a directory, and the index page cannot be written onto it |
| SiteTree.Components | snapshotplot/cli.py:36 | the text between slashes, minus empty and `.` pieces, as `pathlib` keeps them |
| SiteTree.ComponentsOfName | snapshotplot/cli.py:36 | a name without `/` that is neither empty nor `.` is one component |
| SiteTree.ComponentsOfPair | snapshotplot/site_generator.py:313 | `dir/name` with two plain names is the two components `dir` and `name` |
| Cli.Parent | snapshotplot/cli.py:45 | a single component's parent is the working directory |
| Cli.ApplyAllContents | snapshotplot/cli.py:45-79 | each file is the last write to its path, or unchanged; the directories are the old and the created ones |
| Cli.NoWriteOutside | snapshotplot/cli.py:45-79 | changes that write only inside a directory change nothing outside it |
| Cli.Workspace.Preflight | snapshotplot/cli.py:102-105 | goes on exactly when `_config.yml` exists; the same guard is at lines 148-150, 191-193, 209-211 and 240-242 |
| Cli.Workspace.Init | snapshotplot/cli.py:34-86 | the store and the outcome are `InitRun` of the old store |
| Cli.Workspace.MakeSkeleton | snapshotplot/cli.py:45-52 | the site, its six subdirectories and `.github/workflows` with ancestors are added |
| Cli.Workspace.CreateTemplates | snapshotplot/cli.py:307-323 | each theme file is written at its path below the site, after its parent directories |
| Cli.Workspace.CreateCollection | snapshotplot/cli.py:95-140 | the store and the outcome are those of `collection create` |
| Cli.NameTitle | snapshotplot/cli.py:56 | the name with `-` turned into spaces, title-cased |
| Cli.InitConfig | snapshotplot/cli.py:55-67 | the record `init` dumps has the eight keys, `build_dir='docs'` and no collections |
| Cli.InitConfigValues | snapshotplot/cli.py:55-67 | an absent title is `<Name Title> Plots`; an absent author is `Research Team`, both at the top and in the page defaults; an absent repository is None |
| Cli.TemplatePath | snapshotplot/cli.py:311-319 | all four prefix branches give `site/<key>` |
| Cli.InitRefuses | snapshotplot/cli.py:38-40 | `init` on an existing path changes nothing, nor on a path whose parent is not a directory |
| Cli.InitChangesUnder | snapshotplot/cli.py:69-79 | every file `init` writes lies inside the new site |
| Cli.InitOnlyInsideSite | snapshotplot/cli.py:34-86 | `init` changes no file outside the directory it creates |
| Cli.InitMakesSkeleton | snapshotplot/cli.py:45-79 | when the guards pass, every skeleton directory is made and the old ones are kept; `init` completes iff the scientific theme has a stylesheet |
| Cli.InitWritesConfig | snapshotplot/cli.py:69-70 | after a completed `init`, `_config.yml` holds the dumped record unless a theme file of that name replaced it |
| Cli.TemplateWritten | snapshotplot/cli.py:307-323 | each theme file that no later entry replaces is at `site/<key>` with its text |
| Cli.CollectionTags | snapshotplot/cli.py:114 | `--tags` split on `,`, or `[]` |
| Cli.CollectionMetadata | snapshotplot/cli.py:111-117 | the title defaults to the name title-cased, the description to `Plot collection for <name>`, and the tags as above |
| Cli.Register | snapshotplot/cli.py:127-137 | sets `collections[name]` to `{title, description, output: True}`; every other key and every other collection is unchanged; a missing or non-dict `collections` raises |
| Cli.RegisterIdempotent | snapshotplot/cli.py:130-134 | registering the same entry twice changes nothing |
| Cli.RegisterCommutes | snapshotplot/cli.py:130-134 | registering two different collections in either order gives the same configuration |
| Cli.InitThenRegister | snapshotplot/cli.py:62 | a new site's configuration accepts a collection, which becomes its only one |
| Cli.CreateCollectionEffect | snapshotplot/cli.py:107-137 | on success, `_config.yml` holds the old configuration with the collection registered, and the page is in place; after a failed registration the page is in place and `_config.yml` is untouched |
| Cli.CollectionDefaultsAgree | snapshotplot/cli.py:111-117 | without `--title`/`--description` the page carries the record the site builder falls back to for a collection without a page |
| Cli.CollectionPageReadBack | snapshotplot/cli.py:119-124 | the site builder reads the page back as its record plus the rendered body, if the YAML has no `---` and loads back as the record |
| CliList.Keep | snapshotplot/cli.py:249 | one comprehension keeps a sub-list no longer than its input |
| CliList.KeepTag | snapshotplot/cli.py:251 | raises iff some record's `tags` does not support `in`; otherwise equals the one-filter reference |
| CliList.Matching | snapshotplot/cli.py:245-253 | the reference keeps a sub-list no longer than the input |
| CliList.Filtered | snapshotplot/cli.py:245-253 | raises iff a tag is given and some record with the right collection has unsupported `tags`; otherwise equals the single-pass reference for the given filters |
| CliList.MatchingMembers | snapshotplot/cli.py:245-253 | the reference keeps exactly the input records that pass every filter |
| CliList.KeepThen | snapshotplot/cli.py:245-253 | filtering the reference once more is the reference with one more filter |
| CliList.StagesAgree | snapshotplot/cli.py:245-253 | the comprehensions that ran without raising give the reference's records |
| CliList.MatchingSorted | snapshotplot/cli.py:245-253 | from a newest-first list the reference keeps a newest-first list (order preserved) |
| CliList.NoOptionsKeepAll | snapshotplot/cli.py:248-253 | with no option (or only empty ones) every record is listed |
| CliList.RowsOf | snapshotplot/cli.py:260-261 | all rows iff every record has `title`, `collection` and `date`; otherwise the rows printed before the first record missing one |
| CliList.ListPlots | snapshotplot/cli.py:238-261 | the steps of `list` compute `ListRun` |
| CliList.FilterPlots | snapshotplot/cli.py:245-253 | the three reassignments compute `Filtered` |
| CliList.ShowRows | snapshotplot/cli.py:260-261 | the print loop computes `RowsOf` |
| CliList.ListedAreMatching | snapshotplot/cli.py:238-261 | a completed listing shows, newest first, exactly the records that pass every given filter, one row per record |
| CliList.NothingListed | snapshotplot/cli.py:255-257 | `No plots found.` iff no record passes every given filter |

## Left out

- Values, Text: Python's built-in values and string methods are modelled only as far as the program uses them. There is no Unicode case mapping beyond ASCII letters, and `\w` means ASCII letters, digits and `_`.
- The YAML library, Markdown, Jinja rendering, `strptime`, `fromisoformat` and `datetime.now()` are collaborators. They are passed in as function values or parameters, and their own behaviour is not modelled. Properties about read-back are stated on the condition that YAML loads back what it dumped.
- A page's HTML is not produced. A rendered page is the template name plus its context, so the `dateformat` and `slugify` template filters are not exercised.
- Matplotlib (`has_active_figure`, `save_current_plot`) is a boolean input and an action that may fail. `clear_figure` and the version getters in `utils.py` are not part of this model.
- Git, the site build triggered by `auto_build` and the cloud publish are single journalled actions of a capture. Their internal steps (`git add`, commit and push; the HTTP upload in `publisher.py`) are not modelled.
- Snapshot.Try: a failing action changes nothing. A partial write before an exception is not modelled, and neither is a site build that raises after `rmtree` has already emptied `docs`.
- Snapshot.SnapshotContext.Enter: `get_calling_info()` (stack introspection in `code_capture.py`) is a parameter. So are the working directory and `Path.resolve`.
- SnapshotDecorator.Decorator.EnterNew: on success it does not restate which directories the `mkdir` made. `SnapshotDecorator.Decorator.Enter` and `Snapshot.SnapshotContext.Enter`, which it calls, state that the capture directory and its ancestors are added.
- SnapshotDecorator.Decorator.Call: the wrapped function's own effects on the file system, and the exception value itself, are not modelled. Its outcome is a parameter, returned unchanged unless entering the context raises.
- SnapshotDecorator.Decorator.Exit: requires a prior `Enter`. Calling `__exit__` without `__enter__` raises `AttributeError` in Python, and that path is not modelled.
- The `snapshot()` factory and `create_snapshot()` at the end of `snapshot.py` only forward to the classes above and are not modelled separately.
- `jupyter_integration.py`, `code_capture.py`, `html_writer.py`, `templates.py` and `publisher.py` are not part of this model. The theme files, the workflow text and the stylesheet of `templates.py` are parameters of `init`.
- Cli.Workspace.Init: a name with a leading `/` (an absolute path) is not modelled. Names are relative paths.
- Cli.Workspace.Init, Cli.Workspace.CreateCollection: file-system failures are not modelled, other than writing a file whose place is taken by a directory (`_config.yml`) and a missing stylesheet in the theme.
- Cli: `serve`, `build` and `deploy` are modelled only up to the `_config.yml` guard they share (`Preflight`). The HTTP server, the browser thread and the git calls are not modelled, and neither is the `publish` command.
- CliList.ShowRows: the printed text is a row record (title, collection, date), not the formatted line. The other `click.echo` messages are not modelled.
- SiteBuild.Build: `verbose` output is not modelled. `copytree` of `assets` is applied as one change; it always runs on a freshly emptied output, where nothing can clash.
- SiteBuild.OutputDir.WriteFile: `shutil.copy2` onto an existing directory copies the file into that directory; the model raises IsADirectoryError there instead. Only a collection named `assets` whose entries share names with asset subdirectories can reach this.
- SitePlots.DateKey, SitePlots.SortByDate: only strings, ints and bools are ordered. Python also orders two lists element by element; the model raises Unorderable for them. YAML dates and floats are not values of this model, so a hand-written date that YAML loads as a `date` object (which raises TypeError against the ISO strings) is not expressed. SitePlots.AllPlots and SitePlots.GetAllPlots inherit this.
- SiteMetadata.WithCodeContent, SiteMetadata.LoadFullPlotData: an absolute `code_file`, or one containing `..`, leaves the entry directory in Python; the model resolves only below the entry and treats such a path as missing.
- FileManager: `ensure_directory_exists`, `get_relative_path`, `get_default_output_dir` and `is_valid_path` are not modelled. The default output directory is `snapshots` under a working directory given as a parameter.
- Dates are not checked against the calendar, and the year is assumed to have four digits (`Timestamp.TokenOrder` needs it).

## Notable behaviour of the code

The model follows the code as written, including these behaviours:

- a missing `_config.yml` makes the site builder use `{}` rather than fail (`SiteMetadata.LoadConfig`);
- an entry whose header is empty or not a mapping raises instead of being skipped (`SiteMetadata.HeaderRecord`);
- auto-generated dates for entries without a parsable stamp come from the clock, so rebuilds differ (`SiteMetadata.AutoDate`);
- the index shows the twelve newest plots (`SitePlots.IndexPlots`);
- there is no retry loop, so a token after a reset equals the previous one when the clock has not advanced a millisecond (`Timestamp.TokenAfterReset`);
- a None title makes `sanitize_filename` raise, so no site entry is written (`SnapshotProps.NoTitleNoEntry`);
- a `---` inside the dumped header truncates it when read back (`SnapshotProps.DelimiterInHeaderCutsIt`);
- `collection create` writes the collection page before it loads `_config.yml`, so a failed registration still leaves the page (`Cli.CreateCollectionEffect`);
- `save_current_plot` swallows every exception, so the HTML page names the plot file whenever a figure is active, even when saving it failed (`Snapshot.PlotStep`);
- `auto_build` builds into `docs` under the working directory, not into the site's own `docs/` that `auto_deploy` then adds, and it first removes whatever was there (`SnapshotProps.BuildReplacesDocs`);
- a collection directory named `index.html` makes every build raise, since the index page is then written onto a directory (`BuildOutput.CollectionNamedIndexFails`).
