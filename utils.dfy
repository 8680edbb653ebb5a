/** Helpers of snapshotplot/utils.py: display formatting of a token, the
    validation and merging of capture configurations, the default
    configuration and the second filename sanitiser. */
module Utils {

  import opened Values
  import opened Text
  import opened Timestamp
  import opened FileManager

  function Min(a: nat, b: nat): nat {
    if a <= b then a else b
  }

  /** Python's `s[a:b]` for `0 <= a <= b`: out-of-range bounds are clamped,
      so slicing never fails. */
  function Slice(s: string, a: nat, b: nat): (r: string)
    requires a <= b
    ensures |r| == Min(b, |s|) - Min(a, |s|)
    ensures b <= |s| ==> r == s[a..b]
  {
    s[Min(a, |s|)..Min(b, |s|)]
  }

  /** `format_timestamp_for_display` (utils.py:66-91). For any string with at
      least 15 characters the result is built from the slices [0:4], [4:6],
      [6:8], [9:11], [11:13] and [13:15]; a shorter string gives truncated
      pieces, so the result always ends in ` UTC` and is never the input
      itself when the input is shorter than the 23 characters of a
      complete display. */
  function FormatTimestampForDisplay(timestamp: string): (r: string)
    ensures EndsWith(r, " UTC")
    ensures |timestamp| >= 15 ==>
      r == timestamp[..4] + "-" + timestamp[4..6] + "-" + timestamp[6..8]
        + " " + timestamp[9..11] + ":" + timestamp[11..13] + ":" + timestamp[13..15] + " UTC"
    ensures |r| <= 23 && (|timestamp| < 23 ==> |r| > |timestamp|)
  {
    var datePart := Slice(timestamp, 0, 8);
    var timePart := Slice(timestamp, 9, 15);
    var year, month, day := Slice(datePart, 0, 4), Slice(datePart, 4, 6), Slice(datePart, 6, 8);
    var hour, minute, second := Slice(timePart, 0, 2), Slice(timePart, 2, 4), Slice(timePart, 4, 6);
    assert |timestamp| >= 15 ==> year == timestamp[..4] && month == timestamp[4..6] && day == timestamp[6..8];
    assert |timestamp| >= 15 ==> hour == timestamp[9..11] && minute == timestamp[11..13] && second == timestamp[13..15];
    assert |year + month + day| == |datePart|;
    assert |hour + minute + second| == |timePart|;
    year + "-" + month + "-" + day + " " + hour + ":" + minute + ":" + second + " UTC"
  }

  /** A token made by the timestamp cache is displayed as
      `YYYY-MM-DD HH:MM:SS UTC` of the instant it was formatted from; the
      milliseconds are dropped. */
  lemma DisplayOfToken(t: Instant)
    ensures FormatTimestampForDisplay(Token(t))
      == Digits(t.year, 4) + "-" + Digits(t.month, 2) + "-" + Digits(t.day, 2) + " "
      + Digits(t.hour, 2) + ":" + Digits(t.minute, 2) + ":" + Digits(t.second, 2) + " UTC"
  {
    var tok := Token(t);
    TokenFields(t);
    TokenLayout(t);
    var a, b, c := Digits(t.year, 4), Digits(t.month, 2), Digits(t.day, 2);
    var h, m, s := Digits(t.hour, 2), Digits(t.minute, 2), Digits(t.second, 2);
    var r6 := s + ("_" + Digits(t.Millisecond(), 3));
    var r5 := m + r6;
    var r4 := h + r5;
    var r3 := "_" + r4;
    var r2 := c + r3;
    var r1 := b + r2;
    assert tok == a + r1;
    assert tok[..4] == a && tok[4..] == r1;
    assert tok[4..6] == r1[..2] == b && tok[6..] == r1[2..] == r2;
    assert tok[6..8] == r2[..2] == c && tok[9..] == r2[3..] == r4;
    assert tok[9..11] == r4[..2] == h && tok[11..] == r4[2..] == r5;
    assert tok[11..13] == r5[..2] == m && tok[13..] == r5[2..] == r6;
    assert tok[13..15] == r6[..2] == s;
  }

  /** The value `validate_config` leaves under key `k` (utils.py:104-126):
      a string stays; otherwise `output_dir` becomes `snapshots` and
      `title`, `author` and `notes` become None; other keys stay. */
  function ValidatedValue(k: string, v: Value): Value {
    if v.VStr? then v
    else if k == "output_dir" then VStr("snapshots")
    else if k in {"title", "author", "notes"} then VNone
    else v
  }

  /** The validated configuration, key by key. */
  function Validated(config: Dict): (r: Dict)
    ensures r.Keys == config.Keys
  {
    map k | k in config :: ValidatedValue(k, config[k])
  }

  /** `validate_config`: a copy of the dict whose four known keys are
      overwritten one after another when they do not hold a string. */
  method ValidateConfig(config: Dict) returns (validated: Dict)
    ensures validated == Validated(config)
  {
    validated := config;
    if "output_dir" in validated && !validated["output_dir"].VStr? {
      validated := validated["output_dir" := VStr("snapshots")];
    }
    if "title" in validated && !validated["title"].VStr? {
      validated := validated["title" := VNone];
    }
    if "author" in validated && !validated["author"].VStr? {
      validated := validated["author" := VNone];
    }
    if "notes" in validated && !validated["notes"].VStr? {
      validated := validated["notes" := VNone];
    }
  }

  /** After validation `output_dir` holds a string and `title`, `author`
      and `notes` hold a string or None; a string given for any of them is
      kept; every other key keeps its value; validating again changes
      nothing. */
  lemma ValidatedProperties(config: Dict)
    ensures var v := Validated(config);
      && ("output_dir" in v ==> v["output_dir"].VStr?)
      && (forall k :: k in {"title", "author", "notes"} && k in v ==> v[k].VStr? || v[k] == VNone)
      && (forall k :: k in config && config[k].VStr? ==> v[k] == config[k])
      && (forall k :: k in config && k !in {"output_dir", "title", "author", "notes"} ==> v[k] == config[k])
      && Validated(v) == v
  {
  }

  /** `get_default_config` (utils.py:136-143). */
  function DefaultConfig(): (r: Dict)
    ensures r.Keys == {"output_dir", "title", "author", "notes", "dpi", "bbox_inches"}
    ensures Validated(r) == r
  {
    map["output_dir" := VStr("snapshots"), "title" := VNone, "author" := VNone,
        "notes" := VNone, "dpi" := VInt(300), "bbox_inches" := VStr("tight")]
  }

  /** The keys of `user` whose value is not None: the only ones that reach
      the merged configuration. */
  function Given(user: Dict): set<string> {
    set k | k in user && user[k] != VNone
  }

  /** The merged configuration as `merge_configs` defines it
      (utils.py:157-164): every default key, plus every user key whose value
      is not None; a user value that is not None wins. */
  function Merged(default: Dict, user: Dict): (r: Dict)
    ensures r.Keys == default.Keys + Given(user)
  {
    map k | k in default.Keys + Given(user) :: if k in Given(user) then user[k] else default[k]
  }

  /** `merge_configs`: copy the defaults, then, if the user dict is not
      empty, store each of its non-None values. */
  method MergeConfigs(default: Dict, user: Dict) returns (merged: Dict)
    ensures merged == Merged(default, user)
  {
    merged := default;
    if Truthy(VMap(user)) {
      var todo := user.Keys;
      while todo != {}
        invariant todo <= user.Keys
        invariant merged.Keys == default.Keys + (Given(user) - todo)
        invariant forall k :: k in merged ==> merged[k] == if k in Given(user) - todo then user[k] else default[k]
        decreases todo
      {
        var key :| key in todo;
        if user[key] != VNone {
          merged := merged[key := user[key]];
        }
        todo := todo - {key};
      }
    }
  }

  /** Every default key survives a merge; a key is present exactly when it
      is a default or the user gave a non-None value; the user's non-None
      value wins over the default; an empty user dict yields the defaults;
      merging the same user values twice changes nothing. */
  lemma MergedProperties(default: Dict, user: Dict)
    ensures var r := Merged(default, user);
      && default.Keys <= r.Keys
      && (forall k :: k in r <==> k in default || (k in user && user[k] != VNone))
      && (forall k :: k in user && user[k] != VNone ==> r[k] == user[k])
      && (forall k :: k in default && (k !in user || user[k] == VNone) ==> r[k] == default[k])
      && (user == map[] ==> r == default)
      && Merged(r, user) == r
  {
  }

  /** What `safe_filename` does to one character before stripping. */
  function SafeChar(c: char): (d: char)
    ensures d !in InvalidChars
    ensures c !in InvalidChars ==> d == c
  {
    if c in InvalidChars then '_' else c
  }

  /** `re.sub(r'[<>:"/\\|?*]', '_', filename)` */
  function SafeReplaced(filename: string): (r: string)
    ensures |r| == |filename|
    ensures forall k :: 0 <= k < |r| ==> r[k] == SafeChar(filename[k])
  {
    if filename == [] then [] else [SafeChar(filename[0])] + SafeReplaced(filename[1..])
  }

  /** `safe_filename` (utils.py:167-189). */
  function SafeFilename(filename: string): string {
    var stripped := Strip(SafeReplaced(filename), {' ', '.'});
    if stripped == "" then "unnamed" else stripped
  }

  /** A name `safe_filename` may return: non-empty, none of `<>:"/\|?*`,
      neither starting nor ending with a space or a dot. */
  predicate SafeName(r: string) {
    && r != ""
    && (forall k :: 0 <= k < |r| ==> r[k] !in InvalidChars)
    && r[0] !in {' ', '.'} && r[|r| - 1] !in {' ', '.'}
  }

  lemma RunOfSafe(t: string, s: string, i: nat, j: nat)
    requires |t| == |s| && i <= j <= |t|
    requires forall k :: 0 <= k < |t| ==> t[k] == SafeChar(s[k])
    ensures forall k :: 0 <= k < j - i ==> t[i..j][k] == SafeChar(s[i + k]) && t[i..j][k] !in InvalidChars
  {
  }

  /** A non-empty strip of a replaced name is a safe name. */
  lemma StrippedSafe(s: string, t: string)
    requires |t| == |s|
    requires forall k :: 0 <= k < |t| ==> t[k] == SafeChar(s[k])
    requires Strip(t, {' ', '.'}) != ""
    ensures SafeName(Strip(t, {' ', '.'}))
  {
    var u := Strip(t, {' ', '.'});
    var i := StripStart(t, {' ', '.'});
    var j := i + |u|;
    RunOfSafe(t, s, i, j);
  }

  lemma UnnamedSafe()
    ensures SafeName("unnamed")
  {
  }

  /** Whatever the input, `safe_filename` returns a safe name. */
  lemma SafeFilenameIsSafe(s: string)
    ensures SafeName(SafeFilename(s))
  {
    var t := SafeReplaced(s);
    if Strip(t, {' ', '.'}) != "" {
      StrippedSafe(s, t);
    } else {
      UnnamedSafe();
    }
  }

  /** Applying `safe_filename` to its own result changes nothing. */
  lemma SafeFilenameIdempotent(s: string)
    ensures SafeFilename(SafeFilename(s)) == SafeFilename(s)
  {
    var r := SafeFilename(s);
    SafeFilenameIsSafe(s);
    assert SafeReplaced(r) == r;
    StripUnchanged(r, {' ', '.'});
  }

  /** Unlike `sanitize_filename`, `safe_filename` keeps interior spaces. */
  lemma SafeFilenameKeepsSpaces()
    ensures SafeFilename("my plot") == "my plot"
    ensures Sanitized("my plot") == "my-plot"
  {
    SafeOfMyPlot();
    SanitizedOfMyPlot();
  }

  lemma SafeOfMyPlot()
    ensures SafeFilename("my plot") == "my plot"
  {
    SafeReplacedMyPlot();
    assert "my plot"[0] == 'm' && "my plot"[6] == 't';
    StripUnchanged("my plot", {' ', '.'});
  }

  lemma SafeReplacedMyPlot()
    ensures SafeReplaced("my plot") == "my plot"
  {
    assert SafeChar('m') == 'm' && SafeChar('y') == 'y' && SafeChar(' ') == ' ' && SafeChar('p') == 'p';
    assert SafeChar('l') == 'l' && SafeChar('o') == 'o' && SafeChar('t') == 't';
  }

  lemma SanitizedOfMyPlot()
    ensures Sanitized("my plot") == "my-plot"
  {
    SanitizeReplacedMyPlot();
    assert "my-plot"[0] == 'm' && "my-plot"[6] == 't';
    StripUnchanged("my-plot", {' ', '.'});
  }

  lemma SanitizeReplacedMyPlot()
    ensures SanitizeReplaced("my plot") == "my-plot"
  {
    assert SanitizeChar('m') == 'm' && SanitizeChar('y') == 'y' && SanitizeChar(' ') == '-' && SanitizeChar('p') == 'p';
    assert SanitizeChar('l') == 'l' && SanitizeChar('o') == 'o' && SanitizeChar('t') == 't';
  }

  /** The two sanitisers differ only in the treatment of spaces:
      `sanitize_filename` is `safe_filename` applied after turning every
      space into `-`. */
  lemma SanitizedIsSafeAfterDashes(s: string)
    ensures Sanitized(s) == SafeFilename(ReplaceChar(s, ' ', '-'))
  {
    var t := ReplaceChar(s, ' ', '-');
    assert forall k :: 0 <= k < |s| ==> SanitizeReplaced(s)[k] == SafeReplaced(t)[k];
    assert SanitizeReplaced(s) == SafeReplaced(t);
  }
}
