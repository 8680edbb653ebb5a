/** The `list` command of the snapshotplot command line (cli.py:234-261):
    it reads every plot record of the site in the working directory, keeps
    those that match the `--collection`, `--tag` and `--author` options, and
    prints one line per record, newest first. The printed text itself is not
    modelled; a row holds the three values the line shows. */
module CliList {
  import opened Values
  import opened Text
  import opened SiteTree
  import opened SiteMetadata
  import opened SitePlots
  import opened SiteBuild
  import Cli

  // ----- the filters (cli.py:245-253) -----

  /** One of the three options of `list`. */
  datatype Filter =
    | Collection(collection: string)   // `p.get('collection') == collection`
    | Tag(tag: string)                 // `tag in p.get('tags', [])`
    | Author(author: string)           // `p.get('author') == author`

  /** Python's `tag in p.get('tags', [])`: membership in a list, a
      substring of a string, a key of a dict; any other value raises
      TypeError, written None. A record without `tags` has none. */
  function TagIn(p: Plot, tag: string): Option<bool> {
    match Get(p, "tags", VList([]))
    case VList(items) => Some(VStr(tag) in items)
    case VStr(s) => Some(Find(s, tag).Some?)
    case VMap(m) => Some(tag in m)
    case _ => None
  }

  /** A record passes a filter. */
  predicate Passes(p: Plot, f: Filter) {
    match f
    case Collection(c) => Get(p, "collection", VNone) == VStr(c)
    case Tag(t) => TagIn(p, t) == Some(true)
    case Author(a) => Get(p, "author", VNone) == VStr(a)
  }

  /** A list comprehension with one filter: the records that pass it, in
      their order. */
  function Keep(ps: seq<Plot>, f: Filter): (r: seq<Plot>)
    ensures |r| <= |ps|
  {
    if ps == [] then [] else (if Passes(ps[0], f) then [ps[0]] else []) + Keep(ps[1..], f)
  }

  /** The tag comprehension, which raises as soon as it meets a record
      whose `tags` value does not support `in`. */
  function KeepTag(ps: seq<Plot>, tag: string): (r: Option<seq<Plot>>)
    ensures r.None? <==> exists i :: 0 <= i < |ps| && TagIn(ps[i], tag).None?
    ensures r.Some? ==> r.value == Keep(ps, Tag(tag))
  {
    if ps == [] then Some([])
    else
      match TagIn(ps[0], tag)
      case None => None
      case Some(b) =>
        match KeepTag(ps[1..], tag)
        case None => assert forall i :: 0 <= i < |ps| - 1 ==> ps[1..][i] == ps[i + 1]; None
        case Some(rest) => Some((if b then [ps[0]] else []) + rest)
  }

  /** A record passes every filter of a list. */
  predicate AllPass(p: Plot, fs: seq<Filter>) {
    forall i :: 0 <= i < |fs| ==> Passes(p, fs[i])
  }

  /** The reference: one pass keeping the records that pass every filter,
      in their order. */
  function Matching(ps: seq<Plot>, fs: seq<Filter>): (r: seq<Plot>)
    ensures |r| <= |ps|
  {
    if ps == [] then [] else (if AllPass(ps[0], fs) then [ps[0]] else []) + Matching(ps[1..], fs)
  }

  /** The filters the options ask for: an option counts when it is given
      and not empty (`if collection:`). */
  function Filters(c: Option<string>, t: Option<string>, a: Option<string>): seq<Filter> {
    (if Cli.Supplied(c) then [Collection(c.value)] else [])
      + (if Cli.Supplied(t) then [Tag(t.value)] else [])
      + (if Cli.Supplied(a) then [Author(a.value)] else [])
  }

  /** The records after the collection filter, the first of the three. */
  function ByCollection(ps: seq<Plot>, c: Option<string>): seq<Plot> {
    if Cli.Supplied(c) then Keep(ps, Collection(c.value)) else ps
  }

  /** The three comprehensions in the order `list` runs them; None when
      the tag comprehension raises. The result is the single-pass reference
      for the filters the options ask for. */
  function Filtered(ps: seq<Plot>, c: Option<string>, t: Option<string>, a: Option<string>): (r: Option<seq<Plot>>)
    ensures r.None? <==> Cli.Supplied(t) && exists x :: x in ByCollection(ps, c) && TagIn(x, t.value).None?
    ensures r.Some? ==> r.value == Matching(ps, Filters(c, t, a))
  {
    var p1 := ByCollection(ps, c);
    var p2 := if Cli.Supplied(t) then KeepTag(p1, t.value) else Some(p1);
    match p2
    case None => None
    case Some(q) =>
      StagesAgree(ps, c, t, a, q);
      Some(if Cli.Supplied(a) then Keep(q, Author(a.value)) else q)
  }

  /** The reference keeps exactly the records that pass every filter. */
  lemma {:induction false} MatchingMembers(ps: seq<Plot>, fs: seq<Filter>, x: Plot)
    ensures x in Matching(ps, fs) <==> x in ps && AllPass(x, fs)
    decreases |ps|
  {
    if ps != [] {
      MatchingMembers(ps[1..], fs, x);
      assert x in ps <==> x == ps[0] || x in ps[1..] by {
        assert ps == [ps[0]] + ps[1..];
      }
    }
  }

  lemma {:induction false} MatchingNone(ps: seq<Plot>)
    ensures Matching(ps, []) == ps
    decreases |ps|
  {
    if ps != [] {
      MatchingNone(ps[1..]);
      assert ps == [ps[0]] + ps[1..];
    }
  }

  /** Filtering the reference's result once more is the reference with
      one more filter. */
  lemma {:induction false} KeepThen(ps: seq<Plot>, fs: seq<Filter>, g: Filter)
    ensures Keep(Matching(ps, fs), g) == Matching(ps, fs + [g])
    decreases |ps|
  {
    if ps != [] {
      KeepThen(ps[1..], fs, g);
      var h := if AllPass(ps[0], fs) then [ps[0]] else [];
      KeepSplit(h, Matching(ps[1..], fs), g);
      assert AllPass(ps[0], fs + [g]) <==> AllPass(ps[0], fs) && Passes(ps[0], g) by {
        assert forall i :: 0 <= i < |fs| ==> (fs + [g])[i] == fs[i];
        assert (fs + [g])[|fs|] == g;
      }
      if AllPass(ps[0], fs) {
        assert Keep(h, g) == (if Passes(ps[0], g) then [ps[0]] else []) by {
          assert [ps[0]][1..] == [];
        }
      }
    }
  }

  lemma {:induction false} KeepSplit(a: seq<Plot>, b: seq<Plot>, g: Filter)
    ensures Keep(a + b, g) == Keep(a, g) + Keep(b, g)
    decreases |a|
  {
    if a != [] {
      var h := if Passes(a[0], g) then [a[0]] else [];
      assert (a + b)[0] == a[0] && (a + b)[1..] == a[1..] + b;
      calc {
        Keep(a + b, g);
        h + Keep(a[1..] + b, g);
        { KeepSplit(a[1..], b, g); }
        h + (Keep(a[1..], g) + Keep(b, g));
        (h + Keep(a[1..], g)) + Keep(b, g);
      }
    } else {
      assert a + b == b;
    }
  }

  /** The comprehensions that ran without raising leave the reference's
      records. */
  lemma StagesAgree(ps: seq<Plot>, c: Option<string>, t: Option<string>, a: Option<string>, q: seq<Plot>)
    requires (if Cli.Supplied(t) then KeepTag(ByCollection(ps, c), t.value) else Some(ByCollection(ps, c))) == Some(q)
    ensures (if Cli.Supplied(a) then Keep(q, Author(a.value)) else q) == Matching(ps, Filters(c, t, a))
  {
    var f1: seq<Filter> := if Cli.Supplied(c) then [Collection(c.value)] else [];
    var f2: seq<Filter> := if Cli.Supplied(t) then [Tag(t.value)] else [];
    var f3: seq<Filter> := if Cli.Supplied(a) then [Author(a.value)] else [];
    MatchingNone(ps);
    assert ByCollection(ps, c) == Matching(ps, f1) by {
      if Cli.Supplied(c) {
        KeepThen(ps, [], Collection(c.value));
        assert [] + f1 == f1;
      }
    }
    assert q == Matching(ps, f1 + f2) by {
      if Cli.Supplied(t) {
        KeepThen(ps, f1, Tag(t.value));
      } else {
        assert f1 + f2 == f1;
      }
    }
    if Cli.Supplied(a) {
      KeepThen(ps, f1 + f2, Author(a.value));
    } else {
      assert f1 + f2 + f3 == f1 + f2;
    }
  }

  /** The reference keeps the order of the records it keeps: from a list
      sorted newest first it keeps a sorted list. */
  lemma {:induction false} MatchingSorted(ps: seq<Plot>, fs: seq<Filter>)
    requires SortedDesc(ps)
    ensures SortedDesc(Matching(ps, fs))
    decreases |ps|
  {
    if ps != [] {
      SortedTail(ps);
      MatchingSorted(ps[1..], fs);
      if AllPass(ps[0], fs) {
        var rest := Matching(ps[1..], fs);
        forall j | 0 <= j < |rest|
          ensures !KeyLess(DateKey(ps[0]), DateKey(rest[j]))
        {
          assert rest[j] in rest;
          MatchingMembers(ps[1..], fs, rest[j]);
          var k :| 0 <= k < |ps[1..]| && ps[1..][k] == rest[j];
          assert ps[k + 1] == rest[j];
        }
        SortedCons(ps[0], rest);
      }
    }
  }

  /** With no option given, every record is listed. */
  lemma NoOptionsKeepAll(ps: seq<Plot>, c: Option<string>, t: Option<string>, a: Option<string>)
    requires !Cli.Supplied(c) && !Cli.Supplied(t) && !Cli.Supplied(a)
    ensures Filtered(ps, c, t, a) == Some(ps)
  {
    MatchingNone(ps);
  }

  // ----- the printed rows (cli.py:255-261) -----

  /** What one line shows: `plot['title']`, `plot['collection']` and
      `plot['date']`. */
  datatype Row = Row(title: Value, collection: Value, date: Value)

  /** The row of a record; None when one of the three subscripts raises
      KeyError. */
  function RowOf(p: Plot): Option<Row> {
    if "title" in p && "collection" in p && "date" in p
    then Some(Row(p["title"], p["collection"], p["date"]))
    else None
  }

  /** The loop printing the rows: all of them, or (as the error) the rows
      printed before the first record that lacks a key. */
  function RowsOf(ps: seq<Plot>): (r: Result<seq<Row>, seq<Row>>)
    ensures r.Ok? <==> forall i :: 0 <= i < |ps| ==> RowOf(ps[i]).Some?
    ensures r.Ok? ==> |r.value| == |ps| && forall i :: 0 <= i < |ps| ==> RowOf(ps[i]) == Some(r.value[i])
    ensures r.Err? ==>
      && |r.error| < |ps| && RowOf(ps[|r.error|]).None?
      && forall i :: 0 <= i < |r.error| ==> RowOf(ps[i]) == Some(r.error[i])
    decreases |ps|
  {
    if ps == [] then Ok([])
    else
      var front := ps[..|ps| - 1];
      assert forall i :: 0 <= i < |front| ==> front[i] == ps[i];
      match RowsOf(front)
      case Err(shown) => Err(shown)
      case Ok(rows) =>
        match RowOf(ps[|ps| - 1])
        case None => Err(rows)
        case Some(row) => Ok(rows + [row])
  }

  /** Once a prefix of the records fails, the whole loop fails the same
      way. */
  lemma {:induction false} RowsErrStays(ps: seq<Plot>, k: nat)
    requires k <= |ps| && RowsOf(ps[..k]).Err?
    ensures RowsOf(ps) == RowsOf(ps[..k])
    decreases |ps| - k
  {
    if k < |ps| {
      assert ps[..k + 1][..k] == ps[..k];
      RowsErrStays(ps, k + 1);
    } else {
      assert ps[..k] == ps;
    }
  }

  // ----- the command -----

  datatype ListOutcome =
    | NoConfig                 // no `_config.yml`: the command stops with a message
    | SiteFailed(error: Error) // the site generator or `get_all_plots` raises
    | TagsNotIterable          // the tag comprehension raises TypeError
    | NoPlots                  // "No plots found."
    | Listed(rows: seq<Row>)   // "Found N plots:" and one row per record
    | RowFailed(shown: seq<Row>) // KeyError after printing these rows

  /** `list` on the site held by the working directory. */
  function ListRun(site: seq<Node>, env: Env, c: Option<string>, t: Option<string>, a: Option<string>): ListOutcome {
    if Lookup(site, "_config.yml").None? then NoConfig
    else
      match NewGenerator(site, env)
      case Err(e) => SiteFailed(e)
      case Ok(g) =>
        match AllPlots(g.site, env)
        case Err(e) => SiteFailed(e)
        case Ok(ps) =>
          match Filtered(ps, c, t, a)
          case None => TagsNotIterable
          case Some(qs) =>
            if qs == [] then NoPlots
            else
              match RowsOf(qs)
              case Ok(rows) => Listed(rows)
              case Err(shown) => RowFailed(shown)
  }

  /** `list` (cli.py:238-261), step by step. */
  method ListPlots(site: seq<Node>, env: Env, c: Option<string>, t: Option<string>, a: Option<string>)
    returns (r: ListOutcome)
    ensures r == ListRun(site, env, c, t, a)
  {
    if Lookup(site, "_config.yml").None? {
      return NoConfig;
    }
    var generator := NewGenerator(site, env);
    if generator.Err? {
      return SiteFailed(generator.error);
    }
    var all := GetAllPlots(generator.value.site, env);
    if all.Err? {
      return SiteFailed(all.error);
    }
    var filtered := FilterPlots(all.value, c, t, a);
    if filtered.None? {
      return TagsNotIterable;
    }
    if filtered.value == [] {
      return NoPlots;
    }
    var rows := ShowRows(filtered.value);
    r := if rows.Ok? then Listed(rows.value) else RowFailed(rows.error);
  }

  /** The three comprehensions (cli.py:245-253), each replacing the list;
      None when the tag comprehension raises. */
  method FilterPlots(all: seq<Plot>, c: Option<string>, t: Option<string>, a: Option<string>)
    returns (r: Option<seq<Plot>>)
    ensures r == Filtered(all, c, t, a)
  {
    var plots := all;
    if Cli.Supplied(c) {
      plots := Keep(plots, Collection(c.value));
    }
    if Cli.Supplied(t) {
      var tagged := KeepTag(plots, t.value);
      if tagged.None? {
        return None;
      }
      plots := tagged.value;
    }
    if Cli.Supplied(a) {
      plots := Keep(plots, Author(a.value));
    }
    return Some(plots);
  }

  /** The loop printing one row per record (cli.py:260-261); it stops at the
      first record that lacks a key. */
  method ShowRows(plots: seq<Plot>) returns (r: Result<seq<Row>, seq<Row>>)
    ensures r == RowsOf(plots)
  {
    var rows: seq<Row> := [];
    for i := 0 to |plots|
      invariant RowsOf(plots[..i]) == Ok(rows)
    {
      assert plots[..i + 1][..i] == plots[..i];
      var row := RowOf(plots[i]);
      if row.None? {
        RowsErrStays(plots, i + 1);
        return Err(rows);
      }
      rows := rows + [row.value];
    }
    assert plots[..|plots|] == plots;
    return Ok(rows);
  }

  /** A completed listing shows, newest first, exactly the records that
      pass every requested filter, one row per record. */
  lemma ListedAreMatching(site: seq<Node>, env: Env, c: Option<string>, t: Option<string>, a: Option<string>)
    requires ListRun(site, env, c, t, a).Listed?
    ensures AllPlots(site, env).Ok?
    ensures var m := Matching(AllPlots(site, env).value, Filters(c, t, a));
      var rows := ListRun(site, env, c, t, a).rows;
      && m != [] && |rows| == |m|
      && (forall i :: 0 <= i < |m| ==> RowOf(m[i]) == Some(rows[i]))
      && SortedDesc(m)
  {
    var ps := AllPlots(site, env).value;
    var u := Unsorted(site, env);
    assert u.Ok? && ps == SortByDate(u.value).value;
    SortByDateProperties(u.value);
    MatchingSorted(ps, Filters(c, t, a));
  }

  /** `list` prints "No plots found." exactly when the filtered records
      are none. */
  lemma NoPlotsWhenEmpty(site: seq<Node>, env: Env, c: Option<string>, t: Option<string>, a: Option<string>)
    requires Lookup(site, "_config.yml").Some? && LoadConfig(site, env).Ok? && AllPlots(site, env).Ok?
    requires Filtered(AllPlots(site, env).value, c, t, a).Some?
    ensures ListRun(site, env, c, t, a) == NoPlots
      <==> Matching(AllPlots(site, env).value, Filters(c, t, a)) == []
  {
  }

  /** "No plots found." exactly when no record passes every requested
      filter (and nothing raised before). */
  lemma NothingListed(site: seq<Node>, env: Env, c: Option<string>, t: Option<string>, a: Option<string>)
    requires Lookup(site, "_config.yml").Some? && LoadConfig(site, env).Ok? && AllPlots(site, env).Ok?
    requires Filtered(AllPlots(site, env).value, c, t, a).Some?
    ensures ListRun(site, env, c, t, a) == NoPlots
      <==> forall x :: x in AllPlots(site, env).value ==> !AllPass(x, Filters(c, t, a))
  {
    var ps := AllPlots(site, env).value;
    var m := Matching(ps, Filters(c, t, a));
    NoPlotsWhenEmpty(site, env, c, t, a);
    if m != [] {
      assert m[0] in m;
      MatchingMembers(ps, Filters(c, t, a), m[0]);
    } else {
      forall x | x in ps
        ensures !AllPass(x, Filters(c, t, a))
      {
        MatchingMembers(ps, Filters(c, t, a), x);
      }
    }
  }
}
