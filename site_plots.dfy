/** The plot listing of snapshotplot/site_generator.py: `get_all_plots`
    walks `collections/<name>/<entry>/`, keeps the entries whose record
    loads, tags each with its collection and slug and sorts the list newest
    first; `_build_index` and `_build_collections` then group it by
    collection. */
module SitePlots {

  import opened Values
  import opened Text
  import opened SiteTree
  import opened SiteMetadata

  /** A plot record: the metadata dict of one entry directory. */
  type Plot = Dict

  // ----- collecting the records (site_generator.py:58-80) -----

  /** A record as `get_all_plots` keeps it: the loaded metadata with
      `collection` and `slug` set from the directory names. */
  function Tagged(m: Dict, collection: string, slug: string): (r: Plot)
    ensures r.Keys == m.Keys + {"collection", "slug"}
    ensures r["collection"] == VStr(collection) && r["slug"] == VStr(slug)
    ensures forall k :: k in m && k != "collection" && k != "slug" ==> r[k] == m[k]
  {
    m["collection" := VStr(collection)]["slug" := VStr(slug)]
  }

  /** An entry of a collection directory that the listing looks into: a
      directory whose name does not start with `_`. */
  predicate IsPlotDir(n: Node) {
    n.Dir? && !StartsWith(n.name, "_")
  }

  /** The records of the entries of one collection, in listing order; the
      first failure to load a record is the result. */
  function CollectionPlots(collection: string, entries: seq<Node>, env: Env): (r: Result<seq<Plot>, Error>)
    ensures r.Ok? ==> |r.value| <= |entries|
    decreases |entries|
  {
    if entries == [] then Ok([])
    else AfterEntry(CollectionPlots(collection, entries[..|entries| - 1], env), collection, entries[|entries| - 1], env)
  }

  /** The list after one more entry, unless an earlier one failed. */
  function AfterEntry(prev: Result<seq<Plot>, Error>, collection: string, n: Node, env: Env): (r: Result<seq<Plot>, Error>)
    ensures prev.Err? ==> r == prev
    ensures prev.Ok? && r.Ok? ==> |r.value| <= |prev.value| + 1
  {
    match prev
    case Err(_) => prev
    case Ok(ps) => PlotStep(collection, n, env, ps)
  }

  /** One turn of the inner loop: skip the entry, or load its record and
      append it when it is truthy. */
  function PlotStep(collection: string, n: Node, env: Env, ps: seq<Plot>): (r: Result<seq<Plot>, Error>)
    ensures r.Ok? ==> r.value == ps || (|r.value| == |ps| + 1 && r.value[..|ps|] == ps)
  {
    if !IsPlotDir(n) then Ok(ps)
    else
      match LoadPlotMetadata(n.name, n.children, env)
      case Err(e) => Err(e)
      case Ok(None) => Ok(ps)
      case Ok(Some(m)) => if m == map[] then Ok(ps) else Ok(ps + [Tagged(m, collection, n.name)])
  }

  /** The records of every collection directory, in listing order. */
  function PlotsOf(collections: seq<Node>, env: Env): (r: Result<seq<Plot>, Error>)
    decreases |collections|
  {
    if collections == [] then Ok([])
    else AfterCollection(PlotsOf(collections[..|collections| - 1], env), collections[|collections| - 1], env)
  }

  /** The list after one more collection directory, unless an earlier one
      failed; a file among the collections is skipped. */
  function AfterCollection(prev: Result<seq<Plot>, Error>, c: Node, env: Env): (r: Result<seq<Plot>, Error>)
    ensures prev.Err? ==> r == prev
    ensures prev.Ok? && !c.Dir? ==> r == prev
  {
    match prev
    case Err(_) => prev
    case Ok(ps) =>
      if !c.Dir? then Ok(ps)
      else
        match CollectionPlots(c.name, c.children, env)
        case Err(e) => Err(e)
        case Ok(qs) => Ok(ps + qs)
  }

  /** The unsorted list: nothing without `collections/`; listing a file
      raises. */
  function Unsorted(site: seq<Node>, env: Env): (r: Result<seq<Plot>, Error>)
    ensures Lookup(site, "collections").None? ==> r == Ok([])
  {
    match Lookup(site, "collections")
    case None => Ok([])
    case Some(File(_, _)) => Err(NotADirectory)
    case Some(Dir(_, cs)) => PlotsOf(cs, env)
  }

  /** `get_all_plots()` */
  function AllPlots(site: seq<Node>, env: Env): (r: Result<seq<Plot>, Error>)
    ensures Lookup(site, "collections").None? ==> r == Ok([])
  {
    match Unsorted(site, env)
    case Err(e) => Err(e)
    case Ok(ps) => SortByDate(ps)
  }

  /** A failure in a prefix of the listing is the failure of the whole
      listing: the loop stops at the first exception. */
  lemma {:induction false} CollectionPlotsErr(collection: string, entries: seq<Node>, env: Env, k: nat)
    requires k <= |entries| && CollectionPlots(collection, entries[..k], env).Err?
    ensures CollectionPlots(collection, entries, env) == CollectionPlots(collection, entries[..k], env)
    decreases |entries| - k
  {
    if k < |entries| {
      var front := entries[..|entries| - 1];
      assert front[..k] == entries[..k];
      CollectionPlotsErr(collection, front, env, k);
    } else {
      assert entries[..k] == entries;
    }
  }

  lemma {:induction false} PlotsOfErr(collections: seq<Node>, env: Env, k: nat)
    requires k <= |collections| && PlotsOf(collections[..k], env).Err?
    ensures PlotsOf(collections, env) == PlotsOf(collections[..k], env)
    decreases |collections| - k
  {
    if k < |collections| {
      var front := collections[..|collections| - 1];
      assert front[..k] == collections[..k];
      PlotsOfErr(front, env, k);
    } else {
      assert collections[..k] == collections;
    }
  }

  lemma CollectionPlotsSnoc(collection: string, entries: seq<Node>, j: nat, env: Env)
    requires j < |entries|
    ensures CollectionPlots(collection, entries[..j + 1], env)
      == AfterEntry(CollectionPlots(collection, entries[..j], env), collection, entries[j], env)
  {
    assert entries[..j + 1][..j] == entries[..j];
  }

  lemma PlotsOfSnoc(collections: seq<Node>, i: nat, env: Env)
    requires i < |collections|
    ensures PlotsOf(collections[..i + 1], env) == AfterCollection(PlotsOf(collections[..i], env), collections[i], env)
  {
    assert collections[..i + 1][..i] == collections[..i];
  }

  /** The inner loop of `get_all_plots`: the records of one collection
      directory's entries, or the first failure. */
  method ScanCollection(c: Node, env: Env) returns (r: Result<seq<Plot>, Error>)
    requires c.Dir?
    ensures r == CollectionPlots(c.name, c.children, env)
  {
    var inner: seq<Plot> := [];
    for j := 0 to |c.children|
      invariant CollectionPlots(c.name, c.children[..j], env) == Ok(inner)
    {
      CollectionPlotsSnoc(c.name, c.children, j, env);
      var n := c.children[j];
      if IsPlotDir(n) {
        var meta := LoadPlotMetadata(n.name, n.children, env);
        if meta.Err? {
          CollectionPlotsErr(c.name, c.children, env, j + 1);
          return Err(meta.error);
        }
        if meta.value.Some? && meta.value.value != map[] {
          inner := inner + [Tagged(meta.value.value, c.name, n.name)];
        }
      }
    }
    assert c.children[..|c.children|] == c.children;
    return Ok(inner);
  }

  /** `get_all_plots`: the nested loops append the records, then the list
      is sorted. */
  method GetAllPlots(site: seq<Node>, env: Env) returns (r: Result<seq<Plot>, Error>)
    ensures r == AllPlots(site, env)
  {
    var found := Lookup(site, "collections");
    if found.None? {
      return Ok([]);
    }
    if found.value.File? {
      return Err(NotADirectory);
    }
    var collections := found.value.children;
    var plots: seq<Plot> := [];
    for i := 0 to |collections|
      invariant PlotsOf(collections[..i], env) == Ok(plots)
    {
      PlotsOfSnoc(collections, i, env);
      var c := collections[i];
      if c.Dir? {
        var inner := ScanCollection(c, env);
        if inner.Err? {
          PlotsOfErr(collections, env, i + 1);
          return Err(inner.error);
        }
        plots := plots + inner.value;
      }
    }
    assert collections[..|collections|] == collections;
    r := SortByDate(plots);
  }

  /** Every record of the listing carries the name of its collection and
      the name of its own directory. */
  lemma {:induction false} CollectionPlotsTagged(collection: string, entries: seq<Node>, env: Env)
    requires CollectionPlots(collection, entries, env).Ok?
    ensures var ps := CollectionPlots(collection, entries, env).value;
      forall i :: 0 <= i < |ps| ==>
        && "collection" in ps[i] && ps[i]["collection"] == VStr(collection) && "slug" in ps[i]
        && exists j :: 0 <= j < |entries| && IsPlotDir(entries[j]) && ps[i]["slug"] == VStr(entries[j].name)
    decreases |entries|
  {
    if entries != [] {
      var front := entries[..|entries| - 1];
      CollectionPlotsTagged(collection, front, env);
      var ps := CollectionPlots(collection, front, env).value;
      var qs := CollectionPlots(collection, entries, env).value;
      forall i | 0 <= i < |qs|
        ensures "collection" in qs[i] && qs[i]["collection"] == VStr(collection) && "slug" in qs[i]
        ensures exists j :: 0 <= j < |entries| && IsPlotDir(entries[j]) && qs[i]["slug"] == VStr(entries[j].name)
      {
        if i < |ps| {
          assert qs[i] == ps[i];
          var j :| 0 <= j < |front| && IsPlotDir(front[j]) && ps[i]["slug"] == VStr(front[j].name);
          assert entries[j] == front[j];
        } else {
          assert qs != ps;
          assert IsPlotDir(entries[|entries| - 1]);
        }
      }
    }
  }

  /** An entry directory contributes exactly when it is a plot directory
      whose record loads to a non-empty dict: the record, tagged, is then
      the last element of the list so far. */
  lemma PlotStepKeeps(collection: string, n: Node, env: Env, ps: seq<Plot>)
    ensures !IsPlotDir(n) ==> PlotStep(collection, n, env, ps) == Ok(ps)
    ensures IsPlotDir(n) && LoadPlotMetadata(n.name, n.children, env) == Ok(None) ==> PlotStep(collection, n, env, ps) == Ok(ps)
    ensures IsPlotDir(n) && LoadPlotMetadata(n.name, n.children, env).Ok? && LoadPlotMetadata(n.name, n.children, env).value.Some?
      && LoadPlotMetadata(n.name, n.children, env).value.value != map[]
      ==> PlotStep(collection, n, env, ps) == Ok(ps + [Tagged(LoadPlotMetadata(n.name, n.children, env).value.value, collection, n.name)])
  {
  }

  // ----- the order of the listing (site_generator.py:83) -----

  /** The sort key `x.get('date', '')` as far as Python can order it:
      strings among themselves, numbers (ints and bools) among themselves,
      anything else with nothing. */
  datatype SortKey = StrKey(s: string) | NumKey(n: int) | NoOrder

  function DateKey(p: Plot): (k: SortKey)
    ensures "date" !in p ==> k == StrKey("")
  {
    match Get(p, "date", VStr(""))
    case VStr(s) => StrKey(s)
    case VInt(i) => NumKey(i)
    case VBool(b) => NumKey(if b then 1 else 0)
    case _ => NoOrder
  }

  /** Python's `<` between two keys of the same kind. */
  predicate KeyLess(a: SortKey, b: SortKey) {
    match (a, b)
    case (StrKey(s), StrKey(t)) => LexLess(s, t)
    case (NumKey(m), NumKey(n)) => m < n
    case _ => false
  }

  /** The kind of a key: 0 for strings, 1 for numbers, 2 for the rest. */
  function Kind(k: SortKey): nat {
    match k
    case StrKey(_) => 0
    case NumKey(_) => 1
    case NoOrder => 2
  }

  /** All keys of the list are strings, or all are numbers. */
  predicate OfKind(ps: seq<Plot>, kd: nat) {
    kd < 2 && forall i :: 0 <= i < |ps| ==> Kind(DateKey(ps[i])) == kd
  }

  predicate Orderable(ps: seq<Plot>) {
    OfKind(ps, 0) || OfKind(ps, 1)
  }

  lemma KeyLessIrreflexive(a: SortKey)
    ensures !KeyLess(a, a)
  {
    if a.StrKey? {
      LexLessIrreflexive(a.s);
    }
  }

  lemma KeyLessTransitive(a: SortKey, b: SortKey, c: SortKey)
    requires KeyLess(a, b) && KeyLess(b, c)
    ensures KeyLess(a, c)
  {
    if a.StrKey? {
      LexLessTransitive(a.s, b.s, c.s);
    }
  }

  lemma KeyLessTotal(a: SortKey, b: SortKey)
    requires Kind(a) == Kind(b) < 2 && a != b
    ensures KeyLess(a, b) || KeyLess(b, a)
  {
    if a.StrKey? {
      LexLessTotal(a.s, b.s);
    }
  }

  lemma KeyLessAsymmetric(a: SortKey, b: SortKey)
    requires KeyLess(a, b)
    ensures !KeyLess(b, a)
  {
    if a.StrKey? {
      LexLessAsymmetric(a.s, b.s);
    }
  }

  /** Insert `x` into a newest-first list after every record whose key is
      not smaller: before the first record with a strictly smaller key. */
  function InsertDesc(sorted: seq<Plot>, x: Plot): (r: seq<Plot>)
    ensures |r| == |sorted| + 1
    ensures multiset(r) == multiset(sorted) + multiset{x}
  {
    if sorted == [] then [x]
    else if KeyLess(DateKey(sorted[0]), DateKey(x)) then [x] + sorted
    else
      assert sorted == [sorted[0]] + sorted[1..];
      [sorted[0]] + InsertDesc(sorted[1..], x)
  }

  /** `sorted(ps, key=date, reverse=True)` for keys Python can order: a
      stable sort, each record inserted after the earlier ones. */
  function SortDesc(ps: seq<Plot>): (r: seq<Plot>)
    ensures |r| == |ps|
    decreases |ps|
  {
    if ps == [] then []
    else InsertDesc(SortDesc(ps[..|ps| - 1]), ps[|ps| - 1])
  }

  /** `plots.sort(key=lambda x: x.get('date', ''), reverse=True)`: with two
      or more records every key is compared with another, so keys of
      different kinds, or keys Python cannot order, raise. */
  function SortByDate(ps: seq<Plot>): (r: Result<seq<Plot>, Error>)
    ensures r.Err? <==> |ps| >= 2 && !Orderable(ps)
    ensures r.Err? ==> r.error == Unorderable
  {
    if |ps| < 2 || Orderable(ps) then Ok(SortDesc(ps)) else Err(Unorderable)
  }

  /** Newest first: no record has a key smaller than a later one's. */
  predicate SortedDesc(ps: seq<Plot>) {
    forall i, j :: 0 <= i < j < |ps| ==> !KeyLess(DateKey(ps[i]), DateKey(ps[j]))
  }

  lemma OfKindElement(ps: seq<Plot>, kd: nat, x: Plot)
    requires OfKind(ps, kd) && x in multiset(ps)
    ensures Kind(DateKey(x)) == kd
  {
    var i :| 0 <= i < |ps| && ps[i] == x;
  }

  lemma SortedTail(s: seq<Plot>)
    requires SortedDesc(s) && s != []
    ensures SortedDesc(s[1..])
  {
    forall i, j | 0 <= i < j < |s| - 1
      ensures !KeyLess(DateKey(s[1..][i]), DateKey(s[1..][j]))
    {
      assert s[1..][i] == s[i + 1] && s[1..][j] == s[j + 1];
    }
  }

  lemma SortedCons(a: Plot, s: seq<Plot>)
    requires SortedDesc(s)
    requires forall j :: 0 <= j < |s| ==> !KeyLess(DateKey(a), DateKey(s[j]))
    ensures SortedDesc([a] + s)
  {
    var r := [a] + s;
    forall i, j | 0 <= i < j < |r|
      ensures !KeyLess(DateKey(r[i]), DateKey(r[j]))
    {
      assert r[j] == s[j - 1];
      if i > 0 {
        assert r[i] == s[i - 1];
      }
    }
  }

  /** A key larger than the head of a newest-first list is larger than
      every key of the list. */
  lemma AboveHead(sorted: seq<Plot>, x: Plot, kd: nat, j: nat)
    requires OfKind(sorted, kd) && Kind(DateKey(x)) == kd && SortedDesc(sorted)
    requires j < |sorted| && KeyLess(DateKey(sorted[0]), DateKey(x))
    ensures KeyLess(DateKey(sorted[j]), DateKey(x))
  {
    var y := sorted[j];
    if DateKey(y) != DateKey(sorted[0]) {
      assert j > 0;
      assert !KeyLess(DateKey(sorted[0]), DateKey(y));
      KeyLessTotal(DateKey(y), DateKey(sorted[0]));
      KeyLessTransitive(DateKey(y), DateKey(sorted[0]), DateKey(x));
    }
  }

  lemma BelowHead(sorted: seq<Plot>, x: Plot, y: Plot)
    requires SortedDesc(sorted) && sorted != []
    requires !KeyLess(DateKey(sorted[0]), DateKey(x))
    requires y in multiset(sorted[1..]) + multiset{x}
    ensures !KeyLess(DateKey(sorted[0]), DateKey(y))
  {
    if y != x {
      assert y in multiset(sorted[1..]);
      var m :| 0 <= m < |sorted| - 1 && sorted[1..][m] == y;
      assert sorted[m + 1] == y;
    }
  }

  lemma OfKindCons(a: Plot, s: seq<Plot>, kd: nat)
    requires OfKind(s, kd) && Kind(DateKey(a)) == kd
    ensures OfKind([a] + s, kd)
  {
    forall i | 0 < i <= |s|
      ensures Kind(DateKey(([a] + s)[i])) == kd
    {
      assert ([a] + s)[i] == s[i - 1];
    }
  }

  /** Inserting a key larger than the head puts it in front. */
  lemma InsertInFront(sorted: seq<Plot>, x: Plot, kd: nat)
    requires OfKind(sorted, kd) && Kind(DateKey(x)) == kd && SortedDesc(sorted)
    requires sorted != [] && KeyLess(DateKey(sorted[0]), DateKey(x))
    ensures SortedDesc([x] + sorted) && OfKind([x] + sorted, kd)
  {
    forall j | 0 <= j < |sorted|
      ensures !KeyLess(DateKey(x), DateKey(sorted[j]))
    {
      AboveHead(sorted, x, kd, j);
      KeyLessAsymmetric(DateKey(sorted[j]), DateKey(x));
    }
    SortedCons(x, sorted);
    OfKindCons(x, sorted, kd);
  }

  /** Otherwise the head stays in front of the insertion into the tail. */
  lemma InsertBehind(sorted: seq<Plot>, x: Plot, kd: nat, rest: seq<Plot>)
    requires OfKind(sorted, kd) && SortedDesc(sorted) && sorted != []
    requires !KeyLess(DateKey(sorted[0]), DateKey(x))
    requires SortedDesc(rest) && OfKind(rest, kd)
    requires multiset(rest) == multiset(sorted[1..]) + multiset{x}
    ensures SortedDesc([sorted[0]] + rest) && OfKind([sorted[0]] + rest, kd)
  {
    forall j | 0 <= j < |rest|
      ensures !KeyLess(DateKey(sorted[0]), DateKey(rest[j]))
    {
      assert rest[j] in multiset(rest);
      BelowHead(sorted, x, rest[j]);
    }
    SortedCons(sorted[0], rest);
    OfKindCons(sorted[0], rest, kd);
  }

  lemma {:induction false} InsertDescSorted(sorted: seq<Plot>, x: Plot, kd: nat)
    requires OfKind(sorted, kd) && Kind(DateKey(x)) == kd && SortedDesc(sorted)
    ensures SortedDesc(InsertDesc(sorted, x)) && OfKind(InsertDesc(sorted, x), kd)
    decreases |sorted|
  {
    if sorted == [] {
    } else if KeyLess(DateKey(sorted[0]), DateKey(x)) {
      InsertInFront(sorted, x, kd);
    } else {
      SortedTail(sorted);
      assert OfKind(sorted[1..], kd);
      InsertDescSorted(sorted[1..], x, kd);
      InsertBehind(sorted, x, kd, InsertDesc(sorted[1..], x));
    }
  }

  /** The sort keeps every record exactly once. */
  lemma {:induction false} SortDescPermutes(ps: seq<Plot>)
    ensures multiset(SortDesc(ps)) == multiset(ps)
    decreases |ps|
  {
    if ps != [] {
      var front := ps[..|ps| - 1];
      SortDescPermutes(front);
      assert ps == front + [ps[|ps| - 1]];
    }
  }

  /** The sort puts the records newest first and keeps all its keys of the
      same kind. */
  lemma {:induction false} SortDescSorted(ps: seq<Plot>, kd: nat)
    requires OfKind(ps, kd)
    ensures SortedDesc(SortDesc(ps)) && OfKind(SortDesc(ps), kd)
    decreases |ps|
  {
    if ps != [] {
      var front := ps[..|ps| - 1];
      OfKindFront(ps, kd);
      SortDescSorted(front, kd);
      InsertDescSorted(SortDesc(front), ps[|ps| - 1], kd);
    }
  }

  /** The records whose key equals `k`, in order. */
  function WithKey(ps: seq<Plot>, k: SortKey): (r: seq<Plot>)
    ensures |r| <= |ps|
  {
    if ps == [] then []
    else (if DateKey(ps[0]) == k then [ps[0]] else []) + WithKey(ps[1..], k)
  }

  lemma {:induction false} WithKeyAppend(a: seq<Plot>, b: seq<Plot>, k: SortKey)
    ensures WithKey(a + b, k) == WithKey(a, k) + WithKey(b, k)
    decreases |a|
  {
    if a != [] {
      var h := if DateKey(a[0]) == k then [a[0]] else [];
      assert WithKey(a + b, k) == h + WithKey(a[1..] + b, k) by {
        assert (a + b)[0] == a[0] && (a + b)[1..] == a[1..] + b;
      }
      WithKeyAppend(a[1..], b, k);
      assert WithKey(a, k) == h + WithKey(a[1..], k);
    } else {
      assert a + b == b;
    }
  }

  lemma {:induction false} WithKeyNone(ps: seq<Plot>, k: SortKey)
    requires forall i :: 0 <= i < |ps| ==> DateKey(ps[i]) != k
    ensures WithKey(ps, k) == []
    decreases |ps|
  {
    if ps != [] {
      WithKeyNone(ps[1..], k);
    }
  }

  /** A record inserted in front has a key larger than every record of
      the list, so it shares its key with none of them. */
  lemma InsertFrontWithKey(sorted: seq<Plot>, x: Plot, k: SortKey, kd: nat)
    requires OfKind(sorted, kd) && Kind(DateKey(x)) == kd && SortedDesc(sorted)
    requires sorted != [] && KeyLess(DateKey(sorted[0]), DateKey(x)) && DateKey(x) == k
    ensures WithKey(sorted, k) == []
  {
    forall i | 0 <= i < |sorted|
      ensures DateKey(sorted[i]) != k
    {
      AboveHead(sorted, x, kd, i);
      KeyLessIrreflexive(DateKey(x));
    }
    WithKeyNone(sorted, k);
  }

  lemma WithKeyCons(a: Plot, s: seq<Plot>, k: SortKey)
    ensures WithKey([a] + s, k) == (if DateKey(a) == k then [a] else []) + WithKey(s, k)
  {
    assert ([a] + s)[0] == a && ([a] + s)[1..] == s;
  }

  /** Inserting behind the head: the head's contribution, then the
      insertion into the tail. */
  lemma InsertBehindWithKey(sorted: seq<Plot>, x: Plot, k: SortKey)
    requires sorted != [] && !KeyLess(DateKey(sorted[0]), DateKey(x))
    requires WithKey(InsertDesc(sorted[1..], x), k) == WithKey(sorted[1..], k) + (if DateKey(x) == k then [x] else [])
    ensures WithKey(InsertDesc(sorted, x), k) == WithKey(sorted, k) + (if DateKey(x) == k then [x] else [])
  {
    var t := sorted[1..];
    assert InsertDesc(sorted, x) == [sorted[0]] + InsertDesc(t, x);
    assert sorted == [sorted[0]] + t;
    ConsWithKeyStep(sorted[0], t, InsertDesc(t, x), k, if DateKey(x) == k then [x] else []);
  }

  /** Putting the same record in front of two sequences keeps a relation
      between their records with key `k`. */
  lemma ConsWithKeyStep(h: Plot, t: seq<Plot>, u: seq<Plot>, k: SortKey, extra: seq<Plot>)
    requires WithKey(u, k) == WithKey(t, k) + extra
    ensures WithKey([h] + u, k) == WithKey([h] + t, k) + extra
  {
    WithKeyCons(h, u, k);
    WithKeyCons(h, t, k);
  }

  /** Inserting in front: the record is the only one with its key. */
  lemma InsertInFrontWithKey(sorted: seq<Plot>, x: Plot, k: SortKey, kd: nat)
    requires OfKind(sorted, kd) && Kind(DateKey(x)) == kd && SortedDesc(sorted)
    requires sorted != [] && KeyLess(DateKey(sorted[0]), DateKey(x))
    ensures WithKey(InsertDesc(sorted, x), k) == WithKey(sorted, k) + (if DateKey(x) == k then [x] else [])
  {
    WithKeyCons(x, sorted, k);
    if DateKey(x) == k {
      InsertFrontWithKey(sorted, x, k, kd);
    }
  }

  lemma {:induction false} InsertDescWithKey(sorted: seq<Plot>, x: Plot, k: SortKey, kd: nat)
    requires OfKind(sorted, kd) && Kind(DateKey(x)) == kd && SortedDesc(sorted)
    ensures WithKey(InsertDesc(sorted, x), k) == WithKey(sorted, k) + (if DateKey(x) == k then [x] else [])
    decreases |sorted|
  {
    if sorted == [] {
      WithKeyCons(x, [], k);
    } else if KeyLess(DateKey(sorted[0]), DateKey(x)) {
      InsertInFrontWithKey(sorted, x, k, kd);
    } else {
      SortedTail(sorted);
      OfKindTail(sorted, kd);
      InsertDescWithKey(sorted[1..], x, k, kd);
      InsertBehindWithKey(sorted, x, k);
    }
  }

  /** The sort is stable: the records sharing a key keep their listing
      order. */
  lemma {:induction false} SortDescStable(ps: seq<Plot>, k: SortKey, kd: nat)
    requires OfKind(ps, kd)
    ensures WithKey(SortDesc(ps), k) == WithKey(ps, k)
    decreases |ps|
  {
    if ps != [] {
      var front := ps[..|ps| - 1];
      var x := ps[|ps| - 1];
      OfKindFront(ps, kd);
      SortDescStable(front, k, kd);
      SortDescSorted(front, kd);
      InsertDescWithKey(SortDesc(front), x, k, kd);
      WithKeyLast(ps, k);
    }
  }

  lemma OfKindTail(ps: seq<Plot>, kd: nat)
    requires OfKind(ps, kd) && ps != []
    ensures OfKind(ps[1..], kd)
  {
    assert forall i :: 0 <= i < |ps| - 1 ==> ps[1..][i] == ps[i + 1];
  }

  lemma OfKindFront(ps: seq<Plot>, kd: nat)
    requires OfKind(ps, kd) && ps != []
    ensures OfKind(ps[..|ps| - 1], kd) && Kind(DateKey(ps[|ps| - 1])) == kd
  {
    assert forall i :: 0 <= i < |ps| - 1 ==> ps[..|ps| - 1][i] == ps[i];
  }

  lemma WithKeyLast(ps: seq<Plot>, k: SortKey)
    requires ps != []
    ensures WithKey(ps, k) == WithKey(ps[..|ps| - 1], k) + (if DateKey(ps[|ps| - 1]) == k then [ps[|ps| - 1]] else [])
  {
    var x := ps[|ps| - 1];
    assert ps == ps[..|ps| - 1] + [x];
    WithKeyAppend(ps[..|ps| - 1], [x], k);
    assert WithKey([x], k) == (if DateKey(x) == k then [x] else []) + WithKey([], k);
  }

  /** What the sort of `get_all_plots` promises when it succeeds: newest
      first, the same records, and records with equal dates in listing
      order. */
  lemma SortByDateProperties(ps: seq<Plot>)
    requires SortByDate(ps).Ok?
    ensures var r := SortByDate(ps).value;
      && SortedDesc(r)
      && multiset(r) == multiset(ps)
      && forall k :: WithKey(r, k) == WithKey(ps, k)
  {
    if |ps| < 2 {
      assert SortDesc(ps) == ps by {
        if |ps| == 1 {
          assert SortDesc(ps[..0]) == [];
        }
      }
    } else {
      var kd := if OfKind(ps, 0) then 0 else 1;
      SortDescSorted(ps, kd);
      SortDescPermutes(ps);
      forall k {
        SortDescStable(ps, k, kd);
      }
    }
  }

  // ----- grouping by collection (site_generator.py:201-207 and 228-234) -----

  /** `plot['collection']` */
  function CollectionOf(p: Plot): Value {
    Get(p, "collection", VNone)
  }

  predicate HasCollection(plots: seq<Plot>) {
    forall i :: 0 <= i < |plots| ==> "collection" in plots[i]
  }

  /** The collections in order of first appearance: the key order of the
      `collections` dict. */
  function GroupNames(plots: seq<Plot>): (r: seq<Value>)
    decreases |plots|
  {
    if plots == [] then []
    else
      var names := GroupNames(plots[..|plots| - 1]);
      var c := CollectionOf(plots[|plots| - 1]);
      if c in names then names else names + [c]
  }

  /** Each collection is named once. */
  lemma {:induction false} GroupNamesDistinct(plots: seq<Plot>)
    ensures forall i, j :: 0 <= i < j < |GroupNames(plots)| ==> GroupNames(plots)[i] != GroupNames(plots)[j]
    decreases |plots|
  {
    if plots != [] {
      var front := plots[..|plots| - 1];
      var names := GroupNames(front);
      GroupNamesDistinct(front);
      var c := CollectionOf(plots[|plots| - 1]);
      assert GroupNames(plots) == if c in names then names else names + [c];
      if c !in names {
        var r := names + [c];
        assert GroupNames(plots) == r;
        forall i, j | 0 <= i < j < |r|
          ensures r[i] != r[j]
        {
          assert r[i] == names[i];
          if j < |names| {
            assert r[j] == names[j];
          }
        }
      }
    }
  }

  /** A collection is named exactly when some plot belongs to it. */
  lemma {:induction false} GroupNamesComplete(plots: seq<Plot>, c: Value)
    ensures c in GroupNames(plots) <==> exists i :: 0 <= i < |plots| && CollectionOf(plots[i]) == c
    decreases |plots|
  {
    if plots != [] {
      var front := plots[..|plots| - 1];
      GroupNamesComplete(front, c);
      if c in GroupNames(front) {
        var i :| 0 <= i < |front| && CollectionOf(front[i]) == c;
        assert plots[i] == front[i];
      }
      if exists i :: 0 <= i < |plots| && CollectionOf(plots[i]) == c {
        var i :| 0 <= i < |plots| && CollectionOf(plots[i]) == c;
        if i < |front| {
          assert front[i] == plots[i];
        }
      }
    }
  }

  /** The plots of one collection, in list order. */
  function Members(plots: seq<Plot>, c: Value): (r: seq<Plot>)
    ensures |r| <= |plots|
    ensures forall i :: 0 <= i < |r| ==> CollectionOf(r[i]) == c
  {
    if plots == [] then []
    else (if CollectionOf(plots[0]) == c then [plots[0]] else []) + Members(plots[1..], c)
  }

  /** A group holds only plots of the list. */
  lemma {:induction false} MembersIn(plots: seq<Plot>, c: Value)
    ensures multiset(Members(plots, c)) <= multiset(plots)
    decreases |plots|
  {
    if plots != [] {
      MembersIn(plots[1..], c);
      assert plots == [plots[0]] + plots[1..];
    }
  }

  lemma {:induction false} MembersAppend(a: seq<Plot>, b: seq<Plot>, c: Value)
    ensures Members(a + b, c) == Members(a, c) + Members(b, c)
    decreases |a|
  {
    if a != [] {
      var h, t := a[0], a[1..];
      assert a == [h] + t;
      MembersAppend(t, b, c);
      MembersAppendStep(h, t, b, c);
    } else {
      assert a + b == b;
    }
  }

  lemma MembersAppendStep(h: Plot, t: seq<Plot>, b: seq<Plot>, c: Value)
    requires Members(t + b, c) == Members(t, c) + Members(b, c)
    ensures Members([h] + t + b, c) == Members([h] + t, c) + Members(b, c)
  {
    SeqAssoc([h], t, b);
    MembersCons(h, t + b, c);
    MembersCons(h, t, c);
    SeqAssoc(if CollectionOf(h) == c then [h] else [], Members(t, c), Members(b, c));
  }

  lemma SeqAssoc<T>(x: seq<T>, y: seq<T>, z: seq<T>)
    ensures x + (y + z) == x + y + z
  {
  }

  lemma MembersCons(h: Plot, s: seq<Plot>, c: Value)
    ensures Members([h] + s, c) == (if CollectionOf(h) == c then [h] else []) + Members(s, c)
  {
    assert ([h] + s)[0] == h && ([h] + s)[1..] == s;
  }

  /** The `collections` dict the grouping loop builds: each collection of
      the list mapped to its plots. */
  function GroupMap(plots: seq<Plot>): (r: map<Value, seq<Plot>>)
    ensures r.Keys == set c | c in GroupNames(plots)
    ensures forall c :: c in r ==> r[c] == Members(plots, c)
  {
    map c | c in GroupNames(plots) :: Members(plots, c)
  }

  lemma GroupMapStep(front: seq<Plot>, p: Plot)
    ensures var c := CollectionOf(p);
      var g := GroupMap(front);
      GroupMap(front + [p]) == if c in g then g[c := g[c] + [p]] else g[c := [p]]
  {
    var c := CollectionOf(p);
    var g := GroupMap(front);
    var h := if c in g then g[c := g[c] + [p]] else g[c := [p]];
    var g2 := GroupMap(front + [p]);
    GroupMapKeysStep(front, p);
    forall d | d in g2
      ensures g2[d] == h[d]
    {
      GroupMapValueStep(front, p, d);
    }
  }

  /** A plot is appended to the group of its collection, which is created
      when the collection is new. */
  lemma GroupMapValueStep(front: seq<Plot>, p: Plot, d: Value)
    requires d in GroupMap(front) || d == CollectionOf(p)
    ensures var c := CollectionOf(p);
      var g := GroupMap(front);
      var h := if c in g then g[c := g[c] + [p]] else g[c := [p]];
      d in GroupMap(front + [p]) ==> GroupMap(front + [p])[d] == h[d]
  {
    var c := CollectionOf(p);
    var g := GroupMap(front);
    MembersSingle(front, p, d);
    if d == c && c !in g {
      GroupNamesComplete(front, c);
      MembersNone(front, c);
    }
  }

  /** A plot adds its collection to the keys of the grouping. */
  lemma GroupMapKeysStep(front: seq<Plot>, p: Plot)
    ensures GroupMap(front + [p]).Keys == GroupMap(front).Keys + {CollectionOf(p)}
  {
    var names := GroupNames(front);
    var c := CollectionOf(p);
    GroupNamesSnoc(front, p);
    if c !in names {
      assert forall d :: d in names + [c] <==> d in names || d == c;
    }
  }

  lemma GroupNamesSnoc(front: seq<Plot>, p: Plot)
    ensures var names := GroupNames(front);
      GroupNames(front + [p]) == if CollectionOf(p) in names then names else names + [CollectionOf(p)]
  {
    assert (front + [p])[..|front|] == front;
  }

  lemma MembersSingle(front: seq<Plot>, p: Plot, d: Value)
    ensures Members(front + [p], d) == Members(front, d) + (if CollectionOf(p) == d then [p] else [])
  {
    MembersAppend(front, [p], d);
    assert Members([p], d) == (if CollectionOf(p) == d then [p] else []) + Members([], d);
  }

  /** Creating an empty list on first sight and then appending to it
      gives the one-element list. */
  lemma AppendToGroup(g: map<Value, seq<Plot>>, c: Value, p: Plot)
    ensures var h := if c !in g then g[c := []] else g;
      h[c := h[c] + [p]] == if c in g then g[c := g[c] + [p]] else g[c := [p]]
  {
    if c !in g {
      assert [] + [p] == [p];
    }
  }

  /** The grouping loop: append each plot to the list of its collection,
      creating the list on first sight. */
  method GroupByCollection(plots: seq<Plot>) returns (names: seq<Value>, groups: map<Value, seq<Plot>>)
    requires HasCollection(plots)
    ensures names == GroupNames(plots)
    ensures groups == GroupMap(plots)
  {
    names, groups := [], map[];
    for i := 0 to |plots|
      invariant names == GroupNames(plots[..i])
      invariant groups == GroupMap(plots[..i])
    {
      var p := plots[i];
      var c := p["collection"];
      assert c == CollectionOf(p);
      assert plots[..i + 1] == plots[..i] + [p];
      GroupMapStep(plots[..i], p);
      GroupNamesSnoc(plots[..i], p);
      ghost var before := groups;
      if c !in groups {
        groups := groups[c := []];
        names := names + [c];
      }
      groups := groups[c := groups[c] + [p]];
      AppendToGroup(before, c, p);
    }
    assert plots[..|plots|] == plots;
  }

  /** Every group is non-empty, so a gallery is written only for a
      collection with at least one plot, and every plot is in the group of
      its own collection. */
  lemma GroupsNonEmpty(plots: seq<Plot>)
    ensures forall c :: c in GroupNames(plots) ==> Members(plots, c) != []
  {
    forall c | c in GroupNames(plots)
      ensures Members(plots, c) != []
    {
      GroupNamesComplete(plots, c);
      var i :| 0 <= i < |plots| && CollectionOf(plots[i]) == c;
      MembersContain(plots, c, i);
    }
  }

  lemma {:induction false} MembersContain(plots: seq<Plot>, c: Value, i: nat)
    requires i < |plots| && CollectionOf(plots[i]) == c
    ensures plots[i] in Members(plots, c)
    decreases |plots|
  {
    if i > 0 {
      MembersContain(plots[1..], c, i - 1);
    }
  }

  /** The sum of the group sizes over a list of collection names. */
  function GroupSizes(plots: seq<Plot>, names: seq<Value>): nat {
    if names == [] then 0 else |Members(plots, names[0])| + GroupSizes(plots, names[1..])
  }

  /** How often `c` occurs in `names`. */
  function Count(names: seq<Value>, c: Value): nat {
    if names == [] then 0 else (if names[0] == c then 1 else 0) + Count(names[1..], c)
  }

  lemma {:induction false} CountDistinct(names: seq<Value>, c: Value)
    requires forall i, j :: 0 <= i < j < |names| ==> names[i] != names[j]
    ensures Count(names, c) == if c in names then 1 else 0
    decreases |names|
  {
    if names != [] {
      CountDistinct(names[1..], c);
      if names[0] == c {
        assert c !in names[1..];
      }
    }
  }

  lemma {:induction false} GroupSizesAppendPlot(plots: seq<Plot>, p: Plot, names: seq<Value>)
    ensures GroupSizes(plots + [p], names) == GroupSizes(plots, names) + Count(names, CollectionOf(p))
    decreases |names|
  {
    if names != [] {
      MembersAppend(plots, [p], names[0]);
      assert Members([p], names[0]) == (if CollectionOf(p) == names[0] then [p] else []) + Members([], names[0]);
      GroupSizesAppendPlot(plots, p, names[1..]);
    }
  }

  lemma GroupSizesAppendName(plots: seq<Plot>, names: seq<Value>, c: Value)
    ensures GroupSizes(plots, names + [c]) == GroupSizes(plots, names) + |Members(plots, c)|
  {
    if names != [] {
      assert (names + [c])[1..] == names[1..] + [c];
      GroupSizesAppendName(plots, names[1..], c);
    } else {
      assert [c][1..] == [];
    }
  }

  /** The group sizes add up to the number of plots: grouping loses and
      duplicates nothing. */
  lemma {:induction false} GroupSizesTotal(plots: seq<Plot>)
    ensures GroupSizes(plots, GroupNames(plots)) == |plots|
    decreases |plots|
  {
    if plots != [] {
      var front := plots[..|plots| - 1];
      var p := plots[|plots| - 1];
      var names := GroupNames(front);
      var c := CollectionOf(p);
      GroupSizesTotal(front);
      assert plots == front + [p];
      GroupSizesAppendPlot(front, p, names);
      GroupNamesDistinct(front);
      CountDistinct(names, c);
      if c !in names {
        GroupNamesComplete(front, c);
        GroupSizesAppendName(plots, names, c);
        MembersAppend(front, [p], c);
        MembersNone(front, c);
        assert Members([p], c) == [p] + Members([], c);
      }
    }
  }

  lemma {:induction false} MembersNone(plots: seq<Plot>, c: Value)
    requires forall i :: 0 <= i < |plots| ==> CollectionOf(plots[i]) != c
    ensures Members(plots, c) == []
    decreases |plots|
  {
    if plots != [] {
      MembersNone(plots[1..], c);
    }
  }

  /** A group of a newest-first list is newest first. */
  lemma {:induction false} MembersSorted(plots: seq<Plot>, c: Value)
    requires SortedDesc(plots)
    ensures SortedDesc(Members(plots, c))
    decreases |plots|
  {
    if plots != [] {
      var rest := Members(plots[1..], c);
      SortedTail(plots);
      MembersSorted(plots[1..], c);
      if CollectionOf(plots[0]) == c {
        MembersIn(plots[1..], c);
        HeadAboveSubset(plots, rest);
        SortedCons(plots[0], rest);
      }
    }
  }

  /** The head of a newest-first list is no older than any record drawn
      from its tail. */
  lemma HeadAboveSubset(plots: seq<Plot>, sub: seq<Plot>)
    requires SortedDesc(plots) && plots != [] && multiset(sub) <= multiset(plots[1..])
    ensures forall j :: 0 <= j < |sub| ==> !KeyLess(DateKey(plots[0]), DateKey(sub[j]))
  {
    forall j | 0 <= j < |sub|
      ensures !KeyLess(DateKey(plots[0]), DateKey(sub[j]))
    {
      assert sub[j] in multiset(sub);
      var m :| 0 <= m < |plots[1..]| && plots[1..][m] == sub[j];
      assert plots[m + 1] == sub[j];
    }
  }

  /** `plots[:12]`: the index page shows the twelve newest plots, or all of
      them when there are fewer. */
  function IndexPlots(plots: seq<Plot>): (r: seq<Plot>)
    ensures |r| == if |plots| < 12 then |plots| else 12
    ensures forall i :: 0 <= i < |r| ==> r[i] == plots[i]
  {
    if |plots| <= 12 then plots else plots[..12]
  }
}
