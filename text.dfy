/** The string operations of Python's `str` that snapshotplot relies on,
    restricted to ASCII where character classes matter: `replace` of one
    character, `strip`, `lower`, `title`, `split` on one character,
    `startswith`/`endswith`, substring search, and `<` on strings. */
module Text {

  import opened Values

  predicate StartsWith(s: string, p: string) {
    |p| <= |s| && s[..|p|] == p
  }

  predicate EndsWith(s: string, p: string) {
    |p| <= |s| && s[|s| - |p|..] == p
  }

  /** `s.replace(c, d)` for single characters. */
  function ReplaceChar(s: string, c: char, d: char): (r: string)
    ensures |r| == |s|
    ensures forall i :: 0 <= i < |s| ==> r[i] == (if s[i] == c then d else s[i])
  {
    if s == [] then [] else [if s[0] == c then d else s[0]] + ReplaceChar(s[1..], c, d)
  }

  /** Where the slice `s.strip(cs)` keeps starts: the first position
      from `i` on that holds no character of `cs`, or the end. */
  function StripFrom(s: string, cs: set<char>, i: nat): (n: nat)
    requires i <= |s|
    ensures i <= n <= |s|
    ensures forall k :: i <= k < n ==> s[k] in cs
    ensures n < |s| ==> s[n] !in cs
    decreases |s| - i
  {
    if i == |s| || s[i] !in cs then i else StripFrom(s, cs, i + 1)
  }

  /** Where the slice ends: the last position at or below `j` (and above
      `lo`) that is preceded by no character of `cs`. */
  function StripTo(s: string, cs: set<char>, lo: nat, j: nat): (n: nat)
    requires lo <= j <= |s|
    ensures lo <= n <= j
    ensures forall k :: n <= k < j ==> s[k] in cs
    ensures n > lo ==> s[n - 1] !in cs
    decreases j
  {
    if j == lo || s[j - 1] !in cs then j else StripTo(s, cs, lo, j - 1)
  }

  /** The number of leading characters of `cs` that `strip` removes. */
  function StripStart(s: string, cs: set<char>): (i: nat)
    ensures i <= |s|
    ensures forall k :: 0 <= k < i ==> s[k] in cs
  {
    StripFrom(s, cs, 0)
  }

  /** `s.strip(cs)`: the contiguous slice of `s` starting at `StripStart`,
      obtained by removing only characters of `cs`, and neither starting
      nor ending with one. */
  function Strip(s: string, cs: set<char>): (r: string)
    ensures StripStart(s, cs) + |r| <= |s|
    ensures r == s[StripStart(s, cs)..StripStart(s, cs) + |r|]
    ensures forall k :: StripStart(s, cs) + |r| <= k < |s| ==> s[k] in cs
    ensures r != [] ==> r[0] !in cs && r[|r| - 1] !in cs
  {
    var i := StripStart(s, cs);
    s[i..StripTo(s, cs, i, |s|)]
  }

  lemma StripUnchanged(s: string, cs: set<char>)
    requires s == [] || (s[0] !in cs && s[|s| - 1] !in cs)
    ensures Strip(s, cs) == s
  {
  }

  /** The characters Python's `str.strip()` and the regex class `\s`
      treat as whitespace, restricted to Latin-1. */
  const Whitespace: set<char> :=
    {' ', '\t', '\n', '\r', '\U{B}', '\U{C}', '\U{1C}', '\U{1D}', '\U{1E}', '\U{1F}', '\U{85}', '\U{A0}'}

  predicate IsSpace(c: char) {
    c in Whitespace
  }

  predicate IsUpper(c: char) {
    'A' <= c <= 'Z'
  }

  predicate IsLower(c: char) {
    'a' <= c <= 'z'
  }

  predicate IsDigit(c: char) {
    '0' <= c <= '9'
  }

  /** A cased character in the sense of `str.title()`. */
  predicate IsCased(c: char) {
    IsUpper(c) || IsLower(c)
  }

  function Lower(c: char): (d: char)
    ensures IsCased(d) == IsCased(c) && !IsUpper(d)
    ensures !IsUpper(c) ==> d == c
  {
    if IsUpper(c) then (c as int + 32) as char else c
  }

  function Upper(c: char): (d: char)
    ensures IsCased(d) == IsCased(c) && !IsLower(d)
    ensures !IsLower(c) ==> d == c
  {
    if IsLower(c) then (c as int - 32) as char else c
  }

  /** `s.lower()` */
  function LowerStr(s: string): (r: string)
    ensures |r| == |s|
    ensures forall i :: 0 <= i < |s| ==> r[i] == Lower(s[i])
  {
    if s == [] then [] else [Lower(s[0])] + LowerStr(s[1..])
  }

  /** `str.title()` from a state that records whether the previous
      character was cased: a cased character is upper-cased at the start of a
      word and lower-cased inside one. */
  function TitleFrom(s: string, prevCased: bool): (r: string)
    ensures |r| == |s|
  {
    if s == [] then []
    else
      var c := s[0];
      var d := if !IsCased(c) then c else if prevCased then Lower(c) else Upper(c);
      [d] + TitleFrom(s[1..], IsCased(c))
  }

  /** Title-casing never produces an uncased character that the text
      does not contain. */
  lemma {:induction false} TitleFromOmits(s: string, prev: bool, c: char, k: nat)
    requires !IsCased(c) && c !in s && k < |s|
    ensures TitleFrom(s, prev)[k] != c
  {
    if k > 0 {
      assert c !in s[1..] by { assert forall x :: x in s[1..] ==> x in s; }
      TitleFromOmits(s[1..], IsCased(s[0]), c, k - 1);
    }
  }

  /** `s.title()` */
  function Title(s: string): (r: string)
    ensures |r| == |s|
  {
    TitleFrom(s, false)
  }

  /** Title-casing changes no character's cased-ness, so word boundaries stay
      where they were and a second application changes nothing. */
  lemma {:induction false} TitleFromIdempotent(s: string, prev: bool)
    ensures TitleFrom(TitleFrom(s, prev), prev) == TitleFrom(s, prev)
    ensures forall i :: 0 <= i < |s| ==> IsCased(TitleFrom(s, prev)[i]) == IsCased(s[i])
  {
    if s != [] {
      TitleFromIdempotent(s[1..], IsCased(s[0]));
      var t := TitleFrom(s, prev);
      assert t[1..] == TitleFrom(s[1..], IsCased(s[0]));
    }
  }

  lemma TitleIdempotent(s: string)
    ensures Title(Title(s)) == Title(s)
  {
    TitleFromIdempotent(s, false);
  }

  /** Position of the first occurrence of `c` in `s`. */
  function IndexOf(s: string, c: char): (r: Option<nat>)
    ensures r.None? <==> c !in s
    ensures r.Some? ==> r.value < |s| && s[r.value] == c && c !in s[..r.value]
  {
    if s == [] then None
    else if s[0] == c then Some(0)
    else match IndexOf(s[1..], c)
      case None => None
      case Some(i) => assert s[..i + 1] == [s[0]] + s[1..][..i]; Some(i + 1)
  }

  /** `s.split(c)` for a one-character separator. */
  function Split(s: string, c: char): (r: seq<string>)
    ensures |r| >= 1
    ensures forall i :: 0 <= i < |r| ==> c !in r[i]
    decreases |s|
  {
    match IndexOf(s, c)
    case None => [s]
    case Some(i) => [s[..i]] + Split(s[i + 1..], c)
  }

  /** `c.join(parts)` */
  function Join(parts: seq<string>, c: char): string {
    if parts == [] then []
    else if |parts| == 1 then parts[0]
    else parts[0] + [c] + Join(parts[1..], c)
  }

  /** `split` and `join` on the same character are inverse. */
  lemma {:induction false} SplitJoin(s: string, c: char)
    ensures Join(Split(s, c), c) == s
    decreases |s|
  {
    match IndexOf(s, c)
    case None =>
    case Some(i) =>
      var rest := Split(s[i + 1..], c);
      assert Split(s, c) == [s[..i]] + rest;
      assert ([s[..i]] + rest)[1..] == rest;
      SplitJoin(s[i + 1..], c);
      assert Join(Split(s, c), c) == s[..i] + [c] + Join(rest, c);
      assert s == s[..i] + [c] + s[i + 1..];
  }

  /** `s.split(c)` has at least two pieces exactly when `c` occurs in `s`;
      the first piece is everything before its first occurrence. */
  lemma SplitPieces(s: string, c: char)
    ensures |Split(s, c)| >= 2 <==> c in s
    ensures Split(s, c)[0] == (if c in s then s[..IndexOf(s, c).value] else s)
  {
    match IndexOf(s, c)
    case None =>
    case Some(i) =>
  }

  /** `pat` occurs in `s` at position `i`. */
  predicate OccursAt(s: string, pat: string, i: nat) {
    i + |pat| <= |s| && s[i..i + |pat|] == pat
  }

  /** `s.find(pat)` as an option: the first position where `pat` occurs. */
  function Find(s: string, pat: string): (r: Option<nat>)
    ensures r.Some? ==> OccursAt(s, pat, r.value)
    ensures r.Some? ==> forall j :: 0 <= j < r.value ==> !OccursAt(s, pat, j)
    ensures r.None? ==> forall j :: 0 <= j <= |s| ==> !OccursAt(s, pat, j)
    decreases |s|
  {
    if |s| < |pat| then None
    else if s[..|pat|] == pat then Some(0)
    else match Find(s[1..], pat)
      case None =>
        assert forall j :: 1 <= j <= |s| ==> (OccursAt(s, pat, j) <==> OccursAt(s[1..], pat, j - 1));
        None
      case Some(i) =>
        assert forall j :: 1 <= j <= |s| ==> (OccursAt(s, pat, j) <==> OccursAt(s[1..], pat, j - 1));
        Some(i + 1)
  }

  /** The first occurrence is what `find` reports. */
  lemma FindFirst(s: string, pat: string, i: nat)
    requires OccursAt(s, pat, i)
    requires forall j :: 0 <= j < i ==> !OccursAt(s, pat, j)
    ensures Find(s, pat) == Some(i)
  {
  }

  /** Python's `<` on strings: code-point-wise, a proper prefix is smaller. */
  predicate LexLess(a: string, b: string) {
    if a == [] then b != []
    else if b == [] then false
    else a[0] < b[0] || (a[0] == b[0] && LexLess(a[1..], b[1..]))
  }

  lemma {:induction false} LexLessIrreflexive(a: string)
    ensures !LexLess(a, a)
  {
    if a != [] { LexLessIrreflexive(a[1..]); }
  }

  lemma {:induction false} LexLessTransitive(a: string, b: string, c: string)
    requires LexLess(a, b) && LexLess(b, c)
    ensures LexLess(a, c)
  {
    if a != [] && b != [] && c != [] && a[0] == b[0] == c[0] {
      LexLessTransitive(a[1..], b[1..], c[1..]);
    }
  }

  /** Any two different strings are ordered one way or the other. */
  lemma {:induction false} LexLessTotal(a: string, b: string)
    ensures a == b || LexLess(a, b) || LexLess(b, a)
  {
    if a != [] && b != [] && a[0] == b[0] {
      LexLessTotal(a[1..], b[1..]);
      if a[1..] == b[1..] { assert a == [a[0]] + a[1..] && b == [b[0]] + b[1..]; }
    }
  }

  lemma LexLessAsymmetric(a: string, b: string)
    requires LexLess(a, b)
    ensures !LexLess(b, a)
  {
    if LexLess(b, a) {
      LexLessTransitive(a, b, a);
      LexLessIrreflexive(a);
    }
  }

  /** Comparing two concatenations whose first parts have equal length
      compares the first parts and, on a tie, the second parts. */
  lemma {:induction false} LexLessConcat(x1: string, y1: string, x2: string, y2: string)
    requires |x1| == |x2|
    ensures LexLess(x1 + y1, x2 + y2) <==> LexLess(x1, x2) || (x1 == x2 && LexLess(y1, y2))
  {
    if x1 == [] {
      assert x1 + y1 == y1 && x2 + y2 == y2;
    } else {
      assert (x1 + y1)[1..] == x1[1..] + y1 && (x2 + y2)[1..] == x2[1..] + y2;
      LexLessConcat(x1[1..], y1, x2[1..], y2);
      if x1[0] == x2[0] && x1[1..] == x2[1..] { assert x1 == x2; }
      if x1 == x2 { assert x1[1..] == x2[1..]; }
    }
  }

  /** Two concatenations whose first parts have equal length are equal
      exactly when both parts are. */
  lemma ConcatEqual(x1: string, y1: string, x2: string, y2: string)
    requires |x1| == |x2|
    ensures x1 + y1 == x2 + y2 <==> x1 == x2 && y1 == y2
  {
    if x1 + y1 == x2 + y2 {
      assert x1 == (x1 + y1)[..|x1|] && x2 == (x2 + y2)[..|x2|];
      assert y1 == (x1 + y1)[|x1|..] && y2 == (x2 + y2)[|x2|..];
    }
  }

  /** `a <= b` on strings. */
  predicate LexLessEq(a: string, b: string) {
    a == b || LexLess(a, b)
  }
}
