/** The run-wide timestamp of snapshotplot (snapshotplot/timestamp.py): a
    token formatted from a UTC clock reading as `YYYYMMDD_HHMMSS_mmm`, cached
    in two module globals until it is reset. The clock is a parameter of
    every operation that may read it. */
module Timestamp {

  import opened Values
  import opened Text

  function Pow10(n: nat): (r: nat)
    ensures r >= 1
  {
    if n == 0 then 1 else 10 * Pow10(n - 1)
  }

  function DigitChar(d: nat): (c: char)
    requires d < 10
    ensures IsDigit(c)
  {
    ('0' as int + d) as char
  }

  /** `n` as exactly `w` decimal digits, zero-padded on the left, most
      significant first (the `%Y`, `%m`, ... and `%f` fields of strftime). */
  function Digits(n: nat, w: nat): (r: string)
    ensures |r| == w
    ensures forall i :: 0 <= i < w ==> IsDigit(r[i])
  {
    if w == 0 then [] else Digits(n / 10, w - 1) + [DigitChar(n % 10)]
  }

  /** The number a string of decimal digits denotes. */
  function DigitsValue(s: string): nat
    requires forall i :: 0 <= i < |s| ==> IsDigit(s[i])
  {
    if s == [] then 0
    else
      var last := s[|s| - 1];
      assert IsDigit(last);
      DigitsValue(s[..|s| - 1]) * 10 + (last as int - '0' as int)
  }

  /** Reading back a zero-padded field gives the number it was formatted
      from. */
  lemma {:induction false} DigitsRoundTrip(n: nat, w: nat)
    requires n < Pow10(w)
    ensures DigitsValue(Digits(n, w)) == n
  {
    if w > 0 {
      DigitsRoundTrip(n / 10, w - 1);
      assert Digits(n, w)[..w - 1] == Digits(n / 10, w - 1);
    }
  }

  lemma DigitsInjective(n: nat, m: nat, w: nat)
    requires n < Pow10(w) && m < Pow10(w)
    ensures Digits(n, w) == Digits(m, w) <==> n == m
  {
    if Digits(n, w) == Digits(m, w) {
      DigitsRoundTrip(n, w);
      DigitsRoundTrip(m, w);
    }
  }

  /** Fixed-width fields compare as strings the way their numbers compare. */
  lemma {:induction false} DigitsOrder(n: nat, m: nat, w: nat)
    requires n < Pow10(w) && m < Pow10(w)
    ensures LexLess(Digits(n, w), Digits(m, w)) <==> n < m
  {
    if w == 0 {
      assert n == 0 && m == 0;
    } else {
      var hn, hm := Digits(n / 10, w - 1), Digits(m / 10, w - 1);
      var ln, lm := [DigitChar(n % 10)], [DigitChar(m % 10)];
      LexLessConcat(hn, ln, hm, lm);
      DigitsOrder(n / 10, m / 10, w - 1);
      DigitsInjective(n / 10, m / 10, w - 1);
      assert LexLess(ln, lm) <==> n % 10 < m % 10 by {
        assert ln[1..] == [] && lm[1..] == [];
      }
    }
  }

  /** Dropping the last digit of a field is integer division by ten. */
  lemma DigitsDropLast(n: nat, w: nat)
    ensures Digits(n, w + 1)[..w] == Digits(n / 10, w)
  {
  }

  /** A UTC reading of the clock, as `datetime.now(timezone.utc)` yields
      it. Calendar validity of the day is not modelled. */
  datatype Moment = Moment(year: nat, month: nat, day: nat, hour: nat, minute: nat, second: nat, microsecond: nat)
  {
    predicate Valid() {
      && 1000 <= year <= 9999 && 1 <= month <= 12 && 1 <= day <= 31
      && hour < 24 && minute < 60 && second < 60 && microsecond < 1000000
    }

    function Millisecond(): nat {
      microsecond / 1000
    }
  }

  type Instant = m: Moment | m.Valid() witness Moment(2000, 1, 1, 0, 0, 0, 0)

  /** `dt.strftime("%Y%m%d_%H%M%S_%f")` */
  function Strftime(t: Instant): (r: string)
    ensures |r| == 22
  {
    Digits(t.year, 4) + Digits(t.month, 2) + Digits(t.day, 2) + "_"
      + Digits(t.hour, 2) + Digits(t.minute, 2) + Digits(t.second, 2) + "_"
      + Digits(t.microsecond, 6)
  }

  /** The token of timestamp.py:25: the strftime text without its last
      three characters. */
  function Token(t: Instant): string {
    var f := Strftime(t);
    f[..|f| - 3]
  }

  /** The token keeps the milliseconds as its last three digits; as a
      right-nested concatenation of fixed-width fields it is what the
      ordering lemmas below take apart. */
  lemma TokenFields(t: Instant)
    ensures Token(t) == Digits(t.year, 4) + (Digits(t.month, 2) + (Digits(t.day, 2) + ("_"
      + (Digits(t.hour, 2) + (Digits(t.minute, 2) + (Digits(t.second, 2) + ("_"
      + Digits(t.Millisecond(), 3))))))))
  {
    var us := t.microsecond;
    var a, b, c := Digits(t.year, 4), Digits(t.month, 2), Digits(t.day, 2);
    var h, m, s := Digits(t.hour, 2), Digits(t.minute, 2), Digits(t.second, 2);
    var f := Digits(us, 6);
    DigitsDropLast(us, 5);
    DigitsDropLast(us / 10, 4);
    DigitsDropLast(us / 100, 3);
    assert f[..5][..4][..3] == f[..3];
    assert us / 10 / 10 == us / 100;
    assert us / 100 / 10 == us / 1000;
    assert f[..3] == Digits(us / 1000, 3);
    Reassociate(a, b, c, h, m, s, f);
    Reassociate(a, b, c, h, m, s, f[..3]);
    var p := a + (b + (c + ("_" + (h + (m + (s + "_"))))));
    assert p + f == Strftime(t);
    DropTail(p, f, 3);
  }

  lemma Reassociate(a: string, b: string, c: string, h: string, m: string, s: string, x: string)
    ensures a + b + c + "_" + h + m + s + "_" + x
      == a + (b + (c + ("_" + (h + (m + (s + "_")))))) + x
      == a + (b + (c + ("_" + (h + (m + (s + ("_" + x)))))))
  {
  }

  lemma DropTail(p: string, x: string, k: nat)
    requires k <= |x|
    ensures (p + x)[..|p + x| - (|x| - k)] == p + x[..k]
  {
  }

  /** A token is 19 characters: 8 digits, `_`, 6 digits, `_`, 3 digits. */
  lemma TokenLayout(t: Instant)
    ensures |Token(t)| == 19
    ensures Token(t)[8] == '_' && Token(t)[15] == '_'
    ensures forall i :: 0 <= i < 19 && i != 8 && i != 15 ==> IsDigit(Token(t)[i])
  {
    TokenFields(t);
  }

  /** `x < y`, or `x == y` and the remaining fields decide. */
  predicate Before(x: nat, y: nat, tie: bool) {
    x < y || (x == y && tie)
  }

  /** `a` is at an earlier millisecond than `b`. */
  predicate EarlierMs(a: Instant, b: Instant) {
    Before(a.year, b.year, Before(a.month, b.month, Before(a.day, b.day,
      Before(a.hour, b.hour, Before(a.minute, b.minute, Before(a.second, b.second,
      a.Millisecond() < b.Millisecond()))))))
  }

  /** `a` and `b` fall in the same millisecond. */
  predicate SameMs(a: Instant, b: Instant) {
    a.year == b.year && a.month == b.month && a.day == b.day && a.hour == b.hour
    && a.minute == b.minute && a.second == b.second && a.Millisecond() == b.Millisecond()
  }

  /** One field of the token: it compares and equates like its number. */
  lemma FieldStep(x: nat, y: nat, w: nat, r1: string, r2: string)
    requires x < Pow10(w) && y < Pow10(w)
    ensures LexLess(Digits(x, w) + r1, Digits(y, w) + r2) <==> Before(x, y, LexLess(r1, r2))
    ensures Digits(x, w) + r1 == Digits(y, w) + r2 <==> x == y && r1 == r2
  {
    LexLessConcat(Digits(x, w), r1, Digits(y, w), r2);
    ConcatEqual(Digits(x, w), r1, Digits(y, w), r2);
    DigitsOrder(x, y, w);
    DigitsInjective(x, y, w);
  }

  /** A separator of the token: both sides carry it, so the rest decides. */
  lemma SeparatorStep(r1: string, r2: string)
    ensures LexLess("_" + r1, "_" + r2) <==> LexLess(r1, r2)
    ensures "_" + r1 == "_" + r2 <==> r1 == r2
  {
    LexLessConcat("_", r1, "_", r2);
    ConcatEqual("_", r1, "_", r2);
  }

  /** Because the fields are fixed-width, zero-padded and most significant
      first, string order of tokens is chronological order at millisecond
      resolution, and two tokens are equal exactly when their readings fall
      in the same millisecond. */
  lemma TokenOrder(a: Instant, b: Instant)
    ensures LexLess(Token(a), Token(b)) <==> EarlierMs(a, b)
    ensures Token(a) == Token(b) <==> SameMs(a, b)
  {
    TokenFields(a);
    TokenFields(b);
    var ms1, ms2 := Digits(a.Millisecond(), 3), Digits(b.Millisecond(), 3);
    FieldStep(a.Millisecond(), b.Millisecond(), 3, [], []);
    assert ms1 + [] == ms1 && ms2 + [] == ms2;
    var s7a, s7b := "_" + ms1, "_" + ms2;
    SeparatorStep(ms1, ms2);
    var s6a, s6b := Digits(a.second, 2) + s7a, Digits(b.second, 2) + s7b;
    FieldStep(a.second, b.second, 2, s7a, s7b);
    var s5a, s5b := Digits(a.minute, 2) + s6a, Digits(b.minute, 2) + s6b;
    FieldStep(a.minute, b.minute, 2, s6a, s6b);
    var s4a, s4b := Digits(a.hour, 2) + s5a, Digits(b.hour, 2) + s5b;
    FieldStep(a.hour, b.hour, 2, s5a, s5b);
    var s3a, s3b := "_" + s4a, "_" + s4b;
    SeparatorStep(s4a, s4b);
    var s2a, s2b := Digits(a.day, 2) + s3a, Digits(b.day, 2) + s3b;
    FieldStep(a.day, b.day, 2, s3a, s3b);
    var s1a, s1b := Digits(a.month, 2) + s2a, Digits(b.month, 2) + s2b;
    FieldStep(a.month, b.month, 2, s2a, s2b);
    FieldStep(a.year, b.year, 4, s1a, s1b);
  }

  /** The two module globals `_GLOBAL_TIMESTAMP` and `_GLOBAL_DATETIME`. */
  class TimestampSource {
    var token: Option<string>
    var instant: Option<Instant>

    /** The two globals are set and cleared together, and the token is
        always the one formatted from the cached instant. */
    ghost predicate Valid()
      reads this
    {
      && (token.Some? <==> instant.Some?)
      && (token.Some? ==> token.value == Token(instant.value))
    }

    /** The state at import time: nothing cached. */
    constructor ()
      ensures Valid() && token == None && instant == None
    {
      token := None;
      instant := None;
    }

    /** `generate_timestamp`: format the clock reading `now` and cache both. */
    method Generate(now: Instant) returns (ts: string)
      modifies this
      ensures Valid()
      ensures ts == Token(now) && token == Some(ts) && instant == Some(now)
    {
      ts := Token(now);
      token := Some(ts);
      instant := Some(now);
    }

    /** `get_current_timestamp` (also exported as `get_timestamp` and
        `generate_new_timestamp`): the cached token while there is one,
        otherwise a token generated from `now`. */
    method GetCurrentTimestamp(now: Instant) returns (ts: string)
      requires Valid()
      modifies this
      ensures Valid() && token == Some(ts)
      ensures old(token).Some? ==> ts == old(token).value && instant == old(instant)
      ensures old(token).None? ==> ts == Token(now) && instant == Some(now)
    {
      if token.None? {
        ts := Generate(now);
      } else {
        ts := token.value;
      }
    }

    /** `get_current_datetime` (also `get_datetime`): the cached instant,
        generating one from `now` if none is cached; the result is always the
        instant the current token was formatted from. */
    method GetCurrentDatetime(now: Instant) returns (dt: Instant)
      requires Valid()
      modifies this
      ensures Valid() && instant == Some(dt) && token == Some(Token(dt))
      ensures old(instant).Some? ==> dt == old(instant).value && token == old(token)
      ensures old(instant).None? ==> dt == now
    {
      if instant.None? {
        var _ := Generate(now);
      }
      dt := instant.value;
    }

    /** `reset_timestamp`: clear both globals. */
    method Reset()
      modifies this
      ensures Valid() && token == None && instant == None
    {
      token := None;
      instant := None;
    }
  }

  /** Reading the token twice without a reset gives the same token, whatever
      the clock says the second time. */
  method SameTokenUntilReset(src: TimestampSource, now1: Instant, now2: Instant)
    returns (ts1: string, ts2: string)
    requires src.Valid()
    modifies src
    ensures ts1 == ts2
    ensures old(src.token).None? ==> ts1 == Token(now1)
  {
    ts1 := src.GetCurrentTimestamp(now1);
    ts2 := src.GetCurrentTimestamp(now2);
  }

  /** There is no retry loop: after a reset the next token differs from the
      previous one exactly when the clock has moved to another millisecond. */
  method TokenAfterReset(src: TimestampSource, now1: Instant, now2: Instant)
    returns (ts1: string, ts2: string)
    requires src.Valid() && src.token == None
    modifies src
    ensures ts1 == Token(now1) && ts2 == Token(now2)
    ensures ts1 != ts2 <==> !SameMs(now1, now2)
    ensures LexLess(ts1, ts2) <==> EarlierMs(now1, now2)
  {
    ts1 := src.GetCurrentTimestamp(now1);
    src.Reset();
    ts2 := src.GetCurrentTimestamp(now2);
    TokenOrder(now1, now2);
  }
}
