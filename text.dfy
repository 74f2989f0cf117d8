/**
 * The handful of Python `str` operations the scripts rely on: `split` on one
 * character, `strip()` with no argument, `replace` of every occurrence, and
 * the conversions `int(s)` and `f"{n}"` between integers and decimal text.
 */
module Text {
  import opened Wrappers

  // ---------------------------------------------------------------- split

  /** Glues `parts` back together with `sep` between neighbours (Python `sep.join`). */
  function JoinWith(parts: seq<string>, sep: char): string
    requires |parts| >= 1
  {
    if |parts| == 1 then parts[0] else parts[0] + [sep] + JoinWith(parts[1..], sep)
  }

  /** Python `s.split(sep)` for a one-character separator: never empty, no piece holds `sep`. */
  function Split(s: string, sep: char): (parts: seq<string>)
    ensures |parts| >= 1
    ensures forall i :: 0 <= i < |parts| ==> sep !in parts[i]
    ensures JoinWith(parts, sep) == s
    decreases |s|
  {
    if s == [] then [""]
    else
      var rest := Split(s[1..], sep);
      if s[0] == sep then
        assert ([""] + rest)[1..] == rest;
        [""] + rest
      else
        var first := [s[0]] + rest[0];
        assert ([first] + rest[1..])[1..] == rest[1..];
        assert |rest| > 1 ==> JoinWith(rest, sep) == rest[0] + [sep] + JoinWith(rest[1..], sep);
        [first] + rest[1..]
  }

  /** A piece without the separator splits into itself. */
  lemma {:induction false} SplitNoSep(s: string, sep: char)
    requires sep !in s
    ensures Split(s, sep) == [s]
    decreases |s|
  {
    if s != [] {
      SplitNoSep(s[1..], sep);
      assert [s[0]] + s[1..] == s;
    }
  }

  /** Splitting distributes over one occurrence of the separator. */
  lemma {:induction false} SplitAtSep(a: string, b: string, sep: char)
    ensures Split(a + [sep] + b, sep) == Split(a, sep) + Split(b, sep)
    decreases |a|
  {
    var s := a + [sep] + b;
    if a == [] {
      assert s[0] == sep && s[1..] == b;
    } else {
      assert s[0] == a[0] && s[1..] == a[1..] + [sep] + b;
      SplitAtSep(a[1..], b, sep);
      var rest := Split(a[1..], sep);
      if a[0] != sep {
        assert (rest + Split(b, sep))[0] == rest[0];
        assert (rest + Split(b, sep))[1..] == rest[1..] + Split(b, sep);
      }
    }
  }

  /** Round trip: pieces free of the separator are recovered by splitting their join. */
  lemma {:induction false} SplitJoin(parts: seq<string>, sep: char)
    requires |parts| >= 1
    requires forall i :: 0 <= i < |parts| ==> sep !in parts[i]
    ensures Split(JoinWith(parts, sep), sep) == parts
    decreases |parts|
  {
    SplitNoSep(parts[0], sep);
    if |parts| > 1 {
      SplitJoin(parts[1..], sep);
      SplitAtSep(parts[0], JoinWith(parts[1..], sep), sep);
      assert [parts[0]] + parts[1..] == parts;
    }
  }

  /** Three separator-free pieces joined by the separator split back into those three. */
  lemma SplitThree(a: string, b: string, c: string, sep: char)
    requires sep !in a && sep !in b && sep !in c
    ensures Split(a + [sep] + b + [sep] + c, sep) == [a, b, c]
  {
    var parts := [a, b, c];
    assert parts[1..] == [b, c] && parts[1..][1..] == [c];
    assert JoinWith(parts[1..][1..], sep) == c;
    assert JoinWith(parts[1..], sep) == b + [sep] + c;
    assert JoinWith(parts, sep) == a + [sep] + (b + [sep] + c);
    assert a + [sep] + b + [sep] + c == a + [sep] + (b + [sep] + c);
    SplitJoin(parts, sep);
  }

  /** The join ends with the last piece, preceded by the separator when there are two or more. */
  lemma {:induction false} JoinWithLast(parts: seq<string>, sep: char)
    requires |parts| >= 2
    ensures JoinWith(parts, sep) == JoinWith(parts[..|parts| - 1], sep) + [sep] + parts[|parts| - 1]
    decreases |parts|
  {
    if |parts| > 2 {
      JoinWithLast(parts[1..], sep);
      assert parts[1..][..|parts| - 2] == parts[..|parts| - 1][1..];
    }
  }

  /** Python `s.rsplit("/")[-1]`: the text after the last separator, or all of `s` without one. */
  function LastSegment(s: string, sep: char): (r: string)
    ensures sep !in r
    ensures |r| <= |s| && s[|s| - |r|..] == r
    ensures |r| < |s| ==> s[|s| - |r| - 1] == sep
    ensures sep !in s ==> r == s
  {
    var parts := Split(s, sep);
    if |parts| >= 2 then
      JoinWithLast(parts, sep);
      parts[|parts| - 1]
    else
      parts[0]
  }

  /** The join starts with the first piece. */
  lemma JoinWithFirst(parts: seq<string>, sep: char)
    requires |parts| >= 1
    ensures |parts[0]| <= |JoinWith(parts, sep)| && JoinWith(parts, sep)[..|parts[0]|] == parts[0]
  {
  }

  // ---------------------------------------------------------------- strip

  /** The whitespace `int()` skips around its argument. */
  predicate IsIntSpace(c: char) {
    var n := c as int;
    n == 0x20 || 0x09 <= n <= 0x0d || n == 0x85 || n == 0xa0
    || n == 0x1680 || 0x2000 <= n <= 0x200a || n == 0x2028 || n == 0x2029
    || n == 0x202f || n == 0x205f || n == 0x3000
  }

  /** The ASCII information separators U+001C to U+001F: whitespace to `str.isspace()`, not to `int()`. */
  predicate IsSeparator(c: char) {
    0x1c <= c as int <= 0x1f
  }

  /** Python `str.isspace()` for one character: the characters `str.strip()` removes. */
  predicate IsSpace(c: char) {
    IsIntSpace(c) || IsSeparator(c)
  }

  /**
   * Which whitespace a strip removes: every `isspace()` character for
   * `str.strip()` (`StrBlanks`), all but the information separators, which
   * make it raise, for `int()` (`IntBlanks`).
   */
  datatype Blanks = StrBlanks | IntBlanks

  predicate IsBlank(b: Blanks, c: char) {
    IsIntSpace(c) || (b == StrBlanks && IsSeparator(c))
  }

  /** Number of whitespace characters at the front of `s`. */
  function LeadingSpace(b: Blanks, s: string): (k: nat)
    ensures k <= |s|
    ensures forall i :: 0 <= i < k ==> IsBlank(b, s[i])
    ensures k < |s| ==> !IsBlank(b, s[k])
    decreases |s|
  {
    if s == [] || !IsBlank(b, s[0]) then 0 else 1 + LeadingSpace(b, s[1..])
  }

  /** Number of whitespace characters at the back of `s`. */
  function TrailingSpace(b: Blanks, s: string): (k: nat)
    ensures k <= |s|
    ensures forall i :: |s| - k <= i < |s| ==> IsBlank(b, s[i])
    ensures k < |s| ==> !IsBlank(b, s[|s| - k - 1])
    decreases |s|
  {
    if s == [] || !IsBlank(b, s[|s| - 1]) then 0 else 1 + TrailingSpace(b, s[..|s| - 1])
  }

  /** The span `[lo, hi)` of `s` that a strip keeps: whitespace outside, none at its ends. */
  function StripSpan(b: Blanks, s: string): (span: (nat, nat))
    ensures span.0 <= span.1 <= |s|
    ensures forall i :: 0 <= i < span.0 ==> IsBlank(b, s[i])
    ensures forall i :: span.1 <= i < |s| ==> IsBlank(b, s[i])
    ensures span.0 < span.1 ==> !IsBlank(b, s[span.0]) && !IsBlank(b, s[span.1 - 1])
  {
    var lo := LeadingSpace(b, s);
    var t := TrailingSpace(b, s[lo..]);
    assert forall i :: |s| - t <= i < |s| ==> s[i] == s[lo..][i - lo];
    (lo, |s| - t)
  }

  /** Python `s.strip()`. */
  function Strip(s: string): (t: string)
    ensures |t| <= |s|
    ensures t == [] || (!IsSpace(t[0]) && !IsSpace(t[|t| - 1]))
    ensures (forall i :: 0 <= i < |s| ==> !IsSpace(s[i])) ==> t == s
  {
    s[StripSpan(StrBlanks, s).0..StripSpan(StrBlanks, s).1]
  }

  lemma StripNoSpace(s: string)
    requires forall i :: 0 <= i < |s| ==> !IsSpace(s[i])
    ensures Strip(s) == s
  {
  }

  /** The whitespace `int()` ignores around its argument. */
  function IntStrip(s: string): (t: string)
    ensures |t| <= |s|
    ensures t == [] || (!IsBlank(IntBlanks, t[0]) && !IsBlank(IntBlanks, t[|t| - 1]))
    ensures (forall i :: 0 <= i < |s| ==> !IsSpace(s[i])) ==> t == s
  {
    s[StripSpan(IntBlanks, s).0..StripSpan(IntBlanks, s).1]
  }

  /** Without the information separators, `int()` ignores exactly what `strip()` removes. */
  lemma IntStripIsStrip(s: string)
    requires forall i :: 0 <= i < |s| ==> !IsSeparator(s[i])
    ensures IntStrip(s) == Strip(s)
  {
    assert forall c :: !IsSeparator(c) ==> (IsBlank(IntBlanks, c) <==> IsBlank(StrBlanks, c));
    var si, ss := StripSpan(IntBlanks, s), StripSpan(StrBlanks, s);
    LeadingSpaceAgrees(s);
    TrailingSpaceAgrees(s[si.0..]);
  }

  lemma {:induction false} LeadingSpaceAgrees(s: string)
    requires forall i :: 0 <= i < |s| ==> !IsSeparator(s[i])
    ensures LeadingSpace(IntBlanks, s) == LeadingSpace(StrBlanks, s)
    decreases |s|
  {
    if s != [] {
      LeadingSpaceAgrees(s[1..]);
    }
  }

  lemma {:induction false} TrailingSpaceAgrees(s: string)
    requires forall i :: 0 <= i < |s| ==> !IsSeparator(s[i])
    ensures TrailingSpace(IntBlanks, s) == TrailingSpace(StrBlanks, s)
    decreases |s|
  {
    if s != [] {
      TrailingSpaceAgrees(s[..|s| - 1]);
    }
  }

  // ---------------------------------------------------------------- replace

  /** `pat` occurs in `s` starting at index `i`. */
  predicate OccursAt(s: string, pat: string, i: int) {
    0 <= i && i + |pat| <= |s| && s[i..i + |pat|] == pat
  }

  /** Python `s.replace(pat, rep)`: every non-overlapping occurrence, scanned from the left. */
  function ReplaceAll(s: string, pat: string, rep: string): (r: string)
    requires |pat| > 0
    ensures forall c :: c in r ==> c in s || c in rep
    decreases |s|
  {
    if |s| < |pat| then s
    else if s[..|pat|] == pat then rep + ReplaceAll(s[|pat|..], pat, rep)
    else [s[0]] + ReplaceAll(s[1..], pat, rep)
  }

  /** Text shorter than the pattern is left as it is. */
  lemma ReplaceAllShort(s: string, pat: string, rep: string)
    requires |pat| > 0 && |s| < |pat|
    ensures ReplaceAll(s, pat, rep) == s
  {
  }

  /** When no occurrence starts at the front, the first character is copied. */
  lemma ReplaceAllNoStart(s: string, pat: string, rep: string)
    requires |pat| > 0 && |s| >= |pat| && !OccursAt(s, pat, 0)
    ensures ReplaceAll(s, pat, rep) == [s[0]] + ReplaceAll(s[1..], pat, rep)
  {
    assert s[0..|pat|] == s[..|pat|];
  }

  /** An occurrence in the text after the first character of `a` is one in `a + b`, one place later. */
  lemma OccursAfterFirst(a: string, b: string, pat: string, i: int)
    requires a != [] && 0 <= i
    ensures OccursAt(a[1..] + b, pat, i) <==> OccursAt(a + b, pat, i + 1)
  {
    var s := a + b;
    assert s[1..] == a[1..] + b;
    if i + |pat| <= |a[1..] + b| {
      assert s[i + 1..i + 1 + |pat|] == (a[1..] + b)[i..i + |pat|];
    }
  }

  /** A prefix in which no occurrence starts is copied unchanged. */
  lemma {:induction false} ReplaceAllSkips(a: string, b: string, pat: string, rep: string)
    requires |pat| > 0
    requires forall i :: 0 <= i < |a| ==> !OccursAt(a + b, pat, i)
    ensures ReplaceAll(a + b, pat, rep) == a + ReplaceAll(b, pat, rep)
    decreases |a|
  {
    if a != [] {
      var s := a + b;
      forall i | 0 <= i < |a| - 1
        ensures !OccursAt(a[1..] + b, pat, i)
      {
        OccursAfterFirst(a, b, pat, i);
      }
      ReplaceAllSkips(a[1..], b, pat, rep);
      assert s[1..] == a[1..] + b;
      assert [a[0]] + a[1..] == a;
      if |s| >= |pat| {
        ReplaceAllNoStart(s, pat, rep);
        assert [a[0]] + (a[1..] + ReplaceAll(b, pat, rep)) == a + ReplaceAll(b, pat, rep);
      } else {
        ReplaceAllShort(s, pat, rep);
        ReplaceAllShort(b, pat, rep);
      }
    } else {
      assert a + b == b;
    }
  }

  /** Text in which `pat` never occurs is left as it is. */
  lemma ReplaceAllNoMatch(s: string, pat: string, rep: string)
    requires |pat| > 0
    requires forall i :: !OccursAt(s, pat, i)
    ensures ReplaceAll(s, pat, rep) == s
  {
    assert s + [] == s;
    ReplaceAllSkips(s, [], pat, rep);
  }

  /** An occurrence at the front is replaced. */
  lemma ReplaceAllAtFront(b: string, pat: string, rep: string)
    requires |pat| > 0
    ensures ReplaceAll(pat + b, pat, rep) == rep + ReplaceAll(b, pat, rep)
  {
    var s := pat + b;
    assert s[..|pat|] == pat && s[|pat|..] == b;
  }

  /** Replacing never touches a first character that cannot start `pat`. */
  lemma ReplaceAllFirst(s: string, pat: string, rep: string)
    requires |pat| > 0 && |s| > 0 && s[0] != pat[0]
    ensures |ReplaceAll(s, pat, rep)| > 0 && ReplaceAll(s, pat, rep)[0] == s[0]
  {
    if |s| >= |pat| {
      assert s[..|pat|][0] != pat[0];
    }
  }

  // ---------------------------------------------------------------- integers

  predicate IsDigit(c: char) {
    '0' <= c <= '9'
  }

  function DigitValue(c: char): (d: nat)
    requires IsDigit(c)
    ensures d < 10
  {
    (c as int) - ('0' as int)
  }

  function DigitChar(d: nat): (c: char)
    requires d < 10
    ensures IsDigit(c) && DigitValue(c) == d
  {
    (('0' as int) + d) as char
  }

  /** The numeric value of a run of decimal digits (leading zeros allowed, as in Python). */
  function Value(ds: string): nat
    requires forall i :: 0 <= i < |ds| ==> IsDigit(ds[i])
    decreases |ds|
  {
    if ds == [] then 0
    else Value(ds[..|ds| - 1]) * 10 + DigitValue(ds[|ds| - 1])
  }

  /** Decimal rendering of a natural number, as `str(n)` prints it: no leading zero. */
  function NatToString(n: nat): (s: string)
    ensures |s| >= 1
    ensures forall i :: 0 <= i < |s| ==> IsDigit(s[i])
    ensures |s| > 1 ==> s[0] != '0'
    ensures s[0] == '0' <==> n == 0
    decreases n
  {
    if n < 10 then [DigitChar(n)] else NatToString(n / 10) + [DigitChar(n % 10)]
  }

  /** Python `f"{n}"` / `str(n)` for an `int`: a minus sign, then the digits of `|n|`. */
  function IntToString(n: int): (s: string)
    ensures |s| >= 1
    ensures forall i :: 0 <= i < |s| ==> IsDigit(s[i]) || (i == 0 && s[i] == '-')
    ensures s[0] == '-' <==> n < 0
    ensures n == 0 <==> s == "0"
    ensures n < 0 ==> |s| >= 2 && s[1] != '0'
    ensures n > 0 ==> s[0] != '0'
  {
    if n < 0 then "-" + NatToString(-n) else NatToString(n)
  }

  /**
   * The body of a Python integer literal: decimal digits, optionally with
   * single underscores between two digits (`int("1_000") == 1000`).
   */
  predicate IsDigitGroup(s: string) {
    && |s| > 0
    && IsDigit(s[0])
    && IsDigit(s[|s| - 1])
    && (forall i :: 0 <= i < |s| ==> IsDigit(s[i]) || s[i] == '_')
    && (forall i :: 0 <= i < |s| - 1 && s[i] == '_' ==> IsDigit(s[i + 1]))
  }

  /** The digits of `s` with underscores dropped. */
  function DigitsOf(s: string): (ds: string)
    requires forall i :: 0 <= i < |s| ==> IsDigit(s[i]) || s[i] == '_'
    ensures forall i :: 0 <= i < |ds| ==> IsDigit(ds[i])
    ensures (forall i :: 0 <= i < |s| ==> IsDigit(s[i])) ==> ds == s
    decreases |s|
  {
    if s == [] then []
    else if s[0] == '_' then DigitsOf(s[1..])
    else [s[0]] + DigitsOf(s[1..])
  }

  /** The digits kept are exactly the characters of `s` other than underscores. */
  lemma {:induction false} DigitsOfKeepsDigits(s: string)
    requires forall i :: 0 <= i < |s| ==> IsDigit(s[i]) || s[i] == '_'
    ensures multiset(DigitsOf(s)) == multiset(s)['_' := 0]
    decreases |s|
  {
    if s != [] {
      DigitsOfKeepsDigits(s[1..]);
      assert s == [s[0]] + s[1..];
      assert multiset(s) == multiset{s[0]} + multiset(s[1..]);
    }
  }

  /**
   * Dropping the underscores keeps the digits in order: the digits of two
   * pieces, or of two pieces around an underscore, are the digits of each
   * piece one after the other.
   */
  lemma {:induction false} DigitsOfConcat(a: string, b: string)
    requires forall i :: 0 <= i < |a| ==> IsDigit(a[i]) || a[i] == '_'
    requires forall i :: 0 <= i < |b| ==> IsDigit(b[i]) || b[i] == '_'
    ensures DigitsOf(a + b) == DigitsOf(a) + DigitsOf(b)
    ensures DigitsOf(a + "_" + b) == DigitsOf(a) + DigitsOf(b)
    decreases |a|
  {
    if a == [] {
      assert a + b == b;
      assert a + "_" + b == "_" + b && ("_" + b)[1..] == b;
    } else {
      assert (a + b)[0] == a[0] && (a + b)[1..] == a[1..] + b;
      assert (a + "_" + b)[0] == a[0] && (a + "_" + b)[1..] == a[1..] + "_" + b;
      DigitsOfConcat(a[1..], b);
    }
  }

  /** The value of a digit group, or `None` when it is not one. */
  function GroupValue(s: string): Option<nat> {
    if IsDigitGroup(s) then
      Some(Value(DigitsOf(s)))
    else None
  }

  /** What `int()` reads once the surrounding whitespace is skipped: an optional sign, then a digit group. */
  function ParseSigned(t: string): (r: Option<int>)
    ensures r.Some? ==> |t| > 0
    ensures r.Some? && r.value < 0 ==> t[0] == '-'
  {
    if |t| > 0 && (t[0] == '-' || t[0] == '+') then
      match GroupValue(t[1..])
      case None => None
      case Some(v) => Some(if t[0] == '-' then -(v as int) else v as int)
    else
      match GroupValue(t)
      case None => None
      case Some(v) => Some(v as int)
  }

  /**
   * Python `int(s)` in base 10: surrounding whitespace other than the
   * information separators is ignored, an optional sign precedes the digit
   * group; anything else raises `ValueError`, which is `None` here.
   */
  function ParseInt(s: string): (r: Option<int>)
    ensures r.Some? ==> |IntStrip(s)| > 0
    ensures r.Some? && r.value < 0 ==> IntStrip(s)[0] == '-'
  {
    ParseSigned(IntStrip(s))
  }

  lemma {:induction false} ValueOfNatToString(n: nat)
    ensures Value(NatToString(n)) == n
    decreases n
  {
    if n >= 10 {
      ValueOfNatToString(n / 10);
      var s := NatToString(n);
      assert s[..|s| - 1] == NatToString(n / 10);
    }
  }

  /** A run of digits is a digit group standing for its value. */
  lemma GroupValueOfDigits(ds: string)
    requires |ds| > 0 && forall i :: 0 <= i < |ds| ==> IsDigit(ds[i])
    ensures GroupValue(ds) == Some(Value(ds))
  {
    assert IsDigitGroup(ds);
  }

  /** `int()` of text that neither starts nor ends with whitespace reads the text as it is. */
  lemma ParseIntNoBlank(s: string)
    requires s != [] && !IsBlank(IntBlanks, s[0]) && !IsBlank(IntBlanks, s[|s| - 1])
    ensures ParseInt(s) == ParseSigned(s)
  {
    assert LeadingSpace(IntBlanks, s) == 0;
    assert s[0..] == s;
    assert TrailingSpace(IntBlanks, s) == 0;
    assert IntStrip(s) == s[0..|s|];
  }

  /** `int()` of a run of digits is its value. */
  lemma {:induction false} ParseDigits(d: string)
    requires |d| > 0 && forall i :: 0 <= i < |d| ==> IsDigit(d[i])
    ensures ParseInt(d) == Some(Value(d) as int)
  {
    ParseIntNoBlank(d);
    GroupValueOfDigits(d);
    assert !(d[0] == '-' || d[0] == '+');
  }

  /** A minus sign and a digit group read as minus the group's value. */
  lemma ParseMinus(s: string, v: nat)
    requires |s| > 0 && s[0] == '-'
    requires GroupValue(s[1..]) == Some(v)
    ensures ParseSigned(s) == Some(-(v as int))
  {
  }

  /** `int()` of a minus sign and a digit group is minus the group's value. */
  lemma ParseNegative(s: string, v: nat)
    requires |s| > 1 && s[0] == '-' && !IsBlank(IntBlanks, s[|s| - 1])
    requires GroupValue(s[1..]) == Some(v)
    ensures ParseInt(s) == Some(-(v as int))
  {
    ParseIntNoBlank(s);
    ParseMinus(s, v);
  }

  lemma NegativeRoundTrip(n: int)
    requires n < 0
    ensures ParseInt(IntToString(n)) == Some(n)
  {
    var m: nat := -n;
    var s, d := IntToString(n), NatToString(m);
    assert s[1..] == d;
    assert GroupValue(d) == Some(m) by {
      ValueOfNatToString(m);
      GroupValueOfDigits(d);
    }
    ParseNegative(s, m);
  }

  lemma NonNegativeRoundTrip(n: int)
    requires n >= 0
    ensures ParseInt(IntToString(n)) == Some(n)
  {
    ValueOfNatToString(n);
    ParseDigits(NatToString(n));
  }

  /** Round trip: `int(f"{n}") == n` for every integer, negative ones included. */
  lemma ParseIntToString(n: int)
    ensures ParseInt(IntToString(n)) == Some(n)
  {
    if n < 0 {
      NegativeRoundTrip(n);
    } else {
      NonNegativeRoundTrip(n);
    }
  }

  /** Distinct integers render to distinct text. */
  lemma IntToStringInjective(a: int, b: int)
    requires IntToString(a) == IntToString(b)
    ensures a == b
  {
    ParseIntToString(a);
    ParseIntToString(b);
  }

  /** A character `int()` accepts at the very start of its argument. */
  predicate NumericStart(c: char) {
    IsBlank(IntBlanks, c) || c == '-' || c == '+' || IsDigit(c)
  }

  /** Text that `int()` accepts is not empty and starts with whitespace, a sign or a digit. */
  lemma ParseIntFirst(s: string)
    requires ParseInt(s).Some?
    ensures |s| > 0 && NumericStart(s[0])
  {
    var span := StripSpan(IntBlanks, s);
    var t := IntStrip(s);
    if |t| > 0 && span.0 == 0 {
      assert s[0] == t[0];
      if !(t[0] == '-' || t[0] == '+') {
        assert IsDigitGroup(t);
      }
    }
  }

  /** An information separator at either end of its argument makes `int()` raise. */
  lemma ParseIntRejectsSeparator(s: string)
    requires |s| > 0 && (IsSeparator(s[0]) || IsSeparator(s[|s| - 1]))
    ensures ParseInt(s).None?
  {
    var span := StripSpan(IntBlanks, s);
    var t := IntStrip(s);
    if IsSeparator(s[0]) {
      assert !IsBlank(IntBlanks, s[0]);
      assert span.0 == 0 && span.1 > 0;
      assert t[0] == s[0];
    } else {
      assert !IsBlank(IntBlanks, s[|s| - 1]);
      assert span.1 == |s| && span.0 < |s|;
      assert t[|t| - 1] == s[|s| - 1];
    }
  }

  /** A whitespace character in front shifts the strip span by one. */
  lemma {:induction false} SpanAfterBlank(b: Blanks, s: string)
    requires |s| > 0 && IsBlank(b, s[0])
    ensures StripSpan(b, s) == (StripSpan(b, s[1..]).0 + 1, StripSpan(b, s[1..]).1 + 1)
  {
    var lo := LeadingSpace(b, s[1..]);
    assert LeadingSpace(b, s) == lo + 1;
    assert s[lo + 1..] == s[1..][lo..];
  }

  /** `int()` ignores a leading whitespace character it skips. */
  lemma {:induction false} ParseIntSkipsBlank(s: string)
    requires |s| > 0 && IsBlank(IntBlanks, s[0])
    ensures ParseInt(s) == ParseInt(s[1..])
  {
    var span := StripSpan(IntBlanks, s[1..]);
    SpanAfterBlank(IntBlanks, s);
    assert s[span.0 + 1..span.1 + 1] == s[1..][span.0..span.1];
  }

  lemma ParseFive()
    ensures ParseInt(['5']) == Some(5)
  {
    ParseDigits(['5']);
    assert Value(['5']) == 5;
  }

  /** `int(" 5")` is 5: a space is skipped. */
  lemma SpaceSkipped()
    ensures ParseInt([' ', '5']) == Some(5)
  {
    ParseIntSkipsBlank([' ', '5']);
    assert [' ', '5'][1..] == ['5'];
    ParseFive();
  }

  /** `int("\x1c5")` raises: an information separator is not skipped. */
  lemma SeparatorRejected()
    ensures ParseInt(['\U{1c}', '5']).None?
  {
    ParseIntRejectsSeparator(['\U{1c}', '5']);
  }
}
