/**
 * Text helpers with the semantics of the Python `str` operations that the
 * scheduler relies on: `isspace`/`strip`, `startswith`/`endswith`/`in`,
 * `split`, `replace`, `splitlines`, `lower` on ASCII, `"\n".join`, `int()`,
 * decimal formatting, the UTF-8 size of a text, `pathlib` stems, and the
 * code-point order that `sorted()` uses on names.
 */
module Strings {
  import opened Wrappers

  // ---------------------------------------------------------------- spaces

  /** Python's `str.isspace()` for one character. */
  predicate IsSpace(c: char) {
    ('\t' <= c <= '\r') || ('\U{1C}' <= c <= ' ') || c == '\U{85}' || c == '\U{A0}'
    || c == '\U{1680}' || ('\U{2000}' <= c <= '\U{200A}') || c == '\U{2028}'
    || c == '\U{2029}' || c == '\U{202F}' || c == '\U{205F}' || c == '\U{3000}'
  }

  /** The end of the run of white space that starts at `i`. */
  function SpaceRunEnd(s: string, i: nat): (r: nat)
    requires i <= |s|
    ensures i <= r <= |s|
    ensures r == |s| || !IsSpace(s[r])
    ensures forall k :: i <= k < r ==> IsSpace(s[k])
    decreases |s| - i
  {
    if i < |s| && IsSpace(s[i]) then SpaceRunEnd(s, i + 1) else i
  }

  /** The start of the run of white space that ends at `j`. */
  function SpaceRunStart(s: string, j: nat): (r: nat)
    requires j <= |s|
    ensures r <= j
    ensures r == 0 || !IsSpace(s[r - 1])
    ensures forall k :: r <= k < j ==> IsSpace(s[k])
    decreases j
  {
    if j > 0 && IsSpace(s[j - 1]) then SpaceRunStart(s, j - 1) else j
  }

  /** A run of white space ending at `j` stops after any non-space character. */
  lemma {:induction false} SpaceRunStartAbove(s: string, j: nat, k: nat)
    requires 0 < k <= j <= |s| && !IsSpace(s[k - 1])
    ensures SpaceRunStart(s, j) >= k
    decreases j
  {
    if j > k && IsSpace(s[j - 1]) {
      SpaceRunStartAbove(s, j - 1, k);
    }
  }

  /** `s.strip()`: drops the leading and the trailing white space. */
  function Strip(s: string): (r: string)
    ensures |r| <= |s|
    ensures r == [] || (!IsSpace(r[0]) && !IsSpace(r[|r| - 1]))
    ensures r == [] <==> forall i :: 0 <= i < |s| ==> IsSpace(s[i])
  {
    var a := SpaceRunEnd(s, 0);
    if a == |s| then []
    else
      SpaceRunStartAbove(s, |s|, a + 1);
      s[a..SpaceRunStart(s, |s|)]
  }

  /** A text whose first and last characters are not white space is its own strip. */
  lemma StripNoop(s: string)
    requires s != [] && !IsSpace(s[0]) && !IsSpace(s[|s| - 1])
    ensures Strip(s) == s
  {
  }

  /** Strip only trims the ends: a non-space first character and a non-space
      last character of the prefix `p` survive, so `Strip(p + q)` starts with `p`. */
  lemma StripKeepsPrefix(p: string, q: string)
    requires p != [] && !IsSpace(p[0]) && !IsSpace(p[|p| - 1])
    ensures StartsWith(Strip(p + q), p)
  {
    var s := p + q;
    assert s[0] == p[0] && s[|p| - 1] == p[|p| - 1];
    SpaceRunStartAbove(s, |s|, |p|);
    var t := SpaceRunStart(s, |s|);
    assert Strip(s) == s[..t];
    assert s[..t][..|p|] == p;
  }

  // ------------------------------------------------------------- searching

  /** `s.startswith(p)`. */
  predicate StartsWith(s: string, p: string) {
    |p| <= |s| && s[..|p|] == p
  }

  /** A prefix of a prefix is a prefix. */
  lemma StartsWithTrans(s: string, m: string, p: string)
    requires StartsWith(s, m) && StartsWith(m, p)
    ensures StartsWith(s, p)
  {
    assert s[..|p|] == s[..|m|][..|p|];
  }

  /** `s.endswith(p)`. */
  predicate EndsWith(s: string, p: string) {
    |p| <= |s| && s[|s| - |p|..] == p
  }

  /** `sub` occurs in `s` at index `j`. */
  predicate OccursAt(s: string, sub: string, j: int) {
    0 <= j && j + |sub| <= |s| && s[j..j + |sub|] == sub
  }

  /** Index of the first occurrence of `sub` in `s` at or after `k`. */
  function IndexFrom(s: string, sub: string, k: nat): (r: Option<nat>)
    requires k <= |s|
    ensures r.Some? ==> k <= r.value && OccursAt(s, sub, r.value)
    ensures r.Some? ==> forall j :: k <= j < r.value ==> !OccursAt(s, sub, j)
    ensures r.None? ==> forall j :: k <= j ==> !OccursAt(s, sub, j)
    decreases |s| - k
  {
    if k + |sub| > |s| then None
    else if OccursAt(s, sub, k) then Some(k)
    else IndexFrom(s, sub, k + 1)
  }

  /** Index of the first occurrence of `sub` in `s` (`s.find(sub)` when found). */
  function IndexOf(s: string, sub: string): (r: Option<nat>)
    ensures r.Some? ==> OccursAt(s, sub, r.value)
    ensures r.Some? ==> forall j :: 0 <= j < r.value ==> !OccursAt(s, sub, j)
    ensures r.None? ==> forall j :: !OccursAt(s, sub, j)
  {
    IndexFrom(s, sub, 0)
  }

  /** Python's `sub in s`. */
  predicate Contains(s: string, sub: string) {
    IndexOf(s, sub).Some?
  }

  /** Witnessing one occurrence is enough for `sub in s`. */
  lemma ContainsAt(s: string, sub: string, i: nat)
    requires OccursAt(s, sub, i)
    ensures Contains(s, sub)
  {
  }

  /** `s.split(sep)[0]` (equivalently `s.partition(sep)[0]`). */
  function BeforeFirst(s: string, sep: string): (r: string)
    ensures StartsWith(s, r)
    ensures IndexOf(s, sep).None? ==> r == s
    ensures IndexOf(s, sep).Some? ==> |r| == IndexOf(s, sep).value
  {
    match IndexOf(s, sep)
    case None => s
    case Some(i) => s[..i]
  }

  /** The text after the first `sep`, when there is one. */
  function AfterFirst(s: string, sep: string): (r: Option<string>)
    ensures r.Some? <==> IndexOf(s, sep).Some?
    ensures r.Some? ==> s == BeforeFirst(s, sep) + sep + r.value
  {
    match IndexOf(s, sep)
    case None => None
    case Some(i) => Some(s[i + |sep|..])
  }

  /** Splitting at a separator that is absent from the head finds the separator
      right after the head. */
  lemma {:induction false} IndexOfAfterHead(a: string, sep: string, b: string)
    requires |sep| > 0
    requires forall j :: 0 <= j < |a| ==> !OccursAt(a + sep + b, sep, j)
    ensures IndexOf(a + sep + b, sep) == Some(|a|)
  {
    var s := a + sep + b;
    assert s[|a|..|a| + |sep|] == sep;
    assert OccursAt(s, sep, |a|);
  }

  /** An occurrence inside a prefix is an occurrence in the whole text. */
  lemma OccursInPrefix(s: string, n: nat, sub: string, j: nat)
    requires n <= |s| && OccursAt(s[..n], sub, j)
    ensures OccursAt(s, sub, j)
  {
    assert s[j..j + |sub|] == s[..n][j..j + |sub|];
  }

  /** The text before the first separator holds no separator. */
  lemma BeforeFirstFree(s: string, sep: string)
    requires |sep| > 0
    ensures !Contains(BeforeFirst(s, sep), sep)
  {
    var r := BeforeFirst(s, sep);
    if Contains(r, sep) {
      var j := IndexOf(r, sep).value;
      assert r == s[..|r|];
      OccursInPrefix(s, |r|, sep, j);
    }
  }

  /** A text that holds a longer pattern holds every tail of it. */
  lemma ContainsTail(s: string, sub: string, k: nat)
    requires k <= |sub| && Contains(s, sub)
    ensures Contains(s, sub[k..])
  {
    var j := IndexOf(s, sub).value;
    assert s[j + k..j + |sub|] == s[j..j + |sub|][k..];
    ContainsAt(s, sub[k..], j + k);
  }

  /** `(a + sep + b).split(sep)[0] == a` when the separator cannot start
      inside `a`. */
  lemma BeforeFirstOfJoin(a: string, sep: string, b: string)
    requires |sep| > 0
    requires forall j :: 0 <= j < |a| ==> !OccursAt(a + sep + b, sep, j)
    ensures BeforeFirst(a + sep + b, sep) == a
  {
    IndexOfAfterHead(a, sep, b);
    assert (a + sep + b)[..|a|] == a;
  }

  /** `(a + sep + b).partition(sep)[2] == b` when the separator cannot start
      inside `a`. */
  lemma AfterFirstOfJoin(a: string, sep: string, b: string)
    requires |sep| > 0
    requires forall j :: 0 <= j < |a| ==> !OccursAt(a + sep + b, sep, j)
    ensures AfterFirst(a + sep + b, sep) == Some(b)
  {
    IndexOfAfterHead(a, sep, b);
    assert (a + sep + b)[|a| + |sep|..] == b;
  }

  /** `s.replace(pat, rep)`: every non-overlapping occurrence, scanning left to right. */
  function ReplaceAll(s: string, pat: string, rep: string): (r: string)
    requires |pat| > 0
    decreases |s|
  {
    if s == [] then []
    else if StartsWith(s, pat) then rep + ReplaceAll(s[|pat|..], pat, rep)
    else [s[0]] + ReplaceAll(s[1..], pat, rep)
  }

  /** Removing every `pat` from `a + pat` leaves `a` when no occurrence of
      `pat` starts inside `a`. */
  lemma {:induction false} RemoveTrailing(a: string, pat: string)
    requires |pat| > 0
    requires forall j :: 0 <= j < |a| ==> !OccursAt(a + pat, pat, j)
    ensures ReplaceAll(a + pat, pat, "") == a
    decreases |a|
  {
    var s := a + pat;
    if a == [] {
      assert s == pat;
      assert s[|pat|..] == [];
    } else {
      assert !OccursAt(s, pat, 0);
      var t := a[1..] + pat;
      assert s[1..] == t;
      forall j | 0 <= j < |a| - 1 ensures !OccursAt(t, pat, j) {
        assert !OccursAt(s, pat, j + 1);
        if j + |pat| <= |t| {
          assert s[j + 1..j + 1 + |pat|] == t[j..j + |pat|];
        }
      }
      RemoveTrailing(a[1..], pat);
    }
  }

  /** Replacing one character by another keeps the length and changes only
      that character. */
  lemma {:induction false} ReplaceCharAt(s: string, a: char, b: char, i: nat)
    requires i < |s|
    ensures |ReplaceAll(s, [a], [b])| == |s|
    ensures ReplaceAll(s, [a], [b])[i] == if s[i] == a then b else s[i]
    decreases |s|
  {
    ReplaceCharLength(s, a, b);
    if i > 0 {
      ReplaceCharLength(s[1..], a, b);
      ReplaceCharAt(s[1..], a, b, i - 1);
    }
  }

  lemma {:induction false} ReplaceCharLength(s: string, a: char, b: char)
    ensures |ReplaceAll(s, [a], [b])| == |s|
    decreases |s|
  {
    if s != [] { ReplaceCharLength(s[1..], a, b); }
  }

  // ---------------------------------------------------------------- lines

  /** The line boundaries of Python's `str.splitlines()`. */
  predicate IsLineBreak(c: char) {
    c == '\n' || c == '\r' || c == '\U{0B}' || c == '\U{0C}' || c == '\U{1C}' || c == '\U{1D}'
    || c == '\U{1E}' || c == '\U{85}' || c == '\U{2028}' || c == '\U{2029}'
  }

  predicate IsLine(s: string) {
    forall i :: 0 <= i < |s| ==> !IsLineBreak(s[i])
  }

  /** Index of the first line boundary at or after `i`, or `|s|`. */
  function LineEndFrom(s: string, i: nat): (k: nat)
    requires i <= |s|
    ensures i <= k <= |s|
    ensures forall j :: i <= j < k ==> !IsLineBreak(s[j])
    ensures k < |s| ==> IsLineBreak(s[k])
    decreases |s| - i
  {
    if i == |s| || IsLineBreak(s[i]) then i else LineEndFrom(s, i + 1)
  }

  /** Index of the first line boundary, or `|s|`. */
  function LineEnd(s: string): (k: nat)
    ensures k <= |s| && IsLine(s[..k])
    ensures k < |s| ==> IsLineBreak(s[k])
  {
    var k := LineEndFrom(s, 0);
    assert forall j :: 0 <= j < k ==> s[..k][j] == s[j];
    k
  }

  /** `s.splitlines()`: the lines without their terminators; `"\r\n"` is one
      terminator; a final terminator does not open an empty last line. */
  function SplitLines(s: string): (r: seq<string>)
    ensures forall i :: 0 <= i < |r| ==> IsLine(r[i])
    decreases |s|
  {
    if s == [] then []
    else
      var k := LineEnd(s);
      if k == |s| then [s]
      else
        var w := if s[k] == '\r' && k + 1 < |s| && s[k + 1] == '\n' then 2 else 1;
        [s[..k]] + SplitLines(s[k + w..])
  }

  /** A line followed by `"\n"` is split off as the first line. */
  lemma {:induction false} SplitLinesCons(l: string, rest: string)
    requires IsLine(l)
    ensures SplitLines(l + "\n" + rest) == [l] + SplitLines(rest)
  {
    var s := l + "\n" + rest;
    assert s == l + ("\n" + rest);
    LineEndOf(l, "\n" + rest);
    assert s[..|l|] == l;
    assert s[|l| + 1..] == rest;
  }

  lemma LineEndOf(l: string, rest: string)
    requires IsLine(l) && rest != [] && IsLineBreak(rest[0])
    ensures LineEnd(l + rest) == |l|
  {
    var s := l + rest;
    LineEndPast(s, 0, |l|);
  }

  /** The scan for a line boundary runs past a stretch without one. */
  lemma {:induction false} LineEndPast(s: string, i: nat, n: nat)
    requires i <= n < |s| && IsLineBreak(s[n])
    requires forall j :: i <= j < n ==> !IsLineBreak(s[j])
    ensures LineEndFrom(s, i) == n
    decreases n - i
  {
    if i < n {
      LineEndPast(s, i + 1, n);
    }
  }

  /** `sep.join(parts)`. */
  function Join(parts: seq<string>, sep: string): (r: string)
    ensures parts == [] ==> r == []
    ensures |parts| == 1 ==> r == parts[0]
  {
    if parts == [] then []
    else if |parts| == 1 then parts[0]
    else parts[0] + sep + Join(parts[1..], sep)
  }

  // -------------------------------------------------------------- ASCII case

  /** `c.lower()` for ASCII letters; other characters are left alone. */
  function LowerChar(c: char): char {
    if 'A' <= c <= 'Z' then (c as int + 32) as char else c
  }

  function Lower(s: string): (r: string)
    ensures |r| == |s| && forall i :: 0 <= i < |s| ==> r[i] == LowerChar(s[i])
  {
    seq(|s|, i requires 0 <= i < |s| => LowerChar(s[i]))
  }

  /** `c.upper()` for ASCII letters; other characters are left alone. */
  function UpperChar(c: char): char {
    if 'a' <= c <= 'z' then (c as int - 32) as char else c
  }

  function Upper(s: string): (r: string)
    ensures |r| == |s| && forall i :: 0 <= i < |s| ==> r[i] == UpperChar(s[i])
  {
    seq(|s|, i requires 0 <= i < |s| => UpperChar(s[i]))
  }

  // ------------------------------------------------------------- distinct

  /** No element occurs twice: the last one is new, and so on backwards. */
  predicate NoDuplicates(s: seq<string>)
    decreases |s|
  {
    s == [] || (s[|s| - 1] !in s[..|s| - 1] && NoDuplicates(s[..|s| - 1]))
  }

  /** Appending a new element keeps a sequence free of duplicates. */
  lemma NoDuplicatesSnoc(s: seq<string>, x: string)
    ensures NoDuplicates(s) && x !in s ==> NoDuplicates(s + [x])
  {
    assert (s + [x])[..|s|] == s;
  }

  /** Free of duplicates means no two positions hold the same element. */
  lemma {:induction false} NoDuplicatesDistinct(s: seq<string>)
    requires NoDuplicates(s)
    ensures forall i, j :: 0 <= i < j < |s| ==> s[i] != s[j]
    decreases |s|
  {
    if s != [] {
      var p := s[..|s| - 1];
      NoDuplicatesDistinct(p);
      forall i, j | 0 <= i < j < |s| ensures s[i] != s[j] {
        assert s[i] == p[i];
        if j < |p| {
          assert s[j] == p[j];
        } else {
          assert p[i] in p;
        }
      }
    }
  }

  // ---------------------------------------------------------------- numbers

  predicate IsDigit(c: char) {
    '0' <= c <= '9'
  }

  function DigitValue(c: char): (d: nat)
    requires IsDigit(c)
    ensures d < 10
  {
    c as int - '0' as int
  }

  function DigitChar(d: nat): (c: char)
    requires d < 10
    ensures IsDigit(c) && DigitValue(c) == d
  {
    ('0' as int + d) as char
  }

  predicate AllDigits(s: string) {
    forall i :: 0 <= i < |s| ==> IsDigit(s[i])
  }

  /** `str(n)` for a natural number. */
  function NatToString(n: nat): (r: string)
    ensures r != [] && AllDigits(r)
  {
    if n < 10 then [DigitChar(n)] else NatToString(n / 10) + [DigitChar(n % 10)]
  }

  /** `str(i)`. */
  function IntToString(i: int): (r: string)
    ensures r != []
  {
    if i < 0 then "-" + NatToString(-i) else NatToString(i)
  }

  /** `f"{n:03d}"` for a natural number: at least three digits, zero-padded. */
  function ZeroPad3(n: nat): (r: string)
    ensures |r| >= 3 && AllDigits(r)
  {
    var d := NatToString(n);
    if |d| >= 3 then d else seq(3 - |d|, _ => '0') + d
  }

  /** Value of the decimal digits of `s`, the underscores Python allows between
      digits being skipped. */
  function DigitsValue(s: string): nat
    requires forall i :: 0 <= i < |s| ==> IsDigit(s[i]) || s[i] == '_'
  {
    if s == [] then 0
    else if s[|s| - 1] == '_' then DigitsValue(s[..|s| - 1])
    else 10 * DigitsValue(s[..|s| - 1]) + DigitValue(s[|s| - 1])
  }

  /** Two underscores in a row start at `i`. */
  predicate DoubleUnderscoreAt(s: string, i: nat)
    requires i + 1 < |s|
  {
    s[i] == '_' && s[i + 1] == '_'
  }

  /** The digit strings `int()` accepts in base 10: ASCII digits, single
      underscores only between digits. */
  predicate NumeralBody(s: string) {
    |s| > 0 && IsDigit(s[0]) && IsDigit(s[|s| - 1])
    && (forall i :: 0 <= i < |s| ==> IsDigit(s[i]) || s[i] == '_')
    && (forall i :: 0 <= i < |s| - 1 ==> !DoubleUnderscoreAt(s, i))
  }

  /** Python's `int(s)` in base 10; `None` where it raises `ValueError`. */
  function ParseInt(s: string): (r: Option<int>)
    ensures r.Some? ==> Strip(s) != []
  {
    var t := Strip(s);
    if |t| > 0 && (t[0] == '+' || t[0] == '-') then
      if NumeralBody(t[1..]) then
        var v: int := DigitsValue(t[1..]);
        Some(if t[0] == '-' then -v else v)
      else None
    else if NumeralBody(t) then Some(DigitsValue(t))
    else None
  }

  lemma {:induction false} DigitsValueOfNat(n: nat)
    ensures DigitsValue(NatToString(n)) == n
  {
    if n >= 10 {
      var s := NatToString(n);
      assert s[..|s| - 1] == NatToString(n / 10);
      DigitsValueOfNat(n / 10);
    }
  }

  lemma {:induction false} DigitsValueLeadingZeros(k: nat, s: string)
    requires AllDigits(s)
    ensures AllDigits(seq(k, _ => '0') + s)
    ensures DigitsValue(seq(k, _ => '0') + s) == DigitsValue(s)
    decreases |s|
  {
    var z: string := seq(k, _ => '0');
    if s == [] {
      assert z + s == z;
      ZerosValue(k);
    } else {
      assert (z + s)[..|z + s| - 1] == z + s[..|s| - 1];
      DigitsValueLeadingZeros(k, s[..|s| - 1]);
    }
  }

  lemma {:induction false} ZerosValue(k: nat)
    ensures DigitsValue(seq(k, _ => '0')) == 0
  {
    if k > 0 {
      assert seq(k, _ => '0')[..k - 1] == seq(k - 1, _ => '0');
      ZerosValue(k - 1);
    }
  }

  /** A non-empty run of ASCII digits is a numeral. */
  lemma DigitsNumeral(s: string)
    requires s != [] && AllDigits(s)
    ensures NumeralBody(s)
  {
    forall i | 0 <= i < |s| - 1 ensures !DoubleUnderscoreAt(s, i) {
      assert IsDigit(s[i]);
    }
  }

  /** A non-empty run of ASCII digits reads back as its decimal value. */
  lemma ParseDigits(s: string)
    requires s != [] && AllDigits(s)
    ensures ParseInt(s) == Some(DigitsValue(s))
  {
    StripNoop(s);
    DigitsNumeral(s);
  }

  /** `int(str(n)) == n`. */
  lemma ParseNatToString(n: nat)
    ensures ParseInt(NatToString(n)) == Some(n)
  {
    ParseDigits(NatToString(n));
    DigitsValueOfNat(n);
  }

  /** `int(f"{n:03d}") == n`: the padded number reads back as itself. */
  lemma ParseZeroPad3(n: nat)
    ensures ParseInt(ZeroPad3(n)) == Some(n)
  {
    var d := NatToString(n);
    ParseDigits(ZeroPad3(n));
    DigitsValueOfNat(n);
    if |d| < 3 { DigitsValueLeadingZeros(3 - |d|, d); }
  }

  // ------------------------------------------------------------ byte sizes

  /** Number of bytes of one character in UTF-8. */
  function Utf8Width(c: char): (w: nat)
    ensures 1 <= w <= 4
  {
    if c as int < 0x80 then 1 else if c as int < 0x800 then 2 else if c as int < 0x10000 then 3 else 4
  }

  /** Size in bytes of the UTF-8 encoding of `s` (what `stat().st_size` reports
      for a file written with `write_text`). */
  function Utf8Size(s: string): (n: nat)
    ensures |s| <= n <= 4 * |s|
  {
    if s == [] then 0 else Utf8Width(s[0]) + Utf8Size(s[1..])
  }

  lemma {:induction false} Utf8SizeConcat(a: string, b: string)
    ensures Utf8Size(a + b) == Utf8Size(a) + Utf8Size(b)
    decreases |a|
  {
    if a != [] {
      assert (a + b)[0] == a[0];
      assert (a + b)[1..] == a[1..] + b;
      Utf8SizeConcat(a[1..], b);
    } else {
      assert a + b == b;
    }
  }

  // ------------------------------------------------------------------ paths

  /** Index of the last `'.'` in `s`. */
  function LastDot(s: string): (r: Option<nat>)
    ensures r.Some? ==> r.value < |s| && s[r.value] == '.'
    ensures r.Some? ==> forall j :: r.value < j < |s| ==> s[j] != '.'
    ensures r.None? ==> forall j :: 0 <= j < |s| ==> s[j] != '.'
  {
    if s == [] then None
    else if s[|s| - 1] == '.' then Some(|s| - 1)
    else LastDot(s[..|s| - 1])
  }

  /** `PurePath(name).stem` for a file name: the name without its last suffix,
      where a leading dot or a trailing dot does not open a suffix. */
  function Stem(name: string): (r: string)
    ensures StartsWith(name, r)
  {
    match LastDot(name)
    case Some(i) => if 0 < i < |name| - 1 then name[..i] else name
    case None => name
  }

  /** The stem of `base + ".md"` is `base`, when `base` is a non-empty name. */
  lemma StemOfMd(base: string)
    requires base != []
    ensures Stem(base + ".md") == base
  {
    var s := base + ".md";
    assert s[|s| - 1] == 'd' && s[|s| - 2] == 'm' && s[|s| - 3] == '.';
    assert LastDot(s[..|s| - 1]) == LastDot(s[..|s| - 2]);
    assert s[..|s| - 2][..|s| - 3] == base;
  }

  // ------------------------------------------------------------------ order

  /** Python's `a <= b` on `str`: code-point lexicographic order. */
  predicate LexLeq(a: string, b: string) {
    a == [] || (b != [] && (a[0] < b[0] || (a[0] == b[0] && LexLeq(a[1..], b[1..]))))
  }

  lemma LexRefl(a: string)
    ensures LexLeq(a, a)
  {
  }

  lemma LexTotal(a: string, b: string)
    ensures LexLeq(a, b) || LexLeq(b, a)
  {
  }

  lemma LexAntisym(a: string, b: string)
    requires LexLeq(a, b) && LexLeq(b, a)
    ensures a == b
  {
    if a != [] && b != [] { LexAntisym(a[1..], b[1..]); }
  }

  lemma LexTrans(a: string, b: string, c: string)
    requires LexLeq(a, b) && LexLeq(b, c)
    ensures LexLeq(a, c)
  {
    if a != [] && b != [] && c != [] && a[0] == b[0] == c[0] { LexTrans(a[1..], b[1..], c[1..]); }
  }

  predicate IsLeast(m: string, s: set<string>) {
    m in s && forall x :: x in s ==> LexLeq(m, x)
  }

  lemma {:induction false} LeastExists(s: set<string>)
    requires s != {}
    ensures exists m :: IsLeast(m, s)
    decreases |s|
  {
    var x :| x in s;
    LexRefl(x);
    if s != {x} {
      var rest := s - {x};
      assert |rest| < |s|;
      LeastExists(rest);
      var m :| IsLeast(m, rest);
      LexTotal(x, m);
      if LexLeq(x, m) {
        forall y | y in s ensures LexLeq(x, y) {
          if y != x { LexTrans(x, m, y); }
        }
        assert IsLeast(x, s);
      } else {
        assert IsLeast(m, s);
      }
    } else {
      assert IsLeast(x, s);
    }
  }

  lemma LeastUnique(m: string, n: string, s: set<string>)
    requires IsLeast(m, s) && IsLeast(n, s)
    ensures m == n
  {
    LexAntisym(m, n);
  }

  lemma LeastUniqueIn(s: set<string>)
    ensures forall m, n :: IsLeast(m, s) && IsLeast(n, s) ==> m == n
  {
    forall m, n | IsLeast(m, s) && IsLeast(n, s) ensures m == n { LeastUnique(m, n, s); }
  }

  /** The first element of `sorted(s)`. */
  function Least(s: set<string>): (m: string)
    requires s != {}
    ensures m in s && forall x :: x in s ==> LexLeq(m, x)
  {
    LeastExists(s);
    LeastUniqueIn(s);
    var m :| IsLeast(m, s);
    m
  }

  /** `sorted(s)` for a set of names: exactly the names of `s`, each once
      (the order is stated by `SortedAscending`). */
  function Sorted(s: set<string>): (r: seq<string>)
    ensures |r| == |s|
    ensures forall i :: 0 <= i < |r| ==> r[i] in s
    ensures forall x :: x in s ==> x in r
    decreases |s|
  {
    if s == {} then []
    else
      var m := Least(s);
      var rest := Sorted(s - {m});
      assert forall x :: x in s ==> x == m || x in s - {m};
      [m] + rest
  }

  predicate Ascending(r: seq<string>) {
    forall i, j :: 0 <= i < j < |r| ==> LexLeq(r[i], r[j]) && r[i] != r[j]
  }

  /** `sorted(s)` lists the names in strictly ascending order, so no name twice. */
  lemma {:induction false} SortedAscending(s: set<string>)
    ensures Ascending(Sorted(s))
    decreases |s|
  {
    if s != {} {
      var m := Least(s);
      var rest := Sorted(s - {m});
      SortedAscending(s - {m});
      forall i | 0 <= i < |rest| ensures LexLeq(m, rest[i]) && m != rest[i] {
        assert rest[i] in s - {m};
      }
      AscendingCons(m, rest);
    }
  }

  lemma AscendingCons(m: string, rest: seq<string>)
    requires Ascending(rest)
    requires forall i :: 0 <= i < |rest| ==> LexLeq(m, rest[i]) && m != rest[i]
    ensures Ascending([m] + rest)
  {
    var r := [m] + rest;
    forall i, j | 0 <= i < j < |r| ensures LexLeq(r[i], r[j]) && r[i] != r[j] {
      assert r[j] == rest[j - 1];
      if i > 0 {
        assert r[i] == rest[i - 1];
      }
    }
  }

  /** A name of `sorted(s)` does not occur before its own position. */
  lemma SortedFirstAt(s: set<string>, i: nat)
    requires i < |Sorted(s)|
    ensures Sorted(s)[i] !in Sorted(s)[..i]
  {
    SortedAscending(s);
  }

  /** Sorting a single name gives that name. */
  lemma SortedSingleton(x: string)
    ensures Sorted({x}) == [x]
  {
    var r := Sorted({x});
    assert r[0] in {x};
  }
}
