/**
 * The Python string operations the extraction scripts use, over `string`
 * (a sequence of Unicode code points): `str.strip`, `str.split`,
 * `" ".join`, `re.sub(r'\s+', ' ', ...)`, `str.replace`, `str.lower`,
 * `str.upper`, `str.isdigit`, `int(...)` and `float(...)` on plain decimals.
 */
module Text {
  import opened Wrappers

  // ---------------------------------------------------------------------------
  // Character classes
  // ---------------------------------------------------------------------------

  /** Python's whitespace (`str.isspace`, `str.strip`, `str.split`, regex `\s`). */
  const SpaceChars: set<char> := {' ', '\U{0009}', '\U{000A}', '\U{000B}', '\U{000C}', '\U{000D}', '\U{001C}', '\U{001D}', '\U{001E}', '\U{001F}', '\U{0085}', '\U{00A0}', '\U{1680}', '\U{2000}', '\U{2001}', '\U{2002}', '\U{2003}', '\U{2004}', '\U{2005}', '\U{2006}', '\U{2007}', '\U{2008}', '\U{2009}', '\U{200A}', '\U{2028}', '\U{2029}', '\U{202F}', '\U{205F}', '\U{3000}'}

  predicate IsSpace(c: char) {
    c in SpaceChars
  }

  /** An ASCII decimal digit (regex `\d`, `str.isdigit`). */
  predicate IsDigit(c: char) {
    '0' <= c <= '9'
  }

  /** The regex class `[0-9.]`. */
  predicate IsNumChar(c: char) {
    IsDigit(c) || c == '.'
  }

  /** Printable ASCII characters other than the space, digits and '.' among them, are not whitespace. */
  lemma GraphicNotSpace(c: char)
    requires '!' <= c <= '~'
    ensures !IsSpace(c)
  {
  }

  /** Python's `str.isdigit()`: non-empty and digits only. */
  predicate AllDigits(s: string) {
    |s| > 0 && forall i :: 0 <= i < |s| ==> IsDigit(s[i])
  }

  predicate DigitsOnly(s: string) {
    forall i :: 0 <= i < |s| ==> IsDigit(s[i])
  }

  predicate NoSpaceIn(s: string) {
    forall i :: 0 <= i < |s| ==> !IsSpace(s[i])
  }

  /** Non-empty words without whitespace, as `str.split()` returns them. */
  predicate Words(ws: seq<string>) {
    forall i :: 0 <= i < |ws| ==> |ws[i]| > 0 && NoSpaceIn(ws[i])
  }

  /** `s` neither starts nor ends with whitespace. */
  predicate Trimmed(s: string) {
    s == [] || (!IsSpace(s[0]) && !IsSpace(s[|s| - 1]))
  }

  /** The character classes the scanners step over. */
  datatype CharClass = Digits | NumChars | Spaces

  predicate InClass(k: CharClass, c: char) {
    match k
    case Digits => IsDigit(c)
    case NumChars => IsNumChar(c)
    case Spaces => IsSpace(c)
  }

  /** The length of the run of class-`k` characters starting at index `i` (a greedy `[k]*`). */
  function Run(s: string, i: nat, k: CharClass): (n: nat)
    requires i <= |s|
    ensures i + n <= |s|
    decreases |s| - i
  {
    if i == |s| || !InClass(k, s[i]) then 0 else 1 + Run(s, i + 1, k)
  }

  /** The run is made of class-`k` characters and ends at one that is not. */
  lemma {:induction false} RunSpan(s: string, i: nat, k: CharClass)
    requires i <= |s|
    ensures forall j :: i <= j < i + Run(s, i, k) ==> InClass(k, s[j])
    ensures i + Run(s, i, k) < |s| ==> !InClass(k, s[i + Run(s, i, k)])
    decreases |s| - i
  {
    if i < |s| && InClass(k, s[i]) {
      RunSpan(s, i + 1, k);
    }
  }

  /** `Run` stops exactly where a stretch of class-`k` characters ends. */
  lemma {:induction false} RunOver(s: string, i: nat, j: nat, k: CharClass)
    requires i <= j <= |s|
    requires forall m :: i <= m < j ==> InClass(k, s[m])
    requires j == |s| || !InClass(k, s[j])
    ensures Run(s, i, k) == j - i
    decreases j - i
  {
    if i < j {
      RunOver(s, i + 1, j, k);
    }
  }

  // ---------------------------------------------------------------------------
  // Strip, split, join, whitespace collapsing
  // ---------------------------------------------------------------------------

  function StripLeft(s: string): (r: string)
    ensures |r| <= |s| && r == s[|s| - |r|..]
    ensures r == [] || !IsSpace(r[0])
  {
    if s == [] || !IsSpace(s[0]) then s else StripLeft(s[1..])
  }

  function StripRight(s: string): (r: string)
    ensures |r| <= |s| && r == s[..|r|]
    ensures r == [] || !IsSpace(r[|r| - 1])
  {
    if s == [] || !IsSpace(s[|s| - 1]) then s else StripRight(s[..|s| - 1])
  }

  /** Python's `str.strip()`: drops whitespace at both ends and nothing else. */
  function Strip(s: string): (r: string)
    ensures Trimmed(r)
    ensures Trimmed(s) ==> r == s
    ensures |r| <= |s|
  {
    var l := StripLeft(s);
    assert Trimmed(s) && s != [] ==> l == s;
    StripRight(l)
  }

  /** Stripping a trimmed, non-empty text padded with whitespace on both sides gives the text back. */
  lemma StripPadded(l: string, c: string, r: string)
    requires c != [] && Trimmed(c)
    requires forall i :: 0 <= i < |l| ==> IsSpace(l[i])
    requires forall i :: 0 <= i < |r| ==> IsSpace(r[i])
    ensures Strip(l + c + r) == c
  {
    assert (c + r)[0] == c[0];
    StripLeftSpaces(l, c + r);
    assert l + c + r == l + (c + r);
    StripRightSpaces(c, r);
  }

  lemma {:induction false} StripLeftSpaces(l: string, t: string)
    requires forall i :: 0 <= i < |l| ==> IsSpace(l[i])
    requires t == [] || !IsSpace(t[0])
    ensures StripLeft(l + t) == t
  {
    if l == [] {
      assert l + t == t;
    } else {
      assert (l + t)[0] == l[0] && (l + t)[1..] == l[1..] + t;
      StripLeftSpaces(l[1..], t);
    }
  }

  lemma {:induction false} StripRightSpaces(t: string, r: string)
    requires forall i :: 0 <= i < |r| ==> IsSpace(r[i])
    requires t == [] || !IsSpace(t[|t| - 1])
    ensures StripRight(t + r) == t
    decreases |r|
  {
    if r == [] {
      assert t + r == t;
    } else {
      var u := t + r;
      assert u[|u| - 1] == r[|r| - 1];
      assert u[..|u| - 1] == t + r[..|r| - 1];
      StripRightSpaces(t, r[..|r| - 1]);
    }
  }

  /** Stripping only drops characters: every character left was in `s`. */
  lemma StripKeepsChars(s: string)
    ensures forall i :: 0 <= i < |Strip(s)| ==> Strip(s)[i] in s
  {
    var l := StripLeft(s);
    var r := StripRight(l);
    assert r == Strip(s);
    SliceChars(s, |s| - |l|, |r|);
  }

  /** Every character of the slice `s[a..][..n]` occurs in `s`. */
  lemma SliceChars(s: string, a: nat, n: nat)
    requires a + n <= |s|
    ensures forall i :: 0 <= i < n ==> s[a..][..n][i] in s
  {
    forall i | 0 <= i < n ensures s[a..][..n][i] in s {
      assert s[a..][..n][i] == s[a + i];
    }
  }

  /** `re.sub(r'\s+', ' ', s)`: every maximal run of whitespace becomes one space. */
  function CollapseSpaces(s: string): string
    decreases |s|
  {
    if s == [] then []
    else if IsSpace(s[0]) then " " + CollapseSpaces(StripLeft(s[1..]))
    else [s[0]] + CollapseSpaces(s[1..])
  }

  /**
   * After collapsing, whitespace is only single spaces, never two in a row, and
   * the text starts with a space exactly when `s` starts with whitespace.
   */
  lemma {:induction false} CollapseSpacesShape(s: string)
    ensures var r := CollapseSpaces(s);
      && (|s| > 0 ==> |r| > 0 && (r[0] == ' ' <==> IsSpace(s[0])))
      && (forall i :: 0 <= i < |r| && IsSpace(r[i]) ==> r[i] == ' ')
      && (forall i :: 0 <= i < |r| - 1 ==> !(r[i] == ' ' && r[i + 1] == ' '))
    decreases |s|
  {
    if s != [] {
      var r := CollapseSpaces(s);
      if IsSpace(s[0]) {
        var t := StripLeft(s[1..]);
        CollapseSpacesShape(t);
        var q := CollapseSpaces(t);
        assert r == " " + q;
        forall i | 0 <= i < |r| && IsSpace(r[i]) ensures r[i] == ' ' {
          if i > 0 { assert r[i] == q[i - 1]; }
        }
        forall i | 0 <= i < |r| - 1 ensures !(r[i] == ' ' && r[i + 1] == ' ') {
          if i > 0 { assert r[i] == q[i - 1] && r[i + 1] == q[i]; }
          else if t != [] { assert r[1] == q[0]; }
        }
      } else {
        var t := s[1..];
        CollapseSpacesShape(t);
        var q := CollapseSpaces(t);
        assert r == [s[0]] + q;
        forall i | 0 <= i < |r| && IsSpace(r[i]) ensures r[i] == ' ' {
          if i > 0 { assert r[i] == q[i - 1]; }
        }
        forall i | 0 <= i < |r| - 1 ensures !(r[i] == ' ' && r[i + 1] == ' ') {
          if i > 0 { assert r[i] == q[i - 1] && r[i + 1] == q[i]; }
        }
      }
    }
  }

  /** The longest prefix of `s` without whitespace. */
  function Word(s: string): (w: string)
    ensures |w| <= |s| && w == s[..|w|] && NoSpaceIn(w)
    ensures |w| < |s| ==> IsSpace(s[|w|])
  {
    if s == [] || IsSpace(s[0]) then [] else [s[0]] + Word(s[1..])
  }

  /** Python's `str.split()` without a separator: the whitespace-separated words. */
  function SplitWs(s: string): (ws: seq<string>)
    ensures forall i :: 0 <= i < |ws| ==> |ws[i]| > 0 && NoSpaceIn(ws[i])
    decreases |s|
  {
    if s == [] then []
    else if IsSpace(s[0]) then SplitWs(s[1..])
    else
      var w := Word(s);
      [w] + SplitWs(s[|w|..])
  }

  /** Python's `" ".join(ws)`. */
  function JoinSpaces(ws: seq<string>): string {
    if ws == [] then [] else if |ws| == 1 then ws[0] else ws[0] + " " + JoinSpaces(ws[1..])
  }

  // ---------------------------------------------------------------------------
  // Character-wise rewrites, case mapping, search, replace, split on a separator
  // ---------------------------------------------------------------------------

  /** `s.replace(a, b)` for single characters `a` and `b`. */
  function ReplaceChar(s: string, a: char, b: char): (r: string)
    ensures |r| == |s|
    ensures forall i :: 0 <= i < |s| ==> r[i] == if s[i] == a then b else s[i]
  {
    seq(|s|, i requires 0 <= i < |s| => if s[i] == a then b else s[i])
  }

  /** After `replace(a, b)` with `b` different from `a` no `a` is left, and a text without `a` is unchanged. */
  lemma ReplaceCharReplacesAll(s: string, a: char, b: char)
    ensures a != b ==> a !in ReplaceChar(s, a, b)
    ensures a !in s ==> ReplaceChar(s, a, b) == s
  {
  }

  /** `s.replace(c, '')`. */
  function RemoveChar(s: string, c: char): (r: string)
    ensures c !in r
    ensures |r| <= |s| && (c in s ==> |r| < |s|)
    ensures c !in s ==> r == s
  {
    if s == [] then [] else (if s[0] == c then [] else [s[0]]) + RemoveChar(s[1..], c)
  }

  /** Every character other than `c` is kept, as often as it occurs in `s`. */
  lemma {:induction false} RemoveCharKeepsOthers(s: string, c: char)
    ensures multiset(RemoveChar(s, c)) == multiset(s)[c := 0]
  {
    if s != [] {
      assert s == [s[0]] + s[1..];
      RemoveCharKeepsOthers(s[1..], c);
    }
  }

  /** Removing a character works piece by piece, so the kept characters stay in order. */
  lemma {:induction false} RemoveCharAppend(a: string, b: string, c: char)
    ensures RemoveChar(a + b, c) == RemoveChar(a, c) + RemoveChar(b, c)
  {
    if a != [] {
      assert (a + b)[0] == a[0] && (a + b)[1..] == a[1..] + b;
      RemoveCharAppend(a[1..], b, c);
    } else {
      assert a + b == b;
    }
  }

  function LowerChar(c: char): char {
    if 'A' <= c <= 'Z' then (c as int + 32) as char else c
  }

  function UpperChar(c: char): char {
    if 'a' <= c <= 'z' then (c as int - 32) as char else c
  }

  /** Python's `str.lower()` on ASCII letters. */
  function Lower(s: string): (r: string)
    ensures |r| == |s| && forall i :: 0 <= i < |s| ==> r[i] == LowerChar(s[i])
    ensures NoUpper(r)
  {
    seq(|s|, i requires 0 <= i < |s| => LowerChar(s[i]))
  }

  /** No ASCII capital letter occurs in `s`. */
  predicate NoUpper(s: string) {
    forall i :: 0 <= i < |s| ==> !('A' <= s[i] <= 'Z')
  }

  /** No ASCII lower-case letter occurs in `s`. */
  predicate NoLower(s: string) {
    forall i :: 0 <= i < |s| ==> !('a' <= s[i] <= 'z')
  }

  /** Python's `str.upper()` on ASCII letters. */
  function Upper(s: string): (r: string)
    ensures |r| == |s| && forall i :: 0 <= i < |s| ==> r[i] == UpperChar(s[i])
    ensures NoLower(r)
  {
    seq(|s|, i requires 0 <= i < |s| => UpperChar(s[i]))
  }

  predicate OccursAt(s: string, sub: string, i: nat) {
    i + |sub| <= |s| && s[i..i + |sub|] == sub
  }

  /** Python's `sub in s`. */
  predicate Contains(s: string, sub: string) {
    exists i: nat | i <= |s| :: OccursAt(s, sub, i)
  }

  predicate StartsWith(s: string, prefix: string) {
    |prefix| <= |s| && s[..|prefix|] == prefix
  }

  predicate EndsWith(s: string, suffix: string) {
    |suffix| <= |s| && s[|s| - |suffix|..] == suffix
  }

  /** Python's `s.replace(pat, rep)`: left to right, non-overlapping. */
  function ReplaceStr(s: string, pat: string, rep: string): (r: string)
    requires |pat| > 0
    decreases |s|
  {
    if |s| < |pat| then s
    else if s[..|pat|] == pat then rep + ReplaceStr(s[|pat|..], pat, rep)
    else [s[0]] + ReplaceStr(s[1..], pat, rep)
  }

  /** A text in which `pat` does not occur is left as it is. */
  lemma {:induction false} ReplaceStrAbsent(s: string, pat: string, rep: string)
    requires |pat| > 0 && !Contains(s, pat)
    ensures ReplaceStr(s, pat, rep) == s
    decreases |s|
  {
    if |s| >= |pat| {
      assert !OccursAt(s, pat, 0);
      assert !Contains(s[1..], pat) by {
        forall i: nat | i <= |s[1..]| && OccursAt(s[1..], pat, i) ensures OccursAt(s, pat, i + 1) {
          OccursAtTail(s, pat, i);
        }
      }
      ReplaceStrAbsent(s[1..], pat, rep);
      assert s == [s[0]] + s[1..];
    }
  }

  /**
   * A prefix in which no occurrence of `pat` starts is copied unchanged:
   * the replacement resumes where the text after it starts.
   */
  lemma {:induction false} ReplaceStrPrefix(p: string, s: string, pat: string, rep: string)
    requires |pat| > 0
    requires forall i :: 0 <= i < |p| ==> !OccursAt(p + s, pat, i)
    ensures ReplaceStr(p + s, pat, rep) == p + ReplaceStr(s, pat, rep)
    decreases |p|
  {
    var t := p + s;
    if p == [] {
      assert t == s;
    } else if |t| >= |pat| {
      assert !OccursAt(t, pat, 0);
      assert t[1..] == p[1..] + s;
      forall i | 0 <= i < |p| - 1 ensures !OccursAt(p[1..] + s, pat, i) {
        assert !OccursAt(t, pat, i + 1);
        OccursAtTail(t, pat, i);
      }
      ReplaceStrPrefix(p[1..], s, pat, rep);
      assert p == [t[0]] + p[1..];
    }
  }

  /** An occurrence at the start, then a stretch where none starts: both are passed over in one go. */
  lemma ReplaceStrHeadThen(x: string, rest: string, pat: string, rep: string)
    requires |pat| > 0
    requires forall i :: 0 <= i < |x| ==> !OccursAt(x + rest, pat, i)
    ensures ReplaceStr(pat + (x + rest), pat, rep) == rep + x + ReplaceStr(rest, pat, rep)
  {
    ReplaceStrHead(x + rest, pat, rep);
    ReplaceStrPrefix(x, rest, pat, rep);
  }

  lemma OccursAtTail(t: string, pat: string, i: nat)
    requires |t| > 0
    ensures OccursAt(t[1..], pat, i) <==> OccursAt(t, pat, i + 1)
  {
    if i + |pat| <= |t[1..]| {
      assert t[1..][i..i + |pat|] == t[i + 1..i + 1 + |pat|];
    }
  }

  /** A text that starts with `pat` starts its result with `rep`. */
  lemma ReplaceStrHead(s: string, pat: string, rep: string)
    requires |pat| > 0
    ensures ReplaceStr(pat + s, pat, rep) == rep + ReplaceStr(s, pat, rep)
  {
    assert (pat + s)[..|pat|] == pat && (pat + s)[|pat|..] == s;
  }

  /** The first occurrence of `pat`, at `j`, becomes `rep`; the text before it is kept and the rest replaced in turn. */
  lemma {:induction false} ReplaceStrFirst(s: string, pat: string, rep: string, j: nat)
    requires |pat| > 0 && OccursAt(s, pat, j)
    requires forall i :: 0 <= i < j ==> !OccursAt(s, pat, i)
    ensures ReplaceStr(s, pat, rep) == s[..j] + rep + ReplaceStr(s[j + |pat|..], pat, rep)
    decreases j, 1
  {
    if j == 0 {
      ReplaceStrAtStart(s, pat, rep);
    } else {
      ReplaceStrFirstLater(s, pat, rep, j);
    }
  }

  /** `ReplaceStrFirst` when the first occurrence does not start the text. */
  lemma {:induction false} ReplaceStrFirstLater(s: string, pat: string, rep: string, j: nat)
    requires |pat| > 0 && j > 0 && OccursAt(s, pat, j)
    requires forall i :: 0 <= i < j ==> !OccursAt(s, pat, i)
    ensures ReplaceStr(s, pat, rep) == s[..j] + rep + ReplaceStr(s[j + |pat|..], pat, rep)
    decreases j, 0
  {
    FirstOccurrenceTail(s, pat, j);
    ReplaceStrFirst(s[1..], pat, rep, j - 1);
    ReplaceStrFirstStep(s, pat, rep, j);
  }

  /** An occurrence at the very start is replaced first. */
  lemma ReplaceStrAtStart(s: string, pat: string, rep: string)
    requires |pat| > 0 && OccursAt(s, pat, 0)
    ensures ReplaceStr(s, pat, rep) == s[..0] + rep + ReplaceStr(s[|pat|..], pat, rep)
  {
    assert s[..|pat|] == pat;
    assert s[..0] + rep == rep;
  }

  /** The first occurrence, one character further left once the first character is dropped. */
  lemma FirstOccurrenceTail(s: string, pat: string, j: nat)
    requires |pat| > 0 && j > 0 && OccursAt(s, pat, j)
    requires forall i :: 0 <= i < j ==> !OccursAt(s, pat, i)
    ensures OccursAt(s[1..], pat, j - 1)
    ensures forall i :: 0 <= i < j - 1 ==> !OccursAt(s[1..], pat, i)
  {
    OccursAtTail(s, pat, j - 1);
    forall i | 0 <= i < j - 1 ensures !OccursAt(s[1..], pat, i) {
      OccursAtTail(s, pat, i);
    }
  }

  /** The step of `ReplaceStrFirst`: a first character where no occurrence starts is copied. */
  lemma ReplaceStrFirstStep(s: string, pat: string, rep: string, j: nat)
    requires |pat| > 0 && j > 0 && OccursAt(s, pat, j) && !OccursAt(s, pat, 0)
    requires ReplaceStr(s[1..], pat, rep) == s[1..][..j - 1] + rep + ReplaceStr(s[1..][j - 1 + |pat|..], pat, rep)
    ensures ReplaceStr(s, pat, rep) == s[..j] + rep + ReplaceStr(s[j + |pat|..], pat, rep)
  {
    var a, b := s[1..][..j - 1], ReplaceStr(s[1..][j - 1 + |pat|..], pat, rep);
    assert s[1..][j - 1 + |pat|..] == s[j + |pat|..];
    assert [s[0]] + a == s[..j];
    assert ReplaceStr(s, pat, rep) == [s[0]] + ReplaceStr(s[1..], pat, rep);
    ConcatAssoc([s[0]], a, rep, b);
  }

  lemma ConcatAssoc(w: string, x: string, y: string, z: string)
    ensures w + (x + y + z) == w + x + y + z
  {
  }

  /** A stretch where no occurrence starts, then an occurrence: the stretch is kept and the occurrence replaced. */
  lemma ReplaceStrAround(p: string, u: string, pat: string, rep: string)
    requires |pat| > 0
    requires forall i :: 0 <= i < |p| ==> !OccursAt(p + (pat + u), pat, i)
    ensures ReplaceStr(p + (pat + u), pat, rep) == p + rep + ReplaceStr(u, pat, rep)
  {
    ReplaceStrPrefix(p, pat + u, pat, rep);
    ReplaceStrHead(u, pat, rep);
  }

  /** The text before the first `sep` (all of `s` when there is none): `s.split(sep)[0]`. */
  function Before(s: string, sep: char): (r: string)
    ensures |r| <= |s| && r == s[..|r|] && sep !in r
    ensures |r| < |s| ==> s[|r|] == sep
  {
    if s == [] || s[0] == sep then [] else [s[0]] + Before(s[1..], sep)
  }

  /** Python's `sep.join(parts)` for a one-character separator. */
  function JoinOn(parts: seq<string>, sep: char): string {
    if parts == [] then [] else if |parts| == 1 then parts[0] else parts[0] + [sep] + JoinOn(parts[1..], sep)
  }

  /** Python's `s.split(sep)` for a one-character separator. */
  function SplitOn(s: string, sep: char): (parts: seq<string>)
    ensures |parts| >= 1 && parts[0] == Before(s, sep)
    ensures forall i :: 0 <= i < |parts| ==> sep !in parts[i]
    decreases |s|
  {
    var head := Before(s, sep);
    if |head| == |s| then [s] else [head] + SplitOn(s[|head| + 1..], sep)
  }

  /** Joining the parts of a split on `sep` gives the text back: `sep.join(s.split(sep)) == s`. */
  lemma {:induction false} SplitOnJoin(s: string, sep: char)
    ensures JoinOn(SplitOn(s, sep), sep) == s
    decreases |s|
  {
    var head := Before(s, sep);
    if |head| == |s| {
      assert head == s;
    } else {
      var rest := SplitOn(s[|head| + 1..], sep);
      SplitOnJoin(s[|head| + 1..], sep);
      assert s == head + [sep] + s[|head| + 1..];
      assert ([head] + rest)[1..] == rest;
    }
  }

  /** The part before the first `sep` is split off, and the text after it is split in turn. */
  lemma SplitOnFirst(x: string, y: string, sep: char)
    requires sep !in x
    ensures SplitOn(x + [sep] + y, sep) == [x] + SplitOn(y, sep)
  {
    BeforeSep(x, y, sep);
    assert (x + [sep] + y)[|x| + 1..] == y;
  }

  /** A text without `sep` is one part. */
  lemma SplitOnNone(s: string, sep: char)
    requires sep !in s
    ensures SplitOn(s, sep) == [s]
  {
  }

  lemma {:induction false} BeforeSep(x: string, y: string, sep: char)
    requires sep !in x
    ensures Before(x + [sep] + y, sep) == x
  {
    if x == [] {
      assert (x + [sep] + y)[0] == sep;
    } else {
      assert (x + [sep] + y)[0] == x[0] && (x + [sep] + y)[1..] == x[1..] + [sep] + y;
      BeforeSep(x[1..], y, sep);
    }
  }

  // ---------------------------------------------------------------------------
  // Numbers: int(...), str(n), float(...)
  // ---------------------------------------------------------------------------

  function DigitChar(d: nat): char
    requires d < 10
  {
    ('0' as int + d) as char
  }

  function DigitValue(c: char): nat
    requires IsDigit(c)
  {
    c as int - '0' as int
  }

  /** Python's `str(n)` for a natural number. */
  function NatToString(n: nat): (s: string)
    ensures AllDigits(s)
    ensures |s| == 1 || s[0] != '0'
  {
    if n < 10 then [DigitChar(n)] else NatToString(n / 10) + [DigitChar(n % 10)]
  }

  /** Python's `int(s)` for a string of digits (leading zeros allowed); 0 for "". */
  function ParseNat(s: string): nat
    requires DigitsOnly(s)
  {
    if s == [] then 0 else 10 * ParseNat(s[..|s| - 1]) + DigitValue(s[|s| - 1])
  }

  function Pow10(n: nat): (p: nat)
    ensures p >= 1
  {
    if n == 0 then 1 else 10 * Pow10(n - 1)
  }

  /**
   * Python's `float(s)` restricted to plain decimals: digits, an optional
   * '.', digits, with at least one digit in all ("12", "1.5", "1.", ".5").
   */
  function ParseDecimal(s: string): (r: Option<real>)
    ensures r.Some? ==> |s| > 0 && (forall i :: 0 <= i < |s| ==> IsNumChar(s[i])) && r.value >= 0.0
    ensures r.Some? ==> exists i :: 0 <= i < |s| && IsDigit(s[i])
  {
    var k := Run(s, 0, Digits);
    RunSpan(s, 0, Digits);
    if k == |s| then
      if k > 0 then Some(ParseNat(s) as real) else None
    else
      RunSpan(s, k + 1, Digits);
      if s[k] == '.' && Run(s, k + 1, Digits) == |s| - k - 1 && (k > 0 || k + 1 < |s|) then
        Some(DecimalValue(s[..k], s[k + 1..]))
      else
        None
  }

  /** The value of the decimal `whole.frac`. */
  function DecimalValue(whole: string, frac: string): real
    requires DigitsOnly(whole) && DigitsOnly(frac)
  {
    ParseNat(whole) as real + ParseNat(frac) as real / Pow10(|frac|) as real
  }

  /** `float(s)` of a string of digits is its integer value. */
  lemma ParseDecimalOfDigits(s: string)
    requires AllDigits(s)
    ensures ParseDecimal(s) == Some(ParseNat(s) as real)
  {
    RunOver(s, 0, |s|, Digits);
  }

  /** `float(s)` of digits, one '.', and digits (one side may be empty, not both) is `whole.frac`. */
  lemma ParseDecimalOfPoint(s: string, k: nat)
    requires k < |s| && s[k] == '.' && |s| > 1
    requires DigitsOnly(s[..k]) && DigitsOnly(s[k + 1..])
    ensures ParseDecimal(s) == Some(DecimalValue(s[..k], s[k + 1..]))
  {
    forall m | 0 <= m < k ensures InClass(Digits, s[m]) {
      assert s[m] == s[..k][m];
    }
    RunOver(s, 0, k, Digits);
    forall m | k + 1 <= m < |s| ensures InClass(Digits, s[m]) {
      assert s[m] == s[k + 1..][m - k - 1];
    }
    RunOver(s, k + 1, |s|, Digits);
  }

  // ---------------------------------------------------------------------------
  // Lemmas
  // ---------------------------------------------------------------------------

  /** `float("1.2.3")` raises: a second '.' ends the fraction's digit run. */
  lemma TwoPointsNotDecimal()
    ensures ParseDecimal("1.2.3").None?
  {
    var s := "1.2.3";
    RunOver(s, 0, 1, Digits);
    RunOver(s, 2, 3, Digits);
  }

  /** `int(str(n)) == n`. */
  lemma {:induction false} ParseNatOfNatToString(n: nat)
    ensures ParseNat(NatToString(n)) == n
  {
    if n >= 10 {
      var s := NatToString(n);
      assert s[..|s| - 1] == NatToString(n / 10);
      ParseNatOfNatToString(n / 10);
    }
  }

  /** `str` is injective on natural numbers. */
  lemma NatToStringInjective(m: nat, n: nat)
    requires NatToString(m) == NatToString(n)
    ensures m == n
  {
    ParseNatOfNatToString(m);
    ParseNatOfNatToString(n);
  }

  /** `float(str(n)) == n`. */
  lemma ParseDecimalOfNatToString(n: nat)
    ensures ParseDecimal(NatToString(n)) == Some(n as real)
  {
    var s := NatToString(n);
    ParseNatOfNatToString(n);
    RunOver(s, 0, |s|, Digits);
  }

  /** Leading whitespace does not change the words. */
  lemma {:induction false} SplitWsStripLeft(s: string)
    ensures SplitWs(StripLeft(s)) == SplitWs(s)
  {
    if s != [] && IsSpace(s[0]) {
      SplitWsStripLeft(s[1..]);
    }
  }

  lemma {:induction false} WordAppendSpace(x: string, c: char)
    requires IsSpace(c)
    ensures Word(x + [c]) == Word(x)
  {
    if x != [] && !IsSpace(x[0]) {
      assert (x + [c])[1..] == x[1..] + [c];
      WordAppendSpace(x[1..], c);
    }
  }

  lemma {:induction false} SplitWsAppendSpace(x: string, c: char)
    requires IsSpace(c)
    ensures SplitWs(x + [c]) == SplitWs(x)
    decreases |x|
  {
    if x == [] {
      assert SplitWs([c]) == SplitWs([c][1..]);
    } else if IsSpace(x[0]) {
      assert (x + [c])[1..] == x[1..] + [c];
      SplitWsAppendSpace(x[1..], c);
    } else {
      WordAppendSpace(x, c);
      var w := Word(x);
      assert (x + [c])[|w|..] == x[|w|..] + [c];
      SplitWsAppendSpace(x[|w|..], c);
    }
  }

  /** Trailing whitespace does not change the words. */
  lemma {:induction false} SplitWsStripRight(s: string)
    ensures SplitWs(StripRight(s)) == SplitWs(s)
    decreases |s|
  {
    if s != [] && IsSpace(s[|s| - 1]) {
      SplitWsStripRight(s[..|s| - 1]);
      assert s == s[..|s| - 1] + [s[|s| - 1]];
      SplitWsAppendSpace(s[..|s| - 1], s[|s| - 1]);
    }
  }

  /** Stripping does not change the words. */
  lemma SplitWsStrip(s: string)
    ensures SplitWs(Strip(s)) == SplitWs(s)
  {
    SplitWsStripRight(StripLeft(s));
    SplitWsStripLeft(s);
  }

  lemma CollapseNonSpaceCons(c: char, y: string)
    requires !IsSpace(c)
    ensures CollapseSpaces([c] + y) == [c] + CollapseSpaces(y)
  {
    assert ([c] + y)[0] == c && ([c] + y)[1..] == y;
  }

  lemma {:induction false} CollapseWordPrefix(w: string, x: string)
    requires NoSpaceIn(w)
    ensures CollapseSpaces(w + x) == w + CollapseSpaces(x)
  {
    if w != [] {
      var c, rest := w[0], w[1..];
      assert !IsSpace(c);
      assert w + x == [c] + (rest + x);
      assert NoSpaceIn(rest);
      CollapseWordPrefix(rest, x);
      CollapseNonSpaceCons(c, rest + x);
      assert w == [c] + rest;
    } else {
      assert w + x == x;
    }
  }

  lemma {:induction false} StripLeftKeepsLast(s: string)
    requires s != [] && !IsSpace(s[|s| - 1])
    ensures StripLeft(s) != [] && StripLeft(s)[|StripLeft(s)| - 1] == s[|s| - 1]
  {
    if IsSpace(s[0]) {
      StripLeftKeepsLast(s[1..]);
    }
  }

  lemma JoinSpacesCons(w: string, ws: seq<string>)
    requires ws != []
    ensures JoinSpaces([w] + ws) == w + " " + JoinSpaces(ws)
  {
    assert ([w] + ws)[1..] == ws;
  }

  /** A word, a space and the joined rest are the joined words. */
  lemma JoinGlue(a: string, w: string, b: string, ws: seq<string>)
    requires ws != [] && a == w + b && b == " " + JoinSpaces(ws)
    ensures a == JoinSpaces([w] + ws)
  {
    JoinSpacesCons(w, ws);
  }

  /** A string that starts with a word is that word followed by the rest, and its words are that word and the rest's. */
  lemma SplitWsWord(t: string)
    requires t != [] && !IsSpace(t[0])
    ensures t == Word(t) + t[|Word(t)|..]
    ensures SplitWs(t) == [Word(t)] + SplitWs(t[|Word(t)|..])
  {
  }

  /** What follows the first word of a trimmed string: nothing, or whitespace and then a trimmed non-empty string. */
  lemma TrimmedRest(t: string)
    requires Trimmed(t) && t != []
    ensures var rest := t[|Word(t)|..];
      rest == [] || (IsSpace(rest[0]) && StripLeft(rest[1..]) != [] && Trimmed(StripLeft(rest[1..])) &&
                     SplitWs(StripLeft(rest[1..])) != [])
  {
    var w := Word(t);
    var rest := t[|w|..];
    if rest != [] {
      assert |rest| >= 2 && rest[|rest| - 1] == t[|t| - 1];
      var tail := rest[1..];
      assert tail[|tail| - 1] == t[|t| - 1];
      StripLeftKeepsLast(tail);
    }
  }

  /** Whitespace at the front collapses to one space and does not change the words. */
  lemma SpaceThenRest(rest: string)
    requires rest != [] && IsSpace(rest[0])
    ensures CollapseSpaces(rest) == " " + CollapseSpaces(StripLeft(rest[1..]))
    ensures SplitWs(rest) == SplitWs(StripLeft(rest[1..]))
  {
    SplitWsStripLeft(rest[1..]);
  }

  lemma {:induction false} CollapseTrimmedIsJoin(t: string)
    requires Trimmed(t)
    ensures CollapseSpaces(t) == JoinSpaces(SplitWs(t))
    decreases |t|
  {
    if t != [] {
      var w := Word(t);
      var rest := t[|w|..];
      SplitWsWord(t);
      CollapseWordPrefix(w, rest);
      TrimmedRest(t);
      if rest != [] {
        var t' := StripLeft(rest[1..]);
        SpaceThenRest(rest);
        CollapseTrimmedIsJoin(t');
        JoinGlue(CollapseSpaces(t), w, CollapseSpaces(rest), SplitWs(t'));
      }
    }
  }

  /**
   * Trimming and then collapsing whitespace runs (`re.sub(r'\s+', ' ', s.strip())`)
   * gives the same text as `" ".join(s.split())`.
   */
  lemma CollapseStripIsJoinSplit(s: string)
    ensures CollapseSpaces(Strip(s)) == JoinSpaces(SplitWs(s))
  {
    CollapseTrimmedIsJoin(Strip(s));
    SplitWsStrip(s);
  }

  lemma {:induction false} StripLeftReplaceSpace(s: string, a: char, b: char)
    requires IsSpace(a) && IsSpace(b)
    ensures StripLeft(ReplaceChar(s, a, b)) == ReplaceChar(StripLeft(s), a, b)
  {
    if s != [] {
      ReplaceCharTail(s, a, b);
      if IsSpace(s[0]) {
        StripLeftReplaceSpace(s[1..], a, b);
      }
    }
  }

  /** Replacing characters commutes with dropping the first one. */
  lemma ReplaceCharTail(s: string, a: char, b: char)
    requires s != []
    ensures ReplaceChar(s, a, b) == [if s[0] == a then b else s[0]] + ReplaceChar(s[1..], a, b)
  {
  }

  /** Turning one whitespace character into another does not change the collapsed text. */
  lemma {:induction false} CollapseReplaceSpace(s: string, a: char, b: char)
    requires IsSpace(a) && IsSpace(b)
    ensures CollapseSpaces(ReplaceChar(s, a, b)) == CollapseSpaces(s)
    decreases |s|
  {
    if s != [] {
      var r := ReplaceChar(s, a, b);
      ReplaceCharTail(s, a, b);
      if IsSpace(s[0]) {
        StripLeftReplaceSpace(s[1..], a, b);
        CollapseReplaceSpace(StripLeft(s[1..]), a, b);
      } else {
        CollapseReplaceSpace(s[1..], a, b);
      }
    }
  }

  lemma {:induction false} WordOfWordThenSpace(w: string, x: string)
    requires NoSpaceIn(w)
    requires x == [] || IsSpace(x[0])
    ensures Word(w + x) == w
  {
    if w != [] {
      assert (w + x)[1..] == w[1..] + x;
      WordOfWordThenSpace(w[1..], x);
    } else if x != [] {
      assert (w + x)[0] == x[0];
    }
  }

  /** `" ".join(ws).split() == ws` for non-empty words without whitespace. */
  lemma {:induction false} SplitWsJoinSpaces(ws: seq<string>)
    requires Words(ws)
    ensures SplitWs(JoinSpaces(ws)) == ws
  {
    if ws == [] {
    } else if |ws| == 1 {
      WordOfWordThenSpace(ws[0], []);
      assert ws[0] + [] == ws[0];
      assert ws[0][|ws[0]|..] == [];
    } else {
      var w := ws[0];
      var tail := " " + JoinSpaces(ws[1..]);
      WordOfWordThenSpace(w, tail);
      assert (w + tail)[|w|..] == tail;
      assert tail[1..] == JoinSpaces(ws[1..]);
      SplitWsJoinSpaces(ws[1..]);
      assert w + tail == JoinSpaces(ws);
    }
  }

  /** A leading zero does not change `int(s)`. */
  lemma {:induction false} ParseNatLeadingZero(s: string)
    requires DigitsOnly(s)
    ensures DigitsOnly("0" + s) && ParseNat("0" + s) == ParseNat(s)
    decreases |s|
  {
    var t := "0" + s;
    assert DigitsOnly(t) by {
      forall i | 0 <= i < |t| ensures IsDigit(t[i]) {
        if i > 0 { assert t[i] == s[i - 1]; }
      }
    }
    if s != [] {
      var init := s[..|s| - 1];
      assert t[..|t| - 1] == "0" + init;
      assert t[|t| - 1] == s[|s| - 1];
      ParseNatLeadingZero(init);
    }
  }
}
