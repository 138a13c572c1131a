/**
 * The row helpers the datasheet extractors share: cleaning one captured
 * field (`clean_match_row`) and pairing headers with values
 * (`dict(zip(headers, values))`).
 */
module Rows {
  import opened Wrappers
  import opened Text

  /** Python's `str(x)` of a value that is a string or `None`. */
  function PyStr(x: Option<string>): string {
    match x
    case Some(s) => s
    case None => "None"
  }

  /** `row.get(key)`. */
  function Get(row: map<string, string>, key: string): Option<string> {
    if key in row then Some(row[key]) else None
  }

  /** The key `clean_match_row` stores the matched table's name under. */
  const StyleKey := "_Matched_Style"

  /**
   * One captured field as `clean_match_row` leaves it: stripped, newlines
   * turned into spaces, then every whitespace run replaced by one space.
   */
  function CleanCapture(s: string): string {
    CollapseSpaces(ReplaceChar(Strip(s), '\n', ' '))
  }

  /**
   * The cleaned field is exactly the whitespace-separated words of the
   * capture joined by single spaces: `" ".join(s.split())`.
   */
  lemma CleanCaptureIsJoinedWords(s: string)
    ensures CleanCapture(s) == JoinSpaces(SplitWs(s))
  {
    CollapseReplaceSpace(Strip(s), '\n', ' ');
    CollapseStripIsJoinSplit(s);
  }

  /** Words without whitespace joined by single spaces neither start nor end with whitespace. */
  lemma {:induction false} JoinSpacesTrimmed(ws: seq<string>)
    requires Words(ws)
    ensures Trimmed(JoinSpaces(ws))
    ensures ws != [] ==> JoinSpaces(ws) != [] && JoinSpaces(ws)[0] == ws[0][0]
    ensures ws != [] ==> JoinSpaces(ws)[|JoinSpaces(ws)| - 1] == ws[|ws| - 1][|ws[|ws| - 1]| - 1]
  {
    if |ws| >= 2 {
      JoinSpacesTrimmed(ws[1..]);
      var j := JoinSpaces(ws);
      var rest := JoinSpaces(ws[1..]);
      assert j == ws[0] + " " + rest;
      assert j[0] == ws[0][0];
      assert j[|j| - 1] == rest[|rest| - 1];
      assert !IsSpace(ws[0][0]);
    } else if |ws| == 1 {
      assert !IsSpace(ws[0][0]) && !IsSpace(ws[0][|ws[0]| - 1]);
    }
  }

  /** Whitespace inside joined words is only the single separating spaces. */
  lemma {:induction false} JoinSpacesSingleSpaces(ws: seq<string>)
    requires Words(ws)
    ensures forall i :: 0 <= i < |JoinSpaces(ws)| && IsSpace(JoinSpaces(ws)[i]) ==> JoinSpaces(ws)[i] == ' '
    ensures forall i :: 0 <= i < |JoinSpaces(ws)| - 1 ==> !IsSpace(JoinSpaces(ws)[i]) || !IsSpace(JoinSpaces(ws)[i + 1])
  {
    if |ws| >= 2 {
      JoinSpacesSingleSpaces(ws[1..]);
      JoinSpacesTrimmed(ws[1..]);
      var rest := JoinSpaces(ws[1..]);
      var j := JoinSpaces(ws);
      var w := ws[0];
      assert j == w + " " + rest;
      forall i | 0 <= i < |j| && IsSpace(j[i]) ensures j[i] == ' ' {
        if i > |w| {
          assert j[i] == rest[i - |w| - 1];
        }
      }
      forall i | 0 <= i < |j| - 1 ensures !IsSpace(j[i]) || !IsSpace(j[i + 1]) {
        if i + 1 < |w| {
          assert j[i] == w[i];
        } else if i + 1 == |w| {
          assert j[i] == w[i];
        } else if i == |w| {
          assert j[i + 1] == rest[0];
        } else {
          assert j[i] == rest[i - |w| - 1] && j[i + 1] == rest[i - |w|];
        }
      }
    }
  }

  /**
   * What `clean_match_row` promises of each cleaned field: it is trimmed,
   * its only whitespace characters are single spaces between words, and it
   * keeps every word of the capture in order.
   */
  lemma CleanCaptureShape(s: string)
    ensures Trimmed(CleanCapture(s))
    ensures forall i :: 0 <= i < |CleanCapture(s)| && IsSpace(CleanCapture(s)[i]) ==> CleanCapture(s)[i] == ' '
    ensures forall i :: 0 <= i < |CleanCapture(s)| - 1 ==> !IsSpace(CleanCapture(s)[i]) || !IsSpace(CleanCapture(s)[i + 1])
    ensures SplitWs(CleanCapture(s)) == SplitWs(s)
  {
    CleanCaptureIsJoinedWords(s);
    JoinSpacesTrimmed(SplitWs(s));
    JoinSpacesSingleSpaces(SplitWs(s));
    SplitWsJoinSpaces(SplitWs(s));
  }

  /** Cleaning is idempotent: a cleaned field is left as it is. */
  lemma CleanCaptureIdempotent(s: string)
    ensures CleanCapture(CleanCapture(s)) == CleanCapture(s)
  {
    CleanCaptureShape(s);
    CleanCaptureIsJoinedWords(CleanCapture(s));
    CleanCaptureIsJoinedWords(s);
  }

  /** Words already joined by single spaces are left as they are. */
  lemma CleanCaptureOfJoined(ws: seq<string>)
    requires Words(ws)
    ensures CleanCapture(JoinSpaces(ws)) == JoinSpaces(ws)
  {
    CleanCaptureIsJoinedWords(JoinSpaces(ws));
    SplitWsJoinSpaces(ws);
  }

  /** A single word without whitespace is its own cleaned form. */
  lemma CleanCaptureOfWord(w: string)
    requires |w| > 0 && NoSpaceIn(w)
    ensures CleanCapture(w) == w
  {
    CleanCaptureOfJoined([w]);
  }

  /** Cleaning a field first trimmed gives the same result as cleaning it directly. */
  lemma CleanCaptureOfStripped(s: string)
    ensures CleanCapture(Strip(s)) == CleanCapture(s)
  {
    CleanCaptureIsJoinedWords(s);
    CleanCaptureIsJoinedWords(Strip(s));
    SplitWsStrip(s);
  }

  /** `[f(x) for x in s]`: the list comprehension the row cleaners build. */
  function Map<A, B>(f: A -> B, s: seq<A>): (r: seq<B>)
    ensures |r| == |s|
  {
    seq(|s|, i requires 0 <= i < |s| => f(s[i]))
  }

  /** Mapping one more element extends the mapped prefix by its image. */
  lemma MapNext<A, B>(f: A -> B, s: seq<A>, i: nat)
    requires i < |s|
    ensures Map(f, s[..i + 1]) == Map(f, s[..i]) + [f(s[i])]
  {
    var a, b := Map(f, s[..i + 1]), Map(f, s[..i]) + [f(s[i])];
    forall k | 0 <= k < |a| ensures a[k] == b[k] {
      if k < i { assert s[..i][k] == s[k]; }
    }
  }

  /** `[f(x) for x in s]` for an `f` defined on every element of `s`. */
  function MapPartial<A, B>(f: A --> B, s: seq<A>): (r: seq<B>)
    requires forall i :: 0 <= i < |s| ==> f.requires(s[i])
    ensures |r| == |s|
  {
    seq(|s|, i requires 0 <= i < |s| => f(s[i]))
  }

  /** Mapping one more element extends the mapped prefix by its image. */
  lemma MapPartialNext<A, B>(f: A --> B, s: seq<A>, i: nat)
    requires i < |s| && forall k :: 0 <= k < |s| ==> f.requires(s[k])
    ensures MapPartial(f, s[..i + 1]) == MapPartial(f, s[..i]) + [f(s[i])]
  {
    var a, b := MapPartial(f, s[..i + 1]), MapPartial(f, s[..i]) + [f(s[i])];
    forall k | 0 <= k < |a| ensures a[k] == b[k] {
      if k < i { assert s[..i][k] == s[k]; }
    }
  }

  /** Each element of the mapped sequence is the image of the element at its position. */
  lemma MapPartialAt<A, B>(f: A --> B, s: seq<A>)
    requires forall k :: 0 <= k < |s| ==> f.requires(s[k])
    ensures forall k :: 0 <= k < |s| ==> MapPartial(f, s)[k] == f(s[k])
  {
  }

  /** `[f(i, x) for i, x in enumerate(s)]`. */
  function MapIndexed<A, B>(f: (nat, A) -> B, s: seq<A>): (r: seq<B>)
    ensures |r| == |s|
  {
    seq(|s|, i requires 0 <= i < |s| => f(i, s[i]))
  }

  /** Mapping one more element extends the mapped prefix by its image at its position. */
  lemma MapIndexedNext<A, B>(f: (nat, A) -> B, s: seq<A>, i: nat)
    requires i < |s|
    ensures MapIndexed(f, s[..i + 1]) == MapIndexed(f, s[..i]) + [f(i, s[i])]
  {
    var a, b := MapIndexed(f, s[..i + 1]), MapIndexed(f, s[..i]) + [f(i, s[i])];
    forall k | 0 <= k < |a| ensures a[k] == b[k] {
      if k < i { assert s[..i][k] == s[k]; }
    }
  }

  /**
   * `dict(zip(headers, values))`: pairs up to the shorter of the two lists;
   * a header that occurs twice keeps its later value.
   */
  function ZipRow(headers: seq<string>, values: seq<string>): (row: map<string, string>)
    ensures row.Keys == set i | 0 <= i < |headers| && i < |values| :: headers[i]
    decreases |headers|
  {
    if headers == [] || values == [] then map[]
    else
      var n := if |headers| < |values| then |headers| else |values|;
      ZipRow(headers[..n - 1], values[..n - 1])[headers[n - 1] := values[n - 1]]
  }

  /** With distinct headers, each header maps to the value at its own position. */
  lemma {:induction false} ZipRowLookup(headers: seq<string>, values: seq<string>, i: nat)
    requires i < |headers| && i < |values|
    requires forall a, b :: 0 <= a < b < |headers| ==> headers[a] != headers[b]
    ensures ZipRow(headers, values)[headers[i]] == values[i]
    decreases |headers|
  {
    var n := if |headers| < |values| then |headers| else |values|;
    var hs, vs := headers[..n - 1], values[..n - 1];
    assert ZipRow(headers, values) == ZipRow(hs, vs)[headers[n - 1] := values[n - 1]];
    if i < n - 1 {
      assert forall a, b :: 0 <= a < b < |hs| ==> hs[a] != hs[b] by {
        forall a, b | 0 <= a < b < |hs| ensures hs[a] != hs[b] {
          assert hs[a] == headers[a] && hs[b] == headers[b];
        }
      }
      ZipRowLookup(hs, vs, i);
      assert hs[i] == headers[i] && vs[i] == values[i];
      assert headers[n - 1] != headers[i];
    }
  }
}
