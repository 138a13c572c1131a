/**
 * The per-match field cleanup of the LAPP test extractor
 * (`extract_datasheet_info` in Datasheets/TestRegex.py): every capture of
 * the twelve-group row pattern is trimmed, Construction and Jacket Material
 * lose their '*' markers, Approvals has its whitespace runs collapsed, and
 * the cleaned captures are paired with the twelve column headers.
 */
module TestRegex {
  import opened Text
  import opened Rows

  /** The column headers, one per capture group of the row pattern. */
  const Headers: seq<string> := [
    "Part Number", "Construction", "Stranding", "Jacket Material",
    "Jacket Color", "Approvals", "Fast Connect", "PoE",
    "Nominal OD (in)", "Nominal OD (mm)", "Approx. Weight (lbs/mft)", "SKINTOP MS-SC"
  ]

  /** Positions whose '*' markers are removed: Construction and Jacket Material. */
  predicate StarlessField(i: nat) {
    i == 1 || i == 3
  }

  /** Position of Approvals, the field whose embedded newlines are folded away. */
  const ApprovalsIndex: nat := 5

  /**
   * The cleaned form of the capture at position `i`. The two rewrites
   * after trimming apply to disjoint positions, so at most one of them
   * applies to any capture.
   */
  function CleanField(i: nat, item: string): string {
    if StarlessField(i) then Strip(RemoveChar(Strip(item), '*'))
    else if i == ApprovalsIndex then JoinSpaces(SplitWs(Strip(item)))
    else Strip(item)
  }

  /** The cleaned captures of one match, in capture order. */
  function CleanFields(m: seq<string>): (clean: seq<string>)
    ensures |clean| == |m|
  {
    MapIndexed(CleanField, m)
  }

  /** The record built from one match. */
  function RecordOf(m: seq<string>): map<string, string> {
    ZipRow(Headers, CleanFields(m))
  }

  /** The inner loop of `extract_datasheet_info`: one match's captures, cleaned in order. */
  method CleanMatch(m: seq<string>) returns (clean: seq<string>)
    ensures clean == CleanFields(m)
  {
    clean := [];
    var i := 0;
    while i < |m|
      invariant 0 <= i <= |m|
      invariant clean == MapIndexed(CleanField, m[..i])
    {
      MapIndexedNext(CleanField, m, i);
      var cleaned := Strip(m[i]);
      if i == 1 || i == 3 {
        cleaned := Strip(RemoveChar(cleaned, '*'));
      }
      if i == 5 {
        cleaned := JoinSpaces(SplitWs(cleaned));
      }
      assert cleaned == CleanField(i, m[i]);
      clean := clean + [cleaned];
      i := i + 1;
    }
    assert m[..i] == m;
  }

  /**
   * `extract_datasheet_info`: the outer loop appending one record per
   * match, in match order.
   */
  method ExtractDatasheetInfo(matches: seq<seq<string>>) returns (results: seq<map<string, string>>)
    ensures |results| == |matches|
    ensures forall k :: 0 <= k < |matches| ==> results[k] == RecordOf(matches[k])
  {
    results := [];
    var k := 0;
    while k < |matches|
      invariant 0 <= k <= |matches|
      invariant |results| == k
      invariant forall j :: 0 <= j < k ==> results[j] == RecordOf(matches[j])
    {
      var row := RecordFor(matches[k]);
      results := results + [row];
      k := k + 1;
    }
  }

  /** One iteration of the outer loop: the captures cleaned, then paired with the headers. */
  method RecordFor(m: seq<string>) returns (row: map<string, string>)
    ensures row == RecordOf(m)
  {
    var clean := CleanMatch(m);
    row := ZipRow(Headers, clean);
  }

  lemma HeadersDistinct()
    ensures |Headers| == 12
    ensures forall a, b :: 0 <= a < b < |Headers| ==> Headers[a] != Headers[b]
  {
  }

  /**
   * A match of the twelve-group pattern gives a record whose keys are
   * exactly the twelve headers, each holding the cleaned capture at its
   * own position.
   */
  lemma RecordShape(m: seq<string>)
    requires |m| == |Headers|
    ensures forall h :: h in RecordOf(m) <==> h in Headers
    ensures forall i :: 0 <= i < |Headers| ==> RecordOf(m)[Headers[i]] == CleanField(i, m[i])
  {
    HeadersDistinct();
    forall h | h in Headers ensures h in RecordOf(m) {
      var i :| 0 <= i < |Headers| && Headers[i] == h;
      assert Headers[i] in RecordOf(m).Keys;
    }
    forall i | 0 <= i < |Headers| ensures RecordOf(m)[Headers[i]] == CleanField(i, m[i]) {
      ZipRowLookup(Headers, CleanFields(m), i);
    }
  }

  /** Words without whitespace joined by single spaces are trimmed. */
  lemma JoinedWordsTrimmed(s: string)
    ensures Trimmed(JoinSpaces(SplitWs(s)))
  {
    JoinSpacesTrimmed(SplitWs(s));
  }

  /** Every cleaned field is trimmed of leading and trailing whitespace. */
  lemma CleanFieldTrimmed(i: nat, item: string)
    ensures Trimmed(CleanField(i, item))
  {
    if i == ApprovalsIndex {
      JoinedWordsTrimmed(Strip(item));
    }
  }

  /** Construction and Jacket Material carry no '*' once cleaned. */
  lemma StarlessFieldsHaveNoStar(i: nat, item: string)
    requires StarlessField(i)
    ensures '*' !in CleanField(i, item)
  {
    var r := CleanField(i, item);
    var x := RemoveChar(Strip(item), '*');
    assert r == Strip(x);
    StripKeepsChars(x);
    forall j | 0 <= j < |r| ensures r[j] != '*' {
      assert r[j] in x;
    }
  }

  /**
   * Every field other than Construction, Jacket Material and Approvals is
   * only trimmed: its '*' markers and internal newlines stay.
   */
  lemma OtherFieldsOnlyTrimmed(i: nat, item: string)
    requires !StarlessField(i) && i != ApprovalsIndex
    ensures CleanField(i, item) == Strip(item)
    ensures Trimmed(item) ==> CleanField(i, item) == item
  {
  }

  /**
   * Approvals is cleaned exactly as the shared capture cleaner does it:
   * single spaces between the capture's words, nothing else.
   */
  lemma ApprovalsCollapsed(item: string)
    ensures CleanField(ApprovalsIndex, item) == CleanCapture(item)
    ensures SplitWs(CleanField(ApprovalsIndex, item)) == SplitWs(item)
    ensures forall j :: 0 <= j < |CleanField(ApprovalsIndex, item)| && IsSpace(CleanField(ApprovalsIndex, item)[j]) ==>
              CleanField(ApprovalsIndex, item)[j] == ' '
  {
    SplitWsStrip(item);
    CleanCaptureIsJoinedWords(item);
    CleanCaptureShape(item);
  }

  /** A trimmed field without '*' is its own Construction or Jacket Material cleanup. */
  lemma StarlessFieldFixed(i: nat, c: string)
    requires StarlessField(i) && Trimmed(c) && '*' !in c
    ensures CleanField(i, c) == c
  {
    assert Strip(c) == c;
    assert RemoveChar(c, '*') == c;
  }

  /** Words joined by single spaces are their own Approvals cleanup. */
  lemma ApprovalsFieldFixed(ws: seq<string>)
    requires Words(ws)
    ensures CleanField(ApprovalsIndex, JoinSpaces(ws)) == JoinSpaces(ws)
  {
    var c := JoinSpaces(ws);
    SplitWsJoinSpaces(ws);
    JoinSpacesTrimmed(ws);
    assert Strip(c) == c;
    assert SplitWs(Strip(c)) == ws;
    assert !StarlessField(ApprovalsIndex);
    assert CleanField(ApprovalsIndex, c) == JoinSpaces(SplitWs(Strip(c)));
  }

  /** Cleaning a cleaned field again changes nothing. */
  lemma CleanFieldIdempotent(i: nat, item: string)
    ensures CleanField(i, CleanField(i, item)) == CleanField(i, item)
  {
    if StarlessField(i) {
      CleanFieldTrimmed(i, item);
      StarlessFieldsHaveNoStar(i, item);
      StarlessFieldFixed(i, CleanField(i, item));
    } else if i == ApprovalsIndex {
      ApprovalsFieldFixed(SplitWs(Strip(item)));
    } else {
      OtherFieldsOnlyTrimmed(i, item);
      OtherFieldsOnlyTrimmed(i, Strip(item));
    }
  }
}
