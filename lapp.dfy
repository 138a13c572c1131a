/**
 * The LAPP datasheet extractor: the scanners that read gauge, pairing and
 * conductor count out of a construction text, the per-style normaliser,
 * the row cleanup, the post-match guards of the four table families, and
 * the final cable records with their core palettes and coarse geometry.
 */
module Lapp {
  import opened Wrappers
  import opened Text
  import opened Rows
  import opened Records

  // ---------------------------------------------------------------------------
  // Styles
  // ---------------------------------------------------------------------------

  /** The four table families, in the order the extractor searches them. */
  datatype Style = Ethernet | Profibus | DeviceNet | Olflex

  /** The `_Matched_Style` value of each family. */
  function StyleName(style: Style): string {
    match style
    case Ethernet => "Ethernet/Industrial Style"
    case Profibus => "Profibus/General Style"
    case DeviceNet => "DeviceNet Style"
    case Olflex => "ÖLFLEX® Power & Control Style"
  }

  /** The column headers of each family's table pattern. */
  function Headers(style: Style): seq<string> {
    match style
    case Ethernet =>
      ["Part Number", "Construction", "Stranding", "Jacket Material", "Jacket Color", "Approvals",
       "Fast Connect", "PoE", "Nominal OD (in)", "Nominal OD (mm)", "Approx. Weight (lbs/mft)", "SKINTOP MS-SC"]
    case Profibus =>
      ["Part Number", "Jacket Material", "Conductor Description", "Approvals", "Nominal OD (in)",
       "Nominal OD (mm)", "Copper Weight (lbs/mft)", "Approx. Weight (lbs/mft)", "SKINTOP MS-SC"]
    case DeviceNet =>
      ["Part Number", "Type", "Jacket Material", "Conductor Description", "Nominal OD (in)",
       "Nominal OD (mm)", "Copper Weight (lbs/mft)", "Approx. Weight (lbs/mft)", "SKINTOP MS-SC"]
    case Olflex =>
      ["Part Number", "Conductor Count (incl. ground)", "Nominal OD (in)", "Nominal OD (mm)",
       "Copper Weight (lbs/mft)", "Approx. Weight (lbs/mft)", "SKINTOP®"]
  }

  // ---------------------------------------------------------------------------
  // Scanners for the re.search calls of the normaliser
  // ---------------------------------------------------------------------------

  /** `w` (upper case) occurs at index `p` of `s`, ignoring ASCII case. */
  predicate LiteralAt(s: string, p: nat, w: string) {
    p + |w| <= |s| && Upper(s[p..p + |w|]) == w
  }

  /** The index after the whitespace run starting at `p` (a greedy `\s*`). */
  function SkipSpaces(s: string, p: nat): (q: nat)
    requires p <= |s|
    ensures p <= q <= |s|
  {
    p + Run(s, p, Spaces)
  }

  /**
   * `\d{1,2}(?:/\d{1,2})?\s*AWG` at `p`, given the digit run there ends at
   * `q`: the end of the match, if any. The optional fraction is tried first;
   * when it fails the pattern needs `\s*AWG` right at `q`, which a '/'
   * cannot start.
   */
  function GaugeEnd(s: string, q: nat): Option<nat>
    requires q <= |s|
  {
    if q < |s| && s[q] == '/' then
      var e := Run(s, q + 1, Digits);
      var r := SkipSpaces(s, q + 1 + e);
      if 1 <= e <= 2 && LiteralAt(s, r, "AWG") then Some(r + 3) else None
    else
      var r := SkipSpaces(s, q);
      if LiteralAt(s, r, "AWG") then Some(r + 3) else None
  }

  /**
   * The match of `(\d{1,2}(?:/\d{1,2})?\s*AWG|\d+\s*KCMIL)` (ignoring case)
   * starting at `p`. A digit run longer than two leaves a digit where the
   * first alternative needs '/', whitespace or 'A', so that alternative
   * only matches a run of one or two digits.
   */
  function SizeAt(s: string, p: nat): Option<string>
    requires p <= |s|
  {
    var d := Run(s, p, Digits);
    if d == 0 then None
    else
      var gauge := if d <= 2 then GaugeEnd(s, p + d) else None;
      match gauge
      case Some(e) => Some(s[p..e])
      case None =>
        var r := SkipSpaces(s, p + d);
        if LiteralAt(s, r, "KCMIL") then Some(s[p..r + 5]) else None
  }

  // The group of `(\d{1,2})\s*AWG\s*/\s*pr` (ignoring case) starting at `p`.
  function PairGaugeAt(s: string, p: nat): Option<string>
    requires p <= |s|
  {
    var d := Run(s, p, Digits);
    var r := SkipSpaces(s, p + d);
    if 1 <= d <= 2 && LiteralAt(s, r, "AWG") then
      var t := SkipSpaces(s, r + 3);
      if t < |s| && s[t] == '/' && LiteralAt(s, SkipSpaces(s, t + 1), "PR") then Some(s[p..p + d]) else None
    else None
  }

  /** The digits of `(\d+)\s*(?:pr|pair|x\s*\d+x)` (ignoring case) starting at `p`. */
  function PairCountAt(s: string, p: nat): Option<string>
    requires p <= |s|
  {
    var d := Run(s, p, Digits);
    var r := SkipSpaces(s, p + d);
    if d == 0 then None
    else if LiteralAt(s, r, "PR") || LiteralAt(s, r, "PAIR") then Some(s[p..p + d])
    else if LiteralAt(s, r, "X") then
      var t := SkipSpaces(s, r + 1);
      var e := Run(s, t, Digits);
      if e > 0 && LiteralAt(s, t + e, "X") then Some(s[p..p + d]) else None
    else None
  }

  /** The digits of `(\d+)[cC](?:\/[gG])?` (case-sensitive) starting at `p`. */
  function ConductorCountAt(s: string, p: nat): Option<string>
    requires p <= |s|
  {
    var d := Run(s, p, Digits);
    if d > 0 && p + d < |s| && (s[p + d] == 'c' || s[p + d] == 'C') then Some(s[p..p + d]) else None
  }

  /** The four searches of the normaliser. */
  datatype Pattern = Size | PairGauge | PairCount | ConductorCount

  function MatchAt(pat: Pattern, s: string, p: nat): Option<string>
    requires p <= |s|
  {
    match pat
    case Size => SizeAt(s, p)
    case PairGauge => PairGaugeAt(s, p)
    case PairCount => PairCountAt(s, p)
    case ConductorCount => ConductorCountAt(s, p)
  }

  /** `re.search`: the match at the leftmost index from `p` on where the pattern matches. */
  function Search(pat: Pattern, s: string, p: nat): Option<string>
    requires p <= |s|
    decreases |s| - p
  {
    if p == |s| then None
    else if MatchAt(pat, s, p).Some? then MatchAt(pat, s, p)
    else Search(pat, s, p + 1)
  }

  /** The search returns the match at the first index where the pattern matches. */
  lemma {:induction false} SearchLeftmost(pat: Pattern, s: string, p: nat, q: nat)
    requires p <= q < |s| && MatchAt(pat, s, q).Some?
    requires forall r :: p <= r < q ==> MatchAt(pat, s, r).None?
    ensures Search(pat, s, p) == MatchAt(pat, s, q)
    decreases q - p
  {
    if p < q {
      SearchLeftmost(pat, s, p + 1, q);
    }
  }

  /** A search that finds nothing means the pattern matches nowhere after `p`. */
  lemma {:induction false} SearchNone(pat: Pattern, s: string, p: nat, q: nat)
    requires p <= q < |s| && Search(pat, s, p).None?
    ensures MatchAt(pat, s, q).None?
    decreases q - p
  {
    if p < q {
      SearchNone(pat, s, p + 1, q);
    }
  }

  /** The count captures are runs of digits. */
  lemma {:induction false} CountCaptureDigits(pat: Pattern, s: string, p: nat)
    requires p <= |s| && (pat == PairCount || pat == ConductorCount)
    ensures Search(pat, s, p).Some? ==> Search(pat, s, p).value != [] && DigitsOnly(Search(pat, s, p).value)
    decreases |s| - p
  {
    if p < |s| {
      if MatchAt(pat, s, p).Some? {
        RunSpan(s, p, Digits);
        var d := Run(s, p, Digits);
        assert MatchAt(pat, s, p).value == s[p..p + d];
      } else {
        CountCaptureDigits(pat, s, p + 1);
      }
    }
  }

  /** "pr" in any case at `r` is the literal "PR" of the pair pattern. */
  lemma PrAt(s: string, r: nat)
    requires r + 2 <= |s| && s[r] == 'p' && s[r + 1] == 'r'
    ensures LiteralAt(s, r, "PR")
  {
    var u := Upper(s[r..r + 2]);
    assert u[0] == 'P' && u[1] == 'R';
  }

  /** A run of digits followed by optional whitespace and "pr" is a pair count. */
  lemma PairCountOfPr(digits: string, gap: string, rest: string)
    requires AllDigits(digits)
    requires forall i :: 0 <= i < |gap| ==> IsSpace(gap[i])
    ensures Search(PairCount, digits + gap + "pr" + rest, 0) == Some(digits)
  {
    var s := digits + gap + "pr" + rest;
    var d := |digits|;
    var r := d + |gap|;
    DigitsGapRuns(digits, gap, "pr" + rest);
    assert s == digits + gap + ("pr" + rest);
    assert s[r] == 'p' && s[r + 1] == 'r';
    PrAt(s, r);
    PairCountFront(s, d);
    assert s[0..d] == digits;
  }

  /** In digits, then whitespace, then a text starting with a non-space, the digit run and the space run end where the parts do. */
  lemma DigitsGapRuns(digits: string, gap: string, tail: string)
    requires AllDigits(digits)
    requires forall i :: 0 <= i < |gap| ==> IsSpace(gap[i])
    requires tail != [] && !IsSpace(tail[0]) && !IsDigit(tail[0])
    ensures var s := digits + gap + tail;
      Run(s, 0, Digits) == |digits| && SkipSpaces(s, |digits|) == |digits| + |gap|
  {
    var s := digits + gap + tail;
    assert s == digits + (gap + tail);
    LeadingDigitsRun(digits, gap + tail);
    GapRun(digits, gap, tail);
  }

  /** The digit run of digits followed by a non-digit ends where the digits do. */
  lemma LeadingDigitsRun(digits: string, tail: string)
    requires AllDigits(digits)
    requires tail != [] && !IsDigit(tail[0])
    ensures Run(digits + tail, 0, Digits) == |digits|
  {
    var s := digits + tail;
    var d := |digits|;
    forall m | 0 <= m < d ensures InClass(Digits, s[m]) {
      assert s[m] == digits[m];
    }
    assert s[d] == tail[0];
    RunOver(s, 0, d, Digits);
  }

  /** The space run after the digits covers exactly the gap. */
  lemma GapRun(digits: string, gap: string, tail: string)
    requires forall i :: 0 <= i < |gap| ==> IsSpace(gap[i])
    requires tail != [] && !IsSpace(tail[0])
    ensures var s := digits + gap + tail;
      SkipSpaces(s, |digits|) == |digits| + |gap|
  {
    var s := digits + gap + tail;
    var d := |digits|;
    var r := d + |gap|;
    forall m | d <= m < r ensures InClass(Spaces, s[m]) {
      assert s[m] == gap[m - d];
    }
    assert s[r] == tail[0];
    RunOver(s, d, r, Spaces);
  }

  /** Digits at the very start followed by "PR" in any case: the search stops at index 0. */
  lemma PairCountFront(s: string, d: nat)
    requires 0 < d <= |s| && Run(s, 0, Digits) == d && LiteralAt(s, SkipSpaces(s, d), "PR")
    ensures Search(PairCount, s, 0) == Some(s[0..d])
  {
    assert MatchAt(PairCount, s, 0) == Some(s[0..d]);
  }

  /** A run of digits followed by 'C' or 'c' is a conductor count. */
  lemma ConductorCountOfC(digits: string, c: char, rest: string)
    requires AllDigits(digits) && (c == 'C' || c == 'c')
    ensures Search(ConductorCount, digits + [c] + rest, 0) == Some(digits)
  {
    var s := digits + [c] + rest;
    var d := |digits|;
    assert s == digits + ([c] + rest);
    LeadingDigitsRun(digits, [c] + rest);
    assert s[d] == c;
    assert s[0..d] == digits;
  }

  // ---------------------------------------------------------------------------
  // normalize_cable_properties
  // ---------------------------------------------------------------------------

  /** A row after normalisation: its cells, plus AWG/Size, Pairing Configuration and Total Conductors. */
  datatype LappRow = LappRow(
    style: Style,
    cells: map<string, string>,
    awgSize: string,
    pairing: string,
    total: Option<nat>)   // None is the string 'N/A'

  /** `row.get('Construction') or row.get('Conductor Description')`, with "" for a missing or empty text. */
  function ParseField(cells: map<string, string>): string {
    var construction := Get(cells, "Construction").GetOr("");
    if construction != "" then construction else Get(cells, "Conductor Description").GetOr("")
  }

  /** The final AWG/Size cleanup: a text holding "AWG" in any case is upper-cased, loses "AWG" and is trimmed. */
  function AwgCleanup(awg: string): string {
    var upper := Upper(awg);
    if Contains(upper, "AWG") then Strip(ReplaceStr(upper, "AWG", "")) else awg
  }

  /** The ÖLFLEX count cell with "KCMIL" removed and trimmed. */
  function OlflexCountField(cells: map<string, string>): string {
    Strip(ReplaceStr(Get(cells, "Conductor Count (incl. ground)").GetOr("N/A"), "KCMIL", ""))
  }

  /**
   * Pairing Configuration and Total Conductors, by precedence: the ÖLFLEX
   * count cell; for the other styles nothing without a description, the
   * fixed DeviceNet layout, a pair notation, a conductor notation, nothing.
   */
  function CountsSpec(style: Style, cells: map<string, string>): (string, Option<nat>) {
    if style == Olflex then OlflexCounts(OlflexCountField(cells)) else DescriptionCounts(style, ParseField(cells))
  }

  /** The ÖLFLEX count cell: "<n>C" above one conductor, and the count whenever the cell is all digits. */
  function OlflexCounts(field: string): (string, Option<nat>) {
    if AllDigits(field) then
      var n := ParseNat(field);
      (if n > 1 then NatToString(n) + "C" else "N/A", Some(n))
    else ("N/A", None)
  }

  /** The description of a non-ÖLFLEX row: DeviceNet layout, pair notation, conductor notation, nothing. */
  function DescriptionCounts(style: Style, text: string): (string, Option<nat>) {
    CountCaptureDigits(PairCount, text, 0);
    CountCaptureDigits(ConductorCount, text, 0);
    if text == "" then ("N/A", None)
    else if style == DeviceNet then ("2P + 1T", Some(5))
    else match Search(PairCount, text, 0)
      case Some(pairs) => (NatToString(ParseNat(pairs)) + " pr", Some(2 * ParseNat(pairs)))
      case None =>
        match Search(ConductorCount, text, 0)
        case Some(count) => (count + "C", Some(ParseNat(count)))
        case None => ("N/A", None)
  }

  /** AWG/Size: a pair gauge wins over a plain size; nothing for ÖLFLEX rows and rows without a description. */
  function AwgSpec(style: Style, cells: map<string, string>): string {
    var text := ParseField(cells);
    AwgCleanup(if style == Olflex || text == "" then "N/A" else DescriptionAwg(text).GetOr("N/A"))
  }

  /** The AWG/Size a description gives before cleanup: its pair gauge, else its trimmed size. */
  function DescriptionAwg(text: string): Option<string> {
    match Search(PairGauge, text, 0)
    case Some(g) => Some(g + " AWG")
    case None => match Search(Size, text, 0)
      case Some(m) => Some(Strip(m))
      case None => None
  }

  function NormalizeSpec(style: Style, cells: map<string, string>): LappRow {
    var counts := CountsSpec(style, cells);
    LappRow(style, cells, AwgSpec(style, cells), counts.0, counts.1)
  }

  /** The ÖLFLEX branch of the normaliser: the count cell decides both fields. */
  method NormalizeOlflexCounts(cells: map<string, string>) returns (pairing: string, total: Option<nat>)
    ensures (pairing, total) == OlflexCounts(OlflexCountField(cells))
  {
    pairing := "N/A";
    total := None;
    var countField := OlflexCountField(cells);
    if AllDigits(countField) {
      total := Some(ParseNat(countField));
      if total.value > 1 {
        pairing := NatToString(total.value) + "C";
      }
    }
  }

  /** The description branch of the normaliser, for a non-empty description. */
  method NormalizeDescription(style: Style, text: string)
    returns (awg: string, pairing: string, total: Option<nat>)
    requires style != Olflex && text != ""
    ensures (pairing, total) == DescriptionCounts(style, text)
    ensures awg == DescriptionAwg(text).GetOr("N/A")
  {
    awg := DescriptionAwgOf(text);
    pairing, total := DescriptionCountsOf(style, text);
  }

  /** Step 1 of the description branch: a size, then a pair gauge overriding it. */
  method DescriptionAwgOf(text: string) returns (awg: string)
    ensures awg == DescriptionAwg(text).GetOr("N/A")
  {
    awg := "N/A";
    var size := Search(Size, text, 0);
    if size.Some? {
      awg := Strip(size.value);
    }
    var pairGauge := Search(PairGauge, text, 0);
    if pairGauge.Some? {
      awg := pairGauge.value + " AWG";
    }
  }

  /** Step 2 of the description branch: pair notation, else conductor notation, then the DeviceNet override. */
  method DescriptionCountsOf(style: Style, text: string) returns (pairing: string, total: Option<nat>)
    requires text != ""
    ensures (pairing, total) == DescriptionCounts(style, text)
  {
    pairing := "N/A";
    total := None;
    CountCaptureDigits(PairCount, text, 0);
    var pair := Search(PairCount, text, 0);
    if pair.Some? {
      var pairs := ParseNat(pair.value);
      pairing := NatToString(pairs) + " pr";
      total := Some(pairs * 2);
    }
    CountCaptureDigits(ConductorCount, text, 0);
    var cond := Search(ConductorCount, text, 0);
    if cond.Some? && pair.None? {
      pairing := cond.value + "C";
      total := Some(ParseNat(cond.value));
    }
    if style == DeviceNet {
      pairing := "2P + 1T";
      total := Some(5);
    }
  }

  /** `normalize_cable_properties(row_data, style_name)`: the fields are overwritten in source order. */
  method Normalize(style: Style, cells: map<string, string>) returns (row: LappRow)
    ensures row == NormalizeSpec(style, cells)
  {
    var awg := "N/A";
    var pairing := "N/A";
    var total: Option<nat> := None;
    if style == Olflex {
      pairing, total := NormalizeOlflexCounts(cells);
    } else {
      var text := ParseField(cells);
      if text != "" {
        awg, pairing, total := NormalizeDescription(style, text);
      }
    }
    if Contains(Upper(awg), "AWG") {
      awg := Strip(ReplaceStr(Upper(awg), "AWG", ""));
    }
    row := LappRow(style, cells, awg, pairing, total);
  }

  /** The non-pair pairings do not end in "pr". */
  lemma NotPairNotation(p: string)
    requires p == "N/A" || p == "2P + 1T" || (p != [] && p[|p| - 1] == 'C')
    ensures !EndsWith(p, "pr")
  {
  }

  /**
   * A pairing that ends in "pr" only comes from a pair notation, so the
   * total is then a known even number.
   */
  lemma PairingPrMeansEvenTotal(style: Style, cells: map<string, string>)
    ensures var row := NormalizeSpec(style, cells);
      EndsWith(row.pairing, "pr") ==> row.total.Some? && row.total.value % 2 == 0
  {
    CountsPrEven(style, cells);
  }

  /** The counts half of `PairingPrMeansEvenTotal`. */
  lemma CountsPrEven(style: Style, cells: map<string, string>)
    ensures var counts := CountsSpec(style, cells);
      EndsWith(counts.0, "pr") ==> counts.1.Some? && counts.1.value % 2 == 0
  {
    if style == Olflex {
      OlflexCountsNotPr(OlflexCountField(cells));
    } else {
      DescriptionCountsPrEven(style, ParseField(cells));
    }
  }

  /** The ÖLFLEX count cell never yields a pair notation. */
  lemma OlflexCountsNotPr(field: string)
    ensures !EndsWith(OlflexCounts(field).0, "pr")
  {
    if AllDigits(field) && ParseNat(field) > 1 {
      var n := NatToString(ParseNat(field));
      assert (n + "C")[|n + "C"| - 1] == 'C';
    }
    NotPairNotation(OlflexCounts(field).0);
  }

  /** From a description, only the pair notation ends in "pr", and it doubles its count. */
  lemma DescriptionCountsPrEven(style: Style, text: string)
    requires style != Olflex
    ensures var counts := DescriptionCounts(style, text);
      EndsWith(counts.0, "pr") ==> counts.1.Some? && counts.1.value % 2 == 0
  {
    var counts := DescriptionCounts(style, text);
    CountCaptureDigits(PairCount, text, 0);
    CountCaptureDigits(ConductorCount, text, 0);
    if text == "" || style == DeviceNet {
      NotPairNotation(counts.0);
    } else if Search(PairCount, text, 0).None? {
      var count := Search(ConductorCount, text, 0);
      if count.Some? {
        assert (count.value + "C")[|count.value + "C"| - 1] == 'C';
      }
      NotPairNotation(counts.0);
    }
  }

  // ---------------------------------------------------------------------------
  // clean_match_row
  // ---------------------------------------------------------------------------

  /** True for the ÖLFLEX table, whose last header is "SKINTOP®". */
  predicate RemovesPgThread(style: Style, headers: seq<string>) {
    style == Olflex && headers != [] && headers[|headers| - 1] == "SKINTOP®"
  }

  /** One captured field cleaned; in the ÖLFLEX table "PG thread" is removed as well. */
  function CleanField(style: Style, headers: seq<string>, item: string): string {
    var text := CleanCapture(item);
    if RemovesPgThread(style, headers) then Strip(ReplaceStr(text, "PG thread", "")) else text
  }

  function CleanFields(style: Style, headers: seq<string>, items: seq<string>): seq<string> {
    Map(item => CleanField(style, headers, item), items)
  }

  /** The dictionary `clean_match_row` returns. */
  function CleanRowSpec(style: Style, headers: seq<string>, items: seq<string>): map<string, string> {
    ZipRow(headers, CleanFields(style, headers, items))[StyleKey := StyleName(style)]
  }

  /**
   * `clean_match_row(match_tuple, headers, style_name)`. Python reads
   * `headers[-1]` for every field of an ÖLFLEX match, so those need a header.
   */
  method CleanMatchRow(items: seq<string>, headers: seq<string>, style: Style) returns (cells: map<string, string>)
    requires style == Olflex && items != [] ==> headers != []
    ensures cells == CleanRowSpec(style, headers, items)
  {
    var clean: seq<string> := [];
    var i := 0;
    while i < |items|
      invariant 0 <= i <= |items|
      invariant clean == CleanFields(style, headers, items[..i])
    {
      MapNext(item => CleanField(style, headers, item), items, i);
      var text := CleanOne(items[i], headers, style);
      clean := clean + [text];
      i := i + 1;
    }
    assert items[..i] == items;
    cells := ZipRow(headers, clean);
    cells := cells[StyleKey := StyleName(style)];
  }

  /** One pass of the cleaning loop: the field cleaned, then "PG thread" removed under the ÖLFLEX table. */
  method CleanOne(item: string, headers: seq<string>, style: Style) returns (text: string)
    requires style == Olflex ==> headers != []
    ensures text == CleanField(style, headers, item)
  {
    text := CleanCapture(item);
    if style == Olflex && headers[|headers| - 1] == "SKINTOP®" {
      text := Strip(ReplaceStr(text, "PG thread", ""));
    }
  }

  /** Each family's headers are pairwise distinct and differ from the style key. */
  lemma HeadersDistinct(style: Style)
    ensures forall a, b :: 0 <= a < b < |Headers(style)| ==> Headers(style)[a] != Headers(style)[b]
    ensures StyleKey !in Headers(style)
  {
  }

  /** With distinct headers, each header of the cleaned row holds the cleaned field at its position. */
  lemma CleanRowLookup(style: Style, headers: seq<string>, items: seq<string>, i: nat)
    requires i < |headers| && i < |items|
    requires forall a, b :: 0 <= a < b < |headers| ==> headers[a] != headers[b]
    requires StyleKey !in headers
    ensures var cells := CleanRowSpec(style, headers, items);
      && cells[StyleKey] == StyleName(style)
      && headers[i] in cells
      && cells[headers[i]] == CleanField(style, headers, items[i])
  {
    ZipRowLookup(headers, CleanFields(style, headers, items), i);
  }

  /**
   * The cleaned row of a family match holds its family name and pairs each
   * header with the capture at the same position, reduced to its words
   * joined by single spaces (and, in the ÖLFLEX table, without "PG thread").
   */
  lemma CleanRowCells(style: Style, items: seq<string>, i: nat)
    requires i < |Headers(style)| && i < |items|
    ensures var cells := CleanRowSpec(style, Headers(style), items);
      && cells[StyleKey] == StyleName(style)
      && Headers(style)[i] in cells
      && cells[Headers(style)[i]] ==
         if style == Olflex then Strip(ReplaceStr(JoinSpaces(SplitWs(items[i])), "PG thread", ""))
         else JoinSpaces(SplitWs(items[i]))
  {
    var headers := Headers(style);
    HeadersDistinct(style);
    CleanRowLookup(style, headers, items, i);
    CleanCaptureIsJoinedWords(items[i]);
    PgThreadOnlyOlflex(style);
  }

  /** Of the family tables, only the ÖLFLEX one ends in the "SKINTOP®" column. */
  lemma PgThreadOnlyOlflex(style: Style)
    ensures RemovesPgThread(style, Headers(style)) <==> style == Olflex
  {
    var headers := Headers(style);
    assert headers[|headers| - 1] == (if style == Olflex then "SKINTOP®" else "SKINTOP MS-SC");
  }

  // ---------------------------------------------------------------------------
  // extract_datasheet_info: post-match guards and family order
  // ---------------------------------------------------------------------------

  /** The guards of the Profibus and DeviceNet families read the third capture. */
  predicate Guardable(style: Style, m: seq<string>) {
    style == Profibus || style == DeviceNet ==> |m| > 2
  }

  /**
   * The post-match guard of a family: the captures to clean, or None when
   * the match is dropped. Profibus drops a third capture that is "Thick" or
   * "Thin" once trimmed; DeviceNet fills an empty jacket capture with "Not
   * Specified"; ÖLFLEX keeps a match only with all seven captures.
   */
  function Admit(style: Style, m: seq<string>): Option<seq<string>>
    requires Guardable(style, m)
  {
    match style
    case Ethernet => Some(m)
    case Profibus => if Strip(m[2]) == "Thick" || Strip(m[2]) == "Thin" then None else Some(m)
    case DeviceNet => if m[2] == "" then Some(m[2 := "Not Specified"]) else Some(m)
    case Olflex => if |m| == |Headers(Olflex)| then Some(m) else None
  }

  /** The normalised row of an admitted match. */
  function RowOf(style: Style, m: seq<string>): LappRow {
    NormalizeSpec(style, CleanRowSpec(style, Headers(style), m))
  }

  /** What one match adds to the results: its row, or nothing when the guard drops it. */
  function Admitted(style: Style, m: seq<string>): seq<LappRow>
    requires Guardable(style, m)
  {
    match Admit(style, m)
    case Some(k) => [RowOf(style, k)]
    case None => []
  }

  /** The rows one family's matches contribute, in match order. */
  function FamilyRows(style: Style, ms: seq<seq<string>>): (rows: seq<LappRow>)
    requires forall i :: 0 <= i < |ms| ==> Guardable(style, ms[i])
  {
    if ms == [] then []
    else FamilyRows(style, ms[..|ms| - 1]) + Admitted(style, ms[|ms| - 1])
  }

  lemma FamilyRowsNext(style: Style, ms: seq<seq<string>>, i: nat)
    requires i < |ms|
    requires forall k :: 0 <= k < |ms| ==> Guardable(style, ms[k])
    ensures FamilyRows(style, ms[..i + 1]) == FamilyRows(style, ms[..i]) + Admitted(style, ms[i])
  {
    assert ms[..i + 1][..i] == ms[..i];
  }

  /** One iteration of a family loop: guard, clean, normalise. */
  method ExtractMatch(style: Style, m: seq<string>) returns (added: seq<LappRow>)
    requires Guardable(style, m)
    ensures added == Admitted(style, m)
  {
    added := [];
    var k := m;
    match style {
      case Ethernet =>
      case Profibus =>
        if Strip(m[2]) == "Thick" || Strip(m[2]) == "Thin" {
          return;
        }
      case DeviceNet =>
        if m[2] == "" {
          k := m[2 := "Not Specified"];
        }
      case Olflex =>
        if |m| != |Headers(Olflex)| {
          return;
        }
    }
    var cells := CleanMatchRow(k, Headers(style), style);
    var row := Normalize(style, cells);
    added := [row];
  }

  /** The loop over one family's matches. */
  method ExtractFamily(style: Style, ms: seq<seq<string>>) returns (rows: seq<LappRow>)
    requires forall i :: 0 <= i < |ms| ==> Guardable(style, ms[i])
    ensures rows == FamilyRows(style, ms)
  {
    rows := [];
    var i := 0;
    while i < |ms|
      invariant 0 <= i <= |ms|
      invariant rows == FamilyRows(style, ms[..i])
    {
      var added := ExtractMatch(style, ms[i]);
      FamilyRowsNext(style, ms, i);
      rows := rows + added;
      i := i + 1;
    }
    assert ms[..i] == ms;
  }

  /** The matches of the four table patterns, as `re.findall` returns them. */
  datatype Matches = Matches(
    ethernet: seq<seq<string>>,
    profibus: seq<seq<string>>,
    deviceNet: seq<seq<string>>,
    olflex: seq<seq<string>>)

  predicate WellFormedMatches(ms: Matches) {
    && (forall i :: 0 <= i < |ms.profibus| ==> |ms.profibus[i]| > 2)
    && (forall i :: 0 <= i < |ms.deviceNet| ==> |ms.deviceNet[i]| > 2)
  }

  /** The results of `extract_datasheet_info`: the families in search order. */
  function ExtractSpec(ms: Matches): seq<LappRow>
    requires WellFormedMatches(ms)
  {
    FamilyRows(Ethernet, ms.ethernet) + FamilyRows(Profibus, ms.profibus)
    + FamilyRows(DeviceNet, ms.deviceNet) + FamilyRows(Olflex, ms.olflex)
  }

  /** `extract_datasheet_info(extracted_text)`, given the four families' matches. */
  method ExtractDatasheetInfo(ms: Matches) returns (results: seq<LappRow>)
    requires WellFormedMatches(ms)
    ensures results == ExtractSpec(ms)
  {
    var e := ExtractFamily(Ethernet, ms.ethernet);
    var p := ExtractFamily(Profibus, ms.profibus);
    var d := ExtractFamily(DeviceNet, ms.deviceNet);
    var o := ExtractFamily(Olflex, ms.olflex);
    results := e + p + d + o;
  }

  /** The position of a family in the search order. */
  function Rank(style: Style): nat {
    match style
    case Ethernet => 0
    case Profibus => 1
    case DeviceNet => 2
    case Olflex => 3
  }

  /**
   * Every row of a family has that family's style, and a family contributes
   * at most one row per match; Ethernet and DeviceNet never drop a match.
   */
  lemma {:induction false} FamilyRowsShape(style: Style, ms: seq<seq<string>>)
    requires forall i :: 0 <= i < |ms| ==> Guardable(style, ms[i])
    ensures AllOfStyle(FamilyRows(style, ms), style)
    ensures |FamilyRows(style, ms)| <= |ms|
    ensures style == Ethernet || style == DeviceNet ==> |FamilyRows(style, ms)| == |ms|
  {
    if ms != [] {
      var init := ms[..|ms| - 1];
      FamilyRowsShape(style, init);
      AdmittedShape(style, ms[|ms| - 1]);
      AllOfStyleAppend(FamilyRows(style, init), Admitted(style, ms[|ms| - 1]), style);
    }
  }

  /** One match gives at most one row, of the family's style; Ethernet and DeviceNet always give one. */
  lemma AdmittedShape(style: Style, m: seq<string>)
    requires Guardable(style, m)
    ensures AllOfStyle(Admitted(style, m), style)
    ensures |Admitted(style, m)| <= 1
    ensures style == Ethernet || style == DeviceNet ==> |Admitted(style, m)| == 1
  {
    match Admit(style, m)
    case Some(k) => assert Admitted(style, m) == [RowOf(style, k)];
    case None =>
  }

  lemma AllOfStyleAppend(x: seq<LappRow>, y: seq<LappRow>, style: Style)
    requires AllOfStyle(x, style) && AllOfStyle(y, style)
    ensures AllOfStyle(x + y, style)
  {
    assert forall k :: |x| <= k < |x + y| ==> (x + y)[k] == y[k - |x|];
  }

  /** A family keeps every match when its guard drops none of them. */
  lemma {:induction false} FamilyRowsKeepAll(style: Style, ms: seq<seq<string>>)
    requires forall i :: 0 <= i < |ms| ==> Guardable(style, ms[i]) && Admit(style, ms[i]).Some?
    ensures |FamilyRows(style, ms)| == |ms|
  {
    if ms != [] {
      FamilyRowsKeepAll(style, ms[..|ms| - 1]);
    }
  }

  /** Every row of `rows` has the given style. */
  predicate AllOfStyle(rows: seq<LappRow>, style: Style) {
    forall k :: 0 <= k < |rows| ==> rows[k].style == style
  }

  /** Rows ordered by family rank. */
  predicate Grouped(rows: seq<LappRow>) {
    forall i, j :: 0 <= i < j < |rows| ==> Rank(rows[i].style) <= Rank(rows[j].style)
  }

  lemma GroupedAppend(rows: seq<LappRow>, next: seq<LappRow>, style: Style)
    requires Grouped(rows) && AllOfStyle(next, style)
    requires forall k :: 0 <= k < |rows| ==> Rank(rows[k].style) <= Rank(style)
    ensures Grouped(rows + next)
    ensures forall k :: 0 <= k < |rows + next| ==> Rank((rows + next)[k].style) <= Rank(style)
  {
    var all := rows + next;
    forall i, j | 0 <= i < j < |all| ensures Rank(all[i].style) <= Rank(all[j].style) {
      if j >= |rows| {
        assert all[j] == next[j - |rows|];
        if i >= |rows| {
          assert all[i] == next[i - |rows|];
        } else {
          assert all[i] == rows[i];
        }
      } else {
        assert all[i] == rows[i] && all[j] == rows[j];
      }
    }
    forall k | 0 <= k < |all| ensures Rank(all[k].style) <= Rank(style) {
      if k >= |rows| {
        assert all[k] == next[k - |rows|];
      } else {
        assert all[k] == rows[k];
      }
    }
  }

  /** Four runs of rows, one per family in search order, are grouped when concatenated. */
  lemma GroupedFamilies(e: seq<LappRow>, p: seq<LappRow>, d: seq<LappRow>, o: seq<LappRow>)
    requires AllOfStyle(e, Ethernet) && AllOfStyle(p, Profibus)
    requires AllOfStyle(d, DeviceNet) && AllOfStyle(o, Olflex)
    ensures Grouped(e + p + d + o)
  {
    GroupedAppend([], e, Ethernet);
    assert [] + e == e;
    GroupedAppend(e, p, Profibus);
    GroupedAppend(e + p, d, DeviceNet);
    GroupedAppend(e + p + d, o, Olflex);
  }

  /** The results are grouped by family: Ethernet, then Profibus, then DeviceNet, then ÖLFLEX. */
  lemma ExtractGroupedByFamily(ms: Matches)
    requires WellFormedMatches(ms)
    ensures Grouped(ExtractSpec(ms))
  {
    FamilyRowsShape(Ethernet, ms.ethernet);
    FamilyRowsShape(Profibus, ms.profibus);
    FamilyRowsShape(DeviceNet, ms.deviceNet);
    FamilyRowsShape(Olflex, ms.olflex);
    GroupedFamilies(FamilyRows(Ethernet, ms.ethernet), FamilyRows(Profibus, ms.profibus),
      FamilyRows(DeviceNet, ms.deviceNet), FamilyRows(Olflex, ms.olflex));
  }

  /** "Thick" and "Thin" are single words. */
  lemma ThickThinAreWords(s: string)
    requires s == "Thick" || s == "Thin"
    ensures CleanCapture(s) == s
  {
    assert NoSpaceIn(s);
    CleanCaptureOfWord(s);
  }

  /**
   * A Profibus match is dropped exactly when its trimmed third capture is
   * "Thick" or "Thin"; its description cell would then have read the same.
   */
  lemma ProfibusDropsThickThin(m: seq<string>)
    requires |m| > 2
    ensures Admit(Profibus, m).None? <==> Strip(m[2]) == "Thick" || Strip(m[2]) == "Thin"
    ensures Admit(Profibus, m).None? ==> CleanCapture(m[2]) == "Thick" || CleanCapture(m[2]) == "Thin"
  {
    CleanCaptureOfStripped(m[2]);
    if Strip(m[2]) == "Thick" || Strip(m[2]) == "Thin" {
      ThickThinAreWords(Strip(m[2]));
    }
  }

  /** A DeviceNet match without a jacket capture is kept, with the jacket material "Not Specified". */
  lemma DeviceNetJacketDefault(m: seq<string>)
    requires |m| > 2 && m[2] == ""
    ensures Admit(DeviceNet, m) == Some(m[2 := "Not Specified"])
    ensures Admit(DeviceNet, m).value[2] == "Not Specified"
  {
  }

  // ---------------------------------------------------------------------------
  // transform_to_core_format: tables and palettes
  // ---------------------------------------------------------------------------

  /** `AWG_TO_DIAMETER_MM`: nominal stranded conductor diameter in mm. */
  function ConductorDiameterMm(gauge: string): Option<real> {
    match gauge
    case "10" => Some(2.588)
    case "12" => Some(2.052)
    case "14" => Some(1.628)
    case "16" => Some(1.291)
    case "18" => Some(1.024)
    case "20" => Some(0.812)
    case "22" => Some(0.644)
    case "24" => Some(0.511)
    case "26" => Some(0.405)
    case "28" => Some(0.321)
    case "30" => Some(0.255)
    case "KCMIL" => Some(5.0)
    case _ => None
  }

  /** `AWG_TO_INSULATION_MM`: generic insulation thickness in mm. */
  function InsulationMm(gauge: string): Option<real> {
    match gauge
    case "10" => Some(0.7)
    case "12" => Some(0.6)
    case "14" => Some(0.5)
    case "16" => Some(0.45)
    case "18" => Some(0.4)
    case "20" => Some(0.35)
    case "22" => Some(0.25)
    case "24" => Some(0.2)
    case "26" => Some(0.18)
    case "28" => Some(0.15)
    case "30" => Some(0.15)
    case "KCMIL" => Some(1.0)
    case _ => None
  }

  /** The diameter of a gauge, with the '22' value for a gauge outside the table. */
  function DiameterOf(gauge: string): real {
    ConductorDiameterMm(gauge).GetOr(0.644)
  }

  /** The insulation of a gauge, with the '22' value for a gauge outside the table. */
  function InsulationOf(gauge: string): real {
    InsulationMm(gauge).GetOr(0.25)
  }

  /** The two tables share their keys, and every entry is positive. */
  lemma GaugeTablesAgree(gauge: string)
    ensures ConductorDiameterMm(gauge).Some? <==> InsulationMm(gauge).Some?
    ensures DiameterOf(gauge) > 0.0 && InsulationOf(gauge) > 0.0
    ensures ConductorDiameterMm(gauge).None? ==> DiameterOf(gauge) == 0.644 && InsulationOf(gauge) == 0.25
  {
  }

  /** `COLOR_4PAIR`: the four TIA/EIA 568-B pairs. */
  function FourPairColors(): seq<(string, string)> {
    [("Blue", "White/Blue"), ("Orange", "White/Orange"), ("Green", "White/Green"), ("Brown", "White/Brown")]
  }

  /** `COLOR_MULTICONDUCTOR`: the eighteen DIN/VDE 0293 colours. */
  function MultiConductorColors(): seq<string> {
    ["Black", "White", "Red", "Green", "Yellow", "Brown", "Blue", "Gray",
     "Pink", "Violet", "Orange", "Turquoise", "Black/White", "Red/White",
     "Blue/White", "Black/Red", "White/Red", "Green/Red"]
  }

  /**
   * `[c for pair in COLOR_4PAIR for c in pair]`, written out;
   * `PairPaletteFlattens` shows it is the flattened list of pairs.
   */
  function PairPalette(): seq<string> {
    ["Blue", "White/Blue", "Orange", "White/Orange", "Green", "White/Green", "Brown", "White/Brown"]
  }

  /** The pair palette holds pair q's two colours at slots 2q and 2q+1, and nothing else. */
  lemma PairPaletteFlattens()
    ensures |PairPalette()| == 2 * |FourPairColors()|
    ensures forall q :: 0 <= q < |FourPairColors()| ==>
      PairPalette()[2 * q] == FourPairColors()[q].0 && PairPalette()[2 * q + 1] == FourPairColors()[q].1
  {
  }

  /** The fixed DeviceNet layout: a 22 AWG data pair, an 18 AWG power pair and a 22 AWG drain. */
  function DeviceNetLayout(): seq<(string, string)> {
    [("22", FourPairColors()[0].0), ("22", FourPairColors()[0].1),
     ("18", MultiConductorColors()[2]), ("18", MultiConductorColors()[0]),
     ("22", "Drain")]
  }

  /** `str(row.get('AWG/Size')).replace(' ', '').split('/')[0].strip()`. */
  function BaseAwg(awg: string): string {
    Strip(Before(RemoveChar(awg, ' '), '/'))
  }

  /** The gauge of a single-gauge cable: the base AWG when it is all digits or "KCMIL", else "22". */
  function GaugeOf(awg: string): (gauge: string)
    ensures AllDigits(BaseAwg(awg)) || BaseAwg(awg) == "KCMIL" ==> gauge == BaseAwg(awg)
    ensures !(AllDigits(BaseAwg(awg)) || BaseAwg(awg) == "KCMIL") ==> gauge == "22"
    ensures AllDigits(gauge) || gauge == "KCMIL"
  {
    var base := BaseAwg(awg);
    if AllDigits(base) || base == "KCMIL" then base else "22"
  }

  /** The pair palette is used for a pair notation with an even conductor count. */
  predicate UsesPairPalette(pairing: string, n: nat) {
    EndsWith(pairing, "pr") && n % 2 == 0
  }

  function Palette(pairing: string, n: nat): (colors: seq<string>)
    ensures |colors| > 0
  {
    if UsesPairPalette(pairing, n) then PairPalette() else MultiConductorColors()
  }

  /** Core `i` (0-based) of a cable: id `i + 1`, copper, dimensions from the gauge tables. */
  function CoreOf(i: nat, gauge: string, color: string): Core {
    Core(NatToString(i + 1), DiameterOf(gauge), InsulationOf(gauge), color, gauge, "Copper", map[])
  }

  /** The cores of a DeviceNet row: the first `n` entries of the fixed layout. */
  function LayoutCores(layout: seq<(string, string)>, n: nat): (cores: seq<Core>)
    ensures |cores| == if n < |layout| then n else |layout|
  {
    var k := if n < |layout| then n else |layout|;
    seq(k, i requires 0 <= i < k => CoreOf(i, layout[i].0, layout[i].1))
  }

  /** The cores of a single-gauge row: `n` cores cycling through the palette. */
  function GaugeCores(gauge: string, colors: seq<string>, n: nat): (cores: seq<Core>)
    requires |colors| > 0
    ensures |cores| == n
  {
    seq(n, i requires 0 <= i < n => CoreOf(i, gauge, colors[i % |colors|]))
  }

  /** The core list of a row with `n` conductors. */
  function CoresSpec(row: LappRow, n: nat): (cores: seq<Core>) {
    if row.style == DeviceNet then LayoutCores(DeviceNetLayout(), n)
    else GaugeCores(GaugeOf(row.awgSize), Palette(row.pairing, n), n)
  }

  // ---------------------------------------------------------------------------
  // transform_to_core_format: geometry, flags and the record
  // ---------------------------------------------------------------------------

  /** The outer diameter of one insulated core. */
  function CoreOd(c: Core): real {
    c.conductorDiameter + 2.0 * c.insulationThickness
  }

  /** `max(...)` of the core outer diameters. */
  function MaxCoreOd(cores: seq<Core>): real
    requires cores != []
  {
    if |cores| == 1 then CoreOd(cores[0])
    else
      var m := MaxCoreOd(cores[..|cores| - 1]);
      var last := CoreOd(cores[|cores| - 1]);
      if last > m then last else m
  }

  /** `MaxCoreOd` is the largest core diameter: an upper bound that some core attains. */
  lemma {:induction false} MaxCoreOdIsMax(cores: seq<Core>)
    requires cores != []
    ensures forall i :: 0 <= i < |cores| ==> CoreOd(cores[i]) <= MaxCoreOd(cores)
    ensures exists i :: 0 <= i < |cores| && CoreOd(cores[i]) == MaxCoreOd(cores)
  {
    if |cores| == 1 {
      assert CoreOd(cores[0]) == MaxCoreOd(cores);
    } else {
      var init := cores[..|cores| - 1];
      MaxCoreOdIsMax(init);
      var j :| 0 <= j < |init| && CoreOd(init[j]) == MaxCoreOd(init);
      assert cores[j] == init[j];
      forall i | 0 <= i < |cores| - 1 ensures CoreOd(cores[i]) <= MaxCoreOd(cores) {
        assert cores[i] == init[i];
      }
      if CoreOd(cores[|cores| - 1]) <= MaxCoreOd(init) {
        assert CoreOd(cores[j]) == MaxCoreOd(cores);
      }
    }
  }

  /**
   * The inner bundle diameter: twice the largest core for up to four
   * conductors, else the square-root packing estimate; 0 without cores.
   * `sqrt` stands for `math.sqrt`.
   */
  function BundleDiameter(cores: seq<Core>, n: nat, sqrt: nat -> real): real {
    if cores == [] then 0.0
    else if n <= 4 then MaxCoreOd(cores) * 2.0
    else MaxCoreOd(cores) * (1.0 + sqrt(n) / 2.0)
  }

  /** `max(0.5, (od - bundle) / 2 - shield)`. */
  function JacketThicknessFor(od: real, bundle: real, shield: real): (t: real)
    ensures t >= 0.5 && t >= (od - bundle) / 2.0 - shield
    ensures t == 0.5 || t == (od - bundle) / 2.0 - shield
  {
    var residual := (od - bundle) / 2.0;
    if 0.5 >= residual - shield then 0.5 else residual - shield
  }

  /** The Nominal OD text as it is parsed: for ÖLFLEX its first token when it has several, without spaces. */
  function OdText(row: LappRow): string {
    var raw := Get(row.cells, "Nominal OD (mm)").GetOr("0");
    var parts := SplitWs(raw);
    var first := if row.style == Olflex && |parts| > 1 then parts[0] else raw;
    RemoveChar(first, ' ')
  }

  /** `row.get('Part Number', 'UNKNOWN').replace('*', '')`. */
  function PartNumberOf(cells: map<string, string>): string {
    RemoveChar(Get(cells, "Part Number").GetOr("UNKNOWN"), '*')
  }

  /** A 'C' in the upper-cased part number, or "braid" among the approvals, means a shield. */
  predicate Shielded(pn: string, cells: map<string, string>) {
    Contains(Upper(pn), "C") || Contains(Upper(pn), "CY") || Contains(Lower(Get(cells, "Approvals").GetOr("")), "braid")
  }

  /** Some core colour, lower-cased, is "drain". */
  predicate HasDrain(cores: seq<Core>) {
    exists i :: 0 <= i < |cores| && Lower(cores[i].insulationColor) == "drain"
  }

  /**
   * The CableId prefix: `style.lower().split('/')[0].replace('®', '')`,
   * with the ÖLFLEX name lower-cased as Python does ('Ö' becomes 'ö').
   */
  function IdPrefix(style: Style): string {
    match style
    case Ethernet => "ethernet"
    case Profibus => "profibus"
    case DeviceNet => "devicenet style"
    case Olflex => "ölflex power & control style"
  }

  function LappCableId(style: Style, pn: string): string {
    IdPrefix(style) + "-" + Lower(RemoveChar(pn, '*'))
  }

  /** `style.split(' ')[0]`, pairing, AWG/Size and jacket material, separated by spaces. */
  function LappName(row: LappRow): string {
    Before(StyleName(row.style), ' ') + " " + row.pairing + " " + row.awgSize + " "
    + Get(row.cells, "Jacket Material").GetOr("")
  }

  /** The construction text (or `n core cable`), followed by the jacket material when there is one. */
  function DescriptionFor(cells: map<string, string>, n: nat): string {
    var text := ParseField(cells);
    var base := if text != "" then text else NatToString(n) + " core cable";
    var jacket := Get(cells, "Jacket Material").GetOr("");
    if jacket != "" then base + ", " + jacket + " jacket" else base
  }

  /** The record of a row with `n` conductors and outer diameter `od`. */
  function CableRecord(row: LappRow, n: nat, od: real, cores: seq<Core>, sqrt: nat -> real): Cable {
    var pn := PartNumberOf(row.cells);
    var shielded := Shielded(pn, row.cells);
    var shield := if shielded then 0.05 else 0.0;
    var drain := HasDrain(cores);
    Cable(
      LappCableId(row.style, pn), pn, "LAPP", LappName(row), 4, cores,
      JacketThicknessFor(od, BundleDiameter(cores, n, sqrt), shield),
      Get(row.cells, "Jacket Color").GetOr("Gray"),
      shielded, if shielded then 1 else 0, shield, if shielded then 85 else 0,
      drain, if drain then 0.644 else 0.0, false, od,
      Some(DescriptionFor(row.cells, n)), map[])
  }

  /**
   * One record of `transform_to_core_format`, or None for a skipped row:
   * no integer conductor count of at least 1, an OD that does not parse, or
   * an OD that is not positive.
   */
  function LappCable(row: LappRow, sqrt: nat -> real): Option<Cable> {
    if row.total.None? || row.total.value < 1 then None
    else
      var n := row.total.value;
      match ParseDecimal(OdText(row))
      case None => None
      case Some(od) =>
        if od <= 0.0 then None else Some(CableRecord(row, n, od, CoresSpec(row, n), sqrt))
  }

  // ---------------------------------------------------------------------------
  // transform_to_core_format: the loops
  // ---------------------------------------------------------------------------

  /** The DeviceNet core loop: `enumerate(core_specs[:n])`. */
  method BuildLayoutCores(layout: seq<(string, string)>, n: nat) returns (cores: seq<Core>)
    ensures cores == LayoutCores(layout, n)
  {
    cores := [];
    var specs := layout[..if n < |layout| then n else |layout|];
    var i := 0;
    while i < |specs|
      invariant 0 <= i <= |specs|
      invariant |cores| == i
      invariant forall k :: 0 <= k < i ==> cores[k] == CoreOf(k, specs[k].0, specs[k].1)
    {
      cores := cores + [CoreOf(i, specs[i].0, specs[i].1)];
      i := i + 1;
    }
  }

  /** The single-gauge core loop: `for i in range(n)`. */
  method BuildGaugeCores(gauge: string, colors: seq<string>, n: nat) returns (cores: seq<Core>)
    requires |colors| > 0
    ensures cores == GaugeCores(gauge, colors, n)
  {
    cores := [];
    var i := 0;
    while i < n
      invariant 0 <= i <= n
      invariant |cores| == i
      invariant forall k :: 0 <= k < i ==> cores[k] == CoreOf(k, gauge, colors[k % |colors|])
    {
      cores := cores + [CoreOf(i, gauge, colors[i % |colors|])];
      i := i + 1;
    }
  }

  /** The core list of one row. */
  method BuildCores(row: LappRow, n: nat) returns (cores: seq<Core>)
    ensures cores == CoresSpec(row, n)
  {
    if row.style == DeviceNet {
      cores := BuildLayoutCores(DeviceNetLayout(), n);
    } else {
      cores := BuildGaugeCores(GaugeOf(row.awgSize), Palette(row.pairing, n), n);
    }
  }

  /** The body of the row loop: the record of one row, or None when the row is skipped. */
  method TransformRow(row: LappRow, sqrt: nat -> real) returns (cable: Option<Cable>)
    ensures cable == LappCable(row, sqrt)
  {
    cable := None;
    if row.total.None? || row.total.value < 1 {
      return;
    }
    var n := row.total.value;
    var cores := BuildCores(row, n);
    var od := ParseDecimal(OdText(row));
    if od.None? || od.value <= 0.0 {
      return;
    }
    cable := Some(CableRecord(row, n, od.value, cores, sqrt));
  }

  /** The records of a list of rows, skipped rows left out, in row order. */
  function TransformSpec(rows: seq<LappRow>, sqrt: nat -> real): seq<Cable> {
    if rows == [] then []
    else
      var tail := match LappCable(rows[|rows| - 1], sqrt) case Some(c) => [c] case None => [];
      TransformSpec(rows[..|rows| - 1], sqrt) + tail
  }

  lemma TransformSpecNext(rows: seq<LappRow>, sqrt: nat -> real, i: nat)
    requires i < |rows|
    ensures TransformSpec(rows[..i + 1], sqrt) ==
      TransformSpec(rows[..i], sqrt) + match LappCable(rows[i], sqrt) case Some(c) => [c] case None => []
  {
    assert rows[..i + 1][..i] == rows[..i];
  }

  /** `transform_to_core_format(normalized_data)`. */
  method Transform(rows: seq<LappRow>, sqrt: nat -> real) returns (cables: seq<Cable>)
    ensures cables == TransformSpec(rows, sqrt)
  {
    cables := [];
    var i := 0;
    while i < |rows|
      invariant 0 <= i <= |rows|
      invariant cables == TransformSpec(rows[..i], sqrt)
    {
      TransformSpecNext(rows, sqrt, i);
      var cable := TransformRow(rows[i], sqrt);
      if cable.Some? {
        cables := cables + [cable.value];
      }
      i := i + 1;
    }
    assert rows[..i] == rows;
  }

  // ---------------------------------------------------------------------------
  // transform_to_core_format: properties
  // ---------------------------------------------------------------------------

  /**
   * A row is skipped without an integer conductor count of at least 1, and
   * when its OD text holds anything but digits and '.'; a kept row has a
   * positive outer diameter.
   */
  lemma LappCableSkips(row: LappRow, sqrt: nat -> real)
    ensures row.total.None? || row.total.value < 1 ==> LappCable(row, sqrt).None?
    ensures (exists i :: 0 <= i < |OdText(row)| && !IsNumChar(OdText(row)[i])) ==> LappCable(row, sqrt).None?
    ensures OdText(row) == [] ==> LappCable(row, sqrt).None?
    ensures LappCable(row, sqrt).Some? ==> LappCable(row, sqrt).value.specifiedOuterDiameter > 0.0
  {
    var c := LappCable(row, sqrt);
    if c.Some? {
      var n := row.total.value;
      var od := ParseDecimal(OdText(row));
      assert od.Some? && od.value > 0.0;
      assert c.value == CableRecord(row, n, od.value, CoresSpec(row, n), sqrt);
    }
  }

  /**
   * A row with `n` conductors gets exactly `n` cores (at most the five of
   * the DeviceNet layout), numbered "1".."k".
   */
  lemma CoresSpecShape(row: LappRow, n: nat)
    ensures var cores := CoresSpec(row, n);
      && |cores| == (if row.style == DeviceNet then (if n < 5 then n else 5) else n)
      && forall i :: 0 <= i < |cores| ==> cores[i].coreId == NatToString(i + 1)
  {
  }

  /**
   * A record has a jacket of at least 0.5 mm, shield and drain fields that
   * follow their flags, the given cores and outer diameter, and a part
   * number without '*'.
   */
  lemma CableRecordFields(row: LappRow, n: nat, od: real, cores: seq<Core>, sqrt: nat -> real)
    ensures var c := CableRecord(row, n, od, cores, sqrt);
      && c.cores == cores && c.specifiedOuterDiameter == od
      && c.jacketThickness == JacketThicknessFor(od, BundleDiameter(cores, n, sqrt), c.shieldThickness)
      && c.jacketThickness >= 0.5
      && c.shieldThickness == (if c.hasShield then 0.05 else 0.0)
      && c.shieldType == (if c.hasShield then 1 else 0)
      && c.shieldCoverage == (if c.hasShield then 85 else 0)
      && c.drainWireDiameter == (if c.hasDrainWire then 0.644 else 0.0)
      && '*' !in c.partNumber
  {
  }

  /** A kept row's record is built from its own cores and its parsed, positive OD. */
  lemma LappCableIsRecord(row: LappRow, sqrt: nat -> real)
    requires LappCable(row, sqrt).Some?
    ensures row.total.Some? && row.total.value >= 1
    ensures ParseDecimal(OdText(row)).Some? && ParseDecimal(OdText(row)).value > 0.0
    ensures LappCable(row, sqrt).value ==
      CableRecord(row, row.total.value, ParseDecimal(OdText(row)).value, CoresSpec(row, row.total.value), sqrt)
  {
  }

  /**
   * Outside DeviceNet, core `i` has colour `palette[i mod |palette|]` and
   * the row's gauge, whose dimensions fall back to the '22' values.
   */
  lemma GaugeCoreColours(row: LappRow, n: nat, i: nat)
    requires row.style != DeviceNet && i < n
    ensures var core := CoresSpec(row, n)[i];
      var colors := Palette(row.pairing, n);
      && core.insulationColor == colors[i % |colors|]
      && core.gauge == GaugeOf(row.awgSize)
      && (ConductorDiameterMm(core.gauge).None? ==> core.conductorDiameter == 0.644 && core.insulationThickness == 0.25)
  {
    var gauge := GaugeOf(row.awgSize);
    var colors := Palette(row.pairing, n);
    assert CoresSpec(row, n)[i] == CoreOf(i, gauge, colors[i % |colors|]);
    GaugeTablesAgree(gauge);
  }

  /** The 8-colour pair palette is chosen exactly for a pair notation with an even count, else the 18 colours. */
  lemma PaletteChoice(pairing: string, n: nat)
    ensures UsesPairPalette(pairing, n) ==> Palette(pairing, n) == PairPalette() && |Palette(pairing, n)| == 8
    ensures !UsesPairPalette(pairing, n) ==> Palette(pairing, n) == MultiConductorColors() && |Palette(pairing, n)| == 18
  {
  }

  /**
   * Under the pair palette, cores 2j and 2j+1 take slots 2(j mod 4) and
   * 2(j mod 4)+1, which `PairPaletteFlattens` shows are the two colours of
   * pair j mod 4.
   */
  lemma PairedCoresShareAPair(row: LappRow, n: nat, j: nat)
    requires row.style != DeviceNet && UsesPairPalette(row.pairing, n) && 2 * j + 1 < n
    ensures CoresSpec(row, n)[2 * j].insulationColor == PairPalette()[2 * (j % 4)]
    ensures CoresSpec(row, n)[2 * j + 1].insulationColor == PairPalette()[2 * (j % 4) + 1]
  {
    PairCoreColour(row, n, 2 * j);
    PairCoreColour(row, n, 2 * j + 1);
    PairSlots(j);
  }

  /** Under the pair palette, core `i` carries slot `i mod 8` of the flattened pairs. */
  lemma PairCoreColour(row: LappRow, n: nat, i: nat)
    requires row.style != DeviceNet && UsesPairPalette(row.pairing, n) && i < n
    ensures CoresSpec(row, n)[i].insulationColor == PairPalette()[i % 8]
  {
    GaugeCoreColours(row, n, i);
    PaletteChoice(row.pairing, n);
  }

  /** Slots 2j and 2j+1 of an 8-slot cycle are slots 2(j mod 4) and 2(j mod 4)+1. */
  lemma PairSlots(j: nat)
    ensures (2 * j) % 8 == 2 * (j % 4) && (2 * j + 1) % 8 == 2 * (j % 4) + 1
  {
    var q := j / 4;
    assert j == 4 * q + j % 4;
    assert 2 * j == 8 * q + 2 * (j % 4);
  }

  /**
   * For a normalised row outside DeviceNet the evenness test never rejects
   * a pair notation: the pair palette is used exactly when the pairing ends
   * in "pr".
   */
  lemma PairPaletteIffPairNotation(style: Style, cells: map<string, string>)
    requires style != DeviceNet
    ensures var row := NormalizeSpec(style, cells);
      row.total.Some? ==> (UsesPairPalette(row.pairing, row.total.value) <==> EndsWith(row.pairing, "pr"))
  {
    PairingPrMeansEvenTotal(style, cells);
  }

  /** No palette colour starts with 'd', so none lower-cases to "drain". */
  lemma NotDrain(color: string)
    requires color != [] && color[0] != 'd' && color[0] != 'D'
    ensures Lower(color) != "drain"
  {
    assert Lower(color)[0] != 'd';
  }

  /** "Drain" lower-cases to "drain". */
  lemma IsDrain(color: string)
    requires color == "Drain"
    ensures Lower(color) == "drain"
  {
    var l := Lower(color);
    assert l[0] == 'd' && l[1] == 'r' && l[2] == 'a' && l[3] == 'i' && l[4] == 'n';
  }

  /** Every palette colour starts with a letter other than 'd'. */
  predicate AvoidsD(colors: seq<string>) {
    forall k :: 0 <= k < |colors| ==> colors[k] != [] && colors[k][0] != 'd' && colors[k][0] != 'D'
  }

  lemma PalettesAvoidD(pairing: string, n: nat)
    ensures AvoidsD(Palette(pairing, n))
  {
    var pairs := FourPairColors();
    assert forall k :: 0 <= k < |pairs| ==> pairs[k].0[0] != 'd' && pairs[k].1[0] != 'd';
    assert AvoidsD(PairPalette());
    assert AvoidsD(MultiConductorColors());
  }

  /** Cores coloured from a palette without 'd' colours have no drain. */
  lemma GaugeCoresHaveNoDrain(gauge: string, colors: seq<string>, n: nat)
    requires |colors| > 0 && AvoidsD(colors)
    ensures !HasDrain(GaugeCores(gauge, colors, n))
  {
    var cores := GaugeCores(gauge, colors, n);
    forall i | 0 <= i < |cores| ensures Lower(cores[i].insulationColor) != "drain" {
      NotDrain(colors[i % |colors|]);
    }
  }

  /** The layout has its drain in the fifth place only. */
  lemma LayoutDrainIsFifth(layout: seq<(string, string)>, n: nat)
    requires |layout| == 5 && layout[4].1 == "Drain"
    requires forall k :: 0 <= k < 4 ==> layout[k].1 != [] && layout[k].1[0] != 'd' && layout[k].1[0] != 'D'
    ensures HasDrain(LayoutCores(layout, n)) <==> n >= 5
  {
    var cores := LayoutCores(layout, n);
    forall i | 0 <= i < |cores| && i < 4 ensures Lower(cores[i].insulationColor) != "drain" {
      NotDrain(layout[i].1);
    }
    if n >= 5 {
      IsDrain(cores[4].insulationColor);
    }
  }

  /** A row has a drain wire exactly when it is a DeviceNet row with all five layout cores. */
  lemma DrainIffFullDeviceNet(row: LappRow, n: nat)
    ensures HasDrain(CoresSpec(row, n)) <==> row.style == DeviceNet && n >= 5
  {
    if row.style == DeviceNet {
      var layout := DeviceNetLayout();
      assert forall k :: 0 <= k < 4 ==> layout[k].1 != [] && layout[k].1[0] != 'd' && layout[k].1[0] != 'D';
      LayoutDrainIsFifth(layout, n);
    } else {
      PalettesAvoidD(row.pairing, n);
      GaugeCoresHaveNoDrain(GaugeOf(row.awgSize), Palette(row.pairing, n), n);
    }
  }

  /** With a non-negative square root, every core fits inside the estimated bundle. */
  lemma BundleHoldsEveryCore(cores: seq<Core>, n: nat, sqrt: nat -> real)
    requires cores != [] && sqrt(n) >= 0.0
    requires forall i :: 0 <= i < |cores| ==> CoreOd(cores[i]) >= 0.0
    ensures forall i :: 0 <= i < |cores| ==> CoreOd(cores[i]) <= BundleDiameter(cores, n, sqrt)
  {
    MaxCoreOdIsMax(cores);
    var m := MaxCoreOd(cores);
    assert m >= 0.0 by {
      assert CoreOd(cores[0]) <= m;
    }
    var b := BundleDiameter(cores, n, sqrt);
    if n <= 4 {
      assert b == m * 2.0;
    } else {
      assert b == m + m * (sqrt(n) / 2.0);
      assert m * (sqrt(n) / 2.0) >= 0.0;
    }
    assert m <= b;
  }

  /** The CableId is the family prefix, '-', and the part number lower-cased without '*'. */
  lemma LappCableIdShape(style: Style, pn: string)
    ensures var id := LappCableId(style, pn);
      && StartsWith(id, IdPrefix(style) + "-")
      && NoUpper(id[|IdPrefix(style)| + 1..])
      && '*' !in id[|IdPrefix(style)| + 1..]
      && |id| == |IdPrefix(style)| + 1 + |RemoveChar(pn, '*')|
      && id[|IdPrefix(style)| + 1..] == Lower(RemoveChar(pn, '*'))
  {
    var tail := Lower(RemoveChar(pn, '*'));
    assert LappCableId(style, pn)[|IdPrefix(style)| + 1..] == tail;
    assert '*' !in tail by {
      forall i | 0 <= i < |tail| ensures tail[i] != '*' {
        assert tail[i] == LowerChar(RemoveChar(pn, '*')[i]);
      }
    }
  }
}
