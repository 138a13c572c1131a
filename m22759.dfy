/**
 * The MIL-W-22759 hookup-wire extractor: rows of the standard and the
 * high-strength tables become normalised rows and then single-core cable
 * records, each wire coloured by the MIL-STD-104 colour code in its part
 * number.
 */
module M22759 {
  import opened Wrappers
  import opened Text
  import opened Rows
  import opened UnitPairs
  import opened Records

  // ---------------------------------------------------------------------------
  // The two table families
  // ---------------------------------------------------------------------------

  /** The standard tables (/5, /9, /11, ...) and the high-strength ones with a break-strength column. */
  datatype Family = Standard | HighStrength

  function StyleName(fam: Family): string {
    match fam
    case Standard => "M22759 Standard"
    case HighStrength => "M22759 High-Strength"
  }

  /** The column names zipped with a match of each family. */
  function Headers(fam: Family): (hs: seq<string>)
    ensures |hs| > 0 && hs[0] == "Part Number"
  {
    match fam
    case Standard =>
      ["Part Number", "AWG Size", "Stranding",
       "Conductor Diameter", "Insulation Diameter Minimum",
       "Insulation Diameter Maximum", "Weight",
       "Maximum Resistance", "Thermax P/N"]
    case HighStrength =>
      ["Part Number", "AWG Size", "Stranding",
       "Conductor Diameter", "Insulation Diameter Minimum",
       "Insulation Diameter Maximum", "Weight",
       "Maximum Resistance", "Break Strength", "Thermax P/N"]
  }

  /**
   * The number of groups in each family's row pattern: part number, AWG
   * size, stranding, six (standard) or seven (high-strength) `a (b)`
   * measurements, and the Thermax part number.
   */
  function GroupCount(fam: Family): nat {
    match fam
    case Standard => 10
    case HighStrength => 11
  }

  lemma HeadersDistinct(fam: Family)
    ensures forall a, b :: 0 <= a < b < |Headers(fam)| ==> Headers(fam)[a] != Headers(fam)[b]
    ensures StyleKey !in Headers(fam)
    ensures |Headers(fam)| == GroupCount(fam) - 1
    ensures Headers(fam)[|Headers(fam)| - 1] == "Thermax P/N"
  {
  }

  // ---------------------------------------------------------------------------
  // clean_match_row
  // ---------------------------------------------------------------------------

  function CleanItems(items: seq<string>): seq<string> {
    Map(CleanCapture, items)
  }

  /** The dictionary `clean_match_row(match, headers, style_name)` returns. */
  function CleanRowSpec(headers: seq<string>, styleName: string, items: seq<string>): map<string, string> {
    ZipRow(headers, CleanItems(items))[StyleKey := styleName]
  }

  /** `clean_match_row`: clean every capture, zip with the headers, record the table's name. */
  method CleanMatchRow(items: seq<string>, headers: seq<string>, styleName: string) returns (row: map<string, string>)
    ensures row == CleanRowSpec(headers, styleName, items)
  {
    var clean: seq<string> := [];
    var i := 0;
    while i < |items|
      invariant 0 <= i <= |items|
      invariant clean == Map(CleanCapture, items[..i])
    {
      MapNext(CleanCapture, items, i);
      clean := clean + [CleanCapture(items[i])];
      i := i + 1;
    }
    assert items[..i] == items;
    row := ZipRow(headers, clean)[StyleKey := styleName];
  }

  /** The row of a family match. */
  function FamilyRow(fam: Family, items: seq<string>): map<string, string> {
    CleanRowSpec(Headers(fam), StyleName(fam), items)
  }

  /**
   * Each header holds the capture at its own position reduced to its words
   * joined by single spaces, and the family name is recorded.
   */
  lemma CleanRowCell(fam: Family, items: seq<string>, i: nat)
    requires i < |Headers(fam)| && i < |items|
    ensures var row := FamilyRow(fam, items);
      && row[StyleKey] == StyleName(fam)
      && Headers(fam)[i] in row
      && row[Headers(fam)[i]] == JoinSpaces(SplitWs(items[i]))
  {
    HeadersDistinct(fam);
    ZipRowLookup(Headers(fam), CleanItems(items), i);
    CleanCaptureIsJoinedWords(items[i]);
  }

  /** Zipping stops at the shorter list: values past the last header are dropped. */
  lemma ZipRowDropsSurplus(headers: seq<string>, values: seq<string>)
    requires 0 < |headers| < |values|
    ensures ZipRow(headers, values) == ZipRow(headers, values[..|values| - 1])
  {
    var n := |headers|;
    var shorter := values[..|values| - 1];
    assert shorter[..n - 1] == values[..n - 1];
    assert shorter[n - 1] == values[n - 1];
  }

  /**
   * Both row patterns have one more group than their header list, so a
   * full match's last capture (the Thermax part number) is never stored,
   * and "Thermax P/N" holds the last measurement capture instead.
   */
  lemma ThermaxHoldsLastMeasurement(fam: Family, items: seq<string>)
    requires |items| == GroupCount(fam)
    ensures var row := FamilyRow(fam, items);
      && row == FamilyRow(fam, items[..|items| - 1])
      && row["Thermax P/N"] == JoinSpaces(SplitWs(items[|items| - 2]))
  {
    HeadersDistinct(fam);
    CleanRowDropsSurplus(Headers(fam), StyleName(fam), items);
    CleanRowCell(fam, items, |Headers(fam)| - 1);
  }

  lemma CleanRowDropsSurplus(headers: seq<string>, styleName: string, items: seq<string>)
    requires 0 < |headers| < |items|
    ensures CleanRowSpec(headers, styleName, items) == CleanRowSpec(headers, styleName, items[..|items| - 1])
  {
    var clean := CleanItems(items);
    assert CleanItems(items[..|items| - 1]) == clean[..|clean| - 1];
    ZipRowDropsSurplus(headers, clean);
  }

  // ---------------------------------------------------------------------------
  // MIL Spec search
  // ---------------------------------------------------------------------------

  const MilW := "MIL-W-22759/"
  const MilDtl := "MIL-DTL-22759/"

  /** `prefix` at `i` followed by one or two digits (greedy `\d{1,2}`). */
  function SpecAfter(s: string, i: nat, prefix: string): (r: Option<string>)
    requires i <= |s|
    ensures r.Some? ==> OccursAt(s, r.value, i) && StartsWith(r.value, prefix)
    ensures r.Some? ==> |prefix| + 1 <= |r.value| <= |prefix| + 2 && AllDigits(r.value[|prefix|..])
    ensures r.Some? && |r.value| == |prefix| + 1 ==> i + |r.value| == |s| || !IsDigit(s[i + |r.value|])
    ensures r.None? <==> !OccursAt(s, prefix, i) || i + |prefix| == |s| || !IsDigit(s[i + |prefix|])
  {
    if !OccursAt(s, prefix, i) then None
    else
      var j := i + |prefix|;
      var d := Run(s, j, Digits);
      RunSpan(s, j, Digits);
      if d == 0 then None
      else
        var e := if d >= 2 then j + 2 else j + 1;
        assert s[i..e][..|prefix|] == s[i..j];
        assert s[i..e][|prefix|..] == s[j..e];
        Some(s[i..e])
  }

  /** The alternation `MIL-W-22759/\d{1,2}|MIL-DTL-22759/\d{1,2}` tried at index `i`. */
  function MilSpecAt(s: string, i: nat): Option<string>
    requires i <= |s|
  {
    match SpecAfter(s, i, MilW)
    case Some(m) => Some(m)
    case None => SpecAfter(s, i, MilDtl)
  }

  /** `re.search`: the leftmost index from `i` on where the alternation matches. */
  function MilSpecIndex(s: string, i: nat): (r: Option<nat>)
    requires i <= |s|
    ensures r.Some? ==> i <= r.value < |s| && MilSpecAt(s, r.value).Some?
    ensures r.Some? ==> forall k :: i <= k < r.value ==> MilSpecAt(s, k).None?
    ensures r.None? ==> forall k :: i <= k <= |s| ==> MilSpecAt(s, k).None?
    decreases |s| - i
  {
    if i == |s| then
      assert MilSpecAt(s, i).None?;
      None
    else if MilSpecAt(s, i).Some? then Some(i)
    else MilSpecIndex(s, i + 1)
  }

  /** The text `re.search` finds from index `i` on, else "N/A". */
  function MilSpecFrom(s: string, i: nat): string
    requires i <= |s|
    decreases |s| - i
  {
    if i == |s| then "N/A"
    else match MilSpecAt(s, i)
      case Some(m) => m
      case None => MilSpecFrom(s, i + 1)
  }

  /** The "MIL Spec" field: the first MIL-W/MIL-DTL-22759 slash number in the part number, else "N/A". */
  function MilSpec(pn: string): string {
    MilSpecFrom(pn, 0)
  }

  /** The text found is the match at the leftmost matching index. */
  lemma {:induction false} MilSpecFromIndex(s: string, i: nat)
    requires i <= |s|
    ensures MilSpecIndex(s, i).Some? ==> MilSpecFrom(s, i) == MilSpecAt(s, MilSpecIndex(s, i).value).value
    ensures MilSpecIndex(s, i).None? ==> MilSpecFrom(s, i) == "N/A"
    decreases |s| - i
  {
    if i < |s| && MilSpecAt(s, i).None? {
      MilSpecFromIndex(s, i + 1);
    }
  }

  /**
   * The MIL Spec found is a substring of the part number that spells out
   * one of the two spec prefixes and one or two digits, at the first index
   * where either occurs that way; with no such index it is "N/A".
   */
  lemma MilSpecShape(pn: string)
    ensures var r := MilSpec(pn);
      || (r == "N/A" && forall k :: 0 <= k <= |pn| ==> MilSpecAt(pn, k).None?)
      || (exists p :: 0 <= p < |pn| && OccursAt(pn, r, p) && MilSpecAt(pn, p) == Some(r)
            && (forall k :: 0 <= k < p ==> MilSpecAt(pn, k).None?)
            && (StartsWith(r, MilW) || StartsWith(r, MilDtl)))
  {
    MilSpecFromIndex(pn, 0);
    match MilSpecIndex(pn, 0)
    case Some(p) =>
      var r := MilSpecAt(pn, p).value;
      assert OccursAt(pn, r, p) && (StartsWith(r, MilW) || StartsWith(r, MilDtl));
    case None =>
  }

  /**
   * Both spec prefixes contain an 'L', so a part number without one has no
   * MIL Spec. The part numbers both row patterns capture ("M22759/..") are
   * of that kind: every extracted row reads "N/A".
   */
  lemma MilSpecNeedsL(pn: string)
    requires 'L' !in pn
    ensures MilSpec(pn) == "N/A"
  {
    MilSpecFromIndex(pn, 0);
    forall k | 0 <= k <= |pn| ensures MilSpecAt(pn, k).None? {
      NoSpecWithoutL(pn, k);
    }
  }

  lemma NoSpecWithoutL(pn: string, k: nat)
    requires 'L' !in pn && k <= |pn|
    ensures MilSpecAt(pn, k).None?
  {
    if k + 3 <= |pn| {
      assert pn[k + 2] != 'L';
      assert MilW[2] == 'L' && MilDtl[2] == 'L';
      assert !OccursAt(pn, MilW, k) && !OccursAt(pn, MilDtl, k) by {
        if k + |MilW| <= |pn| { assert pn[k..k + |MilW|][2] == pn[k + 2]; }
        if k + |MilDtl| <= |pn| { assert pn[k..k + |MilDtl|][2] == pn[k + 2]; }
      }
    }
  }

  // ---------------------------------------------------------------------------
  // normalize_m22759_properties
  // ---------------------------------------------------------------------------

  /** A normalised row: the dictionary `normalize_m22759_properties` returns. */
  datatype NormRow = NormRow(
    partNumber: string,
    awgSize: Option<string>,
    stranding: Option<string>,
    matchedStyle: Option<string>,
    thermaxPn: Option<string>,
    units: map<string, UnitPair>,
    milSpec: string)

  /** The measurement fields of the standard tables, parsed in the field loop. */
  const UnitFields: seq<string> :=
    ["Conductor Diameter", "Insulation Diameter Minimum", "Insulation Diameter Maximum",
     "Weight", "Maximum Resistance"]

  /** The loop's fields and then the high-strength tables' "Break Strength", parsed the same way. */
  const MeasuredFields: seq<string> := UnitFields + ["Break Strength"]

  /**
   * `normalize_m22759_properties(row_data)`. A lone number in a cell is a US
   * value with an unknown (zero) metric value.
   */
  function NormalizeSpec(row: map<string, string>): NormRow
    requires "Part Number" in row
  {
    NormRow(
      row["Part Number"], Get(row, "AWG Size"), Get(row, "Stranding"),
      Get(row, StyleKey), Get(row, "Thermax P/N"),
      ParsedFields(MetricUnknown, row, MeasuredFields),
      MilSpec(row["Part Number"]))
  }

  /**
   * The normaliser, with its loop over the unit fields. The part number
   * must be present: the MIL Spec search reads it.
   */
  method Normalize(row: map<string, string>) returns (n: NormRow)
    requires "Part Number" in row
    ensures n == NormalizeSpec(row)
  {
    var parsed := ParseUnitFields(MetricUnknown, row, UnitFields);
    if "Break Strength" in row {
      parsed := parsed["Break Strength" := ParseUnitPair(MetricUnknown, row["Break Strength"])];
    } else {
      parsed := parsed["Break Strength" := Zero];
    }
    assert MeasuredFields[..|UnitFields|] == UnitFields;
    var pn := row["Part Number"];
    var spec := "N/A";
    var p := MilSpecIndex(pn, 0);
    MilSpecFromIndex(pn, 0);
    if p.Some? {
      spec := MilSpecAt(pn, p.value).value;
    }
    n := NormRow(pn, Get(row, "AWG Size"), Get(row, "Stranding"), Get(row, StyleKey), Get(row, "Thermax P/N"),
      parsed, spec);
  }

  /**
   * Every measurement field is present in a normalised row as a
   * non-negative unit pair: the parsed cell when the row has the field, and
   * `{0, 0}` when it lacks it (Break Strength in a standard table).
   */
  lemma NormalizedMeasurements(row: map<string, string>, field: string)
    requires "Part Number" in row
    requires field in MeasuredFields
    ensures var u := NormalizeSpec(row).units;
      && field in u
      && u[field].us >= 0.0 && u[field].metric >= 0.0
      && (field !in row ==> u[field] == Zero)
      && (field in row ==> u[field] == ParseUnitPair(MetricUnknown, row[field]))
  {
    ParsedFieldsValue(MetricUnknown, row, MeasuredFields, field);
  }

  // ---------------------------------------------------------------------------
  // extract_datasheet_info
  // ---------------------------------------------------------------------------

  /**
   * One `re.findall` match of a row pattern: the part-number group and the
   * groups after it.
   */
  datatype Match = Match(partNumber: string, rest: seq<string>) {
    function Items(): seq<string> {
      [partNumber] + rest
    }
  }

  /** A part number one of the high-strength slash sheets (/17, /19 .. /23) owns. */
  predicate HighStrengthMarked(pn: string) {
    || Contains(pn, "/17-") || Contains(pn, "/19-") || Contains(pn, "/20-")
    || Contains(pn, "/21-") || Contains(pn, "/22-") || Contains(pn, "/23-")
  }

  /**
   * Whether a match is kept: the standard pattern also matches high-strength
   * rows, which it leaves to the high-strength pattern.
   */
  predicate Kept(fam: Family, m: Match) {
    fam == HighStrength || !HighStrengthMarked(m.partNumber)
  }

  /** The matches a family keeps, in match order. */
  function KeptMatches(fam: Family, ms: seq<Match>): (kept: seq<Match>)
    ensures |kept| <= |ms|
  {
    if ms == [] then []
    else KeptMatches(fam, ms[..|ms| - 1]) + (if Kept(fam, ms[|ms| - 1]) then [ms[|ms| - 1]] else [])
  }

  /** The normalised row of one match. */
  function RowOf(fam: Family, m: Match): NormRow {
    assert "Part Number" in FamilyRow(fam, m.Items()) by {
      assert Headers(fam)[0] in ZipRow(Headers(fam), CleanItems(m.Items())).Keys;
    }
    NormalizeSpec(FamilyRow(fam, m.Items()))
  }

  /** A family's row builder as a function value. */
  function RowFn(fam: Family): Match -> NormRow {
    m => RowOf(fam, m)
  }

  /** One row per match, in order. */
  function MapRows(f: Match -> NormRow, ms: seq<Match>): (rows: seq<NormRow>)
    ensures |rows| == |ms|
  {
    if ms == [] then [] else MapRows(f, ms[..|ms| - 1]) + [f(ms[|ms| - 1])]
  }

  /** The rows one family's matches contribute: a row for each kept match, in match order. */
  function FamilyRows(fam: Family, ms: seq<Match>): seq<NormRow>
  {
    MapRows(RowFn(fam), KeptMatches(fam, ms))
  }

  lemma KeptMatchesNext(fam: Family, ms: seq<Match>, i: nat)
    requires i < |ms|
    ensures KeptMatches(fam, ms[..i + 1]) == KeptMatches(fam, ms[..i]) + (if Kept(fam, ms[i]) then [ms[i]] else [])
  {
    assert ms[..i + 1][..i] == ms[..i];
  }

  lemma MapRowsAppend(f: Match -> NormRow, ms: seq<Match>, m: Match)
    ensures MapRows(f, ms + [m]) == MapRows(f, ms) + [f(m)]
  {
    assert (ms + [m])[..|ms|] == ms;
  }

  /** One more match adds its row when the filter keeps it, whatever the row builder. */
  lemma FilterMapStep(f: Match -> NormRow, fam: Family, ms: seq<Match>, i: nat, rows: seq<NormRow>, added: seq<NormRow>)
    requires i < |ms| && rows == MapRows(f, KeptMatches(fam, ms[..i]))
    requires Kept(fam, ms[i]) ==> added == [f(ms[i])]
    requires !Kept(fam, ms[i]) ==> added == []
    ensures rows + added == MapRows(f, KeptMatches(fam, ms[..i + 1]))
  {
    KeptMatchesNext(fam, ms, i);
    var k := KeptMatches(fam, ms[..i]);
    if Kept(fam, ms[i]) {
      assert KeptMatches(fam, ms[..i + 1]) == k + [ms[i]];
      MapRowsAppend(f, k, ms[i]);
    } else {
      assert KeptMatches(fam, ms[..i + 1]) == k;
      assert added == [];
    }
  }

  /** One iteration of a family loop: filter, clean, normalise. */
  method ExtractMatch(fam: Family, m: Match) returns (added: seq<NormRow>)
    ensures Kept(fam, m) ==> added == [RowOf(fam, m)]
    ensures !Kept(fam, m) ==> added == []
  {
    added := [];
    if fam == Standard {
      var pn := m.partNumber;
      if Contains(pn, "/17-") || Contains(pn, "/19-") || Contains(pn, "/20-")
        || Contains(pn, "/21-") || Contains(pn, "/22-") || Contains(pn, "/23-") {
        return;
      }
    }
    var row := CleanMatchRow(m.Items(), Headers(fam), StyleName(fam));
    assert Headers(fam)[0] in ZipRow(Headers(fam), CleanItems(m.Items())).Keys;
    var n := Normalize(row);
    added := [n];
  }

  /** The loop over one family's matches. */
  method ExtractFamily(fam: Family, ms: seq<Match>) returns (rows: seq<NormRow>)
    ensures rows == FamilyRows(fam, ms)
  {
    rows := [];
    var i := 0;
    while i < |ms|
      invariant 0 <= i <= |ms|
      invariant rows == MapRows(RowFn(fam), KeptMatches(fam, ms[..i]))
    {
      var added := ExtractMatch(fam, ms[i]);
      FilterMapStep(RowFn(fam), fam, ms, i, rows, added);
      rows := rows + added;
      i := i + 1;
    }
    assert ms[..i] == ms;
  }

  /** The results of `extract_datasheet_info`: standard rows, then high-strength rows. */
  function ExtractSpec(standard: seq<Match>, highStrength: seq<Match>): seq<NormRow>
  {
    FamilyRows(Standard, standard) + FamilyRows(HighStrength, highStrength)
  }

  /** `extract_datasheet_info(extracted_text)`, given the matches of the two row patterns. */
  method ExtractDatasheetInfo(standard: seq<Match>, highStrength: seq<Match>)
    returns (results: seq<NormRow>)
    ensures results == ExtractSpec(standard, highStrength)
  {
    var s := ExtractFamily(Standard, standard);
    var h := ExtractFamily(HighStrength, highStrength);
    results := s + h;
  }

  /** Filtering distributes over concatenation: kept matches stay in match order. */
  lemma {:induction false} KeptMatchesAppend(fam: Family, a: seq<Match>, b: seq<Match>)
    ensures KeptMatches(fam, a + b) == KeptMatches(fam, a) + KeptMatches(fam, b)
    decreases |b|
  {
    if b == [] {
      assert a + b == a;
    } else {
      var init := b[..|b| - 1];
      KeptMatchesAppend(fam, a, init);
      var last := b[|b| - 1];
      assert (a + b)[..|a + b| - 1] == a + init;
      assert (a + b)[|a + b| - 1] == last;
      var t := if Kept(fam, last) then [last] else [];
      assert KeptMatches(fam, a + b) == KeptMatches(fam, a + init) + t;
      assert KeptMatches(fam, b) == KeptMatches(fam, init) + t;
    }
  }

  /** A single match is kept exactly when the filter admits it. */
  lemma KeptMatchesSingle(fam: Family, m: Match)
    ensures KeptMatches(fam, [m]) == if Kept(fam, m) then [m] else []
  {
    assert [m][..0] == [];
  }

  /** The high-strength family keeps every match. */
  lemma {:induction false} HighStrengthKeepsAll(ms: seq<Match>)
    ensures KeptMatches(HighStrength, ms) == ms
  {
    if ms != [] {
      HighStrengthKeepsAll(ms[..|ms| - 1]);
      assert ms == ms[..|ms| - 1] + [ms[|ms| - 1]];
    }
  }

  /** The standard family keeps every match whose part number names no high-strength sheet ... */
  lemma {:induction false} StandardKeepsUnmarked(ms: seq<Match>)
    requires forall i :: 0 <= i < |ms| ==> !HighStrengthMarked(ms[i].partNumber)
    ensures KeptMatches(Standard, ms) == ms
  {
    if ms != [] {
      StandardKeepsUnmarked(ms[..|ms| - 1]);
      assert ms == ms[..|ms| - 1] + [ms[|ms| - 1]];
    }
  }

  /** ... and drops every match whose part number does. */
  lemma {:induction false} StandardDropsMarked(ms: seq<Match>)
    requires forall i :: 0 <= i < |ms| ==> HighStrengthMarked(ms[i].partNumber)
    ensures KeptMatches(Standard, ms) == []
  {
    if ms != [] {
      StandardDropsMarked(ms[..|ms| - 1]);
    }
  }

  /** Every kept match passes the filter. */
  lemma {:induction false} KeptMatchesPass(fam: Family, ms: seq<Match>)
    ensures forall i :: 0 <= i < |KeptMatches(fam, ms)| ==> Kept(fam, KeptMatches(fam, ms)[i])
  {
    if ms != [] {
      KeptMatchesPass(fam, ms[..|ms| - 1]);
    }
  }

  /** A row of family `name` that the transform can read. */
  predicate RowOfFamily(row: NormRow, name: string) {
    row.matchedStyle == Some(name) && Transformable(row)
  }

  /** Rows built by a builder that always makes rows of family `name` are all of that family. */
  lemma {:induction false} MapRowsStyle(f: Match -> NormRow, ms: seq<Match>, name: string)
    requires forall k :: 0 <= k < |ms| ==> RowOfFamily(f(ms[k]), name)
    ensures forall k :: 0 <= k < |MapRows(f, ms)| ==> RowOfFamily(MapRows(f, ms)[k], name)
  {
    if ms != [] {
      MapRowsStyle(f, ms[..|ms| - 1], name);
    }
  }

  /** Every row a family contributes records that family's name and carries every measurement. */
  lemma FamilyRowsStyle(fam: Family, ms: seq<Match>)
    ensures forall k :: 0 <= k < |FamilyRows(fam, ms)| ==> RowOfFamily(FamilyRows(fam, ms)[k], StyleName(fam))
  {
    var kept := KeptMatches(fam, ms);
    forall k | 0 <= k < |kept| ensures RowOfFamily(RowFn(fam)(kept[k]), StyleName(fam)) {
      RowOfStyle(fam, kept[k]);
    }
    MapRowsStyle(RowFn(fam), kept, StyleName(fam));
  }

  lemma RowOfStyle(fam: Family, m: Match)
    ensures RowOfFamily(RowOf(fam, m), StyleName(fam))
  {
    assert FamilyRow(fam, m.Items())[StyleKey] == StyleName(fam);
    assert "Conductor Diameter" in MeasuredFields && "Insulation Diameter Maximum" in MeasuredFields;
    assert "Weight" in MeasuredFields && "Maximum Resistance" in MeasuredFields && "Break Strength" in MeasuredFields;
  }

  /**
   * The standard rows come first and then every high-strength match, one
   * row each; each row records the table family it came from.
   */
  lemma StandardRowsFirst(standard: seq<Match>, highStrength: seq<Match>)
    ensures var rs := ExtractSpec(standard, highStrength);
      var n := |KeptMatches(Standard, standard)|;
      && n <= |standard|
      && |rs| == n + |highStrength|
      && (forall k :: 0 <= k < n ==> rs[k].matchedStyle == Some(StyleName(Standard)))
      && (forall k :: n <= k < |rs| ==> rs[k].matchedStyle == Some(StyleName(HighStrength)))
      && AllTransformable(rs)
  {
    var s := FamilyRows(Standard, standard);
    var h := FamilyRows(HighStrength, highStrength);
    assert ExtractSpec(standard, highStrength) == s + h;
    HighStrengthKeepsAll(highStrength);
    FamilyRowsStyle(Standard, standard);
    FamilyRowsStyle(HighStrength, highStrength);
    ConcatStyles(s, h, StyleName(Standard), StyleName(HighStrength));
  }

  lemma ConcatStyles(s: seq<NormRow>, h: seq<NormRow>, a: string, b: string)
    requires forall k :: 0 <= k < |s| ==> RowOfFamily(s[k], a)
    requires forall k :: 0 <= k < |h| ==> RowOfFamily(h[k], b)
    ensures forall k :: 0 <= k < |s| ==> (s + h)[k].matchedStyle == Some(a)
    ensures forall k :: |s| <= k < |s + h| ==> (s + h)[k].matchedStyle == Some(b)
    ensures AllTransformable(s + h)
  {
    assert forall k :: |s| <= k < |s + h| ==> (s + h)[k] == h[k - |s|];
  }

  // ---------------------------------------------------------------------------
  // transform_to_core_format
  // ---------------------------------------------------------------------------

  /** The MIL-STD-104 wire colour code: one digit per colour. */
  function Std104Colour(d: char): Option<string> {
    match d
    case '0' => Some("Black")
    case '1' => Some("Brown")
    case '2' => Some("Red")
    case '3' => Some("Orange")
    case '4' => Some("Yellow")
    case '5' => Some("Green")
    case '6' => Some("Blue")
    case '7' => Some("Violet")
    case '8' => Some("Gray")
    case '9' => Some("White")
    case _ => None
  }

  /**
   * The search `-(\d{1,2})$`: when the part number ends in '-' and one or
   * two digits, the first of those digits.
   */
  function ColourDigit(pn: string): (d: Option<char>)
    ensures d.Some? ==> IsDigit(d.value)
  {
    if |pn| >= 3 && pn[|pn| - 3] == '-' && IsDigit(pn[|pn| - 2]) && IsDigit(pn[|pn| - 1]) then Some(pn[|pn| - 2])
    else if |pn| >= 2 && pn[|pn| - 2] == '-' && IsDigit(pn[|pn| - 1]) then Some(pn[|pn| - 1])
    else None
  }

  /** The wire colour: the colour-code digit through the MIL-STD-104 table, "White" by default. */
  function WireColour(pn: string): string {
    match ColourDigit(pn)
    case Some(d) => Std104Colour(d).GetOr("White")
    case None => "White"
  }

  /** The table covers every digit, so the default only applies without a colour code. */
  lemma Std104CoversDigits(d: char)
    requires IsDigit(d)
    ensures Std104Colour(d).Some?
  {
  }

  /**
   * A part number ending in '-' and a one- or two-digit code takes the
   * colour of the code's first digit.
   */
  lemma WireColourOfCode(prefix: string, code: string)
    requires 1 <= |code| <= 2 && AllDigits(code)
    ensures WireColour(prefix + "-" + code) == Std104Colour(code[0]).value
  {
    var pn := prefix + "-" + code;
    Std104CoversDigits(code[0]);
    if |code| == 2 {
      assert pn[|pn| - 3] == '-' && pn[|pn| - 2] == code[0] && pn[|pn| - 1] == code[1];
    } else {
      assert pn[|pn| - 2] == '-' && pn[|pn| - 1] == code[0];
    }
  }

  /**
   * A part number that does not end in a digit is White; so is one whose
   * trailing digits are more than two or not preceded by '-'.
   */
  lemma WireColourDefault(pn: string)
    requires pn == [] || !IsDigit(pn[|pn| - 1])
      || (|pn| >= 3 && AllDigits(pn[|pn| - 3..]))
      || (|pn| >= 2 && pn[|pn| - 2] != '-' && !IsDigit(pn[|pn| - 2]))
    ensures WireColour(pn) == "White"
  {
    if |pn| >= 3 && AllDigits(pn[|pn| - 3..]) {
      assert pn[|pn| - 3] == pn[|pn| - 3..][0];
    }
  }

  /** `"m22759-" + pn.replace('/', '-').replace(' ', '-')`, lower-cased. */
  function CableIdFor(pn: string): (id: string)
    ensures StartsWith(id, "m22759-") && NoUpper(id)
    ensures '/' !in id && ' ' !in id
    ensures |id| == 7 + |pn|
    ensures forall i :: 0 <= i < |pn| ==>
      id[7 + i] == LowerChar(if pn[i] == '/' || pn[i] == ' ' then '-' else pn[i])
  {
    var tail := Lower(ReplaceChar(ReplaceChar(pn, '/', '-'), ' ', '-'));
    assert '/' !in tail && ' ' !in tail by {
      forall i | 0 <= i < |tail| ensures tail[i] != '/' && tail[i] != ' ' {
        assert tail[i] == LowerChar(ReplaceChar(ReplaceChar(pn, '/', '-'), ' ', '-')[i]);
      }
    }
    "m22759-" + tail
  }

  /** The wall thickness: half the difference of the insulated and bare diameters, when positive. */
  function InsulationThickness(maxOd: real, conductor: real): (t: real)
    ensures t >= 0.0
    ensures t > 0.0 <==> maxOd > conductor
    ensures t > 0.0 ==> conductor + 2.0 * t == maxOd
  {
    var t := (maxOd - conductor) / 2.0;
    if t > 0.0 then t else 0.0
  }

  /** The keys `transform_to_core_format` reads; a row without any of them raises `KeyError`. */
  predicate Transformable(row: NormRow) {
    && row.matchedStyle.Some?
    && "Conductor Diameter" in row.units && "Insulation Diameter Maximum" in row.units
    && "Weight" in row.units && "Maximum Resistance" in row.units && "Break Strength" in row.units
  }

  /** The metric half of a measurement. */
  function Metric(row: NormRow, field: string): real
    requires field in row.units
  {
    row.units[field].metric
  }

  /** The one conductor of a hookup wire. */
  function WireCore(row: NormRow, colour: string): Core
    requires Transformable(row)
  {
    Core("1", Metric(row, "Conductor Diameter"),
         InsulationThickness(Metric(row, "Insulation Diameter Maximum"), Metric(row, "Conductor Diameter")),
         colour, PyStr(row.awgSize),
         "Plated Copper (" + ReplaceStr(row.matchedStyle.value, "M22759 ", "") + ")",
         map[])
  }

  /**
   * One record of `transform_to_core_format`: a single-core, unshielded
   * hookup wire whose jacket colour is its core's colour.
   */
  function CableFor(row: NormRow): (c: Cable)
    requires Transformable(row)
    ensures |c.cores| == 1 && c.cores[0].coreId == "1"
    ensures c.cores[0].insulationColor == c.jacketColor == WireColour(c.partNumber)
    ensures c.cores[0].conductorDiameter == Metric(row, "Conductor Diameter")
    ensures c.cores[0].insulationThickness ==
      InsulationThickness(Metric(row, "Insulation Diameter Maximum"), Metric(row, "Conductor Diameter"))
    ensures c.cores[0].insulationThickness >= 0.0
    ensures c.cores[0].gauge == PyStr(row.awgSize)
    ensures c.partNumber == RemoveChar(row.partNumber, '*') && '*' !in c.partNumber
    ensures c.cableId == CableIdFor(c.partNumber)
    ensures c.cableType == 1 && !c.hasShield && !c.hasDrainWire && !c.isFiller
    ensures c.jacketThickness == 0.0 && c.specifiedOuterDiameter == Metric(row, "Insulation Diameter Maximum")
  {
    var pn := RemoveChar(row.partNumber, '*');
    var colour := WireColour(pn);
    var awg := PyStr(row.awgSize);
    Cable(
      CableIdFor(pn), pn, "Thermax (Implied)",
      row.milSpec + " " + awg + " AWG Hookup Wire",
      1, [WireCore(row, colour)],
      0.0, colour,
      false, 0, 0.0, 0, false, 0.0, false,
      Metric(row, "Insulation Diameter Maximum"),
      Some("MIL-W-22759 Hookup Wire, " + awg + " AWG, Stranding " + PyStr(row.stranding)),
      map["Weight (kg/km)" := JReal(Metric(row, "Weight")),
          "MaxResistance (Ohm/km)" := JReal(Metric(row, "Maximum Resistance")),
          "BreakStrength (kg)" := JReal(Metric(row, "Break Strength"))])
  }

  predicate AllTransformable(rows: seq<NormRow>) {
    forall i :: 0 <= i < |rows| ==> Transformable(rows[i])
  }

  /** `transform_to_core_format`: one record per normalised row, in order. */
  method Transform(rows: seq<NormRow>) returns (cables: seq<Cable>)
    requires AllTransformable(rows)
    ensures |cables| == |rows|
    ensures forall i :: 0 <= i < |rows| ==> cables[i] == CableFor(rows[i])
  {
    cables := [];
    var i := 0;
    while i < |rows|
      invariant 0 <= i <= |rows|
      invariant cables == MapPartial(CableFor, rows[..i])
    {
      MapPartialNext(CableFor, rows, i);
      cables := cables + [CableFor(rows[i])];
      i := i + 1;
    }
    assert rows[..i] == rows;
    MapPartialAt(CableFor, rows);
  }

  /**
   * The wall thickness of a record's core and its outer diameter rebuild the
   * bare conductor: conductor + 2 * wall == outer diameter whenever the wall
   * is positive.
   */
  lemma WallRebuildsDiameter(row: NormRow)
    requires Transformable(row)
    ensures var c := CableFor(row);
      c.cores[0].insulationThickness > 0.0 <==>
        Metric(row, "Insulation Diameter Maximum") > Metric(row, "Conductor Diameter")
    ensures var c := CableFor(row);
      c.cores[0].insulationThickness > 0.0 ==>
        c.cores[0].conductorDiameter + 2.0 * c.cores[0].insulationThickness == c.specifiedOuterDiameter
  {
  }

}
