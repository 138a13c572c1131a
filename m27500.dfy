/**
 * The MIL-DTL-27500 extractor: the code tables, the default shield and
 * jacket codes per type code, rebuilding the part number, the stateful
 * scan over the matches of a datasheet, and the final cable records.
 */
module M27500 {
  import opened Wrappers
  import opened Text
  import opened Rows
  import opened UnitPairs
  import opened Records

  // ---------------------------------------------------------------------------
  // Code tables
  // ---------------------------------------------------------------------------

  /** Component wire specification per type code. */
  function ComponentSpec(code: string): Option<string> {
    match code
    case "SA" => Some("M22759/7")
    case "TA" => Some("M22759/8")
    case "RC" => Some("M22759/11")
    case "RE" => Some("M22759/12")
    case "TE" => Some("M22759/16")
    case "TF" => Some("M22759/17")
    case "TG" => Some("M22759/18")
    case "TH" => Some("M22759/19")
    case "VA" => Some("M22759/5")
    case "WA" => Some("M22759/6")
    case "LE" => Some("M22759/9")
    case "LH" => Some("M22759/10")
    case "TK" => Some("M22759/20")
    case "TL" => Some("M22759/21")
    case "TM" => Some("M22759/22")
    case "TN" => Some("M22759/23")
    case "JB" => Some("M22759/28")
    case "JC" => Some("M22759/29")
    case "JD" => Some("M22759/30")
    case "JE" => Some("M22759/31")
    case "WB" => Some("M22759/80")
    case "WC" => Some("M22759/81")
    case "WE" => Some("M22759/82")
    case "WG" => Some("M22759/84")
    case "WH" => Some("M22759/85")
    case "WJ" => Some("M22759/86")
    case "WK" => Some("M22759/87")
    case "WL" => Some("M22759/88")
    case "WM" => Some("M22759/89")
    case "WN" => Some("M22759/90")
    case "WP" => Some("M22759/91")
    case "WR" => Some("M22759/92")
    case "JA" => Some("M25038/1")
    case "JF" => Some("M25038/3")
    case "MR" => Some("M81381/7")
    case "MS" => Some("M81381/8")
    case "MT" => Some("M81381/9")
    case "MV" => Some("M81381/10")
    case "MW" => Some("M81381/11")
    case "MY" => Some("M81381/12")
    case "NA" => Some("M81381/13")
    case "NB" => Some("M81381/14")
    case "NE" => Some("M81381/17")
    case "NF" => Some("M81381/18")
    case "NG" => Some("M81381/19")
    case "NH" => Some("M81381/20")
    case "NK" => Some("M81381/21")
    case "NL" => Some("M81381/22")
    case _ => None
  }

  /** Shield material per shield code. */
  function ShieldMaterial(code: string): Option<string> {
    match code
    case "U" => Some("None")
    case "NY" => Some("Nickel-plated copper (Round)")
    case "SW" => Some("Silver-plated copper (Round)")
    case "TV" => Some("Tin-plated copper (Round)")
    case "CR" => Some("Heavy Nickel-plated copper (Round)")
    case "FZ" => Some("Stainless steel (Round)")
    case "PL" => Some("Ni-plated high-strength Cu alloy (Round)")
    case "MK" => Some("Ag-plated high-strength Cu alloy (Round)")
    case "#" => Some("Ni-plated copper (Flat)")
    case "GA" => Some("Ag-plated copper (Flat)")
    case "JD" => Some("Tin-plated copper (Flat)")
    case "EX" => Some("Ni-plated high-strength Cu alloy (Flat)")
    case "HB" => Some("Ag-plated high-strength Cu alloy (Flat)")
    case _ => None
  }

  /** Jacket material per jacket code (single and double jackets). */
  function JacketMaterial(code: string): Option<string> {
    match code
    case "00" => Some("None")
    case "50" => Some("None")
    case "15" => Some("ETFE, extruded, clear")
    case "65" => Some("ETFE, extruded, clear (Double)")
    case "14" => Some("ETFE, extruded, white")
    case "64" => Some("ETFE, extruded, white (Double)")
    case "05" => Some("FEP, extruded, clear")
    case "55" => Some("FEP, extruded, clear (Double)")
    case "09" => Some("FEP, extruded, white")
    case "59" => Some("FEP, extruded, white (Double)")
    case "02" => Some("Nylon, extruded, clear")
    case "52" => Some("Nylon, extruded, clear (Double)")
    case "21" => Some("PFA, extruded, clear")
    case "71" => Some("PFA, extruded, clear (Double)")
    case "20" => Some("PFA, extruded, white")
    case "70" => Some("PFA, extruded, white (Double)")
    case "11" => Some("Natural polyimide / clear FEP tape")
    case "61" => Some("Natural polyimide / clear FEP tape (Double)")
    case "12" => Some("Natural polyimide / FEP tape")
    case "62" => Some("Natural polyimide / FEP tape (Double)")
    case "06" => Some("PTFE, taped, white")
    case "56" => Some("PTFE, taped, white (Double)")
    case "24" => Some("PTFE/Polyimide tape (Outer PTFE tape)")
    case "74" => Some("PTFE/Polyimide tape (Double)")
    case "07" => Some("PTFE-coated glass braid")
    case "57" => Some("PTFE-coated glass braid (Double)")
    case "01" => Some("PVC, extruded, white")
    case "51" => Some("PVC, extruded, white (Double)")
    case _ => None
  }

  /** Default (shield code, jacket code) per type code. */
  function TypeDefaults(code: string): Option<(string, string)> {
    match code
    case "SA" => Some(("N", "06"))
    case "TA" => Some(("N", "06"))
    case "RC" => Some(("N", "06"))
    case "RE" => Some(("N", "06"))
    case "VA" => Some(("N", "06"))
    case "WA" => Some(("N", "06"))
    case "LE" => Some(("N", "06"))
    case "LH" => Some(("N", "06"))
    case "TE" => Some(("N", "14"))
    case "TF" => Some(("N", "14"))
    case "TG" => Some(("N", "14"))
    case "TH" => Some(("N", "14"))
    case "TK" => Some(("N", "14"))
    case "TL" => Some(("N", "14"))
    case "TM" => Some(("N", "14"))
    case "TN" => Some(("N", "14"))
    case "WB" => Some(("N", "24"))
    case "WC" => Some(("N", "24"))
    case "WE" => Some(("N", "24"))
    case _ => None
  }

  /** The type families the defaults table groups together. */
  const PtfeJacketTypes: set<string> := {"SA", "TA", "RC", "RE", "VA", "WA", "LE", "LH"}
  const EtfeJacketTypes: set<string> := {"TE", "TF", "TG", "TH", "TK", "TL", "TM", "TN"}
  const PolyimideJacketTypes: set<string> := {"WB", "WC", "WE"}

  /** `get_default_codes_by_type`: the table entry, or unshielded without jacket. */
  function DefaultCodes(typeCode: string): (codes: (string, string))
    ensures codes.0 == "N" || codes == ("U", "00")
  {
    TypeDefaults(typeCode).GetOr(("U", "00"))
  }

  /** The eight PTFE-family types default to a nickel shield and PTFE jacket 06. */
  lemma DefaultCodesPtfe(typeCode: string)
    requires typeCode in PtfeJacketTypes
    ensures DefaultCodes(typeCode) == ("N", "06")
  {
  }

  /** The eight ETFE-family types default to a nickel shield and ETFE jacket 14. */
  lemma DefaultCodesEtfe(typeCode: string)
    requires typeCode in EtfeJacketTypes
    ensures DefaultCodes(typeCode) == ("N", "14")
  {
  }

  /** The three bus/power types default to a nickel shield and polyimide jacket 24. */
  lemma DefaultCodesPolyimide(typeCode: string)
    requires typeCode in PolyimideJacketTypes
    ensures DefaultCodes(typeCode) == ("N", "24")
  {
  }

  /** Every other type code falls back to unshielded without jacket. */
  lemma DefaultCodesFallback(typeCode: string)
    requires typeCode !in PtfeJacketTypes + EtfeJacketTypes + PolyimideJacketTypes
    ensures DefaultCodes(typeCode) == ("U", "00")
  {
  }

  /**
   * Every default jacket code has a description in the jacket table, but the
   * default shield code 'N' is not a key of the shield table: only the
   * unshielded fallback 'U' is described there.
   */
  lemma DefaultCodesInTables(typeCode: string)
    ensures JacketMaterial(DefaultCodes(typeCode).1).Some?
    ensures ShieldMaterial(DefaultCodes(typeCode).0).Some? <==> TypeDefaults(typeCode).None?
  {
  }

  // ---------------------------------------------------------------------------
  // AWG code and part number
  // ---------------------------------------------------------------------------

  /** `f"{n:02}"`: the decimal digits of `n`, zero-padded to at least two. */
  function Pad2(n: nat): (code: string)
    ensures AllDigits(code) && |code| >= 2 && ParseNat(code) == n
    ensures n >= 10 ==> code == NatToString(n)
    ensures n < 10 ==> |code| == 2
  {
    var t := NatToString(n);
    ParseNatOfNatToString(n);
    if |t| < 2 then
      ParseNatLeadingZero(t);
      "0" + t
    else t
  }

  /**
   * The AWG code of the part number: an all-digit size is zero-padded, a size
   * with '/' loses its slashes, anything else is "XX".
   */
  function AwgCode(awgRaw: string): (code: string)
    ensures AllDigits(awgRaw) ==> AllDigits(code) && |code| >= 2 && ParseNat(code) == ParseNat(awgRaw)
    ensures AllDigits(awgRaw) && ParseNat(awgRaw) >= 10 ==> code == NatToString(ParseNat(awgRaw))
    ensures AllDigits(awgRaw) && ParseNat(awgRaw) < 10 ==> |code| == 2
    ensures !AllDigits(awgRaw) && '/' in awgRaw ==> code == RemoveChar(awgRaw, '/')
    ensures !AllDigits(awgRaw) && '/' in awgRaw ==> '/' !in code && |code| < |awgRaw|
    ensures !AllDigits(awgRaw) && '/' !in awgRaw ==> code == "XX"
  {
    if AllDigits(awgRaw) then Pad2(ParseNat(awgRaw))
    else if '/' in awgRaw then RemoveChar(awgRaw, '/')
    else "XX"
  }

  /** A single-digit size gets a leading zero ("8" gives "08"). */
  lemma AwgCodeSingleDigit(d: char)
    requires IsDigit(d)
    ensures AwgCode([d]) == ['0', d]
  {
    assert ParseNat([d]) == DigitValue(d) by {
      assert [d][..0] == [];
    }
    assert NatToString(DigitValue(d)) == [d];
  }

  /** The aught sizes lose their slash ("2/0" gives "20"). */
  lemma AwgCodeAught(k: char)
    requires IsDigit(k)
    ensures AwgCode([k, '/', '0']) == [k, '0']
  {
    var raw := [k, '/', '0'];
    assert !AllDigits(raw) by { assert !IsDigit(raw[1]); }
    assert '/' in raw by { assert raw[1] == '/'; }
    AughtSlashRemoved(k);
  }

  lemma AughtSlashRemoved(k: char)
    requires IsDigit(k)
    ensures RemoveChar([k, '/', '0'], '/') == [k, '0']
  {
    RemoveCharCons('0', [], '/');
    assert ['0'] == ['0'] + [];
    RemoveCharCons('/', ['0'], '/');
    assert ['/', '0'] == ['/'] + ['0'];
    RemoveCharCons(k, ['/', '0'], '/');
    assert [k, '/', '0'] == [k] + ['/', '0'];
  }

  lemma RemoveCharCons(x: char, s: string, c: char)
    ensures RemoveChar([x] + s, c) == (if x == c then [] else [x]) + RemoveChar(s, c)
  {
    assert ([x] + s)[1..] == s;
  }

  /** `M27500-{awg}{type}{count}C{shield}{jacket}` (the shape "M27500-AA TT n C SS JJ"). */
  function FullPartNumber(awgCode: string, typeCode: string, count: nat, shield: string, jacket: string): string {
    "M27500-" + awgCode + typeCode + NatToString(count) + "C" + shield + jacket
  }

  /** Every rebuilt part number starts with the `M27500-` specification prefix. */
  lemma FullPartNumberPrefix(awgCode: string, typeCode: string, count: nat, shield: string, jacket: string)
    ensures StartsWith(FullPartNumber(awgCode, typeCode, count, shield, jacket), "M27500-")
  {
    var tail := awgCode + typeCode + NatToString(count) + "C" + shield + jacket;
    assert FullPartNumber(awgCode, typeCode, count, shield, jacket) == "M27500-" + tail;
  }

  /** The fields of a part number of the standard fixed-width layout. */
  datatype PartNumberFields = PartNumberFields(awgCode: string, typeCode: string, count: nat, shield: string, jacket: string)

  /**
   * Reads a part number of the standard layout back into its fields: two
   * AWG characters, two type characters, one count digit, the coverage 'C',
   * one shield character and two jacket characters.
   */
  function DecodePartNumber(pn: string): (r: Option<PartNumberFields>)
    ensures r.Some? ==> |pn| == 16 && 1 <= r.value.count <= 9
  {
    if |pn| == 16 && pn[..7] == "M27500-" && IsDigit(pn[11]) && pn[11] != '0' && pn[12] == 'C' then
      Some(PartNumberFields(pn[7..9], pn[9..11], DigitValue(pn[11]), pn[13..14], pn[14..]))
    else None
  }

  /** Building and then reading the part number gives back its fields. */
  lemma PartNumberRoundTrip(f: PartNumberFields)
    requires |f.awgCode| == 2 && |f.typeCode| == 2 && 1 <= f.count <= 9
    requires |f.shield| == 1 && |f.jacket| == 2
    ensures DecodePartNumber(FullPartNumber(f.awgCode, f.typeCode, f.count, f.shield, f.jacket)) == Some(f)
  {
    var pn := FullPartNumber(f.awgCode, f.typeCode, f.count, f.shield, f.jacket);
    var digit := NatToString(f.count);
    assert digit == [DigitChar(f.count)];
    assert pn == "M27500-" + f.awgCode + f.typeCode + digit + "C" + f.shield + f.jacket;
    assert pn[..7] == "M27500-";
    assert pn[7..9] == f.awgCode;
    assert pn[9..11] == f.typeCode;
    assert pn[11] == DigitChar(f.count) && pn[12] == 'C';
    assert pn[13..14] == f.shield;
    assert pn[14..] == f.jacket;
  }

  // ---------------------------------------------------------------------------
  // Row cleanup and normalisation
  // ---------------------------------------------------------------------------

  /** A captured field: `None` (an optional group that did not match) becomes "". */
  function CleanItem(item: Option<string>): string {
    match item
    case None => ""
    case Some(s) => CleanCapture(s)
  }

  function CleanItems(items: seq<Option<string>>): seq<string> {
    Map(CleanItem, items)
  }

  /** `clean_match_row(match_tuple, headers)`. */
  method CleanMatchRow(items: seq<Option<string>>, headers: seq<string>) returns (row: map<string, string>)
    ensures row == ZipRow(headers, CleanItems(items))
  {
    var clean: seq<string> := [];
    var i := 0;
    while i < |items|
      invariant 0 <= i <= |items|
      invariant clean == Map(CleanItem, items[..i])
    {
      MapNext(CleanItem, items, i);
      var text: string;
      match items[i] {
        case None => text := "";
        case Some(s) => text := CleanCapture(s);
      }
      clean := clean + [text];
      i := i + 1;
    }
    assert items[..i] == items;
    row := ZipRow(headers, clean);
  }

  /**
   * Each header is paired with its own field: a missing capture is "" and
   * any other is the capture's words joined by single spaces.
   */
  lemma CleanRowFields(items: seq<Option<string>>, headers: seq<string>, i: nat)
    requires i < |headers| && i < |items|
    requires forall a, b :: 0 <= a < b < |headers| ==> headers[a] != headers[b]
    ensures headers[i] in ZipRow(headers, CleanItems(items))
    ensures items[i].None? ==> ZipRow(headers, CleanItems(items))[headers[i]] == ""
    ensures items[i].Some? ==> ZipRow(headers, CleanItems(items))[headers[i]] == JoinSpaces(SplitWs(items[i].value))
  {
    var clean := CleanItems(items);
    ZipRowLookup(headers, clean, i);
    assert clean[i] == CleanItem(items[i]);
    if items[i].Some? {
      CleanCaptureIsJoinedWords(items[i].value);
    }
  }

  /** A normalised row: the dictionary `normalize_m27500_properties` returns. */
  datatype NormRow = NormRow(
    partNumberBase: Option<string>,
    awgSize: Option<string>,
    stranding: Option<string>,
    conductorCount: nat,
    typeCode: string,
    shieldDiameter: UnitPair,
    jacketDiameter: UnitPair,
    weight: UnitPair,
    fullPartNumber: string,
    shieldCode: string,
    jacketCode: string)

  const UnitFields: seq<string> := ["Shield Diameter", "Jacket Diameter", "Weight"]

  /** `normalize_m27500_properties(row_data, conductor_count, type_code)`. */
  function NormalizeSpec(row: map<string, string>, count: nat, typeCode: string): (n: NormRow)
    ensures n.conductorCount == count && n.typeCode == typeCode
    ensures (n.shieldCode, n.jacketCode) == DefaultCodes(typeCode)
    ensures StartsWith(n.fullPartNumber, "M27500-")
    ensures n.partNumberBase == Get(row, "Part Number Base")
    ensures n.awgSize == Get(row, "AWG Size") && n.stranding == Get(row, "Stranding")
    ensures "Shield Diameter" !in row ==> n.shieldDiameter == Zero
    ensures "Jacket Diameter" !in row ==> n.jacketDiameter == Zero
    ensures "Weight" !in row ==> n.weight == Zero
    ensures "Shield Diameter" in row ==> n.shieldDiameter == ParseUnitPair(InchesToMillimetres, row["Shield Diameter"])
    ensures "Jacket Diameter" in row ==> n.jacketDiameter == ParseUnitPair(InchesToMillimetres, row["Jacket Diameter"])
    ensures "Weight" in row ==> n.weight == ParseUnitPair(InchesToMillimetres, row["Weight"])
  {
    var codes := DefaultCodes(typeCode);
    var awg := AwgCode(Strip(PyStr(Get(row, "AWG Size"))));
    FullPartNumberPrefix(awg, typeCode, count, codes.0, codes.1);
    NormRow(
      Get(row, "Part Number Base"), Get(row, "AWG Size"), Get(row, "Stranding"),
      count, typeCode,
      FieldOrZero(InchesToMillimetres, row, "Shield Diameter"),
      FieldOrZero(InchesToMillimetres, row, "Jacket Diameter"),
      FieldOrZero(InchesToMillimetres, row, "Weight"),
      FullPartNumber(awg, typeCode, count, codes.0, codes.1),
      codes.0, codes.1)
  }

  /** The normaliser, with its loop over the unit fields. */
  method Normalize(row: map<string, string>, count: nat, typeCode: string) returns (n: NormRow)
    ensures n == NormalizeSpec(row, count, typeCode)
  {
    var parsed := ParseUnitFields(InchesToMillimetres, row, UnitFields);
    assert UnitFields[0] in UnitFields && UnitFields[1] in UnitFields && UnitFields[2] in UnitFields;
    var codes := DefaultCodes(typeCode);
    var awg := AwgCode(Strip(PyStr(Get(row, "AWG Size"))));
    n := NormRow(
      Get(row, "Part Number Base"), Get(row, "AWG Size"), Get(row, "Stranding"),
      count, typeCode,
      parsed["Shield Diameter"], parsed["Jacket Diameter"], parsed["Weight"],
      FullPartNumber(awg, typeCode, count, codes.0, codes.1),
      codes.0, codes.1);
  }

  /**
   * For a known type code, a one- or two-digit AWG and a single-digit
   * conductor count, the rebuilt part number has the standard layout and
   * carries the default nickel shield and jacket codes.
   */
  lemma NormalizedPartNumber(row: map<string, string>, count: nat, typeCode: string)
    requires TypeDefaults(typeCode).Some? && |typeCode| == 2 && 1 <= count <= 9
    requires "AWG Size" in row && AllDigits(Strip(row["AWG Size"])) && ParseNat(Strip(row["AWG Size"])) < 100
    ensures var n := NormalizeSpec(row, count, typeCode);
      DecodePartNumber(n.fullPartNumber) ==
        Some(PartNumberFields(Pad2(ParseNat(Strip(row["AWG Size"]))), typeCode, count, "N", TypeDefaults(typeCode).value.1))
  {
    var v := ParseNat(Strip(row["AWG Size"]));
    var awg := Pad2(v);
    if v >= 10 {
      ParseNatOfNatToString(v);
      assert |NatToString(v)| == 2 by {
        if |NatToString(v)| > 2 { NatToStringLong(v); }
      }
    } else {
      assert NatToString(v) == [DigitChar(v)];
    }
    var codes := TypeDefaults(typeCode).value;
    assert |codes.1| == 2 && codes.0 == "N";
    PartNumberRoundTrip(PartNumberFields(awg, typeCode, count, "N", codes.1));
  }

  /**
   * Whatever the type code and AWG, a two-character AWG code, a two-letter
   * type code and a single-digit count give a part number of the standard
   * layout, which reads back as the AWG code, the type, the count and the
   * default shield and jacket codes: "1/0" gives AWG code "10", and an
   * untabled type gives shield "U" and jacket "00".
   */
  lemma NormalizedPartNumberDecodes(row: map<string, string>, count: nat, typeCode: string)
    requires |typeCode| == 2 && 1 <= count <= 9
    requires |AwgCode(Strip(PyStr(Get(row, "AWG Size"))))| == 2
    ensures DecodePartNumber(NormalizeSpec(row, count, typeCode).fullPartNumber) ==
      Some(PartNumberFields(AwgCode(Strip(PyStr(Get(row, "AWG Size")))), typeCode, count,
                            DefaultCodes(typeCode).0, DefaultCodes(typeCode).1))
  {
    var awg := AwgCode(Strip(PyStr(Get(row, "AWG Size"))));
    DefaultPartNumberDecodes(awg, typeCode, count);
  }

  /** A part number built with a type's default codes reads back as its fields. */
  lemma DefaultPartNumberDecodes(awg: string, typeCode: string, count: nat)
    requires |awg| == 2 && |typeCode| == 2 && 1 <= count <= 9
    ensures DecodePartNumber(FullPartNumber(awg, typeCode, count, DefaultCodes(typeCode).0, DefaultCodes(typeCode).1)) ==
      Some(PartNumberFields(awg, typeCode, count, DefaultCodes(typeCode).0, DefaultCodes(typeCode).1))
  {
    var codes := DefaultCodes(typeCode);
    assert |codes.0| == 1 && |codes.1| == 2 by {
      if TypeDefaults(typeCode).Some? {
        var d := TypeDefaults(typeCode).value;
        assert |d.1| == 2;
      }
    }
    PartNumberRoundTrip(PartNumberFields(awg, typeCode, count, codes.0, codes.1));
  }

  /** A number with three or more digits is at least 100. */
  lemma NatToStringLong(n: nat)
    requires |NatToString(n)| > 2
    ensures n >= 100
  {
  }

  // ---------------------------------------------------------------------------
  // The stateful scan over the datasheet's matches
  // ---------------------------------------------------------------------------

  /** Stripped parts with the empty ones dropped: `[c.strip() for c in parts if c.strip()]`. */
  function NonEmptyStripped(parts: seq<string>): (r: seq<string>)
    ensures |r| <= |parts|
    ensures forall i :: 0 <= i < |r| ==> r[i] != [] && Trimmed(r[i])
  {
    if parts == [] then []
    else
      var t := Strip(parts[0]);
      var rest := NonEmptyStripped(parts[1..]);
      if t != [] then [t] + rest else rest
  }

  /** A character no part holds is in no kept part. */
  lemma {:induction false} NonEmptyStrippedAvoids(parts: seq<string>, c: char)
    requires forall j :: 0 <= j < |parts| ==> c !in parts[j]
    ensures forall i :: 0 <= i < |NonEmptyStripped(parts)| ==> c !in NonEmptyStripped(parts)[i]
  {
    if parts != [] {
      NonEmptyStrippedAvoids(parts[1..], c);
      assert c !in Strip(parts[0]);
    }
  }

  /** Stripping parts works part by part: the kept parts of a concatenation are the kept parts of each, in order. */
  lemma {:induction false} NonEmptyStrippedAppend(a: seq<string>, b: seq<string>)
    ensures NonEmptyStripped(a + b) == NonEmptyStripped(a) + NonEmptyStripped(b)
  {
    if a == [] {
      assert a + b == b;
    } else {
      assert (a + b)[0] == a[0] && (a + b)[1..] == a[1..] + b;
      NonEmptyStrippedAppend(a[1..], b);
    }
  }

  /** One part is kept, stripped, exactly when its strip is non-empty. */
  lemma NonEmptyStrippedOne(p: string)
    ensures NonEmptyStripped([p]) == if Strip(p) != [] then [Strip(p)] else []
  {
    assert [p][1..] == [];
  }

  /**
   * The type codes of a context line ("SA and TA", "TE, TF and TG"): "and"
   * becomes ",", the text is split on ",", and the stripped non-empty parts
   * are kept in order. No code is empty, has surrounding whitespace or holds
   * a comma.
   */
  function ParseTypeCodes(captured: string): (codes: seq<string>)
    ensures forall i :: 0 <= i < |codes| ==> codes[i] != [] && Trimmed(codes[i]) && ',' !in codes[i]
  {
    var parts := SplitOn(ReplaceStr(captured, "and", ","), ',');
    NonEmptyStrippedAvoids(parts, ',');
    NonEmptyStripped(parts)
  }

  /** A type code as a context line prints it: non-empty, trimmed, without ',' and without "and". */
  predicate PlainCode(c: string) {
    c != [] && Trimmed(c) && ',' !in c && !Contains(c, "and")
  }

  predicate PlainCodes(cs: seq<string>) {
    forall i :: 0 <= i < |cs| ==> PlainCode(cs[i])
  }

  /**
   * A list of type codes as a context line writes it ("SA and TA",
   * "TE, TF and TG"): `ands[i]` says whether codes `i` and `i + 1` are
   * joined by " and " rather than ", ".
   */
  function CodeList(cs: seq<string>, ands: seq<bool>): string
    requires |cs| == |ands| + 1
    decreases |ands|
  {
    if ands == [] then cs[0] else cs[0] + (if ands[0] then " and " else ", ") + CodeList(cs[1..], ands[1..])
  }

  /** The same list once every "and" has become ",". */
  function CommaList(cs: seq<string>, ands: seq<bool>): string
    requires |cs| == |ands| + 1
    decreases |ands|
  {
    if ands == [] then cs[0] else cs[0] + CommaSep(ands[0]) + CommaList(cs[1..], ands[1..])
  }

  function CommaSep(isAnd: bool): string {
    if isAnd then " , " else ", "
  }

  /** Parsing a written list of codes gives the codes back, in order. */
  lemma ParseTypeCodesOfList(cs: seq<string>, ands: seq<bool>)
    requires |cs| == |ands| + 1 && PlainCodes(cs)
    ensures ParseTypeCodes(CodeList(cs, ands)) == cs
  {
    ReplaceAndInList(cs, ands);
    SplitCommaList(cs, ands, []);
    assert [] + CommaList(cs, ands) == CommaList(cs, ands);
  }

  lemma PlainCodesTail(cs: seq<string>)
    requires |cs| > 0 && PlainCodes(cs)
    ensures PlainCode(cs[0]) && PlainCodes(cs[1..])
  {
    forall i | 0 <= i < |cs| - 1 ensures PlainCode(cs[1..][i]) {
      assert cs[1..][i] == cs[i + 1];
    }
  }

  /** No "and" starts inside a code or at the character after it, when that character is not a letter of "and". */
  lemma NoAndAcross(c: string, x: char, t: string)
    requires !Contains(c, "and") && x != 'a' && x != 'n' && x != 'd'
    ensures forall i :: 0 <= i < |c + [x]| ==> !OccursAt(c + [x] + t, "and", i)
  {
    var s := c + [x] + t;
    forall i | 0 <= i <= |c| ensures !OccursAt(s, "and", i) {
      if i + 3 <= |s| {
        if i + 3 <= |c| {
          assert s[i..i + 3] == c[i..i + 3];
          assert !OccursAt(c, "and", i);
        } else {
          assert s[i..i + 3][|c| - i] == x;
        }
      }
    }
  }

  /** A code joined to the rest by " and ": the "and" becomes "," and the code and spaces are kept. */
  lemma ReplaceAndJoin(c: string, rest: string)
    requires !Contains(c, "and")
    ensures ReplaceStr(c + " and " + rest, "and", ",") == c + " , " + ReplaceStr(rest, "and", ",")
  {
    var tail := "and " + rest;
    var r := ReplaceStr(rest, "and", ",");
    NoAndAcross(c, ' ', tail);
    ReplaceStrPrefix(c + [' '], tail, "and", ",");
    ReplaceAndWord(rest);
    assert c + " and " + rest == c + [' '] + tail;
    assert c + [' '] + (", " + r) == c + " , " + r;
  }

  /** The word "and" and the space after it become ", ". */
  lemma ReplaceAndWord(rest: string)
    ensures ReplaceStr("and " + rest, "and", ",") == ", " + ReplaceStr(rest, "and", ",")
  {
    assert !OccursAt(" " + rest, "and", 0) by {
      if 3 <= |" " + rest| { assert (" " + rest)[0..3][0] == ' '; }
    }
    ReplaceStrHeadThen(" ", rest, "and", ",");
    assert "and " + rest == "and" + (" " + rest);
  }

  /** A code joined to the rest by ", ": nothing before the rest changes. */
  lemma ReplaceCommaJoin(c: string, rest: string)
    requires !Contains(c, "and")
    ensures ReplaceStr(c + ", " + rest, "and", ",") == c + ", " + ReplaceStr(rest, "and", ",")
  {
    var s := c + ", " + rest;
    assert s == c + [','] + (" " + rest);
    NoAndAcross(c, ',', " " + rest);
    assert !OccursAt(s, "and", |c| + 1) by {
      if |c| + 4 <= |s| { assert s[|c| + 1..|c| + 4][0] == ' '; }
    }
    assert s == (c + ", ") + rest;
    ReplaceStrPrefix(c + ", ", rest, "and", ",");
  }

  /** `.replace('and', ',')` turns each " and " of a written list into " , " and touches nothing else. */
  lemma {:induction false} ReplaceAndInList(cs: seq<string>, ands: seq<bool>)
    requires |cs| == |ands| + 1 && PlainCodes(cs)
    ensures ReplaceStr(CodeList(cs, ands), "and", ",") == CommaList(cs, ands)
    decreases |ands|
  {
    PlainCodesTail(cs);
    if ands == [] {
      ReplaceStrAbsent(cs[0], "and", ",");
    } else {
      ReplaceAndInList(cs[1..], ands[1..]);
      if ands[0] {
        ReplaceAndJoin(cs[0], CodeList(cs[1..], ands[1..]));
      } else {
        ReplaceCommaJoin(cs[0], CodeList(cs[1..], ands[1..]));
      }
    }
  }

  /** The first part of a comma list: the padded code, split off at its ','. */
  lemma SplitCommaHead(lead: string, c: string, isAnd: bool, rest: string)
    requires lead == [] || lead == " "
    requires c != [] && Trimmed(c) && ',' !in c
    ensures NonEmptyStripped(SplitOn(lead + (c + CommaSep(isAnd) + rest), ','))
      == [c] + NonEmptyStripped(SplitOn(" " + rest, ','))
  {
    var a: string := if isAnd then " " else [];
    var head := lead + c + a;
    assert lead + (c + CommaSep(isAnd) + rest) == head + [','] + (" " + rest);
    assert ',' !in head;
    SplitOnFirst(head, " " + rest, ',');
    StripPadded(lead, c, a);
    NonEmptyStrippedAppend([head], SplitOn(" " + rest, ','));
    NonEmptyStrippedOne(head);
  }

  /** The last part of a comma list: the padded code alone. */
  lemma SplitCommaLast(lead: string, c: string)
    requires lead == [] || lead == " "
    requires c != [] && Trimmed(c) && ',' !in c
    ensures NonEmptyStripped(SplitOn(lead + c, ',')) == [c]
  {
    assert ',' !in lead + c;
    SplitOnNone(lead + c, ',');
    StripPadded(lead, c, []);
    assert lead + c == lead + c + [];
    NonEmptyStrippedOne(lead + c);
  }

  /** Splitting a comma list on ',' and keeping the stripped non-empty parts gives the codes, whatever space leads it. */
  lemma {:induction false} SplitCommaList(cs: seq<string>, ands: seq<bool>, lead: string)
    requires |cs| == |ands| + 1 && PlainCodes(cs)
    requires lead == [] || lead == " "
    ensures NonEmptyStripped(SplitOn(lead + CommaList(cs, ands), ',')) == cs
    decreases |ands|
  {
    PlainCodesTail(cs);
    if ands == [] {
      SplitCommaLast(lead, cs[0]);
    } else {
      SplitCommaList(cs[1..], ands[1..], " ");
      SplitCommaStep(cs, ands, lead);
    }
  }

  /** One more code in front of a list whose parts already split back into its codes. */
  lemma SplitCommaStep(cs: seq<string>, ands: seq<bool>, lead: string)
    requires |cs| == |ands| + 1 && |ands| > 0
    requires lead == [] || lead == " "
    requires cs[0] != [] && Trimmed(cs[0]) && ',' !in cs[0]
    requires NonEmptyStripped(SplitOn(" " + CommaList(cs[1..], ands[1..]), ',')) == cs[1..]
    ensures NonEmptyStripped(SplitOn(lead + CommaList(cs, ands), ',')) == cs
  {
    var t := CommaList(cs[1..], ands[1..]);
    SplitCommaHead(lead, cs[0], ands[0], t);
    ConsParts(NonEmptyStripped(SplitOn(lead + CommaList(cs, ands), ',')), NonEmptyStripped(SplitOn(" " + t, ',')), cs);
  }

  /** A list that is the first code followed by the rest of the codes is the whole list. */
  lemma ConsParts(p: seq<string>, q: seq<string>, cs: seq<string>)
    requires |cs| > 0 && p == [cs[0]] + q && q == cs[1..]
    ensures p == cs
  {
    assert cs == [cs[0]] + cs[1..];
  }

  /** One match of the master pattern, in document order. */
  datatype Token =
    | Context(typeCodes: string)             // "M27500 Cables—types SA and TA (...)"
    | Header(conductorCount: nat)            // "Dimensions and Weight—4 Conductor Cables"
    | DataRow(fields: seq<Option<string>>)   // the five captured fields of a table row

  /** `current_context`: the conductor count and the active type codes. */
  datatype ScanState = ScanState(conductorCount: nat, typeCodes: seq<string>)

  const DataHeaders: seq<string> := ["AWG Size", "Stranding", "Shield Diameter", "Jacket Diameter", "Weight"]

  /** How a match updates the context. */
  function Step(st: ScanState, t: Token): ScanState {
    match t
    case Context(c) => if c != [] then st.(typeCodes := ParseTypeCodes(c)) else st
    case Header(n) => st.(conductorCount := n)
    case DataRow(_) => st
  }

  /** One normalised row per active type code, in order. */
  function RowsFor(row: map<string, string>, count: nat, typeCodes: seq<string>): (rows: seq<NormRow>)
    ensures |rows| == |typeCodes|
    decreases |typeCodes|
  {
    if typeCodes == [] then []
    else RowsFor(row, count, typeCodes[..|typeCodes| - 1]) + [NormalizeSpec(row, count, typeCodes[|typeCodes| - 1])]
  }

  /** Row `j` is the row normalised for type code `j`. */
  lemma {:induction false} RowsForAt(row: map<string, string>, count: nat, typeCodes: seq<string>, j: nat)
    requires j < |typeCodes|
    ensures RowsFor(row, count, typeCodes)[j] == NormalizeSpec(row, count, typeCodes[j])
    decreases |typeCodes|
  {
    if j < |typeCodes| - 1 {
      RowsForAt(row, count, typeCodes[..|typeCodes| - 1], j);
    }
  }

  /** The rows for one more type code. */
  lemma RowsForNext(row: map<string, string>, count: nat, typeCodes: seq<string>, j: nat)
    requires j < |typeCodes|
    ensures RowsFor(row, count, typeCodes[..j + 1]) == RowsFor(row, count, typeCodes[..j]) + [NormalizeSpec(row, count, typeCodes[j])]
  {
    assert typeCodes[..j + 1][..j] == typeCodes[..j];
  }

  /** What a match contributes to the results in a given context. */
  function Emit(st: ScanState, t: Token): seq<NormRow> {
    match t
    case DataRow(fields) =>
      if st.conductorCount > 0 && st.typeCodes != [] then RowsFor(ZipRow(DataHeaders, CleanItems(fields)), st.conductorCount, st.typeCodes) else []
    case _ => []
  }

  /** The context after, and the results of, a prefix of the matches. */
  function ScanSpec(tokens: seq<Token>): (ScanState, seq<NormRow>)
    decreases |tokens|
  {
    if tokens == [] then (ScanState(0, []), [])
    else
      var prev := ScanSpec(tokens[..|tokens| - 1]);
      var t := tokens[|tokens| - 1];
      (Step(prev.0, t), prev.1 + Emit(prev.0, t))
  }

  /** The inner loop: normalise a cleaned row once per active type code. */
  method NormalizeForCodes(row: map<string, string>, count: nat, typeCodes: seq<string>) returns (rows: seq<NormRow>)
    ensures rows == RowsFor(row, count, typeCodes)
  {
    rows := [];
    var j := 0;
    while j < |typeCodes|
      invariant 0 <= j <= |typeCodes|
      invariant rows == RowsFor(row, count, typeCodes[..j])
    {
      var n := Normalize(row, count, typeCodes[j]);
      RowsForNext(row, count, typeCodes, j);
      rows := rows + [n];
      j := j + 1;
    }
    assert typeCodes[..j] == typeCodes;
  }

  /** The scan of one more match. */
  lemma ScanSpecNext(tokens: seq<Token>, i: nat)
    requires i < |tokens|
    ensures ScanSpec(tokens[..i + 1]) ==
      (Step(ScanSpec(tokens[..i]).0, tokens[i]), ScanSpec(tokens[..i]).1 + Emit(ScanSpec(tokens[..i]).0, tokens[i]))
  {
    assert tokens[..i + 1][..i] == tokens[..i];
  }

  /** The body of the scan loop: one match updates the context or emits rows. */
  method ScanMatch(context: ScanState, t: Token) returns (next: ScanState, added: seq<NormRow>)
    ensures next == Step(context, t) && added == Emit(context, t)
  {
    next := context;
    added := [];
    match t {
      case Context(c) =>
        if c != [] {
          next := context.(typeCodes := ParseTypeCodes(c));
        }
      case Header(n) =>
        next := context.(conductorCount := n);
      case DataRow(fields) =>
        if context.conductorCount > 0 && context.typeCodes != [] {
          var row := CleanMatchRow(fields, DataHeaders);
          added := NormalizeForCodes(row, context.conductorCount, context.typeCodes);
        }
    }
  }

  /** The scan loop of `extract_datasheet_info_27500`. */
  method Scan(tokens: seq<Token>) returns (results: seq<NormRow>)
    ensures results == ScanSpec(tokens).1
  {
    var context := ScanState(0, []);
    results := [];
    var i := 0;
    while i < |tokens|
      invariant 0 <= i <= |tokens|
      invariant ScanSpec(tokens[..i]) == (context, results)
    {
      ScanSpecNext(tokens, i);
      var added;
      context, added := ScanMatch(context, tokens[i]);
      results := results + added;
      i := i + 1;
    }
    assert tokens[..i] == tokens;
  }

  /** A header fixes the conductor count until the next header. */
  lemma {:induction false} ScanCountIsLatestHeader(tokens: seq<Token>, i: nat)
    requires i < |tokens| && tokens[i].Header?
    requires forall j :: i < j < |tokens| ==> !tokens[j].Header?
    ensures ScanSpec(tokens).0.conductorCount == tokens[i].conductorCount
    decreases |tokens|
  {
    if i < |tokens| - 1 {
      var init := tokens[..|tokens| - 1];
      assert init[i] == tokens[i];
      ScanCountIsLatestHeader(init, i);
    }
  }

  /** Before any header the conductor count is 0, so no data row emits anything. */
  lemma {:induction false} ScanCountWithoutHeader(tokens: seq<Token>)
    requires forall j :: 0 <= j < |tokens| ==> !tokens[j].Header?
    ensures ScanSpec(tokens).0.conductorCount == 0
    ensures ScanSpec(tokens).1 == []
    decreases |tokens|
  {
    if tokens != [] {
      var init := tokens[..|tokens| - 1];
      ScanCountWithoutHeader(init);
    }
  }

  /** A context with codes fixes the type codes until the next such context. */
  lemma {:induction false} ScanCodesAreLatestContext(tokens: seq<Token>, i: nat)
    requires i < |tokens| && tokens[i].Context? && tokens[i].typeCodes != []
    requires forall j :: i < j < |tokens| ==> !(tokens[j].Context? && tokens[j].typeCodes != [])
    ensures ScanSpec(tokens).0.typeCodes == ParseTypeCodes(tokens[i].typeCodes)
    decreases |tokens|
  {
    if i < |tokens| - 1 {
      var init := tokens[..|tokens| - 1];
      assert init[i] == tokens[i];
      ScanCodesAreLatestContext(init, i);
    }
  }

  /** Before any context with codes the type code list is empty, so no data row emits anything. */
  lemma {:induction false} ScanCodesWithoutContext(tokens: seq<Token>)
    requires forall j :: 0 <= j < |tokens| ==> !(tokens[j].Context? && tokens[j].typeCodes != [])
    ensures ScanSpec(tokens).0.typeCodes == []
    ensures ScanSpec(tokens).1 == []
    decreases |tokens|
  {
    if tokens != [] {
      var init := tokens[..|tokens| - 1];
      ScanCodesWithoutContext(init);
    }
  }

  /**
   * A data row leaves the context alone and appends one row per active type
   * code, in list order, each with the current conductor count; it appends
   * nothing when the count is 0 or there are no type codes.
   */
  lemma ScanDataRow(tokens: seq<Token>, fields: seq<Option<string>>)
    ensures var st := ScanSpec(tokens).0;
      var after := ScanSpec(tokens + [DataRow(fields)]);
      var added := after.1[|ScanSpec(tokens).1|..];
      && after.0 == st
      && |ScanSpec(tokens).1| <= |after.1| && after.1[..|ScanSpec(tokens).1|] == ScanSpec(tokens).1
      && |added| == (if st.conductorCount > 0 && st.typeCodes != [] then |st.typeCodes| else 0)
      && forall j :: 0 <= j < |added| ==>
           added[j].typeCode == st.typeCodes[j] && added[j].conductorCount == st.conductorCount
  {
    var ts := tokens + [DataRow(fields)];
    assert ts[..|tokens|] == tokens;
    var st := ScanSpec(tokens).0;
    var added := ScanSpec(ts).1[|ScanSpec(tokens).1|..];
    if st.conductorCount > 0 && st.typeCodes != [] {
      var row := ZipRow(DataHeaders, CleanItems(fields));
      assert added == RowsFor(row, st.conductorCount, st.typeCodes);
      forall j | 0 <= j < |added|
        ensures added[j].typeCode == st.typeCodes[j] && added[j].conductorCount == st.conductorCount
      {
        RowsForAt(row, st.conductorCount, st.typeCodes, j);
      }
    }
  }

  // ---------------------------------------------------------------------------
  // Final cable records
  // ---------------------------------------------------------------------------

  /** The core list: conductors "1".."n" of the type's component wire. */
  function CoresFor(row: NormRow): (cores: seq<Core>)
    ensures |cores| == row.conductorCount
    ensures forall i :: 0 <= i < |cores| ==> cores[i].coreId == NatToString(i + 1)
  {
    var spec := ComponentSpec(row.typeCode).GetOr("UNKNOWN");
    seq(row.conductorCount, i requires 0 <= i < row.conductorCount =>
      Core(NatToString(i + 1), 0.5, 0.1, "Code " + NatToString(i + 1) + " (M27500)",
           PyStr(row.awgSize), "Plated Copper (from " + spec + ")", map[]))
  }

  /** The id of a part number: `"m27500-" + pn.replace('/', '-').lower()`. */
  function CableIdFor(pn: string): (id: string)
    ensures StartsWith(id, "m27500-") && '/' !in id && NoUpper(id)
    ensures |id| == 7 + |pn|
    ensures forall i :: 0 <= i < |pn| ==> id[7 + i] == LowerChar(if pn[i] == '/' then '-' else pn[i])
  {
    var tail := Lower(ReplaceChar(pn, '/', '-'));
    assert '/' !in tail by {
      forall i | 0 <= i < |tail| ensures tail[i] != '/' {
        assert tail[i] == LowerChar(ReplaceChar(pn, '/', '-')[i]);
      }
    }
    "m27500-" + tail
  }

  /** One record of `transform_to_core_format_27500`. */
  function CableFor(row: NormRow): (c: Cable)
    ensures |c.cores| == row.conductorCount
    ensures c.hasShield <==> row.shieldCode != "U" && row.shieldCode != "u"
    ensures c.shieldType == (if c.hasShield then 1 else 0)
    ensures var e := (row.jacketDiameter.metric - row.shieldDiameter.metric) / 2.0;
      c.jacketThickness == (if e > 0.0 then e else 0.0)
    ensures c.jacketThickness >= 0.0
    ensures c.specifiedOuterDiameter == row.jacketDiameter.metric
    ensures c.shieldThickness == 0.0 && c.shieldCoverage == 90 && !c.hasDrainWire && c.cableType == 2
    ensures c.cableId == CableIdFor(row.fullPartNumber) && c.partNumber == row.fullPartNumber
  {
    var spec := ComponentSpec(row.typeCode).GetOr("UNKNOWN");
    var jacketDesc := JacketMaterial(row.jacketCode).GetOr("Code " + row.jacketCode);
    var shieldDesc := ShieldMaterial(row.shieldCode).GetOr("Code " + row.shieldCode);
    var shielded := row.shieldCode != "U" && row.shieldCode != "u";
    var od := row.jacketDiameter.metric;
    var estimate := (od - row.shieldDiameter.metric) / 2.0;
    var count := NatToString(row.conductorCount);
    Cable(
      CableIdFor(row.fullPartNumber), row.fullPartNumber, "Thermax (Implied)",
      "MIL-DTL-27500 " + count + "C " + PyStr(row.awgSize) + "AWG Cable Type " + row.typeCode,
      2, CoresFor(row),
      if estimate > 0.0 then estimate else 0.0,
      "White/Clear (Code dependent)",
      shielded, if shielded then 1 else 0, 0.0, 90, false, 0.0, false, od,
      Some("MIL-DTL-27500 Cable: " + count + " conductors of " + spec + " wire, Stranding " + PyStr(row.stranding) + "."),
      map["JacketMaterial" := JStr(jacketDesc), "ShieldMaterial" := JStr(shieldDesc),
          "Weight (kg/km)" := JReal(row.weight.metric)])
  }

  /** `transform_to_core_format_27500`: one record per normalised row, in order. */
  method Transform(rows: seq<NormRow>) returns (cables: seq<Cable>)
    ensures |cables| == |rows|
    ensures forall i :: 0 <= i < |rows| ==> cables[i] == CableFor(rows[i])
  {
    cables := [];
    var i := 0;
    while i < |rows|
      invariant 0 <= i <= |rows|
      invariant |cables| == i
      invariant forall k :: 0 <= k < i ==> cables[k] == CableFor(rows[k])
    {
      cables := cables + [CableFor(rows[i])];
      i := i + 1;
    }
  }

  /** The core ids of a record are pairwise distinct. */
  lemma CoreIdsDistinct(row: NormRow, i: nat, j: nat)
    requires i < j < row.conductorCount
    ensures CableFor(row).cores[i].coreId != CableFor(row).cores[j].coreId
  {
    if NatToString(i + 1) == NatToString(j + 1) {
      NatToStringInjective(i + 1, j + 1);
    }
  }

  /**
   * For a normalised row the shield flag is decided by the type code alone:
   * a type with table defaults is shielded (code 'N', described as "Code
   * N"), any other is not (code 'U', described as "None"); the jacket
   * material always comes from the jacket table.
   */
  lemma ShieldFollowsTypeCode(row: NormRow)
    requires (row.shieldCode, row.jacketCode) == DefaultCodes(row.typeCode)
    ensures var c := CableFor(row);
      && (c.hasShield <==> TypeDefaults(row.typeCode).Some?)
      && c.extras["ShieldMaterial"] == JStr(if c.hasShield then "Code N" else "None")
      && JacketMaterial(row.jacketCode).Some?
      && c.extras["JacketMaterial"] == JStr(JacketMaterial(row.jacketCode).value)
  {
    DefaultCodesInTables(row.typeCode);
  }
}
