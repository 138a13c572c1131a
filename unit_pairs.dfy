/**
 * `parse_unit_pair`: a datasheet cell such as `0.125 (3.18)` becomes a pair
 * of US and metric values. The MIL-DTL-27500 and MIL-W-22759 extractors
 * differ only in what a lone number means for the metric half.
 */
module UnitPairs {
  import opened Wrappers
  import opened Text

  /** The `{"us": .., "metric": ..}` dictionary; both keys are always present. */
  datatype UnitPair = UnitPair(us: real, metric: real)

  const Zero := UnitPair(0.0, 0.0)

  /** What a single number without a parenthesised metric value stands for. */
  datatype SingleValuePolicy =
    | InchesToMillimetres  // MIL-DTL-27500: metric = us / 25.4
    | MetricUnknown        // MIL-W-22759: metric = 0.0

  /**
   * The anchored shape `[0-9.]+ \s* ( [0-9.]+ )` at the start of `s`:
   * the two number texts, or None. Text after the `)` is ignored, as
   * `re.match` only anchors the start.
   */
  function MatchPair(s: string): (r: Option<(string, string)>)
    ensures r.Some? ==> |r.value.0| > 0 && |r.value.1| > 0
    ensures r.Some? ==> forall i :: 0 <= i < |r.value.0| ==> IsNumChar(r.value.0[i])
    ensures r.Some? ==> StartsWith(s, r.value.0)
  {
    var a := Run(s, 0, NumChars);
    RunSpan(s, 0, NumChars);
    var sp := Run(s, a, Spaces);
    var open := a + sp;
    if a == 0 || open == |s| || s[open] != '(' then None
    else
      var b := Run(s, open + 1, NumChars);
      var close := open + 1 + b;
      if b == 0 || close == |s| || s[close] != ')' then None
      else
        Some((s[..a], s[open + 1..close]))
  }

  function SingleValue(policy: SingleValuePolicy, x: real): UnitPair {
    match policy
    case InchesToMillimetres => UnitPair(x, x / 25.4)
    case MetricUnknown => UnitPair(x, 0.0)
  }

  /**
   * `parse_unit_pair(data_str)`: an `a (b)` cell gives both numbers (or zero
   * when either fails to convert), otherwise a lone number is read by the
   * policy, otherwise zero. Every value it produces is non-negative.
   */
  function ParseUnitPair(policy: SingleValuePolicy, cell: string): (r: UnitPair)
    ensures r.us >= 0.0 && r.metric >= 0.0
  {
    var s := Strip(cell);
    match MatchPair(s)
    case Some((a, b)) =>
      (match (ParseDecimal(a), ParseDecimal(b))
       case (Some(x), Some(y)) => UnitPair(x, y)
       case _ => Zero)
    case None =>
      (match ParseDecimal(s)
       case Some(x) => SingleValue(policy, x)
       case None => Zero)
  }

  lemma MatchPairCell(a: string, gap: string, b: string)
    requires |a| > 0 && |b| > 0
    requires forall i :: 0 <= i < |a| ==> IsNumChar(a[i])
    requires forall i :: 0 <= i < |b| ==> IsNumChar(b[i])
    requires forall i :: 0 <= i < |gap| ==> IsSpace(gap[i])
    ensures MatchPair(a + gap + "(" + b + ")") == Some((a, b))
  {
    var s := a + gap + "(" + b + ")";
    var open := |a| + |gap|;
    var close := open + 1 + |b|;
    CellNumberRun(a, gap, b);
    CellGapRun(a, gap, b);
    CellMetricRun(a, gap, b);
    MatchPairAt(s, |a|, open, close);
    assert s[..|a|] == a;
    assert s[open + 1..close] == b;
  }

  /** In `a gap (b)`, the leading number run is exactly `a`. */
  lemma CellNumberRun(a: string, gap: string, b: string)
    requires forall i :: 0 <= i < |a| ==> IsNumChar(a[i])
    requires forall i :: 0 <= i < |gap| ==> IsSpace(gap[i])
    ensures Run(a + gap + "(" + b + ")", 0, NumChars) == |a|
  {
    var s := a + gap + "(" + b + ")";
    assert forall m :: 0 <= m < |a| ==> s[m] == a[m];
    assert !IsNumChar(s[|a|]) by {
      if |gap| > 0 { assert s[|a|] == gap[0]; } else { assert s[|a|] == '('; }
    }
    RunOver(s, 0, |a|, NumChars);
  }

  /** In `a gap (b)`, the whitespace run after `a` is exactly `gap`. */
  lemma CellGapRun(a: string, gap: string, b: string)
    requires forall i :: 0 <= i < |gap| ==> IsSpace(gap[i])
    ensures Run(a + gap + "(" + b + ")", |a|, Spaces) == |gap|
  {
    var s := a + gap + "(" + b + ")";
    var open := |a| + |gap|;
    assert forall m :: |a| <= m < open ==> s[m] == gap[m - |a|];
    assert s[open] == '(';
    RunOver(s, |a|, open, Spaces);
  }

  /** In `a gap (b)`, the number run after the parenthesis is exactly `b`. */
  lemma CellMetricRun(a: string, gap: string, b: string)
    requires forall i :: 0 <= i < |b| ==> IsNumChar(b[i])
    ensures var p := a + gap + "("; Run(p + b + ")", |p|, NumChars) == |b|
  {
    NumberRunBefore(a + gap + "(", b, ')');
  }

  /** A number text followed by a non-number character is one whole run. */
  lemma NumberRunBefore(p: string, b: string, c: char)
    requires forall i :: 0 <= i < |b| ==> IsNumChar(b[i])
    requires !IsNumChar(c)
    ensures Run(p + b + [c], |p|, NumChars) == |b|
  {
    var s := p + b + [c];
    forall m | |p| <= m < |p| + |b| ensures InClass(NumChars, s[m]) {
      assert s[m] == b[m - |p|];
    }
    RunOver(s, |p|, |p| + |b|, NumChars);
  }

  lemma MatchPairAt(s: string, na: nat, open: nat, close: nat)
    requires 0 < na <= open < close < |s|
    requires Run(s, 0, NumChars) == na && Run(s, na, Spaces) == open - na
    requires s[open] == '(' && s[close] == ')'
    requires Run(s, open + 1, NumChars) == close - open - 1 > 0
    ensures MatchPair(s) == Some((s[..na], s[open + 1..close]))
  {
  }

  /** `"a (b)"`, with any whitespace before the `(`, gives `{us: a, metric: b}` under both policies. */
  lemma ParsePairCell(policy: SingleValuePolicy, a: string, gap: string, b: string, x: real, y: real)
    requires ParseDecimal(a) == Some(x) && ParseDecimal(b) == Some(y)
    requires forall i :: 0 <= i < |gap| ==> IsSpace(gap[i])
    ensures ParseUnitPair(policy, a + gap + "(" + b + ")") == UnitPair(x, y)
  {
    var s := a + gap + "(" + b + ")";
    GraphicNotSpace(a[0]);
    GraphicNotSpace(')');
    assert s[0] == a[0] && s[|s| - 1] == ')';
    assert Trimmed(s);
    MatchPairCell(a, gap, b);
  }

  /** A lone number x gives `{x, x/25.4}` in MIL-DTL-27500 and `{x, 0.0}` in MIL-W-22759. */
  lemma ParseSingleNumber(policy: SingleValuePolicy, cell: string, x: real)
    requires ParseDecimal(Strip(cell)) == Some(x)
    ensures ParseUnitPair(policy, cell) == SingleValue(policy, x)
    ensures policy == InchesToMillimetres ==> ParseUnitPair(policy, cell) == UnitPair(x, x / 25.4)
    ensures policy == MetricUnknown ==> ParseUnitPair(policy, cell) == UnitPair(x, 0.0)
  {
    var s := Strip(cell);
    assert Run(s, 0, NumChars) == |s| by { RunOver(s, 0, |s|, NumChars); }
  }

  /** A cell without any digit is neither a pair nor a number: it gives `{0.0, 0.0}`. */
  lemma ParseNoDigits(policy: SingleValuePolicy, cell: string)
    requires forall i :: 0 <= i < |cell| ==> !IsDigit(cell[i])
    ensures ParseUnitPair(policy, cell) == Zero
  {
    var s := Strip(cell);
    assert forall i :: 0 <= i < |s| ==> !IsDigit(s[i]);
    match MatchPair(s)
    case Some((a, b)) =>
      assert a == s[..|a|];
      NoDigitsNoDecimal(a);
    case None =>
      NoDigitsNoDecimal(s);
  }

  /** A trimmed cell that is neither `a (b)` nor a plain decimal gives `{0.0, 0.0}`. */
  lemma ParseNeitherForm(policy: SingleValuePolicy, cell: string)
    requires MatchPair(Strip(cell)).None? && ParseDecimal(Strip(cell)).None?
    ensures ParseUnitPair(policy, cell) == Zero
  {
  }

  /** An `a (b)` cell whose `a` or `b` is not a decimal (such as "1.2.3") gives `{0.0, 0.0}`. */
  lemma ParseBadGroup(policy: SingleValuePolicy, cell: string)
    requires MatchPair(Strip(cell)).Some?
    requires ParseDecimal(MatchPair(Strip(cell)).value.0).None? || ParseDecimal(MatchPair(Strip(cell)).value.1).None?
    ensures ParseUnitPair(policy, cell) == Zero
  {
  }

  /**
   * `"a (b)"` where `a` is made of digits and dots but `float` rejects it
   * (as it rejects "1.2.3") matches the pair pattern and gives `{0.0, 0.0}`.
   */
  lemma ParsePairCellBadNumber(policy: SingleValuePolicy, a: string, gap: string, b: string)
    requires |a| > 0 && (forall i :: 0 <= i < |a| ==> IsNumChar(a[i])) && ParseDecimal(a).None?
    requires |b| > 0 && forall i :: 0 <= i < |b| ==> IsNumChar(b[i])
    requires forall i :: 0 <= i < |gap| ==> IsSpace(gap[i])
    ensures ParseUnitPair(policy, a + gap + "(" + b + ")") == Zero
  {
    var s := a + gap + "(" + b + ")";
    GraphicNotSpace(a[0]);
    GraphicNotSpace(')');
    assert s[0] == a[0] && s[|s| - 1] == ')';
    assert Trimmed(s);
    MatchPairCell(a, gap, b);
    ParseBadGroup(policy, s);
  }

  lemma NoDigitsNoDecimal(s: string)
    requires forall i :: 0 <= i < |s| ==> !IsDigit(s[i])
    ensures ParseDecimal(s) == None
  {
  }

  /** A listed field as the normalisers store it: parsed when present, else `{0.0, 0.0}`. */
  function FieldOrZero(policy: SingleValuePolicy, row: map<string, string>, field: string): UnitPair {
    if field in row then ParseUnitPair(policy, row[field]) else Zero
  }

  /**
   * The dictionary of parsed fields the normalisers' field loop builds:
   * each listed field, in order, set to its parsed cell or to `{0.0, 0.0}`.
   */
  function ParsedFields(policy: SingleValuePolicy, row: map<string, string>, fields: seq<string>): (parsed: map<string, UnitPair>)
    ensures parsed.Keys == set f | f in fields
    decreases |fields|
  {
    if fields == [] then map[]
    else
      var last := fields[|fields| - 1];
      ParsedFields(policy, row, fields[..|fields| - 1])[last := FieldOrZero(policy, row, last)]
  }

  /** Every listed field holds its parsed cell when the row has it, else `{0.0, 0.0}`. */
  lemma {:induction false} ParsedFieldsValue(policy: SingleValuePolicy, row: map<string, string>, fields: seq<string>, f: string)
    requires f in fields
    ensures ParsedFields(policy, row, fields)[f] == FieldOrZero(policy, row, f)
    ensures f in row ==> ParsedFields(policy, row, fields)[f] == ParseUnitPair(policy, row[f])
    ensures f !in row ==> ParsedFields(policy, row, fields)[f] == Zero
    decreases |fields|
  {
    var init := fields[..|fields| - 1];
    if f != fields[|fields| - 1] {
      assert f in init by {
        var k :| 0 <= k < |fields| && fields[k] == f;
        assert init[k] == f;
      }
      ParsedFieldsValue(policy, row, init, f);
    }
  }

  /**
   * The normalisers' field loop: each listed field is parsed when the row has
   * it and is `{0.0, 0.0}` when it does not; no other key is written.
   */
  method ParseUnitFields(policy: SingleValuePolicy, row: map<string, string>, fields: seq<string>)
    returns (parsed: map<string, UnitPair>)
    ensures parsed == ParsedFields(policy, row, fields)
    ensures parsed.Keys == set f | f in fields
    ensures forall f :: f in fields && f in row ==> parsed[f] == ParseUnitPair(policy, row[f])
    ensures forall f :: f in fields && f !in row ==> parsed[f] == Zero
    ensures forall f :: f in fields ==> parsed[f] == FieldOrZero(policy, row, f)
  {
    parsed := map[];
    var i := 0;
    while i < |fields|
      invariant 0 <= i <= |fields|
      invariant parsed == ParsedFields(policy, row, fields[..i])
    {
      var field := fields[i];
      ParsedFieldsSnoc(policy, row, fields, i);
      if field in row {
        parsed := parsed[field := ParseUnitPair(policy, row[field])];
      } else {
        parsed := parsed[field := Zero];
      }
      i := i + 1;
    }
    assert fields[..i] == fields;
    ParsedFieldsValues(policy, row, fields);
  }

  /** One more field of the list: its value is written over the dictionary of the fields before it. */
  lemma ParsedFieldsSnoc(policy: SingleValuePolicy, row: map<string, string>, fields: seq<string>, i: nat)
    requires i < |fields|
    ensures ParsedFields(policy, row, fields[..i + 1]) ==
      ParsedFields(policy, row, fields[..i])[fields[i] := FieldOrZero(policy, row, fields[i])]
  {
    assert fields[..i + 1][..i] == fields[..i];
  }

  /** `ParsedFieldsValue` for every listed field at once. */
  lemma ParsedFieldsValues(policy: SingleValuePolicy, row: map<string, string>, fields: seq<string>)
    ensures forall f :: f in fields && f in row ==> ParsedFields(policy, row, fields)[f] == ParseUnitPair(policy, row[f])
    ensures forall f :: f in fields && f !in row ==> ParsedFields(policy, row, fields)[f] == Zero
    ensures forall f :: f in fields ==> ParsedFields(policy, row, fields)[f] == FieldOrZero(policy, row, f)
  {
    forall f | f in fields ensures ParsedFields(policy, row, fields)[f] == FieldOrZero(policy, row, f) {
      ParsedFieldsValue(policy, row, fields, f);
    }
  }
}
