/**
 * The library merger (Datasheets/merge_cable_libraries.py): every record
 * of the datasheet libraries is cut down to the standard cable and core
 * keys, and the libraries are concatenated in file order with the first
 * record of each CableId winning. A library file is `None` when it is
 * missing; a record is a JSON object.
 */
module Merge {
  import opened Wrappers
  import opened Records

  type Entry = map<string, Json>

  // ---------------------------------------------------------------------------
  // filter_cable_entry
  // ---------------------------------------------------------------------------

  /** A core object restricted to the six standard core keys. */
  function FilterCore(core: Entry): (r: Entry)
    ensures r.Keys == core.Keys * CoreKeys
    ensures forall k :: k in r ==> r[k] == core[k]
  {
    map k | k in core && k in CoreKeys :: core[k]
  }

  /**
   * The core objects `for core in cable["Cores"]` walks, or `None` where
   * that loop fails: a list of objects gives its objects; an empty object
   * or empty string gives nothing to walk; any other value either cannot
   * be iterated or yields items without `.items()`.
   */
  function CoreObjects(v: Json): (r: Option<seq<Entry>>)
    ensures v.JList? && (forall i :: 0 <= i < |v.items| ==> v.items[i].JObj?) ==> r.Some? && |r.value| == |v.items|
  {
    match v
    case JList(items) =>
      if forall i :: 0 <= i < |items| ==> items[i].JObj? then
        Some(seq(|items|, i requires 0 <= i < |items| => items[i].fields))
      else None
    case JObj(f) => if f == map[] then Some([]) else None
    case JStr(s) => if s == "" then Some([]) else None
    case _ => None
  }

  /** A record whose "Cores" value, if any, can be filtered. */
  predicate CoresWellFormed(cable: Entry) {
    "Cores" in cable ==> CoreObjects(cable["Cores"]).Some?
  }

  /** The filtered core list: each core restricted, in order. */
  function FilteredCores(cores: seq<Entry>): (js: seq<Json>)
    ensures |js| == |cores|
  {
    seq(|cores|, i requires 0 <= i < |cores| => JObj(FilterCore(cores[i])))
  }

  /** The value the filter stores under an allowed key of the record. */
  function FilteredValue(cable: Entry, k: string): Json
    requires k in cable && CoresWellFormed(cable)
  {
    if k == "Cores" then JList(FilteredCores(CoreObjects(cable["Cores"]).value)) else cable[k]
  }

  /** The filter applied for the keys in `ks`. */
  function FilterOn(cable: Entry, ks: set<string>): Entry
    requires CoresWellFormed(cable)
  {
    map k | k in ks && k in cable :: FilteredValue(cable, k)
  }

  /** `filter_cable_entry(cable)`: the record restricted to the seventeen standard cable keys. */
  function FilterCable(cable: Entry): Entry
    requires CoresWellFormed(cable)
  {
    FilterOn(cable, CableKeys)
  }

  /** The per-core loop of `filter_cable_entry`, appending one restricted core at a time. */
  method FilterCores(cores: seq<Entry>) returns (out: seq<Json>)
    ensures out == FilteredCores(cores)
  {
    out := [];
    var i := 0;
    while i < |cores|
      invariant 0 <= i <= |cores|
      invariant |out| == i
      invariant forall j :: 0 <= j < i ==> out[j] == JObj(FilterCore(cores[j]))
    {
      var filteredCore := map k | k in cores[i] && k in CoreKeys :: cores[i][k];
      out := out + [JObj(filteredCore)];
      i := i + 1;
    }
  }

  /**
   * `filter_cable_entry`: the loop over the allowed keys, in whatever
   * order the set yields them, copying each key the record has.
   */
  method FilterCableEntry(cable: Entry) returns (filtered: Entry)
    requires CoresWellFormed(cable)
    ensures filtered == FilterCable(cable)
  {
    filtered := map[];
    var remaining := CableKeys;
    while remaining != {}
      invariant remaining <= CableKeys
      invariant filtered == FilterOn(cable, CableKeys - remaining)
      decreases remaining
    {
      var key :| key in remaining;
      ghost var done := CableKeys - remaining;
      if key in cable {
        if key == "Cores" {
          var cores := FilterCores(CoreObjects(cable["Cores"]).value);
          filtered := filtered["Cores" := JList(cores)];
        } else {
          filtered := filtered[key := cable[key]];
        }
        assert filtered == FilterOn(cable, done)[key := FilteredValue(cable, key)];
      }
      remaining := remaining - {key};
      assert CableKeys - remaining == done + {key};
    }
  }

  /**
   * The filtered record holds exactly the allowed keys the record has,
   * with their values unchanged apart from "Cores", whose list keeps its
   * length and order with each core restricted to the core keys.
   */
  lemma FilterCableShape(cable: Entry)
    requires CoresWellFormed(cable)
    ensures FilterCable(cable).Keys == cable.Keys * CableKeys
    ensures forall k :: k in FilterCable(cable) && k != "Cores" ==> FilterCable(cable)[k] == cable[k]
    ensures "Cores" in cable ==>
      var cores := CoreObjects(cable["Cores"]).value;
      var out := FilterCable(cable)["Cores"];
      && out.JList? && |out.items| == |cores|
      && forall i :: 0 <= i < |cores| ==> out.items[i] == JObj(FilterCore(cores[i]))
  {
  }

  /** A filtered record can be filtered again and is left as it is. */
  lemma FilterCableIdempotent(cable: Entry)
    requires CoresWellFormed(cable)
    ensures CoresWellFormed(FilterCable(cable))
    ensures FilterCable(FilterCable(cable)) == FilterCable(cable)
  {
    var f := FilterCable(cable);
    if "Cores" in cable {
      var cores := CoreObjects(cable["Cores"]).value;
      var once := FilteredCores(cores);
      assert f["Cores"] == JList(once);
      var again := CoreObjects(JList(once)).value;
      assert |again| == |cores|;
      forall i | 0 <= i < |cores| ensures FilterCore(again[i]) == FilterCore(cores[i]) {
        assert again[i] == FilterCore(cores[i]);
      }
      assert FilteredCores(again) == once;
    }
    assert FilterCable(f) == f;
  }

  // ---------------------------------------------------------------------------
  // The merge loop of merge_json_files
  // ---------------------------------------------------------------------------

  /** `cable.get("CableId")` when it is a string. */
  function IdOf(cable: Entry): Option<string> {
    if "CableId" in cable && cable["CableId"].JStr? then Some(cable["CableId"].s) else None
  }

  /** The CableId is present and truthy: a non-empty string. */
  predicate HasId(cable: Entry) {
    IdOf(cable).Some? && IdOf(cable).value != ""
  }

  /**
   * What the merge loop expects of a record: a CableId that is a string or
   * null, and a "Cores" value the filter can walk.
   */
  predicate Mergeable(cable: Entry) {
    CoresWellFormed(cable)
    && ("CableId" in cable ==> cable["CableId"].JStr? || cable["CableId"].JNull?)
  }

  predicate AllMergeable(cs: seq<Entry>) {
    forall i :: 0 <= i < |cs| ==> Mergeable(cs[i])
  }

  /** The truthy CableIds of a list of records (`cable_ids` after adding them). */
  function IdSet(cs: seq<Entry>): set<string>
  {
    if cs == [] then {}
    else IdSet(cs[..|cs| - 1]) + (if HasId(cs[|cs| - 1]) then {IdOf(cs[|cs| - 1]).value} else {})
  }

  /** The records of the files that exist, in file order. */
  function Flatten(files: seq<Option<seq<Entry>>>): seq<Entry>
  {
    if files == [] then []
    else Flatten(files[..|files| - 1]) + files[|files| - 1].GetOr([])
  }

  predicate FilesMergeable(files: seq<Option<seq<Entry>>>) {
    AllMergeable(Flatten(files))
  }

  /** One iteration: append the filtered record iff its id is truthy and unseen. */
  function Step(acc: seq<Entry>, cable: Entry): seq<Entry>
    requires Mergeable(cable)
  {
    if HasId(cable) && IdOf(cable).value !in IdSet(acc) then acc + [FilterCable(cable)] else acc
  }

  /** The merge loop run over a sequence of records. */
  function Merged(cs: seq<Entry>): seq<Entry>
    requires AllMergeable(cs)
  {
    if cs == [] then [] else Step(Merged(cs[..|cs| - 1]), cs[|cs| - 1])
  }

  /** The `{"Cables": list}` document written out. */
  function Document(cables: seq<Entry>): Json {
    JObj(map["Cables" := JList(seq(|cables|, i requires 0 <= i < |cables| => JObj(cables[i])))])
  }

  /**
   * The inner loop of `merge_json_files` over the records of one file:
   * append the filtered record and remember its id when the id is truthy
   * and unseen.
   */
  method MergeFile(allCables: seq<Entry>, cableIds: set<string>, ghost before: seq<Entry>, cables: seq<Entry>)
    returns (merged: seq<Entry>, ids: set<string>)
    requires AllMergeable(before + cables)
    requires AllMergeable(before) && allCables == Merged(before) && cableIds == IdSet(allCables)
    ensures merged == Merged(before + cables) && ids == IdSet(merged)
  {
    merged, ids := allCables, cableIds;
    assert before + cables[..0] == before;
    var j := 0;
    while j < |cables|
      invariant 0 <= j <= |cables|
      invariant AllMergeable(before + cables[..j])
      invariant merged == Merged(before + cables[..j])
      invariant ids == IdSet(merged)
    {
      var cable := cables[j];
      MergedNext(before, cables, j);
      if HasId(cable) && IdOf(cable).value !in ids {
        var filtered := FilterCableEntry(cable);
        FilterKeepsId(cable);
        IdSetAppend(merged, filtered);
        merged := merged + [filtered];
        ids := ids + {IdOf(cable).value};
      }
      j := j + 1;
    }
    assert cables[..j] == cables;
  }

  /**
   * `merge_json_files`, given the three library files (`None` for a file
   * that does not exist): returns the merged records and the document.
   */
  method MergeJsonFiles(files: seq<Option<seq<Entry>>>) returns (allCables: seq<Entry>, doc: Json)
    requires FilesMergeable(files)
    ensures allCables == Merged(Flatten(files))
    ensures doc == Document(allCables)
  {
    allCables := [];
    var cableIds: set<string> := {};
    var f := 0;
    while f < |files|
      invariant 0 <= f <= |files|
      invariant FilesMergeable(files[..f])
      invariant allCables == Merged(Flatten(files[..f]))
      invariant cableIds == IdSet(allCables)
    {
      FlattenPrefixMergeable(files, f + 1);
      assert Flatten(files[..f + 1]) == Flatten(files[..f]) + files[f].GetOr([]) by {
        assert files[..f + 1][..f] == files[..f];
      }
      if files[f].Some? {
        allCables, cableIds := MergeFile(allCables, cableIds, Flatten(files[..f]), files[f].value);
      } else {
        assert Flatten(files[..f + 1]) == Flatten(files[..f]) + [];
        assert Flatten(files[..f]) + [] == Flatten(files[..f]);
      }
      f := f + 1;
    }
    assert files[..f] == files;
    doc := Document(allCables);
  }

  lemma FlattenPrefixMergeable(files: seq<Option<seq<Entry>>>, n: nat)
    requires FilesMergeable(files) && n <= |files|
    ensures FilesMergeable(files[..n])
    decreases |files| - n
  {
    if n < |files| {
      FlattenPrefixMergeable(files, n + 1);
      assert files[..n + 1][..n] == files[..n];
      var a := Flatten(files[..n]);
      var b := Flatten(files[..n + 1]);
      assert b == a + files[n].GetOr([]);
      forall i | 0 <= i < |a| ensures Mergeable(a[i]) {
        assert a[i] == b[i];
      }
    } else {
      assert files[..n] == files;
    }
  }

  lemma MergedNext(before: seq<Entry>, cables: seq<Entry>, j: nat)
    requires j < |cables| && AllMergeable(before + cables)
    ensures Mergeable(cables[j])
    ensures AllMergeable(before + cables[..j]) && AllMergeable(before + cables[..j + 1])
    ensures Merged(before + cables[..j + 1]) == Step(Merged(before + cables[..j]), cables[j])
  {
    var x := before + cables[..j];
    var y := before + cables[..j + 1];
    assert (before + cables)[|before| + j] == cables[j];
    forall i | 0 <= i < |y| ensures Mergeable(y[i]) {
      assert y[i] == (before + cables)[i];
    }
    assert y[..|y| - 1] == x;
    assert y[|y| - 1] == cables[j];
  }

  lemma IdSetAppend(acc: seq<Entry>, c: Entry)
    ensures IdSet(acc + [c]) == IdSet(acc) + (if HasId(c) then {IdOf(c).value} else {})
  {
    assert (acc + [c])[..|acc|] == acc;
  }

  /** The filter keeps the CableId as it is. */
  lemma FilterKeepsId(cable: Entry)
    requires CoresWellFormed(cable)
    ensures IdOf(FilterCable(cable)) == IdOf(cable)
  {
    assert "CableId" in CableKeys;
  }

  // ---------------------------------------------------------------------------
  // What the merge promises
  // ---------------------------------------------------------------------------

  /** Record `i` is the first with its truthy CableId. */
  predicate FirstOccurrence(cs: seq<Entry>, i: nat)
    requires i < |cs|
  {
    HasId(cs[i]) && forall j :: 0 <= j < i ==> IdOf(cs[j]) != IdOf(cs[i])
  }

  /**
   * The reference the merge is measured against: the filtered first
   * occurrence of every truthy CableId, in input order.
   */
  function Firsts(cs: seq<Entry>): seq<Entry>
    requires AllMergeable(cs)
  {
    if cs == [] then []
    else Firsts(cs[..|cs| - 1]) + (if FirstOccurrence(cs, |cs| - 1) then [FilterCable(cs[|cs| - 1])] else [])
  }

  /** A truthy id is in `IdSet(cs)` exactly when some record of `cs` carries it. */
  lemma {:induction false} IdSetMember(cs: seq<Entry>, x: string)
    ensures x in IdSet(cs) <==> exists j :: 0 <= j < |cs| && HasId(cs[j]) && IdOf(cs[j]).value == x
  {
    if cs != [] {
      var p := cs[..|cs| - 1];
      IdSetMember(p, x);
      if x in IdSet(p) {
        var j :| 0 <= j < |p| && HasId(p[j]) && IdOf(p[j]).value == x;
        assert cs[j] == p[j];
      }
      if exists j :: 0 <= j < |cs| && HasId(cs[j]) && IdOf(cs[j]).value == x {
        var j :| 0 <= j < |cs| && HasId(cs[j]) && IdOf(cs[j]).value == x;
        if j < |p| {
          assert p[j] == cs[j];
        }
      }
    }
  }

  /** The last record is admitted exactly when it is the first with its id. */
  lemma AdmittedIffFirst(cs: seq<Entry>)
    requires cs != []
    ensures var c := cs[|cs| - 1];
      (HasId(c) && IdOf(c).value !in IdSet(cs[..|cs| - 1])) <==> FirstOccurrence(cs, |cs| - 1)
  {
    var p := cs[..|cs| - 1];
    var c := cs[|cs| - 1];
    if HasId(c) {
      IdSetMember(p, IdOf(c).value);
      if IdOf(c).value in IdSet(p) {
        var j :| 0 <= j < |p| && HasId(p[j]) && IdOf(p[j]).value == IdOf(c).value;
        assert cs[j] == p[j];
      } else {
        forall j | 0 <= j < |cs| - 1 ensures IdOf(cs[j]) != IdOf(c) {
          assert cs[j] == p[j];
        }
      }
    }
  }

  /**
   * The merge keeps exactly the first record of each truthy CableId,
   * filtered, in input order; its ids are the truthy ids of the input.
   */
  lemma {:induction false} MergedIsFirsts(cs: seq<Entry>)
    requires AllMergeable(cs)
    ensures Merged(cs) == Firsts(cs)
    ensures IdSet(Merged(cs)) == IdSet(cs)
  {
    if cs != [] {
      var p := cs[..|cs| - 1];
      var c := cs[|cs| - 1];
      MergedIsFirsts(p);
      AdmittedIffFirst(cs);
      if HasId(c) && IdOf(c).value !in IdSet(p) {
        FilterKeepsId(c);
        IdSetAppend(Merged(p), FilterCable(c));
      } else if HasId(c) {
        assert IdSet(cs) == IdSet(p) + {IdOf(c).value};
      }
    }
  }

  /** The first record with a given truthy CableId is kept, filtered. */
  lemma {:induction false} FirstOccurrenceKept(cs: seq<Entry>, i: nat)
    requires AllMergeable(cs) && i < |cs| && FirstOccurrence(cs, i)
    ensures FilterCable(cs[i]) in Merged(cs)
  {
    MergedIsFirsts(cs);
    FirstOccurrenceInFirsts(cs, i);
  }

  lemma {:induction false} FirstOccurrenceInFirsts(cs: seq<Entry>, i: nat)
    requires AllMergeable(cs) && i < |cs| && FirstOccurrence(cs, i)
    ensures FilterCable(cs[i]) in Firsts(cs)
  {
    var p := cs[..|cs| - 1];
    if i < |cs| - 1 {
      assert p[i] == cs[i];
      assert FirstOccurrence(p, i) by {
        forall j | 0 <= j < i ensures IdOf(p[j]) != IdOf(p[i]) { assert p[j] == cs[j]; }
      }
      FirstOccurrenceInFirsts(p, i);
    }
  }

  /** The merged records carry truthy, pairwise distinct CableIds. */
  lemma {:induction false} MergedIdsDistinct(cs: seq<Entry>)
    requires AllMergeable(cs)
    ensures forall i :: 0 <= i < |Merged(cs)| ==> HasId(Merged(cs)[i])
    ensures forall i, j :: 0 <= i < j < |Merged(cs)| ==> IdOf(Merged(cs)[i]) != IdOf(Merged(cs)[j])
  {
    if cs != [] {
      var p := cs[..|cs| - 1];
      var c := cs[|cs| - 1];
      var prev := Merged(p);
      MergedIdsDistinct(p);
      if HasId(c) && IdOf(c).value !in IdSet(prev) {
        FilterKeepsId(c);
        var out := prev + [FilterCable(c)];
        IdSetMember(prev, IdOf(c).value);
        forall i, j | 0 <= i < j < |out| ensures IdOf(out[i]) != IdOf(out[j]) {
          if j == |prev| {
            assert out[i] == prev[i];
          } else {
            assert out[i] == prev[i] && out[j] == prev[j];
          }
        }
        forall i | 0 <= i < |out| ensures HasId(out[i]) {
          if i < |prev| { assert out[i] == prev[i]; }
        }
      }
    }
  }

  /** The merge yields one record per distinct truthy CableId of the input. */
  lemma {:induction false} MergedCount(cs: seq<Entry>)
    requires AllMergeable(cs)
    ensures |Merged(cs)| == |IdSet(cs)|
  {
    if cs != [] {
      var p := cs[..|cs| - 1];
      var c := cs[|cs| - 1];
      MergedCount(p);
      MergedIsFirsts(p);
      if HasId(c) && IdOf(c).value !in IdSet(Merged(p)) {
        assert Merged(cs) == Merged(p) + [FilterCable(c)];
        assert IdSet(cs) == IdSet(p) + {IdOf(c).value};
      } else {
        assert Merged(cs) == Merged(p);
        assert IdSet(cs) == IdSet(p);
      }
    }
  }

  /** Records with truthy, pairwise distinct CableIds. */
  predicate DuplicateFree(cs: seq<Entry>) {
    && (forall i :: 0 <= i < |cs| ==> HasId(cs[i]))
    && (forall i, j :: 0 <= i < j < |cs| ==> IdOf(cs[i]) != IdOf(cs[j]))
  }

  lemma {:induction false} DuplicateFreeIdCount(cs: seq<Entry>)
    requires DuplicateFree(cs)
    ensures |IdSet(cs)| == |cs|
  {
    if cs != [] {
      var p := cs[..|cs| - 1];
      var c := cs[|cs| - 1];
      assert DuplicateFree(p) by {
        forall i | 0 <= i < |p| ensures HasId(p[i]) { assert p[i] == cs[i]; }
        forall i, j | 0 <= i < j < |p| ensures IdOf(p[i]) != IdOf(p[j]) {
          assert p[i] == cs[i] && p[j] == cs[j];
        }
      }
      DuplicateFreeIdCount(p);
      IdSetMember(p, IdOf(c).value);
      forall j | 0 <= j < |p| ensures IdOf(p[j]) != IdOf(c) {
        assert p[j] == cs[j];
      }
      assert IdSet(cs) == IdSet(p) + {IdOf(c).value};
    }
  }

  lemma {:induction false} IdSetConcat(a: seq<Entry>, b: seq<Entry>)
    ensures IdSet(a + b) == IdSet(a) + IdSet(b)
    decreases |b|
  {
    if b != [] {
      var b' := b[..|b| - 1];
      IdSetConcat(a, b');
      assert (a + b)[..|a + b| - 1] == a + b';
      assert (a + b)[|a + b| - 1] == b[|b| - 1];
    } else {
      assert a + b == a;
    }
  }

  /**
   * Merging two duplicate-free libraries A then B yields
   * |A| + |B| - |ids(A) ∩ ids(B)| records.
   */
  lemma MergeTwoCount(a: seq<Entry>, b: seq<Entry>)
    requires DuplicateFree(a) && DuplicateFree(b) && AllMergeable(a) && AllMergeable(b)
    ensures AllMergeable(a + b)
    ensures |Merged(a + b)| == |a| + |b| - |IdSet(a) * IdSet(b)|
  {
    assert AllMergeable(a + b) by {
      forall i | 0 <= i < |a + b| ensures Mergeable((a + b)[i]) {
        if i < |a| { assert (a + b)[i] == a[i]; } else { assert (a + b)[i] == b[i - |a|]; }
      }
    }
    MergedCount(a + b);
    IdSetConcat(a, b);
    DuplicateFreeIdCount(a);
    DuplicateFreeIdCount(b);
  }

  /** A missing file contributes nothing: removing it leaves the merged records unchanged. */
  lemma {:induction false} MissingFileSkipped(before: seq<Option<seq<Entry>>>, after: seq<Option<seq<Entry>>>)
    ensures Flatten(before + [None] + after) == Flatten(before + after)
    decreases |after|
  {
    if after == [] {
      assert before + [None] + after == before + [None];
      assert (before + [None])[..|before|] == before;
      assert before + [] == before;
    } else {
      var a' := after[..|after| - 1];
      MissingFileSkipped(before, a');
      assert (before + [None] + after)[..|before + [None] + after| - 1] == before + [None] + a';
      assert (before + after)[..|before + after| - 1] == before + a';
      assert (before + [None] + after)[|before + [None] + after| - 1] == after[|after| - 1];
      assert (before + after)[|before + after| - 1] == after[|after| - 1];
    }
  }

  /** The document is an object with the single key "Cables" listing the merged records in order. */
  lemma DocumentShape(cables: seq<Entry>)
    ensures Document(cables).JObj? && Document(cables).fields.Keys == {"Cables"}
    ensures var l := Document(cables).fields["Cables"];
      l.JList? && |l.items| == |cables| && forall i :: 0 <= i < |cables| ==> l.items[i] == JObj(cables[i])
  {
  }
}
