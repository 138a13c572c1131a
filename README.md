# Cable datasheet extraction, merging and M22759 generation

This project is a Dafny model of the data-preparation scripts of
CableConcentricityCalculator. These scripts build the JSON cable library
that the calculator reads.

- Three extractors turn tables found in vendor and military datasheets
  into cable records:
  - `Datasheets/LAPPRegex.py`: the LAPP catalogue (ETHERLINE, PROFIBUS,
    DeviceNet and ÖLFLEX layouts);
  - `Datasheets/MIL-DTL-27500Regex.py`: MIL-DTL-27500 multi-core cables;
  - `Datasheets/MIL-DTL-22759Regex.py`: MIL-W-22759 hook-up wire.

  Each extractor matches rows, cleans the captured fields, normalises the
  row (gauge, pairing, conductor count, `US (metric)` unit pairs, codes)
  and assembles the final record with its per-core geometry.
- `Datasheets/TestRegex.py` is the earlier single-layout ETHERLINE
  extractor.
- `Datasheets/merge_cable_libraries.py` merges the extractors' JSON files
  into one library. It filters every record and every core to the allowed
  keys and keeps only the first record for each `CableId`.
- `generate_m22759.py` builds one record per wire of a hard-coded table of
  33 M22759 slash sheets. It appends them to the library.

## Modules

| file | module | models |
|---|---|---|
| `wrappers.dfy` | `Wrappers` | `Option`, used for Python's `None` and for the failure paths |
| `text.dfy` | `Text` | the Python string operations the scripts use (`strip`, `split`, `" ".join`, `re.sub(r'\s+', ' ', ..)`, `replace`, `lower`, `upper`, `isdigit`, `int`, `float`) |
| `rows.dfy` | `Rows` | field cleaning in `clean_match_row` and `dict(zip(headers, values))` |
| `records.dfy` | `Records` | JSON values, the core and cable records, and their JSON objects |
| `unit_pairs.dfy` | `UnitPairs` | `parse_unit_pair` of both MIL extractors (the two single-value policies) and the loop over the unit fields |
| `m27500.dfy` | `M27500` | the MIL-DTL-27500 code tables, part number assembly, normalisation, the context scan and the transform |
| `lapp.dfy` | `Lapp` | the LAPP normaliser, row cleaning, the four family guards, core layout, the packing model and the transform |
| `m22759.dfy` | `M22759` | the MIL-W-22759 extractor: row cleaning, the MIL spec search, the high-strength filter, colour codes and the transform |
| `test_regex.dfy` | `TestRegex` | the ETHERLINE prototype's per-field cleaning |
| `merge.dfy` | `Merge` | `filter_cable_entry` and `merge_json_files` |
| `generator.dfy` | `Generator` | the M22759 slash table, `create_cable_entry`, the generation loop and the append to the library |

Regular-expression matching is not modelled as an engine. The matches of
each row pattern (`re.findall`, `re.finditer`) are inputs: each match is a
sequence of captured strings. The small `re.search` and `re.match` checks
inside the normalisers are written out as scanners over the string. These
are the AWG, pair and conductor-count searches, the `US (metric)` pair
match, the MIL spec search and the trailing colour code.

Identifiers are handled differently by the two library writers.
`Datasheets/merge_cable_libraries.py:65` keeps only the first cable of
each id, while `generate_m22759.py:657` extends the loaded library
without checking for ids already in it. The model follows the code:
`AppendGenerated` extends the library as it is, and what is proved is
that the generated records are unique among themselves
(`GeneratedIdsDistinct`).

## Model

| member | source | states |
|---|---|---|
| Text.Strip | Datasheets/LAPPRegex.py:99 | `str.strip()` leaves no whitespace at either end, never lengthens, and leaves a trimmed string as it is |
| Text.StripKeepsChars | Datasheets/LAPPRegex.py:99 | stripping only removes characters: every character kept was in the input |
| Text.CollapseSpacesShape | Datasheets/LAPPRegex.py:101 | `re.sub(r'\s+', ' ', s)`: only single spaces remain as whitespace, never two in a row, and the result starts with a space exactly when the input starts with whitespace |
| Text.SplitWs | Datasheets/TestRegex.py:44 | `str.split()` yields non-empty words without whitespace |
| Text.SplitWsStrip | Datasheets/TestRegex.py:38-44 | stripping before `split()` does not change the words |
| Text.SplitWsJoinSpaces | Datasheets/TestRegex.py:44 | `" ".join(ws).split() == ws` for non-empty words without whitespace |
| Text.CollapseStripIsJoinSplit | Datasheets/MIL-DTL-27500Regex.py:117-119 | strip followed by whitespace collapsing equals `" ".join(s.split())` |
| Text.CollapseReplaceSpace | Datasheets/MIL-DTL-27500Regex.py:118-119 | replacing `\n` by a space before collapsing whitespace changes nothing |
| Text.ReplaceCharReplacesAll | Datasheets/MIL-DTL-27500Regex.py:304 | `replace(a, b)` for single characters leaves no `a` when `b` differs, and leaves a text without `a` unchanged |
| Text.RemoveChar | Datasheets/LAPPRegex.py:162 | `replace(c, '')`: no `c` is left, the string shrinks exactly when it held a `c`, and is unchanged otherwise |
| Text.RemoveCharKeepsOthers | Datasheets/LAPPRegex.py:162 | `replace(c, '')` keeps every other character exactly as often as before: the result's multiset is the input's with the count of `c` set to zero |
| Text.RemoveCharAppend | Datasheets/LAPPRegex.py:162 | removing `c` from `a + b` is removing it from `a` and from `b` and joining the results |
| Text.Lower | Datasheets/MIL-DTL-27500Regex.py:304 | `lower()` maps every character and leaves no capital letter |
| Text.Upper | Datasheets/LAPPRegex.py:89-90 | `upper()` maps every character by the upper-case mapping and leaves no lower-case letter |
| Text.ReplaceStrAbsent | Datasheets/LAPPRegex.py:90 | `replace(pat, rep)` leaves a string without `pat` unchanged |
| Text.ReplaceStrFirst | Datasheets/MIL-DTL-27500Regex.py:229 | `replace(pat, rep)` with its first occurrence at `j`: the text before `j` is kept, that occurrence becomes `rep`, and the text after it is replaced in turn |
| Text.ReplaceStrPrefix | Datasheets/MIL-DTL-27500Regex.py:229 | a prefix in which no occurrence of `pat` starts is copied unchanged, and the replacement goes on with the text after it |
| Text.Before | Datasheets/LAPPRegex.py:171 | `split(sep)[0]` is the longest prefix without `sep`, ending at the first `sep` |
| Text.SplitOn | Datasheets/MIL-DTL-27500Regex.py:230 | `split(sep)` has at least one part, the first is the text before the first `sep`, and no part holds `sep` |
| Text.SplitOnJoin | Datasheets/MIL-DTL-27500Regex.py:230 | `sep.join(s.split(sep)) == s`: the parts joined on `sep` give the text back |
| Text.SplitOnFirst | Datasheets/MIL-DTL-27500Regex.py:230 | `(x + sep + y).split(sep)` is `x` followed by the parts of `y` when `x` holds no `sep` |
| Text.NatToString | Datasheets/MIL-DTL-27500Regex.py:282 | `str(n)` is digits only, with no leading zero unless it is "0" |
| Text.ParseNatOfNatToString | Datasheets/MIL-DTL-27500Regex.py:162 | `int(str(n)) == n` |
| Text.NatToStringInjective | Datasheets/MIL-DTL-27500Regex.py:282 | different numbers have different decimal strings |
| Text.ParseNatLeadingZero | Datasheets/MIL-DTL-27500Regex.py:162 | a leading zero does not change `int(s)` |
| Text.ParseDecimal | Datasheets/MIL-DTL-27500Regex.py:96-97 | `float(s)` on plain decimals succeeds only on a non-empty `[0-9.]` string holding a digit, and gives a non-negative value |
| Text.ParseDecimalOfDigits | Datasheets/MIL-DTL-27500Regex.py:96-97 | `float(s)` of a string of digits is the integer those digits write |
| Text.ParseDecimalOfPoint | Datasheets/MIL-DTL-27500Regex.py:96-97 | `float(w + "." + f)` for digit strings `w` and `f`, not both empty, is `int(w) + int(f) / 10^len(f)` (`DecimalValue`) |
| Text.ParseDecimalOfNatToString | Datasheets/LAPPRegex.py:231 | `float(str(n)) == n` |
| Rows.CleanCaptureIsJoinedWords | Datasheets/MIL-DTL-27500Regex.py:117-119 | cleaning a captured field (strip, newline to space, collapse whitespace) equals joining its words by single spaces |
| Rows.CleanCaptureShape | Datasheets/LAPPRegex.py:99-101 | a cleaned field is trimmed, holds only single spaces as whitespace, never two in a row, and keeps the words of the capture |
| Rows.CleanCaptureIdempotent | Datasheets/MIL-DTL-22759Regex.py:59-61 | cleaning a cleaned field changes nothing |
| Rows.CleanCaptureOfJoined | Datasheets/MIL-DTL-22759Regex.py:59-61 | words already joined by single spaces are a fixed point of cleaning |
| Rows.CleanCaptureOfWord | Datasheets/MIL-DTL-22759Regex.py:59-61 | a single word is its own cleaned form |
| Rows.CleanCaptureOfStripped | Datasheets/MIL-DTL-22759Regex.py:59 | stripping first and then cleaning equals cleaning |
| Rows.ZipRow | Datasheets/LAPPRegex.py:108 | `dict(zip(headers, values))` has exactly the headers that have a value as keys (the surplus of the longer list is dropped) |
| Rows.ZipRowLookup | Datasheets/LAPPRegex.py:108 | with distinct headers, each header maps to the value at its own position |
| Records.CoreToJson | generate_m22759.py:596-609 | a core's JSON object has the six standard keys plus its extra keys, with `CoreId` and `Gauge` as strings |
| Records.CoresToJson | generate_m22759.py:595-610 | one JSON object per core, in order, each with the six standard core keys plus the core's extra keys and its id under `CoreId` |
| Records.CableToJson | generate_m22759.py:589-622 | a cable's object holds `CableId`, the `Cores` list of core objects, and `Description` exactly when the record has one |
| UnitPairs.MatchPair | Datasheets/MIL-DTL-27500Regex.py:92 | `re.match(r'([0-9\.]+)\s*\(([\d\.]+)\)')`: a match has two non-empty groups, the first a `[0-9.]` prefix of the cell |
| UnitPairs.MatchPairCell | Datasheets/MIL-DTL-27500Regex.py:92 | the pattern matches `"a (b)"` with any whitespace before the `(` and captures `a` and `b` |
| UnitPairs.MatchPairAt | Datasheets/MIL-DTL-27500Regex.py:92 | the pattern's groups sit at the positions where the number runs end |
| UnitPairs.ParseUnitPair | Datasheets/MIL-DTL-27500Regex.py:84-107 | both values of a parsed pair are non-negative, and both keys are always present |
| UnitPairs.ParsePairCell | Datasheets/MIL-DTL-27500Regex.py:94-98 | `"x (y)"` with two decimals gives `{us: x, metric: y}` under both policies |
| UnitPairs.ParseSingleNumber | Datasheets/MIL-DTL-27500Regex.py:102-105 | a lone number x gives `{x, x/25.4}` for MIL-DTL-27500 and `{x, 0.0}` for MIL-W-22759 (MIL-DTL-22759Regex.py:46-49) |
| UnitPairs.ParseNoDigits | Datasheets/MIL-DTL-27500Regex.py:103-107 | a cell without any digit gives `{0.0, 0.0}` |
| UnitPairs.ParseNeitherForm | Datasheets/MIL-DTL-27500Regex.py:103-107 | a stripped cell that neither matches `a (b)` nor reads as a decimal gives `{0.0, 0.0}` |
| UnitPairs.ParseBadGroup | Datasheets/MIL-DTL-27500Regex.py:94-100 | a cell matching `a (b)` where `float` rejects either group gives `{0.0, 0.0}` |
| UnitPairs.ParsePairCellBadNumber | Datasheets/MIL-DTL-27500Regex.py:94-100 | a cell `a (b)` whose `a` has only digits and dots but is no decimal (such as `1.2.3`) matches the pair pattern and gives `{0.0, 0.0}` |
| Text.TwoPointsNotDecimal | Datasheets/MIL-DTL-27500Regex.py:96 | `float("1.2.3")` fails |
| UnitPairs.ParsedFields | Datasheets/MIL-DTL-27500Regex.py:144-148 | the unit fields of a normalised row are exactly the listed fields |
| UnitPairs.ParsedFieldsValue | Datasheets/MIL-DTL-27500Regex.py:144-148 | a listed field holds its parsed cell when the row has it, else `{0.0, 0.0}` |
| UnitPairs.ParsedFieldsValues | Datasheets/MIL-DTL-27500Regex.py:144-148 | every listed field holds its parsed cell when the row has it, else `{0.0, 0.0}` |
| UnitPairs.ParseUnitFields | Datasheets/MIL-DTL-27500Regex.py:138-148 | the loop over the unit fields stores exactly the listed fields, each parsed when present and `{0.0, 0.0}` when absent |
| M27500.DefaultCodes | Datasheets/MIL-DTL-27500Regex.py:72-80 | a type code's default shield code is nickel `N`, or the pair is the fallback (`U`, `00`) |
| M27500.DefaultCodesPtfe | Datasheets/MIL-DTL-27500Regex.py:60-62 | SA, TA, RC, RE, VA, WA, LE, LH default to (`N`, `06`) |
| M27500.DefaultCodesEtfe | Datasheets/MIL-DTL-27500Regex.py:64-66 | TE, TF, TG, TH, TK, TL, TM, TN default to (`N`, `14`) |
| M27500.DefaultCodesPolyimide | Datasheets/MIL-DTL-27500Regex.py:68-69 | WB, WC, WE default to (`N`, `24`) |
| M27500.DefaultCodesFallback | Datasheets/MIL-DTL-27500Regex.py:77-80 | every other type code gets (`U`, `00`) |
| M27500.DefaultCodesInTables | Datasheets/MIL-DTL-27500Regex.py:29-80 | a default jacket code is always in the jacket table; a default shield code is in the shield table exactly when the type has no entry, because `N` is not a listed shield code |
| M27500.Pad2 | Datasheets/MIL-DTL-27500Regex.py:162 | `f"{n:02}"` is digits that read back as `n`: exactly two of them below 10, and `str(n)` from 10 up |
| M27500.AwgCode | Datasheets/MIL-DTL-27500Regex.py:159-167 | a numeric AWG gives digits with the same value: exactly two below 10, `str(int(awg))` from 10 up; otherwise an AWG with a slash gives the AWG with its slashes removed, and any other AWG gives `XX` |
| M27500.AwgCodeSingleDigit | Datasheets/MIL-DTL-27500Regex.py:161-162 | "8" gives "08" |
| M27500.AwgCodeAught | Datasheets/MIL-DTL-27500Regex.py:163-165 | "k/0" gives "k0" |
| M27500.DecodePartNumber | Datasheets/MIL-DTL-27500Regex.py:169-173 | reading a part number of the fixed-width layout succeeds only on 16 characters with a count from 1 to 9 |
| M27500.PartNumberRoundTrip | Datasheets/MIL-DTL-27500Regex.py:170-173 | reading back an assembled part number gives its AWG, type, count, shield and jacket fields |
| M27500.FullPartNumberPrefix | Datasheets/MIL-DTL-27500Regex.py:170-173 | every assembled part number starts with the `M27500-` prefix, whatever its fields |
| M27500.NormalizedPartNumber | Datasheets/MIL-DTL-27500Regex.py:150-173 | for a tabled type, a 1-9 count and a numeric AWG below 100, the full part number reads back as the padded AWG, the type, the count, `N` and the type's jacket code |
| M27500.CleanMatchRow | Datasheets/MIL-DTL-27500Regex.py:109-122 | the row pairs each header with its cleaned capture, `None` becoming "" |
| M27500.CleanRowFields | Datasheets/MIL-DTL-27500Regex.py:112-122 | with distinct headers, a missing capture gives "" and a present one its words joined by single spaces |
| M27500.NormalizeSpec | Datasheets/MIL-DTL-27500Regex.py:124-179 | the normalised row copies `Part Number Base`, `AWG Size` and `Stranding` from the row, keeps the count and type, carries the type's default codes, has a part number starting `M27500-`, and holds for each unit field its parsed cell when the row has it and `{0.0, 0.0}` when not |
| M27500.NormalizedPartNumberDecodes | Datasheets/MIL-DTL-27500Regex.py:153-173 | for any type code of two characters, any count from 1 to 9 and any row whose AWG code has two characters, the full part number reads back as that AWG code, the type, the count and the type's default shield and jacket codes (`U` and `00` for an untabled type) |
| M27500.DefaultPartNumberDecodes | Datasheets/MIL-DTL-27500Regex.py:170-173 | a part number built from a two-character AWG code, a two-character type, a 1-9 count and the type's default codes reads back as those fields |
| M27500.Normalize | Datasheets/MIL-DTL-27500Regex.py:124-179 | the normaliser with its loop over the unit fields computes the normalised row |
| M27500.NonEmptyStripped | Datasheets/MIL-DTL-27500Regex.py:230 | the kept parts are non-empty, trimmed, and no more than the parts |
| M27500.NonEmptyStrippedAppend | Datasheets/MIL-DTL-27500Regex.py:230 | the comprehension over `a + b` is the comprehension over `a` followed by the one over `b` |
| M27500.NonEmptyStrippedOne | Datasheets/MIL-DTL-27500Regex.py:230 | one part gives its stripped text when that is non-empty, and nothing otherwise |
| M27500.NonEmptyStrippedAvoids | Datasheets/MIL-DTL-27500Regex.py:229-230 | a character no part holds is in no kept part |
| M27500.ParseTypeCodes | Datasheets/MIL-DTL-27500Regex.py:227-230 | the type codes of a context are non-empty, trimmed and free of commas |
| M27500.ParseTypeCodesOfList | Datasheets/MIL-DTL-27500Regex.py:229-230 | a written list of codes, each non-empty, trimmed and free of `,` and `and`, joined by `", "` or `" and "`, parses back into exactly those codes in order |
| M27500.RowsFor | Datasheets/MIL-DTL-27500Regex.py:246-255 | a data row gives one normalised row per active type code |
| M27500.RowsForAt | Datasheets/MIL-DTL-27500Regex.py:246-255 | row `j` is the row normalised for type code `j` |
| M27500.NormalizeForCodes | Datasheets/MIL-DTL-27500Regex.py:246-255 | the inner loop produces the rows for the active type codes, in order |
| M27500.ScanMatch | Datasheets/MIL-DTL-27500Regex.py:226-255 | one match updates the context or emits the rows for the context it found |
| M27500.Scan | Datasheets/MIL-DTL-27500Regex.py:218-257 | the scan loop returns the rows the matches emit, in document order |
| M27500.ScanCountIsLatestHeader | Datasheets/MIL-DTL-27500Regex.py:232-234 | the conductor count is the one the latest table header set |
| M27500.ScanCountWithoutHeader | Datasheets/MIL-DTL-27500Regex.py:218-238 | before any table header the count is 0 and no row is emitted |
| M27500.ScanCodesAreLatestContext | Datasheets/MIL-DTL-27500Regex.py:227-230 | the active type codes are those of the latest context with codes |
| M27500.ScanCodesWithoutContext | Datasheets/MIL-DTL-27500Regex.py:218-238 | before any context the type code list is empty and no row is emitted |
| M27500.ScanDataRow | Datasheets/MIL-DTL-27500Regex.py:236-255 | a data row keeps the context and earlier results, and appends one row per active code (none without a count and codes), each with that code and the count |
| M27500.CoresFor | Datasheets/MIL-DTL-27500Regex.py:281-288 | a cable has as many cores as conductors, numbered "1" to "n" |
| M27500.CableIdFor | Datasheets/MIL-DTL-27500Regex.py:304 | the id is `m27500-` followed, character by character, by the part number lower-cased with `/` as `-`; so it has no slashes or capitals |
| M27500.CableFor | Datasheets/MIL-DTL-27500Regex.py:303-324 | the record's core count, shield flag (code other than `U`/`u`), braid shield type, jacket thickness equal to half the jacket-over-shield difference when that is positive and 0.0 otherwise, outer diameter equal to the jacket diameter, zero shield thickness, 90% coverage, no drain, multi-core type, id and part number |
| M27500.Transform | Datasheets/MIL-DTL-27500Regex.py:261-326 | one record per normalised row, in order |
| M27500.CoreIdsDistinct | Datasheets/MIL-DTL-27500Regex.py:281-288 | the core ids of a record are pairwise distinct |
| M27500.ShieldFollowsTypeCode | Datasheets/MIL-DTL-27500Regex.py:291-315 | a cable is shielded exactly when its type has default codes; the shield material is then "Code N" (not in the table), else "None"; the jacket material is always found in the table |
| Lapp.SearchLeftmost | Datasheets/LAPPRegex.py:72 | `re.search` returns the leftmost match |
| Lapp.SearchNone | Datasheets/LAPPRegex.py:72 | when `re.search` fails no position matches |
| Lapp.CountCaptureDigits | Datasheets/LAPPRegex.py:72-81 | the pair and conductor-count searches capture a non-empty digit string |
| Lapp.PairCountOfPr | Datasheets/LAPPRegex.py:72-76 | a description starting `"<digits> pr"` yields those digits as the pair count |
| Lapp.ConductorCountOfC | Datasheets/LAPPRegex.py:78-81 | a description starting `"<digits>C"` yields those digits as the conductor count |
| Lapp.NormalizeOlflexCounts | Datasheets/LAPPRegex.py:49-54 | the ÖLFLEX count field sets the total and, above one, the `nC` pairing |
| Lapp.NormalizeDescription | Datasheets/LAPPRegex.py:57-90 | the description-based branch computes the pairing and total given by `DescriptionCounts` and the AWG of `DescriptionAwg` before its final cleanup |
| Lapp.DescriptionAwgOf | Datasheets/LAPPRegex.py:62-68 | the AWG is the pair gauge with ` AWG` if there is one, else the trimmed size, else `N/A` |
| Lapp.DescriptionCountsOf | Datasheets/LAPPRegex.py:70-86 | a pair notation gives `n pr` and `2n`; otherwise a conductor notation gives `nC` and `n`; DeviceNet overrides both with `2P + 1T` and 5 |
| Lapp.Normalize | Datasheets/LAPPRegex.py:40-92 | `normalize_cable_properties` computes the normalised row |
| Lapp.PairingPrMeansEvenTotal | Datasheets/LAPPRegex.py:72-86 | a pairing in `pr` notation always comes with an even total |
| Lapp.OlflexCountsNotPr | Datasheets/LAPPRegex.py:49-54 | the ÖLFLEX count cell never gives a `pr` pairing |
| Lapp.DescriptionCountsPrEven | Datasheets/LAPPRegex.py:70-86 | from a description, a `pr` pairing comes only from the pair notation, whose total is twice the pair count |
| Lapp.CleanOne | Datasheets/LAPPRegex.py:99-109 | one pass cleans a capture and, for the ÖLFLEX layout, removes `PG thread` |
| Lapp.CleanMatchRow | Datasheets/LAPPRegex.py:95-110 | the row pairs headers with cleaned captures, removes `PG thread` for the ÖLFLEX layout, and records the style |
| Lapp.HeadersDistinct | Datasheets/LAPPRegex.py:118-142 | each layout's headers are distinct and do not include the style key |
| Lapp.CleanRowLookup | Datasheets/LAPPRegex.py:95-110 | with distinct headers, each header holds its cleaned capture and the style key holds the style name |
| Lapp.CleanRowCells | Datasheets/LAPPRegex.py:99-109 | in each layout, a cell is the capture's words joined by single spaces, with `PG thread` also removed for ÖLFLEX |
| Lapp.ExtractMatch | Datasheets/LAPPRegex.py:126-129 | a match adds its normalised row unless the family's guard drops it |
| Lapp.ExtractFamily | Datasheets/LAPPRegex.py:119-146 | a family's loop adds the rows of its admitted matches, in match order |
| Lapp.ExtractDatasheetInfo | Datasheets/LAPPRegex.py:112-148 | the results are the ETHERLINE, PROFIBUS, DeviceNet and ÖLFLEX rows, in that order |
| Lapp.FamilyRowsShape | Datasheets/LAPPRegex.py:119-146 | every row of a family has its style; ETHERLINE and DeviceNet keep every match and the others at most as many rows as matches |
| Lapp.FamilyRowsKeepAll | Datasheets/LAPPRegex.py:119-146 | when no match is dropped, a family has one row per match |
| Lapp.ExtractGroupedByFamily | Datasheets/LAPPRegex.py:112-148 | the results are grouped by family in search order |
| Lapp.ProfibusDropsThickThin | Datasheets/LAPPRegex.py:127 | a PROFIBUS match is dropped exactly when its third capture is "Thick" or "Thin" once stripped |
| Lapp.DeviceNetJacketDefault | Datasheets/LAPPRegex.py:135-136 | an empty DeviceNet jacket capture becomes "Not Specified" |
| Lapp.GaugeTablesAgree | Datasheets/LAPPRegex.py:12-23 | the diameter and insulation tables have the same gauges; both look-ups are positive and fall back to the 22 AWG values |
| Lapp.PairPaletteFlattens | Datasheets/LAPPRegex.py:202 | the pair palette lists each 4-pair colour pair in order, the pair's first colour at even positions |
| Lapp.GaugeOf | Datasheets/LAPPRegex.py:197 | the gauge is the base AWG when that is all digits or `KCMIL`, and `"22"` otherwise; so it is always all digits or `KCMIL` |
| Lapp.Palette | Datasheets/LAPPRegex.py:201-204 | the colour palette is never empty |
| Lapp.PaletteChoice | Datasheets/LAPPRegex.py:201-204 | a `pr` pairing with an even count uses the 8 pair colours; otherwise the 18 multi-conductor colours |
| Lapp.LayoutCores | Datasheets/LAPPRegex.py:178-182 | the DeviceNet layout is cut to the conductor count |
| Lapp.GaugeCores | Datasheets/LAPPRegex.py:206-215 | a single-gauge cable has exactly `n` cores |
| Lapp.BuildLayoutCores | Datasheets/LAPPRegex.py:184-193 | the DeviceNet core loop builds the layout's cores |
| Lapp.BuildGaugeCores | Datasheets/LAPPRegex.py:206-215 | the single-gauge core loop builds `n` cores cycling through the palette |
| Lapp.BuildCores | Datasheets/LAPPRegex.py:173-215 | the core list follows the style's branch |
| Lapp.CoresSpecShape | Datasheets/LAPPRegex.py:173-215 | DeviceNet has at most 5 cores, others exactly `n`; cores are numbered "1" to "n" |
| Lapp.GaugeCoreColours | Datasheets/LAPPRegex.py:196-215 | core `i` has palette colour `i mod |palette|`, the row's gauge, and the 22 AWG dimensions for an unknown gauge |
| Lapp.PairedCoresShareAPair | Datasheets/LAPPRegex.py:201-212 | cores `2j` and `2j+1` of a paired cable take pair-palette slots `2(j mod 4)` and `2(j mod 4)+1`, the two colours of one pair |
| Lapp.PairCoreColour | Datasheets/LAPPRegex.py:201-212 | core `i` of a paired cable has pair-palette colour `i mod 8` |
| Lapp.PairPaletteIffPairNotation | Datasheets/LAPPRegex.py:201 | after normalisation, the pair palette is used exactly when the pairing is in `pr` notation |
| Lapp.PalettesAvoidD | Datasheets/LAPPRegex.py:27-36 | no palette colour starts with `d` or `D` |
| Lapp.GaugeCoresHaveNoDrain | Datasheets/LAPPRegex.py:280 | cores coloured from a palette have no drain |
| Lapp.LayoutDrainIsFifth | Datasheets/LAPPRegex.py:178-182 | the cut layout has a drain exactly when it keeps all five cores |
| Lapp.DrainIffFullDeviceNet | Datasheets/LAPPRegex.py:280-281 | a cable has a drain wire exactly when it is DeviceNet with at least 5 conductors |
| Lapp.MaxCoreOdIsMax | Datasheets/LAPPRegex.py:246 | the maximum core OD bounds every core's OD and is attained |
| Lapp.BundleHoldsEveryCore | Datasheets/LAPPRegex.py:245-255 | the bundle diameter is at least every core's OD |
| Lapp.JacketThicknessFor | Datasheets/LAPPRegex.py:257-261 | the jacket is the larger of 0.5 mm and the residual radial space less the shield |
| Lapp.TransformRow | Datasheets/LAPPRegex.py:161-285 | one row gives its record or is skipped |
| Lapp.Transform | Datasheets/LAPPRegex.py:152-287 | the loop keeps the records of the rows that are not skipped, in order |
| Lapp.LappCableSkips | Datasheets/LAPPRegex.py:166-238 | a row is skipped without a total of at least 1, or with an empty or non-numeric OD; a record's OD is positive |
| Lapp.LappCableIsRecord | Datasheets/LAPPRegex.py:161-285 | a kept row has a total of at least 1 and a positive parsed OD, and its record is built from them |
| Lapp.CableRecordFields | Datasheets/LAPPRegex.py:242-285 | the record's cores and OD, jacket `max(0.5, (OD - bundle)/2 - shield)` over the bundle diameter of its cores (so at least 0.5 mm), shield thickness, type and coverage following the shield flag, drain diameter following the drain flag, no `*` in the part number |
| Lapp.LappCableIdShape | Datasheets/LAPPRegex.py:268 | the id is the family prefix, a dash, and exactly the part number lower-cased without `*` |
| M22759.Headers | Datasheets/MIL-DTL-22759Regex.py:119-124 | each table's headers start with "Part Number" |
| M22759.HeadersDistinct | Datasheets/MIL-DTL-22759Regex.py:119-157 | the headers are distinct, one fewer than the pattern's groups, and end with "Thermax P/N" |
| M22759.CleanMatchRow | Datasheets/MIL-DTL-22759Regex.py:55-66 | the row pairs headers with cleaned captures and records the style |
| M22759.CleanRowCell | Datasheets/MIL-DTL-22759Regex.py:55-66 | each header holds its capture's words joined by single spaces |
| M22759.ZipRowDropsSurplus | Datasheets/MIL-DTL-22759Regex.py:64 | `zip` ignores a value beyond the last header |
| M22759.CleanRowDropsSurplus | Datasheets/MIL-DTL-22759Regex.py:64-65 | the cleaned row ignores the capture beyond the last header |
| M22759.ThermaxHoldsLastMeasurement | Datasheets/MIL-DTL-22759Regex.py:119-140 | with one header fewer than groups, the real Thermax capture is dropped and "Thermax P/N" holds the capture before it |
| M22759.SpecAfter | Datasheets/MIL-DTL-22759Regex.py:106 | a spec found at `i` is the prefix and one or two digits, taking two when they are there; none exactly when the prefix and a digit are not at `i` |
| M22759.MilSpecIndex | Datasheets/MIL-DTL-22759Regex.py:106 | the search finds the leftmost position where a MIL spec starts, or there is none |
| M22759.MilSpecFromIndex | Datasheets/MIL-DTL-22759Regex.py:105-110 | the MIL spec is the one at the leftmost match, else "N/A" |
| M22759.MilSpecShape | Datasheets/MIL-DTL-22759Regex.py:105-110 | the MIL spec is "N/A" when nothing matches, else the leftmost `MIL-W-22759/n` or `MIL-DTL-22759/n` in the part number |
| M22759.MilSpecNeedsL | Datasheets/MIL-DTL-22759Regex.py:106-110 | a part number without `L`, as every `M22759/...` the patterns capture, gets "N/A" |
| M22759.NoSpecWithoutL | Datasheets/MIL-DTL-22759Regex.py:106 | no MIL spec starts anywhere in a text without `L` |
| M22759.Normalize | Datasheets/MIL-DTL-22759Regex.py:68-112 | the normaliser with its loop computes the normalised row |
| M22759.NormalizedMeasurements | Datasheets/MIL-DTL-22759Regex.py:82-103 | each measured field, Break Strength included, is present, non-negative, parsed when in the row and `{0.0, 0.0}` otherwise |
| M22759.KeptMatches | Datasheets/MIL-DTL-22759Regex.py:134-138 | filtering never adds matches |
| M22759.KeptMatchesAppend | Datasheets/MIL-DTL-22759Regex.py:134-138 | the filter works match by match (it distributes over concatenation) |
| M22759.HighStrengthKeepsAll | Datasheets/MIL-DTL-22759Regex.py:159-161 | the high-strength pattern keeps every match |
| M22759.StandardKeepsUnmarked | Datasheets/MIL-DTL-22759Regex.py:135-141 | the standard pattern keeps matches not marked /17, /19 to /23 |
| M22759.StandardDropsMarked | Datasheets/MIL-DTL-22759Regex.py:135-138 | the standard pattern drops marked matches |
| M22759.KeptMatchesPass | Datasheets/MIL-DTL-22759Regex.py:135-138 | every kept match passes the filter |
| M22759.ExtractMatch | Datasheets/MIL-DTL-22759Regex.py:134-141 | a kept match adds its row, a dropped one nothing |
| M22759.ExtractFamily | Datasheets/MIL-DTL-22759Regex.py:134-161 | a pattern's loop adds the rows of its kept matches in order |
| M22759.ExtractDatasheetInfo | Datasheets/MIL-DTL-22759Regex.py:114-163 | the results are the standard rows and then the high-strength rows |
| M22759.RowOfStyle | Datasheets/MIL-DTL-22759Regex.py:140 | a match's row carries its table's style and every field the transform reads |
| M22759.FamilyRowsStyle | Datasheets/MIL-DTL-22759Regex.py:140-161 | every row of a pattern carries that pattern's style |
| M22759.StandardRowsFirst | Datasheets/MIL-DTL-22759Regex.py:114-163 | the kept standard rows come first and the high-strength rows follow, one per match, all ready for the transform |
| M22759.ColourDigit | Datasheets/MIL-DTL-22759Regex.py:186-189 | the colour code taken is a digit |
| M22759.Std104CoversDigits | Datasheets/MIL-DTL-22759Regex.py:12-15 | every digit has a MIL-STD-104 colour |
| M22759.WireColourOfCode | Datasheets/MIL-DTL-22759Regex.py:186-190 | a part number ending `-d` or `-dd` gets the colour of its first digit |
| M22759.WireColourDefault | Datasheets/MIL-DTL-22759Regex.py:186-192 | without a trailing one- or two-digit code the colour is "White" |
| M22759.CableIdFor | Datasheets/MIL-DTL-22759Regex.py:207 | the id is `m22759-` followed, character by character, by the part number lower-cased with `/` and space as `-`; so it has no capitals, slashes or spaces |
| M22759.InsulationThickness | Datasheets/MIL-DTL-22759Regex.py:183-198 | the wall is non-negative, positive exactly when the maximum OD exceeds the conductor, and then rebuilds the OD |
| M22759.CableFor | Datasheets/MIL-DTL-22759Regex.py:174-229 | one core "1" with the row's conductor diameter, the wall `InsulationThickness` of the row's maximum insulation diameter and conductor diameter, and the row's gauge, whose colour is also the jacket colour, from the part number; the id and part number without `*`; type 1 without shield, drain or filler; no jacket; the OD is the maximum insulation diameter |
| M22759.Transform | Datasheets/MIL-DTL-22759Regex.py:167-231 | one record per row, in order |
| M22759.WallRebuildsDiameter | Datasheets/MIL-DTL-22759Regex.py:179-198 | the wall is positive exactly when the row's maximum insulation diameter exceeds its conductor diameter, and then the wall plus the conductor gives back the record's OD |
| TestRegex.CleanFields | Datasheets/TestRegex.py:35-46 | one cleaned field per capture |
| TestRegex.CleanMatch | Datasheets/TestRegex.py:35-46 | the per-field cleaning loop computes the cleaned fields |
| TestRegex.RecordFor | Datasheets/TestRegex.py:36-48 | one match becomes the record pairing the headers with its cleaned fields |
| TestRegex.ExtractDatasheetInfo | Datasheets/TestRegex.py:9-51 | one record per match, in order, each pairing the headers with the cleaned fields |
| TestRegex.HeadersDistinct | Datasheets/TestRegex.py:29-33 | the twelve headers are distinct |
| TestRegex.RecordShape | Datasheets/TestRegex.py:48 | a full match gives a record with exactly the twelve headers, each holding its cleaned field |
| TestRegex.CleanFieldTrimmed | Datasheets/TestRegex.py:37-46 | every cleaned field is trimmed |
| TestRegex.StarlessFieldsHaveNoStar | Datasheets/TestRegex.py:39-41 | Construction and Jacket Material hold no `*` |
| TestRegex.OtherFieldsOnlyTrimmed | Datasheets/TestRegex.py:38 | the other fields, Approvals aside, are only stripped |
| TestRegex.ApprovalsCollapsed | Datasheets/TestRegex.py:42-44 | Approvals is cleaned like a captured field: same words, single spaces only |
| TestRegex.StarlessFieldFixed | Datasheets/TestRegex.py:39-41 | a trimmed field without `*` is left as it is |
| TestRegex.ApprovalsFieldFixed | Datasheets/TestRegex.py:43-44 | words joined by single spaces are left as they are |
| TestRegex.CleanFieldIdempotent | Datasheets/TestRegex.py:37-46 | cleaning a cleaned field changes nothing |
| Merge.FilterCore | Datasheets/merge_cable_libraries.py:28 | a filtered core has exactly its allowed keys, with their values |
| Merge.CoreObjects | Datasheets/merge_cable_libraries.py:27 | a list of objects gives one core per item |
| Merge.FilteredCores | Datasheets/merge_cable_libraries.py:26-29 | one filtered core per core |
| Merge.FilterCores | Datasheets/merge_cable_libraries.py:26-29 | the core loop filters each core, in order |
| Merge.FilterCableEntry | Datasheets/merge_cable_libraries.py:17-33 | the loop over the allowed keys computes the filtered cable |
| Merge.FilterCableShape | Datasheets/merge_cable_libraries.py:17-33 | a filtered cable has exactly its allowed keys, the same values except `Cores`, and each core filtered in order |
| Merge.FilterCableIdempotent | Datasheets/merge_cable_libraries.py:17-33 | filtering a filtered cable changes nothing |
| Merge.FilterKeepsId | Datasheets/merge_cable_libraries.py:63-66 | filtering keeps the `CableId` |
| Merge.AdmittedIffFirst | Datasheets/merge_cable_libraries.py:65 | a cable is added exactly when it is the first with a non-empty id equal to its own |
| Merge.MergeFile | Datasheets/merge_cable_libraries.py:62-70 | one file's loop extends the merge and keeps `cable_ids` equal to the ids merged so far |
| Merge.MergeJsonFiles | Datasheets/merge_cable_libraries.py:35-82 | the merge of all present files in order, written as `{"Cables": [...]}` |
| Merge.MergedIsFirsts | Datasheets/merge_cable_libraries.py:46-70 | the merge keeps, filtered and in order, exactly the first cable of each non-empty id, and has the same ids |
| Merge.FirstOccurrenceKept | Datasheets/merge_cable_libraries.py:65-68 | the first cable of each id is in the merge |
| Merge.MergedIdsDistinct | Datasheets/merge_cable_libraries.py:62-68 | merged cables have non-empty, pairwise distinct ids |
| Merge.MergedCount | Datasheets/merge_cable_libraries.py:46-74 | the merge has one cable per distinct non-empty id |
| Merge.MergeTwoCount | Datasheets/merge_cable_libraries.py:46-70 | merging two duplicate-free lists gives their sizes less the shared ids |
| Merge.MissingFileSkipped | Datasheets/merge_cable_libraries.py:52-54 | a missing file contributes nothing |
| Merge.DocumentShape | Datasheets/merge_cable_libraries.py:80 | the output is one object whose only key `Cables` lists the merged cables in order |
| Generator.TableWellFormed | generate_m22759.py:7-578 | the 33 slash keys are distinct and numeric; in every sheet the gauges are distinct and made of digits and `/`, with conductor < minimum <= maximum insulation diameter |
| Generator.CreateCableEntry | generate_m22759.py:580-622 | one core "1" with the wire's gauge, conductor and material; the OD is the min/max average; conductor plus two walls gives the OD; the jacket equals the wall, positive for a well-formed wire; type 0 without shield, drain or filler; the id and part number |
| Generator.CableIdShape | generate_m22759.py:586 | the id is `m22759-`, the slash, a dash and the gauge with `/` as `-` |
| Generator.IdFromPartNumber | generate_m22759.py:586-587 | the id is the part number lower-cased with `/` as `-` |
| Generator.GaugeReplaceInjective | generate_m22759.py:586 | replacing `/` by `-` does not merge two gauge labels |
| Generator.CableIdInjective | generate_m22759.py:586 | for numeric slashes and gauge labels, two ids are equal exactly when slash and gauge are |
| Generator.GeneratedCount | generate_m22759.py:625-646 | the generation yields one record per table tuple |
| Generator.GeneratedAt | generate_m22759.py:628-646 | tuple `i` of sheet `k` gives the record after all records of the earlier sheets |
| Generator.Coordinates | generate_m22759.py:628-646 | every record comes from some tuple of some sheet |
| Generator.GeneratedInsulationPositive | generate_m22759.py:583-584 | for a well-formed table every record has one core with a positive wall |
| Generator.GeneratedIdsDistinct | generate_m22759.py:586 | for a well-formed table the record ids are pairwise distinct |
| Generator.Generate | generate_m22759.py:625-646 | the nested loop produces the records in table order and counts them |
| Generator.TableGenerated | generate_m22759.py:7-646 | the hard-coded table gives one record per tuple, with distinct ids and one core with a positive wall each |
| Generator.CablesJson | generate_m22759.py:657 | one JSON object per record |
| Generator.Library.constructor | generate_m22759.py:653-654 | the loaded library holds the file's cable list |
| Generator.Library.Extend | generate_m22759.py:657 | `extend` appends the records and keeps the earlier ones |
| Generator.AppendGenerated | generate_m22759.py:625-657 | the library gains exactly the generated records, after its old ones, and the count is the number of table tuples |

## Left out

- Regular-expression matching: the row patterns' matches are inputs (sequences of captures). The patterns themselves (`pattern_eth`, `pattern_std`, the 27500 `master_pattern`, and so on) are not modelled. The `re.search`/`re.match` checks inside the normalisers are modelled.
- PDF text extraction, file selection, `main`, reading and writing JSON files, and all printed output: they are I/O. That includes the progress and summary prints of the merger and the generator. It also includes the "Added ... cables" count printed at `merge_cable_libraries.py:72`, which is output only.
- `build.py` is not part of this model.
- Case folding is ASCII only (`lower`, `upper`, `isdigit`, `\d`, `re.IGNORECASE`). Python maps non-ASCII letters too. Where this matters (the ÖLFLEX id prefix), the prefix is written out as a table.
- Text.ParseDecimal: Python's `float()` also accepts signs, exponents, `inf`/`nan`, underscores and surrounding whitespace. The model accepts plain decimals only, which are all the table patterns capture.
- `round(x, 3)` is not modelled: records carry the unrounded value. Floats are modelled as reals, without binary rounding.
- `math.sqrt` is a function parameter of the LAPP transform. Its only property used is that it is non-negative.
- Lapp.DeviceNetJacketDefault: states the "Not Specified" substitution on the captures, not the resulting cell of the cleaned row.
- The `$` of the M22759 colour pattern also matches before a final newline. Part numbers here never end in a newline once cleaned, so the model reads `$` as the end of the string.
- M22759.Normalize requires the `Part Number` key, as the source's `re.search` on `None` would raise. Every row built from a match has it.
- M22759.Transform requires the keys it reads (`AllTransformable`), as the source raises `KeyError` without them. Every normalised row has them (`StandardRowsFirst`).
- The high-strength pattern's `Break Strength` capture is carried as a unit pair; its effect on the record is only the `BreakStrength (kg)` extra key.
- Merge.MergeJsonFiles requires every cable to be mergeable. Its `Cores`, when present, must be a list of objects, and its `CableId`, when present, a string or `null`. Python would raise on other shapes, or hash non-string ids.
- Set iteration order and JSON key order: filtered cables are maps, so the key order of `json.dump` is not modelled.
- The generator, and the LAPP transform for unshielded cables and cables without a drain (`Datasheets/LAPPRegex.py:243`, `:281`), write `ShieldThickness` and `DrainWireDiameter` as the integer 0. They are modelled as the real 0.0 of the record type.
- The generator's `strands`, `strand_gauge`, `resistance`, `temp` and `voltage` values are in the table but unused by the records, as in the source.
- The library path of `generate_m22759.py` is a file on the author's machine. The model takes the loaded library as an object (`Library`).
- The `uuid` import of `generate_m22759.py` is unused in the source.
- The generator's total of 273 records is stated as `SpecCount(Table())`, the number of table tuples, rather than as the literal number.
