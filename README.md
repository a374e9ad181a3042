# Collection identifiers of the Copernicus Marine STAC catalogue

This project models the collection-identifier conventions of `cmems_stac`.
It covers the two identifier families that `cmems_stac/conventions/collection.py`
implements:

- a model and forecasting centre (MFC) id, such as `GLOBAL_ANALYSISFORECAST_PHY_001_024`;
- a thematic assembly centre (TAC) id, such as `SEALEVEL_EUR_PHY_AUX_L4_MY_008_068`,
  in its current spelling and in its legacy spelling `SST_GLO_SST_L4_NRT_OBSERVATIONS_010_001`.

Parsing a string gives a frozen record (`from_string`, `parse_collection_id`).
Formatting a record (`to_stac`) gives a flat `cmems:*` mapping.

Modules:

- `Tokens` (`tokens.dfy`): the regex token classes `[A-Z]+`, `[A-Z0-9]+` and `[0-9]{3}`,
  plus the `_` split and its inverse `Join`.
  No class contains `_`. So an anchored match of any of the three grammars binds exactly
  the `_`-separated pieces of the input, one slot of the grammar per piece. Each slot is a
  capture group, except the third slot of `old_tac_id`: that is the back-reference
  `(?P=observation_type)`, which only has to repeat the first piece.
  `SplitJoin` proves that splitting undoes joining.
- `Collection` (`collection.py` lines 1-115 and 156-163): the records, the `ParserError` and
  `FormatError` results, and the three grammars.
  Each grammar is a matcher over the tokens, paired with a rendering of a record back to the
  string the grammar spells. The rendering is the record's groups, joined by `_` in grammar order.
  Also here: the two `from_string`s and `parse_collection_id`.
- `GrammarLemmas`: each matcher accepts `s` and returns `g` exactly when `g` is well formed and
  renders to `s`. This is soundness, completeness and uniqueness of the captured groups in one
  statement. It also covers the order between the current and legacy TAC grammars, and why the
  order of the two families in the dispatch does not matter.
- `Formatting` (`collection.py` lines 51-56 and 76-153): the vocabulary tables and both `to_stac`s.
- `FormattingLemmas`: formatting of parsed records in terms of the input's tokens,
  and agreement between the tables and the grammars.
- `Scenarios`: concrete identifiers through parsing and formatting.

Errors are values: `Result<T>` is `Ok(value)` or `Err(ParserError(input))` / `Err(FormatError)`.
A failed parse or format never yields a partial record or mapping.

## Model

| member | source | states |
|---|---|---|
| `Tokens.ClassesExcludeDelimiter` | cmems_stac/conventions/collection.py:13-49 | none of `[A-Z]+`, `[A-Z0-9]+`, `[0-9]{3}` can contain the `_` separator |
| `Tokens.Split` | cmems_stac/conventions/collection.py:13-49 | cutting the input at every `_` gives at least one piece; no piece holds `_`; joining the pieces gives the input back |
| `Tokens.SplitJoin` | cmems_stac/conventions/collection.py:13-49 | splitting a `_`-join of separator-free tokens gives back exactly those tokens |
| `Tokens.JoinInjective` | cmems_stac/conventions/collection.py:13-49 | two token lists that join to the same string are equal, so the captured groups of a match are unique |
| `Collection.MfcFromString` | cmems_stac/conventions/collection.py:69-74 | on success the record is well formed, renders back to the input, and both centre numbers are three digits; on failure the error is `ParserError` of the input |
| `GrammarLemmas.MfcFromStringExact` | cmems_stac/conventions/collection.py:13-23 | `mfc_id` fully matches `s` with groups `g` if and only if every group of `g` lies in its class and `g` spells `s` (an absent complementary info takes no slot) |
| `GrammarLemmas.MfcRoundTrip` | cmems_stac/conventions/collection.py:69-74 | a well-formed MFC record, rendered and parsed, comes back unchanged |
| `GrammarLemmas.MfcAcceptance` | cmems_stac/conventions/collection.py:13-23 | MFC parsing succeeds exactly on 3 or 4 `[A-Z]+` tokens followed by two three-digit tokens; complementary info is absent exactly when there are 5 tokens |
| `Collection.MatchTac` | cmems_stac/conventions/collection.py:24-36 | a match of the current TAC grammar is well formed (thematic present) and renders back to the input |
| `GrammarLemmas.MatchTacExact` | cmems_stac/conventions/collection.py:24-36 | `tac_id` fully matches `s` with groups `g` if and only if `g` is well formed for it and spells `s`, so the lazy optional slot decides nothing |
| `Collection.MatchOldTac` | cmems_stac/conventions/collection.py:37-49 | a match of the legacy grammar is well formed, has thematic `PHY` and complementary info present, and renders back to the input |
| `GrammarLemmas.MatchOldTacExact` | cmems_stac/conventions/collection.py:37-49 | `old_tac_id` fully matches `s` with groups `g` if and only if `g` spells `s` with the observation type in slots 1 and 3, complementary info in slot 6, and thematic defaulted to `PHY` |
| `Collection.TacFromString` | cmems_stac/conventions/collection.py:107-115 | on success the record spells the input in the current grammar, or in the legacy grammar when the current one fails; centre numbers are three digits; the thematic is never absent; on failure the error is `ParserError` of the input |
| `GrammarLemmas.TacFromStringExact` | cmems_stac/conventions/collection.py:109-115 | TAC parsing returns `g` for `s` if and only if `g` spells `s` in the current grammar, or spells it in the legacy grammar and the current grammar rejects `s` |
| `GrammarLemmas.OldTacAsCurrent` | cmems_stac/conventions/collection.py:24-49 | if the current grammar matches a legacy spelling, its kind of product is letters only and is read as complementary info |
| `GrammarLemmas.OldTacReadBack` | cmems_stac/conventions/collection.py:109 | a legacy id with a letters-only kind of product is taken by the current grammar, with the repeated observation type as thematic and the later slots shifted; otherwise the legacy reading comes back unchanged |
| `GrammarLemmas.MfcTokenCount` | cmems_stac/conventions/collection.py:13-23 | a successful MFC parse has 5 or 6 tokens |
| `GrammarLemmas.TacTokenCount` | cmems_stac/conventions/collection.py:24-49 | a successful TAC parse has 7 or 8 tokens |
| `GrammarLemmas.FamiliesDisjoint` | cmems_stac/conventions/collection.py:156-163 | no string parses both as an MFC and as a TAC id |
| `Collection.ParseCollectionId` | cmems_stac/conventions/collection.py:156-163 | fails exactly when both families fail, then with `ParserError` of the input; a successful MFC parse is returned as is; a TAC result is exactly what the TAC family's `from_string` returns, so it spells the input in the current grammar, or in the legacy grammar only when the current one rejects it |
| `GrammarLemmas.ParseOrderIrrelevant` | cmems_stac/conventions/collection.py:156-163 | trying TAC before MFC gives the same result for every input |
| `GrammarLemmas.MfcDispatchRoundTrip` | cmems_stac/conventions/collection.py:156-163 | a well-formed MFC record, rendered, comes back from `parse_collection_id` as that MFC record |
| `GrammarLemmas.OldTacDispatchRoundTrip` | cmems_stac/conventions/collection.py:109-115 | a well-formed legacy TAC record, rendered, comes back from `parse_collection_id` unchanged when its kind of product holds a digit, and as the current grammar's reading when it is letters only |
| `GrammarLemmas.TacDispatchRoundTrip` | cmems_stac/conventions/collection.py:156-163 | a well-formed current-grammar TAC record, rendered, comes back from `parse_collection_id` as that TAC record |
| `Formatting.Lower` | cmems_stac/conventions/collection.py:90 | keeps the length; maps each `A`-`Z` to its lower-case letter and keeps every other character |
| `Formatting.MfcToStac` | cmems_stac/conventions/collection.py:76-93 | succeeds exactly when the area is in the 7-entry MFC table and the thematic in `thematics`; then exactly the three keys area, thematic and lower-cased product type; otherwise `FormatError` and no mapping |
| `Formatting.TacToStac` | cmems_stac/conventions/collection.py:117-153 | succeeds exactly when area, thematic (present), observation type and product type are each in their table; then exactly the four keys with the looked-up values; otherwise `FormatError` and no mapping |
| `FormattingLemmas.MfcStacOfParsed` | cmems_stac/conventions/collection.py:76-93 | a parsed MFC id formats exactly when its first token is a known area and its third a known thematic; its product type value is the second token lower-cased |
| `FormattingLemmas.LowerInjective` | cmems_stac/conventions/collection.py:90 | two `[A-Z]+` product types with the same lower-case form are equal |
| `FormattingLemmas.TacStacOfCurrent` | cmems_stac/conventions/collection.py:117-153 | a current-grammar TAC id formats exactly when tokens 1, 2, 3 and the third from the end are a known observation type, area, thematic and product type |
| `FormattingLemmas.TacStacOfLegacy` | cmems_stac/conventions/collection.py:113-153 | a legacy TAC id always has a known thematic (`physical`), so it formats exactly when tokens 1, 2 and 5 are a known observation type, area and product type |
| `FormattingLemmas.VocabularyMatchesGrammar` | cmems_stac/conventions/collection.py:51-143 | every code in every vocabulary table is an `[A-Z]+` token its grammar slot accepts, and the default thematic `PHY` has an entry |
| `Scenarios.GlobalAnalysisForecastSpelling` | cmems_stac/conventions/collection.py:13-23 | the example MFC record spells `GLOBAL_ANALYSISFORECAST_PHY_001_024` |
| `Scenarios.GlobalAnalysisForecast` | cmems_stac/conventions/collection.py:156-163 | `GLOBAL_ANALYSISFORECAST_PHY_001_024` parses to MFC with area GLOBAL, product type ANALYSISFORECAST, thematic PHY, no complementary info, 001, 024 |
| `Scenarios.GlobalAnalysisForecastStac` | cmems_stac/conventions/collection.py:76-93 | that record formats to `global`, `["physical"]`, `analysisforecast` |
| `Scenarios.LegacySeaSurfaceTemperatureSpelling` | cmems_stac/conventions/collection.py:37-49 | the example legacy record spells `SST_GLO_SST_L4_NRT_OBSERVATIONS_010_001` |
| `Scenarios.LegacySeaSurfaceTemperature` | cmems_stac/conventions/collection.py:107-115 | `SST_GLO_SST_L4_NRT_OBSERVATIONS_010_001` parses, through the legacy grammar, to a TAC record with thematic `PHY` and complementary info `OBSERVATIONS` |
| `Scenarios.LegacySeaSurfaceTemperatureStac` | cmems_stac/conventions/collection.py:117-153 | that record formats to `global`, `["physical"]`, `SST`, `near-real time` |
| `Scenarios.CurrentSeaLevelSpelling` | cmems_stac/conventions/collection.py:24-36 | the example current TAC record spells `SEALEVEL_EUR_PHY_AUX_L4_MY_008_068` |
| `Scenarios.CurrentSeaLevel` | cmems_stac/conventions/collection.py:156-163 | `SEALEVEL_EUR_PHY_AUX_L4_MY_008_068` parses to the TAC record with complementary info `AUX` and kind of product `L4` |
| `Scenarios.CurrentSeaLevelStac` | cmems_stac/conventions/collection.py:117-153 | that record formats to `european seas`, `["physical"]`, `sea level`, `multiyear` |
| `Scenarios.TooFewTokens` | cmems_stac/conventions/collection.py:156-163 | the three tokens `GLOBAL`, `PHY`, `001` join to `GLOBAL_PHY_001`, and that string is rejected with `ParserError` naming it |
| `Scenarios.UnknownAreaSpelling` | cmems_stac/conventions/collection.py:13-23 | the example record spells `NORTHSEA_ANALYSISFORECAST_PHY_001_024` |
| `Scenarios.UnknownArea` | cmems_stac/conventions/collection.py:156-163 | `NORTHSEA_ANALYSISFORECAST_PHY_001_024` parses as that MFC record, although its area has no table entry |
| `Scenarios.UnknownAreaStac` | cmems_stac/conventions/collection.py:76-93 | formatting that record is a `FormatError`, because `NORTHSEA` has no entry in the MFC area table |

## Left out

- The ocean monitoring indicator (OMI) family: `cmems_stac/tests/test_conventions.py` builds
  `OMICollectionId`, but `collection.py` does not define it, so there is no behaviour to model.
- `cmems_stac/stac.py`: opening STAC items and remote datasets, and URL splitting.
  This is I/O over third-party libraries and is not part of this model.
- `cmems_stac/conventions/item.py`: it only compiles a pattern that nothing matches against.
- Error message text: errors are typed values. `ParserError` carries the rejected input.
  `FormatError` carries nothing. The MFC `to_stac` message lacks its `f` prefix, and the TAC
  message embeds the record; neither is modelled.
- Regex engine internals (backtracking, greedy `?` versus lazy `??`): the token matcher
  replaces them. `MfcFromStringExact` and `MatchTacExact` prove that the captured groups are
  unique, so neither choice can change a result.
- Lower: maps only `A`-`Z`. Python's `str.lower` also folds non-ASCII letters. That only matters
  for records built directly rather than by the parser, whose product types are `[A-Z]+`.
- Repeated formatting returning equal mappings holds by construction, since `MfcToStac` and
  `TacToStac` are functions. No separate lemma states it.
- Aliasing of the thematic list: in the source, both `to_stac`s put the `thematics` table's own
  list object under `cmems:thematic` (`collection.py` lines 89 and 148). A caller that mutates
  that list changes the table, and with it every later result. The model's values are immutable,
  so it cannot express this sharing.
- A `TACCollectionId` with no thematic cannot come out of parsing (`TacFromString` ensures the
  thematic is present). It can only be built directly; `TacToStac` then gives `FormatError`.
