/**
 * `to_stac` of both collection-id families: each field that needs a
 * description goes through a closed vocabulary table, and the results form
 * one flat mapping of `cmems:*` keys.  A value missing from its table is a
 * `FormatError`, and then no mapping is returned at all.
 */
module Formatting {
  import opened Tokens
  import opened Collection

  /** A metadata value: one description, or a list of tags for the thematic. */
  datatype StacValue = Text(text: string) | Tags(tags: seq<string>)

  type StacProperties = map<string, StacValue>

  const GeographicalAreaKey: string := "cmems:geographical_area"
  const ThematicKey: string := "cmems:thematic"
  const ProductTypeKey: string := "cmems:product_type"
  const ObservationTypeKey: string := "cmems:observation_type"

  /** The thematic codes shared by both families. */
  const Thematics: map<string, seq<string>> := map[
    "PHY" := ["physical"],
    "BGC" := ["biogeochemistry"],
    "PHYBGC" := ["physical", "biogeochemistry"],
    "PHYBGCWAV" := ["physical", "biogeochemistry", "waves"]
  ]

  /** The MFC geographical areas. */
  const MfcGeographicalAreas: map<string, string> := map[
    "ARCTIC" := "arctic sea",
    "BALTICSEA" := "baltic sea",
    "BLKSEA" := "black sea",
    "GLOBAL" := "global",
    "IBI" := "iberia biscay ireland",
    "MEDSEA" := "mediterranean sea",
    "NWSHELF" := "northwest shelf"
  ]

  /** The TAC geographical areas. */
  const TacGeographicalAreas: map<string, string> := map[
    "ATL" := "european atlantic ocean",
    "ARC" := "arctic sea",
    "BAL" := "baltic sea",
    "EUR" := "european seas",
    "GLO" := "global",
    "IBI" := "iberia biscay ireland",
    "MED" := "mediterranean sea",
    "NWS" := "northwest shelf"
  ]

  /** The TAC observation types. */
  const ObservationTypes: map<string, string> := map[
    "INSITU" := "in-situ",
    "OCEANCOLOUR" := "ocean colour",
    "SEAICE" := "sea ice",
    "SEALEVEL" := "sea level",
    "SST" := "SST",
    "WIND" := "wind",
    "WAVE" := "wave",
    "MULTIOBS" := "multiobs"
  ]

  /** The TAC product types. */
  const ProductTypes: map<string, string> := map[
    "NRT" := "near-real time",
    "MY" := "multiyear",
    "MYNRT" := "multiyear near-real time",
    "STATIC" := "static"
  ]

  function LowerChar(c: char): char {
    if IsUpperChar(c) then (c as int + 32) as char else c
  }

  /** `str.lower` on the letters `A`-`Z`; every other character is kept. */
  function Lower(s: string): (r: string)
    ensures |r| == |s|
    ensures forall i :: 0 <= i < |s| ==>
      (IsUpperChar(s[i]) ==> 'a' <= r[i] <= 'z' && r[i] as int - s[i] as int == 32)
    ensures forall i :: 0 <= i < |s| ==> !IsUpperChar(s[i]) ==> r[i] == s[i]
  {
    seq(|s|, i requires 0 <= i < |s| => LowerChar(s[i]))
  }

  /**
   * `MFCCollectionId.to_stac`: the area and the thematic through their
   * tables, the product type lower-cased; a miss in either table is a
   * `FormatError`.
   */
  function MfcToStac(g: MfcCollectionId): (r: Result<StacProperties>)
    ensures r.Ok? <==> g.geographicalArea in MfcGeographicalAreas && g.thematic in Thematics
    ensures r.Err? ==> r.error == FormatError
    ensures r.Ok? ==> r.value.Keys == {GeographicalAreaKey, ThematicKey, ProductTypeKey}
    ensures r.Ok? ==> |r.value| == 3
    ensures r.Ok? ==>
      && r.value[GeographicalAreaKey] == Text(MfcGeographicalAreas[g.geographicalArea])
      && r.value[ThematicKey] == Tags(Thematics[g.thematic])
      && r.value[ProductTypeKey] == Text(Lower(g.productType))
  {
    if g.geographicalArea in MfcGeographicalAreas && g.thematic in Thematics then
      Ok(map[
        GeographicalAreaKey := Text(MfcGeographicalAreas[g.geographicalArea]),
        ThematicKey := Tags(Thematics[g.thematic]),
        ProductTypeKey := Text(Lower(g.productType))
      ])
    else
      Err(FormatError)
  }

  /**
   * `TACCollectionId.to_stac`: area, thematic, observation type and product
   * type each through its own table; a miss in any of them, or an absent
   * thematic, is a `FormatError`.
   */
  function TacToStac(g: TacCollectionId): (r: Result<StacProperties>)
    ensures r.Ok? <==>
      && g.geographicalArea in TacGeographicalAreas
      && g.thematic.Some? && g.thematic.value in Thematics
      && g.observationType in ObservationTypes
      && g.productType in ProductTypes
    ensures r.Err? ==> r.error == FormatError
    ensures r.Ok? ==>
      r.value.Keys == {GeographicalAreaKey, ThematicKey, ObservationTypeKey, ProductTypeKey}
    ensures r.Ok? ==> |r.value| == 4
    ensures r.Ok? ==>
      && r.value[GeographicalAreaKey] == Text(TacGeographicalAreas[g.geographicalArea])
      && r.value[ThematicKey] == Tags(Thematics[g.thematic.value])
      && r.value[ObservationTypeKey] == Text(ObservationTypes[g.observationType])
      && r.value[ProductTypeKey] == Text(ProductTypes[g.productType])
  {
    if && g.geographicalArea in TacGeographicalAreas
       && g.thematic.Some? && g.thematic.value in Thematics
       && g.observationType in ObservationTypes
       && g.productType in ProductTypes
    then
      Ok(map[
        GeographicalAreaKey := Text(TacGeographicalAreas[g.geographicalArea]),
        ThematicKey := Tags(Thematics[g.thematic.value]),
        ObservationTypeKey := Text(ObservationTypes[g.observationType]),
        ProductTypeKey := Text(ProductTypes[g.productType])
      ])
    else
      Err(FormatError)
  }
}
