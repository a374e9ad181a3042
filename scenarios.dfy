/**
 * Concrete collection ids run through parsing and formatting.  For each
 * record, one lemma gives the identifier it spells, one runs that identifier
 * through `parse_collection_id`, and one runs the record through `to_stac`.
 */
module Scenarios {
  import opened Tokens
  import opened Collection
  import opened Formatting
  import GrammarLemmas

  // Joins of a fixed number of tokens, spelled out, so that the identifiers
  // below are compared with their literals in one step.

  lemma JoinThree(a: string, b: string, c: string)
    ensures Join([a, b, c]) == a + [Delimiter] + (b + [Delimiter] + c)
  {
    JoinCons(b, [c]);
    assert [b] + [c] == [b, c];
    JoinCons(a, [b, c]);
    assert [a] + [b, c] == [a, b, c];
  }

  lemma JoinFive(a: string, b: string, c: string, d: string, e: string)
    ensures Join([a, b, c, d, e]) ==
      a + [Delimiter] + (b + [Delimiter] + (c + [Delimiter] + (d + [Delimiter] + e)))
  {
    JoinThree(c, d, e);
    JoinCons(b, [c, d, e]);
    assert [b] + [c, d, e] == [b, c, d, e];
    JoinCons(a, [b, c, d, e]);
    assert [a] + [b, c, d, e] == [a, b, c, d, e];
  }

  lemma JoinEight(a: string, b: string, c: string, d: string, e: string, f: string, g: string, h: string)
    ensures Join([a, b, c, d, e, f, g, h]) ==
      a + [Delimiter] + (b + [Delimiter] + (c + [Delimiter] +
      (d + [Delimiter] + (e + [Delimiter] + (f + [Delimiter] + (g + [Delimiter] + h))))))
  {
    JoinFive(d, e, f, g, h);
    JoinCons(c, [d, e, f, g, h]);
    assert [c] + [d, e, f, g, h] == [c, d, e, f, g, h];
    JoinCons(b, [c, d, e, f, g, h]);
    assert [b] + [c, d, e, f, g, h] == [b, c, d, e, f, g, h];
    JoinCons(a, [b, c, d, e, f, g, h]);
    assert [a] + [b, c, d, e, f, g, h] == [a, b, c, d, e, f, g, h];
  }

  /** An MFC record without complementary info, spelled out. */
  lemma RenderMfcFive(g: MfcCollectionId)
    requires g.complementaryInfo.None?
    ensures RenderMfc(g) == g.geographicalArea + [Delimiter] + (g.productType + [Delimiter] +
      (g.thematic + [Delimiter] + (g.centerRanking + [Delimiter] + g.centerId)))
  {
    assert MfcTokens(g) == [g.geographicalArea, g.productType, g.thematic, g.centerRanking, g.centerId];
    JoinFive(g.geographicalArea, g.productType, g.thematic, g.centerRanking, g.centerId);
  }

  /** A legacy TAC record, spelled out. */
  lemma RenderOldTacEight(g: TacCollectionId)
    requires g.complementaryInfo.Some?
    ensures RenderOldTac(g) == g.observationType + [Delimiter] + (g.geographicalArea + [Delimiter] +
      (g.observationType + [Delimiter] + (g.kindProduct + [Delimiter] + (g.productType + [Delimiter] +
      (g.complementaryInfo.value + [Delimiter] + (g.centerRanking + [Delimiter] + g.centerId))))))
  {
    assert OldTacTokens(g) == [g.observationType, g.geographicalArea, g.observationType, g.kindProduct,
                               g.productType, g.complementaryInfo.value, g.centerRanking, g.centerId];
    JoinEight(g.observationType, g.geographicalArea, g.observationType, g.kindProduct,
              g.productType, g.complementaryInfo.value, g.centerRanking, g.centerId);
  }

  /** A current TAC record with complementary info, spelled out. */
  lemma RenderTacEight(g: TacCollectionId)
    requires g.thematic.Some? && g.complementaryInfo.Some?
    ensures RenderTac(g) == g.observationType + [Delimiter] + (g.geographicalArea + [Delimiter] +
      (g.thematic.value + [Delimiter] + (g.complementaryInfo.value + [Delimiter] + (g.kindProduct + [Delimiter] +
      (g.productType + [Delimiter] + (g.centerRanking + [Delimiter] + g.centerId))))))
  {
    assert TacTokens(g) == [g.observationType, g.geographicalArea, g.thematic.value, g.complementaryInfo.value,
                            g.kindProduct, g.productType, g.centerRanking, g.centerId];
    JoinEight(g.observationType, g.geographicalArea, g.thematic.value, g.complementaryInfo.value,
              g.kindProduct, g.productType, g.centerRanking, g.centerId);
  }

  const GlobalId := MfcCollectionId("GLOBAL", "ANALYSISFORECAST", "PHY", None, "001", "024")

  lemma GlobalIdCharacters()
    ensures "GLOBAL" + [Delimiter] + ("ANALYSISFORECAST" + [Delimiter] + ("PHY" + [Delimiter] + ("001" + [Delimiter] + "024")))
      == "GLOBAL_ANALYSISFORECAST_PHY_001_024"
  {
  }

  lemma GlobalAnalysisForecastSpelling()
    ensures RenderMfc(GlobalId) == "GLOBAL_ANALYSISFORECAST_PHY_001_024"
  {
    GlobalIdCharacters();
    RenderMfcFive(GlobalId);
  }

  /** `GLOBAL_ANALYSISFORECAST_PHY_001_024`: an MFC id without complementary info. */
  lemma GlobalAnalysisForecast()
    ensures ParseCollectionId("GLOBAL_ANALYSISFORECAST_PHY_001_024") == Ok(Mfc(GlobalId))
  {
    GlobalAnalysisForecastSpelling();
    GrammarLemmas.MfcDispatchRoundTrip(GlobalId);
  }

  lemma GlobalAnalysisForecastStac()
    ensures MfcToStac(GlobalId) == Ok(map[
      GeographicalAreaKey := Text("global"),
      ThematicKey := Tags(["physical"]),
      ProductTypeKey := Text("analysisforecast")])
  {
    assert Lower("ANALYSISFORECAST") == "analysisforecast";
  }

  const LegacySstId := TacCollectionId("SST", "GLO", Some("PHY"), Some("OBSERVATIONS"), "L4", "NRT", "010", "001")

  lemma LegacySstIdCharacters()
    ensures "SST" + [Delimiter] + ("GLO" + [Delimiter] + ("SST" + [Delimiter] + ("L4" + [Delimiter] + ("NRT" + [Delimiter] + ("OBSERVATIONS" + [Delimiter] + ("010" + [Delimiter] + "001"))))))
      == "SST_GLO_SST_L4_NRT_OBSERVATIONS_010_001"
  {
  }

  lemma LegacySeaSurfaceTemperatureSpelling()
    ensures RenderOldTac(LegacySstId) == "SST_GLO_SST_L4_NRT_OBSERVATIONS_010_001"
  {
    LegacySstIdCharacters();
    RenderOldTacEight(LegacySstId);
  }

  /** The kind of product `L4` holds a digit, so it is not an `[A-Z]+` token. */
  lemma LegacyKindHasDigit()
    ensures !IsUpper(LegacySstId.kindProduct)
  {
    assert !IsUpperChar(LegacySstId.kindProduct[1]);
  }

  /**
   * `SST_GLO_SST_L4_NRT_OBSERVATIONS_010_001`: a legacy TAC id, with the
   * observation type repeated and a digit in the kind of product, so that the
   * current grammar rejects it and the thematic takes the default.
   */
  lemma LegacySeaSurfaceTemperature()
    ensures ParseCollectionId("SST_GLO_SST_L4_NRT_OBSERVATIONS_010_001") == Ok(Tac(LegacySstId))
  {
    LegacyKindHasDigit();
    LegacySeaSurfaceTemperatureSpelling();
    GrammarLemmas.OldTacDispatchRoundTrip(LegacySstId);
  }

  lemma LegacySeaSurfaceTemperatureStac()
    ensures TacToStac(LegacySstId) == Ok(map[
      GeographicalAreaKey := Text("global"),
      ThematicKey := Tags(["physical"]),
      ObservationTypeKey := Text("SST"),
      ProductTypeKey := Text("near-real time")])
  {
  }

  const SeaLevelId := TacCollectionId("SEALEVEL", "EUR", Some("PHY"), Some("AUX"), "L4", "MY", "008", "068")

  lemma SeaLevelIdCharacters()
    ensures "SEALEVEL" + [Delimiter] + ("EUR" + [Delimiter] + ("PHY" + [Delimiter] + ("AUX" + [Delimiter] + ("L4" + [Delimiter] + ("MY" + [Delimiter] + ("008" + [Delimiter] + "068"))))))
      == "SEALEVEL_EUR_PHY_AUX_L4_MY_008_068"
  {
  }

  lemma CurrentSeaLevelSpelling()
    ensures RenderTac(SeaLevelId) == "SEALEVEL_EUR_PHY_AUX_L4_MY_008_068"
  {
    SeaLevelIdCharacters();
    RenderTacEight(SeaLevelId);
  }

  /** `SEALEVEL_EUR_PHY_AUX_L4_MY_008_068`: a current TAC id with complementary info. */
  lemma CurrentSeaLevel()
    ensures ParseCollectionId("SEALEVEL_EUR_PHY_AUX_L4_MY_008_068") == Ok(Tac(SeaLevelId))
  {
    CurrentSeaLevelSpelling();
    GrammarLemmas.TacDispatchRoundTrip(SeaLevelId);
  }

  lemma CurrentSeaLevelStac()
    ensures TacToStac(SeaLevelId) == Ok(map[
      GeographicalAreaKey := Text("european seas"),
      ThematicKey := Tags(["physical"]),
      ObservationTypeKey := Text("sea level"),
      ProductTypeKey := Text("multiyear")])
  {
  }

  /** `GLOBAL_PHY_001`: too few tokens for any grammar, a `ParserError` naming the input. */
  lemma TooFewTokens()
    ensures Join(["GLOBAL", "PHY", "001"]) == "GLOBAL_PHY_001"
    ensures ParseCollectionId("GLOBAL_PHY_001") == Err(ParserError("GLOBAL_PHY_001"))
  {
    JoinThree("GLOBAL", "PHY", "001");
    SplitJoin(["GLOBAL", "PHY", "001"]);
  }

  const NorthSeaId := MfcCollectionId("NORTHSEA", "ANALYSISFORECAST", "PHY", None, "001", "024")

  lemma NorthSeaIdCharacters()
    ensures "NORTHSEA" + [Delimiter] + ("ANALYSISFORECAST" + [Delimiter] + ("PHY" + [Delimiter] + ("001" + [Delimiter] + "024")))
      == "NORTHSEA_ANALYSISFORECAST_PHY_001_024"
  {
  }

  lemma UnknownAreaSpelling()
    ensures RenderMfc(NorthSeaId) == "NORTHSEA_ANALYSISFORECAST_PHY_001_024"
  {
    NorthSeaIdCharacters();
    RenderMfcFive(NorthSeaId);
  }

  /**
   * `NORTHSEA_ANALYSISFORECAST_PHY_001_024`: a well-formed MFC id whose area
   * has no table entry parses, but does not format.
   */
  lemma UnknownArea()
    ensures ParseCollectionId("NORTHSEA_ANALYSISFORECAST_PHY_001_024") == Ok(Mfc(NorthSeaId))
  {
    UnknownAreaSpelling();
    GrammarLemmas.MfcDispatchRoundTrip(NorthSeaId);
  }

  lemma UnknownAreaStac()
    ensures MfcToStac(NorthSeaId) == Err(FormatError)
  {
  }
}
