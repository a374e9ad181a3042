/**
 * Formatting of parsed collection ids, stated in terms of the input's tokens,
 * and the agreement between the vocabulary tables and the grammars.
 */
module FormattingLemmas {
  import opened Tokens
  import opened Collection
  import opened Formatting
  import GrammarLemmas

  /**
   * A parsed MFC id formats exactly when its first token is a known area and
   * its third token a known thematic; its product type is the second token
   * lower-cased.
   */
  lemma MfcStacOfParsed(s: string, g: MfcCollectionId)
    requires MfcFromString(s) == Ok(g)
    ensures var ts := Split(s);
      && |ts| >= 3
      && (MfcToStac(g).Ok? <==> ts[0] in MfcGeographicalAreas && ts[2] in Thematics)
      && (MfcToStac(g).Ok? ==> MfcToStac(g).value[ProductTypeKey] == Text(Lower(ts[1])))
  {
    GrammarLemmas.MfcFromStringExact(s, g);
    GrammarLemmas.MfcTokensAreTokens(g);
    SplitJoin(MfcTokens(g));
  }

  /** Lower-casing loses nothing on `[A-Z]+` codes: distinct codes give distinct values. */
  lemma LowerInjective(a: string, b: string)
    requires IsUpper(a) && IsUpper(b)
    requires Lower(a) == Lower(b)
    ensures a == b
  {
    assert |a| == |b|;
    forall i | 0 <= i < |a|
      ensures a[i] == b[i]
    {
      assert Lower(a)[i] == Lower(b)[i];
    }
  }

  /**
   * An id read with the current TAC grammar formats exactly when its first
   * token is a known observation type, its second a known area, its third a
   * known thematic and its third token from the end a known product type.
   */
  lemma TacStacOfCurrent(s: string, g: TacCollectionId)
    requires MatchTac(s) == Some(g)
    ensures var ts := Split(s);
      && |ts| >= 7
      && (TacToStac(g).Ok? <==>
            && ts[0] in ObservationTypes
            && ts[1] in TacGeographicalAreas
            && ts[2] in Thematics
            && ts[|ts| - 3] in ProductTypes)
  {
    GrammarLemmas.MatchTacExact(s, g);
    GrammarLemmas.TacTokensAreTokens(g);
    SplitJoin(TacTokens(g));
  }

  /**
   * An id read with the legacy TAC grammar always has a known thematic
   * (the default, "physical"), so it formats exactly when its observation
   * type, area and product type (tokens 1, 2 and 5) are known.
   */
  lemma TacStacOfLegacy(s: string, g: TacCollectionId)
    requires MatchOldTac(s) == Some(g)
    ensures var ts := Split(s);
      && |ts| == 8
      && (TacToStac(g).Ok? <==>
            && ts[0] in ObservationTypes
            && ts[1] in TacGeographicalAreas
            && ts[4] in ProductTypes)
      && (TacToStac(g).Ok? ==> TacToStac(g).value[ThematicKey] == Tags(["physical"]))
  {
    GrammarLemmas.MatchOldTacExact(s, g);
    GrammarLemmas.OldTacTokensAreTokens(g);
    SplitJoin(OldTacTokens(g));
  }

  /** Every key of a vocabulary table is an `[A-Z]+` token. */
  predicate UpperKeys<V>(table: map<string, V>) {
    forall k :: k in table ==> IsUpper(k)
  }

  lemma AreaKeysUpper()
    ensures UpperKeys(MfcGeographicalAreas)
    ensures UpperKeys(TacGeographicalAreas)
  {
  }

  lemma CodeKeysUpper()
    ensures UpperKeys(Thematics)
    ensures UpperKeys(ObservationTypes)
    ensures UpperKeys(ProductTypes)
  {
  }

  /**
   * Every code in a vocabulary table is a token its grammar slot accepts, so
   * no table entry is out of reach of the parser.
   */
  lemma VocabularyMatchesGrammar()
    ensures forall k :: k in MfcGeographicalAreas ==> IsUpper(k)
    ensures forall k :: k in Thematics ==> IsUpper(k)
    ensures forall k :: k in TacGeographicalAreas ==> IsUpper(k)
    ensures forall k :: k in ObservationTypes ==> IsUpper(k)
    ensures forall k :: k in ProductTypes ==> IsUpper(k)
    ensures DefaultThematic in Thematics
  {
    AreaKeysUpper();
    CodeKeysUpper();
  }
}
