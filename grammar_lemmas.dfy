/**
 * What the collection-id grammars accept and return, stated against the
 * renderings of the records (each record's groups joined by `_` in grammar
 * order), and how the families and grammars interact.
 */
module GrammarLemmas {
  import opened Tokens
  import opened Collection

  /** The groups of a well-formed record are separator-free tokens. */
  lemma MfcTokensAreTokens(g: MfcCollectionId)
    requires MfcWellFormed(g)
    ensures |MfcTokens(g)| >= 1 && AllTokens(MfcTokens(g))
  {
  }

  lemma TacTokensAreTokens(g: TacCollectionId)
    requires TacWellFormed(g)
    ensures |TacTokens(g)| >= 1 && AllTokens(TacTokens(g))
  {
  }

  lemma OldTacTokensAreTokens(g: TacCollectionId)
    requires OldTacWellFormed(g)
    ensures |OldTacTokens(g)| >= 1 && AllTokens(OldTacTokens(g))
  {
  }

  /**
   * `mfc_id` accepts a string and captures `g` exactly when `g`'s groups lie
   * in their classes and spell the whole string: sound, complete, and with
   * one possible set of groups (so the greedy optional slot decides nothing).
   */
  lemma MfcFromStringExact(s: string, g: MfcCollectionId)
    ensures MfcFromString(s) == Ok(g) <==> MfcWellFormed(g) && RenderMfc(g) == s
  {
    if MfcWellFormed(g) && RenderMfc(g) == s {
      MfcTokensAreTokens(g);
      SplitJoin(MfcTokens(g));
      assert Split(s) == MfcTokens(g);
    }
  }

  /** A well-formed MFC record survives rendering and parsing unchanged. */
  lemma MfcRoundTrip(g: MfcCollectionId)
    requires MfcWellFormed(g)
    ensures MfcFromString(RenderMfc(g)) == Ok(g)
  {
    MfcFromStringExact(RenderMfc(g), g);
  }

  /**
   * The MFC family in terms of the tokens: three or four `[A-Z]+` tokens, then
   * two three-digit tokens; the complementary info is absent exactly when
   * there are five tokens.
   */
  lemma MfcAcceptance(s: string)
    ensures var ts := Split(s);
      MfcFromString(s).Ok? <==>
        && (|ts| == 5 || |ts| == 6)
        && (forall i :: 0 <= i < |ts| - 2 ==> IsUpper(ts[i]))
        && IsThreeDigits(ts[|ts| - 2]) && IsThreeDigits(ts[|ts| - 1])
    ensures MfcFromString(s).Ok? ==>
      (MfcFromString(s).value.complementaryInfo.None? <==> |Split(s)| == 5)
  {
    var ts := Split(s);
    if (|ts| == 5 || |ts| == 6)
       && (forall i :: 0 <= i < |ts| - 2 ==> IsUpper(ts[i]))
    {
      assert IsUpper(ts[0]) && IsUpper(ts[1]) && IsUpper(ts[2]);
      assert |ts| == 6 ==> IsUpper(ts[3]);
    }
  }

  /** `tac_id` accepts a string and captures `g` exactly when `g` spells it in that grammar. */
  lemma MatchTacExact(s: string, g: TacCollectionId)
    ensures MatchTac(s) == Some(g) <==> TacWellFormed(g) && RenderTac(g) == s
  {
    if TacWellFormed(g) && RenderTac(g) == s {
      TacTokensAreTokens(g);
      SplitJoin(TacTokens(g));
      assert Split(s) == TacTokens(g);
    }
  }

  /**
   * `old_tac_id` accepts a string and captures `g` exactly when `g` spells it
   * in the legacy grammar: the observation type twice, the complementary info
   * present, and the thematic the default.
   */
  lemma MatchOldTacExact(s: string, g: TacCollectionId)
    ensures MatchOldTac(s) == Some(g) <==> OldTacWellFormed(g) && RenderOldTac(g) == s
  {
    if OldTacWellFormed(g) && RenderOldTac(g) == s {
      OldTacTokensAreTokens(g);
      SplitJoin(OldTacTokens(g));
      assert Split(s) == OldTacTokens(g);
    }
  }

  /**
   * The TAC family accepts a string and returns `g` exactly when `g` spells
   * it in the current grammar, or spells it in the legacy grammar and the
   * current grammar rejects it.
   */
  lemma TacFromStringExact(s: string, g: TacCollectionId)
    ensures TacFromString(s) == Ok(g) <==>
      || (TacWellFormed(g) && RenderTac(g) == s)
      || (OldTacWellFormed(g) && RenderOldTac(g) == s && MatchTac(s).None?)
  {
    MatchTacExact(s, g);
    MatchOldTacExact(s, g);
  }

  /** When the current grammar matches a rendered legacy id, its kind of product holds letters only. */
  lemma OldTacAsCurrent(g: TacCollectionId, c: TacCollectionId)
    requires OldTacWellFormed(g)
    requires MatchTac(RenderOldTac(g)) == Some(c)
    ensures IsUpper(g.kindProduct)
    ensures c.complementaryInfo == Some(g.kindProduct)
  {
    TacTokensAreTokens(c);
    OldTacTokensAreTokens(g);
    JoinInjective(TacTokens(c), OldTacTokens(g));
    assert TacTokens(c)[3] == c.complementaryInfo.value;
  }

  /**
   * A legacy id read back: when its kind of product is made of letters only,
   * the current grammar also matches and wins, reading the repeated
   * observation type as the thematic, the kind of product as complementary
   * info, and shifting the product type and complementary info one slot to
   * the left; otherwise the legacy reading is returned unchanged.
   */
  lemma OldTacReadBack(g: TacCollectionId)
    requires OldTacWellFormed(g)
    ensures TacFromString(RenderOldTac(g)) ==
      if IsUpper(g.kindProduct) then
        Ok(TacCollectionId(g.observationType, g.geographicalArea, Some(g.observationType),
                           Some(g.kindProduct), g.productType, g.complementaryInfo.value,
                           g.centerRanking, g.centerId))
      else
        Ok(g)
  {
    var s := RenderOldTac(g);
    var h := TacCollectionId(g.observationType, g.geographicalArea, Some(g.observationType),
                             Some(g.kindProduct), g.productType, g.complementaryInfo.value,
                             g.centerRanking, g.centerId);
    assert TacTokens(h) == OldTacTokens(g);
    if IsUpper(g.kindProduct) {
      assert IsUpperAlnum(g.productType) by {
        assert forall i :: 0 <= i < |g.productType| ==> IsUpperChar(g.productType[i]);
      }
      MatchTacExact(s, h);
    } else {
      if MatchTac(s).Some? {
        OldTacAsCurrent(g, MatchTac(s).value);
        assert false;
      }
      MatchOldTacExact(s, g);
    }
  }

  /** A successful MFC parse has five or six tokens. */
  lemma MfcTokenCount(s: string)
    requires MfcFromString(s).Ok?
    ensures |Split(s)| == 5 || |Split(s)| == 6
  {
  }

  /** A successful TAC parse has seven or eight tokens. */
  lemma TacTokenCount(s: string)
    requires TacFromString(s).Ok?
    ensures |Split(s)| == 7 || |Split(s)| == 8
  {
  }

  /** No string is both an MFC and a TAC collection id. */
  lemma FamiliesDisjoint(s: string)
    ensures !(MfcFromString(s).Ok? && TacFromString(s).Ok?)
  {
    if MfcFromString(s).Ok? && TacFromString(s).Ok? {
      MfcTokenCount(s);
      TacTokenCount(s);
    }
  }

  /** A well-formed MFC record, rendered, comes back from `parse_collection_id` unchanged. */
  lemma MfcDispatchRoundTrip(g: MfcCollectionId)
    requires MfcWellFormed(g)
    ensures ParseCollectionId(RenderMfc(g)) == Ok(Mfc(g))
  {
    MfcRoundTrip(g);
  }

  /**
   * A well-formed TAC record, rendered in the current grammar, comes back
   * from `parse_collection_id` unchanged: neither the MFC family nor the
   * legacy grammar intercepts it.
   */
  lemma TacDispatchRoundTrip(g: TacCollectionId)
    requires TacWellFormed(g)
    ensures ParseCollectionId(RenderTac(g)) == Ok(Tac(g))
  {
    MatchTacExact(RenderTac(g), g);
    FamiliesDisjoint(RenderTac(g));
  }

  /**
   * A well-formed legacy TAC record, rendered, comes back from
   * `parse_collection_id` as the TAC family reads it: unchanged when its kind
   * of product holds a digit, and reinterpreted by the current grammar when it
   * is made of letters only.
   */
  lemma OldTacDispatchRoundTrip(g: TacCollectionId)
    requires OldTacWellFormed(g)
    ensures ParseCollectionId(RenderOldTac(g)) ==
      if IsUpper(g.kindProduct) then
        Ok(Tac(TacCollectionId(g.observationType, g.geographicalArea, Some(g.observationType),
                               Some(g.kindProduct), g.productType, g.complementaryInfo.value,
                               g.centerRanking, g.centerId)))
      else
        Ok(Tac(g))
  {
    OldTacReadBack(g);
    FamiliesDisjoint(RenderOldTac(g));
  }

  /** The order in which `parse_collection_id` tries the two families never matters. */
  lemma ParseOrderIrrelevant(s: string)
    ensures ParseCollectionId(s) == ParseCollectionIdTacFirst(s)
  {
    FamiliesDisjoint(s);
  }
}
