/**
 * Collection identifiers of the Copernicus Marine catalogue: the two
 * identifier families (model and forecasting centre, thematic assembly
 * centre), their grammars, `from_string` for each family and the
 * family-dispatching `parse_collection_id`.
 *
 * Each grammar is given twice: as a matcher over the `_`-separated tokens of
 * the input, which is what the functions compute, and as a rendering of a
 * record back to the string the grammar spells (its groups in grammar order,
 * joined by `_`).  The lemmas `...Exact` tie the two: a matcher accepts a
 * string and returns a record exactly when the record is well formed and
 * renders to that string.  That is the anchored, exhaustive match of the
 * regular expression, with the captured groups determined uniquely.
 */
module Collection {
  import opened Tokens

  datatype Option<T> = None | Some(value: T)

  /** `ParserError` carries the input it rejects; `FormatError` is a vocabulary miss. */
  datatype Error = ParserError(input: string) | FormatError

  datatype Result<T> = Ok(value: T) | Err(error: Error)

  /** A model and forecasting centre (MFC) collection id. */
  datatype MfcCollectionId = MfcCollectionId(
    geographicalArea: string,
    productType: string,
    thematic: string,
    complementaryInfo: Option<string>,
    centerRanking: string,
    centerId: string)

  /** A thematic assembly centre (TAC) collection id. */
  datatype TacCollectionId = TacCollectionId(
    observationType: string,
    geographicalArea: string,
    thematic: Option<string>,
    complementaryInfo: Option<string>,
    kindProduct: string,
    productType: string,
    centerRanking: string,
    centerId: string)

  /** What `parse_collection_id` can return. */
  datatype CollectionId = Mfc(mfc: MfcCollectionId) | Tac(tac: TacCollectionId)

  /** The thematic a legacy TAC id implies, since its grammar has no such slot. */
  const DefaultThematic: string := "PHY"

  // ---------------------------------------------------------------------
  // `mfc_id`: AREA_PRODUCTTYPE_THEMATIC[_COMPLEMENTARY]_RANKING_ID

  /** The groups of `mfc_id` in grammar order; an absent complementary info has no slot. */
  function MfcTokens(g: MfcCollectionId): seq<string> {
    [g.geographicalArea, g.productType, g.thematic]
    + (match g.complementaryInfo case Some(c) => [c] case None => [])
    + [g.centerRanking, g.centerId]
  }

  /** The string `mfc_id` spells for these groups. */
  function RenderMfc(g: MfcCollectionId): string {
    Join(MfcTokens(g))
  }

  /** Every group of the record lies in the class its slot of `mfc_id` allows. */
  predicate MfcWellFormed(g: MfcCollectionId) {
    && IsUpper(g.geographicalArea)
    && IsUpper(g.productType)
    && IsUpper(g.thematic)
    && (g.complementaryInfo.Some? ==> IsUpper(g.complementaryInfo.value))
    && IsThreeDigits(g.centerRanking)
    && IsThreeDigits(g.centerId)
  }

  /** `MFCCollectionId.from_string`: a full match of `mfc_id`, or a `ParserError`. */
  function MfcFromString(s: string): (r: Result<MfcCollectionId>)
    ensures r.Ok? ==> MfcWellFormed(r.value) && RenderMfc(r.value) == s
    ensures r.Ok? ==> IsThreeDigits(r.value.centerRanking) && IsThreeDigits(r.value.centerId)
    ensures r.Err? ==> r.error == ParserError(s)
  {
    var ts := Split(s);
    if |ts| == 5 && IsUpper(ts[0]) && IsUpper(ts[1]) && IsUpper(ts[2])
       && IsThreeDigits(ts[3]) && IsThreeDigits(ts[4])
    then
      var g := MfcCollectionId(ts[0], ts[1], ts[2], None, ts[3], ts[4]);
      assert MfcTokens(g) == ts;
      Ok(g)
    else if |ts| == 6 && IsUpper(ts[0]) && IsUpper(ts[1]) && IsUpper(ts[2]) && IsUpper(ts[3])
       && IsThreeDigits(ts[4]) && IsThreeDigits(ts[5])
    then
      var g := MfcCollectionId(ts[0], ts[1], ts[2], Some(ts[3]), ts[4], ts[5]);
      assert MfcTokens(g) == ts;
      Ok(g)
    else
      Err(ParserError(s))
  }

  // ---------------------------------------------------------------------
  // `tac_id`: OBSTYPE_AREA_THEMATIC[_COMPLEMENTARY]_KINDPRODUCT_PRODUCTTYPE_RANKING_ID

  /** The groups of `tac_id` in grammar order; an absent complementary info has no slot. */
  function TacTokens(g: TacCollectionId): seq<string>
    requires g.thematic.Some?
  {
    [g.observationType, g.geographicalArea, g.thematic.value]
    + (match g.complementaryInfo case Some(c) => [c] case None => [])
    + [g.kindProduct, g.productType, g.centerRanking, g.centerId]
  }

  function RenderTac(g: TacCollectionId): string
    requires g.thematic.Some?
  {
    Join(TacTokens(g))
  }

  /** Every group lies in the class its slot of `tac_id` allows (the thematic slot is mandatory). */
  predicate TacWellFormed(g: TacCollectionId) {
    && IsUpper(g.observationType)
    && IsUpper(g.geographicalArea)
    && g.thematic.Some? && IsUpper(g.thematic.value)
    && (g.complementaryInfo.Some? ==> IsUpper(g.complementaryInfo.value))
    && IsUpperAlnum(g.kindProduct)
    && IsUpper(g.productType)
    && IsThreeDigits(g.centerRanking)
    && IsThreeDigits(g.centerId)
  }

  /** A full match of the current grammar `tac_id`. */
  function MatchTac(s: string): (r: Option<TacCollectionId>)
    ensures r.Some? ==> TacWellFormed(r.value) && RenderTac(r.value) == s
  {
    var ts := Split(s);
    if |ts| == 7 && IsUpper(ts[0]) && IsUpper(ts[1]) && IsUpper(ts[2])
       && IsUpperAlnum(ts[3]) && IsUpper(ts[4]) && IsThreeDigits(ts[5]) && IsThreeDigits(ts[6])
    then
      var g := TacCollectionId(ts[0], ts[1], Some(ts[2]), None, ts[3], ts[4], ts[5], ts[6]);
      assert TacTokens(g) == ts;
      Some(g)
    else if |ts| == 8 && IsUpper(ts[0]) && IsUpper(ts[1]) && IsUpper(ts[2]) && IsUpper(ts[3])
       && IsUpperAlnum(ts[4]) && IsUpper(ts[5]) && IsThreeDigits(ts[6]) && IsThreeDigits(ts[7])
    then
      var g := TacCollectionId(ts[0], ts[1], Some(ts[2]), Some(ts[3]), ts[4], ts[5], ts[6], ts[7]);
      assert TacTokens(g) == ts;
      Some(g)
    else
      None
  }

  // ---------------------------------------------------------------------
  // `old_tac_id`: OBSTYPE_AREA_OBSTYPE_KINDPRODUCT_PRODUCTTYPE_COMPLEMENTARY_RANKING_ID

  /** The groups of `old_tac_id` in grammar order; the observation type fills two slots. */
  function OldTacTokens(g: TacCollectionId): seq<string>
    requires g.complementaryInfo.Some?
  {
    [g.observationType, g.geographicalArea, g.observationType, g.kindProduct,
     g.productType, g.complementaryInfo.value, g.centerRanking, g.centerId]
  }

  function RenderOldTac(g: TacCollectionId): string
    requires g.complementaryInfo.Some?
  {
    Join(OldTacTokens(g))
  }

  /**
   * Every group lies in the class its slot of `old_tac_id` allows, the
   * complementary info is present, and the thematic is the default.
   */
  predicate OldTacWellFormed(g: TacCollectionId) {
    && IsUpper(g.observationType)
    && IsUpper(g.geographicalArea)
    && g.thematic == Some(DefaultThematic)
    && g.complementaryInfo.Some? && IsUpper(g.complementaryInfo.value)
    && IsUpperAlnum(g.kindProduct)
    && IsUpper(g.productType)
    && IsThreeDigits(g.centerRanking)
    && IsThreeDigits(g.centerId)
  }

  /**
   * A full match of the legacy grammar `old_tac_id`: the third token must
   * repeat the first (the back-reference), and the thematic, which has no
   * slot, is set to the default.
   */
  function MatchOldTac(s: string): (r: Option<TacCollectionId>)
    ensures r.Some? ==> OldTacWellFormed(r.value) && RenderOldTac(r.value) == s
  {
    var ts := Split(s);
    if |ts| == 8 && IsUpper(ts[0]) && IsUpper(ts[1]) && ts[2] == ts[0]
       && IsUpperAlnum(ts[3]) && IsUpper(ts[4]) && IsUpper(ts[5])
       && IsThreeDigits(ts[6]) && IsThreeDigits(ts[7])
    then
      var g := TacCollectionId(ts[0], ts[1], Some(DefaultThematic), Some(ts[5]), ts[3], ts[4], ts[6], ts[7]);
      assert OldTacTokens(g) == ts;
      Some(g)
    else
      None
  }

  /**
   * `TACCollectionId.from_string`: the current grammar first, the legacy one
   * only when the current one fails, otherwise a `ParserError`.
   */
  function TacFromString(s: string): (r: Result<TacCollectionId>)
    ensures r.Ok? ==>
      || (TacWellFormed(r.value) && RenderTac(r.value) == s)
      || (OldTacWellFormed(r.value) && RenderOldTac(r.value) == s && MatchTac(s).None?)
    ensures r.Ok? ==> IsThreeDigits(r.value.centerRanking) && IsThreeDigits(r.value.centerId)
    ensures r.Ok? ==> r.value.thematic.Some?
    ensures r.Err? ==> r.error == ParserError(s)
  {
    match MatchTac(s)
    case Some(g) => Ok(g)
    case None =>
      match MatchOldTac(s)
      case Some(g) => Ok(g)
      case None => Err(ParserError(s))
  }

  // ---------------------------------------------------------------------
  // `parse_collection_id`

  /**
   * Tries the MFC family, then the TAC family; the first success wins, and a
   * TAC result is exactly what the TAC family's `from_string` returns (the
   * current grammar before the legacy one).
   */
  function ParseCollectionId(s: string): (r: Result<CollectionId>)
    ensures r.Err? <==> MfcFromString(s).Err? && TacFromString(s).Err?
    ensures r.Err? ==> r.error == ParserError(s)
    ensures MfcFromString(s).Ok? ==> r == Ok(Mfc(MfcFromString(s).value))
    ensures r.Ok? && r.value.Tac? ==> TacFromString(s) == Ok(r.value.tac)
    ensures r.Ok? && r.value.Mfc? ==>
      MfcWellFormed(r.value.mfc) && RenderMfc(r.value.mfc) == s
    ensures r.Ok? && r.value.Tac? ==>
      || (TacWellFormed(r.value.tac) && RenderTac(r.value.tac) == s)
      || (OldTacWellFormed(r.value.tac) && RenderOldTac(r.value.tac) == s && MatchTac(s).None?)
  {
    match MfcFromString(s)
    case Ok(g) => Ok(Mfc(g))
    case Err(_) =>
      match TacFromString(s)
      case Ok(g) => Ok(Tac(g))
      case Err(_) => Err(ParserError(s))
  }

  /** The same search with the two families tried in the opposite order. */
  function ParseCollectionIdTacFirst(s: string): Result<CollectionId> {
    match TacFromString(s)
    case Ok(g) => Ok(Tac(g))
    case Err(_) =>
      match MfcFromString(s)
      case Ok(g) => Ok(Mfc(g))
      case Err(_) => Err(ParserError(s))
  }
}
