/**
 * The quality service of eda-cli: the scoring rule of the `/quality` endpoint,
 * which works on three numbers a caller sends as JSON, and the verdict of the
 * `/quality-from-csv` endpoint, which works on the flags the profiling engine
 * computes for an uploaded table.
 *
 * Shares and scores are exact reals, not IEEE doubles; the score is the value
 * before the response rounds it to three decimals.
 */
module QualityApi {
  import opened Wrappers

  /** Fewer rows than this make a dataset "too small". */
  const MinRows: int := 100
  /** The JSON verdict accepts a largest missing share up to this value. */
  const OkMissingShare: real := 0.1
  /** A largest missing share above this value raises `too_many_missing`. */
  const TooManyMissingShare: real := 0.5
  /** Subtracted from the score when the dataset has too few rows. */
  const FewRowsPenalty: real := 0.2
  /** Subtracted from the score when the dataset has constant columns. */
  const ConstantColumnsPenalty: real := 0.1

  // ---------------------------------------------------------------------
  // POST /quality
  // ---------------------------------------------------------------------

  /** The JSON body of `/quality`; every key is optional. */
  datatype QualityRequest = QualityRequest(
    nRows: Option<int>,
    maxMissingShare: Option<real>,
    hasConstantColumns: Option<bool>)

  /** The request with its defaults filled in. */
  datatype QualityInputs = QualityInputs(
    nRows: int,
    maxMissingShare: real,
    hasConstantColumns: bool)

  /** The `flags` object of the `/quality` response. */
  datatype JsonFlags = JsonFlags(
    tooFewRows: bool,
    tooManyMissing: bool,
    hasConstantColumns: bool)

  /** A response of `/quality` or `/quality-from-csv` (without the latency). */
  datatype QualityResponse<F> = QualityResponse(
    okForModel: bool,
    qualityScore: real,
    flags: F)

  /** The request with no keys at all: an empty JSON object. */
  const EmptyRequest: QualityRequest := QualityRequest(None, None, None)

  /** Reads the three keys, with defaults 0, 0.0 and false for absent ones. */
  function Resolve(req: QualityRequest): (inp: QualityInputs)
    ensures req.nRows.None? ==> inp.nRows == 0
    ensures req.maxMissingShare.None? ==> inp.maxMissingShare == 0.0
    ensures req.hasConstantColumns.None? ==> !inp.hasConstantColumns
    ensures req.nRows.Some? ==> inp.nRows == req.nRows.value
    ensures req.maxMissingShare.Some? ==> inp.maxMissingShare == req.maxMissingShare.value
    ensures req.hasConstantColumns.Some? ==> inp.hasConstantColumns == req.hasConstantColumns.value
  {
    QualityInputs(
      req.nRows.GetOr(0),
      req.maxMissingShare.GetOr(0.0),
      req.hasConstantColumns.GetOr(false))
  }

  /** The JSON verdict: enough rows, little missing data, no constant column. */
  predicate OkForModel(inp: QualityInputs) {
    && inp.nRows >= MinRows
    && inp.maxMissingShare <= OkMissingShare
    && !inp.hasConstantColumns
  }

  /** The flags the `/quality` response reports. */
  function FlagsOf(inp: QualityInputs): JsonFlags {
    JsonFlags(
      inp.nRows < MinRows,
      inp.maxMissingShare > TooManyMissingShare,
      inp.hasConstantColumns)
  }

  /** Python's `max(0.0, min(1.0, x))`. */
  function Clamp01(x: real): (r: real)
    ensures 0.0 <= r <= 1.0
    ensures 0.0 <= x <= 1.0 ==> r == x
    ensures x < 0.0 ==> r == 0.0
    ensures x > 1.0 ==> r == 1.0
  {
    var upper := if 1.0 < x then 1.0 else x;
    if 0.0 < upper then upper else 0.0
  }

  /** The score before the clamp: one minus the share, minus the penalties in turn. */
  function RawScore(inp: QualityInputs): real {
    var s0 := 1.0 - inp.maxMissingShare;
    var s1 := if inp.nRows < MinRows then s0 - FewRowsPenalty else s0;
    if inp.hasConstantColumns then s1 - ConstantColumnsPenalty else s1
  }

  /** The quality score of `/quality`, always within [0, 1]. */
  function Score(inp: QualityInputs): (s: real)
    ensures 0.0 <= s <= 1.0
    ensures s <= 1.0 - inp.maxMissingShare || s == 0.0
  {
    Clamp01(RawScore(inp))
  }

  /** The `/quality` handler, without its latency and its rounding. */
  function QualityFromJson(req: QualityRequest): (resp: QualityResponse<JsonFlags>)
    ensures 0.0 <= resp.qualityScore <= 1.0
    ensures resp.okForModel ==> !resp.flags.tooFewRows && !resp.flags.tooManyMissing
    ensures resp.okForModel ==> !resp.flags.hasConstantColumns
    ensures resp.flags.hasConstantColumns == req.hasConstantColumns.GetOr(false)
    ensures resp.flags.tooFewRows <==> req.nRows.GetOr(0) < MinRows
    ensures resp.flags.tooManyMissing <==> req.maxMissingShare.GetOr(0.0) > TooManyMissingShare
  {
    var inp := Resolve(req);
    QualityResponse(OkForModel(inp), Score(inp), FlagsOf(inp))
  }

  // ---------------------------------------------------------------------
  // POST /quality-from-csv and POST /quality-flags-from-csv
  // ---------------------------------------------------------------------

  /**
   * The dictionary the profiling engine returns for a table. The verdict
   * indexes `too_few_rows` and `too_many_missing` directly and reads the two
   * other flags with a default, so those two keys may be absent.
   */
  datatype QualityFlags = QualityFlags(
    qualityScore: real,
    tooFewRows: bool,
    tooManyMissing: bool,
    hasConstantColumns: Option<bool>,
    hasHighCardinalityCategoricals: Option<bool>)

  /** The `flags`-only response of `/quality-flags-from-csv`. */
  datatype FlagsResponse = FlagsResponse(flags: QualityFlags)

  /** The CSV verdict: none of the four flags is raised; an absent flag is false. */
  predicate CsvOk(flags: QualityFlags) {
    && !flags.tooFewRows
    && !flags.tooManyMissing
    && !flags.hasConstantColumns.GetOr(false)
    && !flags.hasHighCardinalityCategoricals.GetOr(false)
  }

  /** The `/quality-from-csv` handler once the engine has produced its flags. */
  function QualityFromCsv(flags: QualityFlags): (resp: QualityResponse<QualityFlags>)
    ensures resp.flags == flags
    ensures resp.qualityScore == flags.qualityScore
    ensures resp.okForModel <==>
      !flags.tooFewRows && !flags.tooManyMissing
      && flags.hasConstantColumns != Some(true)
      && flags.hasHighCardinalityCategoricals != Some(true)
  {
    QualityResponse(CsvOk(flags), flags.qualityScore, flags)
  }

  /** The `/quality-flags-from-csv` handler once the engine has produced its flags. */
  function QualityFlagsFromCsv(flags: QualityFlags): (resp: FlagsResponse)
    ensures resp.flags == flags
  {
    FlagsResponse(flags)
  }
}
