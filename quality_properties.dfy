/**
 * Properties of the quality rule: what the defaults give, how the verdict,
 * the flags and the score agree, when the clamp matters, monotonicity, and
 * how the JSON verdict relates to the CSV verdict.
 */
module QualityProperties {
  import opened Wrappers
  import opened QualityApi

  /** An empty JSON body is small, clean and constant-free: score 0.8, not fit for modelling. */
  lemma EmptyRequestOutcome()
    ensures Resolve(EmptyRequest) == QualityInputs(0, 0.0, false)
    ensures QualityFromJson(EmptyRequest).flags == JsonFlags(true, false, false)
    ensures QualityFromJson(EmptyRequest).qualityScore == 0.8
    ensures !QualityFromJson(EmptyRequest).okForModel
  {
  }

  /**
   * The verdict holds exactly when neither the row flag nor the constant
   * flag is raised and the share is at most 0.1; it then implies that no
   * flag at all is raised.
   */
  lemma OkForModelExactly(inp: QualityInputs)
    ensures OkForModel(inp) <==>
      !FlagsOf(inp).tooFewRows && !FlagsOf(inp).hasConstantColumns
      && inp.maxMissingShare <= 0.1
    ensures OkForModel(inp) ==> FlagsOf(inp) == JsonFlags(false, false, false)
  {
  }

  /**
   * The reported flags do not determine the verdict: two inputs with the same
   * flags, all false, get opposite verdicts (a share in (0.1, 0.5] raises no
   * flag yet fails the verdict).
   */
  lemma FlagsDoNotDetermineVerdict()
    ensures exists a: QualityInputs, b: QualityInputs ::
      FlagsOf(a) == JsonFlags(false, false, false) && FlagsOf(b) == FlagsOf(a)
      && OkForModel(a) && !OkForModel(b)
  {
    var a := QualityInputs(100, 0.0, false);
    var b := QualityInputs(100, 0.3, false);
    assert FlagsOf(a) == JsonFlags(false, false, false) && FlagsOf(b) == FlagsOf(a)
      && OkForModel(a) && !OkForModel(b);
  }

  /**
   * The score is the clamped share complement less one penalty per flag:
   * `too_few_rows` is exactly the condition of the 0.2 penalty and
   * `has_constant_columns` (the input, echoed) that of the 0.1 penalty.
   */
  lemma ScoreFromFlags(inp: QualityInputs)
    ensures FlagsOf(inp).hasConstantColumns == inp.hasConstantColumns
    ensures FlagsOf(inp).tooFewRows <==> inp.nRows < 100
    ensures Score(inp) == Clamp01(1.0 - inp.maxMissingShare
      - (if FlagsOf(inp).tooFewRows then 0.2 else 0.0)
      - (if FlagsOf(inp).hasConstantColumns then 0.1 else 0.0))
  {
  }

  /** With enough rows, no constant column and a share in [0, 1] the clamp does nothing. */
  lemma ScoreWithoutClamp(inp: QualityInputs)
    requires inp.nRows >= 100 && !inp.hasConstantColumns
    requires 0.0 <= inp.maxMissingShare <= 1.0
    ensures Score(inp) == 1.0 - inp.maxMissingShare
  {
  }

  /** A negative share (which the endpoint does not reject) lets the clamp hide the row penalty. */
  lemma ClampCanHideRowPenalty()
    ensures exists inp: QualityInputs ::
      FlagsOf(inp).tooFewRows && !OkForModel(inp) && Score(inp) == 1.0
  {
    var inp := QualityInputs(0, -0.5, false);
    assert RawScore(inp) == 1.3;
    assert FlagsOf(inp).tooFewRows && !OkForModel(inp) && Score(inp) == 1.0;
  }

  /** Both ends of [0, 1] are reached. */
  lemma ScoreReachesBothBounds()
    ensures exists inp: QualityInputs :: Score(inp) == 0.0
    ensures exists inp: QualityInputs :: Score(inp) == 1.0 && OkForModel(inp)
  {
    var low := QualityInputs(0, 0.9, true);
    assert RawScore(low) == -0.2;
    assert Score(low) == 0.0;
    var high := QualityInputs(100, 0.0, false);
    assert Score(high) == 1.0 && OkForModel(high);
  }

  /** More missing data never raises the score. */
  lemma ScoreAntitoneInShare(inp: QualityInputs, share: real)
    requires inp.maxMissingShare <= share
    ensures Score(inp.(maxMissingShare := share)) <= Score(inp)
  {
  }

  /** Reporting constant columns never raises the score. */
  lemma ConstantColumnsNeverRaiseScore(inp: QualityInputs)
    ensures Score(inp.(hasConstantColumns := true)) <= Score(inp.(hasConstantColumns := false))
  {
  }

  /** Dropping below 100 rows never raises the score. */
  lemma FewRowsNeverRaiseScore(inp: QualityInputs, fewer: int)
    requires fewer < 100
    ensures Score(inp.(nRows := fewer)) <= Score(inp)
  {
  }

  /**
   * The three together: an input no worse on every count than another
   * (no larger share, no fewer-rows flag it lacks, no constant flag it
   * lacks) scores at least as high.
   */
  lemma ScoreMonotone(better: QualityInputs, worse: QualityInputs)
    requires better.maxMissingShare <= worse.maxMissingShare
    requires better.nRows < 100 ==> worse.nRows < 100
    requires better.hasConstantColumns ==> worse.hasConstantColumns
    ensures Score(worse) <= Score(better)
  {
  }

  /** An absent `has_constant_columns` or high-cardinality key reads as false. */
  lemma CsvAbsentKeysReadFalse(flags: QualityFlags)
    ensures CsvOk(flags.(hasConstantColumns := None)) == CsvOk(flags.(hasConstantColumns := Some(false)))
    ensures CsvOk(flags.(hasHighCardinalityCategoricals := None))
      == CsvOk(flags.(hasHighCardinalityCategoricals := Some(false)))
  {
  }

  /** The CSV verdict does not look at the score: any score goes with either verdict. */
  lemma CsvVerdictIgnoresScore(flags: QualityFlags, score: real)
    ensures CsvOk(flags.(qualityScore := score)) == CsvOk(flags)
  {
  }

  /**
   * The `/quality` response read as a CSV flags dictionary: its score and its
   * three flags, with no high-cardinality key.
   */
  function AsQualityFlags(resp: QualityResponse<JsonFlags>): (flags: QualityFlags)
    ensures CsvOk(flags) <==>
      !resp.flags.tooFewRows && !resp.flags.tooManyMissing && !resp.flags.hasConstantColumns
  {
    QualityFlags(resp.qualityScore, resp.flags.tooFewRows, resp.flags.tooManyMissing,
      Some(resp.flags.hasConstantColumns), None)
  }

  /**
   * The JSON verdict implies the CSV rule applied to the JSON response's own
   * flags, and not conversely: the JSON rule has the tighter 0.1 share limit.
   */
  lemma JsonVerdictStricterThanCsvRule(req: QualityRequest)
    ensures QualityFromJson(req).okForModel ==> CsvOk(AsQualityFlags(QualityFromJson(req)))
    ensures exists r: QualityRequest ::
      CsvOk(AsQualityFlags(QualityFromJson(r))) && !QualityFromJson(r).okForModel
  {
    var r := QualityRequest(Some(100), Some(0.3), None);
    assert CsvOk(AsQualityFlags(QualityFromJson(r))) && !QualityFromJson(r).okForModel;
  }
}
