# eda-cli quality service: scoring rule and verdicts

eda-cli profiles a tabular dataset and serves a small HTTP API that tells a
caller whether a dataset is fit for modelling. This project models the
decision logic of that API (`homeworks/HW04/eda-cli/src/eda_cli/api.py`):

- `POST /quality` takes a JSON object with three optional keys, `n_rows`,
  `max_missing_share` and `has_constant_columns` (defaults `0`, `0.0`,
  `false`). It answers with a verdict `ok_for_model`, a quality score and
  three flags. The score is `1 - max_missing_share`, less 0.2 below 100 rows,
  less 0.1 with constant columns, clamped to [0, 1].
- `POST /quality-from-csv` runs the profiling engine on an uploaded table and
  answers with the engine's flags, the engine's score and a verdict that
  holds when none of the four flags is raised. Two of those flags are read
  with a default of false when the engine's dictionary lacks them.
- `POST /quality-flags-from-csv` returns the engine's flags only.

Files:

- `wrappers.dfy` — module `Wrappers`: `Option`, with `GetOr` for a dictionary
  read with a default.
- `quality_api.dfy` — module `QualityApi`: the request, its defaults, the
  verdict, the flags, the score and the three handlers as pure functions.
- `quality_properties.dfy` — module `QualityProperties`: lemmas about them.

The profiling engine (`summarize_dataset`, `missing_table`,
`compute_quality_flags`) lives in `eda_cli/core.py`, which is not part of this
model. Its output enters the model as an arbitrary `QualityFlags` value.
Shares and scores are exact Dafny `real`s, not IEEE doubles.

## Model

| member | source | states |
|---|---|---|
| QualityApi.Resolve | homeworks/HW04/eda-cli/src/eda_cli/api.py:29-31 | each key present is taken as sent; an absent `n_rows` is 0, an absent `max_missing_share` is 0.0, an absent `has_constant_columns` is false |
| QualityApi.Clamp01 | homeworks/HW04/eda-cli/src/eda_cli/api.py:44 | the result lies in [0, 1], equals its argument inside [0, 1], is 0 below and 1 above |
| QualityApi.Score | homeworks/HW04/eda-cli/src/eda_cli/api.py:39-44 | the score is in [0, 1] for every input, negative and above-one shares included; it never exceeds `1 - max_missing_share` unless clamped up to 0 |
| QualityApi.QualityFromJson | homeworks/HW04/eda-cli/src/eda_cli/api.py:28-57 | the reported score is in [0, 1]; a positive verdict comes with all three flags false; `has_constant_columns` echoes the request (default false); `too_few_rows` holds exactly when `n_rows` (default 0) is below 100; `too_many_missing` holds exactly when `max_missing_share` (default 0.0) is above 0.5 |
| QualityApi.QualityFromCsv | homeworks/HW04/eda-cli/src/eda_cli/api.py:79-92 | the flags are returned unchanged; the score is the flags' score; the verdict holds exactly when `too_few_rows` and `too_many_missing` are false and neither optional flag is present and true |
| QualityApi.QualityFlagsFromCsv | homeworks/HW04/eda-cli/src/eda_cli/api.py:115-120 | the response carries the engine's flags unchanged |
| QualityProperties.EmptyRequestOutcome | homeworks/HW04/eda-cli/src/eda_cli/api.py:29-55 | an empty JSON body resolves to 0, 0.0, false and yields flags (true, false, false), score 0.8 and a negative verdict |
| QualityProperties.OkForModelExactly | homeworks/HW04/eda-cli/src/eda_cli/api.py:34-38 | the verdict holds iff neither the row flag nor the constant flag is raised and the share is at most 0.1; a positive verdict implies all three flags are false |
| QualityProperties.FlagsDoNotDetermineVerdict | homeworks/HW04/eda-cli/src/eda_cli/api.py:34-38 | two inputs can report identical flags, all false, and still get opposite verdicts: a share in (0.1, 0.5] raises no flag yet fails the verdict |
| QualityProperties.ScoreFromFlags | homeworks/HW04/eda-cli/src/eda_cli/api.py:39-44 | the `too_few_rows` flag (`n_rows < 100`) is the condition of the 0.2 penalty, the echoed `has_constant_columns` that of the 0.1 penalty, and the score is the clamp of `1 - share` less those penalties |
| QualityProperties.ScoreWithoutClamp | homeworks/HW04/eda-cli/src/eda_cli/api.py:39-44 | with at least 100 rows, no constant columns and a share in [0, 1] the score is exactly `1 - share` |
| QualityProperties.ClampCanHideRowPenalty | homeworks/HW04/eda-cli/src/eda_cli/api.py:39-44 | a negative share can give a small dataset the perfect score 1.0 while its verdict stays negative |
| QualityProperties.ScoreReachesBothBounds | homeworks/HW04/eda-cli/src/eda_cli/api.py:44 | some input scores 0 and some input with a positive verdict scores 1 |
| QualityProperties.ScoreAntitoneInShare | homeworks/HW04/eda-cli/src/eda_cli/api.py:39 | raising the share never raises the score |
| QualityProperties.ConstantColumnsNeverRaiseScore | homeworks/HW04/eda-cli/src/eda_cli/api.py:42-43 | setting `has_constant_columns` never raises the score |
| QualityProperties.FewRowsNeverRaiseScore | homeworks/HW04/eda-cli/src/eda_cli/api.py:40-41 | replacing the row count by one below 100 never raises the score |
| QualityProperties.ScoreMonotone | homeworks/HW04/eda-cli/src/eda_cli/api.py:39-44 | an input no worse in share, row flag and constant flag than another scores at least as high |
| QualityProperties.CsvAbsentKeysReadFalse | homeworks/HW04/eda-cli/src/eda_cli/api.py:82-83 | an absent `has_constant_columns` or `has_high_cardinality_categoricals` gives the same verdict as the key set to false |
| QualityProperties.CsvVerdictIgnoresScore | homeworks/HW04/eda-cli/src/eda_cli/api.py:79-84 | the CSV verdict does not depend on the quality score |
| QualityProperties.JsonVerdictStricterThanCsvRule | homeworks/HW04/eda-cli/src/eda_cli/api.py:34-38 | a positive `/quality` verdict implies the CSV rule accepts that response's own flags, and some request is accepted by the CSV rule on its flags but rejected by the JSON verdict |

## Left out

- The FastAPI application object, routing, `GET /health`, upload reading and `async` handling: framework I/O.
- UTF-8 decoding, `pd.read_csv` and the empty-table check of the CSV endpoints: parsing done by pandas, which is not part of this model.
- The mapping of exceptions to HTTP 400 responses. Ill-typed JSON values (a string `n_rows`, a `null` share) are not modelled. Nor is, on `/quality-from-csv`, a flags dictionary without `too_few_rows`, `too_many_missing` or `quality_score`: that endpoint reads each by indexing, so a missing `too_few_rows` or `quality_score` is always a KeyError and HTTP 400, while a missing `too_many_missing` is one only when `too_few_rows` is false, because `and` stops at the first false operand (otherwise the endpoint answers normally, with a negative verdict). `/quality-flags-from-csv` reads no key and returns whatever dictionary the engine gives; for `QualityFlagsFromCsv` the five-field `QualityFlags` is only the abstract type chosen for the engine's output.
- QualityApi.QualityFromJson: a `max_missing_share` sent as a JSON integer too large in magnitude for a double, of either sign (`10**400` or `-10**400`), makes `1.0 - max_missing_share` raise OverflowError in the source, which the handler turns into HTTP 400. The model, on unbounded reals, returns a normal response instead: for the huge positive share score 0.0, a negative verdict and `too_many_missing` true; for the huge negative share score 1.0, `too_many_missing` false, and a positive verdict when `n_rows` is at least 100 and there are no constant columns.
- QualityApi.Resolve: `n_rows` is an integer here; a fractional JSON number for `n_rows` is not modelled.
- QualityApi.Score: a `NaN` share, which Python's JSON parser accepts, is not modelled: exact reals have no `NaN`, while the source's `max(0.0, min(1.0, nan))` yields a score of 1.0.
- `latency_ms`: wall-clock time.
- `round(quality_score, 3)` in both responses: the model keeps the unrounded score, in exact reals rather than IEEE doubles (so 0.7 is exact where Python computes 0.7000000000000001 before rounding).
- `summarize_dataset`, `missing_table`, `compute_quality_flags` and the other functions of `eda_cli/core.py`: that module is not part of this model; its result is an arbitrary `QualityFlags` value.
- `homeworks/HW03/eda-cli/tests/test_core.py`: it exercises only `eda_cli/core.py`, which is not modelled. Its assertion that the engine's score lies in [0, 1] is not carried over: `QualityFlags.qualityScore` is any real here, and only the `/quality` score (`Score`) is proved to lie in [0, 1].
