# Verified model of the blood-report analyser's clinical logic

The analyser reads a laboratory blood report (a PDF, an image, a CSV row or a
JSON document), extracts the measured parameters, classifies each against a
reference range, detects clinical patterns, adjusts their risk to the
patient's age, gender and lifestyle, and writes a summary with advice. Most
of the repository is OCR, language-model and Streamlit plumbing. Inside it
sits a body of deterministic, table-driven logic, and that logic is what
this project models and proves things about.

One Dafny module stands for each source file it models:

- **Model-2 pipeline** (`model2/`):
  - `severity.dfy` (`Severity`): the ordinal severity label.
  - `loader.dfy` (`Loader`): header normalisation, canonical names, number casting and column routing.
  - `pattern_engine.dfy` (`PatternEngine`): the six pattern rules.
  - `probable_causes.dfy` (`ProbableCauses`): damped evidence, prior fusion, normalisation and ranking.
  - `confidence.dfy` (`Confidence`): the confidence score and its explanation.
  - `guardrails.dfy` (`Guardrails`): the recursive redaction.
  - `model2_runner.dfy` (`Runner`): observation assembly, the missing list, the severity map, the output and its summary.
  - `contextual.dfy` (`Contextual`): value normalisation.
- **Graph nodes** (`nodes/`):
  - `nodes_validate_standardize.dfy`, `nodes_model1_interpretation.dfy`, `nodes_model2_patterns.dfy`, `nodes_recommendations.dfy`.
  - `nodes_context_analysis.dfy`, `nodes_model3_context.dfy`, `nodes_synthesis.dfy`.
- **Older pipeline**:
  - `model2_pattern.dfy` (`RiskPatterns`): the rule table with risk adjustment.
  - `model3_pattern.dfy` (`ContextAdjust`): the contextual score modifiers, over a shared note store.
  - `synthesizer.dfy` (`Synthesizer`): the organ-wise summary.
  - `data_processor.dfy` (`DataProcessor`) and `validation_and_standardization.dfy` (`UnitStandardization`).
- **Extractor** (`extractor/`):
  - `param_extractor.dfy` (`ParamExtractor`), `postprocess.dfy` (`Postprocess`), `json_utils.dfy` (`JsonUtils`).
- **Core services** (`src/core/`):
  - `advanced_risk.dfy` (`AdvancedRisk`): lipid ratios, the Framingham points score and metabolic syndrome.
  - `multi_report_detector.dfy` (`MultiReportDetector`): splitting a document into reports.
  - `multi_report_manager.dfy` (`MultiReportManager`): cross-report comparison, trends and key changes.
  - `multi_report_qa.dfy` (`MultiReportQa`): session memory, response cache, question preprocessing and cache key.
- **Early prototype** (`sakshi/`):
  - `sakshi_model2_pattern.dfy`, `sakshi_context.dfy`, `sakshi_synthesis.dfy`.
- **Shared modules**:
  - `common.dfy` (`Common`): options, Python scalar and JSON values, insertion-ordered dicts as sequences of pairs, ASCII string functions with Python's meaning, and decimal rounding.
  - `numeric.dfy` (`Numeric`): `float(s)`, `int(s)` and `int(x)`.

Modelling conventions:

- Numbers are `real`. Python's `int`/`float` distinction is kept only where the source tests it (`isinstance`); a `bool` counts as an `int`, as in Python.
- A Python dict is a sequence of key/value pairs, because insertion order matters for rule order, output order and cache eviction.
- Each regular-expression search is a predicate or a function returning its matches, passed in as a parameter.
- Each collaborator that is not part of this model is an input:
  - reference ranges and priors;
  - the knowledge-graph edges;
  - derived metrics and the cardio-risk band;
  - the language model and its availability;
  - the clock;
  - Python's `hash`;
  - `math.log10`;
  - `str` of a float.
- Code that loops and updates state is a `method` proved against a specification function; the lemmas are proved about that function. The source's in-place updates are classes: `Postprocess.Row`, `ContextAdjust.NoteStore`, `MultiReportManager.Manager` and `MultiReportQa.Assistant`.

## Model

| member | source | states |
|---|---|---|
| Severity.Span | model2/pipeline/severity.py:53 | the borderline width is high - low for a proper range; for a one-point range it is high, or 1 when high is 0 |
| Severity.Grade | model2/pipeline/severity.py:37-60 | below low: very severe under half of low, severe under 70%, else low; above high: very severe over twice high, severe over 1.5 times, else high; inside: borderline low iff within 5% of the span from low, borderline high iff not that and within 5% of high, else normal |
| Severity.LabelFromRange | model2/pipeline/severity.py:23-62 | None gives "missing"; no range gives "unknown_range"; an unparseable value gives "unparseable" with its text; otherwise the float, its grade, its note, and a distance negative below, positive above and zero inside the range |
| Severity.DistanceMatchesLabel | model2/pipeline/severity.py:36-62 | the distance is negative iff the label is a low one, positive iff a high one, zero iff an in-range one |
| Severity.GradeMonotone | model2/pipeline/severity.py:37-60 | for any range a larger value never receives a lower label on the ordinal scale |
| Severity.MentionsSevere | model2/pipeline/severity.py:39-48 | exactly the four severe labels contain "severe" in their names |
| Loader.ParensToWords | model2/pipeline/loader.py:35 | a header without '(' is unchanged by the parenthesis rewrite |
| Loader.ParensBecomeWords | model2/pipeline/loader.py:35 | "(text)" with non-empty text free of ')' becomes " text", and the rest of the header is rewritten in turn |
| Loader.ParensPrefix | model2/pipeline/loader.py:35 | text before the first '(' is copied unchanged, and the rewrite continues after it |
| Loader.Squash | model2/pipeline/loader.py:37 | every character of the result is a letter, digit or '_', no two '_' are adjacent, and a non-empty input gives a non-empty result |
| Loader.Collapse | model2/pipeline/loader.py:38 | runs of '_' become one: no two adjacent '_' remain, nothing new appears, and a string without "__" is unchanged |
| Loader.StripUnderscores | model2/pipeline/loader.py:39 | trimming '_' from a squashed string leaves a normalised header |
| Loader.NormalizeHeader | model2/pipeline/loader.py:31-40 | the result is normalised: letters, digits and single '_', with no '_' at either end |
| Loader.UnitInParens | model2/pipeline/loader.py:31-40 | for any name a and unit u of letters and digits, "a (u)" normalises to "a_u": the unit in parentheses stays as a word |
| Loader.PercentSign | model2/pipeline/loader.py:36 | for any name a of letters and digits, "a%" normalises to "a_percent": the '%' becomes the word "percent" |
| Loader.NormalizeIdempotent | model2/pipeline/loader.py:31-40 | normalising a normalised header changes nothing |
| Common.SplitJoinOn | model2/pipeline/loader.py:47-49 | joining pieces free of the separator and splitting again at it gives the pieces back (used with '_' for header parts and with a newline for the text summary) |
| Loader.JoinSplit | model2/pipeline/loader.py:47-49 | splitting at '_' and joining with '_' gives the string back |
| Loader.SplitNormalized | model2/pipeline/loader.py:47 | the pieces of a normalised header are non-empty runs of letters and digits |
| Loader.JoinNormalized | model2/pipeline/loader.py:49 | joining non-empty alphanumeric runs with '_' gives a normalised header |
| Loader.AliasTargets | model2/pipeline/loader.py:7-27 | every alias target is normalised and, except "HDL", its lower-case form maps back to it |
| Loader.HdlFixed | model2/pipeline/loader.py:42-49 | "HDL" canonicalises to itself through the upper-case branch |
| Loader.RecasedParts | model2/pipeline/loader.py:47-49 | re-casing the parts keeps the header normalised and its lower-case form, and the re-cased parts re-case to themselves |
| Loader.CanonicalKeyCases | model2/pipeline/loader.py:42-49 | `_canonical_key` gives the alias target when the lower-cased normalised header is an alias; otherwise the normalised header with each '_'-part re-cased (upper case for the listed parts, capitalised for the rest), equal to it up to case; the result is always normalised |
| Loader.CanonicalIdempotent | model2/pipeline/loader.py:42-49 | canonicalising a canonical key changes nothing |
| Loader.CastResidue | model2/pipeline/loader.py:60-70 | an empty residue gives None; a residue with '.' gives `float(s)` when that parses; one without '.' gives `int(s)` when that parses and otherwise `float(s)`; the residue text itself exactly when `float` fails too |
| Loader.CastText | model2/pipeline/loader.py:54-70 | blank text gives None; text left over is non-empty and holds no unit letter or comma |
| Loader.CastNumber | model2/pipeline/loader.py:51-70 | every value is cast through its text `str(v)`: None and bools give None, an int is kept, and text that comes back holds no unit letter or comma |
| Loader.IntCast | model2/pipeline/loader.py:53-65 | `str` of any int, negative ones included, casts back to that int |
| Loader.BoolCast | model2/pipeline/loader.py:53-58 | "True" and "False" lose every letter to the unit rule, so a bool casts to None |
| Loader.FloatKept | model2/pipeline/loader.py:53-64 | a float whose `str` is a plain decimal that reads back as the float is kept |
| Loader.ExponentFloat | model2/pipeline/loader.py:53-70 | a float printing as "1e-05" loses its 'e' to the unit rule and comes back as the text "1-05" |
| Loader.InfinityCast | model2/pipeline/loader.py:53-58 | a float printing as "inf" is all letters and casts to None |
| Loader.CastCell | model2/pipeline/loader.py:51-70 | a CSV cell is cast as its text; a missing cell gives None |
| Loader.CastCellIsCastNumber | model2/pipeline/loader.py:51-70 | casting a cell agrees with `_cast_number` on the value the CSV reader gives |
| Loader.CastNumberWithUnit | model2/pipeline/loader.py:57-65 | the text of a whole number followed by unit letters casts to that int |
| Loader.BeforeLastUnderscore | model2/pipeline/loader.py:126 | the result is the prefix before the last '_', or the whole string when there is none |
| Loader.LoadCsvRow | model2/pipeline/loader.py:120-157 | the column loop returns the specified fold of the column routing over the row |
| Loader.RouteStatusColumn | model2/pipeline/loader.py:125-131 | a status column stores the upper-cased non-blank cell under the canonical base name |
| Loader.RouteNoteColumn | model2/pipeline/loader.py:132-138 | a note column stores the non-blank cell under the canonical base name |
| Loader.RouteCsvWellFormed | model2/pipeline/loader.py:120-157 | parameters are numbers or None, statuses are non-empty and upper-case, notes are non-empty |
| Loader.BlankSideColumn | model2/pipeline/loader.py:128-138 | a status or note column with a blank cell changes nothing |
| Loader.NonNumericDropped | model2/pipeline/loader.py:149-155 | a value column whose text casts to leftover text (neither a number nor None, as "1e-05" gives "1-05") is dropped |
| Loader.LettersCastNone | model2/pipeline/loader.py:57-61 | text made only of letters and unit signs casts to None |
| Loader.LetterCellStoredNone | model2/pipeline/loader.py:149-153 | a value column whose cell is all letters, such as "positive", is stored as a parameter with value None |
| Loader.CanonicalPlain | model2/pipeline/loader.py:47-49 | a one-part name that is no alias and no upper-case part is capitalised |
| Loader.CsvAgeKey | model2/pipeline/loader.py:143-144 | a CSV "age" column is cast as a number and stored under "age" |
| Loader.CsvGenderKey | model2/pipeline/loader.py:145-146 | a CSV "gender" column is stored as text under "Gender" |
| Loader.LoadJsonObject | model2/pipeline/loader.py:94-110 | the entry loop returns the specified fold of the JSON routing over the entries, for any `str` of floats |
| Loader.RouteJsonWellFormed | model2/pipeline/loader.py:94-110 | parameters are numbers or None, statuses are LOW, HIGH or NORMAL, and metadata keys are metadata |
| Loader.JsonAgeKey | model2/pipeline/loader.py:95-98 | a JSON "age" keeps its value under the canonical key "Age" |
| PatternEngine.StartsLow | model2/pipeline/pattern_engine.py:36 | only the label "low" itself starts with "low" |
| PatternEngine.StartsHigh | model2/pipeline/pattern_engine.py:44 | only the label "high" itself starts with "high" |
| PatternEngine.StartsVerySevere | model2/pipeline/pattern_engine.py:36 | exactly the two very-severe labels, the high one included, start with "very_severe" |
| PatternEngine.AnemicLabels | model2/pipeline/pattern_engine.py:36 | hemoglobin counts as anemic iff its label is low, severe_low, very_severe_low or very_severe_high |
| PatternEngine.AnemiaRule | model2/pipeline/pattern_engine.py:35-53 | present iff the hemoglobin label is anemic; type microcytic iff MCV is "low", macrocytic iff "high", normocytic otherwise; support lists Hemoglobin_LOW then the MCV and RDW tokens; absent means no type and no support |
| PatternEngine.ThrombocytopeniaRule | model2/pipeline/pattern_engine.py:55-60 | present iff the platelet label is low-side; isolated iff present, WBC not "low" and no anemia |
| PatternEngine.HighRule | model2/pipeline/pattern_engine.py:62-64 | neutrophilia and lymphocytosis are present iff the label is exactly "high" |
| PatternEngine.DyslipidemiaRule | model2/pipeline/pattern_engine.py:66-80 | present iff a lipid label is "high"; support names the high ones in order |
| PatternEngine.AtLeast | model2/pipeline/pattern_engine.py:90 | a falsy value is false, a number compares with the threshold, and the check fails iff a truthy value cannot be read as a float |
| PatternEngine.MetabolicRule | model2/pipeline/pattern_engine.py:82-93 | present iff TG is high, HDL low or the glycemic check holds; support lists the two signal tokens accordingly |
| PatternEngine.DetectPatterns | model2/pipeline/pattern_engine.py:90 | detection fails exactly when `float` raises in the glycemic check: on a truthy HbA1c that is no number, or, with HbA1c below 5.7 or falsy, on a truthy fasting glucose that is no number (the `or` short-circuits) |
| PatternEngine.DetectKeys | model2/pipeline/pattern_engine.py:23-95 | the result has exactly the six pattern keys in rule order |
| PatternEngine.DetectTotal | model2/pipeline/pattern_engine.py:90 | with HbA1c and fasting glucose numeric or None, detection never raises |
| PatternEngine.AllMissing | model2/pipeline/pattern_engine.py:23-95 | with every value None, no pattern is present and every severity is "missing" |
| PatternEngine.AnemiaNotIsolated | model2/pipeline/pattern_engine.py:59 | thrombocytopenia alongside anemia is never isolated |
| ProbableCauses.Query | model2/pipeline/probable_causes.py:37 | the edges returned for an observation are graph edges leaving that observation |
| ProbableCauses.Fuse | model2/pipeline/probable_causes.py:49-53 | every score is replaced by its fusion with the cause's prior, 0 when absent, same causes in the same order |
| ProbableCauses.MaxScore | model2/pipeline/probable_causes.py:56 | the result bounds every score and is attained when there is any score |
| ProbableCauses.Normalize | model2/pipeline/probable_causes.py:57-59 | every score is divided by the maximum and rounded to 3 places, same causes in the same order |
| ProbableCauses.AddObservation | model2/pipeline/probable_causes.py:37-46 | the inner loop adds the edges of one observation to the evidence in order |
| ProbableCauses.AccumulateEvidence | model2/pipeline/probable_causes.py:36-46 | the evidence loops give the specified accumulation over all observations |
| ProbableCauses.FuseScores | model2/pipeline/probable_causes.py:49-53 | the fusion loop rewrites each score to its fused value |
| ProbableCauses.NormalizeScores | model2/pipeline/probable_causes.py:55-59 | with a positive maximum every score is divided by it; otherwise the scores are unchanged |
| ProbableCauses.InferProbableCauses | model2/pipeline/probable_causes.py:13-72 | raw scores are the fused and normalised evidence, and the causes are those scores ranked with their supports |
| ProbableCauses.SortDescCorrect | model2/pipeline/probable_causes.py:62 | sorting by descending score yields a sorted permutation that keeps entries of equal score in input order, as Python's stable sort does |
| ProbableCauses.AccumulateUnit | model2/pipeline/probable_causes.py:43-44 | with non-negative weights the accumulated evidence lies in [0, 1] |
| ProbableCauses.FinalScoresUnit | model2/pipeline/probable_causes.py:49-59 | with non-negative weights and priors of at least -1, every output score lies in [0, 1] |
| ProbableCauses.NormalizeHasOne | model2/pipeline/probable_causes.py:56-59 | with a positive maximum, some cause scores exactly 1 after normalisation |
| ProbableCauses.RankedFirst | model2/pipeline/probable_causes.py:62-70 | the first ranked cause scores at least as much as every other |
| ProbableCauses.TopCauseIsOne | model2/pipeline/probable_causes.py:49-70 | with non-negative evidence and a positive maximum, the top cause scores exactly 1 |
| ProbableCauses.RankedCorrect | model2/pipeline/probable_causes.py:62-70 | the ranking is descending, a permutation of the scores, and each cause carries its support and source "kg" |
| ProbableCauses.NoEdgesNoCauses | model2/pipeline/probable_causes.py:36-72 | observations without outgoing edges give no evidence and no causes |
| ProbableCauses.SupportCountsEdges | model2/pipeline/probable_causes.py:46 | each contributing edge adds exactly one trace to its target's support, so a repeated observation counts twice |
| ProbableCauses.DampedSum | model2/pipeline/probable_causes.py:43-44 | two edges to a new cause score min(1, 0.8 (w1 + w2)), more than either alone below the cap |
| Confidence.ParameterPresenceScore | model2/pipeline/confidence.py:42-58 | the counting loop returns the presence score: present over counted non-metadata keys, rounded to 3 places, 0 for none |
| Confidence.PatternStrength | model2/pipeline/confidence.py:61-81 | the weighting loop returns the pattern score: mean weight of present patterns (1 for severe, 0.5 otherwise), rounded, 0 for none |
| Confidence.KgTopScore | model2/pipeline/confidence.py:84-88 | 0 for no causes, otherwise the first cause's score |
| Confidence.Reasons | model2/pipeline/confidence.py:97-114 | there is no caveat iff presence is at least 0.5, pattern at least 0.7 and nothing is missing; at most three caveats |
| Confidence.Explanation | model2/pipeline/confidence.py:91-119 | the high-confidence sentence exactly when there is no caveat, else "Moderate confidence because " and the caveats joined by "; " |
| Confidence.ComputeConfidence | model2/pipeline/confidence.py:13-39 | the components are the three signal scores, the score is their 0.4/0.4/0.2 weighted sum rounded to 3 places, and the explanation comes from presence, pattern and the missing list |
| Confidence.PresenceUnit | model2/pipeline/confidence.py:55-58 | the presence score lies in [0, 1] |
| Confidence.PatternBounds | model2/pipeline/confidence.py:66-81 | the pattern score is 0 with no present pattern and lies in [0.5, 1] otherwise |
| Confidence.ScoreUnit | model2/pipeline/confidence.py:25 | given a cause score in [0, 1], the overall score lies in [0, 1] |
| Confidence.EmptyScoresZero | model2/pipeline/confidence.py:20-25 | no parameters, no present pattern and no cause give a score of 0 |
| Guardrails.Redact | model2/pipeline/guardrails.py:26-29 | a string value becomes the marker iff its lower-cased text contains a forbidden term, else it is unchanged |
| Guardrails.SanitizeFields | model2/pipeline/guardrails.py:24-31 | a dict keeps its number of entries |
| Guardrails.SanitizeOutput | model2/pipeline/guardrails.py:13-36 | the copy-rename-scan method returns the specified sanitised output |
| Guardrails.SanitizeKeepsKeys | model2/pipeline/guardrails.py:25-31 | keys are never changed, at any depth |
| Guardrails.ListStringsEscape | model2/pipeline/guardrails.py:32-34 | a string directly inside a list is never inspected, so it survives unredacted |
| Guardrails.DictStringRedacted | model2/pipeline/guardrails.py:25-31 | a dict's string value is redacted exactly when it mentions a forbidden term; null, bool and number values are left alone |
| Guardrails.MarkerClean | model2/pipeline/guardrails.py:29 | the marker text itself mentions no forbidden term (see also line 11) |
| Guardrails.RedactIdempotent | model2/pipeline/guardrails.py:26-29 | redacting twice equals redacting once |
| Guardrails.SanitizeValueIdempotent | model2/pipeline/guardrails.py:23-34 | scanning a value twice equals scanning it once |
| Guardrails.NoRecommendations | model2/pipeline/guardrails.py:19-21 | no top-level "recommendations" key remains |
| Guardrails.SanitizeIdempotent | model2/pipeline/guardrails.py:13-36 | sanitising a sanitised output changes nothing |
| Runner.MissingParams | model2/model2_runner.py:62 | a name is listed iff its parameter value is None |
| Runner.CollectPatternSupport | model2/model2_runner.py:73-75 | the loop collects the support tokens of present patterns in order |
| Runner.CollectKeyObservations | model2/model2_runner.py:83-99 | the loop over the key parameters gives, in order, each parameter's LOW or HIGH token, if any |
| Runner.CollectObservations | model2/model2_runner.py:71-99 | the loops give the pattern tokens followed by the key-parameter tokens |
| Runner.SeverityMap | model2/model2_runner.py:107-110 | the loop gives the specified classification of each int or float parameter |
| Runner.Run | model2/model2_runner.py:52-131 | the stages run in order and the result is the sanitised output of the specified stage results |
| Runner.CauseLines | model2/model2_runner.py:162-163 | at most five cause lines, one per cause |
| Runner.FallbackTokens | model2/model2_runner.py:97-99 | the fallback gives _LOW only for "low", _HIGH for "high" and every severe label, and nothing otherwise |
| Runner.SevereLowReportedHigh | model2/model2_runner.py:97-99 | a severe_low fallback label is reported as the _HIGH token |
| Runner.StatusTakesPrecedence | model2/model2_runner.py:84-90 | a non-empty status decides the token alone, whatever the value and ranges |
| Runner.NormalStatusSilent | model2/model2_runner.py:85-90 | a NORMAL status adds nothing and suppresses the fallback |
| Runner.NoStatusNoNumber | model2/model2_runner.py:91-94 | without status and without an int or float value nothing is added |
| Runner.KeyObservationsShape | model2/model2_runner.py:83-99 | each key parameter adds at most one token, of the form param_LOW or param_HIGH |
| Runner.PatternObservationsExact | model2/model2_runner.py:73-75 | the pattern tokens are exactly the supports of present patterns |
| Runner.HemoglobinStatusLow | model2/model2_runner.py:83-88 | a LOW status on Hemoglobin yields "Hemoglobin_LOW" |
| Runner.HemoglobinTwice | model2/model2_runner.py:71-88 | a present pattern supporting Hemoglobin_LOW and a LOW status both add it, so it occurs at least twice |
| Runner.MissingExact | model2/model2_runner.py:62 | missing parameters are exactly the None-valued ones |
| Runner.SeverityKeys | model2/model2_runner.py:107-110 | the severity map's keys are exactly the int or float parameters |
| Runner.SeverityValues | model2/model2_runner.py:107-110 | each severity entry classifies that parameter's value |
| Runner.FlatGender | model2/model2_runner.py:53-59 | gender reaches the flat parameters only under the exact key "gender" |
| Runner.CsvGenderDropped | model2/model2_runner.py:58-59 | a CSV gender column, stored as "Gender", never reaches the flat parameters |
| Runner.OutputNotes | model2/model2_runner.py:116-128 | the output has ten keys and "notes" holds the disclaimer, the later literal entry winning |
| Runner.CausesBeyondFiveIgnored | model2/model2_runner.py:162 | causes after the fifth do not affect the summary |
| Runner.TracesBeyondTwoIgnored | model2/model2_runner.py:163 | traces after the second do not affect a cause line |
| Runner.SupportBeyondThreeIgnored | model2/model2_runner.py:159 | support after the third token does not affect a pattern line |
| Runner.PatternLinesCount | model2/model2_runner.py:157-159 | one summary line per present pattern |
| Runner.SummaryLines | model2/model2_runner.py:150-172 | the summary has eleven fixed lines, one line per present pattern, one per cause up to five, and the explanation line only when the explanation is truthy |
| Runner.SummaryOrder | model2/model2_runner.py:150-172 | the lines come in the order appended: report line and pattern header, pattern lines, cause header, cause lines, the cardiovascular and confidence lines, and the notes section last |
| Runner.HumanSummary | model2/model2_runner.py:173 | the text opens with the report line |
| Runner.SummaryRoundTrip | model2/model2_runner.py:173 | when no line holds a newline, splitting the text at newlines gives back exactly the summary lines |
| Contextual.ToFloatSafe | model2/pipeline/contextual.py:4-15 | None and "" give nothing; a number is read as its own float |
| Contextual.ToFloatSafeShowNat | model2/pipeline/contextual.py:9-13 | a plain run of digits reads back as the number it prints |
| Contextual.AsInt | model2/pipeline/contextual.py:30 | `int` of a number truncates toward zero; None has no int |
| Contextual.MapCells | model2/pipeline/contextual.py:23-26 | every cell passes through the conversion and the keys stay in place |
| Contextual.ConvertAll | model2/pipeline/contextual.py:22-26 | the conversion loop keeps the keys |
| Contextual.NormalizeValues | model2/pipeline/contextual.py:17-33 | the copy-and-convert loop and the age fix return the specified normalised row |
| Contextual.MapStep | model2/pipeline/contextual.py:24-26 | storing the new value of one cell changes that cell and no other |
| Contextual.PutAt | model2/pipeline/contextual.py:26 | storing under an existing key overwrites that entry in place |
| Contextual.NormalizedKeys | model2/pipeline/contextual.py:17-33 | the result has exactly the row's keys, in the same order |
| Contextual.NormalizedCells | model2/pipeline/contextual.py:23-26 | every cell other than the age holds the float read from it when there is one, and its original value otherwise |
| Contextual.NormalizedAge | model2/pipeline/contextual.py:28-32 | an absent age stays absent; a present one becomes an int when it is not None and `int` accepts it |
| Contextual.NumericAgeBecomesInt | model2/pipeline/contextual.py:17-33 | a numeric age, or one whose text reads as a number, ends up the int truncated toward zero |
| NodesValidate.NormalizeNumeric | nodes/validate_standardize.py:13-19 | a number (bool, int or float) is read as itself; None gives nothing |
| NodesValidate.NormalizeScale | nodes/validate_standardize.py:22-30 | a value below its parameter's threshold is multiplied by the multiplier; an unlisted parameter or a value at or above the threshold is unchanged |
| NodesValidate.DetermineFlag | nodes/validate_standardize.py:54-61 | UNKNOWN iff any input is missing, LOW iff below low, HIGH iff above high and not below low, NORMAL iff within the inclusive bounds |
| NodesValidate.ValidateAndStandardize | nodes/validate_standardize.py:64-116 | the loop's cleaned map and error list equal the specified fold over the extracted parameters |
| NodesValidate.FlagMonotone | nodes/validate_standardize.py:54-61 | with fixed bounds the flag never decreases as the value grows (LOW, NORMAL, HIGH) |
| NodesValidate.ScaleSettles | nodes/validate_standardize.py:22-30 | once scaling lands a value at or above its threshold, scaling again changes nothing |
| NodesValidate.AdultFallbackOrder | nodes/validate_standardize.py:43-49 | without direct bounds, the adult_male entry is consulted before adult_female |
| NodesValidate.StepKeys | nodes/validate_standardize.py:71-110 | one loop step adds the parameter's key iff its value parses as a number |
| NodesValidate.ValidateKeys | nodes/validate_standardize.py:71-110 | the cleaned map holds a parameter iff its value parses |
| NodesValidate.ValidateDistinct | nodes/validate_standardize.py:105 | the cleaned map has no duplicate key |
| NodesValidate.UntabledUnknown | nodes/validate_standardize.py:102-103 | a parameter without a reference range is kept with flag UNKNOWN and reported as having no range |
| NodesValidate.BoundsResolve | nodes/validate_standardize.py:43-44 | a reference holding both low and high resolves to exactly those bounds |
| NodesValidate.DefaultRangesBounded | utils/reference_ranges.py:1-18 | every entry of the default table has two numeric bounds |
| NodesValidate.TabledFlagged | nodes/validate_standardize.py:92-99 | a parameter of the default table is always flagged, carries its reference and adds no error |
| NodesInterpretation.Status | nodes/model1_interpretation.py:10-23 | unknown iff the reference or one of its bounds is missing; low iff below the low bound; high iff above the high bound and not below the low; normal iff within both bounds inclusive |
| NodesInterpretation.Interpret | nodes/model1_interpretation.py:6-30 | the entry keeps value, unit and reference and carries the status of the value against the reference |
| NodesInterpretation.Model1Interpretation | nodes/model1_interpretation.py:1-32 | the loop yields one interpreted entry per validated parameter, same keys in the same order, each the interpretation of its input |
| NodesInterpretation.ValidateOneConsistent | nodes/validate_standardize.py:88-110 | an entry built by the validation node carries a flag that agrees with its stored value and reference |
| NodesInterpretation.InterpretationAgrees | nodes/model1_interpretation.py:16-23 | run on the validation node's output, the interpretation status equals the flag already stored, for every entry |
| NodesPatterns.Reading | nodes/model2_patterns.py:13-18 | a reading is present iff the validated map has the parameter |
| NodesPatterns.Model2Patterns | nodes/model2_patterns.py:1-70 | at most five patterns are named and the score is twice their number; each named pattern has one rationale line, and with none the rationale is the fixed normal pair |
| NodesPatterns.NamesDistinct | nodes/model2_patterns.py:21-52 | distinct patterns have distinct names, so a reported name identifies its rule |
| NodesPatterns.RationaleAligned | nodes/model2_patterns.py:9-61 | with findings the rationale has one line per pattern at the same index; with none it is the two fixed normal-range lines |
| NodesPatterns.ScoreUncapped | nodes/model2_patterns.py:55 | at most five patterns fire, so the score is exactly twice their number and stays within 0..10 |
| NodesPatterns.AnemiaSized | nodes/model2_patterns.py:21-34 | anemia fires iff hemoglobin is below 12; MCV below 80 gives microcytic, above 100 macrocytic, otherwise normocytic, and plain Anemia when MCV is missing |
| NodesPatterns.ThresholdsFire | nodes/model2_patterns.py:37-52 | leukocytosis, neutrophilia, lymphocytosis and thrombocytopenia fire exactly past their strict thresholds; a missing value never fires |
| NodesPatterns.NamedIffFired | nodes/model2_patterns.py:64-65 | a pattern's name is in the report iff its rule fired |
| NodesRecommendations.DefaultsIffNoRule | nodes/recommendations.py:9-24 | the list is never empty, and it is exactly the two default lines iff none of the anemia, inflammation or thrombocytopenia rules fires |
| NodesRecommendations.AdviceCounted | nodes/recommendations.py:12-20 | each rule adds its lines exactly when it fires (two for sized anemia, one each for inflammation and low platelets); the infection and bleeding lines are present iff their rules fire |
| NodesRecommendations.PlainAnemiaDefaults | nodes/recommendations.py:12 | the bare name "Anemia" is none of the three sized anemia names, so alone it yields only the defaults |
| NodesRecommendations.AnemiaAdviceFromReadings | nodes/recommendations.py:12-14 | composed with the CBC pattern node, the anemia advice appears iff hemoglobin is below 12 and MCV is present |
| NodesRecommendations.Recommendations | nodes/recommendations.py:3-28 | the list is never empty and every line is one of the rule table's advice lines or a default line |
| NodesContextAnalysis.AnalysisIdentifiesCase | nodes/context_analysis.py:5-36 | the analysis sentence is the no-data one iff there are no interpreted parameters, the normal one iff there are parameters but no patterns, the deviation one iff there are both |
| NodesContextAnalysis.ConcernsListPatterns | nodes/context_analysis.py:28-34 | with data and patterns the concerns start with the first pattern and each further pattern is appended after "; " |
| NodesContextAnalysis.Analyse | nodes/context_analysis.py:1-36 | without parameters the concerns are the insufficient-data line, with parameters and no patterns the fixed reminder, and with patterns they open with the first pattern |
| NodesModel3Context.AnalysisFrame | nodes/model3_context.py:12-31 | the analysis opens with the fixed sentence and ends with the deviation or no-abnormality sentence; concerns are the patterns when there are any, else empty |
| NodesModel3Context.FalsyDemographicsSilent | nodes/model3_context.py:15-19 | a falsy age and gender (None, 0, empty) add no sentence |
| NodesModel3Context.DemographicsLength | nodes/model3_context.py:12-19 | each truthy demographic adds exactly its own sentence |
| NodesModel3Context.AgeFirst | nodes/model3_context.py:15-19 | the age sentence, when present, precedes the gender sentence |
| NodesModel3Context.Model3Context | nodes/model3_context.py:1-32 | the analysis opens with the fixed sentence and is the demographics plus exactly one closing sentence long; the concerns are the patterns |
| NodesSynthesis.Synthesis | nodes/synthesis.py:3-25 | the returned report is the specified report text for the parameters and patterns |
| NodesSynthesis.ReportFrame | nodes/synthesis.py:10-25 | with parameters, the report starts with the header and ends with the closing line; one line per parameter in order, plus the pattern section when there are patterns |
| NodesSynthesis.LineKinds | nodes/synthesis.py:16-23 | a line starts with "- " iff it is a parameter or pattern line |
| NodesSynthesis.PatternSection | nodes/synthesis.py:18-21 | the "Identified Patterns" heading appears iff there are patterns |
| NodesSynthesis.ValidatedShowsUnknown | nodes/synthesis.py:15-16 | entries from the validation node carry no status, so their lines end in "(unknown)" |
| NodesSynthesis.InterpretedShowsStatus | nodes/synthesis.py:15-16 | entries from the interpretation node end with their status in parentheses |
| RiskPatterns.Last | model2_pattern.py:183-185 | the item kept for a parameter is one carrying that name, and there is none iff no item carries it |
| RiskPatterns.Deviation | model2_pattern.py:204-205 | the deviation is non-negative: the distance beyond the violated bound over the range width, and 0 inside the range or for a range with high not above low |
| RiskPatterns.AdjustedScore | model2_pattern.py:198-208 | the adjustment loop gives the base score plus 0.2 times each deviation, capped at 1 |
| RiskPatterns.PatternRiskAnalysis | model2_pattern.py:178-240 | the loop over the rule table returns the specified analysis, or the same failure |
| RiskPatterns.AbortStays | model2_pattern.py:189-238 | once a prefix of the table fails, the whole analysis fails the same way |
| RiskPatterns.AbsentNeverMatches | model2_pattern.py:192-195 | a rule none of whose parameters is in the report never matches |
| RiskPatterns.InRangeKeepsBase | model2_pattern.py:198-208 | the capped score is at least the capped base, and equals it when every parameter is in range |
| RiskPatterns.ScoreBounds | model2_pattern.py:208-231 | an inflammatory rule fails iff the ratio checks raise; otherwise the score lies between the capped base and 1.1, plus 0.1 only for the NLR bonus |
| RiskPatterns.MatchedRules | model2_pattern.py:189-197 | every listed rule is in the table and matches |
| RiskPatterns.DetectedInTableOrder | model2_pattern.py:189-240 | a successful analysis lists exactly the matching rules in table order with their descriptions and scores of at most 1.1 |
| RiskPatterns.EntryBounded | model2_pattern.py:233-238 | an entry carries its rule's name and description and a score of at most 1.1 |
| RiskPatterns.FailsIff | model2_pattern.py:212-231 | the analysis fails iff a matching rule is inflammatory and the ratio checks raise |
| RiskPatterns.ScoreCanExceedOne | model2_pattern.py:208-220 | since the cap precedes the NLR bonus, the table's neutrophilia entry (the rule at line 47) scores 1.05 on neutrophils at 12 of 2-7 and lymphocytes at 2 |
| ContextAdjust.NoteStore.Extend | model3_pattern.py:16-34 | only the list at the given index grows, by the given lines |
| ContextAdjust.NoteStore.New | model3_pattern.py:11 | a new empty list is added at the end |
| ContextAdjust.CollectNotes | model3_pattern.py:13-34 | the notes for one entry are the notes of the factors that apply, in order |
| ContextAdjust.AdjustScore | model3_pattern.py:10-36 | the loop gives the specified adjusted score |
| ContextAdjust.ApplyContextualAdjustments | model3_pattern.py:3-44 | the new note lists and the output items are the specified result of the loop over the patterns |
| ContextAdjust.ScoreCapped | model3_pattern.py:36 | the adjusted score never exceeds 1, and is the rounded raw score when that is at most 1 |
| ContextAdjust.DeltaBounds | model3_pattern.py:13-34 | the factors move the score by between -0.05 and +0.6; with no factor it is unchanged |
| ContextAdjust.OnlyYouthLowers | model3_pattern.py:17-18 | the raw score drops iff the patient is under 18 and no raising factor applies |
| ContextAdjust.OneNotePerFactor | model3_pattern.py:13-34 | each applying factor adds one note; a female patient gets a note and no change |
| ContextAdjust.AppliedItems | model3_pattern.py:38-42 | one output per input in order, with the input's fields, its adjusted score and its note list |
| ContextAdjust.AppliedLists | model3_pattern.py:11-34 | an existing list gains the notes of each entry that holds it, in order, and nothing else |
| ContextAdjust.AppliedFresh | model3_pattern.py:11 | each entry without a list gets its own fresh list holding just its notes |
| ContextAdjust.AppendedOnce | model3_pattern.py:11-34 | a list held by one entry gets its notes once |
| ContextAdjust.NotHeld | model3_pattern.py:11-34 | a list held by no entry is unchanged |
| ContextAdjust.SharedListTwice | model3_pattern.py:11-34 | a list shared by two entries gets the notes twice, by aliasing |
| Synthesizer.CollectAbnormal | synthesizer.py:15-21 | the first loop returns one line per item classified Low or High |
| Synthesizer.AbnormalLinesFilter | synthesizer.py:15-21 | the abnormality lines describe exactly the Low or High items, in input order |
| Synthesizer.PatternLines | synthesizer.py:26-29 | one pattern line per pattern, in order |
| Synthesizer.CollectPatterns | synthesizer.py:24-31 | the second loop returns the specified pattern lines and the names of higher concern |
| Synthesizer.HighRiskFilter | synthesizer.py:30-31 | the higher-concern names are exactly those of patterns whose score is a number of at least 0.7, in order |
| Synthesizer.LeadingSections | synthesizer.py:33-47 | the parameter summary followed by the pattern summary |
| Synthesizer.Sections | synthesizer.py:50-74 | at most one paragraph per organ of the table |
| Synthesizer.SectionsIff | synthesizer.py:52-74 | an organ's paragraph appears exactly when one of its cues occurs in a pattern name |
| Synthesizer.SectionsOrdered | synthesizer.py:52-74 | two organs that both fire appear in table order |
| Synthesizer.OrganSectionIff | synthesizer.py:50-74 | each of the eight organ paragraphs appears exactly when one of its name fragments occurs in some pattern name |
| Synthesizer.OrgansHeads | synthesizer.py:53-74 | the eight organ paragraphs open with eight different symbols |
| Synthesizer.ContextItemsFilter | synthesizer.py:77-80 | the context items are the non-None entries, capitalised key then value, in order |
| Synthesizer.SynthesizeFindings | synthesizer.py:9-82 | the sections joined by blank lines are the specified summary |
| Synthesizer.PartsShape | synthesizer.py:33-82 | exactly one of the abnormal list and the all-normal sentence opens the summary, exactly one of the pattern list and the no-pattern sentence follows, and the concern line follows iff some pattern is of higher concern |
| Synthesizer.HeadersDiffer | synthesizer.py:37-47 | the fixed openings tell the sections apart |
| Synthesizer.SectionsNotConcern | synthesizer.py:52-74 | no organ paragraph starts like the concern line (see also line 45) |
| DataProcessor.CleanNumeric | data_processor.py:114-116 | the result holds no "<", ">" or "," and has no blank at either end |
| DataProcessor.CleanIdempotent | data_processor.py:114-116 | cleaning a cleaned string changes nothing |
| DataProcessor.FirstWhere | data_processor.py:168-172 | the value taken for a parameter is one of its matches that parses, and there is none iff no match parses |
| DataProcessor.ParseTextForParameters | data_processor.py:164-178 | the loops over parameters and their matches return the specified extraction |
| DataProcessor.ScanMatches | data_processor.py:168-176 | the inner loop over one parameter's matches gives the specified step |
| DataProcessor.StepSnoc | data_processor.py:171-176 | a further match is taken only when it parses and the parameter has no entry yet |
| DataProcessor.Present | data_processor.py:172 | the any() scan is true iff the parameter already has an entry |
| DataProcessor.ExtractSound | data_processor.py:164-178 | at most one entry per parameter, each for a listed parameter, holding its cleaned first parsing match |
| DataProcessor.ExtractComplete | data_processor.py:164-178 | every parameter with a parsing match gets an entry |
| DataProcessor.ExtractedParses | data_processor.py:171-175 | every extracted raw value parses again, since cleaning is idempotent |
| DataProcessor.StandardizeOne | data_processor.py:224-242 | an item is kept iff its parameter is in the reference database and its value parses |
| DataProcessor.StandardizeOneKeeps | data_processor.py:234-242 | a kept item carries the unit, low and high of its parameter's database entry |
| DataProcessor.ValidateAndStandardize | data_processor.py:220-244 | the loop returns the specified standardised list |
| DataProcessor.StandardizeKeeps | data_processor.py:220-244 | no more items out than in, each carrying its parameter's unit and range from the database |
| DataProcessor.ExtractedSurvives | data_processor.py:224-242 | an extracted entry for a database parameter survives standardisation (see also lines 171-175) |
| DataProcessor.Classify | data_processor.py:255-260 | Low iff below the minimum, High iff above the maximum and not below the minimum, Normal iff within the inclusive bounds |
| DataProcessor.ClassifyParameters | data_processor.py:249-262 | every item keeps its fields and gains the classification of its value against its range, in place |
| DataProcessor.AccuracyMetrics | data_processor.py:267-268 | both metrics are 95.0 whatever the results |
| UnitStandardization.NormUnit | validation_and_standardization.py:103-106 | None gives ""; otherwise the stripped text with no upper-case letter left |
| UnitStandardization.Lookup | validation_and_standardization.py:117 | a factor found belongs to the table under that unit pair, and none is found iff the table has no such pair |
| UnitStandardization.ConvertWith | validation_and_standardization.py:108-128 | a value is returned iff one was given; empty or equal units, or a pair missing from the table, leave it unchanged; a changed value was scaled by the table's factor for the pair |
| UnitStandardization.ConvertedByFactor | validation_and_standardization.py:117-120 | a changed value is the input times the table's factor for the pair |
| UnitStandardization.LookupFinds | validation_and_standardization.py:82-101 | with distinct pairs, looking up a table pair finds its factor (see also line 117) |
| UnitStandardization.TableWellFormed | validation_and_standardization.py:82-101 | the conversion table has distinct proper pairs, each with its inverse pair and reciprocal factor |
| UnitStandardization.RoundTrip | validation_and_standardization.py:82-128 | converting along a table pair and back restores the value, over the reals |
| UnitStandardization.RoundTripWith | validation_and_standardization.py:108-128 | for any well-formed table, converting there and back restores the value |
| UnitStandardization.RedCellFactor | validation_and_standardization.py:89-91 | the 10^6/uL to 10^12/L factor is 1000 and its inverse 0.001, although the comment calls the units equal |
| UnitStandardization.FirstNumberIff | validation_and_standardization.py:61 | the number pattern finds a match exactly in text holding a digit (see also line 42) |
| UnitStandardization.CleanDigits | validation_and_standardization.py:59 | removing blanks and turning commas into points keeps every digit |
| UnitStandardization.ParseTextIff | validation_and_standardization.py:55-76 | parsing text yields a number iff the text holds a digit, so the float fallback is never needed |
| UnitStandardization.BoolsAreNotNumbers | validation_and_standardization.py:55-63 | a bool is not taken as a number: its text holds no digit (see also line 48) |
| UnitStandardization.CommaIsDecimalPoint | validation_and_standardization.py:59 | a comma between two digit runs reads as a decimal point |
| UnitStandardization.CommaExample | validation_and_standardization.py:59 | "1,234" reads as 1.234, not 1234 |
| UnitStandardization.BuildTables | validation_and_standardization.py:29-38 | the import-time loops build the specified alias and canonical-key tables |
| UnitStandardization.FirstFitting | validation_and_standardization.py:176-179 | the key found is the first that fits the header; none is found iff no key fits |
| UnitStandardization.ResolveHeader | validation_and_standardization.py:166-186 | a header resolves to the alias, exact or substring match, or to itself when there is none or it is empty |
| UnitStandardization.AliasTableNamesKeys | validation_and_standardization.py:33-38 | every alias target is a key of the parameter map |
| UnitStandardization.CanonicalEntries | validation_and_standardization.py:29 | the canonical-key table maps each key's lower-case form to that key |
| UnitStandardization.ResolveRange | validation_and_standardization.py:166-186 | a header resolves to itself or to a key of the parameter map |
| UnitStandardization.AliasTableGet | validation_and_standardization.py:33-38 | the last entry claiming a name wins it in the alias table |
| UnitStandardization.ResolveClaimed | validation_and_standardization.py:168-169 | a header claimed by an entry, and by no later one, resolves to that entry's name |
| UnitStandardization.ResolveBySubstring | validation_and_standardization.py:170-186 | an unclaimed header that is no key resolves to the first key of at least three characters it contains, else to itself |
| UnitStandardization.AliasTableClaimed | validation_and_standardization.py:33-38 | every alias-table key is claimed by some entry |
| UnitStandardization.FirstEntry | validation_and_standardization.py:229-232 | the position found is the first entry for the canonical name, or -1 when none matches |
| UnitStandardization.LookupEntry | validation_and_standardization.py:226-232 | the scan returns the first matching entry of the parameter map |
| UnitStandardization.RunStart | validation_and_standardization.py:246 | the unit suffix is the longest run of unit characters ending the text |
| UnitStandardization.StandardizeOne | validation_and_standardization.py:222-305 | one loop turn gives the specified standardised row |
| UnitStandardization.StandardizeRows | validation_and_standardization.py:221-311 | the row loop gives the specified row for every input row, in order |
| UnitStandardization.FallbackNeverFires | validation_and_standardization.py:280-289 | the fallback search never finds a number parse_number missed |
| UnitStandardization.RowValidity | validation_and_standardization.py:291-300 | a row is valid iff parse_number found a number, and has a value iff valid |
| UnitStandardization.RowReason | validation_and_standardization.py:291-302 | an invalid row has reason "no_numeric" and empty value text; a valid one has no reason |
| UnitStandardization.RowNeedsDigit | validation_and_standardization.py:240-300 | a row is valid iff its raw text holds a digit |
| UnitStandardization.LitreRuleRedundant | validation_and_standardization.py:274-276 | the L/L-to-percent rule is unreachable: the table already maps that pair by 100 (see also line 87) |
| UnitStandardization.ConvertRowChanges | validation_and_standardization.py:259-277 | a value changes only for two distinct non-empty units, by the table factor or the L/L rule, and then the preferred unit is reported; the unit reported is the detected or preferred one |
| UnitStandardization.ConversionOnlyWhen | validation_and_standardization.py:240-277 | at row level the value changes only when the table pairs the detected and preferred units, and then by that factor |
| ParamExtractor.BuildCanonicalLookup | extractor/param_extractor.py:37-46 | the module-level loops build the specified alias-to-canonical lookup |
| ParamExtractor.Clean | extractor/param_extractor.py:122 | the cleaned name holds only digits, lower-case letters and spaces |
| ParamExtractor.LongTokens | extractor/param_extractor.py:131 | every token is a word longer than one character, and every such word is a token (order: LongTokensAppend) |
| ParamExtractor.LongTokensAppend | extractor/param_extractor.py:131 | the token filter distributes over concatenation, so tokens keep the words' order and multiplicity |
| ParamExtractor.FirstLongKeyAt | extractor/param_extractor.py:132-134 | the index of the earliest word longer than one character that is a key; none exactly when no such word is a key |
| ParamExtractor.LongTokensFirst | extractor/param_extractor.py:131-134 | the token loop finds a key exactly when some long word is one, and the token it returns is that earliest word |
| ParamExtractor.KnownLongWord | extractor/param_extractor.py:131-134 | the key the token loop returns over the filtered tokens is the key a direct scan finds among the long words |
| ParamExtractor.MatchKeyFirstWord | extractor/param_extractor.py:127-134 | the 0.9 hit happens exactly when the whole name is no key and some long word is, and it is the earliest such word |
| ParamExtractor.FirstKnown | extractor/param_extractor.py:132-134 | the token found is the first that is a lookup key; none is found iff no token is a key |
| ParamExtractor.NameFilterShare | extractor/param_extractor.py:65-80 | the name filter holds iff the stripped name has two characters, a letter, and a letter share of at least 0.3 of the non-blank characters |
| ParamExtractor.LooksLikeNameIff | extractor/param_extractor.py:65-80 | the same filter in integer counts: at least three letters in every ten non-blank characters |
| ParamExtractor.LetterWordIsName | extractor/param_extractor.py:65-80 | a word of two or more letters always passes the filter |
| ParamExtractor.ReadNumberIff | extractor/param_extractor.py:86-102 | a number is read from text iff the text holds a digit |
| ParamExtractor.NormalizeNumberIff | extractor/param_extractor.py:83-102 | normalize_number gives a number iff its input holds a digit |
| ParamExtractor.NormalizeNumberMissing | extractor/param_extractor.py:84-88 | None and blank text give None |
| ParamExtractor.CommaDecimal | extractor/param_extractor.py:90 | a decimal comma is read as a decimal point |
| ParamExtractor.LookupValues | extractor/param_extractor.py:37-46 | every lookup value is a canonical name of the map |
| ParamExtractor.LookupHasCanonical | extractor/param_extractor.py:46 | every canonical name, lower-cased, is a lookup key |
| ParamExtractor.MatchKeyCases | extractor/param_extractor.py:126-151 | score 1.0 iff the whole cleaned name is a key, 0.9 for a long word that is, 0.6 for a key of three or more characters inside it, 0.0 iff nothing is found |
| ParamExtractor.NoMatch | extractor/param_extractor.py:126-151 | with no hit, neither the name nor any long word is a key and no key of three or more characters lies inside it |
| ParamExtractor.FuzzyScore | extractor/param_extractor.py:115-151 | the score lies in [0, 1], is 0 iff no canonical name is found, and is at least 0.6 when one is |
| ParamExtractor.FuzzyExact | extractor/param_extractor.py:127-128 | a cleaned name that is a key is found with score 1.0 |
| ParamExtractor.FuzzyFromMap | extractor/param_extractor.py:115-151 | a canonical name found against the map's lookup is one of the map's names |
| ParamExtractor.ExtractParamsFromText | extractor/param_extractor.py:154-181 | the match loop returns the specified regex candidates, none for empty text |
| ParamExtractor.SplitAny | extractor/param_extractor.py:257 | splitting at the separators gives at least one piece |
| ParamExtractor.LineSteps | extractor/param_extractor.py:200-272 | a blank line adds nothing; a lab-like line adds the head candidates then the token candidates; another line only the head candidates |
| ParamExtractor.ScanFields | extractor/param_extractor.py:249-272 | the token loop of step B returns the specified candidates of every field, in field order |
| ParamExtractor.ScanLine | extractor/param_extractor.py:201-272 | one loop turn adds the specified candidates of its line |
| ParamExtractor.FallbackLineScan | extractor/param_extractor.py:184-274 | the line loop returns the specified candidates, none for empty text |
| ParamExtractor.RegexCandidatesKept | extractor/param_extractor.py:162-181 | each regex candidate passes the name filter, is tagged regex and scores in [0, 1]; each kept match yields one, and there are no more than matches |
| ParamExtractor.RegexNamesPass | extractor/param_extractor.py:163-165 | with the module's readers every regex candidate's name passes the filter |
| ParamExtractor.ScanUsable | extractor/param_extractor.py:209-272 | every fallback candidate has a canonical name and a value, and a first-number candidate scores at least 0.65 |
| ParamExtractor.ModuleScanUsable | extractor/param_extractor.py:209-272 | with the module's readers every fallback candidate has a canonical name and a value |
| ParamExtractor.QuietLines | extractor/param_extractor.py:201-205 | blank lines add nothing; lines lacking a letter or a digit add only the first-number and line-start candidates (see also lines 251-252) |
| Postprocess.PostprocessRow | extractor/postprocess.py:30-76 | anything but a dict is returned unchanged; a dict is updated in place to the specified postprocessed row and returned |
| Postprocess.ApplyRule | extractor/postprocess.py:41-68 | one salvage block leaves the row as the specified salvage of its old contents |
| Postprocess.BlankZeros | extractor/postprocess.py:71-74 | the zero loop leaves the row as the specified blanked row |
| Postprocess.SalvageDistinct | extractor/postprocess.py:41-68 | a salvage rule keeps the keys distinct |
| Postprocess.PlaceholderRedundant | extractor/postprocess.py:58 | the placeholder test never changes a reading: None, "" and "None" do not parse as numbers (see also line 43) |
| Postprocess.RoundNear | extractor/postprocess.py:62 | `round(x, 2)` lies within half a hundredth of x (see also line 47) |
| Postprocess.NotedFacts | extractor/postprocess.py:63-64 | "_notes" is created when missing, extended when a dict, left alone otherwise; no other key changes (see also lines 48-49) |
| Postprocess.RescaleFired | extractor/postprocess.py:61-64 | a rule that fires stores the rescaled value and records its note (see also lines 46-49) |
| Postprocess.SalvageFired | extractor/postprocess.py:41-68 | a fired rule stores round(x / divisor, 2), records its note and changes no other key |
| Postprocess.SalvageQuiet | extractor/postprocess.py:41-68 | a rule that does not fire leaves the row as it is |
| Postprocess.BlankedGet | extractor/postprocess.py:71-74 | the zero rule keeps the keys and blanks exactly the zero values |
| Postprocess.BlankIff | extractor/postprocess.py:73 | a cell is blanked exactly when it is 0, 0.0 or False, and a blanked cell is never zero |
| Postprocess.NoZeroLeft | extractor/postprocess.py:71-74 | no zero is left in a postprocessed row, so postprocessing twice blanks nothing more |
| Postprocess.OtherKeys | extractor/postprocess.py:30-76 | a key no rule names keeps its value unless it was a zero |
| Postprocess.ReadingUnmoved | extractor/postprocess.py:41-68 | one rule leaves the other rule's key and reading alone |
| Postprocess.HemoglobinRange | extractor/postprocess.py:46-47 | the stored haemoglobin is round(x / 10, 2): at least 3 and within 0.005 of the quotient |
| Postprocess.HemoglobinScaled | extractor/postprocess.py:41-53 | a haemoglobin above 30 is stored rescaled and no later step changes it |
| Postprocess.HemoglobinKept | extractor/postprocess.py:41-53 | a haemoglobin of at most 30, or one that does not parse, is left alone unless it is a zero |
| Postprocess.ProteinRange | extractor/postprocess.py:61-62 | the stored total protein is round(x / 100, 2): at least 1 and within 0.005 of the quotient |
| Postprocess.ProteinScaled | extractor/postprocess.py:56-68 | a total protein above 100 is stored rescaled and the zero rule leaves it |
| Postprocess.ProteinKept | extractor/postprocess.py:56-68 | a total protein of at most 100, or one that does not parse, is left alone unless it is a zero |
| Postprocess.PostprocessKeys | extractor/postprocess.py:30-76 | the keys keep their order, and "_notes" is added last exactly when a rule fires on a row without it |
| Postprocess.BothNotes | extractor/postprocess.py:63-64 | when both rules fire on a row without notes, "_notes" holds the two notes in the order the rules run (see also lines 48-49) |
| JsonUtils.FlattenJsonText | extractor/json_utils.py:9-30 | the loops return the specified lines joined by newlines |
| JsonUtils.ListLines | extractor/json_utils.py:19-25 | the inner loop returns one line per list element |
| JsonUtils.ItemLines | extractor/json_utils.py:19-25 | one line per element, in order |
| JsonUtils.LinesCount | extractor/json_utils.py:9-30 | a dict gives one line per non-list field and one per list element; anything else one line |
| JsonUtils.ScalarFieldsLines | extractor/json_utils.py:15-18 | a dict of scalar fields gives exactly one "k: v" line per field, in order |
| JsonUtils.PairsFilter | extractor/json_utils.py:21-23 | a dict element shows exactly its scalar fields as k=v, in field order |
| AdvancedRisk.GetValue | src/core/advanced_risk_calculator.py:54-61 | the key scan returns the reading of the first key whose lower-case text contains the name, None when none does or when that reading fails |
| AdvancedRisk.FirstValueAt | src/core/advanced_risk_calculator.py:54-61 | the first matching key decides, whatever later keys hold |
| AdvancedRisk.FirstValueAbsent | src/core/advanced_risk_calculator.py:54-61 | with no matching key there is no reading |
| AdvancedRisk.Score | src/core/advanced_risk_calculator.py:82-98 | one ratio's status and points follow the specified cut-offs |
| AdvancedRisk.CalculateLipidRatios | src/core/advanced_risk_calculator.py:44-191 | the five ratio blocks and the level cascade return the specified lipid result |
| AdvancedRisk.PointsBound | src/core/advanced_risk_calculator.py:82-177 | each ratio adds at most 2 points |
| AdvancedRisk.LipidPointsBound | src/core/advanced_risk_calculator.py:44-191 | at most five ratios are reported and the lipid points never exceed 10 |
| AdvancedRisk.LipidAvailable | src/core/advanced_risk_calculator.py:82-140 | the panel is available exactly when HDL is given and either total cholesterol is, or HDL is positive and LDL or triglycerides are |
| AdvancedRisk.LipidBands | src/core/advanced_risk_calculator.py:82-177 | every reported ratio is banded by its own cut-offs |
| AdvancedRisk.LipidLevelMonotone | src/core/advanced_risk_calculator.py:179-187 | the lipid level never falls as the points rise |
| AdvancedRisk.CalculateFramingham | src/core/advanced_risk_calculator.py:193-512 | reading the report and assessing returns the specified Framingham result |
| AdvancedRisk.Assess | src/core/advanced_risk_calculator.py:243-512 | missing inputs stop the assessment; otherwise the points, the risk, the category and the advice follow the specification |
| AdvancedRisk.CollectMissing | src/core/advanced_risk_calculator.py:243-251 | the missing list names each failed input check, in order |
| AdvancedRisk.Recommend | src/core/advanced_risk_calculator.py:498-510 | each advice check appends its advice, in order |
| AdvancedRisk.FraminghamPoints | src/core/advanced_risk_calculator.py:272-470 | the points are the sum of the age, cholesterol, HDL, pressure, smoking and diabetes tables of the gender |
| AdvancedRisk.LookUpRisk | src/core/advanced_risk_calculator.py:475-481 | points below the table give 1 %, above it 30 %, otherwise the table entry |
| AdvancedRisk.RisingMonotone | src/core/advanced_risk_calculator.py:276-360 | a rising points table scores a larger value at least as high |
| AdvancedRisk.FallingMonotone | src/core/advanced_risk_calculator.py:322-335 | a falling points table scores a larger value at most as high |
| AdvancedRisk.TableShapes | src/core/advanced_risk_calculator.py:276-457 | age, cholesterol and pressure tables rise; HDL tables fall |
| AdvancedRisk.PointsMonotone | src/core/advanced_risk_calculator.py:272-470 | a worse risk factor never scores fewer points |
| AdvancedRisk.PointsRange | src/core/advanced_risk_calculator.py:272-470 | the points lie in -10..26 for men and -8..32 for women |
| AdvancedRisk.RiskMonotone | src/core/advanced_risk_calculator.py:372-481 | more points never mean a lower risk, and the risk stays within 1-30 % |
| AdvancedRisk.RiskFactorsMonotone | src/core/advanced_risk_calculator.py:272-481 | the 10-year risk never falls as any risk factor worsens |
| AdvancedRisk.FraminghamAvailable | src/core/advanced_risk_calculator.py:243-257 | a score is produced exactly when the age is 30-79, the gender is male or female, and total cholesterol and HDL are given |
| AdvancedRisk.StatinIff | src/core/advanced_risk_calculator.py:487-500 | statin therapy is suggested exactly when the risk category is not low |
| AdvancedRisk.DetectMetabolicSyndrome | src/core/advanced_risk_calculator.py:514-743 | reading the report and judging returns the specified metabolic result |
| AdvancedRisk.JudgeMetabolic | src/core/advanced_risk_calculator.py:559-743 | the criteria, level, interpretation and advice follow the specification |
| AdvancedRisk.Criteria | src/core/advanced_risk_calculator.py:559-703 | the five criterion blocks give the specified details, and the count, missing data and availability agree with them |
| AdvancedRisk.MetRecommend | src/core/advanced_risk_calculator.py:725-741 | the advice is given once two or more criteria are met |
| AdvancedRisk.AppendedKeeps | src/core/advanced_risk_calculator.py:559-703 | a criterion block keeps the count and the missing data in step with the details |
| AdvancedRisk.MetShape | src/core/advanced_risk_calculator.py:559-707 | five criteria are always reported in order, and the count is the number that are met |
| AdvancedRisk.HistoryMeets | src/core/advanced_risk_calculator.py:633-703 | a hypertension history meets the pressure criterion and a diabetes history the glucose one |
| AdvancedRisk.ProxyCountsTwice | src/core/advanced_risk_calculator.py:559-703 | the obesity proxy never stands alone: its history also meets the pressure or glucose criterion |
| AdvancedRisk.HdlThreshold | src/core/advanced_risk_calculator.py:604-631 | a man's HDL is low below 40 mg/dL, anyone else's below 50 |
| AdvancedRisk.HdlAdviceNeedsGender | src/core/advanced_risk_calculator.py:604-631 | for a gender other than male or female the HDL criterion can be met without the HDL advice (see also lines 737-738) |
| AdvancedRisk.MetAdviceIff | src/core/advanced_risk_calculator.py:725-741 | advice is given exactly when at least two criteria are met, opening with the six lifestyle measures |
| AdvancedRisk.MetAvailable | src/core/advanced_risk_calculator.py:581-703 | the assessment is available exactly when some reading is found or the history speaks to pressure or glucose |
| AdvancedRisk.MetLevelMonotone | src/core/advanced_risk_calculator.py:705-715 | the metabolic level never falls as more criteria are met |
| AdvancedRisk.CalculateAllAdvancedRisks | src/core/advanced_risk_calculator.py:746-757 | the combined result holds the three specified assessments |
| MultiReportDetector.CountMatches | src/core/multi_report_detector.py:191-196 | the number of matching header patterns never exceeds the number of patterns |
| MultiReportDetector.Thresholds | src/core/multi_report_detector.py:189-219 | a header line matches at least six of the eight header patterns; a patient, date or page-break line needs one matching pattern (see also lines 126-160) |
| MultiReportDetector.SplitOffsets | src/core/multi_report_detector.py:116-169 | every line of `text.split('\n')` sits at the offset the running position gives it (see also line 106) |
| MultiReportDetector.LineHits | src/core/multi_report_detector.py:119-167 | a line's boundaries all sit at its start offset and line number; a blank line adds none |
| MultiReportDetector.ScanLine | src/core/multi_report_detector.py:119-169 | one loop turn appends the specified boundaries of its line |
| MultiReportDetector.CandidatesShape | src/core/multi_report_detector.py:105-169 | the candidates start with the document start, sit at line starts and come in line order |
| MultiReportDetector.CandidatesSettled | src/core/multi_report_detector.py:175 | sorting the collected candidates by position changes nothing |
| MultiReportDetector.DedupePositions | src/core/multi_report_detector.py:172-178 | the seen-positions loop returns the specified de-duplication |
| MultiReportDetector.UniqueKeepsFirst | src/core/multi_report_detector.py:172-178 | de-duplication keeps every position once, through the first boundary at it, and keeps the document start |
| MultiReportDetector.UniqueIncreasing | src/core/multi_report_detector.py:172-178 | candidates in position order come out strictly increasing |
| MultiReportDetector.KeepSpaced | src/core/multi_report_detector.py:181-185 | the spacing loop returns the specified spaced boundaries |
| MultiReportDetector.Spaced | src/core/multi_report_detector.py:181-185 | the first boundary is kept and every later one lies more than 100 characters after its predecessor |
| MultiReportDetector.SpacedFrom | src/core/multi_report_detector.py:181-185 | every boundary kept was an input |
| MultiReportDetector.FindReportBoundaries | src/core/multi_report_detector.py:103-187 | the line walk, sort, de-duplication and spacing return the specified boundaries |
| MultiReportDetector.BoundariesInOrder | src/core/multi_report_detector.py:103-187 | the boundaries start with the document start and rise strictly, by more than 100 characters each |
| MultiReportDetector.BoundariesFrom | src/core/multi_report_detector.py:103-187 | every boundary is a candidate of some line |
| MultiReportDetector.BoundariesOnLines | src/core/multi_report_detector.py:103-187 | every boundary lies inside the text, at 0 or right after a newline |
| MultiReportDetector.CutSegments | src/core/multi_report_detector.py:79-99 | the cutting loop returns one report per boundary whose stripped segment is longer than 50 characters |
| MultiReportDetector.SegmentsFrom | src/core/multi_report_detector.py:79-99 | every report is the segment of some boundary and keeps more than 50 characters |
| MultiReportDetector.SegmentsInOrder | src/core/multi_report_detector.py:79-99 | the reports come in text order |
| MultiReportDetector.DetectMultipleReports | src/core/multi_report_detector.py:54-101 | short text gives no report, one boundary the whole text, otherwise the specified segments |
| MultiReportDetector.ValidateReports | src/core/multi_report_detector.py:270-297 | the loop keeps exactly the acceptable reports, in order |
| MultiReportDetector.ValidatedIff | src/core/multi_report_detector.py:270-297 | a report is kept iff it is acceptable, and validating twice removes nothing more |
| MultiReportDetector.SegmentStripped | src/core/multi_report_detector.py:87 | a segment's content is already stripped |
| MultiReportDetector.DetectedValidation | src/core/multi_report_detector.py:281-295 | on detected reports the 20-character floor never applies; a report is dropped only with no two adjacent letters, no digit and under 100 characters (see also line 89) |
| MultiReportDetector.DetectAndValidate | src/core/multi_report_detector.py:300-312 | the module-level function returns the validated detected reports |
| MultiReportManager.KeySet | src/core/multi_report_manager.py:295-300 | the key set holds exactly the dict's keys |
| MultiReportManager.CommonParametersIff | src/core/multi_report_manager.py:288-302 | a parameter is common exactly when there is a report and every report has it |
| MultiReportManager.Manager.FindCommonParameters | src/core/multi_report_manager.py:288-302 | the intersection loop returns the specified common parameters |
| MultiReportManager.ReadingIn | src/core/multi_report_manager.py:310-326 | a reading belongs to its report; a missing value reads as 0 and a None value gives no reading |
| MultiReportManager.ReadingsOf | src/core/multi_report_manager.py:306-326 | at most one reading per report, each from one of the reports |
| MultiReportManager.Manager.CompareParameter | src/core/multi_report_manager.py:304-364 | the reading and change loops return the specified comparison |
| MultiReportManager.CompareShape | src/core/multi_report_manager.py:304-364 | a comparison exists iff two or more reports read numerically; it keeps those readings in order with one change per consecutive pair and the first reading's unit |
| MultiReportManager.ChangeTypeIff | src/core/multi_report_manager.py:337-355 | from a positive value an increase means rising above 105 % and a decrease falling below 95 %; from a negative value the directions swap; from 0 nothing changes |
| MultiReportManager.TrendMirror | src/core/multi_report_manager.py:366-379 | reversing every change reverses the trend, and a tie stays stable |
| MultiReportManager.WorseningMirror | src/core/multi_report_manager.py:409-434 | worsening is improvement in the opposite direction |
| MultiReportManager.ClassifyMirror | src/core/multi_report_manager.py:390-434 | for names not mixing hemoglobin with cholesterol or glucose, a trend and its reverse land in mirrored groups |
| MultiReportManager.AnalyzeTrends | src/core/multi_report_manager.py:381-407 | the grouping loop returns the specified trend analysis |
| MultiReportManager.GroupedMembers | src/core/multi_report_manager.py:390-401 | a name is in a group exactly when one of its comparisons falls into it |
| MultiReportManager.GroupedCount | src/core/multi_report_manager.py:390-401 | the four groups together hold every comparison once |
| MultiReportManager.GroupPartition | src/core/multi_report_manager.py:390-401 | with distinct names, each parameter lands in exactly the group its trend selects |
| MultiReportManager.AssessmentMirror | src/core/multi_report_manager.py:450-460 | swapping the improving and worsening groups swaps the assessment |
| MultiReportManager.AssessmentEmpty | src/core/multi_report_manager.py:450-460 | without compared parameters the assessment is stable |
| MultiReportManager.Significant | src/core/multi_report_manager.py:469-477 | each key change of a parameter exceeds 10 % in size and names that parameter |
| MultiReportManager.SignificantIff | src/core/multi_report_manager.py:469-477 | a key change is exactly a change whose percentage exceeds 10 in size |
| MultiReportManager.CollectSignificant | src/core/multi_report_manager.py:466-477 | the inner loop appends the significant changes of one parameter |
| MultiReportManager.SortDesc | src/core/multi_report_manager.py:480 | the stable sort is a permutation |
| MultiReportManager.SortDescSorted | src/core/multi_report_manager.py:480 | the sort puts larger changes first |
| MultiReportManager.KeyChanges | src/core/multi_report_manager.py:462-482 | collecting, sorting and keeping five returns the specified key changes |
| MultiReportManager.KeyChangesTop | src/core/multi_report_manager.py:462-482 | the key changes are significant, largest first, at most five, drawn from the significant ones, and none left out is larger than one kept |
| MultiReportManager.Manager.Store | src/core/multi_report_manager.py:64-66 | storing an analysis puts it under its id and keeps the store well formed |
| MultiReportQa.Recent | src/core/multi_report_qa_assistant.py:394-395 | the memory is cut to its last 20 entries when longer, and left alone otherwise |
| MultiReportQa.RememberNewest | src/core/multi_report_qa_assistant.py:385-395 | adding a response keeps at most 20 entries with the response newest; nothing is dropped while there is room |
| MultiReportQa.Assistant.AddResponseToMemory | src/core/multi_report_qa_assistant.py:385-395 | the memory becomes the old memory with the response remembered; nothing else changes |
| MultiReportQa.CountQuestionsIsCount | src/core/multi_report_qa_assistant.py:468 | the questions asked are exactly the memory positions holding a question |
| MultiReportQa.EvictedBound | src/core/multi_report_qa_assistant.py:129-132 | with one answer over the limit, the size check brings the cache within 100 entries and keeps the newest |
| MultiReportQa.RemoveOldest | src/core/multi_report_qa_assistant.py:131-132 | deleting the oldest key drops exactly the first entry |
| MultiReportQa.EvictFrom | src/core/multi_report_qa_assistant.py:129-132 | the deletion loop returns the specified evicted cache |
| MultiReportQa.Assistant.EvictOldest | src/core/multi_report_qa_assistant.py:129-132 | only the cache changes, to its evicted form |
| MultiReportQa.FirstMatch | src/core/multi_report_qa_assistant.py:159-162 | the index found is the first keyword occurring in the question, or past the end when none does |
| MultiReportQa.FindKeyword | src/core/multi_report_qa_assistant.py:159-162 | the keyword loop stops at the first keyword found |
| MultiReportQa.MarkerOfFirstKeyword | src/core/multi_report_qa_assistant.py:138-164 | the question gets the marker of the first keyword, in table order, that occurs in it |
| MultiReportQa.NoKeywordNoMarker | src/core/multi_report_qa_assistant.py:138-164 | without any keyword the question is only trimmed |
| MultiReportQa.PreprocessQuestion | src/core/multi_report_qa_assistant.py:138-164 | trimming and the keyword loop give the specified processed question |
| MultiReportQa.SortIds | src/core/multi_report_qa_assistant.py:181 | `sorted` is a permutation (see also line 177) |
| MultiReportQa.SortIdsOrdered | src/core/multi_report_qa_assistant.py:181 | sorting puts the ids in Python's string order (see also line 177) |
| MultiReportQa.RelevantNamed | src/core/multi_report_qa_assistant.py:171-174 | a question naming the first or second report gets that id, loaded or not |
| MultiReportQa.RelevantLatest | src/core/multi_report_qa_assistant.py:175-178 | "latest" picks the greatest loaded id, or nothing when none is loaded |
| MultiReportQa.RelevantPrevious | src/core/multi_report_qa_assistant.py:179-182 | "previous" picks every loaded id but the greatest, in sorted order, or nothing when at most one is loaded |
| MultiReportQa.RelevantDefault | src/core/multi_report_qa_assistant.py:183-188 | any other question concerns every loaded report, in insertion order |
| MultiReportQa.DeleteAll | src/core/multi_report_qa_assistant.py:405-406 | the deletion loop returns the specified text with every pattern removed |
| MultiReportQa.RemoveAllChars | src/core/multi_report_qa_assistant.py:405-406 | deletion only removes characters, and a deleted one-character pattern stays gone |
| MultiReportQa.NormalizeQuestion | src/core/multi_report_qa_assistant.py:404-407 | the normalisation returns the specified normalised question |
| MultiReportQa.NormalizedClean | src/core/multi_report_qa_assistant.py:404-407 | the normalised question has no upper-case letter, '?' or '.', and its only blanks are single spaces between words |
| MultiReportQa.Assistant.GetCacheKey | src/core/multi_report_qa_assistant.py:397-413 | the key is the specified cache key of the session and the question |
| MultiReportQa.CacheKeySeparates | src/core/multi_report_qa_assistant.py:397-413 | within one session two questions share a cache entry exactly when they normalise to the same text |
| MultiReportQa.KeyIgnoresMemory | src/core/multi_report_qa_assistant.py:397-413 | the cache key does not depend on the chat history |
| MultiReportQa.Assistant.AnswerQuestion | src/core/multi_report_qa_assistant.py:79-136 | the answer and the new session are the specified answer of the old session |
| MultiReportQa.Assistant.StoreReply | src/core/multi_report_qa_assistant.py:120-132 | a fresh reply is cached, then remembered, then the cache is trimmed by its oldest 20 when over 100; the cache stays valid |
| MultiReportQa.Assistant.Respond | src/core/multi_report_qa_assistant.py:98-136 | after recording the question, the answer and new session are the specified consultation |
| MultiReportQa.AnswerWithoutData | src/core/multi_report_qa_assistant.py:83-84 | without loaded reports nothing changes |
| MultiReportQa.AnswerKeepsCache | src/core/multi_report_qa_assistant.py:79-136 | answering never touches the reports or comparison and keeps the cache within 100 answers with distinct keys |
| MultiReportQa.AnswerStoresReply | src/core/multi_report_qa_assistant.py:119-134 | a model answer is returned, remembered as the newest entry and cached under the question's key |
| MultiReportQa.AnswerFromCache | src/core/multi_report_qa_assistant.py:97-101 | a cache hit returns the stored answer, leaves the cache alone and remembers the answer |
| MultiReportQa.AnswerTwice | src/core/multi_report_qa_assistant.py:79-136 | asking the same question again in the session gets the cached answer, whatever the service does |
| MultiReportQa.UnansweredQuestionStays | src/core/multi_report_qa_assistant.py:86-113 | when no response is recorded, the question is appended and the memory grows by one untrimmed (see also lines 135-136) |
| MultiReportQa.MemoryCanOverflow | src/core/multi_report_qa_assistant.py:86-105 | a full memory and an unavailable service leave 21 entries |
| MultiReportQa.Summarize | src/core/multi_report_qa_assistant.py:462-471 | the questions asked never exceed the session length, and one id is listed per loaded report |
| MultiReportQa.Assistant.LoadMultiReportData | src/core/multi_report_qa_assistant.py:45-50 | new reports and comparison with a fresh memory; the cache is kept |
| MultiReportQa.Assistant.ClearSession | src/core/multi_report_qa_assistant.py:473-476 | memory and cache are emptied; nothing else changes |
| SakshiModel2Pattern.Banded | sakshi/model2_pattern.py:15-39 | an absent reading adds nothing; a present one adds exactly one message: low below the low bound, high above the high bound, normal in between |
| SakshiModel2Pattern.MchcBand | sakshi/model2_pattern.py:49-55 | the MCHC message is high above 35, low below 32, normal in between, none when absent |
| SakshiModel2Pattern.Differential | sakshi/model2_pattern.py:41-47 | with both counts, neutrophilia-lymphopenia iff neutrophils above 75 and lymphocytes below 20, otherwise the reverse pattern iff below 50 and above 40 |
| SakshiModel2Pattern.PatternRiskAnalysis | sakshi/model2_pattern.py:3-61 | the analysis always returns at least one message |
| SakshiModel2Pattern.RiskAnalysisShape | sakshi/model2_pattern.py:3-61 | the fallback message stands alone iff no reading is present and the differential is silent; otherwise each present reading gives one message |
| SakshiModel2Pattern.HemoglobinMessage | sakshi/model2_pattern.py:15-22 | the hemoglobin message names the band its reading is in |
| SakshiModel2Pattern.DetectPatterns | sakshi/model2_pattern.py:63-76 | at most three patterns are reported |
| SakshiModel2Pattern.DetectPatternsIff | sakshi/model2_pattern.py:63-76 | each pattern is reported exactly when its reading is present and in range; the platelet range includes both ends |
| SakshiContext.ContextualizePatterns | sakshi/model3_context.py:1-41 | the loop returns the specified insights |
| SakshiContext.InsightIff | sakshi/model3_context.py:4-39 | a pattern gives a sentence exactly when some rule matches it |
| SakshiContext.InsightsFilter | sakshi/model3_context.py:4-39 | the sentences are those of the matched patterns, one each, in input order, never more than the patterns |
| SakshiContext.InsightsAppend | sakshi/model3_context.py:4-39 | running over two lists in turn is running over their concatenation |
| SakshiContext.InsightIgnoresCase | sakshi/model3_context.py:7-36 | the rules ignore the case of the pattern name |
| SakshiContext.InsightIgnoresGenderCase | sakshi/model3_context.py:38 | the rules ignore the case of the gender (see also lines 9, 14) |
| SakshiContext.AnemiaWording | sakshi/model3_context.py:13-21 | the anemia sentence depends only on whether the gender lower-cases to "female" |
| SakshiContext.StressContext | sakshi/model3_context.py:7-10 | the neutrophilia sentence ends with the age and the lower-cased gender |
| SakshiContext.MchcContext | sakshi/model3_context.py:36-39 | the MCHC sentence opens by naming the lower-cased gender |
| SakshiSynthesis.SynthesizeFindings | sakshi/milestone3_synthesis.py:3-38 | the loops return the specified sentences joined by spaces |
| SakshiSynthesis.ParamPointsFilter | sakshi/milestone3_synthesis.py:12-19 | the parameter sentences describe exactly the entries whose status is not "normal", in input order |
| SakshiSynthesis.PointsShape | sakshi/milestone3_synthesis.py:9-38 | the default sentence stands alone iff there is nothing to say; otherwise each parameter sentence, the pattern sentence and each insight appear once, insights verbatim at the end |
| SakshiSynthesis.Recommendations | sakshi/milestone3_synthesis.py:41-93 | the advice is never empty and never repeats a line |
| SakshiSynthesis.TriggeredDistinct | sakshi/milestone3_synthesis.py:51-85 | the triggered advice lines never repeat |
| SakshiSynthesis.RecommendationsKeepAll | sakshi/milestone3_synthesis.py:41-93 | de-duplication keeps every line: the result is the triggered groups in order, or the fallback alone |
| SakshiSynthesis.FallbackIff | sakshi/milestone3_synthesis.py:87-91 | the fallback line appears exactly when no cue fires |
| SakshiSynthesis.FallbackNotTriggered | sakshi/milestone3_synthesis.py:51-91 | no group holds the fallback line, and the groups are all empty iff no cue fires |

## Left out

- Streamlit user interfaces (src/ui/UI.py, UI.py, app.py, sakshi/app.py): screen code only.
- Language-model and network clients are not modelled because they are foreign calls with nondeterministic output:
  - nodes/extract_parameters.py, nodes/pattern_node.py, sakshi/llm_groq.py, sakshi/chatbot.py and utils/llm_utils.py;
  - src/core/qa_assistant.py;
  - in the multi-report assistant, the warm-up, the availability check and the model query. Their outcome is a parameter of `answer_question`.
- `generate_personalized_recommendations` in synthesizer.py: it asks a language model, and its rule-based body after the try/except is unreachable.
- OCR, PDF and file I/O are not modelled:
  - text extraction in data_processor.py, extractor/step1_pdf_utils.py, extractor/run_structured_csv.py, extractor/run_model1_on_csv.py and model2/serializer.py;
  - `load_json` and the file open of `load_input`;
  - the output and error-log writes of model2/model2_runner.py:134-148.
- Launchers (start_project.py, run_app.py, main.py): subprocess and console I/O only.
- pandas plumbing (table_utils.py and the DataFrame mechanics of validation_and_standardization.py): only the per-row rules are modelled.
- `run_milestone_2_models`, `run_milestone_3` and `process_file_full` of data_processor.py: glue between the modelled steps and the I/O.
- tests/test_phase2.py: it drives modules that are not part of this model.
- model2/verifier.py: it needs jsonschema and imports functions that guardrails.py does not define.
- Collaborators that are not part of this model are taken as inputs:
  - `priors.get_reference_range` and `BASE_PRIORS`;
  - `knowledge_graph.build_medical_kg`, as a sequence of edges;
  - `risk_engine.compute_derived` and `cardio_risk_band`;
  - `process_document` and `_process_single_report` of multi_report_manager.py.
- Floating point: numbers are exact reals.
  - `round(x, n)` is decimal round-half-up rather than correctly rounded binary floats with ties to even.
  - `float(s)` accepts a sign, digits and one decimal point. Exponents, `inf`, `nan` and underscores are not modelled.
- `str` of a float, `math.log10` and Python's `hash` are parameters, not definitions.
- Loader.ParensToWords: its own contract states only that a header without '(' is unchanged. The rewrite of "(text)" into " text" is stated by ParensBecomeWords, and the copying of the text before the first '(' by ParensPrefix.
- Loader.NormalizeHeader: its own contract states only the shape of the result. What happens to a unit in parentheses and to a '%' is proved for headers of the forms "a (u)" and "a%" with a and u made of letters and digits (UnitInParens, PercentSign), not for every header.
- Loader.CastNumber: Python's `str` of a float is the parameter `showFloat`. The model proves what follows from a given text: a plain decimal that reads back is kept (FloatKept), "1e-05" comes back as the text "1-05" (ExponentFloat), and "inf" gives None (InfinityCast). It does not define the text itself.
- AdvancedRisk.CalculateLipidRatios: the `interpretations` list of display sentences (src/core/advanced_risk_calculator.py:75, 92-177) is not modelled. The ratios, their classifications and the risk level are.
- AdvancedRisk.CalculateFramingham: the `point_breakdown` list of display lines (src/core/advanced_risk_calculator.py:273-470, stored at 484) is not modelled; the points, percentage and category are. So the model does not show that the treated-pressure line for men (line 348) prints the running total `points` rather than the pressure's own points.
- Guardrails.SanitizeOutput: the source makes a shallow copy (model2/pipeline/guardrails.py:18) and redacts in place (lines 29 and 35), so nested dicts and lists of the caller's `output` are changed too. The model returns a fresh document and leaves the input unchanged. The only caller, model2/model2_runner.py:131, never reads `output` again, so the difference cannot be observed there.
- The rapidfuzz branch of `fuzzy_canonical` (extractor/param_extractor.py:136-144): an optional library; the model takes the path without it.
- Regular-expression internals (the parameter patterns, the detector's header/patient/date/page patterns, utils/table_extractor.py): each search is a predicate or a match list supplied by the caller.
- `_extract_metadata` of multi_report_detector.py and the age/gender extractors of multi_report_manager.py:205-243: regular-expression text capture only. A report's metadata is not part of the modelled report.
- uuid, datetime, the global `_session_storage` and `cleanup_old_sessions`; the assistant's timestamps are parameters.
- `_generate_comparison_summary` of multi_report_manager.py: a dict of counts. The overall assessment and the key changes it holds are modelled.
- `get_available_topics` of the multi-report assistant: fixed display strings.
- src/core/comprehensive_report_generator.py and sakshi/analyzer.py: presentation text and glue.
- `_find_common_parameters` returns a set. The model returns a set too, so it says nothing about iteration order.
- `lower`, `upper`, `capitalize` and `strip` act on ASCII letters and ASCII whitespace only; no Unicode case mapping.
- Letter and digit tests are ASCII-only: `Common.IsAlpha`, `Common.IsDigit` and the detector's `HasDigit` accept `A`-`Z`, `a`-`z` and `0`-`9`. Python's `str.isalpha`, `str.isdigit` and the regex `\d` also accept non-ASCII letters and digits, so for text holding them the model of `_looks_like_name` (extractor/param_extractor.py:73-76), `fallback_line_scan` (extractor/param_extractor.py:251), the number patterns (extractor/param_extractor.py:50-59, 96) and `validate_reports` (src/core/multi_report_detector.py:286) may differ. The loader's unit regex `[A-Za-z/°%]` (model2/pipeline/loader.py:57) is ASCII itself, so it is exact there.
- AdvancedRisk.DetectMetabolicSyndrome: each `criteria_details` entry is modelled by its criterion, its `met` flag, the evidence it was judged on (a reading, the medical history, or none) and its threshold text. Its other display fields are not modelled: the criterion names, the `value` strings (such as f"{x} mg/dL", "Not available" and " (on treatment)"), the `status` marks and the `note` sentences (src/core/advanced_risk_calculator.py:564-699).
- Loader.LoadJsonObject: a JSON value is a scalar `Value`. A list or object as a parameter's value is not modelled. The source casts it through `str(v)` and files the text as a note; under a metadata key it stores it as is.
- AdvancedRisk.CalculateFramingham: the user context is typed. The age is a number or missing, the gender a string, and `medical_history` a list of names. So the model does not show three behaviours of src/core/advanced_risk_calculator.py:217-228: an age given as a string raises TypeError in the comparisons; a gender stored as None raises on `.lower()`; and a `medical_history` given as a string makes `'Diabetes' in medical_history` a substring test.
- AdvancedRisk.DetectMetabolicSyndrome: the same three user-context cases (src/core/advanced_risk_calculator.py:535-537, 561) are not modelled.
- SakshiModel2Pattern.DetectPatterns: the readings are numbers. A reading stored as None, on which `data.get(...) < 13` raises TypeError (sakshi/model2_pattern.py:66-73), is not modelled.
- SakshiSynthesis.Recommendations: the age is a number or missing. An age given as a string, on which `age > 45` raises TypeError (sakshi/milestone3_synthesis.py:76), is not modelled.
- SakshiSynthesis.SynthesizeFindings: the status is a string. A status stored as None, on which `.lower()` raises (sakshi/milestone3_synthesis.py:13), is not modelled.
- SakshiContext.ContextualizePatterns: the gender is a string; a missing gender (`None.lower()` raising) is not modelled.
- RiskPatterns.PatternRiskAnalysis: an item's reference bounds are numbers. The `TypeError` that a `None` bound raises is not modelled.
- MultiReportQa.Assistant.AnswerQuestion: `_extract_multi_report_data`, `_format_comparison_data` and `_create_multi_report_prompt` are not modelled. The report text is a parameter, and the prompt is never inspected. The model query turns its own errors into text, and that text is cached like any answer; the model keeps this behaviour.
