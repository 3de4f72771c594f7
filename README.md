# IELTS assistant scoring pipeline in Dafny

This project models the scoring logic of the IELTS assistant service (`app.py`):

- **Criteria aggregation**: four rubric criteria (TaskAchievement, Coherence, LexicalResource, Grammar) are read with a default of 0, summed, divided by 4 and truncated toward zero with `int(...)`. The result is the band score. There is no clamping and no range check.
- **Feedback lookup** (`generate_band_feedback`): bands 5 to 8 select a fixed record. Every other integer selects the sentinel record `("Band score not recognized.", "N/A", "N/A")`. In the repository the four table entries all hold the placeholder text `"..."`, and the model keeps that text.
- **Proficiency tier** (`classify_user_level`): the mean number of tokens per sentence is thresholded strictly, above 15 giving Advanced, above 10 Intermediate and anything else Beginner. With no sentences the mean is 0. The NLP library segments the text; here its result is an input, the token count of each sentence.
- **Result assembly** (`evaluate`): the responses are joined with single spaces and classified, and the band score, its feedback and the tier are put into one record. Absent request fields default to `[]` and `{}`.
- **Session indices** (`plot_progress`): the scores are numbered 1..N. The model also gives the (session, score) pairs handed to the plotting library.

Modules: `Aggregator` (aggregator.dfy), `Feedback` (feedback.dfy), `Proficiency` (proficiency.dfy), `Evaluation` (evaluation.dfy), `Progress` (progress.dfy). `Wrappers` (wrappers.dfy) holds the `Option` type used for absent request fields.

Behaviour of the code that the model keeps as it is:
- `int()` truncates toward zero, so a criteria sum of -1 gives band 0, not -1 as floor division would (`Aggregator.NegativeSumTruncatesTowardZero`).
- The tier thresholds are strict `>` comparisons, so a mean of exactly 10 is Beginner and a mean of exactly 15 is Intermediate (`Proficiency.BoundaryAveragesFallBelow`).
- A body without `user_responses` or `criteria` is not rejected. `data.get` supplies `[]` or `{}`. So an empty body `{}` evaluates to band 0, the sentinel feedback and Beginner, provided the segmenter finds no sentence in the empty text `""` (`Evaluation.EmptyRequestEvaluation`). The same defaulting applies to `band_scores` in `plot_progress`.

The `.get` defaults are the adapters `Wrappers.Option.GetOr` (a request field, absent or present), `Aggregator.CriterionValue` (`criteria.get(key, 0)`) and `Progress.RequestedScores` (`data.get('band_scores', [])`). What the defaulting means is stated by `Aggregator.AbsentCriterionCountsAsZero`, `Aggregator.EmptyCriteriaGiveBandZero`, `Evaluation.EmptyRequestEvaluation` and `Progress.AbsentScoresGiveNoPoints`.

## Model

| member | source | states |
|---|---|---|
| `Feedback.GenerateBandFeedback` | app.py:13-20 | agrees with a dictionary lookup in the band 5..8 table that falls back to the sentinel; the result is the sentinel exactly when the band is outside 5..8 |
| `Feedback.TableKeysAreRecognizedBands` | app.py:14-19 | the table has an entry for exactly the bands 5, 6, 7 and 8 |
| `Feedback.KnownBandsYieldTheirRecords` | app.py:14-20 | each band 5..8 yields its own table record |
| `Feedback.OutOfTableBandsYieldSentinel` | app.py:20 | bands 0, 9 and -1 yield the sentinel `("Band score not recognized.", "N/A", "N/A")` |
| `Aggregator.CriteriaSum` | app.py:40-41 | with none of the four criteria present the sum is 0; with all four present it is the sum of their values |
| `Aggregator.CriteriaSumIgnoresOtherKeys` | app.py:40-41 | a key other than the four criteria, whatever its value, leaves the sum unchanged |
| `Aggregator.TruncDiv4` | app.py:40-41 | `int(a / 4)`: four times the result lies within 4 of `a`, on the side nearer zero |
| `Aggregator.BandScore` | app.py:40-41 | four times the band lies within 4 of the four-criteria sum, on the side nearer zero (truncating division) |
| `Aggregator.EmptyCriteriaGiveBandZero` | app.py:39-41 | an empty criteria map gives band 0 |
| `Aggregator.AbsentCriterionCountsAsZero` | app.py:40-41 | an absent criterion gives the same band as one present with value 0 |
| `Aggregator.BandScoreMonotone` | app.py:40-41 | raising any criterion never lowers the band score |
| `Aggregator.BandScoreWithinCriteriaRange` | app.py:40-41 | when all four criteria lie in lo..hi, so does the band score |
| `Aggregator.NegativeSumTruncatesTowardZero` | app.py:40-41 | a sum of -1 gives band 0 and a sum of -5 gives band -1, so rounding is toward zero, not floor |
| `Aggregator.ExampleCriteriaGiveBandSeven` | app.py:40-41 | criteria 8, 7, 6, 7 give band 7 |
| `Proficiency.TokenTotal` | app.py:26 | `sum(len(sent) for sent in doc.sents)`: no sentence holds more tokens than the total, and the total is 0 exactly when every sentence is empty |
| `Proficiency.TokenTotalAppend` | app.py:26 | the total over a sequence of sentences is the sum of the totals over any split of it |
| `Proficiency.AverageSentenceLength` | app.py:25-26 | the mean times the sentence count equals the token total; with no sentences the mean is 0 |
| `Proficiency.TierOf` | app.py:27-32 | Advanced exactly when the mean is above 15, Intermediate exactly when it is in (10, 15], Beginner exactly when it is at most 10 |
| `Proficiency.AboveThresholdIffCrossMultiplied` | app.py:26-29 | with a positive count, the mean exceeds k exactly when the total exceeds k times the count |
| `Proficiency.ClassifyUserLevel` | app.py:23-32 | the integer, cross-multiplied classifier gives the same tier as thresholding the exact mean sentence length |
| `Proficiency.UniformTokenTotal` | app.py:26 | n sentences of the same length hold n times that many tokens |
| `Proficiency.ScaledComparison` | app.py:26-29 | for a positive sentence count, the cross-multiplied comparison agrees with comparing the length itself |
| `Proficiency.UniformSentencesClassifiedByLength` | app.py:23-32 | a text of one or more sentences, all of length L, gets the tier of mean L |
| `Proficiency.NoSentencesIsBeginner` | app.py:26-32 | with zero sentences the tier is Beginner |
| `Proficiency.BoundaryAveragesFallBelow` | app.py:27-32 | a mean of exactly 15 is Intermediate, exactly 10 is Beginner, 16 is Advanced |
| `Proficiency.TierMonotone` | app.py:27-32 | the tier is monotone in the mean under Beginner < Intermediate < Advanced |
| `Proficiency.ClassifyUserLevelMonotone` | app.py:23-32 | an input with a larger mean sentence length never gets a lower tier |
| `Evaluation.JoinWithSpaces` | app.py:43 | `" ".join`: empty list gives empty text, one part gives itself, the length is the parts' total plus one per gap, and the text starts with the first part |
| `Evaluation.JoinWithSpacesAppendLast` | app.py:43 | with two or more parts, the joined text is the join of all but the last part, one space, then the last part; with the no-part and one-part cases this fixes every joined text |
| `Evaluation.JoinTwo` | app.py:43 | two responses are joined with exactly one space between them |
| `Evaluation.Evaluate` | app.py:36-44 | the result's band is the truncated quarter of the criteria sum (absent criteria map counts as empty), its feedback is the band's table record for bands 5..8 and the sentinel exactly when the band is outside 5..8, and its tier thresholds the mean sentence length of the space-joined responses |
| `Evaluation.EmptyRequestEvaluation` | app.py:37-44 | an empty body gives band 0, the sentinel feedback and Beginner, when the segmenter finds no sentence in empty text |
| `Evaluation.EmptyResponsesAreBeginner` | app.py:38-43 | an empty response list is classified Beginner whatever the criteria, when the segmenter finds no token in the empty text `""` |
| `Evaluation.FeedbackRecognizedIffSumInRange` | app.py:40-42 | the feedback is a table record, not the sentinel, exactly when the four criteria sum to between 20 and 35 |
| `Evaluation.ExampleEvaluation` | app.py:39-42 | criteria 8, 7, 6, 7 give band 7 and the band-7 feedback record |
| `Progress.Range` | app.py:52 | `range(lo, hi)` has `max(hi - lo, 0)` elements and its i-th element is `lo + i` |
| `Progress.SessionIndices` | app.py:52 | there is one session per score, and the session at position i is i + 1 |
| `Progress.ProgressPoints` | app.py:51-53 | one plotted point per score, the i-th score drawn at session i + 1, in order |
| `Progress.SessionIndicesIncreasing` | app.py:52 | session numbers strictly increase along the scores |
| `Progress.FourScoresGiveFourPoints` | app.py:51-53 | scores 5, 6, 6, 7 give exactly the points (1,5), (2,6), (3,6), (4,7) |
| `Progress.AbsentScoresGiveNoPoints` | app.py:51-53 | a request without band scores plots no points |

## Left out

- HTTP routing, `request.json` parsing and `jsonify` (Flask): transport plumbing. A body that is not JSON or not an object raises an exception in the handler, and the model does not represent that. A boolean criterion counts as 1 or 0 (Python's `bool` is an `int`), which the model's `int` covers. A string, list, object or `null` criterion raises a TypeError in the handler, which is not modelled.
- JSON input typing: the request types (`Option<seq<string>>`, `Option<map<string, int>>`, `Option<seq<int>>`) cannot hold other JSON values. A JSON string given as `user_responses` is not rejected by the code; `" ".join` then joins its characters (`" ".join("Hi.")` is `"H i ."`). That case is not modelled. A `null` for `user_responses` or `criteria` is not treated as absent: `" ".join(None)` raises TypeError and `None.get` raises AttributeError. The model's `None` means a missing key only.
- Floating point: criteria and band scores are integers here. Python divides the sum by 4 in floating point before `int()`, and the mean sentence length is a float. The model uses exact integer and rational arithmetic, so very large values are not modelled: where floats round, the results may differ, and an integer criteria sum too large for a float makes `sum / 4` raise OverflowError instead of returning a band.
- Sentence segmentation and tokenisation (spaCy model load and `nlp(text)`): an external NLP library. It is a function parameter `segment` from text to per-sentence token counts. The classifier itself takes those counts. `nlp(text)` can raise, for example on a text longer than spaCy's `max_length`. `segment` is total, so neither that failure nor the server error it causes is modelled.
- Plot rendering, PNG encoding into a `BytesIO` buffer and base64 encoding (matplotlib global state): a foreign library whose output is image bytes. The model stops at the (session, score) points passed to `plt.plot`. Successive calls draw onto the same global figure, and that is not modelled either.
- The `__main__` server start with debug mode: process configuration, no logic.
