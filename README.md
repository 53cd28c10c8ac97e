# Endpoint selection and service-note heuristics in Dafny

This project models two small components of one repository and proves properties about them.

**Adaptive endpoint client.** An `EndpointClient` routes calls to one of the endpoints 1, 2 and 3. For each endpoint it keeps:
- a rolling window of the last 20 outcomes and the last 20 latencies;
- lifetime success and failure counters;
- a consecutive-failure counter.

An endpoint's score is 0.4 × success rate + 0.6 × latency score, where the latency score is `(300 − mean latency) / 300` clamped to [0, 1]. After three consecutive failures the score is forced to 0 (the circuit breaker trips). Selection returns the first endpoint with the highest score. When even that score is below 0.2, selection picks an endpoint at random instead. The file is `load_balancer.dfy`.

- Each endpoint's statistics are a `Stats` value in the map field `stats`, and `update_stats` reassigns it.
- Two ghost fields record each endpoint's full history of outcomes and latencies.
- The class invariant `Valid()` states that each endpoint's statistics are exactly what that history produces.
- `call(runs)` is a loop. It is proved to leave `stats` equal to `Simulate`, a function that replays the selection rule round by round.

**Service-note extraction heuristics.** The second component works on the JSON answers of a language model. The model reads a service note and returns a record with these fields: vehicle, intents, urgency and confidence. The heuristics are:
- the hallucination check on the "inspection" intent;
- confidence calibration;
- the low-confidence acceptance test of `robust_extract`;
- the keyword-based fallback, and the record's validation.

The files are `schemas.dfy`, `validators.dfy`, `processing.dfy` and `text.dfy`:
- `RawExtraction` is the model's answer before validation. `Extraction` is the validated record.
- `ModelValidate` is the domain check that `Extraction.model_validate` performs.
- The fallback records its intents as `ServiceIntent` values. The answer carries their tags (`Tags`), and those tags read back as the same intents (`ParseIntentsTags`).

`wrappers.dfy` holds `Option` and `Result`.

## Model

| member | source | states |
|---|---|---|
| LoadBalancer.PushWindow | client-load-balancer-obfuscated/main.py:12-13 | Appending to a window of at most 20 entries and evicting the oldest gives the last 20 entries of the whole history. |
| LoadBalancer.Push | client-load-balancer-obfuscated/main.py:12-13 | Appending to a bounded window leaves the last 20 entries of the window followed by the new one. |
| LoadBalancer.OccurrencesSplit | client-load-balancer-obfuscated/main.py:54-59 | The success count plus the failure count of a history equals its length. |
| LoadBalancer.TrailingFailures | client-load-balancer-obfuscated/main.py:54-58 | The consecutive-failure count is the length of the run of failures at the end of the history. |
| LoadBalancer.SuccessRate | client-load-balancer-obfuscated/main.py:26-29 | The success rate lies in [0, 1]. It is 1.0 on an empty window. Otherwise, multiplied by the window length it gives the number of successes. |
| LoadBalancer.LatencyScore | client-load-balancer-obfuscated/main.py:31-36 | The latency score lies in [0, 1]. It is 1 on an empty window or a mean at most 0, and 0 at a mean of 300 or more. |
| LoadBalancer.Score | client-load-balancer-obfuscated/main.py:20-39 | The score lies in [0, 1]. It is exactly 0 after three consecutive failures and exactly 1.0 at cold start. Otherwise it is at least 0.4 × success rate. |
| LoadBalancer.ScoreMonotoneInSuccessRate | client-load-balancer-obfuscated/main.py:26-39 | With everything else fixed, a higher success rate never lowers the score. |
| LoadBalancer.ScoreMonotoneInLatency | client-load-balancer-obfuscated/main.py:31-39 | With everything else fixed, a lower mean latency never lowers the score. |
| LoadBalancer.FirstMax | client-load-balancer-obfuscated/main.py:41-42 | `max(scores, key=scores.get)` returns a maximal-score id, and every lower id scores strictly less (ties go to the lowest id). |
| LoadBalancer.PickBest | client-load-balancer-obfuscated/main.py:40-47 | If some score is at least 0.2, the result is the lowest id of maximal score. If every score is below 0.2, the result is the random choice. |
| LoadBalancer.Record | client-load-balancer-obfuscated/main.py:48-59 | One update appends to both windows under the 20-entry bound. A success adds one success and resets the consecutive failures. A failure adds one to both failure counters. |
| LoadBalancer.RecordTracks | client-load-balancer-obfuscated/main.py:48-59 | Recording an outcome keeps the statistics equal to what the extended history produces: windows, both counters and the trailing-failure count. |
| LoadBalancer.TracksBounds | client-load-balancer-obfuscated/main.py:12-17 | Both windows have equal length, at most 20. They are the suffixes of the histories. The counters sum to the number of calls, and the consecutive failures never exceed it. |
| LoadBalancer.TableTracksRecord | client-load-balancer-obfuscated/main.py:48-59 | Recording for one endpoint keeps every endpoint's statistics in step with its history. |
| LoadBalancer.HistoryExtendsRecord | client-load-balancer-obfuscated/main.py:51-52 | Recording only appends to histories. |
| LoadBalancer.Step | client-load-balancer-obfuscated/main.py:65-68 | One round changes only the statistics of the endpoint the selection rule picks, and records exactly one more call. |
| LoadBalancer.Simulate | client-load-balancer-obfuscated/main.py:65-68 | After `n` rounds the table has recorded exactly `n` more calls. |
| LoadBalancer.EndpointClient.constructor | client-load-balancer-obfuscated/main.py:7-18 | Every endpoint starts with empty windows, zero counters and an empty history. |
| LoadBalancer.EndpointClient.GetScore | client-load-balancer-obfuscated/main.py:20-39 | The result lies in [0, 1]. It is 0 once the recorded history ends in three failures, 1.0 when nothing has been recorded, and otherwise the score of the endpoint's statistics. |
| LoadBalancer.EndpointClient.PickBestEndpoint | client-load-balancer-obfuscated/main.py:40-47 | The result is the argmax rule over `GetScore` with the lowest-id tie-break, or the random choice when every score is below 0.2. |
| LoadBalancer.EndpointClient.UpdateStats | client-load-balancer-obfuscated/main.py:48-59 | Only `eid`'s statistics change, by `Record`. Its history grows by the outcome, the total recorded grows by one, and the invariant is kept. |
| LoadBalancer.EndpointClient.Call | client-load-balancer-obfuscated/main.py:61-68 | After `runs` rounds the table equals `Simulate` of the old table. Exactly `runs` outcomes were added, and every history extends the old one. |
| LoadBalancer.SuccessClosesBreaker | client-load-balancer-obfuscated/main.py:23-27 | After a recorded success, the consecutive failures are 0 and the very next score is positive, whatever the windows hold. |
| LoadBalancer.ExampleSelection | client-load-balancer-obfuscated/main.py:20-47 | A perfect endpoint at latency 100 scores 0.8. A half-failing endpoint at latency 50 scores 0.7. A tripped endpoint scores 0. Selection returns the 0.8 endpoint. |
| LoadBalancer.TrippedStaysTripped | client-load-balancer-obfuscated/main.py:23-24 | While another endpoint scores at least 0.2, a tripped endpoint is not picked and its statistics stay unchanged. |
| LoadBalancer.TrippedStaysTrippedRun | client-load-balancer-obfuscated/main.py:20-68 | Over a run of `n` rounds in each of which some endpoint scores at least 0.2, a tripped endpoint is never picked and its statistics are the same at the end as at the start. |
| LoadBalancer.AllTrippedExplores | client-load-balancer-obfuscated/main.py:44-45 | When every endpoint is tripped, selection returns the random choice, whichever id it is. |
| Text.TrimStart | BizzyCar/src/schemas.py:31 | The leading part of `strip()` removes only whitespace, only from the front, and leaves a suffix that does not start with whitespace. |
| Text.TrimEnd | BizzyCar/src/schemas.py:31 | The trailing part of `strip()` removes only whitespace, only from the back, and leaves a prefix that does not end with whitespace. |
| Text.Strip | BizzyCar/src/schemas.py:31 | `strip()` leaves a string that neither starts nor ends with whitespace. |
| Text.StripIdempotent | BizzyCar/src/schemas.py:31 | Stripping twice is stripping once. |
| Text.Lower | BizzyCar/src/processing.py:52 | Lowercasing keeps the length and leaves no capital: each capital becomes its small letter, and every other character is unchanged. |
| Text.LowerIdempotent | BizzyCar/src/processing.py:52 | Lowercasing twice is lowercasing once. |
| Text.ContainsIffOccurrence | BizzyCar/src/processing.py:55 | `k in s` holds exactly when `k` occurs at some position of `s`. |
| Schemas.ParseIntent | BizzyCar/src/schemas.py:4-14 | A string is accepted exactly when it is one of the nine intent tags, and it reads back to that tag. |
| Schemas.IntentTagRoundTrip | BizzyCar/src/schemas.py:4-14 | Every intent's tag is one of the nine tags and reads back as that intent. |
| Schemas.IntentTagInjective | BizzyCar/src/schemas.py:4-14 | Distinct intents have distinct tags. |
| Schemas.ParseIntents | BizzyCar/src/schemas.py:21 | A list is accepted exactly when every element is a tag. The result then has the same length and matches element by element. |
| Schemas.ParseIntentsTags | BizzyCar/src/schemas.py:21 | The tags of any list of intents read back as that list. |
| Schemas.TagsWithoutInspection | BizzyCar/src/schemas.py:12 | A list of intents without `inspection` has no "inspection" tag. |
| Schemas.ParseUrgency | BizzyCar/src/schemas.py:22 | A string is accepted exactly when it is "low", "medium" or "high", and it reads back to that string. |
| Schemas.NormalizeStr | BizzyCar/src/schemas.py:26-32 | An absent value stays absent. A value that strips to nothing becomes absent. Otherwise the stripped value is kept, and it is non-empty and trimmed. |
| Schemas.NormalizeStrIdempotent | BizzyCar/src/schemas.py:26-32 | Normalising twice is normalising once. |
| Schemas.Conforms | BizzyCar/src/schemas.py:16-24 | The field constraints of `Extraction`: no null in a field that is not `Optional`, the year bound, the confidence bound, the intent tags and the urgency levels. `ModelValidate` succeeds exactly when they hold. |
| Schemas.ModelValidate | BizzyCar/src/schemas.py:16-32 | An object validates exactly when it conforms: no null in the VIN flag, the intents, the urgency or the confidence; the year absent or in [1980, 2100]; the confidence (default 0.5) in [0, 1]; every intent a tag; the urgency (default "medium") a level. The record then satisfies every field constraint and takes each field from the object, with make and model normalised. |
| Schemas.NullFieldsRejected | BizzyCar/src/schemas.py:16-24 | A null in any field that is not `Optional` fails validation, while an absent urgency validates like "medium". |
| Schemas.EmptyObjectDefaults | BizzyCar/src/schemas.py:17-24 | An object with no keys validates to the record of defaults: no VIN, no vehicle, no intents, urgency medium, confidence 0.5. |
| Validators.ValidateExtraction | BizzyCar/src/validators.py:5-12 | It fails exactly when the object does not conform (including a null in a field that is not `Optional`). Otherwise it warns exactly when there are no intents, and caps the confidence at 0.5 exactly when the intents are `["unknown"]`. Every other field is unchanged, and the result satisfies every field constraint. |
| Processing.InspectionMentionsInspect | BizzyCar/src/processing.py:55 | A text that contains "inspection" contains "inspect". So the check on "inspection" in the text adds nothing. |
| Processing.DetectHallucinations | BizzyCar/src/processing.py:49-58 | A null intent list raises `TypeError`. Otherwise an answer is flagged exactly when it lists "inspection" (a missing list counts as empty) and the lowercased text never contains "inspect". |
| Processing.DownWeighted | BizzyCar/src/processing.py:62-75 | An unknown-only answer ends at most at 0.45, and one with no make ends at least at 0.3. An answer with neither condition keeps its confidence, and a confidence in [0, 1] stays there. |
| Processing.Boost | BizzyCar/src/processing.py:77-79 | With a strong signal, a confidence above 0.6 ends in (0.6, 0.9]: it rises while below 0.9, and a confidence of 0.9 or more becomes 0.9. Without a signal, or at 0.6 or less, it is unchanged. |
| Processing.CalibratedConfidence | BizzyCar/src/processing.py:60-82 | Calibration keeps a confidence in [0, 1] there. It leaves an unknown-only answer at most 0.45 and one without make at least 0.3. |
| Processing.AnswerConfidence | BizzyCar/src/processing.py:95 | The acceptance test reads the confidence validation reads, except that a missing confidence is 0.0 here, below validation's default of 0.5. |
| Processing.RejectsLowConfidence | BizzyCar/src/processing.py:95-100 | The low-confidence test: a confidence (default 0.0) below 0.6 and none of the five acceptance keywords in the lowercased text. |
| Processing.MissingConfidenceRejected | BizzyCar/src/processing.py:95-100 | An answer without a confidence key and without an acceptance keyword is rejected, although validation would give it confidence 0.5. |
| Processing.CalibrateConfidence | BizzyCar/src/processing.py:60-82 | A null confidence raises `TypeError`. Otherwise only the confidence key changes, and it becomes the rounded calibrated confidence. |
| Processing.CalibrationExamples | BizzyCar/tests/test_pipeline.py:59-80 | The weak answer drops from 0.8 to 0.3. The strong answer with an oil mention rises from 0.65 to 0.7. |
| Processing.AcceptanceSignalIsCalibrationSignal | BizzyCar/src/processing.py:66-96 | Every keyword that saves a low-confidence answer also counts as strong evidence for calibration. |
| Processing.AcIsNoAcceptanceSignal | BizzyCar/src/processing.py:95-100 | "ac" counts as strong evidence for calibration, yet a 0.5-confidence answer to the text "ac" is rejected as low confidence. |
| Processing.RobustExtractAttempt | BizzyCar/src/processing.py:88-104 | The attempt raises `HallucationDetected` exactly when the answer is flagged. It raises `TypeError` exactly when the intent list is null, or the answer is not flagged and its confidence is null. It rejects for low confidence exactly when neither is null, the answer is not flagged, its confidence (default 0.0) is below 0.6 and no acceptance keyword occurs, and it reports that confidence. Otherwise it returns the calibrated answer. |
| Processing.InRulesUpTo | BizzyCar/src/processing.py:109-114 | An intent is produced by the first `n` keyword rules exactly when its rule is among them and that rule fires. |
| Processing.IntentsForMembership | BizzyCar/src/processing.py:109-114 | Each rule's intent is listed exactly when its keywords occur (tire rotation versus tire pressure depending on "rotation"). Nothing is listed when none fires, and neither "unknown" nor "inspection" is ever listed. |
| Processing.RulesUpToOrdered | BizzyCar/src/processing.py:109-114 | The intents come in rule order, with strictly increasing rule index, so none is duplicated. |
| Processing.KeywordHitsMention | BizzyCar/src/processing.py:109-114 | Some rule fires exactly when one of the eight fallback keywords occurs. |
| Processing.FallbackIntents | BizzyCar/src/processing.py:108-115 | The fallback's intents are never empty, and `unknown` appears only as the sole intent. |
| Processing.FallbackIntentsSpec | BizzyCar/src/processing.py:106-115 | The fallback's intents are never empty. They are `[unknown]` exactly when no keyword occurs. Each real intent is present exactly when its keywords occur, and the list is in rule order. |
| Processing.KeywordIntents | BizzyCar/src/processing.py:108-114 | The successive appends produce exactly the rule-by-rule list `IntentsFor(Hits(t))`. |
| Processing.FallbackRuleBased | BizzyCar/src/processing.py:106-125 | The answer carries the tags of the fallback intents of the lowercased text, with no vehicle, urgency "medium", confidence 0.45 and notes "fallback_rule_based". |
| Processing.FallbackTags | BizzyCar/src/processing.py:115-121 | The fallback's tags are all valid and read back as its intents, and none is "inspection". So the fallback answer is never flagged as a hallucination. |
| Processing.ValidatedFallback | BizzyCar/src/processing.py:168-170 | The final fallback always validates, with no warning. The record lists exactly the fallback intents, which are never empty. It has no vehicle, confidence 0.45 and urgency medium. |

## Left out

- The backend `EndpointServer`, its `call` and `print_summary`, and the script entry point are not part of this model. The backend is the parameter `server(i, eid)`. A failed call is whatever outcome that parameter returns. An exception raised by `endpoint_server.call` (main.py:67) is not caught and ends `call`; the total function `server` does not model this.
- The random choice in `pick_best_endpoint` is the parameter `fallback`, or `coin(i)` in round `i`. Its uniform distribution, which the starvation argument rests on, is not modelled. The proofs only show that every id is reachable.
- Floating point: latencies, scores and confidences are exact reals. `round(_, 2)` is the parameter `round2`, and IEEE rounding and NaN are not modelled.
- `recent_success` holds 1 and 0 in the source. The model holds `true` and `false`, and the sum is the count of `true`.
- Ids outside 1..3: the code has a fixed id tuple and no registry, and an unknown id raises `KeyError`. The type `EndpointId` excludes such an id.
- LoadBalancer.EndpointClient.Call: `runs` is a `nat`. A negative `runs` gives zero rounds in the source, because `range(runs)` is then empty; the model does not take negative counts.
- `redact`, logging, the JSON decoding of the model's reply and the retry/back-off policy of `robust_extract` are left out. `robust_extract` is modelled as one attempt on an already parsed answer. `process_notes` is modelled only through its final fallback (`ValidatedFallback`). The model clients (`model_client.py`, both versions) and `Modified/src/main.py` are not part of this model.
- Dictionaries are modelled as values. `calibrate_confidence` and `validate_extraction` mutate the dict or record in place and return it. The model returns the updated value, so aliasing of the caller's dict is not captured.
- For the `Optional` fields (make, model, year, notes) `Option.None` stands for a key that is absent and a key holding null alike, as Pydantic treats them the same. The other four fields are a `Field`: absent, null or present. A null there fails validation, and a null intent list or confidence raises `TypeError` in the heuristics.
- Schemas.ModelValidate: does not model Pydantic's type coercion (numeric strings, integers as floats and the like). It assumes every field already has its declared type.
- Text.Lower: lower-cases ASCII letters only. Python's `str.lower` also maps non-ASCII letters.
- Keyword search is plain substring search, as in the source. A keyword such as "ac" also matches inside other words.
