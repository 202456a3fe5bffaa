# cv-ai-image-detector, modelled in Dafny

cv-ai-image-detector is a Go server that decides whether an uploaded image
was generated by an AI model. For each upload it:

- runs a fixed registry of twelve analysis stages. Most stages are Python
  scripts; one is a Rust C2PA reader and one is a neural classifier.
- caches the combined result for thirty minutes. The cache key is the
  SHA-256 of the file contents.
- fuses the per-stage scores into one labelled verdict, with a confidence
  and explanations.

This project models the deterministic decision logic of that system and
proves properties of it:

- the stage registry, its stable priority sort, the fast-track phase with
  early exit, and the full phase with per-stage failure isolation and
  cancellation (`Stages`, `Pipeline`);
- the TTL cache (`Cache`) and the monitoring counters (`Monitoring`);
- the verdict aggregator:
  - per-stage scores, calibration, dynamic weights and the pattern boost;
  - the weighted verdict, confidence and consistency;
  - the category and agreement details;
  - the explanation texts.

  These are the modules `VerdictScores`, `Calibration`, `Boost`,
  `Determination`, `VerdictStats`, `VerdictDetails`, `VerdictHelpers`,
  `VerdictCalculator` and `Explanations`.
- the dynamic-value accessors and upload validation (`HandlerUtils`), and the
  structured response (`AnalysisResponse`);
- the line parser for the classifier's output (`PythonRunner`);
- the C2PA report scoring (`C2paReport`) and the evaluation tallies
  (`EvalReport`);
- the Python analyzers' scoring rules, with the image statistics as inputs:
  - the PNG chunk walk (`PngChunks`);
  - the compression scores (`CompressionScore`);
  - the artifact indicators (`ArtifactScore`, `AdvancedArtifacts`);
  - the pixel analysis (`PixelScore`), colour balance (`ColorBalance`),
    lighting (`Lighting`) and object coherence (`Coherence`);
  - the user explanations (`UserExplanations`);
- the classifier's ensemble vote, threshold files, test-time augmentation
  (TTA) and batched averaging (`ClassifyV6`), and the accuracy report of the
  API test script (`TestImages`).

Go's `interface{}` results are a `Json` datatype (`GoValues`). `float64` and
`f32` are `real`. Go map iteration order, which the language leaves
unspecified, is a nondeterministic choice:

- methods that iterate a map pick keys with `:|`;
- properties that hold for every order are stated as such;
- where an outcome does depend on the order, the model returns the set of
  possible outcomes.

Stage analyzers, the clock, the file system, the hash function and the
caller's cancellation are parameters of the model.

`Common` holds shared helpers: `Option`, substring search, ASCII case
folding, `Min`, `Max`, `Clamp`, and sums and means of sequences.

## Model

| member | source | states |
|---|---|---|
| Stages.ByPriorityConcat | pkg/analyzer/pipeline/pipelines.go:394-407 | the priority class of a concatenation is the concatenation of the classes, the building block of the stability proof |
| Stages.SwapKeepsClasses | pkg/analyzer/pipeline/pipelines.go:400-402 | swapping two neighbours of different priority, the only swap the strict `>` allows, keeps every priority class in order |
| Stages.StableOrderUnique | pkg/analyzer/pipeline/pipelines.go:394-407 | two priority-sorted sequences with the same priority classes are equal, so a stable sort has exactly one result |
| Stages.RegistryShape | pkg/analyzer/pipeline/pipelines.go:87-194 | the registry has 12 stages with distinct names and priorities between 1 and 4 |
| Stages.RegistryFastTrack | pkg/analyzer/pipeline/pipelines.go:87-194 | a stage is fast-track exactly when it is metadata-quick, c2pa or exif, and every fast-track stage has priority 1 |
| Stages.DefaultRunStages | pkg/analyzer/pipeline/pipelines.go:87-194 | the registry in run order is sorted by priority |
| Stages.DefaultRunStagesClasses | pkg/analyzer/pipeline/pipelines.go:87-194 | the run order keeps the registry's declaration order inside every priority |
| Stages.DefaultRunOrder | pkg/analyzer/pipeline/pipelines.go:394-407 | every stable sort of the registry equals the run order, in which ai-model, declared last, runs right after metadata and before artifacts |
| Stages.BubbleStep | pkg/analyzer/pipeline/pipelines.go:400-402 | one compare-and-swap keeps the contents, the priority classes and the sorted suffix, and carries the largest priority seen so far forward |
| Stages.PassDone | pkg/analyzer/pipeline/pipelines.go:399-404 | at the end of an inner pass the largest priority of the prefix sits at its end, so the sorted suffix grows by one |
| Stages.BubblePass | pkg/analyzer/pipeline/pipelines.go:399-404 | one inner pass on the array grows the sorted suffix and keeps both the multiset and the priority classes |
| Stages.SortStages | pkg/analyzer/pipeline/pipelines.go:394-407 | the bubble sort on a copy returns a permutation of the stages, sorted by priority, with equal priorities in input order |
| Pipeline.Hex | pkg/analyzer/pipeline/pipelines.go:298 | `%x` of a byte slice has two hex digits per byte |
| Pipeline.HexRoundTrip | pkg/analyzer/pipeline/pipelines.go:298 | decoding the hex text gives the bytes back, so no two digests print alike |
| Pipeline.HexDigitsOfByte | pkg/analyzer/pipeline/pipelines.go:298 | each of a byte's two hex digits decodes to its nibble |
| Pipeline.CacheKey | pkg/analyzer/pipeline/pipelines.go:297-299 | the key is "analysis_" followed by the hex digest, 9 + 2·|digest| characters |
| Pipeline.CacheKeyInjective | pkg/analyzer/pipeline/pipelines.go:286-301 | different digests never share a cache key |
| Pipeline.GenerateCacheKey | pkg/analyzer/pipeline/pipelines.go:286-301 | an unreadable file has no key; otherwise the key is 73 characters and depends only on the SHA-256 of the contents |
| Pipeline.KeywordMatchIgnoresCase | pkg/analyzer/pipeline/pipelines.go:599-615 | the AI keyword test gives the same answer for a string and its lower-cased form |
| Pipeline.DetectAIFromMetadata | pkg/analyzer/pipeline/pipelines.go:599-615 | the metadata score is 1 or -1 |
| Pipeline.FloatAt | pkg/analyzer/pipeline/pipelines.go:482-597 | a field is read as a score exactly when it is present and a float64 |
| Pipeline.NestedFloat | pkg/analyzer/pipeline/pipelines.go:482-597 | a nested field is read exactly when the outer field is an object whose inner field is a float64 |
| Pipeline.ShouldEarlyExit | pkg/analyzer/pipeline/pipelines.go:432-468 | early exit holds exactly when it is enabled and either a top-level metadata-quick string mentions an AI keyword or the c2pa "score" is a float64 of at least 95 |
| Pipeline.FinalConfidence | pkg/analyzer/pipeline/pipelines.go:474-480 | coverage confidence lies in [0.5, 0.9], is 0.5 with no result and 0.9 with every stage |
| Pipeline.FinalConfidenceMonotone | pkg/analyzer/pipeline/pipelines.go:474-480 | more completed stages never lower the confidence |
| Pipeline.ExtractConfidenceScores | pkg/analyzer/pipeline/pipelines.go:482-597 | non-object data gives -1; `ai_color_score` is tried first and wins; the outcome is unique except where the nested compression lookup depends on map order |
| Pipeline.ExtractNoSignal | pkg/analyzer/pipeline/pipelines.go:482-597 | an object with none of the recognised fields gives the no-signal value -1 |
| Pipeline.ExtractC2PAScore | pkg/analyzer/pipeline/pipelines.go:482-597 | a result of any shape whose float "score" is the first recognised field gives that 0-100 score divided by 100 |
| Pipeline.ExtractPrediction | pkg/analyzer/pipeline/pipelines.go:482-597 | a result of any shape with no earlier recognised field, a string "prediction" and a float "probability" gives that probability for "fake" and one minus it otherwise |
| Pipeline.Succeeding | pkg/analyzer/pipeline/pipelines.go:339-380 | the names that run and succeed in the full phase all produced a value there |
| Pipeline.SucceedingMembers | pkg/analyzer/pipeline/pipelines.go:339-380 | a name succeeds in the full phase exactly when some stage of that name is not skipped and produces a value |
| Pipeline.Overridden | pkg/analyzer/pipeline/pipelines.go:339-380 | after the full phase each succeeding stage's value replaces the earlier one, and every other entry is kept |
| Pipeline.CancelledShift | pkg/analyzer/pipeline/pipelines.go:370-376 | a stage that does not see the cancellation does not change whether the run is interrupted |
| Pipeline.RunFullClosedForm | pkg/analyzer/pipeline/pipelines.go:339-380 | with distinct stage names the full phase stops exactly when a succeeding stage sees the cancellation; otherwise every succeeding stage's value overrides the earlier one and its name is appended to the run list in order |
| Pipeline.FullAnalysis | pkg/analyzer/pipeline/pipelines.go:304-391 | a completed analysis is never marked as a cache hit and has no elapsed time yet |
| Pipeline.EarlyExitResult | pkg/analyzer/pipeline/pipelines.go:315-333 | on early exit the result has confidence 0.98 and holds exactly the fast-track stages that succeeded |
| Pipeline.FullPhaseOutcome | pkg/analyzer/pipeline/pipelines.go:335-391 | without early exit the analysis is cancelled exactly when a succeeding stage sees the cancellation; otherwise the run list is the merged fast-track names followed by the succeeding stages, and a failed stage leaves no trace unless it already had a fast-track result |
| Pipeline.NameSet | pkg/analyzer/pipeline/pipelines.go:87-194 | the set of stage names has at most as many elements as the registry |
| Pipeline.SucceedingNames | pkg/analyzer/pipeline/pipelines.go:339-380 | only registered names succeed |
| Pipeline.CompletedConfidenceBounds | pkg/analyzer/pipeline/pipelines.go:384-387 | a completed run without early exit has confidence between 0.5 and 0.9 |
| Pipeline.AnalysisPipeline.constructor | pkg/analyzer/pipeline/pipelines.go:68-85 | a new pipeline holds the registry and the shared cache, with early exit on |
| Pipeline.AnalysisPipeline.SetEarlyExitEnabled | pkg/analyzer/pipeline/pipelines.go:197-202 | sets the early-exit flag and nothing else |
| Pipeline.AnalysisPipeline.IsEarlyExitEnabled | pkg/analyzer/pipeline/pipelines.go:204-209 | returns the early-exit flag |
| Pipeline.AnalysisPipeline.GetSortedStages | pkg/analyzer/pipeline/pipelines.go:394-407 | returns a stable priority sort of the stages and leaves the field untouched |
| Pipeline.AnalysisPipeline.RunFastTrackStages | pkg/analyzer/pipeline/pipelines.go:409-430 | the results are exactly the values of the fast-track stages that succeed |
| Pipeline.AnalysisPipeline.RunFullPhase | pkg/analyzer/pipeline/pipelines.go:339-380 | the loop computes the full-phase outcome: skipping, failure isolation, override and cancellation |
| Pipeline.AnalysisPipeline.RunFullAnalysis | pkg/analyzer/pipeline/pipelines.go:304-391 | returns the analysis for the sorted stages; the merge order lists exactly the fast-track keys |
| Pipeline.AnalysisPipeline.StoreResult | pkg/analyzer/pipeline/pipelines.go:262-283 | a finished analysis is stamped with the elapsed time, marked as not a cache hit and stored for 30 minutes; a cancelled one stores nothing |
| Pipeline.AnalysisPipeline.RunAndStore | pkg/analyzer/pipeline/pipelines.go:263-283 | the miss path: the stages run in priority order, a cancelled run caches nothing, and a finished one is stamped and cached under the key |
| Pipeline.AnalysisPipeline.CheckCache | pkg/analyzer/pipeline/pipelines.go:232-258 | the lookup counts one hit when an entry is found, and one miss unless that entry is a pipeline result; afterwards the hit rate matches the counters and no other metric has changed |
| Pipeline.AnalysisPipeline.RunAnalysis | pkg/analyzer/pipeline/pipelines.go:215-284 | an unreadable file is an error before any cache access and changes no metric; a cached result comes back marked as a cache hit with no stage run; otherwise the analysis runs and a success is cached under the content key; only the cache counters and the hit rate move, and after a lookup the hit rate matches them |
| Cache.Lookup | cache/cache.go:50-82 | a lookup finds a value exactly when the key is stored and the time is not after its expiry |
| Cache.Swept | cache/cache.go:115-124 | a sweep keeps exactly the fresh entries, unchanged |
| Cache.StoreThenLookup | cache/cache.go:84-94 | a stored value is returned up to and including its expiry instant, and not after |
| Cache.StoreLeavesOthers | cache/cache.go:84-94 | storing one key changes no lookup of another key |
| Cache.StoreNewKeyGrows | cache/cache.go:84-94 | a new key grows the map by one, so nothing bounds its size |
| Cache.SweepInvisible | cache/cache.go:108-133 | a sweep changes no lookup made at its time or later |
| Cache.AnalysisCache.constructor | cache/cache.go:24-33 | a new cache is empty |
| Cache.AnalysisCache.Get | cache/cache.go:50-82 | returns the lookup and changes nothing; keys shorter than 16 characters are excluded because the source slices `key[:16]` |
| Cache.AnalysisCache.Set | cache/cache.go:84-106 | stores the data with expiry now + ttl, overwrites the key's old entry and leaves every other key unchanged |
| Cache.AnalysisCache.Sweep | cache/cache.go:108-133 | deletes exactly the entries whose expiry is before now, and counts them |
| Cache.AnalysisCache.GetWithMetrics | cache/cache.go:135-147 | the same visibility rule as Get, for keys of any length |
| Monitoring.LastN | monitoring/monitor.go:184-189 | the window keeps the newest n samples, oldest first, and is unchanged while it holds no more than n |
| Monitoring.QuoTowardZero | monitoring/monitor.go:226-240 | Go's integer division truncates toward zero, including for negative sums |
| Monitoring.Metrics.constructor | monitoring/monitor.go:40-49 | a new Metrics holds empty maps and windows and zero counters, rates and gauges, and satisfies every invariant |
| Monitoring.Metrics.RecordAnalysisResult | monitoring/monitor.go:52-79 | counts an AI detection and an early exit without counting the analysis, recomputes the rates only over a positive total, and keeps the hit rate matching the cache counters |
| Monitoring.Metrics.UpdateBusinessMetrics | monitoring/monitor.go:81-111 | folds a result's early-exit and cache-hit flags into the counters (a non-hit counts as a miss) and refreshes the rates |
| Monitoring.Metrics.RecordVerdict | monitoring/monitor.go:113-143 | counts one analysis, and an AI detection only for the four listed verdicts (plain "AI Generated" is not one); both rates become exact fractions of the total and stay in [0, 1] |
| Monitoring.Metrics.RefreshBusinessRates | monitoring/monitor.go:67-70 | both business rates are the counts over the total, left alone while the total is 0 |
| Monitoring.Metrics.RefreshHitRate | monitoring/monitor.go:73-76 | the hit rate is hits over all cache operations, left alone before the first one |
| Monitoring.Metrics.RecordCacheHit | monitoring/monitor.go:146-157 | one more hit; the hit rate matches the counters and is positive |
| Monitoring.Metrics.RecordCacheMiss | monitoring/monitor.go:159-170 | one more miss; the hit rate matches the counters and is below 1 |
| Monitoring.Metrics.RecordAnalysis | monitoring/monitor.go:173-197 | counts the category, appends the duration keeping the newest 100, and counts an error exactly when the analysis failed |
| Monitoring.Metrics.RecordSystemMetrics | monitoring/monitor.go:199-215 | appends the memory and CPU samples, each window keeping its newest 100 |
| Monitoring.Metrics.UpdateActiveConnections | monitoring/monitor.go:217-223 | sets the connection gauge |
| Monitoring.Metrics.GetAverageDuration | monitoring/monitor.go:226-240 | the truncated integer mean of the category's window, 0 for an empty or missing window |
| Monitoring.Metrics.GetErrorRate | monitoring/monitor.go:242-253 | errors over analyses of the category, 0 when there are none |
| Monitoring.Metrics.GetCurrentMemoryUsage | monitoring/monitor.go:255-263 | the newest memory sample, 0 when there is none |
| Monitoring.Metrics.GetCurrentCPUUsage | monitoring/monitor.go:265-273 | the newest CPU sample, 0 when there is none |
| Monitoring.Metrics.GetBusinessMetrics | monitoring/monitor.go:276-288 | reports the three rates and three counters as stored |
| Monitoring.Metrics.GetOverallMetrics | monitoring/monitor.go:290-315 | totals over every category, whatever the map order, and the overall error rate, 0 when nothing was counted |
| Monitoring.Metrics.GetCategoryMetrics | monitoring/monitor.go:317-349 | a category's counters, its error rate and its average duration in whole milliseconds |
| Monitoring.Metrics.GetPipelineMetrics | monitoring/monitor.go:317-332 | the "pipeline" category's counters; its error rate, 0 when nothing was counted; and its average duration in whole milliseconds, 0 for an empty window |
| Monitoring.Metrics.GetUploadMetrics | monitoring/monitor.go:334-349 | the "upload" category's counters; its error rate, 0 when nothing was counted; and its average duration in whole milliseconds, 0 for an empty window |
| Monitoring.Metrics.GetSystemMetrics | monitoring/monitor.go:351-362 | the connection gauge, the cache counters and the newest memory and CPU samples |
| Monitoring.Metrics.GetSummary | monitoring/monitor.go:364-392 | the business metrics, the cache figures, the per-category counters and the last update in whole seconds |
| Monitoring.Metrics.Reset | monitoring/monitor.go:405-424 | restores exactly the freshly constructed state |
| Monitoring.Metrics.ClearAnalysisCounters | monitoring/monitor.go:409-417 | empties the category maps and zeroes the business counters and rates |
| Monitoring.Metrics.ClearCacheAndGauges | monitoring/monitor.go:418-423 | zeroes the cache counters, empties the sample windows and zeroes the connection gauge |
| Monitoring.Metrics.ZeroStateIsValid | monitoring/monitor.go:40-49 | the zero state satisfies every invariant |
| Monitoring.Metrics.IncrementActiveConnections | monitoring/monitor.go:426-431 | one more active connection |
| Monitoring.Metrics.DecrementActiveConnections | monitoring/monitor.go:433-440 | one fewer active connection, never below zero |
| Monitoring.Metrics.RecordError | monitoring/monitor.go:442-451 | bumps only the category's error counter |
| Monitoring.Metrics.RecordSuccess | monitoring/monitor.go:454-463 | bumps only the category's analysis counter |
| Monitoring.Metrics.RecordDuration | monitoring/monitor.go:466-483 | drops the oldest sample of a full window and then appends, giving the same newest-100 window as RecordAnalysis |
| Monitoring.WindowKeepsNewest | monitoring/monitor.go:184-189 | a window never exceeds 100 samples and always ends with the newest one |
| Monitoring.HitRateIsFraction | monitoring/monitor.go:146-170 | the hit rate lies in [0, 1], is positive once there is a hit and below 1 while there is a miss |
| Monitoring.RateBounded | monitoring/monitor.go:113-143 | a count bounded by the total gives a rate in [0, 1] |
| HandlerUtils.Contains | internal/handlers/utils/helpers.go:5-12 | the scan reports true exactly when some element equals the item |
| HandlerUtils.GetFloatValue | internal/handlers/utils/helpers.go:14-28 | a float64 is returned as is, an int converted, a string only when it parses as a float; any other type or a missing key is a miss with value 0 |
| HandlerUtils.GetFloatValueOfNumeral | internal/handlers/utils/helpers.go:22-25 | the decimal text of a number reads back as that number |
| HandlerUtils.TruncateTowardZero | internal/handlers/utils/helpers.go:38-39 | float64-to-int64 conversion drops the fraction toward zero |
| HandlerUtils.GetInt64Value | internal/handlers/utils/helpers.go:30-46 | int64 and int are returned as is, a float64 as its truncation toward zero, a string as the value ParseInt64 gives it when it parses and a miss otherwise; a missing key and every other type are a miss with value 0 |
| HandlerUtils.GetStringValue | internal/handlers/utils/helpers.go:48-55 | a string value is returned; any other type or a missing key is a miss with "" |
| HandlerUtils.FinalElement | internal/handlers/utils/validation.go:33 | the final path element is a suffix after the last slash and holds no slash |
| HandlerUtils.Ext | internal/handlers/utils/validation.go:33 | `filepath.Ext` is empty or starts at the last dot of the final element |
| HandlerUtils.ExtEmptyIffNoDot | internal/handlers/utils/validation.go:33 | the extension is empty exactly when the final element has no dot |
| HandlerUtils.ValidateFile | internal/handlers/utils/validation.go:23-49 | the size is checked first, then the name length in UTF-8 bytes, which a too-long error reports; otherwise the file passes exactly when its lower-cased extension is on the allow-list, and a rejection names that extension |
| HandlerUtils.Utf8Length | internal/handlers/utils/validation.go:28-29 | a name's byte length is at least its character count and at most four times it, and equals it for ASCII text |
| HandlerUtils.Utf8LengthAppend | internal/handlers/utils/validation.go:28-29 | the byte length of a concatenation is the sum of the byte lengths |
| HandlerUtils.Utf8LengthRepeat | internal/handlers/utils/validation.go:28-29 | n copies of one character take n times its UTF-8 width |
| HandlerUtils.AccentedNameIsTooLong | internal/handlers/utils/validation.go:28-29 | 200 copies of U+00E9 plus ".png" is 204 characters but 404 bytes, over the 255-byte limit |
| HandlerUtils.IsAllowedExtension | internal/handlers/utils/validation.go:34-43 | the scan of the allow-list stops at the first match and reports true exactly when the extension is on the list |
| HandlerUtils.NoExtensionRejected | internal/handlers/utils/validation.go:33-46 | a name without an extension is never accepted |
| HandlerUtils.AcceptedNameHasAllowedSuffix | internal/handlers/utils/validation.go:33-46 | an accepted name ends, ignoring case, in an allowed extension |
| AnalysisResponse.ExifToObject | internal/handlers/analysis/response.go:61-84 | the flattened EXIF record always has the camera flag (make or model set), make, model and modification flag; a creation date and GPS only when present; no other keys |
| AnalysisResponse.ConvertAnalysisResult | internal/handlers/analysis/response.go:57-88 | a map passes unchanged, a nil EXIF pointer becomes the empty map, an EXIF record is flattened, and exactly the other types are errors |
| AnalysisResponse.CreateAnalysisSection | internal/handlers/analysis/response.go:90-125 | a section always carries the name, the data and the explanation chosen by the stage name |
| AnalysisResponse.UnlistedStageGetsTraditional | internal/handlers/analysis/response.go:120-122 | a stage without its own explainer, c2pa among them, gets the traditional explanation |
| AnalysisResponse.Convertible | internal/handlers/analysis/response.go:35-44 | the converted names are among the result names |
| AnalysisResponse.CreateStructuredResponse | internal/handlers/analysis/response.go:13-55 | the response has one section per result that converts, built from the converted data, and none for the others |
| AnalysisResponse.ConvertedExifNeverReportsCamera | internal/handlers/analysis/response.go:66 | has_camera_info is stored as a bool, which the EXIF explainer's numeric read rejects, so a converted EXIF record always gets the "no camera-specific data" sentence |
| VerdictScores.FloatOr | internal/handlers/verdict/scores.go:31-36 | a float64 as is, an int converted, a string's parsed value when it parses as a float, and the default for a missing key, an unparsable string or any other type |
| VerdictScores.EXIFScore | internal/handlers/verdict/scores.go:7-13 | the EXIF score is 0 for every input |
| VerdictScores.MetadataScore | internal/handlers/verdict/scores.go:15-22 | the metadata score is 0 for every input |
| VerdictScores.QuickMetadataScore | internal/handlers/verdict/scores.go:80-87 | the quick metadata score is 0 for every input |
| VerdictScores.AIModelScore | internal/handlers/verdict/scores.go:24-29 | the classifier's "probability" read as FloatOr reads it (float64, int, or a string parsed as a float), else 0.5 |
| VerdictScores.ArtifactsScore | internal/handlers/verdict/scores.go:31-36 | "ai_probability" read as FloatOr reads it (float64, int, or a string parsed as a float), else 0.4 |
| VerdictScores.CompressionScore | internal/handlers/verdict/scores.go:38-43 | "ai_probability" read as FloatOr reads it (float64, int, or a string parsed as a float), else 0.5 |
| VerdictScores.PixelScore | internal/handlers/verdict/scores.go:45-50 | "ai_probability" read as FloatOr reads it (float64, int, or a string parsed as a float), else 0.0 |
| VerdictScores.LightingScore | internal/handlers/verdict/scores.go:52-57 | "ai_probability" read as FloatOr reads it (float64, int, or a string parsed as a float), else 0.667 |
| VerdictScores.ColorScore | internal/handlers/verdict/scores.go:59-64 | "ai_probability" read as FloatOr reads it (float64, int, or a string parsed as a float), else 0.5 |
| VerdictScores.AdvancedArtifactsScore | internal/handlers/verdict/scores.go:66-71 | "ai_probability" read as FloatOr reads it (float64, int, or a string parsed as a float), else 0.333 |
| VerdictScores.ObjectCoherenceScore | internal/handlers/verdict/scores.go:73-78 | "ai_probability" read as FloatOr reads it (float64, int, or a string parsed as a float), else 0.333 |
| VerdictScores.NumeralProbabilityIsRead | internal/handlers/verdict/scores.go:31-36 | a numeric-string probability is parsed and used |
| Calibration.Calibrated | internal/handlers/verdict/calibration.go:5-33 | a table name's score is scaled and capped at 1, any other name's is unchanged; non-negative stays non-negative and [0, 1] stays [0, 1] |
| Calibration.ApplyBalancedCalibration | internal/handlers/verdict/calibration.go:5-33 | the output has the input's keys, each calibrated on its own, and the input is not modified |
| Calibration.CalibrationKeepsUnitInterval | internal/handlers/verdict/calibration.go:23-30 | probabilities stay probabilities after calibration |
| Calibration.Scale | internal/handlers/verdict/calibration.go:44 | Go's `m[k] *= f` reads a missing key as 0, creates it, and leaves every other key alone |
| Calibration.KeptBy | internal/handlers/verdict/calibration.go:42-68 | an adjustment of one name keeps what earlier adjustments gave another |
| Calibration.ExifAdjusted | internal/handlers/verdict/calibration.go:42-48 | the exif weight is scaled by 1.4 at a score of at least 0.8 and by 1.3 at a score of at most 0.2 |
| Calibration.ColorAdjusted | internal/handlers/verdict/calibration.go:50-56 | the color-balance weight is scaled by 1.3 at a score of at least 0.7 and by 1.2 at a score of at most 0.3 |
| Calibration.LightingAdjusted | internal/handlers/verdict/calibration.go:58-60 | the lighting weight is scaled by 1.3 at a score of at least 0.6 |
| Calibration.CompressionAndAiModelAdjusted | internal/handlers/verdict/calibration.go:62-68 | the compression weight is halved at a score of at least 0.4, and the ai-model weight is scaled by 1.5 for any non-negative score |
| Calibration.DynamicWeightsPointwise | internal/handlers/verdict/calibration.go:34-71 | every adjusted name gets exactly its own factor, unscored names keep their base weight, and no other key appears |
| Calibration.CopyWeights | internal/handlers/verdict/calibration.go:35-40 | the copy equals the base weights |
| Calibration.ApplyDynamicWeights | internal/handlers/verdict/calibration.go:34-71 | the method computes the copied and adjusted weights, leaving the input untouched |
| Calibration.MissingWeightBecomesZero | internal/handlers/verdict/calibration.go:66-68 | a scored ai-model with no base weight gains a 0 entry |
| Boost.CountConsistent | internal/handlers/verdict/boost.go:6-14 | the count of traditional methods scoring at least 0.4: at most their number, 0 exactly when none is, all exactly when every one is |
| Boost.ClampBoost | internal/handlers/verdict/boost.go:55-59 | the clamp lands in [0.4, 2.0] and leaves values inside unchanged |
| Boost.CalculateAdvancedBoost | internal/handlers/verdict/boost.go:3-62 | the step-by-step boost equals the product of the factors, clamped, and lies in [0.6, 2.0] |
| Boost.EmptyBoost | internal/handlers/verdict/boost.go:3-62 | with no scores the boost is exactly 1.0 |
| Boost.BoostRange | internal/handlers/verdict/boost.go:33-59 | 0.6 is the only factor below 1 and applies at most once, so the boost lies in [0.6, 2.0] |
| Boost.AgreementFactorsExclusive | internal/handlers/verdict/boost.go:22-31 | the ×1.5 and ×1.3 agreement factors never apply together |
| Determination.BalancedVerdict | internal/handlers/verdict/determination.go:8-25 | the four labels partition the score line at 0.59, 0.60 and 0.75 plus the adjustment, which is 0.05 below four scores |
| Determination.LabelMonotone | internal/handlers/verdict/determination.go:13-25 | for a fixed number of scores a higher score never gets a label nearer Authentic |
| Determination.ConfidencePerLabel | internal/handlers/verdict/determination.go:13-25 | with a base confidence in [0.5, 0.99], AI Generated lies in [0.65, 0.95], both Likely labels in [0.60, 0.85], and Authentic is exactly 0.40 |
| Determination.CalculateConsistency | internal/handlers/verdict/determination.go:49-69 | the two passes give 0.5 below two scores, else one minus the population variance, floored at 0, within [0, 1] |
| Determination.UnanimousScoresFullyConsistent | internal/handlers/verdict/determination.go:49-69 | scores that all agree have consistency 1 |
| Determination.ConfidenceOf | internal/handlers/verdict/determination.go:28-47 | 0.5 when no method is counted, otherwise a value clamped to [0.5, 0.99] |
| Determination.CalculateConfidence | internal/handlers/verdict/determination.go:28-47 | the method computes the coverage-and-consistency confidence in [0.5, 0.99] |
| Determination.FullCoverageConfidence | internal/handlers/verdict/determination.go:28-46 | with every counted method scored the coverage term is 1, so the base confidence is at least 0.7 |
| Determination.DetermineBalancedVerdict | internal/handlers/verdict/determination.go:5-26 | the label and confidence for the score; Authentic always reports 0.40 and every other label at least 0.80 |
| Determination.ConsistencyInUnitInterval | internal/handlers/verdict/determination.go:49-69 | consistency lies in [0, 1] |
| VerdictStats.MeanBounds | internal/handlers/verdict/calculator.go:285-307 | the mean of values in [lo, hi] lies in [lo, hi] |
| VerdictStats.VarianceNonNegative | internal/handlers/verdict/determination.go:60-65 | the population variance is never negative |
| VerdictDetails.CategoryScore | internal/handlers/verdict/calculator.go:285-307 | the loop computes the category average: -1 for an empty category, otherwise the mean |
| VerdictDetails.CategoryAverageBounds | internal/handlers/verdict/calculator.go:285-307 | a non-empty category of probabilities averages to a probability |
| VerdictDetails.GetCategoryVerdict | internal/handlers/verdict/calculator.go:309-319 | "No Data" exactly for a negative score, "AI Generated" exactly from 0.7, and "Likely Human" exactly in between |
| VerdictDetails.CalculateDifference | internal/handlers/verdict/calculator.go:321-326 | -1 when either category has no data, otherwise the absolute difference |
| VerdictDetails.CalculateAgreementLevel | internal/handlers/verdict/calculator.go:328-343 | "insufficient_data" exactly when a category has no data; otherwise the band of the difference: at most 0.1, 0.3, 0.5, or above |
| VerdictDetails.GetDominantMethodSimple | internal/handlers/verdict/calculator.go:345-359 | no data exactly when neither category has data; otherwise the category with data, or with the higher score, or "equal" |
| VerdictDetails.DominantMethodSymmetric | internal/handlers/verdict/calculator.go:345-359 | swapping the two scores swaps the answer |
| VerdictDetails.CalculateAnalysisQuality | internal/handlers/verdict/calculator.go:398-403 | 0 without methods, a share in [0, 1] otherwise, and 1 when every method succeeded |
| VerdictDetails.CalculateWeightedBreakdown | internal/handlers/verdict/calculator.go:405-413 | exactly the scored names that have a weight, each mapped to score times weight |
| VerdictDetails.AnalyzeStrengthIndicators | internal/handlers/verdict/calculator.go:415-427 | one indicator per method scoring at least 0.7, "Very strong" from 0.9, in the map's visiting order |
| VerdictDetails.CheckConsistency | internal/handlers/verdict/calculator.go:429-472 | insufficient data below two scores; otherwise the variance, which is non-negative, and its level: high up to 0.1, moderate up to 0.3, low above |
| VerdictDetails.SquaredDeviationBelowAffine | internal/handlers/verdict/calculator.go:439-450 | on [0, 1] a squared deviation is bounded by an affine function of the value |
| VerdictDetails.MeanSquareGap | internal/handlers/verdict/calculator.go:439-450 | μ − μ² never exceeds 1/4 |
| VerdictDetails.ProbabilitiesNeverLow | internal/handlers/verdict/calculator.go:439-465 | probabilities have variance at most 1/4, so the "low" consistency branch (variance above 0.3) is unreachable for them |
| VerdictDetails.CVNoteFor | internal/handlers/verdict/calculator.go:361-386 | each method's note reports its score in percent, mixed signals exactly in [0.3, 0.7), and a metadata-specific note outside that range |
| VerdictDetails.GenerateComputerVisionExplanation | internal/handlers/verdict/calculator.go:361-386 | a fixed sentence exactly when there are no scores; otherwise one note per method, in the map's visiting order |
| VerdictDetails.GenerateAIExplanation | internal/handlers/verdict/calculator.go:474-492 | a fixed sentence without scores; otherwise the loop returns on its first entry, so the sentence describes whichever score the map yields first |
| VerdictDetails.AIExplanationDetermined | internal/handlers/verdict/calculator.go:32-34 | the AI category only ever holds ai-model, so the AI sentence is determined by that score |
| VerdictHelpers.HighScored | internal/handlers/verdict/helpers.go:9-28 | the methods scored at least 0.7 are among the given names |
| VerdictHelpers.LowScored | internal/handlers/verdict/helpers.go:9-28 | the methods scored at most 0.3 are among the given names |
| VerdictHelpers.BandStep | internal/handlers/verdict/helpers.go:13-19 | visiting one more method adds it to each band it belongs to and to no other |
| VerdictHelpers.VisitsEmpty | internal/handlers/verdict/helpers.go:21-27 | a listing of methods is empty exactly when the listed set is |
| VerdictHelpers.GenerateTraditionalExplanation | internal/handlers/verdict/helpers.go:9-28 | lists the high-scored methods if there are any, otherwise the low-scored ones, otherwise reports mixed results |
| VerdictHelpers.FindingFor | internal/handlers/verdict/helpers.go:38-59 | c2pa and metadata findings turn at 0.7, exif at 0.5 |
| VerdictHelpers.MetadataScored | internal/handlers/verdict/helpers.go:34-65 | only c2pa, exif and metadata are spoken about |
| VerdictHelpers.MetadataStep | internal/handlers/verdict/helpers.go:37-60 | visiting a metadata method adds it to the findings; any other name changes nothing |
| VerdictHelpers.GenerateMetadataExplanation | internal/handlers/verdict/helpers.go:34-65 | one finding per c2pa, exif or metadata entry in visiting order, other names ignored, and the fallback sentence exactly when there is none |
| VerdictHelpers.PairDifference | internal/handlers/verdict/helpers.go:71-83 | the distance between two scores when both have data, 0 otherwise |
| VerdictHelpers.MaxDifference | internal/handlers/verdict/helpers.go:67-84 | the largest distance over the pairs where both scores have data, or 0 |
| VerdictHelpers.AgreementFor | internal/handlers/verdict/helpers.go:85-100 | strong up to 0.2 with confidence 0.9, moderate up to 0.4 with 0.7, weak beyond with 0.5 |
| VerdictHelpers.AnalyzeMethodAgreement | internal/handlers/verdict/helpers.go:67-101 | compares every pair of the three scores that both have data and bands the largest difference |
| VerdictHelpers.MaxCharacterised | internal/handlers/verdict/helpers.go:67-84 | a value that bounds every pair difference and is 0 or one of them is the maximum difference |
| VerdictHelpers.MissingCategoryIgnored | internal/handlers/verdict/helpers.go:71-83 | a category without data never affects the agreement |
| VerdictHelpers.NoDataIsStrongMethodAgreement | internal/handlers/verdict/helpers.go:85-100 | with no data at all the agreement is strong, at confidence 0.9 |
| VerdictCalculator.Lookup | internal/handlers/verdict/calculator.go:43-59 | a name's weight in the table is non-negative, and 0 when the name is absent |
| VerdictCalculator.WeightOf | internal/handlers/verdict/calculator.go:43-59 | every method's weight is non-negative; a name outside the table weighs 0, as a missing Go map key does |
| VerdictCalculator.Weights | internal/handlers/verdict/calculator.go:43-59 | the weight map holds exactly the listed methods, each with its table weight |
| VerdictCalculator.StageScores | internal/handlers/verdict/calculator.go:74-102 | every map-typed stage result has at least one possible score: its own scorer for the twelve known stages, the pipeline's extractor otherwise |
| VerdictCalculator.DefinitiveReason | internal/handlers/verdict/calculator.go:117-128 | a score is definitive exactly when it comes from metadata or c2pa and is at least 0.95 |
| VerdictCalculator.Category | internal/handlers/verdict/calculator.go:104-112 | a category holds exactly the kept scores of its listed names |
| VerdictCalculator.ScanStep | internal/handlers/verdict/calculator.go:63-130 | a visited name gains a score exactly when its result is a map and the score is non-negative |
| VerdictCalculator.Categorize | internal/handlers/verdict/calculator.go:104-112 | a kept score is filed under computer vision when listed there, otherwise under AI when listed there, otherwise under neither |
| VerdictCalculator.MetadataNeverDefinitive | internal/handlers/verdict/calculator.go:117-122 | the metadata scorer always gives 0, so only C2PA can be definitive |
| VerdictCalculator.C2PACertificateIsDefinitive | internal/handlers/verdict/calculator.go:123-128 | a map-typed C2PA result scoring at least 0.95 always ends the scan with definitive evidence, whatever the visiting order |
| VerdictCalculator.Contributors | internal/handlers/verdict/calculator.go:165-173 | the contributing methods are among the calibrated ones |
| VerdictCalculator.AdaptiveWeight | internal/handlers/verdict/calculator.go:175-180 | confident scores either way never lose weight: ×1.2 from 0.8, ×1.3 up to 0.2 |
| VerdictCalculator.ReasonFor | internal/handlers/verdict/calculator.go:189-195 | each contributing method gets exactly one reasoning line: strong from 0.7, authenticity up to 0.3 (shown as the authentic share), moderate in between |
| VerdictCalculator.WeighScores | internal/handlers/verdict/calculator.go:162-196 | the loop computes the weighted sum and the total weight over the contributors, with one reasoning line per contributor in visiting order |
| VerdictCalculator.ContributorsStep | internal/handlers/verdict/calculator.go:165-173 | visiting one more method adds it to the contributors exactly when it contributes |
| VerdictCalculator.WeighOne | internal/handlers/verdict/calculator.go:175-195 | one contributor's adaptive weight, weighted score and reasoning line |
| VerdictCalculator.NoWeightIffNoContributors | internal/handlers/verdict/calculator.go:198-207 | the total weight is 0, the "Analysis Failed" case, exactly when no method contributes |
| VerdictCalculator.ContributionBounds | internal/handlers/verdict/calculator.go:182 | a contribution lies between 0 and the method's adaptive weight |
| VerdictCalculator.BaseScoreInUnitInterval | internal/handlers/verdict/calculator.go:209 | the weighted average of probabilities is a probability |
| VerdictCalculator.QualityBonus | internal/handlers/verdict/calculator.go:216-222 | 1.05 with at least 8 scores, 0.95 with fewer than 5, 1.0 otherwise |
| VerdictCalculator.FinalScore | internal/handlers/verdict/calculator.go:209-232 | base × boost × bonus, clamped to [0, 1] |
| VerdictCalculator.FinalScoreOfProbability | internal/handlers/verdict/calculator.go:209-232 | with a probability as base and a positive boost only the upper clamp acts |
| VerdictCalculator.DescribeCategory | internal/handlers/verdict/calculator.go:250-264 | a category's methods, its average (-1 without data), that average as a percentage and its category verdict; the explanation beside it is set by Describe |
| VerdictCalculator.Describe | internal/handlers/verdict/calculator.go:240-281 | the details section: the analysis quality, both categories, the computer-vision notes (one per method, in some visiting order) or the fixed sentence iff the category is empty, the AI note, the comparison, the weighted breakdown, the strength indicators (one per score ≥ 0.7, in some visiting order) and the consistency check |
| VerdictCalculator.CalibratedMap | internal/handlers/verdict/calibration.go:5-33 | the calibrated map has the scores' keys, each calibrated on its own |
| VerdictCalculator.CalibratedMapIs | internal/handlers/verdict/calibration.go:5-33 | any map calibrated entry by entry is that map |
| VerdictCalculator.WeighedVerdict | internal/handlers/verdict/calculator.go:149-235 | without definitive evidence: calibration, weighting, boost and determination; a verdict's probability lies in [0, 100] |
| VerdictCalculator.CalculateOverallVerdict | internal/handlers/verdict/calculator.go:11-282 | the scan keeps exactly the non-negative scores of map-typed results; definitive C2PA evidence gives "AI Generated" at probability 100 and confidence 0.95; otherwise the weighted verdict over every result, with probability in [0, 100] |
| Explanations.BandRank | internal/handlers/explanations/artifacts.go:9-23 | bands are ranked 0 to 3 by how strongly they indicate AI |
| Explanations.BandOf | internal/handlers/explanations/artifacts.go:9-23 | every probability falls in exactly one band: from 0.7, from 0.5, from 0.3, below 0.3 |
| Explanations.BandOfMonotone | internal/handlers/explanations/artifacts.go:9-23 | a higher probability never selects a less AI-indicating band |
| Explanations.GenerateBandedExplanation | internal/handlers/explanations/coherence.go:9-23 | a missing or rejected "ai_probability" gives the fallback; an accepted one the sentence of its band with p·100, except the traditional explainer's lower bands, which show (1 − p)·100 |
| Explanations.GenerateArtifactsExplanation | internal/handlers/explanations/artifacts.go:9-23 | the artifacts fallback sentence unless "ai_probability" is accepted; otherwise the artifacts sentence of its band (0.7, 0.5, 0.3) showing p·100 |
| Explanations.GenerateAdvancedArtifactsExplanation | internal/handlers/explanations/artifacts.go:25-39 | the advanced-artifacts fallback sentence unless "ai_probability" is accepted; otherwise the advanced-artifacts sentence of its band (0.7, 0.5, 0.3) showing p·100 |
| Explanations.GenerateObjectCoherenceExplanation | internal/handlers/explanations/coherence.go:9-23 | the object-coherence fallback sentence unless "ai_probability" is accepted; otherwise the object-coherence sentence of its band (0.7, 0.5, 0.3) showing p·100 |
| Explanations.GeneratePixelExplanation | internal/handlers/explanations/pixel.go:9-23 | the pixel fallback sentence unless "ai_probability" is accepted; otherwise the pixel sentence of its band (0.7, 0.5, 0.3) showing p·100 |
| Explanations.GenerateCompressionExplanation | internal/handlers/explanations/compression.go:9-23 | the compression fallback sentence unless "ai_probability" is accepted; otherwise the compression sentence of its band (0.7, 0.5, 0.3) showing p·100 |
| Explanations.GenerateColorExplanation | internal/handlers/explanations/color.go:9-23 | the colour-balance fallback sentence unless "ai_probability" is accepted; otherwise the colour-balance sentence of its band (0.7, 0.5, 0.3) showing p·100 |
| Explanations.GenerateLightingExplanation | internal/handlers/explanations/lighting.go:9-23 | the lighting fallback sentence unless "ai_probability" is accepted; otherwise the lighting sentence of its band (0.7, 0.5, 0.3) showing p·100 |
| Explanations.GenerateTraditionalExplanation | internal/handlers/explanations/traditional.go:9-23 | the traditional fallback sentence unless "ai_probability" is accepted; otherwise the sentence of its band, showing p·100 from 0.5 and the authenticity (1 − p)·100 below 0.5 |
| Explanations.AdvancedArtifactsSameBands | internal/handlers/explanations/artifacts.go:25-39 | the advanced-artifacts explainer bands exactly like the artifacts one |
| Explanations.TraditionalLowerBandsReportAuthenticity | internal/handlers/explanations/traditional.go:9-23 | below 0.5 the traditional explainer shows the authentic share, complementary to what the pixel explainer shows |
| Explanations.NegativeProbabilityLowestBand | internal/handlers/explanations/coherence.go:9-23 | a negative probability is reported in the lowest band |
| Explanations.NumericStringBanded | internal/handlers/explanations/compression.go:9-23 | a numeric string is parsed and banded like the number |
| Explanations.NonNumericFallsBack | internal/handlers/explanations/pixel.go:9-23 | a bool or int64 value is rejected and gives the fallback sentence |
| Explanations.ModelBandRank | internal/handlers/explanations/ai_model.go:9-25 | the five model bands are ranked 0 to 4 |
| Explanations.ModelBandOf | internal/handlers/explanations/ai_model.go:9-25 | the model bands start at 0.8, 0.6, 0.4 and 0.2, with everything below 0.2 in the last |
| Explanations.ModelBandOfMonotone | internal/handlers/explanations/ai_model.go:9-25 | a higher probability never selects a less AI-indicating model band |
| Explanations.GenerateAIExplanation | internal/handlers/explanations/ai_model.go:9-25 | a missing or rejected "probability" gives the fallback; otherwise its band, always shown as p·100 |
| Explanations.GenerateMetadataExplanation | internal/handlers/explanations/metadata.go:5-17 | rich with a non-empty "software" string, comprehensive without one, limited when "has_metadata" is not the bool true |
| Explanations.GenerateQuickMetadataExplanation | internal/handlers/explanations/metadata.go:19-27 | positive exactly when "has_metadata" is the bool true |
| Explanations.QuickAgreesWithFull | internal/handlers/explanations/metadata.go:5-27 | the quick sentence is positive exactly when the full one finds more than limited metadata |
| Explanations.GenerateEXIFExplanation | internal/handlers/explanations/exif.go:9-23 | camera data only when "has_camera_info" reads as a positive number; the complete sentence exactly when make and model are also non-empty strings |
| Explanations.BoolCameraFlagIgnored | internal/handlers/explanations/exif.go:9-23 | a bool "has_camera_info" is rejected, so it never reports camera data |
| PythonRunner.PredictionLine | pkg/pythonrunner/runner.go:312-324 | the chosen line is the first one containing "img:", and there is none exactly when no line contains it |
| PythonRunner.FindPredictionLine | pkg/pythonrunner/runner.go:312-319 | the loop that stops at the first "img:" line finds exactly the prediction line |
| PythonRunner.FirstMatchIsPredictionLine | pkg/pythonrunner/runner.go:312-319 | a line containing "img:" preceded by none is the prediction line |
| PythonRunner.LastValueBeforeMeans | pkg/pythonrunner/runner.go:339-345 | "pred:" keeps the token after its last occurrence that has a token after it, and none when no occurrence has one |
| PythonRunner.FirstBadFrom | pkg/pythonrunner/runner.go:346-361 | the first unparsable number is reported as a "prob:" or "conf:" error |
| PythonRunner.ParseFields | pkg/pythonrunner/runner.go:327-367 | fewer than 8 fields fail; otherwise one scan returns the first number error, a missing prediction error, or the last prediction, probability and confidence |
| PythonRunner.ReadField | pkg/pythonrunner/runner.go:340-361 | one field fails exactly when it is a "prob:" or "conf:" marker followed by a token that is not a number, naming that marker's error; otherwise the prediction, probability and confidence become the values after the last marker up to this field |
| PythonRunner.Classify | pkg/pythonrunner/runner.go:369-388 | the prediction is lower-cased, it is AI-generated exactly for the raw token "FAKE", and the authenticity score is then 1 − probability and otherwise the probability |
| PythonRunner.ParseClassifyV6Output | pkg/pythonrunner/runner.go:302-391 | the parser returns the parse the specification function gives for the whole output: the line search, the field parse and the result construction |
| PythonRunner.ParsedResultShape | pkg/pythonrunner/runner.go:365-388 | every successful parse has a non-empty prediction, and an AI flag only for "fake" with authenticity 1 − probability |
| PythonRunner.ClassifyShape | pkg/pythonrunner/runner.go:369-388 | a non-empty prediction token stays non-empty when lower-cased; only "FAKE" is flagged, reported as "fake" with authenticity 1 − probability, and any other token keeps the probability as authenticity |
| PythonRunner.MixedCaseFakeNotFlagged | pkg/pythonrunner/runner.go:370-378 | the token "Fake" is reported as "fake" yet not flagged as AI-generated, because the flag compares before lower-casing |
| PythonRunner.NoImageLineFails | pkg/pythonrunner/runner.go:321-324 | output without any "img:" line fails with "no prediction found" |
| PythonRunner.PredictionOnlyAtEndIsMissing | pkg/pythonrunner/runner.go:341-345 | a "pred:" only as the last field yields no prediction |
| C2paReport.KindOf | pkg/analyzer/c2pa-rust/src/report.rs:54-76 | a generator is suspicious exactly when its lower-cased name is in the eleven-name list, a manipulation tool when it is only in the photoshop/gimp list |
| C2paReport.CapAt100 | pkg/analyzer/c2pa-rust/src/report.rs:96-97 | the clamp leaves values up to 100 alone and maps larger ones to 100 |
| C2paReport.VerdictFromScore | pkg/analyzer/c2pa-rust/src/report.rs:112-122 | Unknown exactly without score and confidence; Genuine exactly for a score below 21 with confidence above 40; Generated exactly for a score of 81 or more; Modified otherwise |
| C2paReport.FileType | pkg/analyzer/c2pa-rust/src/report.rs:40-43 | the file type is a dot-free suffix of the name, preceded by a dot unless it is the whole name |
| C2paReport.AddGenerators | pkg/analyzer/c2pa-rust/src/report.rs:68-77 | one claim adds 100 per suspicious and 50 per manipulation generator to the score, and 50 per matching generator to the confidence |
| C2paReport.Score | pkg/analyzer/c2pa-rust/src/report.rs:45-97 | the corrected accumulation: score and confidence are the unbounded totals of claims and certificates, clamped to 100 |
| C2paReport.FromFile | pkg/analyzer/c2pa-rust/src/report.rs:35-100 | the report carries the file name ("n/a" without one), its type, the clamped score and confidence, the verdict of those, and whether and how many claims were found |
| C2paReport.ScoresInRange | pkg/analyzer/c2pa-rust/src/report.rs:96-97 | score and confidence lie in [0, 100] |
| C2paReport.NoEvidenceUnknown | pkg/analyzer/c2pa-rust/src/report.rs:45-50 | without claims and certificates both values stay 0 and the verdict is Unknown |
| C2paReport.ClaimNeverGenuine | pkg/analyzer/c2pa-rust/src/report.rs:50-122 | a file with a claim is never Genuine |
| C2paReport.SuspiciousGeneratorGenerated | pkg/analyzer/c2pa-rust/src/report.rs:68-122 | one claim by a suspicious generator, without certificates, is Generated |
| C2paReport.WrappingAdd | pkg/analyzer/c2pa-rust/src/report.rs:71-92 | u8 `+=` in a release build is addition modulo 256 |
| C2paReport.AddGeneratorsWrapping | pkg/analyzer/c2pa-rust/src/report.rs:68-77 | the u8 accumulation of one claim ends at the unbounded totals modulo 256 |
| C2paReport.AddCertificatesWrapping | pkg/analyzer/c2pa-rust/src/report.rs:80-95 | the u8 certificate points end at the unbounded totals modulo 256 |
| C2paReport.ClaimsWrapping | pkg/analyzer/c2pa-rust/src/report.rs:50-79 | the u8 claim accumulation ends at the claim points modulo 256 |
| C2paReport.ScoreAsWritten | pkg/analyzer/c2pa-rust/src/report.rs:45-97 | as written, the clamp sees the totals modulo 256 |
| C2paReport.AllSuspiciousTally | pkg/analyzer/c2pa-rust/src/report.rs:68-77 | generators that are all suspicious tally one suspicious point each |
| C2paReport.ThreeSuspiciousRaw | pkg/analyzer/c2pa-rust/src/report.rs:50-79 | three suspicious generators in one claim reach 301 and 151 before the clamp |
| C2paReport.ThreeSuspiciousGeneratorsWrap | pkg/analyzer/c2pa-rust/src/report.rs:45-122 | with three suspicious generators the u8 score wraps to 45 and the verdict is Modified, where the clamp alone gives Generated |
| EvalReport.OutcomeOf | runmany-eval/src/evalresult.rs:56-64 | a result fails exactly when its actual code is 0, hits when it equals its own expected code, and misses otherwise |
| EvalReport.Count | runmany-eval/src/evalresult.rs:53-64 | a count never exceeds the number of results |
| EvalReport.From | runmany-eval/src/evalresult.rs:38-69 | an empty run is all zeros; otherwise the expected code is the first file's, the three counters count hits, misses and failures, and accuracy is hits over files |
| EvalReport.CountsPartition | runmany-eval/src/evalresult.rs:56-64 | hits, misses and failures add up to the number of files |
| EvalReport.AccuracyInUnitRange | runmany-eval/src/evalresult.rs:66 | accuracy lies in [0, 1] and is 1 exactly when every file is a hit |
| EvalReport.HitsUseEachFilesExpectation | runmany-eval/src/evalresult.rs:52-62 | files are compared with their own expected code, not the report's, so a mixed batch can be all hits |
| EvalReport.ToLine | runmany-eval/src/evalresult.rs:21-23 | a line for a file name without tabs has three tab-separated fields |
| EvalReport.LineRoundTrip | runmany-eval/src/evalresult.rs:21-23 | a line reads back: its fields are the digits of the two codes and the file name |
| PngChunks.BigEndian32 | pkg/analyzer/compression/png/png_analyzer.py:36 | a 4-byte big-endian length is below 2^32 |
| PngChunks.Decode32Encode32 | pkg/analyzer/compression/png/png_analyzer.py:36 | decoding the big-endian bytes of a 32-bit length gives the length back |
| PngChunks.SumIdatLengths | pkg/analyzer/compression/png/png_analyzer.py:30-40 | the chunk walk after the 8-byte signature returns the specification's IDAT total, or the error a truncated length raises |
| PngChunks.CompressionRatio | pkg/analyzer/compression/png/png_analyzer.py:19-22 | the ratio is missing exactly for a raw size of 0, and otherwise is the file size over the raw size |
| PngChunks.MakeChunk | pkg/analyzer/compression/png/png_analyzer.py:35-40 | every data length below 2^32 has a well-formed chunk whose length field holds it |
| PngChunks.ChunkBytes | pkg/analyzer/compression/png/png_analyzer.py:35-40 | a chunk occupies 12 bytes plus its data |
| PngChunks.ChunkAt | pkg/analyzer/compression/png/png_analyzer.py:36-37 | a laid-out chunk is read back with its length and its type |
| PngChunks.WalkFromAt | pkg/analyzer/compression/png/png_analyzer.py:35-40 | one pass of the loop adds the IDAT length read at the chunk start to the total and moves 12 bytes past the data |
| PngChunks.WalkStep | pkg/analyzer/compression/png/png_analyzer.py:35-40 | a chunk whose length and type are read at the chunk start adds its IDAT length, and the walk goes on 12 bytes past its data |
| PngChunks.LayoutLaidOut | pkg/analyzer/compression/png/png_analyzer.py:35-40 | bytes that spell out well-formed chunks show each chunk's length and type where the walk reads them |
| PngChunks.WalkLaidOut | pkg/analyzer/compression/png/png_analyzer.py:35-40 | when the chunks fill the file to its end, the walk finds exactly their total IDAT length |
| PngChunks.WalkShortTail | pkg/analyzer/compression/png/png_analyzer.py:35-36 | when the chunks stop one to three bytes before the end, the length unpack raises |
| PngChunks.WalkLayout | pkg/analyzer/compression/png/png_analyzer.py:35-40 | walking a chunk sequence finds exactly its total IDAT data length |
| PngChunks.ChunkWalkFindsIdat | pkg/analyzer/compression/png/png_analyzer.py:30-47 | any 8-byte signature followed by well-formed chunks reports the total IDAT length of those chunks |
| PngChunks.TrailingBytesRaise | pkg/analyzer/compression/png/png_analyzer.py:35-36 | one to three stray bytes after the last chunk make the length unpack raise |
| PngChunks.ShortFileHasNoIdat | pkg/analyzer/compression/png/png_analyzer.py:34-35 | a file of at most 8 bytes reports 0 IDAT bytes |
| CompressionScore.JpegIndicators | pythonScripts/analyze_compression.py:41-84 | the JPEG path has one to four indicators, the first being double compression above 0.15 |
| CompressionScore.JpegAiScore | pythonScripts/analyze_compression.py:39-104 | probability is the share of true indicators, confidence their number over 4, and each flag is its check on the statistics |
| CompressionScore.JpegScoreBounds | pythonScripts/analyze_compression.py:86-97 | the JPEG probability lies in [0, 1] and its confidence in [0.25, 1] |
| CompressionScore.MissingQuantStatsAreSuspicious | pythonScripts/analyze_compression.py:55-70 | a quantisation table without mean and spread reads both as 0 and raises both quantisation indicators |
| CompressionScore.PngFound | pythonScripts/analyze_compression.py:114-161 | at most four PNG indicators are found, one per present field |
| CompressionScore.PngIndicators | pythonScripts/analyze_compression.py:163-165 | one to four indicators are scored, a single false one when no field is present |
| CompressionScore.CheckEntropy | pythonScripts/analyze_compression.py:124-135 | the entropy check flags an unusual colour count exactly for an entropy below 4 |
| CompressionScore.CheckRatio | pythonScripts/analyze_compression.py:137-149 | the ratio check appends the indicator the specification gives for the ratio band |
| CompressionScore.CollectPngIndicators | pythonScripts/analyze_compression.py:108-161 | the four checks collect exactly the found indicators and set the compression and colour flags exactly for an uncompressed or raw type and an entropy below 4 |
| CompressionScore.DampedProbability | pythonScripts/analyze_compression.py:167-174 | the share is multiplied by 0.7 for an entropy above 7 and by 0.5 for a ratio of at most 0.05 |
| CompressionScore.PngAiScore | pythonScripts/analyze_compression.py:106-192 | None exactly where the minimal-metadata flag divides by a zero file size; otherwise indicators, probability, confidence and the four flags as the checks define them |
| CompressionScore.PngProbabilityInUnitRange | pythonScripts/analyze_compression.py:163-174 | the PNG probability lies in [0, 1] |
| CompressionScore.NoPngFieldsIsAuthentic | pythonScripts/analyze_compression.py:163-165 | with no field present the file scores probability 0 with confidence 0.25 |
| CompressionScore.OnlyPoorCompressionIsSuspicious | pythonScripts/analyze_compression.py:137-149 | of the ratio bands only a ratio above 0.8 raises the indicator |
| CompressionScore.PhotoCharacteristicsDamp | pythonScripts/analyze_compression.py:169-174 | an image with entropy above 7 and ratio at most 0.05 scores at most 0.35 |
| CompressionScore.SplitExt | pythonScripts/analyze_compression.py:195 | the extension is empty or the text from the last dot of the file name |
| CompressionScore.AnalyzeImage | pythonScripts/analyze_compression.py:194-215 | ".jpg" and ".jpeg" take the JPEG path, ".png" the PNG path, any other lower-cased extension is unsupported and reported |
| ArtifactScore.MakeSerializable | pythonScripts/detect-artifacts.py:9-22 | the result holds no numpy value; a dict keeps its keys in order with each value converted, a list keeps its length with each element converted, numpy scalars become the Python values they hold and other values are left alone |
| ArtifactScore.SerializeItems | pythonScripts/detect-artifacts.py:12 | each entry keeps its key and has its value converted |
| ArtifactScore.SerializeElements | pythonScripts/detect-artifacts.py:14 | each element is converted in place |
| ArtifactScore.SerializeKeepsData | pythonScripts/detect-artifacts.py:9-22 | the conversion loses nothing: at every depth the result holds the same keys, lengths and scalar values as the input |
| ArtifactScore.PlainUnchanged | pythonScripts/detect-artifacts.py:9-22 | a value without numpy parts comes back unchanged |
| ArtifactScore.MakeSerializableIdempotent | pythonScripts/detect-artifacts.py:9-22 | converting twice is converting once |
| ArtifactScore.PngIndicator | pythonScripts/detect-artifacts.py:181-192 | the PNG indicator fires exactly for fewer than 1000 or more than 100000 colours, dithering above 50, or an edge density outside [0.01, 0.3] |
| ArtifactScore.ColorComplexityCategory | pythonScripts/detect-artifacts.py:200-206 | each category holds exactly its colour-count band |
| ArtifactScore.CategoryAndIndicator | pythonScripts/detect-artifacts.py:181-206 | a very low colour count always fires; above 100000 is artificial and fires; exactly 100000 is artificial and may not fire |
| ArtifactScore.DetectPngArtifacts | pythonScripts/detect-artifacts.py:148-207 | a file whose lower-cased extension is not ".png" is not applicable; otherwise the indicator and the category of its statistics |
| ArtifactScore.ArtifactIndicators | pythonScripts/detect-artifacts.py:211-231 | at most six indicators, one per present section |
| ArtifactScore.AppendPng | pythonScripts/detect-artifacts.py:230-231 | the PNG indicator is appended unless the section is absent or not applicable |
| ArtifactScore.AppendSection | pythonScripts/detect-artifacts.py:214-227 | a present section appends its indicator, missing read as False |
| ArtifactScore.CalculateArtifactAiScore | pythonScripts/detect-artifacts.py:209-250 | totals, positives, the share of true indicators, confidence over 6 and the six summary flags |
| ArtifactScore.AssessmentBounds | pythonScripts/detect-artifacts.py:233-241 | the score lies in [0, 1], the confidence is at most 1, and positives never exceed the total |
| ArtifactScore.NotApplicablePngNotCounted | pythonScripts/detect-artifacts.py:230-248 | a not-applicable PNG section adds no indicator, yet its flag still shows in the summary |
| ArtifactScore.BaseSectionsOnly | pythonScripts/detect-artifacts.py:213-235 | a run with the five base sections and no PNG section has five indicators |
| AdvancedArtifacts.DetectAiPatterns | pythonScripts/advanced-artifacts.py:24-69 | the pattern indicator fires exactly for a frequency balance below 0.5, a texture spread above 20 or a gradient spread below 10, and the three anomaly scores repeat those statistics |
| AdvancedArtifacts.Diffs | pythonScripts/advanced-artifacts.py:89 | `np.diff` has one entry fewer, each the difference of neighbours |
| AdvancedArtifacts.DiffsTelescope | pythonScripts/advanced-artifacts.py:89-90 | the differences add up to the last entry minus the first |
| AdvancedArtifacts.DetectCompressionTimeline | pythonScripts/advanced-artifacts.py:71-101 | the resistance, the mean of the differences, is (error at quality 55 − error at quality 95) / 4, and the image counts as recompressed exactly when that change is below −40 |
| AdvancedArtifacts.DetectSyntheticNoise | pythonScripts/advanced-artifacts.py:103-137 | the noise is synthetic exactly for an autocorrelation peak above 0.8 or a noise spread below 1; an unflagged image scores at most 0.8 |
| AdvancedArtifacts.NoiseScoreMonotone | pythonScripts/advanced-artifacts.py:136 | the noise score rises with the peak and falls with the noise spread |
| AdvancedArtifacts.SelfTemplatePeakFlags | pythonScripts/advanced-artifacts.py:112-136 | with the peak of 1 that matching the residual against a piece of itself gives, the indicator always fires |
| AdvancedArtifacts.AdvancedIndicators | pythonScripts/advanced-artifacts.py:166-178 | at most three indicators, one per present section |
| AdvancedArtifacts.CalculateAdvancedAiScore | pythonScripts/advanced-artifacts.py:164-192 | the probability is the share of fired indicators, the confidence their number over 3, and each flag its section's indicator, False when missing |
| AdvancedArtifacts.AdvancedAssessmentBounds | pythonScripts/advanced-artifacts.py:181-182 | probability and confidence lie in [0, 1], and both are 0 without sections |
| AdvancedArtifacts.AnalyzedResults | pythonScripts/advanced-artifacts.py:147-151 | a completed analysis carries each detector's indicator in its section |
| AdvancedArtifacts.CompletedAnalysisScore | pythonScripts/advanced-artifacts.py:147-182 | a completed analysis has three indicators and scores the fired detectors in thirds |
| PixelScore.AnalyzeNoisePatterns | pythonScripts/analyze_pixel.py:8-30 | the noise indicator fires exactly for a uniformity below 10 |
| PixelScore.AnalyzeFrequencyDomain | pythonScripts/analyze_pixel.py:32-53 | the frequency indicator fires exactly for a high-to-low ratio below 0.7 |
| PixelScore.ColorIndicators | pythonScripts/analyze_pixel.py:67-74 | there are four colour indicators |
| PixelScore.CheckColorConsistency | pythonScripts/analyze_pixel.py:55-91 | the four indicators are the saturation and hue checks, the colour score is their share damped by 0.6 for natural saturation, and naturalness is 1 minus it |
| PixelScore.ColorScoreBounds | pythonScripts/analyze_pixel.py:67-79 | the colour score lies in [0, 0.75]; with natural saturation it is at most 0.15, reached exactly for a hue spread below 10 |
| PixelScore.PixelIndicators | pythonScripts/analyze_pixel.py:95-104 | at most four indicators are scored |
| PixelScore.AppendColor | pythonScripts/analyze_pixel.py:101-104 | a colour section appends its oversaturation and uniformity indicators |
| PixelScore.CalculateAiPixelScore | pythonScripts/analyze_pixel.py:93-112 | total, positives and the share of true indicators |
| PixelScore.AnalyzedPixelResults | pythonScripts/analyze_pixel.py:97-104 | a completed analysis carries the noise, frequency, oversaturation and uniformity indicators |
| PixelScore.CompletedPixelScore | pythonScripts/analyze_pixel.py:93-106 | a completed analysis scores four indicators in [0, 1], and the undersaturation and hue checks never change it |
| PixelScore.PixelAssessmentBounds | pythonScripts/analyze_pixel.py:106-111 | the score lies in [0, 1] and at most four indicators count |
| ColorBalance.Ratio | pythonScripts/analyze_color_balance.py:84-88 | a channel ratio is the quotient of the means, and 0 when the divisor mean is not positive |
| ColorBalance.ImbalanceChecks | pythonScripts/analyze_color_balance.py:143-173 | there is one check per imbalance label |
| ColorBalance.LabelsDistinct | pythonScripts/analyze_color_balance.py:149-173 | the nine imbalance labels are distinct |
| ColorBalance.CollectImbalanceIndicators | pythonScripts/analyze_color_balance.py:146-173 | the list built check by check is the specification's selection of labels |
| ColorBalance.ChannelVariationChecks | pythonScripts/analyze_color_balance.py:143-158 | the first four checks select their labels |
| ColorBalance.AppendBalanceChecks | pythonScripts/analyze_color_balance.py:160-173 | the last five checks complete the selection |
| ColorBalance.ImbalanceIndicatorsExact | pythonScripts/analyze_color_balance.py:146-176 | each label is listed exactly when its check holds, and the imbalance score lies in [0, 9/8] |
| ColorBalance.NineIndicatorsExceedOne | pythonScripts/analyze_color_balance.py:146-176 | a dark, colour-cast, flat image fires all nine checks and scores 9/8 before the cap |
| ColorBalance.ColorSteps | pythonScripts/analyze_color_balance.py:179-194 | at most five 0.2 steps; five only without imbalance, and never exactly one without imbalance |
| ColorBalance.AccumulateColorScore | pythonScripts/analyze_color_balance.py:179-194 | the colour score is the number of steps times 0.2, in [0, 1] |
| ColorBalance.FinalScore | pythonScripts/analyze_color_balance.py:197-207 | the reported score lies in [0, 1] and is at least each of the two scores capped at 1 |
| ColorBalance.AnalyzeColorBalance | pythonScripts/analyze_color_balance.py:51-210 | an unreadable image is an error; otherwise the channel ratios, the imbalance labels and score, and a final score in [0, 1] from both scores |
| Indicators.CountTrue | pythonScripts/detect-artifacts.py:234-241 | `sum(indicators)` counts the true entries, at most their number |
| Indicators.CountTrueExtremes | pythonScripts/detect-artifacts.py:234-241 | the count is 0 exactly when no entry is true and the length exactly when all are |
| Indicators.ShareInUnitRange | pythonScripts/detect-artifacts.py:234 | the share of true indicators, 0 for none, lies in [0, 1] |
| Indicators.ShareZero | pythonScripts/detect-artifacts.py:234 | the share is 0 exactly when no indicator is true |
| Indicators.SelectedUpTo | pythonScripts/analyze_lighting.py:45-55 | the labels appended by the first n checks are at most n |
| Indicators.SelectedExactly | pythonScripts/analyze_color_balance.py:146-173 | with distinct labels, a label is appended exactly when its check holds |
| Indicators.SelectedAll | pythonScripts/analyze_color_balance.py:146-173 | when every check holds every label is appended |
| Indicators.SelectedOnlyEarlier | pythonScripts/analyze_color_balance.py:146-173 | the first n checks never append a later label |
| Lighting.SeqMax | pythonScripts/analyze_lighting.py:76-79 | the maximum bin bounds every bin and is one of them |
| Lighting.MaxAtLeastMean | pythonScripts/analyze_lighting.py:76-79 | the fullest bin times the number of bins is at least the total |
| Lighting.ShadowConsistency | pythonScripts/analyze_lighting.py:61-80 | the shadow consistency lies in [0, 1] and is 0 for an empty histogram |
| Lighting.ShadowConsistencyFloor | pythonScripts/analyze_lighting.py:61-80 | a non-empty 36-bin histogram scores at least 2/36, however spread |
| Lighting.DominantDirectionIsConsistent | pythonScripts/analyze_lighting.py:79-80 | a bin holding half the angles gives full consistency |
| Lighting.ExposureScore | pythonScripts/analyze_lighting.py:82-106 | the exposure check fails exactly for a brightness spread below 20 or above 80, and scores 0.2, 0.3 or 0.8 |
| Lighting.LightSourceConsistency | pythonScripts/analyze_lighting.py:108-127 | one region gives 0.7, no bright pixel 0.5, otherwise 1 − spread/50 floored at 0, which fails exactly for a spread above 15 |
| Lighting.FailedChecks | pythonScripts/analyze_lighting.py:45-55 | there is one failure flag per anomaly label |
| Lighting.AnalyzeLightingPhysics | pythonScripts/analyze_lighting.py:6-59 | the three scores are the checks' scores, the anomalies are the labels of the failed checks in order, and the score is their number over 3 |
| Lighting.AnomaliesExact | pythonScripts/analyze_lighting.py:42-57 | each anomaly is listed exactly when its check fails, and the score is 0, 1/3, 2/3 or 1 |
| Lighting.NaturalLightingHasNoAnomaly | pythonScripts/analyze_lighting.py:42-127 | moderate contrast, one light source and a dominant shadow direction give no anomaly |
| Coherence.PerspectiveScore | pythonScripts/analyze_coherence.py:37-53 | no lines give 0.1, fewer than 10 give 0.9, more than 200 give 0.7, otherwise 0.3 |
| Coherence.LightingPhysicsScore | pythonScripts/analyze_coherence.py:55-73 | a gradient spread below 20 gives 0.6, above 80 gives 0.2, otherwise 0.3 |
| Coherence.EdgeScore | pythonScripts/analyze_coherence.py:75-94 | an edge density outside [0.05, 0.3] gives 0.5; inside it, 0.4 exactly for a Laplacian variance below 100 and 0.1 otherwise |
| Coherence.AnalyzeObjectCoherence | pythonScripts/analyze_coherence.py:6-35 | an unreadable image is an error; otherwise the three check scores, their mean and no anomalies |
| Coherence.CoherenceScoreRange | pythonScripts/analyze_coherence.py:20 | the coherence score lies in [0.4/3, 2/3], and both ends are reached |
| Coherence.CoherenceNeverInTopBand | pythonScripts/analyze_coherence.py:20 | the coherence score stays below 0.7, the threshold of the four-band explanations' top band, and its least value is in their bottom band |
| Coherence.CoherenceJson | pythonScripts/analyze_coherence.py:10-33 | an unreadable image gives only an "error" entry; otherwise the only top-level key is "object_analysis", whose "ai_coherence_score" is the score |
| Coherence.CoherenceOutcome | internal/handlers/explanations/coherence.go:9-23 | the script writes no top-level "ai_probability", so for every image the coherence explanation is its fallback sentence and the verdict's coherence score is 0.333 |
| UserExplanations.Summary | pythonScripts/user-explanations.py:7-41 | without an overall assessment the verdict stays inconclusive with low confidence and no recommendation; with one the verdict is decided and at least one recommendation given |
| UserExplanations.Findings | pythonScripts/user-explanations.py:43-71 | at most three findings |
| UserExplanations.GenerateUserExplanations | pythonScripts/user-explanations.py:4-73 | a fired indicator without its number raises; otherwise verdict, confidence and recommendations from the overall score, the findings of the fired indicators, and empty reasoning and hints |
| UserExplanations.AddFindings | pythonScripts/user-explanations.py:43-71 | the three checks append exactly the findings of the fired indicators, or raise |
| UserExplanations.FindingsExact | pythonScripts/user-explanations.py:43-71 | a finding of each kind appears exactly when its indicator fired |
| UserExplanations.VerdictBands | pythonScripts/user-explanations.py:19-41 | likely AI exactly from 0.7, possibly AI exactly in [0.4, 0.7), likely authentic exactly below 0.4, and a missing score counts as 0 |
| ClassifyV6.MakeTtaTransforms | ai-analyse/new_analysis/classify-v6.py:150-185 | the transforms are the prefix of the seven-transform list that the two fixed ones, the crops and the rotations build, cut at the requested count |
| ClassifyV6.TtaCount | ai-analyse/new_analysis/classify-v6.py:150-185 | a count n ≥ 0 gives the first min(n, 7) transforms, the plain one first; a negative count cuts from the end |
| ClassifyV6.DatasetLen | ai-analyse/new_analysis/classify-v6.py:197-200 | the dataset has images × augmentations items, or one per image without augmentations |
| ClassifyV6.DatasetIndexToItem | ai-analyse/new_analysis/classify-v6.py:202-207 | every index names an existing image and augmentation, image-major |
| ClassifyV6.DatasetItemToIndex | ai-analyse/new_analysis/classify-v6.py:202-207 | every image and augmentation has its index, so indices and pairs correspond one to one |
| ClassifyV6.DatasetWithoutTta | ai-analyse/new_analysis/classify-v6.py:208-210 | without augmentations each index is its own image |
| ClassifyV6.AsNumber | ai-analyse/new_analysis/classify-v6.py:304-310 | numbers and booleans read as numbers, booleans as 1 and 0; nothing else does |
| ClassifyV6.LoadThresholdPreference | ai-analyse/new_analysis/classify-v6.py:298-315 | a numeric "best_threshold" wins over a numeric "threshold", which wins over a bare number; anything else gives none |
| ClassifyV6.LoadThresholdRoundTrip | ai-analyse/new_analysis/classify-v6.py:298-315 | a threshold written as a number, bare or under either key, reads back |
| ClassifyV6.CandidateNames | ai-analyse/new_analysis/classify-v6.py:317-327 | three candidate names are tried |
| ClassifyV6.DedupSpec | ai-analyse/new_analysis/classify-v6.py:329-335 | deduplication keeps each name once and adds none |
| ClassifyV6.GuessThresholdCandidates | ai-analyse/new_analysis/classify-v6.py:317-337 | the loop returns the candidates deduplicated in order |
| ClassifyV6.CandidateCount | ai-analyse/new_analysis/classify-v6.py:317-337 | a stem containing "_best" gets three distinct candidates, any other two |
| ClassifyV6.AutoLoadThreshold | ai-analyse/new_analysis/classify-v6.py:339-349 | the result is the threshold of the first existing candidate that holds one, and none when no candidate does |
| ClassifyV6.EnsembleModelThreshold | ai-analyse/new_analysis/classify-v6.py:592-594 | an ensemble model uses its loaded threshold, else 0.25 |
| ClassifyV6.SingleModelThreshold | ai-analyse/new_analysis/classify-v6.py:445-448 | the single model uses the caller's threshold, else its loaded one, else 0.5 |
| ClassifyV6.BallotOf | ai-analyse/new_analysis/classify-v6.py:386-389 | a model votes 1 exactly at or above its threshold, with a confidence in [0, 1] |
| ClassifyV6.Ballots | ai-analyse/new_analysis/classify-v6.py:386-389 | one ballot per model, in model order |
| ClassifyV6.TallyBallots | ai-analyse/new_analysis/classify-v6.py:382-395 | the loop's sums are the weighted sum and weight sum of the sure-enough ballots, and its votes all decisions |
| ClassifyV6.CalculateEnsembleVote | ai-analyse/new_analysis/classify-v6.py:379-405 | the vote is the clipped weighted vote, or the plain mean when no model is sure enough; the confidence is twice its distance from 1/2 |
| ClassifyV6.ClipVote | ai-analyse/new_analysis/classify-v6.py:402 | the clipped vote lies in [0, 1], leaves a vote in [0, 1] alone, and is 1 for NaN |
| ClassifyV6.VoteConfidence | ai-analyse/new_analysis/classify-v6.py:403 | the confidence lies in [0, 1] and is twice the distance from 1/2 |
| ClassifyV6.WeightedSumBetween | ai-analyse/new_analysis/classify-v6.py:391-398 | the weighted sum lies between 0 and the weight sum, at an end when all models agree |
| ClassifyV6.DecisionTotalBetween | ai-analyse/new_analysis/classify-v6.py:395-400 | the decisions add up to between 0 and their number |
| ClassifyV6.RawVoteInUnitRange | ai-analyse/new_analysis/classify-v6.py:397-402 | with at least one model the raw vote already lies in [0, 1], so clipping changes nothing |
| ClassifyV6.UnanimousVote | ai-analyse/new_analysis/classify-v6.py:386-405 | models that all vote alike give that vote with full confidence |
| ClassifyV6.EmptyVote | ai-analyse/new_analysis/classify-v6.py:400-403 | with no model the NaN mean is clipped to a vote of 1 with full confidence |
| ClassifyV6.BallotsValid | ai-analyse/new_analysis/classify-v6.py:386-389 | every ballot has a 0 or 1 decision and a confidence in [0, 1] |
| ClassifyV6.TtaMeans | ai-analyse/new_analysis/classify-v6.py:536-541 | the final reshape gives one mean per image |
| ClassifyV6.TtaMeansRow | ai-analyse/new_analysis/classify-v6.py:536-541 | image i's mean is the mean of row i, which holds exactly its augmented outputs |
| ClassifyV6.BatchGroups | ai-analyse/new_analysis/classify-v6.py:485-494 | a batch yields `len(batch) // n` group means |
| ClassifyV6.RealtimeTtaAsWritten | ai-analyse/new_analysis/classify-v6.py:484-513 | as written, each batch is grouped from its own start |
| ClassifyV6.RealtimeTtaOrError | ai-analyse/new_analysis/classify-v6.py:484-487 | with no augmentations and at least one image the first batch divides by zero and fails; with no images nothing is reported; otherwise the as-written groups are reported |
| ClassifyV6.NextBatch | ai-analyse/new_analysis/classify-v6.py:470-513 | one pass of the batch loop advances and keeps the report consistent with the rest of the groups |
| ClassifyV6.ReportBatch | ai-analyse/new_analysis/classify-v6.py:488-513 | each group of a batch is reported as the next image while images remain |
| ClassifyV6.RealtimeTta | ai-analyse/new_analysis/classify-v6.py:484-541 | the corrected real-time path reports exactly the per-image means of the final reshape |
| ClassifyV6.AlignedBatchesAgree | ai-analyse/new_analysis/classify-v6.py:484-541 | with a batch size that is a multiple of the augmentation count, the code as written reports the intended means |
| ClassifyV6.RealtimeMisaligned | ai-analyse/new_analysis/classify-v6.py:484-541 | three images of two augmentations in batches of three are reported as two wrong means instead of three |
| TestImages.BandIndex | test_images.py:99-110 | the band is 0 exactly below 20, 4 exactly from 80, and otherwise the 20-point band holding the probability |
| TestImages.FormatVerdict | test_images.py:99-110 | each probability band gets its coloured marker before the verdict |
| TestImages.BandMonotone | test_images.py:99-110 | a higher probability never gets a lower band |
| TestImages.LabelledResults | test_images.py:261-265 | the labelled results are exactly those with an "AI" or "Non-AI" label and no error |
| TestImages.CountConfusion | test_images.py:274-292 | the counting loop computes the confusion matrix of the labelled results |
| TestImages.CalculateAccuracyMetrics | test_images.py:255-312 | no metrics exactly when no result is labelled; otherwise the metrics of the confusion matrix of the labelled results |
| TestImages.TallyPartition | test_images.py:274-292 | every labelled result falls in exactly one cell, and the correct ones are the true positives and negatives |
| TestImages.MetricsInUnitRange | test_images.py:294-299 | accuracy, precision, recall and F1 lie in [0, 1], a zero denominator gives 0, and a perfect run has accuracy 1 |
| TestImages.ReportedMetricsValid | test_images.py:255-312 | the reported metrics partition the labelled results and every rate lies in [0, 1] |
| TestImages.DetectionThreshold | test_images.py:32 | an image counts as detected AI exactly from probability 55, and a missing probability never does |
| Common.ToLower | internal/handlers/utils/validation.go:33 | the lower-cased text has the same length and lower-cases each character on its own |
| Common.SplitJoin | pkg/pythonrunner/runner.go:305 | splitting on a separator and joining the pieces back gives the input, and no piece contains the separator |
| Common.Fields | pkg/pythonrunner/runner.go:327 | every field is a non-empty run of non-space characters |
| Common.FieldsOfBlank | pkg/pythonrunner/runner.go:327 | a string of spaces has no field |
| Common.FieldsOfWord | pkg/pythonrunner/runner.go:327 | a non-empty run without spaces is exactly one field |
| Common.FieldsSplit | pkg/pythonrunner/runner.go:327 | a space splits the fields: those of the text before it followed by those of the text after it; with the two lemmas above this fixes the fields of every string as its maximal non-space runs in order |
| Common.FieldsSplitAt | pkg/pythonrunner/runner.go:327 | the fields of a + t, where t starts with a space, are a's fields followed by t's |
| Common.ParseFloatOfNat | internal/handlers/utils/helpers.go:22-25 | the decimal text of a natural number parses back to that number |
| Common.ParseInt64 | internal/handlers/utils/helpers.go:40-42 | a parsed integer lies in the signed 64-bit range, and empty text does not parse |
| Common.ParseInt64OfNat | internal/handlers/utils/helpers.go:40-42 | the decimal text of n reads back as n when n fits in 64 bits and is a range error above that |
| Common.ParseInt64OfNegated | internal/handlers/utils/helpers.go:40-42 | "-" before the decimal text of n reads back as -n down to -2^63 and is a range error below |
| Common.ParseInt64RejectsFraction | internal/handlers/utils/helpers.go:40-42 | text containing a '.' is never an integer |
| Common.SumPick | internal/handlers/verdict/determination.go:55-58 | a sum over map keys does not depend on the order in which the keys are visited |
| Common.SumOver | internal/handlers/verdict/determination.go:55-58 | the loop over the keys, in whatever order, accumulates the order-free sum |

## Left out

- Pipeline.AnalysisPipeline.RunAnalysis: results are values in the model. In Go the cache-hit result is a shallow copy (pkg/analyzer/pipeline/pipelines.go:239) whose `Results` map is the cached entry's own, and on a miss the pointer stored in the cache is the one returned; a later change through either is seen by the other. That aliasing is not modelled.
- HandlerUtils.TruncateTowardZero: a float64 beyond the int64 range converts to an implementation-specific value in Go; the model returns the unbounded truncation.
- Common.ToLower: folds ASCII letters only, where Go's `strings.ToLower`, Rust's `to_lowercase` and Python's `lower` fold all of Unicode; every keyword, extension and generator name the model compares against is ASCII.
- Common.ParseFloat: accepts only the decimal subset of Go's `strconv.ParseFloat` (sign, digits, optional fraction); exponents, `inf`/`nan`, hexadecimal floats and underscores are rejected, so `HandlerUtils.GetFloatValue` and `PythonRunner.ParseClassifyV6Output` read fewer strings as numbers than the Go code does.
- ColorBalance.FinalScore: Python's `round(…, 2)` is not modelled; only the bound of the score is stated.
- AdvancedArtifacts.DetectCompressionTimeline: the `compression_linearity` figure (a NumPy correlation coefficient, advanced-artifacts.py:93) is not modelled; the timeline indicator uses only the modelled quality differences.
- CompressionScore.PngAiScore: a `compression_ratio` key that is present but `None` (the PNG analyzer writes `None` when the raw size is 0, and Python's `None <= 0.1` then raises `TypeError`) is not modelled; the ratio is either missing or a number.
- Lighting.AnalyzeLightingPhysics: analyze_lighting.py has no check for an unreadable image (OpenCV raises); that path is not modelled.
- Monitoring.Metrics: `GetMetricsSummary` (monitoring/monitor.go:394-403) is not modelled; it only bundles the five getters that are. The read lock taken again inside `GetPipelineMetrics` (monitoring/monitor.go:318-322) can deadlock in Go; the sequential model cannot show it.
- Text formatting: the `%.1f`/`%.0f` numbers in the explanation strings, the f-strings of user-explanations.py, the emoji wording of the findings and the column layout of test_images.py are not modelled; the model keeps the selected band, label or number.
- Floating point: `float64`, `f32` and NumPy floats are `real`; rounding, NaN and infinities are not modelled except where noted. The evaluation accuracy is the exact quotient; its f32 rounding is not modelled.
- An empty ensemble vote: NumPy's mean of nothing is NaN, and Python's `max(0, min(1, nan))` leaves 1.0; the model writes the empty mean as None and `ClassifyV6.ClipVote` maps it to 1.0.
- classify-v6.py: the realtime path without TTA (direct one-to-one mapping, classify-v6.py:515-534), the retry with batch size 1 after running out of GPU memory (classify-v6.py:462-467), the networks, their weights and inference, the data loaders and the live mode are not modelled. The ensemble realtime path (classify-v6.py:652-665) uses the same batch grouping as `ClassifyV6.RealtimeTtaAsWritten`.
- Pixel statistics: every OpenCV, NumPy, SciPy, scikit-image, PIL, FFT and jpegio computation (entropy, histograms, autocorrelation, noise, blockiness, ringing, colour bleeding, upscaling and denoising measures) is an input of the model; only the indicator and score logic over those inputs is modelled.
- calculator.go calls `calculatePixelAnalysisScore`, `calculateLightingAnalysisScore`, `calculateColorBalanceScore`, `calculateMetadataQuickScore` and `calculateC2PAScore`, none of which is defined in the package. The first four are bound to scores.go's `calculatePixelScore`, `calculateLightingScore`, `calculateColorScore` and `calculateQuickMetadataScore`. The C2PA scorer is a function parameter.
- Pipeline.ExtractConfidenceScores: the second `pixel_analysis` branch of `extractConfidenceScore` is unreachable (the first one already returns) and is left out.
- SHA-256 is an opaque function of the file bytes; `GetFileHash` and the file reading around it are not modelled.
- Cache.AnalysisCache: `Get` and `Set` require keys of at least 16 characters, because the Go code slices `key[:16]` for its debug output and would panic on a shorter key. Clock readings are a `now` parameter in nanoseconds.
- Concurrency: the `sync.RWMutex` locking of the cache, the metrics and the pipeline is not modelled; every operation runs sequentially.
- Time: stage timeouts are ordinary stage errors, and caller cancellation is an input per stage.
- Python dictionaries keep insertion order, and the model keeps the order in which the checks run. Go maps have no order, and the model proves its results order-free or picks keys nondeterministically.
- I/O and wiring: HTTP handlers, the server, the dashboard, logging, `log.Printf`/`fmt.Printf`/`print` output, subprocess and FFI runners, file existence checks, image decoding, JSON encoding and decoding, the C2PA manifest reader, and the HTTP calls of test_images.py are not modelled. Their results are inputs (`Json` values or errors).
- `ValidateFileContent` and `CreateSecureTempFile` (internal/handlers/utils/validation.go) are not part of this model: they read files, sniff content types and draw random names.

## Findings

| source | as written | input that shows it | evidently intended | confidence | as-written member | corrected member |
|---|---|---|---|---|---|---|
| pkg/analyzer/c2pa-rust/src/report.rs:45-97 | the score is summed in a `u8` before it is clamped to 100, so it wraps modulo 256 (in a release build; a debug build panics) | one claim whose generators are three suspicious names (for example "gpt", "midjourney", "dall-e") and no certificates: 1 + 300 = 301 wraps to 45, confidence 151 is clamped to 100, and the verdict is Modified | accumulate without overflow and clamp to 100, giving score 100 and the verdict Generated | not executed | C2paReport.ScoreAsWritten, C2paReport.ThreeSuspiciousGeneratorsWrap | C2paReport.Score |
| ai-analyse/new_analysis/classify-v6.py:484-511 | each batch of TTA probabilities is cut into `len(probs) // n` groups counted from the start of that batch, so when the batch size is not a multiple of the number of transforms the groups straddle images and the leftover probabilities are dropped | two transforms, batch size 3, probabilities [0, 0, 1, 1, 0, 0] for three images: the realtime path reports [0.0, 0.5] for two images instead of [0.0, 1.0, 0.0]; the defaults (8 requested augmentations give 7 transforms, batch size 32) are misaligned in the same way | one mean per image over that image's own transforms | not executed | ClassifyV6.RealtimeTtaAsWritten, ClassifyV6.RealtimeMisaligned | ClassifyV6.RealtimeTta |
