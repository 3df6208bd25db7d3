# AI model intelligence engine — scoring and ranking core

This project models the scoring and ranking core of a C++ tool that collects
leaderboard records about AI models and turns each record into a scored
**model entity**. The tool's core lives in `src/scraper.cpp`. It does the
following:

- It reads each record's benchmark scores (a GPQA score, or else an average
  score) as weighted **signals**. It fuses the signals into a **final score**
  in [0, 1].
- It enriches the entity from the record and from name heuristics in the
  **knowledge base**: modalities (text, image, video), input price, open-source
  and enterprise flags, coding, creative, context-window and throughput
  estimates, and release recency.
- It derives a **confidence** percentage in [10, 99] and a reason for it.
- It derives eight **rank scores**: overall, value, coding, image, video,
  speed, confidence and enterprise.
- The **intelligence engine** ingests a JSON array of records. It skips
  malformed ones, ignores duplicate names, and keeps entities whose final
  score is positive. It then tallies per-organization **ecosystem**
  statistics and renders them.
- The **data exporter** escapes CSV fields. It selects the rows of the price
  and value CSVs, orders prices cheapest first, and orders ranks with a
  recency-first, score-tie-aware comparator.

The modules follow the program's classes:

| file | module | source entity |
|---|---|---|
| `utils.dfy` | `Utils` | the `Utils` namespace: JSON values, `ToLower`, `TryGetDouble` |
| `scoring.dfy` | `Scoring` | signals, metrics, rank scores, and the arithmetic in `ModelEntity` |
| `entity.dfy` | `Entity` | the `ModelEntity` class, modelled as a Dafny class |
| `knowledge_base.dfy` | `KnowledgeBase` | `KnowledgeBase::Enrich` |
| `exporter.dfy` | `DataExporter` | CSV escaping and the sort comparators |
| `engine.dfy` | `Engine` | the `IntelligenceEngine` class: `Run`, `ComputeEcosystemShares`, `ProcessToJSON` |

### Numbers and primitives

- Numbers are modelled as exact reals.
- `sqrt`, `log10` and `std::stod` are passed in as function values
  (`Utils.Primitives`). Where a proof needs them, the ghost predicate `Lawful`
  states the facts it relies on: `sqrt` is non-negative and zero exactly at
  zero, and `log10` is positive above 1.
- Fetching and parsing the HTTP response is a parameter. `Run` receives
  `Option<JValue>`, where `None` stands for an empty body or a parse failure.

### Specification functions and the methods proved against them

The engine's per-record decision is specified by the pure function
`Engine.Judge`. `Engine.Ingest` folds it over the records. The imperative
`IntelligenceEngine.Run` is proved to produce exactly that fold's names and
counters. Its organization statistics are proved to be `Engine.TallyOrgs`
over the registry.

Each registered entity is tied to its record as well. `Engine.BuiltState`
gives every field of the entity the loop body builds from a record's name,
organization and fields. `Engine.Sources` gives the positions of the records
the fold registers. `Run` is proved to append, in order, one entity per such
position, whose fields are `Engine.RecordState` of that record.

### Behaviour worth knowing

- An out-of-range GPQA score is dropped, not clamped. A parseable GPQA score
  pre-empts the average score, even when it is out of range.
- Duplicate names are counted neither as processed nor as skipped.
- An entity whose final score is not positive is counted neither as processed
  nor as skipped.
- `Run` calls `ComputeAggregates` before `Enrich`. The recency tier is
  therefore computed from the default age of 0 days, so every registered
  entity has recency bonus 3, whatever age `Enrich` then fills in.
- `RecalculateConfidence` first resets the reason to the empty string. The
  "No Verified Signals" reason set by `ComputeAggregates` is therefore never
  what a registered entity keeps.
- The coding estimate for names containing "code" is `final * 1.05`. It is
  not capped at 1.
- `ComputeRankings` divides the context window by 200000 a second time. The
  window was already normalised to at most 1 by `Enrich`.
- The legacy text comparator is the performance comparator with the score
  and threshold scaled by 100. The value CSV uses the same comparator on the
  value rank.
- The performance and value comparators are not strict weak orderings.
- A non-string `organization` field, or a non-string modality tag, throws a
  JSON type error, which the loop counts as skipped.

## Model

| member | source | states |
|---|---|---|
| Utils.Clamp | src/scraper.cpp:179 | `std::clamp`: the result lies in [lo, hi], equals x inside the range and the nearer bound outside it |
| Utils.Min | src/scraper.cpp:499 | `std::min`: the result is one of the arguments and at most both |
| Utils.Abs | src/scraper.cpp:572 | `std::abs`: the result is non-negative and is x or -x |
| Utils.ToLower | src/scraper.cpp:84-88 | length is kept and every character is mapped by the ASCII `tolower` |
| Utils.ToLowerIdempotent | src/scraper.cpp:84-88 | lowering twice equals lowering once, and the result holds no upper-case ASCII letter |
| Utils.ContainsIff | src/scraper.cpp:429-431 | `find(sub) != npos` holds exactly when `sub` occurs at some index of the string |
| Utils.TryGetDouble | src/scraper.cpp:99-115 | a value is produced only for a present number or string field; a number is returned as is, a string is handed to `stod` (a failed parse is `None`), and null, missing or other kinds give `None` |
| Scoring.WithSignal | src/scraper.cpp:177-181 | specification function of `AddSignal`: a non-positive score leaves the list as it is, any other score is appended clamped to [0, 1]; its properties are stated by `WithSignalKeepsUnitScores` and `ModelEntity.AddSignal` |
| Scoring.FusedScore | src/scraper.cpp:184-205 | specification function of the final score: the weighted mean of the signal scores, 0 without signals or without positive total weight; its properties are the `FusedScore…` lemmas below |
| Scoring.WithSignalKeepsUnitScores | src/scraper.cpp:177-181 | adding a signal with positive weight keeps every stored score in [0, 1] (the score is clamped), so the fused score stays in [0, 1] |
| Scoring.WeightedSumBounds | src/scraper.cpp:184-195 | with scores in [lo, hi] and positive weights, the weighted sum lies between lo and hi times the total weight, and the total weight is positive when there is a signal |
| Scoring.FusedScoreIsConvex | src/scraper.cpp:184-205 | the fused score of a non-empty signal list lies between the smallest and largest signal score bounds |
| Scoring.FusedScoreInUnitRange | src/scraper.cpp:184-205 | with scores in [0, 1] the final score is in [0, 1], including the no-signal case where it is 0 |
| Scoring.FusedScoreOfOne | src/scraper.cpp:189-195 | a single signal with a positive weight fuses to its own score, whatever that weight (every weight the loop body uses is positive; at weight 0 the final score is 0) |
| Scoring.FusedScoreScaleInvariant | src/scraper.cpp:189-195 | scaling all weights by a positive factor leaves the final score unchanged |
| Scoring.FusedScoreExample | src/scraper.cpp:189-195 | GPQA 0.90 (weight 0.5) with average 0.80 (weight 0.4) fuse to 77/90 |
| Scoring.RecencyTier | src/scraper.cpp:207-211 | the recency bonus is one of 0..3 |
| Scoring.RecencyTierMonotone | src/scraper.cpp:207-211 | a more recent model never gets a smaller recency bonus, and two ages in the same band (up to 30, 31-90, 91-180, over 180 days) get the same bonus |
| Scoring.SquaredDeviationSign | src/scraper.cpp:246-250 | the sum of squared deviations is non-negative, and zero when every score equals the mean |
| Scoring.DispersionVanishes | src/scraper.cpp:246-253 | the standard deviation is non-negative; it is 0 for fewer than two signals or identical scores, so no consensus penalty applies then |
| Scoring.UnclampedConfidence | src/scraper.cpp:219-256 | specification function of the running `conf`: base 50, 10 per signal, 5 (or 2.5) for an age of at most 30 (or 90) days, 10 when versatile, the quality tier (+15, +10, +5 or -10), minus 50 times the dispersion, and 5 when enterprise-ready; `Confidence` clamps it |
| Scoring.ConfidenceReason | src/scraper.cpp:216-258 | specification function of `confidence_reason`: empty without signals, otherwise "Recent Verification, " for at most 30 days, then "Multi-Category Verified, " when versatile, then "High Consensus" for three or more signals; `ModelEntity.ScoreConfidence` is proved to build exactly it |
| Scoring.Confidence | src/scraper.cpp:214-269 | the confidence percentage is always in [10, 99], and exactly 10 without signals |
| Scoring.ConfidenceOfOneSignal | src/scraper.cpp:218-260 | with one signal (base 50 plus non-negative adjustments, no dispersion penalty) the confidence is in [50, 99] |
| Scoring.ConfidenceTenIffNoSignals | src/scraper.cpp:218-268 | for at most one signal, confidence 10 holds exactly when there is no signal |
| Scoring.ConfidenceExample | src/scraper.cpp:219-260 | the worked example: signals 0.90 and 0.80 on an older, non-enterprise model give 50 + 2·10 + 15 minus 50 times their standard deviation, clamped to [10, 99] |
| Scoring.PriceFactor | src/scraper.cpp:279 | for a non-negative price the price factor is in (0, 1] |
| Scoring.OverallRank | src/scraper.cpp:275-284 | specification function of the overall rank: the configured weights of final score, coding, creative, confidence and price factor, times 100; bounded by `RanksInRangeOnUnitInputs` |
| Scoring.ValueRank | src/scraper.cpp:287-292 | specification function of the value rank: final × 1000 for a price of at most 0, otherwise final² over `log10(price + 1) + 0.1`; see `ValueDenominator` and `ValueRankMonotone` |
| Scoring.ValueDenominator | src/scraper.cpp:287-292 | for a positive price the value denominator `log10(price + 1) + 0.1` exceeds 0.1, so the division is defined |
| Scoring.ValueRankMonotone | src/scraper.cpp:287-292 | at a fixed price, a higher final score never lowers the value rank |
| Scoring.CodingRank | src/scraper.cpp:295-299 | specification function of the coding rank: 0.6 coding, 0.2 reasoning, 0.1 clamped context / 200000 and 0.1 confidence factor, times 100 |
| Scoring.GenerativeRank | src/scraper.cpp:302-309 | specification function of the image and video ranks before their filters: 0.5 final, 0.3 creative, 0.1 clamped speed / 150 and 0.1 confidence factor, times 100 |
| Scoring.SpeedRank | src/scraper.cpp:317-319 | specification function of the speed rank: 0.7 clamped speed / 200, 0.2 confidence factor and 0.1 price factor, times 100 |
| Scoring.EnterpriseRank | src/scraper.cpp:325-327 | specification function of the enterprise rank: 0.4 confidence factor, 0.3 uptime SLA and 0.3 organization maturity, times 100; see `EnterpriseRankGap` |
| Scoring.Rankings | src/scraper.cpp:274-327 | the confidence rank is the confidence; the image rank is 0 without the image modality; the video rank is scaled by 0.3 without video; a free model's value rank is final × 1000 |
| Scoring.ModalityFilters | src/scraper.cpp:302-313 | a model without the video tag gets exactly 30% of the video rank it would have with it; the image rank of a model with the image tag does not depend on its other tags |
| Scoring.RanksInRangeOnUnitInputs | src/scraper.cpp:274-327 | with final score, confidence and metrics in their nominal ranges, every rank except value lies in [0, 100], confidence stays in [10, 99] and value is non-negative |
| Entity.PrimaryTypeOf | src/scraper.cpp:331-335 | the displayed type is Video iff video is present, Image iff the set is exactly {Image}, Multimodal iff more than one modality without video, Text otherwise |
| Entity.ClampRanks | src/scraper.cpp:349-358 | the exported ranks are all in [0, 100], equal the ranks when those are already in range, and keep a confidence in [10, 99] |
| Entity.ClampRanksIdempotent | src/scraper.cpp:349-358 | clamping exported ranks again changes nothing |
| Entity.SquaredDeviationOf | src/scraper.cpp:246-250 | the variance loop's sum equals the recursive squared-deviation sum and is non-negative |
| Entity.ModelEntity.constructor | src/scraper.cpp:162-175 | a new entity has the given name and organization, no modalities or signals, default metrics, zero ranks and scores, and an empty reason |
| Entity.ModelEntity.AddSignal | src/scraper.cpp:177-181 | a non-positive score adds nothing; otherwise exactly one signal with the clamped score is appended and earlier signals are kept |
| Entity.ModelEntity.ComputeAggregates | src/scraper.cpp:183-212 | the final score is the weighted mean of the signals (0 without any); only the recency bonus of the metrics changes, to the tier of the stored days; "No Verified Signals" is the reason exactly when there are no signals |
| Entity.ModelEntity.ScoreConfidence | src/scraper.cpp:216-269 | the step-by-step confidence computation (base, signal bonus, recency, versatility, quality tiers, variance penalty, enterprise bonus, clamp) returns exactly the confidence and reason of the confidence rules; with no signals it returns 10 and an empty reason |
| Entity.ModelEntity.RecalculateConfidence | src/scraper.cpp:214-272 | the confidence and its reason are those of the confidence rules for the current signals, metrics and modality count, and the ranks are recomputed from them |
| Entity.ModelEntity.ComputeRankings | src/scraper.cpp:274-328 | the ranks become the rank formulas of the current score, confidence, metrics and modalities |
| Entity.ModelEntity.ToJSON | src/scraper.cpp:330-370 | the snapshot carries name and organization, clamped ranks in [0, 100], percentages in [0, 100] (the score is final × 100 for a final score in [0, 1]), the confidence, the primary type, and modality flags that match the modality set |
| KnowledgeBase.TagModality | src/scraper.cpp:421-424 | "image" and "vision" map to Image, "video" to Video, "text" to Text, and no other tag maps to anything |
| KnowledgeBase.TagModalities | src/scraper.cpp:419-425 | specification function of the tag loop: the modalities the tags name, or nothing when a tag is not a string; characterised by `TagModalitiesIff` |
| KnowledgeBase.TagModalitiesIff | src/scraper.cpp:419-425 | the tag list fails exactly when some tag is not a string; otherwise a modality is in the set iff some tag names it |
| KnowledgeBase.NameModalities | src/scraper.cpp:426-459 | the name fallback always includes Text and never both Image and Video; Video iff a video-generator word occurs and no image-generator word does; Image iff an image-generator word occurs, or a vision-capable name without a video-generator word |
| KnowledgeBase.FallbackModalities | src/scraper.cpp:426-459 | a record without a modality array always gets a modality set containing Text and never both Image and Video |
| KnowledgeBase.DetectedModalities | src/scraper.cpp:419-460 | specification function of modality detection: the tag list when `modalities` is an array, the name fallback otherwise; see `FallbackModalities` and `InsertModalities` |
| KnowledgeBase.InputPrice | src/scraper.cpp:462-472 | specification function of `price_input_1m`; characterised by `InputPriceUnits` |
| KnowledgeBase.IsOpenSourceName | src/scraper.cpp:474-475 | the open-source flag: the lowered name contains "llama", "mistral", "qwen" or "falcon" |
| KnowledgeBase.IsEnterpriseOrg | src/scraper.cpp:476 | the enterprise flag: the lowered organization is exactly "openai", "anthropic", "google" or "microsoft"; see `EnrichedMetrics` and `EnterpriseRankGap` |
| KnowledgeBase.CodingScore | src/scraper.cpp:482-491 | specification function of `coding_score`: the record's `coding_score`, else its `humaneval`, else final × 1.05 for "code" names and final × 0.85 otherwise; see `CodingEstimateExceedsOne` |
| KnowledgeBase.InputPriceUnits | src/scraper.cpp:462-472 | without an `input_price` the price is one of the name defaults 10, 0.25 and 0; a given price in (0, 1) is read per token and scaled into (0, 1000000); any other given price is kept, and a non-negative price stays non-negative |
| KnowledgeBase.CodingEstimateExceedsOne | src/scraper.cpp:487-490 | the coding estimate for a "code" name is not capped: final score 1 gives 1.05 |
| KnowledgeBase.CreativeScore | src/scraper.cpp:496-510 | the creative score never exceeds 1; a given `creative_score` is capped at 1; an estimate from a non-negative final score is non-negative |
| KnowledgeBase.ContextWindow | src/scraper.cpp:512-519 | the context window is at most 1; without a length it is 0.8 for 128k/200k names and 0.5 otherwise; a given length is divided by 200000 and capped at 1 |
| KnowledgeBase.Throughput | src/scraper.cpp:521-533 | without either throughput field the throughput is one of the name defaults |
| KnowledgeBase.DaysAgo | src/scraper.cpp:535-552 | the age is one of 15, 60, 90, 180 and 365 days, and 90 whenever a release date is present |
| KnowledgeBase.EnrichedMetrics | src/scraper.cpp:462-552 | enterprise readiness holds iff the organization is a listed vendor, with maturity 0.95 and SLA 0.99 (else 0.5 and 0.8); creative and context are at most 1; reasoning equals the final score; the age is one of the defaults; the recency bonus is untouched |
| KnowledgeBase.EnterpriseRankGap | src/scraper.cpp:476-479 | at equal confidence, a listed-vendor model's enterprise rank exceeds a non-vendor's by 19.2 |
| KnowledgeBase.InsertModalities | src/scraper.cpp:418-460 | succeeds iff the record's modalities can be read, and then adds exactly the detected modalities |
| KnowledgeBase.Enrich | src/scraper.cpp:414-553 | succeeds iff the modalities can be read; on success the modalities and the metrics are those of the enrichment rules for the lowered name and organization; on failure the metrics are untouched |
| DataExporter.EscapeCSV | src/scraper.cpp:558-561 | the as-written escaping: a field containing a comma is wrapped in quotes, any other is kept; its behaviour is stated by `EscapeCSVRoundTrip`, `EscapeCSVSplitsQuotedName` and `EscapeCSVSplitsLineBreak` |
| DataExporter.EscapeCSVRoundTrip | src/scraper.cpp:558-561 | a field without a double quote and without a line break, escaped and followed by the end of the text, a comma or a line break, is read back unchanged by a reader that ends unquoted fields at a comma and records at CR or LF, as section 2 of RFC 4180 does |
| DataExporter.EscapeCSVSplitsQuotedName | src/scraper.cpp:558-561 | the as-written escaping of `a",b` is read back as the field `a` followed by stray text |
| DataExporter.EscapeCSVSplitsLineBreak | src/scraper.cpp:558-561 | the as-written escaping leaves `a` LF `b` unquoted, so the reader ends the record after `a` |
| DataExporter.QuoteCSVRoundTrip | src/scraper.cpp:558-561 | the corrected escaping (a field with a comma, quote, CR or LF is quoted, inner quotes doubled) reads every string back unchanged through that reader, whatever field or record follows |
| DataExporter.PriceListed | src/scraper.cpp:595-597 | the price CSV keeps only models whose price is below the unknown mark 999999 |
| DataExporter.ValueListed | src/scraper.cpp:612-614 | the value CSV keeps only models with a positive value rank |
| DataExporter.Listed | src/scraper.cpp:596-597 | `erase(remove_if(…))`: every kept model passes the filter, and each model that passes occurs exactly as often as in the input, any other not at all |
| DataExporter.ListedAppend | src/scraper.cpp:596-597 | the selection keeps the input order: selecting from two parts one after the other is selecting from the whole |
| DataExporter.PriceBefore | src/scraper.cpp:598-600 | the price CSV order: the lower input price first |
| DataExporter.PriceOrderIsStrictWeak | src/scraper.cpp:598-600 | the price order is irreflexive and transitive, and equal prices are interchangeable, so unlike the tie-break it is a strict weak ordering |
| DataExporter.TieBreakBefore | src/scraper.cpp:571-575 | the `tieBreakerSort` lambda: within the threshold the higher recency bonus goes first, otherwise the higher score |
| DataExporter.PerformanceBefore | src/scraper.cpp:580-582 | the performance CSV order: the tie-break on the overall rank with threshold 0.005 |
| DataExporter.ValueBefore | src/scraper.cpp:615-617 | the value CSV order: the tie-break on the value rank with threshold 0.005 |
| DataExporter.LegacyBefore | src/scraper.cpp:633-640 | the legacy text order: the tie-break on overall × 100 with threshold 0.5 |
| DataExporter.TieBreakIsStrict | src/scraper.cpp:571-575 | the recency-first, tie-aware comparator is irreflexive and asymmetric |
| DataExporter.TieBreakCases | src/scraper.cpp:571-575 | a score lead above the threshold decides the order; within the threshold recency decides |
| DataExporter.LegacyMatchesPerformance | src/scraper.cpp:633-640 | the legacy comparator with its ×100 threshold and scores orders exactly as the performance comparator |
| DataExporter.ValueMatchesPerformance | src/scraper.cpp:571-617 | the value CSV orders two models exactly as the performance CSV would if their overall ranks were their value ranks |
| DataExporter.ValueCycle | src/scraper.cpp:571-617 | three models form a cycle under the value comparator as well |
| DataExporter.TieBreakTransitiveAtEqualRecency | src/scraper.cpp:571-575 | among models of equal recency the comparator is transitive |
| DataExporter.TieBreakCycle | src/scraper.cpp:571-583 | three models of recency tiers 3, 2 and 1 form a cycle under the performance comparator, so it is not a strict weak ordering; `Run` registers only tier 3, where `TieBreakIncomparabilityNotTransitive` is the reachable witness |
| DataExporter.TieBreakIncomparabilityNotTransitive | src/scraper.cpp:571-583 | score ties are not transitive: 0 ties 0.004 and 0.004 ties 0.008, yet 0.008 is ordered before 0 |
| Engine.ItemName | src/scraper.cpp:1169-1174 | a name is read iff the record is an object whose `name` is a string |
| Engine.ItemOrganization | src/scraper.cpp:1185 | a missing organization defaults to "Unknown"; reading fails iff the field is present and not a string |
| Engine.CandidateSignal | src/scraper.cpp:1189-1198 | a candidate score is in [0, 1]; a readable GPQA score pre-empts the average even when out of range; the average is used only without a readable GPQA score |
| Engine.ItemSignalsShape | src/scraper.cpp:1189-1198 | a record yields at most one signal, with score in (0, 1] and positive weight; the final score equals that score, and is positive iff a signal was kept |
| Engine.BuiltState | src/scraper.cpp:1185-1205 | the entity the loop body builds from a name, organization and fields: defined exactly when modality detection succeeds, and then carrying that name and organization, the record's signal and fused score, the detected modalities, the enriched metrics over the scored defaults, the confidence, its reason and the ranks |
| Engine.RecordState | src/scraper.cpp:1169-1205 | the built entity for a record: defined only for a record with a string name and a readable organization, whose name and organization it carries |
| Engine.Judge | src/scraper.cpp:1167-1220 | specification function of one loop pass: skipped without a string name, with an empty name, with an unreadable organization or with unreadable modalities; a duplicate for a registered name; registered when the fused score is positive; dropped otherwise. Its contract states that a registration carries the record's non-empty, not yet registered name, and that a duplicate is exactly a record whose non-empty name is registered |
| Engine.Ingest | src/scraper.cpp:1163-1221 | specification function of the loop: `Judge` applied to the records front to back, appending registered names and counting processed and skipped records |
| Engine.Sources | src/scraper.cpp:1166-1221 | the positions of the records the loop registers: strictly increasing and within the array |
| Engine.SourcesMatchIngest | src/scraper.cpp:1166-1221 | one registered position per processed record, and the k-th newly registered name is the name of the record at the k-th position |
| Engine.RecordStates | src/scraper.cpp:1166-1221 | the built entities of the records at the given positions, one per position |
| Engine.RecordStatesAt | src/scraper.cpp:1166-1221 | the k-th entry of `RecordStates` is the built entity of the record at the k-th position |
| Engine.ProvenanceAt | src/scraper.cpp:1207-1208 | when the registry's new entities have the given states, there is one new entity per state and the k-th new entity has the k-th state |
| Engine.ProvenanceAppend | src/scraper.cpp:1207-1208 | appending an entity extends the new entities' states by its state |
| Engine.IngestInvariant | src/scraper.cpp:1166-1221 | the ingested names stay distinct, extend the starting names by exactly the processed count, and processed + skipped never exceeds the number of records |
| Engine.IngestSound | src/scraper.cpp:1166-1221 | every newly registered name comes from some record that is an object carrying that name and a signal |
| Engine.IngestExtends | src/scraper.cpp:1207-1210 | ingesting one more record only appends to the registered names |
| Engine.IngestComplete | src/scraper.cpp:1166-1221 | a well-formed record with a non-empty name, a readable organization and modalities, and a kept signal ends up registered, either by itself or by an earlier namesake |
| Engine.OrgKey | src/scraper.cpp:1254-1255 | the statistics key is never empty, and it is the organization itself when that is non-empty |
| Engine.TallyOrgsCounts | src/scraper.cpp:1252-1259 | after tallying, each organization's count and score sum grow by exactly the number and total final score of its registry entries; the empty key is never added |
| Engine.TallyOrgsSane | src/scraper.cpp:1252-1259 | with final scores in [0, 1], each organization's score sum stays between 0 and its model count |
| Engine.TallyOrgs | src/scraper.cpp:1252-1259 | specification function of `ComputeEcosystemShares`: one increment of count and score sum under the organization's key per (organization, final score) entry, in registry order; see `TallyOrgsCounts` and `TallyOrgsSane` |
| Engine.EcosystemScore | src/scraper.cpp:1280-1281 | the exported ecosystem score: count × 0.4 plus the average score × 10 × 0.3, the average being 0 without models |
| Engine.EcosystemScoreBounds | src/scraper.cpp:1280-1282 | the ecosystem score is 0.4 per model plus an average-score part of at most 3 |
| Engine.IntelligenceEngine.constructor | src/scraper.cpp:1126-1130 | a new engine has an empty registry and no organization statistics |
| Engine.IntelligenceEngine.AddItemSignal | src/scraper.cpp:1188-1198 | the entity's signals become exactly the record's selected signal, if any |
| Engine.IntelligenceEngine.BuildEntity | src/scraper.cpp:1186-1205 | the new entity carries the name, organization, the record's signal and its fused score; enrichment succeeds iff modalities are readable, and then every field of the entity is that of `BuiltState` |
| Engine.IntelligenceEngine.NewEnriched | src/scraper.cpp:1186-1203 | the scored entity after `Enrich`: enrichment succeeds iff modalities are readable, and then its modalities are the detected ones and its metrics the enriched metrics over the scored defaults, with signal and fused score unchanged |
| Engine.IntelligenceEngine.NewScored | src/scraper.cpp:1186-1201 | a fresh entity with the name, organization, the record's signal and its fused score; no modalities, zero ranks and confidence, the default metrics with recency bonus 3 from the default age of 0, and the reason "No Verified Signals" exactly when there is no signal |
| Engine.IntelligenceEngine.Admit | src/scraper.cpp:1167-1220 | the verdict on a record is the specification `Judge` against the registered names; a registration appends exactly one fresh entity whose fields are `RecordState` of the record, and any other verdict leaves the registry unchanged |
| Engine.IntelligenceEngine.Build | src/scraper.cpp:1185-1210 | for a new name, a record is skipped when its modalities cannot be read, dropped when its final score is not positive, and otherwise registered by appending exactly one fresh entity whose fields are `BuiltState` of the record |
| Engine.IntelligenceEngine.Keep | src/scraper.cpp:1207-1210 | the built entity is appended exactly when its final score is positive, and the verdict says so |
| Engine.IntelligenceEngine.Register | src/scraper.cpp:1207-1210 | appending an admitted entity with a new name keeps the registry's names distinct |
| Engine.IntelligenceEngine.ComputeEcosystemShares | src/scraper.cpp:1252-1259 | the organization statistics become the tally of the registry's (organization, final score) entries over the previous statistics, and every organization's score sum stays between 0 and its model count |
| Engine.IntelligenceEngine.Run | src/scraper.cpp:1139-1250 | without a parsed array nothing changes; otherwise the names and counters are those of the ingestion fold, earlier entries are kept, the k-th new entity has the fields `RecordState` gives the k-th registered record, and the statistics are tallied over the new registry |
| Engine.IntelligenceEngine.RunOnArray | src/scraper.cpp:1163-1249 | for a parsed array: the names and counters are those of the ingestion fold, earlier entries are kept, the k-th new entity has the fields `RecordState` gives the k-th registered record, the engine stays valid, and the statistics are tallied over the new registry |
| Engine.IntelligenceEngine.IngestAll | src/scraper.cpp:1163-1221 | the loop over all records ends with the names and counters of the ingestion fold, keeps earlier entries, and its new entities are, in order, the built entities of the registered records |
| Engine.IntelligenceEngine.IngestOne | src/scraper.cpp:1167-1220 | one loop iteration advances the names and counters exactly as the fold does for the next record, and extends the new entities by the built entity of that record when it is registered |
| Engine.IntelligenceEngine.ProcessToJSON | src/scraper.cpp:1272-1287 | one snapshot per registered entity, in order, and one ecosystem score per organization with statistics |
| Engine.IntelligenceEngine.ExportBounds | src/scraper.cpp:1272-1287 | in a consistent engine every exported rank is in [0, 100], every confidence in [50, 99], and each ecosystem score between 0.4 per model and that plus 3 |

## Left out

- `NetworkClient` (HTTP over WinHTTP): I/O. The response reaches `Run` as an already parsed `Option<JValue>`.
- `json::parse`, `json::dump`, `std::stod`, `sqrt` and `log10`: foreign code. They are parameters, and `ProcessToJSON` returns a structured value instead of text.
- IEEE floating point (rounding, NaN, infinities): numbers are exact reals. A `std::stod` result outside `double` range is not modelled.
- The dashboard HTML generator and the file writers: output formatting and file I/O. Only the CSV escaping, the row filters of the price and value CSVs, and the comparators they use are modelled. The 100-row cut, the number formatting and the "N/A" price text are not. The file writers are `ExportJSON`, `ExportCSV`, `ExportLegacyText` and `ExportAll`.
- Logging, `EnsureDirectoryExists`, console colours and `main`: I/O.
- `EnsureCategoryCoverage`: its body is empty.
- The `emerging` registry: it is declared but never read or written by the core.
- Scoring.PriceFactor: at a price of exactly -10 the source divides by zero; in IEEE arithmetic the factor is +infinity, and the overall and speed ranks built from it are clamped to 100 in the JSON snapshot. The model takes the factor to be 0 at that price instead. The contract states nothing about negative prices.
- Scoring.DispersionVanishes: only the non-strict direction is proved. That spread 0 implies identical scores is not stated.
- Entity.ModelEntity.ToJSON: the contract does not restate the fields that are copied unchanged: price, speed, recency bonus, age, reason, and the open-source and enterprise flags.
- Engine.IntelligenceEngine.Run: the registry holds references to entities, where the source's vector holds copies. No entity is changed after it is registered, so the values agree.
- Engine.IntelligenceEngine.Run: called twice on one engine, the source adds the whole registry to the statistics again. The model states this (statistics are tallied over the old statistics) but proves no invariant across calls.
- KnowledgeBase.InsertModalities: when a later tag is not a string, the source has already inserted the earlier tags. The model reports failure without stating those partial insertions. The entity is discarded in either case.

## Findings

| source | as written | input that shows it | evidently intended | confidence | as-written member | corrected member |
|---|---|---|---|---|---|---|
| src/scraper.cpp:558-561 | a field containing a comma is wrapped in quotes; inner quotes are not doubled | the model name `a",b` is written as `"a",b"`, which a reader following section 2 of RFC 4180 reads as the field `a` followed by stray text | double every inner quote, as section 2 of RFC 4180 requires, so every name reads back unchanged | low, not executed | DataExporter.EscapeCSVSplitsQuotedName | DataExporter.QuoteCSVRoundTrip |
| src/scraper.cpp:558-561 | a field containing a line break but no comma is written unquoted | the model name `a` LF `b` is written as is, and a reader following section 2 of RFC 4180 ends the record after `a` | also quote a field holding CR or LF, as section 2 of RFC 4180 requires | low, not executed | DataExporter.EscapeCSVSplitsLineBreak | DataExporter.QuoteCSVRoundTrip |
