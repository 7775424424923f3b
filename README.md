# CreatorCoin AI service: a verified model of its scoring core

The AI service of CreatorCoin scores uploaded content and screens it for fraud.
This project models the service's deterministic core in Dafny and proves
properties of that model. The core covers:

- **Cache** (`utils/cache.py`). An in-memory TTL cache: a dictionary from
  string keys to entries with creation, access and expiry times. The model is
  the class `Cache.CacheManager`, whose methods update the `cache` map in
  place. Each method's new state is tied to a specification function on
  maps: `Lookup`, `AfterLookup`, `Put` or `Sweep`.
- **Fraud detection** (`services/fraud_detector.py`). Content and user
  checks that add weighted indicators to a confidence score, map the score
  to a risk level and the level to an action. The model is the class
  `Fraud.FraudDetector`, which holds the set of seen content keys and the
  per-user upload patterns.
- **Quality scoring** (`services/quality_scorer.py`). Five clamped
  dimension scores, a weighted overall score, a rating, a list of
  recommendations, and a bounded per-creator history. The model is the class
  `Quality.QualityScorer` plus the trend statistics over that history.
- **Enhanced local analysis** (`services/enhanced_content_analyzer.py`). The
  keyword heuristics of the analyzer's offline path: quality,
  engagement, safety, educational value, creativity, monetization,
  confidence, recommendations and the breakdown scores.
- **Content analyzer** (`services/content_analyzer.py`). Its deterministic
  parts: metadata features, scene and duration estimates, text quality, and
  content insights with category detection.
- **Configuration** (`config.py`). The `MAX_FILE_SIZE` suffix parser, the
  configured quality weights and `validate_config`.

Two shared modules support the rest:

- `Base` holds options, clamps, `When` (a one-element list under a
  condition) and exact fractions.
- `Text` models the Python string operations the core relies on:
  - ASCII `lower`/`upper`;
  - whitespace `split()` and `split('.')`;
  - substring `in`;
  - `count`;
  - `strip`/`rstrip`;
  - `int()` on decimal numerals, with PEP 515 underscores.

Wherever the source reads the wall clock, time is an integer parameter
`now`. Where the source draws a random number, the model takes the score
as a parameter. Scores are exact reals where the source uses floats. In
the enhanced analyzer, the quality, engagement, safety, educational, title,
description and duration scores are integers, because they only add and
clamp integers. Creativity (the vocabulary richness term), monetization (the
0.4/0.6 blend and the duration factor), confidence (0.15 and 0.1 steps),
keyword relevance and content length are exact reals.

## Model

| member | source | states |
|---|---|---|
| Config.ParseSizeWithSuffix | ai-service/config.py:22-27 | a number followed by two letters that upper-case to `MB`, `GB` or `KB` parses to that number times 1024², 1024³ or 1024 |
| Config.ParseMaxFileSize | ai-service/config.py:21-29 | the size in bytes: the integer before a case-insensitive `MB`, `GB` or `KB` suffix times 2^20, 2^30 or 2^10, a bare integer times 2^20, and `None` where `int()` raises |
| Config.ParseSizeWithoutSuffix | ai-service/config.py:28-29 | a bare number counts megabytes |
| Config.DefaultMaxFileSizeValue | ai-service/config.py:21 | with `MAX_FILE_SIZE` unset the limit is 104857600 bytes |
| Config.ParseSizeRejectsFraction | ai-service/config.py:22-29 | a size with a decimal point before the suffix is a `ValueError` (`None`) |
| Config.UpperEndsWith | ai-service/config.py:22 | the upper-cased value ends in a two-letter suffix exactly when its last two characters upper-case to it |
| Config.ParseSizeUnderscores | ai-service/config.py:26-27 | `int()` reads PEP 515 underscores, so "1_024KB" is 1024 KB |
| Config.QualityWeightsSumToOne | ai-service/config.py:35-41 | the configured quality weights sum to exactly 1 |
| Config.ConfigErrors | ai-service/config.py:114-127 | at most three errors are reported |
| Config.ValidateConfigIff | ai-service/config.py:114-135 | validation passes exactly when the API key is non-empty, the port is in 1..65535 and the weights sum to within 0.01 of 1; one error per failed check, and each failed check’s own error (missing key, the bad port, the bad sum) is in the list |
| Config.ValidateConfig | ai-service/config.py:111-135 | true exactly when the list of configuration errors is empty |
| Config.ShippedWeightsPass | ai-service/config.py:125-127 | with the shipped weights, validity depends only on the API key and the port |
| Cache.CacheManager.constructor | ai-service/utils/cache.py:11-19 | a new cache is empty and keeps the given default TTL |
| Cache.Lookup | ai-service/utils/cache.py:33-44 | the value `get` returns: none for an absent key or one past its expiry, otherwise the stored value |
| Cache.AfterLookup | ai-service/utils/cache.py:33-44 | the store after `get`: unchanged for an absent key, the key deleted when expired, otherwise its access time set to now |
| Cache.Put | ai-service/utils/cache.py:63-72 | the store after `set`: the key overwritten with creation and access time now and expiry now + ttl |
| Cache.Sweep | ai-service/utils/cache.py:123-130 | the store after `cleanup_expired`: exactly the entries not past their expiry |
| Cache.CacheManager.Get | ai-service/utils/cache.py:33-44 | returns the value of a live entry and touches it, deletes an expired entry and returns nothing, and leaves an absent key alone |
| Cache.CacheManager.Set | ai-service/utils/cache.py:63-72 | overwrites the entry, with expiry `now + ttl` and the default TTL when none is given, and reports success |
| Cache.CacheManager.Delete | ai-service/utils/cache.py:90-94 | returns true exactly when the key was present and removes only that key |
| Cache.CacheManager.Clear | ai-service/utils/cache.py:107-108 | empties the cache |
| Cache.CacheManager.CleanupExpired | ai-service/utils/cache.py:123-135 | removes exactly the expired entries and returns how many there were |
| Cache.CacheManager.OldestEntryAge | ai-service/utils/cache.py:205-211 | `None` exactly on an empty cache; otherwise the largest age of any entry |
| Cache.CacheManager.NewestEntryAge | ai-service/utils/cache.py:213-219 | `None` exactly on an empty cache; otherwise the smallest age of any entry |
| Cache.CacheManager.GetStats | ai-service/utils/cache.py:149-168 | total, active and expired counts, with active + expired = total; hit rate 0; the newest age is at most the oldest |
| Cache.CacheManager.GetStatus | ai-service/utils/cache.py:234-251 | a one-pass count of live and expired entries that agrees with the set definitions and adds up to the total |
| Cache.CacheManager.GetAnalysis | ai-service/utils/cache.py:221-224 | `get` on the key `analysis:<id>` |
| Cache.CacheManager.SetAnalysis | ai-service/utils/cache.py:226-229 | `set` on the key `analysis:<id>` |
| Cache.GetAbsent | ai-service/utils/cache.py:33-34 | `get` on an absent key returns nothing and changes nothing |
| Cache.GetExpiredOrLive | ai-service/utils/cache.py:39-44 | past its expiry an entry is deleted and nothing is returned; at the expiry instant it is still returned and its access time is refreshed |
| Cache.SetThenGet | ai-service/utils/cache.py:63-72 | after `set` at time t, `get` returns the value up to `t + ttl` inclusive and nothing after |
| Cache.SetOthersUnchanged | ai-service/utils/cache.py:66 | `set` does not change what `get` returns for any other key |
| Cache.GetInvisibleLater | ai-service/utils/cache.py:39-43 | a `get` at time t does not change what any later `get` returns |
| Cache.SweepInvisibleLater | ai-service/utils/cache.py:123-130 | a cleanup at time t does not change what any `get` from t on returns |
| Cache.PartitionCount | ai-service/utils/cache.py:149-162 | the expired and live keys partition the store, so their counts add up |
| Cache.CountStep | ai-service/utils/cache.py:238-242 | counting one more key adds one to exactly one of the two counters |
| Cache.SweepExact | ai-service/utils/cache.py:123-135 | cleanup keeps exactly the live entries, unchanged, and the removed count plus the survivors is the old size |
| Cache.SweepRemovesExpired | ai-service/utils/cache.py:124-130 | the cleaned store is the old store minus exactly its expired keys |
| Cache.AnalysisKeyInjective | ai-service/utils/cache.py:223 | two content ids share an analysis key only if they are equal |
| Cache.AnalysisRoundTrip | ai-service/utils/cache.py:221-229 | a stored analysis is read back within its TTL and does not disturb another id's analysis |
| Fraud.FraudDetector.constructor | ai-service/services/fraud_detector.py:11-14 | no content keys and no user patterns at start |
| Fraud.FraudDetector.CheckDuplicateContent | ai-service/services/fraud_detector.py:176-192 | a content key seen before scores 1.0; otherwise the similarity score is returned and the key is recorded |
| Fraud.FraudDetector.CheckUploadRateAbuse | ai-service/services/fraud_detector.py:279-304 | the score and the new user patterns are the upload-limiter specification of the old patterns |
| Fraud.FraudDetector.DetectContentFraud | ai-service/services/fraud_detector.py:33-86 | the indicators are the four content checks that pass their thresholds, in order; the report is derived from their summed weights; the content key is recorded |
| Fraud.FraudDetector.DetectUserFraud | ai-service/services/fraud_detector.py:111-163 | the indicators are the four user checks that pass their thresholds, in order; the report is derived from their summed weights; the upload is recorded |
| Fraud.AddIndicator | ai-service/services/fraud_detector.py:38-44 | appending a fired indicator adds its kind's weight to the confidence, and a check that does not fire changes nothing |
| Fraud.RiskLevelBands | ai-service/services/fraud_detector.py:393-402 | the risk level is high from 0.8, medium from 0.5, low from 0.3, and minimal below |
| Fraud.RiskLevel | ai-service/services/fraud_detector.py:393-402 | the level of a confidence score: high from 0.8, medium from 0.5, low from 0.3, otherwise minimal |
| Fraud.RecommendedAction | ai-service/services/fraud_detector.py:404-413 | the action of each level, `manual_review` for any other string |
| Fraud.Conclude | ai-service/services/fraud_detector.py:76-86 | the report: fraudulent above 0.5 on the uncapped sum, the confidence capped at 1, the level of the uncapped sum and its action |
| Fraud.RiskLevelMonotone | ai-service/services/fraud_detector.py:393-402 | a higher confidence never gives a lower risk level |
| Fraud.ActionTable | ai-service/services/fraud_detector.py:404-413 | each risk level maps to its own action and any other string to `manual_review`, in both directions |
| Fraud.ConcludeConsistent | ai-service/services/fraud_detector.py:76-86 | the reported confidence is capped at 1 and equals the summed weight below that; a fraudulent report is at least medium risk; a high-risk report is fraudulent; the risk level agrees with the reported confidence |
| Fraud.ConfidenceCapped | ai-service/services/fraud_detector.py:79-82 | a summed weight of 1.4 is reported as confidence 1.0 and high risk |
| Fraud.UndisclosedAiScore | ai-service/services/fraud_detector.py:202-222 | the score exceeds 0.7 exactly when the AI probability does and the content carries no AI disclosure |
| Fraud.MetadataRules | ai-service/services/fraud_detector.py:257-273 | 0.6 exactly when both times are set and more than 30 days apart; otherwise 0.4 exactly when there are more than 50 edits; nothing else |
| Fraud.CopyrightScore | ai-service/services/fraud_detector.py:228-250 | the larger of the music score (when the audio has music) and the visual score (when logos or watermarks show), 0 for an absent one |
| Fraud.MetadataScore | ai-service/services/fraud_detector.py:254-273 | 0.6 when both times are set and more than 30 days apart, else 0.4 when edited more than 50 times, else 0 |
| Fraud.MetadataIndicatorIff | ai-service/services/fraud_detector.py:66-73 | the metadata indicator fires exactly on the 30-day time gap; the edit-count score of 0.4 never passes the 0.5 threshold |
| Fraud.KindsOfContentIndicators | ai-service/services/fraud_detector.py:36-72 | the content indicator kinds are exactly those whose scores pass the thresholds 0.85, 0.7, 0.6 and 0.5, in check order |
| Fraud.KindsAppend | ai-service/services/fraud_detector.py:36-72 | listing the kinds of indicators distributes over concatenation |
| Fraud.RepeatIsDuplicate | ai-service/services/fraud_detector.py:182-183 | resubmitting seen content always yields the duplicate indicator, with score 1.0, first |
| Fraud.MockRangesOnlyMetadata | ai-service/services/fraud_detector.py:186-246 | with the mock scores in their ranges and new content, only the metadata indicator can fire |
| Fraud.KeepRecent | ai-service/services/fraud_detector.py:289-292 | filtering never lengthens the upload list |
| Fraud.KeepRecentExact | ai-service/services/fraud_detector.py:289-292 | the kept uploads are exactly the recorded ones less than an hour old |
| Fraud.KeepRecentSnoc | ai-service/services/fraud_detector.py:289-295 | filtering a list with one more upload filters the old list and keeps the new one only if it is recent |
| Fraud.UploadLimiter | ai-service/services/fraud_detector.py:279-304 | score 0.8 exactly when more than 10 uploads are in the hour, 0.0 otherwise; the user's pattern holds the recent uploads plus this one; a new user has exactly this upload; other users are untouched |
| Fraud.UploadAbuseScore | ai-service/services/fraud_detector.py:279-304 | 0.8 when more than 10 uploads, this one included, fall in the last hour, otherwise 0 |
| Fraud.PatternsAfterUpload | ai-service/services/fraud_detector.py:279-304 | the stored patterns: a known user's pattern always gets the filtered list plus this upload, a new user's only when within the limit |
| Fraud.QuietHourResets | ai-service/services/fraud_detector.py:289-292 | after an hour without uploads the window is empty |
| Fraud.FakeEngagementScore | ai-service/services/fraud_detector.py:337-352 | 0.7 exactly when views are positive and likes/views > 0.5 or comments/views > 0.1; 0.0 otherwise |
| Fraud.AuthenticityScore | ai-service/services/fraud_detector.py:361-378 | at most 1, non-negative for non-negative account age, and the plain average of completeness and 1 from 30 days on |
| Fraud.FakeEngagementFiresOnRatio | ai-service/services/fraud_detector.py:344-352 | the fake-engagement indicator fires exactly when views are positive and likes/views > 0.5 or comments/views > 0.1 |
| Fraud.AuthenticityExtremes | ai-service/services/fraud_detector.py:361-378 | a complete profile older than 30 days scores 1; an empty profile created today scores 0 |
| Fraud.BotIndicatorNeverFires | ai-service/services/fraud_detector.py:126-130 | the bot check returns only 0, 0.7 or 0.8, so its strict `> 0.8` threshold never fires |
| Fraud.TotalWeightAppend | ai-service/services/fraud_detector.py:38-154 | the summed weight of indicators with one more appended grows by that kind's weight |
| Quality.QualityScorer.constructor | ai-service/services/quality_scorer.py:30-31 | the history starts empty |
| Quality.EngagementScore | ai-service/services/quality_scorer.py:117-175 | the clamped engagement sum, always in [0, 1] |
| Quality.EngagementSweetSpot | ai-service/services/quality_scorer.py:117-175 | a duration between 15 and 60 seconds scores at least as well as any other duration, absent or present |
| Quality.EngagementAveragesAi | ai-service/services/quality_scorer.py:117-175 | the AI engagement potential is averaged in: raising it by δ raises the raw score by δ/2 |
| Quality.EducationalScore | ai-service/services/quality_scorer.py:177-222 | the clamped educational sum, always in [0, 1] |
| Quality.EducationalCategoryBonus | ai-service/services/quality_scorer.py:177-222 | an educational AI category adds 0.2, and a description over 300 characters adds 0.125 over an empty one |
| Quality.CreativityScore | ai-service/services/quality_scorer.py:224-274 | the clamped creativity sum, always in [0, 1] |
| Quality.CreativityDefaultDuration | ai-service/services/quality_scorer.py:224-274 | with no video duration, the scene-variety bonus depends on the scene count alone |
| Quality.SafetyScore | ai-service/services/quality_scorer.py:276-314 | the clamped safety sum, always in [0, 1] |
| Quality.SafetyToxicityMonotone | ai-service/services/quality_scorer.py:276-314 | each unit of toxicity costs half a unit of raw safety, and more toxicity never raises the score |
| Quality.ProductionScore | ai-service/services/quality_scorer.py:316-368 | the clamped production sum, always in [0, 1] |
| Quality.ProductionResolutionOrder | ai-service/services/quality_scorer.py:316-368 | 4K scores 0.05 above 1080p, which scores 0.1 above any other resolution |
| Quality.QualityScorer.CalculateScores | ai-service/services/quality_scorer.py:44-106 | the five clamped scores, their weighted sum in [0, 1], its rating, the recommendations; history is stored exactly when a non-empty content id is given |
| Quality.OverallConvex | ai-service/services/quality_scorer.py:66-72 | with non-negative weights summing to 1, the overall score of unit scores is in [0, 1] |
| Quality.Overall | ai-service/services/quality_scorer.py:66-72 | the weighted sum of the five dimension scores |
| Quality.OverallOfEqual | ai-service/services/quality_scorer.py:66-72 | with weights summing to 1, five equal scores give that score overall |
| Quality.UnitProduct | ai-service/services/quality_scorer.py:67 | a unit score times a weight lies between 0 and the weight |
| Quality.ScorerWeightsSumToOne | ai-service/services/quality_scorer.py:22-28 | the scorer's own weights sum to 1 yet differ from the configured ones |
| Quality.RatingBands | ai-service/services/quality_scorer.py:370-379 | excellent from 0.8, good from 0.6, fair from 0.4, poor below |
| Quality.Rating | ai-service/services/quality_scorer.py:370-379 | excellent from 0.8, good from 0.6, fair from 0.4, otherwise poor |
| Quality.RatingMonotone | ai-service/services/quality_scorer.py:370-379 | a higher score never gets a lower rating |
| Quality.Recommendations | ai-service/services/quality_scorer.py:381-430 | the rule tips in section order, or the single "great work" tip when none applies |
| Quality.EngagementTipsMembers | ai-service/services/quality_scorer.py:386-393 | an engagement tip is listed exactly when its rule applies |
| Quality.EducationalTipsMembers | ai-service/services/quality_scorer.py:396-399 | an educational tip is listed exactly when its rule applies |
| Quality.CreativityTipsMembers | ai-service/services/quality_scorer.py:402-405 | a creativity tip is listed exactly when its rule applies |
| Quality.ProductionTipsMembers | ai-service/services/quality_scorer.py:408-415 | a production tip is listed exactly when its rule applies |
| Quality.SafetyTipsMembers | ai-service/services/quality_scorer.py:418-421 | a safety tip is listed exactly when its rule applies |
| Quality.RuleTipsMembers | ai-service/services/quality_scorer.py:384-421 | a tip is among the rule tips exactly when its rule applies |
| Quality.RecommendationsShape | ai-service/services/quality_scorer.py:422-424 | never empty; "great work" appears exactly when no rule fires and is then alone; every other tip appears exactly when its rule applies |
| Quality.GreatWorkIff | ai-service/services/quality_scorer.py:386-424 | no rule fires exactly when the unconditional tips are off (educational ≥ 0.5, creativity ≥ 0.5, safety ≥ 0.7) and the engagement and production sub-rules are silent |
| Quality.AlwaysAddedTips | ai-service/services/quality_scorer.py:396-421 | a low educational score always brings the educational-elements tip, and a low safety score the guidelines tip |
| Quality.Messages | ai-service/services/quality_scorer.py:386-424 | each tip becomes its message, position by position |
| Quality.QualityScorer.StoreQualityHistory | ai-service/services/quality_scorer.py:432-451 | appends the entry to the creator's history, keeps the last 100, and records a new creator in insertion order |
| Quality.StoreKeepsNewest | ai-service/services/quality_scorer.py:444-448 | the new entry is last, at most 100 are kept, older entries drop off from the front only when full, and other creators are untouched |
| Quality.Stored | ai-service/services/quality_scorer.py:432-448 | the history after storing: the entry appended to the creator's list (empty when new), cut to the newest 100 |
| Quality.KeepLast | ai-service/services/quality_scorer.py:447-448 | keeps the last n entries, or all of them when there are fewer |
| Quality.SumLengthsIsConcatLength | ai-service/services/quality_scorer.py:521 | `history_size` (the summed history lengths) equals the length of the concatenated history |
| Quality.QualityScorer.Status | ai-service/services/quality_scorer.py:514-523 | the history size is the number of stored entries across all creators; the creator count is the number of creators with a history |
| Quality.QualityScorer.QualityTrends | ai-service/services/quality_scorer.py:453-512 | an error exactly when `int()` rejects the time range or the cutoff date overflows; no data exactly when nothing is after the cutoff; otherwise the report counts the recent entries |
| Quality.Cutoff | ai-service/services/quality_scorer.py:458 | `utcnow() - timedelta(days=d)`: defined exactly when \|d\| ≤ 999999999 and the result lies between `datetime.min` and `datetime.max`, and then it is `now - d` days |
| Quality.TrendDaysOfNumeral | ai-service/services/quality_scorer.py:457 | `int("<n>d".rstrip('d'))` is n for every natural n |
| Quality.TrendCutoffOverflows | ai-service/services/quality_scorer.py:457-458 | with `now` no later than year 9999, a window of 3652059 days or more always overflows |
| Quality.QualityScorer.TrendsOverflowIsError | ai-service/services/quality_scorer.py:453-512 | `time_range = "<n>d"` is an error when n exceeds 999999999 or the cutoff falls before year 1, e.g. 1000000 days before November 2738 |
| Quality.Recent | ai-service/services/quality_scorer.py:469-472 | the recent entries are exactly those after the cutoff |
| Quality.ScoresOf | ai-service/services/quality_scorer.py:483 | the scores of the entries, position by position |
| Quality.MaxOf | ai-service/services/quality_scorer.py:487 | the highest score is one of the scores and bounds them all |
| Quality.MinOf | ai-service/services/quality_scorer.py:488 | the lowest score is one of the scores and is bounded by them all |
| Quality.TrendsConsistent | ai-service/services/quality_scorer.py:485-497 | the four buckets add up to the total; lowest ≤ average ≤ highest; improving exactly when the last score beats the first |
| Quality.TrendsOf | ai-service/services/quality_scorer.py:483-497 | mean, highest and lowest score, improving when the last of several scores beats the first, the count and the four score buckets |
| Quality.AverageBetween | ai-service/services/quality_scorer.py:486-488 | the mean lies between the minimum and the maximum |
| Quality.MeanBounds | ai-service/services/quality_scorer.py:486 | a sum between n·lo and n·hi gives a mean between lo and hi |
| Quality.SumAtLeast | ai-service/services/quality_scorer.py:486 | a sequence bounded below by lo sums to at least n·lo |
| Quality.SumAtMost | ai-service/services/quality_scorer.py:486 | a sequence bounded above by hi sums to at most n·hi |
| Quality.BucketsPartition | ai-service/services/quality_scorer.py:492-495 | every score falls in exactly one of the four buckets |
| Enhanced.PresentCount | ai-service/services/enhanced_content_analyzer.py:299-302 | at most as many hits as keywords |
| Enhanced.PresentCountExtremes | ai-service/services/enhanced_content_analyzer.py:299-302 | no hits exactly when no keyword occurs; all keywords hit exactly when each occurs |
| Enhanced.PresentCountByPresence | ai-service/services/enhanced_content_analyzer.py:299-302 | two texts containing the same keywords get the same count |
| Enhanced.MemberCount | ai-service/services/enhanced_content_analyzer.py:331 | at most as many listed tags as tags |
| Enhanced.MemberCountAppend | ai-service/services/enhanced_content_analyzer.py:331 | the count of listed items adds over concatenation |
| Enhanced.RepeatedTagsCountTwice | ai-service/services/enhanced_content_analyzer.py:331 | repeating the tag list doubles the listed-tag count, since repetitions are not deduplicated |
| Enhanced.MemberCountZeroIff | ai-service/services/enhanced_content_analyzer.py:331 | the count is zero exactly when no item is listed |
| Enhanced.QualityScore | ai-service/services/enhanced_content_analyzer.py:288-318 | the clamped quality sum, in 0..100 |
| Enhanced.QualityStructureBonus | ai-service/services/enhanced_content_analyzer.py:314-316 | `split('.')` yields more than two pieces exactly when the text has at least two full stops |
| Enhanced.QualityDurationWindow | ai-service/services/enhanced_content_analyzer.py:308-311 | a 15-60 s duration earns 10 points more than a positive duration outside the window (15 against 5), and 15 more than a non-positive one (15 against 0) |
| Enhanced.EngagementScore | ai-service/services/enhanced_content_analyzer.py:320-346 | the clamped engagement sum, between the base 40 and 100 |
| Enhanced.PunctuationBonuses | ai-service/services/enhanced_content_analyzer.py:341-344 | question marks are worth 3 each up to 15, exclamation marks 2 each up to 10 |
| Enhanced.EngagementDurationOrder | ai-service/services/enhanced_content_analyzer.py:335-338 | 15-30 s beats 30-60 s by 10 points, which beats no bonus by 10 |
| Enhanced.SafetyScore | ai-service/services/enhanced_content_analyzer.py:348-362 | the clamped safety sum, in 0..100 |
| Enhanced.SafetyUnsafePenalty | ai-service/services/enhanced_content_analyzer.py:353-360 | with no unsafe keyword the rating is 100; each unsafe keyword costs 20 against at most 15 safe points |
| Enhanced.EducationalScore | ai-service/services/enhanced_content_analyzer.py:364-386 | the clamped educational sum, between the base 20 and 100 |
| Enhanced.StepBonusIsStep | ai-service/services/enhanced_content_analyzer.py:378-379 | the `'steps'` alternative adds nothing: the bonus is 15 exactly when `step` occurs |
| Enhanced.DistinctCount | ai-service/services/enhanced_content_analyzer.py:408 | the number of distinct words is at most the word count and positive on a non-empty list |
| Enhanced.DistinctCountIsSetSize | ai-service/services/enhanced_content_analyzer.py:408 | it is the size of the word set |
| Enhanced.DistinctCountFullIff | ai-service/services/enhanced_content_analyzer.py:408-411 | all words are distinct exactly when no word repeats |
| Enhanced.RichnessBounds | ai-service/services/enhanced_content_analyzer.py:408-412 | no words give no richness points; otherwise 0 < points ≤ 30, with 30 exactly when no word repeats |
| Enhanced.CreativityScore | ai-service/services/enhanced_content_analyzer.py:388-414 | the clamped creativity sum, between the base 30 and 100 |
| Enhanced.Monetization | ai-service/services/enhanced_content_analyzer.py:416-431 | always in 0..100 |
| Enhanced.DurationFactorMonotone | ai-service/services/enhanced_content_analyzer.py:422-426 | the ad-placement factor never falls as the duration grows |
| Enhanced.MonetizationByDuration | ai-service/services/enhanced_content_analyzer.py:416-431 | for non-negative inputs, a longer video never earns less; under 15 s the score is the plain 0.4/0.6 blend |
| Enhanced.Confidence | ai-service/services/enhanced_content_analyzer.py:433-447 | the confidence of the supplied fields, in [0.5, 1] |
| Enhanced.ConfidenceExtremes | ai-service/services/enhanced_content_analyzer.py:433-447 | all four fields give 1, none gives 0.5, and supplying more fields never lowers it |
| Enhanced.Recommendations | ai-service/services/enhanced_content_analyzer.py:449-470 | the first five of the four conditional items followed by the two generic ones |
| Enhanced.RecommendationsShape | ai-service/services/enhanced_content_analyzer.py:449-470 | between 2 and 5 items, k + 2 capped at 5 for k weak scores; the two generic items end the list unless all four scores are weak, when the hashtag advice is cut |
| Enhanced.RecommendationsMembers | ai-service/services/enhanced_content_analyzer.py:454-467 | each conditional item appears exactly when its score is under its threshold, and duration advice always appears |
| Enhanced.KeywordRelevance | ai-service/services/enhanced_content_analyzer.py:472-483 | the keyword share of the words as a percentage, in 0..100, and 0 for blank text |
| Enhanced.CountCategoryMatches | ai-service/services/enhanced_content_analyzer.py:479-481 | the loop over categories counts the same matches as the category-sum specification |
| Enhanced.WordIsNotPhrase | ai-service/services/enhanced_content_analyzer.py:72 | a whitespace-free word is never the phrase `how to` |
| Enhanced.PhraseKeywordNeverMatches | ai-service/services/enhanced_content_analyzer.py:479-481 | the phrase `how to` never matches a split word, so it never adds to keyword relevance |
| Enhanced.TitleQuality | ai-service/services/enhanced_content_analyzer.py:485-508 | 0 for an empty title, otherwise 50..100 |
| Enhanced.TitleQualityFull | ai-service/services/enhanced_content_analyzer.py:485-508 | 100 exactly when the title has 5-10 words, an upper-case first letter, a digit, and a `?` or `!` |
| Enhanced.LoweredTitleNoCapitalBonus | ai-service/services/enhanced_content_analyzer.py:497-498 | a lower-cased title never starts with a capital letter, so it never earns the capital bonus |
| Enhanced.DescriptionQuality | ai-service/services/enhanced_content_analyzer.py:510-533 | 0 for an empty description, otherwise 40..100 |
| Enhanced.DescriptionLengthSweetSpot | ai-service/services/enhanced_content_analyzer.py:518-522 | 20-100 words score 10 more than over 100 words, all else equal |
| Enhanced.DurationSteps | ai-service/services/enhanced_content_analyzer.py:535-550 | the step function of durations (0, 50, 100, 85, 70, 30), with 100 exactly on 15-30 s |
| Enhanced.AssessDuration | ai-service/services/enhanced_content_analyzer.py:535-550 | 0 for a non-positive duration, 100 on 15-30 s, 85 to 60 s, 70 to 120 s, 50 under 15 s, otherwise 30 |
| Enhanced.LocalAnalysis | ai-service/services/enhanced_content_analyzer.py:234-286 | every result field is its scorer applied to the lower-cased, joined text and tags; the method is "Advanced Local Algorithms"; the recommendations follow from the scores; content length is the text length / 10 capped at 100 |
| Enhanced.LocalTitleQualityAtMost90 | ai-service/services/enhanced_content_analyzer.py:239-271 | since the title is lower-cased before assessment, the local path's title quality never exceeds 90 |
| Content.ExtractMetadataFeatures | ai-service/services/content_analyzer.py:388-421 | the lengths and duration (default 0); each feature group present exactly when its field is non-empty; caps, digits, word and character counts, links, average tag length and trending tags as defined |
| Content.ExtractTitleFeatures | ai-service/services/content_analyzer.py:399-405 | title features present exactly for a non-empty title: upper-case and digit flags, word count, `!` and `?` counts |
| Content.ExtractDescriptionFeatures | ai-service/services/content_analyzer.py:408-413 | description features present exactly for a non-empty description: word count, a case-insensitive `http` link flag, `#` and `@` counts |
| Content.ExtractTagFeatures | ai-service/services/content_analyzer.py:416-419 | tag features present exactly for a non-empty tag list: the mean tag length and whether some tag is trending, whatever its case |
| Content.AnyTrending | ai-service/services/content_analyzer.py:419 | true exactly when some tag, lower-cased, is a trending word |
| Content.TotalLengthUniform | ai-service/services/content_analyzer.py:418 | tags of equal length n total n per tag |
| Content.AverageOfUniformTags | ai-service/services/content_analyzer.py:418 | tags of equal length n average exactly n |
| Content.TrendingIgnoresCase | ai-service/services/content_analyzer.py:419 | lower-casing the tags first does not change the trending flag |
| Content.LowerIdempotent | ai-service/services/content_analyzer.py:419 | lower-casing twice is lower-casing once |
| Content.SceneChanges | ai-service/services/content_analyzer.py:444 | at least one scene |
| Content.SceneChangesSteps | ai-service/services/content_analyzer.py:444 | under 10 s is one scene; from 5 s, one scene per full 5 s; never fewer for a longer video |
| Content.DurationCategoryBands | ai-service/services/content_analyzer.py:451-458 | very short below 5 s, short below 15, medium below 60, long from 60; monotone in the duration |
| Content.DurationCategoryOf | ai-service/services/content_analyzer.py:451-458 | very short under 5 s, short under 15 s, medium under 60 s, otherwise long |
| Content.DefaultVideoDuration | ai-service/services/content_analyzer.py:431 | without a duration the video counts as 30 s: 6 scenes, medium |
| Content.CategoryPrecedence | ai-service/services/content_analyzer.py:219-226 | educational markers win over entertainment, which win over review; otherwise general |
| Content.DetectCategory | ai-service/services/content_analyzer.py:219-226 | educational, entertainment or review by the first marker list with a substring in the title, otherwise general |
| Content.GenerateContentInsights | ai-service/services/content_analyzer.py:191-226 | strengths above 0.8 and improvements and recommendations below 0.4 for each score (default 0.5), and the category of the lower-cased title |
| Content.InsightCounts | ai-service/services/content_analyzer.py:206-216 | one entry in each list per score past its threshold; mid-range scores add nothing |
| Content.PunctuationCount | ai-service/services/content_analyzer.py:120 | never more punctuation marks than characters |
| Content.TextQualityScore | ai-service/services/content_analyzer.py:107-128 | 0 for empty text, otherwise in [0.4, 1] |
| Content.BlankTextScore | ai-service/services/content_analyzer.py:114-128 | non-empty whitespace scores exactly the base 0.4 |
| Content.NoPunctuationInSpaces | ai-service/services/content_analyzer.py:120 | whitespace contains no punctuation |
| Text.SplitWords | ai-service/services/content_analyzer.py:114 | every piece of `split()` is a non-empty word without whitespace |
| Text.SplitEmptyIff | ai-service/services/enhanced_content_analyzer.py:474-476 | `split()` is empty exactly when the text is all whitespace |
| Text.CountIsMultiplicity | ai-service/services/content_analyzer.py:404-405 | `count` of a character is its multiplicity in the string |
| Text.ContainsIff | ai-service/services/enhanced_content_analyzer.py:298-301 | substring `in` holds exactly when the word occurs at some position |
| Text.SplitOnLength | ai-service/services/enhanced_content_analyzer.py:314 | `split('.')` yields one more piece than there are full stops |
| Text.ParseIntOfNatToString | ai-service/config.py:23 | `int()` reads back a decimal numeral |
| Text.ParseIntUnderscores | ai-service/config.py:23 | `int()` accepts single underscores between digits and ignores them: "1_024" is 1024 |
| Text.ParseIntRejectsBadUnderscores | ai-service/config.py:23 | a doubled, trailing or leading underscore makes `int()` fail |

## Left out

- The OpenAI paths are not modelled. This covers `_analyze_with_openai`, `_parse_openai_response`, `_extract_semantic_features` and `_create_analysis_prompt`. They call a remote language model.
- The Flask routes in `app.py` and the logging set-up are not part of this model.
- `asyncio` and the processing-time measurement are left out, for the same reason as the wall clock: time is the parameter `now`. So are the ISO time stamps the reports carry: `analysis_timestamp` in the fraud and trends reports and `last_updated` in the cache's `get_status`.
- Quality.QualityScorer.QualityTrends: `now` is integer seconds from the Unix epoch, where `utcnow()` has microseconds. So a cutoff within a second of `datetime.max` is treated as in range.
- Floats are modelled as exact reals, and `round()` on reported scores is omitted. The quality history, the ratings, the recommendations and the trend decisions all read the unrounded values, as the source does.
- Content.GenerateContentInsights: its two score parameters stand for `text_quality_score` and `video_quality_score` as the analyzer stores them, already rounded to 3 decimals (`services/content_analyzer.py:131`, `:153`). The model does not perform that rounding. An unrounded text score of 0.8004 is stored as 0.8 and earns no strength, so `Content.TextQualityScore`'s exact result is not a valid input near the 0.8 and 0.4 thresholds.
- Every `np.random` draw is a parameter. This covers, in the fraud detector, the similarity, AI probability and copyright scores, and in the analyzers, the video and image metrics.
- Fraud.FraudDetector.DetectUserFraud: the bot-behaviour score (`np.var`/`np.mean` over upload intervals) is a parameter. Its only observable effect is that it never passes its threshold (`Fraud.BotIndicatorNeverFires`).
- The content hash is not modelled: the MD5 of `title + description` is kept as the raw concatenation. Both keep the collision of, for example, "ab"+"c" with "a"+"bc".
- `generate_key` (a SHA-256 of JSON) is not modelled.
- `cache.py`'s `estimated_size_bytes` is left out. It is `len(str(value))` of an arbitrary object.
- The hit rate is modelled only as the constant 0 that the placeholder returns.
- The exception fallbacks of every method are left out, including `_get_fallback_analysis`. The modelled code raises nothing on the inputs the model admits, except `int()` in `MAX_FILE_SIZE` and `get_quality_trends`, and the `OverflowError` of the trends cutoff date. Those failures are modelled as the `None`/error result.
- `Config.get_config` and the environment reading are left out; the variables are parameters.
- Config.ValidateConfig: the printing of the collected errors is left out. The function returns the verdict, and `Config.ConfigErrors` returns the error list that would be printed.
- Durations are integers in `Enhanced.ContentData` and `Content.Metadata`, as the enhanced analyzer's type hints say (`duration: int`). Python would also take a float duration. Quality's `videoDuration` is a real.
- Case mapping is ASCII only: `lower()`, `upper()`, `isupper()` and `isdigit()` ignore non-ASCII letters and digits.
- Text.ParseInt: reads ASCII decimal digits only. Python's `int()` also accepts other Unicode decimal digits (for example Arabic-Indic digits); such a `MAX_FILE_SIZE` or `time_range` is `None`/an error in the model. Single `_` separators between digits (PEP 515) are modelled. The model also accepts numerals of any length, where CPython 3.11 and later refuse more than 4300 digits (`sys.set_int_max_str_digits`).
- ContentAnalyzer's `analyze_content_comprehensive`, `extract_features`, the results cache, `_predict_engagement`, `_analyze_content_safety`, `_assess_monetization_potential`, and the video/image/text feature extractors beyond the fields above are left out. They assemble random draws and API calls.
- Content.TextQualityScore: omits the `word_count`, `readability_score`, `sentiment_score` and `coherence_score` fields returned beside the score. The first is `len(split())`, the rest are random.
- Enhanced.LocalAnalysis: `retention_signals` is defined in the keyword tables but never read, so it is not modelled.
- Content.ExtractMetadataFeatures: the source's dictionary of features is modelled as a record with one optional group per field, where the dictionary simply lacks the keys.
- Quality.QualityScorer.CalculateScores: the source's `timestamp` strings are modelled as integer seconds compared with the cutoff.

## Notes on the source

- The quality scorer's own weights give safety 0.15 and production 0.20. The configuration's `QUALITY_WEIGHTS` gives safety 0.20 and production 0.15. Both sum to 1, and the scorer uses its own (`Quality.ScorerWeightsSumToOne`).
- `_analyze_with_local_algorithms` lower-cases the title before `_assess_title_quality`, so the capital-letter bonus can never apply there (`Enhanced.LocalTitleQualityAtMost90`).
- `'how to'` is an educational keyword. Keyword relevance compares it with single words, so it never counts there (`Enhanced.PhraseKeywordNeverMatches`).
- In the metadata check, an edit count over 50 scores 0.4. The indicator threshold is 0.5, so only the 30-day time gap can raise the indicator (`Fraud.MetadataIndicatorIff`).
- A returning user who exceeds the upload limit still has their filtered and extended upload list stored, because the pattern object is updated in place before the early return. A new user over the limit is not stored, but a new user has only one upload.
