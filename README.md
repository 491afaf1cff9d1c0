# News-briefing pipeline: a verified model of its decision rules

This project models the deterministic core of a news-briefing pipeline, written in Python, that
crawls Chinese and foreign news, screens and rewrites it, scores it against a user profile, and
adapts that profile from the user's reactions. Each source file of the core has its own Dafny module:

- `Feedback` (`src/feedback_system.py`): the per-user feedback log, its counters and the user
  model. The model holds topic, style and source weights, time and reaction patterns, and comfort levels.
  A `FeedbackSystem` class changes all of these in place, and the read-only insight views are
  functions of its state.
- `Recommendation` (`src/recommendation_engine.py`): the seven-factor score, source
  classification, freshness, the blacklist penalty and the combine step of the external
  judgement. It also covers the topic-diverse top-k selection with backfill and the bounded
  recommendation history.
- `Processor` (`src/content_processor.py`): the admission gate, the local analysis decision,
  the 24-hour rewrite cache, enhancement, the quality score, and the statistics counters with
  their conservation invariant.
- `NewsCrawler`, `OptimizedCrawler`, `GNews` (`src/news_crawler_system.py`,
  `src/optimized_news_crawler.py`, `src/gnews_integrated_crawler.py`): three deduplication
  schemes, mock translations, summaries and the daily request budget.
- `Workflow` (`src/main_workflow.py`): content-type inference, the mapping of crawled items to
  standard records, and the fallback briefing text.
- `SimpleCrawler`, `WebCrawler`, `FullContentCrawler`, `HybridCrawler` (the crawlers of the
  same names): the 70/30 foreign/Chinese quota mixes, per-source truncation, the choice of cache
  file, the title cleanup, and the cache, then real crawl, then mock fallback chain.
- `ShortUrl` (`src/short_url_generator.py`): the memo cache around URL shortening.
- Shared modules: `Mixing` holds the crawlers' article record, the quota mix, language marking
  and the newest-cache-file rule. `Sorting` is Python's stable `sort(reverse=True)`. `Text`,
  `Lists`, `Numbers` and `Wrappers` hold string, sequence and number helpers and `Option`.

Python floats are modelled as `real`, and `int(total * 0.7)` as `(total * 7) / 10`.
MD5 is an uninterpreted function, and no deduplication property assumes it is injective.
The clock is passed in as a parameter, as hours or as the formatted text. So is the outcome of every
network call, file read and model call; `None` means that the call raised or gave no usable answer.

## Model

| member | source | states |
|---|---|---|
| Feedback.TopicWeightAfter | src/feedback_system.py:161-176 | A like gives min(1, w + 0.1), a dislike max(0, w - 0.15) and a refresh max(0, w - 0.05). A weight in [0, 1] stays there, and a dislike at w <= 0.15 gives exactly 0. |
| Feedback.OtherReactionKeeps | src/feedback_system.py:167-172 | A reaction other than like, dislike and refresh changes neither a topic weight nor the overall comfort. |
| Feedback.StylePrefAfter | src/feedback_system.py:178-198 | A like moves the preference 10% of the way towards the observed value. A dislike moves it 15% away, and any other reaction only clamps it. The result is always clamped to [0, 1], and a like lands between the old preference and the value. |
| Feedback.SourceWeightAfter | src/feedback_system.py:200-213 | A like gives min(1, w + 0.08) and a dislike max(0.1, w - 0.12); other reactions leave the weight alone. After a dislike the weight is at least 0.1, and [0.1, 1] is preserved. |
| Feedback.ComfortAfter | src/feedback_system.py:280-288 | A like adds 0.02 capped at 1, a dislike subtracts 0.05 and a refresh 0.01, both floored at 0. A comfort in [0, 1] stays there. |
| Feedback.TimeOfDay | src/feedback_system.py:121-132 | The four slot names partition the hours: morning is exactly 5-11, afternoon 12-16, evening 17-21, and night the rest. |
| Feedback.Bump | src/feedback_system.py:231-232 | `setdefault(k, 0)` and an increment: `k` becomes a key with one more than before, and every other key keeps its count. |
| Feedback.BumpOrderedSpec | src/feedback_system.py:226-228 | On an insertion-ordered counter, a new slot is appended with count 1. A known slot gains one in place, and keys keep their order. |
| Feedback.ApplyTopicsShape | src/feedback_system.py:141-143 | The topic loop adds exactly the listed topics as keys, keeps every weight in [0, 1], and leaves unlisted topics untouched. |
| Feedback.ApplyStylesInUnit | src/feedback_system.py:146-147 | The style loop keeps every style preference in [0, 1]. |
| Feedback.ApplyStylesKeepsOthers | src/feedback_system.py:178-199 | The style loop adds only listed features and leaves every unlisted preference as it was. |
| Feedback.RepeatedReactionsMonotone | src/feedback_system.py:167-172 | Any number of repeated likes never lowers a topic weight in [0, 1], and repeated dislikes never raise it. |
| Feedback.DislikesReachZero | src/feedback_system.py:169-170 | Seven or more dislikes drive any weight in [0, 1] to exactly 0. |
| Feedback.Satisfaction | src/feedback_system.py:268-277 | A window gives a satisfaction exactly when it holds a like, dislike or refresh, and that value lies in [0, 1]. |
| Feedback.SatisfactionScore | src/feedback_system.py:274-277 | ((likes + 0.3 refreshes - 1.5 dislikes) / n + 1) / 2, clamped, is in [0, 1] for any counts with n > 0. |
| Feedback.UniformScores | src/feedback_system.py:276-277 | Only likes score exactly 1; only dislikes score exactly 0. |
| Feedback.SatisfactionOr | src/feedback_system.py:268-277 | A window without counted reactions keeps the previous value. Otherwise the window's satisfaction replaces it, and a value once set is never cleared. |
| Feedback.SatisfactionOfNothing | src/feedback_system.py:269 | An empty window leaves `recent_satisfaction` as it was. |
| Feedback.AllLikesSatisfy | src/feedback_system.py:270-277 | A non-empty window of likes only has satisfaction 1. |
| Feedback.AllDislikesDissatisfy | src/feedback_system.py:270-277 | A non-empty window of dislikes only has satisfaction 0. |
| Feedback.MostCommonCount | src/feedback_system.py:368-371 | `Counter(s).most_common(1)[0][1]` is between 1 and len(s); it bounds every element's count and is attained by some element. |
| Feedback.ShareOfMostCommon | src/feedback_system.py:366-373 | The share of the most frequent element is in (0, 1], no element's share exceeds it, and some element attains it. |
| Feedback.TopSlots | src/feedback_system.py:382-386 | Returns min(3, n) keys, each one a key of the slot list. |
| Feedback.TopSlotsAreBusiest | src/feedback_system.py:382-386 | A slot that was not suggested was liked at most as often as every suggested slot. |
| Feedback.Reweigh | src/feedback_system.py:140-151 | Each of the topic, style and source parts moves only when `content_info` carries its key. Only the listed topics, the listed style features and the named source change. Every weight stays in its range. |
| Feedback.FeedbackSystem.constructor | src/feedback_system.py:24-54 | A user without stored files starts with an empty log, zero counters, no weights, no patterns and no comfort levels. |
| Feedback.FeedbackSystem.RecentFeedbacks | src/feedback_system.py:290-293 | For a positive count, the last min(count, len) entries of the log, in log order. |
| Feedback.FeedbackSystem.SatisfactionTrend | src/feedback_system.py:341-358 | "Insufficient data" exactly below 10 reactions; otherwise graded by like ratio > 0.7, then > 0.5, else needs adjustment. Each grade is stated as an if-and-only-if. |
| Feedback.FeedbackSystem.PreferenceStability | src/feedback_system.py:360-373 | 0.5 with fewer than 5 entries. Otherwise a value in (0, 1] that bounds the share of every reaction among the last ten and is attained by one of them. |
| Feedback.FeedbackSystem.FindOptimalTimes | src/feedback_system.py:375-388 | The three fixed defaults when no liked slot is known, otherwise the busiest slots; never more than 3. |
| Feedback.FeedbackSystem.GenerateSuggestions | src/feedback_system.py:390-408 | Each tip is present exactly when its condition holds: comfort < 0.6, comfort > 0.9, frequent refreshes. Nothing else appears and no tip appears twice, so at most two tips appear. The refresh tip comes last. The two comfort tips exclude each other, so the list is determined. |
| Feedback.FeedbackSystem.UserModelSummary | src/feedback_system.py:299-327 | Favourite topics are exactly the weights > 0.7 and disliked topics exactly those < 0.3, each absent when empty. The reaction distribution is present exactly when counted, and comfort is copied. |
| Feedback.FeedbackSystem.UpdateTopicWeight | src/feedback_system.py:161-176 | Only the topic's entry changes, to the one-step update of its weight (0.5 when unseen). |
| Feedback.FeedbackSystem.UpdateTopics | src/feedback_system.py:141-143 | The topic weights become the loop of single-topic updates over the listed topics. |
| Feedback.FeedbackSystem.UpdateStylePreferences | src/feedback_system.py:178-198 | The style preferences become the loop of single-feature updates; non-numeric features are skipped. |
| Feedback.FeedbackSystem.UpdateSourceWeight | src/feedback_system.py:200-213 | Only the source's entry changes, to the one-step update of its weight (0.5 when unseen). |
| Feedback.FeedbackSystem.UpdatePreferenceWeights | src/feedback_system.py:140-151 | The weights become `Reweigh` of the old weights, and the state invariant is kept. |
| Feedback.FeedbackSystem.UpdateConsecutivePatterns | src/feedback_system.py:237-259 | Counts the transition from the last logged reaction and extends or restarts the streak. It reports the KeyError the source raises when a streak restarts before any streak exists. |
| Feedback.FeedbackSystem.UpdateBehaviorPatterns | src/feedback_system.py:215-235 | A like bumps its day-and-time slot, inserting a new slot last, and every reaction bumps its own count. When the reaction repeats the last logged one, the transition "r_to_r" and the streak of r each grow by one. |
| Feedback.FeedbackSystem.UpdateComfortLevels | src/feedback_system.py:261-288 | Recent satisfaction is recomputed over the last 20 entries. Overall comfort starts at 0.7 and takes one step. |
| Feedback.FeedbackSystem.AppendEntry | src/feedback_system.py:91-104 | Appends exactly one entry, adds one to the total and to at most the matching counter, and keeps counters equal to counts in the log. |
| Feedback.FeedbackSystem.RecordFeedback | src/feedback_system.py:68-113 | The corrected `record_feedback` (see Findings). It logs one entry, updates counters and weights, counts the transition reaction_to_reaction, grows the streak, takes one comfort step and recomputes satisfaction. The invariant is kept. |
| Feedback.FeedbackSystem.UpdateAfterAppend | src/feedback_system.py:154-157 | The pattern and comfort updates, once the new entry is the newest in the log. |
| Feedback.FeedbackSystem.RecordFeedbackAsWritten | src/feedback_system.py:225 | As written, the call always raises. The entry is logged and counted and the weights are updated, but patterns and comfort stay unchanged. |
| Feedback.CountersWithinTotal | src/feedback_system.py:94-104 | likes + dislikes + refreshes <= total_feedbacks, because other reactions count only in the total. |
| Feedback.LastReactionCounted | src/feedback_system.py:268-272 | The newest entry's reaction is counted in the window that ends with it. |
| Feedback.NewestReactionSets | src/feedback_system.py:268-277 | After a like, dislike or refresh is logged, `recent_satisfaction` always has a value. |
| Feedback.DayOfDayCounterexample | src/feedback_system.py:225 | For a first like, the as-written call leaves `overall_comfort` unset, while the corrected call sets it to 0.72. |
| Recommendation.MaxWeight | src/recommendation_engine.py:93-98 | The running maximum over the tags, starting from 0: no tag's weight (0.5 when unknown) exceeds it, and it is 0 or one of those weights. |
| Recommendation.TopicScore | src/recommendation_engine.py:85-100 | 0.5 without tags. Otherwise every tag's weight (default 0.5) is at most the score, and the score is one of them or 0. It is in [0, 1] when the weights are. |
| Recommendation.Closeness | src/recommendation_engine.py:121-133 | 1 - abs(v - p) is in [0, 1] for inputs there, and is 1 exactly on a perfect match. |
| Recommendation.StyleScore | src/recommendation_engine.py:102-137 | 0.5 without style features; for features and preferences in range, the score is in [0, 1]. |
| Recommendation.PerfectStyleMatch | src/recommendation_engine.py:121-137 | Features equal to the preferences, with a non-negative sentiment, score exactly 1. |
| Recommendation.NegativeSentimentCaps | src/recommendation_engine.py:128-135 | A negative sentiment caps the style score at 0.76. |
| Recommendation.ClassifySource | src/recommendation_engine.py:152-176 | The first matching keyword group in the order official, tech, academic, else mainstream. Each class is stated as an if-and-only-if over the lower-cased source. |
| Recommendation.SourceScore | src/recommendation_engine.py:139-150 | 0.5 for an empty source, else the weight of its class (default 0.5). |
| Recommendation.TimeScore | src/recommendation_engine.py:178-189 | 0.9 exactly when the item's type (default "general") is preferred at this time of day, else 0.5. |
| Recommendation.FreshnessScore | src/recommendation_engine.py:191-221 | A naive publish time scores 1.0 up to 24 hours, 0.7 up to 168 and 0.3 beyond. A missing, unparsable or offset-carrying publish time scores 0.5. |
| Recommendation.AwareTimestampIsNeutral | src/recommendation_engine.py:203-221 | A fresh timestamp with an offset (or a trailing 'Z') scores 0.5, while the same age without one scores 1.0: the aware minus naive subtraction raises and falls back. |
| Recommendation.FreshnessMonotone | src/recommendation_engine.py:205-216 | Among naive publish times, an older item is never fresher. |
| Recommendation.BlacklistPenalty | src/recommendation_engine.py:223-247 | The author share (0.5), the medium share (0.3) and one keyword share (0.2) add up, always within [0, 1]. |
| Recommendation.WeightedSumBounds | src/recommendation_engine.py:64-78 | With every factor in [0, 1], the weighted sum lies in [-0.1, 1]. |
| Recommendation.PenaltyLowersScore | src/recommendation_engine.py:72 | A larger penalty never raises the weighted sum. |
| Recommendation.RescaleJudgement | src/recommendation_engine.py:287-289 | A number up to 1 is kept, up to 10 is read as out of ten, beyond that as out of a hundred. Anything in [0, 100] lands in [0, 1]. |
| Recommendation.CombineJudgement | src/recommendation_engine.py:275-297 | Without a parsed number the base stands; with one the result is 0.7 base + 0.3 rescaled. It is in [0, 1] for inputs in range. |
| Recommendation.ScoreContent | src/recommendation_engine.py:51-83 | The final score is always in [0, 1]: the clamped base without a judgement, the clamped combination with one. |
| Recommendation.ScoreWithoutJudgement | src/recommendation_engine.py:76-83 | Without a judgement, factors in [0, 1] and a non-negative base, the score is exactly the base. |
| Recommendation.FirstPass | src/recommendation_engine.py:322-336 | Takes at most `count` items, each at its input position, in strictly increasing positions. |
| Recommendation.PassStepTopics | src/recommendation_engine.py:329-335 | A step gathers only tags of items it takes. |
| Recommendation.FirstPassTopics | src/recommendation_engine.py:322-336 | Every topic the first pass gathers is a tag of an item it took. |
| Recommendation.FirstPassPicksGrow | src/recommendation_engine.py:322-336 | The picks over a prefix lead the picks over the whole input, and every later pick lies beyond the prefix. |
| Recommendation.FirstPassDiversity | src/recommendation_engine.py:322-336 | The diversity rule: the item at a position is taken exactly when fewer than `count` were taken before it and it either shares no topic with the gathered topics or fewer than 70% of `count` were taken. |
| Recommendation.Backfill | src/recommendation_engine.py:339-344 | Extends the first-pass picks with input items only and never adds a repeat. It stops at `count`, and a short result means every input item is in it. |
| Recommendation.SelectionFromInput | src/recommendation_engine.py:313-346 | Everything selected comes from the input. |
| Recommendation.FirstPassDistinct | src/recommendation_engine.py:322-336 | From a duplicate-free input the first pass takes no item twice. |
| Recommendation.SelectionSize | src/recommendation_engine.py:313-346 | From a duplicate-free input longer than `count`, exactly `count` pairwise distinct items are selected. |
| Recommendation.FirstPassSaturates | src/recommendation_engine.py:323-324 | Once `count` items are taken, later items change nothing. |
| Recommendation.FirstPassGrows | src/recommendation_engine.py:322-336 | The first pass only appends: its picks on a prefix are a prefix of its picks on the whole. |
| Recommendation.SelectionStartsWithFirst | src/recommendation_engine.py:326-332 | The top-ranked item is always selected, and selected first. |
| Recommendation.FirstPassLeads | src/recommendation_engine.py:339-346 | All first-pass picks, in input order, precede every backfill pick. |
| Recommendation.BackfillSaturates | src/recommendation_engine.py:343-344 | Once `count` items are selected, the rest of the backfill adds nothing. |
| Recommendation.FirstPassLoop | src/recommendation_engine.py:322-336 | The loop with its early exit computes the first pass. |
| Recommendation.BackfillLoop | src/recommendation_engine.py:339-344 | The loop with its early exit computes the backfill. |
| Recommendation.SelectWithDiversity | src/recommendation_engine.py:313-346 | Input no longer than `count` is returned unchanged. Otherwise at most `count` input items come back, and the result is the diverse selection. |
| Recommendation.PositivelyScored | src/recommendation_engine.py:33-38 | Keeps only items scored in (0, 1], each one an input item carrying its own score. |
| Recommendation.PositivePositions | src/recommendation_engine.py:34-36 | The reference filter: increasing input positions, containing a position exactly when its item scores above 0. |
| Recommendation.PositivelyScoredIsFilter | src/recommendation_engine.py:33-38 | The scored list is exactly the positively scored input items, in input order, each carrying its score. |
| Recommendation.PositiveItemKept | src/recommendation_engine.py:35-38 | No item scoring above 0 is dropped. |
| Recommendation.RecordOf | src/recommendation_engine.py:351-363 | One history item per recommended item, with id (default "unknown"), title, score and topics. |
| Recommendation.KeepRecent | src/recommendation_engine.py:365-369 | The history holds min(100, n + 1) records, the most recent ones, ending with the new record. |
| Recommendation.RecommendationEngine.constructor | src/recommendation_engine.py:13-16 | The engine keeps the loaded profile and starts with an empty history. |
| Recommendation.RecommendationEngine.RecordRecommendation | src/recommendation_engine.py:348-369 | The history becomes the bounded history with the new record; it never exceeds 100. |
| Recommendation.RecommendationEngine.RecommendContent | src/recommendation_engine.py:23-49 | Empty input gives [] and no record. Otherwise the positively scored items are sorted stably by descending score, the diverse selection is made and recorded. |
| Recommendation.RecommendedArePositive | src/recommendation_engine.py:33-44 | Every recommended item was scored in (0, 1] and is an input item carrying its score. |
| Sorting.SortDesc | src/recommendation_engine.py:41 | The sort is a permutation of its input, in descending key order. |
| Sorting.SortStable | src/recommendation_engine.py:41 | Elements with equal keys keep their input order. |
| Sorting.TopIsMaximal | src/feedback_system.py:385 | After the descending sort, no element left out of the first n outranks one inside them. |
| Processor.BasicChecks | src/content_processor.py:73-102 | The checks reject in this order: missing or empty content, then missing or empty source, then any blacklisted keyword in "title content", then content shorter than 20. Each verdict is an if-and-only-if, and a blacklist rejection names the first keyword hit. |
| Processor.ClickbaitScore | src/content_processor.py:131-142 | 0.1 per listed pattern found in the title, in [0, 1]; 0 exactly when no pattern occurs. |
| Processor.Decide | src/content_processor.py:145-151 | Filter exactly when sentiment < -0.3. Otherwise rewrite exactly when clickbait > 0.5 or sensationalism > 0.6, and keep in every other case. |
| Processor.Analyze | src/content_processor.py:104-153 | An analysis with "error" passes through unchanged. Otherwise the local clickbait score overrides the external one, the action is decided locally, and the other features are kept. |
| Processor.ClickbaitRewriteThreshold | src/content_processor.py:137-149 | Without other grounds, the clickbait score alone asks for a rewrite exactly when six or more patterns occur in the title. |
| Processor.QualityScore | src/content_processor.py:233-250 | In [0, 1] for features in range. A rewritten item earns up to 10% more, capped at 1 and never below the base. |
| Processor.RewriteBonus | src/content_processor.py:246-248 | A rewrite never lowers the quality score. |
| Processor.CacheHit | src/content_processor.py:158-168 | A stored rewrite is returned exactly when it is younger than 24 hours. |
| Processor.RewriteStep | src/content_processor.py:155-194 | The external rewrite is called exactly on a cache miss. Only a non-empty answer is stored, with the current time; a hit changes nothing. |
| Processor.StoredRewriteReused | src/content_processor.py:158-194 | A rewrite stored now is reused, with no external call, at any time within the next 24 hours. |
| Processor.RewriteKeepsOthers | src/content_processor.py:180-194 | Cache entries for other contents are never added, removed or changed. |
| Processor.EnhanceStep | src/content_processor.py:210-216 | Content without the pattern is unchanged; otherwise only its first occurrence is replaced. |
| Processor.NoPatternNoChange | src/content_processor.py:210-216 | Content in which no pattern occurs comes out of the enhancement unchanged. |
| Processor.EarnedTags | src/content_processor.py:221-229 | Each of the three tags is earned exactly when one of its two words occurs. |
| Processor.Enhanced | src/content_processor.py:196-231 | Tags are only appended, never removed, and nothing but content and tags changes. |
| Processor.EnhanceContent | src/content_processor.py:196-231 | The loop over the patterns computes the enhancement. |
| Processor.Screen | src/content_processor.py:32-62 | A rejected item is dropped without touching the cache. A kept item has content and the local analysis, and is marked as rewritten when it was. |
| Processor.Process | src/content_processor.py:32-71 | A rejected item gives None with the cache unchanged, and a rewritten item is always returned. |
| Processor.Outcome | src/content_processor.py:64-71 | An item is returned exactly when it was kept; the cache is the one screening left. |
| Processor.Tally | src/content_processor.py:35-70 | `processed` grows by one. `filtered` grows exactly when None is returned, `passed` exactly when an item is, and processed = filtered + passed with rewritten <= passed is preserved. |
| Processor.FailedRewrite | src/content_processor.py:51-62 | After a failed rewrite the item is dropped exactly when clickbait > 0.7. Otherwise it passes with only the enhancement applied and its rewrite flag untouched. |
| Processor.FilterDrops | src/content_processor.py:46-48 | A "filter" decision drops a checked item and leaves the cache alone. |
| Processor.SucceededRewrite | src/content_processor.py:51-65 | After a successful rewrite the item passes, rewritten and marked so, with the analysis as its original style, the rewritten text enhanced and the new cache entry stored. |
| Processor.KeptItemPasses | src/content_processor.py:46-70 | A "keep" item always passes, unrewritten, with the cache unchanged. |
| Processor.PassedItemScored | src/content_processor.py:64-70 | A returned item carries a quality score, in [0, 1] when the analysis features are. |
| Processor.ContentProcessor.constructor | src/content_processor.py:15-24 | Zero counters and an empty rewrite cache. |
| Processor.ContentProcessor.RewriteContent | src/content_processor.py:155-194 | The answer and the new cache are those of the cache step for the content's hash. |
| Processor.ContentProcessor.ScreenItem | src/content_processor.py:32-62 | The screening result and the cache it leaves. |
| Processor.ContentProcessor.ProcessContentItem | src/content_processor.py:32-71 | Returns the processed item, updates the cache, and tallies the counters, keeping the conservation invariant. |
| Processor.ContentProcessor.Conclude | src/content_processor.py:64-71 | Counts the screened item and enhances and scores it when kept, keeping the invariant. |
| NewsCrawler.DropSpaces | src/news_crawler_system.py:49 | No whitespace is left, and nothing new is introduced. |
| NewsCrawler.KeepWords | src/news_crawler_system.py:50 | Only word and CJK characters are left, all from the input. |
| NewsCrawler.Normalize | src/news_crawler_system.py:46-51 | The cleaned text holds only lower-case word or CJK characters. |
| NewsCrawler.NormalizeDropsChar | src/news_crawler_system.py:49-50 | A lone whitespace or punctuation character normalises to nothing. |
| NewsCrawler.HashIgnoresPunctuation | src/news_crawler_system.py:46-51 | Inserting whitespace or punctuation anywhere leaves the content hash unchanged. |
| NewsCrawler.HashIgnoresCase | src/news_crawler_system.py:49 | Content with its upper-case letters lowered hashes as the original. |
| NewsCrawler.NormalizeIdempotent | src/news_crawler_system.py:46-51 | Normalising twice is normalising once. |
| NewsCrawler.Register | src/news_crawler_system.py:75-80 | Registering adds the URL, the content hash and the lower-cased title, and removes nothing. |
| NewsCrawler.CheckArticle | src/news_crawler_system.py:53-80 | Disabled, nothing is a duplicate and nothing is registered. Enabled, the verdict is exactly the URL, hash or title-containment check. A duplicate registers nothing, a non-duplicate registers itself. |
| NewsCrawler.SameContentIsDuplicate | src/news_crawler_system.py:62-65 | An article whose content normalises as a registered one's is a duplicate, whatever its URL. |
| NewsCrawler.SimilarTitleIsDuplicate | src/news_crawler_system.py:67-73 | Of two articles with titles over 10 characters, one containing the other, the second is a duplicate. |
| NewsCrawler.Dedup | src/news_crawler_system.py:179-186 | The kept articles are an order-preserving subsequence of the input, and the seen-sets only grow. |
| NewsCrawler.DedupDisabled | src/news_crawler_system.py:55-56 | With deduplication disabled, every article is kept and nothing is registered. |
| NewsCrawler.DedupDistinct | src/news_crawler_system.py:179-186 | Enabled, every kept article is registered, and kept articles have pairwise distinct URLs and content hashes. |
| NewsCrawler.DroppedWasDuplicate | src/news_crawler_system.py:181-183 | An article is dropped exactly when it was a duplicate of what had been seen at its turn. |
| NewsCrawler.TranslateContent | src/news_crawler_system.py:188-203 | The identity when disabled or for Chinese; otherwise a tagged excerpt of the first 100 characters. |
| NewsCrawler.GenerateSummary | src/news_crawler_system.py:205-215 | Content within the limit is unchanged; longer content becomes its first `max` characters plus "...", and the length never exceeds max + 3. |
| NewsCrawler.NewsCrawlerSystem.constructor | src/news_crawler_system.py:20-39 | The seen-sets start empty. |
| NewsCrawler.NewsCrawlerSystem.IsDuplicate | src/news_crawler_system.py:53-80 | The loop over seen titles gives the verdict and the seen-sets of the `is_duplicate` rule. |
| NewsCrawler.NewsCrawlerSystem.CrawlSource | src/news_crawler_system.py:179-186 | Returns the deduplicated articles and leaves the seen-sets the loop builds. |
| OptimizedCrawler.SharedPrefixSameKey | src/optimized_news_crawler.py:207 | Articles agreeing on the title and the first 500 content characters share a key, whatever follows. |
| OptimizedCrawler.TranslateSimple | src/optimized_news_crawler.py:216-222 | The text is tagged, and cut to 300 characters plus "..." when longer. |
| OptimizedCrawler.SplitSentences | src/optimized_news_crawler.py:231 | At least one piece, and no piece holds a terminator. |
| OptimizedCrawler.Accumulate | src/optimized_news_crawler.py:232-237 | The summary only grows. A grown summary stays within `max_length` and ends with "。". |
| OptimizedCrawler.DetailedSummaryBounds | src/optimized_news_crawler.py:224-242 | Short content is unchanged; longer content ends with "..." and has at most max_length + 3 characters. |
| OptimizedCrawler.GenerateDetailedSummary | src/optimized_news_crawler.py:224-242 | The loop with its early exit computes the detailed summary. |
| OptimizedCrawler.OptimizedNewsCrawler.constructor | src/optimized_news_crawler.py:21-37 | The seen keys start empty. |
| OptimizedCrawler.OptimizedNewsCrawler.IsDuplicate | src/optimized_news_crawler.py:204-214 | Duplicate exactly when the key's hash was seen; afterwards it is seen. |
| GNews.TranslateWithDeepSeek | src/gnews_integrated_crawler.py:100-127 | Empty text, or text stripping to under 10 characters, is unchanged. Longer text is tagged and cut at 300 characters plus "...". |
| GNews.Convert | src/gnews_integrated_crawler.py:153-175 | Needs translation exactly when the language is not "zh". Untranslated articles copy title and content; the others get the mock translation. The title defaults to "无标题" and content to the description. |
| GNews.ProcessBatch | src/gnews_integrated_crawler.py:141-179 | Emits at most one item per article. Each one converts an input article, its hash was unseen and is now seen, and the seen set only grows. |
| GNews.BatchFresh | src/gnews_integrated_crawler.py:142-151 | Emitted hashes are pairwise distinct, and the seen set grows by exactly them. |
| GNews.FreshAppendDistinct | src/gnews_integrated_crawler.py:148-151 | Appending fresh, distinct hashes to distinct seen hashes keeps them distinct and seen. |
| GNews.GNewsIntegratedCrawler.constructor | src/gnews_integrated_crawler.py:18-45 | No requests made and nothing seen. |
| GNews.GNewsIntegratedCrawler.CheckApiLimit | src/gnews_integrated_crawler.py:65-70 | True exactly while fewer than 60 requests were made. |
| GNews.GNewsIntegratedCrawler.CallGNewsApi | src/gnews_integrated_crawler.py:72-98 | Over the limit, no articles and no count. Otherwise the counter grows by one before the request, so a failed request still counts. The count never exceeds 60. |
| GNews.GNewsIntegratedCrawler.ProcessArticles | src/gnews_integrated_crawler.py:141-179 | The loop computes the batch and keeps every hash emitted so far, across calls, distinct and seen. |
| GNews.GNewsIntegratedCrawler.GetGNewsHeadlines | src/gnews_integrated_crawler.py:129-179 | Exactly one request below the daily limit and none at it. The items are the batch of the answer (empty at the limit), the seen hashes become the batch's, and the emitted hashes grow by the items' hashes. |
| GNews.GNewsIntegratedCrawler.SearchGNews | src/gnews_integrated_crawler.py:181-228 | Exactly one request below the daily limit and none at it. The items are the batch of the answer (empty at the limit), the seen hashes become the batch's, and the emitted hashes grow by the items' hashes. |
| GNews.GNewsIntegratedCrawler.GetDiverseNews | src/gnews_integrated_crawler.py:230-278 | The three categories are the first five of the batches of the three calls in order (tech, general, Chinese), each answered only below the limit. The request count becomes min(old + 3, limit). The articles carry pairwise distinct hashes, none seen before, all seen after. Chinese articles need no translation. |
| Workflow.InferContentType | src/main_workflow.py:275-295 | The first class, in the order tech, politics, economy, social, whose keyword occurs in the lower-cased title. A 微博 or 知乎 source also makes it social, and general is the fallback. Each class is an if-and-only-if. |
| Workflow.SocialSourceWins | src/main_workflow.py:292-293 | A social-platform source gives "social" whenever no earlier class matches the title. |
| Workflow.Decimal | src/main_workflow.py:254 | Only digits: one below 10, at most two below 100 and at most three below 1000. |
| Workflow.Pad3 | src/main_workflow.py:254 | At least three digits, exactly three below 1000. |
| Workflow.ParseDecimalRoundTrip | src/main_workflow.py:254 | Reading the digits back gives n. |
| Workflow.Pad3RoundTrip | src/main_workflow.py:254 | Reading the zero-padded digits back gives the index. |
| Workflow.RecordIdsDiffer | src/main_workflow.py:254 | Two indices give two different record identifiers. |
| Workflow.ToRecord | src/main_workflow.py:253-264 | The id is "{type}_{i:03d}". Content is the summary, else the title, else "". Missing translation flags are false, the type is inferred, and the raw item is kept. |
| Workflow.ToRecords | src/main_workflow.py:251-265 | One record per item, in order, record k mapping item k. |
| Workflow.RecordsHaveDistinctIds | src/main_workflow.py:251-265 | The records of a run carry pairwise different identifiers. |
| Workflow.CollectSampleData | src/main_workflow.py:241-273 | A crawler that raised gives []; otherwise the mapped records. |
| Workflow.BriefingTitle | src/main_workflow.py:312-318 | The three known briefing types get their headings and anything else "每日简报". |
| Workflow.BriefSummary | src/main_workflow.py:330-331 | Content up to 100 characters is kept; longer content becomes its first 100 plus "...". |
| Workflow.EntryLines | src/main_workflow.py:325-337 | A numbered heading and the summary line, then a link line exactly when the URL is non-empty, then a blank line. |
| Workflow.EntryInPlace | src/main_workflow.py:325-337 | Entry k + 1 is item k's text, right after the entries of the items before it. |
| Workflow.EntriesGrow | src/main_workflow.py:325-337 | The entries of a prefix of the recommendations are a prefix of the entries. |
| Workflow.WriteLines | src/main_workflow.py:321-341 | Writing lines one by one gives each line followed by a newline. |
| Workflow.GenerateFallbackBriefing | src/main_workflow.py:309-343 | The header, one numbered entry per recommendation in order, and the fixed footer. |
| Mixing.Marked | src/simple_crawler.py:343-349 | Sets both flags and changes nothing else. |
| Mixing.MarkAll | src/simple_crawler.py:343-349 | Every article marked, the order and the number kept. |
| Mixing.MarkLanguage | src/web_crawler.py:266-272 | The marking loop marks every article. |
| Mixing.ForeignTarget | src/simple_crawler.py:335 | `int(total * 0.7)`: the largest t with 10 t <= 7 total. |
| Mixing.QuotaMix | src/simple_crawler.py:334-352 | A foreign prefix within the 70% target followed by a Chinese prefix within the rest, never longer than the total. |
| Mixing.QuotaMixFull | src/simple_crawler.py:339-340 | Enough articles on both sides fill the total exactly, with 70% (rounded down) foreign first. |
| Mixing.NoRebalancing | src/simple_crawler.py:339-340 | A short foreign side leaves the result short: the Chinese share does not grow to cover it. |
| Mixing.MarkedMix | src/simple_crawler.py:339-352 | The quota mix with foreign articles flagged for translation from "en" and Chinese ones as "zh", position by position. |
| Mixing.MixOfMarked | src/hybrid_crawler.py:195-216 | Mixing halves marked beforehand is the marked mix of the unmarked halves. |
| Mixing.MixAndMark | src/simple_crawler.py:339-352 | Selecting and then marking gives the marked mix. |
| Mixing.WithLanguage | src/full_content_crawler.py:363-364 | Keeps only articles of the language, all from the input. |
| Mixing.WithLanguageKeeps | src/full_content_crawler.py:363-364 | Every article of the language is kept. |
| Mixing.WithFlag | src/hybrid_crawler.py:206-207 | Keeps only articles with the flag. |
| Mixing.WithFlagOfMarked | src/hybrid_crawler.py:206-207 | Filtering a marked list by its own flag returns all of it, and by the other flag nothing. |
| Mixing.Newest | src/simple_crawler.py:286-301 | No file exactly when no matching file is fresh. Otherwise a matching file no older than the cutoff and at least as new as every other such file. |
| Mixing.NewestIsFirst | src/simple_crawler.py:298 | Among equally new files the first listed wins. |
| Mixing.NewestExtends | src/web_crawler.py:215-223 | Looking at one more file either picks it (fresh and strictly newer) or keeps the earlier choice. |
| Mixing.LatestCache | src/web_crawler.py:209-223 | The scan with its running latest time finds the newest fresh file. |
| SimpleCrawler.Gather | src/simple_crawler.py:211-236 | Reports a failure exactly when some fetch raised. |
| SimpleCrawler.GatherAll | src/simple_crawler.py:213-232 | Without a failure, everything every source returned, in order. |
| SimpleCrawler.GatherStops | src/simple_crawler.py:211-237 | After the first raising fetch nothing further is gathered. |
| SimpleCrawler.Crawl | src/simple_crawler.py:204-251 | Without a failure the gathered items succeed. After a failure with the flag set, exactly the mock data, counted as a success. Without the flag, a failure holding the foreign items gathered so far. |
| SimpleCrawler.CrawlWithoutFailure | src/simple_crawler.py:234-242 | A crawl in which no fetch raises keeps everything returned and never uses the mock. |
| SimpleCrawler.GatherLoop | src/simple_crawler.py:211-237 | The loop computes the gathering, stopping at the first failure. |
| SimpleCrawler.CrawlAllSources | src/simple_crawler.py:204-251 | The loops and the fallback compute the crawl outcome. |
| SimpleCrawler.LoadFromCache | src/simple_crawler.py:286-311 | The content of the newest fresh `simple_crawled_*.json`, or nothing. |
| SimpleCrawler.GetContentForRecommendation | src/simple_crawler.py:313-352 | The cache when asked for and readable, else the crawled data, mixed and marked over min(20, F + C). |
| SimpleCrawler.RecommendationShape | src/simple_crawler.py:334-352 | At most 20 and at most what the data holds; foreign-flagged first, Chinese-flagged after. |
| WebCrawler.Truncated | src/web_crawler.py:146 | Each source contributes at most `max_items_per_source`, so the total is bounded by sources times that. |
| WebCrawler.TruncatedSplits | src/web_crawler.py:146-147 | A source's items appear as its own prefix of at most `max_items_per_source`, after those of earlier sources. |
| WebCrawler.CrawlHalf | src/web_crawler.py:138-148 | The loop extends with each source's truncated items and counts them. |
| WebCrawler.CrawlAllSources | src/web_crawler.py:130-174 | Both halves truncated per source. |
| WebCrawler.LoadFromCache | src/web_crawler.py:209-234 | The content of the newest fresh `crawled_*.json`, or nothing. |
| WebCrawler.GetContentForRecommendation | src/web_crawler.py:236-275 | The cache when asked for and readable, else the crawl, mixed and marked over the fixed total of 30. |
| WebCrawler.RecommendationShape | src/web_crawler.py:257-275 | 21 foreign and 9 Chinese targets; at most 30 items, foreign ones marked "en" first, Chinese ones "zh" after. |
| FullContentCrawler.TruncateContent | src/full_content_crawler.py:155-156 | Content over 5000 characters becomes its first 5000 plus "..."; the length gate above 100 is unaffected by the cap. |
| FullContentCrawler.FirstSeparator | src/full_content_crawler.py:187 | The position of the first '|', '·' or '-', if any. |
| FullContentCrawler.DropSiteSuffix | src/full_content_crawler.py:186 | A prefix of the title. |
| FullContentCrawler.DropSeparatorTail | src/full_content_crawler.py:187 | A prefix of the title with no separator left. |
| FullContentCrawler.CleanTitle | src/full_content_crawler.py:182-191 | At most 200 characters, no separator, and a prefix of the stripped title. |
| FullContentCrawler.UntitledTitle | src/full_content_crawler.py:183 | A page without a title is stored as "无标题". |
| FullContentCrawler.FetchArticle | src/full_content_crawler.py:164-209 | An article exactly for a status-200 page whose extracted text exceeds 100 characters. It has the capped content, the cleaned title and the source's language. |
| FullContentCrawler.UniqueLinks | src/full_content_crawler.py:121 | No duplicates, and exactly the links found. |
| FullContentCrawler.MarkByLanguage | src/full_content_crawler.py:358-360 | Needs translation exactly when English, with the original language set to its own. |
| FullContentCrawler.MarkedArticles | src/full_content_crawler.py:358-360 | Every article marked by its own language. |
| FullContentCrawler.GetContentForProcessing | src/full_content_crawler.py:346-377 | The loop and comprehensions compute the processing mix. |
| FullContentCrawler.ProcessingMixFlags | src/full_content_crawler.py:358-373 | At most 15 and at most what was given, each flagged exactly when English. |
| FullContentCrawler.ProcessingMixOrder | src/full_content_crawler.py:363-373 | English articles first, Chinese after; other languages dropped. |
| HybridCrawler.SplitByLanguage | src/hybrid_crawler.py:164-169 | English articles go to foreign, every other one to Chinese, none lost. |
| HybridCrawler.FlaggedHalves | src/hybrid_crawler.py:195-207 | Filtering the flagged articles by flag recovers the two marked halves. |
| HybridCrawler.ProcessingMixIsMarkedMix | src/hybrid_crawler.py:195-216 | The mix is the marked 70/30 mix of the data, at most 10 and no more than it holds. |
| HybridCrawler.HybridCrawler.constructor | src/hybrid_crawler.py:14-33 | Not on mock data and no crawl time. |
| HybridCrawler.HybridCrawler.TryRealCrawl | src/hybrid_crawler.py:127-153 | Without a real crawler, nothing. A non-empty crawl is returned, clears the mock flag and stamps the time. An empty or failed crawl sets the flag. |
| HybridCrawler.HybridCrawler.LoadOrCrawl | src/hybrid_crawler.py:155-186 | Non-empty cached data (when asked for and a real crawler exists), else a non-empty real crawl, else the mock. The mock flag is set exactly when the mock is used, and the crawl time moves to now only after a successful crawl. |
| HybridCrawler.HybridCrawler.GetContentForProcessing | src/hybrid_crawler.py:188-221 | The processing mix of the data chosen, at most 10 articles. The mock flag is set exactly when neither the cache nor a crawl supplied data, and the crawl time moves to now exactly when a crawl did. |
| ShortUrl.Answer | src/short_url_generator.py:26-32 | A short link exactly for status 200 with a stripped body starting "http". |
| ShortUrl.Lookup | src/short_url_generator.py:15-42 | A cached link is returned from the cache and an accepted answer is returned; every other outcome returns the long URL. |
| ShortUrl.Remember | src/short_url_generator.py:18-32 | Only an accepted answer for an unseen link adds an entry, and existing entries never change. |
| ShortUrl.RememberKeepsWellFormed | src/short_url_generator.py:29-30 | Only values starting with "http" enter the cache. |
| ShortUrl.CachedIgnoresResponse | src/short_url_generator.py:18-19 | A cached link is answered from the cache, whatever the service would say, and the cache is unchanged. |
| ShortUrl.ShortenedIsRemembered | src/short_url_generator.py:18-32 | Once shortened, asking again gives the same short link without changing the cache. |
| ShortUrl.Batch | src/short_url_generator.py:44-56 | The result keys are exactly the input links, earlier entries are kept, and only input links are added. |
| ShortUrl.BatchExtends | src/short_url_generator.py:49-53 | The batch over one more link is one more shorten-and-record step. |
| ShortUrl.BatchResults | src/short_url_generator.py:44-56 | Each link maps to itself or to the short link the final cache holds for it, and every cached link looks like a link. |
| ShortUrl.BatchKeepsCached | src/short_url_generator.py:18-19 | A link cached before the batch keeps its short link in the results. |
| ShortUrl.ShortUrlGenerator.constructor | src/short_url_generator.py:11-13 | An empty cache. |
| ShortUrl.ShortUrlGenerator.GenerateShortUrl | src/short_url_generator.py:15-42 | The lookup result and the remembered cache, which keeps only link-shaped values. |
| ShortUrl.ShortUrlGenerator.BatchGenerate | src/short_url_generator.py:44-56 | The loop computes the batch's cache and results. |

## Left out

- Network I/O is not modelled: HTTP, RSS and API fetching, the TinyURL request, the gnews request and the external model client. Each outcome is a parameter, with `None` for a raised call, a non-200 status or no answer.
- HTML parsing is not modelled: the script, style, article, main and div regexes, the link regexes and the `<title>` search. Their results are passed in as already extracted text.
- The filesystem and configuration are not modelled: JSON and YAML loading and saving, the save-to-cache functions and the retention sweeps. Cache files are a list of name, time and content (`None` for an unreadable file), and the rewrite cache is an in-memory map with an explicit clock.
- The clock is a parameter, as formatted text or as hours. So are MD5 (an uninterpreted function), `hash_content`, `random.choice` in `enhance_content` (the chosen replacements are passed in), and the `time.sleep` delays, which have no effect on results.
- The prompt and the regex that pulls a number out of the external judgement in `deepseek_adjustment` are left out. Only the rescale and the combine of an optional parsed number are modelled.
- The emoji-density computation of `analyze_content` is left out: it feeds no decision.
- Float rounding is not modelled; all weights and scores are exact reals.
- Unicode is approximated. `str.lower()` lowers ASCII letters only. `\s` and `strip()` are the ASCII whitespace characters. `\w` is ASCII letters, digits and `_` plus the CJK range the source adds.
- The scheduler, CLI, `main()`, printing and logging layer is not modelled, and neither is the `on_demand_processor` orchestration. The tests and packaging scripts are left out as well.
- `generate_feedback_id`, `get_feedback_statistics`, `generate_insights`, `summarize_user_preferences`, `generate_briefing` of the crawlers and of the workflow (external model) and `get_data_source_info` are not modelled. They are reporting or text for display; the feedback id is passed in.
- The recommendation engine's `update_from_feedback` only prints, so the engine's profile is a constant of the engine and is separate from the feedback system's user model.
- Mock data (`get_mock_data`, `create_high_quality_mock_data`) is passed in as a value; its contents are not modelled.
- In-place mutation of item dictionaries is modelled on values, and the model returns new records. This covers the crawlers' marking, `recommend_content` writing `recommendation_score` into the caller's items, and `process_content_item` writing `content`, `was_rewritten`, `original_style`, `tags` and `quality_score` into its item. The model therefore does not capture aliasing between the returned items and the caller's dictionaries.
- Recommendation.Backfill: `item not in selected` compares whole dictionaries, including fields the model leaves out, such as the URL. Two ranked items that differ only in such a field both survive the backfill in the source, but the model treats them as one item.
- Recommendation.SelectionSize: the exact count and distinctness are stated for inputs without repeated items. With repeated equal items, the source's `item not in selected` compares by value and can return fewer than `count`.
- Recommendation.WeightedSumBounds: the source sums the seven factors in a loop over a fixed dictionary; the model writes that fixed sum out as one expression.
- SimpleCrawler.Crawl: after a failure without the mock flag, only the foreign half of the partial result is stated. The Chinese half is whatever the Chinese loop gathered before raising, or nothing if the foreign loop raised.
- FullContentCrawler.UniqueLinks: `list(set(links))` has no defined order in Python; the model keeps first positions, and the contract states only distinctness and membership.
- FullContentCrawler.CleanTitle: the contract states the length, separator and prefix properties, not the exact text. The missing-title case is stated by FullContentCrawler.UntitledTitle.
- GNews.Convert: source, publication time and URL are copied as the source does, but the contract does not restate these copies.

## Findings

| source | as written | input that shows it | evidently intended | confidence | as-written member | corrected member |
|---|---|---|---|---|---|---|
| src/feedback_system.py:225 | The slot key is built from `day_of_day`, a name defined nowhere, so every `record_feedback` raises NameError after the weight updates. The pattern and comfort updates and both saves never happen. | any call of `record_feedback`, for example a first "like" | `day_of_week`, read two lines earlier, so that a first "like" records its slot and sets `overall_comfort` to 0.72 | not executed | Feedback.FeedbackSystem.RecordFeedbackAsWritten, Feedback.DayOfDayCounterexample | Feedback.FeedbackSystem.RecordFeedback |
