# Content-Idea trend intelligence, modelled in Dafny

Content-Idea is a content-creation server. It fetches what is trending about a topic from
Reddit, YouTube and Google News, ranks and analyses those items, and writes a monologue
script from the result with a language model. This project models the core of that system
in Dafny and proves what each part promises:

- **Trend intelligence** (`src/tools/context_processor.py`):
  - Every item gets four 0–100 component scores and a weighted composite score.
  - Each source's items are ranked by that composite.
  - The ranked items are analysed for themes, keyword sentiment and trend buckets, and
    keywords are correlated across sources.
  - Everything is rendered into the context summary that goes into the script prompt.
- **Query understanding** (`src/utils/query_analyzer.py`):
  - A rule-based classifier assigns the intent, extracts the topics and detects the
    requirements (duration, style, voice name, video path).
  - A table says which sources each intent needs.
  - The model-produced analysis is normalised.
- **Caching and monitoring** (`src/services/context_cache.py`,
  `src/middleware/context_middleware.py`):
  - A TTL cache of at most 1000 entries that evicts the oldest 10% when full.
  - The cache key scheme.
  - The counters of the monitoring middleware.
- **Enrichment and orchestration** (`src/services/context_enricher.py`,
  `src/services/tool_orchestrator.py`):
  - Fetching context for a query: cache first, connectors on a miss.
  - Summarising that context and placing the summary in front of the query.
  - The fixed plan of which composite tool serves which intent.
- **Aggregation and script generation** (`src/tools/ideas.py`, `src/tools/script.py`):
  - Per-source failure isolation when the three connectors are called.
  - The provider fallback chain (Groq and OpenRouter).
  - Cleaning of reasoning-model output.
  - The refusal to write a script when no trend was found.

Layout: one Dafny module per component.

| module | contents |
|---|---|
| `ContentItems` | the items |
| `Scoring` | the scores and the ranking |
| `Analysis` | themes, sentiment, trends, correlations |
| `ContextSummary` | the summary |
| `QueryAnalyzer` | query analysis |
| `Cache` | class `ContextCache` |
| `Middleware` | class `ContextMiddleware` |
| `Enricher` | context enrichment |
| `Orchestrator` | the tool plan |
| `Ideas` | aggregation |
| `Script` | script generation |

Four support modules model the Python built-ins the code relies on:

| module | contents |
|---|---|
| `Wrappers` | `Option` and `Result` |
| `Text` | `lower`, `in`, `split`, `join`, `strip`, number formatting, `round`, `sorted` on strings |
| `Sequences` | slicing, filtering, stable descending sort, `list(set)` |
| `Patterns` | a left-to-right scanner for the regular expressions, with `re.search` and `re.findall` |

`JsonValues` is the decoded-JSON value.

Effects become parameters:

- Each connector call, provider call and generated-summary call is a function parameter or an
  input value (what the call returned).
- The clock is a `now` parameter.
- The global cache and middleware are objects passed to the methods that use them.
- Where the code turns a set into a list (`list(set(...))`, `max(set(...))`, ties among
  timestamps), Python fixes no order. There the model states the result relationally: every
  valid choice satisfies the contract.

## Model

| member | source | states |
|---|---|---|
| Scoring.RelevanceScore | src/tools/context_processor.py:26-50 | the relevance score always lies between 0 and 100 |
| Scoring.RelevanceOfExactPhrase | src/tools/context_processor.py:43-50 | a non-blank topic whose whole phrase occurs in the item's searchable text scores exactly 100 |
| Scoring.RelevanceWithoutMatches | src/tools/context_processor.py:43-50 | an item matching neither the phrase nor any topic word scores 0 |
| Scoring.RelevanceOfEmptyTopic | src/tools/context_processor.py:26-48 | the empty topic has no words but occurs in every text, so every item scores 20 |
| Scoring.YouTubeRecencyIff | src/tools/context_processor.py:113-125 | a video's recency is 75 exactly when `published_at` is non-empty and does not begin with 'T', otherwise 50 |
| Scoring.RedditRecencyNonIncreasing | src/tools/context_processor.py:106-111 | without a stored score, an older post never scores higher, a strictly older one scores strictly lower while above zero, and the score is never negative |
| Scoring.SubstringChannelMatch | src/tools/context_processor.py:151-157 | major channels are matched as substrings, so the channel "Trusted Reviews" (containing "ted") gets credibility 90 |
| Scoring.ComponentsArePercentages | src/tools/context_processor.py:53-166 | with connector metrics in their documented ranges, all four component scores are percentages |
| Scoring.Round2 | src/tools/context_processor.py:207-214 | `round(x, 2)` lies within half a hundredth of `x` |
| Scoring.Round2Percentage | src/tools/context_processor.py:207-214 | rounding keeps a percentage within 0..100 |
| Scoring.WeightedSumIsPercentage | src/tools/context_processor.py:187-205 | non-negative weights summing to 1 (the defaults 0.4/0.3/0.2/0.1 included) combine percentages into a percentage |
| Scoring.CompositeIsPercentage | src/tools/context_processor.py:169-215 | the rounded composite and every rounded component are percentages |
| Scoring.RankedOrder | src/tools/context_processor.py:245-247 | the kept entries are in descending composite order and keep the input order of equal scores |
| Scoring.RankedDominates | src/tools/context_processor.py:245-247 | the kept entries are drawn from the scored input and score at least as high as every dropped one |
| Scoring.RankedMembers | src/tools/context_processor.py:236-247 | every ranked entry is an input item carrying its own scores |
| Scoring.RankAndFilterItems | src/tools/context_processor.py:236-247 | length `min(top_n, n)`; composites non-increasing; each entry is an input item with its own scores; a sub-multiset of the scored input; every kept entry scores at least every dropped one; equal-score entries keep their input order (stable sort) |
| Sequences.SortDescFacts | src/tools/context_processor.py:245 | the descending sort is sorted, a permutation, and stable for every key value |
| Sequences.TakeSortedStable | src/tools/context_processor.py:245-247 | a prefix of the sorted list is sorted and keeps the input order of equal keys |
| Sequences.TakeSortedDropped | src/tools/context_processor.py:245-247 | a prefix of the sorted list is a sub-multiset whose keys dominate every dropped element |
| Sequences.Take | src/tools/context_processor.py:247 | Python slicing `s[:n]`: a prefix, of length `min(n, len)` or, for negative `n`, `max(0, len + n)` |
| Text.RoundHalfEven | src/tools/context_processor.py:208 | Python rounding: within one half of `x`, non-negative for non-negative `x` |
| Analysis.FrequenciesFacts | src/tools/context_processor.py:289 | the word counter pairs every word with its number of occurrences, and only such pairs |
| Analysis.MostCommonCounts | src/tools/context_processor.py:289-290 | `most_common(10)` has `min(10, distinct words)` entries, each a word with its true count, in non-increasing count order |
| Analysis.MostCommonOmitsNoMoreFrequent | src/tools/context_processor.py:289-290 | no word left out of `most_common(10)` occurs more often than one that is listed |
| Analysis.ExtractThemes | src/tools/context_processor.py:261-299 | word frequencies are the ten most common non-stop words of four letters or more; the keyword list is up to 15 distinct candidates drawn from those words and the explicit tags/keywords; the item count is the input length |
| Analysis.ThemesKeepAllFewCandidates | src/tools/context_processor.py:293 | with at most fifteen candidates, every candidate is kept |
| Analysis.Signals | src/tools/context_processor.py:331-333 | a signal count never exceeds the size of its cue list |
| Analysis.SentimentOfText | src/tools/context_processor.py:331-351 | each count is bounded by the size of its cue list (15, 14 and 8 words) |
| Analysis.AnalyzeSentiment | src/tools/context_processor.py:313-351 | the report equals the cue-word specification; at most 15 positive, 14 negative and 8 neutral signals |
| Analysis.LabelIff | src/tools/context_processor.py:335-343 | neutral iff no signal; positive iff 2p > 3n; negative iff 2n > 3p; mixed exactly in the remaining case |
| Analysis.OnlyNeutralWordsIsMixed | src/tools/context_processor.py:331-343 | text with only neutral cues is labelled mixed, not neutral |
| Analysis.ClassifyIff | src/tools/context_processor.py:419-438 | gaining iff recency ≥ 70 and engagement ≥ 70; emerging iff recency ≥ 70 and engagement < 70; losing iff both < 40; stable otherwise |
| Analysis.DetectTrends | src/tools/context_processor.py:368-470 | the report equals the bucket specification: each bucket sorted by its key and cut to 5/5/3/5, unique angles cut to 5 |
| Analysis.BucketsPartition | src/tools/context_processor.py:393-438 | every item lands in exactly one of the four buckets (their sizes sum to the input size) |
| Analysis.BucketMembers | src/tools/context_processor.py:419-438 | a bucket holds exactly the trend entries of the items classified into it |
| Analysis.EmergingFacts | src/tools/context_processor.py:458 | at most 5 emerging trends, newest first, all recent and not highly engaged |
| Analysis.GainingFacts | src/tools/context_processor.py:459 | at most 5 gaining trends, by composite descending, all recent and highly engaged |
| Analysis.LosingFacts | src/tools/context_processor.py:460 | at most 3 losing trends, oldest first, all with recency and engagement below 40 |
| Analysis.UniqueAngleFacts | src/tools/context_processor.py:440-455 | unique angles are exactly the items of relevance ≥ 70 and engagement < 70 |
| Analysis.PresentKinds | src/tools/context_processor.py:499-534 | a correlation kind is reported iff its overlap is non-empty, each at most once, in the code's order |
| Analysis.ConsensusImpliesAllPairs | src/tools/context_processor.py:500-534 | a keyword shared by all three sources yields all four correlation entries |
| Analysis.OnlyRedditYouTubeOverlap | src/tools/context_processor.py:500-534 | when only Reddit and YouTube overlap, exactly the reddit_youtube entry appears |
| Analysis.CorrelateKeywords | src/tools/context_processor.py:499-544 | one entry per overlapping kind with its insight and shared keywords; each unique list holds that source's keywords found in neither other source |
| Analysis.FindCrossSourceCorrelations | src/tools/context_processor.py:489-544 | the report holds each source's themes, the correlations of their keyword sets, and the unique keywords |
| Analysis.UniqueKeywordsDisjoint | src/tools/context_processor.py:541-543 | the unique keyword lists are pairwise disjoint, and none of the three ever meets a correlation's keywords |
| Sequences.Enumerate | src/tools/context_processor.py:511 | `list(s)` lists each element of the set exactly once |
| ContextSummary.ChooseOverall | src/tools/context_processor.py:865-866 | the overall sentiment is one of the three labels, and no label occurs more often |
| ContextSummary.MajorityWins | src/tools/context_processor.py:865-866 | a label held by two of the three sources is the overall sentiment |
| ContextSummary.AnalyseSource | src/tools/context_processor.py:693-711 | a source's ranked items, themes, sentiment and trends all meet their specifications |
| ContextSummary.ShowKeywords | src/tools/context_processor.py:764-770 | up to ten distinct keywords from the union of the three keyword lists |
| ContextSummary.AppendTitles | src/tools/context_processor.py:786-787 | the loop appends one "- title" line per trend, in order |
| ContextSummary.AppendAngles | src/tools/context_processor.py:808-811 | the loop appends each angle's title line and, when present, its insight line |
| ContextSummary.AppendEntries | src/tools/context_processor.py:817-825 | the loop appends the numbered entries, the k-th item numbered k |
| ContextSummary.AppendInsights | src/tools/context_processor.py:859-861 | the loop appends each correlation's insight and up to five keywords |
| ContextSummary.AppendTrendSection | src/tools/context_processor.py:784-788 | a trend section appears only when it has trends, showing at most five |
| ContextSummary.AppendTrends | src/tools/context_processor.py:776-812 | the trend block takes up to two entries per source and shows at most five |
| ContextSummary.AppendKeywords | src/tools/context_processor.py:769-773 | the keyword block, with the correlation count only when correlations exist |
| ContextSummary.AppendSource | src/tools/context_processor.py:815-826 | a source block: heading, first three entries, the source's sentiment |
| ContextSummary.AppendInsightsBlock | src/tools/context_processor.py:857-862 | the cross-source block shows at most three correlations and only when there are some |
| ContextSummary.Render | src/tools/context_processor.py:743-867 | the appends build exactly the specified summary text |
| ContextSummary.CreateContextSummary | src/tools/context_processor.py:670-869 | every analysis meets its specification; correlations are computed on the ranked items; the overall label is a most frequent one; the text is the specified rendering |
| ContextSummary.HeaderStartsWithTopic | src/tools/context_processor.py:743-761 | with or without the generated summary, the header begins with the topic line |
| ContextSummary.SummaryStartsWithTopic | src/tools/context_processor.py:745-761 | every summary begins "TRENDING TOPICS ANALYSIS: <topic>" |
| ContextSummary.SummaryOfStartsWithTopic | src/tools/context_processor.py:745-761 | any context summary of the three lists begins with its topic line |
| ContextSummary.SummaryEndsWithOverall | src/tools/context_processor.py:864-869 | every summary ends with the overall-sentiment line |
| ContextSummary.SourceBlockPresence | src/tools/context_processor.py:815-826 | a source block is empty iff the source has no ranked items, and otherwise begins with its heading |
| ContextSummary.SourceBlockShowsFirstThree | src/tools/context_processor.py:817 | items after the third never affect a source block |
| ContextSummary.EmptyThemes | src/tools/context_processor.py:261-299 | no items give no keywords and no frequencies |
| ContextSummary.SentimentOfNoItems | src/tools/context_processor.py:335-351 | no items give a neutral, low-confidence report with zero signals |
| ContextSummary.EmptySource | src/tools/context_processor.py:693-711 | a source with no items has no ranking, keywords or trends and a neutral sentiment |
| ContextSummary.TrendBlockOfNoTrends | src/tools/context_processor.py:776-812 | without trends only the trend heading is written |
| ContextSummary.SummaryOfNoItems | src/tools/context_processor.py:670-869 | with no items at all, the summary is the header, an empty keyword line, the trend heading and "OVERALL SENTIMENT: neutral" |
| QueryAnalyzer.ParseIntent | src/utils/query_analyzer.py:347-349 | only the six intent names are recognised, each as its own intent |
| QueryAnalyzer.ParseIntentName | src/utils/query_analyzer.py:347-349 | parsing an intent's name gives back that intent |
| QueryAnalyzer.SourceNames | src/utils/query_analyzer.py:352 | the concrete sources are valid names and "none" is valid but not concrete |
| QueryAnalyzer.RuleSourcesConsistent | src/utils/query_analyzer.py:144-152 | the rule-based source list fits the intent: never empty, "none" exactly for the no-context intents |
| QueryAnalyzer.RuleIntentIsFirstHit | src/utils/query_analyzer.py:128-138 | the intent is general_query iff no cue list matches, else the intent of the first cue list that matches |
| QueryAnalyzer.ScriptBeforeVideo | src/utils/query_analyzer.py:129-134 | a query mentioning both "script" and "video" (and no trending cue) is script generation |
| QueryAnalyzer.QuotedAt | src/utils/query_analyzer.py:183 | a quoted-phrase match lies inside the query and advances |
| QueryAnalyzer.CuedPhraseAt | src/utils/query_analyzer.py:207 | an "about/on/regarding" phrase match lies inside the query and advances |
| QueryAnalyzer.CapPhraseAt | src/utils/query_analyzer.py:208 | a multi-word capitalised phrase match lies inside the query and advances |
| Patterns.FindAllGroups | src/utils/query_analyzer.py:183 | every group `re.findall` returns is matched by the pattern at some position of the text |
| QueryAnalyzer.ScanTopicWords | src/utils/query_analyzer.py:187-198 | the word loop's emitted phrases and open phrase equal the word-scan specification |
| QueryAnalyzer.FindPatternTopics | src/utils/query_analyzer.py:204-212 | the matches of the cue pattern, then those of the capitalised-phrase pattern |
| QueryAnalyzer.CollectTopics | src/utils/query_analyzer.py:180-212 | the raw topics are the quoted phrases, then the word phrases, or else the pattern matches |
| QueryAnalyzer.CleanTopics | src/utils/query_analyzer.py:215 | every cleaned topic is stripped and longer than two characters |
| Text.StripShape | src/utils/query_analyzer.py:215 | `strip()` yields a substring that neither begins nor ends with whitespace, empty iff the input is all whitespace |
| QueryAnalyzer.ExtractTopics | src/utils/query_analyzer.py:166-225 | up to five distinct cleaned topics in some order or, when none survive cleaning, the first three meaningful words |
| QueryAnalyzer.FallbackTopicStripped | src/utils/query_analyzer.py:219-223 | the fallback phrase is stripped and longer than two characters |
| QueryAnalyzer.TopicsBounded | src/utils/query_analyzer.py:214-225 | any extracted topic list has at most five distinct, stripped entries of length > 2 |
| QueryAnalyzer.DecimalValueOfString | src/utils/query_analyzer.py:256 | `int()` of a decimal numeral gives back the number |
| QueryAnalyzer.SecondsOrMinutesAt | src/utils/query_analyzer.py:248 | a "<n> second/sec/minute/min" match lies inside the query and advances |
| QueryAnalyzer.ShortSecondsAt | src/utils/query_analyzer.py:249 | a "<n>s" / "<n>sec" match lies inside the query and advances |
| QueryAnalyzer.ShortMinutesAt | src/utils/query_analyzer.py:250 | a "<n>m" / "<n>min" match lies inside the query and advances |
| QueryAnalyzer.ForNumberAt | src/utils/query_analyzer.py:251 | a "for <n>" match lies inside the query and advances |
| Patterns.SearchFromLeftmost | src/utils/query_analyzer.py:254 | `re.search` reports the leftmost position where the pattern matches, and none only when it matches nowhere |
| QueryAnalyzer.MatchSeconds | src/utils/query_analyzer.py:256-259 | the captured number, times 60 when "min" is in the match or "minute" follows within ten characters |
| QueryAnalyzer.DetectDuration | src/utils/query_analyzer.py:246-261 | the duration comes from the first pattern that matches, in minutes times 60 when a minute unit follows |
| QueryAnalyzer.FirstDurationPatternWins | src/utils/query_analyzer.py:253-261 | when pattern k is the first to match, the duration is read from its leftmost match |
| QueryAnalyzer.StyleFrom | src/utils/query_analyzer.py:264-274 | a detected style is one whose keyword occurs in the query; none is detected only when no keyword occurs |
| QueryAnalyzer.DetectStyle | src/utils/query_analyzer.py:263-274 | the loop picks the first style, in table order, whose keyword occurs |
| QueryAnalyzer.IdentifierAt | src/utils/query_analyzer.py:277 | an identifier match lies inside the query and advances |
| QueryAnalyzer.VoiceNameAt | src/utils/query_analyzer.py:277 | a voice-name match lies inside the query and advances |
| QueryAnalyzer.VideoPathAt | src/utils/query_analyzer.py:282 | a video-path match lies inside the query and advances |
| QueryAnalyzer.AsDict | src/utils/query_analyzer.py:239-244 | the requirements dictionary always has exactly the four keys, null when undetected |
| QueryAnalyzer.RuleRequirements | src/utils/query_analyzer.py:228-286 | the detected requirements have exactly the four keys |
| QueryAnalyzer.DetectRequirementValues | src/utils/query_analyzer.py:238-286 | the detector's values equal the requirement specification |
| QueryAnalyzer.DetectImplicitRequirements | src/utils/query_analyzer.py:228-286 | the returned dictionary is the specified requirements dictionary |
| QueryAnalyzer.DetermineContextNeeds | src/utils/query_analyzer.py:289-332 | fetching is requested iff the source list is non-empty, and the list is empty or all three sources |
| QueryAnalyzer.ContextNeedsTable | src/utils/query_analyzer.py:303-332 | fetch iff the intent needs context or it is a general query with topics; limit 10 for trends, 3 for a general query with topics, else 5 |
| QueryAnalyzer.ExtractTopicValues | src/utils/query_analyzer.py:141 | the analysis topics are extracted topics, as strings |
| QueryAnalyzer.RuleSources | src/utils/query_analyzer.py:143-152 | "none" for voice and audio intents, all three sources otherwise |
| QueryAnalyzer.AnalyzeWithRules | src/utils/query_analyzer.py:123-163 | rule intent, extracted topics, the intent's sources, the detected requirements, confidence 0.7 |
| QueryAnalyzer.ValidSourceNames | src/utils/query_analyzer.py:352-353 | only valid source names survive the filter |
| QueryAnalyzer.NormalizeAnalysisResult | src/utils/query_analyzer.py:335-388 | the result is the normalisation specification applied to the decoded record and the extracted topics |
| QueryAnalyzer.NormalizedFailure | src/utils/query_analyzer.py:353 | normalisation fails exactly when the sources field is a scalar that cannot be iterated |
| QueryAnalyzer.NormalizedIntentAndSources | src/utils/query_analyzer.py:346-367 | a known intent is kept and an unknown one becomes general_query; sources are valid and non-empty; no "none" for intents needing context; only "none" for voice/audio |
| QueryAnalyzer.NormalizedRequirements | src/utils/query_analyzer.py:376-382 | the four rule keys are always present; a key given in the record wins, every other key holds the rule-based value |
| QueryAnalyzer.NormalizedConfidence | src/utils/query_analyzer.py:384-386 | confidence is a boolean or a number in [0, 1]; a given number in [0, 1] is kept |
| QueryAnalyzer.TopicsFieldCases | src/utils/query_analyzer.py:369-374 | a list is kept, a string becomes a one-element list, anything else is replaced by extracted topics |
| QueryAnalyzer.NormalizedTopics | src/utils/query_analyzer.py:340-374 | the normalised topics follow those three cases |
| QueryAnalyzer.TopicsFieldStrings | src/utils/query_analyzer.py:369-374 | the topics are strings unless the record gave a list with non-strings |
| QueryAnalyzer.NormalizedStringTopics | src/utils/query_analyzer.py:369-374 | a record whose topic list holds only strings gives string topics |
| QueryAnalyzer.AnalyzeWithModel | src/utils/query_analyzer.py:107-120 | the language-model path yields an analysis iff normalisation succeeds; that analysis is the normalised record (with the query's extracted topics as fallback) and has consistent sources |
| QueryAnalyzer.AnalyzeQueryIntent | src/utils/query_analyzer.py:51-78 | with the model enabled, configured and answering a normalisable record, the result is that normalised record; otherwise it is the rule analysis (rule intent, its sources, extracted topics, rule requirements, confidence 0.7); the sources always fit the intent |
| Cache.Live | src/services/context_cache.py:73-81 | the live entries are exactly the unexpired ones, unchanged |
| Cache.HitRate | src/services/context_cache.py:95-96 | the hit rate is hits/(hits+misses) in [0, 1], and 0 with no requests |
| Cache.ContextCache.constructor | src/services/context_cache.py:11-16 | a new cache is empty, with zero hits and misses |
| Cache.ContextCache.Get | src/services/context_cache.py:18-42 | absent key: a miss; expired entry: removed and a miss; live entry: its value and a hit |
| Cache.ContextCache.Set | src/services/context_cache.py:44-60 | stores the value stamped now; when full, expired entries go first, then the oldest tenth of the live ones, leaving between 900 and 901 entries; never more than 1000 entries |
| Cache.ContextCache.Delete | src/services/context_cache.py:62-65 | the key is gone and nothing else changes |
| Cache.ContextCache.Clear | src/services/context_cache.py:67-71 | no entries and zeroed counters |
| Cache.ContextCache.EvictExpired | src/services/context_cache.py:73-81 | exactly the live entries remain |
| Cache.ContextCache.EvictOldest | src/services/context_cache.py:83-91 | removes `count` entries (Python slice semantics) and no removed entry is newer than a kept one |
| Cache.ContextCache.DeleteAll | src/services/context_cache.py:80-81 | exactly the listed keys are removed |
| Cache.OldestKeys | src/services/context_cache.py:85-90 | the doomed keys are distinct, of the sliced count, and none is newer than a kept key |
| Cache.DoomedOldest | src/services/context_cache.py:85-90 | a prefix of the by-timestamp order never holds a key newer than one left out |
| Cache.ContextCache.GetStats | src/services/context_cache.py:93-105 | the size, the 1000 cap, the counters, their total and the hit rate |
| Cache.ContextCache.Cleanup | src/services/context_cache.py:107-109 | only live entries remain |
| Cache.TopicKey | src/services/context_cache.py:121-124 | topic keys begin "trending:" |
| Cache.SummaryKey | src/services/context_cache.py:134-137 | summary keys begin "context_summary:" |
| Cache.KeysIgnoreSourceOrder | src/services/context_cache.py:121-137 | keys are the same for any order of the same sources |
| Text.SortStringsCanonical | src/services/context_cache.py:123 | `sorted` gives one result for every arrangement of the same strings |
| Cache.KeyFamiliesDisjoint | src/services/context_cache.py:121-137 | a topic key never equals a summary key |
| Middleware.StatsOf | src/middleware/context_middleware.py:61-73 | the counters, their cache-request total and a hit rate in [0, 1] equal to hits/total (0 with no requests) |
| Middleware.ContextMiddleware.constructor | src/middleware/context_middleware.py:20-29 | all counters start at zero |
| Middleware.ContextMiddleware.TrackQueryAnalysis | src/middleware/context_middleware.py:31-34 | only the query counter grows, by one |
| Middleware.ContextMiddleware.TrackContextFetch | src/middleware/context_middleware.py:36-39 | only the fetch counter grows, by one |
| Middleware.ContextMiddleware.TrackPromptEnrichment | src/middleware/context_middleware.py:41-44 | only the enrichment counter grows, by one |
| Middleware.ContextMiddleware.TrackResourceAccess | src/middleware/context_middleware.py:46-49 | only the resource counter grows, by one |
| Middleware.ContextMiddleware.TrackCacheHit | src/middleware/context_middleware.py:51-54 | only the hit counter grows, by one |
| Middleware.ContextMiddleware.TrackCacheMiss | src/middleware/context_middleware.py:56-59 | only the miss counter grows, by one |
| Middleware.ContextMiddleware.GetStats | src/middleware/context_middleware.py:61-73 | the statistics of the current counters |
| Middleware.ContextMiddleware.ResetStats | src/middleware/context_middleware.py:75-84 | all counters return to zero |
| Middleware.HitRateMoves | src/middleware/context_middleware.py:61-73 | a hit never lowers the hit rate and a miss never raises it |
| Enricher.FetchTopic | src/services/context_enricher.py:84 | one topic is used as is; two or more give the first two joined by a space |
| Enricher.NormalizeSources | src/services/context_enricher.py:86-90 | "all" means the three sources; otherwise "none" stops the fetch and any other list is kept |
| Enricher.CachedFetch | src/services/context_enricher.py:92-112 | a truthy live entry is returned unchanged with a hit tracked; otherwise the generated data is stored under the topic key for an hour, every other entry kept, and a miss tracked; the cache counts a hit exactly when the key is live and a miss otherwise |
| Enricher.FetchRelevantContext | src/services/context_enricher.py:62-116 | no topics or "none": nothing, state unchanged; a truthy live cache entry: returned, a hit tracked; otherwise the three connectors' data, cached for an hour with every other entry kept, a miss tracked; the cache's own hit and miss counters follow liveness |
| Enricher.EnrichedPromptShape | src/services/context_enricher.py:166-171 | the enriched prompt begins "CONTEXT: " and contains "USER QUERY: " followed by the query |
| Enricher.SummarySources | src/services/context_enricher.py:141-143 | "all" expands to the three sources; any other list is kept |
| Enricher.Summarise | src/services/context_enricher.py:152-158 | the summary is a context summary of the data's three lists for the topic, five items per source with the generated summary requested, and so begins with the topic line |
| Enricher.SummaryOnMiss | src/services/context_enricher.py:150-164 | a summary that fails falls back to the simple summary and caches nothing; otherwise the context summary of the data is stored under the summary key for an hour, every other entry kept |
| Enricher.FormatContextForPrompt | src/services/context_enricher.py:119-173 | one cache read, a hit exactly when the summary key is live; a truthy cached summary is reused unchanged; otherwise the context summary of the data is stored for an hour with every other entry kept (or the simple summary used, removing at most the expired key); the prompt carries the summary and the query |
| Enricher.CachedSummary | src/services/context_enricher.py:139-164 | the summary cache read and miss handling for a topic and its sources, with the same cases as the prompt formatting |
| Enricher.EnrichQueryWithContext | src/services/context_enricher.py:11-59 | the analysis used is the given one; without one, it is the model's normalised record when the model answers with a record that normalises, and the rule analysis otherwise; no fetch needed or no topics: the query itself; otherwise an enriched prompt holding the query and one fetch counted; one analysis counted when none was given |
| Enricher.EnrichWithAnalysis | src/services/context_enricher.py:28-59 | the steps after the analysis: the query itself, state unchanged, when no fetch is needed or there are no topics; otherwise the enriched prompt and one fetch counted |
| Enricher.Upper | src/services/context_enricher.py:189 | `upper()` maps every character to its upper case |
| Enricher.TitleLines | src/services/context_enricher.py:190-192 | one numbered title line per item |
| Enricher.SourceParts | src/services/context_enricher.py:186-192 | a source with items contributes its upper-cased heading and at most three title lines; one without items contributes nothing |
| Enricher.SimpleSummaryParts | src/services/context_enricher.py:178-194 | the first line names the topic |
| Enricher.GenerateSimpleSummary | src/services/context_enricher.py:176-194 | the loop builds exactly the simple summary |
| Enricher.AppendSourceParts | src/services/context_enricher.py:186-192 | the loop appends exactly the source's parts |
| Enricher.SimpleSummaryStartsWithTopic | src/services/context_enricher.py:181-194 | the simple summary begins "Trending topics about: <topic>" |
| Enricher.SimpleSummaryLineCount | src/services/context_enricher.py:178-194 | the summary has one topic line plus at most four lines per source |
| Enricher.SourcesOfIdeas | src/services/context_enricher.py:185-187 | the simple summary reads the three sources' items from the fetched data |
| Enricher.SimpleSummaryOfIdeasListsSources | src/services/context_enricher.py:185-194 | the REDDIT heading appears iff Reddit delivered items; the line count is the sum of the sources' contributions |
| Enricher.HeadingsDiffer | src/services/context_enricher.py:182-189 | the REDDIT heading is never the topic line nor a line of another source |
| Enricher.ShouldAutoFetchContext | src/services/context_enricher.py:197-213 | true exactly for trending, script, video and general intents |
| Enricher.AutoFetchAgreesWithContextNeeds | src/services/context_enricher.py:207-213 | auto-fetch agrees with the context-needs table for every intent that needs context and every intent that needs none |
| Ideas.SourceRecord | src/tools/ideas.py:36-45 | a source entry holds the delivered items and their count, or no items and the raised message |
| Ideas.IdeasOf | src/tools/ideas.py:9-69 | the total is the number of items delivered by the three connectors; at most 3 sources available; no items iff no source available |
| Ideas.Absorb | src/tools/ideas.py:36-45 | one connector's outcome is recorded and added to the summary |
| Ideas.GenerateIdeas | src/tools/ideas.py:9-69 | the aggregated result equals the aggregation specification |
| Ideas.FailureIsolation | src/tools/ideas.py:36-67 | each source's entry depends on its own connector alone, so one connector's failure leaves the others intact |
| Ideas.GenerateRedditIdeas | src/tools/ideas.py:88-106 | source "reddit" with the subreddit; the delivered items or the raised message |
| Ideas.GenerateYouTubeIdeas | src/tools/ideas.py:125-143 | source "youtube" with the order; the delivered items or the raised message |
| Ideas.GenerateNewsIdeas | src/tools/ideas.py:160-176 | source "google_news"; the delivered items or the raised message |
| Script.Truncate | src/tools/script.py:226 | `int()` truncates toward zero |
| Script.MaxTokens | src/tools/script.py:309-310 | twice the target word count, clamped to [100, 4096] |
| Script.MaxTokensMonotone | src/tools/script.py:309-310 | a longer target never gets a smaller token budget |
| Script.TargetWordCountMonotone | src/tools/script.py:225-226 | a longer duration never gets fewer target words |
| Script.OneMinuteAtDefaultRate | src/tools/script.py:225-226 | 60 seconds at 150 words per minute is 150 words and a 300-token budget |
| Script.FindIgnoringCase | src/tools/script.py:89-91 | the first case-insensitive occurrence of a tag from a position, or proof that there is none |
| Script.BlockAt | src/tools/script.py:89-91 | a tag block match ends in its closing tag |
| Script.RemoveBlocks | src/tools/script.py:89-91 | removing blocks never lengthens the text and leaves text without a block unchanged |
| Script.NoOpeningTag | src/tools/script.py:89-91 | text with no '<' followed by the tag's letter has no opening tag |
| Script.CleanGroqOutput | src/tools/script.py:82-112 | the cleaned output equals the cleaning specification |
| Script.KeptLines | src/tools/script.py:93-106 | the loop keeps exactly the lines passing the line test, in order |
| Text.JoinSplitOn | src/tools/script.py:93 | splitting on newlines and joining them back gives the original text |
| Script.CleanedNeverEmpty | src/tools/script.py:105-112 | cleaning non-blank output never yields an empty script, and every kept line is a non-blank non-reasoning line |
| Script.ThinkBlockRemoved | src/tools/script.py:91 | "<think>plan</think>Hello" loses its think block, leaving "Hello" |
| Script.Candidates | src/tools/script.py:290-300 | each configured provider once, only configured ones, Groq first iff selected; none iff no inference API; each with the requested or default model |
| Script.GroqOutcome | src/tools/script.py:38-118 | a Groq success always carries non-empty content |
| Script.GenerateWithGroq | src/tools/script.py:24-125 | the Groq call's outcome is the reply's outcome specification |
| Script.FallbackStopsAtFirstSuccess | src/tools/script.py:302-337 | a success comes from the first provider whose call succeeds, every earlier one having failed |
| Script.FallbackCollectsAllErrors | src/tools/script.py:336-346 | when every call fails, the error lists one line per provider, in the order tried |
| Script.TryProviders | src/tools/script.py:302-346 | the loop's run is the fallback specification; on success the calls made are the providers up to and including the one that succeeded, on failure all of them |
| Script.GenerateScript | src/tools/script.py:194-346 | no API: the fixed error and no call; otherwise providers are tried in order until the first success (its script, provider, model, word counts, topic) or all fail (all errors); the calls made are exactly the providers tried |
| Script.TrendingContext | src/tools/script.py:372-375 | the context handed to the prompt is a context summary of the data, five items per source, and begins with the topic line |
| Script.GenerateScriptFromIdeas | src/tools/script.py:349-384 | the outcome and the providers called are exactly those of generating a script about the data's topic with its context summary as trending context; with no API, the fixed error and no call |
| Script.GenerateCompleteScript | src/tools/script.py:387-467 | the trending data is the aggregation of the connectors; no items give the no-trends error and no provider call; a script is produced only from at least one item, and then the outcome and calls are those of generating from the data's context summary |
| Script.NoScriptWithoutTrends | src/tools/script.py:428-436 | connectors that all deliver nothing give a total of zero, so no script is written |
| Orchestrator.Lookup | src/services/tool_orchestrator.py:40 | `dict.get(k, d)`: a present key wins whatever it holds |
| Orchestrator.ScriptParameters | src/services/tool_orchestrator.py:38-42 | the topic (first topic or "general"), the duration (default 60) and the style (default "informative and engaging") |
| Orchestrator.VideoParameters | src/services/tool_orchestrator.py:49-54 | the script parameters and the video path, null when none was detected |
| Orchestrator.VoiceParameters | src/services/tool_orchestrator.py:61-64 | the video path and the voice name, each null when none was detected |
| Orchestrator.Orchestrate | src/services/tool_orchestrator.py:23-73 | one tool exactly for script, video and voice intents; a recommendation exactly otherwise; auto-context except for voice cloning; parameters from the topics and requirements with their defaults |
| Orchestrator.ShouldChainTools | src/services/tool_orchestrator.py:76-88 | tools are never chained |
| Orchestrator.GetRecommendedApproach | src/services/tool_orchestrator.py:91-116 | the trending recommendation names the topic (or "{topic}") |
| Orchestrator.TrendingApproachNamesTopic | src/services/tool_orchestrator.py:102-104 | the trending recommendation text contains the topic |
| Orchestrator.PlannedToolIsRecommended | src/services/tool_orchestrator.py:29-116 | every tool the plan calls is named in the recommendation for the same intent |
| Orchestrator.ScriptApproachNamesTool | src/services/tool_orchestrator.py:106-107 | the script recommendation names generate_complete_script |
| Orchestrator.VideoApproachNamesTool | src/services/tool_orchestrator.py:109-110 | the video recommendation names generate_complete_video |
| Orchestrator.AudioApproachNamesTool | src/services/tool_orchestrator.py:112-113 | the voice recommendation names generate_audio_from_script |
| Orchestrator.AutoContextForAnalysedIntents | src/services/tool_orchestrator.py:29-71 | every intent needing context is planned with it; only voice cloning goes without; tools only for script, video and voice |
| Orchestrator.NullDurationWhenUndetected | src/services/tool_orchestrator.py:40 | as written: on detected requirements without a duration the plan's duration is null |
| Orchestrator.NullDurationExample | src/services/tool_orchestrator.py:40 | as written: the empty requirements dictionary gives a null duration |
| Orchestrator.OrchestrateWithDefaults | src/services/tool_orchestrator.py:40-53 | corrected: with undetected requirements dropped, the duration and style are never null |
| Orchestrator.DefaultDurationRestored | src/services/tool_orchestrator.py:40 | corrected: an undetected duration becomes 60 and a detected one is kept |

## Left out

- Network calls:
  - The connectors in `src/sources/` are not part of this model. Each connector call is the
    `fetch` parameter: its items, or the message of what it raised.
  - `_generate_with_openrouter` is the `openrouter` parameter.
  - The Groq SDK call is the `groq` parameter (its reply or the error the code reports).
  - `generate_ai_powered_summary` (context_processor.py:547-667) is the `ai` input: the text
    it returned, or none.
  - `_analyze_with_ai` (query_analyzer.py:81-106) is the `aiResult` input: the decoded JSON
    record, or none when the call or decoding failed. Stripping Markdown fences and
    `json.loads` are not modelled.
- Clock, configuration and output:
  - `time.time()` is the `now` parameter.
  - Configuration (API keys, default models, speaking rate, inference provider) is the
    `Config` / `openRouterConfigured` input.
  - Logging and `print` are not modelled.
  - The `with_context_tracking` decorator (context_middleware.py:96-118) only times and logs,
    so it is not modelled.
- Module-level state: `get_cache` and `get_middleware` return globals. Here the cache and
  middleware objects are passed in explicitly.
- Hashing: `cache_key_for_query_analysis` (context_cache.py:127-131) is not modelled. It uses
  Python's per-process randomised `hash`, and nothing in the core calls it.
- Numbers:
  - Floats are exact reals, and `round` is half-to-even on exact values. Binary rounding
    error is not modelled.
  - Connector metrics are plain numbers, and items are fixed records. A dictionary with
    missing, extra or wrongly typed keys outside those records is not modelled.
- Text:
  - Case mapping, `\w` and `isupper` are ASCII only. Whitespace is Python's full
    `str.isspace` set, including the Unicode spaces.
  - The regular expressions are hand-written scanners with the same leftmost-match behaviour
    on ASCII text.
- Cache.ContextCache.EvictOldest: ties among equal timestamps are not broken by insertion
  order, as Python's stable sort of the dictionary would do. Any set of oldest entries
  satisfies the contract.
- Analysis.ExtractThemes: which fifteen keywords `list(set(...))[:15]` keeps, and in what
  order, is left open; the contract holds for every choice. The same holds for
  `list(all_keywords)[:10]`, the correlation keyword lists, the unique keyword lists and
  `extract_topics`' deduplication.
- ContextSummary.ChooseOverall: when all three labels differ, `max(set(...))` picks by set
  order. The contract allows any of them.
- Script.GenerateScript:
  - The prompt is kept as its fields (topic, duration, style, target words, rate, trending
    context, reasoning-model flag), not as the rendered text.
  - A zero speaking rate is excluded by `requires`. The code would divide by zero after a
    successful provider call.
- Script.GenerateCompleteScript: the outer `except` (script.py:461-467) catches only failures
  the model excludes, so it is not modelled.
- Enricher.FetchRelevantContext: the `except` branch (context_enricher.py:114-116) cannot be
  reached, because `generate_ideas` catches every connector error itself.
- Enricher.EnrichQueryWithContext: the topics must be strings, both in a given analysis and
  in the language model's record. Normalisation keeps a model's topic list as it is
  (query_analyzer.py:369-374), so a list holding non-strings is excluded by `requires`. The
  code behaves in two ways then, and neither is modelled:
  - with two or more topics it raises a TypeError in `" ".join(topics[:2])`
    (context_enricher.py:84), and the error leaves `enrich_query_with_context`;
  - with one topic it goes on to fetch and summarise with that non-string value as the topic.
- Concurrency: calls are sequential. The code holds no locks.

The model follows the code where it departs from the documented behaviour:

- A YouTube item's recency is 75 only when `published_at` is non-empty and does not begin
  with 'T'. Otherwise `split('T')[0]` is empty and the score is 50.
- Normalisation keeps "none" next to concrete sources for a general query.
- The emerging, gaining and unique-angle headings carry the characters the source file holds
  (a mis-decoded emoji), not the intended emoji.

## Findings

| source | as written | input that shows it | evidently intended | confidence | as-written member | corrected member |
|---|---|---|---|---|---|---|
| src/services/tool_orchestrator.py:40 | `requirements.get("duration", 60)` returns the stored `None`, because `detect_implicit_requirements` always stores the key | the query "write a script about AI" with intent script_generation: no duration is detected, so `duration_seconds` is null | an undetected duration defaults to 60 seconds (and style to "informative and engaging") | medium, not executed | Orchestrator.NullDurationWhenUndetected | Orchestrator.DefaultDurationRestored |
