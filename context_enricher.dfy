/**
 * Context enrichment: for a query whose intent calls for it, fetch the
 * trends about its topics (cache first, connectors on a miss), summarise
 * them (again cache first) and put the summary in front of the query. The
 * cache holds two kinds of value under two key families: the fetched data
 * under "trending:" keys and summary text under "context_summary:" keys.
 */
module Enricher {
  import opened Wrappers
  import opened Text
  import opened Sequences
  import opened JsonValues
  import opened ContentItems
  import opened Ideas
  import QueryAnalyzer
  import Cache
  import Middleware
  import ContextSummary

  /** What the enrichment layer stores in the cache. */
  datatype CachedValue = ContextData(ideas: IdeasData) | SummaryText(text: string)

  /** Python truthiness: the fetched data is a dictionary with keys; a summary is true when non-empty. */
  predicate Truthy(v: CachedValue)
  {
    v.ContextData? || v.text != ""
  }

  type Entries = map<string, Cache.Entry<CachedValue>>

  /** Topic keys hold fetched data and summary keys hold summaries, as only this layer writes them. */
  ghost predicate WellTyped(m: Entries)
  {
    forall k :: k in m ==>
      && (Cache.TopicPrefix <= k ==> m[k].value.ContextData?)
      && (Cache.SummaryPrefix <= k ==> m[k].value.SummaryText?)
  }

  /** A read of `key` at `now` that the cache counts as a hit: present and unexpired. */
  ghost predicate Fresh(m: Entries, key: string, now: real)
  {
    key in m && !Cache.Expired(m[key], now)
  }

  /** A read of `key` at `now` that the code treats as a hit: fresh and truthy. */
  ghost predicate CacheHit(m: Entries, key: string, now: real)
  {
    Fresh(m, key, now) && Truthy(m[key].value)
  }

  /** `summary` is what `create_context_summary` makes of the data, five items a source, AI on. */
  ghost predicate MadeSummary(d: IdeasData, topic: string, ai: Option<string>, summary: string)
  {
    ContextSummary.SummaryOf(d.reddit.items, d.youtube.items, d.googleNews.items, topic, 5, true, ai, summary)
  }

  /** Removing entries keeps the typing. */
  lemma RetainedWellTyped(m: Entries, before: Entries)
    requires WellTyped(before) && Cache.Retained(m, before)
    ensures WellTyped(m)
  {
  }

  /** Storing a value of the key's kind keeps the typing. */
  lemma StoredWellTyped(m: Entries, before: Entries, key: string)
    requires WellTyped(before) && Cache.Retained(m - {key}, before) && key in m
    requires Cache.TopicPrefix <= key ==> m[key].value.ContextData?
    requires Cache.SummaryPrefix <= key ==> m[key].value.SummaryText?
    ensures WellTyped(m)
  {
    forall k | k in m ensures (Cache.TopicPrefix <= k ==> m[k].value.ContextData?)
                             && (Cache.SummaryPrefix <= k ==> m[k].value.SummaryText?) {
      if k != key {
        assert k in m - {key};
      }
    }
  }

  // ---------------------------------------------------------------------
  // fetch_relevant_context
  // ---------------------------------------------------------------------

  /** The topic fetched for: the only topic, or the first two joined by a space. */
  function FetchTopic(topics: seq<string>): (t: string)
    requires topics != []
    ensures |topics| == 1 ==> t == topics[0]
    ensures |topics| >= 2 ==> t == topics[0] + " " + topics[1]
  {
    if |topics| == 1 then topics[0]
    else
      var firstTwo := topics[..2];
      assert firstTwo[1..] == [topics[1]];
      assert Join(" ", firstTwo[1..]) == topics[1];
      assert Join(" ", firstTwo) == topics[0] + " " + Join(" ", firstTwo[1..]);
      Join(" ", firstTwo)
  }

  /** "all" stands for the three concrete sources and is checked first; otherwise "none" means no fetch. */
  function NormalizeSources(sources: seq<string>): (r: Option<seq<string>>)
    ensures "all" in sources ==> r == Some(QueryAnalyzer.ConcreteSources)
    ensures "all" !in sources ==> (r.None? <==> "none" in sources)
    ensures "all" !in sources && r.Some? ==> r.value == sources
  {
    if "all" in sources then Some(QueryAnalyzer.ConcreteSources)
    else if "none" in sources then None
    else Some(sources)
  }

  /** The cache key a fetch for these topics and sources reads and writes. */
  function FetchKey(topics: seq<string>, sources: seq<string>): string
    requires topics != [] && NormalizeSources(sources).Some?
  {
    Cache.TopicKey(FetchTopic(topics), NormalizeSources(sources).value)
  }

  const ContextTtl: real := 3600.0

  /**
   * `fetch_relevant_context`. Without topics, or with "none" (and no
   * "all") among the sources, nothing is read or written. Otherwise a live
   * cached value is returned as it is and counted as a hit; on a miss the
   * connectors are asked and their data stored for an hour.
   */
  method FetchRelevantContext(topics: seq<string>, sources: seq<string>, limit: int, now: real, fetch: Fetcher,
                              cache: Cache.ContextCache<CachedValue>, mw: Middleware.ContextMiddleware)
    returns (r: Option<IdeasData>)
    requires cache.Valid() && WellTyped(cache.entries)
    modifies cache, mw
    ensures cache.Valid() && WellTyped(cache.entries)
    ensures topics == [] || NormalizeSources(sources).None? ==>
              r == None && unchanged(cache) && unchanged(mw)
    ensures topics != [] && NormalizeSources(sources).Some? && CacheHit(old(cache.entries), FetchKey(topics, sources), now) ==>
              && r == Some(old(cache.entries)[FetchKey(topics, sources)].value.ideas)
              && cache.entries == old(cache.entries)
              && mw.stats == old(mw.stats).(cacheHits := old(mw.stats).cacheHits + 1)
    ensures topics != [] && NormalizeSources(sources).Some? && !CacheHit(old(cache.entries), FetchKey(topics, sources), now) ==>
              && r == Some(IdeasOf(FetchTopic(topics), limit, fetch))
              && FetchKey(topics, sources) in cache.entries
              && cache.entries[FetchKey(topics, sources)] == Cache.Entry(ContextData(r.value), now, ContextTtl)
              && Cache.Retained(cache.entries - {FetchKey(topics, sources)}, old(cache.entries))
              && mw.stats == old(mw.stats).(cacheMisses := old(mw.stats).cacheMisses + 1)
    ensures topics != [] && NormalizeSources(sources).Some? && Fresh(old(cache.entries), FetchKey(topics, sources), now) ==>
              cache.hits == old(cache.hits) + 1 && cache.misses == old(cache.misses)
    ensures topics != [] && NormalizeSources(sources).Some? && !Fresh(old(cache.entries), FetchKey(topics, sources), now) ==>
              cache.hits == old(cache.hits) && cache.misses == old(cache.misses) + 1
  {
    if topics == [] {
      return None;
    }
    var topic := if |topics| == 1 then topics[0] else Join(" ", topics[..2]);
    var chosen := sources;
    if "all" in sources {
      chosen := QueryAnalyzer.ConcreteSources;
    } else if "none" in sources {
      return None;
    }
    r := CachedFetch(topic, chosen, limit, now, fetch, cache, mw);
  }

  /** The cache read and, on a miss, the fetch and the store, for a topic and its chosen sources. */
  method CachedFetch(topic: string, chosen: seq<string>, limit: int, now: real, fetch: Fetcher,
                     cache: Cache.ContextCache<CachedValue>, mw: Middleware.ContextMiddleware)
    returns (r: Option<IdeasData>)
    requires cache.Valid() && WellTyped(cache.entries)
    modifies cache, mw
    ensures cache.Valid() && WellTyped(cache.entries)
    ensures CacheHit(old(cache.entries), Cache.TopicKey(topic, chosen), now) ==>
              && r == Some(old(cache.entries)[Cache.TopicKey(topic, chosen)].value.ideas)
              && cache.entries == old(cache.entries)
              && mw.stats == old(mw.stats).(cacheHits := old(mw.stats).cacheHits + 1)
    ensures !CacheHit(old(cache.entries), Cache.TopicKey(topic, chosen), now) ==>
              && r == Some(IdeasOf(topic, limit, fetch))
              && Cache.TopicKey(topic, chosen) in cache.entries
              && cache.entries[Cache.TopicKey(topic, chosen)] == Cache.Entry(ContextData(r.value), now, ContextTtl)
              && Cache.Retained(cache.entries - {Cache.TopicKey(topic, chosen)}, old(cache.entries))
              && mw.stats == old(mw.stats).(cacheMisses := old(mw.stats).cacheMisses + 1)
    ensures Fresh(old(cache.entries), Cache.TopicKey(topic, chosen), now) ==>
              cache.hits == old(cache.hits) + 1 && cache.misses == old(cache.misses)
    ensures !Fresh(old(cache.entries), Cache.TopicKey(topic, chosen), now) ==>
              cache.hits == old(cache.hits) && cache.misses == old(cache.misses) + 1
  {
    var cacheKey := Cache.TopicKey(topic, chosen);
    ghost var before := cache.entries;
    var cached := cache.Get(cacheKey, now);
    if cached.Some? && Truthy(cached.value) {
      assert cacheKey in before && before[cacheKey].value == cached.value;
      mw.TrackCacheHit();
      return Some(cached.value.ideas);
    }
    mw.TrackCacheMiss();
    ghost var afterRead := cache.entries;
    assert Cache.Retained(afterRead, before);
    RetainedWellTyped(afterRead, before);
    var ideasData := GenerateIdeas(topic, limit, fetch);
    cache.Set(cacheKey, ContextData(ideasData), ContextTtl, now);
    TopicKeyPrefixes(topic, chosen);
    StoredWellTyped(cache.entries, afterRead, cacheKey);
    assert Cache.Retained(cache.entries - {cacheKey}, before);
    r := Some(ideasData);
  }

  // ---------------------------------------------------------------------
  // format_context_for_prompt
  // ---------------------------------------------------------------------

  const ContextLabel := "CONTEXT: "
  const QueryLabel := "USER QUERY: "
  const ResponseRequest := "\n\nBased on the context above, please provide a comprehensive response."

  /** The prompt the enrichment returns. */
  function EnrichedPrompt(summary: string, query: string): string
  {
    ContextLabel + summary + "\n\n" + QueryLabel + query + ResponseRequest
  }

  /** The enriched prompt starts with the context and carries the query after its label. */
  lemma EnrichedPromptShape(summary: string, query: string)
    ensures ContextLabel <= EnrichedPrompt(summary, query)
    ensures Contains(EnrichedPrompt(summary, query), QueryLabel + query)
    ensures |EnrichedPrompt(summary, query)| > |query|
  {
    var a := ContextLabel + summary + "\n\n";
    var x := QueryLabel + query;
    var b := ResponseRequest;
    assert EnrichedPrompt(summary, query) == a + x + b;
    ContainsAt(x, x, 0);
    ContainsInRight(a, x, x);
    ContainsInLeft(a + x, b, x);
  }

  /** The topic of the summary: the analysis's first topic, else the data's own topic. */
  function PromptTopic(topics: seq<string>, contextData: IdeasData): string
  {
    if topics != [] then topics[0] else contextData.topic
  }

  /** The sources named in the summary key; "all" stands for the three concrete sources. */
  function SummarySources(sources: seq<string>): (r: seq<string>)
    ensures "all" in sources ==> r == QueryAnalyzer.ConcreteSources
    ensures "all" !in sources ==> r == sources
  {
    if "all" in sources then QueryAnalyzer.ConcreteSources else sources
  }

  function SummaryKeyFor(topics: seq<string>, sources: seq<string>, contextData: IdeasData): string
  {
    Cache.SummaryKey(PromptTopic(topics, contextData), SummarySources(sources))
  }

  /** `create_context_summary(context_data, topic, top_n_per_source=5, use_ai_summary=True)`. */
  method Summarise(contextData: IdeasData, topic: string, ai: Option<string>) returns (summary: string)
    ensures MadeSummary(contextData, topic, ai, summary)
    ensures ContextSummary.TopicPrefix + topic + "\n" <= summary
  {
    var r, y, n, correlations, shown, overall;
    summary, r, y, n, correlations, shown, overall := ContextSummary.CreateContextSummary(
      contextData.reddit.items, contextData.youtube.items, contextData.googleNews.items, topic, 5, true, ai);
    ghost var inputs := ContextSummary.SummaryInputs(r, y, n, correlations, shown, overall);
    assert ContextSummary.SummaryInputsOf(
      contextData.reddit.items, contextData.youtube.items, contextData.googleNews.items, topic, 5, inputs);
    ContextSummary.SummaryStartsWithTopic(topic, true, ai, r, y, n, correlations.correlations, shown, overall);
  }

  /**
   * `format_context_for_prompt`. A live, non-empty cached summary is used
   * as it is; otherwise a summary is made and stored for an hour.
   * `summaryRaises` says that making the summary raised, in which case the
   * simple summary is used and nothing is stored.
   */
  method FormatContextForPrompt(contextData: IdeasData, query: string, topics: seq<string>, sources: seq<string>,
                                now: real, ai: Option<string>, summaryRaises: bool,
                                cache: Cache.ContextCache<CachedValue>)
    returns (prompt: string)
    requires cache.Valid() && WellTyped(cache.entries)
    modifies cache
    ensures cache.Valid() && WellTyped(cache.entries)
    ensures Fresh(old(cache.entries), SummaryKeyFor(topics, sources, contextData), now) ==>
              cache.hits == old(cache.hits) + 1 && cache.misses == old(cache.misses)
    ensures !Fresh(old(cache.entries), SummaryKeyFor(topics, sources, contextData), now) ==>
              cache.hits == old(cache.hits) && cache.misses == old(cache.misses) + 1
    ensures CacheHit(old(cache.entries), SummaryKeyFor(topics, sources, contextData), now) ==>
              && prompt == EnrichedPrompt(old(cache.entries)[SummaryKeyFor(topics, sources, contextData)].value.text, query)
              && cache.entries == old(cache.entries)
    ensures !CacheHit(old(cache.entries), SummaryKeyFor(topics, sources, contextData), now) && !summaryRaises ==>
              var key := SummaryKeyFor(topics, sources, contextData);
              && key in cache.entries && cache.entries[key].value.SummaryText?
              && cache.entries[key].timestamp == now && cache.entries[key].ttl == ContextTtl
              && Cache.Retained(cache.entries - {key}, old(cache.entries))
              && prompt == EnrichedPrompt(cache.entries[key].value.text, query)
              && ContextSummary.TopicPrefix + PromptTopic(topics, contextData) + "\n" <= cache.entries[key].value.text
    ensures !CacheHit(old(cache.entries), SummaryKeyFor(topics, sources, contextData), now) && summaryRaises ==>
              && prompt == EnrichedPrompt(SimpleSummary(contextData.topic, SourcesOfIdeas(contextData)), query)
              && Cache.Retained(cache.entries, old(cache.entries))
    ensures ContextLabel <= prompt && Contains(prompt, QueryLabel + query) && |prompt| > |query|
    ensures !CacheHit(old(cache.entries), SummaryKeyFor(topics, sources, contextData), now) && !summaryRaises ==>
              var key := SummaryKeyFor(topics, sources, contextData);
              key in cache.entries && MadeSummary(contextData, PromptTopic(topics, contextData), ai, cache.entries[key].value.text)
  {
    var topic := PromptTopic(topics, contextData);
    var chosen := SummarySources(sources);
    var contextSummary := CachedSummary(contextData, topic, chosen, now, ai, summaryRaises, cache);
    prompt := EnrichedPrompt(contextSummary, query);
    EnrichedPromptShape(contextSummary, query);
  }

  /** The summary cache read and, on a miss, the summary made and stored, for a topic and its sources. */
  method CachedSummary(contextData: IdeasData, topic: string, chosen: seq<string>, now: real, ai: Option<string>,
                       summaryRaises: bool, cache: Cache.ContextCache<CachedValue>)
    returns (contextSummary: string)
    requires cache.Valid() && WellTyped(cache.entries)
    modifies cache
    ensures cache.Valid() && WellTyped(cache.entries)
    ensures Fresh(old(cache.entries), Cache.SummaryKey(topic, chosen), now) ==>
              cache.hits == old(cache.hits) + 1 && cache.misses == old(cache.misses)
    ensures !Fresh(old(cache.entries), Cache.SummaryKey(topic, chosen), now) ==>
              cache.hits == old(cache.hits) && cache.misses == old(cache.misses) + 1
    ensures CacheHit(old(cache.entries), Cache.SummaryKey(topic, chosen), now) ==>
              && contextSummary == old(cache.entries)[Cache.SummaryKey(topic, chosen)].value.text
              && cache.entries == old(cache.entries)
    ensures !CacheHit(old(cache.entries), Cache.SummaryKey(topic, chosen), now) && !summaryRaises ==>
              var key := Cache.SummaryKey(topic, chosen);
              && key in cache.entries && cache.entries[key] == Cache.Entry(SummaryText(contextSummary), now, ContextTtl)
              && Cache.Retained(cache.entries - {key}, old(cache.entries))
              && ContextSummary.TopicPrefix + topic + "\n" <= contextSummary
    ensures !CacheHit(old(cache.entries), Cache.SummaryKey(topic, chosen), now) && summaryRaises ==>
              && contextSummary == SimpleSummary(contextData.topic, SourcesOfIdeas(contextData))
              && Cache.Retained(cache.entries, old(cache.entries))
    ensures !CacheHit(old(cache.entries), Cache.SummaryKey(topic, chosen), now) && !summaryRaises ==>
              MadeSummary(contextData, topic, ai, contextSummary)
  {
    var summaryCacheKey := Cache.SummaryKey(topic, chosen);
    ghost var before := cache.entries;
    var cached := cache.Get(summaryCacheKey, now);
    if cached.Some? && Truthy(cached.value) {
      assert summaryCacheKey in before && before[summaryCacheKey].value == cached.value;
      contextSummary := cached.value.text;
    } else {
      ghost var afterRead := cache.entries;
      assert Cache.Retained(afterRead, before);
      RetainedWellTyped(afterRead, before);
      contextSummary := SummaryOnMiss(contextData, topic, chosen, now, ai, summaryRaises, cache);
      if !summaryRaises {
        assert Cache.Retained(cache.entries - {summaryCacheKey}, before);
      }
    }
  }

  /** The summary when the cache has none: made and stored, or the simple one when making it raises. */
  method SummaryOnMiss(contextData: IdeasData, topic: string, sources: seq<string>, now: real, ai: Option<string>,
                       summaryRaises: bool, cache: Cache.ContextCache<CachedValue>)
    returns (contextSummary: string)
    requires cache.Valid() && WellTyped(cache.entries)
    modifies cache
    ensures cache.Valid() && WellTyped(cache.entries)
    ensures cache.hits == old(cache.hits) && cache.misses == old(cache.misses)
    ensures summaryRaises ==>
              contextSummary == SimpleSummary(contextData.topic, SourcesOfIdeas(contextData)) && unchanged(cache)
    ensures !summaryRaises ==>
              var key := Cache.SummaryKey(topic, sources);
              && key in cache.entries && cache.entries[key] == Cache.Entry(SummaryText(contextSummary), now, ContextTtl)
              && Cache.Retained(cache.entries - {key}, old(cache.entries))
              && ContextSummary.TopicPrefix + topic + "\n" <= contextSummary
    ensures !summaryRaises ==> MadeSummary(contextData, topic, ai, contextSummary)
  {
    if summaryRaises {
      contextSummary := GenerateSimpleSummary(contextData.topic, SourcesOfIdeas(contextData));
    } else {
      var key := Cache.SummaryKey(topic, sources);
      contextSummary := Summarise(contextData, topic, ai);
      ghost var before := cache.entries;
      cache.Set(key, SummaryText(contextSummary), ContextTtl, now);
      KeyPrefixes(topic, sources);
      StoredWellTyped(cache.entries, before, key);
    }
  }

  /** A topic key is not a summary key. */
  lemma TopicKeyPrefixes(topic: string, sources: seq<string>)
    ensures !(Cache.SummaryPrefix <= Cache.TopicKey(topic, sources))
  {
    assert Cache.TopicKey(topic, sources)[0] == 't';
  }

  /** A summary key is not a topic key. */
  lemma KeyPrefixes(topic: string, sources: seq<string>)
    ensures !(Cache.TopicPrefix <= Cache.SummaryKey(topic, sources))
  {
    assert Cache.SummaryKey(topic, sources)[0] == 'c';
  }

  // ---------------------------------------------------------------------
  // enrich_query_with_context
  // ---------------------------------------------------------------------

  /**
   * `enrich_query_with_context`. `given` is the analysis the caller passes,
   * if any; without one the query is analysed (`openRouterConfigured` and
   * `aiResult` stand for the model call) and the analysis is counted. The
   * query comes back unchanged when the intent needs no context or no
   * context arrives; otherwise the enriched prompt comes back and the fetch
   * is counted.
   */
  method EnrichQueryWithContext(query: string, given: Option<QueryAnalyzer.QueryAnalysis>,
                                openRouterConfigured: bool, aiResult: Option<seq<(string, Json)>>,
                                now: real, fetch: Fetcher, ai: Option<string>, summaryRaises: bool,
                                cache: Cache.ContextCache<CachedValue>, mw: Middleware.ContextMiddleware)
    returns (enriched: string, ghost analysis: QueryAnalyzer.QueryAnalysis)
    requires given.Some? ==> AllStrings(given.value.topics)
    requires given.None? && aiResult.Some? ==> QueryAnalyzer.StringTopicsField(aiResult.value)
    requires cache.Valid() && WellTyped(cache.entries)
    modifies cache, mw
    ensures cache.Valid() && WellTyped(cache.entries)
    ensures enriched == query || (ContextLabel <= enriched && Contains(enriched, QueryLabel + query))
    ensures mw.stats.queriesAnalyzed == old(mw.stats.queriesAnalyzed) + (if given.None? then 1 else 0)
    ensures mw.stats.contextFetches == old(mw.stats.contextFetches) + (if enriched != query then 1 else 0)
    ensures mw.stats.promptEnrichments == old(mw.stats.promptEnrichments)
    ensures mw.stats.resourceAccesses == old(mw.stats.resourceAccesses)
    ensures given.Some? && !QueryAnalyzer.DetermineContextNeeds(given.value.intent, given.value.topics).shouldFetch ==>
              enriched == query && unchanged(cache) && unchanged(mw)
    ensures given.Some? ==> analysis == given.value
    ensures given.None? && !(openRouterConfigured && aiResult.Some? && !QueryAnalyzer.ScalarSources(aiResult.value)) ==>
              && analysis.intent == QueryAnalyzer.RuleIntent(query)
              && AllStrings(analysis.topics) && QueryAnalyzer.TopicsOf(query, Unstring(analysis.topics))
    ensures given.None? && openRouterConfigured && aiResult.Some? && !QueryAnalyzer.ScalarSources(aiResult.value) ==>
              exists extracted :: QueryAnalyzer.TopicsOf(query, extracted)
                && QueryAnalyzer.Normalized(aiResult.value, query, extracted) == Success(analysis)
    ensures !QueryAnalyzer.DetermineContextNeeds(analysis.intent, analysis.topics).shouldFetch || analysis.topics == [] ==>
              enriched == query
    ensures QueryAnalyzer.DetermineContextNeeds(analysis.intent, analysis.topics).shouldFetch && analysis.topics != [] ==>
              && enriched != query && ContextLabel <= enriched && Contains(enriched, QueryLabel + query)
              && mw.stats.contextFetches == old(mw.stats.contextFetches) + 1
  {
    var current;
    if given.None? {
      current := QueryAnalyzer.AnalyzeQueryIntent(query, true, openRouterConfigured, aiResult);
      mw.TrackQueryAnalysis();
    } else {
      current := given.value;
    }
    analysis := current;
    enriched := EnrichWithAnalysis(query, current, now, fetch, ai, summaryRaises, cache, mw);
  }

  /** The part of `enrich_query_with_context` after the analysis: decide, fetch, and format. */
  method EnrichWithAnalysis(query: string, analysis: QueryAnalyzer.QueryAnalysis, now: real, fetch: Fetcher,
                            ai: Option<string>, summaryRaises: bool,
                            cache: Cache.ContextCache<CachedValue>, mw: Middleware.ContextMiddleware)
    returns (enriched: string)
    requires AllStrings(analysis.topics)
    requires cache.Valid() && WellTyped(cache.entries)
    modifies cache, mw
    ensures cache.Valid() && WellTyped(cache.entries)
    ensures !QueryAnalyzer.DetermineContextNeeds(analysis.intent, analysis.topics).shouldFetch || analysis.topics == [] ==>
              enriched == query && unchanged(cache) && unchanged(mw)
    ensures QueryAnalyzer.DetermineContextNeeds(analysis.intent, analysis.topics).shouldFetch && analysis.topics != [] ==>
              && enriched != query && ContextLabel <= enriched && Contains(enriched, QueryLabel + query)
    ensures mw.stats.queriesAnalyzed == old(mw.stats.queriesAnalyzed)
    ensures mw.stats.contextFetches == old(mw.stats.contextFetches) + (if enriched != query then 1 else 0)
    ensures mw.stats.promptEnrichments == old(mw.stats.promptEnrichments)
    ensures mw.stats.resourceAccesses == old(mw.stats.resourceAccesses)
  {
    var contextNeeds := QueryAnalyzer.DetermineContextNeeds(analysis.intent, analysis.topics);
    if !contextNeeds.shouldFetch || contextNeeds.sources == [] {
      return query;
    }
    var topics := Unstring(analysis.topics);
    var contextData := FetchRelevantContext(topics, contextNeeds.sources, contextNeeds.limit, now, fetch, cache, mw);
    if contextData.None? {
      return query;
    }
    mw.TrackContextFetch();
    enriched := FormatContextForPrompt(contextData.value, query, topics, analysis.contextSources, now, ai,
                                       summaryRaises, cache);
  }

  // ---------------------------------------------------------------------
  // _generate_simple_summary
  // ---------------------------------------------------------------------

  function UpperChar(c: char): char
  {
    if IsLowerLetter(c) then (c as int - 'a' as int + 'A' as int) as char else c
  }

  /** `s.upper()` on the ASCII letters. */
  function Upper(s: string): (r: string)
    ensures |r| == |s|
    ensures forall i :: 0 <= i < |s| ==> r[i] == UpperChar(s[i])
  {
    seq(|s|, i requires 0 <= i < |s| => UpperChar(s[i]))
  }

  /** The first line of the simple summary, before the topic. */
  const TopicLinePrefix := "Trending topics about: "

  /** A source's heading line: its name upper-cased after a blank line. */
  function Heading(name: string): (h: string)
    ensures |h| == |name| + 2 && h[0] == '\n' && h[|h| - 1] == ':'
    ensures forall i :: 0 <= i < |name| ==> h[i + 1] == UpperChar(name[i])
  {
    "\n" + Upper(name) + ":"
  }

  const RedditHeading := "\nREDDIT:"

  lemma RedditHeadingSpelled()
    ensures Heading("reddit") == RedditHeading
  {
    var h := Heading("reddit");
    assert h[1] == 'R' && h[2] == 'E' && h[3] == 'D' && h[4] == 'D' && h[5] == 'I' && h[6] == 'T';
  }

  /** One listed item: its 1-based number and its title, "Unknown" when it has none. */
  function TitleLine(i: nat, item: Item): string
  {
    "  " + NatToString(i) + ". " + item.title.GetOr("Unknown")
  }

  function TitleLines(items: seq<Item>): (r: seq<string>)
    ensures |r| == |items|
    ensures forall j :: 0 <= j < |items| ==> r[j] == TitleLine(j + 1, items[j])
  {
    if items == [] then [] else TitleLines(items[..|items| - 1]) + [TitleLine(|items|, items[|items| - 1])]
  }

  lemma TitleLinesStep(items: seq<Item>, i: nat)
    requires i < |items|
    ensures TitleLines(items[..i + 1]) == TitleLines(items[..i]) + [TitleLine(i + 1, items[i])]
  {
    assert items[..i + 1][..i] == items[..i];
  }

  /** The lines of one source: nothing without items, else its heading and its first three titles. */
  function SourceParts(name: string, items: seq<Item>): (r: seq<string>)
    ensures items == [] ==> r == []
    ensures items != [] ==> |r| == 1 + Min(3, |items|) && r[0] == Heading(name)
    ensures forall j :: 0 <= j < |r| - 1 ==> r[j + 1] == TitleLine(j + 1, items[j])
  {
    if items == [] then [] else [Heading(name)] + TitleLines(Take(items, 3))
  }

  function SimpleSummaryParts(topic: string, sources: seq<(string, seq<Item>)>): (r: seq<string>)
    ensures r != [] && r[0] == TopicLinePrefix + topic
  {
    if sources == [] then [TopicLinePrefix + topic]
    else
      var last := sources[|sources| - 1];
      SimpleSummaryParts(topic, sources[..|sources| - 1]) + SourceParts(last.0, last.1)
  }

  function SimpleSummary(topic: string, sources: seq<(string, seq<Item>)>): string
  {
    Join("\n", SimpleSummaryParts(topic, sources))
  }

  /**
   * `_generate_simple_summary` over the topic and the `sources` mapping
   * (name to items, in the mapping's order): the nested loops building the
   * lines, joined by newlines.
   */
  method GenerateSimpleSummary(topic: string, sources: seq<(string, seq<Item>)>) returns (summary: string)
    ensures summary == SimpleSummary(topic, sources)
  {
    var summaryParts := [TopicLinePrefix + topic];
    var j := 0;
    while j < |sources|
      invariant 0 <= j <= |sources|
      invariant summaryParts == SimpleSummaryParts(topic, sources[..j])
    {
      assert sources[..j + 1][..j] == sources[..j];
      summaryParts := AppendSourceParts(summaryParts, sources[j].0, sources[j].1);
      j := j + 1;
    }
    assert sources[..j] == sources;
    summary := Join("\n", summaryParts);
  }

  /** The inner loop: one source's heading and numbered titles appended to the lines so far. */
  method AppendSourceParts(parts: seq<string>, sourceName: string, items: seq<Item>) returns (summaryParts: seq<string>)
    ensures summaryParts == parts + SourceParts(sourceName, items)
  {
    summaryParts := parts;
    if items != [] {
      summaryParts := summaryParts + [Heading(sourceName)];
      summaryParts := AppendTitleLines(summaryParts, Take(items, 3));
    }
  }

  /** The numbered title lines of `shown`, appended one by one. */
  method AppendTitleLines(parts: seq<string>, shown: seq<Item>) returns (summaryParts: seq<string>)
    ensures summaryParts == parts + TitleLines(shown)
  {
    summaryParts := parts;
    var i := 0;
    while i < |shown|
      invariant 0 <= i <= |shown|
      invariant summaryParts == parts + TitleLines(shown[..i])
    {
      TitleLinesStep(shown, i);
      summaryParts := summaryParts + [TitleLine(i + 1, shown[i])];
      i := i + 1;
    }
    assert shown[..i] == shown;
  }

  /** The simple summary opens with its topic line. */
  lemma SimpleSummaryStartsWithTopic(topic: string, sources: seq<(string, seq<Item>)>)
    ensures TopicLinePrefix + topic <= SimpleSummary(topic, sources)
  {
    var parts := SimpleSummaryParts(topic, sources);
    if |parts| > 1 {
      assert SimpleSummary(topic, sources) == parts[0] + "\n" + Join("\n", parts[1..]);
    }
  }

  /** Number of lines: the topic line, and per source with items a heading and at most three titles. */
  function LineCount(sources: seq<(string, seq<Item>)>): nat
  {
    if sources == [] then 1
    else
      var last := sources[|sources| - 1];
      LineCount(sources[..|sources| - 1]) + (if last.1 == [] then 0 else 1 + Min(3, |last.1|))
  }

  lemma {:induction false} SimpleSummaryLineCount(topic: string, sources: seq<(string, seq<Item>)>)
    ensures |SimpleSummaryParts(topic, sources)| == LineCount(sources)
    ensures LineCount(sources) <= 1 + 4 * |sources|
    decreases |sources|
  {
    if sources != [] {
      SimpleSummaryLineCount(topic, sources[..|sources| - 1]);
    }
  }

  // ---------------------------------------------------------------------
  // The sources the simple summary reads from fetched data
  // ---------------------------------------------------------------------

  /** The three sources of the fetched data, in the order `generate_ideas` fills them. */
  function SourcesOfIdeas(d: IdeasData): (r: seq<(string, seq<Item>)>)
    ensures |r| == 3 && r[0].1 == d.reddit.items && r[1].1 == d.youtube.items && r[2].1 == d.googleNews.items
  {
    [("reddit", d.reddit.items), ("youtube", d.youtube.items), ("google_news", d.googleNews.items)]
  }

  /**
   * Read from the three sources, the simple summary lists a source exactly
   * when it delivered items, under its upper-cased name, with at most
   * three titles.
   */
  lemma SimpleSummaryOfIdeasListsSources(d: IdeasData)
    ensures var parts := SimpleSummaryParts(d.topic, SourcesOfIdeas(d));
      && (RedditHeading in parts <==> d.reddit.items != [])
      && |parts| == 1 + SourceLines(d.reddit.items) + SourceLines(d.youtube.items) + SourceLines(d.googleNews.items)
  {
    IdeasSummaryParts(d);
    RedditListed(d);
    IdeasSummaryLength(d);
  }

  lemma RedditListed(d: IdeasData)
    ensures var pr := SourceParts("reddit", d.reddit.items);
      RedditHeading in [TopicLinePrefix + d.topic] + pr + SourceParts("youtube", d.youtube.items)
                       + SourceParts("google_news", d.googleNews.items)
      <==> d.reddit.items != []
  {
    var pr := SourceParts("reddit", d.reddit.items);
    HeadingsDiffer(d.topic, d.youtube.items, d.googleNews.items);
    if d.reddit.items != [] {
      RedditHeadingSpelled();
      assert pr[0] == RedditHeading;
    }
  }

  lemma IdeasSummaryLength(d: IdeasData)
    ensures |[TopicLinePrefix + d.topic] + SourceParts("reddit", d.reddit.items) + SourceParts("youtube", d.youtube.items)
             + SourceParts("google_news", d.googleNews.items)|
            == 1 + SourceLines(d.reddit.items) + SourceLines(d.youtube.items) + SourceLines(d.googleNews.items)
  {
  }

  /** The simple summary of the three sources, unfolded. */
  lemma IdeasSummaryParts(d: IdeasData)
    ensures SimpleSummaryParts(d.topic, SourcesOfIdeas(d))
            == [TopicLinePrefix + d.topic] + SourceParts("reddit", d.reddit.items)
               + SourceParts("youtube", d.youtube.items) + SourceParts("google_news", d.googleNews.items)
  {
    var s := SourcesOfIdeas(d);
    var head := [TopicLinePrefix + d.topic];
    var pr := SourceParts("reddit", d.reddit.items);
    var py := SourceParts("youtube", d.youtube.items);
    var pn := SourceParts("google_news", d.googleNews.items);
    assert s[..1][..0] == [] && s[..1][0] == s[0];
    assert SimpleSummaryParts(d.topic, s[..1]) == head + pr;
    assert s[..2][..1] == s[..1] && s[..2][1] == s[1];
    assert SimpleSummaryParts(d.topic, s[..2]) == head + pr + py;
    assert s[..3] == s && s[..3][..2] == s[..2];
  }

  function SourceLines(items: seq<Item>): nat
  {
    if items == [] then 0 else 1 + Min(3, |items|)
  }

  /** Only the Reddit heading reads "\nREDDIT:": not the topic line, the other headings or a title line. */
  lemma HeadingsDiffer(topic: string, youtube: seq<Item>, news: seq<Item>)
    ensures RedditHeading != TopicLinePrefix + topic
    ensures RedditHeading !in SourceParts("youtube", youtube) && RedditHeading !in SourceParts("google_news", news)
  {
    assert (TopicLinePrefix + topic)[0] == 'T';
    assert RedditHeading[0] == '\n' && RedditHeading[1] == 'R';
    NotRedditSource("youtube", youtube);
    NotRedditSource("google_news", news);
  }

  /** A source whose name does not start with 'r' has no line reading "\nREDDIT:". */
  lemma NotRedditSource(name: string, items: seq<Item>)
    requires name != [] && UpperChar(name[0]) != 'R'
    ensures RedditHeading !in SourceParts(name, items)
  {
    var parts := SourceParts(name, items);
    assert RedditHeading[0] == '\n' && RedditHeading[1] == 'R';
    forall j | 0 <= j < |parts| ensures parts[j] != RedditHeading {
      if j > 0 {
        assert parts[j][0] == ' ';
      } else {
        assert parts[j][1] == UpperChar(name[0]);
      }
    }
  }

  // ---------------------------------------------------------------------
  // should_auto_fetch_context
  // ---------------------------------------------------------------------

  const AutoFetchIntents: seq<string> := ["trending_topics", "script_generation", "video_creation", "general_query"]

  /** `should_auto_fetch_context`. */
  function ShouldAutoFetchContext(intent: string): (r: bool)
    ensures r <==> intent == "trending_topics" || intent == "script_generation" || intent == "video_creation"
                   || intent == "general_query"
  {
    intent in AutoFetchIntents
  }

  /**
   * For the analyser's intents, auto-fetching agrees with the context
   * table: the intents that always fetch are auto-fetched, the two that
   * never need context are not, and a general query is auto-fetched
   * although the table fetches for it only when topics were found.
   */
  lemma AutoFetchAgreesWithContextNeeds(i: QueryAnalyzer.Intent, topics: seq<Json>)
    ensures QueryAnalyzer.NeedsContext(i) ==> ShouldAutoFetchContext(i.Name())
                                              && QueryAnalyzer.DetermineContextNeeds(i, topics).shouldFetch
    ensures QueryAnalyzer.NeedsNoContext(i) ==> !ShouldAutoFetchContext(i.Name())
                                                && !QueryAnalyzer.DetermineContextNeeds(i, topics).shouldFetch
    ensures i == QueryAnalyzer.GeneralQuery ==> ShouldAutoFetchContext(i.Name())
  {
    QueryAnalyzer.ParseIntentName(i);
  }
}
