/**
 * The usage counters kept by the context middleware: how many queries were
 * analysed, contexts fetched, prompts enriched, resources read, and cache
 * hits and misses seen by the enrichment layer. The arguments the tracking
 * calls receive only feed the log, which is not modelled.
 */
module Middleware {
  import Cache

  datatype Counters = Counters(
    queriesAnalyzed: nat,
    contextFetches: nat,
    promptEnrichments: nat,
    resourceAccesses: nat,
    cacheHits: nat,
    cacheMisses: nat)

  const Zero := Counters(0, 0, 0, 0, 0, 0)

  /** `get_stats`: the six counters, the total cache requests and the hit rate. */
  datatype MiddlewareStats = MiddlewareStats(counters: Counters, cacheHitRate: real, totalCacheRequests: nat)

  /** The statistics a set of counters reports. */
  function StatsOf(c: Counters): (s: MiddlewareStats)
    ensures s.counters == c
    ensures s.totalCacheRequests == c.cacheHits + c.cacheMisses
    ensures 0.0 <= s.cacheHitRate <= 1.0
    ensures s.totalCacheRequests == 0 ==> s.cacheHitRate == 0.0
    ensures s.totalCacheRequests > 0 ==> s.cacheHitRate * s.totalCacheRequests as real == c.cacheHits as real
  {
    MiddlewareStats(c, Cache.HitRate(c.cacheHits, c.cacheMisses), c.cacheHits + c.cacheMisses)
  }

  class ContextMiddleware {
    var stats: Counters

    constructor ()
      ensures stats == Zero
    {
      stats := Zero;
    }

    method TrackQueryAnalysis()
      modifies this
      ensures stats == old(stats).(queriesAnalyzed := old(stats).queriesAnalyzed + 1)
    {
      stats := stats.(queriesAnalyzed := stats.queriesAnalyzed + 1);
    }

    method TrackContextFetch()
      modifies this
      ensures stats == old(stats).(contextFetches := old(stats).contextFetches + 1)
    {
      stats := stats.(contextFetches := stats.contextFetches + 1);
    }

    method TrackPromptEnrichment()
      modifies this
      ensures stats == old(stats).(promptEnrichments := old(stats).promptEnrichments + 1)
    {
      stats := stats.(promptEnrichments := stats.promptEnrichments + 1);
    }

    method TrackResourceAccess()
      modifies this
      ensures stats == old(stats).(resourceAccesses := old(stats).resourceAccesses + 1)
    {
      stats := stats.(resourceAccesses := stats.resourceAccesses + 1);
    }

    method TrackCacheHit()
      modifies this
      ensures stats == old(stats).(cacheHits := old(stats).cacheHits + 1)
    {
      stats := stats.(cacheHits := stats.cacheHits + 1);
    }

    method TrackCacheMiss()
      modifies this
      ensures stats == old(stats).(cacheMisses := old(stats).cacheMisses + 1)
    {
      stats := stats.(cacheMisses := stats.cacheMisses + 1);
    }

    function GetStats(): (s: MiddlewareStats)
      reads this
      ensures s == StatsOf(stats)
    {
      StatsOf(stats)
    }

    method ResetStats()
      modifies this
      ensures stats == Zero
    {
      stats := Zero;
    }
  }

  /** A hit raises the hit rate or keeps it at 1; a miss lowers it or keeps it at 0. */
  lemma HitRateMoves(c: Counters)
    ensures StatsOf(c.(cacheHits := c.cacheHits + 1)).cacheHitRate >= StatsOf(c).cacheHitRate
    ensures StatsOf(c.(cacheMisses := c.cacheMisses + 1)).cacheHitRate <= StatsOf(c).cacheHitRate
  {
    var h := c.cacheHits as real;
    var t := (c.cacheHits + c.cacheMisses) as real;
    if t > 0.0 {
      DivMonotone(h, t, h + 1.0, t + 1.0);
      DivMonotone(h, t + 1.0, h, t);
    }
  }

  /** `a / b <= c / d` for positive denominators when `a * d <= c * b`. */
  lemma DivMonotone(a: real, b: real, c: real, d: real)
    requires b > 0.0 && d > 0.0 && a * d <= c * b
    ensures a / b <= c / d
  {
    var x := a / b;
    var y := c / d;
    assert x * b == a && y * d == c;
    assert x * (b * d) <= y * (b * d);
  }
}
