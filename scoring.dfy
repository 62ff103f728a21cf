/**
 * Multi-factor scoring of content items and ranking by the composite score
 * (relevance, engagement, recency and credibility, weighted 40/30/20/10 by
 * default), as `src/tools/context_processor.py` computes them.
 */
module Scoring {
  import opened Wrappers
  import opened Text
  import opened Sequences
  import opened ContentItems

  function MinReal(a: real, b: real): real { if a <= b then a else b }
  function MaxReal(a: real, b: real): real { if a >= b then a else b }

  // ---------------------------------------------------------------------
  // Relevance
  // ---------------------------------------------------------------------

  /** The lower-cased text an item is searched in for topic words. */
  function SearchText(item: Item): string
  {
    match item
    case RedditPost(_, _, _, _, _, _, _, _, _, _) => Lower(Title(item) + " " + item.selftext)
    case YouTubeVideo(_, _, _, _, _, _, _) =>
      Lower(Title(item) + " " + item.description)
      + (if item.tags != [] then " " + Lower(Join(" ", item.tags)) else "")
    case NewsArticle(_, _, _, _, _, _, _, _) => Lower(Title(item) + " " + item.description)
  }

  /** `set(topic.lower().split())`. */
  function TopicWords(topic: string): set<string>
  {
    Elements(Words(Lower(topic)))
  }

  /** The topic words that occur somewhere in `text`. */
  function MatchedWords(topic: string, text: string): set<string>
  {
    set w | w in TopicWords(topic) && Contains(text, w)
  }

  /**
   * The share of topic words found in the item, as a percentage, plus 20 when
   * the whole lower-cased topic occurs in it, never above 100.
   */
  function RelevanceScore(item: Item, topic: string): (r: real)
    ensures 0.0 <= r <= 100.0
  {
    var text := SearchText(item);
    var share := |MatchedWords(topic, text)| as real / Max(|TopicWords(topic)|, 1) as real * 100.0;
    var boosted := if Contains(text, Lower(topic)) then MinReal(100.0, share + 20.0) else share;
    MinReal(100.0, boosted)
  }

  /** An item containing the whole topic phrase contains every topic word, so it scores 100. */
  lemma RelevanceOfExactPhrase(item: Item, topic: string)
    requires TopicWords(topic) != {}
    requires Contains(SearchText(item), Lower(topic))
    ensures RelevanceScore(item, topic) == 100.0
  {
    var text := SearchText(item);
    WordsOccur(Lower(topic));
    forall w | w in TopicWords(topic) ensures Contains(text, w) {
      ContainsTransitive(text, Lower(topic), w);
    }
    assert MatchedWords(topic, text) == TopicWords(topic);
  }

  /** An item sharing no word with the topic, and not containing the phrase, scores 0. */
  lemma RelevanceWithoutMatches(item: Item, topic: string)
    requires forall w :: w in TopicWords(topic) ==> !Contains(SearchText(item), w)
    requires !Contains(SearchText(item), Lower(topic))
    ensures RelevanceScore(item, topic) == 0.0
  {
    assert MatchedWords(topic, SearchText(item)) == {};
  }

  /** The empty topic has no words but occurs everywhere, so every item scores 20. */
  lemma RelevanceOfEmptyTopic(item: Item)
    ensures RelevanceScore(item, "") == 20.0
  {
    assert Words(Lower("")) == [];
    assert TopicWords("") == {};
    assert "" <= SearchText(item);
  }

  // ---------------------------------------------------------------------
  // Engagement, recency, credibility
  // ---------------------------------------------------------------------

  function EngagementScore(item: Item): real
  {
    match item
    case RedditPost(_, _, _, _, _, _, _, _, _, _) =>
      if item.engagementScore.Some? then MinReal(100.0, item.engagementScore.value)
      else MinReal(100.0, item.score as real * 0.4 + item.numComments as real * 0.6)
    case YouTubeVideo(_, _, _, _, _, _, _) =>
      if item.engagementRatio.Some? then MinReal(100.0, item.engagementRatio.value * 10.0)
      else if item.viewCount > 1000000 then 100.0
      else if item.viewCount > 100000 then 75.0
      else if item.viewCount > 10000 then 50.0
      else 25.0
    case NewsArticle(_, _, _, _, _, _, _, _) => item.credibilityScore.GetOr(0.5) * 100.0
  }

  /** The date part of an RFC 3339 time stamp: the text before the first 'T', when there is one. */
  function DatePart(publishedAt: string): string
  {
    if 'T' in publishedAt then SplitOn(publishedAt, 'T')[0] else publishedAt
  }

  function RecencyScore(item: Item): real
  {
    match item
    case RedditPost(_, _, _, _, _, _, _, _, _, _) =>
      if item.recencyScore.Some? then item.recencyScore.value
      else MaxReal(0.0, 100.0 - item.ageHours.GetOr(720.0) / 24.0)
    case YouTubeVideo(_, _, _, _, _, _, _) =>
      if item.publishedAt != "" && DatePart(item.publishedAt) != "" then 75.0 else 50.0
    case NewsArticle(_, _, _, _, _, _, _, _) => item.recencyScore.GetOr(50.0)
  }

  /**
   * Without a stored score, a post's recency falls as it ages (missing age
   * counts as 720 hours) and never drops below zero.
   */
  lemma RedditRecencyNonIncreasing(a: Item, b: Item)
    requires a.RedditPost? && b.RedditPost? && a.recencyScore.None? && b.recencyScore.None?
    requires a.ageHours.GetOr(720.0) <= b.ageHours.GetOr(720.0)
    ensures 0.0 <= RecencyScore(b) <= RecencyScore(a)
    ensures a.ageHours.GetOr(720.0) < b.ageHours.GetOr(720.0) && RecencyScore(b) > 0.0 ==>
              RecencyScore(b) < RecencyScore(a)
  {
  }

  /**
   * A video counts as recent exactly when its time stamp is non-empty and does
   * not start with 'T' (a leading 'T' leaves an empty date part).
   */
  lemma YouTubeRecencyIff(item: Item)
    requires item.YouTubeVideo?
    ensures RecencyScore(item) == 75.0 <==> item.publishedAt != "" && item.publishedAt[0] != 'T'
    ensures RecencyScore(item) == 75.0 || RecencyScore(item) == 50.0
  {
    var p := item.publishedAt;
    if p != "" && 'T' in p {
      assert SplitOn(p, 'T')[0] == "" <==> p[0] == 'T';
    }
  }

  /** The channels the code treats as major (matched as substrings of the lower-cased channel title). */
  const MajorChannels: seq<string> := ["ted", "ted-ed", "veritasium", "kurzgesagt", "vsauce", "national geographic"]

  predicate MentionsMajorChannel(channel: string)
  {
    exists i :: 0 <= i < |MajorChannels| && Contains(channel, MajorChannels[i])
  }

  function CredibilityScore(item: Item): real
  {
    match item
    case RedditPost(_, _, _, _, _, _, _, _, _, _) => item.upvoteRatio.GetOr(0.5) * 100.0
    case YouTubeVideo(_, _, _, _, _, _, _) =>
      if MentionsMajorChannel(Lower(item.channelTitle.GetOr(""))) then 90.0 else 70.0
    case NewsArticle(_, _, _, _, _, _, _, _) =>
      if item.credibilityScore.Some? then item.credibilityScore.value * 100.0 else 50.0
  }

  /** Any channel whose title merely contains "ted" (for example "Trusted Reviews") counts as major. */
  lemma SubstringChannelMatch(item: Item)
    requires item.YouTubeVideo? && item.channelTitle == Some("Trusted Reviews")
    ensures CredibilityScore(item) == 90.0
  {
    var channel := Lower("Trusted Reviews");
    assert channel == "trusted reviews";
    assert channel[4..] == "ted reviews";
    ContainsAt(channel, "ted", 4);
    assert Contains(channel, MajorChannels[0]);
  }

  /**
   * The metric values the connectors produce lie in these ranges; the
   * scoring functions do not clamp their inputs, so their 0-100 range
   * depends on it.
   */
  predicate MetricsInRange(item: Item)
  {
    match item
    case RedditPost(_, _, _, _, _, _, _, _, _, _) =>
      (item.engagementScore.Some? ==> item.engagementScore.value >= 0.0)
      && (item.engagementScore.None? ==> item.score >= 0 && item.numComments >= 0)
      && (item.recencyScore.Some? ==> 0.0 <= item.recencyScore.value <= 100.0)
      && (item.ageHours.Some? ==> item.ageHours.value >= 0.0)
      && (item.upvoteRatio.Some? ==> 0.0 <= item.upvoteRatio.value <= 1.0)
    case YouTubeVideo(_, _, _, _, _, _, _) =>
      item.engagementRatio.Some? ==> item.engagementRatio.value >= 0.0
    case NewsArticle(_, _, _, _, _, _, _, _) =>
      (item.credibilityScore.Some? ==> 0.0 <= item.credibilityScore.value <= 1.0)
      && (item.recencyScore.Some? ==> 0.0 <= item.recencyScore.value <= 100.0)
  }

  predicate Percentage(x: real) { 0.0 <= x <= 100.0 }

  /** For in-range metrics every component score is a percentage. */
  lemma ComponentsArePercentages(item: Item, topic: string)
    requires MetricsInRange(item)
    ensures Percentage(RelevanceScore(item, topic))
    ensures Percentage(EngagementScore(item))
    ensures Percentage(RecencyScore(item))
    ensures Percentage(CredibilityScore(item))
  {
  }

  // ---------------------------------------------------------------------
  // Composite score
  // ---------------------------------------------------------------------

  datatype Weights = Weights(relevance: real, engagement: real, recency: real, credibility: real)

  const DefaultWeights: Weights := Weights(0.40, 0.30, 0.20, 0.10)

  predicate ConvexWeights(w: Weights)
  {
    w.relevance >= 0.0 && w.engagement >= 0.0 && w.recency >= 0.0 && w.credibility >= 0.0
    && w.relevance + w.engagement + w.recency + w.credibility == 1.0
  }

  datatype Breakdown = Breakdown(relevance: real, engagement: real, recency: real, credibility: real)

  /** `round(x, 2)` on exact reals. */
  function Round2(x: real): (r: real)
    ensures x - 0.005 <= r <= x + 0.005
  {
    RoundHalfEven(x * 100.0) as real / 100.0
  }

  /** Rounding to two decimals keeps a percentage a percentage. */
  lemma Round2Percentage(x: real)
    requires Percentage(x)
    ensures Percentage(Round2(x))
  {
    var m := RoundHalfEven(x * 100.0);
    assert m as real <= 10000.5;
    assert m <= 10000;
  }

  /** The four component scores, before rounding. */
  function RawBreakdown(item: Item, topic: string): Breakdown
  {
    Breakdown(RelevanceScore(item, topic), EngagementScore(item),
              RecencyScore(item), CredibilityScore(item))
  }

  function WeightedSum(b: Breakdown, w: Weights): real
  {
    b.relevance * w.relevance + b.engagement * w.engagement
    + b.recency * w.recency + b.credibility * w.credibility
  }

  function RoundBreakdown(b: Breakdown): Breakdown
  {
    Breakdown(Round2(b.relevance), Round2(b.engagement), Round2(b.recency), Round2(b.credibility))
  }

  predicate PercentageBreakdown(b: Breakdown)
  {
    Percentage(b.relevance) && Percentage(b.engagement)
    && Percentage(b.recency) && Percentage(b.credibility)
  }

  /**
   * Returns the composite score and its breakdown, each rounded to two
   * decimals; the composite is the weighted sum of the unrounded components.
   */
  function CompositeScore(item: Item, topic: string, weights: Option<Weights>): (real, Breakdown)
  {
    var raw := RawBreakdown(item, topic);
    (Round2(WeightedSum(raw, weights.GetOr(DefaultWeights))), RoundBreakdown(raw))
  }

  lemma WeightedTerm(c: real, w: real) returns (t: real)
    requires Percentage(c) && w >= 0.0
    ensures t == c * w
    ensures 0.0 <= t <= 100.0 * w
  {
    t := c * w;
    MulNonNeg(c, w);
    MulNonNeg(100.0 - c, w);
  }

  lemma MulNonNeg(a: real, b: real)
    requires a >= 0.0 && b >= 0.0
    ensures a * b >= 0.0
  {
  }

  /** A convex combination of percentages is a percentage. */
  lemma WeightedSumIsPercentage(b: Breakdown, w: Weights)
    requires PercentageBreakdown(b) && ConvexWeights(w)
    ensures Percentage(WeightedSum(b, w))
  {
    var t1 := WeightedTerm(b.relevance, w.relevance);
    var t2 := WeightedTerm(b.engagement, w.engagement);
    var t3 := WeightedTerm(b.recency, w.recency);
    var t4 := WeightedTerm(b.credibility, w.credibility);
    assert WeightedSum(b, w) == t1 + t2 + t3 + t4;
  }

  /** With in-range metrics and convex weights the composite and every breakdown entry are percentages. */
  lemma CompositeIsPercentage(item: Item, topic: string, weights: Option<Weights>)
    requires MetricsInRange(item)
    requires weights.Some? ==> ConvexWeights(weights.value)
    ensures Percentage(CompositeScore(item, topic, weights).0)
    ensures PercentageBreakdown(CompositeScore(item, topic, weights).1)
  {
    var raw := RawBreakdown(item, topic);
    ComponentsArePercentages(item, topic);
    WeightedSumIsPercentage(raw, weights.GetOr(DefaultWeights));
    Round2Percentage(WeightedSum(raw, weights.GetOr(DefaultWeights)));
    Round2Percentage(raw.relevance);
    Round2Percentage(raw.engagement);
    Round2Percentage(raw.recency);
    Round2Percentage(raw.credibility);
  }

  // ---------------------------------------------------------------------
  // Ranking
  // ---------------------------------------------------------------------

  /** An input item with `_composite_score` and `_score_breakdown` added. */
  datatype ScoredItem = ScoredItem(item: Item, composite: real, breakdown: Breakdown)

  function ScoreItem(item: Item, topic: string): ScoredItem
  {
    var (composite, breakdown) := CompositeScore(item, topic, None);
    ScoredItem(item, composite, breakdown)
  }

  function CompositeKey(s: ScoredItem): real { s.composite }

  function ScoreAll(items: seq<Item>, topic: string): seq<ScoredItem>
  {
    seq(|items|, i requires 0 <= i < |items| => ScoreItem(items[i], topic))
  }

  /** `sorted(scored, key=composite, reverse=True)[:top_n]`. */
  function RankedItems(items: seq<Item>, topic: string, topN: int): seq<ScoredItem>
  {
    Take(SortDesc(ScoreAll(items, topic), CompositeKey), topN)
  }

  /** The first `topN` of the sort are in descending order and keep the input order of equal scores. */
  lemma RankedOrder(scored: seq<ScoredItem>, topN: int)
    ensures var ranked := Take(SortDesc(scored, CompositeKey), topN);
      && (forall i, j :: 0 <= i < j < |ranked| ==> ranked[i].composite >= ranked[j].composite)
      && forall k :: KeyFilter(ranked, CompositeKey, k) <= KeyFilter(scored, CompositeKey, k)
  {
    var ranked := Take(SortDesc(scored, CompositeKey), topN);
    TakeSortedStable(scored, CompositeKey, topN);
    forall i, j | 0 <= i < j < |ranked| ensures ranked[i].composite >= ranked[j].composite {
      assert CompositeKey(ranked[i]) >= CompositeKey(ranked[j]);
    }
  }

  /** The first `topN` of the sort are drawn from the input and outscore everything dropped. */
  lemma RankedDominates(scored: seq<ScoredItem>, topN: int)
    ensures var ranked := Take(SortDesc(scored, CompositeKey), topN);
      && multiset(ranked) <= multiset(scored)
      && forall r, x :: r in ranked && x in multiset(scored) - multiset(ranked) ==> r.composite >= x.composite
  {
    var ranked := Take(SortDesc(scored, CompositeKey), topN);
    TakeSortedDropped(scored, CompositeKey, topN);
    forall r, x | r in ranked && x in multiset(scored) - multiset(ranked) ensures r.composite >= x.composite {
      assert CompositeKey(r) >= CompositeKey(x);
    }
  }

  /** Every ranked entry is an input item carrying its own scores. */
  lemma RankedMembers(items: seq<Item>, topic: string, ranked: seq<ScoredItem>)
    requires multiset(ranked) <= multiset(ScoreAll(items, topic))
    ensures forall r :: r in ranked ==> r.item in items && r == ScoreItem(r.item, topic)
  {
    var scored := ScoreAll(items, topic);
    forall r | r in ranked ensures r.item in items && r == ScoreItem(r.item, topic) {
      assert r in multiset(scored);
      var k :| 0 <= k < |scored| && scored[k] == r;
    }
  }

  /**
   * Scores every item, sorts by composite score (highest first, ties in input
   * order) and keeps the first `topN` (Python slicing, so a negative `topN`
   * drops that many from the end).
   */
  method RankAndFilterItems(items: seq<Item>, topic: string, topN: int) returns (ranked: seq<ScoredItem>)
    ensures ranked == RankedItems(items, topic, topN)
    ensures topN >= 0 ==> |ranked| == Min(topN, |items|)
    ensures forall i, j :: 0 <= i < j < |ranked| ==> ranked[i].composite >= ranked[j].composite
    ensures forall r :: r in ranked ==> r.item in items && r == ScoreItem(r.item, topic)
    ensures multiset(ranked) <= multiset(ScoreAll(items, topic))
    ensures forall r, x :: r in ranked && x in multiset(ScoreAll(items, topic)) - multiset(ranked)
              ==> r.composite >= x.composite
    ensures forall k :: KeyFilter(ranked, CompositeKey, k) <= KeyFilter(ScoreAll(items, topic), CompositeKey, k)
  {
    var scored: seq<ScoredItem> := [];
    for i := 0 to |items|
      invariant |scored| == i
      invariant forall k :: 0 <= k < i ==> scored[k] == ScoreItem(items[k], topic)
    {
      scored := scored + [ScoreItem(items[i], topic)];
    }
    assert scored == ScoreAll(items, topic);
    ranked := Take(SortDesc(scored, CompositeKey), topN);
    RankedOrder(scored, topN);
    RankedDominates(scored, topN);
    RankedMembers(items, topic, ranked);
  }
}
