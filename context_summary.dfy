/**
 * `create_context_summary` in `src/tools/context_processor.py`: the text
 * handed to the script generator. It ranks each source's items, analyses
 * them, and renders a fixed sequence of blocks by repeated appends. The
 * generated-summary call is an input: `ai` is what it returned.
 */
module ContextSummary {
  import opened Wrappers
  import opened Text
  import opened Sequences
  import opened ContentItems
  import opened Scoring
  import opened Analysis

  function Repeat(c: char, n: nat): (r: string)
    ensures |r| == n && forall i :: 0 <= i < n ==> r[i] == c
  {
    seq(n, _ => c)
  }

  const Rule: string := Repeat('=', 70)
  const Dashes: string := Repeat('-', 70)

  // The fixed texts of the summary.
  const TopicPrefix: string := "TRENDING TOPICS ANALYSIS: "
  const AiTitle: string := "AI-GENERATED INTELLIGENT SUMMARY:\n"
  const BreakdownTitle: string := "DETAILED BREAKDOWN:\n\n"
  const KeywordsTitle: string := "KEY THEMES & KEYWORDS:\n"
  const TopKeywordsLabel: string := "- Top trending keywords: "
  const CorrelationsLabel: string := "- Cross-source correlations found: "
  const ConnectionsSuffix: string := " connections\n"
  const KeywordsLabel: string := "  Keywords: "
  const SentimentPrefix: string := "Sentiment: "
  const InsightsTitle: string := "CROSS-SOURCE INSIGHTS:\n"
  const OverallPrefix: string := "OVERALL SENTIMENT: "

  /** The heading; the generated summary is placed first when it was requested and came back non-empty. */
  function Header(topic: string, useAi: bool, ai: Option<string>): string
  {
    var title := TopicPrefix + topic + "\n" + Rule + "\n\n";
    if useAi && ai.Some? && ai.value != "" then
      title + AiTitle + Dashes + "\n" + ai.value
      + "\n\n" + Rule + "\n\n" + BreakdownTitle
    else title
  }

  function KeywordsBlock(shown: seq<string>, correlations: nat): string
  {
    KeywordsTitle + TopKeywordsLabel + Join(", ", shown) + "\n"
    + (if correlations > 0 then CorrelationsLabel + NatToString(correlations) + ConnectionsSuffix else "")
    + "\n"
  }

  // ---------------------------------------------------------------------
  // Trend sections
  // ---------------------------------------------------------------------

  /** The three source markers, as the characters the file holds. */
  const EmergingHeading: string := "\U{F0}\U{178}\U{152}\U{B1} EMERGING TRENDS (New topics gaining attention):\n"
  const GainingHeading: string := "\U{F0}\U{178}\U{201C}\U{2C6} GAINING TRACTION (Rapidly growing topics):\n"
  const UniqueHeading: string := "\U{F0}\U{178}\U{2019}\U{A1} UNIQUE ANGLES (Niche perspectives worth exploring):\n"

  function TrendLine(t: TrendInfo): string
  {
    "- " + t.title + "\n"
  }

  function TitleLines(ts: seq<TrendInfo>): string
  {
    if ts == [] then "" else TitleLines(ts[..|ts| - 1]) + TrendLine(ts[|ts| - 1])
  }

  /** An angle's title line, and its insight on a line of its own when it has one. */
  function AngleLine(u: UniqueAngle): string
  {
    "- " + u.title + "\n" + (if u.insight != "" then "  " + u.insight + "\n" else "")
  }

  function AngleLines(us: seq<UniqueAngle>): string
  {
    if us == [] then "" else AngleLines(us[..|us| - 1]) + AngleLine(us[|us| - 1])
  }

  /** Up to two entries per source, then at most five of them. */
  function Collected<T>(r: seq<T>, y: seq<T>, n: seq<T>): seq<T>
  {
    Take(r, 2) + Take(y, 2) + Take(n, 2)
  }

  function TrendSection(heading: string, ts: seq<TrendInfo>): string
  {
    if ts == [] then "" else heading + TitleLines(Take(ts, 5)) + "\n"
  }

  const TrendHeading: string := "TREND ANALYSIS:\n" + Dashes + "\n"

  function TrendBlock(r: TrendReport, y: TrendReport, n: TrendReport): string
  {
    var unique := Collected(r.unique, y.unique, n.unique);
    TrendHeading
    + TrendSection(EmergingHeading, Collected(r.emerging, y.emerging, n.emerging))
    + TrendSection(GainingHeading, Collected(r.gaining, y.gaining, n.gaining))
    + (if unique == [] then "" else UniqueHeading + AngleLines(Take(unique, 5)) + "\n")
  }

  // ---------------------------------------------------------------------
  // Per-source blocks
  // ---------------------------------------------------------------------

  function RedditEntry(k: nat, s: ScoredItem): string
  {
    var item := s.item;
    match item
    case RedditPost(_, _, _, _, _, _, _, _, _, _) =>
      NatToString(k) + ". " + Title(item) + "\n"
      + (if item.selftext != "" then "   Content: " + Take(item.selftext, 150) + "...\n" else "")
      + (if item.topComments != [] then
           "   Top comment: \"" + Take(item.topComments[0].text, 100) + "...\" ("
           + IntToString(item.topComments[0].score) + " upvotes)\n"
         else "")
      + "   Engagement: " + IntToString(item.score) + " upvotes, " + IntToString(item.numComments) + " comments\n"
      + "   Subreddit: r/" + item.subreddit + "\n"
    case _ => NatToString(k) + ". " + Title(item) + "\n"
  }

  function YouTubeEntry(k: nat, s: ScoredItem): string
  {
    var item := s.item;
    match item
    case YouTubeVideo(_, _, _, _, _, _, _) =>
      NatToString(k) + ". " + Title(item) + "\n"
      + (if item.description != "" then "   About: " + Take(item.description, 150) + "...\n" else "")
      + "   Views: " + Grouped(item.viewCount) + " | Engagement: " + FixedPoint(item.engagementRatio.GetOr(0.0), 2) + "%\n"
      + "   Channel: " + item.channelTitle.GetOr("Unknown") + "\n"
      + (if item.tags != [] then "   Tags: " + Join(", ", Take(item.tags, 5)) + "\n" else "")
    case _ => NatToString(k) + ". " + Title(item) + "\n"
  }

  function NewsEntry(k: nat, s: ScoredItem): string
  {
    var item := s.item;
    match item
    case NewsArticle(_, _, _, _, _, _, _, _) =>
      NatToString(k) + ". " + Title(item) + "\n"
      + (if item.description != "" then "   Summary: " + Take(item.description, 150) + "...\n" else "")
      + "   Source: " + item.sourceName.GetOr("Unknown") + (if item.isMajorOutlet then " (Major Outlet)" else "") + "\n"
      + (if item.ageHours.Some? && item.ageHours.value != 0.0 then
           "   Published: " + FixedPoint(item.ageHours.value, 1) + " hours ago\n"
         else "")
    case _ => NatToString(k) + ". " + Title(item) + "\n"
  }

  /** The numbered entries, the k-th (from 1) rendered by `entry(k, item)`. */
  function Entries(xs: seq<ScoredItem>, entry: (nat, ScoredItem) -> string): string
  {
    if xs == [] then "" else Entries(xs[..|xs| - 1], entry) + entry(|xs|, xs[|xs| - 1])
  }

  function SourceBlock(heading: string, ranked: seq<ScoredItem>, entry: (nat, ScoredItem) -> string,
                       sentiment: SentimentLabel): string
  {
    if ranked == [] then ""
    else heading + Entries(Take(ranked, 3), entry) + SentimentLine(sentiment)
  }

  function SentimentLine(sentiment: SentimentLabel): string
  {
    SentimentPrefix + sentiment.Name() + "\n\n"
  }

  const RedditHeading: string := "REDDIT DISCUSSIONS (Community Insights):\n"
  const YouTubeHeading: string := "YOUTUBE TRENDING VIDEOS (Popular Content):\n"
  const NewsHeading: string := "RECENT NEWS (Current Events):\n"

  // ---------------------------------------------------------------------
  // Correlations and overall sentiment
  // ---------------------------------------------------------------------

  /** A correlation's insight line and the line of its first five keywords. */
  function InsightLine(c: Correlation): string
  {
    "- " + c.insight + "\n" + KeywordsLabel + Join(", ", Take(c.keywords, 5)) + "\n"
  }

  function InsightLines(cs: seq<Correlation>): string
  {
    if cs == [] then "" else InsightLines(cs[..|cs| - 1]) + InsightLine(cs[|cs| - 1])
  }

  function InsightsBlock(cs: seq<Correlation>): string
  {
    if cs == [] then "" else InsightsTitle + InsightLines(Take(cs, 3)) + "\n"
  }

  function OverallLine(choice: SentimentLabel): string
  {
    OverallPrefix + choice.Name() + "\n"
  }

  /** `max(set(sentiments), key=sentiments.count)`: one of the labels, none occurring more often. */
  predicate MostFrequentLabel(sentiments: seq<SentimentLabel>, choice: SentimentLabel)
  {
    choice in sentiments && forall l :: l in sentiments ==> Count(sentiments, l) <= Count(sentiments, choice)
  }

  /** The labels of the three sources always have a most frequent one. */
  method ChooseOverall(sentiments: seq<SentimentLabel>) returns (choice: SentimentLabel)
    requires |sentiments| == 3
    ensures MostFrequentLabel(sentiments, choice)
  {
    var candidates := Enumerate(Elements(sentiments));
    choice := sentiments[0];
    for i := 0 to |candidates|
      invariant choice in sentiments
      invariant forall j :: 0 <= j < i ==> Count(sentiments, candidates[j]) <= Count(sentiments, choice)
    {
      if Count(sentiments, candidates[i]) > Count(sentiments, choice) {
        choice := candidates[i];
      }
    }
    forall l | l in sentiments ensures Count(sentiments, l) <= Count(sentiments, choice) {
      assert l in Elements(candidates);
    }
  }

  /** Two sources agreeing outvote the third. */
  lemma MajorityWins(a: SentimentLabel, b: SentimentLabel, choice: SentimentLabel)
    requires a != b
    requires MostFrequentLabel([a, a, b], choice)
    ensures choice == a
  {
    assert Count([a, a, b], a) == 2;
  }

  // ---------------------------------------------------------------------
  // The whole summary
  // ---------------------------------------------------------------------

  function ItemsOf(ranked: seq<ScoredItem>): (r: seq<Item>)
    ensures |r| == |ranked| && forall i :: 0 <= i < |r| ==> r[i] == ranked[i].item
  {
    seq(|ranked|, i requires 0 <= i < |ranked| => ranked[i].item)
  }

  /** What the summary computes for one source. */
  datatype SourceAnalysis = SourceAnalysis(
    ranked: seq<ScoredItem>,
    themes: Themes,
    sentiment: SentimentReport,
    trends: TrendReport)

  /** The source's ranked items and their analyses; the theme keywords are any valid choice. */
  predicate SourceAnalysisOf(items: seq<Item>, topic: string, topN: int, a: SourceAnalysis)
  {
    a.ranked == RankedItems(items, topic, topN)
    && ThemesOf(ItemsOf(a.ranked), a.themes)
    && a.sentiment == SentimentOf(ItemsOf(a.ranked))
    && a.trends == TrendsOf(a.ranked)
  }

  method AnalyseSource(items: seq<Item>, topic: string, topN: int) returns (a: SourceAnalysis)
    ensures SourceAnalysisOf(items, topic, topN, a)
  {
    var ranked := RankAndFilterItems(items, topic, topN);
    var themes := ExtractThemes(ItemsOf(ranked));
    var sentiment := AnalyzeSentiment(ItemsOf(ranked));
    var trends := DetectTrends(ranked);
    a := SourceAnalysis(ranked, themes, sentiment, trends);
  }

  /** `set()` updated with the three keyword lists. */
  function AllKeywords(r: SourceAnalysis, y: SourceAnalysis, n: SourceAnalysis): set<string>
  {
    Elements(r.themes.topKeywords) + Elements(y.themes.topKeywords) + Elements(n.themes.topKeywords)
  }

  /** `list(all_keywords)[:10]`: up to ten distinct keywords from the three sources' lists. */
  predicate ShownKeywords(all: set<string>, shown: seq<string>)
  {
    Distinct(shown) && Elements(shown) <= all && |shown| == Min(10, |all|)
  }

  method ShowKeywords(all: set<string>) returns (shown: seq<string>)
    ensures ShownKeywords(all, shown)
  {
    var listed := Enumerate(all);
    shown := Take(listed, 10);
    TakeDistinct(listed, 10);
  }

  /** The rendered text, given the analyses and the set-derived choices. */
  function SummaryText(topic: string, useAi: bool, ai: Option<string>,
                       r: SourceAnalysis, y: SourceAnalysis, n: SourceAnalysis,
                       correlations: seq<Correlation>, shown: seq<string>, overall: SentimentLabel): string
  {
    Header(topic, useAi, ai)
    + KeywordsBlock(shown, |correlations|)
    + TrendBlock(r.trends, y.trends, n.trends)
    + SourceBlock(RedditHeading, r.ranked, RedditEntry, r.sentiment.sentiment)
    + SourceBlock(YouTubeHeading, y.ranked, YouTubeEntry, y.sentiment.sentiment)
    + SourceBlock(NewsHeading, n.ranked, NewsEntry, n.sentiment.sentiment)
    + InsightsBlock(correlations)
    + OverallLine(overall)
  }

  // ---------------------------------------------------------------------
  // Rendering by appends
  // ---------------------------------------------------------------------

  lemma Assoc3(s: string, a: string, b: string, c: string)
    ensures s + a + b + c == s + (a + b + c)
  {
  }

  lemma Assoc4(s: string, a: string, b: string, c: string, d: string)
    ensures s + a + b + c + d == s + (a + b + c + d)
  {
  }

  method AppendTitles(summary: string, ts: seq<TrendInfo>) returns (s: string)
    ensures s == summary + TitleLines(ts)
  {
    s := summary;
    for i := 0 to |ts|
      invariant s == summary + TitleLines(ts[..i])
    {
      assert ts[..i + 1][..i] == ts[..i];
      s := s + TrendLine(ts[i]);
    }
    assert ts[..|ts|] == ts;
  }

  method AppendAngles(summary: string, us: seq<UniqueAngle>) returns (s: string)
    ensures s == summary + AngleLines(us)
  {
    s := summary;
    for i := 0 to |us|
      invariant s == summary + AngleLines(us[..i])
    {
      assert us[..i + 1][..i] == us[..i];
      s := s + AngleLine(us[i]);
    }
    assert us[..|us|] == us;
  }

  method AppendEntries(summary: string, xs: seq<ScoredItem>, entry: (nat, ScoredItem) -> string) returns (s: string)
    ensures s == summary + Entries(xs, entry)
  {
    s := summary;
    for i := 0 to |xs|
      invariant s == summary + Entries(xs[..i], entry)
    {
      assert xs[..i + 1][..i] == xs[..i];
      s := s + entry(i + 1, xs[i]);
    }
    assert xs[..|xs|] == xs;
  }

  method AppendInsights(summary: string, cs: seq<Correlation>) returns (s: string)
    ensures s == summary + InsightLines(cs)
  {
    s := summary;
    for i := 0 to |cs|
      invariant s == summary + InsightLines(cs[..i])
    {
      assert cs[..i + 1][..i] == cs[..i];
      s := s + InsightLine(cs[i]);
    }
    assert cs[..|cs|] == cs;
  }

  method AppendTrendSection(summary: string, heading: string, ts: seq<TrendInfo>) returns (s: string)
    ensures s == summary + TrendSection(heading, ts)
  {
    s := summary;
    if ts != [] {
      s := s + heading;
      s := AppendTitles(s, Take(ts, 5));
      s := s + "\n";
      Assoc3(summary, heading, TitleLines(Take(ts, 5)), "\n");
    }
  }

  method AppendTrends(summary: string, r: TrendReport, y: TrendReport, n: TrendReport) returns (s: string)
    ensures s == summary + TrendBlock(r, y, n)
  {
    s := summary + TrendHeading;
    var emerging := Collected(r.emerging, y.emerging, n.emerging);
    s := AppendTrendSection(s, EmergingHeading, emerging);
    var gaining := Collected(r.gaining, y.gaining, n.gaining);
    s := AppendTrendSection(s, GainingHeading, gaining);
    var unique := Collected(r.unique, y.unique, n.unique);
    ghost var angles := "";
    if unique != [] {
      s := s + UniqueHeading;
      s := AppendAngles(s, Take(unique, 5));
      s := s + "\n";
      angles := UniqueHeading + AngleLines(Take(unique, 5)) + "\n";
      Assoc3(summary + TrendHeading + TrendSection(EmergingHeading, emerging) + TrendSection(GainingHeading, gaining),
             UniqueHeading, AngleLines(Take(unique, 5)), "\n");
    }
    Assoc4(summary, TrendHeading, TrendSection(EmergingHeading, emerging), TrendSection(GainingHeading, gaining), angles);
  }

  method AppendKeywords(summary: string, shown: seq<string>, correlations: nat) returns (s: string)
    ensures s == summary + KeywordsBlock(shown, correlations)
  {
    var heading := KeywordsTitle + TopKeywordsLabel + Join(", ", shown) + "\n";
    var count := "";
    s := summary + heading;
    if correlations > 0 {
      count := CorrelationsLabel + NatToString(correlations) + ConnectionsSuffix;
      s := s + count;
    }
    s := s + "\n";
    Assoc3(summary, heading, count, "\n");
  }

  method AppendSource(summary: string, heading: string, ranked: seq<ScoredItem>,
                      entry: (nat, ScoredItem) -> string, sentiment: SentimentLabel) returns (s: string)
    ensures s == summary + SourceBlock(heading, ranked, entry, sentiment)
  {
    s := summary;
    if ranked != [] {
      s := s + heading;
      s := AppendEntries(s, Take(ranked, 3), entry);
      var last := SentimentLine(sentiment);
      s := s + last;
      Assoc3(summary, heading, Entries(Take(ranked, 3), entry), last);
    }
  }

  method AppendInsightsBlock(summary: string, cs: seq<Correlation>) returns (s: string)
    ensures s == summary + InsightsBlock(cs)
  {
    s := summary;
    if cs != [] {
      var heading := InsightsTitle;
      s := s + heading;
      s := AppendInsights(s, Take(cs, 3));
      s := s + "\n";
      Assoc3(summary, heading, InsightLines(Take(cs, 3)), "\n");
    }
  }

  /** The appends of `create_context_summary`, block by block, after the header. */
  method Render(topic: string, useAi: bool, ai: Option<string>,
                r: SourceAnalysis, y: SourceAnalysis, n: SourceAnalysis,
                correlations: seq<Correlation>, shown: seq<string>, overall: SentimentLabel)
    returns (summary: string)
    ensures summary == SummaryText(topic, useAi, ai, r, y, n, correlations, shown, overall)
  {
    summary := Header(topic, useAi, ai);
    summary := AppendKeywords(summary, shown, |correlations|);
    summary := AppendTrends(summary, r.trends, y.trends, n.trends);
    summary := AppendSource(summary, RedditHeading, r.ranked, RedditEntry, r.sentiment.sentiment);
    summary := AppendSource(summary, YouTubeHeading, y.ranked, YouTubeEntry, y.sentiment.sentiment);
    summary := AppendSource(summary, NewsHeading, n.ranked, NewsEntry, n.sentiment.sentiment);
    summary := AppendInsightsBlock(summary, correlations);
    summary := summary + OverallLine(overall);
  }

  /**
   * `create_context_summary` (deterministic path): each source ranked and
   * analysed, the sources correlated, the blocks appended in order. `ai` is
   * what the generated-summary call returned.
   */
  method CreateContextSummary(reddit: seq<Item>, youtube: seq<Item>, news: seq<Item>, topic: string,
                              topN: int, useAi: bool, ai: Option<string>)
    returns (summary: string, r: SourceAnalysis, y: SourceAnalysis, n: SourceAnalysis,
             correlations: CorrelationReport, shown: seq<string>, overall: SentimentLabel)
    ensures SourceAnalysisOf(reddit, topic, topN, r)
    ensures SourceAnalysisOf(youtube, topic, topN, y)
    ensures SourceAnalysisOf(news, topic, topN, n)
    ensures CorrelationReportOf(ItemsOf(r.ranked), ItemsOf(y.ranked), ItemsOf(n.ranked), correlations)
    ensures ShownKeywords(AllKeywords(r, y, n), shown)
    ensures MostFrequentLabel([r.sentiment.sentiment, y.sentiment.sentiment, n.sentiment.sentiment], overall)
    ensures summary == SummaryText(topic, useAi, ai, r, y, n, correlations.correlations, shown, overall)
  {
    r := AnalyseSource(reddit, topic, topN);
    y := AnalyseSource(youtube, topic, topN);
    n := AnalyseSource(news, topic, topN);
    correlations := FindCrossSourceCorrelations(ItemsOf(r.ranked), ItemsOf(y.ranked), ItemsOf(n.ranked));
    shown := ShowKeywords(AllKeywords(r, y, n));
    overall := ChooseOverall([r.sentiment.sentiment, y.sentiment.sentiment, n.sentiment.sentiment]);
    summary := Render(topic, useAi, ai, r, y, n, correlations.correlations, shown, overall);
  }

  /** The analyses a summary is built from. */
  datatype SummaryInputs = SummaryInputs(r: SourceAnalysis, y: SourceAnalysis, n: SourceAnalysis,
                                         correlations: CorrelationReport, shown: seq<string>,
                                         overall: SentimentLabel)

  /** `s` meets every promise `CreateContextSummary` makes about its analyses. */
  predicate SummaryInputsOf(reddit: seq<Item>, youtube: seq<Item>, news: seq<Item>, topic: string, topN: int,
                            s: SummaryInputs)
  {
    && SourceAnalysisOf(reddit, topic, topN, s.r)
    && SourceAnalysisOf(youtube, topic, topN, s.y)
    && SourceAnalysisOf(news, topic, topN, s.n)
    && CorrelationReportOf(ItemsOf(s.r.ranked), ItemsOf(s.y.ranked), ItemsOf(s.n.ranked), s.correlations)
    && ShownKeywords(AllKeywords(s.r, s.y, s.n), s.shown)
    && MostFrequentLabel([s.r.sentiment.sentiment, s.y.sentiment.sentiment, s.n.sentiment.sentiment], s.overall)
  }

  /** `summary` is a context summary of the three lists about `topic`. */
  ghost predicate SummaryOf(reddit: seq<Item>, youtube: seq<Item>, news: seq<Item>, topic: string, topN: int,
                            useAi: bool, ai: Option<string>, summary: string)
  {
    exists s :: SummaryInputsOf(reddit, youtube, news, topic, topN, s)
      && summary == SummaryText(topic, useAi, ai, s.r, s.y, s.n, s.correlations.correlations, s.shown, s.overall)
  }

  /** Every context summary begins with its topic line. */
  lemma SummaryOfStartsWithTopic(reddit: seq<Item>, youtube: seq<Item>, news: seq<Item>, topic: string, topN: int,
                                 useAi: bool, ai: Option<string>, summary: string)
    requires SummaryOf(reddit, youtube, news, topic, topN, useAi, ai, summary)
    ensures TopicPrefix + topic + "\n" <= summary
  {
    var s :| SummaryInputsOf(reddit, youtube, news, topic, topN, s)
      && summary == SummaryText(topic, useAi, ai, s.r, s.y, s.n, s.correlations.correlations, s.shown, s.overall);
    SummaryStartsWithTopic(topic, useAi, ai, s.r, s.y, s.n, s.correlations.correlations, s.shown, s.overall);
  }

  // ---------------------------------------------------------------------
  // Properties of the summary
  // ---------------------------------------------------------------------

  lemma PrefixOfAppend(p: string, a: string, b: string)
    requires p <= a
    ensures p <= a + b
  {
    assert (a + b)[..|a|] == a;
  }

  lemma HeaderStartsWithTopic(topic: string, useAi: bool, ai: Option<string>)
    ensures TopicPrefix + topic + "\n" <= Header(topic, useAi, ai)
  {
    var p := TopicPrefix + topic + "\n";
    var title := p + Rule + "\n\n";
    PrefixOfAppend(p, p, Rule + "\n\n");
    assert p + (Rule + "\n\n") == title;
    if useAi && ai.Some? && ai.value != "" {
      var rest := AiTitle + Dashes + "\n" + ai.value
                  + "\n\n" + Rule + "\n\n" + BreakdownTitle;
      PrefixOfAppend(p, title, rest);
      assert Header(topic, useAi, ai) == title + rest;
    }
  }

  /** The summary always opens with the topic heading, so it is never empty. */
  lemma SummaryStartsWithTopic(topic: string, useAi: bool, ai: Option<string>,
                               r: SourceAnalysis, y: SourceAnalysis, n: SourceAnalysis,
                               correlations: seq<Correlation>, shown: seq<string>, overall: SentimentLabel)
    ensures TopicPrefix + topic + "\n" <= SummaryText(topic, useAi, ai, r, y, n, correlations, shown, overall)
  {
    var p := TopicPrefix + topic + "\n";
    var h := Header(topic, useAi, ai);
    HeaderStartsWithTopic(topic, useAi, ai);
    var s1 := h + KeywordsBlock(shown, |correlations|);
    var s2 := s1 + TrendBlock(r.trends, y.trends, n.trends);
    var s3 := s2 + SourceBlock(RedditHeading, r.ranked, RedditEntry, r.sentiment.sentiment);
    var s4 := s3 + SourceBlock(YouTubeHeading, y.ranked, YouTubeEntry, y.sentiment.sentiment);
    var s5 := s4 + SourceBlock(NewsHeading, n.ranked, NewsEntry, n.sentiment.sentiment);
    var s6 := s5 + InsightsBlock(correlations);
    PrefixOfAppend(p, h, KeywordsBlock(shown, |correlations|));
    PrefixOfAppend(p, s1, TrendBlock(r.trends, y.trends, n.trends));
    PrefixOfAppend(p, s2, SourceBlock(RedditHeading, r.ranked, RedditEntry, r.sentiment.sentiment));
    PrefixOfAppend(p, s3, SourceBlock(YouTubeHeading, y.ranked, YouTubeEntry, y.sentiment.sentiment));
    PrefixOfAppend(p, s4, SourceBlock(NewsHeading, n.ranked, NewsEntry, n.sentiment.sentiment));
    PrefixOfAppend(p, s5, InsightsBlock(correlations));
    PrefixOfAppend(p, s6, OverallLine(overall));
  }

  /** The summary always closes with the overall-sentiment line. */
  lemma SummaryEndsWithOverall(topic: string, useAi: bool, ai: Option<string>,
                               r: SourceAnalysis, y: SourceAnalysis, n: SourceAnalysis,
                               correlations: seq<Correlation>, shown: seq<string>, overall: SentimentLabel)
    ensures var text := SummaryText(topic, useAi, ai, r, y, n, correlations, shown, overall);
      |text| >= |OverallLine(overall)| && text[|text| - |OverallLine(overall)|..] == OverallLine(overall)
  {
  }

  /** A source block appears exactly when that source has ranked items. */
  lemma SourceBlockPresence(heading: string, ranked: seq<ScoredItem>, entry: (nat, ScoredItem) -> string,
                            sentiment: SentimentLabel)
    requires heading != ""
    ensures SourceBlock(heading, ranked, entry, sentiment) == "" <==> ranked == []
    ensures ranked != [] ==> heading <= SourceBlock(heading, ranked, entry, sentiment)
  {
    if ranked != [] {
      var rest := Entries(Take(ranked, 3), entry) + SentimentLine(sentiment);
      assert SourceBlock(heading, ranked, entry, sentiment) == heading + rest;
      PrefixOfAppend(heading, heading, rest);
    }
  }

  /** A source block shows at most the first three ranked items: the rest do not change it. */
  lemma SourceBlockShowsFirstThree(heading: string, ranked: seq<ScoredItem>, entry: (nat, ScoredItem) -> string,
                                   sentiment: SentimentLabel)
    ensures SourceBlock(heading, ranked, entry, sentiment) == SourceBlock(heading, Take(ranked, 3), entry, sentiment)
  {
    assert Take(Take(ranked, 3), 3) == Take(ranked, 3);
  }

  lemma EmptyThemes(t: Themes)
    requires ThemesOf([], t)
    ensures t.topKeywords == [] && t.wordFrequency == []
  {
    assert ThemeTextsOf([]) == [] && KeywordsOf([]) == [];
    assert Lower(Join(" ", [])) == [];
    assert ThemeWordsOf([]) == [];
    assert Frequencies([]) == [];
    assert KeywordCandidates([]) == {};
  }

  lemma {:induction false} NoSignalsInEmpty(words: seq<string>, text: string)
    requires "" !in words && text == []
    ensures Signals(words, text) == 0
  {
    if words != [] {
      assert !Contains(text, words[0]);
      NoSignalsInEmpty(words[1..], text);
    }
  }

  lemma CueWordsNonEmpty()
    ensures "" !in PositiveWords && "" !in NegativeWords && "" !in NeutralWords
  {
  }

  /** Empty text holds no cue word, so its report is neutral with low confidence. */
  lemma SentimentOfEmptyText(text: string)
    requires text == []
    ensures SentimentOfText(text) == SentimentReport(Neutral, 0, 0, 0, Low)
  {
    CueWordsNonEmpty();
    NoSignalsInEmpty(PositiveWords, text);
    NoSignalsInEmpty(NegativeWords, text);
    NoSignalsInEmpty(NeutralWords, text);
  }

  /** No items: no cue word can occur, so the sentiment is neutral with low confidence. */
  lemma SentimentOfNoItems()
    ensures SentimentOf([]) == SentimentReport(Neutral, 0, 0, 0, Low)
  {
    var text := Lower(Join(" ", SentimentTextsOf([])));
    assert text == [];
    SentimentOfEmptyText(text);
  }

  lemma EmptySource(topic: string, topN: int, a: SourceAnalysis)
    requires SourceAnalysisOf([], topic, topN, a)
    ensures a.ranked == [] && a.themes.topKeywords == [] && a.sentiment.sentiment == Neutral
    ensures a.trends == TrendReport([], [], [], [], [])
  {
    assert a.ranked == [];
    assert ItemsOf([]) == [];
    EmptyThemes(a.themes);
    SentimentOfNoItems();
  }

  /** Sources without items share no keyword, so there is no correlation. */
  lemma NoCorrelationsWithoutItems(c: CorrelationReport)
    requires CorrelationReportOf([], [], [], c)
    ensures c.correlations == []
  {
    EmptyThemes(c.redditThemes);
    assert PresentKinds({}, {}, {}) == [];
  }

  lemma AppendEmpty(s: string)
    ensures s + "" == s
  {
  }

  lemma TrendBlockOfNoTrends()
    ensures var none := TrendReport([], [], [], [], []); TrendBlock(none, none, none) == TrendHeading
  {
    var none := TrendReport([], [], [], [], []);
    assert Collected(none.emerging, none.emerging, none.emerging) == [];
    AppendEmpty(TrendHeading);
    AppendEmpty(TrendHeading + "");
    AppendEmpty(TrendHeading + "" + "");
  }

  /**
   * With no items from any source the summary still has its fixed frame: the
   * heading, an empty keyword list, the trend heading and a neutral overall line.
   */
  lemma SummaryOfNoItems(topic: string, topN: int, useAi: bool, ai: Option<string>,
                         r: SourceAnalysis, y: SourceAnalysis, n: SourceAnalysis,
                         correlations: CorrelationReport, shown: seq<string>, overall: SentimentLabel)
    requires SourceAnalysisOf([], topic, topN, r)
    requires SourceAnalysisOf([], topic, topN, y)
    requires SourceAnalysisOf([], topic, topN, n)
    requires CorrelationReportOf(ItemsOf(r.ranked), ItemsOf(y.ranked), ItemsOf(n.ranked), correlations)
    requires ShownKeywords(AllKeywords(r, y, n), shown)
    requires MostFrequentLabel([r.sentiment.sentiment, y.sentiment.sentiment, n.sentiment.sentiment], overall)
    ensures SummaryText(topic, useAi, ai, r, y, n, correlations.correlations, shown, overall)
            == Header(topic, useAi, ai) + KeywordsBlock([], 0) + TrendHeading + OverallLine(Neutral)
  {
    EmptySource(topic, topN, r);
    EmptySource(topic, topN, y);
    EmptySource(topic, topN, n);
    assert AllKeywords(r, y, n) == {};
    assert shown == [];
    assert ItemsOf(r.ranked) == [] && ItemsOf(y.ranked) == [] && ItemsOf(n.ranked) == [];
    NoCorrelationsWithoutItems(correlations);
    assert overall == Neutral;
    TextOfEmptyBlocks(topic, useAi, ai, r, y, n, correlations.correlations, shown, overall);
  }

  /** With no ranked items, trends or correlations, only the fixed frame of the summary remains. */
  lemma TextOfEmptyBlocks(topic: string, useAi: bool, ai: Option<string>,
                          r: SourceAnalysis, y: SourceAnalysis, n: SourceAnalysis,
                          correlations: seq<Correlation>, shown: seq<string>, overall: SentimentLabel)
    requires r.ranked == [] && y.ranked == [] && n.ranked == [] && correlations == []
    requires r.trends == y.trends == n.trends == TrendReport([], [], [], [], [])
    ensures SummaryText(topic, useAi, ai, r, y, n, correlations, shown, overall)
            == Header(topic, useAi, ai) + KeywordsBlock(shown, 0) + TrendHeading + OverallLine(overall)
  {
    TrendBlockOfNoTrends();
    var h := Header(topic, useAi, ai) + KeywordsBlock(shown, 0) + TrendHeading;
    assert SourceBlock(RedditHeading, r.ranked, RedditEntry, r.sentiment.sentiment) == "";
    assert SourceBlock(YouTubeHeading, y.ranked, YouTubeEntry, y.sentiment.sentiment) == "";
    assert SourceBlock(NewsHeading, n.ranked, NewsEntry, n.sentiment.sentiment) == "";
    assert InsightsBlock(correlations) == "";
    AppendEmpty(h);
    AppendEmpty(h + "");
    AppendEmpty(h + "" + "");
    AppendEmpty(h + "" + "" + "");
  }
}
