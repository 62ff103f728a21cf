/**
 * The analyses `src/tools/context_processor.py` runs over the ranked items of
 * each source: keyword themes, keyword-count sentiment, trend classification
 * by engagement and recency, and keyword overlap across the three sources.
 */
module Analysis {
  import opened Wrappers
  import opened Text
  import opened Sequences
  import opened ContentItems
  import opened Scoring

  // =====================================================================
  // Themes
  // =====================================================================

  function CommentTexts(comments: seq<Comment>): seq<string>
  {
    if comments == [] then []
    else CommentTexts(comments[..|comments| - 1]) + [comments[|comments| - 1].text]
  }

  /** The texts one item contributes to theme extraction. */
  function ItemThemeTexts(item: Item): seq<string>
  {
    match item
    case RedditPost(_, _, _, _, _, _, _, _, _, _) =>
      [Title(item), item.selftext] + CommentTexts(item.topComments)
    case YouTubeVideo(_, _, _, _, _, _, _) => [Title(item), item.description]
    case NewsArticle(_, _, _, _, _, _, _, _) => [Title(item), item.description]
  }

  /** The keywords an item brings with it: video tags and article keywords. */
  function ItemKeywords(item: Item): seq<string>
  {
    match item
    case RedditPost(_, _, _, _, _, _, _, _, _, _) => []
    case YouTubeVideo(_, _, _, _, _, _, _) => item.tags
    case NewsArticle(_, _, _, _, _, _, _, _) => item.keywords
  }

  function ThemeTextsOf(items: seq<Item>): seq<string>
  {
    if items == [] then []
    else ThemeTextsOf(items[..|items| - 1]) + ItemThemeTexts(items[|items| - 1])
  }

  function KeywordsOf(items: seq<Item>): seq<string>
  {
    if items == [] then []
    else KeywordsOf(items[..|items| - 1]) + ItemKeywords(items[|items| - 1])
  }

  function SpanWordChars(s: string): (n: nat)
    ensures n <= |s|
    ensures s != [] && IsWordChar(s[0]) ==> n >= 1
    decreases |s|
  {
    if s == [] || !IsWordChar(s[0]) then 0 else 1 + SpanWordChars(s[1..])
  }

  /** The maximal runs of word characters of `s`, in order. */
  function WordRuns(s: string): seq<string>
    decreases |s|
  {
    if s == [] then []
    else if !IsWordChar(s[0]) then WordRuns(s[1..])
    else
      var n := SpanWordChars(s);
      [s[..n]] + WordRuns(s[n..])
  }

  /**
   * `\b[a-z]{4,}\b` matches exactly the runs of word characters made only of
   * the letters a-z and at least four long: inside a run there is no word
   * boundary, and a shorter match would end before another word character.
   */
  predicate IsThemeToken(w: string)
  {
    |w| >= 4 && forall i :: 0 <= i < |w| ==> IsLowerLetter(w[i])
  }

  const ThemeStopWords: set<string> := {
    "the", "a", "an", "and", "or", "but", "in", "on", "at", "to", "for", "of", "with",
    "by", "is", "are", "was", "were", "be", "been", "being", "have", "has", "had", "do",
    "does", "did", "will", "would", "could", "should", "may", "might", "must", "can",
    "this", "that", "these", "those", "i", "you", "he", "she", "it", "we", "they",
    "what", "which", "who", "when", "where", "why", "how"}

  predicate KeptThemeWord(w: string)
  {
    IsThemeToken(w) && w !in ThemeStopWords
  }

  /** The words counted for themes: regex matches of the joined, lower-cased texts minus stop words. */
  function ThemeWordsOf(items: seq<Item>): seq<string>
  {
    Filter(WordRuns(Lower(Join(" ", ThemeTextsOf(items)))), KeptThemeWord)
  }

  /** `Counter(ws).items()`: each distinct word with its count, in order of first occurrence. */
  function Frequencies(ws: seq<string>): seq<(string, nat)>
  {
    var d := Dedup(ws);
    seq(|d|, i requires 0 <= i < |d| => (d[i], Count(ws, d[i])))
  }

  function CountKey(p: (string, nat)): real { p.1 as real }

  /** `Counter(ws).most_common(10)`: a stable sort by count, so ties keep first-occurrence order. */
  function MostCommon(ws: seq<string>): seq<(string, nat)>
  {
    Take(SortDesc(Frequencies(ws), CountKey), 10)
  }

  function FirstOfPairs(ps: seq<(string, nat)>): seq<string>
  {
    seq(|ps|, i requires 0 <= i < |ps| => ps[i].0)
  }

  lemma FirstOfPairsMember(ps: seq<(string, nat)>, p: (string, nat))
    requires p in ps
    ensures p.0 in FirstOfPairs(ps)
  {
    var j :| 0 <= j < |ps| && ps[j] == p;
    assert FirstOfPairs(ps)[j] == p.0;
  }

  /** Each distinct word appears once, paired with its number of occurrences. */
  lemma FrequenciesFacts(ws: seq<string>)
    ensures forall p :: p in Frequencies(ws) ==> p.0 in ws && p.1 == Count(ws, p.0)
    ensures forall w :: w in ws ==> (w, Count(ws, w)) in Frequencies(ws)
  {
    var d := Dedup(ws);
    var f := Frequencies(ws);
    forall p | p in f ensures p.0 in ws && p.1 == Count(ws, p.0) {
      var i :| 0 <= i < |f| && f[i] == p;
      assert d[i] in Elements(d);
    }
    forall w | w in ws ensures (w, Count(ws, w)) in f {
      assert w in Elements(d);
      var i :| 0 <= i < |d| && d[i] == w;
      assert f[i] == (w, Count(ws, w));
    }
  }

  /** `most_common(10)` reports at most ten words, each with its true count, highest count first. */
  lemma MostCommonCounts(ws: seq<string>)
    ensures |MostCommon(ws)| == Min(10, |Dedup(ws)|)
    ensures forall p :: p in MostCommon(ws) ==> p.0 in ws && p.1 == Count(ws, p.0)
    ensures forall i, j :: 0 <= i < j < |MostCommon(ws)| ==> MostCommon(ws)[i].1 >= MostCommon(ws)[j].1
  {
    var f := Frequencies(ws);
    var top := MostCommon(ws);
    TakeSortedDropped(f, CountKey, 10);
    TakeSortedStable(f, CountKey, 10);
    FrequenciesFacts(ws);
    forall p | p in top ensures p.0 in ws && p.1 == Count(ws, p.0) {
      assert p in multiset(top);
      assert p in multiset(f);
    }
    forall i, j | 0 <= i < j < |top| ensures top[i].1 >= top[j].1 {
      assert CountKey(top[i]) >= CountKey(top[j]);
    }
  }

  /** No word left out of `most_common(10)` occurs more often than one that is reported. */
  lemma MostCommonOmitsNoMoreFrequent(ws: seq<string>)
    ensures forall p, w :: p in MostCommon(ws) && w in ws && w !in FirstOfPairs(MostCommon(ws))
              ==> p.1 >= Count(ws, w)
  {
    var f := Frequencies(ws);
    var top := MostCommon(ws);
    TakeSortedDropped(f, CountKey, 10);
    FrequenciesFacts(ws);
    forall p, w | p in top && w in ws && w !in FirstOfPairs(top) ensures p.1 >= Count(ws, w) {
      var q := (w, Count(ws, w));
      assert q in multiset(f);
      if q in top {
        FirstOfPairsMember(top, q);
        assert false;
      }
      assert q in multiset(f) - multiset(top);
      assert CountKey(p) >= CountKey(q);
    }
  }

  /** The result of `extract_themes`. */
  datatype Themes = Themes(topKeywords: seq<string>, wordFrequency: seq<(string, nat)>, totalItemsAnalyzed: nat)

  /** `set(top_keywords + keywords)`: the ten most common words together with the explicit keywords. */
  function KeywordCandidates(items: seq<Item>): set<string>
  {
    Elements(FirstOfPairs(MostCommon(ThemeWordsOf(items)))) + Elements(KeywordsOf(items))
  }

  /**
   * What `extract_themes` promises: `top_keywords` is `list(candidates)[:15]`,
   * i.e. up to fifteen distinct candidates in an order Python leaves open.
   */
  predicate ThemesOf(items: seq<Item>, t: Themes)
  {
    var candidates := KeywordCandidates(items);
    t.wordFrequency == MostCommon(ThemeWordsOf(items))
    && t.totalItemsAnalyzed == |items|
    && Distinct(t.topKeywords)
    && Elements(t.topKeywords) <= candidates
    && |t.topKeywords| == Min(15, |candidates|)
  }

  /** With at most fifteen candidates the keyword list holds every one of them. */
  lemma ThemesKeepAllFewCandidates(items: seq<Item>, t: Themes)
    requires ThemesOf(items, t)
    requires |KeywordCandidates(items)| <= 15
    ensures Elements(t.topKeywords) == KeywordCandidates(items)
  {
    DistinctCardinality(t.topKeywords);
    SubsetOfSameSize(Elements(t.topKeywords), KeywordCandidates(items));
  }

  lemma {:induction false} SubsetCardinality(a: set<string>, b: set<string>)
    requires a <= b
    ensures |a| <= |b|
    decreases a
  {
    if a != {} {
      var x :| x in a;
      SubsetCardinality(a - {x}, b - {x});
    }
  }

  lemma SubsetOfSameSize(a: set<string>, b: set<string>)
    requires a <= b && |a| == |b|
    ensures a == b
  {
    if a != b {
      var x :| x in b && x !in a;
      SubsetCardinality(a, b - {x});
    }
  }

  lemma ThemeInputsSnoc(items: seq<Item>, i: nat)
    requires i < |items|
    ensures ThemeTextsOf(items[..i + 1]) == ThemeTextsOf(items[..i]) + ItemThemeTexts(items[i])
    ensures KeywordsOf(items[..i + 1]) == KeywordsOf(items[..i]) + ItemKeywords(items[i])
  {
    assert items[..i + 1][..i] == items[..i];
  }

  /** One pass of the collection loop: the item's texts and keywords appended. */
  method CollectThemeInputs(item: Item, texts: seq<string>, keywords: seq<string>)
    returns (texts': seq<string>, keywords': seq<string>)
    ensures texts' == texts + ItemThemeTexts(item)
    ensures keywords' == keywords + ItemKeywords(item)
  {
    texts', keywords' := texts + [Title(item)], keywords;
    match item {
      case RedditPost(_, _, _, _, _, _, _, _, _, _) =>
        texts' := texts' + [item.selftext];
        var comments := item.topComments;
        for j := 0 to |comments|
          invariant texts' == texts + [Title(item), item.selftext] + CommentTexts(comments[..j])
        {
          assert comments[..j + 1][..j] == comments[..j];
          texts' := texts' + [comments[j].text];
        }
        assert comments[..|comments|] == comments;
      case YouTubeVideo(_, _, _, _, _, _, _) =>
        texts' := texts' + [item.description];
        keywords' := keywords' + item.tags;
      case NewsArticle(_, _, _, _, _, _, _, _) =>
        texts' := texts' + [item.description];
        keywords' := keywords' + item.keywords;
    }
  }

  method ExtractThemes(items: seq<Item>) returns (t: Themes)
    ensures ThemesOf(items, t)
  {
    var allText: seq<string> := [];
    var keywords: seq<string> := [];
    for i := 0 to |items|
      invariant allText == ThemeTextsOf(items[..i])
      invariant keywords == KeywordsOf(items[..i])
    {
      ThemeInputsSnoc(items, i);
      allText, keywords := CollectThemeInputs(items[i], allText, keywords);
    }
    assert items[..|items|] == items;
    var text := Lower(Join(" ", allText));
    var top := MostCommon(Filter(WordRuns(text), KeptThemeWord));
    var listed := Enumerate(Elements(FirstOfPairs(top)) + Elements(keywords));
    t := Themes(Take(listed, 15), top, |items|);
    TakeDistinct(listed, 15);
  }

  /** A prefix of a list of distinct elements is distinct and holds some of them. */
  lemma TakeDistinct(xs: seq<string>, n: int)
    requires Distinct(xs)
    ensures Distinct(Take(xs, n)) && Elements(Take(xs, n)) <= Elements(xs)
  {
  }

  // =====================================================================
  // Sentiment
  // =====================================================================

  const PositiveWords: seq<string> := [
    "good", "great", "excellent", "amazing", "wonderful", "fantastic", "love", "best",
    "awesome", "brilliant", "success", "win", "positive", "improve", "better"]
  const NegativeWords: seq<string> := [
    "bad", "terrible", "awful", "worst", "hate", "fail", "problem", "issue", "negative",
    "worse", "disappoint", "critic", "concern", "worry"]
  const NeutralWords: seq<string> := [
    "news", "report", "update", "announce", "information", "data", "study", "research"]

  datatype SentimentLabel = Positive | Negative | Neutral | Mixed
  {
    function Name(): string
    {
      match this
      case Positive => "positive"
      case Negative => "negative"
      case Neutral => "neutral"
      case Mixed => "mixed"
    }
  }

  datatype Confidence = High | Medium | Low

  datatype SentimentReport = SentimentReport(
    sentiment: SentimentLabel,
    positiveSignals: nat,
    negativeSignals: nat,
    neutralSignals: nat,
    confidence: Confidence)

  /** The texts one item contributes to sentiment analysis (comments do not count here). */
  function ItemSentimentTexts(item: Item): seq<string>
  {
    match item
    case RedditPost(_, _, _, _, _, _, _, _, _, _) => [Title(item), item.selftext]
    case YouTubeVideo(_, _, _, _, _, _, _) => [Title(item), item.description]
    case NewsArticle(_, _, _, _, _, _, _, _) => [Title(item), item.description]
  }

  function SentimentTextsOf(items: seq<Item>): seq<string>
  {
    if items == [] then []
    else SentimentTextsOf(items[..|items| - 1]) + ItemSentimentTexts(items[|items| - 1])
  }

  /** How many words of the list occur (as substrings) in the text. */
  function Signals(words: seq<string>, text: string): (n: nat)
    ensures n <= |words|
  {
    if words == [] then 0
    else (if Contains(text, words[0]) then 1 else 0) + Signals(words[1..], text)
  }

  /** The label rule: none found is neutral, a 1.5-fold majority decides, anything else is mixed. */
  function Label(positive: nat, negative: nat, neutral: nat): SentimentLabel
  {
    if positive + negative + neutral == 0 then Neutral
    else if positive as real > negative as real * 1.5 then Positive
    else if negative as real > positive as real * 1.5 then Negative
    else Mixed
  }

  function ConfidenceFor(total: nat): Confidence
  {
    if total > 5 then High else if total > 2 then Medium else Low
  }

  lemma CueListSizes()
    ensures |PositiveWords| == 15 && |NegativeWords| == 14 && |NeutralWords| == 8
  {
  }

  /** The report for the lower-cased text: each list's signals, the label and the confidence. */
  function SentimentOfText(text: string): (r: SentimentReport)
    ensures r.positiveSignals <= |PositiveWords| && r.negativeSignals <= |NegativeWords|
    ensures r.neutralSignals <= |NeutralWords|
  {
    var p := Signals(PositiveWords, text);
    var n := Signals(NegativeWords, text);
    var u := Signals(NeutralWords, text);
    SentimentReport(Label(p, n, u), p, n, u, ConfidenceFor(p + n + u))
  }

  function SentimentOf(items: seq<Item>): SentimentReport
  {
    SentimentOfText(Lower(Join(" ", SentimentTextsOf(items))))
  }

  /** The label in integer terms: each side wins on more than 3/2 of the other's count. */
  lemma LabelIff(p: nat, n: nat, u: nat)
    ensures Label(p, n, u) == Neutral <==> p + n + u == 0
    ensures Label(p, n, u) == Positive <==> 2 * p > 3 * n
    ensures Label(p, n, u) == Negative <==> 2 * n > 3 * p
    ensures Label(p, n, u) == Mixed <==> p + n + u > 0 && 2 * p <= 3 * n && 2 * n <= 3 * p
  {
  }

  /** Text with only neutral words is "mixed", not "neutral": neither side has a majority. */
  lemma OnlyNeutralWordsIsMixed(u: nat)
    requires u > 0
    ensures Label(0, 0, u) == Mixed
  {
  }

  method AnalyzeSentiment(items: seq<Item>) returns (r: SentimentReport)
    ensures r == SentimentOf(items)
    ensures r.positiveSignals <= 15 && r.negativeSignals <= 14 && r.neutralSignals <= 8
  {
    var allText: seq<string> := [];
    for i := 0 to |items|
      invariant allText == SentimentTextsOf(items[..i])
    {
      assert items[..i + 1][..i] == items[..i];
      allText := allText + ItemSentimentTexts(items[i]);
    }
    assert items[..|items|] == items;
    CueListSizes();
    r := SentimentOfText(Lower(Join(" ", allText)));
  }

  // =====================================================================
  // Trends
  // =====================================================================

  datatype TrendMetrics =
    | RedditMetrics(score: int, comments: int, ageHours: real)
    | YouTubeMetrics(views: int, engagementRatio: real)
    | NewsMetrics(sourceName: string, articleAgeHours: Option<real>)

  datatype TrendInfo = TrendInfo(
    title: string,
    engagement: real,
    recency: real,
    composite: real,
    source: SourceKind,
    metrics: TrendMetrics)

  const UniqueAngleInsight: string := "High relevance but niche engagement - unique perspective"

  datatype UniqueAngle = UniqueAngle(
    title: string,
    relevance: real,
    engagement: real,
    source: SourceKind,
    insight: string)

  datatype TrendReport = TrendReport(
    emerging: seq<TrendInfo>,
    gaining: seq<TrendInfo>,
    losing: seq<TrendInfo>,
    stable: seq<TrendInfo>,
    unique: seq<UniqueAngle>)

  datatype Bucket = Emerging | Gaining | Losing | Stable

  /** The classification rules, tried in the code's order. */
  function Classify(engagement: real, recency: real): Bucket
  {
    if recency >= 70.0 && engagement >= 40.0 then
      (if engagement >= 70.0 then Gaining else Emerging)
    else if engagement >= 70.0 && recency >= 40.0 then Stable
    else if engagement < 40.0 && recency < 40.0 then Losing
    else if recency >= 70.0 && engagement < 40.0 then Emerging
    else Stable
  }

  /** The rules amount to a partition of the (engagement, recency) plane. */
  lemma ClassifyIff(e: real, r: real)
    ensures Classify(e, r) == Gaining <==> r >= 70.0 && e >= 70.0
    ensures Classify(e, r) == Emerging <==> r >= 70.0 && e < 70.0
    ensures Classify(e, r) == Losing <==> r < 40.0 && e < 40.0
    ensures Classify(e, r) == Stable <==> r < 70.0 && (r >= 40.0 || e >= 40.0)
  {
  }

  function ItemBucket(s: ScoredItem): Bucket
  {
    Classify(s.breakdown.engagement, s.breakdown.recency)
  }

  function MetricsOf(item: Item): TrendMetrics
  {
    match item
    case RedditPost(_, _, _, _, _, _, _, _, _, _) =>
      RedditMetrics(item.score, item.numComments, item.ageHours.GetOr(0.0))
    case YouTubeVideo(_, _, _, _, _, _, _) =>
      YouTubeMetrics(item.viewCount, item.engagementRatio.GetOr(0.0))
    case NewsArticle(_, _, _, _, _, _, _, _) =>
      NewsMetrics(item.sourceName.GetOr("Unknown"), item.ageHours)
  }

  function InfoOf(s: ScoredItem): TrendInfo
  {
    TrendInfo(Take(Title(s.item), 100), s.breakdown.engagement, s.breakdown.recency,
              s.composite, KindOf(s.item), MetricsOf(s.item))
  }

  /** The trend entries of the items that fall in bucket `b`, in input order. */
  function BucketOf(items: seq<ScoredItem>, b: Bucket): seq<TrendInfo>
  {
    if items == [] then []
    else
      var last := items[|items| - 1];
      BucketOf(items[..|items| - 1], b) + (if ItemBucket(last) == b then [InfoOf(last)] else [])
  }

  predicate IsUniqueAngle(s: ScoredItem)
  {
    s.breakdown.relevance >= 70.0 && s.breakdown.engagement < 70.0
  }

  function AngleOf(s: ScoredItem): UniqueAngle
  {
    UniqueAngle(Take(Title(s.item), 100), s.breakdown.relevance, s.breakdown.engagement,
                KindOf(s.item), UniqueAngleInsight)
  }

  function UniqueAnglesOf(items: seq<ScoredItem>): seq<UniqueAngle>
  {
    if items == [] then []
    else
      var last := items[|items| - 1];
      UniqueAnglesOf(items[..|items| - 1]) + (if IsUniqueAngle(last) then [AngleOf(last)] else [])
  }

  function RecencyKey(t: TrendInfo): real { t.recency }
  function OldestFirstKey(t: TrendInfo): real { -t.recency }
  function TrendCompositeKey(t: TrendInfo): real { t.composite }

  /** What `detect_trends` returns for the ranked items of one source. */
  function TrendsOf(items: seq<ScoredItem>): TrendReport
  {
    TrendReport(
      Take(SortDesc(BucketOf(items, Emerging), RecencyKey), 5),
      Take(SortDesc(BucketOf(items, Gaining), TrendCompositeKey), 5),
      Take(SortDesc(BucketOf(items, Losing), OldestFirstKey), 3),
      Take(SortDesc(BucketOf(items, Stable), TrendCompositeKey), 5),
      Take(UniqueAnglesOf(items), 5))
  }

  method DetectTrends(items: seq<ScoredItem>) returns (r: TrendReport)
    ensures r == TrendsOf(items)
  {
    if items == [] {
      return TrendReport([], [], [], [], []);
    }
    var emerging: seq<TrendInfo> := [];
    var gaining: seq<TrendInfo> := [];
    var losing: seq<TrendInfo> := [];
    var stable: seq<TrendInfo> := [];
    for i := 0 to |items|
      invariant emerging == BucketOf(items[..i], Emerging)
      invariant gaining == BucketOf(items[..i], Gaining)
      invariant losing == BucketOf(items[..i], Losing)
      invariant stable == BucketOf(items[..i], Stable)
    {
      assert items[..i + 1][..i] == items[..i];
      var e := items[i].breakdown.engagement;
      var rec := items[i].breakdown.recency;
      var info := InfoOf(items[i]);
      if rec >= 70.0 && e >= 40.0 {
        if e >= 70.0 {
          gaining := gaining + [info];
        } else {
          emerging := emerging + [info];
        }
      } else if e >= 70.0 && rec >= 40.0 {
        stable := stable + [info];
      } else if e < 40.0 && rec < 40.0 {
        losing := losing + [info];
      } else if rec >= 70.0 && e < 40.0 {
        emerging := emerging + [info];
      } else {
        stable := stable + [info];
      }
    }
    var unique: seq<UniqueAngle> := [];
    for i := 0 to |items|
      invariant unique == UniqueAnglesOf(items[..i])
    {
      assert items[..i + 1][..i] == items[..i];
      if items[i].breakdown.relevance >= 70.0 && items[i].breakdown.engagement < 70.0 {
        unique := unique + [AngleOf(items[i])];
      }
    }
    assert items[..|items|] == items;
    r := TrendReport(
      Take(SortDesc(emerging, RecencyKey), 5),
      Take(SortDesc(gaining, TrendCompositeKey), 5),
      Take(SortDesc(losing, OldestFirstKey), 3),
      Take(SortDesc(stable, TrendCompositeKey), 5),
      Take(unique, 5));
  }

  /** Every item lands in exactly one of the four buckets. */
  lemma {:induction false} BucketsPartition(items: seq<ScoredItem>)
    ensures |BucketOf(items, Emerging)| + |BucketOf(items, Gaining)|
            + |BucketOf(items, Losing)| + |BucketOf(items, Stable)| == |items|
  {
    if items != [] {
      BucketsPartition(items[..|items| - 1]);
    }
  }

  /** A bucket holds exactly the entries of the items classified into it. */
  lemma {:induction false} BucketMembers(items: seq<ScoredItem>, b: Bucket)
    ensures forall t :: t in BucketOf(items, b) ==> Classify(t.engagement, t.recency) == b
    ensures forall s :: s in items && ItemBucket(s) == b ==> InfoOf(s) in BucketOf(items, b)
  {
    if items != [] {
      var init := items[..|items| - 1];
      BucketMembers(init, b);
      assert items == init + [items[|items| - 1]];
    }
  }

  /** Emerging entries are recent (recency >= 70) but not highly engaging; at most five, most recent first. */
  lemma EmergingFacts(items: seq<ScoredItem>)
    ensures var e := TrendsOf(items).emerging;
      |e| <= 5 && SortedDesc(e, RecencyKey)
      && forall t :: t in e ==> t.recency >= 70.0 && t.engagement < 70.0
  {
    var b := BucketOf(items, Emerging);
    BucketMembers(items, Emerging);
    TakeSortedDropped(b, RecencyKey, 5);
    TakeSortedStable(b, RecencyKey, 5);
    forall t | t in TrendsOf(items).emerging ensures t.recency >= 70.0 && t.engagement < 70.0 {
      assert t in multiset(b);
      ClassifyIff(t.engagement, t.recency);
    }
  }

  /** Gaining entries are recent and highly engaging (both >= 70); at most five, best composite first. */
  lemma GainingFacts(items: seq<ScoredItem>)
    ensures var g := TrendsOf(items).gaining;
      |g| <= 5 && SortedDesc(g, TrendCompositeKey)
      && forall t :: t in g ==> t.recency >= 70.0 && t.engagement >= 70.0
  {
    var b := BucketOf(items, Gaining);
    BucketMembers(items, Gaining);
    TakeSortedDropped(b, TrendCompositeKey, 5);
    TakeSortedStable(b, TrendCompositeKey, 5);
    forall t | t in TrendsOf(items).gaining ensures t.recency >= 70.0 && t.engagement >= 70.0 {
      assert t in multiset(b);
      ClassifyIff(t.engagement, t.recency);
    }
  }

  /** Losing entries are old and unengaging (both < 40); at most three, oldest (lowest recency) first. */
  lemma LosingFacts(items: seq<ScoredItem>)
    ensures var l := TrendsOf(items).losing;
      |l| <= 3 && (forall i, j :: 0 <= i < j < |l| ==> l[i].recency <= l[j].recency)
      && forall t :: t in l ==> t.recency < 40.0 && t.engagement < 40.0
  {
    var b := BucketOf(items, Losing);
    var l := TrendsOf(items).losing;
    BucketMembers(items, Losing);
    TakeSortedDropped(b, OldestFirstKey, 3);
    TakeSortedStable(b, OldestFirstKey, 3);
    forall t | t in l ensures t.recency < 40.0 && t.engagement < 40.0 {
      assert t in multiset(b);
      ClassifyIff(t.engagement, t.recency);
    }
    forall i, j | 0 <= i < j < |l| ensures l[i].recency <= l[j].recency {
      assert OldestFirstKey(l[i]) >= OldestFirstKey(l[j]);
    }
  }

  /** Unique angles are the first five highly relevant (>= 70), not highly engaging items, in input order. */
  lemma {:induction false} UniqueAngleFacts(items: seq<ScoredItem>)
    ensures forall a :: a in UniqueAnglesOf(items) ==> a.relevance >= 70.0 && a.engagement < 70.0
    ensures forall s :: s in items && IsUniqueAngle(s) ==> AngleOf(s) in UniqueAnglesOf(items)
  {
    if items != [] {
      var init := items[..|items| - 1];
      UniqueAngleFacts(init);
      assert items == init + [items[|items| - 1]];
    }
  }

  // =====================================================================
  // Cross-source correlations
  // =====================================================================

  datatype CorrelationKind = AllSources | RedditYouTube | RedditNews | YouTubeNews
  {
    function Name(): string
    {
      match this
      case AllSources => "all_sources"
      case RedditYouTube => "reddit_youtube"
      case RedditNews => "reddit_news"
      case YouTubeNews => "youtube_news"
    }

    function Insight(): string
    {
      match this
      case AllSources => ConsensusInsight
      case RedditYouTube => RedditYouTubeInsight
      case RedditNews => RedditNewsInsight
      case YouTubeNews => YouTubeNewsInsight
    }
  }

  const ConsensusInsight := "These keywords appear across all sources, indicating strong consensus on these topics."
  const RedditYouTubeInsight := "Reddit discussions align with trending YouTube content on these topics."
  const RedditNewsInsight := "Reddit community discussions match recent news coverage."
  const YouTubeNewsInsight := "YouTube content creators are covering topics that match recent news."

  datatype Correlation = Correlation(kind: CorrelationKind, keywords: seq<string>, insight: string)

  datatype CorrelationReport = CorrelationReport(
    correlations: seq<Correlation>,
    redditThemes: Themes,
    youtubeThemes: Themes,
    newsThemes: Themes,
    uniqueReddit: seq<string>,
    uniqueYouTube: seq<string>,
    uniqueNews: seq<string>)

  /** The keywords the sources named by `kind` share. */
  function Shared(kind: CorrelationKind, r: set<string>, y: set<string>, n: set<string>): set<string>
  {
    match kind
    case AllSources => r * y * n
    case RedditYouTube => r * y
    case RedditNews => r * n
    case YouTubeNews => y * n
  }

  /** The kinds that get an entry, in the code's order: each one whose overlap is non-empty. */
  function PresentKinds(r: set<string>, y: set<string>, n: set<string>): (ks: seq<CorrelationKind>)
    ensures forall k :: k in ks <==> Shared(k, r, y, n) != {}
    ensures Distinct(ks)
  {
    (if r * y * n != {} then [AllSources] else [])
    + (if r * y != {} then [RedditYouTube] else [])
    + (if r * n != {} then [RedditNews] else [])
    + (if y * n != {} then [YouTubeNews] else [])
  }

  /** A correlation entry for `k`: its insight and its shared keywords, each listed once. */
  predicate EntryFor(c: Correlation, k: CorrelationKind, r: set<string>, y: set<string>, n: set<string>)
  {
    c.kind == k && c.insight == k.Insight()
    && Distinct(c.keywords) && Elements(c.keywords) == Shared(k, r, y, n)
  }

  predicate EntriesFor(cs: seq<Correlation>, ks: seq<CorrelationKind>, r: set<string>, y: set<string>, n: set<string>)
  {
    |cs| == |ks| && forall i :: 0 <= i < |cs| ==> EntryFor(cs[i], ks[i], r, y, n)
  }

  /** One entry per overlapping kind, in the code's order. */
  predicate CorrelationsFor(cs: seq<Correlation>, r: set<string>, y: set<string>, n: set<string>)
  {
    EntriesFor(cs, PresentKinds(r, y, n), r, y, n)
  }

  /** A keyword shared by all three sources is shared by every pair, so all four entries appear. */
  lemma ConsensusImpliesAllPairs(r: set<string>, y: set<string>, n: set<string>)
    requires r * y * n != {}
    ensures PresentKinds(r, y, n) == [AllSources, RedditYouTube, RedditNews, YouTubeNews]
  {
    var x :| x in r * y * n;
    assert x in r * y && x in r * n && x in y * n;
  }

  /** Only Reddit and YouTube overlapping gives exactly one reddit_youtube entry. */
  lemma OnlyRedditYouTubeOverlap(r: set<string>, y: set<string>, n: set<string>)
    requires r * y != {} && r * n == {} && y * n == {}
    ensures PresentKinds(r, y, n) == [RedditYouTube]
  {
    assert r * y * n == {} by {
      assert r * y * n <= r * n;
    }
  }

  lemma EntriesForSnoc(cs: seq<Correlation>, ks: seq<CorrelationKind>, c: Correlation, k: CorrelationKind,
                       r: set<string>, y: set<string>, n: set<string>)
    requires EntriesFor(cs, ks, r, y, n) && EntryFor(c, k, r, y, n)
    ensures EntriesFor(cs + [c], ks + [k], r, y, n)
  {
    forall i | 0 <= i < |cs| + 1 ensures EntryFor((cs + [c])[i], (ks + [k])[i], r, y, n) {
      if i < |cs| {
        assert (cs + [c])[i] == cs[i] && (ks + [k])[i] == ks[i];
      }
    }
  }

  /** The four `if` statements: each appends the entry for its kind when that overlap is non-empty. */
  method AddIfShared(cs: seq<Correlation>, ghost ks: seq<CorrelationKind>, kind: CorrelationKind,
                     r: set<string>, y: set<string>, n: set<string>)
    returns (cs': seq<Correlation>)
    requires EntriesFor(cs, ks, r, y, n)
    ensures EntriesFor(cs', ks + (if Shared(kind, r, y, n) != {} then [kind] else []), r, y, n)
  {
    var shared := Shared(kind, r, y, n);
    if shared != {} {
      var keywords := Enumerate(shared);
      var entry := Correlation(kind, keywords, kind.Insight());
      EntriesForSnoc(cs, ks, entry, kind, r, y, n);
      cs' := cs + [entry];
    } else {
      cs' := cs;
      assert ks + [] == ks;
    }
  }

  /** The correlation entries and the keywords unique to each source, from the three keyword sets. */
  method CorrelateKeywords(r: set<string>, y: set<string>, n: set<string>)
    returns (correlations: seq<Correlation>, uniqueReddit: seq<string>, uniqueYouTube: seq<string>, uniqueNews: seq<string>)
    ensures CorrelationsFor(correlations, r, y, n)
    ensures Distinct(uniqueReddit) && Elements(uniqueReddit) == r - y - n
    ensures Distinct(uniqueYouTube) && Elements(uniqueYouTube) == y - r - n
    ensures Distinct(uniqueNews) && Elements(uniqueNews) == n - r - y
  {
    correlations := AddIfShared([], [], AllSources, r, y, n);
    ghost var k1 := if r * y * n != {} then [AllSources] else [];
    assert [] + k1 == k1;
    correlations := AddIfShared(correlations, k1, RedditYouTube, r, y, n);
    ghost var k2 := k1 + (if r * y != {} then [RedditYouTube] else []);
    correlations := AddIfShared(correlations, k2, RedditNews, r, y, n);
    ghost var k3 := k2 + (if r * n != {} then [RedditNews] else []);
    correlations := AddIfShared(correlations, k3, YouTubeNews, r, y, n);
    assert k3 + (if y * n != {} then [YouTubeNews] else []) == PresentKinds(r, y, n);
    uniqueReddit := Enumerate(r - y - n);
    uniqueYouTube := Enumerate(y - r - n);
    uniqueNews := Enumerate(n - r - y);
  }

  /**
   * What `find_cross_source_correlations` promises: each source's themes, one
   * entry per overlapping kind, and each source's keywords found in neither
   * other source.
   */
  predicate CorrelationReportOf(reddit: seq<Item>, youtube: seq<Item>, news: seq<Item>, c: CorrelationReport)
  {
    var r, y, n := Elements(c.redditThemes.topKeywords), Elements(c.youtubeThemes.topKeywords),
                   Elements(c.newsThemes.topKeywords);
    ThemesOf(reddit, c.redditThemes) && ThemesOf(youtube, c.youtubeThemes) && ThemesOf(news, c.newsThemes)
    && CorrelationsFor(c.correlations, r, y, n)
    && Distinct(c.uniqueReddit) && Elements(c.uniqueReddit) == r - y - n
    && Distinct(c.uniqueYouTube) && Elements(c.uniqueYouTube) == y - r - n
    && Distinct(c.uniqueNews) && Elements(c.uniqueNews) == n - r - y
  }

  method FindCrossSourceCorrelations(reddit: seq<Item>, youtube: seq<Item>, news: seq<Item>)
    returns (c: CorrelationReport)
    ensures CorrelationReportOf(reddit, youtube, news, c)
  {
    var redditThemes := ExtractThemes(reddit);
    var youtubeThemes := ExtractThemes(youtube);
    var newsThemes := ExtractThemes(news);
    var correlations, uniqueReddit, uniqueYouTube, uniqueNews :=
      CorrelateKeywords(Elements(redditThemes.topKeywords), Elements(youtubeThemes.topKeywords),
                        Elements(newsThemes.topKeywords));
    c := CorrelationReport(correlations, redditThemes, youtubeThemes, newsThemes,
                           uniqueReddit, uniqueYouTube, uniqueNews);
  }

  /** The keywords unique to each source are pairwise disjoint, and none of them is in a correlation. */
  lemma UniqueKeywordsDisjoint(r: set<string>, y: set<string>, n: set<string>)
    ensures (r - y - n) !! (y - r - n) && (r - y - n) !! (n - r - y) && (y - r - n) !! (n - r - y)
    ensures forall k: CorrelationKind :: (r - y - n) !! Shared(k, r, y, n)
    ensures forall k: CorrelationKind :: (y - r - n) !! Shared(k, r, y, n)
    ensures forall k: CorrelationKind :: (n - r - y) !! Shared(k, r, y, n)
  {
  }
}
