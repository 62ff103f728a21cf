/**
 * Content-idea aggregation: the three connectors are asked in turn, and a
 * connector that raises only marks its own source with the error message;
 * the sources after it are still asked. The connectors themselves are the
 * function `fetch`, which says what each call returns or raises.
 */
module Ideas {
  import opened Wrappers
  import opened ContentItems

  /** What one connector call produced: its items, or the message of what it raised. */
  datatype Fetch = Fetched(items: seq<Item>) | Raised(message: string)

  /** The connectors: source, topic and limit to what the call produces. */
  type Fetcher = (SourceKind, string, int) -> Fetch

  /** One source's entry: `{"items": ..., "count": ..., "error": ...}`. */
  datatype SourceResult = SourceResult(items: seq<Item>, count: nat, error: Option<string>)

  const NoResult := SourceResult([], 0, None)

  datatype IdeasSummary = IdeasSummary(totalItems: nat, sourcesAvailable: nat)

  /** The dictionary `generate_ideas` returns. */
  datatype IdeasData = IdeasData(topic: string, reddit: SourceResult, youtube: SourceResult,
                                 googleNews: SourceResult, summary: IdeasSummary)

  /** A source's entry as a function of its own call alone. */
  function SourceRecord(f: Fetch): (r: SourceResult)
    ensures r.count == |r.items|
    ensures f.Fetched? ==> r.items == f.items && r.error == None
    ensures f.Raised? ==> r.items == [] && r.error == Some(f.message)
  {
    match f
    case Fetched(xs) => SourceResult(xs, |xs|, None)
    case Raised(e) => SourceResult([], 0, Some(e))
  }

  function Size(r: SourceResult): nat
  {
    |r.items|
  }

  function Available(r: SourceResult): nat
  {
    if r.items != [] then 1 else 0
  }

  /** What `generate_ideas` reports: each source from its own call, the summary from the three entries. */
  function IdeasOf(topic: string, limit: int, fetch: Fetcher): (d: IdeasData)
    ensures d.topic == topic
    ensures d.reddit.count == |d.reddit.items| && d.youtube.count == |d.youtube.items|
            && d.googleNews.count == |d.googleNews.items|
    ensures d.summary.totalItems == d.reddit.count + d.youtube.count + d.googleNews.count
    ensures d.summary.totalItems
            == Delivered(fetch(Reddit, topic, limit)) + Delivered(fetch(YouTube, topic, limit))
               + Delivered(fetch(GoogleNews, topic, limit))
    ensures d.summary.sourcesAvailable <= 3
    ensures d.summary.totalItems == 0 <==> d.summary.sourcesAvailable == 0
  {
    var r := SourceRecord(fetch(Reddit, topic, limit));
    var y := SourceRecord(fetch(YouTube, topic, limit));
    var n := SourceRecord(fetch(GoogleNews, topic, limit));
    IdeasData(topic, r, y, n,
      IdeasSummary(Size(r) + Size(y) + Size(n), Available(r) + Available(y) + Available(n)))
  }

  /** One `try` block of `generate_ideas`: fill the source's entry and count it in the summary. */
  method Absorb(entry: SourceResult, summary: IdeasSummary, f: Fetch)
    returns (entry': SourceResult, summary': IdeasSummary)
    requires entry == NoResult
    ensures entry' == SourceRecord(f)
    ensures summary'.totalItems == summary.totalItems + Size(entry')
    ensures summary'.sourcesAvailable == summary.sourcesAvailable + Available(entry')
  {
    entry', summary' := entry, summary;
    match f
    case Fetched(xs) =>
      entry' := entry'.(items := xs);
      entry' := entry'.(count := |xs|);
      if xs != [] {
        summary' := summary'.(sourcesAvailable := summary'.sourcesAvailable + 1);
        summary' := summary'.(totalItems := summary'.totalItems + |xs|);
      }
    case Raised(e) =>
      entry' := entry'.(error := Some(e));
  }

  /** `generate_ideas`: Reddit, then YouTube, then Google News, each failure kept to its own entry. */
  method GenerateIdeas(topic: string, limit: int, fetch: Fetcher) returns (results: IdeasData)
    ensures results == IdeasOf(topic, limit, fetch)
  {
    results := IdeasData(topic, NoResult, NoResult, NoResult, IdeasSummary(0, 0));
    var entry, summary := Absorb(results.reddit, results.summary, fetch(Reddit, topic, limit));
    results := results.(reddit := entry, summary := summary);
    entry, summary := Absorb(results.youtube, results.summary, fetch(YouTube, topic, limit));
    results := results.(youtube := entry, summary := summary);
    entry, summary := Absorb(results.googleNews, results.summary, fetch(GoogleNews, topic, limit));
    results := results.(googleNews := entry, summary := summary);
  }

  /**
   * Failure isolation: a source's entry depends on its own call only, so
   * whatever another connector does, every source is still asked and
   * reported.
   */
  lemma FailureIsolation(topic: string, limit: int, fetch: Fetcher, other: Fetcher)
    requires other(YouTube, topic, limit) == fetch(YouTube, topic, limit)
    ensures IdeasOf(topic, limit, other).youtube == IdeasOf(topic, limit, fetch).youtube
    ensures IdeasOf(topic, limit, fetch).reddit == SourceRecord(fetch(Reddit, topic, limit))
    ensures IdeasOf(topic, limit, fetch).googleNews == SourceRecord(fetch(GoogleNews, topic, limit))
  {
  }

  /** The items a call delivered; a call that raised delivers none. */
  function Delivered(f: Fetch): nat
  {
    match f
    case Fetched(xs) => |xs|
    case Raised(_) => 0
  }

  // ---------------------------------------------------------------------
  // Single-source tools
  // ---------------------------------------------------------------------

  /** The dictionaries of `generate_reddit_ideas`, `generate_youtube_ideas` and `generate_news_ideas`. */
  datatype SingleSourceIdeas =
    | RedditIdeas(topic: string, subreddit: Option<string>, result: SourceResult)
    | YouTubeIdeas(topic: string, order: string, result: SourceResult)
    | NewsIdeas(topic: string, result: SourceResult)
  {
    function Source(): string
    {
      match this
      case RedditIdeas(_, _, _) => "reddit"
      case YouTubeIdeas(_, _, _) => "youtube"
      case NewsIdeas(_, _) => "google_news"
    }
  }

  /** The single-source tools never raise: a connector failure becomes the error field. */
  function GenerateRedditIdeas(topic: string, subreddit: Option<string>, f: Fetch): (r: SingleSourceIdeas)
    ensures r.Source() == "reddit" && r.topic == topic && r.RedditIdeas? && r.subreddit == subreddit
    ensures r.result.count == |r.result.items|
    ensures f.Fetched? ==> r.result.error == None && r.result.items == f.items
    ensures f.Raised? ==> r.result.items == [] && r.result.error == Some(f.message)
  {
    RedditIdeas(topic, subreddit, SourceRecord(f))
  }

  function GenerateYouTubeIdeas(topic: string, order: string, f: Fetch): (r: SingleSourceIdeas)
    ensures r.Source() == "youtube" && r.topic == topic && r.YouTubeIdeas? && r.order == order
    ensures r.result.count == |r.result.items|
    ensures f.Fetched? ==> r.result.error == None && r.result.items == f.items
    ensures f.Raised? ==> r.result.items == [] && r.result.error == Some(f.message)
  {
    YouTubeIdeas(topic, order, SourceRecord(f))
  }

  function GenerateNewsIdeas(topic: string, f: Fetch): (r: SingleSourceIdeas)
    ensures r.Source() == "google_news" && r.topic == topic && r.NewsIdeas?
    ensures r.result.count == |r.result.items|
    ensures f.Fetched? ==> r.result.error == None && r.result.items == f.items
    ensures f.Raised? ==> r.result.items == [] && r.result.error == Some(f.message)
  {
    NewsIdeas(topic, SourceRecord(f))
  }
}
