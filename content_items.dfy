/**
 * The items the three source connectors return, as the trend-intelligence
 * layer reads them. A field the code tests for presence (`"x" in item`) or
 * reads with a default (`item.get("x", d)`) whose default differs between
 * call sites is an `Option`; a field always read with the same default is a
 * plain value holding what the connector puts there.
 */
module ContentItems {
  import opened Wrappers

  /** The three content sources, in the order the code visits them. */
  datatype SourceKind = Reddit | YouTube | GoogleNews

  /** One of a Reddit post's top comments. */
  datatype Comment = Comment(text: string, score: int)

  datatype Item =
    | RedditPost(
        title: Option<string>,
        selftext: string,
        score: int,
        numComments: int,
        subreddit: string,
        upvoteRatio: Option<real>,
        engagementScore: Option<real>,
        recencyScore: Option<real>,
        ageHours: Option<real>,
        topComments: seq<Comment>)
    | YouTubeVideo(
        title: Option<string>,
        description: string,
        tags: seq<string>,
        channelTitle: Option<string>,
        publishedAt: string,
        viewCount: int,
        engagementRatio: Option<real>)
    | NewsArticle(
        title: Option<string>,
        description: string,
        keywords: seq<string>,
        sourceName: Option<string>,
        credibilityScore: Option<real>,
        recencyScore: Option<real>,
        isMajorOutlet: bool,
        ageHours: Option<real>)

  function KindOf(item: Item): SourceKind
  {
    match item
    case RedditPost(_, _, _, _, _, _, _, _, _, _) => Reddit
    case YouTubeVideo(_, _, _, _, _, _, _) => YouTube
    case NewsArticle(_, _, _, _, _, _, _, _) => GoogleNews
  }

  /** `item.get("title", "")`. */
  function Title(item: Item): string
  {
    item.title.GetOr("")
  }

  /** All items of a list come from the given source. */
  predicate AllFrom(items: seq<Item>, kind: SourceKind)
  {
    forall i :: 0 <= i < |items| ==> KindOf(items[i]) == kind
  }
}
