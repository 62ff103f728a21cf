/**
 * The rule-based query analyser of `src/utils/query_analyzer.py`: intent
 * classification by keyword groups, topic extraction, detection of the
 * implicit requirements (duration, style, voice name, video path), the
 * intent-to-context-needs table, and the normalisation that forces an
 * untrusted analysis record (the parsed reply of a language model) into
 * the closed set of intents and sources.
 */
module QueryAnalyzer {
  import opened Wrappers
  import opened Text
  import opened Sequences
  import opened JsonValues
  import opened Patterns

  // ---------------------------------------------------------------------
  // Intents
  // ---------------------------------------------------------------------

  datatype Intent =
    | TrendingTopics
    | ScriptGeneration
    | VideoCreation
    | VoiceCloning
    | AudioGeneration
    | GeneralQuery
  {
    function Name(): string
    {
      match this
      case TrendingTopics => "trending_topics"
      case ScriptGeneration => "script_generation"
      case VideoCreation => "video_creation"
      case VoiceCloning => "voice_cloning"
      case AudioGeneration => "audio_generation"
      case GeneralQuery => "general_query"
    }
  }

  /** Membership in `valid_intents`: the intent a name denotes, if any. */
  function ParseIntent(s: string): (r: Option<Intent>)
    ensures r.Some? ==> r.value.Name() == s
  {
    if s == "trending_topics" then Some(TrendingTopics)
    else if s == "script_generation" then Some(ScriptGeneration)
    else if s == "video_creation" then Some(VideoCreation)
    else if s == "voice_cloning" then Some(VoiceCloning)
    else if s == "audio_generation" then Some(AudioGeneration)
    else if s == "general_query" then Some(GeneralQuery)
    else None
  }

  /** Every intent's name parses back to it. */
  lemma ParseIntentName(i: Intent)
    ensures ParseIntent(i.Name()) == Some(i)
  {
    match i
    case TrendingTopics =>
    case ScriptGeneration =>
    case VideoCreation =>
    case VoiceCloning =>
    case AudioGeneration =>
    case GeneralQuery =>
  }

  /** The intents whose analysis always carries the three concrete sources. */
  predicate NeedsContext(i: Intent)
  {
    i == TrendingTopics || i == ScriptGeneration || i == VideoCreation
  }

  /** The intents that never need external context. */
  predicate NeedsNoContext(i: Intent)
  {
    i == VoiceCloning || i == AudioGeneration
  }

  const ConcreteSources: seq<string> := ["reddit", "youtube", "news"]
  const ValidSources: seq<string> := ["reddit", "youtube", "news", "all", "none"]

  /** The concrete sources are valid names, and "none" is not among them. */
  lemma SourceNames()
    ensures "none" !in ConcreteSources && "none" in ValidSources
    ensures forall s :: s in ConcreteSources ==> s in ValidSources
  {
  }

  /**
   * The sources an analysis may report for an intent: valid names, never
   * empty, no "none" when the intent needs context, only "none" when it
   * needs none.
   */
  predicate SourcesConsistent(intent: Intent, sources: seq<string>)
  {
    && sources != []
    && (forall s :: s in sources ==> s in ValidSources)
    && (NeedsContext(intent) ==> "none" !in sources)
    && (NeedsNoContext(intent) ==> sources == ["none"])
  }

  /** The rule-based choice of sources is consistent for every intent. */
  lemma RuleSourcesConsistent(intent: Intent)
    ensures SourcesConsistent(intent, if NeedsNoContext(intent) then ["none"] else ConcreteSources)
  {
    SourceNames();
  }

  // ---------------------------------------------------------------------
  // Rule-based intent
  // ---------------------------------------------------------------------

  const TrendingCues: seq<string> :=
    ["trending", "what's happening", "current", "latest", "news", "what's going on"]
  const ScriptCues: seq<string> := ["script", "monologue", "write", "content"]
  const VideoCues: seq<string> := ["video", "talking head", "d-id"]
  const VoiceCues: seq<string> := ["voice", "clone", "mimic"]
  const AudioCues: seq<string> := ["audio", "speech", "tts"]

  /** `any(word in text for word in words)`. */
  predicate AnyIn(words: seq<string>, text: string)
  {
    exists i :: 0 <= i < |words| && Contains(text, words[i])
  }

  /** The intent the keyword rules give the query. */
  function RuleIntent(query: string): Intent
  {
    var q := Lower(query);
    if AnyIn(TrendingCues, q) then TrendingTopics
    else if AnyIn(ScriptCues, q) then ScriptGeneration
    else if AnyIn(VideoCues, q) then VideoCreation
    else if AnyIn(VoiceCues, q) then VoiceCloning
    else if AnyIn(AudioCues, q) then AudioGeneration
    else GeneralQuery
  }

  /** The keyword groups with the intent each selects, in the order they are tried. */
  const IntentRules: seq<(Intent, seq<string>)> := [
    (TrendingTopics, TrendingCues),
    (ScriptGeneration, ScriptCues),
    (VideoCreation, VideoCues),
    (VoiceCloning, VoiceCues),
    (AudioGeneration, AudioCues)
  ]

  /**
   * The rule intent is the intent of the first group with a cue in the
   * lower-cased query; general_query exactly when no group has one.
   */
  lemma RuleIntentIsFirstHit(query: string)
    ensures RuleIntent(query) == GeneralQuery
            <==> forall k :: 0 <= k < |IntentRules| ==> !AnyIn(IntentRules[k].1, Lower(query))
    ensures RuleIntent(query) != GeneralQuery ==>
              exists k :: 0 <= k < |IntentRules| && IntentRules[k].0 == RuleIntent(query)
                && AnyIn(IntentRules[k].1, Lower(query))
                && forall j :: 0 <= j < k ==> !AnyIn(IntentRules[j].1, Lower(query))
  {
    var q := Lower(query);
    if AnyIn(TrendingCues, q) {
      assert IntentRules[0] == (TrendingTopics, TrendingCues);
    } else if AnyIn(ScriptCues, q) {
      assert IntentRules[1] == (ScriptGeneration, ScriptCues);
    } else if AnyIn(VideoCues, q) {
      assert IntentRules[2] == (VideoCreation, VideoCues);
    } else if AnyIn(VoiceCues, q) {
      assert IntentRules[3] == (VoiceCloning, VoiceCues);
    } else if AnyIn(AudioCues, q) {
      assert IntentRules[4] == (AudioGeneration, AudioCues);
    }
  }

  /** A query naming both a script and a video, and no trend cue, asks for a script. */
  lemma ScriptBeforeVideo(query: string)
    requires Contains(Lower(query), "script") && Contains(Lower(query), "video")
    requires !AnyIn(TrendingCues, Lower(query))
    ensures RuleIntent(query) == ScriptGeneration
  {
    assert ScriptCues[0] == "script";
  }

  // ---------------------------------------------------------------------
  // Topic extraction
  // ---------------------------------------------------------------------

  const TopicStopWords: set<string> :=
    {"what", "is", "are", "the", "a", "an", "about", "for", "to", "with", "how", "when", "where", "why"}

  predicate NotQuote(c: char) { c != '"' }

  /** The pattern `"([^"]+)"` at `p`: a quoted, non-empty run without quotes. */
  function QuotedAt(s: string, p: nat): (r: Option<Found>)
    ensures r.Some? ==> p < r.value.end <= |s|
  {
    if p < |s| && s[p] == '"' then
      var n := Run(s, p + 1, NotQuote);
      if n >= 1 && p + 1 + n < |s| then Some(Found(s[p + 1..p + 1 + n], p + 2 + n)) else None
    else None
  }

  /** The length of a capitalised word `[A-Z][a-z]+` at `i`, or 0. */
  function CapWordAt(s: string, i: nat): (n: nat)
    requires i <= |s|
    ensures i + n <= |s|
  {
    if i < |s| && IsUpper(s[i]) then
      var k := Run(s, i + 1, IsLowerLetter);
      if k >= 1 then 1 + k else 0
    else 0
  }

  /** Where the greedy repetition `(?:\s+[A-Z][a-z]+)*` from `i` ends. */
  function MoreCapWords(s: string, i: nat): (e: nat)
    requires i <= |s|
    ensures i <= e <= |s|
    decreases |s| - i
  {
    var w := Run(s, i, IsSpace);
    if w >= 1 && CapWordAt(s, i + w) > 0 then MoreCapWords(s, i + w + CapWordAt(s, i + w))
    else i
  }

  /** The length of the alternative `about|on|regarding` at `p`, or 0. */
  function TopicCueAt(s: string, p: nat): (n: nat)
    ensures n == 0 || p + n <= |s|
  {
    if At(s, p, "about") then 5
    else if At(s, p, "on") then 2
    else if At(s, p, "regarding") then 9
    else 0
  }

  /** The pattern `(?:about|on|regarding)\s+([A-Z][a-z]+(?:\s+[A-Z][a-z]+)*)` at `p`. */
  function CuedPhraseAt(s: string, p: nat): (r: Option<Found>)
    ensures r.Some? ==> p < r.value.end <= |s|
  {
    var kw := TopicCueAt(s, p);
    if kw == 0 then None
    else
      var w := Run(s, p + kw, IsSpace);
      var q := p + kw + w;
      var c := CapWordAt(s, q);
      if w == 0 || c == 0 then None
      else
        var e := MoreCapWords(s, q + c);
        Some(Found(s[q..e], e))
  }

  /** The pattern `([A-Z][a-z]+(?:\s+[A-Z][a-z]+)+)` at `p`: two or more capitalised words. */
  function CapPhraseAt(s: string, p: nat): (r: Option<Found>)
    ensures r.Some? ==> p < r.value.end <= |s|
  {
    if p > |s| then None
    else
      var c := CapWordAt(s, p);
      if c == 0 then None
      else
        var e := MoreCapWords(s, p + c);
        if e == p + c then None else Some(Found(s[p..e], e))
  }

  lemma TopicPatternsAdvance()
    ensures Advances(QuotedAt) && Advances(CuedPhraseAt) && Advances(CapPhraseAt)
  {
  }

  /** `re.findall(r'"([^"]+)"', query)`. */
  function QuotedStrings(query: string): seq<string>
  {
    TopicPatternsAdvance();
    FindAll(query, 0, QuotedAt)
  }

  /** The phrases the two fallback patterns find, first pattern first. */
  function PatternTopics(query: string): seq<string>
  {
    TopicPatternsAdvance();
    FindAll(query, 0, CuedPhraseAt) + FindAll(query, 0, CapPhraseAt)
  }

  /** `re.sub(r'[^\w\s]', '', word)` on a word without white space. */
  function CleanWord(w: string): string
  {
    Filter(w, IsWordChar)
  }

  /** The state of the word loop: the topics emitted so far and the phrase being built. */
  datatype WordScan = WordScan(topics: seq<string>, current: seq<string>)

  /** One step of the word loop. */
  function ScanWord(st: WordScan, w: string): WordScan
  {
    var c := CleanWord(w);
    if c != "" && Lower(c) !in TopicStopWords then
      if IsUpper(c[0]) || |c| > 4 then WordScan(st.topics, st.current + [c])
      else if st.current != [] then WordScan(st.topics + [Join(" ", st.current)], [])
      else st
    else st
  }

  /** The word loop's state after the given words. */
  function ScanWords(ws: seq<string>): WordScan
  {
    if ws == [] then WordScan([], [])
    else ScanWord(ScanWords(ws[..|ws| - 1]), ws[|ws| - 1])
  }

  /** The phrases the word loop emits, with the open phrase closed at the end. */
  function WordTopics(query: string): seq<string>
  {
    var st := ScanWords(Words(query));
    st.topics + (if st.current != [] then [Join(" ", st.current)] else [])
  }

  /** The topic list before cleaning. */
  function RawTopics(query: string): seq<string>
  {
    var t := QuotedStrings(query) + WordTopics(query);
    if t == [] then PatternTopics(query) else t
  }

  /** `[t.strip() for t in topics if len(t.strip()) > 2]`: stripped, each longer than two. */
  function CleanTopics(ts: seq<string>): (r: seq<string>)
    ensures forall t :: t in r ==> |t| > 2 && Strip(t) == t
  {
    if ts == [] then []
    else
      var s := Strip(ts[0]);
      StripStable(ts[0]);
      (if |s| > 2 then [s] else []) + CleanTopics(ts[1..])
  }

  /** A non-empty stripped string is its own strip. */
  lemma StripStable(t: string)
    ensures Strip(t) != [] ==> Strip(Strip(t)) == Strip(t)
  {
    StripShape(t);
    if Strip(t) != [] {
      StripIdentity(Strip(t));
    }
  }

  predicate KeptQueryWord(w: string)
  {
    Lower(w) !in TopicStopWords && |w| > 2
  }

  /** The last resort: the first three meaningful words of the query, joined. */
  function FallbackTopic(query: string): seq<string>
  {
    var ws := Filter(Words(query), KeptQueryWord);
    if ws == [] then [] else [Join(" ", Take(ws, 3))]
  }

  /**
   * What `extract_topics` may return: when cleaning leaves topics, up to
   * five of the distinct cleaned topics in some order (it is
   * `list(set(...))[:5]`); otherwise the fallback phrase, if any.
   */
  predicate TopicsOf(query: string, topics: seq<string>)
  {
    var c := Elements(CleanTopics(RawTopics(query)));
    if c != {} then Distinct(topics) && Elements(topics) <= c && |topics| == Min(5, |c|)
    else topics == FallbackTopic(query)
  }

  /** The word loop of `extract_topics`: the phrases it emits and the phrase still open. */
  method ScanTopicWords(words: seq<string>) returns (emitted: seq<string>, current: seq<string>)
    ensures WordScan(emitted, current) == ScanWords(words)
  {
    emitted := [];
    current := [];
    var i := 0;
    while i < |words|
      invariant 0 <= i <= |words|
      invariant WordScan(emitted, current) == ScanWords(words[..i])
    {
      var clean := CleanWord(words[i]);
      if clean != "" && Lower(clean) !in TopicStopWords {
        if IsUpper(clean[0]) || |clean| > 4 {
          current := current + [clean];
        } else if current != [] {
          emitted := emitted + [Join(" ", current)];
          current := [];
        }
      }
      assert words[..i + 1][..i] == words[..i];
      i := i + 1;
    }
    assert words[..i] == words;
  }

  /** The two `re.findall` extensions used when nothing else was found. */
  method FindPatternTopics(query: string) returns (found: seq<string>)
    ensures found == PatternTopics(query)
  {
    TopicPatternsAdvance();
    found := [];
    found := found + FindAll(query, 0, CuedPhraseAt);
    found := found + FindAll(query, 0, CapPhraseAt);
  }

  /** The topics `extract_topics` collects before cleaning them. */
  method CollectTopics(query: string) returns (raw: seq<string>)
    ensures raw == RawTopics(query)
  {
    raw := QuotedStrings(query);
    var emitted, current := ScanTopicWords(Words(query));
    raw := raw + emitted;
    if current != [] {
      raw := raw + [Join(" ", current)];
    }
    assert raw == QuotedStrings(query) + WordTopics(query);
    if raw == [] {
      raw := FindPatternTopics(query);
    }
  }

  method ExtractTopics(query: string) returns (topics: seq<string>)
    ensures TopicsOf(query, topics)
  {
    var raw := CollectTopics(query);
    var cleaned := CleanTopics(raw);
    var distinct := Enumerate(Elements(cleaned));
    if distinct == [] {
      topics := FallbackTopic(query);
    } else {
      topics := Take(distinct, 5);
    }
  }

  /** Joining non-empty words without white space gives a string with no white space at its ends. */
  lemma {:induction false} JoinWordsEnds(ws: seq<string>)
    requires ws != []
    requires forall w :: w in ws ==> w != [] && NoSpace(w)
    ensures |Join(" ", ws)| >= |ws[0]| >= 1
    ensures !IsSpace(Join(" ", ws)[0]) && !IsSpace(Join(" ", ws)[|Join(" ", ws)| - 1])
    decreases |ws|
  {
    assert ws[0] in ws;
    if |ws| > 1 {
      var rest := ws[1..];
      assert forall w :: w in rest ==> w in ws;
      JoinWordsEnds(rest);
      var j := Join(" ", rest);
      assert Join(" ", ws) == ws[0] + " " + j;
      assert Join(" ", ws)[0] == ws[0][0];
      assert Join(" ", ws)[|Join(" ", ws)| - 1] == j[|j| - 1];
    }
  }

  /** The fallback phrase is stripped and longer than two characters. */
  lemma FallbackTopicStripped(query: string)
    ensures forall t :: t in FallbackTopic(query) ==> |t| > 2 && Strip(t) == t
  {
    var ws := Filter(Words(query), KeptQueryWord);
    FilterMembers(Words(query), KeptQueryWord);
    if ws != [] {
      WordsOccur(query);
      var first := Take(ws, 3);
      assert first[0] == ws[0] && ws[0] in ws;
      assert forall w :: w in first ==> w in ws;
      JoinWordsEnds(first);
      StripIdentity(Join(" ", first));
    }
  }

  /** At most five topics, distinct, each already stripped and longer than two characters. */
  lemma TopicsBounded(query: string, topics: seq<string>)
    requires TopicsOf(query, topics)
    ensures |topics| <= 5 && Distinct(topics)
    ensures forall t :: t in topics ==> |t| > 2 && Strip(t) == t
  {
    var c := Elements(CleanTopics(RawTopics(query)));
    if c == {} {
      FallbackTopicStripped(query);
    } else {
      forall t | t in topics ensures |t| > 2 && Strip(t) == t {
        assert t in c;
      }
    }
  }

  // ---------------------------------------------------------------------
  // Implicit requirements
  // ---------------------------------------------------------------------

  function DigitValue(c: char): nat
  {
    if IsDigit(c) then c as int - '0' as int else 0
  }

  /** `int(ds)` for a string of decimal digits. */
  function DecimalValue(ds: string): nat
  {
    if ds == [] then 0 else DecimalValue(ds[..|ds| - 1]) * 10 + DigitValue(ds[|ds| - 1])
  }

  /** `int(str(n)) == n`. */
  lemma {:induction false} DecimalValueOfString(n: nat)
    ensures DecimalValue(NatToString(n)) == n
    decreases n
  {
    if n >= 10 {
      DecimalValueOfString(n / 10);
      var s := NatToString(n / 10) + [Digit(n % 10)];
      assert s[..|s| - 1] == NatToString(n / 10);
    }
  }

  /** The length of the first of `units` written at `q`, or 0. */
  function UnitAt(s: string, q: nat, units: seq<string>): (n: nat)
    ensures n == 0 || q + n <= |s|
  {
    if units == [] then 0
    else if At(s, q, units[0]) then |units[0]|
    else UnitAt(s, q, units[1..])
  }

  /** The pattern `(\d+)\s*(?:u1|u2|...)` at `p`, the number captured. */
  function NumberThenUnitAt(s: string, p: nat, units: seq<string>): (r: Option<Found>)
    ensures r.Some? ==> p < r.value.end <= |s|
  {
    if p > |s| then None
    else
      var d := Run(s, p, IsDigit);
      var q := p + d + Run(s, p + d, IsSpace);
      var u := UnitAt(s, q, units);
      if d == 0 || u == 0 then None else Some(Found(s[p..p + d], q + u))
  }

  /** The pattern `for\s+(\d+)` at `p`. */
  function ForNumberAt(s: string, p: nat): (r: Option<Found>)
    ensures r.Some? ==> p < r.value.end <= |s|
  {
    if !At(s, p, "for") then None
    else
      var w := Run(s, p + 3, IsSpace);
      var d := Run(s, p + 3 + w, IsDigit);
      if w == 0 || d == 0 then None else Some(Found(s[p + 3 + w..p + 3 + w + d], p + 3 + w + d))
  }

  /** `(\d+)\s*(?:second|sec|minute|min)`. */
  function SecondsOrMinutesAt(s: string, p: nat): (r: Option<Found>)
    ensures r.Some? ==> p < r.value.end <= |s|
  {
    NumberThenUnitAt(s, p, ["second", "sec", "minute", "min"])
  }

  /** `(\d+)\s*s(?:ec)?`: the longer spelling when present. */
  function ShortSecondsAt(s: string, p: nat): (r: Option<Found>)
    ensures r.Some? ==> p < r.value.end <= |s|
  {
    NumberThenUnitAt(s, p, ["sec", "s"])
  }

  /** `(\d+)\s*m(?:in)?`: the longer spelling when present. */
  function ShortMinutesAt(s: string, p: nat): (r: Option<Found>)
    ensures r.Some? ==> p < r.value.end <= |s|
  {
    NumberThenUnitAt(s, p, ["min", "m"])
  }

  /** `duration_patterns`, in order. */
  const DurationPatterns: seq<Pattern> := [SecondsOrMinutesAt, ShortSecondsAt, ShortMinutesAt, ForNumberAt]

  lemma DurationPatternsAdvance()
    ensures forall k :: 0 <= k < |DurationPatterns| ==> Advances(DurationPatterns[k])
  {
    assert Advances(SecondsOrMinutesAt) && Advances(ShortSecondsAt);
    assert Advances(ShortMinutesAt) && Advances(ForNumberAt);
  }

  /**
   * The seconds a duration match at `p` stands for: minutes when "min" is in
   * the matched text or "minute" in the slice running ten characters past it.
   */
  function Seconds(q: string, p: nat, f: Found): nat
    requires p <= f.end <= |q|
  {
    var n := DecimalValue(f.group);
    if Contains(q[p..f.end], "min") || Contains(q[p..Min(f.end + 10, |q|)], "minute") then n * 60 else n
  }

  /** The duration the first pattern from the `k`-th on that matches somewhere gives. */
  function DurationFrom(q: string, k: nat): Option<nat>
    decreases |DurationPatterns| - k
  {
    if k >= |DurationPatterns| then None
    else
      match Search(q, DurationPatterns[k])
      case Some(m) =>
        DurationPatternsAdvance();
        Some(Seconds(q, m.0, m.1))
      case None => DurationFrom(q, k + 1)
  }

  const StyleKeywords: seq<(string, seq<string>)> := [
    ("informative", ["informative", "educational", "factual"]),
    ("engaging", ["engaging", "exciting", "captivating"]),
    ("funny", ["funny", "humorous", "comedy"]),
    ("serious", ["serious", "formal", "professional"]),
    ("casual", ["casual", "relaxed", "conversational"])
  ]

  /** The first style from the `k`-th on with a keyword in the query. */
  function StyleFrom(q: string, k: nat): (r: Option<string>)
    ensures r.Some? ==> exists j :: k <= j < |StyleKeywords| && StyleKeywords[j].0 == r.value
                          && AnyIn(StyleKeywords[j].1, q)
    ensures r.None? ==> forall j :: k <= j < |StyleKeywords| ==> !AnyIn(StyleKeywords[j].1, q)
    decreases |StyleKeywords| - k
  {
    if k >= |StyleKeywords| then None
    else if AnyIn(StyleKeywords[k].1, q) then Some(StyleKeywords[k].0)
    else StyleFrom(q, k + 1)
  }

  predicate QuoteOrSpace(c: char) { c == '"' || IsSpace(c) }
  predicate IdentStart(c: char) { IsUpper(c) || IsLowerLetter(c) || c == '_' }
  predicate IdentChar(c: char) { IdentStart(c) || IsDigit(c) }

  /** The identifier `[A-Za-z_][A-Za-z0-9_]*` starting at `q`, if one does. */
  function IdentifierAt(s: string, q: nat): (r: Option<Found>)
    ensures r.Some? ==> q < r.value.end <= |s|
  {
    if q < |s| && IdentStart(s[q]) then
      var n := Run(s, q + 1, IdentChar);
      Some(Found(s[q..q + 1 + n], q + 1 + n))
    else None
  }

  /** The length of the alternative `named|called|is` at `q`, or 0. */
  function VoiceWordAt(s: string, q: nat): (n: nat)
    ensures n == 0 || q + n <= |s|
  {
    if At(s, q, "named") then 5
    else if At(s, q, "called") then 6
    else if At(s, q, "is") then 2
    else 0
  }

  /**
   * The pattern `voice["\s]+(?:named|called|is)?["\s]*([A-Za-z_][A-Za-z0-9_]*)`
   * at `p`. When the optional word is present but no identifier follows it,
   * the engine backtracks and captures the identifier starting at the word.
   */
  function VoiceNameAt(s: string, p: nat): (r: Option<Found>)
    ensures r.Some? ==> p < r.value.end <= |s|
  {
    if !At(s, p, "voice") then None
    else
      var r1 := Run(s, p + 5, QuoteOrSpace);
      var q := p + 5 + r1;
      var w := VoiceWordAt(s, q);
      var afterWord := if w > 0 then IdentifierAt(s, q + w + Run(s, q + w, QuoteOrSpace)) else None;
      if r1 == 0 then None
      else if afterWord.Some? then afterWord
      else IdentifierAt(s, q)
  }

  predicate PathChar(c: char) { IsWordChar(c) || c == '/' || c == '\\' }

  /** The pattern `([/\\][\w/\\]+\.(?:mp4|mov|avi))` at `p`. */
  function VideoPathAt(s: string, p: nat): (r: Option<Found>)
    ensures r.Some? ==> p < r.value.end <= |s|
  {
    if p < |s| && (s[p] == '/' || s[p] == '\\') then
      var n := Run(s, p + 1, PathChar);
      var e := p + 1 + n;
      if n >= 1 && (At(s, e, ".mp4") || At(s, e, ".mov") || At(s, e, ".avi")) then Some(Found(s[p..e + 4], e + 4))
      else None
    else None
  }

  function Group(m: Option<(nat, Found)>): Option<string>
  {
    match m
    case None => None
    case Some(x) => Some(x.1.group)
  }

  function TextOrNull(o: Option<string>): Json
  {
    match o
    case None => JNull
    case Some(s) => JStr(s)
  }

  function NumberOrNull(o: Option<nat>): Json
  {
    match o
    case None => JNull
    case Some(n) => JNum(n as real)
  }

  const RequirementKeys: set<string> := {"duration", "style", "voice_name", "video_path"}

  /** The four requirements `detect_implicit_requirements` always reports. */
  datatype Requirements = Requirements(duration: Json, style: Json, voiceName: Json, videoPath: Json)

  const NoRequirements := Requirements(JNull, JNull, JNull, JNull)

  /** The requirements as the dictionary the code builds: exactly the four keys. */
  function AsDict(r: Requirements): (m: map<string, Json>)
    ensures m.Keys == RequirementKeys
  {
    map["duration" := r.duration, "style" := r.style, "voice_name" := r.voiceName, "video_path" := r.videoPath]
  }

  /** What `detect_implicit_requirements` finds in the query. */
  function DetectedRequirements(query: string): Requirements
  {
    var q := Lower(query);
    Requirements(
      NumberOrNull(DurationFrom(q, 0)),
      TextOrNull(StyleFrom(q, 0)),
      TextOrNull(Group(Search(query, VoiceNameAt))),
      TextOrNull(Group(Search(query, VideoPathAt))))
  }

  /** The dictionary `detect_implicit_requirements` returns. */
  function RuleRequirements(query: string): (m: map<string, Json>)
    ensures m.Keys == RequirementKeys
  {
    AsDict(DetectedRequirements(query))
  }

  /** The number a duration match captured, in seconds. */
  method MatchSeconds(q: string, p: nat, f: Found) returns (n: nat)
    requires p <= f.end <= |q|
    ensures n == Seconds(q, p, f)
  {
    n := DecimalValue(f.group);
    if Contains(q[p..f.end], "min") || Contains(q[p..Min(f.end + 10, |q|)], "minute") {
      n := n * 60;
    }
  }

  /** The duration loop: the first pattern that matches decides, and the loop stops. */
  method DetectDuration(q: string) returns (duration: Option<nat>)
    ensures duration == DurationFrom(q, 0)
  {
    duration := None;
    var k := 0;
    while k < |DurationPatterns|
      invariant 0 <= k <= |DurationPatterns|
      invariant DurationFrom(q, k) == DurationFrom(q, 0)
    {
      var m := Search(q, DurationPatterns[k]);
      if m.Some? {
        DurationPatternsAdvance();
        var n := MatchSeconds(q, m.value.0, m.value.1);
        return Some(n);
      }
      k := k + 1;
    }
  }

  /** The style loop: the first style, in table order, with a keyword in the query. */
  method DetectStyle(q: string) returns (style: Option<string>)
    ensures style == StyleFrom(q, 0)
  {
    var j := 0;
    while j < |StyleKeywords|
      invariant 0 <= j <= |StyleKeywords|
      invariant StyleFrom(q, j) == StyleFrom(q, 0)
    {
      if AnyIn(StyleKeywords[j].1, q) {
        return Some(StyleKeywords[j].0);
      }
      j := j + 1;
    }
    return None;
  }

  /** The four detections of `detect_implicit_requirements`, each filling its own entry. */
  method DetectRequirementValues(query: string) returns (req: Requirements)
    ensures req == DetectedRequirements(query)
  {
    var q := Lower(query);
    req := NoRequirements;
    var duration := DetectDuration(q);
    if duration.Some? {
      req := req.(duration := JNum(duration.value as real));
    }
    var style := DetectStyle(q);
    if style.Some? {
      req := req.(style := JStr(style.value));
    }
    var voice := Search(query, VoiceNameAt);
    if voice.Some? {
      req := req.(voiceName := JStr(voice.value.1.group));
    }
    var path := Search(query, VideoPathAt);
    if path.Some? {
      req := req.(videoPath := JStr(path.value.1.group));
    }
  }

  method DetectImplicitRequirements(query: string) returns (requirements: map<string, Json>)
    ensures requirements == RuleRequirements(query)
  {
    var req := DetectRequirementValues(query);
    requirements := AsDict(req);
  }

  /** The first duration pattern that matches anywhere decides the duration. */
  lemma FirstDurationPatternWins(q: string, k: nat)
    requires k < |DurationPatterns|
    requires Search(q, DurationPatterns[k]).Some?
    requires forall j :: 0 <= j < k ==> Search(q, DurationPatterns[j]).None?
    ensures var m := Search(q, DurationPatterns[k]).value;
              m.0 <= m.1.end <= |q| && DurationFrom(q, 0) == Some(Seconds(q, m.0, m.1))
  {
    DurationPatternsAdvance();
    var j := 0;
    while j < k
      invariant 0 <= j <= k
      invariant DurationFrom(q, 0) == DurationFrom(q, j)
    {
      j := j + 1;
    }
  }

  // ---------------------------------------------------------------------
  // Context needs
  // ---------------------------------------------------------------------

  datatype ContextNeeds = ContextNeeds(sources: seq<string>, shouldFetch: bool, limit: nat)

  /** `determine_context_needs`: what to fetch for an intent, given whether topics were found. */
  function DetermineContextNeeds(intent: Intent, topics: seq<Json>): (n: ContextNeeds)
    ensures n.shouldFetch <==> n.sources != []
    ensures n.sources == [] || n.sources == ConcreteSources
  {
    match intent
    case TrendingTopics => ContextNeeds(ConcreteSources, true, 10)
    case ScriptGeneration => ContextNeeds(ConcreteSources, true, 5)
    case VideoCreation => ContextNeeds(ConcreteSources, true, 5)
    case VoiceCloning => ContextNeeds([], false, 5)
    case AudioGeneration => ContextNeeds([], false, 5)
    case GeneralQuery =>
      if topics != [] then ContextNeeds(ConcreteSources, true, 3) else ContextNeeds([], false, 5)
  }

  /** Context is fetched exactly for the intents that need it and for general queries with topics. */
  lemma ContextNeedsTable(intent: Intent, topics: seq<Json>)
    ensures DetermineContextNeeds(intent, topics).shouldFetch
            <==> NeedsContext(intent) || (intent == GeneralQuery && topics != [])
    ensures DetermineContextNeeds(intent, topics).limit
            == if intent == TrendingTopics then 10 else if intent == GeneralQuery && topics != [] then 3 else 5
  {
  }

  // ---------------------------------------------------------------------
  // Analyses
  // ---------------------------------------------------------------------

  datatype QueryAnalysis = QueryAnalysis(
    intent: Intent,
    topics: seq<Json>,
    contextSources: seq<string>,
    requirements: map<string, Json>,
    confidence: Json)

  /** `extract_topics(query)` as the list of values an analysis record holds. */
  method ExtractTopicValues(query: string) returns (values: seq<Json>)
    ensures AllStrings(values) && TopicsOf(query, Unstring(values))
  {
    var topics := ExtractTopics(query);
    UnstringStrings(topics);
    values := Strings(topics);
  }

  /** The sources the rules ask for: none for voice and audio, otherwise all three. */
  method RuleSources(intent: Intent) returns (sources: seq<string>)
    ensures sources == if NeedsNoContext(intent) then ["none"] else ConcreteSources
  {
    sources := ConcreteSources;
    if intent == TrendingTopics {
      sources := ConcreteSources;
    } else if intent == ScriptGeneration {
      sources := ConcreteSources;
    } else if intent == VoiceCloning || intent == AudioGeneration {
      sources := ["none"];
    } else if intent == VideoCreation {
      sources := ConcreteSources;
    }
  }

  /** `_analyze_with_rules`. */
  method AnalyzeWithRules(query: string) returns (a: QueryAnalysis)
    ensures a.intent == RuleIntent(query)
    ensures a.contextSources == if NeedsNoContext(a.intent) then ["none"] else ConcreteSources
    ensures AllStrings(a.topics) && TopicsOf(query, Unstring(a.topics))
    ensures a.requirements == RuleRequirements(query)
    ensures a.confidence == JNum(0.7)
  {
    var intent := RuleIntent(query);
    var topics := ExtractTopicValues(query);
    var sources := RuleSources(intent);
    var requirements := DetectImplicitRequirements(query);
    a := QueryAnalysis(intent, topics, sources, requirements, JNum(0.7));
  }

  // ---------------------------------------------------------------------
  // Normalising an untrusted analysis record
  // ---------------------------------------------------------------------

  /** The intent field: a valid name is kept, anything else becomes general_query. */
  function IntentField(v: Option<Json>): Intent
  {
    match v
    case Some(JStr(s)) => ParseIntent(s).GetOr(GeneralQuery)
    case _ => GeneralQuery
  }

  /** The values `for s in value` visits, or the error iterating over a scalar raises. */
  function Iterated(v: Json): Result<seq<Json>>
  {
    match v
    case JArr(xs) => Success(xs)
    case JStr(s) => Success(seq(|s|, i requires 0 <= i < |s| => JStr([s[i]])))
    case JObj(fs) => Success(Strings(Keys(fs)))
    case JNull => Failure("'NoneType' object is not iterable")
    case JBool(_) => Failure("'bool' object is not iterable")
    case JNum(_) => Failure("number object is not iterable")
  }

  predicate IsValidSource(v: Json)
  {
    v.JStr? && v.s in ValidSources
  }

  /** `[s for s in values if s in valid_sources]`. */
  function ValidSourceNames(vs: seq<Json>): (r: seq<string>)
    ensures forall s :: s in r ==> s in ValidSources
  {
    if vs == [] then []
    else (if IsValidSource(vs[0]) then [vs[0].s] else []) + ValidSourceNames(vs[1..])
  }

  /** The source list after the intent-based overrides and the final fallback. */
  function OverriddenSources(intent: Intent, ss: seq<string>): seq<string>
  {
    var forced :=
      if NeedsContext(intent) then (if "none" in ss || ss == [] then ConcreteSources else ss)
      else if NeedsNoContext(intent) then ["none"]
      else ss;
    if forced == [] then ConcreteSources else forced
  }

  /** The topics field: a list is kept, a string becomes a one-element list, anything else is re-extracted. */
  function TopicsField(v: Option<Json>, extracted: seq<string>): seq<Json>
  {
    match v
    case Some(JArr(xs)) => xs
    case Some(JStr(s)) => [JStr(s)]
    case _ => Strings(extracted)
  }

  /** The requirements field: an object's members override the rule-based requirements. */
  function RequirementsField(v: Option<Json>, rule: map<string, Json>): map<string, Json>
  {
    match v
    case Some(JObj(fs)) => rule + ToMap(fs)
    case _ => rule
  }

  /**
   * The confidence field. A boolean is a number to Python's `isinstance`
   * and lies in [0, 1], so it is kept; a number outside [0, 1] or any other
   * value becomes 0.8.
   */
  function ConfidenceField(v: Option<Json>): Json
  {
    match v
    case Some(JNum(x)) => if 0.0 <= x <= 1.0 then JNum(x) else JNum(0.8)
    case Some(JBool(b)) => JBool(b)
    case _ => JNum(0.8)
  }

  /**
   * What `_normalize_analysis_result` makes of `result` when `extract_topics`
   * gives `extracted`; it fails where iterating over the sources field raises.
   */
  function Normalized(result: seq<(string, Json)>, query: string, extracted: seq<string>): Result<QueryAnalysis>
  {
    match Iterated(Get(result, "context_sources").GetOr(JArr([JStr("all")])))
    case Failure(e) => Failure(e)
    case Success(vs) =>
      var intent := IntentField(Get(result, "intent"));
      Success(QueryAnalysis(
        intent,
        TopicsField(Get(result, "topics"), extracted),
        OverriddenSources(intent, ValidSourceNames(vs)),
        RequirementsField(Get(result, "requirements"), RuleRequirements(query)),
        ConfidenceField(Get(result, "confidence"))))
  }

  method NormalizeAnalysisResult(result: seq<(string, Json)>, query: string)
    returns (r: Result<QueryAnalysis>, ghost extracted: seq<string>)
    ensures TopicsOf(query, extracted)
    ensures r == Normalized(result, query, extracted)
  {
    var fallbackTopics := ExtractTopics(query);
    extracted := fallbackTopics;
    var intent := IntentField(Get(result, "intent"));
    var values := Iterated(Get(result, "context_sources").GetOr(JArr([JStr("all")])));
    if values.Failure? {
      return Failure(values.error), extracted;
    }
    var sources := ValidSourceNames(values.value);
    if NeedsContext(intent) {
      if "none" in sources || sources == [] {
        sources := ConcreteSources;
      }
    } else if NeedsNoContext(intent) {
      sources := ["none"];
    }
    if sources == [] {
      sources := ConcreteSources;
    }
    var topics := TopicsField(Get(result, "topics"), fallbackTopics);
    var rule := DetectImplicitRequirements(query);
    var requirements := RequirementsField(Get(result, "requirements"), rule);
    var confidence := ConfidenceField(Get(result, "confidence"));
    r := Success(QueryAnalysis(intent, topics, sources, requirements, confidence));
  }

  /** The record's `context_sources` is present and a scalar, which Python cannot iterate. */
  predicate ScalarSources(result: seq<(string, Json)>)
  {
    var v := Get(result, "context_sources");
    v.Some? && (v.value.JNull? || v.value.JBool? || v.value.JNum?)
  }

  /** Normalisation fails exactly when the sources field is a scalar. */
  lemma NormalizedFailure(result: seq<(string, Json)>, query: string, extracted: seq<string>)
    ensures Normalized(result, query, extracted).Failure? <==> ScalarSources(result)
  {
  }

  /**
   * The normalised intent is one of the six and keeps a valid input name;
   * the sources are valid names, never empty, the three concrete ones
   * without "none" for trending/script/video, and ["none"] for voice/audio.
   */
  lemma NormalizedIntentAndSources(result: seq<(string, Json)>, query: string, extracted: seq<string>)
    requires Normalized(result, query, extracted).Success?
    ensures var a := Normalized(result, query, extracted).value;
      && ParseIntent(a.intent.Name()) == Some(a.intent)
      && (forall i: Intent :: Get(result, "intent") == Some(JStr(i.Name())) ==> a.intent == i)
      && a.contextSources != []
      && (forall s :: s in a.contextSources ==> s in ValidSources)
      && (NeedsContext(a.intent) ==> "none" !in a.contextSources)
      && (NeedsNoContext(a.intent) ==> a.contextSources == ["none"])
  {
    var a := Normalized(result, query, extracted).value;
    SourceNames();
    ParseIntentName(a.intent);
    forall i: Intent | Get(result, "intent") == Some(JStr(i.Name())) ensures a.intent == i {
      ParseIntentName(i);
    }
  }

  /** Every rule-based requirement key is present; the record's own members take precedence. */
  lemma NormalizedRequirements(result: seq<(string, Json)>, query: string, extracted: seq<string>)
    requires Normalized(result, query, extracted).Success?
    ensures var a := Normalized(result, query, extracted).value;
      && RequirementKeys <= a.requirements.Keys
      && var given := Get(result, "requirements");
      forall k :: k in a.requirements ==>
        if given.Some? && given.value.JObj? && Get(given.value.fields, k).Some?
        then a.requirements[k] == Get(given.value.fields, k).value
        else k in RequirementKeys && a.requirements[k] == RuleRequirements(query)[k]
  {
  }

  /** The normalised confidence is a number in [0, 1] (a boolean counting as one). */
  lemma NormalizedConfidence(result: seq<(string, Json)>, query: string, extracted: seq<string>)
    requires Normalized(result, query, extracted).Success?
    ensures var c := Normalized(result, query, extracted).value.confidence;
      c.JBool? || (c.JNum? && 0.0 <= c.n <= 1.0)
    ensures var c := Normalized(result, query, extracted).value.confidence;
      (Get(result, "confidence").Some? && Get(result, "confidence").value.JNum?
       && 0.0 <= Get(result, "confidence").value.n <= 1.0) ==> c == Get(result, "confidence").value
  {
  }

  /** The topics field: a list is kept, a string is wrapped, anything else is the extracted list. */
  lemma TopicsFieldCases(v: Option<Json>, query: string, extracted: seq<string>)
    requires TopicsOf(query, extracted)
    ensures if v.Some? && v.value.JArr? then TopicsField(v, extracted) == v.value.items
      else if v.Some? && v.value.JStr? then TopicsField(v, extracted) == [v.value]
      else |TopicsField(v, extracted)| <= 5 && AllStrings(TopicsField(v, extracted))
           && forall t :: t in Unstring(TopicsField(v, extracted)) ==> |t| > 2 && Strip(t) == t
  {
    if !(v.Some? && (v.value.JArr? || v.value.JStr?)) {
      TopicsBounded(query, extracted);
      UnstringStrings(extracted);
    }
  }

  /** Re-extracted topics obey the extraction bounds; a string topic becomes a one-element list. */
  lemma NormalizedTopics(result: seq<(string, Json)>, query: string, extracted: seq<string>)
    requires TopicsOf(query, extracted)
    requires Normalized(result, query, extracted).Success?
    ensures var a := Normalized(result, query, extracted).value;
      var given := Get(result, "topics");
      if given.Some? && given.value.JArr? then a.topics == given.value.items
      else if given.Some? && given.value.JStr? then a.topics == [given.value]
      else |a.topics| <= 5 && AllStrings(a.topics)
           && forall t :: t in Unstring(a.topics) ==> |t| > 2 && Strip(t) == t
  {
    assert Normalized(result, query, extracted).value.topics == TopicsField(Get(result, "topics"), extracted);
    TopicsFieldCases(Get(result, "topics"), query, extracted);
  }

  /** A record whose topics field holds only strings gives an analysis whose topics are strings. */
  lemma NormalizedStringTopics(result: seq<(string, Json)>, query: string, extracted: seq<string>)
    requires TopicsOf(query, extracted)
    requires Normalized(result, query, extracted).Success?
    ensures StringTopicsField(result) ==> AllStrings(Normalized(result, query, extracted).value.topics)
  {
    assert Normalized(result, query, extracted).value.topics == TopicsField(Get(result, "topics"), extracted);
    TopicsFieldStrings(Get(result, "topics"), extracted);
  }

  lemma TopicsFieldStrings(v: Option<Json>, extracted: seq<string>)
    ensures (v.Some? && v.value.JArr? ==> AllStrings(v.value.items)) ==> AllStrings(TopicsField(v, extracted))
  {
    if !(v.Some? && (v.value.JArr? || v.value.JStr?)) {
      UnstringStrings(extracted);
    }
  }

  /** The record's topics field holds no list with a non-string item. */
  predicate StringTopicsField(result: seq<(string, Json)>)
  {
    var v := Get(result, "topics");
    v.Some? && v.value.JArr? ==> AllStrings(v.value.items)
  }

  method AnalyzeQueryIntent(query: string, useAi: bool, openRouterConfigured: bool,
                            aiResult: Option<seq<(string, Json)>>)
    returns (a: QueryAnalysis)
    ensures useAi && openRouterConfigured && aiResult.Some? && !ScalarSources(aiResult.value) ==>
              exists extracted :: TopicsOf(query, extracted)
                && Normalized(aiResult.value, query, extracted) == Success(a)
    ensures !(useAi && openRouterConfigured && aiResult.Some? && !ScalarSources(aiResult.value)) ==>
              && a.intent == RuleIntent(query)
              && a.contextSources == (if NeedsNoContext(a.intent) then ["none"] else ConcreteSources)
              && AllStrings(a.topics) && TopicsOf(query, Unstring(a.topics))
              && a.requirements == RuleRequirements(query)
              && a.confidence == JNum(0.7)
    ensures SourcesConsistent(a.intent, a.contextSources)
    ensures (aiResult.Some? ==> StringTopicsField(aiResult.value)) ==> AllStrings(a.topics)
  {
    var normalized: Option<QueryAnalysis> := None;
    ghost var extracted: seq<string> := [];
    if useAi && openRouterConfigured && aiResult.Some? {
      normalized, extracted := AnalyzeWithModel(query, aiResult.value);
    }
    if normalized.Some? {
      a := normalized.value;
    } else {
      a := AnalyzeWithRules(query);
      RuleSourcesConsistent(a.intent);
    }
  }

  /** The language-model path: the normalised record, or nothing when it cannot be normalised. */
  method AnalyzeWithModel(query: string, result: seq<(string, Json)>)
    returns (a: Option<QueryAnalysis>, ghost extracted: seq<string>)
    ensures TopicsOf(query, extracted)
    ensures a.Some? ==> Normalized(result, query, extracted) == Success(a.value)
    ensures a.Some? ==> SourcesConsistent(a.value.intent, a.value.contextSources)
    ensures a.None? <==> ScalarSources(result)
    ensures a.Some? && StringTopicsField(result) ==> AllStrings(a.value.topics)
  {
    var r;
    r, extracted := NormalizeAnalysisResult(result, query);
    NormalizedFailure(result, query, extracted);
    if r.Success? {
      NormalizedIntentAndSources(result, query, extracted);
      NormalizedStringTopics(result, query, extracted);
      a := Some(r.value);
    } else {
      a := None;
    }
  }
}
