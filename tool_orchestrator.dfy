/**
 * The intent-to-tool plan: which composite tool (if any) a query of a
 * given intent should be served by, with the parameters taken from the
 * detected requirements, and the prose recommendation for each intent.
 */
module Orchestrator {
  import opened Wrappers
  import opened Text
  import opened JsonValues
  import QueryAnalyzer

  const CompleteScriptTool := "generate_complete_script"
  const CompleteVideoTool := "generate_complete_video"
  const AudioTool := "generate_audio_from_script"
  const DefaultStyle := "informative and engaging"
  const TrendingRecommendation := "Use 'trending_analysis' prompt or 'trending://topics/{topic}' resource"
  const ScriptNote := "This tool automatically fetches trends internally"
  const VideoNote := "This tool automatically fetches trends, generates script, and creates video"
  const GeneralRecommendation := "Use 'query_with_context' prompt for automatic context injection"

  /** The dictionary `orchestrate_complete_workflow` returns; absent keys are `None`. */
  datatype Orchestration = Orchestration(toolSequence: seq<string>, parameters: map<string, Json>,
                                         autoContext: bool, recommendation: Option<string>, note: Option<string>)

  /** `d.get(k, default)`: a key that is present wins, whatever it holds. */
  function Lookup(m: map<string, Json>, k: string, default: Json): (v: Json)
    ensures k in m ==> v == m[k]
    ensures k !in m ==> v == default
  {
    if k in m then m[k] else default
  }

  function TopicOr(topics: seq<string>, default: string): string
  {
    if topics == [] then default else topics[0]
  }

  /** The intents served by a tool; every other intent is answered by a prompt or resource. */
  predicate ToolIntent(intent: string)
  {
    intent == "script_generation" || intent == "video_creation" || intent == "voice_cloning"
  }

  /** The parameters of the script tool (and the shared ones of the video tool). */
  function ScriptParameters(topics: seq<string>, requirements: map<string, Json>): (m: map<string, Json>)
    ensures "topic" in m && m["topic"] == JStr(TopicOr(topics, "general"))
    ensures "duration_seconds" in m && m["duration_seconds"] == Lookup(requirements, "duration", JNum(60.0))
    ensures "style" in m && m["style"] == Lookup(requirements, "style", JStr(DefaultStyle))
  {
    map["topic" := JStr(TopicOr(topics, "general")),
        "duration_seconds" := Lookup(requirements, "duration", JNum(60.0)),
        "style" := Lookup(requirements, "style", JStr(DefaultStyle))]
  }

  /** The parameters of the video tool: the script tool's and the video path. */
  function VideoParameters(topics: seq<string>, requirements: map<string, Json>): (m: map<string, Json>)
    ensures forall k :: k in ScriptParameters(topics, requirements) ==>
              k in m && m[k] == ScriptParameters(topics, requirements)[k]
    ensures "video_path" in m && m["video_path"] == Lookup(requirements, "video_path", JNull)
  {
    var base := ScriptParameters(topics, requirements);
    assert "video_path" !in base;
    base["video_path" := Lookup(requirements, "video_path", JNull)]
  }

  /** The parameters of the audio tool. */
  function VoiceParameters(requirements: map<string, Json>): (m: map<string, Json>)
    ensures "video_path" in m && m["video_path"] == Lookup(requirements, "video_path", JNull)
    ensures "voice_name" in m && m["voice_name"] == Lookup(requirements, "voice_name", JNull)
  {
    map["video_path" := Lookup(requirements, "video_path", JNull),
        "voice_name" := Lookup(requirements, "voice_name", JNull)]
  }

  /** `orchestrate_complete_workflow`. */
  function Orchestrate(intent: string, topics: seq<string>, requirements: map<string, Json>): (o: Orchestration)
    ensures |o.toolSequence| <= 1
    ensures o.toolSequence != [] <==> ToolIntent(intent)
    ensures o.recommendation.Some? <==> !ToolIntent(intent)
    ensures o.autoContext <==> intent != "voice_cloning"
    ensures o.note.Some? <==> intent == "script_generation" || intent == "video_creation"
    ensures !ToolIntent(intent) ==> o.parameters == map[]
    ensures intent == "script_generation" || intent == "video_creation" ==>
      && "topic" in o.parameters && o.parameters["topic"] == JStr(TopicOr(topics, "general"))
      && "duration_seconds" in o.parameters
      && o.parameters["duration_seconds"] == Lookup(requirements, "duration", JNum(60.0))
      && "style" in o.parameters && o.parameters["style"] == Lookup(requirements, "style", JStr(DefaultStyle))
    ensures intent == "video_creation" || intent == "voice_cloning" ==>
      "video_path" in o.parameters && o.parameters["video_path"] == Lookup(requirements, "video_path", JNull)
  {
    if intent == "trending_topics" then
      Orchestration([], map[], true,
                    Some(TrendingRecommendation), None)
    else if intent == "script_generation" then
      Orchestration([CompleteScriptTool], ScriptParameters(topics, requirements),
                    true, None, Some(ScriptNote))
    else if intent == "video_creation" then
      Orchestration([CompleteVideoTool], VideoParameters(topics, requirements),
                    true, None,
                    Some(VideoNote))
    else if intent == "voice_cloning" then
      Orchestration([AudioTool], VoiceParameters(requirements), false, None, None)
    else
      Orchestration([], map[], true, Some(GeneralRecommendation), None)
  }

  /** `should_chain_tools`: the composite tools do everything, so nothing is ever chained. */
  function ShouldChainTools(intent: string): (r: bool)
    ensures !r
  {
    false
  }

  /** `get_recommended_approach`. */
  function GetRecommendedApproach(intent: string, topics: seq<string>): (r: string)
    ensures intent == "trending_topics" ==> Contains(r, TopicOr(topics, "{topic}"))
  {
    if intent == "trending_topics" then
      var topic := TopicOr(topics, "{topic}");
      TrendingApproachNamesTopic(topic);
      "Use 'trending_analysis' prompt with topic='" + topic + "' OR read resource 'trending://topics/" + topic + "'"
    else if intent == "script_generation" then
      "Use 'script_generation' prompt OR call '" + CompleteScriptTool + "' tool (auto-fetches context)"
    else if intent == "video_creation" then
      "Use '" + CompleteVideoTool + "' tool (auto-fetches context and does everything)"
    else if intent == "voice_cloning" then
      "Use '" + AudioTool + "' tool"
    else
      "Use 'query_with_context' prompt for automatic context injection"
  }

  lemma TrendingApproachNamesTopic(topic: string)
    ensures Contains("Use 'trending_analysis' prompt with topic='" + topic + "' OR read resource 'trending://topics/"
                     + topic + "'", topic)
  {
    var a := "Use 'trending_analysis' prompt with topic='";
    var b := "' OR read resource 'trending://topics/" + topic + "'";
    ContainsAt(topic, topic, 0);
    ContainsInRight(a, topic, topic);
    ContainsInLeft(a + topic, b, topic);
    assert a + topic + b == "Use 'trending_analysis' prompt with topic='" + topic + "' OR read resource 'trending://topics/"
                            + topic + "'";
  }

  /** In the middle of `a + x + b` lies `x`. */
  lemma Middle(a: string, x: string, b: string)
    ensures Contains(a + x + b, x)
  {
    ContainsAt(x, x, 0);
    ContainsInRight(a, x, x);
    ContainsInLeft(a + x, b, x);
  }

  /** The plan and the recommendation agree: the tool a plan calls is the one the recommendation names. */
  lemma PlannedToolIsRecommended(intent: string, topics: seq<string>, requirements: map<string, Json>)
    ensures forall tool :: tool in Orchestrate(intent, topics, requirements).toolSequence ==>
              Contains(GetRecommendedApproach(intent, topics), tool)
  {
    var tools := Orchestrate(intent, topics, requirements).toolSequence;
    var approach := GetRecommendedApproach(intent, topics);
    if intent == "script_generation" {
      assert tools == [CompleteScriptTool];
      ScriptApproachNamesTool(topics);
    } else if intent == "video_creation" {
      assert tools == [CompleteVideoTool];
      VideoApproachNamesTool(topics);
    } else if intent == "voice_cloning" {
      assert tools == [AudioTool];
      AudioApproachNamesTool(topics);
    }
  }

  lemma ScriptApproachNamesTool(topics: seq<string>)
    ensures Contains(GetRecommendedApproach("script_generation", topics), CompleteScriptTool)
  {
    Middle("Use 'script_generation' prompt OR call '", CompleteScriptTool, "' tool (auto-fetches context)");
  }

  lemma VideoApproachNamesTool(topics: seq<string>)
    ensures Contains(GetRecommendedApproach("video_creation", topics), CompleteVideoTool)
  {
    Middle("Use '", CompleteVideoTool, "' tool (auto-fetches context and does everything)");
  }

  lemma AudioApproachNamesTool(topics: seq<string>)
    ensures Contains(GetRecommendedApproach("voice_cloning", topics), AudioTool)
  {
    Middle("Use '", AudioTool, "' tool");
  }

  /**
   * For the intents the analyser produces: every intent that needs
   * context gets it automatically, and only voice cloning goes without;
   * audio generation, which needs no context, is still planned with it.
   */
  lemma AutoContextForAnalysedIntents(i: QueryAnalyzer.Intent, topics: seq<string>, requirements: map<string, Json>)
    ensures QueryAnalyzer.NeedsContext(i) ==> Orchestrate(i.Name(), topics, requirements).autoContext
    ensures !Orchestrate(i.Name(), topics, requirements).autoContext <==> i == QueryAnalyzer.VoiceCloning
    ensures Orchestrate(i.Name(), topics, requirements).toolSequence != [] <==>
              i in {QueryAnalyzer.ScriptGeneration, QueryAnalyzer.VideoCreation, QueryAnalyzer.VoiceCloning}
  {
    QueryAnalyzer.ParseIntentName(i);
  }

  // ---------------------------------------------------------------------
  // The default duration and style
  // ---------------------------------------------------------------------

  /**
   * The requirements `detect_implicit_requirements` returns always hold the
   * keys "duration" and "style", with null when nothing was detected, so on
   * those requirements the defaults 60 and "informative and engaging" are
   * never used and the plan carries a null duration.
   */
  lemma NullDurationWhenUndetected(query: string, topics: seq<string>)
    requires QueryAnalyzer.DetectedRequirements(query).duration == JNull
    ensures Orchestrate("script_generation", topics, QueryAnalyzer.RuleRequirements(query)).parameters["duration_seconds"]
            == JNull
  {
  }

  /** The requirements of a query where nothing was detected give a null duration, not 60. */
  lemma NullDurationExample(topics: seq<string>)
    ensures Orchestrate("script_generation", topics, QueryAnalyzer.AsDict(QueryAnalyzer.NoRequirements))
              .parameters["duration_seconds"] == JNull
  {
  }

  /** The requirements without their null entries: a key is present only when something was detected. */
  function Present(requirements: map<string, Json>): (m: map<string, Json>)
    ensures forall k :: k in m <==> k in requirements && requirements[k] != JNull
    ensures forall k :: k in m ==> m[k] == requirements[k]
  {
    map k | k in requirements && requirements[k] != JNull :: requirements[k]
  }

  /** The plan with undetected requirements falling back to their defaults. */
  function OrchestrateWithDefaults(intent: string, topics: seq<string>, requirements: map<string, Json>): (o: Orchestration)
    ensures intent == "script_generation" || intent == "video_creation" ==>
      && "duration_seconds" in o.parameters && o.parameters["duration_seconds"] != JNull
      && "style" in o.parameters && o.parameters["style"] != JNull
  {
    Orchestrate(intent, topics, Present(requirements))
  }

  /**
   * With the defaults restored, a query without a duration gets 60 seconds
   * and one with a detected duration keeps it.
   */
  lemma DefaultDurationRestored(query: string, topics: seq<string>)
    ensures var d := QueryAnalyzer.DetectedRequirements(query).duration;
      OrchestrateWithDefaults("script_generation", topics, QueryAnalyzer.RuleRequirements(query)).parameters["duration_seconds"]
      == (if d == JNull then JNum(60.0) else d)
  {
    var req := QueryAnalyzer.RuleRequirements(query);
    assert req["duration"] == QueryAnalyzer.DetectedRequirements(query).duration;
  }
}
