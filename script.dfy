/**
 * Script generation: the configured inference providers are tried in a
 * fixed order until one produces a script, the errors of the ones that fail
 * are collected, and the output of the Groq models is cleaned of the
 * reasoning text they tend to emit. The provider calls themselves are
 * parameters (`groq`, `openrouter`): what each call produces for a prompt
 * and a model.
 */
module Script {
  import opened Wrappers
  import opened Text
  import opened Sequences
  import opened Patterns
  import opened ContentItems
  import opened Ideas
  import ContextSummary

  // ---------------------------------------------------------------------
  // Word count and token budget
  // ---------------------------------------------------------------------

  /** Python's `int(x)` on a float: truncation toward zero. */
  function Truncate(x: real): (r: int)
    ensures x >= 0.0 ==> r as real <= x < r as real + 1.0
    ensures x < 0.0 ==> r as real - 1.0 < x <= r as real
  {
    if x >= 0.0 then x.Floor else -((-x).Floor)
  }

  /** `int(duration_seconds / 60 * speaking_rate_wpm)`. */
  function TargetWordCount(durationSeconds: int, wpm: int): int
  {
    Truncate(durationSeconds as real / 60.0 * wpm as real)
  }

  /** `max(100, min(int(target * 2), 4096))`: the OpenRouter token budget. */
  function MaxTokens(target: int): (r: int)
    ensures 100 <= r <= 4096
    ensures 100 <= 2 * target <= 4096 ==> r == 2 * target
    ensures 2 * target < 100 ==> r == 100
    ensures 2 * target > 4096 ==> r == 4096
  {
    Max(100, Min(target * 2, 4096))
  }

  /** A longer script never gets a smaller budget. */
  lemma MaxTokensMonotone(a: int, b: int)
    requires a <= b
    ensures MaxTokens(a) <= MaxTokens(b)
  {
  }

  /** At a positive speaking rate, a longer script asks for at least as many words. */
  lemma TargetWordCountMonotone(d1: int, d2: int, wpm: int)
    requires 0 <= d1 <= d2 && wpm > 0
    ensures 0 <= TargetWordCount(d1, wpm) <= TargetWordCount(d2, wpm)
  {
    var x1 := d1 as real / 60.0 * wpm as real;
    var x2 := d2 as real / 60.0 * wpm as real;
    assert 0.0 <= x1 <= x2 by {
      assert d1 as real / 60.0 <= d2 as real / 60.0;
    }
    assert Truncate(x1) as real <= x1 <= x2 < Truncate(x2) as real + 1.0;
  }

  /** One minute at 150 words per minute: 150 words and a budget of 300 tokens. */
  lemma OneMinuteAtDefaultRate()
    ensures TargetWordCount(60, 150) == 150 && MaxTokens(150) == 300
  {
    assert 60 as real / 60.0 * 150 as real == 150.0;
  }

  // ---------------------------------------------------------------------
  // Cleaning the output of the Groq models
  // ---------------------------------------------------------------------

  /** The literal `lit` (lower case) occurs at `i`, ignoring the case of ASCII letters. */
  predicate AtIgnoringCase(s: string, i: nat, lit: string)
  {
    i + |lit| <= |s| && Lower(s[i..i + |lit|]) == lit
  }

  /** The leftmost position from `from` on where `lit` occurs, ignoring case. */
  function FindIgnoringCase(s: string, from: nat, lit: string): (r: Option<nat>)
    requires from <= |s|
    ensures r.Some? ==> from <= r.value && AtIgnoringCase(s, r.value, lit)
    ensures r.Some? ==> forall q :: from <= q < r.value ==> !AtIgnoringCase(s, q, lit)
    ensures r.None? ==> forall q :: from <= q <= |s| ==> !AtIgnoringCase(s, q, lit)
    decreases |s| - from
  {
    if AtIgnoringCase(s, from, lit) then Some(from)
    else if from == |s| then None
    else FindIgnoringCase(s, from + 1, lit)
  }

  /** `open.*?close` with `re.DOTALL | re.IGNORECASE` at `p`: up to the first `close` after `open`. */
  function BlockAt(s: string, p: nat, open: string, close: string): (r: Option<Found>)
    ensures r.Some? ==> p + |open| <= r.value.end - |close| && AtIgnoringCase(s, r.value.end - |close|, close)
  {
    if AtIgnoringCase(s, p, open) then
      match FindIgnoringCase(s, p + |open|, close)
      case Some(q) => Some(Found("", q + |close|))
      case None => None
    else None
  }

  function ReasoningBlockAt(s: string, p: nat): Option<Found>
  {
    BlockAt(s, p, "<reasoning>", "</reasoning>")
  }

  function ThinkBlockAt(s: string, p: nat): Option<Found>
  {
    BlockAt(s, p, "<think>", "</think>")
  }

  lemma BlockPatternsAdvance()
    ensures Advances(ReasoningBlockAt) && Advances(ThinkBlockAt)
  {
  }

  /** `re.sub(pattern, '', s)`: every match, left to right, removed. */
  function RemoveBlocks(s: string, m: Pattern): (r: string)
    requires Advances(m)
    ensures |r| <= |s|
    ensures Search(s, m).None? ==> r == s
    decreases |s|
  {
    match Search(s, m)
    case None => s
    case Some(x) =>
      assert x.0 < x.1.end <= |s|;
      s[..x.0] + RemoveBlocks(s[x.1.end..], m)
  }

  const ReasoningPhrases: seq<string> :=
    ["okay, let's", "first,", "looking at", "the user wants", "tackle this", "need to be", "let me", "so i need"]

  /** A short line whose lower-cased text holds one of the reasoning phrases. */
  predicate ReasoningLine(line: string)
  {
    (exists i :: 0 <= i < |ReasoningPhrases| && Contains(Lower(Strip(line)), ReasoningPhrases[i]))
    && |Strip(line)| < 200
  }

  /** The lines of the cleaned output: not reasoning, not blank, not starting with '<'. */
  predicate KeptLine(line: string)
  {
    var t := Lower(Strip(line));
    !ReasoningLine(line) && Strip(line) != "" && !(t != [] && t[0] == '<')
  }

  /** The text with the reasoning and think blocks removed. */
  function WithoutBlocks(content: string): string
  {
    BlockPatternsAdvance();
    RemoveBlocks(RemoveBlocks(content, ReasoningBlockAt), ThinkBlockAt)
  }

  /** What the cleaning block yields for the stripped reply `content`. */
  function CleanedText(content: string): string
  {
    var kept := Filter(SplitOn(WithoutBlocks(content), '\n'), KeptLine);
    var joined := Strip(Join("\n", kept));
    if joined == "" then Strip(content) else joined
  }

  /** The test the cleaning loop applies to one line. */
  method KeepLine(line: string) returns (keep: bool)
    ensures keep == KeptLine(line)
  {
    var lineLower := Lower(Strip(line));
    keep := false;
    if !ReasoningLine(line) {
      if Strip(line) != "" && !(lineLower != [] && lineLower[0] == '<') {
        keep := true;
      }
    }
  }

  /** The cleaning block of `_generate_with_groq`: the line loop over the block-free text. */
  method CleanGroqOutput(content: string) returns (cleaned: string)
    ensures cleaned == CleanedText(content)
  {
    var filtered := KeptLines(SplitOn(WithoutBlocks(content), '\n'));
    cleaned := Strip(Join("\n", filtered));
    if cleaned == "" {
      cleaned := Strip(content);
    }
  }

  /** The line loop: the lines that pass the test, in order. */
  method KeptLines(lines: seq<string>) returns (filtered: seq<string>)
    ensures filtered == Filter(lines, KeptLine)
  {
    filtered := [];
    var i := 0;
    while i < |lines|
      invariant 0 <= i <= |lines|
      invariant filtered == Filter(lines[..i], KeptLine)
    {
      FilterSnoc(lines[..i], lines[i], KeptLine);
      assert lines[..i + 1] == lines[..i] + [lines[i]];
      var keep := KeepLine(lines[i]);
      if keep {
        filtered := filtered + [lines[i]];
      }
      i := i + 1;
    }
    assert lines[..i] == lines;
  }

  /**
   * A reply that is not blank is never cleaned away: when every line is
   * dropped the reply itself is kept, so a successful Groq call always has
   * content; and every line the cleaning keeps passes the line filter.
   */
  lemma CleanedNeverEmpty(content: string)
    requires Strip(content) == content && content != ""
    ensures CleanedText(content) != ""
    ensures forall l :: l in Filter(SplitOn(WithoutBlocks(content), '\n'), KeptLine) ==> KeptLine(l) && Strip(l) != ""
  {
    FilterMembers(SplitOn(WithoutBlocks(content), '\n'), KeptLine);
  }

  /** A reply holding a think block and then the script keeps only the script. */
  lemma ThinkBlockRemoved()
    ensures WithoutBlocks("<think>plan</think>Hello") == "Hello"
  {
    var s := "<think>plan</think>Hello";
    BlockPatternsAdvance();
    NoReasoningBlock(s);
    ThinkBlockDropped(s);
  }

  lemma NoReasoningBlock(s: string)
    requires s == "<think>plan</think>Hello"
    ensures RemoveBlocks(s, ReasoningBlockAt) == s
  {
    BlockPatternsAdvance();
    NoOpeningTag(s, "<reasoning>");
    assert Search(s, ReasoningBlockAt).None?;
  }

  lemma ThinkBlockDropped(s: string)
    requires s == "<think>plan</think>Hello"
    ensures RemoveBlocks(s, ThinkBlockAt) == "Hello"
  {
    BlockPatternsAdvance();
    ThinkBlockFound(s);
    var rest := s[19..];
    assert rest == "Hello";
    NoOpeningTag(rest, "<think>");
    assert Search(rest, ThinkBlockAt).None?;
    assert RemoveBlocks(s, ThinkBlockAt) == s[..0] + RemoveBlocks(rest, ThinkBlockAt);
  }

  lemma ThinkBlockFound(s: string)
    requires s == "<think>plan</think>Hello"
    ensures Search(s, ThinkBlockAt) == Some((0, Found("", 19)))
  {
    assert AtIgnoringCase(s, 0, "<think>");
    assert AtIgnoringCase(s, 11, "</think>");
    assert FindIgnoringCase(s, 7, "</think>") == Some(11) by {
      forall q | 7 <= q < 11 ensures !AtIgnoringCase(s, q, "</think>") {
        assert Lower(s[q..q + 8])[0] == LowerChar(s[q]);
      }
    }
    assert ThinkBlockAt(s, 0) == Some(Found("", 19));
  }

  /** A text where no '<' is followed by the tag's second letter holds no opening tag. */
  lemma NoOpeningTag(s: string, open: string)
    requires |open| >= 2 && open[0] == '<'
    requires forall q :: 0 <= q < |s| && s[q] == '<' ==> q + 1 < |s| && LowerChar(s[q + 1]) != open[1]
    ensures forall q: nat :: !AtIgnoringCase(s, q, open)
  {
    forall q: nat ensures !AtIgnoringCase(s, q, open) {
      if q + |open| <= |s| {
        var w := Lower(s[q..q + |open|]);
        assert w[0] == LowerChar(s[q]) && w[1] == LowerChar(s[q + 1]);
        if w[0] == '<' {
          assert s[q] == '<';
        }
      }
    }
  }

  // ---------------------------------------------------------------------
  // Providers and the fallback chain
  // ---------------------------------------------------------------------

  datatype Provider = Groq | OpenRouter
  {
    function Name(): string
    {
      match this
      case Groq => "groq"
      case OpenRouter => "openrouter"
    }
  }

  /** The settings `generate_script` reads: which keys are set, the defaults, the speaking rate. */
  datatype Config = Config(openRouterConfigured: bool, groqConfigured: bool, inferenceProvider: string,
                           openRouterModel: string, groqModel: string, speakingRateWpm: int)

  predicate Configured(cfg: Config, p: Provider)
  {
    match p
    case Groq => cfg.groqConfigured
    case OpenRouter => cfg.openRouterConfigured
  }

  /** `config.has_inference_api()`. */
  predicate HasInferenceApi(cfg: Config)
  {
    cfg.openRouterConfigured || cfg.groqConfigured
  }

  function DefaultModel(cfg: Config, p: Provider): string
  {
    match p
    case Groq => cfg.groqModel
    case OpenRouter => cfg.openRouterModel
  }

  /** Python's `o or d` for an optional string: absent or empty falls back to `d`. */
  function OrElse(o: Option<string>, d: string): string
  {
    if o.Some? && o.value != "" then o.value else d
  }

  datatype Candidate = Candidate(provider: Provider, model: string)

  /**
   * The providers to try: Groq first (then OpenRouter) when Groq is the
   * selected provider and configured, otherwise OpenRouter first (then
   * Groq); only configured providers, each once.
   */
  function Candidates(selected: string, model: Option<string>, cfg: Config): (cs: seq<Candidate>)
    ensures forall i, j :: 0 <= i < j < |cs| ==> cs[i].provider != cs[j].provider
    ensures forall i :: 0 <= i < |cs| ==> Configured(cfg, cs[i].provider)
    ensures cfg.groqConfigured ==> Candidate(Groq, OrElse(model, cfg.groqModel)) in cs
    ensures cfg.openRouterConfigured ==> Candidate(OpenRouter, OrElse(model, cfg.openRouterModel)) in cs
    ensures cs != [] <==> HasInferenceApi(cfg)
    ensures |cs| == 2 ==> (cs[0].provider == Groq <==> selected == "groq")
    ensures forall i :: 0 <= i < |cs| ==> cs[i].model == OrElse(model, DefaultModel(cfg, cs[i].provider))
  {
    var groq := Candidate(Groq, OrElse(model, cfg.groqModel));
    var openRouter := Candidate(OpenRouter, OrElse(model, cfg.openRouterModel));
    if selected == "groq" && cfg.groqConfigured then
      [groq] + (if cfg.openRouterConfigured then [openRouter] else [])
    else
      (if cfg.openRouterConfigured then [openRouter] else []) + (if cfg.groqConfigured then [groq] else [])
  }

  /**
   * The prompt, by what it is built from: its wording is fixed text around
   * these values.
   */
  datatype Prompt = Prompt(topic: string, durationSeconds: int, style: Option<string>, targetWordCount: int,
                           speakingRateWpm: int, trendingInfo: Option<string>, reasoningModel: bool)

  /** The outcome of one provider call as the fallback loop sees it. */
  datatype Outcome = Generated(content: string) | Failed(error: string)

  /** What the Groq SDK call gave back: the message content, or the error the code reports for it. */
  datatype GroqReply = GroqContent(text: string) | GroqError(error: string)

  type GroqCall = (Prompt, string) -> GroqReply
  type OpenRouterCall = (Prompt, string, int) -> Outcome

  /** `_generate_with_groq` after the SDK call: blank content fails; other content is cleaned. */
  function GroqOutcome(reply: GroqReply): (o: Outcome)
    ensures o.Generated? ==> o.content != ""
  {
    match reply
    case GroqError(e) => Failed(e)
    case GroqContent(t) =>
      var content := Strip(t);
      if content == "" then Failed("Groq API returned empty content")
      else
        StrippedIsStable(t);
        CleanedNeverEmpty(content);
        Generated(CleanedText(content))
  }

  lemma StrippedIsStable(t: string)
    requires Strip(t) != ""
    ensures Strip(Strip(t)) == Strip(t)
  {
    StripShape(t);
    StripIdentity(Strip(t));
  }

  method GenerateWithGroq(prompt: Prompt, model: string, groq: GroqCall) returns (o: Outcome)
    ensures o == GroqOutcome(groq(prompt, model))
  {
    var reply := groq(prompt, model);
    match reply
    case GroqError(e) =>
      o := Failed(e);
    case GroqContent(t) =>
      var content := Strip(t);
      if content == "" {
        o := Failed("Groq API returned empty content");
      } else {
        var cleaned := CleanGroqOutput(content);
        o := Generated(cleaned);
      }
  }

  function CallOutcome(c: Candidate, prompt: Prompt, maxTokens: int, groq: GroqCall, openrouter: OpenRouterCall): Outcome
  {
    match c.provider
    case Groq => GroqOutcome(groq(prompt, c.model))
    case OpenRouter => openrouter(prompt, c.model, maxTokens)
  }

  /** One call per candidate, all with the same prompt and token budget. */
  function Attempts(prompt: Prompt, maxTokens: int, groq: GroqCall, openrouter: OpenRouterCall): Candidate -> Outcome
  {
    c => CallOutcome(c, prompt, maxTokens, groq, openrouter)
  }

  /** How the fallback loop ends: at the first candidate that succeeds, or with every error. */
  datatype Run = Succeeded(index: nat, content: string) | AllFailed(errors: seq<string>)

  function ErrorLine(c: Candidate, error: string): string
  {
    c.provider.Name() + ": " + error
  }

  /** The loop from candidate `i` on. */
  function FallbackFrom(cs: seq<Candidate>, i: nat, call: Candidate -> Outcome): Run
    requires i <= |cs|
    decreases |cs| - i
  {
    if i == |cs| then AllFailed([])
    else
      match call(cs[i])
      case Generated(content) => Succeeded(i, content)
      case Failed(e) =>
        match FallbackFrom(cs, i + 1, call)
        case AllFailed(es) => AllFailed([ErrorLine(cs[i], e)] + es)
        case s => s
  }

  /** The chain stops at the FIRST success, after failures of every earlier candidate. */
  lemma {:induction false} FallbackStopsAtFirstSuccess(cs: seq<Candidate>, i: nat, call: Candidate -> Outcome)
    requires i <= |cs|
    ensures var r := FallbackFrom(cs, i, call);
      r.Succeeded? ==>
        && i <= r.index < |cs|
        && call(cs[r.index]) == Generated(r.content)
        && forall j :: i <= j < r.index ==> call(cs[j]).Failed?
    decreases |cs| - i
  {
    if i < |cs| && call(cs[i]).Failed? {
      FallbackStopsAtFirstSuccess(cs, i + 1, call);
    }
  }

  /** A chain without a success reports one "name: error" line per candidate, in candidate order. */
  lemma {:induction false} FallbackCollectsAllErrors(cs: seq<Candidate>, i: nat, call: Candidate -> Outcome)
    requires i <= |cs|
    ensures var r := FallbackFrom(cs, i, call);
      r.AllFailed? ==>
        && |r.errors| == |cs| - i
        && forall j :: i <= j < |cs| ==>
             && call(cs[j]).Failed?
             && r.errors[j - i] == ErrorLine(cs[j], call(cs[j]).error)
    decreases |cs| - i
  {
    if i < |cs| && call(cs[i]).Failed? {
      FallbackCollectsAllErrors(cs, i + 1, call);
    }
  }

  /** Failures collected so far, in front of how the rest of the loop ends. */
  function AfterErrors(errors: seq<string>, rest: Run): Run
  {
    match rest
    case AllFailed(es) => AllFailed(errors + es)
    case s => s
  }

  lemma AfterErrorsAppend(a: seq<string>, b: seq<string>, rest: Run)
    ensures AfterErrors(a, AfterErrors(b, rest)) == AfterErrors(a + b, rest)
  {
    if rest.AllFailed? {
      assert a + (b + rest.errors) == (a + b) + rest.errors;
    }
  }

  /** A success at candidate `i`, after the failures collected so far, is how the whole chain ends. */
  lemma RunAtSuccess(cs: seq<Candidate>, i: nat, call: Candidate -> Outcome, errors: seq<string>, content: string)
    requires i < |cs|
    requires call(cs[i]) == Generated(content)
    requires FallbackFrom(cs, 0, call) == AfterErrors(errors, FallbackFrom(cs, i, call))
    ensures FallbackFrom(cs, 0, call) == Succeeded(i, content)
  {
  }

  /** With every candidate tried, the chain ends with exactly the failures collected. */
  lemma RunAtEnd(cs: seq<Candidate>, call: Candidate -> Outcome, errors: seq<string>)
    requires FallbackFrom(cs, 0, call) == AfterErrors(errors, FallbackFrom(cs, |cs|, call))
    ensures FallbackFrom(cs, 0, call) == AllFailed(errors)
  {
    assert errors + [] == errors;
  }

  /** One failure moves from the rest of the chain to the failures collected. */
  lemma RunAfterFailure(cs: seq<Candidate>, i: nat, call: Candidate -> Outcome, errors: seq<string>, error: string)
    requires i < |cs|
    requires call(cs[i]) == Failed(error)
    requires FallbackFrom(cs, 0, call) == AfterErrors(errors, FallbackFrom(cs, i, call))
    ensures FallbackFrom(cs, 0, call)
            == AfterErrors(errors + [ErrorLine(cs[i], error)], FallbackFrom(cs, i + 1, call))
  {
    var rest := FallbackFrom(cs, i + 1, call);
    assert FallbackFrom(cs, i, call) == AfterErrors([ErrorLine(cs[i], error)], rest);
    AfterErrorsAppend(errors, [ErrorLine(cs[i], error)], rest);
  }

  /** `round(words / rate * 60, 1)`: the spoken length of the script in seconds, to a tenth. */
  function EstimatedSeconds(words: nat, speakingRateWpm: int): real
    requires speakingRateWpm != 0
  {
    RoundHalfEven(words as real / speakingRateWpm as real * 60.0 * 10.0) as real / 10.0
  }

  datatype ScriptMetadata = ScriptMetadata(topic: string, provider: string, model: string,
                                           requestedDurationSeconds: int, estimatedDurationSeconds: real,
                                           targetWordCount: int, actualWordCount: nat, style: Option<string>,
                                           speakingRateWpm: int)

  /** The dictionary of `generate_script`; a failure has no script. */
  datatype ScriptResult =
    | ScriptGenerated(script: string, metadata: ScriptMetadata)
    | ScriptFailed(error: string, providerErrors: Option<seq<string>>)

  const NoApiMessage := "No inference API configured. Please set OPENROUTER_API_KEY or GROQ_API_KEY."

  /** The error of a run where every provider failed. */
  function AllFailedMessage(errors: seq<string>): string
  {
    "All inference providers failed. Errors: " + (if errors == [] then "Unknown error" else Join(" | ", errors))
  }

  /** `provider or config.inference_provider`. */
  function SelectedProvider(provider: Option<string>, cfg: Config): string
  {
    OrElse(provider, cfg.inferenceProvider)
  }

  function PromptFor(topic: string, durationSeconds: int, model: Option<string>, style: Option<string>,
                     trendingInfo: Option<string>, provider: Option<string>, cfg: Config): Prompt
  {
    var selected := SelectedProvider(provider, cfg);
    var selectedModel := OrElse(model, if selected == "groq" then cfg.groqModel else cfg.openRouterModel);
    var reasoning := selected == "groq" && selectedModel != ""
                     && (Contains(Lower(selectedModel), "oss") || Contains(Lower(selectedModel), "qwen"));
    Prompt(topic, durationSeconds, style, TargetWordCount(durationSeconds, cfg.speakingRateWpm),
           cfg.speakingRateWpm, if trendingInfo.Some? && trendingInfo.value != "" then trendingInfo else None,
           reasoning)
  }

  /**
   * The provider loop of `generate_script`: each candidate in turn until
   * one succeeds, collecting a "name: error" line per failure. Returns how
   * the loop ended and the candidates it called.
   */
  method TryProviders(cs: seq<Candidate>, prompt: Prompt, maxTokens: int, groq: GroqCall, openrouter: OpenRouterCall)
    returns (run: Run, called: seq<Candidate>)
    ensures run == FallbackFrom(cs, 0, Attempts(prompt, maxTokens, groq, openrouter))
    ensures run.Succeeded? ==> run.index < |cs| && called == cs[..run.index + 1]
    ensures run.AllFailed? ==> called == cs
  {
    ghost var call := Attempts(prompt, maxTokens, groq, openrouter);
    var errors: seq<string> := [];
    called := [];
    var i := 0;
    while i < |cs|
      invariant 0 <= i <= |cs|
      invariant called == cs[..i]
      invariant FallbackFrom(cs, 0, call) == AfterErrors(errors, FallbackFrom(cs, i, call))
    {
      var c := cs[i];
      called := called + [c];
      assert cs[..i + 1] == cs[..i] + [c];
      var outcome;
      if c.provider == Groq {
        outcome := GenerateWithGroq(prompt, c.model, groq);
      } else {
        outcome := openrouter(prompt, c.model, maxTokens);
      }
      assert outcome == call(c);
      if outcome.Generated? {
        RunAtSuccess(cs, i, call, errors, outcome.content);
        return Succeeded(i, outcome.content), called;
      }
      RunAfterFailure(cs, i, call, errors, outcome.error);
      errors := errors + [ErrorLine(c, outcome.error)];
      i := i + 1;
    }
    RunAtEnd(cs, call, errors);
    return AllFailed(errors), called;
  }

  /**
   * `generate_script`. Besides the result it returns the candidates it
   * called, in order: the first success ends the calls, and a run without
   * an inference API calls nothing.
   */
  /**
   * With an inference API configured: the providers are tried in order
   * until the first success, whose script, provider, model, word counts and
   * topic come back, or all fail and every error comes back; `called` is
   * exactly the providers tried.
   */
  predicate ScriptOutcome(topic: string, durationSeconds: int, model: Option<string>, style: Option<string>,
                          trendingInfo: Option<string>, provider: Option<string>, cfg: Config,
                          groq: GroqCall, openrouter: OpenRouterCall, result: ScriptResult, called: seq<Candidate>)
  {
    var cs := Candidates(SelectedProvider(provider, cfg), model, cfg);
    var prompt := PromptFor(topic, durationSeconds, model, style, trendingInfo, provider, cfg);
    var maxTokens := MaxTokens(prompt.targetWordCount);
    var run := FallbackFrom(cs, 0, Attempts(prompt, maxTokens, groq, openrouter));
    && (run.Succeeded? ==>
          && run.index < |cs|
          && result.ScriptGenerated? && result.script == run.content
          && result.metadata.provider == cs[run.index].provider.Name()
          && result.metadata.model == cs[run.index].model
          && result.metadata.topic == topic
          && result.metadata.actualWordCount == |Words(run.content)|
          && result.metadata.targetWordCount == prompt.targetWordCount
          && called == cs[..run.index + 1])
    && (run.AllFailed? ==>
          result == ScriptFailed(AllFailedMessage(run.errors), Some(run.errors)) && called == cs)
  }

  method GenerateScript(topic: string, durationSeconds: int, model: Option<string>, style: Option<string>,
                        trendingInfo: Option<string>, provider: Option<string>, cfg: Config,
                        groq: GroqCall, openrouter: OpenRouterCall)
    returns (result: ScriptResult, called: seq<Candidate>)
    requires cfg.speakingRateWpm != 0
    ensures !HasInferenceApi(cfg) ==> result == ScriptFailed(NoApiMessage, None) && called == []
    ensures result.ScriptGenerated? ==> result.metadata.topic == topic
    ensures HasInferenceApi(cfg) ==>
              ScriptOutcome(topic, durationSeconds, model, style, trendingInfo, provider, cfg, groq, openrouter,
                            result, called)
  {
    if !HasInferenceApi(cfg) {
      return ScriptFailed(NoApiMessage, None), [];
    }
    var prompt := PromptFor(topic, durationSeconds, model, style, trendingInfo, provider, cfg);
    var targetWordCount := prompt.targetWordCount;
    var providers := Candidates(SelectedProvider(provider, cfg), model, cfg);
    var maxTokens := MaxTokens(targetWordCount);
    var run;
    run, called := TryProviders(providers, prompt, maxTokens, groq, openrouter);
    match run
    case Succeeded(k, content) =>
      var c := providers[k];
      var actualWordCount := |Words(content)|;
      var estimated := EstimatedSeconds(actualWordCount, cfg.speakingRateWpm);
      result := ScriptGenerated(content, ScriptMetadata(topic, c.provider.Name(), c.model, durationSeconds, estimated,
                                                        targetWordCount, actualWordCount, style, cfg.speakingRateWpm));
    case AllFailed(errors) =>
      result := ScriptFailed(AllFailedMessage(errors), Some(errors));
  }

  // ---------------------------------------------------------------------
  // Scripts from fetched trends
  // ---------------------------------------------------------------------

  /** The context handed to the script prompt: the summary of the fetched data, headed by its topic. */
  method TrendingContext(ideas: IdeasData, ai: Option<string>) returns (context: string)
    ensures ContextSummary.SummaryOf(ideas.reddit.items, ideas.youtube.items, ideas.googleNews.items, ideas.topic,
                                     5, true, ai, context)
    ensures ContextSummary.TopicPrefix + ideas.topic + "\n" <= context
  {
    var r, y, n, correlations, shown, overall;
    context, r, y, n, correlations, shown, overall := ContextSummary.CreateContextSummary(
      ideas.reddit.items, ideas.youtube.items, ideas.googleNews.items, ideas.topic, 5, true, ai);
    ghost var inputs := ContextSummary.SummaryInputs(r, y, n, correlations, shown, overall);
    assert ContextSummary.SummaryInputsOf(
      ideas.reddit.items, ideas.youtube.items, ideas.googleNews.items, ideas.topic, 5, inputs);
    ContextSummary.SummaryStartsWithTopic(ideas.topic, true, ai, r, y, n, correlations.correlations, shown, overall);
  }

  /**
   * `generate_script_from_ideas`: the fetched data is summarised (five items
   * per source) and the summary is the context handed to `generate_script`.
   */
  method GenerateScriptFromIdeas(ideas: IdeasData, durationSeconds: int, model: Option<string>, style: Option<string>,
                                 provider: Option<string>, cfg: Config, ai: Option<string>,
                                 groq: GroqCall, openrouter: OpenRouterCall)
    returns (result: ScriptResult, called: seq<Candidate>, ghost context: string)
    requires cfg.speakingRateWpm != 0
    ensures !HasInferenceApi(cfg) ==> result == ScriptFailed(NoApiMessage, None) && called == []
    ensures result.ScriptGenerated? ==> result.metadata.topic == ideas.topic
    ensures HasInferenceApi(cfg) ==>
              ScriptOutcome(ideas.topic, durationSeconds, model, style, Some(context), provider, cfg, groq, openrouter,
                            result, called)
    ensures ContextSummary.SummaryOf(ideas.reddit.items, ideas.youtube.items, ideas.googleNews.items, ideas.topic,
                                     5, true, ai, context)
  {
    var summary := TrendingContext(ideas, ai);
    context := summary;
    result, called := GenerateScript(ideas.topic, durationSeconds, model, style, Some(summary), provider, cfg, groq, openrouter);
  }

  // ---------------------------------------------------------------------
  // generate_complete_script
  // ---------------------------------------------------------------------

  /** The dictionary of `generate_complete_script`: the script result, the fetched data and the topic. */
  datatype CompleteScript = CompleteScript(script: ScriptResult, trendingData: IdeasData, topic: string)

  const NoTrendsMessage := "No trending topics found. Unable to generate script without source material."

  /**
   * `generate_complete_script`: fetch the trends, refuse to write a script
   * from nothing, otherwise summarise the trends and generate from them.
   * `ai` is what the generated-summary call returned.
   */
  method GenerateCompleteScript(topic: string, durationSeconds: int, provider: Option<string>, style: Option<string>,
                                limit: int, model: Option<string>, cfg: Config, fetch: Fetcher, ai: Option<string>,
                                groq: GroqCall, openrouter: OpenRouterCall)
    returns (r: CompleteScript, called: seq<Candidate>, ghost context: string)
    requires cfg.speakingRateWpm != 0
    ensures r.topic == topic && r.trendingData == IdeasOf(topic, limit, fetch)
    ensures r.trendingData.summary.totalItems == 0 ==> r.script == ScriptFailed(NoTrendsMessage, None) && called == []
    ensures !HasInferenceApi(cfg) ==> r.script.ScriptFailed? && called == []
    ensures r.script.ScriptGenerated? ==> r.trendingData.summary.totalItems > 0 && r.script.metadata.topic == topic
    ensures r.trendingData.summary.totalItems > 0 && HasInferenceApi(cfg) ==>
              && ScriptOutcome(topic, durationSeconds, model, style, Some(context), provider, cfg, groq, openrouter,
                               r.script, called)
              && ContextSummary.SummaryOf(r.trendingData.reddit.items, r.trendingData.youtube.items,
                                          r.trendingData.googleNews.items, topic, 5, true, ai, context)
  {
    var ideas := GenerateIdeas(topic, limit, fetch);
    var totalItems := ideas.summary.totalItems;
    if totalItems == 0 {
      return CompleteScript(ScriptFailed(NoTrendsMessage, None), ideas, topic), [], "";
    }
    var script;
    script, called, context := GenerateScriptFromIdeas(ideas, durationSeconds, model, style, provider, cfg, ai, groq, openrouter);
    r := CompleteScript(script, ideas, topic);
  }

  /** Nothing to write about: every source failed or came back empty. */
  lemma NoScriptWithoutTrends(topic: string, limit: int, fetch: Fetcher)
    requires forall k: SourceKind :: Delivered(fetch(k, topic, limit)) == 0
    ensures IdeasOf(topic, limit, fetch).summary.totalItems == 0
  {
    assert Delivered(fetch(Reddit, topic, limit)) == 0;
    assert Delivered(fetch(YouTube, topic, limit)) == 0;
    assert Delivered(fetch(GoogleNews, topic, limit)) == 0;
  }
}
