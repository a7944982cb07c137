/**
 * The recommendation workflow the user interface runs (app/fixed_graph.py):
 * four nodes over one state record, wired as
 *   get_weather -> generate_outfit -> check_rating -> (generate_outfit | generate_result) -> END.
 *
 * Every node is a function from the state to the state after the graph has
 * merged the node's returned keys; `check_rating` is the router and returns
 * its decision together with the log it extended in place. `Run` replaces the
 * graph engine by an explicit loop over the phases.
 */
module FixedGraph {
  import opened Wrappers
  import opened Text
  import opened WeatherData
  import opened Workflow
  import ResultText
  import TavilyWeather

  /**
   * The state record. Keys the nodes read with a default are optional here;
   * the user's answers are always present.
   */
  datatype OutfitState = OutfitState(
    height: string,
    gender: string,
    location: Option<string>,
    occasion: string,
    mood: string,
    weather: Option<Weather>,
    recommendation: Option<string>,
    rating: Option<int>,
    attempts: Option<int>,
    maxAttempts: Option<int>,
    resultMessage: Option<string>,
    log: Option<seq<string>>)

  /**
   * What the nodes depend on outside the state: the weather service's
   * `get_weather_for_location` (a function of the location here; see
   * `TavilyEnvironment` for the search-backed service) and how a temperature
   * is printed in the log.
   */
  datatype Environment = Environment(weatherFor: string -> Weather, showTemp: real -> string)

  /** `state.get("rating", 0)`. */
  function RatingOf(s: OutfitState): int {
    if s.rating.Some? then s.rating.value else 0
  }

  /** `state.get("attempts", 0)`. */
  function AttemptsOf(s: OutfitState): int {
    if s.attempts.Some? then s.attempts.value else 0
  }

  /** `state.get("max_attempts", 5)`. */
  function MaxAttemptsOf(s: OutfitState): int {
    if s.maxAttempts.Some? then s.maxAttempts.value else 5
  }

  /** `state.get("log", [])`. */
  function LogOf(s: OutfitState): seq<string> {
    if s.log.Some? then s.log.value else []
  }

  /** `state.get("location", "Default")`. */
  function LocationOf(s: OutfitState): string {
    if s.location.Some? then s.location.value else "Default"
  }

  // ---------------------------------------------------------------------------
  // get_weather
  // ---------------------------------------------------------------------------

  /** The degree sign as the file spells it (a UTF-8 degree sign read back as Latin-1), then `C`. */
  const DegreesC: string := ['\U{C2}', '\U{B0}', 'C']

  /** Where a weather value came from, as the log names it. */
  function SourceName(w: Weather): string {
    w.dataSource.GetOr("fallback")
  }

  function WeatherLine(location: string, w: Weather, showTemp: real -> string): string {
    "Node: get_weather - Location: " + location + ", Weather: " + showTemp(w.tempC) + DegreesC + ", " +
    w.condition + " (Source: " + SourceName(w) + ")"
  }

  /** `get_weather`: stores the service's weather for the location and logs one line naming its source. */
  function GetWeather(s: OutfitState, env: Environment): (r: OutfitState)
    ensures r.weather == Some(env.weatherFor(LocationOf(s)))
    ensures LogOf(r) == LogOf(s) + [WeatherLine(LocationOf(s), r.weather.value, env.showTemp)]
    ensures r.(weather := s.weather, log := s.log) == s
  {
    var w := env.weatherFor(LocationOf(s));
    s.(weather := Some(w), log := Some(LogOf(s) + [WeatherLine(LocationOf(s), w, env.showTemp)]))
  }

  /** The environment of the application: the search-backed weather service with the given key and search call. */
  function TavilyEnvironment(apiKey: Option<string>, search: string -> TavilyWeather.SearchOutcome,
                             showTemp: real -> string): Environment
  {
    Environment((location: string) => TavilyWeather.WeatherFor(location, apiKey, search(TavilyWeather.Query(location))), showTemp)
  }

  /**
   * With the search-backed service, the logged source is "tavily" exactly
   * when the key was set and the search answered 200 with a body; otherwise
   * it is "fallback" and the weather is the fallback table's entry for the
   * location.
   */
  lemma GetWeatherSource(s: OutfitState, apiKey: Option<string>, search: string -> TavilyWeather.SearchOutcome,
                         showTemp: real -> string)
    ensures var loc := LocationOf(s);
      var w := GetWeather(s, TavilyEnvironment(apiKey, search, showTemp)).weather.value;
      var usable := TavilyWeather.Usable(apiKey, search(TavilyWeather.Query(loc)));
      (usable ==> SourceName(w) == "tavily") &&
      (!usable ==> SourceName(w) == "fallback" && w == TavilyWeather.FallbackWeather(loc))
  {
    var loc := LocationOf(s);
    var outcome := search(TavilyWeather.Query(loc));
    var w := TavilyWeather.WeatherFor(loc, apiKey, outcome);
    assert TavilyEnvironment(apiKey, search, showTemp).weatherFor(loc) == w;
    if TavilyWeather.Usable(apiKey, outcome) {
      assert w == TavilyWeather.ParsedWeather(outcome.body.value, loc);
    }
  }

  // ---------------------------------------------------------------------------
  // generate_outfit
  // ---------------------------------------------------------------------------

  const Apology := "Sorry, I couldn't generate " + "a recommendation due to an error."

  /** The recommendation kept from one language-model call, with this node's apology. */
  function Recommendation(reply: LlmReply): string {
    KeptRecommendation(reply, Apology)
  }

  const CallHead := "Node: generate_outfit - Attempt: "
  const CallMiddle := " - Calling LLM with prompt for "
  const LengthHead := "Node: generate_outfit - LLM generated " + "recommendation (length: "
  const ErrorHead := "Node: generate_outfit - Error: "

  function CallLine(attempt: int, s: OutfitState): string {
    CallHead + IntToString(attempt) + CallMiddle + s.gender + ", " + s.occasion + ", " + s.mood
  }

  function ReplyLine(reply: LlmReply): string {
    match reply
    case Completion(_) =>
      LengthHead + NatToString(|Recommendation(reply)|) + ")"
    case LlmError(message) => ErrorHead + message
  }

  /**
   * `generate_outfit`: one more attempt, the recommendation from this call of
   * the language model, and two log lines (the call, then its outcome). The
   * location and the weather must be present (they are read without a default).
   */
  function GenerateOutfit(s: OutfitState, reply: LlmReply): (r: OutfitState)
    requires s.location.Some? && s.weather.Some?
    ensures r.attempts == Some(AttemptsOf(s) + 1)
    ensures r.recommendation == Some(Recommendation(reply))
    ensures LogOf(r) == LogOf(s) + [CallLine(AttemptsOf(s) + 1, s), ReplyLine(reply)]
    ensures r.(recommendation := s.recommendation, attempts := s.attempts, log := s.log) == s
  {
    var attempt := AttemptsOf(s) + 1;
    var logs := LogOf(s) + [CallLine(attempt, s)];
    s.(recommendation := Some(Recommendation(reply)), attempts := Some(attempt), log := Some(logs + [ReplyLine(reply)]))
  }

  // ---------------------------------------------------------------------------
  // check_rating
  // ---------------------------------------------------------------------------

  const RatingHead := "Node: check_rating - Rating: "
  const SatisfiedHead := "Decision: Rating is satisfactory ("
  const SatisfiedTail := " >= 7). Proceeding to generate result."
  const ExhaustedHead := "Decision: Maximum attempts reached ("
  const ExhaustedTail := "). Proceeding to generate result."
  const RetryHead := "Decision: Rating too low ("
  const RetryMiddle := " < 7) and attempts < "

  function RatingLine(s: OutfitState): string {
    RatingHead + IntToString(RatingOf(s)) + ", Attempts: " + IntToString(AttemptsOf(s)) +
    "/" + IntToString(MaxAttemptsOf(s))
  }

  function DecisionLine(s: OutfitState): string {
    var rating, attempts := IntToString(RatingOf(s)), IntToString(AttemptsOf(s));
    if RatingOf(s) >= SatisfactoryRating then
      SatisfiedHead + rating + SatisfiedTail
    else if AttemptsOf(s) >= MaxAttemptsOf(s) then
      ExhaustedHead + attempts + ExhaustedTail
    else
      RetryHead + rating + RetryMiddle + IntToString(MaxAttemptsOf(s)) + ". Trying again."
  }

  /**
   * `check_rating`, the router after `generate_outfit`: the gate's decision on
   * the rating, attempts and budget (defaults 0, 0 and 5), and the state with
   * the two lines it appends to the shared log list.
   */
  function CheckRating(s: OutfitState): (res: (Decision, OutfitState))
    ensures res.0 == Decide(RatingOf(s), AttemptsOf(s), MaxAttemptsOf(s))
    ensures LogOf(res.1) == LogOf(s) + [RatingLine(s), DecisionLine(s)]
    ensures res.1.(log := s.log) == s
  {
    (Decide(RatingOf(s), AttemptsOf(s), MaxAttemptsOf(s)), s.(log := Some(LogOf(s) + [RatingLine(s), DecisionLine(s)])))
  }

  /** With rating, attempts and budget all missing, the gate reads 0, 0 and 5 and retries. */
  lemma CheckRatingDefaults(s: OutfitState)
    requires s.rating.None? && s.attempts.None? && s.maxAttempts.None?
    ensures CheckRating(s).0 == Retry
    ensures LogOf(CheckRating(s).1)[|LogOf(s)|] == "Node: check_rating - Rating: 0, Attempts: 0/5"
  {
    assert IntToString(0) == "0" && IntToString(5) == "5";
  }

  // ---------------------------------------------------------------------------
  // generate_result
  // ---------------------------------------------------------------------------

  /** The symbols after the headlines, as the file spells them (UTF-8 emoji read back as Windows-1252). */
  const FixedMarks := ResultText.Marks(['\U{F0}', '\U{178}', '\U{17D}', '\U{2030}'], ['\U{F0}', '\U{178}', '\U{2019}', '\U{201D}'])

  const NoRecommendation := "No recommendation generated"

  /** What the result message reports: success with the attempt count, or failure with the budget. */
  function ResultOutcome(s: OutfitState): ResultText.Outcome {
    var satisfied := RatingOf(s) >= SatisfactoryRating;
    ResultText.Outcome(satisfied, if satisfied then AttemptsOf(s) else MaxAttemptsOf(s),
      s.recommendation.GetOr(NoRecommendation))
  }

  function ResultMessage(s: OutfitState): string {
    var o := ResultOutcome(s);
    ResultText.Compose(o.satisfied, o.count, o.recommendation, FixedMarks)
  }

  /**
   * The final message reads back as the success framing with the attempt
   * count when the rating is satisfactory and as the failure framing with the
   * budget otherwise, ending in the recommendation (or a placeholder when
   * there is none).
   */
  lemma ResultMessageReadsBack(s: OutfitState)
    ensures ResultText.Parse(ResultMessage(s), FixedMarks) == Some(ResultOutcome(s))
  {
    var o := ResultOutcome(s);
    ResultText.ParseCompose(o.satisfied, o.count, o.recommendation, FixedMarks);
  }

  const ResultLine := "Node: generate_result - Creating final message"

  /** `generate_result`: stores the final message and logs one more line. */
  function GenerateResult(s: OutfitState): (r: OutfitState)
    ensures r.resultMessage == Some(ResultMessage(s))
    ensures LogOf(r) == LogOf(s) + [ResultLine]
    ensures r.(resultMessage := s.resultMessage, log := s.log) == s
  {
    s.(resultMessage := Some(ResultMessage(s)), log := Some(LogOf(s) + [ResultLine]))
  }

  // ---------------------------------------------------------------------------
  // The wired graph
  // ---------------------------------------------------------------------------

  /** The state keys no node writes. */
  predicate SameInputs(a: OutfitState, b: OutfitState) {
    a.height == b.height && a.gender == b.gender && a.location == b.location && a.occasion == b.occasion &&
    a.mood == b.mood && a.rating == b.rating && a.maxAttempts == b.maxAttempts
  }

  /**
   * What holds of the state `s` of a run from `init` when it is about to run
   * `phase` after `g` generations: the inputs are untouched, every generation
   * counted one attempt, the generations done and still to come add up to
   * the expected number, the log has grown by the phase's share, the weather
   * is the service's, the recommendation is the last call's, and the result
   * is built only after the gate finished.
   */
  ghost predicate Reached(init: OutfitState, env: Environment, llm: nat -> LlmReply, phase: Phase, s: OutfitState, g: nat) {
    SameInputs(s, init) &&
    AttemptsOf(s) == AttemptsOf(init) + g &&
    g + GenerationsLeft(phase, RatingOf(init), AttemptsOf(s), MaxAttemptsOf(init))
      == ExpectedGenerations(RatingOf(init), AttemptsOf(init), MaxAttemptsOf(init)) &&
    LogOf(init) <= LogOf(s) && |LogOf(s)| == |LogOf(init)| + LogGrowth(phase, g) &&
    (phase == FetchWeather ==> s == init && g == 0) &&
    (phase != FetchWeather ==> s.weather == Some(env.weatherFor(LocationOf(init)))) &&
    (phase.Check? || phase.BuildResult? || phase.Done? ==>
      g >= 1 && s.attempts.Some? && s.recommendation == Some(Recommendation(llm(g - 1)))) &&
    (phase.BuildResult? || phase.Done? ==> Decide(RatingOf(init), AttemptsOf(s), MaxAttemptsOf(init)) == Finish) &&
    (phase.Done? ==> s.resultMessage == Some(ResultMessage(s)))
  }

  /** The number of node runs still to come, as the loop measures it. */
  function Steps(init: OutfitState, phase: Phase, s: OutfitState): nat {
    StepsLeft(phase, RatingOf(init), AttemptsOf(s), MaxAttemptsOf(init))
  }

  // Each node run below takes the run from one phase to the next; the
  // decreasing step count is what bounds the loop in `Run`.

  method WeatherNode(init: OutfitState, env: Environment, ghost llm: nat -> LlmReply) returns (s': OutfitState)
    requires Reached(init, env, llm, FetchWeather, init, 0)
    ensures Reached(init, env, llm, Generate, s', 0)
    ensures Steps(init, Generate, s') < Steps(init, FetchWeather, init)
  {
    s' := GetWeather(init, env);
    assert LogOf(s') == LogOf(init) + [WeatherLine(LocationOf(init), s'.weather.value, env.showTemp)];
  }

  method GenerateNode(init: OutfitState, ghost env: Environment, llm: nat -> LlmReply, s: OutfitState, g: nat) returns (s': OutfitState)
    requires init.location.Some? && Reached(init, env, llm, Generate, s, g)
    ensures Reached(init, env, llm, Check, s', g + 1)
    ensures Steps(init, Check, s') < Steps(init, Generate, s)
  {
    GenerateThenCheck(RatingOf(init), AttemptsOf(s), MaxAttemptsOf(init));
    s' := GenerateOutfit(s, llm(g));
    assert LogOf(s') == LogOf(s) + [CallLine(AttemptsOf(s) + 1, s), ReplyLine(llm(g))];
  }

  method CheckNode(init: OutfitState, ghost env: Environment, ghost llm: nat -> LlmReply, s: OutfitState, g: nat) returns (d: Decision, s': OutfitState)
    requires Reached(init, env, llm, Check, s, g)
    ensures d == Retry ==> Reached(init, env, llm, Generate, s', g) && Steps(init, Generate, s') < Steps(init, Check, s)
    ensures d == Finish ==> Reached(init, env, llm, BuildResult, s', g) && Steps(init, BuildResult, s') < Steps(init, Check, s)
  {
    var checked := CheckRating(s);
    d, s' := checked.0, checked.1;
    assert LogOf(s') == LogOf(s) + [RatingLine(s), DecisionLine(s)];
    if d == Retry {
      CheckThenRetry(RatingOf(init), AttemptsOf(s), MaxAttemptsOf(init));
    }
  }

  method ResultNode(init: OutfitState, ghost env: Environment, ghost llm: nat -> LlmReply, s: OutfitState, g: nat) returns (s': OutfitState)
    requires Reached(init, env, llm, BuildResult, s, g)
    ensures Reached(init, env, llm, Done, s', g)
  {
    s' := GenerateResult(s);
    assert LogOf(s') == LogOf(s) + [ResultLine];
    assert ResultMessage(s') == ResultMessage(s);
  }

  /** What a finished run has established. */
  lemma Finished(init: OutfitState, env: Environment, llm: nat -> LlmReply, s: OutfitState, g: nat)
    requires Reached(init, env, llm, Done, s, g)
    ensures g == ExpectedGenerations(RatingOf(init), AttemptsOf(init), MaxAttemptsOf(init))
    ensures SameInputs(s, init)
    ensures s.weather == Some(env.weatherFor(LocationOf(init)))
    ensures g >= 1 && s.attempts.Some? && s.attempts.value == AttemptsOf(init) + g
    ensures s.recommendation.Some? && s.recommendation.value == Recommendation(llm(g - 1))
    ensures Decide(RatingOf(s), AttemptsOf(s), MaxAttemptsOf(s)) == Finish
    ensures s.resultMessage.Some?
    ensures ResultText.Parse(s.resultMessage.value, FixedMarks) == Some(ResultOutcome(s))
    ensures LogOf(init) <= LogOf(s) && |LogOf(s)| == |LogOf(init)| + 2 + 4 * g
  {
    ResultMessageReadsBack(s);
  }

  /**
   * One invocation of the compiled graph on `init`, the language model giving
   * `llm(k)` on its k-th call of the run. With the rating fixed for the run,
   * it performs exactly one generation on a satisfactory rating and otherwise
   * max(1, budget - attempts), ends on a finishing gate decision, keeps the
   * last recommendation, and grows the log by 4 lines per generation plus the
   * weather and result lines.
   */
  method Run(init: OutfitState, env: Environment, llm: nat -> LlmReply) returns (final: OutfitState, generations: nat)
    requires init.location.Some?
    ensures generations == ExpectedGenerations(RatingOf(init), AttemptsOf(init), MaxAttemptsOf(init))
    ensures SameInputs(final, init)
    ensures final.weather == Some(env.weatherFor(init.location.value))
    ensures generations >= 1 && final.attempts.Some? && final.attempts.value == AttemptsOf(init) + generations
    ensures final.recommendation.Some? && final.recommendation.value == Recommendation(llm(generations - 1))
    ensures Decide(RatingOf(final), AttemptsOf(final), MaxAttemptsOf(final)) == Finish
    ensures final.resultMessage.Some?
    ensures ResultText.Parse(final.resultMessage.value, FixedMarks) == Some(ResultOutcome(final))
    ensures LogOf(init) <= LogOf(final) && |LogOf(final)| == |LogOf(init)| + 2 + 4 * generations
  {
    final, generations := RunNodes(init, env, llm);
    Finished(init, env, llm, final, generations);
  }

  /** The node loop of `Run`: from the entry node to the end, keeping `Reached` at every node. */
  method RunNodes(init: OutfitState, env: Environment, llm: nat -> LlmReply) returns (s: OutfitState, generations: nat)
    requires init.location.Some?
    ensures Reached(init, env, llm, Done, s, generations)
  {
    s := init;
    var phase := FetchWeather;
    generations := 0;
    while phase != Done
      invariant Reached(init, env, llm, phase, s, generations)
      decreases Steps(init, phase, s)
    {
      match phase
      case FetchWeather =>
        s := WeatherNode(init, env, llm);
        phase := Generate;
      case Generate =>
        s := GenerateNode(init, env, llm, s, generations);
        generations := generations + 1;
        phase := Check;
      case Check =>
        var decision;
        decision, s := CheckNode(init, env, llm, s, generations);
        phase := if decision == Retry then Generate else BuildResult;
      case BuildResult =>
        s := ResultNode(init, env, llm, s, generations);
        phase := Done;
    }
  }

  /**
   * The file's own example run: Mumbai, rating 0, no attempts yet, budget 3,
   * one log line. (Its empty `weather` dictionary is never read before
   * `get_weather` replaces it, so it is left unset here.) The run generates
   * three times, keeps the opening line and ends with 15 log lines, and its
   * result message reports the failure framing with the budget of 3 and the
   * third recommendation.
   */
  method ExampleRun(env: Environment, llm: nat -> LlmReply) returns (final: OutfitState)
    ensures final.attempts.Some? && final.attempts.value == 3
    ensures final.weather == Some(env.weatherFor("Mumbai"))
    ensures |LogOf(final)| == 15 && LogOf(final)[0] == "Starting test..."
    ensures final.recommendation.Some? && final.recommendation.value == Recommendation(llm(2))
    ensures final.resultMessage.Some?
    ensures ResultText.Parse(final.resultMessage.value, FixedMarks)
         == Some(ResultText.Outcome(false, 3, Recommendation(llm(2))))
  {
    var init := OutfitState("5'10\"", "Male", Some("Mumbai"), "Party", "Confident", None, Some(""),
                            Some(0), Some(0), Some(3), Some(""), Some(["Starting test..."]));
    var generations;
    final, generations := Run(init, env, llm);
  }
}
