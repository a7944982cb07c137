/**
 * The first version of the recommendation workflow (app/graph.py): the same
 * loop as the fixed graph, over a smaller state record, with a built-in table
 * of simulated weather and a router function between generation and the
 * final message:
 *   fetch_weather -> generate_outfit -> retry_or_finish -> (generate_outfit | final_message) -> END.
 *
 * Nodes are functions from the state to the state after the graph has merged
 * the keys they return; `RetryOrFinish` returns its decision with the log it
 * extended in place. `Run` replaces the graph engine by an explicit loop.
 */
module Graph {
  import opened Wrappers
  import opened Text
  import opened WeatherData
  import opened Workflow
  import ResultText

  /**
   * The graph state. Keys that may be missing when a run starts are optional;
   * the user's answers are always present.
   */
  datatype GraphState = GraphState(
    height: string,
    gender: string,
    location: Option<string>,
    occasion: string,
    mood: string,
    weather: Option<Reading>,
    recommendation: Option<string>,
    rating: Option<int>,
    attempts: Option<int>,
    maxAttempts: Option<int>,
    finalMessage: Option<string>,
    log: Option<seq<string>>)

  /** `state.get("rating", 0)`. */
  function RatingOf(s: GraphState): int {
    if s.rating.Some? then s.rating.value else 0
  }

  /** `state.get("attempts", 0)`. */
  function AttemptsOf(s: GraphState): int {
    if s.attempts.Some? then s.attempts.value else 0
  }

  /** `state.get("log", [])`. */
  function LogOf(s: GraphState): seq<string> {
    if s.log.Some? then s.log.value else []
  }

  /** `state.get("location", "Default")`. */
  function LocationOf(s: GraphState): string {
    if s.location.Some? then s.location.value else "Default"
  }

  // ---------------------------------------------------------------------------
  // fetch_weather
  // ---------------------------------------------------------------------------

  const DefaultReading := Reading(27, "Moderate")

  /** The simulated weather of seven Indian places, and the fallback entry under "Default". */
  const SimulatedWeather: map<string, Reading> := map[
    "Delhi" := Reading(35, "Sunny and Hot"),
    "Mumbai" := Reading(28, "Humid and Cloudy"),
    "Bangalore" := Reading(25, "Pleasant and Breezy"),
    "Chennai" := Reading(32, "Hot and Humid"),
    "Kolkata" := Reading(30, "Warm and Rainy"),
    "Rajasthan" := Reading(40, "Very Hot and Dry"),
    "Kerala" := Reading(29, "Tropical and Humid"),
    "Default" := DefaultReading]

  /** The table's entry for the location, or the "Default" entry when there is none. */
  function WeatherAt(location: string): Reading {
    if location in SimulatedWeather then SimulatedWeather[location] else SimulatedWeather["Default"]
  }

  /**
   * Every location gets one of the table's readings, between 25 and 40
   * degrees; a location the table does not know gets 27 degrees and
   * "Moderate", and so does the name "Default" itself.
   */
  lemma WeatherAtTable(location: string)
    ensures WeatherAt(location) in SimulatedWeather.Values
    ensures 25 <= WeatherAt(location).tempC <= 40
    ensures location !in SimulatedWeather ==> WeatherAt(location) == Reading(27, "Moderate")
    ensures WeatherAt("Default") == Reading(27, "Moderate")
  {
    assert "Default" in SimulatedWeather;
    if location in SimulatedWeather {
      assert SimulatedWeather[location] in SimulatedWeather.Values;
    } else {
      assert SimulatedWeather["Default"] in SimulatedWeather.Values;
    }
  }

  /** The named places each get their own reading. */
  lemma WeatherAtPlaces()
    ensures WeatherAt("Delhi") == Reading(35, "Sunny and Hot")
    ensures WeatherAt("Rajasthan") == Reading(40, "Very Hot and Dry")
    ensures WeatherAt("Bangalore") == Reading(25, "Pleasant and Breezy")
    ensures WeatherAt("Goa") == Reading(27, "Moderate")
  {
    assert "Delhi" in SimulatedWeather && "Rajasthan" in SimulatedWeather && "Bangalore" in SimulatedWeather;
    assert "Goa" !in SimulatedWeather by {
      assert "Goa" != "Delhi" && "Goa" != "Mumbai" && "Goa" != "Bangalore" && "Goa" != "Chennai";
      assert "Goa" != "Kolkata" && "Goa" != "Rajasthan" && "Goa" != "Kerala" && "Goa" != "Default";
    }
  }

  /** How the log prints a reading (the dictionary's text form; the table's conditions hold no quotes). */
  function ReadingText(r: Reading): string {
    "{'temp_c': " + IntToString(r.tempC) + ", 'condition': '" + r.condition + "'}"
  }

  const FetchHead := "Node: fetch_weather - Location: "

  function FetchLine(location: string, r: Reading): string {
    FetchHead + location + ", Fetched Weather: " + ReadingText(r)
  }

  /** `fetch_weather_node`: stores the table's reading for the location and logs one line. */
  function FetchWeatherNode(s: GraphState): (r: GraphState)
    ensures r.weather == Some(WeatherAt(LocationOf(s)))
    ensures LogOf(r) == LogOf(s) + [FetchLine(LocationOf(s), WeatherAt(LocationOf(s)))]
    ensures r.(weather := s.weather, log := s.log) == s
  {
    var w := WeatherAt(LocationOf(s));
    s.(weather := Some(w), log := Some(LogOf(s) + [FetchLine(LocationOf(s), w)]))
  }

  // ---------------------------------------------------------------------------
  // generate_outfit
  // ---------------------------------------------------------------------------

  const ModelName := "gpt-4o-mini"

  const Apology := "Sorry, I couldn't generate a recommendation " + "due to an error with the AI model."

  // The fixed parts of the prompt, in order.
  const PromptIntro := "You are a fashion stylist AI. Generate a specific and actionable outfit recommendation " +
    "for the following user profile and context.\n" +
    "Be creative but practical. Output only the outfit recommendation, nothing else.\n\n" +
    "User Profile:\n- Height: "
  const PromptGender := "\n- Gender: "
  const PromptLocation := "\n\nContext:\n- Location: "
  const PromptOccasion := "\n- Occasion: "
  const PromptMood := "\n- Desired Mood: "
  const PromptWeather := "\n- Current Weather: "
  const PromptDegrees := "\U{B0}C, "
  const PromptAttempt := "\n\nPrevious Attempt Number: "
  const PromptOutro := " (if > 0, try something different from previous attempts if possible, " +
      "though user feedback isn't directly provided here).\n\nOutfit Recommendation:"

  /** The prompt for the attempt numbered `attempt`. */
  function Prompt(s: GraphState, attempt: int): string
    requires s.location.Some? && s.weather.Some?
  {
    PromptIntro + s.height + PromptGender + s.gender + PromptLocation + s.location.value +
    PromptOccasion + s.occasion + PromptMood + s.mood +
    PromptWeather + IntToString(s.weather.value.tempC) + PromptDegrees + s.weather.value.condition +
    PromptAttempt + IntToString(attempt - 1) + PromptOutro
  }

  /** The first `n` characters of `text` (all of it when it is shorter). */
  function Truncated(text: string, n: nat): (head: string)
    ensures head <= text
    ensures |head| == if |text| < n then |text| else n
  {
    if |text| < n then text else text[..n]
  }

  const CallHead := "Node: generate_outfit - Attempt: "
  const CallModel := " - Calling LLM (OpenAI " + ModelName + ") with prompt:\n"

  function PromptLine(attempt: int, prompt: string): string {
    CallHead + IntToString(attempt) + CallModel + Truncated(prompt, 300) + "..."
  }

  /** The recommendation kept from one language-model call, with this node's apology. */
  function Recommendation(reply: LlmReply): string {
    KeptRecommendation(reply, Apology)
  }

  const ResponseHead := "Node: generate_outfit - LLM Response: "
  const ErrorHead := "Error calling OpenAI LLM: "

  function ResponseLine(recommendation: string): string {
    ResponseHead + recommendation
  }

  /** The log lines after the prompt line: the error when the call failed, then the recommendation kept. */
  function ReplyLines(reply: LlmReply): (lines: seq<string>)
    ensures |lines| == if reply.LlmError? then 2 else 1
    ensures lines[|lines| - 1] == ResponseLine(Recommendation(reply))
    ensures reply.LlmError? ==> lines[0] == ErrorHead + reply.message
  {
    match reply
    case Completion(_) => [ResponseLine(Recommendation(reply))]
    case LlmError(message) => [ErrorHead + message, ResponseLine(Apology)]
  }

  /**
   * `generate_outfit_node`: one more attempt, the recommendation from this
   * call of the language model, and two log lines (three when the call
   * failed). The location and the weather must be present (they are read
   * without a default).
   */
  function GenerateOutfitNode(s: GraphState, reply: LlmReply): (r: GraphState)
    requires s.location.Some? && s.weather.Some?
    ensures r.attempts == Some(AttemptsOf(s) + 1)
    ensures r.recommendation == Some(Recommendation(reply))
    ensures LogOf(r) == LogOf(s) + [PromptLine(AttemptsOf(s) + 1, Prompt(s, AttemptsOf(s) + 1))] + ReplyLines(reply)
    ensures LogOf(s) <= LogOf(r) && |LogOf(r)| == |LogOf(s)| + (if reply.LlmError? then 3 else 2)
    ensures r.(recommendation := s.recommendation, attempts := s.attempts, log := s.log) == s
  {
    var attempt := AttemptsOf(s) + 1;
    var logs := LogOf(s) + [PromptLine(attempt, Prompt(s, attempt))];
    s.(recommendation := Some(Recommendation(reply)), attempts := Some(attempt), log := Some(logs + ReplyLines(reply)))
  }

  // ---------------------------------------------------------------------------
  // retry_or_finish
  // ---------------------------------------------------------------------------

  const GateHead := "Node: retry_or_finish - Rating: "
  const FinishOnRating := "Node: retry_or_finish - Decision: Rating >= 7. Proceeding to final message."
  const DecisionHead := "Node: retry_or_finish - Decision: "
  const BudgetTail := ") reached. Proceeding to final message."
  const RetryTail := ". Retrying outfit generation."

  function GateLine(rating: int, attempts: int, maxAttempts: int): string {
    GateHead + IntToString(rating) + ", Attempts: " + IntToString(attempts) + "/" + IntToString(maxAttempts)
  }

  function DecisionLine(rating: int, attempts: int, maxAttempts: int): string {
    if rating >= SatisfactoryRating then FinishOnRating
    else if attempts >= maxAttempts then DecisionHead + "Max attempts (" + IntToString(maxAttempts) + BudgetTail
    else DecisionHead + "Rating < 7 and attempts < " + IntToString(maxAttempts) + RetryTail
  }

  /**
   * `retry_or_finish_node`, the router after generation: the gate's decision
   * on the rating (default 0), the attempts and the budget (both read
   * without a default), and the state with the two lines it appends to the
   * shared log list.
   */
  function RetryOrFinish(s: GraphState): (res: (Decision, GraphState))
    requires s.attempts.Some? && s.maxAttempts.Some?
    ensures res.0 == Decide(RatingOf(s), s.attempts.value, s.maxAttempts.value)
    ensures res.0 == Finish <==> RatingOf(s) >= SatisfactoryRating || s.attempts.value >= s.maxAttempts.value
    ensures LogOf(res.1) == LogOf(s) + [GateLine(RatingOf(s), s.attempts.value, s.maxAttempts.value),
                                        DecisionLine(RatingOf(s), s.attempts.value, s.maxAttempts.value)]
    ensures res.1.(log := s.log) == s
  {
    var rating, attempts, maxAttempts := RatingOf(s), s.attempts.value, s.maxAttempts.value;
    (Decide(rating, attempts, maxAttempts),
     s.(log := Some(LogOf(s) + [GateLine(rating, attempts, maxAttempts), DecisionLine(rating, attempts, maxAttempts)])))
  }

  // ---------------------------------------------------------------------------
  // final_message
  // ---------------------------------------------------------------------------

  /** The party popper and the broken heart. */
  const GraphMarks := ResultText.Marks("\U{1F389}", "\U{1F494}")

  /** What the final message reports: success with the attempt count, or failure with the budget. */
  function FinalOutcome(s: GraphState): ResultText.Outcome
    requires s.attempts.Some? && s.maxAttempts.Some? && s.recommendation.Some?
  {
    var satisfied := RatingOf(s) >= SatisfactoryRating;
    ResultText.Outcome(satisfied, if satisfied then s.attempts.value else s.maxAttempts.value, s.recommendation.value)
  }

  function FinalMessage(s: GraphState): string
    requires s.attempts.Some? && s.maxAttempts.Some? && s.recommendation.Some?
  {
    var o := FinalOutcome(s);
    ResultText.Compose(o.satisfied, o.count, o.recommendation, GraphMarks)
  }

  /**
   * The final message reads back as the success framing with the attempt
   * count when the rating is satisfactory and as the failure framing with the
   * budget otherwise, ending in the last recommendation.
   */
  lemma FinalMessageReadsBack(s: GraphState)
    requires s.attempts.Some? && s.maxAttempts.Some? && s.recommendation.Some?
    ensures ResultText.Parse(FinalMessage(s), GraphMarks) == Some(FinalOutcome(s))
  {
    var o := FinalOutcome(s);
    ResultText.ParseCompose(o.satisfied, o.count, o.recommendation, GraphMarks);
  }

  const FinalHead := "Node: final_message - Generating final message: "

  function FinalLine(message: string): string {
    FinalHead + message
  }

  /** `final_message_node`: stores the final message and logs it. Attempts, budget and recommendation must be present. */
  function FinalMessageNode(s: GraphState): (r: GraphState)
    requires s.attempts.Some? && s.maxAttempts.Some? && s.recommendation.Some?
    ensures r.finalMessage == Some(FinalMessage(s))
    ensures LogOf(r) == LogOf(s) + [FinalLine(FinalMessage(s))]
    ensures r.(finalMessage := s.finalMessage, log := s.log) == s
  {
    var message := FinalMessage(s);
    s.(finalMessage := Some(message), log := Some(LogOf(s) + [FinalLine(message)]))
  }

  // ---------------------------------------------------------------------------
  // The wired graph
  // ---------------------------------------------------------------------------

  /** The state keys no node writes. */
  predicate SameInputs(a: GraphState, b: GraphState) {
    a.height == b.height && a.gender == b.gender && a.location == b.location && a.occasion == b.occasion &&
    a.mood == b.mood && a.rating == b.rating && a.maxAttempts == b.maxAttempts
  }

  /**
   * What holds of the state `s` of a run from `init` when it is about to run
   * `phase` after `g` generations: the inputs are untouched, every generation
   * counted one attempt, the generations done and still to come add up to
   * the expected number, the log has grown by the phase's share plus one
   * line per failed call, the weather is the table's, the recommendation is
   * the last call's, and the final message is built only after the router
   * finished.
   */
  ghost predicate Reached(init: GraphState, llm: nat -> LlmReply, phase: Phase, s: GraphState, g: nat) {
    init.location.Some? && init.maxAttempts.Some? &&
    SameInputs(s, init) &&
    AttemptsOf(s) == AttemptsOf(init) + g &&
    g + GenerationsLeft(phase, RatingOf(init), AttemptsOf(s), init.maxAttempts.value)
      == ExpectedGenerations(RatingOf(init), AttemptsOf(init), init.maxAttempts.value) &&
    LogOf(init) <= LogOf(s) && |LogOf(s)| == |LogOf(init)| + LogGrowth(phase, g) + FailedCalls(llm, g) &&
    (phase == FetchWeather ==> s == init && g == 0) &&
    (phase != FetchWeather ==> s.weather == Some(WeatherAt(init.location.value))) &&
    (phase.Check? || phase.BuildResult? || phase.Done? ==>
      g >= 1 && s.attempts.Some? && s.recommendation.Some? && s.recommendation.value == Recommendation(llm(g - 1))) &&
    (phase.BuildResult? || phase.Done? ==> Decide(RatingOf(init), AttemptsOf(s), init.maxAttempts.value) == Finish) &&
    (phase.Done? ==> s.finalMessage.Some? && s.finalMessage.value == FinalMessage(s))
  }

  /** The number of node runs still to come, as the loop measures it. */
  function Steps(init: GraphState, phase: Phase, s: GraphState): nat
    requires init.maxAttempts.Some?
  {
    StepsLeft(phase, RatingOf(init), AttemptsOf(s), init.maxAttempts.value)
  }

  // Each node run below takes the run from one phase to the next; the
  // decreasing step count is what bounds the loop in `Run`.

  method FetchWeatherStep(init: GraphState, ghost llm: nat -> LlmReply) returns (s': GraphState)
    requires Reached(init, llm, FetchWeather, init, 0)
    ensures Reached(init, llm, Generate, s', 0)
    ensures Steps(init, Generate, s') < Steps(init, FetchWeather, init)
  {
    s' := FetchWeatherNode(init);
    assert LogOf(s') == LogOf(init) + [FetchLine(LocationOf(init), WeatherAt(LocationOf(init)))];
  }

  method GenerateStep(init: GraphState, llm: nat -> LlmReply, s: GraphState, g: nat) returns (s': GraphState)
    requires Reached(init, llm, Generate, s, g)
    ensures Reached(init, llm, Check, s', g + 1)
    ensures Steps(init, Check, s') < Steps(init, Generate, s)
  {
    s' := GenerateOutfitNode(s, llm(g));
    Generated(init, llm, s, g, s');
  }

  /** The facts about a generation that the run's bookkeeping needs, without the text of the lines. */
  lemma Generated(init: GraphState, llm: nat -> LlmReply, s: GraphState, g: nat, s': GraphState)
    requires Reached(init, llm, Generate, s, g)
    requires s'.attempts.Some? && s'.attempts.value == AttemptsOf(s) + 1
    requires s'.recommendation.Some? && s'.recommendation.value == Recommendation(llm(g))
    requires LogOf(s) <= LogOf(s') && |LogOf(s')| == |LogOf(s)| + (if llm(g).LlmError? then 3 else 2)
    requires s'.(recommendation := s.recommendation, attempts := s.attempts, log := s.log) == s
    ensures Reached(init, llm, Check, s', g + 1)
    ensures Steps(init, Check, s') < Steps(init, Generate, s)
  {
    GenerateThenCheck(RatingOf(init), AttemptsOf(s), init.maxAttempts.value);
  }

  method RouteStep(init: GraphState, ghost llm: nat -> LlmReply, s: GraphState, g: nat) returns (d: Decision, s': GraphState)
    requires Reached(init, llm, Check, s, g)
    ensures d == Retry ==> Reached(init, llm, Generate, s', g) && Steps(init, Generate, s') < Steps(init, Check, s)
    ensures d == Finish ==> Reached(init, llm, BuildResult, s', g) && Steps(init, BuildResult, s') < Steps(init, Check, s)
  {
    var routed := RetryOrFinish(s);
    d, s' := routed.0, routed.1;
    var rating, attempts, maxAttempts := RatingOf(s), s.attempts.value, s.maxAttempts.value;
    assert LogOf(s') == LogOf(s) + [GateLine(rating, attempts, maxAttempts), DecisionLine(rating, attempts, maxAttempts)];
    if d == Retry {
      CheckThenRetry(RatingOf(init), AttemptsOf(s), init.maxAttempts.value);
    }
  }

  method FinalMessageStep(init: GraphState, ghost llm: nat -> LlmReply, s: GraphState, g: nat) returns (s': GraphState)
    requires Reached(init, llm, BuildResult, s, g)
    ensures Reached(init, llm, Done, s', g)
  {
    s' := FinalMessageNode(s);
    assert LogOf(s') == LogOf(s) + [FinalLine(FinalMessage(s))];
    assert FinalMessage(s') == FinalMessage(s);
  }

  /** One node run: the node `phase` names, applied to `s`. */
  method Advance(init: GraphState, llm: nat -> LlmReply, phase: Phase, s: GraphState, g: nat)
    returns (phase': Phase, s': GraphState, g': nat)
    requires phase != Done && Reached(init, llm, phase, s, g)
    ensures Reached(init, llm, phase', s', g') && Steps(init, phase', s') < Steps(init, phase, s)
  {
    match phase
    case FetchWeather =>
      s' := FetchWeatherStep(init, llm);
      phase', g' := Generate, g;
    case Generate =>
      s' := GenerateStep(init, llm, s, g);
      phase', g' := Check, g + 1;
    case Check =>
      var decision;
      decision, s' := RouteStep(init, llm, s, g);
      phase', g' := if decision == Retry then Generate else BuildResult, g;
    case BuildResult =>
      s' := FinalMessageStep(init, llm, s, g);
      phase', g' := Done, g;
  }

  /** The node loop of `Run`: from the entry node to the end, keeping `Reached` at every node. */
  method RunNodes(init: GraphState, llm: nat -> LlmReply) returns (s: GraphState, generations: nat)
    requires init.location.Some? && init.maxAttempts.Some?
    ensures Reached(init, llm, Done, s, generations)
  {
    s := init;
    var phase := FetchWeather;
    generations := 0;
    while phase != Done
      invariant Reached(init, llm, phase, s, generations)
      decreases Steps(init, phase, s)
    {
      phase, s, generations := Advance(init, llm, phase, s, generations);
    }
  }

  /** What a finished run has established. */
  lemma Finished(init: GraphState, llm: nat -> LlmReply, s: GraphState, g: nat)
    requires Reached(init, llm, Done, s, g)
    ensures g == ExpectedGenerations(RatingOf(init), AttemptsOf(init), init.maxAttempts.value)
    ensures SameInputs(s, init)
    ensures s.weather == Some(WeatherAt(init.location.value))
    ensures g >= 1 && s.attempts.Some? && s.attempts.value == AttemptsOf(init) + g
    ensures s.recommendation.Some? && s.recommendation.value == Recommendation(llm(g - 1))
    ensures RatingOf(s) < SatisfactoryRating ==> s.attempts.value >= s.maxAttempts.value
    ensures s.finalMessage.Some?
    ensures ResultText.Parse(s.finalMessage.value, GraphMarks) == Some(FinalOutcome(s))
    ensures LogOf(init) <= LogOf(s) && |LogOf(s)| == |LogOf(init)| + 2 + 4 * g + FailedCalls(llm, g)
  {
    FinalMessageReadsBack(s);
  }

  /**
   * One invocation of the compiled graph on `init`, the language model giving
   * `llm(k)` on its k-th call of the run. Location and budget must be present
   * (they are read without a default). With the rating fixed for the run, it
   * performs exactly one generation on a satisfactory rating and otherwise
   * max(1, budget - attempts); it reaches the failure message only with the
   * budget spent; it keeps the last recommendation; and it grows the log by 4
   * lines per generation, one per failed call, and the weather and final
   * lines.
   */
  method Run(init: GraphState, llm: nat -> LlmReply) returns (final: GraphState, generations: nat)
    requires init.location.Some? && init.maxAttempts.Some?
    ensures generations == ExpectedGenerations(RatingOf(init), AttemptsOf(init), init.maxAttempts.value)
    ensures SameInputs(final, init)
    ensures final.weather == Some(WeatherAt(init.location.value))
    ensures generations >= 1 && final.attempts.Some? && final.attempts.value == AttemptsOf(init) + generations
    ensures final.recommendation.Some? && final.recommendation.value == Recommendation(llm(generations - 1))
    ensures RatingOf(final) < SatisfactoryRating ==> final.attempts.value >= final.maxAttempts.value
    ensures final.finalMessage.Some?
    ensures ResultText.Parse(final.finalMessage.value, GraphMarks) == Some(FinalOutcome(final))
    ensures LogOf(init) <= LogOf(final) &&
            |LogOf(final)| == |LogOf(init)| + 2 + 4 * generations + FailedCalls(llm, generations)
  {
    final, generations := RunNodes(init, llm);
    Finished(init, llm, final, generations);
  }

  /** The recursion limit the file's example passes to each invocation. */
  const ExampleRecursionLimit := 10

  /**
   * The file's own three invocations, budget 5, Bangalore. From rating 0 and
   * no attempts the first runs all five generations and reports failure with
   * the budget; it takes 2 + 5 graph steps, within the recursion limit. The
   * user then rates 5 (one more log line): the second run makes one
   * generation (attempt 6) and stops on the spent budget. After a rating of 8
   * the third makes one more (attempt 7) and reports success after 7 attempts.
   * Each invocation has its own language-model replies.
   */
  method ExampleSession(llm1: nat -> LlmReply, llm2: nat -> LlmReply, llm3: nat -> LlmReply)
    returns (first: GraphState, firstSteps: nat, second: GraphState, third: GraphState)
    ensures firstSteps == 7 && firstSteps <= ExampleRecursionLimit
    ensures first.attempts.Some? && first.attempts.value == 5
    ensures |LogOf(first)| == 1 + 2 + 4 * 5 + FailedCalls(llm1, 5)
    ensures first.finalMessage.Some? &&
      ResultText.Parse(first.finalMessage.value, GraphMarks) == Some(ResultText.Outcome(false, 5, Recommendation(llm1(4))))
    ensures second.attempts.Some? && second.attempts.value == 6
    ensures second.finalMessage.Some? &&
      ResultText.Parse(second.finalMessage.value, GraphMarks) == Some(ResultText.Outcome(false, 5, Recommendation(llm2(0))))
    ensures third.attempts.Some? && third.attempts.value == 7
    ensures third.finalMessage.Some? &&
      ResultText.Parse(third.finalMessage.value, GraphMarks) == Some(ResultText.Outcome(true, 7, Recommendation(llm3(0))))
  {
    var init := GraphState("5'10\"", "Male", Some("Bangalore"), "Daily Casual", "Relaxed", None, None,
                           Some(0), Some(0), Some(5), None, Some(["Initial state created."]));
    var g1, g2, g3;
    first, g1 := Run(init, llm1);
    firstSteps := 2 + g1;
    var rated := first.(rating := Some(5), log := Some(LogOf(first) + ["User rated the outfit: 5"]));
    second, g2 := Run(rated, llm2);
    var rated' := second.(rating := Some(8), log := Some(LogOf(second) + ["User rated the outfit: 8"]));
    third, g3 := Run(rated', llm3);
  }
}
