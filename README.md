# Outfit recommender: a verified model of its workflow core

The outfit recommender asks a language model for an outfit suited to a
user's height, gender, location, occasion, mood and the current weather. The
user rates each suggestion from 1 to 10. A rating gate then either asks for
another suggestion or writes a final message. The gate finishes on a rating
of 7 or more, or once the attempt budget is used up.

The project models the logic around the I/O:

- **The workflow, in two variants.**
  - `FixedGraph` models `app/fixed_graph.py`, the version the user interface
    imports. Its nodes are get_weather, generate_outfit and generate_result,
    and the router is check_rating.
  - `Graph` models the older `app/graph.py`. Its nodes are fetch_weather over
    a simulated weather table, generate_outfit_node and final_message_node,
    and the router is retry_or_finish_node.
  - In both, the graph engine becomes an explicit phase variable and a `while`
    loop. Its termination measure gives the exact number of generations of a
    run with a fixed rating.
  - The language model is an oracle `llm: nat -> LlmReply`, indexed by call
    number. A call either completes with some content or fails with an error
    message.
  - `Workflow` holds what the variants share: the three-way decision rule,
    the generation count, and the loop measure. `ResultText` holds the final
    message, its composer and its parser.
- **The two weather services.**
  - `TavilyWeather` models `app/tavily_weather_service.py`. It covers the
    fallback table, the location list, the temperature and condition
    extraction from search text, the parse of a search reply, and the fallback
    paths of the lookup.
  - `WeatherService` models `app/weather_service.py`. It covers the
    state-to-city map, the Kelvin conversion, the description bands, and the
    lookup.
  - `WeatherData` is the weather record they share.
- **The user interface's logic.**
  - `EnvFile` is the `.env` rewrite performed when an API key is entered.
  - `Session` is the session record, as the start button resets it and as
    streamed node outputs are merged into the graph state.
- `Text` holds Python's string operations used throughout:
  - `strip`, `lower` and `capitalize`;
  - `split` and `join` on a separator;
  - integer formatting and reading back.

Two behaviours are modelled as written:

- The OpenWeatherMap service asks for metric units, yet converts the reply's
  temperature as if it were in Kelvin before choosing a band. So every
  plausible reading is described as "Very Cold"
  (`WeatherService.MetricReadingsAreVeryCold`).
- In `app/fixed_graph.py`, the result strings carry the file's mis-decoded
  emoji bytes exactly as they appear in the file.

## Model

| member | source | states |
|---|---|---|
| WeatherData.Get | app/tavily_weather_service.py:187 | a table lookup finds a value exactly when the name is a key, and the value is that key's entry |
| WeatherData.GetEntry | app/tavily_weather_service.py:29-43 | with distinct keys, looking up the i-th name gives the i-th entry |
| WeatherData.GetOrDefault | app/tavily_weather_service.py:187 | `get(name, table["Default"])` returns the name's entry when there is one and the "Default" entry otherwise |
| WeatherData.AsWeather | app/tavily_weather_service.py:29-43 | a table entry as a weather value keeps its temperature and condition, and has no data source |
| TavilyWeather.FallbackWeather | app/tavily_weather_service.py:29-43 | a fallback weather value never carries a data source |
| TavilyWeather.FallbackKeysDistinct | app/tavily_weather_service.py:29-43 | the fallback table's thirteen keys are distinct, so it is a dictionary |
| TavilyWeather.FallbackEntry | app/tavily_weather_service.py:29-43 | every named location gets exactly its own table entry |
| TavilyWeather.FallbackDefault | app/tavily_weather_service.py:187 | a location the table does not know gets 27 degrees and "Moderate" |
| TavilyWeather.AvailableLocationsAreTableNames | app/tavily_weather_service.py:46-47 | the location list is the table's keys in order with "Default" removed, and every listed location has a table entry |
| TavilyWeather.ExtractTemperature | app/tavily_weather_service.py:70-96 | there is no temperature exactly when no Celsius and no Fahrenheit pattern matches, and a Celsius match never gives a negative number |
| TavilyWeather.ExtractTemperatureCelsius | app/tavily_weather_service.py:61-76 | when Celsius pattern k is the first in list order to match anywhere, the temperature is that match's number |
| TavilyWeather.ExtractTemperatureFahrenheit | app/tavily_weather_service.py:79-96 | when no Celsius pattern matches and Fahrenheit pattern k is the first to match, the temperature is its number converted to Celsius and rounded to one decimal |
| TavilyWeather.Round1 | app/tavily_weather_service.py:92 | rounding to one decimal gives a multiple of 0.1 within 0.05 of the argument and at least as close as any other multiple of 0.1 |
| TavilyWeather.Round1Exact | app/tavily_weather_service.py:92 | rounding leaves a value that is already a multiple of 0.1 unchanged |
| TavilyWeather.FahrenheitSymbolConverted | app/tavily_weather_service.py:79-92 | for "N°F", where no Celsius pattern matches, the result is N degrees Fahrenheit converted to Celsius and rounded |
| TavilyWeather.SeventySevenFahrenheit | app/tavily_weather_service.py:79-92 | "77°F" reads as 25.0 degrees Celsius |
| TavilyWeather.DegreesFahrenheitReadAsCelsius | app/tavily_weather_service.py:61-76 | "N degrees Fahrenheit" reads as N, because the bare "degrees" Celsius pattern is tried before any Fahrenheit pattern |
| TavilyWeather.ExtractCondition | app/tavily_weather_service.py:98-133 | a match of any keyword alternation guarantees a condition |
| TavilyWeather.ExtractConditionKeyword | app/tavily_weather_service.py:109-126 | when alternation k is the first in priority order found anywhere, the condition is its leftmost match, capitalised |
| TavilyWeather.ExtractConditionSentence | app/tavily_weather_service.py:128-131 | with no keyword anywhere, the condition is the leftmost terminated sentence that mentions "weather" or "condition", stripped |
| TavilyWeather.ExtractConditionNone | app/tavily_weather_service.py:122-133 | there is no condition exactly when no keyword alternation and no such sentence occurs |
| TavilyWeather.SunnyWins | app/tavily_weather_service.py:109-126 | when "sunny" is the first place where a first-priority keyword could start, the condition is "Sunny", whatever follows |
| TavilyWeather.HotAndSunny | app/tavily_weather_service.py:109-126 | "hot and sunny" gives "Sunny": the pattern with the higher priority wins even though "hot" occurs earlier |
| TavilyWeather.ContentTextAppend | app/tavily_weather_service.py:147-151 | the text gathered from two lists of hits, one after the other, is the two texts concatenated |
| TavilyWeather.ParsedWeather | app/tavily_weather_service.py:135-171 | each field is the extracted value when there is one and the fallback entry's otherwise, and the source is always "tavily" |
| TavilyWeather.ParseSearchResults | app/tavily_weather_service.py:147-171 | the loop gathering each hit's content followed by a space yields exactly the parsed weather |
| TavilyWeather.WeatherFor | app/tavily_weather_service.py:173-233 | for the reply shapes modelled, the result carries a source exactly when the key is set and the reply is a 200 with a decodable body; otherwise it is the plain fallback entry |
| TavilyWeather.GetWeatherForLocation | app/tavily_weather_service.py:185-233 | the lookup searches for "current weather in <location> temperature celsius" and returns the weather for that search's outcome |
| WeatherService.FallbackWeather | app/weather_service.py:20-29 | a fallback weather value never carries a data source |
| WeatherService.FallbackKeysDistinct | app/weather_service.py:20-29 | the eight fallback keys are distinct |
| WeatherService.FallbackEntry | app/weather_service.py:20-29 | every named location gets exactly its own table entry |
| WeatherService.FallbackDefault | app/weather_service.py:101 | a location the table does not know gets 27 degrees and "Moderate" |
| WeatherService.CityFor | app/weather_service.py:104 | a location the map does not list is queried under its own name |
| WeatherService.CityForRenamesOnlyStates | app/weather_service.py:32-41 | Rajasthan is queried as Jaipur and Kerala as Kochi, and every other location under its own name |
| WeatherService.KelvinToCelsius | app/weather_service.py:43-45 | the conversion subtracts 273.15, so the result is negative exactly below 273.15 Kelvin |
| WeatherService.Band | app/weather_service.py:59-72 | the band named is exactly the one whose interval holds the temperature |
| WeatherService.BandsPartition | app/weather_service.py:59-72 | the seven bands cover every temperature and no two overlap |
| WeatherService.BandMonotone | app/weather_service.py:59-72 | a warmer temperature never falls in a colder band |
| WeatherService.HumiditySuffix | app/weather_service.py:74-81 | " and Humid" above 80, " and Dry" below 30, and nothing between them or without a humidity |
| WeatherService.ConditionDescription | app/weather_service.py:49-50 | a reply with no `weather` key is described as "Unknown" |
| WeatherService.ConditionDescriptionShape | app/weather_service.py:52-85 | with a temperature, the description is the band, the humidity suffix, " with " and the capitalised description; without one, it is the main condition, " - " and the capitalised description |
| WeatherService.MetricReadingsAreVeryCold | app/weather_service.py:56 | any reading up to 283.15 falls in "Very Cold", which includes every metric Celsius reading |
| WeatherService.WeatherFor | app/weather_service.py:87-140 | a result with a source comes from a 200 reply under a configured key and carries the source "api"; any other result is the fallback entry |
| WeatherService.SuccessShape | app/weather_service.py:118-133 | a complete 200 reply yields its own temperature, the derived description and the source "api" |
| WeatherService.GetWeatherForLocation | app/weather_service.py:99-140 | the lookup requests the location's city and returns the weather for that request's outcome |
| Workflow.Decide | app/fixed_graph.py:120-128 | the gate finishes exactly when the rating is at least 7 or the attempts have reached the budget, and retries otherwise |
| Workflow.DecisionScenarios | test_logic.py:14-20 | the five sample scenarios get their expected decisions |
| Workflow.FailedCalls | app/graph.py:126-130 | at most one failed call per call made |
| Workflow.ExpectedGenerations | app/fixed_graph.py:167-183 | the closed-form generation count that both `Run` methods are proved to meet: at least one, exactly one with a satisfying rating, and otherwise the larger of one and the remaining budget |
| Workflow.GenerateThenCheck | app/fixed_graph.py:170-180 | a generation followed by the gate lowers the loop measure and uses up exactly one of the generations still to come |
| Workflow.CheckThenRetry | app/fixed_graph.py:173-180 | a retry from the gate lowers the loop measure and leaves the generations still to come unchanged |
| ResultText.Compose | app/fixed_graph.py:142-145 | the message ends with the recommendation and starts with the success lead when satisfied and the failure lead otherwise |
| ResultText.ParseCompose | app/fixed_graph.py:142-145 | reading a composed message back gives its framing, its number and its recommendation |
| FixedGraph.GetWeather | app/fixed_graph.py:44-56 | the state gains the service's weather for the location (default "Default") and exactly one log line, and nothing else changes |
| FixedGraph.GetWeatherSource | app/fixed_graph.py:52-53 | the logged source is "tavily" for a usable search reply, and otherwise "fallback" with the fallback entry |
| FixedGraph.GenerateOutfit | app/fixed_graph.py:58-108 | one more attempt (from a default of 0), this call's recommendation, the old log plus the call line and the outcome line, and nothing else changes |
| FixedGraph.CheckRating | app/fixed_graph.py:110-133 | the route is the gate's decision on the rating, attempts and budget (defaults 0, 0, 5); the log gains the rating line and the decision line; nothing else changes |
| FixedGraph.CheckRatingDefaults | app/fixed_graph.py:112-117 | with nothing set, the gate retries and logs "Rating: 0, Attempts: 0/5" |
| FixedGraph.ResultMessageReadsBack | app/fixed_graph.py:137-145 | the final message reads back as success with the attempts or failure with the budget, ending in the recommendation or "No recommendation generated" |
| FixedGraph.GenerateResult | app/fixed_graph.py:135-153 | the result message is set, the log gains one line, and nothing else changes |
| FixedGraph.WeatherNode | app/fixed_graph.py:167-170 | the weather step sets up the first generation and lowers the loop measure |
| FixedGraph.GenerateNode | app/fixed_graph.py:58-108 | a generation keeps the loop invariant with one more generation done, and lowers the measure |
| FixedGraph.CheckNode | app/fixed_graph.py:173-180 | the gate leads back to generation or on to the result, keeping the invariant and lowering the measure |
| FixedGraph.ResultNode | app/fixed_graph.py:183 | the result step completes the run |
| FixedGraph.Finished | app/fixed_graph.py:156-185 | a completed run made the expected number of generations, counted each one as an attempt, and left the inputs alone; the gate then finishes, and the result message reads back as intended |
| FixedGraph.Run | app/fixed_graph.py:156-185 | the wired graph: the expected number of generations, the service's weather, the last call's recommendation, a finishing gate, a readable result message, and a log grown by 2 + 4 per generation |
| FixedGraph.RunNodes | app/fixed_graph.py:162-183 | the loop over the phases ends in the completed state |
| FixedGraph.ExampleRun | app/fixed_graph.py:196-217 | running the sample state (Mumbai, rating 0, budget 3, one log line) gives 3 attempts, 15 log lines starting with the sample's own, the third recommendation, and a failure message with the budget 3 |
| Graph.WeatherAtTable | app/graph.py:51-60 | every location gets a table reading between 25 and 40 degrees, and an unknown location (and "Default") gets 27 degrees and "Moderate" |
| Graph.WeatherAtPlaces | app/graph.py:51-60 | Delhi, Rajasthan and Bangalore get their own readings, and Goa gets the default |
| Graph.FetchWeatherNode | app/graph.py:70-84 | the state gains the table's reading for the location (default "Default") and exactly one log line, and nothing else changes |
| Graph.Truncated | app/graph.py:117 | the first 300 characters of the prompt: a prefix, as long as the prompt or 300, whichever is less |
| Workflow.KeptRecommendation | app/fixed_graph.py:95-101 | a completed call gives its stripped content, and a failed one the node's apology (each graph passes its own) |
| Graph.ReplyLines | app/graph.py:126-134 | after the prompt line come the error line (on failure only), then the response line |
| Graph.GenerateOutfitNode | app/graph.py:86-136 | one more attempt, this call's recommendation, the old log plus two lines (three on failure), and nothing else changes |
| Graph.RetryOrFinish | app/graph.py:138-176 | the route finishes exactly when the rating (default 0) is at least 7 or the attempts reach the budget; the log gains two lines; nothing else changes |
| Graph.FinalMessageReadsBack | app/graph.py:183-192 | the final message reads back as success with the attempts or failure with the budget, ending in the last recommendation |
| Graph.FinalMessageNode | app/graph.py:178-198 | the final message is set, the log gains one line, and nothing else changes |
| Graph.FetchWeatherStep | app/graph.py:213-216 | the weather step sets up the first generation and lowers the loop measure |
| Graph.GenerateStep | app/graph.py:86-136 | a generation keeps the loop invariant with one more generation done, and lowers the measure |
| Graph.Generated | app/graph.py:97-136 | a state produced by a generation satisfies the invariant after it, including one extra log line per failed call |
| Graph.RouteStep | app/graph.py:220-227 | the router leads back to generation or on to the final message, keeping the invariant and lowering the measure |
| Graph.FinalMessageStep | app/graph.py:230 | the final message step completes the run |
| Graph.Advance | app/graph.py:202-232 | each node run keeps the invariant and lowers the measure |
| Graph.RunNodes | app/graph.py:202-232 | the loop over the phases ends in the completed state |
| Graph.Finished | app/graph.py:202-232 | a completed run made the expected number of generations, used up the budget unless the rating satisfied, and wrote a readable final message |
| Graph.Run | app/graph.py:202-232 | the wired graph: the expected number of generations, the table's weather, the last call's recommendation, a readable final message, and a log grown by 2 + 4 per generation plus one per failed call |
| Graph.ExampleSession | app/graph.py:242-296 | running the sample state, then re-running after ratings 5 and 8: attempts 5, 6 and 7; failure, failure and success messages; the first run takes 7 graph steps, within the limit of 10 |
| EnvFile.RewriteLines | app/ui.py:88-94 | the rebuilt lines are as many as the old ones, and each is replaced or kept by itself |
| EnvFile.UpdateEnvContent | app/ui.py:80-100 | the rewrite loop produces exactly the updated content |
| EnvFile.ReplacedLines | app/ui.py:86-95 | when the key is present, the line count is kept, every key line becomes `TAVILY_API_KEY=<key>`, and every other line stays the same and in place |
| EnvFile.AppendedLine | app/ui.py:96-100 | when the key is absent, the content is kept, a newline is added only if it is missing, and the key line follows with its own newline |
| EnvFile.MidLineOnlyUnchanged | app/ui.py:86-91 | when the key text occurs only inside lines, the content comes back unchanged |
| EnvFile.Idempotent | app/ui.py:80-100 | rewriting twice with the same key gives the same text as rewriting once |
| EnvFile.KeyLinePresent | app/ui.py:96-100 | after the append branch the key text is present |
| Session.Merge | app/ui.py:232 | the merged state has the keys of both; keys of the output take the output's value, and all others keep theirs |
| Session.MergeTwice | app/ui.py:227-232 | merging two outputs in turn is merging their own merge once |
| Session.InitialInputShape | app/ui.py:136-150 | the graph input has exactly the workflow's state keys, with rating 0, attempts 0, budget 5, the chosen location and the fresh log |
| Session.Session.constructor | app/ui.py:15-34 | a new session runs nothing, has rated nothing, and holds only the welcome line in its log |
| Session.Session.StartButton | app/ui.py:124-150 | the run is reset (no recommendation or result, rating and attempts 0), the log restarts, the run key moves on by one, and the graph state becomes the form's input |
| Session.Session.ApplyNodeOutput | app/ui.py:232-242 | the output is merged into the graph state; its log, recommendation, attempts and result message replace the copies when present; nothing else changes |
| Session.Session.HandleEvent | app/ui.py:232-260 | the event is applied; a `generate_outfit` event with a non-empty recommendation sets the wait for a rating and leaves the stream, otherwise a non-empty result message clears processing and leaves it; the run key and the rating are untouched |
| Session.StreamOutputs | app/ui.py:226-265 | the page handles events up to and including the first one after which it leaves (the iff over every handled event), and the fields are exactly the fold of those events; leaving on a recommendation sets the wait for a rating, and leaving on a result message or ending the stream without one clears processing |
| Session.LeavesAtFirstRecommendation | app/ui.py:250-252 | with a weather event then a `generate_outfit` event with a recommendation, the page stays after the first event and leaves after the second, before any rating gate runs |
| Session.ApplyAllFields | app/ui.py:232-242 | after the fold, the graph state is every output merged in turn and each copy holds its last writer's value, or its old value if none wrote it |
| Session.LastWriteMerged | app/ui.py:232-242 | a copied key's last written value is the value the merged graph state holds under it |
| Session.MergeAllKeeps | app/ui.py:232 | a key that no output writes keeps its value across the stream |
| Session.MergeAllLastWriter | app/ui.py:232 | a key holds the value from the last output that wrote it |
| Text.StripTrims | app/fixed_graph.py:97 | stripping keeps a slice of the text, cuts off only white space around it, and leaves no white space at either end |
| Text.JoinSplit | app/ui.py:88-95 | joining the pieces of a split gives the text back |
| Text.SplitJoin | app/ui.py:88-95 | splitting a join of separator-free lines gives the lines back |
| Text.ReadIntToString | app/fixed_graph.py:143-145 | an integer written in decimal reads back as that integer |

## Left out

- Network calls, JSON decoding, file reads and writes of `.env`, `os.environ`, console printing and the masked-key debug output are left out. The HTTP outcome and the search reply are parameters. So is the language model's reply to each call.
- `time.time()` timestamps on weather values are not modelled.
- The graph engine's compilation, streaming and recursion limit are left out. The wiring is the explicit loop in `FixedGraph.Run` and `Graph.Run`. `Graph.ExampleSession` only compares the sample's node count with its limit.
- The prompt's wording is kept in `Graph`, because its first 300 characters go into the log. `FixedGraph` does not log the prompt, so the prompt is not modelled there.
- FixedGraph.GetWeather: the temperature in its log line goes through an uninterpreted `showTemp`, because Python's float formatting is not modelled.
- Floating point is modelled as exact `real` arithmetic. This covers `round(x, 1)`, the subtraction of 273.15 and `float()` of a matched number.
- Python regular expressions are modelled for the fixed pattern lists only. Case-insensitive matching folds ASCII letters only.
- Text.Capitalize and Text.IsDigit cover ASCII only. Python's `str.capitalize` maps all of Unicode and can change a string's length (`"ß"` becomes `"Ss"`), and `\d` matches every Unicode decimal digit (so `"٣٥°C"` reads as 35.0 in Python and as no temperature here). This affects the weather descriptions, the extracted condition and every temperature pattern.
- TavilyWeather.WeatherFor: a 200 reply whose JSON decodes but has the wrong shape (a `results` value that is not a list, or a hit whose `content` is not a string) makes the parse raise, and the source then returns the plain fallback. The model has no such reply shape; such a reply is represented as the `Raised` outcome.
- The `except ValueError` branches around `float()` in `extract_temperature` cannot be reached, because every match is a valid decimal. They are not modelled.
- FixedGraph.GenerateOutfit and Graph.GenerateOutfitNode assume the model's reply content is a string. A non-string content raising inside the `try` is seen as a failed call.
- FixedGraph.CheckRating and Graph.RetryOrFinish: their log lines persist only through the in-place append to the shared list. The model assumes that the list object passed to the router is the one the next node reads.
- Graph.GenerateOutfitNode, Graph.RetryOrFinish and Graph.FinalMessageNode require the keys the source reads without a default (location, weather, attempts, max_attempts, recommendation). A missing key there is a `KeyError`, which the model does not represent.
- FixedGraph.GenerateOutfit requires `location` and `weather`, and FixedGraph.Run and FixedGraph.RunNodes require `location`: `generate_outfit` reads them without a default, so a missing key is a `KeyError`, which the model does not represent. (`weather` is always set by `get_weather` before `generate_outfit` runs.)
- WeatherService.WeatherFor reads a missing field of a 200 reply as the fallback, which is where the source's exception handler takes it. The reply's shape is abstract.
- EnvFile.Idempotent and EnvFile.ReplacedLines require the key to contain no newline, which a single-line text input guarantees.
- Session.Session.ApplyNodeOutput requires each copied key to hold the kind of value the nodes produce.
- The Start Over button, rating submission and the rerun are page flow. They are not modelled beyond the start button, the stream loop and its two exits.
- Session.StreamOutputs does not model the `except` branch of the stream loop (app/ui.py:267-270: an exception from the graph is logged as `ERROR: …` and clears processing); the events are given as a finished sequence, and the placeholders and the warning are display only.
- The test and example scripts are used only for the scenario lemmas.
