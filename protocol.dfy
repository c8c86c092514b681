/** What the console driver and the web driver have in common: the reply record
    the model is asked to produce, the conversation log, the single tool in the
    registry, and the texts get_weather builds.  Everything outside the program
    (the completion endpoint, the weather service, JSON decoding) is an input. */
module Protocol {

  datatype Option<+T> = None | Some(value: T)

  /** The record `MyOutputFormat`: `step` is required, the other three fields
      are optional strings. `step` stays a string, because the drivers compare it
      with the four literals and let any other value through. */
  datatype StepRecord = StepRecord(
    step: string,
    content: Option<string>,
    tool: Option<string>,
    input: Option<string>)

  /** Decoding a reply (json.loads followed by model_validate): a partial
      function, None where the text is not JSON or does not fit the record. */
  type Parser = string -> Option<StepRecord>

  datatype Role = User | Model

  /** The single part of a history entry: the text the model or the user sent,
      or an observation the driver made up after a tool call. console: all four
      keys; web: only `step` and `OUTPUT`. */
  datatype Part =
    | Text(text: string)
    | ObserveCall(tool: string, input: string, output: string)
    | ObserveResult(output: string)

  datatype Turn = Turn(role: Role, part: Part)

  /** The outcome of one generate_content call (with reading `.text`). */
  datatype LlmOutcome = Replied(raw: string) | Failed

  /** The outcome of requests.get: a status with the body text, or an exception. */
  datatype HttpOutcome = Response(status: int, body: string) | Unreachable

  /** Round i of a run: what the completion endpoint answers to the i-th call,
      and how the weather service answers a request for a given URL made while
      that step runs. */
  datatype Round = Round(reply: LlmOutcome, weather: string -> HttpOutcome)

  /** The exceptions that end a loop: the endpoint failed, the reply did not
      decode, the tool name is missing from the registry (KeyError), the
      tool input is null (AttributeError from `None.lower()`), the weather
      request raised. */
  datatype Error = LlmFailure | Malformed | UnknownTool | NoCity | WeatherUnreachable

  /** How a loop ends: an OUTPUT step (with its CONTENT), an exception, or no
      OUTPUT within the replies available (console) or the step budget (web). */
  datatype Ending = Finished(content: Option<string>) | Aborted(error: Error) | Exhausted

  /** What one step does to the history: go on, or stop with an ending. */
  datatype StepResult =
    | Next(history: seq<Turn>)
    | Stop(history: seq<Turn>, ending: Ending)

  /** The observable result of a run of the loop: the final history, how it
      ended, and how many calls to the completion endpoint it made. */
  datatype Run = Run(history: seq<Turn>, ending: Ending, calls: nat)

  /** The tool registry `available_tools`. */
  datatype Tool = GetWeatherTool

  const AvailableTools: map<string, Tool> := map["get_weather" := GetWeatherTool]

  /** The tool a TOOL record names, if the registry has it. */
  function ResolveTool(name: Option<string>): (t: Option<Tool>)
    ensures t.Some? <==> name.Some? && name.value in AvailableTools
    ensures t.Some? ==> name.value == "get_weather"
  {
    if name.Some? && name.value in AvailableTools then Some(AvailableTools[name.value]) else None
  }

  function ModelTurn(raw: string): Turn { Turn(Model, Text(raw)) }

  // ---------------------------------------------------------------------------
  // get_weather's texts (identical in both drivers)

  const UrlPrefix := "https://wttr.in/"
  const UrlSuffix := "?format=%C+%t"
  const SentencePrefix := "The weather in "
  const NoDataText := "Could not retrieve weather data."
  const ConnectionErrorText := "Error connecting to weather service."

  function LowerChar(c: char): char
  {
    if 'A' <= c <= 'Z' then (c as int + 32) as char else c
  }

  /** `str.lower()` on the ASCII letters. */
  function Lower(s: string): (r: string)
    ensures |r| == |s|
    ensures forall i :: 0 <= i < |s| ==> r[i] == LowerChar(s[i])
  {
    if s == [] then [] else [LowerChar(s[0])] + Lower(s[1..])
  }

  lemma {:induction false} LowerIdempotent(s: string)
    ensures Lower(Lower(s)) == Lower(s)
  {
    if s != [] {
      assert Lower(s)[1..] == Lower(s[1..]);
      LowerIdempotent(s[1..]);
    }
  }

  /** The lookup URL: the city lower-cased between fixed text. */
  function WeatherUrl(city: string): (u: string)
    ensures |u| == |UrlPrefix| + |city| + |UrlSuffix|
    ensures u[..|UrlPrefix|] == UrlPrefix && u[|u| - |UrlSuffix|..] == UrlSuffix
    ensures u[|UrlPrefix|..|u| - |UrlSuffix|] == Lower(city)
  {
    UrlPrefix + Lower(city) + UrlSuffix
  }

  /** Two spellings of a city that differ only in letter case are looked up at
      the same URL. */
  lemma SameUrlIgnoringCase(a: string, b: string)
    requires |a| == |b|
    requires forall i :: 0 <= i < |a| ==> LowerChar(a[i]) == LowerChar(b[i])
    ensures WeatherUrl(a) == WeatherUrl(b)
  {
    assert Lower(a) == Lower(b);
  }

  /** The success sentence: the city as given, then the service's text. */
  function WeatherSentence(city: string, body: string): (s: string)
    ensures |s| == |SentencePrefix| + |city| + |" is: "| + |body|
    ensures s[..|SentencePrefix|] == SentencePrefix
    ensures s[|SentencePrefix|..|SentencePrefix| + |city|] == city
    ensures s[|SentencePrefix| + |city|..|s| - |body|] == " is: "
    ensures s[|s| - |body|..] == body
    ensures s != NoDataText && s != ConnectionErrorText
  {
    var s := SentencePrefix + city + " is: " + body;
    assert s[0] == 'T' && NoDataText[0] == 'C' && ConnectionErrorText[0] == 'E';
    s
  }

  // ---------------------------------------------------------------------------
  // the web driver's final answer

  const FallbackAnswer := "I found the weather, but I couldn't summarize it. Please check the steps above."

  /** `final_text = CONTENT; if not final_text: final_text = fallback`. */
  function FinalText(content: Option<string>): (t: string)
    ensures t != ""
    ensures content.Some? && content.value != "" ==> t == content.value
    ensures content.None? || content.value == "" ==> t == FallbackAnswer
  {
    if content.Some? && content.value != "" then content.value else FallbackAnswer
  }
}
