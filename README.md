# Weather agent step loop in Dafny

The repository is a small weather agent. A language model is asked, again and
again, for the next step of a fixed workflow: START, PLAN, TOOL or OUTPUT. Each
reply is a JSON record with a `step` tag and optional `CONTENT`, `tool` and
`input` fields. A TOOL step calls the only registered tool, `get_weather`. The
program sends the tool's result back to the model as an OBSERVE message. An
OUTPUT step ends the loop. There are two drivers with the same step logic:

- `main.py`, a console script. It reads one query and then loops with no bound.
  Before decoding a reply it strips Markdown code fences from it.
- `app.py`, a Streamlit page. On every submitted query it rebuilds the model's
  history from the chat messages and runs at most five steps. It records the
  final answer in the chat, with a fixed fallback text when the answer is empty.

This project models both drivers as Dafny programs and proves what each step adds
to the history, how the loops end, and what `get_weather` returns.

- `protocol.dfy` (module `Protocol`) holds what both drivers share: the reply
  record, history turns, the oracle of rounds, the tool registry, the URL and
  sentence texts of `get_weather`, and the final-answer fallback.
- `console_agent.dfy` (module `ConsoleAgent`) models `main.py`. Fence stripping
  is a function with its lemmas. `get_weather` lets exceptions escape. The step
  is a function `ConsoleStep`, the whole loop is a function `ConsoleRunFrom`, and
  the script is a method `RunConsole` whose `while` loop is proved equal to
  `ConsoleRunFrom`.
- `web_agent.dfy` (module `WebAgent`) models `app.py`. It has a `get_weather`
  that never raises, and a loop method that rebuilds the history. The step
  function `WebStep` and the bounded run `WebRunFrom` are the specification of
  the method `RunAgent`, whose `for` loop runs `MaxSteps` = 5 times. The class
  `Session` holds the persistent `messages` list, and `Submit` is one run of the
  script for one chat input.

The world outside the program is an input. A run takes `rounds: seq<Round>`. In
round `i`, `reply` is what the completion endpoint returns to the i-th call:
either the raw text or a failure. `weather` maps a URL to the response the weather
service gives during that step: a status and body, or a transport failure. Decoding a
reply (`json.loads` plus `model_validate`) is a parameter
`parse: string -> Option<StepRecord>`. It returns `None` where the Python code
would raise. The observation `json.dumps` builds is kept as a structured history
part: `ObserveCall(tool, input, output)` for the console, `ObserveResult(output)`
for the web page. Exceptions are the `Error` values that end a loop.

The model follows the code in these places:

- A `step` that is none of the four tags is not rejected. The raw reply is
  logged and the loop goes on.
- `app.py` does not strip fences. Its observation carries only `step` and
  `OUTPUT`.
- `main.py`'s `get_weather` has no exception handler. A failed request
  therefore aborts the console loop. It is not turned into a text.
- In `app.py`, a TOOL step with a null `input` reaches `None.lower()` inside
  `get_weather`'s `try`. The call then returns "Error connecting to weather
  service." without making a request. In `main.py` the same error ends the loop.
- When the web loop spends its five steps without OUTPUT, it ends silently: no
  answer and no error message.

## Model

| member | source | states |
|---|---|---|
| Protocol.ResolveTool | app.py:94 | a tool name resolves exactly when it is present and a key of the registry, which has the single key "get_weather" |
| Protocol.Lower | app.py:17 | lower-casing keeps the length and lower-cases every character in place |
| Protocol.LowerIdempotent | main.py:13 | lower-casing an already lower-cased city changes nothing |
| Protocol.WeatherUrl | app.py:17 | the lookup URL is the fixed prefix, the lower-cased city, then the fixed format suffix |
| Protocol.SameUrlIgnoringCase | main.py:13 | two cities that differ only in letter case are looked up at the same URL |
| Protocol.WeatherSentence | app.py:20 | the success text is "The weather in ", then the city exactly as given, then " is: ", then the service's body; it differs from both failure texts |
| Protocol.FinalText | app.py:103-105 | the final answer is never empty: it is CONTENT when that is non-empty, and the fixed fallback text when CONTENT is null or empty |
| ConsoleAgent.RemoveAll | main.py:65 | removing a pattern never makes the text longer (what is kept is stated by the lemmas below) |
| ConsoleAgent.RemoveAllKeepsPlainPrefix | main.py:65 | text before the first backtick is kept unchanged, in front of the rest with its fences removed |
| ConsoleAgent.RemoveAllDropsLeadingPattern | main.py:65 | an occurrence of the pattern at the front is removed, and the rest is handled as if it were not there |
| ConsoleAgent.StripFences | main.py:65 | the cleaned reply is never longer than the raw reply |
| ConsoleAgent.StripFencesUnwraps | main.py:65 | a reply "```json" + payload + "```" with no backtick in the payload is cleaned to exactly the payload |
| ConsoleAgent.Decode | main.py:65-67 | a reply with no backtick is decoded as it is; a reply wrapped in a json fence is decoded as the payload inside the fence |
| ConsoleAgent.StripFencesKeepsPlainText | main.py:65 | a reply that contains no backtick is decoded unchanged |
| ConsoleAgent.RemoveFenceLeavesNoFence | main.py:65 | after every triple backtick is removed, no three backticks in a row are left, even where a removal brings backticks together |
| ConsoleAgent.StripFencesLeavesNoFence | main.py:65 | the cleaned reply contains no triple backtick, so no json fence either |
| ConsoleAgent.StripFencesIdempotent | main.py:65 | stripping the cleaned reply again changes nothing |
| ConsoleAgent.InitialHistory | main.py:51-54 | before the loop the history holds one entry: the query, in the user's role |
| ConsoleAgent.GetWeather | main.py:12-18 | a null city raises, and a failed request raises; status 200 gives the weather sentence; any other status gives exactly "Could not retrieve weather data." (each in both directions) |
| ConsoleAgent.ConsoleStep | main.py:58-104 | one iteration: an endpoint failure or an undecodable reply aborts and logs nothing; a decoded reply logs its raw text, not the stripped text; START, PLAN and unknown tags add one entry and continue; OUTPUT adds one entry and stops with its CONTENT; TOOL with an unknown tool aborts after one entry; a raising get_weather aborts after one entry; a returning one adds a user-role observation with the same tool, input and output; the history only grows, by at most two entries |
| ConsoleAgent.ConsoleRunFrom | main.py:57-104 | the loop from a given round on keeps the history it started with as a prefix and makes one call per round at most; the lemmas below state how it grows and ends |
| ConsoleAgent.ConsoleRunAppendOnly | main.py:57-104 | across the whole loop the starting history is a prefix of the final one, the loop makes at most one call per round, and each call adds at most two entries; running out of rounds means every round was used |
| ConsoleAgent.ConsoleRunStopsAtLastCall | main.py:102-104 | a loop that stops, by OUTPUT or by an exception, stops in the step of its last model call, with a history that extends the start |
| ConsoleAgent.ConsoleRunFinishes | main.py:98-100 | a finished loop's last call returned an OUTPUT record whose CONTENT is the answer, and the last history entry is that reply's raw text |
| ConsoleAgent.ConsolePlanForever | main.py:75-77 | a model that only answers PLAN never ends the loop: every round is used and each adds exactly one entry |
| ConsoleAgent.RunConsole | main.py:51-104 | the script's while loop computes exactly the loop of ConsoleStep; its history starts with the one user entry holding the query; it makes at most one call per round, and the history is at most 1 + 2 * calls |
| WebAgent.GetWeather | app.py:15-23 | never raises; status 200 gives the weather sentence; any other status gives exactly "Could not retrieve weather data."; a failed request or a null city gives exactly "Error connecting to weather service." (each in both directions) |
| WebAgent.GeminiHistory | app.py:64-67 | the rebuilt history has one turn per message holding its content; a turn is the user's exactly when the role is "user" |
| WebAgent.ChatLogHistory | app.py:62-67 | on what a session stores (non-empty user queries and answers), a rebuilt turn is the model's exactly when its message is the assistant's, and no turn is empty |
| WebAgent.BuildGeminiHistory | app.py:64-67 | the rebuilt history has one turn per session message, in order, with the message's content; a turn is the user's exactly when the message's role is "user", and the model's for every other role |
| WebAgent.WebStep | app.py:75-112 | one iteration: an endpoint failure or an undecodable reply aborts and logs nothing; START, PLAN and unknown tags add the raw reply and continue; OUTPUT adds one entry and stops with its CONTENT; TOOL with an unregistered or null tool aborts with the model turn logged and no observation; a registered tool adds a user-role observation of get_weather's text; only those three errors can occur; the history only grows, by at most two entries |
| WebAgent.WebRunFrom | app.py:74-112 | the loop from step i on keeps its starting history as a prefix and makes between i and five calls; the lemmas below state how it grows and ends |
| WebAgent.WebRunBounds | app.py:74 | the loop makes at most five model calls, the starting history is a prefix of the final one, and the history grows by at most two entries per call, so by at most ten; a spent budget means exactly five calls |
| WebAgent.WebRunStopsAtLastCall | app.py:110-112 | a loop that stops before the budget is spent stops in the step of its last call, so an exception allows no further model call |
| WebAgent.WebRunFinishes | app.py:101-108 | a finished loop's last call returned an OUTPUT record whose CONTENT is the answer, and the last history entry is that raw reply |
| WebAgent.WebPlanForever | app.py:74-90 | a model that always answers PLAN gets exactly five calls, each adding one entry, and the loop ends with neither an answer nor an error |
| WebAgent.RunAgent | app.py:74-112 | the for loop computes exactly the bounded loop of WebStep; the start history is a prefix of the result, with at most five calls and at most ten new entries |
| WebAgent.Session.constructor | app.py:50-51 | a new session has no messages |
| WebAgent.Session.Submit | app.py:59-112 | no query (null or empty input) changes nothing; otherwise the messages gain the user query, and then the final text as an assistant message exactly when the loop ended with OUTPUT; the loop runs on the history rebuilt from the messages, query included; every message stays a non-empty user or assistant message |

## Left out

- The Gemini client (`genai.configure`, `GenerativeModel`, `generate_content`) and the system prompt text are not modelled. The client is the oracle `Round.reply`, one outcome per call.
- `requests.get` and the network are the per-step function `Round.weather` from URL to response. At most one request is made per step.
- JSON decoding and pydantic validation are the parameter `parse`. `json.dumps` of the observation is kept as a structured history part, so the round trip of an observation through JSON is not stated.
- The Streamlit page (title, rendering of stored messages at app.py:53-57, status box, `st.error`) and console `input` and `print` are not modelled. These are presentation only. A failure inside them is not modelled either.
- Loading the API key from the environment or from Streamlit secrets is not modelled (app.py:10-13, main.py:9-10).
- ConsoleAgent.RunConsole: the unbounded `while True` runs over the finite sequence of rounds it is given. When the rounds run out it ends with `Exhausted`, where the script would call the model again. Termination of the real loop is not claimed.
- WebAgent.RunAgent: requires at least five rounds. This is a demand on the oracle, so that every one of the five iterations has a reply. It is not a demand of the source.
- WebAgent.Session.Submit: requires at least five rounds for the same reason as RunAgent.
- Protocol.Lower: Python's `str.lower` follows Unicode case mapping. The model lower-cases the ASCII letters A-Z only.
- A Streamlit rerun, a session reset and concurrent sessions are not modelled. A `Session` object is one browser session.
