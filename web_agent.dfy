/** The web driver (app.py). The session keeps only the chat messages, user
    queries and final answers. On each submitted query the driver appends the
    query, rebuilds the model's history from the messages, and runs at most
    MaxSteps steps. A step logs the raw reply and acts on its `step` tag. The
    driver appends the final answer to the messages only when an OUTPUT step
    ends the loop. */
module WebAgent {
  import opened Protocol

  const MaxSteps: nat := 5

  // ---------------------------------------------------------------------------
  // get_weather with its catch-all handler

  /** `get_weather(city)` with every exception turned into a text. A null
      input fails at `city.lower()` inside the `try`, before any request. */
  function GetWeather(city: Option<string>, fetch: string -> HttpOutcome): (r: string)
    ensures r == ConnectionErrorText <==> city.None? || fetch(WeatherUrl(city.value)).Unreachable?
    ensures r == NoDataText <==>
      city.Some? && fetch(WeatherUrl(city.value)).Response? && fetch(WeatherUrl(city.value)).status != 200
    ensures city.Some? && fetch(WeatherUrl(city.value)).Response? && fetch(WeatherUrl(city.value)).status == 200 ==>
      r == WeatherSentence(city.value, fetch(WeatherUrl(city.value)).body)
  {
    match city
    case None => ConnectionErrorText
    case Some(c) =>
      match fetch(WeatherUrl(c))
      case Unreachable => ConnectionErrorText
      case Response(status, body) =>
        if status == 200 then WeatherSentence(c, body) else NoDataText
  }

  // ---------------------------------------------------------------------------
  // session messages and the history rebuilt from them

  const UserRole := "user"
  const AssistantRole := "assistant"

  /** An entry of `st.session_state.messages`. */
  datatype Message = Message(role: string, content: string)

  function AsGeminiTurn(m: Message): Turn
  {
    Turn(if m.role == UserRole then User else Model, Text(m.content))
  }

  /** `gemini_history` as the rebuild leaves it. */
  function GeminiHistory(messages: seq<Message>): (h: seq<Turn>)
    ensures |h| == |messages|
    ensures forall i :: 0 <= i < |h| ==>
      (h[i].role == User <==> messages[i].role == UserRole) && h[i].part == Text(messages[i].content)
  {
    seq(|messages|, i requires 0 <= i < |messages| => AsGeminiTurn(messages[i]))
  }

  /** The rebuild loop: one turn per message, in order; "user" stays the
      user's, every other role becomes the model's. */
  method BuildGeminiHistory(messages: seq<Message>) returns (history: seq<Turn>)
    ensures history == GeminiHistory(messages)
    ensures |history| == |messages|
    ensures forall i :: 0 <= i < |history| ==>
      (history[i].role == User <==> messages[i].role == UserRole) &&
      history[i].part == Text(messages[i].content)
  {
    history := [];
    for k := 0 to |messages|
      invariant |history| == k
      invariant forall i :: 0 <= i < k ==> history[i] == AsGeminiTurn(messages[i])
    {
      var role := if messages[k].role == UserRole then User else Model;
      history := history + [Turn(role, Text(messages[k].content))];
    }
  }

  /** What the session ever stores: non-empty user queries and non-empty
      answers. */
  predicate ChatLog(messages: seq<Message>)
  {
    forall m :: m in messages ==> m.content != "" && (m.role == UserRole || m.role == AssistantRole)
  }

  /** On a session's messages the rebuild gives the model exactly the
      assistant's answers as its own turns, and no empty turn. */
  lemma ChatLogHistory(messages: seq<Message>)
    requires ChatLog(messages)
    ensures var h := GeminiHistory(messages);
      forall i :: 0 <= i < |h| ==>
        (h[i].role == Model <==> messages[i].role == AssistantRole) && h[i].part.text != ""
  {
    var h := GeminiHistory(messages);
    forall i | 0 <= i < |h|
      ensures (h[i].role == Model <==> messages[i].role == AssistantRole) && h[i].part.text != ""
    {
      assert messages[i] in messages;
    }
  }

  // ---------------------------------------------------------------------------
  // the bounded step loop

  /** One pass through the body of `for _ in range(5)`. No fence stripping; the
      observation carries only the tool's result. */
  function WebStep(history: seq<Turn>, round: Round, parse: Parser): (r: StepResult)
    ensures history <= r.history && |r.history| <= |history| + 2
    // a failed call or an undecodable reply: abort, nothing logged
    ensures round.reply.Failed? ==> r == Stop(history, Aborted(LlmFailure))
    ensures round.reply.Replied? && parse(round.reply.raw).None? ==> r == Stop(history, Aborted(Malformed))
    // a decoded reply is logged first
    ensures round.reply.Replied? && parse(round.reply.raw).Some? ==>
      |r.history| > |history| && r.history[|history|] == ModelTurn(round.reply.raw)
    // START, PLAN and every unrecognised tag: one entry, go on
    ensures (round.reply.Replied? && parse(round.reply.raw).Some? &&
             parse(round.reply.raw).value.step !in {"TOOL", "OUTPUT"}) ==>
      r.Next? && |r.history| == |history| + 1
    // OUTPUT: one entry, stop with the CONTENT
    ensures (round.reply.Replied? && parse(round.reply.raw).Some? &&
             parse(round.reply.raw).value.step == "OUTPUT") ==>
      r == Stop(history + [ModelTurn(round.reply.raw)], Finished(parse(round.reply.raw).value.content))
    // TOOL: an unknown tool aborts after the one entry; a known one adds the
    // observation of get_weather's text, which never raises
    ensures (round.reply.Replied? && parse(round.reply.raw).Some? &&
             parse(round.reply.raw).value.step == "TOOL") ==>
      var p := parse(round.reply.raw).value;
      (ResolveTool(p.tool).None? ==> r == Stop(history + [ModelTurn(round.reply.raw)], Aborted(UnknownTool))) &&
      (ResolveTool(p.tool).Some? ==>
        r.Next? && |r.history| == |history| + 2 &&
        r.history[|history| + 1] == Turn(User, ObserveResult(GetWeather(p.input, round.weather))))
    ensures r.Stop? && r.ending.Aborted? ==> r.ending.error in {LlmFailure, Malformed, UnknownTool}
    ensures |r.history| == |history| + 2 ==> r.Next? && r.history[|history| + 1].part.ObserveResult?
  {
    match round.reply
    case Failed => Stop(history, Aborted(LlmFailure))
    case Replied(raw) =>
      match parse(raw)
      case None => Stop(history, Aborted(Malformed))
      case Some(p) =>
        var logged := history + [ModelTurn(raw)];
        if p.step == "START" then Next(logged)
        else if p.step == "PLAN" then Next(logged)
        else if p.step == "TOOL" then
          match ResolveTool(p.tool)
          case None => Stop(logged, Aborted(UnknownTool))
          case Some(GetWeatherTool) =>
            Next(logged + [Turn(User, ObserveResult(GetWeather(p.input, round.weather)))])
        else if p.step == "OUTPUT" then Stop(logged, Finished(p.content))
        else Next(logged)
  }

  /** The loop from step i on, with the history it has reached. */
  function WebRunFrom(history: seq<Turn>, rounds: seq<Round>, i: nat, parse: Parser): (r: Run)
    requires i <= MaxSteps <= |rounds|
    ensures history <= r.history && i <= r.calls <= MaxSteps
    decreases MaxSteps - i
  {
    if i == MaxSteps then Run(history, Exhausted, MaxSteps)
    else match WebStep(history, rounds[i], parse)
      case Next(h) => WebRunFrom(h, rounds, i + 1, parse)
      case Stop(h, e) => Run(h, e, i + 1)
  }

  /** At most MaxSteps calls, each adding at most two entries to a history
      that only grows. */
  lemma {:induction false} WebRunBounds(history: seq<Turn>, rounds: seq<Round>, i: nat, parse: Parser)
    requires i <= MaxSteps <= |rounds|
    ensures var run := WebRunFrom(history, rounds, i, parse);
      history <= run.history && i <= run.calls <= MaxSteps &&
      |run.history| <= |history| + 2 * (run.calls - i) &&
      (run.ending.Exhausted? ==> run.calls == MaxSteps)
    decreases MaxSteps - i
  {
    if i < MaxSteps {
      var s := WebStep(history, rounds[i], parse);
      if s.Next? {
        WebRunBounds(s.history, rounds, i + 1, parse);
      }
    }
  }

  /** A run that ends before the budget is spent ends at the step of its last
      call; so an exception ends the loop at once. */
  lemma {:induction false} WebRunStopsAtLastCall(history: seq<Turn>, rounds: seq<Round>, i: nat, parse: Parser)
    returns (before: seq<Turn>)
    requires i <= MaxSteps <= |rounds|
    requires !WebRunFrom(history, rounds, i, parse).ending.Exhausted?
    ensures var run := WebRunFrom(history, rounds, i, parse);
      i < run.calls <= MaxSteps && history <= before &&
      WebStep(before, rounds[run.calls - 1], parse) == Stop(run.history, run.ending)
    decreases MaxSteps - i
  {
    var s := WebStep(history, rounds[i], parse);
    if s.Next? {
      before := WebRunStopsAtLastCall(s.history, rounds, i + 1, parse);
    } else {
      before := history;
    }
  }

  /** A finished run ends with the raw OUTPUT reply of its last call, whose
      CONTENT gives the answer. */
  lemma WebRunFinishes(history: seq<Turn>, rounds: seq<Round>, i: nat, parse: Parser)
    requires i <= MaxSteps <= |rounds|
    requires WebRunFrom(history, rounds, i, parse).ending.Finished?
    ensures var run := WebRunFrom(history, rounds, i, parse);
      i < run.calls <= MaxSteps && |history| < |run.history| &&
      var last := rounds[run.calls - 1].reply;
      last.Replied? && parse(last.raw).Some? &&
      parse(last.raw).value.step == "OUTPUT" &&
      parse(last.raw).value.content == run.ending.content &&
      run.history[|run.history| - 1] == ModelTurn(last.raw)
  {
    var before := WebRunStopsAtLastCall(history, rounds, i, parse);
  }

  /** A model that only plans spends the whole budget: exactly MaxSteps calls,
      one entry each, no answer and no error. */
  lemma {:induction false} WebPlanForever(history: seq<Turn>, rounds: seq<Round>, i: nat, parse: Parser)
    requires i <= MaxSteps <= |rounds|
    requires forall j :: i <= j < MaxSteps ==>
      rounds[j].reply.Replied? && parse(rounds[j].reply.raw).Some? &&
      parse(rounds[j].reply.raw).value.step == "PLAN"
    ensures var run := WebRunFrom(history, rounds, i, parse);
      run.ending == Exhausted && run.calls == MaxSteps &&
      |run.history| == |history| + MaxSteps - i
    decreases MaxSteps - i
  {
    if i < MaxSteps {
      WebPlanForever(history + [ModelTurn(rounds[i].reply.raw)], rounds, i + 1, parse);
    }
  }

  /** The bounded loop over the rebuilt history. */
  method RunAgent(start: seq<Turn>, rounds: seq<Round>, parse: Parser) returns (run: Run)
    requires MaxSteps <= |rounds|
    ensures run == WebRunFrom(start, rounds, 0, parse)
    ensures start <= run.history && run.calls <= MaxSteps
    ensures |run.history| <= |start| + 2 * MaxSteps
  {
    WebRunBounds(start, rounds, 0, parse);
    var history := start;
    for k := 0 to MaxSteps
      invariant WebRunFrom(history, rounds, k, parse) == WebRunFrom(start, rounds, 0, parse)
    {
      var round := rounds[k];
      match round.reply
      case Failed =>
        return Run(history, Aborted(LlmFailure), k + 1);
      case Replied(raw) =>
        var parsed := parse(raw);
        if parsed.None? {
          return Run(history, Aborted(Malformed), k + 1);
        }
        var p := parsed.value;
        history := history + [ModelTurn(raw)];
        if p.step == "START" {
        } else if p.step == "PLAN" {
        } else if p.step == "TOOL" {
          var tool := ResolveTool(p.tool);
          if tool.None? {
            return Run(history, Aborted(UnknownTool), k + 1);
          }
          var result := GetWeather(p.input, round.weather);
          history := history + [Turn(User, ObserveResult(result))];
        } else if p.step == "OUTPUT" {
          return Run(history, Finished(p.content), k + 1);
        }
    }
    run := Run(history, Exhausted, MaxSteps);
  }

  // ---------------------------------------------------------------------------
  // the session

  /** `st.session_state`: only the messages outlive a run of the script. */
  class Session {
    var messages: seq<Message>

    /** Every message is a non-empty user query or a non-empty answer. */
    predicate Valid()
      reads this
    {
      ChatLog(messages)
    }

    /** The first run of the script finds no messages. */
    constructor ()
      ensures Valid() && messages == []
    {
      messages := [];
    }

    /** What one run of the script does with the chat input: nothing when no
        query was submitted (`if user_query := ...` is false for None and ""),
        otherwise record the query, run the bounded loop on the rebuilt
        history, and record the final text if the loop reached OUTPUT. */
    method Submit(input: Option<string>, rounds: seq<Round>, parse: Parser) returns (run: Option<Run>)
      requires Valid()
      requires MaxSteps <= |rounds|
      modifies this
      ensures Valid()
      ensures old(messages) <= messages && |messages| <= |old(messages)| + 2
      ensures input.None? || input.value == "" ==> run == None && messages == old(messages)
      ensures input.Some? && input.value != "" ==>
        var asked := old(messages) + [Message(UserRole, input.value)];
        run == Some(WebRunFrom(GeminiHistory(asked), rounds, 0, parse)) &&
        messages == asked + (if run.value.ending.Finished?
                             then [Message(AssistantRole, FinalText(run.value.ending.content))]
                             else [])
    {
      if input.None? || input.value == "" {
        return None;
      }
      var query := input.value;
      messages := messages + [Message(UserRole, query)];
      var history := BuildGeminiHistory(messages);
      var r := RunAgent(history, rounds, parse);
      if r.ending.Finished? {
        var finalText := FinalText(r.ending.content);
        messages := messages + [Message(AssistantRole, finalText)];
      }
      return Some(r);
    }
  }
}
