/** The console driver (main.py): one query read at start, then an unbounded
    loop that asks the model for a step, strips Markdown fences from the reply,
    decodes it, logs the raw reply and acts on its `step` tag, until an OUTPUT
    step or an exception. The loop runs over the finite sequence of rounds it
    is given; running out of rounds is the ending `Exhausted`. */
module ConsoleAgent {
  import opened Protocol

  const Fence := "```"
  const JsonFence := "```json"

  /** `s.replace(pat, "")`: the occurrences of `pat` found scanning from left to
      right, none overlapping the previous one, are dropped. */
  function RemoveAll(s: string, pat: string): (r: string)
    requires pat != []
    ensures |r| <= |s|
    decreases |s|
  {
    if |s| < |pat| then s
    else if s[..|pat|] == pat then RemoveAll(s[|pat|..], pat)
    else [s[0]] + RemoveAll(s[1..], pat)
  }

  /** `raw.replace("```json", "").replace("```", "")`. */
  function StripFences(raw: string): (clean: string)
    ensures |clean| <= |raw|
  {
    RemoveAll(RemoveAll(raw, JsonFence), Fence)
  }

  predicate FenceAt(t: string, i: nat)
    requires i + 3 <= |t|
  {
    t[i] == '`' && t[i + 1] == '`' && t[i + 2] == '`'
  }

  /** Three backticks in a row somewhere in `t`. */
  predicate HasFence(t: string)
  {
    exists i: nat :: i + 3 <= |t| && FenceAt(t, i)
  }

  lemma {:induction false} RemoveAllWithoutBacktick(s: string, pat: string)
    requires pat != [] && pat[0] == '`'
    requires '`' !in s
    ensures RemoveAll(s, pat) == s
    decreases |s|
  {
    if |pat| <= |s| {
      assert s[..|pat|][0] == s[0] != '`';
      RemoveAllWithoutBacktick(s[1..], pat);
      assert [s[0]] + s[1..] == s;
    }
  }

  /** A reply without a backtick is decoded as it is. */
  lemma StripFencesKeepsPlainText(raw: string)
    requires '`' !in raw
    ensures StripFences(raw) == raw
  {
    RemoveAllWithoutBacktick(raw, JsonFence);
    RemoveAllWithoutBacktick(raw, Fence);
  }

  /** Text before the first backtick is kept as it is. */
  lemma {:induction false} RemoveAllKeepsPlainPrefix(x: string, y: string, pat: string)
    requires pat != [] && pat[0] == '`'
    requires '`' !in x
    ensures RemoveAll(x + y, pat) == x + RemoveAll(y, pat)
    decreases |x|
  {
    if x == [] {
      assert x + y == y;
    } else if |x + y| < |pat| {
      assert RemoveAll(y, pat) == y;
    } else {
      var s := x + y;
      assert s[0] == x[0] && s[0] != '`';
      assert s[..|pat|] != pat by { assert s[..|pat|][0] == s[0]; }
      assert s[1..] == x[1..] + y;
      calc {
        RemoveAll(s, pat);
        [s[0]] + RemoveAll(s[1..], pat);
        { RemoveAllKeepsPlainPrefix(x[1..], y, pat); }
        [x[0]] + (x[1..] + RemoveAll(y, pat));
        { assert [x[0]] + x[1..] == x; }
        x + RemoveAll(y, pat);
      }
    }
  }

  /** An occurrence of the pattern at the front is dropped, and only that. */
  lemma RemoveAllDropsLeadingPattern(pat: string, y: string)
    requires pat != []
    ensures RemoveAll(pat + y, pat) == RemoveAll(y, pat)
  {
    assert (pat + y)[..|pat|] == pat;
    assert (pat + y)[|pat|..] == y;
  }

  /** A reply wrapped in a json fence decodes as the text inside the fence. */
  lemma StripFencesUnwraps(x: string)
    requires '`' !in x
    ensures StripFences(JsonFence + x + Fence) == x
  {
    calc {
      RemoveAll(JsonFence + x + Fence, JsonFence);
      { assert JsonFence + x + Fence == JsonFence + (x + Fence);
        RemoveAllDropsLeadingPattern(JsonFence, x + Fence); }
      RemoveAll(x + Fence, JsonFence);
      { RemoveAllKeepsPlainPrefix(x, Fence, JsonFence); }
      x + RemoveAll(Fence, JsonFence);
      x + Fence;
    }
    calc {
      RemoveAll(x + Fence, Fence);
      { RemoveAllKeepsPlainPrefix(x, Fence, Fence); }
      x + RemoveAll(Fence, Fence);
      { RemoveAllDropsLeadingPattern(Fence, []); assert Fence + [] == Fence; }
      x;
    }
  }

  /** Removing fences keeps a leading character that is not a backtick. */
  lemma RemoveFenceKeepsFirst(u: string)
    requires |u| > 0 && u[0] != '`'
    ensures |RemoveAll(u, Fence)| > 0 && RemoveAll(u, Fence)[0] == u[0]
  {
    if |u| >= 3 {
      assert u[..3][0] != '`';
    }
  }

  lemma {:induction false} RemoveFenceLeavesNoFence(t: string)
    ensures !HasFence(RemoveAll(t, Fence))
    decreases |t|
  {
    if |t| < 3 {
    } else if t[..3] == Fence {
      RemoveFenceLeavesNoFence(t[3..]);
    } else {
      var rest := RemoveAll(t[1..], Fence);
      RemoveFenceLeavesNoFence(t[1..]);
      var r := [t[0]] + rest;
      assert RemoveAll(t, Fence) == r;
      if |r| >= 3 && FenceAt(r, 0) {
        // t starts with one or two backticks only, and the removal keeps the
        // character that follows them
        assert t[1] != '`' || t[2] != '`' by { assert t[..3][0] == t[0]; }
        if t[1] != '`' {
          RemoveFenceKeepsFirst(t[1..]);
        } else {
          var u := t[1..];
          if |u| >= 3 {
            assert u[..3][1] == u[1] != '`';
            assert rest == [u[0]] + RemoveAll(u[1..], Fence);
            RemoveFenceKeepsFirst(u[1..]);
          }
        }
        assert false;
      }
      forall i: nat | i + 3 <= |r|
        ensures !FenceAt(r, i)
      {
        if i > 0 {
          assert FenceAt(r, i) ==> FenceAt(rest, i - 1);
        }
      }
    }
  }

  /** After stripping no triple backtick is left. This covers every "```json"
      too: one the first pass misses is cut by the second. */
  lemma StripFencesLeavesNoFence(raw: string)
    ensures !HasFence(StripFences(raw))
  {
    RemoveFenceLeavesNoFence(RemoveAll(raw, JsonFence));
  }

  lemma {:induction false} RemoveAllWithoutFence(t: string, pat: string)
    requires |pat| >= 3 && pat[..3] == Fence
    requires !HasFence(t)
    ensures RemoveAll(t, pat) == t
    decreases |t|
  {
    if |pat| <= |t| {
      assert t[..|pat|] != pat by {
        if t[..|pat|] == pat {
          assert t[..|pat|][..3] == t[..3];
          assert FenceAt(t, 0);
        }
      }
      assert !HasFence(t[1..]) by {
        forall i: nat | i + 3 <= |t[1..]|
          ensures !FenceAt(t[1..], i)
        {
          assert !FenceAt(t, i + 1);
          assert t[1..][i] == t[i + 1] && t[1..][i + 1] == t[i + 2] && t[1..][i + 2] == t[i + 3];
        }
      }
      RemoveAllWithoutFence(t[1..], pat);
      assert [t[0]] + t[1..] == t;
    }
  }

  /** Stripping twice is stripping once. */
  lemma StripFencesIdempotent(raw: string)
    ensures StripFences(StripFences(raw)) == StripFences(raw)
  {
    var clean := StripFences(raw);
    StripFencesLeavesNoFence(raw);
    RemoveAllWithoutFence(clean, JsonFence);
    RemoveAllWithoutFence(clean, Fence);
  }

  // ---------------------------------------------------------------------------
  // get_weather without exception handling

  /** What a Python call returns: a value, or an exception it lets escape. */
  datatype Outcome = Returned(text: string) | Raised(error: Error)

  /** `get_weather(city)` where the city is the record's `input`, null
      included: `None.lower()` raises, and so does a failed request. */
  function GetWeather(city: Option<string>, fetch: string -> HttpOutcome): (r: Outcome)
    ensures r == Raised(NoCity) <==> city.None?
    ensures r == Raised(WeatherUnreachable) <==> city.Some? && fetch(WeatherUrl(city.value)).Unreachable?
    ensures r == Returned(NoDataText) <==>
      city.Some? && fetch(WeatherUrl(city.value)).Response? && fetch(WeatherUrl(city.value)).status != 200
    ensures city.Some? && fetch(WeatherUrl(city.value)).Response? && fetch(WeatherUrl(city.value)).status == 200 ==>
      r == Returned(WeatherSentence(city.value, fetch(WeatherUrl(city.value)).body))
  {
    match city
    case None => Raised(NoCity)
    case Some(c) =>
      match fetch(WeatherUrl(c))
      case Unreachable => Raised(WeatherUnreachable)
      case Response(status, body) =>
        if status == 200 then Returned(WeatherSentence(c, body)) else Returned(NoDataText)
  }

  // ---------------------------------------------------------------------------
  // the step loop

  /** `message_history` before the loop: the query as the one user entry. */
  function InitialHistory(query: string): (h: seq<Turn>)
    ensures |h| == 1 && h[0].role == User && h[0].part == Text(query)
  {
    [Turn(User, Text(query))]
  }

  /** A reply of the form "```json" + payload + "```". */
  predicate JsonFenced(raw: string)
  {
    |raw| >= |JsonFence| + |Fence| && raw[..|JsonFence|] == JsonFence && raw[|raw| - |Fence|..] == Fence
  }

  function FencedPayload(raw: string): string
    requires JsonFenced(raw)
  {
    raw[|JsonFence|..|raw| - |Fence|]
  }

  /** Stripped-and-decoded record of a reply, when the reply decodes. A
      plain reply is decoded as it is; a reply wrapped in a json fence is
      decoded as the text inside the fence. */
  function Decode(raw: string, parse: Parser): (d: Option<StepRecord>)
    ensures '`' !in raw ==> d == parse(raw)
    ensures JsonFenced(raw) && '`' !in FencedPayload(raw) ==> d == parse(FencedPayload(raw))
  {
    var cleaned := StripFences(raw);
    assert '`' !in raw ==> cleaned == raw by {
      if '`' !in raw { StripFencesKeepsPlainText(raw); }
    }
    assert JsonFenced(raw) && '`' !in FencedPayload(raw) ==> cleaned == FencedPayload(raw) by {
      if JsonFenced(raw) && '`' !in FencedPayload(raw) {
        var x := FencedPayload(raw);
        assert raw == JsonFence + x + Fence;
        StripFencesUnwraps(x);
      }
    }
    parse(cleaned)
  }

  /** One pass through the body of `while True`. */
  function ConsoleStep(history: seq<Turn>, round: Round, parse: Parser): (r: StepResult)
    ensures history <= r.history && |r.history| <= |history| + 2
    // a failed call or an undecodable reply: abort, nothing logged
    ensures round.reply.Failed? ==> r == Stop(history, Aborted(LlmFailure))
    ensures round.reply.Replied? && Decode(round.reply.raw, parse).None? ==>
      r == Stop(history, Aborted(Malformed))
    // a decoded reply: its raw text, fences included, is logged first
    ensures round.reply.Replied? && Decode(round.reply.raw, parse).Some? ==>
      |r.history| > |history| && r.history[|history|] == ModelTurn(round.reply.raw)
    // START, PLAN and every unrecognised tag: one entry, go on
    ensures (round.reply.Replied? && Decode(round.reply.raw, parse).Some? &&
             Decode(round.reply.raw, parse).value.step !in {"TOOL", "OUTPUT"}) ==>
      r.Next? && |r.history| == |history| + 1
    // OUTPUT: one entry, stop with the CONTENT
    ensures (round.reply.Replied? && Decode(round.reply.raw, parse).Some? &&
             Decode(round.reply.raw, parse).value.step == "OUTPUT") ==>
      r == Stop(history + [ModelTurn(round.reply.raw)], Finished(Decode(round.reply.raw, parse).value.content))
    // TOOL: two entries exactly when the tool is registered and returns;
    // the second is the observation of that call
    ensures (round.reply.Replied? && Decode(round.reply.raw, parse).Some? &&
             Decode(round.reply.raw, parse).value.step == "TOOL") ==>
      var p := Decode(round.reply.raw, parse).value;
      (ResolveTool(p.tool).None? ==> r == Stop(history + [ModelTurn(round.reply.raw)], Aborted(UnknownTool))) &&
      (ResolveTool(p.tool).Some? && GetWeather(p.input, round.weather).Raised? ==>
        r == Stop(history + [ModelTurn(round.reply.raw)], Aborted(GetWeather(p.input, round.weather).error))) &&
      (ResolveTool(p.tool).Some? && GetWeather(p.input, round.weather).Returned? ==>
        r.Next? && |r.history| == |history| + 2 &&
        r.history[|history| + 1] ==
          Turn(User, ObserveCall(p.tool.value, p.input.value, GetWeather(p.input, round.weather).text)))
    ensures |r.history| == |history| + 2 ==> r.Next? && r.history[|history| + 1].part.ObserveCall?
  {
    match round.reply
    case Failed => Stop(history, Aborted(LlmFailure))
    case Replied(raw) =>
      match Decode(raw, parse)
      case None => Stop(history, Aborted(Malformed))
      case Some(p) =>
        var logged := history + [ModelTurn(raw)];
        if p.step == "START" then Next(logged)
        else if p.step == "PLAN" then Next(logged)
        else if p.step == "TOOL" then
          match ResolveTool(p.tool)
          case None => Stop(logged, Aborted(UnknownTool))
          case Some(GetWeatherTool) =>
            match GetWeather(p.input, round.weather)
            case Raised(e) => Stop(logged, Aborted(e))
            case Returned(out) => Next(logged + [Turn(User, ObserveCall(p.tool.value, p.input.value, out))])
        else if p.step == "OUTPUT" then Stop(logged, Finished(p.content))
        else Next(logged)
  }

  /** The loop from round i on, with the history it has reached. */
  function ConsoleRunFrom(history: seq<Turn>, rounds: seq<Round>, i: nat, parse: Parser): (r: Run)
    requires i <= |rounds|
    ensures history <= r.history && i <= r.calls <= |rounds|
    decreases |rounds| - i
  {
    if i == |rounds| then Run(history, Exhausted, i)
    else match ConsoleStep(history, rounds[i], parse)
      case Next(h) => ConsoleRunFrom(h, rounds, i + 1, parse)
      case Stop(h, e) => Run(h, e, i + 1)
  }

  /** The history only grows, and by at most two entries per call. */
  lemma {:induction false} ConsoleRunAppendOnly(history: seq<Turn>, rounds: seq<Round>, i: nat, parse: Parser)
    requires i <= |rounds|
    ensures var run := ConsoleRunFrom(history, rounds, i, parse);
      history <= run.history && i <= run.calls <= |rounds| &&
      |run.history| <= |history| + 2 * (run.calls - i) &&
      (run.ending.Exhausted? ==> run.calls == |rounds|)
    decreases |rounds| - i
  {
    if i < |rounds| {
      var s := ConsoleStep(history, rounds[i], parse);
      if s.Next? {
        ConsoleRunAppendOnly(s.history, rounds, i + 1, parse);
      }
    }
  }

  /** A run that ends other than by running out of rounds ends at the step of
      its last call; so an exception ends the loop at once. */
  lemma {:induction false} ConsoleRunStopsAtLastCall(history: seq<Turn>, rounds: seq<Round>, i: nat, parse: Parser)
    returns (before: seq<Turn>)
    requires i <= |rounds|
    requires !ConsoleRunFrom(history, rounds, i, parse).ending.Exhausted?
    ensures var run := ConsoleRunFrom(history, rounds, i, parse);
      i < run.calls <= |rounds| && history <= before &&
      ConsoleStep(before, rounds[run.calls - 1], parse) == Stop(run.history, run.ending)
    decreases |rounds| - i
  {
    var s := ConsoleStep(history, rounds[i], parse);
    if s.Next? {
      before := ConsoleRunStopsAtLastCall(s.history, rounds, i + 1, parse);
    } else {
      before := history;
    }
  }

  /** A finished run ends with the raw OUTPUT reply of its last call, whose
      CONTENT is the answer. */
  lemma ConsoleRunFinishes(history: seq<Turn>, rounds: seq<Round>, i: nat, parse: Parser)
    requires i <= |rounds|
    requires ConsoleRunFrom(history, rounds, i, parse).ending.Finished?
    ensures var run := ConsoleRunFrom(history, rounds, i, parse);
      i < run.calls <= |rounds| && |history| < |run.history| &&
      var last := rounds[run.calls - 1].reply;
      last.Replied? && Decode(last.raw, parse).Some? &&
      Decode(last.raw, parse).value.step == "OUTPUT" &&
      Decode(last.raw, parse).value.content == run.ending.content &&
      run.history[|run.history| - 1] == ModelTurn(last.raw)
  {
    var before := ConsoleRunStopsAtLastCall(history, rounds, i, parse);
  }

  /** A model that only plans never ends the loop: every round is used and
      each adds its one reply to the history. */
  lemma {:induction false} ConsolePlanForever(history: seq<Turn>, rounds: seq<Round>, i: nat, parse: Parser)
    requires i <= |rounds|
    requires forall j :: i <= j < |rounds| ==>
      rounds[j].reply.Replied? && Decode(rounds[j].reply.raw, parse).Some? &&
      Decode(rounds[j].reply.raw, parse).value.step == "PLAN"
    ensures var run := ConsoleRunFrom(history, rounds, i, parse);
      run.ending == Exhausted && run.calls == |rounds| &&
      |run.history| == |history| + |rounds| - i
    decreases |rounds| - i
  {
    if i < |rounds| {
      ConsolePlanForever(history + [ModelTurn(rounds[i].reply.raw)], rounds, i + 1, parse);
    }
  }

  /** The script: read the query, then `while True`. */
  method RunConsole(query: string, rounds: seq<Round>, parse: Parser) returns (run: Run)
    ensures run == ConsoleRunFrom(InitialHistory(query), rounds, 0, parse)
    ensures |run.history| >= 1 && run.history[0] == Turn(User, Text(query))
    ensures run.calls <= |rounds| && |run.history| <= 1 + 2 * run.calls
  {
    ConsoleRunAppendOnly(InitialHistory(query), rounds, 0, parse);
    var history := InitialHistory(query);
    var i := 0;
    while i < |rounds|
      invariant i <= |rounds|
      invariant ConsoleRunFrom(history, rounds, i, parse) == ConsoleRunFrom(InitialHistory(query), rounds, 0, parse)
      decreases |rounds| - i
    {
      var round := rounds[i];
      match round.reply
      case Failed =>
        return Run(history, Aborted(LlmFailure), i + 1);
      case Replied(raw) =>
        var clean := StripFences(raw);
        var parsed := parse(clean);
        if parsed.None? {
          return Run(history, Aborted(Malformed), i + 1);
        }
        var p := parsed.value;
        history := history + [ModelTurn(raw)];
        if p.step == "START" {
          i := i + 1;
          continue;
        }
        if p.step == "PLAN" {
          i := i + 1;
          continue;
        }
        if p.step == "TOOL" {
          var tool := ResolveTool(p.tool);
          if tool.None? {
            return Run(history, Aborted(UnknownTool), i + 1);
          }
          var response := GetWeather(p.input, round.weather);
          if response.Raised? {
            return Run(history, Aborted(response.error), i + 1);
          }
          history := history + [Turn(User, ObserveCall(p.tool.value, p.input.value, response.text))];
          i := i + 1;
          continue;
        }
        if p.step == "OUTPUT" {
          return Run(history, Finished(p.content), i + 1);
        }
        i := i + 1;
    }
    run := Run(history, Exhausted, i);
  }
}
