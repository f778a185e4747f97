// backend/litellmapi.py: the model allow-list and its per-model limitations,
// request validation and argument building, the completion retry loop inside
// _run, the retry(n) decorator that `run` adds around _run, the assembly of
// the result dict, and extract_json_from_markdown.
module LiteLlm {
  import opened Wrappers
  import opened Json
  import PyStr

  const Models: seq<string> := [
    "openai/gpt-4o", "openai/gpt-4o-mini", "openai/gpt-4.1", "openai/gpt-4.1-mini",
    "openai/gpt-4.5-preview", "openai/o1-mini", "openai/o3-mini",
    "anthropic/claude-3-7-sonnet-20250219",
    "deepseek/deepseek-reasoner", "deepseek/deepseek-chat",
    "gemini/gemma-3-27b-it", "gemini/gemini-2.0-flash", "gemini/gemini-2.0-pro-exp-02-05",
    "together_ai/meta-llama/Llama-3.3-70B-Instruct-Turbo-Free",
    "together_ai/meta-llama/Llama-3.3-70B-Instruct-Turbo",
    "together_ai/Qwen/Qwen2.5-72B-Instruct-Turbo",
    "together_ai/Qwen/Qwen2.5-7B-Instruct-Turbo",
    "openrouter/openrouter/quasar-alpha", "openrouter/google/gemini-2.0-flash-001",
    "gabber/GabberNSFWwCompliance"
  ]

  const AllLimits: seq<string> := ["json_mode", "json_schema", "function_calling", "multi_function_calling"]

  /** MODELS_LIMITATIONS */
  const Limitations: map<string, seq<string>> := map[
    "openai/o1-mini" := AllLimits,
    "gemini/gemma-3-27b-it" := AllLimits,
    "deepseek/deepseek-reasoner" := AllLimits,
    "deepseek/deepseek-chat" := ["json_schema"],
    "together_ai/meta-llama/Llama-3.3-70B-Instruct-Turbo-Free" := ["json_schema"],
    "together_ai/meta-llama/Llama-3.3-70B-Instruct-Turbo" := ["json_schema"],
    "together_ai/Qwen/Qwen2.5-72B-Instruct-Turbo" := AllLimits,
    "together_ai/Qwen/Qwen2.5-7B-Instruct-Turbo" := AllLimits
  ]

  /** gpt-4.1 is let through the schema and function-calling capability checks. */
  const Exempt := "openai/gpt-4.1"

  predicate Limited(model: string, feature: string)
  {
    model in Limitations && feature in Limitations[model]
  }

  datatype ChatMessage = ChatMessage(role: string, content: string)

  /** What json_schema was given: a pydantic model class, or some other value. */
  datatype SchemaArg = PydanticClass(name: string) | OtherValue

  /** The arguments of _run (tools are passed through as JSON schemas). */
  datatype LiteCall = LiteCall(
    model: string,
    messages: seq<ChatMessage>,
    jsonMode: bool,
    schema: Option<SchemaArg>,
    tools: Option<seq<Json>>,
    maxTokens: int,
    temperature: Option<real>,
    topP: Option<real>,
    nRetries: Option<int>)

  datatype ResponseFormat = JsonObject | SchemaFormat(cls: SchemaArg)

  /** The keyword arguments given to litellm.completion. */
  datatype CompletionArgs = CompletionArgs(
    model: string,
    messages: seq<ChatMessage>,
    maxTokens: int,
    temperature: Option<real>,
    topP: Option<real>,
    responseFormat: Option<ResponseFormat>,
    tools: Option<seq<Json>>,
    toolChoice: Option<string>)

  /** A completion's first message: its content (None when absent) and its tool calls (name, arguments). */
  datatype Completion = Completion(content: Option<string>, toolCalls: seq<(string, string)>)

  /** The capability oracles, the services and the JSON parser. */
  datatype LiteWorld = LiteWorld(
    paramsHaveResponseFormat: string -> bool,   // "response_format" in get_supported_openai_params
    supportsSchema: string -> bool,             // supports_response_schema
    supportsTools: string -> bool,              // supports_function_calling
    complete: nat -> Result<Completion>,        // the i-th service call of this run
    gabber: nat -> Result<Json>,                // the i-th call when it goes to the gabber API
    loads: string -> Result<Json>)              // json.loads

  datatype Route = ToGabber | ToLitellm(args: CompletionArgs)

  predicate HasJsonSystemMessage(messages: seq<ChatMessage>)
  {
    exists i :: 0 <= i < |messages| && messages[i].role == "system" && PyStr.Contains(messages[i].content, "JSON")
  }

  /** Everything _run checks before it calls a service, in the source's order. */
  function Prepare(c: LiteCall, lw: LiteWorld): Result<Route>
  {
    if c.model !in Models then Err(ValueError("Model " + c.model + " is not in the supported MODELS list"))
    else if c.jsonMode && Limited(c.model, "json_mode") then Err(ValueError("Model " + c.model + " does not support JSON mode"))
    else if c.schema.Some? && Limited(c.model, "json_schema") then Err(ValueError("Model " + c.model + " does not support JSON schema"))
    else if c.tools.Some? && Limited(c.model, "function_calling") then Err(ValueError("Model " + c.model + " does not support function calling"))
    else if PyStr.StartsWith(c.model, "gabber/") then Ok(ToGabber)
    else if c.jsonMode && c.schema.Some? then Err(ValueError("Cannot use both json_mode and json_schema at the same time"))
    else if c.jsonMode && !lw.paramsHaveResponseFormat(c.model) then Err(ValueError("Model " + c.model + " does not support JSON mode"))
    else if c.jsonMode && !HasJsonSystemMessage(c.messages) then Err(ValueError("JSON mode requires a system message containing 'JSON'"))
    else if !c.jsonMode && c.schema.Some? && !lw.supportsSchema(c.model) && c.model != Exempt then
      Err(ValueError("Model " + c.model + " does not support JSON schema"))
    else if !c.jsonMode && c.schema.Some? && !c.schema.value.PydanticClass? then
      Err(ValueError("json_schema must be a Pydantic BaseModel class"))
    else if c.tools.Some? && !lw.supportsTools(c.model) && c.model != Exempt then
      Err(ValueError("Model " + c.model + " does not support function calling"))
    else Ok(ToLitellm(CompletionArgs(
      c.model, c.messages, c.maxTokens, c.temperature, c.topP,
      if c.jsonMode then Some(JsonObject) else if c.schema.Some? then Some(SchemaFormat(c.schema.value)) else None,
      c.tools,
      if c.tools.Some? then Some("auto") else None)))
  }

  /** A forwarded request carries exactly the options asked for. */
  lemma PreparedArgs(c: LiteCall, lw: LiteWorld)
    requires Prepare(c, lw).Ok? && Prepare(c, lw).value.ToLitellm?
    ensures var a := Prepare(c, lw).value.args;
      a.model == c.model && a.messages == c.messages && a.maxTokens == c.maxTokens
      && (a.responseFormat == Some(JsonObject) <==> c.jsonMode)
      && (a.responseFormat.Some? <==> c.jsonMode || c.schema.Some?)
      && (a.tools == c.tools) && (a.toolChoice == Some("auto") <==> c.tools.Some?)
      && !(c.jsonMode && c.schema.Some?)
      && (c.jsonMode ==> HasJsonSystemMessage(c.messages))
      && (c.schema.Some? ==> c.schema.value.PydanticClass?)
  {
  }

  /** The listed limitations refuse a request before any other check. */
  lemma LimitationsRefuse(c: LiteCall, lw: LiteWorld)
    requires c.model in Models
    requires (c.jsonMode && Limited(c.model, "json_mode")) || (c.schema.Some? && Limited(c.model, "json_schema"))
             || (c.tools.Some? && Limited(c.model, "function_calling"))
    ensures Prepare(c, lw).Err? && Prepare(c, lw).error.ValueError?
    ensures Prepare(c, lw).error.msg[..|"Model " + c.model|] == "Model " + c.model
  {
  }

  /** deepseek-chat and the two Llama models refuse schemas but not JSON mode or tools. */
  lemma SchemaOnlyLimits()
    ensures Limited("deepseek/deepseek-chat", "json_schema") && !Limited("deepseek/deepseek-chat", "json_mode")
    ensures !Limited("together_ai/meta-llama/Llama-3.3-70B-Instruct-Turbo", "function_calling")
    ensures !Limited("openai/gpt-4.1", "json_schema") && !Limited("openai/gpt-4.1", "function_calling")
  {
  }

  // ------------------------------------------------ extract_json_from_markdown

  /**
   * The regex ```(?:json)?\n([\s\S]*?)``` tried at position i: the opening fence,
   * an optional "json", a newline, then the shortest text up to the next fence.
   */
  function MatchAt(text: string, i: nat): (g: Option<string>)
    ensures g.Some? ==> PyStr.OccursAt(text, "```", i)
  {
    if !PyStr.OccursAt(text, "```", i) then None
    else
      var start := if PyStr.OccursAt(text, "json\n", i + 3) then i + 8
                   else if PyStr.OccursAt(text, "\n", i + 3) then i + 4
                   else -1;
      if start < 0 then None
      else match PyStr.FindFrom(text, "```", start)
        case None => None
        case Some(j) => Some(text[start..j])
  }

  /** re.search: the match at the leftmost position where one exists. */
  function SearchFrom(text: string, i: nat): (g: Option<(nat, string)>)
    decreases |text| - i
    ensures g.Some? ==> i <= g.value.0 && MatchAt(text, g.value.0) == Some(g.value.1)
    ensures g.Some? ==> forall k :: i <= k < g.value.0 ==> MatchAt(text, k).None?
    ensures g.None? ==> forall k :: i <= k ==> MatchAt(text, k).None?
  {
    if i > |text| then
      assert forall k :: i <= k ==> !PyStr.OccursAt(text, "```", k);
      None
    else if MatchAt(text, i).Some? then Some((i, MatchAt(text, i).value))
    else SearchFrom(text, i + 1)
  }

  /** extract_json_from_markdown: parse the first fenced block, or the whole text. */
  function ExtractJson(text: string, loads: string -> Result<Json>): Result<Json>
  {
    match SearchFrom(text, 0)
    case Some((_, g)) => loads(g)
    case None => loads(text)
  }

  predicate NoBacktick(s: string)
  {
    forall k :: 0 <= k < |s| ==> s[k] != '`'
  }

  /** A reply that is one ```json fenced block is parsed from inside the fence. */
  lemma ExtractFenced(body: string, rest: string, loads: string -> Result<Json>)
    requires NoBacktick(body)
    ensures ExtractJson("```json\n" + body + "```" + rest, loads) == loads(body)
  {
    var open := "```json\n";
    var text := open + body + "```" + rest;
    assert text[..8] == open;
    assert text[..3] == open[..3] == "```";
    assert text[3..8] == open[3..8] == "json\n";
    assert PyStr.OccursAt(text, "```", 0);
    assert PyStr.OccursAt(text, "json\n", 3);
    var close := 8 + |body|;
    assert text[close..close + 3] == "```";
    forall j | 8 <= j < close ensures !PyStr.OccursAt(text, "```", j) {
      assert text[j] == body[j - 8];
    }
    PyStr.FindFromIs(text, "```", 8, close);
    assert text[8..close] == body;
    assert MatchAt(text, 0) == Some(body);
  }

  /** A text without any fence is parsed as a whole. */
  lemma ExtractUnfenced(text: string, loads: string -> Result<Json>)
    requires !PyStr.Contains(text, "```")
    ensures ExtractJson(text, loads) == loads(text)
  {
    PyStr.ContainsIff(text, "```");
    assert SearchFrom(text, 0).Some? ==> PyStr.OccursAt(text, "```", SearchFrom(text, 0).value.0);
  }

  // ------------------------------------------------------ result assembly

  predicate ContentTruthy(r: Completion)
  {
    r.content.Some? && r.content.value != ""
  }

  /** The value stored for one tool call: parsed arguments, or the fenced block inside them. */
  function ParseArguments(a: string, loads: string -> Result<Json>): Result<Json>
  {
    if loads(a).Ok? then loads(a) else ExtractJson(a, loads)
  }

  /** `ParseArguments` as a function of the arguments text. */
  function Parser(loads: string -> Result<Json>): string -> Result<Json>
  {
    a => ParseArguments(a, loads)
  }

  /** function_data: one entry per distinct tool name, holding the last call's arguments as `parse` reads them. */
  function CollectTools(calls: seq<(string, string)>, parse: string -> Result<Json>, acc: seq<(string, Json)>)
    : Result<seq<(string, Json)>>
    decreases |calls|
  {
    if calls == [] then Ok(acc)
    else
      var v :- parse(calls[0].1);
      CollectTools(calls[1..], parse, Assign(acc, calls[0].0, v))
  }

  /** The index of the last call of tool `name`. */
  function LastCall(calls: seq<(string, string)>, name: string): (r: Option<nat>)
    ensures r.Some? ==> r.value < |calls| && calls[r.value].0 == name
    ensures r.Some? ==> forall j :: r.value < j < |calls| ==> calls[j].0 != name
    ensures r.None? ==> forall j :: 0 <= j < |calls| ==> calls[j].0 != name
  {
    if calls == [] then None
    else match LastCall(calls[1..], name)
      case Some(j) => Some(j + 1)
      case None => if calls[0].0 == name then Some(0) else None
  }

  /** A later call of the same tool overwrites an earlier one; other names keep their values. */
  lemma {:induction false} CollectToolsLastWins(calls: seq<(string, string)>, parse: string -> Result<Json>,
                                                acc: seq<(string, Json)>, name: string)
    requires CollectTools(calls, parse, acc).Ok?
    ensures LastCall(calls, name).None? ==> Lookup(CollectTools(calls, parse, acc).value, name) == Lookup(acc, name)
    ensures LastCall(calls, name).Some? ==>
      parse(calls[LastCall(calls, name).value].1).Ok?
      && Lookup(CollectTools(calls, parse, acc).value, name) == Some(parse(calls[LastCall(calls, name).value].1).value)
    decreases |calls|
  {
    if calls != [] {
      var v := parse(calls[0].1).value;
      var acc' := Assign(acc, calls[0].0, v);
      assert CollectTools(calls, parse, acc) == CollectTools(calls[1..], parse, acc');
      CollectToolsLastWins(calls[1..], parse, acc', name);
      match LastCall(calls[1..], name)
      case Some(j) =>
        assert calls[1..][j] == calls[j + 1];
      case None =>
    }
  }

  /** Loop over the tool calls filling function_data. */
  method CollectToolCalls(calls: seq<(string, string)>, loads: string -> Result<Json>)
    returns (r: Result<seq<(string, Json)>>)
    ensures r == CollectTools(calls, Parser(loads), [])
  {
    var data: seq<(string, Json)> := [];
    var i := 0;
    while i < |calls|
      invariant 0 <= i <= |calls|
      invariant CollectTools(calls, Parser(loads), []) == CollectTools(calls[i..], Parser(loads), data)
    {
      var args := ParseArguments(calls[i].1, loads);
      if args.Err? {
        return Err(args.error);
      }
      assert calls[i..][1..] == calls[i + 1..];
      data := Assign(data, calls[i].0, args.value);
      i := i + 1;
    }
    return Ok(data);
  }

  /** result["json"]: json.loads of the content, else its fenced block, else a ValueError. */
  function ParseContent(content: string, loads: string -> Result<Json>): (r: Result<Json>)
    ensures r.Err? ==> r.error == ValueError("Failed to parse JSON response")
    ensures loads(content).Ok? ==> r == loads(content)
  {
    if loads(content).Ok? then loads(content)
    else match ExtractJson(content, loads)
      case Ok(j) => Ok(j)
      case Err(_) => Err(ValueError("Failed to parse JSON response"))
  }

  predicate WantsJson(c: LiteCall)
  {
    c.jsonMode || c.schema.Some?
  }

  predicate CalledTools(c: LiteCall, r: Completion)
  {
    c.tools.Some? && r.toolCalls != []
  }

  /**
   * The result dict: "json" when JSON was asked for and there is content,
   * "content" when there is content, "tools" when tools were given and called.
   */
  function Assemble(c: LiteCall, r: Completion, loads: string -> Result<Json>): Result<Json>
  {
    var withJson :-
      if WantsJson(c) && ContentTruthy(r) then
        var j :- ParseContent(r.content.value, loads);
        Ok(Assign([], "json", j))
      else Ok([]);
    var withContent := if ContentTruthy(r) then Assign(withJson, "content", JStr(r.content.value)) else withJson;
    if CalledTools(c, r) then
      var fns :- CollectTools(r.toolCalls, Parser(loads), []);
      Ok(JObj(Assign(withContent, "tools", JObj(fns))))
    else Ok(JObj(withContent))
  }

  /** The content is returned when there is some, and parsed JSON exactly when JSON was asked for too. */
  lemma AssembleKeys(c: LiteCall, r: Completion, loads: string -> Result<Json>)
    requires Assemble(c, r, loads).Ok?
    ensures Assemble(c, r, loads).value.JObj?
    ensures var d := Assemble(c, r, loads).value.fields;
      Lookup(d, "content") == (if ContentTruthy(r) then Some(JStr(r.content.value)) else None)
      && (Lookup(d, "json").Some? <==> WantsJson(c) && ContentTruthy(r))
      && (WantsJson(c) && ContentTruthy(r) ==> Lookup(d, "json") == Some(ParseContent(r.content.value, loads).value))
  {
    assert Lookup<Json>([], "json") == None && Lookup<Json>([], "content") == None;
  }

  /** The tools are returned exactly when tools were given and called: the collected function data. */
  lemma AssembleTools(c: LiteCall, r: Completion, loads: string -> Result<Json>)
    requires Assemble(c, r, loads).Ok?
    ensures Assemble(c, r, loads).value.JObj?
    ensures var d := Assemble(c, r, loads).value.fields;
      && (Lookup(d, "tools").Some? <==> CalledTools(c, r))
      && (CalledTools(c, r) ==> Lookup(d, "tools") == Some(JObj(CollectTools(r.toolCalls, Parser(loads), []).value)))
  {
    assert Lookup<Json>([], "tools") == None;
  }

  /** Reply content that is valid JSON is returned both parsed and verbatim. */
  lemma JsonReplyParsed(c: LiteCall, r: Completion, loads: string -> Result<Json>)
    requires WantsJson(c) && ContentTruthy(r) && loads(r.content.value).Ok? && !CalledTools(c, r)
    ensures Assemble(c, r, loads) == Ok(JObj(Assign(Assign([], "json", loads(r.content.value).value),
                                                     "content", JStr(r.content.value))))
  {
  }

  // ------------------------------------------------------------------ _run

  /** What a run returns or raises, and how many service calls it made. */
  datatype RunOutcome = RunOutcome(result: Result<Json>, calls: nat)

  /**
   * The completion loop of _run from attempt `a` (0-based) when n_retries > 0:
   * up to n + 1 calls; after the last failure a ValueError is raised.
   */
  function CompletionLoop(n: nat, lw: LiteWorld, s: nat, a: nat): (o: (Result<Completion>, nat))
    requires a <= n
    decreases n - a
    ensures a + 1 <= o.1 <= n + 1
  {
    match lw.complete(s + a)
    case Ok(r) => (Ok(r), a + 1)
    case Err(_) =>
      if a == n then (Err(ValueError("Failed after " + PyStr.IntToString(n + 1) + " attempts")), a + 1)
      else CompletionLoop(n, lw, s, a + 1)
  }

  /** The reply of the gabber API, or the error reading data['choices'][0]['message']['content']. */
  function GabberResult(data: Result<Json>): Result<Json>
  {
    var d :- data;
    var choices :- Get(d, "choices");
    var c0 :- At(choices, 0);
    var msg :- Get(c0, "message");
    var content :- Get(msg, "content");
    Ok(JObj([("content", content)]))
  }

  /** _run with its service calls numbered from `s`. */
  function RunOnceSpec(c: LiteCall, lw: LiteWorld, s: nat): RunOutcome
  {
    match Prepare(c, lw)
    case Err(e) => RunOutcome(Err(e), 0)
    case Ok(ToGabber) => RunOutcome(GabberResult(lw.gabber(s)), 1)
    case Ok(ToLitellm(_)) =>
      var call := Completions(c, lw, s);
      RunOutcome(if call.0.Ok? then Assemble(c, call.0.value, lw.loads) else Err(call.0.error), call.1)
  }

  /** The completion call(s) of _run: the retry loop when n_retries > 0, otherwise one call. */
  function Completions(c: LiteCall, lw: LiteWorld, s: nat): (Result<Completion>, nat)
  {
    if c.nRetries.Some? && c.nRetries.value > 0 then CompletionLoop(c.nRetries.value, lw, s, 0)
    else (lw.complete(s), 1)
  }

  /** A request that fails validation makes no service call. */
  lemma RefusedRunCallsNothing(c: LiteCall, lw: LiteWorld, s: nat)
    requires Prepare(c, lw).Err?
    ensures RunOnceSpec(c, lw, s) == RunOutcome(Err(Prepare(c, lw).error), 0)
  {
  }

  /** _run makes at most n_retries + 1 completion calls, and exactly one without retries. */
  lemma RunOnceCalls(c: LiteCall, lw: LiteWorld, s: nat)
    requires Prepare(c, lw).Ok?
    ensures RunOnceSpec(c, lw, s).calls >= 1
    ensures c.nRetries.Some? && c.nRetries.value > 0 ==> RunOnceSpec(c, lw, s).calls <= c.nRetries.value + 1
    ensures !(c.nRetries.Some? && c.nRetries.value > 0) ==> RunOnceSpec(c, lw, s).calls == 1
  {
  }

  /** With retries, the loop fails only after n_retries + 1 failed calls. */
  lemma {:induction false} LoopFailsOnlyWhenAllFail(n: nat, lw: LiteWorld, s: nat, a: nat)
    requires a <= n
    requires CompletionLoop(n, lw, s, a).0.Err?
    ensures CompletionLoop(n, lw, s, a).1 == n + 1
    ensures forall j :: s + a <= j <= s + n ==> lw.complete(j).Err?
    decreases n - a
  {
    assert lw.complete(s + a).Err?;
    if a < n {
      LoopFailsOnlyWhenAllFail(n, lw, s, a + 1);
    }
  }

  /** _run: validation, the remote call(s), the result dict. */
  method RunOnce(c: LiteCall, lw: LiteWorld, s: nat) returns (r: Result<Json>, calls: nat)
    ensures RunOutcome(r, calls) == RunOnceSpec(c, lw, s)
  {
    var route := Prepare(c, lw);
    if route.Err? {
      return Err(route.error), 0;
    }
    if route.value.ToGabber? {
      return GabberResult(lw.gabber(s)), 1;
    }
    var response;
    response, calls := Complete(c, lw, s);
    if response.Err? {
      return Err(response.error), calls;
    }
    r := BuildResult(c, response.value, lw.loads);
  }

  /** The completion call of _run, with its retry loop when n_retries > 0. */
  method Complete(c: LiteCall, lw: LiteWorld, s: nat) returns (response: Result<Completion>, calls: nat)
    ensures (response, calls) == Completions(c, lw, s)
  {
    if c.nRetries.Some? && c.nRetries.value > 0 {
      var n := c.nRetries.value;
      var attempt := 0;
      response := lw.complete(s);
      while response.Err? && attempt < n
        invariant 0 <= attempt <= n
        invariant response == lw.complete(s + attempt)
        invariant response.Err? ==> CompletionLoop(n, lw, s, 0) == CompletionLoop(n, lw, s, attempt)
        invariant response.Ok? ==> CompletionLoop(n, lw, s, 0) == (response, attempt + 1)
      {
        attempt := attempt + 1;
        response := lw.complete(s + attempt);
      }
      calls := attempt + 1;
      if response.Err? {
        response := Err(ValueError("Failed after " + PyStr.IntToString(n + 1) + " attempts"));
      }
    } else {
      response := lw.complete(s);
      calls := 1;
    }
  }

  /** The result dict of _run, filled key by key from the reply. */
  method BuildResult(c: LiteCall, reply: Completion, loads: string -> Result<Json>) returns (r: Result<Json>)
    ensures r == Assemble(c, reply, loads)
  {
    var result: seq<(string, Json)> := [];
    if WantsJson(c) && ContentTruthy(reply) {
      var j := ParseContent(reply.content.value, loads);
      if j.Err? {
        return Err(j.error);
      }
      result := Assign(result, "json", j.value);
    }
    if ContentTruthy(reply) {
      result := Assign(result, "content", JStr(reply.content.value));
    }
    if CalledTools(c, reply) {
      var fns := CollectToolCalls(reply.toolCalls, loads);
      if fns.Err? {
        return Err(fns.error);
      }
      result := Assign(result, "tools", JObj(fns.value));
    }
    r := Ok(JObj(result));
  }

  // ------------------------------------------------------- retry(n) and run

  /**
   * retry(n) around a run function (ith from call number s): from attempt `a`,
   * return the first run that succeeds; the failure of attempt n - 1 is re-raised;
   * no attempt at all (n <= 0) returns None.
   */
  function Decorated(run: nat -> RunOutcome, n: int, a: nat, s: nat): RunOutcome
    decreases if n > a then n - a else 0
  {
    if a >= n then RunOutcome(Ok(JNull), 0)
    else
      var once := run(s);
      if once.result.Ok? || a == n - 1 then once
      else
        var rest := Decorated(run, n, a + 1, s + once.calls);
        RunOutcome(rest.result, once.calls + rest.calls)
  }

  lemma DecoratedStep(run: nat -> RunOutcome, n: int, a: nat, s: nat)
    requires a < n
    ensures Decorated(run, n, a, s)
      == (if run(s).result.Ok? || a == n - 1 then run(s)
          else var rest := Decorated(run, n, a + 1, s + run(s).calls);
               RunOutcome(rest.result, run(s).calls + rest.calls))
  {
  }

  function RunFn(c: LiteCall, lw: LiteWorld): nat -> RunOutcome
  {
    (s: nat) => RunOnceSpec(c, lw, s)
  }

  /** run: the decorator is applied iff n_retries is given, and n_retries is passed on to _run. */
  function RunSpec(c: LiteCall, lw: LiteWorld): RunOutcome
  {
    if c.nRetries.Some? then Decorated(RunFn(c, lw), c.nRetries.value, 0, 0) else RunOnceSpec(c, lw, 0)
  }

  /** run(n_retries=0) (or negative) never calls _run and returns None. */
  lemma RunWithoutRetriesReturnsNone(c: LiteCall, lw: LiteWorld)
    requires c.nRetries.Some? && c.nRetries.value <= 0
    ensures RunSpec(c, lw) == RunOutcome(Ok(JNull), 0)
  {
  }

  /** n decorator attempts of at most m calls each make at most n * m calls. */
  lemma {:induction false} DecoratedCalls(run: nat -> RunOutcome, n: int, m: nat, a: nat, s: nat)
    requires a <= n
    requires forall t :: run(t).calls <= m
    ensures Decorated(run, n, a, s).calls <= (n - a) * m
    decreases n - a
  {
    if a < n {
      DecoratedStep(run, n, a, s);
      var once := run(s);
      assert once.calls <= m;
      MulSucc(n - (a + 1), m);
      if !(once.result.Ok? || a == n - 1) {
        DecoratedCalls(run, n, m, a + 1, s + once.calls);
      }
    }
  }

  lemma MulSucc(k: nat, m: nat)
    ensures (k + 1) * m == m + k * m
    ensures (k + 1) * m >= m
  {
  }

  /** With n_retries = n > 0 the two retry layers compose: at most n * (n + 1) service calls. */
  lemma RunCallsBounded(c: LiteCall, lw: LiteWorld)
    requires c.nRetries.Some? && c.nRetries.value > 0
    ensures RunSpec(c, lw).calls <= c.nRetries.value * (c.nRetries.value + 1)
  {
    forall t: nat ensures RunFn(c, lw)(t).calls <= c.nRetries.value + 1 {
      if Prepare(c, lw).Ok? {
        RunOnceCalls(c, lw, t);
      }
    }
    DecoratedCalls(RunFn(c, lw), c.nRetries.value, c.nRetries.value + 1, 0, 0);
  }

  /** The number of the first service call made by attempt k of retry(n), when attempt 0 starts at call s. */
  function Start(run: nat -> RunOutcome, k: nat, s: nat): (r: nat)
    ensures r >= s
  {
    if k == 0 then s else Start(run, k - 1, s + run(s).calls)
  }

  /**
   * retry(n) raises only after all of its n - a remaining attempts have failed,
   * and what it raises is the last attempt's exception.
   */
  lemma {:induction false} DecoratedFailsOnlyWhenAllFail(run: nat -> RunOutcome, n: int, a: nat, s: nat)
    requires Decorated(run, n, a, s).result.Err?
    ensures a < n
    ensures forall k :: 0 <= k < n - a ==> run(Start(run, k, s)).result.Err?
    ensures Decorated(run, n, a, s).result == run(Start(run, n - a - 1, s)).result
    ensures Decorated(run, n, a, s).calls == Start(run, n - a - 1, s) + run(Start(run, n - a - 1, s)).calls - s
    decreases if n > a then n - a else 0
  {
    var once := run(s);
    assert once.result.Err?;
    if a < n - 1 {
      var s' := s + once.calls;
      DecoratedFailsOnlyWhenAllFail(run, n, a + 1, s');
      forall k | 0 <= k < n - a
        ensures run(Start(run, k, s)).result.Err?
      {
        if k > 0 {
          assert Start(run, k, s) == Start(run, k - 1, s');
        }
      }
      assert Start(run, n - a - 1, s) == Start(run, n - (a + 1) - 1, s');
    }
  }

  /** retry(n) returns the first attempt that succeeds (attempt j), after exactly the calls of attempts 0 to j. */
  lemma {:induction false} DecoratedFirstSuccess(run: nat -> RunOutcome, n: int, a: nat, s: nat, j: nat)
    requires a + j < n
    requires forall k :: 0 <= k < j ==> run(Start(run, k, s)).result.Err?
    requires run(Start(run, j, s)).result.Ok?
    ensures Decorated(run, n, a, s).result == run(Start(run, j, s)).result
    ensures Decorated(run, n, a, s).calls == Start(run, j, s) + run(Start(run, j, s)).calls - s
    decreases j
  {
    if j > 0 {
      var once := run(s);
      assert Start(run, 0, s) == s;
      assert once.result.Err?;
      var s' := s + once.calls;
      forall k | 0 <= k < j - 1
        ensures run(Start(run, k, s')).result.Err?
      {
        assert Start(run, k + 1, s) == Start(run, k, s');
      }
      assert Start(run, j, s) == Start(run, j - 1, s');
      DecoratedFirstSuccess(run, n, a + 1, s', j - 1);
    }
  }

  function Shift(o: RunOutcome, k: nat): RunOutcome
  {
    RunOutcome(o.result, o.calls + k)
  }

  /** The loop of retry(n) around _run. */
  method Decorate(c: LiteCall, lw: LiteWorld, n: int) returns (r: Result<Json>, calls: nat)
    ensures RunOutcome(r, calls) == Decorated(RunFn(c, lw), n, 0, 0)
  {
    ghost var run := RunFn(c, lw);
    var a := 0;
    calls := 0;
    while a < n
      invariant 0 <= a
      invariant n > 0 ==> a < n
      invariant Decorated(run, n, 0, 0) == Shift(Decorated(run, n, a, calls), calls)
      decreases n - a
    {
      var once, used := RunOnce(c, lw, calls);
      assert run(calls) == RunOutcome(once, used);
      DecoratedStep(run, n, a, calls);
      if once.Ok? || a == n - 1 {
        return once, calls + used;
      }
      calls := calls + used;
      a := a + 1;
    }
    return Ok(JNull), 0;
  }

  /** run: retry(n_retries)(_run) when n_retries is given, else _run itself. */
  method Run(c: LiteCall, lw: LiteWorld) returns (r: Result<Json>, calls: nat)
    ensures RunOutcome(r, calls) == RunSpec(c, lw)
  {
    if c.nRetries.None? {
      r, calls := RunOnce(c, lw, 0);
    } else {
      r, calls := Decorate(c, lw, c.nRetries.value);
    }
  }
}
