// The provider layer of backend/llmapi.py: the canonical response and its
// fallback conversion, parameter merging, request building, reply
// classification and tool-call validation, the per-provider retry loop,
// the sequential fallback strategy and the provider registry.
module LlmApi {
  import opened Wrappers
  import opened Json

  // ------------------------------------------------------------ responses

  /** The arguments of a tool call: a JSON text or an already decoded dict. */
  datatype ToolArgs = ArgsStr(text: string) | ArgsDict(dict: Json)

  datatype ToolCall = ToolCall(name: string, args: ToolArgs, id: Json)

  /** args_as_str: the text as it is, or the dict serialised by `dumps`. */
  function ArgsAsStr(c: ToolCall, dumps: Json -> string): string
  {
    match c.args
    case ArgsStr(t) => t
    case ArgsDict(d) => dumps(d)
  }

  /** args_as_dict: the text decoded by `loads` (which may fail), or the dict as it is. */
  function ArgsAsDict(c: ToolCall, loads: string -> Result<Json>): Result<Json>
  {
    match c.args
    case ArgsStr(t) => loads(t)
    case ArgsDict(d) => Ok(d)
  }

  /**
   * When `loads` inverts `dumps`, re-encoding the arguments as text and reading
   * them back gives the same dict.
   */
  lemma ArgsRoundTrip(c: ToolCall, dumps: Json -> string, loads: string -> Result<Json>)
    requires forall d :: loads(dumps(d)) == Ok(d)
    ensures ArgsAsDict(ToolCall(c.name, ArgsStr(ArgsAsStr(c, dumps)), c.id), loads) == ArgsAsDict(c, loads)
  {
  }

  /** What a response carries: text, a tool call, a structured object, or any other JSON value. */
  datatype Payload = PText(text: string) | PTool(call: ToolCall) | PStructured(obj: Json) | POther(raw: Json)

  /** The canonical response (usage and timing are not modelled). */
  datatype ApiResponse = ApiResponse(payload: Payload, id: Json, attempt: int, model: string)

  datatype ResponseKind = KindError | KindToolCall | KindStructured | KindText | KindUnknown

  /** APIResponse.type: the "error" model tag wins over the payload's own kind. */
  function Kind(r: ApiResponse): (k: ResponseKind)
    ensures k == KindError <==> r.model == "error"
    ensures r.model != "error" ==> (k == KindText <==> r.payload.PText?)
    ensures r.model != "error" ==> (k == KindToolCall <==> r.payload.PTool?)
    ensures r.model != "error" ==> (k == KindStructured <==> r.payload.PStructured?)
    ensures r.model != "error" ==> (k == KindUnknown <==> r.payload.POther?)
  {
    if r.model == "error" then KindError
    else match r.payload
      case PTool(_) => KindToolCall
      case PStructured(_) => KindStructured
      case PText(_) => KindText
      case POther(_) => KindUnknown
  }

  datatype FallbackValue = FbResponse(resp: ApiResponse) | FbModel(obj: Json) | FbText(text: string)

  const SayorryKey := "say_sorry_repeat"
  const GoodbyeKey := "goodbye_end_session"

  const SorryReplies: seq<string> := [
    "I'm sorry, i didn't quite catch that. Can you please repeat?",
    "Could you say that again? I didn't understand you clearly.",
    "I'm having trouble understanding. Can you rephrase that for me?"
  ]

  const GoodbyeReplies: seq<string> := [
    "Have a nice day!",
    "Thank you for your time. Goodbye!",
    "Goodbye. It was nice talking to you."
  ]

  /**
   * APIResponse.fallback. `freshId` stands for the uuid the new response gets and
   * `pick` for random.choice. Any string other than the two sentinels leaves the
   * reply unbound, which Python reports as UnboundLocalError.
   */
  function Fallback(v: FallbackValue, freshId: string, pick: nat): (r: Result<ApiResponse>)
    ensures v.FbResponse? ==> r == Ok(v.resp)
    ensures v.FbModel? ==> r.Ok? && r.value.payload == PStructured(v.obj) && Kind(r.value) == KindError
    ensures v.FbText? ==> (r.Ok? <==> v.text == SayorryKey || v.text == GoodbyeKey)
    ensures v == FbText(SayorryKey) ==>
      r.Ok? && Kind(r.value) == KindError && r.value.payload.PText? && r.value.payload.text in SorryReplies
    ensures v == FbText(GoodbyeKey) ==>
      r.Ok? && Kind(r.value) == KindError && r.value.payload.PText? && r.value.payload.text in GoodbyeReplies
    ensures r.Ok? && !v.FbResponse? ==> r.value.attempt == 1 && r.value.id == JStr(freshId)
  {
    match v
    case FbResponse(resp) => Ok(resp)
    case FbModel(obj) => Ok(ApiResponse(PStructured(obj), JStr(freshId), 1, "error"))
    case FbText(t) =>
      if t == SayorryKey then Ok(ApiResponse(PText(SorryReplies[pick % 3]), JStr(freshId), 1, "error"))
      else if t == GoodbyeKey then Ok(ApiResponse(PText(GoodbyeReplies[pick % 3]), JStr(freshId), 1, "error"))
      else Err(UnboundLocalError)
  }

  // ----------------------------------------------------------- parameters

  datatype ToolChoice = ChoiceAuto | ChoiceRequired | ChoiceNone | ChoiceNamed(toolName: string)

  /**
   * Call parameters; `None` is NOT_GIVEN. The same record holds a provider's
   * bound defaults (all NOT_GIVEN after init_params) and the arguments of one call.
   * Tools are identified by their names; `structured` names a pydantic class.
   */
  datatype Params = Params(
    model: Option<string>,
    temperature: Option<real>,
    maxTokens: Option<int>,
    tools: Option<seq<string>>,
    toolChoice: Option<ToolChoice>,
    structured: Option<string>,
    reasoning: Option<string>,
    timeout: Option<real>,
    nRetries: Option<int>,
    retryDelay: Option<real>,
    fallback: Option<FallbackValue>)

  /** BaseProvider.init_params: every bound parameter is NOT_GIVEN. */
  const NoParams := Params(None, None, None, None, None, None, None, None, None, None, None)

  datatype ParamName =
    | PModel | PTemperature | PMaxTokens | PTools | PToolChoice | PStructuredOutput
    | PReasoning | PTimeout | PNRetries | PRetryDelay | PFallback

  /** with_params: the named parameters take the values from `o`, the others are kept. */
  function Override(p: Params, o: Params, names: set<ParamName>): (r: Params)
  {
    Params(
      if PModel in names then o.model else p.model,
      if PTemperature in names then o.temperature else p.temperature,
      if PMaxTokens in names then o.maxTokens else p.maxTokens,
      if PTools in names then o.tools else p.tools,
      if PToolChoice in names then o.toolChoice else p.toolChoice,
      if PStructuredOutput in names then o.structured else p.structured,
      if PReasoning in names then o.reasoning else p.reasoning,
      if PTimeout in names then o.timeout else p.timeout,
      if PNRetries in names then o.nRetries else p.nRetries,
      if PRetryDelay in names then o.retryDelay else p.retryDelay,
      if PFallback in names then o.fallback else p.fallback)
  }

  /** with_params() without arguments copies the parameters unchanged. */
  lemma OverrideNothing(p: Params, o: Params)
    ensures Override(p, o, {}) == p
  {
  }

  /** Overriding the same names twice keeps only the second values. */
  lemma OverrideTwice(p: Params, o1: Params, o2: Params, names: set<ParamName>)
    ensures Override(Override(p, o1, names), o2, names) == Override(p, o2, names)
  {
  }

  /** Python's `a or b` on a NOT_GIVEN-or-value, given the value type's truthiness. */
  function Or<T>(a: Option<T>, b: Option<T>, truthy: T -> bool): (r: Option<T>)
    ensures a.Some? && truthy(a.value) ==> r == a
    ensures !(a.Some? && truthy(a.value)) ==> r == b
  {
    if a.Some? && truthy(a.value) then a else b
  }

  /** `a or b or default`. */
  function OrDefault<T>(a: Option<T>, b: Option<T>, default: T, truthy: T -> bool): (r: T)
    ensures a.Some? && truthy(a.value) ==> r == a.value
    ensures !(a.Some? && truthy(a.value)) && b.Some? && truthy(b.value) ==> r == b.value
    ensures !(a.Some? && truthy(a.value)) && !(b.Some? && truthy(b.value)) ==> r == default
  {
    if a.Some? && truthy(a.value) then a.value
    else if b.Some? && truthy(b.value) then b.value
    else default
  }

  predicate FallbackTruthy(v: FallbackValue)
  {
    !(v.FbText? && v.text == "")
  }

  /** The parameters of one call after merging the bound ones over the call's own. */
  datatype Resolved = Resolved(
    model: Option<string>,
    temperature: Option<real>,
    maxTokens: Option<int>,
    tools: Option<seq<string>>,
    toolChoice: Option<ToolChoice>,
    structured: Option<string>,
    reasoning: Option<string>,
    timeout: real,
    nRetries: int,
    retryDelay: real,
    fallback: Option<FallbackValue>)

  /**
   * `self.x or x` for every parameter but structured_output, which is the call's
   * own argument; timeout, n_retries and retry_delay also fall back to 5.0, 1, 1.0.
   */
  function Resolve(bound: Params, call: Params): Resolved
  {
    Resolved(
      Or(bound.model, call.model, (s: string) => s != ""),
      Or(bound.temperature, call.temperature, (x: real) => x != 0.0),
      Or(bound.maxTokens, call.maxTokens, (i: int) => i != 0),
      Or(bound.tools, call.tools, (ts: seq<string>) => ts != []),
      Or(bound.toolChoice, call.toolChoice, (c: ToolChoice) => true),
      call.structured,
      Or(bound.reasoning, call.reasoning, (s: string) => s != ""),
      OrDefault(bound.timeout, call.timeout, 5.0, (x: real) => x != 0.0),
      OrDefault(bound.nRetries, call.nRetries, 1, (i: int) => i != 0),
      OrDefault(bound.retryDelay, call.retryDelay, 1.0, (x: real) => x != 0.0),
      Or(bound.fallback, call.fallback, FallbackTruthy))
  }

  /**
   * The resolved retry count is the bound one unless that is 0 or NOT_GIVEN, then
   * the call's unless that is 0 or NOT_GIVEN, then 1. It is never 0; it is
   * negative only when a negative value was given.
   */
  lemma ResolvedRetries(bound: Params, call: Params)
    ensures Resolve(bound, call).nRetries != 0
    ensures Resolve(bound, call).nRetries < 0 ==>
      (bound.nRetries.Some? && bound.nRetries.value < 0) || (call.nRetries.Some? && call.nRetries.value < 0)
  {
  }

  // ------------------------------------------------------------ providers

  datatype ProviderKind = OpenAI | OpenRouter | Groq

  /** The model allow-list of each provider class. */
  function Models(kind: ProviderKind): seq<string>
  {
    match kind
    case OpenAI => ["gpt-4.1", "gpt-4.1-mini", "gpt-4o", "gpt-4o-mini"]
    case OpenRouter => []
    case Groq => ["openai/gpt-oss-120b", "openai/gpt-oss-20b"]
  }

  function DefaultUrl(kind: ProviderKind): string
  {
    match kind
    case OpenAI => "https://api.openai.com/v1/chat/completions"
    case OpenRouter => "https://openrouter.ai/api/v1/chat/completions"
    case Groq => "https://api.groq.com/openai/v1/chat/completions"
  }

  /** The default arguments of acall; OpenRouter inherits OpenAI's. */
  function DefaultCall(kind: ProviderKind): Params
  {
    Params(None, Some(0.5), Some(if kind == Groq then 1024 else 512), Some([]), None, None, None,
           Some(5.0), Some(if kind == Groq then 3 else 1), Some(1.0), None)
  }

  /** The parts of the JSON request body the model tracks; `None` means the key is absent. */
  datatype Request = Request(
    model: string,
    temperature: Option<real>,
    maxTokens: Option<int>,
    tools: Option<seq<string>>,
    toolChoice: Option<ToolChoice>,
    reasoning: Option<string>)

  /**
   * The request body. OpenAI includes temperature and max_tokens only when given,
   * sends tools only when there are some and tool_choice is not "none", and does
   * not send reasoning_effort. Groq always writes temperature and max_tokens,
   * sends an empty tool list when tool_choice is "none", and sends reasoning_effort.
   */
  function MakeRequest(kind: ProviderKind, res: Resolved, model: string): (q: Request)
    ensures kind != Groq ==>
      (q.tools.Some? <==> res.tools.Some? && res.tools.value != [] && res.toolChoice != Some(ChoiceNone))
    ensures kind == Groq ==> (q.tools.Some? <==> res.tools.Some? && res.tools.value != [])
    ensures kind == Groq && q.tools.Some? ==> (q.tools.value == [] <==> res.toolChoice == Some(ChoiceNone))
    ensures q.tools.Some? ==> q.toolChoice == Some(res.toolChoice.GetOr(ChoiceAuto))
    ensures q.tools.None? ==> q.toolChoice.None?
  {
    var sendTools := res.tools.Some? && res.tools.value != [];
    if kind == Groq then
      Request(model, res.temperature, res.maxTokens,
              if sendTools then Some(if res.toolChoice == Some(ChoiceNone) then [] else res.tools.value) else None,
              if sendTools then Some(res.toolChoice.GetOr(ChoiceAuto)) else None,
              res.reasoning)
    else
      Request(model, res.temperature, res.maxTokens,
              if sendTools && res.toolChoice != Some(ChoiceNone) then res.tools else None,
              if sendTools && res.toolChoice != Some(ChoiceNone) then Some(res.toolChoice.GetOr(ChoiceAuto)) else None,
              None)
  }

  /** The tool list the reply validators see: Groq empties it when tool_choice is "none". */
  function DeclaredTools(kind: ProviderKind, res: Resolved): Option<seq<string>>
  {
    if kind == Groq && res.tools.Some? && res.tools.value != [] && res.toolChoice == Some(ChoiceNone) then Some([])
    else res.tools
  }

  // --------------------------------------------------- reply classification

  /** The environment of one call: the service and every source of nondeterminism. */
  datatype NetOutcome = Reply(body: Json) | Failure(e: Exc)

  datatype World = World(
    net: int -> NetOutcome,               // what POSTing attempt k yields
    argsOk: (string, ToolArgs) -> bool,   // prepare_function_arguments accepts the arguments
    loads: string -> Result<Json>,        // json.loads
    dumps: Json -> string,                // json.dumps
    uuid: int -> string,                  // ids drawn during attempt k (2k and 2k + 1)
    fallbackId: string,                   // the id a fallback response gets
    pick: nat)                            // random.choice

  /** response_json["choices"][0]["message"] */
  function FirstMessage(body: Json): Result<Json>
  {
    var choices :- Get(body, "choices");
    var c0 :- At(choices, 0);
    Get(c0, "message")
  }

  function PayloadOf(content: Json): Payload
  {
    if content.JStr? then PText(content.s) else POther(content)
  }

  function ArgsOf(a: Json): ToolArgs
  {
    if a.JStr? then ArgsStr(a.s) else ArgsDict(a)
  }

  /**
   * The checks every reported tool call goes through, in the order the source
   * makes them: the tool list must exist, tools must have been sent, tool_choice
   * must not be "none", under "auto"/"required" the name must be declared
   * (a named tool_choice is not implemented, and a list or dict name cannot be
   * looked up in the tool dict), and the arguments must be accepted.
   */
  function CheckToolCall(req: Request, declared: Option<seq<string>>, name: Json, args: ToolArgs, id: Json, w: World)
    : (r: Result<ToolCall>)
    ensures declared.None? ==> r == Err(TypeError)
    ensures declared.Some? && (req.tools.None? || req.tools.value == []) ==> r == Err(ValueError("tools are not provided"))
    ensures declared.Some? && req.tools.Some? && req.tools.value != [] ==>
      match req.toolChoice.GetOr(ChoiceAuto)
      case ChoiceNone => r == Err(ValueError("tool_choice is 'none'"))
      case ChoiceNamed(_) => r == Err(NotImplementedError)
      case _ =>
        if name.JArr? || name.JObj? then r == Err(TypeError)
        else if !name.JStr? || name.s !in declared.value then r == Err(ValueError("Wrong tool call name"))
        else if !w.argsOk(name.s, args) then r == Err(ValueError("failed to parse arguments"))
        else r == Ok(ToolCall(name.s, args, id))
    ensures r.Ok? <==>
      declared.Some? && req.tools.Some? && req.tools.value != []
      && req.toolChoice.GetOr(ChoiceAuto) in {ChoiceAuto, ChoiceRequired}
      && name.JStr? && name.s in declared.value && w.argsOk(name.s, args)
    ensures r.Ok? ==> r.value == ToolCall(name.s, args, id)
  {
    if declared.None? then Err(TypeError)
    else if req.tools.None? || req.tools.value == [] then Err(ValueError("tools are not provided"))
    else match req.toolChoice.GetOr(ChoiceAuto)
      case ChoiceNone => Err(ValueError("tool_choice is 'none'"))
      case ChoiceNamed(_) => Err(NotImplementedError)
      case _ =>
        if name.JArr? || name.JObj? then Err(TypeError)
        else if !name.JStr? || name.s !in declared.value then Err(ValueError("Wrong tool call name"))
        else if !w.argsOk(name.s, args) then Err(ValueError("failed to parse arguments"))
        else Ok(ToolCall(name.s, args, id))
  }

  /** _unpack_tool_call: the first reported tool call, validated. */
  function UnpackToolCall(req: Request, declared: Option<seq<string>>, body: Json, w: World): (r: Result<ToolCall>)
    ensures r.Ok? ==> declared.Some? && r.value.name in declared.value && w.argsOk(r.value.name, r.value.args)
  {
    var msg :- FirstMessage(body);
    var calls :- Get(msg, "tool_calls");
    var first :- At(calls, 0);
    var id :- Get(first, "id");
    var fn :- Get(first, "function");
    var name :- Get(fn, "name");
    var args :- Get(fn, "arguments");
    CheckToolCall(req, declared, name, ArgsOf(args), id, w)
  }

  /** OpenAI's _is_tool_call: finish_reason "tool_calls", or a non-empty tool_calls list. */
  function OpenAIIsToolCall(body: Json): Result<bool>
  {
    var has :- In("choices", body);
    if !has then Ok(false) else
    var choices :- Get(body, "choices");
    if !Truthy(choices) then Ok(false) else
    var c0 :- At(choices, 0);
    var reason :- Get(c0, "finish_reason");
    if reason == JStr("tool_calls") then Ok(true) else
    var msg :- Get(c0, "message");
    var hasCalls :- In("tool_calls", msg);
    if !hasCalls then Ok(false) else
    var calls :- Get(msg, "tool_calls");
    Ok(Truthy(calls))
  }

  /** Groq's _is_tool_call looks only at finish_reason. */
  function GroqIsToolCall(body: Json): Result<bool>
  {
    var has :- In("choices", body);
    if !has then Ok(false) else
    var choices :- Get(body, "choices");
    if !Truthy(choices) then Ok(false) else
    var c0 :- At(choices, 0);
    var reason :- Get(c0, "finish_reason");
    Ok(reason == JStr("tool_calls"))
  }

  /** Groq's _is_error_w_tool_calls: an error body with a failed generation, when tools were sent. */
  function GroqIsErrorWithTools(req: Request, body: Json): Result<bool>
  {
    var hasError :- In("error", body);
    if !hasError then Ok(false) else
    var err :- Get(body, "error");
    var hasGen :- In("failed_generation", err);
    Ok(hasGen && req.tools.Some? && req.tools.value != [])
  }

  /** `json.loads(response_json["error"]["failed_generation"])` */
  function FailedGeneration(body: Json, w: World): Result<Json>
  {
    var err :- Get(body, "error");
    var gen :- Get(err, "failed_generation");
    if !gen.JStr? then Err(TypeError) else w.loads(gen.s)
  }

  /**
   * Groq's _try_unpack_tool_calls_w_error: the call is read from the failed
   * generation, gets a fresh id and has its arguments re-serialised.
   */
  function GroqRecoverToolCall(req: Request, declared: Option<seq<string>>, body: Json, w: World, k: int)
    : (r: Result<ToolCall>)
    ensures r.Ok? ==> r.value.id == JStr(w.uuid(2 * k)) && r.value.args.ArgsStr?
    ensures r.Ok? ==> declared.Some? && r.value.name in declared.value
    ensures r.Ok? ==>
      FailedGeneration(body, w).Ok?
      && Get(FailedGeneration(body, w).value, "name") == Ok(JStr(r.value.name))
      && Get(FailedGeneration(body, w).value, "arguments").Ok?
      && r.value.args == ArgsStr(w.dumps(Get(FailedGeneration(body, w).value, "arguments").value))
    ensures FailedGeneration(body, w).Err? ==> r == Err(FailedGeneration(body, w).error)
  {
    var content :- FailedGeneration(body, w);
    var callId := w.uuid(2 * k);
    var name :- Get(content, "name");
    var args :- Get(content, "arguments");
    CheckToolCall(req, declared, name, ArgsStr(w.dumps(args)), JStr(callId), w)
  }

  function OpenAIReply(req: Request, declared: Option<seq<string>>, body: Json, w: World, k: int): Result<ApiResponse>
  {
    var isTool :- OpenAIIsToolCall(body);
    var payload :- if isTool then (var c :- UnpackToolCall(req, declared, body, w); Ok(PTool(c)))
                   else (var msg :- FirstMessage(body); var content :- Get(msg, "content"); Ok(PayloadOf(content)));
    var id :- GetOr(body, "id", JNull);
    Ok(ApiResponse(payload, id, k, req.model))
  }

  function GroqReply(req: Request, declared: Option<seq<string>>, body: Json, w: World, k: int): Result<ApiResponse>
  {
    var recover :- GroqIsErrorWithTools(req, body);
    if recover then
      var c :- GroqRecoverToolCall(req, declared, body, w, k);
      Ok(ApiResponse(PTool(c), JStr(w.uuid(2 * k + 1)), k, req.model))
    else
      var isTool :- GroqIsToolCall(body);
      var payload :- if isTool then (var c :- UnpackToolCall(req, declared, body, w); Ok(PTool(c)))
                     else (var msg :- FirstMessage(body); var content :- GetOr(msg, "content", JStr("")); Ok(PayloadOf(content)));
      var id :- GetOr(body, "id", JNull);
      Ok(ApiResponse(payload, id, k, req.model))
  }

  /**
   * One attempt (the body of the try block after the closed-session check).
   * Groq writes NOT_GIVEN temperature or max_tokens into the body, which cannot
   * be serialised; every other failure comes from the service or the reply.
   */
  function Attempt(kind: ProviderKind, res: Resolved, req: Request, w: World, k: int): (r: Result<ApiResponse>)
    ensures r.Ok? && r.value.payload.PTool? ==>
      DeclaredTools(kind, res).Some? && r.value.payload.call.name in DeclaredTools(kind, res).value
    ensures r.Ok? ==> r.value.attempt == k && r.value.model == req.model
  {
    if kind == Groq && (req.temperature.None? || req.maxTokens.None?) then Err(TypeError)
    else match w.net(k)
      case Failure(e) => Err(e)
      case Reply(body) =>
        if kind == Groq then GroqReply(req, DeclaredTools(kind, res), body, w, k)
        else OpenAIReply(req, DeclaredTools(kind, res), body, w, k)
  }

  // ----------------------------------------------------------- retry loop

  /** What one acall returns (or raises), and how many attempts it started. */
  datatype CallOutcome = CallOutcome(result: Result<ApiResponse>, attempts: nat)

  /**
   * `for attempt in range(k, n + 1)` where `f(attempt)` is what the try block
   * yields: a closed session ends the call with the goodbye fallback; a success
   * is returned; a failure is retried while attempts remain, and the last one
   * yields the fallback value or re-raises. A loop that never runs ends in
   * RuntimeError.
   */
  function RetryLoop(f: nat -> Result<ApiResponse>, n: int, closed: bool, fb: Option<FallbackValue>,
                     fbId: string, pick: nat, k: nat): (o: CallOutcome)
    requires k >= 1
    decreases if n >= k then n - k + 1 else 0
    ensures o.attempts <= (if n >= k then n else k - 1)
    ensures n >= k ==> o.attempts >= k - 1
  {
    if k > n then CallOutcome(Err(RuntimeError("All retry attempts failed")), k - 1)
    else if closed then CallOutcome(Fallback(FbText(GoodbyeKey), fbId, pick), k - 1)
    else match f(k)
      case Ok(r) => CallOutcome(Ok(r), k)
      case Err(e) =>
        if k < n then RetryLoop(f, n, closed, fb, fbId, pick, k + 1)
        else CallOutcome(if fb.Some? then Fallback(fb.value, fbId, pick) else Err(e), k)
  }

  /** The try block of attempt k for the given provider and request. */
  function AttemptFn(kind: ProviderKind, res: Resolved, req: Request, w: World): nat -> Result<ApiResponse>
  {
    k => Attempt(kind, res, req, w, k)
  }

  /** A whole acall: merge, the model allow-list, the structured-output refusal, then the loop. */
  function CallSpec(kind: ProviderKind, bound: Params, call: Params, closed: bool, w: World): CallOutcome
  {
    var res := Resolve(bound, call);
    if res.model.None? || res.model.value !in Models(kind) then CallOutcome(Err(AssertionError), 0)
    else if res.structured.Some? then CallOutcome(Err(NotImplementedError), 0)
    else RetryLoop(AttemptFn(kind, res, MakeRequest(kind, res, res.model.value), w), res.nRetries, closed,
                   res.fallback, w.fallbackId, w.pick, 1)
  }

  // ------------------------------------------------- properties of a call

  /** At most n_retries attempts are started, and none when it is negative. */
  lemma AttemptsBounded(kind: ProviderKind, bound: Params, call: Params, closed: bool, w: World)
    ensures CallSpec(kind, bound, call, closed, w).attempts
      <= (if Resolve(bound, call).nRetries > 0 then Resolve(bound, call).nRetries else 0)
  {
  }

  /** Unbound defaults: OpenAI and OpenRouter make one attempt, Groq up to three. */
  lemma DefaultAttempts(kind: ProviderKind, model: string, closed: bool, w: World)
    ensures CallSpec(kind, NoParams, DefaultCall(kind).(model := Some(model)), closed, w).attempts
      <= (if kind == Groq then 3 else 1)
  {
    AttemptsBounded(kind, NoParams, DefaultCall(kind).(model := Some(model)), closed, w);
  }

  /** A model outside the provider's allow-list is refused before any attempt. */
  lemma UnknownModelRefused(kind: ProviderKind, bound: Params, call: Params, closed: bool, w: World)
    requires Resolve(bound, call).model.None? || Resolve(bound, call).model.value !in Models(kind)
    ensures CallSpec(kind, bound, call, closed, w) == CallOutcome(Err(AssertionError), 0)
  {
  }

  /** OpenRouterProvider has an empty allow-list: every call is refused. */
  lemma OpenRouterRefusesEveryCall(bound: Params, call: Params, closed: bool, w: World)
    ensures CallSpec(OpenRouter, bound, call, closed, w) == CallOutcome(Err(AssertionError), 0)
  {
  }

  /**
   * Passing structured_output to the call is refused before any attempt; a
   * structured_output bound by with_params is never looked at.
   */
  lemma StructuredOutputRefused(kind: ProviderKind, bound: Params, call: Params, closed: bool, w: World)
    requires Resolve(bound, call).model.Some? && Resolve(bound, call).model.value in Models(kind)
    requires call.structured.Some?
    ensures CallSpec(kind, bound, call, closed, w) == CallOutcome(Err(NotImplementedError), 0)
  {
  }

  /** A structured_output bound by with_params changes nothing about a call. */
  lemma BoundStructuredIgnored(kind: ProviderKind, bound: Params, call: Params, closed: bool, w: World)
    ensures CallSpec(kind, bound, call, closed, w) == CallSpec(kind, bound.(structured := None), call, closed, w)
  {
  }

  /** A negative n_retries runs no attempt at all and ends in RuntimeError, closed session or not. */
  lemma NegativeRetriesRaise(kind: ProviderKind, bound: Params, call: Params, closed: bool, w: World)
    requires Resolve(bound, call).model.Some? && Resolve(bound, call).model.value in Models(kind)
    requires call.structured.None?
    requires Resolve(bound, call).nRetries < 0
    ensures CallSpec(kind, bound, call, closed, w) == CallOutcome(Err(RuntimeError("All retry attempts failed")), 0)
  {
  }

  /** A closed session yields a goodbye text tagged "error" without any request. */
  lemma ClosedSessionSaysGoodbye(kind: ProviderKind, bound: Params, call: Params, w: World)
    requires Resolve(bound, call).model.Some? && Resolve(bound, call).model.value in Models(kind)
    requires call.structured.None?
    requires Resolve(bound, call).nRetries >= 1
    ensures var o := CallSpec(kind, bound, call, true, w);
      o.attempts == 0 && o.result.Ok? && Kind(o.result.value) == KindError
      && o.result.value.payload.PText? && o.result.value.payload.text in GoodbyeReplies
  {
  }

  /** One unfolding of the loop on an open session. */
  lemma RetryLoopStep(f: nat -> Result<ApiResponse>, n: int, fb: Option<FallbackValue>, fbId: string, pick: nat, k: nat)
    requires 1 <= k <= n
    ensures RetryLoop(f, n, false, fb, fbId, pick, k)
      == if f(k).Ok? then CallOutcome(f(k), k)
         else if k < n then RetryLoop(f, n, false, fb, fbId, pick, k + 1)
         else CallOutcome(if fb.Some? then Fallback(fb.value, fbId, pick) else f(k), k)
  {
  }

  /** Any failed attempt with attempts remaining, a rejected tool call included, is retried. */
  lemma FailureIsRetried(f: nat -> Result<ApiResponse>, n: int, fb: Option<FallbackValue>, fbId: string, pick: nat, k: nat)
    requires 1 <= k < n && f(k).Err?
    ensures RetryLoop(f, n, false, fb, fbId, pick, k) == RetryLoop(f, n, false, fb, fbId, pick, k + 1)
  {
  }

  /**
   * On an open session without a fallback value, a returned response is the
   * reply of the last attempt started, and every earlier attempt failed.
   */
  lemma {:induction false} SuccessIsFirstGoodAttempt(f: nat -> Result<ApiResponse>, n: int, fbId: string, pick: nat, k: nat)
    requires k >= 1
    requires RetryLoop(f, n, false, None, fbId, pick, k).result.Ok?
    ensures var o := RetryLoop(f, n, false, None, fbId, pick, k);
      k <= o.attempts && f(o.attempts) == o.result && forall j :: k <= j < o.attempts ==> f(j).Err?
    decreases if n >= k then n - k + 1 else 0
  {
    assert k <= n;
    RetryLoopStep(f, n, None, fbId, pick, k);
    if f(k).Err? {
      SuccessIsFirstGoodAttempt(f, n, fbId, pick, k + 1);
    }
  }

  /**
   * When every attempt fails, all n attempts are used and the call returns the
   * fallback value's conversion, or raises the last attempt's exception.
   */
  lemma {:induction false} ExhaustedAttempts(f: nat -> Result<ApiResponse>, n: int, fb: Option<FallbackValue>,
                                             fbId: string, pick: nat, k: nat)
    requires 1 <= k <= n
    requires forall j :: k <= j <= n ==> f(j).Err?
    ensures var o := RetryLoop(f, n, false, fb, fbId, pick, k);
      o.attempts == n && o.result == (if fb.Some? then Fallback(fb.value, fbId, pick) else f(n))
    decreases n - k
  {
    RetryLoopStep(f, n, fb, fbId, pick, k);
    if k < n {
      ExhaustedAttempts(f, n, fb, fbId, pick, k + 1);
    }
  }

  /** With tool_choice "none" no tool call is ever accepted, by either provider. */
  lemma NoneChoiceRejectsToolCalls(kind: ProviderKind, res: Resolved, model: string, name: Json, args: ToolArgs, id: Json, w: World)
    requires res.toolChoice == Some(ChoiceNone)
    ensures CheckToolCall(MakeRequest(kind, res, model), DeclaredTools(kind, res), name, args, id, w).Err?
  {
  }

  // ----------------------------------------------------- provider objects

  /** The HTTP client session; `closed` is what the retry loop checks. */
  class Session {
    var closed: bool

    constructor()
      ensures !closed
    {
      closed := false;
    }

    method Close()
      modifies this
      ensures closed
    {
      closed := true;
    }
  }

  class Provider {
    const kind: ProviderKind
    const apiKey: string
    const url: string
    var params: Params
    var client: Session

    /** A provider with nothing bound and a fresh open session; an empty url means the default. */
    constructor(kind: ProviderKind, apiKey: string, url: Option<string>)
      ensures this.kind == kind && this.apiKey == apiKey
      ensures this.url == (if url.Some? && url.value != "" then url.value else DefaultUrl(kind))
      ensures params == NoParams && fresh(client) && !client.closed
    {
      this.kind := kind;
      this.apiKey := apiKey;
      this.url := if url.Some? && url.value != "" then url.value else DefaultUrl(kind);
      params := NoParams;
      client := new Session();
    }

    constructor Copy(kind: ProviderKind, apiKey: string, url: string, params: Params, client: Session)
      ensures this.kind == kind && this.apiKey == apiKey && this.url == url
      ensures this.params == params && this.client == client
    {
      this.kind := kind;
      this.apiKey := apiKey;
      this.url := url;
      this.params := params;
      this.client := client;
    }

    /**
     * with_params: a new provider whose named parameters are overridden. The
     * receiver is unchanged, and the copy shares the receiver's session, so
     * closing either closes both.
     */
    method WithParams(o: Params, names: set<ParamName>) returns (out: Provider)
      ensures fresh(out)
      ensures out.kind == kind && out.apiKey == apiKey && out.url == url
      ensures out.params == Override(params, o, names)
      ensures out.client == client
    {
      out := new Provider.Copy(kind, apiKey, url, Override(params, o, names), client);
    }

    /** acall on this provider; `w` is the service and the sources of nondeterminism. */
    method Acall(call: Params, w: World) returns (r: Result<ApiResponse>, attempts: nat)
      ensures CallOutcome(r, attempts) == CallSpec(kind, params, call, client.closed, w)
    {
      var res := Resolve(params, call);
      if res.model.None? || res.model.value !in Models(kind) {
        return Err(AssertionError), 0;
      }
      if res.structured.Some? {
        return Err(NotImplementedError), 0;
      }
      var req := MakeRequest(kind, res, res.model.value);
      var attempt: nat := 1;
      while attempt <= res.nRetries
        invariant 1 <= attempt
        invariant res.nRetries >= 1 ==> attempt <= res.nRetries
        invariant RetryLoop(AttemptFn(kind, res, req, w), res.nRetries, client.closed, res.fallback, w.fallbackId, w.pick, attempt)
                  == CallSpec(kind, params, call, client.closed, w)
        decreases res.nRetries - attempt
      {
        if client.closed {
          r := Fallback(FbText(GoodbyeKey), w.fallbackId, w.pick);
          attempts := attempt - 1;
          return;
        }
        var out := Attempt(kind, res, req, w, attempt);
        if out.Ok? {
          return out, attempt;
        }
        if attempt < res.nRetries {
          // asyncio.sleep(retry_delay)
          attempt := attempt + 1;
        } else {
          r := if res.fallback.Some? then Fallback(res.fallback.value, w.fallbackId, w.pick) else out;
          attempts := attempt;
          return;
        }
      }
      r := Err(RuntimeError("All retry attempts failed"));
      attempts := attempt - 1;
    }

    /** aclose: closes the session. */
    method Aclose()
      modifies client
      ensures client.closed
    {
      client.Close();
    }
  }

  // ------------------------------------------------------------ strategies

  /**
   * FallbackStrategy's decision over the providers' outcomes, in order from `k`:
   * the first success, else the strategy's fallback value, else RuntimeError.
   */
  function Sequential(results: seq<Result<ApiResponse>>, k: nat, fb: Option<FallbackValue>, fbId: string, pick: nat)
    : Result<ApiResponse>
    decreases |results| - k
  {
    if k >= |results| then
      (if fb.Some? then Fallback(fb.value, fbId, pick) else Err(RuntimeError("All providers failed")))
    else if results[k].Ok? then results[k]
    else Sequential(results, k + 1, fb, fbId, pick)
  }

  /** One step of the decision: a success at `k` is taken, a failure passes to the next provider. */
  lemma SequentialStep(results: seq<Result<ApiResponse>>, k: nat, fb: Option<FallbackValue>, fbId: string, pick: nat)
    requires k < |results|
    ensures Sequential(results, k, fb, fbId, pick)
      == if results[k].Ok? then results[k] else Sequential(results, k + 1, fb, fbId, pick)
  {
  }

  lemma {:induction false} SequentialFirstSuccess(results: seq<Result<ApiResponse>>, k: nat, i: nat, fb: Option<FallbackValue>, fbId: string, pick: nat)
    requires k <= i < |results| && results[i].Ok?
    requires forall j :: k <= j < i ==> results[j].Err?
    ensures Sequential(results, k, fb, fbId, pick) == results[i]
    decreases i - k
  {
    if k < i {
      SequentialFirstSuccess(results, k + 1, i, fb, fbId, pick);
    }
  }

  lemma {:induction false} SequentialAllFailed(results: seq<Result<ApiResponse>>, k: nat, fb: Option<FallbackValue>, fbId: string, pick: nat)
    requires forall j :: k <= j < |results| ==> results[j].Err?
    ensures Sequential(results, k, fb, fbId, pick)
      == if fb.Some? then Fallback(fb.value, fbId, pick) else Err(RuntimeError("All providers failed"))
    decreases |results| - k
  {
    if k < |results| {
      SequentialAllFailed(results, k + 1, fb, fbId, pick);
    }
  }

  class FallbackStrategy {
    const providers: seq<Provider>
    const fallback: Option<FallbackValue>

    constructor(providers: seq<Provider>, fallback: Option<FallbackValue>)
      requires |providers| > 0
      ensures this.providers == providers && this.fallback == fallback
    {
      this.providers := providers;
      this.fallback := fallback;
    }

    /** Each provider's outcome for the same call; provider i sees world i. */
    function Outcomes(call: Params, worlds: nat -> World): (rs: seq<Result<ApiResponse>>)
      reads set i | 0 <= i < |providers| :: providers[i]
      reads set i | 0 <= i < |providers| :: providers[i].client
      ensures |rs| == |providers|
    {
      seq(|providers|, i reads providers, (set j | 0 <= j < |providers| :: providers[j]),
          (set j | 0 <= j < |providers| :: providers[j].client)
        => if 0 <= i < |providers| then
             CallSpec(providers[i].kind, providers[i].params, call, providers[i].client.closed, worlds(i)).result
           else Err(AssertionError))
    }

    /** acall: providers are tried in order, each with its own retries, until one succeeds. */
    method Acall(call: Params, worlds: nat -> World, fbId: string, pick: nat) returns (r: Result<ApiResponse>)
      ensures r == Sequential(Outcomes(call, worlds), 0, fallback, fbId, pick)
    {
      var i := 0;
      ghost var rs := Outcomes(call, worlds);
      while i < |providers|
        invariant 0 <= i <= |providers|
        invariant rs == Outcomes(call, worlds)
        invariant Sequential(rs, i, fallback, fbId, pick) == Sequential(rs, 0, fallback, fbId, pick)
      {
        var out, _ := providers[i].Acall(call, worlds(i));
        assert rs == Outcomes(call, worlds);
        assert out == rs[i];
        SequentialStep(rs, i, fallback, fbId, pick);
        if out.Ok? {
          assert out == Sequential(rs, 0, fallback, fbId, pick);
          return out;
        }
        i := i + 1;
      }
      if fallback.Some? {
        r := Fallback(fallback.value, fbId, pick);
      } else {
        r := Err(RuntimeError("All providers failed"));
      }
    }
  }

  /**
   * Strategy.__init__ on any provider list: an empty one fails the assertion,
   * otherwise the strategy keeps the list and the fallback value.
   */
  method NewFallbackStrategy(ps: seq<Provider>, fb: Option<FallbackValue>) returns (r: Result<FallbackStrategy>)
    ensures r.Ok? <==> |ps| > 0
    ensures r.Ok? ==> fresh(r.value) && r.value.providers == ps && r.value.fallback == fb
    ensures r.Err? ==> r.error == AssertionError
  {
    if |ps| == 0 {
      return Err(AssertionError);
    }
    var s := new FallbackStrategy(ps, fb);
    return Ok(s);
  }

  // -------------------------------------------------------------- registry

  datatype Accessor = AOpenAI | AOpenRouter | AGroq | ALangChain
  {
    function Key(): string
    {
      match this
      case AOpenAI => "openai"
      case AOpenRouter => "openrouter"
      case AGroq => "groq"
      case ALangChain => "langchain"
    }

    function ClassName(): string
    {
      match this
      case AOpenAI => "OpenAIProvider"
      case AOpenRouter => "OpenRouterProvider"
      case AGroq => "GroqProvider"
      case ALangChain => "LangChainAdapter"
    }
  }

  /** LLMAPI: providers registered under keyword names, in the order they were given. */
  class Registry {
    const names: seq<string>
    const providers: map<string, Provider>

    ghost predicate Valid()
    {
      (forall i, j :: 0 <= i < j < |names| ==> names[i] != names[j])
      && (forall n :: n in providers <==> n in names)
    }

    constructor(entries: seq<(string, Provider)>)
      requires forall i, j :: 0 <= i < j < |entries| ==> entries[i].0 != entries[j].0
      ensures Valid()
      ensures |names| == |entries| && forall i :: 0 <= i < |entries| ==> names[i] == entries[i].0
      ensures forall i :: 0 <= i < |entries| ==> providers[entries[i].0] == entries[i].1
    {
      names := seq(|entries|, i requires 0 <= i < |entries| => entries[i].0);
      providers := map e | e in entries :: e.0 := e.1;
      new;
      forall i | 0 <= i < |entries| ensures providers[entries[i].0] == entries[i].1 {
        var e := entries[i];
        assert e in entries;
        forall e' | e' in entries && e'.0 == e.0 ensures e' == e {
          var k :| 0 <= k < |entries| && entries[k] == e';
          assert k == i;
        }
      }
      forall n ensures n in providers <==> n in names {
        if n in names {
          var k :| 0 <= k < |names| && names[k] == n;
          assert entries[k] in entries;
        }
        if n in providers {
          var e :| e in entries && e.0 == n;
          var k :| 0 <= k < |entries| && entries[k] == e;
          assert names[k] == n;
        }
      }
    }

    /** The openai / openrouter / groq / langchain properties. */
    function Get(a: Accessor): (r: Result<Provider>)
      ensures r.Ok? <==> a.Key() in providers
      ensures r.Ok? ==> r.value == providers[a.Key()]
      ensures r.Err? ==> r.error == ValueError(a.ClassName() + " not found")
    {
      if a.Key() in providers then Ok(providers[a.Key()]) else Err(ValueError(a.ClassName() + " not found"))
    }

    /** The fallback factory: FallbackStrategy(providers, fallbackvalue). */
    method Fallback(ps: seq<Provider>, fb: Option<FallbackValue>) returns (r: Result<FallbackStrategy>)
      ensures r.Ok? <==> |ps| > 0
      ensures r.Ok? ==> fresh(r.value) && r.value.providers == ps && r.value.fallback == fb
      ensures r.Err? ==> r.error == AssertionError
    {
      r := NewFallbackStrategy(ps, fb);
    }

    ghost function Sessions(): set<Session>
      reads set n | n in providers :: providers[n]
    {
      set n | n in providers :: providers[n].client
    }

    /**
     * aclose: every provider is closed in order; one whose close raises
     * (`closeFails`) is logged and skipped. Returns the names of those.
     */
    method Aclose(closeFails: string -> bool) returns (failed: seq<string>)
      requires Valid()
      modifies Sessions()
      ensures forall n :: n in providers && !closeFails(n) ==> providers[n].client.closed
      ensures forall n :: n in providers && old(providers[n].client.closed) ==> providers[n].client.closed
      ensures forall n :: n in failed <==> n in names && closeFails(n)
    {
      failed := [];
      var i := 0;
      while i < |names|
        invariant 0 <= i <= |names|
        invariant forall k :: 0 <= k < i && !closeFails(names[k]) ==> providers[names[k]].client.closed
        invariant forall n :: n in providers && old(providers[n].client.closed) ==> providers[n].client.closed
        invariant forall n :: n in failed <==> n in names[..i] && closeFails(n)
      {
        var n := names[i];
        if closeFails(n) {
          failed := failed + [n];
        } else {
          providers[n].Aclose();
        }
        assert names[..i + 1] == names[..i] + [n];
        i := i + 1;
      }
      assert names[..i] == names;
      forall m | m in providers && !closeFails(m) ensures providers[m].client.closed {
        var k :| 0 <= k < |names| && names[k] == m;
      }
    }
  }
}
