// backend/openrouterapi.py: the retry decorator and the payload and result
// shapes of call/acall. The sync and async wrappers run the same loop; the
// HTTP post is an oracle whose i-th answer to a payload is a parameter.
module OpenRouter {
  import opened Wrappers
  import opened Json

  /** What a wrapped call returned or raised, and how many times it called the function. */
  datatype Wrapped = Wrapped(result: Result<Json>, calls: nat)

  /**
   * retry(max_retries) from counter value `retries`: on a failure the counter
   * is bumped and the exception re-raised once it reaches max_retries; if the
   * loop is never entered one last, unguarded call is made.
   */
  function RetrySpec(f: nat -> Result<Json>, maxRetries: int, retries: nat): Wrapped
    decreases if maxRetries > retries then maxRetries - retries else 0
  {
    if retries < maxRetries then
      if f(retries).Ok? then Wrapped(f(retries), retries + 1)
      else if retries + 1 >= maxRetries then Wrapped(f(retries), retries + 1)
      else RetrySpec(f, maxRetries, retries + 1)
    else Wrapped(f(retries), retries + 1)
  }

  /** The wrapper's while loop, counting retries. */
  method RetryWrapper(f: nat -> Result<Json>, maxRetries: int) returns (r: Result<Json>, calls: nat)
    ensures Wrapped(r, calls) == RetrySpec(f, maxRetries, 0)
  {
    var retries := 0;
    while retries < maxRetries
      invariant RetrySpec(f, maxRetries, 0) == RetrySpec(f, maxRetries, retries)
      decreases maxRetries - retries
    {
      var out := f(retries);
      if out.Ok? {
        return out, retries + 1;
      }
      retries := retries + 1;
      if retries >= maxRetries {
        return out, retries;
      }
    }
    return f(retries), retries + 1;
  }

  /**
   * With max_retries >= 1: at most max_retries calls; a success is the first
   * successful call, and a failure re-raises the error of call number max_retries.
   */
  lemma {:induction false} RetryBounded(f: nat -> Result<Json>, maxRetries: int, retries: nat)
    requires 0 <= retries < maxRetries
    ensures var w := RetrySpec(f, maxRetries, retries);
      retries < w.calls <= maxRetries
      && w.result == f(w.calls - 1)
      && (forall i :: retries <= i < w.calls - 1 ==> f(i).Err?)
      && (w.result.Err? ==> w.calls == maxRetries)
    decreases maxRetries - retries
  {
    if f(retries).Err? && retries + 1 < maxRetries {
      RetryBounded(f, maxRetries, retries + 1);
    }
  }

  /** With max_retries <= 0 the loop never runs and exactly one unguarded call is made. */
  lemma NoRetriesCallsOnce(f: nat -> Result<Json>, maxRetries: int)
    requires maxRetries <= 0
    ensures RetrySpec(f, maxRetries, 0) == Wrapped(f(0), 1)
  {
  }

  /** The decorator's argument at both call sites. */
  const DefaultMaxRetries := 3

  /** The payload dict of call/acall. */
  function Payload(model: string, messages: Json, temperature: real, maxTokens: int, jsonMode: bool)
    : seq<(string, Json)>
  {
    [("model", JStr(model)), ("messages", messages), ("temperature", JReal(temperature)), ("max_tokens", JInt(maxTokens))]
    + (if jsonMode then [("response_format", JObj([("type", JStr("json_object"))]))] else [])
  }

  /** The payload's keys, in order: the response format is there exactly in JSON mode. */
  lemma PayloadKeys(model: string, messages: Json, temperature: real, maxTokens: int, jsonMode: bool)
    ensures Keys(Payload(model, messages, temperature, maxTokens, jsonMode))
      == ["model", "messages", "temperature", "max_tokens"] + (if jsonMode then ["response_format"] else [])
  {
    var p := Payload(model, messages, temperature, maxTokens, jsonMode);
    var expected: seq<string> := ["model", "messages", "temperature", "max_tokens"] + (if jsonMode then ["response_format"] else []);
    assert |Keys(p)| == |expected|;
    assert forall k :: 0 <= k < |p| ==> Keys(p)[k] == expected[k];
  }

  /** The payload carries the call's arguments, and the JSON response format only in JSON mode. */
  lemma PayloadValues(model: string, messages: Json, temperature: real, maxTokens: int, jsonMode: bool)
    ensures var p := Payload(model, messages, temperature, maxTokens, jsonMode);
      && Lookup(p, "model") == Some(JStr(model)) && Lookup(p, "messages") == Some(messages)
      && Lookup(p, "temperature") == Some(JReal(temperature)) && Lookup(p, "max_tokens") == Some(JInt(maxTokens))
      && Lookup(p, "response_format") == (if jsonMode then Some(JObj([("type", JStr("json_object"))])) else None)
  {
    var p := Payload(model, messages, temperature, maxTokens, jsonMode);
    IndexOfKeyFirst(p, "model", 0);
    IndexOfKeyFirst(p, "messages", 1);
    IndexOfKeyFirst(p, "temperature", 2);
    IndexOfKeyFirst(p, "max_tokens", 3);
    if jsonMode {
      IndexOfKeyFirst(p, "response_format", 4);
    }
  }

  /** The reply: content (JSON-decoded in JSON mode) and completion_tokens. */
  function Reply(body: Json, jsonMode: bool, loads: string -> Result<Json>): (r: Result<Json>)
    ensures r.Ok? ==> r.value.JObj? && Keys(r.value.fields) == ["content", "completion_tokens"]
  {
    var choices :- Get(body, "choices");
    var first :- At(choices, 0);
    var message :- Get(first, "message");
    var raw :- Get(message, "content");
    var content :- if !jsonMode then Ok(raw) else if raw.JStr? then loads(raw.s) else Err(TypeError);
    var usage :- Get(body, "usage");
    var tokens :- Get(usage, "completion_tokens");
    Ok(JObj([("content", content), ("completion_tokens", tokens)]))
  }

  /** In JSON mode the content is the decoded reply text; otherwise it is the raw value. */
  lemma ReplyContent(body: Json, jsonMode: bool, loads: string -> Result<Json>)
    requires Reply(body, jsonMode, loads).Ok?
    ensures var raw := Lookup(Lookup(At(Lookup(body.fields, "choices").value, 0).value.fields, "message").value.fields,
                              "content").value;
      Lookup(Reply(body, jsonMode, loads).value.fields, "content")
        == Some(if jsonMode then loads(raw.s).value else raw)
  {
  }

  /** One attempt of call: post the payload (the i-th response to it) and read the reply. */
  function Attempt(post: (seq<(string, Json)>, nat) -> Result<Json>, payload: seq<(string, Json)>, jsonMode: bool,
                   loads: string -> Result<Json>): nat -> Result<Json>
  {
    (i: nat) => match post(payload, i)
                case Err(e) => Err(e)
                case Ok(body) => Reply(body, jsonMode, loads)
  }

  /** call / acall: the payload built once, and the attempts under retry(max_retries=3). */
  method Call(model: string, messages: Json, temperature: real, maxTokens: int, jsonMode: bool,
              post: (seq<(string, Json)>, nat) -> Result<Json>, loads: string -> Result<Json>)
    returns (r: Result<Json>, calls: nat)
    ensures var attempt := Attempt(post, Payload(model, messages, temperature, maxTokens, jsonMode), jsonMode, loads);
      && 1 <= calls <= DefaultMaxRetries
      && r == attempt(calls - 1)
      && (forall i :: 0 <= i < calls - 1 ==> attempt(i).Err?)
      && (r.Err? ==> calls == DefaultMaxRetries)
  {
    var payload := Payload(model, messages, temperature, maxTokens, jsonMode);
    RetryBounded(Attempt(post, payload, jsonMode, loads), DefaultMaxRetries, 0);
    r, calls := RetryWrapper(Attempt(post, payload, jsonMode, loads), DefaultMaxRetries);
  }
}
