// The goal checker: the assessment prompt built from a chat transcript and
// a goal, and the normalisation of the model's JSON verdict (the echoed
// previous progress and the call-to-action field).
module Checker {
  import opened Wrappers
  import opened Json
  import PyStr
  import Prompts

  /** The prose templates of the prompt; their wording is a parameter of the model. */
  datatype Templates = Templates(
    prompt: string,
    goalProgress: string,
    badEnding: string,
    ctaMotivational: string,
    json: string)

  /** The JSON field the reply is asked for once there is a previous progress. */
  const CtaField: string := "'CTA': (str, <= 4 words),"

  /** The CTA entry of the JSON instructions: present iff there is a previous progress. */
  function JsonCtaField(previous: Json): (r: string)
    ensures r == "" <==> previous.JNull?
    ensures !previous.JNull? ==> r == CtaField
  {
    if previous.JNull? then "" else CtaField
  }

  /** The motivational CTA addition: "" when there is no previous progress. */
  function CtaAddition(t: Templates, previous: Json, username: string, botname: string): (r: Result<string>)
    ensures previous.JNull? ==> r == Ok("")
    ensures !previous.JNull? && PyStrOf(previous).Err? ==> r.Err?
    ensures r.Ok? ==> PyStr.Trimmed(r.value)
  {
    if previous.JNull? then Ok("")
    else
      var p :- PyStrOf(previous);
      Prompts.Fill(t.ctaMotivational, map["previous_progress" := p, "username" := username, "botname" := botname])
  }

  /** The sections `build_task` computes before the final format, in its order. */
  datatype Sections = Sections(
    chat: string,
    goal: string,
    goalProgress: string,
    badEnding: string,
    cta: string,
    json: string)

  /** The sections of the assessment prompt, once the transcript lines are known. */
  function TaskSections(t: Templates, bracket: string, lines: seq<string>, goal: string, username: string,
                        botname: string, window: int, previous: Json): (r: Result<Sections>)
    requires Prompts.IsBracket(bracket)
    ensures r.Ok? <==> (Prompts.FormatNames(goal, username, botname).Ok? && Prompts.FormatNames(t.goalProgress, username, botname).Ok?
                        && Prompts.FormatNames(t.badEnding, username, botname).Ok? && CtaAddition(t, previous, username, botname).Ok?
                        && Prompts.Fill(t.json, JsonFields(previous, username, botname)).Ok?)
    ensures r.Ok? ==> r.value.chat == Prompts.Fenced(bracket, Prompts.Window(lines, window))
    ensures r.Ok? ==> r.value.goal == Prompts.Fenced(bracket, [Prompts.FormatNames(goal, username, botname).value])
    ensures r.Ok? && previous.JNull? ==> r.value.cta == ""
  {
    Prompts.WrapShape(bracket, Prompts.Window(lines, window));
    var g :- Prompts.FormatNames(goal, username, botname);
    Prompts.WrapShape(bracket, [g]);
    var goalProgress :- Prompts.FormatNames(t.goalProgress, username, botname);
    var badEnding :- Prompts.FormatNames(t.badEnding, username, botname);
    var cta :- CtaAddition(t, previous, username, botname);
    var json :- Prompts.Fill(t.json, JsonFields(previous, username, botname));
    Ok(Sections(Prompts.Wrap(bracket, Prompts.Window(lines, window)), Prompts.Wrap(bracket, [g]),
                goalProgress, badEnding, cta, json))
  }

  /** The keyword arguments of the final `GOAL_CHECKER_PROMPT.format`. */
  function TaskFields(s: Sections, username: string, botname: string): (r: map<string, string>)
    ensures "chat_context" in r && r["chat_context"] == s.chat
    ensures "goal" in r && r["goal"] == s.goal
    ensures "cta_motivational_addition" in r && r["cta_motivational_addition"] == s.cta
    ensures "json_addition" in r && r["json_addition"] == s.json
  {
    map[
      "chat_context" := s.chat,
      "goal" := s.goal,
      "username" := username,
      "botname" := botname,
      "goal_progress_addition" := s.goalProgress,
      "bad_ending_addition" := s.badEnding,
      "cta_motivational_addition" := s.cta,
      "json_addition" := s.json]
  }

  /** The fields the JSON instructions are formatted with. */
  function JsonFields(previous: Json, username: string, botname: string): (r: map<string, string>)
    ensures "cta_motivational_addition" in r
    ensures r["cta_motivational_addition"] == "" <==> previous.JNull?
  {
    map["username" := username, "botname" := botname, "cta_motivational_addition" := JsonCtaField(previous)]
  }

  /** `build_task`: the whole prompt, or the exception it raises. */
  function Task(t: Templates, chat: seq<Json>, goal: string, username: string, botname: string,
                bracketName: string, window: int, previous: Json): (r: Result<string>)
    ensures Prompts.BracketOf(bracketName).Err? ==> r == Err(AssertionError)
    ensures Prompts.BracketOf(bracketName).Ok? && Prompts.RoleLines(chat, username, botname, true, Prompts.RejectOthers).Err? ==>
      r == Err(Prompts.RoleLines(chat, username, botname, true, Prompts.RejectOthers).error)
    ensures r.Ok? ==> PyStr.Trimmed(r.value)
  {
    var bracket :- Prompts.BracketOf(bracketName);
    var lines :- Prompts.RoleLines(chat, username, botname, true, Prompts.RejectOthers);
    var sections :- TaskSections(t, bracket, lines, goal, username, botname, window, previous);
    Prompts.Fill(t.prompt, TaskFields(sections, username, botname))
  }

  /** `build_task` with its message loop. */
  method BuildTask(t: Templates, chat: seq<Json>, goal: string, username: string, botname: string,
                   bracketName: string, window: int, previous: Json) returns (r: Result<string>)
    ensures r == Task(t, chat, goal, username, botname, bracketName, window, previous)
  {
    var bracket := Prompts.BracketOf(bracketName);
    if bracket.Err? {
      return Err(AssertionError);
    }
    var lines := Prompts.CollectLines(chat, username, botname, true, Prompts.RejectOthers);
    if lines.Err? {
      return Err(lines.error);
    }
    var sections := TaskSections(t, bracket.value, lines.value, goal, username, botname, window, previous);
    if sections.Err? {
      return Err(sections.error);
    }
    r := Prompts.Fill(t.prompt, TaskFields(sections.value, username, botname));
  }

  // ------------------------------------------------------ the verdict

  /** A CTA the checker treats as absent: blank, or "none"/"null" in any case. */
  predicate BlankCta(s: string)
  {
    PyStr.Strip(s) == "" || PyStr.Strip(PyStr.Lower(s)) in {"none", "null"}
  }

  /** What the normalised CTA is: None when missing, None, or blank, else the reply's text. */
  function CtaOf(fields: seq<(string, Json)>): Json
  {
    var cta: Option<Json> := Lookup(fields, "CTA");
    match cta
    case Some(JStr(s)) => if BlankCta(s) then JNull else JStr(s)
    case _ => JNull
  }

  /** The CTA value can be normalised: it is missing, None or a string. */
  predicate CtaReadable(fields: seq<(string, Json)>)
  {
    Lookup(fields, "CTA").None? || Lookup(fields, "CTA").value.JNull? || Lookup(fields, "CTA").value.JStr?
  }

  /**
   * The CTA clean-up of `checker`/`achecker`: a missing, None or blank CTA
   * becomes None; a CTA that is not a string has no `strip`.
   */
  function ClearCta(f: seq<(string, Json)>): (r: Result<seq<(string, Json)>>)
    ensures r.Ok? <==> CtaReadable(f)
    ensures !CtaReadable(f) ==> r == Err(Raised("AttributeError"))
    ensures r.Ok? ==> Lookup(r.value, "CTA") == Some(CtaOf(f))
    ensures r.Ok? ==> forall k :: k != "CTA" ==> Lookup(r.value, k) == Lookup(f, k)
  {
    var cta: Option<Json> := Lookup(f, "CTA");
    match cta
    case None => Ok(Assign(f, "CTA", JNull))
    case Some(JNull) => Ok(Assign(f, "CTA", JNull))
    case Some(JStr(s)) => if BlankCta(s) then Ok(Assign(f, "CTA", JNull)) else Ok(f)
    case Some(_) => Err(Raised("AttributeError"))
  }

  /**
   * The post-processing of `checker`/`achecker` on the reply content: echo
   * the previous progress and clear a missing or blank CTA. Another key is
   * left as the reply has it.
   */
  function Normalize(content: Json, previous: Json): (r: Result<Json>)
    ensures !content.JObj? ==> r == Err(TypeError)
    ensures content.JObj? ==> (r.Ok? <==> CtaReadable(content.fields))
    ensures content.JObj? && !CtaReadable(content.fields) ==> r == Err(Raised("AttributeError"))
    ensures r.Ok? ==> r.value.JObj?
    ensures r.Ok? ==> Lookup(r.value.fields, "previous_progress_towards_goal") == Some(previous)
    ensures r.Ok? ==> Lookup(r.value.fields, "CTA") == Some(CtaOf(content.fields))
    ensures r.Ok? ==> forall k :: k != "CTA" && k != "previous_progress_towards_goal" ==>
      Lookup(r.value.fields, k) == Lookup(content.fields, k)
  {
    match content
    case JObj(fields) =>
      var f := Echo(fields, previous);
      var g :- ClearCta(f);
      Ok(JObj(g))
    case _ => Err(TypeError)
  }

  /** `content["previous_progress_towards_goal"] = previous`, which leaves the CTA alone. */
  function Echo(fields: seq<(string, Json)>, previous: Json): (r: seq<(string, Json)>)
    ensures Lookup(r, "previous_progress_towards_goal") == Some(previous)
    ensures forall k :: k != "previous_progress_towards_goal" ==> Lookup(r, k) == Lookup(fields, k)
    ensures CtaOf(r) == CtaOf(fields) && (CtaReadable(r) <==> CtaReadable(fields))
  {
    var f := Assign(fields, "previous_progress_towards_goal", previous);
    assert Lookup(f, "CTA") == Lookup(fields, "CTA");
    f
  }

  /** Normalising a normalised verdict again changes nothing. */
  lemma NormalizeIdempotent(content: Json, previous: Json)
    requires Normalize(content, previous).Ok?
    ensures Normalize(Normalize(content, previous).value, previous) == Normalize(content, previous)
  {
    var r := Normalize(content, previous).value;
    AssignSame(r.fields, "previous_progress_towards_goal", previous);
    assert Echo(r.fields, previous) == r.fields;
    ClearCtaDone(r.fields);
  }

  /** A cleared CTA is left as it is. */
  lemma ClearCtaDone(f: seq<(string, Json)>)
    requires Lookup(f, "CTA").Some? && !(Lookup(f, "CTA").value.JStr? && BlankCta(Lookup(f, "CTA").value.s))
    requires Lookup(f, "CTA").value.JNull? || Lookup(f, "CTA").value.JStr?
    ensures ClearCta(f) == Ok(f)
  {
    if Lookup(f, "CTA") == Some(JNull) {
      AssignSame(f, "CTA", JNull);
    }
  }

  /** `checker`/`achecker` on the reply of the model call: its `content`, normalised. */
  function Verdict(reply: Result<Json>, previous: Json): (r: Result<Json>)
    ensures reply.Err? ==> r == Err(reply.error)
    ensures r.Ok? ==> reply.Ok? && Get(reply.value, "content").Ok?
    ensures r.Ok? ==> Normalize(Get(reply.value, "content").value, previous) == r
  {
    var body :- reply;
    var content :- Get(body, "content");
    Normalize(content, previous)
  }

  /** `checker`: the prompt, sent as the only system message, and the normalised verdict. */
  method Check(t: Templates, chat: seq<Json>, goal: string, username: string, botname: string,
               bracketName: string, window: int, previous: Json, call: string -> Result<Json>)
    returns (r: Result<Json>)
    ensures Task(t, chat, goal, username, botname, bracketName, window, previous).Err? ==>
      r == Err(Task(t, chat, goal, username, botname, bracketName, window, previous).error)
    ensures Task(t, chat, goal, username, botname, bracketName, window, previous).Ok? ==>
      r == Verdict(call(Task(t, chat, goal, username, botname, bracketName, window, previous).value), previous)
  {
    var task := BuildTask(t, chat, goal, username, botname, bracketName, window, previous);
    if task.Err? {
      return Err(task.error);
    }
    r := Verdict(call(task.value), previous);
  }
}
