// The older dynamic plot engine (backend/old/dpe.py): the plot-twist prompt
// built from the last lines of a transcript and a goal with bracketed name
// placeholders, and the roleplay formatting of the model's plot twist and
// reactions.
module OldDpe {
  import opened Wrappers
  import opened Json
  import PyStr
  import Prompts

  /** The prose templates of the prompt; their wording is a parameter of the model. */
  datatype Templates = Templates(prompt: string, json: string)

  /** The characters `format_rp_message` removes from the end of a message. */
  const TrailingPunctuation: set<char> := {'.', '!', '?', ',', ';', ':'}

  /**
   * `format_rp_message`: the stripped message without its trailing
   * punctuation, between asterisks. What lies between the asterisks is the
   * stripped message up to a tail made only of punctuation, and it neither
   * starts with whitespace nor ends with punctuation.
   */
  function FormatRpMessage(m: string): (r: string)
    ensures |r| >= 2 && r[0] == '*' && r[|r| - 1] == '*'
    ensures PyStr.StartsWith(PyStr.Strip(m), r[1..|r| - 1])
    ensures forall i :: |r| - 2 <= i < |PyStr.Strip(m)| ==> PyStr.Strip(m)[i] in TrailingPunctuation
    ensures |r| > 2 ==> r[|r| - 2] !in TrailingPunctuation && !PyStr.IsSpace(r[1])
  {
    var s := PyStr.Strip(m);
    var inner := PyStr.RStripSet(s, TrailingPunctuation);
    assert inner != [] ==> inner[0] == s[0];
    "*" + inner + "*"
  }

  /** A message with no surrounding whitespace and no trailing punctuation is only wrapped. */
  lemma RpMessageOfInner(m: string)
    requires PyStr.Trimmed(m) && (m == [] || m[|m| - 1] !in TrailingPunctuation)
    ensures FormatRpMessage(m) == "*" + m + "*"
  {
    PyStr.StripNoop(m);
  }

  // --------------------------------------------------------------- prompt

  /** `.replace('[username]', username).replace('[botname]', botname)` */
  function BracketNames(s: string, username: string, botname: string): string
  {
    PyStr.Replace(PyStr.Replace(s, "[username]", username, None), "[botname]", botname, None)
  }

  /** The goal after both rounds of placeholder replacement and stripping. */
  function Goal(goal: string, username: string, botname: string): (r: string)
    ensures PyStr.Trimmed(r)
  {
    var g := PyStr.Strip(BracketNames(goal, username, botname));
    PyStr.Strip(PyStr.Replace(PyStr.Replace(g, "[A]", username, None), "[B]", botname, None))
  }

  /** A goal without any of the four placeholders is only stripped. */
  lemma GoalWithoutPlaceholders(goal: string, username: string, botname: string)
    requires !PyStr.Contains(goal, "[username]") && !PyStr.Contains(goal, "[botname]")
    requires !PyStr.Contains(goal, "[A]") && !PyStr.Contains(goal, "[B]")
    ensures Goal(goal, username, botname) == PyStr.Strip(goal)
  {
    PyStr.ReplaceAbsent(goal, "[username]", username, None);
    PyStr.ReplaceAbsent(goal, "[botname]", botname, None);
    var g := PyStr.Strip(goal);
    PyStr.StripKeepsAbsent(goal, "[A]");
    PyStr.StripKeepsAbsent(goal, "[B]");
    PyStr.ReplaceAbsent(g, "[A]", username, None);
    PyStr.ReplaceAbsent(g, "[B]", botname, None);
    PyStr.StripIdempotent(goal);
  }

  /** The sections `build_prompt` computes before the final format. */
  datatype Sections = Sections(chat: string, goal: string, json: string)

  /**
   * The sections of the plot-twist prompt, once the transcript lines are
   * known: the last `n` lines (all of them for `n == 0`, since `[-0:]` is
   * the whole list) fenced but not stripped, the fenced goal, and the JSON
   * instructions with their name placeholders replaced.
   */
  function TaskSections(t: Templates, bracket: string, lines: seq<string>, goal: string, username: string,
                        botname: string, n: int): (r: Sections)
    ensures r.chat == Prompts.Fenced(bracket, PyStr.SliceFrom(lines, -n))
    ensures n == 0 ==> r.chat == Prompts.Fenced(bracket, lines)
    ensures r.goal == Prompts.Fenced(bracket, [Goal(goal, username, botname)])
    ensures PyStr.Trimmed(r.json)
  {
    Prompts.JoinFence(bracket, PyStr.SliceFrom(lines, -n));
    Prompts.JoinFence(bracket, [Goal(goal, username, botname)]);
    PyStr.SliceFromZero(lines);
    assert [bracket, Goal(goal, username, botname), bracket] == [bracket] + [Goal(goal, username, botname)] + [bracket];
    Sections(PyStr.Join("\n", [bracket] + PyStr.SliceFrom(lines, -n) + [bracket]),
             PyStr.Join("\n", [bracket, Goal(goal, username, botname), bracket]),
             PyStr.Strip(BracketNames(t.json, username, botname)))
  }

  /** The keyword arguments of the final `DPE_PROMPT.format`. */
  function TaskFields(s: Sections, username: string, botname: string): (r: map<string, string>)
    ensures "chat_context" in r && r["chat_context"] == s.chat
    ensures "goal" in r && r["goal"] == s.goal
    ensures "json_addition" in r && r["json_addition"] == s.json
    ensures "username" in r && r["username"] == username
    ensures "botname" in r && r["botname"] == botname
  {
    map[
      "chat_context" := s.chat,
      "goal" := s.goal,
      "username" := username,
      "botname" := botname,
      "json_addition" := s.json]
  }

  /** `build_prompt`: the whole prompt, or the exception it raises. */
  function Prompt(t: Templates, chat: seq<Json>, goal: string, username: string, botname: string,
                  bracketName: string, n: int): (r: Result<string>)
    ensures Prompts.BracketOf(bracketName).Err? ==> r == Err(AssertionError)
    ensures Prompts.BracketOf(bracketName).Ok? && Prompts.RoleLines(chat, username, botname, false, Prompts.SkipOthers).Err? ==>
      r == Err(Prompts.RoleLines(chat, username, botname, false, Prompts.SkipOthers).error)
    ensures r.Ok? ==> PyStr.Trimmed(r.value)
  {
    var bracket :- Prompts.BracketOf(bracketName);
    var lines :- Prompts.RoleLines(chat, username, botname, false, Prompts.SkipOthers);
    Prompts.Fill(t.prompt, TaskFields(TaskSections(t, bracket, lines, goal, username, botname, n), username, botname))
  }

  /** `build_prompt` with its message loop. */
  method BuildPrompt(t: Templates, chat: seq<Json>, goal: string, username: string, botname: string,
                     bracketName: string, n: int) returns (r: Result<string>)
    ensures r == Prompt(t, chat, goal, username, botname, bracketName, n)
  {
    var bracket := Prompts.BracketOf(bracketName);
    if bracket.Err? {
      return Err(AssertionError);
    }
    var lines := Prompts.CollectLines(chat, username, botname, false, Prompts.SkipOthers);
    if lines.Err? {
      return Err(lines.error);
    }
    var sections := TaskSections(t, bracket.value, lines.value, goal, username, botname, n);
    r := Prompts.Fill(t.prompt, TaskFields(sections, username, botname));
  }

  // ------------------------------------------------------------ plot twist

  /** `format_rp_message` applied to a value read from the reply; only a string has `strip`. */
  function RpOf(fmt: string -> string, v: Result<Json>): (r: Result<Json>)
    ensures v.Err? ==> r == Err(v.error)
    ensures v.Ok? && !v.value.JStr? ==> r == Err(Raised("AttributeError"))
    ensures v.Ok? && v.value.JStr? ==> r == Ok(JStr(fmt(v.value.s)))
  {
    var x :- v;
    if x.JStr? then Ok(JStr(fmt(x.s))) else Err(Raised("AttributeError"))
  }

  /** `j[outer][inner]` */
  function Path(j: Json, outer: string, inner: string): Result<Json>
  {
    var o :- Get(j, outer);
    Get(o, inner)
  }

  /** The keys the reply's post-processing writes. */
  predicate Rewritten(k: string)
  {
    k == "plot_twist" || k == "option1" || k == "option2" || k == "fallback_reaction"
  }

  /** All four values `plottwist` rewrites can be read and formatted. */
  predicate Formattable(fmt: string -> string, result: Json)
  {
    RpOf(fmt, Get(result, "plot_twist")).Ok? && RpOf(fmt, Path(result, "option1", "reaction1")).Ok?
    && RpOf(fmt, Path(result, "option2", "reaction2")).Ok? && RpOf(fmt, Get(result, "fallback_reaction")).Ok?
  }

  /** `result[key] = format_rp_message(result[key])` */
  method RewriteField(fmt: string -> string, fields: seq<(string, Json)>, key: string) returns (r: Result<seq<(string, Json)>>)
    ensures r.Ok? <==> RpOf(fmt, Get(JObj(fields), key)).Ok?
    ensures r.Err? ==> r.error == RpOf(fmt, Get(JObj(fields), key)).error
    ensures r.Ok? ==> Lookup(r.value, key) == Some(RpOf(fmt, Get(JObj(fields), key)).value)
    ensures r.Ok? ==> forall k :: k != key ==> Lookup(r.value, k) == Lookup(fields, k)
  {
    var v := RpOf(fmt, Get(JObj(fields), key));
    if v.Err? {
      return Err(v.error);
    }
    r := Ok(Assign(fields, key, v.value));
  }

  /** `result[outer][inner] = format_rp_message(result[outer][inner])` */
  method RewriteNested(fmt: string -> string, fields: seq<(string, Json)>, outer: string, inner: string)
    returns (r: Result<seq<(string, Json)>>)
    ensures r.Ok? <==> RpOf(fmt, Path(JObj(fields), outer, inner)).Ok?
    ensures r.Err? ==> r.error == RpOf(fmt, Path(JObj(fields), outer, inner)).error
    ensures r.Ok? ==> Path(JObj(r.value), outer, inner) == RpOf(fmt, Path(JObj(fields), outer, inner))
    ensures r.Ok? ==> forall k :: k != outer ==> Lookup(r.value, k) == Lookup(fields, k)
    ensures r.Ok? ==> forall k :: k != inner ==> Path(JObj(r.value), outer, k) == Path(JObj(fields), outer, k)
  {
    var v := RpOf(fmt, Path(JObj(fields), outer, inner));
    if v.Err? {
      return Err(v.error);
    }
    var o := Lookup(fields, outer).value;
    var o2 := JObj(Assign(o.fields, inner, v.value));
    r := Ok(Assign(fields, outer, o2));
  }

  /**
   * The in-place rewrites of `plottwist` on the reply's `json`, in source
   * order: the plot twist, the two reactions and the fallback reaction
   * become roleplay text, and every other key keeps its value.
   */
  method RewriteFields(fmt: string -> string, fields: seq<(string, Json)>) returns (r: Result<seq<(string, Json)>>)
    ensures r.Ok? <==> Formattable(fmt, JObj(fields))
    ensures RpOf(fmt, Get(JObj(fields), "plot_twist")).Err? ==> r == Err(RpOf(fmt, Get(JObj(fields), "plot_twist")).error)
    ensures r.Ok? ==> Get(JObj(r.value), "plot_twist") == RpOf(fmt, Get(JObj(fields), "plot_twist"))
    ensures r.Ok? ==> Path(JObj(r.value), "option1", "reaction1") == RpOf(fmt, Path(JObj(fields), "option1", "reaction1"))
    ensures r.Ok? ==> Path(JObj(r.value), "option2", "reaction2") == RpOf(fmt, Path(JObj(fields), "option2", "reaction2"))
    ensures r.Ok? ==> Get(JObj(r.value), "fallback_reaction") == RpOf(fmt, Get(JObj(fields), "fallback_reaction"))
    ensures r.Ok? ==> forall k :: !Rewritten(k) ==> Lookup(r.value, k) == Lookup(fields, k)
  {
    var f := RewriteField(fmt, fields, "plot_twist");
    if f.Err? {
      return Err(f.error);
    }
    Frame(f.value, fields, "option1");
    Frame(f.value, fields, "option2");
    Frame(f.value, fields, "fallback_reaction");
    assert Formattable(fmt, JObj(fields)) <==> (RpOf(fmt, Path(JObj(f.value), "option1", "reaction1")).Ok?
      && RpOf(fmt, Path(JObj(f.value), "option2", "reaction2")).Ok?
      && RpOf(fmt, Get(JObj(f.value), "fallback_reaction")).Ok?);
    r := RewriteAnswers(fmt, f.value);
    if r.Ok? {
      Frame(r.value, f.value, "plot_twist");
      forall k | !Rewritten(k)
        ensures Lookup(r.value, k) == Lookup(fields, k)
      {
        assert Lookup(r.value, k) == Lookup(f.value, k);
      }
    }
  }

  /** The rewrites after the plot twist: the two reactions, then the fallback reaction. */
  method RewriteAnswers(fmt: string -> string, fields: seq<(string, Json)>) returns (r: Result<seq<(string, Json)>>)
    ensures r.Ok? <==> (RpOf(fmt, Path(JObj(fields), "option1", "reaction1")).Ok?
      && RpOf(fmt, Path(JObj(fields), "option2", "reaction2")).Ok? && RpOf(fmt, Get(JObj(fields), "fallback_reaction")).Ok?)
    ensures r.Ok? ==> Path(JObj(r.value), "option1", "reaction1") == RpOf(fmt, Path(JObj(fields), "option1", "reaction1"))
    ensures r.Ok? ==> Path(JObj(r.value), "option2", "reaction2") == RpOf(fmt, Path(JObj(fields), "option2", "reaction2"))
    ensures r.Ok? ==> Get(JObj(r.value), "fallback_reaction") == RpOf(fmt, Get(JObj(fields), "fallback_reaction"))
    ensures r.Ok? ==> forall k :: k != "option1" && k != "option2" && k != "fallback_reaction" ==> Lookup(r.value, k) == Lookup(fields, k)
  {
    var h := RewriteReactions(fmt, fields);
    if h.Err? {
      return Err(h.error);
    }
    Frame(h.value, fields, "fallback_reaction");
    var k := RewriteField(fmt, h.value, "fallback_reaction");
    if k.Err? {
      return Err(k.error);
    }
    Frame(k.value, h.value, "option1");
    Frame(k.value, h.value, "option2");
    r := k;
  }

  /**
   * The post-processing of `plottwist`: the rewritten result, and `options`,
   * which holds exactly the two options and the fallback reaction of the
   * rewritten result.
   */
  method Rewrite(fmt: string -> string, result: Json) returns (r: Result<(Json, Json)>)
    ensures r.Ok? <==> Formattable(fmt, result)
    ensures RpOf(fmt, Get(result, "plot_twist")).Err? ==> r == Err(RpOf(fmt, Get(result, "plot_twist")).error)
    ensures r.Ok? ==> result.JObj? && r.value.0.JObj? && r.value.1.JObj?
    ensures r.Ok? ==> Get(r.value.0, "plot_twist") == RpOf(fmt, Get(result, "plot_twist"))
    ensures r.Ok? ==> Path(r.value.0, "option1", "reaction1") == RpOf(fmt, Path(result, "option1", "reaction1"))
    ensures r.Ok? ==> Path(r.value.0, "option2", "reaction2") == RpOf(fmt, Path(result, "option2", "reaction2"))
    ensures r.Ok? ==> Get(r.value.0, "fallback_reaction") == RpOf(fmt, Get(result, "fallback_reaction"))
    ensures r.Ok? ==> forall k :: !Rewritten(k) ==> Lookup(r.value.0.fields, k) == Lookup(result.fields, k)
    ensures r.Ok? ==> Keys(r.value.1.fields) == ["option1", "option2", "fallback_reaction"]
    ensures r.Ok? ==> Get(r.value.1, "option1") == Get(r.value.0, "option1")
    ensures r.Ok? ==> Get(r.value.1, "option2") == Get(r.value.0, "option2")
    ensures r.Ok? ==> Get(r.value.1, "fallback_reaction") == Get(r.value.0, "fallback_reaction")
  {
    if !result.JObj? {
      return Err(TypeError);
    }
    var f := RewriteFields(fmt, result.fields);
    if f.Err? {
      return Err(f.error);
    }
    r := Ok((JObj(f.value), JObj(Options(f.value))));
  }

  /** The two nested rewrites, of `option1.reaction1` and then `option2.reaction2`. */
  method RewriteReactions(fmt: string -> string, fields: seq<(string, Json)>) returns (r: Result<seq<(string, Json)>>)
    ensures r.Ok? <==> RpOf(fmt, Path(JObj(fields), "option1", "reaction1")).Ok? && RpOf(fmt, Path(JObj(fields), "option2", "reaction2")).Ok?
    ensures RpOf(fmt, Path(JObj(fields), "option1", "reaction1")).Err? ==> r == Err(RpOf(fmt, Path(JObj(fields), "option1", "reaction1")).error)
    ensures r.Ok? ==> Path(JObj(r.value), "option1", "reaction1") == RpOf(fmt, Path(JObj(fields), "option1", "reaction1"))
    ensures r.Ok? ==> Path(JObj(r.value), "option2", "reaction2") == RpOf(fmt, Path(JObj(fields), "option2", "reaction2"))
    ensures r.Ok? ==> forall k :: k != "option1" && k != "option2" ==> Lookup(r.value, k) == Lookup(fields, k)
  {
    var g := RewriteNested(fmt, fields, "option1", "reaction1");
    if g.Err? {
      return Err(g.error);
    }
    Frame(g.value, fields, "option2");
    var h := RewriteNested(fmt, g.value, "option2", "reaction2");
    if h.Err? {
      return Err(h.error);
    }
    Frame(h.value, g.value, "option1");
    r := h;
  }

  /** Two dicts that agree on a key agree on what is read through it. */
  lemma Frame(a: seq<(string, Json)>, b: seq<(string, Json)>, key: string)
    requires Lookup(a, key) == Lookup(b, key)
    ensures Get(JObj(a), key) == Get(JObj(b), key)
    ensures forall inner :: Path(JObj(a), key, inner) == Path(JObj(b), key, inner)
  {
  }

  /** `options`: the two options and the fallback reaction of the rewritten result. */
  function Options(fields: seq<(string, Json)>): (r: seq<(string, Json)>)
    requires Lookup(fields, "option1").Some? && Lookup(fields, "option2").Some?
    requires Lookup(fields, "fallback_reaction").Some?
    ensures Keys(r) == ["option1", "option2", "fallback_reaction"]
    ensures Get(JObj(r), "option1") == Get(JObj(fields), "option1")
    ensures Get(JObj(r), "option2") == Get(JObj(fields), "option2")
    ensures Get(JObj(r), "fallback_reaction") == Get(JObj(fields), "fallback_reaction")
  {
    var r := [("option1", Lookup(fields, "option1").value), ("option2", Lookup(fields, "option2").value),
              ("fallback_reaction", Lookup(fields, "fallback_reaction").value)];
    IndexOfKeyFirst(r, "option2", 1);
    IndexOfKeyFirst(r, "fallback_reaction", 2);
    r
  }

  /**
   * `plottwist`: only the "action" type is supported; the prompt is sent as
   * the only system message, and the `json` of the reply is post-processed.
   */
  method Plottwist(t: Templates, chat: seq<Json>, kind: string, goal: string, username: string, botname: string,
                   bracketName: string, n: int, run: string -> Result<Json>) returns (r: Result<(Json, Json)>)
    ensures kind != "action" ==> r == Err(AssertionError)
    ensures kind == "action" && Prompt(t, chat, goal, username, botname, bracketName, n).Err? ==>
      r == Err(Prompt(t, chat, goal, username, botname, bracketName, n).error)
    ensures r.Ok? ==> kind == "action" && Prompt(t, chat, goal, username, botname, bracketName, n).Ok?
    ensures r.Ok? ==> r.value.1.JObj?
    ensures r.Ok? ==> Keys(r.value.1.fields) == ["option1", "option2", "fallback_reaction"]
    ensures r.Ok? ==> var reply := run(Prompt(t, chat, goal, username, botname, bracketName, n).value);
      reply.Ok? && Get(reply.value, "json").Ok? && Formattable(FormatRpMessage, Get(reply.value, "json").value)
      && Get(r.value.0, "plot_twist") == RpOf(FormatRpMessage, Get(Get(reply.value, "json").value, "plot_twist"))
      && Get(r.value.1, "fallback_reaction") == RpOf(FormatRpMessage, Get(Get(reply.value, "json").value, "fallback_reaction"))
  {
    if kind != "action" {
      return Err(AssertionError);
    }
    var prompt := BuildPrompt(t, chat, goal, username, botname, bracketName, n);
    if prompt.Err? {
      return Err(prompt.error);
    }
    var reply := run(prompt.value);
    if reply.Err? {
      return Err(reply.error);
    }
    var result := Get(reply.value, "json");
    if result.Err? {
      return Err(result.error);
    }
    r := Rewrite(FormatRpMessage, result.value);
  }
}
