// The older goal checker (backend/old/checker.py): the assessment prompt
// built from the whole transcript and the goal, and the renaming of the
// model's JSON verdict into the returned dict.
module OldChecker {
  import opened Wrappers
  import opened Json
  import PyStr
  import Prompts

  /** The prose templates of the prompt; their wording is a parameter of the model. */
  datatype Templates = Templates(prompt: string, hint: string, goalProgress: string, json: string)

  /** The sections `build_prompt` computes before the final format, in its order. */
  datatype Sections = Sections(chat: string, goal: string, hint: string, goalProgress: string, json: string)

  /**
   * The sections of the assessment prompt, once the transcript lines are
   * known: the whole chat and the goal are fenced between bracket lines, the
   * additions have the names filled in.
   */
  function TaskSections(t: Templates, bracket: string, lines: seq<string>, goal: string, username: string,
                        botname: string): (r: Result<Sections>)
    requires Prompts.IsBracket(bracket)
    ensures r.Ok? <==> (Prompts.FormatNames(goal, username, botname).Ok? && Prompts.FormatNames(t.hint, username, botname).Ok?
                        && Prompts.FormatNames(t.goalProgress, username, botname).Ok?
                        && Prompts.FormatNames(t.json, username, botname).Ok?)
    ensures r.Ok? ==> r.value.chat == Prompts.Fenced(bracket, lines)
    ensures r.Ok? ==> r.value.goal == Prompts.Fenced(bracket, [Prompts.FormatNames(goal, username, botname).value])
  {
    Prompts.WrapShape(bracket, lines);
    var g :- Prompts.FormatNames(goal, username, botname);
    Prompts.WrapShape(bracket, [g]);
    var hint :- Prompts.FormatNames(t.hint, username, botname);
    var goalProgress :- Prompts.FormatNames(t.goalProgress, username, botname);
    var json :- Prompts.FormatNames(t.json, username, botname);
    Ok(Sections(Prompts.Wrap(bracket, lines), Prompts.Wrap(bracket, [g]), hint, goalProgress, json))
  }

  /** The keyword arguments of the final `GOAL_CHECKER_PROMPT.format`. */
  function TaskFields(s: Sections, username: string, botname: string): (r: map<string, string>)
    ensures "chat_context" in r && r["chat_context"] == s.chat
    ensures "goal" in r && r["goal"] == s.goal
    ensures "hint_addition" in r && r["hint_addition"] == s.hint
    ensures "json_addition" in r && r["json_addition"] == s.json
  {
    map[
      "chat_context" := s.chat,
      "goal" := s.goal,
      "username" := username,
      "botname" := botname,
      "hint_addition" := s.hint,
      "goal_progress_addition" := s.goalProgress,
      "json_addition" := s.json]
  }

  /**
   * `build_prompt`: the whole prompt, or the exception it raises. The bracket
   * is checked first; messages that are neither the user's nor the bot's are
   * skipped, and no window is applied.
   */
  function Task(t: Templates, chat: seq<Json>, goal: string, username: string, botname: string,
                bracketName: string): (r: Result<string>)
    ensures Prompts.BracketOf(bracketName).Err? ==> r == Err(AssertionError)
    ensures Prompts.BracketOf(bracketName).Ok? && Prompts.RoleLines(chat, username, botname, false, Prompts.SkipOthers).Err? ==>
      r == Err(Prompts.RoleLines(chat, username, botname, false, Prompts.SkipOthers).error)
    ensures r.Ok? ==> Prompts.RoleLines(chat, username, botname, false, Prompts.SkipOthers).Ok?
    ensures r.Ok? ==> PyStr.Trimmed(r.value)
  {
    var bracket :- Prompts.BracketOf(bracketName);
    var lines :- Prompts.RoleLines(chat, username, botname, false, Prompts.SkipOthers);
    var sections :- TaskSections(t, bracket, lines, goal, username, botname);
    Prompts.Fill(t.prompt, TaskFields(sections, username, botname))
  }

  /** `build_prompt` with its message loop. */
  method BuildTask(t: Templates, chat: seq<Json>, goal: string, username: string, botname: string,
                   bracketName: string) returns (r: Result<string>)
    ensures r == Task(t, chat, goal, username, botname, bracketName)
  {
    var bracket := Prompts.BracketOf(bracketName);
    if bracket.Err? {
      return Err(AssertionError);
    }
    var lines := Prompts.CollectLines(chat, username, botname, false, Prompts.SkipOthers);
    if lines.Err? {
      return Err(lines.error);
    }
    var sections := TaskSections(t, bracket.value, lines.value, goal, username, botname);
    if sections.Err? {
      return Err(sections.error);
    }
    r := Prompts.Fill(t.prompt, TaskFields(sections.value, username, botname));
  }

  // ------------------------------------------------------ the verdict

  /** The keys of the reply's `json` and the names `checker` returns them under, in order. */
  const Renames: seq<(string, string)> := [
    ("is_goal_complete", "isGoalComplete"),
    ("progress_towards_goal", "goalProgress"),
    ("hint_how_to_achieve_goal", "hintHowToAchieveGoal"),
    ("explain_your_decision", "LLMexplainDecision")]

  /** The dict `checker` returns: the four verdict fields under their new names. */
  function Output(result: Json): Result<Json>
  {
    Project(result, Renames)
  }

  /**
   * The returned dict has exactly the four new keys, in this order; it is
   * built when the reply has all four fields, and a missing one raises
   * `KeyError`.
   */
  lemma OutputShape(result: Json)
    ensures Output(result).Ok? <==> (Get(result, "is_goal_complete").Ok? && Get(result, "progress_towards_goal").Ok?
                                     && Get(result, "hint_how_to_achieve_goal").Ok? && Get(result, "explain_your_decision").Ok?)
    ensures Output(result).Err? ==> Output(result) == Err(if result.JObj? then KeyError else TypeError)
    ensures Output(result).Ok? ==> Output(result).value.JObj?
    ensures Output(result).Ok? ==>
      Keys(Output(result).value.fields) == ["isGoalComplete", "goalProgress", "hintHowToAchieveGoal", "LLMexplainDecision"]
  {
    var r := Project(result, Renames);
    assert (r.Ok? <==> forall i :: 0 <= i < |Renames| ==> Get(result, Renames[i].0).Ok?);
    if r.Ok? {
      assert Get(result, Renames[0].0).Ok? && Get(result, Renames[1].0).Ok?;
      assert Get(result, Renames[2].0).Ok? && Get(result, Renames[3].0).Ok?;
      assert Keys(r.value.fields) == ["isGoalComplete", "goalProgress", "hintHowToAchieveGoal", "LLMexplainDecision"];
    } else if result.JObj? {
      var i :| 0 <= i < |Renames| && Get(result, Renames[i].0).Err?;
      assert i == 0 || i == 1 || i == 2 || i == 3;
    }
  }

  /** Each returned field holds the reply's field it renames. */
  lemma OutputValues(result: Json)
    requires Output(result).Ok?
    ensures Get(Output(result).value, "isGoalComplete") == Get(result, "is_goal_complete")
    ensures Get(Output(result).value, "goalProgress") == Get(result, "progress_towards_goal")
    ensures Get(Output(result).value, "hintHowToAchieveGoal") == Get(result, "hint_how_to_achieve_goal")
    ensures Get(Output(result).value, "LLMexplainDecision") == Get(result, "explain_your_decision")
  {
    ProjectGet(result, Renames, 0);
    ProjectGet(result, Renames, 1);
    ProjectGet(result, Renames, 2);
    ProjectGet(result, Renames, 3);
  }

  /** `checker` on the reply of the model call: the renamed fields of its `json`. */
  function Verdict(reply: Result<Json>): (r: Result<Json>)
    ensures reply.Err? ==> r == Err(reply.error)
    ensures reply.Ok? && Get(reply.value, "json").Err? ==> r == Err(Get(reply.value, "json").error)
    ensures reply.Ok? && Get(reply.value, "json").Ok? ==> r == Output(Get(reply.value, "json").value)
  {
    var body :- reply;
    var result :- Get(body, "json");
    Output(result)
  }

  /** `checker`: the prompt, sent as the only system message, and the verdict of the reply. */
  method Check(t: Templates, chat: seq<Json>, goal: string, username: string, botname: string, bracketName: string,
               run: string -> Result<Json>) returns (r: Result<Json>)
    ensures Task(t, chat, goal, username, botname, bracketName).Err? ==>
      r == Err(Task(t, chat, goal, username, botname, bracketName).error)
    ensures Task(t, chat, goal, username, botname, bracketName).Ok? ==>
      r == Verdict(run(Task(t, chat, goal, username, botname, bracketName).value))
  {
    var task := BuildTask(t, chat, goal, username, botname, bracketName);
    if task.Err? {
      return Err(task.error);
    }
    r := Verdict(run(task.value));
  }
}
