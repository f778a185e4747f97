// The post-session analyser: the analysis prompt built from the whole
// transcript and the goal, and the model's JSON analysis.
module PostAnalyser {
  import opened Wrappers
  import opened Json
  import PyStr
  import Prompts

  /** The prose templates of the prompt; their wording is a parameter of the model. */
  datatype Templates = Templates(prompt: string, score: string, radar: string, feedback: string, json: string)

  /** The sections `build_task` computes before the final format, in its order. */
  datatype Sections = Sections(chat: string, goal: string, score: string, radar: string, feedback: string, json: string)

  /** The fields the score, radar and feedback additions are formatted with. */
  function SkillFields(username: string, botname: string, skill: string): map<string, string>
  {
    map["username" := username, "botname" := botname, "skill" := skill]
  }

  /** The sections of the analysis prompt, once the transcript lines are known. */
  function TaskSections(t: Templates, bracket: string, lines: seq<string>, goal: string, username: string,
                        botname: string, skill: string, window: int): (r: Result<Sections>)
    requires Prompts.IsBracket(bracket)
    ensures r.Ok? <==> (Prompts.FormatNames(goal, username, botname).Ok?
                        && Prompts.Fill(t.score, SkillFields(username, botname, skill)).Ok?
                        && Prompts.Fill(t.radar, SkillFields(username, botname, skill)).Ok?
                        && Prompts.Fill(t.feedback, SkillFields(username, botname, skill)).Ok?
                        && Prompts.FormatNames(t.json, username, botname).Ok?)
    ensures r.Ok? ==> r.value.chat == Prompts.Fenced(bracket, Prompts.Window(lines, window))
    ensures r.Ok? ==> r.value.goal == Prompts.Fenced(bracket, [Prompts.FormatNames(goal, username, botname).value])
  {
    Prompts.WrapShape(bracket, Prompts.Window(lines, window));
    var g :- Prompts.FormatNames(goal, username, botname);
    Prompts.WrapShape(bracket, [g]);
    var score :- Prompts.Fill(t.score, SkillFields(username, botname, skill));
    var radar :- Prompts.Fill(t.radar, SkillFields(username, botname, skill));
    var feedback :- Prompts.Fill(t.feedback, SkillFields(username, botname, skill));
    var json :- Prompts.FormatNames(t.json, username, botname);
    Ok(Sections(Prompts.Wrap(bracket, Prompts.Window(lines, window)), Prompts.Wrap(bracket, [g]),
                score, radar, feedback, json))
  }

  /** The keyword arguments of the final `POSTANALYSER_PROMPT.format`. */
  function TaskFields(s: Sections, username: string, botname: string, skill: string): (r: map<string, string>)
    ensures "chat_context" in r && r["chat_context"] == s.chat
    ensures "goal" in r && r["goal"] == s.goal
  {
    map[
      "chat_context" := s.chat,
      "goal" := s.goal,
      "username" := username,
      "botname" := botname,
      "skill" := skill,
      "score_addition" := s.score,
      "radar_addition" := s.radar,
      "feedback_addition" := s.feedback,
      "json_addition" := s.json]
  }

  /**
   * `build_task`: every message is mapped by role (there is no type filter)
   * and another role raises ValueError.
   */
  function Task(t: Templates, chat: seq<Json>, goal: string, username: string, botname: string, skill: string,
                bracketName: string, window: int): (r: Result<string>)
    ensures Prompts.BracketOf(bracketName).Err? ==> r == Err(AssertionError)
    ensures Prompts.BracketOf(bracketName).Ok? && Prompts.RoleLines(chat, username, botname, false, Prompts.RejectOthers).Err? ==>
      r == Err(Prompts.RoleLines(chat, username, botname, false, Prompts.RejectOthers).error)
    ensures r.Ok? ==> PyStr.Trimmed(r.value)
  {
    var bracket :- Prompts.BracketOf(bracketName);
    var lines :- Prompts.RoleLines(chat, username, botname, false, Prompts.RejectOthers);
    var sections :- TaskSections(t, bracket, lines, goal, username, botname, skill, window);
    Prompts.Fill(t.prompt, TaskFields(sections, username, botname, skill))
  }

  /** `build_task` with its message loop. */
  method BuildTask(t: Templates, chat: seq<Json>, goal: string, username: string, botname: string, skill: string,
                   bracketName: string, window: int) returns (r: Result<string>)
    ensures r == Task(t, chat, goal, username, botname, skill, bracketName, window)
  {
    var bracket := Prompts.BracketOf(bracketName);
    if bracket.Err? {
      return Err(AssertionError);
    }
    var lines := Prompts.CollectLines(chat, username, botname, false, Prompts.RejectOthers);
    if lines.Err? {
      return Err(lines.error);
    }
    var sections := TaskSections(t, bracket.value, lines.value, goal, username, botname, skill, window);
    if sections.Err? {
      return Err(sections.error);
    }
    r := Prompts.Fill(t.prompt, TaskFields(sections.value, username, botname, skill));
  }

  /** `postanalyser`/`apostanalyser`: the prompt, sent as the only system message, and the reply's content. */
  method Run(t: Templates, chat: seq<Json>, goal: string, username: string, botname: string, skill: string,
             bracketName: string, window: int, call: string -> Result<Json>) returns (r: Result<Json>)
    ensures Task(t, chat, goal, username, botname, skill, bracketName, window).Err? ==>
      r == Err(Task(t, chat, goal, username, botname, skill, bracketName, window).error)
    ensures Task(t, chat, goal, username, botname, skill, bracketName, window).Ok? ==>
      var reply := call(Task(t, chat, goal, username, botname, skill, bracketName, window).value);
      r == (if reply.Err? then Err(reply.error) else Get(reply.value, "content"))
  {
    var task := BuildTask(t, chat, goal, username, botname, skill, bracketName, window);
    if task.Err? {
      return Err(task.error);
    }
    var reply := call(task.value);
    if reply.Err? {
      return Err(reply.error);
    }
    r := Get(reply.value, "content");
  }
}
