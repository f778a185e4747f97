// The older post-session analyser (backend/old/postanalyser.py): the
// analysis prompt that asks for a given number of insights and pieces of
// feedback, and the renaming of the model's JSON analysis.
module OldPostAnalyser {
  import opened Wrappers
  import opened Json
  import PyStr
  import Prompts

  /** The prose templates of the prompt; their wording is a parameter of the model. */
  datatype Templates = Templates(prompt: string, score: string, radar: string, insights: string, feedback: string,
                                 json: string)

  // ------------------------------------------------- the list placeholders

  /** The placeholder of one list element in the JSON instructions. */
  const Item: string := "(str)"

  /** `["(str)"] * n`: a negative count gives the empty list, as in Python. */
  function Items(n: int): (r: seq<string>)
    ensures |r| == if n < 0 then 0 else n
    ensures forall k :: 0 <= k < |r| ==> r[k] == Item
  {
    seq(if n < 0 then 0 else n, _ => Item)
  }

  /** `", ".join(["(str)"] * n)`: the elements the JSON instructions ask for. */
  function ItemList(n: int): string
  {
    PyStr.Join(", ", Items(n))
  }

  /**
   * The list asks for exactly `n` elements: none for `n <= 0`, one for
   * `n == 1`, and each further element adds ", (str)".
   */
  lemma ItemListShape(n: int)
    ensures n <= 0 ==> ItemList(n) == ""
    ensures ItemList(1) == Item
    ensures n >= 1 ==> ItemList(n + 1) == ItemList(n) + ", " + Item
  {
    if n >= 1 {
      assert Items(n + 1) == Items(n) + [Item];
      PyStr.JoinSnoc(", ", Items(n), Item);
    }
  }

  /** The list for `n >= 1` elements is `7 * n - 2` characters long. */
  lemma {:induction false} ItemListLength(n: int)
    requires n >= 1
    ensures |ItemList(n)| == 7 * n - 2
  {
    ItemListShape(n - 1);
    if n > 1 {
      ItemListLength(n - 1);
    }
  }

  // ------------------------------------------------------------- the prompt

  /** The sections `build_prompt` computes before the final format, in its order. */
  datatype Sections = Sections(chat: string, goal: string, score: string, radar: string, insights: string,
                               feedback: string, json: string)

  /** The fields of an addition that states a count. */
  function CountFields(username: string, botname: string, count: int): (r: map<string, string>)
    ensures "count" in r && r["count"] == PyStr.IntToString(count)
  {
    map["username" := username, "botname" := botname, "count" := PyStr.IntToString(count)]
  }

  /** The fields of the JSON instructions: the two list placeholders. */
  function JsonFields(username: string, botname: string, nInsights: int, nFeedbacks: int): (r: map<string, string>)
    ensures "insights_list" in r && r["insights_list"] == ItemList(nInsights)
    ensures "feedback_list" in r && r["feedback_list"] == ItemList(nFeedbacks)
  {
    map["username" := username, "botname" := botname, "insights_list" := ItemList(nInsights),
        "feedback_list" := ItemList(nFeedbacks)]
  }

  /**
   * The sections of the analysis prompt, once the transcript lines are
   * known: the whole chat and the goal are fenced, the insight and feedback
   * additions state their counts, the JSON instructions list that many
   * elements.
   */
  function TaskSections(t: Templates, bracket: string, lines: seq<string>, goal: string, username: string,
                        botname: string, nInsights: int, nFeedbacks: int): (r: Result<Sections>)
    requires Prompts.IsBracket(bracket)
    ensures r.Ok? <==> (Prompts.FormatNames(goal, username, botname).Ok?
                        && Prompts.FormatNames(t.score, username, botname).Ok?
                        && Prompts.FormatNames(t.radar, username, botname).Ok?
                        && Prompts.Fill(t.insights, CountFields(username, botname, nInsights)).Ok?
                        && Prompts.Fill(t.feedback, CountFields(username, botname, nFeedbacks)).Ok?
                        && Prompts.Fill(t.json, JsonFields(username, botname, nInsights, nFeedbacks)).Ok?)
    ensures r.Ok? ==> r.value.chat == Prompts.Fenced(bracket, lines)
    ensures r.Ok? ==> r.value.goal == Prompts.Fenced(bracket, [Prompts.FormatNames(goal, username, botname).value])
    ensures r.Ok? ==> r.value.insights == Prompts.Fill(t.insights, CountFields(username, botname, nInsights)).value
    ensures r.Ok? ==> r.value.json == Prompts.Fill(t.json, JsonFields(username, botname, nInsights, nFeedbacks)).value
  {
    Prompts.WrapShape(bracket, lines);
    var g :- Prompts.FormatNames(goal, username, botname);
    Prompts.WrapShape(bracket, [g]);
    var score :- Prompts.FormatNames(t.score, username, botname);
    var radar :- Prompts.FormatNames(t.radar, username, botname);
    var insights :- Prompts.Fill(t.insights, CountFields(username, botname, nInsights));
    var feedback :- Prompts.Fill(t.feedback, CountFields(username, botname, nFeedbacks));
    var json :- Prompts.Fill(t.json, JsonFields(username, botname, nInsights, nFeedbacks));
    Ok(Sections(Prompts.Wrap(bracket, lines), Prompts.Wrap(bracket, [g]), score, radar, insights, feedback, json))
  }

  /** The keyword arguments of the final `POSTANALYSER_PROMPT.format`. */
  function TaskFields(s: Sections, username: string, botname: string): (r: map<string, string>)
    ensures "chat_context" in r && r["chat_context"] == s.chat
    ensures "goal" in r && r["goal"] == s.goal
    ensures "insights_addition" in r && r["insights_addition"] == s.insights
    ensures "json_addition" in r && r["json_addition"] == s.json
  {
    map[
      "chat_context" := s.chat,
      "goal" := s.goal,
      "username" := username,
      "botname" := botname,
      "score_addition" := s.score,
      "radar_addition" := s.radar,
      "insights_addition" := s.insights,
      "feedback_addition" := s.feedback,
      "json_addition" := s.json]
  }

  /**
   * `build_prompt`: the whole prompt, or the exception it raises. The bracket
   * is checked first; messages that are neither the user's nor the bot's are
   * skipped, and no window is applied.
   */
  function Task(t: Templates, chat: seq<Json>, goal: string, username: string, botname: string, bracketName: string,
                nInsights: int, nFeedbacks: int): (r: Result<string>)
    ensures Prompts.BracketOf(bracketName).Err? ==> r == Err(AssertionError)
    ensures Prompts.BracketOf(bracketName).Ok? && Prompts.RoleLines(chat, username, botname, false, Prompts.SkipOthers).Err? ==>
      r == Err(Prompts.RoleLines(chat, username, botname, false, Prompts.SkipOthers).error)
    ensures r.Ok? ==> Prompts.RoleLines(chat, username, botname, false, Prompts.SkipOthers).Ok?
    ensures r.Ok? ==> PyStr.Trimmed(r.value)
  {
    var bracket :- Prompts.BracketOf(bracketName);
    var lines :- Prompts.RoleLines(chat, username, botname, false, Prompts.SkipOthers);
    var sections :- TaskSections(t, bracket, lines, goal, username, botname, nInsights, nFeedbacks);
    Prompts.Fill(t.prompt, TaskFields(sections, username, botname))
  }

  /** `build_prompt` with its message loop. */
  method BuildTask(t: Templates, chat: seq<Json>, goal: string, username: string, botname: string,
                   bracketName: string, nInsights: int, nFeedbacks: int) returns (r: Result<string>)
    ensures r == Task(t, chat, goal, username, botname, bracketName, nInsights, nFeedbacks)
  {
    var bracket := Prompts.BracketOf(bracketName);
    if bracket.Err? {
      return Err(AssertionError);
    }
    var lines := Prompts.CollectLines(chat, username, botname, false, Prompts.SkipOthers);
    if lines.Err? {
      return Err(lines.error);
    }
    var sections := TaskSections(t, bracket.value, lines.value, goal, username, botname, nInsights, nFeedbacks);
    if sections.Err? {
      return Err(sections.error);
    }
    r := Prompts.Fill(t.prompt, TaskFields(sections.value, username, botname));
  }

  // ------------------------------------------------------ the analysis

  /** The keys of the reply's `json` and the names `postanalyser` returns them under, in order. */
  const Renames: seq<(string, string)> := [
    ("complete_score", "completeScore"),
    ("radar_diagram", "radarDiagram"),
    ("insights", "insights"),
    ("feedback", "feedback"),
    ("explain_your_analysis", "LLMexplainAnalysis")]

  /** The dict `postanalyser` returns: the five analysis fields under their new names. */
  function Output(result: Json): Result<Json>
  {
    Project(result, Renames)
  }

  /**
   * The returned dict has exactly the five new keys, in this order; it is
   * built when the reply has all five fields, and a missing one raises
   * `KeyError`.
   */
  lemma OutputShape(result: Json)
    ensures Output(result).Ok? <==> (Get(result, "complete_score").Ok? && Get(result, "radar_diagram").Ok?
                                     && Get(result, "insights").Ok? && Get(result, "feedback").Ok?
                                     && Get(result, "explain_your_analysis").Ok?)
    ensures Output(result).Err? ==> Output(result) == Err(if result.JObj? then KeyError else TypeError)
    ensures Output(result).Ok? ==> Output(result).value.JObj?
    ensures Output(result).Ok? ==>
      Keys(Output(result).value.fields) == ["completeScore", "radarDiagram", "insights", "feedback", "LLMexplainAnalysis"]
  {
    var r := Project(result, Renames);
    assert (r.Ok? <==> forall i :: 0 <= i < |Renames| ==> Get(result, Renames[i].0).Ok?);
    if r.Ok? {
      assert Get(result, Renames[0].0).Ok? && Get(result, Renames[1].0).Ok? && Get(result, Renames[2].0).Ok?;
      assert Get(result, Renames[3].0).Ok? && Get(result, Renames[4].0).Ok?;
      assert Keys(r.value.fields) == ["completeScore", "radarDiagram", "insights", "feedback", "LLMexplainAnalysis"];
    } else if result.JObj? {
      var i :| 0 <= i < |Renames| && Get(result, Renames[i].0).Err?;
      assert i == 0 || i == 1 || i == 2 || i == 3 || i == 4;
    }
  }

  /** Each returned field holds the reply's field it renames. */
  lemma OutputValues(result: Json)
    requires Output(result).Ok?
    ensures Get(Output(result).value, "completeScore") == Get(result, "complete_score")
    ensures Get(Output(result).value, "radarDiagram") == Get(result, "radar_diagram")
    ensures Get(Output(result).value, "insights") == Get(result, "insights")
    ensures Get(Output(result).value, "feedback") == Get(result, "feedback")
    ensures Get(Output(result).value, "LLMexplainAnalysis") == Get(result, "explain_your_analysis")
  {
    ProjectGet(result, Renames, 0);
    ProjectGet(result, Renames, 1);
    ProjectGet(result, Renames, 2);
    ProjectGet(result, Renames, 3);
    ProjectGet(result, Renames, 4);
  }

  /** `postanalyser` on the reply of the model call: the renamed fields of its `json`. */
  function Analysis(reply: Result<Json>): (r: Result<Json>)
    ensures reply.Err? ==> r == Err(reply.error)
    ensures reply.Ok? && Get(reply.value, "json").Err? ==> r == Err(Get(reply.value, "json").error)
    ensures reply.Ok? && Get(reply.value, "json").Ok? ==> r == Output(Get(reply.value, "json").value)
  {
    var body :- reply;
    var result :- Get(body, "json");
    Output(result)
  }

  /** `postanalyser`: the prompt, sent as the only system message, and the analysis of the reply. */
  method Analyse(t: Templates, chat: seq<Json>, goal: string, username: string, botname: string, bracketName: string,
                 nInsights: int, nFeedbacks: int, run: string -> Result<Json>) returns (r: Result<Json>)
    ensures Task(t, chat, goal, username, botname, bracketName, nInsights, nFeedbacks).Err? ==>
      r == Err(Task(t, chat, goal, username, botname, bracketName, nInsights, nFeedbacks).error)
    ensures Task(t, chat, goal, username, botname, bracketName, nInsights, nFeedbacks).Ok? ==>
      r == Analysis(run(Task(t, chat, goal, username, botname, bracketName, nInsights, nFeedbacks).value))
  {
    var task := BuildTask(t, chat, goal, username, botname, bracketName, nInsights, nFeedbacks);
    if task.Err? {
      return Err(task.error);
    }
    r := Analysis(run(task.value));
  }
}
