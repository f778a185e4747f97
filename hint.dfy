// The hint generator: the hint prompt built from the transcript, the
// character and the previously shown hints, and the choice of the hint
// category in the model's JSON reply.
module Hint {
  import opened Wrappers
  import opened Json
  import PyStr
  import Prompts

  /** The prose templates of the prompt; their wording is a parameter of the model. */
  datatype Templates = Templates(prompt: string, json: string, previousHints: string)

  /** How many of the previous hints the prompt repeats. */
  const ShownHints: nat := 5

  /** The three hint categories the reply is asked for. */
  const Categories: seq<string> := ["hintWhatToDo", "wrongActions", "hintWhatToAvoid"]

  /** `"\n".join(f"- {item}" for item in items)` */
  function Points(items: seq<string>): (r: string)
    ensures items == [] ==> r == ""
    ensures |items| == 1 ==> r == "- " + items[0]
  {
    PyStr.Join("\n", Bullets(items))
  }

  function Bullets(items: seq<string>): (r: seq<string>)
    ensures |r| == |items|
    ensures forall i :: 0 <= i < |items| ==> r[i] == "- " + items[i]
  {
    seq(|items|, i requires 0 <= i < |items| => "- " + items[i])
  }

  /** One previously shown hint: "🚫 <category>: <hint>". */
  function HintLine(h: Json): (r: Result<string>)
    ensures r.Ok? ==> PyStr.StartsWith(r.value, "\U{1F6AB} ")
  {
    var category :- Get(h, "category");
    var c :- PyStrOf(category);
    var hint :- Get(h, "hint");
    var s :- PyStrOf(hint);
    var line := "\U{1F6AB} " + c + ": " + s;
    assert line[..|"\U{1F6AB} "|] == "\U{1F6AB} ";
    Ok(line)
  }

  /** The lines of a list of hints, one per hint and in order. */
  function HintLines(hints: seq<Json>): (r: Result<seq<string>>)
    ensures r.Ok? <==> forall i :: 0 <= i < |hints| ==> HintLine(hints[i]).Ok?
    ensures r.Ok? ==> |r.value| == |hints|
    ensures r.Ok? ==> forall i :: 0 <= i < |hints| ==> HintLine(hints[i]) == Ok(r.value[i])
  {
    if hints == [] then Ok([])
    else
      var n := |hints| - 1;
      assert forall i :: 0 <= i < n ==> hints[..n][i] == hints[i];
      var p :- HintLines(hints[..n]);
      var line :- HintLine(hints[n]);
      Ok(p + [line])
  }

  /**
   * The previous-hints block: "" when no hint was shown yet, otherwise the
   * template filled with the last five hints, one per line.
   */
  function PreviousHints(t: Templates, username: string, hints: seq<Json>): (r: Result<string>)
    ensures hints == [] ==> r == Ok("")
    ensures hints != [] && HintLines(PyStr.SliceFrom(hints, -(ShownHints as int))).Ok? ==>
      r == Prompts.Fill(t.previousHints, map["username" := username,
        "formatted_hints" := PyStr.Join("\n", HintLines(PyStr.SliceFrom(hints, -(ShownHints as int))).value)])
    ensures r.Ok? ==> PyStr.Trimmed(r.value)
  {
    if hints == [] then Ok("")
    else
      var lines :- HintLines(PyStr.SliceFrom(hints, -(ShownHints as int)));
      Prompts.Fill(t.previousHints, map["username" := username, "formatted_hints" := PyStr.Join("\n", lines)])
  }

  /**
   * The hints the block lists are the last five (or all, when fewer), each
   * as its own line, in the order they were shown.
   */
  lemma ShownAreLastFive(hints: seq<Json>)
    requires HintLines(PyStr.SliceFrom(hints, -(ShownHints as int))).Ok?
    ensures var lines := HintLines(PyStr.SliceFrom(hints, -(ShownHints as int))).value;
      var m := if |hints| < ShownHints then |hints| else ShownHints;
      |lines| == m && forall i :: 0 <= i < m ==> HintLine(hints[|hints| - m + i]) == Ok(lines[i])
  {
    var m := if |hints| < ShownHints then |hints| else ShownHints;
    PyStr.LastK(hints, ShownHints);
    SuffixLines(hints, m);
  }

  /** The lines of the last `m` hints are those of the hints themselves, in order. */
  lemma SuffixLines(hints: seq<Json>, m: nat)
    requires m <= |hints| && HintLines(hints[|hints| - m..]).Ok?
    ensures |HintLines(hints[|hints| - m..]).value| == m
    ensures var lines := HintLines(hints[|hints| - m..]).value;
      forall i :: 0 <= i < m ==> HintLine(hints[|hints| - m + i]) == Ok(lines[i])
  {
    var last := hints[|hints| - m..];
    forall i | 0 <= i < m ensures HintLine(hints[|hints| - m + i]) == Ok(HintLines(last).value[i]) {
      assert last[i] == hints[|hints| - m + i];
    }
  }

  /** The sections `build_task` computes before the final format, in its order. */
  datatype Sections = Sections(
    chat: string,
    goal: string,
    characterPoints: string,
    negpromptPoints: string,
    json: string,
    previousHints: string)

  /** The sections of the hint prompt, once the transcript lines are known. */
  function TaskSections(t: Templates, bracket: string, lines: seq<string>, username: string, botname: string,
                        goal: string, skill: string, character: seq<string>, negprompt: seq<string>,
                        window: int, hints: seq<Json>): (r: Result<Sections>)
    requires Prompts.IsBracket(bracket)
    ensures r.Ok? <==> (Prompts.Fill(t.json, map["username" := username, "botname" := botname, "skill" := skill]).Ok?
                        && PreviousHints(t, username, hints).Ok?)
    ensures r.Ok? ==> r.value.chat == Prompts.Fenced(bracket, Prompts.Window(lines, window))
    ensures r.Ok? ==> r.value.goal == Prompts.Fenced(bracket, [goal])
    ensures r.Ok? && hints == [] ==> r.value.previousHints == ""
  {
    Prompts.WrapShape(bracket, Prompts.Window(lines, window));
    Prompts.WrapShape(bracket, [goal]);
    var json :- Prompts.Fill(t.json, map["username" := username, "botname" := botname, "skill" := skill]);
    var previous :- PreviousHints(t, username, hints);
    Ok(Sections(Prompts.Wrap(bracket, Prompts.Window(lines, window)), Prompts.Wrap(bracket, [goal]),
                Points(character), Points(negprompt), json, previous))
  }

  /** The keyword arguments of the final `HINT_PROMPT.format`. */
  function TaskFields(s: Sections, username: string, botname: string, skill: string): (r: map<string, string>)
    ensures "chat_context" in r && r["chat_context"] == s.chat
    ensures "goal" in r && r["goal"] == s.goal
    ensures "previous_hints" in r && r["previous_hints"] == s.previousHints
  {
    map[
      "chat_context" := s.chat,
      "username" := username,
      "botname" := botname,
      "goal" := s.goal,
      "skill" := skill,
      "character_points" := s.characterPoints,
      "negprompt_points" := s.negpromptPoints,
      "json_addition" := s.json,
      "previous_hints" := s.previousHints]
  }

  /** `build_task`: the whole prompt, or the exception it raises. */
  function Task(t: Templates, chat: seq<Json>, username: string, botname: string, goal: string, skill: string,
                character: seq<string>, negprompt: seq<string>, bracketName: string, window: int,
                hints: seq<Json>): (r: Result<string>)
    ensures Prompts.BracketOf(bracketName).Err? ==> r == Err(AssertionError)
    ensures Prompts.BracketOf(bracketName).Ok? && Prompts.RoleLines(chat, username, botname, true, Prompts.RejectOthers).Err? ==>
      r == Err(Prompts.RoleLines(chat, username, botname, true, Prompts.RejectOthers).error)
    ensures r.Ok? ==> PyStr.Trimmed(r.value)
  {
    var bracket :- Prompts.BracketOf(bracketName);
    var lines :- Prompts.RoleLines(chat, username, botname, true, Prompts.RejectOthers);
    var sections :- TaskSections(t, bracket, lines, username, botname, goal, skill, character, negprompt, window, hints);
    Prompts.Fill(t.prompt, TaskFields(sections, username, botname, skill))
  }

  /** `build_task` with its message loop. */
  method BuildTask(t: Templates, chat: seq<Json>, username: string, botname: string, goal: string, skill: string,
                   character: seq<string>, negprompt: seq<string>, bracketName: string, window: int,
                   hints: seq<Json>) returns (r: Result<string>)
    ensures r == Task(t, chat, username, botname, goal, skill, character, negprompt, bracketName, window, hints)
  {
    var bracket := Prompts.BracketOf(bracketName);
    if bracket.Err? {
      return Err(AssertionError);
    }
    var lines := Prompts.CollectLines(chat, username, botname, true, Prompts.RejectOthers);
    if lines.Err? {
      return Err(lines.error);
    }
    var sections := TaskSections(t, bracket.value, lines.value, username, botname, goal, skill, character, negprompt, window, hints);
    if sections.Err? {
      return Err(sections.error);
    }
    r := Prompts.Fill(t.prompt, TaskFields(sections.value, username, botname, skill));
  }

  // ------------------------------------------------ category selection

  /**
   * `best in output` for the reply's suggested category: a string is looked
   * up among the keys, another hashable value is never a key, and a list or
   * dict cannot be hashed.
   */
  function KeyIn(best: Json, fields: seq<(string, Json)>): (r: Result<bool>)
    ensures best.JStr? ==> r == Ok(IndexOfKey(fields, best.s).Some?)
    ensures r == Ok(true) ==> best.JStr?
  {
    match best
    case JStr(s) => Ok(IndexOfKey(fields, s).Some?)
    case JArr(_) => Err(TypeError)
    case JObj(_) => Err(TypeError)
    case _ => Ok(false)
  }

  /** The reply's suggested category, when it is one of the reply's keys. */
  function Suggested(output: Json): (r: Option<string>)
    ensures r.Some? ==> output.JObj? && Lookup(output.fields, "decideBestHintCategory") == Some(JStr(r.value))
  {
    if !output.JObj? then None
    else
      var best: Option<Json> := Lookup(output.fields, "decideBestHintCategory");
      match best
      case Some(JStr(c)) => if IndexOfKey(output.fields, c).Some? then Some(c) else None
      case _ => None
  }

  /**
   * The writes of `hint`/`ahint` to the reply: `category` is the suggested
   * category when the reply has that key, otherwise the category `pick`
   * chose at random; `hint` is the reply's text for that category.
   */
  function Select(output: Json, pick: nat): (r: Result<Json>)
    requires pick < |Categories|
    ensures r.Ok? ==> r.value.JObj? && output.JObj?
    ensures r.Ok? ==> Lookup(r.value.fields, "category") == Some(JStr(SelectedCategory(output, pick)))
    ensures r.Ok? ==> Lookup(r.value.fields, "hint") == Lookup(r.value.fields, SelectedCategory(output, pick))
    ensures r.Ok? ==> forall k :: k != "category" && k != "hint" ==> Lookup(r.value.fields, k) == Lookup(output.fields, k)
    ensures Suggested(output).Some? ==> r.Ok?
  {
    var category :- Chosen(output, pick);
    var g :- WithHint(output.fields, category);
    Ok(JObj(g))
  }

  /** The category `hint`/`ahint` selects, or the error reading the suggestion. */
  function Chosen(output: Json, pick: nat): (r: Result<string>)
    requires pick < |Categories|
    ensures r.Ok? ==> output.JObj? && r.value == SelectedCategory(output, pick)
    ensures Suggested(output).Some? ==> r.Ok?
  {
    var best :- Get(output, "decideBestHintCategory");
    var present :- KeyIn(best, output.fields);
    Ok(if present then best.s else Categories[pick])
  }

  /** The two writes: `category`, then `hint` read back under the category's key. */
  function WithHint(fields: seq<(string, Json)>, category: string): (r: Result<seq<(string, Json)>>)
    ensures IndexOfKey(fields, category).Some? ==> r.Ok?
    ensures r.Ok? ==> Lookup(r.value, "category") == Some(JStr(category))
    ensures r.Ok? ==> Lookup(r.value, "hint") == Lookup(r.value, category)
    ensures r.Ok? ==> forall k :: k != "category" && k != "hint" ==> Lookup(r.value, k) == Lookup(fields, k)
  {
    var f := Assign(fields, "category", JStr(category));
    match Lookup(f, category)
    case None => Err(KeyError)
    case Some(hint) =>
      var g := Assign(f, "hint", hint);
      assert Lookup(g, "hint") == Lookup(g, category);
      Ok(g)
  }

  /** The suggested category when the reply has it as a key, else the random pick. */
  function SelectedCategory(output: Json, pick: nat): (c: string)
    requires pick < |Categories|
    ensures Suggested(output).Some? ==> c == Suggested(output).value
    ensures Suggested(output).None? ==> c in Categories
  {
    if Suggested(output).Some? then Suggested(output).value else Categories[pick]
  }

  /** `hint`/`ahint`: the prompt, sent as the only system message, and the selected hint. */
  method Run(t: Templates, chat: seq<Json>, username: string, botname: string, goal: string, skill: string,
             character: seq<string>, negprompt: seq<string>, bracketName: string, window: int,
             hints: seq<Json>, call: string -> Result<Json>, pick: nat) returns (r: Result<Json>)
    requires pick < |Categories|
    ensures Task(t, chat, username, botname, goal, skill, character, negprompt, bracketName, window, hints).Err? ==>
      r == Err(Task(t, chat, username, botname, goal, skill, character, negprompt, bracketName, window, hints).error)
    ensures Task(t, chat, username, botname, goal, skill, character, negprompt, bracketName, window, hints).Ok? ==>
      var reply := call(Task(t, chat, username, botname, goal, skill, character, negprompt, bracketName, window, hints).value);
      r == (if reply.Err? then Err(reply.error)
            else if Get(reply.value, "content").Err? then Err(Get(reply.value, "content").error)
            else Select(Get(reply.value, "content").value, pick))
  {
    var task := BuildTask(t, chat, username, botname, goal, skill, character, negprompt, bracketName, window, hints);
    if task.Err? {
      return Err(task.error);
    }
    var reply := call(task.value);
    if reply.Err? {
      return Err(reply.error);
    }
    var content := Get(reply.value, "content");
    if content.Err? {
      return Err(content.error);
    }
    r := Select(content.value, pick);
  }
}
