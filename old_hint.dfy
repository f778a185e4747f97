// The older hint generator (backend/old/hint.py): the listing of the
// available transitions tagged by whether they are positive, and the hint
// prompt that fences the chat, the listing and the bot's prompts.
module OldHint {
  import opened Wrappers
  import opened Json
  import PyStr
  import Prompts

  /** The prose templates of the prompt; their wording is a parameter of the model. */
  datatype Templates = Templates(prompt: string, json: string)

  /** The tag of a positive transition (green circle) and of any other (red circle). */
  const PositiveTag: string := "\U{1F7E2}"
  const NegativeTag: string := "\U{1F534}"

  // ------------------------------------------------------- the listing

  /**
   * The entry of one transition: its tag and name, short condition and
   * condition, each text with the name placeholders replaced. The tag is
   * the green one exactly when `isPositive` is truthy.
   */
  function Entry(name: string, transition: Json, username: string, botname: string): (r: Result<string>)
    ensures r.Ok? <==> (Prompts.TextField(transition, "shortDesc").Ok? && Prompts.TextField(transition, "condition").Ok?
                        && Get(transition, "isPositive").Ok?)
    ensures r.Ok? ==> (PyStr.StartsWith(r.value, PositiveTag + " ") <==> Truthy(Get(transition, "isPositive").value))
    ensures r.Ok? ==> (PyStr.StartsWith(r.value, NegativeTag + " ") <==> !Truthy(Get(transition, "isPositive").value))
  {
    var n := Prompts.ReplaceNames(name, username, botname);
    var shortcond :- Prompts.TextField(transition, "shortDesc");
    var condition :- Prompts.TextField(transition, "condition");
    var positive :- Get(transition, "isPositive");
    var tag := if Truthy(positive) then PositiveTag else NegativeTag;
    var e := tag + " " + n + "\nShort Condition: " + Prompts.ReplaceNames(shortcond, username, botname)
             + "\nCondition: " + Prompts.ReplaceNames(condition, username, botname);
    assert e[..|tag + " "|] == tag + " ";
    assert e[0] == tag[0];
    Ok(e)
  }

  /** `Entry` as a function of one dict item. */
  function EntryOf(username: string, botname: string): ((string, Json)) -> Result<string>
  {
    (p: (string, Json)) => Entry(p.0, p.1, username, botname)
  }

  /** A transition whose texts have no placeholders is listed verbatim after its tag. */
  lemma EntryVerbatim(name: string, shortcond: string, condition: string, transition: Json, username: string, botname: string)
    requires Get(transition, "shortDesc") == Ok(JStr(shortcond)) && Get(transition, "condition") == Ok(JStr(condition))
    requires Get(transition, "isPositive") == Ok(JBool(true))
    requires !PyStr.Contains(name, "{username}") && !PyStr.Contains(name, "{botname}")
    requires !PyStr.Contains(shortcond, "{username}") && !PyStr.Contains(shortcond, "{botname}")
    requires !PyStr.Contains(condition, "{username}") && !PyStr.Contains(condition, "{botname}")
    ensures Entry(name, transition, username, botname)
      == Ok(PositiveTag + " " + name + "\nShort Condition: " + shortcond + "\nCondition: " + condition)
  {
    Prompts.ReplaceNamesAbsent(name, username, botname);
    Prompts.ReplaceNamesAbsent(shortcond, username, botname);
    Prompts.ReplaceNamesAbsent(condition, username, botname);
  }

  /**
   * `format_transitions`: the bracket is checked first; the entries are
   * joined by "\n---\n" and fenced between bracket lines.
   */
  function Listing(transitions: seq<(string, Json)>, username: string, botname: string, bracketName: string)
    : (r: Result<string>)
    ensures Prompts.BracketOf(bracketName).Err? ==> r == Err(AssertionError)
    ensures Prompts.BracketOf(bracketName).Ok? ==> (r.Ok? <==> MapResults(transitions, EntryOf(username, botname)).Ok?)
    ensures r.Ok? ==> r.value == Prompts.Fenced(Prompts.BracketOf(bracketName).value,
                                                [PyStr.Join(Prompts.EntrySeparator, MapResults(transitions, EntryOf(username, botname)).value)])
  {
    var bracket :- Prompts.BracketOf(bracketName);
    var entries :- MapResults(transitions, EntryOf(username, botname));
    Prompts.WrapShape(bracket, [PyStr.Join(Prompts.EntrySeparator, entries)]);
    Ok(Prompts.Wrap(bracket, [PyStr.Join(Prompts.EntrySeparator, entries)]))
  }

  /** `format_transitions` with its append loop. */
  method FormatTransitions(transitions: seq<(string, Json)>, username: string, botname: string, bracketName: string)
    returns (r: Result<string>)
    ensures r == Listing(transitions, username, botname, bracketName)
  {
    var bracket := Prompts.BracketOf(bracketName);
    if bracket.Err? {
      return Err(AssertionError);
    }
    var formatted: seq<string> := [];
    var i := 0;
    while i < |transitions|
      invariant 0 <= i <= |transitions|
      invariant MapResults(transitions[..i], EntryOf(username, botname)) == Ok(formatted)
    {
      assert transitions[..i + 1][..i] == transitions[..i];
      var e := Entry(transitions[i].0, transitions[i].1, username, botname);
      if e.Err? {
        MapResultsRaise(transitions, EntryOf(username, botname), i);
        return Err(e.error);
      }
      formatted := formatted + [e.value];
      i := i + 1;
    }
    assert transitions[..|transitions|] == transitions;
    Prompts.WrapShape(bracket.value, [PyStr.Join(Prompts.EntrySeparator, formatted)]);
    return Ok(Prompts.Wrap(bracket.value, [PyStr.Join(Prompts.EntrySeparator, formatted)]));
  }

  // ----------------------------------------------------------- the prompt

  /** The sections `build_task` computes before the final format. */
  datatype Sections = Sections(chat: string, transitions: string, systemPrompt: string, statePrompt: string,
                               goal: string, json: string)

  /**
   * The sections of the hint prompt, once the transcript lines and the
   * listing are known: the chat, the system prompt, the state prompt and
   * the goal are each fenced between bracket lines.
   */
  function TaskSections(t: Templates, bracket: string, lines: seq<string>, listing: string, username: string,
                        botname: string, systemPrompt: string, statePrompt: string, goal: string): (r: Result<Sections>)
    requires Prompts.IsBracket(bracket)
    ensures r.Ok? <==> Prompts.FormatNames(t.json, username, botname).Ok?
    ensures r.Ok? ==> r.value.chat == Prompts.Fenced(bracket, lines)
    ensures r.Ok? ==> r.value.transitions == listing
    ensures r.Ok? ==> r.value.systemPrompt == Prompts.Fenced(bracket, [systemPrompt])
    ensures r.Ok? ==> r.value.statePrompt == Prompts.Fenced(bracket, [statePrompt])
    ensures r.Ok? ==> r.value.goal == Prompts.Fenced(bracket, [goal])
  {
    Prompts.WrapShape(bracket, lines);
    Prompts.WrapShape(bracket, [systemPrompt]);
    Prompts.WrapShape(bracket, [statePrompt]);
    Prompts.WrapShape(bracket, [goal]);
    var json :- Prompts.FormatNames(t.json, username, botname);
    Ok(Sections(Prompts.Wrap(bracket, lines), listing, Prompts.Wrap(bracket, [systemPrompt]),
                Prompts.Wrap(bracket, [statePrompt]), Prompts.Wrap(bracket, [goal]), json))
  }

  /** The keyword arguments of the final `HINT_PROMPT.format`. */
  function TaskFields(s: Sections, username: string, botname: string): (r: map<string, string>)
    ensures "chat_context" in r && r["chat_context"] == s.chat
    ensures "transitions" in r && r["transitions"] == s.transitions
    ensures "system_prompt" in r && r["system_prompt"] == s.systemPrompt
    ensures "state_prompt" in r && r["state_prompt"] == s.statePrompt
    ensures "goal" in r && r["goal"] == s.goal
  {
    map[
      "chat_context" := s.chat,
      "transitions" := s.transitions,
      "username" := username,
      "botname" := botname,
      "system_prompt" := s.systemPrompt,
      "state_prompt" := s.statePrompt,
      "goal" := s.goal,
      "json_addition" := s.json]
  }

  /**
   * `build_task`: the whole prompt, or the exception it raises. The bracket
   * is checked first, then the chat is read (skipping messages that are
   * neither the user's nor the bot's), then the transitions are listed.
   */
  function Task(t: Templates, chat: seq<Json>, transitions: seq<(string, Json)>, username: string, botname: string,
                systemPrompt: string, statePrompt: string, goal: string, bracketName: string): (r: Result<string>)
    ensures Prompts.BracketOf(bracketName).Err? ==> r == Err(AssertionError)
    ensures Prompts.BracketOf(bracketName).Ok? && Prompts.RoleLines(chat, username, botname, false, Prompts.SkipOthers).Err? ==>
      r == Err(Prompts.RoleLines(chat, username, botname, false, Prompts.SkipOthers).error)
    ensures r.Ok? ==> Listing(transitions, username, botname, bracketName).Ok?
    ensures r.Ok? ==> PyStr.Trimmed(r.value)
  {
    var bracket :- Prompts.BracketOf(bracketName);
    var lines :- Prompts.RoleLines(chat, username, botname, false, Prompts.SkipOthers);
    var listing :- Listing(transitions, username, botname, bracketName);
    var sections :- TaskSections(t, bracket, lines, listing, username, botname, systemPrompt, statePrompt, goal);
    Prompts.Fill(t.prompt, TaskFields(sections, username, botname))
  }

  /** `build_task` with its message loop and the listing's loop. */
  method BuildTask(t: Templates, chat: seq<Json>, transitions: seq<(string, Json)>, username: string, botname: string,
                   systemPrompt: string, statePrompt: string, goal: string, bracketName: string)
    returns (r: Result<string>)
    ensures r == Task(t, chat, transitions, username, botname, systemPrompt, statePrompt, goal, bracketName)
  {
    var bracket := Prompts.BracketOf(bracketName);
    if bracket.Err? {
      return Err(AssertionError);
    }
    var lines := Prompts.CollectLines(chat, username, botname, false, Prompts.SkipOthers);
    if lines.Err? {
      return Err(lines.error);
    }
    var listing := FormatTransitions(transitions, username, botname, bracketName);
    if listing.Err? {
      return Err(listing.error);
    }
    var sections := TaskSections(t, bracket.value, lines.value, listing.value, username, botname, systemPrompt,
                                 statePrompt, goal);
    if sections.Err? {
      return Err(sections.error);
    }
    r := Prompts.Fill(t.prompt, TaskFields(sections.value, username, botname));
  }

  /** `hint`: the prompt, sent as the only system message, and the reply's `json`. */
  method Hint(t: Templates, chat: seq<Json>, transitions: seq<(string, Json)>, username: string, botname: string,
              systemPrompt: string, statePrompt: string, goal: string, bracketName: string,
              run: string -> Result<Json>) returns (r: Result<Json>)
    ensures Task(t, chat, transitions, username, botname, systemPrompt, statePrompt, goal, bracketName).Err? ==>
      r == Err(Task(t, chat, transitions, username, botname, systemPrompt, statePrompt, goal, bracketName).error)
    ensures Task(t, chat, transitions, username, botname, systemPrompt, statePrompt, goal, bracketName).Ok? ==>
      r == JsonOf(run(Task(t, chat, transitions, username, botname, systemPrompt, statePrompt, goal, bracketName).value))
  {
    var task := BuildTask(t, chat, transitions, username, botname, systemPrompt, statePrompt, goal, bracketName);
    if task.Err? {
      return Err(task.error);
    }
    r := JsonOf(run(task.value));
  }

  /** `run(...)['json']`: the parsed reply of the model call. */
  function JsonOf(reply: Result<Json>): (r: Result<Json>)
    ensures reply.Err? ==> r == Err(reply.error)
    ensures reply.Ok? ==> r == Get(reply.value, "json")
  {
    var body :- reply;
    Get(body, "json")
  }
}
