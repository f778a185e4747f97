// The older state-transition detector (backend/old/transition.py): the
// listing of the available transitions, the detection prompt and its
// preconditions on the chat, and the scoring of the test cases.
module OldTransition {
  import opened Wrappers
  import opened Json
  import PyStr
  import Prompts

  /** The prose templates of the prompt; their wording is a parameter of the model. */
  datatype Templates = Templates(prompt: string, jsonInstructions: string)

  // ------------------------------------------------------- the listing

  /**
   * The entry of one transition: its name, short condition and condition,
   * each with the name placeholders replaced, on three labelled lines.
   */
  function Entry(name: string, transition: Json, username: string, botname: string): (r: Result<string>)
    ensures r.Ok? <==> Prompts.TextField(transition, "shortDesc").Ok? && Prompts.TextField(transition, "condition").Ok?
    ensures r.Ok? ==> PyStr.StartsWith(r.value, "Next State: " + Prompts.ReplaceNames(name, username, botname) + "\n")
  {
    var n := Prompts.ReplaceNames(name, username, botname);
    var shortcond :- Prompts.TextField(transition, "shortDesc");
    var condition :- Prompts.TextField(transition, "condition");
    var e := "Next State: " + n + "\nShort Condition: " + Prompts.ReplaceNames(shortcond, username, botname)
             + "\nCondition: " + Prompts.ReplaceNames(condition, username, botname);
    assert e[..|"Next State: " + n + "\n"|] == "Next State: " + n + "\n";
    Ok(e)
  }

  /** `Entry` as a function of one dict item. */
  function EntryOf(username: string, botname: string): ((string, Json)) -> Result<string>
  {
    (p: (string, Json)) => Entry(p.0, p.1, username, botname)
  }

  /** A transition whose texts have no placeholders is listed verbatim. */
  lemma EntryVerbatim(name: string, shortcond: string, condition: string, transition: Json, username: string, botname: string)
    requires Get(transition, "shortDesc") == Ok(JStr(shortcond)) && Get(transition, "condition") == Ok(JStr(condition))
    requires !PyStr.Contains(name, "{username}") && !PyStr.Contains(name, "{botname}")
    requires !PyStr.Contains(shortcond, "{username}") && !PyStr.Contains(shortcond, "{botname}")
    requires !PyStr.Contains(condition, "{username}") && !PyStr.Contains(condition, "{botname}")
    ensures Entry(name, transition, username, botname)
      == Ok("Next State: " + name + "\nShort Condition: " + shortcond + "\nCondition: " + condition)
  {
    Prompts.ReplaceNamesAbsent(name, username, botname);
    Prompts.ReplaceNamesAbsent(shortcond, username, botname);
    Prompts.ReplaceNamesAbsent(condition, username, botname);
  }

  /**
   * `format_transitions`: the bracket is checked first; the entries are
   * joined by "\n---\n" and fenced between bracket lines.
   */
  function Listing(transitions: seq<(string, Json)>, username: string, botname: string, bracketName: string)
    : Result<string>
  {
    var bracket :- Prompts.BracketOf(bracketName);
    var entries :- MapResults(transitions, EntryOf(username, botname));
    Ok(Prompts.Wrap(bracket, [PyStr.Join(Prompts.EntrySeparator, entries)]))
  }

  /**
   * The listing fails on an unknown bracket, and otherwise exactly when an
   * entry fails; it is the joined entries fenced between bracket lines.
   */
  lemma ListingShape(transitions: seq<(string, Json)>, username: string, botname: string, bracketName: string)
    ensures Prompts.BracketOf(bracketName).Err? ==> Listing(transitions, username, botname, bracketName) == Err(AssertionError)
    ensures Prompts.BracketOf(bracketName).Ok? ==>
      (Listing(transitions, username, botname, bracketName).Ok? <==> MapResults(transitions, EntryOf(username, botname)).Ok?)
    ensures Listing(transitions, username, botname, bracketName).Ok? ==>
      Listing(transitions, username, botname, bracketName).value
      == Prompts.Fenced(Prompts.BracketOf(bracketName).value,
                        [PyStr.Join(Prompts.EntrySeparator, MapResults(transitions, EntryOf(username, botname)).value)])
  {
    if Listing(transitions, username, botname, bracketName).Ok? {
      var entries := MapResults(transitions, EntryOf(username, botname)).value;
      Prompts.WrapShape(Prompts.BracketOf(bracketName).value, [PyStr.Join(Prompts.EntrySeparator, entries)]);
    }
  }

  /** `format_transitions` with its append loop. */
  method FormatTransitions(transitions: seq<(string, Json)>, username: string, botname: string, bracketName: string)
    returns (r: Result<string>)
    ensures r == Listing(transitions, username, botname, bracketName)
  {
    var bracket := Prompts.BracketOf(bracketName);
    if bracket.Err? {
      return Err(AssertionError);
    }
    var formatted: seq<string> := [];
    var i := 0;
    while i < |transitions|
      invariant 0 <= i <= |transitions|
      invariant MapResults(transitions[..i], EntryOf(username, botname)) == Ok(formatted)
    {
      assert transitions[..i + 1][..i] == transitions[..i];
      var e := Entry(transitions[i].0, transitions[i].1, username, botname);
      if e.Err? {
        MapResultsRaise(transitions, EntryOf(username, botname), i);
        return Err(e.error);
      }
      formatted := formatted + [e.value];
      i := i + 1;
    }
    assert transitions[..|transitions|] == transitions;
    return Ok(Prompts.Wrap(bracket.value, [PyStr.Join(Prompts.EntrySeparator, formatted)]));
  }

  // ------------------------------------------------------ the detection

  /**
   * The detection prompt. The chat must be non-empty and end with a user
   * message; the listing and the JSON instructions are formatted in.
   */
  function Task(t: Templates, chat: seq<Json>, systemPrompt: string, statePrompt: string,
                transitions: seq<(string, Json)>, username: string, botname: string, bracketName: string)
    : (r: Result<string>)
    ensures |chat| == 0 ==> r == Err(AssertionError)
    ensures |chat| > 0 && Get(chat[|chat| - 1], "role").Err? ==> r == Err(Get(chat[|chat| - 1], "role").error)
    ensures |chat| > 0 && Get(chat[|chat| - 1], "role").Ok? && Get(chat[|chat| - 1], "role").value != JStr("user") ==>
      r == Err(AssertionError)
    ensures r.Ok? ==> |chat| > 0 && Get(chat[|chat| - 1], "role") == Ok(JStr("user"))
    ensures r.Ok? ==> Listing(transitions, username, botname, bracketName).Ok?
    ensures r.Ok? ==> PyStr.Trimmed(r.value)
  {
    if |chat| == 0 then Err(AssertionError)
    else
      var role :- Get(chat[|chat| - 1], "role");
      if role != JStr("user") then Err(AssertionError)
      else
        var listing :- Listing(transitions, username, botname, bracketName);
        Prompts.Fill(t.prompt, TaskFields(t, systemPrompt, statePrompt, listing, username, botname))
  }

  /** The keyword arguments of `TRANSITION_PROMPT.format`. */
  function TaskFields(t: Templates, systemPrompt: string, statePrompt: string, listing: string, username: string,
                      botname: string): (r: map<string, string>)
    ensures "transitions" in r && r["transitions"] == listing
    ensures "json_instructions" in r && r["json_instructions"] == PyStr.Strip(t.jsonInstructions)
  {
    map[
      "system_prompt" := systemPrompt,
      "state_prompt" := statePrompt,
      "transitions" := listing,
      "username" := username,
      "botname" := botname,
      "json_instructions" := PyStr.Strip(t.jsonInstructions)]
  }

  /** The system message carrying the prompt, in front of the chat. */
  function Messages(task: string, chat: seq<Json>): (r: seq<Json>)
    ensures |r| == |chat| + 1 && r[1..] == chat
    ensures r[0] == JObj([("role", JStr("system")), ("content", JStr(task))])
  {
    [JObj([("role", JStr("system")), ("content", JStr(task))])] + chat
  }

  /** `transition` when the model call answers `run(messages)`: the reply's `json`. */
  function Detect(t: Templates, chat: seq<Json>, systemPrompt: string, statePrompt: string,
                  transitions: seq<(string, Json)>, username: string, botname: string, bracketName: string,
                  run: seq<Json> -> Result<Json>): (r: Result<Json>)
    ensures Task(t, chat, systemPrompt, statePrompt, transitions, username, botname, bracketName).Err? ==>
      r == Err(Task(t, chat, systemPrompt, statePrompt, transitions, username, botname, bracketName).error)
  {
    var task :- Task(t, chat, systemPrompt, statePrompt, transitions, username, botname, bracketName);
    var reply :- run(Messages(task, chat));
    Get(reply, "json")
  }

  /** The detection prompt, with the listing built by its loop. */
  method BuildTask(t: Templates, chat: seq<Json>, systemPrompt: string, statePrompt: string,
                   transitions: seq<(string, Json)>, username: string, botname: string, bracketName: string)
    returns (r: Result<string>)
    ensures r == Task(t, chat, systemPrompt, statePrompt, transitions, username, botname, bracketName)
  {
    if |chat| == 0 {
      return Err(AssertionError);
    }
    var role := Get(chat[|chat| - 1], "role");
    if role.Err? {
      return Err(role.error);
    }
    if role.value != JStr("user") {
      return Err(AssertionError);
    }
    var listing := FormatTransitions(transitions, username, botname, bracketName);
    if listing.Err? {
      return Err(listing.error);
    }
    r := Prompts.Fill(t.prompt, TaskFields(t, systemPrompt, statePrompt, listing.value, username, botname));
  }

  /** `transition`: the prompt as the system message in front of the chat, and the reply's `json`. */
  method Transition(t: Templates, chat: seq<Json>, systemPrompt: string, statePrompt: string,
                    transitions: seq<(string, Json)>, username: string, botname: string, bracketName: string,
                    run: seq<Json> -> Result<Json>) returns (r: Result<Json>)
    ensures r == Detect(t, chat, systemPrompt, statePrompt, transitions, username, botname, bracketName, run)
  {
    var task := BuildTask(t, chat, systemPrompt, statePrompt, transitions, username, botname, bracketName);
    if task.Err? {
      return Err(task.error);
    }
    var reply := run(Messages(task.value, chat));
    if reply.Err? {
      return Err(reply.error);
    }
    r := Get(reply.value, "json");
  }

  // ------------------------------------------------------ the test cases

  /** The numeric value Python compares bools, ints and floats by. */
  function NumberOf(j: Json): Option<real>
  {
    match j
    case JBool(b) => Some(if b then 1.0 else 0.0)
    case JInt(i) => Some(i as real)
    case JReal(x) => Some(x)
    case _ => None
  }

  /** Python's `==` on the values compared here: numbers by value (True == 1), anything else structurally. */
  predicate Same(a: Json, b: Json)
  {
    if NumberOf(a).Some? && NumberOf(b).Some? then NumberOf(a) == NumberOf(b) else a == b
  }

  /** `Same` is an equivalence, as Python's `==` is on these values. */
  lemma SameEquivalence(a: Json, b: Json, c: Json)
    ensures Same(a, a)
    ensures Same(a, b) ==> Same(b, a)
    ensures Same(a, b) && Same(b, c) ==> Same(a, c)
  {
  }

  /**
   * Whether a detection result matches the expectation: `isTransition`
   * must agree and, when a transition is expected, so must `toState`.
   * The reads happen in the order the expression makes them.
   */
  function Passed(result: Json, expected: Json): (r: Result<bool>)
    ensures r == Ok(true) ==> Get(result, "isTransition").Ok? && Get(expected, "isTransition").Ok?
    ensures r == Ok(true) ==> Same(Get(result, "isTransition").value, Get(expected, "isTransition").value)
    ensures r == Ok(true) && Truthy(Get(expected, "isTransition").value) ==>
      Get(result, "toState").Ok? && Get(expected, "toState").Ok?
      && Same(Get(result, "toState").value, Get(expected, "toState").value)
    ensures (Get(result, "isTransition").Ok? && Get(expected, "isTransition").Ok?
             && !Same(Get(result, "isTransition").value, Get(expected, "isTransition").value)) ==> r == Ok(false)
    ensures (Get(result, "isTransition").Ok? && Get(expected, "isTransition").Ok?
             && Same(Get(result, "isTransition").value, Get(expected, "isTransition").value)
             && !Truthy(Get(expected, "isTransition").value)) ==> r == Ok(true)
  {
    var actual :- Get(result, "isTransition");
    var wanted :- Get(expected, "isTransition");
    if !Same(actual, wanted) then Ok(false)
    else if !Truthy(wanted) then Ok(true)
    else
      var actualState :- Get(result, "toState");
      var wantedState :- Get(expected, "toState");
      Ok(Same(actualState, wantedState))
  }

  /**
   * `test["chat_context"]` as the chat `transition` receives: a list is the
   * chat; `len` of an empty string or dict fails the first assertion, and
   * `[-1]` of a non-empty one raises; anything else has no `len`.
   */
  function ChatOf(j: Json): (r: Result<seq<Json>>)
    ensures j.JArr? ==> r == Ok(j.items)
    ensures r.Ok? ==> j.JArr?
  {
    match j
    case JArr(items) => Ok(items)
    case JStr(s) => if s == "" then Err(AssertionError) else Err(TypeError)
    case JObj(fields) => if fields == [] then Err(AssertionError) else Err(KeyError)
    case _ => Err(TypeError)
  }

  /** The keys the verbose report reads from the expectation and from the result. */
  function Report(expected: Json, result: Json): Result<()>
  {
    var _ :- Get(expected, "isTransition");
    var _ :- Get(expected, "toState");
    var _ :- Get(result, "isTransition");
    var _ :- Get(result, "toState");
    var _ :- Get(result, "explanation");
    Ok(())
  }

  /** The detector configuration every test case is run with. */
  datatype Setup = Setup(t: Templates, systemPrompt: string, statePrompt: string, transitions: seq<(string, Json)>,
                         username: string, botname: string, run: seq<Json> -> Result<Json>)

  /** Where a test case's chat comes from in the detection call. */
  function DetectCase(s: Setup, chat: seq<Json>): Result<Json>
  {
    Detect(s.t, chat, s.systemPrompt, s.statePrompt, s.transitions, s.username, s.botname, "quotation", s.run)
  }

  /** `DetectCase` as a function of the chat. */
  function Detector(s: Setup): seq<Json> -> Result<Json>
  {
    chat => DetectCase(s, chat)
  }

  /**
   * `detect` is the detector of `s`. The link is only read where a
   * `DetectCase` term is at hand, so that the loop over the cases does not
   * unfold the detection prompt.
   */
  ghost predicate Detects(s: Setup, detect: seq<Json> -> Result<Json>)
  {
    forall chat {:trigger DetectCase(s, chat)} :: detect(chat) == DetectCase(s, chat)
  }

  /** One test case: its detection result, as `detect` answers it, checked against its expectation. */
  function CaseOutcome(detect: seq<Json> -> Result<Json>, test: Json, verbose: bool): (r: Result<bool>)
    ensures r.Ok? ==> Get(test, "chat_context").Ok? && Get(test, "expected").Ok?
  {
    var _ :- if verbose then Get(test, "description") else Ok(JNull);
    var context :- Get(test, "chat_context");
    var chat :- ChatOf(context);
    var result :- detect(chat);
    var expected :- Get(test, "expected");
    var _ :- if verbose then Report(expected, result) else Ok(());
    Passed(result, expected)
  }

  /** The `results` dict: how many cases passed and how many failed. */
  datatype Results = Results(success: nat, failed: nat)

  /** `CaseOutcome` as a function of the test case. */
  function CaseFn(detect: seq<Json> -> Result<Json>, verbose: bool): Json -> Result<bool>
  {
    test => CaseOutcome(detect, test, verbose)
  }

  /**
   * The counts of the cases in order, each case scored by `outcome`; the
   * first case that raises decides the error. Every case is counted once.
   */
  function Tally(cases: seq<Json>, outcome: Json -> Result<bool>): Result<Results>
  {
    if cases == [] then Ok(Results(0, 0))
    else
      var n := |cases| - 1;
      var p := Tally(cases[..n], outcome);
      if p.Err? then Err(p.error)
      else
        var passed :- outcome(cases[n]);
        if passed then Ok(Results(p.value.success + 1, p.value.failed))
        else Ok(Results(p.value.success, p.value.failed + 1))
  }

  /** The counts exist exactly when no case raises, and every case is counted once. */
  lemma {:induction false} TallyShape(cases: seq<Json>, outcome: Json -> Result<bool>)
    ensures Tally(cases, outcome).Ok? <==> forall i :: 0 <= i < |cases| ==> outcome(cases[i]).Ok?
    ensures Tally(cases, outcome).Ok? ==> Tally(cases, outcome).value.success + Tally(cases, outcome).value.failed == |cases|
  {
    if cases != [] {
      var n := |cases| - 1;
      assert forall i :: 0 <= i < n ==> cases[..n][i] == cases[i];
      TallyShape(cases[..n], outcome);
    }
  }

  /** No case fails exactly when every case passes, and no case passes exactly when every case fails. */
  lemma {:induction false} TallyCounts(cases: seq<Json>, outcome: Json -> Result<bool>)
    requires Tally(cases, outcome).Ok?
    ensures Tally(cases, outcome).value.failed == 0 <==> forall i :: 0 <= i < |cases| ==> outcome(cases[i]) == Ok(true)
    ensures Tally(cases, outcome).value.success == 0 <==> forall i :: 0 <= i < |cases| ==> outcome(cases[i]) == Ok(false)
  {
    if cases != [] {
      var n := |cases| - 1;
      assert forall i :: 0 <= i < n ==> cases[..n][i] == cases[i];
      TallyCounts(cases[..n], outcome);
    }
  }

  /**
   * `_run_test_cases`: the counts, except that the verbose summary divides
   * by the number of cases and so raises ZeroDivisionError when there are none.
   */
  function Scores(s: Setup, cases: seq<Json>, verbose: bool): (r: Result<Results>)
    ensures verbose && cases == [] ==> r == Err(Raised("ZeroDivisionError"))
    ensures !verbose || cases != [] ==> r == Tally(cases, CaseFn(Detector(s), verbose))
  {
    var results :- Tally(cases, CaseFn(Detector(s), verbose));
    if verbose && cases == [] then Err(Raised("ZeroDivisionError")) else Ok(results)
  }

  /** `_run_test_cases` with its loop and counter increments. */
  method RunTestCases(s: Setup, cases: seq<Json>, verbose: bool) returns (r: Result<Results>)
    ensures r == Scores(s, cases, verbose)
  {
    var results := TallyCases(s, cases, verbose, Detector(s));
    if results.Err? {
      return Err(results.error);
    }
    if verbose && |cases| == 0 {
      return Err(Raised("ZeroDivisionError"));
    }
    return results;
  }

  /** The loop of `_run_test_cases`, for the cases' outcomes `outcome`. */
  method TallyCases(s: Setup, cases: seq<Json>, verbose: bool, ghost detect: seq<Json> -> Result<Json>)
    returns (r: Result<Results>)
    requires Detects(s, detect)
    ensures r == Tally(cases, CaseFn(detect, verbose))
  {
    ghost var outcome := CaseFn(detect, verbose);
    var success := 0;
    var failed := 0;
    var i := 0;
    while i < |cases|
      invariant 0 <= i <= |cases|
      invariant Tally(cases[..i], outcome) == Ok(Results(success, failed))
    {
      var step := ScoreCase(s, verbose, detect, cases, i, Results(success, failed));
      if step.Err? {
        TallyStays(cases, outcome, i + 1);
        return Err(step.error);
      }
      success, failed := step.value.success, step.value.failed;
      i := i + 1;
    }
    assert cases[..|cases|] == cases;
    return Ok(Results(success, failed));
  }

  /** One iteration: case `i` is run and counted on top of the cases before it. */
  method ScoreCase(s: Setup, verbose: bool, ghost detect: seq<Json> -> Result<Json>, cases: seq<Json>, i: nat,
                   counts: Results) returns (r: Result<Results>)
    requires Detects(s, detect) && i < |cases|
    requires Tally(cases[..i], CaseFn(detect, verbose)) == Ok(counts)
    ensures r == Tally(cases[..i + 1], CaseFn(detect, verbose))
  {
    var passed := RunCase(s, cases[i], verbose, detect);
    r := Count(CaseFn(detect, verbose), cases, i, passed, counts);
  }

  /** The counter increments of one iteration, for a case whose outcome is `passed`. */
  method Count(ghost outcome: Json -> Result<bool>, ghost cases: seq<Json>, i: nat, passed: Result<bool>,
               counts: Results) returns (r: Result<Results>)
    requires i < |cases| && Tally(cases[..i], outcome) == Ok(counts) && passed == outcome(cases[i])
    ensures r == Tally(cases[..i + 1], outcome)
  {
    assert cases[..i] + [cases[i]] == cases[..i + 1];
    TallySnoc(cases[..i], cases[i], outcome);
    if passed.Err? {
      return Err(passed.error);
    }
    if passed.value {
      return Ok(Results(counts.success + 1, counts.failed));
    }
    return Ok(Results(counts.success, counts.failed + 1));
  }

  /** Scoring one more case adds one to exactly one of the counts, or raises its error. */
  lemma TallySnoc(done: seq<Json>, test: Json, outcome: Json -> Result<bool>)
    requires Tally(done, outcome).Ok?
    ensures outcome(test).Err? ==> Tally(done + [test], outcome) == Err(outcome(test).error)
    ensures outcome(test) == Ok(true) ==>
      Tally(done + [test], outcome) == Ok(Results(Tally(done, outcome).value.success + 1, Tally(done, outcome).value.failed))
    ensures outcome(test) == Ok(false) ==>
      Tally(done + [test], outcome) == Ok(Results(Tally(done, outcome).value.success, Tally(done, outcome).value.failed + 1))
  {
    assert (done + [test])[..|done|] == done;
  }

  /** The body of the loop for one case, calling the detector. */
  method RunCase(s: Setup, test: Json, verbose: bool, ghost detect: seq<Json> -> Result<Json>) returns (r: Result<bool>)
    requires Detects(s, detect)
    ensures r == CaseOutcome(detect, test, verbose)
  {
    if verbose {
      var description := Get(test, "description");
      if description.Err? {
        return Err(description.error);
      }
    }
    var context := Get(test, "chat_context");
    if context.Err? {
      return Err(context.error);
    }
    var chat := ChatOf(context.value);
    if chat.Err? {
      return Err(chat.error);
    }
    var result := Transition(s.t, chat.value, s.systemPrompt, s.statePrompt, s.transitions, s.username, s.botname,
                             "quotation", s.run);
    assert result == DetectCase(s, chat.value) == detect(chat.value);
    if result.Err? {
      return Err(result.error);
    }
    var expected := Get(test, "expected");
    if expected.Err? {
      return Err(expected.error);
    }
    if verbose {
      var report := Report(expected.value, result.value);
      if report.Err? {
        return Err(report.error);
      }
    }
    r := Passed(result.value, expected.value);
  }

  /** Once the cases so far raise, the whole run raises the same error. */
  lemma {:induction false} TallyStays(cases: seq<Json>, outcome: Json -> Result<bool>, i: nat)
    requires i <= |cases| && Tally(cases[..i], outcome).Err?
    ensures Tally(cases, outcome) == Tally(cases[..i], outcome)
    decreases |cases| - i
  {
    if i < |cases| {
      assert cases[..i + 1][..i] == cases[..i];
      TallyStays(cases, outcome, i + 1);
    } else {
      assert cases[..i] == cases;
    }
  }
}
