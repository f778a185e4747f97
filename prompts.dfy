// What the prompt builders of the checker, hint and post-analysis modules
// (and their older variants) share: the bracket a transcript is fenced
// with, the role-to-speaker mapping of chat messages, the context window,
// and the fencing itself.
module Prompts {
  import opened Wrappers
  import opened Json
  import PyStr
  import Agentic

  const QuotationBracket: string := "\"\"\""
  const BacktickBracket: string := "```"

  /** `bracket in ['quotation', 'backtick']` and the string it selects. */
  function BracketOf(name: string): (r: Result<string>)
    ensures r.Err? <==> name != "quotation" && name != "backtick"
    ensures r.Err? ==> r.error == AssertionError
    ensures name == "quotation" ==> r == Ok(QuotationBracket)
    ensures name == "backtick" ==> r == Ok(BacktickBracket)
    ensures r.Ok? ==> IsBracket(r.value)
  {
    if name == "quotation" then Ok(QuotationBracket)
    else if name == "backtick" then Ok(BacktickBracket)
    else Err(AssertionError)
  }

  /** The two fencing strings. */
  predicate IsBracket(b: string)
  {
    b == QuotationBracket || b == BacktickBracket
  }

  // ------------------------------------------------------- role mapping

  /** What a message with a role other than user or assistant does. */
  datatype Policy = RejectOthers | SkipOthers

  /**
   * `msg.type` of a chat item. Items are dicts here; a missing `type` is the
   * AttributeError the attribute access raises.
   */
  function ItemType(msg: Json): (r: Result<Json>)
    ensures r.Ok? <==> msg.JObj? && Lookup(msg.fields, "type").Some?
  {
    if msg.JObj? && Lookup(msg.fields, "type").Some? then Ok(Lookup(msg.fields, "type").value)
    else Err(Raised("AttributeError"))
  }

  /**
   * The transcript line of one chat item, or None when the item leaves none.
   * With `onlyMessages`, items whose `type` is not "message" are skipped
   * before anything else is read. A user message becomes
   * "<username>: <content>", an assistant message "<botname>: <content>";
   * any other role raises ValueError under RejectOthers and is skipped under
   * SkipOthers.
   */
  function Line(msg: Json, username: string, botname: string, onlyMessages: bool, policy: Policy)
    : (r: Result<Option<string>>)
    ensures onlyMessages && ItemType(msg) != Ok(JStr("message")) && ItemType(msg).Ok? ==> r == Ok(None)
    ensures r.Ok? && r.value.Some? ==>
      (exists c :: r.value.value == username + ": " + c && Get(msg, "role") == Ok(JStr("user")))
      || (exists c :: r.value.value == botname + ": " + c && Get(msg, "role") == Ok(JStr("assistant")))
    ensures (Read(msg, onlyMessages) && OtherRole(msg) && policy == SkipOthers) ==> r == Ok(None)
    ensures (Read(msg, onlyMessages) && OtherRole(msg) && policy == RejectOthers
             && PyStrOf(Get(msg, "role").value).Ok?) ==>
      r == Err(ValueError("Unknown message role: " + PyStrOf(Get(msg, "role").value).value))
    ensures (Read(msg, onlyMessages) && (Get(msg, "role") == Ok(JStr("user")) || Get(msg, "role") == Ok(JStr("assistant")))
             && Get(msg, "content").Ok? && PyStrOf(Get(msg, "content").value).Ok?) ==>
      r.Ok? && r.value.Some?
  {
    var t :- if onlyMessages then ItemType(msg) else Ok(JStr("message"));
    if t != JStr("message") then Ok(None)
    else
      var role :- Get(msg, "role");
      if role == JStr("user") || role == JStr("assistant") then
        var content :- Get(msg, "content");
        var c :- PyStrOf(content);
        Ok(Some((if role == JStr("user") then username else botname) + ": " + c))
      else if policy == SkipOthers then Ok(None)
      else
        var s :- PyStrOf(role);
        Err(ValueError("Unknown message role: " + s))
  }

  /** The item is not skipped by the type filter. */
  predicate Read(msg: Json, onlyMessages: bool)
  {
    !onlyMessages || ItemType(msg) == Ok(JStr("message"))
  }

  /** The item has a role, and it is neither user nor assistant. */
  predicate OtherRole(msg: Json)
  {
    Get(msg, "role").Ok? && Get(msg, "role").value != JStr("user") && Get(msg, "role").value != JStr("assistant")
  }

  /** A transcript line starts with one of the two speaker names. */
  predicate SpokenBy(line: string, username: string, botname: string)
  {
    PyStr.StartsWith(line, username + ": ") || PyStr.StartsWith(line, botname + ": ")
  }

  /**
   * The lines of a chat, in order: the first item that raises decides the
   * error, and items that leave no line are skipped.
   */
  function RoleLines(chat: seq<Json>, username: string, botname: string, onlyMessages: bool, policy: Policy)
    : (r: Result<seq<string>>)
    ensures r.Ok? <==> forall i :: 0 <= i < |chat| ==> Line(chat[i], username, botname, onlyMessages, policy).Ok?
    ensures r.Err? ==> exists i :: (0 <= i < |chat| && Line(chat[i], username, botname, onlyMessages, policy) == Err(r.error)
      && forall j :: 0 <= j < i ==> Line(chat[j], username, botname, onlyMessages, policy).Ok?)
    ensures r.Ok? ==> |r.value| <= |chat|
    ensures r.Ok? ==> forall k :: 0 <= k < |r.value| ==> SpokenBy(r.value[k], username, botname)
  {
    if chat == [] then Ok([])
    else
      var n := |chat| - 1;
      var p := RoleLines(chat[..n], username, botname, onlyMessages, policy);
      assert forall i :: 0 <= i < n ==> chat[..n][i] == chat[i];
      if p.Err? then Err(p.error)
      else
        match Line(chat[n], username, botname, onlyMessages, policy)
        case Err(e) => Err(e)
        case Ok(None) => Ok(p.value)
        case Ok(Some(line)) =>
          assert SpokenBy(line, username, botname);
          Ok(p.value + [line])
  }

  /** Items that leave no line do not change the transcript. */
  lemma SkippedItem(chat: seq<Json>, msg: Json, username: string, botname: string, onlyMessages: bool, policy: Policy)
    requires Line(msg, username, botname, onlyMessages, policy) == Ok(None)
    ensures RoleLines(chat + [msg], username, botname, onlyMessages, policy) == RoleLines(chat, username, botname, onlyMessages, policy)
  {
    assert (chat + [msg])[..|chat|] == chat;
  }

  /** A message that leaves a line adds exactly that line at the end. */
  lemma KeptItem(chat: seq<Json>, msg: Json, line: string, username: string, botname: string, onlyMessages: bool, policy: Policy)
    requires RoleLines(chat, username, botname, onlyMessages, policy).Ok?
    requires Line(msg, username, botname, onlyMessages, policy) == Ok(Some(line))
    ensures RoleLines(chat + [msg], username, botname, onlyMessages, policy)
      == Ok(RoleLines(chat, username, botname, onlyMessages, policy).value + [line])
  {
    assert (chat + [msg])[..|chat|] == chat;
  }

  /** The `for msg in chat_context` loop that appends to `userbot_messages`. */
  method CollectLines(chat: seq<Json>, username: string, botname: string, onlyMessages: bool, policy: Policy)
    returns (r: Result<seq<string>>)
    ensures r == RoleLines(chat, username, botname, onlyMessages, policy)
  {
    var lines: seq<string> := [];
    var i := 0;
    while i < |chat|
      invariant 0 <= i <= |chat|
      invariant RoleLines(chat[..i], username, botname, onlyMessages, policy) == Ok(lines)
    {
      var next := AddLine(lines, chat, i, username, botname, onlyMessages, policy);
      if next.Err? {
        return next;
      }
      lines := next.value;
      i := i + 1;
    }
    assert chat[..|chat|] == chat;
    return Ok(lines);
  }

  /** One iteration: item `i` read on top of the lines of the items before it. */
  method AddLine(lines: seq<string>, chat: seq<Json>, i: nat, username: string, botname: string, onlyMessages: bool,
                 policy: Policy) returns (r: Result<seq<string>>)
    requires i < |chat| && RoleLines(chat[..i], username, botname, onlyMessages, policy) == Ok(lines)
    ensures r.Err? ==> r == RoleLines(chat, username, botname, onlyMessages, policy)
    ensures r.Ok? ==> r == RoleLines(chat[..i + 1], username, botname, onlyMessages, policy)
  {
    assert chat[..i + 1] == chat[..i] + [chat[i]];
    var line := Line(chat[i], username, botname, onlyMessages, policy);
    if line.Err? {
      assert RoleLines(chat[..i + 1], username, botname, onlyMessages, policy) == Err(line.error) by {
        assert chat[..i + 1][..i] == chat[..i];
      }
      RaisedStays(chat, i + 1, username, botname, onlyMessages, policy);
      return Err(line.error);
    }
    if line.value.Some? {
      KeptItem(chat[..i], chat[i], line.value.value, username, botname, onlyMessages, policy);
      return Ok(lines + [line.value.value]);
    }
    SkippedItem(chat[..i], chat[i], username, botname, onlyMessages, policy);
    return Ok(lines);
  }

  /** Once a prefix of the chat raises, the whole chat raises the same error. */
  lemma {:induction false} RaisedStays(chat: seq<Json>, i: nat, username: string, botname: string, onlyMessages: bool, policy: Policy)
    requires i <= |chat| && RoleLines(chat[..i], username, botname, onlyMessages, policy).Err?
    ensures RoleLines(chat, username, botname, onlyMessages, policy) == RoleLines(chat[..i], username, botname, onlyMessages, policy)
    decreases |chat| - i
  {
    if i < |chat| {
      assert chat[..i + 1][..i] == chat[..i];
      RaisedStays(chat, i + 1, username, botname, onlyMessages, policy);
    } else {
      assert chat[..i] == chat;
    }
  }

  // --------------------------------------------------- window and fence

  /** `lines[-k:] if k > 0 else lines`: the last k lines, or all of them. */
  function Window(lines: seq<string>, k: int): (r: seq<string>)
    ensures k <= 0 || k >= |lines| ==> r == lines
    ensures 0 < k < |lines| ==> r == lines[|lines| - k..]
  {
    if k > 0 then PyStr.SliceFrom(lines, -k) else lines
  }

  /** `"\n".join([bracket] + parts + [bracket]).strip()`. */
  function Wrap(bracket: string, parts: seq<string>): string
  {
    PyStr.Strip(PyStr.Join("\n", [bracket] + parts + [bracket]))
  }

  /** The fenced text is the bracket line, the parts on their own lines, and the bracket line. */
  lemma WrapShape(bracket: string, parts: seq<string>)
    requires IsBracket(bracket)
    ensures Wrap(bracket, parts) == Fenced(bracket, parts)
    ensures Fenced(bracket, parts) == PyStr.Join("\n", [bracket] + parts + [bracket])
  {
    var all := [bracket] + parts + [bracket];
    JoinFence(bracket, parts);
    var s := PyStr.Join("\n", all);
    assert s[0] == bracket[0];
    assert s[|s| - 1] == bracket[|bracket| - 1];
    PyStr.StripNoop(s);
  }

  /** The fence written out: bracket, newline, the joined parts, newline, bracket. */
  function Fenced(bracket: string, parts: seq<string>): string
  {
    if parts == [] then bracket + "\n" + bracket
    else bracket + "\n" + PyStr.Join("\n", parts) + "\n" + bracket
  }

  lemma JoinFence(bracket: string, parts: seq<string>)
    ensures PyStr.Join("\n", [bracket] + parts + [bracket]) == Fenced(bracket, parts)
  {
    var all := [bracket] + parts + [bracket];
    assert all[1..] == parts + [bracket];
    if parts == [] {
      assert all == [bracket, bracket];
    } else {
      PyStr.JoinSnoc("\n", parts, bracket);
    }
  }

  // ------------------------------------------------- transition entries

  /** `.replace("{username}", username).replace("{botname}", botname)` */
  function ReplaceNames(s: string, username: string, botname: string): string
  {
    PyStr.Replace(PyStr.Replace(s, "{username}", username, None), "{botname}", botname, None)
  }

  /** Text without either placeholder is left as it is. */
  lemma ReplaceNamesAbsent(s: string, username: string, botname: string)
    requires !PyStr.Contains(s, "{username}") && !PyStr.Contains(s, "{botname}")
    ensures ReplaceNames(s, username, botname) == s
  {
    PyStr.ReplaceAbsent(s, "{username}", username, None);
    PyStr.ReplaceAbsent(s, "{botname}", botname, None);
  }

  /** `transition[key]` used as a string: a value that is not one has no `replace`. */
  function TextField(transition: Json, key: string): (r: Result<string>)
    ensures r.Ok? <==> Get(transition, key).Ok? && Get(transition, key).value.JStr?
    ensures r.Ok? ==> Get(transition, key) == Ok(JStr(r.value))
    ensures Get(transition, key).Err? ==> r == Err(Get(transition, key).error)
  {
    var v :- Get(transition, key);
    if v.JStr? then Ok(v.s) else Err(Raised("AttributeError"))
  }

  /** The separator between transition entries. */
  const EntrySeparator: string := "\n---\n"

  // ------------------------------------------------------- additions

  /** `template.format(**fields).strip()` */
  function Fill(template: string, fields: map<string, string>): (r: Result<string>)
    ensures r.Ok? <==> PyStr.Format(template, fields).Ok?
    ensures r.Ok? ==> r.value == PyStr.Strip(PyStr.Format(template, fields).value)
    ensures r.Ok? ==> PyStr.Trimmed(r.value)
  {
    var s :- PyStr.Format(template, fields);
    Ok(PyStr.Strip(s))
  }

  /** `template.format(username=..., botname=...).strip()` */
  function FormatNames(template: string, username: string, botname: string): (r: Result<string>)
    ensures r.Ok? ==> PyStr.Trimmed(r.value)
  {
    Fill(template, Agentic.Names(username, botname))
  }
}
