# finesse backend, modelled in Dafny

finesse is a dialogue-practice backend. A learner talks to a role-played bot while LLM calls steer the exercise. An assessor checks whether the learner has reached the exercise's goal, a hint generator suggests the next move, and a post-analyser writes feedback once the dialogue ends. Scenario strategies move the dialogue through a graph of states. A handful of vendor clients record metrics, logs, experiments and a long-term profile of the learner.

This project models the deterministic core of that backend and proves properties of it:

- **The LLM request layers.**
  - `llmapi.dfy`: the provider layer, covering the canonical response and its fallback conversion, parameter merging, request building, tool-call validation, the per-provider retry loop, the sequential fallback strategy and the provider registry.
  - `litellmapi.dfy`: the older litellm layer, covering the model allow-list and per-model limitations, the ordered rejection rules, the two nested retry layers, result assembly and JSON-in-markdown extraction.
  - `openrouterapi.dfy`: the OpenRouter retry decorator and the payload and result shapes.
- **The prompt builders.**
  - `checker.dfy`, `hint.dfy`, `postanalyser.dfy` and their older variants `old_*.dfy`.
  - They cover mapping roles to speaker lines, windowing the transcript, fencing sections between bracket lines, filling placeholders, and renaming or normalising the model's JSON verdict.
  - `opening.dfy` holds the opening-text splitter.
- **The scenario strategies.**
  - `agentic.dfy`: breadth-first distance to SUCCESS and the progress score, recursive placeholder substitution over a scenario, scenario lookup, and one dialogue turn.
  - `mdagaw.dfy`: the multi-branch state machine, covering candidate transition collection, fork blocking, visited states and prompt accumulation.
- **The vendors.**
  - `memory.dfy`: the learner profile's filtering and diffing, and the memory store with its memoised tasks.
  - `grafana.dfy`: the metric store.
  - `loki.dfy`: the log buffer.
  - `amplitude.dfy`: the experiments client.
- **Shared helpers.**
  - `wrappers.dfy`: Option and Result, and the exceptions Python raises.
  - `json.dfy`: JSON values with Python's dict and list access rules.
  - `pystr.dfy`: Python string operations (`strip`, `join`, `replace`, `split`, `str.format` on named fields).
  - `prompts.dfy`: the helpers the prompt builders share.

The oracles are parameters of the model:

- the network;
- the LLM replies;
- `json.loads` and `json.dumps`;
- uuids and `random.choice`;
- litellm's capability queries and livekit's argument check.

Each Python operation that changes state step by step is a Dafny method. The method is proved equal to a specification function, or it states its whole new state. The properties the source promises are proved as lemmas over those functions.

## Model

| member | source | states |
|---|---|---|
| Prompts.BracketOf | backend/checker.py:94-95 | the bracket name is rejected with AssertionError exactly when it is neither `quotation` nor `backtick`; those select `"""` and the backtick triple |
| Prompts.ItemType | backend/checker.py:99 | `msg.type` can be read exactly when the item has a `type` |
| Prompts.Line | backend/checker.py:98-107 | a non-message item is skipped before anything else is read; a kept line is `"<username>: …"` for a user message and `"<botname>: …"` for an assistant one; another role is skipped by the older builders and raises `ValueError("Unknown message role: …")` in the newer ones; a user or assistant message with readable content always gives a line |
| Prompts.RoleLines | backend/checker.py:98-107 | the lines exist exactly when every item can be read, and otherwise the first failing item decides the error; there are no more lines than items, and each starts with one of the two speaker names |
| Prompts.SkippedItem | backend/checker.py:99-100 | an item that leaves no line does not change the transcript |
| Prompts.KeptItem | backend/checker.py:102-105 | a message that leaves a line appends exactly that line |
| Prompts.CollectLines | backend/checker.py:96-107 | the append loop computes exactly `RoleLines` |
| Prompts.AddLine | backend/checker.py:98-107 | one iteration extends the lines of the items before it by item `i`, or raises the error of the whole chat |
| Prompts.RaisedStays | backend/checker.py:98-107 | once a prefix of the chat raises, the whole chat raises the same error |
| Prompts.Window | backend/checker.py:108 | a window size `k > 0` keeps the last `k` lines, and any other size keeps all of them |
| Prompts.WrapShape | backend/checker.py:110 | joining the bracket, the lines and the bracket and stripping gives the bracket line, the lines, and the bracket line; the strip removes nothing |
| Prompts.JoinFence | backend/checker.py:110 | the newline join of bracket, parts and bracket is the fence written out |
| Prompts.ReplaceNamesAbsent | backend/old/transition.py:49-51 | text without `{username}` or `{botname}` is left unchanged by the two replacements |
| Prompts.TextField | backend/old/transition.py:50-51 | a transition field can be used as text exactly when it exists and is a string; a non-string has no `replace` |
| Prompts.Fill | backend/checker.py:112 | `template.format(...).strip()` succeeds exactly when the format does, and the result is stripped |
| Prompts.FormatNames | backend/checker.py:111-113 | a template formatted with the two names and stripped has no surrounding whitespace |
| Checker.JsonCtaField | backend/checker.py:122 | the JSON instructions ask for the `'CTA'` field exactly when there is a previous progress |
| Checker.CtaAddition | backend/checker.py:114-118 | the motivational addition is empty without a previous progress; otherwise it is the formatted, stripped template |
| Checker.TaskSections | backend/checker.py:108-123 | the sections exist exactly when the goal and every addition can be formatted; the chat is the window of the lines fenced between bracket lines, the formatted goal is fenced, and the CTA addition is empty without a previous progress |
| Checker.TaskFields | backend/checker.py:125-134 | the keyword arguments of the final format carry the chat, the goal, the CTA addition and the JSON instructions under their placeholder names |
| Checker.JsonFields | backend/checker.py:119-123 | the JSON instructions' CTA placeholder is empty exactly when there is no previous progress |
| Checker.Task | backend/checker.py:93-134 | an invalid bracket raises AssertionError first; an unknown role or an unreadable item raises its error; a built prompt is stripped |
| Checker.BuildTask | backend/checker.py:93-134 | the message loop computes exactly `Task` |
| Checker.ClearCta | backend/checker.py:167-168 | the clean-up succeeds exactly when the CTA is missing, None or a string, and a non-string has no `strip`; the CTA then becomes None when it was missing, None, blank, or "none"/"null" in any case, and stays as it was otherwise; other keys are unchanged |
| Checker.Normalize | backend/checker.py:165-168 | a reply content that is not a dict raises TypeError; otherwise the result echoes the previous progress, holds the cleaned CTA, and leaves every other key as the reply had it |
| Checker.Echo | backend/checker.py:166 | writing the previous progress sets that key alone and leaves the CTA as it was |
| Checker.NormalizeIdempotent | backend/checker.py:165-168 | normalising a normalised verdict again changes nothing |
| Checker.ClearCtaDone | backend/checker.py:167-168 | a CTA that is None or a non-blank string is left as it is |
| Checker.Verdict | backend/checker.py:158-169 | a failed call propagates, a reply without `content` raises, otherwise the result is the normalised content |
| Checker.Check | backend/checker.py:137-204 | a prompt that cannot be built raises its error; otherwise the result is the verdict on the reply to the prompt sent as the only system message |
| Hint.Points | backend/hint.py:117-118 | the bullet list of no items is empty, and of one item is that item after `- ` |
| Hint.Bullets | backend/hint.py:117-118 | one `- <item>` bullet per item, in order |
| Hint.HintLine | backend/hint.py:122 | a previously shown hint is listed on a line starting with the no-entry sign |
| Hint.HintLines | backend/hint.py:122 | the lines exist exactly when every hint has a readable `category` and `hint`; there is one line per hint, in order |
| Hint.PreviousHints | backend/hint.py:120-123 | the block is `""` when no hint was shown yet; otherwise it is the template filled with the lines of the last five hints; it is stripped |
| Hint.ShownAreLastFive | backend/hint.py:122 | the block lists the last five hints, or all of them when fewer, each on its own line and in the order they were shown |
| Hint.SuffixLines | backend/hint.py:122 | the lines of the last `m` hints are those of the hints themselves, in order |
| Hint.TaskSections | backend/hint.py:113-123 | the sections exist exactly when the JSON addition and the previous-hints block can be formatted; the chat is the window of the lines fenced between bracket lines, the goal is fenced, and the previous-hints block is empty when there are none |
| Hint.TaskFields | backend/hint.py:125-135 | the keyword arguments of the final format carry the chat, the goal and the previous-hints block under their placeholder names |
| Hint.Task | backend/hint.py:87-135 | an invalid bracket raises AssertionError first; an unknown role or an unreadable item raises its error; a built prompt is stripped |
| Hint.BuildTask | backend/hint.py:87-135 | the message loop computes exactly `Task` |
| Hint.KeyIn | backend/hint.py:175 | a string suggestion is found exactly when it is a key of the reply; only a string can be found, and a list or dict cannot be hashed |
| Hint.Suggested | backend/hint.py:174-175 | the suggested category is used only when the reply's `decideBestHintCategory` is a string that is one of the reply's keys |
| Hint.Select | backend/hint.py:174-180 | after selection `category` is the selected category and `hint` equals the reply's value under it; every other key is unchanged; a usable suggestion always succeeds |
| Hint.Chosen | backend/hint.py:174-179 | the chosen category is the suggestion when the reply has it as a key, else the random pick; a usable suggestion is always chosen |
| Hint.WithHint | backend/hint.py:176-180 | writing `category` and then `hint` succeeds when the category is a key; `hint` then equals the value under the category and other keys are unchanged |
| Hint.SelectedCategory | backend/hint.py:174-179 | the selection is the usable suggestion, or else one of the three categories |
| Hint.Run | backend/hint.py:138-227 | a prompt that cannot be built raises its error; otherwise a failed call or a reply without `content` raises, and the result is the selection on the content |
| PostAnalyser.TaskSections | backend/postanalyser.py:150-157 | the sections exist exactly when the goal and the four additions are formattable; the chat is the window of the lines fenced between bracket lines, and the goal is fenced with the names filled in |
| PostAnalyser.TaskFields | backend/postanalyser.py:159-169 | the keyword arguments of the final format carry the chat and the goal under their placeholder names |
| PostAnalyser.Task | backend/postanalyser.py:137-169 | an invalid bracket raises AssertionError first; a message of another role raises its error; a built prompt is stripped |
| PostAnalyser.BuildTask | backend/postanalyser.py:137-169 | the message loop computes exactly `Task` |
| PostAnalyser.Run | backend/postanalyser.py:172-233 | a prompt that cannot be built raises its error; otherwise a failed call raises, and the result is the reply's `content` |
| OldTransition.Entry | backend/old/transition.py:48-52 | an entry exists exactly when the transition has string `shortDesc` and `condition`; it starts with the `Next State:` line of the name with its placeholders replaced |
| OldTransition.EntryVerbatim | backend/old/transition.py:49-52 | a transition whose texts hold no placeholder is listed as `Next State:`, `Short Condition:` and `Condition:` lines, verbatim |
| OldTransition.ListingShape | backend/old/transition.py:42-57 | an invalid bracket raises AssertionError; otherwise the listing exists exactly when every entry does, and it is the entries joined by `\n---\n`, fenced between bracket lines |
| OldTransition.FormatTransitions | backend/old/transition.py:42-57 | the append loop computes exactly the listing |
| OldTransition.Task | backend/old/transition.py:71-81 | an empty chat fails the first assertion; a last message without `role` raises, one whose role is not `user` fails the second assertion; a built prompt follows a chat ending in a user message, has a listing, and is stripped |
| OldTransition.TaskFields | backend/old/transition.py:74-81 | the keyword arguments carry the listing and the stripped JSON instructions under their placeholder names |
| OldTransition.Messages | backend/old/transition.py:85 | the model receives the prompt as a system message followed by the whole chat |
| OldTransition.Detect | backend/old/transition.py:60-88 | a prompt that cannot be built raises its error; otherwise the result is the `json` of the model's reply to the system message and the chat |
| OldTransition.BuildTask | backend/old/transition.py:71-81 | the assertions and the listing loop compute exactly `Task` |
| OldTransition.Transition | backend/old/transition.py:60-88 | `transition` computes exactly `Detect` |
| OldTransition.SameEquivalence | backend/old/transition.py:637-638 | the equality used to compare results is reflexive, symmetric and transitive |
| OldTransition.Passed | backend/old/transition.py:637-638 | a case passes only when `isTransition` agrees and, when a transition is expected, `toState` agrees too; a disagreeing `isTransition` fails without reading `toState`, and an agreeing one with no transition expected passes |
| OldTransition.ChatOf | backend/old/transition.py:71-72 | a list is the chat handed to `transition`; any other value raises before the model is called |
| OldTransition.CaseOutcome | backend/old/transition.py:615-638 | one case is scored only when it has `chat_context` and `expected` |
| OldTransition.TallyShape | backend/old/transition.py:613-647 | the counts exist exactly when no case raises, and then success plus failed equals the number of cases |
| OldTransition.TallyCounts | backend/old/transition.py:637-647 | no case failed exactly when every case passed, and no case passed exactly when every case failed |
| OldTransition.Scores | backend/old/transition.py:611-656 | with the verbose summary and no cases the division raises ZeroDivisionError; otherwise the result is the tally of the cases |
| OldTransition.RunTestCases | backend/old/transition.py:611-656 | the loop with its counter increments computes exactly `Scores` |
| OldTransition.TallyCases | backend/old/transition.py:615-650 | the loop over the cases computes exactly the tally |
| OldTransition.ScoreCase | backend/old/transition.py:615-647 | one iteration extends the tally of the cases before it by case `i` |
| OldTransition.Count | backend/old/transition.py:640-647 | the counter increments of one case extend the tally by that case |
| OldTransition.TallySnoc | backend/old/transition.py:640-647 | scoring one more case raises its error, or adds one to `success` when it passed and to `failed` when it did not |
| OldTransition.RunCase | backend/old/transition.py:616-638 | the loop body for one case computes exactly `CaseOutcome` |
| OldTransition.TallyStays | backend/old/transition.py:615-647 | once a case raises, the whole run raises the same error |
| OldDpe.FormatRpMessage | backend/old/dpe.py:79-85 | the result starts and ends with `*`; between them is a prefix of the stripped message whose removed tail is all trailing punctuation, and which neither starts with whitespace nor ends with punctuation |
| OldDpe.RpMessageOfInner | backend/old/dpe.py:79-85 | a message with no surrounding whitespace and no trailing punctuation is only wrapped in asterisks |
| OldDpe.Goal | backend/old/dpe.py:65-66 | the goal after both placeholder rounds is stripped |
| OldDpe.GoalWithoutPlaceholders | backend/old/dpe.py:65-66 | a goal holding none of `[username]`, `[botname]`, `[A]`, `[B]` is only stripped |
| OldDpe.TaskSections | backend/old/dpe.py:64-68 | the chat is the last `n_context` lines fenced between bracket lines, all of them for `n_context == 0`; the goal is fenced; the JSON instructions are stripped |
| OldDpe.TaskFields | backend/old/dpe.py:70-76 | the keyword arguments of the final format carry the chat, goal, names and JSON instructions under their placeholder names |
| OldDpe.Prompt | backend/old/dpe.py:52-76 | an invalid bracket raises AssertionError first; a failing message read raises that error; a built prompt is stripped |
| OldDpe.BuildPrompt | backend/old/dpe.py:52-76 | the message loop, which keeps only user and assistant lines, computes exactly `Prompt` |
| OldDpe.RpOf | backend/old/dpe.py:122-125 | a missing value raises its lookup error, a non-string raises AttributeError, a string is formatted as a roleplay message |
| OldDpe.RewriteField | backend/old/dpe.py:122-125 | rewriting one key succeeds exactly when its value can be read and formatted; the key then holds the formatted value and every other key keeps its value |
| OldDpe.RewriteNested | backend/old/dpe.py:123-124 | rewriting `result[outer][inner]` succeeds exactly when that value can be read and formatted; it then holds the formatted value, and every other key of the result and of the nested dict keeps its value |
| OldDpe.RewriteReactions | backend/old/dpe.py:123-124 | both reactions are rewritten, in order, the first failure being raised; keys other than `option1` and `option2` keep their values |
| OldDpe.RewriteAnswers | backend/old/dpe.py:123-125 | the two reactions and the fallback reaction are rewritten; other keys keep their values |
| OldDpe.RewriteFields | backend/old/dpe.py:122-125 | the four in-place rewrites succeed exactly when all four values can be read and formatted, a bad `plot_twist` raising first; each of the four then holds its formatted value and every other key keeps its value |
| OldDpe.Frame | backend/old/dpe.py:122-125 | two dicts that agree on a key agree on everything read through it |
| OldDpe.Options | backend/old/dpe.py:126-130 | `options` has exactly the keys `option1`, `option2`, `fallback_reaction`, in this order, with the values of the rewritten result |
| OldDpe.Rewrite | backend/old/dpe.py:121-132 | the post-processing succeeds exactly when all four values can be formatted; the returned result holds the four formatted values and every other key unchanged, and `options` has exactly its three keys, holding the result's values |
| OldDpe.Plottwist | backend/old/dpe.py:89-132 | a type other than `action` raises AssertionError before anything else; a prompt that cannot be built raises its error; a returned pair comes from a reply whose `json` has all four formattable values, with the formatted `plot_twist` in the result and an `options` dict of exactly three keys |
| OldHint.Entry | backend/old/hint.py:74-80 | an entry exists exactly when the transition has `shortDesc`, `condition` and `isPositive`; it starts with the green tag exactly when `isPositive` is truthy and with the red tag exactly when it is not |
| OldHint.EntryVerbatim | backend/old/hint.py:75-80 | a positive transition whose texts hold no placeholder is listed as tag, name, `Short Condition:` and `Condition:` lines, verbatim |
| OldHint.Listing | backend/old/hint.py:68-85 | an invalid bracket raises AssertionError; otherwise the listing exists exactly when every entry does, and it is the entries joined by `\n---\n`, fenced between bracket lines |
| OldHint.FormatTransitions | backend/old/hint.py:68-85 | the append loop computes exactly `Listing` |
| OldHint.TaskSections | backend/old/hint.py:111-116 | the sections exist exactly when the JSON addition can be formatted; the chat, the system prompt, the state prompt and the goal are each fenced between bracket lines, and the listing is kept as given |
| OldHint.TaskFields | backend/old/hint.py:118-127 | the keyword arguments of the final format carry each section under its placeholder name |
| OldHint.Task | backend/old/hint.py:88-127 | an invalid bracket raises AssertionError first; a failing message read raises that error; a built prompt has a listing and is stripped |
| OldHint.BuildTask | backend/old/hint.py:88-127 | the message loop, which skips roles other than user and assistant, and the listing loop compute exactly `Task` |
| OldHint.Hint | backend/old/hint.py:130-173 | a prompt that cannot be built raises its error; otherwise the result is the `json` of the model's reply to the prompt |
| OldHint.JsonOf | backend/old/hint.py:166-171 | a failed reply propagates; otherwise the result is the reply's `json` key, which raises when missing |
| OldChecker.TaskSections | backend/old/checker.py:75-79 | the sections exist exactly when the goal and the three additions can be formatted with the names; the chat is fenced between bracket lines, and so is the formatted goal |
| OldChecker.TaskFields | backend/old/checker.py:81-89 | the keyword arguments of the final format carry the fenced chat, the fenced goal and the additions under their placeholder names |
| OldChecker.Task | backend/old/checker.py:61-89 | a bracket other than `quotation`/`backtick` raises AssertionError before anything else; a failing message read raises that error; a built prompt has read the whole chat and is stripped |
| OldChecker.BuildTask | backend/old/checker.py:61-89 | the message loop, which skips roles other than user and assistant, computes exactly `Task` |
| OldChecker.OutputShape | backend/old/checker.py:115-120 | the output is built exactly when the reply has all four fields; it then has exactly the keys `isGoalComplete`, `goalProgress`, `hintHowToAchieveGoal`, `LLMexplainDecision`, in this order, and a missing field raises KeyError |
| OldChecker.OutputValues | backend/old/checker.py:115-120 | each returned key holds the reply field it renames |
| OldChecker.Verdict | backend/old/checker.py:109-120 | a failed model call propagates, a reply without `json` raises, otherwise the result is the renamed output of the reply's `json` |
| OldChecker.Check | backend/old/checker.py:93-121 | a prompt that cannot be built raises its error; otherwise the verdict is that of the model's reply to the prompt |
| OldPostAnalyser.Items | backend/old/postanalyser.py:121-122 | `["(str)"] * n` has `max(n, 0)` elements, each the placeholder `(str)` |
| OldPostAnalyser.ItemListShape | backend/old/postanalyser.py:121-122 | the joined list is empty for `n <= 0`, one placeholder for 1, and grows by `", (str)"` per further element |
| OldPostAnalyser.ItemListLength | backend/old/postanalyser.py:121-122 | for `n >= 1` the joined list is `7n - 2` characters long, so it holds exactly `n` placeholders |
| OldPostAnalyser.CountFields | backend/old/postanalyser.py:119-120 | the insights and feedback additions are formatted with `count` set to the decimal form of the requested number |
| OldPostAnalyser.JsonFields | backend/old/postanalyser.py:123 | the JSON instructions are formatted with the two placeholder lists for `n_insights` and `n_feedbacks` |
| OldPostAnalyser.TaskSections | backend/old/postanalyser.py:115-123 | the sections exist exactly when the goal and every addition can be formatted; chat and formatted goal are fenced between bracket lines, the insights addition states the count and the JSON instructions carry the two lists |
| OldPostAnalyser.TaskFields | backend/old/postanalyser.py:125-135 | the keyword arguments of the final format carry each section under its placeholder name |
| OldPostAnalyser.Task | backend/old/postanalyser.py:101-135 | an invalid bracket raises AssertionError first; a failing message read raises that error; a built prompt has read the whole chat and is stripped |
| OldPostAnalyser.BuildTask | backend/old/postanalyser.py:101-135 | the message loop, which skips roles other than user and assistant, computes exactly `Task` |
| OldPostAnalyser.OutputShape | backend/old/postanalyser.py:165-171 | the output is built exactly when the reply has all five fields; it then has exactly the five renamed keys in order, and a missing field raises KeyError |
| OldPostAnalyser.OutputValues | backend/old/postanalyser.py:165-171 | each returned key holds the reply field it renames |
| OldPostAnalyser.Analysis | backend/old/postanalyser.py:158-171 | a failed model call propagates, a reply without `json` raises, otherwise the result is the renamed output of the reply's `json` |
| OldPostAnalyser.Analyse | backend/old/postanalyser.py:139-171 | a prompt that cannot be built raises its error; otherwise the analysis is that of the model's reply to the prompt |
| PyStr.FindChar | backend/test.py:9 | the first occurrence of a character at or after a position, and none before it; none when there is no such occurrence (the `*` of the opening regex, the `}` closing a format field) |
| Opening.Search | backend/test.py:9 | `re.search` for `\*[^*]*\*`: the leftmost position where the pattern matches and the end of that match; none when it matches nowhere |
| Opening.StarStartsMatch | backend/test.py:9 | a star followed somewhere later by another star starts a match |
| Opening.NoMatchBeforeStar | backend/test.py:9 | a position before a star where no match starts holds no star |
| Opening.SearchIsFirstTwoStars | backend/test.py:9-10 | there is a match exactly when the text holds two stars; the match starts at the first star, ends at the next one, and has no star inside |
| Opening.SearchAt | backend/test.py:9 | with `i` the first star and `j` the next one, the match is `text[i..j+1]` |
| Opening.SplitOpeningText | backend/test.py:4-14 | the regular part never has leading or trailing whitespace |
| Opening.SplitWithoutRoleplay | backend/test.py:9-11 | the roleplay part is empty exactly when the text has fewer than two stars, and then the result is `("", text.strip())` |
| Opening.SplitRoleplay | backend/test.py:9-14 | with `i` the first star and `j` the next, the roleplay part is `text[i..j+1]` and the regular part is the text without that first occurrence, stripped |
| Agentic.ShortestPath | backend/strategies/agentic/agentic.py:181-194 | for a non-terminal start, the breadth-first search returns the least number of transitions that reach SUCCESS; `ValueError("No path to SUCCESS from <start>")` comes only when no number of transitions reaches SUCCESS; `KeyError` comes only when a state met has no entry |
| Agentic.Step | backend/strategies/agentic/agentic.py:182-193 | one dequeue keeps the search invariant: visited states are exactly their recorded distance away, the queue is ordered by distance, and every level below the front is processed; a SUCCESS found is exactly `n` transitions away |
| Agentic.Expand | backend/strategies/agentic/agentic.py:185-193 | the transition loop of one state either finds SUCCESS one transition past that state's distance, or leaves all its targets visited |
| Agentic.Consider | backend/strategies/agentic/agentic.py:189-193 | a transition into SUCCESS is exactly one more than the state's distance; any other new target is visited and queued at the next distance |
| Agentic.Exhausted | backend/strategies/agentic/agentic.py:194 | once the queue is empty, no number of transitions from the start reaches SUCCESS |
| Agentic.StartInv | backend/strategies/agentic/agentic.py:181 | the search starts with the start state queued at distance 0 and visited |
| Agentic.FindShortestPath | backend/strategies/agentic/agentic.py:175-194 | SUCCESS is 0 away and FAIL is infinitely far; for any other state, the result is the least number of transitions to SUCCESS, or one of the two errors above |
| Agentic.DistancePositive | backend/strategies/agentic/agentic.py:181-190 | from a state other than SUCCESS the distance is at least 1 |
| Agentic.DistanceUnique | backend/strategies/agentic/agentic.py:175-194 | the least number of transitions is unique |
| Agentic.Progress | backend/strategies/agentic/agentic.py:208-210 | `1 + 9*(1 - current/start)` lies in [1, 10]; it is 10 exactly at distance 0 and 1 exactly when the current distance equals START's |
| Agentic.ProgressMonotone | backend/strategies/agentic/agentic.py:209 | being fewer transitions from SUCCESS never gives less progress |
| Agentic.CalculateProgress | backend/strategies/agentic/agentic.py:173-210 | 10 at SUCCESS, 1 at FAIL and at START; otherwise the formula on the two shortest distances, which lies in [1, 10] and is 10 only at SUCCESS; AssertionError exactly when the current state is farther from SUCCESS than START is; any other error is the search's ValueError for a state from which SUCCESS is unreachable, or its KeyError for a graph with a missing state; on a graph where both searches can run, the score is returned exactly when both states reach SUCCESS and the current one is no farther than START |
| Agentic.FormatScenarioShape | backend/strategies/agentic/agentic.py:96-105 | the formatted scenario has the same dict keys in the same order, the same list lengths, strings where there were strings and every other leaf unchanged; every string in it is stripped |
| Agentic.FormatFieldsShape | backend/strategies/agentic/agentic.py:98-99 | formatting a dict keeps its keys, in order, and strips every string in its values |
| Agentic.FormatItemsShape | backend/strategies/agentic/agentic.py:100-101 | formatting a list keeps its length and strips every string in it |
| Agentic.FormatPlainLeaf | backend/strategies/agentic/agentic.py:102-103 | a string leaf without braces is only stripped |
| Agentic.GetScenario | backend/strategies/agentic/agentic.py:53-57 | the result is the first scenario whose skill and stringified level match; `ValueError` exactly when none matches; another error is the one raised by reading the first scenario that is not a non-match |
| Agentic.Episode.constructor | backend/strategies/agentic/agentic.py:283-290 | a new episode is at START with the assistant's opening message as the only message |
| Agentic.Episode.PromptOf | backend/strategies/agentic/agentic.py:322-356 | a state's prompt is read exactly when the state exists and has one; otherwise KeyError |
| Agentic.Episode.Respond | backend/strategies/agentic/agentic.py:314-370 | the user message is always recorded; the state changes only by a judged transition, and only to an existing state (else AssertionError with the state unchanged); on success the assistant's reply to the system prompt of the now current state is recorded and the result says whether that state is terminal |
| Mdagaw.RegularCandidate | backend/strategies/mdagaw/mdagaw.py:599-607 | a transition of an active state becomes a candidate exactly when it has a `condition` and a `type` (else KeyError); the source is the state; it is positive when the target is SUCCESS or `isPositive` is missing or true |
| Mdagaw.TransitionCandidates | backend/strategies/mdagaw/mdagaw.py:594-607 | every candidate of an active state's transitions names that state as its source; the only error is KeyError |
| Mdagaw.TransitionCandidatesExact | backend/strategies/mdagaw/mdagaw.py:594-607 | exactly the unblocked transitions become candidates, each under the key `<state>:<target>`; the collection fails exactly when an unblocked one lacks its condition or type |
| Mdagaw.StateCandidates | backend/strategies/mdagaw/mdagaw.py:566-592 | an inactive state yields one `INITIAL:<name>` candidate exactly when it has a condition and no state of any branch has a transition to it, and nothing otherwise; an active state without transitions yields nothing |
| Mdagaw.Globals | backend/strategies/mdagaw/mdagaw.py:610-619 | exactly the unvisited terminal states that have a condition yield a `GLOBAL:<name>` candidate, positive exactly for SUCCESS |
| Mdagaw.CollectedFrom | backend/strategies/mdagaw/mdagaw.py:560-619 | every collected candidate is a GLOBAL one, the INITIAL one of an inactive state with a condition and no incoming transition, or a typed one whose source is an active state |
| Mdagaw.Collected | backend/strategies/mdagaw/mdagaw.py:560-619 | the candidates of every active state and every unvisited terminal; the only error is KeyError |
| Mdagaw.CollectedLookup | backend/strategies/mdagaw/mdagaw.py:560-619 | the value collected under a key is that of the last candidate with that key, branch states before global terminals |
| Mdagaw.CollectState | backend/strategies/mdagaw/mdagaw.py:565-607 | the loop over one state's transitions adds exactly that state's candidates, or fails exactly when they cannot be built |
| Mdagaw.CollectGlobals | backend/strategies/mdagaw/mdagaw.py:610-619 | the loop over the terminal states adds exactly the GLOBAL candidates |
| Mdagaw.Collect | backend/strategies/mdagaw/mdagaw.py:560-619 | the collection loops compute exactly the collected candidates |
| Mdagaw.Target | backend/strategies/mdagaw/mdagaw.py:624 | the target is the second colon-separated part of the key, and holds no colon; a key without a colon raises IndexError |
| Mdagaw.TargetOfKey | backend/strategies/mdagaw/mdagaw.py:600-624 | for names without colons, the target read back from `<state>:<target>` is the target |
| Mdagaw.Retargeted | backend/strategies/mdagaw/mdagaw.py:623-625 | every candidate is re-keyed by its target, in order and with its value kept; this fails with IndexError exactly when some key has no colon |
| Mdagaw.ToCheck | backend/strategies/mdagaw/mdagaw.py:622-625 | `transitions_to_check` is keyed by target, and the value under a target is that of the last candidate with that target |
| Mdagaw.BuildToCheck | backend/strategies/mdagaw/mdagaw.py:622-625 | the re-keying loop computes exactly `ToCheck` |
| Mdagaw.FindSource | backend/strategies/mdagaw/mdagaw.py:664-667 | the loop finds `SourceOf`: the source of the first collected key ending in `:<target>`; there is none exactly when no key ends so |
| Mdagaw.BlockOthers | backend/strategies/mdagaw/mdagaw.py:690-692 | every exit other than the chosen one is blocked; the keys, the chosen exit and every other field are unchanged |
| Mdagaw.ForkBlocksSiblings | backend/strategies/mdagaw/mdagaw.py:684-692 | choosing a fork exit blocks every other exit of that state, keeps the chosen exit as it was and leaves every other state of the branch alone |
| Mdagaw.NonForkKeeps | backend/strategies/mdagaw/mdagaw.py:685-688 | a chosen transition that is not a fork exit changes nothing |
| Mdagaw.BlockExits | backend/strategies/mdagaw/mdagaw.py:690-692 | the blocking loop computes exactly `BlockOthers` |
| Mdagaw.BlockBranch | backend/strategies/mdagaw/mdagaw.py:685-692 | a chosen transition changes only the source state of a branch, and the branch holds that state afterwards exactly when it did before |
| Mdagaw.BlockIn | backend/strategies/mdagaw/mdagaw.py:685-692 | the body of the fork loop blocks exactly as `BlockBranch` says for one branch |
| Mdagaw.Blocked | backend/strategies/mdagaw/mdagaw.py:684-692 | every branch is updated on its own, and the list of branches keeps its length and names |
| Mdagaw.BlockFork | backend/strategies/mdagaw/mdagaw.py:684-692 | the fork loop updates every branch holding the source exactly as `Blocked` says |
| Mdagaw.VisitedPrompt | backend/strategies/mdagaw/mdagaw.py:730-745 | a visited state adds a non-empty prompt or nothing; KeyError only for a visited terminal that the terminal states lack |
| Mdagaw.BranchPrompt | backend/strategies/mdagaw/mdagaw.py:738-742 | the addition is that of the first branch holding the state with an `addprompt`; none means no branch holding it has one |
| Mdagaw.VisitedPrompts | backend/strategies/mdagaw/mdagaw.py:726-745 | at most one non-empty addition per visited state, START skipped; failure only through a visited terminal |
| Mdagaw.PromptSpec | backend/strategies/mdagaw/mdagaw.py:720-748 | the system prompt starts with the character and ends with a blank line and the roleplay addition |
| Mdagaw.BuildPrompt | backend/strategies/mdagaw/mdagaw.py:720-748 | the accumulating loop builds exactly `PromptSpec` |
| Mdagaw.PromptLoop | backend/strategies/mdagaw/mdagaw.py:726-745 | the loop over the visited states appends exactly their additions |
| Mdagaw.AddVisit | backend/strategies/mdagaw/mdagaw.py:670-671 | the target is afterwards visited; it is appended only when new |
| Mdagaw.AddVisitKeepsOrder | backend/strategies/mdagaw/mdagaw.py:670-671 | the visit list stays free of duplicates and keeps the first-visit order |
| Mdagaw.JudgeStatePrompt | backend/strategies/mdagaw/mdagaw.py:635-645 | the judge's state prompt is empty or starts with a blank line, and is empty when only START is active |
| Mdagaw.BranchAdditions | backend/strategies/mdagaw/mdagaw.py:642-645 | one state's additions are empty or start with a blank line, and are empty when no branch holding the state has an `addprompt` |
| Mdagaw.JudgeStatePromptStart | backend/strategies/mdagaw/mdagaw.py:638-640 | an active START adds nothing to the judge's state prompt |
| Mdagaw.JudgeStatePromptSnoc | backend/strategies/mdagaw/mdagaw.py:638-645 | every other active state appends the additions of all branches holding it, in branch order |
| Mdagaw.AdvanceWithoutCandidates | backend/strategies/mdagaw/mdagaw.py:632 | without candidates the judge is not asked and nothing changes |
| Mdagaw.AdvanceFollowsJudge | backend/strategies/mdagaw/mdagaw.py:647-692 | with candidates, a judge error is raised, a verdict without a transition changes nothing, and a transition adds the judge's target to the visits and blocks forks from the source of the first key ending in `:<target>` unless that source is INITIAL, GLOBAL or absent |
| Mdagaw.AdvanceBlocksForkSiblings | backend/strategies/mdagaw/mdagaw.py:683-692 | after a transition out of a fork state, in every branch holding that state each other exit is blocked, the chosen exit is kept, and every other state is unchanged |
| Mdagaw.Advance | backend/strategies/mdagaw/mdagaw.py:555-692 | the transition step computes exactly `AdvanceSpec`: a failed collection raises KeyError, and the visits stay free of duplicates |
| Mdagaw.Story.constructor | backend/strategies/mdagaw/mdagaw.py:519-526 | a new story has visited only START, and the opening line is the only message |
| Mdagaw.Story.Respond | backend/strategies/mdagaw/mdagaw.py:550-765 | the user message is always recorded first; the branches and visits become exactly those of `AdvanceSpec`, and an error there leaves both unchanged; on success the reply to the rebuilt system prompt is recorded and the result says whether the most recent visit is terminal |
| Mdagaw.Speak | backend/strategies/mdagaw/mdagaw.py:747-757 | the reply is the oracle's answer to the rebuilt system prompt |
| Memory.KeepInBounds | backend/vendors/memory.py:147 | the kept elements are exactly those of the list whose length is within the bounds, and no more of them |
| Memory.KeepInBoundsNoop | backend/vendors/memory.py:147 | a list whose elements are all within the bounds is kept whole |
| Memory.KeepLast | backend/vendors/memory.py:148-149 | the result is a suffix of the list; a positive `k` keeps the last `k` elements (all when fewer); a falsy `k` keeps the list |
| Memory.FilterFields | backend/vendors/memory.py:157-164 | a filtered record keeps its fields and their order |
| Memory.FilterBounded | backend/vendors/memory.py:135-166 | after filtering, every scalar and list element is within the length bounds and no list is longer than a positive `k` |
| Memory.KeepLastBounded | backend/vendors/memory.py:147-149 | trimming an in-bounds list to its last `k` elements keeps it in bounds and no longer than `k` |
| Memory.FilterFieldsBounded | backend/vendors/memory.py:157-164 | every field of a filtered record respects the bounds |
| Memory.FilterBoundedNoop | backend/vendors/memory.py:145-164 | filtering a profile that already respects the bounds changes nothing (for `k` that is not negative) |
| Memory.FilterFieldsBoundedNoop | backend/vendors/memory.py:157-164 | filtering a record whose fields already respect the bounds changes nothing |
| Memory.FilterIdempotent | backend/vendors/memory.py:135-166 | filtering twice with the same bounds is filtering once (for `k` that is not negative) |
| Memory.Filter | backend/vendors/memory.py:135-166 | the field-by-field loop on a copy computes exactly `FilterValue` |
| Memory.FilterFieldsSnoc | backend/vendors/memory.py:158-163 | filtering one more field appends that field, filtered |
| Memory.Unique | backend/vendors/memory.py:219-224 | `list(set(xs))` holds the same elements as `xs`, each once |
| Memory.Minus | backend/vendors/memory.py:224 | the difference holds exactly the elements not in the other list, each once when the first list has no repeats, and is empty when all are in the other list |
| Memory.DiffValue | backend/vendors/memory.py:201-230 | a None or empty-list update leaves the default; a scalar update is in the diff exactly when it differs from the old value; a list update yields the new elements that the old list lacks, each once; a record update is diffed field by field and keeps its fields |
| Memory.DiffFields | backend/vendors/memory.py:201-231 | the diff of a record has exactly the update's fields, in order |
| Memory.DiffSelfEmpty | backend/vendors/memory.py:197-237 | a profile updated with itself has an empty diff |
| Memory.DiffFieldsSelf | backend/vendors/memory.py:201-231 | a record updated with its own fields has an empty diff |
| Memory.Compare | backend/vendors/memory.py:198-231 | the recursive comparison computes exactly `DiffValue` against the old profile |
| Memory.CompareFields | backend/vendors/memory.py:201-227 | the loop over the new record's fields computes exactly `DiffFields` |
| Memory.CompareField | backend/vendors/memory.py:202-205 | one field is diffed against the old field of the same name, or against None |
| Memory.DiffFieldsSnoc | backend/vendors/memory.py:201-230 | diffing one more field appends that field's diff |
| Memory.UtteranceLines | backend/vendors/memory.py:821-827 | at most one line per utterance, each starting with `User: ` or `Tutor: ` |
| Memory.PrepareUtterances | backend/vendors/memory.py:821-828 | the transcript is stripped, and it exists exactly when every utterance can be read |
| Memory.OtherRolesDropped | backend/vendors/memory.py:824-827 | an utterance from another speaker leaves no line |
| Memory.MemoryStore.constructor | backend/vendors/memory.py:664-676 | a new store has no profile and no memoised task |
| Memory.MemoryStore.Sysprompt | backend/vendors/memory.py:678-687 | an empty store (no profile or an empty one) gives `{}`; otherwise the profile's JSON dump |
| Memory.MemoryStore.LoadMemoryTask | backend/vendors/memory.py:689-692 | the first call creates the load task and later calls return that same one; nothing else changes |
| Memory.MemoryStore.SaveMemoryTask | backend/vendors/memory.py:694-697 | the save task is memoised in the same way |
| Memory.MemoryStore.LoadMemory | backend/vendors/memory.py:699-714 | a falsy or invalid stored file leaves no profile; a valid one is stored filtered with the store bounds (1, 100, 5) |
| Memory.MemoryStore.SaveMemory | backend/vendors/memory.py:716-726 | nothing is saved from an empty store; otherwise the profile is re-filtered, kept and saved |
| Memory.UpdateOutcome | backend/vendors/memory.py:728-803 | as written, `update_memory` never creates or removes a profile; a diff is returned exactly when there is a profile and the extraction succeeded; a kept profile is within the store's bounds |
| Memory.IntendedOutcome | backend/vendors/memory.py:785-792 | as intended, a profile exists afterwards exactly when one existed or the extraction succeeded; the first extraction is stored within the store's bounds and returns no diff |
| Memory.UpdatesNeverInitialise | backend/vendors/memory.py:770-803 | as written, a store without a profile has none after any series of updates |
| Memory.InitDiscardsExtraction | backend/vendors/memory.py:785-792 | as written the first extraction is discarded; as intended it is stored, filtered |
| Memory.IntendedProfileAppears | backend/vendors/memory.py:728-803 | as intended, after any series of updates with at least one successful extraction the store holds a profile within its bounds |
| Memory.IntendedKeepsBounded | backend/vendors/memory.py:747-768 | as intended, a bounded profile stays present and bounded through any further updates |
| Memory.MemoryStore.UpdateMemory | backend/vendors/memory.py:728-803 | the store and the result are exactly `UpdateOutcome`: a failed extraction changes nothing and yields None; without a profile nothing is stored and None is returned; with one, the filtered diff against the stored profile is returned and the profile is only re-filtered |
| Grafana.Build | backend/vendors/grafana.py:83-149 | a histogram raises NotImplementedError; a gauge or counter needs a number and an enum a string, else AssertionError; a built metric has the given name and unit, and carries `asInt` exactly when it is an enum; an unknown kind builds nothing |
| Grafana.Accumulate | backend/vendors/grafana.py:132-137 | a counter add grows the first data point's `asDouble` by the value and keeps its name and attributes; a point without `asDouble` raises |
| Grafana.AddSpec | backend/vendors/grafana.py:72-152 | `add_once` on a stored name changes nothing; no other name's metrics or kind change; a recorded kind never changes, and a fresh name's kind becomes the one added; an add that is neither skipped nor accumulated succeeds exactly when the metric builds and the kind is fresh or the same, and then appends exactly the built metric after the existing ones; a kind mismatch raises AssertionError and changes nothing |
| Grafana.AddKeepsInv | backend/vendors/grafana.py:72-152 | every add keeps the invariant that a stored name has a recorded kind and a counter name holds at most one metric, which carries `asDouble` |
| Grafana.Read | backend/vendors/grafana.py:154-178 | an absent name gives the default, or AssertionError without one; an empty list raises AssertionError; a histogram raises NotImplementedError; an event reads as its count of metrics; an enum reads as the label of the last metric; a gauge or counter reads as the value of its last metric; a name without a kind raises KeyError and an unsupported kind ValueError |
| Grafana.GaugeReadsLast | backend/vendors/grafana.py:130-178 | a gauge add on a fresh or gauge name succeeds, and reading the name back gives the value just added |
| Grafana.EventCountGrows | backend/vendors/grafana.py:130-178 | an event add on a fresh or event name succeeds, and the name's event count grows by one |
| Grafana.EnumReadsLabel | backend/vendors/grafana.py:130-178 | an enum add on a fresh or enum name succeeds, and reading the name back gives the new label unless the store's own attributes already carry the name |
| Grafana.EnumLabel | backend/vendors/grafana.py:167-172 | the label is the first attribute keyed by the metric's name; without one, ValueError |
| Grafana.PointValue | backend/vendors/grafana.py:161-165 | the value is `asDouble`, else `asInt` as a float; a point with neither raises |
| Grafana.CounterAccumulates | backend/vendors/grafana.py:130-165 | adding `x` to a counter that reads `v` succeeds, and the counter then reads `v + x` |
| Grafana.KindFixedByFirstAdd | backend/vendors/grafana.py:151 | the first successful add on a fresh name fixes its kind, and a later add of another kind raises AssertionError |
| Grafana.CounterSkipsKindCheck | backend/vendors/grafana.py:132-151 | a counter add into the existing metrics of a gauge name returns before the kind check, so it succeeds and the kind stays gauge |
| Grafana.Grafana.constructor | backend/vendors/grafana.py:16-28 | a new store has no metrics and no kinds |
| Grafana.Grafana.Record | backend/vendors/grafana.py:72-152 | the new state and the exception raised are exactly `AddSpec` of the old state |
| Grafana.Grafana.AddOnce | backend/vendors/grafana.py:30-37 | a name that already has stored metrics changes nothing; otherwise as `AddSpec` with `add_once` |
| Grafana.Grafana.Add | backend/vendors/grafana.py:39-46 | exactly `AddSpec` without `add_once` |
| Grafana.Grafana.Push | backend/vendors/grafana.py:180-218 | console mode and an empty store do nothing; otherwise the metrics are cleared exactly when one of the `max_retries` attempts is delivered; the push fails exactly when every attempt fails; kinds never change |
| Loki.LevelName | backend/vendors/loki.py:112-114 | the level changes only to `NOTSET`, and only for a noisy record under the `NOTSET` strategy |
| Loki.TimeDiffOf | backend/vendors/loki.py:76-82 | the first buffered record is marked as the first log; any later one carries the seconds since the last buffered record |
| Loki.RepeatSuffix | backend/vendors/loki.py:84-91 | the ` xN` suffix appears exactly for an important level whose code position has been seen more than once |
| Loki.OptionalName | backend/vendors/loki.py:93-98 | the logger name is added, after a space, exactly when it is not the main file's |
| Loki.Where | backend/vendors/loki.py:104-107 | `where` is added exactly for an important level outside the main file |
| Loki.GroupValues | backend/vendors/loki.py:138-140 | each level's group holds exactly that level's entries, in buffer order |
| Loki.GroupLevels | backend/vendors/loki.py:138-140 | a level has a group exactly when some buffered entry is at that level |
| Loki.GroupSnoc | backend/vendors/loki.py:139-140 | appending an entry adds its level's group if it is missing and leaves the other levels as they were |
| Loki.HasLevelSnoc | backend/vendors/loki.py:139-140 | an entry is at a level in the longer buffer exactly when one was before or the new one is |
| Loki.TotalUpdate | backend/vendors/loki.py:141 | replacing one group changes the total count by the difference in its size |
| Loki.TotalAppend | backend/vendors/loki.py:141 | appending a group adds its size to the total count |
| Loki.GroupTotal | backend/vendors/loki.py:138-141 | grouping drops no entry: the values over all levels number as many as the buffered records |
| Loki.Streams | backend/vendors/loki.py:143-145 | one stream per group, in order, whose labels have `level` set to the group's level and whose values are the group's |
| Loki.Loki.constructor | backend/vendors/loki.py:29-49 | a new handler has an empty buffer and no repeat counts |
| Loki.NewLoki | backend/vendors/loki.py:40 | more than 15 labels raise AssertionError; otherwise a fresh handler with those labels and an empty buffer |
| Loki.Loki.Emit | backend/vendors/loki.py:72-127 | a noisy record under the suppress strategy changes nothing; any other record counts one more repeat at its code position and appends exactly one entry, formatted from the decorated record, with the lower-cased level |
| Loki.Loki.Push | backend/vendors/loki.py:132-171 | console mode and an empty buffer do nothing; otherwise the streams are those of the grouped buffer, the buffer is cleared exactly when one of the `max_retries` attempts is delivered, the push fails exactly when every attempt fails, and the repeat counts never change |
| Loki.Retry | backend/vendors/loki.py:149-171 | the loop stops at the first delivered attempt; when every one of `max_retries` attempts fails it raises "Failed to send logs after N attempts"; with no attempt it neither sends nor raises |
| Loki.GroupBuffer | backend/vendors/loki.py:138-140 | the grouping loop computes exactly `Group` |
| Loki.BuildStreams | backend/vendors/loki.py:143-145 | the streams loop computes exactly `Streams` |
| Amplitude.CoerceBoolish | backend/vendors/amplitude.py:15-24 | None is kept as None exactly for a null value; the result is true exactly for `True`, a string lower-casing to one of `true`, `1`, `1.0`, `on`, `yes`, or the integer 1; every other value is false |
| Amplitude.CoerceBoolishIdempotent | backend/vendors/amplitude.py:15-24 | coercing an already coerced value gives it back unchanged |
| Amplitude.CoerceEnumish | backend/vendors/amplitude.py:30-34 | the result is present exactly when the handler does not raise, and then it is the handler's value |
| Amplitude.RetriedExact | backend/vendors/amplitude.py:72-104 | a request fails exactly when every attempt from 1 to `n_retries` fails, and then it raises the last attempt's error; otherwise its value is the first attempt that succeeded |
| Amplitude.RequestWithRetry | backend/vendors/amplitude.py:59-104 | a method other than GET or POST fails the assertion before any attempt; otherwise the result is the retried outcome, after at most `n_retries` attempts |
| Amplitude.Variants | backend/vendors/amplitude.py:117 | every flag of the response keeps its position and is mapped to its variant's `key`, or None when the variant has none; a variant that is not a dict fails |
| Amplitude.Exposures | backend/vendors/amplitude.py:131-140 | one `$exposure` event per assigned flag, in order, carrying the user id, the flag key and its variant |
| Amplitude.Client.constructor | backend/vendors/amplitude.py:46-53 | a new client holds its user id, no variants and no tasks |
| Amplitude.Client.Vardata | backend/vendors/amplitude.py:55-57 | the assigned variants, or the empty dict while none are assigned |
| Amplitude.Client.Assign | backend/vendors/amplitude.py:106-123 | the first call creates the assignment task and every later call returns that same task; nothing else changes |
| Amplitude.Client.Expose | backend/vendors/amplitude.py:125-153 | the first call creates the exposure task and every later call returns that same task; nothing else changes |
| Amplitude.Client.RunAssignment | backend/vendors/amplitude.py:107-119 | no experiments store the empty dict without a request; a failed request raises its error and leaves the variants as they were; a response stores each flag's variant key |
| Amplitude.Client.RunExposure | backend/vendors/amplitude.py:126-147 | no events when no variants are assigned; otherwise exactly one event per assigned flag, in order |
| LlmApi.ArgsRoundTrip | backend/llmapi.py:48-58 | when `json.loads` inverts `json.dumps`, reading back a tool call's arguments as text gives the same dict as reading them directly |
| LlmApi.Kind | backend/llmapi.py:74-85 | the type is `error` exactly when the model tag is `error`; otherwise it is `tool_call`, `structured`, `text` or `unknown` exactly for a tool-call, structured, text or other payload |
| LlmApi.Fallback | backend/llmapi.py:87-115 | a response is returned as it is; a pydantic object becomes a structured payload tagged `error`; `say_sorry_repeat` and `goodbye_end_session` become one of their three replies, tagged `error`; any other string leaves the reply unbound and raises UnboundLocalError; a new response starts at attempt 1 with a fresh id |
| LlmApi.OverrideNothing | backend/llmapi.py:209-216 | `with_params()` without arguments copies the parameters unchanged |
| LlmApi.OverrideTwice | backend/llmapi.py:209-216 | overriding the same parameters twice keeps only the second values |
| LlmApi.Or | backend/llmapi.py:263-272 | `a or b` is `a` when it is given and truthy, and `b` otherwise |
| LlmApi.OrDefault | backend/llmapi.py:269-271 | `a or b or default` is the first of `a` and `b` that is given and truthy, and the default when neither is |
| LlmApi.ResolvedRetries | backend/llmapi.py:263-272 | the merged retry count is never 0, and it is negative only when a negative count was bound or passed |
| LlmApi.MakeRequest | backend/llmapi.py:284-454 | the OpenAI body sends tools only when there are some and `tool_choice` is not `none`; the Groq body sends them whenever there are some, as an empty list exactly under `none`; `tool_choice` is sent with the tools, as `auto` when not given, and only with them |
| LlmApi.CheckToolCall | backend/llmapi.py:312-336 | a tool call is accepted exactly when tools were declared and sent, `tool_choice` is `auto` or `required`, the name is a declared tool and the tool accepts the arguments, and it then keeps its name, arguments and id; each failing check raises its own ValueError in the source's order, a named `tool_choice` NotImplementedError, and a list or dict name TypeError |
| LlmApi.UnpackToolCall | backend/llmapi.py:312-336 | the first reported tool call is accepted only when it names a declared tool whose arguments it accepts |
| LlmApi.GroqRecoverToolCall | backend/llmapi.py:501-525 | a call recovered from a failed generation gets a fresh id, names a declared tool, and carries the name and the `dumps` of the arguments read from the decoded failed generation; a failed generation that cannot be read or decoded raises that error |
| LlmApi.Attempt | backend/llmapi.py:341-564 | a response carries the attempt number and the request's model, and a tool-call payload names a declared tool |
| LlmApi.RetryLoop | backend/llmapi.py:341-386 | the loop starts no more attempts than the retry count allows |
| LlmApi.AttemptsBounded | backend/llmapi.py:341-386 | a call starts at most `n_retries` attempts, and none when the count is negative |
| LlmApi.DefaultAttempts | backend/llmapi.py:252-416 | with nothing bound and the default arguments, OpenAI and OpenRouter make at most one attempt and Groq at most three |
| LlmApi.UnknownModelRefused | backend/llmapi.py:273 | a model outside the provider's allow-list fails the assertion before any attempt |
| LlmApi.OpenRouterRefusesEveryCall | backend/llmapi.py:393-395 | the OpenRouter provider's allow-list is empty, so every call fails the assertion |
| LlmApi.StructuredOutputRefused | backend/llmapi.py:295-298 | passing structured output to the call raises NotImplementedError before any attempt |
| LlmApi.BoundStructuredIgnored | backend/llmapi.py:248-299 | a structured output bound by `with_params` changes nothing about a call, because only the call's own argument is tested |
| LlmApi.NegativeRetriesRaise | backend/llmapi.py:341-386 | a negative retry count runs no attempt and raises the RuntimeError `All retry attempts failed` |
| LlmApi.ClosedSessionSaysGoodbye | backend/llmapi.py:341-363 | on a closed session the call makes no request and returns a goodbye reply tagged `error` |
| LlmApi.RetryLoopStep | backend/llmapi.py:341-383 | on an open session an attempt that succeeds is returned; a failure is retried while attempts remain, and the last one yields the fallback value or re-raises |
| LlmApi.FailureIsRetried | backend/llmapi.py:364-378 | any failed attempt with attempts remaining, a rejected tool call included, moves on to the next attempt |
| LlmApi.SuccessIsFirstGoodAttempt | backend/llmapi.py:341-383 | without a fallback value, a returned response is the reply of the last attempt started, and every earlier attempt failed |
| LlmApi.ExhaustedAttempts | backend/llmapi.py:376-383 | when every attempt fails, all `n_retries` attempts are used and the call returns the fallback value's conversion or raises the last error |
| LlmApi.NoneChoiceRejectsToolCalls | backend/llmapi.py:292-473 | with `tool_choice` `none` no reported tool call is accepted, by either provider |
| LlmApi.Session.constructor | backend/llmapi.py:246 | a new client session is open |
| LlmApi.Session.Close | backend/llmapi.py:388-390 | closing the session marks it closed |
| LlmApi.Provider.constructor | backend/llmapi.py:189-246 | a new provider has its key, the given url or its class's default, every parameter NOT_GIVEN, and a fresh open session |
| LlmApi.Provider.Copy | backend/llmapi.py:213-215 | the copy holds exactly the given fields |
| LlmApi.Provider.WithParams | backend/llmapi.py:209-216 | a new provider whose named parameters are overridden and whose other fields are the receiver's, sharing the receiver's session |
| LlmApi.Provider.Acall | backend/llmapi.py:248-583 | `acall` returns exactly the defined call outcome: merged parameters, the allow-list check, the structured-output check on the call's own argument, then the retry loop |
| LlmApi.Provider.Aclose | backend/llmapi.py:388-390 | afterwards the provider's session is closed |
| LlmApi.SequentialFirstSuccess | backend/llmapi.py:889-896 | when provider `i` is the first to succeed, the strategy returns that provider's response |
| LlmApi.SequentialAllFailed | backend/llmapi.py:889-900 | when every provider fails, the strategy returns the fallback value's conversion, or raises `All providers failed` without one |
| LlmApi.FallbackStrategy.constructor | backend/llmapi.py:224-231 | the strategy keeps its non-empty provider list and its fallback value; an empty list is handled by `NewFallbackStrategy` |
| LlmApi.NewFallbackStrategy | backend/llmapi.py:224-231 | on any provider list, an empty one fails the assertion; otherwise a new strategy keeps the list and the fallback value |
| LlmApi.FallbackStrategy.Outcomes | backend/llmapi.py:891-893 | one outcome per provider, in order |
| LlmApi.FallbackStrategy.Acall | backend/llmapi.py:889-900 | the providers are tried in order and the result is the first success, else the fallback value's conversion, else the RuntimeError |
| LlmApi.Registry.constructor | backend/llmapi.py:904-905 | the registry holds each given provider under its keyword name, in order |
| LlmApi.Registry.Get | backend/llmapi.py:907-929 | an accessor returns the provider registered under its name, and raises `<class> not found` exactly when there is none |
| LlmApi.Registry.Fallback | backend/llmapi.py:946-951 | the factory builds a strategy over the given providers and fallback value, and fails the assertion exactly on an empty list |
| LlmApi.Registry.Aclose | backend/llmapi.py:953-962 | every provider whose close does not raise ends closed; a closed session stays closed; the failures are exactly the providers whose close raised |
| LiteLlm.PreparedArgs | backend/litellmapi.py:370-466 | a request that passes validation is forwarded with the caller's model, messages and token limit; the JSON object format exactly in JSON mode and some response format exactly when JSON or a schema was asked for; the tools, with `tool_choice` `auto`, exactly when tools were given; JSON mode and a schema never together, JSON mode only with a system message mentioning JSON, and a schema only when it is a pydantic class |
| LiteLlm.LimitationsRefuse | backend/litellmapi.py:374-381 | a listed model asked for a feature its limitations name is refused with a ValueError before any other check, and the message begins with `Model <model>` |
| LiteLlm.SchemaOnlyLimits | backend/litellmapi.py:56-65 | deepseek-chat refuses schemas but not JSON mode; the Llama 3.3 Turbo model keeps function calling; gpt-4.1 has no limitations |
| LiteLlm.SearchFrom | backend/litellmapi.py:306-307 | the match found is the leftmost position where the fenced-block pattern matches, and there is none exactly when no position matches |
| LiteLlm.ExtractFenced | backend/litellmapi.py:294-310 | a text opening with a json fence is parsed from the fenced block's inside, whatever follows the closing fence |
| LiteLlm.ExtractUnfenced | backend/litellmapi.py:309-313 | a text without a code fence is parsed whole |
| LiteLlm.CollectToolsLastWins | backend/litellmapi.py:511-522 | in the collected function data each tool name holds the parsed arguments of its last call, and a name that is never called keeps its earlier value |
| LiteLlm.CollectToolCalls | backend/litellmapi.py:511-522 | the loop over tool calls builds exactly the collected function data, or raises the first parse error |
| LiteLlm.ParseContent | backend/litellmapi.py:491-500 | content that parses as JSON is returned parsed; content that neither parses nor holds a parsable fenced block raises the ValueError about the JSON response |
| LiteLlm.AssembleKeys | backend/litellmapi.py:487-504 | the result holds `content` exactly when the reply has non-empty content, and `json` exactly when JSON or a schema was asked for and there is content, holding the parsed content |
| LiteLlm.AssembleTools | backend/litellmapi.py:506-522 | the result holds `tools` exactly when tools were given and the reply called some, holding the collected function data |
| LiteLlm.JsonReplyParsed | backend/litellmapi.py:491-504 | a JSON reply without tool calls is returned both parsed under `json` and verbatim under `content` |
| LiteLlm.CompletionLoop | backend/litellmapi.py:469-482 | the retry loop makes between one and `n_retries + 1` calls |
| LiteLlm.RefusedRunCallsNothing | backend/litellmapi.py:370-466 | a request that fails validation raises its error and makes no service call |
| LiteLlm.RunOnceCalls | backend/litellmapi.py:468-485 | a validated run makes at least one call, at most `n_retries + 1` with retries and exactly one without |
| LiteLlm.LoopFailsOnlyWhenAllFail | backend/litellmapi.py:471-482 | the retry loop raises only after `n_retries + 1` calls, all of which failed |
| LiteLlm.RunOnce | backend/litellmapi.py:337-524 | `_run` is validation, then the gabber request or the completion call(s), then the result dict, with exactly the defined outcome and call count |
| LiteLlm.Complete | backend/litellmapi.py:468-485 | the completion call's loop returns exactly the defined reply, or the ValueError after the last failed attempt, and its call count |
| LiteLlm.BuildResult | backend/litellmapi.py:487-524 | the result dict filled key by key is exactly the assembled result |
| LiteLlm.RunWithoutRetriesReturnsNone | backend/litellmapi.py:316-332 | `run(n_retries=0)` or a negative count never calls `_run` and returns None |
| LiteLlm.DecoratedCalls | backend/litellmapi.py:316-327 | `n` decorated attempts of at most `m` calls each make at most `n * m` calls |
| LiteLlm.RunCallsBounded | backend/litellmapi.py:316-482 | with `n_retries = n > 0` the decorator and the inner loop compose to at most `n * (n + 1)` service calls |
| LiteLlm.DecoratedFailsOnlyWhenAllFail | backend/litellmapi.py:316-327 | `retry(n)` raises only when every one of its attempts failed, and it raises the last attempt's exception after the calls of all attempts |
| LiteLlm.DecoratedFirstSuccess | backend/litellmapi.py:316-327 | when attempt j is the first to succeed, `retry(n)` returns its result after exactly the calls of attempts 0 to j |
| LiteLlm.Decorate | backend/litellmapi.py:316-327 | the decorator's loop returns the first successful run, re-raises the failure of the last attempt, and counts every call, exactly as defined |
| LiteLlm.Run | backend/litellmapi.py:330-334 | `run` applies the decorator exactly when `n_retries` is given, and otherwise is `_run` itself |
| OpenRouter.RetryWrapper | backend/openrouterapi.py:13-46 | the wrapper's loop returns exactly the outcome and call count of the retry decorator's definition, for both the sync and the async wrapper |
| OpenRouter.RetryBounded | backend/openrouterapi.py:16-26 | with `max_retries` at least 1: at most `max_retries` calls; the result is that of the last call, every earlier call failed, and a failure is raised only after exactly `max_retries` calls |
| OpenRouter.NoRetriesCallsOnce | backend/openrouterapi.py:18-26 | with `max_retries` at most 0 the loop is skipped and exactly one unguarded call is made |
| OpenRouter.PayloadKeys | backend/openrouterapi.py:63-71 | the payload's keys are `model`, `messages`, `temperature`, `max_tokens`, in that order, followed by `response_format` exactly in JSON mode |
| OpenRouter.PayloadValues | backend/openrouterapi.py:63-71 | the payload carries the call's model, messages, temperature and token limit, and asks for a JSON object exactly in JSON mode |
| OpenRouter.Reply | backend/openrouterapi.py:83-90 | a returned reply is a dict with exactly the keys `content` and `completion_tokens`, in that order |
| OpenRouter.ReplyContent | backend/openrouterapi.py:83-90 | the returned content is the first choice's message content, decoded as JSON exactly in JSON mode |
| OpenRouter.Call | backend/openrouterapi.py:49-132 | `call`/`acall` under `retry(max_retries=3)`: between 1 and 3 posts of the same payload; the result is the last post's reply, every earlier one failed, and a failure is raised only after 3 posts |

## Left out

- Network I/O is not modelled. HTTP posts, the litellm `completion` call, the gabber connection, and the request bodies of the Grafana, Loki and Amplitude pushes all become a parameter. That parameter gives each attempt's outcome as a function of the attempt number. Headers, urls used at request time, timeouts and `asyncio.sleep` between attempts are not modelled.
- Concurrency is not modelled. In the model the async and sync variants run the same loop, and an `asyncio.Task` is an id. What is modelled is that each task is created once and that its body has its state effect.
- `RaceStrategy` and `TimeoutFallbackStrategy` (backend/llmapi.py:826-887) are not modelled, because their behaviour is `asyncio.as_completed` and task cancellation. `LLMAPI.race` and `LLMAPI.timeoutfallback` only construct them.
- The LangChain providers and `LangChainAdapter` (backend/llmapi.py:586-824) are not part of this model. Neither is `RetryAttemptTracker`, nor the livekit chat-context conversion (`to_provider_format`, `as_chatchunk`). The registry's `langchain` accessor is modelled.
- Model tools are identified by their names. livekit's `prepare_function_arguments` is an oracle over the name and the arguments.
- litellm's `get_supported_openai_params`, `supports_response_schema` and `supports_function_calling` are oracles.
- Randomness is a parameter: `random.choice` in `APIResponse.fallback` and in the hint category fallback is the index `pick`. `flatten_format` (backend/vendors/memory.py:183) is left out because its only behaviour is a random choice.
- Times and floats are not modelled. Usage counts, `provider_time`, `time.time()` and event timestamps are left out. Grafana timestamps are the `now` parameter, and Loki keeps a record's creation time as a real.
- `gauge_time_seconds` is left out, because it reads the clock and draws a random value. The progress score in `agentic.dfy` uses real arithmetic.
- JSON numbers are modelled as integers and reals as they arrive; no float formatting is modelled. `str()` of a JSON value (`Json.PyStrOf`) covers strings, integers, booleans and None only; other values give an `Unsupported` error.
- `str.lower` is modelled on ASCII letters only.
- `str.format` is modelled for named replacement fields, `{{` and `}}` (`PyStr.Format`). A template with format specs or conversions gives `Unsupported`.
- The regular expressions in backend/test.py and in `extract_json_from_markdown` are modelled structurally, as a search for their leftmost match.
- The prose of every prompt template is a parameter of the model. The structural constants are in the model: bracket names, separators, the emoji tags, the `CTA` JSON field and the placeholder names.
- Logging, `print` and the verbose reports are not modelled. Where a verbose report reads a key, the model reads it too, so a missing key still raises.
- `OldTransition.Same` compares dicts structurally and in key order, where Python's `==` ignores key order. Numbers compare by value, with `True == 1`.
- `Loki.Retry`: the raised message leaves out the `: {e}` detail of the last failure. Logger setup (`_single_setup`) and the `ColoredFormatter` output are not modelled; the formatter is the oracle `format`.
- `Grafana.Grafana.Push` raises `Raised("push")` in place of the re-raised exception. The push payload is not modelled. Attribute values are kept as given, not converted with `str`.
- `Loki.Loki.constructor`: labels are strings in the model, so the `str(v)` conversion of label values (backend/vendors/loki.py:44) is not modelled.
- `Agentic.Episode.Respond`: the judge's verdict is a parameter, so the KeyError that `state["transitions"]` raises for a current state without transitions (backend/strategies/agentic/agentic.py:327) is not modelled.
- `Mdagaw.Story.Respond`: the scenario's character is a string the story always has. A scenario without one is not modelled: the judge gets `""` from `.get` (backend/strategies/mdagaw/mdagaw.py:634), and rebuilding the prompt raises KeyError at `scenario["character"]` (mdagaw.py:721).
- `Memory.MemoryStore.UpdateMemory`: the repaired profile that `update_w_repair_and_calc_diff` builds is discarded by the source, which returns only the diff. So the model computes only the diff.
- `list(set(...))` is modelled in first-occurrence order. Python's order is unspecified.
- `dump_json` is an oracle. `prepare_chat_ctx` (livekit) is not modelled. The LLM extraction call of `update_memory` is the `extracted` parameter.
- The strategies' HTML builders, the mermaid diagrams, `hint_to_html`, `check_progress` and the progress print are not modelled. In `mdagaw.dfy` the judge oracle stands in for `transition.transition`, and in `agentic.dfy` the `reply` oracle stands in for `litellmapi.run`.
- mdagaw's `format_scenario` is textually the same as agentic's, so the model uses `Agentic.FormatScenario` for both.
- `LlmApi.Provider.Acall`: a negative `n_retries` is truthy in the `or` chain, so the loop runs zero times and raises RuntimeError. The model follows the code here, not the intent of at least one attempt.
- `LlmApi.Provider.WithParams`: the deep copy of mutable fields is not modelled, because parameters are values in the model.
- `OpenRouter.Call`: the choice between the sync and async wrapper, by whether the function is a coroutine, is not modelled. Both run the same loop.
- `LiteLlm.RunOnce`: the "Failed after N attempts" ValueError leaves out the `. Last error: ...` text, and the "Failed to parse JSON response" ValueError leaves out its `: ...` text, because the model does not render an exception as a string. The "Model <model> ..." messages do carry the model name.
- `LiteLlm.RunOnce`: the gabber branch's assertion on the model name always holds for a model in `MODELS`, so the model does not state it. The reply of that branch is read but its payload is not modelled.
- `Amplitude.RequestWithRetry`: the context string, the headers and the logs are left out.

## Findings

| source | as written | input that shows it | evidently intended | confidence | as-written member | corrected member |
|---|---|---|---|---|---|---|
| backend/vendors/memory.py:785-792 | the init branch calls `filter` on the APIResponse that the LLM call returns; APIResponse has no `filter`, so the AttributeError is swallowed by the `except` and the profile is never stored | a store without a profile, then any successful extraction | filter the response's `payload`, as the update branch does at memory.py:758 | not executed | Memory.UpdatesNeverInitialise | Memory.IntendedProfileAppears |
