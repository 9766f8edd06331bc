# Health and wellness agent: a Dafny model of its core

This project models the message-handling core of a small health and wellness
chat agent: how the main agent routes a user's message, and how the session
context records goals, plans, notes and logs. It also covers the goal
analyser and the goal-string recogniser it relies on, the helper utilities
(message classifier, context manager, configuration manager, tool registry,
response formatters, input checks), and the two streaming layers. The first
streaming layer turns completion deltas into queued "complete thought" chunks.
The second buffers and formats those chunks for display. The model also covers
the chat front end's accumulation of streamed chunks into one reply.

Python values (None, bool, int, float, str, list, dict) are one datatype,
`PyValue.Value`. Dicts are insertion-ordered lists of string-keyed pairs.
Python's string operations (`strip`, `lower`, `title`, `split`, `in`,
`replace`, slicing with negative bounds) are written out in `PyStrings`.
Exceptions that the core raises on purpose, or that follow from its own code,
are `Err` values of `Wrappers.Result`. Regular expressions are written as the
exact sets of strings they accept.

Modules, one per source component:

- `StreamFormat`: the flush policy and formatters of `StreamHandler`.
- `StreamHandler`: the `stream_response` loop.
- `AsyncIterator`: `ImprovedAsyncResponseIterator`.
- `Guardrails`: guardrails.py.
- `GoalAnalyzer`: tools/goal_analyzer.py.
- `MessageClassifier`, `ContextManager`, `ConfigManager`, `ToolManager`,
  `ResponseFormatter` and `InputChecks`: utils/agent_utils.py.
- `SessionContext`: context.py.
- `Agent`: agent.py.
- `App`: `process_message` in app.py.
- Shared helpers: `Wrappers`, `PyStrings` and `PyValue`.

Objects whose fields the source updates in place are classes:

- `ConfigManager.ConfigManager`
- `ContextManager.ContextManager`
- `ToolManager.ToolManager`
- `SessionContext.UserSessionContext`
- `Agent.HealthWellnessAgent`
- `AsyncIterator.ImprovedAsyncResponseIterator`

Their methods state the whole new state. The loops of `stream_response`,
`_process_chunks`, `get`, `get_recent_context`, `format_meal_plan`,
`format_workout_plan`, `format_goal_analysis` and `process_message` are
methods with `while` loops, each proved equal to a specification function
whose properties are proved as lemmas. The loops of `set`
(utils/agent_utils.py:347-350), `_format_paragraph` (utils/streaming.py:174),
`_format_tool_result` (utils/streaming.py:203, 213) and `validate_preferences`
(guardrails.py:33-36) are modelled as recursive functions over values. The
`any(...)` tests of `classify_message` (utils/agent_utils.py:191-216) are the
recursive function `MessageClassifier.AnyIn`, and the `all(...)` test of
`validate_injury_input` (guardrails.py:65) is a quantifier over its list of
required phrases.

## Model

| member | source | states |
|---|---|---|
| StreamFormat.SentenceSearch | utils/streaming.py:15 | the leftmost match of `[.!?]+\s*` begins at the first punctuation mark, with none before it; there is no match exactly when the text has no `.`, `!` or `?` |
| StreamFormat.NumberedImpliesSentence | utils/streaming.py:102-107 | a buffer that starts, after stripping, with digits and a point always contains a punctuation mark, so the numbered-list rule can never be the one that fires |
| StreamFormat.ShouldFlushCharacterisation | utils/streaming.py:96-129 | a buffer is flushed exactly when it is not blank and it has a punctuation mark, a leading bullet or header, a blank line, more than 200 characters, or more than 500 ms have passed since the last flush |
| StreamFormat.ShouldFlushBuffer | utils/streaming.py:96-129 | a blank buffer is never flushed, and a non-blank one always is once it is longer than 200 characters or more than 500 ms have passed (the full policy is `ShouldFlushCharacterisation`) |
| StreamFormat.FormatNumberedItem | utils/streaming.py:149-154 | the item starts on a new line, keeps its text and ends with a blank line, adding at most three newlines |
| StreamFormat.FormatBulletPoint | utils/streaming.py:156-160 | the bullet keeps its text and ends with a blank line, adding at most two newlines |
| StreamFormat.FormatHeader | utils/streaming.py:162-166 | the header starts on a new line, keeps its text and ends with a blank line, adding at most three newlines |
| StreamFormat.FormatParagraph | utils/streaming.py:168-193 | defined as the split into sentences, the re-attached punctuation and the join; its shape is `FormatParagraphShape` and its punctuation offset `ParagraphPunctuationDrift` |
| StreamFormat.FormatAndFlushBuffer | utils/streaming.py:131-147 | defined as the dispatch on the stripped buffer; the cases are `FormatAndFlushCases` and the non-blank result `FormatAndFlushNonBlank` |
| StreamFormat.SplitSentences | utils/streaming.py:171 | `re.split` on the sentence pattern always yields at least one piece |
| StreamFormat.PunctuationIn | utils/streaming.py:182-184 | the punctuation re-attached to a sentence is the stripped matched group, with no whitespace at either end |
| StreamFormat.StripMatchGroup | utils/streaming.py:184 | stripping the matched group leaves exactly its run of punctuation marks |
| StreamFormat.ItemPunctuation | utils/streaming.py:180-184 | the punctuation found for sentence `i` has no surrounding whitespace |
| StreamFormat.ParagraphItemsShape | utils/streaming.py:172-184 | every sentence kept by the paragraph formatter is non-empty and trimmed |
| StreamFormat.FormatParagraphShape | utils/streaming.py:168-193 | a formatted paragraph always ends with a blank line, and starts with non-whitespace when its content does |
| StreamFormat.FormatAndFlushCases | utils/streaming.py:131-166 | a blank buffer formats to `""`; otherwise the stripped content is dispatched in source order to the numbered, bullet, header or paragraph format, each giving its exact framing |
| StreamFormat.FormatAndFlushNonBlank | utils/streaming.py:131-193 | a non-blank buffer always formats to a non-empty chunk ending with a blank line |
| StreamFormat.ParagraphPunctuationDrift | utils/streaming.py:174-184 | for "A!! B." the paragraph formatter gives the second sentence "!" and not ".", because it searches for punctuation at an offset that ignores the punctuation already consumed |
| StreamFormat.TruthyEntriesSelect | utils/streaming.py:203-204 | the pairs shown for a dict result are exactly the pairs with truthy values, in insertion order |
| StreamFormat.ToolResultSkipsFalsy | utils/streaming.py:201-209 | a pair with a falsy value adds nothing to a dict result's rendering |
| StreamFormat.ToolResultAddsLine | utils/streaming.py:201-209 | a pair with a truthy value adds one line `• **Label:** value` at the end, joined by a newline |
| StreamFormat.ToolResultListNumbering | utils/streaming.py:211-219 | a list result is one line per item joined by newlines, where line `i` starts with `i. ` counted from 1 and continues with the nested rendering of a dict item or `str()` of any other item |
| StreamFormat.ToolResultScalar | utils/streaming.py:221 | a result that is neither a string, a dict nor a list renders as `str()` |
| StreamFormat.FormatToolResult | utils/streaming.py:195-226 | defined by the type of the result; strings, dicts, lists and other values are `ToolResultScalar`, `ToolResultSkipsFalsy`, `ToolResultAddsLine` and `ToolResultListNumbering` |
| StreamHandler.FlushBuffer | utils/streaming.py:57-59 | yielding and clearing a pending non-blank buffer is the specification step `FlushPending` |
| StreamHandler.Step | utils/streaming.py:48-83 | defined as one turn of the loop; its cases are `IgnoredStep`, `ToolCallStep`, `ToolResultStep` and `TextStep` |
| StreamHandler.Output | utils/streaming.py:37-94 | defined as the apology without an iterator, otherwise the loop's chunks then the final flush or the error chunk; `StreamResponse` yields it |
| StreamHandler.HandleText | utils/streaming.py:71-83 | one text fragment updates buffer, clock and output exactly as the specification step does |
| StreamHandler.HandleEvent | utils/streaming.py:48-83 | one turn of the `async for` loop equals the specification step `Step` |
| StreamHandler.StreamResponse | utils/streaming.py:37-94 | the chunks yielded are `Output(source, startTime)`: the apology when there is no iterator, otherwise the chunks of `Run`, then the final flush or, when the iterator raised, the error chunk |
| StreamHandler.IgnoredStep | utils/streaming.py:51-52 | falsy chunks, blank strings, dicts with neither key, and other types change nothing |
| StreamHandler.ToolCallStep | utils/streaming.py:56-60 | a tool call after non-blank text yields the formatted text, then the tool marker with the tool's name, and clears the buffer; after blank text it only adds the marker and keeps the buffer |
| StreamHandler.ToolResultStep | utils/streaming.py:62-69 | a tool result after non-blank text yields the formatted text, then the results block, and clears the buffer; after blank text it only adds the results block and keeps the buffer |
| StreamHandler.TextStep | utils/streaming.py:71-83 | a text fragment is appended to the buffer; if the flush policy fires, the whole buffer becomes one formatted chunk, the buffer is cleared and the clock restarts, otherwise only the buffer grows |
| StreamHandler.TimerStep | utils/streaming.py:76-83 | the pause clock restarts exactly when a text fragment triggers a flush |
| StreamHandler.Reconstruction | utils/streaming.py:44-89 | the text handed to the formatter, followed by the pending buffer, is exactly the concatenation of the accepted text fragments, with nothing lost or duplicated |
| StreamHandler.BufferInvariant | utils/streaming.py:71-83 | between events the buffer is empty, or is non-blank, trips no content rule and has at most 200 characters |
| StreamHandler.ChunksGrow | utils/streaming.py:48-83 | yielded chunks are never retracted: the output after a prefix of the events is a prefix of the final output |
| StreamHandler.MarkerShapes | utils/streaming.py:60-69 | tool markers and results blocks end with a blank line |
| StreamHandler.ChunksWellSeparated | utils/streaming.py:48-83 | every chunk the loop yields is non-empty and ends with a blank line |
| StreamHandler.DrainOnEnd | utils/streaming.py:85-89 | at a normal end, a pending non-blank buffer is yielded as one last formatted chunk |
| StreamHandler.FailureDropsBuffer | utils/streaming.py:91-94 | when the iterator raises, the pending buffer is dropped and the error chunk is yielded instead |
| StreamHandler.NothingLostAtEnd | utils/streaming.py:85-89 | at a normal end, every accepted fragment has reached the formatter |
| AsyncIterator.ShouldSendCharacterisation | utils/streaming.py:295-316 | a buffer is sent exactly when it has at least 10 characters and a sentence end followed by whitespace, a newline, or more than 100 characters; the numbered-list test never decides anything (`NumberedIsPunct`) |
| AsyncIterator.ShouldSendChunk | utils/streaming.py:295-316 | defined as the send rules in source order; `ShouldSendCharacterisation` states them |
| AsyncIterator.Feed | utils/streaming.py:262-281 | one delta only appends to the queue, at most a tool call and one text; a chunk without choices changes nothing |
| AsyncIterator.Finish | utils/streaming.py:283-293 | the end of the stream keeps the tool and only appends to the queue: the pending buffer at a normal end, `"Error: " + message` after a failure |
| AsyncIterator.NumberedIsPunct | utils/streaming.py:308-310 | a digit, a point and whitespace already contain a sentence end followed by whitespace |
| AsyncIterator.UnsentBound | utils/streaming.py:312-316 | a buffer that is not sent has at most 100 characters |
| AsyncIterator.OnTimeout | utils/streaming.py:334-337 | after a timeout the stream ends exactly when the producer is done and the queue is empty; otherwise the empty chunk is returned |
| AsyncIterator.CompletionSettings | utils/streaming.py:256-257 | the temperature and token limit are the configured values, or 0.7 and 500 when absent |
| AsyncIterator.ImprovedAsyncResponseIterator.constructor | utils/streaming.py:237-247 | a new iterator keeps its configuration and starts with no tool, an empty queue and buffer, and is neither started nor done |
| AsyncIterator.ImprovedAsyncResponseIterator.ProcessChunks | utils/streaming.py:249-293 | the producer's new state is the specification fold `FeedAll` over the deltas, then `Finish`, and it is done |
| AsyncIterator.ImprovedAsyncResponseIterator.Anext | utils/streaming.py:322-341 | `__anext__` marks the iterator started, pops the head of a non-empty queue, and otherwise answers as `OnTimeout`, leaving the rest of the state alone |
| AsyncIterator.QueueAppend | utils/streaming.py:272-285 | queuing an item adds one tool call or its text to the queue's totals |
| AsyncIterator.OneToolAnnouncement | utils/streaming.py:269-272 | when every call that arrives while no name is recorded carries a name, only the first call is recorded and announced: a recorded tool never changes, and at most one tool call is ever queued |
| AsyncIterator.UnnamedCallAnnouncedAgain | utils/streaming.py:269-272 | a first call without a name records nothing, so the next call is announced as well: two tool calls are queued |
| AsyncIterator.FeedContent | utils/streaming.py:275-281 | one delta moves its content into the buffer or the queue, losing nothing |
| AsyncIterator.ContentPreserved | utils/streaming.py:262-281 | queued text followed by the buffer is the concatenated content of all deltas |
| AsyncIterator.AllContentQueued | utils/streaming.py:283-288 | at a normal end, the queued text is exactly the streamed content |
| AsyncIterator.SendPolicyInvariant | utils/streaming.py:275-281 | the kept buffer never satisfies the send policy and has at most 100 characters, the queue only grows, and every newly queued text satisfied the policy when it was sent |
| AsyncIterator.NoEmptyText | utils/streaming.py:275-285 | no empty string is ever queued at a normal end |
| AsyncIterator.FailureDropsBuffer | utils/streaming.py:290-293 | when the completion stream raises, `"Error: " + message` is queued and the pending buffer is dropped |
| AsyncIterator.TickIgnored | utils/streaming.py:51-52 | the empty chunk `__anext__` returns after a timeout is skipped by the stream handler |
| AsyncIterator.ToolCallReachesHandler | utils/streaming.py:272 | a queued tool call reaches the stream handler as a truthy dict holding `tool_call` |
| Guardrails.FirstPrefix | guardrails.py:59 | a regex alternation picks the first alternative, in the pattern's order, that the text starts with |
| Guardrails.MatchElemSound | guardrails.py:59 | the part consumed by one pattern element is in that element's language |
| Guardrails.MatchSound | guardrails.py:59 | a successful match splits the text into one part per pattern element, each in its element's language, and the parts concatenate back to the text |
| Guardrails.MatchComplete | guardrails.py:59 | a string made of parts where each element stops at the right point is matched into exactly those parts |
| Guardrails.ValidateGoalString | guardrails.py:57-60 | defined as a match of the goal pattern on the lowercased string; `GoalStringSound` and `GoalStringComplete` state what it accepts |
| Guardrails.GoalStringSound | guardrails.py:57-60 | an accepted goal string, lowercased, is the concatenation of words of the pattern's elements |
| Guardrails.GoalStringComplete | guardrails.py:57-60 | every string whose lowercase form has the pattern's shape is accepted, with exactly that split |
| Guardrails.GoalWordRejected | guardrails.py:57-60 | no string that contains "goal", after lowercasing, is an accepted goal string |
| Guardrails.ValidateInjuryInput | guardrails.py:62-65 | defined as the `all(...)` over the three required phrases, lowercased; `InjuryInputPhrases` states it phrase by phrase |
| Guardrails.InjuryInputPhrases | guardrails.py:62-65 | a description is accepted exactly when its lowercase form contains "location", "pain level" and "duration" |
| Guardrails.KneePainRejected | guardrails.py:62-65 | "my knee pain" is rejected, since it names no location |
| Guardrails.InjuryInputIgnoresCase | guardrails.py:62-65 | the injury check judges a description and its lowercase form alike |
| Guardrails.OneOf | guardrails.py:11-23 | a membership validator accepts exactly the values whose lowercase form is listed, returns that form, and otherwise raises `ValueError` with its message |
| Guardrails.OneOfIdempotent | guardrails.py:11-23 | a value a membership validator returns is accepted again, unchanged |
| Guardrails.ValidateGoalType | guardrails.py:11-16 | a goal type is accepted exactly when its lowercase form is one of the five listed, and is then returned lowercased; otherwise `ValueError` is raised |
| Guardrails.ValidateUnit | guardrails.py:18-23 | a unit is accepted exactly when its lowercase form is one of the five listed, and is then returned lowercased; otherwise `ValueError` is raised |
| Guardrails.ValidateDifficulty | guardrails.py:44-49 | a difficulty is accepted exactly when its lowercase form is one of the three listed, and is then returned lowercased; otherwise `ValueError` is raised |
| Guardrails.GoalTypeIdempotent | guardrails.py:11-16 | validating a validated goal type changes nothing |
| Guardrails.UnitIdempotent | guardrails.py:18-23 | validating a validated unit changes nothing |
| Guardrails.DifficultyIdempotent | guardrails.py:44-49 | validating a validated difficulty changes nothing |
| Guardrails.ValidatePreferences | guardrails.py:30-36 | preferences pass exactly when all are valid ignoring case, and are then lowercased one for one; otherwise the error names the first invalid preference in its original spelling |
| Guardrails.MakeDietaryInput | guardrails.py:25-36 | a dietary record is built exactly when the preferences validate, with restrictions and allergies passed through |
| GoalAnalyzer.ParseInt | tools/goal_analyzer.py:27 | in the model, `int()` succeeds exactly on non-empty strings of ASCII digits (the other forms Python accepts are listed under Left out) |
| GoalAnalyzer.ParseDecimal | tools/goal_analyzer.py:25 | `float()` of a word succeeds only when it starts with a digit (its exact value is `ParseAmount`) |
| GoalAnalyzer.DurationWeeks | tools/goal_analyzer.py:28 | defined as the source's conditional; `DurationOfPeriod` states it for the periods the pattern allows |
| GoalAnalyzer.GoalRecord | tools/goal_analyzer.py:31-38 | the goal record is built exactly when both its goal type and its unit validate |
| GoalAnalyzer.Analyze | tools/goal_analyzer.py:23-38 | fewer than two words raise `IndexError`; a successful analysis had at least six words, a numeric second word and an integer fifth word |
| GoalAnalyzer.Run | tools/goal_analyzer.py:19-20 | a string that fails validation raises `ValueError` with the example message |
| GoalAnalyzer.SplitGoal | tools/goal_analyzer.py:23 | the words of an accepted goal are the verb, the amount, the unit, "in", the count and the period; they are one word fewer when no whitespace separates the amount from the unit |
| GoalAnalyzer.ParseAmount | tools/goal_analyzer.py:25 | `float()` reads an accepted amount as its exact decimal value |
| GoalAnalyzer.ParseAmountWithUnit | tools/goal_analyzer.py:25 | `float()` rejects an amount with the unit written next to it |
| GoalAnalyzer.DurationOfPeriod | tools/goal_analyzer.py:28 | a duration in months counts 4 weeks a month; a duration in weeks counts as written |
| GoalAnalyzer.GoalRecordAccepted | tools/goal_analyzer.py:31-38 | a valid goal type and unit give the record with the four fields in the source's order |
| GoalAnalyzer.AnalyzeSix | tools/goal_analyzer.py:23-38 | six well-formed words give the goal type from the verb, the amount, the unit and the duration in weeks |
| GoalAnalyzer.AnalyzeJoined | tools/goal_analyzer.py:23-25 | when the amount and the unit are one word, `run` raises the `float()` error for that word |
| GoalAnalyzer.RunAccepted | tools/goal_analyzer.py:8-38 | for every accepted goal, `run` returns the structured goal when whitespace separates amount and unit, and otherwise raises the `float()` error |
| GoalAnalyzer.ExampleMatches | tools/goal_analyzer.py:20 | "lose 5kg in 2 months" has the shape of the goal pattern |
| GoalAnalyzer.ExampleInMessageFails | tools/goal_analyzer.py:19-25 | the example in the tool's own error message passes validation, yet `run` raises `ValueError` because "5kg" is one word |
| MessageClassifier.AnyIn | utils/agent_utils.py:191 | `any(keyword in text ...)` holds exactly when some keyword is a substring of the text |
| MessageClassifier.FirstMatch | utils/agent_utils.py:187-219 | the category is "general" or one of the table's labels |
| MessageClassifier.FirstMatchIs | utils/agent_utils.py:187-219 | a row's label is returned exactly when that row matches and no earlier row does |
| MessageClassifier.FirstMatchGeneral | utils/agent_utils.py:187-219 | "general" is returned exactly when no row matches |
| MessageClassifier.ClassifyMessage | utils/agent_utils.py:185-219 | the category is "general" or one of the six labels; which one is `ClassifyFirstCategory` and `ClassifyGeneral` |
| MessageClassifier.CategoriesDistinct | utils/agent_utils.py:189-217 | the six category labels are distinct and none is "general" |
| MessageClassifier.ClassifyFirstCategory | utils/agent_utils.py:185-219 | a message gets category `i` exactly when a keyword of that category occurs in the lowercased message and no keyword of an earlier category does |
| MessageClassifier.ClassifyGeneral | utils/agent_utils.py:185-219 | "general" is returned exactly when no keyword of any category occurs |
| MessageClassifier.ClassifyIgnoresCase | utils/agent_utils.py:187 | classification ignores case |
| MessageClassifier.GreatIsNutrition | utils/agent_utils.py:195-197 | matching is by substring: "great" counts as nutrition because it contains "eat" |
| ContextManager.KeepRecent | utils/agent_utils.py:381-383 | the history keeps its last (at most) 50 entries: a suffix, unchanged up to 50 entries, exactly 50 beyond that |
| ContextManager.AddDropsOldest | utils/agent_utils.py:373-383 | adding to a full history drops exactly the oldest entry and appends the new one |
| ContextManager.RenderEntry | utils/agent_utils.py:393-394 | one entry renders to 26 characters of framing plus both previews of at most 100 characters each |
| ContextManager.RecentEntriesAre | utils/agent_utils.py:390 | `history[-limit:]` is the last `limit` entries for a positive limit, everything for 0, and all but the first `-limit` entries for a negative limit |
| ContextManager.RecentContext | utils/agent_utils.py:385-396 | defined as the header and the rendered `history[-limit:]`, or empty without history; `RecentContextBound` bounds it and `GetRecentContext` computes it |
| ContextManager.RenderAllBound | utils/agent_utils.py:392-394 | the rendered entries take at most 226 characters each |
| ContextManager.RecentContextBound | utils/agent_utils.py:385-396 | the recent context is bounded by its header plus 226 characters for each entry shown, and starts with the header when there is any history |
| ContextManager.RenderAllAppend | utils/agent_utils.py:392-394 | the entries are rendered in order, one after another |
| ContextManager.ContextManager.constructor | utils/agent_utils.py:360-362 | a new manager has an empty context and an empty history |
| ContextManager.ContextManager.UpdateContext | utils/agent_utils.py:364-367 | the key is set in the context and the history is unchanged |
| ContextManager.ContextManager.GetContext | utils/agent_utils.py:369-371 | defined as the key's value or the default; `GetAfterUpdate` relates it to `UpdateContext` |
| ContextManager.ContextManager.AddToHistory | utils/agent_utils.py:373-383 | the history becomes the last 50 of the old history plus the new interaction; the 50-entry invariant holds; the context is unchanged |
| ContextManager.ContextManager.GetRecentContext | utils/agent_utils.py:385-396 | the loop's result is the specification `RecentContext`: empty for an empty history, otherwise the header and the rendered recent entries |
| ContextManager.GetAfterUpdate | utils/agent_utils.py:364-371 | reading a key after an update gives the new value for that key and the old value for every other key |
| ConfigManager.Lookup | utils/agent_utils.py:332-341 | a dotted lookup gives the value reached by walking the keys through dicts, or the default when the walk fails |
| ConfigManager.LookupStops | utils/agent_utils.py:336-340 | a walk that reaches a non-dict or a dict missing the next key gives the default |
| ConfigManager.SetPath | utils/agent_utils.py:343-351 | setting can only fail with `TypeError`; on success the config is a dict whose top-level keys are kept, with the first key appended if it was new |
| ConfigManager.GetAfterSet | utils/agent_utils.py:332-351 | after a successful set, getting the same key gives the new value |
| ConfigManager.SetLeavesOthers | utils/agent_utils.py:332-351 | a successful set leaves every key path that diverges from the one set unchanged |
| ConfigManager.EmptyLookup | utils/agent_utils.py:336-340 | looking anything up in an empty config gives the default |
| ConfigManager.SetEmpty | utils/agent_utils.py:347-351 | setting a path in an empty dict creates the nested dicts for it |
| ConfigManager.SetCreatesPath | utils/agent_utils.py:347-351 | a missing first key is appended, holding nested dicts for the rest of the path |
| ConfigManager.SetBlocked | utils/agent_utils.py:347-351 | a path that runs into a non-dict raises `TypeError` |
| ConfigManager.DefaultModelAvailable | utils/agent_utils.py:224-256 | the default configuration's current model is the default model, and that model is among the available ones |
| ConfigManager.ConfigManager.constructor | utils/agent_utils.py:258-259 | a new manager holds the default configuration |
| ConfigManager.ConfigManager.Get | utils/agent_utils.py:332-341 | the loop's result is the specification `Lookup` over the key split on dots |
| ConfigManager.ConfigManager.Set | utils/agent_utils.py:343-351 | on success the config becomes the result of `SetPath`; otherwise `TypeError` is reported and the config is unchanged |
| ConfigManager.ConfigManager.SetModel | utils/agent_utils.py:325-330 | the model is set exactly when it is in the available list, and it is then the current model; otherwise nothing changes; errors reading the list propagate |
| ConfigManager.ModelSectionSet | utils/agent_utils.py:317-328 | setting `model.default_model` in a config with a model section succeeds and makes it the current model |
| ToolManager.RegisterOnlyItsName | utils/agent_utils.py:52-63 | registering a name changes what that name looks up to and no other name |
| ToolManager.ToolManager.constructor | utils/agent_utils.py:48-50 | a new registry is empty and has fallbacks enabled |
| ToolManager.ToolManager.RegisterTool | utils/agent_utils.py:52-59 | the name is registered with the new instance, or with None when construction failed |
| ToolManager.ToolManager.GetTool | utils/agent_utils.py:61-63 | defined as the registered entry for the name, if any; `RegisterOnlyItsName` relates it to `RegisterTool` |
| ToolManager.ToolManager.IsToolAvailable | utils/agent_utils.py:65-67 | a tool is available exactly when its name is registered with an instance |
| ToolManager.ToolManager.CallTool | utils/agent_utils.py:69-84 | calling an unavailable tool gives None; otherwise the method's outcome |
| ToolManager.FailedRegistration | utils/agent_utils.py:52-84 | a tool whose construction failed is registered yet unavailable, and calling it gives None |
| ResponseFormatter.MealPlanText | utils/agent_utils.py:90-116 | an empty plan gives the apology; formatting fails, with `AttributeError`, exactly when `meals` is present and not a dict; otherwise the text starts with the meal plan header |
| ResponseFormatter.MealTypesShown | utils/agent_utils.py:97-105 | every meal type of a meal dict appears as a title-cased heading in the text |
| ResponseFormatter.AppendInfo | utils/agent_utils.py:100-104 | the loop appends one line per key of the meal's info |
| ResponseFormatter.AppendMeal | utils/agent_utils.py:99-105 | one meal appends its heading, its info lines and a blank line |
| ResponseFormatter.AppendMeals | utils/agent_utils.py:98-105 | the loop appends one meal block per meal, in order |
| ResponseFormatter.FormatMealPlan | utils/agent_utils.py:90-116 | the method's result is the specification `MealPlanText` |
| ResponseFormatter.WorkoutPlanText | utils/agent_utils.py:119-151 | an empty plan gives the apology; otherwise the text starts with the workout plan header |
| ResponseFormatter.ExercisesShown | utils/agent_utils.py:126-140 | every exercise of an exercise list appears as its own line in the text |
| ResponseFormatter.AppendExercises | utils/agent_utils.py:127-140 | the loop appends the exercises header, one line per exercise and a blank line |
| ResponseFormatter.FormatWorkoutPlan | utils/agent_utils.py:119-151 | the method's result is the specification `WorkoutPlanText` |
| ResponseFormatter.StepsNumbered | utils/agent_utils.py:174-175 | step `k` is numbered `k + 1`, and each numbered prefix begins the whole list |
| ResponseFormatter.StepsFromOne | utils/agent_utils.py:174-175 | the step list begins with the first step, numbered 1 |
| ResponseFormatter.GoalAnalysisText | utils/agent_utils.py:154-179 | empty goal data gives the apology; otherwise the text starts with the goal analysis header |
| ResponseFormatter.AppendSteps | utils/agent_utils.py:173-175 | the loop appends the numbered step lines |
| ResponseFormatter.FormatGoalAnalysis | utils/agent_utils.py:154-179 | the method's result is the specification `GoalAnalysisText` |
| InputChecks.ValidateUserInput | utils/agent_utils.py:407-416 | a message is accepted exactly when it is not only whitespace and is at most 1000 characters long, whitespace included |
| InputChecks.PaddingCounts | utils/agent_utils.py:409-413 | a 1000-character message is accepted, but with one trailing space it is rejected, although its stripped text is within the limit |
| InputChecks.SanitizeResponse | utils/agent_utils.py:418-430 | an empty response becomes the apology; any other response is returned unchanged |
| InputChecks.SanitizeIdempotent | utils/agent_utils.py:418-430 | sanitising twice is sanitising once |
| SessionContext.NewSession | context.py:4-13 | a fresh session holds the name and id, has every optional field unset and has both logs empty |
| SessionContext.UserSessionContext.constructor | context.py:4-13 | a new context is the fresh session |
| SessionContext.UserSessionContext.UpdateGoal | context.py:15-16 | the goal is replaced and nothing else changes |
| SessionContext.UserSessionContext.UpdateDietPreferences | context.py:18-19 | the diet preferences are replaced and nothing else changes |
| SessionContext.UserSessionContext.UpdateWorkoutPlan | context.py:21-22 | the workout plan is replaced and nothing else changes |
| SessionContext.UserSessionContext.UpdateMealPlan | context.py:24-25 | the meal plan is replaced and nothing else changes |
| SessionContext.UserSessionContext.AddInjuryNote | context.py:27-28 | the injury note replaces any earlier note and nothing else changes |
| SessionContext.UserSessionContext.LogHandoff | context.py:30-31 | the message is appended at the end of the handoff log and nothing else changes |
| SessionContext.UserSessionContext.LogProgress | context.py:33-34 | the entry is appended at the end of the progress log and nothing else changes |
| Agent.GoalRouteRejected | agent.py:47-48 | a message that takes the goal branch is always rejected by the goal analyser with `ValueError` |
| Agent.RouteOf | agent.py:41-69 | defined as the keyword tests in source order; `HandleMessage` dispatches on it |
| Agent.KneePainNeedsDetails | agents/injury_support_agent.py:20-22 | "my knee pain" is routed to the injury agent, which rejects it for lacking the location, pain level and duration |
| Agent.HealthWellnessAgent.constructor | agent.py:10-21 | a new agent has no session |
| Agent.HealthWellnessAgent.InitializeSession | agent.py:23-28 | the agent holds a fresh session context for the user |
| Agent.HealthWellnessAgent.HandleMessage | agent.py:30-71 | every branch in source order: the nutrition agent's reply, the injury agent's reply or its `ValueError` when the description lacks the required details (agents/injury_support_agent.py:21-22), the goal branch (the analyser's error, or the goal recorded), "tell me your goal first" without a goal, the meal plan's `meals` recorded, the workout plan recorded, and the default reply; `AttributeError` without a session; the context is unchanged on every error and on the specialist and default branches |
| Agent.GoalNeverRecorded | agent.py:47-69 | no message changes the stored goal, so a session with no goal answers every meal-plan or workout request with "tell me your goal first" |
| App.ShownLinesAreTruthy | app.py:55-59 | a dict result shows exactly its truthy pairs, in order, one `* **Label:** value` line each |
| App.EmptyDictItem | app.py:65-71 | an empty dict item in a list result renders as just its number and a point |
| App.ProcessMessageText | app.py:40-42 | without a response iterator the reply is the apology |
| App.IgnoredChunk | app.py:45-96 | blank strings, dicts with neither key and other types leave the reply unchanged |
| App.AppendChunk | app.py:45-95 | defined as one turn of the loop; `IgnoredChunk`, `MarkupChunks` and `AppendExtends` state its cases, and `AddChunk` computes it |
| App.Accumulate | app.py:45-95 | defined as the fold of `AppendChunk` over the chunks; `AccumulateExtends` states that it only grows without list results |
| App.Cleanup | app.py:105 | defined as one pass of the triple-newline replacement and a strip; `FourNewlines` shows the single pass |
| App.MultiDigitIsPlain | app.py:83-95 | a chunk that starts with a number of two or more digits is treated as plain text, not as a list item |
| App.MarkupChunks | app.py:85-90 | a bullet chunk goes on a new line; a header chunk gets a blank line before and a newline after |
| App.AppendExtends | app.py:45-95 | every chunk other than a list result only appends to the reply; a list result's `rstrip` can reach back into earlier text |
| App.AccumulateExtends | app.py:45-95 | in a stream without list results, the reply after a prefix of the chunks begins the reply after all of them |
| App.FourNewlines | app.py:105 | the cleanup is one left-to-right pass: four newlines become three, not two |
| App.AppendDictResult | app.py:52-60 | the loop appends the line of each truthy pair |
| App.AppendItem | app.py:64-73 | one list item appends its numbered line, with the trailing ", " of a dict item stripped |
| App.AppendListResult | app.py:61-74 | the loop appends the results header, the numbered item lines and a final newline |
| App.AddChunk | app.py:46-95 | one chunk: a tool call appends its banner, a tool result its rendering by type, a non-blank string its stripped text; anything else leaves the reply unchanged |
| App.ProcessMessage | app.py:33-106 | the method's result is the specification `ProcessMessageText`: the accumulated chunks with triple newlines collapsed once and the ends stripped |

## Left out

- `ImprovedAsyncResponseIterator`: the producer task and the consumer run concurrently in the source. The model runs the producer to completion before the consumer's turns. The queue's timing, the 0.2 s timeout and `asyncio.create_task` are not modelled.
- The language-model client: the completion stream and `get_streaming_response` are parameters. So are the specialist agents' replies and the meal planner's and workout recommender's results. The injury agent's validation of the description, with the `ValueError` it raises (agents/injury_support_agent.py:21-22), is modelled. The rest of that agent and of the nutrition agent is not.
- Clocks: `asyncio.get_event_loop().time()` becomes an event timestamp in integer milliseconds. `datetime.now().isoformat()` becomes a timestamp parameter of `AddToHistory`.
- Printing and logging are left out, including the sensitive-pattern scan in `sanitize_response`, which only logs.
- `StreamHandler.format_tool_result` (utils/streaming.py:227-231): the static wrapper creates a handler and calls the same function, so it adds nothing.
- `ConfigManager.load_config`, `_load_from_env`, `_init_openrouter` and `get_ai_client` (utils/agent_utils.py:264-315), and the client re-initialisation at the end of `set` (353-355): file, environment and client I/O.
- ConfigManager.ConfigManager.constructor: `DEFAULT_CONFIG.copy()` is shallow, so in the source `set` can change the nested dicts of the class-level default. The model treats the config as a value, so this aliasing is not captured.
- `ToolManager.call_tool`: the method is found by reflection (`getattr`) and awaited. The model takes the method's outcome as a parameter, with None for a call that raised.
- `safe_tool_call`, `safe_async_call` and `async_error_handler` (utils/agent_utils.py:15-43, 399-405): wrappers that catch exceptions around arbitrary callables.
- Streamlit: the display updates inside `process_message` (app.py:97-102) and the session-state setup are UI.
- App.ProcessMessage: the final `except` branch (app.py:108-112) is not modelled. No operation in the model's loop raises.
- GoalAnalyzer.ParseDecimal: `float()` is modelled only on the digit strings that can reach it after validation, as exact decimals, not binary floats.
- Python's `str()` of a float prints a finite decimal in the model. The shortest round-trip representation of binary floats is not modelled.
- Digits are the ASCII digits `0`-`9` throughout (`PyStrings.IsDigit`). Python's `re` `\d`, `int()` and `float()` also accept the other Unicode decimal digits (category Nd). The three lines below name the contracts this makes weaker than the source.
- GoalStringComplete: the pattern's `\d` is ASCII here, so a goal written with other Unicode digits, such as "lose ٥ kg in ٢ weeks", is accepted by the source (guardrails.py:59-60) and then analysed, but rejected by the model with the example message.
- FormatAndFlushCases: the numbered case `^\d+\.\s*` takes ASCII digits only, so "٣. item" is numbered by the source (utils/streaming.py:140-141) but formatted as a paragraph by the model. The same holds for the numbered-list tests of `_should_flush_buffer` (line 106) and `_should_send_chunk` (line 309).
- ParseInt: `int()` is modelled on ASCII digit strings only. Python's `int()` also accepts a sign, surrounding whitespace, underscores between digits and other Unicode digits. After validation the fifth word is a run of `\d`, so of these only the non-ASCII digits can reach it, and the model's recogniser has already rejected those.
- Python's `str()` and `repr()` of strings inside lists and dicts (`PyValue.Str`, `PyValue.Repr`) always quote with `'` and escape nothing. Python picks `"` for a string that contains `'` but no `"`, and escapes backslashes, the chosen quote, control characters such as newlines, and non-printable characters. The text that reaches `App.ResultLine` and the key/value lines of `StreamFormat.FormatToolResult` through `str()` of a list or dict therefore differs from the source for such strings.
- Strings are ASCII-cased: `lower`, `upper` and `title` change only the letters A-Z and a-z. Unicode case mapping is not modelled.
- `WorkoutPlan` and `MealPlan` records (guardrails.py:38-55): only their field validator (`validate_difficulty`) is modelled. Building the records is plain field storage.

## Where the model departs from a plain reading

- In the source, `handle_message` sends every message containing "goal" to the goal analyser. No accepted goal string can contain "goal", so that branch always raises (`Guardrails.GoalWordRejected`, `Agent.GoalRouteRejected`). As a result no goal is ever recorded (`Agent.GoalNeverRecorded`).
- The analyser's own example, "lose 5kg in 2 months", passes validation and then fails in `float("5kg")` (`GoalAnalyzer.ExampleInMessageFails`).
- `_format_paragraph` (utils/streaming.py:168-193) searches for the punctuation to re-attach from offset `len(''.join(sentences[:i+1]))` (line 182). That offset counts the sentence texts but not the punctuation already consumed, so "A!! B." becomes "A!! B!" (`StreamFormat.ParagraphPunctuationDrift`). Formatting a formatted paragraph again can therefore change it.
- `stream_response` never splits a fragment. A fragment is appended to the buffer whole (utils/streaming.py:73), the length test at line 122 only decides that the buffer is flushed, and the whole buffer becomes one chunk (line 79). So a single fragment longer than 200 characters gives exactly one chunk.
- `validate_user_input` (utils/agent_utils.py:407-416) strips the message only for its emptiness test (line 409). The 1000-character limit at line 412 is on the message as given, so surrounding whitespace counts towards it (`InputChecks.PaddingCounts`).
- When the completion stream raises, the pending buffer is dropped in both streaming layers (`AsyncIterator.FailureDropsBuffer`, `StreamHandler.FailureDropsBuffer`).
- In `process_message`, the list-result `rstrip(", ")` can also remove trailing commas and spaces of the last value. An empty dict item renders as "i." (`App.EmptyDictItem`). The first plain chunk gets a leading space because `"".endswith(...)` is false; the final strip removes it.
- `ConfigManager.set` raises `TypeError` only when its path runs into an existing non-dict. Every dict it creates comes after the last existing one, so a failing `set` never leaves a partial change behind. The model therefore treats `set` as all-or-nothing.
