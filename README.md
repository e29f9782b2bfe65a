# Course-materials assistant: tools and answer loop, in Dafny

This project models the tool-mediated answer loop of a course-materials
question-answering backend. It has two parts.

**The tools and their registry** are the `SearchTools` module.
- `CourseSearchTool` asks the vector store for matching chunks. It answers with
  one of three things: the store's error, a "No relevant content found" sentence
  naming the truthy filters, or one labelled block per chunk. It also records
  one citation (`Source`) per distinct (course, lesson) pair, in first-seen order.
- `CourseOutlineTool` resolves a course name, finds its metadata record, and
  formats the outline with empty lines dropped.
- `ToolManager` maps tool names to tools, in Python dict insertion order. It
  answers calls to unknown names with a "not found" text, and it scans and
  resets the tools' `last_sources`.

**The answer loop** is the `AiGenerator` module, with its properties in
`AnswerLoop`.
- `generate_response` builds the system text and the first request. The tools
  and `tool_choice` are added only for a non-empty tool list.
- `_handle_tool_execution` runs up to `MAX_TOOL_ROUNDS = 2` rounds. Each round
  appends the assistant turn, then one tool result per tool-use block with the
  block's id; a tool's exception becomes `"Tool execution error: " + msg`. It
  then sends a follow-up request, which drops the tools once the cap is reached.
  The answer is the first text block of the last response, or `""`.

Supporting modules:
- `Wrappers`: `Option` and `Result`. `Result` stands for a Python exception.
- `Text`: `str(int)`, `sep.join`, and truthiness.
- `Dedup`: first-seen deduplication.
- `PyDict`: dict assignment and iteration order.
- `VectorStore`: the shapes of the store's data, and the store as lookup functions.

How the model is built:
- Code that updates state is written as classes with `modifies` clauses. These
  are the tools' `last_sources`, the registry's dict, and the model client's
  call log.
- Each method is proved equal to a specification function. For example,
  `GenerateResponse` is tied to `Generate` and `FormatResults` to
  `ResultsText`/`SourcesFor`. The properties are then proved about those
  functions.
- The language model is a function `reply(i, request)`: the response to the
  `i`-th call. The client records every request it is sent.

Three behaviours of the code matter here:
- **The direct path.** On the path with no tool use, the code returns
  `response.content[0].text`, so an empty content list or a leading tool-use
  block raises. The model returns `Err` for these.
- **The first request.** Tools are sent on the first request only when the
  tool list is truthy.
- **Tool errors.** The docstring of `_handle_tool_execution`
  (`backend/ai_generator.py:112`) lists a tool error among the ways the loop
  ends. The code does not stop on one: it turns the exception into the text
  `Tool execution error: ...`, sends it back as that block's result, and goes
  on to the next round (`backend/ai_generator.py:134-170`). The model follows
  the code; `AnswerLoop.ToolErrorDoesNotEndLoop` states it.

## Model

| member | source | states |
|---|---|---|
| Text.IntToString | backend/search_tools.py:102 | `str(n)` is non-empty, starts with '-' exactly for negative numbers, and is digits otherwise |
| Text.IntToStringInjective | backend/search_tools.py:106 | different lesson numbers render differently, so the lesson part of the key identifies the lesson |
| Text.JoinContains | backend/search_tools.py:129 | every part of a join occurs in the joined text |
| Dedup.FirstSeenKeys | backend/search_tools.py:108-110 | deduplication keeps an element for every key of the input, and for no other key |
| Dedup.FirstSeenDistinct | backend/search_tools.py:108-110 | no key is kept twice |
| Dedup.FirstSeenLength | backend/search_tools.py:108-110 | as many elements are kept as there are distinct keys |
| Dedup.FirstSeenOrder | backend/search_tools.py:105-122 | each kept element is the first with its key, and kept elements appear in the order their keys first occur |
| PyDict.Dict.Put | backend/search_tools.py:216 | `d[k] = v`: v is stored under k and other keys keep their values; an existing key keeps its position and a new key goes last |
| PyDict.Dict.Values | backend/search_tools.py:221 | `values()` lists one value per key, in key order |
| PyDict.PutAllKeys | backend/search_tools.py:210-216 | after a series of assignments, the key order is the order of first assignment, each key once |
| PyDict.PutAllLastWins | backend/search_tools.py:216 | a key holds the value assigned to it last |
| PyDict.PutAllSize | backend/search_tools.py:216 | the number of keys is the number of distinct keys assigned |
| SearchTools.RowsOf | backend/search_tools.py:95-97 | `zip` pairs documents and metadata up to the shorter list; the title defaults to 'unknown' and the lesson is `None` when absent |
| SearchTools.SourceKeyInjective | backend/search_tools.py:106 | the string key `title\|lesson` determines the (title, lesson) pair, even for titles containing '\|' |
| SearchTools.SeenIffKnown | backend/search_tools.py:106-110 | a row's string key is in `seen_sources` exactly when its (title, lesson) pair occurred in an earlier row |
| SearchTools.LoopSourcesCorrect | backend/search_tools.py:105-122 | the citations the loop collects on string keys are the first-seen citations of the (title, lesson) pairs |
| SearchTools.LoopLookupsCorrect | backend/search_tools.py:117-120 | the loop looks up the links of exactly the new pairs that have a lesson number |
| SearchTools.LoopFinished | backend/search_tools.py:124-129 | after the last row, the loop's blocks joined by blank lines are the results text, and its citations and lookups are the specified ones |
| SearchTools.SourcesDeduplicated | backend/search_tools.py:105-127 | one citation per distinct (title, lesson) pair, no pair twice, each built from the first row with that pair, in first-occurrence order |
| SearchTools.DuplicateLessonFirstSeen | backend/tests/test_search_tools.py:172-195 | rows of (A,1), (A,1), (A,2) deduplicate to the first and the third row |
| SearchTools.SameLessonFirstSeen | backend/search_tools.py:109 | a second row with the same pair adds nothing |
| SearchTools.DuplicateLessonGivesTwoSources | backend/tests/test_search_tools.py:172-195 | rows of (A,1), (A,1), (A,2) give exactly the citations "A - Lesson 1" and "A - Lesson 2", with their looked-up links |
| SearchTools.LinkLookupsDistinct | backend/search_tools.py:109-120 | no (title, lesson) pair has its link looked up twice |
| SearchTools.LinkLookupsOnlyForLessons | backend/search_tools.py:117-120 | `get_lesson_link(t, n)` is called exactly for the pairs (t, Some(n)) of the results, at most once per pair, and never when no row has a lesson |
| SearchTools.ResultsTextHasEveryBlock | backend/search_tools.py:100-103 | every chunk's block `[title - Lesson n]\ndoc` occurs in the text given to the model |
| SearchTools.NoContentMentionsCourse | backend/search_tools.py:78-84 | with a truthy course name, the "no content" message contains ` in course '<c>'` |
| SearchTools.NoContentMentionsLesson | backend/search_tools.py:78-84 | with a truthy lesson number, the message contains ` in lesson <n>` |
| SearchTools.NoContentIgnoresFalsyFilters | backend/search_tools.py:78-84 | lesson 0 and the empty course name count as no filter; with no truthy filter the message is `No relevant content found.` |
| SearchTools.SearchErrorIsReturned | backend/search_tools.py:74-75 | a truthy store error is returned verbatim, whatever documents came with it, and `last_sources` keeps its previous value |
| SearchTools.FindCourse | backend/search_tools.py:172 | `next(...)` finds the first record whose title equals the resolved title, or `None` exactly when no record has it |
| SearchTools.OutlineHeaderFiltered | backend/search_tools.py:185-191 | filtering the header drops exactly the blank separator, and the link line when the link is falsy |
| SearchTools.OutlineLines | backend/search_tools.py:179-201 | the outline is the course line, the link line if the link is truthy, `Total Lessons: <number of lessons>`, `Lessons:`, and one line per lesson in stored order |
| SearchTools.OutlineErrors | backend/search_tools.py:166-175 | an unresolved name gives `No course found matching '<t>'`, and a resolved title without a record gives `Could not retrieve metadata for course '<t>'`; neither touches `last_sources` |
| SearchTools.OutlineSourceIsTheCourse | backend/search_tools.py:199 | a found course leaves exactly one citation: the course title and its link |
| SearchTools.CourseSearchTool.constructor | backend/search_tools.py:24-26 | a new search tool has no citations |
| SearchTools.CourseSearchTool.Execute | backend/search_tools.py:53-87 | the text is the error, the "no content" message or the results text; `last_sources` and the recorded `get_lesson_link` calls change only on the formatting path, where they become the deduplicated citations and the specified lookups |
| SearchTools.CourseSearchTool.FilterText | backend/search_tools.py:79-83 | `filter_info` is built from the truthy filters |
| SearchTools.CourseSearchTool.Header | backend/search_tools.py:100-103 | the header is `[title]`, or `[title - Lesson n]` when the lesson is not `None` |
| SearchTools.CourseSearchTool.NewSource | backend/search_tools.py:112-122 | a new citation is the title plus lesson suffix, with a link only when there is a lesson number, looked up once |
| SearchTools.CourseSearchTool.Cite | backend/search_tools.py:105-122 | one loop step keeps `seen_sources`, the citations and the lookups equal to their specification after one more row |
| SearchTools.CourseSearchTool.FormatResults | backend/search_tools.py:89-129 | the text joins one block per chunk with blank lines; `last_sources` is replaced by the deduplicated citations; the lookups are the specified ones |
| SearchTools.CourseOutlineTool.constructor | backend/search_tools.py:135-137 | a new outline tool has no citations |
| SearchTools.CourseOutlineTool.Execute | backend/search_tools.py:155-177 | the text is one of the two error messages or the outline, and `last_sources` changes only when the course is found |
| SearchTools.CourseOutlineTool.FormatOutline | backend/search_tools.py:179-201 | the outline text of the record, and `last_sources` becomes `[Source(title, course_link)]` |
| SearchTools.NameIsDefinitionName | backend/search_tools.py:212-213 | a tool is registered under the name its definition advertises |
| SearchTools.RunTool | backend/search_tools.py:228 | the tool's `execute` output, or the `TypeError` for arguments of the other tool; only that tool's citations change |
| SearchTools.Register | backend/search_tools.py:210-216 | registration keeps the registry a well-formed dict |
| SearchTools.DefinitionsOf | backend/search_tools.py:219-221 | one definition per registered name |
| SearchTools.RegisterAllIsPutAll | backend/search_tools.py:210-216 | registering a sequence of tools is assigning the named ones by name, in order |
| SearchTools.RegistrationDefinitions | backend/search_tools.py:210-221 | the number of definitions is the number of distinct non-empty names, and the names are in first-registration order |
| SearchTools.RegistrationLastWins | backend/search_tools.py:216 | re-registering a name replaces the tool: the tool registered last under a name is the one held |
| SearchTools.RegisterAllSnoc | backend/search_tools.py:210-216 | registering one more tool is one more `register_tool` |
| SearchTools.ContentToolsRegistered | backend/search_tools.py:210-216 | registering the search tool and then the outline tool gives both names, in that order |
| SearchTools.RegisteringTwiceKeepsTwo | backend/search_tools.py:210-221 | registering the search tool, the outline tool and another search tool leaves two names in first-registration order, and the second search tool wins |
| SearchTools.ToolManager.constructor | backend/search_tools.py:207-208 | a new registry is empty |
| SearchTools.ToolManager.RegisterTool | backend/search_tools.py:210-216 | a tool without a name raises the `ValueError` and leaves the registry unchanged; otherwise it is stored under its name |
| SearchTools.ToolManager.GetToolDefinitions | backend/search_tools.py:219-221 | one definition per registered name, in registration order, each carrying its name |
| SearchTools.ToolManager.LastSourcesFrom | backend/search_tools.py:233-236 | the first non-empty `last_sources` from a position on, or empty exactly when all are empty |
| SearchTools.ToolManager.GetLastSources | backend/search_tools.py:230-236 | the first non-empty `last_sources` in registration order, or `[]` exactly when every tool's is empty |
| SearchTools.ToolManager.ObjectsSeparate | backend/search_tools.py:216 | tools under different names are distinct objects |
| SearchTools.ToolManager.ExecuteTool | backend/search_tools.py:223-228 | an unregistered name gives `Tool '<name>' not found` and raises nothing; otherwise the tool's outcome; only the named tool's citations change |
| SearchTools.ToolManager.ResetSources | backend/search_tools.py:238-242 | every tool's `last_sources` is empty afterwards, and `get_last_sources()` returns `[]` |
| AiGenerator.ModelClient.Create | backend/ai_generator.py:98 | a call records its request and returns the model's reply to that call |
| AiGenerator.AIGenerator.constructor | backend/ai_generator.py:50-59 | the generator keeps its client, model and system prompt |
| AiGenerator.AIGenerator.GenerateResponse | backend/ai_generator.py:61-105 | the calls sent, the answer and the tool calls made are those of `Generate`; the registry is unchanged, and every tool no call names keeps its `last_sources` (all of them on the direct path, where no tool is called) |
| AiGenerator.AIGenerator.Send | backend/ai_generator.py:98 | the first call records its request and returns the reply, and no tool's `last_sources` changes |
| AiGenerator.AIGenerator.ComposeSystem | backend/ai_generator.py:79-83 | the system text of `generate_response` |
| AiGenerator.AIGenerator.BuildRequest | backend/ai_generator.py:86-95 | the first request, with tools and `tool_choice` only for a truthy tool list |
| AiGenerator.AIGenerator.FirstBlockText | backend/ai_generator.py:105 | `content[0].text`, with `IndexError` for empty content and `AttributeError` for a tool-use block |
| AiGenerator.AIGenerator.HandleToolExecution | backend/ai_generator.py:107-177 | the follow-ups sent, the text returned and the tool calls made are those of `RoundLoop` from round 0; every tool no call names keeps its `last_sources` |
| AiGenerator.AIGenerator.RunRound | backend/ai_generator.py:127-170 | one loop iteration moves the state and the call log exactly as `Round` does; the calls made so far only grow, and every tool no call names keeps its `last_sources` |
| AiGenerator.AIGenerator.ExecuteToolUses | backend/ai_generator.py:131-146 | the results and the calls of one round are `ToolResults`/`ToolCalls` of the response; exceptions become text; every tool no tool-use block names keeps its `last_sources` |
| AiGenerator.AIGenerator.ExtractText | backend/ai_generator.py:172-177 | the text of the first text block, or `""` |
| AnswerLoop.SystemContentShape | backend/ai_generator.py:79-83 | the prompt comes first; it is followed by `\n\nPrevious conversation:\n` and the history exactly when the history is truthy, and is unchanged otherwise |
| AnswerLoop.FirstRequestGating | backend/ai_generator.py:86-95 | the first request has the query as its only message, and has tools (with `tool_choice` auto) exactly when the tool list is non-empty |
| AnswerLoop.ResultsFollowToolUses | backend/ai_generator.py:132-146 | after any prefix of the blocks, the results and calls follow the tool-use blocks of that prefix one to one |
| AnswerLoop.ToolResultsCorrelate | backend/ai_generator.py:132-146 | one result per tool-use block, in order, with the block's id, holding the tool's text or `Tool execution error: ` + message; one call per block with its name and input |
| AnswerLoop.ToolUsesEmpty | backend/ai_generator.py:149 | there are no tool results exactly when the response has no tool-use block |
| AnswerLoop.RoundHistory | backend/ai_generator.py:128-150 | a round appends the assistant turn, then a user turn with the results only when there was a tool-use block |
| AnswerLoop.FirstRoundHistory | backend/ai_generator.py:122-150 | after one round on a tool-use response, the history is [query, assistant turn, tool results]: three messages |
| AnswerLoop.RoundLoopCount | backend/ai_generator.py:126-170 | the loop runs at least one round and at most `MAX_TOOL_ROUNDS`, sends one follow-up per round, and stops below the cap only on a response that does not ask for tools |
| AnswerLoop.RoundLoopGating | backend/ai_generator.py:155-164 | the follow-up after round k keeps the system text, and carries tools with `tool_choice` auto exactly when k < `MAX_TOOL_ROUNDS` and the first request had tools |
| AnswerLoop.RoundLoopReplies | backend/ai_generator.py:166-170 | every response in the loop but the last asked for tools, and the final response is the reply to the last follow-up |
| AnswerLoop.RoundLoopDispatched | backend/ai_generator.py:126-170 | the loop executes the tool-use blocks of the current response and then of every new response but the last, in order; the response that ends the loop has none of its tool calls executed |
| AnswerLoop.LoopFromStart | backend/ai_generator.py:122-170 | from round 0: 1 to `MAX_TOOL_ROUNDS` rounds, one follow-up per round, each gated by its round number, and an early stop only on a non-tool-use response |
| AnswerLoop.GenerateDirect | backend/ai_generator.py:98-105 | without a tool manager, or when the first response does not ask for tools, exactly one call is made, no tool is called, and the result is `content[0].text` |
| AnswerLoop.GenerateCalls | backend/ai_generator.py:98-170 | rounds ≤ `MAX_TOOL_ROUNDS`; calls = rounds + 1 (so at most three); every response but the last asked for tools; with a manager, a stop below the cap is on a non-tool-use response |
| AnswerLoop.GenerateDispatched | backend/ai_generator.py:98-170 | the tools executed are the tool-use blocks of every response but the last, in response order: none on the direct path, and none of the final response |
| AnswerLoop.GenerateGating | backend/ai_generator.py:155-164 | the i-th follow-up has the first request's system text, and has tools and auto choice exactly when i < `MAX_TOOL_ROUNDS` and the tool list was non-empty, so the call after the last round has none |
| AnswerLoop.GenerateWithTools | backend/ai_generator.py:101-177 | on the tool path at least one round runs, and the answer is the first text block of the last response (never an error) |
| AnswerLoop.ToolErrorDoesNotEndLoop | backend/ai_generator.py:134-170 | a tool that raises does not end the loop: its block's result is `Tool execution error: ` + message, the follow-up carries the results, and a model that asks for tools again gets the second round |
| AnswerLoop.AlwaysToolUseHitsCap | backend/ai_generator.py:126-170 | a model that always asks for tools gets exactly `MAX_TOOL_ROUNDS` rounds and `MAX_TOOL_ROUNDS + 1` calls, the last without tools, and exactly the tool calls of the first two responses are executed |
| AnswerLoop.FirstTextIsFirst | backend/ai_generator.py:172-177 | the final text is that of the first text block, and `""` when there is none |

## Left out

- The Anthropic client and the network. The model is the function `reply`; API errors and their propagation are not modelled.
- The text of `SYSTEM_PROMPT`. It is the constructor parameter `systemPrompt`. The pre-built `base_params` are the constants `TEMPERATURE` and `MAX_TOKENS`.
- The JSON schemas of the tool definitions. They are kept as records (`ToolDefinition`). Only the name matters to the registry.
- Python `**kwargs`. The arguments are one record per tool signature (`Arguments`). A record of the other tool's signature raises `TypeError`, with CPython's message.
- Duck typing. Blocks are `TextBlock | ToolUseBlock`, and tools are `SearchTool | OutlineTool | OtherTool`. An `OtherTool` has no `last_sources`, like `hasattr` being false. Following the real SDK, a tool-use block has no `.text`.
- The vector store internals (`search`, `_resolve_course_name`, `get_lesson_link`, `get_all_courses_metadata`). They are given functions and data; `vector_store.py` is not part of this model. `results.is_empty()` is taken to mean "no documents". The `distances` field is never read and is not kept.
- Aliasing of lists. `messages` is shared by reference between the follow-up requests in Python; here each recorded request holds the history by value, as it was when sent.
- AiGenerator.AIGenerator.GenerateResponse: does not state the `last_sources` of the tools that were called, only that the others keep theirs. The citations a called tool leaves depend on the order of the calls, on their arguments and on the store.
- AiGenerator.AIGenerator.HandleToolExecution: does not state the `last_sources` of the tools that were called, for the same reason.
- AiGenerator.AIGenerator.RunRound: does not state the `last_sources` of the tools called in the round, for the same reason.
- AiGenerator.AIGenerator.ExecuteToolUses: does not state the `last_sources` of the tools the blocks name. Each call's effect is stated by `SearchTools.ToolManager.ExecuteTool`.
- The `RAGSystem` caller, session history, document chunking, and the HTTP application. They are outside the modelled files.
